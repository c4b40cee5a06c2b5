/** Vocabulary shared by every model: identifiers, digests, clocks and optional columns. */
module Common {

  /** An identifier or reference. The protocols only ever compare them, so they are
      modelled as numbers; NONE stands for the empty string or a null column. */
  type Id = nat

  const NONE: Id := 0

  /** A digest. Digests are only ever compared, so they are modelled as injective. */
  type Digest = nat

  /** Milliseconds. */
  type Time = int

  newtype Byte = x: int | 0 <= x < 256

  const MAX_INT64: int := 0x7FFF_FFFF_FFFF_FFFF

  datatype Option<+T> = None | Some(value: T)

  function Min(a: int, b: int): int {
    if a <= b then a else b
  }
}
