/** Checkpoint state roots and manifests (internal/app/agentd/checkpoint.go). The text rules
    and path.Clean are any functions; only order, prefixes and bounds matter here. */
module StatePaths {
  import opened Text

  datatype Rules = Rules(text: (string, nat) -> bool, clean: string -> string)

  predicate StatePath(rules: Rules, s: string) {
    rules.text(s, 1024) && rules.clean(s) == s
  }

  /** b lies inside a. */
  predicate Inside(b: string, a: string) {
    HasPrefix(b, a + "/")
  }

  predicate Covers(root: string, full: string) {
    full == root || Inside(full, root)
  }

  /** No path of the list is another one, or inside another one, in either direction. */
  ghost predicate Antichain(paths: seq<string>) {
    forall i, j | 0 <= i < |paths| && 0 <= j < |paths| && i != j :: !Covers(paths[i], paths[j])
  }

  ghost predicate Sorted(paths: seq<string>) {
    forall i, j | 0 <= i < j < |paths| :: Less(paths[i], paths[j])
  }

  /** What the nested loops look at: each path against the earlier ones only. */
  ghost predicate Forward(paths: seq<string>, i: nat)
    requires i < |paths|
  {
    forall j | 0 <= j < i :: Less(paths[j], paths[i]) && !Inside(paths[i], paths[j])
  }

  /** A path sorts before everything inside it, so the backward tests would be idle. */
  lemma NeverInsideLater(a: string, b: string)
    ensures Covers(b, a) ==> !Less(a, b)
  {
    if Covers(b, a) {
      if a == b {
        LessIrreflexive(a);
      } else {
        assert b == (b + "/")[..|b|] == a[..|b|];
        PrefixLess(b, a);
        LessAsymmetric(b, a);
      }
    }
  }

  /** Testing earlier against later is testing every pair both ways. */
  lemma ForwardIsAntichain(paths: seq<string>)
    ensures (forall i | 0 <= i < |paths| :: Forward(paths, i)) <==> Sorted(paths) && Antichain(paths)
  {
    if forall i | 0 <= i < |paths| :: Forward(paths, i) {
      forall i, j | 0 <= i < j < |paths| ensures Less(paths[i], paths[j]) && !Inside(paths[j], paths[i]) {
        assert Forward(paths, j);
      }
      forall i, j | 0 <= i < |paths| && 0 <= j < |paths| && i != j ensures !Covers(paths[i], paths[j]) {
        if i < j {
          LessIrreflexive(paths[i]);
        } else {
          NeverInsideLater(paths[j], paths[i]);
        }
      }
    }
    if Sorted(paths) && Antichain(paths) {
      forall i | 0 <= i < |paths| ensures Forward(paths, i) {
        forall j | 0 <= j < i ensures Less(paths[j], paths[i]) && !Inside(paths[i], paths[j]) {
          assert !Covers(paths[j], paths[i]);
        }
      }
    }
  }

  ghost predicate RootsAccepted(rules: Rules, roots: seq<string>) {
    && 1 <= |roots| <= 32
    && (forall i | 0 <= i < |roots| :: StatePath(rules, roots[i]) && HasPrefix(roots[i], "/state/"))
    && Sorted(roots) && Antichain(roots)
  }

  /** The inner loop of both checks. */
  method AfterEarlier(paths: seq<string>, i: nat) returns (ok: bool)
    requires i < |paths|
    ensures ok <==> Forward(paths, i)
  {
    var j := 0;
    while j < i
      invariant j <= i
      invariant forall k | 0 <= k < j :: Less(paths[k], paths[i]) && !Inside(paths[i], paths[k])
    {
      var less := Compare(paths[j], paths[i]);
      if !less || Inside(paths[i], paths[j]) {
        return false;
      }
      j := j + 1;
    }
    return true;
  }

  method StateRoots(rules: Rules, roots: seq<string>) returns (ok: bool)
    ensures ok <==> RootsAccepted(rules, roots)
  {
    ForwardIsAntichain(roots);
    if |roots| == 0 || |roots| > 32 {
      return false;
    }
    var i := 0;
    while i < |roots|
      invariant i <= |roots|
      invariant forall k | 0 <= k < i ::
                  StatePath(rules, roots[k]) && HasPrefix(roots[k], "/state/") && Forward(roots, k)
    {
      if !StatePath(rules, roots[i]) || !HasPrefix(roots[i], "/state/") {
        return false;
      }
      var after := AfterEarlier(roots, i);
      if !after {
        return false;
      }
      i := i + 1;
    }
    return true;
  }

  // ---------------------------------------------------------------- manifests

  datatype Manifest = Manifest(vendor: string, format: string, paths: seq<string>)

  function Full(name: string): string {
    "/state/" + name
  }

  predicate Relative(rules: Rules, name: string) {
    && StatePath(rules, name)
    && !HasPrefix(name, "/") && name != "." && name != ".." && !HasPrefix(name, "../")
  }

  ghost predicate Allowed(roots: seq<string>, name: string) {
    exists i | 0 <= i < |roots| :: Covers(roots[i], Full(name))
  }

  ghost predicate ManifestAccepted(rules: Rules, m: Manifest, roots: seq<string>, format: string) {
    && rules.text(m.vendor, 256) && m.format == format && |m.paths| <= 64
    && (forall i | 0 <= i < |m.paths| :: Relative(rules, m.paths[i]) && Allowed(roots, m.paths[i]))
    && Sorted(m.paths) && Antichain(m.paths)
  }

  method UnderSomeRoot(roots: seq<string>, name: string) returns (allowed: bool)
    ensures allowed <==> Allowed(roots, name)
  {
    allowed := false;
    var i := 0;
    while i < |roots|
      invariant i <= |roots|
      invariant allowed <==> exists k | 0 <= k < i :: Covers(roots[k], Full(name))
    {
      var full := "/state/" + name;
      if full == roots[i] || HasPrefix(full, roots[i] + "/") {
        assert Covers(roots[i], Full(name));
        allowed := true;
      }
      i := i + 1;
    }
  }

  method StateManifest(rules: Rules, m: Manifest, roots: seq<string>, format: string) returns (ok: bool)
    ensures ok <==> ManifestAccepted(rules, m, roots, format)
  {
    ForwardIsAntichain(m.paths);
    if !rules.text(m.vendor, 256) || m.format != format || |m.paths| > 64 {
      return false;
    }
    var i := 0;
    while i < |m.paths|
      invariant i <= |m.paths|
      invariant forall k | 0 <= k < i ::
                  Relative(rules, m.paths[k]) && Allowed(roots, m.paths[k]) && Forward(m.paths, k)
    {
      var name := m.paths[i];
      if !StatePath(rules, name) || HasPrefix(name, "/") || name == "." || name == ".." || HasPrefix(name, "../") {
        return false;
      }
      var allowed := UnderSomeRoot(roots, name);
      if !allowed {
        return false;
      }
      var after := AfterEarlier(m.paths, i);
      if !after {
        return false;
      }
      i := i + 1;
    }
    return true;
  }

  /** Two paths that cover the same one cover each other. */
  lemma CoversTogether(a: string, b: string, full: string)
    requires Covers(a, full) && Covers(b, full) && |a| <= |b|
    ensures Covers(a, b)
  {
    if |a| == |b| {
      assert a == full[..|a|] == b;
    } else {
      assert b == full[..|b|];
      assert a + "/" == full[..|a| + 1] == b[..|a| + 1];
    }
  }

  /** Each accepted manifest path lies under exactly one accepted root. */
  lemma ExactlyOneRoot(rules: Rules, m: Manifest, roots: seq<string>, format: string, n: nat) returns (i: nat)
    requires RootsAccepted(rules, roots) && ManifestAccepted(rules, m, roots, format) && n < |m.paths|
    ensures i < |roots| && forall j | 0 <= j < |roots| :: Covers(roots[j], Full(m.paths[n])) <==> j == i
  {
    assert Allowed(roots, m.paths[n]);
    i :| 0 <= i < |roots| && Covers(roots[i], Full(m.paths[n]));
    forall j | 0 <= j < |roots| && Covers(roots[j], Full(m.paths[n])) ensures j == i {
      if |roots[i]| <= |roots[j]| {
        CoversTogether(roots[i], roots[j], Full(m.paths[n]));
      } else {
        CoversTogether(roots[j], roots[i], Full(m.paths[n]));
      }
    }
  }
}
