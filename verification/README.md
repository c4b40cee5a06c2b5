# Verified protocols of ThinkPixelAR

ThinkPixelAR is a fenced, journalled control plane for agent sandboxes. This project
models its protocols and a few of its algorithms in Dafny and proves what they promise
over every run. `dafny verify dfyconfig.toml` checks all of it.

Each database transaction is one atomic step: it commits wholly, or leaves the rows as
they were. A protocol is a datatype of rows, one step function per transaction, and runs
that interleave the steps in any order. An invariant holds of every reachable state, an
"advanced" relation says what no step ever takes back, and the theorems compare two or
more moments of one run. Beside each protocol stands a class whose methods read and write
the rows in the order of the source and are proved to do exactly the step. The files
named Outcomes, Connections, Answers and Effects then say what a step achieved without
naming it: by what was sent or accepted before, and by what can be loaded, passed or
repeated afterwards. Callbacks,
policies, clocks, providers and fresh identifiers are arbitrary inputs of a step.

| files | subject |
|---|---|
| AgentdRegistry, AgentdConnections, AgentdCredentials | credentials and connections of a sandbox |
| AgentdFrames, AgentdOutcomes, AgentdPolicy | frame admission, sequence rows and the command ledger |
| AgentdDispatch, AgentdServer | the server's dispatch loop, over reconnects and restarts |
| AgentdLedger | frame admission and the compute store as one system |
| AgentdLink, AgentdAnswers, AgentdAgent, AgentdControl | the agent's loop over a FIFO link, what it answers, and its process ledger |
| SandboxCompute, SandboxEffects, SandboxJournal, SandboxLineage, SandboxSuspend, SandboxStore | bindings, operations, recovery, suspension and replacement |
| SandboxWorkers, SandboxReconciler | reconciliation workers between load and record |
| SessionJournal, SessionRuns, SessionEffects, SessionStore | suspend and resume |
| WorkspaceGenerations, WorkspaceRuns, WorkspaceEffects, WorkspaceStore | generation publication |
| CaptureLines, CaptureWriter, CaptureQueue, CaptureSystem | output capture |
| EventStream | event replay |
| StatePaths, Text | checkpoint roots and manifests |
| Identifiers | UUIDv7 printing and parsing, section 5.7 of RFC 9562 |

## Assumptions

- The tables' keys hold: one command row per operation, one credential per digest, one
  binding per sandbox and per Attempt, one replacement per lost sandbox, one row per
  operation identifier, one cleanup per external reference and per cleanup operation, one
  open resume candidate per Session. A step that would break a key is refused, as the
  insert would fail.
- Digests are injective, so a digest comparison is a comparison of what is digested.
- A new identifier made inside a transaction is not yet in any journal.
- One transaction sees one reading of the database clock, except where the source reads
  several clocks (EventStream, the registry's host and database time).
- Every other writer of a Session row raises its version, as all of them do in the source.
- Attempts are created only by admission of an Execution and by replacement.
- Identifiers, references and digests are numbers, since they are only compared; tenants
  and provider kinds are left implicit because every row and query carries the same one.

## Model

| member | source | states |
|---|---|---|
| AgentdRegistry.EpochsIncrease | internal/adapters/postgres/agentd_credentials.go:157-260 | in every run, connections of a sandbox have strictly increasing epochs, whether opened by bootstrap or reconnect |
| AgentdRegistry.OneRegistrationPerVersion | internal/adapters/postgres/agentd_credentials.go:88-156 | two registrations under one grant version never both commit; later ones carry a larger version |
| AgentdRegistry.BootstrapConsumedOnce | internal/adapters/postgres/agentd_credentials.go:157-196 | a bootstrap certificate is consumed at most once in a run |
| AgentdRegistry.SupersededNeverConnects | internal/adapters/postgres/agentd_credentials.go:157-260 | a certificate its sandbox has moved past never opens a connection again, on any sandbox |
| AgentdRegistry.LostConnectionStaysLost | internal/adapters/postgres/agentd_credentials.go:224-260 | a connection that is no longer current never is again, and closing it late changes nothing |
| AgentdConnections.OpenedIsHeld | internal/adapters/postgres/agentd_credentials.go:157-260 | a connection just opened is held by its peer under the answered name and epoch, exactly until its deadline, and by nobody under another |
| AgentdConnections.RegisteredBootstrapConnects | internal/adapters/postgres/agentd_credentials.go:88-196 | a registered bootstrap opens a connection with its proof exactly while it is valid |
| AgentdConnections.RotatedCertificateTakesOver | internal/adapters/postgres/agentd_credentials.go:88-156 | a rotated certificate reconnects, and the connection that asked for it lives on for at most the grace period |
| AgentdConnections.RecoveryDisconnects | internal/adapters/postgres/agentd_credentials.go:88-156 | an accepted recovery registration shuts out every earlier connection, by epoch as well |
| AgentdConnections.ClosedIsGone | internal/adapters/postgres/agentd_credentials.go:224-236 | closing the held connection leaves nobody connected and ends every grant |
| AgentdConnections.GrantedVersionIsDemanded | internal/adapters/postgres/agentd_credentials.go:70-80 | the granted version is the one a registration must name, until the row moves |
| AgentdCredentials.Store.Version | internal/adapters/postgres/agentd_credentials.go:70-80 | creates the version row once and returns it |
| AgentdCredentials.Store.Register | internal/adapters/postgres/agentd_credentials.go:88-156 | the transaction is exactly the registration step |
| AgentdCredentials.Store.ConsumeBootstrap | internal/adapters/postgres/agentd_credentials.go:157-196 | the transaction is exactly the consumption step |
| AgentdCredentials.Store.CheckConnection | internal/adapters/postgres/agentd_credentials.go:197-207 | true if and only if the peer holds the sandbox's current, unexpired connection |
| AgentdCredentials.Store.CloseConnection | internal/adapters/postgres/agentd_credentials.go:224-236 | closes exactly the named connection and epoch, otherwise nothing |
| AgentdCredentials.Store.Reconnect | internal/adapters/postgres/agentd_credentials.go:237-260 | the transaction is exactly the reconnect step |
| AgentdFrames.RunInvariant | internal/adapters/postgres/agentd_policy.go:257-300 | in every reachable state a sandbox has at most 128 commands and at most one that is not acknowledged |
| AgentdFrames.DispatchedAtMostOnce | internal/adapters/postgres/agentd_policy.go:257-300 | no operation is admitted as a command twice, across all connections and sandboxes |
| AgentdFrames.StrandedForever | internal/adapters/postgres/agentd_policy.go:203-207 | a command left PENDING on a replaced, closed, cleared or recovered connection stays PENDING, and no command is admitted for that sandbox again |
| AgentdFrames.AcceptedGapFree | internal/adapters/postgres/agentd_policy.go:386-410 | on each connection and direction accepted frames are numbered from 1 without gaps, only the latest repeated, identically |
| AgentdFrames.SequenceRuleExact | internal/adapters/postgres/agentd_policy.go:386-410 | the rule admits a frame if and only if the channel's log stays gap-free with it |
| AgentdOutcomes.OutcomeExact | internal/adapters/postgres/agentd_policy.go:257-300 | over every run a claim repeats its command frame; it is ACKNOWLEDGED if and only if an acknowledgement repeating its message, digest and sequence was accepted since, and UNKNOWN if and only if a failure report of it was |
| AgentdOutcomes.UnknownEndsDispatch | internal/adapters/postgres/agentd_policy.go:262-268 | UNKNOWN is final, and no command of that sandbox is admitted after it |
| AgentdOutcomes.FailureIsSeen | internal/adapters/postgres/agentd_policy.go:280-296 | after an accepted failure report no poll reads the command as acknowledged, and one that names it reads UNKNOWN |
| AgentdPolicy.Policy.NextSequence | internal/adapters/postgres/agentd_policy.go:386-410 | succeeds exactly on the admitted frames and yields the row they leave |
| AgentdPolicy.Policy.AuthorizeFrame | internal/adapters/postgres/agentd_policy.go:187-305 | accepts exactly the admitted frames and writes exactly the ledger, outcome and sequence rows of the step |
| AgentdDispatch.PlanDispatchedInOrder | internal/app/agentdserver/handler.go:109-186 | however often handlers restart, the acknowledged commands are a prefix of the plan, at most one unresolved command follows it, and the ledger holds nothing else |
| AgentdDispatch.FinishedMeansAcknowledged | internal/app/agentdserver/handler.go:109-186 | every command below a handler's index is acknowledged in the ledger |
| AgentdServer.Loop.Tick | internal/app/agentdserver/handler.go:117-147 | one tick advances, sends or ends exactly as the dispatch step |
| AgentdServer.Loop.Receive | internal/app/agentdserver/handler.go:148-197 | one input frame moves `pending` and `index` exactly as the receive step |
| AgentdLedger.RunAgrees | internal/adapters/postgres/agentd_policy.go:187-305 | in every joint run the command rows of the frames and those that replacement reads are the same operations for the same sandboxes |
| AgentdLedger.CommandIsDispatch | internal/adapters/postgres/agentd_policy.go:257-300 | an accepted command frame is an accepted dispatch of the same operation and sandbox in the compute store |
| AgentdLedger.CommandsOnceAndTogether | internal/adapters/postgres/agentd_policy.go:257-300 | no two command frames of a run claim one operation, and those of one Execution all go to one sandbox |
| AgentdLedger.OneSandboxEverClaimed | internal/adapters/postgres/sandbox_replacement.go:103-126 | two claims of one Execution, at any two moments, are for one sandbox |
| AgentdLedger.ReplacementSeesClaims | internal/adapters/postgres/sandbox_replacement.go:113 | replacement's test for a dispatched command is true if and only if a frame has claimed one for that Execution |
| AgentdLedger.ReplacedIsSilent | internal/adapters/postgres/agentd_credentials.go:45-65 | no frame of a replaced sandbox, in either direction, is ever admitted again |
| AgentdLink.HonestFramesAlwaysBounded | internal/adapters/postgres/agentd_policy.go:208-224 | over a FIFO link each frame of an honest agent meets the heartbeat, sequence and ledger bounds when the server reads it, so only the connection and outside checks can refuse it |
| AgentdLink.HonestFrameAdmitted | internal/app/agentd/control_linux.go:208-235 | the exact condition under which the next frame of an honest agent is admitted |
| AgentdAnswers.OutcomeIsWorkersOutcome | internal/app/agentd/control_linux.go:407-439 | over every run of a link, a command dispatched on it is ACKNOWLEDGED only if its worker succeeded and UNKNOWN only if one failed |
| AgentdAnswers.QueuedAnswerIsTrue | internal/app/agentd/control_linux.go:407-439 | every answer on its way to the server says how the work of its operation ended |
| AgentdAnswers.FinishReports | internal/app/agentd/control_linux.go:407-439 | a failed command is reported as a failure and a successful one acknowledged, after its thread report and before a heartbeat with no active operation |
| AgentdAnswers.HeartbeatReports | internal/app/agentd/control_linux.go:208-235 | a heartbeat reports exactly the last frame taken, the frames produced before it and the running operation |
| AgentdAnswers.WorkStarts | internal/app/agentd/control_linux.go:380-406 | work starts exactly with a command frame taken while the agent was free |
| AgentdAgent.Loop.CheckInput | internal/adapters/sandboxtransport/control/protocol.go:62-88 | accepts exactly the next frame, or an identical repeat of the last |
| AgentdAgent.Loop.Receive | internal/app/agentd/control_linux.go:380-406 | updates accepted, active and busy exactly as the agent's step |
| AgentdAgent.Loop.Finish | internal/app/agentd/control_linux.go:407-439 | reports a finished command with the frames and counters of the agent's step |
| AgentdControl.OneActionPerOperation | internal/app/agentd/control_linux.go:80-153 | each operation drives at most one process action, under one handle, and the ledger holds at most 128 entries |
| AgentdControl.RepeatsAreAnsweredFromTheLedger | internal/app/agentd/control_linux.go:81-93 | a recorded operation repeated acts on nothing: it returns the recorded result, or fails under another digest |
| AgentdControl.HandleFixedByFirstStart | internal/app/agentd/control_linux.go:103-109 | the handle is set by one START and never changes afterwards |
| AgentdControl.AnswersAreTruthful | internal/app/agentd/control_linux.go:80-153 | over a supervisor's whole life a retained answer reports success if and only if the first call of that operation acted and the action succeeded, or was a STATUS of no other handle |
| AgentdControl.ActionGrounds | internal/app/agentd/control_linux.go:99-135 | START acts once, on an empty handle; every other action needs that handle and a decodable turn or a running process; nothing else acts |
| AgentdControl.ProcessControl.Execute | internal/app/agentd/control_linux.go:80-153 | the ledger, handle and result are exactly those of the step |
| SandboxJournal.RunJournalled | internal/adapters/postgres/sandbox_bindings.go:219-301 | in every reachable state revisions are exactly 1..n, a release is last and is the one the row names, and no identifier is used twice or for both an acquisition and an operation, on all paths that write them |
| SandboxJournal.RunAdvances | internal/adapters/postgres/compute_recovery.go:61-80 | journal rows are never lost or rewritten, and a binding row changes only together with its version |
| SandboxJournal.ReleaseIsFinal | internal/adapters/postgres/sandbox_bindings.go:151-167 | after a release no acquisition replays and no operation begins; only the release itself may be repeated |
| SandboxLineage.OneSandboxEverDispatches | internal/adapters/postgres/sandbox_replacement.go:103-126 | two commands of one Execution, at any two moments of a run, belong to the same sandbox |
| SandboxLineage.ReplacementLeavesOneCurrent | internal/adapters/postgres/sandbox_replacement.go:148-191 | an accepted replacement leaves the new Attempt as the only current one, one ordinal higher, with nothing dispatched before |
| SandboxLineage.ReplacedNeverPasses | internal/adapters/postgres/sandbox_bindings.go:82-86 | a replaced Attempt's row never changes and no request naming it passes the fence again |
| SandboxLineage.OneReplacementPerLoss | internal/adapters/postgres/sandbox_replacement.go:67-100 | a lost sandbox keeps its one replacement, which no other lost sandbox shares |
| SandboxEffects.ReplacementRevives | internal/adapters/postgres/sandbox_replacement.go:67-191 | in the state an accepted replacement leaves, the successor passes the fence and is wanted running, and the same call is answered as a replay |
| SandboxEffects.ReplacementKeepsSessions | internal/adapters/postgres/sandbox_replacement.go:148 | only the Session concerned changes: ACTIVE without recovery state, one version on, otherwise as it was |
| SandboxEffects.ReplacementGrounds | internal/adapters/postgres/sandbox_replacement.go:101-140 | an accepted replacement had a Session degraded by this loss, a confirmed cleanup, and no harness, connection or command |
| SandboxEffects.PassingMeansCurrent | internal/adapters/postgres/sandbox_bindings.go:82-86 | whoever passes the fence is the current Attempt of the running Execution that its active Session names |
| SandboxEffects.AuthorizedMeansOwned | internal/adapters/postgres/compute_reconciliation.go:42-89 | a release is authorized exactly by an unquarantined cleanup of that very acquisition, reference and operation |
| SandboxEffects.ReservedIsWanted | internal/adapters/postgres/sandbox_bindings.go:87-197 | a reserved sandbox, unless its handed-over reference is already being cleaned up, is wanted running by exactly its request, and the reservation replays |
| SandboxEffects.BoundRepeats | internal/adapters/postgres/sandbox_bindings.go:198-218 | a bound reference is repeated unchanged and no other one is taken |
| SandboxEffects.BegunReplays | internal/adapters/postgres/sandbox_bindings.go:219-301 | an operation begun is the last one, at the next revision, and beginning it again is answered with that revision |
| SandboxEffects.ObservedIsRecorded | internal/adapters/postgres/compute_reconciliation.go:121-145 | an accepted observation that is no recovery is on record as it was made, and cannot be recorded twice for one intent |
| SandboxEffects.ReleasedIsConfirmed | internal/adapters/postgres/compute_reconciliation.go:140-142 | an accepted RELEASED leaves the cleanup of its reference CONFIRMED |
| SandboxEffects.DoubtfulReleaseIsQuarantined | internal/adapters/postgres/compute_recovery.go:31-40 | an accepted recovery of a binding being released leaves an outstanding cleanup QUARANTINED and a confirmed one confirmed |
| SandboxEffects.LossIsRecovered | internal/adapters/postgres/compute_recovery.go:17-81 | a first accepted recovery of wanted compute degrades exactly the Session that still runs it and leaves an authorized release of bound compute as the next intent |
| SandboxEffects.RepeatedLossIsOnlyRecorded | internal/adapters/postgres/compute_recovery.go:41-43 | a repeated recovery of wanted compute records the observation and nothing else |
| SandboxEffects.ExpiryIsRecovered | internal/adapters/postgres/agentd_recovery.go:16-45 | expired credentials are recovered like any other first loss, under their own code |
| SandboxStore.Bindings.Reserve | internal/adapters/postgres/sandbox_bindings.go:87-197 | the transaction is exactly the reservation step, replay included |
| SandboxStore.Bindings.BindReference | internal/adapters/postgres/sandbox_bindings.go:198-218 | records a reference once; another one is refused |
| SandboxStore.Bindings.BeginOperation | internal/adapters/postgres/sandbox_bindings.go:219-301 | the transaction is exactly the journalling step |
| SandboxStore.Bindings.LoadCompute | internal/adapters/postgres/compute_reconciliation.go:42-89 | returns exactly the intent that the journal and cleanup rows determine |
| SandboxStore.Bindings.RecordCompute | internal/adapters/postgres/compute_reconciliation.go:91-145 | the transaction is exactly the fenced observation step, rolled back if its recovery fails |
| SandboxStore.Bindings.RecordRecovery | internal/adapters/postgres/compute_recovery.go:17-81 | writes exactly the recovery rows: work, degraded Session, cleanup and release |
| SandboxStore.Bindings.RecoverExpiredAgentd | internal/adapters/postgres/agentd_recovery.go:16-45 | the transaction is exactly the expiry step |
| SandboxStore.Bindings.SuspendRelease | internal/adapters/postgres/session_suspend.go:192-215 | releases one retained binding of a quiescent Session, or refuses |
| SandboxStore.Bindings.ReplaceDeleted | internal/adapters/postgres/sandbox_replacement.go:49-200 | the transaction is exactly the replacement step, rolled back on any taken key |
| SandboxSuspend.ReleaseRetained | internal/adapters/postgres/session_suspend.go:122-168 | checking all retained bindings first and then writing all releases is exactly releasing one after the other, all or nothing, for at most 64 |
| SandboxSuspend.OneRefusalRefusesAll | internal/adapters/postgres/session_suspend.go:145-154 | one binding that cannot be released at the outset refuses the whole transaction |
| SandboxSuspend.SuspendAllReleases | internal/adapters/postgres/session_suspend.go:192-215 | after a committed suspend every retained binding has an authorized release on record |
| SandboxSuspend.SuspendAllKeepsJournal | internal/adapters/postgres/session_suspend.go:192-215 | the releases of one suspend keep the journal's numbering, finality and distinct identifiers |
| SandboxWorkers.RecordedUnchanged | internal/adapters/postgres/compute_reconciliation.go:106-120 | an observation commits only if the binding row is the same in every state since the worker loaded its intent |
| SandboxWorkers.ReleasedAfterAbsence | internal/app/reconciliation/compute.go:102-117 | a binding becomes RELEASED only by a worker that, after loading the still recorded operation, had its release accepted and later read that the compute is absent; the step leaves the cleanup CONFIRMED |
| SandboxWorkers.UndisturbedCommits | internal/app/reconciliation/compute.go:26-58 | if the intent still loads as it did, the worker's observation commits, except exactly a recovery whose reference already has a cleanup |
| SandboxReconciler.Reconciler.Running | internal/app/reconciliation/compute.go:60-100 | the branches decide exactly what the worker protocol records: never a release, READY only for a verified reading of READY, missing compute exactly if a bound reference reads absent |
| SandboxReconciler.Reconciler.LetGo | internal/app/reconciliation/compute.go:102-117 | RELEASED if and only if the release was accepted and the later reading was absent |
| SandboxReconciler.Reconciler.Reconcile | internal/app/reconciliation/compute.go:26-58 | one uninterrupted pass is the lone worker's steps followed by one commit |
| SessionRuns.RunSound | internal/adapters/postgres/session_resume.go:243-397 | in every reachable state the state column agrees with the stored result, only abandoned rows are cleaned, and no version of a Session is suspended or resumed twice |
| SessionRuns.ResumeRestoresSuspended | internal/adapters/postgres/session_resume.go:127-298 | a committed resume gives back the whole Session row from before its suspend at exactly version v+3, within int64 |
| SessionRuns.OneResumePerBoundary | internal/adapters/postgres/session_resume.go:127-134 | a suspend boundary has at most one resume operation in the whole run |
| SessionRuns.OutcomeIsFinal | internal/adapters/postgres/session_resume.go:111-123 | once out of RESUMING a result never changes, and every permitted replay is answered with it and changes nothing |
| SessionRuns.SuspendIsFinal | internal/adapters/postgres/session_suspend.go:78-87 | a recorded boundary never changes and its replay is answered with it |
| SessionRuns.CreatesBeforeCleanups | internal/adapters/postgres/session_resume_candidate.go:26-50 | every provider create of a candidate precedes every cleanup of it, for the same intent |
| SessionRuns.CommittedNeverCleaned | internal/adapters/postgres/session_resume_candidate.go:34-49 | a committed candidate is never cleaned at any moment, nor created or committed again |
| SessionRuns.AbandonedStaysAbandoned | internal/adapters/postgres/session_resume.go:306-339 | an abandoned candidate is never created or committed |
| SessionEffects.AbandoningDegrades | internal/adapters/postgres/session_resume.go:306-339 | over every run, the step from RESUMING to abandoned leaves its Session DEGRADED with recovery SUSPENDED, one version on and otherwise as it was, exactly if it was SUSPENDED at the version and generation of the intent; otherwise every Session row stays |
| SessionEffects.PreparedIsFenced | internal/adapters/postgres/session_resume.go:127-180 | a new candidate holds its fence at once, its own attachment is the reserved writer, and only the version of its Session moved |
| SessionEffects.PreparedRepeats | internal/adapters/postgres/session_resume.go:97-125 | the same call then repeats the answer, a create is allowed and a cleanup is not |
| SessionEffects.CompleteExact | internal/adapters/postgres/session_resume.go:243-302 | a RESUMING candidate commits if and only if it is fenced, in time, permitted, ready and its reference new; the reference and the version of the Session are recorded |
| SessionEffects.RunReferencesApart | internal/adapters/postgres/session_resume.go:274-281 | over every run no two committed resumes share their compute |
| SessionEffects.CleanedEffect | internal/adapters/postgres/session_resume.go:373-397 | cleaning marks the candidate once, gives up exactly its own attachment leaving that storage degraded, and touches no Session |
| SessionEffects.SuspendedEffect | internal/adapters/postgres/session_suspend.go:54-190 | a suspend changes the state and version of its Session only, and its boundary keeps the former state |
| SessionStore.Journal.Suspend | internal/adapters/postgres/session_suspend.go:54-190 | the transaction is exactly the suspend step |
| SessionStore.Journal.Prepare | internal/adapters/postgres/session_resume.go:97-180 | the transaction is the prepare step for a boundary that matches the Session |
| SessionStore.Journal.CheckFence | internal/adapters/postgres/session_resume.go:216-239 | true if and only if the candidate's Session and reserved storage are unchanged |
| SessionStore.Journal.Complete | internal/adapters/postgres/session_resume.go:243-302 | the transaction is exactly the commit step |
| SessionStore.Journal.Fail | internal/adapters/postgres/session_resume.go:306-339 | abandons exactly this candidate and degrades only the Session it still holds |
| SessionStore.Journal.Cleaned | internal/adapters/postgres/session_resume.go:373-397 | marks an abandoned candidate cleaned and gives up only its own attachment |
| SessionStore.Journal.WithResumeCandidate | internal/adapters/postgres/session_resume_candidate.go:17-51 | the provider call is made exactly in the states the step allows |
| SessionStore.Resumer.Resume | internal/app/session/resume.go:104-137 | an answer is the journal's record, and a terminal error never leaves the candidate RESUMING |
| SessionStore.Resumer.Cleanup | internal/app/session/resume.go:141-152 | calls the provider only for an abandoned, uncleaned candidate, and marks it cleaned only if absent |
| WorkspaceRuns.RunSound | internal/adapters/postgres/workspace_checkpoint.go:57-205 | in every reachable state a Workspace's generations are exactly 0..head, each the child of its predecessor, and every committed operation has its generation |
| WorkspaceRuns.SnapshottingIffPrepared | internal/adapters/postgres/workspace_checkpoint.go:157-199 | a Workspace is SNAPSHOTTING if and only if an operation on it is PREPARED, and never two are |
| WorkspaceRuns.CommittedReplays | internal/adapters/postgres/workspace_checkpoint.go:92-109 | a committed result and its generation row stay, and a replay returns it exactly for prepare or the same proof, after any later generations |
| WorkspaceRuns.AbortedIsFinal | internal/adapters/postgres/workspace_checkpoint.go:110-115 | an aborted operation answers only abort and publishes nothing, ever |
| WorkspaceRuns.EarlierChainIsPrefix | internal/adapters/postgres/workspace_checkpoint.go:186-191 | the chain at any moment is a prefix of the chain at any later one |
| WorkspaceEffects.PublishRestoresWriter | internal/adapters/postgres/workspace_checkpoint.go:157-199 | prepared at one step and published at any later one, the Workspace row is again the one before, state and attachment included, apart from head and version |
| WorkspaceEffects.AbortDegrades | internal/adapters/postgres/workspace_checkpoint.go:117-130 | prepared at one step and aborted at any later one, the row is DEGRADED with the head and attachment it had, and no generation was added |
| WorkspaceEffects.HeldWhileOpen | internal/adapters/postgres/workspace_checkpoint.go:131-175 | while an operation is open nothing else touches its Workspace, and it keeps the state that it found |
| WorkspaceEffects.ResultNamesGeneration | internal/adapters/postgres/workspace_checkpoint.go:92-130 | a committed result names its generation row; a prepared one names a number not yet taken |
| WorkspaceEffects.EmptyMakesReady | internal/adapters/postgres/workspace_empty.go:80-95 | the empty generation makes a provisioning Workspace READY with its attachment as it was, and only once |
| WorkspaceStore.Checkpoints.Change | internal/adapters/postgres/workspace_checkpoint.go:57-205 | the transaction is exactly the prepare, publish or abort step |
| WorkspaceStore.Checkpoints.PublishEmpty | internal/adapters/postgres/workspace_empty.go:80-95 | inserts generation 0 and makes a provisioning Workspace READY |
| CaptureLines.SplitJoins | internal/app/agentd/capture.go:243-270 | putting the newlines back between the pieces gives the stream again, and no piece contains one |
| CaptureLines.JoinSplits | internal/app/agentd/capture.go:243-270 | no other list of newline-free pieces does |
| CaptureWriter.Writer.Write | internal/app/agentd/capture.go:243-270 | after a Write all complete lines of the longer stream are recorded and the open one is pending, or a line is over the bound, or the sink refused one |
| CaptureWriter.Writer.Finish | internal/app/agentd/capture.go:271-277 | the open line is recorded unless it is empty |
| CaptureWriter.WriteAll | internal/app/agentd/capture.go:243-277 | for every cutting of a stream the records are the longest accepted prefix of its lines, and the limit failure happens exactly when all lines before an overlong one were taken |
| CaptureWriter.CutsDoNotMatter | internal/app/agentd/capture.go:243-277 | two cuttings of one stream give the same records and the same verdict |
| CaptureWriter.AllTaken | internal/app/agentd/capture.go:243-277 | with every emit accepted the records are the stream's lines without an empty last one, and failure means a line over the bound |
| CaptureQueue.RunBounded | internal/app/agentd/capture.go:165-235 | in every interleaving bytes is the sum of queued sizes, both budgets hold and queued numbers are consecutive up to the counter |
| CaptureQueue.NothingLostOrReordered | internal/app/agentd/capture.go:111-143 | until a failure, delivered followed by queued is exactly what was accepted |
| CaptureQueue.DeliveredInOrder | internal/app/agentd/capture.go:111-143 | the consumer sees 1, 2, 3, ... |
| CaptureQueue.NothingAfterFailure | internal/app/agentd/capture.go:81-97 | after a failure nothing is accepted or delivered and the first error stays |
| CaptureQueue.FinishDrains | internal/app/agentd/capture.go:98-104 | after finish nothing is accepted, and without a failure what was accepted is delivered or still queued |
| CaptureSystem.DeliveredLines | internal/app/agentd/capture.go:165-277 | for two writers, adapter events and one consumer over one queue, in every interleaving, what was delivered from a source is a prefix of that pipe's own lines |
| CaptureSystem.AllLinesDelivered | internal/app/agentd/capture.go:165-277 | once a writer is done without failure and the queue is drained, every line of its pipe was delivered and none was over the bound |
| CaptureSystem.OverlongNeverDone | internal/app/agentd/capture.go:251-256 | a pipe with a line over the bound never ends well, whatever the other source does |
| CaptureQueue.Capture.Receive | internal/app/agentd/capture.go:111-143 | one pass takes the oldest record, or reports failure, end or emptiness |
| CaptureQueue.Capture.TryAppend | internal/app/agentd/capture.go:207-225 | one locked attempt queues the record exactly when there is room |
| CaptureQueue.Capture.Emit | internal/app/agentd/capture.go:165-235 | which of the failures, or the queued record, emit ends in |
| EventStream.Next | internal/app/eventstream/read.go:77-184 | with access granted the step-by-step read is idle exactly at the latest number, invalid beyond it, event after+1 exactly if retained and a gap otherwise; it never gives another number |
| EventStream.NextExact | internal/app/eventstream/read.go:111-145 | idle exactly at the latest number, invalid exactly beyond it, event after+1 exactly if still retained, a gap otherwise |
| EventStream.First | internal/adapters/postgres/event_reads.go:17-23 | the least retained number from a given one, or none |
| EventStream.Stream | internal/adapters/http/session_events.go:172-212 | over any snapshots the delivered events are exactly the subscriber's own between start and cursor, and an error end is Next's answer at that cursor |
| EventStream.SessionNumbers | internal/adapters/http/session_events.go:172-212 | a Session stream delivers consecutive numbers |
| EventStream.OwnExact | internal/app/eventstream/read.go:135-138 | an Execution's stream contains an event if and only if it is its own |
| EventStream.OwnIncreasing | internal/adapters/http/session_events.go:176-181 | in increasing order, none twice |
| StatePaths.StateRoots | internal/app/agentd/checkpoint.go:45-60 | accepts exactly 1 to 32 valid roots that are sorted and an antichain in both directions |
| StatePaths.StateManifest | internal/app/agentd/checkpoint.go:61-86 | accepts exactly the valid relative paths under some root that are sorted and an antichain in both directions |
| StatePaths.ForwardIsAntichain | internal/app/agentd/checkpoint.go:53-57 | testing each path against earlier ones only is testing every pair both ways |
| StatePaths.ExactlyOneRoot | internal/app/agentd/checkpoint.go:69-78 | each accepted manifest path lies under exactly one accepted root |
| Identifiers.FormatID | internal/primitives/id.go:60-72 | the filled buffer is the printed form of the 16 bytes |
| Identifiers.NewIDFrom | internal/primitives/id.go:21-42 | the printed stamp of timestamp and entropy, or the error of its cause |
| Identifiers.ParseID | internal/primitives/id.go:45-58 | accepts a string if and only if it is printed for some 16 bytes with version 7 and variant 10 |
| Identifiers.FormatInjective | internal/primitives/id.go:60-72 | two byte values never print alike |
| Identifiers.NewIdentifierParses | internal/primitives/id.go:33-41 | every new identifier parses and yields its timestamp |
| Identifiers.OrderedByTime | internal/primitives/id.go:33-38 | a smaller timestamp gives a lexicographically smaller identifier whatever the entropy |

## Left out

- SandboxStore.Bindings.SuspendRelease: one retained binding; SandboxSuspend applies it to all of them, whose list is an input.
- SandboxStore.Bindings.Reserve: the comparison with the stored runtime resolution and the resume handoff are inputs of the step.
- SessionStore.Journal.Suspend: quiescence, the checkpoint's validity and the detached storage boundary are inputs of the step, and refusals that the caller treats alike share one error.
- SessionStore.Resumer.Resume: stated for a pass without other steps in between; the theorems of SessionRuns cover the interleavings.
- SandboxReconciler.Reconciler.Reconcile: stated for a pass without other steps in between; SandboxWorkers covers the interleavings.
- CaptureQueue.Capture.Emit: waiting is the failed attempt followed by the timer; an attempt that succeeds after the consumer made room is another TryAppend step.
- CaptureSystem.DeliveredLines: the sanitizer passes lines on as they are; one that rewrites or refuses lines is not modelled there.
- EventStream.Next: the encoding of the envelope is reduced to whether it fits its bound.
- StatePaths.StateRoots: the text rules and path.Clean are arbitrary functions, so nothing is said about which components a clean path has.
- StatePaths.StateManifest: likewise.
- The claiming and finishing of reconciliation work items: leases on a queue that no guard of the modelled steps reads, except as one input of replacement.
- Event and outbox rows written inside each transaction, error mapping, row scanning and JSON: bookkeeping that no guard depends on.
- Wrap-around of the 64-bit version, epoch, revision and capture counters; only the Session versions of suspend and resume, the generation numbers and the frame sequences are bounded as in the source.
- TLS, certificates, signatures, Kubernetes, SSH, process launch, signals and real timers: outside calls with arbitrary results.
- HTTP parsing, configuration, catalog lookup, telemetry and the standalone domain aggregates: they would add only easy members.
