# BenchHandoff, modelled and proved in Dafny

BenchHandoff runs a sequential batch of commands and resumes it from on-disk evidence after a crash. This
project models its crash-tolerant core and proves what it keeps over every run. `dafny verify dfyconfig.toml`
checks everything.

| part | files | form |
|---|---|---|
| events.jsonl, state.json and the task life cycle | `EventLog`, `RunState`, `Lifecycle`, `ValidUpdates` | values, and the validating loops as methods |
| the durable world, its atomic steps, and what every crash point satisfies | `World`, `Invariants`, `KeepState`, `KeepLog`, `KeepLeader`, `KeepFiles`, `KeepWorkspace`, `Runs` | a step relation; a run is any sequence of steps, and a crash is the end of a prefix |
| loading, recovery, inputs, sealing, resume decisions | `Load`, `QuarantineRecovery`, `Readiness`, `Inputs`, `Sealing`, `Decision` | specifications and loops |
| runs that show three unexpected states, and a codec that meets the assumptions | `Witnesses`, `SampleCodec` | explicit runs from the start |
| the engine | `Engine`, `EngineSteps` | the class `Runner`, whose methods write the world one atomic step at a time |
| the closed-world workspace | `WorkspaceTree`, `WorkspaceScan`, `WorkspaceManifest` | the tree algebra, the stack scan and the manifest |
| the writer lock | `WriterLock`, `LockSafety`, `LockProcess` | steps of any number of processes; the class `Writer` is one of them |
| the Kubernetes controller | `AgentRuns`, `Reconciler`, `Protocol`, `ProtocolGrammar` | accepted status updates; the class `Manager` is one controller; the termination message |
| suite paths and JSON bounds | `SuitePaths`, `JsonWalk` | loops |

How to read it. A `World` holds what survives a crash (state, log, workspace files, quarantine, attempt logs,
bundle) plus the live processes and two history variables: the launches ever made, and the attempts whose
recovery tore their history. `Does(p, w, a, w')` is one atomic step; `Run(p, ws)` is a sequence of them from a
fresh start. Every method of `Runner` extends a ghost `trace` that satisfies `Run`, whatever faults strike and
whatever other processes do between its steps, so the lemmas about runs hold for the code as written. A fresh
`Runner` opens any prefix of a run, which is how resumes after crashes are modelled. `WriterLock` and `AgentRuns`
follow the same plan, with the classes `Writer` and `Manager`.

Each of the three classes has a field `calm` that only its caller decides. In a calm process no fault strikes,
probes and API reads answer, and no other process comes, goes or competes; contracts that begin with `calm` say
exactly what an operation then does. When a calm session of the engine raises, `why` names what stopped it, and
`Halts` ties it to the world on disk at that moment: the drifted task, the refused record, the tree that could not
be observed. The record refused at the end of an attempt is the one its child's own return code and files call
for. `EndsAreRecordable` shows that in the sample suite with a short log no such record is refused, so an operation
that merely raised would not meet its contract. All other contracts hold without `calm`.

Assumptions. SHA-256 has no collisions and canonical JSON is an injective, one-line encoding (`Lawful`); a file's
identity is represented by its contents, a tree summary by the tree and a decision digest by the decision. Only a
live task leader changes the workspace and the attempt logs. Liveness probes and start tokens are sound but may
answer nothing; two processes with one process id have different start tokens. Inode identities and lock nonces
are not reused. Error texts are non-empty, NUL-free and at most 8192 characters.

`SampleCodec` gives a codec and a suite that meet these assumptions.

Four promises do not hold of the code as it stands, and the project says exactly when they do.

- A version 3 recovery of a running attempt with no recorded observation, interrupted between two moves and then
  rerun, records only what was left of the tree. The run then never loads again. `TornRun` is such a run from its
  start; `SessionTears` and `RecoverIncompleteTask` show that it happens if and only if part of the attempt was
  already in quarantine when the session began.
- A version 3 attempt that fails and leaves more than its own outputs (a file the suite does not declare, a changed
  or a missing file) is recorded with that tree, and every later load demands both that very tree and a clean one.
  The run then never loads again, not even with the tree put right. `SpoiledRun` is such a run from its start and
  `SpoiledNeverLoads` follows it forever; `FailedLoadsExactly` shows that after a failed attempt some tree loads if
  and only if the tree it left does. `TreesThatLoad` says for every crash point and every tree when a run loads;
  apart from a torn recovery and the tree of a failed attempt no record of the engine is ever the reason why it
  does not.
- The lock of a dead owner can be removed if and only if its record is complete, nobody holds its flock, and the
  owner's process id is free or the record has a start token (`RemovableExactly`). A process that dies between
  creating the lock file and completing its record leaves a lock that nothing ever removes (`UnwrittenRun`,
  `UnwrittenLockIsStuck`). A complete record without a start token, which the format allows, cannot be removed
  while some live process has the dead owner's id (`TokenlessRun`, `TokenlessLockIsStuck`).
- A crash between the record of the last completion and the record of the completed run leaves a run that loads
  but whose resume cannot be decided (`UndecidableRun`); a resume without a decision still goes through
  (`DecisionWindow`). `DecideExactly` says when a loaded run can be decided.

## Model

| member | source | states |
|---|---|---|
| EventLog.DecodeUnique | src/benchhandoff/engine.py:266-308 | the bytes of a log determine its records: two record lists with the same bytes are equal |
| EventLog.DecodePrefix | src/benchhandoff/engine.py:266-308 | a log file that is a prefix of another log file holds a prefix of its records |
| EventLog.ObserveLog | src/benchhandoff/engine.py:256-316 | the reading loop accepts exactly the files that are a hash chain of canonical records within the count and size limits, and returns their digest, size and count |
| EventLog.EventTransitionStatus | src/benchhandoff/engine.py:318-348 | computes the stable, pending-before-log or pending-after-log status of a log against an acknowledged observation, or refuses |
| EventLog.StatusIsPosition | src/benchhandoff/engine.py:318-348 | against an acknowledged prefix, the byte-level comparison gives exactly the position of the pending record: before the log, last in it, or diverged |
| RunState.CheckOrder | src/benchhandoff/engine.py:1990-2005 | the one-flag scan accepts exactly the task tables where everything after the first incomplete task is untouched |
| RunState.CheckTasks | src/benchhandoff/engine.py:1912-1988 | the loop accepts exactly the tables whose tasks are all valid and whose attempts total at most 256 |
| RunState.ValidateStateShape | src/benchhandoff/engine.py:1848-2011 | accepts exactly the states that satisfy the full validity predicate: attempts, process scopes, prefix, event log and run status |
| Lifecycle.StartsAreCounted | src/benchhandoff/engine.py:2636-2648 | in every replayable log a task's attempt counter equals the number of its start records and never exceeds 4 |
| Lifecycle.CompletedIsFinal | src/benchhandoff/engine.py:3348-3370 | after a completion record no record of a replayable log mentions that task |
| ValidUpdates.GlobalBudgetNeverBinds | src/benchhandoff/engine.py:2636-2648 | with at most 64 tasks, while the next task has attempts left the total is below 256, so the global check never refuses |
| KeepState.StepKeepsState | src/benchhandoff/engine.py:132-136 | every atomic step, on every path of launch, failure, interruption, recovery, completion, resume and sealing, leaves a state the validator accepts |
| KeepLog.StepKeepsLog | src/benchhandoff/engine.py:391-427 | every step keeps the log an accepted chain aligned with the state, keeps replay and state equal, and extends the history by exactly the record it commits |
| KeepLeader.StepKeepsLeader | src/benchhandoff/engine.py:2656-2836 | every step keeps at most one live leader and keeps it covered by a launch guard or by the recorded pid and token |
| KeepFiles.StepKeepsQuarantine | src/benchhandoff/engine.py:2444-2490 | every step keeps the quarantine equal to the recorded files plus those of the recovery under way |
| KeepFiles.StepKeepsMoved | src/benchhandoff/engine.py:2444-2478 | during a recovery each file is in the workspace or in quarantine, never both, and the child is gone |
| KeepWorkspace.StepKeepsWorkspace | src/benchhandoff/engine.py:2166-2214 | every attempt's workspace history stays derivable from baseline and sealed outputs if and only if it was not torn, and a failed attempt's observation stays the tree it left |
| KeepWorkspace.RecoveredTree | src/benchhandoff/engine.py:568-574 | the observation a recovery records is baseline plus sealed outputs plus all quarantined files if and only if the recovery does not tear |
| KeepWorkspace.StepKeepsInputs | src/benchhandoff/engine.py:2291-2325 | every recorded attempt ran on seeds and on outputs sealed by earlier tasks |
| KeepWorkspace.StepKeepsBundle | src/benchhandoff/engine.py:3037-3081 | a sealed run stays exactly what its bundle lists |
| Runs.RunInv | src/benchhandoff/engine.py:351-427 | every crash point of every run satisfies all the invariants |
| Runs.OneCoveredLeader | src/benchhandoff/engine.py:2353-2408 | over every run at most one task leader is alive, it belongs to the first incomplete task, and the durable record covers it |
| Runs.LaunchAfterDeath | src/benchhandoff/engine.py:2782-2836 | a child is launched only when no earlier leader is alive, and once per recorded attempt |
| Runs.LogAndStateAgree | src/benchhandoff/engine.py:351-427 | at every crash point, replaying the acknowledged records plus the pending one gives exactly the statuses and attempt counts of state.json, and the log never diverges |
| Runs.HistoryOnlyGrows | src/benchhandoff/engine.py:391-401 | between any two points of a run the log and the history of intents grow by suffix only |
| Runs.IntentExactlyOnce | src/benchhandoff/engine.py:391-427 | a durable intent is in every later history, at its sequence number and nowhere else |
| Runs.CompletedNeverRelaunched | src/benchhandoff/engine.py:3348-3370 | a completed task is never changed or launched again, over any number of crashes and resumes |
| Runs.LaunchBudget | src/benchhandoff/engine.py:2636-2648 | each task is launched at most 4 times over unbounded crashes and resumes, and never more often than its start records |
| Runs.StepConserves | src/benchhandoff/storage.py:467-512 | with no live leader, a file that leaves the workspace reappears with the same bytes under a fresh quarantine name, and nothing in quarantine changes |
| Runs.QuarantineOnlyGrows | src/benchhandoff/storage.py:467-512 | over a run nothing leaves or changes in quarantine |
| Runs.BeforeIsPredecessorsAfter | src/benchhandoff/engine.py:2166-2214 | the workspace an untorn attempt started from is the one its predecessor sealed |
| Load.LoadContext | src/benchhandoff/engine.py:2217-2281 | loading accepts exactly the disks whose state, log, seeds, attempt artifacts, history and current workspace check out |
| Readiness.CurrentIsTree | src/benchhandoff/engine.py:554-672 | for an untorn history the observation of any tree is accepted if and only if it is the baseline with the sealed outputs and at most outputs of an unrecovered attempt, and, after a failed attempt, the very tree that attempt left |
| Readiness.TreesThatLoad | src/benchhandoff/engine.py:2014-2281 | at every crash point, for every tree in place of the workspace, the run loads if and only if the seeds are in it and, in version 3, no recovery was torn, the tree is intact and a failed attempt's tree was not replaced |
| Readiness.LoadRefusesOnlyDrift | src/benchhandoff/engine.py:2014-2281 | at every crash point a run loads with the tree it has if and only if the seeds are intact and, in version 3, no recovery was torn and the tree is intact |
| Readiness.FailedLoadsExactly | src/benchhandoff/engine.py:604-619 | after a failed version 3 attempt some tree loads if and only if the tree it left holds the seeds, can be observed, and differs from the sealed workspace in outputs of the task only, and no recovery was torn |
| Readiness.StepKeepsSpoiled | src/benchhandoff/engine.py:2410-2442 | no step undoes a failed attempt that left more than its outputs: it is never recovered, and moving its outputs does not help |
| Readiness.SpoiledNeverLoads | src/benchhandoff/engine.py:604-619 | once a version 3 attempt failed and left more than its outputs, at every later point of the run no tree loads |
| WorkspaceTree.VerifyIsProjection | src/benchhandoff/workspace.py:542-664 | verification accepts a tree if and only if it is the projection of the baseline, the completed outputs and the volatile files present |
| WorkspaceTree.VerifyClean | src/benchhandoff/workspace.py:606-664 | with no volatile outputs, verification accepts exactly the projection of baseline and completed outputs |
| QuarantineRecovery.RunKeepsView | src/benchhandoff/engine.py:2444-2478 | while an attempt awaits recovery no step of any session changes its set of partial outputs, wherever they are |
| QuarantineRecovery.RecoveryIsCrashIdempotent | src/benchhandoff/engine.py:2410-2510 | a recovery interrupted and rerun any number of times records exactly the list an uninterrupted recovery would have recorded, with all contents kept |
| QuarantineRecovery.MoveKeepsObservable | src/benchhandoff/engine.py:554-620 | after any move the observation a rerun makes is accepted again |
| QuarantineRecovery.RecordedIsReconstructed | src/benchhandoff/engine.py:554-620 | for a recorded observation the half-moved tree is accepted if and only if nothing but partial outputs drifted |
| QuarantineRecovery.SessionTears | src/benchhandoff/engine.py:2422-2430 | without a recorded observation a recovery session tears the history if and only if part of the attempt was in quarantine when it began |
| QuarantineRecovery.TornNeverLoads | src/benchhandoff/engine.py:2194-2208 | a torn version 3 history is refused by every later load |
| QuarantineRecovery.TornWitness | src/benchhandoff/engine.py:2422-2490 | from a running attempt that left its one output behind, five steps lead to a world that never loads, although the rerun accepted the tree |
| Witnesses.TornRun | src/benchhandoff/engine.py:2410-2510 | for every one-task version 3 suite whose records fit there is a run from its start (start, launch, output, death, move, crash, resume, recovery) that ends in a world that never loads |
| SampleCodec.TornRunExists | src/benchhandoff/engine.py:2410-2510 | such a suite and such a run exist |
| Witnesses.SpoiledRun | src/benchhandoff/engine.py:2868-2990 | for every one-task version 3 suite whose records fit and every undeclared path there is a run from its start (start, launch, stray file, exit, failure recorded) after which no tree loads, although no recovery was torn and the baseline is intact |
| SampleCodec.SpoiledRunExists | src/benchhandoff/engine.py:2868-2990 | such a suite and such a run exist |
| Inputs.ProducersComplete | src/benchhandoff/engine.py:2283-2325 | the evidence always names a seed or a completed producer for every input of the first incomplete task |
| Inputs.ExpectedInputs | src/benchhandoff/engine.py:2291-2325 | the loop returns the identity of every input, or the first missing producer, unfinished producer or drifted file |
| Inputs.OnlyDriftRefuses | src/benchhandoff/engine.py:2291-2325 | on a valid state only drifted files can make the input check refuse |
| Sealing.ListArtifacts | src/benchhandoff/engine.py:3019-3024 | the artifact list names every artifact once with its current identity |
| Sealing.BuildBundle | src/benchhandoff/engine.py:3037-3081 | a bundle is built exactly for stable, unsealed, undrifted evidence, and lists all of it |
| Sealing.IndexArtifacts | src/benchhandoff/engine.py:3755-3762 | the index of recorded artifacts exists exactly when their paths are distinct |
| Sealing.VerifyRun | src/benchhandoff/engine.py:3715-3790 | verification accepts exactly the sealed disks whose records, outputs, artifact set, artifact contents and final workspace all match |
| Sealing.VerifiedIsSealed | src/benchhandoff/engine.py:3755-3782 | any disk that verifies against a bundle has exactly the state, log, attempt logs, quarantine and outputs (in version 3 the whole tree) present when the bundle was written |
| Sealing.SealThenVerify | src/benchhandoff/engine.py:3372-3380 | verifying right after sealing succeeds if and only if the run loads and every completed output is intact |
| Decision.CompletedPrefix | src/benchhandoff/engine.py:3212-3230 | the loop returns the length of the completed prefix |
| Decision.BuildResumeDecision | src/benchhandoff/engine.py:3197-3320 | for a reachable run that loads, a decision is built if and only if no record is pending, the run is recorded completed once all its tasks are, and the next task has attempts left, before version 3 also only if completed outputs, next inputs and the kind of next outputs are intact; the decision is the stated view of the run |
| Decision.DecideNeeds | src/benchhandoff/engine.py:3197-3320 | at every crash point the log-status, budget, both-places and bundle checks of a decision never refuse: it depends only on a pending record, the recorded completion, the task's attempts and the files |
| Decision.DecideExactly | src/benchhandoff/engine.py:3197-3320 | for a run that loads, the exact condition under which a decision can be built; in version 3 it does not mention the files |
| Decision.DecisionPinsEvidence | src/benchhandoff/engine.py:3197-3320 | equal decisions mean equal state, log, attempt logs, quarantine and bundle, and equal completed outputs, inputs and outputs of the next task |
| Decision.DecisionWindow | src/benchhandoff/engine.py:3238-3240 | between the last completion and the completion of the run no decision can be built, whatever the files are, while loading and the first transition of a plain resume are not refused for it |
| Witnesses.UndecidableRun | src/benchhandoff/engine.py:3238-3240 | a run from its start that ends in the window: it loads and cannot be decided |
| SampleCodec.UndecidableRunExists | src/benchhandoff/engine.py:3238-3240 | such a suite and such a run exist |
| SampleCodec.SampleIsLawful | src/benchhandoff/storage.py:113-130 | the assumptions on canonical JSON and the digest can be met together |
| SampleCodec.EndsAreRecordable | src/benchhandoff/engine.py:365-390 | in the sample suite with nothing pending and a log of at most 30000 bytes, no end of an attempt, with whatever 32-bit return code, tree and error text, is refused |
| Engine.Runner.constructor | src/benchhandoff/engine.py:2217-2281 | a fresh engine opens the world that a run, cut off anywhere, left behind; the return codes of the children are parameters |
| Engine.Runner.Persist | src/benchhandoff/engine.py:132-136 | the validator accepts every state handed to it, and the atomic write happened or not, even when it raises |
| Engine.Runner.Commit | src/benchhandoff/engine.py:351-401 | a transition becomes durable entirely or not at all, changes nothing else, its first durable step is the step it stands for, and undisturbed it succeeds exactly when the event and log limits allow it, and otherwise changes nothing |
| Engine.Runner.AppendAndAcknowledge | src/benchhandoff/engine.py:397-401 | once an intent is durable only a fault keeps it from being logged and acknowledged; the task records do not change |
| Engine.Runner.ReconcilePendingEvent | src/benchhandoff/engine.py:404-427 | the evidence never diverges, only a fault stops reconciliation, and reconciling stable evidence changes nothing |
| Engine.Runner.AssertRecoveryLiveness | src/benchhandoff/engine.py:2353-2408 | acceptance means that no leader ever launched is alive and no running attempt has an open launch guard; undisturbed it accepts exactly when every running attempt has an identified child that is no longer there |
| Engine.Runner.AssertChildGone | src/benchhandoff/engine.py:2353-2408 | a task judged dead has no live leader and no guard; undisturbed it is judged dead exactly when its recorded child is gone |
| Engine.Runner.QuarantineOutputs | src/benchhandoff/engine.py:2444-2478 | wherever the loop stops, the partial outputs are the same and a rerun is accepted; it finishes exactly when every present output is a regular file, with the full list |
| Engine.Runner.RecoverIncompleteTask | src/benchhandoff/engine.py:2410-2510 | records the partial outputs found on entry, tears a version 3 history exactly when part was moved before without a recorded observation, and undisturbed succeeds exactly when the child is gone and nothing but partial outputs drifted; when it raises the state is unchanged and recovery is still not possible |
| Engine.Runner.RecordRecovery | src/benchhandoff/engine.py:2484-2510 | records the list and the observations, decides tearing exactly, and without a fault is refused only for the limits of the log |
| Engine.Runner.OpenLog | src/benchhandoff/engine.py:2522-2542 | creates the attempt log or finds it empty; only a fault refuses |
| Engine.Runner.LaunchChild | src/benchhandoff/engine.py:2733-2867 | at most one launch; wherever it stops the durable record is the guarded one or the one naming the child, and a returned ending means that the child is gone; undisturbed the child runs to its own end and its own return code is reported |
| Engine.Runner.Monitor | src/benchhandoff/engine.py:2802-2854 | the child's identity is recorded durably before it is waited for, or the child is stopped or lost sight of behind its guard |
| Engine.Runner.PrepareAttempt | src/benchhandoff/engine.py:2607-2654 | without a fault an attempt may begin exactly when its inputs are intact, its outputs absent, the workspace clean and attempts left for the task |
| Engine.Runner.StartAttempt | src/benchhandoff/engine.py:2607-2690 | the attempt is durably started behind its launch guard, with nothing launched yet; undisturbed exactly when the task can begin and the record fits |
| Engine.Runner.CloseAttempt | src/benchhandoff/engine.py:2868-3016 | the attempt ends durably failed with the child's return code and the tree it left, or durably completed with exactly the declared outputs as they are in the workspace; undisturbed it completes exactly when the child exited cleanly, inputs and the rest of the tree are intact, every output is there and the record fits; it fails only when the child did not exit cleanly or did not deliver; it raises only when the tree cannot be observed or the record that this end calls for does not fit, and then changes nothing |
| Engine.Runner.CompleteAttempt | src/benchhandoff/engine.py:3003-3016 | seals the outputs present in the workspace, and without a fault is refused only for the limits of the log |
| Engine.Runner.FinishFailed | src/benchhandoff/engine.py:2577-2604 | the attempt and the run are durably failed with the child's return code and the tree it left, whether or not the child's identity had been recorded; undisturbed this happens exactly when the failure record of this attempt, with this return code, fits, and otherwise nothing changes |
| Engine.Runner.RunTask | src/benchhandoff/engine.py:2607-3016 | at most one launch, of the next attempt of this task only; undisturbed the child is launched exactly when the task can begin and its start fits into the log, and it runs to its own end; the task then completes exactly when the child returned 0 and delivered and the record fits, fails only when it did not, and raises only when the tree cannot be observed or the record for that end does not fit |
| Engine.Runner.Supervise | src/benchhandoff/engine.py:2690-3016 | launches once and closes the attempt; undisturbed it completes exactly when the child returned 0 and delivered and the record fits, fails only when it did not, and raises only when the tree cannot be observed or the record for that end does not fit |
| Engine.Runner.SealRun | src/benchhandoff/engine.py:3372-3380 | without a fault sealing and verification succeed exactly when the run loads and every completed output is intact |
| Engine.Runner.ExecuteRemaining | src/benchhandoff/engine.py:3348-3386 | success means a sealed run that verifies; a session launches only tasks that were incomplete, each at most once, as their next attempt; undisturbed it closes the run only for a child that failed or did not deliver, and when it raises the world on disk shows what stopped it: a drifted completed task, a recovery that is not ready, a task that cannot begin, a tree that cannot be observed, the next record that does not fit, or a completed run that cannot be sealed |
| Engine.Runner.StartRun | src/benchhandoff/engine.py:3436-3449 | a start launches first attempts only, and success means a sealed run that verifies; undisturbed it closes the run only for a child that failed or did not deliver; it raises without any change when the start record does not fit, and otherwise only in a world that shows what stopped it, never for a recovery |
| Engine.Runner.AcceptResume | src/benchhandoff/engine.py:3527-3572 | changes no task and no quarantine; undisturbed with every recorded child gone it accepts exactly the resumable runs, and a sealed run is confirmed exactly when it verifies |
| Engine.Runner.ResumeRun | src/benchhandoff/engine.py:3527-3584 | a refused bound resume and any resume of a sealed run change nothing, and an open launch guard refuses every resume; an accepted decision is that of the very world the first transition was committed on; undisturbed with every recorded child gone a resume is accepted exactly when the run loads and is ready, or when its decision is the expected one; an accepted resume closes the run only for a child that failed or did not deliver, raises without any change when the resume record does not fit, and otherwise only in a world that shows what stopped it, for a recovery only while no task changed |
| WorkspaceScan.ScanDirectory | src/benchhandoff/workspace.py:245-344 | scanning one directory accounts for each of its entries once, and a refusal means that the whole tree is not acceptable |
| WorkspaceScan.SortEntries | src/benchhandoff/workspace.py:345-346 | returns the same entries strictly ordered by UTF-8 path |
| WorkspaceScan.SortedIsUnique | src/benchhandoff/workspace.py:345-346 | there is only one sorted list of given entries, so the order of directory listing does not matter |
| WorkspaceScan.JoinedInjective | src/benchhandoff/workspace.py:118-119 | different relative paths have different sort keys |
| WorkspaceManifest.ScanWorkspaceOnce | src/benchhandoff/workspace.py:235-346 | the stack scan accepts exactly the trees within all limits, among them at most 10000 entries in total, and returns the sorted entries of the recursively flattened tree |
| WorkspaceManifest.FlattenParented | src/benchhandoff/workspace.py:463-476 | every proper ancestor of a flattened entry is a directory entry |
| WorkspaceManifest.ValidateManifest | src/benchhandoff/workspace.py:376-477 | accepts exactly the canonical, bounded, alias-free, sorted entry lists in which every parent directory is listed |
| WorkspaceManifest.LoadManifest | src/benchhandoff/workspace.py:480-517 | loading accepts exactly the canonical bytes, at most 4 MiB, of a valid manifest, and only the reviewed file |
| WorkspaceManifest.Snapshot | src/benchhandoff/workspace.py:702-777 | a snapshot is the canonical bytes of the sorted entries of an acceptable tree, refused exactly when the tree is not acceptable or the bytes exceed 4 MiB |
| WorkspaceManifest.SnapshotLoads | src/benchhandoff/workspace.py:376-477 | the sorted entries of an acceptable tree are a valid manifest |
| WorkspaceManifest.PrepareBinding | src/benchhandoff/workspace.py:573-603 | preparation accepts exactly the reviewed bytes of a valid manifest that equals the tree, with every declared output absent and its parent present |
| WorkspaceManifest.SnapshotThenPrepare | src/benchhandoff/workspace.py:702-777 | for an unchanged acceptable tree whose manifest fits into 4 MiB, snapshot, load and prepare give back the same entries, for exactly the outputs that are absent with a parent |
| WriterLock.StepInv | src/benchhandoff/writer_lock.py:500-790 | every step of every process keeps the lock invariant: each owner's file is the one the lock path names, each recovery under guard works on a named file of a dead owner |
| LockSafety.OneHolder | src/benchhandoff/writer_lock.py:648-757 | over every run at most one live process holds the lock, and the lock path names its own complete record |
| LockSafety.UnlinksOnlyItsOwn | src/benchhandoff/writer_lock.py:564-599 | the lock path loses a file only by its creator, or by a recovery that inspected exactly that file and record, whose owner is dead and whose tombstone exists |
| LockSafety.OrphanStaysNamed | src/benchhandoff/writer_lock.py:533-599 | once its owner is dead a complete lock file stays named by the lock path or its tombstone, through any recoveries and crashes |
| LockSafety.RerunAccepted | src/benchhandoff/writer_lock.py:472-633 | whatever a crashed recovery left, if the owner's id is free or its record has a token, an idle process alone can complete the recovery, probes included: the lock path is free and the tombstone is the only name left |
| LockSafety.UnwrittenLockIsStuck | src/benchhandoff/writer_lock.py:114-179 | a lock file whose creator died before completing its record is never removed by any step |
| LockSafety.UnwrittenRun | src/benchhandoff/writer_lock.py:692-702 | a run that ends in such a lock: created, then its creator dies |
| LockSafety.TokenlessLockIsStuck | src/benchhandoff/writer_lock.py:360-432 | while a live process has the id of a dead owner whose record has no token, no process removes the lock, unless it had concluded before that the owner is dead |
| LockSafety.TokenlessRun | src/benchhandoff/writer_lock.py:360-432 | a run that ends in such a lock: the owner holds it with an unknown token and dies, and its id is reused |
| LockSafety.RemovableExactly | src/benchhandoff/writer_lock.py:472-633 | an idle process alone can remove the lock of a dead owner if and only if the record is complete, nobody has the flock, and the owner's id is free or the record has a token |
| LockProcess.ObservationExactly | src/benchhandoff/writer_lock.py:360-432 | over all answer sequences, the observation concludes owner-dead exactly on two dead answers and pid-reused exactly on alive, a token, alive, the same token, other than a recorded one |
| LockProcess.VerdictIsSound | src/benchhandoff/writer_lock.py:360-432 | a conclusion reached from sound answers, at whatever moments of a run they were given, is right then and ever after: the creator of the watched file is dead |
| LockProcess.Writer.Acquire | src/benchhandoff/writer_lock.py:648-757 | success means holding a new lock file that the lock path names, with no other live holder; failure leaves nothing open; undisturbed it succeeds exactly when the lock path was free |
| LockProcess.Writer.Publish | src/benchhandoff/writer_lock.py:702-757 | the created file is flocked, written and verified, or cleaned up; undisturbed it succeeds when the new file's flock is free |
| LockProcess.Writer.Release | src/benchhandoff/writer_lock.py:759-790 | releasing twice changes nothing, a first release ends with no descriptor open and no lock held, and undisturbed the release of a held lock frees the lock path |
| LockProcess.Writer.Observe | src/benchhandoff/writer_lock.py:360-432 | asks the questions in the source's order; undisturbed it concludes exactly what sound answers can conclude from the process table |
| LockProcess.Writer.TakeGuard | src/benchhandoff/writer_lock.py:331-357 | opens the named file and takes the kernel guard on it; undisturbed it succeeds exactly when nobody has the flock, and a failure changes nothing |
| LockProcess.Writer.Reinspect | src/benchhandoff/writer_lock.py:505-529 | confirms only the same record and the same decision under the guard; undisturbed it does so whenever both still hold |
| LockProcess.Writer.ArchiveOrphan | src/benchhandoff/writer_lock.py:531-599 | the confirmed file is linked to its tombstone, verified and unlinked from the lock path, or the guard is dropped; undisturbed it always succeeds |
| LockProcess.Writer.Recover | src/benchhandoff/writer_lock.py:472-633 | success means that exactly the reviewed record left the lock path and is archived under its tombstone as the only name; undisturbed it succeeds exactly when the lock path names that record, nobody has its flock and the process table gives the reviewed decision, and otherwise changes nothing |
| AgentRuns.StepInv | controller/internal/controller/agentrun_controller.go:199-330 | every accepted update keeps, for each rank, results that the API server showed in the only Pod of a completed, unfailed Job of the right template, and raises the resource version by one |
| AgentRuns.StepRank | controller/internal/controller/agentrun_controller.go:56-108 | each accepted update stays put or moves to a strictly higher rank, and blocked stays blocked with its Job |
| AgentRuns.RankNeverDrops | controller/internal/controller/agentrun_controller.go:56-108 | over any sequence of accepted updates the rank never drops and blocked is absorbing |
| AgentRuns.JobNeverReplaced | controller/internal/controller/agentrun_controller.go:252-330 | a Job bound for an action is never replaced by another Job for that action |
| AgentRuns.SucceededHasEvidence | controller/internal/controller/agentrun_controller.go:110-244 | a succeeded run has a result from the only Pod of the bound, completed verify Job; its run and bundle are those that the Pod of a completed start or resume Job reported; and a resume ran on exactly the decision that the start Pod published, in its arguments and in its result |
| AgentRuns.ProvenMeans | controller/internal/controller/agentrun_controller.go:449-499 | a proven result is what the nine fields of the shown Pod's message say, of a Pod owned by the shown, completed and unfailed Job |
| Reconciler.Manager.PersistStatus | controller/internal/controller/agentrun_controller.go:559-578 | an update is stored only on the very object that was read, and at most once |
| Reconciler.Manager.LoadBoundJob | controller/internal/controller/agentrun_controller.go:384-419 | a loaded Job was listed alone by the API server, is the bound one and matches the template; undisturbed it is loaded exactly when the list shows it |
| Reconciler.Manager.ObserveExpectedJob | controller/internal/controller/agentrun_controller.go:335-382 | an observed Job was listed alone and read by its name with one uid, and matches the template; undisturbed a miss means that the cluster does not show it |
| Reconciler.Manager.AuditPods | controller/internal/controller/agentrun_controller.go:424-447 | passes exactly when there is no Pod or one Pod owned by the Job |
| Reconciler.Manager.LoadHeld | controller/internal/controller/agentrun_controller.go:384-447 | a held Job was listed alone, is bound, matches the template and has no foreign Pod; undisturbed it is held exactly when the cluster shows that |
| Reconciler.Manager.ReadSingleStepResult | controller/internal/controller/agentrun_controller.go:449-499 | a result that is read is the parsed message of the only Pod the API server listed, owned by the held completed Job, and valid for this run, action and spec; undisturbed it is read exactly when the cluster reports it |
| Reconciler.Manager.FindJob | controller/internal/controller/agentrun_controller.go:252-318 | finds only a Job that was listed, read by name and passed the Pod audit; undisturbed it finds exactly the Job that the cluster shows |
| Reconciler.Manager.EnsureJob | controller/internal/controller/agentrun_controller.go:252-330 | every candidate it stores is an allowed update; undisturbed it binds the Job if the cluster shows exactly it without foreign Pods, blocks otherwise, and returns an error only for a missing answer |
| Reconciler.Manager.AcceptStepResult | controller/internal/controller/agentrun_controller.go:199-244 | every candidate it stores is an allowed update; undisturbed it stores exactly the status that the result calls for, blocking on a mismatch and when the verify Job is not shown |
| Reconciler.Manager.Examine | controller/internal/controller/agentrun_controller.go:145-196 | an accepted end rests on a proven result; undisturbed it tells a valid report from an active Job and from everything else: foreign or several Pods, a failed or unbound Job, a missing report |
| Reconciler.Manager.ReconcileActiveJob | controller/internal/controller/agentrun_controller.go:145-197 | undisturbed, a failed or unbound Job, foreign Pods and a completed Job without a valid report block, an active one changes nothing, and a report advances the run |
| Reconciler.Manager.ReconcileApproval | controller/internal/controller/agentrun_controller.go:110-143 | undisturbed, an unbound start Job or foreign Pods block, no approval waits, a wrong one blocks, and the published one binds the resume Job |
| Reconciler.Manager.Reconcile | controller/internal/controller/agentrun_controller.go:56-108 | one pass gets at most one update accepted, and only an allowed one, whatever other controllers, the user and the answers do; undisturbed it stores exactly the status that the object and the cluster call for, or returns an error for a missing answer and stores nothing |
| Protocol.DecodeExactTerminationObject | controller/internal/controller/result_protocol.go:197-260 | the token loop returns exactly the decoding that DecodesExactly characterises |
| ProtocolGrammar.DecodesExactly | controller/internal/controller/result_protocol.go:197-260 | a message decodes to a result if and only if it has at most 1024 bytes and is written, with blanks anywhere JSON allows them, as one object whose members have the nine known keys, each once, with string or null values that mean that result |
| Protocol.RoundTrip | controller/internal/controller/result_protocol.go:66-89 | every result with valid invariants survives encoding and parsing, within 1024 bytes |
| Protocol.ProducedIsAccepted | src/benchhandoff/controller_step.py:224-392 | for every valid request and every outcome the message fits, decodes to exactly its nine fields and is valid for that request |
| SuitePaths.CheckPaths | src/benchhandoff/model.py:394-416 | the one-pass alias and prefix maps accept exactly the path lists in which no two distinct paths have prefix-comparable keys |
| SuitePaths.CheckProducers | src/benchhandoff/model.py:428-441 | the loop accepts exactly the suites whose outputs are new, distinct and no seed, and returns the seeds |
| SuitePaths.AcceptedSuite | src/benchhandoff/model.py:428-441 | in an accepted suite every input is a seed or the output of a strictly earlier task, no path has two producers, and no seed is overwritten |
| SuitePaths.OverlapIsRefused | src/benchhandoff/model.py:417-426 | the separate input/output overlap check refuses nothing that the other checks accept |
| JsonWalk.ValidateJsonComplexity | src/benchhandoff/storage.py:565-589 | the stack walk terminates and accepts exactly the finite values with nothing more than 64 levels below the root and at most 100000 values and keys |

## Left out

- OS process control, `/proc` parsing, signals and process groups: a leader and an abstract probe stand for them; descendants of a leader are not modelled.
- The Windows mutex variant of the writer lock.
- Filesystem plumbing: links, reparse points and devices beyond "refused", fsync, long paths, leftover temporary files of a crash inside an atomic write.
- Changes to run evidence made by anything but the engine, apart from `VerifiedIsSealed` and `LoadContext`, which take any disk.
- The execution context (environment, executable identity), which appears only as a fault that may strike, and the suite file identity.
- SHA-256, TOML, Unicode normalisation, case folding, JSON escapes and general JSON parsing: parameters with stated laws.
- Timestamps, argv, labels, status conditions and error wording.
- The second scan of an observation: an unchanged tree gives the same sorted list, by `SortedIsUnique`; a changing tree during a scan is not modelled.
- Kubernetes template details, selectors, RBAC and leader election: one flag says that a Job matches the rest of the template.
- The CLI, benchmarks, license and privacy tools and the external evidence ledger.
- Engine.Runner.Commit: a state.json beyond 16 MiB, 100000 JSON nodes or 64 levels is refused by the writer as well; that refusal is one of the faults that may strike, not part of the exact condition.
- Engine.Runner.Persist: as for Commit, the size and shape limits of the written file are a fault that may strike before the write.
- Engine.Runner.LaunchChild: descendants of the leader and the emptiness of a process group are not modelled; a lingering group is a fault that may strike.
- Engine.Runner.ResumeRun: its exact condition is for worlds whose recorded children are all gone; with a live child the outcome depends on when the child dies.
- Engine.Runner.StartRun: models the start from the written plan, log and state; the preflight before them is not modelled.
- QuarantineRecovery.RecoveryIsCrashIdempotent: is about the quarantine list; the version 3 observation recorded beside it is the subject of SessionTears.
- Runs.BeforeIsPredecessorsAfter: is not stated for torn attempts.
- Protocol.DecodeExactTerminationObject: works on ASCII text; escapes are resolved by the library parameter.
