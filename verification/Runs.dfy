/** Safety over whole runs: any number of starts, resumes and crashes at any step. */
module Runs {
  import opened Basics
  import opened Events
  import opened EventLog
  import opened WorkspaceTree
  import opened RunState
  import opened Lifecycle
  import opened World
  import opened Invariants
  import opened KeepState
  import opened KeepLog
  import opened KeepLeader
  import opened KeepFiles
  import opened KeepWorkspace

  lemma InitState(p: Plan, w: World)
    requires PlanOk(p) && Init(p, w)
    ensures StateOk(p, w.state)
  {
    NoAttempts(w.state.tasks);
  }

  lemma {:induction false} NoAttempts(tasks: seq<TaskState>)
    requires forall i :: 0 <= i < |tasks| ==> tasks[i].attempts == []
    ensures TotalAttempts(tasks) == 0
  {
    if tasks != [] {
      NoAttempts(tasks[..|tasks| - 1]);
    }
  }

  lemma InitLog(p: Plan, w: World)
    requires PlanOk(p) && Init(p, w)
    ensures LogInv(p, w) && ReplayInv(p, w)
  {
    RecordsAre(p, w, []);
    assert Abstract(w.state).tasks == Blank(|p.tasks|).tasks;
  }

  lemma InitInv(p: Plan, w: World)
    requires PlanOk(p) && Init(p, w)
    ensures Inv(p, w)
  {
    InitState(p, w);
    InitLog(p, w);
    hide StateOk, LogInv, ReplayInv, Quarantined, Derivable, ExpectedInput, BundleFor;
  }

  lemma StepInv(p: Plan, w: World, a: Act, w': World)
    requires PlanOk(p) && Inv(p, w) && Does(p, w, a, w')
    ensures Inv(p, w') && HistoryGrows(p, w, a, w')
  {
    hide PlanOk, StateOk, LogInv, ReplayInv, LeaderInv, QuarantineInv, MovedInv, LogFilesInv, WorkspaceInv;
    hide InputsInv, BundleInv, Does, HistoryGrows;
    StepKeepsState(p, w, a, w');
    StepKeepsLog(p, w, a, w');
    StepKeepsLeader(p, w, a, w');
    StepKeepsQuarantine(p, w, a, w');
    StepKeepsMoved(p, w, a, w');
    StepKeepsLogFiles(p, w, a, w');
    StepKeepsWorkspace(p, w, a, w');
    StepKeepsInputs(p, w, a, w');
    StepKeepsBundle(p, w, a, w');
  }

  /** Every crash point of every run satisfies the invariant. */
  lemma {:induction false} RunInv(p: Plan, ws: seq<World>, k: nat)
    requires PlanOk(p) && Run(p, ws) && k < |ws|
    ensures Inv(p, ws[k])
  {
    hide PlanOk, Inv, Init, Does;
    if k == 0 {
      InitInv(p, ws[0]);
    } else {
      RunInv(p, ws, k - 1);
      assert Next(p, ws[k - 1], ws[k - 1 + 1]);
      var a :| Does(p, ws[k - 1], a, ws[k]);
      StepInv(p, ws[k - 1], a, ws[k]);
    }
  }

  // ---------------------------------------------------------------- single leader

  /** At most one task leader is alive at any crash point, and the latest running attempt covers it
      with its launch guard or with its recorded pid and start token. */
  lemma OneCoveredLeader(p: Plan, ws: seq<World>, k: nat, x: int, y: int)
    requires PlanOk(p) && Run(p, ws) && k < |ws|
    requires x in ws[k].procs && ws[k].procs[x].owner.Some? && y in ws[k].procs && ws[k].procs[y].owner.Some?
    ensures x == y && Covers(ws[k], x, ws[k].procs[x]) && FirstIncomplete(ws[k].state, ws[k].procs[x].owner.value.0)
  {
    hide PlanOk, Run, StateOk, LogInv, ReplayInv, QuarantineInv, MovedInv, LogFilesInv, WorkspaceInv;
    hide InputsInv, BundleInv;
    RunInv(p, ws, k);
    LeaderIsFirst(p, ws[k], x);
  }

  lemma LeaderIsFirst(p: Plan, w: World, x: int)
    requires StateOk(p, w.state) && LeaderInv(w) && x in w.procs && w.procs[x].owner.Some?
    ensures FirstIncomplete(w.state, w.procs[x].owner.value.0)
  {
    hide TaskOk;
    var i := w.procs[x].owner.value.0;
    assert Covers(w, x, w.procs[x]);
    CompletedBefore(w.state.tasks, i);
  }

  /** A child is launched only when every earlier leader is dead, and once per recorded attempt. */
  lemma LaunchAfterDeath(p: Plan, ws: seq<World>, k: nat, i: nat, pid: int, token: string)
    requires PlanOk(p) && Run(p, ws) && k + 1 < |ws| && Does(p, ws[k], Spawn(i, pid, token), ws[k + 1])
    ensures NoLeader(ws[k])
    ensures (i, |ws[k].state.tasks[i].attempts|) in ws[k + 1].launches - ws[k].launches
  {
    hide PlanOk, Run, StateOk, LogInv, ReplayInv, LeaderInv, QuarantineInv, MovedInv, LogFilesInv;
    hide WorkspaceInv, InputsInv, BundleInv;
    RunInv(p, ws, k);
    SpawnKeepsLeader(p, ws[k], i, pid, token, ws[k + 1]);
  }

  // ---------------------------------------------------------------- log and state

  /** State.json and events.jsonl agree at every crash point: the log is a legal history whose
      replay gives the recorded statuses and attempt counts. */
  lemma LogAndStateAgree(p: Plan, ws: seq<World>, k: nat)
    requires PlanOk(p) && Run(p, ws) && k < |ws|
    ensures LogInv(p, ws[k]) && Replay(|p.tasks|, History(p, ws[k])) == Some(Abstract(ws[k].state))
    ensures Position(Records(p, ws[k]), ws[k].state.eventLog.count, ws[k].state.pending).Some?
  {
    hide PlanOk, Run, StateOk, LeaderInv, QuarantineInv, MovedInv, LogFilesInv, WorkspaceInv, InputsInv;
    hide BundleInv, Replay;
    RunInv(p, ws, k);
  }

  lemma LogOnlyGrows(p: Plan, w: World, a: Act, w': World)
    requires Does(p, w, a, w')
    ensures w.log <= w'.log
  {
    hide CanIntend, BundleFor, VerifyWorkspace, EndingOk, InputsMatch, AfterRecovery, Quarantined;
    hide Recoverable, Started, FailedBy, CompletedWith, Recovery;
  }

  /** The log grows by suffix, and so does the history of durable intents. */
  lemma {:induction false} HistoryOnlyGrows(p: Plan, ws: seq<World>, j: nat, k: nat)
    requires PlanOk(p) && Run(p, ws) && j <= k < |ws|
    ensures LogInv(p, ws[j]) && LogInv(p, ws[k])
    ensures ws[j].log <= ws[k].log && History(p, ws[j]) <= History(p, ws[k])
    decreases k
  {
    hide PlanOk, StateOk, LogInv, ReplayInv, LeaderInv, QuarantineInv, MovedInv, LogFilesInv, WorkspaceInv;
    hide InputsInv, BundleInv, Does, History, Init;
    RunInv(p, ws, j);
    RunInv(p, ws, k);
    if j < k {
      HistoryOnlyGrows(p, ws, j, k - 1);
      RunInv(p, ws, k - 1);
      assert Next(p, ws[k - 1], ws[k - 1 + 1]);
      var a :| Does(p, ws[k - 1], a, ws[k]);
      StepInv(p, ws[k - 1], a, ws[k]);
      LogOnlyGrows(p, ws[k - 1], a, ws[k]);
    }
  }

  lemma HistoryNumbered(p: Plan, w: World, j: nat)
    requires StateOk(p, w.state) && LogInv(p, w) && j < |History(p, w)|
    ensures History(p, w)[j].sequence == j + 1
  {
    hide TasksOk;
    var es := Records(p, w);
    if j < w.state.eventLog.count {
      assert LinkOk(p.codec, p.Head(), es, j);
    }
  }

  /** A durable intent stays in the history at its sequence number and nowhere else. */
  lemma IntentExactlyOnce(p: Plan, ws: seq<World>, j: nat, k: nat, e: Event)
    requires PlanOk(p) && Run(p, ws) && j <= k < |ws| && ws[j].state.pending == Some(e)
    ensures ws[k].state.eventLog.count <= |Records(p, ws[k])|
    ensures 1 <= e.sequence <= |History(p, ws[k])|
    ensures forall m :: 0 <= m < |History(p, ws[k])| ==> (History(p, ws[k])[m] == e <==> m + 1 == e.sequence)
  {
    hide PlanOk, Run, StateOk, ReplayInv, LeaderInv, QuarantineInv, MovedInv, LogFilesInv, WorkspaceInv;
    hide InputsInv, BundleInv;
    RunInv(p, ws, j);
    RunInv(p, ws, k);
    HistoryOnlyGrows(p, ws, j, k);
    PendingIsLast(p, ws[j], e);
    forall m | 0 <= m < |History(p, ws[k])| ensures History(p, ws[k])[m] == e <==> m + 1 == e.sequence {
      HistoryNumbered(p, ws[k], m);
    }
  }

  lemma PendingIsLast(p: Plan, w: World, e: Event)
    requires StateOk(p, w.state) && LogInv(p, w) && w.state.pending == Some(e)
    ensures |History(p, w)| == e.sequence >= 1 && History(p, w)[e.sequence - 1] == e
  {
    hide TasksOk;
  }

  // ---------------------------------------------------------------- budgets

  /** A completed task is never changed, and so never launched, again. */
  lemma CompletedFrozen(p: Plan, w: World, a: Act, w': World, i: nat)
    requires StateOk(p, w.state) && Does(p, w, a, w') && i < |w.state.tasks| && w.state.tasks[i].status == Completed
    ensures i < |w'.state.tasks| && w'.state.tasks[i] == w.state.tasks[i]
    ensures forall n: nat :: (i, n) in w'.launches ==> (i, n) in w.launches
  {
    hide StateOk, CanIntend, BundleFor, VerifyWorkspace, EndingOk, InputsMatch, AfterRecovery, Quarantined;
  }

  lemma {:induction false} CompletedNeverRelaunched(p: Plan, ws: seq<World>, j: nat, k: nat, i: nat)
    requires PlanOk(p) && Run(p, ws) && j <= k < |ws|
    requires i < |ws[j].state.tasks| && ws[j].state.tasks[i].status == Completed
    ensures i < |ws[k].state.tasks| && ws[k].state.tasks[i] == ws[j].state.tasks[i]
    ensures forall n: nat :: (i, n) in ws[k].launches ==> (i, n) in ws[j].launches
    decreases k
  {
    hide PlanOk, StateOk, LogInv, ReplayInv, LeaderInv, QuarantineInv, MovedInv, LogFilesInv, WorkspaceInv;
    hide InputsInv, BundleInv, Does, Init;
    if j < k {
      CompletedNeverRelaunched(p, ws, j, k - 1, i);
      RunInv(p, ws, k - 1);
      assert Next(p, ws[k - 1], ws[k - 1 + 1]);
      var a :| Does(p, ws[k - 1], a, ws[k]);
      CompletedFrozen(p, ws[k - 1], a, ws[k], i);
    }
  }

  /** No task is launched more than four times, whatever the number of crashes and resumes. */
  lemma LaunchBudget(p: Plan, ws: seq<World>, k: nat, i: nat, n: nat)
    requires PlanOk(p) && Run(p, ws) && k < |ws| && (i, n) in ws[k].launches
    ensures i < |p.tasks| && 1 <= n <= MAX_ATTEMPTS_PER_TASK
    ensures LogInv(p, ws[k]) && n <= Starts(History(p, ws[k]), i) <= MAX_ATTEMPTS_PER_TASK
  {
    hide PlanOk, Run, QuarantineInv, MovedInv, LogFilesInv, WorkspaceInv, InputsInv, BundleInv, Replay, TaskOk;
    RunInv(p, ws, k);
    StartsAreCounted(|p.tasks|, History(p, ws[k]), i);
  }

  // ---------------------------------------------------------------- conservation

  /** A step that removes an output puts the same bytes under a fresh quarantine name, unless a
      live leader removed it; nothing ever leaves or changes in quarantine. */
  lemma StepConserves(p: Plan, w: World, a: Act, w': World, q: Path)
    requires Does(p, w, a, w')
    ensures forall name :: name in w.quarantine ==> name in w'.quarantine && w'.quarantine[name] == w.quarantine[name]
    ensures q in w.files && w.files[q].File? && NoLeader(w) && !(q in w'.files && w'.files[q] == w.files[q]) ==>
      exists name :: name !in w.quarantine && name in w'.quarantine && name.source == q &&
          w'.quarantine[name] == w.files[q].id
  {
    hide CanIntend, BundleFor, VerifyWorkspace, EndingOk, InputsMatch, AfterRecovery, Quarantined, Started;
    hide FailedBy, CompletedWith, Recovery;
    if a.Move? {
      assert QName(a.task, |w.state.tasks[a.task].attempts|, a.source) in w'.quarantine;
    }
  }

  lemma {:induction false} QuarantineOnlyGrows(p: Plan, ws: seq<World>, j: nat, k: nat, name: QName)
    requires Run(p, ws) && j <= k < |ws| && name in ws[j].quarantine
    ensures name in ws[k].quarantine && ws[k].quarantine[name] == ws[j].quarantine[name]
    decreases k
  {
    hide Does, Init;
    if j < k {
      QuarantineOnlyGrows(p, ws, j, k - 1, name);
      assert Next(p, ws[k - 1], ws[k - 1 + 1]);
      var a :| Does(p, ws[k - 1], a, ws[k]);
      StepConserves(p, ws[k - 1], a, ws[k], []);
    }
  }

  // ---------------------------------------------------------------- workspace history

  /** The workspace an attempt starts from is the one its predecessor sealed. */
  lemma BeforeIsPredecessorsAfter(p: Plan, ws: seq<World>, m: nat, i: nat, k: nat)
    requires PlanOk(p) && Run(p, ws) && m < |ws| && p.version == 3
    requires 0 < i < |ws[m].state.tasks| && k < |ws[m].state.tasks[i].attempts| && (i, k + 1) !in ws[m].torn
    ensures ws[m].state.tasks[i - 1].status == Completed && ws[m].state.tasks[i - 1].attempts != []
    ensures ws[m].state.tasks[i].attempts[k].before == Latest(ws[m].state.tasks[i - 1]).after
  {
    hide PlanOk, Run, LogInv, ReplayInv, LeaderInv, QuarantineInv, MovedInv, LogFilesInv, InputsInv;
    hide BundleInv, FailedInv;
    hide StateOk, TornInv, Derivable;
    RunInv(p, ws, m);
    var tasks := ws[m].state.tasks;
    CompletedIsWhole(p, ws[m], i);
    DerivedTrees(p, tasks, i, tasks[i].attempts[k]);
  }

  lemma CompletedIsWhole(p: Plan, w: World, i: nat)
    requires StateOk(p, w.state) && TornInv(w) && 0 < i < |w.state.tasks| && w.state.tasks[i].attempts != []
    ensures var t := w.state.tasks[i - 1];
      && t.status == Completed && t.attempts != []
      && Latest(t).status == ACompleted && Latest(t).outputs == Some(t.outputs)
      && (i - 1, |t.attempts|) !in w.torn
  {
    hide AttemptOk;
    CompletedBefore(w.state.tasks, i);
    var t := w.state.tasks[i - 1];
    assert TaskOk(p, i - 1, t);
    assert AttemptOk(p, i - 1, |t.attempts| - 1, Latest(t));
    NoQuarantine(p, i - 1, |t.attempts| - 1, Latest(t));
  }

  lemma NoQuarantine(p: Plan, i: nat, k: nat, a: Attempt)
    requires i < |p.tasks| && AttemptOk(p, i, k, a) && a.status == ACompleted
    ensures a.quarantined.None?
  {
  }

  lemma DerivedTrees(p: Plan, tasks: seq<TaskState>, i: nat, a: Attempt)
    requires 0 < i < |tasks| && Derivable(p, tasks, i, a)
    requires var t := tasks[i - 1];
      && t.status == Completed && t.attempts != []
      && Latest(t).status == ACompleted && Latest(t).outputs == Some(t.outputs)
      && Derivable(p, tasks, i - 1, Latest(t))
    ensures a.before == Latest(tasks[i - 1]).after
  {
  }
}
