/** Every state the engine writes passes the full validator. */
module KeepState {
  import opened Basics
  import opened Events
  import opened WorkspaceTree
  import opened RunState
  import opened Lifecycle
  import opened World
  import opened Invariants
  import opened ValidUpdates

  lemma {:induction false} QuarantinedOk(spec: TaskSpec, outputs: seq<Path>, i: nat, n: nat, quarantine: map<QName,
      Content>)
    requires NoRepeat(outputs) && forall q :: q in outputs ==> q in spec.outputs
    ensures QuarantineOk(spec, i, n, Quarantined(outputs, i, n, quarantine))
    ensures forall r :: r in Quarantined(outputs, i, n, quarantine) ==> r.source in outputs
    decreases |outputs|
  {
    if outputs != [] {
      var front := outputs[..|outputs| - 1];
      QuarantinedOk(spec, front, i, n, quarantine);
      var rs := Quarantined(front, i, n, quarantine);
      assert forall k :: 0 <= k < |rs| ==> rs[k] in rs;
      assert outputs[|outputs| - 1] !in front;
    }
  }

  /** An intent keeps the event-log part of the validator. */
  lemma IntendOk(p: Plan, w: World, s: State, body: Body)
    requires CanIntend(p, w, body) && s.eventLog == w.state.eventLog
    requires TasksOk(p, s.tasks) && RunStatusOk(s)
    ensures StateOk(p, Intend(p, w, s, body).state)
  {
    hide TasksOk;
  }

  lemma LastErrorOk(id: string, detail: string)
    requires PlainText(id) && Text(detail)
    ensures PlainText(id + ": " + detail)
  {
    assert forall k :: 0 <= k < |": "| ==> ": "[k] != '\0';
  }

  lemma StartKeepsState(p: Plan, w: World, i: nat, inputs: map<Path, Content>, before: Option<Tree>, w': World)
    requires PlanOk(p) && StateOk(p, w.state) && Does(p, w, Start(i, inputs, before), w')
    ensures StateOk(p, w'.state)
  {
    hide VerifyWorkspace, AttemptOk, Sealed, HasLogs;
    var s := Started(p, w.state, i, inputs, before);
    assert TaskOk(p, i, w.state.tasks[i]);
    StartedOk(p, i, w.state.tasks[i], inputs, before);
    TaskReplaced(p, w.state.tasks, i, s.tasks[i]);
    IntendOk(p, w, s, TaskStarted(i, |w.state.tasks[i].attempts| + 1));
  }

  lemma FailKeepsState(p: Plan, w: World, i: nat, e: Ending, w': World)
    requires PlanOk(p) && StateOk(p, w.state) && Does(p, w, Fail(i, e), w')
    ensures StateOk(p, w'.state)
  {
    hide AttemptOk, EndingOk;
    var s := FailedBy(p, w.state, i, e);
    assert TaskOk(p, i, w.state.tasks[i]);
    FailedOk(p, w.state, i, e);
    TaskReplaced(p, w.state.tasks, i, s.tasks[i]);
    LastErrorOk(p.tasks[i].id, e.detail);
    IntendOk(p, w, s, TaskFailed(i, |w.state.tasks[i].attempts|, e.returnCode, e.detail));
  }

  lemma CompleteKeepsState(p: Plan, w: World, i: nat, outputs: map<Path, Content>, w': World)
    requires PlanOk(p) && StateOk(p, w.state) && Does(p, w, Complete(i, outputs), w')
    ensures StateOk(p, w'.state)
  {
    var after := if p.version == 3 then Some(w.files) else None;
    var s := CompletedWith(p, w.state, i, outputs, after);
    assert TaskOk(p, i, w.state.tasks[i]);
    CompletedOk(p, w.state, i, outputs, after);
    TaskReplaced(p, w.state.tasks, i, s.tasks[i]);
    IntendOk(p, w, s, TaskCompleted(i, |w.state.tasks[i].attempts|, |outputs|));
  }

  lemma RecoverKeepsState(p: Plan, w: World, i: nat, seen: map<Path, Content>, w': World)
    requires PlanOk(p) && StateOk(p, w.state) && Does(p, w, Recover(i, seen), w')
    ensures StateOk(p, w'.state)
  {
    var t := w.state.tasks[i];
    var s := Recovery(p, w, i, seen);
    var records := Quarantined(p.tasks[i].outputs, i, |t.attempts|, w.quarantine);
    assert TaskOk(p, i, t);
    assert AttemptOk(p, i, |t.attempts| - 1, Latest(t));
    QuarantinedOk(p.tasks[i], p.tasks[i].outputs, i, |t.attempts|, w.quarantine);
    RecoveredOk(p, w.state, i, records, AfterRecovery(p, w, i, seen), if p.version == 3 then Some(w.files) else None);
    TaskReplaced(p, w.state.tasks, i, s.tasks[i]);
    IntendOk(p, w, s, TaskRecovered(i, t.status, |t.attempts|, |records|));
  }

  lemma IdentifyKeepsState(p: Plan, w: World, i: nat, pid: int, token: string, w': World)
    requires PlanOk(p) && StateOk(p, w.state) && Does(p, w, Identify(i, pid, token), w')
    ensures StateOk(p, w'.state)
  {
    var t := w.state.tasks[i];
    assert TaskOk(p, i, t);
    var s := Identified(p, w.state, i, pid, token);
    IdentifiedOk(p, i, t, Latest(s.tasks[i]), pid, token);
    TaskReplaced(p, w.state.tasks, i, s.tasks[i]);
  }

  lemma PlainKeepsState(p: Plan, w: World, a: Act, w': World)
    requires StateOk(p, w.state) && LogInv(p, w) && Does(p, w, a, w')
    requires a.Append? || a.Acknowledge? || a.Spawn? || a.Move? || a.MakeLog? || a.Seal? || a.Environment?
    ensures StateOk(p, w'.state)
  {
    hide TasksOk, BundleFor, Recoverable, LogInv, VerifyWorkspace, Sealed, FirstIncomplete, NoLeader;
    if a.Acknowledge? {
      AcknowledgedCount(p, w);
    }
  }

  /** An unacknowledged record fits below the event limit. */
  lemma AcknowledgedCount(p: Plan, w: World)
    requires LogInv(p, w) && w.state.pending.Some?
    ensures w.state.eventLog.count < MAX_EVENT_COUNT
  {
  }

  lemma RunKeepsState(p: Plan, w: World, a: Act, w': World)
    requires StateOk(p, w.state) && Does(p, w, a, w')
    requires a.Begin? || a.Resume? || a.Finish?
    ensures StateOk(p, w'.state)
  {
    hide TasksOk;
    match a
    case Begin(suite) => IntendOk(p, w, w.state, RunStarted(suite, |p.tasks|));
    case Resume => IntendOk(p, w, Resumed(w.state), RunResumed(w.state.status));
    case Finish(operation) => IntendOk(p, w, Finished(w.state), RunFinished(operation, |p.tasks|));
  }

  lemma StepKeepsState(p: Plan, w: World, a: Act, w': World)
    requires PlanOk(p) && StateOk(p, w.state) && LogInv(p, w) && Does(p, w, a, w')
    ensures StateOk(p, w'.state)
  {
    hide *;
    match a
    case Start(i, inputs, before) => StartKeepsState(p, w, i, inputs, before, w');
    case Fail(i, e) => FailKeepsState(p, w, i, e, w');
    case Complete(i, outputs) => CompleteKeepsState(p, w, i, outputs, w');
    case Recover(i, seen) => RecoverKeepsState(p, w, i, seen, w');
    case Identify(i, pid, token) => IdentifyKeepsState(p, w, i, pid, token, w');
    case Begin(_) => RunKeepsState(p, w, a, w');
    case Resume => RunKeepsState(p, w, a, w');
    case Finish(_) => RunKeepsState(p, w, a, w');
    case _ => PlainKeepsState(p, w, a, w');
  }

}
