/** The write-ahead protocol: intent in state.json, append to events.jsonl, acknowledgement. */
module KeepLog {
  import opened Basics
  import opened Events
  import opened EventLog
  import opened WorkspaceTree
  import opened RunState
  import opened Lifecycle
  import opened World
  import opened Invariants

  lemma RecordsAre(p: Plan, w: World, es: seq<Event>)
    requires Lawful(p.codec) && w.log == Bytes(p.codec, es)
    ensures Records(p, w) == es
  {
    DecodeUnique(p.codec, Records(p, w), es);
  }

  lemma ShorterPrefix(c: Codec, es: seq<Event>, k: nat)
    requires Lawful(c) && k < |es|
    ensures |Bytes(c, es[..k])| < |Bytes(c, es)|
  {
    BytesPrefix(c, es, k);
    if Bytes(c, es[..k]) == Bytes(c, es) {
      DecodeUnique(c, es[..k], es);
      assert false;
    }
  }

  /** The size test of the protocol tells the three positions apart. */
  lemma SizeTellsPosition(p: Plan, w: World)
    requires Lawful(p.codec) && LogInv(p, w)
    ensures |w.log| == w.state.eventLog.size <==> w.state.eventLog.count == |Records(p, w)|
  {
    var es := Records(p, w);
    if w.state.eventLog.count < |es| {
      ShorterPrefix(p.codec, es, w.state.eventLog.count);
    } else {
      assert es[..w.state.eventLog.count] == es;
    }
  }

  lemma IntendKeepsLog(p: Plan, w: World, s: State, body: Body, w': World)
    requires Lawful(p.codec) && LogInv(p, w) && ReplayInv(p, w) && CanIntend(p, w, body)
    requires s.eventLog == w.state.eventLog
    requires Apply(Abstract(w.state), body) == Some(Abstract(s))
    requires w'.log == w.log && w'.state == Intend(p, w, s, body).state
    ensures LogInv(p, w') && ReplayInv(p, w')
    ensures History(p, w') == History(p, w) + [MakeEvent(p, w.state, body)]
  {
    var e := MakeEvent(p, w.state, body);
    assert Records(p, w') == Records(p, w);
    assert History(p, w') == History(p, w) + [e];
    ReplayAppend(|p.tasks|, History(p, w), e);
    assert Abstract(w'.state) == Abstract(s);
  }

  lemma AppendKeepsLog(p: Plan, w: World, w': World)
    requires PlanOk(p) && StateOk(p, w.state) && LogInv(p, w) && ReplayInv(p, w) && Does(p, w, Append, w')
    ensures LogInv(p, w') && ReplayInv(p, w') && HistoryGrows(p, w, Append, w')
  {
    hide Lawful, Bytes, RecordOk, Replay, Abstract;
    var es, e := Records(p, w), w.state.pending.value;
    SizeTellsPosition(p, w);
    assert es[..|es|] == es;
    ChainAppend(p.codec, p.Head(), es, e);
    BytesAppend(p.codec, es, e);
    RecordsAre(p, w', es + [e]);
    assert (es + [e])[..|es|] == es;
    assert History(p, w') == es + [e] == History(p, w);
  }

  lemma AcknowledgeKeepsLog(p: Plan, w: World, w': World)
    requires PlanOk(p) && LogInv(p, w) && ReplayInv(p, w) && Does(p, w, Acknowledge, w')
    ensures LogInv(p, w') && ReplayInv(p, w') && HistoryGrows(p, w, Acknowledge, w')
  {
    var es := Records(p, w);
    SizeTellsPosition(p, w);
    assert Records(p, w') == es && es[..|es|] == es;
    assert es[..|es| - 1] + [es[|es| - 1]] == es;
    assert History(p, w') == es == History(p, w);
    assert Abstract(w'.state) == Abstract(w.state);
  }

  lemma OtherKeepsLog(p: Plan, w: World, w': World)
    requires LogInv(p, w) && ReplayInv(p, w)
    requires w'.log == w.log && w'.state.eventLog == w.state.eventLog && w'.state.pending == w.state.pending
    requires Abstract(w'.state) == Abstract(w.state)
    ensures LogInv(p, w') && ReplayInv(p, w') && History(p, w') == History(p, w)
  {
    assert Records(p, w') == Records(p, w);
  }

  /** A transition's record follows the log. */
  ghost function Recorded(p: Plan, w: World, a: Act): Option<Body>
  {
    match a
    case Begin(suite) => Some(RunStarted(suite, |p.tasks|))
    case Resume => Some(RunResumed(w.state.status))
    case Finish(operation) => Some(RunFinished(operation, |p.tasks|))
    case Start(i, _, _) => if i < |w.state.tasks| then Some(TaskStarted(i, |w.state.tasks[i].attempts| + 1)) else None
    case Fail(i, e) => if i < |w.state.tasks|
        then Some(TaskFailed(i, |w.state.tasks[i].attempts|, e.returnCode, e.detail)) else None
    case Complete(i, outputs) => if i < |w.state.tasks|
        then Some(TaskCompleted(i, |w.state.tasks[i].attempts|, |outputs|)) else None
    case Recover(i, _) =>
      if i < |w.state.tasks| && i < |p.tasks| then
        var t := w.state.tasks[i];
        Some(TaskRecovered(i, t.status, |t.attempts|, |Quarantined(p.tasks[i].outputs, i, |t.attempts|, w.quarantine)|))
      else None
    case _ => None
  }

  /** History after a step: extended by the new intent, otherwise unchanged. */
  ghost predicate HistoryGrows(p: Plan, w: World, a: Act, w': World)
    requires LogInv(p, w) && LogInv(p, w')
  {
    History(p, w') == History(p, w) +
        (if Recorded(p, w, a).Some? then [MakeEvent(p, w.state, Recorded(p, w, a).value)] else [])
  }

  lemma RunReplays(p: Plan, s: State, operation: string)
    ensures Apply(Abstract(s), RunResumed(s.status)) == Some(Abstract(Resumed(s)))
    ensures |s.tasks| == |p.tasks| && AllCompleted(s) ==>
      Apply(Abstract(s), RunFinished(operation, |p.tasks|)) == Some(Abstract(Finished(s)))
  {
    assert Abstract(Resumed(s)).tasks == Abstract(s).tasks && Abstract(Finished(s)).tasks == Abstract(s).tasks;
  }

  lemma RunEventKeepsLog(p: Plan, w: World, a: Act, w': World)
    requires PlanOk(p) && StateOk(p, w.state) && LogInv(p, w) && ReplayInv(p, w) && Does(p, w, a, w')
    requires a.Begin? || a.Resume? || a.Finish?
    ensures LogInv(p, w') && ReplayInv(p, w') && HistoryGrows(p, w, a, w')
  {
    hide StateOk, LogInv, ReplayInv, Lawful, Abstract, AllCompleted;
    match a
    case Begin(suite) =>
      FreshIsBlank(p, w);
      IntendKeepsLog(p, w, w.state, RunStarted(suite, |p.tasks|), w');
    case Resume =>
      RunReplays(p, w.state, "");
      IntendKeepsLog(p, w, Resumed(w.state), RunResumed(w.state.status), w');
    case Finish(operation) =>
      TaskTableSize(p, w);
      RunReplays(p, w.state, operation);
      IntendKeepsLog(p, w, Finished(w.state), RunFinished(operation, |p.tasks|), w');
  }

  lemma FreshIsBlank(p: Plan, w: World)
    requires LogInv(p, w) && ReplayInv(p, w) && w.state.eventLog.count == 0 && w.state.pending.None?
    ensures Abstract(w.state) == Blank(|p.tasks|)
  {
    assert History(p, w) == [];
  }

  lemma TaskTableSize(p: Plan, w: World)
    requires StateOk(p, w.state)
    ensures |w.state.tasks| == |p.tasks|
  {
  }

  lemma StartKeepsLog(p: Plan, w: World, i: nat, inputs: map<Path, Content>, before: Option<Tree>, w': World)
    requires PlanOk(p) && StateOk(p, w.state) && LogInv(p, w)
    requires ReplayInv(p, w) && Does(p, w, Start(i, inputs, before), w')
    ensures LogInv(p, w') && ReplayInv(p, w') && HistoryGrows(p, w, Start(i, inputs, before), w')
  {
    hide StateOk, LogInv, ReplayInv, Lawful, Apply, Abstract, VerifyWorkspace, InputsMatch, HasLogs;
    StartedReplays(p, w.state, i, inputs, before);
    IntendKeepsLog(p, w, Started(p, w.state, i, inputs, before), TaskStarted(i, |w.state.tasks[i].attempts| + 1), w');
  }

  lemma FailKeepsLog(p: Plan, w: World, i: nat, e: Ending, w': World)
    requires PlanOk(p) && StateOk(p, w.state) && LogInv(p, w) && ReplayInv(p, w) && Does(p, w, Fail(i, e), w')
    ensures LogInv(p, w') && ReplayInv(p, w') && HistoryGrows(p, w, Fail(i, e), w')
  {
    hide StateOk, LogInv, ReplayInv, Lawful, Apply, Abstract, EndingOk;
    FailedReplays(p, w.state, i, e);
    IntendKeepsLog(p, w, FailedBy(p, w.state, i, e),
        TaskFailed(i, |w.state.tasks[i].attempts|, e.returnCode, e.detail), w');
  }

  lemma CompleteKeepsLog(p: Plan, w: World, i: nat, outputs: map<Path, Content>, w': World)
    requires PlanOk(p) && StateOk(p, w.state) && LogInv(p, w) && ReplayInv(p, w) && Does(p, w, Complete(i, outputs), w')
    ensures LogInv(p, w') && ReplayInv(p, w') && HistoryGrows(p, w, Complete(i, outputs), w')
  {
    hide StateOk, LogInv, ReplayInv, Lawful, Apply, Abstract, VerifyWorkspace;
    var after := if p.version == 3 then Some(w.files) else None;
    CompletedReplays(p, w.state, i, outputs, after);
    IntendKeepsLog(
      p, w, CompletedWith(p, w.state, i, outputs, after), TaskCompleted(i, |w.state.tasks[i].attempts|, |outputs|), w');
  }

  lemma RecoverKeepsLog(p: Plan, w: World, i: nat, seen: map<Path, Content>, w': World)
    requires PlanOk(p) && StateOk(p, w.state) && LogInv(p, w) && ReplayInv(p, w) && Does(p, w, Recover(i, seen), w')
    ensures LogInv(p, w') && ReplayInv(p, w') && HistoryGrows(p, w, Recover(i, seen), w')
  {
    hide StateOk, LogInv, ReplayInv, Lawful, Apply, Abstract, VerifyWorkspace, Quarantined, Moved;
    var n := |w.state.tasks[i].attempts|;
    var records := Quarantined(p.tasks[i].outputs, i, n, w.quarantine);
    RecoveredReplays(p, w.state, i, records, AfterRecovery(p, w, i, seen), if p.version == 3 then Some(w.files)
        else None);
    IntendKeepsLog(p, w, Recovery(p, w, i, seen), TaskRecovered(i, w.state.tasks[i].status, n, |records|), w');
  }

  lemma TaskEventKeepsLog(p: Plan, w: World, a: Act, w': World)
    requires PlanOk(p) && StateOk(p, w.state) && LogInv(p, w) && ReplayInv(p, w) && Does(p, w, a, w')
    requires a.Start? || a.Fail? || a.Complete? || a.Recover?
    ensures LogInv(p, w') && ReplayInv(p, w') && HistoryGrows(p, w, a, w')
  {
    hide PlanOk, StateOk, LogInv, ReplayInv, Does, HistoryGrows;
    match a
    case Start(i, inputs, before) => StartKeepsLog(p, w, i, inputs, before, w');
    case Fail(i, e) => FailKeepsLog(p, w, i, e, w');
    case Complete(i, outputs) => CompleteKeepsLog(p, w, i, outputs, w');
    case Recover(i, seen) => RecoverKeepsLog(p, w, i, seen, w');
  }

  lemma QuietKeepsLog(p: Plan, w: World, a: Act, w': World)
    requires PlanOk(p) && StateOk(p, w.state) && LogInv(p, w) && ReplayInv(p, w) && Does(p, w, a, w')
    requires a.Spawn? || a.Identify? || a.Move? || a.MakeLog? || a.Seal? || a.Environment?
    ensures LogInv(p, w') && ReplayInv(p, w') && HistoryGrows(p, w, a, w')
  {
    hide StateOk, LogInv, ReplayInv, Recoverable, BundleFor, VerifyWorkspace;
    if a.Identify? {
      IdentifiedIsSilent(p, w.state, a.task, a.pid, a.token);
    }
    OtherKeepsLog(p, w, w');
  }

  lemma StepKeepsLog(p: Plan, w: World, a: Act, w': World)
    requires PlanOk(p) && StateOk(p, w.state) && LogInv(p, w) && ReplayInv(p, w) && Does(p, w, a, w')
    ensures LogInv(p, w') && ReplayInv(p, w') && HistoryGrows(p, w, a, w')
  {
    hide *;
    match a
    case Begin(_) => RunEventKeepsLog(p, w, a, w');
    case Resume => RunEventKeepsLog(p, w, a, w');
    case Finish(_) => RunEventKeepsLog(p, w, a, w');
    case Append => AppendKeepsLog(p, w, w');
    case Acknowledge => AcknowledgeKeepsLog(p, w, w');
    case Start(_, _, _) => TaskEventKeepsLog(p, w, a, w');
    case Fail(_, _) => TaskEventKeepsLog(p, w, a, w');
    case Complete(_, _) => TaskEventKeepsLog(p, w, a, w');
    case Recover(_, _) => TaskEventKeepsLog(p, w, a, w');
    case _ => QuietKeepsLog(p, w, a, w');
  }
}
