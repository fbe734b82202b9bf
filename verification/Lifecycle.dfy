/** The run/task life cycle: the in-memory updates the engine makes to state.json, and the
    language of event logs that those updates generate. */
module Lifecycle {
  import opened Basics
  import opened Events
  import opened WorkspaceTree
  import opened RunState

  // ---------------------------------------------------------------- replaying a log

  /** What an event log alone says about a run. */
  datatype Progress = Progress(task: TaskStatus, attempts: nat)
  datatype Summary = Summary(run: RunStatus, tasks: seq<Progress>)

  function Abstract(s: State): Summary
  {
    Summary(s.status, seq(|s.tasks|,
        i requires 0 <= i < |s.tasks| => Progress(s.tasks[i].status, |s.tasks[i].attempts|)))
  }

  function Blank(tasks: nat): Summary
  {
    Summary(RunRunning, seq(tasks, i => Progress(Pending, 0)))
  }

  predicate DoneBefore(tasks: seq<Progress>, i: nat)
    requires i <= |tasks|
  {
    forall j :: 0 <= j < i ==> tasks[j].task == Completed
  }

  /** The legal effect of one record; None when the record cannot follow. */
  function Apply(m: Summary, b: Body): Option<Summary>
  {
    match b
    case RunStarted(_, n) => if m == Blank(n) then Some(m) else None
    case RunResumed(previous) => if m.run == previous then Some(m.(run := RunRunning)) else None
    case RunFinished(_, n) =>
      if |m.tasks| == n && DoneBefore(m.tasks, n) then Some(m.(run := RunCompleted)) else None
    case TaskStarted(i, n) =>
      if i < |m.tasks| && DoneBefore(m.tasks, i) && 1 <= n <= MAX_ATTEMPTS_PER_TASK &&
          m.tasks[i] == Progress(Pending, n - 1)
      then Some(Summary(RunRunning, m.tasks[i := Progress(Running, n)])) else None
    case TaskFailed(i, n, _, _) =>
      if i < |m.tasks| && m.tasks[i] == Progress(Running, n)
      then Some(Summary(RunFailed, m.tasks[i := Progress(Failed, n)])) else None
    case TaskRecovered(i, previous, n, _) =>
      if i < |m.tasks| && (previous == Running || previous == Failed) && m.tasks[i] == Progress(previous, n)
      then Some(m.(tasks := m.tasks[i := Progress(Pending, n)])) else None
    case TaskCompleted(i, n, _) =>
      if i < |m.tasks| && m.tasks[i] == Progress(Running, n)
      then Some(m.(tasks := m.tasks[i := Progress(Completed, n)])) else None
  }

  function Replay(tasks: nat, es: seq<Event>): Option<Summary>
  {
    if es == [] then Some(Blank(tasks))
    else match Replay(tasks, es[..|es| - 1])
      case None => None
      case Some(m) => Apply(m, es[|es| - 1].body)
  }

  lemma ReplayAppend(tasks: nat, es: seq<Event>, e: Event)
    ensures Replay(tasks, es + [e]) ==
        (if Replay(tasks, es).None? then None else Apply(Replay(tasks, es).value, e.body))
  {
    assert (es + [e])[..|es|] == es;
  }

  // ---------------------------------------------------------------- laws of replayable logs

  function Starts(es: seq<Event>, i: nat): nat
  {
    if es == [] then 0
    else Starts(es[..|es| - 1], i) + (if es[|es| - 1].body.TaskStarted? && es[|es| - 1].body.task == i then 1 else 0)
  }

  /** The attempt counter of a task is the number of its launches, and it never exceeds the limit. */
  lemma {:induction false} StartsAreCounted(tasks: nat, es: seq<Event>, i: nat)
    requires Replay(tasks, es).Some? && i < tasks
    ensures |Replay(tasks, es).value.tasks| == tasks
    ensures Starts(es, i) == Replay(tasks, es).value.tasks[i].attempts <= MAX_ATTEMPTS_PER_TASK
  {
    if es != [] {
      StartsAreCounted(tasks, es[..|es| - 1], i);
    }
  }

  lemma ReplayLength(tasks: nat, es: seq<Event>)
    requires Replay(tasks, es).Some?
    ensures |Replay(tasks, es).value.tasks| == tasks
  {
    if es != [] {
      ReplayLength(tasks, es[..|es| - 1]);
    }
  }

  predicate Mentions(b: Body, i: nat)
  {
    !b.RunStarted? && !b.RunResumed? && !b.RunFinished? && b.task == i
  }

  /** Once a replayable log completes a task, no later record mentions it. */
  lemma {:induction false} CompletedIsFinal(tasks: nat, es: seq<Event>, k: nat, i: nat)
    requires Replay(tasks, es).Some? && k < |es| && i < tasks
    requires es[k].body.TaskCompleted? && es[k].body.task == i
    ensures |Replay(tasks, es).value.tasks| == tasks && Replay(tasks, es).value.tasks[i].task == Completed
    ensures forall j :: k < j < |es| ==> !Mentions(es[j].body, i)
    decreases |es|
  {
    var init := es[..|es| - 1];
    ReplayLength(tasks, es);
    ReplayLength(tasks, init);
    if k < |es| - 1 {
      CompletedIsFinal(tasks, init, k, i);
      assert forall j :: k < j < |es| - 1 ==> es[j] == init[j];
    }
  }

  // ---------------------------------------------------------------- state updates

  function Latest(t: TaskState): Attempt
    requires t.attempts != []
  {
    t.attempts[|t.attempts| - 1]
  }

  function WithLatest(t: TaskState, a: Attempt): TaskState
    requires t.attempts != []
  {
    t.(attempts := t.attempts[|t.attempts| - 1 := a])
  }

  function Resumed(s: State): State
  {
    s.(status := RunRunning, lastError := None)
  }

  function Launching(version: int, number: nat, inputs: map<Path, Content>, before: Option<Tree>): Attempt
  {
    Attempt(number, ARunning, false, None, None, true, None, inputs,
            if version >= 2 then Some(Scope(None, false, PendingLaunch)) else None,
            before, None, None, None, None, None, None, None)
  }

  function Started(p: Plan, s: State, i: nat, inputs: map<Path, Content>, before: Option<Tree>): State
    requires i < |s.tasks|
  {
    var t := s.tasks[i];
    var a := Launching(p.version, |t.attempts| + 1, inputs, before);
    s.(status := RunRunning, lastError := None,
       tasks := s.tasks[i := t.(status := Running, attempts := t.attempts + [a])])
  }

  function Identified(p: Plan, s: State, i: nat, pid: int, token: string): State
    requires i < |s.tasks| && s.tasks[i].attempts != []
  {
    var t := s.tasks[i];
    var a := Latest(t).(pid := Some(pid), token := Some(token), guard := false,
                        scope := if p.version >= 2 then Some(Scope(Some(pid), false, Active)) else None);
    s.(tasks := s.tasks[i := WithLatest(t, a)])
  }

  /** How a child run ended without producing verified outputs. */
  datatype Ending = Ending(
    status: AttemptStatus, pid: Option<int>, token: Option<string>, returnCode: Option<int>,
    closure: Closure, after: Option<Tree>, detail: string)

  predicate EndingOk(p: Plan, a: Attempt, e: Ending)
  {
    && Ended(e.status)
    && Text(e.detail)
    && (e.after.Some? <==> p.version == 3)
    && (a.pid.Some? ==> e.pid == a.pid && e.token == a.token)
    && if e.pid.None? then
         e.token.None? && e.returnCode.None? && e.status == AFailed &&
             (e.closure == NotCreated || e.closure == LaunchCleaned)
       else
         && e.pid.value > 0 && e.token.Some? && 0 < |e.token.value| <= MAX_TOKEN && e.returnCode.Some?
         && (e.closure == NaturalEmpty || e.closure == Terminated)
  }

  function FailedBy(p: Plan, s: State, i: nat, e: Ending): State
    requires i < |s.tasks| && i < |p.tasks| && s.tasks[i].attempts != []
  {
    var t := s.tasks[i];
    var a := Latest(t).(
      guard := false, status := e.status, ended := true, pid := e.pid, token := e.token, returnCode := e.returnCode,
      scope := if p.version >= 2 then Some(Scope(e.pid, true, e.closure)) else None,
      after := e.after, error := Some(e.detail));
    s.(status := RunFailed, lastError := Some(p.tasks[i].id + ": " + e.detail),
       tasks := s.tasks[i := WithLatest(t, a).(status := Failed)])
  }

  function CompletedWith(p: Plan, s: State, i: nat, outputs: map<Path, Content>, after: Option<Tree>): State
    requires i < |s.tasks| && s.tasks[i].attempts != []
  {
    var t := s.tasks[i];
    var a := Latest(t).(
      status := ACompleted, ended := true, returnCode := Some(0), outputs := Some(outputs), after := after,
      scope := if p.version >= 2 then Some(Scope(Latest(t).pid, true, NaturalEmpty)) else None);
    s.(tasks := s.tasks[i := WithLatest(t, a).(status := Completed, inputs := a.inputs, outputs := outputs)])
  }

  const NO_TERMINAL := "no terminal result"
  const NOT_LIVE := "no longer live"

  /** The attempt after recovery: an unfinished one is marked interrupted first. */
  function Interrupted(p: Plan, a: Attempt): Attempt
  {
    if a.status != ARunning then a
    else
      a.(status := AInterrupted, ended := true, interruption := Some(NO_TERMINAL),
         scope := if p.version >= 2 then Some(Scope(a.pid, true, RecoveredEmpty)) else None,
         noReturnCode := if a.pid.Some? && a.returnCode.None? then Some(NOT_LIVE) else a.noReturnCode)
  }

  function RecoveredWith(p: Plan, s: State, i: nat, records: seq<QRecord>, after: Option<Tree>,
      recovered: Option<Tree>): State
    requires i < |s.tasks| && s.tasks[i].attempts != []
  {
    var t := s.tasks[i];
    var a := Interrupted(p, Latest(t)).(after := after, quarantined := Some(records), recovered := recovered);
    s.(tasks := s.tasks[i := WithLatest(t, a).(status := Pending, inputs := map[], outputs := map[])])
  }

  function Finished(s: State): State
  {
    s.(status := RunCompleted, lastError := None)
  }

  // ---------------------------------------------------------------- the updates follow the log language

  predicate Untasked(s: State, i: nat)
    requires i < |s.tasks|
  {
    forall j :: 0 <= j < i ==> s.tasks[j].status == Completed
  }

  lemma StartedReplays(p: Plan, s: State, i: nat, inputs: map<Path, Content>, before: Option<Tree>)
    requires i < |s.tasks| && Untasked(s, i) && s.tasks[i].status == Pending
    requires |s.tasks[i].attempts| < MAX_ATTEMPTS_PER_TASK
    ensures Apply(Abstract(s), TaskStarted(i, |s.tasks[i].attempts| + 1)) ==
        Some(Abstract(Started(p, s, i, inputs, before)))
  {
    assert Abstract(Started(p, s, i, inputs, before)).tasks ==
        Abstract(s).tasks[i := Progress(Running, |s.tasks[i].attempts| + 1)];
  }

  lemma FailedReplays(p: Plan, s: State, i: nat, e: Ending)
    requires i < |s.tasks| && i < |p.tasks| && s.tasks[i].attempts != [] && s.tasks[i].status == Running
    ensures Apply(Abstract(s), TaskFailed(i, |s.tasks[i].attempts|, e.returnCode, e.detail)) ==
        Some(Abstract(FailedBy(p, s, i, e)))
  {
    assert Abstract(FailedBy(p, s, i, e)).tasks == Abstract(s).tasks[i := Progress(Failed, |s.tasks[i].attempts|)];
  }

  lemma CompletedReplays(p: Plan, s: State, i: nat, outputs: map<Path, Content>, after: Option<Tree>)
    requires i < |s.tasks| && s.tasks[i].attempts != [] && s.tasks[i].status == Running
    ensures Apply(Abstract(s), TaskCompleted(i, |s.tasks[i].attempts|, |outputs|)) ==
        Some(Abstract(CompletedWith(p, s, i, outputs, after)))
  {
    assert Abstract(CompletedWith(p, s, i, outputs, after)).tasks ==
        Abstract(s).tasks[i := Progress(Completed, |s.tasks[i].attempts|)];
  }

  lemma RecoveredReplays(p: Plan, s: State, i: nat, records: seq<QRecord>, after: Option<Tree>, recovered: Option<Tree>)
    requires i < |s.tasks| && s.tasks[i].attempts != [] && (s.tasks[i].status == Running || s.tasks[i].status == Failed)
    ensures Apply(Abstract(s), TaskRecovered(i, s.tasks[i].status, |s.tasks[i].attempts|, |records|))
         == Some(Abstract(RecoveredWith(p, s, i, records, after, recovered)))
  {
    assert Abstract(RecoveredWith(p, s, i, records, after, recovered)).tasks ==
        Abstract(s).tasks[i := Progress(Pending, |s.tasks[i].attempts|)];
  }

  lemma IdentifiedIsSilent(p: Plan, s: State, i: nat, pid: int, token: string)
    requires i < |s.tasks| && s.tasks[i].attempts != []
    ensures Abstract(Identified(p, s, i, pid, token)) == Abstract(s)
  {
  }
}
