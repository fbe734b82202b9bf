/** Every update the engine makes keeps state.json acceptable to its own validator. */
module ValidUpdates {
  import opened Basics
  import opened Events
  import opened WorkspaceTree
  import opened RunState
  import opened Lifecycle

  lemma {:induction false} TotalWithinBudget(tasks: seq<TaskState>)
    requires forall i :: 0 <= i < |tasks| ==> |tasks[i].attempts| <= MAX_ATTEMPTS_PER_TASK
    ensures TotalAttempts(tasks) <= MAX_ATTEMPTS_PER_TASK * |tasks|
  {
    if tasks != [] {
      TotalWithinBudget(tasks[..|tasks| - 1]);
    }
  }

  lemma {:induction false} TotalBelowBudget(tasks: seq<TaskState>, i: nat)
    requires forall j :: 0 <= j < |tasks| ==> |tasks[j].attempts| <= MAX_ATTEMPTS_PER_TASK
    requires i < |tasks| && |tasks[i].attempts| < MAX_ATTEMPTS_PER_TASK
    ensures TotalAttempts(tasks) < MAX_ATTEMPTS_PER_TASK * |tasks|
    decreases |tasks|
  {
    var init := tasks[..|tasks| - 1];
    if i == |tasks| - 1 {
      TotalWithinBudget(init);
    } else {
      TotalBelowBudget(init, i);
    }
  }

  /** With at most 64 tasks, a run whose global attempt budget is spent has spent every task's own
      budget: the global check is never the one that refuses a launch or a resume. */
  lemma GlobalBudgetNeverBinds(p: Plan, s: State, i: nat)
    requires TasksOk(p, s.tasks) && |p.tasks| <= MAX_SUITE_TASKS && i < |s.tasks|
    requires |s.tasks[i].attempts| < MAX_ATTEMPTS_PER_TASK
    ensures TotalAttempts(s.tasks) < MAX_TOTAL_ATTEMPTS
  {
    forall j | 0 <= j < |s.tasks| ensures |s.tasks[j].attempts| <= MAX_ATTEMPTS_PER_TASK {
      assert TaskOk(p, j, s.tasks[j]);
    }
    TotalBelowBudget(s.tasks, i);
  }

  /** Replacing the first incomplete task keeps the task table acceptable. */
  lemma TaskReplaced(p: Plan, tasks: seq<TaskState>, i: nat, t: TaskState)
    requires TasksOk(p, tasks) && |p.tasks| <= MAX_SUITE_TASKS
    requires i < |tasks| && tasks[i].status != Completed
    requires forall j :: 0 <= j < i ==> tasks[j].status == Completed
    requires TaskOk(p, i, t)
    ensures TasksOk(p, tasks[i := t])
  {
    var tasks' := tasks[i := t];
    forall j | 0 <= j < |tasks'| ensures TaskOk(p, j, tasks'[j]) && |tasks'[j].attempts| <= MAX_ATTEMPTS_PER_TASK {
      assert j != i ==> TaskOk(p, j, tasks[j]);
    }
    TotalWithinBudget(tasks');
    forall j, k | 0 <= j < k < |tasks'| && tasks'[j].status != Completed ensures Untouched(tasks'[k]) {
      hide TaskOk;
      assert k != i && tasks[j].status != Completed;
      assert Untouched(tasks[k]);
    }
  }

  lemma StartedOk(p: Plan, i: nat, t: TaskState, inputs: map<Path, Content>, before: Option<Tree>)
    requires i < |p.tasks| && TaskOk(p, i, t) && t.status == Pending && |t.attempts| < MAX_ATTEMPTS_PER_TASK
    requires inputs.Keys == Elements(p.tasks[i].inputs)
    requires before.Some? <==> p.version == 3
    ensures TaskOk(p, i, t.(status := Running, attempts := t.attempts +
        [Launching(p.version, |t.attempts| + 1, inputs, before)]))
  {
    var a := Launching(p.version, |t.attempts| + 1, inputs, before);
    assert AttemptOk(p, i, |t.attempts|, a);
  }

  /** Replacing the latest attempt. */
  lemma LatestReplaced(p: Plan, i: nat, t: TaskState, a: Attempt, t': TaskState)
    requires i < |p.tasks| && TaskOk(p, i, t) && t.attempts != []
    requires AttemptOk(p, i, |t.attempts| - 1, a)
    requires t'.attempts == t.attempts[|t.attempts| - 1 := a]
    requires LatestOk(t')
    requires t'.status == Completed ==>
      t'.inputs.Keys == Elements(p.tasks[i].inputs) && t'.outputs.Keys == Elements(p.tasks[i].outputs)
    requires t'.status != Completed ==> t'.inputs == map[] && t'.outputs == map[]
    ensures TaskOk(p, i, t')
  {
  }

  lemma IdentifiedOk(p: Plan, i: nat, t: TaskState, a: Attempt, pid: int, token: string)
    requires i < |p.tasks| && TaskOk(p, i, t) && t.status == Running && Latest(t).guard
    requires pid > 0 && 0 < |token| <= MAX_TOKEN
    requires a == Latest(t).(pid := Some(pid), token := Some(token), guard := false,
                             scope := if p.version >= 2 then Some(Scope(Some(pid), false, Active)) else None)
    ensures TaskOk(p, i, WithLatest(t, a))
  {
    assert AttemptOk(p, i, |t.attempts| - 1, Latest(t));
    assert AttemptOk(p, i, |t.attempts| - 1, a);
    LatestReplaced(p, i, t, a, WithLatest(t, a));
  }

  lemma FailedOk(p: Plan, s: State, i: nat, e: Ending)
    requires i < |p.tasks| && i < |s.tasks| && TaskOk(p, i, s.tasks[i]) && s.tasks[i].status == Running
    requires EndingOk(p, Latest(s.tasks[i]), e)
    ensures TaskOk(p, i, FailedBy(p, s, i, e).tasks[i])
  {
    var t := s.tasks[i];
    var t' := FailedBy(p, s, i, e).tasks[i];
    assert AttemptOk(p, i, |t.attempts| - 1, Latest(t));
    assert ChildOk(Latest(t'));
    assert EvidenceOk(p.version, Latest(t'));
    LatestReplaced(p, i, t, Latest(t'), t');
  }

  lemma CompletedOk(p: Plan, s: State, i: nat, outputs: map<Path, Content>, after: Option<Tree>)
    requires i < |p.tasks| && i < |s.tasks| && TaskOk(p, i, s.tasks[i]) && s.tasks[i].status == Running
    requires Latest(s.tasks[i]).pid.Some?
    requires outputs.Keys == Elements(p.tasks[i].outputs) && (after.Some? <==> p.version == 3)
    ensures TaskOk(p, i, CompletedWith(p, s, i, outputs, after).tasks[i])
  {
    var t := s.tasks[i];
    var t' := CompletedWith(p, s, i, outputs, after).tasks[i];
    assert AttemptOk(p, i, |t.attempts| - 1, Latest(t));
    assert ChildOk(Latest(t'));
    assert EvidenceOk(p.version, Latest(t'));
    LatestReplaced(p, i, t, Latest(t'), t');
  }

  lemma FixedTexts()
    ensures Text(NO_TERMINAL) && PlainText(NOT_LIVE)
  {
    assert forall k :: 0 <= k < |NO_TERMINAL| ==> NO_TERMINAL[k] != '\0';
    assert forall k :: 0 <= k < |NOT_LIVE| ==> NOT_LIVE[k] != '\0';
  }

  lemma RecoveredOk(p: Plan, s: State, i: nat, records: seq<QRecord>, after: Option<Tree>, recovered: Option<Tree>)
    requires i < |p.tasks| && i < |s.tasks| && TaskOk(p, i, s.tasks[i])
    requires s.tasks[i].status == Running || s.tasks[i].status == Failed
    requires !Latest(s.tasks[i]).guard
    requires QuarantineOk(p.tasks[i], i, |s.tasks[i].attempts|, records)
    requires (after.Some? <==> p.version == 3) && (recovered.Some? <==> p.version == 3)
    ensures TaskOk(p, i, RecoveredWith(p, s, i, records, after, recovered).tasks[i])
  {
    var t := s.tasks[i];
    var t' := RecoveredWith(p, s, i, records, after, recovered).tasks[i];
    assert AttemptOk(p, i, |t.attempts| - 1, Latest(t));
    FixedTexts();
    assert ChildOk(Latest(t'));
    assert EvidenceOk(p.version, Latest(t'));
    LatestReplaced(p, i, t, Latest(t'), t');
  }
}
