/** state.json: its records and the validator applied before every write and on every load. */
module RunState {
  import opened Basics
  import opened Events
  import opened EventLog
  import opened WorkspaceTree

  const MAX_ATTEMPTS_PER_TASK := 4
  const MAX_TOTAL_ATTEMPTS := 256
  const MAX_SUITE_TASKS := 64
  const MAX_TOKEN := 256

  datatype TaskSpec = TaskSpec(id: string, inputs: seq<Path>, outputs: seq<Path>)

  /** plan.json together with the library behaviour the engine runs on: the codec and the set of
      trees the workspace scanner can observe. */
  datatype Plan = Plan(
    version: int,
    runId: string,
    tasks: seq<TaskSpec>,
    seeds: map<Path, Content>,
    baseline: Tree,
    codec: Codec,
    scannable: Tree -> bool)
  {
    function Head(): Header { Header(version, runId, |tasks|) }
  }

  datatype AttemptStatus = ARunning | AFailed | AInterrupted | ACompleted

  datatype Closure =
    PendingLaunch | Active | NotCreated | LaunchCleaned | NaturalEmpty | Terminated | RecoveredEmpty

  datatype Scope = Scope(id: Option<int>, empty: bool, closure: Closure)

  /** The quarantine file name is a digest of task, attempt and source. */
  datatype QName = QName(task: nat, attempt: nat, source: Path)

  datatype QRecord = QRecord(source: Path, artifact: QName, id: Content)

  datatype Attempt = Attempt(
    number: nat,
    status: AttemptStatus,
    ended: bool,
    pid: Option<int>,
    token: Option<string>,
    guard: bool,
    returnCode: Option<int>,
    inputs: map<Path, Content>,
    scope: Option<Scope>,
    before: Option<Tree>,
    after: Option<Tree>,
    recovered: Option<Tree>,
    error: Option<string>,
    interruption: Option<string>,
    noReturnCode: Option<string>,
    outputs: Option<map<Path, Content>>,
    quarantined: Option<seq<QRecord>>)

  datatype TaskState = TaskState(
    status: TaskStatus,
    attempts: seq<Attempt>,
    inputs: map<Path, Content>,
    outputs: map<Path, Content>)

  datatype State = State(
    status: RunStatus,
    lastError: Option<string>,
    eventLog: Observation,
    pending: Option<Event>,
    tasks: seq<TaskState>)

  function Elements<T>(s: seq<T>): set<T> { set x | x in s }

  // ---------------------------------------------------------------- the validator

  predicate Ended(s: AttemptStatus) { s == AFailed || s == AInterrupted }

  predicate ScopeOk(s: Scope, status: AttemptStatus, pid: Option<int>, guard: bool)
  {
    && (s.id.Some? ==> s.id.value > 0)
    && if guard then s.id.None? && !s.empty && s.closure == PendingLaunch
       else if pid.None? then
         status == AFailed && s.id.None? && s.empty && (s.closure == NotCreated || s.closure == LaunchCleaned)
       else
         && s.id == pid
         && if status == ARunning then !s.empty && s.closure == Active
            else s.empty && (s.closure == NaturalEmpty || s.closure == Terminated || s.closure == RecoveredEmpty)
  }

  predicate QuarantineOk(spec: TaskSpec, i: nat, n: nat, records: seq<QRecord>)
  {
    && (forall k :: 0 <= k < |records| ==>
          records[k].source in spec.outputs && records[k].artifact == QName(i, n, records[k].source))
    && (forall j, k :: 0 <= j < k < |records| ==> records[j].source != records[k].source)
  }

  predicate ChildOk(a: Attempt)
  {
    && (a.pid.Some? ==> a.pid.value > 0)
    && (a.pid.None? ==> a.token.None?)
    && (a.pid.Some? ==> a.token.Some? && 0 < |a.token.value| <= MAX_TOKEN)
    && (a.guard ==> a.status == ARunning && a.pid.None?)
    && (!a.guard && a.status == ARunning ==> a.pid.Some?)
    && (a.scope.Some? ==> ScopeOk(a.scope.value, a.status, a.pid, a.guard))
    && (a.noReturnCode.Some? ==>
          PlainText(a.noReturnCode.value) && a.status == AInterrupted && a.pid.Some? && a.returnCode.None?)
    && (Ended(a.status) ==>
          && (a.pid.None? ==> a.returnCode.None?)
          && (a.pid.Some? && a.returnCode.None? ==> a.noReturnCode.Some?))
  }

  predicate EvidenceOk(version: int, a: Attempt)
  {
    && (version == 3 <==> a.before.Some?)
    && (version != 3 ==> a.after.None? && a.recovered.None?)
    && (version >= 2 <==> a.scope.Some?)
    && (version == 3 && a.status != ARunning ==> a.after.Some?)
    && (a.status == ARunning ==>
          && !a.ended && a.returnCode.None? && a.error.None? && a.interruption.None?
          && a.quarantined.None? && a.after.None?)
    && (a.status != ARunning ==> a.ended)
    && (Ended(a.status) ==> a.error.Some? || a.interruption.Some?)
    && (a.error.Some? ==> Text(a.error.value))
    && (a.interruption.Some? ==> Text(a.interruption.value))
    && (a.quarantined.Some? ==> Ended(a.status) && (version == 3 ==> a.recovered.Some?))
    && (a.recovered.Some? ==> a.quarantined.Some?)
  }

  predicate AttemptOk(p: Plan, i: nat, k: nat, a: Attempt)
    requires i < |p.tasks|
  {
    && a.number == k + 1
    && EvidenceOk(p.version, a)
    && ChildOk(a)
    && a.inputs.Keys == Elements(p.tasks[i].inputs)
    && (a.status == ACompleted ==>
          && a.pid.Some? && a.returnCode == Some(0)
          && a.outputs.Some? && a.outputs.value.Keys == Elements(p.tasks[i].outputs))
    && (a.status != ACompleted ==> a.outputs.None?)
    && (a.quarantined.Some? ==> QuarantineOk(p.tasks[i], i, k + 1, a.quarantined.value))
  }

  predicate LatestOk(t: TaskState)
  {
    if t.attempts == [] then t.status == Pending
    else
      var a := t.attempts[|t.attempts| - 1];
      match t.status
      case Pending => Ended(a.status) && a.quarantined.Some?
      case Running => a.status == ARunning && a.quarantined.None?
      case Failed => Ended(a.status) && a.quarantined.None?
      case Completed => a.status == ACompleted && a.outputs == Some(t.outputs) && a.inputs == t.inputs
  }

  predicate TaskOk(p: Plan, i: nat, t: TaskState)
    requires i < |p.tasks|
  {
    && |t.attempts| <= MAX_ATTEMPTS_PER_TASK
    && (forall k :: 0 <= k < |t.attempts| ==> AttemptOk(p, i, k, t.attempts[k]))
    && (forall k :: 0 <= k < |t.attempts| - 1 ==>
          Ended(t.attempts[k].status) && t.attempts[k].quarantined.Some?
          && (p.version == 3 ==> t.attempts[k].recovered.Some?))
    && (t.status == Completed ==>
          t.inputs.Keys == Elements(p.tasks[i].inputs) && t.outputs.Keys == Elements(p.tasks[i].outputs))
    && (t.status != Completed ==> t.inputs == map[] && t.outputs == map[])
    && LatestOk(t)
  }

  function TotalAttempts(tasks: seq<TaskState>): nat
  {
    if tasks == [] then 0 else TotalAttempts(tasks[..|tasks| - 1]) + |tasks[|tasks| - 1].attempts|
  }

  predicate Untouched(t: TaskState) { t.status == Pending && t.attempts == [] }

  /** Completed tasks form a prefix and every task after the first incomplete one is untouched. */
  predicate Ordered(tasks: seq<TaskState>)
  {
    forall i, j :: 0 <= i < j < |tasks| && tasks[i].status != Completed ==> Untouched(tasks[j])
  }

  lemma CompletedBefore(tasks: seq<TaskState>, i: nat)
    requires Ordered(tasks) && i < |tasks| && !Untouched(tasks[i])
    ensures forall j :: 0 <= j < i ==> tasks[j].status == Completed
  {
  }

  predicate EventLogOk(p: Plan, s: State)
  {
    && s.eventLog.count <= MAX_EVENT_COUNT
    && (s.pending.Some? ==>
          s.eventLog.count < MAX_EVENT_COUNT
          && RecordOk(p.codec, p.Head(), s.pending.value, s.eventLog.count + 1, s.eventLog.sha))
  }

  predicate RunStatusOk(s: State)
  {
    && (s.lastError.Some? ==> PlainText(s.lastError.value))
    && (s.status == RunCompleted ==>
          s.lastError.None? && forall i :: 0 <= i < |s.tasks| ==> s.tasks[i].status == Completed)
    && (s.status == RunFailed ==> s.lastError.Some?)
  }

  predicate TasksOk(p: Plan, tasks: seq<TaskState>)
  {
    && |tasks| == |p.tasks|
    && (forall i :: 0 <= i < |tasks| ==> TaskOk(p, i, tasks[i]))
    && TotalAttempts(tasks) <= MAX_TOTAL_ATTEMPTS
    && Ordered(tasks)
  }

  /** What `_validate_state_shape` accepts. */
  predicate StateOk(p: Plan, s: State)
  {
    EventLogOk(p, s) && RunStatusOk(s) && TasksOk(p, s.tasks)
  }

  lemma {:induction false} TotalAttemptsMonotone(tasks: seq<TaskState>, k: nat)
    requires k <= |tasks|
    ensures TotalAttempts(tasks[..k]) <= TotalAttempts(tasks)
    decreases |tasks|
  {
    if k == |tasks| {
      assert tasks[..k] == tasks;
    } else {
      TotalAttemptsMonotone(tasks[..|tasks| - 1], k);
      assert tasks[..|tasks| - 1][..k] == tasks[..k];
    }
  }

  /** The prefix scan of the validator. */
  method CheckOrder(tasks: seq<TaskState>) returns (ok: bool)
    ensures ok == Ordered(tasks)
  {
    var sawIncomplete := false;
    ghost var first: int := 0;
    for i := 0 to |tasks|
      invariant sawIncomplete ==> 0 <= first < i && tasks[first].status != Completed
      invariant first <= i && forall j :: 0 <= j < first ==> tasks[j].status == Completed
      invariant !sawIncomplete ==> first == i
      invariant sawIncomplete ==> forall j :: first < j < i ==> Untouched(tasks[j])
    {
      if tasks[i].status == Completed {
        if sawIncomplete {
          assert !Untouched(tasks[i]);
          return false;
        }
        first := i + 1;
      } else if !sawIncomplete {
        sawIncomplete, first := true, i;
      } else if !Untouched(tasks[i]) {
        return false;
      }
    }
    ok := true;
  }

  method CheckTasks(p: Plan, tasks: seq<TaskState>) returns (ok: bool, allCompleted: bool)
    requires |tasks| == |p.tasks|
    ensures ok == (TotalAttempts(tasks) <= MAX_TOTAL_ATTEMPTS && forall i :: 0 <= i < |tasks| ==>
        TaskOk(p, i, tasks[i]))
    ensures ok ==> allCompleted == forall i :: 0 <= i < |tasks| ==> tasks[i].status == Completed
  {
    hide TaskOk;
    var total: nat;
    total, allCompleted := 0, true;
    for i := 0 to |tasks|
      invariant total == TotalAttempts(tasks[..i]) <= MAX_TOTAL_ATTEMPTS
      invariant forall j :: 0 <= j < i ==> TaskOk(p, j, tasks[j])
      invariant allCompleted == forall j :: 0 <= j < i ==> tasks[j].status == Completed
    {
      assert tasks[..i + 1][..i] == tasks[..i];
      total := total + |tasks[i].attempts|;
      if total > MAX_TOTAL_ATTEMPTS {
        TotalAttemptsMonotone(tasks, i + 1);
        return false, false;
      }
      if !TaskOk(p, i, tasks[i]) {
        return false, false;
      }
      if tasks[i].status != Completed {
        allCompleted := false;
      }
    }
    assert tasks[..|tasks|] == tasks;
    ok := true;
  }

  method ValidateStateShape(p: Plan, s: State) returns (ok: bool)
    ensures ok == StateOk(p, s)
  {
    if !EventLogOk(p, s) || |s.tasks| != |p.tasks| {
      return false;
    }
    var tasksOk, allCompleted := CheckTasks(p, s.tasks);
    if !tasksOk {
      return false;
    }
    var ordered := CheckOrder(s.tasks);
    ok := ordered
      && !(s.lastError.Some? && !PlainText(s.lastError.value))
      && !(s.status == RunCompleted && !allCompleted)
      && !(s.status == RunCompleted && s.lastError.Some?)
      && !(s.status == RunFailed && s.lastError.None?);
  }
}
