/** The durable world of one run and the atomic steps that change it. A crash of the engine is
    the absence of further engine steps, so every prefix of a run is a possible crash point. */
module World {
  import opened Basics
  import opened Events
  import opened EventLog
  import opened WorkspaceTree
  import opened RunState
  import opened Lifecycle

  /** A live process; a task leader remembers the task and attempt it was launched for. */
  datatype Proc = Proc(token: string, owner: Option<(nat, nat)>)

  datatype LogKey = LogKey(task: nat, attempt: nat, err: bool)

  datatype ArtifactPath = PlanFile | StateFile | EventsFile | LogFile(key: LogKey) | QuarantineFile(name: QName)
  datatype Stored = PlanBytes | StateBytes(state: State) | FileBytes(bytes: Content)
  datatype Artifact = Artifact(path: ArtifactPath, id: Stored)
  datatype OutputRecord = OutputRecord(task: nat, path: Path, id: Content)
  datatype Bundle = Bundle(artifacts: seq<Artifact>, outputs: seq<OutputRecord>, final: Option<Tree>)

  /** `launches` and `torn` are history variables: the launches ever made, and the attempts whose
      recovery recorded a post-attempt observation of an already half-moved tree. */
  datatype World = World(
    state: State,
    log: Content,
    files: Tree,
    quarantine: map<QName, Content>,
    logs: map<LogKey, Content>,
    bundle: Option<Bundle>,
    procs: map<int, Proc>,
    launches: set<(nat, nat)>,
    torn: set<(nat, nat)>)

  // ---------------------------------------------------------------- plans

  predicate NoRepeat<T(==)>(s: seq<T>)
  {
    forall j, k :: 0 <= j < k < |s| ==> s[j] != s[k]
  }

  /** `path` is an output of a task before `i`. */
  predicate ProducedBefore(p: Plan, i: nat, path: Path)
    requires i <= |p.tasks|
  {
    exists j :: 0 <= j < i && path in p.tasks[j].outputs
  }

  /** What loading and preflighting a suite establishes. */
  ghost predicate PlanOk(p: Plan)
  {
    && Lawful(p.codec)
    && 1 <= p.version <= 3
    && 1 <= |p.tasks| <= MAX_SUITE_TASKS
    && (forall i :: 0 <= i < |p.tasks| ==> PlainText(p.tasks[i].id) && NoRepeat(p.tasks[i].outputs))
    && (forall i, j, q :: 0 <= i < j < |p.tasks| && q in p.tasks[i].outputs ==> q !in p.tasks[j].outputs)
    && (forall i, q :: 0 <= i < |p.tasks| && q in p.tasks[i].outputs ==>
          q !in p.seeds && (p.version == 3 ==> q !in p.baseline))
    && (forall i, q :: 0 <= i < |p.tasks| && q in p.tasks[i].inputs ==> q in p.seeds || ProducedBefore(p, i, q))
  }

  // ---------------------------------------------------------------- views of a world

  predicate NoLeader(w: World)
  {
    forall pid :: pid in w.procs ==> w.procs[pid].owner.None?
  }

  predicate AllCompleted(s: State)
  {
    forall i :: 0 <= i < |s.tasks| ==> s.tasks[i].status == Completed
  }

  predicate FirstIncomplete(s: State, i: nat)
  {
    i < |s.tasks| && s.tasks[i].status != Completed && Untasked(s, i)
  }

  /** Verified outputs of the completed tasks among the first `i`. */
  function Sealed(tasks: seq<TaskState>, i: nat): map<Path, Content>
    requires i <= |tasks|
  {
    if i == 0 then map[]
    else Sealed(tasks, i - 1) + (if tasks[i - 1].status == Completed then tasks[i - 1].outputs else map[])
  }

  /** `_expected_inputs`: seeds, or outputs of completed producers. */
  function ExpectedInput(p: Plan, s: State, i: nat, q: Path): Option<Content>
    requires i <= |s.tasks|
  {
    if q in p.seeds then Some(p.seeds[q])
    else if q in Sealed(s.tasks, i) then Some(Sealed(s.tasks, i)[q])
    else None
  }

  /** The records of files quarantined for one attempt, in output order. */
  function Quarantined(outputs: seq<Path>, i: nat, n: nat, quarantine: map<QName, Content>): seq<QRecord>
  {
    if outputs == [] then []
    else
      var front := Quarantined(outputs[..|outputs| - 1], i, n, quarantine);
      var q := outputs[|outputs| - 1];
      var name := QName(i, n, q);
      if name in quarantine then front + [QRecord(q, name, quarantine[name])] else front
  }

  /** The partial outputs of one attempt that sit in quarantine. */
  function Moved(outputs: seq<Path>, i: nat, n: nat, quarantine: map<QName, Content>): map<Path, Content>
  {
    map q | q in outputs && QName(i, n, q) in quarantine :: quarantine[QName(i, n, q)]
  }

  function FinalOutputsOf(i: nat, outputs: seq<Path>, ids: map<Path, Content>): seq<OutputRecord>
  {
    if outputs == [] then []
    else
      var q := outputs[|outputs| - 1];
      FinalOutputsOf(i, outputs[..|outputs| - 1], ids) + (if q in ids then [OutputRecord(i, q, ids[q])] else [])
  }

  function FinalOutputs(p: Plan, tasks: seq<TaskState>, i: nat): seq<OutputRecord>
    requires i <= |tasks| && i <= |p.tasks|
  {
    if i == 0 then []
    else FinalOutputs(p, tasks, i - 1) + FinalOutputsOf(i - 1, p.tasks[i - 1].outputs, tasks[i - 1].outputs)
  }

  predicate ArtifactExists(w: World, a: ArtifactPath)
  {
    (a.LogFile? ==> a.key in w.logs) && (a.QuarantineFile? ==> a.name in w.quarantine)
  }

  function ArtifactId(w: World, a: ArtifactPath): Stored
    requires ArtifactExists(w, a)
  {
    match a
    case PlanFile => PlanBytes
    case StateFile => StateBytes(w.state)
    case EventsFile => FileBytes(w.log)
    case LogFile(key) => FileBytes(w.logs[key])
    case QuarantineFile(name) => FileBytes(w.quarantine[name])
  }

  /** The bundle lists every artifact once, with its current identity. */
  ghost predicate BundleFor(p: Plan, w: World, b: Bundle)
    requires |w.state.tasks| == |p.tasks|
  {
    && (forall j, k :: 0 <= j < k < |b.artifacts| ==> b.artifacts[j].path != b.artifacts[k].path)
    && (forall k :: 0 <= k < |b.artifacts| ==>
          ArtifactExists(w, b.artifacts[k].path) && b.artifacts[k].id == ArtifactId(w, b.artifacts[k].path))
    && (forall a :: ArtifactExists(w, a) ==> exists k :: 0 <= k < |b.artifacts| && b.artifacts[k].path == a)
    && b.outputs == FinalOutputs(p, w.state.tasks, |p.tasks|)
    && b.final == (if p.version == 3 then Some(w.files) else None)
  }

  // ---------------------------------------------------------------- intents

  function MakeEvent(p: Plan, s: State, body: Body): Event
  {
    Event(p.version, p.runId, s.eventLog.count + 1, s.eventLog.sha, body)
  }

  /** `_commit_transition` may write the intent of `body`. */
  predicate CanIntend(p: Plan, w: World, body: Body)
  {
    var e := MakeEvent(p, w.state, body);
    && w.state.pending.None?
    && w.bundle.None?
    && w.state.eventLog.count < MAX_EVENT_COUNT
    && RecordOk(p.codec, p.Head(), e, w.state.eventLog.count + 1, w.state.eventLog.sha)
    && |w.log| + |p.codec.enc(e)| <= MAX_EVENT_LOG_BYTES
  }

  function Intend(p: Plan, w: World, s: State, body: Body): World
  {
    w.(state := s.(pending := Some(MakeEvent(p, w.state, body))))
  }

  datatype Act =
    | Begin(suite: string)
    | Resume
    | Start(task: nat, inputs: map<Path, Content>, before: Option<Tree>)
    | Fail(task: nat, ending: Ending)
    | Complete(task: nat, outputs: map<Path, Content>)
    | Recover(task: nat, seen: map<Path, Content>)
    | Finish(operation: string)
    | Append
    | Acknowledge
    | Spawn(task: nat, pid: int, token: string)
    | Identify(task: nat, pid: int, token: string)
    | Move(task: nat, source: Path)
    | MakeLog(key: LogKey)
    | Seal(bundle: Bundle)
    | Environment

  // ---------------------------------------------------------------- guards of the intents

  predicate InputsMatch(p: Plan, w: World, i: nat, inputs: map<Path, Content>)
    requires i < |p.tasks| && i <= |w.state.tasks|
  {
    && inputs.Keys == Elements(p.tasks[i].inputs)
    && forall q :: q in inputs ==>
         ExpectedInput(p, w.state, i, q) == Some(inputs[q]) && q in w.files && w.files[q] == File(inputs[q])
  }

  predicate HasLogs(w: World, i: nat, n: nat)
  {
    LogKey(i, n, false) in w.logs && LogKey(i, n, true) in w.logs
  }

  predicate CanStart(p: Plan, w: World, i: nat, inputs: map<Path, Content>, before: Option<Tree>)
  {
    && FirstIncomplete(w.state, i) && i < |p.tasks|
    && w.state.tasks[i].status == Pending
    && |w.state.tasks[i].attempts| < MAX_ATTEMPTS_PER_TASK
    && InputsMatch(p, w, i, inputs)
    && (forall q :: q in p.tasks[i].outputs ==> q !in w.files)
    && (if p.version == 3
        then before == Some(w.files)
             && VerifyWorkspace(w.files, p.baseline, Sealed(w.state.tasks, |w.state.tasks|), []).Matched?
        else before.None?)
    && HasLogs(w, i, |w.state.tasks[i].attempts| + 1)
  }

  /** The latest attempt of `i` is running under this engine and nothing of it is quarantined. */
  ghost predicate Supervised(p: Plan, w: World, i: nat)
  {
    && FirstIncomplete(w.state, i) && i < |p.tasks|
    && w.state.tasks[i].status == Running
    && w.state.tasks[i].attempts != []
    && NoLeader(w)
    && (forall name :: name in w.quarantine ==> !(name.task == i && name.attempt == |w.state.tasks[i].attempts|))
  }

  ghost predicate CanFail(p: Plan, w: World, i: nat, e: Ending)
  {
    && Supervised(p, w, i)
    && EndingOk(p, Latest(w.state.tasks[i]), e)
    && (p.version == 3 ==> e.after == Some(w.files))
  }

  ghost predicate CanComplete(p: Plan, w: World, i: nat, outputs: map<Path, Content>)
  {
    && Supervised(p, w, i)
    && Latest(w.state.tasks[i]).pid.Some?
    && outputs.Keys == Elements(p.tasks[i].outputs)
    && (forall q :: q in outputs ==> q in w.files && w.files[q] == File(outputs[q]))
    && (p.version == 3 ==>
          VerifyWorkspace(w.files, p.baseline, Sealed(w.state.tasks, |w.state.tasks|) + outputs, []).Matched?)
  }

  /** An unrecovered attempt whose child is gone. */
  ghost predicate Recoverable(p: Plan, w: World, i: nat)
  {
    && FirstIncomplete(w.state, i) && i < |p.tasks|
    && (w.state.tasks[i].status == Running || w.state.tasks[i].status == Failed)
    && w.state.tasks[i].attempts != []
    && !Latest(w.state.tasks[i]).guard
    && NoLeader(w)
    && w.bundle.None?
  }

  ghost predicate CanRecover(p: Plan, w: World, i: nat, seen: map<Path, Content>)
  {
    && Recoverable(p, w, i)
    && (forall q :: q in p.tasks[i].outputs ==> q !in w.files)
    && (p.version == 3 ==>
          && VerifyWorkspace(w.files, p.baseline, Sealed(w.state.tasks, |w.state.tasks|), []).Matched?
          && var moved := Moved(p.tasks[i].outputs, i, |w.state.tasks[i].attempts|, w.quarantine);
             forall q :: q in seen ==> q in moved && seen[q] == moved[q])
  }

  /** The post-attempt observation a recovery leaves: the recorded one, or the tree it saw first. */
  function AfterRecovery(p: Plan, w: World, i: nat, seen: map<Path, Content>): Option<Tree>
    requires i < |w.state.tasks| && w.state.tasks[i].attempts != []
  {
    if p.version != 3 then None
    else if Latest(w.state.tasks[i]).after.Some? then Latest(w.state.tasks[i]).after
    else Some(w.files + AsFiles(seen))
  }

  function Recovery(p: Plan, w: World, i: nat, seen: map<Path, Content>): State
    requires i < |w.state.tasks| && i < |p.tasks| && w.state.tasks[i].attempts != []
  {
    RecoveredWith(p, w.state, i, Quarantined(p.tasks[i].outputs, i, |w.state.tasks[i].attempts|, w.quarantine),
                  AfterRecovery(p, w, i, seen), if p.version == 3 then Some(w.files) else None)
  }

  /** Does this recovery record an observation that misses files already moved? */
  predicate Tears(p: Plan, w: World, i: nat, seen: map<Path, Content>)
    requires i < |w.state.tasks| && i < |p.tasks| && w.state.tasks[i].attempts != []
  {
    p.version == 3 && Latest(w.state.tasks[i]).after.None?
    && seen != Moved(p.tasks[i].outputs, i, |w.state.tasks[i].attempts|, w.quarantine)
  }

  // ---------------------------------------------------------------- the step relation

  ghost predicate Commits(p: Plan, w: World, a: Act, w': World)
  {
    match a
    case Begin(suite) =>
      var b := RunStarted(suite, |p.tasks|);
      CanIntend(p, w, b) && w.state.eventLog.count == 0 && w' == Intend(p, w, w.state, b)
    case Resume =>
      var b := RunResumed(w.state.status);
      && CanIntend(p, w, b) && NoLeader(w)
      && (forall i :: 0 <= i < |w.state.tasks| && w.state.tasks[i].attempts != [] ==> !Latest(w.state.tasks[i]).guard)
      && w' == Intend(p, w, Resumed(w.state), b)
    case Start(i, inputs, before) =>
      && CanStart(p, w, i, inputs, before)
      && var b := TaskStarted(i, |w.state.tasks[i].attempts| + 1);
         CanIntend(p, w, b) && w' == Intend(p, w, Started(p, w.state, i, inputs, before), b)
    case Fail(i, e) =>
      && CanFail(p, w, i, e)
      && var b := TaskFailed(i, |w.state.tasks[i].attempts|, e.returnCode, e.detail);
         CanIntend(p, w, b) && w' == Intend(p, w, FailedBy(p, w.state, i, e), b)
    case Complete(i, outputs) =>
      && CanComplete(p, w, i, outputs)
      && var b := TaskCompleted(i, |w.state.tasks[i].attempts|, |outputs|);
         && CanIntend(p, w, b)
         && w' == Intend(p, w, CompletedWith(p, w.state, i, outputs, if p.version == 3 then Some(w.files) else None), b)
    case Recover(i, seen) =>
      && CanRecover(p, w, i, seen)
      && var t := w.state.tasks[i];
         var s := Recovery(p, w, i, seen);
         var b := TaskRecovered(i, t.status, |t.attempts|,
             |Quarantined(p.tasks[i].outputs, i, |t.attempts|, w.quarantine)|);
         && CanIntend(p, w, b)
         && w' == Intend(p, w, s, b).(torn := if Tears(p, w, i, seen) then w.torn + {(i, |t.attempts|)} else w.torn)
    case Finish(operation) =>
      var b := RunFinished(operation, |p.tasks|);
      CanIntend(p, w, b) && AllCompleted(w.state) && w' == Intend(p, w, Finished(w.state), b)
    case _ => false
  }

  ghost predicate Moves(p: Plan, w: World, a: Act, w': World)
  {
    match a
    case Append =>
      && w.state.pending.Some?
      && |w.log| == w.state.eventLog.size
      && w' == w.(log := w.log + p.codec.enc(w.state.pending.value))
    case Acknowledge =>
      && w.state.pending.Some?
      && |w.log| != w.state.eventLog.size
      && w' == w.(state := w.state.(
           eventLog := Observation(p.codec.sha(w.log), |w.log|, w.state.eventLog.count + 1), pending := None))
    case Spawn(i, pid, token) =>
      && w.state.pending.None?
      && FirstIncomplete(w.state, i)
      && w.state.tasks[i].status == Running && w.state.tasks[i].attempts != [] && Latest(w.state.tasks[i]).guard
      && var owner := (i, |w.state.tasks[i].attempts|);
         owner !in w.launches && pid > 0 && pid !in w.procs
         && w' == w.(procs := w.procs[pid := Proc(token, Some(owner))], launches := w.launches + {owner})
    case Identify(i, pid, token) =>
      && w.state.pending.None?
      && FirstIncomplete(w.state, i)
      && w.state.tasks[i].status == Running && w.state.tasks[i].attempts != [] && Latest(w.state.tasks[i]).guard
      && pid > 0 && 0 < |token| <= MAX_TOKEN
      && (forall x :: x in w.procs && w.procs[x].owner.Some? ==> x == pid && w.procs[x].token == token)
      && w' == w.(state := Identified(p, w.state, i, pid, token))
    case Move(i, q) =>
      && w.state.pending.None?
      && Recoverable(p, w, i)
      && q in p.tasks[i].outputs && q in w.files && w.files[q].File?
      && var name := QName(i, |w.state.tasks[i].attempts|, q);
         name !in w.quarantine
         && w' == w.(files := w.files - {q}, quarantine := w.quarantine[name := w.files[q].id])
    case MakeLog(key) =>
      && w.state.pending.None?
      && FirstIncomplete(w.state, key.task)
      && w.state.tasks[key.task].status == Pending && key.attempt == |w.state.tasks[key.task].attempts| + 1
      && key !in w.logs
      && w' == w.(logs := w.logs[key := []])
    case Seal(b) =>
      && w.state.pending.None? && w.state.status == RunCompleted && w.bundle.None?
      && |w.state.tasks| == |p.tasks|
      && (p.version == 3 ==> VerifyWorkspace(w.files, p.baseline, Sealed(w.state.tasks, |w.state.tasks|), []).Matched?)
      && BundleFor(p, w, b)
      && w' == w.(bundle := Some(b))
    case Environment => EnvironmentStep(w, w')
    case _ => false
  }

  /** Processes start and stop freely, but only the engine launches leaders; the workspace and the
      attempt logs change only while a leader is alive. */
  predicate EnvironmentStep(w: World, w': World)
  {
    && w' == w.(files := w'.files, logs := w'.logs, procs := w'.procs)
    && (forall x :: x in w'.procs && w'.procs[x].owner.Some? ==> x in w.procs && w.procs[x] == w'.procs[x])
    && (NoLeader(w) ==> w'.files == w.files)
    && w'.logs.Keys == w.logs.Keys
    && (forall key :: key in w.logs && w.logs[key] != w'.logs[key] ==>
          exists x :: x in w.procs && w.procs[x].owner == Some((key.task, key.attempt)))
  }

  ghost predicate Does(p: Plan, w: World, a: Act, w': World)
  {
    Commits(p, w, a, w') || Moves(p, w, a, w')
  }

  ghost predicate Next(p: Plan, w: World, w': World)
  {
    exists a :: Does(p, w, a, w')
  }

  /** The world just after a start has written plan.json, an empty log and the initial state. */
  ghost predicate Init(p: Plan, w: World)
  {
    && w.state == State(RunRunning, None, Observe(p.codec, []), None,
                        seq(|p.tasks|, i => TaskState(Pending, [], map[], map[])))
    && w.log == []
    && (forall i, q :: 0 <= i < |p.tasks| && q in p.tasks[i].outputs ==> q !in w.files)
    && w.quarantine == map[] && w.logs == map[] && w.bundle.None?
    && NoLeader(w) && w.launches == {} && w.torn == {}
  }

  /** A run: an initial world followed by atomic steps. */
  ghost predicate Run(p: Plan, ws: seq<World>)
  {
    && ws != [] && Init(p, ws[0])
    && forall k :: 0 <= k < |ws| - 1 ==> Next(p, ws[k], ws[k + 1])
  }
}
