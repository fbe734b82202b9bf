/** Runs that end in the three states a reader would not expect: two runs that can no longer be loaded, and a run
    that loads but whose resume cannot be decided. */
module Witnesses {
  import opened Basics
  import opened Events
  import opened EventLog
  import opened WorkspaceTree
  import opened RunState
  import opened Lifecycle
  import opened World
  import opened Invariants
  import opened Runs
  import opened Load
  import opened QuarantineRecovery
  import opened Readiness
  import opened Decision

  // ---------------------------------------------------------------- reachable worlds

  ghost predicate Reachable(p: Plan, w: World)
  {
    exists ws :: Run(p, ws) && ws[|ws| - 1] == w
  }

  lemma ReachNext(p: Plan, w: World, a: Act, w': World)
    requires Reachable(p, w) && Does(p, w, a, w')
    ensures Reachable(p, w')
  {
    hide Init, Does;
    var ws :| Run(p, ws) && ws[|ws| - 1] == w;
    var longer := ws + [w'];
    forall k | 0 <= k < |longer| - 1 ensures Next(p, longer[k], longer[k + 1]) {
      assert k + 1 < |ws| ==> Next(p, ws[k], ws[k + 1]);
    }
    assert Run(p, longer) && longer[|longer| - 1] == w';
  }

  lemma ReachInv(p: Plan, w: World)
    requires PlanOk(p) && Reachable(p, w)
    ensures Inv(p, w)
  {
    hide PlanOk, Inv, Init, Does;
    var ws :| Run(p, ws) && ws[|ws| - 1] == w;
    RunInv(p, ws, |ws| - 1);
  }

  // ---------------------------------------------------------------- committing one record

  /** The record that follows the records `es`. */
  function NextEvent(p: Plan, es: seq<Event>, b: Body): Event
  {
    Event(p.version, p.runId, |es| + 1, p.codec.sha(Bytes(p.codec, es)), b)
  }

  /** The records of a run that commits `bodies` in turn. */
  function Story(p: Plan, bodies: seq<Body>): seq<Event>
  {
    if bodies == [] then []
    else
      var es := Story(p, bodies[..|bodies| - 1]);
      es + [NextEvent(p, es, bodies[|bodies| - 1])]
  }

  /** Each record is within the size limit. */
  ghost predicate Fits(p: Plan, bodies: seq<Body>)
  {
    forall k :: 0 <= k < |bodies| ==> |p.codec.enc(NextEvent(p, Story(p, bodies[..k]), bodies[k]))| <= MAX_EVENT_BYTES
  }

  /** A reachable world with nothing pending whose log holds the records of `bodies`. */
  ghost predicate Rests(p: Plan, w: World, bodies: seq<Body>)
  {
    && Reachable(p, w)
    && w.log == Bytes(p.codec, Story(p, bodies)) && |w.log| <= |bodies| * MAX_EVENT_BYTES
    && w.state.eventLog == Observe(p.codec, Story(p, bodies)) && |Story(p, bodies)| == |bodies|
    && w.state.pending.None? && w.bundle.None?
  }

  predicate Short(bodies: seq<Body>) { |bodies| <= 8 }

  lemma StoryGrows(p: Plan, bodies: seq<Body>, b: Body)
    ensures Story(p, bodies + [b]) == Story(p, bodies) + [NextEvent(p, Story(p, bodies), b)]
  {
    assert (bodies + [b])[..|bodies|] == bodies;
  }

  /** A short log always has room for one more record that fits. */
  lemma HasRoom(p: Plan, w: World, bodies: seq<Body>, b: Body)
    requires Rests(p, w, bodies) && Short(bodies) && BodyOk(p.Head(), b) && Fits(p, bodies + [b])
    ensures CanIntend(p, w, b) && MakeEvent(p, w.state, b) == NextEvent(p, Story(p, bodies), b)
  {
    hide Reachable, Story, BodyOk;
    assert (bodies + [b])[..|bodies|] == bodies;
    assert (bodies + [b])[|bodies|] == b;
  }

  /** The world after the intent `b` with the new state `s` is durable, logged and acknowledged. */
  function Committed(p: Plan, w: World, s: State, bodies: seq<Body>, b: Body): World
  {
    var es := Story(p, bodies + [b]);
    w.(state := s.(eventLog := Observe(p.codec, es), pending := None), log := Bytes(p.codec, es))
  }

  lemma Commit(p: Plan, w: World, a: Act, s: State, bodies: seq<Body>, b: Body)
    requires Lawful(p.codec) && Rests(p, w, bodies) && Short(bodies) && BodyOk(p.Head(), b) && Fits(p, bodies + [b])
    requires s.eventLog == w.state.eventLog && Does(p, w, a, Intend(p, w, s, b))
    ensures Rests(p, Committed(p, w, s, bodies, b), bodies + [b])
  {
    hide Reachable, Story, Does;
    var es := Story(p, bodies);
    HasRoom(p, w, bodies, b);
    StoryGrows(p, bodies, b);
    var e := NextEvent(p, es, b);
    BytesAppend(p.codec, es, e);
    var w1 := Intend(p, w, s, b);
    ReachNext(p, w, a, w1);
    var w2 := w1.(log := w1.log + p.codec.enc(e));
    AppendDoes(p, w1);
    ReachNext(p, w1, Append, w2);
    assert IsLine(p.codec.enc(e));
    AcknowledgeDoes(p, w2);
    ReachNext(p, w2, Acknowledge, Committed(p, w, s, bodies, b));
  }

  lemma AppendDoes(p: Plan, w: World)
    requires w.state.pending.Some? && |w.log| == w.state.eventLog.size
    ensures Does(p, w, Append, w.(log := w.log + p.codec.enc(w.state.pending.value)))
  {
  }

  lemma AcknowledgeDoes(p: Plan, w: World)
    requires w.state.pending.Some? && |w.log| != w.state.eventLog.size
    ensures Does(p, w, Acknowledge, w.(state := w.state.(
      eventLog := Observation(p.codec.sha(w.log), |w.log|, w.state.eventLog.count + 1), pending := None)))
  {
  }

  // ---------------------------------------------------------------- one task that writes its output

  /** A version 3 suite of one task with no input and the one output `q`. */
  ghost predicate OneTask(p: Plan, q: Path)
  {
    PlanOk(p) && p.version == 3 && |p.tasks| == 1 && p.tasks[0].inputs == [] && p.tasks[0].outputs == [q]
  }

  const SUITE := "suite"
  const TOKEN := "token"
  const BEGUN := [RunStarted(SUITE, 1)]
  const LAUNCHED := [RunStarted(SUITE, 1)] + [TaskStarted(0, 1)]

  function Fresh(p: Plan): World
  {
    World(State(RunRunning, None, Observe(p.codec, []), None, [TaskState(Pending, [], map[], map[])]),
          [], p.baseline, map[], map[], None, map[], {}, {})
  }

  function Logged(): map<LogKey, Content>
  {
    map[LogKey(0, 1, false) := []][LogKey(0, 1, true) := []]
  }

  lemma FreshRests(p: Plan, q: Path)
    requires OneTask(p, q)
    ensures Rests(p, Fresh(p), [])
  {
    var w := Fresh(p);
    assert w.state.tasks == seq(|p.tasks|, i => TaskState(Pending, [], map[], map[]));
    assert q !in p.baseline;
    assert Run(p, [w]) && [w][|[w]| - 1] == w;
  }

  /** The run is started and the logs of the first attempt are open. */
  lemma Begun(p: Plan, q: Path) returns (w: World)
    requires OneTask(p, q) && Fits(p, BEGUN)
    ensures Rests(p, w, BEGUN)
    ensures w == Fresh(p).(state := Fresh(p).state.(eventLog := w.state.eventLog), log := w.log, logs := Logged())
  {
    var w0 := Fresh(p);
    FreshRests(p, q);
    var b := RunStarted(SUITE, 1);
    assert [] + [b] == BEGUN;
    HasRoom(p, w0, [], b);
    assert Does(p, w0, Begin(SUITE), Intend(p, w0, w0.state, b));
    Commit(p, w0, Begin(SUITE), w0.state, [], b);
    var w1 := Committed(p, w0, w0.state, [], b);
    hide Rests, Story, Committed;
    w := OpenLogs(p, w1, BEGUN);
  }

  lemma OpenLogs(p: Plan, w: World, bodies: seq<Body>) returns (w': World)
    requires Rests(p, w, bodies) && w.logs == map[] && w.state.tasks == [TaskState(Pending, [], map[], map[])]
    ensures w' == w.(logs := Logged()) && Rests(p, w', bodies)
  {
    hide Reachable, Story;
    var w1 := w.(logs := map[LogKey(0, 1, false) := []]);
    assert map[][LogKey(0, 1, false) := []] == w1.logs;
    assert Does(p, w, MakeLog(LogKey(0, 1, false)), w1);
    ReachNext(p, w, MakeLog(LogKey(0, 1, false)), w1);
    w' := w.(logs := Logged());
    assert Does(p, w1, MakeLog(LogKey(0, 1, true)), w');
    ReachNext(p, w1, MakeLog(LogKey(0, 1, true)), w');
  }

  /** The first attempt, before and after its child is identified. */
  function Launch(p: Plan): Attempt { Launching(3, 1, map[], Some(p.baseline)) }

  function Identity(p: Plan): Attempt
  {
    Launch(p).(pid := Some(1), token := Some(TOKEN), guard := false, scope := Some(Scope(Some(1), false, Active)))
  }

  /** A world of the first attempt. */
  ghost predicate Attempting(p: Plan, w: World, a: Attempt)
  {
    && Rests(p, w, LAUNCHED)
    && w.state.status == RunRunning && w.state.lastError.None?
    && w.state.tasks == [TaskState(Running, [a], map[], map[])]
    && w.quarantine == map[] && w.torn == {}
  }

  lemma Launched(p: Plan, q: Path) returns (w: World)
    requires OneTask(p, q) && Fits(p, LAUNCHED)
    ensures Attempting(p, w, Launch(p)) && w.files == p.baseline && w.procs == map[] && w.launches == {}
  {
    hide PlanOk, Does, Rests, Fits, Bytes;
    FitsFirst(p);
    var w0 := Begun(p, q);
    var b := TaskStarted(0, 1);
    assert BEGUN + [b] == LAUNCHED;
    StartDoes(p, q, w0);
    var s := Started(p, w0.state, 0, map[], Some(p.baseline));
    PlanIsLawful(p);
    Commit(p, w0, Start(0, map[], Some(p.baseline)), s, BEGUN, b);
    w := Committed(p, w0, s, BEGUN, b);
    assert w0.state.tasks[0].attempts + [Launch(p)] == [Launch(p)];
    assert w.state.tasks == [w.state.tasks[0]];
  }

  lemma FitsFirst(p: Plan)
    requires Fits(p, LAUNCHED)
    ensures Fits(p, BEGUN)
  {
    hide Story;
    assert LAUNCHED[..0] == BEGUN[..0] == [];
    assert LAUNCHED[0] == BEGUN[0];
  }

  lemma StartDoes(p: Plan, q: Path, w: World)
    requires OneTask(p, q) && Rests(p, w, BEGUN) && Fits(p, LAUNCHED) && w.logs == Logged() && w.files == p.baseline
    requires w.state.tasks == [TaskState(Pending, [], map[], map[])]
    ensures Does(p, w, Start(0, map[], Some(p.baseline)),
        Intend(p, w, Started(p, w.state, 0, map[], Some(p.baseline)), TaskStarted(0, 1)))
  {
    hide PlanOk, Rests, Fits, CanIntend, CanStart, Started;
    assert BEGUN + [TaskStarted(0, 1)] == LAUNCHED;
    HasRoom(p, w, BEGUN, TaskStarted(0, 1));
    MayStart(p, q, w);
  }

  lemma NothingSealed(tasks: seq<TaskState>)
    requires |tasks| == 1 && tasks[0].status != Completed
    ensures Sealed(tasks, 1) == map[]
  {
    assert Sealed(tasks, 0) == map[];
  }

  lemma OutputIsNew(p: Plan, q: Path)
    requires OneTask(p, q)
    ensures q !in p.baseline && q !in p.seeds
  {
  }

  lemma MayStart(p: Plan, q: Path, w: World)
    requires OneTask(p, q) && w.logs == Logged() && w.files == p.baseline
    requires w.state.tasks == [TaskState(Pending, [], map[], map[])]
    ensures CanStart(p, w, 0, map[], Some(p.baseline))
  {
    hide PlanOk, VerifyWorkspace, Sealed;
    NothingSealed(w.state.tasks);
    OutputIsNew(p, q);
    CleanMatches(p, w.files);
    assert Elements(p.tasks[0].inputs) == {};
  }

  lemma CleanMatches(p: Plan, files: Tree)
    requires files == p.baseline
    ensures VerifyWorkspace(files, p.baseline, map[], []).Matched?
  {
    assert p.baseline + AsFiles(map[]) == p.baseline;
  }

  /** The child was launched and identified, left `files`, and died before the engine did anything more. */
  lemma LeftBehind(p: Plan, q: Path, files: Tree) returns (w: World)
    requires OneTask(p, q) && Fits(p, LAUNCHED)
    ensures Attempting(p, w, Identity(p)) && w.files == files && w.procs == map[]
  {
    hide PlanOk, Does, Reachable, Fits, Bytes, Story, Launch;
    var w0 := Launched(p, q);
    var w1 := w0.(procs := map[1 := Proc(TOKEN, Some((0, 1)))], launches := {(0, 1)});
    assert map[][1 := Proc(TOKEN, Some((0, 1)))] == w1.procs && {} + {(0, 1)} == w1.launches;
    SpawnDoes(p, w0, w1);
    ReachNext(p, w0, Spawn(0, 1, TOKEN), w1);
    var w2 := w1.(state := Identified(p, w1.state, 0, 1, TOKEN));
    IdentifyDoes(p, w1);
    ReachNext(p, w1, Identify(0, 1, TOKEN), w2);
    IdentifiedIs(p, w1.state);
    w := w2.(files := files, procs := map[]);
    ChildDoes(p, w2, w);
    ReachNext(p, w2, Environment, w);
  }

  lemma IdentifiedIs(p: Plan, s: State)
    requires p.version == 3 && s.tasks == [TaskState(Running, [Launch(p)], map[], map[])]
    ensures Identified(p, s, 0, 1, TOKEN) == s.(tasks := [TaskState(Running, [Identity(p)], map[], map[])])
  {
    var t := WithLatest(s.tasks[0], Identity(p));
    assert t.attempts == [Identity(p)];
    assert s.tasks[0 := t] == [t];
  }

  lemma SpawnDoes(p: Plan, w: World, w': World)
    requires Attempting(p, w, Launch(p)) && w.procs == map[] && w.launches == {}
    requires w' == w.(procs := map[][1 := Proc(TOKEN, Some((0, 1)))], launches := {} + {(0, 1)})
    ensures Does(p, w, Spawn(0, 1, TOKEN), w')
  {
    hide Rests;
    assert w.state.pending.None? by { RestsQuietly(p, w, LAUNCHED); }
  }

  lemma RestsQuietly(p: Plan, w: World, bodies: seq<Body>)
    requires Rests(p, w, bodies)
    ensures w.state.pending.None? && w.bundle.None? && Reachable(p, w)
  {
    hide Reachable;
  }

  lemma IdentifyDoes(p: Plan, w: World)
    requires w.state.pending.None? && w.state.tasks == [TaskState(Running, [Launch(p)], map[], map[])]
    requires w.procs == map[1 := Proc(TOKEN, Some((0, 1)))]
    ensures Does(p, w, Identify(0, 1, TOKEN), w.(state := Identified(p, w.state, 0, 1, TOKEN)))
  {
    assert |TOKEN| == 5;
  }

  lemma ChildDoes(p: Plan, w: World, w': World)
    requires w.procs == map[1 := Proc(TOKEN, Some((0, 1)))] && w' == w.(files := w'.files, procs := map[])
    ensures Does(p, w, Environment, w')
  {
    assert 1 in w.procs && w.procs[1].owner.Some?;
  }

  // ---------------------------------------------------------------- a run that can no longer be loaded

  const TORN := [RunStarted(SUITE, 1)] + [TaskStarted(0, 1)] + [RunResumed(RunRunning)] +
      [TaskRecovered(0, Running, 1, 1)]

  /** A crash between moving the output to quarantine and recording the recovery, and a fresh session that
      finishes the recovery, lead from the start of a run to a world that never loads. */
  lemma TornRun(p: Plan, q: Path) returns (w: World)
    requires OneTask(p, q) && Fits(p, TORN)
    ensures Reachable(p, w) && w.torn != {} && !LoadOk(p, w)
  {
    hide PlanOk, Inv, AboutToTear, LoadOk, Does, Attempting, Next, Reachable, Fits, RecoveryObservable, Identity;
    FitsTorn(p);
    var w0 := LeftBehind(p, q, p.baseline[q := File([])]);
    AboutTo(p, q, w0);
    AttemptingReached(p, w0);
    ReachInv(p, w0);
    var ws := TornWitness(p, w0, 0, 1, q);
    w := ws[5];
    ReachMany(p, ws, 5);
  }

  lemma AttemptingReached(p: Plan, w: World)
    requires Attempting(p, w, Identity(p))
    ensures Reachable(p, w) && w.state.tasks == [TaskState(Running, [Identity(p)], map[], map[])]
  {
    hide Reachable;
  }

  lemma {:induction false} ReachMany(p: Plan, ws: seq<World>, k: nat)
    requires k < |ws| && Reachable(p, ws[0]) && forall j :: 0 <= j < |ws| - 1 ==> Next(p, ws[j], ws[j + 1])
    ensures Reachable(p, ws[k])
  {
    hide Reachable, Does;
    if k > 0 {
      ReachMany(p, ws, k - 1);
      assert Next(p, ws[k - 1], ws[k - 1 + 1]);
      var a :| Does(p, ws[k - 1], a, ws[k]);
      ReachNext(p, ws[k - 1], a, ws[k]);
    }
  }

  lemma FitsTorn(p: Plan)
    requires Fits(p, TORN)
    ensures Fits(p, LAUNCHED) && Fits(p, LAUNCHED + [RunResumed(RunRunning)])
    ensures LAUNCHED + [RunResumed(RunRunning)] + [TaskRecovered(0, Running, 1, 1)] == TORN
  {
    hide Story;
    FitsPrefix(p, TORN, 2);
    FitsPrefix(p, TORN, 3);
    assert TORN[..2] == LAUNCHED && TORN[..3] == LAUNCHED + [RunResumed(RunRunning)];
  }

  lemma FitsPrefix(p: Plan, bodies: seq<Body>, n: nat)
    requires Fits(p, bodies) && n <= |bodies|
    ensures Fits(p, bodies[..n])
  {
    hide Story;
    forall k | 0 <= k < n
        ensures |p.codec.enc(NextEvent(p, Story(p, bodies[..n][..k]), bodies[..n][k]))| <= MAX_EVENT_BYTES {
      assert bodies[..n][..k] == bodies[..k];
    }
  }

  lemma AboutTo(p: Plan, q: Path, w: World)
    requires OneTask(p, q) && Fits(p, TORN) && Attempting(p, w, Identity(p))
    requires w.files == p.baseline[q := File([])] && w.procs == map[]
    ensures AboutToTear(p, w, 0, 1, q)
  {
    hide PlanOk, Rests, CanIntend, VerifyWorkspace, Sealed, AfterResume, AfterMove, Fits;
    FitsTorn(p);
    HasRoom(p, w, LAUNCHED, RunResumed(RunRunning));
    RoomToRecover(p, q, w);
    RestsQuietly(p, w, LAUNCHED);
    NothingSealed(w.state.tasks);
    OutputIsNew(p, q);
    assert w.files - {q} == p.baseline;
    CleanMatches(p, w.files - {q});
    assert InRecovery(p, w, 0, 1);
  }

  lemma RoomToRecover(p: Plan, q: Path, w: World)
    requires OneTask(p, q) && Fits(p, TORN) && Attempting(p, w, Identity(p)) && q in w.files && w.files[q].File?
    ensures CanIntend(p, AfterResume(p, AfterMove(w, 0, q)), TaskRecovered(0, Running, 1, 1))
  {
    hide PlanOk, Reachable, Story, Bytes, Fits, CanIntend;
    var b, c := RunResumed(RunRunning), TaskRecovered(0, Running, 1, 1);
    FitsTorn(p);
    HasRoom(p, w, LAUNCHED, b);
    FitsSize(p, LAUNCHED, b);
    StoryGrows(p, LAUNCHED, b);
    BytesAppend(p.codec, Story(p, LAUNCHED), NextEvent(p, Story(p, LAUNCHED), b));
    assert |LAUNCHED| == 2;
    HasRoomAgain(p, AfterResume(p, AfterMove(w, 0, q)), LAUNCHED + [b], c);
  }

  lemma FitsSize(p: Plan, bodies: seq<Body>, b: Body)
    requires Fits(p, bodies + [b])
    ensures |p.codec.enc(NextEvent(p, Story(p, bodies), b))| <= MAX_EVENT_BYTES
  {
    hide Story;
    assert (bodies + [b])[..|bodies|] == bodies && (bodies + [b])[|bodies|] == b;
  }

  lemma HasRoomAgain(p: Plan, w: World, bodies: seq<Body>, b: Body)
    requires w.log == Bytes(p.codec, Story(p, bodies)) && |w.log| <= |bodies| * MAX_EVENT_BYTES
    requires w.state.eventLog == Observe(p.codec, Story(p, bodies)) && |Story(p, bodies)| == |bodies|
    requires w.state.pending.None? && w.bundle.None?
    requires Short(bodies) && BodyOk(p.Head(), b) && Fits(p, bodies + [b])
    ensures CanIntend(p, w, b)
  {
    hide Story, BodyOk;
    assert (bodies + [b])[..|bodies|] == bodies;
    assert (bodies + [b])[|bodies|] == b;
  }

  // ---------------------------------------------------------------- a failed run that can no longer be loaded

  const UNDECLARED := "undeclared"
  const SPOILED := [RunStarted(SUITE, 1)] + [TaskStarted(0, 1)] + [TaskFailed(0, 1, Some(0), UNDECLARED)]

  function Stray(files: Tree): Ending
  {
    Ending(AFailed, Some(1), Some(TOKEN), Some(0), NaturalEmpty, Some(files), UNDECLARED)
  }

  /** A child that leaves a file the suite does not declare and exits: the engine records the failed attempt with
      the tree as it is, and from then on no tree loads, not even the baseline, which is intact. */
  lemma SpoiledRun(p: Plan, q: Path, x: Path) returns (w: World)
    requires OneTask(p, q) && Fits(p, SPOILED) && x !in p.baseline && x != q
    ensures Reachable(p, w) && w.torn == {} && w.files == p.baseline[x := File([])]
    ensures forall files :: !LoadOk(p, w.(files := files))
    ensures p.scannable(p.baseline) ==> TreeIntact(p, w.(files := p.baseline))
  {
    hide PlanOk, Does, Fits, LoadOk, TreeIntact, Rests, Inv, Bytes, CanIntend;
    FitsPrefix(p, SPOILED, 2);
    var b := TaskFailed(0, 1, Some(0), UNDECLARED);
    assert SPOILED[..2] == LAUNCHED && LAUNCHED + [b] == SPOILED;
    var w0 := LeftBehind(p, q, p.baseline[x := File([])]);
    var s := FailedBy(p, w0.state, 0, Stray(w0.files));
    FailDoes(p, q, w0);
    PlanIsLawful(p);
    StrayText(p);
    Commit(p, w0, Fail(0, Stray(w0.files)), s, LAUNCHED, b);
    w := Committed(p, w0, s, LAUNCHED, b);
    RestsQuietly(p, w, LAUNCHED + [b]);
    ReachInv(p, w);
    StrayDrifts(p, q, x, w);
    SpoiledLoadsNothing(p, w, 0);
  }

  lemma StrayText(p: Plan)
    requires |p.tasks| == 1
    ensures BodyOk(p.Head(), TaskFailed(0, 1, Some(0), UNDECLARED)) && Text(UNDECLARED)
  {
    assert |UNDECLARED| == 10;
  }

  lemma FailDoes(p: Plan, q: Path, w: World)
    requires OneTask(p, q) && Fits(p, SPOILED) && Attempting(p, w, Identity(p)) && w.procs == map[]
    ensures Does(p, w, Fail(0, Stray(w.files)),
        Intend(p, w, FailedBy(p, w.state, 0, Stray(w.files)), TaskFailed(0, 1, Some(0), UNDECLARED)))
  {
    hide PlanOk, Rests, Fits, CanIntend, CanFail, FailedBy;
    assert LAUNCHED + [TaskFailed(0, 1, Some(0), UNDECLARED)] == SPOILED;
    StrayText(p);
    HasRoom(p, w, LAUNCHED, TaskFailed(0, 1, Some(0), UNDECLARED));
    MayFail(p, q, w);
  }

  lemma MayFail(p: Plan, q: Path, w: World)
    requires OneTask(p, q) && Attempting(p, w, Identity(p)) && w.procs == map[]
    ensures CanFail(p, w, 0, Stray(w.files))
  {
    hide PlanOk, Rests;
    StrayText(p);
    assert |TOKEN| == 5;
  }

  lemma StrayDrifts(p: Plan, q: Path, x: Path, w: World)
    requires OneTask(p, q) && x !in p.baseline && x != q && w.files == p.baseline[x := File([])]
    requires |w.state.tasks| == 1 && w.state.tasks[0].status == Failed && w.state.tasks[0].attempts != []
    ensures Spoiled(p, w, 0)
    ensures p.scannable(p.baseline) ==> TreeIntact(p, w.(files := p.baseline))
  {
    OutputIsNew(p, q);
    NothingSealed(w.state.tasks);
    CleanMatches(p, p.baseline);
    hide PlanOk, VerifyWorkspace, Sealed;
    assert x in w.files;
    if VerifyWorkspace(w.files, p.baseline, map[], [q]).Matched? {
      MatchedMeans(w.files, p.baseline, map[], [q]);
    }
    MoreVolatile(p.baseline, p.baseline, map[], [q]);
    assert FirstIncomplete(w.state, 0);
    assert Prefix(w.state.tasks) == 0;
  }

  // ---------------------------------------------------------------- a run that loads but cannot be decided

  const NONE: map<Path, Content> := map[]

  function Written(q: Path): map<Path, Content> { map[q := []] }

  const UNFINISHED := [RunStarted(SUITE, 1)] + [TaskStarted(0, 1)] + [TaskCompleted(0, 1, 1)]

  /** A crash between the record of the last completion and the record of the completed run: the run loads,
      and no decision can be built for it. */
  lemma UndecidableRun(p: Plan, q: Path) returns (w: World)
    requires OneTask(p, q) && Fits(p, UNFINISHED) && p.scannable(p.baseline[q := File([])])
    requires forall x :: x in p.seeds ==> x in p.baseline && p.baseline[x] == File(p.seeds[x])
    ensures Reachable(p, w) && AllCompleted(w.state) && w.state.status != RunCompleted && w.state.pending.None?
    ensures LoadOk(p, w) && !CanDecide(p, w)
  {
    hide PlanOk, Does, Fits, LoadOk, CanDecide, TreeIntact, Rests, SeedsMatch, Inv, Bytes, CanIntend;
    FitsPrefix(p, UNFINISHED, 2);
    assert UNFINISHED[..2] == LAUNCHED && LAUNCHED + [TaskCompleted(0, 1, 1)] == UNFINISHED;
    var w0 := LeftBehind(p, q, p.baseline[q := File([])]);
    var b := TaskCompleted(0, 1, 1);
    var s := CompletedWith(p, w0.state, 0, Written(q), Some(w0.files));
    CompleteDoes(p, q, w0);
    PlanIsLawful(p);
    Commit(p, w0, Complete(0, Written(q)), s, LAUNCHED, b);
    w := Committed(p, w0, s, LAUNCHED, b);
    RestsQuietly(p, w, LAUNCHED + [b]);
    ReachInv(p, w);
    TreeAfter(p, q, w);
    DecisionWindow(p, w);
  }

  lemma CompleteDoes(p: Plan, q: Path, w: World)
    requires OneTask(p, q) && Fits(p, UNFINISHED) && Attempting(p, w, Identity(p))
    requires w.files == p.baseline[q := File([])] && w.procs == map[]
    ensures Does(p, w, Complete(0, Written(q)),
        Intend(p, w, CompletedWith(p, w.state, 0, Written(q), Some(w.files)), TaskCompleted(0, 1, 1)))
  {
    hide PlanOk, Rests, Fits, CanIntend, CanComplete, CompletedWith;
    assert LAUNCHED + [TaskCompleted(0, 1, 1)] == UNFINISHED;
    HasRoom(p, w, LAUNCHED, TaskCompleted(0, 1, 1));
    MayComplete(p, q, w);
    assert |Written(q)| == 1;
  }

  lemma MayComplete(p: Plan, q: Path, w: World)
    requires OneTask(p, q) && Attempting(p, w, Identity(p)) && w.files == p.baseline[q := File([])] && w.procs == map[]
    ensures CanComplete(p, w, 0, Written(q))
  {
    hide PlanOk, VerifyWorkspace, Sealed, Rests;
    NothingSealed(w.state.tasks);
    assert NONE + Written(q) == Written(q);
    WrittenMatches(p, q);
    assert Elements([q]) == {q} && Written(q).Keys == {q};
  }

  lemma WrittenMatches(p: Plan, q: Path)
    requires OneTask(p, q)
    ensures VerifyWorkspace(p.baseline[q := File([])], p.baseline, Written(q), []).Matched?
  {
    OutputIsNew(p, q);
    hide PlanOk;
    assert p.baseline + AsFiles(Written(q)) == p.baseline[q := File([])];
  }

  lemma TreeAfter(p: Plan, q: Path, w: World)
    requires OneTask(p, q) && p.scannable(p.baseline[q := File([])])
    requires w.files == p.baseline[q := File([])] && w.torn == {}
    requires forall x :: x in p.seeds ==> x in p.baseline && p.baseline[x] == File(p.seeds[x])
    requires |w.state.tasks| == 1 && w.state.tasks[0].status == Completed && w.state.tasks[0].outputs == Written(q)
    ensures TreeIntact(p, w) && SeedsMatch(p, w)
  {
    OutputIsNew(p, q);
    assert Sealed(w.state.tasks, 1) == Written(q) by {
      assert Sealed(w.state.tasks, 0) == map[];
      assert NONE + Written(q) == Written(q);
    }
    PrefixIsFirst(w.state, 1);
    WrittenMatches(p, q);
    hide VerifyWorkspace;
  }
}
