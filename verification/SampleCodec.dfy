/** One lawful codec and one suite: the assumptions of the model can be met, the unexpected runs exist, and no
    record of an end is refused while the log is short. */
module SampleCodec {
  import opened Basics
  import opened Events
  import opened EventLog
  import opened RunState
  import opened WorkspaceTree
  import opened World
  import opened Load
  import opened Readiness
  import opened Decision
  import opened Witnesses
  import opened EngineSteps

  // ---------------------------------------------------------------- numbers

  const STOP: Byte := 11
  const WIDE := 320000000000

  /** Little-endian digits, written with bytes from 20 on. */
  function Digits(n: nat): (r: Content)
    ensures r != [] && forall k :: 0 <= k < |r| ==> 20 <= r[k] < 220
    ensures n < 40000 ==> |r| <= 2
    ensures n < 8000000 ==> |r| <= 3
    ensures n < 1600000000 ==> |r| <= 4
    ensures n < WIDE ==> |r| <= 5
  {
    if n < 200 then [(n + 20) as Byte] else [(n % 200 + 20) as Byte] + Digits(n / 200)
  }

  lemma {:induction false} DigitsInjective(m: nat, n: nat)
    requires Digits(m) == Digits(n)
    ensures m == n
  {
    assert Digits(m)[0] == Digits(n)[0];
    if m >= 200 && n >= 200 {
      assert Digits(m)[1..] == Digits(m / 200) && Digits(n)[1..] == Digits(n / 200);
      DigitsInjective(m / 200, n / 200);
    }
  }

  /** A stop after each number. */
  function Line(ns: seq<nat>): (r: Content)
    ensures forall k :: 0 <= k < |r| ==> r[k] != NEWLINE
    ensures (forall n :: n in ns ==> n < 40000) ==> |r| <= 3 * |ns|
    ensures (forall n :: n in ns ==> n < WIDE) ==> |r| <= 6 * |ns|
    ensures ns != [] ==> r != []
  {
    if ns == [] then []
    else
      assert ns[0] in ns && forall n :: n in ns[1..] ==> n in ns;
      Digits(ns[0]) + ([STOP] + Line(ns[1..]))
  }

  lemma NoEarlyStop(a: Content, b: Content, l: Content)
    requires |a| <= |l| && l[..|a|] == a && (forall k :: 0 <= k < |a| ==> a[k] != STOP) && |b| < |l| && l[|b|] == STOP
    ensures |a| <= |b|
  {
    assert forall k :: 0 <= k < |a| ==> l[k] == l[..|a|][k] != STOP;
  }

  lemma FirstStop(m: nat, n: nat, x: Content, y: Content)
    requires Digits(m) + ([STOP] + x) == Digits(n) + ([STOP] + y)
    ensures m == n && x == y
  {
    hide Digits;
    var a, b := Digits(m), Digits(n);
    var l := a + ([STOP] + x);
    assert l[..|a|] == a && l[..|b|] == b;
    assert l[|a|] == STOP;
    assert l[|b|] == (b + ([STOP] + y))[|b|] == STOP;
    NoEarlyStop(a, b, l);
    NoEarlyStop(b, a, l);
    DigitsInjective(m, n);
    assert l[|a| + 1..] == x && l[|b| + 1..] == y;
  }

  lemma {:induction false} LineInjective(ms: seq<nat>, ns: seq<nat>)
    requires Line(ms) == Line(ns)
    ensures ms == ns
    decreases |ms|
  {
    if ms != [] && ns != [] {
      FirstStop(ms[0], ns[0], Line(ms[1..]), Line(ns[1..]));
      LineInjective(ms[1..], ns[1..]);
      assert ms == [ms[0]] + ms[1..] && ns == [ns[0]] + ns[1..];
    }
  }

  // ---------------------------------------------------------------- events as numbers

  function Zig(i: int): nat { if i >= 0 then 2 * i else -2 * i - 1 }

  function Codes(s: string): seq<nat> { seq(|s|, i requires 0 <= i < |s| => s[i] as int) }

  /** A text with its length in front. */
  function Chars(s: string): seq<nat> { [|s|] + Codes(s) }

  lemma CharsPrefix(s: string, t: string, x: seq<nat>, y: seq<nat>)
    requires Chars(s) + x == Chars(t) + y
    ensures s == t && x == y
  {
    var l, r := Chars(s) + x, Chars(t) + y;
    assert l[0] == |s| && r[0] == |t|;
    forall k | 0 <= k < |s| ensures s[k] == t[k] {
      assert l[k + 1] == Codes(s)[k] && r[k + 1] == Codes(t)[k];
      assert s[k] as int == t[k] as int;
      SameChar(s[k], t[k]);
    }
    assert l[|s| + 1..] == x && r[|t| + 1..] == y;
  }

  lemma SameChar(a: char, b: char)
    requires a as int == b as int
    ensures a == b
  {
    assert (a as int) as char == a && (b as int) as char == b;
  }

  function RunCode(s: RunStatus): nat { match s case RunRunning => 0 case RunFailed => 1 case RunCompleted => 2 }

  function TaskCode(s: TaskStatus): nat
  {
    match s case Pending => 0 case Running => 1 case Failed => 2 case Completed => 3
  }

  function FlatBody(b: Body): seq<nat>
  {
    match b
    case RunStarted(s, n) => [0, n] + Chars(s)
    case RunResumed(r) => [1, RunCode(r)]
    case RunFinished(s, n) => [2, n] + Chars(s)
    case TaskStarted(i, n) => [3, i, n]
    case TaskFailed(i, n, rc, s) => [4, i, n, if rc.None? then 0 else 1 + Zig(rc.value)] + Chars(s)
    case TaskRecovered(i, st, n, q) => [5, i, TaskCode(st), n, q]
    case TaskCompleted(i, n, o) => [6, i, n, o]
  }

  function Flat(e: Event): seq<nat>
  {
    [Zig(e.version)] + (Chars(e.runId) + ([e.sequence] + (Chars(e.prev) + FlatBody(e.body))))
  }

  lemma Head(m: nat, n: nat, x: seq<nat>, y: seq<nat>)
    requires [m] + x == [n] + y
    ensures m == n && x == y
  {
    assert ([m] + x)[0] == m && ([n] + y)[0] == n && ([m] + x)[1..] == x && ([n] + y)[1..] == y;
  }

  lemma BodyInjective(a: Body, b: Body)
    requires FlatBody(a) == FlatBody(b)
    ensures a == b
  {
    hide Chars, Zig;
    var x, y := FlatBody(a), FlatBody(b);
    assert x[0] == y[0] && x[1] == y[1];
    match a
    case RunStarted(s, n) => SameText(s, b.suite, [0, n], [0, b.tasks]);
    case RunFinished(s, n) => SameText(s, b.operation, [2, n], [2, b.tasks]);
    case TaskFailed(i, n, rc, s) =>
      assert x[2] == y[2] && x[3] == y[3];
      SameCode(rc, b.returnCode);
      SameText(s, b.reason, x[..4], y[..4]);
    case TaskStarted(_, _) => assert x[2] == y[2];
    case TaskRecovered(_, _, _, _) => assert x[2] == y[2] && x[3] == y[3] && x[4] == y[4];
    case TaskCompleted(_, _, _) => assert x[2] == y[2] && x[3] == y[3];
    case RunResumed(_) =>
  }

  lemma SameCode(a: Option<int>, b: Option<int>)
    requires (if a.None? then 0 else 1 + Zig(a.value)) == (if b.None? then 0 else 1 + Zig(b.value))
    ensures a == b
  {
  }

  lemma SameText(s: string, t: string, x: seq<nat>, y: seq<nat>)
    requires |x| == |y| && x + Chars(s) == y + Chars(t)
    ensures s == t
  {
    hide Chars;
    var l, r := x + Chars(s), y + Chars(t);
    assert l[|x|..] == Chars(s) && r[|y|..] == Chars(t);
    assert Chars(s) + [] == Chars(s) && Chars(t) + [] == Chars(t);
    CharsPrefix(s, t, [], []);
  }

  lemma FlatInjective(a: Event, b: Event)
    requires Flat(a) == Flat(b)
    ensures a == b
  {
    hide Chars, FlatBody, Zig;
    Head(Zig(a.version), Zig(b.version), Flat(a)[1..], Flat(b)[1..]);
    SameVersion(a.version, b.version);
    var x, y := [a.sequence] + (Chars(a.prev) + FlatBody(a.body)), [b.sequence] + (Chars(b.prev) + FlatBody(b.body));
    assert Flat(a)[1..] == Chars(a.runId) + x && Flat(b)[1..] == Chars(b.runId) + y;
    CharsPrefix(a.runId, b.runId, x, y);
    Head(a.sequence, b.sequence, Chars(a.prev) + FlatBody(a.body), Chars(b.prev) + FlatBody(b.body));
    CharsPrefix(a.prev, b.prev, FlatBody(a.body), FlatBody(b.body));
    BodyInjective(a.body, b.body);
  }

  lemma SameVersion(i: int, j: int)
    requires Zig(i) == Zig(j)
    ensures i == j
  {
  }

  // ---------------------------------------------------------------- the codec

  function Enc(e: Event): Content { Line(Flat(e)) + [NEWLINE] }

  ghost function Parse(l: Content): Option<Event>
  {
    if exists e :: Enc(e) == l then var e :| Enc(e) == l; Some(e) else None
  }

  function Sha(x: Content): Digest { seq(|x|, i requires 0 <= i < |x| => (x[i] as int) as char) }

  ghost function Sample(): Codec { Codec(Enc, Parse, Sha) }

  lemma EncInjective(a: Event, b: Event)
    requires Enc(a) == Enc(b)
    ensures a == b
  {
    hide Flat, Line;
    assert Enc(a)[..|Enc(a)| - 1] == Line(Flat(a)) && Enc(b)[..|Enc(b)| - 1] == Line(Flat(b));
    LineInjective(Flat(a), Flat(b));
    FlatInjective(a, b);
  }

  lemma ShaInjective(x: Content, y: Content)
    requires Sha(x) == Sha(y)
    ensures x == y
  {
    forall k | 0 <= k < |x| ensures x[k] == y[k] {
      assert Sha(x)[k] == Sha(y)[k];
    }
  }

  /** The assumptions on the libraries can be met. */
  lemma SampleIsLawful()
    ensures Lawful(Sample())
  {
    var c := Sample();
    forall e ensures c.parse(c.enc(e)) == Some(e) && IsLine(c.enc(e)) {
      hide Line;
      assert Enc(e) == c.enc(e);
      forall f | Enc(f) == Enc(e) ensures f == e {
        EncInjective(f, e);
      }
      assert Flat(e) != [];
    }
    forall x, y | c.sha(x) == c.sha(y) ensures x == y {
      ShaInjective(x, y);
    }
  }

  // ---------------------------------------------------------------- sizes

  /** A body of a few small numbers. */
  predicate Brief(b: Body) { |FlatBody(b)| <= 15 && forall n :: n in FlatBody(b) ==> n < 40000 }

  /** A bound on the size of the first `n` records. */
  function Bound(n: nat): nat { if n == 0 then 0 else 4 * Bound(n - 1) + 70 }

  ghost function SamplePlan(): Plan
  {
    Plan(3, "r", [TaskSpec("t", [], [[[97]]])], map[], map[], Sample(), t => true)
  }

  lemma SmallCodes(x: Content)
    ensures |Sha(x)| == |x| && forall n :: n in Codes(Sha(x)) ==> n < 40000
  {
    forall n | n in Codes(Sha(x)) ensures n < 40000 {
      var k :| 0 <= k < |x| && Codes(Sha(x))[k] == n;
      assert Sha(x)[k] as int < 256;
    }
  }

  lemma EventSize(log: Content, number: nat, b: Body)
    requires |log| < 40000 && number < 40000 && Brief(b)
    ensures |Enc(Event(3, "r", number, Sha(log), b))| <= 70 + 3 * |log|
  {
    hide FlatBody, Sha, Line, Codes;
    SmallCodes(log);
    var e := Event(3, "r", number, Sha(log), b);
    assert Codes("r") == [114] by { OneCode(); }
    forall n | n in Flat(e) ensures n < 40000 {
      assert n in [Zig(3)] || n in [1] || n in [114] || n in [number] || n in [|log|] || n in Codes(Sha(log)) ||
          n in FlatBody(b);
    }
    assert |Codes(Sha(log))| == |log| by { CodesLength(Sha(log)); }
  }

  lemma OneCode()
    ensures Codes("r") == [114]
  {
  }

  lemma CodesLength(s: string)
    ensures |Codes(s)| == |s|
  {
  }

  lemma {:induction false} StorySize(bodies: seq<Body>)
    requires |bodies| <= 4 && forall b :: b in bodies ==> Brief(b)
    ensures |Bytes(Sample(), Story(SamplePlan(), bodies))| <= Bound(|bodies|)
    ensures |Story(SamplePlan(), bodies)| == |bodies|
    decreases |bodies|
  {
    hide Enc, Brief;
    if bodies != [] {
      var front, b := bodies[..|bodies| - 1], bodies[|bodies| - 1];
      StorySize(front);
      SmallBound(|front|);
      var es := Story(SamplePlan(), front);
      EventSize(Bytes(Sample(), es), |es| + 1, b);
      BytesAppend(Sample(), es, NextEvent(SamplePlan(), es, b));
    }
  }

  lemma SmallBound(n: nat)
    requires n <= 4
    ensures Bound(n) <= 5950
  {
    assert Bound(0) == 0 && Bound(1) == 70 && Bound(2) == 350 && Bound(3) == 1470 && Bound(4) == 5950;
  }

  lemma SampleFits(bodies: seq<Body>)
    requires |bodies| <= 4 && forall b :: b in bodies ==> Brief(b)
    ensures Fits(SamplePlan(), bodies)
  {
    hide Enc, Brief, Bytes, Story;
    forall k | 0 <= k < |bodies|
      ensures |Enc(NextEvent(SamplePlan(), Story(SamplePlan(), bodies[..k]), bodies[k]))| <= MAX_EVENT_BYTES
    {
      var es := Story(SamplePlan(), bodies[..k]);
      StorySize(bodies[..k]);
      SmallBound(k);
      EventSize(Bytes(Sample(), es), |es| + 1, bodies[k]);
    }
  }

  lemma SampleIsOk()
    ensures OneTask(SamplePlan(), [[97]])
  {
    SampleIsLawful();
    hide Lawful;
    assert PlainText("t");
  }

  // ---------------------------------------------------------------- the runs

  lemma BriefBodies()
    ensures Brief(RunStarted(SUITE, 1)) && Brief(TaskStarted(0, 1)) && Brief(RunResumed(RunRunning))
    ensures Brief(TaskRecovered(0, Running, 1, 1)) && Brief(TaskCompleted(0, 1, 1))
  {
    assert |SUITE| == 5;
    assert forall k :: 0 <= k < 5 ==> SUITE[k] as int < 40000;
  }

  /** A run that can no longer be loaded exists. */
  lemma TornRunExists() returns (p: Plan, w: World)
    ensures PlanOk(p) && Reachable(p, w) && !LoadOk(p, w)
  {
    hide Brief, Fits, PlanOk, LoadOk, Reachable;
    p := SamplePlan();
    SampleIsOk();
    BriefBodies();
    SampleFits(TORN);
    w := TornRun(p, [[97]]);
  }

  /** A failed run that loads with no tree at all exists, although no recovery was torn and the tree can be put
      right. */
  lemma SpoiledRunExists() returns (p: Plan, w: World)
    ensures PlanOk(p) && Reachable(p, w) && w.torn == {} && TreeIntact(p, w.(files := p.baseline))
    ensures forall files :: !LoadOk(p, w.(files := files))
  {
    hide Brief, Fits, PlanOk, LoadOk, Reachable, TreeIntact;
    p := SamplePlan();
    SampleIsOk();
    BriefBodies();
    BriefFailure();
    SampleFits(SPOILED);
    w := SpoiledRun(p, [[97]], [[98]]);
  }

  lemma BriefFailure()
    ensures Brief(TaskFailed(0, 1, Some(0), UNDECLARED))
  {
    assert |UNDECLARED| == 10;
    assert forall k :: 0 <= k < 10 ==> UNDECLARED[k] as int < 40000;
  }

  /** A run that loads but whose resume cannot be decided exists. */
  lemma UndecidableRunExists() returns (p: Plan, w: World)
    ensures PlanOk(p) && Reachable(p, w) && LoadOk(p, w) && !CanDecide(p, w)
  {
    hide Brief, Fits, PlanOk, LoadOk, Reachable, CanDecide;
    p := SamplePlan();
    SampleIsOk();
    BriefBodies();
    SampleFits(UNFINISHED);
    w := UndecidableRun(p, [[97]]);
  }

  // ---------------------------------------------------------------- records that are never refused

  lemma FailureSize(log: Content, number: nat, n: nat, code: Option<int>, reason: string)
    requires |log| <= 30000 && number <= MAX_EVENT_COUNT && n < WIDE && |reason| <= MAX_TEXT
    requires code.Some? ==> -0x1_0000_0000 < code.value < 0x1_0000_0000
    ensures |Enc(Event(3, "r", number, Sha(log), TaskFailed(0, n, code, reason)))| <= MAX_EVENT_BYTES
  {
    hide Sha, Line, Codes;
    SmallCodes(log);
    CodesLength(Sha(log));
    CodesLength(reason);
    WideCodes(reason);
    OneCode();
    var e := Event(3, "r", number, Sha(log), TaskFailed(0, n, code, reason));
    var c := if code.None? then 0 else 1 + Zig(code.value);
    forall m | m in Flat(e) ensures m < WIDE {
      assert m in [Zig(3)] || m in [1] || m in [114] || m in [number] || m in [|log|] || m in Codes(Sha(log)) ||
          m in [4, 0, n, c] || m in [|reason|] || m in Codes(reason);
    }
  }

  lemma WideCodes(s: string)
    ensures forall n :: n in Codes(s) ==> n < WIDE
  {
  }

  /** In the sample suite, with nothing pending and a short log, no end of an attempt is ever refused: a session
      that stopped at one would contradict its contract. */
  lemma EndsAreRecordable(
    w: World, inputs: map<Path, Content>, clean: bool, code: Option<int>, why: Halt)
    requires w.state.pending.None? && w.bundle.None? && |w.log| <= 30000
    requires w.state.eventLog.sha == Sha(w.log) && w.state.eventLog.count < 1000
    requires |w.state.tasks| == 1 && |w.state.tasks[0].attempts| <= 4
    requires code.Some? ==> -0x1_0000_0000 < code.value < 0x1_0000_0000
    ensures !CannotEnd(SamplePlan(), w, 0, inputs, clean, code, why)
  {
    hide Enc, Sha, Delivers, FlatBody;
    if why.CannotRecord? && EndRecord(SamplePlan(), w, 0, inputs, clean, code, why.body) {
      var n := |w.state.tasks[0].attempts|;
      SamplePresent(w.files);
      if why.body.TaskFailed? {
        FailureSize(w.log, w.state.eventLog.count + 1, n, code, why.body.reason);
      } else {
        BriefCompletion(n, |Present(w.files, [[[97]]])|);
        EventSize(w.log, w.state.eventLog.count + 1, why.body);
      }
      assert CanIntend(SamplePlan(), w, why.body);
    }
  }

  lemma SamplePresent(files: Tree)
    ensures |Present(files, [[[97]]])| <= 1
  {
    var q: Path := [[97]];
    var m := Present(files, [q]);
    if m != map[] {
      assert m.Keys == {q};
      assert |m| == |m.Keys| == 1;
    }
  }

  lemma BriefCompletion(n: nat, outputs: nat)
    requires n <= 4 && outputs <= 1
    ensures Brief(TaskCompleted(0, n, outputs))
  {
  }
}
