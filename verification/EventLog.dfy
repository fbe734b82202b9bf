/** The records of events.jsonl and the life-cycle statuses they mention. */
module Events {
  import opened Basics

  const MAX_EVENT_LOG_BYTES := 67108864
  const MAX_EVENT_BYTES := 262144
  const MAX_EVENT_COUNT := 100000
  const MAX_TEXT := 8192

  datatype RunStatus = RunRunning | RunFailed | RunCompleted
  datatype TaskStatus = Pending | Running | Failed | Completed

  datatype Body =
    | RunStarted(suite: string, tasks: nat)
    | RunResumed(previousRun: RunStatus)
    | RunFinished(operation: string, tasks: nat)
    | TaskStarted(task: nat, attempt: nat)
    | TaskFailed(task: nat, attempt: nat, returnCode: Option<int>, reason: string)
    | TaskRecovered(task: nat, previousTask: TaskStatus, attempt: nat, quarantined: nat)
    | TaskCompleted(task: nat, attempt: nat, outputs: nat)

  datatype Event = Event(version: int, runId: string, sequence: nat, prev: Digest, body: Body)

  /** What plan.json fixes about every record. */
  datatype Header = Header(version: int, runId: string, tasks: nat)

  /** A NUL-free, non-empty text. */
  predicate PlainText(s: string) { s != "" && '\0' !in s }

  predicate Text(s: string) { PlainText(s) && |s| <= MAX_TEXT }

  predicate BodyOk(h: Header, b: Body)
  {
    match b
    case RunStarted(suite, _) => Text(suite)
    case RunResumed(_) => true
    case RunFinished(operation, _) => Text(operation)
    case TaskStarted(i, _) => i < h.tasks
    case TaskFailed(i, _, _, reason) => i < h.tasks && Text(reason)
    case TaskRecovered(i, _, _, _) => i < h.tasks
    case TaskCompleted(i, _, _) => i < h.tasks
  }
}

/** The byte format of events.jsonl: a hash chain of canonical newline-terminated records. */
module EventLog {
  import opened Basics
  import opened Events

  /** Canonical JSON, its parser, and SHA-256. */
  datatype Codec = Codec(enc: Event -> Content, parse: Content -> Option<Event>, sha: Content -> Digest)

  datatype Observation = Observation(sha: Digest, size: nat, count: nat)

  datatype TransitionStatus = Stable | PendingBeforeLog | PendingAfterLog

  const NEWLINE: Byte := 10

  predicate IsLine(l: Content)
  {
    |l| > 1 && l[|l| - 1] == NEWLINE && forall k :: 0 <= k < |l| - 1 ==> l[k] != NEWLINE
  }

  /** Assumptions on library behaviour: the parser inverts the encoder, an encoded record is one
      line, and SHA-256 has no collisions. */
  ghost predicate Lawful(c: Codec)
  {
    && (forall e :: c.parse(c.enc(e)) == Some(e))
    && (forall e :: IsLine(c.enc(e)))
    && (forall x, y :: c.sha(x) == c.sha(y) ==> x == y)
  }

  function Bytes(c: Codec, es: seq<Event>): Content
  {
    if es == [] then [] else Bytes(c, es[..|es| - 1]) + c.enc(es[|es| - 1])
  }

  function Observe(c: Codec, es: seq<Event>): Observation
  {
    Observation(c.sha(Bytes(c, es)), |Bytes(c, es)|, |es|)
  }

  predicate RecordOk(c: Codec, h: Header, e: Event, number: nat, prev: Digest)
  {
    && e.version == h.version
    && e.runId == h.runId
    && e.sequence == number
    && e.prev == prev
    && BodyOk(h, e.body)
    && |c.enc(e)| <= MAX_EVENT_BYTES
  }

  predicate LinkOk(c: Codec, h: Header, es: seq<Event>, k: nat)
    requires k < |es|
  {
    RecordOk(c, h, es[k], k + 1, c.sha(Bytes(c, es[..k])))
  }

  ghost predicate Chain(c: Codec, h: Header, es: seq<Event>)
  {
    forall k :: 0 <= k < |es| ==> LinkOk(c, h, es, k)
  }

  /** `raw` is an acceptable log file whose records are `es`. */
  ghost predicate Accepted(c: Codec, h: Header, raw: Content, es: seq<Event>)
  {
    && raw == Bytes(c, es)
    && Chain(c, h, es)
    && |es| <= MAX_EVENT_COUNT
    && |raw| <= MAX_EVENT_LOG_BYTES
  }

  // ---------------------------------------------------------------- unique decoding

  lemma BytesAppend(c: Codec, es: seq<Event>, e: Event)
    ensures Bytes(c, es + [e]) == Bytes(c, es) + c.enc(e)
  {
    assert (es + [e])[..|es|] == es;
  }

  lemma {:induction false} BytesPrefix(c: Codec, es: seq<Event>, k: nat)
    requires k <= |es|
    ensures Bytes(c, es[..k]) <= Bytes(c, es)
    decreases |es|
  {
    if k == |es| {
      assert es[..k] == es;
    } else {
      var init := es[..|es| - 1];
      BytesPrefix(c, init, k);
      assert init[..k] == es[..k];
    }
  }

  lemma {:induction false} BytesEndInNewline(c: Codec, es: seq<Event>)
    requires Lawful(c) && es != []
    ensures Bytes(c, es) != [] && Bytes(c, es)[|Bytes(c, es)| - 1] == NEWLINE
  {
    assert IsLine(c.enc(es[|es| - 1]));
  }

  /** A log prefix that is itself a log holds a prefix of the records. */
  lemma {:induction false} DecodePrefix(c: Codec, es: seq<Event>, fs: seq<Event>)
    requires Lawful(c) && Bytes(c, es) <= Bytes(c, fs)
    ensures es <= fs
    decreases |es| + |fs|
  {
    if es != [] {
      BytesEndInNewline(c, es);
      var init, last := fs[..|fs| - 1], fs[|fs| - 1];
      var a, b, m := Bytes(c, es), Bytes(c, fs), Bytes(c, init);
      assert IsLine(c.enc(last));
      if |a| <= |m| {
        assert a == b[..|a|] == m[..|a|];
        DecodePrefix(c, es, init);
      } else {
        assert a[|a| - 1] == b[|a| - 1] == c.enc(last)[|a| - 1 - |m|];
        assert |a| == |b| && a == b;
        DecodeEqualLast(c, es, fs);
        DecodePrefix(c, es[..|es| - 1], init);
        DecodePrefix(c, init, es[..|es| - 1]);
        assert es == es[..|es| - 1] + [last];
      }
    }
  }

  lemma DecodeEqualLast(c: Codec, es: seq<Event>, fs: seq<Event>)
    requires Lawful(c) && es != [] && fs != [] && Bytes(c, es) == Bytes(c, fs)
    ensures es[|es| - 1] == fs[|fs| - 1]
    ensures Bytes(c, es[..|es| - 1]) == Bytes(c, fs[..|fs| - 1])
  {
    var x, y := c.enc(es[|es| - 1]), c.enc(fs[|fs| - 1]);
    var es', fs' := es[..|es| - 1], fs[..|fs| - 1];
    var p, q := Bytes(c, es'), Bytes(c, fs');
    assert IsLine(x) && IsLine(y) && p + x == q + y;
    if |q| < |p| {
      FrontEnd(p, x, q, y);
      BytesEndInNewline(c, es');
      assert false;
    }
    if |p| < |q| {
      FrontEnd(q, y, p, x);
      BytesEndInNewline(c, fs');
      assert false;
    }
    assert p == (p + x)[..|p|] && q == (q + y)[..|q|];
    assert x == (p + x)[|p|..] && y == (q + y)[|q|..];
    assert c.parse(x) == Some(es[|es| - 1]) && c.parse(y) == Some(fs[|fs| - 1]);
  }

  /** Two splits of one text agree on the byte where the longer front ends. */
  lemma FrontEnd(p: Content, x: Content, q: Content, y: Content)
    requires p + x == q + y && |q| < |p|
    ensures |p| - |q| <= |y| && p[|p| - 1] == y[|p| - |q| - 1]
  {
    assert (p + x)[|p| - 1] == p[|p| - 1];
    assert (q + y)[|p| - 1] == y[|p| - 1 - |q|];
  }

  lemma DecodeUnique(c: Codec, es: seq<Event>, fs: seq<Event>)
    requires Lawful(c) && Bytes(c, es) == Bytes(c, fs)
    ensures es == fs
  {
    DecodePrefix(c, es, fs);
    DecodePrefix(c, fs, es);
  }

  /** The records of a log file. */
  ghost function Decode(c: Codec, raw: Content): (es: seq<Event>)
    requires exists es :: raw == Bytes(c, es)
    ensures raw == Bytes(c, es)
  {
    var es :| raw == Bytes(c, es);
    es
  }

  lemma ChainAppend(c: Codec, h: Header, es: seq<Event>, e: Event)
    requires Chain(c, h, es)
    requires RecordOk(c, h, e, |es| + 1, c.sha(Bytes(c, es)))
    ensures Chain(c, h, es + [e])
  {
    var fs := es + [e];
    forall j | 0 <= j < |fs| ensures LinkOk(c, h, fs, j) {
      assert fs[..j] == es[..j];
      if j < |es| {
        assert LinkOk(c, h, es, j);
      } else {
        assert es[..j] == es;
      }
    }
  }

  // ---------------------------------------------------------------- reading the log

  method FindNewline(raw: Content, offset: nat) returns (end: nat)
    requires offset <= |raw|
    ensures offset <= end <= |raw|
    ensures forall k :: offset <= k < end ==> raw[k] != NEWLINE
    ensures end < |raw| ==> raw[end] == NEWLINE
  {
    end := offset;
    while end < |raw| && raw[end] != NEWLINE
      invariant offset <= end <= |raw|
      invariant forall k :: offset <= k < end ==> raw[k] != NEWLINE
    {
      end := end + 1;
    }
  }

  /** A line at a position ends at the next newline. */
  lemma LineEnds(raw: Content, line: Content, offset: nat, end: nat)
    requires IsLine(line) && offset + |line| <= |raw| && raw[offset..offset + |line|] == line
    requires offset <= end <= |raw| && (end < |raw| ==> raw[end] == NEWLINE)
    requires forall k :: offset <= k < end ==> raw[k] != NEWLINE
    ensures end < |raw| && raw[offset..end + 1] == line
  {
    assert forall k :: offset <= k < offset + |line| ==>
        raw[k] == raw[offset..offset + |line|][k - offset] == line[k - offset];
    var last := offset + |line| - 1;
    assert raw[last] == NEWLINE;
  }

  /** After a decoded proper prefix of the file stands the next record. */
  lemma RecordFollows(c: Codec, raw: Content, done: seq<Event>, fs: seq<Event>, offset: nat)
    requires Lawful(c) && raw == Bytes(c, fs) && offset < |raw| && raw[..offset] == Bytes(c, done)
    ensures |done| < |fs| && done == fs[..|done|]
    ensures offset + |c.enc(fs[|done|])| <= |raw| && raw[offset..offset + |c.enc(fs[|done|])|] == c.enc(fs[|done|])
  {
    hide Lawful, Bytes;
    DecodePrefix(c, done, fs);
    assert done != fs;
    var n := |done|;
    BytesPrefix(c, fs, n + 1);
    assert fs[..n + 1] == done + [fs[n]];
    BytesAppend(c, done, fs[n]);
    var longer := raw[..offset] + c.enc(fs[n]);
    assert longer <= raw;
    assert raw[..|longer|] == longer;
    assert raw[offset..|longer|] == longer[offset..];
  }

  /** The record after a decoded prefix is the text up to the next newline. */
  lemma NextRecord(c: Codec, h: Header, raw: Content, done: seq<Event>, fs: seq<Event>, offset: nat, end: nat)
    requires Lawful(c) && Accepted(c, h, raw, fs)
    requires offset <= end <= |raw| && offset < |raw|
    requires raw[..offset] == Bytes(c, done)
    requires forall k :: offset <= k < end ==> raw[k] != NEWLINE
    requires end < |raw| ==> raw[end] == NEWLINE
    ensures |done| < |fs| && done == fs[..|done|]
    ensures end < |raw| && raw[offset..end + 1] == c.enc(fs[|done|])
  {
    hide Bytes, Chain, IsLine;
    RecordFollows(c, raw, done, fs, offset);
    LineEnds(raw, c.enc(fs[|done|]), offset, end);
  }

  lemma EmptyLog(c: Codec, h: Header)
    ensures Bytes(c, []) == [] && Chain(c, h, [])
  {
  }

  method ObserveLog(c: Codec, h: Header, raw: Content) returns (r: Option<Observation>)
    requires Lawful(c)
    ensures r.Some? <==> exists es :: Accepted(c, h, raw, es)
    ensures forall es :: Accepted(c, h, raw, es) ==> r == Some(Observe(c, es))
  {
    hide Lawful, RecordOk, Bytes;
    if |raw| > MAX_EVENT_LOG_BYTES {
      return None;
    }
    ghost var es: seq<Event> := [];
    EmptyLog(c, h);
    var count: nat, offset: nat := 0, 0;
    assert raw[..0] == [];
    while offset < |raw|
      invariant offset <= |raw| && count == |es| <= MAX_EVENT_COUNT
      invariant raw[..offset] == Bytes(c, es)
      invariant Chain(c, h, es)
      decreases |raw| - offset
    {
      var end := FindNewline(raw, offset);
      OnlyNextRecord(c, h, raw, es, offset, end);
      if count >= MAX_EVENT_COUNT || end == |raw| || end == offset {
        return None;
      }
      var line := raw[offset..end + 1];
      var parsed := c.parse(line);
      var prefix := c.sha(raw[..offset]);
      if |line| > MAX_EVENT_BYTES || parsed.None? || !RecordOk(c, h, parsed.value, count + 1, prefix)
         || c.enc(parsed.value) != line
      {
        return None;
      }
      ChainAppend(c, h, es, parsed.value);
      BytesAppend(c, es, parsed.value);
      assert raw[..end + 1] == raw[..offset] + line;
      es := es + [parsed.value];
      count, offset := count + 1, end + 1;
    }
    assert raw[..offset] == raw;
    assert Accepted(c, h, raw, es);
    forall fs | Accepted(c, h, raw, fs) ensures fs == es {
      DecodeUnique(c, es, fs);
    }
    r := Some(Observation(c.sha(raw), |raw|, count));
  }

  /** Every acceptable reading of the file has the record that the loop looks for next. */
  lemma OnlyNextRecord(c: Codec, h: Header, raw: Content, done: seq<Event>, offset: nat, end: nat)
    requires Lawful(c)
    requires offset <= end <= |raw| && offset < |raw|
    requires raw[..offset] == Bytes(c, done)
    requires forall k :: offset <= k < end ==> raw[k] != NEWLINE
    requires end < |raw| ==> raw[end] == NEWLINE
    ensures forall fs | Accepted(c, h, raw, fs) ::
      && |done| < |fs| <= MAX_EVENT_COUNT && offset < end < |raw|
      && var line := raw[offset..end + 1];
         c.parse(line).Some? && c.enc(c.parse(line).value) == line && |line| <= MAX_EVENT_BYTES
         && RecordOk(c, h, c.parse(line).value, |done| + 1, c.sha(raw[..offset]))
  {
    forall fs | Accepted(c, h, raw, fs)
      ensures |done| < |fs| <= MAX_EVENT_COUNT && offset < end < |raw|
      ensures var line := raw[offset..end + 1];
         c.parse(line).Some? && c.enc(c.parse(line).value) == line && |line| <= MAX_EVENT_BYTES
         && RecordOk(c, h, c.parse(line).value, |done| + 1, c.sha(raw[..offset]))
    {
      NextRecord(c, h, raw, done, fs, offset, end);
      assert LinkOk(c, h, fs, |done|);
      assert IsLine(c.enc(fs[|done|])) && c.parse(c.enc(fs[|done|])) == Some(fs[|done|]);
    }
  }

  /** Where an acknowledged prefix of `a` records plus an optional pending record stands
      relative to a log of records `es`. */
  ghost function Position(es: seq<Event>, a: nat, pending: Option<Event>): Option<TransitionStatus>
    requires a <= |es|
  {
    if a == |es| then Some(if pending.None? then Stable else PendingBeforeLog)
    else if a + 1 == |es| && pending == Some(es[a]) then Some(PendingAfterLog)
    else None
  }

  /** What the status check reads off an acceptable log; None when it refuses. */
  ghost function LogStatus(c: Codec, h: Header, raw: Content, ack: Observation,
      pending: Option<Event>): Option<TransitionStatus>
  {
    if !exists es :: Accepted(c, h, raw, es) then None
    else
      var es :| Accepted(c, h, raw, es);
      StatusOf(c, raw, Observe(c, es), ack, pending)
  }

  function StatusOf(c: Codec, raw: Content, actual: Observation, ack: Observation,
      pending: Option<Event>): Option<TransitionStatus>
  {
    if actual == ack then Some(if pending.None? then Stable else PendingBeforeLog)
    else if pending.None? then None
    else
      var line := c.enc(pending.value);
      if ack.size <= |raw| && |raw| == ack.size + |line| && raw[ack.size..] == line
         && c.sha(raw[..ack.size]) == ack.sha && actual.count == ack.count + 1
      then Some(PendingAfterLog)
      else None
  }

  method EventTransitionStatus(c: Codec, h: Header, raw: Content, ack: Observation, pending: Option<Event>)
    returns (r: Option<TransitionStatus>)
    requires Lawful(c)
    ensures r == LogStatus(c, h, raw, ack, pending)
  {
    var actual := ObserveLog(c, h, raw);
    if actual.None? {
      return None;
    }
    r := StatusOf(c, raw, actual.value, ack, pending);
  }

  /** Against an acknowledged prefix of the log, the byte-level check computes the position. */
  lemma StatusIsPosition(c: Codec, h: Header, raw: Content, es: seq<Event>, a: nat, pending: Option<Event>)
    requires Lawful(c) && Accepted(c, h, raw, es) && a <= |es|
    ensures LogStatus(c, h, raw, Observe(c, es[..a]), pending) == Position(es, a, pending)
  {
    var ack := Observe(c, es[..a]);
    forall fs | Accepted(c, h, raw, fs) ensures fs == es {
      DecodeUnique(c, fs, es);
    }
    if a == |es| {
      assert es[..a] == es;
    } else {
      StatusOfPending(c, raw, es, a, pending);
    }
  }

  lemma StatusOfPending(c: Codec, raw: Content, es: seq<Event>, a: nat, pending: Option<Event>)
    requires Lawful(c) && a < |es| && raw == Bytes(c, es)
    ensures Observe(c, es[..a]) != Observe(c, es)
    ensures pending.Some? ==>
      var ack, line := Observe(c, es[..a]), c.enc(pending.value);
      (ack.size <= |raw| && |raw| == ack.size + |line| && raw[ack.size..] == line
       && c.sha(raw[..ack.size]) == ack.sha && |es| == ack.count + 1)
      <==> (a + 1 == |es| && es[a] == pending.value)
  {
    BytesPrefix(c, es, a);
    if pending.Some? && a + 1 == |es| {
      var p := Bytes(c, es[..a]);
      assert raw == p + c.enc(es[a]);
      assert raw[|p|..] == c.enc(es[a]) && raw[..|p|] == p;
      assert c.parse(c.enc(es[a])) == Some(es[a]);
      assert c.parse(c.enc(pending.value)) == Some(pending.value);
    }
  }
}
