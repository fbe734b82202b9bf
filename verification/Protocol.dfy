/** The termination message between the Python step and the Go controller: one JSON object with exactly
    nine string members (sections 4 and 7 of RFC 8259). */
module Protocol {
  import opened Basics

  const PROTOCOL := "benchhandoff-controller-step/v1"
  const MAX_TERMINATION_BYTES := 1024
  const START := "start"
  const RESUME := "resume"
  const VERIFY := "verify"
  const COMPLETED := "completed"
  const AWAITING := "awaiting_approval"
  const VERIFIED := "verified"
  const BLOCKED := "blocked"
  const INVALID_REQUEST := "invalid_request"
  const EXECUTION_FAILED := "execution_failed"
  const EVIDENCE_INVALID := "evidence_invalid"
  const INTERNAL_ERROR := "internal_error"

  datatype StepResult = StepResult(
    protocol: string, action: string, outcome: string, uid: string, specSha: string,
    runId: string, decision: string, bundle: string, errorCode: string)

  // ---------------------------------------------------------------- patterns

  predicate Hex(c: char) { '0' <= c <= '9' || 'a' <= c <= 'f' }

  predicate HexText(s: string, n: nat) { |s| == n && forall k :: 0 <= k < n ==> Hex(s[k]) }

  predicate IsSha256(s: string) { HexText(s, 64) }

  predicate IsRunId(s: string) { HexText(s, 32) }

  predicate IsUid(s: string)
  {
    |s| == 36 && forall k :: 0 <= k < 36 ==> if k == 8 || k == 13 || k == 18 || k == 23 then s[k] == '-' else Hex(s[k])
  }

  predicate ValidAction(a: string) { a == START || a == RESUME || a == VERIFY }

  predicate ValidErrorCode(e: string)
  {
    e == INVALID_REQUEST || e == EXECUTION_FAILED || e == EVIDENCE_INVALID || e == INTERNAL_ERROR
  }

  /** `validateStepResultInvariants` */
  predicate Intrinsic(r: StepResult)
  {
    && r.protocol == PROTOCOL && ValidAction(r.action) && IsUid(r.uid) && IsSha256(r.specSha)
    && if r.outcome == COMPLETED then
         && (r.action == START || r.action == RESUME)
         && IsRunId(r.runId) && IsSha256(r.bundle) && r.errorCode == ""
         && (r.action == START ==> r.decision == "") && (r.action == RESUME ==> IsSha256(r.decision))
       else if r.outcome == AWAITING then
         r.action == START && IsRunId(r.runId) && IsSha256(r.decision) && r.bundle == "" && r.errorCode == ""
       else if r.outcome == VERIFIED then
         r.action == VERIFY && IsRunId(r.runId) && IsSha256(r.bundle) && r.decision == "" && r.errorCode == ""
       else
         r.outcome == BLOCKED && r.runId == "" && r.decision == "" && r.bundle == "" && ValidErrorCode(r.errorCode)
  }

  /** `ValidateStepResult` */
  predicate ValidFor(r: StepResult, uid: string, action: string, specSha: string)
  {
    && Intrinsic(r) && IsUid(uid) && ValidAction(action) && IsSha256(specSha)
    && r.uid == uid && r.action == action && r.specSha == specSha
  }

  // ---------------------------------------------------------------- the producer

  datatype Request = Request(action: string, uid: string, specSha: string, decision: Option<string>)

  /** How `_execute` ends. */
  datatype Execution =
    | StartFailed(runId: string, decision: string)
    | StartCompleted(runId: string, bundle: string)
    | ResumeCompleted(runId: string, bundle: string)
    | RunVerified(runId: string, bundle: string)
    | StepError(code: string)

  predicate ValidRequest(q: Request) { ValidAction(q.action) && IsUid(q.uid) && IsSha256(q.specSha) }

  predicate Possible(q: Request, x: Execution)
  {
    match x
    case StartFailed(run, decision) => q.action == START && IsRunId(run) && IsSha256(decision)
    case StartCompleted(run, bundle) => q.action == START && IsRunId(run) && IsSha256(bundle)
    case ResumeCompleted(run, bundle) =>
      q.action == RESUME && q.decision.Some? && IsSha256(q.decision.value) && IsRunId(run) && IsSha256(bundle)
    case RunVerified(run, bundle) => q.action == VERIFY && IsRunId(run) && IsSha256(bundle)
    case StepError(code) => ValidErrorCode(code)
  }

  function Termination(q: Request, x: Execution): StepResult
    requires Possible(q, x)
  {
    match x
    case StartFailed(run, decision) => StepResult(PROTOCOL, START, AWAITING, q.uid, q.specSha, run, decision, "", "")
    case StartCompleted(run, bundle) => StepResult(PROTOCOL, START, COMPLETED, q.uid, q.specSha, run, "", bundle, "")
    case ResumeCompleted(run, bundle) =>
      StepResult(PROTOCOL, RESUME, COMPLETED, q.uid, q.specSha, run, q.decision.value, bundle, "")
    case RunVerified(run, bundle) => StepResult(PROTOCOL, VERIFY, VERIFIED, q.uid, q.specSha, run, "", bundle, "")
    case StepError(code) => StepResult(PROTOCOL, q.action, BLOCKED, q.uid, q.specSha, "", "", "", code)
  }

  /** The members of the message, in key order. */
  function Fields(r: StepResult): seq<(string, string)>
  {
    [("action", r.action), ("agent_run_uid", r.uid), ("bundle_sha256", r.bundle), ("error_code", r.errorCode),
     ("execution_spec_sha256", r.specSha), ("outcome", r.outcome), ("protocol", r.protocol),
     ("resume_decision_sha256", r.decision), ("run_id", r.runId)]
  }

  function Quote(s: string): string { "\"" + s + "\"" }

  function Member(m: (string, string)): string { Quote(m.0) + ":" + Quote(m.1) }

  function Body(ms: seq<(string, string)>): string
    requires ms != []
  {
    if |ms| == 1 then Member(ms[0]) else Member(ms[0]) + "," + Body(ms[1..])
  }

  /** Compact JSON for text that needs no escape, and a final newline. */
  function Encode(r: StepResult): string
  {
    "{" + Body(Fields(r)) + "}" + "\n"
  }

  /** Text that JSON writes without escapes. */
  predicate Plain(s: string)
  {
    forall k :: 0 <= k < |s| ==> ' ' <= s[k] <= '~' && s[k] != '\"' && s[k] != '\\'
  }

  // ---------------------------------------------------------------- the consumer

  predicate Blank(c: char) { c == ' ' || c == '\t' || c == '\n' || c == '\r' }

  function Skip(t: string): (r: string)
    ensures |r| <= |t|
  {
    if t != "" && Blank(t[0]) then Skip(t[1..]) else t
  }

  /** The raw text of a JSON string after its opening quote, and what follows its closing quote. */
  function Scan(t: string): (r: Option<(string, string)>)
    ensures r.Some? ==> |r.value.1| < |t|
  {
    if t == "" || t[0] < ' ' then None
    else if t[0] == '\"' then Some(("", t[1..]))
    else if t[0] == '\\' then
      if |t| < 2 then None
      else match Scan(t[2..])
        case None => None
        case Some((raw, rest)) => Some((t[..2] + raw, rest))
    else match Scan(t[1..])
      case None => None
      case Some((raw, rest)) => Some((t[..1] + raw, rest))
  }

  /** A JSON string, unescaped by the library. */
  function Text(lib: string -> Option<string>, t: string): (r: Option<(string, string)>)
    ensures r.Some? ==> |r.value.1| < |t|
  {
    if t == "" || t[0] != '\"' then None
    else match Scan(t[1..])
      case None => None
      case Some((raw, rest)) => match lib(raw) case None => None case Some(s) => Some((s, rest))
  }

  /** A member value: a string, or null, which leaves the zero value. */
  function Value(lib: string -> Option<string>, t: string): (r: Option<(string, string)>)
    ensures r.Some? ==> |r.value.1| < |t|
  {
    if "null" <= t then Some(("", t[4..])) else Text(lib, t)
  }

  const KEYS: set<string> := {
    "protocol", "action", "outcome", "agent_run_uid", "execution_spec_sha256", "run_id",
    "resume_decision_sha256", "bundle_sha256", "error_code"}

  /** One member: its key, its value and what follows. */
  function OneMember(lib: string -> Option<string>, t: string): (r: Option<(string, string, string)>)
    ensures r.Some? ==> |r.value.2| < |t|
  {
    match Text(lib, Skip(t))
    case None => None
    case Some((key, rest)) =>
      var colon := Skip(rest);
      if colon == "" || colon[0] != ':' then None
      else match Value(lib, Skip(colon[1..]))
        case None => None
        case Some((value, after)) => Some((key, value, Skip(after)))
  }

  /** The members from here to the end of the message, added to `fields`. */
  function Members(lib: string -> Option<string>, t: string, fields: map<string, string>): Option<map<string, string>>
    decreases |t|
  {
    match OneMember(lib, t)
    case None => None
    case Some((key, value, after)) =>
      if key !in KEYS || key in fields || after == "" then None
      else if after[0] == ',' then Members(lib, after[1..], fields[key := value])
      else if after[0] == '}' && Skip(after[1..]) == "" then Some(fields[key := value])
      else None
  }

  function Decoded(lib: string -> Option<string>, message: string): Option<map<string, string>>
  {
    if message == "" || |message| > MAX_TERMINATION_BYTES then None
    else
      var t := Skip(message);
      if t == "" || t[0] != '{' then None
      else match Members(lib, t[1..], map[])
        case None => None
        case Some(fields) => if fields.Keys == KEYS then Some(fields) else None
  }

  /** `decodeExactTerminationObject` */
  method DecodeExactTerminationObject(lib: string -> Option<string>, message: string)
    returns (r: Option<map<string, string>>)
    ensures r == Decoded(lib, message)
  {
    if message == "" || |message| > MAX_TERMINATION_BYTES {
      return None;
    }
    var rest := Skip(message);
    if rest == "" || rest[0] != '{' {
      return None;
    }
    rest := rest[1..];
    var fields: map<string, string> := map[];
    while true
      invariant Decoded(lib, message) == match Members(lib, rest,
          fields) { case None => None case Some(f) => if f.Keys == KEYS then Some(f) else None }
      decreases |rest|
    {
      var member := OneMember(lib, rest);
      if member.None? {
        return None;
      }
      var (key, value, after) := member.value;
      if key !in KEYS || key in fields || after == "" {
        return None;
      }
      if after[0] != ',' {
        if after[0] != '}' || Skip(after[1..]) != "" {
          return None;
        }
        fields := fields[key := value];
        return if fields.Keys == KEYS then Some(fields) else None;
      }
      fields := fields[key := value];
      rest := after[1..];
    }
  }

  /** `ParseTerminationMessage` */
  function Parse(lib: string -> Option<string>, message: string): Option<StepResult>
  {
    match Decoded(lib, message)
    case None => None
    case Some(f) =>
      if f.Keys != KEYS then None
      else
        var r := StepResult(f["protocol"], f["action"], f["outcome"], f["agent_run_uid"], f["execution_spec_sha256"],
                            f["run_id"], f["resume_decision_sha256"], f["bundle_sha256"], f["error_code"]);
        if Intrinsic(r) then Some(r) else None
  }

  // ---------------------------------------------------------------- round trip

  ghost predicate Unescapes(lib: string -> Option<string>)
  {
    forall s :: Plain(s) ==> lib(s) == Some(s)
  }

  lemma {:induction false} ScanPlain(s: string, rest: string)
    requires Plain(s)
    ensures Scan(s + "\"" + rest) == Some((s, rest))
  {
    var t := s + "\"" + rest;
    if s == "" {
      assert t[1..] == rest;
    } else {
      ScanPlain(s[1..], rest);
      assert t[1..] == s[1..] + "\"" + rest;
      assert t[..1] + s[1..] == s;
    }
  }

  lemma TextPlain(lib: string -> Option<string>, s: string, rest: string)
    requires Unescapes(lib) && Plain(s)
    ensures Text(lib, Quote(s) + rest) == Some((s, rest))
    ensures Skip(Quote(s) + rest) == Quote(s) + rest && !("null" <= Quote(s) + rest)
  {
    var t := Quote(s) + rest;
    assert t[1..] == s + "\"" + rest;
    ScanPlain(s, rest);
    assert t[0] == '\"' && "null"[0] == 'n';
  }

  lemma ValuePlain(lib: string -> Option<string>, s: string, rest: string)
    requires Unescapes(lib) && Plain(s)
    ensures Value(lib, Skip(Quote(s) + rest)) == Some((s, rest))
  {
    hide Text, Skip, Unescapes, Plain, Quote;
    TextPlain(lib, s, rest);
  }

  lemma Regroup(x: string, y: string, rest: string)
    ensures (x + ":" + y) + rest == x + (":" + y + rest)
  {
  }

  lemma ColonAfter(s: string, rest: string)
    ensures var after := ":" + Quote(s) + rest; Skip(after) == after && after[0] == ':' && after[1..] == Quote(s) + rest
  {
  }

  lemma MemberPlain(lib: string -> Option<string>, m: (string, string), rest: string)
    requires Unescapes(lib) && Plain(m.0) && Plain(m.1)
    ensures OneMember(lib, Member(m) + rest) == Some((m.0, m.1, Skip(rest)))
  {
    hide Text, Value, Skip, Unescapes, Plain, Quote;
    var after := ":" + Quote(m.1) + rest;
    Regroup(Quote(m.0), Quote(m.1), rest);
    TextPlain(lib, m.0, after);
    ColonAfter(m.1, rest);
    ValuePlain(lib, m.1, rest);
  }

  /** The fields that a list of members adds to `fields`. */
  function Collect(ms: seq<(string, string)>, fields: map<string, string>): map<string, string>
  {
    if ms == [] then fields else Collect(ms[1..], fields[ms[0].0 := ms[0].1])
  }

  predicate FreshKeys(ms: seq<(string, string)>, fields: map<string, string>)
  {
    && (forall k :: 0 <= k < |ms| ==> ms[k].0 in KEYS && ms[k].0 !in fields && Plain(ms[k].0) && Plain(ms[k].1))
    && (forall j, k :: 0 <= j < k < |ms| ==> ms[j].0 != ms[k].0)
  }

  lemma {:induction false} MembersPlain(lib: string -> Option<string>, ms: seq<(string, string)>, fields: map<string,
      string>)
    requires Unescapes(lib) && ms != [] && FreshKeys(ms, fields)
    ensures Members(lib, Body(ms) + "}" + "\n", fields) == Some(Collect(ms, fields))
    decreases |ms|
  {
    hide OneMember, Member;
    var t := Body(ms) + "}" + "\n";
    var fields' := fields[ms[0].0 := ms[0].1];
    if |ms| == 1 {
      var rest := "}" + "\n";
      assert t == Member(ms[0]) + rest;
      MemberPlain(lib, ms[0], rest);
      assert Skip(rest) == rest && rest[1..] == "\n" && Skip("\n") == "" by { assert "\n"[1..] == ""; }
      assert Collect(ms[1..], fields') == fields';
    } else {
      var rest := "," + Body(ms[1..]) + "}" + "\n";
      assert t == Member(ms[0]) + rest;
      MemberPlain(lib, ms[0], rest);
      assert Skip(rest) == rest && rest[1..] == Body(ms[1..]) + "}" + "\n";
      MembersPlain(lib, ms[1..], fields');
    }
  }

  lemma {:induction false} CollectLookup(ms: seq<(string, string)>, fields: map<string, string>)
    requires FreshKeys(ms, fields)
    ensures forall k :: k in fields ==> k in Collect(ms, fields) && Collect(ms, fields)[k] == fields[k]
    ensures forall j :: 0 <= j < |ms| ==> ms[j].0 in Collect(ms, fields) && Collect(ms, fields)[ms[j].0] == ms[j].1
    ensures forall k :: k in Collect(ms, fields) ==> k in fields || exists j :: 0 <= j < |ms| && ms[j].0 == k
    decreases |ms|
  {
    if ms != [] {
      var fields' := fields[ms[0].0 := ms[0].1];
      CollectLookup(ms[1..], fields');
      forall j | 0 <= j < |ms| ensures ms[j].0 in Collect(ms, fields) && Collect(ms, fields)[ms[j].0] == ms[j].1 {
        assert j > 0 ==> ms[j] == ms[1..][j - 1];
      }
      forall k | k in Collect(ms, fields) && k !in fields ensures exists j :: 0 <= j < |ms| && ms[j].0 == k {
        if k != ms[0].0 {
          var j :| 0 <= j < |ms[1..]| && ms[1..][j].0 == k;
          assert ms[j + 1].0 == k;
        }
      }
    }
  }

  lemma {:induction false} BodySize(ms: seq<(string, string)>)
    requires ms != [] && forall k :: 0 <= k < |ms| ==> |ms[k].0| <= 22 && |ms[k].1| <= 64
    ensures |Body(ms)| <= 92 * |ms|
    decreases |ms|
  {
    if |ms| > 1 {
      BodySize(ms[1..]);
    }
  }

  lemma KeysArePlain()
    ensures forall k :: k in KEYS ==> Plain(k)
  {
    hide Plain;
    ShortKeysArePlain();
    LongKeysArePlain();
  }

  lemma ShortKeysArePlain()
    ensures Plain("protocol") && Plain("action") && Plain("outcome") && Plain("run_id") && Plain("error_code")
  {
  }

  lemma LongKeysArePlain()
    ensures Plain("agent_run_uid") && Plain("execution_spec_sha256")
    ensures Plain("resume_decision_sha256") && Plain("bundle_sha256")
  {
  }

  lemma ActionsArePlain(a: string)
    requires ValidAction(a)
    ensures Plain(a) && |a| <= 64
  {
  }

  lemma ErrorsArePlain(e: string)
    requires ValidErrorCode(e)
    ensures Plain(e) && |e| <= 64
  {
  }

  lemma OutcomesArePlain(o: string)
    requires o == COMPLETED || o == AWAITING || o == VERIFIED || o == BLOCKED
    ensures Plain(o) && |o| <= 64
  {
  }

  lemma UidIsPlain(s: string)
    requires IsUid(s)
    ensures Plain(s) && |s| <= 64
  {
  }

  lemma ProtocolIsPlain()
    ensures Plain(PROTOCOL) && |PROTOCOL| <= 64 && Plain("")
  {
  }

  /** What an acceptable result holds, whatever its outcome. */
  lemma IntrinsicParts(r: StepResult)
    requires Intrinsic(r)
    ensures r.protocol == PROTOCOL && ValidAction(r.action) && IsUid(r.uid) && IsSha256(r.specSha)
    ensures r.outcome == COMPLETED || r.outcome == AWAITING || r.outcome == VERIFIED || r.outcome == BLOCKED
    ensures (r.runId == "" || IsRunId(r.runId)) && (r.decision == "" || IsSha256(r.decision))
    ensures (r.bundle == "" || IsSha256(r.bundle))
    ensures r.errorCode == "" || ValidErrorCode(r.errorCode)
  {
    hide HexText, IsUid, IsSha256, IsRunId, ValidErrorCode;
  }

  lemma HexOrEmpty(s: string)
    requires s == "" || IsSha256(s) || IsRunId(s)
    ensures Plain(s) && |s| <= 64
  {
    if s != "" {
      ShaIsPlain(s);
    }
  }

  /** The values of an acceptable result are short and need no escape. */
  lemma ValuesArePlain(r: StepResult)
    requires Intrinsic(r)
    ensures forall k :: 0 <= k < 9 ==> Plain(Fields(r)[k].1) && |Fields(r)[k].1| <= 64
  {
    hide Plain, Intrinsic, IsUid, ValidAction, ValidErrorCode, IsSha256, IsRunId;
    IntrinsicParts(r);
    ProtocolIsPlain();
    ActionsArePlain(r.action);
    UidIsPlain(r.uid);
    OutcomesArePlain(r.outcome);
    HexOrEmpty(r.specSha);
    HexOrEmpty(r.runId);
    HexOrEmpty(r.decision);
    HexOrEmpty(r.bundle);
    if r.errorCode != "" {
      ErrorsArePlain(r.errorCode);
    }
  }

  lemma ShaIsPlain(s: string)
    requires IsSha256(s) || IsRunId(s)
    ensures Plain(s) && |s| <= 64
  {
  }

  lemma KeysAreFresh(r: StepResult)
    requires Intrinsic(r)
    ensures FreshKeys(Fields(r), map[])
    ensures forall k :: k in KEYS ==> exists j :: 0 <= j < 9 && Fields(r)[j].0 == k
    ensures forall k :: 0 <= k < 9 ==> |Fields(r)[k].0| <= 22
  {
    hide Plain, Intrinsic;
    ValuesArePlain(r);
    KeysArePlain();
    KeyOrder(r);
  }

  lemma KeyOrder(r: StepResult)
    ensures forall k :: 0 <= k < 9 ==> Fields(r)[k].0 in KEYS && |Fields(r)[k].0| <= 22
    ensures forall j, k :: 0 <= j < k < 9 ==> Fields(r)[j].0 != Fields(r)[k].0
    ensures forall k :: k in KEYS ==> exists j :: 0 <= j < 9 && Fields(r)[j].0 == k
  {
    var f := Fields(r);
    assert f[0].0 == "action" && f[1].0 == "agent_run_uid" && f[2].0 == "bundle_sha256" && f[3].0 == "error_code"
      && f[4].0 == "execution_spec_sha256" && f[5].0 == "outcome" && f[6].0 == "protocol"
      && f[7].0 == "resume_decision_sha256" && f[8].0 == "run_id";
  }

  /** Every result the decoder can accept survives the trip through the message. */
  lemma RoundTrip(lib: string -> Option<string>, r: StepResult)
    requires Unescapes(lib) && Intrinsic(r)
    ensures |Encode(r)| <= MAX_TERMINATION_BYTES && Parse(lib, Encode(r)) == Some(r)
  {
    hide Intrinsic, Members, Body, Collect, Unescapes, FreshKeys;
    KeysAreFresh(r);
    ValuesArePlain(r);
    var ms, message := Fields(r), Encode(r);
    BodySize(ms);
    MembersPlain(lib, ms, map[]);
    CollectLookup(ms, map[]);
    MessageShape(Body(ms));
    CollectedFields(r);
  }

  lemma MessageShape(body: string)
    ensures var t := "{" + body + "}" + "\n";
      Skip(t) == t && t[0] == '{' && t[1..] == body + "}" + "\n" && |t| == |body| + 3
  {
  }

  lemma CollectedFields(r: StepResult)
    requires Intrinsic(r)
    ensures var f := Collect(Fields(r), map[]);
      && f.Keys == KEYS
      && StepResult(f["protocol"], f["action"], f["outcome"], f["agent_run_uid"], f["execution_spec_sha256"],
                    f["run_id"], f["resume_decision_sha256"], f["bundle_sha256"], f["error_code"]) == r
  {
    hide Intrinsic, Collect;
    KeysAreFresh(r);
    var ms := Fields(r);
    CollectLookup(ms, map[]);
    var f := Collect(ms, map[]);
    forall k ensures k in f <==> k in KEYS {
      if k in KEYS {
        var j :| 0 <= j < 9 && ms[j].0 == k;
      }
    }
    assert ms[0].0 in f && ms[1].0 in f && ms[2].0 in f && ms[3].0 in f && ms[4].0 in f && ms[5].0 in f &&
        ms[6].0 in f && ms[7].0 in f && ms[8].0 in f;
  }

  /** For every valid request, whatever the step did, the message fits, decodes to exactly the nine fields
      that were written, and is valid for that request. */
  lemma ProducedIsAccepted(lib: string -> Option<string>, q: Request, x: Execution)
    requires Unescapes(lib) && ValidRequest(q) && Possible(q, x)
    ensures var r := Termination(q, x);
      && |Encode(r)| <= MAX_TERMINATION_BYTES
      && Parse(lib, Encode(r)) == Some(r)
      && ValidFor(r, q.uid, q.action, q.specSha)
  {
    hide Parse, Encode, Unescapes;
    RoundTrip(lib, Termination(q, x));
  }
}
