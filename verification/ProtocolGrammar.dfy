/** The termination decoder accepts exactly the JSON objects that its grammar writes. */
module ProtocolGrammar {
  import opened Basics
  import opened Protocol

  predicate AllBlank(s: string) { forall k :: 0 <= k < |s| ==> Blank(s[k]) }

  /** The text between the quotes of a JSON string (section 7 of RFC 8259), escapes unresolved. */
  predicate Raw(s: string)
  {
    s == "" || (s[0] >= ' ' && s[0] != '\"' && if s[0] == '\\' then |s| >= 2 && Raw(s[2..]) else Raw(s[1..]))
  }

  datatype Literal = Null | Quoted(raw: string)

  /** One member (section 4 of RFC 8259) with the blanks around its parts. */
  datatype Piece = Piece(before: string, key: string, afterKey: string, afterColon: string, value: Literal,
      after: string)

  function WriteLiteral(v: Literal): string { if v.Null? then "null" else Quote(v.raw) }

  function Write(p: Piece): string
  {
    p.before + (Quote(p.key) + (p.afterKey + (":" + (p.afterColon + (WriteLiteral(p.value) + p.after)))))
  }

  function WriteAll(ps: seq<Piece>): string
    requires ps != []
  {
    if |ps| == 1 then Write(ps[0]) else Write(ps[0]) + ("," + WriteAll(ps[1..]))
  }

  function Meaning(lib: string -> Option<string>, v: Literal): Option<string>
  {
    if v.Null? then Some("") else lib(v.raw)
  }

  predicate PieceOk(lib: string -> Option<string>, p: Piece)
  {
    && AllBlank(p.before) && AllBlank(p.afterKey) && AllBlank(p.afterColon) && AllBlank(p.after)
    && Raw(p.key) && lib(p.key).Some? && (p.value.Quoted? ==> Raw(p.value.raw)) && Meaning(lib, p.value).Some?
  }

  /** The members have new, distinct, known keys and mean `result` together with `fields`. */
  predicate Means(lib: string -> Option<string>, ps: seq<Piece>, fields: map<string, string>, result: map<string,
      string>)
  {
    if ps == [] then result == fields
    else
      && PieceOk(lib, ps[0])
      && var key := lib(ps[0].key).value;
         key in KEYS && key !in fields && Means(lib, ps[1..], fields[key := Meaning(lib, ps[0].value).value], result)
  }

  /** `message` is one object of exactly the nine members, with blanks around it. */
  ghost predicate Says(lib: string -> Option<string>, message: string, result: map<string, string>)
  {
    exists lead, ps, trail ::
      && AllBlank(lead) && AllBlank(trail) && ps != [] && Means(lib, ps, map[], result) && result.Keys == KEYS
      && message == lead + ("{" + (WriteAll(ps) + ("}" + trail)))
  }

  // ---------------------------------------------------------------- blanks and strings

  predicate Starts(t: string) { t == "" || !Blank(t[0]) }

  lemma {:induction false} SkipBlanks(b: string, t: string)
    requires AllBlank(b) && Starts(t)
    ensures Skip(b + t) == t
    decreases |b|
  {
    if b == "" {
      assert b + t == t;
    } else {
      SkipBlanks(b[1..], t);
      assert (b + t)[1..] == b[1..] + t;
    }
  }

  lemma {:induction false} SkipSplits(t: string) returns (b: string)
    ensures AllBlank(b) && t == b + Skip(t) && Starts(Skip(t))
    decreases |t|
  {
    if t != "" && Blank(t[0]) {
      var c := SkipSplits(t[1..]);
      b := [t[0]] + c;
      assert t == [t[0]] + t[1..];
    } else {
      b := "";
    }
  }

  lemma {:induction false} ScanRaw(raw: string, rest: string)
    requires Raw(raw)
    ensures Scan(raw + "\"" + rest) == Some((raw, rest))
    decreases |raw|
  {
    var t := raw + "\"" + rest;
    if raw == "" {
      assert t[1..] == rest;
    } else if raw[0] == '\\' {
      ScanRaw(raw[2..], rest);
      assert t[2..] == raw[2..] + "\"" + rest && t[..2] + raw[2..] == raw;
    } else {
      ScanRaw(raw[1..], rest);
      assert t[1..] == raw[1..] + "\"" + rest && t[..1] + raw[1..] == raw;
    }
  }

  lemma {:induction false} ScanSound(t: string)
    requires Scan(t).Some?
    ensures Raw(Scan(t).value.0) && t == Scan(t).value.0 + "\"" + Scan(t).value.1
    decreases |t|
  {
    if t[0] == '\"' {
      assert t == [t[0]] + t[1..];
    } else {
      var n := if t[0] == '\\' then 2 else 1;
      ScanSound(t[n..]);
      var (raw, rest) := Scan(t[n..]).value;
      Joined(t, n, raw, rest);
      RawFront(t, n, raw);
    }
  }

  lemma Joined(t: string, n: nat, raw: string, rest: string)
    requires n <= |t| && t[n..] == raw + "\"" + rest
    ensures t == t[..n] + raw + "\"" + rest
  {
  }

  lemma RawFront(t: string, n: nat, raw: string)
    requires 1 <= n <= |t| && Raw(raw) && t[0] >= ' ' && t[0] != '\"' && n == if t[0] == '\\' then 2 else 1
    ensures Raw(t[..n] + raw)
  {
    assert (t[..n] + raw)[n..] == raw;
  }

  lemma TextRaw(lib: string -> Option<string>, raw: string, rest: string)
    requires Raw(raw) && lib(raw).Some?
    ensures Text(lib, Quote(raw) + rest) == Some((lib(raw).value, rest)) && Starts(Quote(raw) + rest)
  {
    ScanRaw(raw, rest);
    assert (Quote(raw) + rest)[1..] == raw + "\"" + rest;
  }

  lemma TextSound(lib: string -> Option<string>, t: string) returns (raw: string)
    requires Text(lib, t).Some?
    ensures Raw(raw) && lib(raw) == Some(Text(lib, t).value.0) && t == Quote(raw) + Text(lib, t).value.1
  {
    ScanSound(t[1..]);
    raw := Scan(t[1..]).value.0;
    assert t == [t[0]] + t[1..];
  }

  // ---------------------------------------------------------------- values and members

  lemma ValueComplete(lib: string -> Option<string>, v: Literal, rest: string)
    requires (v.Quoted? ==> Raw(v.raw)) && Meaning(lib, v).Some?
    ensures Value(lib, WriteLiteral(v) + rest) == Some((Meaning(lib, v).value, rest)) && Starts(WriteLiteral(v) + rest)
  {
    var t := WriteLiteral(v) + rest;
    if v.Null? {
      assert t[4..] == rest && "null" <= t;
    } else {
      TextRaw(lib, v.raw, rest);
      assert t[0] == '\"' && "null"[0] == 'n';
    }
  }

  lemma ValueSound(lib: string -> Option<string>, t: string) returns (v: Literal)
    requires Value(lib, t).Some?
    ensures (v.Quoted? ==> Raw(v.raw)) && Meaning(lib, v) == Some(Value(lib, t).value.0)
    ensures t == WriteLiteral(v) + Value(lib, t).value.1
  {
    if "null" <= t {
      v := Null;
      assert t == "null" + t[4..];
    } else {
      var raw := TextSound(lib, t);
      v := Quoted(raw);
    }
  }

  lemma MemberComplete(lib: string -> Option<string>, p: Piece, rest: string)
    requires PieceOk(lib, p) && Starts(rest)
    ensures OneMember(lib, Write(p) + rest) == Some((lib(p.key).value, Meaning(lib, p.value).value, rest))
  {
    hide Text, Value, Skip, Raw, Quote, WriteLiteral, Meaning;
    var literal := WriteLiteral(p.value) + (p.after + rest);
    var colon := ":" + (p.afterColon + literal);
    var quoted := Quote(p.key) + (p.afterKey + colon);
    assert Write(p) + rest == p.before + quoted;
    TextRaw(lib, p.key, p.afterKey + colon);
    SkipBlanks(p.before, quoted);
    SkipBlanks(p.afterKey, colon);
    assert colon[1..] == p.afterColon + literal;
    ValueComplete(lib, p.value, p.after + rest);
    SkipBlanks(p.afterColon, literal);
    SkipBlanks(p.after, rest);
  }

  lemma MemberSound(lib: string -> Option<string>, t: string) returns (p: Piece)
    requires OneMember(lib, t).Some?
    ensures PieceOk(lib, p) && lib(p.key) == Some(OneMember(lib, t).value.0)
    ensures Meaning(lib, p.value) == Some(OneMember(lib, t).value.1)
    ensures t == Write(p) + OneMember(lib, t).value.2 && Starts(OneMember(lib, t).value.2)
  {
    hide Text, Value, Skip, Raw, Quote, WriteLiteral, Meaning;
    var before := SkipSplits(t);
    var raw := TextSound(lib, Skip(t));
    var rest := Text(lib, Skip(t)).value.1;
    var afterKey := SkipSplits(rest);
    var colon := Skip(rest);
    var afterColon := SkipSplits(colon[1..]);
    var v := ValueSound(lib, Skip(colon[1..]));
    var after := SkipSplits(Value(lib, Skip(colon[1..])).value.1);
    p := Piece(before, raw, afterKey, afterColon, v, after);
    assert colon == ":" + colon[1..];
    Regrouped(p, OneMember(lib, t).value.2);
  }

  lemma Regrouped(p: Piece, rest: string)
    ensures Write(p) + rest
         == p.before + (Quote(p.key) +
             (p.afterKey + (":" + (p.afterColon + (WriteLiteral(p.value) + (p.after + rest))))))
  {
    hide Quote, WriteLiteral;
  }

  // ---------------------------------------------------------------- whole messages

  lemma {:induction false} MembersComplete(lib: string -> Option<string>, ps: seq<Piece>, fields: map<string, string>,
      result: map<string, string>, trail: string)
    requires ps != [] && Means(lib, ps, fields, result) && AllBlank(trail)
    ensures Members(lib, WriteAll(ps) + ("}" + trail), fields) == Some(result)
    decreases |ps|
  {
    hide OneMember, Write, Raw, Meaning, Skip;
    var t := WriteAll(ps) + ("}" + trail);
    var fields' := fields[lib(ps[0].key).value := Meaning(lib, ps[0].value).value];
    if |ps| == 1 {
      var rest := "}" + trail;
      MemberComplete(lib, ps[0], rest);
      assert rest[1..] == trail;
      SkipBlanks(trail, "");
      assert trail + "" == trail;
      assert ps[1..] == [];
    } else {
      var rest := "," + (WriteAll(ps[1..]) + ("}" + trail));
      assert t == Write(ps[0]) + rest;
      MemberComplete(lib, ps[0], rest);
      assert rest[1..] == WriteAll(ps[1..]) + ("}" + trail);
      MembersComplete(lib, ps[1..], fields', result, trail);
    }
  }

  lemma {:induction false} MembersSound(lib: string -> Option<string>, t: string, fields: map<string, string>)
    returns (ps: seq<Piece>, trail: string)
    requires Members(lib, t, fields).Some?
    ensures ps != [] && Means(lib, ps, fields, Members(lib, t, fields).value)
    ensures AllBlank(trail) && t == WriteAll(ps) + ("}" + trail)
    decreases |t|
  {
    hide OneMember, Write, PieceOk, Meaning, Skip;
    var p := MemberSound(lib, t);
    var (key, value, after) := OneMember(lib, t).value;
    assert after == [after[0]] + after[1..];
    if after[0] == ',' {
      var qs, end := MembersSound(lib, after[1..], fields[key := value]);
      ps, trail := [p] + qs, end;
      assert ps[1..] == qs;
    } else {
      var b := SkipSplits(after[1..]);
      ps, trail := [p], b;
      assert ps[1..] == [];
    }
  }

  /** The decoder accepts a message with a result if and only if the message fits and says that result. */
  lemma DecodesExactly(lib: string -> Option<string>, message: string, result: map<string, string>)
    ensures Decoded(lib, message) == Some(result) <==> |message| <= MAX_TERMINATION_BYTES && Says(lib, message, result)
  {
    if Decoded(lib, message) == Some(result) {
      DecodedSays(lib, message);
    }
    if |message| <= MAX_TERMINATION_BYTES && Says(lib, message, result) {
      SaidIsDecoded(lib, message, result);
    }
  }

  lemma DecodedSays(lib: string -> Option<string>, message: string)
    requires Decoded(lib, message).Some?
    ensures Says(lib, message, Decoded(lib, message).value)
  {
    hide Members, Means, WriteAll, Skip;
    var lead := SkipSplits(message);
    var t := Skip(message);
    var ps, trail := MembersSound(lib, t[1..], map[]);
    assert t == "{" + t[1..];
  }

  lemma SaidIsDecoded(lib: string -> Option<string>, message: string, result: map<string, string>)
    requires |message| <= MAX_TERMINATION_BYTES && Says(lib, message, result)
    ensures Decoded(lib, message) == Some(result)
  {
    hide Members, Means, WriteAll, Skip;
    var lead, ps, trail :|
      && AllBlank(lead) && AllBlank(trail) && ps != [] && Means(lib, ps, map[], result) && result.Keys == KEYS
      && message == lead + ("{" + (WriteAll(ps) + ("}" + trail)));
    var t := "{" + (WriteAll(ps) + ("}" + trail));
    SkipBlanks(lead, t);
    assert t[1..] == WriteAll(ps) + ("}" + trail);
    MembersComplete(lib, ps, map[], result, trail);
  }
}
