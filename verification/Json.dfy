/** The part of encoding/json that cursors use: one flat object of strings and nulls, read
    token by token from bytes.  Any other value ends in the same error in the source, so
    the reader stops there. */
module Json {
  import opened Wrappers
  import T = Text

  datatype Value = Text(text: string) | Null

  predicate Space(c: char) { c == ' ' || c == '\t' || c == '\n' || c == '\r' }

  function SkipSpace(s: string): (r: string)
    ensures |r| <= |s|
  {
    if s != "" && Space(s[0]) then SkipSpace(s[1..]) else s
  }

  function Hex(c: char): (r: Option<nat>)
    ensures r.Some? ==> r.value < 16
  {
    if '0' <= c <= '9' then Some(c as int - '0' as int)
    else if 'a' <= c <= 'f' then Some(c as int - 'a' as int + 10)
    else if 'A' <= c <= 'F' then Some(c as int - 'A' as int + 10)
    else None
  }

  /** A code point below 0x10000 in UTF-8. */
  function Utf8(p: nat): string
    requires p < 0x10000
  {
    if p < 0x80 then [T.Byte(p)]
    else if p < 0x800 then [T.Byte(0xC0 + p / 64), T.Byte(0x80 + p % 64)]
    else [T.Byte(0xE0 + p / 4096), T.Byte(0x80 + p / 64 % 64), T.Byte(0x80 + p % 64)]
  }

  /** What follows a backslash.  Surrogates never get here: they are refused beforehand. */
  function ReadEscape(s: string): (r: Option<(string, string)>)
    ensures r.Some? ==> |r.value.1| < |s|
  {
    if s == "" then None
    else if s[0] == '"' || s[0] == '\\' || s[0] == '/' then Some(([s[0]], s[1..]))
    else if s[0] == 'b' then Some(([T.Byte(8)], s[1..]))
    else if s[0] == 'f' then Some(([T.Byte(12)], s[1..]))
    else if s[0] == 'n' then Some(("\n", s[1..]))
    else if s[0] == 'r' then Some(("\r", s[1..]))
    else if s[0] == 't' then Some(("\t", s[1..]))
    else if s[0] != 'u' || |s| < 5 then None
    else
      var a, b, c, d := Hex(s[1]), Hex(s[2]), Hex(s[3]), Hex(s[4]);
      if a.None? || b.None? || c.None? || d.None? then None
      else Some((Utf8(a.value * 4096 + b.value * 256 + c.value * 16 + d.value), s[5..]))
  }

  /** The rest of a string after its opening quote. */
  function ReadString(s: string): (r: Option<(string, string)>)
    ensures r.Some? ==> |r.value.1| < |s|
    decreases |s|
  {
    if s == "" || s[0] < ' ' then None
    else if s[0] == '"' then Some(("", s[1..]))
    else
      var head := if s[0] == '\\' then ReadEscape(s[1..]) else Some(([s[0]], s[1..]));
      if head.None? then None
      else
        var tail := ReadString(head.value.1);
        if tail.None? then None else Some((head.value.0 + tail.value.0, tail.value.1))
  }

  function ReadValue(s: string): (r: Option<(Value, string)>)
    ensures r.Some? ==> |r.value.1| < |s|
  {
    if s == "" then None
    else if s[0] == '"' then
      var t := ReadString(s[1..]);
      if t.None? then None else Some((Text(t.value.0), t.value.1))
    else if |s| >= 4 && s[..4] == "null" then Some((Null, s[4..]))
    else None
  }

  datatype Member = Member(key: string, value: Value, rest: string)

  /** A quoted key, a colon and a value. */
  function ReadPair(q: string): (r: Option<Member>)
    ensures r.Some? ==> |r.value.rest| < |q|
  {
    if q == "" || q[0] != '"' then None
    else
      var key := ReadString(q[1..]);
      if key.None? then None
      else
        var colon := SkipSpace(key.value.1);
        if colon == "" || colon[0] != ':' then None
        else
          var v := ReadValue(SkipSpace(colon[1..]));
          if v.None? then None else Some(Member(key.value.0, v.value.0, v.value.1))
  }

  /** A member; all but the first follow a comma. */
  function ReadMember(s: string, first: bool): (r: Option<Member>)
    ensures r.Some? ==> |r.value.rest| < |s|
  {
    if first then ReadPair(s)
    else if s == "" || s[0] != ',' then None
    else ReadPair(SkipSpace(s[1..]))
  }

  /** Which keys an object may have, and whether null is a value. */
  datatype Shape = Shape(keys: set<string>, nullable: bool)

  predicate HasNul(s: string) { exists i :: 0 <= i < |s| && s[i] as int == 0 }

  predicate Accepts(shape: Shape, acc: map<string, Value>, m: Member) {
    && m.key !in acc && m.key in shape.keys
    && if m.value.Null? then shape.nullable else !HasNul(m.value.text)
  }

  /** Members up to the closing brace, after which only space may follow. */
  function ReadMembers(shape: Shape, s: string, first: bool, acc: map<string, Value>): Option<map<string, Value>>
    decreases |s|
  {
    var q := SkipSpace(s);
    if q == "" then None
    else if q[0] == '}' then if SkipSpace(q[1..]) == "" then Some(acc) else None
    else
      var m := ReadMember(q, first);
      if m.None? || !Accepts(shape, acc, m.value) then None
      else ReadMembers(shape, m.value.rest, false, acc[m.value.key := m.value.value])
  }

  function ReadObject(shape: Shape, s: string): Option<map<string, Value>> {
    var q := SkipSpace(s);
    if q == "" || q[0] != '{' then None else ReadMembers(shape, q[1..], true, map[])
  }

  /** The decoders' token loop. */
  method DecodeObject(shape: Shape, s: string) returns (r: Option<map<string, Value>>)
    ensures r == ReadObject(shape, s)
  {
    var q := SkipSpace(s);
    if q == "" || q[0] != '{' { return None; }
    var rest, first, acc := SkipSpace(q[1..]), true, map[];
    SkipTwice(q[1..]);
    SkipFirst(shape, q[1..], first, acc);
    while rest != "" && rest[0] != '}'
      invariant ReadObject(shape, s) == ReadMembers(shape, rest, first, acc)
      invariant SkipSpace(rest) == rest
      decreases |rest|
    {
      var m := ReadMember(rest, first);
      if m.None? || !Accepts(shape, acc, m.value) { return None; }
      acc := acc[m.value.key := m.value.value];
      first := false;
      SkipTwice(m.value.rest);
      SkipFirst(shape, m.value.rest, first, acc);
      rest := SkipSpace(m.value.rest);
    }
    if rest == "" || SkipSpace(rest[1..]) != "" { return None; }
    return Some(acc);
  }

  lemma {:induction false} SkipTwice(s: string)
    ensures SkipSpace(SkipSpace(s)) == SkipSpace(s)
  {
    if s != "" && Space(s[0]) { SkipTwice(s[1..]); }
  }

  lemma SkipFirst(shape: Shape, s: string, first: bool, acc: map<string, Value>)
    ensures ReadMembers(shape, s, first, acc) == ReadMembers(shape, SkipSpace(s), first, acc)
  {
    SkipTwice(s);
  }

  // ---- what the encoders print is read back ----

  /** Bytes that json.Marshal prints as themselves inside quotes. */
  predicate Plain(s: string) {
    forall i :: 0 <= i < |s| ==> ' ' <= s[i] <= '~' && s[i] != '"' && s[i] != '\\' && s[i] != '<' && s[i] != '>' && s[i] != '&'
  }

  predicate PlainValue(v: Value) { v.Text? ==> Plain(v.text) }

  function Show(v: Value): string { if v.Null? then "null" else "\"" + v.text + "\"" }

  /** `"key":value`, and what comes after it. */
  function ShowPair(key: string, v: Value, rest: string): string {
    "\"" + (key + "\"" + (":" + (Show(v) + rest)))
  }

  function ShowMembers(ps: seq<(string, Value)>, first: bool): string {
    if ps == [] then "}"
    else (if first then "" else ",") + ShowPair(ps[0].0, ps[0].1, ShowMembers(ps[1..], false))
  }

  function ShowObject(ps: seq<(string, Value)>): string { "{" + ShowMembers(ps, true) }

  lemma {:induction false} ReadPlain(t: string, rest: string)
    requires Plain(t)
    ensures ReadString(t + "\"" + rest) == Some((t, rest))
  {
    var s := t + "\"" + rest;
    if t == "" {
      assert s[0] == '"' && s[1..] == rest;
    } else {
      ReadPlain(t[1..], rest);
      assert s[1..] == t[1..] + "\"" + rest;
      assert t == [t[0]] + t[1..];
    }
  }

  lemma ReadShown(v: Value, rest: string)
    requires PlainValue(v)
    ensures ReadValue(Show(v) + rest) == Some((v, rest))
    ensures SkipSpace(Show(v) + rest) == Show(v) + rest
  {
    var s := Show(v) + rest;
    if v.Text? {
      assert s[1..] == v.text + "\"" + rest;
      ReadPlain(v.text, rest);
    } else {
      assert s[..4] == "null" && s[4..] == rest;
    }
  }

  lemma ReadShownPair(key: string, v: Value, rest: string)
    requires Plain(key) && PlainValue(v)
    ensures ReadPair(ShowPair(key, v, rest)) == Some(Member(key, v, rest))
  {
    var after := ":" + (Show(v) + rest);
    assert ShowPair(key, v, rest)[1..] == key + "\"" + after;
    ReadPlain(key, after);
    assert after[1..] == Show(v) + rest;
    ReadShown(v, rest);
  }

  lemma ReadShownMember(key: string, v: Value, first: bool, rest: string)
    requires Plain(key) && PlainValue(v)
    ensures ReadMember((if first then "" else ",") + ShowPair(key, v, rest), first) == Some(Member(key, v, rest))
  {
    var body := ShowPair(key, v, rest);
    assert body[0] == '"';
    hide ShowPair, ReadPair;
    ReadShownPair(key, v, rest);
    assert "" + body == body && ("," + body)[1..] == body;
  }

  ghost predicate Fresh(shape: Shape, ps: seq<(string, Value)>, acc: map<string, Value>) {
    forall i :: 0 <= i < |ps| ==>
      && Plain(ps[i].0) && PlainValue(ps[i].1) && ps[i].0 in shape.keys && ps[i].0 !in acc
      && (ps[i].1.Null? ==> shape.nullable)
      && forall j :: 0 <= j < i ==> ps[j].0 != ps[i].0
  }

  function Extend(acc: map<string, Value>, ps: seq<(string, Value)>): map<string, Value>
    decreases |ps|
  {
    if ps == [] then acc else Extend(acc[ps[0].0 := ps[0].1], ps[1..])
  }

  lemma PlainHasNoNul(s: string)
    requires Plain(s)
    ensures !HasNul(s)
  {}

  lemma {:induction false} ReadShownMembers(shape: Shape, ps: seq<(string, Value)>, first: bool, acc: map<string, Value>)
    requires Fresh(shape, ps, acc)
    ensures ReadMembers(shape, ShowMembers(ps, first), first, acc) == Some(Extend(acc, ps))
    decreases |ps|
  {
    var s := ShowMembers(ps, first);
    if ps == [] {
      assert s[1..] == "";
    } else {
      var key, v, rest := ps[0].0, ps[0].1, ShowMembers(ps[1..], false);
      ReadShownMember(key, v, first, rest);
      assert s[0] == if first then '"' else ',';
      if v.Text? { PlainHasNoNul(v.text); }
      assert Fresh(shape, ps[1..], acc[key := v]);
      hide ReadMember, ShowPair, HasNul, Plain;
      ReadShownMembers(shape, ps[1..], false, acc[key := v]);
    }
  }

  /** Reading a printed object gives its members back. */
  lemma ReadShownObject(shape: Shape, ps: seq<(string, Value)>)
    requires Fresh(shape, ps, map[])
    ensures ReadObject(shape, ShowObject(ps)) == Some(Extend(map[], ps))
  {
    assert ShowObject(ps)[1..] == ShowMembers(ps, true);
    ReadShownMembers(shape, ps, true, map[]);
  }

  // ---- and nothing else printed is ----

  /** Members whose keys and texts are printed as they are. */
  ghost predicate AllPlain(ps: seq<(string, Value)>) {
    forall i :: 0 <= i < |ps| ==> Plain(ps[i].0) && PlainValue(ps[i].1)
  }

  lemma {:induction false} OnlyFresh(shape: Shape, ps: seq<(string, Value)>, first: bool, acc: map<string, Value>)
    requires AllPlain(ps) && ReadMembers(shape, ShowMembers(ps, first), first, acc).Some?
    ensures Fresh(shape, ps, acc)
    decreases |ps|
  {
    if ps != [] {
      var key, v, rest := ps[0].0, ps[0].1, ShowMembers(ps[1..], false);
      ReadShownMember(key, v, first, rest);
      OneMember(shape, ps, first, acc);
      OnlyFresh(shape, ps[1..], false, acc[key := v]);
      forall i | 0 < i < |ps| ensures ps[i].0 in shape.keys && ps[i].0 !in acc && ps[i].0 != key && (ps[i].1.Null? ==> shape.nullable) {
        assert ps[i] == ps[1..][i - 1];
      }
      forall i, j | 0 < j < i < |ps| ensures ps[j].0 != ps[i].0 { assert ps[i] == ps[1..][i - 1] && ps[j] == ps[1..][j - 1]; }
    }
  }

  lemma OneMember(shape: Shape, ps: seq<(string, Value)>, first: bool, acc: map<string, Value>)
    requires ps != [] && ReadMembers(shape, ShowMembers(ps, first), first, acc).Some?
    requires ReadMember(ShowMembers(ps, first), first) == Some(Member(ps[0].0, ps[0].1, ShowMembers(ps[1..], false)))
    ensures Accepts(shape, acc, Member(ps[0].0, ps[0].1, ShowMembers(ps[1..], false)))
    ensures ReadMembers(shape, ShowMembers(ps[1..], false), false, acc[ps[0].0 := ps[0].1]).Some?
  {
    hide ReadMember, Accepts;
    assert ShowMembers(ps, first)[0] == if first then '"' else ',';
  }

  /** An object of plain members reads exactly when its keys are known and distinct and null
      stands only where it may: no unknown, repeated or wrongly null member gets by. */
  lemma ReadShownExactly(shape: Shape, ps: seq<(string, Value)>)
    requires AllPlain(ps)
    ensures ReadObject(shape, ShowObject(ps)).Some? <==>
      && (forall i :: 0 <= i < |ps| ==> ps[i].0 in shape.keys && (ps[i].1.Null? ==> shape.nullable))
      && (forall i, j :: 0 <= i < j < |ps| ==> ps[i].0 != ps[j].0)
  {
    assert ShowObject(ps)[1..] == ShowMembers(ps, true) && ShowObject(ps)[0] == '{';
    if Fresh(shape, ps, map[]) {
      ReadShownObject(shape, ps);
    } else if ReadObject(shape, ShowObject(ps)).Some? {
      OnlyFresh(shape, ps, true, map[]);
    }
  }

  /** Only space may follow the object, and space may stand around it. */
  lemma SpaceAround(shape: Shape, ps: seq<(string, Value)>, c: char)
    requires Fresh(shape, ps, map[])
    ensures c in {' ', '\t', '\n', '\r'} ==> ReadObject(shape, [c] + ShowObject(ps)) == Some(Extend(map[], ps))
    ensures c !in {' ', '\t', '\n', '\r'} && c != '{' ==> ReadObject(shape, [c] + ShowObject(ps)).None?
  {
    ReadShownObject(shape, ps);
    assert ([c] + ShowObject(ps))[1..] == ShowObject(ps);
    hide ShowMembers, ReadMembers;
  }
}
