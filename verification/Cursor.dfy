/** Pagination cursors (cursor.go): "v1." and base64url of a small JSON object. */
module Cursor {
  import opened Wrappers
  import opened Graph
  import opened Identity
  import opened Json
  import B = Base64

  const VERSION := "v1."
  const MAX_ENCODED := 768
  const MAX_DECODED := 512

  predicate Continues(c: char) { 0x80 <= c as int < 0xC0 }

  /** Well-formed UTF-8 (section 4 of RFC 3629). */
  predicate Utf8Valid(s: string)
    decreases |s|
  {
    if s == "" then true
    else
      var a := s[0] as int;
      if a < 0x80 then Utf8Valid(s[1..])
      else if 0xC2 <= a < 0xE0 then |s| >= 2 && Continues(s[1]) && Utf8Valid(s[2..])
      else if 0xE0 <= a < 0xF0 then
        && |s| >= 3 && Continues(s[1]) && Continues(s[2])
        && (a == 0xE0 ==> s[1] as int >= 0xA0) && (a == 0xED ==> s[1] as int < 0xA0)
        && Utf8Valid(s[3..])
      else if 0xF0 <= a < 0xF5 then
        && |s| >= 4 && Continues(s[1]) && Continues(s[2]) && Continues(s[3])
        && (a == 0xF0 ==> s[1] as int >= 0x90) && (a == 0xF4 ==> s[1] as int < 0x90)
        && Utf8Valid(s[4..])
      else false
  }

  /** An escaped NUL or a UTF-16 surrogate escape starts at `i`. */
  predicate ForbiddenAt(b: string, i: nat)
    requires i + 5 < |b|
  {
    && b[i] == '\\' && (b[i + 1] == 'u' || b[i + 1] == 'U')
    && (b[i + 2..i + 6] == "0000"
        || ((b[i + 2] == 'd' || b[i + 2] == 'D') && (b[i + 3] == '8' || b[i + 3] == '9' || 'a' <= b[i + 3] <= 'f' || 'A' <= b[i + 3] <= 'F')))
  }

  predicate Forbidden(b: string) { exists i :: 0 <= i < |b| - 5 && ForbiddenAt(b, i) }

  /** hasForbiddenJSONEscapes. */
  method HasForbiddenEscapes(b: string) returns (r: bool)
    ensures r <==> Forbidden(b)
  {
    var i := 0;
    while i + 5 < |b|
      invariant 0 <= i && forall j :: 0 <= j < i && j < |b| - 5 ==> !ForbiddenAt(b, j)
    {
      if ForbiddenAt(b, i) { return true; }
      i := i + 1;
    }
    return false;
  }

  /** decodeCursorBytes. */
  function Unpack(cursor: string): Option<string> {
    if |cursor| > MAX_ENCODED || !HasPrefix(cursor, VERSION) then None
    else
      var encoded := cursor[|VERSION|..];
      if encoded == "" || '=' in encoded then None
      else
        var b := B.Decode(encoded);
        if b.None? || |b.value| > MAX_DECODED || !Utf8Valid(b.value) || HasNul(b.value) || Forbidden(b.value) then None
        else b
  }

  /** The common end of the encoders. */
  function Pack(text: string): Option<string>
    requires B.IsBytes(text)
  {
    if |text| > MAX_DECODED then None
    else
      var encoded := VERSION + B.Encode(text);
      if |encoded| > MAX_ENCODED then None else Some(encoded)
  }

  predicate Ascii(s: string) { forall i :: 0 <= i < |s| ==> 0 < (s[i] as int) < 0x80 }

  /** Text the encoders can produce. */
  predicate Packable(text: string) {
    B.IsBytes(text) && Ascii(text) && '\\' !in text && 0 < |text| <= MAX_DECODED
  }

  lemma {:induction false} AsciiUtf8(s: string)
    requires Ascii(s)
    ensures Utf8Valid(s)
  {
    if s != "" { AsciiUtf8(s[1..]); }
  }

  lemma EncodedHasNoPad(s: string)
    requires B.IsBytes(s)
    ensures '=' !in B.Encode(s)
  {
    B.WrittenDigits(B.Sextets(s));
    forall i | 0 <= i < |B.Encode(s)| ensures B.Encode(s)[i] != '=' { assert B.Value(B.Encode(s)[i]).Some?; }
  }

  /** Printable text without backslashes, up to the decoded cap, survives packing; the cap
      on the encoded form then never applies. */
  lemma UnpackPack(text: string)
    requires Packable(text)
    ensures Pack(text).Some? && Unpack(Pack(text).value) == Some(text)
  {
    B.EncodedLength(text);
    B.DecodeEncode(text);
    EncodedHasNoPad(text);
    AsciiUtf8(text);
    var cursor := VERSION + B.Encode(text);
    assert cursor[..|VERSION|] == VERSION && cursor[|VERSION|..] == B.Encode(text);
    assert !HasNul(text);
    assert !Forbidden(text) by {
      forall i | 0 <= i < |text| - 5 ensures !ForbiddenAt(text, i) { assert text[i] in text; }
    }
    hide B.Encode, B.Decode, Utf8Valid, Forbidden, HasNul;
  }

  // ---- list cursors ----

  datatype ListCursor = ListCursor(entity: string, gateway: Option<string>, kind: Option<string>)

  const GATEWAY := "Gateway"
  const SENSOR := "Sensor"

  function Kind(u: Urn): string { if u.GatewayUrn? then GATEWAY else SENSOR }

  /** The filters match what the URN says of itself. */
  predicate Matches(u: Urn, gateway: Option<string>, kind: Option<string>) {
    (gateway.Some? ==> u.g == gateway.value) && (kind.Some? ==> Kind(u) == kind.value)
  }

  function OrNull(s: Option<string>): Value { if s.Some? then Text(s.value) else Null }
  function Lift(v: Value): Option<string> { if v.Text? then Some(v.text) else None }

  function ListMembers(k: string, gateway: Option<string>, kind: Option<string>): seq<(string, Value)> {
    [("k", Text(k)), ("g", OrNull(gateway)), ("t", OrNull(kind))]
  }

  const LIST_SHAPE := Shape({"k", "g", "t"}, true)
  const RELATION_SHAPE := Shape({"s", "r", "k"}, false)

  /** What a cursor's object looks like: plain members, few enough to fit. */
  lemma ShownMember(key: string, v: Value, rest: string, first: bool)
    requires Plain(key) && PlainValue(v) && Ascii(rest) && '\\' !in rest
    ensures var s := (if first then "" else ",") + ShowPair(key, v, rest);
      Ascii(s) && '\\' !in s && |s| == |key| + |Show(v)| + |rest| + (if first then 3 else 4)
  {
    var s := (if first then "" else ",") + ShowPair(key, v, rest);
    forall i | 0 <= i < |s| ensures 0 < (s[i] as int) < 0x80 && s[i] != '\\' {
      assert s[i] in key || s[i] in rest || s[i] in Show(v) || s[i] == '"' || s[i] == ':' || s[i] == ',';
    }
  }

  function ShownSize(ps: seq<(string, Value)>): nat {
    if ps == [] then 1 else |ps[0].0| + |Show(ps[0].1)| + 4 + ShownSize(ps[1..])
  }

  lemma {:induction false} ShownMembers(ps: seq<(string, Value)>, first: bool)
    requires forall i :: 0 <= i < |ps| ==> Plain(ps[i].0) && PlainValue(ps[i].1)
    ensures Ascii(ShowMembers(ps, first)) && '\\' !in ShowMembers(ps, first) && |ShowMembers(ps, first)| <= ShownSize(ps)
    decreases |ps|
  {
    if ps != [] {
      ShownMembers(ps[1..], false);
      ShownMember(ps[0].0, ps[0].1, ShowMembers(ps[1..], false), first);
    }
  }

  lemma BracedPackable(rest: string)
    requires Ascii(rest) && '\\' !in rest && |rest| < MAX_DECODED
    ensures Packable("{" + rest)
  {
    var text := "{" + rest;
    forall i | 0 <= i < |text| ensures 0 < (text[i] as int) < 0x80 && text[i] != '\\' {
      assert i > 0 ==> text[i] == rest[i - 1];
    }
  }

  lemma ShownPackable(ps: seq<(string, Value)>)
    requires (forall i :: 0 <= i < |ps| ==> Plain(ps[i].0) && PlainValue(ps[i].1)) && ShownSize(ps) < MAX_DECODED
    ensures Packable(ShowObject(ps))
  {
    hide ShowMembers, ShownSize, Packable, Ascii, Plain, PlainValue;
    ShownMembers(ps, true);
    BracedPackable(ShowMembers(ps, true));
  }

  /** A printed object of plain members that fits is packed, unpacked and read back. */
  lemma ObjectRoundTrip(shape: Shape, ps: seq<(string, Value)>)
    requires Fresh(shape, ps, map[]) && ShownSize(ps) < MAX_DECODED
    ensures var text := ShowObject(ps);
      && B.IsBytes(text) && Pack(text).Some? && Unpack(Pack(text).value) == Some(text)
      && ReadObject(shape, text) == Some(Extend(map[], ps))
  {
    ShownPackable(ps);
    assert B.IsBytes(ShowObject(ps));
    hide Packable, Pack, Unpack, ShowObject, ReadObject, ShownSize, Fresh;
    UnpackPack(ShowObject(ps));
    ReadShownObject(shape, ps);
  }

  lemma FreshThree(shape: Shape, a: (string, Value), b: (string, Value), c: (string, Value))
    requires Plain(a.0) && Plain(b.0) && Plain(c.0) && PlainValue(a.1) && PlainValue(b.1) && PlainValue(c.1)
    requires a.0 != b.0 && b.0 != c.0 && a.0 != c.0 && {a.0, b.0, c.0} <= shape.keys
    requires !shape.nullable ==> a.1.Text? && b.1.Text? && c.1.Text?
    ensures Fresh(shape, [a, b, c], map[])
  {
    hide Plain;
  }

  lemma PlainName(k: string)
    requires Parse(k).Some?
    ensures Plain(k) && Plain(Parse(k).value.g) && |k| <= 148 && |Parse(k).value.g| <= 64
  {
    PrintParse(k);
    Fits(Parse(k).value);
    PrintPlain(Parse(k).value);
    IdPlain(Parse(k).value.g);
  }

  lemma ListFits(k: string, gateway: Option<string>, kind: Option<string>)
    requires Parse(k).Some? && Matches(Parse(k).value, gateway, kind)
    ensures Fresh(LIST_SHAPE, ListMembers(k, gateway, kind), map[]) && ShownSize(ListMembers(k, gateway, kind)) < MAX_DECODED
    ensures B.IsBytes(ShowObject(ListMembers(k, gateway, kind)))
  {
    var ps := ListMembers(k, gateway, kind);
    assert kind.Some? ==> Plain(kind.value) && |kind.value| <= 7;
    assert Plain("k") && Plain("g") && Plain("t");
    hide Parse, Plain, ShownSize, Fresh, ShowObject;
    PlainName(k);
    ListSize(k, gateway, kind);
    FreshThree(LIST_SHAPE, ps[0], ps[1], ps[2]);
    ObjectRoundTrip(LIST_SHAPE, ps);
  }

  lemma ListSize(k: string, gateway: Option<string>, kind: Option<string>)
    requires |k| <= 148 && (gateway.Some? ==> |gateway.value| <= 64) && (kind.Some? ==> |kind.value| <= 7)
    ensures ShownSize(ListMembers(k, gateway, kind)) < MAX_DECODED
  {
    var ps := ListMembers(k, gateway, kind);
    assert ps[1..] == [ps[1], ps[2]] && ps[1..][1..] == [ps[2]] && ps[1..][1..][1..] == [];
    assert ShownSize([ps[2]]) == |ps[2].0| + |Show(ps[2].1)| + 4 + ShownSize([]);
  }

  /** EncodeListCursor. */
  function EncodeList(k: string, gateway: Option<string>, kind: Option<string>): Option<string> {
    var u := Parse(k);
    if u.None? || !Matches(u.value, gateway, kind) then None
    else
      ListFits(k, gateway, kind);
      Pack(ShowObject(ListMembers(k, gateway, kind)))
  }

  /** What DecodeListCursor makes of the members it collected. */
  function ListOf(m: map<string, Value>): Option<ListCursor> {
    if |m| != 3 || "k" !in m || "g" !in m || "t" !in m || !m["k"].Text? || Parse(m["k"].text).None? then None
    else if m["t"].Text? && m["t"].text != GATEWAY && m["t"].text != SENSOR then None
    else Some(ListCursor(m["k"].text, Lift(m["g"]), Lift(m["t"])))
  }

  function DecodeList(cursor: string): Option<ListCursor> {
    var b := Unpack(cursor);
    if b.None? then None
    else
      var m := ReadObject(LIST_SHAPE, b.value);
      if m.None? then None else ListOf(m.value)
  }

  /** ValidateListCursor. */
  predicate ValidateList(c: ListCursor, gateway: Option<string>, kind: Option<string>) {
    Parse(c.entity).Some? && c.gateway == gateway && c.kind == kind && Matches(Parse(c.entity).value, gateway, kind)
  }

  function ParseList(cursor: string, gateway: Option<string>, kind: Option<string>): Option<ListCursor> {
    var c := DecodeList(cursor);
    if c.None? || !ValidateList(c.value, gateway, kind) then None else c
  }

  lemma ThreeMembers(a: (string, Value), b: (string, Value), c: (string, Value))
    requires a.0 != b.0 && b.0 != c.0 && a.0 != c.0
    ensures Extend(map[], [a, b, c]) == map[a.0 := a.1, b.0 := b.1, c.0 := c.1]
    ensures |Extend(map[], [a, b, c])| == 3
  {
    assert [a, b, c][1..] == [b, c] && [b, c][1..] == [c];
    assert Extend(map[a.0 := a.1, b.0 := b.1], [c]) == map[a.0 := a.1, b.0 := b.1][c.0 := c.1];
    var m := map[a.0 := a.1, b.0 := b.1, c.0 := c.1];
    assert m.Keys == {a.0, b.0, c.0};
    assert |m| == |m.Keys|;
  }

  /** A cursor can be made exactly for a valid URN that matches the filters (no size cap ever
      refuses one), and decoding gives back the key and the filters it was made for. */
  lemma ListRoundTrip(k: string, gateway: Option<string>, kind: Option<string>)
    ensures EncodeList(k, gateway, kind).Some? <==> Parse(k).Some? && Matches(Parse(k).value, gateway, kind)
    ensures EncodeList(k, gateway, kind).Some? ==>
      DecodeList(EncodeList(k, gateway, kind).value) == Some(ListCursor(k, gateway, kind))
    ensures EncodeList(k, gateway, kind).Some? ==>
      ParseList(EncodeList(k, gateway, kind).value, gateway, kind) == Some(ListCursor(k, gateway, kind))
  {
    if Parse(k).Some? && Matches(Parse(k).value, gateway, kind) {
      ListFits(k, gateway, kind);
      ListOfMembers(k, gateway, kind);
      hide Parse, Unpack, Pack, ReadObject, ShowObject, Fresh, ShownSize, ListOf, ListMembers, Extend;
      ObjectRoundTrip(LIST_SHAPE, ListMembers(k, gateway, kind));
    }
  }

  lemma ListOfMembers(k: string, gateway: Option<string>, kind: Option<string>)
    requires Parse(k).Some? && Matches(Parse(k).value, gateway, kind)
    ensures ListOf(Extend(map[], ListMembers(k, gateway, kind))) == Some(ListCursor(k, gateway, kind))
  {
    var ps := ListMembers(k, gateway, kind);
    ThreeMembers(ps[0], ps[1], ps[2]);
    hide Parse, Extend;
  }

  /** Whatever string is accepted, the result is bound to the request's filters and could
      have been issued for them. */
  lemma ParseListBinds(cursor: string, gateway: Option<string>, kind: Option<string>)
    requires ParseList(cursor, gateway, kind).Some?
    ensures var c := ParseList(cursor, gateway, kind).value;
      c == ListCursor(c.entity, gateway, kind) && EncodeList(c.entity, gateway, kind).Some?
  {
    ListRoundTrip(ParseList(cursor, gateway, kind).value.entity, gateway, kind);
  }

  // ---- relationship cursors ----

  datatype RelationCursor = RelationCursor(source: string, target: string)

  const HAS_SENSOR := "hasSensor"

  function RelationMembers(source: string, target: string): seq<(string, Value)> {
    [("s", Text(source)), ("r", Text(HAS_SENSOR)), ("k", Text(target))]
  }

  /** A gateway URN and a sensor URN of that gateway. */
  predicate Linked(source: string, target: string) {
    var s, t := Parse(source), Parse(target);
    s.Some? && s.value.GatewayUrn? && t.Some? && t.value.SensorUrn? && t.value.g == s.value.g
  }

  lemma RelationSize(source: string, target: string)
    requires |source| <= 148 && |target| <= 148
    ensures ShownSize(RelationMembers(source, target)) < MAX_DECODED
  {
    var ps := RelationMembers(source, target);
    assert ps[1..] == [ps[1], ps[2]] && ps[1..][1..] == [ps[2]] && ps[1..][1..][1..] == [];
    assert ShownSize([ps[2]]) == |ps[2].0| + |Show(ps[2].1)| + 4 + ShownSize([]);
  }

  lemma RelationFits(source: string, target: string)
    requires Linked(source, target)
    ensures Fresh(RELATION_SHAPE, RelationMembers(source, target), map[]) && ShownSize(RelationMembers(source, target)) < MAX_DECODED
    ensures B.IsBytes(ShowObject(RelationMembers(source, target)))
  {
    var ps := RelationMembers(source, target);
    assert Plain("s") && Plain("r") && Plain("k") && Plain(HAS_SENSOR);
    hide Parse, Plain, ShownSize, Fresh, ShowObject;
    PlainName(source);
    PlainName(target);
    RelationSize(source, target);
    FreshThree(RELATION_SHAPE, ps[0], ps[1], ps[2]);
    ObjectRoundTrip(RELATION_SHAPE, ps);
  }

  /** EncodeRelationshipCursor. */
  function EncodeRelation(source: string, kind: string, target: string): Option<string> {
    if kind != HAS_SENSOR || !Linked(source, target) then None
    else
      RelationFits(source, target);
      Pack(ShowObject(RelationMembers(source, target)))
  }

  function RelationOf(m: map<string, Value>): Option<RelationCursor> {
    if |m| != 3 || "s" !in m || "r" !in m || "k" !in m || !m["s"].Text? || !m["k"].Text? || m["r"] != Text(HAS_SENSOR) then None
    else if !Linked(m["s"].text, m["k"].text) then None
    else Some(RelationCursor(m["s"].text, m["k"].text))
  }

  function DecodeRelation(cursor: string): Option<RelationCursor> {
    var b := Unpack(cursor);
    if b.None? then None
    else
      var m := ReadObject(RELATION_SHAPE, b.value);
      if m.None? then None else RelationOf(m.value)
  }

  function ParseRelation(cursor: string, source: string): Option<RelationCursor> {
    var c := DecodeRelation(cursor);
    if c.None? || c.value.source != source then None else c
  }

  lemma RelationRoundTrip(source: string, kind: string, target: string)
    ensures EncodeRelation(source, kind, target).Some? <==> kind == HAS_SENSOR && Linked(source, target)
    ensures EncodeRelation(source, kind, target).Some? ==>
      ParseRelation(EncodeRelation(source, kind, target).value, source) == Some(RelationCursor(source, target))
  {
    if kind == HAS_SENSOR && Linked(source, target) {
      RelationFits(source, target);
      RelationOfMembers(source, target);
      hide Linked, Unpack, Pack, ReadObject, ShowObject, Fresh, ShownSize, RelationOf, RelationMembers, Extend;
      ObjectRoundTrip(RELATION_SHAPE, RelationMembers(source, target));
    }
  }

  lemma RelationOfMembers(source: string, target: string)
    requires Linked(source, target)
    ensures RelationOf(Extend(map[], RelationMembers(source, target))) == Some(RelationCursor(source, target))
  {
    var ps := RelationMembers(source, target);
    ThreeMembers(ps[0], ps[1], ps[2]);
    hide Linked, Extend;
  }

  /** Whatever string is accepted for a source, it names a sensor of that gateway. */
  lemma ParseRelationBinds(cursor: string, source: string)
    requires ParseRelation(cursor, source).Some?
    ensures ParseRelation(cursor, source).value.source == source && Linked(source, ParseRelation(cursor, source).value.target)
  {}

  // ---- the decoders as they run ----

  /** decodeCursorBytes: what it hands out is small, well-formed text without NUL or the
      escapes that would smuggle one in, and packed text comes back unchanged. */
  method UnpackCursor(cursor: string) returns (r: Option<string>)
    ensures r == Unpack(cursor)
    ensures r.Some? ==> |r.value| <= MAX_DECODED && Utf8Valid(r.value) && !HasNul(r.value) && !Forbidden(r.value)
    ensures forall text :: Packable(text) && Pack(text) == Some(cursor) ==> r == Some(text)
  {
    forall text | Packable(text) && Pack(text) == Some(cursor) ensures Unpack(cursor) == Some(text) { UnpackPack(text); }
    if |cursor| > MAX_ENCODED || !HasPrefix(cursor, VERSION) { return None; }
    var encoded := cursor[|VERSION|..];
    if encoded == "" || '=' in encoded { return None; }
    var b := B.Decode(encoded);
    if b.None? || |b.value| > MAX_DECODED || !Utf8Valid(b.value) || HasNul(b.value) { return None; }
    var bad := HasForbiddenEscapes(b.value);
    return if bad then None else b;
  }

  /** DecodeListCursor: whatever it returns was checked, and it undoes EncodeListCursor. */
  method DecodeListCursor(cursor: string) returns (r: Option<ListCursor>)
    ensures r == DecodeList(cursor)
    ensures r.Some? ==> Parse(r.value.entity).Some? && (r.value.kind.Some? ==> r.value.kind.value in {GATEWAY, SENSOR})
    ensures forall k, g, t :: EncodeList(k, g, t) == Some(cursor) ==> r == Some(ListCursor(k, g, t))
  {
    var b := UnpackCursor(cursor);
    if b.None? {
      r := None;
    } else {
      var m := DecodeObject(LIST_SHAPE, b.value);
      r := if m.None? then None else ListOf(m.value);
    }
    assert r == DecodeList(cursor);
    forall k, g, t | EncodeList(k, g, t) == Some(cursor) ensures r == Some(ListCursor(k, g, t)) { ListRoundTrip(k, g, t); }
  }

  /** DecodeRelationshipCursor. */
  method DecodeRelationshipCursor(cursor: string) returns (r: Option<RelationCursor>)
    ensures r == DecodeRelation(cursor)
    ensures r.Some? ==> Linked(r.value.source, r.value.target)
    ensures forall s, k :: EncodeRelation(s, HAS_SENSOR, k) == Some(cursor) ==> r == Some(RelationCursor(s, k))
  {
    var b := UnpackCursor(cursor);
    if b.None? {
      r := None;
    } else {
      var m := DecodeObject(RELATION_SHAPE, b.value);
      r := if m.None? then None else RelationOf(m.value);
    }
    assert r == DecodeRelation(cursor);
    forall s, k | EncodeRelation(s, HAS_SENSOR, k) == Some(cursor) ensures r == Some(RelationCursor(s, k)) { RelationRoundTrip(s, HAS_SENSOR, k); }
  }
}
