/** The application ACK path of ack.go: the strict parser and the single worker.

    encoding/json, google/uuid and time.Parse are not modelled: a payload is the
    document the decoder yields, and the two library parsers are parameters. */
module Ack {
  import opened Wrappers
  import opened Outbox
  import opened Text

  predicate NoSlash(s: string) { Lacks(s, '/') }

  const NIL: MessageId := 0

  /** The UUID and time libraries, as far as the parser uses them. */
  datatype Library = Library(
    parse: string -> Option<MessageId>,
    text: MessageId -> string,
    rfc4122: MessageId -> bool,
    version: MessageId -> nat,
    rfc3339: string -> bool,
    zeroTime: string -> bool)
  {
    /** uuid.UUID.String is canonical: it parses back and holds no slash. */
    ghost predicate Lawful() {
      forall u: MessageId :: parse(text(u)) == Some(u) && NoSlash(text(u))
    }
  }

  function ParseOwnTopic(lib: Library, topic: string, gateway: string): Option<MessageId> {
    var parts := Split(topic, '/');
    if |parts| != 4 || parts[0] != "gateways" || parts[2] != "acks" || parts[1] != gateway then None
    else
      var id := lib.parse(parts[3]);
      if id.None? || id.value == NIL || lib.text(id.value) != parts[3] then None else id
  }

  function OwnTopic(lib: Library, gateway: string, u: MessageId): string {
    Join(["gateways", gateway, "acks", lib.text(u)], '/')
  }

  /** The parser accepts exactly the one topic of each id: no other spelling of the id,
      no other gateway, no extra segment. */
  lemma TopicExact(lib: Library, topic: string, gateway: string, u: MessageId)
    requires lib.Lawful() && NoSlash(gateway)
    ensures ParseOwnTopic(lib, topic, gateway) == Some(u) <==> u != NIL && topic == OwnTopic(lib, gateway, u)
  {
    JoinSplit(topic, '/');
    SplitJoin(["gateways", gateway, "acks", lib.text(u)], '/');
    if ParseOwnTopic(lib, topic, gateway) == Some(u) {
      assert Split(topic, '/') == ["gateways", gateway, "acks", lib.text(u)];
    }
  }

  // ----- payloads -----

  /** A member name: one of the five v1 field names, or any other text. */
  datatype Name = ProtocolVersion | MessageType | MessageIdent | Status | CommittedAt | Unknown(text: string)

  datatype Value = Text(s: string) | Number(literal: string) | Null | Other

  /** What the JSON decoder makes of a payload: no object at all, or the members in
      order and whether anything follows the object. */
  datatype Document = NoObject | Object(members: seq<(Name, Value)>, trailing: bool)

  datatype Payload = Payload(size: nat, doc: Document)

  const FIELDS: set<Name> := {ProtocolVersion, MessageType, MessageIdent, Status, CommittedAt}

  function Names(members: seq<(Name, Value)>): seq<Name> {
    if members == [] then [] else Names(members[..|members| - 1]) + [members[|members| - 1].0]
  }

  /** The five v1 fields, each exactly once, and nothing else. */
  ghost predicate ExactObject(doc: Document) {
    doc.Object? && !doc.trailing && multiset(Names(doc.members)) == multiset(FIELDS)
  }

  ghost predicate Collected(members: seq<(Name, Value)>, fields: map<Name, Value>) {
    && multiset(Names(members)) == multiset(fields.Keys)
    && forall i :: 0 <= i < |members| ==> members[i].0 in fields && fields[members[i].0] == members[i].1
  }

  lemma CollectOne(members: seq<(Name, Value)>, fields: map<Name, Value>, k: nat)
    requires k < |members| && Collected(members[..k], fields) && members[k].0 !in fields
    ensures Collected(members[..k + 1], fields[members[k].0 := members[k].1])
  {
    assert members[..k + 1][..k] == members[..k];
    assert fields[members[k].0 := members[k].1].Keys == fields.Keys + {members[k].0};
    forall i | 0 <= i < k ensures members[i].0 in fields && fields[members[i].0] == members[i].1 {
      assert members[..k][i] == members[i];
    }
  }

  lemma {:induction false} NamesPrefix(members: seq<(Name, Value)>, k: nat)
    requires k <= |members|
    ensures multiset(Names(members[..k])) <= multiset(Names(members))
    decreases |members|
  {
    if k == |members| {
      assert members[..k] == members;
    } else {
      NamesPrefix(members[..|members| - 1], k);
      assert members[..|members| - 1][..k] == members[..k];
    }
  }

  lemma {:induction false} NameInside(members: seq<(Name, Value)>, k: nat)
    requires k < |members|
    ensures members[k].0 in multiset(Names(members))
  {
    NamesPrefix(members, k + 1);
    assert members[..k + 1][..k] == members[..k];
    assert Names(members[..k + 1]) == Names(members[..k]) + [members[k].0];
    assert members[k].0 in multiset(Names(members[..k + 1]));
  }

  /** decodeACKObject: fills the map member by member; an unknown or repeated name, a
      missing field or a trailing document rejects. */
  method DecodeObject(doc: Document) returns (r: Option<map<Name, Value>>)
    ensures r.Some? <==> ExactObject(doc)
    ensures r.Some? ==> r.value.Keys == FIELDS && Collected(doc.members, r.value)
  {
    if doc.NoObject? { return None; }
    var fields: map<Name, Value> := map[];
    var k := 0;
    while k < |doc.members|
      invariant k <= |doc.members| && fields.Keys <= FIELDS && Collected(doc.members[..k], fields)
    {
      var name := doc.members[k].0;
      if name !in FIELDS {
        NameInside(doc.members, k);
        return None;
      }
      if name in fields {
        Repeated(doc.members, fields, k);
        return None;
      }
      CollectOne(doc.members, fields, k);
      fields := fields[name := doc.members[k].1];
      k := k + 1;
    }
    assert doc.members[..k] == doc.members;
    if |fields| != |FIELDS| || doc.trailing {
      if fields.Keys == FIELDS { assert |fields.Keys| == |FIELDS|; }
      else if ExactObject(doc) { SameSupport(fields.Keys, FIELDS); }
      return None;
    }
    SubsetFull(fields.Keys, FIELDS);
    r := Some(fields);
  }

  lemma Repeated(members: seq<(Name, Value)>, fields: map<Name, Value>, k: nat)
    requires k < |members| && Collected(members[..k], fields) && members[k].0 in fields
    ensures multiset(Names(members))[members[k].0] >= 2
  {
    NamesPrefix(members, k + 1);
    assert members[..k + 1][..k] == members[..k];
    assert Names(members[..k + 1]) == Names(members[..k]) + [members[k].0];
    assert multiset(fields.Keys)[members[k].0] == 1;
  }

  lemma SameSupport<T>(a: set<T>, b: set<T>)
    requires multiset(a) == multiset(b)
    ensures a == b
  {
    assert forall x :: x in a <==> x in multiset(a);
    assert forall x :: x in b <==> x in multiset(b);
  }

  lemma {:induction false} SubsetFull<T>(a: set<T>, b: set<T>)
    requires a <= b && |a| == |b|
    ensures a == b
  {
    assert b == a + (b - a);
    assert |b| == |a| + |b - a|;
  }

  const MAX_ACK_BYTES := 1024

  /** The value of a member, looked up by name. */
  function Member(members: seq<(Name, Value)>, name: Name): Value {
    if members == [] then Null
    else if members[|members| - 1].0 == name then members[|members| - 1].1
    else Member(members[..|members| - 1], name)
  }

  /** What the documentation of ParseCommitACK asks of an ACK for `u`. */
  ghost predicate StrictAck(lib: Library, topic: string, payload: Payload, gateway: string, u: MessageId) {
    && payload.size <= MAX_ACK_BYTES
    && u != NIL && topic == OwnTopic(lib, gateway, u)
    && ExactObject(payload.doc)
    && var at := Member(payload.doc.members, CommittedAt);
       var id := Member(payload.doc.members, MessageIdent);
    && Member(payload.doc.members, ProtocolVersion) == Number("1")
    && Member(payload.doc.members, MessageType) == Text("telemetry_ack")
    && Member(payload.doc.members, Status) == Text("committed")
    && id.Text? && lib.parse(id.s) == Some(u) && lib.rfc4122(u) && (lib.version(u) == 4 || lib.version(u) == 7)
    && at.Text? && lib.rfc3339(at.s) && !lib.zeroTime(at.s) && at.s != "" && at.s[|at.s| - 1] == 'Z'
  }

  lemma {:induction false} MemberFound(members: seq<(Name, Value)>, name: Name)
    requires name in multiset(Names(members))
    ensures (name, Member(members, name)) in members
  {
    var n := |members| - 1;
    if members[n].0 != name { MemberFound(members[..n], name); }
  }

  lemma MemberIsField(members: seq<(Name, Value)>, f: map<Name, Value>, name: Name)
    requires Collected(members, f) && name in f
    ensures Member(members, name) == f[name]
  {
    assert name in multiset(f.Keys);
    MemberFound(members, name);
  }

  // ----- a strict ACK, read off the document -----

  lemma {:induction false} NamesAre(members: seq<(Name, Value)>)
    ensures |Names(members)| == |members| && forall i :: 0 <= i < |members| ==> Names(members)[i] == members[i].0
  {
    if members != [] { NamesAre(members[..|members| - 1]); }
  }

  lemma {:induction false} Twice(names: seq<Name>, i: nat, j: nat)
    requires i < j < |names| && names[i] == names[j]
    ensures multiset(names)[names[i]] >= 2
  {
    assert names == names[..i] + [names[i]] + names[i + 1..];
    assert names[i + 1..][j - i - 1] == names[i];
    assert names[i] in multiset(names[i + 1..]);
  }

  lemma SameMultiset(a: multiset<Name>, b: multiset<Name>)
    requires a <= b && |a| == |b|
    ensures a == b
  {
    assert b == a + (b - a);
    assert |b - a| == 0;
  }

  lemma FiveFields()
    ensures FIELDS == {ProtocolVersion, MessageType, MessageIdent, Status, CommittedAt} && |multiset(FIELDS)| == 5
  {}

  /** Five members under the five names: each once. */
  lemma ExactlyFive(members: seq<(Name, Value)>)
    ensures multiset(Names(members)) == multiset(FIELDS) <==> |members| == 5 && forall f :: f in FIELDS ==> f in Names(members)
  {
    NamesAre(members);
    FiveFields();
    var names := Names(members);
    hide Names;
    assert |multiset(names)| == |names|;
    if |members| == 5 && forall f :: f in FIELDS ==> f in names {
      forall f | f in FIELDS ensures f in multiset(names) {}
      SameMultiset(multiset(FIELDS), multiset(names));
    }
    if multiset(names) == multiset(FIELDS) {
      forall f | f in FIELDS ensures f in names { assert f in multiset(names); }
    }
  }

  /** Among members of distinct names the value of one is the one it stands with. */
  lemma MemberIs(members: seq<(Name, Value)>, name: Name, v: Value)
    requires multiset(Names(members)) == multiset(FIELDS) && name in FIELDS
    ensures (name, v) in members <==> Member(members, name) == v
  {
    assert name in multiset(Names(members));
    MemberFound(members, name);
    NamesAre(members);
    if (name, v) in members && Member(members, name) != v {
      var i :| 0 <= i < |members| && members[i] == (name, v);
      var j :| 0 <= j < |members| && members[j] == (name, Member(members, name));
      Twice(Names(members), if i < j then i else j, if i < j then j else i);
      assert false;
    }
  }

  /** An ACK for `u` is strict exactly if: it is at most 1024 bytes; its topic is the one of the
      own gateway and `u`; its document is one object of five members and nothing after it,
      which say version 1, telemetry_ack, committed, some spelling of `u` and an instant; `u`
      is an RFC 4122 UUID of version 4 or 7, and the instant is in UTC and not the zero time. */
  lemma StrictMeans(lib: Library, topic: string, payload: Payload, gateway: string, u: MessageId)
    ensures StrictAck(lib, topic, payload, gateway, u) <==>
      && payload.size <= 1024 && u != 0 && topic == "gateways/" + gateway + "/acks/" + lib.text(u)
      && payload.doc.Object? && !payload.doc.trailing && |payload.doc.members| == 5
      && (ProtocolVersion, Number("1")) in payload.doc.members
      && (MessageType, Text("telemetry_ack")) in payload.doc.members
      && (Status, Text("committed")) in payload.doc.members
      && (exists id :: (MessageIdent, Text(id)) in payload.doc.members && lib.parse(id) == Some(u))
      && lib.rfc4122(u) && lib.version(u) in {4, 7}
      && (exists at :: (CommittedAt, Text(at)) in payload.doc.members && Instant(lib, at))
  {
    TopicText(lib, gateway, u);
    if payload.doc.Object? && !payload.doc.trailing {
      var ms := payload.doc.members;
      ExactlyFive(ms);
      if multiset(Names(ms)) == multiset(FIELDS) {
        var id, at := Member(ms, MessageIdent), Member(ms, CommittedAt);
        forall name, v | name in FIELDS ensures (name, v) in ms <==> Member(ms, name) == v { MemberIs(ms, name, v); }
        hide Names, Member, OwnTopic;
      } else {
        FiveNames(ms);
        hide Names, Member, OwnTopic;
      }
    }
  }

  /** A UTC instant other than the zero time. */
  predicate Instant(lib: Library, at: string) { lib.rfc3339(at) && !lib.zeroTime(at) && at != "" && at[|at| - 1] == 'Z' }

  lemma FiveNames(ms: seq<(Name, Value)>)
    requires !(|ms| == 5 && forall f :: f in FIELDS ==> f in Names(ms))
    ensures forall a, b, c, d, e :: !(|ms| == 5 && (ProtocolVersion, a) in ms && (MessageType, b) in ms && (Status, c) in ms && (MessageIdent, d) in ms && (CommittedAt, e) in ms)
  {
    NamesAre(ms);
    hide Names;
    forall a, b, c, d, e | (ProtocolVersion, a) in ms && (MessageType, b) in ms && (Status, c) in ms && (MessageIdent, d) in ms && (CommittedAt, e) in ms
      ensures forall f :: f in FIELDS ==> f in Names(ms)
    {
      NameOf(ms, ProtocolVersion, a);
      NameOf(ms, MessageType, b);
      NameOf(ms, Status, c);
      NameOf(ms, MessageIdent, d);
      NameOf(ms, CommittedAt, e);
    }
  }

  lemma NameOf(ms: seq<(Name, Value)>, name: Name, v: Value)
    requires (name, v) in ms
    ensures name in Names(ms)
  {
    NamesAre(ms);
    var i :| 0 <= i < |ms| && ms[i] == (name, v);
    assert Names(ms)[i] == name;
  }

  lemma TopicText(lib: Library, gateway: string, u: MessageId)
    ensures OwnTopic(lib, gateway, u) == "gateways/" + gateway + "/acks/" + lib.text(u)
  {
    var p := ["gateways", gateway, "acks", lib.text(u)];
    assert p[1..] == [gateway, "acks", lib.text(u)] && p[1..][1..] == ["acks", lib.text(u)] && p[1..][1..][1..] == [lib.text(u)];
    var x := lib.text(u);
    assert Join([x], '/') == x;
    assert Join(["acks", x], '/') == "acks" + ['/'] + x == "acks/" + x;
    assert Join([gateway, "acks", x], '/') == gateway + ['/'] + ("acks/" + x);
    assert Join(p, '/') == "gateways" + ['/'] + (gateway + ['/'] + ("acks/" + x));
  }

  /** ParseCommitACK, check by check: it yields `u` exactly when the ACK is strict for `u`. */
  method ParseCommitAck(lib: Library, topic: string, payload: Payload, gateway: string) returns (r: Option<MessageId>)
    requires lib.Lawful() && NoSlash(gateway)
    ensures forall u: MessageId :: r == Some(u) <==> StrictAck(lib, topic, payload, gateway, u)
  {
    if payload.size > MAX_ACK_BYTES { return None; }
    var topicId := ParseOwnTopic(lib, topic, gateway);
    if topicId.None? {
      forall u: MessageId ensures !StrictAck(lib, topic, payload, gateway, u) { TopicExact(lib, topic, gateway, u); }
      return None;
    }
    var decoded := DecodeObject(payload.doc);
    if decoded.None? { return None; }
    var f := decoded.value;
    forall u: MessageId ensures topicId == Some(u) <==> u != NIL && topic == OwnTopic(lib, gateway, u) { TopicExact(lib, topic, gateway, u); }
    forall name | name in f ensures Member(payload.doc.members, name) == f[name] { MemberIsField(payload.doc.members, f, name); }
    hide ParseOwnTopic, OwnTopic, Collected, ExactObject, Member;
    if f[Name.ProtocolVersion] != Number("1") { return None; }
    if f[Name.MessageType] != Text("telemetry_ack") { return None; }
    if f[Name.Status] != Text("committed") { return None; }
    if !f[Name.MessageIdent].Text? { return None; }
    var id := lib.parse(f[Name.MessageIdent].s);
    if id.None? || id.value == NIL || !lib.rfc4122(id.value) || (lib.version(id.value) != 4 && lib.version(id.value) != 7) { return None; }
    if id != topicId { return None; }
    if !f[Name.CommittedAt].Text? { return None; }
    var at := f[Name.CommittedAt].s;
    if !lib.rfc3339(at) || at == "" || at[|at| - 1] != 'Z' || lib.zeroTime(at) { return None; }
    r := id;
  }
}
