/** The two cores together: every graph the transactions can reach is listed page by page
    without a failure, and the pages show exactly the graph. */
module GraphPaging {
  import opened Wrappers
  import opened Text
  import opened Graph
  import opened GraphRuns
  import opened GraphSafety
  import opened GraphTheorems
  import opened Identity
  import opened Cursor
  import opened Paging

  // ---- ids stay valid ----

  ghost predicate ValidIds(db: Db) { forall u :: u in db.twins ==> ValidUrn(u) }

  /** The ids a call names were validated before its transaction began. */
  predicate ValidCall(c: Call) {
    ValidGatewayId(c.g) && (c.NewSensor? || c.EditSensor? ==> ValidId(c.s))
  }

  ghost predicate ValidCalls(s: State) { ValidIds(s.db) && forall t :: t in s.txns ==> ValidCall(s.txns[t].call) }

  predicate Validated(a: Action) { a.Call? ==> ValidCall(a.call) }

  /** A call adds no twin but the one of its own entity. */
  lemma ExpectedTwins(db: Db, c: Call, started: Time, now: Time)
    requires WellFormed(db)
    ensures forall u :: u in Expected(db, c, started, now).db.twins ==> u in db.twins || u == GatewayUrn(c.g) || ((c.NewSensor? || c.EditSensor?) && u == SensorUrn(c.g, c.s))
  {
    hide WellFormed, Owners, Access;
  }

  lemma KeepValidCalls(db: Db, s: State, a: Action)
    requires Inv(db, s) && Enabled(s, a) && ValidCalls(s) && Validated(a)
    ensures ValidCalls(Next(s, a))
  {
    match a
    case Run(t) => RunKeepsCalls(s, t);
    case End(t, fate) =>
      var tx := s.txns[t];
      assert TxnOk(s, tx);
      CommitMatches(s.db, tx);
      ExpectedTwins(s.db, tx.call, tx.started, tx.at);
      hide Inv, Facts, Apply, Expected, ValidGatewayId, ValidId;
    case _ => hide Inv, ValidGatewayId, ValidId;
  }

  lemma RunKeepsCalls(s: State, t: nat)
    requires Enabled(s, Run(t)) && ValidCalls(s)
    ensures ValidCalls(Next(s, Run(t)))
  {
    hide Statement, Locking, ValidGatewayId, ValidId;
    var l := Locking(s.db, s.txns[t]);
    LockingCall(s.db, s.txns[t]);
    if Statement(s.db, s.clock, l).Go? { StepLocks(s.db, s.clock, l); }
  }

  ghost predicate AllValidated(actions: seq<Action>) { forall i :: 0 <= i < |actions| ==> Validated(actions[i]) }

  lemma {:induction false} PathKeepsIds(db: Db, s: State, actions: seq<Action>, t: State)
    requires Inv(db, s) && ValidCalls(s) && AllValidated(actions) && Path(s, actions, t)
    ensures ValidCalls(t) && Inv(db, t)
    decreases |actions|
  {
    if actions != [] {
      assert Validated(actions[0]) && AllValidated(actions[1..]);
      hide Inv, Next, Enabled, ValidCalls, Validated;
      KeepInv(db, s, actions[0]);
      KeepValidCalls(db, s, actions[0]);
      PathKeepsIds(db, Next(s, actions[0]), actions[1..], t);
    }
  }

  // ---- a graph as the tables the reader queries ----

  function RowOf(db: Db, u: Urn): Row
    requires u in db.twins
  {
    Row(Print(u), if db.twins[u].isGateway then GATEWAY else SENSOR, db.twins[u].gateway)
  }

  ghost predicate ShowsRows(db: Db, rows: seq<Row>) {
    && (forall u :: u in db.twins ==> RowOf(db, u) in rows)
    && (forall r :: r in rows ==> exists u :: u in db.twins && r == RowOf(db, u))
  }

  ghost predicate TableOf(db: Db, t: Table) {
    && Ordered(t.rows) && ShowsRows(db, t.rows)
    && t.members == db.members.Keys && t.gateways == db.gateways.Keys && t.sensors == db.sensors.Keys
    && t.edges == set e | e in db.edges :: (Print(e.0), Print(e.1))
  }

  lemma RowsCanonical(db: Db, rows: seq<Row>)
    requires WellFormed(db) && ValidIds(db) && ShowsRows(db, rows)
    ensures forall r :: r in rows ==> Canonical(r)
  {
    WellScoped(db);
    hide WellFormed, Parse, Print;
    forall r | r in rows ensures Canonical(r) {
      var u :| u in db.twins && r == RowOf(db, u);
      ParsePrint(u);
    }
  }

  /** No reachable graph makes a page fail: every listing, for every caller, filter and limit,
      and the relationships of every gateway, break only at ids a cursor can carry. */
  lemma ReachableGraphsPage(db: Db, clock: Time, actions: seq<Action>, s: State, t: Table)
    requires WellFormed(db) && ValidIds(db) && Timely(db, clock)
    requires AllValidated(actions) && Path(Rest(db, clock), actions, s) && TableOf(s.db, t)
    ensures WellFormed(s.db) && ValidIds(s.db)
    ensures forall actor, f, limit: nat :: limit > 0 ==> Breakable(Listing(t, Owned(actor, f)), limit, ByList(f))
    ensures forall g, limit: nat :: g in s.db.gateways && limit > 0 ==> Breakable(Listing(t, LinkedFrom(Print(GatewayUrn(g)), g)), limit, BySource(Print(GatewayUrn(g))))
  {
    RestInv(db, clock);
    PathKeepsIds(db, Rest(db, clock), actions, s);
    assert WellFormed(s.db) && ValidIds(s.db);
    hide Inv, Path, AllValidated, Timely;
    RowsCanonical(s.db, t.rows);
    forall actor, f, limit: nat | limit > 0 ensures Breakable(Listing(t, Owned(actor, f)), limit, ByList(f)) {
      CanonicalBreakable(t, actor, f, limit);
    }
    forall g, limit: nat | g in s.db.gateways && limit > 0
      ensures Breakable(Listing(t, LinkedFrom(Print(GatewayUrn(g)), g)), limit, BySource(Print(GatewayUrn(g))))
    {
      CanonicalGateway(s.db, g);
      assert RowOf(s.db, GatewayUrn(g)) in t.rows;
      LinkedBreakable(t, Print(GatewayUrn(g)), g, limit);
    }
  }

  lemma CanonicalGateway(db: Db, g: Id)
    requires WellFormed(db) && g in db.gateways
    ensures GatewayUrn(g) in db.twins && RowOf(db, GatewayUrn(g)) == Row(Print(GatewayUrn(g)), GATEWAY, g)
  {
    assert GatewayOk(db, g);
  }

  // ---- such tables exist ----

  lemma {:induction false} InsertRow(rows: seq<Row>, r: Row) returns (out: seq<Row>)
    requires Ordered(rows) && forall x :: x in rows ==> x.id != r.id
    ensures Ordered(out) && forall x :: x in out <==> x in rows || x == r
  {
    if rows == [] {
      out := [r];
    } else {
      LessTotal(r.id, rows[0].id);
      assert rows == [rows[0]] + rows[1..];
      if Less(r.id, rows[0].id) {
        out := [r] + rows;
        forall x | x in rows ensures Less(r.id, x.id) {
          if x != rows[0] { LessAfter(rows, x); LessTransitive(r.id, rows[0].id, x.id); }
        }
      } else {
        var rest := InsertRow(rows[1..], r);
        out := [rows[0]] + rest;
        forall x | x in rest ensures Less(rows[0].id, x.id) {
          if x != r { LessAfter(rows, x); }
        }
      }
    }
  }

  lemma LessAfter(rows: seq<Row>, x: Row)
    requires Ordered(rows) && rows != [] && x in rows[1..]
    ensures Less(rows[0].id, x.id)
  {
    var i :| 0 <= i < |rows| - 1 && rows[1..][i] == x;
    assert rows[i + 1] == x;
  }

  lemma {:induction false} RowsOf(db: Db, us: set<Urn>) returns (rows: seq<Row>)
    requires ValidIds(db) && us <= db.twins.Keys
    ensures Ordered(rows)
    ensures forall r :: r in rows <==> exists u :: u in us && r == RowOf(db, u)
  {
    if us == {} {
      rows := [];
    } else {
      var u :| u in us;
      var rest := RowsOf(db, us - {u});
      forall x | x in rest ensures x.id != Print(u) {
        var v :| v in us - {u} && x == RowOf(db, v);
        if Print(v) == Print(u) { PrintInjective(u, v); }
      }
      hide Ordered, Print;
      rows := InsertRow(rest, RowOf(db, u));
    }
  }

  lemma TableExists(db: Db) returns (t: Table)
    requires ValidIds(db)
    ensures TableOf(db, t)
  {
    var rows := RowsOf(db, db.twins.Keys);
    t := Table(rows, db.members.Keys, db.gateways.Keys, set e | e in db.edges :: (Print(e.0), Print(e.1)), db.sensors.Keys);
  }

  // ---- what the pages show ----

  /** The caller is a member of the twin's gateway and the twin passes the filters. */
  predicate MayList(db: Db, actor: User, f: Filters, u: Urn)
    requires u in db.twins
  {
    && (actor, db.twins[u].gateway) in db.members
    && (f.gateway.Some? ==> db.twins[u].gateway == f.gateway.value)
    && (f.kind.Some? ==> f.kind.value == if db.twins[u].isGateway then GATEWAY else SENSOR)
  }

  /** Following the list cursors over a well-formed graph with valid ids always succeeds and
      shows exactly the twins the caller may list, each once, in byte order. */
  method ListTwins(db: Db, t: Table, actor: User, limit: int, f: Filters) returns (all: seq<Row>, pages: nat)
    requires WellFormed(db) && ValidIds(db) && TableOf(db, t) && ValidQuery(limit, f)
    ensures Ordered(all) && pages == PageCount(|all|, Limit(limit))
    ensures forall r :: r in all <==> exists u :: u in db.twins && MayList(db, actor, f, u) && r == RowOf(db, u)
  {
    hide WellFormed, PageCount;
    RowsCanonical(db, t.rows);
    CanonicalBreakable(t, actor, f, Limit(limit));
    WhereOrdered(t, t.rows, Owned(actor, f));
    hide Where, Breakable, Canonical, Ordered;
    var ok;
    ok, all, pages := ReadAll(t, actor, limit, f);
  }

  /** Following the relationship cursors of a gateway the caller is a member of shows exactly
      its sensors, each once, in byte order. */
  method ListSensors(db: Db, t: Table, actor: User, g: Id, limit: int) returns (all: seq<Row>, pages: nat)
    requires WellFormed(db) && ValidIds(db) && TableOf(db, t) && limit <= MAX_LIMIT && (actor, g) in db.members
    ensures Ordered(all) && pages == PageCount(|all|, Limit(limit))
    ensures forall r :: r in all <==> SensorRowOf(db, g, r)
  {
    var urn := Print(GatewayUrn(g));
    MemberGateway(db, actor, g);
    hide WellFormed, PageCount;
    CanonicalGateway(db, g);
    RowsCanonical(db, t.rows);
    assert RowOf(db, GatewayUrn(g)) in t.rows;
    LinkedBreakable(t, urn, g, Limit(limit));
    WhereOrdered(t, t.rows, LinkedFrom(urn, g));
    SensorsSelected(db, t, g);
    hide Where, Breakable, Canonical, Ordered, TableOf, Selected, SensorRowOf;
    var ok;
    ok, all, pages := ReadAllRelationships(t, actor, urn, g, limit);
  }

  lemma MemberGateway(db: Db, actor: User, g: Id)
    requires WellFormed(db) && (actor, g) in db.members
    ensures g in db.gateways
  {}

  /** The row of a sensor of `g`. */
  ghost predicate SensorRowOf(db: Db, g: Id, r: Row) {
    exists s :: (g, s) in db.sensors && SensorUrn(g, s) in db.twins && r == RowOf(db, SensorUrn(g, s))
  }

  lemma SelectedSensor(db: Db, t: Table, g: Id, r: Row)
    requires WellFormed(db) && ValidIds(db) && TableOf(db, t) && r in t.rows && Selected(t, LinkedFrom(Print(GatewayUrn(g)), g), r)
    ensures SensorRowOf(db, g, r)
  {
    hide WellFormed, Print;
    var k :| k in t.sensors && k.0 == g && Print(SensorUrn(k.0, k.1)) == r.id;
    var u :| u in db.twins && r == RowOf(db, u);
    SensorSelected(db, t, g, k.1);
    PrintInjective(u, SensorUrn(g, k.1));
  }

  lemma SensorsSelected(db: Db, t: Table, g: Id)
    requires WellFormed(db) && ValidIds(db) && TableOf(db, t)
    ensures forall r :: r in t.rows && Selected(t, LinkedFrom(Print(GatewayUrn(g)), g), r) <==> SensorRowOf(db, g, r)
  {
    hide WellFormed, ValidIds, Selected, Print;
    forall r | SensorRowOf(db, g, r) ensures r in t.rows && Selected(t, LinkedFrom(Print(GatewayUrn(g)), g), r) {
      var s :| (g, s) in db.sensors && SensorUrn(g, s) in db.twins && r == RowOf(db, SensorUrn(g, s));
      SensorSelected(db, t, g, s);
    }
    hide TableOf, SensorRowOf;
    forall r | r in t.rows && Selected(t, LinkedFrom(Print(GatewayUrn(g)), g), r) ensures SensorRowOf(db, g, r) {
      SelectedSensor(db, t, g, r);
    }
  }

  lemma SensorSelected(db: Db, t: Table, g: Id, s: Id)
    requires WellFormed(db) && TableOf(db, t) && (g, s) in db.sensors
    ensures SensorUrn(g, s) in db.twins && Selected(t, LinkedFrom(Print(GatewayUrn(g)), g), RowOf(db, SensorUrn(g, s)))
  {
    assert SensorOk(db, (g, s));
    hide WellFormed, Print;
    var u := SensorUrn(g, s);
    assert (GatewayUrn(g), u) in db.edges;
    assert (Print(GatewayUrn(g)), Print(u)) in t.edges;
    assert (g, s) in t.sensors;
  }

  /** Whoever is no member of the gateway learns nothing of its sensors, not even that it
      exists; a member gets a page. */
  method SensorsPage(db: Db, t: Table, actor: User, g: Id, limit: int, cursor: Option<string>) returns (a: Answer)
    requires WellFormed(db) && ValidIds(db) && TableOf(db, t) && limit <= 200
    requires cursor.None? || cursor == Some("") || ParseRelation(cursor.value, Print(GatewayUrn(g))).Some?
    ensures (actor, g) !in db.members ==> a == Failed(Missing)
    ensures (actor, g) in db.members ==> a.Listed? && forall r :: r in a.page.items ==> SensorRowOf(db, g, r)
  {
    var urn := Print(GatewayUrn(g));
    if (actor, g) in db.members { MemberSees(db, t, actor, g); }
    MemberPages(db, t, actor, g, Limit(limit), cursor);
    WhoSees(t, actor, urn, g);
    GoodCursor(urn, cursor);
    assert (actor, g) in t.members <==> (actor, g) in db.members;
    hide WellFormed, ValidIds, TableOf, Visible, Remaining, SensorRowOf, BadCursor, Unencodable, Print, IsPage;
    a := RelationshipPage(t, actor, urn, g, limit, cursor);
    AnswerCases(a);
    if a.Listed? { PageWithin(Remaining(t, LinkedFrom(urn, g), BySource(urn), cursor), Limit(limit), BySource(urn), a.page); }
  }

  lemma AnswerCases(a: Answer)
    ensures a.Listed? || a == Failed(InvalidInput) || a == Failed(InvalidCursor) || a == Failed(Missing) || a == Failed(Unexpected)
  {
    match a
    case Listed(_) =>
    case Failed(e) => assert e.InvalidInput? || e.InvalidCursor? || e.Missing? || e.Unexpected?;
  }

  lemma PageWithin(rest: seq<Row>, limit: nat, k: Codec, page: Page)
    requires IsPage(rest, limit, k, page)
    ensures forall r :: r in page.items ==> r in rest
  {}

  lemma GoodCursor(urn: string, cursor: Option<string>)
    requires cursor.None? || cursor == Some("") || ParseRelation(cursor.value, urn).Some?
    ensures !BadCursor(BySource(urn), cursor)
  {}

  lemma MemberSees(db: Db, t: Table, actor: User, g: Id)
    requires WellFormed(db) && TableOf(db, t) && (actor, g) in db.members
    ensures Visible(t, actor, Print(GatewayUrn(g)), g)
  {
    MemberGateway(db, actor, g);
    CanonicalGateway(db, g);
    hide WellFormed, Print;
    assert RowOf(db, GatewayUrn(g)) in t.rows;
  }

  lemma SelectedEncodable(db: Db, t: Table, g: Id, r: Row)
    requires WellFormed(db) && ValidIds(db) && TableOf(db, t) && g in db.gateways
    requires r in t.rows && Selected(t, LinkedFrom(Print(GatewayUrn(g)), g), r)
    ensures EncodeKey(BySource(Print(GatewayUrn(g))), r.id).Some?
  {
    CanonicalGateway(db, g);
    RowsCanonical(db, t.rows);
    assert RowOf(db, GatewayUrn(g)) in t.rows;
    assert Canonical(r) && Canonical(Row(Print(GatewayUrn(g)), GATEWAY, g));
    hide WellFormed, ValidIds, TableOf, Parse, EncodeRelation, Print;
    RelationRoundTrip(Print(GatewayUrn(g)), HAS_SENSOR, r.id);
  }

  /** Whatever is left to show a member are sensors of the gateway, and never unencodable. */
  lemma MemberPages(db: Db, t: Table, actor: User, g: Id, limit: nat, cursor: Option<string>)
    requires WellFormed(db) && ValidIds(db) && TableOf(db, t) && limit > 0
    ensures var rest := Remaining(t, LinkedFrom(Print(GatewayUrn(g)), g), BySource(Print(GatewayUrn(g))), cursor);
      && (forall r :: r in rest ==> SensorRowOf(db, g, r))
      && ((actor, g) in db.members ==> !Unencodable(rest, limit, BySource(Print(GatewayUrn(g)))))
  {
    hide WellFormed, ValidIds, TableOf, Selected, SensorRowOf, EncodeKey, After, Print;
    var urn := Print(GatewayUrn(g));
    var rest := Remaining(t, LinkedFrom(urn, g), BySource(urn), cursor);
    SensorsSelected(db, t, g);
    WhereSelects(t, t.rows, LinkedFrom(urn, g), After(BySource(urn), cursor));
    if (actor, g) in db.members {
      MemberGateway(db, actor, g);
      if 0 < limit < |rest| {
        assert rest[limit - 1] in rest;
        SelectedEncodable(db, t, g, rest[limit - 1]);
      }
    }
  }
}
