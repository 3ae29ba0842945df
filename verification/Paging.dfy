/** Keyset paging (postgres_twin_reader.go): pages of `limit`, one row of look-ahead, and a
    cursor made from the last row shown.

    A table is its rows in the byte order of their unique `entity_id`; a query is the rows
    that pass its WHERE clause, in that order, cut at its LIMIT. */
module Paging {
  import opened Wrappers
  import opened Numbers
  import opened Text
  import opened Graph
  import opened Identity
  import opened Cursor

  const DEFAULT_LIMIT := 50
  const MAX_LIMIT := 200

  datatype Row = Row(id: string, kind: string, gateway: string)

  predicate Ordered(rows: seq<Row>) { forall i, j :: 0 <= i < j < |rows| ==> Less(rows[i].id, rows[j].id) }

  /** twin_entities in key order, the (user, gateway) pairs of user_gateways, the ids in
      gateways, the hasSensor edges as pairs of URNs, and the (gateway, sensor) keys. */
  datatype Table = Table(rows: seq<Row>, members: set<(User, string)>, gateways: set<string>,
                         edges: set<(string, string)>, sensors: set<(string, string)>)

  datatype Filters = Filters(gateway: Option<string>, kind: Option<string>)

  /** The WHERE clauses with their joins: the caller's memberships and the optional filters,
      or the sensors linked from one gateway twin. */
  datatype Clause = Owned(actor: User, f: Filters) | LinkedFrom(urn: string, gateway: string)

  predicate Selected(t: Table, c: Clause, r: Row) {
    match c
    case Owned(actor, f) =>
      && (actor, r.gateway) in t.members && (r.kind == GATEWAY || r.kind == SENSOR)
      && (f.gateway.Some? ==> r.gateway == f.gateway.value)
      && (f.kind.Some? ==> r.kind == f.kind.value)
    case LinkedFrom(urn, gateway) =>
      && (urn, r.id) in t.edges && r.kind == SENSOR && r.gateway == gateway
      && exists k :: k in t.sensors && k.0 == gateway && Print(SensorUrn(k.0, k.1)) == r.id
  }

  function Where(t: Table, rows: seq<Row>, c: Clause, after: Option<string>): seq<Row> {
    if rows == [] then []
    else
      var rest := Where(t, rows[1..], c, after);
      if Selected(t, c, rows[0]) && (after.Some? ==> Less(after.value, rows[0].id)) then [rows[0]] + rest else rest
  }

  /** Everything a clause selects. */
  function Listing(t: Table, c: Clause): seq<Row> { Where(t, t.rows, c, None) }

  /** The rows of an ordered list past a key. */
  function Above(rows: seq<Row>, k: string): seq<Row> {
    if rows == [] then []
    else if Less(k, rows[0].id) then [rows[0]] + Above(rows[1..], k) else Above(rows[1..], k)
  }

  lemma {:induction false} WhereAbove(t: Table, rows: seq<Row>, c: Clause, k: string)
    ensures Where(t, rows, c, Some(k)) == Above(Where(t, rows, c, None), k)
  {
    hide Selected;
    if rows != [] {
      WhereAbove(t, rows[1..], c, k);
      var all := Where(t, rows, c, None);
      if Selected(t, c, rows[0]) { assert all[0] == rows[0] && all[1..] == Where(t, rows[1..], c, None); }
    }
  }

  lemma {:induction false} WhereSelects(t: Table, rows: seq<Row>, c: Clause, after: Option<string>)
    ensures forall r :: r in Where(t, rows, c, after) ==> r in rows && Selected(t, c, r)
  {
    hide Selected;
    if rows != [] { WhereSelects(t, rows[1..], c, after); }
  }

  lemma {:induction false} WhereOrdered(t: Table, rows: seq<Row>, c: Clause)
    requires Ordered(rows)
    ensures Ordered(Where(t, rows, c, None))
    ensures forall r :: r in Where(t, rows, c, None) <==> r in rows && Selected(t, c, r)
  {
    hide Selected;
    if rows != [] {
      var rest := Where(t, rows[1..], c, None);
      WhereOrdered(t, rows[1..], c);
      assert rows == [rows[0]] + rows[1..];
      forall r | r in rest ensures Less(rows[0].id, r.id) {
        var j :| 0 <= j < |rows[1..]| && rows[1..][j] == r;
        assert rows[j + 1] == r;
      }
    }
  }

  lemma {:induction false} AllAbove(rows: seq<Row>, k: string)
    requires forall i :: 0 <= i < |rows| ==> Less(k, rows[i].id)
    ensures Above(rows, k) == rows
  {
    if rows != [] {
      AllAbove(rows[1..], k);
      assert rows == [rows[0]] + rows[1..];
    }
  }

  /** Past the key of the i-th row come exactly the rows after it. */
  lemma {:induction false} AboveRow(rows: seq<Row>, i: nat)
    requires Ordered(rows) && i < |rows|
    ensures Above(rows, rows[i].id) == rows[i + 1..]
  {
    if i == 0 {
      LessIrreflexive(rows[0].id);
      AllAbove(rows[1..], rows[0].id);
    } else {
      assert Ordered(rows[1..]);
      AboveRow(rows[1..], i - 1);
      assert rows[1..][i - 1] == rows[i] && rows[1..][i..] == rows[i + 1..];
      LessAsymmetric(rows[0].id, rows[i].id);
    }
  }

  // ---- one page ----

  datatype ListQuery = ListQuery(limit: int, filters: Filters, after: Option<string>)
  datatype Page = Page(items: seq<Row>, next: Option<string>)
  datatype ReadError = InvalidInput | InvalidCursor | Missing | Unexpected
  datatype Answer = Listed(page: Page) | Failed(error: ReadError)

  function Limit(limit: int): nat { if limit <= 0 then DEFAULT_LIMIT else limit }

  predicate ValidQuery(limit: int, f: Filters) {
    && limit <= MAX_LIMIT
    && (f.gateway.Some? ==> ValidGatewayId(f.gateway.value))
    && (f.kind.Some? ==> f.kind.value == GATEWAY || f.kind.value == SENSOR)
  }

  /** The two kinds of cursor: bound to list filters, or to the source of relationships. */
  datatype Codec = ByList(f: Filters) | BySource(urn: string)

  function EncodeKey(c: Codec, k: string): Option<string> {
    match c
    case ByList(f) => EncodeList(k, f.gateway, f.kind)
    case BySource(urn) => EncodeRelation(urn, HAS_SENSOR, k)
  }

  function ParseKey(c: Codec, cursor: string): Option<string> {
    match c
    case ByList(f) =>
      var x := ParseList(cursor, f.gateway, f.kind);
      if x.None? then None else Some(x.value.entity)
    case BySource(urn) =>
      var x := ParseRelation(cursor, urn);
      if x.None? then None else Some(x.value.target)
  }

  lemma CursorNames(c: Codec, k: string)
    requires EncodeKey(c, k).Some?
    ensures EncodeKey(c, k).value != "" && ParseKey(c, EncodeKey(c, k).value) == Some(k)
  {
    assert Unpack("").None?;
    hide Unpack;
    match c
    case ByList(f) =>
      ListRoundTrip(k, f.gateway, f.kind);
      hide EncodeList, ValidateList;
    case BySource(urn) =>
      RelationRoundTrip(urn, HAS_SENSOR, k);
      hide EncodeRelation;
  }

  /** The page at the head of `rest`: its first rows, and a cursor that names the last of
      them exactly when there are more. */
  ghost predicate IsPage(rest: seq<Row>, limit: nat, c: Codec, page: Page) {
    && page.items == rest[..Min(limit, |rest|)]
    && (page.next.Some? <==> |rest| > limit)
    && (page.next.Some? ==> limit > 0 && page.next.value != "" && ParseKey(c, page.next.value) == Some(rest[limit - 1].id))
  }

  /** More rows follow, and the last one shown has an id no cursor can carry. */
  predicate Unencodable(rest: seq<Row>, limit: nat, c: Codec) {
    0 < limit < |rest| && EncodeKey(c, rest[limit - 1].id).None?
  }

  /** A cursor was sent and does not parse for this request. */
  predicate BadCursor(c: Codec, after: Option<string>) {
    after.Some? && after.value != "" && ParseKey(c, after.value).None?
  }

  /** Reading the rows, trimming the look-ahead and making the cursor. */
  method FetchPage(rest: seq<Row>, limit: nat, c: Codec) returns (a: Answer)
    requires limit > 0
    ensures a.Listed? ==> IsPage(rest, limit, c, a.page)
    ensures !a.Listed? ==> a == Failed(Unexpected)
    ensures a == Failed(Unexpected) <==> Unencodable(rest, limit, c)
    ensures a.Listed? ==> |a.page.items| <= limit
  {
    hide EncodeKey, ParseKey;
    var fetched := rest[..Min(limit + 1, |rest|)];
    var items, i := [], 0;
    while i < |fetched|
      invariant 0 <= i <= |fetched| && items == fetched[..i]
    {
      items := items + [fetched[i]];
      i := i + 1;
    }
    if |items| > limit {
      var last := items[limit - 1];
      items := items[..limit];
      var next := EncodeKey(c, last.id);
      if next.None? { return Failed(Unexpected); }
      CursorNames(c, last.id);
      return Listed(Page(items, next));
    }
    return Listed(Page(items, None));
  }

  /** The key a request continues after; none without a cursor. */
  function After(c: Codec, after: Option<string>): Option<string> {
    if after.Some? && after.value != "" then ParseKey(c, after.value) else None
  }

  /** The rows a request still has before it. */
  ghost function Remaining(t: Table, c: Clause, k: Codec, after: Option<string>): seq<Row> { Where(t, t.rows, c, After(k, after)) }

  /** ListEntities. */
  method ListEntities(t: Table, actor: User, q: ListQuery) returns (a: Answer)
    ensures a == Failed(InvalidInput) <==>
      || q.limit > 200
      || (q.filters.gateway.Some? && !ValidGatewayId(q.filters.gateway.value))
      || (q.filters.kind.Some? && q.filters.kind.value != "Gateway" && q.filters.kind.value != "Sensor")
    ensures a == Failed(InvalidInput) <==> !ValidQuery(q.limit, q.filters)
    ensures a == Failed(InvalidCursor) <==> ValidQuery(q.limit, q.filters) && BadCursor(ByList(q.filters), q.after)
    ensures a.Listed? ==> IsPage(Remaining(t, Owned(actor, q.filters), ByList(q.filters), q.after), Limit(q.limit), ByList(q.filters), a.page)
    ensures a == Failed(Unexpected) <==>
      && ValidQuery(q.limit, q.filters) && !BadCursor(ByList(q.filters), q.after)
      && Unencodable(Remaining(t, Owned(actor, q.filters), ByList(q.filters), q.after), Limit(q.limit), ByList(q.filters))
    ensures a != Failed(Missing)
    ensures a.Listed? ==> q.limit <= 200 && |a.page.items| <= if q.limit <= 0 then 50 else q.limit
  {
    hide EncodeKey, ParseKey, ValidGatewayId, IsPage, Where;
    var f := q.filters;
    if q.limit > MAX_LIMIT { return Failed(InvalidInput); }
    var limit := if q.limit <= 0 then DEFAULT_LIMIT else q.limit;
    if f.gateway.Some? && !ValidGatewayId(f.gateway.value) { return Failed(InvalidInput); }
    if f.kind.Some? && f.kind.value != GATEWAY && f.kind.value != SENSOR { return Failed(InvalidInput); }
    var after := None;
    if q.after.Some? && q.after.value != "" {
      after := ParseKey(ByList(f), q.after.value);
      if after.None? { return Failed(InvalidCursor); }
    }
    a := FetchPage(Where(t, t.rows, Owned(actor, f), after), limit, ByList(f));
  }

  /** A stranger is told the gateway does not exist; so is anyone about a gateway that does not. */
  lemma WhoSees(t: Table, actor: User, urn: string, gateway: string)
    ensures Visible(t, actor, urn, gateway) ==> (actor, gateway) in t.members && gateway in t.gateways
    ensures Visible(t, actor, urn, gateway) ==> exists r :: r in t.rows && r.id == urn && r.kind == "Gateway" && r.gateway == gateway
    ensures (actor, gateway) in t.members && gateway in t.gateways && Row(urn, "Gateway", gateway) in t.rows ==> Visible(t, actor, urn, gateway)
  {
    if Visible(t, actor, urn, gateway) { assert Row(urn, "Gateway", gateway) in t.rows; }
  }

  /** The source row of the detail query: the gateway twin and its gateway, if the caller is
      a member of it. */
  predicate Visible(t: Table, actor: User, urn: string, gateway: string) {
    Row(urn, GATEWAY, gateway) in t.rows && gateway in t.gateways && (actor, gateway) in t.members
  }

  /** The relationship page of getGatewayDetail, for a gateway resolved to `urn`. */
  method RelationshipPage(t: Table, actor: User, urn: string, gateway: string, relLimit: int, cursor: Option<string>) returns (a: Answer)
    ensures a == Failed(InvalidInput) <==> relLimit > MAX_LIMIT
    ensures a == Failed(InvalidCursor) <==> relLimit <= MAX_LIMIT && BadCursor(BySource(urn), cursor)
    ensures a == Failed(Missing) <==> relLimit <= MAX_LIMIT && !BadCursor(BySource(urn), cursor) && !Visible(t, actor, urn, gateway)
    ensures a.Listed? || a == Failed(Unexpected) ==>
      (actor, gateway) in t.members && gateway in t.gateways && exists r :: r in t.rows && r.id == urn && r.kind == "Gateway" && r.gateway == gateway
    ensures a.Listed? ==> IsPage(Remaining(t, LinkedFrom(urn, gateway), BySource(urn), cursor), Limit(relLimit), BySource(urn), a.page)
    ensures a == Failed(Unexpected) <==>
      && relLimit <= MAX_LIMIT && !BadCursor(BySource(urn), cursor) && Visible(t, actor, urn, gateway)
      && Unencodable(Remaining(t, LinkedFrom(urn, gateway), BySource(urn), cursor), Limit(relLimit), BySource(urn))
    ensures a.Listed? ==> relLimit <= 200 && |a.page.items| <= if relLimit <= 0 then 50 else relLimit
  {
    WhoSees(t, actor, urn, gateway);
    hide EncodeKey, ParseKey, IsPage, Where, Visible;
    if relLimit > MAX_LIMIT { return Failed(InvalidInput); }
    var limit := if relLimit <= 0 then DEFAULT_LIMIT else relLimit;
    var after := None;
    if cursor.Some? && cursor.value != "" {
      after := ParseKey(BySource(urn), cursor.value);
      if after.None? { return Failed(InvalidCursor); }
    }
    if !Visible(t, actor, urn, gateway) { return Failed(Missing); }
    a := FetchPage(Where(t, t.rows, LinkedFrom(urn, gateway), after), limit, BySource(urn));
  }

  // ---- following the cursors ----

  ghost predicate Break(rows: seq<Row>, limit: nat, c: Codec, i: nat) {
    0 < i * limit <= |rows| && EncodeKey(c, rows[i * limit - 1].id).Some?
  }

  /** Every page break falls on a row whose id a cursor can carry. */
  ghost predicate Breakable(rows: seq<Row>, limit: nat, c: Codec) {
    forall i: nat {:trigger Break(rows, limit, c, i)} :: 0 < i * limit < |rows| ==> Break(rows, limit, c, i)
  }

  function PageCount(n: nat, limit: nat): nat
    requires limit > 0
  {
    if n == 0 then 1 else (n + limit - 1) / limit
  }

  lemma RestOfCursor(t: Table, c: Clause, k: Codec, after: Option<string>, n: nat)
    requires Ordered(t.rows) && 0 < n <= |Listing(t, c)| && after.Some? && after.value != ""
    requires ParseKey(k, after.value) == Some(Listing(t, c)[n - 1].id)
    ensures Remaining(t, c, k, after) == Listing(t, c)[n..]
  {
    hide ParseKey;
    var all := Listing(t, c);
    WhereOrdered(t, t.rows, c);
    WhereAbove(t, t.rows, c, all[n - 1].id);
    AboveRow(all, n - 1);
  }

  lemma RestOfNothing(t: Table, c: Clause, k: Codec)
    ensures Remaining(t, c, k, None) == Listing(t, c)
  {}

  /** A client that follows the cursors.  It gets every row it may see, once, in byte order,
      in ceil(n / limit) pages (one page when there is nothing), exactly if every page
      break falls on an encodable id. */
  method ReadAll(t: Table, actor: User, limit: int, f: Filters) returns (ok: bool, all: seq<Row>, pages: nat)
    requires Ordered(t.rows) && ValidQuery(limit, f)
    ensures ok <==> Breakable(Listing(t, Owned(actor, f)), Limit(limit), ByList(f))
    ensures ok ==> all == Listing(t, Owned(actor, f)) && pages == PageCount(|all|, Limit(limit))
  {
    hide Where, ParseKey, EncodeKey, PageCount, Remaining, Listing;
    ghost var c, n, k := Owned(actor, f), Limit(limit), ByList(f);
    ghost var rows := Listing(t, c);
    var q := ListQuery(limit, f, None);
    all, pages := [], 0;
    RestOfNothing(t, c, k);
    while true
      invariant q.limit == limit && q.filters == f && !BadCursor(k, q.after)
      invariant pages * n <= |rows| && (pages > 0 ==> pages * n < |rows|)
      invariant all == rows[..pages * n] && Remaining(t, c, k, q.after) == rows[pages * n..]
      invariant forall i: nat :: 1 <= i <= pages ==> Break(rows, n, k, i)
      decreases |rows| - pages * n
    {
      var a := ListEntities(t, actor, q);
      PageStep(rows, n, k, pages, pages * n);
      if !a.Listed? {
        assert a == Failed(a.error) && (a.error.InvalidInput? || a.error.InvalidCursor? || a.error.Missing? || a.error.Unexpected?);
        return false, all, pages;
      }
      all := all + a.page.items;
      pages := pages + 1;
      if a.page.next.None? {
        LastPage(rows, n, k, pages);
        return true, all, pages;
      }
      q := q.(after := a.page.next);
      RestOfCursor(t, c, k, q.after, pages * n);
    }
  }

  /** The same for the relationships of a gateway the caller can see. */
  method ReadAllRelationships(t: Table, actor: User, urn: string, gateway: string, limit: int) returns (ok: bool, all: seq<Row>, pages: nat)
    requires Ordered(t.rows) && limit <= MAX_LIMIT && Visible(t, actor, urn, gateway)
    ensures ok <==> Breakable(Listing(t, LinkedFrom(urn, gateway)), Limit(limit), BySource(urn))
    ensures ok ==> all == Listing(t, LinkedFrom(urn, gateway)) && pages == PageCount(|all|, Limit(limit))
  {
    hide Where, ParseKey, EncodeKey, PageCount, Remaining, Listing;
    ghost var c, n, k := LinkedFrom(urn, gateway), Limit(limit), BySource(urn);
    ghost var rows := Listing(t, c);
    var cursor := None;
    all, pages := [], 0;
    RestOfNothing(t, c, k);
    while true
      invariant !BadCursor(k, cursor)
      invariant pages * n <= |rows| && (pages > 0 ==> pages * n < |rows|)
      invariant all == rows[..pages * n] && Remaining(t, c, k, cursor) == rows[pages * n..]
      invariant forall i: nat :: 1 <= i <= pages ==> Break(rows, n, k, i)
      decreases |rows| - pages * n
    {
      var a := RelationshipPage(t, actor, urn, gateway, limit, cursor);
      PageStep(rows, n, k, pages, pages * n);
      if !a.Listed? {
        assert a == Failed(a.error) && (a.error.InvalidInput? || a.error.InvalidCursor? || a.error.Missing? || a.error.Unexpected?);
        return false, all, pages;
      }
      all := all + a.page.items;
      pages := pages + 1;
      if a.page.next.None? {
        LastPage(rows, n, k, pages);
        return true, all, pages;
      }
      cursor := a.page.next;
      RestOfCursor(t, c, k, cursor, pages * n);
    }
  }

  lemma PageStep(rows: seq<Row>, n: nat, c: Codec, pages: nat, from: nat)
    requires n > 0 && from == pages * n <= |rows|
    ensures (pages + 1) * n == from + n
    ensures Unencodable(rows[from..], n, c) ==> !Breakable(rows, n, c)
    ensures from + n < |rows| && !Unencodable(rows[from..], n, c) ==> Break(rows, n, c, pages + 1)
  {
    hide EncodeKey;
    assert (pages + 1) * n == from + n;
    if from + n < |rows| { assert rows[from..][n - 1] == rows[from + n - 1]; }
    if Unencodable(rows[from..], n, c) { assert !Break(rows, n, c, pages + 1); }
  }

  lemma LastPage(rows: seq<Row>, n: nat, c: Codec, pages: nat)
    requires n > 0 && pages > 0 && (pages - 1) * n <= |rows| <= pages * n && (pages > 1 ==> (pages - 1) * n < |rows|)
    requires forall i: nat :: 1 <= i < pages ==> Break(rows, n, c, i)
    ensures Breakable(rows, n, c) && pages == PageCount(|rows|, n)
  {
    CeilDiv(|rows|, n, pages);
    hide Break;
    forall i: nat | 0 < i * n < |rows| ensures Break(rows, n, c, i) {
      MulMono(pages, i, n);
    }
  }

  // ---- tables whose ids are their URNs ----

  /** The id is the canonical URN of the row's own type and gateway. */
  predicate Canonical(r: Row) {
    Parse(r.id).Some? && Parse(r.id).value.g == r.gateway && Kind(Parse(r.id).value) == r.kind
  }

  /** With canonical rows following the cursors never fails. */
  lemma CanonicalBreakable(t: Table, actor: User, f: Filters, limit: nat)
    requires Ordered(t.rows) && limit > 0 && forall r :: r in t.rows ==> Canonical(r)
    ensures Breakable(Listing(t, Owned(actor, f)), limit, ByList(f))
  {
    var rows := Listing(t, Owned(actor, f));
    WhereOrdered(t, t.rows, Owned(actor, f));
    hide EncodeList, Parse, Where;
    forall i: nat | 0 < i * limit < |rows| ensures Break(rows, limit, ByList(f), i) {
      var r := rows[i * limit - 1];
      assert r in rows && Selected(t, Owned(actor, f), r) && Canonical(r);
      ListRoundTrip(r.id, f.gateway, f.kind);
    }
  }

  /** With canonical rows relationship pages never fail either: a canonical sensor row of the
      gateway is one a cursor of that gateway can carry. */
  lemma LinkedBreakable(t: Table, urn: string, gateway: string, limit: nat)
    requires Ordered(t.rows) && limit > 0 && (forall r :: r in t.rows ==> Canonical(r)) && Canonical(Row(urn, GATEWAY, gateway))
    ensures Breakable(Listing(t, LinkedFrom(urn, gateway)), limit, BySource(urn))
  {
    var rows := Listing(t, LinkedFrom(urn, gateway));
    WhereOrdered(t, t.rows, LinkedFrom(urn, gateway));
    hide EncodeRelation, Parse, Where;
    forall i: nat | 0 < i * limit < |rows| ensures Break(rows, limit, BySource(urn), i) {
      var r := rows[i * limit - 1];
      assert r in rows && Selected(t, LinkedFrom(urn, gateway), r) && Canonical(r);
      RelationRoundTrip(urn, HAS_SENSOR, r.id);
    }
  }

  /** An id that is no URN does stop a client: two such rows, one per page. */
  lemma ForeignIdStopsPaging(t: Table, actor: User, a: Row, b: Row)
    requires t.rows == [a, b] && Ordered(t.rows) && Parse(a.id).None?
    requires Selected(t, Owned(actor, Filters(None, None)), a) && Selected(t, Owned(actor, Filters(None, None)), b)
    ensures !Breakable(Listing(t, Owned(actor, Filters(None, None))), 1, ByList(Filters(None, None)))
  {
    var f := Filters(None, None);
    var c := Owned(actor, f);
    assert t.rows[1..] == [b] && t.rows[1..][1..] == [];
    assert Where(t, [b], c, None) == [b];
    assert Listing(t, c) == [a, b];
    hide Parse, Selected;
    assert !Break(Listing(t, c), 1, ByList(f), 1);
  }
}
