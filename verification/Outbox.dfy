/** The durable outbox of src/internal/gatewaysim/outbox.go.

    One SQLite file holds the rows of one Gateway/Sensor pair and one sequence
    counter per boot stream.  `Store` is the committed content of that file;
    class `Outbox` runs the transactions on it.  A transaction works on a private
    copy and its commit either happens, or fails before it starts, or is lost on
    the way: a lost commit may have been applied or not, and the caller cannot
    tell which. */
module Outbox {
  import opened Wrappers
  import opened Commits

  type MessageId = nat
  type BootId = nat

  const MAX_INT64: int := 0x7FFF_FFFF_FFFF_FFFF

  /** A sum of two non-negative 64-bit values as the machine stores it. */
  function Wrap64(x: int): int {
    if x > MAX_INT64 then x - 2 * (MAX_INT64 + 1) else x
  }

  /** What is published: the stored topic and payload, one char per byte. */
  datatype Message = Message(topic: string, payload: string) {
    function Size(): nat { |topic| + |payload| }
  }

  datatype Status = Pending | Quarantined

  datatype Row = Row(id: nat, messageId: MessageId, boot: BootId, message: Message,
                     firstSequence: int, sampleCount: int, status: Status)

  datatype Store = Store(rows: map<MessageId, Row>, lastId: nat, streams: map<BootId, int>) {
    predicate IsPending(m: MessageId) { m in rows && rows[m].status.Pending? }

    function PendingIds(): set<MessageId> { set m | m in rows && rows[m].status.Pending? }

    /** message_id is UNIQUE, row ids come from AUTOINCREMENT. */
    ghost predicate Valid() {
      && (forall m :: m in rows ==> rows[m].messageId == m && 1 <= rows[m].id <= lastId)
      && (forall m, n :: m in rows && n in rows && rows[m].id == rows[n].id ==> m == n)
    }
  }

  const FRESH := Store(map[], 0, map[])

  datatype Limits = Limits(maxRows: nat, maxBytes: nat)

  /** `render` stands for BuildSyntheticBatch after its sequence checks: the batch
      text for an allocated first sequence, or None when the validator refuses. */
  datatype Request = Request(messageId: MessageId, boot: BootId, sampleCount: int,
                             render: int -> Option<Message>)

  datatype Error = Full | Corrupt | Rejected | Duplicate | Unavailable | CommitUnknown | BadLimit | BadReason

  // ----- business bytes -----

  ghost function Bytes(rows: map<MessageId, Row>): nat {
    if rows == map[] then 0
    else var m :| m in rows; rows[m].message.Size() + Bytes(rows - {m})
  }

  lemma {:induction false} BytesRemove(rows: map<MessageId, Row>, m: MessageId)
    requires m in rows
    ensures Bytes(rows) == rows[m].message.Size() + Bytes(rows - {m})
    decreases |rows|
  {
    var n :| n in rows && Bytes(rows) == rows[n].message.Size() + Bytes(rows - {n});
    if n != m {
      BytesRemove(rows - {n}, m);
      BytesRemove(rows - {m}, n);
      assert rows - {n} - {m} == rows - {m} - {n};
    }
  }

  lemma BytesAdd(rows: map<MessageId, Row>, m: MessageId, row: Row)
    requires m !in rows
    ensures Bytes(rows[m := row]) == |row.message.topic| + |row.message.payload| + Bytes(rows) && Bytes(map[]) == 0
    ensures |rows[m := row]| == |rows| + 1
  {
    assert rows[m := row] - {m} == rows;
    BytesRemove(rows[m := row], m);
    assert rows[m := row].Keys == rows.Keys + {m};
  }

  lemma {:induction false} BytesStatus(rows: map<MessageId, Row>, m: MessageId, row: Row)
    requires m in rows && row.message == rows[m].message
    ensures Bytes(rows[m := row]) == Bytes(rows) && |rows[m := row]| == |rows|
  {
    assert rows[m := row] - {m} == rows - {m};
    BytesRemove(rows, m);
    BytesRemove(rows[m := row], m);
    assert rows[m := row].Keys == rows.Keys;
  }

  // ----- reference behaviour of the transactions -----

  function NextSequence(s: Store, boot: BootId): int {
    if boot in s.streams then s.streams[boot] else 0
  }

  /** The most samples the backend takes in one batch. */
  const MAX_SAMPLES := 1000

  /** BuildSyntheticBatch with the telemetry validator's size and overflow rules. */
  function Build(req: Request, first: int): Option<Message> {
    if req.sampleCount <= 0 || req.sampleCount > MAX_SAMPLES || req.sampleCount - 1 > MAX_INT64 - first then None
    else req.render(first)
  }

  function NewRow(s: Store, req: Request, message: Message): Row {
    Row(s.lastId + 1, req.messageId, req.boot, message, NextSequence(s, req.boot), req.sampleCount, Pending)
  }

  /** Row and counter together: the only content an enqueue can leave behind. */
  function Inserted(s: Store, req: Request, message: Message): Store {
    Store(s.rows[req.messageId := NewRow(s, req, message)], s.lastId + 1,
          s.streams[req.boot := Wrap64(NextSequence(s, req.boot) + req.sampleCount)])
  }

  /** Why a batch is refused before its commit, or the message it would store. */
  ghost function Verdict(s: Store, lim: Limits, req: Request): Result<Message, Error> {
    var first := NextSequence(s, req.boot);
    if first < 0 then Err(Corrupt)
    else if |s.rows| >= lim.maxRows then Err(Full)
    else match Build(req, first) {
      case None => Err(Rejected)
      case Some(m) =>
        if Bytes(s.rows) + m.Size() > lim.maxBytes then Err(Full)
        else if req.messageId in s.rows then Err(Duplicate)
        else Ok(m)
    }
  }

  ghost function AfterEnqueue(s: Store, lim: Limits, req: Request, c: Commit): Store {
    var v := Verdict(s, lim, req);
    if v.Ok? && Lands(c) then Inserted(s, req, v.value) else s
  }

  /** The caller learns of a row only from a confirmed commit; a lost one is ambiguous. */
  ghost function EnqueueReply(s: Store, lim: Limits, req: Request, c: Commit): Result<Row, Error> {
    match Verdict(s, lim, req)
    case Err(e) => Err(e)
    case Ok(m) =>
      match c
      case Commits => Ok(NewRow(s, req, m))
      case Aborts => Err(Unavailable)
      case _ => Err(CommitUnknown)
  }

  function AfterDelete(s: Store, m: MessageId, c: Commit): Store {
    if s.IsPending(m) && Lands(c) then s.(rows := s.rows - {m}) else s
  }

  function AfterQuarantine(s: Store, m: MessageId, c: Commit): Store {
    if s.IsPending(m) && Lands(c) then s.(rows := s.rows[m := s.rows[m].(status := Quarantined)]) else s
  }

  /** `page` is the answer to "pending rows with id above `after`, oldest first,
      at most `limit`". */
  ghost predicate IsPage(s: Store, after: nat, limit: nat, page: seq<Row>) {
    && |page| <= limit
    && (forall i :: 0 <= i < |page| ==>
          s.IsPending(page[i].messageId) && s.rows[page[i].messageId] == page[i] && page[i].id > after)
    && (forall i, j :: 0 <= i < j < |page| ==> page[i].id < page[j].id)
    && (forall m :: s.IsPending(m) && s.rows[m].id > after ==>
          s.rows[m] in page || (|page| == limit && forall i :: 0 <= i < |page| ==> page[i].id < s.rows[m].id))
  }

  /** The page is determined by the store: ordering and completeness leave no choice. */
  lemma {:induction false} PageUnique(s: Store, after: nat, limit: nat, p: seq<Row>, q: seq<Row>)
    requires s.Valid() && IsPage(s, after, limit, p) && IsPage(s, after, limit, q)
    ensures p == q
  {
    hide *;
    PagePrefix(s, after, limit, p, q, |p|);
    PagePrefix(s, after, limit, q, p, |q|);
  }

  lemma {:induction false} PagePrefix(s: Store, after: nat, limit: nat, p: seq<Row>, q: seq<Row>, k: nat)
    requires s.Valid() && IsPage(s, after, limit, p) && IsPage(s, after, limit, q)
    requires k <= |p|
    ensures k <= |q| && forall i :: 0 <= i < k ==> p[i] == q[i]
  {
    hide *;
    if k > 0 {
      PagePrefix(s, after, limit, p, q, k - 1);
      PageAt(s, after, limit, p, q, k - 1);
    }
  }

  lemma PageAt(s: Store, after: nat, limit: nat, p: seq<Row>, q: seq<Row>, k: nat)
    requires s.Valid() && IsPage(s, after, limit, p) && IsPage(s, after, limit, q)
    requires k < |p| && k <= |q| && forall i :: 0 <= i < k ==> p[i] == q[i]
    ensures k < |q| && p[k] == q[k]
  {
    assert s.IsPending(p[k].messageId);
    assert p[k] in q || |q| == limit;
    assert k < |q|;
    assert s.IsPending(q[k].messageId);
    PageNoGap(s, after, limit, p, q, k);
    PageNoGap(s, after, limit, q, p, k);
  }

  lemma PageNoGap(s: Store, after: nat, limit: nat, p: seq<Row>, q: seq<Row>, k: nat)
    requires IsPage(s, after, limit, p) && IsPage(s, after, limit, q)
    requires k < |p| && k < |q| && forall i :: 0 <= i < k ==> p[i] == q[i]
    ensures p[k].id <= q[k].id
  {
    assert s.IsPending(q[k].messageId);
    assert q[k] in p || p[k].id < q[k].id;
  }

  /** A scan in progress: `page` holds the oldest matching rows, `rest` the ids still to come. */
  ghost predicate ScanSplit(s: Store, after: nat, page: seq<Row>, rest: set<MessageId>) {
    && (forall m :: m in rest ==> s.IsPending(m) && s.rows[m].id > after)
    && (forall m :: s.IsPending(m) && s.rows[m].id > after ==> m in rest || s.rows[m] in page)
    && (forall i :: 0 <= i < |page| ==>
          s.IsPending(page[i].messageId) && s.rows[page[i].messageId] == page[i] && page[i].id > after)
    && (forall i, j :: 0 <= i < j < |page| ==> page[i].id < page[j].id)
    && (forall i, m :: 0 <= i < |page| && m in rest ==> page[i].id < s.rows[m].id)
  }

  lemma ScanAdvance(s: Store, after: nat, page: seq<Row>, rest: set<MessageId>, m: MessageId)
    requires ScanSplit(s, after, page, rest) && m in rest && s.rows[m].messageId == m
    requires forall n :: n in rest && n != m ==> s.rows[m].id < s.rows[n].id
    ensures ScanSplit(s, after, page + [s.rows[m]], rest - {m})
  {
    var q := page + [s.rows[m]];
    forall n | s.IsPending(n) && s.rows[n].id > after ensures n in rest - {m} || s.rows[n] in q {
      if n == m { assert q[|page|] == s.rows[n]; }
    }
  }

  lemma InsertedValid(s: Store, req: Request, message: Message)
    requires s.Valid() && req.messageId !in s.rows
    ensures Inserted(s, req, message).Valid()
  {}

  // ----- the transactions themselves -----

  // ----- the transactions read off the tables and the request -----

  /** The counter the batch would start at, and whether the batch can be built from it. */
  ghost predicate Renders(s: Store, req: Request, m: Message) {
    var first := if req.boot in s.streams then s.streams[req.boot] else 0;
    && first >= 0 && 1 <= req.sampleCount <= 1000 && req.sampleCount - 1 <= 0x7FFF_FFFF_FFFF_FFFF - first
    && req.render(first) == Some(m)
  }

  /** A batch is taken exactly if its counter is usable, it renders there, both quotas have
      room for it, and its id is new. */
  ghost predicate Takes(s: Store, lim: Limits, req: Request) {
    && |s.rows| < lim.maxRows && req.messageId !in s.rows
    && exists m :: Renders(s, req, m) && Bytes(s.rows) + |m.topic| + |m.payload| <= lim.maxBytes
  }

  /** One row more: the text rendered at the start of its own range, which begins where the
      stream stood, and the stream moved past it. */
  ghost predicate Stored(s: Store, t: Store, req: Request) {
    && t.rows.Keys == s.rows.Keys + {req.messageId} && req.messageId !in s.rows
    && (forall n :: n in s.rows ==> t.rows[n] == s.rows[n])
    && (forall b :: b != req.boot ==> ((b in t.streams <==> b in s.streams) && (b in s.streams ==> t.streams[b] == s.streams[b])))
    && var row := t.rows[req.messageId];
       && row.messageId == req.messageId && row.boot == req.boot && row.sampleCount == req.sampleCount && row.status.Pending?
       && row.firstSequence == (if req.boot in s.streams then s.streams[req.boot] else 0)
       && req.render(row.firstSequence) == Some(row.message)
       && row.id == t.lastId > s.lastId
       && req.boot in t.streams && t.streams[req.boot] == Wrap64(row.firstSequence + row.sampleCount)
  }

  /** Row `m` left, everything else stayed. */
  ghost predicate Gone(s: Store, t: Store, m: MessageId) {
    && t.rows.Keys == s.rows.Keys - {m} && (forall n :: n in t.rows ==> t.rows[n] == s.rows[n])
    && t.streams == s.streams && t.lastId == s.lastId
  }

  /** Row `m` is quarantined with its identity, range and bytes, everything else stayed. */
  ghost predicate Isolated(s: Store, t: Store, m: MessageId) {
    && t.rows.Keys == s.rows.Keys && m in s.rows && t.rows[m] == s.rows[m].(status := Quarantined)
    && (forall n :: n in t.rows && n != m ==> t.rows[n] == s.rows[n])
    && t.streams == s.streams && t.lastId == s.lastId
  }

  lemma VerdictMeans(s: Store, lim: Limits, req: Request)
    ensures Verdict(s, lim, req).Ok? <==> Takes(s, lim, req)
    ensures forall m :: Verdict(s, lim, req) == Ok(m) ==> Renders(s, req, m)
    ensures Verdict(s, lim, req) == Err(Corrupt) <==> req.boot in s.streams && s.streams[req.boot] < 0
    ensures Verdict(s, lim, req) == Err(Duplicate) ==> req.messageId in s.rows
    ensures Verdict(s, lim, req) == Err(Full) ==> |s.rows| >= lim.maxRows || exists m :: Renders(s, req, m) && Bytes(s.rows) + |m.topic| + |m.payload| > lim.maxBytes
    ensures Verdict(s, lim, req) == Err(Rejected) ==> forall m :: !Renders(s, req, m)
  {
    var v, first := Verdict(s, lim, req), NextSequence(s, req.boot);
    if Build(req, first).Some? { assert first >= 0 ==> Renders(s, req, Build(req, first).value); }
  }

  lemma TakesNew(s: Store, lim: Limits, req: Request)
    requires Takes(s, lim, req)
    ensures req.messageId !in s.rows
  {}

  lemma InsertedStores(s: Store, req: Request, m: Message)
    requires Renders(s, req, m) && req.messageId !in s.rows
    ensures Stored(s, Inserted(s, req, m), req)
  {}

  class Outbox {
    const limits: Limits
    var store: Store

    ghost predicate Valid() reads this { store.Valid() }

    constructor (limits: Limits)
      ensures Valid() && store == FRESH && this.limits == limits
    {
      this.limits := limits;
      store := FRESH;
    }

    /** outboxUsage: the row count and the sum of the stored sizes, every status. */
    method Usage() returns (rows: nat, bytes: nat)
      ensures rows == |store.rows| && bytes == Bytes(store.rows)
    {
      var rest := store.rows;
      rows, bytes := 0, 0;
      while rest != map[]
        invariant rows + |rest| == |store.rows|
        invariant bytes + Bytes(rest) == Bytes(store.rows)
        decreases |rest|
      {
        var m :| m in rest;
        BytesRemove(rest, m);
        assert (rest - {m}).Keys == rest.Keys - {m};
        rows, bytes, rest := rows + 1, bytes + rest[m].message.Size(), rest - {m};
      }
    }

    /** The checks Enqueue makes inside its transaction, in the order it makes them. */
    method Check(req: Request) returns (v: Result<Message, Error>)
      ensures v == Verdict(store, limits, req)
      ensures v.Ok? <==> Takes(store, limits, req)
      ensures v.Ok? ==> Renders(store, req, v.value)
    {
      VerdictMeans(store, limits, req);
      var first := NextSequence(store, req.boot);
      if first < 0 { return Err(Corrupt); }
      var rows, bytes := Usage();
      if rows >= limits.maxRows { return Err(Full); }
      var built := Build(req, first);
      if built.None? { return Err(Rejected); }
      if bytes + built.value.Size() > limits.maxBytes { return Err(Full); }
      if req.messageId in store.rows { return Err(Duplicate); }
      v := Ok(built.value);
    }

    method Enqueue(req: Request, c: Commit) returns (r: Result<Row, Error>)
      requires Valid()
      modifies this`store
      ensures Valid()
      ensures store == AfterEnqueue(old(store), limits, req, c)
      ensures r == EnqueueReply(old(store), limits, req, c)
      ensures r.Ok? <==> Takes(old(store), limits, req) && c.Commits?
      ensures r.Ok? ==> store.IsPending(req.messageId) && store.rows[req.messageId] == r.value
      ensures if Takes(old(store), limits, req) && Lands(c) then Stored(old(store), store, req) else store == old(store)
    {
      hide Verdict, Takes;
      var v := Check(req);
      if v.Err? { return Err(v.error); }
      TakesNew(store, limits, req);
      InsertedValid(store, req, v.value);
      InsertedStores(store, req, v.value);
      hide Stored, Renders;
      var row := NewRow(store, req, v.value);
      var tx := store.(rows := store.rows[req.messageId := row], lastId := row.id);
      tx := tx.(streams := tx.streams[req.boot := Wrap64(row.firstSequence + req.sampleCount)]);
      assert tx == Inserted(store, req, v.value);
      match c {
        case Commits => store := tx; r := Ok(row);
        case LostApplied => store := tx; r := Err(CommitUnknown);
        case LostDropped => r := Err(CommitUnknown);
        case Aborts => r := Err(Unavailable);
      }
    }

    /** DeletePending: at most the one pending row leaves, and `deleted` is reported
        only after a confirmed commit. */
    method DeletePending(m: MessageId, c: Commit) returns (r: Result<bool, Error>)
      requires Valid()
      modifies this`store
      ensures Valid()
      ensures store == AfterDelete(old(store), m, c)
      ensures r.Ok? <==> c.Commits?
      ensures r.Ok? ==> r.value == old(store).IsPending(m) && !store.IsPending(m)
      ensures if old(store).IsPending(m) && Lands(c) then Gone(old(store), store, m) else store == old(store)
    {
      var affected := m in store.rows && store.rows[m].status.Pending?;
      var tx := if affected then store.(rows := store.rows - {m}) else store;
      match c {
        case Commits => store := tx; r := Ok(affected);
        case LostApplied => store := tx; r := Err(CommitUnknown);
        case LostDropped => r := Err(CommitUnknown);
        case Aborts => r := Err(Unavailable);
      }
    }

    /** Quarantine keeps identity, bytes and quota; the reason is checked first. */
    method Quarantine(m: MessageId, reasonOk: bool, c: Commit) returns (r: Result<bool, Error>)
      requires Valid()
      modifies this`store
      ensures Valid()
      ensures store == if reasonOk then AfterQuarantine(old(store), m, c) else old(store)
      ensures r.Ok? <==> reasonOk && c.Commits?
      ensures r.Ok? ==> r.value == old(store).IsPending(m)
      ensures store.rows.Keys == old(store).rows.Keys
      ensures if reasonOk && old(store).IsPending(m) && Lands(c) then Isolated(old(store), store, m) else store == old(store)
    {
      if !reasonOk { return Err(BadReason); }
      var affected := m in store.rows && store.rows[m].status.Pending?;
      var tx := if affected then store.(rows := store.rows[m := store.rows[m].(status := Quarantined)]) else store;
      match c {
        case Commits => store := tx; r := Ok(affected);
        case LostApplied => store := tx; r := Err(CommitUnknown);
        case LostDropped => r := Err(CommitUnknown);
        case Aborts => r := Err(Unavailable);
      }
    }

    method Lookup(m: MessageId) returns (r: Option<Row>)
      ensures r.Some? <==> m in store.rows
      ensures r.Some? ==> r.value == store.rows[m]
    {
      r := if m in store.rows then Some(store.rows[m]) else None;
    }

    /** PendingAfter: rows are appended one by one, smallest id first. */
    method PendingAfter(after: nat, limit: int) returns (r: Result<seq<Row>, Error>)
      requires Valid()
      ensures r.Err? <==> limit <= 0 || limit > limits.maxRows
      ensures r.Ok? ==> IsPage(store, after, limit, r.value)
    {
      if limit <= 0 || limit > limits.maxRows { return Err(BadLimit); }
      var page: seq<Row> := [];
      var rest := set m | m in store.rows && store.rows[m].status.Pending? && store.rows[m].id > after;
      while |page| < limit && rest != {}
        invariant |page| <= limit && ScanSplit(store, after, page, rest)
        decreases rest
      {
        var m := Oldest(rest);
        ScanAdvance(store, after, page, rest, m);
        page, rest := page + [store.rows[m]], rest - {m};
      }
      r := Ok(page);
    }

    method Oldest(rest: set<MessageId>) returns (m: MessageId)
      requires Valid() && rest != {} && forall n :: n in rest ==> n in store.rows
      ensures m in rest && forall n :: n in rest && n != m ==> store.rows[m].id < store.rows[n].id
    {
      m :| m in rest;
      var todo := rest - {m};
      while todo != {}
        invariant todo <= rest && m in rest
        invariant forall n :: n in rest - todo && n != m ==> store.rows[m].id < store.rows[n].id
        decreases todo
      {
        var n :| n in todo;
        if store.rows[n].id < store.rows[m].id { m := n; }
        todo := todo - {n};
      }
    }
  }
}
