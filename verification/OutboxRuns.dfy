/** What any sequence of outbox transactions leaves behind, starting from a fresh
    file: sequence ranges that tile, a quota that holds, rows that never change. */
module OutboxRuns {
  import opened Wrappers
  import opened Commits
  import opened Outbox

  datatype Op =
    | Enqueue(req: Request, c: Commit)
    | Delete(m: MessageId, c: Commit)
    | Quarantine(m: MessageId, c: Commit)

  ghost function Apply(s: Store, lim: Limits, op: Op): Store {
    match op
    case Enqueue(req, c) => AfterEnqueue(s, lim, req, c)
    case Delete(m, c) => AfterDelete(s, m, c)
    case Quarantine(m, c) => AfterQuarantine(s, m, c)
  }

  ghost function Final(lim: Limits, ops: seq<Op>): Store {
    if ops == [] then FRESH else Apply(Final(lim, ops[..|ops| - 1]), lim, ops[|ops| - 1])
  }

  /** The sequence range a batch was given, in the order the batches were committed. */
  datatype Range = Range(boot: BootId, first: int, count: int)

  ghost function Landed(s: Store, lim: Limits, op: Op): seq<Range> {
    if op.Enqueue? && Verdict(s, lim, op.req).Ok? && Lands(op.c)
    then [Range(op.req.boot, NextSequence(s, op.req.boot), op.req.sampleCount)] else []
  }

  ghost function History(lim: Limits, ops: seq<Op>): seq<Range> {
    if ops == [] then []
    else History(lim, ops[..|ops| - 1]) + Landed(Final(lim, ops[..|ops| - 1]), lim, ops[|ops| - 1])
  }

  /** Samples numbered so far in one boot stream. */
  function End(h: seq<Range>, boot: BootId): int {
    if h == [] then 0
    else End(h[..|h| - 1], boot) + if h[|h| - 1].boot == boot then h[|h| - 1].count else 0
  }

  /** Each range of the stream starts exactly where the earlier ones stop. */
  ghost predicate Contiguous(h: seq<Range>, boot: BootId) {
    forall k :: 0 <= k < |h| && h[k].boot == boot ==> h[k].first == End(h[..k], boot) && h[k].count > 0
  }

  predicate Covers(r: Range, boot: BootId, q: int) { r.boot == boot && r.first <= q < r.first + r.count }

  // ----- tiling -----

  lemma {:induction false} ValidAlways(lim: Limits, ops: seq<Op>)
    ensures Final(lim, ops).Valid()
  {
    if ops != [] {
      var s, op := Final(lim, ops[..|ops| - 1]), ops[|ops| - 1];
      ValidAlways(lim, ops[..|ops| - 1]);
      if op.Enqueue? && Verdict(s, lim, op.req).Ok? { InsertedValid(s, op.req, Verdict(s, lim, op.req).value); }
    }
  }

  lemma ContiguousAppend(h: seq<Range>, r: Range, boot: BootId)
    requires Contiguous(h, boot)
    requires r.boot == boot ==> r.first == End(h, boot) && r.count > 0
    ensures Contiguous(h + [r], boot)
    ensures End(h + [r], boot) == End(h, boot) + if r.boot == boot then r.count else 0
  {
    var g := h + [r];
    assert g[..|h|] == h;
    forall k | 0 <= k < |g| && g[k].boot == boot ensures g[k].first == End(g[..k], boot) && g[k].count > 0 {
      if k < |h| { assert g[..k] == h[..k]; }
    }
  }

  /** One transaction: what it adds to the history and to the counter of a stream. */
  lemma TilingStep(s: Store, lim: Limits, op: Op, h: seq<Range>, boot: BootId)
    requires Contiguous(h, boot) && 0 <= End(h, boot) <= MAX_INT64 + 1
    requires NextSequence(s, boot) == Wrap64(End(h, boot))
    ensures var g := h + Landed(s, lim, op);
      Contiguous(g, boot) && 0 <= End(g, boot) <= MAX_INT64 + 1
      && NextSequence(Apply(s, lim, op), boot) == Wrap64(End(g, boot))
  {
    if op.Enqueue? && Verdict(s, lim, op.req).Ok? && Lands(op.c) {
      ContiguousAppend(h, Range(op.req.boot, NextSequence(s, op.req.boot), op.req.sampleCount), boot);
    } else {
      assert h + Landed(s, lim, op) == h;
    }
  }

  /** The committed ranges of a boot stream tile [0, End): no gap, no overlap, for
      any mix of enqueues, deletes, quarantines, roll-backs and lost commits.  The
      stored counter is End as a 64-bit integer. */
  lemma {:induction false} Tiling(lim: Limits, ops: seq<Op>, boot: BootId)
    ensures Contiguous(History(lim, ops), boot)
    ensures 0 <= End(History(lim, ops), boot) <= MAX_INT64 + 1
    ensures NextSequence(Final(lim, ops), boot) == Wrap64(End(History(lim, ops), boot))
  {
    if ops != [] {
      var rest := ops[..|ops| - 1];
      Tiling(lim, rest, boot);
      TilingStep(Final(lim, rest), lim, ops[|ops| - 1], History(lim, rest), boot);
    }
  }

  /** A stream stops for good exactly when its last sample took number 2^63 - 1: the
      counter then wraps to a negative value and every later batch is refused. */
  lemma Exhausted(lim: Limits, ops: seq<Op>, boot: BootId)
    ensures NextSequence(Final(lim, ops), boot) < 0 <==> End(History(lim, ops), boot) == MAX_INT64 + 1
    ensures End(History(lim, ops), boot) == MAX_INT64 + 1 ==>
      forall req: Request :: req.boot == boot ==> Verdict(Final(lim, ops), lim, req) == Err(Corrupt)
  {
    Tiling(lim, ops, boot);
  }

  /** Exhaustion is final: whatever transactions follow, the stream stays refused. */
  lemma {:induction false} ExhaustedForGood(lim: Limits, ops: seq<Op>, more: seq<Op>, boot: BootId)
    requires NextSequence(Final(lim, ops), boot) < 0
    ensures NextSequence(Final(lim, ops + more), boot) < 0
    ensures forall req: Request :: req.boot == boot ==> Verdict(Final(lim, ops + more), lim, req) == Err(Corrupt)
    decreases |more|
  {
    var all := ops + more;
    if more == [] {
      assert all == ops;
    } else {
      assert all[..|all| - 1] == ops + more[..|more| - 1];
      ExhaustedForGood(lim, ops, more[..|more| - 1], boot);
    }
  }

  lemma FinalNext(lim: Limits, ops: seq<Op>, op: Op)
    ensures Final(lim, ops + [op]) == Apply(Final(lim, ops), lim, op)
  {
    assert (ops + [op])[..|ops|] == ops;
  }

  function Batch(boot: BootId, id: MessageId, count: int, m: Message): Op {
    Enqueue(Request(id, boot, count, (first: int) => Some(m)), Commits)
  }

  /** `ops`, then one batch of `count` samples, stored and deleted by its ACK. */
  function Cycle(ops: seq<Op>, boot: BootId, id: MessageId, count: int, m: Message): seq<Op> {
    ops + [Batch(boot, id, count, m)] + [Delete(id, Commits)]
  }

  /** The two transactions of a cycle on an empty outbox. */
  lemma StoreCycle(s: Store, lim: Limits, boot: BootId, id: MessageId, count: int, m: Message)
    requires s.rows == map[] && lim.maxRows >= 1 && m.Size() <= lim.maxBytes && 1 <= count <= MAX_SAMPLES
    requires 0 <= NextSequence(s, boot) <= MAX_INT64 - count + 1
    ensures var t := Apply(Apply(s, lim, Batch(boot, id, count, m)), lim, Delete(id, Commits));
      t.rows == map[] && NextSequence(t, boot) == Wrap64(NextSequence(s, boot) + count)
  {
    var req := Batch(boot, id, count, m).req;
    assert Bytes(s.rows) == 0 && Verdict(s, lim, req) == Ok(m);
    hide Verdict, Bytes;
    assert Inserted(s, req, m).rows.Keys == {id};
    assert (Inserted(s, req, m).rows - {id}).Keys == {};
  }

  lemma CycleCounts(lim: Limits, ops: seq<Op>, boot: BootId, id: MessageId, count: int, m: Message)
    requires lim.maxRows >= 1 && m.Size() <= lim.maxBytes && 1 <= count <= MAX_SAMPLES
    requires Final(lim, ops).rows == map[] && 0 <= NextSequence(Final(lim, ops), boot) <= MAX_INT64 - count + 1
    ensures Final(lim, Cycle(ops, boot, id, count, m)).rows == map[]
    ensures NextSequence(Final(lim, Cycle(ops, boot, id, count, m)), boot) == Wrap64(NextSequence(Final(lim, ops), boot) + count)
  {
    hide Final, Apply, NextSequence;
    FinalNext(lim, ops, Batch(boot, id, count, m));
    FinalNext(lim, ops + [Batch(boot, id, count, m)], Delete(id, Commits));
    StoreCycle(Final(lim, ops), lim, boot, id, count, m);
  }

  /** `n` full batches in a row, each acknowledged before the next. */
  function FullBatches(boot: BootId, n: nat, m: Message): seq<Op> {
    if n == 0 then [] else Cycle(FullBatches(boot, n - 1, m), boot, n, MAX_SAMPLES, m)
  }

  lemma FreshCounts(lim: Limits, boot: BootId)
    ensures Final(lim, []).rows == map[] && NextSequence(Final(lim, []), boot) == 0
  {}

  lemma {:induction false} FullBatchesCount(lim: Limits, boot: BootId, n: nat, m: Message)
    requires lim.maxRows >= 1 && m.Size() <= lim.maxBytes && MAX_SAMPLES * n <= MAX_INT64
    ensures Final(lim, FullBatches(boot, n, m)).rows == map[]
    ensures NextSequence(Final(lim, FullBatches(boot, n, m)), boot) == MAX_SAMPLES * n
  {
    hide Final, NextSequence, Cycle;
    if n == 0 {
      FreshCounts(lim, boot);
    } else {
      FullBatchesCount(lim, boot, n - 1, m);
      CycleCounts(lim, FullBatches(boot, n - 1, m), boot, n, MAX_SAMPLES, m);
    }
  }

  /** Every batch enqueued has a size the backend accepts. */
  ghost predicate Sized(ops: seq<Op>) {
    forall i :: 0 <= i < |ops| && ops[i].Enqueue? ==> 1 <= ops[i].req.sampleCount <= MAX_SAMPLES
  }

  lemma CycleSized(ops: seq<Op>, boot: BootId, id: MessageId, count: int, m: Message)
    requires Sized(ops) && 1 <= count <= MAX_SAMPLES
    ensures Sized(Cycle(ops, boot, id, count, m))
  {}

  lemma {:induction false} FullBatchesSized(boot: BootId, n: nat, m: Message)
    ensures Sized(FullBatches(boot, n, m))
  {
    hide Cycle;
    if n > 0 {
      FullBatchesSized(boot, n - 1, m);
      CycleSized(FullBatches(boot, n - 1, m), boot, n, MAX_SAMPLES, m);
    }
  }

  /** The end is in reach of batches the backend accepts: 9223372036854775 of 1000 samples
      and one of 808 use up the numbers, whatever their text, with room for one batch. */
  lemma StreamsDoEnd(lim: Limits, boot: BootId, m: Message) returns (ops: seq<Op>)
    requires lim.maxRows >= 1 && m.Size() <= lim.maxBytes
    ensures NextSequence(Final(lim, ops), boot) < 0
    ensures Sized(ops)
  {
    hide Final, NextSequence, FullBatches, Cycle, Sized;
    var n := 9223372036854775;
    FullBatchesCount(lim, boot, n, m);
    CycleCounts(lim, FullBatches(boot, n, m), boot, n + 1, 808, m);
    FullBatchesSized(boot, n, m);
    CycleSized(FullBatches(boot, n, m), boot, n + 1, 808, m);
    ops := Cycle(FullBatches(boot, n, m), boot, n + 1, 808, m);
  }

  lemma {:induction false} EndMonotone(h: seq<Range>, boot: BootId, j: nat, k: nat)
    requires Contiguous(h, boot) && j <= k <= |h|
    ensures 0 <= End(h[..j], boot) <= End(h[..k], boot)
    decreases k
  {
    if k > 0 {
      assert h[..k][..k - 1] == h[..k - 1];
      if j < k { EndMonotone(h, boot, j, k - 1); } else { EndMonotone(h, boot, k - 1, k - 1); }
    }
  }

  /** Every number below End belongs to exactly one committed range, and no range
      reaches beyond it. */
  lemma {:induction false} CoveredOnce(h: seq<Range>, boot: BootId, q: int)
    requires Contiguous(h, boot)
    ensures 0 <= q < End(h, boot) <==> exists k :: 0 <= k < |h| && Covers(h[k], boot, q)
    ensures forall j, k :: 0 <= j < |h| && 0 <= k < |h| && Covers(h[j], boot, q) && Covers(h[k], boot, q) ==> j == k
  {
    forall k | 0 <= k < |h| && Covers(h[k], boot, q)
      ensures End(h[..k], boot) <= q < End(h[..k + 1], boot)
      ensures 0 <= q < End(h, boot)
    {
      assert h[..k + 1][..k] == h[..k];
      EndMonotone(h, boot, 0, k);
      EndMonotone(h, boot, k + 1, |h|);
      assert h[..|h|] == h;
    }
    forall j, k | 0 <= j < k < |h| && Covers(h[j], boot, q)
      ensures !Covers(h[k], boot, q)
    {
      EndMonotone(h, boot, j + 1, k);
    }
    if 0 <= q < End(h, boot) { var k := FindRange(h, boot, q); }
  }

  lemma {:induction false} FindRange(h: seq<Range>, boot: BootId, q: int) returns (k: nat)
    requires Contiguous(h, boot) && 0 <= q < End(h, boot)
    ensures k < |h| && Covers(h[k], boot, q)
  {
    var n := |h| - 1;
    if q < End(h[..n], boot) {
      assert forall i :: 0 <= i < n ==> h[..n][..i] == h[..i];
      k := FindRange(h[..n], boot, q);
    } else {
      k := n;
    }
  }

  /** The tiling read over whole runs. */
  lemma EveryNumberOnce(lim: Limits, ops: seq<Op>, boot: BootId, q: int)
    ensures 0 <= q < End(History(lim, ops), boot) <==>
            exists k :: 0 <= k < |History(lim, ops)| && Covers(History(lim, ops)[k], boot, q)
    ensures var h := History(lim, ops);
      forall j, k :: 0 <= j < |h| && 0 <= k < |h| && Covers(h[j], boot, q) && Covers(h[k], boot, q) ==> j == k
  {
    Tiling(lim, ops, boot);
    CoveredOnce(History(lim, ops), boot, q);
  }

  // ----- quota -----

  ghost predicate WithinQuota(s: Store, lim: Limits) {
    |s.rows| <= lim.maxRows && Bytes(s.rows) <= lim.maxBytes
  }

  lemma QuotaStep(s: Store, lim: Limits, op: Op)
    requires WithinQuota(s, lim)
    ensures WithinQuota(Apply(s, lim, op), lim)
  {
    match op
    case Enqueue(req, c) =>
      if Verdict(s, lim, req).Ok? { BytesAdd(s.rows, req.messageId, NewRow(s, req, Verdict(s, lim, req).value)); }
    case Delete(m, c) =>
      if s.IsPending(m) { BytesRemove(s.rows, m); assert (s.rows - {m}).Keys == s.rows.Keys - {m}; }
    case Quarantine(m, c) =>
      if s.IsPending(m) { BytesStatus(s.rows, m, s.rows[m].(status := Quarantined)); }
  }

  /** Retained rows and bytes, quarantined ones included, never exceed the limits. */
  lemma {:induction false} QuotaAlways(lim: Limits, ops: seq<Op>)
    ensures WithinQuota(Final(lim, ops), lim)
  {
    hide Apply;
    if ops != [] {
      QuotaAlways(lim, ops[..|ops| - 1]);
      QuotaStep(Final(lim, ops[..|ops| - 1]), lim, ops[|ops| - 1]);
    }
  }

  // ----- immutability -----

  /** Identity and bytes of a row; only its status may move. */
  predicate SameBatch(a: Row, b: Row) { a.(status := Pending) == b.(status := Pending) }

  ghost predicate Carried(s: Store, t: Store) {
    && s.lastId <= t.lastId
    && forall m :: m in t.rows && t.rows[m].id <= s.lastId ==> m in s.rows && SameBatch(s.rows[m], t.rows[m])
  }

  lemma CarriedStep(s: Store, t: Store, lim: Limits, op: Op)
    requires t.Valid() && Carried(s, t)
    ensures Carried(s, Apply(t, lim, op))
  {
    hide Verdict;
  }

  /** A row seen at any later time under an old row id is the batch first committed
      under that id, byte for byte: nothing is re-serialised or given a new range. */
  lemma {:induction false} StoredOnce(lim: Limits, ops: seq<Op>, k: nat)
    requires k <= |ops|
    ensures Carried(Final(lim, ops[..k]), Final(lim, ops))
  {
    if k == |ops| {
      assert ops[..k] == ops;
    } else {
      var n := |ops| - 1;
      assert ops[..n][..k] == ops[..k];
      StoredOnce(lim, ops[..n], k);
      ValidAlways(lim, ops[..n]);
      CarriedStep(Final(lim, ops[..k]), Final(lim, ops[..n]), lim, ops[n]);
    }
  }

  // ----- what is stored was rendered for its own place -----

  /** An enqueue of the run asked for this batch, and the stored text is what its request
      renders at the start of the range the batch was given. */
  ghost predicate Rendered(lim: Limits, ops: seq<Op>, row: Row) {
    && Range(row.boot, row.firstSequence, row.sampleCount) in History(lim, ops)
    && exists k :: 0 <= k < |ops| && RendersRow(ops[k], row)
  }

  ghost predicate RendersRow(op: Op, row: Row) {
    && op.Enqueue? && op.req.messageId == row.messageId && op.req.boot == row.boot && op.req.sampleCount == row.sampleCount
    && op.req.render(row.firstSequence) == Some(row.message)
  }

  /** Whatever is retained after any run, quarantined rows included. */
  lemma {:induction false} EveryRowRendered(lim: Limits, ops: seq<Op>)
    ensures forall m :: m in Final(lim, ops).rows ==> Rendered(lim, ops, Final(lim, ops).rows[m])
  {
    if ops != [] {
      var n := |ops| - 1;
      var s, op := Final(lim, ops[..n]), ops[n];
      EveryRowRendered(lim, ops[..n]);
      forall m | m in Final(lim, ops).rows ensures Rendered(lim, ops, Final(lim, ops).rows[m]) {
        var row := Apply(s, lim, op).rows[m];
        if m in s.rows && SameBatch(row, s.rows[m]) {
          RenderedLater(lim, ops, s.rows[m], row);
        } else {
          NewlyRendered(s, lim, op, m);
          assert RendersRow(ops[n], row);
        }
      }
    }
  }

  lemma RenderedLater(lim: Limits, ops: seq<Op>, old_: Row, row: Row)
    requires ops != [] && Rendered(lim, ops[..|ops| - 1], old_) && SameBatch(row, old_)
    ensures Rendered(lim, ops, row)
  {
    var k :| 0 <= k < |ops| - 1 && RendersRow(ops[..|ops| - 1][k], old_);
    assert RendersRow(ops[k], row);
  }

  lemma NewlyRendered(s: Store, lim: Limits, op: Op, m: MessageId)
    requires m in Apply(s, lim, op).rows && !(m in s.rows && SameBatch(Apply(s, lim, op).rows[m], s.rows[m]))
    ensures RendersRow(op, Apply(s, lim, op).rows[m])
    ensures var row := Apply(s, lim, op).rows[m]; Landed(s, lim, op) == [Range(row.boot, row.firstSequence, row.sampleCount)]
  {
    if op.Enqueue? {
      VerdictMeans(s, lim, op.req);
      hide Verdict;
    }
  }
}
