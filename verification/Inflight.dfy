/** The bounded in-flight set of scheduler.go: one entry per admitted row, and the
    single-entry transitions the loop applies to it.  The class in Scheduler.dfy and
    the step system in Engine.dfy both act through these functions. */
module Inflight {
  import opened Wrappers
  import opened Outbox
  import Numbers
  import Retry

  /** Nanoseconds; ZERO is the unset time.Time. */
  type Time = int
  const ZERO: Time := 0

  datatype Phase = Publishing | AwaitAck | Backoff

  datatype Entry = Entry(row: Row, phase: Phase, retries: nat, nextAt: Time)

  type Table = map<MessageId, Entry>

  datatype Config = Config(maxInflight: nat, ackTimeout: nat, retryMin: nat, retryMax: nat) {
    /** What NewScheduler demands of its options. */
    predicate Valid() { maxInflight >= 1 && ackTimeout > 0 && 0 < retryMin <= retryMax }
  }

  /** What the outside world answers while one entry is handled: the row lookup, the
      clock and the random draw. */
  datatype Lookup = Still | Gone | Failed
  datatype Answer = Answer(lookup: Lookup, clock: Time, draw: real)

  function Admitted(row: Row): Entry { Entry(row, Publishing, 0, ZERO) }

  ghost function BackedOff(cfg: Config, e: Entry, a: Answer): Entry {
    Entry(e.row, Backoff, e.retries + 1,
          a.clock + Retry.Jittered(Retry.Base(cfg.retryMin, cfg.retryMax, e.retries), cfg.retryMax, a.draw))
  }

  /** onPublishResult for an entry that owns the publish. */
  ghost function Resulted(cfg: Config, e: Entry, ok: bool, a: Answer): Entry {
    if ok then e.(phase := AwaitAck, nextAt := a.clock + cfg.ackTimeout) else BackedOff(cfg, e, a)
  }

  predicate Due(e: Entry, now: Time) { !e.phase.Publishing? && now >= e.nextAt }

  /** processDueRetries on one entry; None drops it. */
  ghost function Visited(cfg: Config, e: Entry, now: Time, a: Answer): Option<Entry> {
    if !Due(e, now) then Some(e)
    else if e.phase.Backoff? then Some(e.(phase := Publishing))
    else if a.lookup.Gone? then None
    else Some(BackedOff(cfg, e, a))
  }

  predicate RepublishDue(e: Entry, now: Time) { Due(e, now) && e.phase.Backoff? }

  // ----- the transitions read off the entry -----

  /** The retry is between 0.8 of min(retryMax, retryMin * 2^retries), truncated, and
      retryMax after the clock reading. */
  ghost predicate WaitsRetry(cfg: Config, e: Entry, f: Entry, clock: Time) {
    f.phase == Backoff && f.row == e.row && f.retries == e.retries + 1
    && clock + Retry.Scale(Numbers.Min(cfg.retryMax, cfg.retryMin * Retry.Pow2(e.retries)), 0.8) <= f.nextAt <= clock + cfg.retryMax
  }

  ghost predicate WaitsAck(cfg: Config, e: Entry, f: Entry, clock: Time) {
    f.phase == AwaitAck && f.row == e.row && f.retries == e.retries && f.nextAt == clock + cfg.ackTimeout
  }

  lemma BackedOffMeans(cfg: Config, e: Entry, a: Answer)
    requires cfg.Valid() && 0.0 <= a.draw < 1.0
    ensures WaitsRetry(cfg, e, BackedOff(cfg, e, a), a.clock)
  {
    Retry.JitterBounds(Retry.Base(cfg.retryMin, cfg.retryMax, e.retries), cfg.retryMax, a.draw);
  }

  /** A PUBACK starts the ACK wait; a failed publish backs off. */
  lemma ResultedMeans(cfg: Config, e: Entry, ok: bool, a: Answer)
    requires cfg.Valid() && 0.0 <= a.draw < 1.0
    ensures if ok then WaitsAck(cfg, e, Resulted(cfg, e, ok, a), a.clock) else WaitsRetry(cfg, e, Resulted(cfg, e, ok, a), a.clock)
  {
    BackedOffMeans(cfg, e, a);
  }

  /** An entry not due stays as it is; a due backoff is published again with its count; an
      overdue ACK wait backs off, or is dropped if its row is gone. */
  ghost predicate VisitedMeans(cfg: Config, e: Entry, now: Time, a: Answer, o: Option<Entry>) {
    if e.phase.Publishing? || now < e.nextAt then o == Some(e)
    else match e.phase
      case Backoff => o.Some? && o.value.phase == Publishing && o.value.row == e.row && o.value.retries == e.retries
      case _ => if a.lookup.Gone? then o.None? else o.Some? && WaitsRetry(cfg, e, o.value, a.clock)
  }

  lemma VisitMeans(cfg: Config, e: Entry, now: Time, a: Answer)
    requires cfg.Valid() && 0.0 <= a.draw < 1.0
    ensures VisitedMeans(cfg, e, now, a, Visited(cfg, e, now, a))
    ensures RepublishDue(e, now) <==> e.phase.Backoff? && now >= e.nextAt
  {
    BackedOffMeans(cfg, e, a);
  }

  function Replace(t: Table, m: MessageId, o: Option<Entry>): Table {
    if o.Some? then t[m := o.value] else t - {m}
  }

  /** admit, when a slot is free and the row is not in flight yet. */
  function AdmitOne(t: Table, row: Row, max: nat): Table {
    if |t| >= max || row.messageId in t then t else t[row.messageId := Admitted(row)]
  }

  function AdmitAll(t: Table, page: seq<Row>, max: nat): Table {
    if page == [] then t else AdmitOne(AdmitAll(t, page[..|page| - 1], max), page[|page| - 1], max)
  }

  predicate DistinctIds(page: seq<Row>) {
    forall i, j :: 0 <= i < j < |page| ==> page[i].messageId != page[j].messageId
  }

  lemma AdmitOneBound(t: Table, row: Row, max: nat)
    requires |t| <= max
    ensures |AdmitOne(t, row, max)| <= max
    ensures t.Keys <= AdmitOne(t, row, max).Keys
  {
    assert t[row.messageId := Admitted(row)].Keys == t.Keys + {row.messageId};
  }

  /** Admission keeps every entry, stays within the bound and, when a slot is left
      over, has taken in the whole page. */
  lemma {:induction false} AdmitAllFills(t: Table, page: seq<Row>, max: nat)
    requires |t| <= max
    ensures |AdmitAll(t, page, max)| <= max
    ensures forall m :: m in t ==> m in AdmitAll(t, page, max) && AdmitAll(t, page, max)[m] == t[m]
    ensures |AdmitAll(t, page, max)| < max ==> forall r :: r in page ==> r.messageId in AdmitAll(t, page, max)
  {
    if page != [] {
      var n := |page| - 1;
      var u := AdmitAll(t, page[..n], max);
      AdmitAllFills(t, page[..n], max);
      AdmitOneBound(u, page[n], max);
      if |u| == max { assert AdmitOne(u, page[n], max) == u; }
      forall r | r in page && |AdmitOne(u, page[n], max)| < max ensures r.messageId in AdmitOne(u, page[n], max) {
        assert |u| < max;
        assert page == page[..n] + [page[n]];
      }
    }
  }

  /** Old entries stay; a new one is a row of the page, publishing for the first time, and no
      older row of the page was passed over; and slots are used as long as rows are left. */
  ghost predicate OldestFirst(t: Table, page: seq<Row>, max: nat, u: Table) {
    && (forall m :: m in t ==> m in u && u[m] == t[m])
    && (forall m :: m in u && m !in t ==> exists i :: 0 <= i < |page| && NewEntry(page[i], m, u[m]))
    && (forall i, j :: 0 <= i < j < |page| && page[j].messageId in u && page[j].messageId !in t ==> page[i].messageId in u)
    && (|u| < max ==> forall i :: 0 <= i < |page| ==> page[i].messageId in u)
    && |u| <= max
  }

  predicate NewEntry(row: Row, m: MessageId, e: Entry) {
    row.messageId == m && e.row == row && e.phase.Publishing? && e.retries == 0
  }

  lemma {:induction false} AdmitsNew(t: Table, page: seq<Row>, max: nat)
    ensures var u := AdmitAll(t, page, max);
      forall m :: m in u && m !in t ==> exists i :: 0 <= i < |page| && NewEntry(page[i], m, u[m])
  {
    if page != [] {
      var n := |page| - 1;
      var k, u := AdmitAll(t, page[..n], max), AdmitAll(t, page, max);
      AdmitsNew(t, page[..n], max);
      forall m | m in u && m !in t ensures exists i :: 0 <= i < |page| && NewEntry(page[i], m, u[m]) {
        if m in k {
          var i :| 0 <= i < n && NewEntry(page[..n][i], m, k[m]);
          assert NewEntry(page[i], m, u[m]);
        } else {
          NewOne(k, page[n], max, m);
          assert NewEntry(page[n], m, u[m]);
        }
      }
    }
  }

  lemma {:induction false} AdmitsInOrder(t: Table, page: seq<Row>, max: nat, i: nat, j: nat)
    requires |t| <= max && DistinctIds(page) && i < j < |page|
    requires page[j].messageId in AdmitAll(t, page, max) && page[j].messageId !in t
    ensures page[i].messageId in AdmitAll(t, page, max)
  {
    var n := |page| - 1;
    var k := AdmitAll(t, page[..n], max);
    AdmitAllFills(t, page[..n], max);
    if j < n {
      assert page[..n][j] == page[j] && page[..n][i] == page[i];
      hide AdmitAll;
      AdmitsInOrder(t, page[..n], max, i, j);
    } else {
      AdmitsNew(t, page[..n], max);
      assert page[i] in page[..n];
    }
  }

  lemma AdmitsOldestFirst(t: Table, page: seq<Row>, max: nat)
    requires |t| <= max && DistinctIds(page)
    ensures OldestFirst(t, page, max, AdmitAll(t, page, max))
  {
    hide AdmitAll, DistinctIds, NewEntry;
    var u := AdmitAll(t, page, max);
    AdmitAllFills(t, page, max);
    AdmitsNew(t, page, max);
    forall i, j | 0 <= i < j < |page| && page[j].messageId in u && page[j].messageId !in t ensures page[i].messageId in u {
      AdmitsInOrder(t, page, max, i, j);
    }
    forall i | 0 <= i < |page| && |u| < max ensures page[i].messageId in u { assert page[i] in page; }
  }

  lemma NewOne(k: Table, row: Row, max: nat, m: MessageId)
    requires m in AdmitOne(k, row, max) && m !in k
    ensures NewEntry(row, m, AdmitOne(k, row, max)[m]) && |k| < max
  {}

  /** Distinct rows that are all in flight cannot outnumber the in-flight set. */
  lemma {:induction false} Pigeonhole(page: seq<Row>, ids: set<MessageId>)
    requires DistinctIds(page) && forall r :: r in page ==> r.messageId in ids
    ensures |page| <= |ids|
  {
    if page != [] {
      var n := |page| - 1;
      Pigeonhole(page[..n], ids - {page[n].messageId});
    }
  }

  /** One page suffices: after a page of at most `max` distinct rows, either no slot
      is free or the page was short and all of it is in flight. */
  lemma OnePageSuffices(t: Table, page: seq<Row>, max: nat)
    requires |t| <= max && DistinctIds(page) && |page| <= max
    ensures var u := AdmitAll(t, page, max);
      |u| == max || (|page| < max && forall r :: r in page ==> r.messageId in u)
  {
    AdmitAllFills(t, page, max);
    if |AdmitAll(t, page, max)| < max { Pigeonhole(page, AdmitAll(t, page, max).Keys); }
  }
}
