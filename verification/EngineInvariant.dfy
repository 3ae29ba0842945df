/** What every step of the engine keeps. */
module EngineInvariant {
  import opened Wrappers
  import opened Outbox
  import opened Inflight
  import opened Engine

  // ----- durable content -----

  /** Every committed batch is still stored, byte for byte, or was deleted by an ACK. */
  ghost predicate Durable(s: Db) {
    && s.store.Valid()
    && (forall m :: m in s.store.rows ==> m in s.committed && s.committed[m] == s.store.rows[m].message)
    && (forall m :: m in s.committed <==> m in s.store.rows || m in s.delivered)
    && (forall m :: m in s.delivered ==> m !in s.store.rows)
  }

  /** A row held in memory is a row that was committed, unchanged. */
  ghost predicate Faithful(s: State, row: Row) {
    row.messageId in s.db.committed && s.db.committed[row.messageId] == row.message && row.id <= s.db.store.lastId
  }

  ghost predicate Verbatim(s: State) {
    && (forall m :: m in s.sched.inflight ==> s.sched.inflight[m].row.messageId == m && Faithful(s, s.sched.inflight[m].row))
    && (forall h :: h in s.pubs.live ==> s.pubs.live[h].id in s.db.committed && s.db.committed[s.pubs.live[h].id] == s.pubs.live[h].message)
    && (s.loop.Admitting? ==> forall i :: 0 <= i < |s.loop.page| ==> Faithful(s, s.loop.page[i]))
    && (s.loop.Stored? || s.loop.Counted? ==> Faithful(s, s.loop.row))
  }

  // ----- publish invocations -----

  ghost predicate NoAttempt(s: State, m: MessageId) {
    forall h :: h in s.pubs.live ==> s.pubs.live[h].id != m
  }

  /** At most one unfinished invocation or undelivered result per message; it belongs to
      the entry that is publishing, or to an entry dropped after its row was deleted. */
  ghost predicate SinglePublish(s: State) {
    && (forall h :: h in s.pubs.live ==> h < s.pubs.next)
    && (forall h, k :: h in s.pubs.live && k in s.pubs.live && s.pubs.live[h].id == s.pubs.live[k].id ==> h == k)
    && (forall h :: h in s.pubs.live ==>
          if s.pubs.live[h].id in s.sched.inflight then s.sched.inflight[s.pubs.live[h].id].phase.Publishing?
          else !s.db.store.IsPending(s.pubs.live[h].id))
    && (s.loop.Admitting? ==> forall i :: s.loop.next <= i < |s.loop.page| && s.loop.page[i].messageId !in s.sched.inflight ==>
          NoAttempt(s, s.loop.page[i].messageId))
    && (s.loop.Stored? || s.loop.Counted? ==> s.loop.row.messageId !in s.sched.inflight && NoAttempt(s, s.loop.row.messageId))
  }

  /** Until the run is cancelled, a publishing entry really owns an invocation. */
  ghost predicate PublishAlive(s: State) {
    !s.cancelled ==> forall m :: m in s.sched.inflight && s.sched.inflight[m].phase.Publishing? ==> HasAttempt(s.pubs, m)
  }

  ghost predicate HasAttempt(pubs: Pubs, m: MessageId) { exists h :: h in pubs.live && pubs.live[h].id == m }

  // ----- the bounded set and the replay order -----

  function LastAdmitted(s: State): nat { if s.sched.admitted == [] then 0 else s.sched.admitted[|s.sched.admitted| - 1].id }

  ghost predicate AllInFlight(s: State) { forall m :: s.db.store.IsPending(m) ==> m in s.sched.inflight }

  predicate Generating(l: Loop) { l.Enqueueing? || l.Stored? || l.Counted? }

  ghost predicate Bounded(p: Params, s: State) {
    && |s.sched.inflight| <= p.cfg.maxInflight
    && (s.loop.Down? ==> s.sched.inflight == map[])
    && (Generating(s.loop) ==> |s.sched.inflight| < p.cfg.maxInflight)
  }

  ghost predicate PageOk(p: Params, s: State, page: seq<Row>, next: nat) {
    && next <= |page| <= p.cfg.maxInflight
    && DistinctIds(page)
    && (forall i, j :: 0 <= i < j < |page| ==> page[i].id < page[j].id)
    && (forall i :: 0 <= i < next ==> page[i].messageId in s.sched.inflight)
    && (forall i :: next <= i < |page| ==> page[i].messageId in s.sched.inflight || page[i].id > LastAdmitted(s))
    && (forall i :: 0 <= i < |page| && s.db.store.IsPending(page[i].messageId) ==> s.db.store.rows[page[i].messageId].id == page[i].id)
    && (forall m :: s.db.store.IsPending(m) && m !in s.sched.inflight && !OnPage(page, next, m) ==>
          |page| == p.cfg.maxInflight && forall i :: 0 <= i < |page| ==> page[i].id < s.db.store.rows[m].id)
  }

  ghost predicate OnPage(page: seq<Row>, next: nat, m: MessageId) {
    exists i :: next <= i < |page| && page[i].messageId == m
  }

  /** Rows enter the in-flight set oldest first, each at most once in a run, and a batch
      is generated only when nothing older waits outside. */
  ghost predicate Ordered(p: Params, s: State) {
    && (forall i, j :: 0 <= i < j < |s.sched.admitted| ==> s.sched.admitted[i].id < s.sched.admitted[j].id)
    && LastAdmitted(s) <= s.db.store.lastId
    && (!s.loop.Down? ==> forall m :: s.db.store.IsPending(m) && m !in s.sched.inflight ==> s.db.store.rows[m].id > LastAdmitted(s))
    && (s.loop.Scanning? ==> s.loop.pageNo == 0 && s.loop.cursor == 0)
    && (s.loop.Admitting? ==> s.loop.pageNo == 0 && PageOk(p, s, s.loop.page, s.loop.next))
    && (s.loop.Deciding? ==> !s.loop.more && (|s.sched.inflight| >= p.cfg.maxInflight || AllInFlight(s)))
    && (s.loop.Enqueueing? ==> AllInFlight(s))
    && (s.loop.Stored? || s.loop.Counted? ==>
          s.loop.row.id > LastAdmitted(s) && forall m :: s.db.store.IsPending(m) ==> m in s.sched.inflight || m == s.loop.row.messageId)
  }

  // ----- wake-ups -----

  /** Something that will make the scheduler look again, or has stopped it. */
  predicate Covered(s: State) {
    s.ack.notify || s.ack.worker.Deleted? || s.ack.worker.Tallied? || s.ack.worker.Fatal? || s.loop.Stopped? || s.loop.Down?
  }

  /** No room for a batch of this size. */
  ghost predicate FullFor(lim: Limits, store: Store, size: nat) {
    |store.rows| >= lim.maxRows || Bytes(store.rows) + size > lim.maxBytes
  }

  ghost predicate NoLostWakeup(p: Params, s: State) {
    && (forall m :: m in s.sched.inflight && !s.db.store.IsPending(m) ==> Covered(s) || (s.loop.Syncing? && m in s.loop.rest))
    && (s.loop.Admitting? ==> forall i :: 0 <= i < |s.loop.page| && !s.db.store.IsPending(s.loop.page[i].messageId) ==> Covered(s))
    && (s.loop.Stored? || s.loop.Counted? ==> s.db.store.IsPending(s.loop.row.messageId) || Covered(s))
    && ((s.sched.paused || s.loop.FullSeen?) && s.ack.freed ==> Covered(s) || s.loop.Syncing?)
    && ((s.sched.paused || s.loop.FullSeen?) && !s.ack.freed && !s.loop.Down? ==> FullFor(p.limits, s.db.store, s.sched.rejected))
    && (s.sched.paused ==> !Generating(s.loop) && !s.loop.FullSeen?)
  }

  // ----- counters -----

  /** A stored batch not counted yet, or one whose commit the loop never learned of. */
  function UncountedStores(s: State): nat {
    if s.loop.Stored? || StoreUnseen(s.loop) then 1 else 0
  }

  /** The loop stopped without learning that its last commit had landed. */
  predicate StoreUnseen(l: Loop) { l == Stopped(AmbiguousCommit(true)) || l == Stopped(CancelledUnknown(true)) }

  function UncountedDeletes(s: State): nat {
    if s.ack.worker.Deleted? || s.ack.worker == Fatal(true) then 1 else 0
  }

  ghost predicate Conserved(s: State) {
    !s.loop.Down? ==>
      s.sched.initial + s.sched.unique + UncountedStores(s) == |s.db.store.PendingIds()| + s.ack.acked + UncountedDeletes(s)
  }

  ghost predicate Finite(p: Params, s: State) {
    && (p.target > 0 ==> s.sched.unique <= p.target)
    && (!s.loop.Counted? && !s.loop.Down? ==> (s.sched.genDone <==> p.target > 0 && s.sched.unique >= p.target))
    && (Generating(s.loop) ==> !s.sched.genDone)
    && (s.loop.FullSeen? ==> !s.sched.genDone)
    && (s.loop == Stopped(Completed) ==> p.target > 0 && s.sched.unique == p.target && s.db.store.PendingIds() == {})
    && (s.loop.Stopped? && s.loop.why.BudgetExpired? ==> s.sched.genDone && s.loop.why.pendingRows > 0)
  }

  ghost predicate Inv(p: Params, s: State) {
    && p.cfg.Valid()
    && Durable(s.db) && Verbatim(s)
    && SinglePublish(s) && PublishAlive(s)
    && Bounded(p, s) && Ordered(p, s)
    && NoLostWakeup(p, s)
    && Conserved(s) && Finite(p, s)
  }
}
