/** What holds in every reachable state of the engine, for every interleaving, every
    crash and restart, and every fate of every commit. */
module EngineTheorems {
  import opened Wrappers
  import opened Commits
  import opened Outbox
  import opened Inflight
  import opened Engine
  import opened EngineInvariant
  import opened EngineSteps

  /** A process that is not running over any well-formed outbox file. */
  ghost function Rest(store: Store): State {
    State(Db(store, map m | m in store.rows :: store.rows[m].message, {}), Down,
          Sched(map[], false, false, 0, 0, 0, []), Pubs(map[], 0), Ack(Halted, false, 0, false), false)
  }

  ghost predicate Path(p: Params, s: State, actions: seq<Action>, t: State)
    decreases |actions|
  {
    if actions == [] then s == t
    else Enabled(p, s, actions[0]) && Path(p, Next(p, s, actions[0]), actions[1..], t)
  }

  ghost predicate Reaches(p: Params, store: Store, actions: seq<Action>, t: State) {
    p.cfg.Valid() && store.Valid() && Path(p, Rest(store), actions, t)
  }

  ghost predicate Reachable(p: Params, t: State) {
    exists store, actions :: Reaches(p, store, actions, t)
  }

  lemma RestInv(p: Params, store: Store)
    requires p.cfg.Valid() && store.Valid()
    ensures Inv(p, Rest(store))
  {}

  lemma {:induction false} PathInv(p: Params, s: State, actions: seq<Action>, t: State)
    requires Inv(p, s) && Path(p, s, actions, t)
    ensures Inv(p, t)
    decreases |actions|
  {
    hide Inv, Next, Enabled;
    if actions != [] {
      KeepInv(p, s, actions[0]);
      PathInv(p, Next(p, s, actions[0]), actions[1..], t);
    }
  }

  lemma ReachableInv(p: Params, t: State)
    requires Reachable(p, t)
    ensures Inv(p, t)
  {
    hide Inv, Path;
    var store, actions :| Reaches(p, store, actions, t);
    RestInv(p, store);
    PathInv(p, Rest(store), actions, t);
  }

  // ----- no lost wake-up -----

  /** An in-flight entry whose row is gone is always covered: by a token, by a worker on
      its way from the commit to the signal, by an unfinished sync that has yet to look at
      it, or by a stop. */
  lemma StaleEntryCovered(p: Params, s: State, m: MessageId)
    requires Reachable(p, s) && m in s.sched.inflight && !s.db.store.IsPending(m)
    ensures Covered(s) || (s.loop.Syncing? && m in s.loop.rest)
  {
    ReachableInv(p, s);
  }

  /** The same for a scanned row not yet admitted, and for a pause that a delete outdated. */
  lemma StalePageAndPauseCovered(p: Params, s: State)
    requires Reachable(p, s)
    ensures s.loop.Admitting? ==> forall i :: 0 <= i < |s.loop.page| && !s.db.store.IsPending(s.loop.page[i].messageId) ==> Covered(s)
    ensures s.sched.paused && s.ack.freed ==> Covered(s) || s.loop.Syncing?
  {
    ReachableInv(p, s);
  }

  /** So when the loop waits, no token is queued and the worker rests, nothing is stale:
      every entry still has its row, and a pause means the outbox really has no room for
      the batch it refused. */
  lemma QuietMeansAccurate(p: Params, s: State)
    requires Reachable(p, s) && s.loop.Select? && !s.ack.notify && (s.ack.worker.Idle? || s.ack.worker.Halted?)
    ensures forall m :: m in s.sched.inflight ==> s.db.store.IsPending(m)
    ensures s.sched.paused ==> !s.ack.freed && FullFor(p.limits, s.db.store, s.sched.rejected)
  {
    ReachableInv(p, s);
    hide FullFor;
  }

  // ----- conservation -----

  predicate Settled(s: State) { !s.loop.Stored? && !s.loop.Down? && !s.ack.worker.Deleted? }

  /** Initial pending + enqueued = pending + acknowledged, up to one batch the scheduler and
      one row the worker may have lost sight of, each only after it stopped on an unknown
      commit. */
  lemma Conservation(p: Params, s: State)
    requires Reachable(p, s) && Settled(s)
    ensures exists a: nat, b: nat {:trigger LostStore(s, a), LostDelete(s, b)} ::
              LostStore(s, a) && LostDelete(s, b) &&
              s.sched.initial + s.sched.unique + a == |s.db.store.PendingIds()| + s.ack.acked + b
  {
    ReachableInv(p, s);
    assert LostStore(s, UncountedStores(s)) && LostDelete(s, UncountedDeletes(s));
  }

  predicate LostStore(s: State, a: nat) { a == if StoreUnseen(s.loop) then 1 else 0 }
  predicate LostDelete(s: State, b: nat) { b == if s.ack.worker == Fatal(true) then 1 else 0 }

  /** The loop reports a normal stop, and no error, for both. */
  predicate NormalStop(l: Loop) { l == Stopped(Cancelled) || (l.Stopped? && l.why.CancelledUnknown?) }

  /** After a normal stop with the worker at rest the counters balance if and only if no
      enqueue was cut short after it had landed: cancellation hides that one outcome. */
  lemma NormalStopBalances(p: Params, s: State)
    requires Reachable(p, s) && NormalStop(s.loop) && (s.ack.worker.Idle? || s.ack.worker.Halted?)
    ensures s.sched.initial + s.sched.unique == |s.db.store.PendingIds()| + s.ack.acked <==> s.loop != Stopped(CancelledUnknown(true))
  {
    ReachableInv(p, s);
  }

  lemma Cons(p: Params, s: State, a: Action, n: State, rest: seq<Action>, t: State)
    requires Enabled(p, s, a) && Next(p, s, a) == n && Path(p, n, rest, t)
    ensures Path(p, s, [a] + rest, t)
  {
    hide Next, Enabled;
    assert ([a] + rest)[1..] == rest;
  }

  /** A first run over an empty file, at this point of its loop. */
  function FirstRun(l: Loop): State {
    State(Db(FRESH, map[], {}), l, Sched(map[], false, false, 0, 0, 0, []), Pubs(map[], 0), Ack(Idle, false, 0, false), false)
  }

  lemma FirstEnqueue(p: Params, rest: seq<Action>, t: State)
    requires p.cfg.Valid() && Path(p, FirstRun(Enqueueing), rest, t)
    ensures Reachable(p, t)
  {
    var p4 := [Loops(Decide(true))] + rest;
    var p3 := [Loops(Scan([]))] + p4;
    var p2 := [Loops(RetriesDone)] + p3;
    var p1 := [Loops(BeginPass(true, 1))] + p2;
    Cons(p, FirstRun(Deciding(false)), Loops(Decide(true)), FirstRun(Enqueueing), rest, t);
    Cons(p, FirstRun(Scanning(0, 0)), Loops(Scan([])), FirstRun(Deciding(false)), p4, t);
    Cons(p, FirstRun(Retrying(1, {})), Loops(RetriesDone), FirstRun(Scanning(0, 0)), p3, t);
    Cons(p, FirstRun(Top), Loops(BeginPass(true, 1)), FirstRun(Retrying(1, {})), p2, t);
    assert Rest(FRESH).db == FirstRun(Top).db && FRESH.PendingIds() == {};
    Cons(p, Rest(FRESH), Start, FirstRun(Top), p1, t);
    assert Reaches(p, FRESH, [Start] + p1, t);
  }

  /** Such a stop exists for any batch an empty outbox takes: the context ends while the
      first enqueue of a run is under way. */
  lemma NormalStopMayHideAStore(p: Params, req: Request, m: Message) returns (s: State)
    requires p.cfg.Valid() && Verdict(FRESH, p.limits, req) == Ok(m)
    ensures Reachable(p, s) && s.loop == Stopped(CancelledUnknown(true))
    ensures s.sched.unique == 0 && s.sched.initial == 0 && s.db.store.PendingIds() == {req.messageId}
  {
    hide Verdict, Inserted, Reachable;
    var s5 := FirstRun(Enqueueing);
    var s6 := s5.(cancelled := true);
    var last := Loops(Enqueue(req, LostApplied));
    s := Next(p, s6, last);
    StoredAlone(req, m);
    Cons(p, s6, last, s, [], s);
    Cons(p, s5, Cancel, s6, [last] + [], s);
    FirstEnqueue(p, [Cancel] + ([last] + []), s);
  }

  lemma StoredAlone(req: Request, m: Message)
    ensures Inserted(FRESH, req, m).PendingIds() == {req.messageId}
  {}

  // ----- delivery -----

  /** Over all boots: every batch ever committed is still stored with its exact bytes, or
      an ACK deleted it; never both. */
  lemma NothingLost(p: Params, s: State, m: MessageId)
    requires Reachable(p, s)
    ensures m in s.db.committed <==> m in s.db.store.rows || m in s.db.delivered
    ensures !(m in s.db.store.rows && m in s.db.delivered)
    ensures m in s.db.store.rows ==> s.db.store.rows[m].message == s.db.committed[m]
  {
    ReachableInv(p, s);
  }

  /** Only the application ACK removes a row, only a pending one, and only its own. */
  lemma OnlyAckRemoves(p: Params, s: State, a: Action, m: MessageId)
    requires Reachable(p, s) && Enabled(p, s, a) && m in s.db.store.rows && m !in Next(p, s, a).db.store.rows
    ensures a.AckDelete? && a.m == m && Lands(a.c) && s.db.store.IsPending(m)
  {
    hide Verdict, Visited, Resulted, IsPage;
    match a {
      case Loops(l) => if l.AdmitNext? { AdmitNextCases(p, s); }
      case _ =>
    }
  }

  /** At most one unfinished invocation or undelivered result per message, each carrying
      the committed topic and payload; the in-flight set never exceeds its bound. */
  lemma PublishDiscipline(p: Params, s: State)
    requires Reachable(p, s)
    ensures |s.sched.inflight| <= p.cfg.maxInflight
    ensures forall h, k :: h in s.pubs.live && k in s.pubs.live && s.pubs.live[h].id == s.pubs.live[k].id ==> h == k
    ensures forall h :: h in s.pubs.live ==> s.pubs.live[h].id in s.db.committed && s.pubs.live[h].message == s.db.committed[s.pubs.live[h].id]
    ensures !s.cancelled ==> forall m :: m in s.sched.inflight ==> (s.sched.inflight[m].phase.Publishing? <==> HasAttempt(s.pubs, m))
  {
    ReachableInv(p, s);
  }

  /** A consumed result: a PUBACK starts the ACK wait of its own entry, a failure backs it
      off within the retry bounds, and a result whose entry is gone changes nothing. */
  lemma ResultIsWhatItSays(p: Params, s: State, h: nat, clock: Time, draw: real)
    requires Reachable(p, s) && Enabled(p, s, Loops(TakeResult(h, clock, draw)))
    ensures var r, t := s.pubs.live[h], Next(p, s, Loops(TakeResult(h, clock, draw)));
      && t.db == s.db && h !in t.pubs.live && t.sched.inflight.Keys == s.sched.inflight.Keys
      && (forall m :: m in s.sched.inflight && m != r.id ==> t.sched.inflight[m] == s.sched.inflight[m])
      && (r.id in s.sched.inflight ==>
            if r.progress.ok then WaitsAck(p.cfg, s.sched.inflight[r.id], t.sched.inflight[r.id], clock)
            else WaitsRetry(p.cfg, s.sched.inflight[r.id], t.sched.inflight[r.id], clock))
  {
    ReachableInv(p, s);
    var r := s.pubs.live[h];
    if r.id in s.sched.inflight {
      assert s.sched.inflight[r.id].phase.Publishing?;
      ResultedMeans(p.cfg, s.sched.inflight[r.id], r.progress.ok, Answered(s, r.id, clock, draw));
    }
    hide Resulted, WaitsAck, WaitsRetry, Reachable, Inv, Answered;
    assert Next(p, s, Loops(TakeResult(h, clock, draw))) == AfterResult(p, s, h, clock, draw);
    hide Next, Enabled;
  }

  predicate Republishes(e: Entry, t: Table, m: MessageId) { m in t && t[m].phase.Publishing? && t[m].row == e.row && t[m].retries == e.retries }

  /** An entry looked at by the retry walk: left alone while it is not due, published again
      after its backoff, and after its ACK wait dropped or backed off as its row is gone or
      still pending; if that row cannot be read, the loop stops over it. */
  lemma RetryIsWhatItSays(p: Params, s: State, m: MessageId, fails: bool, clock: Time, draw: real)
    requires p.cfg.Valid() && Enabled(p, s, Loops(RetryVisit(m, fails, clock, draw)))
    ensures var e, t := s.sched.inflight[m], Next(p, s, Loops(RetryVisit(m, fails, clock, draw)));
      && t.db == s.db && t.ack == s.ack
      && (forall o :: o != m ==> (o in t.sched.inflight <==> o in s.sched.inflight) && (o in s.sched.inflight ==> t.sched.inflight[o] == s.sched.inflight[o]))
      && (e.phase.Publishing? || s.loop.now < e.nextAt ==> t.sched == s.sched && t.pubs == s.pubs && !t.loop.Stopped?)
      && (e.phase.Backoff? && s.loop.now >= e.nextAt ==> t.pubs == s.pubs.Launch(e.row) && Republishes(e, t.sched.inflight, m))
      && (e.phase.AwaitAck? && s.loop.now >= e.nextAt && fails ==> t.loop.Stopped? && t.sched == s.sched && t.pubs == s.pubs)
      && (e.phase.AwaitAck? && s.loop.now >= e.nextAt && !fails ==> t.pubs == s.pubs && (m in t.sched.inflight <==> s.db.store.IsPending(m)))
      && (e.phase.AwaitAck? && s.loop.now >= e.nextAt && !fails && s.db.store.IsPending(m) ==> WaitsRetry(p.cfg, e, t.sched.inflight[m], clock))
  {
    var e := s.sched.inflight[m];
    VisitMeans(p.cfg, e, s.loop.now, Answered(s, m, clock, draw));
    assert e.phase.Publishing? || s.loop.now < e.nextAt ==> s.sched.inflight[m := e] == s.sched.inflight;
    hide WaitsRetry, Visited;
  }

  // ----- why the loop stops -----

  /** The events that end the loop: a peer's failure, a noticed cancel, a read or a commit that
      fails, and in a finite run that has generated its last batch, an empty outbox or the end
      of the wait for one. */
  ghost predicate Ends(p: Params, s: State, a: LoopAction) {
    match a
    case PeerFatal => true
    case NoticeCancel => true
    case ScanFails => true
    case EnqueueFails => true
    case SyncVisit(_, fails) => fails
    case RetryVisit(m, fails, _, _) => fails && m in s.sched.inflight && s.sched.inflight[m].phase.AwaitAck? && s.loop.Retrying? && s.loop.now >= s.sched.inflight[m].nextAt
    case Enqueue(req, c) =>
      var v := Verdict(s.db.store, p.limits, req);
      (v.Err? && !v.error.Full?) || (v.Ok? && !c.Commits?)
    case Check(deadline, fails) => p.target > 0 && s.sched.genDone && (fails || deadline || s.db.store.PendingIds() == {})
    case _ => false
  }

  /** What each stop tells the caller.  An error or a lost commit that comes after the cancel
      is reported as the cancel; the end of the wait names the rows still pending. */
  lemma StopHasItsReason(p: Params, s: State, a: LoopAction)
    requires Enabled(p, s, Loops(a)) && !s.loop.Stopped?
    ensures Next(p, s, Loops(a)).loop.Stopped? <==> Ends(p, s, a)
    ensures Ends(p, s, a) ==>
      match Next(p, s, Loops(a)).loop.why
      case Cancelled => s.cancelled
      case CancelledUnknown(_) => s.cancelled && a.Enqueue?
      case AmbiguousCommit(applied) => !s.cancelled && a.Enqueue? && applied == a.c.LostApplied? && !a.c.Aborts?
      case Broken => !s.cancelled || a.PeerFatal?
      case Completed => a.Check? && s.db.store.PendingIds() == {} && !a.countFails
      case BudgetExpired(n) => !s.cancelled && a.Check? && a.deadlinePassed && !a.countFails && n == |s.db.store.PendingIds()| && s.db.store.PendingIds() != {}
    ensures a.PeerFatal? ==> Next(p, s, Loops(a)).loop == Stopped(Broken)
    ensures a.Enqueue? && Verdict(s.db.store, p.limits, a.req).Ok? && (a.c.LostApplied? || a.c.LostDropped?) ==>
      Next(p, s, Loops(a)).loop == Stopped(if s.cancelled then CancelledUnknown(a.c.LostApplied?) else AmbiguousCommit(a.c.LostApplied?))
  {
    hide Verdict, Visited, Resulted, AfterAdmitNext;
    if a.AdmitNext? { AdmitNextGoesOn(p, s); }
  }

  lemma AdmitNextGoesOn(p: Params, s: State)
    requires s.loop.Admitting? && s.loop.next <= |s.loop.page|
    ensures !AfterAdmitNext(p, s).loop.Stopped?
  {}

  /** A normal stop is never reported without a cancel. */
  lemma NormalStopWasCancelled(p: Params, s: State)
    requires Reachable(p, s) && NormalStop(s.loop)
    ensures s.cancelled
  {
    var store, actions :| Reaches(p, store, actions, s);
    hide Reaches, NormalStop;
    assert Path(p, Rest(store), actions, s) && (NormalStop(Rest(store).loop) ==> Rest(store).cancelled) by { hide Path; assert Reaches(p, store, actions, s); RestStop(p, store, actions, s); }
    CancelPath(p, Rest(store), actions, s);
  }

  lemma RestStop(p: Params, store: Store, actions: seq<Action>, s: State)
    requires Reaches(p, store, actions, s)
    ensures Path(p, Rest(store), actions, s) && !NormalStop(Rest(store).loop)
  {
    hide Path;
  }

  lemma {:induction false} CancelPath(p: Params, s: State, actions: seq<Action>, t: State)
    requires (NormalStop(s.loop) ==> s.cancelled) && Path(p, s, actions, t)
    ensures NormalStop(t.loop) ==> t.cancelled
    decreases |actions|
  {
    hide Next, Enabled, NormalStop;
    if actions != [] {
      CancelStep(p, s, actions[0]);
      CancelPath(p, Next(p, s, actions[0]), actions[1..], t);
    }
  }

  lemma CancelStep(p: Params, s: State, a: Action)
    requires (NormalStop(s.loop) ==> s.cancelled) && Enabled(p, s, a)
    ensures NormalStop(Next(p, s, a).loop) ==> Next(p, s, a).cancelled
  {
    if a.Loops? {
      assert Next(p, s, a).cancelled == s.cancelled by { hide Verdict, Visited, Resulted; }
      if s.loop.Stopped? { assert Next(p, s, a).loop == s.loop; } else { hide LoopNext, LoopEnabled, Ends; StopHasItsReason(p, s, a.step); }
    }
  }

  lemma WaitingMore(pubs: Pubs, h: nat, q: Progress)
    requires h in pubs.live
    ensures pubs.Advance(h, q).Waiting() <= pubs.Waiting() + {h}
    ensures !q.Queued? ==> pubs.Advance(h, q).Waiting() <= pubs.Waiting()
    ensures pubs.Drop(h).Waiting() <= pubs.Waiting()
  {}

  lemma Fewer(a: set<nat>, b: set<nat>)
    requires a <= b
    ensures |a| <= |b|
  {
    assert b == a + (b - a);
  }

  lemma LaunchedWaits(pubs: Pubs, row: Row)
    ensures pubs.Launch(row).Waiting() <= pubs.Waiting()
  {}

  lemma LoopQueues(p: Params, s: State, a: LoopAction)
    requires LoopEnabled(p, s, a)
    ensures LoopNext(p, s, a).pubs.Waiting() <= s.pubs.Waiting()
  {
    hide Verdict, Visited, Resulted;
    forall row { LaunchedWaits(s.pubs, row); }
  }

  lemma QueueStep(p: Params, s: State, a: Action)
    requires |s.pubs.Waiting()| <= p.cfg.maxInflight && Enabled(p, s, a)
    ensures |Next(p, s, a).pubs.Waiting()| <= p.cfg.maxInflight
  {
    var n := Next(p, s, a);
    hide LoopNext, LoopEnabled;
    match a
    case Loops(step) => LoopQueues(p, s, step); Fewer(n.pubs.Waiting(), s.pubs.Waiting());
    case PublishReturns(h, ok) => WaitingMore(s.pubs, h, Returned(ok)); Fewer(n.pubs.Waiting(), s.pubs.Waiting());
    case SendResult(h) => WaitingMore(s.pubs, h, Queued(s.pubs.live[h].progress.ok)); Fewer(n.pubs.Waiting(), s.pubs.Waiting() + {h});
    case DiscardResult(h) => WaitingMore(s.pubs, h, Running); Fewer(n.pubs.Waiting(), s.pubs.Waiting());
    case Exit => assert n.pubs.Waiting() == {};
    case _ => assert n.pubs == s.pubs;
  }

  lemma {:induction false} QueuePath(p: Params, s: State, actions: seq<Action>, t: State)
    requires |s.pubs.Waiting()| <= p.cfg.maxInflight && Path(p, s, actions, t)
    ensures |t.pubs.Waiting()| <= p.cfg.maxInflight
    decreases |actions|
  {
    hide Next, Enabled;
    if actions != [] {
      QueueStep(p, s, actions[0]);
      QueuePath(p, Next(p, s, actions[0]), actions[1..], t);
    }
  }

  /** The queue of results never holds more than MaxInflight. */
  lemma QueueBounded(p: Params, s: State)
    requires Reachable(p, s)
    ensures |s.pubs.Waiting()| <= p.cfg.maxInflight && p.cfg.Valid()
  {
    var store, actions :| Reaches(p, store, actions, s);
    hide Path;
    assert Rest(store).pubs.Waiting() == {};
    QueuePath(p, Rest(store), actions, s);
  }

  /** A finished publish can hand over its result even if the queue of results is full: the
      waiting loop takes one first. */
  lemma ResultGetsThrough(p: Params, s: State, h: nat) returns (t: State)
    requires Reachable(p, s) && s.loop.Select? && h in s.pubs.live && s.pubs.live[h].progress.Returned?
    ensures LeadsTo(p, s, t) && h in t.pubs.live && t.pubs.live[h] == s.pubs.live[h].(progress := Queued(s.pubs.live[h].progress.ok))
  {
    QueueBounded(p, s);
    if |s.pubs.Waiting()| < p.cfg.maxInflight {
      t := Next(p, s, SendResult(h));
      Stay(p, t);
      hide Path;
      Onward(p, s, SendResult(h), t);
    } else {
      var k :| k in s.pubs.Waiting();
      var take := Loops(TakeResult(k, 0, 0.5));
      var n := Next(p, s, take);
      assert n.pubs.Waiting() == s.pubs.Waiting() - {k};
      OneWaits(p, s, n, k);
      t := Next(p, n, SendResult(h));
      Stay(p, t);
      hide Path, LeadsTo;
      Onward(p, n, SendResult(h), t);
      Onward(p, s, take, t);
    }
  }

  lemma OneWaits(p: Params, s: State, n: State, k: nat)
    requires k in s.pubs.Waiting() && n.pubs.Waiting() == s.pubs.Waiting() - {k}
    ensures |n.pubs.Waiting()| == |s.pubs.Waiting()| - 1
  {}

  /** Isolating a row while no process runs takes it out of the pending ones and keeps every
      byte of it. */
  lemma IsolatedIsKept(p: Params, s: State, m: MessageId, c: Commit)
    requires s.loop.Down? && s.db.store.IsPending(m) && (c.Commits? || c.LostApplied?)
    ensures Enabled(p, s, Isolate(m, c))
    ensures var t := Next(p, s, Isolate(m, c));
      && m in t.db.store.rows && !t.db.store.IsPending(m) && t.db.store.rows[m].message == s.db.store.rows[m].message
      && t.db.store.rows - {m} == s.db.store.rows - {m} && t == s.(db := t.db)
  {}

  // ----- replay order -----

  /** In a run every row is admitted at most once and in row order. */
  lemma AdmittedInOrder(p: Params, s: State, i: nat, j: nat)
    requires Reachable(p, s) && i < j < |s.sched.admitted|
    ensures s.sched.admitted[i].id < s.sched.admitted[j].id
  {
    ReachableInv(p, s);
  }

  /** A batch is stored only while every pending row is already in flight: replay always
      goes first, and the page cap never stands in the way. */
  lemma ReplayBeforeGeneration(p: Params, s: State, req: Request, c: Commit)
    requires Reachable(p, s) && Enabled(p, s, Loops(Enqueue(req, c)))
    ensures forall m :: s.db.store.IsPending(m) ==> m in s.sched.inflight
    ensures |s.sched.inflight| < p.cfg.maxInflight
  {
    ReachableInv(p, s);
  }

  lemma PageCapUnreachable(p: Params, s: State)
    requires Reachable(p, s)
    ensures s.loop.Scanning? ==> s.loop.pageNo == 0
    ensures s.loop.Deciding? ==> !s.loop.more
  {
    ReachableInv(p, s);
  }

  // ----- the loop comes round -----

  ghost predicate LeadsTo(p: Params, s: State, t: State) { exists actions :: Path(p, s, actions, t) }

  lemma Stay(p: Params, s: State)
    ensures LeadsTo(p, s, s)
  {
    assert Path(p, s, [], s);
  }

  lemma Onward(p: Params, s: State, a: Action, t: State)
    requires Enabled(p, s, a) && LeadsTo(p, Next(p, s, a), t)
    ensures LeadsTo(p, s, t)
  {
    var rest :| Path(p, Next(p, s, a), rest, t);
    hide Next, Enabled;
    Cons(p, s, a, Next(p, s, a), rest, t);
    assert Path(p, s, [a] + rest, t);
  }

  /** checkCompletion lets the loop go on, to its wait and round again, unless the finite run
      is complete. */
  lemma CheckGoesOn(p: Params, s: State)
    requires s.loop.Checking?
    ensures if p.target > 0 && s.sched.genDone && s.db.store.PendingIds() == {}
      then LeadsTo(p, s, s.(loop := Stopped(Completed))) else LeadsTo(p, s, s.(loop := Top))
  {
    hide Path;
    var n := Next(p, s, Loops(Check(false, false)));
    if p.target > 0 && s.sched.genDone && s.db.store.PendingIds() == {} {
      Stay(p, n);
      Onward(p, s, Loops(Check(false, false)), n);
    } else {
      WaitEnds(p, n);
      Onward(p, s, Loops(Check(false, false)), s.(loop := Top));
    }
  }

  /** While the transport is not ready a pass publishes, scans and generates nothing: it goes
      straight to the completion check. */
  lemma UnreadyPassIsIdle(p: Params, s: State, now: Time)
    requires s.loop.Top? && !s.cancelled
    ensures Enabled(p, s, Loops(BeginPass(false, now)))
    ensures var t := Next(p, s, Loops(BeginPass(false, now))); t.loop.Checking? && t == s.(loop := t.loop)
  {}

  /** The wait ends without any event, by its timer. */
  lemma WaitEnds(p: Params, s: State)
    requires s.loop.Select?
    ensures LeadsTo(p, s, s.(loop := Top))
  {
    hide Path;
    Stay(p, s.(loop := Top));
    Onward(p, s, Loops(Wake), s.(loop := Top));
  }

  /** The entries of `t` whose rows are pending, or which are still to be looked at. */
  function Synced(s: State, t: Table, rest: set<MessageId>): Table {
    map m | m in t && (m in rest || s.db.store.IsPending(m)) :: t[m]
  }

  /** A token the worker left leads back to the top with the token taken, the pause lifted and
      exactly the entries whose rows are still pending. */
  lemma TokenIsServed(p: Params, s: State)
    requires s.loop.Select? && s.ack.notify
    ensures LeadsTo(p, s, s.(loop := Top, ack := s.ack.(notify := false), sched := s.sched.(paused := false, inflight := Synced(s, s.sched.inflight, {}))))
  {
    hide Path;
    var n := Next(p, s, Loops(TakeNotify));
    SyncRuns(p, n);
    assert Synced(n, n.sched.inflight, {}) == Synced(s, s.sched.inflight, {});
    Onward(p, s, Loops(TakeNotify), n.(loop := Top, sched := n.sched.(paused := false, inflight := Synced(n, n.sched.inflight, {}))));
  }

  lemma {:induction false} SyncRuns(p: Params, s: State)
    requires s.loop.Syncing? && forall m :: m in s.sched.inflight && m !in s.loop.rest ==> s.db.store.IsPending(m)
    ensures LeadsTo(p, s, s.(loop := Top, sched := s.sched.(paused := false, inflight := Synced(s, s.sched.inflight, {}))))
    decreases s.loop.rest
  {
    hide Path;
    var goal := s.(loop := Top, sched := s.sched.(paused := false, inflight := Synced(s, s.sched.inflight, {})));
    if s.loop.rest == {} {
      assert Synced(s, s.sched.inflight, {}) == s.sched.inflight;
      Stay(p, goal);
      Onward(p, s, Loops(SyncDone), goal);
    } else {
      var m :| m in s.loop.rest;
      var n := Next(p, s, Loops(SyncVisit(m, false)));
      assert Synced(n, n.sched.inflight, {}) == Synced(s, s.sched.inflight, {});
      SyncRuns(p, n);
      Onward(p, s, Loops(SyncVisit(m, false)), goal);
    }
  }

  // ----- finite runs -----

  /** Never more than the target, done exactly at the target; a completed run has stored
      exactly the target and left nothing pending; a budget stop has rows left. */
  lemma FiniteRun(p: Params, s: State)
    requires Reachable(p, s) && p.target > 0
    ensures s.sched.unique <= p.target
    ensures !s.loop.Counted? && !s.loop.Down? ==> (s.sched.genDone <==> s.sched.unique == p.target)
    ensures s.loop == Stopped(Completed) ==> s.sched.unique == p.target && s.db.store.PendingIds() == {}
    ensures s.loop.Stopped? && s.loop.why.BudgetExpired? ==> s.loop.why.pendingRows > 0
  {
    ReachableInv(p, s);
  }

  /** A completed run whose worker is at rest has seen an ACK commit for everything it
      found and everything it stored. */
  lemma CompletedIsAcknowledged(p: Params, s: State)
    requires Reachable(p, s) && s.loop == Stopped(Completed) && (s.ack.worker.Idle? || s.ack.worker.Tallied? || s.ack.worker.Halted?)
    ensures s.ack.acked == s.sched.initial + p.target
  {
    ReachableInv(p, s);
  }
}
