/** Each step of the engine keeps each part of the invariant. */
module EngineSteps {
  import opened Wrappers
  import opened Commits
  import opened Outbox
  import opened Inflight
  import opened Engine
  import opened EngineInvariant

  // ----- steps that only move control or counters -----

  predicate Quiet(a: Action) {
    match a
    case Loops(l) => !(l.RetryVisit? || l.Scan? || l.AdmitNext? || l.Enqueue? || l.AdmitStored? || l.SyncVisit? || l.TakeResult?)
    case _ => a.Tally? || a.Signal? || a.WorkerStops? || a.Cancel? || a.Start?
  }

  predicate Follows(l: Loop, k: Loop) {
    k == l || (l.Stored? && k == Counted(l.row)) || !(k.Admitting? || k.Stored? || k.Counted?)
  }

  predicate SameWork(s: State, t: State) {
    t.db == s.db && t.pubs == s.pubs && t.sched.inflight == s.sched.inflight && Follows(s.loop, t.loop)
  }

  lemma QuietStep(p: Params, s: State, a: Action)
    requires Enabled(p, s, a) && Quiet(a)
    ensures SameWork(s, Next(p, s, a))
    ensures Next(p, s, a).cancelled == s.cancelled || a.Cancel? || a.Start?
    ensures !a.Start? ==> Next(p, s, a).sched.admitted == s.sched.admitted
  {}

  /** The state AdmitStored admits into. */
  function Marked(p: Params, s: State): State {
    s.(sched := s.sched.(genDone := s.sched.genDone || (p.target > 0 && s.sched.unique >= p.target)), loop := Checking)
  }

  /** The state AdmitNext admits into. */
  function Turned(s: State): State
    requires s.loop.Admitting?
  {
    s.(loop := Admitting(s.loop.pageNo, s.loop.page, s.loop.next + 1))
  }

  predicate Admits(p: Params, s: State) {
    s.loop.Admitting? && SlotFree(p, s) && s.loop.next < |s.loop.page| && s.loop.page[s.loop.next].messageId !in s.sched.inflight
  }

  lemma AdmitNextCases(p: Params, s: State)
    requires s.loop.Admitting? && s.loop.next <= |s.loop.page|
    ensures Admits(p, s) ==> AfterAdmitNext(p, s) == Admit(Turned(s), s.loop.page[s.loop.next])
    ensures !Admits(p, s) ==> var t := AfterAdmitNext(p, s);
      t == s.(loop := t.loop) && (t.loop == Turned(s).loop || !(t.loop.Admitting? || t.loop.Stored? || t.loop.Counted?))
  {}

  // ----- durable content -----

  lemma KeepDurable(p: Params, s: State, a: Action)
    requires Durable(s.db) && Enabled(p, s, a)
    ensures Durable(Next(p, s, a).db)
  {
    hide Durable;
    match a {
      case Loops(step) => if step.Enqueue? { EnqueueDurable(p, s, step.req, step.c); }
      case AckDelete(m, c) => AckDurable(s, m, c);
      case Isolate(m, c) => IsolateDurable(s.db, m, c);
      case _ =>
    }
  }

  lemma EnqueueDurable(p: Params, s: State, req: Request, c: Commit)
    requires Durable(s.db) && req.messageId !in s.db.committed
    ensures Durable(AfterEnqueueing(p, s, req, c).db)
  {
    var v := Verdict(s.db.store, p.limits, req);
    hide Verdict;
    if v.Ok? { CommitDurable(s.db, req, v.value); }
  }

  lemma CommitDurable(db: Db, req: Request, message: Message)
    requires Durable(db) && req.messageId !in db.committed
    ensures Durable(Commit1(db, req, message))
  {
    InsertedValid(db.store, req, message);
  }

  lemma AckDurable(s: State, m: MessageId, c: Commit)
    requires Durable(s.db)
    ensures Durable(AfterAck(s, m, c).db)
  {}

  lemma IsolateDurable(db: Db, m: MessageId, c: Commit)
    requires Durable(db)
    ensures Durable(db.(store := AfterQuarantine(db.store, m, c)))
  {}

  // ----- rows held in memory -----

  lemma KeepVerbatim(p: Params, s: State, a: Action)
    requires Durable(s.db) && Verbatim(s) && Enabled(p, s, a)
    ensures Verbatim(Next(p, s, a))
  {
    hide Verbatim, Durable;
    if Quiet(a) {
      QuietStep(p, s, a);
      SameVerbatim(s, Next(p, s, a));
    } else {
      match a {
        case Loops(l) =>
          match l {
            case RetryVisit(m, fails, clock, draw) => VisitVerbatim(p, s, m, fails, clock, draw);
            case Scan(page) => ScanVerbatim(p, s, page);
            case AdmitNext => AdmitNextVerbatim(p, s);
            case Enqueue(req, c) => EnqueueVerbatim(p, s, req, c);
            case AdmitStored => StoredVerbatim(p, s);
            case SyncVisit(m, fails) => SyncVerbatim(s, m, fails);
            case TakeResult(h, clock, draw) => ResultVerbatim(p, s, h, clock, draw);
          }
        case _ => SideVerbatim(p, s, a);
      }
    }
  }

  lemma SameVerbatim(s: State, t: State)
    requires Verbatim(s) && SameWork(s, t)
    ensures Verbatim(t)
  {}

  lemma VisitVerbatim(p: Params, s: State, m: MessageId, fails: bool, clock: Time, draw: real)
    requires Verbatim(s) && s.loop.Retrying? && m in s.sched.inflight
    ensures Verbatim(AfterVisit(p, s, m, fails, clock, draw))
  {}

  lemma ScanVerbatim(p: Params, s: State, page: seq<Row>)
    requires Durable(s.db) && Verbatim(s) && LoopEnabled(p, s, Scan(page))
    ensures Verbatim(LoopNext(p, s, Scan(page)))
  {}

  lemma AdmitVerbatim(s: State, row: Row)
    requires Verbatim(s) && Faithful(s, row)
    ensures Verbatim(Admit(s, row))
  {}

  lemma AdmitNextVerbatim(p: Params, s: State)
    requires Verbatim(s) && s.loop.Admitting? && s.loop.next <= |s.loop.page|
    ensures Verbatim(AfterAdmitNext(p, s))
  {
    AdmitNextCases(p, s);
    assert Verbatim(Turned(s));
    if Admits(p, s) { AdmitVerbatim(Turned(s), s.loop.page[s.loop.next]); }
  }

  lemma StoredVerbatim(p: Params, s: State)
    requires Verbatim(s) && s.loop.Counted?
    ensures Verbatim(Admit(Marked(p, s), s.loop.row))
  {
    AdmitVerbatim(Marked(p, s), s.loop.row);
  }

  lemma EnqueueVerbatim(p: Params, s: State, req: Request, c: Commit)
    requires Verbatim(s) && s.loop.Enqueueing? && req.messageId !in s.db.committed
    ensures Verbatim(AfterEnqueueing(p, s, req, c))
  {
    hide Verdict;
  }

  lemma SyncVerbatim(s: State, m: MessageId, fails: bool)
    requires Verbatim(s) && s.loop.Syncing?
    ensures Verbatim(AfterSyncVisit(s, m, fails))
  {}

  lemma ResultVerbatim(p: Params, s: State, h: nat, clock: Time, draw: real)
    requires Verbatim(s) && LoopEnabled(p, s, TakeResult(h, clock, draw))
    ensures Verbatim(AfterResult(p, s, h, clock, draw))
  {}

  lemma SideVerbatim(p: Params, s: State, a: Action)
    requires Verbatim(s) && Enabled(p, s, a) && !a.Loops? && !Quiet(a)
    ensures Verbatim(Next(p, s, a))
  {}

  // ----- publish invocations -----

  lemma KeepSinglePublish(p: Params, s: State, a: Action)
    requires Verbatim(s) && SinglePublish(s) && Ordered(p, s) && Enabled(p, s, a)
    ensures SinglePublish(Next(p, s, a))
  {
    hide Verbatim, SinglePublish, Ordered;
    if Quiet(a) {
      QuietStep(p, s, a);
      SameSinglePublish(s, Next(p, s, a));
    } else {
      match a {
        case Loops(l) =>
          match l {
            case RetryVisit(m, fails, clock, draw) => VisitSinglePublish(p, s, m, fails, clock, draw);
            case Scan(page) => ScanSinglePublish(p, s, page);
            case AdmitNext => PageDistinct(p, s); AdmitNextSinglePublish(p, s);
            case Enqueue(req, c) => EnqueueSinglePublish(p, s, req, c);
            case AdmitStored => StoredSinglePublish(p, s);
            case SyncVisit(m, fails) => SyncSinglePublish(s, m, fails);
            case TakeResult(h, clock, draw) => ResultSinglePublish(p, s, h, clock, draw);
          }
        case _ => SideSinglePublish(p, s, a);
      }
    }
  }

  lemma SameSinglePublish(s: State, t: State)
    requires SinglePublish(s) && SameWork(s, t)
    ensures SinglePublish(t)
  {}

  lemma VisitSinglePublish(p: Params, s: State, m: MessageId, fails: bool, clock: Time, draw: real)
    requires Verbatim(s) && SinglePublish(s) && s.loop.Retrying? && m in s.sched.inflight
    ensures SinglePublish(AfterVisit(p, s, m, fails, clock, draw))
  {}

  lemma ScanSinglePublish(p: Params, s: State, page: seq<Row>)
    requires SinglePublish(s) && LoopEnabled(p, s, Scan(page))
    ensures SinglePublish(LoopNext(p, s, Scan(page)))
  {}

  lemma AdmitSinglePublish(s: State, row: Row)
    requires SinglePublish(s) && row.messageId !in s.sched.inflight && NoAttempt(s, row.messageId)
    requires !s.loop.Stored? && !s.loop.Counted?
    requires s.loop.Admitting? ==> forall i :: s.loop.next <= i < |s.loop.page| ==> s.loop.page[i].messageId != row.messageId
    ensures SinglePublish(Admit(s, row))
  {}

  lemma AdmitNextSinglePublish(p: Params, s: State)
    requires SinglePublish(s) && s.loop.Admitting? && s.loop.next <= |s.loop.page|
    requires DistinctIds(s.loop.page)
    ensures SinglePublish(AfterAdmitNext(p, s))
  {
    AdmitNextCases(p, s);
    assert SinglePublish(Turned(s));
    if Admits(p, s) { AdmitSinglePublish(Turned(s), s.loop.page[s.loop.next]); }
  }

  lemma StoredSinglePublish(p: Params, s: State)
    requires SinglePublish(s) && s.loop.Counted?
    ensures SinglePublish(Admit(Marked(p, s), s.loop.row))
  {
    AdmitSinglePublish(Marked(p, s), s.loop.row);
  }

  lemma EnqueueSinglePublish(p: Params, s: State, req: Request, c: Commit)
    requires Verbatim(s) && SinglePublish(s) && s.loop.Enqueueing? && req.messageId !in s.db.committed
    ensures SinglePublish(AfterEnqueueing(p, s, req, c))
  {
    hide Verdict;
  }

  lemma SyncSinglePublish(s: State, m: MessageId, fails: bool)
    requires SinglePublish(s) && s.loop.Syncing?
    ensures SinglePublish(AfterSyncVisit(s, m, fails))
  {}

  lemma ResultSinglePublish(p: Params, s: State, h: nat, clock: Time, draw: real)
    requires SinglePublish(s) && LoopEnabled(p, s, TakeResult(h, clock, draw))
    ensures SinglePublish(AfterResult(p, s, h, clock, draw))
  {}

  lemma SideSinglePublish(p: Params, s: State, a: Action)
    requires SinglePublish(s) && Enabled(p, s, a) && !a.Loops? && !Quiet(a)
    ensures SinglePublish(Next(p, s, a))
  {}

  lemma PageDistinct(p: Params, s: State)
    requires Ordered(p, s) && s.loop.Admitting?
    ensures DistinctIds(s.loop.page)
  {}

  lemma KeepPublishAlive(p: Params, s: State, a: Action)
    requires Verbatim(s) && SinglePublish(s) && Bounded(p, s) && PublishAlive(s) && Enabled(p, s, a)
    ensures PublishAlive(Next(p, s, a))
  {
    hide Verbatim, SinglePublish, PublishAlive, HasAttempt;
    if Quiet(a) {
      QuietStep(p, s, a);
      SamePublishAlive(p, s, a);
    } else {
      match a {
        case Loops(l) =>
          match l {
            case RetryVisit(m, fails, clock, draw) => VisitPublishAlive(p, s, m, fails, clock, draw);
            case Scan(page) => SlimPublishAlive(s, Next(p, s, a));
            case AdmitNext => AdmitNextPublishAlive(p, s);
            case Enqueue(req, c) => SlimPublishAlive(s, Next(p, s, a));
            case AdmitStored => StoredPublishAlive(p, s);
            case SyncVisit(m, fails) => SlimPublishAlive(s, Next(p, s, a));
            case TakeResult(h, clock, draw) => ResultPublishAlive(p, s, h, clock, draw);
          }
        case _ => SidePublishAlive(p, s, a);
      }
    }
  }

  /** No entry more and the same invocations: nothing to show. */
  lemma SlimPublishAlive(s: State, t: State)
    requires PublishAlive(s) && t.pubs == s.pubs && t.cancelled == s.cancelled
    requires forall m :: m in t.sched.inflight ==> m in s.sched.inflight && t.sched.inflight[m] == s.sched.inflight[m]
    ensures PublishAlive(t)
  {
    hide HasAttempt;
  }

  lemma SamePublishAlive(p: Params, s: State, a: Action)
    requires PublishAlive(s) && Bounded(p, s) && Enabled(p, s, a) && Quiet(a) && SameWork(s, Next(p, s, a))
    ensures PublishAlive(Next(p, s, a))
  {
    hide HasAttempt;
    if a.Start? {
      assert s.sched.inflight == map[];
    } else if !a.Cancel? {
      QuietStep(p, s, a);
      hide Next;
    }
  }

  lemma LaunchKeeps(pubs: Pubs, row: Row, m: MessageId)
    requires forall h :: h in pubs.live ==> h < pubs.next
    ensures HasAttempt(pubs, m) ==> HasAttempt(pubs.Launch(row), m)
    ensures HasAttempt(pubs.Launch(row), row.messageId)
  {
    var q := pubs.Launch(row);
    assert pubs.next in q.live && q.live[pubs.next].id == row.messageId;
    if HasAttempt(pubs, m) {
      var h :| h in pubs.live && pubs.live[h].id == m;
      assert h in q.live && q.live[h].id == m;
    }
  }

  lemma DropKeeps(pubs: Pubs, h: nat, m: MessageId)
    requires h in pubs.live && pubs.live[h].id != m
    ensures HasAttempt(pubs, m) ==> HasAttempt(pubs.Drop(h), m)
  {
    if HasAttempt(pubs, m) {
      var k :| k in pubs.live && pubs.live[k].id == m;
      assert k in pubs.Drop(h).live && pubs.Drop(h).live[k].id == m;
    }
  }

  lemma AdvanceKeeps(pubs: Pubs, h: nat, progress: Progress, m: MessageId)
    requires h in pubs.live
    ensures HasAttempt(pubs, m) ==> HasAttempt(pubs.Advance(h, progress), m)
  {
    if HasAttempt(pubs, m) {
      var k :| k in pubs.live && pubs.live[k].id == m;
      assert k in pubs.Advance(h, progress).live && pubs.Advance(h, progress).live[k].id == m;
    }
  }

  lemma VisitPublishAlive(p: Params, s: State, m: MessageId, fails: bool, clock: Time, draw: real)
    requires Verbatim(s) && SinglePublish(s) && PublishAlive(s) && s.loop.Retrying? && m in s.sched.inflight
    ensures PublishAlive(AfterVisit(p, s, m, fails, clock, draw))
  {
    hide HasAttempt;
    forall n ensures HasAttempt(s.pubs, n) ==> HasAttempt(s.pubs.Launch(s.sched.inflight[m].row), n) {
      LaunchKeeps(s.pubs, s.sched.inflight[m].row, n);
    }
    LaunchKeeps(s.pubs, s.sched.inflight[m].row, m);
  }

  lemma StoredPublishAlive(p: Params, s: State)
    requires SinglePublish(s) && PublishAlive(s) && s.loop.Counted?
    ensures PublishAlive(Admit(Marked(p, s), s.loop.row))
  {
    AdmitPublishAlive(Marked(p, s), s.loop.row);
  }

  lemma AdmitPublishAlive(s: State, row: Row)
    requires (forall h :: h in s.pubs.live ==> h < s.pubs.next) && PublishAlive(s)
    ensures PublishAlive(Admit(s, row))
  {
    hide HasAttempt;
    forall n ensures HasAttempt(s.pubs, n) ==> HasAttempt(s.pubs.Launch(row), n) { LaunchKeeps(s.pubs, row, n); }
    LaunchKeeps(s.pubs, row, row.messageId);
  }

  lemma AdmitNextPublishAlive(p: Params, s: State)
    requires SinglePublish(s) && PublishAlive(s) && s.loop.Admitting? && s.loop.next <= |s.loop.page|
    ensures PublishAlive(AfterAdmitNext(p, s))
  {
    hide HasAttempt;
    AdmitNextCases(p, s);
    assert PublishAlive(Turned(s));
    if Admits(p, s) { AdmitPublishAlive(Turned(s), s.loop.page[s.loop.next]); }
  }

  lemma ResultPublishAlive(p: Params, s: State, h: nat, clock: Time, draw: real)
    requires SinglePublish(s) && PublishAlive(s) && LoopEnabled(p, s, TakeResult(h, clock, draw))
    ensures PublishAlive(AfterResult(p, s, h, clock, draw))
  {
    hide HasAttempt;
    forall n | n != s.pubs.live[h].id ensures HasAttempt(s.pubs, n) ==> HasAttempt(s.pubs.Drop(h), n) { DropKeeps(s.pubs, h, n); }
  }

  lemma SidePublishAlive(p: Params, s: State, a: Action)
    requires PublishAlive(s) && Enabled(p, s, a) && !a.Loops? && !Quiet(a)
    ensures PublishAlive(Next(p, s, a))
  {
    hide HasAttempt;
    match a {
      case PublishReturns(h, ok) =>
        forall n ensures HasAttempt(s.pubs, n) ==> HasAttempt(s.pubs.Advance(h, Returned(ok)), n) { AdvanceKeeps(s.pubs, h, Returned(ok), n); }
      case SendResult(h) =>
        var q := Queued(s.pubs.live[h].progress.ok);
        forall n ensures HasAttempt(s.pubs, n) ==> HasAttempt(s.pubs.Advance(h, q), n) { AdvanceKeeps(s.pubs, h, q, n); }
      case _ =>
    }
  }

  // ----- the bounded set -----

  lemma KeepBounded(p: Params, s: State, a: Action)
    requires Bounded(p, s) && Enabled(p, s, a)
    ensures Bounded(p, Next(p, s, a))
  {
    hide Bounded, Visited, Resulted, Verdict, Inserted, IsPage;
    if Quiet(a) { QuietBounded(p, s, a); return; }
    match a {
      case Loops(l) =>
        match l {
          case RetryVisit(m, fails, clock, draw) => VisitBounded(p, s, m, fails, clock, draw);
          case AdmitNext => AdmitNextBounded(p, s);
          case AdmitStored => StoredBounded(p, s);
          case SyncVisit(m, fails) => SyncBounded(p, s, m, fails);
          case TakeResult(h, clock, draw) => ResultBounded(p, s, h, clock, draw);
          case Scan(page) => SlimBounded(p, s, Next(p, s, a));
          case Enqueue(req, c) => SlimBounded(p, s, Next(p, s, a));
          case _ =>
        }
      case _ => SlimBounded(p, s, Next(p, s, a));
    }
  }

  lemma SlimBounded(p: Params, s: State, t: State)
    requires Bounded(p, s) && (Generating(t.loop) ==> Generating(s.loop)) && (t.loop.Down? ==> s.loop.Down? || t.sched.inflight == map[])
    requires t.sched.inflight == s.sched.inflight || t.sched.inflight == map[]
    ensures Bounded(p, t)
  {}

  lemma VisitBounded(p: Params, s: State, m: MessageId, fails: bool, clock: Time, draw: real)
    requires Bounded(p, s) && s.loop.Retrying? && m in s.sched.inflight
    ensures Bounded(p, AfterVisit(p, s, m, fails, clock, draw))
  {
    hide Visited, Replace;
    ReplaceBound(s.sched.inflight, m, Visited(p.cfg, s.sched.inflight[m], s.loop.now, Answered(s, m, clock, draw)));
  }

  lemma AdmitNextBounded(p: Params, s: State)
    requires Bounded(p, s) && s.loop.Admitting? && s.loop.next <= |s.loop.page|
    ensures Bounded(p, AfterAdmitNext(p, s))
  {
    if Admits(p, s) {
      AdmitNextCases(p, s);
      InsertBound(s.sched.inflight, s.loop.page[s.loop.next].messageId, Admitted(s.loop.page[s.loop.next]));
    }
  }

  lemma StoredBounded(p: Params, s: State)
    requires Bounded(p, s) && s.loop.Counted?
    ensures Bounded(p, Admit(Marked(p, s), s.loop.row))
  {
    InsertBound(s.sched.inflight, s.loop.row.messageId, Admitted(s.loop.row));
  }

  lemma SyncBounded(p: Params, s: State, m: MessageId, fails: bool)
    requires Bounded(p, s) && s.loop.Syncing?
    ensures Bounded(p, AfterSyncVisit(s, m, fails))
  {
    RemoveBound(s.sched.inflight, m);
  }

  lemma ResultBounded(p: Params, s: State, h: nat, clock: Time, draw: real)
    requires Bounded(p, s) && LoopEnabled(p, s, TakeResult(h, clock, draw))
    ensures Bounded(p, AfterResult(p, s, h, clock, draw))
  {
    hide Resulted;
    var r := s.pubs.live[h];
    if r.id in s.sched.inflight {
      UpdateBound(s.sched.inflight, r.id, Resulted(p.cfg, s.sched.inflight[r.id], r.progress.ok, Answered(s, r.id, clock, draw)));
    }
  }

  lemma QuietBounded(p: Params, s: State, a: Action)
    requires Bounded(p, s) && Enabled(p, s, a) && Quiet(a)
    ensures Bounded(p, Next(p, s, a))
  {}

  lemma ReplaceBound(t: Table, m: MessageId, o: Option<Entry>)
    requires m in t
    ensures |Replace(t, m, o)| <= |t|
  {
    if o.Some? { assert Replace(t, m, o).Keys == t.Keys; } else { assert Replace(t, m, o).Keys == t.Keys - {m}; }
  }

  lemma InsertBound(t: Table, m: MessageId, e: Entry)
    ensures |t[m := e]| <= |t| + 1
  {
    assert t[m := e].Keys == t.Keys + {m};
  }

  lemma UpdateBound(t: Table, m: MessageId, e: Entry)
    requires m in t
    ensures |t[m := e]| == |t|
  {
    assert t[m := e].Keys == t.Keys;
  }

  lemma RemoveBound(t: Table, m: MessageId)
    ensures |t - {m}| <= |t|
  {
    assert (t - {m}).Keys == t.Keys - {m};
  }

  // ----- the replay order -----

  lemma KeepOrdered(p: Params, s: State, a: Action)
    requires Durable(s.db) && Bounded(p, s) && Verbatim(s) && Ordered(p, s) && Enabled(p, s, a)
    ensures Ordered(p, Next(p, s, a))
  {
    hide Durable, Verbatim, Ordered, IsPage, Verdict, Visited, Resulted;
    match a {
      case Loops(l) =>
        match l {
          case RetryVisit(m, fails, clock, draw) => VisitOrdered(p, s, m, fails, clock, draw);
          case Scan(page) => ScanOrdered(p, s, page);
          case AdmitNext => AdmitNextOrdered(p, s);
          case Enqueue(req, c) => EnqueueOrdered(p, s, req, c);
          case AdmitStored => StoredOrdered(p, s);
          case SyncVisit(m, fails) => SyncOrdered(p, s, m, fails);
          case TakeResult(h, clock, draw) => ResultOrdered(p, s, h, clock, draw);
          case _ => CalmOrdered(p, s, l);
        }
      case AckDelete(m, c) => AckOrdered(p, s, m, c);
      case Isolate(m, c) => IsolateOrdered(p, s, m, c);
      case Start => StartOrdered(p, s);
      case Exit => ExitOrdered(p, s);
      case _ => SameOrdered(p, s, Next(p, s, a));
    }
  }

  lemma SameOrdered(p: Params, s: State, t: State)
    requires Ordered(p, s) && t.db == s.db && t.sched == s.sched && t.loop == s.loop
    ensures Ordered(p, t)
  {}

  /** Control moves that neither scan, admit nor store. */
  lemma CalmOrdered(p: Params, s: State, a: LoopAction)
    requires Ordered(p, s) && LoopEnabled(p, s, a) && Quiet(Loops(a))
    ensures Ordered(p, LoopNext(p, s, a))
  {}

  lemma VisitOrdered(p: Params, s: State, m: MessageId, fails: bool, clock: Time, draw: real)
    requires Ordered(p, s) && s.loop.Retrying? && m in s.sched.inflight
    ensures Ordered(p, AfterVisit(p, s, m, fails, clock, draw))
  {}

  lemma SyncOrdered(p: Params, s: State, m: MessageId, fails: bool)
    requires Ordered(p, s) && s.loop.Syncing?
    ensures Ordered(p, AfterSyncVisit(s, m, fails))
  {}

  lemma ResultOrdered(p: Params, s: State, h: nat, clock: Time, draw: real)
    requires Ordered(p, s) && LoopEnabled(p, s, TakeResult(h, clock, draw))
    ensures Ordered(p, AfterResult(p, s, h, clock, draw))
  {
    hide Resulted, Ordered;
    var t := AfterResult(p, s, h, clock, draw);
    assert t.sched.inflight.Keys == s.sched.inflight.Keys;
    SameKeysOrdered(p, s, t);
  }

  lemma SameKeysOrdered(p: Params, s: State, t: State)
    requires Ordered(p, s) && t.db == s.db && t.sched.admitted == s.sched.admitted && t.sched.inflight.Keys == s.sched.inflight.Keys
    requires (s.loop.Select? || s.loop.Stopped?) && (t.loop.Top? || t.loop.Stopped?)
    ensures Ordered(p, t)
  {}

  lemma AckOrdered(p: Params, s: State, m: MessageId, c: Commit)
    requires Ordered(p, s)
    ensures Ordered(p, AfterAck(s, m, c))
  {}

  lemma IsolateOrdered(p: Params, s: State, m: MessageId, c: Commit)
    requires Ordered(p, s) && s.loop.Down?
    ensures Ordered(p, Next(p, s, Isolate(m, c)))
  {}

  lemma StartOrdered(p: Params, s: State)
    requires Durable(s.db) && Ordered(p, s) && s.loop.Down?
    ensures Ordered(p, Next(p, s, Start))
  {}

  lemma ExitOrdered(p: Params, s: State)
    requires Ordered(p, s) && !s.loop.Down?
    ensures Ordered(p, Next(p, s, Exit))
  {}

  /** A scan from the start: the page is in row order, holds no message twice, and misses
      a pending row only when it is full. */
  lemma ScanOrdered(p: Params, s: State, page: seq<Row>)
    requires Durable(s.db) && Ordered(p, s) && LoopEnabled(p, s, Scan(page))
    ensures Ordered(p, LoopNext(p, s, Scan(page)))
  {
    if SlotFree(p, s) {
      ScanPage(p, s, page);
      if page == [] { assert AllInFlight(s) || p.cfg.maxInflight == 0; }
    }
  }

  lemma ScanPage(p: Params, s: State, page: seq<Row>)
    requires Durable(s.db) && Ordered(p, s) && LoopEnabled(p, s, Scan(page)) && SlotFree(p, s)
    ensures PageOk(p, s, page, 0)
  {
    forall m | s.db.store.IsPending(m) && m !in s.sched.inflight && s.db.store.rows[m] in page ensures OnPage(page, 0, m) {
      var i :| 0 <= i < |page| && page[i] == s.db.store.rows[m];
      assert page[i].messageId == m;
    }
  }

  lemma AdmitNextOrdered(p: Params, s: State)
    requires Bounded(p, s) && Verbatim(s) && Ordered(p, s) && s.loop.Admitting? && s.loop.next <= |s.loop.page|
    ensures Ordered(p, AfterAdmitNext(p, s))
  {
    AdmitNextCases(p, s);
    var page, k := s.loop.page, s.loop.next;
    if Admits(p, s) {
      AdmitPage(p, s);
    } else if SlotFree(p, s) && k < |page| {
      TurnPage(p, s);
    } else if SlotFree(p, s) {
      assert forall r :: r in page ==> r.messageId in s.sched.inflight.Keys;
      Pigeonhole(page, s.sched.inflight.Keys);
      assert forall m :: !OnPage(page, k, m);
    }
  }

  lemma TurnPage(p: Params, s: State)
    requires Ordered(p, s) && s.loop.Admitting? && s.loop.next < |s.loop.page|
    requires s.loop.page[s.loop.next].messageId in s.sched.inflight
    ensures Ordered(p, Turned(s))
  {
    var page, k := s.loop.page, s.loop.next;
    forall m | OnPage(page, k, m) && m !in s.sched.inflight ensures OnPage(page, k + 1, m) {
      var i :| k <= i < |page| && page[i].messageId == m;
      assert k + 1 <= i;
    }
  }

  lemma AdmitOnPage(p: Params, s: State)
    requires Ordered(p, s) && Admits(p, s)
    ensures PageOk(p, Admit(Turned(s), s.loop.page[s.loop.next]), s.loop.page, s.loop.next + 1)
  {
    var page, k := s.loop.page, s.loop.next;
    var t := Admit(Turned(s), page[k]);
    assert LastAdmitted(t) == page[k].id;
    forall m | s.db.store.IsPending(m) && m !in t.sched.inflight && OnPage(page, k, m) ensures OnPage(page, k + 1, m) {
      var i :| k <= i < |page| && page[i].messageId == m;
      assert k + 1 <= i;
    }
  }

  lemma AdmitPage(p: Params, s: State)
    requires Verbatim(s) && Ordered(p, s) && Admits(p, s)
    ensures Ordered(p, Admit(Turned(s), s.loop.page[s.loop.next]))
  {
    var page, k := s.loop.page, s.loop.next;
    var t := Admit(Turned(s), page[k]);
    AdmitOnPage(p, s);
    assert LastAdmitted(t) == page[k].id;
    forall m | s.db.store.IsPending(m) && m !in t.sched.inflight ensures s.db.store.rows[m].id > page[k].id {
      if OnPage(page, k, m) {
        var i :| k <= i < |page| && page[i].messageId == m;
        assert k + 1 <= i;
      }
    }
  }

  lemma StoredOrdered(p: Params, s: State)
    requires Verbatim(s) && Ordered(p, s) && s.loop.Counted?
    ensures Ordered(p, Admit(Marked(p, s), s.loop.row))
  {
    assert LastAdmitted(Admit(Marked(p, s), s.loop.row)) == s.loop.row.id;
  }

  lemma EnqueueOrdered(p: Params, s: State, req: Request, c: Commit)
    requires Ordered(p, s) && s.loop.Enqueueing? && req.messageId !in s.db.committed
    ensures Ordered(p, AfterEnqueueing(p, s, req, c))
  {
    hide Verdict;
  }

  // ----- wake-ups -----

  lemma KeepNoLostWakeup(p: Params, s: State, a: Action)
    requires Bounded(p, s) && NoLostWakeup(p, s) && Enabled(p, s, a)
    ensures NoLostWakeup(p, Next(p, s, a))
  {
    hide Bounded, NoLostWakeup, IsPage, Verdict, Visited, Resulted, FullFor;
    match a {
      case Loops(l) =>
        match l {
          case RetryVisit(m, fails, clock, draw) => VisitWakeup(p, s, m, fails, clock, draw);
          case Scan(page) => ScanWakeup(p, s, page);
          case AdmitNext => AdmitNextWakeup(p, s);
          case Enqueue(req, c) => EnqueueWakeup(p, s, req, c);
          case AdmitStored => StoredWakeup(p, s);
          case SyncVisit(m, fails) => SyncWakeup(p, s, m, fails);
          case TakeResult(h, clock, draw) => ResultWakeup(p, s, h, clock, draw);
          case _ => CalmWakeup(p, s, l);
        }
      case AckDelete(m, c) => AckWakeup(p, s, m, c);
      case _ => SideWakeup(p, s, a);
    }
  }

  lemma CalmWakeup(p: Params, s: State, a: LoopAction)
    requires NoLostWakeup(p, s) && LoopEnabled(p, s, a) && Quiet(Loops(a))
    ensures NoLostWakeup(p, LoopNext(p, s, a))
  {
    hide FullFor;
  }

  lemma SideWakeup(p: Params, s: State, a: Action)
    requires Bounded(p, s) && NoLostWakeup(p, s) && Enabled(p, s, a) && !a.Loops? && !a.AckDelete?
    ensures NoLostWakeup(p, Next(p, s, a))
  {
    hide FullFor;
  }

  lemma VisitWakeup(p: Params, s: State, m: MessageId, fails: bool, clock: Time, draw: real)
    requires NoLostWakeup(p, s) && s.loop.Retrying? && m in s.sched.inflight
    ensures NoLostWakeup(p, AfterVisit(p, s, m, fails, clock, draw))
  {
    hide FullFor, IsPage;
  }

  lemma ScanWakeup(p: Params, s: State, page: seq<Row>)
    requires NoLostWakeup(p, s) && LoopEnabled(p, s, Scan(page))
    ensures NoLostWakeup(p, LoopNext(p, s, Scan(page)))
  {
    hide FullFor;
  }

  lemma AdmitNextWakeup(p: Params, s: State)
    requires NoLostWakeup(p, s) && s.loop.Admitting? && s.loop.next <= |s.loop.page|
    ensures NoLostWakeup(p, AfterAdmitNext(p, s))
  {
    hide FullFor;
    AdmitNextCases(p, s);
  }

  lemma StoredWakeup(p: Params, s: State)
    requires NoLostWakeup(p, s) && s.loop.Counted?
    ensures NoLostWakeup(p, Admit(Marked(p, s), s.loop.row))
  {
    hide FullFor, IsPage;
  }

  lemma EnqueueWakeup(p: Params, s: State, req: Request, c: Commit)
    requires NoLostWakeup(p, s) && s.loop.Enqueueing? && req.messageId !in s.db.committed
    ensures NoLostWakeup(p, AfterEnqueueing(p, s, req, c))
  {
    if Verdict(s.db.store, p.limits, req) == Err(Full) { FullVerdict(s.db.store, p.limits, req); }
    hide Verdict, RefusedSize, FullFor;
  }

  lemma FullVerdict(store: Store, lim: Limits, req: Request)
    requires Verdict(store, lim, req) == Err(Full)
    ensures FullFor(lim, store, RefusedSize(store, lim, req))
  {
    hide Bytes;
  }

  lemma SyncWakeup(p: Params, s: State, m: MessageId, fails: bool)
    requires NoLostWakeup(p, s) && s.loop.Syncing?
    ensures NoLostWakeup(p, AfterSyncVisit(s, m, fails))
  {
    hide FullFor, IsPage;
  }

  lemma ResultWakeup(p: Params, s: State, h: nat, clock: Time, draw: real)
    requires NoLostWakeup(p, s) && LoopEnabled(p, s, TakeResult(h, clock, draw))
    ensures NoLostWakeup(p, AfterResult(p, s, h, clock, draw))
  {
    hide FullFor, IsPage;
  }

  /** The heart of the matter: the commit that makes an entry stale puts the worker on
      its way to the signal. */
  lemma AckWakeup(p: Params, s: State, m: MessageId, c: Commit)
    requires NoLostWakeup(p, s)
    ensures NoLostWakeup(p, AfterAck(s, m, c))
  {}

  // ----- counters -----

  lemma KeepConserved(p: Params, s: State, a: Action)
    requires Durable(s.db) && Conserved(s) && Enabled(p, s, a)
    ensures Conserved(Next(p, s, a))
  {
    hide Durable, IsPage, Verdict, Visited, Resulted;
    match a {
      case Loops(l) =>
        match l {
          case Enqueue(req, c) => EnqueueConserved(p, s, req, c);
          case _ => CalmConserved(p, s, l);
        }
      case AckDelete(m, c) => AckConserved(s, m, c);
      case _ =>
    }
  }

  lemma CalmConserved(p: Params, s: State, a: LoopAction)
    requires Conserved(s) && LoopEnabled(p, s, a) && !a.Enqueue?
    ensures Conserved(LoopNext(p, s, a))
  {
    hide Conserved, IsPage, Visited, Resulted, Replace, UncountedDeletes;
    match a {
      case RetryVisit(m, fails, clock, draw) => SameCounts(s, LoopNext(p, s, a));
      case Scan(page) => SameCounts(s, LoopNext(p, s, a));
      case AdmitNext => AdmitNextCases(p, s); SameCounts(s, LoopNext(p, s, a));
      case AdmitStored => SameCounts(s, LoopNext(p, s, a));
      case SyncVisit(m, fails) => SameCounts(s, LoopNext(p, s, a));
      case TakeResult(h, clock, draw) => SameCounts(s, LoopNext(p, s, a));
      case _ => QuietConserved(p, s, a);
    }
  }

  lemma SameCounts(s: State, t: State)
    requires Conserved(s) && t.db == s.db && t.sched.unique == s.sched.unique && t.sched.initial == s.sched.initial && t.ack == s.ack
    requires UncountedStores(t) == UncountedStores(s) && !s.loop.Down?
    ensures Conserved(t)
  {}

  lemma QuietConserved(p: Params, s: State, a: LoopAction)
    requires Conserved(s) && LoopEnabled(p, s, a) && Quiet(Loops(a))
    ensures Conserved(LoopNext(p, s, a))
  {}

  lemma EnqueueConserved(p: Params, s: State, req: Request, c: Commit)
    requires Durable(s.db) && Conserved(s) && s.loop.Enqueueing? && req.messageId !in s.db.committed
    ensures Conserved(AfterEnqueueing(p, s, req, c))
  {
    hide Verdict, Inserted, RefusedSize;
    var v := Verdict(s.db.store, p.limits, req);
    if v.Ok? { OneMorePending(s.db, req, v.value); }
    hide Durable;
  }

  lemma OneMorePending(db: Db, req: Request, message: Message)
    requires Durable(db) && req.messageId !in db.committed
    ensures |Inserted(db.store, req, message).PendingIds()| == |db.store.PendingIds()| + 1
  {
    assert Inserted(db.store, req, message).PendingIds() == db.store.PendingIds() + {req.messageId};
  }

  lemma AckConserved(s: State, m: MessageId, c: Commit)
    requires Conserved(s) && s.ack.worker.Idle?
    ensures Conserved(AfterAck(s, m, c))
  {
    if s.db.store.IsPending(m) && Lands(c) {
      assert AfterDelete(s.db.store, m, c).PendingIds() == s.db.store.PendingIds() - {m};
    }
  }

  lemma KeepFinite(p: Params, s: State, a: Action)
    requires Finite(p, s) && Enabled(p, s, a)
    ensures Finite(p, Next(p, s, a))
  {
    hide Verdict, IsPage, Visited, Resulted, Replace, Inserted;
    match a {
      case Loops(l) => LoopFinite(p, s, l);
      case AckDelete(m, c) => AckFinite(p, s, m, c);
      case _ =>
    }
  }

  lemma LoopFinite(p: Params, s: State, a: LoopAction)
    requires Finite(p, s) && LoopEnabled(p, s, a)
    ensures Finite(p, LoopNext(p, s, a))
  {
    hide Verdict, IsPage, Visited, Resulted, Replace, Inserted, Build, RefusedSize;
    if a.AdmitNext? { AdmitNextCases(p, s); hide AfterAdmitNext; }
  }

  lemma AckFinite(p: Params, s: State, m: MessageId, c: Commit)
    requires Finite(p, s)
    ensures Finite(p, AfterAck(s, m, c))
  {
    if s.db.store.IsPending(m) && Lands(c) {
      assert AfterDelete(s.db.store, m, c).PendingIds() == s.db.store.PendingIds() - {m};
    }
  }

  // ----- all of it -----

  lemma KeepInv(p: Params, s: State, a: Action)
    requires Inv(p, s) && Enabled(p, s, a)
    ensures Inv(p, Next(p, s, a))
  {
    hide Durable, Verbatim, SinglePublish, PublishAlive, Bounded, Ordered, NoLostWakeup, Conserved, Finite, Next, Enabled;
    KeepDurable(p, s, a);
    KeepVerbatim(p, s, a);
    KeepSinglePublish(p, s, a);
    KeepPublishAlive(p, s, a);
    KeepBounded(p, s, a);
    KeepOrdered(p, s, a);
    KeepNoLostWakeup(p, s, a);
    KeepConserved(p, s, a);
    KeepFinite(p, s, a);
  }
}
