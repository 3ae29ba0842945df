/** The scheduler's own goroutine, when nobody disturbs it: any run of engine steps from the
    start of a pass to its checkCompletion does what Scheduler.Reconcile does. */
module EnginePass {
  import opened Wrappers
  import opened Commits
  import opened Outbox
  import opened Inflight
  import opened Engine
  import opened EngineInvariant
  import opened EngineTheorems
  import S = Scheduler

  /** What the loop reads from outside during one pass. */
  datatype Plan = Plan(now: Time, answers: map<MessageId, Answer>, page: seq<Row>, due: bool, req: Request, c: Commit)

  /** The step reads what the plan says; lookups, clock and draws agree with `answers`. */
  ghost predicate Follows(s: State, a: LoopAction, k: Plan) {
    match a
    case RetryVisit(m, fails, clock, draw) => !fails && m in k.answers && k.answers[m] == Answered(s, m, clock, draw)
    case RetriesDone => true
    case Scan(page) => page == k.page
    case AdmitNext => true
    case Decide(due) => due == k.due
    case Enqueue(req, c) => req == k.req && c == k.c
    case MarkPaused => true
    case CountStored => true
    case AdmitStored => true
    case _ => false
  }

  ghost predicate Alone(p: Params, s: State, actions: seq<LoopAction>, k: Plan, t: State)
    decreases |actions|
  {
    if actions == [] then s == t
    else Follows(s, actions[0], k) && LoopEnabled(p, s, actions[0]) && Alone(p, LoopNext(p, s, actions[0]), actions[1..], k, t)
  }

  function View(s: State): S.Ledger { S.Ledger(s.sched.inflight, s.sched.paused, s.sched.genDone, s.sched.unique) }

  /** The ids of the invocations numbered from `a` up to `b`. */
  ghost function Started(live: map<nat, Attempt>, a: nat, b: nat): multiset<MessageId>
    decreases b
  {
    if b <= a then multiset{} else Started(live, a, b - 1) + if b - 1 in live then multiset{live[b - 1].id} else multiset{}
  }

  lemma {:induction false} StartedSame(live: map<nat, Attempt>, more: map<nat, Attempt>, a: nat, b: nat)
    requires forall h :: a <= h < b ==> (h in live <==> h in more) && (h in live ==> live[h] == more[h])
    ensures Started(live, a, b) == Started(more, a, b)
    decreases b
  {
    if a < b { StartedSame(live, more, a, b - 1); }
  }

  lemma StartedNext(pubs: Pubs, a: nat, row: Row)
    requires a <= pubs.next
    ensures Started(pubs.Launch(row).live, a, pubs.next + 1) == Started(pubs.live, a, pubs.next) + multiset{row.messageId}
  {
    StartedSame(pubs.live, pubs.Launch(row).live, a, pubs.next);
  }

  // ----- where an undisturbed pass stands -----

  ghost function Retried(p: Params, s0: State, k: Plan): S.Ledger
    requires s0.sched.inflight.Keys <= k.answers.Keys
  {
    View(s0).(inflight := S.AfterRetries(p.cfg, s0.sched.inflight, k.now, k.answers))
  }

  ghost function Settled(p: Params, s0: State, k: Plan): S.Ledger
    requires s0.sched.inflight.Keys <= k.answers.Keys
  {
    var u := Retried(p, s0, k);
    u.(inflight := S.AfterAdmission(p.cfg, u.inflight, k.page))
  }

  ghost function Reply(p: Params, s0: State, k: Plan): Result<Row, Error> { EnqueueReply(s0.db.store, p.limits, k.req, k.c) }

  ghost predicate Generates(p: Params, s0: State, k: Plan)
    requires s0.sched.inflight.Keys <= k.answers.Keys
  {
    S.MayGenerate(p.cfg, Settled(p, s0, k)) && k.due
  }

  /** The publishes started so far are `ids`. */
  ghost predicate Launched(s0: State, s: State, ids: multiset<MessageId>) {
    s0.pubs.next <= s.pubs.next && Started(s.pubs.live, s0.pubs.next, s.pubs.next) == ids
  }

  ghost predicate RetryingOk(p: Params, s0: State, k: Plan, s: State, rest: set<MessageId>)
    requires s0.sched.inflight.Keys <= k.answers.Keys
  {
    var t := s0.sched.inflight;
    && s.db == s0.db && View(s) == View(s0).(inflight := s.sched.inflight)
    && S.RetryProgress(p.cfg, t, k.now, k.answers, rest, s.sched.inflight)
    && Launched(s0, s, multiset(S.Republished(t - rest, k.now)))
  }

  ghost predicate AdmittingOk(p: Params, s0: State, k: Plan, s: State, next: nat)
    requires s0.sched.inflight.Keys <= k.answers.Keys
  {
    var u := Retried(p, s0, k);
    && next <= |k.page| <= p.cfg.maxInflight && DistinctIds(k.page) && |u.inflight| < p.cfg.maxInflight && s.db == s0.db
    && View(s) == u.(inflight := AdmitAll(u.inflight, k.page[..next], p.cfg.maxInflight))
    && u.inflight.Keys <= s.sched.inflight.Keys
    && Launched(s0, s, multiset(S.Republished(s0.sched.inflight, k.now)) + multiset(s.sched.inflight.Keys - u.inflight.Keys))
  }

  ghost predicate SettledOk(p: Params, s0: State, k: Plan, s: State)
    requires s0.sched.inflight.Keys <= k.answers.Keys
  {
    && s.db == s0.db && View(s) == Settled(p, s0, k)
    && Launched(s0, s, S.Replayed(p.cfg, s0.sched.inflight, k.now, k.answers, k.page))
  }

  ghost predicate Tracks(p: Params, s0: State, k: Plan, s: State)
    requires s0.sched.inflight.Keys <= k.answers.Keys
  {
    var t := s0.sched.inflight;
    var ready := S.Replayed(p.cfg, t, k.now, k.answers, k.page);
    match s.loop
    case Retrying(now, rest) => now == k.now && RetryingOk(p, s0, k, s, rest)
    case Scanning(n, cursor) =>
      && n == 0 && cursor == 0 && s.db == s0.db && View(s) == Retried(p, s0, k)
      && Launched(s0, s, multiset(S.Republished(t, k.now)))
    case Admitting(n, page, next) => n == 0 && page == k.page && AdmittingOk(p, s0, k, s, next)
    case Deciding(more) => !more && SettledOk(p, s0, k, s)
    case Enqueueing => SettledOk(p, s0, k, s) && Generates(p, s0, k)
    case FullSeen => View(s) == Settled(p, s0, k) && Launched(s0, s, ready) && Generates(p, s0, k) && Reply(p, s0, k) == Err(Full)
    case Stored(row) => View(s) == Settled(p, s0, k) && Launched(s0, s, ready) && Generates(p, s0, k) && Reply(p, s0, k) == Ok(row)
    case Counted(row) =>
      && View(s) == Settled(p, s0, k).(unique := Settled(p, s0, k).unique + 1)
      && Launched(s0, s, ready) && Generates(p, s0, k) && Reply(p, s0, k) == Ok(row)
    case Checking => Passed(p, s0, k, s)
    case Stopped(_) => Refused(p, s0, k)
    case _ => false
  }

  /** The pass tried to generate and the outbox neither took the batch nor was full. */
  ghost predicate Refused(p: Params, s0: State, k: Plan)
    requires s0.sched.inflight.Keys <= k.answers.Keys
  {
    Generates(p, s0, k) && Reply(p, s0, k).Err? && !Reply(p, s0, k).error.Full?
  }

  /** What Scheduler.Reconcile ensures of a pass that did not stop. */
  ghost predicate Passed(p: Params, s0: State, k: Plan, s: State)
    requires s0.sched.inflight.Keys <= k.answers.Keys
  {
    && View(s) == S.AfterPass(p.cfg, p.target, View(s0), k.now, k.answers, k.page, k.due, Reply(p, s0, k))
    && Launched(s0, s, S.PassLaunches(p.cfg, View(s0), k.now, k.answers, k.page, k.due, Reply(p, s0, k)))
  }

  /** A state in which the theorem starts: right after BeginPass. */
  ghost predicate Begins(p: Params, s0: State, k: Plan) {
    && p.cfg.Valid() && s0.loop == Retrying(k.now, s0.sched.inflight.Keys)
    && |s0.sched.inflight| <= p.cfg.maxInflight && s0.sched.inflight.Keys <= k.answers.Keys
    && forall m :: m in s0.sched.inflight ==> s0.sched.inflight[m].row.messageId == m
  }

  lemma BeginTracks(p: Params, s0: State, k: Plan)
    requires Begins(p, s0, k)
    ensures Tracks(p, s0, k, s0)
  {
    S.RetryEnds(p.cfg, s0.sched.inflight, k.now, k.answers);
    hide S.RetryProgress, S.Republished;
  }

  lemma VisitTracks(p: Params, s0: State, k: Plan, s: State, m: MessageId, clock: Time, draw: real)
    requires Begins(p, s0, k) && Tracks(p, s0, k, s) && s.loop.Retrying?
    requires LoopEnabled(p, s, RetryVisit(m, false, clock, draw)) && Follows(s, RetryVisit(m, false, clock, draw), k)
    ensures Tracks(p, s0, k, LoopNext(p, s, RetryVisit(m, false, clock, draw)))
  {
    hide S.RetryProgress, Visited, Replace, S.Republished, Launched;
    var t, rest, n := s0.sched.inflight, s.loop.rest, LoopNext(p, s, RetryVisit(m, false, clock, draw));
    S.RetryStep(p.cfg, t, k.now, k.answers, rest, s.sched.inflight, m);
    var e, ids := s.sched.inflight[m], multiset(S.Republished(t - rest, k.now));
    assert ids + multiset{} == ids;
    if RepublishDue(e, k.now) { LaunchedMore(s0, s, n, e.row, ids); } else { SameLaunched(s0, s, n, ids); }
  }

  lemma RetriesEnd(p: Params, s0: State, k: Plan, s: State)
    requires Begins(p, s0, k) && Tracks(p, s0, k, s) && s.loop.Retrying? && s.loop.rest == {}
    ensures Tracks(p, s0, k, LoopNext(p, s, RetriesDone))
  {
    S.RetryEnds(p.cfg, s0.sched.inflight, k.now, k.answers);
    hide S.RetryProgress, S.Republished, S.AfterRetries;
  }

  lemma ScanTracks(p: Params, s0: State, k: Plan, s: State)
    requires Begins(p, s0, k) && Tracks(p, s0, k, s) && s.loop.Scanning? && LoopEnabled(p, s, Scan(k.page))
    ensures Tracks(p, s0, k, LoopNext(p, s, Scan(k.page)))
  {
    hide S.AfterRetries, S.Republished, Launched;
    var u, n := Retried(p, s0, k).inflight, LoopNext(p, s, Scan(k.page));
    var ids := multiset(S.Republished(s0.sched.inflight, k.now));
    assert k.page[..0] == [] && u.Keys - u.Keys == {} && ids + multiset(u.Keys - u.Keys) == ids;
    SameLaunched(s0, s, n, ids);
  }

  lemma {:induction false} FullStays(t: Table, page: seq<Row>, i: nat, max: nat)
    requires i <= |page| && |AdmitAll(t, page[..i], max)| >= max
    ensures AdmitAll(t, page, max) == AdmitAll(t, page[..i], max)
    decreases |page|
  {
    if i < |page| {
      var n := |page| - 1;
      assert page[..n][..i] == page[..i];
      FullStays(t, page[..n], i, max);
    } else {
      assert page[..i] == page;
    }
  }

  lemma LaunchedMore(s0: State, s: State, n: State, row: Row, ids: multiset<MessageId>)
    requires Launched(s0, s, ids) && n.pubs == s.pubs.Launch(row)
    ensures Launched(s0, n, ids + multiset{row.messageId})
  {
    StartedNext(s.pubs, s0.pubs.next, row);
    hide Started;
  }

  lemma OneMoreKey(a: set<MessageId>, b: set<MessageId>, m: MessageId)
    requires a <= b && m !in b
    ensures multiset(b + {m} - a) == multiset(b - a) + multiset{m}
  {
    assert b + {m} - a == (b - a) + {m};
  }

  lemma AdmitOneMore(t: Table, page: seq<Row>, i: nat, max: nat)
    requires i < |page|
    ensures AdmitAll(t, page[..i + 1], max) == AdmitOne(AdmitAll(t, page[..i], max), page[i], max)
  {
    assert page[..i + 1][..i] == page[..i];
  }

  lemma AdmitTurn(p: Params, s0: State, k: Plan, s: State, n: State, i: nat)
    requires Begins(p, s0, k) && AdmittingOk(p, s0, k, s, i) && i < |k.page| && SlotFree(p, s)
    requires n == (if k.page[i].messageId in s.sched.inflight then s else Admit(s, k.page[i])).(loop := n.loop)
    ensures AdmittingOk(p, s0, k, n, i + 1)
  {
    hide S.AfterRetries, S.Republished, Launched, DistinctIds, AdmitAll, Pubs.Launch;
    var u, row := Retried(p, s0, k).inflight, k.page[i];
    var base := multiset(S.Republished(s0.sched.inflight, k.now));
    AdmitOneMore(u, k.page, i, p.cfg.maxInflight);
    if row.messageId in s.sched.inflight {
      SameLaunched(s0, s, n, base + multiset(s.sched.inflight.Keys - u.Keys));
    } else {
      AdmitLaunches(s0, s, n, row, base, u);
    }
  }

  lemma AdmitLaunches(s0: State, s: State, n: State, row: Row, base: multiset<MessageId>, u: Table)
    requires Launched(s0, s, base + multiset(s.sched.inflight.Keys - u.Keys)) && n.pubs == s.pubs.Launch(row)
    requires u.Keys <= s.sched.inflight.Keys && row.messageId !in s.sched.inflight
    requires n.sched.inflight == s.sched.inflight[row.messageId := Admitted(row)]
    ensures Launched(s0, n, base + multiset(n.sched.inflight.Keys - u.Keys)) && u.Keys <= n.sched.inflight.Keys
  {
    hide Launched;
    LaunchedMore(s0, s, n, row, base + multiset(s.sched.inflight.Keys - u.Keys));
    OneMoreKey(u.Keys, s.sched.inflight.Keys, row.messageId);
    assert n.sched.inflight.Keys == s.sched.inflight.Keys + {row.messageId};
    assert base + multiset(n.sched.inflight.Keys - u.Keys) == base + multiset(s.sched.inflight.Keys - u.Keys) + multiset{row.messageId};
  }

  /** The loop over the page ends: no slot is left, or the page was short. */
  lemma AdmitEnds(p: Params, s0: State, k: Plan, s: State, i: nat)
    requires Begins(p, s0, k) && AdmittingOk(p, s0, k, s, i) && (!SlotFree(p, s) || i == |k.page|)
    ensures !SlotFree(p, s) || |k.page| < p.cfg.maxInflight
    ensures SettledOk(p, s0, k, s)
  {
    hide S.AfterRetries, S.Republished, Started, AdmitAll;
    var u := Retried(p, s0, k).inflight;
    if SlotFree(p, s) {
      assert k.page[..i] == k.page;
      OnePageSuffices(u, k.page, p.cfg.maxInflight);
    } else {
      FullStays(u, k.page, i, p.cfg.maxInflight);
    }
    hide Launched;
  }

  lemma AdmitNextIs(p: Params, s: State)
    requires s.loop.Admitting? && s.loop.next <= |s.loop.page| && s.loop.pageNo == 0
    ensures var l, n := s.loop, LoopNext(p, s, AdmitNext);
      if SlotFree(p, s) && l.next < |l.page|
      then n == (if l.page[l.next].messageId in s.sched.inflight then s else Admit(s, l.page[l.next])).(loop := Admitting(0, l.page, l.next + 1))
      else (!SlotFree(p, s) || |l.page| < p.cfg.maxInflight) ==> n == s.(loop := Deciding(false))
  {}

  lemma AdmitTracks(p: Params, s0: State, k: Plan, s: State)
    requires Begins(p, s0, k) && Tracks(p, s0, k, s) && s.loop.Admitting? && LoopEnabled(p, s, AdmitNext)
    ensures Tracks(p, s0, k, LoopNext(p, s, AdmitNext))
  {
    assert s0.sched.inflight.Keys <= k.answers.Keys;
    hide LoopNext, AdmittingOk, SettledOk, RetryingOk, Launched, Begins, Admit, Passed, Generates, Reply;
    var i, n := s.loop.next, LoopNext(p, s, AdmitNext);
    AdmitNextIs(p, s);
    if SlotFree(p, s) && i < |k.page| {
      AdmitTurn(p, s0, k, s, n, i);
    } else {
      AdmitEnds(p, s0, k, s, i);
      SameSettled(p, s0, k, s, n);
    }
  }

  lemma SameSettled(p: Params, s0: State, k: Plan, s: State, n: State)
    requires s0.sched.inflight.Keys <= k.answers.Keys && n == s.(loop := n.loop) && SettledOk(p, s0, k, s)
    ensures SettledOk(p, s0, k, n)
  {
    hide Settled, Started;
  }

  lemma SameLaunched(s0: State, s: State, n: State, ids: multiset<MessageId>)
    requires n.pubs == s.pubs
    ensures Launched(s0, s, ids) <==> Launched(s0, n, ids)
  {}

  lemma DecideTracks(p: Params, s0: State, k: Plan, s: State)
    requires Begins(p, s0, k) && Tracks(p, s0, k, s) && s.loop.Deciding?
    ensures Tracks(p, s0, k, LoopNext(p, s, Decide(k.due)))
  {
    hide S.AfterRetries, S.AfterAdmission, S.Replayed;
  }

  lemma EnqueueTracks(p: Params, s0: State, k: Plan, s: State)
    requires Begins(p, s0, k) && Tracks(p, s0, k, s) && s.loop.Enqueueing? && LoopEnabled(p, s, Enqueue(k.req, k.c))
    ensures Tracks(p, s0, k, LoopNext(p, s, Enqueue(k.req, k.c)))
  {
    hide S.AfterRetries, S.AfterAdmission, S.Replayed, Verdict, Inserted, RefusedSize;
  }

  lemma GeneratedTracks(p: Params, s0: State, k: Plan, s: State, a: LoopAction)
    requires Begins(p, s0, k) && Tracks(p, s0, k, s) && (a.MarkPaused? || a.CountStored? || a.AdmitStored?) && LoopEnabled(p, s, a)
    ensures Tracks(p, s0, k, LoopNext(p, s, a))
  {
    hide S.AfterRetries, S.AfterAdmission, S.Replayed, Verdict, Inserted, EnqueueReply;
    hide Launched;
    var n, ids := LoopNext(p, s, a), S.Replayed(p.cfg, s0.sched.inflight, k.now, k.answers, k.page);
    assert ids + multiset{} == ids;
    if a.AdmitStored? { LaunchedMore(s0, s, n, s.loop.row, ids); } else { SameLaunched(s0, s, n, ids); }
  }

  lemma StepTracks(p: Params, s0: State, k: Plan, s: State, a: LoopAction)
    requires Begins(p, s0, k) && Tracks(p, s0, k, s) && Follows(s, a, k) && LoopEnabled(p, s, a)
    ensures Tracks(p, s0, k, LoopNext(p, s, a))
  {
    hide Tracks, LoopNext;
    match a
    case RetryVisit(m, _, clock, draw) => VisitTracks(p, s0, k, s, m, clock, draw);
    case RetriesDone => RetriesEnd(p, s0, k, s);
    case Scan(_) => ScanTracks(p, s0, k, s);
    case AdmitNext => AdmitTracks(p, s0, k, s);
    case Decide(_) => DecideTracks(p, s0, k, s);
    case Enqueue(_, _) => EnqueueTracks(p, s0, k, s);
    case _ => GeneratedTracks(p, s0, k, s, a);
  }

  lemma {:induction false} RunTracks(p: Params, s0: State, s: State, actions: seq<LoopAction>, k: Plan, t: State)
    requires Begins(p, s0, k) && Tracks(p, s0, k, s) && Alone(p, s, actions, k, t)
    ensures Tracks(p, s0, k, t)
    decreases |actions|
  {
    hide Begins, Tracks, Follows, LoopEnabled, LoopNext;
    if actions != [] {
      StepTracks(p, s0, k, s, actions[0]);
      RunTracks(p, s0, LoopNext(p, s, actions[0]), actions[1..], k, t);
    }
  }

  lemma ReachableBegins(p: Params, s: State, k: Plan)
    requires Reachable(p, s) && s.loop.Top? && !s.cancelled && s.sched.inflight.Keys <= k.answers.Keys
    ensures Begins(p, Next(p, s, Loops(BeginPass(true, k.now))), k)
  {
    ReachableInv(p, s);
    hide Reachable, Durable, SinglePublish, PublishAlive, Ordered, NoLostWakeup, Conserved, Finite;
  }

  /** From any reachable state, an undisturbed run of a pass, in whatever order it visits the
      entries, leaves the in-flight set, the pause, the count and the publishes that
      Scheduler.Reconcile promises for the same readings. */
  lemma UndisturbedPassIsReconcile(p: Params, s: State, k: Plan, actions: seq<LoopAction>, t: State)
    requires Reachable(p, s) && s.loop.Top? && !s.cancelled && s.sched.inflight.Keys <= k.answers.Keys
    requires Alone(p, Next(p, s, Loops(BeginPass(true, k.now))), actions, k, t) && t.loop.Checking?
    ensures Passed(p, s, k, t)
  {
    hide Passed, Begins, Alone, Reachable;
    var s0 := Next(p, s, Loops(BeginPass(true, k.now)));
    ReachableBegins(p, s, k);
    BeginTracks(p, s0, k);
    RunTracks(p, s0, s0, actions, k, t);
    SamePass(p, s, s0, k, t);
  }

  lemma SamePass(p: Params, s: State, s0: State, k: Plan, t: State)
    requires s.sched.inflight.Keys <= k.answers.Keys && s0 == s.(loop := s0.loop) && Passed(p, s0, k, t)
    ensures Passed(p, s, k, t)
  {
    hide S.AfterPass, S.PassLaunches, Started;
  }

  // ---- a pass always gets through ----

  /** The plan's readings are possible ones: rows as they are, draws in range, a real page,
      and a message id never used. */
  ghost predicate Possible(p: Params, s: State, k: Plan) {
    && s.sched.inflight.Keys <= k.answers.Keys
    && (forall m :: m in s.sched.inflight ==> 0.0 <= k.answers[m].draw < 1.0 && k.answers[m] == Answered(s, m, k.answers[m].clock, k.answers[m].draw))
    && IsPage(s.db.store, 0, p.cfg.maxInflight, k.page) && k.req.messageId !in s.db.committed
  }

  predicate Through(l: Loop) { l.Checking? || l.Stopped? }

  /** What the loop does next under the plan. */
  ghost function Turn(s: State, k: Plan): LoopAction
    requires s.loop.Retrying? ==> s.loop.rest <= k.answers.Keys
  {
    match s.loop
    case Retrying(_, rest) =>
      if rest == {} then RetriesDone else
      var m :| m in rest; RetryVisit(m, false, k.answers[m].clock, k.answers[m].draw)
    case Scanning(_, _) => Scan(k.page)
    case Admitting(_, _, _) => AdmitNext
    case Deciding(_) => Decide(k.due)
    case Enqueueing => Enqueue(k.req, k.c)
    case FullSeen => MarkPaused
    case Stored(_) => CountStored
    case _ => AdmitStored
  }

  function StepsLeft(l: Loop, page: nat): nat {
    match l
    case Retrying(_, rest) => 9 + page + |rest|
    case Scanning(_, _) => 8 + page
    case Admitting(_, _, next) => 7 + if next <= page then page - next else 0
    case Deciding(_) => 6
    case Enqueueing => 5
    case FullSeen => 4
    case Stored(_) => 4
    case Counted(_) => 3
    case _ => 0
  }

  lemma VisitMoves(p: Params, s0: State, k: Plan, s: State)
    requires Begins(p, s0, k) && Possible(p, s0, k) && Tracks(p, s0, k, s) && s.loop.Retrying?
    ensures s.loop.rest <= k.answers.Keys
    ensures LoopEnabled(p, s, Turn(s, k)) && Follows(s, Turn(s, k), k)
    ensures StepsLeft(LoopNext(p, s, Turn(s, k)).loop, |k.page|) < StepsLeft(s.loop, |k.page|)
  {
    hide Launched, View, Visited, IsPage;
  }

  lemma AdmitMoves(p: Params, s0: State, k: Plan, s: State)
    requires Begins(p, s0, k) && Tracks(p, s0, k, s) && s.loop.Admitting?
    ensures LoopEnabled(p, s, AdmitNext)
    ensures StepsLeft(LoopNext(p, s, AdmitNext).loop, |k.page|) < StepsLeft(s.loop, |k.page|)
  {
    assert s.loop.next <= |k.page| && s.loop.pageNo == 0 by { hide Retried, View, Launched; }
    if !(SlotFree(p, s) && s.loop.next < |k.page|) { AdmitEnds(p, s0, k, s, s.loop.next); }
    AdmitNextIs(p, s);
    hide LoopNext, Admit, AdmittingOk, SettledOk, Begins;
  }

  lemma OtherMoves(p: Params, s0: State, k: Plan, s: State)
    requires Begins(p, s0, k) && Possible(p, s0, k) && Tracks(p, s0, k, s) && !Through(s.loop) && !s.loop.Retrying? && !s.loop.Admitting?
    ensures LoopEnabled(p, s, Turn(s, k)) && Follows(s, Turn(s, k), k)
    ensures StepsLeft(LoopNext(p, s, Turn(s, k)).loop, |k.page|) < StepsLeft(s.loop, |k.page|)
  {
    hide Settled, Retried, Launched, Generates, Reply, View, Verdict, Inserted, RefusedSize, IsPage;
  }

  lemma TurnMoves(p: Params, s0: State, k: Plan, s: State)
    requires Begins(p, s0, k) && Possible(p, s0, k) && Tracks(p, s0, k, s) && !Through(s.loop)
    ensures s.loop.Retrying? ==> s.loop.rest <= k.answers.Keys
    ensures LoopEnabled(p, s, Turn(s, k)) && Follows(s, Turn(s, k), k)
    ensures StepsLeft(LoopNext(p, s, Turn(s, k)).loop, |k.page|) < StepsLeft(s.loop, |k.page|)
  {
    hide Begins, Possible, Tracks, LoopNext, LoopEnabled, StepsLeft;
    if s.loop.Retrying? {
      VisitMoves(p, s0, k, s);
    } else if s.loop.Admitting? {
      AdmitMoves(p, s0, k, s);
    } else {
      OtherMoves(p, s0, k, s);
    }
  }

  lemma {:induction false} RunExists(p: Params, s0: State, k: Plan, s: State) returns (actions: seq<LoopAction>, t: State)
    requires Begins(p, s0, k) && Possible(p, s0, k) && Tracks(p, s0, k, s)
    ensures Alone(p, s, actions, k, t) && Through(t.loop) && Tracks(p, s0, k, t)
    decreases StepsLeft(s.loop, |k.page|)
  {
    hide Begins, Possible, Tracks, LoopEnabled, LoopNext, Follows, Turn, StepsLeft;
    if Through(s.loop) {
      actions, t := [], s;
    } else {
      TurnMoves(p, s0, k, s);
      var a := Turn(s, k);
      StepTracks(p, s0, k, s, a);
      var rest;
      rest, t := RunExists(p, s0, k, LoopNext(p, s, a));
      actions := [a] + rest;
      assert actions[1..] == rest;
    }
  }

  /** From any reachable state at the top of the loop and any possible readings, the pass
      runs to its end: to checkCompletion with everything a pass does done, or to a stop
      because the outbox refused the batch for another reason than space. */
  lemma PassGetsThrough(p: Params, s: State, k: Plan) returns (actions: seq<LoopAction>, t: State)
    requires Reachable(p, s) && s.loop.Top? && !s.cancelled && Possible(p, s, k)
    ensures Alone(p, Next(p, s, Loops(BeginPass(true, k.now))), actions, k, t)
    ensures (t.loop.Checking? && Passed(p, s, k, t)) || (t.loop.Stopped? && Refused(p, s, k))
  {
    hide Passed, Begins, Alone, Reachable, Tracks, IsPage;
    var s0 := Next(p, s, Loops(BeginPass(true, k.now)));
    ReachableBegins(p, s, k);
    assert Possible(p, s0, k);
    hide Possible;
    BeginTracks(p, s0, k);
    actions, t := RunExists(p, s0, k, s0);
    if t.loop.Checking? {
      PassedAtChecking(p, s0, k, t);
      SamePass(p, s, s0, k, t);
    } else {
      RefusedAtStop(p, s, s0, k, t);
    }
  }

  lemma RefusedAtStop(p: Params, s: State, s0: State, k: Plan, t: State)
    requires s.sched.inflight.Keys <= k.answers.Keys && s0 == s.(loop := s0.loop) && Tracks(p, s0, k, t) && t.loop.Stopped?
    ensures Refused(p, s, k)
  {
    hide S.AfterRetries, S.AfterAdmission, Verdict;
  }

  lemma PassedAtChecking(p: Params, s0: State, k: Plan, t: State)
    requires s0.sched.inflight.Keys <= k.answers.Keys && Tracks(p, s0, k, t) && t.loop.Checking?
    ensures Passed(p, s0, k, t)
  {
    hide Passed;
  }
}
