/** The scheduler loop of scheduler.go, one pass at a time: reconcile, checkCompletion
    and armTimer, with the reads of the outbox, the clock and the random source as
    parameters.  Engine.dfy lets the other goroutines run between its steps. */
module Scheduler {
  import opened Wrappers
  import opened Outbox
  import opened Inflight
  import Retry

  /** One answer for each entry the pass may have to ask about. */
  type Answers = map<MessageId, Answer>

  datatype Stop = LookupFailed | PendingFailed | EnqueueFailed | AmbiguousCommit | BudgetExpired | Completed

  const MAX_ADMISSION_PAGES := 4

  /** The answer to each PendingAfter call one admission may make. */
  type Pages = p: seq<Result<seq<Row>, Error>> | |p| == MAX_ADMISSION_PAGES witness seq(4, _ => Err(Unavailable))

  predicate PagesFit(pages: Pages, max: nat) {
    forall i :: 0 <= i < |pages| && pages[i].Ok? ==> DistinctIds(pages[i].value) && |pages[i].value| <= max
  }

  ghost predicate Draws(answers: Answers) {
    forall m :: m in answers ==> 0.0 <= answers[m].draw < 1.0
  }

  predicate LookupFails(e: Entry, now: Time, a: Answer) {
    Due(e, now) && e.phase.AwaitAck? && a.lookup.Failed?
  }

  ghost function AfterRetries(cfg: Config, t: Table, now: Time, answers: Answers): Table
    requires t.Keys <= answers.Keys
  {
    map m | m in t && Visited(cfg, t[m], now, answers[m]).Some? :: Visited(cfg, t[m], now, answers[m]).value
  }

  function Republished(t: Table, now: Time): set<MessageId> {
    set m | m in t && RepublishDue(t[m], now)
  }

  /** processDueRetries with the ids of `rest` still to visit. */
  ghost predicate RetryProgress(cfg: Config, t: Table, now: Time, answers: Answers, rest: set<MessageId>, u: Table)
    requires t.Keys <= answers.Keys
  {
    && rest <= u.Keys <= t.Keys
    && (forall m :: m in rest ==> u[m] == t[m])
    && (forall m :: m in t && m !in rest ==>
          if Visited(cfg, t[m], now, answers[m]).Some? then m in u && u[m] == Visited(cfg, t[m], now, answers[m]).value else m !in u)
  }

  lemma RetryStep(cfg: Config, t: Table, now: Time, answers: Answers, rest: set<MessageId>, u: Table, m: MessageId)
    requires t.Keys <= answers.Keys && RetryProgress(cfg, t, now, answers, rest, u) && m in rest
    ensures m in t && m in u && u[m] == t[m]
    ensures RetryProgress(cfg, t, now, answers, rest - {m}, Replace(u, m, Visited(cfg, t[m], now, answers[m])))
    ensures multiset(Republished(t - (rest - {m}), now)) ==
      multiset(Republished(t - rest, now)) + if RepublishDue(t[m], now) then multiset{m} else multiset{}
  {
    hide Visited, RepublishDue;
    assert Republished(t - (rest - {m}), now) == Republished(t - rest, now) + if RepublishDue(t[m], now) then {m} else {};
  }

  lemma RetryEnds(cfg: Config, t: Table, now: Time, answers: Answers)
    requires t.Keys <= answers.Keys
    ensures RetryProgress(cfg, t, now, answers, t.Keys, t) && Republished(t - t.Keys, now) == {}
    ensures forall u :: RetryProgress(cfg, t, now, answers, {}, u) ==> u == AfterRetries(cfg, t, now, answers)
    ensures Republished(t - {}, now) == Republished(t, now)
  {
    hide Visited, RepublishDue;
    assert t - t.Keys == map[] && t - {} == t;
    forall u | RetryProgress(cfg, t, now, answers, {}, u) ensures u == AfterRetries(cfg, t, now, answers) {
      assert u.Keys == AfterRetries(cfg, t, now, answers).Keys;
    }
  }

  /** Every entry of `t` was treated as its own phase and deadline demand, and none was added. */
  ghost predicate RetriesMean(cfg: Config, t: Table, now: Time, answers: Answers, u: Table)
    requires t.Keys <= answers.Keys
  {
    u.Keys <= t.Keys && forall m :: m in t ==> VisitedMeans(cfg, t[m], now, answers[m], if m in u then Some(u[m]) else None)
  }

  lemma RetriesMeanAll(cfg: Config, t: Table, now: Time, answers: Answers)
    requires cfg.Valid() && t.Keys <= answers.Keys && Draws(answers)
    ensures RetriesMean(cfg, t, now, answers, AfterRetries(cfg, t, now, answers))
  {
    hide Visited, VisitedMeans;
    forall m | m in t ensures VisitedMeans(cfg, t[m], now, answers[m], Visited(cfg, t[m], now, answers[m])) { VisitMeans(cfg, t[m], now, answers[m]); }
  }

  /** Each due backoff was published once more, nothing else. */
  ghost predicate PublishedOnce(t: Table, now: Time, before: multiset<MessageId>, after: multiset<MessageId>) {
    forall m :: after[m] == before[m] + if m in t && t[m].phase.Backoff? && now >= t[m].nextAt then 1 else 0
  }

  lemma RepublishedMeans(t: Table, now: Time, before: multiset<MessageId>)
    ensures PublishedOnce(t, now, before, before + multiset(Republished(t, now)))
  {}

  /** An overdue ACK wait whose row cannot be read. */
  ghost predicate OverdueUnreadable(t: Table, now: Time, answers: Answers)
    requires t.Keys <= answers.Keys
  {
    exists m :: m in t && t[m].phase.AwaitAck? && now >= t[m].nextAt && answers[m].lookup.Failed?
  }

  /** After the retries of a pass at `now`, an entry that is not publishing is either
      not due yet or was just backed off. */
  ghost predicate Settled(cfg: Config, t: Table, now: Time, answers: Answers, u: Table)
    requires t.Keys <= answers.Keys
  {
    forall m :: m in u && !u[m].phase.Publishing? ==> m in t && SettledEntry(cfg, t[m], now, answers[m], u[m])
  }

  ghost predicate SettledEntry(cfg: Config, e: Entry, now: Time, a: Answer, f: Entry) {
    (f == e && now < f.nextAt) || f == BackedOff(cfg, e, a)
  }

  lemma RetriesSettle(cfg: Config, t: Table, now: Time, answers: Answers)
    requires t.Keys <= answers.Keys
    ensures Settled(cfg, t, now, answers, AfterRetries(cfg, t, now, answers))
  {}

  lemma {:induction false} AdmissionsSettle(cfg: Config, t: Table, now: Time, answers: Answers, u: Table, page: seq<Row>)
    requires t.Keys <= answers.Keys && Settled(cfg, t, now, answers, u)
    ensures Settled(cfg, t, now, answers, AdmitAll(u, page, cfg.maxInflight))
  {
    hide SettledEntry;
    if page != [] { AdmissionsSettle(cfg, t, now, answers, u, page[..|page| - 1]); }
  }

  // ----- a whole pass as one change -----

  /** What a pass can change: the in-flight set, the pause, and the count of a finite run. */
  datatype Ledger = Ledger(inflight: Table, paused: bool, genDone: bool, unique: nat)

  /** admitPending: a page is read only while a slot is free. */
  function AfterAdmission(cfg: Config, t: Table, page: seq<Row>): Table {
    if |t| >= cfg.maxInflight then t else AdmitAll(t, page, cfg.maxInflight)
  }

  /** generate, once the outbox has answered without stopping the run. */
  function AfterGenerate(target: nat, l: Ledger, reply: Result<Row, Error>): Ledger {
    match reply
    case Err(e) => if e.Full? then l.(paused := true) else l
    case Ok(row) =>
      Ledger(l.inflight[row.messageId := Admitted(row)], l.paused, l.genDone || (target > 0 && l.unique + 1 >= target), l.unique + 1)
  }

  predicate MayGenerate(cfg: Config, l: Ledger) { !l.genDone && !l.paused && |l.inflight| < cfg.maxInflight }

  /** Retries, then admissions, then at most one new batch. */
  ghost function AfterPass(cfg: Config, target: nat, l: Ledger, now: Time, answers: Answers, page: seq<Row>,
                           due: bool, reply: Result<Row, Error>): Ledger
    requires l.inflight.Keys <= answers.Keys
  {
    var k := l.(inflight := AfterAdmission(cfg, AfterRetries(cfg, l.inflight, now, answers), page));
    if MayGenerate(cfg, k) && due then AfterGenerate(target, k, reply) else k
  }

  /** The publishes that retries and admissions start. */
  ghost function Replayed(cfg: Config, t: Table, now: Time, answers: Answers, page: seq<Row>): multiset<MessageId>
    requires t.Keys <= answers.Keys
  {
    var u := AfterRetries(cfg, t, now, answers);
    multiset(Republished(t, now)) + multiset(AfterAdmission(cfg, u, page).Keys - u.Keys)
  }

  /** The publishes a pass starts: due backoffs, admitted rows, the new batch. */
  ghost function PassLaunches(cfg: Config, l: Ledger, now: Time, answers: Answers, page: seq<Row>, due: bool, reply: Result<Row, Error>): multiset<MessageId>
    requires l.inflight.Keys <= answers.Keys
  {
    var k := l.(inflight := AfterAdmission(cfg, AfterRetries(cfg, l.inflight, now, answers), page));
    Replayed(cfg, l.inflight, now, answers, page)
    + if MayGenerate(cfg, k) && due && reply.Ok? then multiset{reply.value.messageId} else multiset{}
  }

  ghost predicate SomeLookupFails(t: Table, now: Time, answers: Answers)
    requires t.Keys <= answers.Keys
  {
    exists m :: m in t && LookupFails(t[m], now, answers[m])
  }

  lemma NoteFailure(t: Table, now: Time, answers: Answers, m: MessageId)
    requires t.Keys <= answers.Keys && m in t && LookupFails(t[m], now, answers[m])
    ensures SomeLookupFails(t, now, answers) && OverdueUnreadable(t, now, answers)
  {}

  lemma NoFailure(t: Table, now: Time, answers: Answers)
    requires t.Keys <= answers.Keys && forall m :: m in t ==> !LookupFails(t[m], now, answers[m])
    ensures !SomeLookupFails(t, now, answers) && !OverdueUnreadable(t, now, answers)
  {
    if m :| m in t && t[m].phase.AwaitAck? && now >= t[m].nextAt && answers[m].lookup.Failed? { assert LookupFails(t[m], now, answers[m]); }
  }

  function FirstPage(pages: Pages): seq<Row> { if pages[0].Ok? then pages[0].value else [] }

  lemma PassSettles(cfg: Config, target: nat, l: Ledger, now: Time, answers: Answers, page: seq<Row>, due: bool, reply: Result<Row, Error>)
    requires l.inflight.Keys <= answers.Keys
    ensures Settled(cfg, l.inflight, now, answers, AfterPass(cfg, target, l, now, answers, page, due, reply).inflight)
  {
    var u := AfterRetries(cfg, l.inflight, now, answers);
    RetriesSettle(cfg, l.inflight, now, answers);
    AdmissionsSettle(cfg, l.inflight, now, answers, u, page);
    hide AfterRetries, AdmitAll, SettledEntry;
  }

  /** syncInflight with the ids of `rest` still to look up. */
  ghost predicate SyncProgress(t: Table, answers: Answers, rest: set<MessageId>, u: Table)
    requires t.Keys <= answers.Keys
  {
    && rest <= u.Keys <= t.Keys
    && (forall m :: m in u ==> u[m] == t[m])
    && (forall m :: m in t && m !in rest ==> !answers[m].lookup.Failed? && (m in u <==> !answers[m].lookup.Gone?))
  }

  lemma SyncStep(t: Table, answers: Answers, rest: set<MessageId>, u: Table, m: MessageId)
    requires t.Keys <= answers.Keys && SyncProgress(t, answers, rest, u) && m in rest && !answers[m].lookup.Failed?
    ensures SyncProgress(t, answers, rest - {m}, if answers[m].lookup.Gone? then u - {m} else u)
    ensures |u - {m}| < |u|
  {
    assert (u - {m}).Keys == u.Keys - {m};
  }

  lemma SyncEnd(t: Table, answers: Answers, u: Table)
    requires t.Keys <= answers.Keys && SyncProgress(t, answers, {}, u)
    ensures u == Kept(t, answers)
  {}

  function Kept(t: Table, answers: Answers): Table
    requires t.Keys <= answers.Keys
  {
    map m | m in t && !answers[m].lookup.Gone? :: t[m]
  }

  class Scheduler {
    const cfg: Config
    const cadence: nat
    const target: nat
    const budget: nat

    var inflight: Table
    /** Publish invocations started so far, one occurrence each. */
    var launched: multiset<MessageId>
    var nextGenAt: Time
    var genDone: bool
    var genReady: bool
    var paused: bool
    var completionDeadline: Time
    var unique: nat

    ghost predicate Valid() reads this {
      && cfg.Valid() && cadence > 0 && (target > 0 ==> budget > 0)
      && |inflight| <= cfg.maxInflight
    }

    constructor (cfg: Config, cadence: nat, target: nat, budget: nat, start: Time)
      requires cfg.Valid() && cadence > 0 && (target > 0 ==> budget > 0)
      ensures Valid() && inflight == map[] && launched == multiset{} && nextGenAt == start && unique == 0
      ensures !genDone && !genReady && !paused && completionDeadline == ZERO
    {
      this.cfg, this.cadence, this.target, this.budget := cfg, cadence, target, budget;
      inflight, launched, nextGenAt := map[], multiset{}, start;
      genDone, genReady, paused, completionDeadline, unique := false, false, false, ZERO, 0;
    }

    function View(): Ledger reads this { Ledger(inflight, paused, genDone, unique) }

    method StartPublish(m: MessageId)
      requires Valid() && m in inflight
      modifies this`inflight, this`launched
      ensures Valid()
      ensures inflight == old(inflight)[m := old(inflight)[m].(phase := Publishing)]
      ensures launched == old(launched) + multiset{m}
    {
      assert inflight[m := inflight[m].(phase := Publishing)].Keys == inflight.Keys;
      inflight := inflight[m := inflight[m].(phase := Publishing)];
      launched := launched + multiset{m};
    }

    method ScheduleBackoff(m: MessageId, a: Answer)
      requires Valid() && m in inflight && 0.0 <= a.draw < 1.0
      modifies this`inflight
      ensures Valid() && inflight == old(inflight)[m := BackedOff(cfg, old(inflight)[m], a)]
      ensures WaitsRetry(cfg, old(inflight)[m], inflight[m], a.clock)
    {
      BackedOffMeans(cfg, inflight[m], a);
      var e := inflight[m];
      var delay := Retry.RetryDelay(cfg.retryMin, cfg.retryMax, e.retries, a.draw);
      assert inflight[m := BackedOff(cfg, e, a)].Keys == inflight.Keys;
      inflight := inflight[m := Entry(e.row, Backoff, e.retries + 1, a.clock + delay)];
    }

    /** A PUBACK only moves the entry on; a failure retains it; a late result for a
        dropped or re-used entry is ignored. */
    method OnPublishResult(m: MessageId, ok: bool, a: Answer)
      requires Valid() && 0.0 <= a.draw < 1.0
      modifies this`inflight
      ensures Valid()
      ensures inflight == if m in old(inflight) && old(inflight)[m].phase.Publishing?
        then old(inflight)[m := Resulted(cfg, old(inflight)[m], ok, a)] else old(inflight)
      ensures m in old(inflight) && old(inflight)[m].phase.Publishing? ==>
        m in inflight && if ok then WaitsAck(cfg, old(inflight)[m], inflight[m], a.clock) else WaitsRetry(cfg, old(inflight)[m], inflight[m], a.clock)
    {
      if m !in inflight || !inflight[m].phase.Publishing? { return; }
      if !ok { ScheduleBackoff(m, a); return; }
      assert inflight[m := Resulted(cfg, inflight[m], ok, a)].Keys == inflight.Keys;
      inflight := inflight[m := inflight[m].(phase := AwaitAck, nextAt := a.clock + cfg.ackTimeout)];
    }

    /** The body of processDueRetries for one entry. */
    method VisitDue(m: MessageId, now: Time, a: Answer) returns (ok: bool)
      requires Valid() && m in inflight && 0.0 <= a.draw < 1.0
      modifies this`inflight, this`launched
      ensures Valid()
      ensures ok <==> !LookupFails(old(inflight)[m], now, a)
      ensures ok ==> inflight == Replace(old(inflight), m, Visited(cfg, old(inflight)[m], now, a))
      ensures ok ==> launched == old(launched) + if RepublishDue(old(inflight)[m], now) then multiset{m} else multiset{}
      ensures ok ==> VisitedMeans(cfg, old(inflight)[m], now, a, if m in inflight then Some(inflight[m]) else None)
    {
      VisitMeans(cfg, inflight[m], now, a);
      ok := true;
      if !Due(inflight[m], now) { return; }
      if inflight[m].phase.AwaitAck? {
        if a.lookup.Failed? { return false; }
        if a.lookup.Gone? {
          assert (inflight - {m}).Keys == inflight.Keys - {m};
          inflight := inflight - {m};
        } else {
          ScheduleBackoff(m, a);
        }
      } else {
        StartPublish(m);
      }
    }

    /** processDueRetries: every entry is visited once, in no particular order. */
    method ProcessDueRetries(now: Time, answers: Answers) returns (ok: bool)
      requires Valid() && inflight.Keys <= answers.Keys && Draws(answers)
      modifies this`inflight, this`launched
      ensures Valid()
      ensures ok <==> !SomeLookupFails(old(inflight), now, answers)
      ensures ok ==> inflight == AfterRetries(cfg, old(inflight), now, answers)
      ensures ok ==> launched == old(launched) + multiset(Republished(old(inflight), now))
      ensures ok ==> RetriesMean(cfg, old(inflight), now, answers, inflight)
      ensures ok ==> PublishedOnce(old(inflight), now, old(launched), launched)
      ensures ok <==> !OverdueUnreadable(old(inflight), now, answers)
    {
      assert forall m :: m in answers ==> 0.0 <= answers[m].draw < 1.0;
      assert cfg.Valid();
      hide *;
      ghost var t := inflight;
      var rest := inflight.Keys;
      RetryEnds(cfg, t, now, answers);
      while rest != {}
        invariant Valid() && RetryProgress(cfg, t, now, answers, rest, inflight)
        invariant forall m :: m in t && m !in rest ==> !LookupFails(t[m], now, answers[m])
        invariant launched == old(launched) + multiset(Republished(t - rest, now))
        decreases rest
      {
        var m :| m in rest;
        RetryStep(cfg, t, now, answers, rest, inflight, m);
        ok := VisitDue(m, now, answers[m]);
        if !ok {
          NoteFailure(t, now, answers, m);
          return;
        }
        rest := rest - {m};
      }
      NoFailure(t, now, answers);
      RetriesMeanAll(cfg, t, now, answers);
      RepublishedMeans(t, now, old(launched));
      ok := true;
    }

    method Admit(row: Row)
      requires Valid() && |inflight| < cfg.maxInflight
      modifies this`inflight, this`launched
      ensures Valid()
      ensures inflight == old(inflight)[row.messageId := Admitted(row)]
      ensures launched == old(launched) + multiset{row.messageId}
    {
      assert inflight[row.messageId := Admitted(row)].Keys == inflight.Keys + {row.messageId};
      inflight := inflight[row.messageId := Entry(row, Backoff, 0, ZERO)];
      StartPublish(row.messageId);
    }

    /** The rows of one page, oldest first, while a slot is free. */
    method AdmitPage(page: seq<Row>)
      requires Valid()
      modifies this`inflight, this`launched
      ensures Valid() && inflight == AdmitAll(old(inflight), page, cfg.maxInflight)
      ensures old(inflight).Keys <= inflight.Keys && launched == old(launched) + multiset(inflight.Keys - old(inflight).Keys)
      ensures DistinctIds(page) ==> OldestFirst(old(inflight), page, cfg.maxInflight, inflight)
    {
      if DistinctIds(page) { AdmitsOldestFirst(inflight, page, cfg.maxInflight); }
      hide OldestFirst;
      ghost var t := inflight;
      for i := 0 to |page|
        invariant Valid() && inflight == AdmitAll(t, page[..i], cfg.maxInflight)
        invariant t.Keys <= inflight.Keys && launched == old(launched) + multiset(inflight.Keys - t.Keys)
      {
        assert page[..i + 1][..i] == page[..i];
        ghost var was := inflight.Keys - t.Keys;
        if |inflight| < cfg.maxInflight && page[i].messageId !in inflight {
          Admit(page[i]);
          assert inflight.Keys - t.Keys == was + {page[i].messageId};
        }
      }
      assert page[..|page|] == page;
    }

    /** admitPending with its page loop.  `pages[i]` answers the i-th PendingAfter call.
        At most one page is ever read, and the page cap is never reached. */
    method AdmitPending(pages: Pages) returns (r: Result<bool, Error>, scans: nat)
      requires Valid()
      requires PagesFit(pages, cfg.maxInflight)
      modifies this`inflight, this`launched
      ensures Valid()
      ensures scans <= 1 && (r.Ok? ==> !r.value)
      ensures scans == 0 <==> |old(inflight)| >= cfg.maxInflight
      ensures r.Err? <==> scans == 1 && pages[0].Err?
      ensures inflight == if scans == 1 && pages[0].Ok? then AdmitAll(old(inflight), pages[0].value, cfg.maxInflight) else old(inflight)
      ensures r.Ok? && |inflight| < cfg.maxInflight ==> forall row :: row in pages[0].value ==> row.messageId in inflight
      ensures scans == 1 && r.Ok? ==> OldestFirst(old(inflight), pages[0].value, cfg.maxInflight, inflight)
      ensures launched == old(launched) + multiset(inflight.Keys - old(inflight).Keys)
    {
      scans := 0;
      if |inflight| >= cfg.maxInflight { return Ok(false), 0; }
      while scans < MAX_ADMISSION_PAGES && |inflight| < cfg.maxInflight
        invariant Valid()
        invariant scans == 0 ==> inflight == old(inflight) && launched == old(launched)
        invariant scans > 0 ==> scans == 1 && |inflight| >= cfg.maxInflight && pages[0].Ok?
                                && inflight == AdmitAll(old(inflight), pages[0].value, cfg.maxInflight)
                                && launched == old(launched) + multiset(inflight.Keys - old(inflight).Keys)
                                && OldestFirst(old(inflight), pages[0].value, cfg.maxInflight, inflight)
        decreases MAX_ADMISSION_PAGES - scans
      {
        hide AdmitAll, OldestFirst;
        var items := pages[scans];
        scans := scans + 1;
        if items.Err? { return Err(items.error), scans; }
        OnePageSuffices(inflight, items.value, cfg.maxInflight);
        AdmitPage(items.value);
        if |items.value| < cfg.maxInflight { return Ok(false), scans; }
      }
      return Ok(|inflight| < cfg.maxInflight), scans;
    }

    /** generate; `reply` is the outbox's answer to the Enqueue.  The cadence moves on
        first, capacity pauses, an ambiguous commit stops the run. */
    method Generate(now: Time, reply: Result<Row, Error>, clock: Time) returns (stop: Option<Stop>)
      requires Valid() && |inflight| < cfg.maxInflight
      modifies this`nextGenAt, this`paused, this`unique, this`inflight, this`launched, this`genDone, this`completionDeadline
      ensures Valid()
      ensures nextGenAt == now + cadence
      ensures unique == old(unique) + if reply.Ok? then 1 else 0
      ensures reply.Ok? ==> inflight == old(inflight)[reply.value.messageId := Admitted(reply.value)]
      ensures reply.Ok? ==> launched == old(launched) + multiset{reply.value.messageId}
      ensures reply.Err? ==> inflight == old(inflight) && launched == old(launched)
      ensures reply.Err? ==> genDone == old(genDone)
      ensures paused == (old(paused) || (reply.Err? && reply.error.Full?))
      ensures stop == if reply.Err? && reply.error.CommitUnknown? then Some(AmbiguousCommit)
        else if reply.Err? && !reply.error.Full? then Some(EnqueueFailed) else None
      ensures reply.Ok? ==> genDone == (old(genDone) || (target > 0 && unique >= target))
      ensures completionDeadline == if genDone && !old(genDone) then clock + budget else old(completionDeadline)
    {
      nextGenAt := now + cadence;
      match reply {
        case Err(e) =>
          if e.Full? { paused := true; return None; }
          if e.CommitUnknown? { return Some(AmbiguousCommit); }
          return Some(EnqueueFailed);
        case Ok(row) =>
          unique := unique + 1;
          Admit(row);
          if target > 0 && !genDone && unique >= target {
            genDone := true;
            completionDeadline := clock + budget;
          }
          return None;
      }
    }

    /** syncInflight: drop what the ACK worker has deleted, then allow generation. */
    method SyncInflight(answers: Answers) returns (ok: bool)
      requires Valid() && inflight.Keys <= answers.Keys
      modifies this`inflight, this`paused
      ensures Valid()
      ensures ok <==> forall m :: m in old(inflight) ==> !answers[m].lookup.Failed?
      ensures ok ==> inflight == Kept(old(inflight), answers) && !paused
      ensures ok ==> forall m :: m in inflight <==> m in old(inflight) && answers[m].lookup.Still?
      ensures ok ==> forall m :: m in inflight ==> inflight[m] == old(inflight)[m]
      ensures !ok ==> paused == old(paused)
    {
      ghost var t := inflight;
      var rest := inflight.Keys;
      while rest != {}
        invariant Valid() && SyncProgress(t, answers, rest, inflight) && paused == old(paused)
        decreases rest
      {
        var m :| m in rest;
        if answers[m].lookup.Failed? { return false; }
        SyncStep(t, answers, rest, inflight, m);
        rest := rest - {m};
        if answers[m].lookup.Gone? { inflight := inflight - {m}; }
      }
      SyncEnd(t, answers, inflight);
      paused := false;
      ok := true;
    }

    /** The first half of reconcile: due retries, then admissions. */
    method Replay(now: Time, answers: Answers, pages: Pages) returns (stop: Option<Stop>, more: bool)
      requires Valid() && inflight.Keys <= answers.Keys && Draws(answers)
      requires PagesFit(pages, cfg.maxInflight)
      modifies this`inflight, this`launched
      ensures Valid()
      ensures stop.None? ==> inflight == AfterAdmission(cfg, AfterRetries(cfg, old(inflight), now, answers), FirstPage(pages))
      ensures stop.None? ==> launched == old(launched) + Replayed(cfg, old(inflight), now, answers, FirstPage(pages))
      ensures stop == Some(LookupFailed) <==> SomeLookupFails(old(inflight), now, answers)
      ensures stop == Some(PendingFailed) <==>
        !SomeLookupFails(old(inflight), now, answers) && |AfterRetries(cfg, old(inflight), now, answers)| < cfg.maxInflight && pages[0].Err?
      ensures (stop.Some? ==> stop.value.LookupFailed? || stop.value.PendingFailed?) && !more
    {
      hide AfterRetries, AdmitAll, SomeLookupFails, Republished;
      var ok := ProcessDueRetries(now, answers);
      if !ok { return Some(LookupFailed), false; }
      var left, scans := AdmitPending(pages);
      if left.Err? { return Some(PendingFailed), false; }
      return None, left.value;
    }

    /** reconcile on a ready transport. */
    method Reconcile(now: Time, answers: Answers, pages: Pages,
                     reply: Result<Row, Error>, clock: Time) returns (stop: Option<Stop>)
      requires Valid() && inflight.Keys <= answers.Keys && Draws(answers)
      requires PagesFit(pages, cfg.maxInflight)
      modifies this
      ensures stop.None? ==> Valid()
      ensures stop.None? ==> View() == AfterPass(cfg, target, old(View()), now, answers, FirstPage(pages), now >= old(nextGenAt), reply)
      ensures stop.None? ==>
        launched == old(launched) + PassLaunches(cfg, old(View()), now, answers, FirstPage(pages), now >= old(nextGenAt), reply)
      ensures stop == Some(LookupFailed) <==> SomeLookupFails(old(inflight), now, answers)
      ensures stop == Some(PendingFailed) <==>
        !SomeLookupFails(old(inflight), now, answers) && |AfterRetries(cfg, old(inflight), now, answers)| < cfg.maxInflight && pages[0].Err?
      ensures stop.Some? && !stop.value.LookupFailed? && !stop.value.PendingFailed? ==> reply.Err? && !reply.error.Full?
      ensures stop.None? ==> GenerationArmed(now, old(nextGenAt))
      ensures stop.None? && (unique > old(unique) || (paused && !old(paused))) ==> !old(genDone) && !old(paused) && now >= old(nextGenAt)
      ensures stop.None? && !old(genDone) && !old(paused) && now >= old(nextGenAt) && |inflight| < cfg.maxInflight ==>
        nextGenAt == now + cadence && (unique > old(unique) || paused)
      ensures stop.None? ==> Settled(cfg, old(inflight), now, answers, inflight)
      ensures completionDeadline == if genDone && !old(genDone) then clock + budget else old(completionDeadline)
      ensures old(genDone) ==> genDone
    {
      hide Settled, AfterRetries, AfterAdmission, SomeLookupFails, Replayed;
      PassSettles(cfg, target, View(), now, answers, FirstPage(pages), now >= nextGenAt, reply);
      var more;
      stop, more := Replay(now, answers, pages);
      if stop.Some? { return; }
      genReady := !genDone && !paused && |inflight| < cfg.maxInflight && !more;
      if genReady && now >= nextGenAt { stop := Generate(now, reply, clock); }
    }

    /** What armTimer may rely on: a generation tick it considers lies after `now`. */
    ghost predicate GenerationArmed(now: Time, before: Time) reads this {
      && (WantsGeneration() ==> nextGenAt > now)
      && (nextGenAt == before || nextGenAt == now + cadence)
    }

    predicate WantsGeneration() reads this {
      genReady || (!genDone && !paused && |inflight| < cfg.maxInflight)
    }

    /** checkCompletion: done with success only at zero pending rows, done with the
        budget error only with rows still pending. */
    method CheckCompletion(pendingRows: nat, clock: Time) returns (stop: Option<Stop>)
      ensures stop.Some? ==> target > 0 && genDone
      ensures stop == Some(Completed) <==> target > 0 && genDone && pendingRows == 0
      ensures stop == Some(BudgetExpired) <==>
        target > 0 && genDone && pendingRows > 0 && completionDeadline != ZERO && clock >= completionDeadline
      ensures stop.Some? ==> stop.value.Completed? || stop.value.BudgetExpired?
    {
      if target == 0 || !genDone { return None; }
      if pendingRows == 0 { return Some(Completed); }
      if completionDeadline != ZERO && clock >= completionDeadline { return Some(BudgetExpired); }
      return None;
    }

    /** Every instant the loop may have to act at without an event. */
    function LiveDeadlines(): set<Time> reads this {
      (if WantsGeneration() then {nextGenAt} else {})
      + (if target > 0 && genDone then {completionDeadline} else {})
      + (set m | m in inflight && !inflight[m].phase.Publishing? :: inflight[m].nextAt)
      - {ZERO}
    }

    /** armTimer: None parks the timer. */
    method ArmTimer(ready: bool) returns (wake: Option<Time>)
      ensures !ready ==> wake.None?
      ensures ready ==> (wake.None? <==> LiveDeadlines() == {})
      ensures ready && wake.Some? ==> wake.value in LiveDeadlines() && forall d :: d in LiveDeadlines() ==> wake.value <= d
      ensures ready ==> forall m :: m in inflight && !inflight[m].phase.Publishing? && inflight[m].nextAt != ZERO ==> wake.Some? && wake.value <= inflight[m].nextAt
      ensures ready && target > 0 && genDone && completionDeadline != ZERO ==> wake.Some? && wake.value <= completionDeadline
      ensures ready && !genDone && !paused && |inflight| < cfg.maxInflight && nextGenAt != ZERO ==> wake.Some? && wake.value <= nextGenAt
    {
      if !ready { return None; }
      var next := ZERO;
      if WantsGeneration() { next := Earlier(next, nextGenAt); }
      if target > 0 && genDone && completionDeadline != ZERO { next := Earlier(next, completionDeadline); }
      ghost var seen := (if WantsGeneration() then {nextGenAt} else {}) + (if target > 0 && genDone then {completionDeadline} else {}) - {ZERO};
      var rest := inflight.Keys;
      while rest != {}
        invariant rest <= inflight.Keys
        invariant seen <= LiveDeadlines()
        invariant forall d :: d in LiveDeadlines() && d !in seen ==>
          exists m :: m in rest && !inflight[m].phase.Publishing? && inflight[m].nextAt == d
        invariant next == ZERO <==> seen == {}
        invariant next != ZERO ==> next in seen && forall d :: d in seen ==> next <= d
        decreases rest
      {
        var m :| m in rest;
        rest := rest - {m};
        if !inflight[m].phase.Publishing? {
          next := Earlier(next, inflight[m].nextAt);
          if inflight[m].nextAt != ZERO { seen := seen + {inflight[m].nextAt}; }
        }
      }
      assert seen == LiveDeadlines();
      forall m | m in inflight && !inflight[m].phase.Publishing? && inflight[m].nextAt != ZERO ensures inflight[m].nextAt in seen {
        assert inflight[m].nextAt in LiveDeadlines();
      }
      wake := if next == ZERO then None else Some(next);
    }

    /** The `consider` closure of armTimer. */
    function Earlier(next: Time, t: Time): Time {
      if t == ZERO then next else if next == ZERO || t < next then t else next
    }

    /** One pass of the loop over a ready transport.  With a retry minimum of at least two
        nanoseconds every live deadline lies strictly after `earliest`, no later than any
        clock reading of the pass; with a clock that does not step back within the pass
        that is `now` itself, so the armed timer never spins on a past instant. */
    method Pass(now: Time, answers: Answers, pages: Pages, reply: Result<Row, Error>,
                clock: Time, pendingRows: nat, checkedAt: Time, ghost earliest: Time) returns (stop: Option<Stop>, wake: Option<Time>)
      requires Valid() && inflight.Keys <= answers.Keys && Draws(answers) && cfg.retryMin >= 2
      requires PagesFit(pages, cfg.maxInflight)
      requires earliest <= now && earliest <= checkedAt && forall m :: m in answers ==> earliest <= answers[m].clock
      modifies this
      ensures stop.None? ==> Valid()
      ensures stop.None? ==> forall d :: d in LiveDeadlines() ==> d > earliest
      ensures stop.None? ==> (wake.None? <==> LiveDeadlines() == {})
      ensures wake.Some? ==> wake.value > earliest && wake.value in LiveDeadlines() && forall d :: d in LiveDeadlines() ==> wake.value <= d
    {
      hide AfterPass, PassLaunches, SomeLookupFails, AfterRetries;
      wake := None;
      stop := Reconcile(now, answers, pages, reply, clock);
      if stop.Some? { return; }
      stop := CheckCompletion(pendingRows, checkedAt);
      if stop.Some? { return; }
      forall m | m in inflight && !inflight[m].phase.Publishing? ensures inflight[m].nextAt > earliest {
        var e := old(inflight)[m];
        BackoffInFuture(cfg, e, answers[m]);
      }
      wake := ArmTimer(true);
    }
  }

  lemma BackoffInFuture(cfg: Config, e: Entry, a: Answer)
    requires cfg.Valid() && cfg.retryMin >= 2 && 0.0 <= a.draw < 1.0
    ensures BackedOff(cfg, e, a).nextAt > a.clock
  {
    var base := Retry.Base(cfg.retryMin, cfg.retryMax, e.retries);
    Retry.BaseGrows(cfg.retryMin, cfg.retryMax, 0, e.retries);
    Retry.DelayPositive(base, cfg.retryMax);
    assert Retry.Jittered(base, cfg.retryMax, a.draw) > 0;
  }
}
