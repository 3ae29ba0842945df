/** The store-and-forward engine as a step system.

    Four kinds of goroutine share the outbox: the scheduler loop (scheduler.go), the
    ACK worker (ack.go), the publish invocations it starts, and the process around
    them, which may be cancelled or die at any point.  One `Action` is one atomic step
    of one of them; `Next` says what it does.  A run is any sequence of enabled
    actions, so a theorem about runs is a theorem about every interleaving.

    Clock readings, random draws, readiness, broker behaviour and the fate of a commit
    are parameters of the actions: every value is allowed. */
module Engine {
  import opened Wrappers
  import opened Commits
  import opened Outbox
  import opened Inflight

  datatype Params = Params(cfg: Config, limits: Limits, target: nat)

  /** The durable file, with two histories no step reads back except for the freshness
      of a new id: every batch ever committed, and every row an ACK deleted. */
  datatype Db = Db(store: Store, committed: map<MessageId, Message>, delivered: set<MessageId>)

  /** Why the scheduler loop returned.  `Cancelled` and `CancelledUnknown` are one to the
      caller: a normal stop. */
  datatype Reason =
    | Cancelled
    | Completed
    | BudgetExpired(pendingRows: nat)
    | Broken
    | AmbiguousCommit(applied: bool)
    | CancelledUnknown(applied: bool)

  /** Where the scheduler goroutine stands.  A point between two accesses to shared data
      is a state of its own. */
  datatype Loop =
    | Top
    | Retrying(now: Time, rest: set<MessageId>)
    | Scanning(pageNo: nat, cursor: nat)
    | Admitting(pageNo: nat, page: seq<Row>, next: nat)
    | Deciding(more: bool)
    | Enqueueing
    | FullSeen
    | Stored(row: Row)
    | Counted(row: Row)
    | Checking
    | Select
    | Syncing(rest: set<MessageId>)
    | Stopped(why: Reason)
    | Down

  /** The scheduler's own data; `initial`, `rejected` and `admitted` are history. */
  datatype Sched = Sched(
    inflight: Table, paused: bool, genDone: bool, unique: nat,
    initial: nat, rejected: nat, admitted: seq<Row>)

  datatype Progress = Running | Returned(ok: bool) | Queued(ok: bool)

  /** One publish invocation, until its result is consumed or discarded. */
  datatype Attempt = Attempt(id: MessageId, message: Message, progress: Progress)

  datatype Pubs = Pubs(live: map<nat, Attempt>, next: nat) {
    function Launch(row: Row): Pubs {
      Pubs(live[next := Attempt(row.messageId, row.message, Running)], next + 1)
    }
    function Advance(h: nat, progress: Progress): Pubs
      requires h in live
    {
      this.(live := live[h := live[h].(progress := progress)])
    }
    function Drop(h: nat): Pubs { this.(live := live - {h}) }
    function Waiting(): set<nat> { set h | h in live && live[h].progress.Queued? }
  }

  /** The ACK worker between the commit of a delete, its counter and its signal. */
  datatype Worker = Idle | Deleted | Tallied | Fatal(applied: bool) | Halted

  /** `freed` is history: a delete landed since the last refused batch. */
  datatype Ack = Ack(worker: Worker, notify: bool, acked: nat, freed: bool)

  datatype State = State(db: Db, loop: Loop, sched: Sched, pubs: Pubs, ack: Ack, cancelled: bool)

  datatype LoopAction =
    | BeginPass(ready: bool, now: Time)
    | RetryVisit(m: MessageId, lookupFails: bool, clock: Time, draw: real)
    | RetriesDone
    | Scan(page: seq<Row>)
    | ScanFails
    | AdmitNext
    | Decide(due: bool)
    | Enqueue(req: Request, c: Commit)
    | EnqueueFails
    | MarkPaused
    | CountStored
    | AdmitStored
    | Check(deadlinePassed: bool, countFails: bool)
    | Wake
    | TakeNotify
    | SyncVisit(m: MessageId, lookupFails: bool)
    | SyncDone
    | TakeResult(h: nat, clock: Time, draw: real)
    | PeerFatal
    | NoticeCancel

  datatype Action =
    | Loops(step: LoopAction)
    // publish invocations
    | PublishReturns(h: nat, ok: bool)
    | SendResult(h: nat)
    | DiscardResult(h: nat)
    // the ACK worker, for a strictly valid own ACK of `m`
    | AckDelete(m: MessageId, c: Commit)
    | Tally
    | Signal
    | WorkerStops
    // the process
    | Cancel
    | Exit
    | Isolate(m: MessageId, c: Commit)
    | Start

  function Answered(s: State, m: MessageId, clock: Time, draw: real): Answer {
    Answer(if s.db.store.IsPending(m) then Still else Gone, clock, draw)
  }

  /** admit: the entry is created and its first publish starts at once. */
  function Admit(s: State, row: Row): State {
    s.(sched := s.sched.(inflight := s.sched.inflight[row.messageId := Admitted(row)], admitted := s.sched.admitted + [row]),
       pubs := s.pubs.Launch(row))
  }

  /** An error of the loop: once the context has ended it is taken for a normal stop. */
  function Failing(s: State): Loop { Stopped(if s.cancelled then Cancelled else Broken) }

  /** The same for an enqueue whose commit is unknown. */
  function Unknown(s: State, applied: bool): Loop {
    Stopped(if s.cancelled then CancelledUnknown(applied) else AmbiguousCommit(applied))
  }

  predicate SlotFree(p: Params, s: State) { |s.sched.inflight| < p.cfg.maxInflight }

  ghost predicate LoopEnabled(p: Params, s: State, a: LoopAction) {
    match a
    case BeginPass(_, _) => s.loop.Top? && !s.cancelled
    case RetryVisit(m, _, _, draw) => s.loop.Retrying? && m in s.loop.rest && m in s.sched.inflight && 0.0 <= draw < 1.0
    case RetriesDone => s.loop.Retrying? && s.loop.rest == {}
    case Scan(page) => s.loop.Scanning? && (SlotFree(p, s) ==> IsPage(s.db.store, s.loop.cursor, p.cfg.maxInflight, page))
    case ScanFails => s.loop.Scanning? && SlotFree(p, s)
    case AdmitNext => s.loop.Admitting? && s.loop.next <= |s.loop.page|
    case Decide(_) => s.loop.Deciding?
    case Enqueue(req, _) => s.loop.Enqueueing? && req.messageId !in s.db.committed
    case EnqueueFails => s.loop.Enqueueing?
    case MarkPaused => s.loop.FullSeen?
    case CountStored => s.loop.Stored?
    case AdmitStored => s.loop.Counted?
    case Check(_, _) => s.loop.Checking?
    case Wake => s.loop.Select?
    case TakeNotify => s.loop.Select? && s.ack.notify
    case SyncVisit(m, _) => s.loop.Syncing? && m in s.loop.rest
    case SyncDone => s.loop.Syncing? && s.loop.rest == {}
    case TakeResult(h, _, draw) => (s.loop.Select? || s.loop.Stopped?) && h in s.pubs.Waiting() && 0.0 <= draw < 1.0
    case PeerFatal => s.loop.Select?
    case NoticeCancel => (s.loop.Top? || s.loop.Select?) && s.cancelled
  }

  ghost predicate Enabled(p: Params, s: State, a: Action) {
    match a
    case Loops(step) => LoopEnabled(p, s, step)
    case PublishReturns(h, _) => h in s.pubs.live && s.pubs.live[h].progress.Running?
    case SendResult(h) => h in s.pubs.live && s.pubs.live[h].progress.Returned? && |s.pubs.Waiting()| < p.cfg.maxInflight
    case DiscardResult(h) => h in s.pubs.live && s.pubs.live[h].progress.Returned? && s.cancelled
    case AckDelete(_, _) => s.ack.worker.Idle?
    case Tally => s.ack.worker.Deleted?
    case Signal => s.ack.worker.Tallied?
    case WorkerStops => s.ack.worker.Idle?
    case Cancel => !s.loop.Down?
    case Exit => !s.loop.Down?
    case Isolate(_, _) => s.loop.Down?
    case Start => s.loop.Down?
  }

  ghost function LoopNext(p: Params, s: State, a: LoopAction): State
    requires LoopEnabled(p, s, a)
  {
    match a
    case BeginPass(ready, now) => s.(loop := if ready then Retrying(now, s.sched.inflight.Keys) else Checking)
    case RetryVisit(m, fails, clock, draw) => AfterVisit(p, s, m, fails, clock, draw)
    case RetriesDone => s.(loop := Scanning(0, 0))
    case Scan(page) => s.(loop := if !SlotFree(p, s) || page == [] then Deciding(false) else Admitting(s.loop.pageNo, page, 0))
    case ScanFails => s.(loop := Failing(s))
    case AdmitNext => AfterAdmitNext(p, s)
    case Decide(due) =>
      var genReady := !s.sched.genDone && !s.sched.paused && SlotFree(p, s) && !s.loop.more;
      s.(loop := if genReady && due then Enqueueing else Checking)
    case Enqueue(req, c) => AfterEnqueueing(p, s, req, c)
    case EnqueueFails => s.(loop := Failing(s))
    case MarkPaused => s.(sched := s.sched.(paused := true), loop := Checking)
    case CountStored => s.(sched := s.sched.(unique := s.sched.unique + 1), loop := Counted(s.loop.row))
    case AdmitStored =>
      Admit(s.(sched := s.sched.(genDone := s.sched.genDone || (p.target > 0 && s.sched.unique >= p.target)), loop := Checking), s.loop.row)
    case Check(deadline, fails) => s.(loop := AfterCheck(p, s, deadline, fails))
    case Wake => s.(loop := Top)
    case TakeNotify => s.(ack := s.ack.(notify := false), loop := Syncing(s.sched.inflight.Keys))
    case SyncVisit(m, fails) => AfterSyncVisit(s, m, fails)
    case SyncDone => s.(sched := s.sched.(paused := false), loop := Top)
    case TakeResult(h, clock, draw) => AfterResult(p, s, h, clock, draw)
    case PeerFatal => s.(loop := Stopped(Broken))
    case NoticeCancel => s.(loop := Stopped(Cancelled))
  }

  ghost function Next(p: Params, s: State, a: Action): State
    requires Enabled(p, s, a)
  {
    match a
    case Loops(step) => LoopNext(p, s, step)
    case PublishReturns(h, ok) => s.(pubs := s.pubs.Advance(h, Returned(ok)))
    case SendResult(h) => s.(pubs := s.pubs.Advance(h, Queued(s.pubs.live[h].progress.ok)))
    case DiscardResult(h) => s.(pubs := s.pubs.Drop(h))
    case AckDelete(m, c) => AfterAck(s, m, c)
    case Tally => s.(ack := s.ack.(acked := s.ack.acked + 1, worker := Tallied))
    case Signal => s.(ack := s.ack.(notify := true, worker := Idle))
    case WorkerStops => s.(ack := s.ack.(worker := Halted))
    case Cancel => s.(cancelled := true)
    case Exit =>
      s.(loop := Down, sched := s.sched.(inflight := map[]), pubs := s.pubs.(live := map[]), ack := s.ack.(worker := Halted, notify := false))
    case Isolate(m, c) => s.(db := s.db.(store := AfterQuarantine(s.db.store, m, c)))
    case Start =>
      s.(loop := Top, sched := Sched(s.sched.inflight, false, false, 0, |s.db.store.PendingIds()|, 0, []), ack := Ack(Idle, false, 0, false), cancelled := false)
  }

  ghost function AfterVisit(p: Params, s: State, m: MessageId, fails: bool, clock: Time, draw: real): State
    requires s.loop.Retrying? && m in s.sched.inflight
  {
    var e := s.sched.inflight[m];
    if fails && Due(e, s.loop.now) && e.phase.AwaitAck? then s.(loop := Failing(s))
    else
      var entries := Replace(s.sched.inflight, m, Visited(p.cfg, e, s.loop.now, Answered(s, m, clock, draw)));
      s.(sched := s.sched.(inflight := entries), loop := Retrying(s.loop.now, s.loop.rest - {m}),
         pubs := if RepublishDue(e, s.loop.now) then s.pubs.Launch(e.row) else s.pubs)
  }

  /** One turn of the admission loop, or its exit. */
  function AfterAdmitNext(p: Params, s: State): State
    requires s.loop.Admitting? && s.loop.next <= |s.loop.page|
  {
    var page := s.loop.page;
    if !SlotFree(p, s) then s.(loop := Deciding(false))
    else if s.loop.next < |page| then
      var row, t := page[s.loop.next], s.(loop := Admitting(s.loop.pageNo, page, s.loop.next + 1));
      if row.messageId in s.sched.inflight then t else Admit(t, row)
    else if |page| < p.cfg.maxInflight then s.(loop := Deciding(false))
    else if s.loop.pageNo + 1 < 4 && page != [] then s.(loop := Scanning(s.loop.pageNo + 1, page[|page| - 1].id))
    else s.(loop := Deciding(true))
  }

  /** The bytes of a refused batch; a refusal by row count comes before the batch exists. */
  function RefusedSize(store: Store, lim: Limits, req: Request): nat {
    var built := Build(req, NextSequence(store, req.boot));
    if |store.rows| >= lim.maxRows || built.None? then 0 else built.value.Size()
  }

  function Commit1(db: Db, req: Request, message: Message): Db {
    db.(store := Inserted(db.store, req, message), committed := db.committed[req.messageId := message])
  }

  ghost function AfterEnqueueing(p: Params, s: State, req: Request, c: Commit): State {
    var v := Verdict(s.db.store, p.limits, req);
    if v.Err? then
      if v.error.Full?
      then s.(loop := FullSeen, sched := s.sched.(rejected := RefusedSize(s.db.store, p.limits, req)), ack := s.ack.(freed := false))
      else s.(loop := Failing(s))
    else
      match c
      case Commits => s.(db := Commit1(s.db, req, v.value), loop := Stored(NewRow(s.db.store, req, v.value)))
      case LostApplied => s.(db := Commit1(s.db, req, v.value), loop := Unknown(s, true))
      case LostDropped => s.(loop := Unknown(s, false))
      case Aborts => s.(loop := Failing(s))
  }

  function AfterCheck(p: Params, s: State, deadline: bool, fails: bool): Loop {
    if p.target == 0 || !s.sched.genDone then Select
    else if fails then Failing(s)
    else if s.db.store.PendingIds() == {} then Stopped(Completed)
    else if deadline then if s.cancelled then Stopped(Cancelled) else Stopped(BudgetExpired(|s.db.store.PendingIds()|))
    else Select
  }

  function AfterSyncVisit(s: State, m: MessageId, fails: bool): State
    requires s.loop.Syncing?
  {
    if fails then s.(loop := Failing(s))
    else s.(sched := if s.db.store.IsPending(m) then s.sched else s.sched.(inflight := s.sched.inflight - {m}),
            loop := Syncing(s.loop.rest - {m}))
  }

  ghost function AfterResult(p: Params, s: State, h: nat, clock: Time, draw: real): State
    requires h in s.pubs.Waiting()
  {
    var r := s.pubs.live[h];
    var t := s.(pubs := s.pubs.Drop(h), loop := if s.loop.Stopped? then s.loop else Top);
    if r.id in s.sched.inflight && s.sched.inflight[r.id].phase.Publishing? then
      var e := Resulted(p.cfg, s.sched.inflight[r.id], r.progress.ok, Answered(s, r.id, clock, draw));
      t.(sched := s.sched.(inflight := s.sched.inflight[r.id := e]))
    else t
  }

  /** handleAdmission: one DeletePending transaction and what the worker makes of it. */
  function AfterAck(s: State, m: MessageId, c: Commit): State {
    var gone := s.db.store.IsPending(m) && Lands(c);
    var db := if gone then Db(AfterDelete(s.db.store, m, c), s.db.committed, s.db.delivered + {m}) else s.db;
    s.(db := db,
       ack := s.ack.(freed := s.ack.freed || gone,
                     worker := if !c.Commits? then Fatal(gone) else if gone then Deleted else s.ack.worker))
  }
}
