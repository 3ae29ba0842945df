/** Connection lifetimes and gated publishing (transport.go) as a step system.

    One supervisor goroutine opens lifetimes; Publish calls, the invocations they start,
    connection-lost callbacks and Stop calls run beside it.  Each atomic access to shared
    data is one action.  `mu` protects `current`; the `failed` flag is stored outside it,
    so a lifetime may fail between the check of `installCurrent` and its assignment:
    `Locked` is that window. */
module Transport {
  import opened Wrappers

  type Epoch = nat

  /** The flags of one lifetime; each only ever rises. */
  datatype Life = Life(subscribed: bool, failed: bool, closed: bool, woken: bool) {
    predicate Usable() { subscribed && !failed }
    predicate Admits() { !closed && !failed }
    predicate Upto(d: Life) { (subscribed ==> d.subscribed) && (failed ==> d.failed) && (closed ==> d.closed) && (woken ==> d.woken) }
  }

  /** Where the supervisor stands; epochs are those of the lifetime it works on. */
  datatype Pc =
    | Top
    | Connect
    | Dialing(e: Epoch)
    | Handshaking(e: Epoch)
    | MarkSubscribed(e: Epoch)
    | Discard(e: Epoch)
    | DiscardClose(e: Epoch)
    | Install(e: Epoch)
    | Locked(e: Epoch)
    | Waiting(e: Epoch)
    | Clear(e: Epoch)
    | CloseMark(e: Epoch)
    | CloseSocket(e: Epoch)
    | WaitOps(e: Epoch)
    | GoStuck(e: Epoch)
    | Decide(e: Epoch)
    | Backoff
    | Exit

  /** Every other goroutine except the publish invocations themselves. */
  datatype Thread =
    // Publish, before and after it owns a slot, and once its invocation is started
    | Loaded(e: Epoch)
    | Queueing
    | Holding
    | Reloaded(e: Epoch)
    | Beginning(e: Epoch)
    | Running(e: Epoch)
    // failCurrent
    | FailMark(e: Epoch)
    | FailClose(e: Epoch)
    | FailClear(e: Epoch)
    | FailWake(e: Epoch)
    // onLost
    | LostMark(e: Epoch)
    | LostWake(e: Epoch)
    | LostClear(e: Epoch)
    // StopReconnect, and Stop when `final`
    | StopFlag(final: bool)
    | StopCancel(final: bool)
    | StopWait
    | StopTake
    | TornMark(e: Epoch)
    | TornClose(e: Epoch)
    | TornWait(e: Epoch)
    | TornStuck(e: Epoch)

  /** An invocation; `live` until finishOp, holding its slot until it is gone. */
  datatype Invocation = Invocation(e: Epoch, live: bool)

  /** Lifetimes, the current one, the supervisor and the shutdown flags.  `installed` is
      history: the epochs made current, in order. */
  datatype Core = Core(
    lives: map<Epoch, Life>, current: Option<Epoch>, latest: Epoch, installed: seq<Epoch>,
    pc: Pc, stopped: bool, cancelled: bool, stuck: bool)
  {
    predicate Ready() { !stuck && current.Some? && current.value in lives && lives[current.value].Usable() }
    predicate MuFree() { !pc.Locked? }

    function At(pc: Pc): Core { this.(pc := pc) }
    function Failed(e: Epoch): Core requires e in lives { this.(lives := lives[e := lives[e].(failed := true)]) }
    function Closed(e: Epoch): Core requires e in lives { this.(lives := lives[e := lives[e].(closed := true)]) }
    function Woken(e: Epoch): Core requires e in lives { this.(lives := lives[e := lives[e].(woken := true)]) }
    function Subscribed(e: Epoch): Core requires e in lives { this.(lives := lives[e := lives[e].(subscribed := true)]) }
    /** A fresh lifetime under the next epoch. */
    function Opened(): Core { this.(lives := lives[latest + 1 := Life(false, false, false, false)], latest := latest + 1) }
    /** clearCurrent: only the lifetime asked for is cleared. */
    function Cleared(e: Epoch): Core { this.(current := if current == Some(e) then None else current) }
  }

  datatype State = State(core: Core, threads: map<nat, Thread>, ops: map<nat, Invocation>, nextOp: nat, slots: nat) {
    function Go(t: nat, th: Thread): State { this.(threads := threads[t := th]) }
    function End(t: nat): State { this.(threads := threads - {t}) }
    function Free(): State { this.(slots := if slots == 0 then 0 else slots - 1) }
    predicate Idle(e: Epoch) { forall o :: o in ops && ops[o].e == e ==> !ops[o].live }
  }

  datatype Action =
    | Supervise(yes: bool)
    | Step(t: nat, yes: bool)
    | PublishCall(t: nat)
    | ConnectionLost(t: nat, e: Epoch)
    | StopCall(t: nat, final: bool)
    | FinishOp(o: nat)
    | ReleaseSlot(o: nat)

  /** `yes` picks the branch where the source waits on several things at once, or where the
      network decides: the handshake, the wake-up, the drained invocations, the timer. */
  predicate SupervisorEnabled(s: State, yes: bool) {
    var c := s.core;
    match c.pc
    case Waiting(e) => e in c.lives && if yes then c.lives[e].woken else c.cancelled || c.stopped
    case WaitOps(e) => yes ==> s.Idle(e)
    case Backoff => !yes ==> c.cancelled || c.stopped
    case Top => true
    case Connect => true
    case Clear(_) => true
    case GoStuck(_) => true
    case Decide(_) => true
    case Exit => false
    case _ => c.pc.e in c.lives
  }

  /** From install to the end of its teardown. */
  predicate Serving(pc: Pc) {
    pc.Waiting? || pc.Clear? || pc.CloseMark? || pc.CloseSocket? || pc.WaitOps? || pc.GoStuck? || pc.Decide?
  }

  /** connectOnce and installCurrent, with the closeLifetime of a lifetime that failed.  A
      cancelled context stops the dial, so no socket opens after it; the waits for CONNACK
      and SUBACK prefer a completed token to the context, so a handshake whose socket was
      open may still succeed. */
  function OpenNext(s: State, yes: bool): Core
    requires SupervisorEnabled(s, yes) && !Serving(s.core.pc)
  {
    var c := s.core;
    match c.pc
    case Top => c.At(if c.cancelled || c.stopped || c.stuck then Exit else Connect)
    case Connect => c.Opened().At(Dialing(c.latest + 1))
    case Dialing(e) => c.At(if yes && !c.cancelled && !c.lives[e].closed then Handshaking(e) else Discard(e))
    case Handshaking(e) => c.At(if yes && !c.lives[e].failed then MarkSubscribed(e) else Discard(e))
    case MarkSubscribed(e) => c.Subscribed(e).At(Install(e))
    case Discard(e) => c.Failed(e).At(DiscardClose(e))
    case DiscardClose(e) => c.Closed(e).At(Backoff)
    case Install(e) => c.At(if c.lives[e].Usable() then Locked(e) else Discard(e))
    case Locked(e) => c.(current := Some(e), installed := c.installed + [e], pc := Waiting(e))
    case Backoff => c.At(if yes then Top else Exit)
  }

  /** The wait for a loss or a shutdown, clearCurrent and closeLifetime. */
  function ServeNext(s: State, yes: bool): Core
    requires SupervisorEnabled(s, yes) && Serving(s.core.pc)
  {
    var c := s.core;
    match c.pc
    case Waiting(e) => c.At(if yes then Clear(e) else Exit)
    case Clear(e) => c.Cleared(e).At(CloseMark(e))
    case CloseMark(e) => c.Failed(e).At(CloseSocket(e))
    case CloseSocket(e) => c.Closed(e).At(WaitOps(e))
    case WaitOps(e) => c.At(if yes then Decide(e) else GoStuck(e))
    case GoStuck(_) => c.(stuck := true, pc := Exit)
    case Decide(_) => c.At(if c.cancelled || c.stopped then Exit else Backoff)
  }

  function SupervisorNext(s: State, yes: bool): Core
    requires SupervisorEnabled(s, yes)
  {
    if Serving(s.core.pc) then ServeNext(s, yes) else OpenNext(s, yes)
  }

  /** The epoch whose flags a thread is about to touch must exist; `mu` must be free where
      the step takes it; a slot must be free to be taken. */
  predicate StepEnabled(max: nat, s: State, t: nat, yes: bool) {
    t in s.threads &&
    match s.threads[t]
    case Queueing => yes ==> s.slots < max
    case Holding => s.core.MuFree()
    case Running(_) => true
    case FailClear(_) => s.core.MuFree()
    case LostClear(_) => s.core.MuFree()
    case StopFlag(_) => s.core.MuFree()
    case StopCancel(_) => true
    case StopWait => s.core.MuFree() && (yes ==> s.core.pc.Exit?)
    case StopTake => s.core.MuFree()
    case TornWait(e) => yes ==> s.Idle(e)
    case TornStuck(_) => true
    case th => th.e in s.core.lives
  }

  predicate Breaking(th: Thread) {
    th.FailMark? || th.FailClose? || th.FailClear? || th.FailWake? || th.LostMark? || th.LostWake? || th.LostClear?
  }
  predicate Stopping(th: Thread) {
    th.StopFlag? || th.StopCancel? || th.StopWait? || th.StopTake? || th.TornMark? || th.TornClose? || th.TornWait? || th.TornStuck?
  }

  /** Publish: look, wait for a slot, look again, begin. */
  function PublishNext(max: nat, s: State, t: nat, yes: bool): State
    requires StepEnabled(max, s, t, yes) && !Breaking(s.threads[t]) && !Stopping(s.threads[t])
  {
    var c := s.core;
    match s.threads[t]
    case Loaded(e) => if c.lives[e].Usable() then s.Go(t, Queueing) else s.End(t)
    case Queueing => if yes then s.Go(t, Holding).(slots := s.slots + 1) else s.End(t)
    case Holding => if c.current.Some? then s.Go(t, Reloaded(c.current.value)) else s.End(t).Free()
    case Reloaded(e) => if c.lives[e].Usable() then s.Go(t, Beginning(e)) else s.End(t).Free()
    case Beginning(e) =>
      if c.lives[e].Admits()
      then s.Go(t, Running(e)).(ops := s.ops[s.nextOp := Invocation(e, true)], nextOp := s.nextOp + 1)
      else s.End(t).Free()
    case Running(e) => if yes then s.End(t) else s.Go(t, FailMark(e))
  }

  /** failCurrent and onLost, each in its own order. */
  function BreakNext(max: nat, s: State, t: nat, yes: bool): State
    requires StepEnabled(max, s, t, yes) && Breaking(s.threads[t])
  {
    var c := s.core;
    match s.threads[t]
    case FailMark(e) => s.Go(t, FailClose(e)).(core := c.Failed(e))
    case FailClose(e) => s.Go(t, FailClear(e)).(core := c.Closed(e))
    case FailClear(e) => s.Go(t, FailWake(e)).(core := c.Cleared(e))
    case FailWake(e) => s.End(t).(core := c.Woken(e))
    case LostMark(e) => s.Go(t, LostWake(e)).(core := c.Failed(e))
    case LostWake(e) => s.Go(t, LostClear(e)).(core := c.Woken(e))
    case LostClear(e) => s.End(t).(core := c.Cleared(e))
  }

  /** StopReconnect, then the rest of Stop. */
  function StopNext(max: nat, s: State, t: nat, yes: bool): State
    requires StepEnabled(max, s, t, yes) && Stopping(s.threads[t])
  {
    var c := s.core;
    match s.threads[t]
    case StopFlag(final) => s.Go(t, StopCancel(final)).(core := c.(stopped := true))
    case StopCancel(final) => (if final then s.Go(t, StopWait) else s.End(t)).(core := c.(cancelled := true))
    case StopWait => s.Go(t, StopTake)
    case StopTake => if c.current.Some? then s.Go(t, TornMark(c.current.value)).(core := c.Cleared(c.current.value)) else s.End(t)
    case TornMark(e) => s.Go(t, TornClose(e)).(core := c.Failed(e))
    case TornClose(e) => (if yes then s.Go(t, TornWait(e)) else s.End(t)).(core := c.Closed(e))
    case TornWait(e) => if yes then s.End(t) else s.Go(t, TornStuck(e))
    case TornStuck(_) => s.End(t).(core := c.(stuck := true))
  }

  function StepNext(max: nat, s: State, t: nat, yes: bool): State
    requires StepEnabled(max, s, t, yes)
  {
    if Breaking(s.threads[t]) then BreakNext(max, s, t, yes)
    else if Stopping(s.threads[t]) then StopNext(max, s, t, yes)
    else PublishNext(max, s, t, yes)
  }

  predicate Enabled(max: nat, s: State, a: Action) {
    match a
    case Supervise(yes) => SupervisorEnabled(s, yes)
    case Step(t, yes) => StepEnabled(max, s, t, yes)
    case PublishCall(t) => t !in s.threads && s.core.MuFree() && s.core.current.Some?
    case ConnectionLost(t, e) => t !in s.threads && e in s.core.lives
    case StopCall(t, _) => t !in s.threads
    case FinishOp(o) => o in s.ops && s.ops[o].live
    case ReleaseSlot(o) => o in s.ops && !s.ops[o].live
  }

  function Next(max: nat, s: State, a: Action): State
    requires Enabled(max, s, a)
  {
    match a
    case Supervise(yes) => s.(core := SupervisorNext(s, yes))
    case Step(t, yes) => StepNext(max, s, t, yes)
    case PublishCall(t) => s.Go(t, Loaded(s.core.current.value))
    case ConnectionLost(t, e) => s.Go(t, LostMark(e))
    case StopCall(t, final) => s.Go(t, StopFlag(final))
    case FinishOp(o) => s.(ops := s.ops[o := s.ops[o].(live := false)])
    case ReleaseSlot(o) => s.(ops := s.ops - {o}).Free()
  }

  /** A transport on which Start was just called. */
  function Begin(): State {
    State(Core(map[], None, 0, [], Top, false, false, false), map[], map[], 0, 0)
  }

  ghost predicate Path(max: nat, s: State, actions: seq<Action>, t: State)
    decreases |actions|
  {
    if actions == [] then s == t
    else Enabled(max, s, actions[0]) && Path(max, Next(max, s, actions[0]), actions[1..], t)
  }

  ghost predicate Reaches(max: nat, actions: seq<Action>, t: State) { Path(max, Begin(), actions, t) }
  ghost predicate Reachable(max: nat, t: State) { exists actions :: Reaches(max, actions, t) }
}
