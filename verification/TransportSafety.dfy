/** What every interleaving of the transport keeps. */
module TransportSafety {
  import opened Wrappers
  import opened Transport

  /** Before the lifetime under construction is made current. */
  predicate Opening(pc: Pc) {
    pc.Dialing? || pc.Handshaking? || pc.MarkSubscribed? || pc.Discard? || pc.DiscardClose? || pc.Install? || pc.Locked?
  }
  /** Once shut down from here, the supervisor can only return. */
  predicate Ending(pc: Pc) { Serving(pc) || pc.Exit? }

  /** The lifetimes: epochs 1 to `latest`; the supervisor works on the latest; no other is
      open; installed epochs increase and the current one is the last of them. */
  ghost predicate Shape(c: Core) {
    Numbered(c) && OneOpen(c) && OnLatest(c)
  }

  ghost predicate OnLatest(c: Core) { Opening(c.pc) || Serving(c.pc) ==> c.pc.e == c.latest && c.latest >= 1 }

  ghost predicate Numbered(c: Core) { forall e: Epoch :: e in c.lives <==> 1 <= e <= c.latest }

  ghost predicate OneOpen(c: Core) { OpenIsLatest(c) && ClosedBetween(c) && InstallSubscribed(c) }

  ghost predicate OpenIsLatest(c: Core) { forall e :: e in c.lives && !c.lives[e].closed ==> e == c.latest }

  /** Between lifetimes, and once a teardown has closed its socket, none is open. */
  ghost predicate ClosedBetween(c: Core) {
    c.pc.Top? || c.pc.Connect? || c.pc.Backoff? || c.pc.WaitOps? || c.pc.GoStuck? || c.pc.Decide?
    ==> c.latest in c.lives ==> c.lives[c.latest].closed
  }

  ghost predicate InstallSubscribed(c: Core) {
    c.pc.Install? || c.pc.Locked? ==> c.pc.e in c.lives && c.lives[c.pc.e].subscribed
  }

  ghost predicate Increasing(q: seq<Epoch>) { forall i, j :: 0 <= i < j < |q| ==> q[i] < q[j] }

  ghost predicate Known(c: Core) { forall e :: e in c.installed ==> 1 <= e <= c.latest }

  ghost predicate Placed(c: Core) {
    && (Opening(c.pc) ==> c.latest !in c.installed)
    && (Serving(c.pc) ==> c.latest in c.installed)
    && (c.current.Some? ==>
        c.current.value == c.latest && c.latest in c.installed && (c.pc.Waiting? || c.pc.Clear? || c.pc.Exit?))
  }

  ghost predicate Installs(c: Core) { Increasing(c.installed) && Known(c) && Placed(c) }

  /** Marked its lifetime failed and has not yet cleared it. */
  predicate BeforeClear(th: Thread, e: Epoch) {
    th == LostWake(e) || th == LostClear(e) || th == FailClose(e) || th == FailClear(e)
  }

  /** A failed lifetime is current, or about to be, only while a goroutine that failed it
      is still before its clearCurrent. */
  ghost predicate FailureOwned(s: State) {
    forall e: Epoch :: (s.core.current == Some(e) || s.core.pc == Locked(e)) && e in s.core.lives && s.core.lives[e].failed ==>
      exists t :: t in s.threads && BeforeClear(s.threads[t], e)
  }

  predicate WantsInstalled(th: Thread) {
    th.Loaded? || th.Reloaded? || th.Beginning? || th.Running? || th.FailMark? || th.FailClose? || th.FailClear? || th.FailWake? || Tearing(th)
  }
  predicate Tearing(th: Thread) { th.TornMark? || th.TornClose? || th.TornWait? || th.TornStuck? }

  ghost predicate ThreadOk(c: Core, th: Thread) {
    && (WantsInstalled(th) ==> th.e in c.installed)
    && (th.LostMark? || th.LostWake? || th.LostClear? ==> 1 <= th.e <= c.latest)
    && (th.StopCancel? ==> c.stopped)
    && (th.StopWait? || th.StopTake? ==> c.stopped && c.cancelled)
    && (Tearing(th) ==> c.stopped && c.cancelled && Ending(c.pc) && c.current != Some(th.e))
  }

  ghost predicate Threads(s: State) { forall t :: t in s.threads ==> ThreadOk(s.core, s.threads[t]) }

  /** A running invocation belongs to the latest lifetime, and that lifetime is serving. */
  ghost predicate OpOk(c: Core, op: Invocation) {
    && op.e in c.installed
    && (op.live ==> op.e == c.latest && Ending(c.pc) && !c.pc.Decide?)
  }

  ghost predicate Ops(s: State) {
    forall o :: o in s.ops ==> o < s.nextOp && OpOk(s.core, s.ops[o])
  }

  predicate HoldsSlot(th: Thread) { th.Holding? || th.Reloaded? || th.Beginning? }
  function Holders(threads: map<nat, Thread>): set<nat> { set t | t in threads && HoldsSlot(threads[t]) }

  /** Every taken slot has one owner: a call that has not started its invocation, or an
      invocation that has not returned. */
  ghost predicate Slots(max: nat, s: State) { s.slots == |Holders(s.threads)| + |s.ops| <= max }

  ghost predicate StuckEnds(c: Core) { c.stuck ==> c.pc.Exit? || (c.stopped && c.cancelled && Ending(c.pc)) }

  ghost predicate Inv(max: nat, s: State) {
    Shape(s.core) && Installs(s.core) && FailureOwned(s) && Threads(s) && Ops(s) && Slots(max, s) && StuckEnds(s.core)
  }

  /** All that goroutines other than the supervisor do to the shared part: flags rise and
      the current lifetime may be withdrawn. */
  ghost predicate Rises(c: Core, d: Core) {
    && d.lives.Keys == c.lives.Keys
    && (forall e :: e in c.lives ==> c.lives[e].Upto(d.lives[e]))
    && (d.current == c.current || d.current.None?)
    && d.latest == c.latest && d.installed == c.installed && d.pc == c.pc
    && (c.stopped ==> d.stopped) && (c.cancelled ==> d.cancelled)
  }

  lemma RaiseOne(c: Core, e: Epoch)
    requires e in c.lives
    ensures Rises(c, c.Failed(e)) && Rises(c, c.Closed(e)) && Rises(c, c.Woken(e)) && Rises(c, c.Cleared(e))
  {}

  lemma StepRaises(max: nat, s: State, t: nat, yes: bool)
    requires StepEnabled(max, s, t, yes)
    ensures Rises(s.core, StepNext(max, s, t, yes).core)
  {
    var c, th := s.core, s.threads[t];
    if Breaking(th) {
      BreakRaises(max, s, t, yes);
    } else if Stopping(th) {
      StopRaises(max, s, t, yes);
    } else {
      hide Rises;
      OtherRises(c, PublishNext(max, s, t, yes).core);
    }
  }

  lemma BreakRaises(max: nat, s: State, t: nat, yes: bool)
    requires StepEnabled(max, s, t, yes) && Breaking(s.threads[t])
    ensures Rises(s.core, BreakNext(max, s, t, yes).core)
  {
    hide Rises;
    if s.threads[t].FailClear? || s.threads[t].LostClear? {
      OtherRises(s.core, BreakNext(max, s, t, yes).core);
    } else {
      RaiseOne(s.core, s.threads[t].e);
    }
  }

  lemma StopRaises(max: nat, s: State, t: nat, yes: bool)
    requires StepEnabled(max, s, t, yes) && Stopping(s.threads[t])
    ensures Rises(s.core, StopNext(max, s, t, yes).core)
  {
    hide Rises;
    if s.threads[t].TornMark? || s.threads[t].TornClose? {
      RaiseOne(s.core, s.threads[t].e);
    } else {
      OtherRises(s.core, StopNext(max, s, t, yes).core);
    }
  }

  lemma OtherRises(c: Core, d: Core)
    requires d.(current := c.current, stopped := c.stopped, cancelled := c.cancelled, stuck := c.stuck) == c
    requires (d.current == c.current || d.current.None?) && (c.stopped ==> d.stopped) && (c.cancelled ==> d.cancelled)
    ensures Rises(c, d)
  {}

  lemma OthersRaise(max: nat, s: State, a: Action)
    requires !a.Supervise? && Enabled(max, s, a)
    ensures Rises(s.core, Next(max, s, a).core)
  {
    hide StepNext;
    if a.Step? { StepRaises(max, s, a.t, a.yes); }
  }

  lemma RisesKeeps(c: Core, d: Core)
    requires Shape(c) && Installs(c) && Rises(c, d)
    ensures Shape(d) && Installs(d)
  {}

  lemma RisesKeepsThread(c: Core, d: Core, th: Thread)
    requires Rises(c, d) && ThreadOk(c, th)
    ensures ThreadOk(d, th)
  {}

  lemma OpenKeepsLatestOpen(s: State, yes: bool)
    requires Shape(s.core) && SupervisorEnabled(s, yes) && !Serving(s.core.pc)
    ensures OpenIsLatest(OpenNext(s, yes))
  {
    hide InstallSubscribed;
    if s.core.pc.Connect? {
      assert OpenNext(s, yes).latest == s.core.latest + 1;
    } else {
      hide ClosedBetween, Numbered;
    }
  }

  lemma OpenKeepsClosedBetween(s: State, yes: bool)
    requires ClosedBetween(s.core) && OnLatest(s.core) && SupervisorEnabled(s, yes) && !Serving(s.core.pc)
    ensures ClosedBetween(OpenNext(s, yes))
  {}

  lemma OpenKeepsInstallSubscribed(s: State, yes: bool)
    requires InstallSubscribed(s.core) && OnLatest(s.core) && SupervisorEnabled(s, yes) && !Serving(s.core.pc)
    ensures InstallSubscribed(OpenNext(s, yes))
  {}

  lemma OpenKeepsOneOpen(s: State, yes: bool)
    requires Shape(s.core) && SupervisorEnabled(s, yes) && !Serving(s.core.pc)
    ensures OneOpen(OpenNext(s, yes))
  {
    hide OpenNext, Numbered, OnLatest, OpenIsLatest, ClosedBetween, InstallSubscribed;
    OpenKeepsLatestOpen(s, yes);
    OpenKeepsClosedBetween(s, yes);
    OpenKeepsInstallSubscribed(s, yes);
  }

  lemma OpenKeepsNumbered(s: State, yes: bool)
    requires Numbered(s.core) && SupervisorEnabled(s, yes) && !Serving(s.core.pc)
    ensures Numbered(OpenNext(s, yes))
  {
    var c, d := s.core, OpenNext(s, yes);
    if !c.pc.Connect? {
      assert c.pc.MarkSubscribed? || c.pc.Discard? || c.pc.DiscardClose? ==> d.lives == c.lives[c.pc.e := d.lives[c.pc.e]];
      assert d.lives.Keys == c.lives.Keys;
    }
  }

  lemma OpenKeepsLatest(s: State, yes: bool)
    requires OnLatest(s.core) && SupervisorEnabled(s, yes) && !Serving(s.core.pc)
    ensures OnLatest(OpenNext(s, yes))
  {}

  lemma OpenKeepsShape(s: State, yes: bool)
    requires Shape(s.core) && SupervisorEnabled(s, yes) && !Serving(s.core.pc)
    ensures Shape(OpenNext(s, yes))
  {
    hide OneOpen, Numbered, OnLatest, OpenNext;
    OpenKeepsOneOpen(s, yes);
    OpenKeepsNumbered(s, yes);
    OpenKeepsLatest(s, yes);
  }

  lemma ServeKeepsShape(s: State, yes: bool)
    requires Shape(s.core) && SupervisorEnabled(s, yes) && Serving(s.core.pc)
    ensures Shape(ServeNext(s, yes))
  {}

  lemma OpenKeepsPlaced(s: State, yes: bool)
    requires Shape(s.core) && Known(s.core) && Placed(s.core) && SupervisorEnabled(s, yes) && !Serving(s.core.pc)
    ensures Placed(OpenNext(s, yes))
  {
    hide Numbered, OneOpen;
    var c, d := s.core, OpenNext(s, yes);
    if !c.pc.Connect? && !c.pc.Locked? {
      assert d.installed == c.installed && d.latest == c.latest && d.current == c.current;
    }
  }

  lemma OpenKeepsInstalls(s: State, yes: bool)
    requires Shape(s.core) && Installs(s.core) && SupervisorEnabled(s, yes) && !Serving(s.core.pc)
    ensures Installs(OpenNext(s, yes))
  {
    hide Increasing;
    OpenKeepsPlaced(s, yes);
    if s.core.pc.Locked? {
      IncreasingAppend(s.core.installed, s.core.latest);
    } else {
      hide Placed, Numbered, OneOpen;
      assert OpenNext(s, yes).installed == s.core.installed && OpenNext(s, yes).latest >= s.core.latest;
    }
  }

  lemma ServeKeepsInstalls(s: State, yes: bool)
    requires Shape(s.core) && Installs(s.core) && SupervisorEnabled(s, yes) && Serving(s.core.pc)
    ensures Installs(ServeNext(s, yes))
  {
    hide Increasing;
    assert ServeNext(s, yes).installed == s.core.installed;
  }

  lemma SupervisorKeepsShape(s: State, yes: bool)
    requires Shape(s.core) && Installs(s.core) && SupervisorEnabled(s, yes)
    ensures Shape(SupervisorNext(s, yes)) && Installs(SupervisorNext(s, yes))
  {
    hide OpenNext, ServeNext, Shape, Installs;
    if Serving(s.core.pc) {
      ServeKeepsShape(s, yes);
      ServeKeepsInstalls(s, yes);
    } else {
      OpenKeepsShape(s, yes);
      OpenKeepsInstalls(s, yes);
    }
  }

  lemma IncreasingAppend(q: seq<Epoch>, e: Epoch)
    requires Increasing(q) && (forall x :: x in q ==> x <= e) && e !in q
    ensures Increasing(q + [e])
  {
    forall i | 0 <= i < |q| ensures q[i] < e { assert q[i] in q; }
  }

  lemma SupervisorKeepsThread(s: State, yes: bool, th: Thread)
    requires Shape(s.core) && Installs(s.core) && SupervisorEnabled(s, yes) && ThreadOk(s.core, th)
    ensures ThreadOk(SupervisorNext(s, yes), th)
  {}

  lemma SupervisorKeepsOp(s: State, yes: bool, o: nat)
    requires Shape(s.core) && Installs(s.core) && SupervisorEnabled(s, yes) && o in s.ops && OpOk(s.core, s.ops[o])
    ensures OpOk(SupervisorNext(s, yes), s.ops[o])
  {}

  lemma KeepShape(max: nat, s: State, a: Action)
    requires Inv(max, s) && Enabled(max, s, a)
    ensures Shape(Next(max, s, a).core) && Installs(Next(max, s, a).core)
  {

    hide StepNext, SupervisorNext;
    if a.Supervise? {
      SupervisorKeepsShape(s, a.yes);
    } else {
      OthersRaise(max, s, a);
      RisesKeeps(s.core, Next(max, s, a).core);
    }
  }

  lemma KeepStuckEnds(max: nat, s: State, a: Action)
    requires Inv(max, s) && Enabled(max, s, a)
    ensures StuckEnds(Next(max, s, a).core)
  {
    hide FailureOwned, Slots, Ops, Shape, Installs;
    if a.Supervise? {
    } else {
      OthersRaise(max, s, a);
      OthersStick(max, s, a);
      if a.Step? { assert ThreadOk(s.core, s.threads[a.t]); }
      hide StepNext;
    }
  }

  lemma OthersStick(max: nat, s: State, a: Action)
    requires !a.Supervise? && Enabled(max, s, a)
    ensures Next(max, s, a).core.stuck ==> s.core.stuck || (a.Step? && s.threads[a.t].TornStuck?)
  {}

  /** The goroutine that moved meets its own obligations. */
  lemma MovedThread(max: nat, s: State, t: nat, yes: bool)
    requires Shape(s.core) && Installs(s.core) && StepEnabled(max, s, t, yes) && ThreadOk(s.core, s.threads[t])
    ensures var n := StepNext(max, s, t, yes); t in n.threads ==> ThreadOk(n.core, n.threads[t])
  {
    hide BreakNext, StopNext, PublishNext, ThreadOk, Shape, Installs;
    if Breaking(s.threads[t]) {
      MovedBreaker(max, s, t, yes);
    } else if Stopping(s.threads[t]) {
      MovedStop(max, s, t, yes);
    } else {
      MovedPublish(max, s, t, yes);
    }
  }

  lemma MovedBreaker(max: nat, s: State, t: nat, yes: bool)
    requires StepEnabled(max, s, t, yes) && ThreadOk(s.core, s.threads[t]) && Breaking(s.threads[t])
    ensures var n := BreakNext(max, s, t, yes); t in n.threads ==> ThreadOk(n.core, n.threads[t])
  {}

  lemma MovedStop(max: nat, s: State, t: nat, yes: bool)
    requires Installs(s.core) && StepEnabled(max, s, t, yes) && ThreadOk(s.core, s.threads[t]) && Stopping(s.threads[t])
    ensures var n := StopNext(max, s, t, yes); t in n.threads ==> ThreadOk(n.core, n.threads[t])
  {}

  lemma MovedPublish(max: nat, s: State, t: nat, yes: bool)
    requires Installs(s.core) && StepEnabled(max, s, t, yes) && ThreadOk(s.core, s.threads[t])
    requires !Breaking(s.threads[t]) && !Stopping(s.threads[t])
    ensures var n := PublishNext(max, s, t, yes); t in n.threads ==> ThreadOk(n.core, n.threads[t])
  {}

  lemma OneMoves(max: nat, s: State, t: nat, yes: bool)
    requires StepEnabled(max, s, t, yes)
    ensures StepNext(max, s, t, yes).threads - {t} == s.threads - {t}
  {
    var n := StepNext(max, s, t, yes);
    assert n.threads == if t in n.threads then s.threads[t := n.threads[t]] else s.threads - {t};
  }

  lemma KeepThreads(max: nat, s: State, a: Action)
    requires Inv(max, s) && Enabled(max, s, a)
    ensures Threads(Next(max, s, a))
  {
    hide FailureOwned, Slots, Ops, StepNext, SupervisorNext, ThreadOk, Rises;
    var s' := Next(max, s, a);
    forall t | t in s'.threads ensures ThreadOk(s'.core, s'.threads[t]) {
      if a.Supervise? {
        SupervisorKeepsThread(s, a.yes, s.threads[t]);
      } else {
        OthersRaise(max, s, a);
        if a.Step? { MovedThread(max, s, a.t, a.yes); OneMoves(max, s, a.t, a.yes); }
        if a.Step? && a.t != t {
          assert t in s'.threads - {a.t} && s'.threads[t] == (s'.threads - {a.t})[t];
        }
        if t in s.threads && s'.threads[t] == s.threads[t] {
          RisesKeepsThread(s.core, s'.core, s.threads[t]);
        } else if !a.Step? {
          FreshThread(max, s, a);
        }
      }
    }
  }

  lemma FreshThread(max: nat, s: State, a: Action)
    requires Shape(s.core) && Installs(s.core) && Enabled(max, s, a) && (a.PublishCall? || a.ConnectionLost? || a.StopCall?)
    ensures a.t in Next(max, s, a).threads && ThreadOk(Next(max, s, a).core, Next(max, s, a).threads[a.t])
  {}

  /** An invocation starts only on a lifetime whose socket is open, which is the latest. */
  lemma StepOps(max: nat, s: State, t: nat, yes: bool)
    requires Shape(s.core) && Installs(s.core) && StepEnabled(max, s, t, yes) && ThreadOk(s.core, s.threads[t])
    ensures var n := StepNext(max, s, t, yes);
      (n.ops == s.ops && n.nextOp == s.nextOp)
      || (exists e :: n.ops == s.ops[s.nextOp := Invocation(e, true)] && n.nextOp == s.nextOp + 1 && OpOk(s.core, Invocation(e, true)))
  {
    var n := StepNext(max, s, t, yes);
    if s.threads[t].Beginning? {
      var e := s.threads[t].e;
      if s.core.lives[e].Admits() {
        assert OpOk(s.core, Invocation(e, true));
        assert n.ops == s.ops[s.nextOp := Invocation(e, true)];
      }
    }
  }

  lemma KeepOps(max: nat, s: State, a: Action)
    requires Inv(max, s) && Enabled(max, s, a)
    ensures Ops(Next(max, s, a))
  {
    hide FailureOwned, Slots, StepNext, SupervisorNext, Shape, Installs, OpOk, StuckEnds;
    var s' := Next(max, s, a);
    if a.Supervise? {
      forall o | o in s.ops ensures OpOk(s'.core, s.ops[o]) { SupervisorKeepsOp(s, a.yes, o); }
    } else {
      OthersRaise(max, s, a);
      if a.Step? { assert ThreadOk(s.core, s.threads[a.t]); StepOps(max, s, a.t, a.yes); }
      hide ThreadOk;
      forall o | o in s'.ops ensures o < s'.nextOp && OpOk(s'.core, s'.ops[o]) {
        SameOpOk(s.core, s'.core, s'.ops[o]);
        if a.FinishOp? && a.o == o { FinishedOpOk(s.core, s.ops[o]); }
      }
    }
  }

  lemma SameOpOk(c: Core, d: Core, op: Invocation)
    requires Rises(c, d)
    ensures OpOk(c, op) <==> OpOk(d, op)
  {}

  lemma FinishedOpOk(c: Core, op: Invocation)
    requires OpOk(c, op)
    ensures OpOk(c, op.(live := false))
  {}

  /** The lifetime is current, or is being made current. */
  predicate Exposed(c: Core, e: Epoch) { c.current == Some(e) || c.pc == Locked(e) }

  /** A step that fails an exposed lifetime leaves its own goroutine before the clear. */
  lemma StepFailsOwned(max: nat, s: State, t: nat, yes: bool, e: Epoch)
    requires StepEnabled(max, s, t, yes) && ThreadOk(s.core, s.threads[t])
    requires Exposed(s.core, e) && e in s.core.lives && !s.core.lives[e].failed
    requires e in StepNext(max, s, t, yes).core.lives && StepNext(max, s, t, yes).core.lives[e].failed
    ensures t in StepNext(max, s, t, yes).threads && BeforeClear(StepNext(max, s, t, yes).threads[t], e)
  {
    hide StopNext, BreakNext;
    if Breaking(s.threads[t]) {
      BreakFails(max, s, t, yes, e);
    } else if Stopping(s.threads[t]) {
      StopFails(max, s, t, yes, e);
    }
  }

  lemma BreakFails(max: nat, s: State, t: nat, yes: bool, e: Epoch)
    requires StepEnabled(max, s, t, yes) && Breaking(s.threads[t]) && e in s.core.lives && !s.core.lives[e].failed
    requires e in BreakNext(max, s, t, yes).core.lives && BreakNext(max, s, t, yes).core.lives[e].failed
    ensures t in BreakNext(max, s, t, yes).threads && BeforeClear(BreakNext(max, s, t, yes).threads[t], e)
  {}

  lemma StopFails(max: nat, s: State, t: nat, yes: bool, e: Epoch)
    requires StepEnabled(max, s, t, yes) && Stopping(s.threads[t]) && e in s.core.lives && !s.core.lives[e].failed
    requires e in StopNext(max, s, t, yes).core.lives && StopNext(max, s, t, yes).core.lives[e].failed
    ensures s.threads[t] == TornMark(e)
  {}

  /** A goroutine before its clear stays so, or the lifetime is no longer exposed. */
  lemma StepClears(max: nat, s: State, t: nat, yes: bool, e: Epoch)
    requires StepEnabled(max, s, t, yes) && BeforeClear(s.threads[t], e)
    ensures var n := StepNext(max, s, t, yes); Exposed(n.core, e) ==> t in n.threads && BeforeClear(n.threads[t], e)
  {}

  ghost predicate Owned(s: State, e: Epoch) { exists t :: t in s.threads && BeforeClear(s.threads[t], e) }

  lemma StepKeepsOwned(max: nat, s: State, t: nat, yes: bool, e: Epoch)
    requires Installs(s.core) && FailureOwned(s) && Threads(s) && StepEnabled(max, s, t, yes)
    requires Exposed(StepNext(max, s, t, yes).core, e) && e in s.core.lives && StepNext(max, s, t, yes).core.lives.Keys == s.core.lives.Keys
    requires StepNext(max, s, t, yes).core.lives[e].failed && Rises(s.core, StepNext(max, s, t, yes).core)
    ensures Owned(StepNext(max, s, t, yes), e)
  {
    hide StepNext, Installs;
    var n := StepNext(max, s, t, yes);
    assert ThreadOk(s.core, s.threads[t]);
    OneMoves(max, s, t, yes);
    if s.core.lives[e].failed {
      var w :| w in s.threads && BeforeClear(s.threads[w], e);
      if w == t { StepClears(max, s, t, yes, e); }
      assert w != t ==> w in n.threads - {t} && n.threads[w] == (n.threads - {t})[w];
      assert BeforeClear(n.threads[w], e);
    } else {
      StepFailsOwned(max, s, t, yes, e);
    }
  }

  lemma OpenExposes(s: State, yes: bool, e: Epoch)
    requires OnLatest(s.core) && Placed(s.core) && Known(s.core) && SupervisorEnabled(s, yes) && !Serving(s.core.pc)
    requires Exposed(OpenNext(s, yes), e) && e in OpenNext(s, yes).lives && OpenNext(s, yes).lives[e].failed
    ensures Exposed(s.core, e) && e in s.core.lives && s.core.lives[e].failed
  {}

  lemma ServeExposes(s: State, yes: bool, e: Epoch)
    requires OnLatest(s.core) && Placed(s.core) && SupervisorEnabled(s, yes) && Serving(s.core.pc)
    requires Exposed(ServeNext(s, yes), e) && e in ServeNext(s, yes).lives && ServeNext(s, yes).lives[e].failed
    ensures Exposed(s.core, e) && e in s.core.lives && s.core.lives[e].failed
  {}

  lemma SupervisorExposes(s: State, yes: bool, e: Epoch)
    requires Shape(s.core) && Installs(s.core) && SupervisorEnabled(s, yes)
    requires Exposed(SupervisorNext(s, yes), e) && e in SupervisorNext(s, yes).lives && SupervisorNext(s, yes).lives[e].failed
    ensures Exposed(s.core, e) && e in s.core.lives && s.core.lives[e].failed
  {
    hide OpenNext, ServeNext, Numbered, OneOpen, OnLatest, Increasing, Known, Placed, Exposed;
    if Serving(s.core.pc) { ServeExposes(s, yes, e); } else { OpenExposes(s, yes, e); }
  }

  lemma KeepFailureOwned(max: nat, s: State, a: Action)
    requires Inv(max, s) && Enabled(max, s, a)
    ensures FailureOwned(Next(max, s, a))
  {
    hide Slots, Ops, StuckEnds, Shape, Installs, StepNext, SupervisorNext, ThreadOk;
    var s' := Next(max, s, a);
    forall e: Epoch | Exposed(s'.core, e) && e in s'.core.lives && s'.core.lives[e].failed ensures Owned(s', e) {
      if a.Supervise? {
        SupervisorExposes(s, a.yes, e);
      } else {
        OthersRaise(max, s, a);
        if a.Step? {
          StepKeepsOwned(max, s, a.t, a.yes, e);
        } else {
          assert s'.core == s.core;
          var t :| t in s.threads && BeforeClear(s.threads[t], e);
          assert BeforeClear(s'.threads[t], e);
        }
      }
    }
  }

  function One(b: bool): nat { if b then 1 else 0 }

  lemma CountHoldersLess(threads: map<nat, Thread>, t: nat)
    ensures |Holders(threads - {t})| == |Holders(threads)| - One(t in threads && HoldsSlot(threads[t]))
  {
    hide HoldsSlot;
    assert t in threads && HoldsSlot(threads[t]) <==> t in Holders(threads);
    assert Holders(threads - {t}) == Holders(threads) - {t};
  }

  lemma CountHolders(threads: map<nat, Thread>, t: nat, th: Thread)
    ensures |Holders(threads[t := th])| == |Holders(threads)| - One(t in threads && HoldsSlot(threads[t])) + One(HoldsSlot(th))
    ensures |Holders(threads - {t})| == |Holders(threads)| - One(t in threads && HoldsSlot(threads[t]))
  {
    hide HoldsSlot;
    CountHoldersLess(threads, t);
    var more, less := Holders(threads[t := th]), Holders(threads - {t});
    assert t !in less;
    assert more == if HoldsSlot(th) then less + {t} else less;
  }

  lemma CountOps(ops: map<nat, Invocation>, o: nat, op: Invocation)
    ensures |ops[o := op]| == |ops| + One(o !in ops)
    ensures |ops - {o}| == |ops| - One(o in ops)
  {
    assert ops[o := op].Keys == ops.Keys + {o} && (ops - {o}).Keys == ops.Keys - {o};
    assert |ops[o := op]| == |ops[o := op].Keys| && |ops - {o}| == |(ops - {o}).Keys| && |ops| == |ops.Keys|;
  }

  /** Whoever moves takes its slot, hands it to the invocation it starts, or gives it back. */
  lemma StepSlots(max: nat, s: State, t: nat, yes: bool)
    requires StepEnabled(max, s, t, yes) && Slots(max, s) && s.nextOp !in s.ops
    ensures Slots(max, StepNext(max, s, t, yes))
  {
    hide Holders;
    var n := StepNext(max, s, t, yes);
    if Breaking(s.threads[t]) {
      CountHolders(s.threads, t, FailMark(0));
      FreeOfSlots(max, s, t, yes);
    } else if Stopping(s.threads[t]) {
      CountHolders(s.threads, t, FailMark(0));
      FreeOfSlots(max, s, t, yes);
    } else {
      PublishSlots(max, s, t, yes);
    }
  }

  lemma FreeOfSlots(max: nat, s: State, t: nat, yes: bool)
    requires StepEnabled(max, s, t, yes) && (Breaking(s.threads[t]) || Stopping(s.threads[t]))
    ensures var n := StepNext(max, s, t, yes); n.slots == s.slots && n.ops == s.ops && |Holders(n.threads)| == |Holders(s.threads)|
  {
    hide Holders;
    var n := StepNext(max, s, t, yes);
    if t in n.threads {
      CountHolders(s.threads, t, n.threads[t]);
      assert n.threads == s.threads[t := n.threads[t]];
    } else {
      CountHolders(s.threads, t, FailMark(0));
      assert n.threads == s.threads - {t};
    }
  }

  lemma SlotsGo(max: nat, s: State, n: State, t: nat, th: Thread)
    requires Slots(max, s) && t in s.threads && n.threads == s.threads[t := th] && n.ops == s.ops
    requires n.slots == s.slots - One(HoldsSlot(s.threads[t])) + One(HoldsSlot(th)) <= max
    ensures Slots(max, n)
  {
    CountHolders(s.threads, t, th);
  }

  lemma SlotsEnd(max: nat, s: State, n: State, t: nat)
    requires Slots(max, s) && t in s.threads && n.threads == s.threads - {t} && n.ops == s.ops
    requires n == if HoldsSlot(s.threads[t]) then s.End(t).Free() else s.End(t)
    ensures Slots(max, n)
  {
    CountHolders(s.threads, t, Queueing);
  }

  /** The slot passes from the call to its invocation. */
  lemma SlotsBegin(max: nat, s: State, n: State, t: nat)
    requires Slots(max, s) && s.nextOp !in s.ops && t in s.threads && s.threads[t].Beginning? && n.slots == s.slots
    requires n.threads == s.threads[t := Running(s.threads[t].e)] && n.ops == s.ops[s.nextOp := Invocation(s.threads[t].e, true)]
    ensures Slots(max, n)
  {
    CountHolders(s.threads, t, Running(s.threads[t].e));
    CountOps(s.ops, s.nextOp, Invocation(s.threads[t].e, true));
  }

  lemma PublishSlots(max: nat, s: State, t: nat, yes: bool)
    requires StepEnabled(max, s, t, yes) && Slots(max, s) && s.nextOp !in s.ops && !Breaking(s.threads[t]) && !Stopping(s.threads[t])
    ensures Slots(max, PublishNext(max, s, t, yes))
  {
    assert s.slots <= max;
    hide Slots;
    var n := PublishNext(max, s, t, yes);
    if t !in n.threads {
      SlotsEnd(max, s, n, t);
    } else if s.threads[t].Beginning? {
      SlotsBegin(max, s, n, t);
    } else {
      SlotsGo(max, s, n, t, n.threads[t]);
    }
  }

  lemma FreshSlots(max: nat, s: State, t: nat, th: Thread)
    requires Slots(max, s) && t !in s.threads && !HoldsSlot(th)
    ensures Slots(max, s.Go(t, th))
  {
    hide Holders;
    CountHolders(s.threads, t, th);
  }

  lemma FinishSlots(max: nat, s: State, o: nat)
    requires Slots(max, s) && o in s.ops
    ensures Slots(max, s.(ops := s.ops[o := s.ops[o].(live := false)]))
    ensures Slots(max, s.(ops := s.ops - {o}).Free())
  {
    hide Holders;
    CountOps(s.ops, o, s.ops[o].(live := false));
  }

  lemma KeepSlots(max: nat, s: State, a: Action)
    requires Inv(max, s) && Enabled(max, s, a)
    ensures Slots(max, Next(max, s, a))
  {
    hide FailureOwned, Threads, StuckEnds, Shape, Installs, StepNext, SupervisorNext, OpOk, Slots;
    match a
    case Step(t, yes) => StepSlots(max, s, t, yes);
    case PublishCall(t) => FreshSlots(max, s, t, Loaded(s.core.current.value));
    case ConnectionLost(t, e) => FreshSlots(max, s, t, LostMark(e));
    case StopCall(t, final) => FreshSlots(max, s, t, StopFlag(final));
    case FinishOp(o) => FinishSlots(max, s, o);
    case ReleaseSlot(o) => FinishSlots(max, s, o);
    case Supervise(yes) => SameSlots(max, s, Next(max, s, a));
  }

  lemma SameSlots(max: nat, s: State, n: State)
    requires Slots(max, s) && n.threads == s.threads && n.ops == s.ops && n.slots == s.slots
    ensures Slots(max, n)
  {}

  lemma KeepInv(max: nat, s: State, a: Action)
    requires Inv(max, s) && Enabled(max, s, a)
    ensures Inv(max, Next(max, s, a))
  {
    hide Next, Enabled, Shape, Installs, FailureOwned, Threads, Ops, Slots, StuckEnds;
    KeepShape(max, s, a);
    KeepFailureOwned(max, s, a);
    KeepThreads(max, s, a);
    KeepOps(max, s, a);
    KeepSlots(max, s, a);
    KeepStuckEnds(max, s, a);
  }
}
