/** What a Publish does to its lifetime: it begins only on an open one, leaves it alone when
    confirmed, and takes it down when not. */
module TransportPublish {
  import opened Wrappers
  import opened Transport
  import opened TransportSafety
  import opened TransportTheorems
  import opened TransportRecovery

  // ---- no socket is closed before its lifetime is marked failed ----

  ghost predicate ClosedFailed(c: Core) { forall e :: e in c.lives && c.lives[e].closed ==> c.lives[e].failed }

  /** The supervisor and every goroutine mark before they close, and close before they go on. */
  ghost predicate PcMarked(c: Core) {
    && (c.pc.DiscardClose? || c.pc.CloseSocket? || c.pc.WaitOps? ==> c.pc.e in c.lives && c.lives[c.pc.e].failed)
    && (c.pc.WaitOps? ==> c.lives[c.pc.e].closed)
  }

  ghost predicate Marked(c: Core, th: Thread) {
    && (th.FailClose? || th.FailClear? || th.FailWake? || th.LostWake? || th.LostClear? || th.TornClose? || th.TornWait? || th.TornStuck?
        ==> th.e in c.lives && c.lives[th.e].failed)
    && (th.FailClear? || th.FailWake? || th.TornWait? || th.TornStuck? ==> c.lives[th.e].closed)
  }

  ghost predicate AllMarked(s: State) { forall t :: t in s.threads ==> Marked(s.core, s.threads[t]) }

  ghost predicate Orderly(s: State) { ClosedFailed(s.core) && PcMarked(s.core) && AllMarked(s) }

  lemma SupervisorOrderly(s: State, yes: bool)
    requires Shape(s.core) && ClosedFailed(s.core) && PcMarked(s.core) && SupervisorEnabled(s, yes)
    ensures ClosedFailed(SupervisorNext(s, yes)) && PcMarked(SupervisorNext(s, yes))
    ensures forall e :: e in s.core.lives ==> e in SupervisorNext(s, yes).lives && s.core.lives[e].Upto(SupervisorNext(s, yes).lives[e])
  {
    assert Numbered(s.core) && OnLatest(s.core);
    hide OpenNext, ServeNext, Shape, Numbered, OnLatest;
    if Serving(s.core.pc) { ServeOrderly(s, yes); } else { OpenOrderly(s, yes); }
    hide *;
  }

  ghost predicate Raised(c: Core, d: Core) { forall e :: e in c.lives ==> e in d.lives && c.lives[e].Upto(d.lives[e]) }

  lemma OpenOrderly(s: State, yes: bool)
    requires Numbered(s.core) && OnLatest(s.core) && ClosedFailed(s.core) && PcMarked(s.core) && SupervisorEnabled(s, yes) && !Serving(s.core.pc)
    ensures ClosedFailed(OpenNext(s, yes)) && PcMarked(OpenNext(s, yes)) && Raised(s.core, OpenNext(s, yes))
  {
    hide OpenNext, SupervisorEnabled;
    var c := s.core;
    OpenForms(s, yes);
    hide Shape, OneOpen, Serving;
    if c.pc.Connect? {
      hide OnLatest;
    } else if c.pc.MarkSubscribed? {
    } else if c.pc.Discard? {
    } else if c.pc.DiscardClose? {
    }
  }

  /** The supervisor's part of opening, seen from the flags. */
  lemma OpenForms(s: State, yes: bool)
    requires OnLatest(s.core) && SupervisorEnabled(s, yes) && !Serving(s.core.pc)
    ensures s.core.pc.Connect? ==> OpenNext(s, yes) == s.core.Opened().At(Dialing(s.core.latest + 1))
    ensures !s.core.pc.Connect? && !s.core.pc.MarkSubscribed? && !s.core.pc.Discard? && !s.core.pc.DiscardClose? ==>
      OpenNext(s, yes).lives == s.core.lives && !OpenNext(s, yes).pc.DiscardClose?
    ensures s.core.pc.MarkSubscribed? ==> s.core.pc.e in s.core.lives && OpenNext(s, yes).lives == s.core.Subscribed(s.core.pc.e).lives && OpenNext(s, yes).pc.Install?
    ensures s.core.pc.Discard? ==> s.core.pc.e in s.core.lives && OpenNext(s, yes).lives == s.core.Failed(s.core.pc.e).lives && OpenNext(s, yes).pc == DiscardClose(s.core.pc.e)
    ensures s.core.pc.DiscardClose? ==> s.core.pc.e in s.core.lives && OpenNext(s, yes).lives == s.core.Closed(s.core.pc.e).lives && OpenNext(s, yes).pc.Backoff?
    ensures !Serving(OpenNext(s, yes).pc) || OpenNext(s, yes).pc.Waiting?
  {}

  lemma ServeOrderly(s: State, yes: bool)
    requires ClosedFailed(s.core) && PcMarked(s.core) && SupervisorEnabled(s, yes) && Serving(s.core.pc)
    ensures ClosedFailed(ServeNext(s, yes)) && PcMarked(ServeNext(s, yes)) && Raised(s.core, ServeNext(s, yes))
  {}

  lemma StepMarks(max: nat, s: State, t: nat, yes: bool)
    requires StepEnabled(max, s, t, yes) && Marked(s.core, s.threads[t]) && ClosedFailed(s.core) && PcMarked(s.core)
    ensures ClosedFailed(StepNext(max, s, t, yes).core) && PcMarked(StepNext(max, s, t, yes).core)
    ensures var n := StepNext(max, s, t, yes); t in n.threads ==> Marked(n.core, n.threads[t])
  {
    assert t in s.threads;
    hide BreakNext, StopNext, PublishNext, StepEnabled, ClosedFailed, PcMarked, Marked;
    if Breaking(s.threads[t]) {
      BreakMarks(max, s, t, yes);
    } else if Stopping(s.threads[t]) {
      StopMarks(max, s, t, yes);
    } else {
      PublishMarks(max, s, t, yes);
    }
    hide *;
  }

  lemma BreakMarks(max: nat, s: State, t: nat, yes: bool)
    requires StepEnabled(max, s, t, yes) && Breaking(s.threads[t]) && Marked(s.core, s.threads[t]) && ClosedFailed(s.core) && PcMarked(s.core)
    ensures ClosedFailed(BreakNext(max, s, t, yes).core) && PcMarked(BreakNext(max, s, t, yes).core)
    ensures var n := BreakNext(max, s, t, yes); t in n.threads ==> Marked(n.core, n.threads[t])
  {}

  lemma StopMarks(max: nat, s: State, t: nat, yes: bool)
    requires StepEnabled(max, s, t, yes) && Stopping(s.threads[t]) && Marked(s.core, s.threads[t]) && ClosedFailed(s.core) && PcMarked(s.core)
    ensures ClosedFailed(StopNext(max, s, t, yes).core) && PcMarked(StopNext(max, s, t, yes).core)
    ensures var n := StopNext(max, s, t, yes); t in n.threads ==> Marked(n.core, n.threads[t])
  {}

  lemma PublishMarks(max: nat, s: State, t: nat, yes: bool)
    requires StepEnabled(max, s, t, yes) && !Breaking(s.threads[t]) && !Stopping(s.threads[t])
    ensures PublishNext(max, s, t, yes).core == s.core
    ensures var n := PublishNext(max, s, t, yes); t in n.threads ==> Marked(n.core, n.threads[t])
  {}

  lemma MarkedRises(c: Core, d: Core, th: Thread)
    requires Marked(c, th) && forall e :: e in c.lives ==> e in d.lives && c.lives[e].Upto(d.lives[e])
    ensures Marked(d, th)
  {}

  lemma KeepOrderly(max: nat, s: State, a: Action)
    requires Shape(s.core) && Orderly(s) && Enabled(max, s, a)
    ensures Orderly(Next(max, s, a))
  {
    var n := Next(max, s, a);
    hide Shape, StepNext, SupervisorNext, SupervisorEnabled, StepEnabled, ClosedFailed, PcMarked, Marked;
    match a
    case Supervise(yes) =>
      SupervisorOrderly(s, yes);
      forall t | t in n.threads ensures Marked(n.core, n.threads[t]) { MarkedRises(s.core, n.core, s.threads[t]); }
    case Step(t, yes) => StepKeepsOrderly(max, s, t, yes);
    case PublishCall(t) => FreshMarked(max, s, a);
    case ConnectionLost(t, e) => FreshMarked(max, s, a);
    case StopCall(t, final) => FreshMarked(max, s, a);
    case FinishOp(o) =>
    case ReleaseSlot(o) =>
  }

  lemma StepKeepsOrderly(max: nat, s: State, t: nat, yes: bool)
    requires Orderly(s) && StepEnabled(max, s, t, yes)
    ensures Orderly(StepNext(max, s, t, yes))
  {
    assert t in s.threads;
    hide StepNext, StepEnabled, ClosedFailed, PcMarked, Marked;
    var n := StepNext(max, s, t, yes);
    StepMarks(max, s, t, yes);
    OneMoves(max, s, t, yes);
    StepRaises(max, s, t, yes);
    forall u | u in n.threads ensures Marked(n.core, n.threads[u]) {
      if u != t {
        assert u in n.threads - {t} && n.threads[u] == (n.threads - {t})[u];
        MarkedRises(s.core, n.core, s.threads[u]);
      }
    }
  }

  lemma FreshMarked(max: nat, s: State, a: Action)
    requires Enabled(max, s, a) && (a.PublishCall? || a.ConnectionLost? || a.StopCall?)
    ensures a.t in Next(max, s, a).threads && Marked(Next(max, s, a).core, Next(max, s, a).threads[a.t])
  {}

  lemma {:induction false} PathOrderly(max: nat, s: State, actions: seq<Action>, t: State)
    requires Inv(max, s) && Orderly(s) && Path(max, s, actions, t)
    ensures Inv(max, t) && Orderly(t)
    decreases |actions|
  {
    assert Shape(s.core);
    hide Inv, Orderly, Next, Enabled, Shape;
    if actions != [] {
      KeepInv(max, s, actions[0]);
      KeepOrderly(max, s, actions[0]);
      PathOrderly(max, Next(max, s, actions[0]), actions[1..], t);
    }
  }

  /** Over every interleaving: a closed socket belongs to a lifetime already marked failed,
      and whoever has called closeSocket on one finds it closed. */
  lemma ReachableOrderly(max: nat, s: State)
    requires Reachable(max, s)
    ensures Inv(max, s) && Orderly(s)
  {
    var actions :| Reaches(max, actions, s);
    BeginInv(max);
    assert Orderly(Begin());
    PathOrderly(max, Begin(), actions, s);
  }

  // ---- the outcomes of a Publish ----

  /** An operation begins only on a lifetime that is neither closed nor failed, and holds the
      slot its call had. */
  lemma BeginsOnlyOpen(max: nat, s: State, a: Action, o: nat)
    requires Reachable(max, s) && Enabled(max, s, a) && o in Next(max, s, a).ops && o !in s.ops
    ensures var e := Next(max, s, a).ops[o].e;
      && e in s.core.lives && !s.core.lives[e].closed && !s.core.lives[e].failed && e == s.core.latest
      && Next(max, s, a).ops[o].live && Next(max, s, a).slots == s.slots
  {
    ReachableInv(max, s);
    assert a.Step?;
    assert Shape(s.core) && Installs(s.core) && ThreadOk(s.core, s.threads[a.t]);
    hide Reachable, Inv, Shape, ThreadOk, Installs, StepNext, StepEnabled;
    StepBegins(max, s, a.t, a.yes, o);
    InstalledKnown(s.core, s.threads[a.t]);
    hide *;
  }

  lemma InstalledKnown(c: Core, th: Thread)
    requires Shape(c) && Installs(c) && ThreadOk(c, th) && th.Beginning? && th.e in c.lives && c.lives[th.e].Admits()
    ensures th.e == c.latest
  {}

  lemma StepBegins(max: nat, s: State, t: nat, yes: bool, o: nat)
    requires StepEnabled(max, s, t, yes) && o in StepNext(max, s, t, yes).ops && o !in s.ops
    ensures s.threads[t].Beginning? && s.threads[t].e in s.core.lives && s.core.lives[s.threads[t].e].Admits()
    ensures var n := StepNext(max, s, t, yes); n.ops[o] == Invocation(s.threads[t].e, true) && n.slots == s.slots
  {}

  /** Confirmed within its time: the lifetime stays as it is. */
  lemma ConfirmedLeavesAlone(max: nat, s: State, t: nat)
    requires t in s.threads && s.threads[t].Running?
    ensures StepEnabled(max, s, t, true)
    ensures var n := Next(max, s, Step(t, true)); n.core == s.core && t !in n.threads && n.ops == s.ops && n.slots == s.slots
  {}

  /** One step of goroutine `t` that takes `s` to `n`. */
  lemma Moves(max: nat, s: State, t: nat, yes: bool, n: State)
    requires StepEnabled(max, s, t, yes) && StepNext(max, s, t, yes) == n
    ensures LeadsTo(max, s, n)
  {
    hide StepNext, StepEnabled;
    assert Path(max, n, [], n);
    Cons(max, s, Step(t, yes), n, [], n);
    assert Path(max, s, [Step(t, yes)] + [], n);
  }

  ghost predicate At(s: State, t: nat, th: Thread) { t in s.threads && s.threads[t] == th }

  /** The lifetime is taken down: failed, closed, no longer current, and the supervisor told. */
  ghost predicate TakenDown(c: Core, e: Epoch) {
    e in c.lives && c.lives[e].failed && c.lives[e].closed && c.lives[e].woken && c.current != Some(e)
  }

  /** From `s` to `n` nothing but lifetime `e` changed, and `t` has returned. */
  ghost predicate OnlyOn(s: State, n: State, t: nat, e: Epoch) {
    && n.core.lives - {e} == s.core.lives - {e} && (s.core.current != Some(e) ==> n.core.current == s.core.current)
    && n.core.pc == s.core.pc && n.ops == s.ops && n.slots == s.slots && n.threads == s.threads - {t}
  }

  lemma FromWake(max: nat, s: State, t: nat, e: Epoch) returns (n: State)
    requires At(s, t, FailWake(e)) && e in s.core.lives && s.core.lives[e].failed && s.core.lives[e].closed && s.core.current != Some(e)
    ensures LeadsTo(max, s, n) && TakenDown(n.core, e) && OnlyOn(s, n, t, e)
  {
    hide LeadsTo;
    n := s.End(t).(core := s.core.Woken(e));
    Moves(max, s, t, true, n);
  }

  lemma FromClear(max: nat, s: State, t: nat, e: Epoch) returns (n: State)
    requires At(s, t, FailClear(e)) && e in s.core.lives && s.core.lives[e].failed && s.core.lives[e].closed && s.core.MuFree()
    ensures LeadsTo(max, s, n) && TakenDown(n.core, e) && OnlyOn(s, n, t, e)
  {
    hide LeadsTo;
    var m := s.Go(t, FailWake(e)).(core := s.core.Cleared(e));
    Moves(max, s, t, true, m);
    hide StepNext, StepEnabled;
    n := FromWake(max, m, t, e);
    Then(max, s, m, n);
  }

  lemma FromClose(max: nat, s: State, t: nat, e: Epoch) returns (n: State)
    requires At(s, t, FailClose(e)) && e in s.core.lives && s.core.lives[e].failed && s.core.MuFree()
    ensures LeadsTo(max, s, n) && TakenDown(n.core, e) && OnlyOn(s, n, t, e)
  {
    hide LeadsTo;
    var m := s.Go(t, FailClear(e)).(core := s.core.Closed(e));
    Moves(max, s, t, true, m);
    hide StepNext, StepEnabled;
    n := FromClear(max, m, t, e);
    Then(max, s, m, n);
  }

  lemma FromMark(max: nat, s: State, t: nat, e: Epoch) returns (n: State)
    requires At(s, t, FailMark(e)) && e in s.core.lives && s.core.MuFree()
    ensures LeadsTo(max, s, n) && TakenDown(n.core, e) && OnlyOn(s, n, t, e)
  {
    hide LeadsTo;
    var m := s.Go(t, FailClose(e)).(core := s.core.Failed(e));
    Moves(max, s, t, true, m);
    hide StepNext, StepEnabled;
    n := FromClose(max, m, t, e);
    Then(max, s, m, n);
  }

  /** Not confirmed: the call's own next five steps take its lifetime down, and no other. */
  lemma UnconfirmedTakesDown(max: nat, s: State, t: nat, e: Epoch) returns (n: State)
    requires Reachable(max, s) && At(s, t, Transport.Running(e)) && s.core.MuFree()
    ensures LeadsTo(max, s, n) && TakenDown(n.core, e) && OnlyOn(s, n, t, e)
  {
    ReachableInv(max, s);
    assert Shape(s.core) && Installs(s.core) && ThreadOk(s.core, s.threads[t]);
    assert e in s.core.lives;
    hide Inv, Reachable, ThreadOk, LeadsTo, Shape, Installs;
    var m := s.Go(t, FailMark(e));
    Moves(max, s, t, false, m);
    hide StepNext, StepEnabled;
    n := FromMark(max, m, t, e);
    Then(max, s, m, n);
  }

  /** A call that finds its lifetime failed or not subscribed, on either look, returns at
      once: it starts nothing, breaks nothing and keeps no slot. */
  lemma UnusableRefused(max: nat, s: State, t: nat, e: Epoch, yes: bool)
    requires e in s.core.lives && (s.core.lives[e].failed || !s.core.lives[e].subscribed) && (At(s, t, Loaded(e)) || At(s, t, Reloaded(e)))
    ensures StepEnabled(max, s, t, yes)
    ensures var n := Next(max, s, Step(t, yes)); t !in n.threads && n.core == s.core && n.ops == s.ops
    ensures var n := Next(max, s, Step(t, yes)); At(s, t, Loaded(e)) ==> n.slots == s.slots
    ensures var n := Next(max, s, Step(t, yes)); At(s, t, Reloaded(e)) && s.slots > 0 ==> n.slots == s.slots - 1
  {}

  // ---- a ready transport serves ----

  ghost predicate Serves(s: State, n: State, t: nat, e: Epoch) {
    && n.core == s.core && At(n, t, Transport.Running(e)) && n.threads - {t} == s.threads - {t}
    && n.ops == s.ops[s.nextOp := Invocation(e, true)]
  }

  lemma FromBeginning(max: nat, s: State, t: nat, e: Epoch) returns (n: State)
    requires At(s, t, Beginning(e)) && e in s.core.lives && s.core.lives[e].Admits()
    ensures LeadsTo(max, s, n) && Serves(s, n, t, e) && n.slots == s.slots
  {
    hide LeadsTo;
    n := s.Go(t, Transport.Running(e)).(ops := s.ops[s.nextOp := Invocation(e, true)], nextOp := s.nextOp + 1);
    Moves(max, s, t, true, n);
  }

  lemma FromReloaded(max: nat, s: State, t: nat, e: Epoch) returns (n: State)
    requires At(s, t, Reloaded(e)) && e in s.core.lives && s.core.lives[e].Admits() && s.core.lives[e].Usable()
    ensures LeadsTo(max, s, n) && Serves(s, n, t, e) && n.slots == s.slots
  {
    hide LeadsTo;
    var m := s.Go(t, Beginning(e));
    Moves(max, s, t, true, m);
    hide StepNext, StepEnabled;
    n := FromBeginning(max, m, t, e);
    Then(max, s, m, n);
  }

  lemma FromHolding(max: nat, s: State, t: nat, e: Epoch) returns (n: State)
    requires At(s, t, Holding) && s.core.MuFree() && s.core.current == Some(e)
    requires e in s.core.lives && s.core.lives[e].Admits() && s.core.lives[e].Usable()
    ensures LeadsTo(max, s, n) && Serves(s, n, t, e) && n.slots == s.slots
  {
    hide LeadsTo;
    var m := s.Go(t, Reloaded(e));
    Moves(max, s, t, true, m);
    hide StepNext, StepEnabled;
    n := FromReloaded(max, m, t, e);
    Then(max, s, m, n);
  }

  lemma FromLoaded(max: nat, s: State, t: nat, e: Epoch) returns (n: State)
    requires At(s, t, Loaded(e)) && s.core.MuFree() && s.core.current == Some(e) && s.slots < max
    requires e in s.core.lives && s.core.lives[e].Admits() && s.core.lives[e].Usable()
    ensures LeadsTo(max, s, n) && Serves(s, n, t, e) && n.slots == s.slots + 1
  {
    hide LeadsTo;
    var m := s.Go(t, Queueing);
    var k := m.Go(t, Holding).(slots := s.slots + 1);
    Moves(max, s, t, true, m);
    Moves(max, m, t, true, k);
    hide StepNext, StepEnabled;
    n := FromHolding(max, k, t, e);
    Then(max, s, m, k);
    Then(max, s, k, n);
  }

  /** A ready transport serves a Publish: with a slot free it comes to run on the current
      lifetime, and changes nothing else. */
  lemma ReadyPublishes(max: nat, s: State, t: nat, e: Epoch) returns (n: State)
    requires Reachable(max, s) && s.core.Ready() && s.core.current == Some(e) && s.core.MuFree() && t !in s.threads && s.slots < max
    ensures LeadsTo(max, s, n) && Serves(s, n, t, e) && n.slots == s.slots + 1
  {
    ReachableOrderly(max, s);
    assert s.core.lives[e].Admits() && s.core.lives[e].Usable();
    hide Inv, Reachable, Orderly, LeadsTo;
    var m := s.Go(t, Loaded(e));
    CallStep(max, s, t, e);
    n := FromLoaded(max, m, t, e);
    Then(max, s, m, n);
  }

  lemma CallStep(max: nat, s: State, t: nat, e: Epoch)
    requires t !in s.threads && s.core.MuFree() && s.core.current == Some(e)
    ensures LeadsTo(max, s, s.Go(t, Loaded(e)))
  {
    var n := s.Go(t, Loaded(e));
    assert Path(max, n, [], n);
    Cons(max, s, PublishCall(t), n, [], n);
    assert Path(max, s, [PublishCall(t)] + [], n);
  }
}
