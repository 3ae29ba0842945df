/** What a shutdown brings about: no further lifetime, the current one taken down, and a
    supervisor that returns. */
module TransportStop {
  import opened Wrappers
  import opened Transport
  import opened TransportSafety
  import opened TransportTheorems
  import opened TransportRecovery
  import opened TransportPublish

  // ---- no further lifetime ----

  predicate ShutDown(c: Core) { c.stopped || c.cancelled }

  /** A lifetime the supervisor has already decided to open. */
  function Decided(c: Core): nat { if c.pc.Connect? then 1 else 0 }

  lemma SupervisorOpensNoMore(s: State, yes: bool)
    requires SupervisorEnabled(s, yes) && ShutDown(s.core)
    ensures var c := SupervisorNext(s, yes); ShutDown(c) && c.latest + Decided(c) <= s.core.latest + Decided(s.core)
  {}

  lemma ShutDownStep(max: nat, s: State, a: Action)
    requires Enabled(max, s, a) && ShutDown(s.core)
    ensures var c := Next(max, s, a).core; ShutDown(c) && c.latest + Decided(c) <= s.core.latest + Decided(s.core)
  {
    hide StepNext, SupervisorNext;
    if a.Supervise? { SupervisorOpensNoMore(s, a.yes); } else { OthersRaise(max, s, a); }
  }

  /** Once StopReconnect or Stop has set its first flag, the supervisor opens no lifetime but
      the one it had decided on. */
  lemma {:induction false} NoNewLifetime(max: nat, s: State, actions: seq<Action>, t: State)
    requires ShutDown(s.core) && Path(max, s, actions, t)
    ensures t.core.latest <= s.core.latest + if s.core.pc.Connect? then 1 else 0
    decreases |actions|
  {
    if actions != [] {
      ShutDownStep(max, s, actions[0]);
      assert Path(max, Next(max, s, actions[0]), actions[1..], t);
      hide Next, Enabled, ShutDown;
      NoNewLifetimeAfter(max, Next(max, s, actions[0]), actions[1..], t);
    }
  }

  lemma {:induction false} NoNewLifetimeAfter(max: nat, s: State, actions: seq<Action>, t: State)
    requires ShutDown(s.core) && Path(max, s, actions, t)
    ensures t.core.latest + Decided(t.core) <= s.core.latest + Decided(s.core)
    decreases |actions|
  {
    hide Next, Enabled, ShutDown;
    if actions != [] {
      ShutDownStep(max, s, actions[0]);
      NoNewLifetimeAfter(max, Next(max, s, actions[0]), actions[1..], t);
    }
  }

  /** StopReconnect by itself only stops the supervisor from opening more: in three steps it
      sets both flags and returns, and leaves the current lifetime to serve. */
  lemma StopReconnectOnlyFlags(max: nat, s: State, t: nat)
    requires t !in s.threads && s.core.MuFree()
    ensures LeadsTo(max, s, s.(core := s.core.(stopped := true, cancelled := true)))
    ensures s.core.Ready() ==> s.core.(stopped := true, cancelled := true).Ready()
  {
    var goal := s.(core := s.core.(stopped := true, cancelled := true));
    var m := s.Go(t, StopFlag(false));
    var k := m.Go(t, StopCancel(false)).(core := s.core.(stopped := true));
    assert Path(max, m, [], m);
    Cons(max, s, StopCall(t, false), m, [], m);
    assert Path(max, s, [StopCall(t, false)] + [], m);
    hide Path;
    assert LeadsTo(max, s, m);
    hide LeadsTo;
    Moves(max, m, t, true, k);
    assert k.End(t).threads == s.threads;
    Moves(max, k, t, true, goal);
    Then(max, s, m, k);
    Then(max, s, k, goal);
  }

  // ---- Stop takes the current lifetime down ----

  ghost predicate Torn(c: Core, e: Epoch) { e in c.lives && c.lives[e].failed && c.lives[e].closed && c.current != Some(e) }

  lemma FromTornClose(max: nat, s: State, t: nat, e: Epoch) returns (n: State)
    requires At(s, t, TornClose(e)) && e in s.core.lives && s.core.lives[e].failed && s.core.current != Some(e)
    ensures LeadsTo(max, s, n) && Torn(n.core, e) && At(n, t, TornWait(e)) && n.core.stuck == s.core.stuck
  {
    hide LeadsTo;
    n := s.Go(t, TornWait(e)).(core := s.core.Closed(e));
    Moves(max, s, t, true, n);
  }

  lemma FromTornMark(max: nat, s: State, t: nat, e: Epoch) returns (n: State)
    requires At(s, t, TornMark(e)) && e in s.core.lives && s.core.current != Some(e)
    ensures LeadsTo(max, s, n) && Torn(n.core, e) && At(n, t, TornWait(e)) && n.core.stuck == s.core.stuck
  {
    hide LeadsTo;
    var m := s.Go(t, TornClose(e)).(core := s.core.Failed(e));
    Moves(max, s, t, true, m);
    hide StepNext, StepEnabled;
    n := FromTornClose(max, m, t, e);
    Then(max, s, m, n);
  }

  /** A Stop that finds a current lifetime withdraws it, fails it and closes its socket before
      it waits for the invocations on it. */
  lemma StopTearsDown(max: nat, s: State, t: nat, e: Epoch) returns (n: State)
    requires Reachable(max, s) && At(s, t, StopTake) && s.core.current == Some(e) && s.core.MuFree()
    ensures LeadsTo(max, s, n) && Torn(n.core, e) && At(n, t, TornWait(e)) && n.core.stuck == s.core.stuck
  {
    ReachableInv(max, s);
    assert Shape(s.core) && Installs(s.core);
    assert e in s.core.lives;
    hide Inv, Reachable, LeadsTo, Shape, Installs;
    var m := s.Go(t, TornMark(e)).(core := s.core.Cleared(e));
    Moves(max, s, t, true, m);
    hide StepNext, StepEnabled;
    n := FromTornMark(max, m, t, e);
    Then(max, s, m, n);
  }

  /** Invocations that return in time let it return cleanly; those that do not make the
      transport stuck. */
  lemma TornWaitEnds(max: nat, s: State, t: nat, e: Epoch)
    requires At(s, t, TornWait(e))
    ensures StepEnabled(max, s, t, true) <==> s.Idle(e)
    ensures s.Idle(e) ==> LeadsTo(max, s, s.End(t))
    ensures LeadsTo(max, s, s.End(t).(core := s.core.(stuck := true)))
  {
    hide LeadsTo;
    if s.Idle(e) { Moves(max, s, t, true, s.End(t)); }
    var m := s.Go(t, TornStuck(e));
    Moves(max, s, t, false, m);
    assert m.End(t).threads == s.End(t).threads;
    Moves(max, m, t, true, s.End(t).(core := s.core.(stuck := true)));
    Then(max, s, m, s.End(t).(core := s.core.(stuck := true)));
  }

  // ---- the supervisor returns ----

  /** How far the supervisor is from returning once shut down. */
  function Left(pc: Pc): nat {
    match pc
    case Connect => 11
    case Dialing(_) => 10
    case Handshaking(_) => 10
    case MarkSubscribed(_) => 10
    case Install(_) => 9
    case Locked(_) => 8
    case Waiting(_) => 7
    case Clear(_) => 6
    case CloseMark(_) => 5
    case CloseSocket(_) => 4
    case WaitOps(_) => 3
    case Decide(_) => 2
    case Discard(_) => 4
    case DiscardClose(_) => 3
    case Backoff => 2
    case Top => 1
    case GoStuck(_) => 1
    case Exit => 0
  }

  /** The answer that moves it towards its return. */
  function Homeward(pc: Pc): bool { !pc.Dialing? && !pc.Handshaking? && !pc.Waiting? && !pc.Backoff? }

  lemma HomewardStep(s: State)
    requires Shape(s.core) && ShutDown(s.core) && !s.core.pc.Exit? && (s.core.pc.WaitOps? ==> s.Idle(s.core.pc.e))
    ensures SupervisorEnabled(s, Homeward(s.core.pc))
    ensures var c := SupervisorNext(s, Homeward(s.core.pc)); ShutDown(c) && Left(c.pc) < Left(s.core.pc)
    ensures !s.core.pc.GoStuck? ==> SupervisorNext(s, Homeward(s.core.pc)).stuck == s.core.stuck && !SupervisorNext(s, Homeward(s.core.pc)).pc.GoStuck?
  {
    hide OneOpen;
  }

  /** After a shutdown the supervisor can return from wherever it stands, and without a stuck
      teardown unless it was about to record one. */
  lemma {:induction false} SupervisorReturns(max: nat, s: State) returns (t: State)
    requires Inv(max, s) && ShutDown(s.core)
    ensures LeadsTo(max, s, t) && t.core.pc.Exit? && (!s.core.pc.GoStuck? ==> t.core.stuck == s.core.stuck)
    decreases Left(s.core.pc)
  {
    assert Shape(s.core);
    hide Inv, LeadsTo, Shape, SupervisorNext, SupervisorEnabled, ShutDown, Left, Homeward;
    if s.core.pc.Exit? {
      Stay(max, s);
      t := s;
    } else {
      var m := s;
      if s.core.pc.WaitOps? { m := OpsFinish(max, s, s.core.pc.e); } else { Stay(max, s); }
      HomewardStep(m);
      var n := Next(max, m, Supervise(Homeward(m.core.pc)));
      Once(max, m, Supervise(Homeward(m.core.pc)));
      Then(max, s, m, n);
      t := SupervisorReturns(max, n);
      Then(max, s, n, t);
    }
  }
}
