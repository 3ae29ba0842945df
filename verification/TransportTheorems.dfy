/** The transport's promises, for every reachable state and every run. */
module TransportTheorems {
  import opened Wrappers
  import opened Transport
  import opened TransportSafety

  lemma BeginInv(max: nat)
    ensures Inv(max, Begin())
  {}

  lemma {:induction false} PathInv(max: nat, s: State, actions: seq<Action>, t: State)
    requires Inv(max, s) && Path(max, s, actions, t)
    ensures Inv(max, t)
    decreases |actions|
  {
    hide Inv, Next, Enabled;
    if actions != [] {
      KeepInv(max, s, actions[0]);
      PathInv(max, Next(max, s, actions[0]), actions[1..], t);
    }
  }

  lemma ReachableInv(max: nat, s: State)
    requires Reachable(max, s)
    ensures Inv(max, s)
  {
    hide Inv, Path;
    var actions :| Reaches(max, actions, s);
    BeginInv(max);
    PathInv(max, Begin(), actions, s);
  }

  /** Lifetime safety.  At most one lifetime is open; the current one is the last installed
      and is the latest; installed epochs strictly increase; and a failed lifetime is
      current only while a goroutine that failed it has not reached its clearCurrent. */
  lemma LifetimeSafety(max: nat, s: State)
    requires Reachable(max, s)
    ensures forall e, f :: e in s.core.lives && f in s.core.lives && !s.core.lives[e].closed && !s.core.lives[f].closed ==> e == f
    ensures forall i, j :: 0 <= i < j < |s.core.installed| ==> s.core.installed[i] < s.core.installed[j]
    ensures s.core.current.Some? ==> s.core.installed != [] && s.core.current.value == s.core.installed[|s.core.installed| - 1]
    ensures s.core.current.Some? ==> s.core.current.value in s.core.lives
    ensures s.core.current.Some? && s.core.lives[s.core.current.value].failed ==> Owned(s, s.core.current.value)
  {
    ReachableInv(max, s);
    hide Slots, Ops, Threads, StuckEnds;
    var c := s.core;
    if c.current.Some? {
      var i :| 0 <= i < |c.installed| && c.installed[i] == c.latest;
      assert c.installed[|c.installed| - 1] in c.installed;
      assert i == |c.installed| - 1;
      assert Exposed(c, c.current.value);
    }
  }

  /** The step acts for lifetime `e`: the supervisor on it, or a goroutine of it. */
  predicate ActsFor(s: State, a: Action, e: Epoch) {
    match a
    case Supervise(_) => s.core.pc == Clear(e)
    case Step(t, _) => t in s.threads && (s.threads[t] == FailClear(e) || s.threads[t] == LostClear(e) || s.threads[t] == StopTake)
    case _ => false
  }

  lemma SupervisorWithdraws(s: State, yes: bool, e: Epoch)
    requires Installs(s.core) && SupervisorEnabled(s, yes) && s.core.current == Some(e)
    ensures SupervisorNext(s, yes).current == if s.core.pc == Clear(e) then None else Some(e)
  {}

  lemma BreakWithdraws(max: nat, s: State, t: nat, yes: bool, e: Epoch)
    requires StepEnabled(max, s, t, yes) && s.core.current == Some(e) && Breaking(s.threads[t])
    ensures BreakNext(max, s, t, yes).core.current == if ActsFor(s, Step(t, yes), e) then None else Some(e)
  {}

  lemma StopWithdraws(max: nat, s: State, t: nat, yes: bool, e: Epoch)
    requires StepEnabled(max, s, t, yes) && s.core.current == Some(e) && Stopping(s.threads[t])
    ensures StopNext(max, s, t, yes).core.current == if ActsFor(s, Step(t, yes), e) then None else Some(e)
  {}

  lemma StepWithdraws(max: nat, s: State, t: nat, yes: bool, e: Epoch)
    requires StepEnabled(max, s, t, yes) && s.core.current == Some(e)
    ensures StepNext(max, s, t, yes).core.current == if ActsFor(s, Step(t, yes), e) then None else Some(e)
  {
    hide BreakNext, StopNext;
    if Breaking(s.threads[t]) {
      BreakWithdraws(max, s, t, yes, e);
    } else if Stopping(s.threads[t]) {
      StopWithdraws(max, s, t, yes, e);
    }
  }

  /** A current lifetime is withdrawn, never replaced, and only on its own behalf (or by
      Stop): a late callback of another lifetime cannot touch it. */
  lemma OnlyOwnCallbackClears(max: nat, s: State, a: Action, e: Epoch)
    requires Reachable(max, s) && Enabled(max, s, a) && s.core.current == Some(e)
    ensures Next(max, s, a).core.current == if ActsFor(s, a, e) then None else Some(e)
  {
    ReachableInv(max, s);
    assert Installs(s.core);
    hide Inv, Installs, SupervisorNext, StepNext, Path;
    match a
    case Supervise(yes) => SupervisorWithdraws(s, yes, e);
    case Step(t, yes) => StepWithdraws(max, s, t, yes, e);
    case _ =>
  }

  /** Publish accounting.  Invocations never exceed the limit, a taken slot has exactly one
      owner, running invocations all belong to the latest lifetime, and none runs while
      the supervisor is opening or between lifetimes. */
  lemma PublishAccounting(max: nat, s: State)
    requires Reachable(max, s)
    ensures s.slots == |Holders(s.threads)| + |s.ops|
    ensures |s.ops| <= s.slots <= max
    ensures forall o :: o in s.ops && s.ops[o].live ==> s.ops[o].e == s.core.latest
    ensures forall o :: o in s.ops && s.ops[o].live ==> !Opening(s.core.pc) && !s.core.pc.Top? && !s.core.pc.Connect? && !s.core.pc.Backoff?
  {
    ReachableInv(max, s);
    hide Threads, StuckEnds, FailureOwned, Shape, Installs;
  }

  lemma StepOpsOpen(max: nat, s: State, t: nat, yes: bool, e: Epoch)
    requires StepEnabled(max, s, t, yes) && e in s.core.lives && s.core.lives[e].closed
    ensures forall o :: o in OpsOn(StepNext(max, s, t, yes), e) ==> o in OpsOn(s, e)
  {}

  lemma OpenKeepsClosed(s: State, yes: bool, e: Epoch)
    requires Numbered(s.core) && SupervisorEnabled(s, yes) && !Serving(s.core.pc) && e in s.core.lives && s.core.lives[e].closed
    ensures e in OpenNext(s, yes).lives && OpenNext(s, yes).lives[e].closed
  {}

  lemma ServeKeepsClosed(s: State, yes: bool, e: Epoch)
    requires SupervisorEnabled(s, yes) && Serving(s.core.pc) && e in s.core.lives && s.core.lives[e].closed
    ensures e in ServeNext(s, yes).lives && ServeNext(s, yes).lives[e].closed
  {}

  lemma SupervisorKeepsClosed(s: State, yes: bool, e: Epoch)
    requires Numbered(s.core) && SupervisorEnabled(s, yes) && e in s.core.lives && s.core.lives[e].closed
    ensures e in SupervisorNext(s, yes).lives && SupervisorNext(s, yes).lives[e].closed
  {
    hide OpenNext, ServeNext, Numbered;
    if Serving(s.core.pc) { ServeKeepsClosed(s, yes, e); } else { OpenKeepsClosed(s, yes, e); }
  }

  ghost function OpsOn(s: State, e: Epoch): set<nat> { set o | o in s.ops && s.ops[o].e == e }

  lemma ClosedStep(max: nat, s: State, a: Action, e: Epoch)
    requires Shape(s.core) && Enabled(max, s, a) && e in s.core.lives && s.core.lives[e].closed
    ensures e in Next(max, s, a).core.lives && Next(max, s, a).core.lives[e].closed
    ensures OpsOn(Next(max, s, a), e) <= OpsOn(s, e)
  {
    hide StepNext, SupervisorNext;
    if a.Supervise? {
      SupervisorKeepsClosed(s, a.yes, e);
    } else {
      OthersRaise(max, s, a);
      if a.Step? { StepOpsOpen(max, s, a.t, a.yes, e); }
    }
  }

  /** After the closeSocket of a lifetime no operation ever begins on it again. */
  lemma NoOpAfterClose(max: nat, s: State, e: Epoch, actions: seq<Action>, t: State)
    requires Reachable(max, s) && e in s.core.lives && s.core.lives[e].closed && Path(max, s, actions, t)
    ensures OpsOn(t, e) <= OpsOn(s, e)
  {
    ReachableInv(max, s);
    hide Path, Inv;
    ClosedPath(max, s, e, actions, t);
  }

  lemma {:induction false} ClosedPath(max: nat, s: State, e: Epoch, actions: seq<Action>, t: State)
    requires Inv(max, s) && e in s.core.lives && s.core.lives[e].closed && Path(max, s, actions, t)
    ensures OpsOn(t, e) <= OpsOn(s, e)
    decreases |actions|
  {
    assert Shape(s.core);
    hide Inv, Next, Enabled, OpsOn, Shape;
    if actions != [] {
      KeepInv(max, s, actions[0]);
      ClosedStep(max, s, actions[0], e);
      ClosedPath(max, Next(max, s, actions[0]), e, actions[1..], t);
    }
  }

  lemma StuckStep(max: nat, s: State, a: Action)
    requires Inv(max, s) && Enabled(max, s, a) && s.core.stuck
    ensures Next(max, s, a).core.stuck && Next(max, s, a).core.latest == s.core.latest && Next(max, s, a).core.installed == s.core.installed
  {
    hide Slots, Threads, Ops, FailureOwned, Shape, Installs;
    if !a.Supervise? {
      OthersRaise(max, s, a);
    }
  }

  /** Once a teardown is stuck: never ready again, and no further lifetime is opened. */
  lemma {:induction false} StuckForever(max: nat, s: State, actions: seq<Action>, t: State)
    requires Reachable(max, s) && s.core.stuck && Path(max, s, actions, t)
    ensures !t.core.Ready() && t.core.latest == s.core.latest && t.core.installed == s.core.installed
  {
    ReachableInv(max, s);
    StuckPath(max, s, actions, t);
  }

  lemma {:induction false} StuckPath(max: nat, s: State, actions: seq<Action>, t: State)
    requires Inv(max, s) && s.core.stuck && Path(max, s, actions, t)
    ensures t.core.stuck && t.core.latest == s.core.latest && t.core.installed == s.core.installed
    decreases |actions|
  {
    hide Inv, Next, Enabled;
    if actions != [] {
      KeepInv(max, s, actions[0]);
      StuckStep(max, s, actions[0]);
      StuckPath(max, Next(max, s, actions[0]), actions[1..], t);
    }
  }

  /** A lifetime may yet be installed: its socket was open when the transport was shut
      down, and it has not failed. */
  predicate MayInstall(c: Core) {
    && !c.stuck && (c.pc.Handshaking? || c.pc.MarkSubscribed? || c.pc.Install?)
    && c.pc.e in c.lives && !c.lives[c.pc.e].failed
  }

  /** Shut down, nothing current, and nothing left that could become current. */
  predicate Over(c: Core) { c.cancelled && c.current == None && !MayInstall(c) && !c.pc.Locked? }

  lemma OverSupervisor(s: State, yes: bool)
    requires Over(s.core) && !s.core.stuck && SupervisorEnabled(s, yes)
    ensures Over(SupervisorNext(s, yes))
  {}

  lemma OverRises(c: Core, d: Core)
    requires Over(c) && !c.stuck && Rises(c, d)
    ensures Over(d)
  {}

  lemma OverStep(max: nat, s: State, a: Action)
    requires Inv(max, s) && Enabled(max, s, a) && (Over(s.core) || s.core.stuck)
    ensures Over(Next(max, s, a).core) || Next(max, s, a).core.stuck
  {
    hide Inv, StepNext, SupervisorNext, Over;
    if s.core.stuck {
      StuckStep(max, s, a);
    } else if a.Supervise? {
      OverSupervisor(s, a.yes);
    } else {
      OthersRaise(max, s, a);
      OverRises(s.core, Next(max, s, a).core);
    }
  }

  lemma {:induction false} OverPath(max: nat, s: State, actions: seq<Action>, t: State)
    requires Inv(max, s) && (Over(s.core) || s.core.stuck) && Path(max, s, actions, t)
    ensures !t.core.Ready()
    decreases |actions|
  {
    hide Inv, Next, Enabled;
    if actions != [] {
      KeepInv(max, s, actions[0]);
      OverStep(max, s, actions[0]);
      OverPath(max, Next(max, s, actions[0]), actions[1..], t);
    }
  }

  lemma Cons(max: nat, s: State, a: Action, n: State, rest: seq<Action>, t: State)
    requires Enabled(max, s, a) && Next(max, s, a) == n && Path(max, n, rest, t)
    ensures Path(max, s, [a] + rest, t)
  {
    hide Next, Enabled;
    assert ([a] + rest)[1..] == rest;
  }

  /** How many supervisor steps are left until the install. */
  function Stages(pc: Pc): nat {
    if pc.Handshaking? then 4 else if pc.MarkSubscribed? then 3 else if pc.Install? then 2 else 1
  }

  ghost predicate OnTrack(c: Core) {
    && (MayInstall(c) || (c.pc.Locked? && !c.stuck && c.pc.e in c.lives && c.lives[c.pc.e].Usable()))
    && (c.pc.Install? ==> c.pc.e in c.lives && c.lives[c.pc.e].subscribed)
  }

  lemma TrackStep(s: State)
    requires OnTrack(s.core)
    ensures SupervisorEnabled(s, true)
    ensures s.core.pc.Locked? ==> SupervisorNext(s, true).Ready() && SupervisorNext(s, true).current == Some(s.core.pc.e)
    ensures !s.core.pc.Locked? ==> OnTrack(SupervisorNext(s, true)) && SupervisorNext(s, true).pc.e == s.core.pc.e
    ensures !s.core.pc.Locked? ==> Stages(SupervisorNext(s, true).pc) < Stages(s.core.pc)
  {}

  lemma {:induction false} InstallsAfterAll(max: nat, s: State) returns (actions: seq<Action>, t: State)
    requires OnTrack(s.core)
    ensures Path(max, s, actions, t) && t.core.Ready() && t.core.current == Some(s.core.pc.e)
    decreases Stages(s.core.pc)
  {
    hide OnTrack, SupervisorNext, SupervisorEnabled;
    var a := Supervise(true);
    TrackStep(s);
    var n := Next(max, s, a);
    if s.core.pc.Locked? {
      Cons(max, s, a, n, [], n);
      actions, t := [a] + [], n;
    } else {
      var rest;
      rest, t := InstallsAfterAll(max, n);
      Cons(max, s, a, n, rest, t);
      actions := [a] + rest;
    }
  }

  ghost predicate ReadyAgain(max: nat, s: State) { exists actions, t :: Path(max, s, actions, t) && t.core.Ready() }

  /** Stop takes the current lifetime with the supervisor anywhere, because its context may
      end before the supervisor returns.  The transport can be ready again afterwards if
      and only if a connection attempt was past its dial and had not failed: installCurrent
      does not look at `closed`, and nobody takes that lifetime down. */
  lemma StopIsFinalIff(max: nat, s: State, t: nat)
    requires Reachable(max, s) && StepEnabled(max, s, t, true) && s.threads[t].StopTake?
    ensures ReadyAgain(max, Next(max, s, Step(t, true))) <==> MayInstall(s.core)
  {
    ReachableInv(max, s);
    var n := Next(max, s, Step(t, true));
    KeepInv(max, s, Step(t, true));
    assert n.core.current == None && n.core == s.core.(current := None);
    assert ThreadOk(s.core, s.threads[t]);
    if MayInstall(s.core) {
      assert OnTrack(n.core);
      var actions, r := InstallsAfterAll(max, n);
    } else {
      forall actions, r | Path(max, n, actions, r) ensures !r.core.Ready() { OverPath(max, n, actions, r); }
    }
  }

  /** Such a Stop exists: it sets both flags and gives up waiting while the supervisor, which
      has its SUBACK, is about to install. */
  lemma StopMayComeTooEarly(max: nat) returns (s: State)
    ensures Reachable(max, s) && StepEnabled(max, s, 0, true) && s.threads[0].StopTake?
    ensures MayInstall(s.core) && s.core.pc.MarkSubscribed?
  {
    var go := Supervise(true);
    var s0 := Begin();
    var s1 := s0.(core := s0.core.(pc := Connect));
    var s2 := s1.(core := s1.core.Opened().At(Dialing(1)));
    var s3 := s2.(core := s2.core.At(Handshaking(1)));
    var s4 := s3.(core := s3.core.At(MarkSubscribed(1)));
    var rest;
    s, rest := StopBeside(max, s4);
    var p3, p2, p1 := [go] + rest, [go] + ([go] + rest), [go] + ([go] + ([go] + rest));
    Cons(max, s3, go, s4, rest, s);
    Cons(max, s2, go, s3, p3, s);
    Cons(max, s1, go, s2, p2, s);
    Cons(max, s0, go, s1, p1, s);
    assert Reaches(max, [go] + p1, s);
  }

  /** A Stop whose context has ended, up to its take, while the supervisor does nothing. */
  lemma StopBeside(max: nat, s0: State) returns (s: State, actions: seq<Action>)
    requires s0.threads == map[] && s0.core.MuFree()
    ensures Path(max, s0, actions, s) && s.threads == map[0 := StopTake]
    ensures s.core == s0.core.(stopped := true, cancelled := true)
  {
    var c1 := s0.core.(stopped := true);
    var s1 := s0.Go(0, StopFlag(true));
    var s2 := s0.(core := c1).Go(0, StopCancel(true));
    var s3 := s0.(core := c1.(cancelled := true)).Go(0, StopWait);
    s := s0.(core := c1.(cancelled := true)).Go(0, StopTake);
    StopSteps(max, s0);
    hide Next, Enabled;
    var p3 := [Step(0, false)] + [];
    var p2 := [Step(0, true)] + p3;
    var p1 := [Step(0, true)] + p2;
    assert Path(max, s, [], s);
    hide Path;
    Cons(max, s3, Step(0, false), s, [], s);
    Cons(max, s2, Step(0, true), s3, p3, s);
    Cons(max, s1, Step(0, true), s2, p2, s);
    Cons(max, s0, StopCall(0, true), s1, p1, s);
    actions := [StopCall(0, true)] + p1;
  }

  lemma StopSteps(max: nat, s0: State)
    requires s0.threads == map[] && s0.core.MuFree()
    ensures var c1 := s0.core.(stopped := true);
      var s1, s2 := s0.Go(0, StopFlag(true)), s0.(core := c1).Go(0, StopCancel(true));
      var s3, s4 := s0.(core := c1.(cancelled := true)).Go(0, StopWait), s0.(core := c1.(cancelled := true)).Go(0, StopTake);
      && Enabled(max, s0, StopCall(0, true)) && Next(max, s0, StopCall(0, true)) == s1
      && Enabled(max, s1, Step(0, true)) && Next(max, s1, Step(0, true)) == s2
      && Enabled(max, s2, Step(0, true)) && Next(max, s2, Step(0, true)) == s3
      && Enabled(max, s3, Step(0, false)) && Next(max, s3, Step(0, false)) == s4
  {
    var c1 := s0.core.(stopped := true);
    var s1 := s0.Go(0, StopFlag(true));
    var s2 := s0.(core := c1).Go(0, StopCancel(true));
    var s3 := s0.(core := c1.(cancelled := true)).Go(0, StopWait);
    assert s1.Go(0, StopCancel(true)).threads == s2.threads && s2.Go(0, StopWait).threads == s3.threads;
    assert s3.Go(0, StopTake).threads == map[0 := StopTake];
  }
}
