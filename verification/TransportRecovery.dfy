/** The supervisor never gives up on its own: it ends only for a shutdown or a stuck teardown,
    and from anywhere else the transport can become ready again. */
module TransportRecovery {
  import opened Wrappers
  import opened Transport
  import opened TransportSafety
  import opened TransportTheorems

  // ---- what else every step keeps ----

  ghost predicate ExitCause(c: Core) { c.pc.Exit? ==> c.cancelled || c.stopped || c.stuck }

  ghost predicate WaitingSubscribed(c: Core) { c.pc.Waiting? ==> c.pc.e in c.lives && c.lives[c.pc.e].subscribed }

  /** Will wake the supervisor of lifetime `e` before it ends. */
  predicate WillWake(th: Thread, e: Epoch) { th == LostWake(e) || th == FailClose(e) || th == FailClear(e) || th == FailWake(e) }

  /** onLost wakes before it clears. */
  ghost predicate LostWoken(s: State) {
    forall t :: t in s.threads && s.threads[t].LostClear? && s.threads[t].e in s.core.lives ==> s.core.lives[s.threads[t].e].woken
  }

  /** The supervisor waits, or is about to, on a lifetime that failed or was withdrawn. */
  predicate Orphaned(c: Core, e: Epoch) {
    && e in c.lives
    && ((c.pc == Locked(e) && c.lives[e].failed) || (c.pc == Waiting(e) && (c.lives[e].failed || c.current != Some(e))))
  }

  ghost predicate Woken(s: State, e: Epoch)
    requires e in s.core.lives
  {
    s.core.lives[e].woken || exists t :: t in s.threads && WillWake(s.threads[t], e)
  }

  /** No wake-up is lost: whoever orphans it has woken it or will. */
  ghost predicate WakeOwned(s: State) { !s.core.cancelled ==> forall e: Epoch :: Orphaned(s.core, e) ==> Woken(s, e) }

  ghost predicate Alert(s: State) { ExitCause(s.core) && WaitingSubscribed(s.core) && LostWoken(s) && WakeOwned(s) }

  lemma KeepExitCause(max: nat, s: State, a: Action)
    requires ExitCause(s.core) && Enabled(max, s, a)
    ensures ExitCause(Next(max, s, a).core)
  {
    if a.Supervise? {
    } else {
      OthersRaise(max, s, a);
      StuckStays(max, s, a);
      hide StepNext;
    }
  }

  lemma StuckStays(max: nat, s: State, a: Action)
    requires !a.Supervise? && Enabled(max, s, a)
    ensures s.core.stuck ==> Next(max, s, a).core.stuck
  {}

  lemma KeepWaitingSubscribed(max: nat, s: State, a: Action)
    requires Shape(s.core) && WaitingSubscribed(s.core) && Enabled(max, s, a)
    ensures WaitingSubscribed(Next(max, s, a).core)
  {
    if a.Supervise? {
      hide Numbered;
    } else {
      OthersRaise(max, s, a);
      hide StepNext;
    }
  }

  /** How a goroutine's own step bears on the wake-up of `e`. */
  ghost predicate WakeStep(s: State, n: State, t: nat, e: Epoch)
    requires t in s.threads && e in s.core.lives && e in n.core.lives
  {
    var th, mine := s.threads[t], t in n.threads && WillWake(n.threads[t], e);
    && (WillWake(th, e) ==> n.core.lives[e].woken || mine)
    && (s.core.lives[e].woken ==> n.core.lives[e].woken)
    && (n.core.lives[e].failed && !s.core.lives[e].failed ==> mine)
    && (s.core.current == Some(e) && n.core.current != Some(e) ==> th == LostClear(e) || mine)
    && (t in n.threads && n.threads[t] == LostClear(e) ==> n.core.lives[e].woken)
  }

  lemma BreakWakes(max: nat, s: State, t: nat, yes: bool, e: Epoch)
    requires StepEnabled(max, s, t, yes) && Breaking(s.threads[t]) && e in s.core.lives
    ensures e in BreakNext(max, s, t, yes).core.lives && WakeStep(s, BreakNext(max, s, t, yes), t, e)
  {}

  lemma StopWakes(max: nat, s: State, t: nat, yes: bool, e: Epoch)
    requires StepEnabled(max, s, t, yes) && Stopping(s.threads[t]) && ThreadOk(s.core, s.threads[t]) && e in s.core.lives
    requires !StopNext(max, s, t, yes).core.cancelled
    ensures e in StopNext(max, s, t, yes).core.lives && WakeStep(s, StopNext(max, s, t, yes), t, e)
  {}

  lemma StepWakes(max: nat, s: State, t: nat, yes: bool, e: Epoch)
    requires StepEnabled(max, s, t, yes) && ThreadOk(s.core, s.threads[t]) && e in s.core.lives && !StepNext(max, s, t, yes).core.cancelled
    ensures e in StepNext(max, s, t, yes).core.lives && WakeStep(s, StepNext(max, s, t, yes), t, e)
  {
    if Breaking(s.threads[t]) {
      BreakWakes(max, s, t, yes, e);
      hide BreakNext, WakeStep;
    } else if Stopping(s.threads[t]) {
      StopWakes(max, s, t, yes, e);
      hide StopNext, WakeStep;
    }
  }

  lemma KeepLostWoken(max: nat, s: State, a: Action)
    requires Inv(max, s) && LostWoken(s) && Enabled(max, s, a)
    ensures LostWoken(Next(max, s, a))
  {
    hide FailureOwned, Slots, Ops, StuckEnds, Installs, StepNext, SupervisorNext;
    var s' := Next(max, s, a);
    forall t | t in s'.threads && s'.threads[t].LostClear? && s'.threads[t].e in s'.core.lives
      ensures s'.core.lives[s'.threads[t].e].woken
    {
      if a.Supervise? {
        assert ThreadOk(s.core, s.threads[t]);
        SupervisorKeepsWoken(s, a.yes, s.threads[t].e);
      } else {
        OthersRaise(max, s, a);
        if a.Step? {
          OneMoves(max, s, a.t, a.yes);
          if a.t == t { LostClearFrom(max, s, t, a.yes); }
          assert t != a.t ==> t in s'.threads - {a.t} && s'.threads[t] == (s'.threads - {a.t})[t];
        }
      }
    }
  }

  lemma LostClearFrom(max: nat, s: State, t: nat, yes: bool)
    requires StepEnabled(max, s, t, yes) && t in StepNext(max, s, t, yes).threads && StepNext(max, s, t, yes).threads[t].LostClear?
    ensures var n := StepNext(max, s, t, yes); n.threads[t].e in n.core.lives && n.core.lives[n.threads[t].e].woken
  {}

  lemma SupervisorKeepsWoken(s: State, yes: bool, e: Epoch)
    requires Numbered(s.core) && SupervisorEnabled(s, yes) && e in s.core.lives && s.core.lives[e].woken
    ensures e in SupervisorNext(s, yes).lives && SupervisorNext(s, yes).lives[e].woken
  {}

  /** The supervisor orphans nothing itself: what is orphaned after its step was before. */
  lemma SupervisorOrphans(s: State, yes: bool, e: Epoch)
    requires Shape(s.core) && Installs(s.core) && SupervisorEnabled(s, yes) && Orphaned(SupervisorNext(s, yes), e)
    ensures Orphaned(s.core, e) && SupervisorNext(s, yes).lives[e].woken == s.core.lives[e].woken
  {
    hide Increasing, Known, Numbered, OneOpen;
  }

  lemma OrphanedBefore(s: State, n: State, e: Epoch)
    requires Rises(s.core, n.core) && Orphaned(n.core, e) && !Orphaned(s.core, e) && (s.core.pc == Waiting(e) ==> e in s.core.lives)
    ensures e in s.core.lives && ((n.core.lives[e].failed && !s.core.lives[e].failed) || (s.core.current == Some(e) && n.core.current != Some(e)))
  {}

  lemma StepKeepsWakeOwned(max: nat, s: State, t: nat, yes: bool, e: Epoch)
    requires Inv(max, s) && LostWoken(s) && WakeOwned(s) && StepEnabled(max, s, t, yes)
    requires !StepNext(max, s, t, yes).core.cancelled && Orphaned(StepNext(max, s, t, yes).core, e)
    ensures Woken(StepNext(max, s, t, yes), e)
  {
    var n := StepNext(max, s, t, yes);
    assert ThreadOk(s.core, s.threads[t]);
    assert Rises(s.core, n.core) by { StepRaises(max, s, t, yes); }
    assert e in s.core.lives && !s.core.cancelled;
    StepWakes(max, s, t, yes, e);
    OneMoves(max, s, t, yes);
    hide StepNext, Inv, ThreadOk;
    if Orphaned(s.core, e) {
      assert Woken(s, e);
      if !s.core.lives[e].woken {
        var w :| w in s.threads && WillWake(s.threads[w], e);
        assert w != t ==> w in n.threads - {t} && n.threads[w] == (n.threads - {t})[w];
      }
    } else {
      OrphanedBefore(s, n, e);
    }
  }

  lemma KeepWakeOwned(max: nat, s: State, a: Action)
    requires Inv(max, s) && Alert(s) && Enabled(max, s, a)
    ensures WakeOwned(Next(max, s, a))
  {
    hide FailureOwned, Slots, Ops, StuckEnds, Shape, Installs, StepNext, SupervisorNext, ThreadOk, Orphaned, LostWoken;
    var s' := Next(max, s, a);
    if !s'.core.cancelled {
      forall e: Epoch | Orphaned(s'.core, e) ensures e in s'.core.lives && Woken(s', e) {
        assert e in s'.core.lives by { InLives(s'.core, e); }
        if a.Supervise? {
          SupervisorOrphans(s, a.yes, e);
          assert s.core.cancelled == s'.core.cancelled by { SupervisorFlags(s, a.yes); }
          InLives(s.core, e);
          assert Woken(s, e);
        } else if a.Step? {
          StepKeepsWakeOwned(max, s, a.t, a.yes, e);
        } else {
          assert s'.core == s.core;
          assert Woken(s, e);
          if !s.core.lives[e].woken {
            var w :| w in s.threads && WillWake(s.threads[w], e);
            assert w in s'.threads && WillWake(s'.threads[w], e);
          }
        }
      }
    }
  }

  lemma InLives(c: Core, e: Epoch)
    requires Orphaned(c, e)
    ensures e in c.lives
  {}

  lemma SupervisorFlags(s: State, yes: bool)
    requires SupervisorEnabled(s, yes)
    ensures SupervisorNext(s, yes).cancelled == s.core.cancelled && SupervisorNext(s, yes).stopped == s.core.stopped
  {}

  lemma KeepAlert(max: nat, s: State, a: Action)
    requires Inv(max, s) && Alert(s) && Enabled(max, s, a)
    ensures Alert(Next(max, s, a))
  {
    assert Shape(s.core);
    KeepWakeOwned(max, s, a);
    hide Inv, Next, Enabled, ExitCause, WaitingSubscribed, LostWoken, WakeOwned, Shape;
    KeepExitCause(max, s, a);
    KeepWaitingSubscribed(max, s, a);
    KeepLostWoken(max, s, a);
  }

  lemma {:induction false} PathAlert(max: nat, s: State, actions: seq<Action>, t: State)
    requires Inv(max, s) && Alert(s) && Path(max, s, actions, t)
    ensures Inv(max, t) && Alert(t)
    decreases |actions|
  {
    hide Inv, Alert, Next, Enabled;
    if actions != [] {
      KeepInv(max, s, actions[0]);
      KeepAlert(max, s, actions[0]);
      PathAlert(max, Next(max, s, actions[0]), actions[1..], t);
    }
  }

  lemma ReachableAlert(max: nat, s: State)
    requires Reachable(max, s)
    ensures Inv(max, s) && Alert(s)
  {
    var actions :| Reaches(max, actions, s);
    BeginInv(max);
    assert Alert(Begin());
    PathAlert(max, Begin(), actions, s);
  }

  /** The supervisor returns only after a shutdown or a stuck teardown. */
  lemma ExitHasACause(max: nat, s: State)
    requires Reachable(max, s) && s.core.pc.Exit?
    ensures s.core.cancelled || s.core.stopped || s.core.stuck
  {
    ReachableAlert(max, s);
    hide Inv, Reachable;
  }

  // ---- it comes back ----

  ghost predicate LeadsTo(max: nat, s: State, t: State) { exists actions :: Path(max, s, actions, t) }

  lemma {:induction false} PathJoin(max: nat, s: State, p: seq<Action>, m: State, q: seq<Action>, t: State)
    requires Path(max, s, p, m) && Path(max, m, q, t)
    ensures Path(max, s, p + q, t)
    decreases |p|
  {
    hide Next, Enabled;
    if p == [] {
      assert p + q == q;
    } else {
      PathJoin(max, Next(max, s, p[0]), p[1..], m, q, t);
      assert (p + q)[1..] == p[1..] + q;
    }
  }

  lemma Then(max: nat, s: State, m: State, t: State)
    requires LeadsTo(max, s, m) && LeadsTo(max, m, t)
    ensures LeadsTo(max, s, t)
  {
    var p :| Path(max, s, p, m);
    var q :| Path(max, m, q, t);
    PathJoin(max, s, p, m, q, t);
  }

  lemma Stay(max: nat, s: State)
    ensures LeadsTo(max, s, s)
  {
    assert Path(max, s, [], s);
  }

  lemma Once(max: nat, s: State, a: Action)
    requires Inv(max, s) && Enabled(max, s, a)
    ensures LeadsTo(max, s, Next(max, s, a)) && Inv(max, Next(max, s, a))
  {
    hide Inv, Next, Enabled;
    KeepInv(max, s, a);
    var n := Next(max, s, a);
    assert Path(max, n, [], n);
    Cons(max, s, a, n, [], n);
    assert Path(max, s, [a] + [], n);
  }

  /** Neither shut down nor stuck, nor about to record a stuck teardown. */
  predicate Running(c: Core) { !c.stopped && !c.cancelled && !c.stuck && !c.pc.GoStuck? && !c.pc.Exit? }

  function LiveOn(s: State, e: Epoch): set<nat> { set o | o in s.ops && s.ops[o].e == e && s.ops[o].live }

  /** Every running invocation of a lifetime can return. */
  lemma {:induction false} OpsFinish(max: nat, s: State, e: Epoch) returns (t: State)
    requires Inv(max, s)
    ensures LeadsTo(max, s, t) && Inv(max, t) && t.core == s.core && t.Idle(e)
    decreases |LiveOn(s, e)|
  {
    hide Inv, LeadsTo;
    if LiveOn(s, e) == {} {
      assert s.Idle(e) by { forall o | o in s.ops && s.ops[o].e == e ensures !s.ops[o].live { assert o !in LiveOn(s, e); } }
      Stay(max, s);
      t := s;
    } else {
      var o :| o in LiveOn(s, e);
      var n := Next(max, s, FinishOp(o));
      Once(max, s, FinishOp(o));
      assert LiveOn(n, e) == LiveOn(s, e) - {o};
      t := OpsFinish(max, n, e);
      Then(max, s, n, t);
    }
  }

  predicate TearingDown(pc: Pc) {
    pc.Clear? || pc.CloseMark? || pc.CloseSocket? || pc.WaitOps? || pc.Decide? || pc.Discard? || pc.DiscardClose?
  }

  function DownSteps(pc: Pc): nat {
    if pc.Clear? then 6 else if pc.CloseMark? then 5 else if pc.CloseSocket? then 4 else if pc.WaitOps? then 3
    else if pc.Decide? || pc.Discard? then 2 else 1
  }

  lemma DownStep(s: State)
    requires Shape(s.core) && Running(s.core) && TearingDown(s.core.pc) && (s.core.pc.WaitOps? ==> s.Idle(s.core.pc.e))
    ensures SupervisorEnabled(s, true)
    ensures var c := SupervisorNext(s, true); Running(c) && c.latest == s.core.latest && (c.pc.Backoff? || (TearingDown(c.pc) && DownSteps(c.pc) < DownSteps(s.core.pc)))
  {
    hide OneOpen;
  }

  /** A teardown, its invocations returning, ends in the backoff. */
  lemma {:induction false} TeardownEnds(max: nat, s: State) returns (t: State)
    requires Inv(max, s) && Running(s.core) && TearingDown(s.core.pc)
    ensures LeadsTo(max, s, t) && Inv(max, t) && Running(t.core) && t.core.pc.Backoff? && t.core.latest == s.core.latest
    decreases DownSteps(s.core.pc)
  {
    assert Shape(s.core);
    hide Inv, LeadsTo, Shape, SupervisorNext, SupervisorEnabled, Running;
    var m := s;
    if s.core.pc.WaitOps? { m := OpsFinish(max, s, s.core.pc.e); } else { Stay(max, s); }
    DownStep(m);
    var n := Next(max, m, Supervise(true));
    Once(max, m, Supervise(true));
    Then(max, s, m, n);
    if n.core.pc.Backoff? {
      t := n;
    } else {
      t := TeardownEnds(max, n);
      Then(max, s, n, t);
    }
  }

  predicate Between(pc: Pc) { pc.Backoff? || pc.Top? || pc.Connect? }

  /** Between lifetimes the next attempt can succeed, under the next epoch. */
  lemma {:induction false} NextSucceeds(max: nat, s: State) returns (t: State)
    requires Inv(max, s) && Running(s.core) && Between(s.core.pc)
    ensures LeadsTo(max, s, t) && t.core.Ready() && t.core.current == Some(s.core.latest + 1)
    decreases if s.core.pc.Backoff? then 2 else if s.core.pc.Top? then 1 else 0
  {
    hide Inv, LeadsTo;
    var n := Next(max, s, Supervise(true));
    Once(max, s, Supervise(true));
    if s.core.pc.Connect? {
      var m := Next(max, n, Supervise(true));
      Once(max, n, Supervise(true));
      assert OnTrack(m.core) && m.core.pc.e == s.core.latest + 1;
      var actions;
      actions, t := InstallsAfterAll(max, m);
      hide Path, Next;
      assert LeadsTo(max, m, t) by { Reached(max, m, actions, t); }
      Then(max, s, n, m);
      Then(max, s, m, t);
    } else {
      t := NextSucceeds(max, n);
      hide Next;
      Then(max, s, n, t);
    }
  }

  lemma Reached(max: nat, s: State, actions: seq<Action>, t: State)
    requires Path(max, s, actions, t)
    ensures LeadsTo(max, s, t)
  {}

  lemma DownAndUp(max: nat, s: State) returns (t: State)
    requires Inv(max, s) && Running(s.core) && (TearingDown(s.core.pc) || Between(s.core.pc))
    ensures LeadsTo(max, s, t) && t.core.Ready() && t.core.current == Some(s.core.latest + 1)
  {
    hide Inv, LeadsTo, Running;
    if Between(s.core.pc) {
      t := NextSucceeds(max, s);
    } else {
      var m := TeardownEnds(max, s);
      t := NextSucceeds(max, m);
      Then(max, s, m, t);
    }
  }

  function WakeSteps(th: Thread): nat { if th.FailClose? then 2 else if th.FailClear? then 1 else 0 }

  lemma WakerStep(max: nat, s: State, t: nat, e: Epoch)
    requires t in s.threads && WillWake(s.threads[t], e) && e in s.core.lives && s.core.MuFree()
    ensures StepEnabled(max, s, t, true)
    ensures var n := StepNext(max, s, t, true);
      && n.core.pc == s.core.pc && n.core.latest == s.core.latest && e in n.core.lives
      && n.core.stopped == s.core.stopped && n.core.cancelled == s.core.cancelled && n.core.stuck == s.core.stuck
      && (n.core.lives[e].woken || (t in n.threads && WillWake(n.threads[t], e) && WakeSteps(n.threads[t]) < WakeSteps(s.threads[t])))
  {}

  /** The goroutine that will wake the supervisor can run until it has. */
  lemma {:induction false} WakerWakes(max: nat, s: State, t: nat, e: Epoch) returns (n: State)
    requires Inv(max, s) && t in s.threads && WillWake(s.threads[t], e) && e in s.core.lives && s.core.pc == Waiting(e) && Running(s.core)
    ensures LeadsTo(max, s, n) && Inv(max, n) && n.core.pc == s.core.pc && n.core.latest == s.core.latest && Running(n.core)
    ensures e in n.core.lives && n.core.lives[e].woken
    decreases WakeSteps(s.threads[t])
  {
    hide Inv, LeadsTo, StepNext, StepEnabled, WillWake, WakeSteps;
    WakerStep(max, s, t, e);
    var m := Next(max, s, Step(t, true));
    Once(max, s, Step(t, true));
    if m.core.lives[e].woken {
      n := m;
    } else {
      n := WakerWakes(max, m, t, e);
      Then(max, s, m, n);
    }
  }

  /** A supervisor waiting on an orphaned lifetime gets its wake-up and tears it down. */
  lemma OrphanEnds(max: nat, s: State, e: Epoch) returns (t: State)
    requires Inv(max, s) && Alert(s) && Running(s.core) && s.core.pc == Waiting(e) && Orphaned(s.core, e)
    ensures LeadsTo(max, s, t) && t.core.Ready() && t.core.current == Some(s.core.latest + 1)
  {
    assert Woken(s, e);
    var m := s;
    hide Inv, LeadsTo, Alert, WillWake, Orphaned, StepNext;
    if s.core.lives[e].woken {
      Stay(max, s);
    } else {
      var w :| w in s.threads && WillWake(s.threads[w], e);
      m := WakerWakes(max, s, w, e);
    }
    var n := Next(max, m, Supervise(true));
    Once(max, m, Supervise(true));
    Then(max, s, m, n);
    hide Next;
    t := DownAndUp(max, n);
    Then(max, s, n, t);
  }

  /** What an attempt to open a lifetime does next when it has failed, or has a socket to get. */
  lemma OpeningStep(s: State)
    requires Shape(s.core) && Running(s.core) && Opening(s.core.pc) && !TearingDown(s.core.pc)
    ensures var e := s.core.latest; e in s.core.lives && s.core.pc.e == e
    ensures s.core.pc.Dialing? ==> SupervisorEnabled(s, false) && SupervisorNext(s, false) == s.core.At(Discard(s.core.latest))
    ensures s.core.lives[s.core.latest].failed && (s.core.pc.Handshaking? || s.core.pc.Install?) ==>
      SupervisorEnabled(s, true) && SupervisorNext(s, true) == s.core.At(Discard(s.core.latest))
    ensures s.core.lives[s.core.latest].failed && s.core.pc.MarkSubscribed? ==>
      SupervisorEnabled(s, true) && SupervisorNext(s, true) == s.core.Subscribed(s.core.latest).At(Install(s.core.latest))
    ensures s.core.pc.Locked? ==> SupervisorEnabled(s, true)
    ensures s.core.pc.Locked? ==> SupervisorNext(s, true) == s.core.(current := Some(s.core.latest), installed := s.core.installed + [s.core.latest], pc := Waiting(s.core.latest))
  {
    hide OneOpen;
  }

  /** A failed attempt is discarded, and the next one can succeed. */
  lemma FailedAttempt(max: nat, s: State) returns (t: State)
    requires Inv(max, s) && Alert(s) && Running(s.core) && Opening(s.core.pc) && !TearingDown(s.core.pc) && s.core.latest in s.core.lives
    requires s.core.pc.Dialing? || s.core.lives[s.core.latest].failed
    ensures LeadsTo(max, s, t) && t.core.Ready() && t.core.current == Some(s.core.latest + 1)
  {
    assert Shape(s.core);
    OpeningStep(s);
    var a := Supervise(!s.core.pc.Dialing?);
    var n := Next(max, s, a);
    assert Enabled(max, s, a);
    KeepAlert(max, s, a);
    Once(max, s, a);
    hide Inv, LeadsTo, Alert, Shape, SupervisorNext, SupervisorEnabled, Orphaned;
    if s.core.pc.MarkSubscribed? {
      t := FailedInstall(max, n);
    } else if s.core.pc.Locked? {
      assert Orphaned(n.core, s.core.latest) by { Orphans(n.core); }
      t := OrphanEnds(max, n, s.core.latest);
    } else {
      t := DownAndUp(max, n);
    }
    Then(max, s, n, t);
  }

  lemma Orphans(c: Core)
    requires c.pc == Waiting(c.latest) && c.latest in c.lives && c.lives[c.latest].failed
    ensures Orphaned(c, c.latest)
  {}

  lemma FailedInstall(max: nat, s: State) returns (t: State)
    requires Inv(max, s) && Running(s.core) && s.core.pc.Install? && s.core.latest in s.core.lives && s.core.lives[s.core.latest].failed
    ensures LeadsTo(max, s, t) && t.core.Ready() && t.core.current == Some(s.core.latest + 1)
  {
    assert Shape(s.core);
    OpeningStep(s);
    hide Inv, LeadsTo, Shape, SupervisorNext, SupervisorEnabled;
    var n := Next(max, s, Supervise(true));
    Once(max, s, Supervise(true));
    t := DownAndUp(max, n);
    Then(max, s, n, t);
  }

  lemma UnfailedOnTrack(c: Core)
    requires Shape(c) && Running(c) && Opening(c.pc) && !TearingDown(c.pc) && !c.pc.Dialing? && c.latest in c.lives && !c.lives[c.latest].failed
    ensures OnTrack(c) && c.pc.e == c.latest
  {
    hide Numbered, OpenIsLatest, ClosedBetween;
  }

  /** From any reachable state that is neither shut down nor stuck the transport can become
      ready, and where its current lifetime has failed, under a later epoch. */
  lemma CanAlwaysRecover(max: nat, s: State) returns (t: State)
    requires Reachable(max, s) && !s.core.stopped && !s.core.cancelled && !s.core.stuck && !s.core.pc.GoStuck?
    ensures LeadsTo(max, s, t) && t.core.Ready()
    ensures s.core.current.Some? && !s.core.Ready() ==> t.core.current.value > s.core.current.value
  {
    ReachableAlert(max, s);
    var c := s.core;
    assert Running(c) && Shape(c) && (c.current.Some? ==> c.current.value == c.latest && c.latest in c.lives && (c.pc.Waiting? || c.pc.Clear?));
    assert c.pc.Waiting? ==> WaitingSubscribed(c) && c.pc.e == c.latest;
    hide Inv, LeadsTo, Alert, Reachable;
    if TearingDown(c.pc) || Between(c.pc) {
      t := DownAndUp(max, s);
    } else if c.pc.Waiting? {
      if c.Ready() {
        Stay(max, s);
        t := s;
      } else {
        t := OrphanEnds(max, s, c.pc.e);
      }
    } else {
      assert Opening(c.pc) && c.latest in c.lives;
      if c.pc.Dialing? || c.lives[c.latest].failed {
        t := FailedAttempt(max, s);
      } else {
        UnfailedOnTrack(c);
        var actions;
        actions, t := InstallsAfterAll(max, s);
        Reached(max, s, actions, t);
      }
    }
  }
}
