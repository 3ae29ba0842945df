/** What every interleaving of provisioning and PATCH transactions keeps. */
module GraphTheorems {
  import opened Wrappers
  import opened Commits
  import opened Graph
  import opened GraphRuns
  import opened GraphSafety

  /** Rows are never deleted. */
  ghost predicate Grows(d: Db, e: Db) { d.gateways.Keys <= e.gateways.Keys && d.sensors.Keys <= e.sensors.Keys }

  /** Everything `tx` has locked is the same in both. */
  ghost predicate Protected(d: Db, e: Db, tx: Txn) {
    && Grows(d, e)
    && (!tx.gateway.Free? ==> SameGateway(d, e, tx.call.g))
    && (tx.sensor && tx.OfSensor() ==> SameSensor(d, e, tx.call.g, tx.call.s))
  }

  lemma KeepAdmitted(d: Db, e: Db, tx: Txn)
    requires HasParent(d, tx) && SameGateway(d, e, tx.call.g)
    ensures HasParent(e, tx) && (Admitted(d, tx) ==> Admitted(e, tx))
  {}

  lemma KeepNewGateway(d: Db, e: Db, tx: Txn)
    requires tx.call.NewGateway? && NewGatewayFacts(d, tx) && Protected(d, e, tx)
    ensures NewGatewayFacts(e, tx)
  {
    if !tx.gateway.Free? { SameOwners(d, e, tx.call.g); }
    hide Owners;
  }

  lemma KeepNewSensor(d: Db, e: Db, tx: Txn)
    requires tx.call.NewSensor? && NewSensorFacts(d, tx) && Protected(d, e, tx)
    ensures NewSensorFacts(e, tx)
  {
    if !tx.pc.Begin? { KeepAdmitted(d, e, tx); }
    hide Admitted, HasParent, SameGateway;
  }

  lemma KeepEditGateway(d: Db, e: Db, tx: Txn)
    requires tx.call.EditGateway? && EditGatewayFacts(d, tx) && Protected(d, e, tx)
    ensures EditGatewayFacts(e, tx)
  {}

  lemma KeepEditSensor(d: Db, e: Db, tx: Txn)
    requires tx.call.EditSensor? && EditSensorFacts(d, tx) && Protected(d, e, tx)
    ensures EditSensorFacts(e, tx)
  {
    if !tx.pc.Begin? { KeepAdmitted(d, e, tx); }
    hide Admitted, HasParent, SameGateway;
  }

  /** Facts rest on locked rows only, so they survive whatever keeps those. */
  lemma KeepFacts(d: Db, e: Db, tx: Txn)
    requires Facts(d, tx) && Protected(d, e, tx)
    ensures Facts(e, tx)
  {
    hide Protected, NewGatewayFacts, NewSensorFacts, EditGatewayFacts, EditSensorFacts;
    match tx.call
    case NewGateway(_, _, _, _, _, _) => KeepNewGateway(d, e, tx);
    case NewSensor(_, _, _, _, _, _, _) => KeepNewSensor(d, e, tx);
    case EditGateway(_, _, _, _) => KeepEditGateway(d, e, tx);
    case EditSensor(_, _, _, _, _) => KeepEditSensor(d, e, tx);
  }

  lemma SensorNeedsGateway(db: Db, tx: Txn)
    requires Facts(db, tx) && tx.sensor
    ensures !tx.gateway.Free? && tx.OfSensor()
  {
    hide Access;
  }

  /** A transaction about to commit holds what it writes. */
  lemma CommitHolds(db: Db, tx: Txn)
    requires Facts(db, tx) && tx.pc.Committing?
    ensures if tx.OfSensor() then tx.sensor else tx.gateway.Exclusive?
  {
    hide Access;
  }

  lemma Untouched(db: Db, e: Db)
    requires e == db
    ensures forall g :: OnlyGateway(db, e, g)
    ensures forall g, s :: OnlySensor(db, e, g, s)
  {}

  /** A call changes its own gateway's part, or its own sensor's part, and nothing else. */
  lemma ExpectedFrame(db: Db, c: Call, started: Time, now: Time)
    requires WellFormed(db)
    ensures var e := Expected(db, c, started, now).db;
      && Grows(db, e)
      && if c.NewGateway? || c.EditGateway? then OnlyGateway(db, e, c.g) else OnlySensor(db, e, c.g, c.s)
  {
    hide WellFormed;
    var e := Expected(db, c, started, now).db;
    if e == db {
      Untouched(db, e);
    } else if c.NewGateway? {
      AddGatewayFrame(db, c.g, GatewayRow(c.name, c.description, started), c.owner);
      hide OnlyGateway, OnlySensor;
    } else if c.NewSensor? {
      AddSensorFrame(db, c.g, c.s, SensorRow(c.name, c.unit, started));
      hide OnlyGateway, OnlySensor;
    } else if c.EditGateway? {
      GatewayHasTwin(db, c.g);
      SetGatewayFrame(db, c.g, Target(c.newName, db.gateways[c.g].name), Target(c.newDescription, db.gateways[c.g].description), now);
      hide OnlyGateway, OnlySensor;
    } else {
      SetSensorFrame(db, c.g, c.s, c.toName, now);
      hide OnlyGateway, OnlySensor;
    }
  }

  /** The commit of one transaction leaves alone what any other has locked. */
  lemma CommitProtects(db: Db, tx: Txn, o: Txn)
    requires WellFormed(db) && Facts(db, tx) && tx.pc.Committing? && Facts(db, o) && !Clash(tx, o)
    ensures Protected(db, Apply(db, tx.writes), o)
  {
    CommitMatches(db, tx);
    ExpectedFrame(db, tx.call, tx.started, tx.at);
    CommitHolds(db, tx);
    if o.sensor { SensorNeedsGateway(db, o); }
    hide WellFormed, Facts, Expected, Apply, SameGateway, SameSensor, Grows;
  }

  // ---- serialisation in commit order ----

  /** The graph after running the logged calls one at a time, each alone. */
  ghost function Final(db: Db, log: seq<Entry>): (e: Db)
    requires WellFormed(db)
    ensures WellFormed(e)
    decreases |log|
  {
    if log == [] then db
    else
      var x, p := log[|log| - 1], Final(db, log[..|log| - 1]);
      ExpectedKeeps(p, x.call, x.started, x.now);
      Expected(p, x.call, x.started, x.now).db
  }

  /** The i-th caller was told what it would have been told had the calls run one by one. */
  ghost predicate ReplyOk(db: Db, log: seq<Entry>, i: nat)
    requires WellFormed(db) && i < |log|
  {
    log[i].reply == Expected(Final(db, log[..i]), log[i].call, log[i].started, log[i].now).reply
  }

  ghost predicate Serial(db: Db, log: seq<Entry>, e: Db)
    requires WellFormed(db)
  {
    e == Final(db, log) && forall i :: 0 <= i < |log| ==> ReplyOk(db, log, i)
  }

  lemma SerialNext(db: Db, log: seq<Entry>, e: Db, x: Entry)
    requires WellFormed(db) && WellFormed(e) && Serial(db, log, e)
    requires x.reply == Expected(e, x.call, x.started, x.now).reply
    ensures Serial(db, log + [x], Expected(e, x.call, x.started, x.now).db)
  {
    hide WellFormed, Expected;
    var more := log + [x];
    assert more[..|log|] == log;
    forall i | 0 <= i < |more| ensures ReplyOk(db, more, i) {
      if i < |log| {
        assert ReplyOk(db, log, i);
        assert more[..i] == log[..i];
      }
    }
  }

  // ---- the invariant ----

  predicate Punctual(tx: Txn, clock: Time) {
    tx.started <= clock && (tx.call.EditGateway? || tx.call.EditSensor? ==> tx.at <= clock)
  }

  ghost predicate TxnOk(s: State, tx: Txn) { Facts(s.db, tx) && Punctual(tx, s.clock) }
  ghost predicate Txns(s: State) { forall t :: t in s.txns ==> TxnOk(s, s.txns[t]) }
  ghost predicate Apart(s: State) { forall t, o :: t in s.txns && o in s.txns && t != o ==> !Clash(s.txns[t], s.txns[o]) }

  ghost predicate Inv(db: Db, s: State) {
    && WellFormed(db) && WellFormed(s.db) && Timely(s.db, s.clock)
    && Txns(s) && Apart(s) && Serial(db, s.log, s.db)
  }

  lemma EditGatewayAt(db: Db, now: Time, tx: Txn)
    requires tx.call.EditGateway? && EditGatewayStatement(db, now, tx).Go? && Timely(db, now) && tx.at <= now
    ensures EditGatewayStatement(db, now, tx).tx.at <= now
  {
    hide GatewayTwinOk;
  }

  lemma EditSensorAt(db: Db, now: Time, tx: Txn)
    requires tx.call.EditSensor? && EditSensorStatement(db, now, tx).Go? && Timely(db, now) && tx.at <= now
    ensures EditSensorStatement(db, now, tx).tx.at <= now
  {
    hide GatewayTwinOk, SensorTwinOk;
  }

  lemma StepPunctual(db: Db, now: Time, tx: Txn)
    requires WellFormed(db) && Timely(db, now) && Punctual(tx, now) && Facts(db, tx) && !tx.pc.Committing?
    requires Statement(db, now, Locking(db, tx)).Go?
    ensures Punctual(Statement(db, now, Locking(db, tx)).tx, now)
  {
    StatementStep(db, now, tx);
    var l := Locking(db, tx);
    assert l.call == tx.call && l.at == tx.at;
    hide WellFormed, Facts, Locking, EditGatewayStatement, EditSensorStatement, Timely, Expected, GatewayStatement, SensorStatement;
    if tx.call.EditGateway? { EditGatewayAt(db, now, l); }
    if tx.call.EditSensor? { EditSensorAt(db, now, l); }
  }

  predicate SameLocks(a: Txn, b: Txn) { a.call == b.call && a.gateway == b.gateway && a.sensor == b.sensor }

  lemma GatewayStatementLocks(db: Db, tx: Txn)
    requires tx.call.NewGateway? && GatewayStatement(db, tx).Go?
    ensures SameLocks(GatewayStatement(db, tx).tx, tx)
  {}

  lemma SensorStatementLocks(db: Db, tx: Txn)
    requires tx.call.NewSensor? && SensorStatement(db, tx).Go?
    ensures SameLocks(SensorStatement(db, tx).tx, tx)
  {}

  lemma StepLocks(db: Db, now: Time, tx: Txn)
    requires Statement(db, now, tx).Go?
    ensures SameLocks(Statement(db, now, tx).tx, tx)
  {
    hide GatewayStatement, SensorStatement;
    if tx.call.NewGateway? { GatewayStatementLocks(db, tx); }
    if tx.call.NewSensor? { SensorStatementLocks(db, tx); }
  }

  lemma SameClash(a: Txn, b: Txn, o: Txn)
    requires SameLocks(a, b)
    ensures Clash(a, o) <==> Clash(b, o)
    ensures Clash(o, a) <==> Clash(o, b)
    ensures Clash(a, o) <==> Clash(o, a)
  {}

  /** Twins keep their rows and their times only move forward. */
  ghost predicate Later(d: Db, e: Db) {
    forall u :: u in d.twins ==> u in e.twins && d.twins[u].updatedAt <= e.twins[u].updatedAt
  }

  /** One twin is added, or gets a time not before its own and not after the clock. */
  lemma OneTwin(d: Db, e: Db, u: Urn, clock: Time)
    requires Timely(d, clock) && u in e.twins && e.twins == d.twins[u := e.twins[u]]
    requires e.twins[u].updatedAt <= clock && (u in d.twins ==> d.twins[u].updatedAt <= e.twins[u].updatedAt)
    ensures Timely(e, clock) && Later(d, e)
  {}

  lemma SameTwins(d: Db, clock: Time)
    requires Timely(d, clock)
    ensures Later(d, d)
  {}

  lemma CommitTimes(db: Db, tx: Txn, clock: Time)
    requires WellFormed(db) && Facts(db, tx) && tx.pc.Committing? && Timely(db, clock) && Punctual(tx, clock)
    ensures Timely(Apply(db, tx.writes), clock) && Later(db, Apply(db, tx.writes))
  {
    hide WellFormed, Apply, Owners, GatewayTwins, Access, Timely, Later;
    var c, e := tx.call, Apply(db, tx.writes);
    CommitMatches(db, tx);
    Sound(db, c.g, if tx.OfSensor() then c.s else "");
    if e == db {
      SameTwins(db, clock);
    } else if tx.OfSensor() {
      hide EditGatewayFacts, NewGatewayFacts, GatewaySound;
      OneTwin(db, e, SensorUrn(c.g, c.s), clock);
    } else {
      hide EditSensorFacts, NewSensorFacts, SensorSound;
      OneTwin(db, e, GatewayUrn(c.g), clock);
    }
  }

  // ---- every step ----

  lemma KeepRun(db: Db, s: State, t: nat)
    requires Inv(db, s) && Enabled(s, Run(t))
    ensures Inv(db, Next(s, Run(t)))
  {
    hide WellFormed, Timely, Facts, Punctual, Statement, Locking, Clash, Serial, Expected;
    var tx := s.txns[t];
    assert TxnOk(s, tx);
    var l := Locking(s.db, tx);
    StatementStep(s.db, s.clock, tx);
    var s' := Next(s, Run(t));
    if Statement(s.db, s.clock, l).Go? {
      var n := Statement(s.db, s.clock, l).tx;
      StepPunctual(s.db, s.clock, tx);
      StepLocks(s.db, s.clock, l);
      forall o | o in s.txns && o != t ensures !Clash(n, s.txns[o]) && !Clash(s.txns[o], n) {
        SameClash(n, l, s.txns[o]);
      }
      hide SameLocks;
      assert Txns(s') by { forall o | o in s'.txns ensures TxnOk(s', s'.txns[o]) { assert o != t ==> TxnOk(s, s.txns[o]); } }
    } else {
      SerialNext(db, s.log, s.db, Entry(tx.call, tx.started, s.clock, Refused(Statement(s.db, s.clock, l).error)));
      assert Txns(s') by { forall o | o in s'.txns ensures TxnOk(s', s'.txns[o]) { assert TxnOk(s, s.txns[o]); } }
    }
  }

  lemma KeepEnd(db: Db, s: State, t: nat, fate: Commit)
    requires Inv(db, s) && Enabled(s, End(t, fate))
    ensures Inv(db, Next(s, End(t, fate))) && Later(s.db, Next(s, End(t, fate)).db)
  {
    hide WellFormed, Timely, Facts, Punctual, Clash, Serial, Expected, Apply, Later;
    var tx, s' := s.txns[t], Next(s, End(t, fate));
    assert TxnOk(s, tx);
    if Lands(fate) {
      CommitMatches(s.db, tx);
      ExpectedKeeps(s.db, tx.call, tx.started, tx.at);
      CommitTimes(s.db, tx, s.clock);
      SerialNext(db, s.log, s.db, Entry(tx.call, tx.started, tx.at, tx.pc.reply));
      forall o | o in s'.txns ensures TxnOk(s', s'.txns[o]) {
        assert TxnOk(s, s.txns[o]);
        CommitProtects(s.db, tx, s.txns[o]);
        KeepFacts(s.db, s'.db, s.txns[o]);
      }
    } else {
      SameTwins(s.db, s.clock);
      forall o | o in s'.txns ensures TxnOk(s', s'.txns[o]) { assert TxnOk(s, s.txns[o]); }
    }
  }

  lemma KeepOther(db: Db, s: State, a: Action)
    requires Inv(db, s) && Enabled(s, a) && (a.Tick? || a.Call? || a.Abort?)
    ensures Inv(db, Next(s, a))
  {
    hide WellFormed, Facts, Serial;
    var s' := Next(s, a);
    forall o | o in s'.txns ensures TxnOk(s', s'.txns[o]) {
      if o in s.txns { assert TxnOk(s, s.txns[o]); } else { Fresh(s.db, s'.txns[o]); }
    }
  }

  lemma OnlyEndWrites(s: State, a: Action)
    requires Enabled(s, a) && !a.End?
    ensures Next(s, a).db == s.db
  {
    hide Statement, Locking;
  }

  lemma KeepInv(db: Db, s: State, a: Action)
    requires Inv(db, s) && Enabled(s, a)
    ensures Inv(db, Next(s, a)) && Later(s.db, Next(s, a).db)
  {
    assert Timely(s.db, s.clock);
    SameTwins(s.db, s.clock);
    if !a.End? { OnlyEndWrites(s, a); }
    hide Inv, Enabled, Next, Later, Timely;
    match a
    case Run(t) => KeepRun(db, s, t);
    case End(t, fate) => KeepEnd(db, s, t, fate);
    case _ => KeepOther(db, s, a);
  }

  // ---- whole runs ----

  ghost predicate Path(s: State, actions: seq<Action>, t: State)
    decreases |actions|
  {
    if actions == [] then s == t else Enabled(s, actions[0]) && Path(Next(s, actions[0]), actions[1..], t)
  }

  function Rest(db: Db, clock: Time): State { State(db, clock, map[], []) }

  lemma {:induction false} PathInv(db: Db, s: State, actions: seq<Action>, t: State)
    requires Inv(db, s) && Path(s, actions, t)
    ensures Inv(db, t) && Later(s.db, t.db)
    decreases |actions|
  {
    hide Inv, Next, Enabled;
    if actions != [] {
      KeepInv(db, s, actions[0]);
      PathInv(db, Next(s, actions[0]), actions[1..], t);
    }
  }

  lemma RestInv(db: Db, clock: Time)
    requires WellFormed(db) && Timely(db, clock)
    ensures Inv(db, Rest(db, clock))
  {}

  /** The i-th finished call, judged by the tables before and after it alone: whoever was
      served was authorised then, every refusal had its reason, and the change is the one
      asked for. */
  ghost predicate EntryLawful(db: Db, log: seq<Entry>, i: nat)
    requires WellFormed(db) && i < |log|
  {
    var d, e, x := Final(db, log[..i]), Final(db, log[..i + 1]), log[i];
    Justified(d, x.call, x.reply) && Effect(d, e, x.call, x.reply, x.started, x.now)
  }

  lemma ReplyLawful(db: Db, log: seq<Entry>, i: nat)
    requires WellFormed(db) && i < |log| && ReplyOk(db, log, i)
    ensures EntryLawful(db, log, i)
  {
    hide WellFormed, Expected, Justified, Effect;
    var d, x := Final(db, log[..i]), log[i];
    assert log[..i + 1][..i] == log[..i] && log[..i + 1][i] == x;
    ExpectedJustified(d, x.call, x.started, x.now);
    ExpectedEffect(d, x.call, x.started, x.now);
  }

  /** From any well-formed graph, after any interleaving of calls, commits with lost
      confirmations and aborts: the graph is well formed, and it and every reply are those
      of the finished calls run one at a time in the order they ended, each of them lawful.
      So a refusal changed nothing and none of them ever said Inconsistent. */
  lemma SerialisedInCommitOrder(db: Db, clock: Time, actions: seq<Action>, s: State)
    requires WellFormed(db) && Timely(db, clock) && Path(Rest(db, clock), actions, s)
    ensures WellFormed(s.db) && s.db == Final(db, s.log)
    ensures forall i :: 0 <= i < |s.log| ==> ReplyOk(db, s.log, i) && EntryLawful(db, s.log, i)
    ensures forall i :: 0 <= i < |s.log| ==> s.log[i].reply != Refused(Inconsistent) && s.log[i].reply != Refused(UniqueViolation)
  {
    RestInv(db, clock);
    PathInv(db, Rest(db, clock), actions, s);
    hide WellFormed, Expected, Path, Inv, Effect;
    assert Serial(db, s.log, s.db);
    forall i | 0 <= i < |s.log|
      ensures EntryLawful(db, s.log, i) && s.log[i].reply != Refused(Inconsistent) && s.log[i].reply != Refused(UniqueViolation)
    {
      assert ReplyOk(db, s.log, i);
      ReplyLawful(db, s.log, i);
    }
  }

  // ---- locks never deadlock ----

  /** The transaction waits for nobody. */
  ghost predicate CanMove(s: State, t: nat) { Enabled(s, Run(t)) || Enabled(s, End(t, Commits)) }

  /** Only the first statements take a gateway lock, and only those that insert or select the
      sensor take a sensor lock; whoever holds a sensor lock takes none. */
  lemma LockOrder(db: Db, tx: Txn)
    requires Facts(db, tx)
    ensures !tx.gateway.Free? ==> Locking(db, tx).gateway == tx.gateway
    ensures tx.sensor ==> Locking(db, tx) == tx
    ensures tx.gateway.Free? ==> !tx.sensor && !Locking(db, tx).sensor
    ensures Locking(db, tx).call == tx.call
  {
    hide Access;
  }

  /** In every reachable state with open transactions one of them can take its next step or
      commit: a holder of a sensor lock if there is one, else a holder of a gateway lock,
      else anyone. */
  lemma NoDeadlock(db: Db, clock: Time, actions: seq<Action>, s: State)
    requires WellFormed(db) && Timely(db, clock) && Path(Rest(db, clock), actions, s) && s.txns != map[]
    ensures exists t :: CanMove(s, t)
  {
    RestInv(db, clock);
    PathInv(db, Rest(db, clock), actions, s);
    SomeoneMoves(db, s);
  }

  lemma SomeoneMoves(db: Db, s: State)
    requires Inv(db, s) && s.txns != map[]
    ensures exists t :: CanMove(s, t)
  {
    hide WellFormed, Timely, Facts, Locking, Serial, Statement;
    forall t | t in s.txns ensures Facts(s.db, s.txns[t]) { assert TxnOk(s, s.txns[t]); }
    forall t | t in s.txns ensures LockOrdered(s, t) { LockOrder(s.db, s.txns[t]); }
    if t :| t in s.txns && s.txns[t].sensor {
      assert LockOrdered(s, t);
      assert CanMove(s, t);
    } else if t :| t in s.txns && !s.txns[t].gateway.Free? {
      assert LockOrdered(s, t);
      forall o | o in s.txns && o != t ensures !Clash(Locking(s.db, s.txns[t]), s.txns[o]) { assert !Clash(s.txns[t], s.txns[o]); }
      assert CanMove(s, t);
    } else {
      var t :| t in s.txns;
      assert LockOrdered(s, t);
      assert CanMove(s, t);
    }
  }

  ghost predicate LockOrdered(s: State, t: nat)
    requires t in s.txns
  {
    var tx, l := s.txns[t], Locking(s.db, s.txns[t]);
    && (!tx.gateway.Free? ==> l.gateway == tx.gateway) && (tx.sensor ==> l == tx)
    && (tx.gateway.Free? ==> !tx.sensor && !l.sensor) && l.call == tx.call
  }

  /** With a database clock that does not go back, no twin's updated_at ever does, and no
      twin disappears. */
  lemma UpdatedAtNeverRegresses(db: Db, clock: Time, before: seq<Action>, s: State, after: seq<Action>, t: State)
    requires WellFormed(db) && Timely(db, clock) && Path(Rest(db, clock), before, s) && Path(s, after, t)
    ensures forall u :: u in s.db.twins ==> u in t.db.twins && s.db.twins[u].updatedAt <= t.db.twins[u].updatedAt
  {
    RestInv(db, clock);
    PathInv(db, Rest(db, clock), before, s);
    PathInv(db, s, after, t);
  }

  /** What a caller is told when its commit is confirmed is what the tables then hold. */
  lemma ReplyIsStored(db: Db, clock: Time, actions: seq<Action>, s: State, t: nat)
    requires WellFormed(db) && Timely(db, clock) && Path(Rest(db, clock), actions, s) && Enabled(s, End(t, Commits))
    ensures Truthful(Next(s, End(t, Commits)).db, s.txns[t].call, s.txns[t].pc.reply)
  {
    RestInv(db, clock);
    PathInv(db, Rest(db, clock), actions, s);
    hide WellFormed, Expected, Facts, Truthful, Apply;
    var tx := s.txns[t];
    assert TxnOk(s, tx);
    CommitMatches(s.db, tx);
    ReplyIsCommittedRow(s.db, tx.call, tx.started, tx.at);
  }
}
