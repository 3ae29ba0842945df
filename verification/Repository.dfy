/** A provisioning or PATCH call on a repository nobody else is using: the transaction's
    statements one after the other, then its commit. */
module Repository {
  import opened Wrappers
  import opened Commits
  import opened Graph
  import opened GraphRuns
  import opened GraphSafety
  import opened GraphVetting

  /** Statements only lead forward. */
  function Rank(pc: Pc): nat {
    match pc
    case Begin => 9
    case CheckMember => 8
    case FindParent => 7
    case LockSensor => 7
    case InsertSensor => 6
    case FindSensorParent => 6
    case InsertOwner => 5
    case InsertSensorTwin => 5
    case LockSensorTwin => 5
    case ReplayGateway => 5
    case ReplaySensor => 5
    case LockTwin => 5
    case InsertGatewayTwin => 4
    case InsertSensorState => 4
    case ReplayOwner => 4
    case WriteGateway => 4
    case WriteSensor => 4
    case InsertGatewayState => 3
    case InsertEdge => 3
    case ReplayGatewayTwin => 3
    case ReplaySensorTwin => 3
    case StampGateway => 3
    case StampSensor => 3
    case Committing(_) => 0
  }

  lemma GatewayRank(db: Db, tx: Txn)
    requires tx.call.NewGateway? && NewGatewayFacts(db, tx) && !tx.pc.Committing? && GatewayStatement(db, Locking(db, tx)).Go?
    ensures Rank(GatewayStatement(db, Locking(db, tx)).tx.pc) < Rank(tx.pc)
  {
    hide CreatingGateway, SameGatewayRow, GatewayTwinOk, Owners;
  }

  lemma SensorRank(db: Db, tx: Txn)
    requires tx.call.NewSensor? && NewSensorFacts(db, tx) && !tx.pc.Committing? && SensorStatement(db, Locking(db, tx)).Go?
    ensures Rank(SensorStatement(db, Locking(db, tx)).tx.pc) < Rank(tx.pc)
  {
    hide CreatingSensor, SameSensorRow, Admitted, HasParent, GatewayTwinOk, SensorTwinOk, Owners;
  }

  lemma RankFalls(db: Db, now: Time, tx: Txn)
    requires Facts(db, tx) && !tx.pc.Committing? && Statement(db, now, Locking(db, tx)).Go?
    ensures Rank(Statement(db, now, Locking(db, tx)).tx.pc) < Rank(tx.pc)
  {
    hide GatewayStatement, SensorStatement, Rank, NewGatewayFacts, NewSensorFacts, Locking, EditGatewayStatement, EditSensorStatement;
    assert Locking(db, tx).call == tx.call by { LockingCall(db, tx); }
    match tx.call
    case NewGateway(_, _, _, _, _, _) => GatewayRank(db, tx);
    case NewSensor(_, _, _, _, _, _, _) => SensorRank(db, tx);
    case EditGateway(_, _, _, _) => EditGatewayRank(db, now, tx);
    case EditSensor(_, _, _, _, _) => EditSensorRank(db, now, tx);
  }

  lemma EditGatewayRank(db: Db, now: Time, tx: Txn)
    requires tx.call.EditGateway? && EditGatewayFacts(db, tx) && !tx.pc.Committing? && EditGatewayStatement(db, now, Locking(db, tx)).Go?
    ensures Rank(EditGatewayStatement(db, now, Locking(db, tx)).tx.pc) < Rank(tx.pc)
  {
    hide EditingGateway, GatewayTwinOk;
  }

  lemma EditSensorRank(db: Db, now: Time, tx: Txn)
    requires tx.call.EditSensor? && EditSensorFacts(db, tx) && !tx.pc.Committing? && EditSensorStatement(db, now, Locking(db, tx)).Go?
    ensures Rank(EditSensorStatement(db, now, Locking(db, tx)).tx.pc) < Rank(tx.pc)
  {
    hide EditingSensor, Admitted, HasParent, GatewayTwinOk, SensorTwinOk;
  }

  /** A create does not depend on the time of its last write. */
  lemma CreateIgnoresNow(db: Db, c: Call, started: Time, at: Time, now: Time)
    requires WellFormed(db) && (c.NewGateway? || c.NewSensor?)
    ensures Expected(db, c, started, at) == Expected(db, c, started, now)
  {
    hide WellFormed, ExpectedNewGateway, ExpectedNewSensor;
  }

  /** A PATCH carries the time of its last statement, or writes nothing. */
  lemma EditGatewayNow(db: Db, now: Time, tx: Txn)
    requires WellFormed(db) && tx.call.EditGateway? && EditGatewayFacts(db, tx) && !tx.pc.Committing?
    requires EditGatewayStatement(db, now, Locking(db, tx)).Go? && EditGatewayStatement(db, now, Locking(db, tx)).tx.pc.Committing?
    ensures Expected(db, tx.call, tx.started, EditGatewayStatement(db, now, Locking(db, tx)).tx.at) == Expected(db, tx.call, tx.started, now)
  {
    if tx.pc.LockTwin? { assert GatewayOk(db, tx.call.g); }
    hide WellFormed, GatewayTwinOk;
  }

  lemma EditSensorNow(db: Db, now: Time, tx: Txn)
    requires WellFormed(db) && tx.call.EditSensor? && EditSensorFacts(db, tx) && !tx.pc.Committing?
    requires EditSensorStatement(db, now, Locking(db, tx)).Go? && EditSensorStatement(db, now, Locking(db, tx)).tx.pc.Committing?
    ensures Expected(db, tx.call, tx.started, EditSensorStatement(db, now, Locking(db, tx)).tx.at) == Expected(db, tx.call, tx.started, now)
  {
    hide WellFormed, SensorTwinOk, GatewayTwinOk, Access;
  }

  lemma TimeIsNow(db: Db, now: Time, tx: Txn)
    requires WellFormed(db) && Facts(db, tx) && !tx.pc.Committing?
    requires Statement(db, now, Locking(db, tx)).Go? && Statement(db, now, Locking(db, tx)).tx.pc.Committing?
    ensures Expected(db, tx.call, tx.started, Statement(db, now, Locking(db, tx)).tx.at) == Expected(db, tx.call, tx.started, now)
  {
    hide WellFormed, Expected, Locking, GatewayStatement, SensorStatement, EditGatewayStatement, EditSensorStatement;
    hide NewGatewayFacts, NewSensorFacts, EditGatewayFacts, EditSensorFacts;
    LockingCall(db, tx);
    var at := Statement(db, now, Locking(db, tx)).tx.at;
    if tx.call.NewGateway? || tx.call.NewSensor? { CreateIgnoresNow(db, tx.call, tx.started, at, now); }
    if tx.call.EditGateway? { EditGatewayNow(db, now, tx); }
    if tx.call.EditSensor? { EditSensorNow(db, now, tx); }
  }

  /** Whoever reaches the commit was let in. */
  lemma CommitAuthorised(db: Db, tx: Txn)
    requires Facts(db, tx) && tx.pc.Committing?
    ensures Authorised(db.members, tx.call)
  {
    hide Authorised;
    assert Access(db, tx.call).None?;
    AccessMeans(db, tx.call);
  }

  class Repository {
    var db: Db

    constructor (db: Db)
      ensures this.db == db
    {
      this.db := db;
    }

    /** Runs the call to its end, on any graph the foreign keys allow.  A refusal, a rollback
        and a commit that did not land change nothing; a success leaves its own part of
        the graph in order, and only an authorised call succeeds.  On a well-formed graph
        reply and tables are those of the atomic call, every refusal has its reason and every
        change is the one asked for, and the graph stays well formed. */
    method Perform(c: Call, started: Time, now: Time, fate: Commit) returns (reply: Reply)
      requires ForeignKeys(db) && Timely(db, now)
      modifies this
      ensures reply.Refused? || !Lands(fate) ==> db == old(db)
      ensures !reply.Refused? ==> Authorised(old(db).members, c)
      ensures !reply.Refused? && Lands(fate) ==> InOrder(db, c)
      ensures WellFormed(old(db)) ==> Justified(old(db), c, reply)
      ensures WellFormed(old(db)) && Lands(fate) ==> Effect(old(db), db, c, reply, started, now)
      ensures WellFormed(old(db)) ==> WellFormed(db) && reply == Expected(old(db), c, started, now).reply
      ensures WellFormed(old(db)) && Lands(fate) ==> db == Expected(old(db), c, started, now).db
    {
      hide WellFormed, ForeignKeys, Timely, Facts, Vetted, InOrder, Expected, Statement, Locking, Apply, Authorised, Justified, Effect;
      var tx := Txn(c, started, Begin, Free, false, "", "", None, 0, []);
      Fresh(db, tx);
      FreshVetted(db, tx);
      if WellFormed(db) { ExpectedJustified(db, c, started, now); ExpectedEffect(db, c, started, now); }
      while !tx.pc.Committing?
        invariant db == old(db) && Facts(db, tx) && Vetted(db, tx) && tx.call == c && tx.started == started
        invariant WellFormed(db) && tx.pc.Committing? ==> Expected(db, c, started, tx.at) == Expected(db, c, started, now)
        decreases Rank(tx.pc)
      {
        var step := Statement(db, now, Locking(db, tx));
        if WellFormed(db) { StatementStep(db, now, tx); }
        if step.Stop? { return Refused(step.error); }
        VettedStep(db, now, tx);
        SameStart(db, now, tx);
        RankFalls(db, now, tx);
        if WellFormed(db) && step.tx.pc.Committing? { TimeIsNow(db, now, tx); }
        tx := step.tx;
      }
      SuccessMeansInOrder(db, tx);
      NeverRefused(db, tx);
      CommitAuthorised(db, tx);
      if WellFormed(db) {
        CommitMatches(db, tx);
        ExpectedKeeps(db, c, started, now);
      }
      reply := tx.pc.reply;
      if Lands(fate) { db := Apply(db, tx.writes); }
    }
  }
}
