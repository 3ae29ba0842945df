/** On a graph that may be corrupt: the calls verify what they touch and never repair it.
    Only what the database enforces by foreign keys is taken for granted. */
module GraphVetting {
  import opened Wrappers
  import opened Graph
  import opened GraphRuns
  import opened GraphSafety

  ghost predicate ForeignKeys(db: Db) {
    && (forall p :: p in db.members ==> p.1 in db.gateways)
    && (forall u :: u in db.twins ==> db.twins[u].gateway in db.gateways)
    && (forall k :: k in db.sensors ==> k.0 in db.gateways)
    && db.states <= db.twins.Keys
  }

  /** What the statements so far have found in order. */
  ghost predicate Vetted(db: Db, tx: Txn) {
    var c := tx.call;
    match tx.pc
    case InsertSensor => GatewayTwinOk(db, c.g, tx.name)
    case InsertSensorTwin => GatewayTwinOk(db, c.g, tx.name)
    case InsertSensorState => tx.OfSensor() && GatewayTwinOk(db, c.g, tx.name) && SensorUrn(c.g, c.s) !in db.twins
    case InsertEdge => tx.OfSensor() && GatewayTwinOk(db, c.g, tx.name) && SensorUrn(c.g, c.s) !in db.twins
    case ReplaySensor => GatewayTwinOk(db, c.g, tx.name)
    case ReplaySensorTwin => GatewayTwinOk(db, c.g, tx.name)
    case ReplayGatewayTwin => |Owners(db, c.g)| == 1
    case WriteGateway => GatewayTwinOk(db, c.g, tx.name)
    case StampGateway => GatewayTwinOk(db, c.g, tx.name)
    case LockSensorTwin => GatewayTwinOk(db, c.g, tx.name)
    case WriteSensor => tx.OfSensor() && GatewayTwinOk(db, c.g, tx.name) && SensorTwinOk(db, c.g, c.s, tx.own)
    case StampSensor => tx.OfSensor() && GatewayTwinOk(db, c.g, tx.name) && SensorTwinOk(db, c.g, c.s, tx.own)
    case Committing(_) =>
      (match c
       case NewGateway(_, _, _, _, _, _) => tx.writes != [] || (|Owners(db, c.g)| == 1 && GatewayTwinOk(db, c.g, c.name))
       case NewSensor(_, _, _, _, _, _, _) => GatewayTwinOk(db, c.g, tx.name) && if tx.writes != [] then SensorUrn(c.g, c.s) !in db.twins else SensorTwinOk(db, c.g, c.s, c.name)
       case EditGateway(_, _, _, _) => GatewayTwinOk(db, c.g, tx.name)
       case EditSensor(_, _, _, _, _) => GatewayTwinOk(db, c.g, tx.name) && SensorTwinOk(db, c.g, c.s, tx.own))
    case _ => true
  }

  lemma FreshVetted(db: Db, tx: Txn)
    requires tx.pc.Begin?
    ensures Vetted(db, tx)
  {}

  lemma VetNewGateway(db: Db, tx: Txn)
    requires tx.call.NewGateway? && NewGatewayFacts(db, tx) && Vetted(db, tx) && !tx.pc.Committing? && GatewayStatement(db, Locking(db, tx)).Go?
    ensures Vetted(db, GatewayStatement(db, Locking(db, tx)).tx)
  {
    hide Owners, GatewayTwinOk;
  }

  lemma VetNewSensor(db: Db, tx: Txn)
    requires tx.call.NewSensor? && NewSensorFacts(db, tx) && Vetted(db, tx) && !tx.pc.Committing? && SensorStatement(db, Locking(db, tx)).Go?
    ensures Vetted(db, SensorStatement(db, Locking(db, tx)).tx)
  {
    hide GatewayTwinOk, SensorTwinOk, Access;
  }

  lemma VetEditGateway(db: Db, now: Time, tx: Txn)
    requires tx.call.EditGateway? && EditGatewayFacts(db, tx) && Vetted(db, tx) && !tx.pc.Committing? && EditGatewayStatement(db, now, Locking(db, tx)).Go?
    ensures Vetted(db, EditGatewayStatement(db, now, Locking(db, tx)).tx)
  {
    hide GatewayTwinOk;
  }

  lemma VetEditSensor(db: Db, now: Time, tx: Txn)
    requires tx.call.EditSensor? && EditSensorFacts(db, tx) && Vetted(db, tx) && !tx.pc.Committing? && EditSensorStatement(db, now, Locking(db, tx)).Go?
    ensures Vetted(db, EditSensorStatement(db, now, Locking(db, tx)).tx)
  {
    hide GatewayTwinOk, SensorTwinOk, Access;
  }

  lemma VettedTwin(db: Db, tx: Txn)
    requires Facts(db, tx) && Vetted(db, tx)
    ensures tx.call.EditGateway? && tx.pc.StampGateway? ==> GatewayUrn(tx.call.g) in db.twins
    ensures tx.call.EditSensor? && tx.pc.StampSensor? ==> SensorUrn(tx.call.g, tx.call.s) in db.twins
  {
    hide Facts, GatewayTwins;
  }

  /** Any statement on any graph: what was found in order so far stays on record. */
  lemma VettedStep(db: Db, now: Time, tx: Txn)
    requires Timely(db, now) && Facts(db, tx) && Vetted(db, tx) && !tx.pc.Committing? && Statement(db, now, Locking(db, tx)).Go?
    ensures Facts(db, Statement(db, now, Locking(db, tx)).tx) && Vetted(db, Statement(db, now, Locking(db, tx)).tx)
    ensures Statement(db, now, Locking(db, tx)).tx.call == tx.call
  {
    hide Timely, Vetted, Locking, NewGatewayFacts, NewSensorFacts, EditGatewayFacts, EditSensorFacts, GatewayStatement, SensorStatement, EditGatewayStatement, EditSensorStatement;
    VettedTwin(db, tx);
    LockingCall(db, tx);
    match tx.call
    case NewGateway(_, _, _, _, _, _) => GoNewGateway(db, tx); VetNewGateway(db, tx);
    case NewSensor(_, _, _, _, _, _, _) => GoNewSensor(db, tx); VetNewSensor(db, tx);
    case EditGateway(_, _, _, _) => GoEditGateway(db, now, tx); VetEditGateway(db, now, tx);
    case EditSensor(_, _, _, _, _) => GoEditSensor(db, now, tx); VetEditSensor(db, now, tx);
  }

  /** The graph around the entity of a call is in order. */
  ghost predicate InOrder(db: Db, c: Call) {
    && c.g in db.gateways && GatewayTwinOk(db, c.g, db.gateways[c.g].name)
    && (c.NewGateway? ==> Owners(db, c.g) == {c.owner})
    && (c.NewSensor? || c.EditSensor? ==> (c.g, c.s) in db.sensors && SensorTwinOk(db, c.g, c.s, db.sensors[(c.g, c.s)].name))
  }

  lemma OnlyOne<T>(a: set<T>, x: T)
    requires |a| == 1 && x in a
    ensures a == {x}
  {
    assert |a - {x}| == 0;
    assert a == {x} + (a - {x});
  }

  lemma MadeGateway(db: Db, g: Id, row: GatewayRow, owner: User)
    requires ForeignKeys(db) && g !in db.gateways
    ensures GatewayTwinOk(AddGateway(db, g, row, owner), g, row.name) && Owners(AddGateway(db, g, row, owner), g) == {owner}
  {
    assert GatewayTwins(AddGateway(db, g, row, owner), g) == {GatewayUrn(g)};
  }

  lemma MadeSensor(db: Db, g: Id, s: Id, row: SensorRow, name: string)
    requires GatewayTwinOk(db, g, name) && SensorUrn(g, s) !in db.twins
    ensures GatewayTwinOk(AddSensor(db, g, s, row), g, name) && SensorTwinOk(AddSensor(db, g, s, row), g, s, row.name)
  {
    assert GatewayTwins(AddSensor(db, g, s, row), g) == GatewayTwins(db, g);
  }

  lemma EditedGateway(db: Db, g: Id, name: string, description: Option<string>, now: Time, old_: string)
    requires g in db.gateways && GatewayTwinOk(db, g, old_)
    ensures GatewayTwinOk(SetGateway(db, g, name, description, now), g, name)
  {
    assert GatewayTwins(SetGateway(db, g, name, description, now), g) == GatewayTwins(db, g);
  }

  lemma EditedSensor(db: Db, g: Id, s: Id, name: string, now: Time, parent: string, old_: string)
    requires (g, s) in db.sensors && GatewayTwinOk(db, g, parent) && SensorTwinOk(db, g, s, old_)
    ensures GatewayTwinOk(SetSensor(db, g, s, name, now), g, parent) && SensorTwinOk(SetSensor(db, g, s, name, now), g, s, name)
  {
    assert GatewayTwins(SetSensor(db, g, s, name, now), g) == GatewayTwins(db, g);
  }

  /** A call that is not refused, on a graph that may be corrupt elsewhere or anywhere its
      statements look: what it leaves around its own entity is in order.  So corruption
      there is answered with a refusal, which changes nothing, and is never repaired. */
  lemma SuccessMeansInOrder(db: Db, tx: Txn)
    requires ForeignKeys(db) && Facts(db, tx) && Vetted(db, tx) && tx.pc.Committing?
    ensures InOrder(Apply(db, tx.writes), tx.call)
  {
    match tx.call
    case NewGateway(_, _, _, _, _, _) => InOrderNewGateway(db, tx);
    case NewSensor(_, _, _, _, _, _, _) => InOrderNewSensor(db, tx);
    case EditGateway(_, _, _, _) => InOrderEditGateway(db, tx);
    case EditSensor(_, _, _, _, _) => InOrderEditSensor(db, tx);
  }

  lemma InOrderNewGateway(db: Db, tx: Txn)
    requires ForeignKeys(db) && tx.call.NewGateway? && NewGatewayFacts(db, tx) && Vetted(db, tx) && tx.pc.Committing?
    ensures InOrder(Apply(db, tx.writes), tx.call)
  {
    var c := tx.call;
    CommitNewGateway(db, tx);
    hide Apply, GatewayTwinOk, Owners;
    if c.g in db.gateways {
      OnlyOne(Owners(db, c.g), c.owner);
    } else {
      MadeGateway(db, c.g, GatewayRow(c.name, c.description, tx.started), c.owner);
    }
    hide ForeignKeys;
  }

  lemma InOrderNewSensor(db: Db, tx: Txn)
    requires ForeignKeys(db) && tx.call.NewSensor? && NewSensorFacts(db, tx) && Vetted(db, tx) && tx.pc.Committing?
    ensures InOrder(Apply(db, tx.writes), tx.call)
  {
    var c := tx.call;
    CommitNewSensor(db, tx);
    hide Apply, GatewayTwinOk, SensorTwinOk, Access, ForeignKeys;
    if (c.g, c.s) !in db.sensors { MadeSensor(db, c.g, c.s, SensorRow(c.name, c.unit, tx.started), tx.name); }
  }

  lemma InOrderEditGateway(db: Db, tx: Txn)
    requires ForeignKeys(db) && tx.call.EditGateway? && EditGatewayFacts(db, tx) && Vetted(db, tx) && tx.pc.Committing?
    ensures InOrder(Apply(db, tx.writes), tx.call)
  {
    assert GatewayUrn(tx.call.g) in db.twins && db.twins[GatewayUrn(tx.call.g)].name == tx.name;
    CommitEditGateway(db, tx);
    GatewayEdit(db, tx);
    hide Apply, GatewayTwinOk, ForeignKeys, ExpectedEditGateway;
    EditedGateway(db, tx.call.g, NewName(tx), NewDescription(tx), tx.at, tx.name);
  }

  lemma InOrderEditSensor(db: Db, tx: Txn)
    requires ForeignKeys(db) && tx.call.EditSensor? && EditSensorFacts(db, tx) && Vetted(db, tx) && tx.pc.Committing?
    ensures InOrder(Apply(db, tx.writes), tx.call)
  {
    var c := tx.call;
    CommitEditSensor(db, tx);
    hide Apply, GatewayTwinOk, SensorTwinOk, Access, ForeignKeys;
    EditedSensor(db, c.g, c.s, c.toName, tx.at, tx.name, tx.own);
  }

  /** In order means: one owner for a new gateway, the one canonical twin with its state under
      the gateway's name, and for a sensor the same under its name, with the edge. */
  lemma InOrderMeans(db: Db, c: Call)
    requires InOrder(db, c)
    ensures var u := GatewayUrn(c.g); u in db.twins && u in db.states && db.twins[u].isGateway && db.twins[u].gateway == c.g && db.twins[u].name == db.gateways[c.g].name
    ensures forall u :: u in db.twins && db.twins[u].isGateway && db.twins[u].gateway == c.g ==> u == GatewayUrn(c.g)
    ensures c.NewGateway? ==> OwnerRow(db.members, c.owner, c.g) && forall n :: OwnerRow(db.members, n, c.g) ==> n == c.owner
    ensures c.NewSensor? || c.EditSensor? ==> var u := SensorUrn(c.g, c.s);
      u in db.twins && u in db.states && !db.twins[u].isGateway && db.twins[u].gateway == c.g && db.twins[u].name == db.sensors[(c.g, c.s)].name
      && (GatewayUrn(c.g), u) in db.edges
  {
    OnlyOne(GatewayTwins(db, c.g), GatewayUrn(c.g));
    forall u | u in db.twins && db.twins[u].isGateway && db.twins[u].gateway == c.g ensures u == GatewayUrn(c.g) { assert u in GatewayTwins(db, c.g); }
    if c.NewGateway? {
      forall n ensures OwnerRow(db.members, n, c.g) <==> n == c.owner { OwnersAre(db, c.g, n); }
    }
    hide Owners, GatewayTwins;
  }

  /** The sensor calls that take their gateway as it is: PATCHes, and creates for an
      administrator or an owner. */
  predicate SharesParent(tx: Txn) { tx.call.EditSensor? || (tx.call.NewSensor? && tx.call.mode.ByEither?) }

  lemma ParentShared(db: Db, tx: Txn)
    requires SharesParent(tx) && Facts(db, tx)
    ensures !tx.gateway.Exclusive? && !Locking(db, tx).gateway.Exclusive?
  {
    hide Access, GatewayTwinOk, SensorTwinOk;
  }

  /** Two of them on different sensors never wait for each other. */
  lemma SensorCallsShareTheParent(db: Db, a: Txn, b: Txn)
    requires SharesParent(a) && SharesParent(b) && Facts(db, a) && Facts(db, b) && a.call.s != b.call.s
    ensures !Clash(Locking(db, a), b)
  {
    ParentShared(db, a);
    ParentShared(db, b);
    LockingCall(db, a);
    hide Facts, Locking;
  }

  /** A create for an administrator alone, or for an owner alone, holds its gateway for itself
      once it has read it: any other call on that gateway that has, waits or made it wait. */
  lemma OtherCreatesOwnTheParent(db: Db, a: Txn, b: Txn)
    requires a.call.NewSensor? && !a.call.mode.ByEither? && Facts(db, a) && !a.pc.Begin?
    ensures a.gateway.Exclusive?
    ensures b.call.g == a.call.g && !Locking(db, b).gateway.Free? ==> Clash(Locking(db, b), a)
  {
    LockingCall(db, b);
    hide Access, GatewayTwinOk, SensorTwinOk, Locking;
  }
}
