/** Locks make every transaction, however interleaved, one atomic change at its end. */
module GraphSafety {
  import opened Wrappers
  import opened Graph
  import opened GraphRuns

  // ---- what a transaction knows, statement by statement ----

  /** The parent row is locked and was read. */
  ghost predicate HasParent(db: Db, tx: Txn) {
    && !tx.gateway.Free? && tx.OfSensor()
    && tx.call.g in db.gateways && db.gateways[tx.call.g].name == tx.name
    && (tx.call.NewSensor? && tx.call.mode.ByAdmin? ==> tx.call.admin)
    && (tx.gateway.Exclusive? <==> tx.call.NewSensor? && !tx.call.mode.ByEither?)
  }

  ghost predicate Admitted(db: Db, tx: Txn) { HasParent(db, tx) && Access(db, tx.call).None? }

  function GatewayWrites(tx: Txn): seq<Write>
    requires tx.call.NewGateway?
  {
    var c := tx.call;
    [PutGateway(c.g, GatewayRow(c.name, c.description, tx.started)), PutMember(c.owner, c.g, Owner),
     PutTwin(GatewayUrn(c.g), Twin(true, c.g, c.name, tx.started)), PutState(GatewayUrn(c.g))]
  }

  function SensorWrites(tx: Txn): seq<Write>
    requires tx.call.NewSensor?
  {
    var c := tx.call;
    [PutSensor(c.g, c.s, SensorRow(c.name, c.unit, tx.started)), PutTwin(SensorUrn(c.g, c.s), Twin(false, c.g, c.name, tx.started)),
     PutState(SensorUrn(c.g, c.s)), PutEdge(GatewayUrn(c.g), SensorUrn(c.g, c.s))]
  }

  /** The gateway insert succeeded and `n` of its four writes are made. */
  ghost predicate CreatingGateway(db: Db, tx: Txn, n: nat) {
    && tx.call.NewGateway? && tx.call.admin && tx.call.ownerKnown && tx.gateway.Exclusive? && !tx.sensor
    && tx.call.g !in db.gateways && n <= 4 && tx.writes == GatewayWrites(tx)[..n]
  }

  ghost predicate CreatingSensor(db: Db, tx: Txn, n: nat) {
    && tx.call.NewSensor? && Admitted(db, tx) && tx.sensor
    && (tx.call.g, tx.call.s) !in db.sensors && n <= 4 && tx.writes == SensorWrites(tx)[..n]
  }

  ghost predicate SameGatewayRow(db: Db, tx: Txn) {
    && tx.call.NewGateway? && tx.call.admin && tx.call.ownerKnown && tx.gateway.Exclusive? && !tx.sensor && tx.writes == []
    && tx.call.g in db.gateways && db.gateways[tx.call.g] == GatewayRow(tx.call.name, tx.call.description, tx.at)
  }

  ghost predicate SameSensorRow(db: Db, tx: Txn) {
    && tx.call.NewSensor? && Admitted(db, tx) && tx.sensor && tx.writes == []
    && (tx.call.g, tx.call.s) in db.sensors && db.sensors[(tx.call.g, tx.call.s)] == SensorRow(tx.call.name, tx.call.unit, tx.at)
  }

  /** The gateway row is locked for a PATCH and was read. */
  ghost predicate EditingGateway(db: Db, tx: Txn) {
    && tx.call.EditGateway? && tx.call.admin && tx.gateway.Exclusive? && !tx.sensor
    && tx.call.g in db.gateways && db.gateways[tx.call.g].name == tx.name && db.gateways[tx.call.g].description == tx.extra
  }

  ghost predicate EditingSensor(db: Db, tx: Txn) {
    && tx.call.EditSensor? && Admitted(db, tx) && tx.sensor
    && (tx.call.g, tx.call.s) in db.sensors && db.sensors[(tx.call.g, tx.call.s)].name == tx.own && db.sensors[(tx.call.g, tx.call.s)].unit == tx.extra
  }

  function NewName(tx: Txn): string requires tx.call.EditGateway? { Target(tx.call.newName, tx.name) }
  function NewDescription(tx: Txn): Option<string> requires tx.call.EditGateway? { Target(tx.call.newDescription, tx.extra) }
  predicate Changes(tx: Txn) requires tx.call.EditGateway? { NewName(tx) != tx.name || NewDescription(tx) != tx.extra }

  function GatewayUpdate(tx: Txn): Write
    requires tx.call.EditGateway?
  {
    UpdateGateway(tx.call.g, if NewName(tx) != tx.name then Some(NewName(tx)) else None,
                  if NewDescription(tx) != tx.extra then Some(NewDescription(tx)) else None)
  }

  function GatewayStamp(tx: Txn): Write
    requires tx.call.EditGateway?
  {
    UpdateTwin(GatewayUrn(tx.call.g), if NewName(tx) != tx.name then Some(NewName(tx)) else None, tx.at)
  }

  /** The twin's stored time is not after the one about to be written. */
  ghost predicate NotBefore(db: Db, u: Urn, at: Time) { u in db.twins && db.twins[u].updatedAt <= at }

  ghost predicate Started(tx: Txn) { tx.gateway.Free? && !tx.sensor && tx.writes == [] }

  ghost predicate NewGatewayFacts(db: Db, tx: Txn)
    requires tx.call.NewGateway?
  {
    var c := tx.call;
    match tx.pc
    case Begin => Started(tx)
    case InsertOwner => CreatingGateway(db, tx, 1)
    case InsertGatewayTwin => CreatingGateway(db, tx, 2)
    case InsertGatewayState => CreatingGateway(db, tx, 3)
    case ReplayGateway => c.admin && c.ownerKnown && Started(tx) && c.g in db.gateways
    case ReplayOwner => SameGatewayRow(db, tx)
    case ReplayGatewayTwin => SameGatewayRow(db, tx) && c.owner in Owners(db, c.g)
    case Committing(reply) =>
      (CreatingGateway(db, tx, 4) && reply == GatewayMade(true, GatewayRow(c.name, c.description, tx.started), c.owner))
      || (SameGatewayRow(db, tx) && c.owner in Owners(db, c.g) && reply == GatewayMade(false, GatewayRow(c.name, c.description, tx.at), c.owner))
    case _ => false
  }

  ghost predicate NewSensorFacts(db: Db, tx: Txn)
    requires tx.call.NewSensor?
  {
    var c := tx.call;
    match tx.pc
    case Begin => Started(tx)
    case CheckMember => HasParent(db, tx) && NeedsMembership(c) && !tx.sensor && tx.writes == []
    case FindParent => Admitted(db, tx) && !tx.sensor && tx.writes == []
    case InsertSensor => Admitted(db, tx) && !tx.sensor && tx.writes == []
    case InsertSensorTwin => CreatingSensor(db, tx, 1)
    case InsertSensorState => CreatingSensor(db, tx, 2)
    case InsertEdge => CreatingSensor(db, tx, 3)
    case ReplaySensor => Admitted(db, tx) && !tx.sensor && tx.writes == [] && (c.g, c.s) in db.sensors
    case ReplaySensorTwin => SameSensorRow(db, tx)
    case Committing(reply) =>
      (CreatingSensor(db, tx, 4) && reply == SensorMade(true, SensorRow(c.name, c.unit, tx.started)))
      || (SameSensorRow(db, tx) && reply == SensorMade(false, SensorRow(c.name, c.unit, tx.at)))
    case _ => false
  }

  ghost predicate EditGatewayFacts(db: Db, tx: Txn)
    requires tx.call.EditGateway?
  {
    match tx.pc
    case Begin => Started(tx)
    case LockTwin => EditingGateway(db, tx) && tx.writes == []
    case WriteGateway => EditingGateway(db, tx) && Changes(tx) && tx.writes == []
    case StampGateway => EditingGateway(db, tx) && Changes(tx) && tx.writes == [GatewayUpdate(tx)]
    case Committing(reply) =>
      && EditingGateway(db, tx) && reply == GatewayEdited(NewName(tx), NewDescription(tx), tx.at) && NotBefore(db, GatewayUrn(tx.call.g), tx.at)
      && (if Changes(tx) then tx.writes == [GatewayUpdate(tx), GatewayStamp(tx)]
          else tx.writes == [] && db.twins[GatewayUrn(tx.call.g)].updatedAt == tx.at)
    case _ => false
  }

  ghost predicate EditSensorFacts(db: Db, tx: Txn)
    requires tx.call.EditSensor?
  {
    var c := tx.call;
    match tx.pc
    case Begin => Started(tx)
    case CheckMember => HasParent(db, tx) && NeedsMembership(c) && !tx.sensor && tx.writes == []
    case LockSensor => Admitted(db, tx) && !tx.sensor && tx.writes == []
    case FindSensorParent => EditingSensor(db, tx) && tx.writes == []
    case LockSensorTwin => EditingSensor(db, tx) && tx.writes == []
    case WriteSensor => EditingSensor(db, tx) && tx.own != c.toName && tx.writes == []
    case StampSensor => EditingSensor(db, tx) && tx.own != c.toName && tx.writes == [UpdateSensor(c.g, c.s, c.toName)]
    case Committing(reply) =>
      && EditingSensor(db, tx) && reply == SensorEdited(c.toName, tx.extra, tx.at) && NotBefore(db, SensorUrn(c.g, c.s), tx.at)
      && (if c.toName != tx.own then tx.writes == [UpdateSensor(c.g, c.s, c.toName), UpdateTwin(SensorUrn(c.g, c.s), Some(c.toName), tx.at)]
          else tx.writes == [] && db.twins[SensorUrn(c.g, c.s)].updatedAt == tx.at)
    case _ => false
  }

  /** What a transaction at this statement may rely on. */
  ghost predicate Facts(db: Db, tx: Txn) {
    match tx.call
    case NewGateway(_, _, _, _, _, _) => NewGatewayFacts(db, tx)
    case NewSensor(_, _, _, _, _, _, _) => NewSensorFacts(db, tx)
    case EditGateway(_, _, _, _) => EditGatewayFacts(db, tx)
    case EditSensor(_, _, _, _, _) => EditSensorFacts(db, tx)
  }

  lemma Fresh(db: Db, tx: Txn)
    requires tx.pc.Begin? && Started(tx)
    ensures Facts(db, tx)
  {}

  /** No twin carries a time later than the database clock. */
  ghost predicate Timely(db: Db, clock: Time) { forall u :: u in db.twins ==> db.twins[u].updatedAt <= clock }

  // ---- one statement ----

  /** A statement carries the facts on, or refuses exactly as the atomic call would now. */
  ghost predicate StepOk(db: Db, now: Time, tx: Txn, step: Step)
    requires WellFormed(db)
  {
    match step
    case Go(next) => Facts(db, next) && next.call == tx.call && next.started == tx.started
    case Stop(e) => Expected(db, tx.call, tx.started, now) == Outcome(db, Refused(e))
  }

  /** All that a statement needs of a well-formed graph about its gateway and sensor. */
  ghost predicate GatewaySound(db: Db, g: Id) {
    if g in db.gateways then |Owners(db, g)| == 1 && GatewayTwinOk(db, g, db.gateways[g].name)
    else (forall m: User :: (m, g) !in db.members) && GatewayUrn(g) !in db.twins && GatewayUrn(g) !in db.states
  }

  ghost predicate SensorSound(db: Db, g: Id, s: Id) {
    if (g, s) in db.sensors then g in db.gateways && SensorTwinOk(db, g, s, db.sensors[(g, s)].name)
    else SensorUrn(g, s) !in db.twins && SensorUrn(g, s) !in db.states && (GatewayUrn(g), SensorUrn(g, s)) !in db.edges
  }

  lemma Sound(db: Db, g: Id, s: Id)
    requires WellFormed(db)
    ensures GatewaySound(db, g) && SensorSound(db, g, s)
  {
    if g in db.gateways { assert GatewayOk(db, g); }
    if (g, s) in db.sensors { assert SensorOk(db, (g, s)); }
    if (GatewayUrn(g), SensorUrn(g, s)) in db.edges { assert EdgeOk(db, (GatewayUrn(g), SensorUrn(g, s))); }
  }

  // Whatever the graph looks like, a statement that goes on carries the facts on.

  lemma GoNewGateway(db: Db, tx: Txn)
    requires tx.call.NewGateway? && NewGatewayFacts(db, tx) && !tx.pc.Committing? && GatewayStatement(db, Locking(db, tx)).Go?
    ensures GatewayStatement(db, Locking(db, tx)).tx.call == tx.call && NewGatewayFacts(db, GatewayStatement(db, Locking(db, tx)).tx)
  {
    var w := GatewayWrites(tx);
    assert w[..1] == [] + [w[0]] && w[..1] + [w[1]] == w[..2] && w[..2] + [w[2]] == w[..3] && w[..3] + [w[3]] == w[..4];
    hide Owners, GatewayTwinOk;
  }

  lemma GoNewSensor(db: Db, tx: Txn)
    requires tx.call.NewSensor? && NewSensorFacts(db, tx) && !tx.pc.Committing? && SensorStatement(db, Locking(db, tx)).Go?
    ensures SensorStatement(db, Locking(db, tx)).tx.call == tx.call && NewSensorFacts(db, SensorStatement(db, Locking(db, tx)).tx)
  {
    var w := SensorWrites(tx);
    assert w[..1] == [] + [w[0]] && w[..1] + [w[1]] == w[..2] && w[..2] + [w[2]] == w[..3] && w[..3] + [w[3]] == w[..4];
    hide GatewayTwinOk, SensorTwinOk;
  }

  lemma GoEditGateway(db: Db, now: Time, tx: Txn)
    requires tx.call.EditGateway? && EditGatewayFacts(db, tx) && !tx.pc.Committing? && Timely(db, now)
    requires tx.pc.StampGateway? ==> GatewayUrn(tx.call.g) in db.twins
    requires EditGatewayStatement(db, now, Locking(db, tx)).Go?
    ensures EditGatewayStatement(db, now, Locking(db, tx)).tx.call == tx.call && EditGatewayFacts(db, EditGatewayStatement(db, now, Locking(db, tx)).tx)
  {
    hide GatewayTwinOk;
  }

  lemma GoEditSensor(db: Db, now: Time, tx: Txn)
    requires tx.call.EditSensor? && EditSensorFacts(db, tx) && !tx.pc.Committing? && Timely(db, now)
    requires tx.pc.StampSensor? ==> SensorUrn(tx.call.g, tx.call.s) in db.twins
    requires EditSensorStatement(db, now, Locking(db, tx)).Go?
    ensures EditSensorStatement(db, now, Locking(db, tx)).tx.call == tx.call && EditSensorFacts(db, EditSensorStatement(db, now, Locking(db, tx)).tx)
  {
    hide GatewayTwinOk, SensorTwinOk;
  }

  // In a well-formed graph, a statement that refuses does so as the atomic call would.

  lemma StopNewGateway(db: Db, now: Time, tx: Txn)
    requires WellFormed(db) && tx.call.NewGateway? && NewGatewayFacts(db, tx) && !tx.pc.Committing? && GatewayStatement(db, Locking(db, tx)).Stop?
    ensures Expected(db, tx.call, tx.started, now) == Outcome(db, Refused(GatewayStatement(db, Locking(db, tx)).error))
  {
    hide WellFormed;
    Sound(db, tx.call.g, "");
    hide SensorSound, Owners, GatewayTwinOk;
  }

  lemma StopNewSensor(db: Db, now: Time, tx: Txn)
    requires WellFormed(db) && tx.call.NewSensor? && NewSensorFacts(db, tx) && !tx.pc.Committing? && SensorStatement(db, Locking(db, tx)).Stop?
    ensures Expected(db, tx.call, tx.started, now) == Outcome(db, Refused(SensorStatement(db, Locking(db, tx)).error))
  {
    hide WellFormed;
    Sound(db, tx.call.g, tx.call.s);
    hide Owners, GatewayTwinOk, SensorTwinOk;
  }

  lemma StopEditGateway(db: Db, now: Time, tx: Txn)
    requires WellFormed(db) && tx.call.EditGateway? && EditGatewayFacts(db, tx) && !tx.pc.Committing? && EditGatewayStatement(db, now, Locking(db, tx)).Stop?
    ensures Expected(db, tx.call, tx.started, now) == Outcome(db, Refused(EditGatewayStatement(db, now, Locking(db, tx)).error))
  {
    hide WellFormed;
    Sound(db, tx.call.g, "");
    hide SensorSound, Owners, GatewayTwins;
  }

  lemma StopEditSensor(db: Db, now: Time, tx: Txn)
    requires WellFormed(db) && tx.call.EditSensor? && EditSensorFacts(db, tx) && !tx.pc.Committing? && EditSensorStatement(db, now, Locking(db, tx)).Stop?
    ensures Expected(db, tx.call, tx.started, now) == Outcome(db, Refused(EditSensorStatement(db, now, Locking(db, tx)).error))
  {
    hide WellFormed;
    Sound(db, tx.call.g, tx.call.s);
    hide Owners, GatewayTwinOk;
  }

  /** The twin a PATCH stamps is there. */
  lemma StampedTwin(db: Db, tx: Txn)
    requires WellFormed(db) && Facts(db, tx)
    ensures tx.call.EditGateway? && tx.pc.StampGateway? ==> GatewayUrn(tx.call.g) in db.twins
    ensures tx.call.EditSensor? && tx.pc.StampSensor? ==> SensorUrn(tx.call.g, tx.call.s) in db.twins
  {
    hide WellFormed, Access;
    Sound(db, tx.call.g, if tx.OfSensor() then tx.call.s else "");
  }

  lemma LockingCall(db: Db, tx: Txn)
    ensures Locking(db, tx).call == tx.call
  {}

  lemma SameStart(db: Db, now: Time, tx: Txn)
    requires Statement(db, now, Locking(db, tx)).Go?
    ensures Statement(db, now, Locking(db, tx)).tx.started == tx.started
  {}

  lemma StatementStep(db: Db, now: Time, tx: Txn)
    requires WellFormed(db) && Timely(db, now) && Facts(db, tx) && !tx.pc.Committing?
    ensures StepOk(db, now, tx, Statement(db, now, Locking(db, tx)))
  {
    hide WellFormed, Timely, Expected, Locking, NewGatewayFacts, NewSensorFacts, EditGatewayFacts, EditSensorFacts, GatewayStatement, SensorStatement, EditGatewayStatement, EditSensorStatement;
    StampedTwin(db, tx);
    LockingCall(db, tx);
    var go := Statement(db, now, Locking(db, tx)).Go?;
    if go { SameStart(db, now, tx); }
    match tx.call
    case NewGateway(_, _, _, _, _, _) => if go { GoNewGateway(db, tx); } else { StopNewGateway(db, now, tx); }
    case NewSensor(_, _, _, _, _, _, _) => if go { GoNewSensor(db, tx); } else { StopNewSensor(db, now, tx); }
    case EditGateway(_, _, _, _) => if go { GoEditGateway(db, now, tx); } else { StopEditGateway(db, now, tx); }
    case EditSensor(_, _, _, _, _) => if go { GoEditSensor(db, now, tx); } else { StopEditSensor(db, now, tx); }
  }

  // ---- the commit ----

  lemma FourWrites(db: Db, a: Write, b: Write, c: Write, d: Write)
    ensures Apply(db, [a, b, c, d]) == Apply1(Apply1(Apply1(Apply1(db, a), b), c), d)
  {
    assert [a, b, c, d][..3] == [a, b, c];
    assert [a, b, c][..2] == [a, b];
    TwoWrites(db, a, b);
  }

  lemma TwoWrites(db: Db, a: Write, b: Write)
    ensures Apply(db, [a, b]) == Apply1(Apply1(db, a), b)
  {
    assert [a, b][..1] == [a];
    assert [a][..0] == [];
    assert Apply(db, [a]) == Apply1(Apply(db, []), a);
  }

  lemma NeverRefused(db: Db, tx: Txn)
    requires Facts(db, tx) && tx.pc.Committing?
    ensures !tx.pc.reply.Refused?
  {
    hide CreatingGateway, CreatingSensor, SameGatewayRow, SameSensorRow, EditingGateway, EditingSensor;
  }

  /** The buffered writes are the whole atomic change, and the reply is its reply. */
  lemma CommitMatches(db: Db, tx: Txn)
    requires WellFormed(db) && Facts(db, tx) && tx.pc.Committing?
    ensures Outcome(Apply(db, tx.writes), tx.pc.reply) == Expected(db, tx.call, tx.started, tx.at)
    ensures !tx.pc.reply.Refused?
  {
    NeverRefused(db, tx);
    hide WellFormed, NewGatewayFacts, NewSensorFacts, EditGatewayFacts, EditSensorFacts, Access, Apply, ExpectedNewGateway, ExpectedNewSensor, ExpectedEditGateway, ExpectedEditSensor;
    match tx.call
    case NewGateway(_, _, _, _, _, _) => CommitNewGateway(db, tx);
    case NewSensor(_, _, _, _, _, _, _) => CommitNewSensor(db, tx);
    case EditGateway(_, _, _, _) =>
      NamedTwin(db, tx);
      CommitEditGateway(db, tx);
    case EditSensor(_, _, _, _, _) => CommitEditSensor(db, tx);
  }

  lemma NamedTwin(db: Db, tx: Txn)
    requires WellFormed(db) && tx.call.EditGateway? && EditGatewayFacts(db, tx) && tx.pc.Committing?
    ensures GatewayUrn(tx.call.g) in db.twins && db.twins[GatewayUrn(tx.call.g)].name == tx.name
  {
    hide WellFormed;
    Sound(db, tx.call.g, "");
  }

  lemma CommitNewGateway(db: Db, tx: Txn)
    requires tx.call.NewGateway? && NewGatewayFacts(db, tx) && tx.pc.Committing?
    ensures Access(db, tx.call).None? && Outcome(Apply(db, tx.writes), tx.pc.reply) == ExpectedNewGateway(db, tx.call, tx.started)
  {
    if tx.writes != [] {
      var w := GatewayWrites(tx);
      assert tx.writes == [w[0], w[1], w[2], w[3]];
      FourWrites(db, w[0], w[1], w[2], w[3]);
    }
  }

  lemma CommitNewSensor(db: Db, tx: Txn)
    requires tx.call.NewSensor? && NewSensorFacts(db, tx) && tx.pc.Committing?
    ensures Access(db, tx.call).None? && Outcome(Apply(db, tx.writes), tx.pc.reply) == ExpectedNewSensor(db, tx.call, tx.started)
  {
    hide Access;
    if tx.writes != [] {
      var w := SensorWrites(tx);
      assert tx.writes == [w[0], w[1], w[2], w[3]];
      FourWrites(db, w[0], w[1], w[2], w[3]);
    }
  }

  lemma GatewayWritten(db: Db, tx: Txn)
    requires EditingGateway(db, tx) && GatewayUrn(tx.call.g) in db.twins && db.twins[GatewayUrn(tx.call.g)].name == tx.name
    ensures Apply1(Apply1(db, GatewayUpdate(tx)), GatewayStamp(tx)) == SetGateway(db, tx.call.g, NewName(tx), NewDescription(tx), tx.at)
  {}

  lemma GatewayEdit(db: Db, tx: Txn)
    requires EditingGateway(db, tx) && GatewayUrn(tx.call.g) in db.twins
    ensures Access(db, tx.call).None?
    ensures ExpectedEditGateway(db, tx.call, tx.at) == if Changes(tx)
      then Outcome(SetGateway(db, tx.call.g, NewName(tx), NewDescription(tx), tx.at), GatewayEdited(NewName(tx), NewDescription(tx), tx.at))
      else Outcome(db, GatewayEdited(NewName(tx), NewDescription(tx), db.twins[GatewayUrn(tx.call.g)].updatedAt))
  {
    hide SetGateway;
  }

  lemma CommitEditGateway(db: Db, tx: Txn)
    requires tx.call.EditGateway? && EditGatewayFacts(db, tx) && tx.pc.Committing?
    requires GatewayUrn(tx.call.g) in db.twins && db.twins[GatewayUrn(tx.call.g)].name == tx.name
    ensures Access(db, tx.call).None?
    ensures Outcome(Apply(db, tx.writes), tx.pc.reply) == ExpectedEditGateway(db, tx.call, tx.at)
  {
    GatewayWritten(db, tx);
    GatewayEdit(db, tx);
    hide SetGateway, Apply1, GatewayUpdate, GatewayStamp, ExpectedEditGateway, NewName, NewDescription;
    TwoWrites(db, GatewayUpdate(tx), GatewayStamp(tx));
  }

  lemma SensorWritten(db: Db, tx: Txn)
    requires EditingSensor(db, tx) && SensorUrn(tx.call.g, tx.call.s) in db.twins
    ensures Apply1(Apply1(db, UpdateSensor(tx.call.g, tx.call.s, tx.call.toName)), UpdateTwin(SensorUrn(tx.call.g, tx.call.s), Some(tx.call.toName), tx.at))
      == SetSensor(db, tx.call.g, tx.call.s, tx.call.toName, tx.at)
  {
    hide Access;
  }

  lemma CommitEditSensor(db: Db, tx: Txn)
    requires tx.call.EditSensor? && EditSensorFacts(db, tx) && tx.pc.Committing?
    ensures Access(db, tx.call).None? && Outcome(Apply(db, tx.writes), tx.pc.reply) == ExpectedEditSensor(db, tx.call, tx.at)
  {
    hide Access;
    SensorWritten(db, tx);
    hide SetSensor, Apply1, HasParent;
    if tx.call.toName != tx.own { TwoWrites(db, tx.writes[0], tx.writes[1]); }
  }
}
