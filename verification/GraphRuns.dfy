/** The four transactions, statement by statement, under READ COMMITTED.

    Every statement sees what is committed when it runs.  `FOR UPDATE` and `FOR SHARE`
    wait for a conflicting holder; `INSERT ... ON CONFLICT DO NOTHING` waits for an
    uncommitted insert of the same key; locks last until the transaction ends; writes
    become visible together at commit.  Each transaction touches one gateway and at most
    one sensor of it, so its locks are two fields. */
module GraphRuns {
  import opened Wrappers
  import opened Commits
  import opened Graph

  datatype Lock = Free | Shared | Exclusive

  datatype Write =
    | PutGateway(g: Id, gateway: GatewayRow)
    | PutMember(user: User, g: Id, role: Role)
    | PutSensor(g: Id, s: Id, sensor: SensorRow)
    | PutTwin(u: Urn, twin: Twin)
    | PutState(u: Urn)
    | PutEdge(source: Urn, target: Urn)
    | UpdateGateway(g: Id, setName: Option<string>, setDescription: Option<Option<string>>)
    | UpdateSensor(g: Id, s: Id, name: string)
    | UpdateTwin(u: Urn, setName: Option<string>, at: Time)

  function Apply1(db: Db, w: Write): Db {
    match w
    case PutGateway(g, row) => db.(gateways := db.gateways[g := row])
    case PutMember(m, g, role) => db.(members := db.members[(m, g) := role])
    case PutSensor(g, s, row) => db.(sensors := db.sensors[(g, s) := row])
    case PutTwin(u, twin) => db.(twins := db.twins[u := twin])
    case PutState(u) => db.(states := db.states + {u})
    case PutEdge(a, b) => db.(edges := db.edges + {(a, b)})
    case UpdateGateway(g, name, description) =>
      if g !in db.gateways then db
      else
        var row := db.gateways[g];
        db.(gateways := db.gateways[g := row.(name := Target(name, row.name), description := Target(description, row.description))])
    case UpdateSensor(g, s, name) =>
      if (g, s) !in db.sensors then db else db.(sensors := db.sensors[(g, s) := db.sensors[(g, s)].(name := name)])
    case UpdateTwin(u, name, at) =>
      if u !in db.twins then db
      else db.(twins := db.twins[u := db.twins[u].(name := Target(name, db.twins[u].name), updatedAt := at)])
  }

  function Apply(db: Db, writes: seq<Write>): Db
    decreases |writes|
  {
    if writes == [] then db else Apply1(Apply(db, writes[..|writes| - 1]), writes[|writes| - 1])
  }

  /** The next statement of a transaction. */
  datatype Pc =
    | Begin
    // ProvisionGateway: create, or verify a replay
    | InsertOwner
    | InsertGatewayTwin
    | InsertGatewayState
    | ReplayGateway
    | ReplayOwner
    | ReplayGatewayTwin
    // membership, for the sensor calls that need it
    | CheckMember
    // executeSensorGraphProvisioning
    | FindParent
    | InsertSensor
    | InsertSensorTwin
    | InsertSensorState
    | InsertEdge
    | ReplaySensor
    | ReplaySensorTwin
    // PatchGatewayMetadata
    | LockTwin
    | WriteGateway
    | StampGateway
    // PatchSensorMetadata
    | LockSensor
    | FindSensorParent
    | LockSensorTwin
    | WriteSensor
    | StampSensor
    | Committing(reply: Reply)

  /** `name` and `own` are the gateway and sensor names read under lock, `extra` the
      description or unit, `at` the creation or update time read or written. */
  datatype Txn = Txn(
    call: Call, started: Time, pc: Pc, gateway: Lock, sensor: bool,
    name: string, own: string, extra: Option<string>, at: Time, writes: seq<Write>)
  {
    function To(pc: Pc): Txn { this.(pc := pc) }
    function Put(w: Write, pc: Pc): Txn { this.(writes := writes + [w], pc := pc) }
    predicate OfSensor() { call.NewSensor? || call.EditSensor? }
  }

  datatype Step = Go(tx: Txn) | Stop(error: Refusal)

  /** ProvisionGateway. */
  function GatewayStatement(db: Db, tx: Txn): Step
    requires tx.call.NewGateway?
  {
    var c := tx.call;
    var u := GatewayUrn(c.g);
    match tx.pc
    case Begin =>
      if !c.admin then Stop(Forbidden)
      else if !c.ownerKnown then Stop(NotFound)
      else if c.g in db.gateways then Go(tx.To(ReplayGateway))
      else Go(tx.Put(PutGateway(c.g, GatewayRow(c.name, c.description, tx.started)), InsertOwner))
    case InsertOwner =>
      if (c.owner, c.g) in db.members then Stop(UniqueViolation) else Go(tx.Put(PutMember(c.owner, c.g, Owner), InsertGatewayTwin))
    case InsertGatewayTwin =>
      if u in db.twins then Stop(UniqueViolation) else Go(tx.Put(PutTwin(u, Twin(true, c.g, c.name, tx.started)), InsertGatewayState))
    case InsertGatewayState =>
      if u in db.states then Stop(UniqueViolation)
      else Go(tx.Put(PutState(u), Committing(GatewayMade(true, GatewayRow(c.name, c.description, tx.started), c.owner))))
    case ReplayGateway =>
      if c.g !in db.gateways then Stop(Inconsistent)
      else if db.gateways[c.g].name != c.name || db.gateways[c.g].description != c.description then Stop(Conflict)
      else Go(tx.(at := db.gateways[c.g].createdAt).To(ReplayOwner))
    case ReplayOwner =>
      if |Owners(db, c.g)| != 1 then Stop(Inconsistent)
      else if c.owner !in Owners(db, c.g) then Stop(Conflict)
      else Go(tx.To(ReplayGatewayTwin))
    case _ =>
      if GatewayTwinOk(db, c.g, c.name)
      then Go(tx.To(Committing(GatewayMade(false, GatewayRow(c.name, c.description, tx.at), c.owner))))
      else Stop(Inconsistent)
  }

  /** The parent row of the sensor calls: no row is NotFound. */
  function ReadParent(db: Db, tx: Txn, then_: Pc): Step
    requires tx.OfSensor()
  {
    var c := tx.call;
    if c.g !in db.gateways then Stop(NotFound)
    else Go(tx.(name := db.gateways[c.g].name).To(if NeedsMembership(c) then CheckMember else then_))
  }

  function MemberStatement(db: Db, tx: Txn, then_: Pc): Step
    requires tx.OfSensor()
  {
    var c := tx.call;
    if (c.actor, c.g) !in db.members then Stop(NotFound)
    else if !db.members[(c.actor, c.g)].Owner? then Stop(Forbidden)
    else Go(tx.To(then_))
  }

  /** The three ways to provision a sensor, and executeSensorGraphProvisioning. */
  function SensorStatement(db: Db, tx: Txn): Step
    requires tx.call.NewSensor?
  {
    var c := tx.call;
    var u := SensorUrn(c.g, c.s);
    match tx.pc
    case Begin =>
      if c.mode.ByAdmin? && !c.admin then Stop(Forbidden)
      else ReadParent(db, tx, FindParent)
    case CheckMember => MemberStatement(db, tx, FindParent)
    case FindParent => if GatewayTwinOk(db, c.g, tx.name) then Go(tx.To(InsertSensor)) else Stop(Inconsistent)
    case InsertSensor =>
      if (c.g, c.s) in db.sensors then Go(tx.To(ReplaySensor))
      else Go(tx.Put(PutSensor(c.g, c.s, SensorRow(c.name, c.unit, tx.started)), InsertSensorTwin))
    case InsertSensorTwin =>
      if u in db.twins then Stop(Inconsistent) else Go(tx.Put(PutTwin(u, Twin(false, c.g, c.name, tx.started)), InsertSensorState))
    case InsertSensorState => if u in db.states then Stop(UniqueViolation) else Go(tx.Put(PutState(u), InsertEdge))
    case InsertEdge =>
      if (GatewayUrn(c.g), u) in db.edges then Stop(UniqueViolation)
      else Go(tx.Put(PutEdge(GatewayUrn(c.g), u), Committing(SensorMade(true, SensorRow(c.name, c.unit, tx.started)))))
    case ReplaySensor =>
      if (c.g, c.s) !in db.sensors then Stop(Inconsistent)
      else if db.sensors[(c.g, c.s)].name != c.name || db.sensors[(c.g, c.s)].unit != c.unit then Stop(Conflict)
      else Go(tx.(at := db.sensors[(c.g, c.s)].createdAt).To(ReplaySensorTwin))
    case _ =>
      if SensorTwinOk(db, c.g, c.s, c.name) then Go(tx.To(Committing(SensorMade(false, SensorRow(c.name, c.unit, tx.at)))))
      else Stop(Inconsistent)
  }

  /** PatchGatewayMetadata. */
  function EditGatewayStatement(db: Db, now: Time, tx: Txn): Step
    requires tx.call.EditGateway?
  {
    var c := tx.call;
    var u := GatewayUrn(c.g);
    var name, description := Target(c.newName, tx.name), Target(c.newDescription, tx.extra);
    match tx.pc
    case Begin =>
      if !c.admin then Stop(Forbidden)
      else if c.g !in db.gateways then Stop(NotFound)
      else Go(tx.(name := db.gateways[c.g].name, extra := db.gateways[c.g].description).To(LockTwin))
    case LockTwin =>
      if u !in db.twins || !GatewayTwinOk(db, c.g, tx.name) then Stop(Inconsistent)
      else if name == tx.name && description == tx.extra then Go(tx.(at := db.twins[u].updatedAt).To(Committing(GatewayEdited(name, description, db.twins[u].updatedAt))))
      else Go(tx.To(WriteGateway))
    case WriteGateway =>
      var setName := if name != tx.name then Some(name) else None;
      var setDescription := if description != tx.extra then Some(description) else None;
      Go(tx.Put(UpdateGateway(c.g, setName, setDescription), StampGateway))
    case _ =>
      Go(tx.(at := now).Put(UpdateTwin(u, if name != tx.name then Some(name) else None, now), Committing(GatewayEdited(name, description, now))))
  }

  /** PatchSensorMetadata. */
  function EditSensorStatement(db: Db, now: Time, tx: Txn): Step
    requires tx.call.EditSensor?
  {
    var c := tx.call;
    var u := SensorUrn(c.g, c.s);
    match tx.pc
    case Begin => ReadParent(db, tx, LockSensor)
    case CheckMember => MemberStatement(db, tx, LockSensor)
    case LockSensor =>
      if (c.g, c.s) !in db.sensors then Stop(NotFound)
      else Go(tx.(own := db.sensors[(c.g, c.s)].name, extra := db.sensors[(c.g, c.s)].unit).To(FindSensorParent))
    case FindSensorParent => if GatewayTwinOk(db, c.g, tx.name) then Go(tx.To(LockSensorTwin)) else Stop(Inconsistent)
    case LockSensorTwin =>
      if u !in db.twins || !SensorTwinOk(db, c.g, c.s, tx.own) then Stop(Inconsistent)
      else if c.toName == tx.own then Go(tx.(at := db.twins[u].updatedAt).To(Committing(SensorEdited(tx.own, tx.extra, db.twins[u].updatedAt))))
      else Go(tx.To(WriteSensor))
    case WriteSensor => Go(tx.Put(UpdateSensor(c.g, c.s, c.toName), StampSensor))
    case _ => Go(tx.(at := now).Put(UpdateTwin(u, Some(c.toName), now), Committing(SensorEdited(c.toName, tx.extra, now))))
  }

  /** The locks the next statement takes first: on the gateway row it selects, on the key
      it inserts, on the sensor row it selects.  A row that is not there locks nothing. */
  function Locking(db: Db, tx: Txn): Txn {
    var c := tx.call;
    match tx.pc
    case Begin =>
      if c.NewGateway? then if c.admin && c.ownerKnown && c.g !in db.gateways then tx.(gateway := Exclusive) else tx
      else if c.g !in db.gateways then tx
      else if c.EditGateway? then if c.admin then tx.(gateway := Exclusive) else tx
      else if c.EditSensor? || c.mode.ByEither? then tx.(gateway := Shared)
      else if c.mode.ByOwner? || c.admin then tx.(gateway := Exclusive)
      else tx
    case ReplayGateway => if c.g in db.gateways then tx.(gateway := Exclusive) else tx
    case InsertSensor => if tx.OfSensor() && (c.g, c.s) !in db.sensors then tx.(sensor := true) else tx
    case ReplaySensor => if tx.OfSensor() && (c.g, c.s) in db.sensors then tx.(sensor := true) else tx
    case LockSensor => if tx.OfSensor() && (c.g, c.s) in db.sensors then tx.(sensor := true) else tx
    case _ => tx
  }

  function Statement(db: Db, now: Time, tx: Txn): Step {
    match tx.call
    case NewGateway(_, _, _, _, _, _) => GatewayStatement(db, tx)
    case NewSensor(_, _, _, _, _, _, _) => SensorStatement(db, tx)
    case EditGateway(_, _, _, _) => EditGatewayStatement(db, now, tx)
    case EditSensor(_, _, _, _, _) => EditSensorStatement(db, now, tx)
  }

  // ---- all transactions together ----

  /** A finished call: `now` is the time its writes carry. */
  datatype Entry = Entry(call: Call, started: Time, now: Time, reply: Reply)

  datatype State = State(db: Db, clock: Time, txns: map<nat, Txn>, log: seq<Entry>)

  datatype Action =
    | Tick(now: Time)
    | Call(t: nat, call: Call)
    | Run(t: nat)
    | End(t: nat, fate: Commit)
    | Abort(t: nat)

  predicate Clash(a: Txn, b: Txn) {
    a.call.g == b.call.g &&
    ( (a.gateway.Exclusive? && !b.gateway.Free?)
      || (b.gateway.Exclusive? && !a.gateway.Free?)
      || (a.sensor && b.sensor && a.OfSensor() && b.OfSensor() && a.call.s == b.call.s))
  }

  /** A statement runs once no other transaction holds a lock that clashes with its own. */
  ghost predicate Granted(s: State, t: nat)
    requires t in s.txns
  {
    forall o :: o in s.txns && o != t ==> !Clash(Locking(s.db, s.txns[t]), s.txns[o])
  }

  ghost predicate Enabled(s: State, a: Action) {
    match a
    case Tick(now) => now >= s.clock
    case Call(t, _) => t !in s.txns
    case Run(t) => t in s.txns && !s.txns[t].pc.Committing? && Granted(s, t)
    case End(t, _) => t in s.txns && s.txns[t].pc.Committing?
    case Abort(t) => t in s.txns
  }

  ghost function Next(s: State, a: Action): State
    requires Enabled(s, a)
  {
    match a
    case Tick(now) => s.(clock := now)
    case Call(t, c) => s.(txns := s.txns[t := Txn(c, s.clock, Begin, Free, false, "", "", None, 0, [])])
    case Run(t) =>
      (match Statement(s.db, s.clock, Locking(s.db, s.txns[t]))
       case Go(tx) => s.(txns := s.txns[t := tx])
       case Stop(e) => s.(txns := s.txns - {t}, log := s.log + [Entry(s.txns[t].call, s.txns[t].started, s.clock, Refused(e))]))
    case End(t, fate) =>
      var tx := s.txns[t];
      if Lands(fate)
      then s.(db := Apply(s.db, tx.writes), txns := s.txns - {t}, log := s.log + [Entry(tx.call, tx.started, tx.at, tx.pc.reply)])
      else s.(txns := s.txns - {t})
    case Abort(t) => s.(txns := s.txns - {t})
  }
}
