/** The relational graph behind provisioning and PATCH: gateways, their members, sensors,
    canonical twins with current state, and hasSensor edges; and what each of the four
    transactions is for, stated as one atomic change.

    A twin's surrogate key is identified with its URN (`entity_id` is unique), and a URN
    with the ids it was built from (the builders are injective, see module Identity). */
module Graph {
  import opened Wrappers

  type Id = string
  type User = nat
  type Time = nat

  datatype Urn = GatewayUrn(g: Id) | SensorUrn(g: Id, s: Id)
  datatype Role = Owner | Operator | Viewer

  datatype GatewayRow = GatewayRow(name: string, description: Option<string>, createdAt: Time)
  datatype SensorRow = SensorRow(name: string, unit: Option<string>, createdAt: Time)
  datatype Twin = Twin(isGateway: bool, gateway: Id, name: string, updatedAt: Time)

  datatype Db = Db(
    gateways: map<Id, GatewayRow>,
    members: map<(User, Id), Role>,
    sensors: map<(Id, Id), SensorRow>,
    twins: map<Urn, Twin>,
    states: set<Urn>,
    edges: set<(Urn, Urn)>)

  // ---- the queries of the source ----

  /** Owners counted by verifyGatewayRetry. */
  function Owners(db: Db, g: Id): set<User> {
    set p | p in db.members && p.1 == g && db.members[p].Owner? :: p.0
  }

  /** Twins of type Gateway scoped to `g`; the source requires exactly one. */
  function GatewayTwins(db: Db, g: Id): set<Urn> {
    set u | u in db.twins && db.twins[u].isGateway && db.twins[u].gateway == g
  }

  /** The canonical twin of a gateway: expected URN, type, scope and name, with a state,
      and no second twin of that type. */
  predicate GatewayTwinOk(db: Db, g: Id, name: string) {
    var u := GatewayUrn(g);
    && u in db.twins && db.twins[u].isGateway && db.twins[u].gateway == g && db.twins[u].name == name
    && u in db.states && |GatewayTwins(db, g)| == 1
  }

  predicate SensorTwinOk(db: Db, g: Id, s: Id, name: string) {
    var u := SensorUrn(g, s);
    && u in db.twins && !db.twins[u].isGateway && db.twins[u].gateway == g && db.twins[u].name == name
    && u in db.states && (GatewayUrn(g), u) in db.edges
  }

  // ---- the graph invariant ----

  /** One owner and one same-named canonical twin with state per gateway. */
  ghost predicate GatewayOk(db: Db, g: Id) {
    g in db.gateways && |Owners(db, g)| == 1 && GatewayTwinOk(db, g, db.gateways[g].name)
  }

  /** One same-named twin with state and hasSensor edge per sensor, of a known gateway. */
  ghost predicate SensorOk(db: Db, k: (Id, Id)) {
    k in db.sensors && k.0 in db.gateways && SensorTwinOk(db, k.0, k.1, db.sensors[k].name)
  }

  ghost predicate EdgeOk(db: Db, e: (Urn, Urn)) {
    e.1.SensorUrn? && e.0 == GatewayUrn(e.1.g) && (e.1.g, e.1.s) in db.sensors
  }

  /** No twin without its entity, no state without its twin, no membership or edge without
      its ends: foreign keys, and no orphans. */
  ghost predicate NoOrphans(db: Db) {
    && (forall p :: p in db.members ==> p.1 in db.gateways)
    && (forall u :: u in db.twins ==> if u.GatewayUrn? then u.g in db.gateways else (u.g, u.s) in db.sensors)
    && db.states <= db.twins.Keys
    && (forall e :: e in db.edges ==> EdgeOk(db, e))
  }

  ghost predicate WellFormed(db: Db) {
    && (forall g :: g in db.gateways ==> GatewayOk(db, g))
    && (forall k :: k in db.sensors ==> SensorOk(db, k))
    && NoOrphans(db)
  }

  // ---- calls and replies ----

  /** Who may provision a sensor: an administrator, an owner, or either. */
  datatype Mode = ByAdmin | ByOwner | ByEither

  /** `admin` is the answer of the platform-admin lookup, `ownerKnown` whether the profile
      of the new owner exists; both are read outside the graph. */
  datatype Call =
    | NewGateway(g: Id, name: string, description: Option<string>, owner: User, admin: bool, ownerKnown: bool)
    | NewSensor(mode: Mode, actor: User, g: Id, s: Id, name: string, unit: Option<string>, admin: bool)
    | EditGateway(g: Id, newName: Option<string>, newDescription: Option<Option<string>>, admin: bool)
    | EditSensor(actor: User, g: Id, s: Id, toName: string, admin: bool)

  datatype Refusal = Forbidden | NotFound | Conflict | Inconsistent | UniqueViolation

  datatype Reply =
    | GatewayMade(created: bool, gateway: GatewayRow, owner: User)
    | SensorMade(created: bool, sensor: SensorRow)
    | GatewayEdited(name: string, description: Option<string>, updatedAt: Time)
    | SensorEdited(name: string, unit: Option<string>, updatedAt: Time)
    | Refused(error: Refusal)

  datatype Outcome = Outcome(db: Db, reply: Reply)

  // ---- what each call is for, as one atomic change ----

  function AddGateway(db: Db, g: Id, row: GatewayRow, owner: User): Db {
    db.(gateways := db.gateways[g := row], members := db.members[(owner, g) := Owner],
        twins := db.twins[GatewayUrn(g) := Twin(true, g, row.name, row.createdAt)], states := db.states + {GatewayUrn(g)})
  }

  function AddSensor(db: Db, g: Id, s: Id, row: SensorRow): Db {
    db.(sensors := db.sensors[(g, s) := row],
        twins := db.twins[SensorUrn(g, s) := Twin(false, g, row.name, row.createdAt)],
        states := db.states + {SensorUrn(g, s)}, edges := db.edges + {(GatewayUrn(g), SensorUrn(g, s))})
  }

  function SetGateway(db: Db, g: Id, name: string, description: Option<string>, now: Time): Db
    requires g in db.gateways && GatewayUrn(g) in db.twins
  {
    db.(gateways := db.gateways[g := db.gateways[g].(name := name, description := description)],
        twins := db.twins[GatewayUrn(g) := db.twins[GatewayUrn(g)].(name := name, updatedAt := now)])
  }

  function SetSensor(db: Db, g: Id, s: Id, name: string, now: Time): Db
    requires (g, s) in db.sensors && SensorUrn(g, s) in db.twins
  {
    db.(sensors := db.sensors[(g, s) := db.sensors[(g, s)].(name := name)],
        twins := db.twins[SensorUrn(g, s) := db.twins[SensorUrn(g, s)].(name := name, updatedAt := now)])
  }

  predicate NeedsMembership(c: Call) {
    (c.NewSensor? && (c.mode.ByOwner? || (c.mode.ByEither? && !c.admin))) || (c.EditSensor? && !c.admin)
  }

  /** Refusals before the entity itself is looked at. */
  function Access(db: Db, c: Call): Option<Refusal> {
    if (c.NewGateway? || c.EditGateway? || (c.NewSensor? && c.mode.ByAdmin?)) && !c.admin then Some(Forbidden)
    else if c.NewGateway? then if c.ownerKnown then None else Some(NotFound)
    else if c.g !in db.gateways then Some(NotFound)
    else if !NeedsMembership(c) then None
    else if (c.actor, c.g) !in db.members then Some(NotFound)
    else if db.members[(c.actor, c.g)].Owner? then None
    else Some(Forbidden)
  }

  function Target<T>(wanted: Option<T>, current: T): T { if wanted.Some? then wanted.value else current }

  ghost function Refuse(db: Db, e: Refusal): Outcome { Outcome(db, Refused(e)) }

  ghost function ExpectedNewGateway(db: Db, c: Call, started: Time): Outcome
    requires c.NewGateway?
  {
    if c.g !in db.gateways then
      var row := GatewayRow(c.name, c.description, started);
      Outcome(AddGateway(db, c.g, row, c.owner), GatewayMade(true, row, c.owner))
    else
      var row := db.gateways[c.g];
      if row.name != c.name || row.description != c.description || c.owner !in Owners(db, c.g) then Refuse(db, Conflict)
      else Outcome(db, GatewayMade(false, row, c.owner))
  }

  ghost function ExpectedNewSensor(db: Db, c: Call, started: Time): Outcome
    requires c.NewSensor?
  {
    if (c.g, c.s) !in db.sensors then
      var row := SensorRow(c.name, c.unit, started);
      Outcome(AddSensor(db, c.g, c.s, row), SensorMade(true, row))
    else
      var row := db.sensors[(c.g, c.s)];
      if row.name != c.name || row.unit != c.unit then Refuse(db, Conflict) else Outcome(db, SensorMade(false, row))
  }

  ghost function ExpectedEditGateway(db: Db, c: Call, now: Time): Outcome
    requires c.EditGateway? && c.g in db.gateways && GatewayUrn(c.g) in db.twins
  {
    var row := db.gateways[c.g];
    var name, description := Target(c.newName, row.name), Target(c.newDescription, row.description);
    if name == row.name && description == row.description
    then Outcome(db, GatewayEdited(name, description, db.twins[GatewayUrn(c.g)].updatedAt))
    else Outcome(SetGateway(db, c.g, name, description, now), GatewayEdited(name, description, now))
  }

  ghost function ExpectedEditSensor(db: Db, c: Call, now: Time): Outcome
    requires c.EditSensor?
  {
    if (c.g, c.s) !in db.sensors || SensorUrn(c.g, c.s) !in db.twins then Refuse(db, NotFound)
    else
      var row := db.sensors[(c.g, c.s)];
      if c.toName == row.name then Outcome(db, SensorEdited(row.name, row.unit, db.twins[SensorUrn(c.g, c.s)].updatedAt))
      else Outcome(SetSensor(db, c.g, c.s, c.toName, now), SensorEdited(c.toName, row.unit, now))
  }

  /** The call run alone on a well-formed graph: `started` is the transaction's time, `now`
      the time of its last write.  Nothing here looks for corruption. */
  ghost function Expected(db: Db, c: Call, started: Time, now: Time): Outcome
    requires WellFormed(db)
  {
    var refused := Access(db, c);
    if refused.Some? then Refuse(db, refused.value)
    else if c.NewGateway? then ExpectedNewGateway(db, c, started)
    else if c.NewSensor? then ExpectedNewSensor(db, c, started)
    else if c.EditGateway? then
      assert GatewayOk(db, c.g);
      ExpectedEditGateway(db, c, now)
    else ExpectedEditSensor(db, c, now)
  }

  // ---- every call keeps the graph well formed ----

  /** The stored type and scope of every twin are those of its URN. */
  ghost predicate Scoped(db: Db) {
    forall u :: u in db.twins ==> db.twins[u].isGateway == u.GatewayUrn? && db.twins[u].gateway == u.g
  }

  lemma WellScoped(db: Db)
    requires WellFormed(db)
    ensures Scoped(db)
  {
    forall u | u in db.twins ensures db.twins[u].isGateway == u.GatewayUrn? && db.twins[u].gateway == u.g {
      if u.GatewayUrn? { assert GatewayOk(db, u.g); } else { assert SensorOk(db, (u.g, u.s)); }
    }
  }

  /** In a scoped graph the count of a gateway's twins needs no separate check. */
  lemma OnlyTwin(db: Db, g: Id)
    requires Scoped(db) && GatewayUrn(g) in db.twins
    ensures GatewayTwins(db, g) == {GatewayUrn(g)}
  {}

  lemma OneOwner(db: Db, g: Id) returns (m: User)
    requires WellFormed(db) && g in db.gateways
    ensures Owners(db, g) == {m}
  {
    assert GatewayOk(db, g);
    var owners := Owners(db, g);
    m :| m in owners;
    assert |owners - {m}| == 0;
    assert owners == {m} + (owners - {m});
  }

  /** The part of the graph that belongs to gateway `g`. */
  ghost predicate SameGateway(d: Db, e: Db, g: Id) {
    var u := GatewayUrn(g);
    && (g in d.gateways <==> g in e.gateways) && (g in d.gateways ==> d.gateways[g] == e.gateways[g])
    && (forall m: User :: ((m, g) in d.members <==> (m, g) in e.members) && ((m, g) in d.members ==> d.members[(m, g)] == e.members[(m, g)]))
    && (u in d.twins <==> u in e.twins) && (u in d.twins ==> d.twins[u] == e.twins[u])
    && (u in d.states <==> u in e.states)
  }

  /** The part of the graph that belongs to sensor `s` of gateway `g`. */
  ghost predicate SameSensor(d: Db, e: Db, g: Id, s: Id) {
    var u := SensorUrn(g, s);
    && ((g, s) in d.sensors <==> (g, s) in e.sensors) && ((g, s) in d.sensors ==> d.sensors[(g, s)] == e.sensors[(g, s)])
    && (u in d.twins <==> u in e.twins) && (u in d.twins ==> d.twins[u] == e.twins[u])
    && (u in d.states <==> u in e.states)
    && ((GatewayUrn(g), u) in d.edges <==> (GatewayUrn(g), u) in e.edges)
  }

  lemma SameOwners(d: Db, e: Db, g: Id)
    requires SameGateway(d, e, g)
    ensures Owners(d, g) == Owners(e, g)
  {
    forall m | m in Owners(d, g) ensures m in Owners(e, g) { assert (m, g) in e.members; }
    forall m | m in Owners(e, g) ensures m in Owners(d, g) { assert (m, g) in d.members; }
  }

  /** A gateway is well formed as long as its part is untouched and the graph stays scoped. */
  lemma GatewayKept(d: Db, e: Db, g: Id)
    requires GatewayOk(d, g) && SameGateway(d, e, g) && Scoped(e)
    ensures GatewayOk(e, g)
  {
    SameOwners(d, e, g);
    OnlyTwin(e, g);
  }

  lemma SensorKept(d: Db, e: Db, k: (Id, Id))
    requires SensorOk(d, k) && SameSensor(d, e, k.0, k.1) && k.0 in e.gateways
    ensures SensorOk(e, k)
  {}

  /** Nothing outside gateway `g` changed. */
  ghost predicate OnlyGateway(d: Db, e: Db, g: Id) {
    && (forall h :: h != g ==> SameGateway(d, e, h))
    && (forall h, s :: SameSensor(d, e, h, s))
  }

  /** Nothing outside sensor `s` of gateway `g` changed. */
  ghost predicate OnlySensor(d: Db, e: Db, g: Id, s: Id) {
    && (forall h :: SameGateway(d, e, h))
    && (forall h, r :: (h, r) != (g, s) ==> SameSensor(d, e, h, r))
  }

  lemma GatewayChangeKeeps(d: Db, e: Db, g: Id)
    requires WellFormed(d) && OnlyGateway(d, e, g) && Scoped(e) && NoOrphans(e) && GatewayOk(e, g)
    ensures WellFormed(e)
  {
    forall h | h in e.gateways && h != g ensures GatewayOk(e, h) {
      assert SameGateway(d, e, h);
      assert GatewayOk(d, h);
      GatewayKept(d, e, h);
    }
    forall k | k in e.sensors ensures SensorOk(e, k) {
      assert SameSensor(d, e, k.0, k.1);
      assert SensorOk(d, k);
      assert k.0 != g ==> SameGateway(d, e, k.0);
      SensorKept(d, e, k);
    }
  }

  lemma SensorChangeKeeps(d: Db, e: Db, g: Id, s: Id)
    requires WellFormed(d) && OnlySensor(d, e, g, s) && Scoped(e) && NoOrphans(e) && SensorOk(e, (g, s))
    ensures WellFormed(e)
  {
    forall h | h in e.gateways ensures GatewayOk(e, h) {
      assert SameGateway(d, e, h);
      assert GatewayOk(d, h);
      GatewayKept(d, e, h);
    }
    forall k | k in e.sensors && k != (g, s) ensures SensorOk(e, k) {
      assert SameSensor(d, e, k.0, k.1) && SameGateway(d, e, k.0);
      assert SensorOk(d, k);
      SensorKept(d, e, k);
    }
  }

  lemma AddGatewayFrame(db: Db, g: Id, row: GatewayRow, owner: User)
    requires g !in db.gateways
    ensures OnlyGateway(db, AddGateway(db, g, row, owner), g)
  {}

  lemma AddGatewayNoOrphans(db: Db, g: Id, row: GatewayRow, owner: User)
    requires NoOrphans(db)
    ensures NoOrphans(AddGateway(db, g, row, owner))
  {}

  lemma AddGatewayScoped(db: Db, g: Id, row: GatewayRow, owner: User)
    requires Scoped(db)
    ensures Scoped(AddGateway(db, g, row, owner))
  {}

  lemma AddGatewayWhole(db: Db, g: Id, row: GatewayRow, owner: User)
    requires WellFormed(db) && g !in db.gateways
    ensures Scoped(AddGateway(db, g, row, owner)) && NoOrphans(AddGateway(db, g, row, owner)) && GatewayOk(AddGateway(db, g, row, owner), g)
  {
    WellScoped(db);
    AddGatewayScoped(db, g, row, owner);
    OnlyTwin(AddGateway(db, g, row, owner), g);
    AddedOwner(db, g, row, owner);
    AddGatewayNoOrphans(db, g, row, owner);
    hide NoOrphans, WellFormed, Scoped, Owners, GatewayTwins;
  }

  lemma AddGatewayKeeps(db: Db, g: Id, row: GatewayRow, owner: User)
    requires WellFormed(db) && g !in db.gateways
    ensures WellFormed(AddGateway(db, g, row, owner)) && OnlyGateway(db, AddGateway(db, g, row, owner), g)
  {
    hide WellFormed, Scoped, NoOrphans, GatewayOk, SensorOk, OnlyGateway, OnlySensor;
    AddGatewayFrame(db, g, row, owner);
    AddGatewayWhole(db, g, row, owner);
    GatewayChangeKeeps(db, AddGateway(db, g, row, owner), g);
  }

  lemma AddSensorFrame(db: Db, g: Id, s: Id, row: SensorRow)
    requires g in db.gateways && (g, s) !in db.sensors
    ensures OnlySensor(db, AddSensor(db, g, s, row), g, s)
  {}

  lemma AddSensorWhole(db: Db, g: Id, s: Id, row: SensorRow)
    requires WellFormed(db) && g in db.gateways && (g, s) !in db.sensors
    ensures Scoped(AddSensor(db, g, s, row)) && NoOrphans(AddSensor(db, g, s, row)) && SensorOk(AddSensor(db, g, s, row), (g, s))
  {
    WellScoped(db);
  }

  lemma AddSensorKeeps(db: Db, g: Id, s: Id, row: SensorRow)
    requires WellFormed(db) && g in db.gateways && (g, s) !in db.sensors
    ensures WellFormed(AddSensor(db, g, s, row)) && OnlySensor(db, AddSensor(db, g, s, row), g, s)
  {
    hide WellFormed, Scoped, NoOrphans, GatewayOk, SensorOk, OnlyGateway, OnlySensor;
    AddSensorFrame(db, g, s, row);
    AddSensorWhole(db, g, s, row);
    SensorChangeKeeps(db, AddSensor(db, g, s, row), g, s);
  }

  lemma SetGatewayFrame(db: Db, g: Id, name: string, description: Option<string>, now: Time)
    requires g in db.gateways && GatewayUrn(g) in db.twins
    ensures OnlyGateway(db, SetGateway(db, g, name, description, now), g)
  {}

  lemma SetGatewayWhole(db: Db, g: Id, name: string, description: Option<string>, now: Time)
    requires WellFormed(db) && g in db.gateways && GatewayUrn(g) in db.twins
    ensures Scoped(SetGateway(db, g, name, description, now)) && NoOrphans(SetGateway(db, g, name, description, now)) && GatewayOk(SetGateway(db, g, name, description, now), g)
  {
    var e := SetGateway(db, g, name, description, now);
    WellScoped(db);
    assert GatewayOk(db, g);
    assert Scoped(e);
    OnlyTwin(e, g);
    assert Owners(e, g) == Owners(db, g);
  }

  lemma SetGatewayKeeps(db: Db, g: Id, name: string, description: Option<string>, now: Time)
    requires WellFormed(db) && g in db.gateways && GatewayUrn(g) in db.twins
    ensures WellFormed(SetGateway(db, g, name, description, now)) && OnlyGateway(db, SetGateway(db, g, name, description, now), g)
  {
    hide WellFormed, Scoped, NoOrphans, GatewayOk, SensorOk, OnlyGateway, OnlySensor;
    SetGatewayFrame(db, g, name, description, now);
    SetGatewayWhole(db, g, name, description, now);
    GatewayChangeKeeps(db, SetGateway(db, g, name, description, now), g);
  }

  lemma SetSensorFrame(db: Db, g: Id, s: Id, name: string, now: Time)
    requires (g, s) in db.sensors && SensorUrn(g, s) in db.twins
    ensures OnlySensor(db, SetSensor(db, g, s, name, now), g, s)
  {}

  lemma SetSensorWhole(db: Db, g: Id, s: Id, name: string, now: Time)
    requires WellFormed(db) && (g, s) in db.sensors && SensorUrn(g, s) in db.twins
    ensures Scoped(SetSensor(db, g, s, name, now)) && NoOrphans(SetSensor(db, g, s, name, now)) && SensorOk(SetSensor(db, g, s, name, now), (g, s))
  {
    WellScoped(db);
    assert SensorOk(db, (g, s));
  }

  lemma SetSensorKeeps(db: Db, g: Id, s: Id, name: string, now: Time)
    requires WellFormed(db) && (g, s) in db.sensors && SensorUrn(g, s) in db.twins
    ensures WellFormed(SetSensor(db, g, s, name, now)) && OnlySensor(db, SetSensor(db, g, s, name, now), g, s)
  {
    hide WellFormed, Scoped, NoOrphans, GatewayOk, SensorOk, OnlyGateway, OnlySensor;
    SetSensorFrame(db, g, s, name, now);
    SetSensorWhole(db, g, s, name, now);
    SensorChangeKeeps(db, SetSensor(db, g, s, name, now), g, s);
  }

  /** Any call, run alone, keeps the graph well formed. */
  lemma ExpectedKeeps(db: Db, c: Call, started: Time, now: Time)
    requires WellFormed(db)
    ensures WellFormed(Expected(db, c, started, now).db)
  {
    hide WellFormed;
    assert c.EditSensor? && (c.g, c.s) in db.sensors ==> SensorUrn(c.g, c.s) in db.twins by { SensorHasTwin(db, c); }
    if Access(db, c).None? {
      if c.NewGateway? && c.g !in db.gateways {
        AddGatewayKeeps(db, c.g, GatewayRow(c.name, c.description, started), c.owner);
      } else if c.NewSensor? && (c.g, c.s) !in db.sensors {
        AddSensorKeeps(db, c.g, c.s, SensorRow(c.name, c.unit, started));
      } else if c.EditGateway? {
        GatewayHasTwin(db, c.g);
        SetGatewayKeeps(db, c.g, Target(c.newName, db.gateways[c.g].name), Target(c.newDescription, db.gateways[c.g].description), now);
      } else if c.EditSensor? && (c.g, c.s) in db.sensors {
        SetSensorKeeps(db, c.g, c.s, c.toName, now);
      }
    }
  }

  lemma GatewayHasTwin(db: Db, g: Id)
    requires WellFormed(db) && g in db.gateways
    ensures GatewayUrn(g) in db.twins
  {
    assert GatewayOk(db, g);
  }

  lemma SensorHasTwin(db: Db, c: Call)
    requires WellFormed(db)
    ensures c.EditSensor? && (c.g, c.s) in db.sensors ==> SensorUrn(c.g, c.s) in db.twins
  {
    if c.EditSensor? && (c.g, c.s) in db.sensors { assert SensorOk(db, (c.g, c.s)); }
  }

  // ---- what callers are promised ----

  /** The reply is what the tables hold, and what the caller asked for. */
  ghost predicate Truthful(e: Db, c: Call, r: Reply) {
    match r
    case GatewayMade(_, row, owner) =>
      c.NewGateway? && row.name == c.name && row.description == c.description && owner == c.owner
      && c.g in e.gateways && e.gateways[c.g] == row && Owners(e, c.g) == {owner}
    case SensorMade(_, row) =>
      c.NewSensor? && row.name == c.name && row.unit == c.unit && (c.g, c.s) in e.sensors && e.sensors[(c.g, c.s)] == row
    case GatewayEdited(name, description, at) =>
      && c.EditGateway? && (c.newName.Some? ==> name == c.newName.value) && (c.newDescription.Some? ==> description == c.newDescription.value)
      && c.g in e.gateways && e.gateways[c.g].name == name && e.gateways[c.g].description == description
      && GatewayUrn(c.g) in e.twins && e.twins[GatewayUrn(c.g)].name == name && e.twins[GatewayUrn(c.g)].updatedAt == at
    case SensorEdited(name, unit, at) =>
      && c.EditSensor? && name == c.toName
      && (c.g, c.s) in e.sensors && e.sensors[(c.g, c.s)].name == name && e.sensors[(c.g, c.s)].unit == unit
      && SensorUrn(c.g, c.s) in e.twins && e.twins[SensorUrn(c.g, c.s)].name == name && e.twins[SensorUrn(c.g, c.s)].updatedAt == at
    case Refused(_) => true
  }

  /** The reply of a call that was not refused is the row it leaves behind. */
  lemma ReplyIsCommittedRow(db: Db, c: Call, started: Time, now: Time)
    requires WellFormed(db)
    ensures Truthful(Expected(db, c, started, now).db, c, Expected(db, c, started, now).reply)
  {
    if Access(db, c).None? {
      assert c.EditGateway? ==> GatewayOk(db, c.g);
      hide WellFormed, Truthful, ExpectedNewGateway, ExpectedNewSensor, ExpectedEditGateway, ExpectedEditSensor, Access;
      match c
      case NewGateway(_, _, _, _, _, _) => TruthfulNewGateway(db, c, started);
      case NewSensor(_, _, _, _, _, _, _) => TruthfulNewSensor(db, c, started);
      case EditGateway(_, _, _, _) => TruthfulEditGateway(db, c, now);
      case EditSensor(_, _, _, _, _) => TruthfulEditSensor(db, c, now);
    }
  }

  lemma TruthfulNewSensor(db: Db, c: Call, started: Time)
    requires c.NewSensor?
    ensures Truthful(ExpectedNewSensor(db, c, started).db, c, ExpectedNewSensor(db, c, started).reply)
  {}

  lemma TruthfulEditGateway(db: Db, c: Call, now: Time)
    requires WellFormed(db) && c.EditGateway? && c.g in db.gateways && GatewayUrn(c.g) in db.twins
    ensures Truthful(ExpectedEditGateway(db, c, now).db, c, ExpectedEditGateway(db, c, now).reply)
  {
    assert GatewayOk(db, c.g);
  }

  lemma TruthfulEditSensor(db: Db, c: Call, now: Time)
    requires WellFormed(db) && c.EditSensor?
    ensures Truthful(ExpectedEditSensor(db, c, now).db, c, ExpectedEditSensor(db, c, now).reply)
  {
    if (c.g, c.s) in db.sensors { assert SensorOk(db, (c.g, c.s)); }
  }

  lemma TruthfulNewGateway(db: Db, c: Call, started: Time)
    requires WellFormed(db) && c.NewGateway?
    ensures Truthful(ExpectedNewGateway(db, c, started).db, c, ExpectedNewGateway(db, c, started).reply)
  {
    if c.g in db.gateways {
      var m := OneOwner(db, c.g);
    } else {
      AddedOwner(db, c.g, GatewayRow(c.name, c.description, started), c.owner);
    }
  }

  lemma AddedOwner(db: Db, g: Id, row: GatewayRow, owner: User)
    requires NoOrphans(db) && g !in db.gateways
    ensures Owners(AddGateway(db, g, row, owner), g) == {owner}
  {}

  /** The reply to an exact repetition: the same row, not created this time. */
  function Repeated(r: Reply): Reply {
    match r
    case GatewayMade(_, row, owner) => GatewayMade(false, row, owner)
    case SensorMade(_, row) => SensorMade(false, row)
    case _ => r
  }

  /** A successful create, sent again: the same row, not created, and nothing changes. */
  lemma ReplayIsNoOp(db: Db, c: Call, started: Time, again: Time, now: Time)
    requires WellFormed(db) && (c.NewGateway? || c.NewSensor?) && !Expected(db, c, started, now).reply.Refused?
    ensures WellFormed(Expected(db, c, started, now).db)
    ensures var e := Expected(db, c, started, now);
      Expected(e.db, c, again, now) == Outcome(e.db, Repeated(e.reply))
  {
    ExpectedKeeps(db, c, started, now);
    ReplyIsCommittedRow(db, c, started, now);
    hide WellFormed, Truthful, ExpectedNewGateway, ExpectedNewSensor;
    var e := Expected(db, c, started, now);
    SecondTime(e.db, c, e.reply, again);
    AccessKept(db, c, started);
  }

  lemma SecondTime(e: Db, c: Call, r: Reply, again: Time)
    requires (c.NewGateway? || c.NewSensor?) && Truthful(e, c, r) && !r.Refused?
    ensures c.NewGateway? ==> ExpectedNewGateway(e, c, again) == Outcome(e, Repeated(r))
    ensures c.NewSensor? ==> ExpectedNewSensor(e, c, again) == Outcome(e, Repeated(r))
  {}

  lemma AccessKept(db: Db, c: Call, started: Time)
    requires Access(db, c).None?
    ensures c.NewGateway? ==> Access(ExpectedNewGateway(db, c, started).db, c).None?
    ensures c.NewSensor? ==> Access(ExpectedNewSensor(db, c, started).db, c).None?
  {}

  /** A PATCH that names the values already stored leaves the graph, timestamp included. */
  lemma SameValuePatch(db: Db, c: Call, started: Time, now: Time)
    requires WellFormed(db) && (c.EditGateway? || c.EditSensor?) && Access(db, c).None?
    requires c.EditGateway? ==> Target(c.newName, db.gateways[c.g].name) == db.gateways[c.g].name && Target(c.newDescription, db.gateways[c.g].description) == db.gateways[c.g].description
    requires c.EditSensor? ==> (c.g, c.s) in db.sensors && c.toName == db.sensors[(c.g, c.s)].name
    ensures Expected(db, c, started, now).db == db && Truthful(db, c, Expected(db, c, started, now).reply)
  {
    ReplyIsCommittedRow(db, c, started, now);
    if c.EditSensor? { assert SensorOk(db, (c.g, c.s)); }
  }

  // ---- the invariant read off the tables ----

  /** A gateway of a well-formed graph has one owner and the canonical twin, which is its only
      one of that type; a sensor has its own, linked from its gateway's; and there is no twin,
      membership or edge besides. */
  lemma WellFormedMeans(db: Db)
    requires WellFormed(db)
    ensures forall g :: g in db.gateways ==> exists m :: OwnerRow(db.members, m, g) && forall n :: OwnerRow(db.members, n, g) ==> n == m
    ensures forall g :: g in db.gateways ==> var u := GatewayUrn(g); u in db.twins && u in db.states && db.twins[u].name == db.gateways[g].name
    ensures forall u :: u in db.twins && db.twins[u].isGateway ==> u == GatewayUrn(db.twins[u].gateway) && db.twins[u].gateway in db.gateways
    ensures forall g, s :: (g, s) in db.sensors ==> g in db.gateways
    ensures forall g, s :: (g, s) in db.sensors ==> var u := SensorUrn(g, s);
      u in db.twins && u in db.states && !db.twins[u].isGateway && db.twins[u].gateway == g && db.twins[u].name == db.sensors[(g, s)].name
    ensures forall g, s :: (g, s) in db.sensors ==> (GatewayUrn(g), SensorUrn(g, s)) in db.edges
    ensures forall u :: u in db.twins && !db.twins[u].isGateway ==> u.SensorUrn? && (u.g, u.s) in db.sensors
    ensures forall m, g :: (m, g) in db.members ==> g in db.gateways
    ensures forall e :: e in db.edges ==> e.1.SensorUrn? && (e.1.g, e.1.s) in db.sensors && e.0 == GatewayUrn(e.1.g)
  {
    WellScoped(db);
    forall g | g in db.gateways ensures exists m :: OwnerRow(db.members, m, g) && forall n :: OwnerRow(db.members, n, g) ==> n == m {
      var m := OneOwner(db, g);
      forall n ensures n in Owners(db, g) <==> OwnerRow(db.members, n, g) { OwnersAre(db, g, n); }
      assert OwnerRow(db.members, m, g);
    }
    hide Owners, GatewayTwins;
    forall g | g in db.gateways ensures var u := GatewayUrn(g); u in db.twins && u in db.states && db.twins[u].name == db.gateways[g].name { assert GatewayOk(db, g); }
    forall g, s | (g, s) in db.sensors
      ensures g in db.gateways && (GatewayUrn(g), SensorUrn(g, s)) in db.edges
      ensures var u := SensorUrn(g, s); u in db.twins && u in db.states && !db.twins[u].isGateway && db.twins[u].gateway == g && db.twins[u].name == db.sensors[(g, s)].name
    {
      assert SensorOk(db, (g, s));
    }
    forall e | e in db.edges ensures e.1.SensorUrn? && (e.1.g, e.1.s) in db.sensors && e.0 == GatewayUrn(e.1.g) { assert EdgeOk(db, e); }
  }

  // ---- who may call, and why a call is refused, read off the call and the tables ----

  ghost predicate OwnerRow(members: map<(User, Id), Role>, user: User, g: Id) { (user, g) in members && members[(user, g)].Owner? }
  ghost predicate OtherRow(members: map<(User, Id), Role>, user: User, g: Id) { (user, g) in members && !members[(user, g)].Owner? }

  /** Administrators alone create and edit gateways; sensors are for an administrator, an
      owner of the gateway, or either, as the call's mode says. */
  ghost predicate Authorised(members: map<(User, Id), Role>, c: Call) {
    match c
    case NewGateway(_, _, _, _, admin, _) => admin
    case EditGateway(_, _, _, admin) => admin
    case EditSensor(actor, g, _, _, admin) => admin || OwnerRow(members, actor, g)
    case NewSensor(mode, actor, g, _, _, _, admin) =>
      (match mode
       case ByAdmin => admin
       case ByOwner => OwnerRow(members, actor, g)
       case ByEither => admin || OwnerRow(members, actor, g))
  }

  /** The caller stands or falls with a membership row. */
  ghost predicate ByMembership(c: Call) {
    match c
    case NewGateway(_, _, _, _, _, _) => false
    case EditGateway(_, _, _, _) => false
    case EditSensor(_, _, _, _, admin) => !admin
    case NewSensor(mode, _, _, _, _, _, admin) =>
      (match mode
       case ByAdmin => false
       case ByOwner => true
       case ByEither => !admin)
  }

  /** Only the administrator flag counts, and it is not set. */
  ghost predicate NoAdmin(c: Call) {
    match c
    case NewGateway(_, _, _, _, admin, _) => !admin
    case EditGateway(_, _, _, admin) => !admin
    case EditSensor(_, _, _, _, _) => false
    case NewSensor(mode, _, _, _, _, _, admin) => mode.ByAdmin? && !admin
  }

  ghost predicate WhyForbidden(db: Db, c: Call) {
    NoAdmin(c) || (ByMembership(c) && c.g in db.gateways && OtherRow(db.members, c.actor, c.g))
  }

  ghost predicate WhyMissing(db: Db, c: Call) {
    && !NoAdmin(c)
    && match c
       case NewGateway(_, _, _, _, _, ownerKnown) => !ownerKnown
       case EditGateway(g, _, _, _) => g !in db.gateways
       case NewSensor(_, actor, g, _, _, _, _) => g !in db.gateways || (ByMembership(c) && (actor, g) !in db.members)
       case EditSensor(actor, g, s, _, _) =>
         g !in db.gateways || (ByMembership(c) && (actor, g) !in db.members) || (Authorised(db.members, c) && (g, s) !in db.sensors)
  }

  /** A create names an entity that exists with other values. */
  ghost predicate WhyConflict(db: Db, c: Call) {
    && Authorised(db.members, c)
    && match c
       case NewGateway(g, name, description, owner, _, ownerKnown) =>
         ownerKnown && g in db.gateways && !(db.gateways[g].name == name && db.gateways[g].description == description && OwnerRow(db.members, owner, g))
       case NewSensor(_, _, g, s, name, unit, _) =>
         g in db.gateways && (g, s) in db.sensors && !(db.sensors[(g, s)].name == name && db.sensors[(g, s)].unit == unit)
       case _ => false
  }

  /** Each refusal exactly for its reason, and no other; what is not refused was authorised. */
  ghost predicate Justified(db: Db, c: Call, r: Reply) {
    && (r == Refused(Forbidden) <==> WhyForbidden(db, c))
    && (r == Refused(NotFound) <==> WhyMissing(db, c))
    && (r == Refused(Conflict) <==> WhyConflict(db, c))
    && (r.Refused? ==> r.error.Forbidden? || r.error.NotFound? || r.error.Conflict?)
    && (!r.Refused? ==> Authorised(db.members, c))
  }

  lemma AccessMeans(db: Db, c: Call)
    requires Access(db, c).None?
    ensures Authorised(db.members, c) && !WhyForbidden(db, c)
  {}

  lemma JustifiedNewGateway(db: Db, c: Call, started: Time)
    requires c.NewGateway? && Access(db, c).None?
    ensures Justified(db, c, ExpectedNewGateway(db, c, started).reply)
  {
    OwnersAre(db, c.g, c.owner);
    hide Owners;
  }

  lemma JustifiedNewSensor(db: Db, c: Call, started: Time)
    requires c.NewSensor? && Access(db, c).None?
    ensures Justified(db, c, ExpectedNewSensor(db, c, started).reply)
  {}

  lemma JustifiedEditGateway(db: Db, c: Call, now: Time)
    requires c.EditGateway? && Access(db, c).None? && GatewayUrn(c.g) in db.twins
    ensures Justified(db, c, ExpectedEditGateway(db, c, now).reply)
  {
    hide SetGateway;
  }

  lemma JustifiedEditSensor(db: Db, c: Call, now: Time)
    requires c.EditSensor? && Access(db, c).None? && ((c.g, c.s) in db.sensors ==> SensorUrn(c.g, c.s) in db.twins)
    ensures Justified(db, c, ExpectedEditSensor(db, c, now).reply)
  {
    hide SetSensor;
  }

  lemma JustifiedRefusal(db: Db, c: Call)
    requires Access(db, c).Some?
    ensures Justified(db, c, Refused(Access(db, c).value))
  {}

  lemma ExpectedJustified(db: Db, c: Call, started: Time, now: Time)
    requires WellFormed(db)
    ensures Justified(db, c, Expected(db, c, started, now).reply)
  {
    assert c.EditGateway? && c.g in db.gateways ==> GatewayOk(db, c.g);
    assert c.EditGateway? && Access(db, c).None? ==> c.g in db.gateways && GatewayUrn(c.g) in db.twins;
    hide WellFormed, Justified, Access, ExpectedNewGateway, ExpectedNewSensor, ExpectedEditGateway, ExpectedEditSensor;
    if Access(db, c).Some? {
      JustifiedRefusal(db, c);
    } else if c.NewGateway? {
      JustifiedNewGateway(db, c, started);
    } else if c.NewSensor? {
      JustifiedNewSensor(db, c, started);
    } else if c.EditGateway? {
      JustifiedEditGateway(db, c, now);
    } else {
      SensorHasTwin(db, c);
      JustifiedEditSensor(db, c, now);
    }
  }

  lemma OwnersAre(db: Db, g: Id, user: User)
    ensures user in Owners(db, g) <==> OwnerRow(db.members, user, g)
  {}

  // ---- what a call that is not refused changes, field by field ----

  /** An exact replay changes nothing; a create adds one gateway with its one member, the
      owner, and its twin with state; a PATCH changes the fields it names, keeps the rest,
      and stamps the twin only if something changed.  Nothing outside the entity moves. */
  ghost predicate Effect(d: Db, e: Db, c: Call, r: Reply, started: Time, now: Time) {
    match r
    case Refused(_) => e == d
    case GatewayMade(created, row, owner) =>
      c.NewGateway? && (created <==> c.g !in d.gateways) &&
      (if created then MadeGatewayRow(d, e, c, row, started) else e == d && row == d.gateways[c.g])
    case SensorMade(created, row) =>
      c.NewSensor? && (created <==> (c.g, c.s) !in d.sensors) &&
      (if created then MadeSensorRow(d, e, c, row, started) else e == d && row == d.sensors[(c.g, c.s)])
    case GatewayEdited(_, _, at) => c.EditGateway? && EditedGatewayRow(d, e, c, at, now)
    case SensorEdited(_, _, at) => c.EditSensor? && EditedSensorRow(d, e, c, at, now)
  }

  ghost predicate MadeGatewayRow(d: Db, e: Db, c: Call, row: GatewayRow, started: Time)
    requires c.NewGateway?
  {
    var u := GatewayUrn(c.g);
    && OnlyGateway(d, e, c.g)
    && c.g in e.gateways && e.gateways[c.g] == row == GatewayRow(c.name, c.description, started)
    && OwnerRow(e.members, c.owner, c.g) && (forall m :: (m, c.g) in e.members ==> m == c.owner)
    && u in e.twins && e.twins[u] == Twin(true, c.g, c.name, started) && u in e.states
  }

  ghost predicate MadeSensorRow(d: Db, e: Db, c: Call, row: SensorRow, started: Time)
    requires c.NewSensor?
  {
    var u := SensorUrn(c.g, c.s);
    && OnlySensor(d, e, c.g, c.s)
    && (c.g, c.s) in e.sensors && e.sensors[(c.g, c.s)] == row == SensorRow(c.name, c.unit, started)
    && u in e.twins && e.twins[u] == Twin(false, c.g, c.name, started) && u in e.states && (GatewayUrn(c.g), u) in e.edges
  }

  ghost predicate EditedGatewayRow(d: Db, e: Db, c: Call, at: Time, now: Time)
    requires c.EditGateway?
  {
    var u := GatewayUrn(c.g);
    && OnlyGateway(d, e, c.g) && e.members == d.members && e.states == d.states
    && c.g in d.gateways && c.g in e.gateways && u in d.twins && u in e.twins
    && var old_, new_ := d.gateways[c.g], e.gateways[c.g];
       && new_.createdAt == old_.createdAt
       && (match c.newName case Some(name) => new_.name == name case None => new_.name == old_.name)
       && (match c.newDescription case Some(text) => new_.description == text case None => new_.description == old_.description)
       && e.twins[u] == Twin(d.twins[u].isGateway, d.twins[u].gateway, new_.name, at)
       && at == if new_ == old_ then d.twins[u].updatedAt else now
  }

  ghost predicate EditedSensorRow(d: Db, e: Db, c: Call, at: Time, now: Time)
    requires c.EditSensor?
  {
    var u, k := SensorUrn(c.g, c.s), (c.g, c.s);
    && OnlySensor(d, e, c.g, c.s) && k in d.sensors && k in e.sensors && u in d.twins && u in e.twins
    && e.sensors[k] == SensorRow(c.toName, d.sensors[k].unit, d.sensors[k].createdAt)
    && e.twins[u] == Twin(d.twins[u].isGateway, d.twins[u].gateway, c.toName, at)
    && at == if c.toName == d.sensors[k].name then d.twins[u].updatedAt else now
  }

  lemma EffectNewGateway(db: Db, c: Call, started: Time, now: Time)
    requires NoOrphans(db) && c.NewGateway?
    ensures Effect(db, ExpectedNewGateway(db, c, started).db, c, ExpectedNewGateway(db, c, started).reply, started, now)
  {
    if c.g !in db.gateways { AddGatewayFrame(db, c.g, GatewayRow(c.name, c.description, started), c.owner); }
    hide OnlyGateway, Owners;
  }

  lemma EffectNewSensor(db: Db, c: Call, started: Time, now: Time)
    requires c.NewSensor? && c.g in db.gateways
    ensures Effect(db, ExpectedNewSensor(db, c, started).db, c, ExpectedNewSensor(db, c, started).reply, started, now)
  {
    if (c.g, c.s) !in db.sensors { AddSensorFrame(db, c.g, c.s, SensorRow(c.name, c.unit, started)); }
    hide OnlySensor;
  }

  lemma SameParts(db: Db)
    ensures forall g :: OnlyGateway(db, db, g)
    ensures forall g, s :: OnlySensor(db, db, g, s)
  {}

  lemma EffectEditGateway(db: Db, c: Call, started: Time, now: Time)
    requires GatewayOkFor(db, c)
    ensures Effect(db, ExpectedEditGateway(db, c, now).db, c, ExpectedEditGateway(db, c, now).reply, started, now)
  {
    SameParts(db);
    SetGatewayFrame(db, c.g, Target(c.newName, db.gateways[c.g].name), Target(c.newDescription, db.gateways[c.g].description), now);
    hide OnlyGateway, OnlySensor;
  }

  ghost predicate GatewayOkFor(db: Db, c: Call) {
    c.EditGateway? && c.g in db.gateways && GatewayUrn(c.g) in db.twins && db.twins[GatewayUrn(c.g)].name == db.gateways[c.g].name
  }

  lemma EffectEditSensor(db: Db, c: Call, started: Time, now: Time)
    requires c.EditSensor? && ((c.g, c.s) in db.sensors ==> SensorOk(db, (c.g, c.s)))
    ensures Effect(db, ExpectedEditSensor(db, c, now).db, c, ExpectedEditSensor(db, c, now).reply, started, now)
  {
    SameParts(db);
    if (c.g, c.s) in db.sensors {
      SetSensorFrame(db, c.g, c.s, c.toName, now);
    }
    hide OnlyGateway, OnlySensor;
  }

  lemma ExpectedEffect(db: Db, c: Call, started: Time, now: Time)
    requires WellFormed(db)
    ensures Effect(db, Expected(db, c, started, now).db, c, Expected(db, c, started, now).reply, started, now)
  {
    assert c.EditGateway? && c.g in db.gateways ==> GatewayOkFor(db, c) by { if c.EditGateway? && c.g in db.gateways { assert GatewayOk(db, c.g); } }
    hide ExpectedNewGateway, ExpectedNewSensor, ExpectedEditGateway, ExpectedEditSensor, GatewayOkFor;
    hide MadeGatewayRow, MadeSensorRow, EditedGatewayRow, EditedSensorRow;
    if Access(db, c).None? {
      match c
      case NewGateway(_, _, _, _, _, _) => EffectNewGateway(db, c, started, now);
      case NewSensor(_, _, _, _, _, _, _) => EffectNewSensor(db, c, started, now);
      case EditGateway(_, _, _, _) => EffectEditGateway(db, c, started, now);
      case EditSensor(_, _, _, _, _) => EffectEditSensor(db, c, started, now);
    }
  }
}
