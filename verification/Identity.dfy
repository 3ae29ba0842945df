/** Public NGSI-LD URNs (identity.go): printing and strict parsing undo each other. */
module Identity {
  import opened Wrappers
  import opened Text
  import opened Graph
  import opened Json

  const GATEWAY_PREFIX := "urn:ngsi-ld:Gateway:"
  const SENSOR_PREFIX := "urn:ngsi-ld:Sensor:"
  const MAX_URN_LENGTH := 160

  predicate Alnum(c: char) { 'A' <= c <= 'Z' || 'a' <= c <= 'z' || '0' <= c <= '9' }

  /** The identifier allowlist: 1 to 64 bytes, the first one alphanumeric. */
  predicate ValidId(id: string) {
    && 1 <= |id| <= 64 && Alnum(id[0])
    && forall i :: 0 <= i < |id| ==> Alnum(id[i]) || id[i] == '_' || id[i] == '-'
  }

  /** One name is reserved for the backend itself. */
  predicate ValidGatewayId(id: string) { id != "backend_service" && ValidId(id) }

  predicate ValidUrn(u: Urn) { ValidGatewayId(u.g) && (u.SensorUrn? ==> ValidId(u.s)) }

  /** The builders of the mapper package. */
  function Print(u: Urn): string {
    match u
    case GatewayUrn(g) => GATEWAY_PREFIX + g
    case SensorUrn(g, s) => SENSOR_PREFIX + g + ":" + s
  }

  predicate HasPrefix(s: string, p: string) { |p| <= |s| && s[..|p|] == p }

  /** ParseEntityURN. */
  function Parse(raw: string): Option<Urn> {
    if raw == "" || |raw| > MAX_URN_LENGTH then None
    else if HasPrefix(raw, GATEWAY_PREFIX) then
      var rest := raw[|GATEWAY_PREFIX|..];
      if rest == "" || !Lacks(rest, ':') || !ValidGatewayId(rest) then None else Some(GatewayUrn(rest))
    else if HasPrefix(raw, SENSOR_PREFIX) then
      var parts := Split(raw[|SENSOR_PREFIX|..], ':');
      if |parts| != 2 || parts[0] == "" || parts[1] == "" then None
      else if !ValidGatewayId(parts[0]) || !ValidId(parts[1]) then None
      else Some(SensorUrn(parts[0], parts[1]))
    else None
  }

  lemma ValidLacksColon(id: string)
    requires ValidId(id)
    ensures Lacks(id, ':')
  {}

  /** The length cap never rejects a valid URN. */
  lemma Fits(u: Urn)
    requires ValidUrn(u)
    ensures 0 < |Print(u)| <= 148 < MAX_URN_LENGTH
  {}

  lemma PrefixesDiffer(rest: string)
    ensures !HasPrefix(SENSOR_PREFIX + rest, GATEWAY_PREFIX)
  {
    var raw := SENSOR_PREFIX + rest;
    assert raw[12] == 'S' && GATEWAY_PREFIX[12] == 'G';
    assert |raw| >= 20 ==> raw[..20][12] == 'S';
  }

  lemma ParseSensor(g: string, s: string)
    requires ValidGatewayId(g) && ValidId(s)
    ensures Parse(SENSOR_PREFIX + (g + ":" + s)) == Some(SensorUrn(g, s))
  {
    ValidLacksColon(g);
    ValidLacksColon(s);
    PrefixesDiffer(g + ":" + s);
    SplitHead(g, s, ':');
    SplitAtom(s, ':');
    var raw := SENSOR_PREFIX + (g + ":" + s);
    assert raw[..|SENSOR_PREFIX|] == SENSOR_PREFIX && raw[|SENSOR_PREFIX|..] == g + ":" + s;
    hide ValidId, Split, Lacks;
  }

  lemma ParseGateway(g: string)
    requires ValidGatewayId(g)
    ensures Parse(GATEWAY_PREFIX + g) == Some(GatewayUrn(g))
  {
    ValidLacksColon(g);
    var raw := GATEWAY_PREFIX + g;
    assert raw[..|GATEWAY_PREFIX|] == GATEWAY_PREFIX && raw[|GATEWAY_PREFIX|..] == g;
    assert 0 < |raw| <= MAX_URN_LENGTH;
    hide ValidId, Split, Lacks;
  }

  lemma ParsePrint(u: Urn)
    requires ValidUrn(u)
    ensures Parse(Print(u)) == Some(u)
  {
    hide Parse, ValidId;
    if u.GatewayUrn? {
      ParseGateway(u.g);
    } else {
      ParseSensor(u.g, u.s);
      assert Print(u) == SENSOR_PREFIX + (u.g + ":" + u.s);
    }
  }

  lemma PrintParse(raw: string)
    requires Parse(raw).Some?
    ensures ValidUrn(Parse(raw).value) && Print(Parse(raw).value) == raw
  {
    if HasPrefix(raw, GATEWAY_PREFIX) {
      assert raw == raw[..|GATEWAY_PREFIX|] + raw[|GATEWAY_PREFIX|..];
    } else {
      var rest := raw[|SENSOR_PREFIX|..];
      assert raw == raw[..|SENSOR_PREFIX|] + rest;
      JoinSplit(rest, ':');
      var parts := Split(rest, ':');
      assert parts[1..] == [parts[1]];
      assert rest == parts[0] + ":" + parts[1];
    }
  }

  /** Parsing accepts exactly the printed valid URNs, each as the one it was printed from. */
  lemma ParseExact(raw: string, u: Urn)
    ensures Parse(raw) == Some(u) <==> ValidUrn(u) && raw == Print(u)
  {
    hide Parse, Print;
    if Parse(raw) == Some(u) { PrintParse(raw); }
    if ValidUrn(u) && raw == Print(u) { ParsePrint(u); }
  }

  /** Distinct valid identities have distinct URNs. */
  lemma PrintInjective(u: Urn, v: Urn)
    requires ValidUrn(u) && ValidUrn(v) && Print(u) == Print(v)
    ensures u == v
  {
    ParsePrint(u);
    ParsePrint(v);
  }

  lemma IdPlain(id: string)
    requires ValidId(id)
    ensures Plain(id)
  {}

  lemma PrintPlain(u: Urn)
    requires ValidUrn(u)
    ensures Plain(Print(u))
  {
    IdPlain(u.g);
    if u.SensorUrn? { IdPlain(u.s); }
  }
}
