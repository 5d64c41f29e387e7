/**
 The messages of the relay (json_protocol.cpp) over an abstract JSON value: an object with named
 fields, or anything else. Only the kinds the protocol asks about are told apart.
 */
module JsonProtocol {
  import opened Basics
  import opened AccelPackets

  type uint64 = n: int | 0 <= n < 0x1_0000_0000_0000_0000

  datatype Value =
    | Text(text: string)
    | Signed(signed: int64)
    | Unsigned(unsigned: uint64)
    | Float(float: real)
    | Other

  datatype Json = Object(fields: map<string, Value>) | NonObject

  datatype Error =
    | InvalidJson
    | NotAnObject
    | MissingField(name: string)
    | WrongKind(name: string)
    | UnsupportedVersion(version: int)
    | UnexpectedType(expected: string, actual: string)
    | UnsupportedRole(role: string)

  const PROTOCOL_VERSION := 1
  const TYPE_HELLO := "hello"
  const TYPE_ACCEL := "accel"
  const TYPE_MODULE := "module"
  const ROLE_A := "A"
  const ROLE_B := "B"

  function Field(json: Json, name: string): Result<Value, Error> {
    match json
    case NonObject => Failure(NotAnObject)
    case Object(fields) => if name in fields then Success(fields[name]) else Failure(MissingField(name))
  }

  /** Reading an unsigned value as a signed one keeps its 64 bits. */
  function ToInt64(n: uint64): int64 {
    if n < 0x8000_0000_0000_0000 then n else n - 0x1_0000_0000_0000_0000
  }

  /** Reading an integer as a 32-bit one keeps its low 32 bits. */
  function ToInt32(n: int): int {
    (n + 0x8000_0000) % 0x1_0000_0000 - 0x8000_0000
  }

  /** Unsigned values count as integers, so the conversion decides and not a range check. */
  function Int64Field(json: Json, name: string): Result<int64, Error> {
    match Field(json, name)
    case Failure(e) => Failure(e)
    case Success(Signed(n)) => Success(n)
    case Success(Unsigned(n)) => Success(ToInt64(n))
    case Success(_) => Failure(WrongKind(name))
  }

  function DoubleField(json: Json, name: string): Result<real, Error> {
    match Field(json, name)
    case Failure(e) => Failure(e)
    case Success(Signed(n)) => Success(n as real)
    case Success(Unsigned(n)) => Success(n as real)
    case Success(Float(r)) => Success(r)
    case Success(_) => Failure(WrongKind(name))
  }

  function TextField(json: Json, name: string): Result<string, Error> {
    match Field(json, name)
    case Failure(e) => Failure(e)
    case Success(Text(t)) => Success(t)
    case Success(_) => Failure(WrongKind(name))
  }

  function MessageType(json: Json): Result<string, Error> {
    TextField(json, "type")
  }

  function ValidateVersion(json: Json): Option<Error> {
    match Field(json, "version")
    case Failure(e) => Some(e)
    case Success(v) =>
      if !v.Signed? && !v.Unsigned? then Some(WrongKind("version"))
      else
        var received := ToInt32(if v.Signed? then v.signed else v.unsigned);
        if received != PROTOCOL_VERSION then Some(UnsupportedVersion(received)) else None
  }

  function ValidateType(json: Json, expected: string): Option<Error> {
    match MessageType(json)
    case Failure(e) => Some(e)
    case Success(actual) => if actual != expected then Some(UnexpectedType(expected, actual)) else None
  }

  function ValidateHeader(json: Json, expected: string): Option<Error> {
    match ValidateVersion(json)
    case Some(e) => Some(e)
    case None => ValidateType(json, expected)
  }

  function ClientRole(json: Json): Result<string, Error> {
    match ValidateHeader(json, TYPE_HELLO)
    case Some(e) => Failure(e)
    case None =>
      match TextField(json, "role")
      case Failure(e) => Failure(e)
      case Success(role) =>
        if role != ROLE_A && role != ROLE_B then Failure(UnsupportedRole(role)) else Success(role)
  }

  function ParseAccelPacket(json: Json): Result<AccelPacket, Error> {
    match ValidateHeader(json, TYPE_ACCEL)
    case Some(e) => Failure(e)
    case None =>
      match Int64Field(json, "timestamp")
      case Failure(e) => Failure(e)
      case Success(t) =>
        match DoubleField(json, "x")
        case Failure(e) => Failure(e)
        case Success(x) =>
          match DoubleField(json, "y")
          case Failure(e) => Failure(e)
          case Success(y) =>
            match DoubleField(json, "z")
            case Failure(e) => Failure(e)
            case Success(z) => Success(AccelPacket(t, x, y, z))
  }

  function ParseAccelModule(json: Json): Result<AccelModule, Error> {
    match ValidateHeader(json, TYPE_MODULE)
    case Some(e) => Failure(e)
    case None =>
      match Int64Field(json, "timestamp")
      case Failure(e) => Failure(e)
      case Success(t) =>
        match DoubleField(json, "module")
        case Failure(e) => Failure(e)
        case Success(m) => Success(AccelModule(t, m))
  }

  function HelloJson(role: string): Json {
    Object(map["version" := Signed(PROTOCOL_VERSION), "type" := Text(TYPE_HELLO), "role" := Text(role)])
  }

  function PacketJson(p: AccelPacket): Json {
    Object(map["version" := Signed(PROTOCOL_VERSION), "type" := Text(TYPE_ACCEL), "timestamp" := Signed(p.timestamp),
               "x" := Float(p.x), "y" := Float(p.y), "z" := Float(p.z)])
  }

  function ModuleJson(m: AccelModule): Json {
    Object(map["version" := Signed(PROTOCOL_VERSION), "type" := Text(TYPE_MODULE), "timestamp" := Signed(m.timestamp),
               "module" := Float(m.magnitude)])
  }

  /** What a parser makes of the printed form of a value: non-negative integers come back unsigned. */
  function Reparsed(json: Json): Json {
    match json
    case NonObject => NonObject
    case Object(fields) => Object(map name | name in fields :: ReparsedValue(fields[name]))
  }

  function ReparsedValue(v: Value): Value {
    if v.Signed? && v.signed >= 0 then Unsigned(v.signed) else v
  }

  /** Printing and parsing JSON text, supplied by the JSON library. */
  datatype Codec = Codec(parse: string -> Option<Json>, dump: Json -> string) {

    /** The printed form of `json` is one non-empty line that parses back. */
    ghost predicate Faithful(json: Json) {
      && parse(dump(json)) == Some(Reparsed(json))
      && '\n' !in dump(json)
      && dump(json) != ""
      && dump(json)[|dump(json)| - 1] != '\r'
    }

    /** A message as it is written to a socket. */
    function Line(json: Json): string { dump(json) + "\n" }
  }

  function Position(js: seq<Json>, j: Json): nat {
    if js == [] || js[0] == j then 0 else Position(js[1..], j) + 1
  }

  lemma {:induction false} PositionFinds(js: seq<Json>, j: Json)
    requires j in js
    ensures Position(js, j) < |js| && js[Position(js, j)] == j
    decreases |js|
  {
    if js[0] != j { PositionFinds(js[1..], j); }
  }

  /** What is required of the library can be met, for any messages at once. */
  lemma FaithfulCodecsExist(js: seq<Json>) returns (k: Codec)
    ensures forall j | j in js :: k.Faithful(j)
  {
    k := Codec(s => if 0 < |s| <= |js| then Some(Reparsed(js[|s| - 1])) else None, j => seq(Position(js, j) + 1, _ => 'x'));
    forall j | j in js ensures k.Faithful(j) {
      PositionFinds(js, j);
    }
  }

  /** Encode and decode: what the receiving program parses is what the sending program built. */
  lemma PacketRoundTrip(p: AccelPacket)
    ensures ParseAccelPacket(Reparsed(PacketJson(p))) == Success(p)
    ensures MessageType(Reparsed(PacketJson(p))) == Success(TYPE_ACCEL)
  {
    var fields := Reparsed(PacketJson(p)).fields;
    assert fields["type"] == Text(TYPE_ACCEL) && fields["version"] == Unsigned(1);
    assert fields["x"] == Float(p.x) && fields["y"] == Float(p.y) && fields["z"] == Float(p.z);
    assert fields["timestamp"] == if p.timestamp >= 0 then Unsigned(p.timestamp) else Signed(p.timestamp);
  }

  lemma ModuleRoundTrip(m: AccelModule)
    ensures ParseAccelModule(Reparsed(ModuleJson(m))) == Success(m)
    ensures MessageType(Reparsed(ModuleJson(m))) == Success(TYPE_MODULE)
  {
    var fields := Reparsed(ModuleJson(m)).fields;
    assert fields["type"] == Text(TYPE_MODULE) && fields["version"] == Unsigned(1);
    assert fields["module"] == Float(m.magnitude);
    assert fields["timestamp"] == if m.timestamp >= 0 then Unsigned(m.timestamp) else Signed(m.timestamp);
  }

  lemma HelloRoundTrip(role: string)
    ensures ClientRole(Reparsed(HelloJson(role)))
         == if role == ROLE_A || role == ROLE_B then Success(role) else Failure(UnsupportedRole(role))
    ensures MessageType(Reparsed(HelloJson(role))) == Success(TYPE_HELLO)
  {
    var fields := Reparsed(HelloJson(role)).fields;
    assert fields["type"] == Text(TYPE_HELLO) && fields["version"] == Unsigned(1) && fields["role"] == Text(role);
  }

  // ---------------------------------------------------------------- which values are messages

  /** An integer field: `n` is its value as a 64-bit number, an unsigned value being read as a signed one. */
  predicate HoldsInt(fields: map<string, Value>, name: string, n: int) {
    && name in fields && -0x8000_0000_0000_0000 <= n < 0x8000_0000_0000_0000
    && match fields[name]
       case Signed(k) => n == k
       case Unsigned(k) => n == k || n == k - 0x1_0000_0000_0000_0000
       case _ => false
  }

  /** A number of any kind. */
  predicate HoldsReal(fields: map<string, Value>, name: string, r: real) {
    && name in fields
    && match fields[name]
       case Signed(k) => r == k as real
       case Unsigned(k) => r == k as real
       case Float(v) => r == v
       case _ => false
  }

  /** Version 1, up to the high bits an int does not hold, and the type. */
  predicate HasHeader(fields: map<string, Value>, kind: string) {
    && "version" in fields && "type" in fields && fields["type"] == Text(kind)
    && match fields["version"]
       case Signed(k) => (k - 1) % 0x1_0000_0000 == 0
       case Unsigned(k) => (k - 1) % 0x1_0000_0000 == 0
       case _ => false
  }

  /** Exactly these values are packet messages, whatever other fields they have. */
  lemma ValuesThatArePackets(json: Json, p: AccelPacket)
    ensures ParseAccelPacket(json) == Success(p) <==>
              && json.Object? && HasHeader(json.fields, "accel") && HoldsInt(json.fields, "timestamp", p.timestamp)
              && HoldsReal(json.fields, "x", p.x) && HoldsReal(json.fields, "y", p.y) && HoldsReal(json.fields, "z", p.z)
  {
    HeaderIsChecked(json, "accel");
    IntIsRead(json, "timestamp", p.timestamp);
    RealIsRead(json, "x", p.x);
    RealIsRead(json, "y", p.y);
    RealIsRead(json, "z", p.z);
    hide ValidateHeader, Int64Field, DoubleField, HasHeader, HoldsInt, HoldsReal;
  }

  lemma ValuesThatAreModules(json: Json, m: AccelModule)
    ensures ParseAccelModule(json) == Success(m) <==>
              && json.Object? && HasHeader(json.fields, "module") && HoldsInt(json.fields, "timestamp", m.timestamp)
              && HoldsReal(json.fields, "module", m.magnitude)
  {
    HeaderIsChecked(json, "module");
    IntIsRead(json, "timestamp", m.timestamp);
    RealIsRead(json, "module", m.magnitude);
    hide ValidateHeader, Int64Field, DoubleField, HasHeader, HoldsInt, HoldsReal;
  }

  lemma ValuesThatAreHellos(json: Json, role: string)
    ensures ClientRole(json) == Success(role) <==>
              && json.Object? && HasHeader(json.fields, "hello") && "role" in json.fields
              && json.fields["role"] == Text(role) && (role == "A" || role == "B")
  {
    HeaderIsChecked(json, "hello");
    hide ValidateHeader, HasHeader;
  }

  lemma HeaderIsChecked(json: Json, kind: string)
    ensures ValidateHeader(json, kind) == None <==> json.Object? && HasHeader(json.fields, kind)
  {
    hide ToInt32;
    if json.Object? && "version" in json.fields {
      match json.fields["version"]
      case Signed(k) => LowBitsOfOne(k);
      case Unsigned(k) => LowBitsOfOne(k);
      case _ =>
    }
  }

  lemma LowBitsOfOne(n: int)
    ensures ToInt32(n) == 1 <==> (n - 1) % 0x1_0000_0000 == 0
  {}

  lemma IntIsRead(json: Json, name: string, n: int64)
    ensures Int64Field(json, name) == Success(n) <==> json.Object? && HoldsInt(json.fields, name, n)
  {}

  lemma RealIsRead(json: Json, name: string, r: real)
    ensures DoubleField(json, name) == Success(r) <==> json.Object? && HoldsReal(json.fields, name, r)
  {}

  /** No value is two messages at once: each parser accepts only its own type. */
  lemma AtMostOneKind(json: Json)
    ensures ParseAccelPacket(json).Success? ==> MessageType(json) == Success(TYPE_ACCEL)
    ensures ParseAccelModule(json).Success? ==> MessageType(json) == Success(TYPE_MODULE)
    ensures ClientRole(json).Success? ==> MessageType(json) == Success(TYPE_HELLO)
    ensures !(ParseAccelPacket(json).Success? && ParseAccelModule(json).Success?)
    ensures !(ParseAccelPacket(json).Success? && ClientRole(json).Success?)
    ensures !(ParseAccelModule(json).Success? && ClientRole(json).Success?)
  {}

  /** Distinct packets (and modules) never share a message. */
  lemma MessagesAreInjective(p: AccelPacket, q: AccelPacket, m: AccelModule, n: AccelModule)
    ensures PacketJson(p) == PacketJson(q) ==> p == q
    ensures ModuleJson(m) == ModuleJson(n) ==> m == n
    ensures PacketJson(p) != ModuleJson(m)
  {
    PacketRoundTrip(p);
    PacketRoundTrip(q);
    ModuleRoundTrip(m);
    ModuleRoundTrip(n);
    AtMostOneKind(Reparsed(PacketJson(p)));
  }
}
