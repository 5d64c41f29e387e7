/**
 The relay server as an event machine. One thread runs the completion handlers, so each handler
 is one atomic step. An asynchronous operation is a pending read or write of its session; it
 completes later, with success or with an error, also after the session was closed.
 */
module RelayModel {
  import opened Basics
  import opened AccelPackets
  import opened JsonProtocol
  import opened DuplicateFilter

  datatype Session = Session(
    role: string,
    closed: bool,
    socketOpen: bool,
    queue: seq<string>,
    received: nat,
    accepted: nat,
    dropped: nat,
    forwarded: nat,
    receivedModules: nat,
    forwardedModules: nat,
    last: Option<AccelPacket>,
    // pending operations: reads waiting for a line, and the buffers of writes in flight
    pendingReads: nat,
    pendingWrites: seq<string>,
    // history: messages taken into the queue, messages fully written, valid packets handled and packets forwarded
    enqueued: seq<string>,
    written: seq<string>,
    inbox: seq<AccelPacket>,
    outbox: seq<AccelPacket>)
  {
    /** Pending operations keep a session object alive. */
    predicate Pinned() { pendingReads > 0 || pendingWrites != [] }
  }

  const NewSession := Session("", false, true, [], 0, 0, 0, 0, 0, 0, None, 0, [], [], [], [], [])

  datatype World = World(sessions: seq<Session>, nodeA: Option<nat>, nodeB: Option<nat>)

  const EmptyWorld := World([], None, None)

  // ---------------------------------------------------------------- one session

  /** WriteNextMessage: start writing the head of the queue. */
  function WriteNext(s: Session): Session {
    if s.closed || s.queue == [] then s else s.(pendingWrites := s.pendingWrites + [s.queue[0]])
  }

  /** SendJson: refused on a closed session; otherwise queued, and written at once if the queue was empty. */
  predicate CanSend(s: Session) { !s.closed && s.socketOpen }

  function Send(s: Session, message: string): Session
    requires CanSend(s)
  {
    var s' := s.(queue := s.queue + [message], enqueued := s.enqueued + [message]);
    if s.queue == [] then WriteNext(s') else s'
  }

  function StartRead(s: Session): Session {
    if s.closed then s else s.(pendingReads := s.pendingReads + 1)
  }

  function EndRead(s: Session): Session
    requires s.pendingReads > 0
  {
    s.(pendingReads := s.pendingReads - 1)
  }

  /** A finished write leaves the queue and the next one starts. */
  function FinishWrite(s: Session): Session
    requires s.pendingWrites != []
  {
    var s' := s.(pendingWrites := s.pendingWrites[1..],
                 written := s.written + [s.pendingWrites[0]],
                 queue := if s.queue == [] then [] else s.queue[1..]);
    if !s'.closed && s'.queue != [] then WriteNext(s') else s'
  }

  /** A failed write drops the queue. */
  function FailWrite(s: Session): Session
    requires s.pendingWrites != []
  {
    s.(pendingWrites := s.pendingWrites[1..], queue := [])
  }

  function CloseSocket(s: Session): Session {
    s.(closed := true, socketOpen := false)
  }

  function Register(s: Session, role: string): Session {
    s.(role := role)
  }

  function CountDuplicate(s: Session, p: AccelPacket): Session {
    s.(received := s.received + 1, inbox := s.inbox + [p], dropped := s.dropped + 1)
  }

  function CountAccepted(s: Session, p: AccelPacket): Session {
    s.(received := s.received + 1, inbox := s.inbox + [p], last := Some(p), accepted := s.accepted + 1)
  }

  function CountForwarded(s: Session, p: AccelPacket): Session {
    s.(forwarded := s.forwarded + 1, outbox := s.outbox + [p])
  }

  function CountModule(s: Session): Session {
    s.(receivedModules := s.receivedModules + 1)
  }

  function CountForwardedModule(s: Session): Session {
    s.(forwardedModules := s.forwardedModules + 1)
  }

  // ---------------------------------------------------------------- the server state

  function Update(w: World, i: nat, s: Session): World
    requires i < |w.sessions|
  {
    w.(sessions := w.sessions[i := s])
  }

  /** weak_ptr::lock while the handler of session `self` runs: a slot is empty once its session is gone. */
  function Lock(w: World, slot: Option<nat>, self: nat): Option<nat> {
    if slot.Some? && slot.value < |w.sessions| && (slot.value == self || w.sessions[slot.value].Pinned())
    then slot else None
  }

  predicate SlotFree(w: World, slot: Option<nat>, self: nat) {
    Lock(w, slot, self) == None || Lock(w, slot, self) == Some(self)
  }

  function RegisterRole(w: World, i: nat, role: string): (v: World)
    requires i < |w.sessions|
    ensures |v.sessions| == |w.sessions|
  {
    var s := w.sessions[i];
    if s.role != "" then w
    else if role == ROLE_A then
      if SlotFree(w, w.nodeA, i) then Update(w, i, Register(s, role)).(nodeA := Some(i)) else w
    else if role == ROLE_B then
      if SlotFree(w, w.nodeB, i) then Update(w, i, Register(s, role)).(nodeB := Some(i)) else w
    else w
  }

  function ForwardPacket(k: Codec, w: World, i: nat, p: AccelPacket): (v: World)
    requires i < |w.sessions|
    ensures |v.sessions| == |w.sessions|
  {
    match Lock(w, w.nodeB, i)
    case None => w
    case Some(b) =>
      if !CanSend(w.sessions[b]) then w
      else
        var w' := Update(w, b, Send(w.sessions[b], k.Line(PacketJson(p))));
        Update(w', i, CountForwarded(w'.sessions[i], p))
  }

  function ForwardModule(k: Codec, w: World, i: nat, m: AccelModule): (v: World)
    requires i < |w.sessions|
    ensures |v.sessions| == |w.sessions|
  {
    match Lock(w, w.nodeA, i)
    case None => w
    case Some(a) =>
      if !CanSend(w.sessions[a]) then w
      else
        var w' := Update(w, a, Send(w.sessions[a], k.Line(ModuleJson(m))));
        Update(w', i, CountForwardedModule(w'.sessions[i]))
  }

  function TakePacket(k: Codec, w: World, i: nat, p: AccelPacket): (v: World)
    requires i < |w.sessions|
    ensures |v.sessions| == |w.sessions|
  {
    var s := w.sessions[i];
    if Repeats(s.last, p) then Update(w, i, CountDuplicate(s, p))
    else ForwardPacket(k, Update(w, i, CountAccepted(s, p)), i, p)
  }

  function TakeModule(k: Codec, w: World, i: nat, m: AccelModule): (v: World)
    requires i < |w.sessions|
    ensures |v.sessions| == |w.sessions|
  {
    ForwardModule(k, Update(w, i, CountModule(w.sessions[i])), i, m)
  }

  function HandlePacket(k: Codec, w: World, i: nat, json: Json): (v: World)
    requires i < |w.sessions|
    ensures |v.sessions| == |w.sessions|
  {
    if w.sessions[i].role != ROLE_A then w
    else match ParseAccelPacket(json)
      case Failure(_) => w
      case Success(p) => TakePacket(k, w, i, p)
  }

  function HandleModule(k: Codec, w: World, i: nat, json: Json): (v: World)
    requires i < |w.sessions|
    ensures |v.sessions| == |w.sessions|
  {
    if w.sessions[i].role != ROLE_B then w
    else match ParseAccelModule(json)
      case Failure(_) => w
      case Success(m) => TakeModule(k, w, i, m)
  }

  function HandleJson(k: Codec, w: World, i: nat, json: Json): (v: World)
    requires i < |w.sessions|
    ensures |v.sessions| == |w.sessions|
  {
    match MessageType(json)
    case Failure(_) => w
    case Success(kind) =>
      if kind == TYPE_HELLO then
        match ClientRole(json)
        case Failure(_) => w
        case Success(role) => RegisterRole(w, i, role)
      else if kind == TYPE_ACCEL then HandlePacket(k, w, i, json)
      else if kind == TYPE_MODULE then HandleModule(k, w, i, json)
      else w
  }

  function HandleLine(k: Codec, w: World, i: nat, line: string): (v: World)
    requires i < |w.sessions|
    ensures |v.sessions| == |w.sessions|
  {
    if line == "" then w
    else match k.parse(line)
      case None => w
      case Some(json) => HandleJson(k, w, i, json)
  }

  /** RemoveSession: give up the slots that name session `i`. */
  function FreeSlots(w: World, i: nat): World {
    World(w.sessions,
          if Lock(w, w.nodeA, i) == Some(i) then None else w.nodeA,
          if Lock(w, w.nodeB, i) == Some(i) then None else w.nodeB)
  }

  function Close(w: World, i: nat): World
    requires i < |w.sessions|
  {
    if w.sessions[i].closed then w
    else FreeSlots(Update(w, i, CloseSocket(w.sessions[i])), i)
  }

  // ---------------------------------------------------------------- events

  datatype Event =
    | Accept
    | ReadOk(i: nat, line: string)
    | ReadError(i: nat)
    | WriteOk(i: nat)
    | WriteError(i: nat)

  predicate Enabled(w: World, e: Event) {
    match e
    case Accept => true
    case ReadOk(i, _) => i < |w.sessions| && w.sessions[i].pendingReads > 0
    case ReadError(i) => i < |w.sessions| && w.sessions[i].pendingReads > 0
    case WriteOk(i) => i < |w.sessions| && w.sessions[i].pendingWrites != []
    case WriteError(i) => i < |w.sessions| && w.sessions[i].pendingWrites != []
  }

  function Apply(k: Codec, w: World, e: Event): World
    requires Enabled(w, e)
  {
    match e
    case Accept => w.(sessions := w.sessions + [StartRead(NewSession)])
    case ReadOk(i, line) =>
      var w' := HandleLine(k, Update(w, i, EndRead(w.sessions[i])), i, line);
      Update(w', i, StartRead(w'.sessions[i]))
    case ReadError(i) => Close(Update(w, i, EndRead(w.sessions[i])), i)
    case WriteOk(i) => Update(w, i, FinishWrite(w.sessions[i]))
    case WriteError(i) => Close(Update(w, i, FailWrite(w.sessions[i])), i)
  }

  /** `w'` is the world after the events `es`, starting from `w`. */
  ghost predicate Run(k: Codec, w: World, es: seq<Event>, w': World)
    decreases |es|
  {
    if es == [] then w' == w
    else
      var n := |es| - 1;
      exists v :: Run(k, w, es[..n], v) && Enabled(v, es[n]) && w' == Apply(k, v, es[n])
  }

  // ---------------------------------------------------------------- the lines the nodes send

  /** Session `i` waits for its next line. */
  function ReadOn(w: World, i: nat): World
    requires i < |w.sessions|
  {
    Update(w, i, StartRead(w.sessions[i]))
  }

  /** The handler of an A session takes the packet out of its line. */
  lemma PacketLine(k: Codec, w: World, i: nat, p: AccelPacket)
    requires Enabled(w, ReadOk(i, k.dump(PacketJson(p)))) && k.Faithful(PacketJson(p))
    requires w.sessions[i].role == ROLE_A
    ensures Apply(k, w, ReadOk(i, k.dump(PacketJson(p)))) == ReadOn(TakePacket(k, Update(w, i, EndRead(w.sessions[i])), i, p), i)
  {
    PacketRoundTrip(p);
    assert TYPE_ACCEL != TYPE_HELLO;
    hide TakePacket, ParseAccelPacket, MessageType, PacketJson, Reparsed;
  }

  /** The same for a module line of a B session. */
  lemma ModuleLine(k: Codec, w: World, i: nat, m: AccelModule)
    requires Enabled(w, ReadOk(i, k.dump(ModuleJson(m)))) && k.Faithful(ModuleJson(m))
    requires w.sessions[i].role == ROLE_B
    ensures Apply(k, w, ReadOk(i, k.dump(ModuleJson(m)))) == ReadOn(TakeModule(k, Update(w, i, EndRead(w.sessions[i])), i, m), i)
  {
    ModuleRoundTrip(m);
    assert TYPE_MODULE != TYPE_HELLO && TYPE_MODULE != TYPE_ACCEL by { assert |TYPE_MODULE| == 6; }
    hide TakeModule, ParseAccelModule, MessageType, ModuleJson, Reparsed;
  }

  /** Session `i` is now `s` and waits for its next line, and `message` was sent to session `j`. */
  function PassedOn(w: World, i: nat, s: Session, j: nat, message: string): World
    requires i < |w.sessions| && j < |w.sessions| && i != j && CanSend(w.sessions[j])
  {
    Update(Update(w, i, StartRead(s)), j, Send(w.sessions[j], message))
  }

  lemma PacketIsDropped(k: Codec, w: World, i: nat, p: AccelPacket)
    requires i < |w.sessions| && w.sessions[i].pendingReads > 0 && Repeats(w.sessions[i].last, p)
    ensures ReadOn(TakePacket(k, Update(w, i, EndRead(w.sessions[i])), i, p), i)
         == Update(w, i, StartRead(CountDuplicate(EndRead(w.sessions[i]), p)))
  {
    hide Repeats;
    var s := CountDuplicate(EndRead(w.sessions[i]), p);
    assert w.sessions[i := EndRead(w.sessions[i])][i := s][i := StartRead(s)] == w.sessions[i := StartRead(s)];
  }

  lemma PacketStays(k: Codec, w: World, i: nat, p: AccelPacket)
    requires i < |w.sessions| && w.sessions[i].pendingReads > 0 && !Repeats(w.sessions[i].last, p) && w.nodeB == None
    ensures ReadOn(TakePacket(k, Update(w, i, EndRead(w.sessions[i])), i, p), i)
         == Update(w, i, StartRead(CountAccepted(EndRead(w.sessions[i]), p)))
  {
    hide Repeats;
    var s := CountAccepted(EndRead(w.sessions[i]), p);
    assert w.sessions[i := EndRead(w.sessions[i])][i := s][i := StartRead(s)] == w.sessions[i := StartRead(s)];
  }

  lemma PacketPassesOn(k: Codec, w: World, i: nat, b: nat, p: AccelPacket)
    requires i < |w.sessions| && b < |w.sessions| && b != i && w.sessions[i].pendingReads > 0
    requires !Repeats(w.sessions[i].last, p) && CanSend(w.sessions[b]) && Lock(w, w.nodeB, i) == Some(b)
    ensures ReadOn(TakePacket(k, Update(w, i, EndRead(w.sessions[i])), i, p), i)
         == PassedOn(w, i, CountForwarded(CountAccepted(EndRead(w.sessions[i]), p), p), b, k.Line(PacketJson(p)))
  {
    hide PacketJson, Repeats, Send;
    var s := CountAccepted(EndRead(w.sessions[i]), p);
    var u := Update(w, i, s);
    assert Update(Update(w, i, EndRead(w.sessions[i])), i, s) == u;
    assert Lock(u, u.nodeB, i) == Some(b);
    var u' := Update(u, b, Send(w.sessions[b], k.Line(PacketJson(p))));
    var t := CountForwarded(s, p);
    assert u'.sessions[i := t][i := StartRead(t)] == w.sessions[i := StartRead(t)][b := u'.sessions[b]];
  }

  lemma ModulePassesOn(k: Codec, w: World, i: nat, a: nat, m: AccelModule)
    requires i < |w.sessions| && a < |w.sessions| && a != i && w.sessions[i].pendingReads > 0
    requires CanSend(w.sessions[a]) && Lock(w, w.nodeA, i) == Some(a)
    ensures ReadOn(TakeModule(k, Update(w, i, EndRead(w.sessions[i])), i, m), i)
         == PassedOn(w, i, CountForwardedModule(CountModule(EndRead(w.sessions[i]))), a, k.Line(ModuleJson(m)))
  {
    hide ModuleJson, Send;
    var s := CountModule(EndRead(w.sessions[i]));
    var u := Update(w, i, s);
    assert Update(Update(w, i, EndRead(w.sessions[i])), i, s) == u;
    assert Lock(u, u.nodeA, i) == Some(a);
    var u' := Update(u, a, Send(w.sessions[a], k.Line(ModuleJson(m))));
    var t := CountForwardedModule(s);
    assert u'.sessions[i := t][i := StartRead(t)] == w.sessions[i := StartRead(t)][a := u'.sessions[a]];
  }
}
