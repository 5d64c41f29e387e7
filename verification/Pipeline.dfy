/**
 The whole data path, byte by byte: Node A, the server with any number of other sessions, Node B
 and back to Node A's log. Bytes written to a connection wait on a wire, arrive in pieces of any
 size in the reader's buffer, and are taken from there line by line.
 */
module Pipeline {
  import opened Basics
  import opened AccelPackets
  import opened JsonProtocol
  import opened DuplicateFilter
  import opened Framing
  import opened Nodes
  import opened RelayModel
  import opened RelayInvariants

  /**
   What was under way when the observation starts: the log so far, the packets forwarded before whose modules are
   not logged yet, and how many of these modules the server has read.
   */
  datatype Before = Before(log: seq<AccelModule>, packets: seq<AccelPacket>, back: nat)

  /** The fixed part: the JSON and floating-point libraries, the sessions of Node A and Node B, and the beginning. */
  datatype Setup = Setup(k: Codec, root: Root, a: nat, b: nat, before: Before)

  datatype State = State(
    w: World,
    sent: seq<AccelPacket>,       // packets sent by Node A
    wireAS: string,               // from Node A to the server ...
    bufAS: string,                // ... and in the stream buffer of its session
    txB: nat,                     // bytes of the write to Node B that have left the server
    wireSB: string,
    bufB: string,                 // Node B's input buffer
    answered: nat,                // packets answered by Node B, those of the beginning included
    wireBS: string,
    bufBS: string,
    txA: nat,
    wireSA: string,
    bufA: string,                 // Node A's input buffer
    log: seq<AccelModule>)        // module.log

  datatype Step =
    | SendPacket(p: AccelPacket)
    | DeliverAS(n: nat)
    | ServerReadsA
    | TransmitB(n: nat)
    | WroteB
    | DeliverB(n: nat)
    | NodeBAnswers
    | DeliverBS(n: nat)
    | ServerReadsB
    | TransmitA(n: nat)
    | WroteA
    | DeliverA(n: nat)
    | NodeALogs
    | Elsewhere(e: Event)

  function A(c: Setup, s: State): Session
    requires c.a < |s.w.sessions|
  {
    s.w.sessions[c.a]
  }

  function B(c: Setup, s: State): Session
    requires c.b < |s.w.sessions|
  {
    s.w.sessions[c.b]
  }

  /** Both nodes stay connected: every step but an error on one of their two sessions. */
  ghost predicate Enabled(c: Setup, s: State, step: Step) {
    && c.a < |s.w.sessions| && c.b < |s.w.sessions|
    && match step
       case SendPacket(p) => Printable(c, p)
       case DeliverAS(n) => n <= |s.wireAS|
       case ServerReadsA => A(c, s).pendingReads > 0 && '\n' in s.bufAS
       case TransmitB(n) => B(c, s).pendingWrites != [] && s.txB + n <= |B(c, s).pendingWrites[0]|
       case WroteB => B(c, s).pendingWrites != [] && s.txB == |B(c, s).pendingWrites[0]|
       case DeliverB(n) => n <= |s.wireSB|
       case NodeBAnswers => '\n' in s.bufB
       case DeliverBS(n) => n <= |s.wireBS|
       case ServerReadsB => B(c, s).pendingReads > 0 && '\n' in s.bufBS
       case TransmitA(n) => A(c, s).pendingWrites != [] && s.txA + n <= |A(c, s).pendingWrites[0]|
       case WroteA => A(c, s).pendingWrites != [] && s.txA == |A(c, s).pendingWrites[0]|
       case DeliverA(n) => n <= |s.wireSA|
       case NodeALogs => '\n' in s.bufA
       case Elsewhere(e) => RelayModel.Enabled(s.w, e) && (e.Accept? || (e.i != c.a && e.i != c.b))
  }

  ghost function Apply(c: Setup, s: State, step: Step): State
    requires Enabled(c, s, step)
  {
    match step
    case SendPacket(p) =>
      s.(sent := s.sent + [p], wireAS := s.wireAS + Written(c.k.dump(PacketJson(p))))
    case DeliverAS(n) => s.(bufAS := s.bufAS + s.wireAS[..n], wireAS := s.wireAS[n..])
    case ServerReadsA =>
      s.(bufAS := AfterLine(s.bufAS), w := RelayModel.Apply(c.k, s.w, ReadOk(c.a, FirstLine(s.bufAS))))
    case TransmitB(n) =>
      s.(txB := s.txB + n, wireSB := s.wireSB + B(c, s).pendingWrites[0][s.txB..s.txB + n])
    case WroteB => s.(txB := 0, w := RelayModel.Apply(c.k, s.w, WriteOk(c.b)))
    case DeliverB(n) => s.(bufB := s.bufB + s.wireSB[..n], wireSB := s.wireSB[n..])
    case NodeBAnswers =>
      var line := FirstLine(s.bufB);
      s.(bufB := AfterLine(s.bufB), wireBS := s.wireBS + Reply(c.k, c.root, line),
         answered := s.answered + if PacketIn(c.k, line).Some? then 1 else 0)
    case DeliverBS(n) => s.(bufBS := s.bufBS + s.wireBS[..n], wireBS := s.wireBS[n..])
    case ServerReadsB =>
      s.(bufBS := AfterLine(s.bufBS), w := RelayModel.Apply(c.k, s.w, ReadOk(c.b, FirstLine(s.bufBS))))
    case TransmitA(n) =>
      s.(txA := s.txA + n, wireSA := s.wireSA + A(c, s).pendingWrites[0][s.txA..s.txA + n])
    case WroteA => s.(txA := 0, w := RelayModel.Apply(c.k, s.w, WriteOk(c.a)))
    case DeliverA(n) => s.(bufA := s.bufA + s.wireSA[..n], wireSA := s.wireSA[n..])
    case NodeALogs =>
      var m := ModuleIn(c.k, FirstLine(s.bufA));
      s.(bufA := AfterLine(s.bufA), log := s.log + if m.Some? then [m.value] else [])
    case Elsewhere(e) => s.(w := RelayModel.Apply(c.k, s.w, e))
  }

  ghost predicate Run(c: Setup, s: State, steps: seq<Step>, t: State)
    decreases |steps|
  {
    if steps == [] then t == s
    else
      var n := |steps| - 1;
      exists u :: Run(c, s, steps[..n], u) && Enabled(c, u, steps[n]) && t == Apply(c, u, steps[n])
  }

  // ---------------------------------------------------------------- texts

  /** The JSON library prints the messages of this packet faithfully (all its numbers are finite). */
  ghost predicate Printable(c: Setup, p: AccelPacket) {
    c.k.Faithful(PacketJson(p)) && c.k.Faithful(ModuleJson(ModuleOf(c.root, p)))
  }

  ghost predicate AllPrintable(c: Setup, ps: seq<AccelPacket>) {
    forall p | p in ps :: Printable(c, p)
  }

  function ModuleTexts(c: Setup, ps: seq<AccelPacket>): seq<string> {
    seq(|ps|, i requires 0 <= i < |ps| => c.k.dump(ModuleJson(ModuleOf(c.root, ps[i]))))
  }

  function ModulesOf(c: Setup, ps: seq<AccelPacket>): seq<AccelModule> {
    seq(|ps|, i requires 0 <= i < |ps| => ModuleOf(c.root, ps[i]))
  }

  function ModuleBytes(c: Setup, ps: seq<AccelPacket>): string {
    Flat(WrittenAll(ModuleTexts(c, ps)))
  }

  /** The part of a write queue that has not left the server yet. */
  function Unsent(queue: seq<string>, tx: nat): string {
    if queue == [] then "" else (if tx <= |queue[0]| then queue[0][tx..] else "") + Flat(queue[1..])
  }

  predicate TxOk(queue: seq<string>, tx: nat) {
    if queue == [] then tx == 0 else tx <= |queue[0]|
  }

  // ---------------------------------------------------------------- the invariant

  /** The packets read from Node A, and those forwarded to Node B, since the start `s0`. */
  function ReadSince(c: Setup, s0: State, s: State): seq<AccelPacket>
    requires c.a < |s0.w.sessions| && c.a < |s.w.sessions|
  {
    Since(A(c, s0).inbox, A(c, s).inbox)
  }

  function ForwardedSince(c: Setup, s0: State, s: State): seq<AccelPacket>
    requires c.a < |s0.w.sessions| && c.a < |s.w.sessions|
  {
    Since(A(c, s0).outbox, A(c, s).outbox)
  }

  function Since(before: seq<AccelPacket>, now: seq<AccelPacket>): seq<AccelPacket> {
    if |before| <= |now| then now[|before|..] else []
  }

  /** Both nodes are registered, and no earlier node session has a completed read left to handle. */
  ghost predicate Connected(c: Setup, w: World) {
    && Inv(c.k, w)
    && c.a != c.b
    && w.nodeA == Some(c.a) && w.nodeB == Some(c.b)
    && (forall j | 0 <= j < |w.sessions| && j != c.a && j != c.b && w.sessions[j].pendingReads > 0 ::
          w.sessions[j].role == "")
  }

  /** One connection: the bytes in the reader's buffer, on the wire and not yet sent are `bytes`. */
  ghost predicate Carries(buffer: string, wire: string, rest: string, bytes: string) {
    buffer + wire + rest == bytes
  }

  /** The modules logged since the beginning. */
  function Logged(c: Setup, s: State): nat {
    if |c.before.log| <= |s.log| then |s.log| - |c.before.log| else 0
  }

  /**
   Every connection but the one to Node B. `read`, `fwd`: packets read and forwarded so far; `back`: how many of
   their modules the server has read.
   */
  ghost predicate Around(c: Setup, s: State, read: seq<AccelPacket>, fwd: seq<AccelPacket>, back: nat)
    requires c.a < |s.w.sessions|
  {
    && |c.before.log| <= |s.log| && Logged(c, s) <= back <= s.answered <= |fwd| && |read| <= |s.sent|
    && AllPrintable(c, s.sent)
    && s.sent[..|read|] == read
    && Carries(s.bufAS, s.wireAS, "", PacketBytes(c.k, s.sent[|read|..]))
    && Carries(s.bufBS, s.wireBS, "", ModuleBytes(c, fwd[back..s.answered]))
    && TxOk(A(c, s).queue, s.txA)
    && Carries(s.bufA, s.wireSA, Unsent(A(c, s).queue, s.txA), ModuleBytes(c, fwd[Logged(c, s)..back]))
    && s.log == c.before.log + ModulesOf(c, fwd[..Logged(c, s)])
  }

  /** The connection to Node B. */
  ghost predicate DownToB(c: Setup, s: State, fwd: seq<AccelPacket>)
    requires c.b < |s.w.sessions|
  {
    && s.answered <= |fwd|
    && TxOk(B(c, s).queue, s.txB)
    && Carries(s.bufB, s.wireSB, Unsent(B(c, s).queue, s.txB), PacketBytes(c.k, fwd[s.answered..]))
  }

  ghost predicate Hops(c: Setup, s: State, read: seq<AccelPacket>, fwd: seq<AccelPacket>, back: nat)
    requires c.a < |s.w.sessions| && c.b < |s.w.sessions|
  {
    Around(c, s, read, fwd, back) && DownToB(c, s, fwd)
  }

  /** All packets forwarded, those of the beginning first, and how many of their modules have come back. */
  function AllForwarded(c: Setup, s0: State, s: State): seq<AccelPacket>
    requires c.a < |s0.w.sessions| && c.a < |s.w.sessions|
  {
    c.before.packets + ForwardedSince(c, s0, s)
  }

  function Back(c: Setup, s0: State, s: State): nat
    requires c.b < |s0.w.sessions| && c.b < |s.w.sessions|
  {
    var earlier, now := B(c, s0).receivedModules, B(c, s).receivedModules;
    c.before.back + if earlier <= now then now - earlier else 0
  }

  /**
   Both nodes are registered, and each connection carries what it should: Node A may already have sent packets,
   and packets and modules of earlier forwarding may be on their way.
   */
  ghost predicate Start(c: Setup, s: State) {
    && Connected(c, s.w)
    && AllPrintable(c, c.before.packets)
    && s.log == c.before.log
    && Hops(c, s, [], c.before.packets, c.before.back)
  }

  ghost predicate PipelineInv(c: Setup, s0: State, s: State) {
    Connected(c, s0.w) && Connected(c, s.w) && DataInv(c, s0, s)
  }

  ghost predicate DataInv(c: Setup, s0: State, s: State) {
    && c.a < |s0.w.sessions| && c.b < |s0.w.sessions| && c.a < |s.w.sessions| && c.b < |s.w.sessions| && c.a != c.b
    && A(c, s0).inbox <= A(c, s).inbox && A(c, s0).outbox <= A(c, s).outbox
    && B(c, s0).receivedModules <= B(c, s).receivedModules
    && ForwardedSince(c, s0, s) == Accepted(A(c, s0).last, ReadSince(c, s0, s))
    && A(c, s).last == LastAccepted(A(c, s0).last, ReadSince(c, s0, s))
    && AllPrintable(c, c.before.packets)
    && Hops(c, s, ReadSince(c, s0, s), AllForwarded(c, s0, s), Back(c, s0, s))
  }

  // ---------------------------------------------------------------- bytes and lines

  lemma TextsAreClean(c: Setup, ps: seq<AccelPacket>)
    requires AllPrintable(c, ps)
    ensures forall l | l in PacketTexts(c.k, ps) :: Clean(l)
    ensures forall l | l in ModuleTexts(c, ps) :: Clean(l)
  {
    forall i | 0 <= i < |ps| ensures Clean(c.k.dump(PacketJson(ps[i]))) && Clean(c.k.dump(ModuleJson(ModuleOf(c.root, ps[i])))) {
      assert Printable(c, ps[i]);
    }
  }

  lemma PacketLineArrives(c: Setup, buffer: string, wire: string, ps: seq<AccelPacket>)
    requires AllPrintable(c, ps) && buffer + wire == PacketBytes(c.k, ps) && '\n' in buffer
    ensures ps != [] && FirstLine(buffer) == c.k.dump(PacketJson(ps[0]))
    ensures AfterLine(buffer) + wire == PacketBytes(c.k, ps[1..])
  {
    TextsAreClean(c, ps);
    FirstPendingLine(buffer, wire, PacketTexts(c.k, ps));
    assert PacketTexts(c.k, ps)[1..] == PacketTexts(c.k, ps[1..]);
  }

  lemma ModuleLineArrives(c: Setup, buffer: string, wire: string, ps: seq<AccelPacket>)
    requires AllPrintable(c, ps) && buffer + wire == ModuleBytes(c, ps) && '\n' in buffer
    ensures ps != [] && FirstLine(buffer) == c.k.dump(ModuleJson(ModuleOf(c.root, ps[0])))
    ensures AfterLine(buffer) + wire == ModuleBytes(c, ps[1..])
  {
    TextsAreClean(c, ps);
    FirstPendingLine(buffer, wire, ModuleTexts(c, ps));
    assert ModuleTexts(c, ps)[1..] == ModuleTexts(c, ps[1..]);
  }

  lemma BytesAppend(c: Setup, ps: seq<AccelPacket>, p: AccelPacket)
    ensures PacketBytes(c.k, ps + [p]) == PacketBytes(c.k, ps) + Written(c.k.dump(PacketJson(p)))
    ensures ModuleBytes(c, ps + [p]) == ModuleBytes(c, ps) + Written(c.k.dump(ModuleJson(ModuleOf(c.root, p))))
  {
    var x, y := Written(c.k.dump(PacketJson(p))), Written(c.k.dump(ModuleJson(ModuleOf(c.root, p))));
    assert WrittenAll(PacketTexts(c.k, ps + [p])) == WrittenAll(PacketTexts(c.k, ps)) + [x];
    assert WrittenAll(ModuleTexts(c, ps + [p])) == WrittenAll(ModuleTexts(c, ps)) + [y];
    FlatAppend(WrittenAll(PacketTexts(c.k, ps)), x);
    FlatAppend(WrittenAll(ModuleTexts(c, ps)), y);
  }

  lemma UnsentAfterSend(queue: seq<string>, tx: nat, m: string)
    requires TxOk(queue, tx)
    ensures TxOk(queue + [m], tx) && Unsent(queue + [m], tx) == Unsent(queue, tx) + m
  {
    if queue == [] {
      assert (queue + [m])[1..] == [];
    } else {
      assert (queue + [m])[1..] == queue[1..] + [m];
      FlatAppend(queue[1..], m);
    }
  }

  lemma UnsentAfterTransmit(queue: seq<string>, tx: nat, n: nat)
    requires queue != [] && tx + n <= |queue[0]|
    ensures Unsent(queue, tx) == queue[0][tx..tx + n] + Unsent(queue, tx + n)
  {
    var head, rest := queue[0], Flat(queue[1..]);
    assert head[tx..] == head[tx..tx + n] + head[tx + n..];
    Associative(head[tx..tx + n], head[tx + n..], rest);
  }

  lemma Associative(a: string, b: string, c: string)
    ensures (a + b) + c == a + (b + c)
  {}

  lemma UnsentAfterWrite(queue: seq<string>)
    requires queue != []
    ensures TxOk(queue[1..], 0) && Unsent(queue[1..], 0) == Unsent(queue, |queue[0]|)
  {}

  // ---------------------------------------------------------------- the two reads of the server

  lemma OwnSessions(c: Setup, w: World)
    requires Connected(c, w)
    ensures c.a < |w.sessions| && c.b < |w.sessions|
    ensures c.a != c.b && Holds(w.sessions[c.a], ROLE_A) && Holds(w.sessions[c.b], ROLE_B)
    ensures Lock(w, w.nodeB, c.a) == Some(c.b) && Lock(w, w.nodeA, c.b) == Some(c.a)
    ensures QueueOk(w.sessions[c.a]) && QueueOk(w.sessions[c.b]) && CanSend(w.sessions[c.a]) && CanSend(w.sessions[c.b])
  {}

  /** What a packet line of Node A does to the server: `v` is the world after it. */
  ghost predicate PacketTaken(c: Setup, w: World, p: AccelPacket, v: World)
    requires c.a < |w.sessions| && c.b < |w.sessions|
  {
    var s, t, dup := w.sessions[c.a], w.sessions[c.b], Repeats(w.sessions[c.a].last, p);
    && |v.sessions| == |w.sessions| && v.nodeA == w.nodeA && v.nodeB == w.nodeB
    && v.sessions[c.a].inbox == s.inbox + [p]
    && v.sessions[c.a].outbox == (if dup then s.outbox else s.outbox + [p])
    && v.sessions[c.a].last == (if dup then s.last else Some(p))
    && v.sessions[c.a].queue == s.queue
    && v.sessions[c.b].queue == (if dup then t.queue else t.queue + [Written(c.k.dump(PacketJson(p)))])
    && v.sessions[c.b].receivedModules == t.receivedModules
    && (forall j | 0 <= j < |w.sessions| && j != c.a && j != c.b :: v.sessions[j] == w.sessions[j])
  }

  lemma ServerTakesPacket(c: Setup, w: World, p: AccelPacket)
    requires Connected(c, w) && Printable(c, p)
    requires c.a < |w.sessions| && c.b < |w.sessions| && w.sessions[c.a].pendingReads > 0
    ensures PacketTaken(c, w, p, RelayModel.Apply(c.k, w, ReadOk(c.a, c.k.dump(PacketJson(p)))))
  {
    hide Connected, RelayModel.Apply, TakePacket, PacketJson, Repeats, QueueOk;
    OwnSessions(c, w);
    PacketLine(c.k, w, c.a, p);
    assert Written(c.k.dump(PacketJson(p))) == c.k.Line(PacketJson(p));
    if Repeats(w.sessions[c.a].last, p) {
      PacketIsDropped(c.k, w, c.a, p);
    } else {
      PacketPassesOn(c.k, w, c.a, c.b, p);
    }
  }

  /** What a module line of Node B does to the server. */
  ghost predicate ModuleTaken(c: Setup, w: World, m: AccelModule, v: World)
    requires c.a < |w.sessions| && c.b < |w.sessions|
  {
    var s, t := w.sessions[c.a], w.sessions[c.b];
    && |v.sessions| == |w.sessions| && v.nodeA == w.nodeA && v.nodeB == w.nodeB
    && v.sessions[c.a].inbox == s.inbox
    && v.sessions[c.a].outbox == s.outbox
    && v.sessions[c.a].last == s.last
    && v.sessions[c.a].queue == s.queue + [Written(c.k.dump(ModuleJson(m)))]
    && v.sessions[c.b].queue == t.queue
    && v.sessions[c.b].receivedModules == t.receivedModules + 1
    && (forall j | 0 <= j < |w.sessions| && j != c.a && j != c.b :: v.sessions[j] == w.sessions[j])
  }

  lemma ServerTakesModule(c: Setup, w: World, m: AccelModule)
    requires Connected(c, w) && c.k.Faithful(ModuleJson(m))
    requires c.a < |w.sessions| && c.b < |w.sessions| && w.sessions[c.b].pendingReads > 0
    ensures ModuleTaken(c, w, m, RelayModel.Apply(c.k, w, ReadOk(c.b, c.k.dump(ModuleJson(m)))))
  {
    hide Connected, RelayModel.Apply, TakeModule, ModuleJson, QueueOk;
    OwnSessions(c, w);
    ModuleLine(c.k, w, c.b, m);
    assert Written(c.k.dump(ModuleJson(m))) == c.k.Line(ModuleJson(m));
    ModulePassesOn(c.k, w, c.b, c.a, m);
  }

  /** What a finished write of session `i` does: the head leaves its queue. */
  ghost predicate HeadWritten(c: Setup, w: World, i: nat, v: World)
    requires c.a < |w.sessions| && c.b < |w.sessions|
  {
    && |v.sessions| == |w.sessions| && v.nodeA == w.nodeA && v.nodeB == w.nodeB
    && (forall j | 0 <= j < |w.sessions| && j != i :: v.sessions[j] == w.sessions[j])
    && i < |w.sessions| && w.sessions[i].queue != []
    && v.sessions[i].queue == w.sessions[i].queue[1..]
    && v.sessions[i].inbox == w.sessions[i].inbox && v.sessions[i].outbox == w.sessions[i].outbox
    && v.sessions[i].last == w.sessions[i].last && v.sessions[i].receivedModules == w.sessions[i].receivedModules
  }

  lemma ServerWrites(c: Setup, w: World, i: nat)
    requires Connected(c, w) && (i == c.a || i == c.b)
    requires c.a < |w.sessions| && c.b < |w.sessions| && w.sessions[i].pendingWrites != []
    ensures HeadWritten(c, w, i, RelayModel.Apply(c.k, w, WriteOk(i)))
  {
    OwnSessions(c, w);
  }

  /** Both nodes stay connected when the server keeps its slots and leaves strangers alone. */
  lemma StaysConnected(c: Setup, w: World, v: World)
    requires Connected(c, w) && Inv(c.k, v)
    requires |v.sessions| == |w.sessions| && v.nodeA == w.nodeA && v.nodeB == w.nodeB
    requires forall j | 0 <= j < |w.sessions| && j != c.a && j != c.b :: v.sessions[j] == w.sessions[j]
    ensures Connected(c, v)
  {}

  /** No slot and no role changes, and no session but that of the event; a new one has no role. */
  predicate Aside(w: World, e: Event, v: World) {
    && v.nodeA == w.nodeA && v.nodeB == w.nodeB && |w.sessions| <= |v.sessions|
    && (forall j | 0 <= j < |w.sessions| && !(!e.Accept? && j == e.i) :: v.sessions[j] == w.sessions[j])
    && (!e.Accept? && e.i < |w.sessions| ==>
          v.sessions[e.i].role == w.sessions[e.i].role && v.sessions[e.i].pendingReads <= w.sessions[e.i].pendingReads)
    && (forall j | |w.sessions| <= j < |v.sessions| :: v.sessions[j].role == "")
  }

  /** Other sessions cannot interfere: both slots are taken, so none of them gets a role. */
  lemma OthersDoNotInterfere(c: Setup, w: World, e: Event)
    requires Connected(c, w) && RelayModel.Enabled(w, e) && (e.Accept? || (e.i != c.a && e.i != c.b))
    ensures var v := RelayModel.Apply(c.k, w, e);
            && Connected(c, v)
            && v.sessions[c.a] == w.sessions[c.a] && v.sessions[c.b] == w.sessions[c.b]
  {
    hide Inv, RelayModel.Apply, Aside, Lock, Holds, QueueOk, CanSend;
    OwnSessions(c, w);
    EventKeepsInv(c.k, w, e);
    if e.ReadOk? {
      ReadsAside(c, w, e.i, e.line);
    } else {
      CompletesAside(c.k, w, e);
    }
    AsideStaysConnected(c, w, e, RelayModel.Apply(c.k, w, e));
  }

  lemma AsideStaysConnected(c: Setup, w: World, e: Event, v: World)
    requires Connected(c, w) && Inv(c.k, v) && Aside(w, e, v) && (e.Accept? || (e.i != c.a && e.i != c.b))
    requires c.a < |w.sessions| && c.b < |w.sessions|
    ensures Connected(c, v) && v.sessions[c.a] == w.sessions[c.a] && v.sessions[c.b] == w.sessions[c.b]
  {
    hide Inv;
  }

  lemma ReadsAside(c: Setup, w: World, i: nat, line: string)
    requires Connected(c, w) && RelayModel.Enabled(w, ReadOk(i, line)) && i != c.a && i != c.b
    ensures Aside(w, ReadOk(i, line), RelayModel.Apply(c.k, w, ReadOk(i, line)))
  {
    StrangersAreIgnored(c, w, i, line);
    hide Inv, HandleLine, Connected;
  }

  lemma CompletesAside(k: Codec, w: World, e: Event)
    requires RelayModel.Enabled(w, e) && !e.ReadOk? && (e.Accept? || (w.nodeA != Some(e.i) && w.nodeB != Some(e.i)))
    ensures Aside(w, e, RelayModel.Apply(k, w, e))
  {}

  lemma StrangersAreIgnored(c: Setup, w: World, i: nat, line: string)
    requires Connected(c, w) && i < |w.sessions| && i != c.a && i != c.b && w.sessions[i].pendingReads > 0
    ensures var u := Update(w, i, EndRead(w.sessions[i])); HandleLine(c.k, u, i, line) == u
  {
    OwnSessions(c, w);
    assert Idle(w.sessions[c.a]) && Idle(w.sessions[c.b]);
  }
}
