/**
 Node B leaves and comes back. While it is away Node A goes on, its packets are filtered and lost, its modules are
 still written and logged, and any other events happen at the server; when a client registers as Node B again,
 the pipeline starts anew with exactly the modules the server had read from the old one on their way.
 */
module PipelineAbsence {
  import opened Basics
  import opened AccelPackets
  import opened JsonProtocol
  import opened DuplicateFilter
  import opened Framing
  import opened Nodes
  import opened RelayModel
  import opened RelayInvariants
  import opened RelayTheorems
  import opened Pipeline
  import opened PipelineTheorem

  // ---------------------------------------------------------------- while Node B is away

  /** The steps that go on: all of Node A's side, a late read of the old Node B, and any event of other sessions. */
  datatype AwayStep = Remaining(step: Pipeline.Step) | AtServer(e: Event)

  predicate GoesOn(step: Pipeline.Step) {
    || step.SendPacket? || step.DeliverAS? || step.ServerReadsA? || step.ServerReadsB?
    || step.TransmitA? || step.WroteA? || step.DeliverA? || step.NodeALogs?
  }

  /** An event of another session than Node A's; what the old Node B sent is read by ServerReadsB. */
  predicate OfOthers(c: Setup, e: Event) {
    e.Accept? || (e.i != c.a && !(e.ReadOk? && e.i == c.b))
  }

  /** Node B is away as long as nobody registers in its place. */
  ghost predicate AwayEnabled(c: Setup, s: Pipeline.State, step: AwayStep) {
    match step
    case Remaining(step) => GoesOn(step) && Pipeline.Enabled(c, s, step)
    case AtServer(e) => OfOthers(c, e) && RelayModel.Enabled(s.w, e) && RelayModel.Apply(c.k, s.w, e).nodeB == None
  }

  ghost function AwayApply(c: Setup, s: Pipeline.State, step: AwayStep): Pipeline.State
    requires AwayEnabled(c, s, step)
  {
    match step
    case Remaining(step) => Pipeline.Apply(c, s, step)
    case AtServer(e) => AfterEvent(c, s, e)
  }

  function AfterEvent(c: Setup, s: Pipeline.State, e: Event): Pipeline.State
    requires RelayModel.Enabled(s.w, e)
  {
    s.(w := RelayModel.Apply(c.k, s.w, e))
  }

  ghost predicate AwayRun(c: Setup, s: Pipeline.State, steps: seq<AwayStep>, t: Pipeline.State)
    decreases |steps|
  {
    if steps == [] then t == s
    else
      var n := |steps| - 1;
      exists u :: AwayRun(c, s, steps[..n], u) && AwayEnabled(c, u, steps[n]) && t == AwayApply(c, u, steps[n])
  }

  /** Node A is registered and nobody is Node B; session `b` is that of the Node B that left. */
  ghost predicate Absent(c: Setup, w: World) {
    && Inv(c.k, w)
    && c.a != c.b && c.b < |w.sessions|
    && w.nodeA == Some(c.a) && w.nodeB == None
    && w.sessions[c.b].closed && w.sessions[c.b].role == ROLE_B
    && (forall j | 0 <= j < |w.sessions| && j != c.a && j != c.b && w.sessions[j].pendingReads > 0 ::
          w.sessions[j].role == "")
  }

  /** Whatever happens at the server goes on, but for what Node A's connection does not allow and the return of a Node B. */
  lemma ServerEventsGoOn(c: Setup, s: Pipeline.State, e: Event) returns (step: AwayStep)
    requires Absent(c, s.w) && c.a < |s.w.sessions| && RelayModel.Enabled(s.w, e) && RelayModel.Apply(c.k, s.w, e).nodeB == None
    requires e.ReadOk? && e.i == c.a ==> '\n' in s.bufAS && e.line == FirstLine(s.bufAS)
    requires e.ReadOk? && e.i == c.b ==> '\n' in s.bufBS && e.line == FirstLine(s.bufBS)
    requires e == WriteOk(c.a) ==> s.txA == |s.w.sessions[c.a].pendingWrites[0]|
    requires e != ReadError(c.a) && e != WriteError(c.a)
    ensures AwayEnabled(c, s, step) && AwayApply(c, s, step).w == RelayModel.Apply(c.k, s.w, e)
  {
    hide Inv, RelayModel.Apply;
    step := if OfOthers(c, e) then AtServer(e)
            else Remaining(if e.WriteOk? then WroteA else if e.i == c.a then ServerReadsA else ServerReadsB);
  }

  lemma NodeAStays(c: Setup, w: World)
    requires Absent(c, w)
    ensures c.a < |w.sessions| && Holds(w.sessions[c.a], ROLE_A) && QueueOk(w.sessions[c.a]) && CanSend(w.sessions[c.a])
    ensures w.sessions[c.a].Pinned() && forall j :: Lock(w, w.nodeA, j) == Some(c.a)
  {
    assert Ok(c.k)(w.sessions[c.a]) && Idle(w.sessions[c.a]);
  }

  // ---------------------------------------------------------------- what the server does meanwhile

  /** A packet of Node A: the filter takes it, and it goes nowhere. */
  ghost predicate PacketLost(c: Setup, w: World, p: AccelPacket, v: World)
    requires c.a < |w.sessions|
  {
    var s := w.sessions[c.a];
    && |v.sessions| == |w.sessions| && v.nodeA == w.nodeA && v.nodeB == w.nodeB
    && v.sessions[c.a].inbox == s.inbox + [p]
    && v.sessions[c.a].outbox == s.outbox
    && v.sessions[c.a].last == (if Repeats(s.last, p) then s.last else Some(p))
    && v.sessions[c.a].queue == s.queue
    && (forall j | 0 <= j < |w.sessions| && j != c.a :: v.sessions[j] == w.sessions[j])
  }

  lemma Lost(c: Setup, w: World, p: AccelPacket, s: Session)
    requires c.a < |w.sessions| && w.sessions[c.a].pendingReads > 0
    requires s == StartRead(if Repeats(w.sessions[c.a].last, p) then CountDuplicate(EndRead(w.sessions[c.a]), p)
                            else CountAccepted(EndRead(w.sessions[c.a]), p))
    ensures PacketLost(c, w, p, Update(w, c.a, s))
  {
    hide Repeats;
  }

  lemma ServerLosesPacket(c: Setup, w: World, p: AccelPacket)
    requires Absent(c, w) && Printable(c, p)
    requires c.a < |w.sessions| && w.sessions[c.a].pendingReads > 0
    ensures PacketLost(c, w, p, RelayModel.Apply(c.k, w, ReadOk(c.a, c.k.dump(PacketJson(p)))))
  {
    assert w.nodeB == None;
    hide Absent, RelayModel.Apply, TakePacket, PacketJson, Repeats, QueueOk, PacketLost;
    hide StartRead, CountDuplicate, CountAccepted, ReadOn;
    NodeAStays(c, w);
    PacketLine(c.k, w, c.a, p);
    if Repeats(w.sessions[c.a].last, p) {
      PacketIsDropped(c.k, w, c.a, p);
      Lost(c, w, p, StartRead(CountDuplicate(EndRead(w.sessions[c.a]), p)));
    } else {
      PacketStays(c.k, w, c.a, p);
      Lost(c, w, p, StartRead(CountAccepted(EndRead(w.sessions[c.a]), p)));
    }
  }

  /** A module line of the old Node B that was already complete when its session was closed. */
  lemma ServerTakesLateModule(c: Setup, w: World, m: AccelModule)
    requires Absent(c, w) && c.k.Faithful(ModuleJson(m))
    requires c.a < |w.sessions| && w.sessions[c.b].pendingReads > 0
    ensures var v := RelayModel.Apply(c.k, w, ReadOk(c.b, c.k.dump(ModuleJson(m))));
            && ModuleTaken(c, w, m, v)
            && v.sessions[c.b].closed && v.sessions[c.b].role == w.sessions[c.b].role
  {
    assert w.sessions[c.b].role == ROLE_B && w.sessions[c.b].closed && c.a != c.b;
    hide Absent, RelayModel.Apply, TakeModule, ModuleJson, QueueOk, ModuleTaken, ReadOn, PassedOn;
    NodeAStays(c, w);
    ModuleLine(c.k, w, c.b, m);
    ModulePassesOn(c.k, w, c.b, c.a, m);
    LateModuleTaken(c, w, m);
  }

  lemma LateModuleTaken(c: Setup, w: World, m: AccelModule)
    requires c.a < |w.sessions| && c.b < |w.sessions| && c.a != c.b && CanSend(w.sessions[c.a])
    requires w.sessions[c.b].pendingReads > 0 && w.sessions[c.b].closed && c.k.Faithful(ModuleJson(m))
    ensures var v := PassedOn(w, c.b, CountForwardedModule(CountModule(EndRead(w.sessions[c.b]))), c.a, c.k.Line(ModuleJson(m)));
            && ModuleTaken(c, w, m, v)
            && v.sessions[c.b].closed && v.sessions[c.b].role == w.sessions[c.b].role
  {
    assert Written(c.k.dump(ModuleJson(m))) == c.k.Line(ModuleJson(m));
    hide ModuleJson;
  }

  lemma ServerWritesToA(c: Setup, w: World)
    requires Absent(c, w) && c.a < |w.sessions| && w.sessions[c.a].pendingWrites != []
    ensures HeadWritten(c, w, c.a, RelayModel.Apply(c.k, w, WriteOk(c.a)))
  {
    hide Absent;
    NodeAStays(c, w);
  }

  /** A client without a role can only register, and only as Node B. */
  lemma StrangerSpeaks(c: Setup, w: World, j: nat, line: string)
    requires Absent(c, w) && j < |w.sessions| && j != c.a && j != c.b && w.sessions[j].pendingReads > 0
    ensures var u := Update(w, j, EndRead(w.sessions[j]));
            HandleLine(c.k, u, j, line) == u
            || HandleLine(c.k, u, j, line) == Update(u, j, Register(u.sessions[j], ROLE_B)).(nodeB := Some(j))
  {
    NodeAStays(c, w);
    assert ROLE_A != ROLE_B;
    hide ParseAccelPacket, ParseAccelModule, TakePacket, TakeModule, ClientRole, MessageType;
  }

  /** What an event of the others leads to: Node B is still away, or the client of the event is Node B now. */
  ghost predicate AwayOrBack(c: Setup, w: World, e: Event, v: World)
    requires c.a < |w.sessions| && c.b < |w.sessions|
  {
    && |w.sessions| <= |v.sessions|
    && v.sessions[c.a] == w.sessions[c.a] && v.sessions[c.b].receivedModules == w.sessions[c.b].receivedModules
    && (v.nodeB == None ==> Absent(c, v))
    && (v.nodeB != None ==>
          && e.ReadOk? && v.nodeB == Some(e.i) && e.i != c.a && e.i != c.b && e.i < |v.sessions| && v.sessions[e.i].queue == []
          && (w.sessions[c.b].pendingReads == 0 ==> Connected(c.(b := e.i), v)))
  }

  lemma StrangerWhileAway(c: Setup, w: World, j: nat, line: string)
    requires Absent(c, w) && c.a < |w.sessions| && OfOthers(c, ReadOk(j, line)) && RelayModel.Enabled(w, ReadOk(j, line))
    requires Inv(c.k, RelayModel.Apply(c.k, w, ReadOk(j, line)))
    ensures AwayOrBack(c, w, ReadOk(j, line), RelayModel.Apply(c.k, w, ReadOk(j, line)))
  {
    hide HandleLine, Inv, Absent, AwayOrBack;
    NothingQueuedYet(c, w, j);
    StrangerSpeaks(c, w, j, line);
    var s := w.sessions[j];
    assert StartRead(EndRead(s)) == s && StartRead(Register(EndRead(s), ROLE_B)) == Register(s, ROLE_B);
    assert w.sessions[j := s] == w.sessions;
    assert w.sessions[j := EndRead(s)][j := s] == w.sessions;
    var u := Update(w, j, EndRead(s));
    if HandleLine(c.k, u, j, line) == u {
      assert RelayModel.Apply(c.k, w, ReadOk(j, line)) == w;
      NothingNew(c, w, ReadOk(j, line));
    } else {
      var v := World(w.sessions[j := Register(s, ROLE_B)], w.nodeA, Some(j));
      assert w.sessions[j := EndRead(s)][j := Register(EndRead(s), ROLE_B)][j := Register(s, ROLE_B)] == v.sessions;
      assert RelayModel.Apply(c.k, w, ReadOk(j, line)) == v;
      NewNodeB(c, w, j, line, v);
    }
  }

  lemma NothingNew(c: Setup, w: World, e: Event)
    requires Absent(c, w) && c.a < |w.sessions|
    ensures AwayOrBack(c, w, e, w)
  {}

  lemma NewNodeB(c: Setup, w: World, j: nat, line: string, v: World)
    requires Absent(c, w) && c.a < |w.sessions| && j < |w.sessions| && j != c.a && j != c.b && w.sessions[j].queue == []
    requires v == World(w.sessions[j := Register(w.sessions[j], ROLE_B)], w.nodeA, Some(j)) && Inv(c.k, v)
    ensures AwayOrBack(c, w, ReadOk(j, line), v)
  {
    hide Inv;
  }

  lemma NothingQueuedYet(c: Setup, w: World, j: nat)
    requires Absent(c, w) && j < |w.sessions| && j != c.a && j != c.b && w.sessions[j].pendingReads > 0
    ensures w.sessions[j].role == "" && w.sessions[j].queue == [] && !w.sessions[j].closed && w.sessions[j].pendingReads == 1
  {
    assert Ok(c.k)(w.sessions[j]) && RoleOk(c.k, w.sessions[j]) && QueueOk(w.sessions[j]) && Idle(w.sessions[j]);
  }

  /** Session `i` does not open, read or change its role, and nothing else changes. */
  predicate OnlyWindsDown(w: World, i: nat, v: World)
    requires i < |w.sessions|
  {
    && |v.sessions| == |w.sessions| && v.nodeA == w.nodeA && v.nodeB == w.nodeB
    && (w.sessions[i].closed ==> v.sessions[i].closed)
    && v.sessions[i].pendingReads <= w.sessions[i].pendingReads
    && v.sessions[i].role == w.sessions[i].role && v.sessions[i].receivedModules == w.sessions[i].receivedModules
    && (forall j | 0 <= j < |w.sessions| && j != i :: v.sessions[j] == w.sessions[j])
  }

  /** Errors and finished writes of a session that holds no slot. */
  lemma QuietEvent(k: Codec, w: World, e: Event)
    requires RelayModel.Enabled(w, e) && !e.Accept? && !e.ReadOk? && w.nodeA != Some(e.i) && w.nodeB != Some(e.i)
    ensures OnlyWindsDown(w, e.i, RelayModel.Apply(k, w, e))
  {}

  lemma QuietWhileAway(c: Setup, w: World, e: Event)
    requires Absent(c, w) && c.a < |w.sessions| && OfOthers(c, e) && RelayModel.Enabled(w, e) && !e.Accept? && !e.ReadOk?
    requires Inv(c.k, RelayModel.Apply(c.k, w, e))
    ensures AwayOrBack(c, w, e, RelayModel.Apply(c.k, w, e))
  {
    hide Inv, AwayOrBack, OnlyWindsDown;
    QuietEvent(c.k, w, e);
    WindingDownIsAbsence(c, w, e, RelayModel.Apply(c.k, w, e));
  }

  lemma WindingDownIsAbsence(c: Setup, w: World, e: Event, v: World)
    requires Absent(c, w) && c.a < |w.sessions| && OfOthers(c, e) && Inv(c.k, v)
    requires !e.Accept? && e.i < |w.sessions| && OnlyWindsDown(w, e.i, v)
    ensures AwayOrBack(c, w, e, v)
  {
    hide Inv;
  }

  lemma AcceptWhileAway(c: Setup, w: World)
    requires Absent(c, w) && c.a < |w.sessions| && Inv(c.k, RelayModel.Apply(c.k, w, Accept))
    ensures AwayOrBack(c, w, Accept, RelayModel.Apply(c.k, w, Accept))
  {
    hide Inv;
  }

  lemma OthersWhileAway(c: Setup, w: World, e: Event)
    requires Absent(c, w) && c.a < |w.sessions| && OfOthers(c, e) && RelayModel.Enabled(w, e)
    ensures AwayOrBack(c, w, e, RelayModel.Apply(c.k, w, e))
  {
    EventKeepsInv(c.k, w, e);
    hide AwayOrBack, RelayModel.Apply, RelayModel.Enabled, Absent, Inv;
    match e
    case Accept => AcceptWhileAway(c, w);
    case ReadOk(j, line) => StrangerWhileAway(c, w, j, line);
    case _ => QuietWhileAway(c, w, e);
  }

  // ---------------------------------------------------------------- the invariant of an absence

  ghost predicate AwayInv(c: Setup, s0: Pipeline.State, s: Pipeline.State) {
    Absent(c, s.w) && AwayData(c, s0, s)
  }

  /** What is left of DataInv: nothing is known of the connection to Node B. */
  ghost predicate AwayData(c: Setup, s0: Pipeline.State, s: Pipeline.State) {
    && c.a < |s0.w.sessions| && c.b < |s0.w.sessions| && c.a < |s.w.sessions| && c.b < |s.w.sessions| && c.a != c.b
    && A(c, s0).inbox <= A(c, s).inbox && A(c, s0).outbox <= A(c, s).outbox
    && B(c, s0).receivedModules <= B(c, s).receivedModules
    && A(c, s).last == LastAccepted(A(c, s0).last, ReadSince(c, s0, s))
    && AllPrintable(c, AllForwarded(c, s0, s))
    && Around(c, s, ReadSince(c, s0, s), AllForwarded(c, s0, s), Back(c, s0, s))
  }

  /** The error that ends the session of Node B. */
  predicate Leaves(c: Setup, e: Event) {
    e == ReadError(c.b) || e == WriteError(c.b)
  }

  lemma NodeBIsClosed(c: Setup, w: World, e: Event)
    requires Connected(c, w) && Leaves(c, e) && RelayModel.Enabled(w, e)
    ensures var v := RelayModel.Apply(c.k, w, e);
            && Absent(c, v) && c.a < |w.sessions| && |v.sessions| == |w.sessions|
            && v.sessions[c.a] == w.sessions[c.a] && v.sessions[c.b].receivedModules == w.sessions[c.b].receivedModules
  {
    OwnSessions(c, w);
    EventKeepsInv(c.k, w, e);
    hide Inv, QueueOk;
  }

  lemma AbsenceStarts(c: Setup, s0: Pipeline.State, s: Pipeline.State, e: Event)
    requires PipelineInv(c, s0, s) && Leaves(c, e) && RelayModel.Enabled(s.w, e)
    ensures AwayInv(c, s0, AfterEvent(c, s, e))
    ensures c.a < |s0.w.sessions| && c.b < |s0.w.sessions|
    ensures AllForwarded(c, s0, AfterEvent(c, s, e)) == AllForwarded(c, s0, s)
  {
    hide Connected, RelayModel.Apply;
    NodeBIsClosed(c, s.w, e);
    ForwardedArePrintable(c, s0, s);
    SameSessions(c, s0, s, RelayModel.Apply(c.k, s.w, e));
  }

  /** Nothing changes around Node B when neither session of the two nodes handles anything. */
  lemma SameSessions(c: Setup, s0: Pipeline.State, s: Pipeline.State, v: World)
    requires c.a < |s0.w.sessions| && c.b < |s0.w.sessions| && c.a < |s.w.sessions| && c.b < |s.w.sessions|
    requires c.a < |v.sessions| && c.b < |v.sessions| && c.a != c.b
    requires v.sessions[c.a] == A(c, s) && v.sessions[c.b].receivedModules == B(c, s).receivedModules
    ensures var t := s.(w := v);
            && ReadSince(c, s0, t) == ReadSince(c, s0, s) && AllForwarded(c, s0, t) == AllForwarded(c, s0, s)
            && Back(c, s0, t) == Back(c, s0, s)
            && forall read, fwd, back: nat :: Around(c, s, read, fwd, back) ==> Around(c, t, read, fwd, back)
  {
    hide Carries, PacketBytes, ModuleBytes, Unsent, TxOk, ModulesOf, AllPrintable;
  }

  lemma LostKeepsAround(c: Setup, s: Pipeline.State, read: seq<AccelPacket>, fwd: seq<AccelPacket>, back: nat, v: World)
    requires c.a < |s.w.sessions| && '\n' in s.bufAS && Around(c, s, read, fwd, back)
    ensures |read| < |s.sent|
    ensures var p := s.sent[|read|];
            && Printable(c, p) && FirstLine(s.bufAS) == c.k.dump(PacketJson(p))
            && (PacketLost(c, s.w, p, v) ==> Around(c, s.(bufAS := AfterLine(s.bufAS), w := v), read + [p], fwd, back))
  {
    hide Carries, PacketBytes, ModuleBytes, Unsent;
    var n := |read|;
    PacketRead(c, s.bufAS, s.wireAS, "", s.sent, n);
    assert s.sent[..n + 1] == read + [s.sent[n]];
  }

  lemma LostKeepsData(c: Setup, s0: Pipeline.State, s: Pipeline.State, v: World)
    requires AwayData(c, s0, s) && '\n' in s.bufAS
    ensures |ReadSince(c, s0, s)| < |s.sent|
    ensures var p, t := s.sent[|ReadSince(c, s0, s)|], s.(bufAS := AfterLine(s.bufAS), w := v);
            && Printable(c, p) && FirstLine(s.bufAS) == c.k.dump(PacketJson(p))
            && (PacketLost(c, s.w, p, v) ==> AwayData(c, s0, t) && AllForwarded(c, s0, t) == AllForwarded(c, s0, s))
  {
    var read := ReadSince(c, s0, s);
    hide Around, Repeats, LastAccepted, Accepted, PacketLost, AllPrintable;
    LostKeepsAround(c, s, read, AllForwarded(c, s0, s), Back(c, s0, s), v);
    var p, t := s.sent[|read|], s.(bufAS := AfterLine(s.bufAS), w := v);
    if PacketLost(c, s.w, p, v) {
      SinceLoss(c, s0, s, t, p);
      hide ReadSince, AllForwarded, Back;
      AcceptedAppend(A(c, s0).last, read, p);
    }
  }

  /** What a lost packet adds to the histories. */
  lemma SinceLoss(c: Setup, s0: Pipeline.State, s: Pipeline.State, t: Pipeline.State, p: AccelPacket)
    requires AwayData(c, s0, s) && PacketLost(c, s.w, p, t.w)
    ensures c.a < |t.w.sessions| && c.b < |t.w.sessions|
    ensures A(c, s0).inbox <= A(c, t).inbox && A(c, s0).outbox <= A(c, t).outbox
    ensures B(c, t).receivedModules == B(c, s).receivedModules && Back(c, s0, t) == Back(c, s0, s)
    ensures ReadSince(c, s0, t) == ReadSince(c, s0, s) + [p] && AllForwarded(c, s0, t) == AllForwarded(c, s0, s)
    ensures A(c, t).last == if Repeats(A(c, s).last, p) then A(c, s).last else Some(p)
  {
    hide Around, Repeats, LastAccepted, AllPrintable;
    SinceAppend(A(c, s0).inbox, A(c, s).inbox, p);
  }

  lemma AwayReadA(c: Setup, s0: Pipeline.State, s: Pipeline.State)
    requires AwayInv(c, s0, s) && Pipeline.Enabled(c, s, ServerReadsA)
    ensures var t := Pipeline.Apply(c, s, ServerReadsA);
            && AwayInv(c, s0, t) && AllForwarded(c, s0, t) == AllForwarded(c, s0, s)
  {
    var e := ReadOk(c.a, FirstLine(s.bufAS));
    var v := RelayModel.Apply(c.k, s.w, e);
    var n := |ReadSince(c, s0, s)|;
    ReadKeepsInvariant(c, s.w, e);
    assert Pipeline.Apply(c, s, ServerReadsA) == s.(bufAS := AfterLine(s.bufAS), w := v);
    assert '\n' in s.bufAS && c.a < |s.w.sessions| && A(c, s).pendingReads > 0;
    hide Absent, Inv, AwayData, AllForwarded, RelayModel.Apply, ReadSince, PacketLost, Pipeline.Apply, Pipeline.Enabled;
    LostKeepsData(c, s0, s, v);
    ServerLosesPacket(c, s.w, s.sent[n]);
    OnlyNodeARead(c, s.w, s.sent[n], v);
  }

  lemma ReadKeepsInvariant(c: Setup, w: World, e: Event)
    requires Absent(c, w) && RelayModel.Enabled(w, e)
    ensures Inv(c.k, RelayModel.Apply(c.k, w, e))
  {
    hide Inv;
    EventKeepsInv(c.k, w, e);
  }

  lemma OnlyNodeARead(c: Setup, w: World, p: AccelPacket, v: World)
    requires Absent(c, w) && Inv(c.k, v) && c.a < |w.sessions| && PacketLost(c, w, p, v)
    ensures Absent(c, v)
  {
    hide Inv;
  }

  lemma LateModuleKeepsData(c: Setup, s0: Pipeline.State, s: Pipeline.State, v: World)
    requires AwayData(c, s0, s) && '\n' in s.bufBS
    ensures Back(c, s0, s) < |AllForwarded(c, s0, s)| && Printable(c, AllForwarded(c, s0, s)[Back(c, s0, s)])
    ensures var m := ModuleOf(c.root, AllForwarded(c, s0, s)[Back(c, s0, s)]);
            && FirstLine(s.bufBS) == c.k.dump(ModuleJson(m))
            && (ModuleTaken(c, s.w, m, v) ==>
                  var t := s.(bufBS := AfterLine(s.bufBS), w := v);
                  AwayData(c, s0, t) && AllForwarded(c, s0, t) == AllForwarded(c, s0, s))
  {
    hide Around, LastAccepted;
    ModuleTakenKeepsAround(c, s, ReadSince(c, s0, s), AllForwarded(c, s0, s), Back(c, s0, s), v);
  }

  lemma AwayReadB(c: Setup, s0: Pipeline.State, s: Pipeline.State)
    requires AwayInv(c, s0, s) && Pipeline.Enabled(c, s, ServerReadsB)
    ensures var t := Pipeline.Apply(c, s, ServerReadsB);
            && AwayInv(c, s0, t) && AllForwarded(c, s0, t) == AllForwarded(c, s0, s)
  {
    var e := ReadOk(c.b, FirstLine(s.bufBS));
    var v := RelayModel.Apply(c.k, s.w, e);
    ReadKeepsInvariant(c, s.w, e);
    assert Pipeline.Apply(c, s, ServerReadsB) == s.(bufBS := AfterLine(s.bufBS), w := v);
    assert '\n' in s.bufBS && c.b < |s.w.sessions| && B(c, s).pendingReads > 0;
    hide Absent, Inv, AwayData, AllForwarded, RelayModel.Apply, Back, ModuleTaken, Pipeline.Apply, Pipeline.Enabled;
    LateModuleKeepsData(c, s0, s, v);
    var m := ModuleOf(c.root, AllForwarded(c, s0, s)[Back(c, s0, s)]);
    ServerTakesLateModule(c, s.w, m);
    OnlyNodeBRead(c, s.w, m, v);
  }

  lemma OnlyNodeBRead(c: Setup, w: World, m: AccelModule, v: World)
    requires Absent(c, w) && Inv(c.k, v) && c.a < |w.sessions| && ModuleTaken(c, w, m, v)
    requires v.sessions[c.b].closed && v.sessions[c.b].role == w.sessions[c.b].role
    ensures Absent(c, v)
  {
    hide Inv;
  }

  lemma HeadWrittenKeepsData(c: Setup, s0: Pipeline.State, s: Pipeline.State, v: World)
    requires AwayData(c, s0, s) && HeadWritten(c, s.w, c.a, v) && s.txA == |A(c, s).queue[0]|
    ensures var t := s.(txA := 0, w := v);
            && AwayData(c, s0, t) && AllForwarded(c, s0, t) == AllForwarded(c, s0, s)
  {
    hide Around, LastAccepted;
    WrittenKeepsAround(c, s, ReadSince(c, s0, s), AllForwarded(c, s0, s), Back(c, s0, s), v);
  }

  lemma OnlyNodeAWrote(c: Setup, w: World, v: World)
    requires Absent(c, w) && Inv(c.k, v) && c.a < |w.sessions| && HeadWritten(c, w, c.a, v)
    ensures Absent(c, v)
  {
    hide Inv;
  }

  lemma AwayWroteA(c: Setup, s0: Pipeline.State, s: Pipeline.State)
    requires AwayInv(c, s0, s) && Pipeline.Enabled(c, s, WroteA)
    ensures var t := Pipeline.Apply(c, s, WroteA);
            && AwayInv(c, s0, t) && AllForwarded(c, s0, t) == AllForwarded(c, s0, s)
  {
    var v := RelayModel.Apply(c.k, s.w, WriteOk(c.a));
    ReadKeepsInvariant(c, s.w, WriteOk(c.a));
    NodeAStays(c, s.w);
    assert Pipeline.Apply(c, s, WroteA) == s.(txA := 0, w := v);
    assert A(c, s).pendingWrites != [] && s.txA == |A(c, s).queue[0]|;
    hide Absent, Inv, AwayData, AllForwarded, RelayModel.Apply, HeadWritten, Pipeline.Apply, Pipeline.Enabled, QueueOk;
    ServerWritesToA(c, s.w);
    HeadWrittenKeepsData(c, s0, s, v);
    OnlyNodeAWrote(c, s.w, v);
  }

  lemma OutsideKeepsData(c: Setup, s0: Pipeline.State, s: Pipeline.State, t: Pipeline.State)
    requires AwayData(c, s0, s) && t.w == s.w
    requires Around(c, t, ReadSince(c, s0, s), AllForwarded(c, s0, s), Back(c, s0, s))
    ensures AwayData(c, s0, t) && AllForwarded(c, s0, t) == AllForwarded(c, s0, s)
  {
    hide Around, LastAccepted;
  }

  lemma AwayOutside(c: Setup, s0: Pipeline.State, s: Pipeline.State, step: Pipeline.Step)
    requires AwayInv(c, s0, s) && Pipeline.Enabled(c, s, step)
    requires step.SendPacket? || step.NodeALogs? || step.TransmitA? || step.DeliverAS? || step.DeliverA?
    ensures var t := Pipeline.Apply(c, s, step);
            && AwayInv(c, s0, t) && AllForwarded(c, s0, t) == AllForwarded(c, s0, s)
  {
    NodeAStays(c, s.w);
    hide Around, Absent, QueueOk, ModuleIn, ReadSince, AllForwarded, Back, Pipeline.Enabled;
    var t := Pipeline.Apply(c, s, step);
    assert t.w == s.w;
    hide Pipeline.Apply;
    AroundStepKeepsAround(c, s, ReadSince(c, s0, s), AllForwarded(c, s0, s), Back(c, s0, s), step);
    hide AwayData;
    OutsideKeepsData(c, s0, s, t);
  }

  lemma AwayElsewhere(c: Setup, s0: Pipeline.State, s: Pipeline.State, e: Event)
    requires AwayInv(c, s0, s) && AwayEnabled(c, s, AtServer(e))
    ensures AwayInv(c, s0, AfterEvent(c, s, e))
    ensures AllForwarded(c, s0, AfterEvent(c, s, e)) == AllForwarded(c, s0, s)
  {
    hide Around, Absent, RelayModel.Apply;
    OthersWhileAway(c, s.w, e);
    SameSessions(c, s0, s, RelayModel.Apply(c.k, s.w, e));
  }

  lemma AwayStepKeepsInv(c: Setup, s0: Pipeline.State, s: Pipeline.State, step: AwayStep)
    requires AwayInv(c, s0, s) && AwayEnabled(c, s, step)
    ensures var t := AwayApply(c, s, step);
            && AwayInv(c, s0, t) && AllForwarded(c, s0, t) == AllForwarded(c, s0, s)
  {
    hide AwayInv, AllForwarded, Pipeline.Apply, Pipeline.Enabled, RelayModel.Apply;
    match step
    case AtServer(e) => AwayElsewhere(c, s0, s, e);
    case Remaining(ServerReadsA) => AwayReadA(c, s0, s);
    case Remaining(ServerReadsB) => AwayReadB(c, s0, s);
    case Remaining(WroteA) => AwayWroteA(c, s0, s);
    case Remaining(outside) => AwayOutside(c, s0, s, outside);
  }

  lemma {:induction false} AwayHolds(c: Setup, s0: Pipeline.State, s: Pipeline.State, steps: seq<AwayStep>, u: Pipeline.State)
    requires AwayInv(c, s0, s) && AwayRun(c, s, steps, u)
    ensures AwayInv(c, s0, u) && AllForwarded(c, s0, u) == AllForwarded(c, s0, s)
    decreases |steps|
  {
    hide AwayInv, AllForwarded, AwayEnabled, AwayApply;
    if steps != [] {
      var n := |steps| - 1;
      var v :| AwayRun(c, s, steps[..n], v) && AwayEnabled(c, v, steps[n]) && u == AwayApply(c, v, steps[n]);
      AwayHolds(c, s0, s, steps[..n], v);
      AwayStepKeepsInv(c, s0, v, steps[n]);
    }
  }

  // ---------------------------------------------------------------- the return

  /** The state in which the new Node B starts: new and empty connections, the packets not read yet still to come. */
  function WithNewNodeB(s: Pipeline.State, w: World, sent: seq<AccelPacket>, answered: nat): Pipeline.State {
    s.(w := w, sent := sent, answered := answered, txB := 0, wireSB := "", bufB := "", wireBS := "", bufBS := "")
  }

  /** Only the packets whose modules are on their way to Node A still have a module to come. */
  lemma Rebased(c: Setup, s: Pipeline.State, read: seq<AccelPacket>, fwd: seq<AccelPacket>, back: nat, w: World, b: nat)
    requires c.a < |s.w.sessions| && c.a < |w.sessions| && b < |w.sessions|
    requires Around(c, s, read, fwd, back) && AllPrintable(c, fwd)
    requires w.sessions[c.a] == A(c, s) && w.sessions[b].queue == []
    ensures var n := Logged(c, s);
            && n <= back <= |fwd| && |read| <= |s.sent|
            && var d := c.(b := b, before := Before(s.log, fwd[n..back], back - n));
               && AllPrintable(d, fwd[n..back])
               && Hops(d, WithNewNodeB(s, w, s.sent[|read|..], back - n), [], fwd[n..back], back - n)
  {
    var n := Logged(c, s);
    var d := c.(b := b, before := Before(s.log, fwd[n..back], back - n));
    var t, ps := WithNewNodeB(s, w, s.sent[|read|..], back - n), fwd[n..back];
    SameTexts(c, d, ps);
    PrintableInBoth(c, d, fwd, n, back);
    PrintableInBoth(c, d, s.sent, |read|, |s.sent|);
    assert s.sent[|read|..|s.sent|] == t.sent;
    assert Carries(t.bufAS, t.wireAS, "", PacketBytes(d.k, t.sent));
    assert TxOk(A(d, t).queue, t.txA) && Carries(t.bufA, t.wireSA, Unsent(A(d, t).queue, t.txA), ModuleBytes(d, ps));
    hide Around, Hops, Carries, PacketBytes, ModuleBytes, Unsent, TxOk, AllPrintable;
    FreshHops(d, t);
  }

  lemma FreshStart(c: Setup, s: Pipeline.State, read: seq<AccelPacket>, fwd: seq<AccelPacket>, back: nat, w: World, b: nat)
    requires c.a < |s.w.sessions| && c.a < |w.sessions| && b < |w.sessions|
    requires Around(c, s, read, fwd, back) && AllPrintable(c, fwd) && Connected(c.(b := b), w)
    requires w.sessions[c.a] == A(c, s) && w.sessions[b].queue == []
    ensures var n := Logged(c, s);
            && n <= back <= |fwd| && |read| <= |s.sent|
            && Start(c.(b := b, before := Before(s.log, fwd[n..back], back - n)), WithNewNodeB(s, w, s.sent[|read|..], back - n))
  {
    hide Around, Hops, AllPrintable, Connected, Start;
    Rebased(c, s, read, fwd, back, w, b);
    var n := Logged(c, s);
    var d := c.(b := b, before := Before(s.log, fwd[n..back], back - n));
    StillConnected(c.(b := b), d.before, w);
    StartsAgain(d, WithNewNodeB(s, w, s.sent[|read|..], back - n));
  }

  /** The new beginning: Node B is session `b` now. */
  function Renewed(c: Setup, s0: Pipeline.State, u: Pipeline.State, b: nat): Setup
    requires c.a < |s0.w.sessions| && c.b < |s0.w.sessions| && c.a < |u.w.sessions| && c.b < |u.w.sessions|
    requires Logged(c, u) <= Back(c, s0, u) <= |AllForwarded(c, s0, u)|
  {
    var n, back := Logged(c, u), Back(c, s0, u);
    c.(b := b, before := Before(u.log, AllForwarded(c, s0, u)[n..back], back - n))
  }

  function NewStart(c: Setup, s0: Pipeline.State, u: Pipeline.State, v: World): Pipeline.State
    requires c.a < |s0.w.sessions| && c.b < |s0.w.sessions| && c.a < |u.w.sessions| && c.b < |u.w.sessions|
    requires Logged(c, u) <= Back(c, s0, u) && |ReadSince(c, s0, u)| <= |u.sent|
  {
    WithNewNodeB(u, v, u.sent[|ReadSince(c, s0, u)|..], Back(c, s0, u) - Logged(c, u))
  }

  /** An event `e` by which a client becomes Node B, once the old Node B has no line left to handle. */
  ghost predicate Returns(c: Setup, w: World, e: Event) {
    && OfOthers(c, e) && RelayModel.Enabled(w, e) && RelayModel.Apply(c.k, w, e).nodeB != None
    && c.b < |w.sessions| && w.sessions[c.b].pendingReads == 0
  }

  lemma SomebodyIsNodeB(c: Setup, w: World, e: Event)
    requires Absent(c, w) && Returns(c, w, e)
    ensures var v := RelayModel.Apply(c.k, w, e);
            && e.ReadOk? && c.a < |w.sessions| && c.a < |v.sessions| && e.i < |v.sessions| && Connected(c.(b := e.i), v)
            && v.sessions[c.a] == w.sessions[c.a] && v.sessions[e.i].queue == []
  {
    hide RelayModel.Apply, RelayModel.Enabled, Connected;
    OthersWhileAway(c, w, e);
    hide Absent;
  }

  lemma AwayDataSays(c: Setup, s0: Pipeline.State, u: Pipeline.State)
    requires AwayData(c, s0, u)
    ensures c.a < |s0.w.sessions| && c.b < |s0.w.sessions| && c.a < |u.w.sessions| && c.b < |u.w.sessions|
    ensures AllPrintable(c, AllForwarded(c, s0, u))
    ensures Around(c, u, ReadSince(c, s0, u), AllForwarded(c, s0, u), Back(c, s0, u))
    ensures A(c, u).last == LastAccepted(A(c, s0).last, ReadSince(c, s0, u))
  {
    hide Around, AllPrintable, LastAccepted;
  }

  lemma SomebodyStarts(c: Setup, u: Pipeline.State, read: seq<AccelPacket>, fwd: seq<AccelPacket>, back: nat, e: Event)
    requires Absent(c, u.w) && Returns(c, u.w, e)
    requires c.a < |u.w.sessions| && Around(c, u, read, fwd, back) && AllPrintable(c, fwd)
    ensures e.ReadOk? && RelayModel.Enabled(u.w, e)
    ensures var n := Logged(c, u);
            && n <= back <= |fwd| && |read| <= |u.sent|
            && Start(c.(b := e.i, before := Before(u.log, fwd[n..back], back - n)),
                     WithNewNodeB(u, RelayModel.Apply(c.k, u.w, e), u.sent[|read|..], back - n))
  {
    assert RelayModel.Enabled(u.w, e);
    hide Absent, Returns, Around, Connected, RelayModel.Apply, RelayModel.Enabled, Start, AllPrintable, Logged;
    SomebodyIsNodeB(c, u.w, e);
    FreshStart(c, u, read, fwd, back, RelayModel.Apply(c.k, u.w, e), e.i);
  }

  lemma AbsenceEnds(c: Setup, s0: Pipeline.State, u: Pipeline.State, e: Event)
    requires AwayInv(c, s0, u) && Returns(c, u.w, e)
    ensures e.ReadOk? && c.a < |s0.w.sessions| && c.b < |s0.w.sessions| && c.a < |u.w.sessions|
    ensures Logged(c, u) <= Back(c, s0, u) <= |AllForwarded(c, s0, u)| && |ReadSince(c, s0, u)| <= |u.sent|
    ensures Start(Renewed(c, s0, u, e.i), NewStart(c, s0, u, RelayModel.Apply(c.k, u.w, e)))
  {
    hide AwayData, Absent, Returns, Around, RelayModel.Apply, RelayModel.Enabled, Start, AllPrintable, Logged;
    hide ReadSince, AllForwarded, Back;
    AwayDataSays(c, s0, u);
    SomebodyStarts(c, u, ReadSince(c, s0, u), AllForwarded(c, s0, u), Back(c, s0, u), e);
  }

  /**
   Node B leaves with an error on its session, anything happens, and a client registers as Node B. This is a new
   start of the pipeline: what is logged or on its way then are the modules the server had read from the old
   Node B. What it had not answered is lost, and so is every packet read from Node A meanwhile: nothing was
   forwarded, but the filter went on, so that it is compared with the packets to come.
   */
  lemma NodeBMayReturn(c: Setup, s0: Pipeline.State, steps: seq<Pipeline.Step>, s: Pipeline.State, leave: Event,
                       away: seq<AwayStep>, u: Pipeline.State, e: Event)
    requires Start(c, s0) && Pipeline.Run(c, s0, steps, s)
    requires Leaves(c, leave) && RelayModel.Enabled(s.w, leave) && AwayRun(c, AfterEvent(c, s, leave), away, u)
    requires Returns(c, u.w, e)
    ensures e.ReadOk? && c.a < |s0.w.sessions| && c.b < |s0.w.sessions| && c.a < |s.w.sessions| && c.a < |u.w.sessions|
    ensures Logged(c, u) <= Back(c, s0, u) <= |AllForwarded(c, s0, u)| && |ReadSince(c, s0, u)| <= |u.sent|
    ensures AllForwarded(c, s0, u) == AllForwarded(c, s0, s)
    ensures A(c, u).last == LastAccepted(A(c, s0).last, ReadSince(c, s0, u))
    ensures var d, t := Renewed(c, s0, u, e.i), NewStart(c, s0, u, RelayModel.Apply(c.k, u.w, e));
            && Start(d, t) && d.b < |t.w.sessions| && d.a < |t.w.sessions|
            && Stream(d, t) == c.before.log + ModulesOf(c, AllForwarded(c, s0, s)[..Back(c, s0, u)])
  {
    hide Pipeline.Run, RelayModel.Apply, RelayModel.Enabled;
    PipelineHolds(c, s0, steps, s);
    hide Start, Connected, DataInv, AwayRun;
    AbsenceStarts(c, s0, s, leave);
    AwayHolds(c, s0, AfterEvent(c, s, leave), away, u);
    hide Absent, AwayRun, PipelineInv;
    AbsenceEnds(c, s0, u, e);
    RenewedStream(c, s0, u, e, RelayModel.Apply(c.k, u.w, e));
  }

  lemma RenewedStream(c: Setup, s0: Pipeline.State, u: Pipeline.State, e: Event, v: World)
    requires AwayData(c, s0, u) && e.ReadOk?
    requires Logged(c, u) <= Back(c, s0, u) <= |AllForwarded(c, s0, u)| && |ReadSince(c, s0, u)| <= |u.sent|
    requires Start(Renewed(c, s0, u, e.i), NewStart(c, s0, u, v))
    ensures c.a < |v.sessions| && e.i < |v.sessions|
    ensures Stream(Renewed(c, s0, u, e.i), NewStart(c, s0, u, v))
         == c.before.log + ModulesOf(c, AllForwarded(c, s0, u)[..Back(c, s0, u)])
  {
    LogSoFar(c, u, ReadSince(c, s0, u), AllForwarded(c, s0, u), Back(c, s0, u));
    hide AwayData, Start, AllForwarded, Back, Logged, ReadSince, Stream, ModulesOf;
    var d := Renewed(c, s0, u, e.i);
    StartStream(d, NewStart(c, s0, u, v));
    ModulesRejoin(c, d, u.log, AllForwarded(c, s0, u), Logged(c, u), Back(c, s0, u));
  }

  lemma LogSoFar(c: Setup, u: Pipeline.State, read: seq<AccelPacket>, fwd: seq<AccelPacket>, back: nat)
    requires c.a < |u.w.sessions| && Around(c, u, read, fwd, back)
    ensures Logged(c, u) <= |fwd| && u.log == c.before.log + ModulesOf(c, fwd[..Logged(c, u)])
  {}

  lemma ModulesRejoin(c: Setup, d: Setup, log: seq<AccelModule>, fwd: seq<AccelPacket>, n: nat, back: nat)
    requires d.root == c.root && n <= back <= |fwd| && log == c.before.log + ModulesOf(c, fwd[..n])
    ensures log + ModulesOf(d, fwd[n..back]) == c.before.log + ModulesOf(c, fwd[..back])
  {
    SameModules(c, d, fwd[n..back]);
    ModulesOfParts(c, fwd, n, back);
    hide ModulesOf;
    assert c.before.log + ModulesOf(c, fwd[..n]) + ModulesOf(c, fwd[n..back])
        == c.before.log + (ModulesOf(c, fwd[..n]) + ModulesOf(c, fwd[n..back]));
  }

  lemma ModulesOfParts(c: Setup, fwd: seq<AccelPacket>, n: nat, back: nat)
    requires n <= back <= |fwd|
    ensures ModulesOf(c, fwd[..n]) + ModulesOf(c, fwd[n..back]) == ModulesOf(c, fwd[..back])
  {}

  /** From every state of a pipeline run Node B can leave and come back: one client connects and says hello. */
  lemma NodeBCanReturn(c: Setup, s0: Pipeline.State, steps: seq<Pipeline.Step>, s: Pipeline.State)
    requires Start(c, s0) && Pipeline.Run(c, s0, steps, s) && c.k.Faithful(HelloJson(ROLE_B))
    ensures RelayModel.Enabled(s.w, ReadError(c.b))
    ensures exists away, u, e :: AwayRun(c, AfterEvent(c, s, ReadError(c.b)), away, u) && Returns(c, u.w, e)
  {
    PipelineHolds(c, s0, steps, s);
    hide Pipeline.Run, Start, DataInv, Connected, AwayRun, Returns, RelayModel.Apply, RelayModel.Enabled;
    CanLeave(c, s.w);
    OneClientReturns(c, AfterEvent(c, s, ReadError(c.b)));
  }

  lemma OneClientReturns(c: Setup, t: Pipeline.State)
    requires c.k.Faithful(HelloJson(ROLE_B)) && t.w.nodeB == None && c.a < |t.w.sessions| && c.b < |t.w.sessions|
    requires t.w.sessions[c.b].pendingReads == 0
    ensures exists away, u, e :: AwayRun(c, t, away, u) && Returns(c, u.w, e)
  {
    var u := AfterEvent(c, t, Accept);
    assert u.w.sessions == t.w.sessions + [StartRead(NewSession)] && u.w.nodeB == None;
    hide AwayRun, Returns, RelayModel.Apply, RelayModel.Enabled;
    ClientConnects(c, t);
    ClientSaysHello(c, u, |t.w.sessions|);
  }

  lemma CanLeave(c: Setup, w: World)
    requires Connected(c, w)
    ensures RelayModel.Enabled(w, ReadError(c.b))
    ensures var v := RelayModel.Apply(c.k, w, ReadError(c.b));
            && |v.sessions| == |w.sessions| && c.a < |w.sessions| && c.b < |w.sessions|
            && v.nodeB == None && v.sessions[c.b].pendingReads == 0
  {
    OwnSessions(c, w);
    NodeBIsClosed(c, w, ReadError(c.b));
    hide Inv, QueueOk;
  }

  lemma ClientConnects(c: Setup, t: Pipeline.State)
    requires t.w.nodeB == None
    ensures AwayRun(c, t, [AtServer(Accept)], AfterEvent(c, t, Accept))
  {
    var away := [AtServer(Accept)];
    assert away[..|away| - 1] == [];
    assert AwayRun(c, t, [], t) && AwayEnabled(c, t, away[0]);
  }

  lemma ClientSaysHello(c: Setup, s: Pipeline.State, j: nat)
    requires c.k.Faithful(HelloJson(ROLE_B)) && |s.w.sessions| == j + 1 && s.w.sessions[j] == StartRead(NewSession)
    requires s.w.nodeB == None && c.b < j && c.a < j && s.w.sessions[c.b].pendingReads == 0
    ensures Returns(c, s.w, ReadOk(j, c.k.dump(HelloJson(ROLE_B))))
  {
    hide HandleLine, RelayModel.Apply;
    HelloIsHandled(c.k, s.w, j, ROLE_B);
  }
}
