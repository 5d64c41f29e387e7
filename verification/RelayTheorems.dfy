/** What the relay promises in every reachable state, for any number of sessions and any history of events. */
module RelayTheorems {
  import opened Basics
  import opened AccelPackets
  import opened JsonProtocol
  import opened DuplicateFilter
  import opened Sequences
  import opened RelayModel
  import opened RelayInvariants

  lemma ReachableInv(k: Codec, es: seq<Event>, w: World)
    requires Run(k, EmptyWorld, es, w)
    ensures Inv(k, w)
  {
    RunKeepsInv(k, EmptyWorld, es, w);
  }

  /** A slot names a session exactly when that session is open in the role of the slot; slots never dangle. */
  lemma SlotsNameTheOpenNodes(k: Codec, es: seq<Event>, w: World, i: nat)
    requires Run(k, EmptyWorld, es, w)
    ensures w.nodeA == Some(i) <==> i < |w.sessions| && Holds(w.sessions[i], ROLE_A)
    ensures w.nodeB == Some(i) <==> i < |w.sessions| && Holds(w.sessions[i], ROLE_B)
    ensures w.nodeA == Some(i) || w.nodeB == Some(i) ==> w.sessions[i].Pinned()
  {
    ReachableInv(k, es, w);
  }

  lemma OneOpenSessionPerRole(k: Codec, es: seq<Event>, w: World, i: nat, j: nat, role: string)
    requires Run(k, EmptyWorld, es, w)
    requires i < |w.sessions| && j < |w.sessions| && role != ""
    requires Holds(w.sessions[i], role) && Holds(w.sessions[j], role)
    ensures i == j
  {
    ReachableInv(k, es, w);
    assert Ok(k)(w.sessions[i]) && RoleOk(k, w.sessions[i]);
  }

  /** The queue of every session: one write in flight at a time, first in first out, nothing lost while open. */
  lemma WriteQueuesAreFifo(k: Codec, es: seq<Event>, w: World, i: nat)
    requires Run(k, EmptyWorld, es, w) && i < |w.sessions|
    ensures var s := w.sessions[i];
            && |s.pendingWrites| <= 1
            && (s.pendingWrites != [] ==> s.queue != [] && s.pendingWrites[0] == s.queue[0])
            && (!s.closed ==> (s.pendingWrites != [] <==> s.queue != []) && s.written + s.queue == s.enqueued)
            && s.written <= s.enqueued
  {
    ReachableInv(k, es, w);
    assert Ok(k)(w.sessions[i]) && QueueOk(w.sessions[i]);
  }

  /** A closed session handles at most one more line, and only if it was written to in a role. */
  lemma LateReadsComeFromNodes(k: Codec, es: seq<Event>, w: World, i: nat)
    requires Run(k, EmptyWorld, es, w) && i < |w.sessions| && w.sessions[i].closed
    ensures w.sessions[i].pendingReads <= 1
    ensures w.sessions[i].pendingReads == 1 ==> w.sessions[i].role != ""
  {
    ReachableInv(k, es, w);
    assert Ok(k)(w.sessions[i]) && Basic(w.sessions[i]);
  }

  /**
   Counting in one session: what is received is accepted or dropped, the accepted packets are those
   that differ from the packet received just before, and the forwarded ones are among them in order.
   */
  lemma SessionsCountCorrectly(k: Codec, es: seq<Event>, w: World, i: nat)
    requires Run(k, EmptyWorld, es, w) && i < |w.sessions|
    ensures var s := w.sessions[i];
            && s.received == |s.inbox| == s.accepted + s.dropped
            && s.accepted == |Consecutive(None, s.inbox)|
            && s.forwarded == |s.outbox| <= s.accepted
            && Subsequence(s.outbox, Consecutive(None, s.inbox))
            && s.forwardedModules <= s.receivedModules
  {
    ReachableInv(k, es, w);
    var s := w.sessions[i];
    assert Ok(k)(s) && CountersOk(s);
    AcceptedIsConsecutive(None, s.inbox);
    SubsequenceLength(s.outbox, Accepted(None, s.inbox));
  }

  /** No queue ever takes a message of the wrong kind. */
  lemma QueuesHoldTheRightKind(k: Codec, es: seq<Event>, w: World, i: nat, m: string)
    requires Run(k, EmptyWorld, es, w) && i < |w.sessions| && m in w.sessions[i].queue
    ensures || (w.sessions[i].role == ROLE_A && IsModuleLine(k, m))
            || (w.sessions[i].role == ROLE_B && IsPacketLine(k, m))
  {
    ReachableInv(k, es, w);
    var s := w.sessions[i];
    assert Ok(k)(s) && RoleOk(k, s) && QueueOk(s);
    assert m in s.written + s.queue;
  }

  // ---------------------------------------------------------------- conservation over all sessions

  function Forwarded(s: Session): int { s.forwarded }

  function PacketsQueued(s: Session): int { if s.role == ROLE_B then |s.enqueued| else 0 }

  function ForwardedModules(s: Session): int { s.forwardedModules }

  function ModulesQueued(s: Session): int { if s.role == ROLE_A then |s.enqueued| else 0 }

  predicate Balanced(w: World) {
    && Sum(Forwarded, w.sessions) == Sum(PacketsQueued, w.sessions)
    && Sum(ForwardedModules, w.sessions) == Sum(ModulesQueued, w.sessions)
  }

  /** What a session adds to the two balances. */
  function Weight(s: Session): (int, int) {
    (Forwarded(s) - PacketsQueued(s), ForwardedModules(s) - ModulesQueued(s))
  }

  lemma UpdateBalance(w: World, i: nat, s: Session)
    requires i < |w.sessions|
    ensures var v := Update(w, i, s);
            && Sum(Forwarded, v.sessions) - Sum(PacketsQueued, v.sessions)
            == Sum(Forwarded, w.sessions) - Sum(PacketsQueued, w.sessions) + Weight(s).0 - Weight(w.sessions[i]).0
            && Sum(ForwardedModules, v.sessions) - Sum(ModulesQueued, v.sessions)
            == Sum(ForwardedModules, w.sessions) - Sum(ModulesQueued, w.sessions) + Weight(s).1 - Weight(w.sessions[i]).1
  {
    SumUpdate(Forwarded, w.sessions, i, s);
    SumUpdate(PacketsQueued, w.sessions, i, s);
    SumUpdate(ForwardedModules, w.sessions, i, s);
    SumUpdate(ModulesQueued, w.sessions, i, s);
  }

  lemma ForwardPacketBalances(k: Codec, ok: Session -> bool, w: World, i: nat, p: AccelPacket)
    requires BusyOf(ok, w, i) && Balanced(w) && w.sessions[i].role == ROLE_A
    ensures Balanced(ForwardPacket(k, w, i, p))
  {
    hide PacketJson, Sum;
    SlotsAreAlive(ok, w, i);
    if w.nodeB.Some? && CanSend(w.sessions[w.nodeB.value]) {
      var b := w.nodeB.value;
      var s := Send(w.sessions[b], k.Line(PacketJson(p)));
      UpdateBalance(w, b, s);
      UpdateBalance(Update(w, b, s), i, CountForwarded(w.sessions[i], p));
    }
  }

  lemma ForwardModuleBalances(k: Codec, ok: Session -> bool, w: World, i: nat, m: AccelModule)
    requires BusyOf(ok, w, i) && Balanced(w) && w.sessions[i].role == ROLE_B
    ensures Balanced(ForwardModule(k, w, i, m))
  {
    hide ModuleJson, Sum;
    SlotsAreAlive(ok, w, i);
    if w.nodeA.Some? && CanSend(w.sessions[w.nodeA.value]) {
      var a := w.nodeA.value;
      var s := Send(w.sessions[a], k.Line(ModuleJson(m)));
      UpdateBalance(w, a, s);
      UpdateBalance(Update(w, a, s), i, CountForwardedModule(w.sessions[i]));
    }
  }

  ghost predicate UnwrittenBeforeRole(ok: Session -> bool) {
    forall s {:trigger ok(s)} | ok(s) && s.role == "" :: s.enqueued == []
  }

  lemma HandleLineBalances(k: Codec, ok: Session -> bool, w: World, i: nat, line: string)
    requires Stable(k, ok) && UnwrittenBeforeRole(ok) && BusyOf(ok, w, i) && Balanced(w)
    ensures Balanced(HandleLine(k, w, i, line))
  {
    hide Balanced, Stable, ForwardPacket, ForwardModule, TakePacket, RegisterRole;
    hide MessageType, ClientRole, ParseAccelPacket, ParseAccelModule;
    if line != "" && k.parse(line).Some? {
      var json, s := k.parse(line).value, w.sessions[i];
      if MessageType(json) == Success(TYPE_HELLO) {
        if ClientRole(json).Success? {
          RegisterBalances(ok, w, i, ClientRole(json).value);
        }
      } else if MessageType(json) == Success(TYPE_ACCEL) {
        if s.role == ROLE_A && ParseAccelPacket(json).Success? {
          TakePacketBalances(k, ok, w, i, ParseAccelPacket(json).value);
        }
      } else if MessageType(json) == Success(TYPE_MODULE) {
        if s.role == ROLE_B && ParseAccelModule(json).Success? {
          TakeModuleBalances(k, ok, w, i, ParseAccelModule(json).value);
        }
      }
    }
  }

  lemma RegisterBalances(ok: Session -> bool, w: World, i: nat, role: string)
    requires UnwrittenBeforeRole(ok) && BusyOf(ok, w, i) && Balanced(w)
    ensures Balanced(RegisterRole(w, i, role))
  {
    if w.sessions[i].role == "" {
      UpdateBalance(w, i, Register(w.sessions[i], role));
    }
  }

  lemma TakeModuleBalances(k: Codec, ok: Session -> bool, w: World, i: nat, m: AccelModule)
    requires Stable(k, ok) && BusyOf(ok, w, i) && Balanced(w) && w.sessions[i].role == ROLE_B
    ensures Balanced(TakeModule(k, w, i, m))
  {
    hide ForwardModule;
    var s := w.sessions[i];
    UpdateBalance(w, i, CountModule(s));
    UpdateKeepsBusy(ok, w, i, i, CountModule(s));
    ForwardModuleBalances(k, ok, Update(w, i, CountModule(s)), i, m);
  }

  lemma TakePacketBalances(k: Codec, ok: Session -> bool, w: World, i: nat, p: AccelPacket)
    requires Stable(k, ok) && BusyOf(ok, w, i) && Balanced(w) && w.sessions[i].role == ROLE_A
    ensures Balanced(TakePacket(k, w, i, p))
  {
    var s := w.sessions[i];
    if Repeats(s.last, p) {
      UpdateBalance(w, i, CountDuplicate(s, p));
    } else {
      UpdateBalance(w, i, CountAccepted(s, p));
      UpdateKeepsBusy(ok, w, i, i, CountAccepted(s, p));
      ForwardPacketBalances(k, ok, Update(w, i, CountAccepted(s, p)), i, p);
    }
  }

  lemma AcceptBalances(w: World)
    requires Balanced(w)
    ensures Balanced(w.(sessions := w.sessions + [StartRead(NewSession)]))
  {}

  lemma ReadOkBalances(k: Codec, ok: Session -> bool, w: World, i: nat, line: string)
    requires Stable(k, ok) && UnwrittenBeforeRole(ok) && InvOf(ok, w) && Enabled(w, ReadOk(i, line)) && Balanced(w)
    ensures Balanced(Apply(k, w, ReadOk(i, line)))
  {
    var v := Update(w, i, EndRead(w.sessions[i]));
    ReadsDoNotCount(w, i);
    SlotsFollowRoles(w, v);
    HandleLineBalances(k, ok, v, i, line);
    ReadsDoNotCount(HandleLine(k, v, i, line), i);
  }

  lemma ReadsDoNotCount(w: World, i: nat)
    requires Balanced(w) && i < |w.sessions|
    ensures Balanced(Update(w, i, StartRead(w.sessions[i])))
    ensures w.sessions[i].pendingReads > 0 ==> Balanced(Update(w, i, EndRead(w.sessions[i])))
  {
    UpdateBalance(w, i, StartRead(w.sessions[i]));
    if w.sessions[i].pendingReads > 0 { UpdateBalance(w, i, EndRead(w.sessions[i])); }
  }

  lemma EventBalances(k: Codec, ok: Session -> bool, w: World, e: Event)
    requires Stable(k, ok) && UnwrittenBeforeRole(ok) && InvOf(ok, w) && Enabled(w, e) && Balanced(w)
    ensures Balanced(Apply(k, w, e))
  {
    hide HandleLine, Close, Balanced, FinishWrite, FailWrite, InvOf;
    match e
    case Accept =>
      AcceptBalances(w);
    case ReadOk(i, line) =>
      ReadOkBalances(k, ok, w, i, line);
    case ReadError(i) =>
      ReadsDoNotCount(w, i);
      CloseBalances(Update(w, i, EndRead(w.sessions[i])), i);
    case WriteOk(i) =>
      WritesDoNotCount(w, i);
    case WriteError(i) =>
      WritesDoNotCount(w, i);
      CloseBalances(Update(w, i, FailWrite(w.sessions[i])), i);
  }

  lemma WritesDoNotCount(w: World, i: nat)
    requires Balanced(w) && i < |w.sessions| && w.sessions[i].pendingWrites != []
    ensures Balanced(Update(w, i, FinishWrite(w.sessions[i])))
    ensures Balanced(Update(w, i, FailWrite(w.sessions[i])))
  {
    UpdateBalance(w, i, FinishWrite(w.sessions[i]));
    UpdateBalance(w, i, FailWrite(w.sessions[i]));
  }

  lemma CloseBalances(w: World, i: nat)
    requires i < |w.sessions| && Balanced(w)
    ensures Balanced(Close(w, i))
  {
    UpdateBalance(w, i, CloseSocket(w.sessions[i]));
  }

  lemma OkIsUnwrittenBeforeRole(k: Codec)
    ensures UnwrittenBeforeRole(Ok(k))
  {}

  /**
   Conservation: over all sessions ever, every forwarded packet is one message taken into the queue of
   a B session, and every forwarded module one message taken into the queue of an A session.
   */
  lemma {:induction false} NothingForwardedIsLost(k: Codec, es: seq<Event>, w: World)
    requires Run(k, EmptyWorld, es, w)
    ensures Balanced(w)
    decreases |es|
  {
    if es != [] {
      var n := |es| - 1;
      var v :| Run(k, EmptyWorld, es[..n], v) && Enabled(v, es[n]) && w == Apply(k, v, es[n]);
      NothingForwardedIsLost(k, es[..n], v);
      ReachableInv(k, es[..n], v);
      SessionOkIsStable(k);
      OkIsUnwrittenBeforeRole(k);
      EventBalances(k, Ok(k), v, es[n]);
    }
  }

  // ---------------------------------------------------------------- histories only grow

  /** A session never loses its role, never reopens, and its histories are append-only. */
  predicate Grows(s: Session, t: Session) {
    && (s.role == t.role || s.role == "")
    && (s.closed ==> t.closed)
    && s.enqueued <= t.enqueued
    && s.written <= t.written
    && s.inbox <= t.inbox
    && s.outbox <= t.outbox
  }

  predicate AllGrow(w: World, v: World) {
    && |w.sessions| <= |v.sessions|
    && forall i | 0 <= i < |w.sessions| :: Grows(w.sessions[i], v.sessions[i])
  }

  lemma HandleLineGrows(k: Codec, w: World, i: nat, line: string)
    requires i < |w.sessions|
    ensures AllGrow(w, HandleLine(k, w, i, line))
  {
    hide RegisterRole, TakePacket, TakeModule, MessageType, ClientRole, ParseAccelPacket, ParseAccelModule;
    if line != "" && k.parse(line).Some? {
      var json, s := k.parse(line).value, w.sessions[i];
      if MessageType(json) == Success(TYPE_HELLO) {
        if ClientRole(json).Success? {
          RegisterRoleGrows(w, i, ClientRole(json).value);
        }
      } else if MessageType(json) == Success(TYPE_ACCEL) {
        if s.role == ROLE_A && ParseAccelPacket(json).Success? {
          TakePacketGrows(k, w, i, ParseAccelPacket(json).value);
        }
      } else if MessageType(json) == Success(TYPE_MODULE) {
        if s.role == ROLE_B && ParseAccelModule(json).Success? {
          TakeModuleGrows(k, w, i, ParseAccelModule(json).value);
        }
      }
    }
  }

  lemma RegisterRoleGrows(w: World, i: nat, role: string)
    requires i < |w.sessions|
    ensures AllGrow(w, RegisterRole(w, i, role))
  {}

  lemma TakePacketGrows(k: Codec, w: World, i: nat, p: AccelPacket)
    requires i < |w.sessions|
    ensures AllGrow(w, TakePacket(k, w, i, p))
  {
    hide ForwardPacket, Repeats;
    ForwardPacketGrows(k, Update(w, i, CountAccepted(w.sessions[i], p)), i, p);
  }

  lemma TakeModuleGrows(k: Codec, w: World, i: nat, m: AccelModule)
    requires i < |w.sessions|
    ensures AllGrow(w, TakeModule(k, w, i, m))
  {
    hide ForwardModule;
    ForwardModuleGrows(k, Update(w, i, CountModule(w.sessions[i])), i, m);
  }

  lemma ForwardPacketGrows(k: Codec, w: World, i: nat, p: AccelPacket)
    requires i < |w.sessions|
    ensures AllGrow(w, ForwardPacket(k, w, i, p))
  {}

  lemma ForwardModuleGrows(k: Codec, w: World, i: nat, m: AccelModule)
    requires i < |w.sessions|
    ensures AllGrow(w, ForwardModule(k, w, i, m))
  {}

  lemma EventGrows(k: Codec, w: World, e: Event)
    requires Enabled(w, e)
    ensures AllGrow(w, Apply(k, w, e))
  {
    if e.ReadOk? {
      HandleLineGrows(k, Update(w, e.i, EndRead(w.sessions[e.i])), e.i, e.line);
    }
  }

  lemma {:induction false} HistoriesOnlyGrow(k: Codec, w: World, es: seq<Event>, v: World)
    requires Run(k, w, es, v)
    ensures AllGrow(w, v)
    decreases |es|
  {
    if es != [] {
      var n := |es| - 1;
      var u :| Run(k, w, es[..n], u) && Enabled(u, es[n]) && v == Apply(k, u, es[n]);
      HistoriesOnlyGrow(k, w, es[..n], u);
      EventGrows(k, u, es[n]);
    }
  }

  // ---------------------------------------------------------------- what is not promised

  lemma SlotOfNodeB(k: Codec, w: World, j: nat, b: nat)
    requires Inv(k, w) && w.nodeB == Some(b) && j < |w.sessions| && w.sessions[j].role == ROLE_A
    ensures b < |w.sessions| && b != j && CanSend(w.sessions[b]) && Lock(w, w.nodeB, j) == Some(b)
  {
    assert Ok(k)(w.sessions[b]) && Basic(w.sessions[b]) && Idle(w.sessions[b]);
  }

  /**
   A closed session may still feed Node B: when the session of Node A was closed by a write error
   while a complete line was already read, its packet is filtered and forwarded as if it were open.
   */
  lemma LateReadsAreForwarded(k: Codec, w: World, j: nat, b: nat, p: AccelPacket)
    requires Inv(k, w) && j < |w.sessions| && k.Faithful(PacketJson(p))
    requires w.sessions[j].closed && w.sessions[j].role == ROLE_A && w.sessions[j].pendingReads > 0
    requires w.nodeB == Some(b) && !Repeats(w.sessions[j].last, p)
    ensures b < |w.sessions| && b != j
    ensures Apply(k, w, ReadOk(j, k.dump(PacketJson(p)))).sessions[b].enqueued
         == w.sessions[b].enqueued + [k.Line(PacketJson(p))]
  {
    hide Inv, Apply, TakePacket, PacketJson, Repeats;
    SlotOfNodeB(k, w, j, b);
    PacketLine(k, w, j, p);
    PacketPassesOn(k, w, j, b, p);
  }

  function Open(role: string): Session {
    StartRead(NewSession).(role := role)
  }

  lemma HelloIsHandled(k: Codec, w: World, i: nat, role: string)
    requires Enabled(w, ReadOk(i, k.dump(HelloJson(role)))) && k.Faithful(HelloJson(role))
    requires role == ROLE_A || role == ROLE_B
    ensures var v := RegisterRole(Update(w, i, EndRead(w.sessions[i])), i, role);
            Apply(k, w, ReadOk(i, k.dump(HelloJson(role)))) == Update(v, i, StartRead(v.sessions[i]))
  {
    HelloRoundTrip(role);
  }

  const TwoClients := World([StartRead(NewSession), StartRead(NewSession)], None, None)
  const NodeAOnly := World([Open(ROLE_A), StartRead(NewSession)], Some(0), None)
  const BothNodes := World([Open(ROLE_A), Open(ROLE_B)], Some(0), Some(1))

  lemma NodeARegisters(k: Codec)
    requires k.Faithful(HelloJson(ROLE_A))
    ensures Apply(k, TwoClients, ReadOk(0, k.dump(HelloJson(ROLE_A)))) == NodeAOnly
  {
    hide HandleLine;
    HelloIsHandled(k, TwoClients, 0, ROLE_A);
  }

  lemma NodeBRegisters(k: Codec)
    requires k.Faithful(HelloJson(ROLE_B))
    ensures Apply(k, NodeAOnly, ReadOk(1, k.dump(HelloJson(ROLE_B)))) == BothNodes
  {
    hide HandleLine;
    HelloIsHandled(k, NodeAOnly, 1, ROLE_B);
  }

  /** Two clients that say hello as A and as B end up registered, so the states above are reachable. */
  lemma BothNodesCanRegister(k: Codec)
    requires k.Faithful(HelloJson(ROLE_A)) && k.Faithful(HelloJson(ROLE_B))
    ensures exists es :: Run(k, EmptyWorld, es, BothNodes)
  {
    hide Run, HandleLine;
    TwoConnect(k);
    NodeARegisters(k);
    RunStep(k, EmptyWorld, [] + [Accept] + [Accept], TwoClients, ReadOk(0, k.dump(HelloJson(ROLE_A))));
    NodeBRegisters(k);
    RunStep(k, EmptyWorld, [] + [Accept] + [Accept] + [ReadOk(0, k.dump(HelloJson(ROLE_A)))], NodeAOnly,
            ReadOk(1, k.dump(HelloJson(ROLE_B))));
  }

  lemma TwoConnect(k: Codec)
    ensures Run(k, EmptyWorld, [] + [Accept] + [Accept], TwoClients)
  {
    hide Run, HandleLine;
    var w1 := World([StartRead(NewSession)], None, None);
    NoStep(k, EmptyWorld);
    RunStep(k, EmptyWorld, [], EmptyWorld, Accept);
    RunStep(k, EmptyWorld, [] + [Accept], w1, Accept);
    assert Apply(k, w1, Accept) == TwoClients;
  }

  lemma NoStep(k: Codec, w: World)
    ensures Run(k, w, [], w)
  {}

  lemma RunStep(k: Codec, w: World, es: seq<Event>, v: World, e: Event)
    requires Run(k, w, es, v) && Enabled(v, e)
    ensures Run(k, w, es + [e], Apply(k, v, e))
  {
    assert (es + [e])[..|es|] == es;
  }
}
