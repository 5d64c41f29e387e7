/** What every event keeps: registration slots, write queues, counters and the filter. */
module RelayInvariants {
  import opened Basics
  import opened AccelPackets
  import opened JsonProtocol
  import opened DuplicateFilter
  import opened Sequences
  import opened RelayModel

  ghost predicate IsPacketLine(k: Codec, message: string) {
    exists p :: message == k.Line(PacketJson(p))
  }

  ghost predicate IsModuleLine(k: Codec, message: string) {
    exists m :: message == k.Line(ModuleJson(m))
  }

  /**
   The write queue: at most one write in flight and its buffer is the head of the queue, so no
   buffer is ever freed under a write. While the session is open a write is in flight exactly when
   the queue is non-empty, and written messages followed by the queue are the accepted messages.
   */
  predicate QueueOk(s: Session) {
    && |s.pendingWrites| <= 1
    && (s.pendingWrites != [] ==> s.queue != [] && s.pendingWrites[0] == s.queue[0])
    && (!s.closed ==> (s.pendingWrites != [] <==> s.queue != []))
    && (!s.closed ==> s.written + s.queue == s.enqueued)
    && s.written + s.queue <= s.enqueued
  }

  /** The counters agree with the history, and the filter state with the packets handled so far. */
  ghost predicate CountersOk(s: Session) {
    && s.received == |s.inbox|
    && s.accepted == |Accepted(None, s.inbox)|
    && s.received == s.accepted + s.dropped
    && s.last == LastAccepted(None, s.inbox)
    && s.forwarded == |s.outbox|
    && Subsequence(s.outbox, Accepted(None, s.inbox))
    && s.forwardedModules <= s.receivedModules
  }

  /** A session is written to, and sends data, only in its role. */
  ghost predicate RoleOk(k: Codec, s: Session) {
    && (s.role == "" || s.role == ROLE_A || s.role == ROLE_B)
    && (s.role == "" ==> s.enqueued == [])
    && (s.role == ROLE_A ==> forall m | m in s.enqueued :: IsModuleLine(k, m))
    && (s.role == ROLE_B ==> forall m | m in s.enqueued :: IsPacketLine(k, m))
    && (s.role != ROLE_A ==> s.inbox == [])
    && (s.role != ROLE_B ==> s.receivedModules == 0)
  }

  ghost predicate SessionOk(k: Codec, s: Session) {
    && Basic(s)
    && QueueOk(s)
    && CountersOk(s)
    && RoleOk(k, s)
  }

  /** The part of a session the registration slots depend on; only sessions with a role are ever written to. */
  predicate Basic(s: Session) {
    && s.socketOpen == !s.closed
    && s.pendingReads <= 1
    && (s.pendingWrites != [] ==> s.role != "")
  }

  /**
   Between handlers an open session waits for a line; a closed one may still get a line that was
   already complete, but only if it has a role: it was closed by a write error.
   */
  predicate Idle(s: Session) {
    && (!s.closed ==> s.pendingReads == 1)
    && (s.closed && s.pendingReads > 0 ==> s.role != "")
  }

  predicate Holds(s: Session, role: string) {
    !s.closed && s.role == role
  }

  predicate SlotOk(ss: seq<Session>, slot: Option<nat>, role: string) {
    && (slot.Some? ==> slot.value < |ss| && Holds(ss[slot.value], role))
    && (forall i | 0 <= i < |ss| && Holds(ss[i], role) :: slot == Some(i))
  }

  predicate SlotsOk(w: World) {
    SlotOk(w.sessions, w.nodeA, ROLE_A) && SlotOk(w.sessions, w.nodeB, ROLE_B)
  }

  ghost function Ok(k: Codec): Session -> bool {
    s => SessionOk(k, s)
  }

  ghost predicate Inv(k: Codec, w: World) {
    InvOf(Ok(k), w)
  }

  /** The invariant for any property `ok` of the single sessions. */
  ghost predicate InvOf(ok: Session -> bool, w: World) {
    && SlotsOk(w)
    && (forall i | 0 <= i < |w.sessions| :: ok(w.sessions[i]))
    && (forall i | 0 <= i < |w.sessions| :: Idle(w.sessions[i]))
  }

  /** The invariant inside the handler of session `i`, whose own read is no longer pending. */
  ghost predicate BusyOf(ok: Session -> bool, w: World, i: nat) {
    && i < |w.sessions|
    && SlotsOk(w)
    && (forall j | 0 <= j < |w.sessions| :: ok(w.sessions[j]))
    && (forall j | 0 <= j < |w.sessions| && j != i :: Idle(w.sessions[j]))
    && (w.sessions[i].closed ==> w.sessions[i].role != "")
    && w.sessions[i].pendingReads == 0
  }

  /**
   A property of single sessions that every operation on a session keeps. Every event on any number
   of sessions then keeps it (EventKeepsInvOf), together with the slots.
   */
  ghost predicate Stable(k: Codec, ok: Session -> bool) {
    StableStart(ok) && StableClose(ok) && StableReads(ok) && StableRegister(ok) && StableSends(k, ok) && StableCounts(ok)
  }

  ghost predicate StableStart(ok: Session -> bool) {
    ok(StartRead(NewSession))
  }

  ghost predicate StableClose(ok: Session -> bool) {
    && (forall s {:trigger ok(s)} | ok(s) :: Basic(s))
    && (forall s {:trigger CloseSocket(s)} | ok(s) :: ok(CloseSocket(s)))
  }

  ghost predicate StableReads(ok: Session -> bool) {
    && (forall s {:trigger StartRead(s)} | ok(s) && s.pendingReads == 0 :: ok(StartRead(s)))
    && (forall s {:trigger EndRead(s)} | ok(s) && s.pendingReads > 0 :: ok(EndRead(s)))
  }

  ghost predicate StableRegister(ok: Session -> bool) {
    forall s {:trigger Register(s, ROLE_A)} {:trigger Register(s, ROLE_B)} |
      ok(s) && s.role == "" && !s.closed :: ok(Register(s, ROLE_A)) && ok(Register(s, ROLE_B))
  }

  ghost predicate StableSends(k: Codec, ok: Session -> bool) {
    && (forall s {:trigger FinishWrite(s)} | ok(s) && s.pendingWrites != [] :: ok(FinishWrite(s)))
    && (forall s {:trigger FailWrite(s)} | ok(s) && s.pendingWrites != [] :: ok(CloseSocket(FailWrite(s))))
    && (forall s, p {:trigger Send(s, k.Line(PacketJson(p)))} |
          ok(s) && CanSend(s) && s.role == ROLE_B :: ok(Send(s, k.Line(PacketJson(p)))))
    && (forall s, m {:trigger Send(s, k.Line(ModuleJson(m)))} |
          ok(s) && CanSend(s) && s.role == ROLE_A :: ok(Send(s, k.Line(ModuleJson(m)))))
  }

  ghost predicate StableCounts(ok: Session -> bool) {
    && (forall s, p {:trigger CountDuplicate(s, p)} |
          ok(s) && s.role == ROLE_A && Repeats(s.last, p) :: ok(CountDuplicate(s, p)))
    && (forall s, p {:trigger CountAccepted(s, p)} |
          ok(s) && s.role == ROLE_A && !Repeats(s.last, p) ::
          ok(CountAccepted(s, p)) && ok(CountForwarded(CountAccepted(s, p), p)))
    && (forall s {:trigger CountModule(s)} |
          ok(s) && s.role == ROLE_B :: ok(CountModule(s)) && ok(CountForwardedModule(CountModule(s))))
  }

  // ---------------------------------------------------------------- single sessions

  lemma SendKeepsSession(k: Codec, s: Session, message: string)
    requires SessionOk(k, s) && CanSend(s) && s.role != ""
    requires s.role == ROLE_A ==> IsModuleLine(k, message)
    requires s.role == ROLE_B ==> IsPacketLine(k, message)
    ensures SessionOk(k, Send(s, message))
  {
    var s' := Send(s, message);
    assert s'.written + s'.queue == s'.enqueued;
    assert s.queue == [] ==> s.pendingWrites == [];
  }

  lemma FinishKeepsSession(k: Codec, s: Session)
    requires SessionOk(k, s) && s.pendingWrites != []
    ensures SessionOk(k, FinishWrite(s))
  {}

  lemma FailKeepsSession(k: Codec, s: Session)
    requires SessionOk(k, s) && s.pendingWrites != []
    ensures SessionOk(k, CloseSocket(FailWrite(s)))
  {}

  lemma PacketKeepsSession(k: Codec, s: Session, p: AccelPacket)
    requires SessionOk(k, s) && s.role == ROLE_A
    ensures Repeats(s.last, p) ==> SessionOk(k, CountDuplicate(s, p))
    ensures !Repeats(s.last, p) ==>
              SessionOk(k, CountAccepted(s, p)) && SessionOk(k, CountForwarded(CountAccepted(s, p), p))
  {
    AcceptedAppend(None, s.inbox, p);
    SubsequenceAppend(s.outbox, Accepted(None, s.inbox), p);
    assert Accepted(None, s.inbox) + [] == Accepted(None, s.inbox);
  }

  lemma SessionOkIsStable(k: Codec)
    ensures Stable(k, Ok(k))
  {
    SessionOkStableStart(k);
    SessionOkStableClose(k);
    SessionOkStableReads(k);
    SessionOkStableRegister(k);
    SessionOkStableSends(k);
    SessionOkStableCounts(k);
  }

  lemma SessionOkStableClose(k: Codec)
    ensures StableClose(Ok(k))
  {}

  lemma SessionOkStableReads(k: Codec)
    ensures StableReads(Ok(k))
  {
    forall s {:trigger StartRead(s)} | SessionOk(k, s) && s.pendingReads == 0 ensures SessionOk(k, StartRead(s)) {
      IOKeepsSession(k, s);
    }
    forall s {:trigger EndRead(s)} | SessionOk(k, s) && s.pendingReads > 0 ensures SessionOk(k, EndRead(s)) {
      IOKeepsSession(k, s);
    }
  }

  lemma SessionOkStableRegister(k: Codec)
    ensures StableRegister(Ok(k))
  {}

  lemma SessionOkStableStart(k: Codec)
    ensures StableStart(Ok(k))
  {}

  lemma IOKeepsSession(k: Codec, s: Session)
    requires SessionOk(k, s)
    ensures SessionOk(k, CloseSocket(s))
    ensures s.pendingReads == 0 ==> SessionOk(k, StartRead(s))
    ensures s.pendingReads > 0 ==> SessionOk(k, EndRead(s))
  {}

  lemma SessionOkStableSends(k: Codec)
    ensures StableSends(k, Ok(k))
  {
    forall s | SessionOk(k, s) && s.pendingWrites != []
      ensures SessionOk(k, FinishWrite(s)) && SessionOk(k, CloseSocket(FailWrite(s)))
    {
      FinishKeepsSession(k, s);
      FailKeepsSession(k, s);
    }
    forall s, p | SessionOk(k, s) && CanSend(s) && s.role == ROLE_B
      ensures SessionOk(k, Send(s, k.Line(PacketJson(p))))
    {
      assert IsPacketLine(k, k.Line(PacketJson(p)));
      SendKeepsSession(k, s, k.Line(PacketJson(p)));
    }
    forall s, m | SessionOk(k, s) && CanSend(s) && s.role == ROLE_A
      ensures SessionOk(k, Send(s, k.Line(ModuleJson(m))))
    {
      assert IsModuleLine(k, k.Line(ModuleJson(m)));
      SendKeepsSession(k, s, k.Line(ModuleJson(m)));
    }
  }

  lemma SessionOkStableCounts(k: Codec)
    ensures StableCounts(Ok(k))
  {
    forall s, p | SessionOk(k, s) && s.role == ROLE_A
      ensures Repeats(s.last, p) ==> SessionOk(k, CountDuplicate(s, p))
      ensures !Repeats(s.last, p) ==>
                SessionOk(k, CountAccepted(s, p)) && SessionOk(k, CountForwarded(CountAccepted(s, p), p))
    {
      PacketKeepsSession(k, s, p);
    }
  }

  // ---------------------------------------------------------------- slots

  /** No slot ever dangles: locking a slot gives the session it names. */
  lemma SlotsAreAlive(ok: Session -> bool, w: World, i: nat)
    requires BusyOf(ok, w, i)
    ensures Lock(w, w.nodeA, i) == w.nodeA && Lock(w, w.nodeB, i) == w.nodeB
  {}

  lemma SlotsFollowRoles(w: World, v: World)
    requires SlotsOk(w) && |v.sessions| == |w.sessions| && v.nodeA == w.nodeA && v.nodeB == w.nodeB
    requires forall n | 0 <= n < |w.sessions| ::
               v.sessions[n].role == w.sessions[n].role && v.sessions[n].closed == w.sessions[n].closed
    ensures SlotsOk(v)
  {}

  lemma AcceptKeepsSlots(w: World)
    requires SlotsOk(w)
    ensures SlotsOk(w.(sessions := w.sessions + [StartRead(NewSession)]))
  {}

  lemma RegisterKeepsSlots(w: World, i: nat, role: string)
    requires SlotsOk(w) && i < |w.sessions| && (w.sessions[i].role == "" ==> !w.sessions[i].closed)
    requires Lock(w, w.nodeA, i) == w.nodeA && Lock(w, w.nodeB, i) == w.nodeB
    ensures SlotsOk(RegisterRole(w, i, role))
  {
    var w' := RegisterRole(w, i, role);
    if w' != w {
      assert ROLE_A != ROLE_B && ROLE_A != "" && ROLE_B != "";
      assert w.nodeA != Some(i) && w.nodeB != Some(i);
    }
  }

  // ---------------------------------------------------------------- handlers and events

  /** Replacing a session by one in the same role and the same state of its socket. */
  lemma UpdateKeepsBusy(ok: Session -> bool, w: World, i: nat, j: nat, s: Session)
    requires BusyOf(ok, w, i) && j < |w.sessions| && ok(s)
    requires s.role == w.sessions[j].role && s.closed == w.sessions[j].closed
    requires s.pendingReads == w.sessions[j].pendingReads
    ensures BusyOf(ok, Update(w, j, s), i)
  {}

  lemma RegisterKeepsBusy(k: Codec, ok: Session -> bool, w: World, i: nat, role: string)
    requires Stable(k, ok) && BusyOf(ok, w, i)
    ensures BusyOf(ok, RegisterRole(w, i, role), i)
  {
    SlotsAreAlive(ok, w, i);
    RegisterKeepsSlots(w, i, role);
  }

  lemma ForwardPacketKeepsBusy(k: Codec, ok: Session -> bool, w: World, i: nat, p: AccelPacket)
    requires Stable(k, ok) && BusyOf(ok, w, i) && w.sessions[i].role == ROLE_A
    requires ok(CountForwarded(w.sessions[i], p))
    ensures BusyOf(ok, ForwardPacket(k, w, i, p), i)
  {
    SlotsAreAlive(ok, w, i);
    if w.nodeB.Some? {
      var b := w.nodeB.value;
      var s := Send(w.sessions[b], k.Line(PacketJson(p)));
      UpdateKeepsBusy(ok, w, i, b, s);
      UpdateKeepsBusy(ok, Update(w, b, s), i, i, CountForwarded(w.sessions[i], p));
    }
  }

  lemma ForwardModuleKeepsBusy(k: Codec, ok: Session -> bool, w: World, i: nat, m: AccelModule)
    requires Stable(k, ok) && BusyOf(ok, w, i) && w.sessions[i].role == ROLE_B
    requires ok(CountForwardedModule(w.sessions[i]))
    ensures BusyOf(ok, ForwardModule(k, w, i, m), i)
  {
    SlotsAreAlive(ok, w, i);
    if w.nodeA.Some? {
      var a := w.nodeA.value;
      var s := Send(w.sessions[a], k.Line(ModuleJson(m)));
      UpdateKeepsBusy(ok, w, i, a, s);
      UpdateKeepsBusy(ok, Update(w, a, s), i, i, CountForwardedModule(w.sessions[i]));
    }
  }

  lemma HandleLineKeepsBusy(k: Codec, ok: Session -> bool, w: World, i: nat, line: string)
    requires Stable(k, ok) && BusyOf(ok, w, i)
    ensures BusyOf(ok, HandleLine(k, w, i, line), i)
  {
    if line != "" && k.parse(line).Some? {
      var json, s := k.parse(line).value, w.sessions[i];
      if MessageType(json) == Success(TYPE_HELLO) {
        if ClientRole(json).Success? { RegisterKeepsBusy(k, ok, w, i, ClientRole(json).value); }
      } else if MessageType(json) == Success(TYPE_ACCEL) {
        if s.role == ROLE_A && ParseAccelPacket(json).Success? {
          TakePacketKeepsBusy(k, ok, w, i, ParseAccelPacket(json).value);
        }
      } else if MessageType(json) == Success(TYPE_MODULE) {
        if s.role == ROLE_B && ParseAccelModule(json).Success? {
          var m := ParseAccelModule(json).value;
          UpdateKeepsBusy(ok, w, i, i, CountModule(s));
          ForwardModuleKeepsBusy(k, ok, Update(w, i, CountModule(s)), i, m);
        }
      }
    }
  }

  lemma TakePacketKeepsBusy(k: Codec, ok: Session -> bool, w: World, i: nat, p: AccelPacket)
    requires Stable(k, ok) && BusyOf(ok, w, i) && w.sessions[i].role == ROLE_A
    ensures BusyOf(ok, TakePacket(k, w, i, p), i)
  {
    var s := w.sessions[i];
    if Repeats(s.last, p) {
      UpdateKeepsBusy(ok, w, i, i, CountDuplicate(s, p));
    } else {
      UpdateKeepsBusy(ok, w, i, i, CountAccepted(s, p));
      ForwardPacketKeepsBusy(k, ok, Update(w, i, CountAccepted(s, p)), i, p);
    }
  }

  /** Closing session `i` inside one of its handlers. */
  lemma CloseKeepsInv(ok: Session -> bool, w: World, i: nat)
    requires i < |w.sessions| && SlotsOk(w)
    requires forall j | 0 <= j < |w.sessions| && j != i :: ok(w.sessions[j]) && Idle(w.sessions[j])
    requires ok(CloseSocket(w.sessions[i])) && (w.sessions[i].closed ==> !w.sessions[i].socketOpen)
    requires w.sessions[i].pendingReads > 0 ==> w.sessions[i].role != ""
    ensures InvOf(ok, Close(w, i))
  {}

  lemma ReadKeepsInv(k: Codec, ok: Session -> bool, w: World, i: nat, line: string)
    requires Stable(k, ok) && InvOf(ok, w) && Enabled(w, ReadOk(i, line))
    ensures InvOf(ok, Apply(k, w, ReadOk(i, line)))
  {
    hide HandleLine;
    var v := Update(w, i, EndRead(w.sessions[i]));
    SlotsFollowRoles(w, v);
    HandleLineKeepsBusy(k, ok, v, i, line);
    SlotsFollowRoles(HandleLine(k, v, i, line), Apply(k, w, ReadOk(i, line)));
  }

  lemma EventKeepsInvOf(k: Codec, ok: Session -> bool, w: World, e: Event)
    requires Stable(k, ok) && InvOf(ok, w) && Enabled(w, e)
    ensures InvOf(ok, Apply(k, w, e))
  {
    match e
    case Accept =>
      AcceptKeepsSlots(w);
    case ReadOk(i, line) =>
      ReadKeepsInv(k, ok, w, i, line);
    case ReadError(i) =>
      var v := Update(w, i, EndRead(w.sessions[i]));
      SlotsFollowRoles(w, v);
      CloseKeepsInv(ok, v, i);
    case WriteOk(i) =>
      SlotsFollowRoles(w, Apply(k, w, e));
    case WriteError(i) =>
      var v := Update(w, i, FailWrite(w.sessions[i]));
      SlotsFollowRoles(w, v);
      CloseKeepsInv(ok, v, i);
  }

  lemma EventKeepsInv(k: Codec, w: World, e: Event)
    requires Inv(k, w) && Enabled(w, e)
    ensures Inv(k, Apply(k, w, e))
  {
    SessionOkIsStable(k);
    EventKeepsInvOf(k, Ok(k), w, e);
  }

  /** The invariant holds in every reachable state. */
  lemma {:induction false} RunKeepsInv(k: Codec, w: World, es: seq<Event>, w': World)
    requires Inv(k, w) && Run(k, w, es, w')
    ensures Inv(k, w')
    decreases |es|
  {
    if es != [] {
      var n := |es| - 1;
      var v :| Run(k, w, es[..n], v) && Enabled(v, es[n]) && w' == Apply(k, v, es[n]);
      RunKeepsInv(k, w, es[..n], v);
      EventKeepsInv(k, v, es[n]);
    }
  }
}
