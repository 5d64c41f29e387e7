/**
 The relay server as it is written: session objects that share one server state and update themselves in
 place. Every method is proved to do what its function in RelayModel says of the whole server, so the
 invariants and theorems about runs of that model hold of these objects.
 */
module ServerClasses {
  import opened Basics
  import opened AccelPackets
  import opened JsonProtocol
  import opened DuplicateFilter
  import M = RelayModel
  import I = RelayInvariants

  class ClientSession {
    const state: ServerState
    ghost const id: nat    // the session's place in the order of acceptance

    var role: string
    var closed: bool
    var socketOpen: bool
    var writeQueue: seq<string>
    var received: nat
    var accepted: nat
    var dropped: nat
    var forwarded: nat
    var receivedModules: nat
    var forwardedModules: nat
    var lastPacket: Option<AccelPacket>

    // operations handed to the I/O library and not completed yet; each keeps the object alive
    var pendingReads: nat
    var pendingWrites: seq<string>

    ghost var enqueued: seq<string>
    ghost var written: seq<string>
    ghost var inbox: seq<AccelPacket>
    ghost var outbox: seq<AccelPacket>

    constructor (state: ServerState, ghost id: nat)
      ensures this.state == state && this.id == id && Value() == M.NewSession
    {
      this.state, this.id := state, id;
      role, closed, socketOpen, writeQueue := "", false, true, [];
      received, accepted, dropped, forwarded, receivedModules, forwardedModules := 0, 0, 0, 0, 0, 0;
      lastPacket, pendingReads, pendingWrites := None, 0, [];
      enqueued, written, inbox, outbox := [], [], [], [];
    }

    ghost function Value(): M.Session
      reads this
    {
      M.Session(role, closed, socketOpen, writeQueue, received, accepted, dropped, forwarded, receivedModules,
                forwardedModules, lastPacket, pendingReads, pendingWrites, enqueued, written, inbox, outbox)
    }

    /** This session is known to its server, and its completion handler is the one that runs. */
    ghost predicate Runs()
      reads state, state.sessions
    {
      state.Valid() && id < |state.sessions| && state.sessions[id] == this && state.running == this
    }

    // -------------------------------------------------------------- reading and writing

    method WriteNextMessage()
      modifies this
      ensures Value() == M.WriteNext(old(Value()))
    {
      if closed || |writeQueue| == 0 {
        return;
      }
      pendingWrites := pendingWrites + [writeQueue[0]];
    }

    method SendJson(json: Json) returns (sent: bool)
      modifies this
      ensures sent == (!old(closed) && old(socketOpen)) == M.CanSend(old(Value()))
      ensures Value() == if sent then M.Send(old(Value()), state.codec.Line(json)) else old(Value())
    {
      if closed || !socketOpen {
        return false;
      }
      var message := state.codec.Line(json);
      var writeInProgress := |writeQueue| != 0;
      writeQueue, enqueued := writeQueue + [message], enqueued + [message];
      if !writeInProgress {
        WriteNextMessage();
      }
      return true;
    }

    method ReadNextLine()
      modifies this
      ensures Value() == M.StartRead(old(Value()))
    {
      if closed {
        return;
      }
      pendingReads := pendingReads + 1;
    }

    /** The part of the write handler that concerns the queue. */
    method PopWritten()
      requires pendingWrites != []
      modifies this
      ensures Value() == M.FinishWrite(old(Value()))
    {
      written, pendingWrites := written + [pendingWrites[0]], pendingWrites[1..];
      if |writeQueue| != 0 {
        writeQueue := writeQueue[1..];
      }
      if !closed && |writeQueue| != 0 {
        WriteNextMessage();
      }
    }

    method Close()
      requires Runs()
      modifies state, this
      ensures state.Kept()
      ensures state.World() == M.Close(old(state.World()), id)
    {
      if closed {
        return;
      }
      closed := true;
      state.OneChanged(id);
      state.RemoveSession(this);
      label Removed:
      if socketOpen {
        socketOpen := false;
      }
      state.OneChanged@Removed(id);
      ClosedInTwoSteps(old(state.World()), id);
    }

    // -------------------------------------------------------------- messages

    method RegisterRole(role: string)
      requires Runs()
      modifies state, this
      ensures state.Kept()
      ensures state.World() == M.RegisterRole(old(state.World()), id, role)
    {
      if this.role != "" {
        return;
      }
      if role == ROLE_A {
        var isSet := state.SetNodeA(this);
        if !isSet {
          return;
        }
        label SetA:
        this.role := role;
        state.OneChanged@SetA(id);
        return;
      }
      if role == ROLE_B {
        var isSet := state.SetNodeB(this);
        if !isSet {
          return;
        }
        label SetB:
        this.role := role;
        state.OneChanged@SetB(id);
        return;
      }
    }

    method ForwardAccelPacketToNodeB(packet: AccelPacket)
      requires Runs()
      modifies state.sessions
      ensures state.Kept()
      ensures state.World() == M.ForwardPacket(state.codec, old(state.World()), id, packet)
    {
      hide M.Send, M.CanSend;
      var nodeB := state.GetNodeB();
      if nodeB == null {
        return;
      }
      var sent := nodeB.SendJson(PacketJson(packet));
      state.OneChanged(nodeB.id);
      if !sent {
        assert state.World().sessions == old(state.World().sessions);
        return;
      }
      label Sent:
      ghost var w := state.World();
      assert w == M.Update(old(state.World()), nodeB.id, M.Send(old(nodeB.Value()), state.codec.Line(PacketJson(packet))));
      forwarded, outbox := forwarded + 1, outbox + [packet];
      assert Value() == M.CountForwarded(w.sessions[id], packet);
      state.OneChanged@Sent(id);
    }

    method ForwardAccelModuleToNodeA(accelModule: AccelModule)
      requires Runs()
      modifies state.sessions
      ensures state.Kept()
      ensures state.World() == M.ForwardModule(state.codec, old(state.World()), id, accelModule)
    {
      hide M.Send, M.CanSend;
      var nodeA := state.GetNodeA();
      if nodeA == null {
        return;
      }
      var sent := nodeA.SendJson(ModuleJson(accelModule));
      state.OneChanged(nodeA.id);
      if !sent {
        assert state.World().sessions == old(state.World().sessions);
        return;
      }
      label Sent:
      ghost var w := state.World();
      assert w == M.Update(old(state.World()), nodeA.id, M.Send(old(nodeA.Value()), state.codec.Line(ModuleJson(accelModule))));
      forwardedModules := forwardedModules + 1;
      assert Value() == M.CountForwardedModule(w.sessions[id]);
      state.OneChanged@Sent(id);
    }

    /** The counters and the duplicate filter. */
    method FilterPacket(packet: AccelPacket) returns (isNew: bool)
      modifies this
      ensures !isNew <==>
                && old(lastPacket).Some?
                && SameNearest(packet.x * 1000.0, old(lastPacket).value.x * 1000.0)
                && SameNearest(packet.y * 1000.0, old(lastPacket).value.y * 1000.0)
                && SameNearest(packet.z * 1000.0, old(lastPacket).value.z * 1000.0)
      ensures isNew == !Repeats(old(lastPacket), packet)
      ensures Value() == if isNew then M.CountAccepted(old(Value()), packet) else M.CountDuplicate(old(Value()), packet)
    {
      RepetitionsRoundAlike(lastPacket, packet);
      hide IsDuplicate, SameNearest;
      received, inbox := received + 1, inbox + [packet];
      if lastPacket.Some? && IsDuplicate(packet, lastPacket.value) {
        dropped := dropped + 1;
        return false;
      }
      lastPacket := Some(packet);
      accepted := accepted + 1;
      return true;
    }

    method HandleAccelPacket(json: Json)
      requires Runs()
      modifies state.sessions
      ensures state.Kept()
      ensures state.World() == M.HandlePacket(state.codec, old(state.World()), id, json)
    {
      if role == "" || role != ROLE_A {
        return;
      }
      var result := ParseAccelPacket(json);
      if result.Failure? {
        return;
      }
      hide M.ForwardPacket, ParseAccelPacket, IsDuplicate, M.CountAccepted, M.CountDuplicate;
      var isNew := FilterPacket(result.value);
      state.OneChanged(id);
      if isNew {
        ForwardAccelPacketToNodeB(result.value);
      }
    }

    method HandleModulePacket(json: Json)
      requires Runs()
      modifies state.sessions
      ensures state.Kept()
      ensures state.World() == M.HandleModule(state.codec, old(state.World()), id, json)
    {
      if role == "" || role != ROLE_B {
        return;
      }
      var result := ParseAccelModule(json);
      if result.Failure? {
        return;
      }
      receivedModules := receivedModules + 1;
      state.OneChanged(id);
      ForwardAccelModuleToNodeA(result.value);
    }

    method HandleLine(line: string)
      requires Runs()
      modifies state, state.sessions
      ensures state.Kept()
      ensures state.World() == M.HandleLine(state.codec, old(state.World()), id, line)
    {
      if line == "" {
        return;
      }
      var json := state.codec.parse(line);
      if json == None {
        return;
      }
      var kind := MessageType(json.value);
      if kind.Failure? {
        return;
      }
      if kind.value == TYPE_HELLO {
        var role := ClientRole(json.value);
        if role.Failure? {
          return;
        }
        RegisterRole(role.value);
      } else if kind.value == TYPE_ACCEL {
        HandleAccelPacket(json.value);
      } else if kind.value == TYPE_MODULE {
        HandleModulePacket(json.value);
      }
    }

    // -------------------------------------------------------------- completion handlers

    method OnRead(line: string)
      requires Runs() && pendingReads > 0
      modifies state, state.sessions
      ensures state.Kept()
      ensures state.World() == M.Apply(state.codec, old(state.World()), M.ReadOk(id, line))
    {
      hide M.HandleLine, ServerState.World;
      ReadCompleted();
      HandleLine(line);
      ReadAgain();
    }

    /** The read that completed is no longer pending. */
    method ReadCompleted()
      requires Runs() && pendingReads > 0
      modifies this
      ensures state.Kept()
      ensures state.World() == M.Update(old(state.World()), id, M.EndRead(old(state.World()).sessions[id]))
    {
      pendingReads := pendingReads - 1;
      state.OneChanged(id);
    }

    method ReadAgain()
      requires Runs()
      modifies this
      ensures state.Kept()
      ensures state.World() == M.Update(old(state.World()), id, M.StartRead(old(state.World()).sessions[id]))
    {
      if !closed {
        ReadNextLine();
      }
      state.OneChanged(id);
    }

    method OnReadError()
      requires Runs() && pendingReads > 0
      modifies state, state.sessions
      ensures state.Kept()
      ensures state.World() == M.Apply(state.codec, old(state.World()), M.ReadError(id))
    {
      hide M.Close, ServerState.World;
      ReadCompleted();
      Close();
    }

    method OnWritten()
      requires Runs() && pendingWrites != []
      modifies state, state.sessions
      ensures state.Kept()
      ensures state.World() == M.Apply(state.codec, old(state.World()), M.WriteOk(id))
    {
      PopWritten();
      state.OneChanged(id);
    }

    method OnWriteError()
      requires Runs() && pendingWrites != []
      modifies state, state.sessions
      ensures state.Kept()
      ensures state.World() == M.Apply(state.codec, old(state.World()), M.WriteError(id))
    {
      hide M.Close;
      pendingWrites, writeQueue := pendingWrites[1..], [];
      state.OneChanged(id);
      Close();
    }
  }

  /** It does not matter that the slots are given up before the socket is closed. */
  lemma ClosedInTwoSteps(w: M.World, i: nat)
    requires i < |w.sessions| && !w.sessions[i].closed
    ensures M.Update(M.FreeSlots(M.Update(w, i, w.sessions[i].(closed := true)), i), i, M.CloseSocket(w.sessions[i])) == M.Close(w, i)
  {}

  class ServerState {
    const codec: Codec
    var nodeA: ClientSession?
    var nodeB: ClientSession?
    var running: ClientSession?     // the session whose completion handler runs; the handler keeps it alive
    var sessions: seq<ClientSession>  // every session ever accepted, as the I/O library finds them

    constructor (codec: Codec)
      ensures this.codec == codec && Valid() && running == null && World() == M.EmptyWorld
    {
      this.codec := codec;
      nodeA, nodeB, running := null, null, null;
      sessions := [];
    }

    ghost predicate Valid()
      reads this, sessions
    {
      && (forall i | 0 <= i < |sessions| :: sessions[i].state == this && sessions[i].id == i)
      && (nodeA != null ==> nodeA in sessions)
      && (nodeB != null ==> nodeB in sessions)
      && (running != null ==> running in sessions)
    }

    ghost function Sessions(): seq<M.Session>
      reads this, sessions
    {
      seq(|sessions|, i requires 0 <= i < |sessions| reads this, sessions => sessions[i].Value())
    }

    ghost function World(): M.World
      requires Valid()
      reads this, sessions
    {
      M.World(Sessions(), if nodeA == null then None else Some(nodeA.id), if nodeB == null then None else Some(nodeB.id))
    }

    twostate predicate Kept()
      requires old(Valid())
      reads this, sessions
    {
      Valid() && sessions == old(sessions) && running == old(running)
    }

    /** One session changed, and the slots did not. */
    twostate lemma OneChanged(i: nat)
      requires old(Valid()) && i < |sessions| && sessions == old(sessions) && running == old(running)
      requires nodeA == old(nodeA) && nodeB == old(nodeB)
      requires forall j | 0 <= j < |sessions| && j != i :: sessions[j].Value() == old(sessions[j].Value())
      ensures Valid() && World() == M.Update(old(World()), i, sessions[i].Value())
    {
      assert Sessions() == old(Sessions())[i := sessions[i].Value()];
    }

    /** weak_ptr::lock */
    method Lock(node: ClientSession?) returns (locked: ClientSession?)
      requires Valid() && running != null && (node != null ==> node in sessions)
      ensures locked == null <==> node == null || (node != running && node.pendingReads == 0 && node.pendingWrites == [])
      ensures locked == null <==> M.Lock(World(), if node == null then None else Some(node.id), running.id) == None
      ensures locked != null ==> locked == node
    {
      if node == null || (node != running && node.pendingReads == 0 && |node.pendingWrites| == 0) {
        return null;
      }
      return node;
    }

    method SetNodeA(session: ClientSession) returns (isSet: bool)
      requires Valid() && running == session
      modifies this
      ensures Kept() && World().sessions == old(World().sessions)
      ensures isSet <==> old(nodeA == null || nodeA == session || (nodeA.pendingReads == 0 && nodeA.pendingWrites == []))
      ensures isSet == M.SlotFree(old(World()), old(World().nodeA), session.id)
      ensures World() == if isSet then old(World()).(nodeA := Some(session.id)) else old(World())
    {
      var current := Lock(nodeA);
      if current != null && current != session {
        return false;
      }
      nodeA := session;
      return true;
    }

    method SetNodeB(session: ClientSession) returns (isSet: bool)
      requires Valid() && running == session
      modifies this
      ensures Kept() && World().sessions == old(World().sessions)
      ensures isSet <==> old(nodeB == null || nodeB == session || (nodeB.pendingReads == 0 && nodeB.pendingWrites == []))
      ensures isSet == M.SlotFree(old(World()), old(World().nodeB), session.id)
      ensures World() == if isSet then old(World()).(nodeB := Some(session.id)) else old(World())
    {
      var current := Lock(nodeB);
      if current != null && current != session {
        return false;
      }
      nodeB := session;
      return true;
    }

    method GetNodeA() returns (node: ClientSession?)
      requires Valid() && running != null
      ensures M.Lock(World(), World().nodeA, running.id) == if node == null then None else Some(node.id)
      ensures node != null ==> node in sessions
    {
      node := Lock(nodeA);
    }

    method GetNodeB() returns (node: ClientSession?)
      requires Valid() && running != null
      ensures M.Lock(World(), World().nodeB, running.id) == if node == null then None else Some(node.id)
      ensures node != null ==> node in sessions
    {
      node := Lock(nodeB);
    }

    method RemoveSession(session: ClientSession)
      requires Valid() && running == session
      modifies this
      ensures Kept()
      ensures nodeA == (if old(nodeA) == session then null else old(nodeA))
      ensures nodeB == (if old(nodeB) == session then null else old(nodeB))
      ensures World() == M.FreeSlots(old(World()), session.id)
    {
      var a := Lock(nodeA);
      if a != null && a == session {
        nodeA := null;
      }
      var b := Lock(nodeB);
      if b != null && b == session {
        nodeB := null;
      }
    }

    /** The accept handler. */
    method Accept()
      requires Valid() && running == null
      modifies this
      ensures Valid() && running == null && Grown()
      ensures World() == M.Apply(codec, old(World()), M.Accept)
    {
      var session := new ClientSession(this, |sessions|);
      session.ReadNextLine();
      sessions := sessions + [session];
      assert Sessions() == old(Sessions()) + [session.Value()];
    }

    /** Sessions are only added, and the added ones are new objects. */
    twostate predicate Grown()
      reads this
    {
      old(sessions) <= sessions && fresh(set s | s in sessions && s !in old(sessions))
    }

    // -------------------------------------------------------------- the event loop

    /** The I/O library can complete the operation `e` speaks of. */
    predicate Possible(e: M.Event)
      requires Valid()
      reads this, sessions
      ensures Possible(e) == M.Enabled(World(), e)
    {
      match e
      case Accept => true
      case ReadOk(i, _) => i < |sessions| && sessions[i].pendingReads > 0
      case ReadError(i) => i < |sessions| && sessions[i].pendingReads > 0
      case WriteOk(i) => i < |sessions| && |sessions[i].pendingWrites| > 0
      case WriteError(i) => i < |sessions| && |sessions[i].pendingWrites| > 0
    }

    /** The session whose handler runs, if any, is kept alive. */
    method Keep(session: ClientSession?)
      requires Valid() && (session != null ==> session in sessions)
      modifies this`running
      ensures Valid() && running == session && World() == old(World())
    {
      running := session;
      assert Sessions() == old(Sessions());
    }

    /** Run the completion handler of one session. */
    method Complete(e: M.Event)
      requires Valid() && running == null && Possible(e) && !e.Accept?
      modifies this, sessions
      ensures Valid() && running == null && sessions == old(sessions)
      ensures World() == M.Apply(codec, old(World()), e)
    {
      hide M.Apply, World;
      var session := sessions[e.i];
      Keep(session);
      match e {
        case ReadOk(_, line) => session.OnRead(line);
        case ReadError(_) => session.OnReadError();
        case WriteOk(_) => session.OnWritten();
        case WriteError(_) => session.OnWriteError();
      }
      Keep(null);
    }

    /** The handler of whatever has completed. */
    method Handle(e: M.Event)
      requires Valid() && running == null && Possible(e)
      modifies this, sessions
      ensures Valid() && running == null && Grown()
      ensures World() == M.Apply(codec, old(World()), e)
    {
      hide M.Apply, World, Valid;
      if e.Accept? {
        Accept();
      } else {
        Complete(e);
      }
    }

    /**
     io_context::run: handle one completed operation after the other, in whatever order they complete. The
     objects go through a run of the model, so what RelayTheorems says about runs holds of them.
     */
    method Run(events: seq<M.Event>) returns (n: nat)
      requires Valid() && running == null && World() == M.EmptyWorld
      modifies this, sessions
      ensures Valid() && running == null && Grown()
      ensures n <= |events| && (n < |events| ==> !M.Enabled(World(), events[n]))
      ensures M.Run(codec, M.EmptyWorld, events[..n], World()) && I.Inv(codec, World())
    {
      n := 0;
      assert events[..0] == [];
      while n < |events| && Possible(events[n])
        invariant Valid() && running == null && Grown() && n <= |events|
        invariant M.Run(codec, M.EmptyWorld, events[..n], World())
      {
        hide M.Apply, M.Run, World, Valid;
        ghost var before := World();
        Handle(events[n]);
        RunGoesOn(codec, events, n, before, World());
        n := n + 1;
      }
      hide World;
      I.RunKeepsInv(codec, M.EmptyWorld, events[..n], World());
    }
  }

  lemma RunGoesOn(k: Codec, events: seq<M.Event>, n: nat, v: M.World, w: M.World)
    requires n < |events| && M.Run(k, M.EmptyWorld, events[..n], v) && M.Enabled(v, events[n]) && w == M.Apply(k, v, events[n])
    ensures M.Run(k, M.EmptyWorld, events[..n + 1], w)
  {
    hide M.Apply, M.Enabled;
    var es := events[..n + 1];
    assert es[..|es| - 1] == events[..n] && es[|es| - 1] == events[n];
  }
}
