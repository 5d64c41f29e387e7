/**
 What every event does to the server in a reachable state, said outright: the whole world afterwards, for every kind
 of line and for every completion of an operation.
 */
module RelayEffects {
  import opened Basics
  import opened AccelPackets
  import opened JsonProtocol
  import opened DuplicateFilter
  import opened RelayModel
  import opened RelayInvariants

  /** The session after a read has completed: it waits for the next line unless it is closed. */
  function Waiting(s: Session): Session {
    s.(pendingReads := if s.closed then 0 else 1)
  }

  /** The session with one more message in its write queue; only the head of the queue is being written. */
  function WithMessage(s: Session, message: string): Session {
    s.(queue := s.queue + [message], enqueued := s.enqueued + [message],
       pendingWrites := if s.queue == [] then [message] else s.pendingWrites)
  }

  lemma ReadyToRead(k: Codec, w: World, i: nat)
    requires Inv(k, w) && i < |w.sessions| && w.sessions[i].pendingReads > 0
    ensures w.sessions[i].pendingReads == 1 && (w.sessions[i].closed ==> w.sessions[i].role != "")
    ensures StartRead(EndRead(w.sessions[i])) == Waiting(w.sessions[i])
  {
    assert Ok(k)(w.sessions[i]) && Basic(w.sessions[i]) && Idle(w.sessions[i]);
  }

  // ---------------------------------------------------------------- lines

  /** Nothing in the line concerns the session: it is no message, or not one for a session in this role. */
  predicate Rejected(k: Codec, s: Session, line: string) {
    || line == "" || k.parse(line) == None
    || (var json := k.parse(line).value;
        && !(ClientRole(json).Success? && s.role == "")
        && !(ParseAccelPacket(json).Success? && s.role == "A")
        && !(ParseAccelModule(json).Success? && s.role == "B"))
  }

  /** Such a line changes nothing. */
  lemma RejectedLinesChangeNothing(k: Codec, w: World, i: nat, line: string)
    requires Inv(k, w) && Enabled(w, ReadOk(i, line)) && Rejected(k, w.sessions[i], line)
    ensures Apply(k, w, ReadOk(i, line)) == World(w.sessions[i := Waiting(w.sessions[i])], w.nodeA, w.nodeB)
  {
    ReadyToRead(k, w, i);
    var s := w.sessions[i];
    var u := Update(w, i, EndRead(s));
    assert HandleLine(k, u, i, line) == u by {
      hide Inv, ClientRole, ParseAccelPacket, ParseAccelModule, MessageType, TakePacket, TakeModule;
      if s.role != "" { RegisteredStays(u, i); }
    }
    hide Inv, HandleLine;
    assert w.sessions[i := EndRead(s)][i := Waiting(s)] == w.sessions[i := Waiting(s)];
  }

  lemma RegisteredStays(w: World, i: nat)
    requires i < |w.sessions| && w.sessions[i].role != ""
    ensures forall role :: RegisterRole(w, i, role) == w
  {}

  lemma RegistrationSays(w: World, i: nat, role: string)
    requires i < |w.sessions| && w.sessions[i].role == "" && (role == "A" || role == "B")
    requires w.nodeA.Some? ==> Lock(w, w.nodeA, i) == w.nodeA && w.nodeA != Some(i)
    requires w.nodeB.Some? ==> Lock(w, w.nodeB, i) == w.nodeB && w.nodeB != Some(i)
    ensures var gets := (role == "A" && w.nodeA == None) || (role == "B" && w.nodeB == None);
            var sessions := if gets then w.sessions[i := w.sessions[i].(role := role)] else w.sessions;
            var a, b := if gets && role == "A" then Some(i) else w.nodeA, if gets && role == "B" then Some(i) else w.nodeB;
            RegisterRole(w, i, role) == World(sessions, a, b)
  {}

  /** A slot is taken by the first client that asks for it while it is free, whoever holds the other one. */
  lemma HellosTakeFreeSlots(k: Codec, w: World, i: nat, line: string, role: string)
    requires Inv(k, w) && Enabled(w, ReadOk(i, line)) && w.sessions[i].role == ""
    requires line != "" && k.parse(line).Some? && ClientRole(k.parse(line).value) == Success(role)
    ensures role == "A" || role == "B"
    ensures var v := Apply(k, w, ReadOk(i, line));
            var gets := (role == "A" && w.nodeA == None) || (role == "B" && w.nodeB == None);
            && v.sessions == (if gets then w.sessions[i := w.sessions[i].(role := role)] else w.sessions)
            && v.nodeA == (if gets && role == "A" then Some(i) else w.nodeA)
            && v.nodeB == (if gets && role == "B" then Some(i) else w.nodeB)
  {
    hide Inv, Apply, RegisterRole, ClientRole, Lock, HasHeader;
    ReadyToRead(k, w, i);
    ValuesThatAreHellos(k.parse(line).value, role);
    SlotsAreHeld(k, w, i);
    var s := w.sessions[i];
    var u := Update(w, i, EndRead(s));
    HelloIsTaken(k, w, i, line, role);
    RegistrationSays(u, i, role);
    OneRoundTrip(w.sessions, i, s, EndRead(s), EndRead(s).(role := role), s.(role := role));
  }

  lemma OneRoundTrip(ss: seq<Session>, i: nat, s: Session, t: Session, u: Session, v: Session)
    requires i < |ss| && ss[i] == s
    ensures ss[i := t][i := s] == ss && ss[i := t][i := u][i := v] == ss[i := v]
  {}

  lemma HelloIsTaken(k: Codec, w: World, i: nat, line: string, role: string)
    requires Enabled(w, ReadOk(i, line))
    requires line != "" && k.parse(line).Some? && ClientRole(k.parse(line).value) == Success(role)
    ensures Apply(k, w, ReadOk(i, line)) == ReadOn(RegisterRole(Update(w, i, EndRead(w.sessions[i])), i, role), i)
  {
    AtMostOneKind(k.parse(line).value);
    hide ClientRole, ParseAccelPacket, ParseAccelModule, MessageType, TakePacket, TakeModule, RegisterRole;
  }

  lemma SlotsAreHeld(k: Codec, w: World, i: nat)
    requires Inv(k, w) && i < |w.sessions| && w.sessions[i].role == "" && w.sessions[i].pendingReads > 0
    ensures var u := Update(w, i, EndRead(w.sessions[i]));
            && (w.nodeA.Some? ==> Lock(u, u.nodeA, i) == w.nodeA && w.nodeA != Some(i))
            && (w.nodeB.Some? ==> Lock(u, u.nodeB, i) == w.nodeB && w.nodeB != Some(i))
  {
    if w.nodeA.Some? { assert Idle(w.sessions[w.nodeA.value]); }
    if w.nodeB.Some? { assert Idle(w.sessions[w.nodeB.value]); }
  }

  lemma PacketIsTaken(k: Codec, w: World, i: nat, line: string, p: AccelPacket)
    requires Enabled(w, ReadOk(i, line)) && w.sessions[i].role == "A"
    requires line != "" && k.parse(line).Some? && ParseAccelPacket(k.parse(line).value) == Success(p)
    ensures Apply(k, w, ReadOk(i, line)) == ReadOn(TakePacket(k, Update(w, i, EndRead(w.sessions[i])), i, p), i)
  {
    AtMostOneKind(k.parse(line).value);
    assert TYPE_ACCEL != TYPE_HELLO;
    hide TakePacket, TakeModule, ParseAccelPacket, ClientRole, MessageType;
  }

  lemma ModuleIsTaken(k: Codec, w: World, i: nat, line: string, m: AccelModule)
    requires Enabled(w, ReadOk(i, line)) && w.sessions[i].role == "B"
    requires line != "" && k.parse(line).Some? && ParseAccelModule(k.parse(line).value) == Success(m)
    ensures Apply(k, w, ReadOk(i, line)) == ReadOn(TakeModule(k, Update(w, i, EndRead(w.sessions[i])), i, m), i)
  {
    AtMostOneKind(k.parse(line).value);
    assert TYPE_MODULE != TYPE_HELLO && TYPE_MODULE != TYPE_ACCEL by { assert |TYPE_MODULE| == 6; }
    hide TakePacket, TakeModule, ParseAccelModule, ClientRole, MessageType;
  }

  lemma SlotIsUsable(k: Codec, w: World, i: nat)
    requires Inv(k, w) && i < |w.sessions|
    ensures w.nodeB.Some? && w.sessions[i].role == "A" ==>
              var b := w.nodeB.value; b < |w.sessions| && b != i && CanSend(w.sessions[b]) && Lock(w, w.nodeB, i) == Some(b)
    ensures w.nodeA.Some? && w.sessions[i].role == "B" ==>
              var a := w.nodeA.value; a < |w.sessions| && a != i && CanSend(w.sessions[a]) && Lock(w, w.nodeA, i) == Some(a)
  {
    if w.nodeA.Some? {
      var s := w.sessions[w.nodeA.value];
      assert Ok(k)(s) && Basic(s) && Idle(s);
    }
    if w.nodeB.Some? {
      var s := w.sessions[w.nodeB.value];
      assert Ok(k)(s) && Basic(s) && Idle(s);
    }
  }

  lemma SentIsWithMessage(s: Session, message: string)
    requires CanSend(s) && (s.queue == [] ==> s.pendingWrites == [])
    ensures Send(s, message) == WithMessage(s, message)
  {
    assert [] + [message] == [message];
  }

  lemma EmptyQueueIsIdle(k: Codec, w: World, j: nat)
    requires Inv(k, w) && j < |w.sessions|
    ensures w.sessions[j].queue == [] ==> w.sessions[j].pendingWrites == []
  {
    assert Ok(k)(w.sessions[j]) && QueueOk(w.sessions[j]);
  }

  lemma PassedOnSays(w: World, i: nat, s: Session, j: nat, message: string)
    requires i < |w.sessions| && j < |w.sessions| && i != j && CanSend(w.sessions[j])
    requires w.sessions[j].queue == [] ==> w.sessions[j].pendingWrites == []
    ensures PassedOn(w, i, s, j, message)
         == World(w.sessions[i := StartRead(s)][j := WithMessage(w.sessions[j], message)], w.nodeA, w.nodeB)
  {
    hide Send, WithMessage, StartRead;
    SentIsWithMessage(w.sessions[j], message);
  }

  /** The session after a packet, in the three cases. */
  lemma CountsAfterPacket(s: Session, p: AccelPacket)
    requires s.pendingReads == 1
    ensures var got := Waiting(s).(received := s.received + 1, inbox := s.inbox + [p]);
            var accepted := got.(accepted := s.accepted + 1, last := Some(p));
            && StartRead(CountDuplicate(EndRead(s), p)) == got.(dropped := s.dropped + 1)
            && StartRead(CountAccepted(EndRead(s), p)) == accepted
            && StartRead(CountForwarded(CountAccepted(EndRead(s), p), p))
            == accepted.(forwarded := s.forwarded + 1, outbox := s.outbox + [p])
  {}

  lemma CountsAfterModule(s: Session)
    requires s.pendingReads == 1
    ensures var got := Waiting(s).(receivedModules := s.receivedModules + 1);
            && StartRead(CountModule(EndRead(s))) == got
            && StartRead(CountForwardedModule(CountModule(EndRead(s)))) == got.(forwardedModules := s.forwardedModules + 1)
  {}

  /** A packet that is forwarded to Node B. */
  lemma ForwardedSays(k: Codec, w: World, i: nat, b: nat, p: AccelPacket)
    requires i < |w.sessions| && b < |w.sessions| && b != i && w.sessions[i].pendingReads == 1
    requires !Repeats(w.sessions[i].last, p) && CanSend(w.sessions[b]) && Lock(w, w.nodeB, i) == Some(b)
    requires w.sessions[b].queue == [] ==> w.sessions[b].pendingWrites == []
    ensures var s := Waiting(w.sessions[i]);
            var sender := s.(received := s.received + 1, inbox := s.inbox + [p], accepted := s.accepted + 1, last := Some(p),
                             forwarded := s.forwarded + 1, outbox := s.outbox + [p]);
            var sessions := w.sessions[i := sender][b := WithMessage(w.sessions[b], k.dump(PacketJson(p)) + "\n")];
            ReadOn(TakePacket(k, Update(w, i, EndRead(w.sessions[i])), i, p), i) == World(sessions, w.nodeA, w.nodeB)
  {
    PacketPassesOn(k, w, i, b, p);
    CountsAfterPacket(w.sessions[i], p);
    hide TakePacket, PacketJson, Repeats, Lock, WithMessage, PassedOn, ReadOn, Update, StartRead, CountAccepted, CountForwarded;
    PassedOnSays(w, i, CountForwarded(CountAccepted(EndRead(w.sessions[i]), p), p), b, k.Line(PacketJson(p)));
  }

  /** A packet that goes no further: a repetition, or there is no Node B. */
  lemma UnforwardedSays(k: Codec, w: World, i: nat, p: AccelPacket)
    requires i < |w.sessions| && w.sessions[i].pendingReads == 1 && (Repeats(w.sessions[i].last, p) || w.nodeB == None)
    ensures var s := Waiting(w.sessions[i]);
            var got := s.(received := s.received + 1, inbox := s.inbox + [p]);
            var after := if Repeats(s.last, p) then got.(dropped := s.dropped + 1)
                         else got.(accepted := s.accepted + 1, last := Some(p));
            ReadOn(TakePacket(k, Update(w, i, EndRead(w.sessions[i])), i, p), i) == World(w.sessions[i := after], w.nodeA, w.nodeB)
  {
    CountsAfterPacket(w.sessions[i], p);
    hide TakePacket, Repeats, ReadOn, StartRead, CountAccepted, CountDuplicate;
    if Repeats(w.sessions[i].last, p) {
      PacketIsDropped(k, w, i, p);
    } else {
      PacketStays(k, w, i, p);
    }
  }

  /** A packet of the A session: counted, compared with the packet accepted last, and passed on to Node B if there is one. */
  lemma PacketsAreFilteredAndForwarded(k: Codec, w: World, i: nat, line: string, p: AccelPacket)
    requires Inv(k, w) && Enabled(w, ReadOk(i, line)) && w.sessions[i].role == "A"
    requires line != "" && k.parse(line).Some? && ParseAccelPacket(k.parse(line).value) == Success(p)
    ensures var s, v := Waiting(w.sessions[i]), Apply(k, w, ReadOk(i, line));
            var got := s.(received := s.received + 1, inbox := s.inbox + [p]);
            var accepted := got.(accepted := s.accepted + 1, last := Some(p));
            && v.nodeA == w.nodeA && v.nodeB == w.nodeB
            && if Repeats(s.last, p) then v.sessions == w.sessions[i := got.(dropped := s.dropped + 1)]
               else if w.nodeB == None then v.sessions == w.sessions[i := accepted]
               else var b := w.nodeB.value;
                    && b < |w.sessions| && b != i
                    && v.sessions == w.sessions[i := accepted.(forwarded := s.forwarded + 1, outbox := s.outbox + [p])]
                                               [b := WithMessage(w.sessions[b], k.dump(PacketJson(p)) + "\n")]
  {
    ReadyToRead(k, w, i);
    SlotIsUsable(k, w, i);
    if w.nodeB.Some? { EmptyQueueIsIdle(k, w, w.nodeB.value); }
    hide Inv, Apply, TakePacket, PacketJson, Repeats, ParseAccelPacket, Lock, WithMessage, ReadOn, CanSend;
    PacketIsTaken(k, w, i, line, p);
    if Repeats(w.sessions[i].last, p) || w.nodeB == None {
      UnforwardedSays(k, w, i, p);
    } else {
      ForwardedSays(k, w, i, w.nodeB.value, p);
    }
  }

  /** A module that is forwarded to Node A. */
  lemma ForwardedModuleSays(k: Codec, w: World, i: nat, a: nat, m: AccelModule)
    requires i < |w.sessions| && a < |w.sessions| && a != i && w.sessions[i].pendingReads == 1
    requires CanSend(w.sessions[a]) && Lock(w, w.nodeA, i) == Some(a)
    requires w.sessions[a].queue == [] ==> w.sessions[a].pendingWrites == []
    ensures var s := Waiting(w.sessions[i]);
            var sender := s.(receivedModules := s.receivedModules + 1, forwardedModules := s.forwardedModules + 1);
            var sessions := w.sessions[i := sender][a := WithMessage(w.sessions[a], k.dump(ModuleJson(m)) + "\n")];
            ReadOn(TakeModule(k, Update(w, i, EndRead(w.sessions[i])), i, m), i) == World(sessions, w.nodeA, w.nodeB)
  {
    ModulePassesOn(k, w, i, a, m);
    CountsAfterModule(w.sessions[i]);
    hide TakeModule, ModuleJson, Lock, WithMessage, PassedOn, ReadOn, Update, StartRead, CountModule, CountForwardedModule;
    PassedOnSays(w, i, CountForwardedModule(CountModule(EndRead(w.sessions[i]))), a, k.Line(ModuleJson(m)));
  }

  /** A module of the B session: counted, and passed on to Node A if there is one. */
  lemma ModulesAreForwarded(k: Codec, w: World, i: nat, line: string, m: AccelModule)
    requires Inv(k, w) && Enabled(w, ReadOk(i, line)) && w.sessions[i].role == "B"
    requires line != "" && k.parse(line).Some? && ParseAccelModule(k.parse(line).value) == Success(m)
    ensures var s, v := Waiting(w.sessions[i]), Apply(k, w, ReadOk(i, line));
            var got := s.(receivedModules := s.receivedModules + 1);
            && v.nodeA == w.nodeA && v.nodeB == w.nodeB
            && if w.nodeA == None then v.sessions == w.sessions[i := got]
               else var a := w.nodeA.value;
                    && a < |w.sessions| && a != i
                    && v.sessions == w.sessions[i := got.(forwardedModules := s.forwardedModules + 1)]
                                               [a := WithMessage(w.sessions[a], k.dump(ModuleJson(m)) + "\n")]
  {
    ReadyToRead(k, w, i);
    SlotIsUsable(k, w, i);
    if w.nodeA.Some? { EmptyQueueIsIdle(k, w, w.nodeA.value); }
    hide Inv, Apply, TakeModule, ModuleJson, ParseAccelModule, Lock, WithMessage, ReadOn, CanSend;
    ModuleIsTaken(k, w, i, line, m);
    if w.nodeA == None {
      ModuleStays(k, w, i, m);
    } else {
      ForwardedModuleSays(k, w, i, w.nodeA.value, m);
    }
  }

  lemma ModuleStays(k: Codec, w: World, i: nat, m: AccelModule)
    requires i < |w.sessions| && w.sessions[i].pendingReads > 0 && w.nodeA == None
    ensures ReadOn(TakeModule(k, Update(w, i, EndRead(w.sessions[i])), i, m), i)
         == Update(w, i, StartRead(CountModule(EndRead(w.sessions[i]))))
  {
    var s := CountModule(EndRead(w.sessions[i]));
    assert w.sessions[i := EndRead(w.sessions[i])][i := s][i := StartRead(s)] == w.sessions[i := StartRead(s)];
  }

  // ---------------------------------------------------------------- the other completions

  /** Every pending operation may complete, well or badly; an open session always waits for a line, and writes if it can. */
  lemma WhatMayComplete(k: Codec, w: World, i: nat, line: string)
    requires Inv(k, w) && i < |w.sessions|
    ensures Enabled(w, Accept)
    ensures var s := w.sessions[i];
            && (Enabled(w, ReadOk(i, line)) <==> s.pendingReads == 1) && (Enabled(w, ReadError(i)) <==> s.pendingReads == 1)
            && (Enabled(w, WriteOk(i)) <==> s.pendingWrites != []) && (Enabled(w, WriteError(i)) <==> s.pendingWrites != [])
            && (!s.closed ==> s.pendingReads == 1 && (s.pendingWrites != [] <==> s.queue != []))
  {
    var s := w.sessions[i];
    assert Ok(k)(s) && Basic(s) && QueueOk(s) && Idle(s);
    hide Inv;
  }

  /** A new client has no role, an open socket and one read to come. */
  lemma NewClientsAreRead(k: Codec, w: World)
    ensures Apply(k, w, Accept)
         == World(w.sessions + [Session("", false, true, [], 0, 0, 0, 0, 0, 0, None, 1, [], [], [], [], [])], w.nodeA, w.nodeB)
  {}

  /** An error closes the session and gives up its slot, and nothing else; a failed write also drops the queue. */
  lemma ErrorsCloseTheSession(k: Codec, w: World, i: nat, e: Event)
    requires Inv(k, w) && (e == ReadError(i) || e == WriteError(i)) && Enabled(w, e)
    ensures var s, v := w.sessions[i], Apply(k, w, e);
            && v.sessions == w.sessions[i := if e.ReadError? then s.(closed := true, socketOpen := false, pendingReads := 0)
                                             else s.(closed := true, socketOpen := false, queue := [], pendingWrites := [])]
            && v.nodeA == (if w.nodeA == Some(i) then None else w.nodeA)
            && v.nodeB == (if w.nodeB == Some(i) then None else w.nodeB)
  {
    var s := w.sessions[i];
    assert Ok(k)(s) && Basic(s) && QueueOk(s);
    var t := if e.ReadError? then EndRead(s) else FailWrite(s);
    assert w.sessions[i := t][i := CloseSocket(t)] == w.sessions[i := CloseSocket(t)];
    assert s.pendingWrites != [] ==> s.pendingWrites[1..] == [];
    hide InvOf;
  }

  /** A finished write takes the head off the queue and starts the next one unless the session is closed. */
  lemma WritesGoThroughTheQueue(k: Codec, w: World, i: nat)
    requires Inv(k, w) && Enabled(w, WriteOk(i))
    ensures var s, v := w.sessions[i], Apply(k, w, WriteOk(i));
            && v.nodeA == w.nodeA && v.nodeB == w.nodeB && s.queue != [] && s.pendingWrites == [s.queue[0]]
            && v.sessions == w.sessions[i := s.(written := s.written + [s.queue[0]], queue := s.queue[1..],
                                                pendingWrites := if s.closed || |s.queue| == 1 then [] else [s.queue[1]])]
  {
    var s := w.sessions[i];
    assert Ok(k)(s) && QueueOk(s);
    assert s.pendingWrites[1..] == [] && [] + [s.pendingWrites[0]] == s.pendingWrites;
    assert |s.queue| > 1 ==> s.queue[1..][0] == s.queue[1] && [] + [s.queue[1]] == [s.queue[1]];
    hide Inv;
  }
}
