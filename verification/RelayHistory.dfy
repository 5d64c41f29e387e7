/** What the events of a run say: which closed sessions still have a line to handle, and what is forwarded. */
module RelayHistory {
  import opened Basics
  import opened AccelPackets
  import opened JsonProtocol
  import opened DuplicateFilter
  import opened RelayModel
  import opened RelayInvariants
  import opened RelayTheorems

  lemma {:induction false} RunIsDeterministic(k: Codec, w: World, es: seq<Event>, v: World, v': World)
    requires Run(k, w, es, v) && Run(k, w, es, v')
    ensures v == v'
    decreases |es|
  {
    hide Enabled, Apply;
    if es != [] {
      var n := |es| - 1;
      var u :| Run(k, w, es[..n], u) && Enabled(u, es[n]) && v == Apply(k, u, es[n]);
      var u' :| Run(k, w, es[..n], u') && Enabled(u', es[n]) && v' == Apply(k, u', es[n]);
      RunIsDeterministic(k, w, es[..n], u, u');
    }
  }

  // ---------------------------------------------------------------- late reads

  /** Session `i` is closed, and its read may still complete with a line. */
  predicate LateRead(w: World, i: nat) {
    i < |w.sessions| && w.sessions[i].closed && w.sessions[i].pendingReads > 0
  }

  predicate IsRead(e: Event, i: nat) { (e.ReadOk? || e.ReadError?) && e.i == i }

  predicate IsOpen(w: World, i: nat) { i < |w.sessions| && !w.sessions[i].closed }

  /** Event `n` was a write error of session `i`, which was open until then. */
  ghost predicate ClosedByWriteError(k: Codec, es: seq<Event>, n: nat, i: nat)
    requires n < |es|
  {
    es[n] == WriteError(i) && exists v :: Run(k, EmptyWorld, es[..n], v) && IsOpen(v, i)
  }

  predicate ReadAfter(es: seq<Event>, n: nat, i: nat) {
    exists j :: n < j < |es| && IsRead(es[j], i)
  }

  /** A write error closed session `i`, and its read has not completed since. */
  ghost predicate ReadLeft(k: Codec, es: seq<Event>, i: nat) {
    exists n: nat {:trigger ClosedByWriteError(k, es, n, i)} ::
      n < |es| && ClosedByWriteError(k, es, n, i) && !ReadAfter(es, n, i)
  }

  lemma ReadAfterExtends(es: seq<Event>, n: nat, i: nat)
    requires n < |es| - 1
    ensures var last := |es| - 1; ReadAfter(es, n, i) <==> ReadAfter(es[..last], n, i) || IsRead(es[last], i)
  {
    var last := |es| - 1;
    if j :| n < j < last && IsRead(es[..last][j], i) { assert IsRead(es[j], i); }
    if j :| n < j < |es| && IsRead(es[j], i) { assert j < last ==> IsRead(es[..last][j], i); }
  }

  lemma ReadLeftExtends(k: Codec, es: seq<Event>, v: World, i: nat)
    requires es != [] && Run(k, EmptyWorld, es[..|es| - 1], v)
    ensures var last := |es| - 1;
            ReadLeft(k, es, i)
            <==> (ReadLeft(k, es[..last], i) && !IsRead(es[last], i)) || (es[last] == WriteError(i) && IsOpen(v, i))
  {
    hide Run, IsOpen;
    var last := |es| - 1;
    if n: nat :| n < |es| && ClosedByWriteError(k, es, n, i) && !ReadAfter(es, n, i) {
      if n == last {
        var u :| Run(k, EmptyWorld, es[..last], u) && IsOpen(u, i);
        RunIsDeterministic(k, EmptyWorld, es[..last], u, v);
      } else {
        assert es[..last][..n] == es[..n];
        assert ClosedByWriteError(k, es[..last], n, i);
        ReadAfterExtends(es, n, i);
      }
    }
    if n: nat :| n < last && ClosedByWriteError(k, es[..last], n, i) && !ReadAfter(es[..last], n, i) && !IsRead(es[last], i) {
      assert es[..last][..n] == es[..n];
      assert ClosedByWriteError(k, es, n, i);
      ReadAfterExtends(es, n, i);
    }
    if es[last] == WriteError(i) && IsOpen(v, i) {
      assert ClosedByWriteError(k, es, last, i);
    }
  }

  /** The sockets and the pending reads of all sessions. */
  predicate SameReads(w: World, v: World) {
    && |v.sessions| == |w.sessions|
    && forall j | 0 <= j < |w.sessions| ::
         v.sessions[j].closed == w.sessions[j].closed && v.sessions[j].pendingReads == w.sessions[j].pendingReads
  }

  lemma PacketKeepsReads(k: Codec, w: World, i: nat, p: AccelPacket)
    requires i < |w.sessions|
    ensures SameReads(w, ForwardPacket(k, w, i, p))
  {}

  lemma ModuleKeepsReads(k: Codec, w: World, i: nat, m: AccelModule)
    requires i < |w.sessions|
    ensures SameReads(w, ForwardModule(k, w, i, m))
  {}

  lemma LineKeepsReads(k: Codec, w: World, i: nat, line: string)
    requires i < |w.sessions|
    ensures SameReads(w, HandleLine(k, w, i, line))
  {
    hide ForwardPacket, ForwardModule, ParseAccelPacket, ParseAccelModule, MessageType, ClientRole;
    if line != "" && k.parse(line).Some? {
      var json, s := k.parse(line).value, w.sessions[i];
      if ParseAccelPacket(json).Success? {
        PacketKeepsReads(k, Update(w, i, CountAccepted(s, ParseAccelPacket(json).value)), i, ParseAccelPacket(json).value);
      }
      if ParseAccelModule(json).Success? {
        ModuleKeepsReads(k, Update(w, i, CountModule(s)), i, ParseAccelModule(json).value);
      }
    }
  }

  lemma ReadStep(k: Codec, w: World, j: nat, line: string, i: nat)
    requires Inv(k, w) && Enabled(w, ReadOk(j, line))
    ensures LateRead(Apply(k, w, ReadOk(j, line)), i) <==> LateRead(w, i) && i != j
  {
    assert Ok(k)(w.sessions[j]) && Basic(w.sessions[j]);
    hide HandleLine, Inv;
    LineKeepsReads(k, Update(w, j, EndRead(w.sessions[j])), j, line);
  }

  lemma ErrorStep(k: Codec, w: World, e: Event, i: nat)
    requires Inv(k, w) && Enabled(w, e) && (e.ReadError? || e.WriteError?)
    ensures LateRead(Apply(k, w, e), i) <==> (LateRead(w, i) && !IsRead(e, i)) || (e == WriteError(i) && IsOpen(w, i))
  {
    assert Ok(k)(w.sessions[e.i]) && Basic(w.sessions[e.i]) && Idle(w.sessions[e.i]);
    hide Inv, HandleLine, FinishWrite, Lock;
  }

  lemma LateReadStep(k: Codec, w: World, e: Event, i: nat)
    requires Inv(k, w) && Enabled(w, e)
    ensures LateRead(Apply(k, w, e), i) <==> (LateRead(w, i) && !IsRead(e, i)) || (e == WriteError(i) && IsOpen(w, i))
  {
    hide Inv;
    match e
    case ReadOk(j, line) => hide Apply; ReadStep(k, w, j, line, i);
    case ReadError(_) => hide Apply; ErrorStep(k, w, e, i);
    case WriteError(_) => hide Apply; ErrorStep(k, w, e, i);
    case WriteOk(j) => hide HandleLine, FinishWrite, Close; FinishKeepsReads(w.sessions[j]);
    case Accept => hide HandleLine, FinishWrite, Close;
  }

  lemma FinishKeepsReads(s: Session)
    requires s.pendingWrites != []
    ensures FinishWrite(s).closed == s.closed && FinishWrite(s).pendingReads == s.pendingReads
  {}

  /**
   A closed session has a line to come exactly if it was closed by a write error and its read has not completed
   since.
   */
  lemma {:induction false} LateReadsFollowWriteErrors(k: Codec, es: seq<Event>, w: World, i: nat)
    requires Run(k, EmptyWorld, es, w)
    ensures LateRead(w, i) <==> ReadLeft(k, es, i)
    decreases |es|
  {
    hide Enabled, Apply, Inv;
    if es != [] {
      var n := |es| - 1;
      var v :| Run(k, EmptyWorld, es[..n], v) && Enabled(v, es[n]) && w == Apply(k, v, es[n]);
      LateReadsFollowWriteErrors(k, es[..n], v, i);
      ReachableInv(k, es[..n], v);
      hide Run, LateRead, ReadLeft;
      ReadLeftExtends(k, es, v, i);
      LateReadStep(k, v, es[n], i);
    }
  }

  // ---------------------------------------------------------------- what is forwarded

  /** What the handler of session `i` does with a packet line that is no repetition. */
  lemma AcceptedPacketIsForwarded(k: Codec, w: World, i: nat, p: AccelPacket)
    requires Inv(k, w) && Enabled(w, ReadOk(i, k.dump(PacketJson(p)))) && k.Faithful(PacketJson(p))
    requires w.sessions[i].role == ROLE_A && !Repeats(w.sessions[i].last, p)
    ensures var s, t := w.sessions[i], Apply(k, w, ReadOk(i, k.dump(PacketJson(p)))).sessions[i];
            && t.accepted == s.accepted + 1 && t.last == Some(p)
            && (t.outbox == s.outbox + [p] <==> w.nodeB.Some?)
            && (w.nodeB == None ==> t.outbox == s.outbox)
  {
    hide Inv, Apply, TakePacket, PacketJson, Repeats;
    PacketLine(k, w, i, p);
    assert |w.sessions[i].outbox + [p]| != |w.sessions[i].outbox|;
    if w.nodeB.Some? {
      SlotOfNodeB(k, w, i, w.nodeB.value);
      PacketPassesOn(k, w, i, w.nodeB.value, p);
    } else {
      PacketStays(k, w, i, p);
    }
  }

  /** A repetition is dropped, also of a packet that was accepted but not forwarded. */
  lemma RepetitionIsDropped(k: Codec, w: World, i: nat, p: AccelPacket)
    requires Enabled(w, ReadOk(i, k.dump(PacketJson(p)))) && k.Faithful(PacketJson(p))
    requires w.sessions[i].role == ROLE_A && Repeats(w.sessions[i].last, p)
    ensures var v := Apply(k, w, ReadOk(i, k.dump(PacketJson(p))));
            && v.sessions[i].dropped == w.sessions[i].dropped + 1 && v.sessions[i].outbox == w.sessions[i].outbox
            && forall j | 0 <= j < |w.sessions| && j != i :: v.sessions[j] == w.sessions[j]
  {
    PacketLine(k, w, i, p);
    hide Apply, TakePacket, PacketJson, Repeats;
    PacketIsDropped(k, w, i, p);
  }

  // ---------------------------------------------------------------- a late read happens

  function WaitingForModule(line: string): World {
    World([Open(ROLE_A).(queue := [line], pendingWrites := [line], enqueued := [line]),
           Open(ROLE_B).(receivedModules := 1, forwardedModules := 1)], Some(0), Some(1))
  }

  /** Node A's session was closed by a write error while its read is pending. */
  function ClosedWithRead(line: string): World {
    World([Open(ROLE_A).(closed := true, socketOpen := false, enqueued := [line]),
           Open(ROLE_B).(receivedModules := 1, forwardedModules := 1)], None, Some(1))
  }

  lemma ModuleIsQueued(k: Codec, m: AccelModule)
    requires k.Faithful(ModuleJson(m))
    ensures Apply(k, BothNodes, ReadOk(1, k.dump(ModuleJson(m)))) == WaitingForModule(k.Line(ModuleJson(m)))
  {
    ModuleLine(k, BothNodes, 1, m);
    hide Apply, TakeModule, ModuleJson;
    ModulePassesOn(k, BothNodes, 1, 0, m);
    var line := k.Line(ModuleJson(m));
    assert [] + [line] == [line];
    assert Apply(k, BothNodes, ReadOk(1, k.dump(ModuleJson(m)))).sessions == WaitingForModule(line).sessions;
  }

  lemma WriteFails(k: Codec, line: string)
    ensures Apply(k, WaitingForModule(line), WriteError(0)) == ClosedWithRead(line)
  {
    assert [line][1..] == [];
    assert Apply(k, WaitingForModule(line), WriteError(0)).sessions == ClosedWithRead(line).sessions;
  }

  /** A run to a closed session of Node A that still has a line to handle, with Node B connected. */
  lemma LateReadsHappen(k: Codec, m: AccelModule)
    requires k.Faithful(HelloJson(ROLE_A)) && k.Faithful(HelloJson(ROLE_B)) && k.Faithful(ModuleJson(m))
    ensures exists es, w :: Run(k, EmptyWorld, es, w) && LateRead(w, 0) && w.sessions[0].role == ROLE_A && w.nodeB == Some(1)
  {
    hide Run, Apply, HandleLine;
    BothNodesCanRegister(k);
    var es :| Run(k, EmptyWorld, es, BothNodes);
    var line, read := k.Line(ModuleJson(m)), ReadOk(1, k.dump(ModuleJson(m)));
    RunStep(k, EmptyWorld, es, BothNodes, read);
    ModuleIsQueued(k, m);
    RunStep(k, EmptyWorld, es + [read], WaitingForModule(line), WriteError(0));
    WriteFails(k, line);
    assert LateRead(ClosedWithRead(line), 0);
  }
}
