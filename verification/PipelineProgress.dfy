/**
 The data path makes progress: whatever is under way moves on, every move brings the end closer, and when nothing
 can move any more everything has arrived. So the pipeline can always drain, and then module.log is complete.
 */
module PipelineProgress {
  import opened AccelPackets
  import opened DuplicateFilter
  import opened Framing
  import opened Nodes
  import opened RelayModel
  import opened RelayInvariants
  import opened RelayEffects
  import opened Pipeline
  import opened PipelineTheorem

  /** Steps that move a byte, a line or a message of the two nodes on; nothing new is sent. */
  predicate Moves(step: Pipeline.Step) {
    match step
    case SendPacket(_) => false
    case Elsewhere(_) => false
    case DeliverAS(n) => n > 0
    case TransmitB(n) => n > 0
    case DeliverB(n) => n > 0
    case DeliverBS(n) => n > 0
    case TransmitA(n) => n > 0
    case DeliverA(n) => n > 0
    case _ => true
  }

  /** Nothing is under way. */
  predicate Drained(c: Setup, s: Pipeline.State)
    requires c.a < |s.w.sessions| && c.b < |s.w.sessions|
  {
    && A(c, s).queue == [] && B(c, s).queue == []
    && s.wireAS == "" && s.bufAS == "" && s.wireSB == "" && s.bufB == ""
    && s.wireBS == "" && s.bufBS == "" && s.wireSA == "" && s.bufA == ""
  }

  /** Whatever happens at the server while both nodes are connected is a step, but for an error of one of their sessions. */
  lemma ServerEventsAreSteps(c: Setup, s: Pipeline.State, e: Event) returns (step: Pipeline.Step)
    requires Connected(c, s.w) && RelayModel.Enabled(s.w, e)
    requires e.ReadOk? && e.i == c.a ==> '\n' in s.bufAS && e.line == FirstLine(s.bufAS)
    requires e.ReadOk? && e.i == c.b ==> '\n' in s.bufBS && e.line == FirstLine(s.bufBS)
    requires e == WriteOk(c.a) ==> s.txA == |s.w.sessions[c.a].pendingWrites[0]|
    requires e == WriteOk(c.b) ==> s.txB == |s.w.sessions[c.b].pendingWrites[0]|
    requires e != ReadError(c.a) && e != WriteError(c.a) && e != ReadError(c.b) && e != WriteError(c.b)
    ensures Pipeline.Enabled(c, s, step) && Pipeline.Apply(c, s, step).w == RelayModel.Apply(c.k, s.w, e)
  {
    hide RelayModel.Apply, Inv, Lock, Holds, QueueOk, CanSend;
    OwnSessions(c, s.w);
    hide Connected;
    step := if e.Accept? || (e.i != c.a && e.i != c.b) then Elsewhere(e)
            else if e.ReadOk? then (if e.i == c.a then ServerReadsA else ServerReadsB)
            else if e.i == c.a then WroteA else WroteB;
  }

  // ---------------------------------------------------------------- what is still to be done

  /** Packets not read by the server, not answered, not back at the server and not logged, and messages queued. */
  function LinesToGo(c: Setup, s0: Pipeline.State, s: Pipeline.State): int
    requires c.a < |s0.w.sessions| && c.b < |s0.w.sessions| && c.a < |s.w.sessions| && c.b < |s.w.sessions|
  {
    var read, fwd, back := |ReadSince(c, s0, s)|, |AllForwarded(c, s0, s)|, Back(c, s0, s);
    6 * (|s.sent| - read) + 4 * (fwd - s.answered) + 3 * (s.answered - back) + (back - Logged(c, s))
    + |A(c, s).queue| + |B(c, s).queue|
  }

  function BytesToSend(c: Setup, s: Pipeline.State): nat
    requires c.a < |s.w.sessions| && c.b < |s.w.sessions|
  {
    |Unsent(A(c, s).queue, s.txA)| + |Unsent(B(c, s).queue, s.txB)|
  }

  function BytesOnTheWires(s: Pipeline.State): nat {
    |s.wireAS| + |s.wireSB| + |s.wireBS| + |s.wireSA|
  }

  /** Less is to be done in `t`: lines count before bytes to send, and these before bytes on the wires. */
  predicate Closer(c: Setup, s0: Pipeline.State, s: Pipeline.State, t: Pipeline.State)
    requires c.a < |s0.w.sessions| && c.b < |s0.w.sessions| && c.a < |s.w.sessions| && c.b < |s.w.sessions|
    requires c.a < |t.w.sessions| && c.b < |t.w.sessions|
  {
    || LinesToGo(c, s0, t) < LinesToGo(c, s0, s)
    || (LinesToGo(c, s0, t) == LinesToGo(c, s0, s)
        && (BytesToSend(c, t) < BytesToSend(c, s)
            || (BytesToSend(c, t) == BytesToSend(c, s) && BytesOnTheWires(t) < BytesOnTheWires(s))))
  }

  lemma SomethingToGo(c: Setup, s0: Pipeline.State, s: Pipeline.State)
    requires DataInv(c, s0, s)
    ensures LinesToGo(c, s0, s) >= 0
  {
    hide Carries, TxOk, Unsent, PacketBytes, ModuleBytes, ModulesOf, AllPrintable, Accepted, LastAccepted;
  }

  // ---------------------------------------------------------------- every move

  lemma DeliveriesComeCloser(c: Setup, s0: Pipeline.State, s: Pipeline.State, step: Pipeline.Step)
    requires DataInv(c, s0, s) && Pipeline.Enabled(c, s, step) && Moves(step)
    requires step.DeliverAS? || step.DeliverB? || step.DeliverBS? || step.DeliverA?
    ensures Closer(c, s0, s, Pipeline.Apply(c, s, step))
  {
    hide DataInv, Unsent;
  }

  lemma TransmissionsComeCloser(c: Setup, s0: Pipeline.State, s: Pipeline.State, step: Pipeline.Step)
    requires DataInv(c, s0, s) && Pipeline.Enabled(c, s, step) && Moves(step) && (step.TransmitA? || step.TransmitB?)
    requires QueueOk(A(c, s)) && QueueOk(B(c, s))
    ensures Closer(c, s0, s, Pipeline.Apply(c, s, step))
  {
    hide DataInv, Unsent;
    if step.TransmitA? {
      UnsentAfterTransmit(A(c, s).queue, s.txA, step.n);
    } else {
      UnsentAfterTransmit(B(c, s).queue, s.txB, step.n);
    }
  }

  lemma WritesComeCloser(c: Setup, s0: Pipeline.State, s: Pipeline.State, step: Pipeline.Step)
    requires PipelineInv(c, s0, s) && Pipeline.Enabled(c, s, step) && (step.WroteA? || step.WroteB?)
    ensures |Pipeline.Apply(c, s, step).w.sessions| == |s.w.sessions|
    ensures c.a < |s0.w.sessions| && c.b < |s0.w.sessions| && Closer(c, s0, s, Pipeline.Apply(c, s, step))
  {
    hide DataInv, RelayModel.Apply, Unsent, QueueOk, Lock, Holds, CanSend;
    assert c.a < |s0.w.sessions| && c.b < |s0.w.sessions| by { OwnSessions(c, s0.w); }
    ServerWrites(c, s.w, if step.WroteA? then c.a else c.b);
    hide Connected;
  }

  lemma NextLineIsAPacket(c: Setup, s0: Pipeline.State, s: Pipeline.State)
    requires DataInv(c, s0, s) && '\n' in s.bufB
    ensures PacketIn(c.k, FirstLine(s.bufB)).Some?
  {
    hide Unsent, PacketIn, PacketBytes, ModuleBytes, ModulesOf, Accepted, LastAccepted;
    ForwardedArePrintable(c, s0, s);
    var fwd := AllForwarded(c, s0, s);
    PacketRead(c, s.bufB, s.wireSB, Unsent(B(c, s).queue, s.txB), fwd, s.answered);
    LinesAreUnderstood(c, fwd[s.answered]);
  }

  lemma AnswersComeCloser(c: Setup, s0: Pipeline.State, s: Pipeline.State)
    requires DataInv(c, s0, s) && Pipeline.Enabled(c, s, NodeBAnswers)
    ensures Closer(c, s0, s, Pipeline.Apply(c, s, NodeBAnswers))
  {
    NextLineIsAPacket(c, s0, s);
    hide DataInv, Unsent, PacketIn, Reply;
  }

  lemma NextLineIsAModule(c: Setup, s0: Pipeline.State, s: Pipeline.State)
    requires DataInv(c, s0, s) && '\n' in s.bufA
    ensures ModuleIn(c.k, FirstLine(s.bufA)).Some? && |c.before.log| <= |s.log|
  {
    hide Unsent, ModuleIn, PacketBytes, ModuleBytes, ModulesOf, Accepted, LastAccepted;
    ForwardedArePrintable(c, s0, s);
    var fwd := AllForwarded(c, s0, s);
    ModuleRead(c, s.bufA, s.wireSA, Unsent(A(c, s).queue, s.txA), fwd, Logged(c, s), Back(c, s0, s));
    LinesAreUnderstood(c, fwd[Logged(c, s)]);
  }

  lemma LogsComeCloser(c: Setup, s0: Pipeline.State, s: Pipeline.State)
    requires DataInv(c, s0, s) && Pipeline.Enabled(c, s, NodeALogs)
    ensures Closer(c, s0, s, Pipeline.Apply(c, s, NodeALogs))
  {
    NextLineIsAModule(c, s0, s);
    hide DataInv, Unsent, ModuleIn;
  }

  lemma ReadsOfAComeCloser(c: Setup, s0: Pipeline.State, s: Pipeline.State)
    requires PipelineInv(c, s0, s) && Pipeline.Enabled(c, s, ServerReadsA)
    ensures |Pipeline.Apply(c, s, ServerReadsA).w.sessions| == |s.w.sessions|
    ensures c.a < |s0.w.sessions| && c.b < |s0.w.sessions| && Closer(c, s0, s, Pipeline.Apply(c, s, ServerReadsA))
  {
    hide RelayModel.Apply, Unsent, QueueOk, Lock, Holds, CanSend, Inv, Hops, Accepted, LastAccepted, Repeats;
    var v := RelayModel.Apply(c.k, s.w, ReadOk(c.a, FirstLine(s.bufAS)));
    PacketTakenKeepsData(c, s0, s, v);
    var p := s.sent[|ReadSince(c, s0, s)|];
    ServerTakesPacket(c, s.w, p);
    hide Connected, Printable;
  }

  lemma ReadsOfBComeCloser(c: Setup, s0: Pipeline.State, s: Pipeline.State)
    requires PipelineInv(c, s0, s) && Pipeline.Enabled(c, s, ServerReadsB)
    ensures |Pipeline.Apply(c, s, ServerReadsB).w.sessions| == |s.w.sessions|
    ensures c.a < |s0.w.sessions| && c.b < |s0.w.sessions| && Closer(c, s0, s, Pipeline.Apply(c, s, ServerReadsB))
  {
    hide RelayModel.Apply, Unsent, QueueOk, Lock, Holds, CanSend, Inv, Hops, Accepted, LastAccepted, Repeats;
    var v := RelayModel.Apply(c.k, s.w, ReadOk(c.b, FirstLine(s.bufBS)));
    ModuleTakenKeepsData(c, s0, s, v);
    ServerTakesModule(c, s.w, ModuleOf(c.root, AllForwarded(c, s0, s)[Back(c, s0, s)]));
    hide Connected, Printable;
  }

  /** Every move leaves less to be done, whatever pieces the bytes arrive in. */
  lemma MovesComeCloser(c: Setup, s0: Pipeline.State, s: Pipeline.State, step: Pipeline.Step)
    requires PipelineInv(c, s0, s) && Pipeline.Enabled(c, s, step) && Moves(step)
    ensures |Pipeline.Apply(c, s, step).w.sessions| == |s.w.sessions|
    ensures c.a < |s0.w.sessions| && c.b < |s0.w.sessions| && Closer(c, s0, s, Pipeline.Apply(c, s, step))
  {
    hide DataInv, Closer, RelayModel.Apply, QueueOk, Lock, Holds, CanSend, Inv;
    OwnSessions(c, s.w);
    OwnSessions(c, s0.w);
    hide Connected;
    match step
    case ServerReadsA => ReadsOfAComeCloser(c, s0, s);
    case ServerReadsB => ReadsOfBComeCloser(c, s0, s);
    case WroteA => WritesComeCloser(c, s0, s, step);
    case WroteB => WritesComeCloser(c, s0, s, step);
    case NodeBAnswers => AnswersComeCloser(c, s0, s);
    case NodeALogs => LogsComeCloser(c, s0, s);
    case TransmitA(_) => TransmissionsComeCloser(c, s0, s, step);
    case TransmitB(_) => TransmissionsComeCloser(c, s0, s, step);
    case _ => DeliveriesComeCloser(c, s0, s, step);
  }

  // ---------------------------------------------------------------- something can move

  lemma BytesHoldALine(lines: seq<string>)
    requires Flat(WrittenAll(lines)) != ""
    ensures '\n' in Flat(WrittenAll(lines))
  {
    var w := Written(lines[0]);
    assert w[|w| - 1] == '\n';
    assert Flat(WrittenAll(lines))[|w| - 1] == '\n';
  }

  lemma ReceivedIsALine(c: Setup, buffer: string, ps: seq<AccelPacket>)
    requires buffer != "" && (Carries(buffer, "", "", PacketBytes(c.k, ps)) || Carries(buffer, "", "", ModuleBytes(c, ps)))
    ensures '\n' in buffer
  {
    assert buffer + "" + "" == buffer;
    if Carries(buffer, "", "", PacketBytes(c.k, ps)) {
      BytesHoldALine(PacketTexts(c.k, ps));
    } else {
      BytesHoldALine(ModuleTexts(c, ps));
    }
  }

  /** A queue on whose connection something can be sent or its head is finished. */
  lemma QueueMoves(s: Session, tx: nat)
    requires QueueOk(s) && !s.closed && s.queue != [] && TxOk(s.queue, tx)
    ensures s.pendingWrites != [] && tx <= |s.pendingWrites[0]|
  {}

  /** What is under way can move. */
  lemma SomethingMoves(c: Setup, s0: Pipeline.State, s: Pipeline.State) returns (step: Pipeline.Step)
    requires PipelineInv(c, s0, s) && c.a < |s.w.sessions| && c.b < |s.w.sessions| && !Drained(c, s)
    ensures Pipeline.Enabled(c, s, step) && Moves(step)
  {
    hide Inv, Lock, QueueOk, Unsent, PacketBytes, ModuleBytes, ModulesOf, AllPrintable, Accepted, LastAccepted, Carries;
    OwnSessions(c, s.w);
    WhatMayComplete(c.k, s.w, c.a, "");
    WhatMayComplete(c.k, s.w, c.b, "");
    var fwd, back := AllForwarded(c, s0, s), Back(c, s0, s);
    hide Connected;
    if s.wireAS != "" {
      step := DeliverAS(|s.wireAS|);
    } else if s.wireSB != "" {
      step := DeliverB(|s.wireSB|);
    } else if s.wireBS != "" {
      step := DeliverBS(|s.wireBS|);
    } else if s.wireSA != "" {
      step := DeliverA(|s.wireSA|);
    } else if A(c, s).queue != [] {
      QueueMoves(A(c, s), s.txA);
      var head := A(c, s).pendingWrites[0];
      step := if s.txA == |head| then WroteA else TransmitA(|head| - s.txA);
    } else if B(c, s).queue != [] {
      QueueMoves(B(c, s), s.txB);
      var head := B(c, s).pendingWrites[0];
      step := if s.txB == |head| then WroteB else TransmitB(|head| - s.txB);
    } else if s.bufAS != "" {
      ReceivedIsALine(c, s.bufAS, s.sent[|ReadSince(c, s0, s)|..]);
      step := ServerReadsA;
    } else if s.bufB != "" {
      NothingUnsent();
      ReceivedIsALine(c, s.bufB, fwd[s.answered..]);
      step := NodeBAnswers;
    } else if s.bufBS != "" {
      ReceivedIsALine(c, s.bufBS, fwd[back..s.answered]);
      step := ServerReadsB;
    } else {
      NothingUnsent();
      ReceivedIsALine(c, s.bufA, fwd[Logged(c, s)..back]);
      step := NodeALogs;
    }
  }

  lemma NothingUnsent()
    ensures forall tx: nat :: Unsent([], tx) == ""
  {}

  /** In a state of a run, nothing can move if and only if nothing is under way: no line gets stuck. */
  lemma WhenNothingMoves(c: Setup, s0: Pipeline.State, s: Pipeline.State)
    requires PipelineInv(c, s0, s) && c.a < |s.w.sessions| && c.b < |s.w.sessions|
    ensures (forall step :: Moves(step) ==> !Pipeline.Enabled(c, s, step)) <==> Drained(c, s)
  {
    if !Drained(c, s) {
      var step := SomethingMoves(c, s0, s);
    } else {
      hide DataInv, Inv, Lock;
      OwnSessions(c, s.w);
      hide Connected;
    }
  }

  // ---------------------------------------------------------------- runs

  lemma {:induction false} RunPrepend(c: Setup, s: Pipeline.State, step: Pipeline.Step, rest: seq<Pipeline.Step>, t: Pipeline.State)
    requires Pipeline.Enabled(c, s, step) && Pipeline.Run(c, Pipeline.Apply(c, s, step), rest, t)
    ensures Pipeline.Run(c, s, [step] + rest, t)
    decreases |rest|
  {
    hide Pipeline.Enabled, Pipeline.Apply;
    var all := [step] + rest;
    if rest == [] {
      assert all[..0] == [] && Pipeline.Run(c, s, [], s);
    } else {
      var n := |rest| - 1;
      var s' := Pipeline.Apply(c, s, step);
      var u :| Pipeline.Run(c, s', rest[..n], u) && Pipeline.Enabled(c, u, rest[n]) && t == Pipeline.Apply(c, u, rest[n]);
      RunPrepend(c, s, step, rest[..n], u);
      assert all[..|all| - 1] == [step] + rest[..n];
    }
  }

  lemma {:induction false} RunJoin(c: Setup, s: Pipeline.State, first: seq<Pipeline.Step>, u: Pipeline.State,
                                   second: seq<Pipeline.Step>, t: Pipeline.State)
    requires Pipeline.Run(c, s, first, u) && Pipeline.Run(c, u, second, t)
    ensures Pipeline.Run(c, s, first + second, t)
    decreases |second|
  {
    hide Pipeline.Enabled, Pipeline.Apply;
    if second == [] {
      assert first + second == first;
    } else {
      var n := |second| - 1;
      var v :| Pipeline.Run(c, u, second[..n], v) && Pipeline.Enabled(c, v, second[n]) && t == Pipeline.Apply(c, v, second[n]);
      RunJoin(c, s, first, u, second[..n], v);
      assert (first + second)[..|first + second| - 1] == first + second[..n];
    }
  }

  predicate AllMove(steps: seq<Pipeline.Step>) {
    forall step | step in steps :: Moves(step)
  }

  lemma {:induction false} DrainsFrom(c: Setup, s0: Pipeline.State, s: Pipeline.State)
    returns (more: seq<Pipeline.Step>, t: Pipeline.State)
    requires c.a < |s0.w.sessions| && c.b < |s0.w.sessions| && c.a < |s.w.sessions| && c.b < |s.w.sessions|
    requires PipelineInv(c, s0, s)
    ensures AllMove(more) && Pipeline.Run(c, s, more, t) && t.sent == s.sent
    ensures c.a < |t.w.sessions| && c.b < |t.w.sessions| && Drained(c, t)
    decreases LinesToGo(c, s0, s), BytesToSend(c, s), BytesOnTheWires(s)
  {
    hide PipelineInv, Drained, Pipeline.Enabled, Pipeline.Apply, LinesToGo, BytesToSend, BytesOnTheWires, Moves;
    if Drained(c, s) {
      more, t := [], s;
    } else {
      var step := SomethingMoves(c, s0, s);
      var u := Pipeline.Apply(c, s, step);
      MovesComeCloser(c, s0, s, step);
      StepKeepsInv(c, s0, s, step);
      NothingIsSent(c, s, step);
      BothHaveSomethingToGo(c, s0, s, u);
      var rest;
      rest, t := DrainsFrom(c, s0, u);
      RunPrepend(c, s, step, rest, t);
      more := [step] + rest;
    }
  }

  lemma BothHaveSomethingToGo(c: Setup, s0: Pipeline.State, s: Pipeline.State, u: Pipeline.State)
    requires PipelineInv(c, s0, s) && PipelineInv(c, s0, u)
    requires c.a < |s0.w.sessions| && c.b < |s0.w.sessions| && c.a < |s.w.sessions| && c.b < |s.w.sessions|
    requires c.a < |u.w.sessions| && c.b < |u.w.sessions|
    ensures LinesToGo(c, s0, s) >= 0 && LinesToGo(c, s0, u) >= 0
  {
    hide DataInv, Connected, LinesToGo;
    SomethingToGo(c, s0, s);
    SomethingToGo(c, s0, u);
  }

  lemma NothingIsSent(c: Setup, s: Pipeline.State, step: Pipeline.Step)
    requires Pipeline.Enabled(c, s, step) && Moves(step)
    ensures Pipeline.Apply(c, s, step).sent == s.sent
  {
    hide RelayModel.Apply;
  }

  /**
   From every state of every run the pipeline can drain without anything new being sent, and then module.log holds one
   module for each of the de-duplicated packets sent, in order.
   */
  lemma PipelineCanDrain(c: Setup, s0: Pipeline.State, steps: seq<Pipeline.Step>, s: Pipeline.State)
    returns (more: seq<Pipeline.Step>, t: Pipeline.State)
    requires Start(c, s0) && Pipeline.Run(c, s0, steps, s)
    ensures AllMove(more) && Pipeline.Run(c, s, more, t)
    ensures c.a < |t.w.sessions| && c.b < |t.w.sessions| && Drained(c, t)
    ensures c.a < |s0.w.sessions| && c.b < |s0.w.sessions|
    ensures var n, ps := |Stream(c, s0)|, Consecutive(A(c, s0).last, s.sent);
            && |t.log| == n + |ps| && t.log[..n] == Stream(c, s0)
            && forall i | 0 <= i < |ps| :: Answers(c.root, ps[i], t.log[n + i])
  {
    PipelineHolds(c, s0, steps, s);
    OwnSessions(c, s0.w);
    OwnSessions(c, s.w);
    hide Start, Pipeline.Run, PipelineInv, Stream, Consecutive, Answers, ModulesOf;
    more, t := DrainsFrom(c, s0, s);
    RunJoin(c, s0, steps, s, more, t);
    DrainedPipelineHasLoggedEverything(c, s0, steps + more, t);
  }
}
