/** The pipeline invariant and what it means for module.log. */
module PipelineTheorem {
  import opened Basics
  import opened AccelPackets
  import opened JsonProtocol
  import opened DuplicateFilter
  import opened Framing
  import opened Nodes
  import opened RelayModel
  import opened RelayInvariants
  import opened RelayTheorems
  import opened Pipeline

  // ---------------------------------------------------------------- one hop at a time

  lemma Delivered(buffer: string, wire: string, rest: string, bytes: string, n: nat)
    requires n <= |wire| && Carries(buffer, wire, rest, bytes)
    ensures Carries(buffer + wire[..n], wire[n..], rest, bytes)
  {
    assert (buffer + wire[..n]) + wire[n..] == buffer + wire;
  }

  /** Bytes of the write in flight move to the wire. */
  lemma Transmitted(buffer: string, wire: string, queue: seq<string>, tx: nat, bytes: string, n: nat)
    requires queue != [] && tx + n <= |queue[0]| && Carries(buffer, wire, Unsent(queue, tx), bytes)
    ensures Carries(buffer, wire + queue[0][tx..tx + n], Unsent(queue, tx + n), bytes)
  {
    UnsentAfterTransmit(queue, tx, n);
    var x, y := queue[0][tx..tx + n], Unsent(queue, tx + n);
    assert buffer + (wire + x) + y == buffer + wire + (x + y);
  }

  /** The reader takes the line of `fwd[lo]`. */
  lemma PacketRead(c: Setup, buffer: string, wire: string, rest: string, fwd: seq<AccelPacket>, lo: nat)
    requires lo <= |fwd| && AllPrintable(c, fwd) && '\n' in buffer
    requires Carries(buffer, wire, rest, PacketBytes(c.k, fwd[lo..]))
    ensures lo < |fwd| && Printable(c, fwd[lo]) && FirstLine(buffer) == c.k.dump(PacketJson(fwd[lo]))
    ensures Carries(AfterLine(buffer), wire, rest, PacketBytes(c.k, fwd[lo + 1..]))
  {
    assert buffer + (wire + rest) == buffer + wire + rest;
    PacketLineArrives(c, buffer, wire + rest, fwd[lo..]);
    assert fwd[lo..][1..] == fwd[lo + 1..];
    assert AfterLine(buffer) + (wire + rest) == AfterLine(buffer) + wire + rest;
  }

  lemma ModuleRead(c: Setup, buffer: string, wire: string, rest: string, fwd: seq<AccelPacket>, lo: nat, hi: nat)
    requires lo <= hi <= |fwd| && AllPrintable(c, fwd) && '\n' in buffer
    requires Carries(buffer, wire, rest, ModuleBytes(c, fwd[lo..hi]))
    ensures lo < hi && Printable(c, fwd[lo])
    ensures FirstLine(buffer) == c.k.dump(ModuleJson(ModuleOf(c.root, fwd[lo])))
    ensures Carries(AfterLine(buffer), wire, rest, ModuleBytes(c, fwd[lo + 1..hi]))
  {
    assert buffer + (wire + rest) == buffer + wire + rest;
    ModuleLineArrives(c, buffer, wire + rest, fwd[lo..hi]);
    assert fwd[lo..hi][1..] == fwd[lo + 1..hi];
    assert AfterLine(buffer) + (wire + rest) == AfterLine(buffer) + wire + rest;
  }

  lemma JoinsQueue(buffer: string, wire: string, queue: seq<string>, tx: nat, bytes: string, line: string)
    requires TxOk(queue, tx) && Carries(buffer, wire, Unsent(queue, tx), bytes)
    ensures TxOk(queue + [line], tx) && Carries(buffer, wire, Unsent(queue + [line], tx), bytes + line)
  {
    UnsentAfterSend(queue, tx, line);
    assert buffer + wire + (Unsent(queue, tx) + line) == (buffer + wire + Unsent(queue, tx)) + line;
  }

  lemma JoinsWire(buffer: string, wire: string, bytes: string, line: string)
    requires Carries(buffer, wire, "", bytes)
    ensures Carries(buffer, wire + line, "", bytes + line)
  {
    assert buffer + (wire + line) + "" == (buffer + wire + "") + line;
  }

  /** A message for `p` joins the end of a queue. */
  lemma PacketQueued(c: Setup, buffer: string, wire: string, queue: seq<string>, tx: nat, fwd: seq<AccelPacket>, lo: nat, p: AccelPacket)
    requires lo <= |fwd| && TxOk(queue, tx)
    requires Carries(buffer, wire, Unsent(queue, tx), PacketBytes(c.k, fwd[lo..]))
    ensures var q := queue + [Written(c.k.dump(PacketJson(p)))];
            TxOk(q, tx) && Carries(buffer, wire, Unsent(q, tx), PacketBytes(c.k, (fwd + [p])[lo..]))
  {
    hide Carries, Unsent, TxOk, PacketBytes, ModuleBytes, Written, PacketJson, ModuleJson;
    JoinsQueue(buffer, wire, queue, tx, PacketBytes(c.k, fwd[lo..]), Written(c.k.dump(PacketJson(p))));
    BytesAppend(c, fwd[lo..], p);
    assert (fwd + [p])[lo..] == fwd[lo..] + [p];
  }

  lemma ModuleQueued(c: Setup, buffer: string, wire: string, queue: seq<string>, tx: nat, fwd: seq<AccelPacket>, lo: nat, hi: nat)
    requires lo <= hi < |fwd| && TxOk(queue, tx)
    requires Carries(buffer, wire, Unsent(queue, tx), ModuleBytes(c, fwd[lo..hi]))
    ensures var q := queue + [Written(c.k.dump(ModuleJson(ModuleOf(c.root, fwd[hi]))))];
            TxOk(q, tx) && Carries(buffer, wire, Unsent(q, tx), ModuleBytes(c, fwd[lo..hi + 1]))
  {
    hide Carries, Unsent, TxOk, PacketBytes, ModuleBytes, Written, PacketJson, ModuleJson;
    JoinsQueue(buffer, wire, queue, tx, ModuleBytes(c, fwd[lo..hi]), Written(c.k.dump(ModuleJson(ModuleOf(c.root, fwd[hi])))));
    BytesAppend(c, fwd[lo..hi], fwd[hi]);
    assert fwd[lo..hi + 1] == fwd[lo..hi] + [fwd[hi]];
  }

  lemma ModuleSent(c: Setup, buffer: string, wire: string, fwd: seq<AccelPacket>, lo: nat, hi: nat)
    requires lo <= hi < |fwd| && Carries(buffer, wire, "", ModuleBytes(c, fwd[lo..hi]))
    ensures Carries(buffer, wire + Written(c.k.dump(ModuleJson(ModuleOf(c.root, fwd[hi])))), "", ModuleBytes(c, fwd[lo..hi + 1]))
  {
    hide Carries, Unsent, TxOk, PacketBytes, ModuleBytes, Written, PacketJson, ModuleJson;
    JoinsWire(buffer, wire, ModuleBytes(c, fwd[lo..hi]), Written(c.k.dump(ModuleJson(ModuleOf(c.root, fwd[hi])))));
    BytesAppend(c, fwd[lo..hi], fwd[hi]);
    assert fwd[lo..hi + 1] == fwd[lo..hi] + [fwd[hi]];
  }

  // ---------------------------------------------------------------- all hops under single steps

  lemma SendKeepsAround(c: Setup, s: State, read: seq<AccelPacket>, fwd: seq<AccelPacket>, back: nat, p: AccelPacket)
    requires Pipeline.Enabled(c, s, SendPacket(p)) && Around(c, s, read, fwd, back)
    ensures Around(c, Pipeline.Apply(c, s, SendPacket(p)), read, fwd, back)
  {
    hide Carries, PacketBytes, ModuleBytes, Unsent;
    JoinsWire(s.bufAS, s.wireAS, PacketBytes(c.k, s.sent[|read|..]), Written(c.k.dump(PacketJson(p))));
    BytesAppend(c, s.sent[|read|..], p);
    assert (s.sent + [p])[|read|..] == s.sent[|read|..] + [p];
    assert (s.sent + [p])[..|read|] == s.sent[..|read|];
  }

  lemma DeliveryKeepsAround(c: Setup, s: State, read: seq<AccelPacket>, fwd: seq<AccelPacket>, back: nat, step: Step)
    requires step.DeliverAS? || step.DeliverBS? || step.DeliverA?
    requires Pipeline.Enabled(c, s, step) && Around(c, s, read, fwd, back)
    ensures Around(c, Pipeline.Apply(c, s, step), read, fwd, back)
  {
    hide Carries, PacketBytes, ModuleBytes, Unsent;
    match step
    case DeliverAS(n) => Delivered(s.bufAS, s.wireAS, "", PacketBytes(c.k, s.sent[|read|..]), n);
    case DeliverBS(n) => Delivered(s.bufBS, s.wireBS, "", ModuleBytes(c, fwd[back..s.answered]), n);
    case DeliverA(n) =>
      Delivered(s.bufA, s.wireSA, Unsent(A(c, s).queue, s.txA), ModuleBytes(c, fwd[Logged(c, s)..back]), n);
  }

  lemma TransmitKeepsAround(c: Setup, s: State, read: seq<AccelPacket>, fwd: seq<AccelPacket>, back: nat, n: nat)
    requires Pipeline.Enabled(c, s, TransmitA(n)) && Around(c, s, read, fwd, back) && QueueOk(A(c, s))
    ensures Around(c, Pipeline.Apply(c, s, TransmitA(n)), read, fwd, back)
  {
    hide Carries, PacketBytes, ModuleBytes, Unsent;
    Transmitted(s.bufA, s.wireSA, A(c, s).queue, s.txA, ModuleBytes(c, fwd[Logged(c, s)..back]), n);
  }

  /** The steps of the connection to Node B. */
  lemma DownToBKeepsHops(c: Setup, s: State, read: seq<AccelPacket>, fwd: seq<AccelPacket>, back: nat, step: Step)
    requires step.DeliverB? || step.TransmitB?
    requires Pipeline.Enabled(c, s, step) && Hops(c, s, read, fwd, back) && QueueOk(B(c, s))
    ensures Hops(c, Pipeline.Apply(c, s, step), read, fwd, back)
  {
    hide Carries, PacketBytes, ModuleBytes, Unsent;
    match step
    case DeliverB(n) =>
      Delivered(s.bufB, s.wireSB, Unsent(B(c, s).queue, s.txB), PacketBytes(c.k, fwd[s.answered..]), n);
    case TransmitB(n) =>
      Transmitted(s.bufB, s.wireSB, B(c, s).queue, s.txB, PacketBytes(c.k, fwd[s.answered..]), n);
  }

  lemma AnswerKeepsHops(c: Setup, s: State, read: seq<AccelPacket>, fwd: seq<AccelPacket>, back: nat)
    requires c.a < |s.w.sessions| && c.b < |s.w.sessions| && '\n' in s.bufB
    requires Hops(c, s, read, fwd, back) && AllPrintable(c, fwd)
    ensures s.answered < |fwd| && Printable(c, fwd[s.answered])
    ensures FirstLine(s.bufB) == c.k.dump(PacketJson(fwd[s.answered]))
    ensures var reply := Written(c.k.dump(ModuleJson(ModuleOf(c.root, fwd[s.answered]))));
            Hops(c, s.(bufB := AfterLine(s.bufB), wireBS := s.wireBS + reply, answered := s.answered + 1), read, fwd, back)
  {
    hide Carries, PacketBytes, ModuleBytes, Unsent;
    PacketRead(c, s.bufB, s.wireSB, Unsent(B(c, s).queue, s.txB), fwd, s.answered);
    ModuleSent(c, s.bufBS, s.wireBS, fwd, back, s.answered);
  }

  lemma LogKeepsAround(c: Setup, s: State, read: seq<AccelPacket>, fwd: seq<AccelPacket>, back: nat)
    requires c.a < |s.w.sessions| && '\n' in s.bufA
    requires Around(c, s, read, fwd, back) && AllPrintable(c, fwd)
    ensures Logged(c, s) < |fwd| && Printable(c, fwd[Logged(c, s)])
    ensures var m := ModuleOf(c.root, fwd[Logged(c, s)]);
            && FirstLine(s.bufA) == c.k.dump(ModuleJson(m))
            && Around(c, s.(bufA := AfterLine(s.bufA), log := s.log + [m]), read, fwd, back)
  {
    hide Carries, PacketBytes, ModuleBytes, Unsent;
    var n := Logged(c, s);
    ModuleRead(c, s.bufA, s.wireSA, Unsent(A(c, s).queue, s.txA), fwd, n, back);
    assert ModulesOf(c, fwd[..n]) + [ModuleOf(c.root, fwd[n])] == ModulesOf(c, fwd[..n + 1]);
  }

  /** Node B and Node A understand the lines meant for them. */
  lemma LinesAreUnderstood(c: Setup, p: AccelPacket)
    requires Printable(c, p)
    ensures PacketIn(c.k, c.k.dump(PacketJson(p))) == Some(p)
    ensures Reply(c.k, c.root, c.k.dump(PacketJson(p))) == Written(c.k.dump(ModuleJson(ModuleOf(c.root, p))))
    ensures ModuleIn(c.k, c.k.dump(ModuleJson(ModuleOf(c.root, p)))) == Some(ModuleOf(c.root, p))
  {
    PacketRoundTrip(p);
    ModuleRoundTrip(ModuleOf(c.root, p));
  }

  lemma WrittenKeepsHops(c: Setup, s: State, read: seq<AccelPacket>, fwd: seq<AccelPacket>, back: nat, i: nat, v: World)
    requires c.a < |s.w.sessions| && c.b < |s.w.sessions| && c.a != c.b
    requires Hops(c, s, read, fwd, back) && HeadWritten(c, s.w, i, v)
    ensures i == c.b && s.txB == |B(c, s).queue[0]| ==> Hops(c, s.(txB := 0, w := v), read, fwd, back)
    ensures i == c.a && s.txA == |A(c, s).queue[0]| ==> Hops(c, s.(txA := 0, w := v), read, fwd, back)
  {
    hide Carries, PacketBytes, ModuleBytes, Unsent;
    UnsentAfterWrite(s.w.sessions[i].queue);
  }

  lemma WrittenKeepsAround(c: Setup, s: State, read: seq<AccelPacket>, fwd: seq<AccelPacket>, back: nat, v: World)
    requires c.a < |s.w.sessions| && c.b < |s.w.sessions| && Around(c, s, read, fwd, back)
    requires HeadWritten(c, s.w, c.a, v) && s.txA == |A(c, s).queue[0]|
    ensures Around(c, s.(txA := 0, w := v), read, fwd, back)
  {
    hide Carries, PacketBytes, ModuleBytes, Unsent;
    UnsentAfterWrite(A(c, s).queue);
  }

  lemma AppendKeepsSlices(fwd: seq<AccelPacket>, p: AccelPacket, lo: nat, mid: nat, hi: nat)
    requires lo <= mid <= hi <= |fwd|
    ensures (fwd + [p])[mid..hi] == fwd[mid..hi] && (fwd + [p])[lo..mid] == fwd[lo..mid] && (fwd + [p])[..lo] == fwd[..lo]
  {}

  lemma PacketTakenKeepsHops(c: Setup, s: State, read: seq<AccelPacket>, fwd: seq<AccelPacket>, back: nat, v: World)
    requires c.a < |s.w.sessions| && c.b < |s.w.sessions| && c.a != c.b && '\n' in s.bufAS
    requires Hops(c, s, read, fwd, back)
    ensures |read| < |s.sent|
    ensures var p := s.sent[|read|];
            && Printable(c, p) && FirstLine(s.bufAS) == c.k.dump(PacketJson(p))
            && (PacketTaken(c, s.w, p, v) ==>
                  Hops(c, s.(bufAS := AfterLine(s.bufAS), w := v), read + [p],
                       if Repeats(A(c, s).last, p) then fwd else fwd + [p], back))
  {
    hide Carries, PacketBytes, ModuleBytes, Unsent;
    var n := |read|;
    PacketRead(c, s.bufAS, s.wireAS, "", s.sent, n);
    var p := s.sent[n];
    assert s.sent[..n + 1] == read + [p];
    if PacketTaken(c, s.w, p, v) && !Repeats(A(c, s).last, p) {
      PacketQueued(c, s.bufB, s.wireSB, B(c, s).queue, s.txB, fwd, s.answered, p);
      AppendKeepsSlices(fwd, p, Logged(c, s), back, s.answered);
    }
  }

  lemma ModuleTakenKeepsAround(c: Setup, s: State, read: seq<AccelPacket>, fwd: seq<AccelPacket>, back: nat, v: World)
    requires c.a < |s.w.sessions| && c.b < |s.w.sessions| && c.a != c.b && '\n' in s.bufBS
    requires Around(c, s, read, fwd, back) && AllPrintable(c, fwd)
    ensures back < |fwd|
    ensures var m := ModuleOf(c.root, fwd[back]);
            && Printable(c, fwd[back]) && FirstLine(s.bufBS) == c.k.dump(ModuleJson(m))
            && (ModuleTaken(c, s.w, m, v) ==>
                  Around(c, s.(bufBS := AfterLine(s.bufBS), w := v), read, fwd, back + 1))
  {
    hide Carries, PacketBytes, ModuleBytes, Unsent;
    ModuleRead(c, s.bufBS, s.wireBS, "", fwd, back, s.answered);
    ModuleQueued(c, s.bufA, s.wireSA, A(c, s).queue, s.txA, fwd, Logged(c, s), back);
  }

  // ---------------------------------------------------------------- the invariant under every step

  lemma AcceptedArePrintable(c: Setup, last: Option<AccelPacket>, ps: seq<AccelPacket>)
    requires AllPrintable(c, ps)
    ensures AllPrintable(c, Accepted(last, ps))
    decreases |ps|
  {
    if ps != [] {
      AcceptedArePrintable(c, if Repeats(last, ps[0]) then last else Some(ps[0]), ps[1..]);
    }
  }

  lemma ForwardedArePrintable(c: Setup, s0: State, s: State)
    requires DataInv(c, s0, s)
    ensures AllPrintable(c, ReadSince(c, s0, s)) && AllPrintable(c, AllForwarded(c, s0, s))
  {
    AcceptedArePrintable(c, A(c, s0).last, ReadSince(c, s0, s));
  }

  lemma StartInvariant(c: Setup, s: State)
    requires Start(c, s)
    ensures PipelineInv(c, s, s)
  {
    assert ReadSince(c, s, s) == [] && ForwardedSince(c, s, s) == [];
    assert c.before.packets + [] == c.before.packets;
  }

  lemma PacketTakenKeepsData(c: Setup, s0: State, s: State, v: World)
    requires DataInv(c, s0, s) && '\n' in s.bufAS
    ensures |ReadSince(c, s0, s)| < |s.sent|
    ensures var p := s.sent[|ReadSince(c, s0, s)|];
            && Printable(c, p) && FirstLine(s.bufAS) == c.k.dump(PacketJson(p))
            && (PacketTaken(c, s.w, p, v) ==> DataInv(c, s0, s.(bufAS := AfterLine(s.bufAS), w := v)))
  {
    hide Hops, Accepted, LastAccepted, PacketTaken;
    var read, fwd := ReadSince(c, s0, s), AllForwarded(c, s0, s);
    PacketTakenKeepsHops(c, s, read, fwd, Back(c, s0, s), v);
    var p, t := s.sent[|read|], s.(bufAS := AfterLine(s.bufAS), w := v);
    if PacketTaken(c, s.w, p, v) {
      SinceAfterPacket(c, s0, s, t, p);
      hide ReadSince, ForwardedSince, AllForwarded, Back, AllPrintable, Repeats;
      AcceptedAppend(A(c, s0).last, read, p);
    }
  }

  /** What a packet adds to the histories. */
  lemma SinceAfterPacket(c: Setup, s0: State, s: State, t: State, p: AccelPacket)
    requires DataInv(c, s0, s) && PacketTaken(c, s.w, p, t.w)
    ensures c.a < |t.w.sessions| && c.b < |t.w.sessions|
    ensures A(c, s0).inbox <= A(c, t).inbox && A(c, s0).outbox <= A(c, t).outbox
    ensures B(c, t).receivedModules == B(c, s).receivedModules && Back(c, s0, t) == Back(c, s0, s)
    ensures ReadSince(c, s0, t) == ReadSince(c, s0, s) + [p]
    ensures if Repeats(A(c, s).last, p)
            then ForwardedSince(c, s0, t) == ForwardedSince(c, s0, s) && AllForwarded(c, s0, t) == AllForwarded(c, s0, s)
                 && A(c, t).last == A(c, s).last
            else ForwardedSince(c, s0, t) == ForwardedSince(c, s0, s) + [p] && AllForwarded(c, s0, t) == AllForwarded(c, s0, s) + [p]
                 && A(c, t).last == Some(p)
  {
    hide Hops, Accepted, LastAccepted, Repeats;
    SinceAppend(A(c, s0).inbox, A(c, s).inbox, p);
    SinceAppend(A(c, s0).outbox, A(c, s).outbox, p);
    hide Since;
    var since := ForwardedSince(c, s0, s);
    assert c.before.packets + (since + [p]) == c.before.packets + since + [p];
  }

  lemma SinceAppend(before: seq<AccelPacket>, now: seq<AccelPacket>, p: AccelPacket)
    requires before <= now
    ensures before <= now + [p] && Since(before, now + [p]) == Since(before, now) + [p]
  {}

  lemma ModuleTakenKeepsData(c: Setup, s0: State, s: State, v: World)
    requires DataInv(c, s0, s) && '\n' in s.bufBS
    ensures var fwd, back := AllForwarded(c, s0, s), Back(c, s0, s);
            && back < |fwd| && Printable(c, fwd[back])
            && var m := ModuleOf(c.root, fwd[back]);
               && FirstLine(s.bufBS) == c.k.dump(ModuleJson(m))
               && (ModuleTaken(c, s.w, m, v) ==> DataInv(c, s0, s.(bufBS := AfterLine(s.bufBS), w := v)))
  {
    hide Around;
    var read, fwd := ReadSince(c, s0, s), AllForwarded(c, s0, s);
    ForwardedArePrintable(c, s0, s);
    ModuleTakenKeepsAround(c, s, read, fwd, Back(c, s0, s), v);
  }

  lemma WrittenKeepsData(c: Setup, s0: State, s: State, i: nat, v: World)
    requires DataInv(c, s0, s) && HeadWritten(c, s.w, i, v)
    ensures i == c.b && s.txB == |B(c, s).queue[0]| ==> DataInv(c, s0, s.(txB := 0, w := v))
    ensures i == c.a && s.txA == |A(c, s).queue[0]| ==> DataInv(c, s0, s.(txA := 0, w := v))
  {
    hide Hops;
    WrittenKeepsHops(c, s, ReadSince(c, s0, s), AllForwarded(c, s0, s),
                     Back(c, s0, s), i, v);
  }

  lemma ElsewhereKeepsData(c: Setup, s0: State, s: State, v: World)
    requires DataInv(c, s0, s) && c.a < |v.sessions| && c.b < |v.sessions|
    requires v.sessions[c.a] == A(c, s) && v.sessions[c.b] == B(c, s)
    ensures DataInv(c, s0, s.(w := v))
  {
    hide Carries, PacketBytes, ModuleBytes, Unsent;
  }

  /** Steps that leave the server and the connection to Node B alone. */
  lemma AroundStepKeepsAround(c: Setup, s: State, read: seq<AccelPacket>, fwd: seq<AccelPacket>, back: nat, step: Step)
    requires step.SendPacket? || step.NodeALogs? || step.TransmitA? || step.DeliverAS? || step.DeliverBS? || step.DeliverA?
    requires Pipeline.Enabled(c, s, step) && Around(c, s, read, fwd, back) && AllPrintable(c, fwd) && QueueOk(A(c, s))
    ensures Around(c, Pipeline.Apply(c, s, step), read, fwd, back)
  {
    hide Around, Carries, ModuleIn;
    if step.SendPacket? {
      SendKeepsAround(c, s, read, fwd, back, step.p);
    } else if step.NodeALogs? {
      LogKeepsAround(c, s, read, fwd, back);
      LinesAreUnderstood(c, fwd[Logged(c, s)]);
    } else if step.TransmitA? {
      TransmitKeepsAround(c, s, read, fwd, back, step.n);
    } else {
      DeliveryKeepsAround(c, s, read, fwd, back, step);
    }
  }

  /** Steps that leave the server alone. */
  lemma OutsideStepKeepsData(c: Setup, s0: State, s: State, step: Step)
    requires DataInv(c, s0, s) && Pipeline.Enabled(c, s, step) && QueueOk(A(c, s)) && QueueOk(B(c, s))
    requires !step.Elsewhere? && !step.ServerReadsA? && !step.ServerReadsB? && !step.WroteA? && !step.WroteB?
    ensures DataInv(c, s0, Pipeline.Apply(c, s, step))
  {
    hide Around, Carries, Reply, PacketIn, ModuleIn;
    var read, fwd := ReadSince(c, s0, s), AllForwarded(c, s0, s);
    var back := Back(c, s0, s);
    ForwardedArePrintable(c, s0, s);
    if step.NodeBAnswers? {
      hide DownToB;
      AnswerKeepsHops(c, s, read, fwd, back);
      LinesAreUnderstood(c, fwd[s.answered]);
    } else if step.DeliverB? || step.TransmitB? {
      hide DownToB;
      DownToBKeepsHops(c, s, read, fwd, back, step);
    } else {
      AroundStepKeepsAround(c, s, read, fwd, back, step);
    }
  }

  lemma ServerReadAKeepsInv(c: Setup, s0: State, s: State)
    requires PipelineInv(c, s0, s) && Pipeline.Enabled(c, s, ServerReadsA)
    ensures PipelineInv(c, s0, Pipeline.Apply(c, s, ServerReadsA))
  {
    var e := ReadOk(c.a, FirstLine(s.bufAS));
    var v := RelayModel.Apply(c.k, s.w, e);
    PacketTakenKeepsData(c, s0, s, v);
    ServerTakesPacket(c, s.w, s.sent[|ReadSince(c, s0, s)|]);
    EventKeepsInv(c.k, s.w, e);
    StaysConnected(c, s.w, v);
  }

  lemma ServerReadBKeepsInv(c: Setup, s0: State, s: State)
    requires PipelineInv(c, s0, s) && Pipeline.Enabled(c, s, ServerReadsB)
    ensures PipelineInv(c, s0, Pipeline.Apply(c, s, ServerReadsB))
  {
    var e := ReadOk(c.b, FirstLine(s.bufBS));
    var v := RelayModel.Apply(c.k, s.w, e);
    ModuleTakenKeepsData(c, s0, s, v);
    ServerTakesModule(c, s.w, ModuleOf(c.root, AllForwarded(c, s0, s)[Back(c, s0, s)]));
    EventKeepsInv(c.k, s.w, e);
    StaysConnected(c, s.w, v);
  }

  lemma WrittenKeepsInv(c: Setup, s0: State, s: State, step: Step)
    requires PipelineInv(c, s0, s) && Pipeline.Enabled(c, s, step) && (step.WroteB? || step.WroteA?)
    ensures PipelineInv(c, s0, Pipeline.Apply(c, s, step))
  {
    var i := if step.WroteB? then c.b else c.a;
    var v := RelayModel.Apply(c.k, s.w, WriteOk(i));
    OwnSessions(c, s.w);
    ServerWrites(c, s.w, i);
    WrittenKeepsData(c, s0, s, i, v);
    EventKeepsInv(c.k, s.w, WriteOk(i));
    StaysConnected(c, s.w, v);
  }

  lemma StepKeepsInv(c: Setup, s0: State, s: State, step: Step)
    requires PipelineInv(c, s0, s) && Pipeline.Enabled(c, s, step)
    ensures PipelineInv(c, s0, Pipeline.Apply(c, s, step))
  {
    hide DataInv;
    match step
    case ServerReadsA => ServerReadAKeepsInv(c, s0, s);
    case ServerReadsB => ServerReadBKeepsInv(c, s0, s);
    case WroteA => WrittenKeepsInv(c, s0, s, step);
    case WroteB => WrittenKeepsInv(c, s0, s, step);
    case Elsewhere(e) =>
      OthersDoNotInterfere(c, s.w, e);
      OwnSessions(c, RelayModel.Apply(c.k, s.w, e));
      ElsewhereKeepsData(c, s0, s, RelayModel.Apply(c.k, s.w, e));
    case _ =>
      OwnSessions(c, s.w);
      OutsideStepKeepsData(c, s0, s, step);
  }

  lemma {:induction false} PipelineHolds(c: Setup, s0: State, steps: seq<Step>, s: State)
    requires Start(c, s0) && Pipeline.Run(c, s0, steps, s)
    ensures PipelineInv(c, s0, s)
    decreases |steps|
  {
    if steps == [] {
      StartInvariant(c, s0);
    } else {
      var n := |steps| - 1;
      var u :| Pipeline.Run(c, s0, steps[..n], u) && Pipeline.Enabled(c, u, steps[n]) && s == Pipeline.Apply(c, u, steps[n]);
      PipelineHolds(c, s0, steps[..n], u);
      StepKeepsInv(c, s0, u, steps[n]);
    }
  }

  // ---------------------------------------------------------------- what it means

  lemma {:induction false} PacketsDecode(c: Setup, ps: seq<AccelPacket>)
    requires AllPrintable(c, ps)
    ensures Packets(c.k, PacketTexts(c.k, ps)) == ps
    ensures Modules(c.k, ModuleTexts(c, ps)) == ModulesOf(c, ps)
  {
    hide PacketIn, ModuleIn;
    if ps != [] {
      LinesAreUnderstood(c, ps[0]);
      PacketsDecode(c, ps[1..]);
      assert PacketTexts(c.k, ps)[1..] == PacketTexts(c.k, ps[1..]);
      assert ModuleTexts(c, ps)[1..] == ModuleTexts(c, ps[1..]);
      assert ModulesOf(c, ps) == [ModuleOf(c.root, ps[0])] + ModulesOf(c, ps[1..]);
    }
  }

  lemma StreamsDecode(c: Setup, ps: seq<AccelPacket>)
    requires AllPrintable(c, ps)
    ensures Packets(c.k, Lines(PacketBytes(c.k, ps))) == ps
    ensures Modules(c.k, Lines(ModuleBytes(c, ps))) == ModulesOf(c, ps)
  {
    TextsAreClean(c, ps);
    LinesOfWritten(PacketTexts(c.k, ps));
    LinesOfWritten(ModuleTexts(c, ps));
    PacketsDecode(c, ps);
  }

  /** The bytes between the server and Node B, read as packets. */
  function ToNodeB(c: Setup, s: State): seq<AccelPacket>
    requires c.b < |s.w.sessions|
  {
    Packets(c.k, Lines(s.bufB + s.wireSB + Unsent(B(c, s).queue, s.txB)))
  }

  /** The bytes between Node B and the server, and between the server and Node A, read as modules. */
  function FromNodeB(c: Setup, s: State): seq<AccelModule> {
    Modules(c.k, Lines(s.bufBS + s.wireBS))
  }

  function ToNodeA(c: Setup, s: State): seq<AccelModule>
    requires c.a < |s.w.sessions|
  {
    Modules(c.k, Lines(s.bufA + s.wireSA + Unsent(A(c, s).queue, s.txA)))
  }

  lemma HopsMeaning(c: Setup, s: State, read: seq<AccelPacket>, fwd: seq<AccelPacket>, back: nat)
    requires c.a < |s.w.sessions| && c.b < |s.w.sessions| && Hops(c, s, read, fwd, back) && AllPrintable(c, fwd)
    ensures s.log == c.before.log + ModulesOf(c, fwd[..Logged(c, s)])
    ensures ToNodeA(c, s) == ModulesOf(c, fwd[Logged(c, s)..back])
    ensures FromNodeB(c, s) == ModulesOf(c, fwd[back..s.answered])
    ensures ToNodeB(c, s) == fwd[s.answered..]
    ensures read + Packets(c.k, Lines(s.bufAS + s.wireAS)) == s.sent
  {
    hide PacketBytes, ModuleBytes, Unsent, Packets, Modules, Lines, Printable;
    StreamsDecode(c, fwd[Logged(c, s)..back]);
    StreamsDecode(c, fwd[back..s.answered]);
    StreamsDecode(c, fwd[s.answered..]);
    StreamsDecode(c, s.sent[|read|..]);
    assert s.bufBS + s.wireBS + "" == s.bufBS + s.wireBS;
    assert s.bufAS + s.wireAS + "" == s.bufAS + s.wireAS;
    assert s.sent[..|read|] + s.sent[|read|..] == s.sent;
  }

  lemma ModulesInParts(c: Setup, fwd: seq<AccelPacket>, i: nat, j: nat, k: nat)
    requires i <= j <= k <= |fwd|
    ensures ModulesOf(c, fwd[..i]) + ModulesOf(c, fwd[i..j]) + ModulesOf(c, fwd[j..k]) + ModulesOf(c, fwd[k..])
         == ModulesOf(c, fwd)
  {}

  /** The modules logged, and those still to come from the messages under way, in the order in which they will be logged. */
  function Stream(c: Setup, s: State): seq<AccelModule>
    requires c.a < |s.w.sessions| && c.b < |s.w.sessions|
  {
    s.log + ToNodeA(c, s) + FromNodeB(c, s) + ModulesOf(c, ToNodeB(c, s))
  }

  lemma StreamIs(c: Setup, s: State, read: seq<AccelPacket>, fwd: seq<AccelPacket>, back: nat)
    requires c.a < |s.w.sessions| && c.b < |s.w.sessions| && Hops(c, s, read, fwd, back) && AllPrintable(c, fwd)
    ensures Stream(c, s) == c.before.log + ModulesOf(c, fwd)
  {
    HopsMeaning(c, s, read, fwd, back);
    assert Logged(c, s) <= back <= s.answered <= |fwd|;
    hide Hops, ToNodeA, FromNodeB, ToNodeB, ModulesOf, AllPrintable;
    ModulesInParts(c, fwd, Logged(c, s), back, s.answered);
    Regrouped(c.before.log, ModulesOf(c, fwd[..Logged(c, s)]), ModulesOf(c, fwd[Logged(c, s)..back]),
              ModulesOf(c, fwd[back..s.answered]), ModulesOf(c, fwd[s.answered..]));
  }

  lemma Regrouped(l: seq<AccelModule>, w: seq<AccelModule>, x: seq<AccelModule>, y: seq<AccelModule>, z: seq<AccelModule>)
    ensures l + w + x + y + z == l + (w + x + y + z)
  {}

  /**
   The pipeline is a single FIFO: at every moment the logged modules, the modules on their way to
   Node A, those on their way from Node B, and the modules of the packets on their way to Node B are,
   in this order, what they were at the start, followed by the modules of the packets forwarded since; and these
   are exactly the packets read from Node A that differ from their predecessor. Nothing is lost, doubled or
   overtaken, whatever pieces the bytes arrive in and whatever other sessions do.
   */
  lemma PipelineIsInOrder(c: Setup, s0: State, steps: seq<Step>, s: State)
    requires Start(c, s0) && Pipeline.Run(c, s0, steps, s)
    ensures c.a < |s0.w.sessions| && c.b < |s0.w.sessions| && c.a < |s.w.sessions| && c.b < |s.w.sessions|
    ensures Stream(c, s) == Stream(c, s0) + ModulesOf(c, ForwardedSince(c, s0, s))
    ensures ForwardedSince(c, s0, s) == Consecutive(A(c, s0).last, ReadSince(c, s0, s))
    ensures ReadSince(c, s0, s) + Packets(c.k, Lines(s.bufAS + s.wireAS)) == s.sent
  {
    PipelineHolds(c, s0, steps, s);
    ForwardedArePrintable(c, s0, s);
    HopsMeaning(c, s, ReadSince(c, s0, s), AllForwarded(c, s0, s), Back(c, s0, s));
    StreamIs(c, s0, [], c.before.packets, c.before.back);
    StreamIs(c, s, ReadSince(c, s0, s), AllForwarded(c, s0, s), Back(c, s0, s));
    hide Hops, Stream, ToNodeA, FromNodeB, ToNodeB;
    ModulesOfBoth(c, c.before.packets, ForwardedSince(c, s0, s));
    AcceptedIsConsecutive(A(c, s0).last, ReadSince(c, s0, s));
  }

  lemma ModulesOfBoth(c: Setup, ps: seq<AccelPacket>, qs: seq<AccelPacket>)
    ensures c.before.log + ModulesOf(c, ps + qs) == c.before.log + ModulesOf(c, ps) + ModulesOf(c, qs)
  {
    assert ModulesOf(c, ps + qs) == ModulesOf(c, ps) + ModulesOf(c, qs);
  }

  /**
   When all bytes have arrived and all lines are handled, the log is what was to come at the start, followed by the
   modules of the de-duplicated packets sent.
   */
  lemma DrainedPipelineHasLoggedEverything(c: Setup, s0: State, steps: seq<Step>, s: State)
    requires Start(c, s0) && Pipeline.Run(c, s0, steps, s)
    requires c.a < |s.w.sessions| && c.b < |s.w.sessions| && A(c, s).queue == [] && B(c, s).queue == []
    requires s.wireAS == "" && s.bufAS == "" && s.wireSB == "" && s.bufB == ""
    requires s.wireBS == "" && s.bufBS == "" && s.wireSA == "" && s.bufA == ""
    ensures c.a < |s0.w.sessions| && c.b < |s0.w.sessions|
    ensures s.log == Stream(c, s0) + ModulesOf(c, Consecutive(A(c, s0).last, s.sent))
    ensures var n, ps := |Stream(c, s0)|, Consecutive(A(c, s0).last, s.sent);
            && |s.log| == n + |ps| && s.log[..n] == Stream(c, s0)
            && forall i | 0 <= i < |ps| :: Answers(c.root, ps[i], s.log[n + i])
  {
    PipelineIsInOrder(c, s0, steps, s);
    ModulesAnswer(c, Stream(c, s0), Consecutive(A(c, s0).last, s.sent));
    assert Stream(c, s) == s.log by { DrainedStream(c, s); }
    assert Lines("") == [] && "" + "" == "";
    assert ReadSince(c, s0, s) + [] == ReadSince(c, s0, s);
    hide Stream;
  }

  lemma ModulesAnswer(c: Setup, before: seq<AccelModule>, ps: seq<AccelPacket>)
    ensures var log := before + ModulesOf(c, ps);
            && |log| == |before| + |ps| && log[..|before|] == before
            && forall i | 0 <= i < |ps| :: Answers(c.root, ps[i], log[|before| + i])
  {
    hide ModuleOf, Answers;
    forall i | 0 <= i < |ps| ensures Answers(c.root, ps[i], ModulesOf(c, ps)[i]) {
      ModuleAnswers(c.root, ps[i], ModuleOf(c.root, ps[i]));
    }
  }

  lemma DrainedStream(c: Setup, s: State)
    requires c.a < |s.w.sessions| && c.b < |s.w.sessions| && A(c, s).queue == [] && B(c, s).queue == []
    requires s.wireSB == "" && s.bufB == "" && s.wireBS == "" && s.bufBS == "" && s.wireSA == "" && s.bufA == ""
    ensures Stream(c, s) == s.log
  {
    assert Lines("") == [];
    assert "" + "" + "" == "" && "" + "" == "";
  }

  lemma BothNodesKeepInv(k: Codec)
    requires k.Faithful(HelloJson(ROLE_A)) && k.Faithful(HelloJson(ROLE_B))
    ensures Inv(k, BothNodes)
  {
    hide Inv, RelayModel.Run;
    BothNodesCanRegister(k);
    var es :| RelayModel.Run(k, EmptyWorld, es, BothNodes);
    ReachableInv(k, es, BothNodes);
  }

  /** Both nodes have just registered; Node A has sent `sent` meanwhile, of which the bytes `got` have arrived. */
  function JustRegistered(sent: seq<AccelPacket>, got: string, coming: string): Pipeline.State {
    Pipeline.State(BothNodes, sent, coming, got, 0, "", "", 0, "", "", 0, "", "", [])
  }

  /** The runs above exist: after two hellos the pipeline can start, however many packets Node A has sent by then. */
  lemma PipelineCanStart(k: Codec, root: Root, sent: seq<AccelPacket>, got: string, coming: string)
    requires k.Faithful(HelloJson(ROLE_A)) && k.Faithful(HelloJson(ROLE_B)) && got + coming == PacketBytes(k, sent)
    requires forall p | p in sent :: k.Faithful(PacketJson(p)) && k.Faithful(ModuleJson(ModuleOf(root, p)))
    ensures exists es :: RelayModel.Run(k, EmptyWorld, es, BothNodes)
    ensures Start(Setup(k, root, 0, 1, Before([], [], 0)), JustRegistered(sent, got, coming))
  {
    assert AllPrintable(Setup(k, root, 0, 1, Before([], [], 0)), sent);
    hide Inv, RelayModel.Run, AllPrintable, Hops, PacketBytes;
    BothNodesCanRegister(k);
    BothNodesKeepInv(k);
    EmptyStart(Setup(k, root, 0, 1, Before([], [], 0)), JustRegistered(sent, got, coming));
  }

  lemma EmptyStart(c: Setup, s: Pipeline.State)
    requires Connected(c, s.w) && c.before == Before([], [], 0) && c.a < |s.w.sessions| && c.b < |s.w.sessions|
    requires AllPrintable(c, s.sent) && s.bufAS + s.wireAS == PacketBytes(c.k, s.sent)
    requires A(c, s).queue == [] && B(c, s).queue == [] && s.txA == 0 && s.txB == 0 && s.answered == 0 && s.log == []
    requires s.wireSB == "" && s.bufB == "" && s.wireBS == "" && s.bufBS == "" && s.wireSA == "" && s.bufA == ""
    ensures Start(c, s)
  {
    assert s.bufAS + s.wireAS + "" == s.bufAS + s.wireAS;
    assert Carries(s.bufAS, s.wireAS, "", PacketBytes(c.k, s.sent));
    EmptyLinks(c, 0);
    assert AllPrintable(c, []);
    hide Carries, PacketBytes, ModuleBytes, Unsent, TxOk, AllPrintable, Connected, Hops;
    FreshHops(c, s);
  }

  /** A beginning without anything between the server and Node B. */
  lemma FreshHops(d: Setup, t: Pipeline.State)
    requires d.a < |t.w.sessions| && d.b < |t.w.sessions| && AllPrintable(d, t.sent)
    requires t.log == d.before.log && t.answered == d.before.back == |d.before.packets|
    requires t.bufB == "" && t.wireSB == "" && t.bufBS == "" && t.wireBS == "" && t.txB == 0 && B(d, t).queue == []
    requires Carries(t.bufAS, t.wireAS, "", PacketBytes(d.k, t.sent))
    requires TxOk(A(d, t).queue, t.txA)
    requires Carries(t.bufA, t.wireSA, Unsent(A(d, t).queue, t.txA), ModuleBytes(d, d.before.packets))
    ensures Hops(d, t, [], d.before.packets, d.before.back)
  {
    EmptyLinks(d, 0);
    hide Carries, PacketBytes, ModuleBytes, Unsent, TxOk, ModulesOf, AllPrintable;
    SlicesOf(d.before.packets, d.before.back);
    SlicesOf(t.sent, |t.sent|);
    assert t.log == d.before.log + [];
  }

  lemma SlicesOf(ps: seq<AccelPacket>, n: nat)
    requires n == |ps|
    ensures ps[0..n] == ps && ps[n..n] == [] && ps[n..] == [] && ps[..0] == [] && ps[0..] == ps
  {}

  /** Connections that carry nothing. */
  lemma EmptyLinks(c: Setup, n: nat)
    ensures Carries("", "", Unsent([], n), PacketBytes(c.k, [])) && Carries("", "", Unsent([], n), ModuleBytes(c, []))
    ensures Carries("", "", "", ModuleBytes(c, [])) && TxOk([], 0) && ModulesOf(c, []) == []
  {
    assert PacketBytes(c.k, []) == "" && ModuleBytes(c, []) == "";
    assert "" + "" + "" == "";
  }

  lemma StillConnected(c: Setup, before: Before, w: World)
    requires Connected(c, w)
    ensures Connected(c.(before := before), w)
  {}

  lemma StartsAgain(c: Setup, s: Pipeline.State)
    requires Connected(c, s.w) && AllPrintable(c, c.before.packets) && s.log == c.before.log
    requires c.a < |s.w.sessions| && c.b < |s.w.sessions| && Hops(c, s, [], c.before.packets, c.before.back)
    ensures Start(c, s)
  {}

  lemma SameTexts(c: Setup, d: Setup, ps: seq<AccelPacket>)
    requires d.k == c.k && d.root == c.root
    ensures ModuleBytes(d, ps) == ModuleBytes(c, ps)
  {
    assert ModuleTexts(d, ps) == ModuleTexts(c, ps);
  }

  lemma PrintableInBoth(c: Setup, d: Setup, ps: seq<AccelPacket>, i: nat, j: nat)
    requires d.k == c.k && d.root == c.root && AllPrintable(c, ps) && i <= j <= |ps|
    ensures AllPrintable(d, ps[i..j])
  {
    forall p | p in ps[i..j] ensures Printable(d, p) { assert Printable(c, p); }
  }

  lemma StartStream(d: Setup, t: Pipeline.State)
    requires Start(d, t)
    ensures d.a < |t.w.sessions| && d.b < |t.w.sessions|
    ensures Stream(d, t) == t.log + ModulesOf(d, d.before.packets)
  {
    hide Connected, Hops, Stream, AllPrintable;
    OwnSessions(d, t.w);
    StreamIs(d, t, [], d.before.packets, d.before.back);
  }

  lemma SameModules(c: Setup, d: Setup, ps: seq<AccelPacket>)
    requires d.root == c.root
    ensures ModulesOf(d, ps) == ModulesOf(c, ps)
  {}
}
