/**
 Node A leaves and comes back while Node B stays: what Node B has still to answer or has answered already goes to
 the new Node A, whose log goes on behind the old one; what was on its way to the old one is lost.
 */
module PipelineRestart {
  import opened Basics
  import opened AccelPackets
  import opened JsonProtocol
  import opened Nodes
  import opened RelayModel
  import opened RelayInvariants
  import opened RelayEffects
  import opened Pipeline
  import opened PipelineTheorem

  /** The disconnect of Node A, a new connection, and its hello. */
  function Leaves(c: Setup): Event { ReadError(c.a) }

  function Hello(c: Setup, w: World): Event { ReadOk(|w.sessions|, c.k.dump(HelloJson("A"))) }

  function WithoutA(c: Setup, w: World): World
    requires RelayModel.Enabled(w, Leaves(c))
  {
    RelayModel.Apply(c.k, w, Leaves(c))
  }

  /** The server once the new client has registered. */
  function WithNewA(c: Setup, w: World): World
    requires RelayModel.Enabled(w, Leaves(c)) && |WithoutA(c, w).sessions| == |w.sessions|
  {
    var connected := RelayModel.Apply(c.k, WithoutA(c, w), Accept);
    RelayModel.Apply(c.k, connected, Hello(c, w))
  }

  lemma LeavingFreesTheSlot(c: Setup, w: World)
    requires Connected(c, w)
    ensures RelayModel.Enabled(w, Leaves(c))
    ensures var v := WithoutA(c, w);
            && Inv(c.k, v) && |v.sessions| == |w.sessions| && c.a < |w.sessions| && c.b < |w.sessions|
            && v.sessions == w.sessions[c.a := w.sessions[c.a].(closed := true, socketOpen := false, pendingReads := 0)]
            && v.nodeA == None && v.nodeB == Some(c.b)
  {
    OwnSessions(c, w);
    ErrorsCloseTheSession(c.k, w, c.a, Leaves(c));
    EventKeepsInv(c.k, w, Leaves(c));
    hide Inv, RelayModel.Apply;
  }

  /** One more client is connected, with this role and nothing to be written. */
  predicate Joined(v: World, u: World, role: string) {
    && |u.sessions| == |v.sessions| + 1 && u.sessions[..|v.sessions|] == v.sessions
    && u.sessions[|v.sessions|].role == role && u.sessions[|v.sessions|].queue == []
  }

  lemma ClientIsAccepted(c: Setup, v: World, t: World)
    requires t == RelayModel.Apply(c.k, v, Accept)
    ensures Joined(v, t, "") && t.nodeA == v.nodeA && t.nodeB == v.nodeB && RelayModel.Enabled(t, Hello(c, v))
  {}

  lemma HelloIsParsed(k: Codec)
    requires k.Faithful(HelloJson("A"))
    ensures var line := k.dump(HelloJson("A"));
            line != "" && k.parse(line).Some? && ClientRole(k.parse(line).value) == Success("A")
  {
    HelloRoundTrip("A");
    hide ClientRole, HelloJson, Reparsed;
  }

  lemma ClientIsTaken(k: Codec, t: World, j: nat, line: string)
    requires Inv(k, t) && RelayModel.Enabled(t, ReadOk(j, line)) && t.sessions[j].role == "" && t.nodeA == None
    requires line != "" && k.parse(line).Some? && ClientRole(k.parse(line).value) == Success("A")
    ensures var u := RelayModel.Apply(k, t, ReadOk(j, line));
            && Inv(k, u) && u.nodeA == Some(j) && u.nodeB == t.nodeB
            && u.sessions == t.sessions[j := t.sessions[j].(role := "A")]
  {
    EventKeepsInv(k, t, ReadOk(j, line));
    hide Inv, RelayModel.Apply, ClientRole;
    HellosTakeFreeSlots(k, t, j, line, "A");
  }

  lemma HelloRegisters(c: Setup, v: World, t: World)
    requires Inv(c.k, t) && Joined(v, t, "") && t.nodeA == None && c.k.Faithful(HelloJson("A"))
    requires RelayModel.Enabled(t, Hello(c, v))
    ensures var u := RelayModel.Apply(c.k, t, Hello(c, v));
            && Inv(c.k, u) && u.nodeA == Some(|v.sessions|) && u.nodeB == t.nodeB && Joined(v, u, "A")
  {
    HelloIsParsed(c.k);
    hide Inv, RelayModel.Apply, RelayModel.Enabled, ClientRole, HelloJson;
    ClientIsTaken(c.k, t, |v.sessions|, c.k.dump(HelloJson("A")));
  }

  lemma NewAJoins(c: Setup, w: World, v: World)
    requires Inv(c.k, v) && v.nodeA == None && |v.sessions| == |w.sessions| && c.k.Faithful(HelloJson("A"))
    ensures RelayModel.Enabled(RelayModel.Apply(c.k, v, Accept), Hello(c, w))
    ensures var u := RelayModel.Apply(c.k, RelayModel.Apply(c.k, v, Accept), Hello(c, w));
            && Inv(c.k, u) && u.nodeA == Some(|v.sessions|) && u.nodeB == v.nodeB && Joined(v, u, "A")
  {
    assert RelayModel.Enabled(v, Accept);
    hide Inv, RelayModel.Apply, RelayModel.Enabled, Joined;
    var t := RelayModel.Apply(c.k, v, Accept);
    EventKeepsInv(c.k, v, Accept);
    ClientIsAccepted(c, v, t);
    HelloRegisters(c, v, t);
  }

  lemma NewAIsConnected(c: Setup, w: World, v: World, u: World)
    requires Connected(c, w) && Inv(c.k, u) && u.nodeA == Some(|w.sessions|) && u.nodeB == Some(c.b)
    requires c.a < |w.sessions| && c.b < |w.sessions| && Joined(v, u, "A")
    requires v.sessions == w.sessions[c.a := w.sessions[c.a].(closed := true, socketOpen := false, pendingReads := 0)]
    ensures Connected(c.(a := |w.sessions|), u) && u.sessions[c.b] == w.sessions[c.b]
  {
    hide Inv;
    assert forall j | 0 <= j < |v.sessions| :: u.sessions[j] == u.sessions[..|v.sessions|][j];
  }

  /** The packets Node B has answered or has still to answer: the rest of those forwarded. */
  function Rest(c: Setup, s0: Pipeline.State, s: Pipeline.State): seq<AccelPacket>
    requires c.a < |s0.w.sessions| && c.b < |s0.w.sessions| && c.a < |s.w.sessions| && c.b < |s.w.sessions|
    requires Back(c, s0, s) <= |AllForwarded(c, s0, s)|
  {
    AllForwarded(c, s0, s)[Back(c, s0, s)..]
  }

  /** The state in which the new Node A starts; it has sent `sent`, of which the bytes `got` have arrived. */
  function Restarted(s: Pipeline.State, w: World, answered: nat, sent: seq<AccelPacket>, got: string, coming: string)
    : Pipeline.State
  {
    s.(w := w, sent := sent, bufAS := got, wireAS := coming, answered := answered, txA := 0, wireSA := "", bufA := "")
  }

  /**
   From every state of a pipeline run Node A can leave and come back, and this is a new start: the log so far stays,
   and behind it come exactly the modules the server has not read from Node B yet, in order.
   */
  lemma NodeACanReturn(c: Setup, s0: Pipeline.State, steps: seq<Pipeline.Step>, s: Pipeline.State,
                       sent: seq<AccelPacket>, got: string, coming: string)
    requires Start(c, s0) && Pipeline.Run(c, s0, steps, s) && c.k.Faithful(HelloJson("A"))
    requires AllPrintable(c, sent) && got + coming == PacketBytes(c.k, sent)
    ensures c.a < |s0.w.sessions| && c.b < |s0.w.sessions| && c.a < |s.w.sessions| && c.b < |s.w.sessions|
    ensures RelayModel.Enabled(s.w, Leaves(c)) && |WithoutA(c, s.w).sessions| == |s.w.sessions|
    ensures WithNewA(c, s.w).nodeA == Some(|s.w.sessions|) && WithNewA(c, s.w).nodeB == Some(c.b)
    ensures Back(c, s0, s) <= s.answered <= |AllForwarded(c, s0, s)|
    ensures var rest := Rest(c, s0, s);
            var d := c.(a := |s.w.sessions|, before := Before(s.log, rest, 0));
            var t := Restarted(s, WithNewA(c, s.w), s.answered - Back(c, s0, s), sent, got, coming);
            Start(d, t) && d.a < |t.w.sessions| && d.b < |t.w.sessions| && Stream(d, t) == s.log + ModulesOf(c, rest)
  {
    hide Pipeline.Run, Connected, RelayModel.Apply, Hops, Stream, Start, DataInv;
    PipelineHolds(c, s0, steps, s);
    LeavingFreesTheSlot(c, s.w);
    NewAJoins(c, s.w, WithoutA(c, s.w));
    NewAIsConnected(c, s.w, WithoutA(c, s.w), WithNewA(c, s.w));
    RunSays(c, s0, s);
    Renewal(c, s, ReadSince(c, s0, s), AllForwarded(c, s0, s), Back(c, s0, s), WithNewA(c, s.w), sent, got, coming);
  }

  lemma RunSays(c: Setup, s0: Pipeline.State, s: Pipeline.State)
    requires DataInv(c, s0, s)
    ensures c.a < |s0.w.sessions| && c.b < |s0.w.sessions| && c.a < |s.w.sessions| && c.b < |s.w.sessions|
    ensures AllPrintable(c, AllForwarded(c, s0, s))
    ensures Hops(c, s, ReadSince(c, s0, s), AllForwarded(c, s0, s), Back(c, s0, s))
  {
    ForwardedArePrintable(c, s0, s);
  }

  lemma Renewal(c: Setup, s: Pipeline.State, read: seq<AccelPacket>, fwd: seq<AccelPacket>, back: nat, w: World,
                sent: seq<AccelPacket>, got: string, coming: string)
    requires c.a < |s.w.sessions| && c.b < |s.w.sessions| && Hops(c, s, read, fwd, back) && AllPrintable(c, fwd)
    requires AllPrintable(c, sent) && got + coming == PacketBytes(c.k, sent)
    requires |w.sessions| == |s.w.sessions| + 1 && w.sessions[c.b] == B(c, s) && w.sessions[|s.w.sessions|].queue == []
    requires Connected(c.(a := |s.w.sessions|), w)
    ensures back <= s.answered <= |fwd|
    ensures var rest := fwd[back..];
            var d := c.(a := |s.w.sessions|, before := Before(s.log, rest, 0));
            var t := Restarted(s, w, s.answered - back, sent, got, coming);
            Start(d, t) && d.a < |t.w.sessions| && d.b < |t.w.sessions| && Stream(d, t) == s.log + ModulesOf(c, rest)
  {
    BackIsAnswered(c, s, read, fwd, back);
    var rest := fwd[back..];
    var d := c.(a := |s.w.sessions|, before := Before(s.log, rest, 0));
    var t := Restarted(s, w, s.answered - back, sent, got, coming);
    PrintableInBoth(c, d, sent, 0, |sent|);
    assert sent[0..|sent|] == sent;
    hide Connected, Stream, PacketBytes, ModuleBytes, ModulesOf, AllPrintable, Unsent, TxOk, Start, Hops;
    BehindB(c, s, read, fwd, back, d, t);
    Fresh(d, t, s.answered - back);
    StillConnected(c.(a := |s.w.sessions|), d.before, w);
    StartsAgain(d, t);
    StartStream(d, t);
    SameModules(c, d, rest);
  }

  /** What lies before and behind Node B is the same seen from the new beginning. */
  lemma BehindB(c: Setup, s: Pipeline.State, read: seq<AccelPacket>, fwd: seq<AccelPacket>, back: nat, d: Setup, t: Pipeline.State)
    requires c.a < |s.w.sessions| && c.b < |s.w.sessions| && Hops(c, s, read, fwd, back) && AllPrintable(c, fwd)
    requires d.k == c.k && d.root == c.root && d.b == c.b && c.b < |t.w.sessions| && t.w.sessions[c.b] == B(c, s)
    requires back <= s.answered && t.answered == s.answered - back
    requires t.bufB == s.bufB && t.wireSB == s.wireSB && t.txB == s.txB && t.bufBS == s.bufBS && t.wireBS == s.wireBS
    ensures s.answered <= |fwd| && AllPrintable(d, fwd[back..]) && DownToB(d, t, fwd[back..])
    ensures Carries(t.bufBS, t.wireBS, "", ModuleBytes(d, fwd[back..][..t.answered]))
  {
    SameTexts(c, d, fwd[back..s.answered]);
    PrintableInBoth(c, d, fwd, back, |fwd|);
    hide Carries, PacketBytes, ModuleBytes, Unsent, TxOk, ModulesOf, AllPrintable;
    Tails(fwd, back, s.answered);
  }

  lemma Tails(fwd: seq<AccelPacket>, back: nat, answered: nat)
    requires back <= answered <= |fwd|
    ensures fwd[back..][answered - back..] == fwd[answered..] && fwd[back..][..answered - back] == fwd[back..answered]
    ensures fwd[back..|fwd|] == fwd[back..]
  {}

  lemma BackIsAnswered(c: Setup, s: Pipeline.State, read: seq<AccelPacket>, fwd: seq<AccelPacket>, back: nat)
    requires c.a < |s.w.sessions| && c.b < |s.w.sessions| && Hops(c, s, read, fwd, back)
    ensures back <= s.answered <= |fwd|
  {}

  /** A beginning without anything between the server and Node A but what Node A has sent. */
  lemma Fresh(d: Setup, t: Pipeline.State, answered: nat)
    requires d.a < |t.w.sessions| && d.b < |t.w.sessions| && AllPrintable(d, t.sent) && d.before.back == 0
    requires t.log == d.before.log && t.answered == answered <= |d.before.packets|
    requires t.bufA == "" && t.wireSA == "" && t.txA == 0 && A(d, t).queue == []
    requires t.bufAS + t.wireAS == PacketBytes(d.k, t.sent)
    requires DownToB(d, t, d.before.packets) && Carries(t.bufBS, t.wireBS, "", ModuleBytes(d, d.before.packets[..answered]))
    ensures Hops(d, t, [], d.before.packets, 0)
  {
    EmptyLinks(d, 0);
    assert t.bufAS + t.wireAS + "" == t.bufAS + t.wireAS;
    assert Carries(t.bufAS, t.wireAS, "", PacketBytes(d.k, t.sent));
    hide Carries, PacketBytes, ModuleBytes, Unsent, TxOk, ModulesOf, AllPrintable, DownToB;
    var ps := d.before.packets;
    assert ps[0..answered] == ps[..answered] && ps[0..0] == [] && ps[..0] == [] && t.sent[0..] == t.sent && t.sent[..0] == [];
    assert t.log == d.before.log + [];
  }
}
