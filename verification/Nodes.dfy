/** The two client programs: Node B's compute loop and Node A's receive loop. */
module Nodes {
  import opened Basics
  import opened AccelPackets
  import opened JsonProtocol
  import opened Framing
  import opened TcpClients

  /** The square root, supplied by the floating-point library. */
  type Root = real -> real

  function ModuleOf(root: Root, p: AccelPacket): AccelModule {
    AccelModule(p.timestamp, root(p.x * p.x + p.y * p.y + p.z * p.z))
  }

  /** `m` has the timestamp of `p` and the length of its vector. */
  predicate Answers(root: Root, p: AccelPacket, m: AccelModule) {
    m.timestamp == p.timestamp && m.magnitude == root(p.x * p.x + p.y * p.y + p.z * p.z)
  }

  lemma ModuleAnswers(root: Root, p: AccelPacket, m: AccelModule)
    ensures Answers(root, p, m) <==> m == ModuleOf(root, p)
  {}

  /** The packet in a line received by Node B; every other line is skipped. */
  function PacketIn(codec: Codec, line: string): Option<AccelPacket> {
    match codec.parse(line)
    case None => None
    case Some(json) =>
      if MessageType(json) != Success(TYPE_ACCEL) then None
      else match ParseAccelPacket(json)
        case Failure(_) => None
        case Success(p) => Some(p)
  }

  /** The module in a line received by Node A; every other line is skipped. */
  function ModuleIn(codec: Codec, line: string): Option<AccelModule> {
    match codec.parse(line)
    case None => None
    case Some(json) =>
      if MessageType(json) != Success(TYPE_MODULE) then None
      else match ParseAccelModule(json)
        case Failure(_) => None
        case Success(m) => Some(m)
  }

  /** Node B takes exactly the packet messages, Node A exactly the module messages. */
  lemma LinesThatAreMessages(codec: Codec, line: string, p: AccelPacket, m: AccelModule)
    ensures PacketIn(codec, line) == Some(p) <==> codec.parse(line).Some? && ParseAccelPacket(codec.parse(line).value) == Success(p)
    ensures ModuleIn(codec, line) == Some(m) <==> codec.parse(line).Some? && ParseAccelModule(codec.parse(line).value) == Success(m)
  {
    if codec.parse(line).Some? { AtMostOneKind(codec.parse(line).value); }
    hide ParseAccelPacket, ParseAccelModule, MessageType;
  }

  /** Node B's answer to one line. */
  function Reply(codec: Codec, root: Root, line: string): string {
    match PacketIn(codec, line)
    case None => ""
    case Some(p) => Written(codec.dump(ModuleJson(ModuleOf(root, p))))
  }

  /** What Node B answers to the lines of a stream. */
  function Replies(codec: Codec, root: Root, lines: seq<string>): string {
    if lines == [] then "" else Reply(codec, root, lines[0]) + Replies(codec, root, lines[1..])
  }

  /** One line for each packet: the module that answers it. */
  ghost predicate AnswerLines(codec: Codec, root: Root, ps: seq<AccelPacket>, ms: seq<AccelModule>, texts: seq<string>) {
    && |ms| == |ps| && |texts| == |ps|
    && forall i | 0 <= i < |ps| :: Answers(root, ps[i], ms[i]) && texts[i] == codec.dump(ModuleJson(ms[i]))
  }

  lemma OneMoreAnswer(codec: Codec, root: Root, p: AccelPacket, ps: seq<AccelPacket>, ms: seq<AccelModule>, texts: seq<string>)
    requires AnswerLines(codec, root, ps, ms, texts)
    ensures var m := ModuleOf(root, p);
            AnswerLines(codec, root, [p] + ps, [m] + ms, [codec.dump(ModuleJson(m))] + texts)
  {
    ModuleAnswers(root, p, ModuleOf(root, p));
    hide ModuleJson, Answers, ModuleOf;
  }

  lemma OneMoreText(text: string, rest: seq<string>)
    ensures Flat(WrittenAll([text] + rest)) == Written(text) + Flat(WrittenAll(rest))
  {
    hide Written;
    assert WrittenAll([text] + rest)[1..] == WrittenAll(rest);
  }

  lemma {:induction false} RepliesAnswerThePackets(codec: Codec, root: Root, lines: seq<string>)
    returns (ms: seq<AccelModule>, texts: seq<string>)
    ensures AnswerLines(codec, root, Packets(codec, lines), ms, texts)
    ensures Replies(codec, root, lines) == Flat(WrittenAll(texts))
    decreases |lines|
  {
    hide PacketIn, ModuleJson, Written, Answers, ModuleOf;
    ms, texts := [], [];
    if lines != [] {
      hide AnswerLines, Flat, WrittenAll;
      ms, texts := RepliesAnswerThePackets(codec, root, lines[1..]);
      match PacketIn(codec, lines[0])
      case None =>
      case Some(p) =>
        var m, rest := ModuleOf(root, p), texts;
        OneMoreAnswer(codec, root, p, Packets(codec, lines[1..]), ms, rest);
        ms, texts := [m] + ms, [codec.dump(ModuleJson(m))] + rest;
        OneMoreText(codec.dump(ModuleJson(m)), rest);
    }
  }

  /** The packets in the lines of a stream. */
  function Packets(codec: Codec, lines: seq<string>): seq<AccelPacket> {
    if lines == [] then []
    else (match PacketIn(codec, lines[0])
          case None => []
          case Some(p) => [p]) + Packets(codec, lines[1..])
  }

  /** What Node A logs from the lines of a stream. */
  function Modules(codec: Codec, lines: seq<string>): seq<AccelModule> {
    if lines == [] then []
    else (match ModuleIn(codec, lines[0])
          case None => []
          case Some(m) => [m]) + Modules(codec, lines[1..])
  }

  lemma RepliesStep(codec: Codec, root: Root, stream: string)
    requires '\n' in stream
    ensures Replies(codec, root, Lines(stream))
         == Reply(codec, root, FirstLine(stream)) + Replies(codec, root, Lines(AfterLine(stream)))
  {
    assert Lines(stream)[1..] == Lines(AfterLine(stream));
  }

  /** Sending `x` and then as much of `y` as still fits is sending as much of both as fits. */
  lemma SendInParts(before: string, x: string, y: string, room: nat)
    ensures |x| <= room ==> (before + x) + Take(y, room - |x|) == before + Take(x + y, room)
    ensures |x| > room ==> Take(x, room) == Take(x + y, room)
  {
    if |x| <= room {
      assert Take(x + y, room) == x + Take(y, room - |x|);
    }
  }

  class NodeB {
    const codec: Codec
    const root: Root

    constructor (codec: Codec, root: Root)
      ensures this.codec == codec && this.root == root
    {
      this.codec, this.root := codec, root;
    }

    /** One turn of the loop: read a line and answer it. */
    method Serve(client: TcpClient) returns (go: bool, answered: nat)
      requires client.open
      modifies client
      ensures client.open == go
      ensures go ==> '\n' in old(client.Unread()) && client.Unread() == AfterLine(old(client.Unread()))
      ensures go ==> var reply := Reply(codec, root, FirstLine(old(client.Unread())));
                     && client.outgoing == old(client.outgoing) + reply
                     && client.room + |reply| == old(client.room)
                     && (answered == 0 <==> reply == "")
      ensures go ==> match PacketIn(codec, FirstLine(old(client.Unread())))
                     case None => answered == 0 && client.outgoing == old(client.outgoing)
                     case Some(p) =>
                       && answered == 1
                       && (exists m :: && Answers(root, p, m)
                                       && client.outgoing == old(client.outgoing) + Written(codec.dump(ModuleJson(m))))
      ensures !go ==> client.outgoing == old(client.outgoing)
                                       + Take(Replies(codec, root, Lines(old(client.Unread()))), old(client.room))
      ensures answered <= 1
    {
      hide Answers, ModuleOf, ModuleJson;
      ghost var before, stream, room := client.outgoing, client.Unread(), client.room;
      var ok, line := client.ReadLine();
      if !ok {
        client.Close();
        return false, 0;
      }
      RepliesStep(codec, root, stream);
      var p := PacketIn(codec, line);
      if p.None? {
        return true, 0;
      }
      ModuleAnswers(root, p.value, ModuleOf(root, p.value));
      ghost var reply, rest := Reply(codec, root, line), Replies(codec, root, Lines(client.Unread()));
      SendInParts(before, reply, rest, room);
      ok := client.WriteLine(codec.dump(ModuleJson(ModuleOf(root, p.value))));
      if !ok {
        client.Close();
        return false, 0;
      }
      return true, 1;
    }

    /**
     The endless loop: it ends when the stream does or when a reply no longer fits the connection.
     However the input is cut into chunks, the bytes sent are the replies to its lines, in order,
     as far as the connection took them.
     */
    method Run(client: TcpClient)
      requires client.open
      modifies client
      ensures !client.open
      ensures client.outgoing
           == old(client.outgoing) + Take(Replies(codec, root, Lines(old(client.Unread()))), old(client.room))
      ensures exists ms, texts :: AnswerLines(codec, root, Packets(codec, Lines(old(client.Unread()))), ms, texts)
                && client.outgoing == old(client.outgoing) + Take(Flat(WrittenAll(texts)), old(client.room))
    {
      hide Answers, ModuleOf, ModuleJson, AnswerLines;
      ghost var ms, texts := RepliesAnswerThePackets(codec, root, Lines(client.Unread()));
      ghost var before, room, all := client.outgoing, client.room, Replies(codec, root, Lines(client.Unread()));
      var go := true;
      while go
        invariant client.open == go
        invariant if go
                  then before + Take(all, room)
                    == client.outgoing + Take(Replies(codec, root, Lines(client.Unread())), client.room)
                  else client.outgoing == before + Take(all, room)
        decreases go, |client.Unread()|
      {
        ghost var sent, stream, left := client.outgoing, client.Unread(), client.room;
        var answered;
        go, answered := Serve(client);
        if go {
          RepliesStep(codec, root, stream);
          SendInParts(sent, Reply(codec, root, FirstLine(stream)), Replies(codec, root, Lines(client.Unread())), left);
        }
      }
    }
  }

  /** The lines a reader gets to see in `rounds` attempts. */
  function LinesSeen(open: bool, lines: seq<string>, rounds: nat): seq<string> {
    if !open then [] else if rounds <= |lines| then lines[..rounds] else lines
  }

  /** The tests of the loop before the first one that finds the flag down. */
  function UpTests(flags: seq<bool>): nat {
    if flags == [] || !flags[0] then 0 else 1 + UpTests(flags[1..])
  }

  class NodeA {
    const codec: Codec
    var log: seq<AccelModule>

    constructor (codec: Codec, log: seq<AccelModule>)
      ensures this.codec == codec && this.log == log
    {
      this.codec, this.log := codec, log;
    }

    /**
     The receive loop; `flags` is the shared running flag as it is seen at each test of the loop. The result says
     whether the loop left the flag alone; it clears it when a read fails.
     */
    method ReceiveModules(client: TcpClient, flags: seq<bool>) returns (running: bool)
      modifies this`log, client
      ensures log == old(log) + Modules(codec, LinesSeen(old(client.open), Lines(old(client.Unread())), UpTests(flags)))
      ensures running <==> |LinesSeen(old(client.open), Lines(old(client.Unread())), UpTests(flags))| == UpTests(flags)
    {
      hide ModuleIn;
      running := true;
      ghost var lines := Lines(client.Unread());
      var k: nat := 0;
      while k < |flags| && flags[k]
        invariant k <= |flags| && k <= UpTests(flags) && UpTests(flags) == k + UpTests(flags[k..])
        invariant client.open == old(client.open)
        invariant k <= |lines| && Lines(client.Unread()) == lines[k..]
        invariant k > 0 ==> client.open
        invariant log == old(log) + Modules(codec, lines[..k])
      {
        ghost var stream := client.Unread();
        assert flags[k..][1..] == flags[k + 1..];
        var ok, line := client.ReadLine();
        if !ok {
          running := false;
          assert LinesSeen(old(client.open), lines, UpTests(flags)) == lines[..k];
          return;
        }
        assert line == Lines(stream)[0] == lines[k];
        assert Lines(client.Unread()) == Lines(stream)[1..] == lines[k + 1..];
        ModulesAppend(codec, lines[..k], line);
        assert lines[..k] + [line] == lines[..k + 1];
        k := k + 1;
        var m := ModuleIn(codec, line);
        if m.Some? { log := log + [m.value]; }
      }
      assert LinesSeen(old(client.open), lines, UpTests(flags)) == lines[..k];
    }

    /** The send loop over the generated packets: it ends when one no longer fits the connection. */
    method SendPackets(client: TcpClient, packets: seq<AccelPacket>) returns (sent: nat)
      requires client.open
      modifies client
      ensures sent <= |packets|
      ensures client.outgoing == old(client.outgoing) + Take(PacketBytes(codec, packets), old(client.room))
      ensures sent < |packets| ==> !client.open && client.room == 0
      ensures |PacketBytes(codec, packets[..sent])| <= old(client.room)
    {
      sent := 0;
      ghost var before, room := client.outgoing, client.room;
      assert PacketBytes(codec, packets[..0]) == "" && before + "" == before;
      while sent < |packets|
        invariant client.open && sent <= |packets|
        invariant var done := PacketBytes(codec, packets[..sent]);
                  client.outgoing == before + done && client.room + |done| == room
      {
        ghost var done, next := PacketBytes(codec, packets[..sent]), Written(codec.dump(PacketJson(packets[sent])));
        PacketBytesSplit(codec, packets, sent);
        SendInParts(before, done, next, room);
        SendInParts(before, done + next, PacketBytes(codec, packets[sent + 1..]), room);
        var ok := client.WriteLine(codec.dump(PacketJson(packets[sent])));
        if !ok {
          client.Close();
          return;
        }
        sent := sent + 1;
      }
      assert packets[..sent] == packets;
    }
  }

  function PacketTexts(codec: Codec, ps: seq<AccelPacket>): seq<string> {
    seq(|ps|, i requires 0 <= i < |ps| => codec.dump(PacketJson(ps[i])))
  }

  /** The bytes Node A sends for its packets. */
  function PacketBytes(codec: Codec, ps: seq<AccelPacket>): string {
    Flat(WrittenAll(PacketTexts(codec, ps)))
  }

  lemma PacketBytesSplit(codec: Codec, ps: seq<AccelPacket>, n: nat)
    requires n < |ps|
    ensures var next := Written(codec.dump(PacketJson(ps[n])));
            && PacketBytes(codec, ps[..n + 1]) == PacketBytes(codec, ps[..n]) + next
            && PacketBytes(codec, ps) == (PacketBytes(codec, ps[..n]) + next) + PacketBytes(codec, ps[n + 1..])
  {
    var all := WrittenAll(PacketTexts(codec, ps));
    assert WrittenAll(PacketTexts(codec, ps[..n])) == all[..n];
    assert WrittenAll(PacketTexts(codec, ps[..n + 1])) == all[..n] + [all[n]];
    assert WrittenAll(PacketTexts(codec, ps[n + 1..])) == all[n + 1..];
    FlatAppend(all[..n], all[n]);
    assert (all[..n] + [all[n]]) + all[n + 1..] == all;
    FlatConcat(all[..n] + [all[n]], all[n + 1..]);
  }

  lemma {:induction false} ModulesAppend(codec: Codec, lines: seq<string>, line: string)
    ensures Modules(codec, lines + [line])
         == Modules(codec, lines) + (match ModuleIn(codec, line) case None => [] case Some(m) => [m])
  {
    if lines == [] {
      assert [] + [line] == [line] && [line][1..] == [];
    } else {
      assert (lines + [line])[1..] == lines[1..] + [line];
      ModulesAppend(codec, lines[1..], line);
    }
  }
}
