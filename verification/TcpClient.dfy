/**
 The blocking client of both nodes (tcp_client.cpp). The network is part of the object: the
 chunks the peer's bytes will arrive in, the bytes sent so far, and how many bytes the connection
 accepts before it breaks.
 */
module TcpClients {
  import opened Framing

  function Take(s: string, n: nat): string {
    if n <= |s| then s[..n] else s
  }

  /** The longest prefix of at most `n` bytes. */
  lemma TakesAPrefix(s: string, n: nat)
    ensures Take(s, n) <= s && |Take(s, n)| == if n <= |s| then n else |s|
  {}

  class TcpClient {
    var open: bool
    var buffer: string
    var incoming: seq<string>
    var outgoing: string
    var room: nat

    constructor (incoming: seq<string>, room: nat)
      ensures open && buffer == "" && outgoing == ""
      ensures this.incoming == incoming && this.room == room
    {
      open, buffer, outgoing := true, "", "";
      this.incoming, this.room := incoming, room;
    }

    /** Everything that can still be read. */
    ghost function Unread(): string
      reads this
    {
      buffer + Flat(incoming)
    }

    /** Reads up to a newline, whatever chunks it arrives in; fails at the end of the stream. */
    method ReadLine() returns (ok: bool, line: string)
      modifies this`buffer, this`incoming
      ensures ok == (open && '\n' in old(Unread()))
      ensures ok ==> line == FirstLine(old(Unread())) && Unread() == AfterLine(old(Unread()))
      ensures !ok ==> line == "" && Unread() == old(Unread())
    {
      line := "";
      if !open { return false, line; }
      while '\n' !in buffer
        invariant Unread() == old(Unread())
        decreases |incoming|
      {
        if incoming == [] {
          assert Unread() == buffer + "" == buffer;
          return false, line;
        }
        assert (buffer + incoming[0]) + Flat(incoming[1..]) == buffer + Flat(incoming);
        buffer, incoming := buffer + incoming[0], incoming[1..];
      }
      FirstLineOfMore(buffer, Flat(incoming));
      ok, line, buffer := true, FirstLine(buffer), AfterLine(buffer);
    }

    /** Writes a line; when the connection breaks only a prefix of its bytes leaves. */
    method WriteLine(line: string) returns (ok: bool)
      modifies this`outgoing, this`room
      ensures ok == (open && |Written(line)| <= old(room))
      ensures open ==> outgoing == old(outgoing) + Take(Written(line), old(room))
      ensures !open ==> outgoing == old(outgoing)
      ensures room == old(room) - (|outgoing| - |old(outgoing)|)
    {
      if !open { return false; }
      var message := line;
      if message == "" || message[|message| - 1] != '\n' {
        message := message + "\n";
      }
      ok := |message| <= room;
      var sent := Take(message, room);
      outgoing, room := outgoing + sent, room - |sent|;
    }

    method Close()
      modifies this`open
      ensures !open
    {
      open := false;
    }
  }
}
