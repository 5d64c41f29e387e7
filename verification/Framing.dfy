/** Newline framing: a byte stream read line by line, with the unread rest carried over. */
module Framing {

  /** Position of the first newline. */
  function LineEnd(s: string): (n: nat)
    requires '\n' in s
    ensures n < |s| && s[n] == '\n' && forall j | 0 <= j < n :: s[j] != '\n'
  {
    if s[0] == '\n' then 0 else LineEnd(s[1..]) + 1
  }

  function StripCr(line: string): string {
    if line != "" && line[|line| - 1] == '\r' then line[..|line| - 1] else line
  }

  function FirstLine(s: string): string
    requires '\n' in s
  {
    StripCr(s[..LineEnd(s)])
  }

  function AfterLine(s: string): (rest: string)
    requires '\n' in s
    ensures |rest| < |s|
  {
    s[LineEnd(s) + 1..]
  }

  /** All complete lines of a stream. */
  function Lines(s: string): seq<string>
    decreases |s|
  {
    if '\n' in s then [FirstLine(s)] + Lines(AfterLine(s)) else []
  }

  /** What is left of a stream once its complete lines are read. */
  function Leftover(s: string): string
    decreases |s|
  {
    if '\n' in s then Leftover(AfterLine(s)) else s
  }

  function Flat(parts: seq<string>): string {
    if parts == [] then "" else parts[0] + Flat(parts[1..])
  }

  /** A reader that takes every complete line as chunks arrive and carries the rest over. */
  function ReadChunks(buffer: string, chunks: seq<string>): seq<string>
    decreases |chunks|
  {
    Lines(buffer) + if chunks == [] then [] else ReadChunks(Leftover(buffer) + chunks[0], chunks[1..])
  }

  /** The bytes of one written line: a newline is added unless there is one at the end. */
  function Written(line: string): string {
    if line == "" || line[|line| - 1] != '\n' then line + "\n" else line
  }

  /** Lines that survive the trip: no newline inside, and no carriage return that the reader would strip. */
  predicate Clean(line: string) {
    '\n' !in line && (line == "" || line[|line| - 1] != '\r')
  }

  function WrittenAll(lines: seq<string>): seq<string> {
    seq(|lines|, i requires 0 <= i < |lines| => Written(lines[i]))
  }

  lemma LineEndUnique(s: string, n: nat)
    requires n < |s| && s[n] == '\n' && forall j | 0 <= j < n :: s[j] != '\n'
    ensures LineEnd(s) == n
  {}

  lemma {:induction false} FlatConcat(xs: seq<string>, ys: seq<string>)
    ensures Flat(xs + ys) == Flat(xs) + Flat(ys)
  {
    if xs == [] {
      assert xs + ys == ys;
    } else {
      assert (xs + ys)[1..] == xs[1..] + ys;
      FlatConcat(xs[1..], ys);
    }
  }

  lemma FlatAppend(xs: seq<string>, y: string)
    ensures Flat(xs + [y]) == Flat(xs) + y
  {
    FlatConcat(xs, [y]);
    assert [y][1..] == [];
    assert Flat([y]) == y + "" == y;
  }

  lemma FirstLineOfMore(s: string, t: string)
    requires '\n' in s
    ensures '\n' in s + t
    ensures FirstLine(s + t) == FirstLine(s)
    ensures AfterLine(s + t) == AfterLine(s) + t
  {
    var n := LineEnd(s);
    assert (s + t)[..n] == s[..n];
    LineEndUnique(s + t, n);
  }

  /** Reading may stop anywhere and go on with the carried-over rest. */
  lemma {:induction false} LinesConcat(s: string, t: string)
    ensures Lines(s + t) == Lines(s) + Lines(Leftover(s) + t)
    ensures Leftover(s + t) == Leftover(Leftover(s) + t)
    decreases |s|
  {
    if '\n' in s {
      FirstLineOfMore(s, t);
      LinesConcat(AfterLine(s), t);
    }
  }

  /** Chunk-independent framing: however the stream is cut, the lines are those of the whole stream. */
  lemma {:induction false} ChunkingIsInvisible(buffer: string, chunks: seq<string>)
    ensures ReadChunks(buffer, chunks) == Lines(buffer + Flat(chunks))
    decreases |chunks|
  {
    LinesConcat(buffer, Flat(chunks));
    if chunks != [] {
      assert (Leftover(buffer) + chunks[0]) + Flat(chunks[1..]) == Leftover(buffer) + Flat(chunks);
      ChunkingIsInvisible(Leftover(buffer) + chunks[0], chunks[1..]);
    } else {
      LeftoverHasNoLine(buffer);
      assert Leftover(buffer) + Flat(chunks) == Leftover(buffer);
    }
  }

  lemma {:induction false} LeftoverHasNoLine(s: string)
    ensures '\n' !in Leftover(s)
    decreases |s|
  {
    if '\n' in s { LeftoverHasNoLine(AfterLine(s)); }
  }

  lemma FirstLineIsWritten(line: string, rest: string)
    requires Clean(line)
    ensures var s := Written(line) + rest; '\n' in s && FirstLine(s) == line && AfterLine(s) == rest
  {
    var s := Written(line) + rest;
    assert Written(line) == line + "\n";
    assert s[|line|] == '\n' && s[..|line|] == line;
    LineEndUnique(s, |line|);
    assert s[|line| + 1..] == rest;
  }

  /** A line read back is the line written exactly when it is clean. */
  lemma WriteThenRead(line: string)
    ensures Lines(Written(line)) == [line] <==> Clean(line)
  {
    var s := Written(line);
    if Clean(line) {
      FirstLineIsWritten(line, "");
      assert s + "" == s;
      assert Lines("") == [];
    } else if '\n' in line {
      assert '\n' in s;
      assert Lines(s)[0] == FirstLine(s);
      assert '\n' !in FirstLine(s);
    } else {
      LineEndUnique(s, |line|);
      assert s[..|line|] == line;
      assert Lines(s)[0] == FirstLine(s) && |FirstLine(s)| < |line|;
    }
  }

  /**
   Any line up to a newline is read as it is, except that one carriage return at its end is taken off; what follows
   is read next. A stream without a newline holds no line.
   */
  lemma ReadBackExactly(line: string, rest: string)
    requires '\n' !in line
    ensures Lines(line + "\n" + rest)
         == [if line != "" && line[|line| - 1] == '\r' then line[..|line| - 1] else line] + Lines(rest)
    ensures Lines(line) == []
  {
    var s := line + "\n" + rest;
    assert s[|line|] == '\n' && s[..|line|] == line;
    LineEndUnique(s, |line|);
    assert s[|line| + 1..] == rest;
  }

  /** A written line ends in exactly the newline it has already, or in one that is added. */
  lemma OneNewlineIsWritten(line: string)
    ensures if line != "" && line[|line| - 1] == '\n' then Written(line) == line else Written(line) == line + "\n"
  {}

  /** Nothing lost, nothing merged, in order: any cut of the bytes of clean lines yields exactly these lines. */
  lemma {:induction false} LinesArriveInOrder(lines: seq<string>, chunks: seq<string>)
    requires forall l | l in lines :: Clean(l)
    requires Flat(chunks) == Flat(WrittenAll(lines))
    ensures ReadChunks("", chunks) == lines
  {
    ChunkingIsInvisible("", chunks);
    assert "" + Flat(chunks) == Flat(chunks);
    LinesOfWritten(lines);
  }

  lemma {:induction false} LinesOfWritten(lines: seq<string>)
    requires forall l | l in lines :: Clean(l)
    ensures Lines(Flat(WrittenAll(lines))) == lines
  {
    if lines != [] {
      assert WrittenAll(lines)[1..] == WrittenAll(lines[1..]);
      FirstLineIsWritten(lines[0], Flat(WrittenAll(lines[1..])));
      LinesOfWritten(lines[1..]);
    }
  }

  /**
   One hop of a pipeline: while the buffered bytes and the bytes on the way are those of the
   pending lines, the first buffered line is the first pending line.
   */
  lemma FirstPendingLine(buffer: string, wire: string, lines: seq<string>)
    requires forall l | l in lines :: Clean(l)
    requires buffer + wire == Flat(WrittenAll(lines))
    requires '\n' in buffer
    ensures lines != [] && FirstLine(buffer) == lines[0]
    ensures AfterLine(buffer) + wire == Flat(WrittenAll(lines[1..]))
  {
    FirstLineOfMore(buffer, wire);
    assert lines != [];
    assert WrittenAll(lines)[1..] == WrittenAll(lines[1..]);
    FirstLineIsWritten(lines[0], Flat(WrittenAll(lines[1..])));
  }
}
