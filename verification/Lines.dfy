/** Newline framing over a byte stream that arrives in arbitrary pieces. */
module Lines {

  newtype byte = x: int | 0 <= x < 256

  const LF: byte := 10
  const MAX_LINE: nat := 65535
  const CHUNK: nat := 4096

  /** The index of the first newline, or the length when there is none. */
  function FirstNewline(s: seq<byte>): (k: nat)
    ensures k <= |s| && (k < |s| ==> s[k] == LF)
    ensures forall i :: 0 <= i < k ==> s[i] != LF
  {
    if s == [] || s[0] == LF then 0 else 1 + FirstNewline(s[1..])
  }

  datatype Reading = Line(text: seq<byte>) | TooLong | CleanEof | PartialLine | ReadFailed

  /** What reading one line from the whole remaining stream says, however it is cut into reads. */
  function Next(stream: seq<byte>): Reading {
    var k := FirstNewline(stream);
    if k > MAX_LINE then TooLong
    else if k < |stream| then Line(stream[..k])
    else if stream == [] then CleanEof
    else PartialLine
  }

  /** The stream after its first line. */
  function Rest(stream: seq<byte>): seq<byte> {
    var k := FirstNewline(stream);
    if k < |stream| then stream[k + 1..] else []
  }

  lemma {:induction false} NewlineInPrefix(s: seq<byte>, t: seq<byte>)
    ensures FirstNewline(s) < |s| ==> FirstNewline(s + t) == FirstNewline(s)
    ensures FirstNewline(s) == |s| ==> FirstNewline(s + t) == |s| + FirstNewline(t)
  {
    var k, m := FirstNewline(s), FirstNewline(s + t);
    assert forall i :: 0 <= i < |s| ==> (s + t)[i] == s[i];
    assert forall i :: 0 <= i < |t| ==> (s + t)[|s| + i] == t[i];
  }

  /** One end of a pipe or socket: what the peer has written and nobody has read yet. */
  class Descriptor {
    var pending: seq<byte>

    constructor (stream: seq<byte>)
      ensures pending == stream
    {
      pending := stream;
    }

    /** Delivers any non-empty piece of what is left, nothing at its end, or a hard error. */
    method Read() returns (chunk: seq<byte>, failed: bool)
      modifies this
      ensures failed ==> pending == old(pending)
      ensures !failed ==> chunk + pending == old(pending) && |chunk| <= CHUNK
      ensures !failed && old(pending) != [] ==> chunk != []
    {
      failed := *;
      if failed || pending == [] { return [], failed; }
      var n: int := *;
      n := if n < 1 then 1 else if n > CHUNK then CHUNK else n;
      if n > |pending| { n := |pending|; }
      chunk := pending[..n];
      pending := pending[n..];
    }
  }

  /** A receiving transport: a descriptor and what was read from it beyond the last line. */
  class Receiver {
    const fd: Descriptor
    var buffer: seq<byte>

    ghost function Stream(): seq<byte>
      reads this, fd
    {
      buffer + fd.pending
    }

    constructor (fd: Descriptor)
      ensures this.fd == fd && Stream() == fd.pending
    {
      this.fd, buffer := fd, [];
    }

    /** Reads until the buffer holds a whole line. Unless a read fails hard, the answer is that
        of the whole stream; a line leaves the stream behind it; a line that is too long is
        refused as soon as the buffer shows it. */
    method ReadLine() returns (r: Reading)
      modifies this, fd
      ensures r != ReadFailed ==> r == Next(old(Stream()))
      ensures r.Line? ==> Stream() == Rest(old(Stream()))
      ensures r in {CleanEof, PartialLine, ReadFailed} ==> Stream() == old(Stream())
    {
      ghost var stream := Stream();
      while true
        invariant Stream() == stream
        decreases |fd.pending|
      {
        var k := FirstNewline(buffer);
        NewlineInPrefix(buffer, fd.pending);
        if k < |buffer| {
          if k > MAX_LINE {
            buffer := [];
            return TooLong;
          }
          r := Line(buffer[..k]);
          assert stream[..k] == buffer[..k];
          assert stream[k + 1..] == buffer[k + 1..] + fd.pending;
          buffer := buffer[k + 1..];
          return;
        }
        if |buffer| > MAX_LINE {
          buffer := [];
          return TooLong;
        }
        ghost var left := fd.pending;
        var chunk, failed := fd.Read();
        if failed { return ReadFailed; }
        if chunk == [] {
          assert stream == buffer;
          return if buffer == [] then CleanEof else PartialLine;
        }
        assert buffer + left == buffer + chunk + fd.pending;
        buffer := buffer + chunk;
      }
    }

    /** A line for the caller, or why there is none; an empty line reads as a closed peer. */
    method Receive() returns (r: Reading)
      modifies this, fd
      ensures r != ReadFailed ==> r == Received(old(Stream()))
      ensures r.Line? ==> Stream() == Rest(old(Stream()))
    {
      r := ReadLine();
      if r == Line([]) { r := CleanEof; }
    }

    /** Receives until something other than a line comes. */
    method ReceiveAll() returns (lines: seq<seq<byte>>, end: Reading)
      modifies this, fd
      ensures !end.Line?
      ensures end != ReadFailed ==> lines == Lines(old(Stream())) && end == End(old(Stream()))
      ensures end == ReadFailed ==> lines <= Lines(old(Stream()))
    {
      hide Lines, End, Received, Rest;
      lines := [];
      ghost var stream := Stream();
      while true
        invariant Lines(stream) == lines + Lines(Stream()) && End(stream) == End(Stream())
        decreases |Stream()|
      {
        ghost var before := Stream();
        LinesUnfold(before);
        end := Receive();
        if !end.Line? { return; }
        assert lines + ([end.text] + Lines(Stream())) == lines + [end.text] + Lines(Stream());
        lines := lines + [end.text];
      }
    }
  }

  lemma {:induction false} LinesUnfold(stream: seq<byte>)
    ensures var r := Received(stream);
            if r.Line? then |Rest(stream)| < |stream| && Lines(stream) == [r.text] + Lines(Rest(stream)) && End(stream) == End(Rest(stream))
            else Lines(stream) == [] && End(stream) == r
  {
    RestIsShorter(stream);
  }

  function Received(stream: seq<byte>): Reading {
    if Next(stream) == Line([]) then CleanEof else Next(stream)
  }

  lemma {:induction false} RestIsShorter(stream: seq<byte>)
    ensures Next(stream).Line? ==> |Rest(stream)| < |stream|
  {
  }

  /** The lines of a stream up to the first thing that is not a line. */
  function Lines(stream: seq<byte>): seq<seq<byte>>
    decreases |stream|
  {
    RestIsShorter(stream);
    if Received(stream).Line? then [Received(stream).text] + Lines(Rest(stream)) else []
  }

  function End(stream: seq<byte>): (end: Reading)
    ensures !end.Line?
    decreases |stream|
  {
    RestIsShorter(stream);
    if Received(stream).Line? then End(Rest(stream)) else Received(stream)
  }

  // ----- sending ---------------------------------------------------------------------------

  /** What the sender accepts: not empty, no newline, and not too long. */
  predicate Sendable(line: seq<byte>) {
    line != [] && LF !in line && |line| <= MAX_LINE
  }

  function Framed(lines: seq<seq<byte>>): seq<byte> {
    if lines == [] then [] else lines[0] + [LF] + Framed(lines[1..])
  }

  function Accepted(lines: seq<seq<byte>>): seq<seq<byte>> {
    if lines == [] then []
    else (if Sendable(lines[0]) then [lines[0]] else []) + Accepted(lines[1..])
  }

  /** The sending end: whatever was written so far. */
  class Sender {
    var written: seq<byte>

    constructor ()
      ensures written == []
    {
      written := [];
    }

    /** Refuses what would break the framing before writing anything. */
    method Send(line: seq<byte>) returns (ok: bool)
      modifies this
      ensures ok <==> Sendable(line)
      ensures written == old(written) + if ok then line + [LF] else []
    {
      var k := FirstNewline(line);
      assert k < |line| <==> LF in line;
      if line == [] || k < |line| || |line| > MAX_LINE { return false; }
      written := written + (line + [LF]);
      return true;
    }

    method SendAll(lines: seq<seq<byte>>)
      modifies this
      ensures written == old(written) + Framed(Accepted(lines))
    {
      hide Framed, Accepted, Sendable;
      assert lines[0..] == lines;
      for i := 0 to |lines|
        invariant written + Framed(Accepted(lines[i..])) == old(written) + Framed(Accepted(lines))
      {
        AcceptedCons(lines, i);
        ghost var later := Framed(Accepted(lines[i + 1..]));
        ghost var before := written;
        var ok := Send(lines[i]);
        assert ok ==> before + (lines[i] + [LF] + later) == before + (lines[i] + [LF]) + later;
      }
      NothingLeft(lines);
    }
  }

  lemma {:induction false} NothingLeft(lines: seq<seq<byte>>)
    ensures Framed(Accepted(lines[|lines|..])) == []
  {
  }

  lemma {:induction false} AcceptedCons(lines: seq<seq<byte>>, i: nat)
    requires i < |lines|
    ensures Framed(Accepted(lines[i..])) == (if Sendable(lines[i]) then lines[i] + [LF] else []) + Framed(Accepted(lines[i + 1..]))
  {
    assert lines[i..][0] == lines[i] && lines[i..][1..] == lines[i + 1..];
    var rest := Accepted(lines[i + 1..]);
    assert Accepted(lines[i..]) == (if Sendable(lines[i]) then [lines[i]] else []) + rest;
    assert ([lines[i]] + rest)[1..] == rest;
    assert [] + rest == rest;
  }

  // ----- what the lines are --------------------------------------------------------------------

  lemma {:induction false} FirstLine(line: seq<byte>, tail: seq<byte>)
    requires LF !in line
    ensures FirstNewline(line + [LF] + tail) == |line| && Rest(line + [LF] + tail) == tail
  {
    var s := line + [LF] + tail;
    assert FirstNewline(line) == |line|;
    NewlineInPrefix(line, [LF] + tail);
    assert s == line + ([LF] + tail);
    assert s[|line|] == LF;
  }

  lemma {:induction false} OneLine(line: seq<byte>, later: seq<byte>)
    requires Sendable(line)
    ensures Lines(line + [LF] + later) == [line] + Lines(later) && End(line + [LF] + later) == End(later)
  {
    var stream := line + [LF] + later;
    FirstLine(line, later);
    assert stream[..|line|] == line;
    assert Received(stream) == Line(line);
  }

  lemma {:induction false} FramedCons(line: seq<byte>, lines: seq<seq<byte>>, tail: seq<byte>)
    ensures Framed([line] + lines) + tail == line + [LF] + (Framed(lines) + tail)
  {
    assert ([line] + lines)[1..] == lines;
  }

  lemma {:induction false} HeadStep(line: seq<byte>, lines: seq<seq<byte>>, tail: seq<byte>)
    requires Sendable(line) && Lines(Framed(lines) + tail) == lines + Lines(tail) && End(Framed(lines) + tail) == End(tail)
    ensures Lines(Framed([line] + lines) + tail) == [line] + lines + Lines(tail) && End(Framed([line] + lines) + tail) == End(tail)
  {
    hide Sendable, Framed, Lines, End;
    FramedCons(line, lines, tail);
    OneLine(line, Framed(lines) + tail);
    assert [line] + (lines + Lines(tail)) == [line] + lines + Lines(tail);
  }

  /** Sendable lines at the head of a stream are received as they are, whatever follows. */
  lemma {:induction false} HeadLines(lines: seq<seq<byte>>, tail: seq<byte>)
    requires forall k :: 0 <= k < |lines| ==> Sendable(lines[k])
    ensures Lines(Framed(lines) + tail) == lines + Lines(tail) && End(Framed(lines) + tail) == End(tail)
  {
    hide Sendable, Lines, End;
    if lines == [] {
      assert Framed(lines) + tail == tail && lines + Lines(tail) == Lines(tail);
    } else {
      HeadLines(lines[1..], tail);
      HeadStep(lines[0], lines[1..], tail);
      assert [lines[0]] + lines[1..] == lines;
    }
  }

  /** A line read is at the head of the stream. */
  lemma {:induction false} LineAndRest(stream: seq<byte>)
    requires Received(stream).Line?
    ensures Sendable(Received(stream).text) && stream == Received(stream).text + [LF] + Rest(stream)
  {
    var k := FirstNewline(stream);
    assert Received(stream).text == stream[..k];
  }

  /** `tail` is what is left of a stream after its lines. */
  ghost predicate Leftover(stream: seq<byte>, tail: seq<byte>) {
    stream == Framed(Lines(stream)) + tail && Received(tail) == End(stream)
  }

  lemma {:induction false} NoLines(stream: seq<byte>)
    ensures Framed([]) + stream == stream
  {
  }

  /** Any stream is its lines, framed, and a tail that begins with no line. */
  lemma {:induction false} StreamIsItsLines(stream: seq<byte>)
    ensures forall k :: 0 <= k < |Lines(stream)| ==> Sendable(Lines(stream)[k])
    ensures exists tail :: Leftover(stream, tail)
    decreases |stream|
  {
    hide Rest, Received, Sendable, Framed, Lines, End;
    LinesUnfold(stream);
    var r := Received(stream);
    if r.Line? {
      var rest := Rest(stream);
      LineAndRest(stream);
      StreamIsItsLines(rest);
      var tail :| Leftover(rest, tail);
      FramedCons(r.text, Lines(rest), tail);
      assert Leftover(stream, tail);
    } else {
      NoLines(stream);
      assert Leftover(stream, stream);
    }
  }

  /** What is sent is received: exactly the accepted lines, in order, then a clean end. */
  lemma {:induction false} SentIsReceived(lines: seq<seq<byte>>)
    ensures Lines(Framed(Accepted(lines))) == Accepted(lines) && End(Framed(Accepted(lines))) == CleanEof
  {
    AcceptedAreSendable(lines);
    HeadLines(Accepted(lines), []);
    assert Framed(Accepted(lines)) + [] == Framed(Accepted(lines));
  }

  lemma {:induction false} AcceptedAreSendable(lines: seq<seq<byte>>)
    ensures forall k :: 0 <= k < |Accepted(lines)| ==> Sendable(Accepted(lines)[k])
  {
    if lines != [] { AcceptedAreSendable(lines[1..]); }
  }

  /** A line over the limit is refused with the size error wherever it stands. */
  lemma {:induction false} OversizedIsRefused(lines: seq<seq<byte>>, line: seq<byte>, tail: seq<byte>)
    requires (forall k :: 0 <= k < |lines| ==> Sendable(lines[k])) && LF !in line && |line| > MAX_LINE
    ensures Lines(Framed(lines) + (line + [LF] + tail)) == lines && End(Framed(lines) + (line + [LF] + tail)) == TooLong
    ensures Lines(Framed(lines) + line) == lines && End(Framed(lines) + line) == TooLong
  {
    FirstLine(line, tail);
    HeadLines(lines, line + [LF] + tail);
    assert FirstNewline(line) == |line|;
    HeadLines(lines, line);
  }
}
