/** Reassembly of newline-terminated lines in a fixed 512-byte buffer. */
module Lines {
  import opened Basics

  const LF: byte := 10
  const CR: byte := 13
  const LINE_BUF_BYTES := 512

  /** The partial line, the lines handed to the parser so far, and the overrun count. */
  datatype LineState = LineState(buf: seq<byte>, lines: seq<seq<byte>>, overruns: nat)

  const NO_LINES := LineState([], [], 0)

  /** One byte through the reader. */
  function Feed1(s: LineState, c: byte): LineState {
    if c == CR then s
    else if c == LF then LineState([], if s.buf != [] then s.lines + [s.buf] else s.lines, s.overruns)
    else if |s.buf| >= LINE_BUF_BYTES - 1 then LineState([], s.lines, s.overruns + 1)
    else s.(buf := s.buf + [c])
  }

  function Feed(s: LineState, bytes: seq<byte>): LineState {
    if bytes == [] then s else Feed1(Feed(s, bytes[..|bytes| - 1]), bytes[|bytes| - 1])
  }

  /** Only the byte stream matters, not how it was cut into chunks. */
  lemma {:induction false} FeedChunks(s: LineState, a: seq<byte>, b: seq<byte>)
    ensures Feed(s, a + b) == Feed(Feed(s, a), b)
  {
    if b == [] {
      assert a + b == a;
    } else {
      FeedChunks(s, a, b[..|b| - 1]);
      assert (a + b)[..|a + b| - 1] == a + b[..|b| - 1];
    }
  }

  // ---- the reference: lines of a stream, with no buffer limit -----------------------

  /** Bytes since the last newline, carriage returns dropped. */
  function Pending(stream: seq<byte>): seq<byte> {
    if stream == [] then []
    else
      var c := stream[|stream| - 1];
      if c == LF then [] else if c == CR then Pending(stream[..|stream| - 1]) else Pending(stream[..|stream| - 1]) + [c]
  }

  /** The newline-terminated lines of the stream. */
  function Completed(stream: seq<byte>): seq<seq<byte>> {
    if stream == [] then []
    else
      var init := stream[..|stream| - 1];
      if stream[|stream| - 1] == LF then Completed(init) + [Pending(init)] else Completed(init)
  }

  /** What a 512-byte buffer leaves of a line: its last |line| mod 512 bytes. */
  function Tail(line: seq<byte>): seq<byte> {
    line[|line| - |line| % LINE_BUF_BYTES..]
  }

  function Delivered(lines: seq<seq<byte>>): seq<seq<byte>> {
    if lines == [] then []
    else
      var t := Tail(lines[|lines| - 1]);
      Delivered(lines[..|lines| - 1]) + if t != [] then [t] else []
  }

  function Overruns(lines: seq<seq<byte>>): nat {
    if lines == [] then 0
    else Overruns(lines[..|lines| - 1]) + |lines[|lines| - 1]| / LINE_BUF_BYTES
  }

  lemma TailGrows(line: seq<byte>, c: byte)
    ensures if |Tail(line)| >= LINE_BUF_BYTES - 1
            then Tail(line + [c]) == [] && |line + [c]| / LINE_BUF_BYTES == |line| / LINE_BUF_BYTES + 1
            else Tail(line + [c]) == Tail(line) + [c] && |line + [c]| / LINE_BUF_BYTES == |line| / LINE_BUF_BYTES
  {
    var n := |line|;
    if n % LINE_BUF_BYTES == LINE_BUF_BYTES - 1 {
      assert (n + 1) % LINE_BUF_BYTES == 0;
    } else {
      assert (n + 1) % LINE_BUF_BYTES == n % LINE_BUF_BYTES + 1;
    }
  }

  lemma OneMoreLine(lines: seq<seq<byte>>, l: seq<byte>)
    ensures Delivered(lines + [l]) == Delivered(lines) + if Tail(l) != [] then [Tail(l)] else []
    ensures Overruns(lines + [l]) == Overruns(lines) + |l| / LINE_BUF_BYTES
  {
    hide Tail;
    assert (lines + [l])[..|lines|] == lines;
  }

  lemma EmptyTail()
    ensures Tail([]) == []
  {
  }

  /** What the reader does to any stream: every line of k bytes adds k div 512 overruns and is
      delivered as its last k mod 512 bytes, or not at all when that is nothing. */
  lemma {:induction false} StreamLines(stream: seq<byte>)
    ensures Feed(NO_LINES, stream)
         == LineState(Tail(Pending(stream)), Delivered(Completed(stream)),
                      Overruns(Completed(stream)) + |Pending(stream)| / LINE_BUF_BYTES)
  {
    hide Tail, Delivered, Overruns;
    EmptyTail();
    if stream == [] {
      NothingDelivered();
    } else {
      var init, c := stream[..|stream| - 1], stream[|stream| - 1];
      StreamLines(init);
      if c == LF {
        OneMoreLine(Completed(init), Pending(init));
      } else if c != CR {
        TailGrows(Pending(init), c);
      }
    }
  }

  lemma NothingDelivered()
    ensures Delivered([]) == [] && Overruns([]) == 0
  {
  }

  // ---- short lines, and the promise about long ones ---------------------------------

  /** The lines a reader would deliver that really drops an overlong line and resumes at the next
      newline: the non-empty ones that fit. */
  function Fitting(lines: seq<seq<byte>>): seq<seq<byte>> {
    if lines == [] then []
    else
      var l := lines[|lines| - 1];
      Fitting(lines[..|lines| - 1]) + if 0 < |l| < LINE_BUF_BYTES then [l] else []
  }

  /** Overlong lines whose length is no multiple of 512. */
  function Leaks(lines: seq<seq<byte>>): nat {
    if lines == [] then 0
    else
      var n := |lines[|lines| - 1]|;
      Leaks(lines[..|lines| - 1]) + if n >= LINE_BUF_BYTES && n % LINE_BUF_BYTES != 0 then 1 else 0
  }

  lemma {:induction false} LeakCount(lines: seq<seq<byte>>)
    ensures |Delivered(lines)| == |Fitting(lines)| + Leaks(lines)
    ensures Leaks(lines) == 0 ==> Delivered(lines) == Fitting(lines)
  {
    if lines != [] {
      var l := lines[|lines| - 1];
      LeakCount(lines[..|lines| - 1]);
      if |l| < LINE_BUF_BYTES {
        assert |l| % LINE_BUF_BYTES == |l| && Tail(l) == l;
      }
    }
  }

  lemma {:induction false} NoLeaks(lines: seq<seq<byte>>)
    ensures Leaks(lines) == 0 <==> forall l :: l in lines && |l| >= LINE_BUF_BYTES ==> |l| % LINE_BUF_BYTES == 0
  {
    if lines != [] {
      NoLeaks(lines[..|lines| - 1]);
      assert lines == lines[..|lines| - 1] + [lines[|lines| - 1]];
    }
  }

  /** The promise "line too long: drop and resync at the next newline" is kept exactly for the
      streams whose overlong lines all have a length divisible by 512; any other overlong line
      still hands its tail to the parser. */
  lemma ResyncExactly(stream: seq<byte>)
    ensures Feed(NO_LINES, stream).lines == Fitting(Completed(stream))
       <==> forall l :: l in Completed(stream) && |l| >= LINE_BUF_BYTES ==> |l| % LINE_BUF_BYTES == 0
  {
    StreamLines(stream);
    LeakCount(Completed(stream));
    NoLeaks(Completed(stream));
  }

  /** In particular a stream of lines of at most 511 bytes delivers exactly its non-empty lines and
      counts no overrun. */
  lemma ShortLines(stream: seq<byte>)
    requires forall l :: l in Completed(stream) ==> |l| < LINE_BUF_BYTES
    ensures Feed(NO_LINES, stream).lines == Fitting(Completed(stream))
    ensures |Pending(stream)| < LINE_BUF_BYTES ==> Feed(NO_LINES, stream).overruns == 0
  {
    ResyncExactly(stream);
    StreamLines(stream);
    NoOverruns(Completed(stream));
  }

  lemma {:induction false} NoOverruns(lines: seq<seq<byte>>)
    requires forall l :: l in lines ==> |l| < LINE_BUF_BYTES
    ensures Overruns(lines) == 0
  {
    if lines != [] {
      NoOverruns(lines[..|lines| - 1]);
    }
  }

  function Fill(n: nat): (s: seq<byte>)
    ensures |s| == n && forall i :: 0 <= i < n ==> s[i] == 65
  {
    seq(n, _ => 65)
  }

  lemma FillSnoc(n: nat)
    ensures Fill(n + 1) == Fill(n) + [65]
  {
  }

  lemma {:induction false} FillPending(n: nat)
    ensures Pending(Fill(n)) == Fill(n) && Completed(Fill(n)) == []
  {
    if n > 0 {
      FillPending(n - 1);
      FillSnoc(n - 1);
      hide Fill;
      assert (Fill(n - 1) + [65])[..n - 1] == Fill(n - 1);
    } else {
      assert Fill(0) == [];
    }
  }

  lemma OneLine(line: seq<byte>)
    requires Pending(line) == line && Completed(line) == []
    ensures var s := line + [LF];
            Pending(s) == [] && Delivered(Completed(s)) == (if Tail(line) != [] then [Tail(line)] else [])
            && Overruns(Completed(s)) == |line| / LINE_BUF_BYTES
  {
    hide Tail, Delivered, Overruns;
    assert (line + [LF])[..|line|] == line;
    OneMoreLine([], line);
    NothingDelivered();
  }

  /** A line of 513 bytes is not dropped: its last byte arrives as a line of its own. */
  lemma LongLineLeaks()
    ensures Feed(NO_LINES, Fill(513) + [LF]) == LineState([], [[65]], 1)
  {
    FillPending(513);
    OneLine(Fill(513));
    StreamLines(Fill(513) + [LF]);
    assert Tail(Fill(513)) == Fill(513)[512..];
    hide Fill, Tail, Feed, Delivered, Completed, Overruns, Pending;
    assert Fill(513)[512..] == [65];
    EmptyTail();
  }

  /** The parser's verdict on a line. */
  function Verdict(parse: seq<byte> -> bool, line: seq<byte>): bool { parse(line) }

  /** How many of the lines parse. */
  function Parsed(lines: seq<seq<byte>>, parse: seq<byte> -> bool): nat {
    if lines == [] then 0
    else Parsed(lines[..|lines| - 1], parse) + if Verdict(parse, lines[|lines| - 1]) then 1 else 0
  }

  lemma ParsedSnoc(lines: seq<seq<byte>>, l: seq<byte>, parse: seq<byte> -> bool)
    ensures Parsed(lines + [l], parse) == Parsed(lines, parse) + if Verdict(parse, l) then 1 else 0
    ensures Parsed(lines, parse) <= |lines|
  {
    assert (lines + [l])[..|lines|] == lines;
    ParsedBound(lines, parse);
  }

  lemma {:induction false} ParsedBound(lines: seq<seq<byte>>, parse: seq<byte> -> bool)
    ensures Parsed(lines, parse) <= |lines|
  {
    if lines != [] {
      ParsedBound(lines[..|lines| - 1], parse);
    }
  }

  lemma IncCount(n: nat)
    ensures Inc32(Add32(0, n)) == Add32(0, n + 1)
  {
  }

  /** The reader as the thread holds it: the line buffer and its length, and the counters. */
  class LineReader {
    const lineBuf: array<byte>
    var lineLen: nat
    var framesRx: uint32
    var parseErrors: uint32
    var lineOverruns: uint32
    /** The JSON parser's verdict on a line. */
    const parse: seq<byte> -> bool
    /** Lines handed to the parser, and overruns, since boot. */
    ghost var lines: seq<seq<byte>>
    ghost var overruns: nat

    /** The length always leaves room for the terminating NUL, and every delivered line is counted
        once, as a frame or as a parse error. */
    ghost predicate Valid()
      reads this
    {
      && lineBuf.Length == LINE_BUF_BYTES && lineLen < LINE_BUF_BYTES
      && Parsed(lines, parse) <= |lines|
      && framesRx == Add32(0, Parsed(lines, parse))
      && parseErrors == Add32(0, |lines| - Parsed(lines, parse))
      && lineOverruns == Add32(0, overruns)
    }

    ghost function State(): LineState
      requires Valid()
      reads this, lineBuf
    {
      LineState(lineBuf[..lineLen], lines, overruns)
    }

    constructor (parse: seq<byte> -> bool)
      ensures Valid() && State() == NO_LINES && fresh(lineBuf) && this.parse == parse
    {
      lineBuf := new byte[LINE_BUF_BYTES](_ => 0);
      lineLen, framesRx, parseErrors, lineOverruns := 0, 0, 0, 0;
      this.parse := parse;
      lines, overruns := [], 0;
    }

    /** A newline delivers what has been collected, if anything. */
    method EndLine()
      requires Valid()
      modifies this, lineBuf
      ensures Valid() && State() == Feed1(old(State()), LF)
    {
      hide Inc32, Add32, Verdict;
      if lineLen > 0 {
        lineBuf[lineLen] := 0;
        var line := lineBuf[..lineLen];
        ParsedSnoc(lines, line, parse);
        if Verdict(parse, line) {
          framesRx := Inc32(framesRx);
          IncCount(Parsed(lines, parse));
        } else {
          parseErrors := Inc32(parseErrors);
          IncCount(|lines| - Parsed(lines, parse));
        }
        lines := lines + [line];
      }
      lineLen := 0;
    }

    /** One byte. */
    method Accept(c: byte)
      requires Valid()
      modifies this, lineBuf
      ensures Valid() && State() == Feed1(old(State()), c)
    {
      hide Inc32, Add32, Parsed;
      if c == CR {
        return;
      }
      if c == LF {
        EndLine();
        return;
      }
      if lineLen >= lineBuf.Length - 1 {
        lineLen := 0;
        lineOverruns := Inc32(lineOverruns);
        IncCount(overruns);
        overruns := overruns + 1;
        return;
      }
      lineBuf[lineLen] := c;
      lineLen := lineLen + 1;
    }

    /** The thread's loop over one chunk. */
    method AcceptChunk(chunk: seq<byte>)
      requires Valid()
      modifies this, lineBuf
      ensures Valid() && State() == Feed(old(State()), chunk)
    {
      hide Feed1;
      for i := 0 to |chunk|
        invariant Valid() && State() == Feed(old(State()), chunk[..i])
      {
        assert chunk[..i + 1][..i] == chunk[..i];
        Accept(chunk[i]);
      }
      assert chunk[..|chunk|] == chunk;
    }
  }
}
