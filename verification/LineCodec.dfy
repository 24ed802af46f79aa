/** The wire codec: one newline-terminated line per frame, read from a buffered
reader whose fills may cut the stream anywhere. */
module LineCodec {
  import opened Sequences
  import opened Utf8
  import opened Lines

  /** Encoded JSON is not empty and holds no control character. */
  predicate WireText(payload: seq<Byte>) {
    payload != [] && forall i | 0 <= i < |payload| :: payload[i] >= 0x20
  }

  function EncodeLine(payload: seq<Byte>): seq<Byte> { payload + [NL] }

  // ---- What reading a line means, with no buffer in sight

  datatype Next = Line(line: seq<Byte>, rest: seq<Byte>) | Eof | TooLong

  function DropCr(s: seq<Byte>): seq<Byte> {
    if s != [] && s[|s| - 1] == CR then s[..|s| - 1] else s
  }

  /** The bytes after the first newline. */
  function AfterLine(s: seq<Byte>): (rest: seq<Byte>)
    ensures s != [] ==> |rest| < |s|
  {
    if FirstNl(s) < |s| then s[FirstNl(s) + 1..] else []
  }

  /** The next non-empty line with one trailing CR removed; blank lines are
      skipped, a line over the limit is an error, the last line needs no newline. */
  function NextLine(s: seq<Byte>, max: nat): Next
    decreases |s|
  {
    if s == [] then Eof
    else if FirstNl(s) > max then TooLong
    else
      var line := DropCr(s[..FirstNl(s)]);
      if line == [] then NextLine(AfterLine(s), max) else Line(line, AfterLine(s))
  }

  // ---- The buffered reader

  class BufferedReader {
    var buffer: seq<Byte>
    var fills: seq<seq<Byte>>

    /** A fill that reads nothing is the end of the stream, so none is empty. */
    ghost predicate Valid() reads this { forall i | 0 <= i < |fills| :: fills[i] != [] }

    ghost function Remaining(): seq<Byte> reads this { buffer + Flatten(fills) }

    constructor (fills: seq<seq<Byte>>)
      requires forall i | 0 <= i < |fills| :: fills[i] != []
      ensures Valid() && Remaining() == Flatten(fills)
    {
      this.buffer, this.fills := [], fills;
    }

    method FillBuf() returns (available: seq<Byte>)
      requires Valid()
      modifies this
      ensures Valid() && Remaining() == old(Remaining())
      ensures available == buffer && available <= Remaining() && (available == [] <==> Remaining() == [])
    {
      if buffer == [] && fills != [] {
        buffer, fills := fills[0], fills[1..];
        assert old(Remaining()) == Flatten(old(fills));
      }
      available := buffer;
    }

    method Consume(n: nat)
      requires Valid() && n <= |buffer|
      modifies this
      ensures Valid() && n <= |old(Remaining())| && Remaining() == old(Remaining())[n..]
    {
      buffer := buffer[n..];
    }
  }

  datatype Outcome = ReadLine(line: seq<Byte>) | AtEof | LineTooLong(limit: nat)

  predicate Agrees(outcome: Outcome, next: Next, max: nat) {
    match next
    case Line(line, _) => outcome == ReadLine(line)
    case Eof => outcome == AtEof
    case TooLong => outcome == LineTooLong(max)
  }

  // What one pass of the inner loop has to work with: the bytes taken so far
  // and the bytes still unread make up the line's stream.

  lemma NewlineInSight(s: seq<Byte>, line: seq<Byte>, available: seq<Byte>, unread: seq<Byte>, i: nat)
    requires s == line + unread && NoNl(line) && available <= unread
    requires i == FirstNl(available) < |available|
    ensures FirstNl(s) == |line| + i
    ensures s[..FirstNl(s)] == line + available[..i] && AfterLine(s) == unread[i + 1..]
  {
    hide FirstNl;
    assert forall k | 0 <= k < i :: s[|line| + k] == available[k];
    FirstNlUnique(s, |line| + i);
    assert available[..i] == unread[..i];
    assert s[|line| + i + 1..] == unread[i + 1..];
  }

  lemma NoNewlineYet(s: seq<Byte>, line: seq<Byte>, available: seq<Byte>, unread: seq<Byte>)
    requires s == line + unread && NoNl(line) && available <= unread && FirstNl(available) == |available|
    ensures FirstNl(s) >= |line| + |available|
    ensures s == (line + available) + unread[|available|..] && NoNl(line + available)
    ensures unread == [] ==> FirstNl(s) == |s| && s[..FirstNl(s)] == line && AfterLine(s) == []
  {
    hide FirstNl;
    assert forall k | 0 <= k < |available| :: s[|line| + k] == available[k];
    assert unread == available + unread[|available|..];
    if unread == [] {
      FirstNlUnique(s, |s|);
    }
  }

  /** The inner loop: gathers one raw line. `Eof` means nothing was left at all. */
  method GatherLine(reader: BufferedReader, max: nat) returns (outcome: Outcome)
    requires reader.Valid()
    modifies reader
    ensures reader.Valid()
    ensures var s := old(reader.Remaining());
      if s == [] then outcome == AtEof && reader.Remaining() == []
      else if FirstNl(s) > max then outcome == LineTooLong(max)
      else outcome == ReadLine(s[..FirstNl(s)]) && reader.Remaining() == AfterLine(s)
  {
    hide FirstNl, Flatten, AfterLine, BufferedReader.Remaining;
    ghost var s := reader.Remaining();
    var line := [];
    while true
      invariant reader.Valid() && s == line + reader.Remaining()
      invariant NoNl(line) && |line| <= max
      decreases |reader.Remaining()|
    {
      var available := reader.FillBuf();
      ghost var unread := reader.Remaining();
      var index := FirstNl(available);
      if index < |available| {
        NewlineInSight(s, line, available, unread, index);
        if |line| + index > max {
          return LineTooLong(max);
        }
        line := line + available[..index];
        reader.Consume(index + 1);
        return ReadLine(line);
      }
      NoNewlineYet(s, line, available, unread);
      if available == [] {
        return if line == [] then AtEof else ReadLine(line);
      }
      if |line| + |available| > max {
        return LineTooLong(max);
      }
      line := line + available;
      reader.Consume(|available|);
    }
  }

  /** Reading a line depends on the stream alone, not on how the fills cut it. */
  method ReadRawLine(reader: BufferedReader, max: nat) returns (outcome: Outcome)
    requires reader.Valid()
    modifies reader
    ensures reader.Valid()
    ensures Agrees(outcome, NextLine(old(reader.Remaining()), max), max)
    ensures NextLine(old(reader.Remaining()), max).Line? ==>
      reader.Remaining() == NextLine(old(reader.Remaining()), max).rest
    ensures NextLine(old(reader.Remaining()), max).Eof? ==> reader.Remaining() == []
  {
    hide FirstNl, Flatten;
    while true
      invariant reader.Valid()
      invariant NextLine(reader.Remaining(), max) == NextLine(old(reader.Remaining()), max)
      decreases |reader.Remaining()|
    {
      outcome := GatherLine(reader, max);
      if outcome.AtEof? || outcome.LineTooLong? {
        return;
      }
      var line := DropCr(outcome.line);
      if line != [] {
        return ReadLine(line);
      }
    }
  }

  // ---- Encoded frames read back

  /** Every line of a stream, and whether the stream ended without an over-long line. */
  function AllLines(s: seq<Byte>, max: nat): (seq<seq<Byte>>, bool)
    decreases |s|
  {
    match NextLine(s, max)
    case Line(line, rest) =>
      NextLineShrinks(s, max);
      var (lines, whole) := AllLines(rest, max);
      ([line] + lines, whole)
    case Eof => ([], true)
    case TooLong => ([], false)
  }

  lemma {:induction false} NextLineShrinks(s: seq<Byte>, max: nat)
    ensures NextLine(s, max).Line? ==> |NextLine(s, max).rest| < |s|
    decreases |s|
  {
    if s != [] {
      NextLineShrinks(AfterLine(s), max);
    }
  }

  /** The frames of a stream: its lines up to the first that is over-long or not
      JSON (`json` are the lines that parse), and whether it ended without one. */
  function Frames(s: seq<Byte>, max: nat, json: set<seq<Byte>>): (seq<seq<Byte>>, bool)
    decreases |s|
  {
    NextLineShrinks(s, max);
    match NextLine(s, max)
    case Line(line, rest) =>
      if line !in json then ([], false)
      else
        var (more, clean) := Frames(rest, max, json);
        ([line] + more, clean)
    case Eof => ([], true)
    case TooLong => ([], false)
  }

  /** The reader task: frames are handed on until the stream ends, a line is too long
      or a line does not parse. */
  method ReadFrames(reader: BufferedReader, max: nat, json: set<seq<Byte>>)
    returns (frames: seq<seq<Byte>>, clean: bool)
    requires reader.Valid()
    modifies reader
    ensures (frames, clean) == Frames(old(reader.Remaining()), max, json)
  {
    hide FirstNl, Flatten, NextLine, BufferedReader.Remaining;
    frames := [];
    ghost var all := Frames(reader.Remaining(), max, json);
    while true
      invariant reader.Valid()
      invariant all.0 == frames + Frames(reader.Remaining(), max, json).0
      invariant all.1 == Frames(reader.Remaining(), max, json).1
      decreases |reader.Remaining()|
    {
      ghost var before := reader.Remaining();
      NextLineShrinks(before, max);
      assert frames + [] == frames;
      var outcome := ReadRawLine(reader, max);
      match outcome
      case ReadLine(line) =>
        if line !in json {
          return frames, false;
        }
        AppendAssociates(frames, [line], Frames(reader.Remaining(), max, json).0);
        frames := frames + [line];
      case AtEof =>
        return frames, true;
      case LineTooLong(_) =>
        return frames, false;
    }
  }

  /** The frames are the lines up to the first that does not parse, and the stream
      is clean exactly when all lines parse and none is too long. */
  lemma {:induction false} FramesAreParsedLines(s: seq<Byte>, max: nat, json: set<seq<Byte>>)
    ensures var (lines, whole) := AllLines(s, max);
      var (frames, clean) := Frames(s, max, json);
      && frames <= lines && (forall i | 0 <= i < |frames| :: frames[i] in json)
      && (|frames| < |lines| ==> lines[|frames|] !in json)
      && (clean <==> whole && forall i | 0 <= i < |lines| :: lines[i] in json)
    decreases |s|
  {
    hide NextLine;
    NextLineShrinks(s, max);
    match NextLine(s, max)
    case Line(line, rest) =>
      FramesAreParsedLines(rest, max, json);
      var more := AllLines(rest, max).0;
      var lines := [line] + more;
      assert forall i | 0 <= i < |more| :: more[i] == lines[i + 1];
      assert forall i | 0 < i < |lines| :: lines[i] == more[i - 1];
    case _ =>
  }

  function EncodeAll(payloads: seq<seq<Byte>>): seq<Byte> {
    if payloads == [] then [] else EncodeLine(payloads[0]) + EncodeAll(payloads[1..])
  }

  lemma EncodedLineReadsBack(payload: seq<Byte>, more: seq<Byte>, max: nat)
    requires WireText(payload) && |payload| <= max
    ensures NextLine(EncodeLine(payload) + more, max) == Line(payload, more)
  {
    hide FirstNl;
    var s := EncodeLine(payload) + more;
    FirstNlUnique(s, |payload|);
    assert s[..|payload|] == payload && s[|payload| + 1..] == more;
  }

  /** A stream of encoded frames within the limit reads back frame for frame, in
      order, and then ends; with one frame over the limit it stops at that frame. */
  lemma {:induction false} EncodedStreamReadsBack(payloads: seq<seq<Byte>>, max: nat)
    requires forall i | 0 <= i < |payloads| :: WireText(payloads[i])
    ensures (forall i | 0 <= i < |payloads| :: |payloads[i]| <= max) ==>
      AllLines(EncodeAll(payloads), max) == (payloads, true)
    ensures AllLines(EncodeAll(payloads), max).1 ==> forall i | 0 <= i < |payloads| :: |payloads[i]| <= max
  {
    hide NextLine, FirstNl;
    if payloads == [] {
      EmptyStream(max);
    } else {
      var first, rest := payloads[0], payloads[1..];
      EncodedStreamReadsBack(rest, max);
      assert forall i | 0 < i < |payloads| :: payloads[i] == rest[i - 1];
      if |first| <= max {
        EncodedLineReadsBack(first, EncodeAll(rest), max);
        assert payloads == [first] + rest;
      } else {
        OverlongFrameStops(first, EncodeAll(rest), max);
      }
    }
  }

  lemma EmptyStream(max: nat)
    ensures NextLine([], max) == Eof
  {
  }

  lemma OverlongFrameStops(payload: seq<Byte>, more: seq<Byte>, max: nat)
    requires WireText(payload) && |payload| > max
    ensures NextLine(EncodeLine(payload) + more, max) == TooLong
  {
    FirstNlUnique(EncodeLine(payload) + more, |payload|);
  }

  /** Every line a reader hands out is non-empty, holds no newline and is within the limit. */
  lemma {:induction false} LinesAreWhole(s: seq<Byte>, max: nat)
    ensures NextLine(s, max).Line? ==>
      var line := NextLine(s, max).line;
      line != [] && NoNl(line) && |line| <= max
    decreases |s|
  {
    if s != [] {
      LinesAreWhole(AfterLine(s), max);
    }
  }

  /** One carriage return before the newline is removed, and only one. */
  lemma CrLineReadsBack(line: seq<Byte>, more: seq<Byte>, max: nat)
    requires line != [] && NoNl(line) && |line| + 1 <= max
    ensures NextLine(line + [13, 10] + more, max) == Line(line, more)
  {
    hide FirstNl;
    var s := line + [13, 10] + more;
    FirstNlUnique(s, |line| + 1);
    assert s[..|line| + 1] == line + [13] && s[|line| + 2..] == more;
  }

  /** Blank lines, with or without a carriage return, are skipped. */
  lemma BlankLinesSkipped(more: seq<Byte>, max: nat)
    requires max >= 1
    ensures NextLine([10] + more, max) == NextLine(more, max)
    ensures NextLine([13, 10] + more, max) == NextLine(more, max)
  {
    hide FirstNl;
    var bare, cr: seq<Byte> := [10] + more, [13, 10] + more;
    FirstNlUnique(bare, 0);
    FirstNlUnique(cr, 1);
    assert bare[1..] == more && cr[2..] == more && bare[..0] == [] && cr[..1] == [13];
  }

  /** A last line without a newline is read as well; one carriage return is removed. */
  lemma LastLineReads(line: seq<Byte>, max: nat)
    requires line != [] && NoNl(line) && |line| + 1 <= max
    ensures line[|line| - 1] != 13 ==> NextLine(line, max) == Line(line, [])
    ensures NextLine(line + [13], max) == Line(line, [])
  {
    hide FirstNl;
    FirstNlUnique(line, |line|);
    FirstNlUnique(line + [13], |line| + 1);
    assert line[..|line|] == line && (line + [13])[..|line| + 1] == line + [13];
  }
}
