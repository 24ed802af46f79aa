/** The rollout follower: an incremental reader that keeps raw bytes until a line
is whole, so a poll may end anywhere, even inside a multi-byte character. */
module RolloutTail {
  import opened JsonValue
  import opened Utf8
  import opened Lines

  datatype State = State(offset: nat, partial: seq<Byte>)

  predicate Sound(t: State) { |t.partial| <= t.offset }

  /** One poll of a present file holding `data`. */
  function Polled(t: State, data: seq<Byte>): (r: (State, seq<Record>))
    requires Sound(t)
    ensures Sound(r.0)
  {
    var t := if |data| < t.offset then State(0, []) else t;
    var held := t.partial + data[t.offset..];
    (State(|data|, Rest(held)), Records(|data| - |held|, held, DecodedAfter))
  }

  /** Splits every whole line off the front of a buffer that starts at file
      offset `base`, reporting how many bytes those lines took. */
  method SplitLines(base: nat, buffer: seq<Byte>) returns (lines: seq<Record>, consumed: nat)
    ensures consumed <= |buffer| && buffer[consumed..] == Rest(buffer)
    ensures lines == Records(base, buffer, DecodedAfter)
  {
    hide Records, Rest, FirstNl, LineText;
    lines, consumed := [], 0;
    ghost var whole := Records(base, buffer, DecodedAfter);
    assert buffer[0..] == buffer;
    for index := 0 to |buffer|
      invariant consumed <= index
      invariant forall k | consumed <= k < index :: buffer[k] != NL
      invariant whole == lines + Records(base + consumed, buffer[consumed..], DecodedAfter)
      invariant Rest(buffer) == Rest(buffer[consumed..])
    {
      if buffer[index] == NL {
        var raw := buffer[consumed..index];
        LineTaken(base, buffer, consumed, index, DecodedAfter, whole, lines, raw,
                  base + consumed, base + index + 1, buffer[index + 1..]);
        var line := LineText(DecodedAfter, raw);
        if line != [] {
          lines := lines + [Record(base + consumed, line)];
        }
        consumed := index + 1;
      }
    }
    NoLineLeft(base + consumed, buffer[consumed..], DecodedAfter);
  }

  class RolloutTail {
    var offset: nat
    var partial: seq<Byte>

    ghost predicate Valid() reads this { Sound(Abstract()) }
    ghost function Abstract(): State reads this { State(offset, partial) }

    constructor ()
      ensures Valid() && Abstract() == State(0, [])
    {
      offset, partial := 0, [];
    }

    constructor AtEnd(data: seq<Byte>)
      ensures Valid() && Abstract() == State(|data|, [])
    {
      offset, partial := |data|, [];
    }

    /** `None` is a file that could not be opened; the error leaves the reader alone. */
    method Poll(disk: Option<seq<Byte>>) returns (lines: Option<seq<Record>>)
      requires Valid()
      modifies this
      ensures Valid()
      ensures disk.None? ==> lines.None? && Abstract() == old(Abstract())
      ensures disk.Some? ==> lines == Some(Polled(old(Abstract()), disk.value).1)
                             && Abstract() == Polled(old(Abstract()), disk.value).0
    {
      hide Records, Rest, FirstNl;
      if disk.None? {
        return None;
      }
      var data := disk.value;
      if |data| < offset {
        offset, partial := 0, [];
      }
      partial := partial + data[offset..];
      offset := |data|;
      var out, consumed := SplitLines(offset - |partial|, partial);
      partial := partial[consumed..];
      lines := Some(out);
    }
  }

  // ---- Any schedule over a growing file is one read of the whole file

  ghost predicate AppendOnly(from: seq<Byte>, polls: seq<seq<Byte>>)
    decreases |polls|
  {
    polls != [] ==> from <= polls[0] && AppendOnly(polls[0], polls[1..])
  }

  function Final(from: seq<Byte>, polls: seq<seq<Byte>>): seq<Byte> {
    if polls == [] then from else polls[|polls| - 1]
  }

  function Run(t: State, polls: seq<seq<Byte>>): (r: (State, seq<Record>))
    requires Sound(t)
    ensures Sound(r.0)
    decreases |polls|
  {
    if polls == [] then (t, [])
    else
      var (t1, out) := Polled(t, polls[0]);
      var (t2, more) := Run(t1, polls[1..]);
      (t2, out + more)
  }

  lemma {:induction false} FinalExtends(from: seq<Byte>, polls: seq<seq<Byte>>)
    requires AppendOnly(from, polls)
    ensures from <= Final(from, polls)
    decreases |polls|
  {
    if polls != [] {
      FinalExtends(polls[0], polls[1..]);
    }
  }

  /** However a growing file is polled, the records returned are those of one
      read of its final content from where the reader stood, offsets included. */
  lemma {:induction false} ScheduleIrrelevant(t: State, from: seq<Byte>, polls: seq<seq<Byte>>, at: nat,
                                              final: seq<Byte>)
    requires AppendOnly(from, polls) && final == Final(from, polls)
    requires t.offset == |from| && Holds(from, t.offset, t.partial) && NoNl(t.partial)
    requires at == t.offset - |t.partial|
    ensures at <= |final|
    ensures Run(t, polls).1 == Records(at, final[at..], DecodedAfter)
    ensures Run(t, polls).0 == State(|final|, Rest(final[at..]))
    decreases |polls|
  {
    hide Records, Rest, FirstNl;
    if polls == [] {
      assert from[at..] == t.partial;
      NoLineLeft(at, t.partial, DecodedAfter);
    } else {
      var seen := polls[0];
      FinalExtends(seen, polls[1..]);
      PollReads(t, from, seen, at);
      var rest := Rest(seen[at..]);
      FollowStep(seen, final, at, DecodedAfter, seen[at..], rest, |seen| - |rest|);
      ScheduleIrrelevant(State(|seen|, rest), seen, polls[1..], |seen| - |rest|, final);
    }
  }

  lemma PollReads(t: State, from: seq<Byte>, seen: seq<Byte>, at: nat)
    requires from <= seen && t.offset == |from| && Holds(from, t.offset, t.partial)
    requires at == t.offset - |t.partial|
    ensures Polled(t, seen) == (State(|seen|, Rest(seen[at..])), Records(at, seen[at..], DecodedAfter))
  {
    assert t.partial + seen[t.offset..] == seen[at..] by {
      ExtendedSuffix(from, seen, at);
      assert from[at..] == t.partial;
    }
  }

  /** Followed from byte zero, a growing file yields exactly its whole non-empty
      lines at their true offsets, whatever the poll schedule. */
  lemma FromTheStart(polls: seq<seq<Byte>>)
    requires AppendOnly([], polls)
    ensures Run(State(0, []), polls).1 == Records(0, Final([], polls), DecodedAfter)
  {
    var final := Final([], polls);
    ScheduleIrrelevant(State(0, []), [], polls, 0, final);
    assert final[0..] == final;
  }

  /** A reader bound at the current end returns only what was appended after the bind. */
  lemma FromTheEnd(bound: seq<Byte>, polls: seq<seq<Byte>>)
    requires AppendOnly(bound, polls)
    ensures |bound| <= |Final(bound, polls)|
    ensures Run(State(|bound|, []), polls).1 == Records(|bound|, Final(bound, polls)[|bound|..], DecodedAfter)
  {
    ScheduleIrrelevant(State(|bound|, []), bound, polls, |bound|, Final(bound, polls));
  }

  /** A file that became shorter than the cursor is followed from its start: from then on
      the records are those of its content, whatever was read or held before. */
  lemma TruncationRestarts(t: State, data: seq<Byte>, polls: seq<seq<Byte>>)
    requires Sound(t) && |data| < t.offset && AppendOnly(data, polls)
    ensures Run(t, [data] + polls).1 == Records(0, Final(data, polls), DecodedAfter)
  {
    hide Records, Rest;
    var all := [data] + polls;
    assert all[1..] == polls;
    assert Polled(t, data) == Polled(State(0, []), data);
    FromTheStart(all);
  }
}
