/** What a transcript follower returns does not depend on when it polls, on the
file vanishing and coming back, or on the follower being closed and reopened. */
module TailContinuity {
  import opened JsonValue
  import opened Sequences
  import opened Utf8
  import opened Lines
  import opened TranscriptTail
  import opened TailTrust

  // ---- The part of the state that decides what is read

  /** The position of an empty held line is dead: the next read stamps it. */
  predicate SameCursor(t1: Tail, t2: Tail) {
    t1.offset == t2.offset && t1.partial == t2.partial && (t1.partial != [] ==> t1.partialPos == t2.partialPos)
  }

  lemma SameRead(t1: Tail, t2: Tail, data: seq<Byte>)
    requires SameCursor(t1, t2) && t1.offset <= |data|
    ensures ReadLines(t1, data).1 == ReadLines(t2, data).1
    ensures SameCursor(ReadLines(t1, data).0, ReadLines(t2, data).0)
    ensures ReadLines(t1, data).0.resume == t1.resume && ReadLines(t1, data).0.offset == |data|
  {
    hide Records, Rest, Lossy;
  }

  // ---- Files that only grow, possibly vanishing and coming back in between

  /** Each present file extends what was there before; its identity may change
      only across a vanish. */
  predicate Restoring(id: Identity, gone: bool, seen: seq<Byte>, disks: seq<Disk>)
    decreases |disks|
  {
    disks == [] ||
    match disks[0]
    case Missing => Restoring(id, true, seen, disks[1..])
    case Unreadable(_, _) => Restoring(id, gone, seen, disks[1..])
    case Present(id1, data) => seen <= data && (id1 == id || gone) && Restoring(id1, false, data, disks[1..])
  }

  /** The same run of the file system without the vanishes: the file keeps its identity. */
  function WithoutVanishes(id: Identity, disks: seq<Disk>): seq<Disk>
    decreases |disks|
  {
    if disks == [] then []
    else if disks[0].Present? then [Present(id, disks[0].data)] + WithoutVanishes(id, disks[1..])
    else WithoutVanishes(id, disks[1..])
  }

  /** The results of the polls that found the file. */
  function Reads(t: Tail, disks: seq<Disk>): seq<PollResult>
    decreases |disks|
  {
    if disks == [] then []
    else
      var (t1, result) := Poll(t, disks[0]);
      (if disks[0].Present? then [result] else []) + Reads(t1, disks[1..])
  }

  /** The follower is at or behind the end of `seen`, and tracks the file that holds it. */
  predicate Tracks(t: Tail, id: Identity, gone: bool, seen: seq<Byte>) {
    && t.offset <= |seen|
    && (t.resume.Some? ==>
         var r := t.resume.value;
         r.identity == id && HeadIntact(r.head, seen) && (gone ==> r.absent) && (r.absent ==> r.displaced))
  }

  lemma GrownPoll(t: Tail, id: Identity, gone: bool, seen: seq<Byte>, id1: Identity, data: seq<Byte>)
    requires Tracks(t, id, gone, seen) && seen <= data && (id1 == id || gone)
    ensures var (t1, result) := Poll(t, Present(id1, data));
      && result.Read? && result.records == ReadLines(t, data).1
      && SameCursor(t1, ReadLines(t, data).0) && t1.offset == |data|
      && (result.provenance == Current <==> (t.resume.Some? ==> t.resume.value.verified && !t.resume.value.displaced))
      && t1.resume == (if t.resume.None? then None else Some(t.resume.value.(identity := id1, absent := false)))
      && Tracks(t1, id1, false, data)
  {
    hide Records, Rest, Lossy, ReadLines;
    if t.resume.Some? {
      var r := t.resume.value;
      assert HeadIntact(r.head, data);
      if r.displaced || !r.verified {
        SameRead(t, Resynced(t, r, id1, data), data);
        SameRead(Resynced(t, r, id1, data), t, data);
      } else {
        SameRead(t, t, data);
      }
    } else {
      SameRead(t, t, data);
    }
  }

  /** Both followers are at the same place; only trust may differ. */
  predicate Shadows(t1: Tail, t2: Tail) {
    && SameCursor(t1, t2) && (t1.resume.Some? <==> t2.resume.Some?)
    && (t1.resume.Some? ==>
         var r1, r2 := t1.resume.value, t2.resume.value;
         r1.head == r2.head && r1.verified == r2.verified && (r2.displaced ==> r1.displaced))
  }

  /** Record for record and position for position the same reads, with provenance only weakened. */
  predicate OnlyWeakened(a: seq<PollResult>, b: seq<PollResult>) {
    |a| == |b| && forall i | 0 <= i < |a| ::
      a[i].Read? && b[i].Read? && a[i].records == b[i].records && (IsCurrent(a[i]) ==> IsCurrent(b[i]))
  }

  /** A file that vanishes and comes back extending what was read is a stutter:
      the follower returns what it would have returned had the file stayed. */
  lemma {:induction false} VanishIsStutter(t1: Tail, t2: Tail, id1: Identity, id2: Identity, gone: bool,
                                           seen: seq<Byte>, disks: seq<Disk>)
    requires Tracks(t1, id1, gone, seen) && Tracks(t2, id2, false, seen) && Shadows(t1, t2)
    requires Restoring(id1, gone, seen, disks)
    ensures OnlyWeakened(Reads(t1, disks), Reads(t2, WithoutVanishes(id2, disks)))
    decreases |disks|
  {
    hide Poll, Tracks, Shadows;
    if disks != [] {
      var d, rest := disks[0], disks[1..];
      ReadsStep(t1, disks);
      if d.Present? {
        var kept := Present(id2, d.data);
        var others := WithoutVanishes(id2, rest);
        FoundStep(t1, t2, id1, id2, gone, seen, d.id, d.data);
        VanishIsStutter(Poll(t1, d).0, Poll(t2, kept).0, d.id, id2, false, d.data, rest);
        ReadsStep(t2, [kept] + others);
        assert ([kept] + others)[1..] == others;
      } else {
        NotFoundStep(t1, t2, id1, gone, seen, d);
        VanishIsStutter(Poll(t1, d).0, t2, id1, id2, gone || d.Missing?, seen, rest);
      }
    }
  }

  lemma FoundStep(t1: Tail, t2: Tail, id1: Identity, id2: Identity, gone: bool, seen: seq<Byte>, id: Identity,
                  data: seq<Byte>)
    requires Tracks(t1, id1, gone, seen) && Tracks(t2, id2, false, seen) && Shadows(t1, t2)
    requires seen <= data && (id == id1 || gone)
    ensures var (n1, r1), (n2, r2) := Poll(t1, Present(id, data)), Poll(t2, Present(id2, data));
      && Tracks(n1, id, false, data) && Tracks(n2, id2, false, data) && Shadows(n1, n2)
      && r1.Read? && r2.Read? && r1.records == r2.records && (IsCurrent(r1) ==> IsCurrent(r2))
  {
    hide PollPresent, ReadLines, HeadIntact;
    GrownPoll(t1, id1, gone, seen, id, data);
    GrownPoll(t2, id2, false, seen, id2, data);
    SameRead(t1, t2, data);
  }

  lemma NotFoundStep(t1: Tail, t2: Tail, id1: Identity, gone: bool, seen: seq<Byte>, d: Disk)
    requires Tracks(t1, id1, gone, seen) && Shadows(t1, t2) && !d.Present?
    ensures Tracks(Poll(t1, d).0, id1, gone || d.Missing?, seen) && Shadows(Poll(t1, d).0, t2)
  {
  }

  lemma ReadsStep(t: Tail, disks: seq<Disk>)
    requires disks != []
    ensures Reads(t, disks) ==
      (if disks[0].Present? then [Poll(t, disks[0]).1] else []) + Reads(Poll(t, disks[0]).0, disks[1..])
  {
  }

  // ---- Closing and reopening at an anchor

  /** The held line ends exactly at the cursor. */
  predicate Synced(t: Tail) { t.partial != [] ==> t.partialPos + |t.partial| == t.offset }

  /** Indistinguishable by any later run: once displaced, `verified` is never looked at again. */
  predicate Equivalent(t1: Tail, t2: Tail) {
    && SameCursor(t1, t2) && (t1.resume.Some? <==> t2.resume.Some?)
    && (t1.resume.Some? ==>
         var r1, r2 := t1.resume.value, t2.resume.value;
         && r1.identity == r2.identity && r1.head == r2.head && r1.displaced == r2.displaced
         && r1.absent == r2.absent && (r1.displaced || r1.verified == r2.verified))
  }

  lemma EquivalentStep(t1: Tail, t2: Tail, d: Disk)
    requires Equivalent(t1, t2)
    ensures Poll(t1, d).1 == Poll(t2, d).1 && Equivalent(Poll(t1, d).0, Poll(t2, d).0)
  {
    hide Records, Rest, Lossy, ReadLines;
    if d.Present? {
      var data := d.data;
      if t1.resume.None? {
        var a := if |data| < t1.offset then t1.(offset := 0, partial := []) else t1;
        var b := if |data| < t2.offset then t2.(offset := 0, partial := []) else t2;
        SameRead(a, b, data);
        SameRead(b, a, data);
      } else {
        var r1, r2 := t1.resume.value, t2.resume.value;
        var closed := r1.displaced || !r1.verified;
        if r1.displaced || !BoundaryLost(t1, r1, d.id, data) {
          var a := if closed then Resynced(t1, r1, d.id, data) else t1;
          var b := if closed then Resynced(t2, r2, d.id, data) else t2;
          SameRead(a, b, data);
          SameRead(b, a, data);
        }
      }
    }
  }

  lemma {:induction false} EquivalentRuns(t1: Tail, t2: Tail, disks: seq<Disk>)
    requires Equivalent(t1, t2)
    ensures Outputs(t1, disks) == Outputs(t2, disks)
    decreases |disks|
  {
    hide Poll;
    if disks != [] {
      EquivalentStep(t1, t2, disks[0]);
      EquivalentRuns(Poll(t1, disks[0]).0, Poll(t2, disks[0]).0, disks[1..]);
    }
  }

  /** Closing a follower and reopening it at its anchor. */
  function Reopened(t: Tail, captured: Disk, reopened: Disk): Option<Tail> {
    if CaptureAnchor(t, captured).None? then None else Continued(reopened, CaptureAnchor(t, captured).value)
  }

  /** A reopened follower is indistinguishable from the one that was closed, for
      every later run of the file system, unless it was an unproven resume that
      had not yet been displaced or was waiting for its file to come back. */
  lemma ReopenIsInvisible(t: Tail, captured: Disk, reopened: Disk, disks: seq<Disk>)
    requires Synced(t) && Reopened(t, captured, reopened).Some?
    requires t.resume.Some? ==>
      var r := t.resume.value;
      r.head.Some? && !r.absent && (r.verified || r.displaced)
    ensures Outputs(Reopened(t, captured, reopened).value, disks) == Outputs(t, disks)
  {
    assert Equivalent(Reopened(t, captured, reopened).value, t);
    EquivalentRuns(Reopened(t, captured, reopened).value, t, disks);
  }

  /** As long as the file only grows, any follower may be closed and reopened:
      records, positions and provenance stay the same. */
  lemma ReopenThenAppend(t: Tail, captured: Disk, reopened: Disk, disks: seq<Disk>)
    requires Synced(t) && Reopened(t, captured, reopened).Some?
    requires Tracks(t, captured.id, false, reopened.data)
    requires Appending(captured.id, reopened.data, disks)
    ensures Outputs(Reopened(t, captured, reopened).value, disks) == Outputs(t, disks)
  {
    var c := Reopened(t, captured, reopened).value;
    assert Tracks(c, captured.id, false, reopened.data);
    SameUnderAppends(c, t, captured.id, reopened.data, disks);
  }

  predicate Appending(id: Identity, seen: seq<Byte>, disks: seq<Disk>)
    decreases |disks|
  {
    disks == [] ||
    (disks[0].Present? && disks[0].id == id && seen <= disks[0].data && Appending(id, disks[0].data, disks[1..]))
  }

  lemma {:induction false} SameUnderAppends(t1: Tail, t2: Tail, id: Identity, seen: seq<Byte>, disks: seq<Disk>)
    requires Tracks(t1, id, false, seen) && Tracks(t2, id, false, seen)
    requires SameCursor(t1, t2) && (GateClosed(t1) <==> GateClosed(t2))
    requires Appending(id, seen, disks)
    ensures Outputs(t1, disks) == Outputs(t2, disks)
    decreases |disks|
  {
    hide PollPresent, ReadLines, HeadIntact;
    if disks != [] {
      var d := disks[0];
      GrownPoll(t1, id, false, seen, id, d.data);
      GrownPoll(t2, id, false, seen, id, d.data);
      SameRead(t1, t2, d.data);
      SameUnderAppends(Poll(t1, d).0, Poll(t2, d).0, id, d.data, disks[1..]);
    }
  }

  // ---- The follower refines splitting the whole file

  function AllRecords(t: Tail, disks: seq<Disk>): seq<Record>
    decreases |disks|
  {
    if disks == [] then [] else RecordsOf(Poll(t, disks[0]).1) + AllRecords(Poll(t, disks[0]).0, disks[1..])
  }

  function FinalData(seen: seq<Byte>, disks: seq<Disk>): seq<Byte>
    decreases |disks|
  {
    if disks == [] then seen else FinalData(if disks[0].Present? then disks[0].data else seen, disks[1..])
  }

  /** What each poll that found the file read for the first time. */
  function Chunks(seen: seq<Byte>, disks: seq<Disk>): seq<seq<Byte>>
    decreases |disks|
  {
    if disks == [] then []
    else if disks[0].Present? && |seen| <= |disks[0].data| then
      [disks[0].data[|seen|..]] + Chunks(disks[0].data, disks[1..])
    else Chunks(seen, disks[1..])
  }

  predicate AllValid(chunks: seq<seq<Byte>>) { forall i | 0 <= i < |chunks| :: ValidUtf8(chunks[i]) }

  lemma {:induction false} FinalExtends(id: Identity, gone: bool, seen: seq<Byte>, disks: seq<Disk>)
    requires Restoring(id, gone, seen, disks)
    ensures seen <= FinalData(seen, disks)
    decreases |disks|
  {
    if disks != [] {
      var d := disks[0];
      if d.Present? {
        FinalExtends(d.id, false, d.data, disks[1..]);
      } else {
        FinalExtends(id, gone || d.Missing?, seen, disks[1..]);
      }
    }
  }

  /** A follower at the end of what it has seen, holding exactly the unterminated line. */
  predicate AtEnd(t: Tail, seen: seq<Byte>, at: nat) {
    && t.offset == |seen| && Holds(seen, |seen|, t.partial) && NoNl(t.partial)
    && at == |seen| - |t.partial| && (t.partial != [] ==> t.partialPos == at)
  }

  lemma ReadAtEnd(t: Tail, seen: seq<Byte>, at: nat, data: seq<Byte>)
    requires AtEnd(t, seen, at) && seen <= data && ValidUtf8(data[|seen|..])
    ensures ReadLines(t, data).1 == Records(at, data[at..], DecodedBefore)
    ensures AtEnd(ReadLines(t, data).0, data, |data| - |Rest(data[at..])|)
  {
    hide Records, Rest, Lossy, ValidUtf8, FirstNl;
    var chunk := data[|seen|..];
    LossyGrows(chunk);
    ExtendedSuffix(seen, data, at);
    assert seen[at..] == t.partial;
    assert t.partial + Lossy(chunk) == data[at..];
    var rest := Rest(data[at..]);
    FollowStep(data, data, at, DecodedBefore, data[at..], rest, |data| - |rest|);
    if data == seen {
      assert data[at..] == t.partial;
      NoLineLeft(at, t.partial, DecodedBefore);
    }
  }

  /** For any schedule of polls over a file that only grows (vanishes included)
      whose reads are well-formed text, the records returned are exactly those of
      splitting the final file from where the follower stood. */
  lemma {:induction false} RefinesWholeFile(t: Tail, id: Identity, gone: bool, seen: seq<Byte>, at: nat,
                                            disks: seq<Disk>, final: seq<Byte>)
    requires Tracks(t, id, gone, seen) && AtEnd(t, seen, at) && Restoring(id, gone, seen, disks)
    requires AllValid(Chunks(seen, disks)) && final == FinalData(seen, disks)
    ensures at <= |final|
    ensures AllRecords(t, disks) == Records(at, final[at..], DecodedBefore)
    ensures Synced(After(t, disks)) && After(t, disks).partial == Rest(final[at..])
    decreases |disks|
  {
    hide Records, Rest, Lossy, ValidUtf8, FirstNl, PollPresent, ReadLines, HeadIntact;
    FinalExtends(id, gone, seen, disks);
    if disks == [] {
      assert seen[at..] == t.partial;
      NoLineLeft(at, t.partial, DecodedBefore);
    } else {
      var d, rest := disks[0], disks[1..];
      var t1 := Poll(t, d).0;
      if d.Present? {
        ChunksStep(seen, disks);
        GrownPoll(t, id, gone, seen, d.id, d.data);
        ReadAtEnd(t, seen, at, d.data);
        var held := Rest(d.data[at..]);
        FinalExtends(d.id, false, d.data, rest);
        FollowStep(d.data, final, at, DecodedBefore, d.data[at..], held, |d.data| - |held|);
        RefinesWholeFile(t1, d.id, false, d.data, |d.data| - |held|, rest, final);
      } else {
        RefinesWholeFile(t1, id, gone || d.Missing?, seen, at, rest, final);
      }
    }
  }

  lemma ChunksStep(seen: seq<Byte>, disks: seq<Disk>)
    requires disks != [] && disks[0].Present? && seen <= disks[0].data && AllValid(Chunks(seen, disks))
    ensures ValidUtf8(disks[0].data[|seen|..]) && AllValid(Chunks(disks[0].data, disks[1..]))
  {
    hide ValidUtf8;
    var all := Chunks(seen, disks);
    assert all[0] == disks[0].data[|seen|..] && all[1..] == Chunks(disks[0].data, disks[1..]);
  }

  lemma NewTailAtEnd(id: Identity)
    ensures Tracks(NewTail, id, false, []) && AtEnd(NewTail, [], 0)
  {
  }

  /** A live follower of a file that only grows returns exactly its whole
      non-empty lines at their true offsets. */
  lemma LiveRefinesWholeFile(id: Identity, disks: seq<Disk>)
    requires Restoring(id, false, [], disks) && AllValid(Chunks([], disks))
    ensures AllRecords(NewTail, disks) == Records(0, FinalData([], disks), DecodedBefore)
  {
    hide Records, Rest, Lossy, ValidUtf8, FirstNl, Restoring, Chunks, AllValid, AllRecords, After, Tracks, AtEnd;
    var final := FinalData([], disks);
    NewTailAtEnd(id);
    RefinesWholeFile(NewTail, id, false, [], 0, disks, final);
    assert final[0..] == final;
  }

  /** A follower resumed at a snapshot of the file returns exactly the lines
      appended after it, and as long as the file only grows all of them as `Current`. */
  lemma ResumeReadsOnlyAppends(d: Disk, disks: seq<Disk>, final: seq<Byte>)
    requires d.Present? && Restoring(d.id, false, d.data, disks) && AllValid(Chunks(d.data, disks))
    requires final == FinalData(d.data, disks)
    ensures |d.data| <= |final|
    ensures AllRecords(ResumedTail(Snapshot(d).value), disks) == Records(|d.data|, final[|d.data|..], DecodedBefore)
    ensures Appending(d.id, d.data, disks) ==>
      forall k | 0 <= k < |disks| :: IsCurrent(Outputs(ResumedTail(Snapshot(d).value), disks)[k])
  {
    hide Records, Rest, Lossy, ValidUtf8, FirstNl, Restoring, Chunks, AllValid, AllRecords, After, Appending, Outputs;
    var t := ResumedTail(Snapshot(d).value);
    RefinesWholeFile(t, d.id, false, d.data, |d.data|, disks, final);
    if Appending(d.id, d.data, disks) {
      AppendsAreCurrent(t, d.id, d.data, disks);
    }
  }

  lemma {:induction false} AppendsAreCurrent(t: Tail, id: Identity, seen: seq<Byte>, disks: seq<Disk>)
    requires Tracks(t, id, false, seen) && !GateClosed(t) && Appending(id, seen, disks)
    ensures forall k | 0 <= k < |disks| :: IsCurrent(Outputs(t, disks)[k])
    decreases |disks|
  {
    hide PollPresent, ReadLines, HeadIntact;
    if disks != [] {
      GrownPoll(t, id, false, seen, id, disks[0].data);
      AppendsAreCurrent(Poll(t, disks[0]).0, id, disks[0].data, disks[1..]);
    }
  }

  // ---- The character-boundary assumption, exactly

  /** Every poll ended on a character boundary of the final file. */
  predicate EndsOnBoundaries(seen: seq<Byte>, disks: seq<Disk>, final: seq<Byte>)
    decreases |disks|
  {
    disks == [] ||
    (if disks[0].Present? && |disks[0].data| <= |final| then
       CharBoundary(final, |disks[0].data|) && EndsOnBoundaries(disks[0].data, disks[1..], final)
     else EndsOnBoundaries(seen, disks[1..], final))
  }

  /** Over a well-formed file, every read is well formed exactly when every poll
      ended on a character boundary. */
  lemma {:induction false} ValidReadsExactly(id: Identity, gone: bool, seen: seq<Byte>, disks: seq<Disk>,
                                             final: seq<Byte>)
    requires Restoring(id, gone, seen, disks) && final == FinalData(seen, disks)
    requires ValidUtf8(final) && seen <= final && CharBoundary(final, |seen|)
    ensures AllValid(Chunks(seen, disks)) <==> EndsOnBoundaries(seen, disks, final)
    decreases |disks|
  {
    hide ValidUtf8, Lossy;
    if disks != [] {
      var d, rest := disks[0], disks[1..];
      if d.Present? {
        FinalExtends(d.id, false, d.data, rest);
        var later := final[|seen|..];
        ValidCut(final, |seen|);
        ValidCut(later, |d.data| - |seen|);
        assert later[..|d.data| - |seen|] == d.data[|seen|..];
        var all := Chunks(seen, disks);
        assert all[0] == d.data[|seen|..] && all[1..] == Chunks(d.data, rest);
        assert AllValid(all) <==> ValidUtf8(all[0]) && AllValid(all[1..]) by {
          assert forall i | 0 < i < |all| :: all[i] == all[1..][i - 1];
          assert forall i | 0 <= i < |all| - 1 :: all[1..][i] == all[i + 1];
        }
        if CharBoundary(final, |d.data|) {
          ValidReadsExactly(d.id, false, d.data, rest, final);
        }
      } else {
        ValidReadsExactly(id, gone || d.Missing?, seen, rest, final);
      }
    }
  }

  function LinesOf(rs: seq<Record>): seq<seq<Byte>> {
    if rs == [] then [] else [rs[0].line] + LinesOf(rs[1..])
  }

  lemma {:induction false} LinesOfConcat(a: seq<Record>, b: seq<Record>)
    ensures LinesOf(a + b) == LinesOf(a) + LinesOf(b)
  {
    if a == [] {
      assert a + b == b;
    } else {
      assert (a + b)[1..] == a[1..] + b;
      LinesOfConcat(a[1..], b);
    }
  }

  lemma {:induction false} LinesIgnorePosition(p: nat, q: nat, s: seq<Byte>, f: Decode)
    ensures LinesOf(Records(p, s, f)) == LinesOf(Records(q, s, f))
    decreases |s|
  {
    hide Records, LineText;
    var i := FirstNl(s);
    if i == |s| {
      NoLineLeft(p, s, f);
      NoLineLeft(q, s, f);
    } else {
      var raw, tail := s[..i], s[i + 1..];
      Unfold(p, s, f, i, raw, p + i + 1, tail);
      Unfold(q, s, f, i, raw, q + i + 1, tail);
      LinesIgnorePosition(p + i + 1, q + i + 1, tail, f);
      LinesOfConcat(Emitted(p, LineText(f, raw)), Records(p + i + 1, tail, f));
      LinesOfConcat(Emitted(q, LineText(f, raw)), Records(q + i + 1, tail, f));
    }
  }

  /** One read splits the held line followed by the decoded chunk. */
  lemma ReadSplitsText(t: Tail, seen: seq<Byte>, data: seq<Byte>, text: seq<Byte>)
    requires t.offset == |seen| && seen <= data && NoNl(t.partial) && text == t.partial + Lossy(data[|seen|..])
    ensures LinesOf(ReadLines(t, data).1) == LinesOf(Records(0, text, DecodedBefore))
    ensures ReadLines(t, data).0.partial == Rest(text) && NoNl(Rest(text))
  {
    hide Records, Rest, FirstNl;
    RestIsSuffix(text);
    if |data| == |seen| {
      assert text == t.partial;
      NoLineLeft(0, text, DecodedBefore);
    } else {
      LinesIgnorePosition(if t.partial == [] then t.offset else t.partialPos, 0, text, DecodedBefore);
    }
  }

  /** Whatever the polls cut through, the lines returned and the line held are
      those of the text decoded chunk by chunk. */
  lemma {:induction false} SplitsDecodedText(t: Tail, id: Identity, gone: bool, seen: seq<Byte>, disks: seq<Disk>,
                                             text: seq<Byte>)
    requires Tracks(t, id, gone, seen) && Restoring(id, gone, seen, disks)
    requires t.offset == |seen| && NoNl(t.partial) && text == t.partial + JoinedLossy(Chunks(seen, disks))
    ensures LinesOf(AllRecords(t, disks)) == LinesOf(Records(0, text, DecodedBefore))
    ensures After(t, disks).partial == Rest(text)
    decreases |disks|
  {
    hide Records, Rest, Lossy, FirstNl, PollPresent, ReadLines, HeadIntact;
    if disks == [] {
      assert text == t.partial;
      NoLineLeft(0, t.partial, DecodedBefore);
    } else {
      var d, rest := disks[0], disks[1..];
      var t1 := Poll(t, d).0;
      if d.Present? {
        GrownPoll(t, id, gone, seen, d.id, d.data);
        var chunk, more := d.data[|seen|..], JoinedLossy(Chunks(d.data, rest));
        var now := t.partial + Lossy(chunk);
        ReadSplitsText(t, seen, d.data, now);
        JoinedStep(chunk, Chunks(d.data, rest));
        AppendAssociates(t.partial, Lossy(chunk), more);
        SplitsDecodedText(t1, d.id, false, d.data, rest, Rest(now) + more);
        RecordsConcat(0, now, more, DecodedBefore, Rest(now), |now| - |Rest(now)|);
        LinesOfConcat(Records(0, now, DecodedBefore), Records(|now| - |Rest(now)|, Rest(now) + more, DecodedBefore));
        LinesIgnorePosition(|now| - |Rest(now)|, 0, Rest(now) + more, DecodedBefore);
        LinesOfConcat(RecordsOf(Poll(t, d).1), AllRecords(t1, rest));
      } else {
        SplitsDecodedText(t1, id, gone || d.Missing?, seen, rest, text);
        assert RecordsOf(Poll(t, d).1) + AllRecords(t1, rest) == AllRecords(t1, rest);
      }
    }
  }

  lemma JoinedStep(chunk: seq<Byte>, rest: seq<seq<Byte>>)
    ensures JoinedLossy([chunk] + rest) == Lossy(chunk) + JoinedLossy(rest)
    ensures Flatten([chunk] + rest) == chunk + Flatten(rest)
  {
    assert ([chunk] + rest)[1..] == rest;
  }

  lemma {:induction false} ChunksJoinToFile(id: Identity, gone: bool, seen: seq<Byte>, disks: seq<Disk>)
    requires Restoring(id, gone, seen, disks)
    ensures seen + Flatten(Chunks(seen, disks)) == FinalData(seen, disks)
    decreases |disks|
  {
    if disks != [] {
      var d, rest := disks[0], disks[1..];
      if d.Present? {
        ChunksJoinToFile(d.id, false, d.data, rest);
        JoinedStep(d.data[|seen|..], Chunks(d.data, rest));
        assert seen + d.data[|seen|..] == d.data;
      } else {
        ChunksJoinToFile(id, gone || d.Missing?, seen, rest);
      }
    }
  }

  /** The lines and the held rest keep every byte but newlines and carriage returns, in order. */
  lemma {:induction false} LinesKeepBytes(pos: nat, s: seq<Byte>)
    ensures Solid(Flatten(LinesOf(Records(pos, s, DecodedBefore)))) + Solid(Rest(s)) == Solid(s)
    decreases |s|
  {
    hide Solid, Flatten, LinesOf, FirstNl, TrimCr;
    var i := FirstNl(s);
    if i == |s| {
      NoLines();
    } else {
      var raw, tail := s[..i], s[i + 1..];
      var line := LineText(DecodedBefore, raw);
      var lines := LinesOf(Records(pos + i + 1, tail, DecodedBefore));
      LinesKeepBytes(pos + i + 1, tail);
      EmittedLine(pos, line, Records(pos + i + 1, tail, DecodedBefore));
      SolidTrimmed(raw);
      SolidConcat(line, Flatten(lines));
      SolidLine(raw, tail);
      assert s == raw + ([NL] + tail);
      AppendAssociates(Solid(raw), Solid(Flatten(lines)), Solid(Rest(tail)));
    }
  }

  lemma NoLines()
    ensures Solid(Flatten(LinesOf([]))) == [] && forall s: seq<Byte> :: [] + s == s
  {
  }

  lemma EmittedLine(pos: nat, line: seq<Byte>, rest: seq<Record>)
    ensures Flatten(LinesOf(Emitted(pos, line) + rest)) == line + Flatten(LinesOf(rest))
  {
    hide Flatten;
    if line == [] {
      assert Emitted(pos, line) + rest == rest;
    } else {
      assert (Emitted(pos, line) + rest)[1..] == rest;
      FlattenCons(line, LinesOf(rest));
    }
  }

  lemma SolidLine(raw: seq<Byte>, tail: seq<Byte>)
    ensures Solid(raw + ([NL] + tail)) == Solid(raw) + Solid(tail)
  {
    SolidConcat(raw, [NL] + tail);
    assert ([NL] + tail)[1..] == tail;
  }

  /** The follower has returned the lines of `data` and holds its unterminated rest. */
  predicate Exact(records: seq<Record>, held: seq<Byte>, data: seq<Byte>) {
    LinesOf(records) == LinesOf(Records(0, data, DecodedBefore)) && held == Rest(data)
  }

  /** Over a well-formed file a live follower's lines and held rest are those of the
      file exactly when every poll ended on a character boundary; then the
      positions are exact too. */
  lemma LiveTextExact(id: Identity, disks: seq<Disk>, final: seq<Byte>)
    requires Restoring(id, false, [], disks) && final == FinalData([], disks) && ValidUtf8(final)
    ensures Exact(AllRecords(NewTail, disks), After(NewTail, disks).partial, final) <==>
      EndsOnBoundaries([], disks, final)
    ensures EndsOnBoundaries([], disks, final) ==> AllRecords(NewTail, disks) == Records(0, final, DecodedBefore)
  {
    hide Records, Rest, Lossy, ValidUtf8, FirstNl, Solid, LinesOf, Flatten, JoinedLossy, Chunks;
    var chunks := Chunks([], disks);
    var text := JoinedLossy(chunks);
    assert NewTail.partial + text == text;
    SplitsDecodedText(NewTail, id, false, [], disks, text);
    ChunksJoinToFile(id, false, [], disks);
    assert [] + Flatten(chunks) == Flatten(chunks);
    ValidCut(final, 0);
    assert final[0..] == final;
    ValidReadsExactly(id, false, [], disks, final);
    LinesKeepBytes(0, text);
    LinesKeepBytes(0, final);
    SolidChunks(chunks);
    if AllValid(chunks) {
      ChunkedDecodingExact(chunks);
      LiveRefinesWholeFile(id, disks);
    }
  }

  /** A poll that cuts a two-byte character corrupts its line and shifts the
      position of the next record, so the assumption cannot be dropped. */
  lemma SplitCharacterCorrupts(id: Identity) returns (disks: seq<Disk>)
    ensures Restoring(id, false, [], disks) && ValidUtf8(FinalData([], disks))
    ensures AllRecords(NewTail, disks) == [Record(0, REPLACEMENT + REPLACEMENT), Record(7, [97])]
    ensures Records(0, FinalData([], disks), DecodedBefore) == [Record(0, [0xC3, 0xA9]), Record(3, [97])]
  {
    hide Records, Rest, Lossy, ValidUtf8, FirstNl, FirstPiece, PollPresent;
    var first: seq<Byte> := [0xC3];
    var whole: seq<Byte> := [0xC3, 0xA9, NL, 97, NL];
    disks := [Present(id, first), Present(id, whole)];
    assert disks[1..] == [Present(id, whole)] && disks[1..][1..] == [];
    assert Restoring(id, false, first, disks[1..]) by {
      assert first <= whole && Restoring(id, false, whole, []);
    }
    assert FinalData([], disks) == FinalData(first, disks[1..]) == FinalData(whole, []) == whole;
    ConcreteDecodings(first, whole);
    LivePoll(NewTail, id, first, REPLACEMENT, 0);
    NoLineLeft(0, REPLACEMENT, DecodedBefore);
    var t0 := Tail(1, REPLACEMENT, 0, None);
    assert Poll(NewTail, disks[0]) == (t0, Read([], Current));
    var text := REPLACEMENT + REPLACEMENT + [NL, 97, NL];
    assert REPLACEMENT + (REPLACEMENT + [NL, 97, NL]) == text;
    LivePoll(t0, id, whole, text, 0);
    assert AllRecords(t0, disks[1..]) == Records(0, text, DecodedBefore) by {
      var t1 := Poll(t0, disks[1]).0;
      assert AllRecords(t1, []) == [];
    }
    assert AllRecords(NewTail, disks) == [] + AllRecords(t0, disks[1..]);
    ThreeLines(0, REPLACEMENT + REPLACEMENT, text);
    ThreeLines(0, [0xC3, 0xA9], whole);
  }

  lemma LivePoll(t: Tail, id: Identity, data: seq<Byte>, text: seq<Byte>, pos: nat)
    requires t.resume.None? && t.offset < |data| && text == t.partial + Lossy(data[t.offset..])
    requires pos == if t.partial == [] then t.offset else t.partialPos
    ensures Poll(t, Present(id, data)) ==
      (Tail(|data|, Rest(text), pos + |text| - |Rest(text)|, None), Read(Records(pos, text, DecodedBefore), Current))
  {
    hide Records, Rest, Lossy;
  }

  lemma ConcreteDecodings(first: seq<Byte>, whole: seq<Byte>)
    requires first == [0xC3] && whole == [0xC3, 0xA9, NL, 97, NL]
    ensures ValidUtf8(whole) && Lossy(first[0..]) == REPLACEMENT
    ensures Lossy(whole[1..]) == REPLACEMENT + [NL, 97, NL]
  {
    assert FirstPiece(whole) == Piece(2, true);
    assert whole[2..] == [NL, 97, NL];
    AsciiValid(whole[2..]);
    assert first[0..] == first && FirstPiece(first) == Piece(1, false) && first[1..] == [];
    assert Lossy([]) == [];
    assert whole[1..] == [0xA9, NL, 97, NL];
    LossyContinuation(whole[1..]);
  }

  lemma LossyContinuation(chunk: seq<Byte>)
    requires chunk == [0xA9, NL, 97, NL]
    ensures Lossy(chunk) == REPLACEMENT + [NL, 97, NL]
  {
    assert FirstPiece(chunk) == Piece(1, false);
    var tail: seq<Byte> := [NL, 97, NL];
    assert chunk[1..] == tail;
    AsciiValid(tail);
    LossyGrows(tail);
  }

  lemma ThreeLines(pos: nat, word: seq<Byte>, text: seq<Byte>)
    requires word != [] && NoNl(word) && word[|word| - 1] != CR && text == word + [NL, 97, NL]
    ensures Records(pos, text, DecodedBefore) == [Record(pos, word), Record(pos + |word| + 1, [97])]
  {
    var tail: seq<Byte> := [97, NL];
    assert text[..|word|] == word && text[|word| + 1..] == tail;
    Unfold(pos, text, DecodedBefore, |word|, word, pos + |word| + 1, tail);
    assert tail[..1] == [97] && tail[2..] == [];
    Unfold(pos + |word| + 1, tail, DecodedBefore, 1, [97], pos + |word| + 3, []);
    NoLineLeft(pos + |word| + 3, [], DecodedBefore);
  }
}
