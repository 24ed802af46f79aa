/** Positions over whole runs of the file system, truncations, replacements and
vanishes included, when every read is well-formed text. */
module TailPositions {
  import opened JsonValue
  import opened Sequences
  import opened Utf8
  import opened Lines
  import opened TranscriptTail
  import opened TailTrust
  import opened TailContinuity

  /** The follower as it is when a poll of a present file starts to read. */
  function Settled(t: Tail, id: Identity, data: seq<Byte>): (t1: Tail)
    ensures t1.offset <= |data|
  {
    if t.resume.None? then (if |data| < t.offset then t.(offset := 0, partial := []) else t)
    else
      var r := t.resume.value;
      if !r.displaced && BoundaryLost(t, r, id, data) then t.(offset := |data|, partial := [])
      else if r.displaced || !r.verified then Resynced(t, r, id, data)
      else t
  }

  /** What a poll of a present file reads is well-formed text. */
  predicate WellRead(t: Tail, d: Disk) { d.Present? ==> ValidUtf8(d.data[Settled(t, d.id, d.data).offset..]) }

  predicate WellFormedReads(t: Tail, disks: seq<Disk>)
    decreases |disks|
  {
    disks == [] || (WellRead(t, disks[0]) && WellFormedReads(Poll(t, disks[0]).0, disks[1..]))
  }

  /** A poll of a present file is a read from where it settled. */
  lemma PollReadsFrom(t: Tail, id: Identity, data: seq<Byte>)
    ensures var t0 := Settled(t, id, data);
      var (t1, result) := PollPresent(t, id, data);
      && result.Read? && result.records == ReadLines(t0, data).1 && SameCursor(t1, ReadLines(t0, data).0)
  {
    hide Records, Rest, Lossy, HeadIntact;
  }

  lemma SettledSynced(t: Tail, id: Identity, data: seq<Byte>)
    requires Synced(t)
    ensures Synced(Settled(t, id, data))
  {
    hide HeadIntact;
  }

  /** Where the next record can start: at the held line, or at the cursor. */
  function Front(t: Tail): int { t.offset - |t.partial| }

  /** A well-formed read returns records in order from the old front to before the new one. */
  lemma ReadAdvances(t: Tail, data: seq<Byte>)
    requires Synced(t) && t.offset <= |data| && ValidUtf8(data[t.offset..])
    ensures var (t1, records) := ReadLines(t, data);
      && Synced(t1) && Front(t) <= Front(t1)
      && Increasing(records) && forall r | r in records :: Front(t) <= r.pos < Front(t1)
  {
    hide Records, Rest, Lossy, ValidUtf8, RecordOf;
    var chunk := data[t.offset..];
    LossyGrows(chunk);
    if |data| != t.offset {
      var pos := if t.partial == [] then t.offset else t.partialPos;
      var text := t.partial + chunk;
      RecordsExact(pos, text, DecodedBefore);
      forall r | r in Records(pos, text, DecodedBefore) ensures r.pos < pos + |text| - |Rest(text)| {
        BeforeRest(pos, text, r);
      }
    }
  }

  lemma BeforeRest(pos: nat, s: seq<Byte>, r: Record)
    requires RecordOf(pos, s, DecodedBefore, r)
    ensures r.pos < pos + |s| - |Rest(s)|
  {
    hide Rest, LineText;
    RestIsSuffix(s);
    var n := |s| - |Rest(s)|;
    var p: nat, q: nat :| LineAt(s, DecodedBefore, p, q) && r == Record(pos + p, LineText(DecodedBefore, s[p..q]));
    assert forall k | n <= k < |s| :: s[k] == Rest(s)[k - n];
  }

  lemma SyncedStep(t: Tail, d: Disk)
    requires Synced(t) && WellRead(t, d)
    ensures Synced(Poll(t, d).0)
  {
    hide Records, Rest, Lossy, ValidUtf8, PollPresent, ReadLines, Settled, Increasing;
    if d.Present? {
      SettledSynced(t, d.id, d.data);
      ReadAdvances(Settled(t, d.id, d.data), d.data);
      PollReadsFrom(t, d.id, d.data);
    }
  }

  /** The held line ends exactly at the cursor in every state of every run with
      well-formed reads, truncations and replacements included. */
  lemma {:induction false} SyncedAlways(t: Tail, disks: seq<Disk>)
    requires Synced(t) && WellFormedReads(t, disks)
    ensures Synced(After(t, disks))
    decreases |disks|
  {
    hide Poll, WellRead, Synced;
    if disks != [] {
      SyncedStep(t, disks[0]);
      SyncedAlways(Poll(t, disks[0]).0, disks[1..]);
    }
  }

  /** Closing and reopening after any such run is invisible to every later one. */
  lemma ReopenAfterAnyRun(t: Tail, before: seq<Disk>, captured: Disk, reopened: Disk, later: seq<Disk>)
    requires Synced(t) && WellFormedReads(t, before)
    requires var now := After(t, before);
      && Reopened(now, captured, reopened).Some?
      && (now.resume.Some? ==>
            var r := now.resume.value; r.head.Some? && !r.absent && (r.verified || r.displaced))
    ensures Outputs(Reopened(After(t, before), captured, reopened).value, later) == Outputs(After(t, before), later)
  {
    hide Outputs, After, Synced, WellFormedReads;
    SyncedAlways(t, before);
    ReopenIsInvisible(After(t, before), captured, reopened, later);
  }

  lemma ContinuousReadsOn(t: Tail, d: Disk)
    requires t.resume.Some? && Sane(t) && d.Present? && !Discontinuity(t, d)
    ensures SameCursor(Settled(t, d.id, d.data), t)
  {
    hide HeadIntact;
  }

  /** Without a discontinuity a resumed follower returns every position at most once,
      in order: over the whole run positions strictly increase. */
  lemma {:induction false} ContinuousRunIncreases(t: Tail, disks: seq<Disk>)
    requires t.resume.Some? && Sane(t) && Synced(t) && Continuous(t, disks) && WellFormedReads(t, disks)
    ensures Increasing(AllRecords(t, disks)) && forall r | r in AllRecords(t, disks) :: Front(t) <= r.pos
    decreases |disks|
  {
    hide Poll, WellRead, Increasing, Discontinuity;
    if disks == [] {
      NothingIncreases();
    } else {
      var t1 := Poll(t, disks[0]).0;
      StepIncreases(t, disks[0]);
      ContinuousRunIncreases(t1, disks[1..]);
      IncreasingConcat(RecordsOf(Poll(t, disks[0]).1), AllRecords(t1, disks[1..]), Front(t1));
    }
  }

  lemma NothingIncreases()
    ensures Increasing([])
  {
  }

  lemma IncreasingConcat(a: seq<Record>, b: seq<Record>, front: int)
    requires Increasing(a) && Increasing(b)
    requires (forall r | r in a :: r.pos < front) && forall r | r in b :: front <= r.pos
    ensures Increasing(a + b)
  {
  }

  lemma StepIncreases(t: Tail, d: Disk)
    requires t.resume.Some? && Sane(t) && Synced(t) && !Discontinuity(t, d) && WellRead(t, d)
    ensures var (t1, result) := Poll(t, d);
      && t1.resume.Some? && Sane(t1) && Synced(t1) && Front(t) <= Front(t1)
      && Increasing(RecordsOf(result)) && forall r | r in RecordsOf(result) :: Front(t) <= r.pos < Front(t1)
  {
    hide Records, Rest, Lossy, ValidUtf8, PollPresent, ReadLines, Settled, Increasing;
    NothingIncreases();
    SyncedStep(t, d);
    StaysResumed(t, d);
    if d.Present? {
      ContinuousReadsOn(t, d);
      SettledSynced(t, d.id, d.data);
      ReadAdvances(Settled(t, d.id, d.data), d.data);
      PollReadsFrom(t, d.id, d.data);
    }
  }

  lemma StaysResumed(t: Tail, d: Disk)
    requires t.resume.Some? && Sane(t) && !Discontinuity(t, d)
    ensures Poll(t, d).0.resume.Some? && Sane(Poll(t, d).0)
  {
    hide Poll, Discontinuity;
    ContinuousStep(t, d, 0);
  }

  /** After a discontinuity nothing is returned twice: until the next one positions
      strictly increase from the length the file had then. */
  lemma NoReplayExactlyOnce(t: Tail, d: Disk, later: seq<Disk>)
    requires Sane(t) && Discontinuity(t, d)
    requires Continuous(Poll(t, d).0, later) && WellFormedReads(Poll(t, d).0, later)
    ensures Increasing(AllRecords(Poll(t, d).0, later))
    ensures AllAbove(AllRecords(Poll(t, d).0, later), |d.data|)
  {
    hide Poll, Continuous, WellFormedReads, Increasing, AllRecords;
    DiscontinuityReadsNothing(t, d);
    SaneAlways(t, [d]);
    var t1 := Poll(t, d).0;
    assert After(t, [d]) == t1 by { assert [d][1..] == []; }
    ContinuousRunIncreases(t1, later);
  }
}
