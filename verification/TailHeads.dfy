/** What the follower's checks mean in bytes: how much of the file vouches for it,
where unproven resumes start, and when an anchor reopens. */
module TailHeads {
  import opened JsonValue
  import opened Sequences
  import opened Utf8
  import opened Lines
  import opened TranscriptTail
  import opened TailTrust
  import opened TailContinuity

  // ---- The head

  /** The file still begins with the first 8192 bytes of `data`, or with all of them if there are fewer. */
  predicate SameHead(data: seq<Byte>, now: seq<Byte>) {
    var n := if |data| < 8192 then |data| else 8192;
    n <= |now| && now[..n] == data[..n]
  }

  lemma HeadCovers(data: seq<Byte>, now: seq<Byte>)
    ensures HeadIntact(Some(HeadOf(data)), now) <==> SameHead(data, now)
  {
  }

  /** The poll finds the file of the snapshot `d`, grown: same inode, same head, and
      no shorter than the `len` bytes seen before. */
  predicate SameFile(d: Disk, len: nat, now: Disk)
    requires d.Present?
  {
    now.Present? && now.id == d.id && SameHead(d.data, now.data) && len <= |now.data|
  }

  /** At every poll so far the file was there, if it could be opened as itself, and not
      shorter than at the snapshot or at any poll before. */
  ghost predicate AlwaysSameFile(d: Disk, disks: seq<Disk>, n: nat)
    requires d.Present? && n <= |disks|
  {
    forall j | 0 <= j < n ::
      && !disks[j].Missing? && (disks[j].Present? ==> SameFile(d, |d.data|, disks[j]))
      && forall i | 0 <= i < j && disks[i].Present? && disks[j].Present? :: |disks[i].data| <= |disks[j].data|
  }

  lemma CleanMeansSame(d: Disk, cursor: nat, now: Disk)
    requires d.Present? && |d.data| <= cursor
    ensures Clean(Snapshot(d).value, cursor, now) <==>
      !now.Missing? && (now.Present? ==> SameFile(d, |d.data|, now) && cursor <= |now.data|)
  {
    hide HeadIntact, HeadOf, SameHead;
    if now.Present? {
      HeadCovers(d.data, now.data);
    }
  }

  /** An unbroken run, poll by poll, from a follower that has seen `cursor` bytes. */
  lemma {:induction false} UnbrokenInBytes(d: Disk, cursor: nat, disks: seq<Disk>)
    requires d.Present? && |d.data| <= cursor
    ensures Unbroken(Snapshot(d).value, cursor, disks) <==>
      && AlwaysSameFile(d, disks, |disks|)
      && forall j | 0 <= j < |disks| && disks[j].Present? :: cursor <= |disks[j].data|
    decreases |disks|
  {
    hide Clean, SameFile, Snapshot;
    if disks != [] {
      var now, rest := disks[0], disks[1..];
      CleanMeansSame(d, cursor, now);
      assert forall j | 0 <= j < |rest| :: rest[j] == disks[j + 1];
      assert forall j | 0 < j < |disks| :: disks[j] == rest[j - 1];
      if !now.Present? || cursor <= |now.data| {
        UnbrokenInBytes(d, Advanced(cursor, now), rest);
      }
      FirstThenRest(d, disks);
    }
  }

  lemma FirstThenRest(d: Disk, disks: seq<Disk>)
    requires d.Present? && disks != []
    ensures AlwaysSameFile(d, disks, |disks|) <==>
      && !disks[0].Missing? && (disks[0].Present? ==> SameFile(d, |d.data|, disks[0]))
      && AlwaysSameFile(d, disks[1..], |disks| - 1)
      && (disks[0].Present? ==> forall j | 0 <= j < |disks| && disks[j].Present? :: |disks[0].data| <= |disks[j].data|)
  {
    hide SameFile;
    var rest := disks[1..];
    assert forall j | 0 <= j < |rest| :: rest[j] == disks[j + 1];
    assert forall j | 0 < j < |disks| :: disks[j] == rest[j - 1];
    if AlwaysSameFile(d, rest, |rest|) && !disks[0].Missing? && (disks[0].Present? ==> SameFile(d, |d.data|, disks[0]))
       && (disks[0].Present? ==>
          forall j | 0 <= j < |disks| && disks[j].Present? :: |disks[0].data| <= |disks[j].data|) {
      forall j | 0 <= j < |disks|
        ensures !disks[j].Missing? && (disks[j].Present? ==> SameFile(d, |d.data|, disks[j]))
        ensures forall i | 0 <= i < j && disks[i].Present? && disks[j].Present? :: |disks[i].data| <= |disks[j].data|
      {
        forall i | 0 <= i < j && disks[i].Present? && disks[j].Present? ensures |disks[i].data| <= |disks[j].data| {
          assert i > 0 ==> rest[i - 1] == disks[i] && rest[j - 1] == disks[j];
        }
      }
    }
  }

  /** The trust gate in bytes: a poll of a follower resumed at a snapshot is `Current`
      exactly when it read the file and every poll so far found the snapshot's file,
      with its first 8192 bytes as they were and no byte lost at the end. */
  lemma GateInBytes(d: Disk, disks: seq<Disk>, k: nat)
    requires d.Present? && k < |disks|
    ensures IsCurrent(Outputs(ResumedTail(Snapshot(d).value), disks)[k]) <==>
      disks[k].Present? && AlwaysSameFile(d, disks, k + 1)
  {
    hide Outputs, Unbroken, SameFile;
    var b := Snapshot(d).value;
    ResumedGateExact(b, disks, k);
    UnbrokenInBytes(d, |d.data|, disks[..k + 1]);
    SamePrefix(d, disks, k + 1);
    if AlwaysSameFile(d, disks, k + 1) {
      forall j | 0 <= j < k + 1 && disks[j].Present? ensures |d.data| <= |disks[j].data| {
        LongEnough(d, |d.data|, disks[j]);
      }
    }
  }

  lemma LongEnough(d: Disk, len: nat, now: Disk)
    requires d.Present? && SameFile(d, len, now)
    ensures len <= |now.data|
  {
  }

  lemma SamePrefix(d: Disk, disks: seq<Disk>, n: nat)
    requires d.Present? && n <= |disks|
    ensures AlwaysSameFile(d, disks[..n], n) <==> AlwaysSameFile(d, disks, n)
  {
    hide SameFile;
    assert forall j | 0 <= j < n :: disks[..n][j] == disks[j];
  }

  /** A head the follower has taken is checked as those bytes at every later poll:
      until the next discontinuity all files begin with them, and a poll that finds
      another head returns nothing. */
  lemma {:induction false} HeadIsKept(t: Tail, data: seq<Byte>, disks: seq<Disk>, k: nat)
    requires t.resume.Some? && t.resume.value.head == Some(HeadOf(data)) && Sane(t)
    requires k < |disks| && Continuous(t, disks[..k]) && disks[k].Present?
    ensures Continuous(t, disks[..k + 1]) ==> SameHead(data, disks[k].data)
    ensures !SameHead(data, disks[k].data) ==> Outputs(t, disks)[k] == Read([], Unverified)
    decreases |disks|
  {
    hide HeadOf, SameHead, PollPresent;
    if k == 0 {
      HeadCovers(data, disks[0].data);
      assert disks[..1] == [disks[0]];
      if !SameHead(data, disks[0].data) {
        DiscontinuityReadsNothing(t, disks[0]);
      }
    } else {
      var t1, rest := Poll(t, disks[0]).0, disks[1..];
      assert disks[..k][0] == disks[0] && disks[..k][1..] == rest[..k - 1];
      assert disks[..k + 1][0] == disks[0] && disks[..k + 1][1..] == rest[..k];
      KeepsHead(t, disks[0]);
      HeadIsKept(t1, data, rest, k - 1);
    }
  }

  lemma KeepsHead(t: Tail, d: Disk)
    requires t.resume.Some? && Sane(t) && !Discontinuity(t, d)
    ensures var t1 := Poll(t, d).0; t1.resume.Some? && Sane(t1) && t1.resume.value.head == t.resume.value.head
  {
    hide Records, Rest, Lossy;
  }

  /** Another head at the first poll after the capture of a boundary, proven or not:
      nothing is returned, nothing is trusted. */
  lemma RewriteAfterCapture(d: Disk, verified: bool, disks: seq<Disk>)
    requires d.Present? && disks != [] && disks[0].Present? && !SameHead(d.data, disks[0].data)
    ensures var b := if verified then Snapshot(d).value else UnverifiedEof(d).value;
      Outputs(ResumedTail(b), disks)[0] == Read([], Unverified)
  {
    var b := if verified then Snapshot(d).value else UnverifiedEof(d).value;
    assert disks[..0] == [];
    HeadIsKept(ResumedTail(b), d.data, disks, 0);
  }

  /** A boundary has no head to check exactly when the file held something that could not be read. */
  lemma HeadAtCapture(d: Disk)
    requires !d.Missing?
    ensures Snapshot(d).value.head == None <==> d.Unreadable? && d.data != []
    ensures UnverifiedEof(d).value.head == Snapshot(d).value.head
  {
  }

  /** The poll makes the follower take the file it finds for a new one: it was trusted
      until now, or the head or, without a vanish, the inode is another. */
  predicate Adopts(t: Tail, d: Disk) {
    && Discontinuity(t, d)
    && var r := t.resume.value;
       !r.displaced || !HeadIntact(r.head, d.data) || (d.id != r.identity && !r.absent)
  }

  /** The head adopted then is checked in the same way. */
  lemma RewriteAfterDisplacement(t: Tail, d: Disk, later: seq<Disk>, k: nat)
    requires Sane(t) && Adopts(t, d)
    requires k < |later| && Continuous(Poll(t, d).0, later[..k]) && later[k].Present?
    ensures Poll(t, d).1 == Read([], Unverified)
    ensures !SameHead(d.data, later[k].data) ==> Outputs(Poll(t, d).0, later)[k] == Read([], Unverified)
  {
    hide Outputs, Continuous, HeadOf, SameHead;
    DiscontinuityReadsNothing(t, d);
    AdoptsHead(t, d);
    HeadIsKept(Poll(t, d).0, d.data, later, k);
  }

  lemma AdoptsHead(t: Tail, d: Disk)
    requires Sane(t) && Adopts(t, d)
    ensures var t1 := Poll(t, d).0;
      t1.resume.Some? && t1.resume.value.head == Some(HeadOf(d.data)) && Sane(t1)
  {
    hide Records, Rest, Lossy, HeadOf;
  }

  // ---- Where unproven resumes start, and what is followed after a displacement

  /** A follower opened at the end of a transcript returns exactly the lines appended
      after that, proven or not. */
  lemma OpenedAtEnd(d: Disk, verified: bool, disks: seq<Disk>, final: seq<Byte>)
    requires !d.Missing? && Restoring(d.id, false, d.data, disks) && AllValid(Chunks(d.data, disks))
    requires final == FinalData(d.data, disks)
    ensures |d.data| <= |final|
    ensures var b := if verified then Snapshot(d).value else UnverifiedEof(d).value;
      AllRecords(ResumedTail(b), disks) == Records(|d.data|, final[|d.data|..], DecodedBefore)
  {
    hide Records, Rest, Lossy, ValidUtf8, FirstNl, Restoring, Chunks, AllValid, AllRecords, After;
    var b := if verified then Snapshot(d).value else UnverifiedEof(d).value;
    RefinesWholeFile(ResumedTail(b), d.id, false, d.data, |d.data|, disks, final);
  }

  /** An explicit resume of a transcript that exists, and a rebind to one that is not
      empty, follow exactly what is appended after the report. */
  lemma UnprovenResumesStartAtEnd(d: Disk, bound: Disk, disks: seq<Disk>, final: seq<Byte>)
    requires !d.Missing? && Restoring(d.id, false, d.data, disks) && AllValid(Chunks(d.data, disks))
    requires final == FinalData(d.data, disks)
    ensures var mode := ForExplicitResume(Some(d));
      OpenTail(mode, bound).Some? && |d.data| <= |final|
      && AllRecords(OpenTail(mode, bound).value, disks) == Records(|d.data|, final[|d.data|..], DecodedBefore)
    ensures d.data != [] ==>
      OpenTail(ReboundMode(d), bound).Some?
      && AllRecords(OpenTail(ReboundMode(d), bound).value, disks) == Records(|d.data|, final[|d.data|..], DecodedBefore)
  {
    hide Records, Restoring, Chunks, AllValid, AllRecords;
    OpenedAtEnd(d, false, disks, final);
  }

  /** A resume without a path binds at the end of what it then finds, and one to an
      absent transcript waits for it. */
  lemma LateBindStartsAtEnd(path: Option<Disk>, d: Disk, disks: seq<Disk>, final: seq<Byte>)
    requires path == None || path == Some(Missing)
    requires !d.Missing? && Restoring(d.id, false, d.data, disks) && AllValid(Chunks(d.data, disks))
    requires final == FinalData(d.data, disks)
    ensures OpenTail(ForExplicitResume(path), Missing) == None
    ensures OpenTail(ForExplicitResume(path), d).Some? && |d.data| <= |final|
    ensures AllRecords(OpenTail(ForExplicitResume(path), d).value, disks)
         == Records(|d.data|, final[|d.data|..], DecodedBefore)
  {
    hide Records, Restoring, Chunks, AllValid, AllRecords;
    OpenedAtEnd(d, false, disks, final);
  }

  /** After a discontinuity the follower goes on: as long as the file it found then only
      grows, it returns exactly the lines appended to it. */
  lemma FollowsAfterDisplacement(t: Tail, d: Disk, later: seq<Disk>, final: seq<Byte>)
    requires Sane(t) && Discontinuity(t, d)
    requires Restoring(d.id, false, d.data, later) && AllValid(Chunks(d.data, later))
    requires final == FinalData(d.data, later)
    ensures |d.data| <= |final|
    ensures AllRecords(Poll(t, d).0, later) == Records(|d.data|, final[|d.data|..], DecodedBefore)
  {
    hide Records, Rest, Lossy, ValidUtf8, FirstNl, Restoring, Chunks, AllValid, AllRecords, After, Tracks, AtEnd, Poll;
    TracksNewFile(t, d);
    RefinesWholeFile(Poll(t, d).0, d.id, false, d.data, |d.data|, later, final);
  }

  lemma TracksNewFile(t: Tail, d: Disk)
    requires Sane(t) && Discontinuity(t, d)
    ensures Tracks(Poll(t, d).0, d.id, false, d.data) && AtEnd(Poll(t, d).0, d.data, |d.data|)
  {
    hide Records, Rest, Lossy;
    DiscontinuityReadsNothing(t, d);
  }

  /** A live follower that finds a shorter file starts over: from then on it returns
      what a new follower would. */
  lemma LiveTruncationRestarts(t: Tail, id: Identity, data: seq<Byte>, later: seq<Disk>)
    requires t.resume.None? && |data| < t.offset
    ensures Outputs(t, [Present(id, data)] + later) == Outputs(NewTail, [Present(id, data)] + later)
  {
    hide Records, Rest, Lossy;
    var disks := [Present(id, data)] + later;
    var t1, n1 := Poll(t, disks[0]).0, Poll(NewTail, disks[0]).0;
    assert disks[1..] == later;
    EquivalentRuns(t1, n1, later);
  }

  /** A file that cannot be opened changes nothing; one that is gone is an error to a
      live follower, and silence to a resumed one. */
  lemma UnreadPolls(t: Tail, id: Identity, data: seq<Byte>)
    ensures Poll(t, Unreadable(id, data)) == (t, OpenFailed)
    ensures t.resume.None? ==> Poll(t, Missing) == (t, NotFound)
    ensures t.resume.Some? ==>
      var (t1, result) := Poll(t, Missing);
      result == Read([], Unverified) && GateClosed(t1) && t1.offset == t.offset && t1.partial == t.partial
  {
  }

  // ---- Anchors

  /** An anchor is captured and reopens exactly when both times the file is there, is
      the one tracked, and holds every byte already read. */
  lemma ReopensExactly(t: Tail, captured: Disk, reopened: Disk)
    ensures Reopened(t, captured, reopened).Some? <==>
      && !captured.Missing? && !reopened.Missing? && captured.id == reopened.id
      && (t.resume.Some? ==> t.resume.value.identity == captured.id)
      && t.offset <= |captured.data| && t.offset <= |reopened.data|
  {
  }

  /** What reopens: the same place and held line; live stays live, and a resumed
      follower that was not trusted comes back displaced. */
  lemma ReopenedState(t: Tail, captured: Disk, reopened: Disk)
    requires Reopened(t, captured, reopened).Some?
    ensures var t1 := Reopened(t, captured, reopened).value;
      && t1.offset == t.offset && t1.partial == t.partial && (t1.resume.None? <==> t.resume.None?)
      && (t.resume.Some? ==>
            var r, r1 := t.resume.value, t1.resume.value;
            && r1.identity == r.identity && !r1.absent && r1.displaced == (r.displaced || !r.verified)
            && r1.verified == (r.verified && !r.displaced) && (r.head.Some? ==> r1.head == r.head))
  {
  }

  /** A withdrawn anchor of a resumed follower reopens displaced and unverified. */
  lemma WithdrawnState(d: Disk, a: Anchor)
    requires Continued(d, MarkWithdrawn(a)).Some? && a.origin == ResumeOrigin
    ensures var t := Continued(d, MarkWithdrawn(a)).value;
      t.resume.Some? && t.resume.value.displaced && !t.resume.value.verified && t.offset == a.start &&
        t.partial == a.partial
  {
  }
}
