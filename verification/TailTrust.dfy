/** What every run of a resumed transcript follower keeps: the trust gate opens
only on an unbroken history and never reopens, and bytes behind a discontinuity
are never replayed. */
module TailTrust {
  import opened JsonValue
  import opened Utf8
  import opened Lines
  import opened TranscriptTail

  // ---- The gate, exactly

  /** A poll that finds the boundary's own file, grown: same identity, head
      intact, no byte behind the cursor lost. A file that exists but cannot be
      opened is an error to the caller and leaves the history as it was. */
  predicate Clean(b: Boundary, cursor: nat, d: Disk) {
    match d
    case Missing => false
    case Unreadable(_, _) => true
    case Present(id, data) => id == b.identity && HeadIntact(b.head, data) && cursor <= |data|
  }

  function Advanced(cursor: nat, d: Disk): nat { if d.Present? then |d.data| else cursor }

  /** Every poll of the run was clean. */
  predicate Unbroken(b: Boundary, cursor: nat, disks: seq<Disk>)
    decreases |disks|
  {
    disks == [] || (Clean(b, cursor, disks[0]) && Unbroken(b, Advanced(cursor, disks[0]), disks[1..]))
  }

  predicate GateClosed(t: Tail) {
    t.resume.Some? && (t.resume.value.displaced || !t.resume.value.verified)
  }

  lemma ClosedStays(t: Tail, d: Disk)
    requires GateClosed(t)
    ensures GateClosed(Poll(t, d).0) && !IsCurrent(Poll(t, d).1)
  {
  }

  /** Once closed, the gate stays closed for every later run of the file system. */
  lemma {:induction false} GateNeverReopens(t: Tail, disks: seq<Disk>)
    requires GateClosed(t)
    ensures GateClosed(After(t, disks))
    ensures forall k | 0 <= k < |disks| :: !IsCurrent(Outputs(t, disks)[k])
    decreases |disks|
  {
    if disks != [] {
      ClosedStays(t, disks[0]);
      GateNeverReopens(Poll(t, disks[0]).0, disks[1..]);
    }
  }

  /** The follower as it is while nothing has gone wrong yet. */
  predicate Trusting(t: Tail, b: Boundary, cursor: nat) {
    t.offset == cursor && t.resume == Some(Resume(b.identity, b.head, b.verified, false, false))
  }

  lemma TrustStep(t: Tail, b: Boundary, cursor: nat, d: Disk)
    requires Trusting(t, b, cursor)
    ensures var (t1, result) := Poll(t, d);
      if Clean(b, cursor, d) then
        && Trusting(t1, b, Advanced(cursor, d))
        && (IsCurrent(result) <==> b.verified && d.Present?)
      else GateClosed(t1) && !IsCurrent(result)
  {
    hide Records, Rest, Lossy;
  }

  /** A poll of a resumed follower is reported `Current` exactly when the boundary
      was proven, the poll read the file, and no poll up to and including it
      found the history broken. */
  lemma {:induction false} GateExact(t: Tail, b: Boundary, cursor: nat, disks: seq<Disk>, k: nat)
    requires Trusting(t, b, cursor) && k < |disks|
    ensures IsCurrent(Outputs(t, disks)[k]) <==>
      b.verified && disks[k].Present? && Unbroken(b, cursor, disks[..k + 1])
    decreases |disks|
  {
    hide Poll, PollPresent, Clean;
    var d := disks[0];
    var t1 := Poll(t, d).0;
    var here := disks[..k + 1];
    assert here[0] == d && here[1..] == disks[1..][..k];
    TrustStep(t, b, cursor, d);
    if !Clean(b, cursor, d) {
      GateNeverReopens(t1, disks[1..]);
    } else if k > 0 {
      GateExact(t1, b, Advanced(cursor, d), disks[1..], k - 1);
    }
  }

  lemma ResumedGateExact(b: Boundary, disks: seq<Disk>, k: nat)
    requires k < |disks|
    ensures IsCurrent(Outputs(ResumedTail(b), disks)[k]) <==>
      b.verified && disks[k].Present? && Unbroken(b, b.start, disks[..k + 1])
  {
    GateExact(ResumedTail(b), b, b.start, disks, k);
  }

  /** An explicit resume is never trusted: not fresh, and never `Current`,
      whatever the path held at the report, at the bind and ever after. */
  lemma ExplicitResumeNeverCurrent(path: Option<Disk>, bound: Disk, disks: seq<Disk>)
    ensures !ForExplicitResume(path).Fresh?
    ensures OpenTail(ForExplicitResume(path), bound).None? ==> bound.Missing?
    ensures OpenTail(ForExplicitResume(path), bound).Some? ==>
      forall k | 0 <= k < |disks| :: !IsCurrent(Outputs(OpenTail(ForExplicitResume(path), bound).value, disks)[k])
  {
    var tail := OpenTail(ForExplicitResume(path), bound);
    if tail.Some? {
      GateNeverReopens(tail.value, disks);
    }
  }

  /** A rebind starts a current session only on an absent or empty transcript. */
  lemma ReboundGateExact(d: Disk, bound: Disk, disks: seq<Disk>)
    ensures ReboundMode(d).Fresh? <==> d.Missing? || d.data == []
    ensures !ReboundMode(d).Fresh? ==> OpenTail(ReboundMode(d), bound).Some?
    ensures !ReboundMode(d).Fresh? ==>
      forall k | 0 <= k < |disks| :: !IsCurrent(Outputs(OpenTail(ReboundMode(d), bound).value, disks)[k])
  {
    if !ReboundMode(d).Fresh? {
      GateNeverReopens(OpenTail(ReboundMode(d), bound).value, disks);
    }
  }

  // ---- No replay

  /** Nothing the follower can still return starts before `floor`. */
  predicate Above(t: Tail, floor: nat) {
    floor <= t.offset && (t.partial != [] ==> floor <= t.partialPos)
  }

  predicate AllAbove(rs: seq<Record>, floor: nat) { forall r | r in rs :: floor <= r.pos }

  lemma ReadStaysAbove(t: Tail, data: seq<Byte>, floor: nat)
    requires t.offset <= |data| && Above(t, floor)
    ensures Above(ReadLines(t, data).0, floor) && AllAbove(ReadLines(t, data).1, floor)
  {
    hide Lossy;
    if |data| != t.offset {
      var pos := if t.partial == [] then t.offset else t.partialPos;
      RecordsExact(pos, t.partial + Lossy(data[t.offset..]), DecodedBefore);
    }
  }

  /** What breaks the continuity of a resumed follower: another head, bytes lost
      behind the cursor, or another file that was not preceded by a vanish. */
  predicate Discontinuity(t: Tail, d: Disk) {
    t.resume.Some? && d.Present? &&
    var r := t.resume.value;
    !HeadIntact(r.head, d.data) || |d.data| < t.offset || (d.id != r.identity && !r.absent)
  }

  /** A vanish displaces; this holds of every tail an open or a poll produces. */
  predicate Sane(t: Tail) { t.resume.Some? && t.resume.value.absent ==> t.resume.value.displaced }

  lemma {:induction false} SaneAlways(t: Tail, disks: seq<Disk>)
    requires Sane(t)
    ensures Sane(After(t, disks))
    decreases |disks|
  {
    if disks != [] {
      assert Sane(Poll(t, disks[0]).0) by { hide Records, Rest, Lossy; }
      SaneAlways(Poll(t, disks[0]).0, disks[1..]);
    }
  }

  lemma DiscontinuityReadsNothing(t: Tail, d: Disk)
    requires Sane(t) && Discontinuity(t, d)
    ensures Poll(t, d).1 == Read([], Unverified)
    ensures var t1 := Poll(t, d).0; t1.offset == |d.data| && t1.partial == [] && GateClosed(t1)
  {
  }

  /** No poll of the run meets a discontinuity. */
  predicate Continuous(t: Tail, disks: seq<Disk>)
    decreases |disks|
  {
    disks == [] || (!Discontinuity(t, disks[0]) && Continuous(Poll(t, disks[0]).0, disks[1..]))
  }

  lemma ContinuousStep(t: Tail, d: Disk, floor: nat)
    requires t.resume.Some? && Sane(t) && !Discontinuity(t, d) && Above(t, floor)
    ensures Poll(t, d).0.resume.Some? && Sane(Poll(t, d).0)
    ensures Above(Poll(t, d).0, floor) && AllAbove(RecordsOf(Poll(t, d).1), floor)
  {
    hide Records, Rest, Lossy, ReadLines;
    if d.Present? {
      var r := t.resume.value;
      var t0 := if r.displaced || !r.verified then Resynced(t, r, d.id, d.data) else t;
      ReadStaysAbove(t0, d.data, floor);
      ReadKeepsResume(t0, d.data);
    }
  }

  lemma ReadKeepsResume(t: Tail, data: seq<Byte>)
    requires t.offset <= |data|
    ensures ReadLines(t, data).0.resume == t.resume && ReadLines(t, data).0.offset == |data|
  {
  }

  lemma {:induction false} ContinuousRunAbove(t: Tail, disks: seq<Disk>, floor: nat)
    requires t.resume.Some? && Sane(t) && Above(t, floor) && Continuous(t, disks)
    ensures forall k | 0 <= k < |disks| :: AllAbove(RecordsOf(Outputs(t, disks)[k]), floor)
    decreases |disks|
  {
    hide Poll, PollPresent, Discontinuity;
    if disks != [] {
      ContinuousStep(t, disks[0], floor);
      ContinuousRunAbove(Poll(t, disks[0]).0, disks[1..], floor);
    }
  }

  /** A poll that meets a discontinuity returns nothing, and until the next one
      every record returned starts at or after the length the file had then. */
  lemma NoReplay(t: Tail, d: Disk, later: seq<Disk>)
    requires Sane(t) && Discontinuity(t, d) && Continuous(Poll(t, d).0, later)
    ensures Poll(t, d).1 == Read([], Unverified)
    ensures forall k | 0 <= k < |later| ::
      AllAbove(RecordsOf(Outputs(Poll(t, d).0, later)[k]), |d.data|) && !IsCurrent(Outputs(Poll(t, d).0, later)[k])
  {
    DiscontinuityReadsNothing(t, d);
    SaneAlways(t, [d]);
    assert After(t, [d]) == Poll(t, d).0;
    ContinuousRunAbove(Poll(t, d).0, later, |d.data|);
    GateNeverReopens(Poll(t, d).0, later);
  }

  lemma {:induction false} UnbrokenIsContinuous(t: Tail, b: Boundary, cursor: nat, disks: seq<Disk>)
    requires Trusting(t, b, cursor) && Unbroken(b, cursor, disks)
    ensures Continuous(t, disks)
    decreases |disks|
  {
    hide Poll, PollPresent, HeadIntact;
    if disks != [] {
      TrustStep(t, b, cursor, disks[0]);
      assert !Discontinuity(t, disks[0]);
      UnbrokenIsContinuous(Poll(t, disks[0]).0, b, Advanced(cursor, disks[0]), disks[1..]);
    }
  }

  /** Every record a resumed follower reports as `Current` starts at or after its boundary. */
  lemma CurrentRecordsAfterBoundary(b: Boundary, disks: seq<Disk>, k: nat)
    requires k < |disks| && IsCurrent(Outputs(ResumedTail(b), disks)[k])
    ensures AllAbove(Outputs(ResumedTail(b), disks)[k].records, b.start)
  {
    var t, here := ResumedTail(b), disks[..k + 1];
    ResumedGateExact(b, disks, k);
    UnbrokenIsContinuous(t, b, b.start, here);
    ContinuousRunAbove(t, here, b.start);
    OutputsPrefix(t, disks, k);
  }

  lemma {:induction false} OutputsPrefix(t: Tail, disks: seq<Disk>, k: nat)
    requires k < |disks|
    ensures Outputs(t, disks[..k + 1])[k] == Outputs(t, disks)[k]
    decreases |disks|
  {
    hide Poll;
    var here := disks[..k + 1];
    assert here[0] == disks[0] && here[1..] == disks[1..][..k];
    if k > 0 {
      OutputsPrefix(Poll(t, disks[0]).0, disks[1..], k - 1);
    }
  }

  // ---- Withdrawn anchors

  /** No run of the file system makes any poll of `t` current. */
  ghost predicate NeverCurrent(t: Tail) {
    forall disks: seq<Disk>, k | 0 <= k < |disks| :: !IsCurrent(Outputs(t, disks)[k])
  }

  /** A withdrawn anchor of a resumed follower reopens with the gate closed for
      good; one of a live follower reopens live, so a poll of it can be `Current`. */
  lemma WithdrawnNeverCurrent(a: Anchor, d: Disk)
    requires Continued(d, MarkWithdrawn(a)).Some?
    ensures a.origin == ResumeOrigin <==> NeverCurrent(Continued(d, MarkWithdrawn(a)).value)
  {
    var t := Continued(d, MarkWithdrawn(a)).value;
    if a.origin == ResumeOrigin {
      forall disks: seq<Disk>, k | 0 <= k < |disks| ensures !IsCurrent(Outputs(t, disks)[k]) {
        GateNeverReopens(t, disks);
      }
    } else {
      var disks := [Present(d.id, d.data)];
      assert Outputs(t, disks)[0] == Poll(t, disks[0]).1;
    }
  }

  /** A follower that was not trusted when its anchor was captured is never trusted
      after reopening, in any run, and one that was trusted can be. */
  lemma ReopeningKeepsGate(t: Tail, captured: Disk, reopened: Disk)
    requires CaptureAnchor(t, captured).Some? && Continued(reopened, CaptureAnchor(t, captured).value).Some?
    ensures GateClosed(t) <==> NeverCurrent(Continued(reopened, CaptureAnchor(t, captured).value).value)
  {
    var t1 := Continued(reopened, CaptureAnchor(t, captured).value).value;
    assert GateClosed(t) <==> GateClosed(t1);
    if GateClosed(t1) {
      forall disks: seq<Disk>, k | 0 <= k < |disks| ensures !IsCurrent(Outputs(t1, disks)[k]) {
        GateNeverReopens(t1, disks);
      }
    } else {
      CanBeCurrent(t1);
    }
  }

  /** An open gate lets a poll of the file it was measured on through. */
  lemma CanBeCurrent(t: Tail)
    requires !GateClosed(t)
    ensures !NeverCurrent(t)
  {
    hide Records, Rest, Lossy, ReadLines;
    var prefix := if t.resume.Some? && t.resume.value.head.Some? then t.resume.value.head.value.prefix else [];
    var data: seq<Byte> := prefix + seq(t.offset, i => 0);
    var id := if t.resume.Some? then t.resume.value.identity else Identity(0, 0);
    var disks := [Present(id, data)];
    assert prefix <= data;
    assert Outputs(t, disks)[0] == Poll(t, disks[0]).1;
    assert IsCurrent(Outputs(t, disks)[0]);
  }
}
