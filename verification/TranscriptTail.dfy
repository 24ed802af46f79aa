/** The transcript follower: an incremental reader over one transcript file that
another process appends to, and that may be truncated, replaced, deleted or
restored between polls.

The file system is a parameter: each operation is given what it finds at the
path. The head fingerprint is kept as the fingerprinted prefix itself, that is,
the hash is taken to be free of collisions. */
module TranscriptTail {
  import opened JsonValue
  import opened Sequences
  import opened Utf8
  import opened Lines

  // ---- What a poll finds at the path

  datatype Identity = Identity(dev: nat, ino: nat)

  datatype Disk =
    | Missing
    | Unreadable(id: Identity, data: seq<Byte>)  // exists, but cannot be opened
    | Present(id: Identity, data: seq<Byte>)

  const HEAD_PROBE: nat := 8 * 1024

  datatype Head = Head(prefix: seq<Byte>)

  function HeadOf(data: seq<Byte>): Head {
    Head(data[..if |data| < HEAD_PROBE then |data| else HEAD_PROBE])
  }

  /** An empty file is fingerprinted without opening it. */
  function HashHead(d: Disk): Option<Head>
    requires !d.Missing?
  {
    if d.Present? || d.data == [] then Some(HeadOf(d.data)) else None
  }

  predicate HeadIntact(head: Option<Head>, data: seq<Byte>) {
    head.Some? ==> head.value.prefix <= data
  }

  // ---- Resume boundaries and modes

  datatype Boundary = Boundary(identity: Identity, start: nat, verified: bool, head: Option<Head>)

  function Snapshot(d: Disk): Option<Boundary> {
    if d.Missing? then None else Some(Boundary(d.id, |d.data|, true, HashHead(d)))
  }

  function UnverifiedEof(d: Disk): Option<Boundary> {
    if d.Missing? then None else Some(Boundary(d.id, |d.data|, false, HashHead(d)))
  }

  datatype Mode = Fresh | AtBoundary(boundary: Boundary) | UnverifiedResume

  /** Mode for a session that arrived through an in-TUI rebind. */
  function ReboundMode(d: Disk): Mode {
    if !d.Missing? && |d.data| > 0 then AtBoundary(UnverifiedEof(d).value) else Fresh
  }

  /** Mode for a hook report whose source is an explicit resume; `None` is a report without a path. */
  function ForExplicitResume(path: Option<Disk>): Mode {
    if path.Some? && !path.value.Missing? then AtBoundary(UnverifiedEof(path.value).value) else UnverifiedResume
  }

  // ---- The follower's state

  datatype Resume = Resume(identity: Identity, head: Option<Head>, verified: bool, displaced: bool, absent: bool)

  datatype Tail = Tail(offset: nat, partial: seq<Byte>, partialPos: nat, resume: Option<Resume>)

  const NewTail := Tail(0, [], 0, None)

  function ResumedTail(b: Boundary): Tail {
    Tail(b.start, [], 0, Some(Resume(b.identity, b.head, b.verified, false, false)))
  }

  function OpenTail(mode: Mode, d: Disk): Option<Tail> {
    match mode
    case Fresh => Some(NewTail)
    case AtBoundary(boundary) => Some(ResumedTail(boundary))
    case UnverifiedResume => if d.Missing? then None else Some(ResumedTail(UnverifiedEof(d).value))
  }

  // ---- Polling

  datatype Provenance = Current | Unverified

  datatype PollResult =
    | Read(records: seq<Record>, provenance: Provenance)
    | NotFound
    | OpenFailed

  /** Reads from the cursor to the end and splits off the whole lines. */
  function ReadLines(t: Tail, data: seq<Byte>): (Tail, seq<Record>)
    requires t.offset <= |data|
  {
    if |data| == t.offset then (t, [])
    else
      var pos := if t.partial == [] then t.offset else t.partialPos;
      var text := t.partial + Lossy(data[t.offset..]);
      (t.(offset := |data|, partial := Rest(text), partialPos := pos + |text| - |Rest(text)|),
       Records(pos, text, DecodedBefore))
  }

  function ReadAs(t: Tail, data: seq<Byte>, provenance: Provenance): (Tail, PollResult)
    requires t.offset <= |data|
  {
    var (t1, records) := ReadLines(t, data);
    (t1, Read(records, provenance))
  }

  /** The file no longer is the one the boundary was measured on. */
  predicate BoundaryLost(t: Tail, r: Resume, id: Identity, data: seq<Byte>) {
    !HeadIntact(r.head, data) || id != r.identity || |data| < t.offset
  }

  /** A displaced or unverified follower skips any gap, then follows appends. */
  function Resynced(t: Tail, r: Resume, id: Identity, data: seq<Byte>): (t1: Tail)
    ensures t1.offset <= |data| && t1.resume.Some?
  {
    var replaced := !HeadIntact(r.head, data) || (!r.absent && id != r.identity);
    var head := if replaced then Some(HeadOf(data)) else r.head;
    var skip := replaced || |data| < t.offset;
    Tail(if skip then |data| else t.offset, if skip then [] else t.partial, t.partialPos,
         Some(Resume(id, head, r.verified, r.displaced, false)))
  }

  function PollPresent(t: Tail, id: Identity, data: seq<Byte>): (Tail, PollResult) {
    if t.resume.None? then
      ReadAs(if |data| < t.offset then t.(offset := 0, partial := []) else t, data, Current)
    else
      var r := t.resume.value;
      if !r.displaced && BoundaryLost(t, r, id, data) then
        (Tail(|data|, [], t.partialPos, Some(r.(displaced := true, identity := id, head := Some(HeadOf(data))))),
         Read([], Unverified))
      else if r.displaced || !r.verified then ReadAs(Resynced(t, r, id, data), data, Unverified)
      else ReadAs(t, data, Current)
  }

  function Poll(t: Tail, d: Disk): (Tail, PollResult) {
    match d
    case Missing =>
      if t.resume.Some? then
        (t.(resume := Some(t.resume.value.(displaced := true, absent := true))), Read([], Unverified))
      else (t, NotFound)
    case Unreadable(_, _) => (t, OpenFailed)
    case Present(id, data) => PollPresent(t, id, data)
  }

  /** `partial.find('\n')` repeated until no newline is left. */
  method DrainLines(start: nat, text: seq<Byte>) returns (records: seq<Record>, pos: nat, partial: seq<Byte>)
    ensures records == Records(start, text, DecodedBefore)
    ensures partial == Rest(text) && pos == start + |text| - |partial|
  {
    hide Records, Rest, LineText;
    records, pos, partial := [], start, text;
    ghost var whole := Records(start, text, DecodedBefore);
    var index := FirstNl(partial);
    while index < |partial|
      invariant index == FirstNl(partial)
      invariant pos == start + |text| - |partial|
      invariant whole == records + Records(pos, partial, DecodedBefore)
      invariant Rest(text) == Rest(partial)
      decreases |partial|
    {
      var raw := partial[..index];
      var next := partial[index + 1..];
      Unfold(pos, partial, DecodedBefore, index, raw, pos + index + 1, next);
      AppendAssociates(records, Emitted(pos, LineText(DecodedBefore, raw)), Records(pos + index + 1, next,
        DecodedBefore));
      var line := LineText(DecodedBefore, raw);
      if line != [] {
        records := records + [Record(pos, line)];
      }
      pos := pos + index + 1;
      partial := next;
      index := FirstNl(partial);
    }
    NoLineLeft(pos, partial, DecodedBefore);
  }

  class TranscriptTail {
    var offset: nat
    var partial: seq<Byte>
    var partialPos: nat
    var resume: Option<Resume>

    ghost function Abstract(): Tail reads this { Tail(offset, partial, partialPos, resume) }

    constructor New()
      ensures Abstract() == NewTail
    {
      offset, partial, partialPos, resume := 0, [], 0, None;
    }

    constructor Resumed(boundary: Boundary)
      ensures Abstract() == ResumedTail(boundary)
    {
      offset, partial, partialPos := boundary.start, [], 0;
      resume := Some(Resume(boundary.identity, boundary.head, boundary.verified, false, false));
    }

    method FollowTo(data: seq<Byte>) returns (records: seq<Record>)
      requires offset <= |data|
      modifies this
      ensures (Abstract(), records) == ReadLines(old(Abstract()), data)
    {
      hide Records, Rest, Lossy;
      if |data| == offset {
        return [];
      }
      if partial == [] {
        partialPos := offset;
      }
      var text := partial + Lossy(data[offset..]);
      offset := |data|;
      records, partialPos, partial := DrainLines(partialPos, text);
    }

    method PollFile(d: Disk) returns (result: PollResult)
      modifies this
      ensures (Abstract(), result) == Poll(old(Abstract()), d)
    {
      hide Records, Rest, Lossy, ReadLines;
      if d.Missing? {
        if resume.Some? {
          resume := Some(resume.value.(displaced := true, absent := true));
          return Read([], Unverified);
        }
        return NotFound;
      }
      if d.Unreadable? {
        return OpenFailed;
      }
      var id, data := d.id, d.data;
      if resume.Some? {
        result := PollResumed(id, data);
        return;
      }
      if |data| < offset {
        offset := 0;
        partial := [];
      }
      var records := FollowTo(data);
      result := Read(records, Current);
    }

    method PollResumed(id: Identity, data: seq<Byte>) returns (result: PollResult)
      requires resume.Some?
      modifies this
      ensures (Abstract(), result) == PollPresent(old(Abstract()), id, data)
    {
      hide Records, Rest, Lossy, ReadLines;
      var state := resume.value;
      var intact := HeadIntact(state.head, data);
      if !state.displaced && (!intact || id != state.identity || |data| < offset) {
        resume := Some(state.(displaced := true, identity := id, head := Some(HeadOf(data))));
        offset := |data|;
        partial := [];
        return Read([], Unverified);
      }
      var provenance := Current;
      if state.displaced || !state.verified {
        provenance := Unverified;
        if !intact || (!state.absent && id != state.identity) {
          offset := |data|;
          partial := [];
          state := state.(identity := id, head := Some(HeadOf(data)));
        } else {
          state := state.(identity := id);
          if |data| < offset {
            offset := |data|;
            partial := [];
          }
        }
        resume := Some(state.(absent := false));
      }
      var records := FollowTo(data);
      result := Read(records, provenance);
    }
  }

  // ---- Whole runs

  function After(t: Tail, disks: seq<Disk>): Tail
    decreases |disks|
  {
    if disks == [] then t else After(Poll(t, disks[0]).0, disks[1..])
  }

  function Outputs(t: Tail, disks: seq<Disk>): (rs: seq<PollResult>)
    ensures |rs| == |disks|
    decreases |disks|
  {
    if disks == [] then [] else [Poll(t, disks[0]).1] + Outputs(Poll(t, disks[0]).0, disks[1..])
  }

  function RecordsOf(r: PollResult): seq<Record> { if r.Read? then r.records else [] }

  predicate IsCurrent(r: PollResult) { r.Read? && r.provenance == Current }

  // ---- Continuation anchors

  datatype Origin = Live | ResumeOrigin

  datatype Anchor = Anchor(identity: Identity, origin: Origin, start: nat, partial: seq<Byte>,
                           current: bool, displaced: bool, head: Option<Head>)

  function CaptureAnchor(t: Tail, d: Disk): Option<Anchor> {
    if d.Missing? || (t.resume.Some? && t.resume.value.identity != d.id) || |d.data| < t.offset then None
    else
      Some(Anchor(
        d.id,
        if t.resume.Some? then ResumeOrigin else Live,
        t.offset,
        t.partial,
        t.resume.Some? ==> t.resume.value.verified && !t.resume.value.displaced,
        t.resume.Some? && t.resume.value.displaced,
        if t.resume.Some? then t.resume.value.head else None))
  }

  function MarkWithdrawn(a: Anchor): Anchor { a.(current := false, displaced := true) }

  function Continued(d: Disk, a: Anchor): Option<Tail> {
    if d.Missing? || d.id != a.identity || |d.data| < a.start then None
    else
      var pos := if a.start < |a.partial| then 0 else a.start - |a.partial|;
      if a.origin == Live then Some(Tail(a.start, a.partial, pos, None))
      else
        var head := if a.head.Some? then a.head else HashHead(d);
        Some(Tail(a.start, a.partial, pos,
                  Some(Resume(a.identity, head, a.current, a.displaced || !a.current, false))))
  }
}
