/** Regrouping of the assistant records of one message. A group buffers records
with two independent drains: content blocks, and merged usage. */
module RecordGroup {
  import opened JsonValue
  import opened Sequences
  import opened UsageMerge

  /** The fields of an assistant transcript record that regrouping reads. */
  datatype Rec = Rec(
    uuid: Option<string>,
    requestId: Option<string>,
    messageId: Option<string>,
    parent: Option<string>,
    model: Option<string>,
    timestamp: Option<string>,
    stopped: bool,                   // message.stop_reason is a string
    usage: Option<Json>,             // message.usage
    blockIndex: Option<nat>,         // apiBlockIndex
    content: Option<seq<Json>>)      // message.content, when it is an array

  datatype Key = Key(requestId: Option<string>, messageId: string, parent: Option<string>)

  function KeyOf(rec: Rec): Option<Key> {
    if rec.messageId.None? then None else Some(Key(rec.requestId, rec.messageId.value, rec.parent))
  }

  predicate BearsUsage(rec: Rec) { rec.usage.Some? && rec.usage.value.Obj? }

  datatype Entry = Entry(index: Option<nat>, arrival: nat, block: Json)

  datatype Group = Group(
    key: Option<Key>,
    head: Option<Rec>,
    pendingHead: Option<Rec>,
    blocks: seq<Entry>,
    lastUsage: Option<Json>,
    lastUsageAt: Option<string>,
    lastUsagePosition: Option<nat>,
    sawStop: bool,
    seen: nat,
    published: bool,
    dirty: bool)

  const EmptyGroup := Group(None, None, None, [], None, None, None, false, 0, false, false)

  datatype Drained = Drained(envelope: Rec, content: seq<Json>)

  datatype PendingUsage = PendingUsage(messageId: string, requestId: Option<string>, model: Option<string>,
                                       usage: Json, position: nat, nativeAt: Option<string>)

  // ---- The operations

  function NoteUsage(g: Group, rec: Rec, position: nat): Group {
    if !BearsUsage(rec) then g
    else
      var usage := rec.usage.value;
      g.(lastUsage := Some(if g.lastUsage.Some? then Merge(g.lastUsage.value, usage) else usage),
         lastUsageAt := rec.timestamp, lastUsagePosition := Some(position), dirty := true)
  }

  function Start(key: Key, rec: Rec, position: nat): Group {
    var g := EmptyGroup.(key := Some(key), head := Some(rec));
    NoteUsage(g, rec, position).(sawStop := rec.stopped)
  }

  /** The entries a record's blocks become when `seen` blocks arrived before them. */
  function EntriesFrom(index: Option<nat>, seen: nat, blocks: seq<Json>): seq<Entry>
    decreases |blocks|
  {
    if blocks == [] then [] else [Entry(index, seen, blocks[0])] + EntriesFrom(index, seen + 1, blocks[1..])
  }

  function EntriesOf(rec: Rec, seen: nat): seq<Entry> {
    if rec.content.None? then [] else EntriesFrom(rec.blockIndex, seen, rec.content.value)
  }

  function Push(g: Group, rec: Rec, position: nat): Group {
    var g := NoteUsage(g, rec, position);
    var stops := !g.sawStop && rec.stopped;
    var g := g.(sawStop := g.sawStop || rec.stopped, dirty := g.dirty || (stops && g.lastUsage.Some?));
    if rec.content.None? then g
    else
      g.(pendingHead := if g.blocks == [] then Some(rec) else g.pendingHead,
         blocks := g.blocks + EntriesOf(rec, g.seen),
         seen := g.seen + |rec.content.value|)
  }

  function SortKey(e: Entry): (nat, nat) { (e.index.GetOr(0), e.arrival) }

  predicate Before(a: (nat, nat), b: (nat, nat)) { a.0 < b.0 || (a.0 == b.0 && a.1 < b.1) }

  function Insert(e: Entry, sorted: seq<Entry>): seq<Entry> {
    if sorted == [] || !Before(SortKey(sorted[0]), SortKey(e)) then [e] + sorted
    else [sorted[0]] + Insert(e, sorted[1..])
  }

  function Sorted(es: seq<Entry>): seq<Entry> {
    if es == [] then [] else Insert(es[0], Sorted(es[1..]))
  }

  function BlocksOf(es: seq<Entry>): seq<Json> {
    if es == [] then [] else [es[0].block] + BlocksOf(es[1..])
  }

  function DrainContent(g: Group): (Group, Option<Drained>) {
    var envelope := if g.pendingHead.Some? then g.pendingHead else g.head;
    if g.blocks == [] || envelope.None? then (g, None)
    else (g.(pendingHead := None, blocks := []), Some(Drained(envelope.value, BlocksOf(Sorted(g.blocks)))))
  }

  predicate PublishableAtPoll(g: Group) { g.sawStop && g.dirty && g.lastUsage.Some? }

  predicate PublishableOnSupersede(g: Group) { g.lastUsage.Some? && (g.dirty || !g.published) }

  function TakeUsage(g: Group): (Group, Option<PendingUsage>) {
    if g.head.None? || g.lastUsage.None? || g.lastUsagePosition.None? then (g, None)
    else
      var head := g.head.value;
      (g.(published := true, dirty := false, lastUsage := None),
       Some(PendingUsage(head.messageId.GetOr(""), head.requestId, head.model, g.lastUsage.value,
                         g.lastUsagePosition.value, g.lastUsageAt)))
  }

  class RecordGroup {
    var key: Option<Key>
    var head: Option<Rec>
    var pendingHead: Option<Rec>
    var blocks: seq<Entry>
    var lastUsage: Option<Json>
    var lastUsageAt: Option<string>
    var lastUsagePosition: Option<nat>
    var sawStop: bool
    var seen: nat
    var published: bool
    var dirty: bool

    ghost function Abstract(): Group
      reads this
    {
      Group(key, head, pendingHead, blocks, lastUsage, lastUsageAt, lastUsagePosition, sawStop, seen, published, dirty)
    }

    constructor ()
      ensures Abstract() == EmptyGroup
    {
      key, head, pendingHead, blocks := None, None, None, [];
      lastUsage, lastUsageAt, lastUsagePosition := None, None, None;
      sawStop, seen, published, dirty := false, 0, false, false;
    }

    method NoteRecordUsage(rec: Rec, position: nat)
      modifies this
      ensures Abstract() == NoteUsage(old(Abstract()), rec, position)
    {
      if BearsUsage(rec) {
        var merged := rec.usage.value;
        if lastUsage.Some? {
          merged := MergeUsageFields(lastUsage.value, merged);
        }
        lastUsage := Some(merged);
        lastUsageAt := rec.timestamp;
        lastUsagePosition := Some(position);
        dirty := true;
      }
    }

    method StartRun(newKey: Key, rec: Rec, position: nat)
      modifies this
      ensures Abstract() == Start(newKey, rec, position)
    {
      key, head, pendingHead, blocks := Some(newKey), Some(rec), None, [];
      lastUsage, lastUsageAt, lastUsagePosition := None, None, None;
      sawStop, seen, published, dirty := false, 0, false, false;
      NoteRecordUsage(rec, position);
      if rec.stopped {
        sawStop := true;
      }
    }

    method PushRecord(rec: Rec, position: nat)
      modifies this
      ensures Abstract() == Push(old(Abstract()), rec, position)
    {
      hide EntriesFrom, Merge;
      NoteRecordUsage(rec, position);
      if !sawStop && rec.stopped {
        sawStop := true;
        if lastUsage.Some? {
          dirty := true;
        }
      }
      if rec.content.Some? {
        if blocks == [] {
          pendingHead := Some(rec);
        }
        Buffer(rec.blockIndex, rec.content.value);
      }
    }

    method Buffer(index: Option<nat>, content: seq<Json>)
      modifies this`blocks, this`seen
      ensures blocks == old(blocks) + EntriesFrom(index, old(seen), content) && seen == old(seen) + |content|
    {
      for i := 0 to |content|
        invariant blocks + EntriesFrom(index, seen, content[i..]) ==
          old(blocks) + EntriesFrom(index, old(seen), content)
        invariant seen == old(seen) + i
      {
        var entry := Entry(index, seen, content[i]);
        assert content[i..][1..] == content[i + 1..];
        assert blocks + ([entry] + EntriesFrom(index, seen + 1, content[i + 1..]))
            == (blocks + [entry]) + EntriesFrom(index, seen + 1, content[i + 1..]);
        blocks := blocks + [entry];
        seen := seen + 1;
      }
    }

    method Drain() returns (drained: Option<Drained>)
      modifies this
      ensures (Abstract(), drained) == DrainContent(old(Abstract()))
    {
      if blocks == [] {
        return None;
      }
      var envelope := if pendingHead.Some? then pendingHead else head;
      if envelope.None? {
        return None;
      }
      drained := Some(Drained(envelope.value, BlocksOf(Sorted(blocks))));
      pendingHead, blocks := None, [];
    }

    method TakePendingUsage() returns (pending: Option<PendingUsage>)
      modifies this
      ensures (Abstract(), pending) == TakeUsage(old(Abstract()))
    {
      if head.None? || lastUsage.None? || lastUsagePosition.None? {
        return None;
      }
      var h := head.value;
      pending := Some(PendingUsage(h.messageId.GetOr(""), h.requestId, h.model, lastUsage.value,
                                   lastUsagePosition.value, lastUsageAt));
      published, dirty, lastUsage := true, false, None;
    }
  }

  // ---- Any schedule of pushes and drains within one run

  datatype Act = PushAct(rec: Rec, position: nat) | TakeAct | DrainAct

  datatype Trace = Trace(end: Group, usages: seq<PendingUsage>, drains: seq<Drained>)

  function Run(g: Group, acts: seq<Act>): Trace
    decreases |acts|
  {
    if acts == [] then Trace(g, [], [])
    else
      match acts[0]
      case PushAct(rec, position) => Run(Push(g, rec, position), acts[1..])
      case TakeAct =>
        var (g1, pending) := TakeUsage(g);
        var rest := Run(g1, acts[1..]);
        if pending.Some? then rest.(usages := [pending.value] + rest.usages) else rest
      case DrainAct =>
        var (g1, drained) := DrainContent(g);
        var rest := Run(g1, acts[1..]);
        if drained.Some? then rest.(drains := [drained.value] + rest.drains) else rest
  }

  // ---- Usage: every usage-bearing record feeds exactly one snapshot

  /** One usage report, with the message it is about, where it stands and when it was made. */
  datatype Use = Use(key: Option<Key>, usage: Json, position: nat, at: Option<string>)

  predicate Uses(us: seq<Use>) { forall i | 0 <= i < |us| :: us[i].usage.Obj? }

  function Objects(us: seq<Use>): (js: seq<Json>)
    ensures |js| == |us| && forall i | 0 <= i < |us| :: js[i] == us[i].usage
    ensures Uses(us) ==> AllObjects(js)
  {
    seq(|us|, i requires 0 <= i < |us| => us[i].usage)
  }

  /** The usage objects the schedule reports, in order. */
  function Reported(acts: seq<Act>): (us: seq<Use>)
    ensures Uses(us)
    decreases |acts|
  {
    if acts == [] then []
    else if acts[0].PushAct? && BearsUsage(acts[0].rec) then
      [Use(KeyOf(acts[0].rec), acts[0].rec.usage.value, acts[0].position, acts[0].rec.timestamp)] + Reported(acts[1..])
    else Reported(acts[1..])
  }

  /** The reports cut into one batch per successful take, and the batch still held. */
  function Batches(held: seq<Use>, acts: seq<Act>): (r: (seq<seq<Use>>, seq<Use>))
    requires Uses(held)
    ensures Uses(r.1) && forall i | 0 <= i < |r.0| :: r.0[i] != [] && Uses(r.0[i])
    decreases |acts|
  {
    if acts == [] then ([], held)
    else
      match acts[0]
      case PushAct(rec, position) =>
        Batches(if BearsUsage(rec) then held + [Use(KeyOf(rec), rec.usage.value, position, rec.timestamp)]
          else held, acts[1..])
      case TakeAct =>
        if held == [] then Batches(held, acts[1..])
        else
          var (batches, left) := Batches([], acts[1..]);
          ([held] + batches, left)
      case DrainAct => Batches(held, acts[1..])
  }

  /** Nothing is dropped, duplicated or reordered by the cutting. */
  lemma {:induction false} BatchesConserve(held: seq<Use>, acts: seq<Act>)
    requires Uses(held)
    ensures Flatten(Batches(held, acts).0) + Batches(held, acts).1 == held + Reported(acts)
    decreases |acts|
  {
    if acts != [] {
      var rest := acts[1..];
      match acts[0]
      case PushAct(rec, position) =>
        if BearsUsage(rec) {
          var use := Use(KeyOf(rec), rec.usage.value, position, rec.timestamp);
          BatchesConserve(held + [use], rest);
          assert held + [use] + Reported(rest) == held + ([use] + Reported(rest));
        } else {
          BatchesConserve(held, rest);
        }
      case TakeAct =>
        if held == [] {
          BatchesConserve(held, rest);
        } else {
          BatchesConserve([], rest);
          FlattenCons(held, Batches([], rest).0);
          assert held + (Flatten(Batches([], rest).0) + Batches([], rest).1)
              == (held + Flatten(Batches([], rest).0)) + Batches([], rest).1;
          assert [] + Reported(rest) == Reported(rest);
        }
      case DrainAct => BatchesConserve(held, rest);
    }
  }

  /** The buffered usage is the merge of exactly the reports not yet taken. */
  predicate HoldsUsage(g: Group, held: seq<Use>)
    requires Uses(held)
  {
    && g.head.Some?
    && (if held == [] then g.lastUsage == None
        else
          var last := held[|held| - 1];
          && g.lastUsage == Some(MergeAll(Objects(held)))
          && g.lastUsagePosition == Some(last.position) && g.lastUsageAt == last.at)
    && (g.dirty <==> g.lastUsage.Some?)
  }

  lemma PushHolds(g: Group, held: seq<Use>, rec: Rec, position: nat)
    requires Uses(held) && HoldsUsage(g, held)
    ensures BearsUsage(rec) ==>
      HoldsUsage(Push(g, rec, position), held + [Use(KeyOf(rec), rec.usage.value, position, rec.timestamp)])
    ensures !BearsUsage(rec) ==> HoldsUsage(Push(g, rec, position), held)
  {
    hide Merge;
    if BearsUsage(rec) {
      var more := held + [Use(KeyOf(rec), rec.usage.value, position, rec.timestamp)];
      assert Objects(more)[..|held|] == Objects(held);
      assert held == [] ==> MergeAll(Objects(more)) == rec.usage.value;
    }
  }

  predicate Snapshots(pending: seq<PendingUsage>, batches: seq<seq<Use>>)
    requires forall i | 0 <= i < |batches| :: batches[i] != [] && Uses(batches[i])
  {
    |pending| == |batches| &&
    forall i | 0 <= i < |batches| ::
      && pending[i].usage == MergeAll(Objects(batches[i]))
      && pending[i].position == batches[i][|batches[i]| - 1].position
      && pending[i].nativeAt == batches[i][|batches[i]| - 1].at
  }

  /** Whatever the schedule, each published snapshot is the merge of its own
      batch of reports, at the position of the batch's last report. */
  lemma {:induction false} SnapshotsAreBatches(g: Group, held: seq<Use>, acts: seq<Act>)
    requires Uses(held) && HoldsUsage(g, held)
    ensures Snapshots(Run(g, acts).usages, Batches(held, acts).0)
    ensures HoldsUsage(Run(g, acts).end, Batches(held, acts).1)
    decreases |acts|
  {
    hide Merge, MergeAll, Objects, BlocksOf, Sorted;
    if acts != [] {
      var rest := acts[1..];
      match acts[0]
      case PushAct(rec, position) =>
        PushHolds(g, held, rec, position);
        SnapshotsAreBatches(Push(g, rec, position),
                            if BearsUsage(rec) then held + [Use(KeyOf(rec), rec.usage.value, position, rec.timestamp)]
                              else held, rest);
      case TakeAct =>
        var g1 := TakeUsage(g).0;
        assert HoldsUsage(g1, []);
        SnapshotsAreBatches(g1, [], rest);
      case DrainAct =>
        SnapshotsAreBatches(DrainContent(g).0, held, rest);
    }
  }

  /** Every snapshot of a run names the message, request and model of its first record. */
  lemma {:induction false} UsageNamesRun(g: Group, head: Rec, acts: seq<Act>)
    requires g.head == Some(head)
    ensures forall p | p in Run(g, acts).usages ::
      p.messageId == head.messageId.GetOr("") && p.requestId == head.requestId && p.model == head.model
    decreases |acts|
  {
    hide Merge, EntriesFrom, BlocksOf, Sorted;
    if acts != [] {
      var rest := acts[1..];
      match acts[0]
      case PushAct(rec, position) => UsageNamesRun(Push(g, rec, position), head, rest);
      case TakeAct => UsageNamesRun(TakeUsage(g).0, head, rest);
      case DrainAct => UsageNamesRun(DrainContent(g).0, head, rest);
    }
  }

  /** The reports are exactly the object-shaped usages of the records pushed. */
  lemma {:induction false} ReportedExactly(acts: seq<Act>, use: Use)
    ensures use in Reported(acts) <==> exists i :: 0 <= i < |acts| && Reports(acts[i], use)
    decreases |acts|
  {
    if acts != [] {
      var rest := acts[1..];
      ReportedExactly(rest, use);
      assert forall i | 0 < i < |acts| :: acts[i] == rest[i - 1];
      assert forall i | 0 <= i < |rest| :: rest[i] == acts[i + 1];
      assert use in Reported(acts) <==> Reports(acts[0], use) || use in Reported(rest);
    }
  }

  /** The record pushed reports this usage of its message. */
  predicate Reports(act: Act, use: Use) {
    && act.PushAct? && act.rec.usage == Some(use.usage) && use.usage.Obj?
    && use.position == act.position && use.at == act.rec.timestamp && use.key == KeyOf(act.rec)
  }

  /** Two records belong to one message exactly when message id, request id and parent agree. */
  lemma KeysExact(a: Rec, b: Rec)
    ensures KeyOf(a).Some? <==> a.messageId.Some?
    ensures a.messageId.Some? ==>
      (KeyOf(a) == KeyOf(b) <==> a.messageId == b.messageId && a.requestId == b.requestId && a.parent == b.parent)
    ensures KeyOf(a).Some? ==>
      && KeyOf(a).value.messageId == a.messageId.value
      && KeyOf(a).value.requestId == a.requestId && KeyOf(a).value.parent == a.parent
  {
  }

  ghost predicate IncreasingUses(us: seq<Use>) { forall i, j | 0 <= i < j < |us| :: us[i].position < us[j].position }

  lemma {:induction false} LastOfBatches(batches: seq<seq<Use>>)
    requires forall i | 0 <= i < |batches| :: batches[i] != []
    requires IncreasingUses(Flatten(batches))
    ensures forall i, j | 0 <= i < j < |batches| ::
      batches[i][|batches[i]| - 1].position < batches[j][|batches[j]| - 1].position
  {
    if batches != [] {
      var n := |batches| - 1;
      var front := Flatten(batches[..n]);
      FlattenSnoc(batches[..n], batches[n]);
      assert batches == batches[..n] + [batches[n]];
      assert forall i | 0 <= i < |front| :: Flatten(batches)[i] == front[i];
      LastOfBatches(batches[..n]);
      forall i | 0 <= i < n
        ensures batches[i][|batches[i]| - 1].position < batches[n][|batches[n]| - 1].position
      {
        LastIsInFlatten(batches[..n], i);
        var k :| 0 <= k < |front| && front[k] == batches[i][|batches[i]| - 1];
        assert Flatten(batches)[|front| + |batches[n]| - 1] == batches[n][|batches[n]| - 1];
      }
    }
  }

  lemma {:induction false} LastIsInFlatten<T>(batches: seq<seq<T>>, i: nat)
    requires i < |batches| && batches[i] != []
    ensures batches[i][|batches[i]| - 1] in Flatten(batches)
  {
    if i > 0 {
      LastIsInFlatten(batches[1..], i - 1);
    }
  }

  /** Source positions of successive snapshots strictly increase. */
  lemma PositionsIncrease(g: Group, held: seq<Use>, acts: seq<Act>)
    requires Uses(held) && HoldsUsage(g, held) && IncreasingUses(held + Reported(acts))
    ensures forall i, j | 0 <= i < j < |Run(g, acts).usages| ::
      Run(g, acts).usages[i].position < Run(g, acts).usages[j].position
  {
    hide Run, Batches, HoldsUsage, MergeAll, Objects;
    SnapshotsAreBatches(g, held, acts);
    BatchesConserve(held, acts);
    var batches := Batches(held, acts).0;
    var all := held + Reported(acts);
    assert forall i | 0 <= i < |Flatten(batches)| :: Flatten(batches)[i] == all[i];
    LastOfBatches(batches);
  }

  function Usages(pending: seq<PendingUsage>): (js: seq<Json>)
    ensures |js| == |pending| && forall i | 0 <= i < |pending| :: js[i] == pending[i].usage
  {
    seq(|pending|, i requires 0 <= i < |pending| => pending[i].usage)
  }

  function StillHeld(g: Group): seq<Json> { if g.lastUsage.Some? then [g.lastUsage.value] else [] }

  /** Usage does not depend on the schedule: merging the published snapshots in
      order and then whatever is still held is merging every report in order. */
  lemma UsageScheduleIrrelevant(g: Group, held: seq<Use>, acts: seq<Act>)
    requires Uses(held) && HoldsUsage(g, held) && held + Reported(acts) != []
    requires AllAgree(Objects(held + Reported(acts)))
    ensures var out := Usages(Run(g, acts).usages) + StillHeld(Run(g, acts).end);
      out != [] && AllObjects(out) && MergeAll(out) == MergeAll(Objects(held + Reported(acts)))
  {
    hide Run, Batches, MergeAll, AllAgree, Objects;
    SnapshotsAreBatches(g, held, acts);
    BatchesConserve(held, acts);
    var (batches, left) := Batches(held, acts);
    var run := Run(g, acts);
    FoldOfBatches(run.usages, run.end, batches, left, held + Reported(acts));
  }

  lemma FoldOfBatches(pending: seq<PendingUsage>, end: Group, batches: seq<seq<Use>>, left: seq<Use>, all: seq<Use>)
    requires forall i | 0 <= i < |batches| :: batches[i] != [] && Uses(batches[i])
    requires Uses(left) && Uses(all) && Snapshots(pending, batches) && HoldsUsage(end, left)
    requires Flatten(batches) + left == all && all != [] && AllAgree(Objects(all))
    ensures var out := Usages(pending) + StillHeld(end);
      out != [] && AllObjects(out) && MergeAll(out) == MergeAll(Objects(all))
  {
    hide Merge, MergeAll, AllAgree, Objects, Flatten, Each;
    var cut := if left == [] then batches else batches + [left];
    FlattenWith(batches, left);
    ObjectBatches(cut);
    var out := Usages(pending) + StillHeld(end);
    forall i | 0 <= i < |cut| ensures |out| == |cut| && Uses(cut[i]) && out[i] == MergeAll(Each(cut)[i]) {
      assert i < |batches| ==> cut[i] == batches[i];
    }
    MergeBatches(Each(cut), out);
  }

  lemma FlattenWith<T>(batches: seq<seq<T>>, left: seq<T>)
    ensures Flatten(if left == [] then batches else batches + [left]) == Flatten(batches) + left
    ensures batches == [] ==> Flatten(batches) == []
  {
    FlattenSnoc(batches, left);
  }

  function Each(batches: seq<seq<Use>>): (js: seq<seq<Json>>)
    ensures |js| == |batches| && forall i | 0 <= i < |batches| :: js[i] == Objects(batches[i])
  {
    seq(|batches|, i requires 0 <= i < |batches| => Objects(batches[i]))
  }

  lemma {:induction false} ObjectBatches(batches: seq<seq<Use>>)
    requires forall i | 0 <= i < |batches| :: Uses(batches[i])
    ensures Uses(Flatten(batches)) && Flatten(Each(batches)) == Objects(Flatten(batches))
  {
    if batches != [] {
      ObjectBatches(batches[1..]);
      assert Each(batches)[1..] == Each(batches[1..]);
      assert Objects(Flatten(batches)) == Objects(batches[0]) + Objects(Flatten(batches[1..]));
    }
  }
}
