/** The pump that feeds assistant records into groups: it flushes the group when
a record of another message supersedes it, and drains it at every poll. */
module RecordPump {
  import opened JsonValue
  import opened Sequences
  import opened UsageMerge
  import opened RecordGroup

  datatype Op = Next(rec: Rec, position: nat) | PollTick | Finish

  /** A record without a message id is replayed on its own. */
  datatype Out = Content(drained: Drained) | Usage(pending: PendingUsage) | Loose(rec: Rec)

  function DrainGroup(g: Group, supersede: bool): (Group, seq<Out>) {
    var (g1, drained) := DrainContent(g);
    var content := if drained.Some? then [Content(drained.value)] else [];
    if (if supersede then PublishableOnSupersede(g1) else PublishableAtPoll(g1)) then
      var (g2, pending) := TakeUsage(g1);
      (g2, content + if pending.Some? then [Usage(pending.value)] else [])
    else (g1, content)
  }

  function MapRecord(g: Group, rec: Rec, position: nat): (Group, seq<Out>) {
    var key := KeyOf(rec);
    if key.Some? && g.key == key then (Push(g, rec, position), [])
    else
      var (g1, out) := DrainGroup(g, true);
      if key.None? then (g1, out + [Loose(rec)])
      else (Push(Start(key.value, rec, position), rec, position), out)
  }

  function Step(g: Group, op: Op): (Group, seq<Out>) {
    match op
    case Next(rec, position) => MapRecord(g, rec, position)
    case PollTick => DrainGroup(g, false)
    case Finish => DrainGroup(g, true)
  }

  function PumpRun(g: Group, ops: seq<Op>): (Group, seq<Out>)
    decreases |ops|
  {
    if ops == [] then (g, [])
    else
      var (g1, out) := Step(g, ops[0]);
      var (g2, more) := PumpRun(g1, ops[1..]);
      (g2, out + more)
  }

  class RecordPump {
    const group: RecordGroup

    constructor ()
      ensures fresh(group) && group.Abstract() == EmptyGroup
    {
      group := new RecordGroup();
    }

    method Flush(supersede: bool) returns (out: seq<Out>)
      modifies group
      ensures (group.Abstract(), out) == DrainGroup(old(group.Abstract()), supersede)
    {
      hide BlocksOf, Sorted;
      out := [];
      var drained := group.Drain();
      if drained.Some? {
        out := [Content(drained.value)];
      }
      assert out + [] == out;
      var publishable := group.lastUsage.Some? &&
        (if supersede then group.dirty || !group.published else group.sawStop && group.dirty);
      if publishable {
        var pending := group.TakePendingUsage();
        if pending.Some? {
          out := out + [Usage(pending.value)];
        }
      }
    }

    method MapAssistantRecord(rec: Rec, position: nat) returns (out: seq<Out>)
      modifies group
      ensures (group.Abstract(), out) == MapRecord(old(group.Abstract()), rec, position)
    {
      hide BlocksOf, Sorted, Merge, EntriesFrom, DrainGroup;
      var key := KeyOf(rec);
      if key.Some? && group.key == key {
        group.PushRecord(rec, position);
        return [];
      }
      out := Flush(true);
      if key.None? {
        out := out + [Loose(rec)];
      } else {
        group.StartRun(key.value, rec, position);
        group.PushRecord(rec, position);
      }
    }
  }

  // ---- No group change loses anything

  /** What every group the pump produces satisfies. */
  predicate Coherent(g: Group) {
    && (g.dirty <==> g.lastUsage.Some?)
    && (g.lastUsage.Some? ==> g.head.Some? && g.lastUsagePosition.Some?)
    && (g.blocks != [] ==> g.pendingHead.Some? && KeyOf(g.pendingHead.value) == g.key)
    && (g.key.Some? ==> g.head.Some? && KeyOf(g.head.value) == g.key)
  }

  /** A flush before a new run leaves neither a block nor a counter behind for it to clear. */
  lemma SupersedeEmpties(g: Group)
    requires Coherent(g)
    ensures var g1 := DrainGroup(g, true).0; g1.blocks == [] && g1.lastUsage.None? && Coherent(g1)
  {
  }

  /** Starting a run notes its first record's usage twice; merging a report over itself changes nothing. */
  lemma StartNotesOnce(key: Key, rec: Rec, position: nat)
    requires KeyOf(rec) == Some(key)
    ensures var g := Push(Start(key, rec, position), rec, position);
      && g.lastUsage == (if BearsUsage(rec) then rec.usage else None)
      && g.blocks == EntriesOf(rec, 0) && g.sawStop == rec.stopped && g.key == Some(key) && Coherent(g)
      && (BearsUsage(rec) ==> g.lastUsagePosition == Some(position))
  {
    hide Merge, EntriesFrom;
    if BearsUsage(rec) {
      MergeSelf(rec.usage.value);
    }
    assert [] + EntriesOf(rec, 0) == EntriesOf(rec, 0);
  }

  lemma DrainCoherent(g: Group, supersede: bool)
    requires Coherent(g)
    ensures Coherent(DrainGroup(g, supersede).0)
  {
    hide BlocksOf, Sorted;
  }

  lemma PushCoherent(g: Group, rec: Rec, position: nat)
    requires Coherent(g) && g.head.Some? && KeyOf(rec) == g.key
    ensures Coherent(Push(g, rec, position))
  {
    hide Merge, EntriesFrom;
  }

  lemma CoherentStep(g: Group, op: Op)
    requires Coherent(g)
    ensures Coherent(Step(g, op).0)
  {
    hide DrainGroup, Push, Start, Coherent;
    match op
    case Next(rec, position) =>
      if KeyOf(rec).Some? && g.key == KeyOf(rec) {
        CoherentHead(g);
        PushCoherent(g, rec, position);
      } else {
        DrainCoherent(g, true);
        if KeyOf(rec).Some? {
          StartNotesOnce(KeyOf(rec).value, rec, position);
        }
      }
    case PollTick => DrainCoherent(g, false);
    case Finish => DrainCoherent(g, true);
  }

  lemma CoherentHead(g: Group)
    requires Coherent(g) && g.key.Some?
    ensures g.head.Some?
  {
  }

  // ---- Every report of every message ends in exactly one snapshot of that message

  datatype Batch = Batch(key: Key, uses: seq<Use>)

  /** All of these are reports about the message `key`. */
  predicate Keyed(key: Option<Key>, us: seq<Use>) {
    (us != [] ==> key.Some?) && forall i | 0 <= i < |us| :: us[i].usage.Obj? && us[i].key == key
  }

  /** No batch is empty, and each holds only reports about its own message. */
  predicate GoodBatches(bs: seq<Batch>) {
    forall i | 0 <= i < |bs| :: bs[i].uses != [] && Uses(bs[i].uses) && Keyed(Some(bs[i].key), bs[i].uses)
  }

  function UseOf(rec: Rec, position: nat): (us: seq<Use>)
    ensures Uses(us) && (KeyOf(rec).Some? ==> Keyed(KeyOf(rec), us))
  {
    if BearsUsage(rec) then [Use(KeyOf(rec), rec.usage.value, position, rec.timestamp)] else []
  }

  /** Where the pump stands: the message of the current run (`None` before any),
      whether it has a stop reason, and its reports not yet published. */
  datatype Cursor = Cursor(key: Option<Key>, stopped: bool, held: seq<Use>)

  const Fresh := Cursor(None, false, [])

  predicate Good(c: Cursor) { Keyed(c.key, c.held) }

  predicate Continues(c: Cursor, rec: Rec) { KeyOf(rec).Some? && KeyOf(rec) == c.key }

  /** The pump publishes when a message is superseded or the input finishes, and at
      a poll once the message has a stop reason. */
  predicate Publishes(c: Cursor, op: Op) {
    match op
    case Next(rec, _) => !Continues(c, rec)
    case PollTick => c.stopped
    case Finish => true
  }

  function Moved(c: Cursor, op: Op): (c1: Cursor)
    requires Good(c)
    ensures Good(c1)
  {
    match op
    case Next(rec, position) =>
      if Continues(c, rec) then c.(stopped := c.stopped || rec.stopped, held := c.held + UseOf(rec, position))
      else if KeyOf(rec).None? then c.(held := [])
      else Cursor(KeyOf(rec), rec.stopped, UseOf(rec, position))
    case _ => if Publishes(c, op) then c.(held := []) else c
  }

  function Closed(c: Cursor, op: Op): (bs: seq<Batch>)
    requires Good(c)
    ensures GoodBatches(bs)
  {
    if Publishes(c, op) && c.held != [] then [Batch(c.key.value, c.held)] else []
  }

  /** The reports cut where the pump publishes, and those left unpublished. */
  function PumpBatches(c: Cursor, ops: seq<Op>): (r: (seq<Batch>, seq<Use>))
    requires Good(c)
    ensures GoodBatches(r.0)
    decreases |ops|
  {
    if ops == [] then ([], c.held)
    else
      var (later, left) := PumpBatches(Moved(c, ops[0]), ops[1..]);
      (Closed(c, ops[0]) + later, left)
  }

  function ReportsOf(op: Op): (us: seq<Use>)
    ensures Uses(us) && forall i | 0 <= i < |us| :: us[i].key.Some?
  {
    if op.Next? && KeyOf(op.rec).Some? then UseOf(op.rec, op.position) else []
  }

  function GroupedReports(ops: seq<Op>): (us: seq<Use>)
    ensures Uses(us) && forall i | 0 <= i < |us| :: us[i].key.Some?
  {
    if ops == [] then [] else ReportsOf(ops[0]) + GroupedReports(ops[1..])
  }

  function UsesIn(bs: seq<Batch>): (us: seq<seq<Use>>)
    ensures |us| == |bs| && forall i | 0 <= i < |bs| :: us[i] == bs[i].uses
  {
    seq(|bs|, i requires 0 <= i < |bs| => bs[i].uses)
  }

  lemma StepConserves(c: Cursor, op: Op, later: seq<Batch>)
    requires Good(c)
    ensures var closed := if Publishes(c, op) then c.held else [];
      && Flatten(UsesIn(Closed(c, op) + later)) == closed + Flatten(UsesIn(later))
      && closed + Moved(c, op).held == c.held + ReportsOf(op)
  {
    hide Flatten;
    if Publishes(c, op) && c.held != [] {
      FlattenCons(c.held, UsesIn(later));
      assert UsesIn(Closed(c, op) + later) == [c.held] + UsesIn(later);
    } else {
      assert Closed(c, op) + later == later;
    }
  }

  lemma {:induction false} PumpBatchesConserve(c: Cursor, ops: seq<Op>)
    requires Good(c)
    ensures Flatten(UsesIn(PumpBatches(c, ops).0)) + PumpBatches(c, ops).1 == c.held + GroupedReports(ops)
    decreases |ops|
  {
    hide Flatten, UsesIn, Moved, Closed, Good, Publishes, ReportsOf;
    if ops == [] {
      NoBatches();
    } else {
      var op, c1 := ops[0], Moved(c, ops[0]);
      var (later, left) := PumpBatches(c1, ops[1..]);
      PumpBatchesConserve(c1, ops[1..]);
      StepConserves(c, op, later);
      var closed, reports := if Publishes(c, op) then c.held else [], GroupedReports(ops[1..]);
      AppendAssociates(closed, Flatten(UsesIn(later)), left);
      AppendAssociates(closed, c1.held, reports);
      AppendAssociates(c.held, ReportsOf(op), reports);
    }
  }

  lemma NoBatches()
    ensures Flatten(UsesIn([])) == []
  {
  }

  function Published(out: seq<Out>): seq<PendingUsage> {
    if out == [] then []
    else (if out[0].Usage? then [out[0].pending] else []) + Published(out[1..])
  }

  lemma {:induction false} PublishedConcat(a: seq<Out>, b: seq<Out>)
    ensures Published(a + b) == Published(a) + Published(b)
  {
    if a == [] {
      assert a + b == b;
    } else {
      assert (a + b)[1..] == a[1..] + b;
      PublishedConcat(a[1..], b);
      AppendAssociates(if a[0].Usage? then [a[0].pending] else [], Published(a[1..]), Published(b));
    }
  }

  /** A snapshot of one message: its id, the merge of its reports, the position of the last. */
  predicate SnapshotOf(p: PendingUsage, b: Batch)
    requires b.uses != [] && Uses(b.uses)
  {
    && p.messageId == b.key.messageId && p.requestId == b.key.requestId
    && p.usage == MergeAll(Objects(b.uses))
    && p.position == b.uses[|b.uses| - 1].position && p.nativeAt == b.uses[|b.uses| - 1].at
  }

  predicate SnapshotsOf(ps: seq<PendingUsage>, bs: seq<Batch>)
    requires GoodBatches(bs)
  {
    |ps| == |bs| && forall i | 0 <= i < |bs| :: SnapshotOf(ps[i], bs[i])
  }

  /** The pump's group where the cursor says. */
  predicate InRun(g: Group, c: Cursor)
    requires Good(c)
  {
    && Coherent(g) && g.key == c.key && g.sawStop == c.stopped
    && if c.key.None? then g == EmptyGroup else HoldsUsage(g, c.held)
  }

  lemma FlushCloses(g: Group, c: Cursor, supersede: bool)
    requires Good(c) && InRun(g, c)
    ensures var (g1, out) := DrainGroup(g, supersede);
      var op := if supersede then Finish else PollTick;
      InRun(g1, Moved(c, op)) && SnapshotsOf(Published(out), Closed(c, op))
  {
    hide BlocksOf, Sorted, MergeAll, Objects, Published;
    var g1 := DrainContent(g).0;
    var content := if DrainContent(g).1.Some? then [Content(DrainContent(g).1.value)] else [];
    PublishedOne(content);
    if (supersede || c.stopped) && c.held != [] {
      var p := TakeUsage(g1).1.value;
      PublishedOne([Usage(p)]);
      PublishedConcat(content, [Usage(p)]);
    }
  }

  lemma PublishedOne(out: seq<Out>)
    requires |out| <= 1
    ensures Published(out) == if out != [] && out[0].Usage? then [out[0].pending] else []
  {
    assert out != [] ==> out[1..] == [];
  }

  lemma SnapshotsConcat(ps: seq<PendingUsage>, bs: seq<Batch>, ps': seq<PendingUsage>, bs': seq<Batch>)
    requires GoodBatches(bs) && GoodBatches(bs') && SnapshotsOf(ps, bs) && SnapshotsOf(ps', bs')
    ensures GoodBatches(bs + bs') && SnapshotsOf(ps + ps', bs + bs')
  {
    hide SnapshotOf, Keyed;
  }

  lemma StepPublishes(g: Group, c: Cursor, op: Op)
    requires Good(c) && InRun(g, c)
    ensures var (g1, out) := Step(g, op);
      InRun(g1, Moved(c, op)) && SnapshotsOf(Published(out), Closed(c, op))
  {
    hide DrainGroup, Push, Start, Coherent, HoldsUsage, SnapshotOf, Merge, EntriesFrom, Published;
    NothingPublished();
    match op
    case Next(rec, position) =>
      if Continues(c, rec) {
        PushHolds(g, c.held, rec, position);
        CoherentStep(g, op);
        PushKeeps(g, rec, position);
        assert c.held + [] == c.held;
      } else {
        FlushCloses(g, c, true);
        if KeyOf(rec).None? {
          PublishedConcat(DrainGroup(g, true).1, [Loose(rec)]);
          PublishedOne([Loose(rec)]);
          assert Published(DrainGroup(g, true).1) + [] == Published(DrainGroup(g, true).1);
        } else {
          StartHolds(KeyOf(rec).value, rec, position);
        }
      }
    case PollTick => FlushCloses(g, c, false);
    case Finish => FlushCloses(g, c, true);
  }

  lemma PushKeeps(g: Group, rec: Rec, position: nat)
    ensures var g1 := Push(g, rec, position); g1.key == g.key && g1.sawStop == (g.sawStop || rec.stopped)
  {
    hide Merge, EntriesFrom;
  }

  lemma StartHolds(key: Key, rec: Rec, position: nat)
    requires KeyOf(rec) == Some(key)
    ensures InRun(Push(Start(key, rec, position), rec, position), Cursor(Some(key), rec.stopped, UseOf(rec, position)))
  {
    hide Merge, EntriesFrom;
    StartNotesOnce(key, rec, position);
  }

  /** Over any input and any poll schedule, the published snapshots are, one for
      one, the merges of the batches their messages' reports were cut into. */
  lemma {:induction false} PumpPublishesBatches(g: Group, c: Cursor, ops: seq<Op>)
    requires Good(c) && InRun(g, c)
    ensures SnapshotsOf(Published(PumpRun(g, ops).1), PumpBatches(c, ops).0)
    decreases |ops|
  {
    hide Published, SnapshotsOf, InRun, Step, Moved, Closed, Good, GoodBatches;
    NothingPublished();
    if ops != [] {
      var (g1, out) := Step(g, ops[0]);
      var c1, rest := Moved(c, ops[0]), ops[1..];
      StepPublishes(g, c, ops[0]);
      PumpPublishesBatches(g1, c1, rest);
      PublishedConcat(out, PumpRun(g1, rest).1);
      SnapshotsConcat(Published(out), Closed(c, ops[0]), Published(PumpRun(g1, rest).1), PumpBatches(c1, rest).0);
    }
  }

  lemma NothingPublished()
    ensures Published([]) == [] && GoodBatches([]) && SnapshotsOf([], [])
  {
  }

  lemma {:induction false} FinishLeavesNothing(c: Cursor, ops: seq<Op>)
    requires Good(c)
    ensures PumpBatches(c, ops + [Finish]).1 == []
    decreases |ops|
  {
    hide Closed, Good, GoodBatches;
    var all := ops + [Finish];
    if ops == [] {
      assert all[1..] == [];
    } else {
      assert all[0] == ops[0] && all[1..] == ops[1..] + [Finish];
      FinishLeavesNothing(Moved(c, ops[0]), ops[1..]);
    }
  }

  /** The batches a whole finished input is cut into. */
  function InputBatches(ops: seq<Op>): (bs: seq<Batch>)
    ensures GoodBatches(bs)
  {
    PumpBatches(Fresh, ops + [Finish]).0
  }

  /** The whole output of a finished input. */
  function Output(ops: seq<Op>): seq<Out> { PumpRun(EmptyGroup, ops + [Finish]).1 }

  /** A whole input, whatever it starts with, finished: every report of every
      message is in exactly one published snapshot, in order, and each snapshot is
      the merge of reports about its own message only. */
  lemma FinishedInputPublishesAll(ops: seq<Op>)
    ensures SnapshotsOf(Published(Output(ops)), InputBatches(ops))
    ensures Flatten(UsesIn(InputBatches(ops))) == GroupedReports(ops)
  {
    hide Published, SnapshotsOf, PumpRun, PumpBatches, Flatten, UsesIn, GoodBatches;
    assert InRun(EmptyGroup, Fresh);
    PumpPublishesBatches(EmptyGroup, Fresh, ops + [Finish]);
    PumpBatchesConserve(Fresh, ops + [Finish]);
    FinishLeavesNothing(Fresh, ops);
    FinishReportsNothing(ops);
    var all := Flatten(UsesIn(InputBatches(ops)));
    assert all + [] == all && [] + GroupedReports(ops) == GroupedReports(ops);
  }

  lemma {:induction false} FinishReportsNothing(ops: seq<Op>)
    ensures GroupedReports(ops + [Finish]) == GroupedReports(ops)
    decreases |ops|
  {
    var all := ops + [Finish];
    if ops == [] {
      assert all[1..] == [];
    } else {
      assert all[0] == ops[0] && all[1..] == ops[1..] + [Finish];
      FinishReportsNothing(ops[1..]);
    }
  }

  /** The grouped reports are exactly the object-shaped usages of the records with a
      message id. */
  lemma {:induction false} GroupedExactly(ops: seq<Op>, use: Use)
    ensures use in GroupedReports(ops) <==> exists i :: 0 <= i < |ops| && Grouped(ops[i], use)
    decreases |ops|
  {
    if ops != [] {
      var rest := ops[1..];
      GroupedExactly(rest, use);
      assert forall i | 0 < i < |ops| :: ops[i] == rest[i - 1];
      assert forall i | 0 <= i < |rest| :: rest[i] == ops[i + 1];
      assert use in GroupedReports(ops) <==> Grouped(ops[0], use) || use in GroupedReports(rest);
    }
  }

  predicate Grouped(op: Op, use: Use) {
    && op.Next? && op.rec.messageId.Some? && op.rec.usage == Some(use.usage) && use.usage.Obj?
    && use.position == op.position && use.at == op.rec.timestamp && use.key == KeyOf(op.rec)
  }
}
