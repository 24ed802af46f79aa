/** Content blocks of a record group: over any schedule every block is drained
exactly once, in order, under the envelope of a record not used before. */
module GroupContent {
  import opened JsonValue
  import opened Sequences
  import opened UsageMerge
  import opened RecordGroup

  // ---- Sorting

  /** By block index, a missing one counting as zero, and then by arrival. */
  ghost predicate InOrder(es: seq<Entry>) {
    forall i, j | 0 <= i < j < |es| ::
      || es[i].index.GetOr(0) < es[j].index.GetOr(0)
      || (es[i].index.GetOr(0) == es[j].index.GetOr(0) && es[i].arrival <= es[j].arrival)
  }

  lemma {:induction false} InsertKeepsAll(e: Entry, sorted: seq<Entry>)
    ensures multiset(Insert(e, sorted)) == multiset{e} + multiset(sorted)
  {
    hide Before, SortKey;
    if sorted != [] {
      assert sorted == [sorted[0]] + sorted[1..];
      InsertKeepsAll(e, sorted[1..]);
    }
  }

  lemma {:induction false} InsertKeepsOrder(e: Entry, sorted: seq<Entry>)
    requires InOrder(sorted)
    ensures InOrder(Insert(e, sorted))
  {
    if sorted != [] && Before(SortKey(sorted[0]), SortKey(e)) {
      var first, rest := sorted[0], sorted[1..];
      InsertKeepsOrder(e, rest);
      InsertKeepsAll(e, rest);
      var tail := Insert(e, rest);
      forall j | 0 <= j < |tail| ensures !Before(SortKey(tail[j]), SortKey(first)) {
        assert tail[j] in multiset(tail);
        assert tail[j] == e || tail[j] in rest;
      }
    }
  }

  /** A drain carries a permutation of its blocks, ordered by block index and then arrival. */
  lemma {:induction false} SortedExact(es: seq<Entry>)
    ensures InOrder(Sorted(es)) && multiset(Sorted(es)) == multiset(es)
  {
    if es != [] {
      SortedExact(es[1..]);
      InsertKeepsOrder(es[0], Sorted(es[1..]));
      InsertKeepsAll(es[0], Sorted(es[1..]));
      assert es == [es[0]] + es[1..];
    }
  }

  // ---- Which record each block came from

  /** A buffered block with the record that brought it; records are numbered by arrival. */
  datatype Item = Item(ordinal: nat, rec: Rec, entry: Entry)

  function ItemsOf(rec: Rec, ordinal: nat, seen: nat): (items: seq<Item>)
    ensures |items| == |EntriesOf(rec, seen)|
    ensures forall i | 0 <= i < |items| :: items[i] == Item(ordinal, rec, EntriesOf(rec, seen)[i])
  {
    var es := EntriesOf(rec, seen);
    seq(|es|, i requires 0 <= i < |es| => Item(ordinal, rec, es[i]))
  }

  function EntriesIn(items: seq<Item>): (es: seq<Entry>)
    ensures |es| == |items| && forall i | 0 <= i < |items| :: es[i] == items[i].entry
  {
    seq(|items|, i requires 0 <= i < |items| => items[i].entry)
  }

  function Arrived(rec: Rec): nat { if rec.content.None? then 0 else |rec.content.value| }

  /** Every block the schedule pushes, in arrival order. */
  function PushedItems(n: nat, seen: nat, acts: seq<Act>): seq<Item>
    decreases |acts|
  {
    if acts == [] then []
    else if acts[0].PushAct? then
      ItemsOf(acts[0].rec, n, seen) + PushedItems(n + 1, seen + Arrived(acts[0].rec), acts[1..])
    else PushedItems(n, seen, acts[1..])
  }

  lemma {:induction false} EntriesExact(index: Option<nat>, seen: nat, blocks: seq<Json>)
    ensures |EntriesFrom(index, seen, blocks)| == |blocks|
    ensures forall i | 0 <= i < |blocks| :: EntriesFrom(index, seen, blocks)[i] == Entry(index, seen + i, blocks[i])
    decreases |blocks|
  {
    if blocks != [] {
      EntriesExact(index, seen + 1, blocks[1..]);
    }
  }

  /** A record's items are its blocks under its block index, and arrival counts on
      from block to block over the whole run. */
  lemma {:induction false} PushedExact(n: nat, seen: nat, acts: seq<Act>)
    ensures forall i | 0 <= i < |PushedItems(n, seen, acts)| ::
      var item := PushedItems(n, seen, acts)[i];
      && item.entry.arrival == seen + i && item.entry.index == item.rec.blockIndex
      && item.rec.content.Some? && item.entry.block in item.rec.content.value
    decreases |acts|
  {
    hide EntriesFrom;
    if acts != [] {
      var rest := acts[1..];
      if acts[0].PushAct? {
        var rec := acts[0].rec;
        if rec.content.Some? {
          EntriesExact(rec.blockIndex, seen, rec.content.value);
        }
        PushedExact(n + 1, seen + Arrived(rec), rest);
      } else {
        PushedExact(n, seen, rest);
      }
    }
  }

  /** The blocks brought, record by record. */
  function Contents(acts: seq<Act>): seq<Json> {
    if acts == [] then []
    else (if acts[0].PushAct? && acts[0].rec.content.Some? then acts[0].rec.content.value else []) + Contents(acts[1..])
  }

  function BlocksIn(items: seq<Item>): (bs: seq<Json>)
    ensures |bs| == |items| && forall i | 0 <= i < |items| :: bs[i] == items[i].entry.block
  {
    seq(|items|, i requires 0 <= i < |items| => items[i].entry.block)
  }

  /** The items are the blocks of the records pushed, in order, and no others. */
  lemma {:induction false} PushedBlocks(n: nat, seen: nat, acts: seq<Act>)
    ensures BlocksIn(PushedItems(n, seen, acts)) == Contents(acts)
    decreases |acts|
  {
    hide EntriesFrom;
    if acts != [] {
      var rest := acts[1..];
      if acts[0].PushAct? {
        var rec := acts[0].rec;
        if rec.content.Some? {
          EntriesExact(rec.blockIndex, seen, rec.content.value);
        }
        var items, later := ItemsOf(rec, n, seen), PushedItems(n + 1, seen + Arrived(rec), rest);
        PushedBlocks(n + 1, seen + Arrived(rec), rest);
        assert BlocksIn(items + later) == BlocksIn(items) + BlocksIn(later);
        assert BlocksIn(items) == rec.content.GetOr([]);
      } else {
        PushedBlocks(n, seen, rest);
      }
    }
  }

  /** The blocks cut into one batch per successful drain, and the batch still held. */
  function Cuts(held: seq<Item>, n: nat, seen: nat, acts: seq<Act>): (r: (seq<seq<Item>>, seq<Item>))
    ensures forall i | 0 <= i < |r.0| :: r.0[i] != []
    decreases |acts|
  {
    if acts == [] then ([], held)
    else
      match acts[0]
      case PushAct(rec, _) => Cuts(held + ItemsOf(rec, n, seen), n + 1, seen + Arrived(rec), acts[1..])
      case DrainAct =>
        if held == [] then Cuts(held, n, seen, acts[1..])
        else
          var (cuts, left) := Cuts([], n, seen, acts[1..]);
          ([held] + cuts, left)
      case TakeAct => Cuts(held, n, seen, acts[1..])
  }

  lemma {:induction false} CutsConserve(held: seq<Item>, n: nat, seen: nat, acts: seq<Act>)
    ensures Flatten(Cuts(held, n, seen, acts).0) + Cuts(held, n, seen, acts).1 == held + PushedItems(n, seen, acts)
    decreases |acts|
  {
    hide ItemsOf;
    if acts != [] {
      var rest := acts[1..];
      match acts[0]
      case PushAct(rec, _) =>
        var items, later := ItemsOf(rec, n, seen), PushedItems(n + 1, seen + Arrived(rec), rest);
        CutsConserve(held + items, n + 1, seen + Arrived(rec), rest);
        assert (held + items) + later == held + (items + later);
      case DrainAct =>
        CutsConserve([], n, seen, rest);
        if held == [] {
          CutsConserve(held, n, seen, rest);
        } else {
          var (cuts, left) := Cuts([], n, seen, rest);
          FlattenCons(held, cuts);
          assert held + (Flatten(cuts) + left) == (held + Flatten(cuts)) + left;
          assert [] + PushedItems(n, seen, rest) == PushedItems(n, seen, rest);
        }
      case TakeAct => CutsConserve(held, n, seen, rest);
    }
  }

  /** The buffer is exactly the blocks not yet drained, under the envelope of the first of them. */
  predicate HoldsItems(g: Group, held: seq<Item>, seen: nat) {
    g.blocks == EntriesIn(held) && g.seen == seen && (held != [] ==> g.pendingHead == Some(held[0].rec))
  }

  lemma PushHoldsItems(g: Group, held: seq<Item>, seen: nat, rec: Rec, position: nat, n: nat)
    requires HoldsItems(g, held, seen)
    ensures HoldsItems(Push(g, rec, position), held + ItemsOf(rec, n, seen), seen + Arrived(rec))
  {
    hide Merge;
    var items := ItemsOf(rec, n, seen);
    assert EntriesIn(held + items) == EntriesIn(held) + EntriesOf(rec, seen);
    if held != [] {
      assert (held + items)[0] == held[0];
    }
  }

  /** The blocks of these entries, all of them, in order. */
  ghost predicate ContentOf(content: seq<Json>, es: seq<Entry>) {
    exists sorted: seq<Entry> :: ContentBy(content, es, sorted)
  }

  ghost predicate ContentBy(content: seq<Json>, es: seq<Entry>, sorted: seq<Entry>) {
    && multiset(sorted) == multiset(es) && InOrder(sorted)
    && |content| == |sorted| && forall i | 0 <= i < |sorted| :: content[i] == sorted[i].block
  }

  lemma {:induction false} BlocksExact(es: seq<Entry>)
    ensures |BlocksOf(es)| == |es| && forall i | 0 <= i < |es| :: BlocksOf(es)[i] == es[i].block
  {
    if es != [] {
      BlocksExact(es[1..]);
    }
  }

  lemma SortedContent(es: seq<Entry>)
    ensures ContentOf(BlocksOf(Sorted(es)), es)
  {
    hide BlocksOf, Sorted, InOrder;
    SortedExact(es);
    BlocksExact(Sorted(es));
    assert ContentBy(BlocksOf(Sorted(es)), es, Sorted(es));
  }

  ghost predicate DrainsOf(drains: seq<Drained>, cuts: seq<seq<Item>>)
    requires forall i | 0 <= i < |cuts| :: cuts[i] != []
  {
    |drains| == |cuts| &&
    forall i | 0 <= i < |cuts| ::
      drains[i].envelope == cuts[i][0].rec && ContentOf(drains[i].content, EntriesIn(cuts[i]))
  }

  /** Whatever the schedule, each drain carries its own batch of blocks, sorted,
      under the envelope of the record that brought the first of them. */
  lemma {:induction false} DrainsAreCuts(g: Group, held: seq<Item>, n: nat, seen: nat, acts: seq<Act>)
    requires HoldsItems(g, held, seen)
    ensures DrainsOf(Run(g, acts).drains, Cuts(held, n, seen, acts).0)
    ensures var end := Run(g, acts).end; HoldsItems(end, Cuts(held, n, seen, acts).1, end.seen)
    decreases |acts|
  {
    hide Merge, ItemsOf, BlocksOf, Sorted, EntriesIn, ContentOf;
    if acts != [] {
      var rest := acts[1..];
      match acts[0]
      case PushAct(rec, position) =>
        PushHoldsItems(g, held, seen, rec, position, n);
        DrainsAreCuts(Push(g, rec, position), held + ItemsOf(rec, n, seen), n + 1, seen + Arrived(rec), rest);
      case DrainAct =>
        if held == [] {
          DrainsAreCuts(g, held, n, seen, rest);
        } else {
          SortedContent(g.blocks);
          DrainsAreCuts(DrainContent(g).0, [], n, seen, rest);
        }
      case TakeAct => DrainsAreCuts(TakeUsage(g).0, held, n, seen, rest);
    }
  }

  // ---- Envelopes

  predicate OrdinalsBelow(items: seq<Item>, n: nat) { forall i | 0 <= i < |items| :: items[i].ordinal < n }

  predicate OrdinalsFrom(items: seq<Item>, n: nat) { forall i | 0 <= i < |items| :: n <= items[i].ordinal }

  lemma {:induction false} CutsFrom(held: seq<Item>, n: nat, seen: nat, acts: seq<Act>, m: nat)
    requires m <= n && OrdinalsFrom(held, m)
    ensures forall i | 0 <= i < |Cuts(held, n, seen, acts).0| :: OrdinalsFrom(Cuts(held, n, seen, acts).0[i], m)
    decreases |acts|
  {
    if acts != [] {
      var rest := acts[1..];
      match acts[0]
      case PushAct(rec, _) => CutsFrom(held + ItemsOf(rec, n, seen), n + 1, seen + Arrived(rec), rest, m);
      case DrainAct =>
        CutsFrom([], n, seen, rest, m);
        CutsFrom(held, n, seen, rest, m);
      case TakeAct => CutsFrom(held, n, seen, rest, m);
    }
  }

  predicate AllBefore(a: seq<Item>, b: seq<Item>) {
    forall i, j | 0 <= i < |a| && 0 <= j < |b| :: a[i].ordinal < b[j].ordinal
  }

  predicate Separated(cuts: seq<seq<Item>>) { forall i, j | 0 <= i < j < |cuts| :: AllBefore(cuts[i], cuts[j]) }

  /** No record's blocks are shared between drains, and a later drain carries only later records. */
  lemma {:induction false} LaterDrainsLaterRecords(held: seq<Item>, n: nat, seen: nat, acts: seq<Act>)
    requires OrdinalsBelow(held, n)
    ensures Separated(Cuts(held, n, seen, acts).0)
    decreases |acts|
  {
    hide ItemsOf;
    if acts != [] {
      var rest := acts[1..];
      match acts[0]
      case PushAct(rec, _) =>
        LaterDrainsLaterRecords(held + ItemsOf(rec, n, seen), n + 1, seen + Arrived(rec), rest);
      case DrainAct =>
        LaterDrainsLaterRecords([], n, seen, rest);
        CutsFrom([], n, seen, rest, n);
        var later := Cuts([], n, seen, rest).0;
        assert forall j | 0 <= j < |later| :: AllBefore(held, later[j]);
        if held == [] {
          LaterDrainsLaterRecords(held, n, seen, rest);
        }
      case TakeAct => LaterDrainsLaterRecords(held, n, seen, rest);
    }
  }

  function UuidsOf(acts: seq<Act>): set<string>
    decreases |acts|
  {
    if acts == [] then {}
    else (if acts[0].PushAct? && acts[0].rec.uuid.Some? then {acts[0].rec.uuid.value} else {}) + UuidsOf(acts[1..])
  }

  /** No two pushed records share a uuid. */
  predicate DistinctUuids(acts: seq<Act>)
    decreases |acts|
  {
    acts != [] ==>
      && (acts[0].PushAct? && acts[0].rec.uuid.Some? ==> acts[0].rec.uuid.value !in UuidsOf(acts[1..]))
      && DistinctUuids(acts[1..])
  }

  /** What the snapshot dedup downstream lets through of a sequence of drained messages. */
  function Deduped(snapshots: set<string>, drains: seq<Drained>): seq<Drained>
    decreases |drains|
  {
    if drains == [] then []
    else
      var uuid := drains[0].envelope.uuid;
      if uuid.Some? && uuid.value in snapshots then Deduped(snapshots, drains[1..])
      else [drains[0]] + Deduped(if uuid.Some? then snapshots + {uuid.value} else snapshots, drains[1..])
  }

  /** The uuid the next drain would carry. */
  function OwedUuid(g: Group): set<string> {
    if g.blocks != [] && g.pendingHead.Some? && g.pendingHead.value.uuid.Some? then {g.pendingHead.value.uuid.value}
    else {}
  }

  /** With distinct record uuids no drained message is taken for one already seen. */
  lemma {:induction false} NoDrainLost(g: Group, acts: seq<Act>, snapshots: set<string>)
    requires g.blocks != [] ==> g.pendingHead.Some?
    requires DistinctUuids(acts) && OwedUuid(g) !! UuidsOf(acts)
    requires snapshots !! (OwedUuid(g) + UuidsOf(acts))
    ensures Deduped(snapshots, Run(g, acts).drains) == Run(g, acts).drains
    decreases |acts|
  {
    hide Merge, BlocksOf, Sorted, EntriesFrom;
    if acts != [] {
      var rest := acts[1..];
      match acts[0]
      case PushAct(rec, position) =>
        NoDrainLost(Push(g, rec, position), rest, snapshots);
      case DrainAct =>
        var (g1, drained) := DrainContent(g);
        NoDrainLost(g1, rest, snapshots + OwedUuid(g));
        if drained.Some? {
          var all := Run(g, acts).drains;
          assert all[0] == drained.value && all[1..] == Run(g1, rest).drains;
          assert snapshots + OwedUuid(g) ==
            if drained.value.envelope.uuid.Some? then snapshots + {drained.value.envelope.uuid.value} else snapshots;
        } else {
          NoDrainLost(g1, rest, snapshots);
        }
      case TakeAct => NoDrainLost(TakeUsage(g).0, rest, snapshots);
    }
  }
}
