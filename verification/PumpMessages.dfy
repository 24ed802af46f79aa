/** What the pump delivers about each message of a whole input, wherever the
polls fall: the merged usage, and every content block. */
module PumpMessages {
  import opened JsonValue
  import opened Sequences
  import opened UsageMerge
  import opened RecordGroup
  import opened RecordPump

  // ---- Usage of one message

  /** What a published snapshot tells its message by. */
  datatype MessageId = MessageId(messageId: string, requestId: Option<string>)

  function IdOf(key: Key): MessageId { MessageId(key.messageId, key.requestId) }

  predicate About(u: Use, id: MessageId) { u.key.Some? && IdOf(u.key.value) == id }

  function UsesAbout(us: seq<Use>, id: MessageId): (r: seq<Use>)
    ensures Uses(us) ==> Uses(r)
  {
    if us == [] then [] else (if About(us[0], id) then [us[0]] else []) + UsesAbout(us[1..], id)
  }

  function BatchesAbout(bs: seq<Batch>, id: MessageId): (r: seq<Batch>)
    ensures GoodBatches(bs) ==> GoodBatches(r)
  {
    if bs == [] then [] else (if IdOf(bs[0].key) == id then [bs[0]] else []) + BatchesAbout(bs[1..], id)
  }

  function SnapshotsAbout(ps: seq<PendingUsage>, id: MessageId): seq<PendingUsage> {
    if ps == [] then []
    else (if MessageId(ps[0].messageId, ps[0].requestId) == id then [ps[0]] else []) + SnapshotsAbout(ps[1..], id)
  }

  lemma {:induction false} UsesAboutConcat(a: seq<Use>, b: seq<Use>, id: MessageId)
    ensures UsesAbout(a + b, id) == UsesAbout(a, id) + UsesAbout(b, id)
  {
    if a == [] {
      assert a + b == b;
    } else {
      assert (a + b)[1..] == a[1..] + b;
      UsesAboutConcat(a[1..], b, id);
      AppendAssociates(if About(a[0], id) then [a[0]] else [], UsesAbout(a[1..], id), UsesAbout(b, id));
    }
  }

  lemma {:induction false} OneMessage(us: seq<Use>, key: Key, id: MessageId)
    requires Keyed(Some(key), us)
    ensures UsesAbout(us, id) == if IdOf(key) == id then us else []
  {
    if us != [] {
      OneMessage(us[1..], key, id);
      assert us == [us[0]] + us[1..];
    }
  }

  lemma {:induction false} BatchesSelect(bs: seq<Batch>, id: MessageId)
    requires GoodBatches(bs)
    ensures Flatten(UsesIn(BatchesAbout(bs, id))) == UsesAbout(Flatten(UsesIn(bs)), id)
  {
    hide UsesAbout, UsesIn, Keyed, Flatten;
    if bs == [] {
      NoUsesAbout(id);
    } else {
      var b, rest := bs[0], bs[1..];
      BatchesSelect(rest, id);
      OneMessage(b.uses, b.key, id);
      assert bs == [b] + rest;
      FirstBatch(b, rest);
      UsesAboutConcat(b.uses, Flatten(UsesIn(rest)), id);
      FirstBatch(b, BatchesAbout(rest, id));
      assert [] + BatchesAbout(rest, id) == BatchesAbout(rest, id);
    }
  }

  lemma FirstBatch(b: Batch, later: seq<Batch>)
    ensures Flatten(UsesIn([b] + later)) == b.uses + Flatten(UsesIn(later))
  {
    hide Flatten;
    FlattenCons(b.uses, UsesIn(later));
    assert UsesIn([b] + later) == [b.uses] + UsesIn(later);
  }

  lemma NoUsesAbout(id: MessageId)
    ensures UsesAbout([], id) == [] && Flatten(UsesIn([])) == []
  {
  }

  lemma {:induction false} SnapshotsSelect(ps: seq<PendingUsage>, bs: seq<Batch>, id: MessageId)
    requires GoodBatches(bs) && SnapshotsOf(ps, bs)
    ensures SnapshotsOf(SnapshotsAbout(ps, id), BatchesAbout(bs, id))
  {
    hide Keyed, MergeAll, Objects;
    if bs != [] {
      assert SnapshotOf(ps[0], bs[0]);
      SnapshotsSelect(ps[1..], bs[1..], id);
    }
  }

  /** For every message and wherever the polls fall, merging its published snapshots
      is merging all of its reports. */
  lemma MessageUsage(ops: seq<Op>, id: MessageId)
    requires UsesAbout(GroupedReports(ops), id) != [] && AllAgree(Objects(UsesAbout(GroupedReports(ops), id)))
    ensures var ps := Usages(SnapshotsAbout(Published(Output(ops)), id));
      ps != [] && AllObjects(ps) && MergeAll(ps) == MergeAll(Objects(UsesAbout(GroupedReports(ops), id)))
  {
    hide UsesAbout, BatchesAbout, SnapshotsAbout, Published, Output, InputBatches, MergeAll, AllAgree, Objects, Flatten,
         Keyed, GroupedReports;
    FinishedInputPublishesAll(ops);
    SnapshotsSelect(Published(Output(ops)), InputBatches(ops), id);
    BatchesSelect(InputBatches(ops), id);
    MergedBatches(SnapshotsAbout(Published(Output(ops)), id), BatchesAbout(InputBatches(ops), id));
  }

  lemma MergedBatches(ps: seq<PendingUsage>, bs: seq<Batch>)
    requires GoodBatches(bs) && SnapshotsOf(ps, bs)
    requires var us := Flatten(UsesIn(bs)); us != [] && Uses(us) && AllAgree(Objects(us))
    ensures Usages(ps) != [] && AllObjects(Usages(ps))
    ensures MergeAll(Usages(ps)) == MergeAll(Objects(Flatten(UsesIn(bs))))
  {
    hide MergeAll, AllAgree, Objects, Flatten, Keyed, Each;
    var batches := UsesIn(bs);
    if bs == [] {
      assert batches == [];
      EmptyFlatten();
    }
    ObjectBatches(batches);
    forall i | 0 <= i < |bs| ensures AllObjects(Each(batches)[i]) && Usages(ps)[i] == MergeAll(Each(batches)[i]) {
      assert SnapshotOf(ps[i], bs[i]);
    }
    MergeBatches(Each(batches), Usages(ps));
  }

  lemma EmptyFlatten()
    ensures Flatten<Use>([]) == []
  {
  }

  function WithoutPolls(ops: seq<Op>): seq<Op> {
    if ops == [] then [] else (if ops[0].PollTick? then [] else [ops[0]]) + WithoutPolls(ops[1..])
  }

  lemma {:induction false} PollsReportNothing(ops: seq<Op>)
    ensures GroupedReports(WithoutPolls(ops)) == GroupedReports(ops)
  {
    if ops != [] {
      PollsReportNothing(ops[1..]);
      var rest := WithoutPolls(ops[1..]);
      assert ([ops[0]] + rest)[1..] == rest && [] + rest == rest;
    }
  }

  /** Two inputs that differ only in where the polls fall deliver the same usage for every message. */
  lemma PollsIrrelevant(ops: seq<Op>, others: seq<Op>, id: MessageId)
    requires WithoutPolls(ops) == WithoutPolls(others)
    requires UsesAbout(GroupedReports(ops), id) != [] && AllAgree(Objects(UsesAbout(GroupedReports(ops), id)))
    ensures var a, b := Usages(SnapshotsAbout(Published(Output(ops)), id)),
      Usages(SnapshotsAbout(Published(Output(others)), id));
      a != [] && b != [] && AllObjects(a) && AllObjects(b) && MergeAll(a) == MergeAll(b)
  {
    hide UsesAbout, SnapshotsAbout, Published, Output, MergeAll, AllAgree, Objects, GroupedReports, WithoutPolls;
    PollsReportNothing(ops);
    PollsReportNothing(others);
    MessageUsage(ops, id);
    MessageUsage(others, id);
  }

  // ---- Content of one message

  /** The blocks a record brings. */
  function ContentOf(rec: Rec): seq<Json> { rec.content.GetOr([]) }

  /** The blocks of the messages drained under `key`. */
  function Delivered(out: seq<Out>, key: Key): multiset<Json> {
    if out == [] then multiset{}
    else
      (if out[0].Content? && KeyOf(out[0].drained.envelope) ==
        Some(key) then multiset(out[0].drained.content) else multiset{})
      + Delivered(out[1..], key)
  }

  /** The blocks of all records of `key`. */
  function Brought(ops: seq<Op>, key: Key): multiset<Json> {
    if ops == [] then multiset{}
    else
      (if ops[0].Next? && KeyOf(ops[0].rec) == Some(key) then multiset(ContentOf(ops[0].rec)) else multiset{})
      + Brought(ops[1..], key)
  }

  function Buffered(g: Group, key: Key): multiset<Json> {
    if g.key == Some(key) then multiset(BlocksOf(g.blocks)) else multiset{}
  }

  /** Records without a message id, passed on as they are. */
  function LooseIn(ops: seq<Op>): seq<Rec> {
    if ops == [] then []
    else (if ops[0].Next? && KeyOf(ops[0].rec).None? then [ops[0].rec] else []) + LooseIn(ops[1..])
  }

  function LooseOut(out: seq<Out>): seq<Rec> {
    if out == [] then [] else (if out[0].Loose? then [out[0].rec] else []) + LooseOut(out[1..])
  }

  lemma {:induction false} DeliveredConcat(a: seq<Out>, b: seq<Out>, key: Key)
    ensures Delivered(a + b, key) == Delivered(a, key) + Delivered(b, key)
    ensures LooseOut(a + b) == LooseOut(a) + LooseOut(b)
  {
    if a == [] {
      assert a + b == b;
    } else {
      assert (a + b)[1..] == a[1..] + b;
      DeliveredConcat(a[1..], b, key);
      AppendAssociates(if a[0].Loose? then [a[0].rec] else [], LooseOut(a[1..]), LooseOut(b));
    }
  }

  lemma DeliveredOne(o: Out, key: Key)
    ensures Delivered([o], key) ==
      if o.Content? && KeyOf(o.drained.envelope) == Some(key) then multiset(o.drained.content) else multiset{}
    ensures LooseOut([o]) == if o.Loose? then [o.rec] else []
    ensures Delivered([], key) == multiset{} && LooseOut([]) == []
  {
    assert [o][1..] == [];
  }

  lemma {:induction false} BlocksConcat(a: seq<Entry>, b: seq<Entry>)
    ensures BlocksOf(a + b) == BlocksOf(a) + BlocksOf(b)
  {
    if a == [] {
      assert a + b == b;
    } else {
      assert (a + b)[1..] == a[1..] + b;
      BlocksConcat(a[1..], b);
    }
  }

  lemma {:induction false} BlocksOfEntries(index: Option<nat>, seen: nat, blocks: seq<Json>)
    ensures BlocksOf(EntriesFrom(index, seen, blocks)) == blocks
    decreases |blocks|
  {
    if blocks != [] {
      BlocksOfEntries(index, seen + 1, blocks[1..]);
      var rest := EntriesFrom(index, seen + 1, blocks[1..]);
      assert EntriesFrom(index, seen, blocks)[1..] == rest;
      assert blocks == [blocks[0]] + blocks[1..];
    }
  }

  lemma {:induction false} InsertKeepsBlocks(e: Entry, sorted: seq<Entry>)
    ensures multiset(BlocksOf(Insert(e, sorted))) == multiset{e.block} + multiset(BlocksOf(sorted))
  {
    var all := Insert(e, sorted);
    if sorted == [] || !Before(SortKey(sorted[0]), SortKey(e)) {
      assert all[1..] == sorted;
    } else {
      InsertKeepsBlocks(e, sorted[1..]);
      assert all[1..] == Insert(e, sorted[1..]);
    }
  }

  lemma {:induction false} SortedKeepsBlocks(es: seq<Entry>)
    ensures multiset(BlocksOf(Sorted(es))) == multiset(BlocksOf(es))
  {
    if es != [] {
      SortedKeepsBlocks(es[1..]);
      InsertKeepsBlocks(es[0], Sorted(es[1..]));
    }
  }

  /** What a flush puts out, content first. */
  lemma FlushOuts(g: Group, supersede: bool) returns (content: seq<Out>, usage: seq<Out>)
    requires Coherent(g)
    ensures var (g1, out) := DrainGroup(g, supersede);
      && out == content + usage && g1.blocks == [] && g1.key == g.key
      && content == (if g.blocks == [] then [] else [Content(Drained(g.pendingHead.value, BlocksOf(Sorted(g.blocks))))])
      && (usage == [] || (|usage| == 1 && usage[0].Usage?))
  {
    hide BlocksOf, Sorted;
    var (g1, drained) := DrainContent(g);
    content := if drained.Some? then [Content(drained.value)] else [];
    var pending := TakeUsage(g1).1;
    var publishable := if supersede then PublishableOnSupersede(g1) else PublishableAtPoll(g1);
    usage := if publishable && pending.Some? then [Usage(pending.value)] else [];
    assert content + [] == content;
  }

  lemma FlushDelivers(g: Group, supersede: bool, key: Key)
    requires Coherent(g)
    ensures var (g1, out) := DrainGroup(g, supersede);
      && g1.blocks == [] && g1.key == g.key && Delivered(out, key) == Buffered(g, key) && LooseOut(out) == []
  {
    hide BlocksOf, Sorted, Delivered, LooseOut, DrainGroup;
    NoBlocks();
    NothingDelivered(key);
    SortedKeepsBlocks(g.blocks);
    var content, usage := FlushOuts(g, supersede);
    DeliveredConcat(content, usage, key);
    if content != [] {
      assert content == [content[0]];
      DeliveredOne(content[0], key);
    }
    if usage != [] {
      assert usage == [usage[0]];
      DeliveredOne(usage[0], key);
    }
  }

  lemma NoBlocks()
    ensures BlocksOf([]) == []
  {
  }

  lemma NothingDelivered(key: Key)
    ensures Delivered([], key) == multiset{} && LooseOut([]) == []
  {
  }

  lemma PushBuffers(g: Group, rec: Rec, position: nat)
    ensures BlocksOf(Push(g, rec, position).blocks) == BlocksOf(g.blocks) + ContentOf(rec)
    ensures Push(g, rec, position).key == g.key
  {
    hide Merge, BlocksOf;
    if rec.content.Some? {
      BlocksConcat(g.blocks, EntriesOf(rec, g.seen));
      BlocksOfEntries(rec.blockIndex, g.seen, rec.content.value);
    }
  }

  lemma StepDelivers(g: Group, op: Op, key: Key)
    requires Coherent(g)
    ensures var (g1, out) := Step(g, op);
      && Delivered(out, key) + Buffered(g1, key) == Buffered(g, key) + Brought([op], key)
      && LooseOut(out) == LooseIn([op])
  {
    hide BlocksOf, DrainGroup, Delivered, LooseOut, Push, Start, Coherent;
    assert [op][1..] == [];
    NothingDelivered(key);
    NoBlocks();
    match op
    case Next(rec, position) =>
      if KeyOf(rec).Some? && g.key == KeyOf(rec) {
        PushBuffers(g, rec, position);
      } else {
        FlushDelivers(g, true, key);
        var out := DrainGroup(g, true).1;
        if KeyOf(rec).None? {
          DeliveredOne(Loose(rec), key);
          DeliveredConcat(out, [Loose(rec)], key);
        } else {
          PushBuffers(Start(KeyOf(rec).value, rec, position), rec, position);
          StartIsEmpty(KeyOf(rec).value, rec, position);
        }
      }
    case PollTick => FlushDelivers(g, false, key);
    case Finish => FlushDelivers(g, true, key);
  }

  lemma StartIsEmpty(key: Key, rec: Rec, position: nat)
    ensures Start(key, rec, position).blocks == [] && Start(key, rec, position).key == Some(key)
  {
  }

  lemma BroughtStep(ops: seq<Op>, key: Key)
    requires ops != []
    ensures Brought(ops, key) == Brought([ops[0]], key) + Brought(ops[1..], key)
    ensures LooseIn(ops) == LooseIn([ops[0]]) + LooseIn(ops[1..])
  {
    assert [ops[0]][1..] == [];
  }

  lemma Telescopes(out: multiset<Json>, more: multiset<Json>, b0: multiset<Json>, b1: multiset<Json>,
                   b2: multiset<Json>,
                   x: multiset<Json>, y: multiset<Json>)
    requires out + b1 == b0 + x && more + b2 == b1 + y
    ensures (out + more) + b2 == b0 + (x + y)
  {
    assert (out + more) + b2 == out + (more + b2);
    assert out + (b1 + y) == (out + b1) + y;
  }

  /** From any coherent group, over any input: what is delivered under a key and what
      is still buffered for it are the blocks of that key's records. */
  lemma {:induction false} ContentConserved(g: Group, ops: seq<Op>, key: Key)
    requires Coherent(g)
    ensures var (g1, out) := PumpRun(g, ops);
      && Delivered(out, key) + Buffered(g1, key) == Buffered(g, key) + Brought(ops, key)
      && LooseOut(out) == LooseIn(ops)
    decreases |ops|
  {
    hide Step, Coherent, Delivered, LooseOut, Buffered;
    NothingDelivered(key);
    assert multiset{} + Buffered(g, key) == Buffered(g, key) + multiset{};
    if ops != [] {
      var (g1, out) := Step(g, ops[0]);
      var more := PumpRun(g1, ops[1..]).1;
      StepDelivers(g, ops[0], key);
      CoherentStep(g, ops[0]);
      ContentConserved(g1, ops[1..], key);
      DeliveredConcat(out, more, key);
      BroughtStep(ops, key);
      Telescopes(Delivered(out, key), Delivered(more, key), Buffered(g, key), Buffered(g1, key),
                 Buffered(PumpRun(g1, ops[1..]).0, key), Brought([ops[0]], key), Brought(ops[1..], key));
    }
  }

  /** A finished input delivers every block of every message exactly once, under
      that message, and every record without a message id as it came. */
  lemma FinishedInputDeliversAll(ops: seq<Op>, key: Key)
    ensures Delivered(Output(ops), key) == Brought(ops, key) && LooseOut(Output(ops)) == LooseIn(ops)
  {
    hide Delivered, LooseOut, Brought, LooseIn, Buffered, PumpRun;
    assert Coherent(EmptyGroup);
    ContentConserved(EmptyGroup, ops + [Finish], key);
    FinishBringsNothing(ops, key);
    FinishEmpties(EmptyGroup, ops);
    NoneBuffered(PumpRun(EmptyGroup, ops + [Finish]).0, key);
    NoneBuffered(EmptyGroup, key);
    assert Delivered(Output(ops), key) + multiset{} == Delivered(Output(ops), key);
    assert multiset{} + Brought(ops, key) == Brought(ops, key);
  }

  lemma NoneBuffered(g: Group, key: Key)
    requires g.blocks == []
    ensures Buffered(g, key) == multiset{}
  {
  }

  lemma {:induction false} FinishEmpties(g: Group, ops: seq<Op>)
    requires Coherent(g)
    ensures PumpRun(g, ops + [Finish]).0.blocks == []
    decreases |ops|
  {
    hide Step, Coherent;
    var all := ops + [Finish];
    if ops == [] {
      assert all[1..] == [];
      SupersedeEmpties(g);
      assert Step(g, Finish) == DrainGroup(g, true) by { FinishFlushes(g); }
    } else {
      assert all[0] == ops[0] && all[1..] == ops[1..] + [Finish];
      CoherentStep(g, ops[0]);
      FinishEmpties(Step(g, ops[0]).0, ops[1..]);
    }
  }

  lemma FinishFlushes(g: Group)
    ensures Step(g, Finish) == DrainGroup(g, true)
  {
  }

  lemma {:induction false} FinishBringsNothing(ops: seq<Op>, key: Key)
    ensures Brought(ops + [Finish], key) == Brought(ops, key) && LooseIn(ops + [Finish]) == LooseIn(ops)
    decreases |ops|
  {
    var all := ops + [Finish];
    if ops == [] {
      assert all[1..] == [];
    } else {
      assert all[0] == ops[0] && all[1..] == ops[1..] + [Finish];
      FinishBringsNothing(ops[1..], key);
    }
  }
}
