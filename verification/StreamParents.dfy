/** Parents do not interfere: the content mutations of one parent are the same,
up to the names of fresh ids, whatever other parents' frames are interleaved. */
module StreamParents {
  import opened JsonValue
  import opened StreamMapper

  // ---- Renaming fresh ids

  /** The k-th fresh id of a run on its own is the `Renaming[k]`-th of the whole run. */
  type Renaming = seq<nat>

  ghost predicate Increasing(rho: Renaming) { forall i, j | 0 <= i < j < |rho| :: rho[i] < rho[j] }

  predicate Named(id: Id, n: nat) { id.Fresh? ==> id.n < n }

  function RenameId(rho: Renaming, id: Id): Id { if id.Fresh? && id.n < |rho| then Fresh(rho[id.n]) else id }

  function RenameBlock(rho: Renaming, b: Block): Block { b.(id := RenameId(rho, b.id)) }

  function RenameTable(rho: Renaming, t: Table): (r: Table)
    ensures |r| == |t| && forall i | 0 <= i < |t| :: r[i] == Slot(t[i].index, RenameBlock(rho, t[i].block))
  {
    if t == [] then [] else [Slot(t[0].index, RenameBlock(rho, t[0].block))] + RenameTable(rho, t[1..])
  }

  function RenameOut(rho: Renaming, out: seq<Mutation>): (r: seq<Mutation>)
    ensures |r| == |out| && forall i | 0 <= i < |out| :: r[i] == out[i].(node := RenameId(rho, out[i].node))
  {
    if out == [] then [] else [out[0].(node := RenameId(rho, out[0].node))] + RenameOut(rho, out[1..])
  }

  predicate NamedTable(t: Table, n: nat) { forall i | 0 <= i < |t| :: Named(t[i].block.id, n) }

  predicate NamedOut(out: seq<Mutation>, n: nat) { forall i | 0 <= i < |out| :: Named(out[i].node, n) }

  lemma {:induction false} RenameOutConcat(rho: Renaming, a: seq<Mutation>, b: seq<Mutation>)
    ensures RenameOut(rho, a + b) == RenameOut(rho, a) + RenameOut(rho, b)
  {
    hide RenameOut;
  }

  /** Naming further ids does not change what is named already. */
  lemma {:induction false} TableExtends(rho: Renaming, rho': Renaming, t: Table)
    requires rho <= rho' && NamedTable(t, |rho|)
    ensures RenameTable(rho', t) == RenameTable(rho, t) && NamedTable(t, |rho'|)
  {
    hide RenameTable;
    assert forall i | 0 <= i < |t| :: RenameTable(rho', t)[i] == RenameTable(rho, t)[i];
  }

  lemma {:induction false} OutExtends(rho: Renaming, rho': Renaming, out: seq<Mutation>)
    requires rho <= rho' && NamedOut(out, |rho|)
    ensures RenameOut(rho', out) == RenameOut(rho, out) && NamedOut(out, |rho'|)
  {
    hide RenameOut;
    assert forall i | 0 <= i < |out| :: RenameOut(rho', out)[i] == RenameOut(rho, out)[i];
  }

  // ---- The table operations commute with renaming

  lemma {:induction false} LookupRenamed(rho: Renaming, t: Table, index: U32)
    ensures Lookup(RenameTable(rho, t), index) ==
      if Lookup(t, index).Some? then Some(RenameBlock(rho, Lookup(t, index).value)) else None
    ensures Lookup(t, index).Some? ==> exists i :: 0 <= i < |t| && t[i].block == Lookup(t, index).value
  {
    if t != [] && t[0].index != index {
      LookupRenamed(rho, t[1..], index);
      if Lookup(t[1..], index).Some? {
        var i :| 0 <= i < |t[1..]| && t[1..][i].block == Lookup(t, index).value;
        assert t[i + 1].block == Lookup(t, index).value;
      }
    }
  }

  lemma {:induction false} PutRenamed(rho: Renaming, t: Table, index: U32, b: Block, n: nat)
    requires NamedTable(t, n) && Named(b.id, n)
    ensures Put(RenameTable(rho, t), index, RenameBlock(rho, b)) == RenameTable(rho, Put(t, index, b))
    ensures NamedTable(Put(t, index, b), n)
  {
    if t != [] && t[0].index < index {
      PutRenamed(rho, t[1..], index, b, n);
    }
  }

  lemma EmitRenamed(rho: Renaming, b: Block, origin: Origin, index: U32, op: Operation, delta: Option<string>)
    ensures var (b1, m) := Emit(b, origin, index, op, delta);
      Emit(RenameBlock(rho, b), origin, index, op, delta) == (RenameBlock(rho, b1), m.(node := RenameId(rho, m.node)))
  {
  }

  lemma RenameFew(rho: Renaming, a: Mutation, b: Mutation)
    ensures RenameOut(rho, [a]) == [a.(node := RenameId(rho, a.node))]
    ensures RenameOut(rho, [a, b]) == [a.(node := RenameId(rho, a.node)), b.(node := RenameId(rho, b.node))]
  {
  }

  lemma StopRenamed(rho: Renaming, b: Block, parses: Parses, origin: Origin, index: U32, n: nat)
    requires Named(b.id, n)
    ensures var (b1, out) := StopBlock(b, parses, origin, index);
      && StopBlock(RenameBlock(rho, b), parses, origin, index) == (RenameBlock(rho, b1), RenameOut(rho, out))
      && Named(b1.id, n) && NamedOut(out, n)
  {
    hide Emit, RenameOut;
    var c := ClosedBlock(b, parses);
    assert ClosedBlock(RenameBlock(rho, b), parses) == RenameBlock(rho, c) && c.id == b.id;
    var op := if c.revision == 0 then Open else Close;
    var (b1, m1) := Emit(c, origin, index, op, None);
    EmitRenamed(rho, c, origin, index, op, None);
    EmitNames(c, origin, index, op, None);
    EmitRenamed(rho, b1, origin, index, Close, None);
    EmitNames(b1, origin, index, Close, None);
    RenameFew(rho, m1, Emit(b1, origin, index, Close, None).1);
  }

  lemma {:induction false} StopSlotsRenamed(rho: Renaming, t: Table, parses: Parses, origin: Origin, event: Event,
                                            n: nat)
    requires NamedTable(t, n)
    ensures var (t1, out) := StopSlots(t, parses, origin, event);
      && StopSlots(RenameTable(rho, t), parses, origin, event) == (RenameTable(rho, t1), RenameOut(rho, out))
      && NamedTable(t1, n) && NamedOut(out, n)
  {
    hide StopBlock;
    if t != [] {
      var first := t[0];
      StopSlotsRenamed(rho, t[1..], parses, origin, event, n);
      assert RenameTable(rho, t)[1..] == RenameTable(rho, t[1..]);
      if Stops(event, first.index) && !first.block.closed {
        StopRenamed(rho, first.block, parses, origin, first.index, n);
        RenameOutConcat(rho, StopBlock(first.block, parses, origin, first.index).1,
                        StopSlots(t[1..], parses, origin, event).1);
      }
    }
  }

  /** What a change of a table on its own (next fresh id `|rho|`) corresponds to in the whole run (next `next`). */
  ghost predicate Corresponds(rho: Renaming, alone: (Table, nat, seq<Mutation>), rho': Renaming,
                              within: (Table, nat, seq<Mutation>)) {
    && rho <= rho' && Increasing(rho') && |rho'| == alone.1 && (forall i | 0 <= i < |rho'| :: rho'[i] < within.1)
    && NamedTable(alone.0, |rho'|) && NamedOut(alone.2, |rho'|)
    && within.0 == RenameTable(rho', alone.0) && within.2 == RenameOut(rho', alone.2)
  }

  predicate Names(rho: Renaming, next: nat) { forall i | 0 <= i < |rho| :: rho[i] < next }

  function Extended(rho: Renaming, next: nat, v: Value): Renaming { if v.kind == ToolKind then rho else rho + [next] }

  lemma NewBlockRenamed(rho: Renaming, next: nat, v: Value)
    requires Increasing(rho) && Names(rho, next) && v.kind != OtherKind
    ensures var rho' := Extended(rho, next, v);
      && NewBlock(next, v) == RenameBlock(rho', NewBlock(|rho|, v)) && Named(NewBlock(|rho|, v).id, |rho'|)
      && Increasing(rho') && Names(rho', NextAfter(next, v)) && |rho'| == NextAfter(|rho|, v) && rho <= rho'
  {
  }

  lemma StartRenamed(rho: Renaming, t: Table, next: nat, origin: Origin, index: U32, v: Value) returns (rho': Renaming)
    requires Increasing(rho) && Names(rho, next) && NamedTable(t, |rho|) && v.kind != OtherKind
    ensures var (t1, out1) := StartBlock(t, |rho|, origin, index, v);
      var (t2, out2) := StartBlock(RenameTable(rho, t), next, origin, index, v);
      Corresponds(rho, (t1, NextAfter(|rho|, v), out1), rho', (t2, NextAfter(next, v), out2))
  {
    hide Put, Emit;
    rho' := Extended(rho, next, v);
    NewBlockRenamed(rho, next, v);
    TableExtends(rho, rho', t);
    var b := NewBlock(|rho|, v);
    EmitRenamed(rho', b, origin, index, Open, None);
    EmitNames(b, origin, index, Open, None);
    PutRenamed(rho', t, index, b, |rho'|);
    PutRenamed(rho', t, index, Emit(b, origin, index, Open, None).0, |rho'|);
  }

  lemma EmitNames(b: Block, origin: Origin, index: U32, op: Operation, delta: Option<string>)
    ensures var (b1, m) := Emit(b, origin, index, op, delta); b1.id == b.id && m.node == b.id
  {
  }

  lemma EventRenamed(rho: Renaming, t: Table, next: nat, parses: Parses, origin: Origin, event: Event)
    returns (rho': Renaming)
    requires Increasing(rho) && Names(rho, next) && NamedTable(t, |rho|)
    ensures Corresponds(rho, ApplyEvent(t, |rho|, parses, origin, event),
                        rho', ApplyEvent(RenameTable(rho, t), next, parses, origin, event))
  {
    hide Put, Emit, StartBlock, Lookup, StopSlots, RenameTable, RenameOut;
    rho' := rho;
    RenamedNothing(rho);
    match event
    case BlockStart(index, v) =>
      if index.Some? && v.kind != OtherKind {
        rho' := StartRenamed(rho, t, next, origin, index.value, v);
      }
    case BlockDelta(index, delta) =>
      if index.Some? {
        LookupRenamed(rho, t, index.value);
        if Lookup(t, index.value).Some? {
          DeltaRenamed(rho, t, origin, index.value, Lookup(t, index.value).value, delta);
        }
      }
    case BlockStop(_) => StopSlotsRenamed(rho, t, parses, origin, event, |rho|);
    case MessageStop => StopSlotsRenamed(rho, t, parses, origin, event, |rho|);
    case _ =>
  }

  lemma RenamedNothing(rho: Renaming)
    ensures RenameOut(rho, []) == []
  {
  }

  lemma DeltaRenamed(rho: Renaming, t: Table, origin: Origin, index: U32, b: Block, delta: Delta)
    requires NamedTable(t, |rho|) && Named(b.id, |rho|)
    ensures var (t1, out) := DeltaBlock(t, origin, index, b, delta);
      && DeltaBlock(RenameTable(rho, t), origin, index, RenameBlock(rho, b), delta) ==
         (RenameTable(rho, t1), RenameOut(rho, out))
      && NamedTable(t1, |rho|) && NamedOut(out, |rho|)
  {
    hide Put, Emit, RenameTable, RenameOut, DeltaText;
    RenamedNothing(rho);
    var text := DeltaText(b.value.kind, delta);
    if text.Some? {
      var grown, op := Grown(b, text.value), if b.revision == 0 then Open else Append;
      EmitRenamed(rho, grown, origin, index, op, text);
      EmitNames(grown, origin, index, op, text);
      PutRenamed(rho, t, index, Emit(grown, origin, index, op, text).0, |rho|);
      var m := Emit(grown, origin, index, op, text).1;
      RenameFew(rho, m, m);
      assert Grown(RenameBlock(rho, b), text.value) == RenameBlock(rho, grown);
    }
  }

  // ---- Snapshots

  lemma {:induction false} FirstMatchRenamed(rho: Renaming, t: Table, v: Value)
    ensures FirstMatch(RenameTable(rho, t), v) == FirstMatch(t, v)
  {
    if t != [] {
      FirstMatchRenamed(rho, t[1..], v);
    }
  }

  lemma ItemRenamed(rho: Renaming, t: Table, next: nat, origin: Origin, phase: Phase, v: Value) returns (rho': Renaming)
    requires Increasing(rho) && Names(rho, next) && NamedTable(t, |rho|)
    ensures Corresponds(rho, ApplyItem(t, |rho|, origin, phase, v), rho', ApplyItem(RenameTable(rho, t), next,
      origin, phase, v))
  {
    hide Put, Emit, Lookup, FirstMatch;
    rho' := rho;
    RenamedNothing(rho);
    if v.kind != OtherKind {
      var index := ItemIndex(t, v);
      FirstMatchRenamed(rho, t, v);
      LookupRenamed(rho, t, index);
      assert ItemIndex(RenameTable(rho, t), v) == index;
      if Lookup(t, index).None? {
        rho' := Extended(rho, next, v);
        NewBlockRenamed(rho, next, v);
      }
      TableExtends(rho, rho', t);
      var b := Reconciled(ItemBlock(t, |rho|, v), v, phase);
      assert Reconciled(ItemBlock(RenameTable(rho, t), next, v), v, phase) == RenameBlock(rho', b) &&
        Named(b.id, |rho'|);
      BindRenamed(rho', t, origin, index, b);
    }
  }

  lemma BindRenamed(rho: Renaming, t: Table, origin: Origin, index: U32, b: Block)
    requires NamedTable(t, |rho|) && Named(b.id, |rho|)
    ensures var op := if b.revision == 0 then Open else Replace;
      var (b1, m1) := Emit(b, origin, index, op, None);
      var (b2, m2) := Emit(b1, origin, index, Close, None);
      var (c1, k1) := Emit(RenameBlock(rho, b), origin, index, op, None);
      var (c2, k2) := Emit(c1, origin, index, Close, None);
      && Put(RenameTable(rho, t), index, c2) == RenameTable(rho, Put(t, index, b2)) &&
         [k1, k2] == RenameOut(rho, [m1, m2])
      && NamedTable(Put(t, index, b2), |rho|) && NamedOut([m1, m2], |rho|)
  {
    hide Put, Emit;
    var op := if b.revision == 0 then Open else Replace;
    var (b1, m1) := Emit(b, origin, index, op, None);
    EmitRenamed(rho, b, origin, index, op, None);
    EmitNames(b, origin, index, op, None);
    EmitRenamed(rho, b1, origin, index, Close, None);
    EmitNames(b1, origin, index, Close, None);
    PutRenamed(rho, t, index, Emit(b1, origin, index, Close, None).0, |rho|);
  }

  lemma {:induction false} ItemsRenamed(rho: Renaming, t: Table, next: nat, origin: Origin, phase: Phase,
                                        content: seq<Value>)
    returns (rho': Renaming)
    requires Increasing(rho) && Names(rho, next) && NamedTable(t, |rho|)
    ensures Corresponds(rho, ApplyItems(t, |rho|, origin, phase, content),
                        rho', ApplyItems(RenameTable(rho, t), next, origin, phase, content))
    decreases |content|
  {
    hide ApplyItem, RenameTable, RenameOut, NamedTable, NamedOut, Increasing;
    if content == [] {
      rho' := rho;
      RenamedNothing(rho);
      NamedNothing(|rho|);
    } else {
      var v, rest := content[0], content[1..];
      var (t1, n1, out1) := ApplyItem(t, |rho|, origin, phase, v);
      var (t2, n2, out2) := ApplyItem(RenameTable(rho, t), next, origin, phase, v);
      var mid := ItemRenamed(rho, t, next, origin, phase, v);
      rho' := ItemsRenamed(mid, t1, n2, origin, phase, rest);
      var more := ApplyItems(t1, n1, origin, phase, rest).2;
      OutExtends(mid, rho', out1);
      RenameOutConcat(rho', out1, more);
      NamedConcat(out1, more, |rho'|);
    }
  }

  lemma NamedConcat(a: seq<Mutation>, b: seq<Mutation>, n: nat)
    requires NamedOut(a, n) && NamedOut(b, n)
    ensures NamedOut(a + b, n)
  {
  }

  lemma NamedNothing(n: nat)
    ensures NamedOut([], n)
  {
  }

  // ---- A parent's run on its own and within the whole run

  function FramesOf(frames: seq<Frame>, p: Option<string>): seq<Frame> {
    if frames == [] then []
    else (if frames[0].parent == p then [frames[0]] else []) + FramesOf(frames[1..], p)
  }

  /** The mutations the whole run emits for the frames of one parent. */
  function OutputsOf(s: State, parses: Parses, frames: seq<Frame>, p: Option<string>): seq<Mutation>
    decreases |frames|
  {
    if frames == [] then []
    else
      var (s1, out) := MapFrame(s, parses, frames[0]);
      (if frames[0].parent == p then out else []) + OutputsOf(s1, parses, frames[1..], p)
  }

  /** Only this parent's snapshots carry uuids of `mine`. */
  predicate OwnUuids(frames: seq<Frame>, p: Option<string>, mine: set<string>) {
    forall i | 0 <= i < |frames| && frames[i].AssistantFrame? && frames[i].uuid.Some? ::
      frames[i].parent == p <==> frames[i].uuid.value in mine
  }

  /** The whole run's state restricted to parent `p` is the lone run's state, renamed. */
  ghost predicate Similar(rho: Renaming, alone: State, whole: State, p: Option<string>, mine: set<string>) {
    && Increasing(rho) && |rho| == alone.next && Names(rho, whole.next)
    && (p in alone.active <==> p in whole.active) && (p in alone.active ==> alone.active[p] == whole.active[p])
    && (forall native: string ::
          && NamedTable(TableOf(alone, Origin(p, native)), |rho|)
          && TableOf(whole, Origin(p, native)) == RenameTable(rho, TableOf(alone, Origin(p, native))))
    && (forall u | u in mine :: u in alone.snapshots <==> u in whole.snapshots)
  }

  lemma TableChanged(rho: Renaming, rho': Renaming, alone: State, whole: State, p: Option<string>, mine: set<string>,
                     native: string, t1: (Table, nat, seq<Mutation>), t2: (Table, nat, seq<Mutation>),
                     alone1: State, whole1: State)
    requires Similar(rho, alone, whole, p, mine) && Corresponds(rho, t1, rho', t2)
    requires alone1.tables == alone.tables[Origin(p, native) := t1.0] && alone1.next == t1.1
    requires whole1.tables == whole.tables[Origin(p, native) := t2.0] && whole1.next == t2.1
    requires (p in alone1.active <==>
      p in whole1.active) && (p in alone1.active ==> alone1.active[p] == whole1.active[p])
    requires forall u | u in mine :: u in alone1.snapshots <==> u in whole1.snapshots
    ensures Similar(rho', alone1, whole1, p, mine)
  {
    hide RenameTable, NamedTable, RenameOut, NamedOut, Increasing;
    forall other: string
      ensures NamedTable(TableOf(alone1, Origin(p, other)), |rho'|)
      ensures TableOf(whole1, Origin(p, other)) == RenameTable(rho', TableOf(alone1, Origin(p, other)))
    {
      if other != native {
        TableExtends(rho, rho', TableOf(alone, Origin(p, other)));
      }
    }
  }

  lemma OwnFrame(rho: Renaming, alone: State, whole: State, parses: Parses, p: Option<string>, mine: set<string>,
                 f: Frame)
    returns (rho': Renaming)
    requires Similar(rho, alone, whole, p, mine) && f.parent == p && OwnUuids([f], p, mine)
    ensures var (a1, out1) := MapFrame(alone, parses, f);
      var (w1, out2) := MapFrame(whole, parses, f);
      rho <= rho' && Similar(rho', a1, w1, p, mine) && NamedOut(out1, |rho'|) && out2 == RenameOut(rho', out1)
  {
    hide ApplyEvent, ApplyItems, RenameTable, RenameOut, Corresponds, Similar, NamedTable, NamedOut;
    rho' := rho;
    RenamedNothing(rho);
    NamedNothing(|rho|);
    SimilarFacts(rho, alone, whole, p, mine);
    var (a1, out1) := MapFrame(alone, parses, f);
    var (w1, out2) := MapFrame(whole, parses, f);
    match f
    case StreamFrame(_, event) =>
      if event.MessageStart? {
        StartedActive(rho, alone, whole, p, mine, event.id);
      } else if p in alone.active && !event.MessageDelta? {
        var o := Origin(p, alone.active[p]);
        OwnTables(rho, alone, whole, p, mine, o.native);
        rho' := EventRenamed(rho, TableOf(alone, o), whole.next, parses, o, event);
        var c1 := ApplyEvent(TableOf(alone, o), alone.next, parses, o, event);
        var c2 := ApplyEvent(TableOf(whole, o), whole.next, parses, o, event);
        TableChanged(rho, rho', alone, whole, p, mine, o.native, c1, c2, a1, w1);
        CorrespondingOut(rho, c1, rho', c2);
      }
    case AssistantFrame(_, uuid, messageId, content) =>
      var native := if messageId.Some? then messageId else uuid;
      assert [f][0] == f;
      if !((uuid.Some? && uuid.value in alone.snapshots) || native.None?) {
        var o := Origin(p, native.value);
        OwnTables(rho, alone, whole, p, mine, o.native);
        var t := TableOf(alone, o);
        PhaseRenamed(rho, t, content);
        rho' := ItemsRenamed(rho, t, whole.next, o, FramePhase(t, content), content);
        var c1 := ApplyItems(t, alone.next, o, FramePhase(t, content), content);
        var c2 := ApplyItems(TableOf(whole, o), whole.next, o, FramePhase(t, content), content);
        TableChanged(rho, rho', alone, whole, p, mine, o.native, c1, c2, a1, w1);
        CorrespondingOut(rho, c1, rho', c2);
      }
  }

  lemma SimilarFacts(rho: Renaming, alone: State, whole: State, p: Option<string>, mine: set<string>)
    requires Similar(rho, alone, whole, p, mine)
    ensures (p in alone.active <==> p in whole.active) && (p in alone.active ==> alone.active[p] == whole.active[p])
    ensures forall u | u in mine :: u in alone.snapshots <==> u in whole.snapshots
  {
  }

  lemma OwnTables(rho: Renaming, alone: State, whole: State, p: Option<string>, mine: set<string>, native: string)
    requires Similar(rho, alone, whole, p, mine)
    ensures Increasing(rho) && Names(rho, whole.next) && |rho| == alone.next
    ensures NamedTable(TableOf(alone, Origin(p, native)), |rho|)
    ensures TableOf(whole, Origin(p, native)) == RenameTable(rho, TableOf(alone, Origin(p, native)))
  {
  }

  lemma StartedActive(rho: Renaming, alone: State, whole: State, p: Option<string>, mine: set<string>,
                      id: Option<string>)
    requires Similar(rho, alone, whole, p, mine)
    ensures id.Some? ==> Similar(rho, alone.(active := alone.active[p := id.value]),
      whole.(active := whole.active[p := id.value]), p, mine)
  {
    hide RenameTable, NamedTable, Increasing;
    if id.Some? {
      var a, w := alone.(active := alone.active[p := id.value]), whole.(active := whole.active[p := id.value]);
      assert forall native: string :: TableOf(a, Origin(p, native)) == TableOf(alone, Origin(p, native));
      assert forall native: string :: TableOf(w, Origin(p, native)) == TableOf(whole, Origin(p, native));
    }
  }

  lemma CorrespondingOut(rho: Renaming, a: (Table, nat, seq<Mutation>), rho': Renaming, w: (Table, nat, seq<Mutation>))
    requires Corresponds(rho, a, rho', w)
    ensures rho <= rho' && NamedOut(a.2, |rho'|) && w.2 == RenameOut(rho', a.2)
  {
  }

  lemma PhaseRenamed(rho: Renaming, t: Table, content: seq<Value>)
    ensures FramePhase(RenameTable(rho, t), content) == FramePhase(t, content)
  {
    var r := RenameTable(rho, t);
    assert forall i | 0 <= i < |t| :: r[i].block.value == t[i].block.value;
    if HasTool(t) {
      var i :| 0 <= i < |t| && t[i].block.value.kind == ToolKind;
      assert r[i].block.value.kind == ToolKind;
    }
  }

  // ---- Mutations carry their origin

  /** Messages and tool calls name the parent they belong to, messages also the
      native message, and nothing is closed incomplete. */
  predicate Stamped(m: Mutation, origin: Origin) {
    && (m.payload.Message? ==> m.payload.parent == origin.parent && m.payload.native == origin.native)
    && (m.payload.ToolCall? ==> m.payload.caller == origin.parent)
    && (m.op == Close ==> m.complete)
  }

  predicate AllStamped(out: seq<Mutation>, origin: Origin) { forall i | 0 <= i < |out| :: Stamped(out[i], origin) }

  lemma StopStamped(b: Block, parses: Parses, origin: Origin, index: U32)
    ensures AllStamped(StopBlock(b, parses, origin, index).1, origin)
  {
  }

  lemma {:induction false} StopSlotsStamped(t: Table, parses: Parses, origin: Origin, event: Event)
    ensures AllStamped(StopSlots(t, parses, origin, event).1, origin)
  {
    hide StopBlock;
    if t != [] {
      StopStamped(t[0].block, parses, origin, t[0].index);
      StopSlotsStamped(t[1..], parses, origin, event);
    }
  }

  lemma EventStamped(t: Table, next: nat, parses: Parses, origin: Origin, event: Event)
    ensures AllStamped(ApplyEvent(t, next, parses, origin, event).2, origin)
  {
    hide Put, Lookup, StopSlots;
    StopSlotsStamped(t, parses, origin, event);
  }

  lemma {:induction false} ItemsStamped(t: Table, next: nat, origin: Origin, phase: Phase, content: seq<Value>)
    ensures AllStamped(ApplyItems(t, next, origin, phase, content).2, origin)
    decreases |content|
  {
    hide Put, ItemBlock, ItemIndex, ItemNext;
    if content != [] {
      var (t1, next1, out) := ApplyItem(t, next, origin, phase, content[0]);
      assert AllStamped(out, origin);
      ItemsStamped(t1, next1, origin, phase, content[1..]);
    }
  }

  /** The message a frame is about. */
  function FrameOrigin(s: State, f: Frame): Option<Origin> {
    match f
    case StreamFrame(parent, _) => if parent in s.active then Some(Origin(parent, s.active[parent])) else None
    case AssistantFrame(parent, uuid, messageId, _) =>
      var native := if messageId.Some? then messageId else uuid;
      if native.Some? then Some(Origin(parent, native.value)) else None
  }

  /** Whatever a frame emits is about its own parent and message. */
  lemma FrameStamped(s: State, parses: Parses, f: Frame)
    ensures MapFrame(s, parses, f).1 == [] ||
      (FrameOrigin(s, f).Some? && AllStamped(MapFrame(s, parses, f).1, FrameOrigin(s, f).value))
  {
    hide ApplyEvent, ApplyItems, FramePhase;
    if FrameOrigin(s, f).Some? {
      var o := FrameOrigin(s, f).value;
      var t := TableOf(s, o);
      if f.StreamFrame? {
        EventStamped(t, s.next, parses, o, f.event);
      } else {
        ItemsStamped(t, s.next, o, FramePhase(t, f.content), f.content);
      }
    }
  }

  // ---- Frames of other parents

  lemma {:induction false} ItemsAdvance(t: Table, next: nat, origin: Origin, phase: Phase, content: seq<Value>)
    ensures next <= ApplyItems(t, next, origin, phase, content).1
    decreases |content|
  {
    hide Put, Lookup, FirstMatch, Emit;
    if content != [] {
      var (t1, next1, _) := ApplyItem(t, next, origin, phase, content[0]);
      ItemsAdvance(t1, next1, origin, phase, content[1..]);
    }
  }

  lemma OtherFrame(rho: Renaming, alone: State, whole: State, parses: Parses, p: Option<string>, mine: set<string>,
                   f: Frame)
    requires Similar(rho, alone, whole, p, mine) && f.parent != p && OwnUuids([f], p, mine)
    ensures Similar(rho, alone, MapFrame(whole, parses, f).0, p, mine)
  {
    hide ApplyItems, RenameTable, NamedTable, Increasing, StopSlots, StartBlock, DeltaBlock, Lookup;
    assert [f][0] == f;
    var w1 := MapFrame(whole, parses, f).0;
    if f.AssistantFrame? {
      var native := if f.messageId.Some? then f.messageId else f.uuid;
      if native.Some? {
        var o := Origin(f.parent, native.value);
        var t := TableOf(whole, o);
        ItemsAdvance(t, whole.next, o, FramePhase(t, f.content), f.content);
      }
    }
    assert whole.next <= w1.next;
    assert forall native: string :: TableOf(w1, Origin(p, native)) == TableOf(whole, Origin(p, native));
  }

  // ---- The theorem

  /** For any interleaving, what the whole run emits for a parent's frames is what
      those frames emit on their own, with fresh ids renamed one to one. */
  lemma {:induction false} ParentsDoNotInterfere(rho: Renaming, alone: State, whole: State, parses: Parses,
                                                 p: Option<string>, mine: set<string>, frames: seq<Frame>)
    returns (rho': Renaming)
    requires Similar(rho, alone, whole, p, mine) && OwnUuids(frames, p, mine)
    ensures rho <= rho' && Increasing(rho')
    ensures NamedOut(MapFrames(alone, parses, FramesOf(frames, p)).1, |rho'|)
    ensures OutputsOf(whole, parses, frames, p) == RenameOut(rho', MapFrames(alone, parses, FramesOf(frames, p)).1)
    decreases |frames|
  {
    hide MapFrame, Similar, RenameOut, NamedOut, OwnUuids;
    if frames == [] {
      rho' := rho;
      RenamedNothing(rho);
      NamedNothing(|rho|);
      SimilarIncreasing(rho, alone, whole, p, mine);
    } else {
      var f, rest := frames[0], frames[1..];
      OwnUuidsSplit(frames, p, mine);
      var w1 := MapFrame(whole, parses, f).0;
      if f.parent == p {
        var mid := OwnFrame(rho, alone, whole, parses, p, mine, f);
        var (a1, out1) := MapFrame(alone, parses, f);
        rho' := ParentsDoNotInterfere(mid, a1, w1, parses, p, mine, rest);
        var more := MapFrames(a1, parses, FramesOf(rest, p)).1;
        assert FramesOf(frames, p)[0] == f && FramesOf(frames, p)[1..] == FramesOf(rest, p);
        OutExtends(mid, rho', out1);
        RenameOutConcat(rho', out1, more);
        NamedConcat(out1, more, |rho'|);
      } else {
        OtherFrame(rho, alone, whole, parses, p, mine, f);
        rho' := ParentsDoNotInterfere(rho, alone, w1, parses, p, mine, rest);
        assert FramesOf(frames, p) == FramesOf(rest, p);
        assert [] + OutputsOf(w1, parses, rest, p) == OutputsOf(w1, parses, rest, p);
      }
    }
  }

  lemma SimilarIncreasing(rho: Renaming, alone: State, whole: State, p: Option<string>, mine: set<string>)
    requires Similar(rho, alone, whole, p, mine)
    ensures Increasing(rho)
  {
  }

  lemma OwnUuidsSplit(frames: seq<Frame>, p: Option<string>, mine: set<string>)
    requires frames != [] && OwnUuids(frames, p, mine)
    ensures OwnUuids([frames[0]], p, mine) && OwnUuids(frames[1..], p, mine)
  {
  }

  /** No snapshot uuid of parent `p` is also used by another parent. */
  predicate Unshared(frames: seq<Frame>, p: Option<string>) {
    forall i, j | 0 <= i < |frames| && 0 <= j < |frames| ::
      frames[i].AssistantFrame? && frames[j].AssistantFrame? && frames[i].parent == p && frames[j].parent != p ==>
        frames[i].uuid.None? || frames[i].uuid != frames[j].uuid
  }

  function UuidsOf(frames: seq<Frame>, p: Option<string>): set<string> {
    set i | 0 <= i < |frames| && frames[i].AssistantFrame? && frames[i].parent == p && frames[i].uuid.Some? ::
      frames[i].uuid.value
  }

  lemma EachParentAlone(parses: Parses, p: Option<string>, frames: seq<Frame>) returns (rho: Renaming)
    requires Unshared(frames, p)
    ensures Increasing(rho)
    ensures OutputsOf(EmptyState, parses, frames, p) ==
      RenameOut(rho, MapFrames(EmptyState, parses, FramesOf(frames, p)).1)
  {
    hide MapFrames, OutputsOf, FramesOf;
    var mine := UuidsOf(frames, p);
    assert OwnUuids(frames, p, mine);
    assert Similar([], EmptyState, EmptyState, p, mine);
    rho := ParentsDoNotInterfere([], EmptyState, EmptyState, parses, p, mine, frames);
  }

  /** With a shared uuid the second parent's snapshot is dropped. */
  lemma SharedUuidInterferes(parses: Parses, p: Option<string>, q: Option<string>, uuid: string, message: string,
                             v: Value)
    requires p != q && v.kind != OtherKind
    ensures var frame := AssistantFrame(p, Some(uuid), Some(message), [v]);
      var frames := [AssistantFrame(q, Some(uuid), Some(message), []), frame];
      && FramesOf(frames, p) == [frame] && OutputsOf(EmptyState, parses, frames, p) == []
      && |MapFrames(EmptyState, parses, [frame]).1| == 2
  {
    hide Put, Emit, ItemBlock, ItemIndex, FramePhase;
    var frame := AssistantFrame(p, Some(uuid), Some(message), [v]);
    var other := AssistantFrame(q, Some(uuid), Some(message), []);
    var frames := [other, frame];
    var one := [frame];
    assert one[1..] == [] && frames[1..] == one;
    assert FramesOf(one, p) == [frame] + FramesOf(one[1..], p);
    var s1 := MapFrame(EmptyState, parses, other).0;
    assert s1.snapshots == {uuid};
    var s2 := MapFrame(s1, parses, frame).0;
    assert OutputsOf(s2, parses, one[1..], p) == [];
    assert OutputsOf(s1, parses, one, p) == [] + OutputsOf(s2, parses, one[1..], p);
    OneItem(parses, frame, v);
  }

  lemma OneItem(parses: Parses, frame: Frame, v: Value)
    requires v.kind != OtherKind && frame.AssistantFrame? && frame.messageId.Some? && frame.content == [v]
    ensures |MapFrames(EmptyState, parses, [frame]).1| == 2
  {
    hide Put, Emit, ItemBlock, ItemIndex, FramePhase, ApplyItem;
    var (s1, out) := MapFrame(EmptyState, parses, frame);
    var o := Origin(frame.parent, frame.messageId.value);
    var phase := FramePhase([], frame.content);
    var (t, next, items) := ApplyItem([], 0, o, phase, v);
    assert |items| == 2 by { ItemEmits([], 0, o, phase, v); }
    assert frame.content[1..] == [];
    assert ApplyItems(t, next, o, phase, frame.content[1..]).2 == [];
    assert out == items + [];
    assert [frame][1..] == [] && MapFrames(s1, parses, [frame][1..]).1 == [];
  }

  lemma ItemEmits(t: Table, next: nat, origin: Origin, phase: Phase, v: Value)
    requires v.kind != OtherKind
    ensures |ApplyItem(t, next, origin, phase, v).2| == 2
  {
    hide Put, Emit, ItemBlock, ItemIndex;
  }
}
