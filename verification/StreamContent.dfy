/** What streamed events and snapshot items do to the blocks of a message, told by
the events themselves: which text a block has heard, when it opens and closes, and
where a listed item goes. */
module StreamContent {
  import opened JsonValue
  import opened Sequences
  import opened StreamMapper
  import opened StreamRevisions

  // ---- What was said to a block

  datatype Channel = TextChannel | ThinkingChannel | InputChannel

  function Heard(ch: Channel, d: Delta): string {
    match (ch, d)
    case (TextChannel, TextDelta(Some(text))) => text
    case (ThinkingChannel, ThinkingDelta(Some(thinking))) => thinking
    case (InputChannel, InputDelta(Some(json))) => json
    case _ => ""
  }

  /** The message a parent streams after a frame, given the one before it. */
  function NowActive(active: Option<string>, f: Frame, parent: Option<string>): Option<string> {
    match f
    case StreamFrame(p, MessageStart(Some(id))) => if p == parent then Some(id) else active
    case StreamFrame(p, MessageStop) => if p == parent then None else active
    case _ => active
  }

  function ActiveAfter(active: Option<string>, frames: seq<Frame>, parent: Option<string>): Option<string>
    decreases |frames|
  {
    if frames == [] then active else ActiveAfter(NowActive(active, frames[0], parent), frames[1..], parent)
  }

  /** A delta for the block at `i` of message `o`, while that message is streamed. */
  predicate Addresses(f: Frame, o: Origin, i: U32, active: Option<string>) {
    f.StreamFrame? && f.parent == o.parent && active == Some(o.native) && f.event.BlockDelta? && f.event.at == Some(i)
  }

  /** The deltas of one channel for a block, laid end to end. */
  function Said(ch: Channel, o: Origin, i: U32, active: Option<string>, frames: seq<Frame>): string
    decreases |frames|
  {
    if frames == [] then ""
    else
      (if Addresses(frames[0], o, i, active) then Heard(ch, frames[0].event.delta) else "")
      + Said(ch, o, i, NowActive(active, frames[0], o.parent), frames[1..])
  }

  /** The frame puts no new block at `i` of message `o` and is no snapshot of it. */
  predicate LeavesBlock(f: Frame, o: Origin, i: U32, active: Option<string>) {
    match f
    case StreamFrame(parent, BlockStart(Some(start), v)) =>
      parent != o.parent || active != Some(o.native) || start != i || v.kind == OtherKind
    case StreamFrame(_, _) => true
    case AssistantFrame(parent, uuid, messageId, _) =>
      parent != o.parent || (if messageId.Some? then messageId else uuid) != Some(o.native)
  }

  predicate Undisturbed(o: Origin, i: U32, active: Option<string>, frames: seq<Frame>)
    decreases |frames|
  {
    frames == [] ||
    (LeavesBlock(frames[0], o, i, active) && Undisturbed(o, i, NowActive(active, frames[0], o.parent), frames[1..]))
  }

  // ---- Blocks hear exactly what was said to them

  predicate Knows(s: State, parent: Option<string>, active: Option<string>) {
    if parent in s.active then active == Some(s.active[parent]) else active == None
  }

  /** `b1` is `b` with these texts added, each to a block of its own kind only. */
  predicate Grew(b: Block, b1: Block, text: string, thinking: string, json: string) {
    && b1.id == b.id && b1.value.kind == b.value.kind && b1.value.name == b.value.name && b1.value.id == b.value.id
    && b1.value.text.GetOr("") == b.value.text.GetOr("") + (if b.value.kind == TextKind then text else "")
    && b1.value.thinking.GetOr("") == b.value.thinking.GetOr("") + (if b.value.kind ==
       ThinkingKind then thinking else "")
    && b1.inputJson == b.inputJson + (if b.value.kind == ToolKind then json else "")
  }

  lemma GrewNothing(b: Block)
    ensures Grew(b, b, "", "", "")
  {
  }

  lemma GrewTwice(b: Block, b1: Block, b2: Block, t1: string, h1: string, j1: string, t2: string, h2: string,
                  j2: string)
    requires Grew(b, b1, t1, h1, j1) && Grew(b1, b2, t2, h2, j2)
    ensures Grew(b, b2, t1 + t2, h1 + h2, j1 + j2)
  {
  }

  /** A slot survives a change of another one. */
  lemma OtherSlot(t: Table, i: U32, j: U32, b: Block)
    requires Ascending(t) && i != j
    ensures Lookup(Put(t, j, b), i) == Lookup(t, i) && Ascending(Put(t, j, b))
  {
    hide Put, Lookup, Ascending;
    PutMembers(t, j, b);
    LookupMembers(t, i);
    LookupMembers(Put(t, j, b), i);
    var before, after := Lookup(t, i), Lookup(Put(t, j, b), i);
    if before.Some? {
      assert Slot(i, before.value) in t;
    }
    if after.Some? {
      assert Slot(i, after.value) in Put(t, j, b);
    }
  }

  lemma OwnSlot(t: Table, i: U32, b: Block)
    requires Ascending(t)
    ensures Lookup(Put(t, i, b), i) == Some(b) && Ascending(Put(t, i, b))
  {
    hide Put, Lookup, Ascending;
    PutMembers(t, i, b);
    LookupMembers(Put(t, i, b), i);
  }

  /** A stop closes the blocks it names and leaves their text and streamed input alone. */
  lemma {:induction false} StopKeepsText(t: Table, parses: Parses, o: Origin, event: Event, i: U32)
    requires Ascending(t)
    ensures var t1 := StopSlots(t, parses, o, event).0;
      && Ascending(t1) && |t1| == |t| && (forall k | 0 <= k < |t| :: t1[k].index == t[k].index)
      && (Lookup(t1, i).Some? <==> Lookup(t, i).Some?)
      && (Lookup(t, i).Some? ==> Grew(Lookup(t, i).value, Lookup(t1, i).value, "", "", ""))
  {
    hide Emit;
    if t != [] {
      StopKeepsText(t[1..], parses, o, event, i);
      StopGrowsNothing(t[0].block, parses, o, t[0].index);
      GrewNothing(t[0].block);
    }
  }

  lemma StopGrowsNothing(b: Block, parses: Parses, o: Origin, index: U32)
    ensures Grew(b, StopBlock(b, parses, o, index).0, "", "", "")
  {
  }

  lemma DeltaGrows(t: Table, o: Origin, i: U32, b: Block, d: Delta)
    requires Ascending(t) && Lookup(t, i) == Some(b)
    ensures var t1 := DeltaBlock(t, o, i, b, d).0;
      && Ascending(t1) && Lookup(t1, i).Some?
      && Grew(b, Lookup(t1, i).value, Heard(TextChannel, d), Heard(ThinkingChannel, d), Heard(InputChannel, d))
  {
    hide Put, Lookup;
    var text := DeltaText(b.value.kind, d);
    if text.Some? {
      var b1 := Emit(Grown(b, text.value), o, i, if b.revision == 0 then Open else Append, text).0;
      OwnSlot(t, i, b1);
    }
  }

  lemma EventGrows(t: Table, next: nat, parses: Parses, o: Origin, event: Event, i: U32, b: Block)
    requires Ascending(t) && Lookup(t, i) == Some(b)
    requires event.BlockStart? && event.start == Some(i) ==> event.value.kind == OtherKind
    ensures var t1 := ApplyEvent(t, next, parses, o, event).0;
      var heard := event.BlockDelta? && event.at == Some(i);
      && Ascending(t1) && Lookup(t1, i).Some?
      && if heard then
           Grew(b, Lookup(t1, i).value, Heard(TextChannel, event.delta), Heard(ThinkingChannel, event.delta),
                Heard(InputChannel, event.delta))
         else Grew(b, Lookup(t1, i).value, "", "", "")
  {
    hide Put, Lookup, Emit, StopSlots, DeltaBlock, Ascending;
    GrewNothing(b);
    match event
    case BlockStart(start, v) =>
      if start.Some? && v.kind != OtherKind {
        var b0 := NewBlock(next, v);
        OtherSlot(t, i, start.value, b0);
        OtherSlot(t, i, start.value, Emit(b0, o, start.value, Open, None).0);
      }
    case BlockDelta(at, d) =>
      if at == Some(i) {
        DeltaGrows(t, o, i, b, d);
      } else if at.Some? && Lookup(t, at.value).Some? {
        OtherDelta(t, o, i, at.value, Lookup(t, at.value).value, d);
      }
    case BlockStop(_) => StopKeepsText(t, parses, o, event, i);
    case MessageStop => StopKeepsText(t, parses, o, event, i);
    case _ =>
  }

  lemma OtherDelta(t: Table, o: Origin, i: U32, j: U32, b: Block, d: Delta)
    requires Ascending(t) && i != j
    ensures var t1 := DeltaBlock(t, o, j, b, d).0; Ascending(t1) && Lookup(t1, i) == Lookup(t, i)
  {
    hide Put, Lookup, Ascending;
    var text := DeltaText(b.value.kind, d);
    if text.Some? {
      OtherSlot(t, i, j, Emit(Grown(b, text.value), o, j, if b.revision == 0 then Open else Append, text).0);
    }
  }

  lemma FrameGrows(s: State, parses: Parses, f: Frame, o: Origin, i: U32, b: Block, active: Option<string>)
    requires Ascending(TableOf(s, o)) && Lookup(TableOf(s, o), i) == Some(b)
    requires Knows(s, o.parent, active) && LeavesBlock(f, o, i, active)
    ensures var s1 := MapFrame(s, parses, f).0;
      var addressed := Addresses(f, o, i, active);
      && Ascending(TableOf(s1, o)) && Lookup(TableOf(s1, o), i).Some?
      && Knows(s1, o.parent, NowActive(active, f, o.parent))
      && if addressed then
           Grew(b, Lookup(TableOf(s1, o), i).value, Heard(TextChannel, f.event.delta),
                Heard(ThinkingChannel, f.event.delta), Heard(InputChannel, f.event.delta))
         else Grew(b, Lookup(TableOf(s1, o), i).value, "", "", "")
  {
    hide ApplyEvent, ApplyItems, Lookup, FramePhase, Ascending, Grew;
    GrewNothing(b);
    if f.StreamFrame? && f.parent == o.parent && active == Some(o.native) {
      EventGrows(TableOf(s, o), s.next, parses, o, f.event, i, b);
    }
  }

  /** Over any frames that leave it in place, a block has heard exactly the deltas of
      its own kind that name it while its message is streamed, in order. */
  lemma {:induction false} BlockHears(s: State, parses: Parses, frames: seq<Frame>, o: Origin, i: U32, b: Block,
                                      active: Option<string>)
    requires Ascending(TableOf(s, o)) && Lookup(TableOf(s, o), i) == Some(b)
    requires Knows(s, o.parent, active) && Undisturbed(o, i, active, frames)
    ensures var s1 := MapFrames(s, parses, frames).0;
      && Lookup(TableOf(s1, o), i).Some?
      && Grew(b, Lookup(TableOf(s1, o), i).value, Said(TextChannel, o, i, active, frames),
              Said(ThinkingChannel, o, i, active, frames), Said(InputChannel, o, i, active, frames))
    decreases |frames|
  {
    hide MapFrame, Lookup, Ascending, Grew, Knows, Heard, LeavesBlock;
    if frames == [] {
      GrewNothing(b);
    } else {
      var f, rest := frames[0], frames[1..];
      var s1, active1 := MapFrame(s, parses, f).0, NowActive(active, f, o.parent);
      FrameGrows(s, parses, f, o, i, b, active);
      var b1 := Lookup(TableOf(s1, o), i).value;
      BlockHears(s1, parses, rest, o, i, b1, active1);
      var b2 := Lookup(TableOf(MapFrames(s1, parses, rest).0, o), i).value;
      var a := Addresses(f, o, i, active);
      GrewTwice(b, b1, b2,
                if a then Heard(TextChannel, f.event.delta) else "",
                if a then Heard(ThinkingChannel, f.event.delta) else "",
                if a then Heard(InputChannel, f.event.delta) else "",
                Said(TextChannel, o, i, active1, rest), Said(ThinkingChannel, o, i, active1, rest),
                Said(InputChannel, o, i, active1, rest));
    }
  }

  // ---- From the first frame to the consumer

  lemma {:induction false} MapFramesConcat(s: State, parses: Parses, a: seq<Frame>, b: seq<Frame>)
    ensures var (s1, out1) := MapFrames(s, parses, a);
      var (s2, out2) := MapFrames(s1, parses, b);
      MapFrames(s, parses, a + b) == (s2, out1 + out2)
    decreases |a|
  {
    hide MapFrame;
    if a == [] {
      assert a + b == b && [] + MapFrames(s, parses, b).1 == MapFrames(s, parses, b).1;
    } else {
      assert (a + b)[0] == a[0] && (a + b)[1..] == a[1..] + b;
      var (s1, out) := MapFrame(s, parses, a[0]);
      MapFramesConcat(s1, parses, a[1..], b);
      var more := MapFrames(s1, parses, a[1..]);
      AppendAssociates(out, more.1, MapFrames(more.0, parses, b).1);
    }
  }

  lemma FrameKnows(s: State, parses: Parses, f: Frame, parent: Option<string>, active: Option<string>)
    requires Knows(s, parent, active)
    ensures Knows(MapFrame(s, parses, f).0, parent, NowActive(active, f, parent))
  {
    hide ApplyEvent, ApplyItems, FramePhase;
  }

  lemma {:induction false} FramesKnow(s: State, parses: Parses, frames: seq<Frame>, parent: Option<string>,
                                      active: Option<string>)
    requires Knows(s, parent, active)
    ensures Knows(MapFrames(s, parses, frames).0, parent, ActiveAfter(active, frames, parent))
    decreases |frames|
  {
    hide MapFrame, Knows;
    if frames != [] {
      FrameKnows(s, parses, frames[0], parent, active);
      FramesKnow(MapFrame(s, parses, frames[0]).0, parses, frames[1..], parent, NowActive(active, frames[0], parent));
    }
  }

  /** A started block holds the value of its start and nothing else. */
  lemma StartStores(s: State, parses: Parses, o: Origin, i: U32, v: Value)
    requires Knows(s, o.parent, Some(o.native)) && Ascending(TableOf(s, o)) && v.kind != OtherKind
    ensures var s1 := MapFrame(s, parses, StreamFrame(o.parent, BlockStart(Some(i), v))).0;
      && Ascending(TableOf(s1, o)) && Lookup(TableOf(s1, o), i).Some?
      && var b := Lookup(TableOf(s1, o), i).value;
         b.value == v && b.inputJson == "" && !b.closed && !b.reconciled && b.phase == Final
  {
    hide Put, Lookup, Ascending;
    var b := NewBlock(s.next, v);
    OwnSlot(TableOf(s, o), i, b);
    OwnSlot(TableOf(s, o), i, Emit(b, o, i, Open, None).0);
  }

  /** The streamed text reaches the consumer: after a start at `i` of a streamed message and
      any frames that leave the block in place, folding the node's mutations gives the
      start's text followed by every delta of the block's kind that named it, in order. */
  lemma ConsumerHears(parses: Parses, before: seq<Frame>, after: seq<Frame>, o: Origin, i: U32, v: Value)
    returns (node: Id)
    requires ActiveAfter(None, before, o.parent) == Some(o.native) && v.kind != OtherKind
    requires Undisturbed(o, i, Some(o.native), after)
    requires FreshFrames(EmptyState, parses, {}, before + ([StreamFrame(o.parent, BlockStart(Some(i), v))] + after))
    ensures var frames := before + ([StreamFrame(o.parent, BlockStart(Some(i), v))] + after);
      var ms := Project(MapFrames(EmptyState, parses, frames).1, node);
      && (v.kind == TextKind ==> FoldText(ms) == v.text.GetOr("") + Said(TextChannel, o, i, Some(o.native), after))
      && (v.kind == ThinkingKind ==>
            FoldText(ms) == v.thinking.GetOr("") + Said(ThinkingChannel, o, i, Some(o.native), after))
      && (v.kind == ToolKind ==>
            node == Tool(ToolNative(v)) && FoldInput(ms) == Said(InputChannel, o, i, Some(o.native), after))
  {
    hide FreshFrames, MapFrames, MapFrame, Project, FoldText, FoldInput, Lookup, Ascending, Said, Undisturbed,
      ActiveAfter,
         Inv;
    var start := StreamFrame(o.parent, BlockStart(Some(i), v));
    var frames := before + ([start] + after);
    var s0 := MapFrames(EmptyState, parses, before).0;
    var s1 := MapFrame(s0, parses, start).0;
    var s2 := MapFrames(s1, parses, after).0;
    FramesKnow(EmptyState, parses, before, o.parent, None);
    NothingAscends(o);
    AscendingAlways(EmptyState, parses, before, o);
    StartStores(s0, parses, o, i, v);
    if v.kind == ToolKind {
      StartNames(s0, parses, o, i, v);
    }
    FrameKnows(s0, parses, start, o.parent, Some(o.native));
    BlockHears(s1, parses, after, o, i, Lookup(TableOf(s1, o), i).value, Some(o.native));
    MapFramesConcat(EmptyState, parses, before, [start] + after);
    FirstFrame(s0, parses, start, after);
    var b := Lookup(TableOf(s2, o), i).value;
    node := b.id;
    RevisionsAndFolds(parses, frames);
    InTable(s2, o, i, b, parses, before + ([start] + after));
    assert Follows(Project(MapFrames(EmptyState, parses, frames).1, node), b);
    assert "" + Said(InputChannel, o, i, Some(o.native), after) == Said(InputChannel, o, i, Some(o.native), after);
  }

  lemma NothingAscends(o: Origin)
    ensures Ascending(TableOf(EmptyState, o))
  {
  }

  lemma FirstFrame(s: State, parses: Parses, f: Frame, rest: seq<Frame>)
    ensures var (s1, out) := MapFrame(s, parses, f);
      MapFrames(s, parses, [f] + rest) == (MapFrames(s1, parses, rest).0, out + MapFrames(s1, parses, rest).1)
  {
    hide MapFrame;
    assert ([f] + rest)[1..] == rest;
  }

  lemma StartNames(s: State, parses: Parses, o: Origin, i: U32, v: Value)
    requires Knows(s, o.parent, Some(o.native)) && Ascending(TableOf(s, o)) && v.kind == ToolKind
    ensures var s1 := MapFrame(s, parses, StreamFrame(o.parent, BlockStart(Some(i), v))).0;
      Lookup(TableOf(s1, o), i).Some? && Lookup(TableOf(s1, o), i).value.id == Tool(ToolNative(v))
  {
    hide Put, Lookup, Ascending;
    OwnSlot(TableOf(s, o), i, Emit(NewBlock(s.next, v), o, i, Open, None).0);
  }

  lemma InTable(s: State, o: Origin, i: U32, b: Block, parses: Parses, frames: seq<Frame>)
    requires s == MapFrames(EmptyState, parses, frames).0 && Lookup(TableOf(s, o), i) == Some(b)
    ensures o in s.tables && Slot(i, b) in s.tables[o]
  {
    hide MapFrames;
    LookedUp(TableOf(s, o), i, b);
  }

  lemma {:induction false} LookedUp(t: Table, i: U32, b: Block)
    requires Lookup(t, i) == Some(b)
    ensures Slot(i, b) in t
  {
    if t[0].index != i {
      LookedUp(t[1..], i, b);
    }
  }

  // ---- Tables stay in index order

  lemma {:induction false} ItemsAscend(t: Table, next: nat, o: Origin, phase: Phase, content: seq<Value>)
    requires Ascending(t)
    ensures Ascending(ApplyItems(t, next, o, phase, content).0)
    decreases |content|
  {
    hide Put, Lookup, FirstMatch, Emit, Ascending;
    if content != [] {
      var v := content[0];
      var (t1, next1, _) := ApplyItem(t, next, o, phase, v);
      if v.kind != OtherKind {
        var index, b := ItemIndex(t, v), Reconciled(ItemBlock(t, next, v), v, phase);
        var b1 := Emit(b, o, index, if b.revision == 0 then Open else Replace, None).0;
        PutMembers(t, index, Emit(b1, o, index, Close, None).0);
      }
      ItemsAscend(t1, next1, o, phase, content[1..]);
    }
  }

  lemma EventAscends(t: Table, next: nat, parses: Parses, o: Origin, event: Event)
    requires Ascending(t)
    ensures Ascending(ApplyEvent(t, next, parses, o, event).0)
  {
    hide Put, Lookup, Emit, StopSlots, Ascending;
    match event
    case BlockStart(start, v) =>
      if start.Some? && v.kind != OtherKind {
        var b := NewBlock(next, v);
        PutMembers(t, start.value, b);
        PutMembers(t, start.value, Emit(b, o, start.value, Open, None).0);
      }
    case BlockDelta(at, d) =>
      if at.Some? && Lookup(t, at.value).Some? {
        var b := Lookup(t, at.value).value;
        var text := DeltaText(b.value.kind, d);
        if text.Some? {
          PutMembers(t, at.value, Emit(Grown(b, text.value), o, at.value, if b.revision ==
            0 then Open else Append, text).0);
        }
      }
    case BlockStop(_) => StopKeepsText(t, parses, o, event, 0);
    case MessageStop => StopKeepsText(t, parses, o, event, 0);
    case _ =>
  }

  lemma FrameAscends(s: State, parses: Parses, f: Frame, o: Origin)
    requires Ascending(TableOf(s, o))
    ensures Ascending(TableOf(MapFrame(s, parses, f).0, o))
  {
    hide ApplyEvent, ApplyItems, FramePhase, Ascending;
    var t := TableOf(s, o);
    match f
    case StreamFrame(_, event) => EventAscends(t, s.next, parses, o, event);
    case AssistantFrame(_, _, _, content) => ItemsAscend(t, s.next, o, FramePhase(t, content), content);
  }

  /** In every state the blocks of every message are kept by ascending index. */
  lemma {:induction false} AscendingAlways(s: State, parses: Parses, frames: seq<Frame>, o: Origin)
    requires Ascending(TableOf(s, o))
    ensures Ascending(TableOf(MapFrames(s, parses, frames).0, o))
    decreases |frames|
  {
    hide MapFrame, Ascending;
    if frames != [] {
      FrameAscends(s, parses, frames[0], o);
      AscendingAlways(MapFrame(s, parses, frames[0]).0, parses, frames[1..], o);
    }
  }
}
