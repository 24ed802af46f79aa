/** The rules of the stream mapper, one by one, told by events, items and blocks:
what each emits, and which block a listed item is bound to. */
module StreamRules {
  import opened JsonValue
  import opened Sequences
  import opened StreamMapper
  import opened StreamRevisions
  import opened StreamContent

  // ---- Stream events

  /** What a delta says to a block of this kind. */
  function HeardBy(kind: Kind, d: Delta): string {
    match kind
    case TextKind => Heard(TextChannel, d)
    case ThinkingKind => Heard(ThinkingChannel, d)
    case ToolKind => Heard(InputChannel, d)
    case _ => ""
  }

  predicate Carries(p: Payload, kind: Kind, text: string) {
    match kind
    case TextKind => p.Message? && p.text == text
    case ThinkingKind => p.Thought? && p.thought == Some(text)
    case _ => p.ToolCall? && p.inputDelta == Some(text)
  }

  /** A thought says which part of its message it is. */
  predicate AtPart(p: Payload, index: U32) { p.Thought? ==> p.partIndex == index }

  /** A delta that says something to its block emits exactly that, as the opening or as an
      append; one that says nothing to it emits nothing and changes nothing. */
  lemma DeltaEmitsExactly(s: State, parses: Parses, o: Origin, i: U32, b: Block, d: Delta)
    requires Knows(s, o.parent, Some(o.native)) && Lookup(TableOf(s, o), i) == Some(b)
    ensures var (s1, out) := MapFrame(s, parses, StreamFrame(o.parent, BlockDelta(Some(i), d)));
      var heard := HeardBy(b.value.kind, d);
      if heard == "" then out == [] && TableOf(s1, o) == TableOf(s, o)
      else
        && |out| == 1 && out[0].node == b.id && out[0].op == (if b.revision == 0 then Open else Append)
        && Carries(out[0].payload, b.value.kind, heard) && AtPart(out[0].payload, i)
  {
    hide Put, Lookup;
  }

  /** A delta for no block, or any event but a start while no message is streamed, does nothing. */
  lemma NothingToDo(s: State, parses: Parses, o: Origin, event: Event)
    ensures Knows(s, o.parent, None) && !event.MessageStart? ==>
      MapFrame(s, parses, StreamFrame(o.parent, event)) == (s, [])
    ensures Knows(s, o.parent, Some(o.native)) && event.BlockDelta? && (event.at.Some? ==>
      Lookup(TableOf(s, o), event.at.value).None?) ==>
      var (s1, out) := MapFrame(s, parses, StreamFrame(o.parent, event)); out == [] && TableOf(s1, o) == TableOf(s, o)
  {
    hide Put, Lookup;
  }

  /** A start is silent exactly for a text or thought with nothing in it yet; any other
      opens its node with its whole content. */
  lemma StartEmitsExactly(s: State, parses: Parses, o: Origin, i: U32, v: Value)
    requires Knows(s, o.parent, Some(o.native)) && v.kind != OtherKind
    ensures var out := MapFrame(s, parses, StreamFrame(o.parent, BlockStart(Some(i), v))).1;
      && (out == [] <==>
            && (v.kind == TextKind || v.kind == ThinkingKind)
            && (v.text == None || v.text == Some("")) && (v.thinking == None || v.thinking == Some("")))
      && (out != [] ==>
            && |out| == 1 && out[0].op == Open && out[0].revision == 1 && !out[0].complete
            && TextOf(out[0].payload) == ValueText(v) && AtPart(out[0].payload, i))
  {
    hide Put;
  }

  predicate Names(event: Event, index: U32) { event.MessageStop? || event == BlockStop(Some(index)) }

  /** The block after a stop that names it: closed, and a tool that streamed input holds its
      parse, or none when it does not parse. */
  predicate ClosedAs(b: Block, b1: Block, parses: Parses) {
    && b1.closed && b1.id == b.id
    && (if b.value.kind == ToolKind && b.inputJson != "" then
          b1.value == b.value.(input := if b.inputJson in parses then Some(parses[b.inputJson]) else None)
        else b1.value == b.value)
  }

  /** Ends with the closing of this node, after its opening if it had none. */
  predicate ClosesAt(out: seq<Mutation>, slot: Slot, k: nat) {
    var b := slot.block;
    && k < |out| && out[k].node == b.id && out[k].op == Close && out[k].complete && AtPart(out[k].payload, slot.index)
    && (b.revision == 0 ==> k > 0 && out[k - 1].node == b.id && out[k - 1].op == Open)
  }

  ghost predicate ClosesNode(out: seq<Mutation>, slot: Slot) { exists k: nat :: ClosesAt(out, slot, k) }

  /** A stop closes exactly the open blocks it names, tells the consumer of each, and
      leaves the others as they are. */
  lemma {:induction false} StopExactly(t: Table, parses: Parses, o: Origin, event: Event)
    ensures var (t1, out) := StopSlots(t, parses, o, event);
      |t1| == |t| && forall k | 0 <= k < |t| ::
        && t1[k].index == t[k].index
        && if Names(event, t[k].index) && !t[k].block.closed then
             ClosedAs(t[k].block, t1[k].block, parses) && ClosesNode(out, t[k])
           else t1[k] == t[k]
  {
    hide StopBlock, ClosedAs, ClosesNode;
    if t != [] {
      var rest := t[1..];
      StopExactly(rest, parses, o, event);
      var (t1, out) := StopSlots(t, parses, o, event);
      var (tail, more) := StopSlots(rest, parses, o, event);
      var first := if Names(event, t[0].index) &&
        !t[0].block.closed then StopBlock(t[0].block, parses, o, t[0].index).1 else [];
      StopBlockExactly(t[0].block, parses, o, t[0].index);
      assert out == first + more;
      forall k | 0 <= k < |t|
        ensures t1[k].index == t[k].index
        ensures if Names(event, t[k].index) && !t[k].block.closed then
                  ClosedAs(t[k].block, t1[k].block, parses) && ClosesNode(out, t[k])
                else t1[k] == t[k]
      {
        if k > 0 {
          assert t[k] == rest[k - 1] && t1[k] == tail[k - 1];
          if ClosesNode(more, t[k]) {
            ClosesLater(first, more, t[k]);
          }
        } else if first != [] {
          ClosesFirst(first, more, t[0]);
        }
      }
    }
  }

  lemma StopBlockExactly(b: Block, parses: Parses, o: Origin, index: U32)
    ensures var (b1, out) := StopBlock(b, parses, o, index);
      out != [] && ClosedAs(b, b1, parses) && ClosesNode(out, Slot(index, b))
  {
    var (b1, out) := StopBlock(b, parses, o, index);
    assert ClosesAt(out, Slot(index, b), |out| - 1);
  }

  lemma ClosesFirst(a: seq<Mutation>, b: seq<Mutation>, slot: Slot)
    requires ClosesNode(a, slot)
    ensures ClosesNode(a + b, slot)
  {
    var k: nat :| ClosesAt(a, slot, k);
    assert ClosesAt(a + b, slot, k);
  }

  lemma ClosesLater(a: seq<Mutation>, b: seq<Mutation>, slot: Slot)
    requires ClosesNode(b, slot)
    ensures ClosesNode(a + b, slot)
  {
    var k: nat :| ClosesAt(b, slot, k);
    assert ClosesAt(a + b, slot, |a| + k);
  }

  /** A stop event stops the blocks of the streamed message, and only the stop of the message ends it. */
  lemma StopsOwnMessage(s: State, parses: Parses, o: Origin, event: Event)
    requires Knows(s, o.parent, Some(o.native)) && (event.BlockStop? || event.MessageStop?)
    ensures var (s1, out) := MapFrame(s, parses, StreamFrame(o.parent, event));
      && (TableOf(s1, o), out) == StopSlots(TableOf(s, o), parses, o, event)
      && (o.parent in s1.active <==> event.BlockStop?)
  {
    hide StopSlots;
  }

  // ---- Snapshots

  /** A snapshot seen before is ignored, whatever it now lists. */
  lemma RepeatedSnapshotIgnored(s: State, parses: Parses, first: Frame, again: Frame)
    requires first.AssistantFrame? && again.AssistantFrame? && first.uuid.Some? && again.uuid == first.uuid
    ensures var s1 := MapFrame(s, parses, first).0; MapFrame(s1, parses, again) == (s1, [])
  {
    hide ApplyItems, FramePhase;
  }

  /** Every message a snapshot emits is commentary if the snapshot lists a tool or its
      message already has one, and final otherwise. */
  lemma PhaseExactly(s: State, parses: Parses, f: Frame, o: Origin)
    requires f.AssistantFrame? && f.parent == o.parent
    requires (if f.messageId.Some? then f.messageId else f.uuid) == Some(o.native)
    ensures var tool := || (exists i :: 0 <= i < |f.content| && f.content[i].kind == ToolKind)
                        || (exists k :: 0 <= k < |TableOf(s, o)| && TableOf(s, o)[k].block.value.kind == ToolKind);
      forall m | m in MapFrame(s, parses, f).1 && m.payload.Message? ::
        m.payload.phase == if tool then Commentary else Final
  {
    hide ApplyItems;
    ItemsPhase(TableOf(s, o), s.next, o, FramePhase(TableOf(s, o), f.content), f.content);
  }

  lemma {:induction false} ItemsPhase(t: Table, next: nat, o: Origin, phase: Phase, content: seq<Value>)
    ensures forall m | m in ApplyItems(t, next, o, phase, content).2 && m.payload.Message? :: m.payload.phase == phase
    decreases |content|
  {
    hide Put, ItemBlock, ItemIndex, ItemNext;
    if content != [] {
      var (t1, next1, out) := ApplyItem(t, next, o, phase, content[0]);
      assert forall m | m in out && m.payload.Message? :: m.payload.phase == phase;
      ItemsPhase(t1, next1, o, phase, content[1..]);
    }
  }

  /** The block can be this item: the same tool, or the same kind and not listed before. */
  predicate CanBe(b: Block, v: Value) {
    b.value.kind == v.kind && (v.kind == ToolKind ==> b.value.id == v.id) && (v.kind != ToolKind ==> !b.reconciled)
  }

  lemma {:induction false} MatchesExactly(t: Table, v: Value, k: nat)
    requires k <= |t| && forall j | 0 <= j < k :: !CanBe(t[j].block, v)
    ensures k == |t| ==> FirstMatch(t, v) == None
    ensures k < |t| && CanBe(t[k].block, v) ==> FirstMatch(t, v) == Some(t[k].index)
  {
    if k > 0 {
      assert forall j | 0 <= j < k - 1 :: t[1..][j] == t[j + 1];
      MatchesExactly(t[1..], v, k - 1);
    }
  }

  /** What a listed item tells the consumer: the opening or a replacement, then the closing. */
  predicate TellsItem(out: seq<Mutation>, index: U32, b: Block, v: Value, phase: Phase) {
    && |out| == 2 && out[0].node == b.id && out[1].node == b.id
    && out[0].op == (if b.revision == 0 then Open else Replace) && out[1].op == Close
    && out[0].revision == b.revision + 1 && out[1].revision == b.revision + 2 && out[0].complete && out[1].complete
    && forall k | 0 <= k < 2 ::
      && TextOf(out[k].payload) == ValueText(v) && AtPart(out[k].payload, index)
      && Shows(out[k].payload, b.(value := v, closed := true, phase := phase))
  }

  /** An item goes to the first block it can be, which keeps its node. */
  lemma ItemTakesFirst(t: Table, next: nat, o: Origin, phase: Phase, v: Value, k: nat)
    requires Ascending(t) && v.kind != OtherKind && k < |t| && CanBe(t[k].block, v)
    requires forall j | 0 <= j < k :: !CanBe(t[j].block, v)
    ensures var (t1, next1, out) := ApplyItem(t, next, o, phase, v);
      && next1 == next && TellsItem(out, t[k].index, t[k].block, v, phase)
      && t1 == t[k := Slot(t[k].index, t[k].block.(value := v, closed := true, reconciled := true, phase := phase,
                                                   revision := t[k].block.revision + 2))]
  {
    hide Put, Lookup, FirstMatch, Ascending;
    MatchesExactly(t, v, k);
    SlotReplaced(t, k, t[k].block.(value := v, closed := true, reconciled := true, phase := phase,
                                   revision := t[k].block.revision + 2));
  }

  lemma {:induction false} SlotReplaced(t: Table, k: nat, b: Block)
    requires Ascending(t) && k < |t|
    ensures Lookup(t, t[k].index) == Some(t[k].block) && Put(t, t[k].index, b) == t[k := Slot(t[k].index, b)]
  {
    if k > 0 {
      var rest := t[1..];
      assert rest[k - 1] == t[k];
      SlotReplaced(rest, k - 1, b);
      assert t[k := Slot(t[k].index, b)] == [t[0]] + rest[k - 1 := Slot(t[k].index, b)];
    } else {
      assert t[0 := Slot(t[0].index, b)] == [Slot(t[0].index, b)] + t[1..];
    }
  }

  /** An item no block can be is a new block after the last one, under the tool's node or a fresh one. */
  lemma ItemAppends(t: Table, next: nat, o: Origin, phase: Phase, v: Value)
    requires Ascending(t) && v.kind != OtherKind && forall j | 0 <= j < |t| :: !CanBe(t[j].block, v)
    requires t != [] ==> t[|t| - 1].index < 0xFFFF_FFFF
    ensures var (t1, next1, out) := ApplyItem(t, next, o, phase, v);
      var index := if t == [] then 0 else t[|t| - 1].index + 1;
      var b := Block(if v.kind ==
        ToolKind then Tool(if v.id.Str? then v.id.s else "") else Fresh(next), 0, v, "", false, false, Final);
      && TellsItem(out, index, b, v, phase) && next1 == (if v.kind == ToolKind then next else next + 1)
      && t1 == t + [Slot(index, b.(closed := true, reconciled := true, phase := phase, revision := 2))]
  {
    hide Put, Lookup, FirstMatch;
    MatchesExactly(t, v, |t|);
    var b := NewBlock(next, v);
    AppendedSlot(t, ItemIndex(t, v), b.(closed := true, reconciled := true, phase := phase, revision := 2));
  }

  lemma {:induction false} AppendedSlot(t: Table, index: U32, b: Block)
    requires forall j | 0 <= j < |t| :: t[j].index < index
    ensures Lookup(t, index) == None && Put(t, index, b) == t + [Slot(index, b)]
  {
    if t != [] {
      AppendedSlot(t[1..], index, b);
      assert t + [Slot(index, b)] == [t[0]] + (t[1..] + [Slot(index, b)]);
    }
  }

  /** Items of a kind the mapper does not know are passed over, and the others are
      applied one after the other. */
  lemma ItemsInOrder(t: Table, next: nat, o: Origin, phase: Phase, v: Value, rest: seq<Value>)
    ensures v.kind == OtherKind ==> ApplyItems(t, next, o, phase, [v] + rest) == ApplyItems(t, next, o, phase, rest)
    ensures var (t1, next1, out) := ApplyItem(t, next, o, phase, v);
      var (t2, next2, more) := ApplyItems(t1, next1, o, phase, rest);
      ApplyItems(t, next, o, phase, [v] + rest) == (t2, next2, out + more)
  {
    hide ApplyItem;
    assert ([v] + rest)[1..] == rest;
    if v.kind == OtherKind {
      assert ApplyItem(t, next, o, phase, v) == (t, next, []) by { OtherItem(t, next, o, phase, v); }
      assert [] + ApplyItems(t, next, o, phase, rest).2 == ApplyItems(t, next, o, phase, rest).2;
    }
  }

  lemma OtherItem(t: Table, next: nat, o: Origin, phase: Phase, v: Value)
    requires v.kind == OtherKind
    ensures ApplyItem(t, next, o, phase, v) == (t, next, [])
  {
  }
}
