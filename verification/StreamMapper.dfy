/** The translation of Claude stream events and assistant snapshots into
revisioned node mutations, keyed by parent tool call, native message and block
index. Only content mutations are modelled: opaque observations and usage
payloads are other outputs of the same functions. */
module StreamMapper {
  import opened JsonValue

  type U32 = i: int | 0 <= i < 0x1_0000_0000

  // ---- Content blocks

  datatype Kind = TextKind | ThinkingKind | RedactedKind | ToolKind | OtherKind

  /** The members of a content block the mapper reads; a member that is missing
      or of another type is `None`. The tool id is compared as a JSON value. */
  datatype Value = Value(kind: Kind, text: Option<string>, thinking: Option<string>,
                         id: Json, name: Option<string>, input: Option<Json>)

  /** A fresh object id, or the id a native tool id is mapped to. */
  datatype Id = Fresh(n: nat) | Tool(native: string)

  datatype Phase = Commentary | Final

  datatype Block = Block(id: Id, revision: nat, value: Value, inputJson: string,
                         closed: bool, reconciled: bool, phase: Phase)

  datatype Slot = Slot(index: U32, block: Block)

  /** The blocks of one message in ascending index order. */
  type Table = seq<Slot>

  // ---- Mutations

  datatype Operation = Open | Append | Replace | Close

  datatype ToolInput = Known(value: Json) | MissingInput | StreamingInput

  datatype Payload =
    | Message(text: string, phase: Phase, parent: Option<string>, native: string)
    | Thought(redacted: bool, thought: Option<string>, partIndex: U32)
    | ToolCall(name: string, input: ToolInput, inputDelta: Option<string>, caller: Option<string>)

  datatype Mutation = Mutation(node: Id, revision: nat, base: Option<nat>, op: Operation,
                               complete: bool, payload: Payload)

  /** Whose block is being changed. */
  datatype Origin = Origin(parent: Option<string>, native: string)

  function PayloadOf(b: Block, origin: Origin, index: U32, delta: Option<string>): Payload {
    match b.value.kind
    case TextKind =>
      Message(if delta.Some? then delta.value else b.value.text.GetOr(""), b.phase, origin.parent, origin.native)
    case ThinkingKind => Thought(false, if delta.Some? then delta else b.value.thinking, index)
    case RedactedKind => Thought(true, if delta.Some? then delta else b.value.thinking, index)
    case _ =>
      ToolCall(b.value.name.GetOr(""),
               if !b.closed then StreamingInput
               else if b.value.input.Some? then Known(b.value.input.value) else MissingInput,
               delta, origin.parent)
  }

  function Emit(b: Block, origin: Origin, index: U32, op: Operation, delta: Option<string>): (Block, Mutation) {
    (b.(revision := b.revision + 1),
     Mutation(b.id, b.revision + 1, if b.revision > 0 then Some(b.revision) else None, op, b.closed,
              PayloadOf(b, origin, index, delta)))
  }

  function ToolNative(v: Value): string { if v.id.Str? then v.id.s else "" }

  /** `next` is the next unused fresh id. */
  function NewBlock(next: nat, v: Value): Block {
    Block(if v.kind == ToolKind then Tool(ToolNative(v)) else Fresh(next), 0, v, "", false, false, Final)
  }

  function NextAfter(next: nat, v: Value): nat { if v.kind == ToolKind then next else next + 1 }

  // ---- Tables

  predicate Ascending(t: Table) { forall i, j | 0 <= i < j < |t| :: t[i].index < t[j].index }

  function Lookup(t: Table, index: U32): Option<Block> {
    if t == [] then None
    else if t[0].index == index then Some(t[0].block)
    else Lookup(t[1..], index)
  }

  function Put(t: Table, index: U32, b: Block): Table {
    if t == [] || index < t[0].index then [Slot(index, b)] + t
    else if t[0].index == index then [Slot(index, b)] + t[1..]
    else [t[0]] + Put(t[1..], index, b)
  }

  // ---- Stream events

  datatype Delta = TextDelta(text: Option<string>) | ThinkingDelta(thinking: Option<string>)
                 | InputDelta(json: Option<string>) | OtherDelta

  datatype Event =
    | MessageStart(id: Option<string>)
    | MessageDelta
    | BlockStart(start: Option<U32>, value: Value)
    | BlockDelta(at: Option<U32>, delta: Delta)
    | BlockStop(stop: Option<U32>)
    | MessageStop
    | OtherEvent

  /** A start is shown at once unless it is a text or thought with nothing visible yet. */
  predicate VisibleAtStart(v: Value) {
    v.kind == ToolKind || v.kind == RedactedKind || v.text.GetOr("") != "" || v.thinking.GetOr("") != ""
  }

  function StartBlock(t: Table, next: nat, origin: Origin, index: U32, v: Value): (Table, seq<Mutation>) {
    var b := NewBlock(next, v);
    if VisibleAtStart(v) then
      var (b1, m) := Emit(b, origin, index, Open, None);
      (Put(t, index, b1), [m])
    else (Put(t, index, b), [])
  }

  /** The text a delta adds to a block of its own kind; `None` when it adds nothing. */
  function DeltaText(kind: Kind, delta: Delta): Option<string> {
    var text :=
      match delta
      case TextDelta(text) => if kind == TextKind then text else None
      case ThinkingDelta(thinking) => if kind == ThinkingKind then thinking else None
      case InputDelta(json) => if kind == ToolKind then json else None
      case OtherDelta => None;
    if text == Some("") then None else text
  }

  function Grown(b: Block, text: string): Block {
    match b.value.kind
    case TextKind => b.(value := b.value.(text := Some(b.value.text.GetOr("") + text)))
    case ThinkingKind => b.(value := b.value.(thinking := Some(b.value.thinking.GetOr("") + text)))
    case _ => b.(inputJson := b.inputJson + text)
  }

  function DeltaBlock(t: Table, origin: Origin, index: U32, b: Block, delta: Delta): (Table, seq<Mutation>) {
    var text := DeltaText(b.value.kind, delta);
    if text.None? then (t, [])
    else
      var (b1, m) := Emit(Grown(b, text.value), origin, index, if b.revision == 0 then Open else Append, text);
      (Put(t, index, b1), [m])
  }

  /** The texts that parse as JSON, with their values. */
  type Parses = map<string, Json>

  function ClosedBlock(b: Block, parses: Parses): Block {
    if b.value.kind == ToolKind && b.inputJson != "" then
      b.(closed := true,
         value := b.value.(input := if b.inputJson in parses then Some(parses[b.inputJson]) else None))
    else b.(closed := true)
  }

  function StopBlock(b: Block, parses: Parses, origin: Origin, index: U32): (Block, seq<Mutation>) {
    var b := ClosedBlock(b, parses);
    if b.revision == 0 then
      var (b1, m1) := Emit(b, origin, index, Open, None);
      var (b2, m2) := Emit(b1, origin, index, Close, None);
      (b2, [m1, m2])
    else
      var (b1, m) := Emit(b, origin, index, Close, None);
      (b1, [m])
  }

  predicate Stops(event: Event, index: U32) { event.MessageStop? || (event.BlockStop? && event.stop == Some(index)) }

  function StopSlots(t: Table, parses: Parses, origin: Origin, event: Event): (Table, seq<Mutation>) {
    if t == [] then ([], [])
    else
      var (rest, more) := StopSlots(t[1..], parses, origin, event);
      if Stops(event, t[0].index) && !t[0].block.closed then
        var (b, out) := StopBlock(t[0].block, parses, origin, t[0].index);
        ([Slot(t[0].index, b)] + rest, out + more)
      else ([t[0]] + rest, more)
  }

  /** What an event does to the table of the active message. */
  function ApplyEvent(t: Table, next: nat, parses: Parses, origin: Origin, event: Event): (Table, nat, seq<Mutation>) {
    match event
    case BlockStart(index, v) =>
      if index.None? || v.kind == OtherKind then (t, next, [])
      else
        var (t1, out) := StartBlock(t, next, origin, index.value, v);
        (t1, NextAfter(next, v), out)
    case BlockDelta(index, delta) =>
      if index.None? || Lookup(t, index.value).None? then (t, next, [])
      else
        var (t1, out) := DeltaBlock(t, origin, index.value, Lookup(t, index.value).value, delta);
        (t1, next, out)
    case BlockStop(_) =>
      var (t1, out) := StopSlots(t, parses, origin, event);
      (t1, next, out)
    case MessageStop =>
      var (t1, out) := StopSlots(t, parses, origin, event);
      (t1, next, out)
    case _ => (t, next, [])
  }

  // ---- Assistant snapshots

  predicate Matches(b: Block, v: Value) {
    b.value.kind == v.kind && if v.kind == ToolKind then b.value.id == v.id else !b.reconciled
  }

  /** Index of the first block the item can be; `None` when it is new. */
  function FirstMatch(t: Table, v: Value): Option<U32> {
    if t == [] then None
    else if Matches(t[0].block, v) then Some(t[0].index)
    else FirstMatch(t[1..], v)
  }

  /** One past the last index, wrapping as 32-bit arithmetic does. */
  function NextIndex(t: Table): U32 {
    if t == [] then 0 else if t[|t| - 1].index == 0xFFFF_FFFF then 0 else t[|t| - 1].index + 1
  }

  predicate HasTool(t: Table) { exists i :: 0 <= i < |t| && t[i].block.value.kind == ToolKind }

  predicate ListsTool(content: seq<Value>) { exists i :: 0 <= i < |content| && content[i].kind == ToolKind }

  function Reconciled(b: Block, v: Value, phase: Phase): Block {
    b.(value := v, closed := true, reconciled := true, phase := phase)
  }

  function ItemIndex(t: Table, v: Value): U32 {
    if FirstMatch(t, v).Some? then FirstMatch(t, v).value else NextIndex(t)
  }

  function ItemBlock(t: Table, next: nat, v: Value): Block {
    var found := Lookup(t, ItemIndex(t, v));
    if found.Some? then found.value else NewBlock(next, v)
  }

  function ItemNext(t: Table, next: nat, v: Value): nat {
    if Lookup(t, ItemIndex(t, v)).Some? then next else NextAfter(next, v)
  }

  function ApplyItem(t: Table, next: nat, origin: Origin, phase: Phase, v: Value): (Table, nat, seq<Mutation>) {
    if v.kind == OtherKind then (t, next, [])
    else
      var index := ItemIndex(t, v);
      var b := Reconciled(ItemBlock(t, next, v), v, phase);
      var (b1, m1) := Emit(b, origin, index, if b.revision == 0 then Open else Replace, None);
      var (b2, m2) := Emit(b1, origin, index, Close, None);
      (Put(t, index, b2), ItemNext(t, next, v), [m1, m2])
  }

  function ApplyItems(t: Table, next: nat, origin: Origin, phase: Phase, content: seq<Value>)
    : (Table, nat, seq<Mutation>)
    decreases |content|
  {
    if content == [] then (t, next, [])
    else
      var (t1, next1, out) := ApplyItem(t, next, origin, phase, content[0]);
      var (t2, next2, more) := ApplyItems(t1, next1, origin, phase, content[1..]);
      (t2, next2, out + more)
  }

  function FramePhase(t: Table, content: seq<Value>): Phase {
    if ListsTool(content) || HasTool(t) then Commentary else Final
  }

  // ---- The mapper

  datatype State = State(active: map<Option<string>, string>, tables: map<Origin, Table>,
                         snapshots: set<string>, next: nat)

  const EmptyState := State(map[], map[], {}, 0)

  datatype Frame =
    | StreamFrame(parent: Option<string>, event: Event)
    | AssistantFrame(parent: Option<string>, uuid: Option<string>, messageId: Option<string>, content: seq<Value>)

  function TableOf(s: State, origin: Origin): Table {
    if origin in s.tables then s.tables[origin] else []
  }

  function MapStream(s: State, parses: Parses, parent: Option<string>, event: Event): (State, seq<Mutation>) {
    if event.MessageStart? then
      (if event.id.Some? then s.(active := s.active[parent := event.id.value]) else s, [])
    else if parent !in s.active || event.MessageDelta? then (s, [])
    else
      var origin := Origin(parent, s.active[parent]);
      var (t, next, out) := ApplyEvent(TableOf(s, origin), s.next, parses, origin, event);
      (s.(tables := s.tables[origin := t], next := next,
          active := if event.MessageStop? then s.active - {parent} else s.active),
       out)
  }

  function MapAssistant(s: State, parent: Option<string>, uuid: Option<string>, messageId: Option<string>,
                        content: seq<Value>): (State, seq<Mutation>)
  {
    var native := if messageId.Some? then messageId else uuid;
    if (uuid.Some? && uuid.value in s.snapshots) || native.None? then (s, [])
    else
      var origin := Origin(parent, native.value);
      var t := TableOf(s, origin);
      var (t1, next, out) := ApplyItems(t, s.next, origin, FramePhase(t, content), content);
      (s.(tables := s.tables[origin := t1], next := next,
          snapshots := if uuid.Some? then s.snapshots + {uuid.value} else s.snapshots),
       out)
  }

  function MapFrame(s: State, parses: Parses, frame: Frame): (State, seq<Mutation>) {
    match frame
    case StreamFrame(parent, event) => MapStream(s, parses, parent, event)
    case AssistantFrame(parent, uuid, messageId, content) => MapAssistant(s, parent, uuid, messageId, content)
  }

  function MapFrames(s: State, parses: Parses, frames: seq<Frame>): (State, seq<Mutation>)
    decreases |frames|
  {
    if frames == [] then (s, [])
    else
      var (s1, out) := MapFrame(s, parses, frames[0]);
      var (s2, more) := MapFrames(s1, parses, frames[1..]);
      (s2, out + more)
  }

  class StreamMapper {
    const parses: Parses
    var active: map<Option<string>, string>
    var tables: map<Origin, Table>
    var snapshots: set<string>
    var next: nat

    ghost function Abstract(): State reads this { State(active, tables, snapshots, next) }

    constructor (parses: Parses)
      ensures Abstract() == EmptyState && this.parses == parses
    {
      this.parses := parses;
      active, tables, snapshots, next := map[], map[], {}, 0;
    }

    method StopBlocks(t: Table, origin: Origin, event: Event) returns (t1: Table, out: seq<Mutation>)
      ensures (t1, out) == StopSlots(t, parses, origin, event)
    {
      hide StopBlock;
      t1, out := [], [];
      ghost var whole := StopSlots(t, parses, origin, event);
      for i := 0 to |t|
        invariant whole.0 == t1 + StopSlots(t[i..], parses, origin, event).0
        invariant whole.1 == out + StopSlots(t[i..], parses, origin, event).1
      {
        assert t[i..][1..] == t[i + 1..];
        var slot := t[i];
        ghost var (rest, more) := StopSlots(t[i + 1..], parses, origin, event);
        if Stops(event, slot.index) && !slot.block.closed {
          var (b, mutations) := StopBlock(slot.block, parses, origin, slot.index);
          assert out + (mutations + more) == (out + mutations) + more;
          slot := slot.(block := b);
          out := out + mutations;
        }
        assert t1 + ([slot] + rest) == (t1 + [slot]) + rest;
        t1 := t1 + [slot];
      }
      assert StopSlots(t[|t|..], parses, origin, event) == ([], []);
      assert t1 + [] == t1 && out + [] == out;
    }

    method MapStreamEvent(parent: Option<string>, event: Event) returns (out: seq<Mutation>)
      modifies this
      ensures (Abstract(), out) == MapStream(old(Abstract()), parses, parent, event)
    {
      hide Put, Lookup, StopSlots, Emit, NewBlock;
      if event.MessageStart? {
        if event.id.Some? {
          active := active[parent := event.id.value];
        }
        return [];
      }
      if parent !in active || event.MessageDelta? {
        return [];
      }
      var origin := Origin(parent, active[parent]);
      var t := if origin in tables then tables[origin] else [];
      out := [];
      match event {
        case BlockStart(index, v) =>
          if index.Some? && v.kind != OtherKind {
            var b := NewBlock(next, v);
            next := NextAfter(next, v);
            if VisibleAtStart(v) {
              var (b1, m) := Emit(b, origin, index.value, Open, None);
              b, out := b1, [m];
            }
            t := Put(t, index.value, b);
          }
        case BlockDelta(index, delta) =>
          if index.Some? {
            var found := Lookup(t, index.value);
            if found.Some? {
              var text := DeltaText(found.value.value.kind, delta);
              if text.Some? {
                var op := if found.value.revision == 0 then Open else Append;
                var (b, m) := Emit(Grown(found.value, text.value), origin, index.value, op, text);
                t := Put(t, index.value, b);
                out := [m];
              }
            }
          }
        case BlockStop(_) => t, out := StopBlocks(t, origin, event);
        case MessageStop => t, out := StopBlocks(t, origin, event);
        case _ =>
      }
      tables := tables[origin := t];
      if event.MessageStop? {
        active := active - {parent};
      }
    }

    method MapAssistantMessage(parent: Option<string>, uuid: Option<string>, messageId: Option<string>,
                               content: seq<Value>)
      returns (out: seq<Mutation>)
      modifies this
      ensures (Abstract(), out) == MapAssistant(old(Abstract()), parent, uuid, messageId, content)
    {
      hide ApplyItem;
      var native := if messageId.Some? then messageId else uuid;
      if (uuid.Some? && uuid.value in snapshots) || native.None? {
        return [];
      }
      var origin := Origin(parent, native.value);
      var t := if origin in tables then tables[origin] else [];
      var phase := FramePhase(t, content);
      out := [];
      ghost var whole := ApplyItems(t, next, origin, phase, content);
      for i := 0 to |content|
        invariant whole.0 == ApplyItems(t, next, origin, phase, content[i..]).0
        invariant whole.1 == ApplyItems(t, next, origin, phase, content[i..]).1
        invariant whole.2 == out + ApplyItems(t, next, origin, phase, content[i..]).2
        invariant unchanged(`active, `tables, `snapshots)
      {
        assert content[i..][1..] == content[i + 1..];
        var (t1, next1, mutations) := ApplyItem(t, next, origin, phase, content[i]);
        ghost var more := ApplyItems(t1, next1, origin, phase, content[i + 1..]).2;
        assert out + (mutations + more) == (out + mutations) + more;
        t, next := t1, next1;
        out := out + mutations;
      }
      assert ApplyItems(t, next, origin, phase, content[|content|..]) == (t, next, []);
      assert out + [] == out;
      tables := tables[origin := t];
      if uuid.Some? {
        snapshots := snapshots + {uuid.value};
      }
    }
  }
}
