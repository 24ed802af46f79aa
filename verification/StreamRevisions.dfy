/** What a consumer of the mutation stream may rely on: every node's mutations
form one chain of revisions, and folding them gives the block's content. */
module StreamRevisions {
  import opened JsonValue
  import opened StreamMapper

  // ---- The consumer's view

  /** The mutations of one node, in order. */
  function Project(log: seq<Mutation>, n: Id): seq<Mutation> {
    if log == [] then [] else (if log[0].node == n then [log[0]] else []) + Project(log[1..], n)
  }

  lemma {:induction false} ProjectConcat(a: seq<Mutation>, b: seq<Mutation>, n: Id)
    ensures Project(a + b, n) == Project(a, n) + Project(b, n)
  {
    if a == [] {
      assert a + b == b;
    } else {
      assert (a + b)[1..] == a[1..] + b;
      ProjectConcat(a[1..], b, n);
      var first := if a[0].node == n then [a[0]] else [];
      assert first + (Project(a[1..], n) + Project(b, n)) == (first + Project(a[1..], n)) + Project(b, n);
    }
  }

  lemma {:induction false} ProjectNone(out: seq<Mutation>, n: Id)
    requires forall i | 0 <= i < |out| :: out[i].node != n
    ensures Project(out, n) == []
  {
    if out != [] {
      ProjectNone(out[1..], n);
    }
  }

  lemma {:induction false} ProjectAll(out: seq<Mutation>, n: Id)
    requires forall i | 0 <= i < |out| :: out[i].node == n
    ensures Project(out, n) == out
  {
    if out != [] {
      ProjectAll(out[1..], n);
    }
  }

  /** Revisions 1, 2, 3, …, each based on the one before, opened exactly once and first. */
  predicate Chain(ms: seq<Mutation>) {
    forall i | 0 <= i < |ms| ::
      && ms[i].revision == i + 1
      && ms[i].base == (if i == 0 then None else Some(i))
      && (ms[i].op == Open <==> i == 0)
  }

  function TextOf(p: Payload): string {
    match p
    case Message(text, _, _, _) => text
    case Thought(_, thought, _) => thought.GetOr("")
    case ToolCall(_, _, _, _) => ""
  }

  /** An append concatenates; every other operation replaces. */
  function FoldText(ms: seq<Mutation>): string {
    if ms == [] then ""
    else
      var m := ms[|ms| - 1];
      (if m.op == Append then FoldText(ms[..|ms| - 1]) else "") + TextOf(m.payload)
  }

  /** A tool's input deltas, concatenated. */
  function FoldInput(ms: seq<Mutation>): string {
    if ms == [] then ""
    else
      var p := ms[|ms| - 1].payload;
      FoldInput(ms[..|ms| - 1]) + if p.ToolCall? then p.inputDelta.GetOr("") else ""
  }

  /** The text or thinking a content value holds. */
  function ValueText(v: Value): string {
    match v.kind
    case TextKind => v.text.GetOr("")
    case ThinkingKind => v.thinking.GetOr("")
    case RedactedKind => v.thinking.GetOr("")
    case _ => ""
  }

  function InputOf(v: Value): ToolInput { if v.input.Some? then Known(v.input.value) else MissingInput }

  /** The rest of what a consumer holds after the last mutation: the kind of node and,
      since no mutation appends to them, a tool's name and input and a message's phase. */
  predicate Shows(p: Payload, b: Block) {
    match b.value.kind
    case TextKind => p.Message? && p.phase == b.phase
    case ThinkingKind => p.Thought? && !p.redacted
    case RedactedKind => p.Thought? && p.redacted
    case _ =>
      p.ToolCall? && p.name == b.value.name.GetOr("") &&
        p.input == if b.closed then InputOf(b.value) else StreamingInput
  }

  // ---- One block against the log

  /** The block's mutations are a chain of revisions, and folding them gives the
      block: its text or thinking, its streamed input, its kind, name, input and phase. */
  predicate Follows(ms: seq<Mutation>, b: Block) {
    && Chain(ms) && |ms| == b.revision && FoldText(ms) == ValueText(b.value) && FoldInput(ms) == b.inputJson
    && (ms != [] ==> Shows(ms[|ms| - 1].payload, b))
  }

  predicate Tracks(log: seq<Mutation>, b: Block) { Follows(Project(log, b.id), b) }

  lemma FoldStep(ms: seq<Mutation>, m: Mutation)
    ensures FoldText(ms + [m]) == (if m.op == Append then FoldText(ms) else "") + TextOf(m.payload)
    ensures FoldInput(ms + [m]) == FoldInput(ms) + if m.payload.ToolCall? then m.payload.inputDelta.GetOr("") else ""
  {
    assert (ms + [m])[..|ms|] == ms;
  }

  lemma EmptyFolds()
    ensures FoldText([]) == "" && FoldInput([]) == ""
  {
  }

  /** Emitting a block's whole content keeps the consumer's fold equal to it. */
  lemma EmitWhole(ms: seq<Mutation>, b: Block, origin: Origin, index: U32, op: Operation)
    requires Chain(ms) && |ms| == b.revision && FoldInput(ms) == b.inputJson
    requires op != Append && (op == Open <==> b.revision == 0)
    ensures var (b1, m) := Emit(b, origin, index, op, None); Follows(ms + [m], b1)
  {
    hide FoldText, FoldInput;
    var m := Emit(b, origin, index, op, None).1;
    FoldStep(ms, m);
    assert "" + TextOf(m.payload) == TextOf(m.payload);
    assert FoldInput(ms) + "" == FoldInput(ms);
  }

  /** Emitting only a delta keeps it equal as well. */
  lemma EmitDelta(ms: seq<Mutation>, b: Block, origin: Origin, index: U32, text: string)
    requires Follows(ms, b) && b.value.kind in {TextKind, ThinkingKind, ToolKind}
    ensures var (b1, m) := Emit(Grown(b, text), origin, index, if b.revision == 0 then Open else Append, Some(text));
      Follows(ms + [m], b1)
  {
    hide FoldText, FoldInput;
    EmptyFolds();
    var m := Emit(Grown(b, text), origin, index, if b.revision == 0 then Open else Append, Some(text)).1;
    FoldStep(ms, m);
    assert FoldText(ms) + "" == FoldText(ms) && FoldInput(ms) + "" == FoldInput(ms);
    assert b.revision == 0 ==> ms == [];
  }

  lemma EmitDeltaTracks(log: seq<Mutation>, b: Block, origin: Origin, index: U32, text: string)
    requires Tracks(log, b) && b.value.kind in {TextKind, ThinkingKind, ToolKind}
    ensures var (b1, m) := Emit(Grown(b, text), origin, index, if b.revision == 0 then Open else Append, Some(text));
      Tracks(log + [m], b1) && b1.id == b.id && m.node == b.id
  {
    hide Follows, Project;
    var m := Emit(Grown(b, text), origin, index, if b.revision == 0 then Open else Append, Some(text)).1;
    EmitDelta(Project(log, b.id), b, origin, index, text);
    ProjectConcat(log, [m], b.id);
    ProjectAll([m], b.id);
  }

  /** Opening (or replacing) and then closing a block with its whole content. */
  lemma EmitTwice(log: seq<Mutation>, b: Block, origin: Origin, index: U32, op: Operation)
    requires var ms := Project(log, b.id); Chain(ms) && |ms| == b.revision && FoldInput(ms) == b.inputJson
    requires op != Append && (op == Open <==> b.revision == 0)
    ensures var (b1, m1) := Emit(b, origin, index, op, None);
      var (b2, m2) := Emit(b1, origin, index, Close, None);
      Tracks(log + [m1, m2], b2)
  {
    hide Project, FoldText, FoldInput;
    var ms := Project(log, b.id);
    var (b1, m1) := Emit(b, origin, index, op, None);
    var m2 := Emit(b1, origin, index, Close, None).1;
    EmitWhole(ms, b, origin, index, op);
    EmitWhole(ms + [m1], b1, origin, index, Close);
    ProjectConcat(log, [m1, m2], b.id);
    ProjectAll([m1, m2], b.id);
    assert ms + [m1] + [m2] == ms + [m1, m2];
  }

  lemma EmitOnce(log: seq<Mutation>, b: Block, origin: Origin, index: U32, op: Operation)
    requires var ms := Project(log, b.id); Chain(ms) && |ms| == b.revision && FoldInput(ms) == b.inputJson
    requires op != Append && (op == Open <==> b.revision == 0)
    ensures var (b1, m) := Emit(b, origin, index, op, None); Tracks(log + [m], b1)
  {
    hide Project, FoldText, FoldInput;
    var m := Emit(b, origin, index, op, None).1;
    EmitWhole(Project(log, b.id), b, origin, index, op);
    ProjectConcat(log, [m], b.id);
    ProjectAll([m], b.id);
  }

  lemma StopTracks(log: seq<Mutation>, b: Block, parses: Parses, origin: Origin, index: U32)
    requires Tracks(log, b)
    ensures var (b1, out) := StopBlock(b, parses, origin, index);
      Tracks(log + out, b1) && b1.id == b.id && forall i | 0 <= i < |out| :: out[i].node == b.id
  {
    hide Project, FoldText, FoldInput;
    var c := ClosedBlock(b, parses);
    if b.revision == 0 {
      EmitTwice(log, c, origin, index, Open);
    } else {
      EmitOnce(log, c, origin, index, Close);
    }
  }

  /** A stop closes a streamed tool call with the parse of exactly the deltas the consumer saw. */
  lemma StopParsesDeltas(log: seq<Mutation>, b: Block, parses: Parses, origin: Origin, index: U32)
    requires Tracks(log, b) && b.value.kind == ToolKind
    ensures var deltas := FoldInput(Project(log, b.id));
      var out := StopBlock(b, parses, origin, index).1;
      out != [] && out[|out| - 1].op == Close && out[|out| - 1].payload.ToolCall? &&
      (deltas != "" ==>
         out[|out| - 1].payload.input == if deltas in parses then Known(parses[deltas]) else MissingInput)
  {
  }

  lemma TracksFrame(log: seq<Mutation>, out: seq<Mutation>, b: Block)
    requires Tracks(log, b) && forall i | 0 <= i < |out| :: out[i].node != b.id
    ensures Tracks(log + out, b)
  {
    hide Project, Follows;
    ProjectConcat(log, out, b.id);
    ProjectNone(out, b.id);
    assert Project(log, b.id) + [] == Project(log, b.id);
  }

  // ---- Tables as sets of slots

  lemma {:induction false} PutMembers(t: Table, index: U32, b: Block)
    requires Ascending(t)
    ensures Ascending(Put(t, index, b))
    ensures forall s :: s in Put(t, index, b) <==> s == Slot(index, b) || (s in t && s.index != index)
  {
    if t != [] && t[0].index < index {
      PutMembers(t[1..], index, b);
      var tail := Put(t[1..], index, b);
      assert forall i | 0 <= i < |tail| :: tail[i] in tail;
      assert forall s :: s in t <==> s == t[0] || s in t[1..];
    } else if t != [] && t[0].index == index {
      assert forall s :: s in t <==> s == t[0] || s in t[1..];
    }
  }

  lemma {:induction false} LookupMembers(t: Table, index: U32)
    requires Ascending(t)
    ensures forall b :: Lookup(t, index) == Some(b) <==> Slot(index, b) in t
  {
    if t != [] {
      LookupMembers(t[1..], index);
      assert forall s :: s in t <==> s == t[0] || s in t[1..];
      assert t[0].index == index ==> forall s | s in t[1..] :: s.index != index;
    }
  }

  /** Ids in use: fresh ones below the counter, tools that have had a block. */
  predicate Used(id: Id, next: nat, tools: set<string>) {
    match id
    case Fresh(n) => n < next
    case Tool(native) => native in tools
  }

  predicate HasId(t: Table, id: Id) { exists s | s in t :: s.block.id == id }

  predicate DistinctIds(t: Table) {
    forall a, b | a in t && b in t && a.block.id == b.block.id :: a.index == b.index
  }

  predicate TableOk(log: seq<Mutation>, t: Table, next: nat, tools: set<string>) {
    && Ascending(t) && DistinctIds(t)
    && forall s | s in t :: Tracks(log, s.block) && Used(s.block.id, next, tools)
  }

  /** Every node's mutations form a chain, only used nodes have any, and every tool that had a block has some. */
  ghost predicate NodesOk(log: seq<Mutation>, next: nat, tools: set<string>) {
    && (forall n: Id :: Chain(Project(log, n)))
    && (forall n: Id | !Used(n, next, tools) :: Project(log, n) == [])
    && (forall native | native in tools :: Project(log, Tool(native)) != [])
  }

  /** What a change of one table may touch: its own nodes and nodes nobody used before. */
  ghost predicate Local(t: Table, next: nat, tools: set<string>, t1: Table, out: seq<Mutation>) {
    && (forall s | s in t1 :: HasId(t, s.block.id) || !Used(s.block.id, next, tools))
    && (forall i | 0 <= i < |out| :: HasId(t, out[i].node) || !Used(out[i].node, next, tools))
  }

  /** The outcome of a change of one table. */
  ghost predicate Changed(log: seq<Mutation>, t: Table, next: nat, tools: set<string>,
                          t1: Table, next1: nat, tools1: set<string>, out: seq<Mutation>) {
    && next <= next1 && tools <= tools1
    && TableOk(log + out, t1, next1, tools1) && NodesOk(log + out, next1, tools1) && Local(t, next, tools, t1, out)
  }

  /** Changing one block, or putting a new one in its slot. */
  lemma BlockChanged(log: seq<Mutation>, t: Table, next: nat, tools: set<string>, index: U32, b: Block,
                     next1: nat, tools1: set<string>, out: seq<Mutation>)
    requires TableOk(log, t, next, tools) && NodesOk(log, next, tools)
    requires next <= next1 && tools <= tools1 && Used(b.id, next1, tools1)
    requires forall i | 0 <= i < |out| :: out[i].node == b.id
    requires Tracks(log + out, b)
    requires (exists old' :: Lookup(t, index) == Some(old') && old'.id == b.id) || !Used(b.id, next, tools)
    requires forall native | native in tools1 && native !in tools :: Tool(native) == b.id && out != []
    ensures Changed(log, t, next, tools, Put(t, index, b), next1, tools1, out)
  {
    hide Put, Lookup, Project, Follows, Chain;
    var t1 := Put(t, index, b);
    PutMembers(t, index, b);
    LookupMembers(t, index);
    BlockNodes(log, next, tools, b, next1, tools1, out);
    forall s | s in t && s.index != index ensures s.block.id != b.id && Tracks(log + out, s.block) {
      TracksFrame(log, out, s.block);
    }
    assert forall s | s in t1 :: Used(s.block.id, next1, tools1);
    assert forall s | s in t && s.index != index :: HasId(t, s.block.id);
  }

  lemma BlockNodes(log: seq<Mutation>, next: nat, tools: set<string>, b: Block,
                   next1: nat, tools1: set<string>, out: seq<Mutation>)
    requires NodesOk(log, next, tools)
    requires next <= next1 && tools <= tools1 && Used(b.id, next1, tools1)
    requires forall i | 0 <= i < |out| :: out[i].node == b.id
    requires Tracks(log + out, b)
    requires forall native | native in tools1 && native !in tools :: Tool(native) == b.id && out != []
    ensures NodesOk(log + out, next1, tools1)
  {
    hide Project;
    ProjectAll(out, b.id);
    forall n: Id
      ensures Chain(Project(log + out, n))
      ensures !Used(n, next1, tools1) ==> Project(log + out, n) == []
      ensures n.Tool? && n.native in tools1 ==> Project(log + out, n) != []
    {
      ProjectConcat(log, out, n);
      if n != b.id {
        ProjectNone(out, n);
        assert Project(log, n) + [] == Project(log, n);
      }
    }
  }

  // ---- Stream events

  lemma {:induction false} StopChanged(log: seq<Mutation>, t: Table, next: nat, tools: set<string>,
                                       parses: Parses, origin: Origin, event: Event)
    requires TableOk(log, t, next, tools) && NodesOk(log, next, tools)
    ensures var (t1, out) := StopSlots(t, parses, origin, event);
      && Changed(log, t, next, tools, t1, next, tools, out)
      && (forall i | 0 <= i < |out| :: HasId(t, out[i].node)) && SameShape(t, t1)
    decreases |t|
  {
    hide StopSlots, StopBlock, TableOk, NodesOk, Changed, HasId, SameShape, Tracks;
    if t == [] {
      StopNothing(log, next, tools, parses, origin, event);
    } else {
      var tail := t[1..];
      var (b, out0) := StopFirst(t[0], parses, origin, event);
      StopHead(log, t, next, tools, parses, origin, event, b, out0);
      StopChanged(log + out0, tail, next, tools, parses, origin, event);
      var (tail1, more) := StopSlots(tail, parses, origin, event);
      StopUnfold(t, parses, origin, event);
      ChangedTable(log + out0, tail, next, tools, tail1, next, tools, more);
      StopJoin(log, t, next, tools, b, out0, tail1, more);
    }
  }

  lemma ChangedTable(log: seq<Mutation>, t: Table, next: nat, tools: set<string>,
                     t1: Table, next1: nat, tools1: set<string>, out: seq<Mutation>)
    requires Changed(log, t, next, tools, t1, next1, tools1, out)
    ensures TableOk(log + out, t1, next1, tools1) && NodesOk(log + out, next1, tools1)
  {
  }

  function StopFirst(slot: Slot, parses: Parses, origin: Origin, event: Event): (Block, seq<Mutation>) {
    if Stops(event, slot.index) && !slot.block.closed then StopBlock(slot.block, parses, origin, slot.index)
    else (slot.block, [])
  }

  lemma StopUnfold(t: Table, parses: Parses, origin: Origin, event: Event)
    requires t != []
    ensures var (b, out0) := StopFirst(t[0], parses, origin, event);
      var (tail1, more) := StopSlots(t[1..], parses, origin, event);
      StopSlots(t, parses, origin, event) == ([Slot(t[0].index, b)] + tail1, out0 + more)
  {
    hide StopBlock;
    var more := StopSlots(t[1..], parses, origin, event).1;
    assert [] + more == more;
  }

  lemma StopNothing(log: seq<Mutation>, next: nat, tools: set<string>, parses: Parses, origin: Origin, event: Event)
    requires NodesOk(log, next, tools)
    ensures StopSlots([], parses, origin, event) == ([], [])
    ensures Changed(log, [], next, tools, [], next, tools, []) && SameShape([], [])
  {
    hide Project, Chain;
    assert log + [] == log;
  }

  predicate SameShape(t: Table, t1: Table) {
    |t| == |t1| && forall i | 0 <= i < |t| :: t[i].index == t1[i].index && t[i].block.id == t1[i].block.id
  }

  lemma StopHead(log: seq<Mutation>, t: Table, next: nat, tools: set<string>,
                 parses: Parses, origin: Origin, event: Event, b: Block, out: seq<Mutation>)
    requires t != [] && TableOk(log, t, next, tools) && NodesOk(log, next, tools)
    requires (b, out) == StopFirst(t[0], parses, origin, event)
    ensures b.id == t[0].block.id && Tracks(log + out, b) && forall i | 0 <= i < |out| :: out[i].node == b.id
    ensures TableOk(log + out, t[1..], next, tools) && NodesOk(log + out, next, tools)
  {
    hide Project, Follows, Chain, StopBlock;
    assert t[0] in t && Tracks(log, t[0].block);
    assert log + [] == log;
    if Stops(event, t[0].index) && !t[0].block.closed {
      StopTracks(log, t[0].block, parses, origin, t[0].index);
    }
    forall s | s in t[1..] ensures s in t && s.block.id != b.id && Tracks(log + out, s.block) {
      assert s.index != t[0].index;
      TracksFrame(log, out, s.block);
    }
    BlockNodes(log, next, tools, b, next, tools, out);
  }

  lemma StopJoin(log: seq<Mutation>, t: Table, next: nat, tools: set<string>,
                 b: Block, out0: seq<Mutation>, tail1: Table, more: seq<Mutation>)
    requires t != [] && TableOk(log, t, next, tools) && b.id == t[0].block.id
    requires Tracks(log + out0, b) && forall i | 0 <= i < |out0| :: out0[i].node == b.id
    requires TableOk(log + out0 + more, tail1, next, tools) && NodesOk(log + out0 + more, next, tools)
    requires SameShape(t[1..], tail1) && forall i | 0 <= i < |more| :: HasId(t[1..], more[i].node)
    ensures var t1 := [Slot(t[0].index, b)] + tail1;
      && Changed(log, t, next, tools, t1, next, tools, out0 + more)
      && (forall i | 0 <= i < |out0 + more| :: HasId(t, (out0 + more)[i].node)) && SameShape(t, t1)
  {
    hide NodesOk, Tracks, HasId, Ascending, DistinctIds, Local;
    var first := Slot(t[0].index, b);
    var t1, out := [first] + tail1, out0 + more;
    assert log + out0 + more == log + out;
    assert SameShape(t, t1) by {
      assert forall i | 0 < i < |t| :: t[i] == t[1..][i - 1];
    }
    ShapeKept(t, t1);
    NodesOfTail(t);
    assert t[0] in t && Used(b.id, next, tools);
    TracksFrame(log + out0, more, b);
    JoinTable(log + out, first, tail1, next, tools);
    JoinNodes(t, out0, more, b.id);
    OwnNodesOnly(t, next, tools, t1, out);
  }

  lemma JoinTable(log: seq<Mutation>, first: Slot, tail: Table, next: nat, tools: set<string>)
    requires TableOk(log, tail, next, tools) && Tracks(log, first.block) && Used(first.block.id, next, tools)
    requires Ascending([first] + tail) && DistinctIds([first] + tail)
    ensures TableOk(log, [first] + tail, next, tools)
  {
    hide Tracks;
  }

  lemma JoinNodes(t: Table, out0: seq<Mutation>, more: seq<Mutation>, id: Id)
    requires HasId(t, id) && forall i | 0 <= i < |out0| :: out0[i].node == id
    requires forall i | 0 <= i < |more| :: HasId(t, more[i].node)
    ensures forall i | 0 <= i < |out0 + more| :: HasId(t, (out0 + more)[i].node)
  {
    hide HasId;
  }

  lemma OwnNodesOnly(t: Table, next: nat, tools: set<string>, t1: Table, out: seq<Mutation>)
    requires forall s | s in t1 :: HasId(t, s.block.id)
    requires forall i | 0 <= i < |out| :: HasId(t, out[i].node)
    ensures Local(t, next, tools, t1, out)
  {
    hide HasId;
  }

  lemma ShapeKept(t: Table, t1: Table)
    requires SameShape(t, t1) && Ascending(t) && DistinctIds(t)
    ensures Ascending(t1) && DistinctIds(t1) && forall s | s in t1 :: HasId(t, s.block.id)
  {
    forall i, j | 0 <= i < |t1| && 0 <= j < |t1| &&
      t1[i].block.id == t1[j].block.id ensures t1[i].index == t1[j].index {
      assert t[i] in t && t[j] in t;
    }
    forall s | s in t1 ensures HasId(t, s.block.id) {
      var i :| 0 <= i < |t1| && t1[i] == s;
      assert t[i] in t;
    }
  }

  lemma NodesOfTail(t: Table)
    requires t != [] && Ascending(t) && DistinctIds(t)
    ensures HasId(t, t[0].block.id) && !HasId(t[1..], t[0].block.id)
    ensures forall n :: HasId(t[1..], n) ==> HasId(t, n)
  {
    assert t[0] in t;
    forall s | s in t[1..] ensures s in t && s.block.id != t[0].block.id {
      assert s.index != t[0].index;
    }
  }

  /** The tool for which an event opens a block. */
  function StartedTool(event: Event): set<string> {
    if event.BlockStart? && event.start.Some? && event.value.kind == ToolKind then {ToolNative(event.value)} else {}
  }

  lemma NewBlockUnused(log: seq<Mutation>, next: nat, tools: set<string>, v: Value)
    requires NodesOk(log, next, tools) && v.kind != OtherKind && (v.kind == ToolKind ==> ToolNative(v) !in tools)
    ensures var b := NewBlock(next, v);
      var tools1 := if v.kind == ToolKind then tools + {ToolNative(v)} else tools;
      && !Used(b.id, next, tools) && Used(b.id, NextAfter(next, v), tools1) && Project(log, b.id) == []
  {
    hide Project, Chain;
  }

  lemma StartChanged(log: seq<Mutation>, t: Table, next: nat, tools: set<string>, origin: Origin, index: U32, v: Value)
    requires TableOk(log, t, next, tools) && NodesOk(log, next, tools)
    requires v.kind != OtherKind && (v.kind == ToolKind ==> ToolNative(v) !in tools)
    ensures var (t1, out) := StartBlock(t, next, origin, index, v);
      var tools1 := if v.kind == ToolKind then tools + {ToolNative(v)} else tools;
      Changed(log, t, next, tools, t1, NextAfter(next, v), tools1, out)
  {
    hide Project, Chain, TableOk, NodesOk, Changed, Put, Used;
    var b := NewBlock(next, v);
    var tools1 := if v.kind == ToolKind then tools + {ToolNative(v)} else tools;
    NewBlockUnused(log, next, tools, v);
    EmptyFolds();
    EmptyChain();
    if VisibleAtStart(v) {
      var (b1, m) := Emit(b, origin, index, Open, None);
      EmitOnce(log, b, origin, index, Open);
      BlockChanged(log, t, next, tools, index, b1, NextAfter(next, v), tools1, [m]);
    } else {
      assert log + [] == log;
      BlockChanged(log, t, next, tools, index, b, NextAfter(next, v), tools1, []);
    }
  }

  lemma EmptyChain()
    ensures Chain([])
  {
  }

  lemma DeltaChanged(log: seq<Mutation>, t: Table, next: nat, tools: set<string>, origin: Origin, index: U32, b: Block,
                     delta: Delta)
    requires TableOk(log, t, next, tools) && NodesOk(log, next, tools) && Lookup(t, index) == Some(b)
    ensures var (t1, out) := DeltaBlock(t, origin, index, b, delta); Changed(log, t, next, tools, t1, next, tools, out)
  {
    hide Project, Chain, NodesOk, Put, Lookup, Tracks, Changed, Used, Emit;
    LookupMembers(t, index);
    assert Slot(index, b) in t && Tracks(log, b);
    var text := DeltaText(b.value.kind, delta);
    if text.Some? {
      EmitDeltaTracks(log, b, origin, index, text.value);
      var (b1, m) := Emit(Grown(b, text.value), origin, index, if b.revision == 0 then Open else Append, text);
      BlockChanged(log, t, next, tools, index, b1, next, tools, [m]);
    } else {
      NothingChanged(log, t, next, tools);
    }
  }

  lemma NothingChanged(log: seq<Mutation>, t: Table, next: nat, tools: set<string>)
    requires TableOk(log, t, next, tools) && NodesOk(log, next, tools)
    ensures Changed(log, t, next, tools, t, next, tools, [])
  {
    hide Project, Chain, Tracks, NodesOk;
    assert log + [] == log;
    assert forall s | s in t :: HasId(t, s.block.id);
  }

  lemma EventChanged(log: seq<Mutation>, t: Table, next: nat, tools: set<string>, parses: Parses, origin: Origin,
                     event: Event)
    requires TableOk(log, t, next, tools) && NodesOk(log, next, tools) && StartedTool(event) !! tools
    ensures var (t1, next1, out) := ApplyEvent(t, next, parses, origin, event);
      Changed(log, t, next, tools, t1, next1, tools + StartedTool(event), out)
  {
    hide TableOk, NodesOk, Changed, StartBlock, DeltaBlock, StopSlots, Lookup;
    assert tools + {} == tools;
    match event
    case BlockStart(index, v) =>
      if index.Some? && v.kind != OtherKind {
        StartChanged(log, t, next, tools, origin, index.value, v);
      } else {
        NothingChanged(log, t, next, tools);
      }
    case BlockDelta(index, delta) =>
      if index.Some? && Lookup(t, index.value).Some? {
        DeltaChanged(log, t, next, tools, origin, index.value, Lookup(t, index.value).value, delta);
      } else {
        NothingChanged(log, t, next, tools);
      }
    case BlockStop(_) => StopChanged(log, t, next, tools, parses, origin, event);
    case MessageStop => StopChanged(log, t, next, tools, parses, origin, event);
    case _ => NothingChanged(log, t, next, tools);
  }

  // ---- Assistant snapshots

  /** The tool for which a snapshot item opens a block. */
  function ItemTool(t: Table, v: Value): set<string> {
    if v.kind == ToolKind && Lookup(t, ItemIndex(t, v)).None? then {ToolNative(v)} else {}
  }

  lemma ItemChanged(log: seq<Mutation>, t: Table, next: nat, tools: set<string>, origin: Origin, phase: Phase, v: Value)
    requires TableOk(log, t, next, tools) && NodesOk(log, next, tools) && ItemTool(t, v) !! tools
    ensures var (t1, next1, out) := ApplyItem(t, next, origin, phase, v);
      Changed(log, t, next, tools, t1, next1, tools + ItemTool(t, v), out)
  {
    hide Project, Chain, NodesOk, Put, Lookup, Changed, Used, ItemIndex;
    assert tools + {} == tools;
    if v.kind == OtherKind {
      NothingChanged(log, t, next, tools);
    } else {
      var index, old' := ItemIndex(t, v), ItemBlock(t, next, v);
      var b := Reconciled(old', v, phase);
      var op := if b.revision == 0 then Open else Replace;
      var (b1, m1) := Emit(b, origin, index, op, None);
      var (b2, m2) := Emit(b1, origin, index, Close, None);
      LookupMembers(t, index);
      EmptyChain();
      EmptyFolds();
      if Lookup(t, index).Some? {
        assert Slot(index, old') in t && Tracks(log, old');
        UsedInTable(log, t, next, tools, Slot(index, old'));
      } else {
        NewBlockUnused(log, next, tools, v);
      }
      EmitTwice(log, b, origin, index, op);
      BlockChanged(log, t, next, tools, index, b2, ItemNext(t, next, v), tools + ItemTool(t, v), [m1, m2]);
    }
  }

  lemma UsedInTable(log: seq<Mutation>, t: Table, next: nat, tools: set<string>, s: Slot)
    requires TableOk(log, t, next, tools) && s in t
    ensures Used(s.block.id, next, tools)
  {
  }

  lemma ChangedTwice(log: seq<Mutation>, t: Table, next: nat, tools: set<string>,
                     t1: Table, next1: nat, tools1: set<string>, out1: seq<Mutation>,
                     t2: Table, next2: nat, tools2: set<string>, out2: seq<Mutation>)
    requires Changed(log, t, next, tools, t1, next1, tools1, out1)
    requires Changed(log + out1, t1, next1, tools1, t2, next2, tools2, out2)
    ensures Changed(log, t, next, tools, t2, next2, tools2, out1 + out2)
  {
    hide TableOk, NodesOk;
    assert log + out1 + out2 == log + (out1 + out2);
    forall n | HasId(t1, n) || !Used(n, next1, tools1) ensures HasId(t, n) || !Used(n, next, tools) {}
  }

  /** Each item that opens a tool block names a tool that never had one. */
  predicate FreshItems(t: Table, next: nat, tools: set<string>, origin: Origin, phase: Phase, content: seq<Value>)
    decreases |content|
  {
    content == [] ||
    var (t1, next1, _) := ApplyItem(t, next, origin, phase, content[0]);
    ItemTool(t, content[0]) !! tools
      && FreshItems(t1, next1, tools + ItemTool(t, content[0]), origin, phase, content[1..])
  }

  function ItemTools(t: Table, next: nat, tools: set<string>, origin: Origin, phase: Phase,
                     content: seq<Value>): set<string>
    decreases |content|
  {
    if content == [] then tools
    else
      var (t1, next1, _) := ApplyItem(t, next, origin, phase, content[0]);
      ItemTools(t1, next1, tools + ItemTool(t, content[0]), origin, phase, content[1..])
  }

  lemma {:induction false} ItemsChanged(log: seq<Mutation>, t: Table, next: nat, tools: set<string>,
                                        origin: Origin, phase: Phase, content: seq<Value>)
    requires TableOk(log, t, next, tools) && NodesOk(log, next, tools)
    requires FreshItems(t, next, tools, origin, phase, content)
    ensures var (t1, next1, out) := ApplyItems(t, next, origin, phase, content);
      Changed(log, t, next, tools, t1, next1, ItemTools(t, next, tools, origin, phase, content), out)
    decreases |content|
  {
    hide TableOk, NodesOk, Changed, ApplyItem, ItemTool;
    if content == [] {
      NothingChanged(log, t, next, tools);
    } else {
      var v, rest := content[0], content[1..];
      var (t1, next1, out) := ApplyItem(t, next, origin, phase, v);
      var tools1 := tools + ItemTool(t, v);
      ItemChanged(log, t, next, tools, origin, phase, v);
      ChangedTable(log, t, next, tools, t1, next1, tools1, out);
      ItemsChanged(log + out, t1, next1, tools1, origin, phase, rest);
      var (t2, next2, more) := ApplyItems(t1, next1, origin, phase, rest);
      ChangedTwice(log, t, next, tools, t1, next1, tools1, out,
                   t2, next2, ItemTools(t1, next1, tools1, origin, phase, rest), more);
    }
  }

  // ---- The whole mapper

  ghost predicate Disjoint(t1: Table, t2: Table) { forall n: Id :: !(HasId(t1, n) && HasId(t2, n)) }

  /** Every live block of every message agrees with the log, and no node has two blocks. */
  ghost predicate Inv(s: State, log: seq<Mutation>, tools: set<string>) {
    && (forall o | o in s.tables :: TableOk(log, s.tables[o], s.next, tools))
    && (forall o1, o2 | o1 in s.tables && o2 in s.tables && o1 != o2 :: Disjoint(s.tables[o1], s.tables[o2]))
    && NodesOk(log, s.next, tools)
  }

  lemma OtherTable(log: seq<Mutation>, t: Table, next: nat, tools: set<string>, t1: Table, next1: nat,
                   tools1: set<string>,
                   out: seq<Mutation>, other: Table)
    requires Changed(log, t, next, tools, t1, next1, tools1, out)
    requires TableOk(log, other, next, tools) && Disjoint(t, other)
    ensures TableOk(log + out, other, next1, tools1) && Disjoint(t1, other)
  {
    hide NodesOk, Tracks;
    forall s | s in other ensures Tracks(log + out, s.block) {
      assert HasId(other, s.block.id) && Used(s.block.id, next, tools);
      TracksFrame(log, out, s.block);
    }
  }

  lemma TableReplaced(s: State, log: seq<Mutation>, tools: set<string>, o: Origin, t1: Table, s1: State,
                      tools1: set<string>, out: seq<Mutation>)
    requires Inv(s, log, tools) && Changed(log, TableOf(s, o), s.next, tools, t1, s1.next, tools1, out)
    requires s1.tables == s.tables[o := t1]
    ensures Inv(s1, log + out, tools1)
  {
    hide NodesOk, TableOk, Disjoint;
    ChangedTable(log, TableOf(s, o), s.next, tools, t1, s1.next, tools1, out);
    forall o2 | o2 in s.tables && o2 != o
      ensures TableOk(log + out, s.tables[o2], s1.next, tools1)
      ensures Disjoint(t1, s.tables[o2]) && Disjoint(s.tables[o2], t1)
    {
      if o !in s.tables {
        EmptyDisjoint(s.tables[o2]);
      }
      OtherTable(log, TableOf(s, o), s.next, tools, t1, s1.next, tools1, out, s.tables[o2]);
      DisjointSymmetric(t1, s.tables[o2]);
    }
  }

  lemma EmptyDisjoint(t: Table)
    ensures Disjoint([], t)
  {
  }

  lemma DisjointSymmetric(a: Table, b: Table)
    requires Disjoint(a, b)
    ensures Disjoint(b, a)
  {
  }

  lemma OwnTable(s: State, log: seq<Mutation>, tools: set<string>, o: Origin)
    requires Inv(s, log, tools)
    ensures TableOk(log, TableOf(s, o), s.next, tools) && NodesOk(log, s.next, tools)
  {
    hide NodesOk, Tracks;
  }

  /** The tools for which a frame opens blocks all had none before. */
  predicate FreshFrame(s: State, tools: set<string>, frame: Frame) {
    match frame
    case StreamFrame(parent, event) => parent in s.active ==> StartedTool(event) !! tools
    case AssistantFrame(parent, uuid, messageId, content) =>
      var native := if messageId.Some? then messageId else uuid;
      (uuid.Some? && uuid.value in s.snapshots) || native.None? ||
      var t := TableOf(s, Origin(parent, native.value));
      FreshItems(t, s.next, tools, Origin(parent, native.value), FramePhase(t, content), content)
  }

  function FrameTools(s: State, tools: set<string>, frame: Frame): set<string> {
    match frame
    case StreamFrame(parent, event) => if parent in s.active then tools + StartedTool(event) else tools
    case AssistantFrame(parent, uuid, messageId, content) =>
      var native := if messageId.Some? then messageId else uuid;
      if (uuid.Some? && uuid.value in s.snapshots) || native.None? then tools
      else
        var t := TableOf(s, Origin(parent, native.value));
        ItemTools(t, s.next, tools, Origin(parent, native.value), FramePhase(t, content), content)
  }

  lemma FrameKeeps(s: State, log: seq<Mutation>, tools: set<string>, parses: Parses, frame: Frame)
    requires Inv(s, log, tools) && FreshFrame(s, tools, frame)
    ensures Inv(MapFrame(s, parses, frame).0, log + MapFrame(s, parses, frame).1, FrameTools(s, tools, frame))
  {
    hide TableOk, NodesOk, Changed, ApplyEvent, ApplyItems, FreshItems, ItemTools, TableOf, FramePhase, Inv;
    assert log + [] == log && tools + {} == tools;
    var (s1, out) := MapFrame(s, parses, frame);
    match frame
    case StreamFrame(parent, event) =>
      if event.MessageStart? || event.MessageDelta? {
        SameTables(s, s1, log, tools);
      } else if parent in s.active {
        var o := Origin(parent, s.active[parent]);
        OwnTable(s, log, tools, o);
        EventChanged(log, TableOf(s, o), s.next, tools, parses, o, event);
        TableReplaced(s, log, tools, o, ApplyEvent(TableOf(s, o), s.next, parses, o, event).0, s1,
                      tools + StartedTool(event), out);
      }
    case AssistantFrame(parent, uuid, messageId, content) =>
      var native := if messageId.Some? then messageId else uuid;
      if !((uuid.Some? && uuid.value in s.snapshots) || native.None?) {
        var o := Origin(parent, native.value);
        var t := TableOf(s, o);
        OwnTable(s, log, tools, o);
        ItemsChanged(log, t, s.next, tools, o, FramePhase(t, content), content);
        TableReplaced(s, log, tools, o, ApplyItems(t, s.next, o, FramePhase(t, content), content).0, s1,
                      ItemTools(t, s.next, tools, o, FramePhase(t, content), content), out);
      }
  }

  lemma SameTables(s: State, s1: State, log: seq<Mutation>, tools: set<string>)
    requires Inv(s, log, tools) && s1.tables == s.tables && s1.next == s.next
    ensures Inv(s1, log, tools)
  {
    hide TableOk, NodesOk, Disjoint;
  }

  predicate FreshFrames(s: State, parses: Parses, tools: set<string>, frames: seq<Frame>)
    decreases |frames|
  {
    frames == [] ||
    (FreshFrame(s, tools, frames[0])
     && FreshFrames(MapFrame(s, parses, frames[0]).0, parses, FrameTools(s, tools, frames[0]), frames[1..]))
  }

  function FramesTools(s: State, parses: Parses, tools: set<string>, frames: seq<Frame>): set<string>
    decreases |frames|
  {
    if frames == [] then tools
    else FramesTools(MapFrame(s, parses, frames[0]).0, parses, FrameTools(s, tools, frames[0]), frames[1..])
  }

  lemma {:induction false} FramesKeep(s: State, log: seq<Mutation>, tools: set<string>, parses: Parses,
                                      frames: seq<Frame>)
    requires Inv(s, log, tools) && FreshFrames(s, parses, tools, frames)
    ensures Inv(MapFrames(s, parses, frames).0, log + MapFrames(s, parses, frames).1, FramesTools(s, parses, tools,
      frames))
    decreases |frames|
  {
    hide Inv, MapFrame, FreshFrame, FrameTools;
    if frames == [] {
      assert log + [] == log;
    } else {
      var (s1, out) := MapFrame(s, parses, frames[0]);
      FrameKeeps(s, log, tools, parses, frames[0]);
      FramesKeep(s1, log + out, FrameTools(s, tools, frames[0]), parses, frames[1..]);
      var more := MapFrames(s1, parses, frames[1..]).1;
      assert log + out + more == log + (out + more);
    }
  }

  lemma EmptyInv()
    ensures Inv(EmptyState, [], {})
  {
  }

  /** Over any run that opens no second block for a tool: each node's mutations
      are one chain of revisions, and folding them gives each live block: its text
      or thinking, and for a tool its name, its input and its streamed input. */
  lemma RevisionsAndFolds(parses: Parses, frames: seq<Frame>)
    requires FreshFrames(EmptyState, parses, {}, frames)
    ensures var (s, out) := MapFrames(EmptyState, parses, frames);
      && (forall n: Id :: Chain(Project(out, n)))
      && (forall o, slot | o in s.tables && slot in s.tables[o] :: Follows(Project(out, slot.block.id), slot.block))
  {
    hide FreshFrames, MapFrames, Project, Follows, Chain;
    EmptyInv();
    FramesKeep(EmptyState, [], {}, parses, frames);
    var (s, out) := MapFrames(EmptyState, parses, frames);
    assert [] + out == out;
    forall o, slot | o in s.tables && slot in s.tables[o] ensures Tracks(out, slot.block) {}
  }

  // ---- The assumption, exactly

  lemma BrokenStays(log: seq<Mutation>, more: seq<Mutation>, n: Id)
    requires !Chain(Project(log, n))
    ensures !Chain(Project(log + more, n))
  {
    hide Project;
    ProjectConcat(log, more, n);
    var ms, all := Project(log, n), Project(log + more, n);
    assert forall i | 0 <= i < |ms| :: all[i] == ms[i];
  }

  /** A second block for a tool restarts its node at revision 1. */
  lemma RestartBreaks(log: seq<Mutation>, next: nat, tools: set<string>, native: string, m: Mutation,
                      rest: seq<Mutation>)
    requires NodesOk(log, next, tools) && native in tools && m.node == Tool(native) && m.revision == 1
    ensures !Chain(Project(log + ([m] + rest), Tool(native)))
  {
    hide Project;
    var n := Tool(native);
    ProjectConcat(log, [m], n);
    ProjectAll([m], n);
    var ms := Project(log, n);
    assert Project(log + [m], n)[|ms|] == m;
    BrokenStays(log + [m], rest, n);
    assert log + [m] + rest == log + ([m] + rest);
  }

  /** One tool id in two block starts of one message: both open its node at revision 1. */
  lemma SecondBlockRestarts(parses: Parses, parent: Option<string>, message: string, v: Value)
    requires v.kind == ToolKind
    ensures var frames := [StreamFrame(parent, MessageStart(Some(message))),
                           StreamFrame(parent, BlockStart(Some(0), v)), StreamFrame(parent, BlockStart(Some(1), v))];
      var ms := Project(MapFrames(EmptyState, parses, frames).1, Tool(ToolNative(v)));
      && |ms| == 2 && ms[0].revision == 1 && ms[1].revision == 1 && ms[1].op == Open && !Chain(ms)
  {
    hide Put, PayloadOf;
    var first, second := StreamFrame(parent, BlockStart(Some(0), v)), StreamFrame(parent, BlockStart(Some(1), v));
    var s1 := EmptyState.(active := map[parent := message]);
    var (s2, out2) := MapFrame(s1, parses, first);
    var (s3, out3) := MapFrame(s2, parses, second);
    StartEmits(s1, parses, parent, 0, v);
    StartEmits(s2, parses, parent, 1, v);
    TwoFrames(s1, parses, first, second);
    var frames := [StreamFrame(parent, MessageStart(Some(message))), first, second];
    assert frames[1..] == [first, second] && MapFrame(EmptyState, parses, frames[0]) == (s1, []);
    assert MapFrames(EmptyState, parses, frames).1 == [] + MapFrames(s1, parses, [first, second]).1;
    var out := MapFrames(EmptyState, parses, frames).1;
    assert out == out2 + out3 && out == [out2[0], out3[0]];
    ProjectAll(out, Tool(ToolNative(v)));
    assert out[1].revision != 2;
  }

  lemma StartEmits(s: State, parses: Parses, parent: Option<string>, index: U32, v: Value)
    requires v.kind == ToolKind && parent in s.active
    ensures var (s1, out) := MapFrame(s, parses, StreamFrame(parent, BlockStart(Some(index), v)));
      && s1.active == s.active && |out| == 1
      && out[0].node == Tool(ToolNative(v)) && out[0].revision == 1 && out[0].op == Open
  {
    hide Put, PayloadOf;
  }

  lemma TwoFrames(s: State, parses: Parses, first: Frame, second: Frame)
    ensures var (s1, out1) := MapFrame(s, parses, first);
      MapFrames(s, parses, [first, second]).1 == out1 + MapFrame(s1, parses, second).1
  {
    hide MapFrame;
    var s1 := MapFrame(s, parses, first).0;
    var (s2, out) := MapFrame(s1, parses, second);
    assert [first, second][1..] == [second] && [second][1..] == [];
    assert MapFrames(s2, parses, [second][1..]).1 == [];
    assert MapFrames(s1, parses, [second]).1 == out + [];
  }

  ghost predicate AllChained(log: seq<Mutation>) { forall n: Id :: Chain(Project(log, n)) }

  ghost predicate Broken(log: seq<Mutation>) { exists n: Id :: !Chain(Project(log, n)) }

  lemma BrokenOrChained(log: seq<Mutation>)
    ensures Broken(log) <==> !AllChained(log)
  {
  }

  lemma StartBreaks(log: seq<Mutation>, t: Table, next: nat, tools: set<string>, parses: Parses, origin: Origin,
                    event: Event)
    requires NodesOk(log, next, tools) && !(StartedTool(event) !! tools)
    ensures Broken(log + ApplyEvent(t, next, parses, origin, event).2)
  {
    hide Project, Chain, Put, NodesOk;
    var v := event.value;
    var m := Emit(NewBlock(next, v), origin, event.start.value, Open, None).1;
    RestartBreaks(log, next, tools, ToolNative(v), m, []);
    assert [m] + [] == [m];
  }

  lemma ItemBreaks(log: seq<Mutation>, t: Table, next: nat, tools: set<string>, origin: Origin, phase: Phase, v: Value)
    requires NodesOk(log, next, tools) && !(ItemTool(t, v) !! tools)
    ensures Broken(log + ApplyItem(t, next, origin, phase, v).2)
  {
    hide Project, Chain, Put, NodesOk, Lookup, ItemIndex;
    var out := ApplyItem(t, next, origin, phase, v).2;
    RestartBreaks(log, next, tools, ToolNative(v), out[0], [out[1]]);
    assert [out[0]] + [out[1]] == out;
  }

  lemma BrokenExtends(log: seq<Mutation>, more: seq<Mutation>)
    requires Broken(log)
    ensures Broken(log + more)
  {
    hide Project, Chain;
    var n: Id :| !Chain(Project(log, n));
    BrokenStays(log, more, n);
  }

  lemma {:induction false} ItemsBreak(log: seq<Mutation>, t: Table, next: nat, tools: set<string>,
                                      origin: Origin, phase: Phase, content: seq<Value>)
    requires TableOk(log, t, next, tools) && NodesOk(log, next, tools)
    requires !FreshItems(t, next, tools, origin, phase, content)
    ensures Broken(log + ApplyItems(t, next, origin, phase, content).2)
    decreases |content|
  {
    hide TableOk, NodesOk, Changed, ApplyItem, ItemTool, Broken;
    var v, rest := content[0], content[1..];
    var (t1, next1, out) := ApplyItem(t, next, origin, phase, v);
    var more := ApplyItems(t1, next1, origin, phase, rest).2;
    assert log + out + more == log + (out + more);
    if !(ItemTool(t, v) !! tools) {
      ItemBreaks(log, t, next, tools, origin, phase, v);
      BrokenExtends(log + out, more);
    } else {
      ItemChanged(log, t, next, tools, origin, phase, v);
      ChangedTable(log, t, next, tools, t1, next1, tools + ItemTool(t, v), out);
      ItemsBreak(log + out, t1, next1, tools + ItemTool(t, v), origin, phase, rest);
    }
  }

  lemma FrameBreaks(s: State, log: seq<Mutation>, tools: set<string>, parses: Parses, frame: Frame)
    requires Inv(s, log, tools) && !FreshFrame(s, tools, frame)
    ensures Broken(log + MapFrame(s, parses, frame).1)
  {
    hide TableOk, NodesOk, ApplyEvent, ApplyItems, FreshItems, TableOf, FramePhase, Inv, Broken;
    match frame
    case StreamFrame(parent, event) =>
      var o := Origin(parent, s.active[parent]);
      OwnTable(s, log, tools, o);
      StartBreaks(log, TableOf(s, o), s.next, tools, parses, o, event);
    case AssistantFrame(parent, uuid, messageId, content) =>
      var native := if messageId.Some? then messageId else uuid;
      var o := Origin(parent, native.value);
      var t := TableOf(s, o);
      OwnTable(s, log, tools, o);
      ItemsBreak(log, t, s.next, tools, o, FramePhase(t, content), content);
  }

  lemma {:induction false} FramesBreak(s: State, log: seq<Mutation>, tools: set<string>, parses: Parses,
                                       frames: seq<Frame>)
    requires Inv(s, log, tools) && !FreshFrames(s, parses, tools, frames)
    ensures Broken(log + MapFrames(s, parses, frames).1)
    decreases |frames|
  {
    hide Inv, MapFrame, FreshFrame, FrameTools, Broken;
    var (s1, out) := MapFrame(s, parses, frames[0]);
    var more := MapFrames(s1, parses, frames[1..]).1;
    assert log + out + more == log + (out + more);
    if !FreshFrame(s, tools, frames[0]) {
      FrameBreaks(s, log, tools, parses, frames[0]);
      BrokenExtends(log + out, more);
    } else {
      FrameKeeps(s, log, tools, parses, frames[0]);
      FramesBreak(s1, log + out, FrameTools(s, tools, frames[0]), parses, frames[1..]);
    }
  }

  /** Revisions are chains for every node exactly when no tool that already had a
      block is given another one. */
  lemma RevisionsExact(parses: Parses, frames: seq<Frame>)
    ensures AllChained(MapFrames(EmptyState, parses, frames).1) <==> FreshFrames(EmptyState, parses, {}, frames)
  {
    hide FreshFrames, MapFrames, Project, Chain, Broken;
    var out := MapFrames(EmptyState, parses, frames).1;
    if FreshFrames(EmptyState, parses, {}, frames) {
      RevisionsAndFolds(parses, frames);
    } else {
      EmptyInv();
      FramesBreak(EmptyState, [], {}, parses, frames);
      assert [] + out == out;
      BrokenOrChained(out);
    }
  }
}
