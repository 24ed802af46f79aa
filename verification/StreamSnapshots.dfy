/** Assistant snapshots reconcile with the streamed blocks of their message the
same way however the snapshot is split into frames. */
module StreamSnapshots {
  import opened JsonValue
  import opened Sequences
  import opened StreamMapper
  import opened StreamRevisions

  /** The streamed blocks are, in order, the blocks of the list: same kinds, same
      tool ids, no tool id twice, and no block reconciled yet. */
  predicate Streamed(t: Table, content: seq<Value>) {
    && Ascending(t) && |t| == |content|
    && (forall i | 0 <= i < |t| ::
          && content[i].kind != OtherKind && t[i].block.value.kind == content[i].kind && !t[i].block.reconciled
          && (content[i].kind == ToolKind ==> t[i].block.value.id == content[i].id))
    && (forall i, j | 0 <= i < j < |t| && content[i].kind == ToolKind && content[j].kind == ToolKind ::
          content[i].id != content[j].id)
  }

  /** A block bound to its item: the item's value, closed, two revisions later. */
  function BoundSlot(s: Slot, v: Value, phase: Phase): Slot {
    s.(block := Reconciled(s.block, v, phase).(revision := s.block.revision + 2))
  }

  function BoundOut(s: Slot, v: Value, phase: Phase, origin: Origin): seq<Mutation> {
    var b := Reconciled(s.block, v, phase);
    var (b1, m1) := Emit(b, origin, s.index, if b.revision == 0 then Open else Replace, None);
    [m1, Emit(b1, origin, s.index, Close, None).1]
  }

  /** The table after the first `k` items were bound. */
  function BoundTable(t: Table, content: seq<Value>, phase: Phase, k: nat): (r: Table)
    requires k <= |t| == |content|
    ensures |r| == |t|
    ensures forall i | 0 <= i < |t| :: r[i] == if i < k then BoundSlot(t[i], content[i], phase) else t[i]
  {
    seq(|t|, i requires 0 <= i < |t| => if i < k then BoundSlot(t[i], content[i], phase) else t[i])
  }

  /** The mutations of binding items `j` to `k`. */
  function BoundOuts(t: Table, content: seq<Value>, phase: Phase, origin: Origin, j: nat, k: nat): seq<Mutation>
    requires j <= k <= |t| == |content|
    decreases k - j
  {
    if j == k then [] else BoundOut(t[j], content[j], phase, origin) + BoundOuts(t, content, phase, origin, j + 1, k)
  }

  lemma {:induction false} FirstMatchAt(t: Table, v: Value, k: nat)
    requires k < |t| && Matches(t[k].block, v) && forall i | 0 <= i < k :: !Matches(t[i].block, v)
    ensures FirstMatch(t, v) == Some(t[k].index)
  {
    if k > 0 {
      FirstMatchAt(t[1..], v, k - 1);
    }
  }

  lemma {:induction false} SlotAt(t: Table, k: nat, b: Block)
    requires Ascending(t) && k < |t|
    ensures Lookup(t, t[k].index) == Some(t[k].block)
    ensures Put(t, t[k].index, b) == t[k := Slot(t[k].index, b)]
  {
    if k > 0 {
      SlotAt(t[1..], k - 1, b);
      assert t[k := Slot(t[k].index, b)] == [t[0]] + t[1..][k - 1 := Slot(t[k].index, b)];
    } else {
      assert t[0 := Slot(t[0].index, b)] == [Slot(t[0].index, b)] + t[1..];
    }
  }

  /** The k-th item finds the k-th block, whatever was bound before it. */
  lemma ItemBinds(t: Table, content: seq<Value>, phase: Phase, k: nat, next: nat, origin: Origin)
    requires Streamed(t, content) && k < |t|
    ensures var now := BoundTable(t, content, phase, k);
      && ApplyItem(now, next, origin, phase, content[k]) ==
         (BoundTable(t, content, phase, k + 1), next, BoundOut(t[k], content[k], phase, origin))
      && ItemTool(now, content[k]) == {}
  {
    hide Put, Lookup, FirstMatch;
    var now, v := BoundTable(t, content, phase, k), content[k];
    assert Matches(now[k].block, v);
    forall i | 0 <= i < k ensures !Matches(now[i].block, v) {
      assert now[i] == BoundSlot(t[i], content[i], phase);
    }
    FirstMatchAt(now, v, k);
    assert Ascending(now);
    var bound := BoundSlot(t[k], v, phase);
    SlotAt(now, k, bound.block);
    assert now[k := bound] == BoundTable(t, content, phase, k + 1);
  }

  lemma {:induction false} ItemsBind(t: Table, content: seq<Value>, phase: Phase, j: nat, k: nat, next: nat,
                                     origin: Origin)
    requires Streamed(t, content) && j <= k <= |t|
    ensures ApplyItems(BoundTable(t, content, phase, j), next, origin, phase, content[j..k]) ==
      (BoundTable(t, content, phase, k), next, BoundOuts(t, content, phase, origin, j, k))
    decreases k - j
  {
    hide BoundTable, ApplyItem, BoundOut, Streamed;
    StreamedLength(t, content);
    if j < k {
      assert content[j..k][0] == content[j] && content[j..k][1..] == content[j + 1..k];
      ItemBinds(t, content, phase, j, next, origin);
      ItemsBind(t, content, phase, j + 1, k, next, origin);
    }
  }

  // ---- Any split into frames

  /** Consecutive frames of one message with distinct uuids, none of them seen before. */
  predicate SplitFrames(frames: seq<Frame>, parts: seq<seq<Value>>, origin: Origin, snapshots: set<string>)
    decreases |frames|
  {
    |frames| == |parts| &&
    (frames != [] ==>
       var f := frames[0];
       && f.AssistantFrame? && f.parent == origin.parent && f.messageId == Some(origin.native) && f.content == parts[0]
       && (f.uuid.Some? ==> f.uuid.value !in snapshots)
       && SplitFrames(frames[1..], parts[1..], origin, if f.uuid.Some? then snapshots + {f.uuid.value} else snapshots))
  }

  function SnapshotPhase(t: Table): Phase { if HasTool(t) then Commentary else Final }

  /** Every frame of the split sees a tool exactly when the message has one. */
  lemma SamePhase(t: Table, content: seq<Value>, j: nat, k: nat)
    requires Streamed(t, content) && j <= k <= |t|
    ensures FramePhase(BoundTable(t, content, SnapshotPhase(t), j), content[j..k]) == SnapshotPhase(t)
  {
    var now := BoundTable(t, content, SnapshotPhase(t), j);
    assert forall i | 0 <= i < |t| :: now[i].block.value.kind == t[i].block.value.kind;
    assert HasTool(now) <==> HasTool(t) by {
      if HasTool(t) {
        var i :| 0 <= i < |t| && t[i].block.value.kind == ToolKind;
        assert now[i].block.value.kind == ToolKind;
      }
    }
    if ListsTool(content[j..k]) {
      var i :| 0 <= i < k - j && content[j..k][i].kind == ToolKind;
      assert t[j + i].block.value.kind == ToolKind;
    }
  }

  lemma OneFrame(s: State, parses: Parses, f: Frame, t: Table, content: seq<Value>, j: nat, k: nat, origin: Origin)
    requires Streamed(t, content) && j <= k <= |t| && origin in s.tables
    requires s.tables[origin] == BoundTable(t, content, SnapshotPhase(t), j)
    requires f.AssistantFrame? && f.parent == origin.parent && f.messageId == Some(origin.native)
    requires f.content == content[j..k] && (f.uuid.Some? ==> f.uuid.value !in s.snapshots)
    ensures var (s1, out) := MapFrame(s, parses, f);
      && out == BoundOuts(t, content, SnapshotPhase(t), origin, j, k)
      && s1 == s.(tables := s.tables[origin := BoundTable(t, content, SnapshotPhase(t), k)],
                  snapshots := if f.uuid.Some? then s.snapshots + {f.uuid.value} else s.snapshots)
  {
    hide BoundTable, Streamed, SnapshotPhase, FramePhase, ApplyItems;
    SamePhase(t, content, j, k);
    ItemsBind(t, content, SnapshotPhase(t), j, k, s.next, origin);
    assert origin == Origin(f.parent, f.messageId.value);
  }

  /** However the list is split into frames, item i is bound to block i, no node
      is created, and the mutations are those of the list in one frame. */
  lemma {:induction false} SplitIrrelevant(s: State, parses: Parses, frames: seq<Frame>, parts: seq<seq<Value>>,
                                           t: Table, content: seq<Value>, j: nat, origin: Origin)
    requires Streamed(t, content) && j <= |t| && Flatten(parts) == content[j..]
    requires origin in s.tables && s.tables[origin] == BoundTable(t, content, SnapshotPhase(t), j)
    requires SplitFrames(frames, parts, origin, s.snapshots)
    ensures var (s1, out) := MapFrames(s, parses, frames);
      && out == BoundOuts(t, content, SnapshotPhase(t), origin, j, |t|)
      && s1.tables == s.tables[origin := BoundTable(t, content, SnapshotPhase(t), |t|)]
      && s1.next == s.next && s1.active == s.active
    decreases |frames|
  {
    hide Streamed, SnapshotPhase, MapFrame, BoundTable;
    var phase := SnapshotPhase(t);
    StreamedLength(t, content);
    if frames == [] {
      assert j == |t|;
      assert s.tables[origin := s.tables[origin]] == s.tables;
    } else {
      var k := j + |parts[0]|;
      var rest := Flatten(parts[1..]);
      assert parts[0] == content[j..][..|parts[0]|] && rest == content[j..][|parts[0]|..];
      assert content[j..k] == parts[0] && content[k..] == rest;
      OneFrame(s, parses, frames[0], t, content, j, k, origin);
      var (s1, out) := MapFrame(s, parses, frames[0]);
      SplitIrrelevant(s1, parses, frames[1..], parts[1..], t, content, k, origin);
      OutsJoin(t, content, phase, origin, j, k, |t|);
      assert s.tables[origin := BoundTable(t, content, phase, k)][origin := BoundTable(t, content, phase, |t|)]
          == s.tables[origin := BoundTable(t, content, phase, |t|)];
    }
  }

  lemma {:induction false} OutsJoin(t: Table, content: seq<Value>, phase: Phase, origin: Origin, j: nat, k: nat, n: nat)
    requires j <= k <= n <= |t| == |content|
    ensures BoundOuts(t, content, phase, origin, j, k) + BoundOuts(t, content, phase, origin, k, n)
         == BoundOuts(t, content, phase, origin, j, n)
    decreases k - j
  {
    hide BoundOut;
    if j < k {
      OutsJoin(t, content, phase, origin, j + 1, k, n);
      var first := BoundOut(t[j], content[j], phase, origin);
      var a, b := BoundOuts(t, content, phase, origin, j + 1, k), BoundOuts(t, content, phase, origin, k, n);
      assert first + (a + b) == (first + a) + b;
    }
  }

  // ---- What the consumer then holds

  lemma {:induction false} BoundItemsFresh(t: Table, content: seq<Value>, phase: Phase, j: nat, next: nat,
                                           tools: set<string>, origin: Origin)
    requires Streamed(t, content) && j <= |t|
    ensures FreshItems(BoundTable(t, content, phase, j), next, tools, origin, phase, content[j..])
    ensures ItemTools(BoundTable(t, content, phase, j), next, tools, origin, phase, content[j..]) == tools
    decreases |t| - j
  {
    hide BoundTable, ApplyItem, ItemTool, Streamed;
    StreamedLength(t, content);
    if j < |t| {
      assert content[j..][0] == content[j] && content[j..][1..] == content[j + 1..];
      ItemBinds(t, content, phase, j, next, origin);
      assert tools + {} == tools;
      BoundItemsFresh(t, content, phase, j + 1, next, tools, origin);
    }
  }

  lemma StreamedLength(t: Table, content: seq<Value>)
    requires Streamed(t, content)
    ensures |t| == |content|
  {
  }

  /** The consumer's fold of a node's mutations is the listed value: its kind, its
      text or thinking, and for a tool its name and input. */
  predicate FoldsTo(ms: seq<Mutation>, v: Value) {
    && ms != [] && FoldText(ms) == ValueText(v)
    && var p := ms[|ms| - 1].payload;
       match v.kind
       case TextKind => p.Message?
       case ThinkingKind => p.Thought? && !p.redacted
       case RedactedKind => p.Thought? && p.redacted
       case _ => p.ToolCall? && p.name == v.name.GetOr("") && p.input == InputOf(v)
  }

  /** After the snapshot the consumer's fold of every node, tools included, is the
      list's value. */
  lemma SnapshotFolds(s: State, log: seq<Mutation>, tools: set<string>, parses: Parses, frames: seq<Frame>,
                      parts: seq<seq<Value>>, content: seq<Value>, origin: Origin)
    requires Inv(s, log, tools) && origin in s.tables && Streamed(s.tables[origin], content) &&
      Flatten(parts) == content
    requires SplitFrames(frames, parts, origin, s.snapshots)
    ensures var t := s.tables[origin];
      var (s1, out) := MapFrames(s, parses, frames);
      && origin in s1.tables && |s1.tables[origin]| == |t| && s1.next == s.next
      && forall i | 0 <= i < |t| ::
        && s1.tables[origin][i].block.id == t[i].block.id && s1.tables[origin][i].block.value == content[i]
        && FoldsTo(Project(log + out, t[i].block.id), content[i])
  {
    hide Inv, Streamed, SnapshotPhase, SplitFrames, MapFrames, Flatten, FoldText, Project, FreshItems, ItemTools,
      ApplyItems;
    var t := s.tables[origin];
    var phase := SnapshotPhase(t);
    StreamedLength(t, content);
    assert content[0..] == content && content[0..|t|] == content && BoundTable(t, content, phase, 0) == t;
    SplitIrrelevant(s, parses, frames, parts, t, content, 0, origin);
    ItemsBind(t, content, phase, 0, |t|, s.next, origin);
    BoundItemsFresh(t, content, phase, 0, s.next, tools, origin);
    OwnTable(s, log, tools, origin);
    ItemsChanged(log, t, s.next, tools, origin, phase, content);
    var out := MapFrames(s, parses, frames).1;
    var t1 := BoundTable(t, content, phase, |t|);
    ChangedTable(log, t, s.next, tools, t1, s.next, tools, out);
    forall i | 0 <= i < |t| ensures FoldsTo(Project(log + out, t[i].block.id), content[i]) {
      assert t1[i] in t1 && t1[i] == BoundSlot(t[i], content[i], phase);
      TracksValue(log + out, t1[i].block);
    }
  }

  lemma TracksValue(log: seq<Mutation>, b: Block)
    requires Tracks(log, b) && b.revision > 0 && b.closed
    ensures FoldsTo(Project(log, b.id), b.value)
  {
    hide FoldText, Project;
  }
}
