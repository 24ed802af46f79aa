/** The stdin writer: callers enqueue into one bounded queue and a single task
writes the commands, acknowledging user turns once their line is written. */
module StdinWriter {
  import opened Sequences
  import opened Utf8
  import opened LineCodec

  const QUEUE_CAPACITY: nat := 64

  datatype Command = Message(payload: seq<Byte>) | UserWrite(payload: seq<Byte>) | Close

  /** What the pipe did with one line: all of it written, an error after some
      bytes, or the writer aborted after some bytes. */
  datatype Io = Done | Failed(upTo: nat) | Aborted(upTo: nat)

  datatype Ack = WriteOk | WriteError

  /** A command with its place in the order of acceptance. */
  datatype Queued = Queued(ordinal: nat, command: Command)

  /** A call that waits for room; calls are numbered as they are made. */
  datatype Call = Call(number: nat, command: Command)

  datatype Admission = Accepted(ordinal: nat) | Waits(number: nat) | StdinClosed

  /** `calls` counts the calls made, `next` those accepted; `gone` are the callers
      that no longer wait for their acknowledgement. */
  datatype State = State(waiting: seq<Call>, calls: nat, queue: seq<Queued>, next: nat, wire: seq<Byte>,
                         acks: map<nat, Ack>, gone: set<nat>, running: bool)

  const Spawned := State([], 0, [], 0, [], map[], {}, true)

  datatype Op =
    | Enqueue(command: Command)  // a call
    | Admit                      // the first waiting call finds room
    | Abandon(number: nat)       // a waiting caller is dropped
    | Take(io: Io)               // the writer takes a command
    | DropCaller(caller: nat)    // a caller no longer waits for its acknowledgement

  // ---- The steps

  function Accept(s: State, c: Command): State {
    s.(queue := s.queue + [Queued(s.next, c)], next := s.next + 1)
  }

  /** A call is accepted at once only when there is room and nobody waits before it. */
  predicate HasRoom(s: State) { s.waiting == [] && |s.queue| < QUEUE_CAPACITY }

  function Called(s: State, c: Command): (State, Admission) {
    var s1 := s.(calls := s.calls + 1);
    if !s.running then (s1, StdinClosed)
    else if HasRoom(s) then (Accept(s1, c), Accepted(s.next))
    else (s1.(waiting := s.waiting + [Call(s.calls, c)]), Waits(s.calls))
  }

  predicate CanAdmit(s: State) { s.running && s.waiting != [] && |s.queue| < QUEUE_CAPACITY }

  function Admitted(s: State): State {
    if CanAdmit(s) then Accept(s.(waiting := s.waiting[1..]), s.waiting[0].command) else s
  }

  function Without(waiting: seq<Call>, number: nat): seq<Call> {
    if waiting == [] then []
    else (if waiting[0].number == number then [] else [waiting[0]]) + Without(waiting[1..], number)
  }

  /** An acknowledgement nobody waits for is discarded. */
  function Acked(s: State, q: Queued, ack: Ack): map<nat, Ack> {
    if q.command.UserWrite? && q.ordinal !in s.gone then s.acks[q.ordinal := ack] else s.acks
  }

  function Cut(payload: seq<Byte>, upTo: nat): seq<Byte> {
    var line := EncodeLine(payload);
    if upTo < |line| then line[..upTo] else line
  }

  /** The queue is dropped, and calls that wait for room in it fail. */
  function Stopped(s: State): State { s.(running := false, queue := [], waiting := []) }

  /** The writer takes one command. */
  function Handled(s: State, q: Queued, io: Io): State {
    if q.command.Close? then Stopped(s)
    else
      match io
      case Done => s.(wire := s.wire + EncodeLine(q.command.payload), acks := Acked(s, q, WriteOk))
      case Failed(n) => Stopped(s.(wire := s.wire + Cut(q.command.payload, n), acks := Acked(s, q, WriteError)))
      case Aborted(n) => Stopped(s.(wire := s.wire + Cut(q.command.payload, n)))
  }

  function Taken(s: State, io: Io): State {
    if !s.running || s.queue == [] then s
    else Handled(s.(queue := s.queue[1..]), s.queue[0], io)
  }

  function Apply(s: State, op: Op): State {
    match op
    case Enqueue(c) => Called(s, c).0
    case Admit => Admitted(s)
    case Abandon(n) => s.(waiting := Without(s.waiting, n))
    case Take(io) => Taken(s, io)
    case DropCaller(i) => s.(gone := s.gone + {i})
  }

  function Run(s: State, ops: seq<Op>): State
    decreases |ops|
  {
    if ops == [] then s else Run(Apply(s, ops[0]), ops[1..])
  }

  /** The call a step accepts, if any. */
  function AcceptedBy(s: State, op: Op): seq<Call> {
    if op.Enqueue? && Called(s, op.command).1.Accepted? then [Call(s.calls, op.command)]
    else if op.Admit? && CanAdmit(s) then [s.waiting[0]]
    else []
  }

  /** The calls a run accepts, in order. */
  function AcceptedIn(s: State, ops: seq<Op>): seq<Call>
    decreases |ops|
  {
    if ops == [] then [] else AcceptedBy(s, ops[0]) + AcceptedIn(Apply(s, ops[0]), ops[1..])
  }

  /** The writer loop over what is queued, one outcome per command. */
  function Drained(s: State, ios: seq<Io>): State
    decreases |ios|
  {
    if ios == [] then s else Drained(Taken(s, ios[0]), ios[1..])
  }

  class ProcessWriter {
    var waiting: seq<Call>
    var calls: nat
    var queue: seq<Queued>
    var next: nat
    var wire: seq<Byte>
    var acks: map<nat, Ack>
    var gone: set<nat>
    var running: bool

    ghost function Abstract(): State reads this { State(waiting, calls, queue, next, wire, acks, gone, running) }

    constructor ()
      ensures Abstract() == Spawned
    {
      waiting, calls, queue, next := [], 0, [], 0;
      wire, acks, gone, running := [], map[], {}, true;
    }

    method Send(c: Command) returns (r: Admission)
      modifies this
      ensures (Abstract(), r) == Called(old(Abstract()), c)
    {
      var number := calls;
      calls := calls + 1;
      if !running {
        return StdinClosed;
      }
      if waiting != [] || |queue| >= QUEUE_CAPACITY {
        waiting := waiting + [Call(number, c)];
        return Waits(number);
      }
      r := Accepted(next);
      queue := queue + [Queued(next, c)];
      next := next + 1;
    }

    method AdmitWaiting()
      modifies this
      ensures Abstract() == Admitted(old(Abstract()))
    {
      if running && waiting != [] && |queue| < QUEUE_CAPACITY {
        queue := queue + [Queued(next, waiting[0].command)];
        next := next + 1;
        waiting := waiting[1..];
      }
    }

    method HandleWriterCmd(q: Queued, io: Io) returns (keepGoing: bool)
      requires running
      modifies this
      ensures keepGoing == Handled(old(Abstract()), q, io).running
      ensures (if keepGoing then Abstract() else Stopped(Abstract())) == Handled(old(Abstract()), q, io)
      ensures queue == old(queue) && waiting == old(waiting) && running
    {
      match q.command
      case Close =>
        keepGoing := false;
      case Message(payload) =>
        keepGoing := WriteLine(payload, io);
      case UserWrite(payload) =>
        keepGoing := WriteLine(payload, io);
        if !io.Aborted? && q.ordinal !in gone {
          acks := acks[q.ordinal := if keepGoing then WriteOk else WriteError];
        }
    }

    method WriteLine(payload: seq<Byte>, io: Io) returns (ok: bool)
      modifies this`wire
      ensures ok == io.Done?
      ensures wire == old(wire) + if io.Done? then EncodeLine(payload) else Cut(payload, io.upTo)
    {
      var line := EncodeLine(payload);
      ok := io.Done?;
      if !ok && io.upTo < |line| {
        line := line[..io.upTo];
      }
      wire := wire + line;
    }

    method WriterTask(ios: seq<Io>)
      modifies this
      ensures Abstract() == Drained(old(Abstract()), ios)
    {
      hide Handled;
      var i := 0;
      while i < |ios| && running && queue != []
        invariant i <= |ios|
        invariant Drained(Abstract(), ios[i..]) == Drained(old(Abstract()), ios)
      {
        assert ios[i..][1..] == ios[i + 1..];
        ghost var before := Abstract();
        var q := queue[0];
        queue := queue[1..];
        var keepGoing := HandleWriterCmd(q, ios[i]);
        if !keepGoing {
          running := false;
          queue, waiting := [], [];
        }
        assert Abstract() == Taken(before, ios[i]);
        i := i + 1;
      }
      IdleDrains(Abstract(), ios[i..]);
    }
  }

  lemma {:induction false} IdleDrains(s: State, ios: seq<Io>)
    requires ios == [] || !s.running || s.queue == []
    ensures Drained(s, ios) == s
    decreases |ios|
  {
    if ios != [] {
      IdleDrains(s, ios[1..]);
    }
  }

  // ---- FIFO

  /** The lines of the first `k` commands, in the order of acceptance. */
  function Written(a: seq<Command>, k: nat): seq<Byte>
    requires k <= |a|
  {
    if k == 0 then []
    else Written(a, k - 1) + if a[k - 1].Close? then [] else EncodeLine(a[k - 1].payload)
  }

  function Pending(a: seq<Command>, k: nat): (queue: seq<Queued>)
    requires k <= |a|
    ensures |queue| == |a| - k && forall i | 0 <= i < |queue| :: queue[i] == Queued(k + i, a[k + i])
    decreases |a| - k
  {
    if k == |a| then [] else [Queued(k, a[k])] + Pending(a, k + 1)
  }

  predicate NoClose(a: seq<Command>, k: nat) { k <= |a| && forall i | 0 <= i < k :: !a[i].Close? }

  /** An Ok acknowledgement was sent for exactly the user turns among the first
      `k` whose caller was still there. */
  ghost predicate AcksOk(s: State, a: seq<Command>, k: nat)
    requires k <= |a|
  {
    && (forall i | i in s.acks && s.acks[i] == WriteOk :: i < k && a[i].UserWrite?)
    && (forall i | 0 <= i < k && a[i].UserWrite? && i !in s.gone :: i in s.acks && s.acks[i] == WriteOk)
  }

  /** The first `k` accepted commands are on the wire, whole and in order, and
      nothing else but `partial`. A running writer has the rest queued; a stopped
      one stopped at command `k`, which was a close or a line cut short. */
  ghost predicate Fifo(s: State, a: seq<Command>, k: nat, partial: seq<Byte>) {
    && NoClose(a, k) && s.next == |a| && s.wire == Written(a, k) + partial && AcksOk(s, a, k)
    && if s.running then
         partial == [] && s.queue == Pending(a, k) && forall i | i in s.acks :: s.acks[i] == WriteOk
       else
         && s.queue == [] && s.waiting == [] && k < |a|
         && (forall i | i in s.acks && s.acks[i] == WriteError :: i == k && a[k].UserWrite?)
         && if a[k].Close? then partial == [] else partial <= EncodeLine(a[k].payload)
  }

  lemma {:induction false} WrittenExtends(a: seq<Command>, c: Command, k: nat)
    requires k <= |a|
    ensures Written(a + [c], k) == Written(a, k)
  {
    if k > 0 {
      WrittenExtends(a, c, k - 1);
    }
  }

  lemma AcceptKeeps(s: State, a: seq<Command>, k: nat, c: Command)
    requires Fifo(s, a, k, []) && s.running
    ensures Fifo(Accept(s, c), a + [c], k, [])
  {
    hide Written, Pending;
    WrittenExtends(a, c, k);
    var queue := Pending(a + [c], k);
    assert queue == s.queue + [Queued(s.next, c)];
  }

  /** Taking command `k`: the writer goes on exactly after a whole line, a line cut
      short leaves exactly the bytes the pipe took, and exactly a user turn whose
      caller waits is told, that it was written or that it failed. */
  lemma WriteKeeps(s: State, a: seq<Command>, k: nat, io: Io) returns (k': nat, partial: seq<Byte>)
    requires Fifo(s, a, k, []) && s.running && k < |a|
    ensures Fifo(Taken(s, io), a, k', partial)
    ensures Taken(s, io).running <==> !a[k].Close? && io.Done?
    ensures k' == if Taken(s, io).running then k + 1 else k
    ensures a[k].Close? || io.Done? ==> partial == []
    ensures !a[k].Close? && !io.Done? ==>
      var line := a[k].payload + [10];
      partial == if io.upTo < |line| then line[..io.upTo] else line
    ensures Taken(s, io).acks ==
      if a[k].UserWrite? && k !in s.gone && !io.Aborted? then s.acks[k := if io.Done? then WriteOk else WriteError]
      else s.acks
  {
    hide Pending;
    var rest := Pending(a, k + 1);
    assert s.queue[0] == Queued(k, a[k]) && s.queue[1..] == rest;
    if a[k].Close? {
      k', partial := k, [];
    } else if io.Done? {
      k', partial := k + 1, [];
      assert Written(a, k + 1) + [] == s.wire + EncodeLine(a[k].payload);
    } else {
      k', partial := k, Cut(a[k].payload, io.upTo);
      assert Written(a, k) + [] == Written(a, k);
    }
  }

  function Commands(calls: seq<Call>): (cs: seq<Command>)
    ensures |cs| == |calls| && forall i | 0 <= i < |calls| :: cs[i] == calls[i].command
  {
    seq(|calls|, i requires 0 <= i < |calls| => calls[i].command)
  }

  /** Calls and waiting callers do not touch what is queued or written. */
  lemma FrameKeeps(s: State, s1: State, a: seq<Command>, k: nat, partial: seq<Byte>)
    requires Fifo(s, a, k, partial)
    requires s1.queue == s.queue && s1.next == s.next && s1.wire == s.wire && s1.acks == s.acks &&
      s1.running == s.running
    requires s.gone <= s1.gone && (!s.running ==> s1.waiting == [])
    ensures Fifo(s1, a, k, partial)
  {
    hide Written, Pending;
  }

  lemma StepKeeps(s: State, a: seq<Command>, k: nat, partial: seq<Byte>, op: Op) returns (k': nat, partial': seq<Byte>)
    requires Fifo(s, a, k, partial)
    ensures k <= k' && Fifo(Apply(s, op), a + Commands(AcceptedBy(s, op)), k', partial')
  {
    hide Written, Pending, Handled, AcksOk, NoClose;
    k', partial' := k, partial;
    assert a + [] == a && Commands([]) == [];
    match op
    case Enqueue(c) =>
      var s1 := s.(calls := s.calls + 1);
      FrameKeeps(s, s1, a, k, partial);
      if s.running && HasRoom(s) {
        AcceptKeeps(s1, a, k, c);
        assert Commands([Call(s.calls, c)]) == [c];
      } else {
        FrameKeeps(s, Apply(s, op), a, k, partial);
      }
    case Admit =>
      if CanAdmit(s) {
        var c := s.waiting[0].command;
        FrameKeeps(s, s.(waiting := s.waiting[1..]), a, k, partial);
        AcceptKeeps(s.(waiting := s.waiting[1..]), a, k, c);
        assert Commands([s.waiting[0]]) == [c];
      }
    case Abandon(_) => FrameKeeps(s, Apply(s, op), a, k, partial);
    case Take(io) =>
      if s.running && s.queue != [] {
        k', partial' := WriteKeeps(s, a, k, io);
      }
    case DropCaller(_) => FrameKeeps(s, Apply(s, op), a, k, partial);
  }

  /** In every reachable state the wire holds the accepted commands in order, cut
      at the first close or failed write. */
  lemma {:induction false} WireIsAcceptedOrder(s: State, a: seq<Command>, k: nat, partial: seq<Byte>, ops: seq<Op>)
    returns (k': nat, partial': seq<Byte>)
    requires Fifo(s, a, k, partial)
    ensures k <= k' && Fifo(Run(s, ops), a + Commands(AcceptedIn(s, ops)), k', partial')
    decreases |ops|
  {
    hide Fifo, Apply, AcceptedBy;
    if ops == [] {
      k', partial' := k, partial;
      assert a + [] == a;
    } else {
      var k1, partial1 := StepKeeps(s, a, k, partial, ops[0]);
      var s1, more := Apply(s, ops[0]), AcceptedBy(s, ops[0]);
      var later := AcceptedIn(s1, ops[1..]);
      k', partial' := WireIsAcceptedOrder(s1, a + Commands(more), k1, partial1, ops[1..]);
      assert Commands(more + later) == Commands(more) + Commands(later);
      AppendAssociates(a, Commands(more), Commands(later));
    }
  }

  predicate AllDone(ops: seq<Op>) { forall i | 0 <= i < |ops| && ops[i].Take? :: ops[i].io == Done }

  /** A run in which the pipe takes every line and nobody closes it: the writer still
      runs, what is no longer queued is on the wire whole, and every user turn among it
      whose caller waits was told so. */
  lemma {:induction false} GoodRunWritesAll(s: State, a: seq<Command>, k: nat, ops: seq<Op>) returns (k': nat)
    requires Fifo(s, a, k, []) && s.running && AllDone(ops)
    requires var all := a + Commands(AcceptedIn(s, ops)); NoClose(all, |all|)
    ensures var all, end := a + Commands(AcceptedIn(s, ops)), Run(s, ops);
      && end.running && k' == |all| - |end.queue| && end.wire == Written(all, k')
      && forall i | 0 <= i < k' && all[i].UserWrite? && i !in end.gone :: i in end.acks && end.acks[i] == WriteOk
    decreases |ops|
  {
    hide Fifo, Apply, AcceptedBy, Written;
    if ops == [] {
      k' := k;
      assert a + [] == a;
      RunningFifo(s, a, k);
    } else {
      var op, rest := ops[0], ops[1..];
      var s1, more := Apply(s, op), AcceptedBy(s, op);
      var a1, later := a + Commands(more), AcceptedIn(s1, rest);
      assert Commands(more + later) == Commands(more) + Commands(later);
      AppendAssociates(a, Commands(more), Commands(later));
      var all := a1 + Commands(later);
      assert forall i | 0 <= i < |a| :: all[i] == a[i];
      assert NoClose(a, |a|);
      var k1 := DoneKeepsRunning(s, a, k, op);
      assert forall i | 0 <= i < |rest| :: rest[i] == ops[i + 1];
      k' := GoodRunWritesAll(s1, a1, k1, rest);
    }
  }

  lemma RunningFifo(s: State, a: seq<Command>, k: nat)
    requires Fifo(s, a, k, []) && s.running
    ensures k == |a| - |s.queue| && s.wire == Written(a, k)
    ensures forall i | 0 <= i < k && a[i].UserWrite? && i !in s.gone :: i in s.acks && s.acks[i] == WriteOk
  {
    hide Written, Pending;
    assert Written(a, k) + [] == Written(a, k);
  }

  lemma DoneKeepsRunning(s: State, a: seq<Command>, k: nat, op: Op) returns (k1: nat)
    requires Fifo(s, a, k, []) && s.running && NoClose(a, |a|) && (op.Take? ==> op.io == Done)
    ensures Apply(s, op).running && Fifo(Apply(s, op), a + Commands(AcceptedBy(s, op)), k1, [])
  {
    hide Written, Pending, AcksOk, Handled;
    var partial: seq<Byte>;
    if op.Take? && s.queue != [] {
      k1, partial := WriteKeeps(s, a, k, op.io);
      assert a + Commands([]) == a;
    } else {
      k1, partial := StepKeeps(s, a, k, [], op);
      assert Apply(s, op).running;
    }
  }

  /** As many takes as there are commands queued leave none, and all of them written. */
  lemma {:induction false} DrainWritesAll(s: State, a: seq<Command>, k: nat, ios: seq<Io>)
    requires Fifo(s, a, k, []) && s.running && NoClose(a, |a|)
    requires |s.queue| <= |ios| && forall i | 0 <= i < |ios| :: ios[i] == Done
    ensures var end := Drained(s, ios); end.running && end.queue == [] && end.wire == Written(a, |a|)
    decreases |ios|
  {
    hide Fifo, Taken, Written;
    RunningFifo(s, a, k);
    if s.queue == [] {
      IdleDrains(s, ios);
    } else {
      var k1, partial := WriteKeeps(s, a, k, ios[0]);
      var s1 := Taken(s, ios[0]);
      RunningFifo(s1, a, k1);
      DrainWritesAll(s1, a, k1, ios[1..]);
    }
  }

  function AcceptedSince(ops: seq<Op>): seq<Command> { Commands(AcceptedIn(Spawned, ops)) }

  lemma FromSpawn(ops: seq<Op>) returns (k: nat, partial: seq<Byte>)
    ensures Fifo(Run(Spawned, ops), AcceptedSince(ops), k, partial)
  {
    assert Fifo(Spawned, [], 0, []);
    k, partial := WireIsAcceptedOrder(Spawned, [], 0, [], ops);
    assert [] + AcceptedSince(ops) == AcceptedSince(ops);
  }

  lemma {:induction false} WrittenPrefix(a: seq<Command>, j: nat, k: nat)
    requires j <= k <= |a|
    ensures Written(a, j) <= Written(a, k)
    decreases k
  {
    if j < k {
      WrittenPrefix(a, j, k - 1);
    }
  }

  /** An Ok acknowledgement means that line and every line accepted before it are on the wire. */
  lemma OkMeansWritten(ops: seq<Op>, i: nat)
    requires var s := Run(Spawned, ops); i in s.acks && s.acks[i] == WriteOk
    ensures i < |AcceptedSince(ops)|
    ensures Written(AcceptedSince(ops), i + 1) <= Run(Spawned, ops).wire
    ensures AcceptedSince(ops)[i].UserWrite? && NoClose(AcceptedSince(ops), i)
  {
    hide Run, AcceptedSince, Written;
    var k, _ := FromSpawn(ops);
    WrittenPrefix(AcceptedSince(ops), i + 1, k);
  }

  /** Once stopped, a writer admits nothing, writes nothing and acknowledges nothing. */
  lemma {:induction false} StoppedForGood(s: State, ops: seq<Op>)
    requires !s.running
    ensures AcceptedIn(s, ops) == [] && Run(s, ops).(gone := s.gone, calls := s.calls, waiting := s.waiting) == s
    decreases |ops|
  {
    if ops != [] {
      StoppedForGood(Apply(s, ops[0]), ops[1..]);
    }
  }

  /** An acknowledgement, once sent, is never changed. */
  lemma {:induction false} AcksStay(s: State, a: seq<Command>, k: nat, partial: seq<Byte>, ops: seq<Op>, i: nat)
    requires Fifo(s, a, k, partial) && i in s.acks
    ensures i in Run(s, ops).acks && Run(s, ops).acks[i] == s.acks[i]
    decreases |ops|
  {
    hide Written;
    if ops != [] {
      var s1 := Apply(s, ops[0]);
      if s.running && s.queue != [] && ops[0].Take? {
        assert s.queue[0].ordinal == k;
      }
      assert i in s1.acks && s1.acks[i] == s.acks[i];
      var k1, partial1 := StepKeeps(s, a, k, partial, ops[0]);
      AcksStay(s1, a + Commands(AcceptedBy(s, ops[0])), k1, partial1, ops[1..], i);
    }
  }

  // ---- Callers that go away

  function WithoutDrops(ops: seq<Op>): seq<Op> {
    if ops == [] then []
    else (if ops[0].DropCaller? then [] else [ops[0]]) + WithoutDrops(ops[1..])
  }

  predicate SameWriting(s: State, t: State) {
    && s.waiting == t.waiting && s.calls == t.calls && s.queue == t.queue && s.next == t.next
    && s.wire == t.wire && s.running == t.running
  }

  lemma SameStep(s: State, t: State, op: Op)
    requires SameWriting(s, t)
    ensures SameWriting(Apply(s, op), Apply(t, op)) && AcceptedBy(s, op) == AcceptedBy(t, op)
    ensures op.DropCaller? ==> SameWriting(Apply(s, op), t)
  {
  }

  /** Dropping callers, whenever it happens, changes neither what is accepted nor what is written. */
  lemma {:induction false} DroppedCallersStillWritten(s: State, t: State, ops: seq<Op>)
    requires SameWriting(s, t)
    ensures SameWriting(Run(s, ops), Run(t, WithoutDrops(ops)))
    ensures AcceptedIn(s, ops) == AcceptedIn(t, WithoutDrops(ops))
    decreases |ops|
  {
    hide Apply;
    if ops != [] {
      var op, rest := ops[0], ops[1..];
      SameStep(s, t, op);
      var kept := WithoutDrops(ops);
      if op.DropCaller? {
        assert kept == WithoutDrops(rest);
        DroppedCallersStillWritten(Apply(s, op), t, rest);
      } else {
        assert kept[0] == op && kept[1..] == WithoutDrops(rest);
        DroppedCallersStillWritten(Apply(s, op), Apply(t, op), rest);
      }
    }
  }

  // ---- The bound on the queue

  /** A call is accepted at once exactly by a running writer with fewer than 64 commands
      queued and nobody waiting; it fails exactly when the writer has stopped. */
  lemma CallOutcome(s: State, c: Command)
    ensures Called(s, c).1.Accepted? <==> s.running && s.waiting == [] && |s.queue| < 64
    ensures Called(s, c).1.StdinClosed? <==> !s.running
    ensures s.running && s.waiting != [] ==>
      (Apply(s, Admit) != s <==> |s.queue| < 64) && (|s.queue| < 64 ==> AcceptedBy(s, Admit) == [s.waiting[0]])
  {
  }

  lemma {:induction false} QueueBounded(s: State, ops: seq<Op>)
    requires |s.queue| <= 64
    ensures |Run(s, ops).queue| <= 64
    decreases |ops|
  {
    hide Acked, Cut;
    if ops != [] {
      QueueBounded(Apply(s, ops[0]), ops[1..]);
    }
  }

  // ---- Calls that wait for room

  /** Waiting calls are in the order they were made, none of them made yet to come. */
  ghost predicate InLine(s: State) {
    && (forall i | 0 <= i < |s.waiting| :: s.waiting[i].number < s.calls)
    && CallOrder(s.waiting)
  }

  /** Every call accepted from now on was made after `number`. */
  ghost predicate AllAfter(s: State, number: int) {
    number < s.calls && forall i | 0 <= i < |s.waiting| :: number < s.waiting[i].number
  }

  ghost predicate CallOrder(calls: seq<Call>) {
    forall i, j | 0 <= i < j < |calls| :: calls[i].number < calls[j].number
  }

  lemma {:induction false} WithoutMembers(waiting: seq<Call>, number: nat)
    ensures forall c :: c in Without(waiting, number) <==> c in waiting && c.number != number
  {
    if waiting != [] {
      WithoutMembers(waiting[1..], number);
      assert waiting == [waiting[0]] + waiting[1..];
    }
  }

  lemma {:induction false} WithoutKeepsOrder(waiting: seq<Call>, number: nat)
    requires CallOrder(waiting)
    ensures CallOrder(Without(waiting, number))
  {
    if waiting != [] {
      var rest := waiting[1..];
      WithoutKeepsOrder(rest, number);
      WithoutMembers(rest, number);
      var left := Without(rest, number);
      forall i | 0 <= i < |left| ensures waiting[0].number < left[i].number {
        assert left[i] in left;
        var j :| 0 <= j < |rest| && rest[j] == left[i];
        assert waiting[j + 1] == left[i];
      }
    }
  }

  lemma StepInLine(s: State, op: Op, number: int)
    requires InLine(s) && AllAfter(s, number)
    ensures InLine(Apply(s, op)) && AllAfter(Apply(s, op), number)
    ensures forall c | c in AcceptedBy(s, op) :: number < c.number && AllAfter(Apply(s, op), c.number)
  {
    hide Taken, Without;
    match op
    case Abandon(n) => AbandonInLine(s, n, number);
    case Take(io) => TakenKeepsLine(s, io);
    case _ =>
  }

  lemma TakenKeepsLine(s: State, io: Io)
    ensures var s1 := Taken(s, io); s1.calls == s.calls && (s1.waiting == s.waiting || s1.waiting == [])
  {
    hide Acked, Cut;
  }

  lemma AbandonInLine(s: State, n: nat, number: int)
    requires InLine(s) && AllAfter(s, number)
    ensures var s1 := s.(waiting := Without(s.waiting, n)); InLine(s1) && AllAfter(s1, number)
  {
    hide Without;
    WithoutMembers(s.waiting, n);
    WithoutKeepsOrder(s.waiting, n);
    var left := Without(s.waiting, n);
    assert forall i | 0 <= i < |left| :: left[i] in left;
  }

  /** Calls are accepted in the order they were made: a later one never overtakes an
      earlier one, however long that had to wait for room. */
  lemma {:induction false} NoOvertaking(s: State, ops: seq<Op>, number: int)
    requires InLine(s) && AllAfter(s, number)
    ensures CallOrder(AcceptedIn(s, ops)) && forall c | c in AcceptedIn(s, ops) :: number < c.number
    decreases |ops|
  {
    hide Apply, AcceptedBy, InLine, AllAfter;
    if ops != [] {
      var s1, now := Apply(s, ops[0]), AcceptedBy(s, ops[0]);
      StepInLine(s, ops[0], number);
      AtMostOne(s, ops[0]);
      NoOvertaking(s1, ops[1..], if now == [] then number else now[0].number);
    }
  }

  lemma AtMostOne(s: State, op: Op)
    ensures |AcceptedBy(s, op)| <= 1
  {
  }

  predicate Waiting(s: State, number: nat) { exists i :: 0 <= i < |s.waiting| && s.waiting[i].number == number }

  /** A call that was made and waits no longer is never accepted later: dropping a
      caller before its command was accepted guarantees it is never written. */
  lemma {:induction false} AbandonedNeverAccepted(s: State, ops: seq<Op>, number: nat)
    requires number < s.calls && !Waiting(s, number)
    ensures forall c | c in AcceptedIn(s, ops) :: c.number != number
    decreases |ops|
  {
    if ops != [] {
      StaysOut(s, ops[0], number);
      AbandonedNeverAccepted(Apply(s, ops[0]), ops[1..], number);
    }
  }

  lemma StaysOut(s: State, op: Op, number: nat)
    requires number < s.calls && !Waiting(s, number)
    ensures number < Apply(s, op).calls && !Waiting(Apply(s, op), number)
    ensures forall c | c in AcceptedBy(s, op) :: c.number != number
  {
    hide Acked, Cut;
    var s1 := Apply(s, op);
    if op.Abandon? {
      WithoutMembers(s.waiting, op.number);
    }
    forall i | 0 <= i < |s1.waiting| ensures s1.waiting[i].number != number {
      assert s1.waiting[i] in s1.waiting;
    }
  }

  /** Dropping a waiting caller takes its call out of the line. */
  lemma AbandonLeaves(s: State, number: nat)
    ensures !Waiting(Apply(s, Abandon(number)), number)
  {
    WithoutMembers(s.waiting, number);
    var left := Without(s.waiting, number);
    assert forall i | 0 <= i < |left| :: left[i] in left;
  }

  // ---- The other end of the pipe

  function Payloads(a: seq<Command>, k: nat): (r: seq<seq<Byte>>)
    requires NoClose(a, k)
    ensures |r| == k && forall i | 0 <= i < k :: r[i] == a[i].payload
  {
    if k == 0 then [] else Payloads(a, k - 1) + [a[k - 1].payload]
  }

  lemma {:induction false} EncodeAllAppend(ps: seq<seq<Byte>>, p: seq<Byte>)
    ensures EncodeAll(ps + [p]) == EncodeAll(ps) + EncodeLine(p)
  {
    if ps == [] {
      assert [p][1..] == [];
    } else {
      EncodeAllAppend(ps[1..], p);
      assert (ps + [p])[1..] == ps[1..] + [p];
    }
  }

  lemma {:induction false} WrittenIsEncoded(a: seq<Command>, k: nat)
    requires NoClose(a, k)
    ensures Written(a, k) == EncodeAll(Payloads(a, k))
  {
    if k > 0 {
      WrittenIsEncoded(a, k - 1);
      EncodeAllAppend(Payloads(a, k - 1), a[k - 1].payload);
    }
  }

  /** A reader at the other end of a running writer's pipe gets the payloads of
      the accepted commands, frame for frame and in order. */
  lemma ReaderSeesAcceptedOrder(s: State, a: seq<Command>, k: nat, max: nat)
    requires Fifo(s, a, k, []) && s.running
    requires forall i | 0 <= i < k :: WireText(a[i].payload) && |a[i].payload| <= max
    ensures AllLines(s.wire, max) == (Payloads(a, k), true)
  {
    hide Written, Payloads, Pending, AllLines;
    WrittenIsEncoded(a, k);
    assert Written(a, k) + [] == Written(a, k);
    EncodedStreamReadsBack(Payloads(a, k), max);
  }
}
