/** The initialize handshake: stdout frames are buffered until the response to
the initialize request arrives, then replayed and forwarded to the caller. */
module Handshake {
  import opened JsonValue

  datatype Frame =
    | Success(requestId: string, body: Json)
    | Failure(requestId: string, error: Option<string>)
    | Other(body: Json)

  datatype Phase = Waiting | Replaying | Ended | HandshakeFailed(message: string) | HandshakeEof | HandshakeTimeout

  datatype State = State(raw: seq<Frame>, readerDone: bool, buffered: seq<Frame>, phase: Phase,
                         public: seq<Frame>, consumer: bool)

  const Spawned := State([], false, [], Waiting, [], true)

  datatype Op = Read(frame: Frame) | ReaderEnd | Receive | Timeout | Publish | DropConsumer

  // ---- The steps

  predicate Listening(s: State) { s.phase.Waiting? || s.phase.Replaying? }

  predicate Delivers(s: State) { Listening(s) && !s.readerDone }

  /** Whoever held the raw frames is done; they are dropped. */
  function Finished(s: State, phase: Phase): State { s.(phase := phase, raw := [], buffered := []) }

  /** The reader stops when nobody listens any more. */
  function AfterRead(s: State, f: Frame): State {
    if Delivers(s) then s.(raw := s.raw + [f]) else s.(readerDone := true)
  }

  predicate Replies(f: Frame, id: string) { !f.Other? && f.requestId == id }

  function AfterReceive(s: State, id: string): State {
    if !s.phase.Waiting? then s
    else if s.raw == [] then (if s.readerDone then Finished(s, HandshakeEof) else s)
    else
      var f := s.raw[0];
      if Replies(f, id) && f.Failure? then Finished(s, HandshakeFailed(f.error.GetOr("error")))
      else s.(raw := s.raw[1..], buffered := s.buffered + [f], phase := if Replies(f, id) then Replaying else Waiting)
  }

  function AfterPublish(s: State): State {
    if !s.phase.Replaying? then s
    else if s.buffered == [] && s.raw == [] then (if s.readerDone then Finished(s, Ended) else s)
    else if !s.consumer then Finished(s, Ended)
    else if s.buffered != [] then s.(public := s.public + [s.buffered[0]], buffered := s.buffered[1..])
    else s.(public := s.public + [s.raw[0]], raw := s.raw[1..])
  }

  function Apply(s: State, id: string, op: Op): State {
    match op
    case Read(f) => AfterRead(s, f)
    case ReaderEnd => s.(readerDone := true)
    case Receive => AfterReceive(s, id)
    case Timeout => if s.phase.Waiting? then Finished(s, HandshakeTimeout) else s
    case Publish => AfterPublish(s)
    case DropConsumer => s.(consumer := false)
  }

  function Run(s: State, id: string, ops: seq<Op>): State
    decreases |ops|
  {
    if ops == [] then s else Run(Apply(s, id, ops[0]), id, ops[1..])
  }

  function Delivered(s: State, op: Op): seq<Frame> { if op.Read? && Delivers(s) then [op.frame] else [] }

  /** The raw output: every frame the reader handed on, in order. */
  function RawOutput(s: State, id: string, ops: seq<Op>): seq<Frame>
    decreases |ops|
  {
    if ops == [] then [] else Delivered(s, ops[0]) + RawOutput(Apply(s, id, ops[0]), id, ops[1..])
  }

  /** Receiving until the handshake is decided or nothing has arrived yet. */
  function Awaited(s: State, id: string): State
    decreases |s.raw|
  {
    if s.phase.Waiting? && s.raw != [] then Awaited(AfterReceive(s, id), id) else AfterReceive(s, id)
  }

  /** Publishing until nothing is left or the consumer is gone. */
  function Replayed(s: State): State
    decreases |s.buffered| + |s.raw|
  {
    if s.phase.Replaying? && (s.buffered != [] || s.raw != []) then Replayed(AfterPublish(s)) else AfterPublish(s)
  }

  class HandshakeTask {
    const initId: string
    var raw: seq<Frame>
    var readerDone: bool
    var buffered: seq<Frame>
    var phase: Phase
    var public: seq<Frame>
    var consumer: bool

    ghost function Abstract(): State reads this { State(raw, readerDone, buffered, phase, public, consumer) }

    constructor (initId: string)
      ensures Abstract() == Spawned && this.initId == initId
    {
      this.initId := initId;
      raw, readerDone, buffered, phase, public, consumer := [], false, [], Waiting, [], true;
    }

    method ReadOutbound(f: Frame)
      modifies this
      ensures Abstract() == AfterRead(old(Abstract()), f)
    {
      if !readerDone && (phase.Waiting? || phase.Replaying?) {
        raw := raw + [f];
      } else {
        readerDone := true;
      }
    }

    method Await()
      requires phase.Waiting?
      modifies this
      ensures Abstract() == Awaited(old(Abstract()), initId)
    {
      while raw != []
        invariant phase.Waiting?
        invariant Awaited(Abstract(), initId) == Awaited(old(Abstract()), initId)
        decreases |raw|
      {
        ghost var before := Abstract();
        var msg := raw[0];
        var replies := !msg.Other? && msg.requestId == initId;
        if replies && msg.Failure? {
          phase, raw, buffered := HandshakeFailed(msg.error.GetOr("error")), [], [];
          return;
        }
        raw, buffered := raw[1..], buffered + [msg];
        if replies {
          phase := Replaying;
          assert Abstract() == AfterReceive(before, initId);
          return;
        }
      }
      if readerDone {
        phase, buffered := HandshakeEof, [];
      }
    }

    method Replay()
      requires phase.Replaying?
      modifies this
      ensures Abstract() == Replayed(old(Abstract()))
    {
      while buffered != []
        invariant phase.Replaying?
        invariant Replayed(Abstract()) == Replayed(old(Abstract()))
        decreases |buffered|
      {
        if !consumer {
          phase, raw, buffered := Ended, [], [];
          return;
        }
        public, buffered := public + [buffered[0]], buffered[1..];
      }
      while raw != []
        invariant phase.Replaying? && buffered == []
        invariant Replayed(Abstract()) == Replayed(old(Abstract()))
        decreases |raw|
      {
        if !consumer {
          phase, raw := Ended, [];
          return;
        }
        public, raw := public + [raw[0]], raw[1..];
      }
      if readerDone {
        phase := Ended;
      }
    }
  }

  // ---- What every state keeps

  /** The first frame that answers the initialize request. */
  function FirstReply(frames: seq<Frame>, id: string): Option<Frame> {
    if frames == [] then None
    else if Replies(frames[0], id) then Some(frames[0])
    else FirstReply(frames[1..], id)
  }

  lemma {:induction false} FirstReplyConcat(a: seq<Frame>, b: seq<Frame>, id: string)
    ensures FirstReply(a + b, id) == if FirstReply(a, id).Some? then FirstReply(a, id) else FirstReply(b, id)
  {
    if a == [] {
      assert a + b == b;
    } else {
      FirstReplyConcat(a[1..], b, id);
      assert (a + b)[1..] == a[1..] + b;
    }
  }

  /** A response to the request `id`, told by its constructor. */
  predicate Answers(f: Frame, id: string) {
    match f
    case Success(requestId, _) => requestId == id
    case Failure(requestId, _) => requestId == id
    case Other(_) => false
  }

  /** The first reply is the first response that carries the request's own id. */
  lemma {:induction false} FirstReplyExactly(frames: seq<Frame>, id: string, i: nat)
    requires i <= |frames| && forall j | 0 <= j < i :: !Answers(frames[j], id)
    ensures i == |frames| ==> FirstReply(frames, id) == None
    ensures i < |frames| && Answers(frames[i], id) ==> FirstReply(frames, id) == Some(frames[i])
  {
    if i > 0 {
      assert forall j | 0 <= j < i - 1 :: frames[1..][j] == frames[j + 1];
      FirstReplyExactly(frames[1..], id, i - 1);
    }
  }

  /** While waiting, the reply decides and any other frame, a response to another
      request included, is buffered and waited on. */
  lemma ReceiveExactly(s: State, id: string)
    requires s.phase.Waiting? && s.raw != []
    ensures var f, s1 := s.raw[0], AfterReceive(s, id);
      if !Answers(f, id) then s1 == s.(raw := s.raw[1..], buffered := s.buffered + [f])
      else if f.Success? then s1 == s.(raw := s.raw[1..], buffered := s.buffered + [f], phase := Replaying)
      else s1.phase == HandshakeFailed(if f.error.Some? then f.error.value else "error") && s1.buffered == []
  {
  }

  ghost predicate Granted(history: seq<Frame>, id: string) {
    FirstReply(history, id).Some? && FirstReply(history, id).value.Success?
  }

  /** `history` is the raw output so far. */
  ghost predicate Conserved(s: State, id: string, history: seq<Frame>) {
    match s.phase
    case Waiting => s.public == [] && s.buffered + s.raw == history && FirstReply(s.buffered, id).None?
    case Replaying => s.public + (s.buffered + s.raw) == history && Granted(history, id)
    case Ended => s.public <= history && Granted(history, id) && (s.consumer ==> s.public == history)
    case HandshakeFailed(message) =>
      && s.public == [] && FirstReply(history, id).Some?
      && FirstReply(history, id).value.Failure? && message == FirstReply(history, id).value.error.GetOr("error")
    case HandshakeEof => s.public == [] && FirstReply(history, id).None?
    case HandshakeTimeout => s.public == []
  }

  lemma ReadConserves(s: State, id: string, history: seq<Frame>, f: Frame)
    requires Conserved(s, id, history)
    ensures Conserved(AfterRead(s, f), id, history + Delivered(s, Read(f)))
  {
    hide FirstReply;
    assert history + [] == history;
    if Delivers(s) {
      FirstReplyConcat(history, [f], id);
      assert s.buffered + (s.raw + [f]) == (s.buffered + s.raw) + [f];
      assert s.public + (s.buffered + (s.raw + [f])) == (s.public + (s.buffered + s.raw)) + [f];
    }
  }

  lemma ReceiveConserves(s: State, id: string, history: seq<Frame>)
    requires Conserved(s, id, history)
    ensures Conserved(AfterReceive(s, id), id, history)
  {
    hide FirstReply;
    if s.phase.Waiting? {
      FirstReplyConcat(s.buffered, s.raw, id);
      if s.raw == [] {
        assert NoReply([], id) by { EmptyHasNoReply(id); }
      } else {
        var f, rest := s.raw[0], s.raw[1..];
        assert s.raw == [f] + rest;
        assert s.buffered + s.raw == (s.buffered + [f]) + rest;
        assert [] + ((s.buffered + [f]) + rest) == history;
        OneReply(f, id);
        FirstReplyConcat([f], rest, id);
        FirstReplyConcat(s.buffered, [f], id);
      }
    }
  }

  ghost predicate NoReply(frames: seq<Frame>, id: string) { FirstReply(frames, id).None? }

  lemma EmptyHasNoReply(id: string)
    ensures NoReply([], id)
  {
  }

  lemma OneReply(f: Frame, id: string)
    ensures FirstReply([f], id) == if Replies(f, id) then Some(f) else None
  {
    assert [f][1..] == [];
  }

  lemma PublishConserves(s: State, id: string, history: seq<Frame>)
    requires Conserved(s, id, history)
    ensures Conserved(AfterPublish(s), id, history)
  {
    hide FirstReply;
    if s.phase.Replaying? && (s.buffered != [] || s.raw != []) {
      if s.buffered != [] {
        var f, rest := s.buffered[0], s.buffered[1..];
        assert s.buffered + s.raw == [f] + (rest + s.raw);
        assert s.public + ([f] + (rest + s.raw)) == (s.public + [f]) + (rest + s.raw);
      } else {
        var f, rest := s.raw[0], s.raw[1..];
        assert s.raw == [f] + rest && [] + s.raw == s.raw && [] + rest == rest;
        assert s.public + ([f] + rest) == (s.public + [f]) + rest;
      }
    }
  }

  lemma StepConserves(s: State, id: string, history: seq<Frame>, op: Op)
    requires Conserved(s, id, history)
    ensures Conserved(Apply(s, id, op), id, history + Delivered(s, op))
  {
    hide FirstReply, AfterRead, AfterReceive, AfterPublish;
    assert history + [] == history;
    match op
    case Read(f) => ReadConserves(s, id, history, f);
    case Receive => ReceiveConserves(s, id, history);
    case Publish => PublishConserves(s, id, history);
    case _ =>
  }

  lemma {:induction false} RunConserves(s: State, id: string, history: seq<Frame>, ops: seq<Op>)
    requires Conserved(s, id, history)
    ensures Conserved(Run(s, id, ops), id, history + RawOutput(s, id, ops))
    decreases |ops|
  {
    hide Conserved, Apply;
    if ops == [] {
      assert history + [] == history;
    } else {
      var s1, more := Apply(s, id, ops[0]), Delivered(s, ops[0]);
      StepConserves(s, id, history, ops[0]);
      RunConserves(s1, id, history + more, ops[1..]);
      assert (history + more) + RawOutput(s1, id, ops[1..]) == history + (more + RawOutput(s1, id, ops[1..]));
    }
  }

  /** Whatever the schedule, the public output is a prefix of the raw output, none
      of it comes before the initialize request is granted, and none of it comes at
      all when it is refused. A replay that ended with its consumer still there
      published every frame. */
  lemma PublicIsPrefixOfRaw(id: string, ops: seq<Op>)
    ensures var s := Run(Spawned, id, ops);
      var history := RawOutput(Spawned, id, ops);
      && s.public <= history
      && (s.public != [] ==> Granted(history, id))
      && (s.phase.Replaying? ==> s.public + s.buffered + s.raw == history)
      && (s.phase.Ended? && s.consumer ==> s.public == history)
      && (s.phase.HandshakeFailed? || s.phase.HandshakeEof? ==> s.public == [] && !Granted(history, id))
  {
    hide FirstReply, Run, RawOutput;
    assert Conserved(Spawned, id, []) by { assert NoReply([], id) by { EmptyHasNoReply(id); } }
    RunConserves(Spawned, id, [], ops);
    var s := Run(Spawned, id, ops);
    assert [] + RawOutput(Spawned, id, ops) == RawOutput(Spawned, id, ops);
    assert s.public + s.buffered + s.raw == s.public + (s.buffered + s.raw);
  }

  // ---- The handshake is decided by the first reply, and nothing queued is held back

  /** With all of the raw output queued, awaiting decides exactly by its first reply. */
  lemma {:induction false} AwaitDecides(s: State, id: string)
    requires s.phase.Waiting? && FirstReply(s.buffered, id).None?
    ensures var reply := FirstReply(s.raw, id);
      var r := Awaited(s, id);
      && (r.phase.Replaying? <==> reply.Some? && reply.value.Success?)
      && (r.phase.HandshakeFailed? <==> reply.Some? && reply.value.Failure?)
      && (r.phase.HandshakeEof? <==> reply.None? && s.readerDone)
      && (r.phase.Waiting? <==> reply.None? && !s.readerDone)
    decreases |s.raw|
  {
    if s.raw != [] && !Replies(s.raw[0], id) {
      FirstReplyConcat(s.buffered, [s.raw[0]], id);
      OneReply(s.raw[0], id);
      AwaitDecides(AfterReceive(s, id), id);
    }
  }

  /** With its consumer there, a replay publishes everything, in order. */
  lemma {:induction false} ReplayPublishesAll(s: State)
    requires s.phase.Replaying? && s.consumer
    ensures Replayed(s).public == s.public + (s.buffered + s.raw)
    ensures Replayed(s).buffered == [] && Replayed(s).raw == []
    ensures Replayed(s).phase.Ended? <==> s.readerDone
    decreases |s.buffered| + |s.raw|
  {
    if s.buffered != [] || s.raw != [] {
      var s1 := AfterPublish(s);
      ReplayPublishesAll(s1);
      assert s.public + (s.buffered + s.raw) == s1.public + (s1.buffered + s1.raw);
    }
  }

  // ---- Ends

  /** A handshake not answered in time fails; afterwards time is of no concern. */
  lemma TimeoutExactly(s: State, id: string)
    ensures var s1 := Apply(s, id, Timeout);
      if s.phase == Waiting then s1.phase == HandshakeTimeout && s1.buffered == [] && s1.raw == [] else s1 == s
  {
  }

  /** Once failed or ended, nothing more is taken from the reader, nothing published, and the
      outcome stands; the reader ends with the next frame it reads. */
  lemma {:induction false} OverForGood(s: State, id: string, ops: seq<Op>)
    requires s.phase != Waiting && s.phase != Replaying
    ensures var s1 := Run(s, id, ops);
      && s1.phase == s.phase && s1.public == s.public && RawOutput(s, id, ops) == []
      && ((exists i :: 0 <= i < |ops| && ops[i].Read?) ==> s1.readerDone) && (s.readerDone ==> s1.readerDone)
    decreases |ops|
  {
    if ops != [] {
      var rest := ops[1..];
      OverForGood(Apply(s, id, ops[0]), id, rest);
      assert forall i | 0 < i < |ops| :: ops[i] == rest[i - 1];
    }
  }

  /** An ended reader hands nothing on. */
  lemma {:induction false} ReaderEndedForGood(s: State, id: string, ops: seq<Op>)
    requires s.readerDone
    ensures RawOutput(s, id, ops) == [] && Run(s, id, ops).readerDone
    decreases |ops|
  {
    if ops != [] {
      ReaderEndedForGood(Apply(s, id, ops[0]), id, ops[1..]);
    }
  }

  /** With its consumer gone a replay publishes nothing more, and ends as soon as it has
      something to publish. */
  lemma {:induction false} NothingAfterDrop(s: State, id: string, ops: seq<Op>)
    requires !s.consumer
    ensures Run(s, id, ops).public == s.public
    ensures s.phase == Replaying && s.buffered + s.raw != [] ==> AfterPublish(s).phase == Ended
    decreases |ops|
  {
    if ops != [] {
      NothingAfterDrop(Apply(s, id, ops[0]), id, ops[1..]);
    }
  }
}
