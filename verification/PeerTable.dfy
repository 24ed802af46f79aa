/** The JSON-RPC peer: concurrent requests take ids from a wrapping 64-bit
counter and wait in a shared table for the response with their id. */
module PeerTable {
  import opened JsonValue

  const TWO_63: int := 0x8000_0000_0000_0000
  const TWO_64: int := 0x1_0000_0000_0000_0000

  type Int64 = x: int | -TWO_63 <= x < TWO_63

  datatype RequestId = Integer(n: Int64) | Text(s: string)

  datatype Response = Result(value: Json) | RpcError(error: Json) | Closed

  /** Where the request's own code is: id taken, entered in the table, or no longer waiting. */
  datatype Stage = Took | Entered | Left

  /** One request: `inbox` is everything ever sent to it. */
  datatype Caller = Caller(stage: Stage, inbox: seq<Response>)

  /** Requests are numbered by the order in which they take their ids. */
  datatype State = State(callers: seq<Caller>, pending: map<RequestId, nat>, reading: bool)

  const Spawned := State([], map[], true)

  datatype Op =
    | Take                                       // a request takes the next id
    | GiveUp(who: nat)                           // its parameters do not serialize, or it is dropped
    | Enter(who: nat)                            // it enters the table
    | SendFails(who: nat)                        // its frame cannot be written
    | Cancel(who: nat)                           // its caller goes away while it waits
    | Respond(id: RequestId, response: Response) // the reader gets a response or an error
    | Shutdown
    | ReaderEnd

  // ---- Ids

  /** The id of request `o`: the counter starts at 1 and wraps at 64 bits. */
  function IdOf(o: nat): Int64 { (1 + o + TWO_63) % TWO_64 - TWO_63 }

  function Following(id: Int64): Int64 { if id == TWO_63 - 1 then -TWO_63 else id + 1 }

  lemma IdFollows(o: nat)
    ensures IdOf(0) == 1 && IdOf(o + 1) == Following(IdOf(o))
  {
  }

  /** Two requests share an id exactly when a multiple of 2^64 requests apart. */
  lemma IdsRepeatExactly(i: nat, j: nat)
    ensures IdOf(i) == IdOf(j) <==> (i - j) % TWO_64 == 0
    ensures i != j && i < TWO_64 && j < TWO_64 ==> IdOf(i) != IdOf(j)
  {
  }

  // ---- The steps

  function Key(o: nat): RequestId { Integer(IdOf(o)) }

  function InStage(s: State, o: nat, from: Stage, to: Stage): State {
    if o < |s.callers| && s.callers[o].stage ==
      from then s.(callers := s.callers[o := s.callers[o].(stage := to)]) else s
  }

  predicate At(s: State, o: nat, stage: Stage) { o < |s.callers| && s.callers[o].stage == stage }

  function Sent(callers: seq<Caller>, o: nat, r: Response): seq<Caller> {
    if o < |callers| then callers[o := callers[o].(inbox := callers[o].inbox + [r])] else callers
  }

  /** Every waiter named in `waiters` is told that the peer is closed. */
  function ClosedOut(callers: seq<Caller>, waiters: set<nat>): (r: seq<Caller>)
    ensures |r| == |callers|
    ensures forall o | 0 <= o < |r| ::
      r[o] == if o in waiters then Caller(callers[o].stage, callers[o].inbox + [Closed]) else callers[o]
  {
    seq(|callers|, o requires 0 <= o < |callers| =>
      if o in waiters then Caller(callers[o].stage, callers[o].inbox + [Closed]) else callers[o])
  }

  function Resolved(s: State, id: RequestId, r: Response): State {
    if id in s.pending then s.(callers := Sent(s.callers, s.pending[id], r), pending := s.pending - {id}) else s
  }

  function ShutDown(s: State): State { s.(callers := ClosedOut(s.callers, s.pending.Values), pending := map[]) }

  function Apply(s: State, op: Op): State {
    match op
    case Take => s.(callers := s.callers + [Caller(Took, [])])
    case GiveUp(o) => InStage(s, o, Took, Left)
    case Enter(o) => if At(s, o, Took) then InStage(s, o, Took, Entered).(pending := s.pending[Key(o) := o]) else s
    case SendFails(o) => if At(s, o, Entered) then InStage(s, o, Entered, Left).(pending := s.pending - {Key(o)}) else s
    case Cancel(o) => InStage(s, o, Entered, Left)
    case Respond(id, r) => if s.reading then Resolved(s, id, r) else s
    case Shutdown => ShutDown(s)
    case ReaderEnd => if s.reading then ShutDown(s).(reading := false) else s
  }

  function Run(s: State, ops: seq<Op>): State
    decreases |ops|
  {
    if ops == [] then s else Run(Apply(s, ops[0]), ops[1..])
  }

  predicate Valid(s: State) {
    forall id | id in s.pending :: s.pending[id] < |s.callers| && id == Key(s.pending[id])
  }

  class JsonRpcPeer {
    var idCounter: Int64
    var callers: seq<Caller>
    var pending: map<RequestId, nat>
    var reading: bool

    ghost function Abstract(): State reads this { State(callers, pending, reading) }

    ghost predicate Ok() reads this { Valid(Abstract()) && idCounter == IdOf(|callers|) }

    constructor ()
      ensures Ok() && Abstract() == Spawned
    {
      idCounter, callers, pending, reading := 1, [], map[], true;
    }

    method NextRequestId() returns (o: nat, id: RequestId)
      requires Ok()
      modifies this
      ensures Ok() && Abstract() == Apply(old(Abstract()), Take)
      ensures o == |old(callers)| && id == Key(o)
    {
      IdFollows(|callers|);
      o, id := |callers|, Integer(idCounter);
      callers := callers + [Caller(Took, [])];
      idCounter := if idCounter == TWO_63 - 1 then -TWO_63 else idCounter + 1;
    }

    method EnterRequest(o: nat, id: RequestId)
      requires Ok() && At(Abstract(), o, Took) && id == Key(o)
      modifies this
      ensures Ok() && Abstract() == Apply(old(Abstract()), Enter(o))
    {
      callers := callers[o := callers[o].(stage := Entered)];
      pending := pending[id := o];
    }

    method WithdrawRequest(o: nat, id: RequestId)
      requires Ok() && At(Abstract(), o, Entered) && id == Key(o)
      modifies this
      ensures Ok() && Abstract() == Apply(old(Abstract()), SendFails(o))
    {
      callers := callers[o := callers[o].(stage := Left)];
      pending := pending - {id};
    }

    method Resolve(id: RequestId, r: Response)
      requires Ok()
      modifies this
      ensures Ok() && Abstract() == Resolved(old(Abstract()), id, r)
    {
      if id in pending {
        var o := pending[id];
        pending := pending - {id};
        callers := callers[o := callers[o].(inbox := callers[o].inbox + [r])];
      }
    }

    /** The table is drained in no particular order. */
    method DrainPending()
      requires Ok()
      modifies this
      ensures Ok() && Abstract() == ShutDown(old(Abstract()))
    {
      hide Draining, ClosedOut, Valid, IdOf;
      ghost var before, done := Abstract(), {};
      DrainStarts(before);
      while pending != map[]
        invariant reading == old(reading) && idCounter == old(idCounter)
        invariant Draining(before, Abstract(), done)
        decreases |pending|
      {
        var id :| id in pending;
        DrainStep(before, Abstract(), done, id);
        var o := pending[id];
        pending := pending - {id};
        callers := callers[o := callers[o].(inbox := callers[o].inbox + [Closed])];
        done := done + {o};
      }
      DrainEnds(before, Abstract(), done);
    }
  }

  /** Part of the table is drained: `done` were told, the others still wait. */
  ghost predicate Draining(before: State, now: State, done: set<nat>) {
    && Valid(before) && Valid(now) && now.callers == ClosedOut(before.callers, done)
    && now.pending.Values !! done && before.pending.Values == now.pending.Values + done
  }

  lemma DrainStarts(s: State)
    requires Valid(s)
    ensures Draining(s, s, {})
  {
    hide ClosedOut, IdOf;
    assert s.callers == ClosedOut(s.callers, {});
  }

  lemma DrainStep(before: State, now: State, done: set<nat>, id: RequestId)
    requires Draining(before, now, done) && id in now.pending
    ensures var o := now.pending[id];
      && o < |now.callers| && |now.pending - {id}| < |now.pending|
      && Draining(before, Resolved(now, id, Closed), done + {o})
  {
    hide ClosedOut, Sent, Valid, Key;
    var o := now.pending[id];
    ValidWithout(now, id);
    OneFewer(now.pending, id);
    assert o in now.pending.Values;
    OneMoreClosed(before.callers, done, o);
  }

  lemma ValidWithout(s: State, id: RequestId)
    requires Valid(s) && id in s.pending
    ensures s.pending[id] < |s.callers| && Valid(Resolved(s, id, Closed))
    ensures forall k | k in s.pending :: k == Key(s.pending[k])
  {
    hide Key;
  }

  lemma OneMoreClosed(callers: seq<Caller>, done: set<nat>, o: nat)
    requires o < |callers| && o !in done
    ensures Sent(ClosedOut(callers, done), o, Closed) == ClosedOut(callers, done + {o})
  {
    hide ClosedOut;
  }

  lemma DrainEnds(before: State, now: State, done: set<nat>)
    requires Draining(before, now, done) && now.pending == map[]
    ensures Valid(now) && |now.callers| == |before.callers|
    ensures now.callers == ShutDown(before).callers
  {
    hide ClosedOut, IdOf;
    assert done == before.pending.Values;
  }

  /** Taking one request out of the table takes out its waiter and no other. */
  lemma OneFewer(pending: map<RequestId, nat>, id: RequestId)
    requires id in pending && forall k | k in pending :: k == Key(pending[k])
    ensures var rest := pending - {id};
      |rest| < |pending| && rest.Values == pending.Values - {pending[id]}
  {
    hide IdOf;
    var rest := pending - {id};
    assert rest.Keys == pending.Keys - {id};
    assert forall k | k in rest :: rest[k] != pending[id];
    forall o | o in pending.Values - {pending[id]} ensures o in rest.Values {
      var k :| k in pending && pending[k] == o;
      assert k in rest && rest[k] == o;
    }
  }

  // ---- One request on its own

  /** What can become of one request. `gone` when nobody waits for it any more. */
  datatype Fate = Unissued | Prepared | Waiting(gone: bool) | Answered(response: Response, gone: bool) | Withdrawn

  function Answer(f: Fate, r: Response): Fate { if f.Waiting? then Answered(r, f.gone) else f }

  /** A request sees its own steps, responses with its own id, and closing. */
  function FateStep(f: Fate, o: nat, taken: nat, reading: bool, op: Op): Fate {
    match op
    case Take => if o == taken then Prepared else f
    case GiveUp(i) => if i == o && f.Prepared? then Withdrawn else f
    case Enter(i) => if i == o && f.Prepared? then Waiting(false) else f
    case SendFails(i) =>
      if i != o then f
      else if f == Waiting(false) then Withdrawn
      else if f.Answered? then f.(gone := true)
      else f
    case Cancel(i) => if i == o && (f.Waiting? || f.Answered?) then f.(gone := true) else f
    case Respond(id, r) => if reading && id == Key(o) then Answer(f, r) else f
    case Shutdown => Answer(f, Closed)
    case ReaderEnd => if reading then Answer(f, Closed) else f
  }

  function FateRun(f: Fate, o: nat, taken: nat, reading: bool, ops: seq<Op>): Fate
    decreases |ops|
  {
    if ops == [] then f
    else FateRun(FateStep(f, o, taken, reading, ops[0]), o, if ops[0].Take? then taken + 1 else taken,
                 reading && !ops[0].ReaderEnd?, ops[1..])
  }

  // ---- The table as seen by one request

  predicate Waits(s: State, o: nat) { Key(o) in s.pending && s.pending[Key(o)] == o }

  function View(s: State, o: nat): Fate {
    if o >= |s.callers| then Unissued
    else
      var c := s.callers[o];
      if c.stage == Took then Prepared
      else if Waits(s, o) then Waiting(c.stage == Left)
      else if c.inbox != [] then Answered(c.inbox[0], c.stage == Left)
      else Withdrawn
  }

  /** At most one message ever, none while waiting, and none before entering. */
  predicate Consistent(s: State, o: nat) {
    && (o >= |s.callers| ==> !Waits(s, o))
    && (o < |s.callers| ==>
          var c := s.callers[o];
          && |c.inbox| <= 1
          && (c.stage == Took || Waits(s, o) ==> c.inbox == [])
          && (c.stage == Took ==> !Waits(s, o))
          && (c.stage == Entered && !Waits(s, o) ==> c.inbox != []))
  }

  ghost predicate Sound(s: State) { Valid(s) && |s.callers| <= TWO_64 && forall o: nat :: Consistent(s, o) }

  lemma KeysDiffer(s: State, i: nat, o: nat)
    requires |s.callers| <= TWO_64 && i < |s.callers| && o < |s.callers| && i != o
    ensures Key(i) != Key(o)
  {
    IdsRepeatExactly(i, o);
  }

  /** A step changes the view of request `o` exactly as the request on its own would. */
  lemma StepSeenByOne(s: State, op: Op, o: nat)
    requires Sound(s) && (op.Take? ==> |s.callers| < TWO_64)
    ensures Consistent(Apply(s, op), o)
    ensures View(Apply(s, op), o) == FateStep(View(s, o), o, |s.callers|, s.reading, op)
  {
    hide IdOf;
    assert Consistent(s, o);
    match op
    case Enter(i) => EnterSeenByOne(s, i, o);
    case SendFails(i) => FailureSeenByOne(s, i, o);
    case Respond(id, r) => ResponseSeenByOne(s, id, r, o);
    case Shutdown => CloseSeenByOne(s, o);
    case ReaderEnd => CloseSeenByOne(s, o);
    case _ =>
  }

  lemma EnterSeenByOne(s: State, i: nat, o: nat)
    requires Sound(s)
    ensures Consistent(Apply(s, Enter(i)), o)
    ensures View(Apply(s, Enter(i)), o) == FateStep(View(s, o), o, |s.callers|, s.reading, Enter(i))
  {
    hide IdOf;
    assert Consistent(s, o) && Consistent(s, i);
    if i < |s.callers| && o < |s.callers| && i != o { KeysDiffer(s, i, o); }
  }

  lemma FailureSeenByOne(s: State, i: nat, o: nat)
    requires Sound(s)
    ensures Consistent(Apply(s, SendFails(i)), o)
    ensures View(Apply(s, SendFails(i)), o) == FateStep(View(s, o), o, |s.callers|, s.reading, SendFails(i))
  {
    hide IdOf;
    assert Consistent(s, o);
    if i < |s.callers| && o < |s.callers| && i != o { KeysDiffer(s, i, o); }
  }

  lemma ResponseSeenByOne(s: State, id: RequestId, r: Response, o: nat)
    requires Sound(s)
    ensures Consistent(Resolved(s, id, r), o)
    ensures View(Resolved(s, id, r), o) == if id == Key(o) then Answer(View(s, o), r) else View(s, o)
  {
    hide IdOf;
    assert Consistent(s, o);
    if id in s.pending {
      var i := s.pending[id];
      assert Consistent(s, i);
      if o < |s.callers| && i != o { KeysDiffer(s, i, o); }
    }
  }

  lemma CloseSeenByOne(s: State, o: nat)
    requires Sound(s)
    ensures Consistent(ShutDown(s), o)
    ensures View(ShutDown(s), o) == Answer(View(s, o), Closed)
  {
    hide IdOf;
    assert Consistent(s, o);
    if o in s.pending.Values {
      var id :| id in s.pending && s.pending[id] == o;
      assert Waits(s, o);
    } else {
      assert !Waits(s, o);
    }
  }

  lemma StepKeepsValid(s: State, op: Op)
    requires Valid(s)
    ensures Valid(Apply(s, op))
  {
    hide IdOf;
  }

  lemma StepKeepsSound(s: State, op: Op)
    requires Sound(s) && (op.Take? ==> |s.callers| < TWO_64)
    ensures Sound(Apply(s, op))
  {
    hide IdOf, View, FateStep;
    StepKeepsValid(s, op);
    forall o: nat ensures Consistent(Apply(s, op), o) {
      StepSeenByOne(s, op, o);
    }
  }

  function Takes(ops: seq<Op>): nat {
    if ops == [] then 0 else (if ops[0].Take? then 1 else 0) + Takes(ops[1..])
  }

  /** Over any run of at most 2^64 requests, each request sees of the shared table
      exactly what it would see alone. */
  lemma {:induction false} TableIsManyFates(s: State, ops: seq<Op>, o: nat)
    requires Sound(s) && |s.callers| + Takes(ops) <= TWO_64
    ensures Sound(Run(s, ops)) && View(Run(s, ops), o) == FateRun(View(s, o), o, |s.callers|, s.reading, ops)
    decreases |ops|
  {
    hide IdOf, View, FateStep, Sound;
    if ops != [] {
      var op := ops[0];
      var s1 := Apply(s, op);
      StepSeenByOne(s, op, o);
      StepKeepsSound(s, op);
      assert |s1.callers| == |s.callers| + (if op.Take? then 1 else 0);
      assert s1.reading == (s.reading && !op.ReaderEnd?);
      TableIsManyFates(s1, ops[1..], o);
    }
  }

  lemma FromSpawn(ops: seq<Op>, o: nat)
    requires Takes(ops) <= TWO_64
    ensures View(Run(Spawned, ops), o) == FateRun(Unissued, o, 0, true, ops)
    ensures o < |Run(Spawned, ops).callers| ==> |Run(Spawned, ops).callers[o].inbox| <= 1
  {
    hide Run, FateRun, IdOf;
    TableIsManyFates(Spawned, ops, o);
    assert Consistent(Run(Spawned, ops), o);
  }

  // ---- What this means for one request

  /** While the reader runs, a response changes the table exactly when its request is
      waiting: one that was never made, gave up, or was answered before changes nothing. */
  lemma ResponseMatters(s: State, o: nat, r: Response)
    requires Sound(s) && s.reading && o < TWO_64
    ensures Apply(s, Respond(Key(o), r)) != s <==> View(s, o).Waiting?
  {
    hide IdOf;
    assert Consistent(s, o);
    if Key(o) in s.pending {
      var i := s.pending[Key(o)];
      if i != o {
        IdsRepeatExactly(i, o);
      }
    }
  }

  /** A response is what its waiting request gets, and no other request sees it. */
  lemma ResponseDelivered(s: State, o: nat, r: Response, other: nat)
    requires Sound(s) && s.reading && View(s, o).Waiting? && other != o && other < |s.callers|
    ensures var s1 := Apply(s, Respond(Integer(IdOf(o)), r));
      && View(s1, o) == Answered(r, View(s, o).gone) && s1.callers[o].inbox == [r]
      && View(s1, other) == View(s, other) && s1.callers[other] == s.callers[other]
  {
    hide IdOf;
    assert Consistent(s, o);
    ResponseSeenByOne(s, Key(o), r, o);
    ResponseSeenByOne(s, Key(o), r, other);
    KeysDiffer(s, o, other);
  }

  /** A request that enters pushes another waiter out of the table exactly when
      their ids coincide, a multiple of 2^64 requests apart. */
  lemma EnterDisplacesExactly(s: State, i: nat, j: nat)
    requires i != j && Waits(s, i) && At(s, j, Took)
    ensures !Waits(Apply(s, Enter(j)), i) <==> (i - j) % TWO_64 == 0
  {
    hide IdOf;
    IdsRepeatExactly(i, j);
  }

  function Repeated(n: nat): seq<Op> { if n == 0 then [] else [Take] + Repeated(n - 1) }

  lemma {:induction false} RunTakes(s: State, n: nat)
    ensures var s1 := Run(s, Repeated(n));
      && s1.pending == s.pending && |s1.callers| == |s.callers| + n && s.callers <= s1.callers
      && forall o | |s.callers| <= o < |s1.callers| :: s1.callers[o] == Caller(Took, [])
    decreases n
  {
    if n > 0 {
      assert Repeated(n)[1..] == Repeated(n - 1);
      RunTakes(Apply(s, Take), n - 1);
    }
  }

  /** Such a run exists: the first request waits while 2^64 more take their ids, and
      the last of these pushes it out unanswered. */
  lemma DisplacementReached() returns (ops: seq<Op>)
    ensures var s := Run(Spawned, ops);
      && Waits(s, 0) && At(s, TWO_64, Took)
      && var s1 := Apply(s, Enter(TWO_64)); !Waits(s1, 0) && s1.callers[0] == Caller(Entered, [])
  {
    hide IdOf;
    var more := Repeated(TWO_64);
    ops := [Take, Enter(0)] + more;
    assert ops[1..] == [Enter(0)] + more && ops[1..][1..] == more;
    var s0 := Apply(Apply(Spawned, Take), Enter(0));
    assert Run(Spawned, ops) == Run(Apply(Spawned, Take), ops[1..]);
    assert Run(Apply(Spawned, Take), ops[1..]) == Run(s0, ops[1..][1..]);
    RunTakes(s0, TWO_64);
    var s := Run(Spawned, ops);
    assert s == Run(s0, more);
    assert s.callers[0] == s0.callers[0];
    EnterDisplacesExactly(s, 0, TWO_64);
  }

  lemma {:induction false} AnsweredFate(f: Fate, o: nat, taken: nat, reading: bool, ops: seq<Op>)
    requires f.Answered? && o < taken
    ensures var g := FateRun(f, o, taken, reading, ops); g.Answered? && g.response == f.response
    decreases |ops|
  {
    hide IdOf;
    if ops != [] {
      AnsweredFate(FateStep(f, o, taken, reading, ops[0]), o, if ops[0].Take? then taken + 1 else taken,
                   reading && !ops[0].ReaderEnd?, ops[1..]);
    }
  }

  /** The answer a request got is the answer it keeps. */
  lemma AnsweredForGood(s: State, ops: seq<Op>, o: nat)
    requires Sound(s) && |s.callers| + Takes(ops) <= TWO_64 && View(s, o).Answered?
    ensures var f := View(Run(s, ops), o); f.Answered? && f.response == View(s, o).response
  {
    hide IdOf, Run, FateRun, Sound;
    TableIsManyFates(s, ops, o);
    AnsweredFate(View(s, o), o, |s.callers|, s.reading, ops);
  }

  /** The end of the reader answers everything pending, with what came first. */
  lemma ReaderEndCloses(s: State, o: nat)
    requires Sound(s) && s.reading && View(s, o).Waiting?
    ensures Apply(s, ReaderEnd).pending == map[]
    ensures View(Apply(s, ReaderEnd), o) == Answered(Closed, View(s, o).gone)
  {
    hide IdOf;
    StepSeenByOne(s, ReaderEnd, o);
  }

  // ---- Requests made after the reader ended

  /** What ends the wait of a request when no response can come: a shutdown, or its
      own failed send while its caller is still there. */
  predicate EndsWait(ops: seq<Op>, i: nat, o: nat, gone: bool)
    requires i < |ops|
  {
    ops[i].Shutdown? || (ops[i] == SendFails(o) && !gone && forall j | 0 <= j < i :: ops[j] != Cancel(o))
  }

  predicate NothingEnds(ops: seq<Op>, n: nat, o: nat, gone: bool)
    requires n <= |ops|
  {
    forall i | 0 <= i < n :: !EndsWait(ops, i, o, gone)
  }

  lemma EndsLater(ops: seq<Op>, o: nat, gone: bool, n: nat)
    requires ops != [] && !EndsWait(ops, 0, o, gone) && n < |ops|
    ensures NothingEnds(ops, n + 1, o, gone) <==> NothingEnds(ops[1..], n, o, gone || ops[0] == Cancel(o))
  {
    var rest, gone1 := ops[1..], gone || ops[0] == Cancel(o);
    forall i | 0 <= i < n ensures EndsWait(ops, i + 1, o, gone) <==> EndsWait(rest, i, o, gone1) {
      assert rest[i] == ops[i + 1];
      assert forall j | 0 < j < i + 1 :: ops[j] == rest[j - 1];
      assert forall j | 0 <= j < i :: rest[j] == ops[j + 1];
    }
    if NothingEnds(rest, n, o, gone1) {
      forall i | 0 <= i < n + 1 ensures !EndsWait(ops, i, o, gone) {
        assert i > 0 ==> !EndsWait(rest, i - 1, o, gone1);
      }
    }
    if NothingEnds(ops, n + 1, o, gone) {
      forall i | 0 <= i < n ensures !EndsWait(rest, i, o, gone1) {
        assert !EndsWait(ops, i + 1, o, gone);
      }
    }
  }

  /** Closed by the shutdown at `i`, which comes before anything else that ends the wait. */
  predicate ClosedAt(ops: seq<Op>, i: nat, o: nat, gone: bool) {
    i < |ops| && ops[i].Shutdown? && NothingEnds(ops, i, o, gone)
  }

  ghost predicate Closes(ops: seq<Op>, o: nat, gone: bool) { exists i: nat :: ClosedAt(ops, i, o, gone) }

  lemma ClosedLater(ops: seq<Op>, o: nat, gone: bool)
    requires ops != [] && !EndsWait(ops, 0, o, gone)
    ensures Closes(ops, o, gone) <==> Closes(ops[1..], o, gone || ops[0] == Cancel(o))
  {
    hide NothingEnds;
    var rest, gone1 := ops[1..], gone || ops[0] == Cancel(o);
    if i: nat :| ClosedAt(ops, i, o, gone) {
      EndsLater(ops, o, gone, i - 1);
      assert ClosedAt(rest, i - 1, o, gone1);
    }
    if i: nat :| ClosedAt(rest, i, o, gone1) {
      EndsLater(ops, o, gone, i);
      assert ClosedAt(ops, i + 1, o, gone);
    }
  }

  lemma {:induction false} LateFate(gone: bool, o: nat, taken: nat, ops: seq<Op>)
    requires o < taken
    ensures var f := FateRun(Waiting(gone), o, taken, false, ops);
      && (f.Waiting? <==> NothingEnds(ops, |ops|, o, gone))
      && (f.Answered? <==> Closes(ops, o, gone))
      && (f.Answered? ==> f.response == Closed)
    decreases |ops|
  {
    hide IdOf, NothingEnds, Closes;
    if ops == [] {
      assert NothingEnds(ops, 0, o, gone) by { NothingYet(ops, o, gone); }
      NeverClosed(ops, o, gone);
    } else {
      var rest, taken1 := ops[1..], if ops[0].Take? then taken + 1 else taken;
      if ops[0].Shutdown? {
        EndsAtOnce(ops, o, gone);
        AnsweredFate(Answered(Closed, gone), o, taken1, false, rest);
      } else if EndsWait(ops, 0, o, gone) {
        EndsAtOnce(ops, o, gone);
        WithdrawnForGood(o, taken1, false, rest);
      } else {
        var gone1 := gone || ops[0] == Cancel(o);
        assert FateStep(Waiting(gone), o, taken, false, ops[0]) == Waiting(gone1);
        LateFate(gone1, o, taken1, rest);
        EndsLater(ops, o, gone, |rest|);
        ClosedLater(ops, o, gone);
      }
    }
  }

  lemma NothingYet(ops: seq<Op>, o: nat, gone: bool)
    ensures NothingEnds(ops, 0, o, gone)
  {
  }

  lemma NeverClosed(ops: seq<Op>, o: nat, gone: bool)
    requires ops == []
    ensures !Closes(ops, o, gone)
  {
  }

  lemma EndsAtOnce(ops: seq<Op>, o: nat, gone: bool)
    requires ops != [] && EndsWait(ops, 0, o, gone)
    ensures !NothingEnds(ops, |ops|, o, gone)
    ensures Closes(ops, o, gone) <==> ops[0].Shutdown?
  {
    assert ops[0].Shutdown? ==> ClosedAt(ops, 0, o, gone);
  }

  /** Such a request is reached: it enters the table after the reader ended and waits. */
  lemma LateRequestReached()
    ensures var s := Run(Spawned, [ReaderEnd, Take, Enter(0)]);
      Sound(s) && !s.reading && |s.callers| == 1 && View(s, 0) == Waiting(false)
  {
    hide IdOf;
    var ops := [ReaderEnd, Take, Enter(0)];
    assert ops[1..] == [Take, Enter(0)] && ops[1..][1..] == [Enter(0)] && ops[1..][1..][1..] == [];
    var s1 := Apply(Spawned, ReaderEnd);
    var s2 := Apply(s1, Take);
    var s3 := Apply(s2, Enter(0));
    assert Run(s3, []) == s3 && Run(s2, [Enter(0)]) == s3 && Run(s1, [Take, Enter(0)]) == s3;
    assert Sound(Spawned);
    StepKeepsSound(Spawned, ReaderEnd);
    StepKeepsSound(s1, Take);
    StepKeepsSound(s2, Enter(0));
  }

  /** After the reader ended a request waits on through any run exactly as long as no
      shutdown happens and its own send does not fail under its caller; it is ever
      answered exactly when a shutdown comes before that, and then as closed. */
  lemma LateRequestWaits(s: State, ops: seq<Op>, o: nat)
    requires Sound(s) && !s.reading && |s.callers| + Takes(ops) <= TWO_64 && View(s, o).Waiting?
    ensures var f, gone := View(Run(s, ops), o), View(s, o).gone;
      && (f.Waiting? <==> NothingEnds(ops, |ops|, o, gone))
      && (f.Answered? <==> Closes(ops, o, gone))
      && (f.Answered? ==> f.response == Closed)
  {
    hide IdOf, Run, FateRun, Sound, NothingEnds, Closes;
    TableIsManyFates(s, ops, o);
    LateFate(View(s, o).gone, o, |s.callers|, ops);
  }

  lemma {:induction false} WithdrawnForGood(o: nat, taken: nat, reading: bool, ops: seq<Op>)
    requires o < taken
    ensures FateRun(Withdrawn, o, taken, reading, ops) == Withdrawn
    decreases |ops|
  {
    hide IdOf;
    if ops != [] {
      WithdrawnForGood(o, if ops[0].Take? then taken + 1 else taken, reading && !ops[0].ReaderEnd?, ops[1..]);
    }
  }
}
