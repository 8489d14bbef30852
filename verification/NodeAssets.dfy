/**
 Chunked asset transfer from a node: one request's life as a state machine over the events the coordinator handles. A
 chunk handler suspends while its consumer works, so any events may come between a chunk's arrival and its continuation.
 */
module NodeAssets {
  import opened Options

  const INITIAL_TIMEOUT: int := 15000
  const CHUNK_TIMEOUT: int := 30000
  const MAX_TRANSFER: int := 300000
  const MAX_BUFFERED: int := 1 * 1024 * 1024

  newtype byte = x: int | 0 <= x < 256
  type Bytes = seq<byte>

  datatype Stage = AwaitingResponse | Streaming | Done

  /** An entry of the pending map. The timers hold the time they are due at. */
  datatype Request = Request(
    node: string, stage: Stage, next: nat, aborted: bool,
    initial: Option<int>, chunk: Option<int>, max: int)

  datatype Effect =
    | Sent(at: int)
    | Responded(at: int)
    | Delivered(k: nat, data: Bytes, at: int)
    | Acked(k: nat)
    | Aborted
    | Resolved
    | Rejected(status: int)

  /** `waiting` holds the numbers of the chunks whose handlers are suspended on the consumer. */
  datatype Life = Life(now: int, pending: Option<Request>, waiting: set<nat>, trace: seq<Effect>)

  datatype Event =
    | Response
    | Chunk(number: int, data: Option<Bytes>)
    | Continue(k: nat, error: Option<int>, connected: bool)
    | End
    | Error(status: Option<int>)
    | InitialDue
    | ChunkDue
    | MaxDue
    | NodeDown(node: string)
    | Wait(until: int)

  // ---------- the steps ----------

  function Begin(node: string, now: int): Life {
    Life(now,
         Some(Request(node, AwaitingResponse, 0, false, Some(now + INITIAL_TIMEOUT), None, now + MAX_TRANSFER)),
         {}, [Sent(now)])
  }

  function StatusOr(status: Option<int>, default: int): int {
    if status.Some? && status.value != 0 then status.value else default
  }

  function Fail(l: Life, status: int): Life {
    if l.pending.None? then l else l.(pending := None, trace := l.trace + [Aborted, Rejected(status)])
  }

  predicate InStage(l: Life, stage: Stage) {
    l.pending.Some? && !l.pending.value.aborted && l.pending.value.stage == stage
  }

  function ResetChunk(r: Request, now: int): Request {
    r.(initial := None, chunk := Some(now + CHUNK_TIMEOUT))
  }

  function Respond(l: Life): Life {
    if !InStage(l, AwaitingResponse) then l
    else l.(pending := Some(ResetChunk(l.pending.value.(stage := Streaming), l.now)),
            trace := l.trace + [Responded(l.now)])
  }

  function Arrive(l: Life, number: int, data: Option<Bytes>): Life {
    if !InStage(l, Streaming) then l
    else
      var r := l.pending.value;
      if number != r.next || data.None? || data.value == [] then Fail(l, 502)
      else l.(pending := Some(ResetChunk(r.(next := r.next + 1), l.now)),
              waiting := l.waiting + {r.next},
              trace := l.trace + [Delivered(r.next, data.value, l.now)])
  }

  function Resume(l: Life, k: nat, error: Option<int>, connected: bool): Life {
    var l := l.(waiting := l.waiting - {k});
    if error.Some? then Fail(l, StatusOr(error, 500))
    else if !InStage(l, Streaming) then l
    else if !connected then Fail(l, 503)
    else l.(trace := l.trace + [Acked(k)])
  }

  function Finish(l: Life): Life {
    if InStage(l, Streaming) then l.(pending := None, trace := l.trace + [Resolved]) else l
  }

  predicate Due(timer: Option<int>, now: int) {
    timer.Some? && timer.value <= now
  }

  function FireInitial(l: Life): Life {
    if l.pending.Some? && Due(l.pending.value.initial, l.now) then Fail(l, 504) else l
  }

  function FireChunk(l: Life): Life {
    if l.pending.Some? && Due(l.pending.value.chunk, l.now) then Fail(l, 504) else l
  }

  function FireMax(l: Life): Life {
    if l.pending.Some? && l.pending.value.max <= l.now then Fail(l, 504) else l
  }

  function LoseNode(l: Life, node: string): Life {
    if l.pending.Some? && l.pending.value.node == node then Fail(l, 503) else l
  }

  function Step(l: Life, e: Event): Life {
    match e
    case Response => Respond(l)
    case Chunk(number, data) => Arrive(l, number, data)
    case Continue(k, error, connected) => Resume(l, k, error, connected)
    case End => Finish(l)
    case Error(status) => Fail(l, StatusOr(status, 502))
    case InitialDue => FireInitial(l)
    case ChunkDue => FireChunk(l)
    case MaxDue => FireMax(l)
    case NodeDown(node) => LoseNode(l, node)
    case Wait(until) => l.(now := until)
  }

  /** Time does not pass a timer that is due: the timer fires first. */
  predicate NoTimerBefore(r: Request, until: int) {
    (r.initial.Some? ==> until <= r.initial.value) && (r.chunk.Some? ==> until <= r.chunk.value) && until <= r.max
  }

  predicate Enabled(l: Life, e: Event) {
    match e
    case Continue(k, _, _) => k in l.waiting
    case Wait(until) => l.now <= until && (l.pending.Some? ==> NoTimerBefore(l.pending.value, until))
    case _ => true
  }

  function After(l: Life, es: seq<Event>): Life
    decreases es
  {
    if es == [] then l else After(Step(l, es[0]), es[1..])
  }

  predicate IsRun(l: Life, es: seq<Event>)
    decreases es
  {
    es == [] || (Enabled(l, es[0]) && IsRun(Step(l, es[0]), es[1..]))
  }

  // ---------- what a trace may hold ----------

  predicate Settles(e: Effect) {
    e.Resolved? || e.Rejected?
  }

  predicate Settled(t: seq<Effect>) {
    t != [] && Settles(t[|t| - 1])
  }

  predicate HasResponse(t: seq<Effect>) {
    exists e :: e in t && e.Responded?
  }

  /** The payloads handed to the consumer, in order. */
  function Payloads(t: seq<Effect>): seq<Bytes> {
    if t == [] then []
    else
      var e := t[|t| - 1];
      Payloads(t[..|t| - 1]) + if e.Delivered? then [e.data] else []
  }

  /** The effect may follow the trace: nothing follows a settlement, chunks come in order, no chunk is acked twice. */
  predicate Follows(t: seq<Effect>, e: Effect) {
    && t != [] && !Settled(t)
    && match e
       case Sent(_) => false
       case Responded(_) => !HasResponse(t)
       case Delivered(k, data, _) => HasResponse(t) && k == |Payloads(t)| && data != []
       case Acked(k) => k < |Payloads(t)| && e !in t
       case Aborted => Aborted !in t
       case Resolved => HasResponse(t) && Aborted !in t
       case Rejected(_) => t[|t| - 1] == Aborted
  }

  predicate Orderly(t: seq<Effect>) {
    if |t| <= 1 then |t| == 1 && t[0].Sent? else Orderly(t[..|t| - 1]) && Follows(t[..|t| - 1], t[|t| - 1])
  }

  /** When the node last made progress: its latest chunk, or its response. */
  function LastProgress(t: seq<Effect>): int {
    if t == [] then 0
    else
      var e := t[|t| - 1];
      if e.Delivered? || e.Responded? || e.Sent? then e.at else LastProgress(t[..|t| - 1])
  }

  // ---------- the invariant ----------

  predicate RequestInv(r: Request, t: seq<Effect>, now: int) {
    && t != [] && t[0].Sent? && !r.aborted && r.stage != Done && r.next == |Payloads(t)|
    && r.max == t[0].at + MAX_TRANSFER
    && (if r.stage == AwaitingResponse
        then r.initial == Some(t[0].at + INITIAL_TIMEOUT) && r.chunk == None && !HasResponse(t)
        else r.initial == None && r.chunk == Some(LastProgress(t) + CHUNK_TIMEOUT) && HasResponse(t))
    && Aborted !in t && NoTimerBefore(r, now)
  }

  ghost predicate Inv(l: Life) {
    && Orderly(l.trace)
    && (l.pending.Some? <==> !Settled(l.trace))
    && (l.pending.Some? ==> RequestInv(l.pending.value, l.trace, l.now))
    && Unacked(l.waiting, l.trace)
  }

  ghost predicate Unacked(waiting: set<nat>, t: seq<Effect>) {
    forall k :: k in waiting ==> k < |Payloads(t)| && Acked(k) !in t
  }

  lemma {:induction false} OrderlyStarts(t: seq<Effect>)
    requires Orderly(t)
    ensures t != [] && t[0].Sent?
  {
    if |t| > 1 {
      OrderlyStarts(t[..|t| - 1]);
    }
  }

  lemma Snoc(t: seq<Effect>, e: Effect)
    requires Orderly(t) && Follows(t, e)
    ensures Orderly(t + [e]) && Settled(t + [e]) == Settles(e)
    ensures Payloads(t + [e]) == Payloads(t) + if e.Delivered? then [e.data] else []
    ensures HasResponse(t + [e]) == (HasResponse(t) || e.Responded?)
    ensures LastProgress(t + [e]) == if e.Delivered? || e.Responded? || e.Sent? then e.at else LastProgress(t)
  {
    assert (t + [e])[..|t|] == t;
    assert e in t + [e];
  }

  // ---------- every step keeps the invariant ----------

  lemma BeginKeeps(node: string, now: int)
    ensures Inv(Begin(node, now))
  {
    assert [Sent(now)][..0] == [];
  }

  lemma FailKeeps(l: Life, status: int)
    requires Inv(l)
    ensures Inv(Fail(l, status))
  {
    if l.pending.Some? {
      Snoc(l.trace, Aborted);
      Snoc(l.trace + [Aborted], Rejected(status));
      assert l.trace + [Aborted] + [Rejected(status)] == l.trace + [Aborted, Rejected(status)];
    }
  }

  lemma RespondKeeps(l: Life)
    requires Inv(l)
    ensures Inv(Respond(l))
  {
    OrderlyStarts(l.trace);
    if InStage(l, AwaitingResponse) {
      Snoc(l.trace, Responded(l.now));
    }
  }

  lemma DeliverKeeps(l: Life, r: Request, e: Effect)
    requires Inv(l) && InStage(l, Streaming) && r == l.pending.value
    requires e.Delivered? && e.k == r.next && e.data != [] && e.at == l.now
    ensures Inv(Life(l.now, Some(ResetChunk(r.(next := r.next + 1), l.now)), l.waiting + {r.next}, l.trace + [e]))
  {
    hide Orderly;
    hide Unacked;
    hide HasResponse;
    hide Payloads;
    hide LastProgress;
    hide Settled;
    NotAckedYet(l.trace, e.k);
    Snoc(l.trace, e);
    DeliveredUnacked(l.waiting, l.trace, e);
  }

  lemma ArriveKeeps(l: Life, number: int, data: Option<Bytes>)
    requires Inv(l)
    ensures Inv(Arrive(l, number, data))
  {
    hide Inv;
    hide Fail;
    hide ResetChunk;
    FailKeeps(l, 502);
    if InStage(l, Streaming) && number == l.pending.value.next && data.Some? && data.value != [] {
      DeliverKeeps(l, l.pending.value, Delivered(l.pending.value.next, data.value, l.now));
    }
  }

  lemma DeliveredUnacked(waiting: set<nat>, t: seq<Effect>, e: Effect)
    requires Orderly(t) && Unacked(waiting, t) && e.Delivered? && e.k == |Payloads(t)| && Acked(e.k) !in t
    ensures Unacked(waiting + {e.k}, t + [e])
  {
    assert (t + [e])[..|t|] == t;
  }

  lemma {:induction false} NotAckedYet(t: seq<Effect>, k: nat)
    requires Orderly(t) && |Payloads(t)| <= k
    ensures Acked(k) !in t
  {
    if |t| > 1 {
      NotAckedYet(t[..|t| - 1], k);
      assert t == t[..|t| - 1] + [t[|t| - 1]];
    }
  }

  lemma AckKeeps(l: Life, k: nat)
    requires Inv(l) && InStage(l, Streaming) && k < |Payloads(l.trace)| && Acked(k) !in l.trace && k !in l.waiting
    ensures Inv(l.(trace := l.trace + [Acked(k)]))
  {
    hide Orderly;
    hide HasResponse;
    hide Payloads;
    hide LastProgress;
    hide Settled;
    Snoc(l.trace, Acked(k));
  }

  lemma ResumeKeeps(l: Life, k: nat, error: Option<int>, connected: bool)
    requires Inv(l) && k in l.waiting
    ensures Inv(Resume(l, k, error, connected))
  {
    var m := l.(waiting := l.waiting - {k});
    assert Inv(m) && k < |Payloads(m.trace)| && Acked(k) !in m.trace;
    hide Inv;
    hide Fail;
    FailKeeps(m, StatusOr(error, 500));
    FailKeeps(m, 503);
    if InStage(m, Streaming) {
      AckKeeps(m, k);
    }
  }

  lemma FinishKeeps(l: Life)
    requires Inv(l)
    ensures Inv(Finish(l))
  {
    if InStage(l, Streaming) {
      Snoc(l.trace, Resolved);
    }
  }

  lemma StepKeeps(l: Life, e: Event)
    requires Inv(l) && Enabled(l, e)
    ensures Inv(Step(l, e))
  {
    match e
    case Response => RespondKeeps(l);
    case Chunk(number, data) => ArriveKeeps(l, number, data);
    case Continue(k, error, connected) => ResumeKeeps(l, k, error, connected);
    case End => FinishKeeps(l);
    case Error(status) => FailKeeps(l, StatusOr(status, 502));
    case Wait(until) =>
    case NodeDown(_) => FailKeeps(l, 503);
    case _ => FailKeeps(l, 504);
  }

  lemma {:induction false} RunKeepsInv(l: Life, es: seq<Event>)
    requires Inv(l) && IsRun(l, es)
    ensures Inv(After(l, es))
    decreases es
  {
    if es != [] {
      StepKeeps(l, es[0]);
      RunKeepsInv(Step(l, es[0]), es[1..]);
    }
  }

  // ---------- what that means for a run ----------

  predicate InOrder(t: seq<Effect>) {
    forall i | 0 <= i < |t| && t[i].Delivered? ::
      t[i].k == |Payloads(t[..i])| && t[i].k < |Payloads(t)| && t[i].data == Payloads(t)[t[i].k] && t[i].data != []
  }

  predicate AckedOnce(t: seq<Effect>) {
    && (forall i | 0 <= i < |t| && t[i].Acked? :: t[i].k < |Payloads(t[..i])|)
    && (forall i, j | 0 <= i < j < |t| && t[i].Acked? && t[j].Acked? :: t[i].k != t[j].k)
  }

  lemma {:induction false} OrderlyMeans(t: seq<Effect>)
    requires Orderly(t)
    ensures forall i :: 0 <= i < |t| - 1 ==> !Settles(t[i])
    ensures InOrder(t) && AckedOnce(t)
  {
    hide InOrder;
    hide AckedOnce;
    hide Follows;
    if |t| > 1 {
      var u, e := t[..|t| - 1], t[|t| - 1];
      OrderlyMeans(u);
      assert Settled(u) == Settles(u[|u| - 1]) && !Settled(u) by {
        NotSettled(u, e);
      }
      StillInOrder(u, e);
      StillAckedOnce(u, e);
      assert t == u + [e];
    } else {
      FirstIsOrderly(t);
    }
  }

  lemma NotSettled(t: seq<Effect>, e: Effect)
    requires Follows(t, e)
    ensures t != [] && !Settled(t)
  {
  }

  lemma FirstIsOrderly(t: seq<Effect>)
    requires |t| == 1 && t[0].Sent?
    ensures InOrder(t) && AckedOnce(t)
  {
    assert t[..0] == [];
  }

  lemma StillInOrder(t: seq<Effect>, e: Effect)
    requires InOrder(t) && Follows(t, e)
    ensures InOrder(t + [e])
  {
    var u := t + [e];
    assert u[..|t|] == t;
    forall i | 0 <= i < |t| ensures u[..i] == t[..i] && u[i] == t[i] {
    }
  }

  lemma StillAckedOnce(t: seq<Effect>, e: Effect)
    requires AckedOnce(t) && Follows(t, e)
    ensures AckedOnce(t + [e])
  {
    var u := t + [e];
    assert u[..|t|] == t;
    forall i | 0 <= i < |t| ensures u[..i] == t[..i] && u[i] == t[i] {
    }
  }

  /**
   A request is pending exactly while unsettled and nothing follows its settlement; the consumer got exactly the chunks
   0, 1, 2, ... in order; each was acked at most once, after it arrived.
   */
  ghost predicate SettlesOnce(l: Life) {
    && (l.pending.Some? <==> forall e :: e in l.trace ==> !Settles(e))
    && (forall i :: 0 <= i < |l.trace| - 1 ==> !Settles(l.trace[i]))
    && InOrder(l.trace) && AckedOnce(l.trace)
    && (l.pending.Some? ==> l.pending.value.next == |Payloads(l.trace)|)
  }

  /**
   A pending request waits for the response at most 15 s, then at most 30 s without progress, and 300 s in all; the
   first timer is armed exactly before the response and the second exactly after it.
   */
  predicate InTime(l: Life) {
    l.pending.Some? ==>
      var r := l.pending.value;
      && l.trace != [] && l.trace[0].Sent?
      && r.max == l.trace[0].at + MAX_TRANSFER && l.now <= r.max
      && (r.stage == AwaitingResponse || r.stage == Streaming)
      && (r.initial.Some? <==> r.stage == AwaitingResponse) && (r.chunk.Some? <==> r.stage == Streaming)
      && (r.stage == AwaitingResponse ==> l.now <= l.trace[0].at + INITIAL_TIMEOUT)
      && (r.stage == Streaming ==> l.now <= LastProgress(l.trace) + CHUNK_TIMEOUT)
  }

  lemma InvSettlesOnce(l: Life)
    requires Inv(l)
    ensures SettlesOnce(l)
  {
    OrderlyMeans(l.trace);
    OrderlyStarts(l.trace);
    assert Settled(l.trace) ==> l.trace[|l.trace| - 1] in l.trace;
  }

  lemma InvInTime(l: Life)
    requires Inv(l)
    ensures InTime(l)
  {
    hide Orderly;
    hide Payloads;
    hide LastProgress;
    hide HasResponse;
  }

  /** Whatever the interleaving of suspended handlers. */
  lemma RunSettlesOnce(node: string, start: int, es: seq<Event>)
    requires IsRun(Begin(node, start), es)
    ensures SettlesOnce(After(Begin(node, start), es))
  {
    hide SettlesOnce;
    BeginKeeps(node, start);
    RunKeepsInv(Begin(node, start), es);
    InvSettlesOnce(After(Begin(node, start), es));
  }

  /** The deadlines count from the time the request was sent. */
  lemma RunKeepsDeadlines(node: string, start: int, es: seq<Event>)
    requires IsRun(Begin(node, start), es)
    ensures var l := After(Begin(node, start), es);
            InTime(l) && l.trace != [] && l.trace[0] == Sent(start)
  {
    hide InTime;
    BeginKeeps(node, start);
    RunKeepsInv(Begin(node, start), es);
    InvInTime(After(Begin(node, start), es));
    RunKeepsStart(Begin(node, start), es);
  }

  lemma {:induction false} RunKeepsStart(l: Life, es: seq<Event>)
    requires l.trace != []
    ensures After(l, es).trace != [] && After(l, es).trace[0] == l.trace[0]
    decreases es
  {
    if es != [] {
      RunKeepsStart(Step(l, es[0]), es[1..]);
    }
  }
}
