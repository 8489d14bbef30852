/**
 What each event brings about for a request, and what the node and the consumer can rely on over a whole transfer: every
 chunk the node sends is handed over and, once consumed, acknowledged; and a request settles for the causes listed.
 */
module AssetProgress {
  import opened AssetRuns
  import opened NodeAssets
  import opened Options

  // ---------- one event ----------

  /** The status with which an event fails a pending request. */
  function Failure(r: Request, now: int, e: Event): Option<int> {
    match e
    case Chunk(number, data) =>
      if r.stage == Streaming && (number != r.next || data.None? || data.value == []) then Some(502) else None
    case Continue(_, error, connected) =>
      if error.Some? then Some(if error.value == 0 then 500 else error.value)
      else if r.stage == Streaming && !connected then Some(503)
      else None
    case Error(status) => Some(if status.Some? && status.value != 0 then status.value else 502)
    case InitialDue => if r.initial.Some? && r.initial.value <= now then Some(504) else None
    case ChunkDue => if r.chunk.Some? && r.chunk.value <= now then Some(504) else None
    case MaxDue => if r.max <= now then Some(504) else None
    case NodeDown(node) => if r.node == node then Some(503) else None
    case _ => None
  }

  predicate Completes(r: Request, e: Event) {
    e.End? && r.stage == Streaming
  }

  /**
   What an event that does not settle the request does for it: its response, its next chunk, or an acknowledgement.
   */
  function Advance(r: Request, now: int, e: Event): seq<Effect> {
    match e
    case Response => if r.stage == AwaitingResponse then [Responded(now)] else []
    case Chunk(_, data) => if r.stage == Streaming && data.Some? then [Delivered(r.next, data.value, now)] else []
    case Continue(k, _, _) => if r.stage == Streaming then [Acked(k)] else []
    case _ => []
  }

  function Said(r: Request, now: int, e: Event): seq<Effect> {
    if Completes(r, e) then [Resolved]
    else
      match Failure(r, now, e)
      case Some(status) => [Aborted, Rejected(status)]
      case None => Advance(r, now, e)
  }

  /** A pending request after an event: whether it is settled and how, what was said, and when its timers are due. */
  predicate PendingAsTold(l: Life, e: Event, l': Life)
    requires l.pending.Some?
  {
    var r := l.pending.value;
    && l'.trace == l.trace + Said(r, l.now, e)
    && (l'.pending.None? <==> Completes(r, e) || Failure(r, l.now, e).Some?)
    && (l'.pending.Some? ==>
          var r' := l'.pending.value;
          && r'.node == r.node && r'.max == r.max && !r'.aborted
          && r'.stage == (if e.Response? then Streaming else r.stage)
          && r'.next == (if e.Chunk? && r.stage == Streaming then r.next + 1 else r.next)
          && (if Said(r, l.now, e) != [] && !e.Continue? then
                r'.initial == None && r'.chunk == Some(l.now + CHUNK_TIMEOUT)
              else r'.initial == r.initial && r'.chunk == r.chunk))
  }

  /** The consumer's suspended handlers, and the clock. */
  predicate WaitingAsTold(l: Life, e: Event, l': Life) {
    && l'.now == (if e.Wait? then e.until else l.now)
    && l'.waiting ==
         if e.Continue? then l.waiting - {e.k}
         else if e.Chunk? && l'.pending.Some? && l'.pending.value.stage == Streaming
         then l.waiting + {l'.pending.value.next - 1}
         else l.waiting
  }

  /** Every event: a settled request is left alone, and a pending one settles or advances as told. */
  lemma StepExactly(l: Life, e: Event)
    requires Inv(l) && Enabled(l, e)
    ensures l.pending.Some? ==> PendingAsTold(l, e, Step(l, e))
    ensures l.pending.None? ==> Step(l, e).pending.None? && Step(l, e).trace == l.trace
    ensures WaitingAsTold(l, e, Step(l, e))
  {
    hide Orderly;
    hide Payloads;
    hide LastProgress;
    hide HasResponse;
    hide Settled;
    hide Unacked;
  }

  // ---------- every chunk is acknowledged ----------

  /** Every chunk handed to the consumer is acknowledged, or the consumer is still at it. */
  predicate AcksAll(l: Life) {
    l.pending.Some? ==> forall k :: 0 <= k < |Payloads(l.trace)| ==> k in l.waiting || Acked(k) in l.trace
  }

  lemma {:induction false} NoChunkBeforeResponse(t: seq<Effect>)
    requires Orderly(t) && !HasResponse(t)
    ensures Payloads(t) == []
  {
    if |t| > 1 {
      var u, e := t[..|t| - 1], t[|t| - 1];
      assert t == u + [e];
      forall x | x in u ensures !x.Responded? {
        assert x in t;
      }
      NoChunkBeforeResponse(u);
    } else {
      assert Payloads(t) == Payloads(t[..0]);
    }
  }

  /** A handler that is suspended belongs to a request that streams, if it is still pending. */
  lemma WaitingStreams(l: Life, k: nat)
    requires Inv(l) && k in l.waiting && l.pending.Some?
    ensures l.pending.value.stage == Streaming
  {
    if !HasResponse(l.trace) {
      NoChunkBeforeResponse(l.trace);
    }
    hide Payloads;
    hide Orderly;
  }

  lemma PayloadsMore(t: seq<Effect>, e: Effect)
    ensures Payloads(t + [e]) == Payloads(t) + if e.Delivered? then [e.data] else []
  {
    assert (t + [e])[..|t|] == t;
  }

  lemma StepAcks(l: Life, e: Event)
    requires Inv(l) && Enabled(l, e) && AcksAll(l)
    ensures AcksAll(Step(l, e))
  {
    var l' := Step(l, e);
    StepExactly(l, e);
    if l'.pending.Some? {
      if e.Continue? {
        WaitingStreams(l, e.k);
      }
      Advanced(l, e, l');
    }
  }

  lemma Advanced(l: Life, e: Event, l': Life)
    requires Inv(l) && AcksAll(l) && l.pending.Some? && l'.pending.Some?
             && (e.Continue? ==> l.pending.value.stage == Streaming)
    requires PendingAsTold(l, e, l') && WaitingAsTold(l, e, l')
    ensures AcksAll(l')
  {
    var r := l.pending.value;
    assert r.next == |Payloads(l.trace)|;
    hide Inv;
    hide Payloads;
    if Said(r, l.now, e) != [] {
      assert l'.trace == l.trace + [Said(r, l.now, e)[0]];
      PayloadsMore(l.trace, Said(r, l.now, e)[0]);
    } else {
      assert l'.trace == l.trace;
    }
  }

  lemma {:induction false} RunAcks(l: Life, es: seq<Event>)
    requires Inv(l) && IsRun(l, es) && AcksAll(l)
    ensures AcksAll(After(l, es))
    decreases es
  {
    hide Step;
    hide Inv;
    hide AcksAll;
    if es != [] {
      StepKeeps(l, es[0]);
      StepAcks(l, es[0]);
      RunAcks(Step(l, es[0]), es[1..]);
    }
  }

  /**
   In every run of a request, while it is pending, every chunk it handed over is acknowledged or still being consumed.
   */
  lemma RunAcksAll(node: string, start: int, es: seq<Event>)
    requires IsRun(Begin(node, start), es)
    ensures AcksAll(After(Begin(node, start), es))
  {
    BeginKeeps(node, start);
    assert Payloads([Sent(start)]) == Payloads([Sent(start)][..0]);
    RunAcks(Begin(node, start), es);
  }

  // ---------- whole transfers ----------

  /** The payloads of the chunks that come after the response. */
  function Streamed(es: seq<Event>, responded: bool): seq<Bytes>
    decreases es
  {
    if es == [] then []
    else if es[0].Response? then Streamed(es[1..], true)
    else
      (if responded && es[0].Chunk? && es[0].data.Some? then [es[0].data.value] else [])
      + Streamed(es[1..], responded)
  }

  lemma {:induction false} SettledStays(l: Life, es: seq<Event>)
    requires l.pending.None?
    ensures After(l, es).pending.None?
    decreases es
  {
    if es != [] {
      SettledStays(Step(l, es[0]), es[1..]);
    }
  }

  lemma {:induction false} PendingGotAll(l: Life, es: seq<Event>)
    requires Inv(l) && IsRun(l, es) && After(l, es).pending.Some?
    ensures l.pending.Some?
    ensures Payloads(After(l, es).trace) == Payloads(l.trace) + Streamed(es, l.pending.value.stage == Streaming)
    ensures After(l, es).pending.value.stage == Streaming <==>
              l.pending.value.stage == Streaming || exists e :: e in es && e.Response?
    decreases es
  {
    hide Step;
    hide Inv;
    hide Payloads;
    hide PendingAsTold;
    hide WaitingAsTold;
    hide Enabled;
    if l.pending.None? {
      SettledStays(l, es);
    }
    if es == [] {
    } else {
      var m, rest := Step(l, es[0]), es[1..];
      if m.pending.None? {
        SettledStays(m, rest);
      }
      StepKeeps(l, es[0]);
      StepExactly(l, es[0]);
      PendingGotAll(m, rest);
      OnePayload(l, es[0], m);
      StageMoves(l, es[0], m);
      MorePayloads(Payloads(l.trace), es, l.pending.value.stage == Streaming);
      assert forall e :: e in es <==> e == es[0] || e in rest;
    }
  }

  lemma StageMoves(l: Life, e: Event, m: Life)
    requires Inv(l) && l.pending.Some? && m.pending.Some? && PendingAsTold(l, e, m)
    ensures m.pending.value.stage == Streaming <==> l.pending.value.stage == Streaming || e.Response?
  {
    StageHolds(l);
  }

  lemma MorePayloads(got: seq<Bytes>, es: seq<Event>, responded: bool)
    requires es != []
    ensures got + Streamed(es, responded) ==
              got + (if responded && es[0].Chunk? && es[0].data.Some? then [es[0].data.value] else [])
              + Streamed(es[1..], responded || es[0].Response?)
  {
  }

  lemma StageHolds(l: Life)
    requires Inv(l) && l.pending.Some?
    ensures l.pending.value.stage == Streaming || l.pending.value.stage == AwaitingResponse
  {
  }

  lemma OnePayload(l: Life, e: Event, m: Life)
    requires l.pending.Some? && m.pending.Some? && PendingAsTold(l, e, m)
    ensures Payloads(m.trace) == Payloads(l.trace) +
              if l.pending.value.stage == Streaming && e.Chunk? && e.data.Some? then [e.data.value] else []
  {
    var said := Said(l.pending.value, l.now, e);
    if said != [] {
      assert m.trace == l.trace + [said[0]];
      PayloadsMore(l.trace, said[0]);
    } else {
      assert m.trace == l.trace;
    }
  }

  /**
   A transfer that reaches its end: if nothing failed the request until the node sent the end, after its response, the
   request resolves, the consumer got exactly the payloads the node streamed, and each was acknowledged unless the
   consumer was still at it.
   */
  lemma TransferIsWhole(node: string, start: int, es: seq<Event>)
    requires IsRun(Begin(node, start), es) && After(Begin(node, start), es).pending.Some?
    requires exists e :: e in es && e.Response?
    ensures var l := After(Begin(node, start), es);
            var done := Step(l, End);
            && done.pending.None? && done.trace == l.trace + [Resolved]
            && Payloads(done.trace) == Streamed(es, false)
            && forall k :: 0 <= k < |Streamed(es, false)| ==> k in done.waiting || Acked(k) in done.trace
  {
    var l := After(Begin(node, start), es);
    BeginKeeps(node, start);
    RunKeepsInv(Begin(node, start), es);
    PendingGotAll(Begin(node, start), es);
    RunAcksAll(node, start, es);
    StepExactly(l, End);
    PayloadsMore(l.trace, Resolved);
    assert Payloads([Sent(start)]) == Payloads([Sent(start)][..0]);
    hide Inv;
    hide Step;
    hide After;
  }

  // ---------- all requests at once ----------

  /** In every run of the table, every pending request has every chunk acknowledged or still being consumed. */
  lemma TableRunAcksAll(start: int, run: seq<TableEvent>)
    requires IsTableRun(start, run)
    ensures forall id :: id in Reached(start, run).lives ==> AcksAll(Reached(start, run).lives[id])
  {
    hide AcksAll;
    forall id | id in Reached(start, run).lives ensures AcksAll(Reached(start, run).lives[id]) {
      RunTellsStories(start, run, id);
      var birth := Birth(start, run, id).value;
      RunAcksAll(birth.node, birth.at, Story(run, id));
    }
  }
}
