/**
 The coordinator's table of pending asset requests. Every handler is one step of one request's life, and leaves all
 other requests alone.
 */
module AssetTable {
  import opened AssetRuns
  import opened NodeAssets
  import opened Options

  type Pendings = map<string, Request>
  type Waitings = map<string, set<nat>>
  type Traces = map<string, seq<Effect>>

  function LifeOf(pending: Pendings, now: int, waiting: Waitings, traces: Traces, id: string): Life
    requires waiting.Keys == traces.Keys && id in traces
  {
    Life(now, if id in pending then Some(pending[id]) else None, waiting[id], traces[id])
  }

  function LivesOf(pending: Pendings, now: int, waiting: Waitings, traces: Traces): Lives
    requires waiting.Keys == traces.Keys
  {
    map id | id in traces :: LifeOf(pending, now, waiting, traces, id)
  }

  /** Maps that differ at one id only describe lives that differ at that id only. */
  lemma OneLife(p: Pendings, w: Waitings, t: Traces,
                p': Pendings, w': Waitings, t': Traces, now: int, id: string)
    requires w.Keys == t.Keys == w'.Keys == t'.Keys && id in t
    requires p - {id} == p' - {id} && w - {id} == w' - {id} && t - {id} == t' - {id}
    ensures id in LivesOf(p, now, w, t) && LivesOf(p, now, w, t)[id] == LifeOf(p, now, w, t, id)
    ensures LivesOf(p', now, w', t') == LivesOf(p, now, w, t)[id := LifeOf(p', now, w', t', id)]
  {
    forall x | x in t && x != id ensures LifeOf(p', now, w', t', x) == LifeOf(p, now, w, t, x) {
      assert x in (p - {id}) <==> x in (p' - {id});
      assert x in p ==> (p - {id})[x] == p[x] && (p' - {id})[x] == p'[x];
      assert (w - {id})[x] == w[x] && (w' - {id})[x] == w'[x];
      assert (t - {id})[x] == t[x] && (t' - {id})[x] == t'[x];
    }
  }

  /** Only the request with this id may have changed, and it took the given step. */
  ghost predicate TookStep(p: Pendings, w: Waitings, t: Traces,
                           p': Pendings, w': Waitings, t': Traces, now: int, id: string, e: Event)
    requires w.Keys == t.Keys && w'.Keys == t'.Keys
  {
    && t'.Keys == t.Keys && p - {id} == p' - {id} && w - {id} == w' - {id} && t - {id} == t' - {id}
    && (if id in t then LifeOf(p', now, w', t', id) == Step(LifeOf(p, now, w, t, id), e) else p' == p)
  }

  lemma TookIsOn(p: Pendings, w: Waitings, t: Traces,
                 p': Pendings, w': Waitings, t': Traces, now: int, id: string, e: Event)
    requires w.Keys == t.Keys && w'.Keys == t'.Keys && TookStep(p, w, t, p', w', t', now, id, e)
    ensures LivesOf(p', now, w', t') == On(LivesOf(p, now, w, t), id, e)
  {
    hide Step;
    if id in t {
      OneLife(p, w, t, p', w', t', now, id);
    } else {
      assert w' == w by {
        assert w' - {id} == w' && w - {id} == w;
      }
      assert t' == t by {
        assert t' - {id} == t' && t - {id} == t;
      }
    }
  }

  /** Requests were dropped from the map, each with its abort and its rejection, and nothing else changed. */
  ghost predicate Dropped(p: Pendings, t: Traces, p': Pendings, t': Traces) {
    && t'.Keys == t.Keys
    && (forall id :: id in p' ==> id in p && p'[id] == p[id])
    && (forall id :: id in t ==> t'[id] == if id in p && id !in p' then t[id] + [Aborted, Rejected(503)] else t[id])
  }

  lemma AllLost(p: Pendings, t: Traces, p': Pendings, t': Traces,
                now: int, w: Waitings, node: string)
    requires w.Keys == t.Keys && Dropped(p, t, p', t')
    requires forall id :: id in p ==> (id in p' <==> p[id].node != node)
    ensures LivesOf(p', now, w, t') == OnEach(LivesOf(p, now, w, t), NodeDown(node))
  {
    forall id | id in t ensures LifeOf(p', now, w, t', id) == Step(LifeOf(p, now, w, t, id), NodeDown(node)) {
    }
  }

  class Assets {
    var pending: Pendings
    var now: int
    ghost var waiting: Waitings
    ghost var traces: Traces

    ghost predicate Valid()
      reads this
    {
      pending.Keys <= traces.Keys && waiting.Keys == traces.Keys
    }

    ghost function Abs(): Lives
      reads this
      requires Valid()
    {
      LivesOf(pending, now, waiting, traces)
    }

    ghost function At(id: string): Life
      reads this
      requires Valid() && id in traces
    {
      LifeOf(pending, now, waiting, traces, id)
    }

    twostate predicate Took(id: string, e: Event)
      reads this
    {
      && old(Valid()) && Valid() && now == old(now)
      && TookStep(old(pending), old(waiting), old(traces), pending, waiting, traces, now, id, e)
    }

    constructor (start: int)
      ensures Valid() && Abs() == map[] && now == start
    {
      pending := map[];
      now := start;
      waiting := map[];
      traces := map[];
    }

    method ClearPending(id: string)
      requires Valid()
      modifies this`pending
      ensures Valid() && pending == old(pending) - {id}
    {
      if id !in pending {
        return;
      }
      pending := pending - {id};
    }

    method FailPending(id: string, status: int)
      requires Valid()
      modifies this`pending, this`traces
      ensures Valid() && pending == old(pending) - {id}
      ensures traces == if id in old(pending) then old(traces)[id := old(traces[id]) + [Aborted, Rejected(status)]]
                        else old(traces)
    {
      if id !in pending {
        return;
      }
      pending := pending[id := pending[id].(aborted := true)];
      ClearPending(id);
      traces := traces[id := traces[id] + [Aborted, Rejected(status)]];
    }

    /** Releases every request of a node whose socket dropped, in whatever order the map yields them. */
    method FailForNode(node: string)
      requires Valid()
      modifies this`pending, this`traces
      ensures Valid() && Abs() == OnEach(old(Abs()), NodeDown(node))
      ensures forall id :: id in pending ==> pending[id].node != node
    {
      ghost var p, t := pending, traces;
      var left := pending.Keys;
      while left != {}
        invariant Valid() && traces.Keys == t.Keys && left <= pending.Keys
        invariant forall id :: id in p ==> (id in pending <==> id in left || p[id].node != node)
        invariant Dropped(p, t, pending, traces)
      {
        var id :| id in left;
        left := left - {id};
        if pending[id].node == node {
          FailPending(id, 503);
        }
      }
      AllLost(p, t, pending, traces, now, waiting, node);
    }

    method ResetChunkTimeout(id: string)
      requires Valid()
      modifies this`pending
      ensures Valid()
      ensures pending == if id in old(pending) then old(pending)[id := ResetChunk(old(pending)[id], now)]
                         else old(pending)
    {
      if id !in pending {
        return;
      }
      var r := pending[id];
      if r.initial.Some? {
        r := r.(initial := None);
      }
      r := r.(chunk := Some(now + CHUNK_TIMEOUT));
      pending := pending[id := r];
    }

    /** Opens a request under a fresh id, unless the node is offline. */
    method Proxy(node: string, id: string, connected: bool) returns (accepted: bool)
      requires Valid() && id !in traces
      modifies this`pending, this`waiting, this`traces
      ensures Valid() && accepted == connected
      ensures Abs() == if accepted then old(Abs())[id := Begin(node, now)] else old(Abs())
    {
      if !connected {
        return false;
      }
      pending := pending[id := Request(node, AwaitingResponse, 0, false,
                                       Some(now + INITIAL_TIMEOUT), None, now + MAX_TRANSFER)];
      waiting := waiting[id := {}];
      traces := traces[id := [Sent(now)]];
      return true;
    }

    method HandleResponse(id: string)
      requires Valid()
      modifies this`pending, this`traces
      ensures Took(id, Response)
    {
      if id !in pending || pending[id].aborted || pending[id].stage != AwaitingResponse {
        return;
      }
      pending := pending[id := pending[id].(stage := Streaming)];
      ResetChunkTimeout(id);
      traces := traces[id := traces[id] + [Responded(now)]];
    }

    /** Up to the point where the handler waits for the consumer. */
    method HandleChunk(id: string, number: int, data: Option<Bytes>)
      requires Valid()
      modifies this`pending, this`waiting, this`traces
      ensures Took(id, Chunk(number, data))
    {
      if id !in pending || pending[id].aborted || pending[id].stage != Streaming {
        return;
      }
      var k := pending[id].next;
      if number != k {
        FailPending(id, 502);
        return;
      }
      if data.None? || data.value == [] {
        FailPending(id, 502);
        return;
      }
      Deliver(id, data.value);
    }

    /** Advances past a chunk and hands it to the consumer. */
    method Deliver(id: string, data: Bytes)
      requires Valid() && id in pending
      modifies this`pending, this`waiting, this`traces
      ensures Valid()
      ensures var r := old(pending[id]);
              && pending == old(pending)[id := ResetChunk(r.(next := r.next + 1), now)]
              && waiting == old(waiting)[id := old(waiting[id]) + {r.next}]
              && traces == old(traces)[id := old(traces[id]) + [Delivered(r.next, data, now)]]
    {
      var k := pending[id].next;
      pending := pending[id := pending[id].(next := k + 1)];
      ResetChunkTimeout(id);
      waiting := waiting[id := waiting[id] + {k}];
      traces := traces[id := traces[id] + [Delivered(k, data, now)]];
    }

    /** The rest of the chunk handler, once the consumer is done or has thrown. */
    method ContinueChunk(id: string, k: nat, error: Option<int>, connected: bool)
      requires Valid() && id in traces && k in waiting[id]
      modifies this`pending, this`waiting, this`traces
      ensures Took(id, Continue(k, error, connected))
    {
      waiting := waiting[id := waiting[id] - {k}];
      if error.Some? {
        var status := if error.value != 0 then error.value else 500;
        FailPending(id, status);
        return;
      }
      if id !in pending || pending[id].aborted || pending[id].stage != Streaming {
        return;
      }
      if !connected {
        FailPending(id, 503);
        return;
      }
      traces := traces[id := traces[id] + [Acked(k)]];
    }

    method HandleEnd(id: string)
      requires Valid()
      modifies this`pending, this`traces
      ensures Took(id, End)
    {
      if id !in pending || pending[id].aborted || pending[id].stage != Streaming {
        return;
      }
      pending := pending[id := pending[id].(stage := Done)];
      ClearPending(id);
      traces := traces[id := traces[id] + [Resolved]];
    }

    method HandleError(id: string, status: Option<int>)
      requires Valid()
      modifies this`pending, this`traces
      ensures Took(id, Error(status))
    {
      FailPending(id, if status.Some? && status.value != 0 then status.value else 502);
    }

    method InitialTimer(id: string)
      requires Valid()
      modifies this`pending, this`traces
      ensures Took(id, InitialDue)
    {
      if id in pending && Due(pending[id].initial, now) {
        FailPending(id, 504);
      }
    }

    method ChunkTimer(id: string)
      requires Valid()
      modifies this`pending, this`traces
      ensures Took(id, ChunkDue)
    {
      if id in pending && Due(pending[id].chunk, now) {
        FailPending(id, 504);
      }
    }

    method MaxTimer(id: string)
      requires Valid()
      modifies this`pending, this`traces
      ensures Took(id, MaxDue)
    {
      if id in pending && pending[id].max <= now {
        FailPending(id, 504);
      }
    }

    method Advance(until: int)
      requires Valid()
      modifies this`now
      ensures Valid() && now == until && Abs() == OnEach(old(Abs()), Wait(until))
    {
      now := until;
    }

    /** What a node socket sends about a request, a suspended handler that goes on, or one of its timers. */
    method Dispatch(id: string, e: Event)
      requires Valid() && !e.NodeDown? && !e.Wait?
      requires e.Continue? ==> id in traces && e.k in waiting[id]
      modifies this`pending, this`waiting, this`traces
      ensures Valid() && now == old(now) && Abs() == On(old(Abs()), id, e)
    {
      ghost var p, w, t := pending, waiting, traces;
      match e {
        case Response => HandleResponse(id);
        case Chunk(number, data) => HandleChunk(id, number, data);
        case Continue(k, error, connected) => ContinueChunk(id, k, error, connected);
        case End => HandleEnd(id);
        case Error(status) => HandleError(id, status);
        case InitialDue => InitialTimer(id);
        case ChunkDue => ChunkTimer(id);
        case MaxDue => MaxTimer(id);
      }
      TookIsOn(p, w, t, pending, waiting, traces, now, id, e);
    }

    /** Every event of a run of the table, as the coordinator handles it. */
    method Take(e: TableEvent)
      requires Valid() && Allowed(Table(now, Abs()), e)
      modifies this`pending, this`now, this`waiting, this`traces
      ensures Valid() && Table(now, Abs()) == TableStep(old(Table(now, Abs())), e)
    {
      match e
      case Opened(id, node, connected) => var _ := Proxy(node, id, connected);
      case Handled(id, event) => Dispatch(id, event);
      case NodeLost(node) => FailForNode(node);
      case Passed(until) => Advance(until);
    }
  }
}
