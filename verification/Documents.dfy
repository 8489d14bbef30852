/**
 Buffered documents: the consumer keeps chunks up to a cap and throws on the chunk that exceeds it.
 */
module Documents {
  import opened Options
  import opened NodeAssets

  function Total(chunks: seq<Bytes>): nat {
    if chunks == [] then 0 else Total(chunks[..|chunks| - 1]) + |chunks[|chunks| - 1]|
  }

  predicate Fitting(chunks: seq<Bytes>) {
    Total(chunks) <= MAX_BUFFERED
  }

  /** The longest prefix whose bytes fit in the buffer. */
  function Fits(chunks: seq<Bytes>): seq<Bytes> {
    if chunks == [] || Fitting(chunks) then chunks else Fits(chunks[..|chunks| - 1])
  }

  lemma {:induction false} TotalGrows(chunks: seq<Bytes>, k: nat)
    requires k <= |chunks|
    ensures Total(chunks[..k]) <= Total(chunks)
  {
    if k < |chunks| {
      TotalGrows(chunks[..|chunks| - 1], k);
      assert chunks[..|chunks| - 1][..k] == chunks[..k];
    } else {
      assert chunks[..k] == chunks;
    }
  }

  lemma {:induction false} FitsIsLongest(chunks: seq<Bytes>)
    ensures |Fits(chunks)| <= |chunks| && Fits(chunks) == chunks[..|Fits(chunks)|] && Fitting(Fits(chunks))
    ensures forall k :: 0 <= k <= |chunks| ==> (k <= |Fits(chunks)| <==> Fitting(chunks[..k]))
    ensures Fits(chunks) == chunks <==> Fitting(chunks)
  {
    var n := |chunks| - 1;
    forall k | 0 <= k <= |chunks| && Fitting(chunks) ensures Fitting(chunks[..k]) {
      TotalGrows(chunks, k);
    }
    if chunks != [] && !Fitting(chunks) {
      FitsIsLongest(chunks[..n]);
      assert forall k :: 0 <= k <= n ==> chunks[..n][..k] == chunks[..k];
      assert chunks[..n + 1] == chunks;
    } else {
      assert chunks[..|chunks|] == chunks;
    }
  }

  /** The consumer behind a buffered fetch. `seen` are all chunks it was handed. */
  class DocumentBuffer {
    var chunks: seq<Bytes>
    var bufferedBytes: nat
    ghost var seen: seq<Bytes>

    ghost predicate Valid()
      reads this
    {
      bufferedBytes == Total(seen) && chunks == Fits(seen)
    }

    constructor ()
      ensures Valid() && seen == []
    {
      chunks, bufferedBytes, seen := [], 0, [];
    }

    /** Takes a chunk; `error` is what the consumer throws. */
    method OnChunk(chunk: Bytes) returns (error: Option<int>)
      requires Valid()
      modifies this
      ensures Valid() && seen == old(seen) + [chunk]
      ensures error == if Fitting(seen) then None else Some(502)
    {
      TotalGrows(seen + [chunk], |seen|);
      assert (seen + [chunk])[..|seen|] == seen;
      seen := seen + [chunk];
      bufferedBytes := bufferedBytes + |chunk|;
      if bufferedBytes > MAX_BUFFERED {
        return Some(502);
      }
      chunks := chunks + [chunk];
      return None;
    }

    method OnEnd() returns (body: Bytes)
      requires Valid()
      ensures body == Concat(Fits(seen))
    {
      body := [];
      for i := 0 to |chunks|
        invariant body == Concat(chunks[..i])
      {
        assert chunks[..i + 1] == chunks[..i] + [chunks[i]];
        body := body + chunks[i];
      }
      assert chunks[..|chunks|] == chunks;
    }
  }

  function Concat(chunks: seq<Bytes>): Bytes {
    if chunks == [] then [] else Concat(chunks[..|chunks| - 1]) + chunks[|chunks| - 1]
  }

  /** What the consumer answers is decided by the bytes handed over so far. */
  predicate Buffering(l: Life, e: Event) {
    Enabled(l, e)
    && (e.Continue? && e.k < |Payloads(l.trace)| ==>
       e.error == if Fitting(Payloads(l.trace)[..e.k + 1]) then None else Some(502))
  }

  predicate IsFetch(l: Life, es: seq<Event>)
    decreases es
  {
    es == [] || (Buffering(l, es[0]) && IsFetch(Step(l, es[0]), es[1..]))
  }

  /** A chunk past the cap is still suspended: its rejection has not been handled. */
  predicate RejectionWaits(l: Life) {
    exists k :: k in l.waiting && k < |Payloads(l.trace)| && !Fitting(Payloads(l.trace)[..k + 1])
  }

  ghost predicate OverCapWaits(l: Life) {
    l.pending.Some? ==> (Fitting(Payloads(l.trace)) <==> !RejectionWaits(l))
  }

  lemma RejectionOvershoots(l: Life)
    requires RejectionWaits(l)
    ensures !Fitting(Payloads(l.trace))
  {
    var k :| k in l.waiting && k < |Payloads(l.trace)| && !Fitting(Payloads(l.trace)[..k + 1]);
    TotalGrows(Payloads(l.trace), k + 1);
  }

  lemma StepKeepsOverCap(l: Life, e: Event)
    requires Inv(l) && Buffering(l, e) && OverCapWaits(l)
    ensures OverCapWaits(Step(l, e))
  {
    hide Inv;
    hide Step;
    var m := Step(l, e);
    if m.pending.Some? && RejectionWaits(m) {
      RejectionOvershoots(m);
    }
    if m.pending.Some? && !Fitting(Payloads(m.trace)) {
      PayloadsGrow(l, e);
      OvershootWaits(l, e, m);
    }
  }

  /** A step that leaves the request pending hands over at most one more chunk. */
  lemma PayloadsGrow(l: Life, e: Event)
    requires Step(l, e).pending.Some?
    ensures |Payloads(l.trace)| <= |Payloads(Step(l, e).trace)| <= |Payloads(l.trace)| + 1
    ensures Payloads(Step(l, e).trace)[..|Payloads(l.trace)|] == Payloads(l.trace)
  {
    var m := Step(l, e);
    if |m.trace| > |l.trace| {
      PayloadsSnoc(l.trace, m.trace[|l.trace|]);
      assert m.trace == l.trace + [m.trace[|l.trace|]];
    }
  }

  lemma PayloadsSnoc(t: seq<Effect>, e: Effect)
    ensures Payloads(t + [e]) == Payloads(t) + if e.Delivered? then [e.data] else []
  {
    assert (t + [e])[..|t|] == t;
  }

  lemma OvershootWaits(l: Life, e: Event, m: Life)
    requires Inv(l) && Buffering(l, e) && OverCapWaits(l) && m == Step(l, e)
    requires m.pending.Some? && !Fitting(Payloads(m.trace))
    requires |Payloads(l.trace)| <= |Payloads(m.trace)| <= |Payloads(l.trace)| + 1
    requires Payloads(m.trace)[..|Payloads(l.trace)|] == Payloads(l.trace)
    ensures RejectionWaits(m)
  {
    var before, after := Payloads(l.trace), Payloads(m.trace);
    if after == before {
      var k :| k in l.waiting && k < |before| && !Fitting(before[..k + 1]);
      assert k in m.waiting && !Fitting(after[..k + 1]);
    } else {
      assert after[..|before| + 1] == after;
      assert |before| in m.waiting;
    }
  }

  lemma {:induction false} FetchKeepsOverCap(l: Life, es: seq<Event>)
    requires Inv(l) && OverCapWaits(l) && IsFetch(l, es)
    ensures Inv(After(l, es)) && OverCapWaits(After(l, es))
    decreases es
  {
    if es != [] {
      StepKeeps(l, es[0]);
      StepKeepsOverCap(l, es[0]);
      FetchKeepsOverCap(Step(l, es[0]), es[1..]);
    }
  }

  /**
   When the end of a pending document is handled, what the buffer holds is everything that was sent exactly when no
   rejection for exceeding the cap is still waiting to be handled.
   */
  lemma EndedWhole(node: string, start: int, es: seq<Event>)
    requires IsFetch(Begin(node, start), es)
    ensures var l := After(Begin(node, start), es);
            l.pending.Some? ==>
              && (Fits(Payloads(l.trace)) == Payloads(l.trace) <==> !RejectionWaits(l))
              && (InStage(l, Streaming) ==> Finish(l).trace == l.trace + [Resolved])
  {
    var l := After(Begin(node, start), es);
    BeginKeeps(node, start);
    assert Begin(node, start).trace[..0] == [];
    FetchKeepsOverCap(Begin(node, start), es);
    FitsIsLongest(Payloads(l.trace));
  }

  function TooLong(big: Bytes): seq<Event> {
    [Response] + ([Chunk(0, Some(big))] + [End])
  }

  /** An end handled before the rejection is: the fetch resolves, with a body cut short. */
  lemma TruncatedDocument(node: string, start: int, big: Bytes)
    requires |big| > MAX_BUFFERED
    ensures var l := After(Begin(node, start), TooLong(big));
            IsFetch(Begin(node, start), TooLong(big)) && Resolved in l.trace && Payloads(l.trace) == [big]
            && Fits(Payloads(l.trace)) == []
  {
    var l0 := Begin(node, start);
    var l1 := Step(l0, Response);
    var l2 := Step(l1, Chunk(0, Some(big)));
    assert l2.trace == [Sent(start), Responded(start)] + [Delivered(0, big, start)];
    var l3 := Step(l2, End);
    assert l3.trace == l2.trace + [Resolved];
    assert l3.trace[3] == Resolved;
    OnePayload(start, big);
    FetchCons(l2, End, []);
    assert [End] + [] == [End];
    FetchCons(l1, Chunk(0, Some(big)), [End]);
    FetchCons(l0, Response, [Chunk(0, Some(big))] + [End]);
  }

  lemma FetchCons(l: Life, e: Event, es: seq<Event>)
    ensures After(l, [e] + es) == After(Step(l, e), es)
    ensures IsFetch(l, [e] + es) <==> Buffering(l, e) && IsFetch(Step(l, e), es)
  {
    assert ([e] + es)[1..] == es;
  }

  lemma OnePayload(at: int, big: Bytes)
    ensures var t := [Sent(at), Responded(at)] + [Delivered(0, big, at)];
            Payloads(t) == Payloads(t + [Resolved]) == [big]
    ensures |big| > MAX_BUFFERED ==> Fits([big]) == []
  {
    var t := [Sent(at)];
    assert t[..0] == [];
    PayloadsSnoc(t, Responded(at));
    assert [Sent(at), Responded(at)] == t + [Responded(at)];
    PayloadsSnoc([Sent(at), Responded(at)], Delivered(0, big, at));
    PayloadsSnoc([Sent(at), Responded(at)] + [Delivered(0, big, at)], Resolved);
    assert [big][..0] == [];
  }
}
