/**
 Fixed-window attempt counters.  `Limiter` is the imperative counter with its sweep; the functions below it are what it
 computes over a whole sequence of attempts and sweeps.
 */
module RateLimit {

  type Key = string

  datatype Bucket = Bucket(count: int, expiresAt: int)

  type Buckets = map<Key, Bucket>

  predicate Live(b: Buckets, key: Key, now: int) {
    key in b && now < b[key].expiresAt
  }

  function Consumed(b: Buckets, windowMs: int, key: Key, now: int): Buckets {
    if Live(b, key, now) then b[key := b[key].(count := b[key].count + 1)] else b[key := Bucket(1, now + windowMs)]
  }

  predicate Admits(b: Buckets, max: int, key: Key, now: int) {
    Live(b, key, now) ==> b[key].count + 1 <= max
  }

  function Swept(b: Buckets, now: int): Buckets {
    map key | key in b && now < b[key].expiresAt :: b[key]
  }

  class Limiter {
    const windowMs: int
    const max: int
    var buckets: Buckets

    constructor (windowMs: int, max: int)
      ensures this.windowMs == windowMs && this.max == max && buckets == map[]
    {
      this.windowMs, this.max, buckets := windowMs, max, map[];
    }

    /** Records an attempt; false once the window's allowance is spent. */
    method Consume(key: Key, now: int) returns (admitted: bool)
      modifies this
      ensures buckets == Consumed(old(buckets), windowMs, key, now)
      ensures admitted <==> Admits(old(buckets), max, key, now)
    {
      if key !in buckets || buckets[key].expiresAt <= now {
        buckets := buckets[key := Bucket(1, now + windowMs)];
        return true;
      }
      buckets := buckets[key := buckets[key].(count := buckets[key].count + 1)];
      return buckets[key].count <= max;
    }

    method Sweep(now: int)
      modifies this
      ensures buckets == Swept(old(buckets), now)
    {
      var before := buckets;
      var remaining := buckets.Keys;
      while remaining != {}
        invariant remaining <= before.Keys
        invariant forall key :: key in buckets <==> key in before && (key in remaining || now < before[key].expiresAt)
        invariant forall key :: key in buckets ==> buckets[key] == before[key]
      {
        var key :| key in remaining;
        if buckets[key].expiresAt <= now {
          buckets := buckets - {key};
        }
        remaining := remaining - {key};
      }
    }
  }

  // ---------- sequences of attempts and sweeps ----------

  datatype Event = Attempt(key: Key, at: int) | Sweeps(at: int)

  /** The clock never goes back. */
  predicate Ordered(es: seq<Event>) {
    forall i, j | 0 <= i < j < |es| :: es[i].at <= es[j].at
  }

  function Next(b: Buckets, windowMs: int, e: Event): Buckets {
    match e
    case Attempt(key, at) => Consumed(b, windowMs, key, at)
    case Sweeps(at) => Swept(b, at)
  }

  /** The answers given to the attempts, in order. */
  function Answers(b: Buckets, windowMs: int, max: int, es: seq<Event>): seq<bool>
    decreases es
  {
    if es == [] then []
    else
      (match es[0]
       case Attempt(key, at) => [Admits(b, max, key, at)]
       case Sweeps(_) => [])
      + Answers(Next(b, windowMs, es[0]), windowMs, max, es[1..])
  }

  /** How many attempts on `key` in the half-open interval [from, to) are admitted. */
  function Admitted(b: Buckets, windowMs: int, max: int, es: seq<Event>, key: Key, from: int, to: int): nat
    decreases es
  {
    if es == [] then 0
    else
      (if es[0].Attempt? && es[0].key == key && from <= es[0].at < to && Admits(b, max, key, es[0].at) then 1 else 0)
      + Admitted(Next(b, windowMs, es[0]), windowMs, max, es[1..], key, from, to)
  }

  // ---------- sweeps are invisible ----------

  function WithoutSweeps(es: seq<Event>): seq<Event> {
    if es == [] then [] else (if es[0].Sweeps? then [] else [es[0]]) + WithoutSweeps(es[1..])
  }

  /** `b` is `c` without some buckets that have expired by `now`. */
  ghost predicate Thinner(b: Buckets, c: Buckets, now: int) {
    && (forall key :: key in b ==> key in c && b[key] == c[key])
    && (forall key :: key in c && key !in b ==> c[key].expiresAt <= now)
  }

  lemma {:induction false} SweepsInvisible(b: Buckets, c: Buckets, windowMs: int, max: int, es: seq<Event>, now: int)
    requires Ordered(es) && (es != [] ==> now <= es[0].at) && Thinner(b, c, now)
    ensures Answers(b, windowMs, max, es) == Answers(c, windowMs, max, WithoutSweeps(es))
    decreases es
  {
    if es != [] {
      var e := es[0];
      var rest := WithoutSweeps(es[1..]);
      if e.Sweeps? {
        SweepsInvisible(Swept(b, e.at), c, windowMs, max, es[1..], e.at);
        assert WithoutSweeps(es) == rest;
      } else {
        var b', c' := Consumed(b, windowMs, e.key, e.at), Consumed(c, windowMs, e.key, e.at);
        assert Thinner(b', c', e.at);
        SweepsInvisible(b', c', windowMs, max, es[1..], e.at);
        assert WithoutSweeps(es) == [e] + rest;
        assert ([e] + rest)[1..] == rest;
      }
    }
  }

  /** Sweeps at whatever times never change an answer. */
  lemma SweepsNeverChangeAnswers(windowMs: int, max: int, es: seq<Event>)
    requires Ordered(es)
    ensures Answers(map[], windowMs, max, es) == Answers(map[], windowMs, max, WithoutSweeps(es))
  {
    if es == [] {
    } else {
      SweepsInvisible(map[], map[], windowMs, max, es, es[0].at);
    }
  }

  // ---------- how much an interval admits ----------

  function AtLeastOne(max: int): nat {
    if max < 1 then 1 else max
  }

  /** What the current bucket still admits before `to`, counting one more window if it expires before `to`. */
  function Allowance(b: Buckets, max: int, key: Key, to: int): nat {
    var m := AtLeastOne(max);
    if key !in b then m
    else
      var left := if b[key].count < m then m - b[key].count else 0;
      if b[key].expiresAt < to then left + m else left
  }

  ghost predicate Counted(b: Buckets) {
    forall key :: key in b ==> 1 <= b[key].count
  }

  lemma {:induction false} NothingLater(
      b: Buckets, windowMs: int, max: int, es: seq<Event>, key: Key, from: int, to: int)
    requires Ordered(es) && (es != [] ==> to <= es[0].at)
    ensures Admitted(b, windowMs, max, es, key, from, to) == 0
    decreases es
  {
    if es != [] {
      NothingLater(Next(b, windowMs, es[0]), windowMs, max, es[1..], key, from, to);
    }
  }

  /** Once inside an interval no longer than a window, the current bucket and one more are all that can admit. */
  lemma {:induction false} InsideInterval(
      b: Buckets, windowMs: int, max: int, es: seq<Event>, key: Key, from: int, to: int)
    requires Ordered(es) && (es != [] ==> from <= es[0].at) && to <= from + windowMs && Counted(b)
    ensures Admitted(b, windowMs, max, es, key, from, to) <= Allowance(b, max, key, to)
    decreases es
  {
    if es != [] {
      var e := es[0];
      var b' := Next(b, windowMs, e);
      if to <= e.at {
        NothingLater(b', windowMs, max, es[1..], key, from, to);
      } else {
        InsideInterval(b', windowMs, max, es[1..], key, from, to);
      }
    }
  }

  /**
   Any half-open interval of one window's length admits at most 2*max - 1 attempts per key, one less than two full
   windows: if the first of the two windows opened inside the interval the second opens after it.  A limit below one
   still admits the attempt that opens a window, hence `AtLeastOne`.
   */
  lemma {:induction false} IntervalBound(b: Buckets, windowMs: int, max: int, es: seq<Event>, key: Key, from: int)
    requires Ordered(es) && Counted(b)
    ensures Admitted(b, windowMs, max, es, key, from, from + windowMs) <= 2 * AtLeastOne(max) - 1
    decreases es
  {
    if es != [] {
      if from <= es[0].at {
        InsideInterval(b, windowMs, max, es, key, from, from + windowMs);
      } else {
        IntervalBound(Next(b, windowMs, es[0]), windowMs, max, es[1..], key, from);
      }
    }
  }

  /** Each fixed window, from the attempt that opens it until it expires, admits at most `max`. */
  lemma WindowBound(b: Buckets, windowMs: int, max: int, es: seq<Event>, key: Key)
    requires Ordered(es) && Counted(b) && windowMs > 0
    requires es != [] && es[0].Attempt? && es[0].key == key && !Live(b, key, es[0].at)
    ensures Admitted(b, windowMs, max, es, key, es[0].at, es[0].at + windowMs) <= AtLeastOne(max)
  {
    InsideInterval(Consumed(b, windowMs, key, es[0].at), windowMs, max, es[1..], key, es[0].at, es[0].at + windowMs);
  }

  // ---------- the bound is attained ----------

  function Burst(key: Key, n: nat, at: int): seq<Event> {
    seq(n, _ => Attempt(key, at))
  }

  lemma {:induction false} BurstAdmits(
      b: Buckets, windowMs: int, max: int, key: Key, n: nat, at: int, more: seq<Event>, from: int, to: int)
    requires from <= at < to && Live(b, key, at) && b[key].count + n <= max
    ensures Admitted(b, windowMs, max, Burst(key, n, at) + more, key, from, to)
         == n + Admitted(b[key := b[key].(count := b[key].count + n)], windowMs, max, more, key, from, to)
  {
    var es := Burst(key, n, at) + more;
    if n == 0 {
      assert es == more;
      assert b[key := b[key].(count := b[key].count + n)] == b;
    } else {
      assert es[0] == Attempt(key, at) && es[1..] == Burst(key, n - 1, at) + more;
      var c := Consumed(b, windowMs, key, at);
      BurstAdmits(c, windowMs, max, key, n - 1, at, more, from, to);
      assert c[key := c[key].(count := c[key].count + (n - 1))] == b[key := b[key].(count := b[key].count + n)];
    }
  }

  /** A whole allowance at the moment the first window ends. */
  function SecondWave(key: Key, windowMs: int, max: nat): seq<Event>
    requires max >= 1
  {
    [Attempt(key, windowMs)] + Burst(key, max - 1, windowMs)
  }

  /** One attempt opens a window; the rest of two allowances fits around its end. */
  function Worst(key: Key, windowMs: int, max: nat): seq<Event>
    requires max >= 1
  {
    [Attempt(key, 0)] + (Burst(key, max - 1, windowMs - 1) + SecondWave(key, windowMs, max))
  }

  lemma SecondWaveAdmits(b: Buckets, windowMs: int, max: nat, key: Key, from: int, to: int)
    requires windowMs >= 1 && max >= 1 && from <= windowMs < to && !Live(b, key, windowMs)
    ensures Admitted(b, windowMs, max, SecondWave(key, windowMs, max), key, from, to) == max
  {
    var es, rest := SecondWave(key, windowMs, max), Burst(key, max - 1, windowMs);
    assert es[0] == Attempt(key, windowMs) && es[1..] == rest + [];
    BurstAdmits(Consumed(b, windowMs, key, windowMs), windowMs, max, key, max - 1, windowMs, [], from, to);
  }

  lemma WorstIsOrdered(windowMs: int, max: nat, key: Key)
    requires windowMs >= 2 && max >= 1
    ensures Ordered(Worst(key, windowMs, max))
  {
    var es := Worst(key, windowMs, max);
    assert forall i :: 0 <= i < |es| ==>
      es[i].at == if i == 0 then 0 else if i < max then windowMs - 1 else windowMs;
  }

  lemma IntervalBoundIsTight(windowMs: int, max: nat, key: Key)
    requires windowMs >= 2 && max >= 1
    ensures var es, from := Worst(key, windowMs, max), windowMs - 1;
            Ordered(es) && Admitted(map[], windowMs, max, es, key, from, from + windowMs) == 2 * max - 1
  {
    hide Ordered;
    hide Burst;
    hide SecondWave;
    var from, to := windowMs - 1, 2 * windowMs - 1;
    var es := Worst(key, windowMs, max);
    var wave := SecondWave(key, windowMs, max);
    WorstIsOrdered(windowMs, max, key);
    assert es[0] == Attempt(key, 0) && es[1..] == Burst(key, max - 1, windowMs - 1) + wave;
    var b := Consumed(map[], windowMs, key, 0);
    BurstAdmits(b, windowMs, max, key, max - 1, windowMs - 1, wave, from, to);
    SecondWaveAdmits(b[key := b[key].(count := b[key].count + (max - 1))], windowMs, max, key, from, to);
  }

  // ---------- when an attempt is refused ----------

  function Reached(windowMs: int, es: seq<Event>): Buckets
    decreases |es|
  {
    if es == [] then map[] else Next(Reached(windowMs, es[..|es| - 1]), windowMs, es[|es| - 1])
  }

  predicate On(e: Event, key: Key) {
    e.Attempt? && e.key == key
  }

  /** How many attempts were made on `key` from a time on. */
  function AttemptsSince(es: seq<Event>, key: Key, from: int): nat
    decreases |es|
  {
    if es == [] then 0
    else AttemptsSince(es[..|es| - 1], key, from) + if On(es[|es| - 1], key) && from <= es[|es| - 1].at then 1 else 0
  }

  lemma {:induction false} NoneSince(es: seq<Event>, key: Key, from: int)
    requires forall e :: e in es && On(e, key) ==> e.at < from
    ensures AttemptsSince(es, key, from) == 0
    decreases |es|
  {
    if es != [] {
      var front := es[..|es| - 1];
      assert forall e :: e in front ==> e in es;
      assert es[|es| - 1] in es;
      NoneSince(front, key, from);
    }
  }

  /** The bucket opened at an attempt and counts the attempts since; those it does not know of are past. */
  ghost predicate CountsSince(b: Buckets, windowMs: int, es: seq<Event>, key: Key, now: int) {
    && (key in b ==>
          var start := b[key].expiresAt - windowMs;
          b[key].count == AttemptsSince(es, key, start) && Attempt(key, start) in es && start <= now)
    && (forall e :: e in es && On(e, key) ==> e.at < now || (key in b && e.at < b[key].expiresAt))
  }

  lemma CountsMore(b: Buckets, windowMs: int, es: seq<Event>, e: Event, key: Key, now: int)
    requires windowMs > 0 && CountsSince(b, windowMs, es, key, now) && now <= e.at
    ensures CountsSince(Next(b, windowMs, e), windowMs, es + [e], key, e.at)
  {
    var all := es + [e];
    assert all[..|es|] == es;
    assert forall x :: x in all <==> x in es || x == e;
    if On(e, key) && !Live(b, key, e.at) {
      NoneSince(es, key, e.at);
    }
  }

  lemma {:induction false} RunCounts(windowMs: int, es: seq<Event>, key: Key)
    requires windowMs > 0 && Ordered(es) && es != []
    ensures CountsSince(Reached(windowMs, es), windowMs, es, key, es[|es| - 1].at)
    decreases |es|
  {
    hide CountsSince;
    var front, e := es[..|es| - 1], es[|es| - 1];
    assert es == front + [e];
    if front == [] {
      NothingCounts(windowMs, key, e.at);
      CountsMore(map[], windowMs, [], e, key, e.at);
    } else {
      RunCounts(windowMs, front, key);
      CountsMore(Reached(windowMs, front), windowMs, front, e, key, front[|front| - 1].at);
    }
  }

  lemma NothingCounts(windowMs: int, key: Key, now: int)
    ensures CountsSince(map[], windowMs, [], key, now)
  {
  }

  /**
   After any run, whatever was swept: an attempt is refused exactly when it falls into a window that an earlier attempt
   opened and in which at least `max` attempts on its key were already made.
   */
  lemma RefusedExactly(windowMs: int, max: int, es: seq<Event>, key: Key, now: int)
    requires windowMs > 0 && Ordered(es) && forall e :: e in es ==> e.at <= now
    ensures var b := Reached(windowMs, es);
            !Admits(b, max, key, now) <==>
              && Live(b, key, now) && Attempt(key, b[key].expiresAt - windowMs) in es
              && AttemptsSince(es, key, b[key].expiresAt - windowMs) >= max
  {
    if es != [] {
      RunCounts(windowMs, es, key);
    }
  }
}
