/**
 The connectivity bar: a node's recorded transitions rendered as the segments of a time window.
 */
module Connectivity {
  import opened Options

  /** A recorded transition; a time that is not a finite number is None. */
  datatype Event = Event(online: bool, at: Option<int>)

  /** A transition with a usable time. */
  datatype Mark = Mark(online: bool, ts: int)

  /** `online` is None where nothing is known. */
  datatype Segment = Segment(online: Option<bool>, startMs: int, endMs: int)

  function Finite(events: seq<Event>): seq<Mark> {
    if events == [] then []
    else (if events[0].at.Some? then [Mark(events[0].online, events[0].at.value)] else []) + Finite(events[1..])
  }

  // ---------- which transition counts at an instant ----------

  function Later(m: Mark, rest: Option<Mark>, t: int): Option<Mark> {
    if t < m.ts || (rest.Some? && m.ts <= rest.value.ts) then rest else Some(m)
  }

  /** Among the marks at or before `t`, the one with the greatest time, the last of them when several share it. */
  function Latest(marks: seq<Mark>, t: int): Option<Mark> {
    if marks == [] then None else Later(marks[0], Latest(marks[1..], t), t)
  }

  function StateAt(marks: seq<Mark>, t: int): Option<bool> {
    match Latest(marks, t)
    case Some(m) => Some(m.online)
    case None => None
  }

  /** Mark `k` is the latest at `t`: at or before it, and no other such mark is later, or as late and further on. */
  ghost predicate IsLatest(marks: seq<Mark>, t: int, k: nat) {
    && k < |marks| && marks[k].ts <= t
    && forall j :: 0 <= j < |marks| && marks[j].ts <= t ==>
         marks[j].ts < marks[k].ts || (marks[j].ts == marks[k].ts && j <= k)
  }

  lemma {:induction false} LatestMeans(marks: seq<Mark>, t: int)
    ensures Latest(marks, t).None? <==> forall j :: 0 <= j < |marks| ==> t < marks[j].ts
    ensures Latest(marks, t).Some? ==> exists k: nat :: IsLatest(marks, t, k) && marks[k] == Latest(marks, t).value
  {
    if marks != [] {
      LatestMeans(marks[1..], t);
      var rest := Latest(marks[1..], t);
      if Latest(marks, t).Some? {
        var k: nat := 0;
        if rest.Some? {
          var k': nat :| IsLatest(marks[1..], t, k') && marks[1..][k'] == rest.value;
          if Latest(marks, t) == rest {
            k := k' + 1;
          }
        }
        assert forall j :: 0 < j < |marks| ==> marks[j] == marks[1..][j - 1];
        assert IsLatest(marks, t, k) && marks[k] == Latest(marks, t).value;
      }
    }
  }

  // ---------- sorting ----------

  predicate Sorted(s: seq<Mark>) {
    forall i, j | 0 <= i < j < |s| :: s[i].ts <= s[j].ts
  }

  function Insert(m: Mark, s: seq<Mark>): (r: seq<Mark>)
    requires Sorted(s)
    ensures Sorted(r) && |r| == |s| + 1 && forall x :: x in r <==> x == m || x in s
  {
    if s == [] || m.ts <= s[0].ts then [m] + s
    else
      var r := Insert(m, s[1..]);
      assert s == [s[0]] + s[1..];
      assert forall x :: x in s <==> x == s[0] || x in s[1..];
      assert forall x | x in r :: s[0].ts <= x.ts;
      [s[0]] + r
  }

  /** A stable sort by time. */
  function Sort(s: seq<Mark>): (r: seq<Mark>)
    ensures Sorted(r) && |r| == |s| && forall x :: x in r <==> x in s
  {
    if s == [] then []
    else
      assert forall x :: x in s <==> x == s[0] || x in s[1..];
      Insert(s[0], Sort(s[1..]))
  }

  lemma {:induction false} InsertKeepsLatest(m: Mark, s: seq<Mark>, t: int)
    requires Sorted(s)
    ensures Latest(Insert(m, s), t) == Later(m, Latest(s, t), t)
  {
    if s == [] || m.ts <= s[0].ts {
      assert ([m] + s)[1..] == s;
    } else {
      InsertKeepsLatest(m, s[1..], t);
      assert Insert(m, s)[1..] == Insert(m, s[1..]);
    }
  }

  /** Sorting is stable: it changes the state at no instant. */
  lemma {:induction false} SortKeepsLatest(s: seq<Mark>, t: int)
    ensures Latest(Sort(s), t) == Latest(s, t)
  {
    if s != [] {
      SortKeepsLatest(s[1..], t);
      InsertKeepsLatest(s[0], Sort(s[1..]), t);
    }
  }

  lemma {:induction false} SortedLatest(s: seq<Mark>, m: nat, t: int)
    requires Sorted(s) && m <= |s| && (m > 0 ==> s[m - 1].ts <= t) && (m < |s| ==> t < s[m].ts)
    ensures Latest(s, t) == if m == 0 then None else Some(s[m - 1])
  {
    if s != [] {
      if m == 0 {
        SortedLatest(s[1..], 0, t);
      } else {
        SortedLatest(s[1..], m - 1, t);
      }
    }
  }

  // ---------- what the bar must show ----------

  predicate InWindow(m: Mark, windowStart: int, now: int) {
    windowStart < m.ts <= now
  }

  predicate AnyInWindow(marks: seq<Mark>, windowStart: int, now: int) {
    exists m :: m in marks && InWindow(m, windowStart, now)
  }

  /**
   At each instant the state of the last transition at or before it, unknown before the first one, except that live
   presence covers the whole window when there is history but none of it inside the window.
   */
  function Expected(marks: seq<Mark>, windowStart: int, now: int, live: Option<bool>, t: int): Option<bool> {
    if marks != [] && !AnyInWindow(marks, windowStart, now) && live.Some? then live else StateAt(marks, t)
  }

  predicate Tiles(segs: seq<Segment>, a: int, b: int) {
    if segs == [] then a == b else segs[0].startMs == a && a < segs[0].endMs && Tiles(segs[1..], segs[0].endMs, b)
  }

  predicate NeighboursDiffer(segs: seq<Segment>) {
    forall i | 0 <= i < |segs| - 1 :: segs[i].online != segs[i + 1].online
  }

  predicate Covers(s: Segment, t: int) {
    s.startMs <= t < s.endMs
  }

  ghost predicate Shows(segs: seq<Segment>, marks: seq<Mark>, windowStart: int, now: int, live: Option<bool>) {
    forall i, t :: 0 <= i < |segs| && Covers(segs[i], t) ==>
      segs[i].online == Expected(marks, windowStart, now, live, t)
  }

  /**
   The segments tile the window without gap or overlap, neighbours differ, and every instant shows the right state.
   */
  ghost predicate IsBar(segs: seq<Segment>, marks: seq<Mark>, windowStart: int, now: int, live: Option<bool>) {
    if windowStart < now then
      Tiles(segs, windowStart, now) && NeighboursDiffer(segs) && Shows(segs, marks, windowStart, now, live)
    else segs == if marks == [] then [Segment(None, windowStart, now)] else []
  }

  // ---------- the form is unique ----------

  lemma {:induction false} TilesBounds(segs: seq<Segment>, a: int, b: int)
    requires Tiles(segs, a, b)
    ensures a <= b && (segs != [] ==> a < b)
    ensures forall i :: 0 <= i < |segs| ==> a <= segs[i].startMs < segs[i].endMs <= b
    ensures forall i :: 0 <= i < |segs| - 1 ==> segs[i].endMs == segs[i + 1].startMs
    ensures segs != [] ==> segs[0].startMs == a && segs[|segs| - 1].endMs == b
  {
    if segs != [] {
      TilesBounds(segs[1..], segs[0].endMs, b);
      forall i | 0 <= i < |segs| ensures a <= segs[i].startMs < segs[i].endMs <= b {
        assert i > 0 ==> segs[i] == segs[1..][i - 1];
      }
      forall i | 0 <= i < |segs| - 1 ensures segs[i].endMs == segs[i + 1].startMs {
        assert i > 0 ==> segs[i] == segs[1..][i - 1] && segs[i + 1] == segs[1..][i];
      }
    }
  }

  /** Two tilings show the same at an instant both cover. */
  ghost predicate Agree(s: seq<Segment>, r: seq<Segment>) {
    forall i, j, t :: 0 <= i < |s| && 0 <= j < |r| && Covers(s[i], t) && Covers(r[j], t) ==> s[i].online == r[j].online
  }

  lemma FirstEndsAgree(s: seq<Segment>, r: seq<Segment>, a: int, b: int)
    requires Tiles(s, a, b) && Tiles(r, a, b) && s != [] && r != [] && NeighboursDiffer(s) && Agree(s, r)
    ensures r[0].endMs <= s[0].endMs
  {
    TilesBounds(s, a, b);
    TilesBounds(r, a, b);
    if s[0].endMs < r[0].endMs {
      assert Covers(s[0], a) && Covers(r[0], a);
      assert |s| > 1;
      var t := s[1].startMs;
      assert Covers(s[1], t) && Covers(r[0], t);
    }
  }

  lemma TailAgrees(s: seq<Segment>, r: seq<Segment>)
    requires s != [] && r != [] && NeighboursDiffer(s) && NeighboursDiffer(r) && Agree(s, r)
    ensures NeighboursDiffer(s[1..]) && NeighboursDiffer(r[1..]) && Agree(s[1..], r[1..])
  {
    assert forall i :: 0 <= i < |s| - 1 ==> s[1..][i] == s[i + 1];
    assert forall i :: 0 <= i < |r| - 1 ==> r[1..][i] == r[i + 1];
  }

  /** The canonical form is unique. */
  lemma {:induction false} CanonicalUnique(s: seq<Segment>, r: seq<Segment>, a: int, b: int)
    requires Tiles(s, a, b) && Tiles(r, a, b) && NeighboursDiffer(s) && NeighboursDiffer(r) && Agree(s, r)
    ensures s == r
  {
    TilesBounds(s, a, b);
    TilesBounds(r, a, b);
    if s != [] && r != [] {
      FirstEndsAgree(s, r, a, b);
      FirstEndsAgree(r, s, a, b);
      assert Covers(s[0], a) && Covers(r[0], a);
      assert s[0] == r[0];
      TailAgrees(s, r);
      hide Agree;
      hide NeighboursDiffer;
      CanonicalUnique(s[1..], r[1..], s[0].endMs, b);
      assert s == [s[0]] + s[1..] && r == [r[0]] + r[1..];
    }
  }

  /** A bar is determined by what it must show. */
  lemma BarUnique(
      s: seq<Segment>, r: seq<Segment>, marks: seq<Mark>, others: seq<Mark>,
      windowStart: int, now: int, live: Option<bool>)
    requires IsBar(s, marks, windowStart, now, live) && IsBar(r, others, windowStart, now, live)
    requires marks == [] <==> others == []
    requires forall t :: windowStart <= t < now ==>
               Expected(marks, windowStart, now, live, t) == Expected(others, windowStart, now, live, t)
    ensures s == r
  {
    if windowStart < now {
      TilesBounds(s, windowStart, now);
      TilesBounds(r, windowStart, now);
      forall i, j, t | 0 <= i < |s| && 0 <= j < |r| && Covers(s[i], t) && Covers(r[j], t)
        ensures s[i].online == r[j].online
      {
        assert windowStart <= t < now;
        assert s[i].online == Expected(marks, windowStart, now, live, t);
        assert r[j].online == Expected(others, windowStart, now, live, t);
      }
      CanonicalUnique(s, r, windowStart, now);
    }
  }

  // ---------- building the bar ----------

  function UpTo(s: seq<Mark>, t: int): seq<Mark> {
    if s == [] then [] else (if s[0].ts <= t then [s[0]] else []) + UpTo(s[1..], t)
  }

  function Within(s: seq<Mark>, windowStart: int, now: int): seq<Mark> {
    if s == [] then []
    else (if InWindow(s[0], windowStart, now) then [s[0]] else []) + Within(s[1..], windowStart, now)
  }

  /** Filtering a sorted history cuts out a prefix, and then a slice. */
  lemma {:induction false} UpToIsPrefix(s: seq<Mark>, t: int)
    requires Sorted(s)
    ensures |UpTo(s, t)| <= |s| && UpTo(s, t) == s[..|UpTo(s, t)|]
    ensures forall i :: 0 <= i < |s| ==> (s[i].ts <= t <==> i < |UpTo(s, t)|)
  {
    if s != [] {
      UpToIsPrefix(s[1..], t);
      assert forall i :: 0 < i < |s| ==> s[i] == s[1..][i - 1];
    }
  }

  lemma {:induction false} WithinIsSlice(s: seq<Mark>, windowStart: int, now: int)
    requires Sorted(s) && windowStart <= now
    ensures |UpTo(s, windowStart)| <= |UpTo(s, now)| <= |s|
    ensures Within(s, windowStart, now) == s[|UpTo(s, windowStart)|..|UpTo(s, now)|]
  {
    if s != [] {
      var t := s[1..];
      WithinIsSlice(t, windowStart, now);
      var a, b := |UpTo(t, windowStart)|, |UpTo(t, now)|;
      UpToSkips(s, windowStart);
      UpToSkips(s, now);
      SliceStep(s, a, b);
      hide UpTo;
      hide Sorted;
      if InWindow(s[0], windowStart, now) {
        assert a == 0;
        assert Within(s, windowStart, now) == [s[0]] + t[..b];
      } else {
        assert Within(s, windowStart, now) == Within(t, windowStart, now);
      }
    }
  }

  lemma SliceStep<T>(s: seq<T>, a: nat, b: nat)
    requires s != [] && a <= b <= |s| - 1
    ensures s[1 + a..1 + b] == s[1..][a..b]
    ensures s[0..1 + b] == [s[0]] + s[1..][0..b]
  {
  }

  lemma UpToSkips(s: seq<Mark>, t: int)
    requires Sorted(s) && s != []
    ensures |UpTo(s, t)| == if s[0].ts <= t then 1 + |UpTo(s[1..], t)| else 0
    ensures t < s[0].ts ==> UpTo(s[1..], t) == []
  {
    UpToIsPrefix(s, t);
    UpToIsPrefix(s[1..], t);
    if t < s[0].ts && s[1..] != [] {
      assert s[1..][0] == s[1];
    }
  }

  lemma {:induction false} WithinMeans(s: seq<Mark>, windowStart: int, now: int)
    ensures forall m :: m in Within(s, windowStart, now) <==> m in s && InWindow(m, windowStart, now)
  {
    if s != [] {
      WithinMeans(s[1..], windowStart, now);
      assert forall m :: m in s <==> m == s[0] || m in s[1..];
    }
  }

  lemma {:induction false} WithinNothing(s: seq<Mark>, windowStart: int, now: int)
    requires now <= windowStart
    ensures Within(s, windowStart, now) == []
  {
    if s != [] {
      WithinNothing(s[1..], windowStart, now);
    }
  }

  lemma {:induction false} TilesSnoc(segs: seq<Segment>, a: int, b: int, online: Option<bool>, c: int)
    requires Tiles(segs, a, b) && b < c
    ensures Tiles(segs + [Segment(online, b, c)], a, c)
  {
    var r := segs + [Segment(online, b, c)];
    if segs != [] {
      TilesSnoc(segs[1..], segs[0].endMs, b, online, c);
      assert r[1..] == segs[1..] + [Segment(online, b, c)];
    }
  }

  lemma {:induction false} TilesExtend(segs: seq<Segment>, a: int, b: int, c: int)
    requires Tiles(segs, a, b) && b < c && segs != []
    ensures Tiles(Extend(segs, c), a, c)
  {
    if |segs| > 1 {
      TilesExtend(segs[1..], segs[0].endMs, b, c);
      assert Extend(segs, c)[1..] == Extend(segs[1..], c);
    }
  }

  function Extend(segs: seq<Segment>, endMs: int): seq<Segment>
    requires segs != []
  {
    segs[|segs| - 1 := segs[|segs| - 1].(endMs := endMs)]
  }

  /** Collapses adjacent runs of the same state. */
  method Collapse(
      segments: seq<Segment>, ghost last: int, ghost marks: seq<Mark>,
      ghost windowStart: int, ghost now: int, ghost live: Option<bool>)
    returns (merged: seq<Segment>)
    requires Tiles(segments, windowStart, last) && Shows(segments, marks, windowStart, now, live)
    ensures Tiles(merged, windowStart, last) && NeighboursDiffer(merged) && Shows(merged, marks, windowStart, now, live)
  {
    TilesBounds(segments, windowStart, last);
    merged := [];
    ghost var end := windowStart;
    for i := 0 to |segments|
      invariant end == if i == 0 then windowStart else segments[i - 1].endMs
      invariant Tiles(merged, windowStart, end) && NeighboursDiffer(merged)
      invariant Shows(merged, marks, windowStart, now, live)
    {
      var segment := segments[i];
      TilesBounds(merged, windowStart, end);
      if merged != [] && merged[|merged| - 1].online == segment.online {
        TilesExtend(merged, windowStart, end, segment.endMs);
        merged := merged[|merged| - 1 := merged[|merged| - 1].(endMs := segment.endMs)];
      } else {
        TilesSnoc(merged, windowStart, end, segment.online, segment.endMs);
        merged := merged + [segment];
      }
      end := segment.endMs;
    }
  }

  /** The segments of the transitions inside the window, before the last one is closed. */
  method Sweep(sorted: seq<Mark>, windowStart: int, now: int)
    returns (segments: seq<Segment>, cursor: int, state: Option<bool>)
    requires Sorted(sorted)
    ensures windowStart <= cursor && (cursor <= now || cursor == windowStart) && Tiles(segments, windowStart, cursor)
    ensures Shows(segments, sorted, windowStart, now, None)
    ensures forall t :: cursor <= t < now ==> StateAt(sorted, t) == state
    ensures Within(sorted, windowStart, now) == [] ==> segments == [] && cursor == windowStart
  {
    hide Within;
    var seed := UpTo(sorted, windowStart);
    var inWindow := Within(sorted, windowStart, now);
    UpToIsPrefix(sorted, windowStart);
    UpToIsPrefix(sorted, now);
    if windowStart <= now {
      WithinIsSlice(sorted, windowStart, now);
    } else {
      WithinNothing(sorted, windowStart, now);
    }
    segments := [];
    cursor := windowStart;
    state := if seed != [] then Some(seed[|seed| - 1].online) else None;
    ghost var m := |seed|;
    for i := 0 to |inWindow|
      invariant m == |seed| + i <= |sorted|
      invariant windowStart <= cursor && (cursor <= now || cursor == windowStart)
                && Tiles(segments, windowStart, cursor)
      invariant i == 0 ==> segments == [] && cursor == windowStart
      invariant m > 0 ==> sorted[m - 1].ts <= cursor
      invariant i > 0 ==> cursor == sorted[m - 1].ts
      invariant state == if m == 0 then None else Some(sorted[m - 1].online)
      invariant Shows(segments, sorted, windowStart, now, None)
    {
      var event := inWindow[i];
      assert event == sorted[m];
      if event.ts > cursor {
        forall t | cursor <= t < event.ts ensures StateAt(sorted, t) == state {
          SortedLatest(sorted, m, t);
        }
        TilesSnoc(segments, windowStart, cursor, state, event.ts);
        segments := segments + [Segment(state, cursor, event.ts)];
        cursor := event.ts;
      }
      state := Some(event.online);
      m := m + 1;
    }
    forall t | cursor <= t < now ensures StateAt(sorted, t) == state {
      SortedLatest(sorted, m, t);
    }
  }

  /** Sorting and an empty window decide what the bar must show. */
  lemma ExpectedAfterSort(marks: seq<Mark>, sorted: seq<Mark>, windowStart: int, now: int, live: Option<bool>, t: int)
    requires sorted == Sort(marks) && sorted != []
    ensures Expected(marks, windowStart, now, live, t)
            == if Within(sorted, windowStart, now) == [] && live.Some? then live else StateAt(sorted, t)
  {
    SortKeepsLatest(marks, t);
    WithinMeans(sorted, windowStart, now);
    if Within(sorted, windowStart, now) != [] {
      assert Within(sorted, windowStart, now)[0] in Within(sorted, windowStart, now);
    }
  }

  method BuildSegments(events: seq<Event>, windowStart: int, now: int, live: Option<bool>) returns (bar: seq<Segment>)
    ensures IsBar(bar, Finite(events), windowStart, now, live)
  {
    var marks := Finite(events);
    var sorted := Sort(marks);
    if sorted == [] {
      return [Segment(None, windowStart, now)];
    }
    var segments, cursor, state := Sweep(sorted, windowStart, now);
    if Within(sorted, windowStart, now) == [] && live.Some? {
      state := live;
    }
    forall i, t | 0 <= i < |segments| && Covers(segments[i], t)
      ensures segments[i].online == Expected(marks, windowStart, now, live, t)
    {
      assert segments[i].online == Expected(sorted, windowStart, now, None, t);
      ExpectedAfterSort(marks, sorted, windowStart, now, live, t);
    }
    if cursor < now {
      forall t | cursor <= t < now ensures state == Expected(marks, windowStart, now, live, t) {
        ExpectedAfterSort(marks, sorted, windowStart, now, live, t);
      }
      TilesSnoc(segments, windowStart, cursor, state, now);
      segments := segments + [Segment(state, cursor, now)];
    }
    ghost var last := if windowStart < now then now else windowStart;
    bar := Collapse(segments, last, marks, windowStart, now, live);
    TilesBounds(bar, windowStart, last);
  }
}
