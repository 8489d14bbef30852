/**
 The log behind the connectivity bar: only transitions are written, and rows older than the retention are pruned down to
 one seed per node. Neither is visible in the bar.
 */
module ConnectivityLog {
  import opened Options
  import opened Connectivity

  const HOUR: int := 1000 * 60 * 60
  const RETENTION: int := 25 * HOUR
  const WINDOW: int := 24 * HOUR

  // ---------- one node's log, in insertion order ----------

  predicate AnyUpTo(log: seq<Mark>, cutoff: int) {
    exists m :: m in log && m.ts <= cutoff
  }

  ghost predicate Drawn(log: seq<Mark>, from: seq<Mark>) {
    forall m :: m in log ==> m in from
  }

  ghost predicate NoneAfter(log: seq<Mark>, clock: int) {
    forall m :: m in log ==> m.ts <= clock
  }

  /** Of the marks at or before the cutoff only the last one inserted stays. */
  function PruneLog(log: seq<Mark>, cutoff: int): seq<Mark> {
    if log == [] then []
    else if log[0].ts <= cutoff && AnyUpTo(log[1..], cutoff) then PruneLog(log[1..], cutoff)
    else [log[0]] + PruneLog(log[1..], cutoff)
  }

  /** Nothing is invented, nothing after the cutoff goes, and a history never becomes empty. */
  lemma {:induction false} PruneMeans(log: seq<Mark>, cutoff: int)
    ensures Drawn(PruneLog(log, cutoff), log)
    ensures forall m :: m in log && cutoff < m.ts ==> m in PruneLog(log, cutoff)
    ensures PruneLog(log, cutoff) == [] <==> log == []
  {
    if log != [] {
      PruneMeans(log[1..], cutoff);
      assert forall m :: m in log <==> m == log[0] || m in log[1..];
      assert AnyUpTo(log[1..], cutoff) ==> log[1..] != [];
    }
  }

  function Newer(m: Option<Mark>, n: Option<Mark>): Option<Mark> {
    if n.Some? && (m.None? || m.value.ts <= n.value.ts) then n else m
  }

  lemma {:induction false} LatestOfConcat(a: seq<Mark>, b: seq<Mark>, t: int)
    ensures Latest(a + b, t) == Newer(Latest(a, t), Latest(b, t))
  {
    if a == [] {
      assert a + b == b;
    } else {
      LatestOfConcat(a[1..], b, t);
      assert (a + b)[1..] == a[1..] + b;
    }
  }

  lemma LatestIsMember(log: seq<Mark>, t: int)
    ensures Latest(log, t).None? <==> !AnyUpTo(log, t)
    ensures Latest(log, t).Some? ==> Latest(log, t).value in log
  {
    LatestMeans(log, t);
  }

  /** Pruning changes the state at no instant from the cutoff on. */
  lemma {:induction false} PruneKeepsLatest(log: seq<Mark>, cutoff: int, t: int)
    requires Sorted(log) && cutoff <= t
    ensures Latest(PruneLog(log, cutoff), t) == Latest(log, t)
  {
    if log != [] {
      var rest := log[1..];
      PruneKeepsLatest(rest, cutoff, t);
      if log[0].ts <= cutoff && AnyUpTo(rest, cutoff) {
        LatestIsMember(rest, t);
        assert AnyUpTo(rest, t);
      } else {
        assert PruneLog(log, cutoff)[1..] == PruneLog(rest, cutoff);
      }
    }
  }

  /**
   Pruning is invisible: a log in insertion order with non-decreasing times, pruned at `pruned` and then extended by any
   later marks, renders the same bar at any `now` from then on, and no history becomes empty.
   */
  lemma PruneInvisible(
      log: seq<Mark>, later: seq<Mark>, pruned: int, now: int, live: Option<bool>,
      bar: seq<Segment>, kept: seq<Segment>)
    requires Sorted(log) && pruned <= now
    requires IsBar(bar, log + later, now - WINDOW, now, live)
    requires IsBar(kept, PruneLog(log, pruned - RETENTION) + later, now - WINDOW, now, live)
    ensures bar == kept
    ensures log != [] ==> PruneLog(log, pruned - RETENTION) != []
  {
    var cutoff, start := pruned - RETENTION, now - WINDOW;
    var all, short := log + later, PruneLog(log, cutoff) + later;
    PruneMeans(log, cutoff);
    forall t | start <= t < now ensures Expected(all, start, now, live, t) == Expected(short, start, now, live, t) {
      PruneKeepsLatest(log, cutoff, t);
      LatestOfConcat(log, later, t);
      LatestOfConcat(PruneLog(log, cutoff), later, t);
    }
    BarUnique(bar, kept, all, short, start, now, live);
  }

  // ---------- whole runs of reports and prunings ----------

  /** `pick` is the row the database returns as the newest one, among those sharing the greatest time. */
  datatype Op = Report(online: bool, at: int, pick: nat) | Prune(at: int)

  predicate Newest(log: seq<Mark>, pick: nat) {
    pick < |log| && forall m :: m in log ==> m.ts <= log[pick].ts
  }

  function Recorded(log: seq<Mark>, online: bool, at: int, pick: nat): seq<Mark> {
    if pick < |log| && log[pick].online == online then log else log + [Mark(online, at)]
  }

  function Stepped(log: seq<Mark>, op: Op): seq<Mark> {
    match op
    case Report(online, at, pick) => Recorded(log, online, at, pick)
    case Prune(at) => PruneLog(log, at - RETENTION)
  }

  function Kept(ops: seq<Op>): seq<Mark> {
    if ops == [] then [] else Stepped(Kept(ops[..|ops| - 1]), ops[|ops| - 1])
  }

  function Reported(op: Op): seq<Mark> {
    if op.Report? then [Mark(op.online, op.at)] else []
  }

  /** Every report, with nothing left out. */
  function Full(ops: seq<Op>): seq<Mark> {
    if ops == [] then []
    else
      var op := ops[|ops| - 1];
      Full(ops[..|ops| - 1]) + Reported(op)
  }

  /** A run the database allows: every report looked at one of the newest rows. */
  predicate Ran(ops: seq<Op>) {
    ops != [] ==>
      var op, log := ops[|ops| - 1], Kept(ops[..|ops| - 1]);
      Ran(ops[..|ops| - 1]) && (op.Report? && log != [] ==> Newest(log, op.pick))
  }

  /** What would be kept if the last row inserted were always the one returned. */
  function Ideal(ops: seq<Op>): seq<Mark> {
    if ops == [] then [] else Deduped(Ideal(ops[..|ops| - 1]), ops[|ops| - 1])
  }

  function Deduped(log: seq<Mark>, op: Op): seq<Mark> {
    Stepped(log, AtLast(log, op))
  }

  function AtLast(log: seq<Mark>, op: Op): Op {
    if op.Report? then op.(pick := if log == [] then 0 else |log| - 1) else op
  }

  /** The two newest transitions fell into one millisecond. */
  predicate Tied(log: seq<Mark>) {
    |log| > 1 && log[|log| - 2].ts == log[|log| - 1].ts
  }

  /** No report follows two transitions of one millisecond. */
  predicate TieFree(ops: seq<Op>) {
    ops != [] ==> TieFree(ops[..|ops| - 1]) && (ops[|ops| - 1].Report? ==> !Tied(Ideal(ops[..|ops| - 1])))
  }

  /** The clock does not go back. */
  predicate Clocked(ops: seq<Op>, clock: int) {
    ops != [] ==> ops[|ops| - 1].at <= clock && Clocked(ops[..|ops| - 1], ops[|ops| - 1].at)
  }

  /** No two reports share a time. */
  predicate Apart(ops: seq<Op>) {
    ops != [] ==>
      var op, log := ops[|ops| - 1], Full(ops[..|ops| - 1]);
      Apart(ops[..|ops| - 1]) && (op.Report? ==> forall m :: m in log ==> m.ts != op.at)
  }

  predicate Alternates(log: seq<Mark>) {
    forall i, j | 0 <= i < |log| && 0 <= j < |log| && j == i + 1 :: log[i].online != log[j].online
  }

  /** In a log that alternates, every newest row shows the last state exactly when no other row shares its time. */
  lemma NewestDecides(log: seq<Mark>)
    requires Sorted(log) && Alternates(log) && log != []
    ensures (forall pick: nat :: Newest(log, pick) ==> log[pick].online == log[|log| - 1].online) <==> !Tied(log)
  {
    var n := |log| - 1;
    assert Newest(log, n);
    if Tied(log) {
      assert Newest(log, n - 1);
    }
  }

  function TiedReports(): seq<Op> {
    [Report(true, 5, 0), Report(false, 5, 0), Report(true, 6, 0)]
  }

  /** Two transitions in one millisecond: the row returned may be the older one, and then the last report is lost. */
  lemma TiedReportsCollide()
    ensures Ran(TiedReports()) && Clocked(TiedReports(), 6)
    ensures Full(TiedReports()) == [Mark(true, 5), Mark(false, 5), Mark(true, 6)]
    ensures Kept(TiedReports()) == [Mark(true, 5), Mark(false, 5)]
  {
    var all := TiedReports();
    var one, two := [Report(true, 5, 0)], [Report(true, 5, 0), Report(false, 5, 0)];
    assert one[..0] == [] && two[..1] == one && all[..2] == two;
    assert Kept(one) == [Mark(true, 5)] && Full(one) == [Mark(true, 5)];
    assert Kept(two) == [Mark(true, 5), Mark(false, 5)] && Full(two) == Kept(two);
    assert Ran(one) && Ran(two) && Clocked(one, 5) && Clocked(two, 5);
  }

  /** Pruning a log in time order drops a prefix of it. */
  lemma {:induction false} PruneIsSuffix(log: seq<Mark>, cutoff: int)
    requires Sorted(log)
    ensures |PruneLog(log, cutoff)| <= |log| && PruneLog(log, cutoff) == log[|log| - |PruneLog(log, cutoff)|..]
  {
    if log != [] {
      PruneIsSuffix(log[1..], cutoff);
      if !(log[0].ts <= cutoff && AnyUpTo(log[1..], cutoff)) {
        AllKept(log[1..], cutoff);
        assert log == [log[0]] + log[1..];
      }
    }
  }

  lemma {:induction false} AllKept(log: seq<Mark>, cutoff: int)
    requires Sorted(log) && (log != [] ==> cutoff < log[0].ts || !AnyUpTo(log, cutoff))
    ensures PruneLog(log, cutoff) == log
  {
    if log != [] {
      assert log[0] in log;
      assert cutoff < log[0].ts;
      AllKept(log[1..], cutoff);
    }
  }

  /** What a run keeps: a log in time order that strictly alternates, and shows what the full log shows. */
  ghost predicate Faithful(kept: seq<Mark>, full: seq<Mark>, clock: int) {
    Shaped(kept, full, clock) && SameFrom(kept, full, clock - RETENTION)
  }

  ghost predicate Shaped(kept: seq<Mark>, full: seq<Mark>, clock: int) {
    && Sorted(kept) && Alternates(kept)
    && NoneAfter(full, clock) && Drawn(kept, full)
    && (kept == [] <==> full == [])
    && (kept != [] ==> kept[|kept| - 1].online == full[|full| - 1].online)
  }

  ghost predicate SameFrom(kept: seq<Mark>, full: seq<Mark>, from: int) {
    forall t :: from <= t ==> StateAt(kept, t) == StateAt(full, t)
  }

  lemma SnocState(log: seq<Mark>, m: Mark, t: int)
    requires NoneAfter(log, m.ts)
    ensures StateAt(log + [m], t) == if m.ts <= t then Some(m.online) else StateAt(log, t)
  {
    LatestOfConcat(log, [m], t);
    assert [m][1..] == [];
    assert Latest([m], t) == if t < m.ts then None else Some(m);
    LatestIsMember(log, t);
  }

  lemma LastState(log: seq<Mark>, t: int)
    requires Sorted(log) && log != [] && log[|log| - 1].ts <= t
    ensures StateAt(log, t) == Some(log[|log| - 1].online)
  {
    SortedLatest(log, |log|, t);
  }

  lemma Grow(kept: seq<Mark>, full: seq<Mark>, clock: int, m: Mark)
    requires NoneAfter(full, clock) && Drawn(kept, full) && clock <= m.ts
    ensures NoneAfter(full + [m], m.ts)
    ensures Drawn(kept, full + [m]) && Drawn(kept + [m], full + [m])
    ensures Sorted(kept) ==> Sorted(kept + [m])
  {
    if Sorted(kept) {
      forall i | 0 <= i < |kept| ensures kept[i].ts <= m.ts {
        assert kept[i] in full;
      }
    }
  }

  lemma RecordAlternates(kept: seq<Mark>, online: bool, at: int, pick: nat)
    requires Alternates(kept)
    requires kept != [] ==> pick < |kept| && kept[pick].online == kept[|kept| - 1].online
    ensures Alternates(Recorded(kept, online, at, pick))
  {
  }

  lemma ReportShaped(kept: seq<Mark>, full: seq<Mark>, clock: int, online: bool, at: int, pick: nat)
    requires Shaped(kept, full, clock) && clock <= at
    requires kept != [] ==> pick < |kept| && kept[pick].online == kept[|kept| - 1].online
    ensures Shaped(Recorded(kept, online, at, pick), full + [Mark(online, at)], at)
  {
    hide NoneAfter;
    hide Drawn;
    hide Sorted;
    hide Alternates;
    Grow(kept, full, clock, Mark(online, at));
    RecordAlternates(kept, online, at, pick);
  }

  lemma ReportSame(kept: seq<Mark>, full: seq<Mark>, clock: int, online: bool, at: int, pick: nat, t: int)
    requires Faithful(kept, full, clock) && clock <= at && at - RETENTION <= t
    requires kept != [] ==> pick < |kept| && kept[pick].online == kept[|kept| - 1].online
    ensures StateAt(Recorded(kept, online, at, pick), t) == StateAt(full + [Mark(online, at)], t)
  {
    var m := Mark(online, at);
    hide Latest;
    hide Alternates;
    assert NoneAfter(kept, clock);
    SnocState(full, m, t);
    SnocState(kept, m, t);
    if kept != [] && at <= t {
      assert kept[|kept| - 1] in kept;
      LastState(kept, t);
    }
  }

  lemma ReportFaithful(kept: seq<Mark>, full: seq<Mark>, clock: int, online: bool, at: int, pick: nat)
    requires Faithful(kept, full, clock) && clock <= at
    requires kept != [] ==> pick < |kept| && kept[pick].online == kept[|kept| - 1].online
    ensures Faithful(Recorded(kept, online, at, pick), full + [Mark(online, at)], at)
  {
    ReportShaped(kept, full, clock, online, at, pick);
    hide Shaped;
    hide StateAt;
    hide Recorded;
    forall t | at - RETENTION <= t
      ensures StateAt(Recorded(kept, online, at, pick), t) == StateAt(full + [Mark(online, at)], t)
    {
      ReportSame(kept, full, clock, online, at, pick, t);
    }
  }

  lemma PruneShaped(kept: seq<Mark>, full: seq<Mark>, clock: int, cutoff: int)
    requires Shaped(kept, full, clock)
    ensures Shaped(PruneLog(kept, cutoff), full, clock)
  {
    PruneMeans(kept, cutoff);
    hide PruneLog;
    PruneIsSuffix(kept, cutoff);
    SuffixShaped(kept, full, clock, |PruneLog(kept, cutoff)|);
    hide Shaped;
  }

  lemma SuffixShaped(kept: seq<Mark>, full: seq<Mark>, clock: int, n: nat)
    requires Shaped(kept, full, clock) && n <= |kept| && (n == 0 <==> kept == [])
    requires Drawn(kept[|kept| - n..], kept)
    ensures Shaped(kept[|kept| - n..], full, clock)
  {
    hide NoneAfter;
    hide Drawn;
    hide Sorted;
    hide Alternates;
    SuffixKeeps(kept, |kept| - n);
    DrawnThrough(kept[|kept| - n..], kept, full);
    if kept != [] {
      SuffixLast(kept, n);
    }
  }

  lemma DrawnThrough(a: seq<Mark>, b: seq<Mark>, c: seq<Mark>)
    requires Drawn(a, b) && Drawn(b, c)
    ensures Drawn(a, c)
  {
  }

  lemma SuffixLast(log: seq<Mark>, n: nat)
    requires 0 < n <= |log|
    ensures log[|log| - n..][n - 1] == log[|log| - 1]
  {
  }

  lemma PruneFaithful(kept: seq<Mark>, full: seq<Mark>, at: int)
    requires Faithful(kept, full, at)
    ensures Faithful(PruneLog(kept, at - RETENTION), full, at)
  {
    PruneShaped(kept, full, at, at - RETENTION);
    hide PruneLog;
    hide Latest;
    forall t | at - RETENTION <= t ensures StateAt(PruneLog(kept, at - RETENTION), t) == StateAt(full, t) {
      PruneKeepsLatest(kept, at - RETENTION, t);
    }
  }

  lemma SuffixKeeps(log: seq<Mark>, k: nat)
    requires k <= |log|
    ensures Sorted(log) ==> Sorted(log[k..])
    ensures Alternates(log) ==> Alternates(log[k..])
    ensures Strict(log) ==> Strict(log[k..])
  {
    assert forall i :: 0 <= i < |log| - k ==> log[k..][i] == log[k + i];
  }

  lemma StepFaithful(kept: seq<Mark>, full: seq<Mark>, op: Op)
    requires Faithful(kept, full, op.at)
    requires op.Report? && kept != [] ==> op.pick < |kept| && kept[op.pick].online == kept[|kept| - 1].online
    ensures Faithful(Stepped(kept, op), full + Reported(op), op.at)
  {
    hide Faithful;
    hide PruneLog;
    hide Recorded;
    match op
    case Report(online, at, pick) => ReportFaithful(kept, full, at, online, at, pick);
    case Prune(at) =>
      PruneFaithful(kept, full, at);
      assert full + [] == full;
  }

  lemma {:induction false} IdealFaithful(ops: seq<Op>, clock: int)
    requires Clocked(ops, clock)
    ensures Faithful(Ideal(ops), Full(ops), clock)
  {
    if ops != [] {
      hide Faithful;
      hide Stepped;
      var n := |ops| - 1;
      var log := Ideal(ops[..n]);
      IdealFaithful(ops[..n], ops[n].at);
      StepFaithful(log, Full(ops[..n]), AtLast(log, ops[n]));
      Waiting(Ideal(ops), Full(ops), ops[n].at, clock);
    }
  }

  lemma Waiting(kept: seq<Mark>, full: seq<Mark>, clock: int, later: int)
    requires Faithful(kept, full, clock) && clock <= later
    ensures Faithful(kept, full, later)
  {
  }

  /** Without such ties the database's choice among rows of one time does not matter. */
  lemma {:induction false} TieFreeIsIdeal(ops: seq<Op>, clock: int)
    requires Ran(ops) && TieFree(ops) && Clocked(ops, clock)
    ensures Kept(ops) == Ideal(ops)
  {
    if ops != [] {
      hide PruneLog;
      var n := |ops| - 1;
      var log := Ideal(ops[..n]);
      TieFreeIsIdeal(ops[..n], ops[n].at);
      IdealFaithful(ops[..n], ops[n].at);
      if ops[n].Report? && log != [] {
        NewestDecides(log);
        assert Newest(log, ops[n].pick);
      }
    }
  }

  /** In every run without such ties the kept log is sorted, alternates, and shows what all reports show. */
  lemma RunFaithful(ops: seq<Op>, clock: int)
    requires Ran(ops) && TieFree(ops) && Clocked(ops, clock)
    ensures Faithful(Kept(ops), Full(ops), clock)
  {
    hide Faithful;
    TieFreeIsIdeal(ops, clock);
    IdealFaithful(ops, clock);
  }

  // ---------- ties decide ----------

  /** One report keeps the log faithful exactly when the row looked at shows the state last written. */
  lemma PickDecides(log: seq<Mark>, full: seq<Mark>, online: bool, at: int, pick: nat)
    requires Faithful(log, full, at) && log != [] && pick < |log|
    ensures Faithful(Recorded(log, online, at, pick), full + [Mark(online, at)], at)
            <==> log[pick].online == log[|log| - 1].online
  {
    if log[pick].online == log[|log| - 1].online {
      ReportFaithful(log, full, at, online, at, pick);
    } else {
      hide SameFrom;
      WrongPick(log, full, online, at, pick);
    }
  }

  /** The report is lost, or its state is written twice in a row. */
  lemma WrongPick(log: seq<Mark>, full: seq<Mark>, online: bool, at: int, pick: nat)
    requires pick < |log| && log[pick].online != log[|log| - 1].online
    ensures !Shaped(Recorded(log, online, at, pick), full + [Mark(online, at)], at)
  {
    var n := |log|;
    var next := Recorded(log, online, at, pick);
    hide Sorted;
    hide Drawn;
    hide NoneAfter;
    if next != log {
      assert next[n - 1].online == next[n].online;
    }
  }

  /**
   After a run that was faithful so far, the next report keeps it so, whichever newest row the database returns, exactly
   when the two newest rows differ in time.
   */
  lemma ReportDecidesExactly(ops: seq<Op>, online: bool, at: int)
    requires Ran(ops) && Faithful(Kept(ops), Full(ops), at)
    ensures (forall pick: nat :: Ran(ops + [Report(online, at, pick)]) ==>
               Faithful(Kept(ops + [Report(online, at, pick)]), Full(ops + [Report(online, at, pick)]), at))
            <==> !Tied(Kept(ops))
  {
    var log, full := Kept(ops), Full(ops);
    forall pick: nat
      ensures Ran(ops + [Report(online, at, pick)]) <==> (log != [] ==> Newest(log, pick))
      ensures Kept(ops + [Report(online, at, pick)]) == Recorded(log, online, at, pick)
      ensures Full(ops + [Report(online, at, pick)]) == full + [Mark(online, at)]
    {
      assert (ops + [Report(online, at, pick)])[..|ops|] == ops;
    }
    if log == [] {
      FirstReportFaithful(log, full, online, at);
    } else {
      forall pick: nat | pick < |log|
        ensures Faithful(Recorded(log, online, at, pick), full + [Mark(online, at)], at)
                <==> log[pick].online == log[|log| - 1].online
      {
        PickDecides(log, full, online, at, pick);
      }
      NewestDecides(log);
      hide Faithful;
      hide Kept;
      hide Full;
      hide Ran;
    }
  }

  lemma FirstReportFaithful(log: seq<Mark>, full: seq<Mark>, online: bool, at: int)
    requires Faithful(log, full, at) && log == []
    ensures forall pick: nat :: Faithful(Recorded(log, online, at, pick), full + [Mark(online, at)], at)
  {
    forall pick: nat ensures Faithful(Recorded(log, online, at, pick), full + [Mark(online, at)], at) {
      ReportFaithful(log, full, at, online, at, pick);
    }
  }

  /** The same reports and prunings, with other rows returned as the newest. */
  predicate Alike(ops: seq<Op>, plan: seq<Op>) {
    |ops| == |plan| && forall i | 0 <= i < |ops| :: AlikeOp(ops[i], plan[i])
  }

  predicate AlikeOp(a: Op, b: Op) {
    a.Report? == b.Report? && a.at == b.at && (a.Report? ==> a.online == b.online)
  }

  lemma {:induction false} AlikeRuns(ops: seq<Op>, plan: seq<Op>, clock: int)
    requires Alike(ops, plan)
    ensures Ideal(ops) == Ideal(plan) && Full(ops) == Full(plan)
    ensures TieFree(ops) <==> TieFree(plan)
    ensures Clocked(ops, clock) <==> Clocked(plan, clock)
  {
    if ops != [] {
      hide PruneLog;
      var n := |ops| - 1;
      assert AlikeOp(ops[n], plan[n]);
      assert forall i :: 0 <= i < n ==> AlikeOp(ops[i], plan[i]);
      AlikeRuns(ops[..n], plan[..n], ops[n].at);
    }
  }

  /** Every run of the plan, and of each beginning of it, stays faithful. */
  ghost predicate EveryRunFaithful(plan: seq<Op>) {
    forall ops, k :: 0 <= k <= |plan| && Alike(ops, plan[..k]) && Ran(ops) ==> FaithfulSoFar(ops)
  }

  ghost predicate FaithfulSoFar(ops: seq<Op>) {
    ops != [] ==> Faithful(Kept(ops), Full(ops), ops[|ops| - 1].at)
  }

  lemma {:induction false} TieFreePrefix(plan: seq<Op>, k: nat, clock: int)
    requires k <= |plan| && Clocked(plan, clock)
    ensures TieFree(plan) ==> TieFree(plan[..k])
    ensures Clocked(plan[..k], clock) && (k > 0 ==> Clocked(plan[..k], plan[k - 1].at))
  {
    if k < |plan| {
      var n := |plan| - 1;
      TieFreePrefix(plan[..n], k, plan[n].at);
      assert plan[..n][..k] == plan[..k];
      ClockedLater(plan[..k], plan[n].at, clock);
    } else {
      assert plan[..k] == plan;
    }
  }

  lemma ClockedLater(ops: seq<Op>, clock: int, later: int)
    requires Clocked(ops, clock) && clock <= later
    ensures Clocked(ops, later)
  {
  }

  lemma TieFreeFaithful(plan: seq<Op>, clock: int)
    requires Clocked(plan, clock) && TieFree(plan)
    ensures EveryRunFaithful(plan)
  {
    forall ops: seq<Op>, k | 0 <= k <= |plan| && Alike(ops, plan[..k]) && Ran(ops) ensures FaithfulSoFar(ops) {
      TieFreePrefix(plan, k, clock);
      if ops != [] {
        var at := ops[|ops| - 1].at;
        AlikeRuns(ops, plan[..k], at);
        RunFaithful(ops, at);
      }
    }
  }

  /** The run of a plan in which the last row is always the one returned. */
  function LastPicked(plan: seq<Op>): seq<Op> {
    if plan == [] then []
    else LastPicked(plan[..|plan| - 1]) + [AtLast(Ideal(plan[..|plan| - 1]), plan[|plan| - 1])]
  }

  lemma {:induction false} LastPickedRuns(plan: seq<Op>, clock: int)
    requires Clocked(plan, clock)
    ensures Alike(LastPicked(plan), plan) && Ran(LastPicked(plan)) && Kept(LastPicked(plan)) == Ideal(plan)
  {
    hide LastPicked;
    hide Ideal;
    hide Ran;
    hide Kept;
    hide Alike;
    if plan == [] {
      NonePicked();
    } else {
      var n := |plan| - 1;
      LastPickedRuns(plan[..n], plan[n].at);
      IdealFaithful(plan[..n], plan[n].at);
      LastPickedStep(plan[..n], plan[n]);
      assert plan == plan[..n] + [plan[n]];
    }
  }

  lemma NonePicked()
    ensures LastPicked([]) == [] && Alike([], []) && Ran([]) && Kept([]) == Ideal([])
  {
  }

  lemma LastPickedStep(plan: seq<Op>, op: Op)
    requires Alike(LastPicked(plan), plan) && Ran(LastPicked(plan)) && Kept(LastPicked(plan)) == Ideal(plan)
    requires Sorted(Ideal(plan))
    ensures var all := plan + [op];
            Alike(LastPicked(all), all) && Ran(LastPicked(all)) && Kept(LastPicked(all)) == Ideal(all)
  {
    var run, log := LastPicked(plan), Ideal(plan);
    assert log != [] ==> Newest(log, |log| - 1);
    hide Newest;
    hide Sorted;
    assert (plan + [op])[..|plan|] == plan;
    assert LastPicked(plan + [op]) == run + [AtLast(log, op)];
    assert Ideal(plan + [op]) == Stepped(log, AtLast(log, op));
    hide LastPicked;
    hide Ideal;
    hide Stepped;
    RunSnoc(run, AtLast(log, op));
    hide Ran;
    hide Kept;
    AlikeSnoc(run, plan, AtLast(log, op), op);
  }

  lemma RunSnoc(ops: seq<Op>, op: Op)
    ensures Ran(ops + [op]) <==> Ran(ops) && (op.Report? && Kept(ops) != [] ==> Newest(Kept(ops), op.pick))
    ensures TieFree(ops + [op]) <==> TieFree(ops) && (op.Report? ==> !Tied(Ideal(ops)))
    ensures Clocked(ops + [op], op.at) <==> Clocked(ops, op.at)
    ensures Kept(ops + [op]) == Stepped(Kept(ops), op) && Ideal(ops + [op]) == Deduped(Ideal(ops), op)
    ensures Full(ops + [op]) == Full(ops) + Reported(op)
  {
    hide Stepped;
    hide Newest;
    hide Tied;
    assert (ops + [op])[..|ops|] == ops;
  }

  lemma AlikeSnoc(ops: seq<Op>, plan: seq<Op>, a: Op, b: Op)
    requires Alike(ops, plan) && AlikeOp(a, b)
    ensures Alike(ops + [a], plan + [b])
  {
  }

  /** The first report after a tie has a run in which it goes wrong. */
  lemma TieHere(plan: seq<Op>, op: Op) returns (ops: seq<Op>)
    requires Clocked(plan, op.at) && op.Report? && Tied(Ideal(plan))
    ensures Alike(ops, plan + [op]) && Ran(ops) && !FaithfulSoFar(ops)
  {
    var run := LastPicked(plan);
    LastPickedRuns(plan, op.at);
    AlikeRuns(run, plan, op.at);
    IdealFaithful(plan, op.at);
    ReportDecidesExactly(run, op.online, op.at);
    hide Faithful;
    hide Kept;
    hide Full;
    hide Ran;
    var pick: nat :| var r := run + [Report(op.online, op.at, pick)]; Ran(r) && !Faithful(Kept(r), Full(r), op.at);
    ops := run + [Report(op.online, op.at, pick)];
    AlikeSnoc(run, plan, Report(op.online, op.at, pick), op);
  }

  lemma {:induction false} TieBreaks(plan: seq<Op>, clock: int)
    requires Clocked(plan, clock) && !TieFree(plan)
    ensures !EveryRunFaithful(plan)
  {
    hide Ideal;
    hide Alike;
    hide FaithfulSoFar;
    hide Ran;
    var n := |plan| - 1;
    var front, op := plan[..n], plan[n];
    if !TieFree(front) {
      TieBreaks(front, op.at);
      var ops, k :| 0 <= k <= n && Alike(ops, front[..k]) && Ran(ops) && !FaithfulSoFar(ops);
      assert front[..k] == plan[..k];
    } else {
      var ops := TieHere(front, op);
      assert front + [op] == plan[..n + 1];
    }
  }

  /**
   Whichever newest rows the database returns, the kept log shows at every moment what all reports show, exactly when no
   report follows two transitions of one millisecond.
   */
  lemma TiesDecideExactly(plan: seq<Op>, clock: int)
    requires Clocked(plan, clock)
    ensures EveryRunFaithful(plan) <==> TieFree(plan)
  {
    if TieFree(plan) {
      TieFreeFaithful(plan, clock);
    } else {
      TieBreaks(plan, clock);
    }
  }

  // ---------- reports at distinct times ----------

  predicate Strict(log: seq<Mark>) {
    forall i, j | 0 <= i < j < |log| :: log[i].ts < log[j].ts
  }

  ghost predicate StrictWithin(kept: seq<Mark>, full: seq<Mark>, clock: int) {
    Strict(kept) && NoneAfter(full, clock) && Drawn(kept, full)
  }

  lemma StepStrict(kept: seq<Mark>, full: seq<Mark>, op: Op)
    requires StrictWithin(kept, full, op.at)
    requires op.Report? ==> forall m :: m in full ==> m.ts != op.at
    ensures StrictWithin(Stepped(kept, op), full + Reported(op), op.at)
  {
    hide PruneLog;
    if op.Prune? {
      hide NoneAfter;
      PruneMeans(kept, op.at - RETENTION);
      PruneIsSuffix(kept, op.at - RETENTION);
      SuffixKeeps(kept, |kept| - |Stepped(kept, op)|);
      assert Drawn(Stepped(kept, op), full);
      assert full + [] == full;
      hide Strict;
      hide Drawn;
    } else {
      var m := Mark(op.online, op.at);
      Grow(kept, full, op.at, m);
      StrictSnoc(kept, full, m);
      hide NoneAfter;
      hide Drawn;
      hide Strict;
    }
  }

  lemma StrictSnoc(kept: seq<Mark>, full: seq<Mark>, m: Mark)
    requires StrictWithin(kept, full, m.ts)
    requires forall x :: x in full ==> x.ts != m.ts
    ensures Strict(kept + [m])
  {
    forall i | 0 <= i < |kept| ensures kept[i].ts < m.ts {
      assert kept[i] in full;
    }
  }

  lemma {:induction false} ApartIsStrict(ops: seq<Op>, clock: int)
    requires Apart(ops) && Clocked(ops, clock)
    ensures StrictWithin(Ideal(ops), Full(ops), clock)
  {
    if ops != [] {
      hide Stepped;
      var n := |ops| - 1;
      var log := Ideal(ops[..n]);
      ApartIsStrict(ops[..n], ops[n].at);
      StepStrict(log, Full(ops[..n]), AtLast(log, ops[n]));
    }
  }

  /** Reports at distinct times leave no tie. */
  lemma {:induction false} ApartIsTieFree(ops: seq<Op>, clock: int)
    requires Apart(ops) && Clocked(ops, clock)
    ensures TieFree(ops)
  {
    if ops != [] {
      var n := |ops| - 1;
      ApartIsTieFree(ops[..n], ops[n].at);
      ApartIsStrict(ops[..n], ops[n].at);
    }
  }

  // ---------- the bar ----------

  /**
   In a run in which no report follows two transitions of one millisecond, writing only the transitions and pruning them
   loses nothing from the bar: it equals the bar of all reports, except exactly when live presence contradicts the last
   report while all in-window reports were dropped as repeats.
   */
  lemma RecordingLosesNothing(ops: seq<Op>, now: int, live: Option<bool>, bar: seq<Segment>, kept: seq<Segment>)
    requires Ran(ops) && TieFree(ops) && Clocked(ops, now)
    requires IsBar(bar, Full(ops), now - WINDOW, now, live)
    requires IsBar(kept, Kept(ops), now - WINDOW, now, live)
    ensures kept == bar <==>
            !(Full(ops) != [] && live.Some? && live.value != Full(ops)[|Full(ops)| - 1].online
              && !AnyInWindow(Kept(ops), now - WINDOW, now) && AnyInWindow(Full(ops), now - WINDOW, now))
    ensures Alternates(Kept(ops))
  {
    RunFaithful(ops, now);
    var k, f, start := Kept(ops), Full(ops), now - WINDOW;
    if AnyInWindow(k, start, now) || !AnyInWindow(f, start, now) || live.None? {
      assert AnyInWindow(k, start, now) ==> AnyInWindow(f, start, now);
      BarUnique(kept, bar, k, f, start, now, live);
    } else {
      DroppedRepeats(k, f, now, live, kept, bar);
    }
  }

  lemma DroppedRepeats(k: seq<Mark>, f: seq<Mark>, now: int, live: Option<bool>, kept: seq<Segment>, bar: seq<Segment>)
    requires Faithful(k, f, now) && f != [] && live.Some?
    requires !AnyInWindow(k, now - WINDOW, now) && AnyInWindow(f, now - WINDOW, now)
    requires IsBar(bar, f, now - WINDOW, now, live) && IsBar(kept, k, now - WINDOW, now, live)
    ensures kept == bar <==> live.value == f[|f| - 1].online
  {
    var start, last := now - WINDOW, k[|k| - 1];
    assert last in k && !InWindow(last, start, now) && last.ts <= start;
    forall t | start <= t < now
      ensures Expected(f, start, now, live, t) == Some(last.online) && Expected(k, start, now, live, t) == live
    {
      LastState(k, t);
    }
    if live.value == last.online {
      BarUnique(kept, bar, k, f, start, now, live);
    } else {
      TilesBounds(kept, start, now);
      TilesBounds(bar, start, now);
      assert Covers(kept[0], start) && Covers(bar[0], start);
      assert kept[0].online == Expected(k, start, now, live, start);
      assert bar[0].online == Expected(f, start, now, live, start);
    }
  }

  /**
   For any run of reports at distinct times and of prunings, the bar of what was kept is the bar of all reports whenever
   live presence is the last report, or is not known.
   */
  lemma RecordingIsInvisible(ops: seq<Op>, now: int, live: Option<bool>, bar: seq<Segment>, kept: seq<Segment>)
    requires Ran(ops) && Apart(ops) && Clocked(ops, now)
    requires live.Some? && Full(ops) != [] ==> live.value == Full(ops)[|Full(ops)| - 1].online
    requires IsBar(bar, Full(ops), now - WINDOW, now, live)
    requires IsBar(kept, Kept(ops), now - WINDOW, now, live)
    ensures kept == bar && Alternates(Kept(ops))
  {
    ApartIsTieFree(ops, now);
    RecordingLosesNothing(ops, now, live, bar, kept);
  }

  function RepeatedReport(): seq<Op> {
    [Report(true, 0, 0), Report(true, WINDOW + 1, 0)]
  }

  /** A repeat dropped inside the window while live presence says otherwise: the two bars differ throughout. */
  lemma RepeatedReportShows()
    ensures Ran(RepeatedReport()) && TieFree(RepeatedReport()) && Clocked(RepeatedReport(), WINDOW + 2)
    ensures IsBar([Segment(Some(true), 2, WINDOW + 2)], Full(RepeatedReport()), 2, WINDOW + 2, Some(false))
    ensures IsBar([Segment(Some(false), 2, WINDOW + 2)], Kept(RepeatedReport()), 2, WINDOW + 2, Some(false))
  {
    RepeatedReportRuns();
    hide Kept;
    hide Full;
    hide Ran;
    hide TieFree;
    hide Clocked;
    var a, b := Mark(true, 0), Mark(true, WINDOW + 1);
    assert b in [a, b] && InWindow(b, 2, WINDOW + 2) && a in [a, b] && a in [a];
    assert !AnyInWindow([a], 2, WINDOW + 2);
    OneState([a, b], 2, WINDOW + 2, Some(false), true);
    OneState([a], 2, WINDOW + 2, Some(false), false);
    hide IsBar;
  }

  lemma RepeatedReportRuns()
    ensures var ops := RepeatedReport(); Ran(ops) && TieFree(ops) && Clocked(ops, WINDOW + 2)
    ensures Kept(RepeatedReport()) == [Mark(true, 0)]
            && Full(RepeatedReport()) == [Mark(true, 0), Mark(true, WINDOW + 1)]
  {
    var first, second := Report(true, 0, 0), Report(true, WINDOW + 1, 0);
    var a, b := Mark(true, 0), Mark(true, WINDOW + 1);
    FirstReport(first);
    assert [first] + [second] == RepeatedReport();
    hide Kept;
    hide Full;
    hide Ideal;
    hide Ran;
    hide TieFree;
    RunSnoc([first], second);
    assert Newest([a], 0);
    assert Stepped([a], second) == [a] && [a] + Reported(second) == [a, b];
  }

  lemma FirstReport(op: Op)
    requires op.Report?
    ensures Ran([op]) && TieFree([op]) && Clocked([op], op.at)
    ensures Kept([op]) == Ideal([op]) == Full([op]) == [Mark(op.online, op.at)]
  {
    assert [op][..0] == [];
  }

  lemma OneState(marks: seq<Mark>, start: int, now: int, live: Option<bool>, online: bool)
    requires start < now && live.Some? && marks != [] && forall m: Mark :: m in marks ==> m.online && m.ts <= now
    requires AnyUpTo(marks, start)
    requires online == if AnyInWindow(marks, start, now) then true else live.value
    ensures IsBar([Segment(Some(online), start, now)], marks, start, now, live)
  {
    var bar := [Segment(Some(online), start, now)];
    assert bar[1..] == [];
    forall t | start <= t < now ensures Expected(marks, start, now, live, t) == Some(online) {
      LatestIsMember(marks, t);
    }
  }
}
