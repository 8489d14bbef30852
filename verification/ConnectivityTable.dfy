/**
 The table behind all nodes' logs, as it is read and written: one row per transition, in insertion order.
 */
module ConnectivityTable {
  import opened Connectivity
  import opened ConnectivityLog
  import Text

  datatype Row = Row(id: nat, nodeId: string, online: bool, at: int)

  predicate IdsAscend(rows: seq<Row>) {
    forall i, j | 0 <= i < j < |rows| :: rows[i].id < rows[j].id
  }

  /** One node's rows, in insertion order. */
  function LogOf(rows: seq<Row>, n: string): seq<Mark> {
    if rows == [] then []
    else (if rows[0].nodeId == n then [Mark(rows[0].online, rows[0].at)] else []) + LogOf(rows[1..], n)
  }

  /** Some row of the node at or before the cutoff. */
  predicate AnyOld(rows: seq<Row>, n: string, cutoff: int) {
    exists r :: r in rows && r.nodeId == n && r.at <= cutoff
  }

  function PruneRows(rows: seq<Row>, cutoff: int): seq<Row> {
    if rows == [] then []
    else if rows[0].at <= cutoff && AnyOld(rows[1..], rows[0].nodeId, cutoff) then PruneRows(rows[1..], cutoff)
    else [rows[0]] + PruneRows(rows[1..], cutoff)
  }

  lemma {:induction false} OldInLog(rows: seq<Row>, n: string, cutoff: int)
    ensures AnyUpTo(LogOf(rows, n), cutoff) <==> AnyOld(rows, n, cutoff)
  {
    if rows != [] {
      OldInLog(rows[1..], n, cutoff);
      assert forall r :: r in rows <==> r == rows[0] || r in rows[1..];
      var rest := LogOf(rows[1..], n);
      assert forall m :: m in rest ==> m in LogOf(rows, n);
      if rows[0].nodeId == n {
        var m := Mark(rows[0].online, rows[0].at);
        assert m in LogOf(rows, n);
        assert forall x :: x in LogOf(rows, n) <==> x == m || x in rest;
      }
    }
  }

  /** Pruning the table prunes each node's log on its own. */
  lemma {:induction false} PruneEachNode(rows: seq<Row>, cutoff: int, n: string)
    ensures LogOf(PruneRows(rows, cutoff), n) == PruneLog(LogOf(rows, n), cutoff)
  {
    if rows != [] {
      var rest := rows[1..];
      PruneEachNode(rest, cutoff, n);
      OldInLog(rest, n, cutoff);
      var pruned := PruneRows(rest, cutoff);
      assert ([rows[0]] + pruned)[1..] == pruned;
      if rows[0].nodeId == n {
        assert LogOf(rows, n)[1..] == LogOf(rest, n);
      } else {
        assert LogOf(rows, n) == LogOf(rest, n);
        assert LogOf([rows[0]] + pruned, n) == LogOf(pruned, n);
      }
    }
  }

  lemma {:induction false} LogOfSnoc(rows: seq<Row>, row: Row, n: string)
    ensures LogOf(rows + [row], n) == LogOf(rows, n) + (if row.nodeId == n then [Mark(row.online, row.at)] else [])
  {
    if rows == [] {
      assert [row][1..] == [];
    } else {
      LogOfSnoc(rows[1..], row, n);
      assert (rows + [row])[1..] == rows[1..] + [row];
    }
  }

  lemma {:induction false} PruneRowsWithin(rows: seq<Row>, cutoff: int)
    requires IdsAscend(rows)
    ensures IdsAscend(PruneRows(rows, cutoff))
    ensures forall r :: r in PruneRows(rows, cutoff) ==> r in rows
  {
    if rows != [] {
      PruneRowsWithin(rows[1..], cutoff);
      assert forall r :: r in rows[1..] ==> rows[0].id < r.id;
    }
  }

  lemma {:induction false} NewestExists(log: seq<Mark>)
    requires log != []
    ensures exists pick: nat :: Newest(log, pick)
  {
    if |log| == 1 {
      assert Newest(log, 0);
    } else {
      var rest := log[1..];
      NewestExists(rest);
      var pick: nat :| Newest(rest, pick);
      assert forall m :: m in log <==> m == log[0] || m in rest;
      assert rest[pick] == log[pick + 1];
      assert Newest(log, 0) || Newest(log, pick + 1);
    }
  }

  /** The id is the largest one among the node's rows at or before the cutoff. */
  predicate IsSeed(rows: seq<Row>, n: string, cutoff: int, id: nat) {
    && (exists r :: r in rows && r.nodeId == n && r.at <= cutoff && r.id == id)
    && (forall r :: r in rows && r.nodeId == n && r.at <= cutoff ==> r.id <= id)
  }

  lemma SeedOfRest(rows: seq<Row>, cutoff: int, r: Row)
    requires IdsAscend(rows) && rows != [] && r in rows[1..] && r.at <= cutoff
    ensures IsSeed(rows, r.nodeId, cutoff, r.id) <==> IsSeed(rows[1..], r.nodeId, cutoff, r.id)
  {
    var rest := rows[1..];
    assert forall x :: x in rows <==> x == rows[0] || x in rest;
    assert forall x :: x in rest ==> rows[0].id < x.id;
  }

  lemma SeedIsFirst(rows: seq<Row>, cutoff: int)
    requires IdsAscend(rows) && rows != [] && rows[0].at <= cutoff
    ensures IsSeed(rows, rows[0].nodeId, cutoff, rows[0].id) <==> !AnyOld(rows[1..], rows[0].nodeId, cutoff)
  {
    var rest := rows[1..];
    assert forall x :: x in rows <==> x == rows[0] || x in rest;
    assert forall x :: x in rest ==> rows[0].id < x.id;
  }

  lemma {:induction false} PruneTail(rows: seq<Row>, cutoff: int, r: Row)
    requires IdsAscend(rows)
    ensures r in PruneRows(rows, cutoff) <==> r in rows && (cutoff < r.at || IsSeed(rows, r.nodeId, cutoff, r.id))
  {
    if rows != [] {
      var first, rest := rows[0], rows[1..];
      PruneTail(rest, cutoff, r);
      PruneRowsWithin(rest, cutoff);
      assert forall x :: x in rows <==> x == first || x in rest;
      if first.at <= cutoff {
        SeedIsFirst(rows, cutoff);
      }
      if r in rest && r.at <= cutoff {
        SeedOfRest(rows, cutoff, r);
      }
      assert first !in rest;
      hide IsSeed;
      hide AnyOld;
    }
  }

  /** Pruning keeps exactly the rows after the cutoff and, of each node's older ones, the one inserted last. */
  lemma PruneExactly(rows: seq<Row>, cutoff: int)
    requires IdsAscend(rows)
    ensures forall r :: r in PruneRows(rows, cutoff) <==>
              r in rows && (cutoff < r.at || IsSeed(rows, r.nodeId, cutoff, r.id))
  {
    forall r ensures r in PruneRows(rows, cutoff) <==>
                       r in rows && (cutoff < r.at || IsSeed(rows, r.nodeId, cutoff, r.id))
    {
      PruneTail(rows, cutoff, r);
    }
  }

  class EventTable {
    var rows: seq<Row>
    var nextId: nat

    ghost predicate Valid()
      reads this
    {
      IdsAscend(rows) && forall r :: r in rows ==> r.id < nextId
    }

    constructor ()
      ensures Valid() && rows == []
    {
      rows := [];
      nextId := 0;
    }

    /** Writes a report unless the newest row of that node, whichever the database returns, shows the same state. */
    method Record(nodeId: string, online: bool, now: int)
      requires Valid()
      modifies this
      ensures Valid()
      ensures var n := Text.Trim(nodeId);
              if n == "" then rows == old(rows)
              else
                && (forall m :: m != n ==> LogOf(rows, m) == LogOf(old(rows), m))
                && exists pick: nat :: (LogOf(old(rows), n) != [] ==> Newest(LogOf(old(rows), n), pick))
                                       && LogOf(rows, n) == Stepped(LogOf(old(rows), n), Report(online, now, pick))
    {
      var n := Text.Trim(nodeId);
      if n == "" {
        return;
      }
      var mine := LogOf(rows, n);
      var pick: nat := 0;
      if mine != [] {
        NewestExists(mine);
        pick :| pick < |mine| && Newest(mine, pick);
        if mine[pick].online == online {
          return;
        }
      }
      var row := Row(nextId, n, online, now);
      forall m ensures LogOf(rows + [row], m) == LogOf(rows, m) + (if n == m then [Mark(online, now)] else []) {
        LogOfSnoc(rows, row, m);
      }
      hide LogOf;
      rows := rows + [row];
      nextId := nextId + 1;
      assert LogOf(rows, n) == Stepped(LogOf(old(rows), n), Report(online, now, pick));
    }

    /** MAX(id) per node among the rows at or before the cutoff. */
    method Seeds(cutoff: int) returns (seeds: map<string, nat>)
      ensures AreSeeds(rows, cutoff, seeds)
    {
      seeds := map[];
      for i := 0 to |rows|
        invariant AreSeeds(rows[..i], cutoff, seeds)
      {
        var row := rows[i];
        assert rows[..i + 1] == rows[..i] + [row];
        SeedStep(rows[..i], row, cutoff, seeds);
        if row.at <= cutoff && (row.nodeId !in seeds || seeds[row.nodeId] < row.id) {
          seeds := seeds[row.nodeId := row.id];
        }
        hide AreSeeds;
      }
      assert rows[..|rows|] == rows;
    }

    /** Deletes the rows at or before the cutoff that no seed protects. */
    method Prune(now: int)
      requires Valid()
      modifies this`rows
      ensures Valid()
      ensures rows == PruneRows(old(rows), now - RETENTION)
      ensures forall n :: LogOf(rows, n) == Stepped(LogOf(old(rows), n), Op.Prune(now))
    {
      var cutoff := now - RETENTION;
      var all := rows;
      var seeds := Seeds(cutoff);
      var kept := [];
      var i := |all|;
      while i > 0
        invariant 0 <= i <= |all| && kept == PruneRows(all[i..], cutoff)
      {
        i := i - 1;
        var row := all[i];
        assert all[i..][0] == row && all[i..][1..] == all[i + 1..];
        if row.at <= cutoff {
          SeedIsLast(all, i, cutoff, seeds);
        }
        if cutoff < row.at || row.id in seeds.Values {
          kept := [row] + kept;
        }
      }
      assert all[0..] == all;
      PruneRowsWithin(all, cutoff);
      rows := kept;
      forall n ensures LogOf(rows, n) == PruneLog(LogOf(all, n), cutoff) {
        PruneEachNode(all, cutoff, n);
      }
    }
  }

  ghost predicate AreSeeds(rows: seq<Row>, cutoff: int, seeds: map<string, nat>) {
    && (forall n :: n in seeds <==> AnyOld(rows, n, cutoff))
    && (forall n :: n in seeds ==> IsSeed(rows, n, cutoff, seeds[n]))
  }

  lemma OldSnoc(rows: seq<Row>, row: Row, cutoff: int, n: string)
    ensures AnyOld(rows + [row], n, cutoff) <==> AnyOld(rows, n, cutoff) || (row.nodeId == n && row.at <= cutoff)
  {
    assert row in rows + [row];
  }

  lemma SeedSnoc(rows: seq<Row>, row: Row, cutoff: int, n: string, id: nat)
    requires IsSeed(rows, n, cutoff, id)
    ensures IsSeed(rows + [row], n, cutoff, if row.nodeId == n && row.at <= cutoff && id < row.id then row.id else id)
  {
    assert row in rows + [row];
  }

  lemma SeedStep(rows: seq<Row>, row: Row, cutoff: int, seeds: map<string, nat>)
    requires AreSeeds(rows, cutoff, seeds)
    ensures var next := if row.at <= cutoff && (row.nodeId !in seeds || seeds[row.nodeId] < row.id)
                        then seeds[row.nodeId := row.id] else seeds;
            AreSeeds(rows + [row], cutoff, next)
  {
    var next := if row.at <= cutoff && (row.nodeId !in seeds || seeds[row.nodeId] < row.id)
                then seeds[row.nodeId := row.id] else seeds;
    forall n ensures n in next <==> AnyOld(rows + [row], n, cutoff) {
      OldSnoc(rows, row, cutoff, n);
      hide AnyOld;
    }
    forall n | n in next ensures IsSeed(rows + [row], n, cutoff, next[n]) {
      if n in seeds {
        SeedSnoc(rows, row, cutoff, n, seeds[n]);
      } else {
        assert row in rows + [row] && !AnyOld(rows, n, cutoff);
      }
    }
  }

  /** The largest id marks the last row inserted. */
  lemma SeedIsLast(rows: seq<Row>, i: nat, cutoff: int, seeds: map<string, nat>)
    requires IdsAscend(rows) && i < |rows| && rows[i].at <= cutoff && AreSeeds(rows, cutoff, seeds)
    ensures rows[i].id in seeds.Values <==> !AnyOld(rows[i + 1..], rows[i].nodeId, cutoff)
  {
    var row := rows[i];
    assert row in rows && AnyOld(rows, row.nodeId, cutoff);
    assert IsSeed(rows, row.nodeId, cutoff, seeds[row.nodeId]);
    if row.id in seeds.Values {
      var n :| n in seeds && seeds[n] == row.id;
      assert IsSeed(rows, n, cutoff, row.id);
      NoneAfterSeed(rows, i, cutoff, n);
    } else {
      SomeAfterOther(rows, i, cutoff, seeds[row.nodeId]);
    }
  }

  lemma NoneAfterSeed(rows: seq<Row>, i: nat, cutoff: int, n: string)
    requires IdsAscend(rows) && i < |rows| && IsSeed(rows, n, cutoff, rows[i].id)
    ensures !AnyOld(rows[i + 1..], rows[i].nodeId, cutoff)
  {
    var r :| r in rows && r.nodeId == n && r.at <= cutoff && r.id == rows[i].id;
    assert r == rows[i];
    forall x | x in rows[i + 1..] && x.nodeId == n ensures cutoff < x.at {
      var j :| 0 <= j < |rows| - (i + 1) && rows[i + 1..][j] == x;
      assert x == rows[i + 1 + j];
    }
  }

  lemma SomeAfterOther(rows: seq<Row>, i: nat, cutoff: int, id: nat)
    requires IdsAscend(rows) && i < |rows| && rows[i].at <= cutoff
    requires IsSeed(rows, rows[i].nodeId, cutoff, id) && id != rows[i].id
    ensures AnyOld(rows[i + 1..], rows[i].nodeId, cutoff)
  {
    var r :| r in rows && r.nodeId == rows[i].nodeId && r.at <= cutoff && r.id == id;
    var j :| 0 <= j < |rows| && rows[j] == r;
    assert i < j;
    assert rows[i + 1..][j - i - 1] == r;
  }
}
