/**
 A JavaScript Set or Map built from a list of ids: it is iterated in the order of first insertion.
 */
module InsertionOrder {
  /** First occurrences, in order. */
  function Distinct(ids: seq<string>): seq<string> {
    if ids == [] then []
    else
      var front := Distinct(ids[..|ids| - 1]);
      if ids[|ids| - 1] in ids[..|ids| - 1] then front else front + [ids[|ids| - 1]]
  }

  ghost predicate NoRepeats(ids: seq<string>) {
    forall i, j :: 0 <= i < j < |ids| ==> ids[i] != ids[j]
  }

  /** The same ids, each once. */
  lemma {:induction false} DistinctHasNoRepeats(ids: seq<string>)
    ensures NoRepeats(Distinct(ids))
    ensures forall x :: x in Distinct(ids) <==> x in ids
  {
    if ids != [] {
      DistinctHasNoRepeats(ids[..|ids| - 1]);
      assert ids == ids[..|ids| - 1] + [ids[|ids| - 1]];
    }
  }
}
