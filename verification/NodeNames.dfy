/** Identifiers as strings: their order, sorting a set of them, and joining them into one name. */
module NodeNames {
  type NodeId = string

  /**
   Where a character sorts when strings are compared by UTF-16 unit: one outside the basic plane starts with a
   surrogate, and so comes before the basic characters from U+E000 on.
   */
  function UnitRank(c: char): int {
    if 0xE000 <= c as int <= 0xFFFF then c as int + 0x110000 else c as int
  }

  /** The order JavaScript sorts strings in: by UTF-16 unit, a prefix first. */
  predicate Leq(a: string, b: string) {
    a == "" || (b != "" && (UnitRank(a[0]) < UnitRank(b[0]) || (a[0] == b[0] && Leq(a[1..], b[1..]))))
  }

  lemma {:induction false} LeqTotal(a: string, b: string)
    ensures Leq(a, b) || Leq(b, a)
  {
    if a != "" && b != "" && a[0] == b[0] {
      LeqTotal(a[1..], b[1..]);
    }
  }

  lemma {:induction false} LeqAntisymmetric(a: string, b: string)
    requires Leq(a, b) && Leq(b, a)
    ensures a == b
  {
    if a != "" && b != "" {
      LeqAntisymmetric(a[1..], b[1..]);
      assert a == [a[0]] + a[1..] && b == [b[0]] + b[1..];
    }
  }

  lemma {:induction false} LeqTransitive(a: string, b: string, c: string)
    requires Leq(a, b) && Leq(b, c)
    ensures Leq(a, c)
  {
    if a != "" && a[0] == b[0] && b[0] == c[0] {
      LeqTransitive(a[1..], b[1..], c[1..]);
    }
  }

  /** Ascending, hence without repetition when the elements are distinct. */
  predicate Ascending(s: seq<NodeId>) {
    forall i, j | 0 <= i < j < |s| :: Leq(s[i], s[j]) && s[i] != s[j]
  }

  lemma HasElement(s: seq<NodeId>)
    requires s != []
    ensures exists x :: x in s
  {
    assert s[0] in s;
  }

  /** A set of ids has one ascending enumeration. */
  lemma {:induction false} AscendingUnique(s: seq<NodeId>, t: seq<NodeId>)
    requires Ascending(s) && Ascending(t) && (forall x :: x in s <==> x in t)
    ensures s == t
  {
    if s == [] {
      if t != [] {
        HasElement(t);
      }
    } else {
      assert s[0] in t && t[0] in s;
      if s[0] != t[0] {
        LeqAntisymmetric(s[0], t[0]);
      }
      forall x ensures x in s[1..] <==> x in t[1..] {
        assert x in s <==> x == s[0] || x in s[1..];
        assert x in t <==> x == t[0] || x in t[1..];
        assert s[0] !in s[1..] && t[0] !in t[1..];
      }
      AscendingUnique(s[1..], t[1..]);
    }
  }

  function Insert(x: NodeId, s: seq<NodeId>): (r: seq<NodeId>)
    requires Ascending(s) && x !in s
    ensures Ascending(r) && forall y :: y in r <==> y == x || y in s
  {
    if s == [] then [x]
    else if Leq(x, s[0]) then
      assert forall j | 0 < j < |s| :: Leq(x, s[j]) by {
        forall j | 0 < j < |s| ensures Leq(x, s[j]) { LeqTransitive(x, s[0], s[j]); }
      }
      [x] + s
    else
      LeqTotal(x, s[0]);
      var r := Insert(x, s[1..]);
      assert forall y | y in r :: Leq(s[0], y) && s[0] != y;
      [s[0]] + r
  }

  /** Sorting distinct ids. */
  function Sort(s: seq<NodeId>): (r: seq<NodeId>)
    requires forall i, j | 0 <= i < j < |s| :: s[i] != s[j]
    ensures Ascending(r) && forall y :: y in r <==> y in s
  {
    if s == [] then [] else Insert(s[0], Sort(s[1..]))
  }

  /** The ids joined with ':' between them. */
  function Join(s: seq<NodeId>): string {
    if s == [] then "" else if |s| == 1 then s[0] else s[0] + ":" + Join(s[1..])
  }

  predicate Plain(id: NodeId) {
    ':' !in id
  }

  lemma FirstColon(a: string, x: string, b: string, y: string)
    requires Plain(a) && Plain(b) && a + ":" + x == b + ":" + y
    ensures a == b && x == y
  {
    var s := a + ":" + x;
    assert s[|a|] == ':' && s[|b|] == ':';
    assert forall i :: 0 <= i < |a| ==> s[i] == a[i] && a[i] in a;
    assert forall i :: 0 <= i < |b| ==> s[i] == b[i] && b[i] in b;
    assert |a| == |b|;
    assert a == s[..|a|] && b == s[..|b|];
    assert x == s[|a| + 1..] && y == s[|b| + 1..];
  }

  lemma ColonMeansSeveral(s: seq<NodeId>)
    requires s != [] && forall x :: x in s ==> Plain(x)
    ensures ':' in Join(s) <==> |s| >= 2
  {
    if |s| >= 2 {
      assert Join(s)[|s[0]|] == ':';
    } else {
      assert s[0] in s;
    }
  }

  /** Ids without ':' can be read back from their joined name. */
  lemma {:induction false} JoinInjective(s: seq<NodeId>, t: seq<NodeId>)
    requires s != [] && t != [] && (forall x :: x in s || x in t ==> Plain(x)) && Join(s) == Join(t)
    ensures s == t
  {
    ColonMeansSeveral(s);
    ColonMeansSeveral(t);
    if |s| > 1 {
      FirstColon(s[0], Join(s[1..]), t[0], Join(t[1..]));
      JoinInjective(s[1..], t[1..]);
      assert s == [s[0]] + s[1..] && t == [t[0]] + t[1..];
    }
  }
}
