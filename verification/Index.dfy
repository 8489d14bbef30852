/** Reverse indexes: for each value, the non-empty set of keys that carry it. */
module Index {
  function Invert<K, V>(m: map<K, V>): map<V, set<K>> {
    map v | v in m.Values :: set k | k in m && m[k] == v
  }

  function IndexAdd<K, V>(index: map<V, set<K>>, v: V, k: K): map<V, set<K>> {
    index[v := (if v in index then index[v] else {}) + {k}]
  }

  function IndexRemove<K, V>(index: map<V, set<K>>, v: V, k: K): map<V, set<K>> {
    if v !in index then index
    else if index[v] - {k} == {} then index - {v}
    else index[v := index[v] - {k}]
  }

  function Lookup<K, V>(index: map<V, set<K>>, v: V): set<K> {
    if v in index then index[v] else {}
  }

  /** An index that inverts a map answers every lookup with the brute-force set, and holds no empty set. */
  lemma LookupInverts<K, V>(m: map<K, V>, v: V)
    ensures Lookup(Invert(m), v) == set k | k in m && m[k] == v
    ensures v in Invert(m) ==> Invert(m)[v] != {}
  {
    if v in m.Values {
      var k :| k in m && m[k] == v;
      assert k in Invert(m)[v];
    } else {
      assert forall k | k in m :: m[k] in m.Values;
    }
  }

  /** Adding a key to the index keeps it the inverse. */
  lemma AddInverts<K, V>(m: map<K, V>, k: K, v: V)
    requires k !in m
    ensures IndexAdd(Invert(m), v, k) == Invert(m[k := v])
  {
    var m' := m[k := v];
    assert m'[k] == v;
    assert m'.Values == m.Values + {v} by {
      forall x | x in m.Values ensures x in m'.Values {
        var j :| j in m && m[j] == x;
        assert m'[j] == x;
      }
    }
    forall x | x in m'.Values ensures Invert(m')[x] == IndexAdd(Invert(m), v, k)[x] {
      LookupInverts(m, x);
    }
  }

  /** Removing a key under the value it carries keeps it the inverse. */
  lemma RemoveInverts<K, V>(m: map<K, V>, k: K)
    requires k in m
    ensures IndexRemove(Invert(m), m[k], k) == Invert(m - {k})
  {
    var m' := m - {k};
    var v := m[k];
    LookupInverts(m, v);
    assert v in m.Values;
    forall x ensures x in m'.Values <==> x in m.Values && !(x == v && Invert(m)[v] - {k} == {}) {
      if x in m.Values && !(x == v && Invert(m)[v] - {k} == {}) {
        LookupInverts(m, x);
        assert x != v ==> k !in Invert(m)[x];
        assert Invert(m)[x] - {k} != {};
        var j :| j in Invert(m)[x] - {k};
        assert m'[j] == x;
      }
    }
    forall x | x in m'.Values ensures Invert(m')[x] == IndexRemove(Invert(m), v, k)[x] {
      LookupInverts(m, x);
    }
  }
}
