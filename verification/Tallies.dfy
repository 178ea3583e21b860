/** Counting the entries of a map that satisfy a predicate, and how one change moves the count. */
module Tallies {
  import opened Commons

  ghost function Where<K, V>(m: map<K, V>, p: V -> bool): set<K> {
    set k | k in m && p(m[k])
  }

  ghost function Tally<K, V>(m: map<K, V>, p: V -> bool): nat {
    |Where(m, p)|
  }

  lemma TallyRemove<K, V>(m: map<K, V>, k: K, p: V -> bool)
    ensures Tally(m - {k}, p) == Tally(m, p) - One(k in m && p(m[k]))
  {
    assert Where(m - {k}, p) == Where(m, p) - {k};
  }

  lemma TallySet<K, V>(m: map<K, V>, k: K, v: V, p: V -> bool)
    ensures Tally(m[k := v], p) == Tally(m, p) - One(k in m && p(m[k])) + One(p(v))
  {
    TallyRemove(m, k, p);
    if p(v) {
      assert Where(m[k := v], p) == Where(m - {k}, p) + {k};
    } else {
      assert Where(m[k := v], p) == Where(m - {k}, p);
    }
  }

  lemma TallyPositive<K, V>(m: map<K, V>, k: K, p: V -> bool)
    requires k in m && p(m[k])
    ensures Tally(m, p) > 0
  {
    assert k in Where(m, p);
  }

  lemma TallyWitness<K, V>(m: map<K, V>, p: V -> bool) returns (k: K)
    requires Tally(m, p) > 0
    ensures k in m && p(m[k])
  {
    k :| k in Where(m, p);
  }
}
