/** Folds over finite maps, with the update laws that make them usable as bookkeeping totals. */
module MapFolds {

  /** Sum of all values of a map. */
  ghost function Sum<K>(m: map<K, int>): int {
    if m == map[] then 0 else var k :| k in m; m[k] + Sum(m - {k})
  }

  /** Union, with multiplicity, of all sequences stored in a map. */
  ghost function Contents<K, T>(m: map<K, seq<T>>): multiset<T> {
    if m == map[] then multiset{} else var k :| k in m; multiset(m[k]) + Contents(m - {k})
  }

  lemma {:induction false} SumRemove<K>(m: map<K, int>, k: K)
    requires k in m
    ensures Sum(m) == m[k] + Sum(m - {k})
    decreases |m|
  {
    var j :| j in m && Sum(m) == m[j] + Sum(m - {j});
    if j != k {
      SumRemove(m - {j}, k);
      SumRemove(m - {k}, j);
      assert m - {j} - {k} == m - {k} - {j};
    }
  }

  lemma SumUpdate<K>(m: map<K, int>, k: K, v: int)
    ensures Sum(m[k := v]) == Sum(m) + v - (if k in m then m[k] else 0)
  {
    var m' := m[k := v];
    SumRemove(m', k);
    if k in m {
      SumRemove(m, k);
      assert m' - {k} == m - {k};
    } else {
      assert m' - {k} == m;
    }
  }

  lemma {:induction false} ContentsRemove<K, T>(m: map<K, seq<T>>, k: K)
    requires k in m
    ensures Contents(m) == multiset(m[k]) + Contents(m - {k})
    decreases |m|
  {
    var j :| j in m && Contents(m) == multiset(m[j]) + Contents(m - {j});
    if j != k {
      ContentsRemove(m - {j}, k);
      ContentsRemove(m - {k}, j);
      assert m - {j} - {k} == m - {k} - {j};
    }
  }

  lemma ContentsUpdate<K, T>(m: map<K, seq<T>>, k: K, q: seq<T>)
    ensures Contents(m[k := q]) + multiset(if k in m then m[k] else []) == Contents(m) + multiset(q)
  {
    var m' := m[k := q];
    ContentsRemove(m', k);
    if k in m {
      ContentsRemove(m, k);
      assert m' - {k} == m - {k};
    } else {
      assert m' - {k} == m;
    }
  }

  /** Taking `dropped` off the end of one entry. */
  lemma ContentsShrink<K, T>(m: map<K, seq<T>>, k: K, q: seq<T>, dropped: seq<T>)
    requires k in m && m[k] == q + dropped
    ensures Contents(m) == Contents(m[k := q]) + multiset(dropped)
    ensures |Contents(m)| == |Contents(m[k := q])| + |dropped|
  {
    ContentsUpdate(m, k, q);
    assert multiset(m[k]) == multiset(q) + multiset(dropped);
    MultisetCancel(Contents(m), Contents(m[k := q]) + multiset(dropped), multiset(q));
    MultisetCard(Contents(m[k := q]), multiset(dropped));
  }

  /** Adding to the end of one entry. */
  lemma ContentsGrow<K, T>(m: map<K, seq<T>>, k: K, added: seq<T>)
    ensures Contents(m[k := (if k in m then m[k] else []) + added]) == Contents(m) + multiset(added)
    ensures |Contents(m[k := (if k in m then m[k] else []) + added])| == |Contents(m)| + |added|
  {
    var q := if k in m then m[k] else [];
    ContentsUpdate(m, k, q + added);
    assert multiset(q + added) == multiset(q) + multiset(added);
    MultisetCancel(Contents(m[k := q + added]), Contents(m) + multiset(added), multiset(q));
    MultisetCard(Contents(m), multiset(added));
  }

  lemma MultisetCancel<T>(a: multiset<T>, b: multiset<T>, c: multiset<T>)
    requires a + c == b + c
    ensures a == b
  {
    forall x | x in a || x in b ensures a[x] == b[x] {
      assert (a + c)[x] == (b + c)[x];
    }
  }

  lemma MultisetCard<T>(a: multiset<T>, b: multiset<T>)
    ensures |a + b| == |a| + |b|
  {
  }

  /** Moving `x` from one summand to the next keeps a total. */
  lemma MultisetMove<T>(a: multiset<T>, b: multiset<T>, c: multiset<T>, x: multiset<T>, total: multiset<T>)
    requires a + x + b + c == total
    ensures a + (b + x) + c == total
    ensures a + b + (c + x) == total
  {
  }

  /** How many keys have value `v`. */
  ghost function Count<K, V>(m: map<K, V>, v: V): nat {
    |set k | k in m && m[k] == v|
  }

  lemma CountEmpty<K, V>(v: V)
    ensures Count<K, V>(map[], v) == 0
  {
    var m: map<K, V> := map[];
    assert (set k | k in m && m[k] == v) <= m.Keys;
  }

  lemma CountInsert<K, V>(m: map<K, V>, k: K, x: V, v: V)
    requires k !in m
    ensures Count(m[k := x], v) == Count(m, v) + (if x == v then 1 else 0)
  {
    var before := set j | j in m && m[j] == v;
    var m' := m[k := x];
    var after := set j | j in m' && m'[j] == v;
    assert after == if x == v then before + {k} else before;
  }

  lemma CountRemove<K, V>(m: map<K, V>, k: K, v: V)
    requires k in m
    ensures Count(m - {k}, v) == Count(m, v) - (if m[k] == v then 1 else 0)
  {
    CountInsert(m - {k}, k, m[k], v);
    assert m == (m - {k})[k := m[k]];
  }

  /** Splitting every entry in two splits the contents. */
  lemma {:induction false} ContentsSplit<K, T>(m: map<K, seq<T>>, a: map<K, seq<T>>, b: map<K, seq<T>>)
    requires m.Keys == a.Keys == b.Keys
    requires forall k :: k in m ==> multiset(m[k]) == multiset(a[k]) + multiset(b[k])
    ensures Contents(m) == Contents(a) + Contents(b)
    decreases |m|
  {
    if m == map[] {
      assert a == map[] && b == map[];
    } else {
      var k :| k in m;
      ContentsRemove(m, k);
      ContentsRemove(a, k);
      ContentsRemove(b, k);
      ContentsSplit(m - {k}, a - {k}, b - {k});
      Regroup(multiset(a[k]), multiset(b[k]), Contents(a - {k}), Contents(b - {k}));
    }
  }

  lemma Regroup<T>(a: multiset<T>, b: multiset<T>, c: multiset<T>, d: multiset<T>)
    ensures (a + b) + (c + d) == (a + c) + (b + d)
  {
  }

  lemma {:induction false} ContentsWhere<K, T>(m: map<K, seq<T>>, x: T) returns (k: K)
    requires x in Contents(m)
    ensures k in m && x in m[k]
    decreases |m|
  {
    var j :| j in m && Contents(m) == multiset(m[j]) + Contents(m - {j});
    if x in m[j] {
      k := j;
    } else {
      k := ContentsWhere(m - {j}, x);
    }
  }

  lemma {:induction false} SumZero<K>(m: map<K, int>)
    requires forall k :: k in m ==> m[k] == 0
    ensures Sum(m) == 0
    decreases |m|
  {
    if m != map[] {
      var k :| k in m && Sum(m) == m[k] + Sum(m - {k});
      SumZero(m - {k});
    }
  }

  /** Leaving one key fewer out. */
  lemma ContentsWithout<K, T>(m: map<K, seq<T>>, todo: set<K>, k: K, total: multiset<T>)
    requires k in m && k in todo
    ensures total + Contents(m - (todo - {k})) == total + Contents(m - todo) + multiset(m[k])
  {
    assert m - (todo - {k}) == (m - todo)[k := m[k]];
    ContentsGrow(m - todo, k, m[k]);
    assert [] + m[k] == m[k];
  }
}
