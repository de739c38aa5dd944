/** Sums over the rows a query selects, given as a map from row id to the summed column. */
module Sums {
  import opened Basics

  ghost function Sum(m: map<Id, int>): int
    decreases |m|
  {
    if m == map[] then 0
    else var k :| k in m; m[k] + Sum(m - {k})
  }

  /** Any row may be taken out first. */
  lemma {:induction false} SumRemove(m: map<Id, int>, k: Id)
    requires k in m
    ensures Sum(m) == m[k] + Sum(m - {k})
    decreases |m|
  {
    var c :| c in m && Sum(m) == m[c] + Sum(m - {c});
    if c != k {
      SumRemove(m - {c}, k);
      SumRemove(m - {k}, c);
      assert m - {c} - {k} == m - {k} - {c};
    }
  }

  lemma SumInsert(m: map<Id, int>, k: Id, v: int)
    requires k !in m
    ensures Sum(m[k := v]) == v + Sum(m)
  {
    SumRemove(m[k := v], k);
    assert m[k := v] - {k} == m;
  }

  /** The rows among `part`. */
  function Among(m: map<Id, int>, part: set<Id>): map<Id, int> {
    map k | k in m && k in part :: m[k]
  }

  lemma SumAmongOne(m: map<Id, int>, part: set<Id>, k: Id)
    requires k in part
    ensures Sum(Among(m, part)) == (if k in m then m[k] else 0) + Sum(Among(m, part - {k}))
  {
    if k in m { SumRemove(Among(m, part), k); }
    assert Among(m, part - {k}) == Among(m, part) - {k};
    if k !in m { assert Among(m, part) - {k} == Among(m, part); }
  }

  lemma SumAmongEnds(m: map<Id, int>, part: set<Id>)
    ensures Sum(Among(m, {})) == 0
    ensures m.Keys <= part ==> Sum(Among(m, part)) == Sum(m)
  {
    assert Among(m, {}) == map[];
    if m.Keys <= part { assert Among(m, part) == m; }
  }

  lemma {:induction false} SumAmongTwo(m: map<Id, int>, a: set<Id>, b: set<Id>)
    requires a !! b
    ensures Sum(Among(m, a + b)) == Sum(Among(m, a)) + Sum(Among(m, b))
    decreases |a|
  {
    if a == {} {
      SumAmongEnds(m, a);
      assert a + b == b;
    } else {
      var k :| k in a;
      SumAmongOne(m, a, k);
      SumAmongOne(m, a + b, k);
      assert a + b - {k} == (a - {k}) + b;
      SumAmongTwo(m, a - {k}, b);
    }
  }

  /** A sum splits over any set of rows and the rest. */
  lemma SumSplit(m: map<Id, int>, part: set<Id>)
    ensures Sum(m) == Sum(Among(m, part)) + Sum(m - part)
  {
    var others := m.Keys - part;
    SumAmongTwo(m, part, others);
    SumAmongEnds(m, part + others);
    assert Among(m, others) == m - part;
  }

  lemma {:induction false} SumBounds(m: map<Id, int>, k: Id)
    requires forall i | i in m :: m[i] >= 0
    ensures Sum(m) >= 0
    ensures k in m ==> m[k] <= Sum(m)
    decreases |m|
  {
    if k in m {
      SumRemove(m, k);
      SumBounds(m - {k}, k);
    } else if m != map[] {
      var c :| c in m;
      SumRemove(m, c);
      SumBounds(m - {c}, c);
    }
  }
}
