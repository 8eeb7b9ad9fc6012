/** Choosing from a list and sorting it by a key that orders its elements totally: what comes out is a
    function of the elements alone. */
module ListOrder {
  import opened Ordering

  /** `[x for x in q if p(x)]`. */
  function Where<T>(q: seq<T>, p: T -> bool): seq<T> {
    if q == [] then [] else if p(q[0]) then [q[0]] + Where(q[1..], p) else Where(q[1..], p)
  }

  lemma {:induction false} WhereSpec<T>(q: seq<T>, p: T -> bool)
    ensures Elements(Where(q, p)) == set x | x in q && p(x)
    ensures NoRepeats(q) ==> NoRepeats(Where(q, p))
  {
    if q != [] {
      WhereSpec(q[1..], p);
      var r := Where(q[1..], p);
      assert q == [q[0]] + q[1..];
      assert Elements([q[0]] + r) == {q[0]} + Elements(r);
      assert forall i | 0 <= i < |r| :: r[i] in Elements(r);
    }
  }

  /** `min(q, key=..)`: the first element that no other is less than. */
  method MinBy<T(==)>(less: (T, T) -> bool, q: seq<T>) returns (x: T)
    requires q != [] && StrictTotalOn(less, Elements(q))
    ensures Elements(q) != {} && x == Least(less, Elements(q))
  {
    x := q[0];
    for i := 1 to |q|
      invariant x in q && forall j | 0 <= j < i :: q[j] == x || less(x, q[j])
    {
      if less(q[i], x) {
        Undercuts(less, q, i, x);
        x := q[i];
      } else {
        assert q[i] in Elements(q) && x in Elements(q);
      }
    }
    assert x in Elements(q);
    LeastIs(less, Elements(q), x);
  }

  lemma Undercuts<T>(less: (T, T) -> bool, q: seq<T>, i: nat, x: T)
    requires StrictTotalOn(less, Elements(q)) && i < |q| && x in q && less(q[i], x)
    requires forall j | 0 <= j < i :: q[j] == x || less(x, q[j])
    ensures forall j | 0 <= j <= i :: q[j] == q[i] || less(q[i], q[j])
  {
    forall j | 0 <= j < i ensures less(q[i], q[j]) {
      assert q[i] in Elements(q) && q[j] in Elements(q) && x in Elements(q);
    }
  }

  /** `sorted(q, key=..)`, by insertion. */
  method SortBy<T(==)>(less: (T, T) -> bool, q: seq<T>) returns (sorted: seq<T>)
    requires NoRepeats(q) && StrictTotalOn(less, Elements(q))
    ensures sorted == Ascending(less, Elements(q))
  {
    sorted := [];
    NoneYet(less, q);
    for i := 0 to |q|
      invariant SortedBy(less, sorted) && Elements(sorted) == Elements(q[..i])
    {
      var k := 0;
      NotYet(q, i);
      while k < |sorted| && less(sorted[k], q[i])
        invariant k <= |sorted| && forall j | 0 <= j < k :: less(sorted[j], q[i])
      {
        k := k + 1;
      }
      Insert(less, q, i, sorted, k);
      sorted := sorted[..k] + [q[i]] + sorted[k..];
    }
    assert q[..|q|] == q;
    SortedUnique(less, sorted, Ascending(less, Elements(q)));
  }

  lemma NoneYet<T>(less: (T, T) -> bool, q: seq<T>)
    ensures SortedBy(less, []) && Elements(q[..0]) == {}
  {
  }

  lemma NotYet<T>(q: seq<T>, i: nat)
    requires NoRepeats(q) && i < |q|
    ensures q[i] !in Elements(q[..i]) && Elements(q[..i]) <= Elements(q) && q[i] in Elements(q)
    ensures Elements(q[..i + 1]) == Elements(q[..i]) + {q[i]}
  {
  }

  lemma Insert<T>(less: (T, T) -> bool, q: seq<T>, i: nat, sorted: seq<T>, k: nat)
    requires NoRepeats(q) && StrictTotalOn(less, Elements(q)) && i < |q|
    requires SortedBy(less, sorted) && Elements(sorted) == Elements(q[..i]) && k <= |sorted|
    requires forall j | 0 <= j < k :: less(sorted[j], q[i])
    requires k < |sorted| ==> !less(sorted[k], q[i])
    ensures SortedBy(less, sorted[..k] + [q[i]] + sorted[k..])
    ensures Elements(sorted[..k] + [q[i]] + sorted[k..]) == Elements(q[..i + 1])
  {
    NotYet(q, i);
    var more := sorted[..k] + [q[i]] + sorted[k..];
    assert forall j | 0 <= j < |sorted| :: sorted[j] in Elements(sorted);
    forall j | k <= j < |sorted| ensures less(q[i], sorted[j]) {
      assert less(q[i], sorted[k]);
      assert j == k || less(sorted[k], sorted[j]);
    }
    InsertedElements(sorted, k, q[i]);
    forall a, b | 0 <= a < b < |more| ensures less(more[a], more[b]) {
      InsertedOrder(less, sorted, k, q[i], a, b);
    }
  }

  lemma InsertedElements<T>(sorted: seq<T>, k: nat, x: T)
    requires k <= |sorted|
    ensures Elements(sorted[..k] + [x] + sorted[k..]) == Elements(sorted) + {x}
  {
    assert sorted == sorted[..k] + sorted[k..];
  }

  lemma InsertedOrder<T>(less: (T, T) -> bool, sorted: seq<T>, k: nat, x: T, a: nat, b: nat)
    requires SortedBy(less, sorted) && k <= |sorted| && a < b <= |sorted|
    requires forall j | 0 <= j < k :: less(sorted[j], x)
    requires forall j | k <= j < |sorted| :: less(x, sorted[j])
    ensures var more := sorted[..k] + [x] + sorted[k..]; less(more[a], more[b])
  {
  }

  // Lists of entries under distinct keys.

  function ByKey<V>(): ((string, V), (string, V)) -> bool {
    (a: (string, V), b: (string, V)) => TextLess(a.0, b.0)
  }

  function Keys<V>(q: seq<(string, V)>): set<string> {
    set i | 0 <= i < |q| :: q[i].0
  }

  /** `q` lists the entries of `m`, each key once, in any order, each value as `shows` has it appear. */
  ghost predicate Tabulates<V, W>(q: seq<(string, V)>, m: map<string, W>, shows: (V, W) -> bool) {
    && (forall i, j | 0 <= i < j < |q| :: q[i].0 != q[j].0)
    && Keys(q) == m.Keys
    && forall i | 0 <= i < |q| :: q[i].0 in m && shows(q[i].1, m[q[i].0])
  }

  lemma TabulatesMore<V, W>(q: seq<(string, V)>, m: map<string, W>, shows: (V, W) -> bool, k: string, v: V, w: W)
    requires Tabulates(q, m, shows) && k !in m && shows(v, w)
    ensures Tabulates(q + [(k, v)], m[k := w], shows)
  {
    var more := q + [(k, v)];
    assert forall i | 0 <= i < |q| :: more[i] == q[i] && q[i].0 in Keys(q);
    assert Keys(more) == Keys(q) + {k} by {
      assert more[|q|].0 == k;
    }
  }

  lemma ByKeyIsTotal<V>(q: seq<(string, V)>)
    requires forall i, j | 0 <= i < j < |q| :: q[i].0 != q[j].0
    ensures NoRepeats(q) && StrictTotalOn(ByKey<V>(), Elements(q))
  {
    TextStrictTotal(Keys(q));
    var less := ByKey<V>();
    forall x | x in Elements(q) ensures x.0 in Keys(q) {
      var i :| 0 <= i < |q| && q[i] == x;
    }
    forall x, y | x in Elements(q) && y in Elements(q) && x != y ensures less(x, y) || less(y, x) {
      var i :| 0 <= i < |q| && q[i] == x;
      var j :| 0 <= j < |q| && q[j] == y;
      assert i < j || j < i;
    }
  }

  lemma TabulatesElements<V, W>(q: seq<(string, V)>, r: seq<(string, V)>, m: map<string, W>, shows: (V, W) -> bool)
    requires Tabulates(q, m, shows) && Elements(r) == Elements(q) && SortedBy(ByKey<V>(), r)
    ensures Tabulates(r, m, shows)
  {
    forall i | 0 <= i < |r| ensures r[i].0 in m && shows(r[i].1, m[r[i].0]) {
      assert r[i] in Elements(r);
      var j :| 0 <= j < |q| && q[j] == r[i];
    }
    forall k | k in m.Keys ensures k in Keys(r) {
      var j :| 0 <= j < |q| && q[j].0 == k;
      assert q[j] in Elements(q);
      var i :| 0 <= i < |r| && r[i] == q[j];
    }
    forall i, j | 0 <= i < j < |r| ensures r[i].0 != r[j].0 {
      assert ByKey<V>()(r[i], r[j]);
      TextTrichotomy(r[i].0, r[j].0);
    }
  }

  /** A list of entries under distinct keys, sorted by key. */
  method SortByKey<V(==), W>(q: seq<(string, V)>, ghost m: map<string, W>, ghost shows: (V, W) -> bool)
    returns (sorted: seq<(string, V)>)
    requires Tabulates(q, m, shows)
    ensures Tabulates(sorted, m, shows) && SortedBy(ByKey<V>(), sorted)
  {
    ByKeyIsTotal(q);
    sorted := SortBy(ByKey<V>(), q);
    TabulatesElements(q, sorted, m, shows);
  }

  /** There is one way to list a map by its keys, when a value appears in one way only. */
  lemma TabulationIsUnique<V, W>(p: seq<(string, V)>, q: seq<(string, V)>, m: map<string, W>, shows: (V, W) -> bool)
    requires Tabulates(p, m, shows) && Tabulates(q, m, shows)
    requires SortedBy(ByKey<V>(), p) && SortedBy(ByKey<V>(), q)
    requires forall i, j | 0 <= i < |p| && 0 <= j < |q| && p[i].0 == q[j].0 :: p[i].1 == q[j].1
    ensures p == q
  {
    ByKeyIsTotal(p);
    SameEntries(p, q, m, shows);
    SameEntries(q, p, m, shows);
    SortedUnique(ByKey<V>(), p, q);
  }

  lemma SameEntries<V, W>(p: seq<(string, V)>, q: seq<(string, V)>, m: map<string, W>, shows: (V, W) -> bool)
    requires Tabulates(p, m, shows) && Tabulates(q, m, shows)
    requires forall i, j | 0 <= i < |p| && 0 <= j < |q| && p[i].0 == q[j].0 :: p[i].1 == q[j].1
    ensures Elements(p) <= Elements(q)
  {
    forall x | x in Elements(p) ensures x in Elements(q) {
      var i :| 0 <= i < |p| && p[i] == x;
      assert x.0 in Keys(q);
      var j :| 0 <= j < |q| && q[j].0 == x.0;
      assert q[j] == x;
    }
  }
}
