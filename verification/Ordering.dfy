/** Options, and the orders the scripts sort and elect by: sorting a collection of distinct
    elements under a strict total order has exactly one result. */
module Ordering {

  datatype Option<+T> = None | Some(value: T)

  ghost predicate StrictTotalOn<T>(less: (T, T) -> bool, s: set<T>) {
    && (forall x | x in s :: !less(x, x))
    && (forall x, y | x in s && y in s && x != y :: less(x, y) || less(y, x))
    && (forall x, y, z | x in s && y in s && z in s && less(x, y) && less(y, z) :: less(x, z))
  }

  ghost predicate SortedBy<T>(less: (T, T) -> bool, q: seq<T>) {
    forall i, j | 0 <= i < j < |q| :: less(q[i], q[j])
  }

  function Elements<T>(q: seq<T>): set<T> {
    set x | x in q
  }

  ghost predicate NoRepeats<T>(q: seq<T>) {
    forall i, j | 0 <= i < j < |q| :: q[i] != q[j]
  }

  lemma Member<T>(s: set<T>) returns (x: T)
    requires s != {}
    ensures x in s
  {
    x :| x in s;
  }

  lemma KeyWithValue<K, V>(m: map<K, V>, v: V) returns (k: K)
    requires v in m.Values
    ensures k in m && m[k] == v
  {
    k :| k in m && m[k] == v;
  }

  lemma UnitedValues<K, V>(m1: map<K, V>, m2: map<K, V>)
    requires m1.Keys !! m2.Keys
    ensures (m1 + m2).Values == m1.Values + m2.Values
  {
    forall x | x in m1 ensures (m1 + m2)[x] == m1[x] {
    }
    forall s | s in m1.Values ensures s in (m1 + m2).Values {
      var x :| x in m1 && m1[x] == s;
      assert (m1 + m2)[x] == s;
    }
    forall s | s in m2.Values ensures s in (m1 + m2).Values {
      var x :| x in m2 && m2[x] == s;
      assert (m1 + m2)[x] == s;
    }
  }

  predicate IsLeast<T>(less: (T, T) -> bool, s: set<T>, x: T) {
    x in s && forall y | y in s && y != x :: less(x, y)
  }

  lemma {:induction false} LeastExists<T>(less: (T, T) -> bool, s: set<T>)
    requires s != {} && StrictTotalOn(less, s)
    ensures exists x :: IsLeast(less, s, x)
    decreases |s|
  {
    var x :| x in s;
    if s == {x} {
      assert IsLeast(less, s, x);
    } else {
      var rest := s - {x};
      assert s == rest + {x};
      LeastExists(less, rest);
      var y :| IsLeast(less, rest, y);
      if less(x, y) {
        assert IsLeast(less, s, x);
      } else {
        assert IsLeast(less, s, y);
      }
    }
  }

  /** `min(s, key=...)` for a key that orders `s` totally. */
  function Least<T(==)>(less: (T, T) -> bool, s: set<T>): (x: T)
    requires s != {} && StrictTotalOn(less, s)
    ensures IsLeast(less, s, x)
  {
    LeastExists(less, s);
    var x :| IsLeast(less, s, x);
    x
  }

  lemma LeastIs<T>(less: (T, T) -> bool, s: set<T>, x: T)
    requires StrictTotalOn(less, s) && IsLeast(less, s, x)
    ensures Least(less, s) == x
  {
  }

  lemma PrependLeast<T>(less: (T, T) -> bool, s: set<T>, x: T, q: seq<T>)
    requires IsLeast(less, s, x) && SortedBy(less, q) && Elements(q) == s - {x}
    ensures SortedBy(less, [x] + q) && Elements([x] + q) == s
  {
    assert forall i | 0 <= i < |q| :: q[i] in Elements(q);
    assert Elements([x] + q) == {x} + Elements(q);
  }

  /** `sorted(s, key=...)` / `ORDER BY` for a key that orders `s` totally. */
  function Ascending<T(==)>(less: (T, T) -> bool, s: set<T>): (q: seq<T>)
    requires StrictTotalOn(less, s)
    ensures Elements(q) == s && |q| == |s|
    ensures SortedBy(less, q)
    decreases |s|
  {
    if s == {} then []
    else
      var x := Least(less, s);
      var q := Ascending(less, s - {x});
      PrependLeast(less, s, x, q);
      [x] + q
  }

  lemma SortedIsNoRepeats<T>(less: (T, T) -> bool, q: seq<T>)
    requires SortedBy(less, q) && StrictTotalOn(less, Elements(q))
    ensures NoRepeats(q)
  {
    forall i, j | 0 <= i < j < |q| ensures q[i] != q[j] {
      assert less(q[i], q[j]) && q[i] in Elements(q);
    }
  }

  lemma NoElements<T>(q: seq<T>)
    ensures Elements(q) == {} <==> q == []
  {
    assert q != [] ==> q[0] in Elements(q);
  }

  /** A sorted listing is determined by its elements. */
  lemma {:induction false} SortedUnique<T>(less: (T, T) -> bool, p: seq<T>, q: seq<T>)
    requires SortedBy(less, p) && SortedBy(less, q)
    requires Elements(p) == Elements(q) && StrictTotalOn(less, Elements(p))
    ensures p == q
    decreases |p|
  {
    if p == [] || q == [] {
      NoElements(p);
      NoElements(q);
    } else {
      SortedIsNoRepeats(less, p);
      SortedIsNoRepeats(less, q);
      assert p[0] in Elements(q) && q[0] in Elements(p);
      var i :| 0 <= i < |q| && q[i] == p[0];
      var j :| 0 <= j < |p| && p[j] == q[0];
      var a, b := p[0], q[0];
      assert less(b, a) || i == 0;
      assert less(a, b) || j == 0;
      assert a == b;
      TailElements(p);
      TailElements(q);
      SortedUnique(less, p[1..], q[1..]);
    }
  }

  lemma TailElements<T>(q: seq<T>)
    requires q != [] && NoRepeats(q)
    ensures Elements(q[1..]) == Elements(q) - {q[0]}
  {
    forall x ensures x in Elements(q[1..]) <==> x in Elements(q) - {q[0]} {
      if x in q && x != q[0] {
        var i :| 0 <= i < |q| && q[i] == x;
        assert q[1..][i - 1] == x;
      }
    }
  }

  /** The head of a sorted listing is the least element and the tail lists the others. */
  lemma SortedHead<T>(less: (T, T) -> bool, q: seq<T>, s: set<T>)
    requires SortedBy(less, q) && Elements(q) == s && StrictTotalOn(less, s) && s != {}
    ensures q != [] && q[0] in s && NoRepeats(q[1..])
    ensures Elements(q[1..]) == s - {q[0]}
    ensures forall x | x in s && x != q[0] :: less(q[0], x)
  {
    NoElements(q);
    SortedIsNoRepeats(less, q);
    TailElements(q);
    assert q[0] in Elements(q);
    assert forall i, j | 0 <= i < j < |q[1..]| :: q[1..][i] == q[i + 1] && q[1..][j] == q[j + 1];
    forall x | x in s && x != q[0] ensures less(q[0], x) {
      assert x in Elements(q);
      var i :| 0 <= i < |q| && q[i] == x;
    }
  }

  /** The elements that follow position `n` of a sorted listing are those above its predecessor. */
  lemma SortedSuffix<T>(less: (T, T) -> bool, q: seq<T>, n: nat)
    requires SortedBy(less, q) && StrictTotalOn(less, Elements(q)) && 0 < n <= |q|
    ensures Elements(q[n..]) == set x | x in q && less(q[n - 1], x)
  {
    forall x ensures x in Elements(q[n..]) <==> x in q && less(q[n - 1], x) {
      if x in q && less(q[n - 1], x) {
        var i :| 0 <= i < |q| && q[i] == x;
        assert x in Elements(q) && q[n - 1] in Elements(q);
        assert less(q[i], q[n - 1]) || i >= n - 1;
        assert q[n..][i - n] == x;
      }
    }
  }

  lemma ElementsAppend<T>(q: seq<T>, n: nat)
    requires n < |q|
    ensures q[..n + 1] == q[..n] + [q[n]]
    ensures Elements(q[..n + 1]) == Elements(q[..n]) + {q[n]}
  {
  }

  lemma ConcatenateDisjoint<T>(p: seq<T>, q: seq<T>)
    requires NoRepeats(p) && NoRepeats(q) && Elements(p) !! Elements(q)
    ensures NoRepeats(p + q) && Elements(p + q) == Elements(p) + Elements(q)
  {
    forall i, j | 0 <= i < |p| && 0 <= j < |q| ensures p[i] != q[j] {
      assert p[i] in Elements(p) && q[j] in Elements(q);
    }
  }

  lemma {:induction false} NoRepeatsSize<T>(q: seq<T>)
    requires NoRepeats(q)
    ensures |Elements(q)| == |q|
  {
    if q == [] {
      NoElements(q);
    } else {
      TailElements(q);
      assert q[0] in Elements(q);
      NoRepeatsSize(q[1..]);
    }
  }

  lemma {:induction false} InjectiveImageSize<T, U>(s: set<T>, f: T -> U, image: set<U>)
    requires forall x, y | x in s && y in s && x != y :: f(x) != f(y)
    requires forall x | x in s :: f(x) in image
    requires forall u | u in image :: exists x | x in s :: f(x) == u
    ensures |image| == |s|
    decreases |s|
  {
    if s == {} {
      assert image == {};
    } else {
      var x := Member(s);
      InjectiveImageSize(s - {x}, f, image - {f(x)});
    }
  }

  // Text, compared character by character with the empty text least.

  predicate TextLess(a: string, b: string) {
    if b == "" then false
    else if a == "" then true
    else a[0] < b[0] || (a[0] == b[0] && TextLess(a[1..], b[1..]))
  }

  lemma {:induction false} TextTrichotomy(a: string, b: string)
    ensures !TextLess(a, a)
    ensures a != b ==> TextLess(a, b) || TextLess(b, a)
  {
    if a != "" {
      TextTrichotomy(a[1..], if b == "" then b else b[1..]);
      if b != "" {
        assert a == [a[0]] + a[1..] && b == [b[0]] + b[1..];
      }
    }
  }

  lemma {:induction false} TextTransitive(a: string, b: string, c: string)
    requires TextLess(a, b) && TextLess(b, c)
    ensures TextLess(a, c)
  {
    if a != "" && a[0] == b[0] == c[0] {
      TextTransitive(a[1..], b[1..], c[1..]);
    }
  }

  lemma TextStrictTotal(s: set<string>)
    ensures StrictTotalOn(TextLess, s)
  {
    forall x, y ensures !TextLess(x, x) && (x != y ==> TextLess(x, y) || TextLess(y, x)) {
      TextTrichotomy(x, y);
    }
    forall x, y, z | TextLess(x, y) && TextLess(y, z) ensures TextLess(x, z) {
      TextTransitive(x, y, z);
    }
  }

  /** A text is less than those it is a proper beginning of, and than those with a greater character where the two
      first differ. */
  lemma {:induction false} TextOrder(a: string, b: string)
    ensures TextLess(a, b) <==> a < b || exists k | 0 <= k < |a| && k < |b| :: a[..k] == b[..k] && a[k] < b[k]
    decreases |a|
  {
    if a != "" && b != "" {
      TextOrder(a[1..], b[1..]);
      if a[0] == b[0] {
        assert a == [a[0]] + a[1..] && b == [b[0]] + b[1..];
        assert a < b <==> a[1..] < b[1..];
        forall k | 0 < k < |a| && k < |b| ensures a[..k] == b[..k] <==> a[1..][..k - 1] == b[1..][..k - 1] {
          assert a[..k] == [a[0]] + a[1..][..k - 1] && b[..k] == [b[0]] + b[1..][..k - 1];
        }
        if k :| 0 <= k < |a[1..]| && k < |b[1..]| && a[1..][..k] == b[1..][..k] && a[1..][k] < b[1..][k] {
          assert a[..k + 1] == b[..k + 1] && a[k + 1] < b[k + 1];
        }
        if k :| 0 <= k < |a| && k < |b| && a[..k] == b[..k] && a[k] < b[k] {
          assert a[1..][..k - 1] == b[1..][..k - 1] && a[1..][k - 1] < b[1..][k - 1];
        }
      } else {
        assert !(a < b);
        assert a[..0] == b[..0];
        forall k | 0 < k < |a| && k < |b| ensures a[..k] != b[..k] {
          assert a[..k][0] == a[0] && b[..k][0] == b[0];
        }
      }
    }
  }
}
