/** Rewriting deleted ids inside a lineage array. */
module ArrayRepoint {
  import opened Ordering

  function Substitute<T(==)>(m: map<T, T>, x: T): T {
    if x in m then m[x] else x
  }

  function SubstituteAll<T(==)>(m: map<T, T>, a: seq<T>): seq<T> {
    seq(|a|, i requires 0 <= i < |a| => Substitute(m, a[i]))
  }

  /** Position of the first occurrence (`min(ord)` of the group of `x`). */
  function FirstAt<T(==)>(a: seq<T>, x: T): (i: nat)
    requires x in a
    ensures i < |a| && a[i] == x && x !in a[..i]
  {
    var n := |a| - 1;
    if x in a[..n] then
      var i := FirstAt(a[..n], x);
      assert a[..n][..i] == a[..i];
      i
    else n
  }

  predicate FirstBefore<T(==)>(a: seq<T>, x: T, y: T) {
    x in a && y in a && FirstAt(a, x) < FirstAt(a, y)
  }

  function ByFirstAt<T(==)>(a: seq<T>): (T, T) -> bool {
    (x, y) => FirstBefore(a, x, y)
  }

  lemma ByFirstAtIsTotal<T>(a: seq<T>)
    ensures StrictTotalOn(ByFirstAt(a), Elements(a))
  {
  }

  /** `array_agg(newid ORDER BY first_ord)` over the rows grouped by new id. */
  function Aggregated<T(==)>(a: seq<T>): seq<T> {
    ByFirstAtIsTotal(a);
    Ascending(ByFirstAt(a), Elements(a))
  }

  predicate Touches<T(==)>(m: map<T, T>, a: seq<T>) {
    exists x | x in a :: x in m
  }

  /** The column update: rows whose array overlaps no deleted id are not written. */
  function RepointArray<T(==)>(m: map<T, T>, a: seq<T>): seq<T> {
    if Touches(m, a) then Aggregated(SubstituteAll(m, a)) else a
  }

  /** What the update promises: every id kept at its first occurrence, later repeats dropped. */
  function FirstOccurrences<T(==)>(a: seq<T>): seq<T> {
    if a == [] then []
    else
      var n := |a| - 1;
      var r := FirstOccurrences(a[..n]);
      if a[n] in r then r else r + [a[n]]
  }

  lemma {:induction false} FirstOccurrencesSpec<T>(a: seq<T>)
    ensures Elements(FirstOccurrences(a)) == Elements(a) && NoRepeats(FirstOccurrences(a))
  {
    if a != [] {
      var n := |a| - 1;
      var r := FirstOccurrences(a[..n]);
      FirstOccurrencesSpec(a[..n]);
      assert a == a[..n] + [a[n]];
      assert Elements(a) == Elements(a[..n]) + {a[n]};
      assert Elements(r + [a[n]]) == Elements(r) + {a[n]};
      assert a[n] in r <==> a[n] in Elements(r);
    }
  }

  lemma {:induction false} FirstOccurrencesSorted<T>(a: seq<T>)
    ensures SortedBy(ByFirstAt(a), FirstOccurrences(a))
  {
    if a != [] {
      var n := |a| - 1;
      FirstOccurrencesSorted(a[..n]);
      FirstOccurrencesSpec(a[..n]);
      var r := FirstOccurrences(a[..n]);
      var all := FirstOccurrences(a);
      forall x | x in r ensures x in a[..n] && x in a && FirstAt(a, x) == FirstAt(a[..n], x) < n {
        assert x in Elements(r);
      }
      forall i, j | 0 <= i < j < |all| ensures FirstBefore(a, all[i], all[j]) {
        assert all[i] == r[i];
        if j < |r| {
          assert ByFirstAt(a[..n])(r[i], r[j]);
        } else {
          assert all[j] == a[n] && a[n] !in Elements(a[..n]);
        }
      }
    }
  }

  /** The grouped and re-ordered SQL result is the first-occurrence de-duplication. */
  lemma AggregatedIsFirstOccurrences<T>(a: seq<T>)
    ensures Aggregated(a) == FirstOccurrences(a)
  {
    ByFirstAtIsTotal(a);
    FirstOccurrencesSorted(a);
    FirstOccurrencesSpec(a);
    SortedUnique(ByFirstAt(a), Aggregated(a), FirstOccurrences(a));
  }

  lemma FirstOccurrencesAppend<T>(p: seq<T>, x: T)
    ensures FirstOccurrences(p + [x]) == if x in p then FirstOccurrences(p) else FirstOccurrences(p) + [x]
  {
    assert (p + [x])[..|p|] == p;
    FirstOccurrencesSpec(p);
    assert x in p <==> x in Elements(FirstOccurrences(p));
  }

  lemma {:induction false} FirstOccurrencesAfterSubstitution<T>(m: map<T, T>, a: seq<T>)
    ensures FirstOccurrences(SubstituteAll(m, FirstOccurrences(a))) == FirstOccurrences(SubstituteAll(m, a))
  {
    if a == [] {
      assert SubstituteAll(m, a) == a;
    } else {
      var n := |a| - 1;
      FirstOccurrencesAfterSubstitution(m, a[..n]);
      assert a == a[..n] + [a[n]];
      SubstitutionStep(m, a[..n], a[n]);
    }
  }

  lemma SubstituteAppend<T>(m: map<T, T>, p: seq<T>, x: T)
    ensures SubstituteAll(m, p + [x]) == SubstituteAll(m, p) + [Substitute(m, x)]
  {
  }

  lemma SubstitutedMembers<T>(m: map<T, T>, p: seq<T>, x: T)
    ensures x in p ==> Substitute(m, x) in SubstituteAll(m, p)
    ensures Substitute(m, x) in SubstituteAll(m, FirstOccurrences(p)) <==> Substitute(m, x) in SubstituteAll(m, p)
  {
    var y, r := Substitute(m, x), FirstOccurrences(p);
    FirstOccurrencesSpec(p);
    SubstituteElements(m, p);
    SubstituteElements(m, r);
    hide FirstOccurrences;
    assert forall z :: z in r <==> z in Elements(r);
    assert forall z :: z in p <==> z in Elements(p);
    assert y in SubstituteAll(m, p) <==> y in Elements(SubstituteAll(m, p));
    assert y in SubstituteAll(m, r) <==> y in Elements(SubstituteAll(m, r));
  }

  lemma SubstitutionStep<T>(m: map<T, T>, p: seq<T>, x: T)
    requires FirstOccurrences(SubstituteAll(m, FirstOccurrences(p))) == FirstOccurrences(SubstituteAll(m, p))
    ensures FirstOccurrences(SubstituteAll(m, FirstOccurrences(p + [x]))) == FirstOccurrences(SubstituteAll(m, p + [x]))
  {
    hide FirstOccurrences, SubstituteAll;
    var r, y := FirstOccurrences(p), Substitute(m, x);
    FirstOccurrencesAppend(p, x);
    SubstituteAppend(m, p, x);
    SubstituteAppend(m, r, x);
    FirstOccurrencesAppend(SubstituteAll(m, p), y);
    FirstOccurrencesAppend(SubstituteAll(m, r), y);
    SubstitutedMembers(m, p, x);
  }

  /** The re-pointed array: no deleted id, no repeats, exactly the image of the old elements, in the
      order of their earliest positions; an array without deleted ids is left as it was. */
  lemma RepointArraySpec<T>(m: map<T, T>, a: seq<T>)
    requires m.Keys !! m.Values
    ensures forall x | x in RepointArray(m, a) :: x !in m
    ensures Elements(RepointArray(m, a)) == set x | x in a :: Substitute(m, x)
    ensures !Touches(m, a) ==> RepointArray(m, a) == a
    ensures Touches(m, a) ==>
              && NoRepeats(RepointArray(m, a))
              && SortedBy(ByFirstAt(SubstituteAll(m, a)), RepointArray(m, a))
              && RepointArray(m, a) == FirstOccurrences(SubstituteAll(m, a))
  {
    var s := SubstituteAll(m, a);
    AggregatedIsFirstOccurrences(s);
    FirstOccurrencesSorted(s);
    FirstOccurrencesSpec(s);
    SubstituteElements(m, a);
    if Touches(m, a) {
      assert RepointArray(m, a) == FirstOccurrences(s);
      forall x | x in RepointArray(m, a) ensures x !in m {
        assert x in Elements(FirstOccurrences(s));
      }
    } else {
      assert RepointArray(m, a) == a;
    }
  }

  lemma SubstituteElements<T>(m: map<T, T>, a: seq<T>)
    ensures Elements(SubstituteAll(m, a)) == set x | x in a :: Substitute(m, x)
  {
    var s := SubstituteAll(m, a);
    forall y | y in set x | x in a :: Substitute(m, x) ensures y in s {
      var i :| 0 <= i < |a| && Substitute(m, a[i]) == y;
      assert s[i] == y;
    }
  }

  lemma SubstituteCompose<T>(m1: map<T, T>, m2: map<T, T>, a: seq<T>)
    requires m1.Keys !! m2.Keys && m1.Values !! m2.Keys
    ensures SubstituteAll(m2, SubstituteAll(m1, a)) == SubstituteAll(m1 + m2, a)
  {
    forall i | 0 <= i < |a| ensures Substitute(m2, Substitute(m1, a[i])) == Substitute(m1 + m2, a[i]) {
      if a[i] in m1 {
        assert m1[a[i]] in m1.Values;
      }
    }
  }

  lemma RepointArrayIs<T>(m: map<T, T>, a: seq<T>)
    ensures RepointArray(m, a) == if Touches(m, a) then FirstOccurrences(SubstituteAll(m, a)) else a
  {
    AggregatedIsFirstOccurrences(SubstituteAll(m, a));
  }

  /** Re-pointing batch by batch is re-pointing once by the united map. */
  lemma RepointArrayCompose<T>(m1: map<T, T>, m2: map<T, T>, a: seq<T>)
    requires m1.Keys !! m2.Keys && m1.Values !! m2.Keys
    ensures RepointArray(m2, RepointArray(m1, a)) == RepointArray(m1 + m2, a)
  {
    var b := RepointArray(m1, a);
    RepointArrayIs(m1, a);
    RepointArrayIs(m2, b);
    RepointArrayIs(m1 + m2, a);
    if Touches(m1, a) {
      assert Touches(m1 + m2, a);
      RepointTouchedTwice(m1, m2, a);
    } else {
      NoneTouched(m1, a);
      SubstituteCompose(m1, m2, a);
      assert Touches(m2, a) == Touches(m1 + m2, a);
    }
  }

  lemma RepointTouchedTwice<T>(m1: map<T, T>, m2: map<T, T>, a: seq<T>)
    requires m1.Keys !! m2.Keys && m1.Values !! m2.Keys
    ensures RepointArray(m2, FirstOccurrences(SubstituteAll(m1, a))) == FirstOccurrences(SubstituteAll(m1 + m2, a))
  {
    var s1 := SubstituteAll(m1, a);
    var b := FirstOccurrences(s1);
    SubstituteCompose(m1, m2, a);
    FirstOccurrencesAfterSubstitution(m2, s1);
    RepointArrayIs(m2, b);
    if !Touches(m2, b) {
      NoneTouched(m2, b);
      FirstOccurrencesTwice(s1);
    }
  }

  lemma NoneTouched<T>(m: map<T, T>, a: seq<T>)
    requires forall x | x in a :: x !in m
    ensures SubstituteAll(m, a) == a
  {
  }

  lemma FirstOccurrencesTwice<T>(a: seq<T>)
    ensures FirstOccurrences(FirstOccurrences(a)) == FirstOccurrences(a)
  {
    FirstOccurrencesAfterSubstitution(map[], a);
    NoneTouched(map[], a);
    NoneTouched(map[], FirstOccurrences(a));
  }
}
