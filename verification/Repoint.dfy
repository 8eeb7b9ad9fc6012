/** Moving keyed rows onto new keys, the way every merge in these scripts moves references: copy
    each affected row to its new key unless a row is already there, then drop the rows left behind. */
module Repoint {

  /** `after` is the exact image of the kept rows of `before` under `f`: nothing is lost, nothing is
      invented, and a row that was already at its place keeps its contents. */
  ghost predicate Repointed<K, V>(before: map<K, V>, after: map<K, V>, f: K -> K, keep: K -> bool) {
    && (forall k | k in before && keep(k) :: f(k) in after)
    && (forall k | k in after :: ComesFrom(before, f, keep, k, after[k]))
    && (forall k | k in before && keep(k) && f(k) == k :: after[k] == before[k])
  }

  ghost predicate ComesFrom<K, V>(before: map<K, V>, f: K -> K, keep: K -> bool, k: K, v: V) {
    exists k0 | k0 in before :: keep(k0) && f(k0) == k && before[k0] == v
  }

  lemma RepointedKeys<K, V>(before: map<K, V>, after: map<K, V>, f: K -> K, keep: K -> bool)
    requires Repointed(before, after, f, keep)
    ensures after.Keys == set k | k in before && keep(k) :: f(k)
  {
    forall k | k in after ensures k in set k | k in before && keep(k) :: f(k) {
      assert ComesFrom(before, f, keep, k, after[k]);
    }
  }

  /** Two moves in a row are one move by the composed map. */
  lemma RepointedCompose<K, V>(a: map<K, V>, b: map<K, V>, c: map<K, V>,
                               f: K -> K, keepF: K -> bool, g: K -> K, keepG: K -> bool,
                               h: K -> K, keepH: K -> bool)
    requires Repointed(a, b, f, keepF) && Repointed(b, c, g, keepG)
    requires forall k | k in a :: keepH(k) == (keepF(k) && keepG(f(k)))
    requires forall k | k in a && keepH(k) :: h(k) == g(f(k))
    requires forall k | k in a && keepH(k) && h(k) == k :: f(k) == k
    ensures Repointed(a, c, h, keepH)
  {
    forall k | k in c ensures ComesFrom(a, h, keepH, k, c[k]) {
      assert ComesFrom(b, g, keepG, k, c[k]);
      var k1 :| k1 in b && keepG(k1) && g(k1) == k && b[k1] == c[k];
      assert ComesFrom(a, f, keepF, k1, b[k1]);
      var k0 :| k0 in a && keepF(k0) && f(k0) == k1 && a[k0] == b[k1];
      assert keepH(k0);
    }
    forall k | k in a && keepH(k) ensures h(k) in c {
      assert f(k) in b;
    }
  }

  lemma RepointedByIdentity<K, V>(a: map<K, V>, f: K -> K, keep: K -> bool)
    requires forall k | k in a :: f(k) == k && keep(k)
    ensures Repointed(a, a, f, keep)
  {
    forall k | k in a ensures ComesFrom(a, f, keep, k, a[k]) {
      assert keep(k) && f(k) == k;
    }
  }

  /** `after` is `table` plus the selected rows at their new keys, an existing row always winning. */
  ghost predicate Inserted<K, V>(table: map<K, V>, after: map<K, V>, selected: set<K>, f: K -> K) {
    && after.Keys == table.Keys + (set k | k in selected :: f(k))
    && (forall k | k in table :: after[k] == table[k])
    && (forall k | k in after && k !in table ::
          exists k0 | k0 in table && k0 in selected :: f(k0) == k && after[k] == table[k0])
  }

  /** `INSERT .. SELECT .. ON CONFLICT DO NOTHING`: the selected rows arrive in no promised order and
      the first to reach a free key fills it. */
  method InsertOnConflictDoNothing<K(==), V>(table: map<K, V>, selected: set<K>, f: K -> K)
    returns (after: map<K, V>)
    requires selected <= table.Keys
    ensures Inserted(table, after, selected, f)
  {
    after := table;
    var pending := selected;
    while pending != {}
      invariant pending <= selected
      invariant Inserted(table, after, selected - pending, f)
    {
      var k :| k in pending;
      if f(k) !in after {
        after := after[f(k) := table[k]];
      }
      pending := pending - {k};
      assert (set x | x in selected - pending :: f(x)) == (set x | x in selected - (pending + {k}) :: f(x)) + {f(k)};
    }
    assert selected - pending == selected;
  }

  /** Copying the touched rows and then deleting every touched row moves exactly the kept ones. This
      is where it matters that no new key is itself touched: otherwise the delete would take it. */
  lemma InsertThenDelete<K, V>(table: map<K, V>, middle: map<K, V>, after: map<K, V>, selected: set<K>,
                               touched: K -> bool, f: K -> K, keep: K -> bool)
    requires selected == set k | k in table && touched(k) && keep(k)
    requires Inserted(table, middle, selected, f)
    requires after == map k | k in middle && !touched(k) :: middle[k]
    requires forall k | k in table && !touched(k) :: f(k) == k && keep(k)
    requires forall k | k in table && keep(k) :: !touched(f(k))
    ensures Repointed(table, after, f, keep)
    ensures middle.Keys - table.Keys == after.Keys - table.Keys
  {
    forall k | k in after ensures ComesFrom(table, f, keep, k, after[k]) {
      if k in table {
        assert keep(k) && f(k) == k;
      } else {
        var k0 :| k0 in table && k0 in selected && f(k0) == k && middle[k] == table[k0];
      }
    }
    forall k | k in table && keep(k) ensures f(k) in after && (f(k) == k ==> after[k] == table[k]) {
      assert k in selected || f(k) == k;
    }
    forall k | k in middle.Keys - table.Keys ensures k in after {
      var k0 :| k0 in table && k0 in selected && f(k0) == k && middle[k] == table[k0];
    }
  }

  function RowsAdded<K, V>(before: map<K, V>, after: map<K, V>): nat {
    |after.Keys - before.Keys|
  }

  function RowsAmong<K, V>(table: map<K, V>, keys: set<K>): nat {
    |table.Keys * keys|
  }

  /** The insert and the delete together: every touched row is copied to its new key if it is kept, then
      every touched row goes. `inserted` is what the insert reports. */
  method MoveTouchedRows<K(==), V>(table: map<K, V>, touched: K -> bool, f: K -> K, keep: K -> bool)
    returns (after: map<K, V>, inserted: nat)
    requires forall k | k in table && !touched(k) :: f(k) == k && keep(k)
    requires forall k | k in table && keep(k) :: !touched(f(k))
    ensures Repointed(table, after, f, keep)
    ensures inserted == RowsAdded(table, after)
  {
    var selected := set k | k in table && touched(k) && keep(k);
    var middle := InsertOnConflictDoNothing(table, selected, f);
    inserted := |middle.Keys - table.Keys|;
    after := map k | k in middle && !touched(k) :: middle[k];
    InsertThenDelete(table, middle, after, selected, touched, f, keep);
  }
}
