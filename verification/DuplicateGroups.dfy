/** Duplicate groups: who is in one, who survives it, and the keyset-paginated scan over all of them. */
module DuplicateGroups {
  import opened Ordering
  import opened Repoint
  import opened ArrayRepoint
  import opened EvidenceArchive
  import opened CollapseBatch
  import opened CollapseLaws

  datatype GroupKey = GroupKey(source: string, hash: string, tenant: string)

  const NO_KEY := GroupKey("", "", "")

  /** Row comparison of the three key columns. */
  predicate KeyLess(a: GroupKey, b: GroupKey) {
    if a.source != b.source then TextLess(a.source, b.source)
    else if a.hash != b.hash then TextLess(a.hash, b.hash)
    else TextLess(a.tenant, b.tenant)
  }

  lemma KeyTransitive(a: GroupKey, b: GroupKey, c: GroupKey)
    requires KeyLess(a, b) && KeyLess(b, c)
    ensures KeyLess(a, c)
  {
    TextStrictTotal({a.source, b.source, c.source});
    TextStrictTotal({a.hash, b.hash, c.hash});
    TextStrictTotal({a.tenant, b.tenant, c.tenant});
  }

  lemma KeyTrichotomy(a: GroupKey, b: GroupKey)
    ensures !KeyLess(a, a)
    ensures a != b ==> KeyLess(a, b) || KeyLess(b, a)
  {
    TextTrichotomy(a.source, b.source);
    TextTrichotomy(a.hash, b.hash);
    TextTrichotomy(a.tenant, b.tenant);
  }

  lemma KeysAreTotal(s: set<GroupKey>)
    ensures StrictTotalOn(KeyLess, s)
  {
    forall x, y ensures !KeyLess(x, x) && (x != y ==> KeyLess(x, y) || KeyLess(y, x)) {
      KeyTrichotomy(x, y);
    }
    forall x, y, z | KeyLess(x, y) && KeyLess(y, z) ensures KeyLess(x, z) {
      KeyTransitive(x, y, z);
    }
  }

  function KeyOf(s: Signal): GroupKey {
    GroupKey(s.source, s.hash, s.tenant)
  }

  function GroupRows(signals: map<Id, Signal>, k: GroupKey): set<Id> {
    set i | i in signals && KeyOf(signals[i]) == k
  }

  /** The optional tenant and source restrictions. */
  datatype Scope = Scope(tenant: Option<string>, source: Option<string>)

  predicate Wanted(signals: map<Id, Signal>, scope: Scope, k: GroupKey) {
    && k.hash != ""
    && (scope.tenant.Some? ==> k.tenant == scope.tenant.value)
    && (scope.source.Some? ==> k.source == scope.source.value)
    && |GroupRows(signals, k)| > 1
  }

  function DuplicateKeys(signals: map<Id, Signal>, scope: Scope): set<GroupKey> {
    set i | i in signals && Wanted(signals, scope, KeyOf(signals[i])) :: KeyOf(signals[i])
  }

  function AllGroups(signals: map<Id, Signal>, scope: Scope): seq<GroupKey> {
    KeysAreTotal(DuplicateKeys(signals, scope));
    Ascending(KeyLess, DuplicateKeys(signals, scope))
  }

  function Start(after: Option<GroupKey>): GroupKey {
    if after.Some? then after.value else NO_KEY
  }

  function FetchGroupBatch(signals: map<Id, Signal>, scope: Scope, after: Option<GroupKey>, lim: nat): seq<GroupKey> {
    var keys := set k | k in DuplicateKeys(signals, scope) && KeyLess(Start(after), k);
    KeysAreTotal(keys);
    var ordered := Ascending(KeyLess, keys);
    if lim < |ordered| then ordered[..lim] else ordered
  }

  // Election inside one group.

  predicate Newer(signals: map<Id, Signal>, x: Id, y: Id) {
    x in signals && y in signals &&
    (signals[x].fetchedAt > signals[y].fetchedAt || (signals[x].fetchedAt == signals[y].fetchedAt && x > y))
  }

  function NewestFirst(signals: map<Id, Signal>): (Id, Id) -> bool {
    (x, y) => Newer(signals, x, y)
  }

  lemma NewestFirstIsTotal(signals: map<Id, Signal>, s: set<Id>)
    requires s <= signals.Keys
    ensures StrictTotalOn(NewestFirst(signals), s)
  {
  }

  predicate Kept(s: Signal) {
    s.retention == "retain_always" || s.retention == "evidence_hold"
  }

  function SelectByRetention(signals: map<Id, Signal>, q: seq<Id>, kept: bool): seq<Id>
    requires Elements(q) <= signals.Keys
  {
    if q == [] then []
    else
      assert q[0] in Elements(q) && Elements(q[1..]) <= Elements(q);
      var r := SelectByRetention(signals, q[1..], kept);
      if Kept(signals[q[0]]) == kept then [q[0]] + r else r
  }

  lemma {:induction false} SelectByRetentionSpec(signals: map<Id, Signal>, q: seq<Id>, kept: bool)
    requires Elements(q) <= signals.Keys && NoRepeats(q)
    ensures Elements(SelectByRetention(signals, q, kept)) == set x | x in Elements(q) && Kept(signals[x]) == kept
    ensures NoRepeats(SelectByRetention(signals, q, kept))
  {
    if q != [] {
      TailElements(q);
      SelectByRetentionSpec(signals, q[1..], kept);
      var r := SelectByRetention(signals, q[1..], kept);
      assert q[0] in Elements(q);
      assert forall i | 0 <= i < |r| :: r[i] in Elements(r);
      assert Elements([q[0]] + r) == {q[0]} + Elements(r);
    }
  }

  datatype Election = Election(survivor: Id, losers: seq<Id>, held: seq<Id>)

  function Elect(signals: map<Id, Signal>, rows: set<Id>): Election
    requires rows != {} && rows <= signals.Keys
  {
    NewestFirstIsTotal(signals, rows);
    var ordered := Ascending(NewestFirst(signals), rows);
    SortedHead(NewestFirst(signals), ordered, rows);
    Election(ordered[0],
             SelectByRetention(signals, ordered[1..], false),
             SelectByRetention(signals, ordered[1..], true))
  }

  /** The newest row survives; of the rest, the retention keep-set is held and the others are losers. */
  lemma ElectSpec(signals: map<Id, Signal>, rows: set<Id>)
    requires rows != {} && rows <= signals.Keys
    ensures var e := Elect(signals, rows);
            && e.survivor in rows && (forall x | x in rows && x != e.survivor :: Newer(signals, e.survivor, x))
            && Elements(e.held) <= rows - {e.survivor}
            && Elements(e.losers) == rows - {e.survivor} - Elements(e.held)
            && (forall x | x in Elements(e.losers) :: !Kept(signals[x]))
            && (forall x | x in Elements(e.held) :: Kept(signals[x]))
            && NoRepeats(e.losers) && NoRepeats(e.held)
  {
    NewestFirstIsTotal(signals, rows);
    var ordered := Ascending(NewestFirst(signals), rows);
    SortedHead(NewestFirst(signals), ordered, rows);
    SelectByRetentionSpec(signals, ordered[1..], false);
    SelectByRetentionSpec(signals, ordered[1..], true);
  }

  lemma SurvivorUnique(signals: map<Id, Signal>, rows: set<Id>, x: Id)
    requires rows != {} && rows <= signals.Keys && x in rows
    requires forall y | y in rows && y != x :: Newer(signals, x, y)
    ensures Elect(signals, rows).survivor == x
  {
    ElectSpec(signals, rows);
  }

  predicate Loses(signals: map<Id, Signal>, i: Id) {
    i in signals &&
    var rows := GroupRows(signals, KeyOf(signals[i]));
    assert i in rows;
    |rows| > 1 && i in Elements(Elect(signals, rows).losers)
  }

  function SurvivorOf(signals: map<Id, Signal>, i: Id): Id
    requires i in signals
  {
    var rows := GroupRows(signals, KeyOf(signals[i]));
    assert i in rows;
    Elect(signals, rows).survivor
  }

  /** The substitution that collapsing the groups `keys` amounts to. */
  function MappingOf(signals: map<Id, Signal>, keys: set<GroupKey>): map<Id, Id> {
    map i | i in signals && KeyOf(signals[i]) in keys && Loses(signals, i) :: SurvivorOf(signals, i)
  }

  function LosersIn(signals: map<Id, Signal>, k: GroupKey): seq<Id> {
    var rows := GroupRows(signals, k);
    if |rows| < 2 then [] else Elect(signals, rows).losers
  }

  function HeldIn(signals: map<Id, Signal>, k: GroupKey): seq<Id> {
    var rows := GroupRows(signals, k);
    if |rows| < 2 then [] else Elect(signals, rows).held
  }

  function LosersOf(signals: map<Id, Signal>, keys: seq<GroupKey>): seq<Id> {
    if keys == [] then [] else LosersOf(signals, keys[..|keys| - 1]) + LosersIn(signals, keys[|keys| - 1])
  }

  function HeldCount(signals: map<Id, Signal>, keys: seq<GroupKey>): nat {
    if keys == [] then 0 else HeldCount(signals, keys[..|keys| - 1]) + |HeldIn(signals, keys[|keys| - 1])|
  }

  lemma LosesInGroup(signals: map<Id, Signal>, i: Id)
    requires i in signals
    ensures var rows := GroupRows(signals, KeyOf(signals[i]));
            && i in rows
            && (Loses(signals, i) <==> i in Elements(LosersIn(signals, KeyOf(signals[i]))))
            && (Loses(signals, i) ==> |rows| > 1)
            && SurvivorOf(signals, i) == Elect(signals, rows).survivor
  {
    hide Elect;
    assert i in GroupRows(signals, KeyOf(signals[i]));
  }

  lemma LosersAreRows(signals: map<Id, Signal>, k: GroupKey)
    ensures Elements(LosersIn(signals, k)) <= GroupRows(signals, k) <= signals.Keys
    ensures NoRepeats(LosersIn(signals, k))
  {
    if |GroupRows(signals, k)| > 1 {
      ElectSpec(signals, GroupRows(signals, k));
    }
    hide Elect;
  }

  lemma LosersInGroup(signals: map<Id, Signal>, k: GroupKey)
    ensures Elements(LosersIn(signals, k)) == set i | i in signals && KeyOf(signals[i]) == k && Loses(signals, i)
    ensures NoRepeats(LosersIn(signals, k))
    ensures forall i | i in signals && KeyOf(signals[i]) == k && Loses(signals, i) ::
              |GroupRows(signals, k)| > 1 && SurvivorOf(signals, i) == Elect(signals, GroupRows(signals, k)).survivor
  {
    LosersAreRows(signals, k);
    hide LosersIn, Elect, Loses, SurvivorOf;
    forall i | i in GroupRows(signals, k)
      ensures Loses(signals, i) <==> i in Elements(LosersIn(signals, k))
      ensures Loses(signals, i) ==> |GroupRows(signals, k)| > 1
      ensures SurvivorOf(signals, i) == Elect(signals, GroupRows(signals, k)).survivor
    {
      LosesInGroup(signals, i);
    }
  }

  /** Survivors are never losers: not of their own group, and no group shares a row with another. */
  lemma MappingIsSubstitution(signals: map<Id, Signal>, keys: set<GroupKey>)
    ensures Substitution(MappingOf(signals, keys))
    ensures forall s | s in MappingOf(signals, keys).Values ::
              s in signals && KeyOf(signals[s]) in keys && !Loses(signals, s)
  {
    var m := MappingOf(signals, keys);
    forall s | s in m.Values ensures s in signals && KeyOf(signals[s]) in keys && !Loses(signals, s) {
      var i := KeyWithValue(m, s);
      ElectSpec(signals, GroupRows(signals, KeyOf(signals[i])));
      assert GroupRows(signals, KeyOf(signals[s])) == GroupRows(signals, KeyOf(signals[i]));
    }
  }

  lemma MappingsApart(signals: map<Id, Signal>, ks1: set<GroupKey>, ks2: set<GroupKey>)
    requires ks1 !! ks2
    ensures Apart(MappingOf(signals, ks1), MappingOf(signals, ks2))
    ensures MappingOf(signals, ks1 + ks2) == MappingOf(signals, ks1) + MappingOf(signals, ks2)
  {
    MappingIsSubstitution(signals, ks1);
    MappingIsSubstitution(signals, ks2);
    hide Loses, SurvivorOf;
  }

  // What a collapse leaves of the groups.

  predicate SameRow(a: Signal, b: Signal) {
    KeyOf(a) == KeyOf(b) && a.fetchedAt == b.fetchedAt && a.retention == b.retention
  }

  ghost predicate Thinned(s: map<Id, Signal>, t: map<Id, Signal>, gone: set<Id>) {
    t.Keys == s.Keys - gone && forall i | i in t :: SameRow(s[i], t[i])
  }

  lemma CollapsedThins(t: Tables, u: Tables, index: string, m: map<Id, Id>)
    requires Collapsed(t, u, index, m)
    ensures Thinned(t.signals, u.signals, m.Keys)
  {
    hide Repointed, ColumnsMoved, LoserArraysDropped, ArchiveMoved, TombstonesAfter, MirroredRef, MoveCanonical;
  }

  lemma GroupRowsUntouched(s: map<Id, Signal>, t: map<Id, Signal>, gone: set<Id>, k: GroupKey)
    requires Thinned(s, t, gone)
    ensures GroupRows(t, k) == GroupRows(s, k) - gone
  {
    forall i ensures i in GroupRows(t, k) <==> i in GroupRows(s, k) - gone {
      if i in t {
        assert SameRow(s[i], t[i]);
      }
    }
  }

  /** Rows that survived a batch sort as they did before it. */
  lemma SortsTheSame(s: map<Id, Signal>, t: map<Id, Signal>, gone: set<Id>, rows: set<Id>)
    requires Thinned(s, t, gone) && rows <= s.Keys && rows <= t.Keys
    ensures StrictTotalOn(NewestFirst(s), rows) && StrictTotalOn(NewestFirst(t), rows)
    ensures Ascending(NewestFirst(s), rows) == Ascending(NewestFirst(t), rows)
  {
    NewestFirstIsTotal(s, rows);
    NewestFirstIsTotal(t, rows);
    var p, q := Ascending(NewestFirst(s), rows), Ascending(NewestFirst(t), rows);
    hide StrictTotalOn, Ascending;
    forall i, j | 0 <= i < j < |p| ensures NewestFirst(t)(p[i], p[j]) {
      assert p[i] in Elements(p) && p[j] in Elements(p);
      assert NewestFirst(s)(p[i], p[j]);
    }
    SortedUnique(NewestFirst(t), p, q);
  }

  lemma RowKept(s: map<Id, Signal>, t: map<Id, Signal>, gone: set<Id>, i: Id)
    requires Thinned(s, t, gone) && i in t
    ensures i in s && Kept(s[i]) == Kept(t[i])
  {
    assert SameRow(s[i], t[i]);
  }

  lemma {:induction false} SelectionUnchanged(s: map<Id, Signal>, t: map<Id, Signal>, gone: set<Id>, q: seq<Id>,
                                              kept: bool)
    requires Thinned(s, t, gone) && Elements(q) <= s.Keys && Elements(q) <= t.Keys
    ensures SelectByRetention(s, q, kept) == SelectByRetention(t, q, kept)
  {
    if q != [] {
      assert q[0] in Elements(q) && Elements(q[1..]) <= Elements(q);
      assert q[0] in t.Keys;
      SelectionUnchanged(s, t, gone, q[1..], kept);
      RowKept(s, t, gone, q[0]);
    }
  }

  lemma SortedTail(signals: map<Id, Signal>, rows: set<Id>) returns (ordered: seq<Id>)
    requires rows != {} && rows <= signals.Keys
    ensures StrictTotalOn(NewestFirst(signals), rows) && ordered == Ascending(NewestFirst(signals), rows)
    ensures ordered != [] && Elements(ordered[1..]) <= rows
  {
    NewestFirstIsTotal(signals, rows);
    ordered := Ascending(NewestFirst(signals), rows);
    SortedHead(NewestFirst(signals), ordered, rows);
  }

  lemma ElectsTheSame(s: map<Id, Signal>, t: map<Id, Signal>, gone: set<Id>, rows: set<Id>)
    requires Thinned(s, t, gone) && rows != {} && rows <= s.Keys && rows <= t.Keys
    ensures Elect(t, rows) == Elect(s, rows)
  {
    SortsTheSame(s, t, gone, rows);
    var ordered := SortedTail(s, rows);
    hide StrictTotalOn, NewestFirst, SelectByRetention, SortedBy, Thinned, Ascending;
    SelectionUnchanged(s, t, gone, ordered[1..], false);
    SelectionUnchanged(s, t, gone, ordered[1..], true);
  }

  lemma GroupRowsKept(s: map<Id, Signal>, t: map<Id, Signal>, gone: set<Id>, k: GroupKey)
    requires Thinned(s, t, gone) && forall i | i in GroupRows(s, k) :: i !in gone
    ensures GroupRows(t, k) == GroupRows(s, k)
    ensures GroupRows(s, k) <= s.Keys && GroupRows(t, k) <= t.Keys
  {
    GroupRowsUntouched(s, t, gone, k);
    hide SameRow;
    forall i ensures i in GroupRows(t, k) <==> i in GroupRows(s, k) {
    }
  }

  /** A group none of whose rows is gone is elected exactly as before. */
  lemma UntouchedGroup(s: map<Id, Signal>, t: map<Id, Signal>, gone: set<Id>, k: GroupKey)
    requires Thinned(s, t, gone) && forall i | i in GroupRows(s, k) :: i !in gone
    ensures GroupRows(t, k) == GroupRows(s, k)
    ensures GroupRows(s, k) != {} ==> Elect(t, GroupRows(t, k)) == Elect(s, GroupRows(s, k))
  {
    GroupRowsKept(s, t, gone, k);
    hide Elect, GroupRows, Thinned;
    if GroupRows(s, k) != {} {
      ElectsTheSame(s, t, gone, GroupRows(s, k));
    }
  }

  lemma DuplicateIffWanted(signals: map<Id, Signal>, scope: Scope, k: GroupKey)
    ensures k in DuplicateKeys(signals, scope) <==> Wanted(signals, scope, k)
  {
    if Wanted(signals, scope, k) {
      var i := Member(GroupRows(signals, k));
      assert KeyOf(signals[i]) == k;
    }
  }

  predicate GoneFrom(s: map<Id, Signal>, gone: set<Id>, done: set<GroupKey>) {
    forall i | i in gone :: i in s && KeyOf(s[i]) in done
  }

  lemma GroupNotGone(s: map<Id, Signal>, gone: set<Id>, done: set<GroupKey>, k: GroupKey)
    requires GoneFrom(s, gone, done) && k !in done
    ensures forall i | i in GroupRows(s, k) :: i !in gone
  {
  }

  /** Collapsing some groups leaves every other group as it was: its rows, its election, and whether
      it still counts as a duplicate group. */
  lemma OtherGroupUnchanged(s: map<Id, Signal>, t: map<Id, Signal>, gone: set<Id>, done: set<GroupKey>, scope: Scope,
                            k: GroupKey)
    requires Thinned(s, t, gone) && GoneFrom(s, gone, done) && k !in done
    ensures GroupRows(t, k) == GroupRows(s, k)
    ensures LosersIn(t, k) == LosersIn(s, k) && HeldIn(t, k) == HeldIn(s, k)
    ensures k in DuplicateKeys(t, scope) <==> k in DuplicateKeys(s, scope)
  {
    GroupNotGone(s, gone, done, k);
    UntouchedGroup(s, t, gone, k);
    DuplicateIffWanted(s, scope, k);
    DuplicateIffWanted(t, scope, k);
  }

  lemma OtherMappingUnchanged(s: map<Id, Signal>, t: map<Id, Signal>, gone: set<Id>, done: set<GroupKey>,
                              ks: set<GroupKey>)
    requires Thinned(s, t, gone) && GoneFrom(s, gone, done) && ks !! done
    ensures MappingOf(t, ks) == MappingOf(s, ks)
  {
    hide Loses, SurvivorOf, Substitution, SameRow;
    forall i ensures i in MappingOf(t, ks) <==> i in MappingOf(s, ks) {
      assert i in t ==> i in s && SameKey(s[i], t[i]) by { ThinnedRows(s, t, gone); }
      if i in s && KeyOf(s[i]) in ks {
        OtherRowUnchanged(s, t, gone, done, i);
      }
    }
    forall i | i in MappingOf(t, ks) ensures MappingOf(t, ks)[i] == MappingOf(s, ks)[i] {
      OtherRowUnchanged(s, t, gone, done, i);
    }
  }

  predicate SameKey(a: Signal, b: Signal) {
    KeyOf(a) == KeyOf(b)
  }

  lemma ThinnedRows(s: map<Id, Signal>, t: map<Id, Signal>, gone: set<Id>)
    requires Thinned(s, t, gone)
    ensures forall i | i in t :: i in s && SameKey(s[i], t[i])
  {
  }

  lemma OtherRowUnchanged(s: map<Id, Signal>, t: map<Id, Signal>, gone: set<Id>, done: set<GroupKey>, i: Id)
    requires Thinned(s, t, gone) && GoneFrom(s, gone, done) && i in s && KeyOf(s[i]) !in done
    ensures i in t && KeyOf(t[i]) == KeyOf(s[i])
    ensures Loses(t, i) == Loses(s, i) && SurvivorOf(t, i) == SurvivorOf(s, i)
  {
    assert SameRow(s[i], t[i]);
    GroupNotGone(s, gone, done, KeyOf(s[i]));
    UntouchedGroup(s, t, gone, KeyOf(s[i]));
  }

  lemma {:induction false} OtherListsUnchanged(s: map<Id, Signal>, t: map<Id, Signal>, gone: set<Id>,
                                               done: set<GroupKey>, scope: Scope, ks: seq<GroupKey>)
    requires Thinned(s, t, gone) && GoneFrom(s, gone, done) && Elements(ks) !! done
    ensures LosersOf(t, ks) == LosersOf(s, ks) && HeldCount(t, ks) == HeldCount(s, ks)
  {
    hide Thinned, GoneFrom, LosersIn, HeldIn;
    if ks != [] {
      var n := |ks| - 1;
      assert ks[n] in Elements(ks) && Elements(ks[..n]) <= Elements(ks);
      OtherListsUnchanged(s, t, gone, done, scope, ks[..n]);
      OtherGroupUnchanged(s, t, gone, done, scope, ks[n]);
    }
  }

  lemma {:induction false} ListsConcatenate(s: map<Id, Signal>, a: seq<GroupKey>, b: seq<GroupKey>)
    ensures LosersOf(s, a + b) == LosersOf(s, a) + LosersOf(s, b)
    ensures HeldCount(s, a + b) == HeldCount(s, a) + HeldCount(s, b)
  {
    hide LosersIn, HeldIn;
    if b == [] {
      assert a + b == a;
    } else {
      var n := |b| - 1;
      ListsConcatenate(s, a, b[..n]);
      assert (a + b)[..|a + b| - 1] == a + b[..n];
    }
  }

  /** The keyset cursor: whatever earlier batches deleted, the next fetch is the next stretch of the
      groups that were there at the start. The scan starts below every key with a non-empty hash. */
  lemma NextFetch(s: map<Id, Signal>, t: map<Id, Signal>, gone: set<Id>, scope: Scope, n: nat, lim: nat)
    requires n <= |AllGroups(s, scope)|
    requires Thinned(s, t, gone) && GoneFrom(s, gone, Elements(AllGroups(s, scope)[..n]))
    ensures var all := AllGroups(s, scope);
            FetchGroupBatch(t, scope, if n == 0 then None else Some(all[n - 1]), lim) ==
                all[n..][..if lim < |all| - n then lim else |all| - n]
  {
    hide DuplicateKeys, KeyLess, Thinned, GoneFrom, AllGroups, FetchGroupBatch;
    var all := AllGroups(s, scope);
    var after := if n == 0 then None else Some(all[n - 1]);
    AllGroupsListed(s, scope);
    assert SortedBy(KeyLess, all[n..]) by {
      forall i, j | 0 <= i < j < |all[n..]| ensures KeyLess(all[n..][i], all[n..][j]) {
        assert KeyLess(all[n + i], all[n + j]);
      }
    }
    forall k ensures k in Elements(all[n..]) <==> k in DuplicateKeys(t, scope) && KeyLess(Start(after), k) {
      CursorMember(s, t, gone, scope, n, k);
    }
    FetchListed(t, scope, after, lim, all[n..]);
  }

  lemma FetchListed(t: map<Id, Signal>, scope: Scope, after: Option<GroupKey>, lim: nat, rest: seq<GroupKey>)
    requires SortedBy(KeyLess, rest)
    requires forall k :: k in Elements(rest) <==> k in DuplicateKeys(t, scope) && KeyLess(Start(after), k)
    ensures FetchGroupBatch(t, scope, after, lim) == rest[..if lim < |rest| then lim else |rest|]
  {
    hide DuplicateKeys, KeyLess;
    var keys := set k | k in DuplicateKeys(t, scope) && KeyLess(Start(after), k);
    KeysAreTotal(keys);
    assert keys == Elements(rest);
    SortedUnique(KeyLess, Ascending(KeyLess, keys), rest);
    assert rest[..|rest|] == rest;
  }

  lemma AllGroupsListed(s: map<Id, Signal>, scope: Scope)
    ensures SortedBy(KeyLess, AllGroups(s, scope)) && NoRepeats(AllGroups(s, scope))
    ensures Elements(AllGroups(s, scope)) == DuplicateKeys(s, scope)
  {
    KeysAreTotal(DuplicateKeys(s, scope));
    SortedIsNoRepeats(KeyLess, AllGroups(s, scope));
  }

  lemma CursorMember(s: map<Id, Signal>, t: map<Id, Signal>, gone: set<Id>, scope: Scope, n: nat, k: GroupKey)
    requires n <= |AllGroups(s, scope)|
    requires Thinned(s, t, gone) && GoneFrom(s, gone, Elements(AllGroups(s, scope)[..n]))
    ensures var all := AllGroups(s, scope);
            k in Elements(all[n..]) <==>
            k in DuplicateKeys(t, scope) && KeyLess(if n == 0 then NO_KEY else all[n - 1], k)
  {
    hide DuplicateKeys, KeyLess, Thinned, GoneFrom, AllGroups, Wanted;
    var all := AllGroups(s, scope);
    AllGroupsListed(s, scope);
    KeysAreTotal(Elements(all));
    assert k in all <==> k in Elements(all);
    DuplicateIffWanted(t, scope, k);
    if n > 0 {
      SortedSuffix(KeyLess, all, n);
      if KeyLess(all[n - 1], k) {
        BeforeCursor(all, n, k);
        OtherGroupUnchanged(s, t, gone, Elements(all[..n]), scope, k);
      }
    } else {
      assert all[n..] == all;
      if k in DuplicateKeys(t, scope) {
        NoKeyIsLeast(t, scope, k);
      }
      OtherGroupUnchanged(s, t, gone, Elements(all[..n]), scope, k);
    }
  }

  lemma NoKeyIsLeast(signals: map<Id, Signal>, scope: Scope, k: GroupKey)
    requires k in DuplicateKeys(signals, scope)
    ensures KeyLess(NO_KEY, k)
  {
    DuplicateIffWanted(signals, scope, k);
  }

  lemma BeforeCursor(all: seq<GroupKey>, n: nat, k: GroupKey)
    requires 0 < n <= |all| && SortedBy(KeyLess, all) && KeyLess(all[n - 1], k)
    ensures k !in all[..n]
  {
    forall i | 0 <= i < n ensures all[i] != k {
      KeyTrichotomy(k, k);
      if i < n - 1 {
        KeyTransitive(all[i], all[n - 1], k);
      }
    }
  }

  method PlanBatch(signals: map<Id, Signal>, groups: seq<GroupKey>)
    returns (m: map<Id, Id>, losers: seq<Id>, held: nat, seen: nat)
    ensures m == MappingOf(signals, Elements(groups))
    ensures losers == LosersOf(signals, groups) && held == HeldCount(signals, groups)
    ensures (forall k | k in groups :: |GroupRows(signals, k)| > 1) ==> seen == |groups|
  {
    hide LosersIn, HeldIn, MappingOf, GroupRows;
    m, losers, held, seen := map[], [], 0, 0;
    NothingMapped(signals);
    assert Elements(groups[..0]) == {};
    for n := 0 to |groups|
      invariant m == MappingOf(signals, Elements(groups[..n]))
      invariant losers == LosersOf(signals, groups[..n]) && held == HeldCount(signals, groups[..n])
      invariant (forall k | k in groups :: |GroupRows(signals, k)| > 1) ==> seen == n
    {
      var k := groups[n];
      assert groups[..n + 1][..n] == groups[..n];
      assert groups[..n + 1] == groups[..n] + [k];
      assert Elements(groups[..n + 1]) == Elements(groups[..n]) + {k};
      MappingExtends(signals, Elements(groups[..n]), k);
      ElectedIn(signals, k);
      var rows := GroupRows(signals, k);
      if |rows| >= 2 {
        seen := seen + 1;
        var e := Elect(signals, rows);
        held := held + |e.held|;
        m := m + map l | l in Elements(e.losers) :: e.survivor;
        losers := losers + e.losers;
      }
    }
    assert groups[..|groups|] == groups;
  }

  lemma NothingMapped(signals: map<Id, Signal>)
    ensures MappingOf(signals, {}) == map[]
  {
  }

  lemma ElectedIn(signals: map<Id, Signal>, k: GroupKey)
    ensures GroupRows(signals, k) <= signals.Keys
    ensures |GroupRows(signals, k)| < 2 ==> LosersIn(signals, k) == [] && HeldIn(signals, k) == []
    ensures |GroupRows(signals, k)| >= 2 ==>
              var e := Elect(signals, GroupRows(signals, k));
              LosersIn(signals, k) == e.losers && HeldIn(signals, k) == e.held
  {
  }

  lemma MappingExtends(signals: map<Id, Signal>, done: set<GroupKey>, k: GroupKey)
    ensures |GroupRows(signals, k)| < 2 ==> MappingOf(signals, done + {k}) == MappingOf(signals, done)
    ensures |GroupRows(signals, k)| >= 2 ==>
              GroupRows(signals, k) <= signals.Keys &&
              var e := Elect(signals, GroupRows(signals, k));
              MappingOf(signals, done + {k}) == MappingOf(signals, done) + map l | l in Elements(e.losers) :: e.survivor
  {
    LosersInGroup(signals, k);
    ElectedIn(signals, k);
    hide Loses, SurvivorOf, Elect, LosersIn, HeldIn;
    if |GroupRows(signals, k)| >= 2 {
      var e := Elect(signals, GroupRows(signals, k));
      var whole := MappingOf(signals, done + {k});
      var parts := MappingOf(signals, done) + map l | l in Elements(e.losers) :: e.survivor;
      assert whole.Keys == parts.Keys;
    }
  }
}
