/** What a collapse run does, told in the columns of the tables alone. */
module CollapseMeaning {
  import opened Ordering
  import opened Repoint
  import opened ArrayRepoint
  import opened EvidenceArchive
  import opened CollapseBatch
  import opened CollapseLaws
  import opened DuplicateGroups
  import opened CollapseRun

  // Which groups are visited.

  lemma TwoRows(rows: set<Id>, i: Id) returns (j: Id)
    requires i in rows && |rows| > 1
    ensures j in rows && j != i
  {
    assert |rows - {i}| > 0;
    j := Member(rows - {i});
  }

  lemma SeveralRows(rows: set<Id>, i: Id, j: Id)
    requires i in rows && j in rows && i != j
    ensures |rows| > 1
  {
    assert {i, j} <= rows;
    assert |rows - {i}| == |rows| - 1 && j in rows - {i};
  }

  lemma GroupHasTwo(s: map<Id, Signal>, k: GroupKey)
    ensures |GroupRows(s, k)| > 1 <==>
            exists i, j | i in s && j in s :: i != j && s[i].source == s[j].source == k.source
                 && s[i].hash == s[j].hash == k.hash && s[i].tenant == s[j].tenant == k.tenant
  {
    var rows := GroupRows(s, k);
    if |rows| > 1 {
      var i := Member(rows);
      var j := TwoRows(rows, i);
    }
    if i, j :| i in s && j in s && i != j && s[i].source == s[j].source == k.source
               && s[i].hash == s[j].hash == k.hash && s[i].tenant == s[j].tenant == k.tenant {
      SeveralRows(rows, i, j);
    }
  }

  /** The groups are the contents, never the empty one, that at least two rows of one source and tenant share
      and that meet the restrictions. */
  lemma GroupsAre(s: map<Id, Signal>, scope: Scope, k: GroupKey)
    ensures k in AllGroups(s, scope) <==>
            && k.hash != ""
            && (scope.tenant.Some? ==> k.tenant == scope.tenant.value)
            && (scope.source.Some? ==> k.source == scope.source.value)
            && exists i, j | i in s && j in s :: i != j && s[i].source == s[j].source == k.source
                 && s[i].hash == s[j].hash == k.hash && s[i].tenant == s[j].tenant == k.tenant
  {
    AllGroupsListed(s, scope);
    assert k in AllGroups(s, scope) <==> k in Elements(AllGroups(s, scope));
    DuplicateIffWanted(s, scope, k);
    GroupHasTwo(s, k);
    hide AllGroups, DuplicateKeys, GroupRows, Elements;
  }

  /** They are visited each once, in the order of source, hash and tenant. */
  lemma GroupsInOrder(s: map<Id, Signal>, scope: Scope, a: nat, b: nat)
    requires a < b < |AllGroups(s, scope)|
    ensures var (x, y) := (AllGroups(s, scope)[a], AllGroups(s, scope)[b]);
            || TextLess(x.source, y.source)
            || (x.source == y.source && TextLess(x.hash, y.hash))
            || (x.source == y.source && x.hash == y.hash && TextLess(x.tenant, y.tenant))
  {
    AllGroupsListed(s, scope);
    assert KeyLess(AllGroups(s, scope)[a], AllGroups(s, scope)[b]);
    hide AllGroups;
  }

  // Who survives and who goes.

  lemma RowOfGroup(s: map<Id, Signal>, k: GroupKey, i: Id)
    ensures i in GroupRows(s, k) <==>
            i in s && s[i].source == k.source && s[i].hash == k.hash && s[i].tenant == k.tenant
  {
  }

  lemma InMapping(s: map<Id, Signal>, keys: set<GroupKey>, i: Id)
    requires i in s
    ensures var k := GroupKey(s[i].source, s[i].hash, s[i].tenant);
            var rows := GroupRows(s, k);
            && i in rows && rows <= s.Keys
            && (i in MappingOf(s, keys) <==> k in keys && |rows| > 1 && i in Elements(Elect(s, rows).losers))
            && (i in MappingOf(s, keys) ==> MappingOf(s, keys)[i] == Elect(s, rows).survivor)
  {
    LosesInGroup(s, i);
    hide Elect;
  }

  /** The substitution that collapsing the groups `keys` amounts to: each pair is of one content, source and
      tenant, the survivor is the latest fetched row of all with that content, the larger id deciding, and the
      loser is not held by its retention class. */
  lemma PairsAre(s: map<Id, Signal>, keys: set<GroupKey>, l: Id)
    requires l in MappingOf(s, keys)
    ensures var w := MappingOf(s, keys)[l];
            && l in s && w in s && l != w
            && s[l].source == s[w].source && s[l].hash == s[w].hash && s[l].tenant == s[w].tenant
            && GroupKey(s[l].source, s[l].hash, s[l].tenant) in keys
            && s[l].retention != "retain_always" && s[l].retention != "evidence_hold"
            && forall i | i in s && i != w && s[i].source == s[w].source && s[i].hash == s[w].hash
                          && s[i].tenant == s[w].tenant ::
                 s[w].fetchedAt > s[i].fetchedAt || (s[w].fetchedAt == s[i].fetchedAt && w > i)
  {
    assert l in s;
    InMapping(s, keys, l);
    var k := GroupKey(s[l].source, s[l].hash, s[l].tenant);
    var rows := GroupRows(s, k);
    ElectSpec(s, rows);
    var w := Elect(s, rows).survivor;
    forall i | i in s && i != w && s[i].source == s[w].source && s[i].hash == s[w].hash && s[i].tenant == s[w].tenant
      ensures s[w].fetchedAt > s[i].fetchedAt || (s[w].fetchedAt == s[i].fetchedAt && w > i)
    {
      RowOfGroup(s, k, w);
      RowOfGroup(s, k, i);
      assert Newer(s, w, i);
    }
    hide MappingOf, Elect, GroupRows;
  }

  /** Conversely, a row of one of the groups that some other row of it was fetched after, or with a larger id at
      the same time, is a loser unless its retention class holds it. */
  lemma LosersAreAll(s: map<Id, Signal>, keys: set<GroupKey>, i: Id, j: Id)
    requires i in s && j in s && GroupKey(s[i].source, s[i].hash, s[i].tenant) in keys
    requires s[i].source == s[j].source && s[i].hash == s[j].hash && s[i].tenant == s[j].tenant
    requires s[j].fetchedAt > s[i].fetchedAt || (s[j].fetchedAt == s[i].fetchedAt && j > i)
    ensures i in MappingOf(s, keys) <==> s[i].retention != "retain_always" && s[i].retention != "evidence_hold"
  {
    InMapping(s, keys, i);
    var k := GroupKey(s[i].source, s[i].hash, s[i].tenant);
    var rows := GroupRows(s, k);
    RowOfGroup(s, k, j);
    SeveralRows(rows, i, j);
    ElectSpec(s, rows);
    assert i == Elect(s, rows).survivor ==> Newer(s, i, j);
    hide MappingOf, Elect, GroupRows;
  }

  /** The pairs of a run over the first `n` groups: their content is never empty and meets the restrictions. */
  lemma RunPairsAre(s: map<Id, Signal>, scope: Scope, n: nat, l: Id)
    requires n <= |AllGroups(s, scope)| && l in Planned(s, scope, n)
    ensures var w := Planned(s, scope, n)[l];
            && l in s && w in s && l != w
            && s[l].source == s[w].source && s[l].hash == s[w].hash && s[l].tenant == s[w].tenant
            && s[l].hash != ""
            && (scope.tenant.Some? ==> s[l].tenant == scope.tenant.value)
            && (scope.source.Some? ==> s[l].source == scope.source.value)
            && GroupKey(s[l].source, s[l].hash, s[l].tenant) in AllGroups(s, scope)[..n]
            && s[l].retention != "retain_always" && s[l].retention != "evidence_hold"
            && (s[w].fetchedAt > s[l].fetchedAt || (s[w].fetchedAt == s[l].fetchedAt && w > l))
            && forall i | i in s && i != w && s[i].source == s[w].source && s[i].hash == s[w].hash
                          && s[i].tenant == s[w].tenant ::
                 s[w].fetchedAt > s[i].fetchedAt || (s[w].fetchedAt == s[i].fetchedAt && w > i)
  {
    var all := AllGroups(s, scope);
    PairsAre(s, Elements(all[..n]), l);
    var k := GroupKey(s[l].source, s[l].hash, s[l].tenant);
    assert k in all[..n] && k in all;
    GroupsAre(s, scope, k);
    hide AllGroups, MappingOf;
  }

  /** Conversely every row of those groups that is not the latest of its group is a loser, unless it is held. */
  lemma RunLosersAreAll(s: map<Id, Signal>, scope: Scope, n: nat, i: Id, j: Id)
    requires n <= |AllGroups(s, scope)|
    requires i in s && j in s && GroupKey(s[i].source, s[i].hash, s[i].tenant) in AllGroups(s, scope)[..n]
    requires s[i].source == s[j].source && s[i].hash == s[j].hash && s[i].tenant == s[j].tenant
    requires s[j].fetchedAt > s[i].fetchedAt || (s[j].fetchedAt == s[i].fetchedAt && j > i)
    ensures i in Planned(s, scope, n) <==> s[i].retention != "retain_always" && s[i].retention != "evidence_hold"
  {
    LosersAreAll(s, Elements(AllGroups(s, scope)[..n]), i, j);
    hide AllGroups, MappingOf;
  }

  // What a run reports.

  /** The rows a run over `keys` counts as held. */
  function HeldRows(s: map<Id, Signal>, keys: set<GroupKey>): set<Id> {
    set i | i in s && GroupKey(s[i].source, s[i].hash, s[i].tenant) in keys
            && (s[i].retention == "retain_always" || s[i].retention == "evidence_hold")
            && exists j | j in s :: s[i].source == s[j].source && s[i].hash == s[j].hash && s[i].tenant == s[j].tenant
                 && (s[j].fetchedAt > s[i].fetchedAt || (s[j].fetchedAt == s[i].fetchedAt && j > i))
  }

  lemma Chosen<T>(rows: set<T>, w: T, held: set<T>, losers: set<T>, kept: T -> bool, i: T)
    requires held <= rows - {w} && losers == rows - {w} - held
    requires (forall x | x in losers :: !kept(x)) && forall x | x in held :: kept(x)
    ensures i in held <==> i in rows && i != w && kept(i)
  {
    if i in rows && i != w && i !in held {
      assert i in losers;
    }
  }

  lemma NotNewest(s: map<Id, Signal>, rows: set<Id>, w: Id, i: Id)
    requires w in rows && i in rows && forall x | x in rows && x != w :: Newer(s, w, x)
    ensures i != w <==> exists j | j in rows :: Newer(s, j, i)
  {
  }

  lemma HeldElected(s: map<Id, Signal>, k: GroupKey, i: Id)
    requires |GroupRows(s, k)| > 1
    ensures NoRepeats(HeldIn(s, k))
    ensures i in Elements(HeldIn(s, k)) <==>
            i in GroupRows(s, k) && Kept(s[i]) && exists j | j in GroupRows(s, k) :: Newer(s, j, i)
  {
    var rows := GroupRows(s, k);
    ElectSpec(s, rows);
    var e := Elect(s, rows);
    hide Elect, Kept, GroupRows, Elements, Newer, NoRepeats;
    Chosen(rows, e.survivor, Elements(e.held), Elements(e.losers), x => x in s && Kept(s[x]), i);
    if i in rows {
      NotNewest(s, rows, e.survivor, i);
    }
  }

  lemma LaterOf(s: map<Id, Signal>, k: GroupKey, i: Id)
    requires i in GroupRows(s, k)
    ensures (exists j | j in GroupRows(s, k) :: Newer(s, j, i)) <==>
            exists j | j in s :: s[i].source == s[j].source && s[i].hash == s[j].hash && s[i].tenant == s[j].tenant
              && (s[j].fetchedAt > s[i].fetchedAt || (s[j].fetchedAt == s[i].fetchedAt && j > i))
  {
    RowOfGroup(s, k, i);
    if j :| j in GroupRows(s, k) && Newer(s, j, i) {
      RowOfGroup(s, k, j);
    }
    if j :| j in s && s[i].source == s[j].source && s[i].hash == s[j].hash && s[i].tenant == s[j].tenant
            && (s[j].fetchedAt > s[i].fetchedAt || (s[j].fetchedAt == s[i].fetchedAt && j > i)) {
      RowOfGroup(s, k, j);
      assert Newer(s, j, i);
    }
    hide GroupRows;
  }

  lemma HeldIs(s: map<Id, Signal>, k: GroupKey, i: Id)
    requires |GroupRows(s, k)| > 1
    ensures i in Elements(HeldIn(s, k)) <==> i in HeldRows(s, {k})
  {
    HeldElected(s, k, i);
    RowOfGroup(s, k, i);
    if i in GroupRows(s, k) {
      LaterOf(s, k, i);
    }
    hide GroupRows, HeldIn, Elements, Newer;
  }

  lemma FewRowsHoldNone(s: map<Id, Signal>, k: GroupKey)
    requires |GroupRows(s, k)| < 2
    ensures HeldIn(s, k) == [] && HeldRows(s, {k}) == {}
  {
    HeldNextToAnother(s, k);
    hide HeldRows, GroupRows;
  }

  lemma HeldInGroup(s: map<Id, Signal>, k: GroupKey)
    ensures |HeldIn(s, k)| == |HeldRows(s, {k})|
  {
    hide *;
    if |GroupRows(s, k)| > 1 {
      HeldElected(s, k, 0);
      forall i ensures i in Elements(HeldIn(s, k)) <==> i in HeldRows(s, {k}) {
        HeldIs(s, k, i);
      }
      assert Elements(HeldIn(s, k)) == HeldRows(s, {k});
      NoRepeatsSize(HeldIn(s, k));
    } else {
      FewRowsHoldNone(s, k);
    }
  }

  lemma HeldNextToAnother(s: map<Id, Signal>, k: GroupKey)
    ensures HeldRows(s, {k}) != {} ==> |GroupRows(s, k)| > 1
  {
    if HeldRows(s, {k}) != {} {
      var i := Member(HeldRows(s, {k}));
      var j :| j in s && s[i].source == s[j].source && s[i].hash == s[j].hash && s[i].tenant == s[j].tenant
               && (s[j].fetchedAt > s[i].fetchedAt || (s[j].fetchedAt == s[i].fetchedAt && j > i));
      RowOfGroup(s, k, i);
      RowOfGroup(s, k, j);
      SeveralRows(GroupRows(s, k), i, j);
    }
  }

  /** The held count is the number of rows of the visited groups that only their retention class saves. */
  lemma {:induction false} HeldCounted(s: map<Id, Signal>, keys: seq<GroupKey>)
    requires NoRepeats(keys)
    ensures HeldCount(s, keys) == |HeldRows(s, Elements(keys))|
  {
    if keys == [] {
      assert HeldRows(s, Elements(keys)) == {};
    } else {
      var n := |keys| - 1;
      HeldCounted(s, keys[..n]);
      HeldInGroup(s, keys[n]);
      assert keys == keys[..n] + [keys[n]];
      assert Elements(keys) == Elements(keys[..n]) + {keys[n]};
      HeldSplit(s, Elements(keys[..n]), keys[n]);
      hide HeldIn, HeldRows;
    }
  }

  lemma HeldSplit(s: map<Id, Signal>, done: set<GroupKey>, k: GroupKey)
    requires k !in done
    ensures |HeldRows(s, done + {k})| == |HeldRows(s, done)| + |HeldRows(s, {k})|
  {
    assert HeldRows(s, done + {k}) == HeldRows(s, done) + HeldRows(s, {k});
    assert HeldRows(s, done) !! HeldRows(s, {k});
  }

  lemma {:induction false} SelectionSorted(s: map<Id, Signal>, q: seq<Id>, kept: bool)
    requires Elements(q) <= s.Keys && SortedBy(NewestFirst(s), q)
    ensures SortedBy(NewestFirst(s), SelectByRetention(s, q, kept))
    ensures Elements(SelectByRetention(s, q, kept)) <= Elements(q)
  {
    if q != [] {
      assert q[0] in Elements(q) && Elements(q[1..]) <= Elements(q);
      forall i, j | 0 <= i < j < |q[1..]| ensures NewestFirst(s)(q[1..][i], q[1..][j]) {
        assert NewestFirst(s)(q[i + 1], q[j + 1]);
      }
      SelectionSorted(s, q[1..], kept);
      var r := SelectByRetention(s, q[1..], kept);
      forall j | 0 <= j < |r| ensures NewestFirst(s)(q[0], r[j]) {
        assert r[j] in Elements(r);
        var i :| 0 <= i < |q[1..]| && q[1..][i] == r[j];
        assert NewestFirst(s)(q[0], q[i + 1]);
      }
    }
  }

  lemma LosersInOrderOf(s: map<Id, Signal>, k: GroupKey)
    ensures Elements(LosersIn(s, k)) <= GroupRows(s, k) && GroupRows(s, k) <= s.Keys
    ensures SortedBy(NewestFirst(s), LosersIn(s, k))
  {
    LosersAreRows(s, k);
    var rows := GroupRows(s, k);
    if |rows| > 1 {
      NewestFirstIsTotal(s, rows);
      var ordered := Ascending(NewestFirst(s), rows);
      SortedHead(NewestFirst(s), ordered, rows);
      forall i, j | 0 <= i < j < |ordered[1..]| ensures NewestFirst(s)(ordered[1..][i], ordered[1..][j]) {
        assert NewestFirst(s)(ordered[i + 1], ordered[j + 1]);
      }
      SelectionSorted(s, ordered[1..], false);
    }
  }

  lemma LoserOfKeys(s: map<Id, Signal>, keys: seq<GroupKey>, x: Id)
    requires NoRepeats(keys) && x in LosersOf(s, keys)
    ensures x in s && KeyOf(s[x]) in keys
  {
    LosersListed(s, keys);
    hide LosersOf, Loses, SurvivorOf;
    assert x in Elements(LosersOf(s, keys));
    assert KeyOf(s[x]) in Elements(keys);
  }

  /** The row `x` comes before `y` by source, hash and tenant, or is of the same content and was fetched later, the
      larger id deciding. */
  ghost predicate Ahead(s: map<Id, Signal>, x: Id, y: Id) {
    && x in s && y in s
    && (|| TextLess(s[x].source, s[y].source)
        || (s[x].source == s[y].source && TextLess(s[x].hash, s[y].hash))
        || (s[x].source == s[y].source && s[x].hash == s[y].hash && TextLess(s[x].tenant, s[y].tenant))
        || (s[x].source == s[y].source && s[x].hash == s[y].hash && s[x].tenant == s[y].tenant
            && (s[x].fetchedAt > s[y].fetchedAt || (s[x].fetchedAt == s[y].fetchedAt && x > y))))
  }

  lemma AheadBy(s: map<Id, Signal>, x: Id, y: Id)
    requires x in s && y in s
    requires KeyLess(KeyOf(s[x]), KeyOf(s[y])) || (KeyOf(s[x]) == KeyOf(s[y]) && NewestFirst(s)(x, y))
    ensures Ahead(s, x, y)
  {
    hide TextLess;
  }

  lemma LosersUnfold(s: map<Id, Signal>, keys: seq<GroupKey>)
    requires NoRepeats(keys) && SortedBy(KeyLess, keys) && LosersOf(s, keys) != []
    ensures var n := |keys| - 1;
            && n >= 0 && NoRepeats(keys[..n]) && SortedBy(KeyLess, keys[..n])
            && LosersOf(s, keys) == LosersOf(s, keys[..n]) + LosersIn(s, keys[n])
  {
    hide LosersIn, KeyLess;
  }

  lemma LoserRow(s: map<Id, Signal>, k: GroupKey, a: nat)
    requires a < |LosersIn(s, k)|
    ensures LosersIn(s, k)[a] in s && KeyOf(s[LosersIn(s, k)[a]]) == k
  {
    LosersInOrderOf(s, k);
    hide LosersIn, GroupRows;
    assert LosersIn(s, k)[a] in Elements(LosersIn(s, k));
    RowOfGroup(s, k, LosersIn(s, k)[a]);
  }

  lemma AheadWithin(s: map<Id, Signal>, k: GroupKey, a: nat, b: nat)
    requires a < b < |LosersIn(s, k)|
    ensures Ahead(s, LosersIn(s, k)[a], LosersIn(s, k)[b])
  {
    LosersInOrderOf(s, k);
    LoserRow(s, k, a);
    LoserRow(s, k, b);
    hide LosersIn, NewestFirst, Ahead, KeyLess;
    AheadBy(s, LosersIn(s, k)[a], LosersIn(s, k)[b]);
  }

  lemma AheadAcross(s: map<Id, Signal>, keys: seq<GroupKey>, x: Id, b: nat)
    requires keys != [] && NoRepeats(keys) && SortedBy(KeyLess, keys)
    requires var n := |keys| - 1; x in LosersOf(s, keys[..n]) && b < |LosersIn(s, keys[n])|
    ensures Ahead(s, x, LosersIn(s, keys[|keys| - 1])[b])
  {
    var n := |keys| - 1;
    hide LosersOf, LosersIn, Ahead, KeyLess;
    LoserOfKeys(s, keys[..n], x);
    LoserRow(s, keys[n], b);
    var k :| 0 <= k < n && keys[k] == KeyOf(s[x]);
    assert KeyLess(keys[k], keys[n]);
    AheadBy(s, x, LosersIn(s, keys[n])[b]);
  }

  /** The deleted ids are reported group by group, and in each the latest fetched first, the larger id deciding. */
  lemma {:induction false} ReportedInOrder(s: map<Id, Signal>, keys: seq<GroupKey>, a: nat, b: nat)
    requires NoRepeats(keys) && SortedBy(KeyLess, keys) && a < b < |LosersOf(s, keys)|
    ensures Ahead(s, LosersOf(s, keys)[a], LosersOf(s, keys)[b])
  {
    hide *;
    LosersUnfold(s, keys);
    var n := |keys| - 1;
    var before := LosersOf(s, keys[..n]);
    if b < |before| {
      ReportedInOrder(s, keys[..n], a, b);
    } else if a < |before| {
      assert before[a] in before;
      AheadAcross(s, keys, before[a], b - |before|);
    } else {
      AheadWithin(s, keys[n], a - |before|, b - |before|);
    }
  }

  // What one batch, and so a whole run, leaves in the tables.

  /** A link of a loser is there under its survivor with its own entity and role, every other link stays, and
      there is no further link. A link that was there keeps its contents; a new one has those of a loser's link. */
  lemma LinksAre(t: Tables, u: Tables, index: string, m: map<Id, Id>, k: LinkKey)
    requires Substitution(m) && Collapsed(t, u, index, m)
    ensures k in u.links <==>
            exists k0 | k0 in t.links :: k0.entity == k.entity && k0.role == k.role
              && k.signal == if k0.signal in m then m[k0.signal] else k0.signal
    ensures k in u.links && k in t.links ==> u.links[k] == t.links[k]
    ensures k in u.links && k !in t.links ==>
              exists k0 | k0 in t.links :: k0.signal in m && m[k0.signal] == k.signal && k0.entity == k.entity
                && k0.role == k.role && u.links[k] == t.links[k0]
  {
    hide LoserArraysDropped, ColumnsMoved, ArchiveMoved, SignalsAfter, TombstonesAfter;
    RepointedKeys(t.links, u.links, MoveLink(m), KeepLink());
    if k0 :| k0 in t.links && k0.entity == k.entity && k0.role == k.role
             && k.signal == if k0.signal in m then m[k0.signal] else k0.signal {
      assert KeepLink()(k0) && MoveLink(m)(k0) == k;
    }
    if k in u.links {
      assert ComesFrom(t.links, MoveLink(m), KeepLink(), k, u.links[k]);
      var k0 :| k0 in t.links && MoveLink(m)(k0) == k && t.links[k0] == u.links[k];
      SubstituteAvoidsLosers(m, k0.signal);
      assert k in t.links ==> KeepLink()(k) && MoveLink(m)(k) == k;
    }
  }

  lemma AliasComesTo(m: map<Id, Id>, k0: AliasKey, k: AliasKey)
    ensures KeepAlias(m)(k0) && MoveAlias(m)(k0) == k <==>
              && k.aliasSignal == (if k0.aliasSignal in m then m[k0.aliasSignal] else k0.aliasSignal)
              && k.canonicalSignal == (if k0.canonicalSignal in m then m[k0.canonicalSignal] else k0.canonicalSignal)
              && (k0.aliasSignal in m || k0.canonicalSignal in m ==> k.aliasSignal != k.canonicalSignal)
  {
  }

  lemma AliasKeys(t: Tables, u: Tables, index: string, m: map<Id, Id>, k: AliasKey)
    requires Collapsed(t, u, index, m)
    ensures k in u.aliases <==> exists k0 | k0 in t.aliases :: KeepAlias(m)(k0) && MoveAlias(m)(k0) == k
  {
    hide LoserArraysDropped, ColumnsMoved, ArchiveMoved, SignalsAfter, TombstonesAfter;
    RepointedKeys(t.aliases, u.aliases, MoveAlias(m), KeepAlias(m));
  }

  /** The aliases are the images of all there were, less the pairs a loser was in and whose two sides became one
      signal. */
  lemma AliasesAre(t: Tables, u: Tables, index: string, m: map<Id, Id>, k: AliasKey)
    requires Collapsed(t, u, index, m)
    ensures k in u.aliases <==>
            exists k0 | k0 in t.aliases ::
              && k.aliasSignal == (if k0.aliasSignal in m then m[k0.aliasSignal] else k0.aliasSignal)
              && k.canonicalSignal == (if k0.canonicalSignal in m then m[k0.canonicalSignal] else k0.canonicalSignal)
              && (k0.aliasSignal in m || k0.canonicalSignal in m ==> k.aliasSignal != k.canonicalSignal)
  {
    hide *;
    AliasKeys(t, u, index, m, k);
    if k in u.aliases {
      var k0 :| k0 in t.aliases && KeepAlias(m)(k0) && MoveAlias(m)(k0) == k;
      AliasComesTo(m, k0, k);
    }
    if k0 :| k0 in t.aliases
             && k.aliasSignal == (if k0.aliasSignal in m then m[k0.aliasSignal] else k0.aliasSignal)
             && k.canonicalSignal == (if k0.canonicalSignal in m then m[k0.canonicalSignal] else k0.canonicalSignal)
             && (k0.aliasSignal in m || k0.canonicalSignal in m ==> k.aliasSignal != k.canonicalSignal) {
      AliasComesTo(m, k0, k);
    }
  }

  /** An alias that was there keeps its contents; a new one has those of an alias of a loser. */
  lemma AliasContents(t: Tables, u: Tables, index: string, m: map<Id, Id>, k: AliasKey)
    requires Substitution(m) && Collapsed(t, u, index, m) && k in u.aliases
    ensures k in t.aliases ==> u.aliases[k] == t.aliases[k]
    ensures k !in t.aliases ==>
              exists k0 | k0 in t.aliases :: (k0.aliasSignal in m || k0.canonicalSignal in m)
                && k.aliasSignal == (if k0.aliasSignal in m then m[k0.aliasSignal] else k0.aliasSignal)
                && k.canonicalSignal == (if k0.canonicalSignal in m then m[k0.canonicalSignal] else k0.canonicalSignal)
                && u.aliases[k] == t.aliases[k0]
  {
    hide LoserArraysDropped, ColumnsMoved, ArchiveMoved, SignalsAfter, TombstonesAfter;
    assert ComesFrom(t.aliases, MoveAlias(m), KeepAlias(m), k, u.aliases[k]);
    var k0 :| k0 in t.aliases && KeepAlias(m)(k0) && MoveAlias(m)(k0) == k && t.aliases[k0] == u.aliases[k];
    SubstituteAvoidsLosers(m, k0.aliasSignal);
    SubstituteAvoidsLosers(m, k0.canonicalSignal);
    assert k in t.aliases ==> KeepAlias(m)(k) && MoveAlias(m)(k) == k;
    assert k !in t.aliases ==> TouchesAlias(m, k0);
  }

  /** Exactly the losers are gone. A signal that is left differs only in its pointer, which follows a loser to its
      survivor and is cleared in the survivor itself, and in a content address it did not have, which a survivor
      takes from the archive row it has by then. */
  lemma SignalsAre(t: Tables, u: Tables, index: string, m: map<Id, Id>, i: Id)
    requires Substitution(m) && Collapsed(t, u, index, m)
    ensures i in u.signals <==> i in t.signals && i !in m
    ensures i in u.signals ==>
              var (p, q) := (t.signals[i], u.signals[i]);
              && q.source == p.source && q.hash == p.hash && q.tenant == p.tenant
              && q.fetchedAt == p.fetchedAt && q.retention == p.retention
              && (p.canonical.None? ==> q.canonical.None?)
              && (p.canonical.Some? && p.canonical.value !in m ==> q.canonical == p.canonical)
              && (p.canonical.Some? && p.canonical.value in m && m[p.canonical.value] != i ==>
                    q.canonical == Some(m[p.canonical.value]))
              && (p.canonical.Some? && p.canonical.value in m && m[p.canonical.value] == i ==> q.canonical.None?)
              && (p.objectRef != "" || i !in m.Values || i !in u.archive ==> q.objectRef == p.objectRef)
              && (p.objectRef == "" && i in m.Values && i in u.archive ==> q.objectRef == u.archive[i].objectRef)
  {
    hide Repointed, LoserArraysDropped, ColumnsMoved, ArchiveMoved, TombstonesAfter;
  }

  /** The arrays of deleted signals go with them. Every other array without a loser is as it was. */
  lemma ArraysAre(t: Tables, u: Tables, index: string, m: map<Id, Id>, c: Cell)
    requires Substitution(m) && Collapsed(t, u, index, m)
    ensures c in u.arrays <==> c in t.arrays && !(c.column == SignalsDerivedFrom && c.row in m)
    ensures c in u.arrays && (forall i | 0 <= i < |t.arrays[c]| :: t.arrays[c][i] !in m) ==>
              u.arrays[c] == t.arrays[c]
  {
    hide Repointed, ArchiveMoved, SignalsAfter, TombstonesAfter, RepointArray;
    if c in u.arrays {
      UntouchedArray(m, t.arrays[c]);
      assert u.arrays[c] == RepointArray(m, t.arrays[c]);
    }
  }

  lemma UntouchedArray<T>(m: map<T, T>, q: seq<T>)
    ensures (forall i | 0 <= i < |q| :: q[i] !in m) ==> RepointArray(m, q) == q
  {
  }

  /** The array holds the ids it held, each loser as its survivor: `a` is a position of the new array, `i` of the
      old one. */
  lemma ArrayIds(t: Tables, u: Tables, index: string, m: map<Id, Id>, c: Cell, a: nat, i: nat)
    requires Substitution(m) && Collapsed(t, u, index, m) && c in u.arrays
    ensures c in t.arrays
    ensures var (p, q) := (t.arrays[c], u.arrays[c]);
            && (a < |q| ==> exists k | 0 <= k < |p| :: q[a] == if p[k] in m then m[p[k]] else p[k])
            && (i < |p| ==> exists k | 0 <= k < |q| :: q[k] == if p[i] in m then m[p[i]] else p[i])
  {
    hide Repointed, ArchiveMoved, SignalsAfter, TombstonesAfter, RepointArray;
    var p := t.arrays[c];
    assert u.arrays[c] == RepointArray(m, p);
    if a < |RepointArray(m, p)| {
      var k := OriginalAt(m, p, a);
    }
    if i < |p| {
      var k := ImageAt(m, p, i);
    }
  }

  lemma OriginalAt<T>(m: map<T, T>, q: seq<T>, a: nat) returns (i: nat)
    requires m.Keys !! m.Values && a < |RepointArray(m, q)|
    ensures i < |q| && RepointArray(m, q)[a] == if q[i] in m then m[q[i]] else q[i]
  {
    RepointArraySpec(m, q);
    var y := RepointArray(m, q)[a];
    assert y in Elements(RepointArray(m, q));
    var x :| x in q && Substitute(m, x) == y;
    i :| 0 <= i < |q| && q[i] == x;
  }

  lemma ImageAt<T>(m: map<T, T>, q: seq<T>, i: nat) returns (a: nat)
    requires m.Keys !! m.Values && i < |q|
    ensures a < |RepointArray(m, q)| && RepointArray(m, q)[a] == if q[i] in m then m[q[i]] else q[i]
  {
    RepointArraySpec(m, q);
    var y := Substitute(m, q[i]);
    assert q[i] in q && y in Elements(RepointArray(m, q));
    a :| 0 <= a < |RepointArray(m, q)| && RepointArray(m, q)[a] == y;
  }

  /** In an array with a loser, at `i`, the ids are afterwards listed once each, in the order they first appeared
      in: of two of them the one that is ahead was there, itself or as a loser, before any appearance of the other. */
  lemma ArrayOrder(t: Tables, u: Tables, index: string, m: map<Id, Id>, c: Cell, i: nat, a: nat, b: nat)
    returns (k: nat)
    requires Substitution(m) && Collapsed(t, u, index, m) && c in u.arrays && c in t.arrays
    requires i < |t.arrays[c]| && t.arrays[c][i] in m && a < b < |u.arrays[c]|
    ensures var (p, q) := (t.arrays[c], u.arrays[c]);
            && k < |p| && q[a] == (if p[k] in m then m[p[k]] else p[k])
            && forall j | 0 <= j <= k :: q[b] != if p[j] in m then m[p[j]] else p[j]
  {
    hide Repointed, ArchiveMoved, SignalsAfter, TombstonesAfter, RepointArray;
    assert u.arrays[c] == RepointArray(m, t.arrays[c]);
    k := FirstApart(m, t.arrays[c], i, a, b);
  }

  lemma FirstApart<T>(m: map<T, T>, q: seq<T>, i: nat, a: nat, b: nat) returns (k: nat)
    requires i < |q| && q[i] in m && a < b < |RepointArray(m, q)|
    ensures k < |q|
    ensures RepointArray(m, q)[a] == if q[k] in m then m[q[k]] else q[k]
    ensures forall j | 0 <= j <= k :: RepointArray(m, q)[b] != if q[j] in m then m[q[j]] else q[j]
  {
    var w := SubstituteAll(m, q);
    assert q[i] in q && Touches(m, q);
    FirstOccurrencesSorted(w);
    RepointArrayIs(m, q);
    var r := FirstOccurrences(w);
    hide FirstOccurrences, RepointArray;
    assert ByFirstAt(w)(r[a], r[b]);
    k := FirstAt(w, r[a]);
    forall j | 0 <= j <= k ensures r[b] != if q[j] in m then m[q[j]] else q[j] {
      assert w[..FirstAt(w, r[b])][j] == w[j];
    }
  }

  /** A survivor that had an archive row keeps it. One that had none takes that of a loser which beats every other
      loser of it: archived before not, then the later archived, an unknown time last, then the smaller id. */
  lemma ArchiveAre(t: Tables, u: Tables, index: string, m: map<Id, Id>, l: Id)
    requires Substitution(m) && Collapsed(t, u, index, m) && l in m && l in t.archive
    ensures m[l] in u.archive
    ensures m[l] in t.archive ==> u.archive[m[l]] == t.archive[m[l]] && l in u.archive
    ensures m[l] !in t.archive ==>
              exists w | w in m && m[w] == m[l] && w in t.archive ::
                && u.archive[m[l]] == t.archive[w]
                && w !in u.archive
                && (l == w || l in u.archive)
                && forall o | o in m && m[o] == m[l] && o in t.archive && o != w ::
                     var (x, y) := (t.archive[w], t.archive[o]);
                     || (x.status == "archived" && y.status != "archived")
                     || ((x.status == "archived" <==> y.status == "archived")
                         && (|| (x.archivedAt.Some? && y.archivedAt.None?)
                             || (x.archivedAt.Some? && y.archivedAt.Some? && x.archivedAt.value > y.archivedAt.value)
                             || (x.archivedAt == y.archivedAt && w < o)))
  {
    hide Repointed, SignalsAfter, TombstonesAfter, LoserArraysDropped, ColumnsMoved;
    ArchiveElection(t.archive, m, l);
    var s := m[l];
    assert s in m.Values;
    if s !in t.archive {
      var w := ReceivedFrom(t.archive, m, s);
      ArchiveElection(t.archive, m, w);
      MovedGone(t.archive, m, w);
      forall o | o in m && m[o] == s && o in t.archive && o != w ensures Preferred(t.archive, w, o) {
        ArchiveElection(t.archive, m, o);
      }
      hide Candidates, Moves, Receivers, ArchiveMoved, ReceivedFrom;
    }
  }

  lemma MovedGone(archive: map<Id, ArchiveRow>, m: map<Id, Id>, w: Id)
    requires m.Keys !! m.Values && Moves(archive, m, w)
    ensures w !in ArchiveMoved(archive, m)
  {
  }

  /** Every other archive row, a signal's own or a loser's that was not taken, stays as it was, and there is none
      at a signal that is neither in the table before nor a survivor. */
  lemma ArchiveElsewhere(t: Tables, u: Tables, index: string, m: map<Id, Id>, i: Id)
    requires Substitution(m) && Collapsed(t, u, index, m)
    ensures i in t.archive && i !in m ==> i in u.archive && u.archive[i] == t.archive[i]
    ensures i in t.archive && i in u.archive ==> u.archive[i] == t.archive[i]
    ensures i in u.archive && i !in t.archive ==> i in m.Values
  {
    hide Repointed, SignalsAfter, TombstonesAfter, LoserArraysDropped, ColumnsMoved;
    MoversAreLosers(t.archive, m);
    ReceiversAreSurvivors(t.archive, m);
    hide Moves, Receivers, ReceivedFrom;
  }

  /** Every loser has a tombstone; one that was there already keeps its index and its reason. */
  lemma TombstonesAre(t: Tables, u: Tables, index: string, m: map<Id, Id>, i: Id)
    requires Collapsed(t, u, index, m)
    ensures i in u.tombstones <==> i in t.tombstones || i in m
    ensures i in t.tombstones ==> u.tombstones[i] == t.tombstones[i]
    ensures i in m && i !in t.tombstones ==> u.tombstones[i] == Tombstone(index, "intrasource_collapse")
  {
    hide Repointed, SignalsAfter, LoserArraysDropped, ColumnsMoved, ArchiveMoved;
  }
}
