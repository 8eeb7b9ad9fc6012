/** The whole run over all duplicate groups, in dry-run and in apply mode. */
module CollapseRun {
  import opened Ordering
  import opened Repoint
  import opened EvidenceArchive
  import opened CollapseBatch
  import opened CollapseLaws
  import opened DuplicateGroups

  datatype RunResult = RunResult(groupsSeen: nat, heldSkipped: nat, signalsDeleted: nat, deletedIds: seq<Id>)

  /** How many of `total` groups a run visits. */
  function Visited(total: nat, batchGroups: nat, limit: Option<int>): (n: nat)
    ensures n <= total
  {
    if batchGroups == 0 || (limit.Some? && limit.value <= 0) then 0
    else if limit.Some? && limit.value < total then limit.value
    else total
  }

  function Planned(signals: map<Id, Signal>, scope: Scope, n: nat): map<Id, Id>
    requires n <= |AllGroups(signals, scope)|
  {
    MappingOf(signals, Elements(AllGroups(signals, scope)[..n]))
  }

  /** Where a run stands after `n` groups: in apply mode the tables are the one-batch collapse of those
      groups, in dry-run mode they are the tables it started from. */
  ghost predicate Progress(t0: Tables, t: Tables, index: string, apply: bool, scope: Scope, n: nat) {
    n <= |AllGroups(t0.signals, scope)| &&
    if apply then Collapsed(t0, t, index, Planned(t0.signals, scope, n)) else t == t0
  }

  ghost function Gone(t0: Tables, apply: bool, scope: Scope, n: nat): set<Id>
    requires n <= |AllGroups(t0.signals, scope)|
  {
    if apply then Planned(t0.signals, scope, n).Keys else {}
  }

  lemma ProgressThins(t0: Tables, t: Tables, index: string, apply: bool, scope: Scope, n: nat)
    requires Progress(t0, t, index, apply, scope, n)
    ensures Thinned(t0.signals, t.signals, Gone(t0, apply, scope, n))
    ensures GoneFrom(t0.signals, Gone(t0, apply, scope, n), Elements(AllGroups(t0.signals, scope)[..n]))
  {
    if apply {
      hide AllGroups, Collapsed, Loses, SurvivorOf;
      CollapsedThins(t0, t, index, Planned(t0.signals, scope, n));
    }
  }

  /** What the next batch fetches and plans is what the original tables would have given. */
  lemma NextBatch(t0: Tables, t: Tables, index: string, apply: bool, scope: Scope, n: nat, lim: nat)
    requires Progress(t0, t, index, apply, scope, n)
    ensures var all := AllGroups(t0.signals, scope);
            var ks := all[n..][..if lim < |all| - n then lim else |all| - n];
            && FetchGroupBatch(t.signals, scope, if n == 0 then None else Some(all[n - 1]), lim) == ks
            && all[..n + |ks|] == all[..n] + ks
            && NoRepeats(ks) && (forall k | k in ks :: |GroupRows(t.signals, k)| > 1)
            && LosersOf(t0.signals, all[..n + |ks|]) == LosersOf(t0.signals, all[..n]) + LosersOf(t.signals, ks)
            && HeldCount(t0.signals, all[..n + |ks|]) == HeldCount(t0.signals, all[..n]) + HeldCount(t.signals, ks)
            && MappingOf(t.signals, Elements(ks)) == MappingOf(t0.signals, Elements(ks))
            && Elements(all[..n]) !! Elements(ks)
  {
    hide Collapsed, MappingOf, LosersOf, HeldCount, FetchGroupBatch, AllGroups, DuplicateKeys, GroupRows, Thinned,
        GoneFrom;
    var all := AllGroups(t0.signals, scope);
    var ks := all[n..][..if lim < |all| - n then lim else |all| - n];
    var gone := Gone(t0, apply, scope, n);
    var done := Elements(all[..n]);
    ProgressThins(t0, t, index, apply, scope, n);
    NextFetch(t0.signals, t.signals, gone, scope, n, lim);
    assert all[..n + |ks|] == all[..n] + ks;
    AllGroupsListed(t0.signals, scope);
    assert done !! Elements(ks);
    OtherListsUnchanged(t0.signals, t.signals, gone, done, scope, ks);
    OtherMappingUnchanged(t0.signals, t.signals, gone, done, Elements(ks));
    ListsConcatenate(t0.signals, all[..n], ks);
    forall k | k in ks ensures |GroupRows(t.signals, k)| > 1 {
      assert k in Elements(ks) && k in Elements(all);
      OtherGroupUnchanged(t0.signals, t.signals, gone, done, scope, k);
      DuplicateIffWanted(t0.signals, scope, k);
    }
  }

  /** One more applied batch, seen from the start of the run. */
  lemma BatchApplied(t0: Tables, t: Tables, u: Tables, index: string, scope: Scope, n: nat, k: nat)
    requires n + k <= |AllGroups(t0.signals, scope)|
    requires Collapsed(t0, t, index, Planned(t0.signals, scope, n))
    requires Collapsed(t, u, index, MappingOf(t0.signals, Elements(AllGroups(t0.signals, scope)[n..][..k])))
    ensures Collapsed(t0, u, index, Planned(t0.signals, scope, n + k))
  {
    hide Collapsed, MappingOf, AllGroups, Apart;
    var all := AllGroups(t0.signals, scope);
    AllGroupsListed(t0.signals, scope);
    var d1, d2 := Elements(all[..n]), Elements(all[n..][..k]);
    assert all[..n + k] == all[..n] + all[n..][..k];
    assert Elements(all[..n + k]) == d1 + d2;
    assert d1 !! d2;
    MappingsApart(t0.signals, d1, d2);
    CollapsedCompose(t0, t, u, index, MappingOf(t0.signals, d1), MappingOf(t0.signals, d2));
  }

  lemma {:induction false} LosersListed(signals: map<Id, Signal>, keys: seq<GroupKey>)
    requires NoRepeats(keys)
    ensures NoRepeats(LosersOf(signals, keys))
    ensures Elements(LosersOf(signals, keys)) == MappingOf(signals, Elements(keys)).Keys
  {
    hide Loses, SurvivorOf, LosersIn, GroupRows, Elect, MappingOf;
    if keys == [] {
      NothingMapped(signals);
      assert Elements(keys) == {};
    } else {
      var n := |keys| - 1;
      LosersListed(signals, keys[..n]);
      assert keys == keys[..n] + [keys[n]];
      assert Elements(keys) == Elements(keys[..n]) + {keys[n]};
      MappedKeys(signals, Elements(keys[..n]), keys[n]);
      ConcatenateDisjoint(LosersOf(signals, keys[..n]), LosersIn(signals, keys[n]));
    }
  }

  lemma MappedKeys(signals: map<Id, Signal>, done: set<GroupKey>, k: GroupKey)
    requires k !in done
    ensures NoRepeats(LosersIn(signals, k))
    ensures MappingOf(signals, done).Keys !! Elements(LosersIn(signals, k))
    ensures MappingOf(signals, done + {k}).Keys == MappingOf(signals, done).Keys + Elements(LosersIn(signals, k))
  {
    LosersInGroup(signals, k);
    hide Loses, SurvivorOf, LosersIn, GroupRows, Elect;
  }

  lemma BatchCount(signals: map<Id, Signal>, ks: seq<GroupKey>)
    requires NoRepeats(ks)
    ensures RowsAmong(signals, MappingOf(signals, Elements(ks)).Keys) == |LosersOf(signals, ks)|
    ensures MappingOf(signals, Elements(ks)) == map[] ==> LosersOf(signals, ks) == []
  {
    LosersListed(signals, ks);
    NoRepeatsSize(LosersOf(signals, ks));
    var m := MappingOf(signals, Elements(ks));
    assert m.Keys <= signals.Keys;
    assert signals.Keys * m.Keys == m.Keys;
  }

  lemma RunStart(t0: Tables, index: string, apply: bool, scope: Scope)
    ensures Progress(t0, t0, index, apply, scope, 0)
    ensures var none := AllGroups(t0.signals, scope)[..0];
            LosersOf(t0.signals, none) == [] && HeldCount(t0.signals, none) == 0
  {
    hide Collapsed, AllGroups;
    assert Elements(AllGroups(t0.signals, scope)[..0]) == {};
    NothingMapped(t0.signals);
    CollapsedByNothing(t0, index, Planned(t0.signals, scope, 0));
  }

  lemma RunStep(t0: Tables, t: Tables, u: Tables, index: string, apply: bool, scope: Scope, n: nat, k: nat)
    requires Progress(t0, t, index, apply, scope, n) && n + k <= |AllGroups(t0.signals, scope)|
    requires var m := MappingOf(t0.signals, Elements(AllGroups(t0.signals, scope)[n..][..k]));
             if m != map[] && apply then Collapsed(t, u, index, m) else u == t
    ensures Progress(t0, u, index, apply, scope, n + k)
  {
    hide Collapsed, AllGroups, MappingOf;
    if apply {
      var m := MappingOf(t0.signals, Elements(AllGroups(t0.signals, scope)[n..][..k]));
      if m == map[] {
        CollapsedByNothing(t, index, m);
      }
      BatchApplied(t0, t, u, index, scope, n, k);
    }
  }

  /** `run`: the visited groups, the ids reported as deleted and the counters depend only on the tables the
      run started from, the restrictions and the limit. Dry-run and apply therefore report the same ids, and
      so do any two batch sizes; and applying in batches leaves what one batch over all of them would. */
  method Run(db: Database, index: string, apply: bool, batchGroups: nat, limit: Option<int>, scope: Scope)
    returns (r: RunResult)
    modifies db
    ensures var s := old(db.signals);
            var all := AllGroups(s, scope);
            var n := Visited(|all|, batchGroups, limit);
            && r.groupsSeen == n
            && r.heldSkipped == HeldCount(s, all[..n])
            && r.deletedIds == LosersOf(s, all[..n])
            && r.signalsDeleted == (if apply then |r.deletedIds| else 0)
            && (r.groupsSeen < |all| ==> batchGroups == 0 || (limit.Some? && r.groupsSeen >= limit.value))
            && (limit.Some? && 0 < limit.value ==> r.groupsSeen <= limit.value)
            && (batchGroups == 0 || (limit.Some? && limit.value <= 0) ==> r.groupsSeen == 0)
            && Progress(old(db.Snapshot()), db.Snapshot(), index, apply, scope, n)
  {
    hide Collapsed, AllGroups, MappingOf, LosersOf, HeldCount, FetchGroupBatch, GroupRows, Progress, RowsAmong,
        RowsAdded, Elements,
         DuplicateKeys, NoRepeats;
    ghost var t0 := db.Snapshot();
    ghost var all := AllGroups(t0.signals, scope);
    ghost var n := 0;
    var seen, held, deleted, deletedIds := 0, 0, 0, [];
    var after := None;
    RunStart(t0, index, apply, scope);
    while true
      invariant seen == n <= |all| && Progress(t0, db.Snapshot(), index, apply, scope, n)
      invariant held == HeldCount(t0.signals, all[..n]) && deletedIds == LosersOf(t0.signals, all[..n])
      invariant deleted == if apply then |deletedIds| else 0
      invariant after == if n == 0 then None else Some(all[n - 1])
      invariant n <= Visited(|all|, batchGroups, limit)
      decreases |all| - n
    {
      var want: int := batchGroups;
      if limit.Some? {
        want := if limit.value - seen < want then limit.value - seen else want;
        if want <= 0 {
          break;
        }
      }
      NextBatch(t0, db.Snapshot(), index, apply, scope, n, want);
      var groups := FetchGroupBatch(db.signals, scope, after, want);
      if groups == [] {
        break;
      }
      after := Some(groups[|groups| - 1]);
      var m, losers, heldHere, seenHere := PlanBatch(db.signals, groups);
      ghost var t := db.Snapshot();
      BatchCount(db.signals, groups);
      if m != map[] && apply {
        MappingIsSubstitution(db.signals, Elements(groups));
        var counts := db.ApplyBatch(m, index);
        deleted := deleted + counts.signalsDeleted;
      }
      seen, held, deletedIds := seen + seenHere, held + heldHere, deletedIds + losers;
      RunStep(t0, t, db.Snapshot(), index, apply, scope, n, |groups|);
      n := n + |groups|;
    }
    r := RunResult(seen, held, deleted, deletedIds);
  }

  // What a finished run leaves for the next one.

  lemma MappedInGroup(s: map<Id, Signal>, done: set<GroupKey>, k: GroupKey, i: Id)
    requires k in done && i in GroupRows(s, k)
    ensures i in MappingOf(s, done) <==> i in Elements(LosersIn(s, k))
  {
    LosersInGroup(s, k);
    hide Loses, SurvivorOf, LosersIn;
  }

  lemma RowsLeft(s: map<Id, Signal>, t: map<Id, Signal>, done: set<GroupKey>, k: GroupKey)
    requires Thinned(s, t, MappingOf(s, done).Keys) && k in done
    ensures GroupRows(t, k) == GroupRows(s, k) - Elements(LosersIn(s, k))
  {
    hide LosersIn, Thinned, MappingOf, GroupRows, Elements;
    GroupRowsUntouched(s, t, MappingOf(s, done).Keys, k);
    forall i ensures i in GroupRows(s, k) - MappingOf(s, done).Keys <==>
        i in GroupRows(s, k) - Elements(LosersIn(s, k)) {
      if i in GroupRows(s, k) {
        MappedInGroup(s, done, k, i);
      }
    }
  }

  lemma SingletonRows(rows: set<Id>, x: Id)
    requires x in rows
    ensures |rows| <= 1 ==> rows == {x}
  {
    assert |rows - {x}| == |rows| - 1;
  }

  lemma LeftRows(s: map<Id, Signal>, rows: set<Id>, k: GroupKey)
    requires rows == GroupRows(s, k) && rows != {} && rows <= s.Keys
    ensures var e := Elect(s, rows);
            rows - Elements(LosersIn(s, k)) == if |rows| > 1 then {e.survivor} + Elements(e.held) else {e.survivor}
  {
    hide Elect, Newer, GroupRows, Elements;
    var e := Elect(s, rows);
    ElectSpec(s, rows);
    SingletonRows(rows, e.survivor);
    NoElements(LosersIn(s, k));
    assert |rows| > 1 ==> LosersIn(s, k) == e.losers;
  }

  lemma LeftRowsKept(s: map<Id, Signal>, rows: set<Id>, k: GroupKey, x: Id)
    requires rows == GroupRows(s, k) && rows != {} && rows <= s.Keys
    requires x in rows && x !in Elements(LosersIn(s, k)) && x != Elect(s, rows).survivor
    ensures Kept(s[x]) && Newer(s, Elect(s, rows).survivor, x)
  {
    var e := Elect(s, rows);
    ElectSpec(s, rows);
    SingletonRows(rows, e.survivor);
    hide Elect, Newer, Kept, GroupRows, Elements;
  }

  /** After an applied run each visited group is its survivor and its held rows: it elects the same
      survivor again and has no loser left. */
  lemma SettledGroup(s: map<Id, Signal>, t: map<Id, Signal>, done: set<GroupKey>, k: GroupKey)
    requires Thinned(s, t, MappingOf(s, done).Keys) && k in done && GroupRows(s, k) != {}
    ensures var e := Elect(s, GroupRows(s, k));
            && GroupRows(t, k) == (if |GroupRows(s, k)| > 1 then {e.survivor} + Elements(e.held) else {e.survivor})
            && Elect(t, GroupRows(t, k)).survivor == e.survivor
            && LosersIn(t, k) == []
  {
    hide MappingOf, LosersOf, Elements, SameRow, Elect, GroupRows, Newer, Kept;
    var rows, left := GroupRows(s, k), GroupRows(t, k);
    GroupRowsListed(s, k);
    GroupRowsListed(t, k);
    var e := Elect(s, rows);
    RowsLeft(s, t, done, k);
    LeftRows(s, rows, k);
    forall x | x in left ensures SameRow(s[x], t[x]) && (x != e.survivor ==> Kept(s[x]) && Newer(s, e.survivor, x)) {
      if x != e.survivor {
        LeftRowsKept(s, rows, k, x);
      }
    }
    SettledElection(s, t, left, e.survivor);
  }

  lemma GroupRowsListed(s: map<Id, Signal>, k: GroupKey)
    ensures GroupRows(s, k) <= s.Keys
  {
  }

  lemma SettledElection(s: map<Id, Signal>, t: map<Id, Signal>, left: set<Id>, x: Id)
    requires left <= t.Keys && left <= s.Keys && x in left
    requires forall y | y in left :: SameRow(s[y], t[y])
    requires forall y | y in left && y != x :: Kept(s[y]) && Newer(s, x, y)
    ensures Elect(t, left).survivor == x && Elect(t, left).losers == []
  {
    SurvivorUnique(t, left, x);
    ElectSpec(t, left);
    NoElements(Elect(t, left).losers);
  }

  lemma StillDuplicate(s: map<Id, Signal>, t: map<Id, Signal>, scope: Scope, k: GroupKey)
    requires Thinned(s, t, MappingOf(s, DuplicateKeys(s, scope)).Keys) && k in DuplicateKeys(t, scope)
    ensures k in DuplicateKeys(s, scope) && LosersIn(t, k) == []
  {
    hide MappingOf, LosersIn, DuplicateKeys, Elect;
    var gone := MappingOf(s, DuplicateKeys(s, scope)).Keys;
    DuplicateIffWanted(s, scope, k);
    DuplicateIffWanted(t, scope, k);
    GroupRowsUntouched(s, t, gone, k);
    assert GroupRows(t, k) <= GroupRows(s, k);
    assert |GroupRows(t, k)| + |GroupRows(s, k) - GroupRows(t, k)| == |GroupRows(s, k)|;
    SettledGroup(s, t, DuplicateKeys(s, scope), k);
  }

  lemma {:induction false} NoLosers(signals: map<Id, Signal>, ks: seq<GroupKey>)
    requires forall k | k in Elements(ks) :: LosersIn(signals, k) == []
    ensures LosersOf(signals, ks) == []
  {
    hide LosersIn;
    if ks != [] {
      var n := |ks| - 1;
      assert ks[n] in Elements(ks);
      NoLosers(signals, ks[..n]);
    }
  }

  lemma SameRowsByNothing<K, V>(before: map<K, V>, after: map<K, V>, f: K -> K, keep: K -> bool)
    requires Repointed(before, after, f, keep)
    requires forall k | k in before :: f(k) == k && keep(k)
    ensures after == before
  {
    forall k | k in after ensures k in before {
      assert ComesFrom(before, f, keep, k, after[k]);
    }
  }

  lemma RowsUnmoved(t: Tables, u: Tables, m: map<Id, Id>)
    requires m == map[]
    requires Repointed(t.links, u.links, MoveLink(m), KeepLink())
             && Repointed(t.aliases, u.aliases, MoveAlias(m), KeepAlias(m))
    ensures u.links == t.links && u.aliases == t.aliases
  {
    SameRowsByNothing(t.links, u.links, MoveLink(m), KeepLink());
    SameRowsByNothing(t.aliases, u.aliases, MoveAlias(m), KeepAlias(m));
  }

  lemma NothingCollapsed(t: Tables, u: Tables, index: string, m: map<Id, Id>)
    requires m == map[] && Collapsed(t, u, index, m)
    ensures u == t
  {
    hide Repointed, MoveLink, KeepLink, MoveAlias, KeepAlias, ColumnsMoved, LoserArraysDropped,
         ArchiveMoved, SignalsAfter, TombstonesAfter;
    RowsUnmoved(t, u, m);
    RowsByNothing(t, index, m);
    ArchiveByNothing(t.archive, m);
    ArraysByNothing(t.arrays, m);
    SignalsByNothing(t.signals, t.archive, m);
  }

  /** A second run over the tables a first run has collapsed finds no loser, so it changes nothing and
      reports nothing deleted. The groups it still sees are those the keep-set holds together. */
  lemma SecondRunIsNoop(t0: Tables, t: Tables, u: Tables, index: string, scope: Scope, apply: bool, n: nat)
    requires Progress(t0, t, index, true, scope, |AllGroups(t0.signals, scope)|)
    requires Progress(t, u, index, apply, scope, n)
    ensures DuplicateKeys(t.signals, scope) <= DuplicateKeys(t0.signals, scope)
    ensures LosersOf(t.signals, AllGroups(t.signals, scope)[..n]) == []
    ensures u == t
  {
    hide Collapsed, AllGroups, DuplicateKeys, MappingOf, Thinned, LosersIn, LosersOf;
    var all := AllGroups(t0.signals, scope);
    var again := AllGroups(t.signals, scope);
    assert all[..|all|] == all;
    ProgressThins(t0, t, index, true, scope, |all|);
    AllGroupsListed(t0.signals, scope);
    AllGroupsListed(t.signals, scope);
    forall k | k in DuplicateKeys(t.signals, scope)
      ensures k in DuplicateKeys(t0.signals, scope) && LosersIn(t.signals, k) == []
    {
      StillDuplicate(t0.signals, t.signals, scope, k);
    }
    assert Elements(again[..n]) <= Elements(again);
    NoLosers(t.signals, again[..n]);
    LosersListed(t.signals, again[..n]);
    if apply {
      assert Planned(t.signals, scope, n) == map[];
      NothingCollapsed(t, u, index, Planned(t.signals, scope, n));
    }
  }
}
