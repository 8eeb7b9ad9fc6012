/** Running the migration on the table its plan was made from: whether it goes through at all. */
module MigrationRun {
  import opened Ordering
  import opened MergePlan
  import opened MergeDraft
  import opened BuildPlan
  import opened MergeMigration
  import opened MergeLaws
  import opened MergeFixpoint

  /** Some cluster of the rows is merged. */
  ghost predicate MergesSome(c: Canon, rows: set<Row>) {
    DistinctIds(rows) && exists key | key in ClusterKeys(c, rows) :: OutcomeFor(c, rows, key).Merged?
  }

  lemma SomeLoser(c: Canon, rows: set<Row>, key: string)
    requires DistinctIds(rows) && key in ClusterKeys(c, rows) && OutcomeFor(c, rows, key).Merged?
    ensures PlanOf(c, rows).mergeMap != map[]
  {
    hide PlanOf, Decide;
    ClusterNotEmpty(c, rows, key);
    var members := Cluster(c, rows, key);
    DecideShape(c, members);
    var l := Member(OutcomeFor(c, rows, key).losers);
    InCluster(c, rows, key, l);
    ClusterRoles(c, rows, key, l);
    PlanPartitions(c, rows, l);
  }

  lemma LoserOfSome(c: Canon, rows: set<Row>)
    requires DistinctIds(rows) && PlanOf(c, rows).mergeMap != map[]
    ensures MergesSome(c, rows)
  {
    ValuesAreSurvivors(c, rows);
    var i := Member(PlanOf(c, rows).mergeMap.Keys);
    var r :| r in rows && r.id == i;
    hide *;
    PlanPartitions(c, rows, r);
    LoserOfMerge(c, rows, r);
  }

  lemma LoserOfMerge(c: Canon, rows: set<Row>, r: Row)
    requires DistinctIds(rows) && r in rows && RoleOf(c, rows, r) == Role.Loser
    ensures MergesSome(c, rows)
  {
    RoleInPart(c, rows, Role.Loser, r);
    hide RoleOf, OutcomeFor, ClusterKeys;
  }

  /** Running a plan on the well-formed table it was made from: it goes through exactly when some cluster is
      merged. When none is, nothing happens to the table, however much junk the plan lists. */
  method MigratePlanned(store: EntityStore, c: Canon, f: Frozen) returns (ok: bool)
    requires WellFormed(c, store.Snapshot())
    requires f == PlanFor(c, store.Snapshot()) && !Clashes(c, f.rewrites)
    modifies store
    ensures ok <==> MergesSome(c, Export(old(store.Snapshot())))
    ensures ok ==> Migrated(c, old(store.Snapshot()), store.Snapshot(), f) && WellFormed(c, store.Snapshot())
    ensures !ok ==> store.Snapshot() == old(store.Snapshot())
  {
    ghost var t := store.Snapshot();
    MergesWhenPlanned(c, t);
    PlanIsSound(c, t);
    assert LinksResolve(t) && SurvivorsLive(t, f);
    hide WellFormed, PlanFor, Clashes, Migrated, MergesSome, Sound, SurvivorsLive, Export;
    SurvivorsThere(t, f);
    ok := store.Migrate(c, f);
    if ok {
      MigrationPreserves(c, t, store.Snapshot(), f);
    }
  }

  lemma SurvivorsThere(t: Tables, f: Frozen)
    requires SurvivorsLive(t, f)
    ensures forall k | k in t.links && k.entity in f.mergeMap :: f.mergeMap[k.entity] in t.entities
  {
  }

  lemma MergesWhenPlanned(c: Canon, t: Tables)
    ensures PlanFor(c, t).mergeMap != map[] <==> MergesSome(c, Export(t))
  {
    ExportDistinct(t);
    hide PlanOf, OutcomeFor, ClusterKeys, Export, DistinctIds;
    if PlanFor(c, t).mergeMap != map[] {
      LoserOfSome(c, Export(t));
    }
    if MergesSome(c, Export(t)) {
      var key :| key in ClusterKeys(c, Export(t)) && OutcomeFor(c, Export(t), key).Merged?;
      SomeLoser(c, Export(t), key);
    }
  }

  /** Under a stable canon no plan made after a migration goes through: it has nothing left to merge, so what
      junk it finds stays. */
  method MigrateReplanned(store: EntityStore, c: Canon, t: Tables, f: Frozen) returns (ok: bool)
    requires Stable(c, Export(t)) && !Clashes(c, PlanFor(c, t).rewrites)
    requires Migrated(c, t, store.Snapshot(), PlanFor(c, t)) && WellFormed(c, store.Snapshot())
    requires f == PlanFor(c, store.Snapshot())
    modifies store
    ensures !ok && store.Snapshot() == old(store.Snapshot())
  {
    NothingLeftToMerge(c, t, store.Snapshot());
    MergesWhenPlanned(c, store.Snapshot());
    hide WellFormed, PlanFor, Clashes, Migrated, MergesSome, Stable, Export;
    ok := MigratePlanned(store, c, f);
  }

  lemma LoneRowJunked(c: Canon, r: Row)
    requires IsContentJunk(c, r.name)
    ensures DistinctIds({r}) && Decide(c, {r}) == Junked({r}, false)
  {
    assert DistinctIds({r});
    assert ElectSurvivor({r}) == r;
    hide IsContentJunk;
  }

  lemma LoneOutcome(c: Canon, r: Row)
    requires IsContentJunk(c, r.name) && !Skipped(ClusterKey(c, r))
    ensures DistinctIds({r}) && ClusterKey(c, r) in ClusterKeys(c, {r})
    ensures OutcomeFor(c, {r}, ClusterKey(c, r)) == Junked({r}, false)
  {
    LoneRowJunked(c, r);
    assert Cluster(c, {r}, ClusterKey(c, r)) == {r};
    hide Decide, IsContentJunk, ClusterKey, Skipped;
  }

  lemma LoneRole(c: Canon, r: Row)
    requires IsContentJunk(c, r.name) && !Skipped(ClusterKey(c, r))
    ensures DistinctIds({r}) && RoleOf(c, {r}, r) == Role.Junk
  {
    LoneOutcome(c, r);
    hide Decide, IsContentJunk, ClusterKey, OutcomeFor, Cluster;
    ClusterRoles(c, {r}, ClusterKey(c, r), r);
  }

  lemma IdsOfOne(r: Row)
    ensures Ids({r}) == {r.id}
  {
  }

  lemma LoneRowPlanned(c: Canon, r: Row)
    requires IsContentJunk(c, r.name) && !Skipped(ClusterKey(c, r))
    ensures DistinctIds({r})
    ensures var d := PlanOf(c, {r});
            d.mergeMap == map[] && d.rewrites == map[] && d.geo == map[] && d.junk == {r.id}
  {
    hide *;
    LoneRole(c, r);
    PlanPartitions(c, {r}, r);
    ValuesAreSurvivors(c, {r});
    PlanSetsApart(c, {r});
    IdsOfOne(r);
    assert PlanOf(c, {r}).survivors == {};
    NoLosers(PlanOf(c, {r}).mergeMap);
  }

  lemma NoLosers(m: map<string, string>)
    requires m.Values == {}
    ensures m == map[]
  {
    assert forall i | i in m :: m[i] in m.Values;
  }

  lemma ExportOfOne(t: Tables, id: string)
    requires t.entities.Keys == {id}
    ensures Export(t) == {RowOf(t, id)}
  {
  }

  lemma LoneTable(c: Canon, id: string, p: Profile)
    ensures WellFormed(c, Tables(map[id := p], map[], {}))
  {
  }

  lemma LonePlan(c: Canon, t: Tables, id: string)
    requires t.entities.Keys == {id}
    requires var name := t.entities[id].name;
             IsContentJunk(c, name) && !Skipped(c.fold(name)) && c.fold(name) != ""
    ensures PlanFor(c, t) == Frozen(map[], map[], {id}, map[])
  {
    ExportDistinct(t);
    ExportOfOne(t, id);
    hide PlanOf, IsContentJunk, Export, Skipped;
    LoneRowPlanned(c, RowOf(t, id));
  }

  /** A table of one row with a junk name: it is the only finding of the plan, and it stays. */
  lemma LoneJunk(c: Canon, id: string, p: Profile)
    requires IsContentJunk(c, p.name) && !Skipped(c.fold(p.name)) && c.fold(p.name) != ""
    ensures var t := Tables(map[id := p], map[], {});
            && WellFormed(c, t) && PlanFor(c, t) == Frozen(map[], map[], {id}, map[])
            && !MergesSome(c, Export(t))
  {
    var t := Tables(map[id := p], map[], {});
    LoneTable(c, id, p);
    hide *;
    LonePlan(c, t, id);
    MergesWhenPlanned(c, t);
  }
}
