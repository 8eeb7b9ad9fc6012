/** Planner and migration together: the plan of a table is fit to run on it, running it leaves nothing to
    merge, and running it twice changes nothing more when the canon is stable. */
module MergeFixpoint {
  import opened Ordering
  import opened Repoint
  import opened MergePlan
  import opened MergeDraft
  import opened BuildPlan
  import opened ClusterDecision
  import opened MergeMigration
  import opened MergeLaws
  import opened MergeRerun

  // The export of a table.

  function LinksAt(links: map<LinkKey, LinkRow>, id: string): set<LinkKey> {
    set k | k in links && k.entity == id
  }

  function RowOf(t: Tables, id: string): Row
    requires id in t.entities
  {
    var p := t.entities[id];
    Row(id, p.name, p.cls, p.source, p.createdAt, |LinksAt(t.links, id)|, p.geo)
  }

  function Export(t: Tables): set<Row> {
    set id | id in t.entities :: RowOf(t, id)
  }

  lemma ExportDistinct(t: Tables)
    ensures DistinctIds(Export(t))
    ensures forall id | id in t.entities :: RowOf(t, id) in Export(t)
    ensures forall r | r in Export(t) :: r.id in t.entities && r == RowOf(t, r.id)
  {
  }

  function FrozenOf(d: Draft): Frozen {
    Frozen(d.mergeMap, d.rewrites, d.junk, d.geo)
  }

  /** The decisions frozen from the export of `t`. */
  ghost function PlanFor(c: Canon, t: Tables): Frozen
  {
    ExportDistinct(t);
    FrozenOf(PlanOf(c, Export(t)))
  }

  // The plan says of each row exactly what its role is.

  lemma IdListed(rows: set<Row>, keys: set<string>, c: Canon, role: Role, r: Row)
    requires DistinctIds(rows) && r in rows && ClusterKey(c, r) in keys
    ensures r.id in Ids(WithRole(c, rows, keys, role)) <==> RoleOf(c, rows, r) == role
  {
    hide RoleOf;
    if r.id in Ids(WithRole(c, rows, keys, role)) {
      var q :| q in WithRole(c, rows, keys, role) && q.id == r.id;
      assert q == r;
    }
  }

  lemma KeyOfRow(c: Canon, rows: set<Row>, r: Row)
    requires r in rows
    ensures ClusterKey(c, r) in ClusterKeys(c, rows)
  {
  }

  /** Every row falls in exactly one class of the plan: junk, loser, survivor, held for review, protected, or
      untouched; a loser goes to the survivor of its own fold, which has at least as many links. */
  lemma PlanPartitions(c: Canon, rows: set<Row>, r: Row)
    requires DistinctIds(rows) && r in rows
    ensures var d := PlanOf(c, rows);
            var role := RoleOf(c, rows, r);
            && (r.id in d.junk <==> role == Role.Junk)
            && (r.id in d.mergeMap <==> role == Role.Loser)
            && (r.id in d.survivors <==> role == Role.Survivor)
            && (r.id in d.rewrites || r.id in d.geo ==> role == Role.Survivor)
            && ((exists k | k in d.ambiguousToken :: r in d.ambiguousToken[k].rows) <==> role == Role.Held)
            && ((exists k | k in d.ambiguousGeo :: r in d.ambiguousGeo[k].rows) <==> role == Role.Protected)
            && (role == Role.Loser ==>
                  exists s | s in rows :: s.id == d.mergeMap[r.id] && RoleOf(c, rows, s) == Role.Survivor
                                          && ClusterKey(c, s) == ClusterKey(c, r) && r.links <= s.links)
  {
    hide RoleOf, OutcomeFor, Records, Lists, ClusterKeys, Ids, WithRole, HoldFor;
    var keys := ClusterKeys(c, rows);
    var d := PlanOf(c, rows);
    PlanTallied(c, rows);
    KeyOfRow(c, rows, r);
    ListedRoles(c, rows, keys, d, r);
    TokenHeld(c, rows, keys, d, r);
    GeoHeld(c, rows, keys, d, r);
    if RoleOf(c, rows, r) == Role.Loser {
      LoserGoes(c, rows, keys, d, r);
    }
  }

  lemma ListedRoles(c: Canon, rows: set<Row>, keys: set<string>, d: Draft, r: Row)
    requires DistinctIds(rows) && r in rows && keys <= ClusterKeys(c, rows) && ClusterKey(c, r) in keys
             && Tallied(c, rows, keys, d)
    ensures r.id in d.junk <==> RoleOf(c, rows, r) == Role.Junk
    ensures r.id in d.mergeMap <==> RoleOf(c, rows, r) == Role.Loser
    ensures r.id in d.survivors <==> RoleOf(c, rows, r) == Role.Survivor
    ensures r.id in d.rewrites || r.id in d.geo ==> RoleOf(c, rows, r) == Role.Survivor
  {
    hide RoleOf, OutcomeFor, Records, ClusterKeys, Ids, WithRole, HoldFor, SumLinks, DistinctIds;
    IdListed(rows, keys, c, Role.Junk, r);
    IdListed(rows, keys, c, Role.Loser, r);
    IdListed(rows, keys, c, Role.Survivor, r);
  }

  lemma TokenHeld(c: Canon, rows: set<Row>, keys: set<string>, d: Draft, r: Row)
    requires DistinctIds(rows) && r in rows && keys <= ClusterKeys(c, rows) && ClusterKey(c, r) in keys
             && Tallied(c, rows, keys, d)
    ensures (exists k | k in d.ambiguousToken :: r in d.ambiguousToken[k].rows) <==> RoleOf(c, rows, r) == Role.Held
  {
    hide RoleOf, Decide, Lists, ClusterKeys, HoldFor, SurvivorEntries, LoserEntries;
    RoleInPart(c, rows, Role.Held, r);
    if k :| k in d.ambiguousToken && r in d.ambiguousToken[k].rows {
      assert Records(d, k, OutcomeFor(c, rows, k), HoldFor(c, rows, k));
      HeldInCluster(c, rows, k);
      hide OutcomeFor;
      assert r in Cluster(c, rows, k);
    }
    if RoleOf(c, rows, r) == Role.Held {
      var key := ClusterKey(c, r);
      assert Records(d, key, OutcomeFor(c, rows, key), HoldFor(c, rows, key));
      assert r in d.ambiguousToken[key].rows;
    }
  }

  lemma HeldInCluster(c: Canon, rows: set<Row>, k: string)
    requires DistinctIds(rows) && k in ClusterKeys(c, rows) && OutcomeFor(c, rows, k).HeldForReview?
    ensures OutcomeFor(c, rows, k).rows <= Cluster(c, rows, k)
  {
    ClusterNotEmpty(c, rows, k);
    DecideShape(c, Cluster(c, rows, k));
    hide Decide;
  }

  lemma GeoHeld(c: Canon, rows: set<Row>, keys: set<string>, d: Draft, r: Row)
    requires DistinctIds(rows) && r in rows && keys <= ClusterKeys(c, rows) && ClusterKey(c, r) in keys
             && Tallied(c, rows, keys, d)
    ensures (exists k | k in d.ambiguousGeo :: r in d.ambiguousGeo[k].rows) <==> RoleOf(c, rows, r) == Role.Protected
  {
    hide Decide, Lists, ClusterKeys, SurvivorEntries, LoserEntries, MayBeHomonym, SharedSurface, SharedSurfaces,
        OutcomeFor;
    var key := ClusterKey(c, r);
    if k :| k in d.ambiguousGeo && r in d.ambiguousGeo[k].rows {
      assert Records(d, k, OutcomeFor(c, rows, k), HoldFor(c, rows, k));
      assert r in Cluster(c, rows, k);
    }
    assert Records(d, key, OutcomeFor(c, rows, key), HoldFor(c, rows, key));
  }

  lemma LoserGoes(c: Canon, rows: set<Row>, keys: set<string>, d: Draft, r: Row)
    requires DistinctIds(rows) && r in rows && keys <= ClusterKeys(c, rows) && ClusterKey(c, r) in keys
             && Tallied(c, rows, keys, d)
    requires RoleOf(c, rows, r) == Role.Loser
    ensures r.id in d.mergeMap
    ensures exists s | s in rows :: s.id == d.mergeMap[r.id] && RoleOf(c, rows, s) == Role.Survivor
                                    && ClusterKey(c, s) == ClusterKey(c, r) && r.links <= s.links
  {
    hide RoleOf, Lists, ClusterKeys, SurvivorEntries, Decide, ProtectedRows;
    var key := ClusterKey(c, r);
    var o := OutcomeFor(c, rows, key);
    RoleInPart(c, rows, Role.Loser, r);
    assert Records(d, key, o, HoldFor(c, rows, key));
    OutcomeInCluster(c, rows, key);
    RoleInPart(c, rows, Role.Survivor, o.survivor);
    DecideShape(c, Cluster(c, rows, key));
    assert o.survivor in rows && o.survivor.id == d.mergeMap[r.id];
  }

  // The plan is fit to be run.

  lemma JunkedCluster(c: Canon, rows: set<Row>, r: Row)
    requires DistinctIds(rows) && r in rows && RoleOf(c, rows, r) == Role.Junk
    ensures var members := Cluster(c, rows, ClusterKey(c, r));
            && members != {} && DistinctIds(members)
            && Decide(c, members).Junked? && r in Decide(c, members).rows
  {
    var key := ClusterKey(c, r);
    assert r in Cluster(c, rows, key);
    assert !Skipped(key);
    ClusterRoles(c, rows, key, r);
    hide Decide, ProtectedRows, RoleOf;
  }

  /** Nothing is deleted as junk without cause. Either the row's own name is flagged, and then either has
      markup in it or is more than a short abbreviation, or the same holds without markup for what the
      best-linked row of its cluster would have been shown as, with or without its leading article. */
  lemma JunkIsWarranted(c: Canon, rows: set<Row>, r: Row)
    requires DistinctIds(rows) && r in rows && r.id in PlanOf(c, rows).junk
    ensures || (c.isJunk(r.name) && (HasMarkup(r.name) || |c.stripName(r.name)| > 2))
            || exists s | s in rows :: ClusterKey(c, s) == ClusterKey(c, r) && r.links <= s.links
                && SurvivorIsJunk(c, SurvivorName(c, s))
  {
    PlanPartitions(c, rows, r);
    hide PlanOf, SurvivorIsJunk, SurvivorName;
    JunkedCluster(c, rows, r);
    var key := ClusterKey(c, r);
    hide Decide;
    JunkedFor(c, Cluster(c, rows, key), r);
  }

  lemma ValuesAreSurvivors(c: Canon, rows: set<Row>)
    requires DistinctIds(rows)
    ensures PlanOf(c, rows).mergeMap.Values == PlanOf(c, rows).survivors
    ensures PlanOf(c, rows).mergeMap.Keys <= Ids(rows) && PlanOf(c, rows).junk <= Ids(rows)
            && PlanOf(c, rows).survivors <= Ids(rows)
  {
    hide RoleOf, OutcomeFor, Records, ClusterKeys, HoldFor, DistinctIds;
    var d, keys := PlanOf(c, rows), ClusterKeys(c, rows);
    PlanTallied(c, rows);
    WithRoleAreRows(c, rows, keys, "");
    IdsMonotone(WithRole(c, rows, keys, Role.Junk), rows);
    IdsMonotone(WithRole(c, rows, keys, Role.Loser), rows);
    IdsMonotone(WithRole(c, rows, keys, Role.Survivor), rows);
    forall i | i in d.mergeMap ensures d.mergeMap[i] in d.survivors {
      var r := IdWith(c, rows, keys, Role.Loser, i);
      LoserGoes(c, rows, keys, d, r);
      var s :| s in rows && s.id == d.mergeMap[r.id] && RoleOf(c, rows, s) == Role.Survivor;
      KeyOfRow(c, rows, s);
      IdListed(rows, keys, c, Role.Survivor, s);
    }
    forall i | i in d.survivors ensures i in d.mergeMap.Values {
      var s := IdWith(c, rows, keys, Role.Survivor, i);
      KeyOfRow(c, rows, s);
      SurvivorHasLoser(c, rows, keys, d, s);
    }
  }

  lemma IdsMonotone(a: set<Row>, b: set<Row>)
    requires a <= b
    ensures Ids(a) <= Ids(b)
  {
  }

  lemma IdWith(c: Canon, rows: set<Row>, keys: set<string>, role: Role, i: string) returns (r: Row)
    requires DistinctIds(rows) && i in Ids(WithRole(c, rows, keys, role))
    ensures r in rows && r.id == i && ClusterKey(c, r) in keys && RoleOf(c, rows, r) == role
  {
    hide RoleOf;
    r :| r in WithRole(c, rows, keys, role) && r.id == i;
  }

  lemma SurvivorHasLoser(c: Canon, rows: set<Row>, keys: set<string>, d: Draft, s: Row)
    requires DistinctIds(rows) && s in rows && keys <= ClusterKeys(c, rows) && ClusterKey(c, s) in keys
             && Tallied(c, rows, keys, d)
    requires RoleOf(c, rows, s) == Role.Survivor
    ensures s.id in d.mergeMap.Values
  {
    hide RoleOf, Lists, ClusterKeys, SurvivorEntries, Decide, ProtectedRows;
    var key := ClusterKey(c, s);
    var o := OutcomeFor(c, rows, key);
    RoleInPart(c, rows, Role.Survivor, s);
    assert Records(d, key, o, HoldFor(c, rows, key));
    DecideShape(c, Cluster(c, rows, key));
    var l :| l in o.losers;
    assert d.mergeMap[l.id] == s.id;
  }

  lemma PlanSetsApart(c: Canon, rows: set<Row>)
    requires DistinctIds(rows)
    ensures var d := PlanOf(c, rows);
            && d.survivors !! d.mergeMap.Keys && d.junk !! d.mergeMap.Keys && d.junk !! d.survivors
            && d.rewrites.Keys <= d.survivors && d.geo.Keys <= d.survivors
  {
    hide RoleOf, OutcomeFor, Records, ClusterKeys, HoldFor, DistinctIds, WithRole, PlanOf, SumLinks, Ids;
    var keys := ClusterKeys(c, rows);
    PlanTallied(c, rows);
    RolesApart(c, rows, keys, Role.Survivor, Role.Loser);
    RolesApart(c, rows, keys, Role.Loser, Role.Junk);
    RolesApart(c, rows, keys, Role.Survivor, Role.Junk);
  }

  /** When the planner does not abort, its decisions are sound and every row they name is in the table. */
  lemma PlanIsSound(c: Canon, t: Tables)
    requires !Clashes(c, PlanFor(c, t).rewrites)
    ensures Sound(c, PlanFor(c, t)) && SurvivorsLive(t, PlanFor(c, t))
    ensures PlanFor(c, t).mergeMap.Keys + PlanFor(c, t).junk <= t.entities.Keys
  {
    hide PlanOf, Export, DistinctIds, Ids;
    ExportDistinct(t);
    PlanSetsApart(c, Export(t));
    ValuesAreSurvivors(c, Export(t));
    ExportIds(t);
    var f := PlanFor(c, t);
    forall i | i in f.mergeMap ensures f.mergeMap[i] in f.mergeMap.Values {
    }
  }

  lemma ExportIds(t: Tables)
    ensures Ids(Export(t)) == t.entities.Keys
  {
    ExportDistinct(t);
    forall id | id in t.entities ensures id in Ids(Export(t)) {
      assert RowOf(t, id) in Export(t) && RowOf(t, id).id == id;
    }
  }

  // What the migration leaves of each row and cluster.

  lemma LinkStays(links: map<LinkKey, LinkRow>, after: map<LinkKey, LinkRow>, f: Frozen, k: LinkKey)
    requires Repointed(links, after, MoveEntity(f.mergeMap), SurvivingLink(f.mergeMap, f.junk))
    requires k.entity !in f.mergeMap && k.entity !in f.mergeMap.Values && k.entity !in f.junk
    ensures k in after <==> k in links
  {
    if k in after {
      assert ComesFrom(links, MoveEntity(f.mergeMap), SurvivingLink(f.mergeMap, f.junk), k, after[k]);
      var k0 :| k0 in links && SurvivingLink(f.mergeMap, f.junk)(k0) && MoveEntity(f.mergeMap)(k0) == k
          && links[k0] == after[k];
      hide Repointed;
      assert k0 == k;
    }
    if k in links {
      assert MoveEntity(f.mergeMap)(k) == k && SurvivingLink(f.mergeMap, f.junk)(k);
    }
  }

  lemma LinksAtStay(links: map<LinkKey, LinkRow>, after: map<LinkKey, LinkRow>, f: Frozen, id: string)
    requires Repointed(links, after, MoveEntity(f.mergeMap), SurvivingLink(f.mergeMap, f.junk))
    requires id !in f.mergeMap && id !in f.mergeMap.Values && id !in f.junk
    ensures LinksAt(after, id) == LinksAt(links, id)
  {
    hide Repointed;
    forall k ensures k in LinksAt(after, id) <==> k in LinksAt(links, id) {
      if k.entity == id {
        LinkStays(links, after, f, k);
      }
    }
  }

  lemma OtherLinksStay(c: Canon, t: Tables, u: Tables, f: Frozen, id: string)
    requires Migrated(c, t, u, f) && id in u.entities && id !in f.mergeMap.Values
    ensures LinksAt(u.links, id) == LinksAt(t.links, id)
  {
    hide Migrated, Repointed, LinksAt;
    EntitiesLeft(c, t, u, f);
    MigratedParts(c, t, u, f);
    LinksAtStay(t.links, u.links, f, id);
  }

  lemma OtherProfilesStay(c: Canon, t: Tables, u: Tables, f: Frozen, id: string)
    requires Sound(c, f) && Migrated(c, t, u, f) && id in u.entities && id in t.entities && id !in f.mergeMap.Values
    ensures u.entities[id].name == t.entities[id].name && u.entities[id].cls == t.entities[id].cls
    ensures u.entities[id].source == t.entities[id].source && u.entities[id].createdAt == t.entities[id].createdAt
    ensures u.entities[id].geo == t.entities[id].geo
  {
    hide Repointed, FilledGeo, Blocked, Versioned, BelowMergeRow, VersionsWithout, LiveLosers;
  }

  lemma OtherRowsStay(c: Canon, t: Tables, u: Tables, f: Frozen, id: string)
    requires Sound(c, f) && Migrated(c, t, u, f) && id in u.entities && id !in f.mergeMap.Values
    ensures id in t.entities && RowOf(u, id) == RowOf(t, id)
  {
    hide Sound, Migrated;
    EntitiesLeft(c, t, u, f);
    OtherLinksStay(c, t, u, f, id);
    OtherProfilesStay(c, t, u, f, id);
  }

  /** The canon is stable on a table: the name a survivor is shown under folds as its stored name does. */
  ghost predicate Stable(c: Canon, rows: set<Row>) {
    DistinctIds(rows) && forall r | r in rows && RoleOf(c, rows, r) == Role.Survivor ::
        c.fold(SurvivorName(c, r)) == c.fold(r.name)
  }

  lemma NameAfter(c: Canon, t: Tables, u: Tables, f: Frozen, id: string)
    requires Migrated(c, t, u, f) && id in u.entities
    ensures id in t.entities
    ensures u.entities[id].name == t.entities[id].name
            || (id in f.rewrites && u.entities[id].name == f.rewrites[id].name)
  {
    NamesBeforeRewrite(c, t, f);
    hide Repointed, BeforeRewrite, Blocked, Versioned, VersionsWithout;
  }

  lemma RewriteNames(c: Canon, rows: set<Row>, i: string) returns (s: Row)
    requires DistinctIds(rows) && i in PlanOf(c, rows).rewrites
    ensures s in rows && s.id == i && RoleOf(c, rows, s) == Role.Survivor && !Skipped(ClusterKey(c, s))
    ensures PlanOf(c, rows).rewrites[i].name == SurvivorName(c, s)
  {
    hide RoleOf, OutcomeFor, ClusterKeys, HoldFor, DistinctIds, Ids, WithRole, DraftFor, Lists, LoserEntries, SumLinks;
    var keys, d := ClusterKeys(c, rows), PlanOf(c, rows);
    PlanTallied(c, rows);
    RewriteIsSurvivor(c, rows, keys, d, i);
    s := IdWith(c, rows, keys, Role.Survivor, i);
    KeyOfRow(c, rows, s);
    var key := ClusterKey(c, s);
    assert Records(d, key, OutcomeFor(c, rows, key), HoldFor(c, rows, key));
    RoleInPart(c, rows, Role.Survivor, s);
    OutcomeInCluster(c, rows, key);
    MergedName(c, rows, key);
  }

  lemma RewriteIsSurvivor(c: Canon, rows: set<Row>, keys: set<string>, d: Draft, i: string)
    requires DistinctIds(rows) && keys <= ClusterKeys(c, rows) && Tallied(c, rows, keys, d) && i in d.rewrites
    ensures i in Ids(WithRole(c, rows, keys, Role.Survivor))
  {
    hide WithRole, Ids, Records, SumLinks, OutcomeFor, HoldFor, ClusterKeys;
  }

  lemma MergedName(c: Canon, rows: set<Row>, key: string)
    requires DistinctIds(rows) && key in ClusterKeys(c, rows) && OutcomeFor(c, rows, key).Merged?
    ensures OutcomeFor(c, rows, key).name == SurvivorName(c, OutcomeFor(c, rows, key).survivor)
  {
    hide SurvivorName, SurvivorIsJunk, ManualHomonym, SurvivorClass, GeoFill, ProtectedRows, ProtectedSlots,
        IsContentJunk;
  }

  /** Under a stable canon no row leaves its cluster. */
  lemma KeysStay(c: Canon, t: Tables, u: Tables, id: string)
    requires Stable(c, Export(t)) && Migrated(c, t, u, PlanFor(c, t)) && id in u.entities
    ensures id in t.entities && ClusterKey(c, RowOf(u, id)) == ClusterKey(c, RowOf(t, id))
  {
    hide Migrated, PlanOf, SurvivorName;
    ExportDistinct(t);
    NameAfter(c, t, u, PlanFor(c, t), id);
    if u.entities[id].name != t.entities[id].name {
      var s := RewriteNames(c, Export(t), id);
      assert s == RowOf(t, id);
      FoldNotEmpty(c, s);
    }
  }

  lemma FoldNotEmpty(c: Canon, r: Row)
    requires !Skipped(ClusterKey(c, r))
    ensures c.fold(r.name) != ""
  {
    assert SINGLETON <= SINGLETON + r.id;
  }

  // Nothing is left to merge.

  lemma ProtectedMonotone(c: Canon, some: set<Row>, all: set<Row>)
    requires some <= all
    ensures ProtectedRows(c, some) <= ProtectedRows(c, all)
  {
    forall s ensures SharedSurface(c, some, s) ==> SharedSurface(c, all, s) {
      forall cls ensures RowsAt(c, some, s, cls) <= RowsAt(c, all, s, cls) {
      }
    }
  }

  /** Protected rows protect each other: on their own they are all still protected. */
  lemma ProtectedAlone(c: Canon, members: set<Row>)
    ensures ProtectedRows(c, ProtectedRows(c, members)) == ProtectedRows(c, members)
  {
    var p := ProtectedRows(c, members);
    forall m | m in p ensures SharedSurface(c, p, Surface(c, m)) {
      var s := Surface(c, m);
      forall cls ensures RowsAt(c, p, s, cls) == RowsAt(c, members, s, cls) {
      }
    }
  }

  /** A cluster of protected rows and at most one other row is never merged. */
  lemma NothingToMerge(c: Canon, members: set<Row>, before: set<Row>, last: set<Row>)
    requires members != {} && DistinctIds(members)
    requires ProtectedRows(c, before) <= members <= ProtectedRows(c, before) + last && |last| <= 1
    ensures !Decide(c, members).Merged?
  {
    hide Decide, ProtectedRows;
    DecideShape(c, members);
    ProtectedAlone(c, before);
    ProtectedMonotone(c, ProtectedRows(c, before), members);
    var rest := Mergeable(c, members);
    assert rest <= last;
    assert |rest| + |last - rest| == |last| by {
      assert rest + (last - rest) == last;
    }
  }

  lemma ClusterAfter(c: Canon, t: Tables, u: Tables, key: string, r: Row)
    requires Stable(c, Export(t)) && Migrated(c, t, u, PlanFor(c, t)) && r in Cluster(c, Export(u), key)
    ensures r.id in t.entities && RowOf(t, r.id) in Cluster(c, Export(t), key)
    ensures r == RowOf(u, r.id) && r.id !in PlanFor(c, t).mergeMap && r.id !in PlanFor(c, t).junk
  {
    hide Migrated, PlanOf, Stable;
    ExportDistinct(t);
    ExportDistinct(u);
    EntitiesLeft(c, t, u, PlanFor(c, t));
    KeysStay(c, t, u, r.id);
  }

  lemma ClusterStill(c: Canon, t: Tables, u: Tables, key: string, r: Row)
    requires Stable(c, Export(t)) && Migrated(c, t, u, PlanFor(c, t)) && r in Cluster(c, Export(t), key)
    requires r.id !in PlanFor(c, t).mergeMap && r.id !in PlanFor(c, t).junk
    ensures r.id in u.entities && RowOf(u, r.id) in Cluster(c, Export(u), key)
  {
    hide Migrated, PlanOf, Stable;
    ExportDistinct(t);
    ExportDistinct(u);
    EntitiesLeft(c, t, u, PlanFor(c, t));
    KeysStay(c, t, u, r.id);
  }

  /** In a cluster the rows that were neither merged nor deleted are exactly as they were. */
  lemma UnmergedRow(c: Canon, t: Tables, u: Tables, r: Row)
    requires !Clashes(c, PlanFor(c, t).rewrites) && Migrated(c, t, u, PlanFor(c, t)) && r in Export(t)
    requires RoleOfExported(c, t, r) !in {Role.Junk, Role.Loser, Role.Survivor}
    ensures r.id in u.entities && RowOf(u, r.id) == r && r.id !in PlanFor(c, t).mergeMap && r.id !in PlanFor(c, t).junk
  {
    hide Migrated, PlanOf, RoleOf;
    ExportDistinct(t);
    EntitiesLeft(c, t, u, PlanFor(c, t));
    PlanPartitions(c, Export(t), r);
    ValuesAreSurvivors(c, Export(t));
    PlanIsSound(c, t);
    OtherRowsStay(c, t, u, PlanFor(c, t), r.id);
  }

  ghost function RoleOfExported(c: Canon, t: Tables, r: Row): Role
    requires r in Export(t)
  {
    ExportDistinct(t);
    RoleOf(c, Export(t), r)
  }

  /** What is left of a cluster: its rows that were neither merged away nor junk, and of a merged cluster the
      survivor beside the protected rows. */
  lemma ClusterLeft(c: Canon, t: Tables, u: Tables, key: string, r: Row)
    requires Stable(c, Export(t)) && !Clashes(c, PlanFor(c, t).rewrites) && Migrated(c, t, u, PlanFor(c, t))
    requires !Skipped(key) && r in Cluster(c, Export(u), key) && DistinctIds(Export(t))
             && key in ClusterKeys(c, Export(t))
    ensures var before, o := Cluster(c, Export(t), key), OutcomeFor(c, Export(t), key);
            && (o.Untouched? || o.HeldForReview? ==> r in before)
            && (o.Junked? ==> |before| > 1 && r in ProtectedRows(c, before))
            && (o.Merged? ==>
                  r in ProtectedRows(c, before)
                  || (o.survivor.id in u.entities && r == RowOf(u, o.survivor.id)))
  {
    hide Migrated, PlanOf, Stable, Decide, ProtectedRows;
    ClusterAfter(c, t, u, key, r);
    ExportDistinct(t);
    var q := RowOf(t, r.id);
    var before := Cluster(c, Export(t), key);
    PlanPartitions(c, Export(t), q);
    ClusterRoles(c, Export(t), key, q);
    ClusterNotEmpty(c, Export(t), key);
    DecideShape(c, before);
    if RoleOf(c, Export(t), q) != Role.Survivor {
      UnmergedRow(c, t, u, q);
    }
    if |before| == 1 {
      OnlyMember(before, q);
    }
    hide OutcomeFor, RoleOf;
  }

  lemma ClusterKept(c: Canon, t: Tables, u: Tables, key: string, r: Row)
    requires Stable(c, Export(t)) && !Clashes(c, PlanFor(c, t).rewrites) && Migrated(c, t, u, PlanFor(c, t))
    requires r in Cluster(c, Export(t), key) && RoleOfExported(c, t, r) !in {Role.Junk, Role.Loser, Role.Survivor}
    ensures r in Cluster(c, Export(u), key)
  {
    hide Migrated, PlanOf, Stable, Decide, ProtectedRows, RoleOf;
    UnmergedRow(c, t, u, r);
    ClusterStill(c, t, u, key, r);
  }

  lemma SameClusterSameOutcome(c: Canon, t: Tables, u: Tables, key: string)
    requires Stable(c, Export(t)) && !Clashes(c, PlanFor(c, t).rewrites) && Migrated(c, t, u, PlanFor(c, t))
    requires !Skipped(key) && DistinctIds(Export(t)) && key in ClusterKeys(c, Export(t))
    requires OutcomeFor(c, Export(t), key).Untouched? || OutcomeFor(c, Export(t), key).HeldForReview?
    ensures Cluster(c, Export(u), key) == Cluster(c, Export(t), key)
  {
    hide Migrated, PlanOf, Stable, Decide, ProtectedRows, RoleOf, Cluster, OutcomeFor, Export, DistinctIds, ClusterKeys;
    var before, after := Cluster(c, Export(t), key), Cluster(c, Export(u), key);
    forall r | r in after ensures r in before {
      ClusterLeft(c, t, u, key, r);
    }
    forall r | r in before ensures r in after {
      InCluster(c, Export(t), key, r);
      ClusterRoles(c, Export(t), key, r);
      ClusterKept(c, t, u, key, r);
    }
  }

  lemma InCluster(c: Canon, rows: set<Row>, key: string, r: Row)
    requires r in Cluster(c, rows, key)
    ensures r in rows && ClusterKey(c, r) == key
  {
  }

  lemma ProtectedKept(c: Canon, t: Tables, u: Tables, key: string)
    requires Stable(c, Export(t)) && !Clashes(c, PlanFor(c, t).rewrites) && Migrated(c, t, u, PlanFor(c, t))
    requires !Skipped(key) && DistinctIds(Export(t)) && key in ClusterKeys(c, Export(t))
             && |Cluster(c, Export(t), key)| > 1
    ensures ProtectedRows(c, Cluster(c, Export(t), key)) <= Cluster(c, Export(u), key)
  {
    hide Migrated, PlanOf, Stable, Decide, MayBeHomonym, SharedSurface, RoleOf, OutcomeFor, Export, DistinctIds,
        ClusterKeys, Cluster;
    var before := Cluster(c, Export(t), key);
    forall r | r in ProtectedRows(c, before) ensures r in Cluster(c, Export(u), key) {
      InCluster(c, Export(t), key, r);
      ClusterRoles(c, Export(t), key, r);
      ClusterKept(c, t, u, key, r);
    }
  }

  lemma NotMergedAgain(c: Canon, t: Tables, u: Tables, key: string)
    requires Stable(c, Export(t)) && !Clashes(c, PlanFor(c, t).rewrites) && Migrated(c, t, u, PlanFor(c, t))
    requires DistinctIds(Export(u)) && key in ClusterKeys(c, Export(u))
    ensures !OutcomeFor(c, Export(u), key).Merged?
  {
    hide Migrated, PlanOf, Stable, Decide, ProtectedRows, Clashes;
    ExportDistinct(t);
    ClusterNotEmpty(c, Export(u), key);
    if !Skipped(key) {
      var after := Cluster(c, Export(u), key);
      var r :| r in after;
      ClusterAfter(c, t, u, key, r);
      KeyOfRow(c, Export(t), RowOf(t, r.id));
      var before, o := Cluster(c, Export(t), key), OutcomeFor(c, Export(t), key);
      if o.Untouched? || o.HeldForReview? {
        SameClusterSameOutcome(c, t, u, key);
      } else {
        RestNotMerged(c, t, u, key);
      }
    }
  }

  lemma RestNotMerged(c: Canon, t: Tables, u: Tables, key: string)
    requires Stable(c, Export(t)) && !Clashes(c, PlanFor(c, t).rewrites) && Migrated(c, t, u, PlanFor(c, t))
    requires DistinctIds(Export(t)) && !Skipped(key) && key in ClusterKeys(c, Export(t))
    requires OutcomeFor(c, Export(t), key).Junked? || OutcomeFor(c, Export(t), key).Merged?
    requires Cluster(c, Export(u), key) != {} && DistinctIds(Cluster(c, Export(u), key))
    ensures !Decide(c, Cluster(c, Export(u), key)).Merged?
  {
    hide Migrated, PlanOf, Stable, Decide, ProtectedRows, Clashes, OutcomeFor, Cluster, Export, DistinctIds,
        ClusterKeys;
    var before, after, o := Cluster(c, Export(t), key), Cluster(c, Export(u), key), OutcomeFor(c, Export(t), key);
    var last := if o.Merged? && o.survivor.id in u.entities then {RowOf(u, o.survivor.id)} else {};
    forall r | r in after ensures |before| > 1 && r in ProtectedRows(c, before) + last {
      ClusterLeft(c, t, u, key, r);
      MergedHasSeveral(c, t, key);
    }
    ProtectedKept(c, t, u, key);
    NothingToMerge(c, after, before, last);
  }

  lemma MergedHasSeveral(c: Canon, t: Tables, key: string)
    requires DistinctIds(Export(t)) && key in ClusterKeys(c, Export(t))
    ensures OutcomeFor(c, Export(t), key).Merged? ==> |Cluster(c, Export(t), key)| > 1
  {
    ClusterNotEmpty(c, Export(t), key);
    DecideShape(c, Cluster(c, Export(t), key));
    hide Decide;
  }

  lemma NoLoserLeft(c: Canon, t: Tables, u: Tables)
    requires Stable(c, Export(t)) && !Clashes(c, PlanFor(c, t).rewrites) && Migrated(c, t, u, PlanFor(c, t))
    ensures PlanFor(c, u).mergeMap == map[]
  {
    hide Migrated, Stable, RoleOf, OutcomeFor, HoldFor, Records, ClusterKeys, Ids, DistinctIds, SumLinks, WithRole,
        Export, DraftFor;
    ExportDistinct(u);
    var rows, d := Export(u), PlanOf(c, Export(u));
    PlanTallied(c, rows);
    if d.mergeMap.Keys != {} {
      var i := Member(d.mergeMap.Keys);
      var r := IdWith(c, rows, ClusterKeys(c, rows), Role.Loser, i);
      KeyOfRow(c, rows, r);
      RoleInPart(c, rows, Role.Loser, r);
      NotMergedAgain(c, t, u, ClusterKey(c, r));
      assert false;
    }
  }

  /** Planning again after the migration finds nothing to merge, even where rewrites were blocked, as long as
      the canon is stable on the names of the table. In particular the second planner does not abort. */
  lemma NothingLeftToMerge(c: Canon, t: Tables, u: Tables)
    requires Stable(c, Export(t)) && !Clashes(c, PlanFor(c, t).rewrites) && Migrated(c, t, u, PlanFor(c, t))
    ensures var again := PlanFor(c, u);
            again.mergeMap == map[] && again.rewrites == map[] && again.geo == map[] && !Clashes(c, again.rewrites)
  {
    hide Migrated, Stable, DistinctIds, Export, PlanOf;
    ExportDistinct(u);
    NoLoserLeft(c, t, u);
    ValuesAreSurvivors(c, Export(u));
    PlanSetsApart(c, Export(u));
    NoValues(PlanOf(c, Export(u)).mergeMap);
  }

  lemma NoValues(m: map<string, string>)
    requires m == map[]
    ensures m.Values == {}
  {
  }

  // A canon that also ignores letter case.

  /** A name a survivor is shown under, and a stored name or another such name that the slot index cannot
      tell apart from it, fold alike. */
  ghost predicate CaseBlind(c: Canon, rows: set<Row>) {
    && DistinctIds(rows)
    && (forall a, b | a in rows && b in rows && RoleOf(c, rows, a) == Role.Survivor ::
          SameUpToCase(c, SurvivorName(c, a), b.name) ==> c.fold(SurvivorName(c, a)) == c.fold(b.name))
    && (forall a, b | a in rows && b in rows && RoleOf(c, rows, a) == Role.Survivor
        && RoleOf(c, rows, b) == Role.Survivor ::
          SameUpToCase(c, SurvivorName(c, a), SurvivorName(c, b)) ==>
            c.fold(SurvivorName(c, a)) == c.fold(SurvivorName(c, b)))
  }


  lemma SameFoldSameKey(c: Canon, a: Row, b: Row)
    requires !Skipped(ClusterKey(c, a)) && c.fold(a.name) == c.fold(b.name)
    ensures ClusterKey(c, a) == ClusterKey(c, b)
  {
    FoldNotEmpty(c, a);
  }

  lemma OneSurvivorPerCluster(c: Canon, rows: set<Row>, a: Row, b: Row)
    requires DistinctIds(rows) && a in rows && b in rows && ClusterKey(c, a) == ClusterKey(c, b)
    requires RoleOf(c, rows, a) == Role.Survivor && RoleOf(c, rows, b) == Role.Survivor
    ensures a == b
  {
    hide RoleOf, OutcomeFor;
    RoleInPart(c, rows, Role.Survivor, a);
    RoleInPart(c, rows, Role.Survivor, b);
  }

  /** Under a stable, case-blind canon the planner never aborts. */
  lemma TargetsNeverClash(c: Canon, rows: set<Row>)
    requires DistinctIds(rows) && Stable(c, rows) && CaseBlind(c, rows)
    ensures !Clashes(c, PlanOf(c, rows).rewrites)
  {
    hide PlanOf, RoleOf, DistinctIds, SurvivorName;
    var w := PlanOf(c, rows).rewrites;
    forall s1, s2 | s1 in w && s2 in w && s1 != s2 ensures c.lower(w[s1].name) != c.lower(w[s2].name) {
      var a := RewriteNames(c, rows, s1);
      var b := RewriteNames(c, rows, s2);
      if c.lower(w[s1].name) == c.lower(w[s2].name) {
        assert SameUpToCase(c, SurvivorName(c, a), SurvivorName(c, b));
        assert c.fold(SurvivorName(c, a)) == c.fold(SurvivorName(c, b));
        SameFoldSameKey(c, a, b);
        OneSurvivorPerCluster(c, rows, a, b);
        assert false;
      }
    }
  }

  /** Whatever blocks a rewrite is a protected row of the survivor's own cluster, and protected rows stay. */
  lemma BlockersAreProtected(c: Canon, t: Tables, id: string, other: string)
    requires Stable(c, Export(t)) && CaseBlind(c, Export(t))
    requires var f := PlanFor(c, t);
             id in f.rewrites && other !in f.mergeMap && Blocks(c, t.entities, id, f.rewrites[id], other)
    ensures var f := PlanFor(c, t); other !in f.junk && other !in f.rewrites
  {
    hide PlanOf, RoleOf, SurvivorName, OutcomeFor;
    ExportDistinct(t);
    var rows, o := Export(t), RowOf(t, other);
    var s := RewriteNames(c, rows, id);
    assert SameUpToCase(c, SurvivorName(c, s), o.name);
    assert c.fold(SurvivorName(c, s)) == c.fold(o.name);
    SameFoldSameKey(c, s, o);
    PlanPartitions(c, rows, o);
    RoleInPart(c, rows, Role.Survivor, s);
    RoleInPart(c, rows, Role.Junk, o);
    if RoleOf(c, rows, o) == Role.Survivor {
      OneSurvivorPerCluster(c, rows, s, o);
      assert false;
    }
  }

  lemma PlanFreesNoSlot(c: Canon, t: Tables)
    requires Stable(c, Export(t)) && CaseBlind(c, Export(t))
    ensures NoSlotFreed(c, t.entities - PlanFor(c, t).mergeMap.Keys, PlanFor(c, t))
  {
    hide PlanFor, Stable, CaseBlind;
    var f := PlanFor(c, t);
    var live := t.entities - f.mergeMap.Keys;
    forall id | id in f.rewrites && id in live && Blocked(c, live, id, f.rewrites[id])
      ensures exists other | other in live :: KeepsBlocking(c, live, f, id, other)
    {
      var other :| other in live && Blocks(c, live, id, f.rewrites[id], other);
      BlockersAreProtected(c, t, id, other);
      assert KeepsBlocking(c, live, f, id, other);
    }
  }

  /** The migration's claim to be idempotent, for plans frozen from the table they run on: under a stable,
      case-blind canon the planner does not abort and a forced second run changes nothing. */
  lemma PlannedRerunIsNoop(c: Canon, t: Tables, u: Tables, v: Tables)
    requires WellFormed(c, t) && Stable(c, Export(t)) && CaseBlind(c, Export(t))
    requires Migrated(c, t, u, PlanFor(c, t)) && Migrated(c, u, v, PlanFor(c, t))
    ensures v == u
  {
    hide PlanOf, Migrated, WellFormed, Stable, CaseBlind, NoSlotFreed, Export, DistinctIds;
    ExportDistinct(t);
    TargetsNeverClash(c, Export(t));
    PlanIsSound(c, t);
    PlanFreesNoSlot(c, t);
    RerunIsNoop(c, t, u, v, PlanFor(c, t));
  }
}
