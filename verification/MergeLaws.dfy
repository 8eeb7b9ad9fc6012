/** What the migration keeps, what it changes, and when running it again changes nothing. */
module MergeLaws {
  import opened Ordering
  import opened Repoint
  import opened MergePlan
  import opened MergeDraft
  import opened BuildPlan
  import opened MergeMigration

  /** The migration does not fail on a foreign key: every survivor that receives a link is there. */
  predicate SurvivorsLive(t: Tables, f: Frozen) {
    forall k | k in t.links && k.entity in f.mergeMap :: f.mergeMap[k.entity] in t.entities
  }

  predicate SameName(p: Profile, q: Profile) {
    p.name == q.name && p.cls == q.cls
  }

  /** Steps 2 to 4 delete the losers and leave every other row its name and class. */
  lemma NamesBeforeRewrite(c: Canon, t: Tables, f: Frozen)
    ensures BeforeRewrite(c, t, f).Keys == t.entities.Keys - f.mergeMap.Keys
    ensures forall i | i in BeforeRewrite(c, t, f) :: SameName(BeforeRewrite(c, t, f)[i], t.entities[i])
  {
    hide LiveLosers, FilledGeo, BelowMergeRow, Versioned;
  }

  lemma SameNameSameSlot(c: Canon, p: Profile, q: Profile)
    requires SameName(p, q)
    ensures Slot(c, p) == Slot(c, q)
  {
  }

  // The unique index.

  /** The rewrites of `some` survivors, the others still to come. */
  function RewrittenSome(c: Canon, entities: map<string, Profile>, rewrites: map<string, Rewrite>,
                         some: set<string>): map<string, Profile> {
    map i | i in entities :: if i in some && Applies(c, entities, rewrites, i) then
        RewriteProfile(entities[i], rewrites[i]) else entities[i]
  }

  /** The slot index stays unique after every single row the rewrite touches, in whatever order the rows are
      updated: the guard reads the table as it was before the statement. */
  lemma SlotsStayUnique(c: Canon, entities: map<string, Profile>, rewrites: map<string, Rewrite>, some: set<string>)
    requires SlotsUnique(c, entities) && TargetsDistinct(c, rewrites)
    ensures SlotsUnique(c, RewrittenSome(c, entities, rewrites, some))
  {
    var after := RewrittenSome(c, entities, rewrites, some);
    forall a, b | a in after && b in after && a != b ensures Slot(c, after[a]) != Slot(c, after[b]) {
      SlotAfter(c, entities, rewrites, some, a, b);
      SlotAfter(c, entities, rewrites, some, b, a);
      hide RewrittenSome, Applies, Slot, SlotOf;
    }
  }

  lemma SlotAfter(c: Canon, entities: map<string, Profile>, rewrites: map<string, Rewrite>, some: set<string>,
                  a: string, b: string)
    requires a in entities && b in entities && a != b
    ensures var after := RewrittenSome(c, entities, rewrites, some);
            if a in some && Applies(c, entities, rewrites, a) then
              && Slot(c, after[a]) == SlotOf(c, rewrites[a].name, rewrites[a].cls)
              && Slot(c, after[a]) != Slot(c, entities[b])
            else Slot(c, after[a]) == Slot(c, entities[a])
  {
    if a in some && Applies(c, entities, rewrites, a) {
      assert !Blocks(c, entities, a, rewrites[a], b);
    }
  }

  lemma RewrittenIsAll(c: Canon, entities: map<string, Profile>, rewrites: map<string, Rewrite>)
    ensures Rewritten(c, entities, rewrites) == RewrittenSome(c, entities, rewrites, entities.Keys)
  {
    hide Applies, RewriteProfile;
  }

  lemma SlotsPreserved(c: Canon, t: Tables, f: Frozen)
    requires SlotsUnique(c, t.entities) && Sound(c, f)
    ensures SlotsUnique(c, Rewritten(c, BeforeRewrite(c, t, f), f.rewrites) - f.junk)
  {
    hide BeforeRewrite, Applies, RewrittenSome, Rewritten;
    var e := BeforeRewrite(c, t, f);
    NamesBeforeRewrite(c, t, f);
    forall i | i in e ensures Slot(c, e[i]) == Slot(c, t.entities[i]) {
      SameNameSameSlot(c, e[i], t.entities[i]);
    }
    SlotsStayUnique(c, e, f.rewrites, e.Keys);
    RewrittenIsAll(c, e, f.rewrites);
  }

  // The version ledger.

  lemma EnrichedVersions(c: Canon, t: Tables, f: Frozen)
    ensures Enriched(c, t, f).Keys == t.entities.Keys
    ensures forall i | i in t.entities :: Enriched(c, t, f)[i].version == t.entities[i].version
  {
    hide LiveLosers, FilledGeo;
  }

  /** Appending above the current version and then bumping to it keeps the ledger monotone and unique. */
  lemma VersionStep(e: map<string, Profile>, versions: set<VersionRow>, mm: map<string, string>)
    requires VersionsOk(e, versions)
    ensures VersionsOk(VersionsBumped(e, MergeRowsAppended(e, versions, mm), mm), MergeRowsAppended(e, versions, mm))
  {
    var after := MergeRowsAppended(e, versions, mm);
    var bumped := VersionsBumped(e, after, mm);
    forall v | v in after
      ensures v.entity in bumped && v.version <= bumped[v.entity].version
      ensures v in versions
              || (v.version == e[v.entity].version + 1 && IsMergeRow(v, v.entity) && !HasMergeRow(versions, v.entity)
                                && v == MergeRow(e, mm, v.entity))
    {
      if v !in versions {
        assert IsMergeRow(v, v.entity);
        assert BelowMergeRow(e, after, v.entity);
      }
    }
    hide MergeRowsAppended, VersionsBumped, BelowMergeRow, MergeRow;
    forall v, w | v in after && w in after && v != w && v.entity == w.entity
      ensures v.version != w.version && !(v.event == MERGE_EVENT && w.event == MERGE_EVENT)
    {
      if v in versions && w !in versions {
        assert !IsMergeRow(v, v.entity);
      } else if w in versions && v !in versions {
        assert !IsMergeRow(w, w.entity);
      }
    }
  }

  lemma VersionsOkAfterDelete(e: map<string, Profile>, versions: set<VersionRow>, after: map<string, Profile>,
                              ids: set<string>)
    requires VersionsOk(e, versions)
    requires forall i | i in e && i !in ids :: i in after && after[i].version == e[i].version
    ensures VersionsOk(after, VersionsWithout(versions, ids))
  {
  }

  lemma VersionsPreserved(c: Canon, t: Tables, f: Frozen)
    requires VersionsOk(t.entities, t.versions)
    ensures VersionsOk(Rewritten(c, BeforeRewrite(c, t, f), f.rewrites) - f.junk,
                       VersionsWithout(Versioned(c, t, f), f.mergeMap.Keys + f.junk))
  {
    EnrichedVersions(c, t, f);
    var e := Enriched(c, t, f);
    assert VersionsOk(e, t.versions);
    VersionStep(e, t.versions, f.mergeMap);
    hide Enriched, VersionsBumped, MergeRowsAppended, VersionsOk, Applies, VersionsWithout;
    var bumped := VersionsBumped(e, Versioned(c, t, f), f.mergeMap);
    var after := Rewritten(c, BeforeRewrite(c, t, f), f.rewrites) - f.junk;
    forall i | i in bumped && i !in f.mergeMap.Keys + f.junk ensures i in after
        && after[i].version == bumped[i].version {
    }
    VersionsOkAfterDelete(bumped, Versioned(c, t, f), after, f.mergeMap.Keys + f.junk);
  }

  // Foreign keys and counts.

  lemma EntitiesLeft(c: Canon, t: Tables, u: Tables, f: Frozen)
    requires Migrated(c, t, u, f)
    ensures u.entities.Keys == t.entities.Keys - f.mergeMap.Keys - f.junk
  {
    NamesBeforeRewrite(c, t, f);
    hide BeforeRewrite, Repointed, Applies;
  }

  lemma LinksStillResolve(c: Canon, t: Tables, u: Tables, f: Frozen)
    requires Sound(c, f) && LinksResolve(t) && SurvivorsLive(t, f) && Migrated(c, t, u, f)
    ensures LinksResolve(u)
  {
    EntitiesLeft(c, t, u, f);
    hide BeforeRewrite, Rewritten, Versioned;
    forall k | k in u.links ensures k.entity in u.entities {
      assert ComesFrom(t.links, MoveEntity(f.mergeMap), SurvivingLink(f.mergeMap, f.junk), k, u.links[k]);
      var k0 :| k0 in t.links && SurvivingLink(f.mergeMap, f.junk)(k0) && MoveEntity(f.mergeMap)(k0) == k
          && t.links[k0] == u.links[k];
      if k0.entity in f.mergeMap {
        assert f.mergeMap[k0.entity] in f.mergeMap.Values;
      }
    }
  }

  /** The migration keeps the tables well formed: every link and version row names a live entity, no two
      entities share a slot, and each entity's versions are unique and not above its own. */
  lemma MigrationPreserves(c: Canon, t: Tables, u: Tables, f: Frozen)
    requires Sound(c, f) && WellFormed(c, t) && SurvivorsLive(t, f) && Migrated(c, t, u, f)
    ensures WellFormed(c, u)
  {
    LinksStillResolve(c, t, u, f);
    SlotsPreserved(c, t, f);
    VersionsPreserved(c, t, f);
    hide Repointed, BeforeRewrite, Rewritten, Versioned, VersionsWithout;
  }

  /** Exactly the non-junk links survive, each at its entity's survivor. */
  lemma LinksAreTheImage(c: Canon, t: Tables, u: Tables, f: Frozen)
    requires Migrated(c, t, u, f)
    ensures u.links.Keys == set k | k in t.links && SurvivingLink(f.mergeMap, f.junk)(k) :: MoveEntity(f.mergeMap)(k)
  {
    RepointedKeys(t.links, u.links, MoveEntity(f.mergeMap), SurvivingLink(f.mergeMap, f.junk));
  }

  /** The row count drops by exactly the losers and the junk when they are all there. */
  lemma RowsDrop(c: Canon, t: Tables, u: Tables, f: Frozen)
    requires Sound(c, f) && Migrated(c, t, u, f) && f.mergeMap.Keys + f.junk <= t.entities.Keys
    ensures |u.entities| == |t.entities| - |f.mergeMap| - |f.junk|
  {
    EntitiesLeft(c, t, u, f);
    hide Migrated;
    RemovedTwo(t.entities, u.entities, f.mergeMap, f.junk);
  }

  lemma RemovedTwo<K, V, W>(s: map<K, V>, left: map<K, V>, a: map<K, W>, b: set<K>)
    requires a.Keys + b <= s.Keys && a.Keys !! b && left.Keys == s.Keys - a.Keys - b
    ensures |left| + |a| + |b| == |s|
  {
    assert s.Keys == left.Keys + (a.Keys + b);
    assert |a.Keys + b| == |a.Keys| + |b|;
    assert |left.Keys| == |left| && |s.Keys| == |s| && |a.Keys| == |a|;
  }

  /** Nothing a loser carried is lost with its row: its name and its lineage are on the survivor. */
  lemma ProvenanceKept(c: Canon, t: Tables, u: Tables, f: Frozen, l: string)
    requires Sound(c, f) && Migrated(c, t, u, f)
    requires l in f.mergeMap && l in t.entities && f.mergeMap[l] in t.entities
    ensures var s := f.mergeMap[l];
            && s in u.entities && l !in u.entities
            && t.entities[l].name in u.entities[s].aliases
            && t.entities[l].derived <= u.entities[s].derived
            && t.entities[s].aliases <= u.entities[s].aliases
            && t.entities[s].derived <= u.entities[s].derived
  {
    hide Repointed, WithProvenance, Sound, BeforeRewrite, Rewritten, Versioned;
    var s := f.mergeMap[l];
    SurvivorStays(c, f, l);
    EntitiesLeft(c, t, u, f);
    ProvenanceThrough(c, t, u, f, s);
    ProvenanceOf(t.entities, f.mergeMap, l);
  }

  lemma SurvivorStays(c: Canon, f: Frozen, l: string)
    requires Sound(c, f) && l in f.mergeMap
    ensures f.mergeMap[l] in f.mergeMap.Values && f.mergeMap[l] !in f.mergeMap && f.mergeMap[l] !in f.junk
  {
    assert f.mergeMap[l] in f.mergeMap.Values;
  }

  lemma ProvenanceThrough(c: Canon, t: Tables, u: Tables, f: Frozen, s: string)
    requires Migrated(c, t, u, f) && s in u.entities && s in t.entities
    ensures u.entities[s].aliases == WithProvenance(t.entities, f.mergeMap, s).aliases
    ensures u.entities[s].derived == WithProvenance(t.entities, f.mergeMap, s).derived
  {
    hide Repointed, WithProvenance, FilledGeo, Applies, Versioned, BelowMergeRow, VersionsWithout;
  }

  lemma ProvenanceOf(entities: map<string, Profile>, mm: map<string, string>, l: string)
    requires l in mm && l in entities && mm[l] in entities
    ensures var p := WithProvenance(entities, mm, mm[l]);
            && entities[l].name in p.aliases && entities[l].derived <= p.derived
            && entities[mm[l]].aliases <= p.aliases && entities[mm[l]].derived <= p.derived
  {
    assert l in LiveLosers(entities, mm, mm[l]);
  }

  lemma GeoThrough(c: Canon, t: Tables, u: Tables, f: Frozen, i: string)
    requires Migrated(c, t, u, f) && i in u.entities && i in t.entities
    ensures u.entities[i].geo == if i in f.geo then FilledGeo(c, t.entities[i].geo, f.geo[i]) else t.entities[i].geo
  {
    hide Repointed, FilledGeo, Applies, Versioned, BelowMergeRow, VersionsWithout;
  }

  /** No known geo value is overwritten and completeness never falls. Coordinates are never mixed: they are
      the row's own pair, or the frozen pair where the row had neither and its country does not disagree. */
  lemma GeoNeverMixed(c: Canon, t: Tables, u: Tables, f: Frozen, i: string)
    requires Migrated(c, t, u, f) && i in u.entities && i in t.entities
    ensures var p, q := t.entities[i].geo, u.entities[i].geo;
            && (p.lat.Some? ==> q.lat == p.lat) && (p.lon.Some? ==> q.lon == p.lon)
            && (p.country.Some? ==> q.country == p.country) && (p.region.Some? ==> q.region == p.region)
            && (p.completeness.Some? ==> q.completeness.Some? && q.completeness.value >= p.completeness.value)
            && ((q.lat, q.lon) != (p.lat, p.lon) ==>
                  && i in f.geo && p.lat.None? && p.lon.None? && (q.lat, q.lon) == (f.geo[i].lat, f.geo[i].lon)
                  && (p.country.Some? && f.geo[i].country.Some? ==>
                        c.lower(p.country.value) == c.lower(f.geo[i].country.value)))
  {
    GeoThrough(c, t, u, f, i);
    if i in f.geo {
      FillNeverMixes(c, t.entities[i].geo, f.geo[i]);
    }
    hide Migrated, FilledGeo;
  }

  lemma FillNeverMixes(c: Canon, p: Geo, g: Geo)
    ensures var q := FilledGeo(c, p, g);
            && (p.lat.Some? ==> q.lat == p.lat) && (p.lon.Some? ==> q.lon == p.lon)
            && (p.country.Some? ==> q.country == p.country) && (p.region.Some? ==> q.region == p.region)
            && (p.completeness.Some? ==> q.completeness.Some? && q.completeness.value >= p.completeness.value)
            && ((q.lat, q.lon) != (p.lat, p.lon) ==>
                  && p.lat.None? && p.lon.None? && (q.lat, q.lon) == (g.lat, g.lon)
                  && (p.country.Some? && g.country.Some? ==> c.lower(p.country.value) == c.lower(g.country.value)))
  {
  }
}
