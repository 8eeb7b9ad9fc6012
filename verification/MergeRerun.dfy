/** Forcing the migration to run a second time. */
module MergeRerun {
  import opened Ordering
  import opened Repoint
  import opened MergePlan
  import opened MergeDraft
  import opened MergeMigration
  import opened MergeLaws

  // Steps 1 to 4 find nothing to do the second time.

  lemma GeoFillsOnce(c: Canon, s: Geo, g: Geo)
    ensures FilledGeo(c, FilledGeo(c, s, g), g) == FilledGeo(c, s, g)
  {
  }

  lemma NoLoserLeft(entities: map<string, Profile>, mm: map<string, string>)
    requires entities.Keys !! mm.Keys
    ensures ProvenanceCopied(entities, mm) == entities
  {
    forall i | i in entities ensures WithProvenance(entities, mm, i) == entities[i] {
      assert LiveLosers(entities, mm, i) == {};
    }
  }

  lemma GeoUnchanged(c: Canon, entities: map<string, Profile>, geo: map<string, Geo>)
    requires forall i | i in entities && i in geo :: FilledGeo(c, entities[i].geo, geo[i]) == entities[i].geo
    ensures GeoBackfilled(c, entities, geo) == entities
  {
    hide FilledGeo;
    forall i | i in entities && i in geo ensures entities[i].(geo := FilledGeo(c, entities[i].geo, geo[i])) ==
        entities[i] {
    }
  }

  lemma GeoSettled(c: Canon, t: Tables, u: Tables, f: Frozen)
    requires Migrated(c, t, u, f)
    ensures GeoBackfilled(c, u.entities, f.geo) == u.entities
  {
    hide Migrated, FilledGeo, GeoBackfilled;
    EntitiesLeft(c, t, u, f);
    forall i | i in u.entities && i in f.geo ensures FilledGeo(c, u.entities[i].geo, f.geo[i]) == u.entities[i].geo {
      GeoThrough(c, t, u, f, i);
      GeoFillsOnce(c, t.entities[i].geo, f.geo[i]);
    }
    GeoUnchanged(c, u.entities, f.geo);
  }

  lemma EverySurvivorRecorded(c: Canon, t: Tables, u: Tables, f: Frozen, s: string)
    requires Sound(c, f) && Migrated(c, t, u, f) && s in u.entities && s in f.mergeMap.Values
    ensures HasMergeRow(u.versions, s)
  {
    EntitiesLeft(c, t, u, f);
    EnrichedVersions(c, t, f);
    hide Repointed, Rewritten, BeforeRewrite, Enriched;
    var e := Enriched(c, t, f);
    if HasMergeRow(t.versions, s) {
      var v :| v in t.versions && IsMergeRow(v, s);
      assert v in u.versions;
    } else {
      var v := MergeRow(e, f.mergeMap, s);
      assert IsMergeRow(v, s) && v in Versioned(c, t, f);
      assert v in u.versions;
    }
  }

  lemma NothingAppended(entities: map<string, Profile>, versions: set<VersionRow>, mm: map<string, string>)
    requires forall s | s in mm.Values && s in entities :: HasMergeRow(versions, s)
    ensures MergeRowsAppended(entities, versions, mm) == versions
  {
    hide HasMergeRow, MergeRow;
  }

  lemma NothingBumped(entities: map<string, Profile>, versions: set<VersionRow>, mm: map<string, string>)
    requires VersionsOk(entities, versions)
    ensures VersionsBumped(entities, versions, mm) == entities
  {
    forall i ensures !BelowMergeRow(entities, versions, i) {
    }
    hide BelowMergeRow, VersionsOk;
  }

  lemma VersionsSettled(c: Canon, t: Tables, u: Tables, f: Frozen)
    requires Sound(c, f) && Migrated(c, t, u, f) && VersionsOk(u.entities, u.versions)
    ensures MergeRowsAppended(u.entities, u.versions, f.mergeMap) == u.versions
    ensures VersionsBumped(u.entities, u.versions, f.mergeMap) == u.entities
  {
    hide Migrated, HasMergeRow, MergeRowsAppended, VersionsBumped, VersionsOk, Sound;
    forall s | s in f.mergeMap.Values && s in u.entities ensures HasMergeRow(u.versions, s) {
      EverySurvivorRecorded(c, t, u, f, s);
    }
    NothingAppended(u.entities, u.versions, f.mergeMap);
    NothingBumped(u.entities, u.versions, f.mergeMap);
  }

  lemma VersionsResolve(entities: map<string, Profile>, versions: set<VersionRow>, gone: set<string>)
    requires VersionsOk(entities, versions) && entities.Keys !! gone
    ensures VersionsWithout(versions, gone) == versions
  {
  }

  /** Steps 1 to 4 of a second run leave the tables as they are. */
  lemma EarlyStepsSettled(c: Canon, t: Tables, u: Tables, f: Frozen)
    requires Sound(c, f) && WellFormed(c, t) && SurvivorsLive(t, f) && Migrated(c, t, u, f)
    ensures BeforeRewrite(c, u, f) == u.entities
    ensures VersionsWithout(Versioned(c, u, f), f.mergeMap.Keys + f.junk) == u.versions
  {
    hide Migrated, GeoBackfilled, MergeRowsAppended, VersionsBumped, ProvenanceCopied, VersionsOk, SlotsUnique,
        LinksResolve,
         VersionsWithout, Sound, SurvivorsLive;
    MigrationPreserves(c, t, u, f);
    EntitiesLeft(c, t, u, f);
    GeoSettled(c, t, u, f);
    VersionsSettled(c, t, u, f);
    NoLoserLeft(u.entities, f.mergeMap);
    VersionsResolve(u.entities, u.versions, f.mergeMap.Keys + f.junk);
    assert u.entities - f.mergeMap.Keys == u.entities;
  }

  lemma LinksSettled(c: Canon, t: Tables, u: Tables, v: Tables, f: Frozen)
    requires LinksResolve(u) && u.entities.Keys !! f.mergeMap.Keys && u.entities.Keys !! f.junk
    requires Repointed(u.links, v.links, MoveEntity(f.mergeMap), SurvivingLink(f.mergeMap, f.junk))
    ensures v.links == u.links
  {
    forall k | k in u.links ensures MoveEntity(f.mergeMap)(k) == k && SurvivingLink(f.mergeMap, f.junk)(k) {
    }
    forall k | k in v.links ensures k in u.links {
      assert ComesFrom(u.links, MoveEntity(f.mergeMap), SurvivingLink(f.mergeMap, f.junk), k, v.links[k]);
    }
  }

  // Step 5 may find a slot freed.

  /** Every rewrite that some row blocks is blocked by a row that stays and keeps its slot: it is not junk
      and is not itself rewritten. `live` is the table without the losers. */
  ghost predicate NoSlotFreed(c: Canon, live: map<string, Profile>, f: Frozen) {
    forall id | id in f.rewrites && id in live && Blocked(c, live, id, f.rewrites[id]) ::
      exists other | other in live :: KeepsBlocking(c, live, f, id, other)
  }

  ghost predicate KeepsBlocking(c: Canon, live: map<string, Profile>, f: Frozen, id: string, other: string) {
    id in f.rewrites && Blocks(c, live, id, f.rewrites[id], other) && other !in f.junk
        && !Applies(c, live, f.rewrites, other)
  }

  /** Blocking and applying look only at names and classes. */
  lemma NamesDecide(c: Canon, a: map<string, Profile>, b: map<string, Profile>, rewrites: map<string, Rewrite>)
    requires a.Keys == b.Keys && forall i | i in a :: SameName(a[i], b[i])
    ensures forall i, r, o :: Blocks(c, a, i, r, o) == Blocks(c, b, i, r, o)
    ensures forall i, r :: Blocked(c, a, i, r) == Blocked(c, b, i, r)
    ensures forall i :: Applies(c, a, rewrites, i) == Applies(c, b, rewrites, i)
  {
    forall i, r, o ensures Blocks(c, a, i, r, o) == Blocks(c, b, i, r, o) {
    }
    forall i, r ensures Blocked(c, a, i, r) == Blocked(c, b, i, r) {
      if o :| o in a && Blocks(c, a, i, r, o) {
        assert Blocks(c, b, i, r, o);
      }
      if o :| o in b && Blocks(c, b, i, r, o) {
        assert Blocks(c, a, i, r, o);
      }
    }
  }

  lemma AfterRewrite(c: Canon, e: map<string, Profile>, f: Frozen, i: string)
    requires i in Rewritten(c, e, f.rewrites) - f.junk
    ensures var p := (Rewritten(c, e, f.rewrites) - f.junk)[i];
            && i in e && i !in f.junk
            && (if Applies(c, e, f.rewrites, i) then p == RewriteProfile(e[i], f.rewrites[i]) else p == e[i])
  {
  }

  /** A rewrite applies the second time exactly when it was pending, was blocked, and lost every blocker. */
  lemma AppliesAgain(c: Canon, e: map<string, Profile>, f: Frozen, id: string)
    requires Sound(c, f) && SlotsUnique(c, e)
    ensures var after := Rewritten(c, e, f.rewrites) - f.junk;
            Applies(c, after, f.rewrites, id) <==>
            id in f.rewrites && id in e && Blocked(c, e, id, f.rewrites[id]) && !exists other | other in e ::
                KeepsBlocking(c, e, f, id, other)
  {
    var after := Rewritten(c, e, f.rewrites) - f.junk;
    if id in f.rewrites && id in e {
      var r := f.rewrites[id];
      assert id !in f.junk;
      AfterRewrite(c, e, f, id);
      if Applies(c, e, f.rewrites, id) {
        assert !Applies(c, after, f.rewrites, id);
      } else if !Blocked(c, e, id, r) {
        assert after[id] == e[id];
      } else {
        BlockedStaysPending(c, e, f, id);
        StillBlocked(c, e, f, id);
      }
    }
  }

  lemma BlockedStaysPending(c: Canon, e: map<string, Profile>, f: Frozen, id: string)
    requires SlotsUnique(c, e) && id in f.rewrites && id in e && Blocked(c, e, id, f.rewrites[id])
    ensures e[id].name != f.rewrites[id].name || e[id].cls != f.rewrites[id].cls
  {
    var o :| o in e && Blocks(c, e, id, f.rewrites[id], o);
    assert Slot(c, e[o]) != Slot(c, e[id]);
  }

  lemma StillBlocked(c: Canon, e: map<string, Profile>, f: Frozen, id: string)
    requires Sound(c, f) && id in f.rewrites && id in e && Blocked(c, e, id, f.rewrites[id])
    ensures Blocked(c, Rewritten(c, e, f.rewrites) - f.junk, id, f.rewrites[id]) <==>
            exists other | other in e :: KeepsBlocking(c, e, f, id, other)
  {
    var after := Rewritten(c, e, f.rewrites) - f.junk;
    var r := f.rewrites[id];
    if other :| other in e && KeepsBlocking(c, e, f, id, other) {
      AfterRewrite(c, e, f, other);
      assert Blocks(c, after, id, r, other);
    }
    if other :| other in after && Blocks(c, after, id, r, other) {
      AfterRewrite(c, e, f, other);
      assert other in f.rewrites ==>
          SlotOf(c, f.rewrites[other].name, f.rewrites[other].cls) != SlotOf(c, r.name, r.cls);
      assert KeepsBlocking(c, e, f, id, other);
    }
  }

  lemma NoneApplies(c: Canon, entities: map<string, Profile>, rewrites: map<string, Rewrite>)
    ensures Rewritten(c, entities, rewrites) == entities <==> forall i | i in entities ::
            !Applies(c, entities, rewrites, i)
  {
    if i :| i in entities && Applies(c, entities, rewrites, i) {
      assert Rewritten(c, entities, rewrites)[i] == RewriteProfile(entities[i], rewrites[i]);
      assert Rewritten(c, entities, rewrites)[i] != entities[i];
    }
  }

  /** Running the migration twice is running it once exactly when the first run freed no wanted slot. The
      migration's own claim, that a re-run never changes anything, holds under this condition only. */
  lemma RerunIsNoop(c: Canon, t: Tables, u: Tables, v: Tables, f: Frozen)
    requires Sound(c, f) && WellFormed(c, t) && SurvivorsLive(t, f)
    requires Migrated(c, t, u, f) && Migrated(c, u, v, f)
    ensures v == u <==> NoSlotFreed(c, t.entities - f.mergeMap.Keys, f)
  {
    hide Migrated, BeforeRewrite, Versioned, VersionsWithout, Applies, KeepsBlocking, Blocked, Rewritten, Sound,
        SlotsUnique, LinksResolve, VersionsOk, SurvivorsLive;
    SecondRunRewrites(c, t, u, v, f);
    var live, e := t.entities - f.mergeMap.Keys, BeforeRewrite(c, t, f);
    NoneApplies(c, u.entities, f.rewrites);
    forall id
      ensures Applies(c, u.entities, f.rewrites, id) ==> id in u.entities
      ensures Applies(c, u.entities, f.rewrites, id) <==>
        id in f.rewrites && id in live && Blocked(c, live, id, f.rewrites[id]) && !exists other | other in live ::
            KeepsBlocking(c, live, f, id, other)
    {
      AppliesInside(c, u.entities, f.rewrites, id);
      AppliesAgainLive(c, t, u, f, id);
    }
  }

  lemma SecondRunRewrites(c: Canon, t: Tables, u: Tables, v: Tables, f: Frozen)
    requires Sound(c, f) && WellFormed(c, t) && SurvivorsLive(t, f)
    requires Migrated(c, t, u, f) && Migrated(c, u, v, f)
    ensures v == u <==> Rewritten(c, u.entities, f.rewrites) == u.entities
  {
    hide Migrated, BeforeRewrite, Versioned, VersionsWithout, Rewritten, VersionsOk, SlotsUnique, LinksResolve,
        Repointed, Sound,
         SurvivorsLive, MoveEntity, SurvivingLink;
    EarlyStepsSettled(c, t, u, f);
    MigrationPreserves(c, t, u, f);
    EntitiesLeft(c, t, u, f);
    MigratedParts(c, u, v, f);
    LinksSettled(c, t, u, v, f);
    RewrittenKeys(c, u.entities, f.rewrites);
    assert u.entities.Keys !! f.junk;
    assert Rewritten(c, u.entities, f.rewrites) - f.junk == Rewritten(c, u.entities, f.rewrites);
  }

  lemma MigratedParts(c: Canon, t: Tables, u: Tables, f: Frozen)
    requires Migrated(c, t, u, f)
    ensures Repointed(t.links, u.links, MoveEntity(f.mergeMap), SurvivingLink(f.mergeMap, f.junk))
    ensures u.versions == VersionsWithout(Versioned(c, t, f), f.mergeMap.Keys + f.junk)
    ensures u.entities == Rewritten(c, BeforeRewrite(c, t, f), f.rewrites) - f.junk
  {
  }

  lemma AppliesAgainLive(c: Canon, t: Tables, u: Tables, f: Frozen, id: string)
    requires Sound(c, f) && SlotsUnique(c, t.entities) && Migrated(c, t, u, f)
    ensures var live := t.entities - f.mergeMap.Keys;
            Applies(c, u.entities, f.rewrites, id) <==>
            id in f.rewrites && id in live && Blocked(c, live, id, f.rewrites[id]) && !exists other | other in live ::
                KeepsBlocking(c, live, f, id, other)
  {
    hide BeforeRewrite, Versioned, VersionsWithout, Repointed, SlotsUnique, Sound, Applies, Blocked, Blocks, Rewritten;
    var live, e := t.entities - f.mergeMap.Keys, BeforeRewrite(c, t, f);
    NamesBeforeRewrite(c, t, f);
    NamesDecide(c, live, e, f.rewrites);
    SlotsOfLive(c, t, f);
    AppliesAgain(c, e, f, id);
  }

  lemma AppliesInside(c: Canon, entities: map<string, Profile>, rewrites: map<string, Rewrite>, id: string)
    ensures Applies(c, entities, rewrites, id) ==> id in entities
  {
  }

  lemma RewrittenKeys(c: Canon, entities: map<string, Profile>, rewrites: map<string, Rewrite>)
    ensures Rewritten(c, entities, rewrites).Keys == entities.Keys
  {
  }

  lemma SlotsOfLive(c: Canon, t: Tables, f: Frozen)
    requires SlotsUnique(c, t.entities)
    ensures SlotsUnique(c, BeforeRewrite(c, t, f))
  {
    hide BeforeRewrite;
    var e := BeforeRewrite(c, t, f);
    NamesBeforeRewrite(c, t, f);
    forall i | i in e ensures Slot(c, e[i]) == Slot(c, t.entities[i]) {
      SameNameSameSlot(c, e[i], t.entities[i]);
    }
  }

  lemma NotItsOwnBlocker(c: Canon, entities: map<string, Profile>, id: string, r: Rewrite)
    ensures !Blocks(c, entities, id, r, id)
  {
  }

  lemma MigrateWithoutLinks(c: Canon, t: Tables, f: Frozen) returns (u: Tables)
    requires t.links == map[]
    ensures Migrated(c, t, u, f) && u.links == map[]
  {
    u := Tables(Rewritten(c, BeforeRewrite(c, t, f), f.rewrites) - f.junk, map[],
                VersionsWithout(Versioned(c, t, f), f.mergeMap.Keys + f.junk));
  }
}
