/** What the merge migration leaves in the tables, told in their columns alone. */
module MigrationMeaning {
  import opened Ordering
  import opened Repoint
  import opened MergePlan
  import opened MergeDraft
  import opened BuildPlan
  import opened MergeMigration
  import opened MergeLaws

  /** A link of a loser is there under its survivor with its own signal and role, every other link stays unless its
      entity is junk, and there is no further link. */
  lemma LinksAre(c: Canon, t: Tables, u: Tables, f: Frozen, k: LinkKey)
    requires Sound(c, f) && Migrated(c, t, u, f)
    ensures k in u.links <==>
            exists k0 | k0 in t.links ::
              && k0.entity !in f.junk && k0.signal == k.signal && k0.role == k.role
              && k.entity == if k0.entity in f.mergeMap then f.mergeMap[k0.entity] else k0.entity
  {
    LinksAreTheImage(c, t, u, f);
    assert f.junk !! f.mergeMap.Keys;
    hide Migrated, Sound;
    if k0 :| k0 in t.links && k0.entity !in f.junk && k0.signal == k.signal && k0.role == k.role
             && k.entity == if k0.entity in f.mergeMap then f.mergeMap[k0.entity] else k0.entity {
      assert SurvivingLink(f.mergeMap, f.junk)(k0) && MoveEntity(f.mergeMap)(k0) == k;
    }
    if k in u.links {
      var k0 :| k0 in t.links && SurvivingLink(f.mergeMap, f.junk)(k0) && MoveEntity(f.mergeMap)(k0) == k;
    }
  }

  /** A link that was there keeps its contents; a new one has those of a loser's link. */
  lemma LinkContents(c: Canon, t: Tables, u: Tables, f: Frozen, k: LinkKey)
    requires Sound(c, f) && Migrated(c, t, u, f) && k in u.links
    ensures k in t.links ==> u.links[k] == t.links[k]
    ensures k !in t.links ==>
              exists k0 | k0 in t.links ::
                && k0.entity in f.mergeMap && f.mergeMap[k0.entity] == k.entity
                && k0.signal == k.signal && k0.role == k.role && u.links[k] == t.links[k0]
  {
    hide BeforeRewrite, Versioned, Rewritten, VersionsWithout;
    assert ComesFrom(t.links, MoveEntity(f.mergeMap), SurvivingLink(f.mergeMap, f.junk), k, u.links[k]);
    var k0 :| k0 in t.links && SurvivingLink(f.mergeMap, f.junk)(k0) && MoveEntity(f.mergeMap)(k0) == k
              && t.links[k0] == u.links[k];
    if k0.entity in f.mergeMap {
      SurvivorStays(c, f, k0.entity);
    }
    assert k in t.links ==> SurvivingLink(f.mergeMap, f.junk)(k) && MoveEntity(f.mergeMap)(k) == k;
  }

  /** The lineage of a row is its own and that of its losers, its aliases its own and the names of its losers. */
  lemma ProvenanceIs(c: Canon, t: Tables, u: Tables, f: Frozen, i: string)
    requires Migrated(c, t, u, f) && i in u.entities
    ensures i in t.entities
    ensures forall a :: a in u.entities[i].aliases <==>
              a in t.entities[i].aliases
              || exists l | l in f.mergeMap && l in t.entities :: f.mergeMap[l] == i && t.entities[l].name == a
    ensures forall d :: d in u.entities[i].derived <==>
              d in t.entities[i].derived
              || exists l | l in f.mergeMap && l in t.entities :: f.mergeMap[l] == i && d in t.entities[l].derived
  {
    EntitiesLeft(c, t, u, f);
    ProvenanceThrough(c, t, u, f, i);
    hide Migrated;
  }

  /** Step 2b on a survivor with a frozen geo row, column by column. Two countries disagree when both are known and
      differ in more than letter case. */
  lemma GeoIs(c: Canon, t: Tables, u: Tables, f: Frozen, i: string)
    requires Migrated(c, t, u, f) && i in u.entities
    ensures i in t.entities
    ensures i !in f.geo ==> u.entities[i].geo == t.entities[i].geo
    ensures i in f.geo ==>
              var (p, g, q) := (t.entities[i].geo, f.geo[i], u.entities[i].geo);
              var agree := p.country.None? || g.country.None? || c.lower(p.country.value) == c.lower(g.country.value);
              && (agree && p.lat.None? && p.lon.None? ==> q.lat == g.lat && q.lon == g.lon)
              && (!agree || p.lat.Some? || p.lon.Some? ==> q.lat == p.lat && q.lon == p.lon)
              && (p.country.None? ==> q.country == g.country)
              && (p.country.Some? ==> q.country == p.country)
              && (agree && p.region.None? ==> q.region == g.region)
              && (!agree || p.region.Some? ==> q.region == p.region)
              && (var a := if p.completeness.Some? then p.completeness.value else 0.0;
                  var b := if g.completeness.Some? then g.completeness.value else 0.0;
                  q.completeness == Some(if a >= b then a else b))
  {
    EntitiesLeft(c, t, u, f);
    GeoThrough(c, t, u, f, i);
    if i in f.geo {
      FilledIs(c, t.entities[i].geo, f.geo[i]);
    }
    hide *;
  }

  lemma FilledIs(c: Canon, p: Geo, g: Geo)
    ensures var q := FilledGeo(c, p, g);
            var agree := p.country.None? || g.country.None? || c.lower(p.country.value) == c.lower(g.country.value);
            && (agree && p.lat.None? && p.lon.None? ==> q.lat == g.lat && q.lon == g.lon)
            && (!agree || p.lat.Some? || p.lon.Some? ==> q.lat == p.lat && q.lon == p.lon)
            && (p.country.None? ==> q.country == g.country)
            && (p.country.Some? ==> q.country == p.country)
            && (agree && p.region.None? ==> q.region == g.region)
            && (!agree || p.region.Some? ==> q.region == p.region)
            && (var a := if p.completeness.Some? then p.completeness.value else 0.0;
                var b := if g.completeness.Some? then g.completeness.value else 0.0;
                q.completeness == Some(if a >= b then a else b))
  {
  }

  /** Exactly losers and junk are gone. A rewrite is written, with the class as the type, exactly when it changes the
      name or the class and no other row that is no loser holds the wanted class under a name that differs at most
      in case; nothing else changes a name, a class or a type, and source and creation never change. */
  lemma NamesAre(c: Canon, t: Tables, u: Tables, f: Frozen, i: string)
    requires Migrated(c, t, u, f)
    ensures i in u.entities <==> i in t.entities && i !in f.mergeMap && i !in f.junk
    ensures i in u.entities ==>
              var (p, q) := (t.entities[i], u.entities[i]);
              && q.source == p.source && q.createdAt == p.createdAt
              && if && i in f.rewrites && (f.rewrites[i].name != p.name || f.rewrites[i].cls != p.cls)
                    && forall o | o in t.entities && o !in f.mergeMap && o != i ::
                         c.lower(t.entities[o].name) != c.lower(f.rewrites[i].name)
                         || t.entities[o].cls != f.rewrites[i].cls
                 then q.name == f.rewrites[i].name && q.cls == f.rewrites[i].cls && q.entityType == f.rewrites[i].cls
                 else q.name == p.name && q.cls == p.cls && q.entityType == p.entityType
  {
    EntitiesLeft(c, t, u, f);
    if i in u.entities {
      var e := BeforeRewrite(c, t, f);
      LiveBefore(c, t, f);
      hide BeforeRewrite, Repointed, Versioned, VersionsWithout;
      assert u.entities[i] == Rewritten(c, e, f.rewrites)[i];
      if i in f.rewrites {
        assert Blocked(c, e, i, f.rewrites[i]) <==>
            exists o | o in t.entities && o !in f.mergeMap :: o != i
              && c.lower(t.entities[o].name) == c.lower(f.rewrites[i].name)
              && t.entities[o].cls == f.rewrites[i].cls by {
          BlockedBy(c, t.entities, e, f, i);
        }
      }
      hide Blocked;
    }
  }

  /** The rows the rewrites see: all but the losers, with the names they had. */
  lemma LiveBefore(c: Canon, t: Tables, f: Frozen)
    ensures var e := BeforeRewrite(c, t, f);
            && e.Keys == t.entities.Keys - f.mergeMap.Keys
            && forall i | i in e ::
                 && e[i].name == t.entities[i].name && e[i].cls == t.entities[i].cls
                 && e[i].entityType == t.entities[i].entityType && e[i].source == t.entities[i].source
                 && e[i].createdAt == t.entities[i].createdAt
  {
    hide LiveLosers, FilledGeo, Versioned, BelowMergeRow;
  }

  lemma BlockedBy(c: Canon, entities: map<string, Profile>, e: map<string, Profile>, f: Frozen, i: string)
    requires i in f.rewrites && e.Keys == entities.Keys - f.mergeMap.Keys
    requires forall o | o in e :: e[o].name == entities[o].name && e[o].cls == entities[o].cls
    ensures Blocked(c, e, i, f.rewrites[i]) <==>
            exists o | o in entities && o !in f.mergeMap :: o != i
              && c.lower(entities[o].name) == c.lower(f.rewrites[i].name) && entities[o].cls == f.rewrites[i].cls
  {
    if Blocked(c, e, i, f.rewrites[i]) {
      var o :| o in e && Blocks(c, e, i, f.rewrites[i], o);
    }
    if o :| o in entities && o !in f.mergeMap && o != i
            && c.lower(entities[o].name) == c.lower(f.rewrites[i].name) && entities[o].cls == f.rewrites[i].cls {
      assert Blocks(c, e, i, f.rewrites[i], o);
    }
  }

  /** A survivor that had no merge row gets one, a version up, with its name and class of before and its aliases of
      afterwards; with it the row's own version goes up. No other version row is written, and those of losers and
      junk go with them. */
  lemma VersionsAre(c: Canon, t: Tables, u: Tables, f: Frozen, v: VersionRow)
    requires Migrated(c, t, u, f)
    ensures v in u.versions <==>
            && v.entity !in f.mergeMap && v.entity !in f.junk
            && (|| v in t.versions
                || (&& v.entity in f.mergeMap.Values && v.entity in t.entities && v.entity in u.entities
                    && (forall w | w in t.versions :: w.entity != v.entity || w.event != "merge_0063")
                    && var p := t.entities[v.entity];
                       v == VersionRow(v.entity, p.version + 1, "merge_0063", p.name, p.cls,
                                       u.entities[v.entity].aliases,
                                       |set l | l in f.mergeMap && f.mergeMap[l] == v.entity|)))
  {
    hide *;
    EntitiesLeft(c, t, u, f);
    EnrichedRows(c, t, f);
    var e, s := Enriched(c, t, f), v.entity;
    VersionsOf(c, t, u, f);
    AppendedAre(e, t.versions, f.mergeMap, v);
    if s in u.entities {
      ProvenanceThrough(c, t, u, f, s);
    }
    WithoutAre(MergeRowsAppended(e, t.versions, f.mergeMap), f.mergeMap.Keys + f.junk, v);
  }

  lemma VersionsOf(c: Canon, t: Tables, u: Tables, f: Frozen)
    requires Migrated(c, t, u, f)
    ensures u.versions ==
            VersionsWithout(MergeRowsAppended(Enriched(c, t, f), t.versions, f.mergeMap), f.mergeMap.Keys + f.junk)
  {
    hide Repointed, Rewritten, BeforeRewrite, Enriched;
  }

  lemma WithoutAre(versions: set<VersionRow>, ids: set<string>, v: VersionRow)
    ensures v in VersionsWithout(versions, ids) <==> v in versions && v.entity !in ids
  {
  }

  lemma AppendedAre(e: map<string, Profile>, versions: set<VersionRow>, mm: map<string, string>, v: VersionRow)
    ensures v in MergeRowsAppended(e, versions, mm) <==>
            || v in versions
            || (&& v.entity in mm.Values && v.entity in e
                && (forall w | w in versions :: w.entity != v.entity || w.event != "merge_0063")
                && var p := e[v.entity];
                   v == VersionRow(v.entity, p.version + 1, "merge_0063", p.name, p.cls, p.aliases,
                                   |set l | l in mm && mm[l] == v.entity|))
  {
    NoMergeRow(versions, v.entity);
    forall s ensures s in e ==> MergeRow(e, mm, s).entity == s {
    }
    if v.entity in e {
      MergeRowIs(e, mm, v.entity);
    }
    hide MergeRow, HasMergeRow, IsMergeRow, LoserCount;
  }

  lemma NoMergeRow(versions: set<VersionRow>, s: string)
    ensures HasMergeRow(versions, s) <==> exists w | w in versions :: w.entity == s && w.event == "merge_0063"
  {
    if w :| w in versions && w.entity == s && w.event == "merge_0063" {
      assert IsMergeRow(w, s);
    }
  }

  lemma MergeRowIs(e: map<string, Profile>, mm: map<string, string>, s: string)
    requires s in e
    ensures MergeRow(e, mm, s) ==
            VersionRow(s, e[s].version + 1, "merge_0063", e[s].name, e[s].cls, e[s].aliases,
                       |set l | l in mm && mm[l] == s|)
  {
    assert LoserCount(mm, s) == |set l | l in mm && mm[l] == s|;
  }

  lemma EnrichedRows(c: Canon, t: Tables, f: Frozen)
    ensures var e := Enriched(c, t, f);
            && e.Keys == t.entities.Keys
            && forall i | i in e ::
                 && e[i].name == t.entities[i].name && e[i].cls == t.entities[i].cls
                 && e[i].version == t.entities[i].version
                 && e[i].aliases == WithProvenance(t.entities, f.mergeMap, i).aliases
  {
    hide LiveLosers, FilledGeo;
  }

  /** A row's version goes up by one exactly with its merge row. */
  lemma VersionIs(c: Canon, t: Tables, u: Tables, f: Frozen, i: string)
    requires WellFormed(c, t) && Migrated(c, t, u, f) && i in u.entities
    ensures i in t.entities
    ensures u.entities[i].version ==
            if i in f.mergeMap.Values && (forall w | w in t.versions :: w.entity != i || w.event != "merge_0063")
            then t.entities[i].version + 1 else t.entities[i].version
  {
    hide *;
    EntitiesLeft(c, t, u, f);
    EnrichedRows(c, t, f);
    VersionThrough(c, t, u, f, i);
    VersionsBelow(c, t, i);
    if i in f.mergeMap.Values {
      BumpedWhenNew(Enriched(c, t, f), t.versions, f.mergeMap, i);
    }
  }

  lemma VersionsBelow(c: Canon, t: Tables, i: string)
    requires WellFormed(c, t) && i in t.entities
    ensures forall v | v in t.versions && v.entity == i :: v.version <= t.entities[i].version
  {
  }

  lemma BumpedWhenNew(e: map<string, Profile>, versions: set<VersionRow>, mm: map<string, string>, i: string)
    requires i in e && i in mm.Values && forall v | v in versions && v.entity == i :: v.version <= e[i].version
    ensures BelowMergeRow(e, MergeRowsAppended(e, versions, mm), i) <==>
            forall w | w in versions :: w.entity != i || w.event != "merge_0063"
  {
    NoMergeRow(versions, i);
    var after := MergeRowsAppended(e, versions, mm);
    if !HasMergeRow(versions, i) {
      var v := MergeRow(e, mm, i);
      assert v in after && IsMergeRow(v, i) && e[i].version < v.version;
    }
    if BelowMergeRow(e, after, i) {
      var v :| v in after && IsMergeRow(v, i) && e[i].version < v.version;
    }
    hide HasMergeRow, MergeRow;
  }

  lemma VersionThrough(c: Canon, t: Tables, u: Tables, f: Frozen, i: string)
    requires Migrated(c, t, u, f) && i in u.entities
    ensures i in Enriched(c, t, f)
    ensures var e := Enriched(c, t, f);
            u.entities[i].version ==
            if i in f.mergeMap.Values && BelowMergeRow(e, MergeRowsAppended(e, t.versions, f.mergeMap), i)
            then e[i].version + 1 else e[i].version
  {
    hide Repointed, Enriched, Applies, MergeRowsAppended, BelowMergeRow, VersionsWithout;
  }
}
