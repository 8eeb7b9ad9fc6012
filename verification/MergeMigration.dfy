/** The migration the plan is frozen into: six steps over the entity tables, in the order that matters. */
module MergeMigration {
  import opened Ordering
  import opened Repoint
  import opened MergePlan
  import opened MergeDraft

  /** A stored entity. Alias and lineage lists are rewritten sorted and without repeats, so they are sets. */
  datatype Profile = Profile(name: string, cls: string, entityType: string, source: string, createdAt: string,
                             version: int, aliases: set<string>, derived: set<string>, geo: Geo)

  datatype LinkKey = LinkKey(signal: string, entity: string, role: string)
  datatype LinkRow = LinkRow(confidence: real, analyst: string, createdAt: int)

  datatype VersionRow = VersionRow(entity: string, version: int, event: string, name: string, cls: string,
                                   aliases: set<string>, mergedLosers: nat)

  const MERGE_EVENT := "merge_0063"

  datatype Tables = Tables(entities: map<string, Profile>, links: map<LinkKey, LinkRow>, versions: set<VersionRow>)

  /** The decisions baked into the migration. */
  datatype Frozen = Frozen(mergeMap: map<string, string>, rewrites: map<string, Rewrite>, junk: set<string>,
      geo: map<string, Geo>)

  // Step 1: links.

  function MoveEntity(mm: map<string, string>): LinkKey -> LinkKey {
    (k: LinkKey) => if k.entity in mm then k.(entity := mm[k.entity]) else k
  }

  function AnyLink(): LinkKey -> bool {
    (k: LinkKey) => true
  }

  function NotJunk(junk: set<string>): LinkKey -> bool {
    (k: LinkKey) => k.entity !in junk
  }

  function SurvivingLink(mm: map<string, string>, junk: set<string>): LinkKey -> bool {
    (k: LinkKey) => k.entity !in junk || k.entity in mm
  }

  // Step 2: provenance.

  function LiveLosers(entities: map<string, Profile>, mm: map<string, string>, survivor: string): set<string> {
    set l | l in mm && l in entities && mm[l] == survivor
  }

  function WithProvenance(entities: map<string, Profile>, mm: map<string, string>, id: string): Profile
    requires id in entities
  {
    var losers := LiveLosers(entities, mm, id);
    entities[id].(aliases := entities[id].aliases + (set l | l in losers :: entities[l].name),
                  derived := entities[id].derived + (set l, d | l in losers && d in entities[l].derived :: d))
  }

  function ProvenanceCopied(entities: map<string, Profile>, mm: map<string, string>): map<string, Profile> {
    map i | i in entities :: WithProvenance(entities, mm, i)
  }

  // Step 2b: geo.

  predicate CountryAgrees(c: Canon, a: Option<string>, b: Option<string>) {
    a.None? || b.None? || c.lower(a.value) == c.lower(b.value)
  }

  function Coalesce<T>(a: Option<T>, b: Option<T>): Option<T> {
    if a.Some? then a else b
  }

  function OrZero(a: Option<real>): real {
    if a.Some? then a.value else 0.0
  }

  function FilledGeo(c: Canon, s: Geo, g: Geo): Geo {
    var agrees := CountryAgrees(c, s.country, g.country);
    var open := agrees && s.lat.None? && s.lon.None?;
    Geo(if open then g.lat else s.lat,
        if open then g.lon else s.lon,
        Coalesce(s.country, g.country),
        if agrees then Coalesce(s.region, g.region) else s.region,
        Some(if OrZero(s.completeness) >= OrZero(g.completeness) then OrZero(s.completeness)
            else OrZero(g.completeness)))
  }

  function GeoBackfilled(c: Canon, entities: map<string, Profile>, geo: map<string, Geo>): map<string, Profile> {
    map i | i in entities :: if i in geo then entities[i].(geo := FilledGeo(c, entities[i].geo, geo[i]))
        else entities[i]
  }

  // Steps 3 and 3b: versions.

  predicate IsMergeRow(v: VersionRow, id: string) {
    v.entity == id && v.event == MERGE_EVENT
  }

  predicate HasMergeRow(versions: set<VersionRow>, id: string) {
    exists v | v in versions :: IsMergeRow(v, id)
  }

  function LoserCount(mm: map<string, string>, id: string): nat {
    |set l | l in mm && mm[l] == id|
  }

  function MergeRow(entities: map<string, Profile>, mm: map<string, string>, id: string): VersionRow
    requires id in entities
  {
    var s := entities[id];
    VersionRow(id, s.version + 1, MERGE_EVENT, s.name, s.cls, s.aliases, LoserCount(mm, id))
  }

  function MergeRowsAppended(entities: map<string, Profile>, versions: set<VersionRow>, mm: map<string,
                             string>): set<VersionRow> {
    versions + set s | s in mm.Values && s in entities && !HasMergeRow(versions, s) :: MergeRow(entities, mm, s)
  }

  predicate BelowMergeRow(entities: map<string, Profile>, versions: set<VersionRow>, id: string) {
    id in entities && exists v | v in versions :: IsMergeRow(v, id) && entities[id].version < v.version
  }

  function VersionsBumped(entities: map<string, Profile>, versions: set<VersionRow>, mm: map<string,
                          string>): map<string, Profile> {
    map i | i in entities ::
      if i in mm.Values && BelowMergeRow(entities, versions, i) then entities[i].(version := entities[i].version + 1)
          else entities[i]
  }

  // Steps 4 and 6: deletes that cascade.

  function VersionsWithout(versions: set<VersionRow>, ids: set<string>): set<VersionRow> {
    set v | v in versions && v.entity !in ids
  }

  // Step 5: rewrites.

  function SlotOf(c: Canon, name: string, cls: string): (string, string) {
    (c.lower(name), cls)
  }

  function Slot(c: Canon, p: Profile): (string, string) {
    SlotOf(c, p.name, p.cls)
  }

  /** A row other than `id` that holds the slot the rewrite wants. */
  predicate Blocks(c: Canon, entities: map<string, Profile>, id: string, r: Rewrite, other: string) {
    other in entities && other != id && Slot(c, entities[other]) == SlotOf(c, r.name, r.cls)
  }

  predicate Blocked(c: Canon, entities: map<string, Profile>, id: string, r: Rewrite) {
    exists other | other in entities :: Blocks(c, entities, id, r, other)
  }

  predicate Applies(c: Canon, entities: map<string, Profile>, rewrites: map<string, Rewrite>, id: string) {
    && id in rewrites && id in entities
    && (entities[id].name != rewrites[id].name || entities[id].cls != rewrites[id].cls)
    && !Blocked(c, entities, id, rewrites[id])
  }

  function RewriteProfile(p: Profile, r: Rewrite): Profile {
    p.(name := r.name, cls := r.cls, entityType := r.cls)
  }

  function Rewritten(c: Canon, entities: map<string, Profile>, rewrites: map<string, Rewrite>): map<string, Profile> {
    map i | i in entities :: if Applies(c, entities, rewrites, i) then RewriteProfile(entities[i], rewrites[i])
        else entities[i]
  }

  // The whole migration.

  /** The entities after steps 2 and 2b, and the versions after step 3. */
  function Enriched(c: Canon, t: Tables, f: Frozen): map<string, Profile> {
    GeoBackfilled(c, ProvenanceCopied(t.entities, f.mergeMap), f.geo)
  }

  function Versioned(c: Canon, t: Tables, f: Frozen): set<VersionRow> {
    MergeRowsAppended(Enriched(c, t, f), t.versions, f.mergeMap)
  }

  /** The entities step 5 sees: enriched, bumped, and without the losers. */
  function BeforeRewrite(c: Canon, t: Tables, f: Frozen): map<string, Profile> {
    VersionsBumped(Enriched(c, t, f), Versioned(c, t, f), f.mergeMap) - f.mergeMap.Keys
  }

  ghost predicate Migrated(c: Canon, t: Tables, u: Tables, f: Frozen) {
    && Repointed(t.links, u.links, MoveEntity(f.mergeMap), SurvivingLink(f.mergeMap, f.junk))
    && u.versions == VersionsWithout(Versioned(c, t, f), f.mergeMap.Keys + f.junk)
    && u.entities == Rewritten(c, BeforeRewrite(c, t, f), f.rewrites) - f.junk
  }

  /** The foreign keys of the tables, the unique slot index, and the version ledger: one row per version,
      none above the entity's own version, at most one merge row. */
  ghost predicate WellFormed(c: Canon, t: Tables) {
    && LinksResolve(t) && SlotsUnique(c, t.entities) && VersionsOk(t.entities, t.versions)
  }

  ghost predicate LinksResolve(t: Tables) {
    forall k | k in t.links :: k.entity in t.entities
  }

  ghost predicate SlotsUnique(c: Canon, entities: map<string, Profile>) {
    forall a, b | a in entities && b in entities && a != b :: Slot(c, entities[a]) != Slot(c, entities[b])
  }

  ghost predicate VersionsOk(entities: map<string, Profile>, versions: set<VersionRow>) {
    && (forall v | v in versions :: v.entity in entities && v.version <= entities[v.entity].version)
    && (forall v, w | v in versions && w in versions && v != w ::
          v.entity == w.entity ==> v.version != w.version && !(v.event == MERGE_EVENT && w.event == MERGE_EVENT))
  }

  /** No two survivors want one slot. */
  ghost predicate TargetsDistinct(c: Canon, rewrites: map<string, Rewrite>) {
    forall s1, s2 | s1 in rewrites && s2 in rewrites && s1 != s2 ::
      SlotOf(c, rewrites[s1].name, rewrites[s1].cls) != SlotOf(c, rewrites[s2].name, rewrites[s2].cls)
  }

  /** What the planner guarantees about the frozen decisions. */
  ghost predicate Sound(c: Canon, f: Frozen) {
    && f.mergeMap.Keys !! f.mergeMap.Values
    && f.junk !! f.mergeMap.Keys && f.junk !! f.mergeMap.Values
    && f.rewrites.Keys <= f.mergeMap.Values && f.geo.Keys <= f.mergeMap.Values
    && TargetsDistinct(c, f.rewrites)
  }

  class EntityStore {
    var entities: map<string, Profile>
    var links: map<LinkKey, LinkRow>
    var versions: set<VersionRow>

    ghost function Snapshot(): Tables
      reads this
    {
      Tables(entities, links, versions)
    }

    method DeleteEntities(ids: set<string>)
      modifies this
      ensures entities == old(entities) - ids
      ensures links == DropLinks(old(links), ids)
      ensures versions == VersionsWithout(old(versions), ids)
    {
      entities := entities - ids;
      links := DropLinks(links, ids);
      versions := VersionsWithout(versions, ids);
    }

    /** One transaction. Decisions without a merge are written out as an `INSERT` with an empty list of values,
        which does not parse; a link that would be moved onto an entity that is not there violates the foreign
        key. Either way the transaction is rolled back, junk and all. */
    method Migrate(c: Canon, f: Frozen) returns (ok: bool)
      requires Sound(c, f) && LinksResolve(Snapshot())
      modifies this
      ensures ok <==>
              && f.mergeMap != map[]
              && forall k | k in old(links) && k.entity in f.mergeMap :: f.mergeMap[k.entity] in old(entities)
      ensures !ok ==> Snapshot() == old(Snapshot())
      ensures ok ==> Migrated(c, old(Snapshot()), Snapshot(), f)
    {
      hide Repointed, Inserted, ProvenanceCopied, GeoBackfilled, MergeRowsAppended, VersionsBumped, Rewritten,
          VersionsWithout,
           DropLinks, MoveEntity, SurvivingLink, Migrated;
      ghost var t := Snapshot();
      if f.mergeMap == map[] {
        return false;
      }
      var selected := set k | k in links && k.entity in f.mergeMap;
      if exists k | k in selected :: f.mergeMap[k.entity] !in entities {
        return false;
      }
      links := InsertOnConflictDoNothing(links, selected, MoveEntity(f.mergeMap));
      entities := ProvenanceCopied(entities, f.mergeMap);
      entities := GeoBackfilled(c, entities, f.geo);
      versions := MergeRowsAppended(entities, versions, f.mergeMap);
      entities := VersionsBumped(entities, versions, f.mergeMap);
      LinksMoved(t.links, links, selected, f);
      DeleteEntities(f.mergeMap.Keys);
      entities := Rewritten(c, entities, f.rewrites);
      DeleteEntities(f.junk);
      VersionsWithoutBoth(Versioned(c, t, f), f.mergeMap.Keys, f.junk);
      MigratedByParts(c, t, Snapshot(), f);
      ok := true;
    }
  }

  function DropLinks(links: map<LinkKey, LinkRow>, ids: set<string>): map<LinkKey, LinkRow> {
    map k | k in links && k.entity !in ids :: links[k]
  }

  lemma VersionsWithoutBoth(versions: set<VersionRow>, a: set<string>, b: set<string>)
    ensures VersionsWithout(VersionsWithout(versions, a), b) == VersionsWithout(versions, a + b)
  {
  }

  /** Inserting at step 1 and losing the leftovers to the cascades of steps 4 and 6 moves every link exactly once. */
  lemma LinksMoved(before: map<LinkKey, LinkRow>, middle: map<LinkKey, LinkRow>, selected: set<LinkKey>, f: Frozen)
    requires selected == set k | k in before && k.entity in f.mergeMap
    requires Inserted(before, middle, selected, MoveEntity(f.mergeMap))
    requires f.mergeMap.Keys !! f.mergeMap.Values && f.junk !! f.mergeMap.Values
    ensures Repointed(before, DropLinks(DropLinks(middle, f.mergeMap.Keys), f.junk),
                      MoveEntity(f.mergeMap), SurvivingLink(f.mergeMap, f.junk))
  {
    var after := DropLinks(middle, f.mergeMap.Keys);
    var touched := (k: LinkKey) => k.entity in f.mergeMap;
    forall k | k in before ensures MoveEntity(f.mergeMap)(k).entity !in f.mergeMap {
      if k.entity in f.mergeMap {
        assert f.mergeMap[k.entity] in f.mergeMap.Values;
      }
    }
    InsertThenDelete(before, middle, after, selected, touched, MoveEntity(f.mergeMap), AnyLink());
    JunkLinksDropped(after, f.junk);
    forall k | k in before ensures SurvivingLink(f.mergeMap, f.junk)(k) == NotJunk(f.junk)(MoveEntity(f.mergeMap)(k)) {
      if k.entity in f.mergeMap {
        assert f.mergeMap[k.entity] in f.mergeMap.Values;
      }
    }
    RepointedCompose(before, after, DropLinks(after, f.junk), MoveEntity(f.mergeMap), AnyLink(), Stay(),
        NotJunk(f.junk),
                     MoveEntity(f.mergeMap), SurvivingLink(f.mergeMap, f.junk));
  }

  function Stay(): LinkKey -> LinkKey {
    (k: LinkKey) => k
  }

  lemma JunkLinksDropped(links: map<LinkKey, LinkRow>, junk: set<string>)
    ensures Repointed(links, DropLinks(links, junk), Stay(), NotJunk(junk))
  {
    var after := DropLinks(links, junk);
    forall k | k in after ensures ComesFrom(links, Stay(), NotJunk(junk), k, after[k]) {
      assert NotJunk(junk)(k) && Stay()(k) == k;
    }
  }

  lemma MigratedByParts(c: Canon, t: Tables, u: Tables, f: Frozen)
    requires Repointed(t.links, u.links, MoveEntity(f.mergeMap), SurvivingLink(f.mergeMap, f.junk))
    requires u.versions == VersionsWithout(Versioned(c, t, f), f.mergeMap.Keys + f.junk)
    requires u.entities == Rewritten(c, BeforeRewrite(c, t, f), f.rewrites) - f.junk
    ensures Migrated(c, t, u, f)
  {
  }
}
