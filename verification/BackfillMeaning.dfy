/** What the canonicalization backfill leaves in the tables, told in their columns and the answers of the
    canonicalizer alone. */
module BackfillMeaning {
  import opened Ordering
  import opened Repoint
  import opened MergePlan
  import opened MergeMigration
  import opened CanonicalBackfill
  import opened BackfillLaws

  /** The slot a row belongs in: what the canonicalizer makes of its name and class, or the two themselves when it
      strips the name away. */
  function Place(b: Backfill, p: Profile): (string, string) {
    var (name, cls) := b.canonicalize(p.name, p.cls);
    if name == "" then (b.canon.lower(p.name), p.cls) else (b.canon.lower(name), cls)
  }

  lemma PlaceIsKey(b: Backfill, p: Profile)
    ensures Place(b, p) == KeyOf(b, p)
  {
  }

  /** The plan holds every place that several rows belong in, or one that is not canonical. */
  lemma PlannedWhen(b: Backfill, entities: map<string, Profile>, groups: map<GroupKey, seq<string>>, i: string)
    requires PlanOfBackfill(b, entities, groups) && i in entities
    ensures var p := entities[i];
            Place(b, p) in groups <==>
            || (exists j | j in entities :: j != i && Place(b, entities[j]) == Place(b, p))
            || (b.canonicalize(p.name, p.cls) != (p.name, p.cls) && b.canonicalize(p.name, p.cls).0 != "")
  {
    var k := KeyOf(b, entities[i]);
    var ms := Members(b, entities, k);
    assert i in ms;
    Several(ms, i);
    PlacesAreKeys(b, entities);
    CanonicalMeans(b, entities[i]);
    assert k in groups <==> NeedsWork(b, entities, k);
    hide KeyOf, IsCanonical, Place, PlanOfBackfill;
  }

  lemma CanonicalMeans(b: Backfill, p: Profile)
    ensures IsCanonical(b, p) <==>
            b.canonicalize(p.name, p.cls) == (p.name, p.cls) || b.canonicalize(p.name, p.cls).0 == ""
  {
  }

  /** What it holds for a place are exactly the rows that belong there, each once. */
  lemma PlannedRows(b: Backfill, entities: map<string, Profile>, groups: map<GroupKey, seq<string>>, k: GroupKey,
                    j: string)
    requires PlanOfBackfill(b, entities, groups) && k in groups
    ensures j in groups[k] <==> j in entities && Place(b, entities[j]) == k
    ensures forall x, y | 0 <= x < y < |groups[k]| :: groups[k][x] != groups[k][y]
  {
    PlacesAreKeys(b, entities);
    assert j in groups[k] <==> j in Elements(groups[k]);
    hide KeyOf, Place, NeedsWork;
  }

  lemma Several(ids: set<string>, i: string)
    requires i in ids
    ensures |ids| > 1 <==> exists j | j in ids :: j != i
    ensures |ids| <= 1 ==> ids == {i}
  {
    var rest := ids - {i};
    assert |ids| == |rest| + 1;
    if rest != {} {
      var j := Member(rest);
    } else {
      assert ids == {i};
    }
    if j :| j in ids && j != i {
      assert j in rest;
    }
  }

  /** Every row that is left is canonical, or its name strips away. */
  lemma AllCanonical(b: Backfill, t0: Tables, t: Tables, groups: map<GroupKey, seq<string>>, i: string)
    requires Idempotent(b) && PlanOfBackfill(b, t0.entities, groups)
    requires Applied(b, t0, t, groups, groups.Keys) && i in t.entities
    ensures var p := t.entities[i];
            b.canonicalize(p.name, p.cls) == (p.name, p.cls) || b.canonicalize(p.name, p.cls).0 == ""
  {
    OneRowLeft(b, t0, t, groups, i, i);
    hide Applied, PlanOfBackfill, Idempotent;
  }

  /** Where a row ends: in a row that is left, the oldest of those of its own place, the smaller id deciding; that
      row holds the place, and a row that is left ends in itself. */
  lemma RowEnds(b: Backfill, t0: Tables, t: Tables, groups: map<GroupKey, seq<string>>, i: string) returns (s: string)
    requires PlanOfBackfill(b, t0.entities, groups) && Applied(b, t0, t, groups, groups.Keys) && i in t0.entities
    ensures s in t.entities && s in t0.entities && Place(b, t0.entities[s]) == Place(b, t0.entities[i])
    ensures forall o | o in t0.entities && o != s && Place(b, t0.entities[o]) == Place(b, t0.entities[i]) ::
              || TextLess(t0.entities[s].createdAt, t0.entities[o].createdAt)
              || (t0.entities[s].createdAt == t0.entities[o].createdAt && TextLess(s, o))
    ensures i in t.entities <==> i == s
  {
    var k := KeyOf(b, t0.entities[i]);
    PlacesAreKeys(b, t0.entities);
    GroupingOfPlan(b, t0.entities, groups);
    if k in groups {
      GroupIsListed(b, t0.entities, groups, k);
      s := SurvivorOf(t0.entities, groups[k]);
      EndsIn(b, t0, t, groups, s);
      EndsIn(b, t0, t, groups, i);
      forall o | o in t0.entities && o != s && KeyOf(b, t0.entities[o]) == k
        ensures || TextLess(t0.entities[s].createdAt, t0.entities[o].createdAt)
                || (t0.entities[s].createdAt == t0.entities[o].createdAt && TextLess(s, o))
      {
        InGroup(b, t0.entities, groups, k, o);
        OldestBeatsAll(t0.entities, Elements(groups[k]), o);
      }
    } else {
      s := i;
      EndsIn(b, t0, t, groups, i);
      forall o | o in t0.entities && KeyOf(b, t0.entities[o]) == k ensures o == i {
        UnplannedRow(b, t0.entities, groups, i, o);
      }
    }
    hide KeyOf, Place, Applied, Oldest, PlanOfBackfill, Grouping, Elements;
  }

  lemma PlacesAreKeys(b: Backfill, entities: map<string, Profile>)
    ensures forall i | i in entities :: Place(b, entities[i]) == KeyOf(b, entities[i])
  {
    forall i | i in entities ensures Place(b, entities[i]) == KeyOf(b, entities[i]) {
      PlaceIsKey(b, entities[i]);
    }
  }

  lemma GroupingOfPlan(b: Backfill, entities: map<string, Profile>, groups: map<GroupKey, seq<string>>)
    requires PlanOfBackfill(b, entities, groups)
    ensures Grouping(b, entities, groups)
  {
    hide NeedsWork;
  }

  /** What is left of a row: nothing when another one survives its group, the folded row when it does itself, and
      the row as it was when its group was not planned. */
  lemma EndsIn(b: Backfill, t0: Tables, t: Tables, groups: map<GroupKey, seq<string>>, i: string)
    requires Grouping(b, t0.entities, groups) && Applied(b, t0, t, groups, groups.Keys) && i in t0.entities
    ensures var k := KeyOf(b, t0.entities[i]);
            && (k in groups ==>
                  && groups[k] != [] && Elements(groups[k]) <= t0.entities.Keys && groups[k][0] in t0.entities
                  && (i in t.entities <==> i == SurvivorOf(t0.entities, groups[k]))
                  && (i in t.entities ==>
                        t.entities[i] == Folded(b, t0.entities, Elements(groups[k]), i,
                                                TargetOf(b, t0.entities[groups[k][0]]), t0.entities[i])))
            && (k !in groups ==> i in t.entities && t.entities[i] == t0.entities[i])
  {
    var k := KeyOf(b, t0.entities[i]);
    if k in groups {
      GroupIsListed(b, t0.entities, groups, k);
    }
    assert RowIs(b, t0, t, groups, groups.Keys, i);
    hide KeyOf, Folded, Oldest, Grouping, LinksAre, VersionsAre, TargetOf;
  }

  lemma NotBothFirst(x: string, y: string, s: string, r: string)
    ensures !((TextLess(x, y) || (x == y && TextLess(s, r))) && (TextLess(y, x) || (y == x && TextLess(r, s))))
  {
    TextStrictTotal({x, y});
    TextStrictTotal({s, r});
  }

  /** Two rows end in one row exactly when they belong in one place. */
  lemma EndTogether(b: Backfill, t0: Tables, t: Tables, groups: map<GroupKey, seq<string>>, i: string, j: string)
    returns (s: string, r: string)
    requires PlanOfBackfill(b, t0.entities, groups) && Applied(b, t0, t, groups, groups.Keys)
    requires i in t0.entities && j in t0.entities
    ensures s in t.entities && r in t.entities && s in t0.entities && r in t0.entities
    ensures i in t.entities <==> i == s
    ensures j in t.entities <==> j == r
    ensures s == r <==> Place(b, t0.entities[i]) == Place(b, t0.entities[j])
    ensures Carries(b, t0, t, i, s) && Carries(b, t0, t, j, r)
  {
    s := RowEnds(b, t0, t, groups, i);
    r := RowEnds(b, t0, t, groups, j);
    hide Applied, PlanOfBackfill, Place, Carries;
    CarriesAll(b, t0, t, groups, i, s);
    CarriesAll(b, t0, t, groups, j, r);
    NotBothFirst(t0.entities[s].createdAt, t0.entities[r].createdAt, s, r);
  }

  /** The row `s` that is left holds the place of `i`, its lineage and its links, and its id and former name when they
      are not `s` and its name. */
  ghost predicate Carries(b: Backfill, t0: Tables, t: Tables, i: string, s: string) {
    && i in t0.entities && s in t.entities
    && var (p, q) := (t0.entities[i], t.entities[s]);
       && (b.canon.lower(q.name), q.cls) == Place(b, p)
       && p.derived <= q.derived && (i != s ==> i in q.derived)
       && ((p.name, p.cls) != (q.name, q.cls) ==> p.name in q.aliases && b.marker(p.name) in q.derived)
       && forall l | l in t0.links && l.entity == i :: l.(entity := s) in t.links
  }

  lemma CarriesAll(b: Backfill, t0: Tables, t: Tables, groups: map<GroupKey, seq<string>>, i: string, s: string)
    requires PlanOfBackfill(b, t0.entities, groups) && Applied(b, t0, t, groups, groups.Keys)
    requires i in t0.entities && s in t0.entities && s in t.entities && (i in t.entities <==> i == s)
    requires Place(b, t0.entities[s]) == Place(b, t0.entities[i])
    ensures Carries(b, t0, t, i, s)
  {
    GroupingOfPlan(b, t0.entities, groups);
    PlaceIsKey(b, t0.entities[i]);
    PlaceIsKey(b, t0.entities[s]);
    var k := KeyOf(b, t0.entities[i]);
    EndsIn(b, t0, t, groups, s);
    EndsIn(b, t0, t, groups, i);
    if k in groups {
      MemberFolded(b, t0, t, groups, i);
      FoldedSlot(b, t0, groups, k, Elements(groups[k]), s, t0.entities[s]);
      FoldedName(b, t0.entities, Elements(groups[k]), s, TargetOf(b, t0.entities[groups[k][0]]), t0.entities[s]);
      GroupIsListed(b, t0.entities, groups, k);
    } else {
      UnplannedRow(b, t0.entities, groups, i, i);
      UnplannedLinks(b, t0, t, groups, i);
    }
    hide KeyOf, Place, Applied, Oldest, PlanOfBackfill, Grouping, Elements, Folded;
  }

  lemma FoldedName(b: Backfill, planned: map<string, Profile>, ids: set<string>, s: string, to: (string, string),
                   p: Profile)
    ensures var q := Folded(b, planned, ids, s, to, p); q.name == to.0 && q.cls == to.1
  {
  }

  lemma UnplannedLinks(b: Backfill, t0: Tables, t: Tables, groups: map<GroupKey, seq<string>>, i: string)
    requires Grouping(b, t0.entities, groups) && Applied(b, t0, t, groups, groups.Keys)
    requires i in t0.entities && KeyOf(b, t0.entities[i]) !in groups
    ensures forall l | l in t0.links && l.entity == i :: l in t.links
  {
    forall l | l in t0.links && l.entity == i ensures l in t.links {
      assert MoveEntity(HomeAfter(b, t0.entities, groups, groups.Keys))(l) == l;
    }
  }

  /** `q` is the row `s` after the merge of its place: named as some row of the place is canonicalized, one version
      up, and with exactly the lineage of the rows of the place, the ids of the others, and name and marker of those
      that were named differently. */
  ghost predicate Enlarged(b: Backfill, entities: map<string, Profile>, s: string, q: Profile)
    requires s in entities
  {
    var p := entities[s];
    var ids := set o | o in entities && Place(b, entities[o]) == Place(b, p);
    && q.source == p.source && q.createdAt == p.createdAt && q.geo == p.geo
    && q.version == p.version + 1 && q.entityType == q.cls
    && (exists f | f in ids ::
          var (name, cls) := b.canonicalize(entities[f].name, entities[f].cls);
          (q.name, q.cls) == if name == "" then (entities[f].name, entities[f].cls) else (name, cls))
    && (forall a :: a in q.aliases <==>
          || a in p.aliases
          || exists o | o in ids :: (entities[o].name, entities[o].cls) != (q.name, q.cls) && entities[o].name == a)
    && (forall d :: d in q.derived <==>
          || d in p.derived
          || exists o | o in ids ::
               || d in entities[o].derived || (o != s && d == o)
               || ((entities[o].name, entities[o].cls) != (q.name, q.cls) && d == b.marker(entities[o].name)))
  }

  /** A row that is left is as it was when its place was not planned, and enlarged otherwise. */
  lemma RowLeft(b: Backfill, t0: Tables, t: Tables, groups: map<GroupKey, seq<string>>, s: string)
    requires PlanOfBackfill(b, t0.entities, groups) && Applied(b, t0, t, groups, groups.Keys) && s in t.entities
    ensures s in t0.entities
    ensures if Place(b, t0.entities[s]) in groups then Enlarged(b, t0.entities, s, t.entities[s])
            else t.entities[s] == t0.entities[s]
  {
    assert s in t0.entities;
    hide *;
    GroupingOfPlan(b, t0.entities, groups);
    PlacesAreKeys(b, t0.entities);
    var k := KeyOf(b, t0.entities[s]);
    EndsIn(b, t0, t, groups, s);
    if k in groups {
      PlannedIds(b, t0.entities, groups, k, s);
      EnlargedByFold(b, t0.entities, Elements(groups[k]), s, groups[k][0]);
    }
  }

  lemma PlannedIds(b: Backfill, entities: map<string, Profile>, groups: map<GroupKey, seq<string>>, k: GroupKey,
                   s: string)
    requires Grouping(b, entities, groups) && k in groups && s in entities && Place(b, entities[s]) == k
    ensures groups[k] != [] && groups[k][0] in Elements(groups[k])
    ensures Elements(groups[k]) == set o | o in entities && Place(b, entities[o]) == Place(b, entities[s])
  {
    PlacesAreKeys(b, entities);
    assert groups[k][0] in Elements(groups[k]);
    assert Elements(groups[k]) == Members(b, entities, k);
    hide KeyOf, Place;
  }

  lemma EnlargedByFold(b: Backfill, entities: map<string, Profile>, ids: set<string>, s: string, f: string)
    requires s in entities && f in ids
    requires ids == set o | o in entities && Place(b, entities[o]) == Place(b, entities[s])
    ensures f in entities
    ensures Enlarged(b, entities, s, Folded(b, entities, ids, s, TargetOf(b, entities[f]), entities[s]))
  {
    FoldedIs(b, entities, ids, s, TargetOf(b, entities[f]), entities[s]);
    TargetMeans(b, entities[f]);
    hide Folded, TargetOf, Place;
  }

  lemma TargetMeans(b: Backfill, p: Profile)
    ensures var (name, cls) := b.canonicalize(p.name, p.cls);
            TargetOf(b, p) == if name == "" then (p.name, p.cls) else (name, cls)
  {
  }

  lemma FoldedIs(b: Backfill, planned: map<string, Profile>, ids: set<string>, s: string, to: (string, string),
                 p: Profile)
    requires ids <= planned.Keys
    ensures var q := Folded(b, planned, ids, s, to, p);
            && q.source == p.source && q.createdAt == p.createdAt && q.geo == p.geo
            && q.version == p.version + 1 && q.entityType == q.cls && (q.name, q.cls) == to
            && (forall a :: a in q.aliases <==>
                  || a in p.aliases
                  || exists o | o in ids :: (planned[o].name, planned[o].cls) != to && planned[o].name == a)
            && (forall d :: d in q.derived <==>
                  || d in p.derived
                  || exists o | o in ids ::
                       || d in planned[o].derived || (o != s && d == o)
                       || ((planned[o].name, planned[o].cls) != to && d == b.marker(planned[o].name)))
  {
  }

  /** The version rows of the rows that are left stay, and each row whose place was planned has one more. */
  lemma VersionsLeft(b: Backfill, t0: Tables, t: Tables, groups: map<GroupKey, seq<string>>, v: VersionRow)
    requires PlanOfBackfill(b, t0.entities, groups) && Applied(b, t0, t, groups, groups.Keys)
    ensures v in t.versions <==>
            || (v in t0.versions && (v.entity in t0.entities ==> v.entity in t.entities))
            || (&& v.entity in t0.entities && v.entity in t.entities && Place(b, t0.entities[v.entity]) in groups
                && var q := t.entities[v.entity];
                   v == VersionRow(v.entity, q.version, "backfill_canonicalize", q.name, q.cls, q.aliases, 0))
  {
    GroupingOfPlan(b, t0.entities, groups);
    PlacesAreKeys(b, t0.entities);
    assert VersionStays(b, t0, groups, groups.Keys, v) <==> v in t.versions;
    if v.entity in t0.entities {
      assert RowIs(b, t0, t, groups, groups.Keys, v.entity);
      if KeyOf(b, t0.entities[v.entity]) !in groups {
        EndsIn(b, t0, t, groups, v.entity);
      }
    }
    hide KeyOf, Place, LinksAre, VersionsAre, PlanOfBackfill, Grouping, RowAfter, Applied;
  }

  /** Every link is where its entity ends, and there is no further one. */
  lemma LinksLeft(b: Backfill, t0: Tables, t: Tables, groups: map<GroupKey, seq<string>>, k: LinkKey)
    requires PlanOfBackfill(b, t0.entities, groups) && Applied(b, t0, t, groups, groups.Keys) && LinksResolve(t0)
    ensures k in t.links <==>
            exists k0 | k0 in t0.links ::
              && k0.signal == k.signal && k0.role == k.role && k0.entity in t0.entities
              && k.entity in t0.entities && k.entity in t.entities
              && Place(b, t0.entities[k.entity]) == Place(b, t0.entities[k0.entity])
  {
    hide *;
    GroupingOfPlan(b, t0.entities, groups);
    LinkImage(b, t0, t, groups, k);
    if k in t.links {
      var k0 :| k0 in t0.links && k0.signal == k.signal && k0.role == k.role
                && k.entity == EndOf(b, t0.entities, groups, k0.entity);
      LinkEntity(t0, k0);
      HomeIsEnd(b, t0, t, groups, k0.entity, k.entity);
    }
    if k0 :| k0 in t0.links && k0.signal == k.signal && k0.role == k.role && k0.entity in t0.entities
             && k.entity in t0.entities && k.entity in t.entities
             && Place(b, t0.entities[k.entity]) == Place(b, t0.entities[k0.entity]) {
      HomeIsEnd(b, t0, t, groups, k0.entity, k.entity);
    }
  }

  lemma LinkEntity(t: Tables, k: LinkKey)
    requires LinksResolve(t) && k in t.links
    ensures k.entity in t.entities
  {
  }

  ghost function EndOf(b: Backfill, entities: map<string, Profile>, groups: map<GroupKey, seq<string>>, i: string)
    : string
    requires Grouping(b, entities, groups)
  {
    var home := HomeAfter(b, entities, groups, groups.Keys);
    if i in home then home[i] else i
  }

  lemma LinkImage(b: Backfill, t0: Tables, t: Tables, groups: map<GroupKey, seq<string>>, k: LinkKey)
    requires Grouping(b, t0.entities, groups) && Applied(b, t0, t, groups, groups.Keys)
    ensures k in t.links <==>
            exists k0 | k0 in t0.links ::
              k0.signal == k.signal && k0.role == k.role && k.entity == EndOf(b, t0.entities, groups, k0.entity)
  {
    hide Applied, HomeAfter, Grouping, Repointed, MoveEntity, Members, Elements, NoRepeats, KeyOf;
    var home := HomeAfter(b, t0.entities, groups, groups.Keys);
    AppliedParts(b, t0, t, groups, groups.Keys);
    MovedImage(t0.links, t.links, home, k);
  }

  lemma MovedImage(before: map<LinkKey, LinkRow>, after: map<LinkKey, LinkRow>, home: map<string, string>, k: LinkKey)
    requires Repointed(before, after, MoveEntity(home), AnyLink())
    ensures k in after <==>
            exists k0 | k0 in before :: k0.signal == k.signal && k0.role == k.role
              && k.entity == if k0.entity in home then home[k0.entity] else k0.entity
  {
    RepointedKeys(before, after, MoveEntity(home), AnyLink());
    hide Repointed;
    if k in after {
      var k0 :| k0 in before && AnyLink()(k0) && MoveEntity(home)(k0) == k;
    }
    if k0 :| k0 in before && k0.signal == k.signal && k0.role == k.role
             && k.entity == if k0.entity in home then home[k0.entity] else k0.entity {
      assert MoveEntity(home)(k0) == k && AnyLink()(k0);
    }
  }

  lemma HomeIsEnd(b: Backfill, t0: Tables, t: Tables, groups: map<GroupKey, seq<string>>, i: string, s: string)
    requires PlanOfBackfill(b, t0.entities, groups) && Applied(b, t0, t, groups, groups.Keys) && i in t0.entities
    requires Grouping(b, t0.entities, groups)
    ensures EndOf(b, t0.entities, groups, i) == s <==>
            s in t0.entities && s in t.entities && Place(b, t0.entities[s]) == Place(b, t0.entities[i])
  {
    hide *;
    PlacesAreKeys(b, t0.entities);
    var k := KeyOf(b, t0.entities[i]);
    EndIs(b, t0.entities, groups, i);
    EndsIn(b, t0, t, groups, i);
    if s in t0.entities {
      EndsIn(b, t0, t, groups, s);
    }
    if k in groups {
      GroupIsListed(b, t0.entities, groups, k);
      var w := SurvivorOf(t0.entities, groups[k]);
      SurvivorListed(t0.entities, groups[k]);
      EndsIn(b, t0, t, groups, w);
    } else if s in t0.entities && KeyOf(b, t0.entities[s]) == k {
      UnplannedRow(b, t0.entities, groups, i, s);
    }
  }

  lemma SurvivorListed(entities: map<string, Profile>, q: seq<string>)
    requires q != [] && Elements(q) <= entities.Keys
    ensures SurvivorOf(entities, q) in entities
  {
    NoElements(q);
    assert SurvivorOf(entities, q) in Elements(q);
  }

  lemma EndIs(b: Backfill, entities: map<string, Profile>, groups: map<GroupKey, seq<string>>, i: string)
    requires Grouping(b, entities, groups) && i in entities
    ensures var k := KeyOf(b, entities[i]);
            && (k in groups ==>
                  && groups[k] != [] && Elements(groups[k]) <= entities.Keys
                  && EndOf(b, entities, groups, i) == SurvivorOf(entities, groups[k]))
            && (k !in groups ==> EndOf(b, entities, groups, i) == i)
  {
    var k := KeyOf(b, entities[i]);
    if k in groups {
      GroupIsListed(b, entities, groups, k);
    }
    hide KeyOf, Folded, TargetOf, SurvivorOf, Grouping, Elements;
  }
}
