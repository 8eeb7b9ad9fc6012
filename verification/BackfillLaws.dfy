/** The canonicalization backfill as a whole: what every group keeps, what the run leaves, and its own
    post-check. */
module BackfillLaws {
  import opened Ordering
  import opened Repoint
  import opened MergePlan
  import opened MergeMigration
  import opened CanonicalBackfill

  /** Canonicalizing a canonical result changes nothing more. */
  ghost predicate Idempotent(b: Backfill) {
    forall n, k :: var r := b.canonicalize(n, k); r.0 != "" ==> b.canonicalize(r.0, r.1) == r
  }

  /** A name that differs in case only from one that is canonical, or that strips away to nothing, is canonicalized
      to that one, up to case, or strips away as well. */
  ghost predicate IgnoresCase(b: Backfill) {
    forall m, n, k ::
      b.canon.lower(m) == b.canon.lower(n) && (b.canonicalize(n, k) == (n, k) || b.canonicalize(n, k).0 == "") ==>
        var (name, cls) := b.canonicalize(m, k);
        name == "" || (b.canon.lower(name) == b.canon.lower(n) && cls == k)
  }

  lemma TargetIsFixed(b: Backfill, name: string, cls: string)
    requires Idempotent(b)
    ensures var r := Target(b, name, cls); Target(b, r.0, r.1) == r
  {
  }

  /** A row that sits in the slot some row canonicalizes to belongs to that row's group. */
  lemma SlotBelongsToGroup(b: Backfill, p: Profile, q: Profile)
    requires Idempotent(b) && IgnoresCase(b) && Slot(b.canon, p) == KeyOf(b, q)
    ensures KeyOf(b, p) == KeyOf(b, q)
  {
    var r := TargetOf(b, q);
    TargetIsFixed(b, q.name, q.cls);
    assert b.canon.lower(p.name) == b.canon.lower(r.0) && p.cls == r.1;
  }

  // The state after some groups, in whatever order they were applied.

  function SurvivorOf(entities: map<string, Profile>, q: seq<string>): string
    requires q != [] && Elements(q) <= entities.Keys
  {
    NoElements(q);
    Oldest(entities, Elements(q))
  }

  ghost predicate Grouping(b: Backfill, entities: map<string, Profile>, groups: map<GroupKey, seq<string>>) {
    forall k | k in groups :: groups[k] != [] && NoRepeats(groups[k]) && Elements(groups[k]) == Members(b, entities, k)
  }

  lemma GroupIsListed(b: Backfill, entities: map<string, Profile>, groups: map<GroupKey, seq<string>>, k: GroupKey)
    requires Grouping(b, entities, groups) && k in groups
    ensures groups[k] != [] && Elements(groups[k]) <= entities.Keys && groups[k][0] in entities
    ensures SurvivorOf(entities, groups[k]) in Elements(groups[k])
    ensures KeyOf(b, entities[SurvivorOf(entities, groups[k])]) == k
    ensures KeyOf(b, entities[groups[k][0]]) == k
  {
    assert groups[k][0] in Elements(groups[k]);
    assert SurvivorOf(entities, groups[k]) in Elements(groups[k]);
  }

  ghost function GroupSurvivor(b: Backfill, entities: map<string, Profile>, groups: map<GroupKey, seq<string>>,
                               k: GroupKey): (s: string)
    requires Grouping(b, entities, groups) && k in groups
    ensures s in entities && KeyOf(b, entities[s]) == k
  {
    GroupIsListed(b, entities, groups, k);
    SurvivorOf(entities, groups[k])
  }

  /** The name and class a group is renamed to: those its first row canonicalizes to. */
  ghost function GroupTarget(b: Backfill, entities: map<string, Profile>, groups: map<GroupKey, seq<string>>,
                             k: GroupKey): (string, string)
    requires Grouping(b, entities, groups) && k in groups
  {
    GroupIsListed(b, entities, groups, k);
    TargetOf(b, entities[groups[k][0]])
  }

  /** The row `i` once the groups `done` have been applied; absent when it was merged away. */
  ghost function RowAfter(b: Backfill, entities: map<string, Profile>, groups: map<GroupKey, seq<string>>,
                          done: set<GroupKey>, i: string): Option<Profile>
    requires Grouping(b, entities, groups) && done <= groups.Keys && i in entities
  {
    var k := KeyOf(b, entities[i]);
    if k !in done then Some(entities[i])
    else
      GroupIsListed(b, entities, groups, k);
      if i == SurvivorOf(entities, groups[k]) then
        Some(Folded(b, entities, Elements(groups[k]), i, TargetOf(b, entities[groups[k][0]]), entities[i]))
      else None
  }

  /** Where the links of `i` are once the groups `done` have been applied. */
  ghost function HomeAfter(b: Backfill, entities: map<string, Profile>, groups: map<GroupKey, seq<string>>,
                           done: set<GroupKey>): map<string, string>
    requires Grouping(b, entities, groups) && done <= groups.Keys
  {
    map i | i in entities && KeyOf(b, entities[i]) in done && RowAfter(b, entities, groups, done, i).None? ::
      (GroupIsListed(b, entities, groups, KeyOf(b, entities[i])); SurvivorOf(entities, groups[KeyOf(b, entities[i])]))
  }

  /** The row `i` is now as the groups `done` leave it. */
  ghost predicate RowIs(b: Backfill, t0: Tables, t: Tables, groups: map<GroupKey, seq<string>>, done: set<GroupKey>,
                        i: string)
    requires Grouping(b, t0.entities, groups) && done <= groups.Keys && i in t0.entities
  {
    var r := RowAfter(b, t0.entities, groups, done, i);
    (i in t.entities <==> r.Some?) && (r.Some? ==> t.entities[i] == r.value)
  }

  ghost predicate LinksAre(b: Backfill, t0: Tables, t: Tables, groups: map<GroupKey, seq<string>>, done: set<GroupKey>)
    requires Grouping(b, t0.entities, groups) && done <= groups.Keys
  {
    Repointed(t0.links, t.links, MoveEntity(HomeAfter(b, t0.entities, groups, done)), AnyLink())
  }

  /** The version row a finished group leaves on its survivor. */
  ghost predicate IsBackfillRow(b: Backfill, entities: map<string, Profile>, groups: map<GroupKey, seq<string>>,
                                done: set<GroupKey>, v: VersionRow)
    requires Grouping(b, entities, groups) && done <= groups.Keys
  {
    v.entity in entities && KeyOf(b, entities[v.entity]) in done &&
    var p := RowAfter(b, entities, groups, done, v.entity);
    p.Some? && v == BackfillRow(v.entity, p.value)
  }

  /** The version rows are those of the rows that are left, and one for every finished group. */
  ghost predicate VersionsAre(b: Backfill, t0: Tables, t: Tables, groups: map<GroupKey, seq<string>>,
                              done: set<GroupKey>)
    requires Grouping(b, t0.entities, groups) && done <= groups.Keys
  {
    forall v :: v in t.versions <==> VersionStays(b, t0, groups, done, v)
  }

  ghost predicate VersionStays(b: Backfill, t0: Tables, groups: map<GroupKey, seq<string>>, done: set<GroupKey>,
                               v: VersionRow)
    requires Grouping(b, t0.entities, groups) && done <= groups.Keys
  {
    || (v in t0.versions && v.entity !in HomeAfter(b, t0.entities, groups, done))
    || IsBackfillRow(b, t0.entities, groups, done, v)
  }

  ghost predicate Applied(b: Backfill, t0: Tables, t: Tables, groups: map<GroupKey, seq<string>>, done: set<GroupKey>)
    requires Grouping(b, t0.entities, groups) && done <= groups.Keys
  {
    && t.entities.Keys <= t0.entities.Keys
    && (forall i | i in t0.entities :: RowIs(b, t0, t, groups, done, i))
    && LinksAre(b, t0, t, groups, done) && VersionsAre(b, t0, t, groups, done)
  }

  /** A row's group never changes while the backfill runs, and a finished group is canonical. */
  lemma KeysKept(b: Backfill, t0: Tables, t: Tables, groups: map<GroupKey, seq<string>>, done: set<GroupKey>, i: string)
    requires Grouping(b, t0.entities, groups) && done <= groups.Keys && Applied(b, t0, t, groups, done) && Idempotent(b)
             && i in t.entities
    ensures i in t0.entities && KeyOf(b, t.entities[i]) == KeyOf(b, t0.entities[i])
    ensures KeyOf(b, t0.entities[i]) in done ==> IsCanonical(b, t.entities[i])
  {
    var k := KeyOf(b, t0.entities[i]);
    assert RowAfter(b, t0.entities, groups, done, i).Some?;
    if k in done {
      GroupIsListed(b, t0.entities, groups, k);
      var first := t0.entities[groups[k][0]];
      TargetIsFixed(b, first.name, first.cls);
      hide Markers, Readable;
      assert (t.entities[i].name, t.entities[i].cls) == TargetOf(b, first);
    }
  }

  ghost predicate GroupDone(b: Backfill, t0: Tables, t: Tables, u: Tables, groups: map<GroupKey, seq<string>>,
                            k: GroupKey)
    requires Grouping(b, t0.entities, groups) && k in groups
  {
    GroupIsListed(b, t0.entities, groups, k);
    GroupApplied(b, t0.entities, t, u, Elements(groups[k]), SurvivorOf(t0.entities, groups[k]),
        TargetOf(b, t0.entities[groups[k][0]]))
  }

  lemma GroupRow(b: Backfill, t0: Tables, t: Tables, u: Tables, groups: map<GroupKey, seq<string>>, k: GroupKey,
                 i: string)
    requires Grouping(b, t0.entities, groups) && k in groups && GroupDone(b, t0, t, u, groups, k)
    ensures groups[k] != [] && groups[k][0] in t0.entities && Elements(groups[k]) <= t0.entities.Keys
    ensures var ids, s := Elements(groups[k]), SurvivorOf(t0.entities, groups[k]);
            && s in ids && s in t.entities
            && (i !in ids ==>
                  (i in u.entities <==> i in t.entities) && (i in t.entities ==> u.entities[i] == t.entities[i]))
            && (i in ids && i != s ==> i !in u.entities)
            && s in u.entities
            && u.entities[s] == Folded(b, t0.entities, ids, s, TargetOf(b, t0.entities[groups[k][0]]), t.entities[s])
  {
    GroupIsListed(b, t0.entities, groups, k);
    hide Repointed, Folded, TargetOf, SurvivorOf, Grouping;
  }

  lemma InGroup(b: Backfill, entities: map<string, Profile>, groups: map<GroupKey, seq<string>>, k: GroupKey, i: string)
    requires Grouping(b, entities, groups) && k in groups && i in entities
    ensures i in Elements(groups[k]) <==> KeyOf(b, entities[i]) == k
  {
  }

  lemma RowStep(b: Backfill, t0: Tables, t: Tables, u: Tables, groups: map<GroupKey, seq<string>>, done: set<GroupKey>,
                k: GroupKey, i: string)
    requires Grouping(b, t0.entities, groups) && done <= groups.Keys && k in groups && k !in done && i in t0.entities
    requires RowIs(b, t0, t, groups, done, i) && GroupDone(b, t0, t, u, groups, k)
    ensures RowIs(b, t0, u, groups, done + {k}, i)
  {
    hide LinksAre, Folded, TargetOf, Oldest, GroupDone, Applied, Grouping, KeyOf, Elements, SurvivorOf;
    GroupRow(b, t0, t, u, groups, k, i);
    InGroup(b, t0.entities, groups, k, i);
  }

  lemma HomeStep(b: Backfill, t0: Tables, groups: map<GroupKey, seq<string>>, done: set<GroupKey>, k: GroupKey,
                 key: LinkKey)
    requires Grouping(b, t0.entities, groups) && done <= groups.Keys && k in groups && k !in done
    ensures var s := SurvivorOf(t0.entities, groups[k]);
            var h := MoveEntity(HomeAfter(b, t0.entities, groups, done + {k}));
            var f, g := MoveEntity(HomeAfter(b, t0.entities, groups, done)), MoveEntity(Onto(Elements(groups[k]), s));
            && h(key) == g(f(key))
            && (h(key) == key ==> f(key) == key)
  {
    hide Folded, TargetOf, Oldest;
    var i := key.entity;
    GroupIsListed(b, t0.entities, groups, k);
    if i in t0.entities {
      var ki := KeyOf(b, t0.entities[i]);
      assert i in Elements(groups[k]) <==> ki == k;
      if ki in done {
        GroupIsListed(b, t0.entities, groups, ki);
        assert SurvivorOf(t0.entities, groups[ki]) !in Elements(groups[k]);
      }
    } else {
      assert i !in Elements(groups[k]);
    }
    hide KeyOf, Elements, SurvivorOf;
  }

  lemma GroupLinks(b: Backfill, t0: Tables, t: Tables, u: Tables, groups: map<GroupKey, seq<string>>, k: GroupKey)
    requires Grouping(b, t0.entities, groups) && k in groups && GroupDone(b, t0, t, u, groups, k)
    ensures groups[k] != [] && Elements(groups[k]) <= t0.entities.Keys && u.entities.Keys <= t.entities.Keys
    ensures Repointed(t.links, u.links, MoveEntity(Onto(Elements(groups[k]), SurvivorOf(t0.entities, groups[k]))),
            AnyLink())
  {
    GroupIsListed(b, t0.entities, groups, k);
    hide Repointed, Folded, SurvivorOf;
  }

  lemma LinksStep(b: Backfill, t0: Tables, t: Tables, u: Tables, groups: map<GroupKey, seq<string>>,
                  done: set<GroupKey>, k: GroupKey)
    requires Grouping(b, t0.entities, groups) && done <= groups.Keys && k in groups && k !in done
    requires LinksAre(b, t0, t, groups, done) && GroupDone(b, t0, t, u, groups, k)
    ensures LinksAre(b, t0, u, groups, done + {k})
  {
    GroupLinks(b, t0, t, u, groups, k);
    hide GroupDone, Grouping, Repointed, HomeAfter, MoveEntity, Onto, SurvivorOf;
    var f := MoveEntity(HomeAfter(b, t0.entities, groups, done));
    var g := MoveEntity(Onto(Elements(groups[k]), SurvivorOf(t0.entities, groups[k])));
    var h := MoveEntity(HomeAfter(b, t0.entities, groups, done + {k}));
    forall key ensures h(key) == g(f(key)) && (h(key) == key ==> f(key) == key) {
      HomeStep(b, t0, groups, done, k, key);
    }
    RepointedCompose(t0.links, t.links, u.links, f, AnyLink(), g, AnyLink(), h, AnyLink());
  }

  lemma GroupVersions(b: Backfill, t0: Tables, t: Tables, u: Tables, groups: map<GroupKey, seq<string>>, k: GroupKey)
    requires Grouping(b, t0.entities, groups) && k in groups && GroupDone(b, t0, t, u, groups, k)
    ensures groups[k] != [] && Elements(groups[k]) <= t0.entities.Keys
    ensures var s := SurvivorOf(t0.entities, groups[k]);
            && s in u.entities
            && u.versions == VersionsWithout(t.versions, Elements(groups[k]) - {s}) + {BackfillRow(s, u.entities[s])}
  {
    GroupIsListed(b, t0.entities, groups, k);
    hide Repointed, Folded, SurvivorOf, TargetOf, Grouping, BackfillRow;
  }

  lemma StaysStep(b: Backfill, t0: Tables, groups: map<GroupKey, seq<string>>, done: set<GroupKey>, k: GroupKey,
                  v: VersionRow)
    requires Grouping(b, t0.entities, groups) && done <= groups.Keys && k in groups && k !in done
    ensures groups[k] != [] && Elements(groups[k]) <= t0.entities.Keys
    ensures SurvivorOf(t0.entities, groups[k]) in t0.entities
    ensures var ids, s := Elements(groups[k]), SurvivorOf(t0.entities, groups[k]);
            var p := RowAfter(b, t0.entities, groups, done + {k}, s);
            && p.Some?
            && (VersionStays(b, t0, groups, done + {k}, v) <==>
                  (VersionStays(b, t0, groups, done, v) && v.entity !in ids - {s}) || v == BackfillRow(s, p.value))
  {
    hide Folded, TargetOf, SurvivorOf, KeyOf, Elements, Grouping, Oldest, Members, NoRepeats;
    GroupIsListed(b, t0.entities, groups, k);
    if v.entity in t0.entities {
      InGroup(b, t0.entities, groups, k, v.entity);
    }
  }

  lemma VersionsStep(b: Backfill, t0: Tables, t: Tables, u: Tables, groups: map<GroupKey, seq<string>>,
                     done: set<GroupKey>, k: GroupKey)
    requires Grouping(b, t0.entities, groups) && done <= groups.Keys && k in groups && k !in done
    requires VersionsAre(b, t0, t, groups, done) && GroupDone(b, t0, t, u, groups, k)
    requires forall i | i in t0.entities :: RowIs(b, t0, u, groups, done + {k}, i)
    ensures VersionsAre(b, t0, u, groups, done + {k})
  {
    hide GroupDone, VersionStays, RowAfter, SurvivorOf, Elements, Grouping, BackfillRow, Oldest, KeyOf, NoRepeats;
    GroupVersions(b, t0, t, u, groups, k);
    var ids, s := Elements(groups[k]), SurvivorOf(t0.entities, groups[k]);
    forall v ensures v in u.versions <==> VersionStays(b, t0, groups, done + {k}, v) {
      StaysStep(b, t0, groups, done, k, v);
      assert RowIs(b, t0, u, groups, done + {k}, s);
    }
  }

  lemma AppliedStep(b: Backfill, t0: Tables, t: Tables, u: Tables, groups: map<GroupKey, seq<string>>,
                    done: set<GroupKey>, k: GroupKey)
    requires Grouping(b, t0.entities, groups) && done <= groups.Keys && k in groups && k !in done
    requires Applied(b, t0, t, groups, done) && GroupDone(b, t0, t, u, groups, k)
    ensures Applied(b, t0, u, groups, done + {k})
  {
    hide *;
    AppliedParts(b, t0, t, groups, done);
    LinksStep(b, t0, t, u, groups, done, k);
    GroupLinks(b, t0, t, u, groups, k);
    forall i | i in t0.entities ensures RowIs(b, t0, u, groups, done + {k}, i) {
      RowStep(b, t0, t, u, groups, done, k, i);
    }
    VersionsStep(b, t0, t, u, groups, done, k);
    AppliedFromParts(b, t0, u, groups, done + {k});
  }

  lemma AppliedParts(b: Backfill, t0: Tables, t: Tables, groups: map<GroupKey, seq<string>>, done: set<GroupKey>)
    requires Grouping(b, t0.entities, groups) && done <= groups.Keys && Applied(b, t0, t, groups, done)
    ensures t.entities.Keys <= t0.entities.Keys && LinksAre(b, t0, t, groups, done)
            && VersionsAre(b, t0, t, groups, done)
    ensures forall i | i in t0.entities :: RowIs(b, t0, t, groups, done, i)
  {
  }

  lemma AppliedFromParts(b: Backfill, t0: Tables, t: Tables, groups: map<GroupKey, seq<string>>, done: set<GroupKey>)
    requires Grouping(b, t0.entities, groups) && done <= groups.Keys
    requires t.entities.Keys <= t0.entities.Keys && LinksAre(b, t0, t, groups, done)
    requires forall i | i in t0.entities :: RowIs(b, t0, t, groups, done, i)
    requires VersionsAre(b, t0, t, groups, done)
    ensures Applied(b, t0, t, groups, done)
  {
    hide RowIs, LinksAre, VersionsAre;
  }

  /** While a group is applied no row outside it holds the slot it is renamed to, so the unique index is
      never violated. */
  lemma SlotIsFree(b: Backfill, t0: Tables, t: Tables, groups: map<GroupKey, seq<string>>, done: set<GroupKey>,
                   k: GroupKey, other: string)
    requires Idempotent(b) && IgnoresCase(b) && Grouping(b, t0.entities, groups) && done <= groups.Keys && k in groups
    requires Applied(b, t0, t, groups, done) && other in t.entities && other !in Elements(groups[k])
    ensures Slot(b.canon, t.entities[other]) != k
  {
    GroupIsListed(b, t0.entities, groups, k);
    KeysKept(b, t0, t, groups, done, other);
    if Slot(b.canon, t.entities[other]) == k {
      SlotBelongsToGroup(b, t.entities[other], t0.entities[groups[k][0]]);
      assert false;
    }
  }

  lemma FoldedSlot(b: Backfill, t0: Tables, groups: map<GroupKey, seq<string>>, k: GroupKey, ids: set<string>,
                   s: string, p: Profile)
    requires Grouping(b, t0.entities, groups) && k in groups
    ensures groups[k] != [] && groups[k][0] in t0.entities
    ensures Slot(b.canon, Folded(b, t0.entities, ids, s, TargetOf(b, t0.entities[groups[k][0]]), p)) == k
  {
    GroupIsListed(b, t0.entities, groups, k);
    hide Markers, Readable;
  }

  lemma SlotsAfterGroup(b: Backfill, t0: Tables, t: Tables, u: Tables, groups: map<GroupKey, seq<string>>,
                        done: set<GroupKey>, k: GroupKey)
    requires Idempotent(b) && IgnoresCase(b) && Grouping(b, t0.entities, groups) && done <= groups.Keys && k in groups
             && k !in done
    requires Applied(b, t0, t, groups, done) && GroupDone(b, t0, t, u, groups, k) && SlotsUnique(b.canon, t.entities)
    ensures SlotsUnique(b.canon, u.entities)
  {
    hide Repointed, Applied, Folded, TargetOf, Slot, KeyOf, Idempotent, IgnoresCase, Grouping;
    GroupIsListed(b, t0.entities, groups, k);
    var s := SurvivorOf(t0.entities, groups[k]);
    FoldedSlot(b, t0, groups, k, Elements(groups[k]), s, t.entities[s]);
    forall other | other in u.entities && other != s ensures other in t.entities
        && u.entities[other] == t.entities[other] && Slot(b.canon, u.entities[other]) != k {
      SlotIsFree(b, t0, t, groups, done, k, other);
    }
  }

  lemma LinksAfterGroup(b: Backfill, planned: map<string, Profile>, t: Tables, u: Tables, ids: set<string>, s: string,
                        to: (string, string))
    requires GroupApplied(b, planned, t, u, ids, s, to) && LinksResolve(t)
    ensures LinksResolve(u)
  {
    hide Folded;
    forall k | k in u.links ensures k.entity in u.entities {
      assert ComesFrom(t.links, MoveEntity(Onto(ids, s)), AnyLink(), k, u.links[k]);
      var k0 :| k0 in t.links && AnyLink()(k0) && MoveEntity(Onto(ids, s))(k0) == k && t.links[k0] == u.links[k];
      hide Repointed;
    }
  }

  lemma VersionsAfterGroup(b: Backfill, planned: map<string, Profile>, t: Tables, u: Tables, ids: set<string>,
                           s: string, to: (string, string))
    requires GroupApplied(b, planned, t, u, ids, s, to) && VersionsOk(t.entities, t.versions)
    ensures VersionsOk(u.entities, u.versions)
  {
    hide Repointed, Markers, Readable;
    var p := Folded(b, planned, ids, s, to, t.entities[s]);
    assert p.version == t.entities[s].version + 1;
    assert BackfillRow(s, p).event != MERGE_EVENT;
  }

  /** Each group keeps the tables well formed: foreign keys, the unique slot index and the version ledger. */
  lemma GroupPreserves(b: Backfill, t0: Tables, t: Tables, u: Tables, groups: map<GroupKey, seq<string>>,
                       done: set<GroupKey>, k: GroupKey)
    requires Idempotent(b) && IgnoresCase(b) && Grouping(b, t0.entities, groups) && done <= groups.Keys && k in groups
             && k !in done
    requires Applied(b, t0, t, groups, done) && GroupDone(b, t0, t, u, groups, k) && WellFormed(b.canon, t)
    ensures WellFormed(b.canon, u)
  {
    hide Applied, GroupApplied, LinksResolve, SlotsUnique, VersionsOk, Idempotent, IgnoresCase;
    GroupIsListed(b, t0.entities, groups, k);
    var ids, s, to := Elements(groups[k]), SurvivorOf(t0.entities, groups[k]), TargetOf(b, t0.entities[groups[k][0]]);
    SlotsAfterGroup(b, t0, t, u, groups, done, k);
    LinksAfterGroup(b, t0.entities, t, u, ids, s, to);
    VersionsAfterGroup(b, t0.entities, t, u, ids, s, to);
  }

  lemma NothingApplied(b: Backfill, t0: Tables, groups: map<GroupKey, seq<string>>, done: set<GroupKey>)
    requires Grouping(b, t0.entities, groups) && done == {}
    ensures Applied(b, t0, t0, groups, done)
  {
    RepointedByIdentity(t0.links, MoveEntity(HomeAfter(b, t0.entities, groups, done)), AnyLink());
  }

  lemma MembersLive(b: Backfill, t0: Tables, t: Tables, groups: map<GroupKey, seq<string>>, done: set<GroupKey>,
                    k: GroupKey)
    requires Grouping(b, t0.entities, groups) && done <= groups.Keys && k in groups && k !in done
             && Applied(b, t0, t, groups, done)
    ensures groups[k] != [] && NoRepeats(groups[k]) && Elements(groups[k]) <= t0.entities.Keys
            && Elements(groups[k]) <= t.entities.Keys
  {
    GroupIsListed(b, t0.entities, groups, k);
    hide Repointed, Folded;
    forall i | i in Elements(groups[k]) ensures i in t.entities {
      assert RowAfter(b, t0.entities, groups, done, i).Some?;
    }
  }

  /** The transaction: the planned groups in any order. */
  method ApplyAll(b: Backfill, store: EntityStore, groups: map<GroupKey, seq<string>>, order: seq<GroupKey>)
    requires Idempotent(b) && IgnoresCase(b) && WellFormed(b.canon, store.Snapshot())
    requires Grouping(b, store.entities, groups) && NoRepeats(order) && Elements(order) == groups.Keys
    modifies store
    ensures Applied(b, old(store.Snapshot()), store.Snapshot(), groups, groups.Keys)
    ensures WellFormed(b.canon, store.Snapshot())
  {
    hide Applied, WellFormed, Idempotent, IgnoresCase, Grouping, GroupApplied, SurvivorOf, TargetOf;
    ghost var t0 := store.Snapshot();
    var planned := store.entities;
    NothingApplied(b, t0, groups, Elements(order[..0]));
    for n := 0 to |order|
      invariant Elements(order[..n]) <= groups.Keys
      invariant Applied(b, t0, store.Snapshot(), groups, Elements(order[..n]))
      invariant WellFormed(b.canon, store.Snapshot())
    {
      var k := order[n];
      assert k in Elements(order);
      KeysAppend(order, n);
      ghost var done := Elements(order[..n]);
      ghost var t := store.Snapshot();
      MembersLive(b, t0, t, groups, done, k);
      ApplyGroup(b, store, planned, groups[k]);
      GroupFinished(b, t0, t, store.Snapshot(), groups, k);
      AppliedStep(b, t0, t, store.Snapshot(), groups, done, k);
      GroupPreserves(b, t0, t, store.Snapshot(), groups, done, k);
    }
    assert order[..|order|] == order;
  }

  lemma KeysAppend(order: seq<GroupKey>, n: nat)
    requires n < |order| && NoRepeats(order)
    ensures Elements(order[..n + 1]) == Elements(order[..n]) + {order[n]} && order[n] !in Elements(order[..n])
  {
  }

  lemma GroupFinished(b: Backfill, t0: Tables, t: Tables, u: Tables, groups: map<GroupKey, seq<string>>, k: GroupKey)
    requires Grouping(b, t0.entities, groups) && k in groups
    requires groups[k] != [] && Elements(groups[k]) != {} && Elements(groups[k]) <= t0.entities.Keys
             && groups[k][0] in t0.entities
    requires GroupApplied(b, t0.entities, t, u, Elements(groups[k]), Oldest(t0.entities, Elements(groups[k])),
             TargetOf(b, t0.entities[groups[k][0]]))
    ensures GroupDone(b, t0, t, u, groups, k)
  {
    hide GroupApplied;
  }

  lemma SingleMember(ids: set<string>, i: string)
    requires i in ids && |ids| <= 1
    ensures ids == {i}
  {
    assert |ids - {i}| == |ids| - 1;
  }

  lemma FinishedRow(b: Backfill, t0: Tables, t: Tables, groups: map<GroupKey, seq<string>>, i: string)
    requires Grouping(b, t0.entities, groups) && Applied(b, t0, t, groups, groups.Keys) && i in t.entities
    ensures i in t0.entities
    ensures var k := KeyOf(b, t0.entities[i]);
            if k in groups then i == GroupSurvivor(b, t0.entities, groups, k) else t.entities[i] == t0.entities[i]
  {
    hide Repointed, Folded, KeyOf, Oldest, TargetOf, Grouping;
    assert RowAfter(b, t0.entities, groups, groups.Keys, i).Some?;
  }

  lemma UnplannedRow(b: Backfill, entities: map<string, Profile>, groups: map<GroupKey, seq<string>>, i: string,
                     j: string)
    requires PlanOfBackfill(b, entities, groups) && i in entities && j in entities
    requires KeyOf(b, entities[i]) !in groups && KeyOf(b, entities[j]) == KeyOf(b, entities[i])
    ensures i == j && IsCanonical(b, entities[i])
  {
    hide IsCanonical, KeyOf;
    var ms := Members(b, entities, KeyOf(b, entities[i]));
    assert i in ms && j in ms;
    assert !NeedsWork(b, entities, KeyOf(b, entities[i]));
    SingleMember(ms, i);
  }

  /** Each canonical slot ends up with the one row that is in it, and that row is canonical. */
  lemma OneRowLeft(b: Backfill, t0: Tables, t: Tables, groups: map<GroupKey, seq<string>>, i: string, j: string)
    requires Idempotent(b) && PlanOfBackfill(b, t0.entities, groups)
    requires Applied(b, t0, t, groups, groups.Keys)
    requires i in t.entities && j in t.entities && KeyOf(b, t.entities[i]) == KeyOf(b, t.entities[j])
    ensures i == j && IsCanonical(b, t.entities[i])
  {
    assert Grouping(b, t0.entities, groups);
    hide Applied, IsCanonical, Idempotent, Grouping, PlanOfBackfill, KeyOf;
    KeysKept(b, t0, t, groups, groups.Keys, i);
    KeysKept(b, t0, t, groups, groups.Keys, j);
    FinishedRow(b, t0, t, groups, i);
    FinishedRow(b, t0, t, groups, j);
    if KeyOf(b, t0.entities[i]) !in groups {
      UnplannedRow(b, t0.entities, groups, i, j);
    }
  }

  lemma NoWork(b: Backfill, entities: map<string, Profile>, k: GroupKey)
    requires forall i, j | i in entities && j in entities && KeyOf(b, entities[i]) == KeyOf(b, entities[j]) ::
               i == j && IsCanonical(b, entities[i])
    ensures !NeedsWork(b, entities, k)
  {
    hide IsCanonical, KeyOf;
    var ms := Members(b, entities, k);
    if ms != {} {
      var i := Member(ms);
      assert KeyOf(b, entities[i]) == KeyOf(b, entities[i]);
      assert forall j | j in ms :: j == i;
      assert ms == {i};
    }
  }

  /** The post-check: planning again after the run finds no group that needs work. */
  lemma NothingLeftToCanonicalize(b: Backfill, t0: Tables, t: Tables, groups: map<GroupKey, seq<string>>,
                                  again: map<GroupKey, seq<string>>)
    requires Idempotent(b) && PlanOfBackfill(b, t0.entities, groups)
    requires Applied(b, t0, t, groups, groups.Keys) && PlanOfBackfill(b, t.entities, again)
    ensures again == map[]
  {
    hide Applied, IsCanonical, KeyOf, Idempotent, Grouping;
    forall i, j | i in t.entities && j in t.entities && KeyOf(b, t.entities[i]) == KeyOf(b, t.entities[j])
      ensures i == j && IsCanonical(b, t.entities[i])
    {
      OneRowLeft(b, t0, t, groups, i, j);
    }
    forall k ensures k !in again {
      NoWork(b, t.entities, k);
    }
  }

  /** Nothing a member carried is lost with its row: its links are on the survivor, and so are its lineage, its
      id, and its name when that was not already the canonical one. */
  lemma MemberFolded(b: Backfill, t0: Tables, t: Tables, groups: map<GroupKey, seq<string>>, i: string)
    requires Grouping(b, t0.entities, groups) && Applied(b, t0, t, groups, groups.Keys)
    requires i in t0.entities && KeyOf(b, t0.entities[i]) in groups
    ensures var k := KeyOf(b, t0.entities[i]);
            var s := GroupSurvivor(b, t0.entities, groups, k);
            && s in t.entities
            && (i != s ==> i !in t.entities && i in t.entities[s].derived)
            && t0.entities[i].derived <= t.entities[s].derived
            && ((t0.entities[i].name, t0.entities[i].cls) != GroupTarget(b, t0.entities, groups, k) ==>
                  t0.entities[i].name in t.entities[s].aliases
                      && b.marker(t0.entities[i].name) in t.entities[s].derived)
            && (forall l | l in t0.links && l.entity == i :: l.(entity := s) in t.links)
  {
    hide TargetOf, Oldest;
    var k := KeyOf(b, t0.entities[i]);
    GroupIsListed(b, t0.entities, groups, k);
    var s := SurvivorOf(t0.entities, groups[k]);
    assert RowAfter(b, t0.entities, groups, groups.Keys, s).Some?;
    assert i in Elements(groups[k]);
    MemberInFold(b, t0.entities, Elements(groups[k]), s, TargetOf(b, t0.entities[groups[k][0]]), t0.entities[s], i);
    hide Folded;
    assert i != s ==> RowAfter(b, t0.entities, groups, groups.Keys, i).None?;
    forall l | l in t0.links && l.entity == i ensures l.(entity := s) in t.links {
      assert MoveEntity(HomeAfter(b, t0.entities, groups, groups.Keys))(l) == l.(entity := s);
    }
  }

  lemma MemberInFold(b: Backfill, planned: map<string, Profile>, ids: set<string>, s: string, to: (string, string),
                     p: Profile, i: string)
    requires i in ids && i in planned
    ensures var q := Folded(b, planned, ids, s, to, p);
            && (i != s ==> i in q.derived) && planned[i].derived <= q.derived
            && ((planned[i].name, planned[i].cls) != to ==>
                  planned[i].name in q.aliases && b.marker(planned[i].name) in q.derived)
  {
    assert (planned[i].name, planned[i].cls) != to ==> i in Renamed(planned, ids, to);
  }
}
