/** The one-shot canonicalization of stored entities: rows that canonicalize to one (name, class) slot are
    merged onto their oldest row, group by group, and every row ends up canonical. */
module CanonicalBackfill {
  import opened Ordering
  import opened Repoint
  import opened MergePlan
  import opened MergeDraft
  import opened BuildPlan
  import opened MergeMigration

  /** `canonicalize` is the canon on (name, class); `marker` is the content address of a surface form. */
  datatype Backfill = Backfill(canonicalize: (string, string) -> (string, string), marker: string -> string,
      canon: Canon)

  const BACKFILL_EVENT := "backfill_canonicalize"

  type GroupKey = (string, string)

  /** The canonical (name, class); a name that would strip away is kept as it is. */
  function Target(b: Backfill, name: string, cls: string): (string, string) {
    var (n, k) := b.canonicalize(name, cls);
    if n == "" then (name, cls) else (n, k)
  }

  function TargetOf(b: Backfill, p: Profile): (string, string) {
    Target(b, p.name, p.cls)
  }

  function KeyOf(b: Backfill, p: Profile): GroupKey {
    var (n, k) := TargetOf(b, p);
    SlotOf(b.canon, n, k)
  }

  function Members(b: Backfill, entities: map<string, Profile>, key: GroupKey): set<string> {
    set i | i in entities && KeyOf(b, entities[i]) == key
  }

  predicate IsCanonical(b: Backfill, p: Profile) {
    TargetOf(b, p) == (p.name, p.cls)
  }

  /** A group needs work when it has several rows or its one row is not canonical. */
  predicate NeedsWork(b: Backfill, entities: map<string, Profile>, key: GroupKey) {
    var ms := Members(b, entities, key);
    ms != {} && (|ms| > 1 || exists i | i in ms :: !IsCanonical(b, entities[i]))
  }

  /** What the planner returns: for each group that needs work, its rows in the order they were read. */
  ghost predicate PlanOfBackfill(b: Backfill, entities: map<string, Profile>, groups: map<GroupKey, seq<string>>) {
    && (forall k :: k in groups <==> NeedsWork(b, entities, k))
    && (forall k | k in groups ::
          groups[k] != [] && NoRepeats(groups[k]) && Elements(groups[k]) == Members(b, entities, k))
  }

  // The planner.

  function MembersSeen(b: Backfill, entities: map<string, Profile>, key: GroupKey, seen: set<string>): set<string> {
    set i | i in seen && i in entities && KeyOf(b, entities[i]) == key
  }

  ghost predicate GroupedIds(b: Backfill, entities: map<string, Profile>, seen: set<string>, groups: map<GroupKey,
                             seq<string>>) {
    && (forall k :: k in groups <==> MembersSeen(b, entities, k, seen) != {})
    && (forall k | k in groups ::
          groups[k] != [] && NoRepeats(groups[k]) && Elements(groups[k]) == MembersSeen(b, entities, k, seen))
  }

  function AddId(b: Backfill, entities: map<string, Profile>, groups: map<GroupKey, seq<string>>,
                 i: string): map<GroupKey, seq<string>>
    requires i in entities
  {
    var k := KeyOf(b, entities[i]);
    groups[k := (if k in groups then groups[k] else []) + [i]]
  }

  lemma MembersSeenStep(b: Backfill, entities: map<string, Profile>, key: GroupKey, seen: set<string>, i: string)
    requires i in entities
    ensures MembersSeen(b, entities, key, seen + {i}) ==
            if KeyOf(b, entities[i]) == key then MembersSeen(b, entities, key, seen) + {i}
                else MembersSeen(b, entities, key, seen)
    ensures i !in seen ==> i !in MembersSeen(b, entities, key, seen)
  {
  }

  lemma AppendFresh(q: seq<string>, i: string)
    requires NoRepeats(q) && i !in Elements(q)
    ensures NoRepeats(q + [i]) && Elements(q + [i]) == Elements(q) + {i}
  {
    assert forall j | 0 <= j < |q| :: q[j] in Elements(q);
  }

  lemma GroupedIdsStep(b: Backfill, entities: map<string, Profile>, seen: set<string>, groups: map<GroupKey,
                       seq<string>>, i: string)
    requires GroupedIds(b, entities, seen, groups) && i in entities && i !in seen
    ensures GroupedIds(b, entities, seen + {i}, AddId(b, entities, groups, i))
  {
    hide KeyOf, MembersSeen;
    var key := KeyOf(b, entities[i]);
    var q := if key in groups then groups[key] else [];
    NoElements(q);
    forall k
      ensures MembersSeen(b, entities, k, seen + {i}) == if key == k then MembersSeen(b, entities, k, seen) + {i}
              else MembersSeen(b, entities, k, seen)
      ensures i !in MembersSeen(b, entities, k, seen)
    {
      MembersSeenStep(b, entities, k, seen, i);
    }
    assert Elements(q) == MembersSeen(b, entities, key, seen);
    AppendFresh(q, i);
    hide NoRepeats, Elements;
  }

  method PlanBackfill(b: Backfill, entities: map<string, Profile>, order: seq<string>)
    returns (groups: map<GroupKey, seq<string>>)
    requires NoRepeats(order) && Elements(order) == entities.Keys
    ensures PlanOfBackfill(b, entities, groups)
  {
    hide GroupedIds, KeyOf, NeedsWork, AddId;
    var all: map<GroupKey, seq<string>> := map[];
    NothingGrouped(b, entities, Elements(order[..0]));
    for n := 0 to |order|
      invariant GroupedIds(b, entities, Elements(order[..n]), all)
    {
      assert order[n] in Elements(order);
      ElementsAppend(order, n);
      GroupedIdsStep(b, entities, Elements(order[..n]), all, order[n]);
      all := AddId(b, entities, all, order[n]);
    }
    assert order[..|order|] == order;
    EveryGroup(b, entities, all);
    groups := map k | k in all && (|all[k]| > 1 || !IsCanonical(b, entities[all[k][0]])) :: all[k];
    forall k ensures k in groups <==> NeedsWork(b, entities, k) {
      NoWorkInNoGroup(b, entities, k);
      if k in all {
        WorkOfGroup(b, entities, k, all[k]);
      }
    }
  }

  lemma NoWorkInNoGroup(b: Backfill, entities: map<string, Profile>, k: GroupKey)
    ensures NeedsWork(b, entities, k) ==> Members(b, entities, k) != {}
  {
  }

  lemma NothingGrouped(b: Backfill, entities: map<string, Profile>, seen: set<string>)
    requires seen == {}
    ensures GroupedIds(b, entities, seen, map[])
  {
  }

  lemma EveryGroup(b: Backfill, entities: map<string, Profile>, all: map<GroupKey, seq<string>>)
    requires GroupedIds(b, entities, entities.Keys, all)
    ensures forall k :: k in all <==> Members(b, entities, k) != {}
    ensures forall k | k in all :: all[k] != [] && NoRepeats(all[k]) && Elements(all[k]) == Members(b, entities, k)
    ensures forall k | k in all :: all[k][0] in entities
  {
    forall k ensures MembersSeen(b, entities, k, entities.Keys) == Members(b, entities, k) {
    }
    forall k | k in all ensures all[k][0] in entities {
      assert all[k][0] in Elements(all[k]);
    }
  }

  lemma WorkOfGroup(b: Backfill, entities: map<string, Profile>, k: GroupKey, q: seq<string>)
    requires q != [] && NoRepeats(q) && Elements(q) == Members(b, entities, k) && q[0] in entities
    ensures NeedsWork(b, entities, k) <==> |q| > 1 || !IsCanonical(b, entities[q[0]])
  {
    NoRepeatsSize(q);
    assert q[0] in Elements(q);
    if |q| == 1 {
      assert q == [q[0]];
      assert forall i | i in Elements(q) :: i == q[0];
    }
  }

  // One group.

  predicate Older(entities: map<string, Profile>, x: string, y: string) {
    x in entities && y in entities &&
    if entities[x].createdAt != entities[y].createdAt then TextLess(entities[x].createdAt, entities[y].createdAt)
        else TextLess(x, y)
  }

  function ByAge(entities: map<string, Profile>): (string, string) -> bool {
    (x, y) => Older(entities, x, y)
  }

  lemma ByAgeIsTotal(entities: map<string, Profile>, ids: set<string>)
    requires ids <= entities.Keys
    ensures StrictTotalOn(ByAge(entities), ids)
  {
    forall x, y | x in ids && y in ids ensures !Older(entities, x, x)
        && (x != y ==> Older(entities, x, y) || Older(entities, y, x)) {
      TextTrichotomy(entities[x].createdAt, entities[y].createdAt);
      TextTrichotomy(x, y);
    }
    forall x, y, z | x in ids && y in ids && z in ids && Older(entities, x, y) && Older(entities, y, z)
        ensures Older(entities, x, z) {
      TextStrictTotal({entities[x].createdAt, entities[y].createdAt, entities[z].createdAt});
      TextStrictTotal({x, y, z});
    }
  }

  function Oldest(entities: map<string, Profile>, ids: set<string>): (s: string)
    requires ids != {} && ids <= entities.Keys
    ensures s in ids
  {
    ByAgeIsTotal(entities, ids);
    Least(ByAge(entities), ids)
  }

  /** The survivor of a group is its oldest row, the smallest id deciding between rows of one age. */
  lemma OldestBeatsAll(entities: map<string, Profile>, ids: set<string>, i: string)
    requires ids <= entities.Keys && i in ids
    ensures var s := Oldest(entities, ids);
            || i == s
            || TextLess(entities[s].createdAt, entities[i].createdAt)
            || (entities[s].createdAt == entities[i].createdAt && TextLess(s, i))
  {
    ByAgeIsTotal(entities, ids);
    assert i != Oldest(entities, ids) ==> ByAge(entities)(Oldest(entities, ids), i);
  }

  /** Loser to survivor, inside one group. */
  function Onto(ids: set<string>, s: string): map<string, string> {
    map i | i in ids && i != s :: s
  }

  function Renamed(entities: map<string, Profile>, ids: set<string>, to: (string, string)): set<string> {
    set i | i in ids && i in entities && (entities[i].name, entities[i].cls) != to
  }

  function Markers(b: Backfill, entities: map<string, Profile>, ids: set<string>, to: (string, string)): set<string> {
    (set i | i in Renamed(entities, ids, to) :: b.marker(entities[i].name))
    + (set i, d | i in ids && i in entities && d in entities[i].derived :: d)
  }

  function Readable(entities: map<string, Profile>, ids: set<string>, to: (string, string)): set<string> {
    set i | i in Renamed(entities, ids, to) :: entities[i].name
  }

  /** The survivor's row after the merge: canonical, one version up, with every member's lineage, every
      merged-away id and every surface form that changed. */
  function Folded(b: Backfill, planned: map<string, Profile>, ids: set<string>, s: string, to: (string, string),
                  p: Profile): Profile {
    p.(name := to.0, cls := to.1, entityType := to.1, version := p.version + 1,
       derived := p.derived + Markers(b, planned, ids, to) + (ids - {s}),
       aliases := p.aliases + Readable(planned, ids, to))
  }

  function BackfillRow(s: string, p: Profile): VersionRow {
    VersionRow(s, p.version, BACKFILL_EVENT, p.name, p.cls, p.aliases, 0)
  }

  /** The effect of one group on the tables. */
  ghost predicate GroupApplied(b: Backfill, planned: map<string, Profile>, t: Tables, u: Tables, ids: set<string>,
                               s: string, to: (string, string)) {
    && s in t.entities && s in ids
    && Repointed(t.links, u.links, MoveEntity(Onto(ids, s)), AnyLink())
    && u.entities == (t.entities - (ids - {s}))[s := Folded(b, planned, ids, s, to, t.entities[s])]
    && u.versions == VersionsWithout(t.versions, ids - {s})
        + {BackfillRow(s, Folded(b, planned, ids, s, to, t.entities[s]))}
  }

  predicate MovesTo(links: map<LinkKey, LinkRow>, m: string, s: string, k: LinkKey) {
    k in links && k.entity == m && k.(entity := s) !in links
  }

  /** The guarded update: a link moves unless the survivor already has one for that signal and role. */
  function GuardedMove(links: map<LinkKey, LinkRow>, m: string, s: string): map<LinkKey, LinkRow> {
    (map k | k in links && !MovesTo(links, m, s, k) :: links[k])
    + (map k | k in (set k0 | k0 in links && MovesTo(links, m, s, k0) :: k0.(entity := s)) :: links[k.(entity := m)])
  }

  /** Links that could not move go with the deleted row: update and cascade together move every link once. */
  lemma GuardedMoveRepoints(links: map<LinkKey, LinkRow>, m: string, s: string)
    requires m != s
    ensures Repointed(links, DropLinks(GuardedMove(links, m, s), {m}), MoveEntity(map[m := s]), AnyLink())
  {
    var after := DropLinks(GuardedMove(links, m, s), {m});
    var f := MoveEntity(map[m := s]);
    forall k | k in links ensures f(k) in after && (f(k) == k ==> after[k] == links[k]) {
      if k.entity == m {
        assert f(k) == k.(entity := s) && f(k).(entity := m) == k;
      }
    }
    forall k | k in after ensures ComesFrom(links, f, AnyLink(), k, after[k]) {
      if k in links {
        assert AnyLink()(k) && f(k) == k;
      } else {
        var k0 := k.(entity := m);
        assert k0 in links && k0.(entity := s) == k;
        assert AnyLink()(k0) && f(k0) == k;
      }
    }
  }

  lemma OntoStep(before: map<LinkKey, LinkRow>, middle: map<LinkKey, LinkRow>, after: map<LinkKey, LinkRow>,
                 ids: set<string>, s: string, m: string)
    requires m != s
    requires Repointed(before, middle, MoveEntity(Onto(ids, s)), AnyLink())
    requires Repointed(middle, after, MoveEntity(map[m := s]), AnyLink())
    ensures Repointed(before, after, MoveEntity(Onto(ids + {m}, s)), AnyLink())
  {
    hide Repointed, MoveEntity, Onto;
    forall k
      ensures MoveEntity(Onto(ids + {m}, s))(k) == MoveEntity(map[m := s])(MoveEntity(Onto(ids, s))(k))
      ensures MoveEntity(Onto(ids + {m}, s))(k) == k ==> MoveEntity(Onto(ids, s))(k) == k
    {
      OntoMoves(ids, s, m, k);
    }
    RepointedCompose(before, middle, after, MoveEntity(Onto(ids, s)), AnyLink(), MoveEntity(map[m := s]), AnyLink(),
                     MoveEntity(Onto(ids + {m}, s)), AnyLink());
  }

  lemma OntoMoves(ids: set<string>, s: string, m: string, k: LinkKey)
    requires m != s
    ensures MoveEntity(Onto(ids + {m}, s))(k) == MoveEntity(map[m := s])(MoveEntity(Onto(ids, s))(k))
    ensures MoveEntity(Onto(ids + {m}, s))(k) == k ==> MoveEntity(Onto(ids, s))(k) == k
  {
  }

  lemma OntoNobody(links: map<LinkKey, LinkRow>, ids: set<string>, s: string)
    requires ids <= {s}
    ensures Repointed(links, links, MoveEntity(Onto(ids, s)), AnyLink())
  {
    RepointedByIdentity(links, MoveEntity(Onto(ids, s)), AnyLink());
  }

  method CollectProvenance(b: Backfill, planned: map<string, Profile>, members: seq<string>, to: (string, string))
    returns (markers: set<string>, readable: set<string>)
    requires Elements(members) <= planned.Keys
    ensures markers == Markers(b, planned, Elements(members), to)
    ensures readable == Readable(planned, Elements(members), to)
  {
    markers, readable := {}, {};
    for n := 0 to |members|
      invariant markers == Markers(b, planned, Elements(members[..n]), to)
      invariant readable == Readable(planned, Elements(members[..n]), to)
    {
      var m := members[n];
      assert m in Elements(members);
      ElementsAppend(members, n);
      ProvenanceStep(b, planned, Elements(members[..n]), to, m);
      var p := planned[m];
      if p.name != to.0 || p.cls != to.1 {
        markers := markers + {b.marker(p.name)};
        readable := readable + {p.name};
      }
      markers := markers + p.derived;
    }
    assert members[..|members|] == members;
  }

  lemma ProvenanceStep(b: Backfill, planned: map<string, Profile>, ids: set<string>, to: (string, string), m: string)
    requires m in planned
    ensures var changed := planned[m].name != to.0 || planned[m].cls != to.1;
            && Markers(b, planned, ids + {m}, to) ==
               Markers(b, planned, ids, to) + (if changed then {b.marker(planned[m].name)} else {}) + planned[m].derived
            && Readable(planned, ids + {m}, to) == Readable(planned, ids, to)
                + (if changed then {planned[m].name} else {})
  {
    assert Renamed(planned, ids + {m}, to) ==
           Renamed(planned, ids, to) + (if planned[m].name != to.0 || planned[m].cls != to.1 then {m} else {});
  }

  /** One group inside the caller's transaction. `planned` holds the rows as they were when the plan was made. */
  method ApplyGroup(b: Backfill, store: EntityStore, planned: map<string, Profile>, members: seq<string>)
    requires members != [] && NoRepeats(members) && Elements(members) <= planned.Keys
             && Elements(members) <= store.entities.Keys
    modifies store
    ensures members[0] in planned && Elements(members) != {}
    ensures GroupApplied(b, planned, old(store.Snapshot()), store.Snapshot(), Elements(members),
                         Oldest(planned, Elements(members)), TargetOf(b, planned[members[0]]))
  {
    hide Repointed, GuardedMove, DropLinks, VersionsWithout, MoveEntity, Markers, Readable, Onto, TargetOf;
    NoElements(members);
    assert members[0] in Elements(members);
    ghost var t := store.Snapshot();
    var to := TargetOf(b, planned[members[0]]);
    var s := Oldest(planned, Elements(members));
    var markers, readable := CollectProvenance(b, planned, members, to);
    OntoNobody(t.links, Elements(members[..0]), s);
    NoneDropped(t.versions, Elements(members[..0]) - {s});
    for n := 0 to |members|
      invariant Repointed(t.links, store.links, MoveEntity(Onto(Elements(members[..n]), s)), AnyLink())
      invariant store.entities == t.entities - (Elements(members[..n]) - {s})
      invariant store.versions == VersionsWithout(t.versions, Elements(members[..n]) - {s})
    {
      var m := members[n];
      ElementsAppend(members, n);
      FreshMember(members, n);
      ghost var ids := Elements(members[..n]);
      if m != s {
        GuardedMoveRepoints(store.links, m, s);
        ghost var before := store.links;
        store.links := GuardedMove(store.links, m, s);
        store.DeleteEntities({m});
        OntoStep(t.links, before, store.links, ids, s, m);
        assert Elements(members[..n + 1]) - {s} == (ids - {s}) + {m};
        VersionsWithoutBoth(t.versions, ids - {s}, {m});
      } else {
        assert Elements(members[..n + 1]) - {s} == ids - {s};
        OntoSelf(ids, s);
      }
    }
    assert members[..|members|] == members;
    ghost var ids := Elements(members);
    var p := store.entities[s];
    var merged := Elements(members) - {s};
    p := p.(name := to.0, cls := to.1, entityType := to.1, version := p.version + 1,
            derived := p.derived + markers + merged, aliases := p.aliases + readable);
    store.entities := store.entities[s := p];
    store.versions := store.versions + {BackfillRow(s, p)};
  }

  lemma FreshMember(members: seq<string>, n: nat)
    requires NoRepeats(members) && n < |members|
    ensures members[n] !in Elements(members[..n])
  {
  }

  lemma OntoSelf(ids: set<string>, s: string)
    ensures Onto(ids + {s}, s) == Onto(ids, s)
  {
  }

  lemma NoneDropped(versions: set<VersionRow>, ids: set<string>)
    requires ids == {}
    ensures VersionsWithout(versions, ids) == versions
  {
  }
}
