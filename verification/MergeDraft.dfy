/** Collecting the cluster decisions into the plan, and what the collected plan is, row by row. */
module MergeDraft {
  import opened Ordering
  import opened MergePlan

  datatype Rewrite = Rewrite(name: string, cls: string)
  datatype GeoHold = GeoHold(shared: set<string>, rows: set<Row>)
  datatype TokenHold = TokenHold(survivorName: string, rows: set<Row>)
  datatype Sample = Sample(fold: string, survivor: Row, name: string, cls: string, losers: set<Row>)

  const SAMPLES := 20

  /** The plan under construction. A list whose entries are sorted by a key before it is emitted is kept as
      the map or set of its entries, with the number of entries listed beside it. */
  datatype Draft = Draft(mergeMap: map<string, string>, mergeListed: nat, rewrites: map<string, Rewrite>,
                         junk: set<string>, junkListed: nat, geo: map<string, Geo>, geoListed: nat,
                         survivors: set<string>, losers: set<string>,
                         ambiguousGeo: map<string, GeoHold>, ambiguousToken: map<string, TokenHold>,
                         foldClusters: nat, loserLinks: int, junkFromSurvivor: nat, samples: seq<Sample>)

  const EMPTY_DRAFT := Draft(map[], 0, map[], {}, 0, map[], 0, {}, {}, map[], map[], 0, 0, 0, [])

  function Ids(rows: set<Row>): set<string> {
    set r | r in rows :: r.id
  }

  function LoserMap(survivor: Row, losers: set<Row>): map<string, string> {
    map i | i in Ids(losers) :: survivor.id
  }

  ghost function AddOutcome(d: Draft, fold: string, o: Outcome): Draft {
    match o
    case Untouched => d
    case Junked(rows, fromSurvivor) =>
      d.(junk := d.junk + Ids(rows), junkListed := d.junkListed + |rows|,
         junkFromSurvivor := d.junkFromSurvivor + if fromSurvivor then 1 else 0)
    case HeldForReview(name, rows) => d.(ambiguousToken := d.ambiguousToken[fold := TokenHold(name, rows)])
    case Merged(survivor, name, cls, losers, geo) =>
      d.(mergeMap := d.mergeMap + LoserMap(survivor, losers), mergeListed := d.mergeListed + |losers|,
         rewrites := if name != survivor.name || cls != survivor.cls then d.rewrites[survivor.id := Rewrite(name, cls)]
             else d.rewrites,
         geo := if geo.Some? then d.geo[survivor.id := geo.value] else d.geo,
         geoListed := d.geoListed + if geo.Some? then 1 else 0,
         survivors := d.survivors + {survivor.id}, losers := d.losers + Ids(losers),
         foldClusters := d.foldClusters + 1, loserLinks := d.loserLinks + SumLinks(losers),
         samples := if |d.samples| < SAMPLES then d.samples + [Sample(fold, survivor, name, cls, losers)]
             else d.samples)
  }

  /** The country/location homonyms a cluster of several rows holds back. */
  function GeoHoldIn(c: Canon, members: set<Row>): Option<GeoHold> {
    var held := ProtectedRows(c, members);
    if |members| > 1 && held != {} then Some(GeoHold(SharedSurfaces(c, members), held)) else None
  }

  function AddGeoHold(d: Draft, fold: string, hold: Option<GeoHold>): Draft {
    if hold.Some? then d.(ambiguousGeo := d.ambiguousGeo[fold := hold.value]) else d
  }

  ghost function AddCluster(d: Draft, c: Canon, fold: string, members: set<Row>): Draft
    requires members != {} && DistinctIds(members)
  {
    AddOutcome(AddGeoHold(d, fold, GeoHoldIn(c, members)), fold, Decide(c, members))
  }

  lemma ClusterNotEmpty(c: Canon, rows: set<Row>, key: string)
    requires key in ClusterKeys(c, rows)
    ensures Cluster(c, rows, key) != {}
  {
    var r :| r in rows && ClusterKey(c, r) == key;
    assert r in Cluster(c, rows, key);
  }

  ghost function DraftFor(c: Canon, rows: set<Row>, folds: seq<string>): Draft
    requires DistinctIds(rows) && Elements(folds) <= ClusterKeys(c, rows)
  {
    if folds == [] then EMPTY_DRAFT
    else
      var n := |folds| - 1;
      assert Elements(folds[..n]) <= Elements(folds) && folds[n] in Elements(folds);
      var d := DraftFor(c, rows, folds[..n]);
      if Skipped(folds[n]) then d
      else
        ClusterNotEmpty(c, rows, folds[n]);
        AddCluster(d, c, folds[n], Cluster(c, rows, folds[n]))
  }

  // The plan, read off the roles.

  ghost function WithRole(c: Canon, rows: set<Row>, keys: set<string>, role: Role): set<Row>
    requires DistinctIds(rows)
  {
    set r | r in rows && ClusterKey(c, r) in keys && RoleOf(c, rows, r) == role
  }

  /** The decision names all mergeable rows of the cluster or none, and never a protected one. */
  lemma DecideShape(c: Canon, members: set<Row>)
    requires members != {} && DistinctIds(members)
    ensures var o := Decide(c, members);
            var rows := if |members| == 1 then members else Mergeable(c, members);
            match o
            case Untouched => true
            case Junked(junk, _) => junk == rows
            case HeldForReview(_, held) => held == rows && |members| > 1
            case Merged(survivor, _, _, losers, _) =>
              && |members| > 1 && |rows| > 1 && survivor in rows && losers == rows - {survivor} && losers != {}
              && forall l | l in losers :: l.links <= survivor.links
  {
    hide SurvivorIsJunk, ManualHomonym, SurvivorName, SurvivorClass, GeoFill, IsContentJunk, ProtectedRows,
        ProtectedSlots;
    if |members| == 1 {
      var m := ElectSurvivor(members);
      assert |members - {m}| == 0;
      assert members == {m};
    } else if |Mergeable(c, members)| > 1 {
      var s := ElectSurvivor(Mergeable(c, members));
      assert |Mergeable(c, members) - {s}| == |Mergeable(c, members)| - 1;
    }
  }

  /** A cluster is junked for the names of its rows, all of them, or for that of the row that would survive. */
  lemma JunkedFor(c: Canon, members: set<Row>, r: Row)
    requires members != {} && DistinctIds(members) && Decide(c, members).Junked? && r in Decide(c, members).rows
    ensures || IsContentJunk(c, r.name)
            || exists s | s in members :: r.links <= s.links && SurvivorIsJunk(c, SurvivorName(c, s))
  {
    hide SurvivorIsJunk, ManualHomonym, SurvivorName, SurvivorClass, GeoFill, IsContentJunk, ProtectedRows,
        ProtectedSlots;
    DecideShape(c, members);
    var rows := if |members| == 1 then members else Mergeable(c, members);
    var s := ElectSurvivor(rows);
    if |members| == 1 || |rows| == 1 {
      OnlyRow(rows, s, r);
    } else if !(forall m | m in rows :: IsContentJunk(c, m.name)) {
      assert s in members && r.links <= s.links;
    }
  }

  lemma OnlyRow(rows: set<Row>, s: Row, r: Row)
    requires |rows| == 1 && s in rows && r in rows
    ensures r == s
  {
    assert |rows - {s}| == 0;
    assert r == s || r in rows - {s};
  }

  /** Each cluster's decision settles the role of every row in it. */
  lemma ClusterRoles(c: Canon, rows: set<Row>, key: string, r: Row)
    requires DistinctIds(rows) && r in rows && ClusterKey(c, r) == key && !Skipped(key)
    ensures var o := OutcomeFor(c, rows, key);
            var role := RoleOf(c, rows, r);
            && (role == Junk <==> o.Junked? && r in o.rows)
            && (role == Held <==> o.HeldForReview? && r in o.rows)
            && (role == Survivor <==> o.Merged? && r == o.survivor)
            && (role == Loser <==> o.Merged? && r in o.losers)
            && (role == Protected <==> |Cluster(c, rows, key)| > 1 && r in ProtectedRows(c, Cluster(c, rows, key)))
  {
    hide Decide, ProtectedRows;
    var members := Cluster(c, rows, key);
    assert r in members;
    DecideShape(c, members);
  }

  ghost function PartOf(o: Outcome, role: Role): set<Row> {
    match o
    case Untouched => {}
    case Junked(rows, _) => if role == Junk then rows else {}
    case HeldForReview(_, rows) => if role == Held then rows else {}
    case Merged(survivor, _, _, losers, _) => if role == Survivor then {survivor} else if role == Loser then losers
        else {}
  }

  predicate Listed(role: Role) {
    role == Junk || role == Held || role == Survivor || role == Loser
  }

  lemma PartIsInCluster(c: Canon, rows: set<Row>, key: string, role: Role)
    requires DistinctIds(rows) && key in ClusterKeys(c, rows)
    ensures PartOf(OutcomeFor(c, rows, key), role) <= Cluster(c, rows, key)
  {
    ClusterNotEmpty(c, rows, key);
    DecideShape(c, Cluster(c, rows, key));
    hide Decide, ProtectedRows;
  }

  lemma RoleInPart(c: Canon, rows: set<Row>, role: Role, r: Row)
    requires DistinctIds(rows) && r in rows && Listed(role)
    ensures ClusterKey(c, r) in ClusterKeys(c, rows)
    ensures RoleOf(c, rows, r) == role <==> r in PartOf(OutcomeFor(c, rows, ClusterKey(c, r)), role)
  {
    hide Decide, ProtectedRows;
    if !Skipped(ClusterKey(c, r)) {
      ClusterRoles(c, rows, ClusterKey(c, r), r);
    }
  }

  lemma WithRoleStep(c: Canon, rows: set<Row>, keys: set<string>, key: string, role: Role)
    requires DistinctIds(rows) && key in ClusterKeys(c, rows) && key !in keys && Listed(role)
    ensures WithRole(c, rows, keys + {key}, role) == WithRole(c, rows, keys, role)
            + PartOf(OutcomeFor(c, rows, key), role)
    ensures WithRole(c, rows, keys, role) !! PartOf(OutcomeFor(c, rows, key), role)
  {
    hide RoleOf, OutcomeFor, PartOf;
    PartIsInCluster(c, rows, key, role);
    forall r | r in Cluster(c, rows, key) ensures RoleOf(c, rows, r) == role <==>
        r in PartOf(OutcomeFor(c, rows, key), role) {
      RoleInPart(c, rows, role, r);
    }
  }

  lemma IdsDistinct(rows: set<Row>)
    requires DistinctIds(rows)
    ensures |Ids(rows)| == |rows|
  {
    InjectiveImageSize(rows, (r: Row) => r.id, Ids(rows));
  }

  lemma {:induction false} SumLinksUnion(a: set<Row>, b: set<Row>)
    requires a !! b
    ensures SumLinks(a + b) == SumLinks(a) + SumLinks(b)
    decreases |b|
  {
    if b == {} {
      assert a + b == a;
    } else {
      var m :| m in b;
      SumLinksUnion(a, b - {m});
      assert a + b == (a + (b - {m})) + {m};
      SumLinksAdd(a + (b - {m}), m);
      assert b == (b - {m}) + {m};
      SumLinksAdd(b - {m}, m);
    }
  }

  /** The listed rows are `junk`, `losers` and `survivors`, each once. */
  ghost predicate Lists(d: Draft, junk: set<Row>, losers: set<Row>, survivors: set<Row>) {
    && d.junk == Ids(junk) && d.junkListed == |junk|
    && d.losers == d.mergeMap.Keys == Ids(losers) && d.mergeListed == |losers|
    && d.survivors == Ids(survivors) && d.foldClusters == |survivors|
    && d.loserLinks == SumLinks(losers)
    && d.rewrites.Keys <= d.survivors
    && d.geo.Keys <= d.survivors && d.geoListed == |d.geo|
  }

  /** The rewrite and geo entries of a merged cluster's survivor. */
  ghost predicate SurvivorEntries(d: Draft, o: Outcome) {
    o.Merged? &&
    var id := o.survivor.id;
    && (id in d.rewrites <==> o.name != o.survivor.name || o.cls != o.survivor.cls)
    && (id in d.rewrites ==> d.rewrites[id] == Rewrite(o.name, o.cls))
    && (id in d.geo <==> o.geo.Some?)
    && (id in d.geo ==> d.geo[id] == o.geo.value)
  }

  ghost predicate LoserEntries(d: Draft, o: Outcome) {
    o.Merged? && forall l | l in o.losers :: l.id in d.mergeMap && d.mergeMap[l.id] == o.survivor.id
  }

  lemma IdsUnion(a: set<Row>, b: set<Row>)
    ensures Ids(a + b) == Ids(a) + Ids(b)
  {
  }

  lemma IdsDisjoint(rows: set<Row>, a: set<Row>, b: set<Row>)
    requires DistinctIds(rows) && a <= rows && b <= rows && a !! b
    ensures Ids(a) !! Ids(b)
  {
  }

  /** One more decision keeps the tallies exact. */
  lemma ListsStep(rows: set<Row>, d: Draft, fold: string, o: Outcome, junk: set<Row>, losers: set<Row>,
                  survivors: set<Row>)
    requires DistinctIds(rows) && Lists(d, junk, losers, survivors) && junk + losers + survivors <= rows
    requires PartOf(o, Junk) + PartOf(o, Loser) + PartOf(o, Survivor) <= rows
    requires junk !! PartOf(o, Junk) && losers !! PartOf(o, Loser) && survivors !! PartOf(o, Survivor)
    ensures Lists(AddOutcome(d, fold, o), junk + PartOf(o, Junk), losers + PartOf(o, Loser),
            survivors + PartOf(o, Survivor))
  {
    hide Lists, AddOutcome, DistinctIds;
    UnionWithNone(junk);
    UnionWithNone(losers);
    UnionWithNone(survivors);
    match o
    case Untouched => ListsUnchanged(d, fold, o, junk, losers, survivors);
    case HeldForReview(_, _) => ListsUnchanged(d, fold, o, junk, losers, survivors);
    case Junked(_, _) => ListsJunked(d, fold, o, junk, losers, survivors);
    case Merged(_, _, _, _, _) => ListsMerged(rows, d, fold, o, junk, losers, survivors);
  }

  lemma ListsUnchanged(d: Draft, fold: string, o: Outcome, junk: set<Row>, losers: set<Row>, survivors: set<Row>)
    requires Lists(d, junk, losers, survivors) && (o.Untouched? || o.HeldForReview?)
    ensures Lists(AddOutcome(d, fold, o), junk, losers, survivors)
  {
    hide Ids, SumLinks;
  }

  lemma ListsJunked(d: Draft, fold: string, o: Outcome, junk: set<Row>, losers: set<Row>, survivors: set<Row>)
    requires Lists(d, junk, losers, survivors) && o.Junked? && junk !! o.rows
    ensures Lists(AddOutcome(d, fold, o), junk + o.rows, losers, survivors)
  {
    hide Ids, SumLinks;
    IdsUnion(junk, o.rows);
    assert |junk + o.rows| == |junk| + |o.rows|;
  }

  lemma UnionWithNone(a: set<Row>)
    ensures a + {} == a
  {
  }

  lemma IdOf(r: Row)
    ensures Ids({r}) == {r.id}
  {
  }

  lemma ListsMerged(rows: set<Row>, d: Draft, fold: string, o: Outcome, junk: set<Row>, losers: set<Row>,
                    survivors: set<Row>)
    requires DistinctIds(rows) && losers + survivors <= rows && o.Merged? && o.survivor in rows && o.losers <= rows
    requires Lists(d, junk, losers, survivors)
    requires losers !! o.losers && o.survivor !in survivors
    ensures Lists(AddOutcome(d, fold, o), junk, losers + o.losers, survivors + {o.survivor})
  {
    hide Ids, SumLinks, DistinctIds, AddOutcome;
    MergedFields(d, fold, o);
    IdsUnion(losers, o.losers);
    IdsUnion(survivors, {o.survivor});
    IdOf(o.survivor);
    SumLinksUnion(losers, o.losers);
    IdsDisjoint(rows, survivors, {o.survivor});
    DisjointSizes(losers, o.losers);
    DisjointSizes(survivors, {o.survivor});
  }

  lemma DisjointSizes<T>(a: set<T>, b: set<T>)
    requires a !! b
    ensures |a + b| == |a| + |b|
  {
  }

  lemma MergedFields(d: Draft, fold: string, o: Outcome)
    requires o.Merged? && d.geo.Keys <= d.survivors && d.rewrites.Keys <= d.survivors
    ensures var e := AddOutcome(d, fold, o);
            && e.junk == d.junk && e.junkListed == d.junkListed
            && e.losers == d.losers + Ids(o.losers) && e.mergeMap.Keys == d.mergeMap.Keys + Ids(o.losers)
            && e.mergeListed == d.mergeListed + |o.losers| && e.loserLinks == d.loserLinks + SumLinks(o.losers)
            && e.survivors == d.survivors + {o.survivor.id} && e.foldClusters == d.foldClusters + 1
            && e.rewrites.Keys <= e.survivors && e.geo.Keys <= e.survivors
            && (o.survivor.id !in d.survivors ==> e.geoListed - d.geoListed == |e.geo| - |d.geo|)
  {
    hide Ids, SumLinks;
    LoserMapKeys(o.survivor, o.losers);
    if o.survivor.id !in d.survivors {
      GeoCount(d.geo, o);
    }
  }

  lemma LoserMapKeys(survivor: Row, losers: set<Row>)
    ensures LoserMap(survivor, losers).Keys == Ids(losers)
  {
  }

  lemma GeoCount(geo: map<string, Geo>, o: Outcome)
    requires o.Merged? && o.survivor.id !in geo
    ensures o.geo.Some? ==> |geo[o.survivor.id := o.geo.value]| == |geo| + 1
  {
  }

  /** What the draft records of one cluster: its merge, its rewrite, its geo, and what it holds back. */
  ghost predicate Records(d: Draft, key: string, o: Outcome, hold: Option<GeoHold>) {
    && (o.Merged? ==> SurvivorEntries(d, o) && LoserEntries(d, o))
    && (key in d.ambiguousToken <==> o.HeldForReview?)
    && (o.HeldForReview? ==> d.ambiguousToken[key] == TokenHold(o.survivorName, o.rows))
    && (key in d.ambiguousGeo <==> hold.Some?)
    && (hold.Some? ==> d.ambiguousGeo[key] == hold.value)
  }

  function HoldFor(c: Canon, rows: set<Row>, key: string): Option<GeoHold> {
    if Skipped(key) then None else GeoHoldIn(c, Cluster(c, rows, key))
  }

  /** `DraftFor` one cluster further. */
  lemma DraftForStep(c: Canon, rows: set<Row>, folds: seq<string>, key: string)
    requires DistinctIds(rows) && Elements(folds + [key]) <= ClusterKeys(c, rows)
    ensures Elements(folds) <= ClusterKeys(c, rows) && key in ClusterKeys(c, rows)
    ensures DraftFor(c, rows, folds + [key]) ==
            AddOutcome(AddGeoHold(DraftFor(c, rows, folds), key, HoldFor(c, rows, key)), key, OutcomeFor(c, rows, key))
  {
    hide Decide, GeoHoldIn, SumLinks;
    var q := folds + [key];
    assert q[..|q| - 1] == folds && q[|q| - 1] == key;
    assert Elements(folds) <= Elements(q) && key in Elements(q);
  }

  lemma EntriesKept(rows: set<Row>, d: Draft, fold: string, o: Outcome, o2: Outcome)
    requires DistinctIds(rows) && o.Merged? && SurvivorEntries(d, o) && LoserEntries(d, o)
    requires o.survivor in rows && o.losers <= rows
    requires o2.Merged? ==>
               o2.survivor in rows && o2.losers <= rows && o2.survivor != o.survivor && o2.losers !! o.losers
    ensures SurvivorEntries(AddOutcome(d, fold, o2), o) && LoserEntries(AddOutcome(d, fold, o2), o)
  {
    if o2.Merged? {
      assert o2.survivor.id != o.survivor.id;
      forall l | l in o.losers ensures l.id !in LoserMap(o2.survivor, o2.losers) {
      }
    }
  }

  lemma EntriesMade(d: Draft, fold: string, o: Outcome)
    requires o.Merged? && o.survivor.id !in d.rewrites && o.survivor.id !in d.geo
    ensures SurvivorEntries(AddOutcome(d, fold, o), o) && LoserEntries(AddOutcome(d, fold, o), o)
  {
  }

  lemma HoldsStep(d: Draft, key: string, o: Outcome, hold: Option<GeoHold>)
    ensures var e := AddOutcome(AddGeoHold(d, key, hold), key, o);
            && e.ambiguousToken == (if o.HeldForReview? then d.ambiguousToken[key := TokenHold(o.survivorName, o.rows)]
                else d.ambiguousToken)
            && e.ambiguousGeo == (if hold.Some? then d.ambiguousGeo[key := hold.value] else d.ambiguousGeo)
  {
  }

  ghost predicate Tallied(c: Canon, rows: set<Row>, keys: set<string>, d: Draft)
    requires DistinctIds(rows) && keys <= ClusterKeys(c, rows)
  {
    && Lists(d, WithRole(c, rows, keys, Junk), WithRole(c, rows, keys, Loser), WithRole(c, rows, keys, Survivor))
    && d.ambiguousGeo.Keys <= keys && d.ambiguousToken.Keys <= keys
    && forall key | key in keys :: Records(d, key, OutcomeFor(c, rows, key), HoldFor(c, rows, key))
  }

  lemma ListsIgnoreHolds(d: Draft, key: string, hold: Option<GeoHold>, junk: set<Row>, losers: set<Row>,
                         survivors: set<Row>)
    requires Lists(d, junk, losers, survivors)
    ensures Lists(AddGeoHold(d, key, hold), junk, losers, survivors)
  {
  }

  lemma WithRoleAreRows(c: Canon, rows: set<Row>, keys: set<string>, key: string)
    requires DistinctIds(rows)
    ensures forall role :: WithRole(c, rows, keys, role) <= rows
    ensures Cluster(c, rows, key) <= rows
  {
  }

  lemma ListsAlong(c: Canon, rows: set<Row>, keys: set<string>, key: string, d: Draft)
    requires DistinctIds(rows) && keys <= ClusterKeys(c, rows) && key in ClusterKeys(c, rows) && key !in keys
    requires Lists(d, WithRole(c, rows, keys, Junk), WithRole(c, rows, keys, Loser), WithRole(c, rows, keys, Survivor))
    ensures var k1 := keys + {key};
            Lists(AddOutcome(AddGeoHold(d, key, HoldFor(c, rows, key)), key, OutcomeFor(c, rows, key)),
                  WithRole(c, rows, k1, Junk), WithRole(c, rows, k1, Loser), WithRole(c, rows, k1, Survivor))
  {
    hide Lists, AddOutcome, WithRole, OutcomeFor, PartOf, Cluster, AddGeoHold, HoldFor;
    WithRoleStep(c, rows, keys, key, Junk);
    WithRoleStep(c, rows, keys, key, Loser);
    WithRoleStep(c, rows, keys, key, Survivor);
    PartIsInCluster(c, rows, key, Junk);
    PartIsInCluster(c, rows, key, Loser);
    PartIsInCluster(c, rows, key, Survivor);
    WithRoleAreRows(c, rows, keys, key);
    var junk, losers, survivors := WithRole(c, rows, keys, Junk), WithRole(c, rows, keys, Loser),
        WithRole(c, rows, keys, Survivor);
    ListsIgnoreHolds(d, key, HoldFor(c, rows, key), junk, losers, survivors);
    ListsStep(rows, AddGeoHold(d, key, HoldFor(c, rows, key)), key, OutcomeFor(c, rows, key), junk, losers, survivors);
  }

  lemma OutcomeInCluster(c: Canon, rows: set<Row>, key: string)
    requires DistinctIds(rows) && key in ClusterKeys(c, rows) && OutcomeFor(c, rows, key).Merged?
    ensures var o := OutcomeFor(c, rows, key);
            o.survivor in Cluster(c, rows, key) && o.losers <= Cluster(c, rows, key) && !Skipped(key)
  {
    PartIsInCluster(c, rows, key, Loser);
    PartIsInCluster(c, rows, key, Survivor);
    hide Decide;
    assert OutcomeFor(c, rows, key).survivor in PartOf(OutcomeFor(c, rows, key), Survivor);
  }

  lemma ClustersApart(c: Canon, rows: set<Row>, k1: string, k2: string)
    requires k1 != k2
    ensures Cluster(c, rows, k1) !! Cluster(c, rows, k2)
    ensures Cluster(c, rows, k1) <= rows && Cluster(c, rows, k2) <= rows
  {
  }

  /** What was recorded of an earlier cluster stays recorded. */
  lemma RecordsKept(c: Canon, rows: set<Row>, d: Draft, k1: string, key: string)
    requires DistinctIds(rows) && k1 in ClusterKeys(c, rows) && key in ClusterKeys(c, rows) && k1 != key
    requires Records(d, k1, OutcomeFor(c, rows, k1), HoldFor(c, rows, k1))
    ensures Records(AddOutcome(AddGeoHold(d, key, HoldFor(c, rows, key)), key, OutcomeFor(c, rows, key)), k1,
                    OutcomeFor(c, rows, k1), HoldFor(c, rows, k1))
  {
    hide OutcomeFor, HoldFor, AddOutcome, SurvivorEntries, LoserEntries, Cluster, DistinctIds;
    var o1, o2 := OutcomeFor(c, rows, k1), OutcomeFor(c, rows, key);
    var d1 := AddGeoHold(d, key, HoldFor(c, rows, key));
    HoldsStep(d, key, o2, HoldFor(c, rows, key));
    if o1.Merged? {
      ClustersApart(c, rows, k1, key);
      OutcomeInCluster(c, rows, k1);
      if o2.Merged? {
        OutcomeInCluster(c, rows, key);
      }
      EntriesIgnoreHolds(d, key, HoldFor(c, rows, key), o1);
      EntriesKept(rows, d1, key, o1, o2);
    }
  }

  lemma EntriesIgnoreHolds(d: Draft, key: string, hold: Option<GeoHold>, o: Outcome)
    requires SurvivorEntries(d, o) && LoserEntries(d, o)
    ensures SurvivorEntries(AddGeoHold(d, key, hold), o) && LoserEntries(AddGeoHold(d, key, hold), o)
  {
  }

  lemma RecordsMade(c: Canon, rows: set<Row>, keys: set<string>, d: Draft, key: string)
    requires DistinctIds(rows) && keys <= ClusterKeys(c, rows) && key in ClusterKeys(c, rows) && key !in keys
    requires Tallied(c, rows, keys, d)
    ensures Records(AddOutcome(AddGeoHold(d, key, HoldFor(c, rows, key)), key, OutcomeFor(c, rows, key)), key,
                    OutcomeFor(c, rows, key), HoldFor(c, rows, key))
  {
    hide OutcomeFor, HoldFor, AddOutcome, SurvivorEntries, LoserEntries, DistinctIds, WithRole, Cluster;
    var o, hold := OutcomeFor(c, rows, key), HoldFor(c, rows, key);
    HoldsStep(d, key, o, hold);
    if o.Merged? {
      NewSurvivor(c, rows, keys, d, key);
      EntriesMade(AddGeoHold(d, key, hold), key, o);
    }
  }

  lemma NewSurvivor(c: Canon, rows: set<Row>, keys: set<string>, d: Draft, key: string)
    requires DistinctIds(rows) && keys <= ClusterKeys(c, rows) && key in ClusterKeys(c, rows) && key !in keys
    requires Tallied(c, rows, keys, d) && OutcomeFor(c, rows, key).Merged?
    ensures OutcomeFor(c, rows, key).survivor.id !in d.survivors
    ensures d.rewrites.Keys <= d.survivors && d.geo.Keys <= d.survivors
  {
    hide OutcomeFor, HoldFor, DistinctIds, WithRole, Cluster, Ids, SumLinks;
    var s := OutcomeFor(c, rows, key).survivor;
    OutcomeInCluster(c, rows, key);
    WithRoleStep(c, rows, keys, key, Survivor);
    WithRoleAreRows(c, rows, keys, key);
    IdsDisjoint(rows, WithRole(c, rows, keys, Survivor), {s});
    IdOf(s);
  }

  lemma NewLosers(c: Canon, rows: set<Row>, keys: set<string>, d: Draft, key: string)
    requires DistinctIds(rows) && keys <= ClusterKeys(c, rows) && key in ClusterKeys(c, rows) && key !in keys
    requires Tallied(c, rows, keys, d) && OutcomeFor(c, rows, key).Merged?
    ensures Ids(OutcomeFor(c, rows, key).losers) !! d.mergeMap.Keys
  {
    hide OutcomeFor, HoldFor, DistinctIds, WithRole, Cluster, Ids, SumLinks;
    WithRoleStep(c, rows, keys, key, Loser);
    WithRoleAreRows(c, rows, keys, key);
    OutcomeInCluster(c, rows, key);
    IdsDisjoint(rows, WithRole(c, rows, keys, Loser), OutcomeFor(c, rows, key).losers);
  }

  /** The plan over any listing of clusters is exactly the roles of their rows. */
  lemma {:induction false} DraftTallied(c: Canon, rows: set<Row>, folds: seq<string>)
    requires DistinctIds(rows) && Elements(folds) <= ClusterKeys(c, rows) && NoRepeats(folds)
    ensures Tallied(c, rows, Elements(folds), DraftFor(c, rows, folds))
  {
    hide Tallied, OutcomeFor, HoldFor, AddOutcome, AddGeoHold, AddCluster;
    if folds == [] {
      NothingTallied(c, rows);
      assert Elements(folds) == {};
    } else {
      var n := |folds| - 1;
      var key := folds[n];
      assert folds == folds[..n] + [key];
      DraftForStep(c, rows, folds[..n], key);
      assert Elements(folds) == Elements(folds[..n]) + {key};
      assert key !in Elements(folds[..n]);
      DraftTallied(c, rows, folds[..n]);
      TalliedStep(c, rows, Elements(folds[..n]), DraftFor(c, rows, folds[..n]), key);
    }
  }

  lemma NothingTallied(c: Canon, rows: set<Row>)
    requires DistinctIds(rows)
    ensures Tallied(c, rows, {}, EMPTY_DRAFT)
  {
    forall role ensures WithRole(c, rows, {}, role) == {} {
    }
  }

  lemma TalliedStep(c: Canon, rows: set<Row>, keys: set<string>, d: Draft, key: string)
    requires DistinctIds(rows) && keys <= ClusterKeys(c, rows) && key in ClusterKeys(c, rows) && key !in keys
    requires Tallied(c, rows, keys, d)
    ensures Tallied(c, rows, keys + {key},
            AddOutcome(AddGeoHold(d, key, HoldFor(c, rows, key)), key, OutcomeFor(c, rows, key)))
  {
    hide Records, Lists, OutcomeFor, WithRole, HoldFor, AddOutcome, AddGeoHold;
    var e := AddOutcome(AddGeoHold(d, key, HoldFor(c, rows, key)), key, OutcomeFor(c, rows, key));
    ListsAlong(c, rows, keys, key, d);
    HoldsStep(d, key, OutcomeFor(c, rows, key), HoldFor(c, rows, key));
    forall k1 | k1 in keys ensures Records(e, k1, OutcomeFor(c, rows, k1), HoldFor(c, rows, k1)) {
      RecordsKept(c, rows, d, k1, key);
    }
    RecordsMade(c, rows, keys, d, key);
  }
}
