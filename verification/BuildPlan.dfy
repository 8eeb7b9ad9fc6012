/** The planner as it runs: rows in the order of the export, clusters in the order of their folds, lists that
    are sorted before they are emitted. */
module BuildPlan {
  import opened Ordering
  import opened ListOrder
  import opened MergePlan
  import opened MergeDraft
  import opened ClusterDecision

  datatype TokenEntry = TokenEntry(survivorName: string, members: seq<Row>)

  datatype SampleEntry = SampleEntry(fold: string, survivor: Row, name: string, cls: string, losers: seq<Row>)

  datatype Plan = Plan(mergeMap: seq<(string, string)>, rewrites: seq<(string, Rewrite)>, junk: seq<string>,
                       ambiguousGeo: seq<(string, GeoEntry)>, ambiguousToken: seq<(string, TokenEntry)>,
                       foldClusters: nat, loserLinks: int, geo: seq<(string, Geo)>, junkFromSurvivor: nat,
                       samples: seq<SampleEntry>)

  const EMPTY_PLAN := Plan([], [], [], [], [], 0, 0, [], 0, [])

  ghost predicate ShowsToken(e: TokenEntry, h: TokenHold) {
    e.survivorName == h.survivorName && ShowsRows(e.members, h.rows)
  }

  ghost predicate ShowsSample(e: SampleEntry, s: Sample) {
    && e.fold == s.fold && e.survivor == s.survivor && e.name == s.name && e.cls == s.cls
    && ShowsRows(e.losers, s.losers)
  }

  ghost function Same<V>(): (V, V) -> bool {
    (v: V, w: V) => v == w
  }

  ghost function GeoShown(): (GeoEntry, GeoHold) -> bool {
    (e: GeoEntry, h: GeoHold) => ShowsGeo(e, h)
  }

  ghost function TokenShown(): (TokenEntry, TokenHold) -> bool {
    (e: TokenEntry, h: TokenHold) => ShowsToken(e, h)
  }

  // What the lists hold of a draft.

  ghost predicate MergesListed(p: Plan, d: Draft) {
    Tabulates(p.mergeMap, d.mergeMap, Same<string>()) && |p.mergeMap| == d.mergeListed
  }

  ghost predicate RewritesListed(p: Plan, d: Draft) {
    Tabulates(p.rewrites, d.rewrites, Same<Rewrite>())
  }

  ghost predicate GeoListed(p: Plan, d: Draft) {
    Tabulates(p.geo, d.geo, Same<Geo>()) && |p.geo| == d.geoListed
  }

  ghost predicate JunkListed(p: Plan, d: Draft) {
    Elements(p.junk) == d.junk && |p.junk| == d.junkListed
  }

  ghost predicate HoldsListed(p: Plan, d: Draft) {
    && Tabulates(p.ambiguousGeo, d.ambiguousGeo, GeoShown())
    && Tabulates(p.ambiguousToken, d.ambiguousToken, TokenShown())
  }

  ghost predicate SamplesListed(p: Plan, d: Draft) {
    |p.samples| == |d.samples| && forall i | 0 <= i < |p.samples| :: ShowsSample(p.samples[i], d.samples[i])
  }

  ghost predicate Counted(p: Plan, d: Draft) {
    p.foldClusters == d.foldClusters && p.loserLinks == d.loserLinks && p.junkFromSurvivor == d.junkFromSurvivor
  }

  ghost predicate Collected(p: Plan, d: Draft) {
    && MergesListed(p, d) && RewritesListed(p, d) && GeoListed(p, d) && JunkListed(p, d) && HoldsListed(p, d)
    && SamplesListed(p, d) && Counted(p, d)
  }

  lemma NothingCollected()
    ensures Collected(EMPTY_PLAN, EMPTY_DRAFT)
  {
    assert Keys<string>([]) == {} && Keys<Rewrite>([]) == {} && Keys<Geo>([]) == {};
    assert Keys<GeoEntry>([]) == {} && Keys<TokenEntry>([]) == {};
  }

  // One cluster's entries.

  method CollectHold(p: Plan, fold: string, hold: Option<GeoEntry>, ghost d: Draft, ghost h: Option<GeoHold>)
    returns (q: Plan)
    requires Collected(p, d) && ShowsHold(hold, h) && fold !in d.ambiguousGeo
    ensures Collected(q, AddGeoHold(d, fold, h))
  {
    q := p;
    if hold.Some? {
      TabulatesMore(p.ambiguousGeo, d.ambiguousGeo, GeoShown(), fold, hold.value, h.value);
      hide Tabulates, ShowsGeo, ShowsSample, Same;
      q := p.(ambiguousGeo := p.ambiguousGeo + [(fold, hold.value)]);
    }
  }

  function IdsListed(rows: seq<Row>): seq<string> {
    seq(|rows|, i requires 0 <= i < |rows| => rows[i].id)
  }

  lemma IdsListedAre(rows: seq<Row>)
    ensures Elements(IdsListed(rows)) == Ids(Elements(rows))
  {
    forall i ensures i in Elements(IdsListed(rows)) <==> i in Ids(Elements(rows)) {
      if i in Ids(Elements(rows)) {
        var r :| r in rows && r.id == i;
        var k :| 0 <= k < |rows| && rows[k] == r;
        assert IdsListed(rows)[k] == i;
      }
    }
  }

  lemma AppendedElements<T>(a: seq<T>, b: seq<T>)
    ensures Elements(a + b) == Elements(a) + Elements(b)
  {
  }

  method CollectJunk(p: Plan, fold: string, rows: seq<Row>, fromSurvivor: bool, ghost d: Draft) returns (q: Plan)
    requires Collected(p, d) && DistinctRows(rows)
    ensures Collected(q, AddOutcome(d, fold, Junked(Elements(rows), fromSurvivor)))
  {
    JunkCollected(p, rows, d);
    hide Tabulates, ShowsSample, Same, Ids, Elements, IdsListed, MergesListed, RewritesListed, GeoListed, HoldsListed,
      DistinctRows;
    q := p.(junk := p.junk + IdsListed(rows));
    if fromSurvivor {
      q := q.(junkFromSurvivor := q.junkFromSurvivor + 1);
    }
    JunkedDraft(p, q, d, AddOutcome(d, fold, Junked(Elements(rows), fromSurvivor)));
  }

  lemma JunkCollected(p: Plan, rows: seq<Row>, d: Draft)
    requires JunkListed(p, d) && DistinctRows(rows)
    ensures Elements(p.junk + IdsListed(rows)) == d.junk + Ids(Elements(rows))
    ensures |p.junk + IdsListed(rows)| == d.junkListed + |Elements(rows)|
  {
    DistinctRowsAreDistinct(rows);
    ElementsSize(rows);
    IdsListedAre(rows);
    AppendedElements(p.junk, IdsListed(rows));
    hide Ids, Elements;
  }

  /** Lists that did not change still list what did not change. */
  lemma JunkedDraft(p: Plan, q: Plan, d: Draft, e: Draft)
    requires Collected(p, d) && q == p.(junk := q.junk, junkFromSurvivor := q.junkFromSurvivor)
    requires e == d.(junk := e.junk, junkListed := e.junkListed, junkFromSurvivor := e.junkFromSurvivor)
    requires JunkListed(q, e) && q.junkFromSurvivor == e.junkFromSurvivor
    ensures Collected(q, e)
  {
    hide Tabulates, ShowsSample, Same, Elements;
  }

  method CollectToken(p: Plan, fold: string, name: string, rows: seq<Row>, ghost d: Draft) returns (q: Plan)
    requires Collected(p, d) && DistinctRows(rows) && fold !in d.ambiguousToken
    ensures Collected(q, AddOutcome(d, fold, HeldForReview(name, Elements(rows))))
  {
    var members := ShowRows(rows);
    var e := TokenEntry(name, members);
    TabulatesMore(p.ambiguousToken, d.ambiguousToken, TokenShown(), fold, e, TokenHold(name, Elements(rows)));
    hide Tabulates, ShowsRows, ShowsSample, Same, Elements;
    q := p.(ambiguousToken := p.ambiguousToken + [(fold, e)]);
  }

  lemma LoserMapMore(mm: map<string, string>, survivor: Row, done: set<Row>, l: Row)
    ensures (mm + LoserMap(survivor, done))[l.id := survivor.id] == mm + LoserMap(survivor, done + {l})
  {
    IdsUnion(done, {l});
    IdOf(l);
  }

  /** `q` is `p` with the losers `done` listed and summed on top of the draft `d`. */
  ghost predicate LosersDone(p: Plan, q: Plan, survivor: Row, done: set<Row>, ids: set<string>, d: Draft) {
    && q == p.(mergeMap := q.mergeMap, loserLinks := q.loserLinks)
    && ids == Ids(done) && q.loserLinks == d.loserLinks + SumLinks(done)
    && Tabulates(q.mergeMap, d.mergeMap + LoserMap(survivor, done), Same<string>())
    && |q.mergeMap| == d.mergeListed + |done|
  }

  function WithLoser(q: Plan, survivor: Row, l: Row): Plan {
    q.(mergeMap := q.mergeMap + [(l.id, survivor.id)], loserLinks := q.loserLinks + l.links)
  }

  lemma LosersStart(p: Plan, survivor: Row, ordered: seq<Row>, d: Draft)
    requires Collected(p, d)
    ensures LosersDone(p, p, survivor, Elements(ordered[..0]), {}, d)
  {
    assert Elements(ordered[..0]) == {};
    assert d.mergeMap + LoserMap(survivor, {}) == d.mergeMap;
    NoLinks();
    hide Tabulates, SumLinks;
  }

  lemma LoserStep(p: Plan, q: Plan, survivor: Row, rows: set<Row>, ordered: seq<Row>, i: nat, ids: set<string>,
                  d: Draft)
    requires i < |ordered| && NoRepeats(ordered) && Elements(ordered) == rows && DistinctIds(rows)
    requires Ids(rows) !! d.mergeMap.Keys && LosersDone(p, q, survivor, Elements(ordered[..i]), ids, d)
    ensures LosersDone(p, WithLoser(q, survivor, ordered[i]), survivor, Elements(ordered[..i + 1]),
            ids + {ordered[i].id}, d)
  {
    var l, done := ordered[i], Elements(ordered[..i]);
    NotYet(ordered, i);
    SumLinksAdd(done, l);
    IdsUnion(done, {l});
    IdOf(l);
    LoserMapKeys(survivor, done);
    LoserMapMore(d.mergeMap, survivor, done, l);
    assert l.id in Ids(rows) && l.id !in Ids(done);
    TabulatesMore(q.mergeMap, d.mergeMap + LoserMap(survivor, done), Same<string>(), l.id, survivor.id, survivor.id);
    hide Tabulates, SumLinks, LoserMap, Ids, Elements, DistinctIds, NoRepeats;
  }

  lemma OrderedLosers(losers: seq<Row>)
    requires DistinctRows(losers)
    ensures var rows := Elements(losers);
            && DistinctIds(rows) && NoRepeats(losers) && StrictTotalOn(SmallerId, rows)
            && NoRepeats(Ascending(SmallerId, rows)) && Elements(Ascending(SmallerId, rows)) == rows
  {
    DistinctRowsAreDistinct(losers);
    SmallerIdIsTotal(Elements(losers));
    SortedIsNoRepeats(SmallerId, Ascending(SmallerId, Elements(losers)));
  }

  /** The losers go on the merge map in the order of their ids, and their links are summed. */
  method CollectLosers(p: Plan, survivor: Row, losers: seq<Row>, ghost d: Draft) returns (q: Plan, ids: set<string>)
    requires Collected(p, d) && DistinctRows(losers) && Ids(Elements(losers)) !! d.mergeMap.Keys
    ensures LosersDone(p, q, survivor, Elements(losers), ids, d)
  {
    OrderedLosers(losers);
    hide *;
    var ordered := SortBy(SmallerId, losers);
    q, ids := p, {};
    LosersStart(p, survivor, ordered, d);
    for i := 0 to |ordered|
      invariant LosersDone(p, q, survivor, Elements(ordered[..i]), ids, d)
    {
      LoserStep(p, q, survivor, Elements(losers), ordered, i, ids, d);
      q, ids := WithLoser(q, survivor, ordered[i]), ids + {ordered[i].id};
    }
    assert ordered[..|ordered|] == ordered;
  }

  /** The entries a merge adds besides its losers. */
  function WithSurvivor(q: Plan, fold: string, o: Ruling, shown: seq<Row>): Plan
    requires o.Merge?
  {
    var id := o.survivor.id;
    q.(foldClusters := q.foldClusters + 1,
       geo := if o.geo.Some? then q.geo + [(id, o.geo.value)] else q.geo,
       rewrites := if o.name != o.survivor.name || o.cls != o.survivor.cls then q.rewrites
           + [(id, Rewrite(o.name, o.cls))]
                   else q.rewrites,
       samples := if |q.samples| < SAMPLES then q.samples + [SampleEntry(fold, o.survivor, o.name, o.cls, shown)]
                  else q.samples)
  }

  method CollectMerge(p: Plan, fold: string, o: Ruling, ghost d: Draft)
    returns (q: Plan, ids: set<string>)
    requires Collected(p, d) && o.Merge? && DistinctRows(o.losers)
    requires Ids(Elements(o.losers)) !! d.mergeMap.Keys && o.survivor.id !in d.rewrites && o.survivor.id !in d.geo
    ensures Collected(q, AddOutcome(d, fold, Meaning(o))) && ids == Ids(Elements(o.losers))
  {
    q, ids := CollectLosers(p, o.survivor, o.losers, d);
    var shown := ShowRows(o.losers);
    MergeCollected(p, q, fold, o, shown, ids, d);
    q := WithSurvivor(q, fold, o, shown);
  }

  lemma MergedDraft(d: Draft, fold: string, o: Ruling)
    requires o.Merge?
    ensures var e, id := AddOutcome(d, fold, Meaning(o)), o.survivor.id;
            var rows := Elements(o.losers);
            && e.mergeMap == d.mergeMap + LoserMap(o.survivor, rows) && e.mergeListed == d.mergeListed + |rows|
            && e.junk == d.junk && e.junkListed == d.junkListed && e.junkFromSurvivor == d.junkFromSurvivor
            && e.ambiguousGeo == d.ambiguousGeo && e.ambiguousToken == d.ambiguousToken
            && e.foldClusters == d.foldClusters + 1 && e.loserLinks == d.loserLinks + SumLinks(rows)
            && e.rewrites == (if o.name != o.survivor.name || o.cls != o.survivor.cls then
                                d.rewrites[id := Rewrite(o.name, o.cls)] else d.rewrites)
            && e.geo == (if o.geo.Some? then d.geo[id := o.geo.value] else d.geo)
            && e.geoListed == d.geoListed + (if o.geo.Some? then 1 else 0)
            && e.samples == (if |d.samples| < SAMPLES then
                               d.samples + [Sample(fold, o.survivor, o.name, o.cls, rows)] else d.samples)
  {
    hide SumLinks, LoserMap, Elements;
  }

  lemma MergeCollected(p: Plan, q: Plan, fold: string, o: Ruling, shown: seq<Row>, ids: set<string>, d: Draft)
    requires Collected(p, d) && o.Merge? && o.survivor.id !in d.rewrites && o.survivor.id !in d.geo
    requires LosersDone(p, q, o.survivor, Elements(o.losers), ids, d) && ShowsRows(shown, Elements(o.losers))
    ensures Collected(WithSurvivor(q, fold, o, shown), AddOutcome(d, fold, Meaning(o)))
  {
    MergedDraft(d, fold, o);
    var e, r := AddOutcome(d, fold, Meaning(o)), WithSurvivor(q, fold, o, shown);
    if o.geo.Some? {
      TabulatesMore(q.geo, d.geo, Same<Geo>(), o.survivor.id, o.geo.value, o.geo.value);
    }
    var w := Rewrite(o.name, o.cls);
    if r.rewrites != q.rewrites {
      TabulatesMore(q.rewrites, d.rewrites, Same<Rewrite>(), o.survivor.id, w, w);
    }
    hide AddOutcome, Tabulates, SumLinks, LoserMap, Ids, Elements, ShowsRows, Same, GeoShown, TokenShown;
    MergeSamples(p, d, r, e, fold, o, shown);
    hide SamplesListed, ShowsSample;
    assert MergesListed(r, e) && RewritesListed(r, e) && GeoListed(r, e);
  }

  lemma MergeSamples(p: Plan, d: Draft, r: Plan, e: Draft, fold: string, o: Ruling, shown: seq<Row>)
    requires SamplesListed(p, d) && o.Merge? && ShowsRows(shown, Elements(o.losers))
    requires r.samples == if |p.samples| < SAMPLES then p.samples
             + [SampleEntry(fold, o.survivor, o.name, o.cls, shown)]
                          else p.samples
    requires e.samples == if |d.samples| < SAMPLES then
                            d.samples + [Sample(fold, o.survivor, o.name, o.cls, Elements(o.losers))]
                          else d.samples
    ensures SamplesListed(r, e)
  {
    hide ShowsRows, Elements;
  }

  // The partition checks over the lists.

  function TargetKey(c: Canon, w: Rewrite): (string, string) {
    (c.lower(w.name), w.cls)
  }

  /** The loop over the rewrites that remembers which survivor wants which slot. */
  method TargetsClash(c: Canon, rewrites: seq<(string, Rewrite)>, ghost m: map<string, Rewrite>) returns (b: bool)
    requires Tabulates(rewrites, m, Same<Rewrite>())
    ensures b == Clashes(c, m)
  {
    var targets: map<(string, string), string> := map[];
    for i := 0 to |rewrites|
      invariant targets.Keys == set k | 0 <= k < i :: TargetKey(c, rewrites[k].1)
      invariant forall k | 0 <= k < i :: targets[TargetKey(c, rewrites[k].1)] == rewrites[k].0
    {
      var key := TargetKey(c, rewrites[i].1);
      if key in targets && targets[key] != rewrites[i].0 {
        var k :| 0 <= k < i && TargetKey(c, rewrites[k].1) == key;
        ClashFound(c, rewrites, m, k, i);
        return true;
      }
      targets := targets[key := rewrites[i].0];
    }
    NoClash(c, rewrites, m);
    return false;
  }

  lemma ClashFound(c: Canon, rewrites: seq<(string, Rewrite)>, m: map<string, Rewrite>, i: nat, j: nat)
    requires Tabulates(rewrites, m, Same<Rewrite>()) && i < j < |rewrites|
    requires TargetKey(c, rewrites[i].1) == TargetKey(c, rewrites[j].1)
    ensures Clashes(c, m)
  {
    var s1, s2 := rewrites[i].0, rewrites[j].0;
    assert s1 in m && s2 in m && m[s1] == rewrites[i].1 && m[s2] == rewrites[j].1;
  }

  lemma NoClash(c: Canon, rewrites: seq<(string, Rewrite)>, m: map<string, Rewrite>)
    requires Tabulates(rewrites, m, Same<Rewrite>())
    requires forall i, j | 0 <= i < |rewrites| && 0 <= j < |rewrites| ::
               TargetKey(c, rewrites[i].1) == TargetKey(c, rewrites[j].1) ==> rewrites[i].0 == rewrites[j].0
    ensures !Clashes(c, m)
  {
    forall s1, s2 | s1 in m && s2 in m && TargetKey(c, m[s1]) == TargetKey(c, m[s2]) ensures s1 == s2 {
      assert s1 in Keys(rewrites) && s2 in Keys(rewrites);
      var i :| 0 <= i < |rewrites| && rewrites[i].0 == s1;
      var j :| 0 <= j < |rewrites| && rewrites[j].0 == s2;
    }
  }

  // The partition checks.

  datatype Violation =
    | SurvivorAndLoser | LoserAndJunk | SurvivorAndJunk | DuplicateJunk | DuplicateLoser | DuplicateGeo
    | GeoNotSurvivor | TargetClash

  /** Two survivors would be rewritten to one (name, class) slot. */
  predicate Clashes(c: Canon, rewrites: map<string, Rewrite>) {
    exists s1, s2 | s1 in rewrites && s2 in rewrites ::
      s1 != s2 && c.lower(rewrites[s1].name) == c.lower(rewrites[s2].name) && rewrites[s1].cls == rewrites[s2].cls
  }

  function FirstViolation(c: Canon, d: Draft): Option<Violation> {
    if !(d.survivors !! d.losers) then Some(SurvivorAndLoser)
    else if !(d.losers !! d.junk) then Some(LoserAndJunk)
    else if !(d.survivors !! d.junk) then Some(SurvivorAndJunk)
    else if d.junkListed != |d.junk| then Some(DuplicateJunk)
    else if |d.mergeMap| != d.mergeListed then Some(DuplicateLoser)
    else if |d.geo| != d.geoListed then Some(DuplicateGeo)
    else if !(d.geo.Keys <= d.survivors && d.geo.Keys !! d.junk) then Some(GeoNotSurvivor)
    else if Clashes(c, d.rewrites) then Some(TargetClash)
    else None
  }

  method CheckPartition(c: Canon, p: Plan, survivors: set<string>, losers: set<string>, ghost d: Draft)
    returns (v: Option<Violation>)
    requires Collected(p, d) && survivors == d.survivors && losers == d.losers
    ensures v == FirstViolation(c, d)
  {
    var junk := Elements(p.junk);
    var clash := TargetsClash(c, p.rewrites, d.rewrites);
    assert |d.mergeMap| == |d.mergeMap.Keys| && |d.geo| == |d.geo.Keys|;
    hide Tabulates, ShowsSample, Same, Clashes, HoldsListed, SamplesListed;
    v := if !(survivors !! losers) then Some(SurvivorAndLoser)
         else if !(losers !! junk) then Some(LoserAndJunk)
         else if !(survivors !! junk) then Some(SurvivorAndJunk)
         else if |p.junk| != |junk| then Some(DuplicateJunk)
         else if |Keys(p.mergeMap)| != |p.mergeMap| then Some(DuplicateLoser)
         else if |Keys(p.geo)| != |p.geo| then Some(DuplicateGeo)
         else if !(Keys(p.geo) <= survivors && Keys(p.geo) !! junk) then Some(GeoNotSurvivor)
         else if clash then Some(TargetClash)
         else None;
  }

  // The emitted plan.

  /** The lists of the plan, each sorted by its key. */
  ghost predicate Emitted(p: Plan, d: Draft) {
    && Tabulates(p.mergeMap, d.mergeMap, Same<string>()) && SortedBy(ByKey<string>(), p.mergeMap)
    && Tabulates(p.rewrites, d.rewrites, Same<Rewrite>()) && SortedBy(ByKey<Rewrite>(), p.rewrites)
    && Tabulates(p.geo, d.geo, Same<Geo>()) && SortedBy(ByKey<Geo>(), p.geo)
    && Elements(p.junk) == d.junk && SortedBy(TextLess, p.junk)
    && Tabulates(p.ambiguousGeo, d.ambiguousGeo, GeoShown()) && SortedBy(ByKey<GeoEntry>(), p.ambiguousGeo)
    && Tabulates(p.ambiguousToken, d.ambiguousToken, TokenShown()) && SortedBy(ByKey<TokenEntry>(), p.ambiguousToken)
    && SamplesListed(p, d) && Counted(p, d)
  }

  method Emit(p: Plan, ghost d: Draft) returns (q: Plan)
    requires Collected(p, d)
    ensures Emitted(q, d)
  {
    hide Tabulates, SortedBy, ShowsSample, Same, GeoShown, TokenShown, Elements;
    var mergeMap := SortByKey(p.mergeMap, d.mergeMap, Same<string>());
    var rewrites := SortByKey(p.rewrites, d.rewrites, Same<Rewrite>());
    var geo := SortByKey(p.geo, d.geo, Same<Geo>());
    var junk := InOrder(Elements(p.junk));
    var ambiguousGeo := SortByKey(p.ambiguousGeo, d.ambiguousGeo, GeoShown());
    var ambiguousToken := SortByKey(p.ambiguousToken, d.ambiguousToken, TokenShown());
    q := p.(mergeMap := mergeMap, rewrites := rewrites, geo := geo, junk := junk, ambiguousGeo := ambiguousGeo,
            ambiguousToken := ambiguousToken);
  }

  ghost function Folds(c: Canon, rows: set<Row>): seq<string> {
    TextStrictTotal(ClusterKeys(c, rows));
    Ascending(TextLess, ClusterKeys(c, rows))
  }

  /** The plan of a table, whatever order its rows are read in. */
  ghost function PlanOf(c: Canon, rows: set<Row>): Draft
    requires DistinctIds(rows)
  {
    DraftFor(c, rows, Folds(c, rows))
  }

  lemma FoldsListed(c: Canon, rows: set<Row>)
    ensures Elements(Folds(c, rows)) == ClusterKeys(c, rows) && NoRepeats(Folds(c, rows))
  {
    TextStrictTotal(ClusterKeys(c, rows));
    SortedIsNoRepeats(TextLess, Folds(c, rows));
  }

  ghost predicate Grouped(c: Canon, rows: set<Row>, clusters: map<string, seq<Row>>) {
    && clusters.Keys == ClusterKeys(c, rows)
    && forall k | k in clusters :: clusters[k] != [] && DistinctRows(clusters[k])
        && Elements(clusters[k]) == Cluster(c, rows, k)
  }

  function AddToCluster(c: Canon, clusters: map<string, seq<Row>>, r: Row): map<string, seq<Row>> {
    var k := ClusterKey(c, r);
    clusters[k := (if k in clusters then clusters[k] else []) + [r]]
  }

  lemma GroupedStep(c: Canon, rows: set<Row>, clusters: map<string, seq<Row>>, r: Row)
    requires Grouped(c, rows, clusters) && forall x | x in rows :: x.id != r.id
    ensures Grouped(c, rows + {r}, AddToCluster(c, clusters, r))
  {
    var key := ClusterKey(c, r);
    var after := AddToCluster(c, clusters, r);
    assert ClusterKeys(c, rows + {r}) == ClusterKeys(c, rows) + {key};
    forall k | k in after ensures after[k] != [] && DistinctRows(after[k])
        && Elements(after[k]) == Cluster(c, rows + {r}, k) {
      if k == key {
        GroupGrows(c, rows, if k in clusters then clusters[k] else [], r);
      } else {
        assert Cluster(c, rows + {r}, k) == Cluster(c, rows, k);
      }
    }
  }

  lemma GroupGrows(c: Canon, rows: set<Row>, q: seq<Row>, r: Row)
    requires DistinctRows(q) && (forall x | x in rows :: x.id != r.id)
    requires if ClusterKey(c, r) in ClusterKeys(c, rows) then Elements(q) == Cluster(c, rows, ClusterKey(c, r))
             else q == []
    ensures DistinctRows(q + [r]) && Elements(q + [r]) == Cluster(c, rows + {r}, ClusterKey(c, r))
  {
    var key := ClusterKey(c, r);
    if key !in ClusterKeys(c, rows) {
      assert Cluster(c, rows, key) == {};
    }
    assert Elements(q) == Cluster(c, rows, key);
    assert Elements(q + [r]) == Elements(q) + {r};
    assert Cluster(c, rows + {r}, key) == Cluster(c, rows, key) + {r};
    forall i | 0 <= i < |q| ensures q[i].id != r.id {
      assert q[i] in Elements(q);
    }
  }

  method GroupRows(c: Canon, rows: seq<Row>) returns (clusters: map<string, seq<Row>>)
    requires DistinctRows(rows)
    ensures Grouped(c, Elements(rows), clusters)
  {
    hide Grouped, ClusterKeys, Cluster, AddToCluster;
    clusters := map[];
    NoGroups(c, Elements(rows[..0]));
    for i := 0 to |rows|
      invariant Grouped(c, Elements(rows[..i]), clusters)
    {
      ElementsAppend(rows, i);
      GroupedStep(c, Elements(rows[..i]), clusters, rows[i]);
      clusters := AddToCluster(c, clusters, rows[i]);
    }
    assert rows[..|rows|] == rows;
  }

  lemma NoGroups(c: Canon, rows: set<Row>)
    requires rows == {}
    ensures Grouped(c, rows, map[])
  {
  }

  lemma RolesApart(c: Canon, rows: set<Row>, keys: set<string>, a: Role, b: Role)
    requires DistinctIds(rows) && a != b
    ensures Ids(WithRole(c, rows, keys, a)) !! Ids(WithRole(c, rows, keys, b))
  {
    hide RoleOf, DistinctIds;
    WithRoleAreRows(c, rows, keys, "");
    IdsDisjoint(rows, WithRole(c, rows, keys, a), WithRole(c, rows, keys, b));
  }

  lemma WithRoleDistinct(c: Canon, rows: set<Row>, keys: set<string>, role: Role)
    requires DistinctIds(rows)
    ensures |Ids(WithRole(c, rows, keys, role))| == |WithRole(c, rows, keys, role)|
  {
    hide RoleOf;
    IdsDistinct(WithRole(c, rows, keys, role));
  }

  /** For rows with distinct ids every partition check passes, except that two survivors may want one slot. */
  lemma OnlyTargetsCanClash(c: Canon, rows: set<Row>, keys: set<string>, d: Draft)
    requires DistinctIds(rows) && keys <= ClusterKeys(c, rows) && Tallied(c, rows, keys, d)
    ensures FirstViolation(c, d) == if Clashes(c, d.rewrites) then Some(TargetClash) else None
  {
    hide WithRole, Records, DistinctIds, Ids, SumLinks, Clashes, OutcomeFor, HoldFor, ClusterKeys, Lists,
        FirstViolation;
    RolesApart(c, rows, keys, Role.Survivor, Role.Loser);
    RolesApart(c, rows, keys, Role.Loser, Role.Junk);
    RolesApart(c, rows, keys, Role.Survivor, Role.Junk);
    WithRoleDistinct(c, rows, keys, Role.Junk);
    WithRoleDistinct(c, rows, keys, Role.Loser);
    ListsPass(c, d, WithRole(c, rows, keys, Role.Junk), WithRole(c, rows, keys, Role.Loser),
        WithRole(c, rows, keys, Role.Survivor));
  }

  lemma ListsPass(c: Canon, d: Draft, junk: set<Row>, losers: set<Row>, survivors: set<Row>)
    requires Lists(d, junk, losers, survivors)
    requires Ids(survivors) !! Ids(losers) && Ids(losers) !! Ids(junk) && Ids(survivors) !! Ids(junk)
    requires |Ids(junk)| == |junk| && |Ids(losers)| == |losers|
    ensures FirstViolation(c, d) == if Clashes(c, d.rewrites) then Some(TargetClash) else None
  {
    hide Ids, SumLinks, Clashes;
    assert |d.mergeMap.Keys| == |d.mergeMap|;
  }

  lemma PlanTallied(c: Canon, rows: set<Row>)
    requires DistinctIds(rows)
    ensures Tallied(c, rows, ClusterKeys(c, rows), PlanOf(c, rows))
  {
    hide Tallied, DraftFor, ClusterKeys;
    FoldsListed(c, rows);
    DraftTallied(c, rows, Folds(c, rows));
  }

  // The whole planner.

  method CollectRuling(p: Plan, survivors: set<string>, losers: set<string>, fold: string, r: Ruling, ghost d: Draft)
    returns (q: Plan, s: set<string>, l: set<string>)
    requires Collected(p, d) && survivors == d.survivors && losers == d.losers && Distinct(r)
    requires FreshButHold(d, fold, Meaning(r))
    ensures Collected(q, AddOutcome(d, fold, Meaning(r)))
    ensures s == AddOutcome(d, fold, Meaning(r)).survivors && l == AddOutcome(d, fold, Meaning(r)).losers
  {
    q, s, l := p, survivors, losers;
    match r
    case Leave =>
    case Discard(rows, fromSurvivor) =>
      q := CollectJunk(p, fold, rows, fromSurvivor, d);
    case Defer(name, rows) =>
      q := CollectToken(p, fold, name, rows, d);
    case Merge(survivor, _, _, _, _) =>
      var ids;
      hide Collected;
      q, ids := CollectMerge(p, fold, r, d);
      s, l := survivors + {survivor.id}, losers + ids;
  }

  /** A decision that names nothing the draft already lists. */
  ghost predicate Fresh(d: Draft, key: string, o: Outcome) {
    key !in d.ambiguousGeo && FreshButHold(d, key, o)
  }

  ghost predicate FreshButHold(d: Draft, key: string, o: Outcome) {
    && key !in d.ambiguousToken
    && (o.Merged? ==> o.survivor.id !in d.rewrites && o.survivor.id !in d.geo && Ids(o.losers) !! d.mergeMap.Keys)
  }

  lemma ClusterIsFresh(c: Canon, rows: set<Row>, keys: set<string>, d: Draft, key: string)
    requires DistinctIds(rows) && keys <= ClusterKeys(c, rows) && key in ClusterKeys(c, rows) && key !in keys
    requires Tallied(c, rows, keys, d)
    ensures Fresh(d, key, OutcomeFor(c, rows, key))
  {
    hide OutcomeFor, HoldFor, DistinctIds, WithRole, Records, Ids, Lists;
    if OutcomeFor(c, rows, key).Merged? {
      NewSurvivor(c, rows, keys, d, key);
      NewLosers(c, rows, keys, d, key);
    }
  }

  lemma FreshAfterHold(d: Draft, key: string, hold: Option<GeoHold>, o: Outcome)
    requires Fresh(d, key, o)
    ensures var e := AddGeoHold(d, key, hold);
            e.survivors == d.survivors && e.losers == d.losers && FreshButHold(e, key, o)
  {
    hide Ids;
  }

  datatype PlanResult = Planned(plan: Plan) | Aborted(violation: Violation)

  /** What the planner answers for a set of rows. */
  ghost predicate Answers(c: Canon, rows: set<Row>, r: PlanResult)
    requires DistinctIds(rows)
  {
    var d := PlanOf(c, rows);
    if Clashes(c, d.rewrites) then r == Aborted(TargetClash) else r.Planned? && Emitted(r.plan, d)
  }

  /** The planner emits the plan of its rows taken as a set, in lists sorted by their keys, or aborts exactly
      when two survivors would be rewritten to one slot. */
  method Build(c: Canon, rows: seq<Row>) returns (r: PlanResult)
    requires DistinctRows(rows)
    ensures DistinctIds(Elements(rows)) && Answers(c, Elements(rows), r)
  {
    DistinctRowsAreDistinct(rows);
    ghost var all := Elements(rows);
    var clusters := GroupRows(c, rows);
    var folds := InOrder(clusters.Keys);
    InOrderIsFolds(c, all, folds);
    hide ClusterKeys, Cluster, AddOutcome, AddGeoHold, DraftFor, AddCluster, OutcomeFor, HoldFor, Clashes, Tallied,
      FirstViolation, Collected, Emitted, Fresh, DistinctIds, Decide, GeoHoldIn;
    var p, survivors, losers := EMPTY_PLAN, {}, {};
    ghost var d := EMPTY_DRAFT;
    NothingCollected();
    StartDraft(c, all, folds[..0]);
    for i := 0 to |folds|
      invariant Elements(folds[..i]) <= ClusterKeys(c, all)
      invariant d == DraftFor(c, all, folds[..i]) && Collected(p, d)
      invariant survivors == d.survivors && losers == d.losers
    {
      var fold := folds[i];
      ClusterNext(c, all, folds, i, d);
      if !Skipped(fold) {
        var ruling, hold := DecideCluster(c, clusters[fold]);
        p := CollectHold(p, fold, hold, d, HoldFor(c, all, fold));
        d := AddGeoHold(d, fold, HoldFor(c, all, fold));
        p, survivors, losers := CollectRuling(p, survivors, losers, fold, ruling, d);
        d := AddOutcome(d, fold, Meaning(ruling));
      }
    }
    assert folds[..|folds|] == folds;
    PlanTallied(c, all);
    OnlyTargetsCanClash(c, all, ClusterKeys(c, all), d);
    var violation := CheckPartition(c, p, survivors, losers, d);
    if violation.Some? {
      return Aborted(violation.value);
    }
    var plan := Emit(p, d);
    r := Planned(plan);
  }

  lemma InOrderIsFolds(c: Canon, rows: set<Row>, folds: seq<string>)
    requires SortedBy(TextLess, folds) && Elements(folds) == ClusterKeys(c, rows)
    ensures folds == Folds(c, rows) && NoRepeats(folds)
  {
    TextStrictTotal(ClusterKeys(c, rows));
    FoldsListed(c, rows);
    SortedUnique(TextLess, folds, Folds(c, rows));
  }

  /** One cluster further: what the draft becomes, and that it names nothing the draft already lists. */
  lemma ClusterNext(c: Canon, rows: set<Row>, folds: seq<string>, i: nat, d: Draft)
    requires DistinctIds(rows) && NoRepeats(folds) && Elements(folds) == ClusterKeys(c, rows) && i < |folds|
    requires Elements(folds[..i]) <= ClusterKeys(c, rows) && d == DraftFor(c, rows, folds[..i])
    ensures var key := folds[i];
            && key in ClusterKeys(c, rows) && Elements(folds[..i + 1]) <= ClusterKeys(c, rows)
            && Cluster(c, rows, key) != {} && DistinctIds(Cluster(c, rows, key))
            && var e := AddGeoHold(d, key, HoldFor(c, rows, key));
               && DraftFor(c, rows, folds[..i + 1]) == AddOutcome(e, key, OutcomeFor(c, rows, key))
               && (Skipped(key) ==> DraftFor(c, rows, folds[..i + 1]) == d)
               && (!Skipped(key) ==>
                     && OutcomeFor(c, rows, key) == Decide(c, Cluster(c, rows, key))
                     && HoldFor(c, rows, key) == GeoHoldIn(c, Cluster(c, rows, key)))
               && key !in d.ambiguousGeo && Fresh(d, key, OutcomeFor(c, rows, key))
               && e.survivors == d.survivors && e.losers == d.losers
               && FreshButHold(e, key, OutcomeFor(c, rows, key))
  {
    var key := folds[i];
    NotYet(folds, i);
    assert folds[..i + 1] == folds[..i] + [key];
    assert key in Elements(folds);
    hide ClusterKeys, Cluster, AddOutcome, AddGeoHold, DraftFor, AddCluster, OutcomeFor, HoldFor, Tallied, Elements,
      DistinctIds, Decide, GeoHoldIn, Ids;
    DraftForStep(c, rows, folds[..i], key);
    DecidedHere(c, rows, key);
    DraftTallied(c, rows, folds[..i]);
    ClusterIsFresh(c, rows, Elements(folds[..i]), d, key);
    FreshAfterHold(d, key, HoldFor(c, rows, key), OutcomeFor(c, rows, key));
  }

  lemma StartDraft(c: Canon, rows: set<Row>, folds: seq<string>)
    requires DistinctIds(rows) && folds == []
    ensures Elements(folds) <= ClusterKeys(c, rows) && DraftFor(c, rows, folds) == EMPTY_DRAFT
  {
  }

  lemma DecidedHere(c: Canon, rows: set<Row>, key: string)
    requires DistinctIds(rows) && key in ClusterKeys(c, rows)
    ensures Cluster(c, rows, key) != {} && DistinctIds(Cluster(c, rows, key))
    ensures Skipped(key) ==> forall d ::
            AddOutcome(AddGeoHold(d, key, HoldFor(c, rows, key)), key, OutcomeFor(c, rows, key)) == d
    ensures !Skipped(key) ==> OutcomeFor(c, rows, key) == Decide(c, Cluster(c, rows, key))
                              && HoldFor(c, rows, key) == GeoHoldIn(c, Cluster(c, rows, key))
  {
    ClusterNotEmpty(c, rows, key);
  }

  /** The order of the export never shows: there is one answer for a set of rows, so two orders of the same
      rows give the same plan, list by list and sample by sample. */
  lemma OrderNeverShows(c: Canon, rows: set<Row>, r1: PlanResult, r2: PlanResult)
    requires DistinctIds(rows) && Answers(c, rows, r1) && Answers(c, rows, r2)
    ensures r1 == r2
  {
    hide PlanOf, Clashes;
    if r1.Planned? && r2.Planned? {
      EmissionIsUnique(r1.plan, r2.plan, PlanOf(c, rows));
    }
  }

  ghost predicate ShownOnce<V(!new), W(!new)>(shows: (V, W) -> bool) {
    forall v1, v2, w :: shows(v1, w) && shows(v2, w) ==> v1 == v2
  }

  lemma SameList<V(!new), W(!new)>(p: seq<(string, V)>, q: seq<(string, V)>, m: map<string, W>, shows: (V, W) -> bool)
    requires Tabulates(p, m, shows) && Tabulates(q, m, shows) && ShownOnce(shows)
    requires SortedBy(ByKey<V>(), p) && SortedBy(ByKey<V>(), q)
    ensures p == q
  {
    forall i, j | 0 <= i < |p| && 0 <= j < |q| && p[i].0 == q[j].0 ensures p[i].1 == q[j].1 {
      assert shows(p[i].1, m[p[i].0]) && shows(q[j].1, m[q[j].0]);
    }
    TabulationIsUnique(p, q, m, shows);
  }

  lemma SameIsShownOnce<V(!new)>()
    ensures ShownOnce(Same<V>())
  {
  }

  lemma HoldsShownOnce()
    ensures ShownOnce(GeoShown()) && ShownOnce(TokenShown())
  {
    forall e1, e2, h | ShowsGeo(e1, h) && ShowsGeo(e2, h) ensures e1 == e2 {
      TextStrictTotal(h.shared);
      SortedUnique(TextLess, e1.shared, e2.shared);
      RowsShownOnce(e1.rows, e2.rows, h.rows);
    }
    forall e1, e2, h | ShowsToken(e1, h) && ShowsToken(e2, h) ensures e1 == e2 {
      RowsShownOnce(e1.members, e2.members, h.rows);
    }
  }

  lemma SamplesShownOnce(p: Plan, q: Plan, d: Draft)
    requires SamplesListed(p, d) && SamplesListed(q, d)
    ensures p.samples == q.samples
  {
    forall i | 0 <= i < |p.samples| ensures p.samples[i] == q.samples[i] {
      assert ShowsSample(p.samples[i], d.samples[i]) && ShowsSample(q.samples[i], d.samples[i]);
      RowsShownOnce(p.samples[i].losers, q.samples[i].losers, d.samples[i].losers);
    }
  }

  lemma EmissionIsUnique(p: Plan, q: Plan, d: Draft)
    requires Emitted(p, d) && Emitted(q, d)
    ensures p == q
  {
    hide Tabulates, SortedBy, ShowsGeo, ShowsToken, SamplesListed, ShownOnce, Same, GeoShown, TokenShown, TextLess;
    SameIsShownOnce<string>();
    SameIsShownOnce<Rewrite>();
    SameIsShownOnce<Geo>();
    HoldsShownOnce();
    SameList(p.mergeMap, q.mergeMap, d.mergeMap, Same<string>());
    SameList(p.rewrites, q.rewrites, d.rewrites, Same<Rewrite>());
    SameList(p.geo, q.geo, d.geo, Same<Geo>());
    SameList(p.ambiguousGeo, q.ambiguousGeo, d.ambiguousGeo, GeoShown());
    SameList(p.ambiguousToken, q.ambiguousToken, d.ambiguousToken, TokenShown());
    TextStrictTotal(d.junk);
    SortedUnique(TextLess, p.junk, q.junk);
    SamplesShownOnce(p, q, d);
  }
}
