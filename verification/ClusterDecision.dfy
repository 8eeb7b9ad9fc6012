/** One cluster of the planner as it runs, on the list of its members. */
module ClusterDecision {
  import opened Ordering
  import opened ListOrder
  import opened MergePlan
  import opened MergeDraft

  predicate DistinctRows(rows: seq<Row>) {
    forall i, j | 0 <= i < j < |rows| :: rows[i].id != rows[j].id
  }

  lemma DistinctRowsAreDistinct(rows: seq<Row>)
    requires DistinctRows(rows)
    ensures DistinctIds(Elements(rows)) && NoRepeats(rows)
  {
  }

  // Homonym protection.

  function RowsBySurface(c: Canon, rows: set<Row>, cls: string): map<string, set<Row>> {
    map s | s in (set m | m in rows && MayBeHomonym(m) && m.cls == cls :: Surface(c, m)) :: RowsAt(c, rows, s, cls)
  }

  function AddRow(table: map<string, set<Row>>, s: string, m: Row): map<string, set<Row>> {
    table[s := (if s in table then table[s] else {}) + {m}]
  }

  method GroupBySurface(c: Canon, members: seq<Row>)
    returns (countries: map<string, set<Row>>, locations: map<string, set<Row>>)
    ensures countries == RowsBySurface(c, Elements(members), COUNTRY)
    ensures locations == RowsBySurface(c, Elements(members), LOCATION)
  {
    hide RowsBySurface, Surface;
    countries, locations := map[], map[];
    NoSurfaces(c, Elements(members[..0]));
    for i := 0 to |members|
      invariant countries == RowsBySurface(c, Elements(members[..i]), COUNTRY)
      invariant locations == RowsBySurface(c, Elements(members[..i]), LOCATION)
    {
      var m := members[i];
      ElementsAppend(members, i);
      AddToSurface(c, Elements(members[..i]), m, COUNTRY);
      AddToSurface(c, Elements(members[..i]), m, LOCATION);
      if MayBeHomonym(m) {
        if m.cls == COUNTRY {
          countries := AddRow(countries, Surface(c, m), m);
        } else {
          locations := AddRow(locations, Surface(c, m), m);
        }
      }
    }
    assert members[..|members|] == members;
  }

  lemma NoSurfaces(c: Canon, rows: set<Row>)
    requires rows == {}
    ensures forall cls :: RowsBySurface(c, rows, cls) == map[]
  {
  }

  lemma AddToSurface(c: Canon, rows: set<Row>, m: Row, cls: string)
    ensures RowsBySurface(c, rows + {m}, cls) ==
              if MayBeHomonym(m) && m.cls == cls then AddRow(RowsBySurface(c, rows, cls), Surface(c, m), m)
              else RowsBySurface(c, rows, cls)
  {
    hide RowsAt, RowsBySurface, MayBeHomonym, Surface;
    var before, after := RowsBySurface(c, rows, cls), RowsBySurface(c, rows + {m}, cls);
    forall s
      ensures s in before <==> RowsAt(c, rows, s, cls) != {}
      ensures s in after <==> RowsAt(c, rows + {m}, s, cls) != {}
      ensures s in before ==> before[s] == RowsAt(c, rows, s, cls)
      ensures s in after ==> after[s] == RowsAt(c, rows + {m}, s, cls)
      ensures RowsAt(c, rows + {m}, s, cls) ==
              if MayBeHomonym(m) && m.cls == cls && Surface(c, m) == s then RowsAt(c, rows, s, cls) + {m}
                  else RowsAt(c, rows, s, cls)
    {
      SurfaceListed(c, rows, s, cls);
      SurfaceListed(c, rows + {m}, s, cls);
      RowsAtStep(c, rows, m, s, cls);
    }
    var expected := if MayBeHomonym(m) && m.cls == cls then AddRow(before, Surface(c, m), m) else before;
    assert after.Keys == expected.Keys;
  }

  lemma RowsAtStep(c: Canon, rows: set<Row>, m: Row, s: string, cls: string)
    ensures RowsAt(c, rows + {m}, s, cls) ==
            if MayBeHomonym(m) && m.cls == cls && Surface(c, m) == s then RowsAt(c, rows, s, cls) + {m}
                else RowsAt(c, rows, s, cls)
  {
  }

  function ProtectedAt(c: Canon, rows: set<Row>, surfaces: set<string>): set<Row> {
    set m | m in ProtectedRows(c, rows) && Surface(c, m) in surfaces
  }

  function SharedAmong(c: Canon, rows: set<Row>, surfaces: set<string>): set<string> {
    set s | s in surfaces && SharedSurface(c, rows, s)
  }

  method InOrder(names: set<string>) returns (q: seq<string>)
    ensures SortedBy(TextLess, q) && Elements(q) == names
  {
    TextStrictTotal(names);
    q := Ascending(TextLess, names);
  }

  lemma AppendInOrder(surfaces: seq<string>, i: nat, shared: seq<string>)
    requires SortedBy(TextLess, surfaces) && i < |surfaces|
    requires SortedBy(TextLess, shared) && Elements(shared) <= Elements(surfaces[..i])
    ensures SortedBy(TextLess, shared + [surfaces[i]]) && Elements(shared + [surfaces[i]]) == Elements(shared)
            + {surfaces[i]}
  {
    forall k | 0 <= k < |shared| ensures TextLess(shared[k], surfaces[i]) {
      assert shared[k] in Elements(shared);
    }
    hide TextLess;
  }

  method ProtectRows(c: Canon, members: seq<Row>) returns (held: set<Row>, shared: seq<string>)
    ensures held == ProtectedRows(c, Elements(members))
    ensures Elements(shared) == SharedSurfaces(c, Elements(members)) && SortedBy(TextLess, shared)
  {
    hide *;
    var countries, locations := GroupBySurface(c, members);
    ghost var rows := Elements(members);
    var surfaces := InOrder(countries.Keys + locations.Keys);
    held, shared := {}, [];
    ProtectionStarts(c, rows, surfaces);
    for i := 0 to |surfaces|
      invariant Protected(c, rows, surfaces, i, held, shared)
    {
      var s := surfaces[i];
      ProtectionStep(c, rows, surfaces, i, held, shared);
      if s in countries && s in locations {
        held, shared := held + (countries[s] + locations[s]), shared + [s];
      }
    }
    ProtectionEnds(c, rows, surfaces, held, shared);
  }

  /** What is held and shared once the first `i` surfaces have been looked at. */
  ghost predicate Protected(c: Canon, rows: set<Row>, surfaces: seq<string>, i: nat, held: set<Row>,
                            shared: seq<string>) {
    && i <= |surfaces|
    && held == ProtectedAt(c, rows, Elements(surfaces[..i]))
    && Elements(shared) == SharedAmong(c, rows, Elements(surfaces[..i])) && SortedBy(TextLess, shared)
  }

  lemma ProtectionStarts(c: Canon, rows: set<Row>, surfaces: seq<string>)
    ensures Protected(c, rows, surfaces, 0, {}, [])
  {
    NoneProtected(c, rows, Elements(surfaces[..0]));
  }

  lemma ProtectionStep(c: Canon, rows: set<Row>, surfaces: seq<string>, i: nat, held: set<Row>, shared: seq<string>)
    requires Protected(c, rows, surfaces, i, held, shared) && i < |surfaces| && SortedBy(TextLess, surfaces)
    ensures var countries, locations := RowsBySurface(c, rows, COUNTRY), RowsBySurface(c, rows, LOCATION);
            var s := surfaces[i];
            if s in countries && s in locations then
              Protected(c, rows, surfaces, i + 1, held + (countries[s] + locations[s]), shared + [s])
            else
              Protected(c, rows, surfaces, i + 1, held, shared)
  {
    hide RowsBySurface, ProtectedAt, SharedSurface, TextLess;
    ElementsAppend(surfaces, i);
    ProtectedStep(c, rows, Elements(surfaces[..i]), surfaces[i]);
    AppendInOrder(surfaces, i, shared);
  }

  lemma ProtectionEnds(c: Canon, rows: set<Row>, surfaces: seq<string>, held: set<Row>, shared: seq<string>)
    requires Protected(c, rows, surfaces, |surfaces|, held, shared)
    requires Elements(surfaces) == RowsBySurface(c, rows, COUNTRY).Keys + RowsBySurface(c, rows, LOCATION).Keys
    ensures held == ProtectedRows(c, rows) && Elements(shared) == SharedSurfaces(c, rows) && SortedBy(TextLess, shared)
  {
    hide RowsBySurface, ProtectedAt, SharedAmong, ProtectedRows, SharedSurfaces, TextLess;
    assert surfaces[..|surfaces|] == surfaces;
    SurfacesCovered(c, rows);
  }

  lemma NoneProtected(c: Canon, rows: set<Row>, surfaces: set<string>)
    requires surfaces == {}
    ensures ProtectedAt(c, rows, surfaces) == {} && SharedAmong(c, rows, surfaces) == {}
  {
  }

  lemma ProtectedStep(c: Canon, rows: set<Row>, surfaces: set<string>, s: string)
    ensures var countries, locations := RowsBySurface(c, rows, COUNTRY), RowsBySurface(c, rows, LOCATION);
            if s in countries && s in locations then
              && ProtectedAt(c, rows, surfaces + {s}) == ProtectedAt(c, rows, surfaces) + (countries[s] + locations[s])
              && SharedAmong(c, rows, surfaces + {s}) == SharedAmong(c, rows, surfaces) + {s}
            else
              && ProtectedAt(c, rows, surfaces + {s}) == ProtectedAt(c, rows, surfaces)
              && SharedAmong(c, rows, surfaces + {s}) == SharedAmong(c, rows, surfaces)
  {
    SurfaceListed(c, rows, s, COUNTRY);
    SurfaceListed(c, rows, s, LOCATION);
  }

  lemma SurfaceListed(c: Canon, rows: set<Row>, s: string, cls: string)
    ensures s in RowsBySurface(c, rows, cls) <==> RowsAt(c, rows, s, cls) != {}
    ensures s in RowsBySurface(c, rows, cls) ==> RowsBySurface(c, rows, cls)[s] == RowsAt(c, rows, s, cls)
  {
    if RowsAt(c, rows, s, cls) != {} {
      var m :| m in RowsAt(c, rows, s, cls);
      assert Surface(c, m) == s;
    }
    if s in RowsBySurface(c, rows, cls) {
      var m :| m in rows && MayBeHomonym(m) && m.cls == cls && Surface(c, m) == s;
      assert m in RowsAt(c, rows, s, cls);
    }
  }

  lemma SurfacesCovered(c: Canon, rows: set<Row>)
    ensures var surfaces := RowsBySurface(c, rows, COUNTRY).Keys + RowsBySurface(c, rows, LOCATION).Keys;
            ProtectedAt(c, rows, surfaces) == ProtectedRows(c, rows) && SharedAmong(c, rows, surfaces) ==
                SharedSurfaces(c, rows)
  {
    forall s | SharedSurface(c, rows, s) ensures s in SharedSurfaces(c, rows) && s in RowsBySurface(c, rows, COUNTRY) {
      SurfaceListed(c, rows, s, COUNTRY);
      var m :| m in RowsAt(c, rows, s, COUNTRY);
      assert m in ProtectedRows(c, rows) && Surface(c, m) == s;
    }
  }

  // The bare-token homonym test.

  predicate LargerTotal(totals: map<string, int>, x: string, y: string) {
    x in totals && y in totals && (totals[x] > totals[y] || (totals[x] == totals[y] && TextLess(x, y)))
  }

  function ByTotal(totals: map<string, int>): (string, string) -> bool {
    (x, y) => LargerTotal(totals, x, y)
  }

  lemma ByTotalIsTotal(totals: map<string, int>)
    ensures StrictTotalOn(ByTotal(totals), totals.Keys)
  {
    TextStrictTotal(totals.Keys);
  }

  ghost predicate Totals(totals: map<string, int>, rows: set<Row>) {
    totals.Keys == Classes(rows) && forall k | k in totals :: totals[k] == ClassLinks(rows, k)
  }

  lemma TotalsStep(totals: map<string, int>, rows: set<Row>, m: Row)
    requires Totals(totals, rows) && m !in rows
    ensures Totals(totals[m.cls := (if m.cls in totals then totals[m.cls] else 0) + m.links], rows + {m})
  {
    assert Classes(rows + {m}) == Classes(rows) + {m.cls};
    assert OfClass(rows + {m}, m.cls) == OfClass(rows, m.cls) + {m};
    SumLinksAdd(OfClass(rows, m.cls), m);
    if m.cls !in totals {
      assert OfClass(rows, m.cls) == {};
    }
    forall k | k != m.cls ensures OfClass(rows + {m}, k) == OfClass(rows, k) {
    }
  }

  function OfClasses(rows: set<Row>, classes: set<string>): set<Row> {
    set m | m in rows && m.cls in classes
  }

  lemma ClassSumStep(rows: set<Row>, classes: set<string>, k: string)
    requires k !in classes
    ensures SumLinks(OfClasses(rows, classes + {k})) == SumLinks(OfClasses(rows, classes)) + ClassLinks(rows, k)
  {
    assert OfClasses(rows, classes + {k}) == OfClasses(rows, classes) + OfClass(rows, k);
    SumLinksUnion(OfClasses(rows, classes), OfClass(rows, k));
  }

  /** The two largest totals decide the balance test, whatever order equal totals come in. */
  lemma TopTwo(totals: map<string, int>, rows: set<Row>, cs: seq<string>)
    requires Totals(totals, rows) && |cs| >= 2
    requires SortedBy(ByTotal(totals), cs) && Elements(cs) == totals.Keys
    ensures (exists a, b :: BalancedPair(rows, a, b)) <==> totals[cs[0]] > 0 && 2 * totals[cs[1]] >= totals[cs[0]]
  {
    var p, q := cs[0], cs[1];
    assert p in Elements(cs) && q in Elements(cs);
    ByTotalIsTotal(totals);
    assert ByTotal(totals)(p, q);
    forall k | k in totals ensures totals[k] <= totals[p] && (k != p ==> totals[k] <= totals[q]) {
      assert k in Elements(cs);
      var i :| 0 <= i < |cs| && cs[i] == k;
      assert i == 0 || i == 1 || ByTotal(totals)(q, k);
    }
    if totals[p] > 0 && 2 * totals[q] >= totals[p] {
      assert BalancedPair(rows, p, q);
    }
    if a, b :| BalancedPair(rows, a, b) {
      assert totals[a] == totals[p];
    }
  }

  method CheckHomonym(c: Canon, survivorName: string, cc: string, members: seq<Row>) returns (b: bool)
    requires NoRepeats(members)
    ensures b == ManualHomonym(c, survivorName, cc, Elements(members))
  {
    hide SumLinks, OfClass, Classes, BalancedPair, OfClasses, ClassLinks, LargerTotal, StrictTotalOn;
    if cc != DEFAULT_CLASS || c.strip(survivorName) == "" || ' ' in c.strip(survivorName) {
      return false;
    }
    var totals: map<string, int> := map[];
    NoTotals(Elements(members[..0]));
    for i := 0 to |members|
      invariant Totals(totals, Elements(members[..i]))
    {
      var m := members[i];
      ElementsAppend(members, i);
      TotalsStep(totals, Elements(members[..i]), m);
      totals := totals[m.cls := (if m.cls in totals then totals[m.cls] else 0) + m.links];
    }
    ghost var rows := Elements(members);
    assert members[..|members|] == members;
    if |totals| < 2 {
      return false;
    }
    ByTotalIsTotal(totals);
    var cs := Ascending(ByTotal(totals), totals.Keys);
    SortedIsNoRepeats(ByTotal(totals), cs);
    var sum := 0;
    NoClasses(rows, Elements(cs[..0]));
    for i := 0 to |cs|
      invariant sum == SumLinks(OfClasses(rows, Elements(cs[..i])))
    {
      ElementsAppend(cs, i);
      assert cs[i] in Elements(cs);
      ClassSumStep(rows, Elements(cs[..i]), cs[i]);
      sum := sum + totals[cs[i]];
    }
    assert cs[..|cs|] == cs;
    AllClasses(rows);
    assert sum == SumLinks(rows);
    TopTwo(totals, rows, cs);
    assert cs[0] in Elements(cs) && cs[1] in Elements(cs);
    b := sum > HOMONYM_MIN_TOTAL_LINKS && totals[cs[0]] > 0 && 2 * totals[cs[1]] >= totals[cs[0]];
  }

  lemma NoTotals(rows: set<Row>)
    requires rows == {}
    ensures Totals(map[], rows)
  {
  }

  lemma NoLinks()
    ensures SumLinks({}) == 0
  {
  }

  lemma NoClasses(rows: set<Row>, classes: set<string>)
    requires classes == {}
    ensures SumLinks(OfClasses(rows, classes)) == 0
  {
    assert OfClasses(rows, classes) == {};
  }

  lemma AllClasses(rows: set<Row>)
    ensures OfClasses(rows, Classes(rows)) == rows
  {
  }

  // Elections over lists.

  lemma WhereIsDistinct(members: seq<Row>, p: Row -> bool)
    requires DistinctRows(members)
    ensures DistinctRows(Where(members, p)) && Elements(Where(members, p)) <= Elements(members)
    ensures Elements(Where(members, p)) == set m | m in members && p(m)
  {
    DistinctRowsAreDistinct(members);
    WhereSpec(members, p);
    var r := Where(members, p);
    forall i, j | 0 <= i < j < |r| ensures r[i].id != r[j].id {
      assert r[i] in Elements(r) && r[j] in Elements(r) && r[i] in Elements(members) && r[j] in Elements(members);
    }
  }

  /** `_elect_survivor`. */
  method Elect(members: seq<Row>) returns (s: Row)
    requires members != [] && DistinctRows(members)
    ensures DistinctIds(Elements(members)) && s in Elements(members) && s == ElectSurvivor(Elements(members))
  {
    DistinctRowsAreDistinct(members);
    ElectedIsTotal(Elements(members));
    s := MinBy(Elected, members);
  }

  /** `_survivor_class`. */
  method ElectClass(c: Canon, survivorName: string, survivor: Row, mergeable: seq<Row>, slots: set<(string, string)>)
    returns (cls: string)
    requires DistinctRows(mergeable)
    ensures DistinctIds(Elements(mergeable))
    ensures cls == SurvivorClass(c, survivorName, survivor, Elements(mergeable), slots)
  {
    DistinctRowsAreDistinct(mergeable);
    cls := c.classOf(survivorName);
    if cls == DEFAULT_CLASS {
      cls := survivor.cls;
      var seeds := Where(mergeable, (m: Row) => m.source == SEED);
      WhereIsDistinct(mergeable, (m: Row) => m.source == SEED);
      assert Elements(seeds) == Seeds(Elements(mergeable));
      NoElements(seeds);
      if seeds != [] {
        ElectedIsTotal(Elements(seeds));
        var seed := MinBy(Elected, seeds);
        cls := seed.cls;
      }
    }
    if cls != survivor.cls && (c.lower(c.strip(survivorName)), cls) in slots {
      cls := survivor.cls;
    }
  }

  /** `_pick_geo_donor`. */
  method PickDonor(c: Canon, expected: Option<string>, losers: seq<Row>) returns (d: Option<Row>)
    requires DistinctRows(losers)
    ensures DistinctIds(Elements(losers)) && d == PickGeoDonor(c, expected, Elements(losers))
  {
    DistinctRowsAreDistinct(losers);
    if expected.None? {
      return None;
    }
    var fits := (m: Row) => m.geo.lat.Some? && m.geo.lon.Some? && c.countryCode(m.geo.country) == Some(expected.value);
    var cands := Where(losers, fits);
    WhereIsDistinct(losers, fits);
    assert Elements(cands) == GeoCandidates(c, expected.value, Elements(losers));
    NoElements(cands);
    if cands == [] {
      return None;
    }
    SmallerIdIsTotal(Elements(cands));
    var m := MinBy(SmallerId, cands);
    d := Some(m);
  }

  method FillGeo(c: Canon, survivorName: string, survivor: Row, losers: seq<Row>) returns (geo: Option<Geo>)
    requires DistinctRows(losers)
    ensures DistinctIds(Elements(losers)) && geo == GeoFill(c, survivorName, survivor, Elements(losers))
  {
    var expected := c.nameCountry(survivorName);
    var donor := PickDonor(c, expected, losers);
    geo := None;
    if donor.Some? && FillsGeo(survivor.geo, donor.value.geo) {
      geo := Some(donor.value.geo.(country := expected));
    }
  }

  // One cluster.

  /** What the planner does with a cluster, with the lists it holds at that point. */
  datatype Ruling =
    | Leave
    | Discard(rows: seq<Row>, fromSurvivor: bool)
    | Defer(survivorName: string, rows: seq<Row>)
    | Merge(survivor: Row, name: string, cls: string, losers: seq<Row>, geo: Option<Geo>)

  function Meaning(r: Ruling): Outcome {
    match r
    case Leave => Untouched
    case Discard(rows, fromSurvivor) => Junked(Elements(rows), fromSurvivor)
    case Defer(name, rows) => HeldForReview(name, Elements(rows))
    case Merge(survivor, name, cls, losers, geo) => Merged(survivor, name, cls, Elements(losers), geo)
  }

  predicate Distinct(r: Ruling) {
    match r
    case Leave => true
    case Discard(rows, _) => DistinctRows(rows)
    case Defer(_, rows) => DistinctRows(rows)
    case Merge(_, _, _, losers, _) => DistinctRows(losers)
  }

  lemma ElementsSize<T>(q: seq<T>)
    requires NoRepeats(q)
    ensures |Elements(q)| == |q|
  {
    NoRepeatsSize(q);
  }

  lemma OnlyMember(rows: set<Row>, m: Row)
    requires m in rows && |rows| == 1
    ensures rows == {m}
  {
    assert |rows - {m}| == 0;
  }

  lemma AllMembers(members: seq<Row>, p: Row -> bool)
    ensures (forall i | 0 <= i < |members| :: p(members[i])) <==> forall m | m in Elements(members) :: p(m)
  {
    assert forall i | 0 <= i < |members| :: members[i] in Elements(members);
  }

  lemma FewDecided(c: Canon, mergeable: seq<Row>, slots: set<(string, string)>)
    requires DistinctRows(mergeable) && |mergeable| < 2
    ensures DistinctIds(Elements(mergeable))
    ensures DecideMergeable(c, Elements(mergeable), slots) ==
            if |mergeable| == 1 && IsContentJunk(c, mergeable[0].name) then Junked(Elements(mergeable), false)
                else Untouched
  {
    DistinctRowsAreDistinct(mergeable);
    ElementsSize(mergeable);
    if |mergeable| == 1 {
      OnlyMember(Elements(mergeable), mergeable[0]);
    }
    hide IsContentJunk;
  }

  lemma ManyDecided(c: Canon, mergeable: seq<Row>, slots: set<(string, string)>)
    requires DistinctRows(mergeable) && |mergeable| >= 2
    ensures var rows := Elements(mergeable);
            && DistinctIds(rows) && rows != {}
            && var s := ElectSurvivor(rows);
               var name := SurvivorName(c, s);
               DecideMergeable(c, rows, slots) ==
               if AllContentJunk(c, mergeable) then Junked(rows, false)
               else if SurvivorIsJunk(c, name) then Junked(rows, true)
               else if ManualHomonym(c, name, c.classOf(name), rows) then HeldForReview(name, rows)
               else Merged(s, name, SurvivorClass(c, name, s, rows, slots), rows - {s}, GeoFill(c, name, s, rows - {s}))
  {
    DistinctRowsAreDistinct(mergeable);
    ElementsSize(mergeable);
    AllMembers(mergeable, (m: Row) => IsContentJunk(c, m.name));
    hide ManualHomonym, SurvivorClass, SurvivorName, SurvivorIsJunk, GeoFill, IsContentJunk;
  }

  lemma DiscardedOrDeferred(q: seq<Row>)
    requires DistinctRows(q)
    ensures Distinct(Leave) && Meaning(Leave) == Untouched
    ensures forall b :: Distinct(Discard(q, b)) && Meaning(Discard(q, b)) == Junked(Elements(q), b)
    ensures forall n :: Distinct(Defer(n, q)) && Meaning(Defer(n, q)) == HeldForReview(n, Elements(q))
  {
  }

  predicate AllContentJunk(c: Canon, members: seq<Row>) {
    forall i | 0 <= i < |members| :: IsContentJunk(c, members[i].name)
  }

  method DecideRest(c: Canon, mergeable: seq<Row>, slots: set<(string, string)>) returns (r: Ruling)
    requires DistinctRows(mergeable) && DistinctIds(Elements(mergeable)) && NoRepeats(mergeable)
    ensures Distinct(r) && Meaning(r) == DecideMergeable(c, Elements(mergeable), slots)
  {
    hide *;
    DiscardedOrDeferred(mergeable);
    if |mergeable| < 2 {
      FewDecided(c, mergeable, slots);
      return if |mergeable| == 1 && IsContentJunk(c, mergeable[0].name) then Discard(mergeable, false) else Leave;
    }
    ManyDecided(c, mergeable, slots);
    if AllContentJunk(c, mergeable) {
      return Discard(mergeable, false);
    }
    var survivor := Elect(mergeable);
    var name := SurvivorName(c, survivor);
    if SurvivorIsJunk(c, name) {
      return Discard(mergeable, true);
    }
    var ambiguous := CheckHomonym(c, name, c.classOf(name), mergeable);
    if ambiguous {
      return Defer(name, mergeable);
    }
    r := MergeRest(c, mergeable, survivor, name, slots);
  }

  method MergeRest(c: Canon, mergeable: seq<Row>, survivor: Row, name: string, slots: set<(string, string)>)
    returns (r: Ruling)
    requires DistinctRows(mergeable) && survivor in Elements(mergeable)
    ensures DistinctIds(Elements(mergeable)) && DistinctIds(Elements(mergeable) - {survivor}) && Distinct(r)
    ensures var losers := Elements(mergeable) - {survivor};
            Meaning(r) == Merged(survivor, name, SurvivorClass(c, name, survivor, Elements(mergeable), slots), losers,
                                 GeoFill(c, name, survivor, losers))
  {
    hide SurvivorClass, GeoFill;
    var cls := ElectClass(c, name, survivor, mergeable, slots);
    var losers := Where(mergeable, (m: Row) => m.id != survivor.id);
    OthersAreLosers(mergeable, survivor);
    var geo := FillGeo(c, name, survivor, losers);
    r := Merge(survivor, name, cls, losers, geo);
  }

  lemma OthersAreLosers(members: seq<Row>, survivor: Row)
    requires DistinctRows(members) && survivor in Elements(members)
    ensures var losers := Where(members, (m: Row) => m.id != survivor.id);
            DistinctRows(losers) && Elements(losers) == Elements(members) - {survivor}
  {
    DistinctRowsAreDistinct(members);
    WhereIsDistinct(members, (m: Row) => m.id != survivor.id);
  }

  /** Homonyms held back, as the plan reports them: the shared surfaces and the rows, the best-linked first. */
  datatype GeoEntry = GeoEntry(shared: seq<string>, rows: seq<Row>)

  /** Most links first, then smallest id. */
  predicate MoreLinks(a: Row, b: Row) {
    if a.links != b.links then a.links > b.links else TextLess(a.id, b.id)
  }

  lemma MoreLinksIsTotal(rows: set<Row>)
    requires DistinctIds(rows)
    ensures StrictTotalOn(MoreLinks, rows)
  {
    forall x, y | x in rows && y in rows ensures !MoreLinks(x, x) && (x != y ==> MoreLinks(x, y) || MoreLinks(y, x)) {
      TextTrichotomy(x.id, y.id);
    }
    forall x, y, z | MoreLinks(x, y) && MoreLinks(y, z) ensures MoreLinks(x, z) {
      TextStrictTotal({x.id, y.id, z.id});
    }
  }

  /** The list shows the rows best-linked first. */
  ghost predicate ShowsRows(q: seq<Row>, rows: set<Row>) {
    Elements(q) == rows && DistinctIds(rows) && SortedBy(MoreLinks, q)
  }

  lemma RowsShownOnce(p: seq<Row>, q: seq<Row>, rows: set<Row>)
    requires ShowsRows(p, rows) && ShowsRows(q, rows)
    ensures p == q
  {
    MoreLinksIsTotal(rows);
    SortedUnique(MoreLinks, p, q);
  }

  method ShowRows(rows: seq<Row>) returns (q: seq<Row>)
    requires DistinctRows(rows)
    ensures ShowsRows(q, Elements(rows))
  {
    DistinctRowsAreDistinct(rows);
    MoreLinksIsTotal(Elements(rows));
    q := SortBy(MoreLinks, rows);
  }

  ghost predicate ShowsGeo(e: GeoEntry, h: GeoHold) {
    Elements(e.shared) == h.shared && SortedBy(TextLess, e.shared) && ShowsRows(e.rows, h.rows)
  }

  ghost predicate ShowsHold(e: Option<GeoEntry>, h: Option<GeoHold>) {
    (e.Some? <==> h.Some?) && (e.Some? ==> ShowsGeo(e.value, h.value))
  }

  method DecideCluster(c: Canon, members: seq<Row>) returns (r: Ruling, hold: Option<GeoEntry>)
    requires members != [] && DistinctRows(members)
    ensures DistinctIds(Elements(members)) && Elements(members) != {}
    ensures Distinct(r) && Meaning(r) == Decide(c, Elements(members))
    ensures ShowsHold(hold, GeoHoldIn(c, Elements(members)))
  {
    DistinctRowsAreDistinct(members);
    NoElements(members);
    hide ProtectedRows, SharedSurfaces, DecideMergeable, ProtectedSlots, IsContentJunk, DistinctRows, NoRepeats,
        ShowsRows,
      Decide, GeoHoldIn, Mergeable;
    hold := None;
    if |members| == 1 {
      OneDecided(c, members);
      return if IsContentJunk(c, members[0].name) then Discard(members, false) else Leave, None;
    }
    SeveralDecided(c, members);
    var held, shared := ProtectRows(c, members);
    if held != {} {
      var rows := ShowHeld(members, held);
      hold := Some(GeoEntry(shared, rows));
    }
    var mergeable := Where(members, (m: Row) => m !in held);
    MergeableListed(c, members, held);
    r := DecideRest(c, mergeable, ProtectedSlots(c, Elements(members)));
  }

  lemma OneDecided(c: Canon, members: seq<Row>)
    requires DistinctRows(members) && |members| == 1
    ensures DistinctIds(Elements(members)) && Elements(members) != {} && Elements(members) == {members[0]}
    ensures GeoHoldIn(c, Elements(members)) == None
    ensures Decide(c, Elements(members)) ==
            if IsContentJunk(c, members[0].name) then Junked(Elements(members), false) else Untouched
  {
    DistinctRowsAreDistinct(members);
    NoElements(members);
    ElementsSize(members);
    OnlyMember(Elements(members), members[0]);
    hide ProtectedRows, SharedSurfaces, IsContentJunk;
  }

  lemma SeveralDecided(c: Canon, members: seq<Row>)
    requires DistinctRows(members) && |members| > 1
    ensures var rows := Elements(members);
            && DistinctIds(rows) && rows != {} && DistinctIds(Mergeable(c, rows))
            && Decide(c, rows) == DecideMergeable(c, Mergeable(c, rows), ProtectedSlots(c, rows))
            && GeoHoldIn(c, rows) == (if ProtectedRows(c, rows) == {} then None
                                      else Some(GeoHold(SharedSurfaces(c, rows), ProtectedRows(c, rows))))
            && ProtectedRows(c, rows) <= rows
  {
    DistinctRowsAreDistinct(members);
    NoElements(members);
    ElementsSize(members);
    hide SharedSurfaces, IsContentJunk, DecideMergeable, ProtectedSlots, SharedSurface;
  }

  lemma MergeableListed(c: Canon, members: seq<Row>, held: set<Row>)
    requires DistinctRows(members) && held == ProtectedRows(c, Elements(members))
    ensures var mergeable := Where(members, (m: Row) => m !in held);
            && DistinctRows(mergeable) && Elements(mergeable) == Mergeable(c, Elements(members))
            && DistinctIds(Elements(mergeable)) && NoRepeats(mergeable)
  {
    WhereIsDistinct(members, (m: Row) => m !in held);
    DistinctRowsAreDistinct(Where(members, (m: Row) => m !in held));
    hide ProtectedRows;
  }

  method ShowHeld(members: seq<Row>, held: set<Row>) returns (rows: seq<Row>)
    requires DistinctRows(members) && held <= Elements(members)
    ensures ShowsRows(rows, held)
  {
    rows := Where(members, (m: Row) => m in held);
    WhereIsDistinct(members, (m: Row) => m in held);
    assert Elements(rows) == held;
    rows := ShowRows(rows);
  }
}
