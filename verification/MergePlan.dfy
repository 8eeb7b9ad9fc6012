/** The entity-merge plan: which rows survive, lose, are junk, or are held, decided cluster by cluster. */
module MergePlan {
  import opened Ordering

  datatype Geo = Geo(lat: Option<real>, lon: Option<real>, country: Option<string>, region: Option<string>,
                     completeness: Option<real>)

  datatype Row = Row(id: string, name: string, cls: string, source: string, createdAt: string, links: int, geo: Geo)

  /** The name canon and the text helpers, as the plan sees them. `display` and `classOf` are the two results
      of canonicalizing a name under the default class. */
  datatype Canon = Canon(fold: string -> string, display: string -> string, classOf: string -> string,
                         isJunk: string -> bool, stripName: string -> string, stripArticle: string -> string,
                         strip: string -> string, lower: string -> string,
                         nameCountry: string -> Option<string>, countryCode: Option<string> -> Option<string>)

  const DEFAULT_CLASS := "entity"
  const COUNTRY := "country"
  const LOCATION := "location"
  const SEED := "seed"
  const SINGLETON := "__singleton__"

  const AMBIGUITY_MIN_LINKS := 3
  const HOMONYM_MIN_TOTAL_LINKS := 50

  predicate DistinctIds(rows: set<Row>) {
    forall a, b | a in rows && b in rows && a.id == b.id :: a == b
  }

  predicate SameUpToCase(c: Canon, a: string, b: string) {
    c.lower(a) == c.lower(b)
  }

  // Name tests.

  predicate HasMarkup(name: string) {
    '<' in name || '>' in name
  }

  predicate IsContentJunk(c: Canon, name: string) {
    c.isJunk(name) && (HasMarkup(name) || |c.stripName(name)| > 2)
  }

  predicate JunkProbe(c: Canon, probe: string) {
    probe != "" && !HasMarkup(probe) && |c.stripName(probe)| > 2 && c.isJunk(probe)
  }

  predicate SurvivorIsJunk(c: Canon, survivorName: string) {
    var cand := c.strip(survivorName);
    cand != "" && (JunkProbe(c, cand) || JunkProbe(c, c.stripArticle(cand)))
  }

  function SurvivorName(c: Canon, survivor: Row): string {
    var shown := c.strip(c.display(survivor.name));
    if shown == "" || c.isJunk(shown) then
      if c.stripName(survivor.name) != "" then c.stripName(survivor.name) else survivor.name
    else shown
  }

  // Orders.

  /** Most links, then oldest, then smallest id. */
  predicate Elected(a: Row, b: Row) {
    if a.links != b.links then a.links > b.links
    else if a.createdAt != b.createdAt then TextLess(a.createdAt, b.createdAt)
    else TextLess(a.id, b.id)
  }

  lemma ElectedIsTotal(rows: set<Row>)
    requires DistinctIds(rows)
    ensures StrictTotalOn(Elected, rows)
  {
    forall x, y | x in rows && y in rows ensures !Elected(x, x) && (x != y ==> Elected(x, y) || Elected(y, x)) {
      TextTrichotomy(x.createdAt, y.createdAt);
      TextTrichotomy(x.id, y.id);
    }
    forall x, y, z | Elected(x, y) && Elected(y, z) ensures Elected(x, z) {
      TextStrictTotal({x.createdAt, y.createdAt, z.createdAt});
      TextStrictTotal({x.id, y.id, z.id});
    }
  }

  predicate SmallerId(a: Row, b: Row) {
    TextLess(a.id, b.id)
  }

  lemma SmallerIdIsTotal(rows: set<Row>)
    requires DistinctIds(rows)
    ensures StrictTotalOn(SmallerId, rows)
  {
    forall x, y | x in rows && y in rows ensures !SmallerId(x, x) && (x != y ==> SmallerId(x, y) || SmallerId(y, x)) {
      TextTrichotomy(x.id, y.id);
    }
    forall x, y, z | SmallerId(x, y) && SmallerId(y, z) ensures SmallerId(x, z) {
      TextTransitive(x.id, y.id, z.id);
    }
  }

  function ElectSurvivor(members: set<Row>): (s: Row)
    requires members != {} && DistinctIds(members)
    ensures s in members && forall m | m in members :: m.links <= s.links
  {
    ElectedIsTotal(members);
    Least(Elected, members)
  }

  /** Most links, then oldest, then smallest id: every other row loses to the survivor on the first of
      the three they differ in. */
  lemma SurvivorBeatsAll(members: set<Row>, m: Row)
    requires DistinctIds(members) && m in members
    ensures var s := ElectSurvivor(members);
            || m == s
            || m.links < s.links
            || (m.links == s.links && TextLess(s.createdAt, m.createdAt))
            || (m.links == s.links && s.createdAt == m.createdAt && TextLess(s.id, m.id))
  {
    ElectedIsTotal(members);
  }

  // Country/location homonyms.

  function Surface(c: Canon, m: Row): string {
    c.lower(c.strip(m.name))
  }

  predicate MayBeHomonym(m: Row) {
    (m.cls == COUNTRY || m.cls == LOCATION) && m.links >= AMBIGUITY_MIN_LINKS
  }

  function RowsAt(c: Canon, members: set<Row>, surface: string, cls: string): set<Row> {
    set m | m in members && MayBeHomonym(m) && Surface(c, m) == surface && m.cls == cls
  }

  predicate SharedSurface(c: Canon, members: set<Row>, surface: string) {
    RowsAt(c, members, surface, COUNTRY) != {} && RowsAt(c, members, surface, LOCATION) != {}
  }

  function ProtectedRows(c: Canon, members: set<Row>): set<Row> {
    set m | m in members && MayBeHomonym(m) && SharedSurface(c, members, Surface(c, m))
  }

  function SharedSurfaces(c: Canon, members: set<Row>): set<string> {
    set m | m in ProtectedRows(c, members) :: Surface(c, m)
  }

  function ProtectedSlots(c: Canon, members: set<Row>): set<(string, string)> {
    set m | m in ProtectedRows(c, members) :: (Surface(c, m), m.cls)
  }

  function Mergeable(c: Canon, members: set<Row>): set<Row> {
    members - ProtectedRows(c, members)
  }

  // Class totals and the bare-token homonym test.

  ghost function SumLinks(rows: set<Row>): int {
    if rows == {} then 0 else
    var m :| m in rows;
    m.links + SumLinks(rows - {m})
  }

  lemma {:induction false} SumLinksAdd(rows: set<Row>, m: Row)
    requires m !in rows
    ensures SumLinks(rows + {m}) == SumLinks(rows) + m.links
    decreases |rows|
  {
    var all := rows + {m};
    var p :| p in all && SumLinks(all) == p.links + SumLinks(all - {p});
    if p == m {
      assert all - {m} == rows;
    } else {
      var rest := rows - {p};
      assert all - {p} == rest + {m};
      SumLinksAdd(rest, m);
      assert rest + {p} == rows;
      SumLinksAdd(rest, p);
    }
  }

  function OfClass(rows: set<Row>, cls: string): set<Row> {
    set m | m in rows && m.cls == cls
  }

  ghost function ClassLinks(rows: set<Row>, cls: string): int {
    SumLinks(OfClass(rows, cls))
  }

  function Classes(rows: set<Row>): set<string> {
    set m | m in rows :: m.cls
  }

  /** The two largest class totals are `ClassLinks(a)` and `ClassLinks(b)`, and the second is at least half
      of the first. */
  ghost predicate BalancedPair(rows: set<Row>, a: string, b: string) {
    && a in Classes(rows) && b in Classes(rows) && a != b
    && (forall k | k in Classes(rows) :: ClassLinks(rows, k) <= ClassLinks(rows, a))
    && (forall k | k in Classes(rows) && k != a :: ClassLinks(rows, k) <= ClassLinks(rows, b))
    && ClassLinks(rows, a) > 0
    && 2 * ClassLinks(rows, b) >= ClassLinks(rows, a)
  }

  ghost predicate ManualHomonym(c: Canon, survivorName: string, cc: string, rows: set<Row>) {
    && cc == DEFAULT_CLASS
    && c.strip(survivorName) != "" && ' ' !in c.strip(survivorName)
    && |Classes(rows)| >= 2
    && SumLinks(rows) > HOMONYM_MIN_TOTAL_LINKS
    && exists a, b :: BalancedPair(rows, a, b)
  }

  // Class and geo of the survivor.

  function Seeds(rows: set<Row>): set<Row> {
    set m | m in rows && m.source == SEED
  }

  function SurvivorClass(c: Canon, survivorName: string, survivor: Row, rows: set<Row>,
                         slots: set<(string, string)>): string
    requires DistinctIds(rows)
  {
    var cc := c.classOf(survivorName);
    var cls := if cc != DEFAULT_CLASS then cc
               else if Seeds(rows) != {} then (ElectedIsTotal(Seeds(rows)); Least(Elected, Seeds(rows)).cls)
               else survivor.cls;
    if cls != survivor.cls && (c.lower(c.strip(survivorName)), cls) in slots then survivor.cls else cls
  }

  /** The elected class: what the canon settles, else a seed's, else the survivor's own; and never one
      that would move the survivor into a slot a protected row holds. */
  lemma SurvivorClassSpec(c: Canon, survivorName: string, survivor: Row, rows: set<Row>, slots: set<(string, string)>)
    requires DistinctIds(rows)
    ensures var cls, cc := SurvivorClass(c, survivorName, survivor, rows, slots), c.classOf(survivorName);
            && (cls != survivor.cls ==> (c.lower(c.strip(survivorName)), cls) !in slots)
            && (cc != DEFAULT_CLASS ==> cls == cc || cls == survivor.cls)
            && (cc == DEFAULT_CLASS && Seeds(rows) == {} ==> cls == survivor.cls)
            && (cc == DEFAULT_CLASS && cls != survivor.cls ==>
                  exists m | m in Seeds(rows) :: m.cls == cls && forall n | n in Seeds(rows) :: n.links <= m.links)
            && (cc != DEFAULT_CLASS && (c.lower(c.strip(survivorName)), cc) !in slots ==> cls == cc)
  {
    if c.classOf(survivorName) == DEFAULT_CLASS && Seeds(rows) != {} {
      ElectedIsTotal(Seeds(rows));
      var m := Least(Elected, Seeds(rows));
      assert m in Seeds(rows) && forall n | n in Seeds(rows) :: n.links <= m.links;
    }
  }

  function GeoCandidates(c: Canon, expected: string, losers: set<Row>): set<Row> {
    set m | m in losers && m.geo.lat.Some? && m.geo.lon.Some? && c.countryCode(m.geo.country) == Some(expected)
  }

  function PickGeoDonor(c: Canon, expected: Option<string>, losers: set<Row>): (d: Option<Row>)
    requires DistinctIds(losers)
    ensures d.Some? ==> d.value in losers && d.value.geo.lat.Some? && d.value.geo.lon.Some? && expected.Some?
                        && c.countryCode(d.value.geo.country) == expected
  {
    if expected.None? || GeoCandidates(c, expected.value, losers) == {} then None
    else
      SmallerIdIsTotal(GeoCandidates(c, expected.value, losers));
      Some(Least(SmallerId, GeoCandidates(c, expected.value, losers)))
  }

  /** A donor is found exactly when the survivor's name denotes a country and some loser has both
      coordinates in it; of those losers the one with the smallest id is taken. */
  lemma GeoDonorSpec(c: Canon, expected: Option<string>, losers: set<Row>)
    requires DistinctIds(losers)
    ensures var d := PickGeoDonor(c, expected, losers);
            && (d.None? <==> expected.None? || GeoCandidates(c, expected.value, losers) == {})
            && (d.Some? ==> forall m | m in GeoCandidates(c, expected.value, losers) && m != d.value ::
                              TextLess(d.value.id, m.id))
  {
    if expected.Some? {
      SmallerIdIsTotal(GeoCandidates(c, expected.value, losers));
    }
  }

  predicate FillsGeo(survivor: Geo, donor: Geo) {
    || (survivor.lat.None? && survivor.lon.None? && donor.lat.Some? && donor.lon.Some?)
    || survivor.country.None?
    || (survivor.region.None? && donor.region.Some? && donor.region.value != "")
  }

  /** The frozen geo row: the donor's coordinates under the country the survivor's own name denotes. */
  function GeoFill(c: Canon, survivorName: string, survivor: Row, losers: set<Row>): Option<Geo>
    requires DistinctIds(losers)
  {
    var expected := c.nameCountry(survivorName);
    var donor := PickGeoDonor(c, expected, losers);
    if donor.Some? && FillsGeo(survivor.geo, donor.value.geo) then Some(donor.value.geo.(country := expected)) else None
  }

  /** A frozen geo row never disagrees with the survivor's own name: its country is the one the name
      denotes, and its coordinates are both those of one loser in that country. */
  lemma GeoAgreesWithName(c: Canon, survivorName: string, survivor: Row, losers: set<Row>)
    requires DistinctIds(losers) && GeoFill(c, survivorName, survivor, losers).Some?
    ensures var g := GeoFill(c, survivorName, survivor, losers).value;
            && g.country.Some? && g.country == c.nameCountry(survivorName)
            && exists l | l in losers ::
                 l.geo.lat.Some? && l.geo.lon.Some? && (g.lat, g.lon) == (l.geo.lat, l.geo.lon)
                 && c.countryCode(l.geo.country) == g.country
  {
    var d := PickGeoDonor(c, c.nameCountry(survivorName), losers).value;
    assert d in losers && d.geo.lat.Some?;
  }

  // The decision for one cluster.

  datatype Outcome =
    | Untouched
    | Junked(rows: set<Row>, fromSurvivor: bool)
    | HeldForReview(survivorName: string, rows: set<Row>)
    | Merged(survivor: Row, name: string, cls: string, losers: set<Row>, geo: Option<Geo>)

  /** The decision over the mergeable rows of a cluster that has more than one row. */
  ghost function DecideMergeable(c: Canon, rows: set<Row>, slots: set<(string, string)>): Outcome
    requires DistinctIds(rows)
  {
    if |rows| == 0 then Untouched
    else if |rows| == 1 then
      if IsContentJunk(c, ElectSurvivor(rows).name) then Junked(rows, false) else Untouched
    else if forall m | m in rows :: IsContentJunk(c, m.name) then Junked(rows, false)
    else
      var survivor := ElectSurvivor(rows);
      var name := SurvivorName(c, survivor);
      if SurvivorIsJunk(c, name) then Junked(rows, true)
      else if ManualHomonym(c, name, c.classOf(name), rows) then HeldForReview(name, rows)
      else
        var losers := rows - {survivor};
        Merged(survivor, name, SurvivorClass(c, name, survivor, rows, slots), losers,
            GeoFill(c, name, survivor, losers))
  }

  ghost function Decide(c: Canon, members: set<Row>): Outcome
    requires members != {} && DistinctIds(members)
  {
    if |members| == 1 then
      var m := ElectSurvivor(members);
      if IsContentJunk(c, m.name) then Junked({m}, false) else Untouched
    else DecideMergeable(c, Mergeable(c, members), ProtectedSlots(c, members))
  }

  // Clusters.

  function ClusterKey(c: Canon, r: Row): string {
    if c.fold(r.name) != "" then c.fold(r.name) else SINGLETON + r.id
  }

  predicate Skipped(key: string) {
    SINGLETON <= key
  }

  function Cluster(c: Canon, rows: set<Row>, key: string): set<Row> {
    set r | r in rows && ClusterKey(c, r) == key
  }

  function ClusterKeys(c: Canon, rows: set<Row>): set<string> {
    set r | r in rows :: ClusterKey(c, r)
  }

  ghost function OutcomeFor(c: Canon, rows: set<Row>, key: string): Outcome
    requires DistinctIds(rows) && key in ClusterKeys(c, rows)
  {
    var members := Cluster(c, rows, key);
    assert exists r | r in rows :: ClusterKey(c, r) == key;
    assert members != {} by {
      var r :| r in rows && ClusterKey(c, r) == key;
      assert r in members;
    }
    if Skipped(key) then Untouched else Decide(c, members)
  }

  // The part each row plays.

  datatype Role = Stays | Protected | Held | Survivor | Loser | Junk

  ghost function RoleOf(c: Canon, rows: set<Row>, r: Row): Role
    requires DistinctIds(rows) && r in rows
  {
    var key := ClusterKey(c, r);
    if Skipped(key) then Stays
    else if |Cluster(c, rows, key)| > 1 && r in ProtectedRows(c, Cluster(c, rows, key)) then Protected
    else match OutcomeFor(c, rows, key)
      case Untouched => Stays
      case Junked(_, _) => Junk
      case HeldForReview(_, _) => Held
      case Merged(survivor, _, _, _, _) => if r == survivor then Survivor else Loser
  }
}
