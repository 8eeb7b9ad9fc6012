/** What the merge plan decides, told in the columns of the rows and the answers of the canon alone. */
module PlanMeaning {
  import opened Ordering
  import opened ListOrder
  import opened MergePlan
  import opened MergeDraft
  import opened BuildPlan
  import opened ClusterDecision
  import opened MergeFixpoint

  // Clusters.

  /** A cluster is the rows of one fold; a row whose name folds to nothing is alone under its id, and left alone. */
  lemma ClusterAre(c: Canon, rows: set<Row>, key: string, r: Row)
    ensures r in Cluster(c, rows, key) <==>
            r in rows && key == if c.fold(r.name) == "" then "__singleton__" + r.id else c.fold(r.name)
  {
  }

  lemma OutcomeIs(c: Canon, rows: set<Row>, key: string)
    requires DistinctIds(rows) && key in ClusterKeys(c, rows)
    ensures if "__singleton__" <= key then OutcomeFor(c, rows, key).Untouched?
            else Cluster(c, rows, key) != {} && OutcomeFor(c, rows, key) == Decide(c, Cluster(c, rows, key))
  {
    ClusterNotEmpty(c, rows, key);
    hide Decide;
  }

  /** A row is set aside exactly when it is a country or a location with at least three links, and a row of the
      other of the two classes, with as many, has the same name up to case and outer white space. */
  lemma ProtectedAre(c: Canon, members: set<Row>, r: Row)
    ensures r in ProtectedRows(c, members) <==>
            && r in members && r.links >= 3 && (r.cls == "country" || r.cls == "location")
            && exists o | o in members ::
                 && o.links >= 3 && o.cls == (if r.cls == "country" then "location" else "country")
                 && c.lower(c.strip(o.name)) == c.lower(c.strip(r.name))
  {
    var s := Surface(c, r);
    if r in ProtectedRows(c, members) {
      var o := Member(RowsAt(c, members, s, if r.cls == "country" then "location" else "country"));
    }
    if o :| r in members && r.links >= 3 && (r.cls == "country" || r.cls == "location") && o in members
            && o.links >= 3 && o.cls == (if r.cls == "country" then "location" else "country")
            && c.lower(c.strip(o.name)) == c.lower(c.strip(r.name)) {
      assert r in RowsAt(c, members, s, r.cls) && o in RowsAt(c, members, s, o.cls);
    }
  }

  // Junk.

  /** The rows of a cluster that can be merged: all but those set aside, and the only row there is. */
  function Open(c: Canon, members: set<Row>): set<Row> {
    if |members| == 1 then members else members - ProtectedRows(c, members)
  }

  lemma OpenOf(c: Canon, members: set<Row>)
    requires members != {} && DistinctIds(members)
    ensures DistinctIds(Open(c, members))
    ensures Decide(c, members) == DecideMergeable(c, Open(c, members), ProtectedSlots(c, members))
  {
    hide IsContentJunk, SurvivorIsJunk, ManualHomonym, SurvivorName, SurvivorClass, GeoFill, ProtectedRows;
    if |members| == 1 {
      var m := ElectSurvivor(members);
      forall r | r in members ensures r == m {
        OnlyRow(members, m, r);
      }
      assert members == {m};
    }
  }

  /** A name is junk by its content when the canon flags it and it holds markup or is longer than two characters
      once stripped; rows that are all so named are junked, and a single row is junked for nothing else. */
  lemma ContentJunkIsJunked(c: Canon, members: set<Row>)
    requires members != {} && DistinctIds(members)
    ensures Open(c, members) == {} ==> Decide(c, members) == Untouched
    ensures var rows := Open(c, members);
            rows != {} && (forall r | r in rows ::
                c.isJunk(r.name) && ('<' in r.name || '>' in r.name || |c.stripName(r.name)| > 2)) ==>
              Decide(c, members) == Junked(rows, false)
    ensures var rows := Open(c, members);
            |rows| == 1 && (exists r | r in rows ::
                !c.isJunk(r.name) || ('<' !in r.name && '>' !in r.name && |c.stripName(r.name)| <= 2)) ==>
              Decide(c, members) == Untouched
  {
    OpenOf(c, members);
    var rows := Open(c, members);
    hide SurvivorIsJunk, ManualHomonym, SurvivorName, SurvivorClass, GeoFill, ProtectedRows, Decide, Open;
    if |rows| == 1 {
      var m := ElectSurvivor(rows);
      forall r | r in rows ensures r == m {
        OnlyRow(rows, m, r);
      }
    }
  }

  /** The row with the most links, then the oldest, then the one with the smallest id. */
  ghost predicate Best(rows: set<Row>, s: Row) {
    s in rows && forall r | r in rows && r != s ::
      || r.links < s.links
      || (r.links == s.links && TextLess(s.createdAt, r.createdAt))
      || (r.links == s.links && r.createdAt == s.createdAt && TextLess(s.id, r.id))
  }

  lemma ElectedIsBest(rows: set<Row>)
    requires rows != {} && DistinctIds(rows)
    ensures Best(rows, ElectSurvivor(rows))
  {
    forall r | r in rows && r != ElectSurvivor(rows)
      ensures var s := ElectSurvivor(rows);
              || r.links < s.links
              || (r.links == s.links && TextLess(s.createdAt, r.createdAt))
              || (r.links == s.links && r.createdAt == s.createdAt && TextLess(s.id, r.id))
    {
      SurvivorBeatsAll(rows, r);
    }
  }

  lemma BestIsElected(rows: set<Row>, s: Row)
    requires DistinctIds(rows) && Best(rows, s)
    ensures ElectSurvivor(rows) == s
    ensures StrictTotalOn(Elected, rows) && Least(Elected, rows) == s
  {
    ElectedIsTotal(rows);
    forall r | r in rows && r != s ensures Elected(s, r) {
      TextTrichotomy(s.createdAt, r.createdAt);
    }
    LeastIs(Elected, rows, s);
  }

  /** The name a row is shown under: the canon's display, stripped, unless that is empty or junk; then its own name
      stripped, or as it is when nothing is left of it. */
  lemma ShownUnder(c: Canon, s: Row)
    ensures var shown := c.strip(c.display(s.name));
            && (shown != "" && !c.isJunk(shown) ==> SurvivorName(c, s) == shown)
            && (shown == "" || c.isJunk(shown) ==>
                  SurvivorName(c, s) == if c.stripName(s.name) != "" then c.stripName(s.name) else s.name)
  {
  }

  /** At least two rows, not all junk by content: the one of `rows` that is best is elected, and the cluster is
      decided by the name `name` it is shown under. */
  ghost predicate Contested(c: Canon, rows: set<Row>, s: Row) {
    && |rows| > 1 && Best(rows, s)
    && exists r | r in rows :: !c.isJunk(r.name) || ('<' !in r.name && '>' !in r.name && |c.stripName(r.name)| <= 2)
  }

  lemma ContestedDecided(c: Canon, members: set<Row>, s: Row)
    requires members != {} && DistinctIds(members) && Contested(c, Open(c, members), s)
    ensures DistinctIds(Open(c, members))
    ensures var rows, name := Open(c, members), SurvivorName(c, s);
            Decide(c, members) ==
            if SurvivorIsJunk(c, name) then Junked(rows, true)
            else if ManualHomonym(c, name, c.classOf(name), rows) then HeldForReview(name, rows)
            else Merged(s, name, SurvivorClass(c, name, s, rows, ProtectedSlots(c, members)), rows - {s},
                        GeoFill(c, name, s, rows - {s}))
  {
    OpenOf(c, members);
    BestIsElected(Open(c, members), s);
    assert exists r | r in Open(c, members) :: !IsContentJunk(c, r.name);
    hide SurvivorIsJunk, ManualHomonym, SurvivorName, SurvivorClass, GeoFill, Decide, Open, IsContentJunk,
      ProtectedSlots, ElectSurvivor, Best;
  }

  /** A whole cluster is junked for the name it would be shown under exactly when that name, or what is left of it
      without its article, is flagged by the canon, holds no markup and is longer than two characters stripped. */
  lemma SweptWhenShownJunk(c: Canon, members: set<Row>, s: Row)
    requires members != {} && DistinctIds(members) && Contested(c, Open(c, members), s)
    ensures var rows, shown := Open(c, members), c.strip(SurvivorName(c, s));
            var bare := c.stripArticle(shown);
            && (Decide(c, members).Junked? <==>
                  shown != ""
                  && (|| (c.isJunk(shown) && '<' !in shown && '>' !in shown && |c.stripName(shown)| > 2)
                      || (bare != "" && c.isJunk(bare) && '<' !in bare && '>' !in bare && |c.stripName(bare)| > 2)))
            && (Decide(c, members).Junked? ==> Decide(c, members) == Junked(rows, true))
  {
    ContestedDecided(c, members, s);
    hide ManualHomonym, SurvivorName, SurvivorClass, GeoFill, Decide, Open, ProtectedSlots, Contested;
  }

  /** The links of the rows of one class. */
  ghost function LinksOf(rows: set<Row>, cls: string): int {
    SumLinks(set r | r in rows && r.cls == cls)
  }

  /** The class of `q` has the most links of all and that of `r` the most of the others, and at least half as many. */
  ghost predicate BalancedRows(rows: set<Row>, q: Row, r: Row) {
    && q.cls != r.cls && LinksOf(rows, q.cls) > 0
    && 2 * LinksOf(rows, r.cls) >= LinksOf(rows, q.cls)
    && (forall o | o in rows :: LinksOf(rows, o.cls) <= LinksOf(rows, q.cls))
    && (forall o | o in rows && o.cls != q.cls :: LinksOf(rows, o.cls) <= LinksOf(rows, r.cls))
  }

  /** A cluster is held for review exactly when its shown name is a single word the canon gives no class, its rows
      have several classes and more than fifty links, and of the two classes with the most links the second has at
      least half of the first. */
  lemma HeldWhenSplit(c: Canon, members: set<Row>, s: Row)
    requires members != {} && DistinctIds(members) && Contested(c, Open(c, members), s)
    ensures var rows, name := Open(c, members), SurvivorName(c, s);
            && (Decide(c, members).HeldForReview? <==>
                  && !Decide(c, members).Junked?
                  && c.classOf(name) == "entity" && c.strip(name) != "" && ' ' !in c.strip(name)
                  && SumLinks(rows) > 50
                  && exists q, r | q in rows && r in rows :: BalancedRows(rows, q, r))
            && (Decide(c, members).HeldForReview? ==> Decide(c, members) == HeldForReview(name, rows))
  {
    ContestedDecided(c, members, s);
    BalancedInRows(Open(c, members));
    SeveralClasses(Open(c, members));
    hide SurvivorIsJunk, SurvivorName, SurvivorClass, GeoFill, Decide, Open, ProtectedSlots, Contested, BalancedPair,
      BalancedRows, Classes, SumLinks;
  }

  lemma BalancedInRows(rows: set<Row>)
    ensures (exists a, b :: BalancedPair(rows, a, b)) <==>
            exists q, r | q in rows && r in rows :: BalancedRows(rows, q, r)
  {
    forall cls ensures ClassLinks(rows, cls) == LinksOf(rows, cls) {
      assert OfClass(rows, cls) == set r | r in rows && r.cls == cls;
    }
    hide ClassLinks, LinksOf;
    if a, b :| BalancedPair(rows, a, b) {
      var q :| q in rows && q.cls == a;
      var r :| r in rows && r.cls == b;
      assert forall o | o in rows :: o.cls in Classes(rows);
      assert BalancedRows(rows, q, r);
    }
    if q, r :| q in rows && r in rows && BalancedRows(rows, q, r) {
      assert BalancedPair(rows, q.cls, r.cls);
    }
  }

  lemma SeveralClasses(rows: set<Row>)
    ensures (exists q, r | q in rows && r in rows :: BalancedRows(rows, q, r)) ==> |Classes(rows)| >= 2
  {
    if q, r :| q in rows && r in rows && BalancedRows(rows, q, r) {
      assert {q.cls, r.cls} <= Classes(rows);
      assert |Classes(rows) - {q.cls}| == |Classes(rows)| - 1 && r.cls in Classes(rows) - {q.cls};
    }
  }

  // Merges.

  /** Whatever is neither junked nor held is merged, onto its best row and under the name that is shown under. */
  lemma OtherwiseMerged(c: Canon, members: set<Row>, s: Row)
    requires members != {} && DistinctIds(members) && Contested(c, Open(c, members), s)
    ensures var o := Decide(c, members);
            && (o.Merged? <==> !o.Junked? && !o.HeldForReview?)
            && (o.Merged? ==> o.survivor == s && o.losers == Open(c, members) - {s})
            && (o.Merged? ==> var shown := c.strip(c.display(s.name));
                  && (shown != "" && !c.isJunk(shown) ==> o.name == shown)
                  && (shown == "" || c.isJunk(shown) ==>
                        o.name == if c.stripName(s.name) != "" then c.stripName(s.name) else s.name))
  {
    ContestedDecided(c, members, s);
    ShownUnder(c, s);
    hide SurvivorIsJunk, ManualHomonym, SurvivorName, SurvivorClass, GeoFill, Decide, Open, ProtectedSlots, Contested;
  }

  /** A class is taken when a row set aside holds it under the name the survivor is shown under. */
  ghost predicate Taken(c: Canon, members: set<Row>, name: string, cls: string) {
    exists p | p in ProtectedRows(c, members) :: p.cls == cls && c.lower(c.strip(p.name)) == c.lower(c.strip(name))
  }

  lemma TakenSlot(c: Canon, members: set<Row>, name: string, cls: string)
    ensures (c.lower(c.strip(name)), cls) in ProtectedSlots(c, members) <==> Taken(c, members, name, cls)
  {
    hide ProtectedRows;
  }

  /** The class of a merged cluster is the one the canon gives its name; where the canon gives none, that of the
      best row that is a seed; where there is no seed, the survivor's own. Where that one is taken by a row set aside
      the survivor keeps its own. */
  lemma ClassIs(c: Canon, members: set<Row>)
    requires members != {} && DistinctIds(members) && Decide(c, members).Merged?
    ensures var o, rows := Decide(c, members), Open(c, members);
            var cc, own := c.classOf(o.name), o.survivor.cls;
            && (cc != "entity" ==> o.cls == if cc != own && Taken(c, members, o.name, cc) then own else cc)
            && (cc == "entity" && (forall r | r in rows :: r.source != "seed") ==> o.cls == own)
            && (cc == "entity" ==> forall d | Best((set r | r in rows && r.source == "seed"), d) ::
                  o.cls == if d.cls != own && Taken(c, members, o.name, d.cls) then own else d.cls)
  {
    MergedFromOpen(c, members);
    var o, rows := Decide(c, members), Open(c, members);
    TakenSlot(c, members, o.name, c.classOf(o.name));
    assert Seeds(rows) == set r | r in rows && r.source == "seed";
    forall d | Best(Seeds(rows), d)
      ensures c.classOf(o.name) == "entity" ==>
                o.cls == if d.cls != o.survivor.cls && Taken(c, members, o.name, d.cls) then o.survivor.cls else d.cls
    {
      SeedClass(c, o.name, o.survivor, rows, ProtectedSlots(c, members), d);
      TakenSlot(c, members, o.name, d.cls);
    }
    hide Decide, Open, ProtectedSlots, Taken, Best, Elected, GeoFill;
  }

  lemma SeedClass(c: Canon, name: string, s: Row, rows: set<Row>, slots: set<(string, string)>, d: Row)
    requires DistinctIds(rows) && Best(Seeds(rows), d)
    ensures c.classOf(name) == "entity" ==>
              SurvivorClass(c, name, s, rows, slots) ==
              if d.cls != s.cls && (c.lower(c.strip(name)), d.cls) in slots then s.cls else d.cls
  {
    BestIsElected(Seeds(rows), d);
    hide Elected, Least;
  }

  lemma MergedFromOpen(c: Canon, members: set<Row>)
    requires members != {} && DistinctIds(members) && Decide(c, members).Merged?
    ensures var o, rows := Decide(c, members), Open(c, members);
            && DistinctIds(rows) && Contested(c, rows, o.survivor) && o.losers == rows - {o.survivor}
            && o.name == SurvivorName(c, o.survivor)
            && o.cls == SurvivorClass(c, o.name, o.survivor, rows, ProtectedSlots(c, members))
            && o.geo == GeoFill(c, o.name, o.survivor, o.losers)
  {
    hide *;
    OpenOf(c, members);
    MergedShape(c, Open(c, members), ProtectedSlots(c, members));
  }

  lemma MergedShape(c: Canon, rows: set<Row>, slots: set<(string, string)>)
    requires DistinctIds(rows) && DecideMergeable(c, rows, slots).Merged?
    ensures var o := DecideMergeable(c, rows, slots);
            && Contested(c, rows, o.survivor) && o.losers == rows - {o.survivor}
            && o.name == SurvivorName(c, o.survivor)
            && o.cls == SurvivorClass(c, o.name, o.survivor, rows, slots)
            && o.geo == GeoFill(c, o.name, o.survivor, o.losers)
  {
    hide SurvivorIsJunk, ManualHomonym, SurvivorName, SurvivorClass, GeoFill, Best, ElectSurvivor;
    ElectedIsBest(rows);
  }

  /** A loser gives its place when it has both coordinates and its country is the one the shown name denotes; of
      several the one with the smallest id gives it. */
  ghost predicate Gives(c: Canon, name: string, losers: set<Row>, d: Row) {
    && d in losers && d.geo.lat.Some? && d.geo.lon.Some?
    && c.nameCountry(name).Some? && c.countryCode(d.geo.country) == c.nameCountry(name)
  }

  /** A geo row is frozen exactly when some loser gives one and the survivor lacks the coordinates, the country or a
      region the loser has; it is the loser's under the country of the name. */
  lemma GeoIs(c: Canon, members: set<Row>)
    requires members != {} && DistinctIds(members) && Decide(c, members).Merged?
    ensures var o := Decide(c, members);
            var g := o.survivor.geo;
            && ((forall d | d in o.losers :: !Gives(c, o.name, o.losers, d)) ==> o.geo == None)
            && (forall d | Gives(c, o.name, o.losers, d)
                           && (forall e | Gives(c, o.name, o.losers, e) && e != d :: TextLess(d.id, e.id)) ::
                  o.geo ==
                  if || (g.lat.None? && g.lon.None?)
                     || g.country.None?
                     || (g.region.None? && d.geo.region.Some? && d.geo.region.value != "")
                  then Some(Geo(d.geo.lat, d.geo.lon, c.nameCountry(o.name), d.geo.region, d.geo.completeness))
                  else None)
  {
    MergedFromOpen(c, members);
    var o := Decide(c, members);
    hide Decide, Open, SurvivorClass, SurvivorName;
    GeoFillIs(c, o.name, o.survivor, o.losers);
  }

  lemma GeoFillIs(c: Canon, name: string, s: Row, losers: set<Row>)
    requires DistinctIds(losers)
    ensures (forall d | d in losers :: !Gives(c, name, losers, d)) ==> GeoFill(c, name, s, losers) == None
    ensures forall d | Gives(c, name, losers, d)
                       && (forall e | Gives(c, name, losers, e) && e != d :: TextLess(d.id, e.id)) ::
              GeoFill(c, name, s, losers) ==
              if || (s.geo.lat.None? && s.geo.lon.None?)
                 || s.geo.country.None?
                 || (s.geo.region.None? && d.geo.region.Some? && d.geo.region.value != "")
              then Some(Geo(d.geo.lat, d.geo.lon, c.nameCountry(name), d.geo.region, d.geo.completeness))
              else None
  {
    var expected := c.nameCountry(name);
    GeoDonorSpec(c, expected, losers);
    forall d ensures Gives(c, name, losers, d) <==> expected.Some? && d in GeoCandidates(c, expected.value, losers) {
    }
    forall d | Gives(c, name, losers, d)
               && (forall e | Gives(c, name, losers, e) && e != d :: TextLess(d.id, e.id))
      ensures PickGeoDonor(c, expected, losers) == Some(d)
    {
      var cands := GeoCandidates(c, expected.value, losers);
      SmallerIdIsTotal(cands);
      LeastIs(SmallerId, cands, d);
    }
    hide PickGeoDonor, GeoCandidates, Gives;
  }

  // The lists.

  /** What the plan lists of a merged cluster: every loser under the survivor, a rewrite exactly when the shown name
      or the class is not the survivor's own, and the frozen geo row if there is one. */
  lemma MergeIsListed(c: Canon, rows: set<Row>, key: string)
    requires DistinctIds(rows) && key in ClusterKeys(c, rows) && OutcomeFor(c, rows, key).Merged?
    ensures var d, o := PlanOf(c, rows), OutcomeFor(c, rows, key);
            var id := o.survivor.id;
            && (forall l | l in o.losers :: l.id in d.mergeMap && d.mergeMap[l.id] == id)
            && (id in d.rewrites <==> o.name != o.survivor.name || o.cls != o.survivor.cls)
            && (id in d.rewrites ==> d.rewrites[id] == Rewrite(o.name, o.cls))
            && (id in d.geo <==> o.geo.Some?)
            && (id in d.geo ==> d.geo[id] == o.geo.value)
  {
    PlanTallied(c, rows);
    hide PlanOf, OutcomeFor, HoldFor, Lists, ClusterKeys;
    assert Records(PlanOf(c, rows), key, OutcomeFor(c, rows, key), HoldFor(c, rows, key));
  }

  /** A row is listed as junk exactly when its cluster is junked and it is not set aside. */
  lemma JunkIsListed(c: Canon, rows: set<Row>, r: Row)
    requires DistinctIds(rows) && r in rows
    ensures ClusterKey(c, r) in ClusterKeys(c, rows)
    ensures var o := OutcomeFor(c, rows, ClusterKey(c, r));
            r.id in PlanOf(c, rows).junk <==> o.Junked? && r in o.rows
  {
    PlanPartitions(c, rows, r);
    KeyOfRow(c, rows, r);
    if !Skipped(ClusterKey(c, r)) {
      ClusterRoles(c, rows, ClusterKey(c, r), r);
    }
    hide PlanOf, Decide, ProtectedRows;
  }

  /** The planner aborts exactly when two of the rewrites want one class under names that differ at most in case. */
  lemma AbortsOnClash(c: Canon, rows: set<Row>, r: PlanResult)
    requires DistinctIds(rows) && Answers(c, rows, r)
    ensures r.Planned? <==>
            forall a, b | a in PlanOf(c, rows).rewrites && b in PlanOf(c, rows).rewrites && a != b ::
              var (x, y) := (PlanOf(c, rows).rewrites[a], PlanOf(c, rows).rewrites[b]);
              c.lower(x.name) != c.lower(y.name) || x.cls != y.cls
  {
    hide PlanOf, Emitted;
  }

  // Counts and samples.

  /** The folds of `keys` that are swept to junk for the name they would be shown under. */
  ghost function SweptKeys(c: Canon, rows: set<Row>, keys: set<string>): set<string>
    requires DistinctIds(rows) && keys <= ClusterKeys(c, rows)
  {
    set k | k in keys && OutcomeFor(c, rows, k).Junked? && OutcomeFor(c, rows, k).fromSurvivor
  }

  /** The folds of `folds` that are merged, in their order. */
  ghost function MergedFolds(c: Canon, rows: set<Row>, folds: seq<string>): seq<string>
    requires DistinctIds(rows) && Elements(folds) <= ClusterKeys(c, rows)
  {
    if folds == [] then []
    else
      var n := |folds| - 1;
      assert Elements(folds[..n]) <= Elements(folds) && folds[n] in Elements(folds);
      MergedFolds(c, rows, folds[..n]) + if OutcomeFor(c, rows, folds[n]).Merged? then [folds[n]] else []
  }

  ghost predicate SampleOf(c: Canon, rows: set<Row>, key: string, x: Sample)
    requires DistinctIds(rows) && key in ClusterKeys(c, rows)
  {
    var o := OutcomeFor(c, rows, key);
    o.Merged? && x == Sample(key, o.survivor, o.name, o.cls, o.losers)
  }

  lemma SweptStep(c: Canon, rows: set<Row>, keys: set<string>, key: string)
    requires DistinctIds(rows) && keys + {key} <= ClusterKeys(c, rows) && key !in keys && key in ClusterKeys(c, rows)
    ensures var o := OutcomeFor(c, rows, key);
            |SweptKeys(c, rows, keys + {key})| ==
            |SweptKeys(c, rows, keys)| + if o.Junked? && o.fromSurvivor then 1 else 0
  {
    hide OutcomeFor, ClusterKeys;
    var before, swept := SweptKeys(c, rows, keys), SweptKeys(c, rows, keys + {key});
    assert key !in before;
    assert swept == if key in swept then before + {key} else before;
  }

  lemma FieldsAdded(d: Draft, key: string, hold: Option<GeoHold>, o: Outcome)
    ensures var e := AddOutcome(AddGeoHold(d, key, hold), key, o);
            && e.junkFromSurvivor == d.junkFromSurvivor + (if o.Junked? && o.fromSurvivor then 1 else 0)
            && e.samples == if o.Merged? && |d.samples| < 20
                 then d.samples + [Sample(key, o.survivor, o.name, o.cls, o.losers)] else d.samples
  {
  }

  /** The samples are the first twenty merges in the order of their folds. */
  ghost predicate Sampled(c: Canon, rows: set<Row>, m: seq<string>, x: seq<Sample>)
    requires DistinctIds(rows)
  {
    && |x| == (if |m| < 20 then |m| else 20)
    && forall i | 0 <= i < |x| :: m[i] in ClusterKeys(c, rows) && SampleOf(c, rows, m[i], x[i])
  }

  /** The swept folds are counted once each. */
  lemma {:induction false} SweepsCounted(c: Canon, rows: set<Row>, folds: seq<string>)
    requires DistinctIds(rows) && Elements(folds) <= ClusterKeys(c, rows) && NoRepeats(folds)
    ensures DraftFor(c, rows, folds).junkFromSurvivor == |SweptKeys(c, rows, Elements(folds))|
  {
    if folds == [] {
      assert SweptKeys(c, rows, Elements(folds)) == {};
    } else {
      var n := |folds| - 1;
      LastFold(c, rows, folds);
      SweepsCounted(c, rows, folds[..n]);
      hide *;
      SweptStep(c, rows, Elements(folds[..n]), folds[n]);
    }
  }

  lemma LastFold(c: Canon, rows: set<Row>, folds: seq<string>)
    requires DistinctIds(rows) && Elements(folds) <= ClusterKeys(c, rows) && folds != []
    ensures var n := |folds| - 1;
            && Elements(folds[..n]) <= ClusterKeys(c, rows) && folds[n] in ClusterKeys(c, rows)
            && Elements(folds) == Elements(folds[..n]) + {folds[n]}
            && (NoRepeats(folds) ==> NoRepeats(folds[..n]) && folds[n] !in Elements(folds[..n]))
            && var d, e, o := DraftFor(c, rows, folds[..n]), DraftFor(c, rows, folds), OutcomeFor(c, rows, folds[n]);
               && e.junkFromSurvivor == d.junkFromSurvivor + (if o.Junked? && o.fromSurvivor then 1 else 0)
               && e.samples == if o.Merged? && |d.samples| < 20
                    then d.samples + [Sample(folds[n], o.survivor, o.name, o.cls, o.losers)] else d.samples
  {
    var n := |folds| - 1;
    assert folds == folds[..n] + [folds[n]];
    assert Elements(folds) == Elements(folds[..n]) + {folds[n]};
    DraftForStep(c, rows, folds[..n], folds[n]);
    hide OutcomeFor, ClusterKeys, DraftFor, AddOutcome, AddGeoHold, HoldFor;
    FieldsAdded(DraftFor(c, rows, folds[..n]), folds[n], HoldFor(c, rows, folds[n]), OutcomeFor(c, rows, folds[n]));
  }

  lemma SampledMore(c: Canon, rows: set<Row>, m: seq<string>, x: seq<Sample>, key: string)
    requires DistinctIds(rows) && key in ClusterKeys(c, rows) && Sampled(c, rows, m, x)
    requires OutcomeFor(c, rows, key).Merged?
    ensures var o := OutcomeFor(c, rows, key);
            Sampled(c, rows, m + [key],
                    if |x| < 20 then x + [Sample(key, o.survivor, o.name, o.cls, o.losers)] else x)
  {
    hide OutcomeFor, ClusterKeys;
  }

  lemma MergedFoldsUnfold(c: Canon, rows: set<Row>, folds: seq<string>)
    requires DistinctIds(rows) && Elements(folds) <= ClusterKeys(c, rows) && folds != []
    ensures var n := |folds| - 1;
            && Elements(folds[..n]) <= ClusterKeys(c, rows) && folds[n] in ClusterKeys(c, rows)
            && MergedFolds(c, rows, folds) ==
               MergedFolds(c, rows, folds[..n]) + if OutcomeFor(c, rows, folds[n]).Merged? then [folds[n]] else []
  {
    LastFold(c, rows, folds);
    hide OutcomeFor, ClusterKeys;
  }

  /** The samples of a plan are its first twenty merges in the order of their folds. */
  lemma {:induction false} SamplesAre(c: Canon, rows: set<Row>, folds: seq<string>)
    requires DistinctIds(rows) && Elements(folds) <= ClusterKeys(c, rows)
    ensures Sampled(c, rows, MergedFolds(c, rows, folds), DraftFor(c, rows, folds).samples)
  {
    if folds != [] {
      var n := |folds| - 1;
      LastFold(c, rows, folds);
      MergedFoldsUnfold(c, rows, folds);
      SamplesAre(c, rows, folds[..n]);
      hide *;
      if OutcomeFor(c, rows, folds[n]).Merged? {
        SampledMore(c, rows, MergedFolds(c, rows, folds[..n]), DraftFor(c, rows, folds[..n]).samples, folds[n]);
      } else {
        assert MergedFolds(c, rows, folds) == MergedFolds(c, rows, folds[..n]);
      }
    }
  }

  // The emitted lists.

  /** The list of merges pairs each loser with its survivor, once, in the order of the losers' ids. */
  lemma MergesEmitted(p: Plan, d: Draft, a: nat, b: nat)
    requires Emitted(p, d)
    ensures forall x: (string, string) :: x in p.mergeMap <==> x.0 in d.mergeMap && x.1 == d.mergeMap[x.0]
    ensures a < b < |p.mergeMap| ==> TextLess(p.mergeMap[a].0, p.mergeMap[b].0)
  {
    TabulatedAre(p.mergeMap, d.mergeMap);
    if a < b < |p.mergeMap| {
      assert ByKey<string>()(p.mergeMap[a], p.mergeMap[b]);
    }
    hide Tabulates, GeoShown, TokenShown, SamplesListed, SortedBy;
  }

  lemma RewritesEmitted(p: Plan, d: Draft, a: nat, b: nat)
    requires Emitted(p, d)
    ensures forall x: (string, Rewrite) :: x in p.rewrites <==> x.0 in d.rewrites && x.1 == d.rewrites[x.0]
    ensures a < b < |p.rewrites| ==> TextLess(p.rewrites[a].0, p.rewrites[b].0)
  {
    TabulatedAre(p.rewrites, d.rewrites);
    if a < b < |p.rewrites| {
      assert ByKey<Rewrite>()(p.rewrites[a], p.rewrites[b]);
    }
    hide Tabulates, GeoShown, TokenShown, SamplesListed, SortedBy;
  }

  lemma GeoEmitted(p: Plan, d: Draft, a: nat, b: nat)
    requires Emitted(p, d)
    ensures forall x: (string, Geo) :: x in p.geo <==> x.0 in d.geo && x.1 == d.geo[x.0]
    ensures a < b < |p.geo| ==> TextLess(p.geo[a].0, p.geo[b].0)
  {
    TabulatedAre(p.geo, d.geo);
    if a < b < |p.geo| {
      assert ByKey<Geo>()(p.geo[a], p.geo[b]);
    }
    hide Tabulates, GeoShown, TokenShown, SamplesListed, SortedBy;
  }

  lemma TabulatedAre<V(!new)>(q: seq<(string, V)>, m: map<string, V>)
    requires Tabulates(q, m, Same<V>())
    ensures forall x: (string, V) :: x in q <==> x.0 in m && x.1 == m[x.0]
  {
    forall x: (string, V) | x.0 in m && x.1 == m[x.0] ensures x in q {
      assert x.0 in Keys(q);
    }
  }

  /** Junk is listed by id, and the counts are those of the plan. */
  lemma JunkEmitted(p: Plan, d: Draft, a: nat, b: nat)
    requires Emitted(p, d)
    ensures forall id :: id in p.junk <==> id in d.junk
    ensures a < b < |p.junk| ==> TextLess(p.junk[a], p.junk[b])
    ensures p.foldClusters == d.foldClusters && p.loserLinks == d.loserLinks && p.junkFromSurvivor == d.junkFromSurvivor
  {
    forall id ensures id in p.junk <==> id in d.junk {
      assert id in p.junk <==> id in Elements(p.junk);
    }
    hide Tabulates, GeoShown, TokenShown, SamplesListed;
  }

  ghost predicate InOrderOfLinks(q: seq<Row>) {
    forall a, b | 0 <= a < b < |q| ::
      q[a].links > q[b].links || (q[a].links == q[b].links && TextLess(q[a].id, q[b].id))
  }

  lemma ShownInOrder(q: seq<Row>, rows: set<Row>)
    requires ShowsRows(q, rows)
    ensures (forall r :: r in q <==> r in rows) && InOrderOfLinks(q)
  {
    forall r ensures r in q <==> r in rows {
      assert r in q <==> r in Elements(q);
    }
    forall a, b | 0 <= a < b < |q|
      ensures q[a].links > q[b].links || (q[a].links == q[b].links && TextLess(q[a].id, q[b].id))
    {
      assert MoreLinks(q[a], q[b]);
    }
  }

  /** The homonyms that are held back are listed fold by fold, the rows best-linked first and then by id, with the
      names they share, up to case and outer white space, in order. */
  lemma HomonymsEmitted(p: Plan, d: Draft, i: nat)
    requires Emitted(p, d) && i < |p.ambiguousGeo|
    ensures var (k, e) := p.ambiguousGeo[i];
            && k in d.ambiguousGeo
            && (forall j | 0 <= j < i :: TextLess(p.ambiguousGeo[j].0, k))
            && (forall r :: r in e.rows <==> r in d.ambiguousGeo[k].rows) && InOrderOfLinks(e.rows)
            && (forall x :: x in e.shared <==> x in d.ambiguousGeo[k].shared)
            && (forall a, b | 0 <= a < b < |e.shared| :: TextLess(e.shared[a], e.shared[b]))
    ensures |p.ambiguousGeo| == |d.ambiguousGeo|
  {
    TabulatedSize(p.ambiguousGeo, d.ambiguousGeo, GeoShown());
    var (k, e) := p.ambiguousGeo[i];
    assert GeoShown()(e, d.ambiguousGeo[k]);
    ShownInOrder(e.rows, d.ambiguousGeo[k].rows);
    forall x ensures x in e.shared <==> x in d.ambiguousGeo[k].shared {
      assert x in e.shared <==> x in Elements(e.shared);
    }
    forall j | 0 <= j < i ensures TextLess(p.ambiguousGeo[j].0, k) {
      assert ByKey<GeoEntry>()(p.ambiguousGeo[j], p.ambiguousGeo[i]);
    }
    hide ShowsRows, TokenShown, SamplesListed, InOrderOfLinks;
  }

  /** The clusters held for review are listed the same way under the name they would be shown under. */
  lemma TokensEmitted(p: Plan, d: Draft, i: nat)
    requires Emitted(p, d) && i < |p.ambiguousToken|
    ensures var (k, e) := p.ambiguousToken[i];
            && k in d.ambiguousToken && e.survivorName == d.ambiguousToken[k].survivorName
            && (forall j | 0 <= j < i :: TextLess(p.ambiguousToken[j].0, k))
            && (forall r :: r in e.members <==> r in d.ambiguousToken[k].rows) && InOrderOfLinks(e.members)
    ensures |p.ambiguousToken| == |d.ambiguousToken|
  {
    TabulatedSize(p.ambiguousToken, d.ambiguousToken, TokenShown());
    var (k, e) := p.ambiguousToken[i];
    assert TokenShown()(e, d.ambiguousToken[k]);
    ShownInOrder(e.members, d.ambiguousToken[k].rows);
    forall j | 0 <= j < i ensures TextLess(p.ambiguousToken[j].0, k) {
      assert ByKey<TokenEntry>()(p.ambiguousToken[j], p.ambiguousToken[i]);
    }
    hide ShowsRows, GeoShown, SamplesListed, InOrderOfLinks;
  }

  lemma TabulatedSize<V, W>(q: seq<(string, V)>, m: map<string, W>, shows: (V, W) -> bool)
    requires Tabulates(q, m, shows)
    ensures |q| == |m|
  {
    var keys := seq(|q|, i requires 0 <= i < |q| => q[i].0);
    assert Elements(keys) == Keys(q) by {
      forall i | 0 <= i < |q| ensures q[i].0 in keys {
        assert keys[i] == q[i].0;
      }
    }
    NoRepeatsSize(keys);
    assert |m.Keys| == |m|;
  }

  /** What a fold holds back for its homonyms: the rows set aside, and their names up to case and white space. */
  lemma HomonymsAre(c: Canon, rows: set<Row>, key: string)
    requires DistinctIds(rows) && key in ClusterKeys(c, rows)
    ensures var d, aside := PlanOf(c, rows), ProtectedRows(c, Cluster(c, rows, key));
            && (key in d.ambiguousGeo <==> !("__singleton__" <= key) && |Cluster(c, rows, key)| > 1 && aside != {})
            && (key in d.ambiguousGeo ==>
                  && d.ambiguousGeo[key].rows == aside
                  && forall x :: x in d.ambiguousGeo[key].shared <==>
                       exists r | r in aside :: x == c.lower(c.strip(r.name)))
  {
    PlanTallied(c, rows);
    hide PlanOf, OutcomeFor, Lists, ClusterKeys, ProtectedRows, Cluster;
    assert Records(PlanOf(c, rows), key, OutcomeFor(c, rows, key), HoldFor(c, rows, key));
  }

  /** A fold is held for review in the plan exactly when it is decided so, with its shown name and its rows. */
  lemma TokensAre(c: Canon, rows: set<Row>, key: string)
    requires DistinctIds(rows) && key in ClusterKeys(c, rows)
    ensures var d, o := PlanOf(c, rows), OutcomeFor(c, rows, key);
            && (key in d.ambiguousToken <==> o.HeldForReview?)
            && (key in d.ambiguousToken ==> d.ambiguousToken[key] == TokenHold(o.survivorName, o.rows))
  {
    PlanTallied(c, rows);
    hide PlanOf, OutcomeFor, HoldFor, Lists, ClusterKeys;
    assert Records(PlanOf(c, rows), key, OutcomeFor(c, rows, key), HoldFor(c, rows, key));
  }

  /** A sample shows its merge with the losers best-linked first. */
  lemma SamplesEmitted(p: Plan, d: Draft, i: nat)
    requires Emitted(p, d) && i < |p.samples|
    ensures |p.samples| == |d.samples|
    ensures var (e, x) := (p.samples[i], d.samples[i]);
            && e.fold == x.fold && e.survivor == x.survivor && e.name == x.name && e.cls == x.cls
            && (forall r :: r in e.losers <==> r in x.losers) && InOrderOfLinks(e.losers)
  {
    assert ShowsSample(p.samples[i], d.samples[i]);
    ShownInOrder(p.samples[i].losers, d.samples[i].losers);
    hide Tabulates, GeoShown, TokenShown, ShowsRows, InOrderOfLinks;
  }
}
