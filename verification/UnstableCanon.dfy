/** A plan made from the very table it runs on whose second run changes the table: what a canon that is not
    stable can do. */
module UnstableCanon {
  import opened Ordering
  import opened MergePlan
  import opened MergeDraft
  import opened ClusterDecision
  import opened BuildPlan
  import opened MergeMigration
  import opened MergeLaws
  import opened MergeRerun
  import opened MergeFixpoint

  /** Shows the row "Shore" as "Xray", a name that folds elsewhere: with "The Cup", which is junk once its
      article is gone. Only how it tells letter case apart is left open. */
  function Misleading(lower: string -> string): Canon {
    Canon(n => if n == "Shore" || n == "Lure" then "f" else if n == "Xray" || n == "The Cup" then "g" else n,
          n => if n == "Shore" then "Xray" else n,
          n => DEFAULT_CLASS,
          n => n == "Cup",
          n => n,
          n => if n == "The Cup" then "Cup" else n,
          n => n,
          lower,
          n => None,
          n => n)
  }

  const NO_GEO := Geo(None, None, None, None, None)

  function PlainProfile(name: string, cls: string, createdAt: string): Profile {
    Profile(name, cls, cls, "", createdAt, 1, {}, {}, NO_GEO)
  }

  /** Two folds: "Shore" over "Lure", and "The Cup", the older, over "Xray". */
  const SHORE := PlainProfile("Shore", DEFAULT_CLASS, "1")
  const LURE := PlainProfile("Lure", "b", "2")
  const CUP := PlainProfile("The Cup", "c", "1")
  const XRAY := PlainProfile("Xray", DEFAULT_CLASS, "2")

  const TABLES := Tables(map["s" := SHORE, "l" := LURE, "p" := CUP, "x" := XRAY], map[], {})

  function PlainRow(id: string, p: Profile): Row {
    Row(id, p.name, p.cls, "", p.createdAt, 0, NO_GEO)
  }

  const S := PlainRow("s", SHORE)
  const L := PlainRow("l", LURE)
  const P := PlainRow("p", CUP)
  const X := PlainRow("x", XRAY)

  lemma Exported()
    ensures Export(TABLES) == {S, L, P, X}
  {
    assert forall id :: LinksAt(TABLES.links, id) == {};
    assert RowOf(TABLES, "s") == S && RowOf(TABLES, "l") == L && RowOf(TABLES, "p") == P && RowOf(TABLES, "x") == X;
    assert TABLES.entities.Keys == {"s", "l", "p", "x"};
  }

  lemma FoldKeys(lower: string -> string)
    ensures var c := Misleading(lower);
            ClusterKey(c, S) == ClusterKey(c, L) == "f" && ClusterKey(c, P) == ClusterKey(c, X) == "g"
    ensures !Skipped("f") && !Skipped("g")
  {
  }

  lemma Clusters(lower: string -> string)
    ensures var c := Misleading(lower);
            Cluster(c, {S, L, P, X}, "f") == {S, L} && Cluster(c, {S, L, P, X}, "g") == {P, X}
    ensures ClusterKeys(Misleading(lower), {S, L, P, X}) == {"f", "g"}
  {
    FoldKeys(lower);
    hide ClusterKey;
    var c := Misleading(lower);
    assert forall r | r in {S, L, P, X} :: ClusterKey(c, r) == "f" || ClusterKey(c, r) == "g";
    assert ClusterKey(c, S) in ClusterKeys(c, {S, L, P, X}) && ClusterKey(c, P) in ClusterKeys(c, {S, L, P, X});
  }

  lemma Pair(a: Row, b: Row)
    requires a.id != b.id && a.links == b.links == 0 && TextLess(a.createdAt, b.createdAt)
    ensures DistinctIds({a, b}) && |{a, b}| == 2 && ElectSurvivor({a, b}) == a
    ensures {a, b} - {a} == {b}
    ensures forall c: Canon :: Mergeable(c, {a, b}) == {a, b} && ProtectedRows(c, {a, b}) == {}
  {
    ElectedIsTotal({a, b});
    TextTrichotomy(a.createdAt, b.createdAt);
    LeastIs(Elected, {a, b}, a);
  }

  lemma NoLinksAmong(a: Row, b: Row)
    requires a != b && a.links == b.links == 0
    ensures SumLinks({a, b}) == 0
  {
    SumLinksAdd({}, a);
    SumLinksAdd({a}, b);
    assert {} + {a} == {a} && {a} + {b} == {a, b};
  }

  lemma ShoreNamed(lower: string -> string)
    ensures var c := Misleading(lower);
            && !IsContentJunk(c, S.name) && SurvivorName(c, S) == "Xray" && !SurvivorIsJunk(c, "Xray")
            && c.classOf("Xray") == DEFAULT_CLASS
  {
  }

  lemma ShoreElected(lower: string -> string, slots: set<(string, string)>)
    ensures DistinctIds({S, L}) && DistinctIds({L})
    ensures var c := Misleading(lower);
            && SurvivorClass(c, "Xray", S, {S, L}, slots) == DEFAULT_CLASS && GeoFill(c, "Xray", S, {L}) == None
            && !ManualHomonym(c, "Xray", DEFAULT_CLASS, {S, L})
  {
    NoLinksAmong(S, L);
    assert Seeds({S, L}) == {};
    hide SumLinks;
  }

  lemma ShoreDecided(lower: string -> string)
    ensures DistinctIds({S, L}) && Decide(Misleading(lower), {S, L}) == Merged(S, "Xray", DEFAULT_CLASS, {L}, None)
  {
    var c := Misleading(lower);
    assert TextLess("1", "2");
    Pair(S, L);
    ShoreNamed(lower);
    ShoreElected(lower, ProtectedSlots(c, {S, L}));
    assert S in {S, L};
    hide Misleading, IsContentJunk, SurvivorName, SurvivorIsJunk, SurvivorClass, GeoFill, Mergeable, ProtectedRows,
      ElectSurvivor, ManualHomonym, ProtectedSlots;
  }

  lemma CupDecided(lower: string -> string)
    ensures DistinctIds({P, X}) && Decide(Misleading(lower), {P, X}) == Junked({P, X}, true)
  {
    var c := Misleading(lower);
    assert TextLess("1", "2");
    Pair(P, X);
    assert !IsContentJunk(c, P.name) && SurvivorName(c, P) == "The Cup";
    assert SurvivorIsJunk(c, "The Cup") by {
      assert c.stripArticle("The Cup") == "Cup" && JunkProbe(c, "Cup");
    }
    hide IsContentJunk, SurvivorName, SurvivorIsJunk, Mergeable, ProtectedRows, ElectSurvivor;
  }

  lemma Roles(lower: string -> string)
    ensures var c, rows := Misleading(lower), {S, L, P, X};
            && DistinctIds(rows) && "f" in ClusterKeys(c, rows)
            && OutcomeFor(c, rows, "f") == Merged(S, "Xray", DEFAULT_CLASS, {L}, None)
            && RoleOf(c, rows, S) == Role.Survivor && RoleOf(c, rows, L) == Role.Loser
            && RoleOf(c, rows, P) == Role.Junk && RoleOf(c, rows, X) == Role.Junk
  {
    var c, rows := Misleading(lower), {S, L, P, X};
    DistinctFour();
    FoldKeys(lower);
    Clusters(lower);
    ShoreDecided(lower);
    CupDecided(lower);
    assert OutcomeFor(c, rows, "f") == Decide(c, {S, L}) && OutcomeFor(c, rows, "g") == Decide(c, {P, X});
    hide Decide, ClusterKey, Cluster, OutcomeFor, RoleOf, Misleading;
    ClusterRoles(c, rows, "f", S);
    ClusterRoles(c, rows, "f", L);
    ClusterRoles(c, rows, "g", P);
    ClusterRoles(c, rows, "g", X);
  }

  lemma DistinctFour()
    ensures DistinctIds({S, L, P, X})
  {
  }

  lemma Listed(lower: string -> string, r: Row)
    requires r in {S, L, P, X}
    ensures var c, rows := Misleading(lower), {S, L, P, X};
            && DistinctIds(rows)
            && var d := PlanOf(c, rows);
               && (r.id in d.mergeMap <==> r == L) && (r.id in d.junk <==> r == P || r == X)
               && (r.id in d.rewrites ==> r == S)
  {
    Roles(lower);
    PlanPartitions(Misleading(lower), {S, L, P, X}, r);
    hide PlanOf, RoleOf, OutcomeFor, Misleading, DistinctIds;
  }

  lemma ShoreRewritten(lower: string -> string)
    ensures var c, rows := Misleading(lower), {S, L, P, X};
            && DistinctIds(rows)
            && var d := PlanOf(c, rows);
               "s" in d.rewrites && d.rewrites["s"] == Rewrite("Xray", DEFAULT_CLASS)
  {
    var c, rows := Misleading(lower), {S, L, P, X};
    Roles(lower);
    hide PlanOf, RoleOf, OutcomeFor, Misleading, HoldFor, DistinctIds, Lists, LoserEntries, ClusterKeys;
    PlanTallied(c, rows);
    assert Records(PlanOf(c, rows), "f", OutcomeFor(c, rows, "f"), HoldFor(c, rows, "f"));
  }

  lemma AllListed(lower: string -> string)
    ensures var c, rows := Misleading(lower), {S, L, P, X};
            && DistinctIds(rows)
            && var d := PlanOf(c, rows);
               && "l" in d.mergeMap && "s" !in d.mergeMap && "p" !in d.mergeMap && "x" !in d.mergeMap
               && "x" in d.junk && "s" !in d.junk
               && "l" !in d.rewrites && "p" !in d.rewrites && "x" !in d.rewrites
  {
    Listed(lower, S);
    Listed(lower, L);
    Listed(lower, P);
    Listed(lower, X);
    hide PlanOf, Misleading, DistinctIds;
    assert S.id == "s" && L.id == "l" && P.id == "p" && X.id == "x";
  }

  const IDS := {"s", "l", "p", "x"}

  lemma WithinTable(c: Canon)
    ensures var rows := {S, L, P, X};
            DistinctIds(rows) && PlanOf(c, rows).mergeMap.Keys <= IDS && PlanOf(c, rows).rewrites.Keys <= IDS
  {
    var rows := {S, L, P, X};
    DistinctFour();
    ValuesAreSurvivors(c, rows);
    hide PlanOf;
    assert Ids(rows) == IDS;
    forall i | i in PlanOf(c, rows).rewrites ensures i in Ids(rows) {
      var r := RewriteNames(c, rows, i);
    }
  }

  lemma OneLeft<V>(m: map<string, V>, id: string)
    requires m.Keys <= IDS && id in m && forall i | i in IDS && i != id :: i !in m
    ensures m.Keys == {id}
  {
  }

  /** The plan of the table: one merge, one rewrite to a name that a row of the junked fold holds. */
  lemma PlanOfTable(lower: string -> string)
    ensures var f := PlanFor(Misleading(lower), TABLES);
            && f.mergeMap.Keys == {"l"} && "x" in f.junk && "s" !in f.junk
            && f.rewrites.Keys == {"s"} && f.rewrites["s"] == Rewrite("Xray", DEFAULT_CLASS)
  {
    var c, rows := Misleading(lower), {S, L, P, X};
    Exported();
    AllListed(lower);
    ShoreRewritten(lower);
    WithinTable(c);
    hide PlanOf, Misleading, DistinctIds;
    OneLeft(PlanOf(c, rows).mergeMap, "l");
    OneLeft(PlanOf(c, rows).rewrites, "s");
  }

  lemma TableIsWellFormed(c: Canon)
    requires c.lower("Shore") != c.lower("Xray")
    ensures WellFormed(c, TABLES)
  {
  }

  lemma SlotFreed(lower: string -> string)
    ensures var c := Misleading(lower);
            var f := PlanFor(c, TABLES);
            !NoSlotFreed(c, TABLES.entities - f.mergeMap.Keys, f)
  {
    var c := Misleading(lower);
    PlanOfTable(lower);
    var f := PlanFor(c, TABLES);
    hide PlanFor;
    var live := TABLES.entities - f.mergeMap.Keys;
    assert live.Keys == {"s", "p", "x"};
    assert Blocks(c, live, "s", f.rewrites["s"], "x");
    assert !Blocks(c, live, "s", f.rewrites["s"], "p");
    NotItsOwnBlocker(c, live, "s", f.rewrites["s"]);
    hide Blocks, Applies;
    assert Blocked(c, live, "s", f.rewrites["s"]);
    forall other | other in live ensures !KeepsBlocking(c, live, f, "s", other) {
      assert other == "s" || other == "p" || other == "x";
    }
  }

  /** A plan the planner makes and does not abort, frozen from the well-formed table it runs on, whose second
      run changes the table: the row "Shore" is to become "Xray", which in step 5 is still a row of the fold
      that step 6 deletes. */
  lemma RerunCanChange(lower: string -> string) returns (u: Tables, v: Tables)
    requires lower("Shore") != lower("Xray")
    ensures var c := Misleading(lower);
            var f := PlanFor(c, TABLES);
            && WellFormed(c, TABLES) && !Clashes(c, f.rewrites) && Sound(c, f)
            && Migrated(c, TABLES, u, f) && Migrated(c, u, v, f)
    ensures v != u
  {
    var c := Misleading(lower);
    var f := PlanFor(c, TABLES);
    PlanOfTable(lower);
    TableIsWellFormed(c);
    SlotFreed(lower);
    OneRewrite(c, f.rewrites, "s");
    PlanIsSound(c, TABLES);
    hide Migrated, WellFormed, Sound, SurvivorsLive, NoSlotFreed, PlanFor, Clashes, Misleading;
    u := MigrateWithoutLinks(c, TABLES, f);
    v := MigrateWithoutLinks(c, u, f);
    RerunIsNoop(c, TABLES, u, v, f);
  }

  lemma OneRewrite(c: Canon, rewrites: map<string, Rewrite>, id: string)
    requires rewrites.Keys == {id}
    ensures !Clashes(c, rewrites)
  {
  }
}
