/** The registration of a whole source catalog, around the states an operator switched sources off with. */
module SourceCatalog {
  import opened Ordering
  import opened Lifecycle
  import opened DescriptorRegistry
  import opened Registration
  import opened Registrar

  /** What was appended to the trail between two states is about `id` alone. */
  ghost predicate Extends(was: seq<Change>, now: seq<Change>, id: Id) {
    && |was| <= |now| && now[..|was|] == was
    && forall k | |was| <= k < |now| :: now[k].id == id
  }

  ghost predicate LegalFrom(trail: seq<Change>, from: nat) {
    forall k | from <= k < |trail| :: Legal(trail[k])
  }

  /** An entry of the source catalog; every descriptor built from one declares the active state. */
  datatype CatalogEntry = CatalogEntry(id: Id, body: Body)

  function BuildDescriptor(e: CatalogEntry): Descriptor {
    Descriptor(e.id, Active, e.body)
  }

  /** The states an operator switches a source off with; a catalog run must not undo them. */
  const STICKY_OFF_STATES: set<LifecycleState> := {Paused, Retired}

  ghost predicate Off(h: Option<History>) {
    h.Some? && h.value.head in h.value.rows && (HeadState(h.value) == Paused || HeadState(h.value) == Retired)
  }

  /** The turns around the registration of the `n`th entry. */
  function TurnsAt(turns: seq<Turns>, n: nat): Turns {
    if n < |turns| then turns[n] else []
  }

  ghost predicate Listed(catalog: seq<CatalogEntry>, id: Id) {
    exists n :: 0 <= n < |catalog| && catalog[n].id == id
  }

  ghost predicate DistinctIds(catalog: seq<CatalogEntry>) {
    forall m, n | 0 <= m < n < |catalog| :: catalog[m].id != catalog[n].id
  }

  /** Only heads of catalog ids that were not switched off were moved. */
  ghost predicate SparesOff(catalog: seq<CatalogEntry>, was: map<Id, History>, trail: seq<Change>, from: nat) {
    forall k | from <= k < |trail| :: Listed(catalog, trail[k].id) && !Off(At(was, trail[k].id))
  }

  /** Whatever is not in the catalog, or was switched off, is as it was; the latter is so reported. Other
      writers act only on the id being registered, so this is what the run itself leaves alone. */
  ghost predicate Preserves(catalog: seq<CatalogEntry>, was: map<Id, History>, now: map<Id, History>,
                            results: seq<Result>) {
    && |results| == |catalog|
    && (forall id | !Listed(catalog, id) || Off(At(was, id)) :: At(now, id) == At(was, id))
    && forall n | 0 <= n < |catalog| && Off(At(was, catalog[n].id)) ::
         results[n] == Result(catalog[n].id, Unchanged, None, Preserved)
  }

  /** The history of an entry when its own registration first reads it: writers may have got there since the
      bulk read. */
  function FirstRead(was: map<Id, History>, id: Id, turns: Turns): Option<History> {
    Overtaken(At(was, id), TurnAt(turns, 0).arrives)
  }

  /** Every other entry that was left alone from then on was registered from where it was. */
  ghost predicate Registers(hash: Hash, lands: LifecycleState -> LifecycleState, catalog: seq<CatalogEntry>,
                            turns: seq<Turns>, was: map<Id, History>, now: map<Id, History>,
                            results: seq<Result>) {
    && |results| == |catalog|
    && forall n | 0 <= n < |catalog| && !Off(At(was, catalog[n].id)) && QuietOnceRead(TurnsAt(turns, n)) ::
         QuietResult(hash, lands, FirstRead(was, catalog[n].id, TurnsAt(turns, n)), At(now, catalog[n].id),
             BuildDescriptor(catalog[n]), results[n])
  }

  /** No version of an entry to be registered is, or is brought in, under another state than its own. */
  ghost predicate EntryUnaltered(hash: Hash, e: CatalogEntry, h: Option<History>, turns: Turns) {
    Unaltered(hash, h, BuildDescriptor(e)) && UnalteredTurns(hash, turns, BuildDescriptor(e))
  }

  ghost predicate AllUnaltered(hash: Hash, catalog: seq<CatalogEntry>, turns: seq<Turns>, was: map<Id, History>) {
    forall n | 0 <= n < |catalog| && !Off(At(was, catalog[n].id)) ::
      EntryUnaltered(hash, catalog[n], At(was, catalog[n].id), TurnsAt(turns, n))
  }

  lemma SparesMore(catalog: seq<CatalogEntry>, was: map<Id, History>, t: seq<Change>, u: seq<Change>,
                   from: nat, id: Id)
    requires SparesOff(catalog, was, t, from) && Extends(t, u, id) && from <= |t|
    requires Listed(catalog, id) && !Off(At(was, id))
    ensures SparesOff(catalog, was, u, from)
  {
    hide Listed, Off;
    forall k | from <= k < |u| ensures Listed(catalog, u[k].id) && !Off(At(was, u[k].id)) {
      assert k < |t| ==> u[k] == t[k];
    }
  }

  lemma ListedMore(part: seq<CatalogEntry>, e: CatalogEntry)
    ensures forall id :: Listed(part + [e], id) <==> Listed(part, id) || id == e.id
  {
    forall id ensures Listed(part + [e], id) <==> Listed(part, id) || id == e.id {
      if Listed(part, id) {
        var n :| 0 <= n < |part| && part[n].id == id;
        assert (part + [e])[n].id == id;
      }
      assert (part + [e])[|part|].id == e.id;
    }
  }

  lemma PreservesMore(part: seq<CatalogEntry>, e: CatalogEntry, was: map<Id, History>, now: map<Id, History>,
                      next: map<Id, History>, results: seq<Result>, r: Result)
    requires Preserves(part, was, now, results)
    requires OthersKept(now, next, e.id)
    requires Off(At(was, e.id)) ==> At(next, e.id) == At(now, e.id) && r == Result(e.id, Unchanged, None, Preserved)
    ensures Preserves(part + [e], was, next, results + [r])
  {
    ListedMore(part, e);
    hide Listed, Off, At;
  }

  lemma RegistersMore(hash: Hash, lands: LifecycleState -> LifecycleState, part: seq<CatalogEntry>, e: CatalogEntry,
                      turns: seq<Turns>, was: map<Id, History>, now: map<Id, History>, next: map<Id, History>,
                      results: seq<Result>, r: Result)
    requires Registers(hash, lands, part, turns, was, now, results) && !Listed(part, e.id)
    requires OthersKept(now, next, e.id)
    requires !Off(At(was, e.id)) && QuietOnceRead(TurnsAt(turns, |part|)) ==>
               QuietResult(hash, lands, FirstRead(was, e.id, TurnsAt(turns, |part|)), At(next, e.id),
                   BuildDescriptor(e), r)
    ensures Registers(hash, lands, part + [e], turns, was, next, results + [r])
  {
    assert forall n | 0 <= n < |part| :: part[n].id != e.id;
    hide Listed, Off, At, FirstRead, QuietOnceRead, QuietResult, BuildDescriptor;
  }

  lemma DistinctMeansUnlisted(catalog: seq<CatalogEntry>, i: nat)
    requires DistinctIds(catalog) && i < |catalog|
    ensures !Listed(catalog[..i], catalog[i].id)
  {
  }

  lemma PreservesUnlisted(part: seq<CatalogEntry>, was: map<Id, History>, now: map<Id, History>,
                          results: seq<Result>, id: Id)
    requires Preserves(part, was, now, results) && !Listed(part, id)
    ensures At(now, id) == At(was, id)
  {
  }

  /** What a run that found the heads `live` does with one entry: a source switched off is left
      alone, any other registered from where it is. */
  ghost predicate EntryDone(hash: Hash, lands: LifecycleState -> LifecycleState, e: CatalogEntry, turns: Turns,
                            live: map<Id, History>, now: map<Id, History>, next: map<Id, History>,
                            t: seq<Change>, u: seq<Change>, r: Result) {
    && OthersKept(now, next, e.id)
    && Extends(t, u, e.id)
    && if Off(At(live, e.id)) then
         next == now && u == t && r == Result(e.id, Unchanged, None, Preserved)
       else
         && (QuietOnceRead(turns) ==>
               QuietResult(hash, lands, FirstRead(now, e.id, turns), At(next, e.id), BuildDescriptor(e), r))
         && (EntryUnaltered(hash, e, At(now, e.id), turns) ==> LegalFrom(u, |t|))
  }

  method RegisterEntry(reg: Registry, e: CatalogEntry, live: map<Id, History>, turns: Turns) returns (r: Result)
    requires reg.Valid() && SoundTurns(reg.hash, e.id, turns) && AllSound(reg.hash, live)
    modifies reg
    ensures reg.Valid()
    ensures EntryDone(reg.hash, reg.lands, e, turns, live, old(reg.table), reg.table, old(reg.trail), reg.trail, r)
  {
    ghost var was, trail := reg.table, reg.trail;
    hide QuietOnceRead, SoundTurns, Reported, QuietResult, AllSound, Sound, reg.Valid, EntryDone, Accounted, QuietMoves,
      AllLegal, HopsAllowed, Unaltered, UnalteredTurns, OneIntruder, RaceDecided, Registering, Extends, BroughtIn;
    if e.id in live {
      SoundEntry(reg.hash, live, e.id);
    }
    EntrySkipped(reg.hash, reg.lands, e, turns, live, was, trail);
    if e.id in live && HeadState(live[e.id]) in STICKY_OFF_STATES {
      return Result(e.id, Unchanged, None, Preserved);
    }
    r := RegisterDescriptor(reg, BuildDescriptor(e), turns);
    ReportedMoves(reg.hash, reg.Entry(e.id), BuildDescriptor(e), r, trail, reg.trail);
    EntryRegistered(reg.hash, reg.lands, e, turns, live, was, reg.table, trail, reg.trail, r);
  }

  lemma ReportedMoves(hash: Hash, now: Option<History>, d: Descriptor, r: Result, t: seq<Change>, u: seq<Change>)
    requires |t| <= |u| && u[..|t|] == t && Reported(hash, now, d, r) && Accounted(u[|t|..], r)
    ensures Extends(t, u, d.id)
    ensures AllLegal(u[|t|..]) <==> LegalFrom(u, |t|)
  {
    assert forall k | |t| <= k < |u| :: u[k] == u[|t|..][k - |t|];
    assert forall k | 0 <= k < |u| - |t| :: u[|t|..][k] == u[|t| + k];
    hide Legal, Checked, Settled;
  }

  lemma EntrySkipped(hash: Hash, lands: LifecycleState -> LifecycleState, e: CatalogEntry, turns: Turns,
                     live: map<Id, History>, now: map<Id, History>, t: seq<Change>)
    requires e.id in live ==> live[e.id].head in live[e.id].rows
    ensures Off(At(live, e.id)) <==> e.id in live && HeadState(live[e.id]) in STICKY_OFF_STATES
    ensures Off(At(live, e.id)) ==>
              EntryDone(hash, lands, e, turns, live, now, now, t, t, Result(e.id, Unchanged, None, Preserved))
  {
    hide QuietOnceRead, QuietResult;
  }

  lemma EntryRegistered(hash: Hash, lands: LifecycleState -> LifecycleState, e: CatalogEntry, turns: Turns,
                        live: map<Id, History>, now: map<Id, History>, next: map<Id, History>,
                        t: seq<Change>, u: seq<Change>, r: Result)
    requires Extends(t, u, e.id) && !Off(At(live, e.id)) && OthersKept(now, next, e.id)
    requires QuietOnceRead(turns) ==>
               QuietResult(hash, lands, FirstRead(now, e.id, turns), At(next, e.id), BuildDescriptor(e), r)
    requires EntryUnaltered(hash, e, At(now, e.id), turns) ==> LegalFrom(u, |t|)
    ensures EntryDone(hash, lands, e, turns, live, now, next, t, u, r)
  {
    hide Extends, QuietOnceRead, QuietResult, Off, At, FirstRead, EntryUnaltered, LegalFrom;
  }

  lemma CatalogMoves(catalog: seq<CatalogEntry>, i: nat, was: map<Id, History>, t: seq<Change>, u: seq<Change>,
                     from: nat)
    requires i < |catalog| && SparesOff(catalog, was, t, from) && from <= |t|
    requires Extends(t, u, catalog[i].id) && (Off(At(was, catalog[i].id)) ==> u == t)
    ensures SparesOff(catalog, was, u, from) && from <= |u|
  {
    if !Off(At(was, catalog[i].id)) {
      assert Listed(catalog, catalog[i].id);
      SparesMore(catalog, was, t, u, from, catalog[i].id);
    }
  }

  ghost predicate SoundRun(hash: Hash, catalog: seq<CatalogEntry>, turns: seq<Turns>) {
    forall n | 0 <= n < |catalog| :: SoundTurns(hash, catalog[n].id, TurnsAt(turns, n))
  }

  lemma SoundRunAt(hash: Hash, catalog: seq<CatalogEntry>, turns: seq<Turns>, n: nat)
    requires SoundRun(hash, catalog, turns) && n < |catalog|
    ensures SoundTurns(hash, catalog[n].id, TurnsAt(turns, n))
  {
  }

  /** The run after `i` entries. */
  ghost predicate CatalogDone(hash: Hash, lands: LifecycleState -> LifecycleState, catalog: seq<CatalogEntry>, i: nat,
                              turns: seq<Turns>, was: map<Id, History>, now: map<Id, History>,
                              trail: seq<Change>, from: nat, results: seq<Result>) {
    && i <= |catalog| && from <= |trail|
    && SparesOff(catalog, was, trail, from)
    && Preserves(catalog[..i], was, now, results)
    && (DistinctIds(catalog) ==> Registers(hash, lands, catalog[..i], turns, was, now, results))
    && (DistinctIds(catalog) && AllUnaltered(hash, catalog, turns, was) ==> LegalFrom(trail, from))
  }

  /** What a run over the catalog did between two snapshots. */
  ghost predicate CatalogRun(hash: Hash, lands: LifecycleState -> LifecycleState, catalog: seq<CatalogEntry>,
                             turns: seq<Turns>, before: Snapshot, after: Snapshot, results: seq<Result>) {
    match (before, after)
    case (Snapshot(was, from), Snapshot(now, trail)) =>
      && |from| <= |trail|
      && SparesOff(catalog, was, trail, |from|)
      && Preserves(catalog, was, now, results)
      && (DistinctIds(catalog) ==> Registers(hash, lands, catalog, turns, was, now, results))
      && (DistinctIds(catalog) && AllUnaltered(hash, catalog, turns, was) ==> LegalFrom(trail, |from|))
  }

  lemma CatalogStarts(hash: Hash, lands: LifecycleState -> LifecycleState, catalog: seq<CatalogEntry>,
                      turns: seq<Turns>, was: map<Id, History>, trail: seq<Change>)
    ensures CatalogDone(hash, lands, catalog, 0, turns, was, was, trail, |trail|, [])
  {
    assert catalog[..0] == [];
  }

  lemma CatalogEnds(hash: Hash, lands: LifecycleState -> LifecycleState, catalog: seq<CatalogEntry>,
                    turns: seq<Turns>, was: map<Id, History>, now: map<Id, History>,
                    trail: seq<Change>, from: seq<Change>, results: seq<Result>)
    requires CatalogDone(hash, lands, catalog, |catalog|, turns, was, now, trail, |from|, results)
    ensures CatalogRun(hash, lands, catalog, turns, Snapshot(was, from), Snapshot(now, trail), results)
  {
    assert catalog[..|catalog|] == catalog;
  }

  lemma CatalogStep(hash: Hash, lands: LifecycleState -> LifecycleState, catalog: seq<CatalogEntry>, i: nat,
                    turns: seq<Turns>, was: map<Id, History>, now: map<Id, History>, next: map<Id, History>,
                    t: seq<Change>, u: seq<Change>, from: nat, results: seq<Result>, r: Result)
    requires i < |catalog| && CatalogDone(hash, lands, catalog, i, turns, was, now, t, from, results)
    requires EntryDone(hash, lands, catalog[i], TurnsAt(turns, i), was, now, next, t, u, r)
    ensures CatalogDone(hash, lands, catalog, i + 1, turns, was, next, u, from, results + [r])
  {
    var e := catalog[i];
    assert catalog[..i + 1] == catalog[..i] + [e];
    hide Extends, QuietOnceRead, QuietResult, Listed, DistinctIds, SparesOff, Preserves, Registers, Off, At, LegalFrom,
      AllUnaltered, EntryUnaltered;
    CatalogMoves(catalog, i, was, t, u, from);
    PreservesMore(catalog[..i], e, was, now, next, results, r);
    if DistinctIds(catalog) {
      DistinctMeansUnlisted(catalog, i);
      PreservesUnlisted(catalog[..i], was, now, results, e.id);
      RegistersMore(hash, lands, catalog[..i], e, turns, was, now, next, results, r);
      if AllUnaltered(hash, catalog, turns, was) && !Off(At(was, e.id)) {
        UnalteredAt(hash, catalog, turns, was, i);
        LegalMore(t, u, from, e.id);
      }
    }
  }

  lemma UnalteredAt(hash: Hash, catalog: seq<CatalogEntry>, turns: seq<Turns>, was: map<Id, History>, n: nat)
    requires AllUnaltered(hash, catalog, turns, was) && n < |catalog| && !Off(At(was, catalog[n].id))
    ensures EntryUnaltered(hash, catalog[n], At(was, catalog[n].id), TurnsAt(turns, n))
  {
  }

  lemma LegalMore(t: seq<Change>, u: seq<Change>, from: nat, id: Id)
    requires LegalFrom(t, from) && LegalFrom(u, |t|) && Extends(t, u, id)
    ensures LegalFrom(u, from)
  {
    hide Legal;
    forall k | from <= k < |u| ensures Legal(u[k]) {
      assert k < |t| ==> u[k] == t[k];
    }
  }

  /** `register_catalog`: a source found paused or retired is preserved, any other is registered. */
  method RegisterCatalog(reg: Registry, catalog: seq<CatalogEntry>, turns: seq<Turns>)
    returns (results: seq<Result>)
    requires reg.Valid() && SoundRun(reg.hash, catalog, turns)
    modifies reg
    ensures reg.Valid()
    ensures CatalogRun(reg.hash, reg.lands, catalog, turns, Snapshot(old(reg.table), old(reg.trail)),
                       Snapshot(reg.table, reg.trail), results)
  {
    assert AllSound(reg.hash, reg.table);
    hide *;
    var live := reg.table;
    ghost var from := reg.trail;
    results := [];
    var i := 0;
    CatalogStarts(reg.hash, reg.lands, catalog, turns, live, reg.trail);
    while i < |catalog|
      invariant i <= |catalog| && reg.Valid()
      invariant CatalogDone(reg.hash, reg.lands, catalog, i, turns, live, reg.table, reg.trail, |from|, results)
    {
      ghost var now, trail := reg.table, reg.trail;
      SoundRunAt(reg.hash, catalog, turns, i);
      var r := RegisterEntry(reg, catalog[i], live, TurnsAt(turns, i));
      CatalogStep(reg.hash, reg.lands, catalog, i, turns, live, now, reg.table, trail, reg.trail, |from|, results, r);
      results := results + [r];
      i := i + 1;
    }
    CatalogEnds(reg.hash, reg.lands, catalog, turns, live, reg.table, reg.trail, from, results);
  }

  /** A source whose head is paused or retired when the run starts keeps its whole history, and is reported so. */
  lemma SwitchedOffIsPreserved(hash: Hash, lands: LifecycleState -> LifecycleState, catalog: seq<CatalogEntry>,
                               turns: seq<Turns>, before: Snapshot, after: Snapshot, results: seq<Result>, n: nat)
    requires CatalogRun(hash, lands, catalog, turns, before, after, results)
    requires n < |catalog| && catalog[n].id in before.table
    requires var h := before.table[catalog[n].id];
             h.head in h.rows && (h.rows[h.head].state == Paused || h.rows[h.head].state == Retired)
    ensures catalog[n].id in after.table && after.table[catalog[n].id] == before.table[catalog[n].id]
    ensures n < |results| && results[n] == Result(catalog[n].id, Unchanged, None, Preserved)
    ensures forall k | |before.trail| <= k < |after.trail| :: after.trail[k].id != catalog[n].id
  {
    assert Off(At(before.table, catalog[n].id));
    hide Registers, AllUnaltered, LegalFrom, Listed;
  }

  /** Every other source of the catalog that nobody interferes with ends active at its declared document, and is
      reported as what was done to it, as long as no version of it is stored under another state than its own and the
      registry does not land it retired. */
  lemma OthersEndActive(hash: Hash, lands: LifecycleState -> LifecycleState, catalog: seq<CatalogEntry>,
                        turns: seq<Turns>, before: Snapshot, after: Snapshot, results: seq<Result>, n: nat)
    requires Injective(hash) && CatalogRun(hash, lands, catalog, turns, before, after, results) && DistinctIds(catalog)
    requires n < |catalog| && Quiet(TurnsAt(turns, n))
    requires var e := catalog[n];
             if e.id in before.table then
               var h := before.table[e.id];
               && Sound(hash, e.id, h)
               && h.rows[h.head].state != Paused && h.rows[h.head].state != Retired
               && forall v | v in h.rows && h.rows[v].content.body == e.body ::
                    h.rows[v].state == h.rows[v].content.state
             else lands(Active) != Retired
    ensures var e := catalog[n];
            var v := hash(Descriptor(e.id, Active, e.body));
            && e.id in after.table && after.table[e.id].head == v
            && v in after.table[e.id].rows && after.table[e.id].rows[v].state == Active
            && results[n].version == Some(v) && results[n].id == e.id
            && results[n].action == (if e.id !in before.table then Registered
                                     else if before.table[e.id].head == v then Unchanged else Updated)
  {
    var e := catalog[n];
    var d, was, turned := Descriptor(e.id, Active, e.body), At(before.table, e.id), TurnsAt(turns, n);
    assert TurnAt(turned, 0) == QUIET && QuietOnceRead(turned);
    assert !Off(was) && FirstRead(before.table, e.id, turned) == was;
    assert QuietResult(hash, lands, was, At(after.table, e.id), d, results[n]);
    assert Unaltered(hash, was, d);
    hide CatalogRun, Off, FirstRead, Quiet, QuietOnceRead, QuietResult, Unaltered, Stale;
    RegistrationSettles(hash, lands, was, At(after.table, e.id), d, results[n]);
    ActionsAre(hash, lands, was, At(after.table, e.id), d, results[n]);
  }

  lemma ActionsAre(hash: Hash, lands: LifecycleState -> LifecycleState, was: Option<History>, now: Option<History>,
                   d: Descriptor, r: Result)
    requires QuietResult(hash, lands, was, now, d, r) && r.action != Failed
    ensures r.id == d.id && (r.action == Registered <==> was.None?)
  {
    hide Landings, Walked, Steps, CanBecome, Settled;
  }

  /** A source that somebody switches off between the bulk read and its own turn: registered all the same, it is
      active again exactly when it was paused and the declared version is not stored under another state.
      A retired head stays, and so does a head that is the declared version itself. */
  lemma LateSwitchOff(hash: Hash, g: History, h: History, d: Descriptor, r: Result)
    requires Off(Some(g)) && d.state == Active && QuietReregistration(hash, g, h, d, r)
    ensures h.head in h.rows
    ensures HeadState(h) == Active <==> HeadState(g) == Paused && !Stale(hash, g, d)
    ensures HeadState(g) == Retired ==> h == g && r == Result(d.id, Failed, Some(g.head), NoLegalPath)
    ensures HeadState(g) == Paused ==> h == Superseded(hash, g, d) && r == Result(d.id, Updated, Some(hash(d)), Plain)
    ensures HeadState(g) == Paused && g.head == hash(d) ==> h == g
  {
    if HeadState(g) == Paused {
      assert Steps(Paused, Active) == [Active];
      UpdateCompletes(hash, g, h, d, r);
      SingleStep(hash, g, h, d, r);
      UpdatedReachesDeclaredState(hash, g, h, d, r);
    }
    hide Landings, Walked;
  }

  /** The same for an entry of a run over the catalog. */
  lemma GuardSeesBulkReadOnly(hash: Hash, lands: LifecycleState -> LifecycleState, catalog: seq<CatalogEntry>,
                              turns: seq<Turns>, before: Snapshot, after: Snapshot, results: seq<Result>,
                              n: nat, g: History)
    requires CatalogRun(hash, lands, catalog, turns, before, after, results) && DistinctIds(catalog)
    requires n < |catalog| && !Off(At(before.table, catalog[n].id)) && QuietOnceRead(TurnsAt(turns, n))
    requires TurnAt(TurnsAt(turns, n), 0).arrives == Some(g) && Off(Some(g))
    ensures var h := At(after.table, catalog[n].id);
            && h.Some? && h.value.head in h.value.rows
            && (HeadState(h.value) == Active <==>
                  HeadState(g) == Paused && !Stale(hash, g, BuildDescriptor(catalog[n])))
  {
    var d := BuildDescriptor(catalog[n]);
    assert FirstRead(before.table, catalog[n].id, TurnsAt(turns, n)) == Some(g);
    LateSwitchOff(hash, g, At(after.table, catalog[n].id).value, d, results[n]);
    hide QuietReregistration, QuietOnceRead, Listed;
  }

  /** An active head of an older document, paused right after the bulk read: the run inserts the new document,
      active, over it. */
  lemma PausedSourceIsRevived(hash: Hash, lands: LifecycleState -> LifecycleState, e: CatalogEntry, prior: Descriptor,
                              after: Snapshot, results: seq<Result>)
    requires Injective(hash) && prior.id == e.id && prior.body != e.body && prior.state == Active
    requires var live := History(map[hash(prior) := Row(Active, prior)], hash(prior));
             var paused := History(map[hash(prior) := Row(Paused, prior)], hash(prior));
             CatalogRun(hash, lands, [e], [[Turn(Some(paused), None, NoFault)]], Snapshot(map[e.id := live], []), after,
                        results)
    ensures var h := At(after.table, e.id);
            h.Some? && h.value.head in h.value.rows && HeadState(h.value) == Active
  {
    var paused := History(map[hash(prior) := Row(Paused, prior)], hash(prior));
    var live := History(map[hash(prior) := Row(Active, prior)], hash(prior));
    var turns := [[Turn(Some(paused), None, NoFault)]];
    assert hash(prior) != hash(BuildDescriptor(e));
    assert QuietOnceRead(TurnsAt(turns, 0));
    GuardSeesBulkReadOnly(hash, lands, [e], turns, Snapshot(map[e.id := live], []), after, results, 0, paused);
    hide CatalogRun;
  }
}
