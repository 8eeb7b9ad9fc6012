/** One batch of the duplicate collapse: every reference to a loser is moved to its survivor, then the
    losers are deleted. The tables a batch touches are the fields of `Database`. */
module CollapseBatch {
  import opened Ordering
  import opened Repoint
  import opened ArrayRepoint
  import opened EvidenceArchive

  /** An absent `object_ref` or one that is empty reads as the empty text. */
  datatype Signal = Signal(source: string, hash: string, tenant: string, fetchedAt: int, retention: string,
                           canonical: Option<Id>, objectRef: string)

  datatype LinkKey = LinkKey(signal: Id, entity: Id, role: string)
  datatype LinkRow = LinkRow(confidence: real, analyst: string, createdAt: int)

  datatype AliasKey = AliasKey(aliasSignal: Id, canonicalSignal: Id)
  datatype AliasRow = AliasRow(reason: string, score: Option<real>, producedAt: int)

  /** The nine `uuid[]` columns that can carry signal ids. */
  datatype ArrayRef =
    | SignalsDerivedFrom | FactsDerivedFrom | AnalystOutputsDerivedFrom | HypothesesDerivedFrom
    | ProposedEdgesDerivedFrom | SituationsDerivedFrom | EntityProfilesDerivedFrom | NexusesDerivedFrom
    | NexusesSourceSignalIds

  const ARRAY_REFS: seq<ArrayRef> := [
    SignalsDerivedFrom, FactsDerivedFrom, AnalystOutputsDerivedFrom, HypothesesDerivedFrom,
    ProposedEdgesDerivedFrom, SituationsDerivedFrom, EntityProfilesDerivedFrom, NexusesDerivedFrom,
    NexusesSourceSignalIds
  ]

  function Rank(r: ArrayRef): (i: nat)
    ensures i < |ARRAY_REFS| && ARRAY_REFS[i] == r
  {
    match r
    case SignalsDerivedFrom => 0
    case FactsDerivedFrom => 1
    case AnalystOutputsDerivedFrom => 2
    case HypothesesDerivedFrom => 3
    case ProposedEdgesDerivedFrom => 4
    case SituationsDerivedFrom => 5
    case EntityProfilesDerivedFrom => 6
    case NexusesDerivedFrom => 7
    case NexusesSourceSignalIds => 8
  }

  lemma Listed(i: nat)
    requires i < |ARRAY_REFS|
    ensures Rank(ARRAY_REFS[i]) == i
  {
    assert i == 0 || i == 1 || i == 2 || i == 3 || i == 4 || i == 5 || i == 6 || i == 7 || i == 8;
  }

  lemma RankIs(r: ArrayRef)
    ensures forall s: ArrayRef :: Rank(s) == Rank(r) <==> s == r
  {
  }

  /** The value of one array column in the row `row` of its table. */
  datatype Cell = Cell(column: ArrayRef, row: Id)

  datatype Tombstone = Tombstone(index: string, reason: string)

  const COLLAPSE_REASON := "intrasource_collapse"

  datatype Tables = Tables(signals: map<Id, Signal>, links: map<LinkKey, LinkRow>, aliases: map<AliasKey, AliasRow>,
                           arrays: map<Cell, seq<Id>>, archive: map<Id, ArchiveRow>, tombstones: map<Id, Tombstone>)

  // What each statement does, value by value. `m` is the batch map, loser to survivor.

  predicate Substitution(m: map<Id, Id>) {
    m.Keys !! m.Values
  }

  function MoveLink(m: map<Id, Id>): LinkKey -> LinkKey {
    (k: LinkKey) => k.(signal := Substitute(m, k.signal))
  }

  function KeepLink(): LinkKey -> bool {
    (k: LinkKey) => true
  }

  function MoveAlias(m: map<Id, Id>): AliasKey -> AliasKey {
    (k: AliasKey) => AliasKey(Substitute(m, k.aliasSignal), Substitute(m, k.canonicalSignal))
  }

  predicate TouchesAlias(m: map<Id, Id>, k: AliasKey) {
    k.aliasSignal in m || k.canonicalSignal in m
  }

  /** A re-pointed pair is dropped when it became a self-pair; an old self-pair of a kept row stays. */
  function KeepAlias(m: map<Id, Id>): AliasKey -> bool {
    (k: AliasKey) => TouchesAlias(m, k) ==> Substitute(m, k.aliasSignal) != Substitute(m, k.canonicalSignal)
  }

  function MoveCanonical(m: map<Id, Id>, id: Id, canonical: Option<Id>): Option<Id> {
    if canonical.Some? && canonical.value in m then
      if id == m[canonical.value] then None else Some(m[canonical.value])
    else canonical
  }

  function CanonicalMoved(signals: map<Id, Signal>, m: map<Id, Id>): map<Id, Signal> {
    map i | i in signals :: signals[i].(canonical := MoveCanonical(m, i, signals[i].canonical))
  }

  function ColumnMoved(arrays: map<Cell, seq<Id>>, column: ArrayRef, m: map<Id, Id>): map<Cell, seq<Id>> {
    map c | c in arrays :: if c.column == column then RepointArray(m, arrays[c]) else arrays[c]
  }

  function ColumnsMoved(arrays: map<Cell, seq<Id>>, m: map<Id, Id>): map<Cell, seq<Id>> {
    map c | c in arrays :: RepointArray(m, arrays[c])
  }

  /** The arrays of a deleted signal row go with the row. */
  function LoserArraysDropped(arrays: map<Cell, seq<Id>>, m: map<Id, Id>): map<Cell, seq<Id>> {
    map c | c in arrays && !(c.column == SignalsDerivedFrom && c.row in m) :: arrays[c]
  }

  /** The content address mirrored onto a survivor that had none. */
  function MirroredRef(archive: map<Id, ArchiveRow>, m: map<Id, Id>, id: Id, objectRef: string): string {
    if id in m.Values && id in archive && objectRef == "" then archive[id].objectRef else objectRef
  }

  function Mirrored(signals: map<Id, Signal>, archive: map<Id, ArchiveRow>, m: map<Id, Id>): map<Id, Signal> {
    map i | i in signals :: signals[i].(objectRef := MirroredRef(archive, m, i, signals[i].objectRef))
  }

  function SignalsAfter(signals: map<Id, Signal>, archive: map<Id, ArchiveRow>, m: map<Id, Id>): map<Id, Signal> {
    Mirrored(CanonicalMoved(signals, m), archive, m) - m.Keys
  }

  function TombstonesAfter(tombstones: map<Id, Tombstone>, index: string, m: map<Id, Id>): map<Id, Tombstone> {
    (map i | i in m.Keys :: Tombstone(index, COLLAPSE_REASON)) + tombstones
  }

  /** The effect of one batch. Links and aliases are a relation, not a function: when several losers
      carry the same link, which row's contents survive depends on the order rows are read in. */
  ghost predicate Collapsed(t: Tables, u: Tables, index: string, m: map<Id, Id>) {
    && Repointed(t.links, u.links, MoveLink(m), KeepLink())
    && Repointed(t.aliases, u.aliases, MoveAlias(m), KeepAlias(m))
    && u.arrays == LoserArraysDropped(ColumnsMoved(t.arrays, m), m)
    && u.archive == ArchiveMoved(t.archive, m)
    && u.signals == SignalsAfter(t.signals, u.archive, m)
    && u.tombstones == TombstonesAfter(t.tombstones, index, m)
  }

  lemma SignalIdsKept(signals: map<Id, Signal>, archive: map<Id, ArchiveRow>, m: map<Id, Id>)
    ensures Mirrored(CanonicalMoved(signals, m), archive, m).Keys == signals.Keys
    ensures RowsAmong(Mirrored(CanonicalMoved(signals, m), archive, m), m.Keys) == RowsAmong(signals, m.Keys)
  {
  }

  lemma CollapsedByParts(t: Tables, u: Tables, index: string, m: map<Id, Id>)
    requires Repointed(t.links, u.links, MoveLink(m), KeepLink())
    requires Repointed(t.aliases, u.aliases, MoveAlias(m), KeepAlias(m))
    requires u.arrays == LoserArraysDropped(ColumnsMoved(t.arrays, m), m)
    requires u.archive == ArchiveMoved(t.archive, m)
    requires u.signals == SignalsAfter(t.signals, u.archive, m)
    requires u.tombstones == TombstonesAfter(t.tombstones, index, m)
    ensures Collapsed(t, u, index, m)
  {
  }

  datatype BatchCounts = BatchCounts(linksRepointed: nat, aliasesRepointed: nat, archiveRepointed: nat,
                                     archiveLeftInPlace: nat, signalsDeleted: nat)

  class Database {
    var signals: map<Id, Signal>
    var links: map<LinkKey, LinkRow>
    var aliases: map<AliasKey, AliasRow>
    var arrays: map<Cell, seq<Id>>
    var archive: map<Id, ArchiveRow>
    var tombstones: map<Id, Tombstone>

    ghost function Snapshot(): Tables
      reads this
    {
      Tables(signals, links, aliases, arrays, archive, tombstones)
    }

    method RepointLinks(m: map<Id, Id>) returns (inserted: nat)
      requires Substitution(m)
      modifies this`links
      ensures Repointed(old(links), links, MoveLink(m), KeepLink())
      ensures inserted == RowsAdded(old(links), links)
    {
      MovedLinksAvoidLosers(links, m);
      links, inserted := MoveTouchedRows(links, (k: LinkKey) => k.signal in m, MoveLink(m), KeepLink());
    }

    method RepointAliases(m: map<Id, Id>) returns (inserted: nat)
      requires Substitution(m)
      modifies this`aliases
      ensures Repointed(old(aliases), aliases, MoveAlias(m), KeepAlias(m))
      ensures inserted == RowsAdded(old(aliases), aliases)
    {
      MovedAliasesAvoidLosers(aliases, m);
      aliases, inserted := MoveTouchedRows(aliases, (k: AliasKey) => TouchesAlias(m, k), MoveAlias(m), KeepAlias(m));
    }

    method RepointArrays(m: map<Id, Id>)
      modifies this`arrays
      ensures arrays == ColumnsMoved(old(arrays), m)
    {
      for i := 0 to |ARRAY_REFS|
        invariant arrays.Keys == old(arrays).Keys
        invariant forall c | c in arrays ::
            arrays[c] == if Rank(c.column) < i then RepointArray(m, old(arrays)[c]) else old(arrays)[c]
      {
        hide RepointArray, Rank;
        Listed(i);
        RankIs(ARRAY_REFS[i]);
        arrays := ColumnMoved(arrays, ARRAY_REFS[i], m);
      }
    }

    method MoveArchive(m: map<Id, Id>) returns (repointed: nat, leftInPlace: nat)
      requires Substitution(m)
      modifies this`archive, this`signals
      ensures archive == ArchiveMoved(old(archive), m)
      ensures signals == Mirrored(old(signals), archive, m)
      ensures repointed + leftInPlace == RowsAmong(old(archive), m.Keys)
      ensures leftInPlace == RowsAmong(archive, m.Keys)
    {
      ArchiveCounts(archive, m);
      repointed := |MovedRows(archive, m)|;
      archive := ArchiveMoved(archive, m);
      signals := Mirrored(signals, archive, m);
      leftInPlace := RowsAmong(archive, m.Keys);
    }

    method DeleteLosers(m: map<Id, Id>, index: string) returns (deleted: nat)
      modifies this`signals, this`arrays, this`tombstones
      ensures signals == old(signals) - m.Keys
      ensures arrays == LoserArraysDropped(old(arrays), m)
      ensures tombstones == TombstonesAfter(old(tombstones), index, m)
      ensures deleted == RowsAmong(old(signals), m.Keys)
    {
      deleted := RowsAmong(signals, m.Keys);
      signals := signals - m.Keys;
      arrays := LoserArraysDropped(arrays, m);
      tombstones := TombstonesAfter(tombstones, index, m);
    }

    /** One transaction over one batch. */
    method ApplyBatch(m: map<Id, Id>, index: string) returns (counts: BatchCounts)
      requires Substitution(m)
      modifies this
      ensures Collapsed(old(Snapshot()), Snapshot(), index, m)
      ensures counts.archiveRepointed + counts.archiveLeftInPlace == RowsAmong(old(archive), m.Keys)
      ensures counts.archiveLeftInPlace == RowsAmong(archive, m.Keys)
      ensures counts.signalsDeleted == RowsAmong(old(signals), m.Keys)
      ensures counts.linksRepointed == RowsAdded(old(links), links)
      ensures counts.aliasesRepointed == RowsAdded(old(aliases), aliases)
    {
      hide Repointed, MoveLink, KeepLink, MoveAlias, KeepAlias, CanonicalMoved, ColumnsMoved, LoserArraysDropped,
           ArchiveMoved, Mirrored, TombstonesAfter, Collapsed, RowsAdded, RowsAmong;
      ghost var t := Snapshot();
      var linksRepointed := RepointLinks(m);
      var aliasesRepointed := RepointAliases(m);
      signals := CanonicalMoved(signals, m);
      RepointArrays(m);
      var archiveRepointed, archiveLeft := MoveArchive(m);
      var deleted := DeleteLosers(m, index);
      SignalIdsKept(t.signals, archive, m);
      CollapsedByParts(t, Snapshot(), index, m);
      counts := BatchCounts(linksRepointed, aliasesRepointed, archiveRepointed, archiveLeft, deleted);
    }
  }

  lemma SubstituteAvoidsLosers(m: map<Id, Id>, x: Id)
    requires Substitution(m)
    ensures Substitute(m, x) !in m
  {
    if x in m {
      assert m[x] in m.Values;
    }
  }

  lemma MovedLinksAvoidLosers(links: map<LinkKey, LinkRow>, m: map<Id, Id>)
    requires Substitution(m)
    ensures forall k | k in links :: MoveLink(m)(k).signal !in m
  {
    forall k | k in links ensures MoveLink(m)(k).signal !in m {
      SubstituteAvoidsLosers(m, k.signal);
    }
  }

  lemma MovedAliasesAvoidLosers(aliases: map<AliasKey, AliasRow>, m: map<Id, Id>)
    requires Substitution(m)
    ensures forall k | k in aliases :: !TouchesAlias(m, MoveAlias(m)(k))
  {
    forall k | k in aliases ensures !TouchesAlias(m, MoveAlias(m)(k)) {
      SubstituteAvoidsLosers(m, k.aliasSignal);
      SubstituteAvoidsLosers(m, k.canonicalSignal);
    }
  }
}
