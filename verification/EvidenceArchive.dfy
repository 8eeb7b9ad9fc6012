/** The 1:1 archive sidecar of the collapse: a survivor without an archive row inherits the best one
    among its losers, every other row stays where it is. */
module EvidenceArchive {
  import opened Ordering
  import opened Repoint

  /** A signal uuid; their order is the order of the integers they denote. */
  type Id = int

  datatype ArchiveRow = ArchiveRow(status: string, archivedAt: Option<int>, objectRef: string)

  const ARCHIVED := "archived"

  /** `(status = 'archived') DESC, archived_at DESC NULLS LAST, signal_id`. */
  predicate Preferred(archive: map<Id, ArchiveRow>, x: Id, y: Id) {
    x in archive && y in archive &&
    var (a, b) := (archive[x], archive[y]);
    if (a.status == ARCHIVED) != (b.status == ARCHIVED) then a.status == ARCHIVED
    else if a.archivedAt != b.archivedAt then
      b.archivedAt.None? || (a.archivedAt.Some? && a.archivedAt.value > b.archivedAt.value)
    else x < y
  }

  function ByPreference(archive: map<Id, ArchiveRow>): (Id, Id) -> bool {
    (x, y) => Preferred(archive, x, y)
  }

  lemma ByPreferenceIsTotal(archive: map<Id, ArchiveRow>, s: set<Id>)
    requires s <= archive.Keys
    ensures StrictTotalOn(ByPreference(archive), s)
  {
  }

  /** The partition of `survivor` in the candidate query. */
  function Candidates(archive: map<Id, ArchiveRow>, m: map<Id, Id>, survivor: Id): set<Id> {
    set l | l in archive && l in m && m[l] == survivor && survivor !in archive
  }

  function Winner(archive: map<Id, ArchiveRow>, m: map<Id, Id>, survivor: Id): (w: Id)
    requires Candidates(archive, m, survivor) != {}
    ensures w in Candidates(archive, m, survivor)
  {
    ByPreferenceIsTotal(archive, Candidates(archive, m, survivor));
    Least(ByPreference(archive), Candidates(archive, m, survivor))
  }

  predicate Moves(archive: map<Id, ArchiveRow>, m: map<Id, Id>, l: Id) {
    l in m && l in Candidates(archive, m, m[l]) && Winner(archive, m, m[l]) == l
  }

  /** Where the row of signal `k` is after the update. */
  function NewPlace(archive: map<Id, ArchiveRow>, m: map<Id, Id>, k: Id): Id {
    if Moves(archive, m, k) then m[k] else k
  }

  function Receivers(archive: map<Id, ArchiveRow>, m: map<Id, Id>): set<Id> {
    set l | l in m && Candidates(archive, m, m[l]) != {} :: m[l]
  }

  /** `UPDATE evidence_archive SET signal_id = survivor ... WHERE rn = 1`. */
  function ArchiveMoved(archive: map<Id, ArchiveRow>, m: map<Id, Id>): map<Id, ArchiveRow> {
    map k | k in archive.Keys + Receivers(archive, m) && !Moves(archive, m, k) ::
      if k in archive then archive[k] else archive[ReceivedFrom(archive, m, k)]
  }

  function ReceivedFrom(archive: map<Id, ArchiveRow>, m: map<Id, Id>, survivor: Id): (l: Id)
    requires survivor in Receivers(archive, m)
    ensures l in archive && Moves(archive, m, l) && m[l] == survivor
  {
    Winner(archive, m, survivor)
  }

  lemma MovedAt(archive: map<Id, ArchiveRow>, m: map<Id, Id>, k: Id)
    requires m.Keys !! m.Values && k in archive
    ensures NewPlace(archive, m, k) in ArchiveMoved(archive, m)
    ensures ArchiveMoved(archive, m)[NewPlace(archive, m, k)] == archive[k]
  {
    if Moves(archive, m, k) {
      var s := m[k];
      assert s in m.Values;
      assert s in Receivers(archive, m) && ReceivedFrom(archive, m, s) == k;
    }
  }

  lemma PlacesDistinct(archive: map<Id, ArchiveRow>, m: map<Id, Id>, k: Id, l: Id)
    requires k in archive && l in archive && k != l
    ensures NewPlace(archive, m, k) != NewPlace(archive, m, l)
  {
  }

  lemma MovedFrom(archive: map<Id, ArchiveRow>, m: map<Id, Id>, k: Id) returns (l: Id)
    requires k in ArchiveMoved(archive, m)
    ensures l in archive && NewPlace(archive, m, l) == k
  {
    l := if k in archive then k else ReceivedFrom(archive, m, k);
  }

  /** No archive row is dropped or copied, its contents are never rewritten, and no two rows ever
      meet at one signal: the update is a renaming of the table. */
  lemma ArchiveConserved(archive: map<Id, ArchiveRow>, m: map<Id, Id>)
    requires m.Keys !! m.Values
    ensures forall k | k in archive ::
              NewPlace(archive, m, k) in ArchiveMoved(archive, m)
                  && ArchiveMoved(archive, m)[NewPlace(archive, m, k)] == archive[k]
    ensures forall k, l | k in archive && l in archive && k != l :: NewPlace(archive, m, k) != NewPlace(archive, m, l)
    ensures |ArchiveMoved(archive, m)| == |archive|
  {
    forall k | k in archive
      ensures NewPlace(archive, m, k) in ArchiveMoved(archive, m)
              && ArchiveMoved(archive, m)[NewPlace(archive, m, k)] == archive[k]
    {
      MovedAt(archive, m, k);
    }
    forall k, l | k in archive && l in archive && k != l ensures NewPlace(archive, m, k) != NewPlace(archive, m, l) {
      PlacesDistinct(archive, m, k, l);
    }
    PlacesSize(archive, m);
    PlacesAre(archive, m);
  }

  function Places(archive: map<Id, ArchiveRow>, m: map<Id, Id>): set<Id> {
    set k | k in archive.Keys :: NewPlace(archive, m, k)
  }

  lemma PlacesSize(archive: map<Id, ArchiveRow>, m: map<Id, Id>)
    ensures |Places(archive, m)| == |archive|
  {
    var f := (k: Id) => NewPlace(archive, m, k);
    forall k, l | k in archive.Keys && l in archive.Keys && k != l ensures f(k) != f(l) {
      PlacesDistinct(archive, m, k, l);
    }
    InjectiveImageSize(archive.Keys, f, Places(archive, m));
  }

  lemma PlacesAre(archive: map<Id, ArchiveRow>, m: map<Id, Id>)
    requires m.Keys !! m.Values
    ensures ArchiveMoved(archive, m).Keys == Places(archive, m)
  {
    forall k ensures k in ArchiveMoved(archive, m) <==> k in Places(archive, m) {
      if k in ArchiveMoved(archive, m) {
        var l := MovedFrom(archive, m, k);
      }
      if l :| l in archive && NewPlace(archive, m, l) == k {
        MovedAt(archive, m, l);
      }
    }
  }

  /** Who receives what: only a survivor that had no row, at most one row, and the row it gets beats
      every other candidate; every other loser row is left in place. */
  lemma ArchiveElection(archive: map<Id, ArchiveRow>, m: map<Id, Id>, l: Id)
    requires m.Keys !! m.Values && l in m && l in archive
    ensures m[l] in archive ==> !Moves(archive, m, l) && ArchiveMoved(archive, m)[m[l]] == archive[m[l]]
    ensures m[l] !in archive ==>
              && m[l] in Receivers(archive, m)
              && ArchiveMoved(archive, m)[m[l]] == archive[ReceivedFrom(archive, m, m[l])]
              && (Moves(archive, m, l) <==> l == ReceivedFrom(archive, m, m[l]))
              && (Moves(archive, m, l) || Preferred(archive, ReceivedFrom(archive, m, m[l]), l))
    ensures !Moves(archive, m, l) ==> l in ArchiveMoved(archive, m) && ArchiveMoved(archive, m)[l] == archive[l]
  {
    var s := m[l];
    assert s in m.Values;
    if s !in archive {
      assert l in Candidates(archive, m, s);
      var w := Winner(archive, m, s);
      ByPreferenceIsTotal(archive, Candidates(archive, m, s));
      assert IsLeast(ByPreference(archive), Candidates(archive, m, s), w);
      MovedAt(archive, m, w);
    }
  }

  /** Re-pointed rows and rows left in place add up to the loser rows there were. */
  lemma ArchiveCounts(archive: map<Id, ArchiveRow>, m: map<Id, Id>)
    requires m.Keys !! m.Values
    ensures |MovedRows(archive, m)| + RowsAmong(ArchiveMoved(archive, m), m.Keys) == RowsAmong(archive, m.Keys)
  {
    var moved := MovedRows(archive, m);
    var left := ArchiveMoved(archive, m).Keys * m.Keys;
    forall l | l in left ensures l in archive && !Moves(archive, m, l) {
      ReceiversAreSurvivors(archive, m);
    }
    assert moved !! left;
    assert moved + left == archive.Keys * m.Keys;
  }

  function MovedRows(archive: map<Id, ArchiveRow>, m: map<Id, Id>): set<Id> {
    set l | l in archive && Moves(archive, m, l)
  }

  lemma ReceiverHasCandidate(archive: map<Id, ArchiveRow>, m: map<Id, Id>, s: Id)
    ensures s in Receivers(archive, m) <==> Candidates(archive, m, s) != {}
  {
    if Candidates(archive, m, s) != {} {
      var l := Member(Candidates(archive, m, s));
      assert m[l] == s;
    }
  }

  lemma ReceiversAreSurvivors(archive: map<Id, ArchiveRow>, m: map<Id, Id>)
    ensures Receivers(archive, m) <= m.Values
    ensures forall s | s in Receivers(archive, m) :: s !in archive
  {
  }

  lemma MoversAreLosers(archive: map<Id, ArchiveRow>, m: map<Id, Id>)
    ensures forall k | Moves(archive, m, k) :: k in m && k in archive
  {
  }

  // Batches over separate groups do not see each other's archive rows.

  predicate Apart(m1: map<Id, Id>, m2: map<Id, Id>) {
    m1.Keys !! m2.Keys && m1.Values !! m2.Keys && m1.Keys !! m2.Values && m1.Values !! m2.Values
  }

  lemma CandidatesSplit(archive: map<Id, ArchiveRow>, m1: map<Id, Id>, m2: map<Id, Id>, s: Id)
    requires Apart(m1, m2)
    ensures Candidates(archive, m1 + m2, s) == Candidates(archive, if s in m2.Values then m2 else m1, s)
  {
    forall l | l in m1 ensures m1[l] in m1.Values {
    }
    forall l | l in m2 ensures m2[l] in m2.Values {
    }
  }

  lemma MovesSplit(archive: map<Id, ArchiveRow>, m1: map<Id, Id>, m2: map<Id, Id>, k: Id)
    requires Apart(m1, m2)
    ensures Moves(archive, m1 + m2, k) == (Moves(archive, m1, k) || Moves(archive, m2, k))
  {
    if k in m1 + m2 {
      var s := (m1 + m2)[k];
      assert if k in m2 then s in m2.Values else s in m1.Values;
      CandidatesSplit(archive, m1, m2, s);
    }
  }

  /** Archives that agree on the ids of a batch agree on what the batch moves. */
  lemma CandidatesLocal(a: map<Id, ArchiveRow>, b: map<Id, ArchiveRow>, m: map<Id, Id>, s: Id)
    requires s in m.Values
    requires forall k | k in m.Keys + m.Values :: (k in a) == (k in b) && (k in a ==> a[k] == b[k])
    ensures Candidates(a, m, s) == Candidates(b, m, s)
    ensures Candidates(a, m, s) != {} ==> Winner(a, m, s) == Winner(b, m, s)
  {
    forall l | l in m ensures l in m.Keys + m.Values {
    }
    assert s in m.Keys + m.Values;
    var c := Candidates(a, m, s);
    forall l ensures l in c <==> l in Candidates(b, m, s) {
      assert l in m ==> l in m.Keys + m.Values;
    }
    if c != {} {
      ByPreferenceIsTotal(a, c);
      ByPreferenceIsTotal(b, c);
      LeastIs(ByPreference(b), c, Winner(a, m, s));
    }
  }

  lemma ReceiversSplit(archive: map<Id, ArchiveRow>, m1: map<Id, Id>, m2: map<Id, Id>)
    requires Apart(m1, m2)
    ensures Receivers(archive, m1 + m2) == Receivers(archive, m1) + Receivers(archive, m2)
    ensures forall s | s in Receivers(archive, m1) :: ReceivedFrom(archive, m1 + m2, s) == ReceivedFrom(archive, m1, s)
    ensures forall s | s in Receivers(archive, m2) :: ReceivedFrom(archive, m1 + m2, s) == ReceivedFrom(archive, m2, s)
  {
    var m := m1 + m2;
    forall s ensures s in Receivers(archive, m) <==> Candidates(archive, m, s) != {} {
      ReceiverHasCandidate(archive, m, s);
    }
    forall s ensures s in Receivers(archive, m1) <==> Candidates(archive, m1, s) != {} {
      ReceiverHasCandidate(archive, m1, s);
    }
    forall s ensures s in Receivers(archive, m2) <==> Candidates(archive, m2, s) != {} {
      ReceiverHasCandidate(archive, m2, s);
    }
    forall s ensures Candidates(archive, m, s) == Candidates(archive, m1, s) + Candidates(archive, m2, s) {
    }
    ReceiversAreSurvivors(archive, m1);
    ReceiversAreSurvivors(archive, m2);
    forall s | s in m1.Values + m2.Values ensures Candidates(archive, m, s) ==
        Candidates(archive, if s in m2.Values then m2 else m1, s) {
      CandidatesSplit(archive, m1, m2, s);
    }
  }

  lemma BatchLocal(a: map<Id, ArchiveRow>, b: map<Id, ArchiveRow>, m: map<Id, Id>)
    requires forall k | k in m.Keys + m.Values :: (k in a) == (k in b) && (k in a ==> a[k] == b[k])
    ensures forall k :: Moves(a, m, k) == Moves(b, m, k)
    ensures Receivers(a, m) == Receivers(b, m)
    ensures forall s | s in Receivers(a, m) :: ReceivedFrom(a, m, s) == ReceivedFrom(b, m, s)
  {
    forall s | s in m.Values
      ensures Candidates(a, m, s) == Candidates(b, m, s)
      ensures Candidates(a, m, s) != {} ==> Winner(a, m, s) == Winner(b, m, s)
    {
      CandidatesLocal(a, b, m, s);
    }
    forall l | l in m ensures m[l] in m.Values {
    }
  }

  lemma ArchiveCompose(archive: map<Id, ArchiveRow>, m1: map<Id, Id>, m2: map<Id, Id>)
    requires Apart(m1, m2)
    ensures ArchiveMoved(ArchiveMoved(archive, m1), m2) == ArchiveMoved(archive, m1 + m2)
  {
    hide Candidates, Winner, Moves, Receivers, ReceivedFrom;
    var mid := ArchiveMoved(archive, m1);
    ReceiversAreSurvivors(archive, m1);
    MoversAreLosers(archive, m1);
    MoversAreLosers(archive, m2);
    BatchLocal(archive, mid, m2);
    ReceiversAreSurvivors(archive, m2);
    ReceiversSplit(archive, m1, m2);
    forall k ensures Moves(archive, m1 + m2, k) == (Moves(archive, m1, k) || Moves(mid, m2, k)) {
      MovesSplit(archive, m1, m2, k);
    }
    var whole := ArchiveMoved(archive, m1 + m2);
    var twice := ArchiveMoved(mid, m2);
    assert whole.Keys == twice.Keys;
    forall k | k in whole ensures whole[k] == twice[k] {
    }
  }
}
