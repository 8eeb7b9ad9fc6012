/** What a collapse keeps and what it promises, for one batch and for batches in a row. */
module CollapseLaws {
  import opened Ordering
  import opened Repoint
  import opened ArrayRepoint
  import opened EvidenceArchive
  import opened CollapseBatch

  lemma LinksCompose(a: map<LinkKey, LinkRow>, b: map<LinkKey, LinkRow>, c: map<LinkKey, LinkRow>,
                     m1: map<Id, Id>, m2: map<Id, Id>)
    requires Apart(m1, m2)
    requires Repointed(a, b, MoveLink(m1), KeepLink()) && Repointed(b, c, MoveLink(m2), KeepLink())
    ensures Repointed(a, c, MoveLink(m1 + m2), KeepLink())
  {
    forall k: LinkKey
      ensures MoveLink(m1 + m2)(k) == MoveLink(m2)(MoveLink(m1)(k))
      ensures MoveLink(m1 + m2)(k) == k ==> MoveLink(m1)(k) == k
    {
      SubstituteTwice(m1, m2, k.signal);
    }
    RepointedCompose(a, b, c, MoveLink(m1), KeepLink(), MoveLink(m2), KeepLink(), MoveLink(m1 + m2), KeepLink());
  }

  lemma SubstituteTwice(m1: map<Id, Id>, m2: map<Id, Id>, x: Id)
    requires Apart(m1, m2)
    ensures Substitute(m1 + m2, x) == Substitute(m2, Substitute(m1, x))
    ensures Substitute(m1 + m2, x) == x ==> Substitute(m1, x) == x
    ensures Substitute(m1, x) in m2 <==> x in m2
    ensures x in m1 ==> Substitute(m1, x) !in m2.Values
  {
    if x in m1 {
      assert m1[x] in m1.Values;
    }
    if x in m2 {
      assert m2[x] in m2.Values;
    }
  }

  lemma AliasStepsCompose(m1: map<Id, Id>, m2: map<Id, Id>, k: AliasKey)
    requires Apart(m1, m2)
    ensures MoveAlias(m1 + m2)(k) == MoveAlias(m2)(MoveAlias(m1)(k))
    ensures KeepAlias(m1 + m2)(k) == (KeepAlias(m1)(k) && KeepAlias(m2)(MoveAlias(m1)(k)))
    ensures MoveAlias(m1 + m2)(k) == k ==> MoveAlias(m1)(k) == k
  {
    SubstituteTwice(m1, m2, k.aliasSignal);
    SubstituteTwice(m1, m2, k.canonicalSignal);
  }

  lemma AliasesCompose(a: map<AliasKey, AliasRow>, b: map<AliasKey, AliasRow>, c: map<AliasKey, AliasRow>,
                       m1: map<Id, Id>, m2: map<Id, Id>)
    requires Apart(m1, m2)
    requires Repointed(a, b, MoveAlias(m1), KeepAlias(m1)) && Repointed(b, c, MoveAlias(m2), KeepAlias(m2))
    ensures Repointed(a, c, MoveAlias(m1 + m2), KeepAlias(m1 + m2))
  {
    forall k: AliasKey
      ensures MoveAlias(m1 + m2)(k) == MoveAlias(m2)(MoveAlias(m1)(k))
      ensures KeepAlias(m1 + m2)(k) == (KeepAlias(m1)(k) && KeepAlias(m2)(MoveAlias(m1)(k)))
      ensures MoveAlias(m1 + m2)(k) == k ==> MoveAlias(m1)(k) == k
    {
      AliasStepsCompose(m1, m2, k);
    }
    RepointedCompose(a, b, c, MoveAlias(m1), KeepAlias(m1), MoveAlias(m2), KeepAlias(m2), MoveAlias(m1 + m2),
        KeepAlias(m1 + m2));
  }

  lemma ArraysCompose(arrays: map<Cell, seq<Id>>, m1: map<Id, Id>, m2: map<Id, Id>)
    requires Apart(m1, m2)
    ensures LoserArraysDropped(ColumnsMoved(LoserArraysDropped(ColumnsMoved(arrays, m1), m1), m2), m2)
         == LoserArraysDropped(ColumnsMoved(arrays, m1 + m2), m1 + m2)
  {
    forall c | c in arrays ensures RepointArray(m2, RepointArray(m1, arrays[c])) == RepointArray(m1 + m2, arrays[c]) {
      RepointArrayCompose(m1, m2, arrays[c]);
    }
  }

  lemma CanonicalCompose(m1: map<Id, Id>, m2: map<Id, Id>, id: Id, canonical: Option<Id>)
    requires Apart(m1, m2)
    ensures MoveCanonical(m2, id, MoveCanonical(m1, id, canonical)) == MoveCanonical(m1 + m2, id, canonical)
  {
    if canonical.Some? && canonical.value in m1 {
      assert m1[canonical.value] in m1.Values;
    }
  }

  lemma MirrorCompose(archive: map<Id, ArchiveRow>, m1: map<Id, Id>, m2: map<Id, Id>, id: Id, objectRef: string)
    requires Apart(m1, m2)
    ensures var once := ArchiveMoved(archive, m1);
            var whole := ArchiveMoved(archive, m1 + m2);
            MirroredRef(whole, m2, id, MirroredRef(once, m1, id, objectRef)) ==
                MirroredRef(whole, m1 + m2, id, objectRef)
  {
    hide Moves, Receivers, ReceivedFrom;
    var once := ArchiveMoved(archive, m1);
    ArchiveCompose(archive, m1, m2);
    if id in m1.Values {
      MoversAreLosers(once, m2);
      ReceiversAreSurvivors(once, m2);
    }
    assert id in (m1 + m2).Values <==> id in m1.Values || id in m2.Values by {
      UnitedValues(m1, m2);
    }
  }

  lemma SignalsCompose(signals: map<Id, Signal>, archive: map<Id, ArchiveRow>, m1: map<Id, Id>, m2: map<Id, Id>)
    requires Apart(m1, m2)
    ensures var once := ArchiveMoved(archive, m1);
            var whole := ArchiveMoved(archive, m1 + m2);
            SignalsAfter(SignalsAfter(signals, once, m1), whole, m2) == SignalsAfter(signals, whole, m1 + m2)
  {
    hide ArchiveMoved, MoveCanonical, MirroredRef;
    var once := ArchiveMoved(archive, m1);
    var whole := ArchiveMoved(archive, m1 + m2);
    forall i | i in signals
      ensures MoveCanonical(m2, i, MoveCanonical(m1, i, signals[i].canonical)) ==
              MoveCanonical(m1 + m2, i, signals[i].canonical)
      ensures MirroredRef(whole, m2, i, MirroredRef(once, m1, i, signals[i].objectRef)) ==
              MirroredRef(whole, m1 + m2, i, signals[i].objectRef)
    {
      CanonicalCompose(m1, m2, i, signals[i].canonical);
      MirrorCompose(archive, m1, m2, i, signals[i].objectRef);
    }
    var left := SignalsAfter(SignalsAfter(signals, once, m1), whole, m2);
    var right := SignalsAfter(signals, whole, m1 + m2);
    assert left.Keys == right.Keys;
    forall i | i in left ensures left[i] == right[i] {
    }
  }

  lemma TombstonesCompose(tombstones: map<Id, Tombstone>, index: string, m1: map<Id, Id>, m2: map<Id, Id>)
    requires m1.Keys !! m2.Keys
    ensures TombstonesAfter(TombstonesAfter(tombstones, index, m1), index, m2) ==
            TombstonesAfter(tombstones, index, m1 + m2)
  {
  }

  /** Batches are invisible in the result: two batches over separate groups leave exactly what one
      batch over both would have left. */
  lemma CollapsedCompose(t: Tables, u: Tables, v: Tables, index: string, m1: map<Id, Id>, m2: map<Id, Id>)
    requires Apart(m1, m2)
    requires Collapsed(t, u, index, m1) && Collapsed(u, v, index, m2)
    ensures Collapsed(t, v, index, m1 + m2)
  {
    LinksCompose(t.links, u.links, v.links, m1, m2);
    AliasesCompose(t.aliases, u.aliases, v.aliases, m1, m2);
    ArraysCompose(t.arrays, m1, m2);
    ArchiveCompose(t.archive, m1, m2);
    SignalsCompose(t.signals, t.archive, m1, m2);
    TombstonesCompose(t.tombstones, index, m1, m2);
    hide Repointed, MoveLink, KeepLink, MoveAlias, KeepAlias, ColumnsMoved, LoserArraysDropped,
         ArchiveMoved, SignalsAfter, TombstonesAfter, Apart;
    assert v.signals == SignalsAfter(t.signals, v.archive, m1 + m2);
  }

  lemma ArchiveByNothing(archive: map<Id, ArchiveRow>, m: map<Id, Id>)
    requires m == map[]
    ensures ArchiveMoved(archive, m) == archive
  {
  }

  lemma ArraysByNothing(arrays: map<Cell, seq<Id>>, m: map<Id, Id>)
    requires m == map[]
    ensures LoserArraysDropped(ColumnsMoved(arrays, m), m) == arrays
  {
  }

  lemma SignalsByNothing(signals: map<Id, Signal>, archive: map<Id, ArchiveRow>, m: map<Id, Id>)
    requires m == map[]
    ensures SignalsAfter(signals, archive, m) == signals
  {
  }

  lemma RowsByNothing(t: Tables, index: string, m: map<Id, Id>)
    requires m == map[]
    ensures Repointed(t.links, t.links, MoveLink(m), KeepLink())
    ensures Repointed(t.aliases, t.aliases, MoveAlias(m), KeepAlias(m))
    ensures TombstonesAfter(t.tombstones, index, m) == t.tombstones
  {
    RepointedByIdentity(t.links, MoveLink(m), KeepLink());
    RepointedByIdentity(t.aliases, MoveAlias(m), KeepAlias(m));
  }

  lemma CollapsedByNothing(t: Tables, index: string, m: map<Id, Id>)
    requires m == map[]
    ensures Collapsed(t, t, index, m)
  {
    hide Repointed, MoveLink, KeepLink, MoveAlias, KeepAlias, ColumnsMoved, LoserArraysDropped,
         ArchiveMoved, SignalsAfter, TombstonesAfter;
    RowsByNothing(t, index, m);
    ArchiveByNothing(t.archive, m);
    ArraysByNothing(t.arrays, m);
    SignalsByNothing(t.signals, t.archive, m);
  }

  /** After a collapse no reference column names a deleted signal. The archive sidecar is the exception
      the design makes: evidence outlives its signal. */
  lemma NoReferenceToDeleted(t: Tables, u: Tables, index: string, m: map<Id, Id>)
    requires Substitution(m) && Collapsed(t, u, index, m)
    ensures forall k | k in u.links :: k.signal !in m
    ensures forall k | k in u.aliases :: k.aliasSignal !in m && k.canonicalSignal !in m
    ensures forall i | i in u.signals ::
              i !in m && (u.signals[i].canonical.Some? ==> u.signals[i].canonical.value !in m)
    ensures forall c, x | c in u.arrays && x in u.arrays[c] :: x !in m
    ensures m.Keys <= u.tombstones.Keys
  {
    forall k | k in u.links ensures k.signal !in m {
      assert ComesFrom(t.links, MoveLink(m), KeepLink(), k, u.links[k]);
      MovedLinksAvoidLosers(t.links, m);
    }
    forall k | k in u.aliases ensures k.aliasSignal !in m && k.canonicalSignal !in m {
      assert ComesFrom(t.aliases, MoveAlias(m), KeepAlias(m), k, u.aliases[k]);
      MovedAliasesAvoidLosers(t.aliases, m);
    }
    CanonicalAvoidsDeleted(t.signals, u.archive, m);
    ArraysAvoidDeleted(t.arrays, m);
  }

  lemma CanonicalAvoidsDeleted(signals: map<Id, Signal>, archive: map<Id, ArchiveRow>, m: map<Id, Id>)
    requires Substitution(m)
    ensures forall i | i in SignalsAfter(signals, archive, m) ::
              var c := SignalsAfter(signals, archive, m)[i].canonical; i !in m && (c.Some? ==> c.value !in m)
  {
    forall i | i in signals ensures MoveCanonical(m, i, signals[i].canonical).Some? ==>
        MoveCanonical(m, i, signals[i].canonical).value !in m {
      if signals[i].canonical.Some? {
        SubstituteAvoidsLosers(m, signals[i].canonical.value);
      }
    }
  }

  lemma ArraysAvoidDeleted(arrays: map<Cell, seq<Id>>, m: map<Id, Id>)
    requires Substitution(m)
    ensures var after := LoserArraysDropped(ColumnsMoved(arrays, m), m);
            forall c, x | c in after && x in after[c] :: x !in m
  {
    forall c | c in arrays ensures forall x | x in RepointArray(m, arrays[c]) :: x !in m {
      RepointArraySpec(m, arrays[c]);
    }
  }

  /** A collapse makes no self-alias. */
  lemma NoNewSelfAlias(t: Tables, u: Tables, index: string, m: map<Id, Id>, k: AliasKey)
    requires Substitution(m) && Collapsed(t, u, index, m)
    requires k in u.aliases && k.aliasSignal == k.canonicalSignal
    ensures k in t.aliases
  {
    hide LoserArraysDropped, ColumnsMoved, ArchiveMoved, SignalsAfter, TombstonesAfter;
    assert ComesFrom(t.aliases, MoveAlias(m), KeepAlias(m), k, u.aliases[k]);
  }

  /** Every canonical pointer to a loser now names its survivor, except in the survivor itself, where it
      is cleared; so a signal points at itself only if it already did. */
  lemma CanonicalPointersFollow(t: Tables, u: Tables, index: string, m: map<Id, Id>, i: Id)
    requires Substitution(m) && Collapsed(t, u, index, m) && i in u.signals
    ensures i in t.signals && i !in m
    ensures u.signals[i].canonical == Some(i) ==> t.signals[i].canonical == Some(i)
    ensures t.signals[i].canonical.None? ==> u.signals[i].canonical.None?
    ensures t.signals[i].canonical.Some? ==>
              var to := t.signals[i].canonical.value;
              if to in m && m[to] == i then u.signals[i].canonical.None?
              else u.signals[i].canonical == Some(Substitute(m, to))
  {
    hide Repointed, LoserArraysDropped, ColumnsMoved, ArchiveMoved, TombstonesAfter;
  }

  /** The mirror invariant: a survivor whose archive row has a content address carries one itself. */
  lemma SurvivorsMirrored(t: Tables, u: Tables, index: string, m: map<Id, Id>)
    requires Substitution(m) && Collapsed(t, u, index, m)
    ensures forall i | i in m.Values && i in u.signals && i in u.archive && u.archive[i].objectRef != "" ::
              u.signals[i].objectRef != ""
    ensures forall i | i in u.signals && t.signals[i].objectRef != "" ::
            u.signals[i].objectRef == t.signals[i].objectRef
  {
  }
}
