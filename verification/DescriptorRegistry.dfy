/** The versioned registry of descriptors: content-addressed rows, a head per id, and updates that
    the lifecycle has to allow. Any call may fail or race with another writer. */
module DescriptorRegistry {
  import opened Ordering
  import opened Lifecycle

  // Ids, versions and bodies are only ever compared for equality; numbers stand for the texts.
  type Id = int
  type Version = int
  type Body = int

  datatype Descriptor = Descriptor(id: Id, state: LifecycleState, body: Body)

  /** A stored version: its state column, and the document it was hashed from. Retiring a head rewrites
      the column only, and so do the jobs that pause a failing source or resume it, so the column may
      hold any state. */
  datatype Row = Row(state: LifecycleState, content: Descriptor)

  datatype History = History(rows: map<Version, Row>, head: Version)

  type Hash = Descriptor -> Version

  /** The content hash tells documents apart. */
  ghost predicate Injective(hash: Hash) {
    forall d, e | hash(d) == hash(e) :: d == e
  }

  /** Whatever writers do, the head is stored and a version is the hash of the document it was stored for. */
  ghost predicate Sound(hash: Hash, id: Id, h: History) {
    && h.head in h.rows
    && forall v | v in h.rows :: hash(h.rows[v].content) == v && h.rows[v].content.id == id
  }

  function HeadState(h: History): LifecycleState
    requires h.head in h.rows
  {
    h.rows[h.head].state
  }

  /** The version of `d` is already stored, under another state than the one `d` declares. */
  predicate Stale(hash: Hash, h: History, d: Descriptor) {
    hash(d) in h.rows && h.rows[hash(d)].state != d.state
  }

  /** The state a head gets by an update to `d`: the column its version is stored under, if it is stored. */
  function Column(hash: Hash, h: History, d: Descriptor): LifecycleState {
    if hash(d) in h.rows then h.rows[hash(d)].state else d.state
  }

  /** The head is `d`: its document and its state. */
  predicate Settled(hash: Hash, h: History, d: Descriptor) {
    h.head == hash(d) && h.head in h.rows && h.rows[h.head].state == d.state
  }

  /** No version is lost or altered, and every new one is stored under the state it declares. */
  ghost predicate Grown(g: History, h: History) {
    && g.rows.Keys <= h.rows.Keys
    && (forall v | v in g.rows :: h.rows[v] == g.rows[v])
    && (forall v | v in h.rows && v !in g.rows :: h.rows[v].state == h.rows[v].content.state)
  }

  /** The transaction of an update: keep the head, promote a stored version or insert a new one. */
  function Superseded(hash: Hash, h: History, d: Descriptor): History {
    var v := hash(d);
    if v == h.head then h
    else if v in h.rows then h.(head := v)
    else History(h.rows[v := Row(d.state, d)], v)
  }

  lemma SupersededGrows(hash: Hash, id: Id, h: History, d: Descriptor)
    requires Sound(hash, id, h) && d.id == id
    ensures Sound(hash, id, Superseded(hash, h, d)) && Grown(h, Superseded(hash, h, d))
    ensures Superseded(hash, h, d).head == hash(d)
    ensures HeadState(Superseded(hash, h, d)) == Column(hash, h, d)
  {
  }

  lemma GrownCompose(f: History, g: History, h: History)
    requires Grown(f, g) && Grown(g, h)
    ensures Grown(f, h)
  {
  }

  /** Growing changes no document's column: hashes tell documents apart. */
  lemma GrownKeepsColumn(hash: Hash, id: Id, g: History, h: History, d: Descriptor)
    requires Injective(hash) && Sound(hash, id, h) && Grown(g, h)
    ensures Column(hash, g, d) == Column(hash, h, d)
  {
    if hash(d) in h.rows && hash(d) !in g.rows {
      assert hash(h.rows[hash(d)].content) == hash(d);
    }
  }

  /** What may happen around one call: another writer gets in before it or between its read and its
      transaction, and the call may raise before it touches a row or after it has committed. */
  datatype Fault = NoFault | BeforeWrite | AfterCommit

  datatype Turn = Turn(arrives: Option<History>, intrudes: Option<History>, fault: Fault)

  /** The turns of successive calls; past their end nothing happens any more. */
  type Turns = seq<Turn>

  function TurnAt(turns: Turns, n: nat): Turn {
    if n < |turns| then turns[n] else QUIET
  }

  const QUIET := Turn(None, None, NoFault)

  ghost predicate Quiet(turns: Turns) {
    forall n: nat :: TurnAt(turns, n) == QUIET
  }

  ghost predicate SoundTurn(hash: Hash, id: Id, turn: Turn) {
    && (turn.arrives.Some? ==> Sound(hash, id, turn.arrives.value))
    && (turn.intrudes.Some? ==> Sound(hash, id, turn.intrudes.value))
  }

  ghost predicate SoundTurns(hash: Hash, id: Id, turns: Turns) {
    forall n: nat :: SoundTurn(hash, id, TurnAt(turns, n))
  }

  datatype Reply = Landed(version: Version) | Conflict | Refused

  /** A head this registrar moved, from no head at all when it registered the id: the state the update
      declared, and the state the head came to. */
  datatype Change = Change(id: Id, from: Option<LifecycleState>, declared: LifecycleState, to: LifecycleState)

  /** The hop the update declared was allowed. */
  ghost predicate Checked(c: Change) {
    c.from.Some? ==> Permitted(c.from.value, c.declared)
  }

  /** The hop the head made was allowed. */
  ghost predicate Legal(c: Change) {
    c.from.Some? ==> Permitted(c.from.value, c.to)
  }

  ghost predicate AllChecked(trail: seq<Change>) {
    forall k | 0 <= k < |trail| :: Checked(trail[k])
  }

  ghost predicate AllLegal(trail: seq<Change>) {
    forall k | 0 <= k < |trail| :: Legal(trail[k])
  }

  ghost predicate AllSound(hash: Hash, table: map<Id, History>) {
    forall id | id in table :: Sound(hash, id, table[id])
  }

  lemma SoundEntry(hash: Hash, table: map<Id, History>, id: Id)
    requires AllSound(hash, table) && id in table
    ensures Sound(hash, id, table[id]) && table[id].head in table[id].rows
  {
  }

  lemma StaysSound(hash: Hash, table: map<Id, History>, id: Id, h: History)
    requires AllSound(hash, table) && Sound(hash, id, h)
    ensures AllSound(hash, table[id := h])
  {
  }

  /** The history of an id once another writer, if there was one, is through with it. */
  function Overtaken(h: Option<History>, other: Option<History>): Option<History> {
    if other.Some? then other else h
  }

  /** What an update that reads `h` as the head leaves behind, says, and moves. */
  function UpdateOutcome(hash: Hash, h: History, d: Descriptor, turn: Turn): (History, Reply, seq<Change>)
    requires h.head in h.rows && (turn.intrudes.Some? ==> turn.intrudes.value.head in turn.intrudes.value.rows)
  {
    if turn.fault == BeforeWrite || !Permitted(HeadState(h), d.state) then (h, Refused, [])
    else
      var now := Overtaken(Some(h), turn.intrudes).value;
      if now.head != h.head || HeadState(now) != HeadState(h) then (now, Conflict, [])
      else
        var next := Superseded(hash, now, d);
        var moved := if next == now then [] else [Change(d.id, Some(HeadState(h)), d.state, HeadState(next))];
        (next, if turn.fault == AfterCommit then Refused else Landed(hash(d)), moved)
  }

  /** What an update does, row by row. It goes through unless it fails first, the declared hop is not allowed, or
      another writer has changed the head or its state meanwhile; then its version is the head, every row there was
      is as it was, and the version has a row, a new one in the declared state. */
  lemma UpdateInRows(hash: Hash, id: Id, h: History, d: Descriptor, turn: Turn)
    requires Sound(hash, id, h) && SoundTurn(hash, id, turn)
    ensures var (next, reply, moved) := UpdateOutcome(hash, h, d, turn);
            var now := if turn.intrudes.Some? then turn.intrudes.value else h;
            var state := h.rows[h.head].state;
            if turn.fault == BeforeWrite || !Permitted(state, d.state) then
              next == h && reply == Refused && moved == []
            else if now.head != h.head || now.rows[now.head].state != state then
              next == now && reply == Conflict && moved == []
            else
              && next.head == hash(d)
              && next.rows == (if hash(d) in now.rows then now.rows else now.rows[hash(d) := Row(d.state, d)])
              && reply == (if turn.fault == AfterCommit then Refused else Landed(hash(d)))
              && moved == if h.head == hash(d) then []
                          else [Change(d.id, Some(state), d.state, next.rows[hash(d)].state)]
  {
    hide Permitted;
  }

  /** With no fault and no other writer, an update is refused exactly when the hop is not allowed;
      otherwise its version becomes the head, in the state of its column. */
  lemma QuietUpdate(hash: Hash, id: Id, g: History, h: History, d: Descriptor)
    requires Injective(hash) && Sound(hash, id, h) && Grown(g, h) && d.id == id
    ensures var (next, reply, _) := UpdateOutcome(hash, h, d, QUIET);
            && Sound(hash, id, next) && Grown(g, next)
            && reply == (if Permitted(HeadState(h), d.state) then Landed(hash(d)) else Refused)
            && (reply == Refused ==> next == h)
            && (reply != Refused ==> next.head == hash(d) && HeadState(next) == Column(hash, g, d))
  {
    SupersededGrows(hash, id, h, d);
    GrownCompose(g, h, Superseded(hash, h, d));
    GrownKeepsColumn(hash, id, g, h, d);
    hide Injective, Grown, Permitted, Column, Sound, Superseded;
  }

  /** A head moves only by an update whose declared hop is allowed, and comes to the column of that
      version. The hop it makes is allowed exactly when the column is the declared state or itself allowed:
      the update does not look at the column. */
  lemma MoveIsLegal(hash: Hash, id: Id, h: History, d: Descriptor, turn: Turn)
    requires Sound(hash, id, h) && SoundTurn(hash, id, turn) && d.id == id
    ensures var (next, reply, moved) := UpdateOutcome(hash, h, d, turn);
            var now := Overtaken(Some(h), turn.intrudes).value;
            && (moved != [] <==>
                  turn.fault != BeforeWrite && Permitted(HeadState(h), d.state)
                  && now.head == h.head && HeadState(now) == HeadState(h) && h.head != hash(d))
            && (moved != [] ==> moved == [Change(id, Some(HeadState(h)), d.state, Column(hash, now, d))])
            && (moved != [] ==>
                  (Legal(moved[0]) <==> !Stale(hash, now, d) || Permitted(HeadState(h), Column(hash, now, d))))
  {
    var now := Overtaken(Some(h), turn.intrudes).value;
    SupersededGrows(hash, id, now, d);
    assert Stale(hash, now, d) <==> Column(hash, now, d) != d.state;
    hide Grown, Sound, Permitted, Stale, Column;
  }

  /** A version hashed as active and paused in place, then rolled back from to a configured one: registering
      it again takes the head from configured to paused, a hop the lifecycle does not allow. */
  lemma PausedVersionIsPromoted(hash: Hash, d: Descriptor, prior: Descriptor)
    requires Injective(hash) && d.id == prior.id && d.state == Active && prior.state == Configured
    ensures var h := History(map[hash(d) := Row(Paused, d), hash(prior) := Row(Configured, prior)], hash(prior));
            && Sound(hash, d.id, h)
            && var (next, reply, moved) := UpdateOutcome(hash, h, d, QUIET);
               && reply == Landed(hash(d)) && next.head == hash(d)
               && moved == [Change(d.id, Some(Configured), Active, Paused)]
               && Checked(moved[0]) && !Legal(moved[0])
  {
    assert hash(d) != hash(prior);
  }

  function At(table: map<Id, History>, id: Id): Option<History> {
    if id in table then Some(table[id]) else None
  }

  /** At every other id the two tables agree. */
  ghost predicate OthersKept(was: map<Id, History>, now: map<Id, History>, id: Id) {
    forall i | i != id :: At(now, i) == At(was, i)
  }

  lemma OthersKeptCompose(f: map<Id, History>, g: map<Id, History>, h: map<Id, History>, id: Id)
    requires OthersKept(f, g, id) && OthersKept(g, h, id)
    ensures OthersKept(f, h, id)
  {
    hide At;
  }

  /** The heads of the registry and the moves that led to them. */
  datatype Snapshot = Snapshot(table: map<Id, History>, trail: seq<Change>)

  class Registry {
    const hash: Hash
    /** The state a registration lands a declared state in. */
    const lands: LifecycleState -> LifecycleState
    var table: map<Id, History>
    /** Every head this registrar moved, oldest first. */
    ghost var trail: seq<Change>

    constructor (hash: Hash, lands: LifecycleState -> LifecycleState)
      requires Injective(hash)
      ensures this.hash == hash && this.lands == lands && table == map[] && trail == [] && Valid()
    {
      this.hash, this.lands, table, trail := hash, lands, map[], [];
    }

    ghost predicate Valid()
      reads this
    {
      Injective(hash) && AllSound(hash, table) && AllChecked(trail)
    }

    function Entry(id: Id): Option<History>
      reads this
    {
      At(table, id)
    }

    /** Another writer, or none, gets its turn at `id`. */
    method Meet(id: Id, other: Option<History>)
      requires Valid() && (other.Some? ==> Sound(hash, id, other.value))
      modifies this`table
      ensures Valid() && table.Keys == old(table.Keys) + (if other.Some? then {id} else {})
      ensures Entry(id) == Overtaken(old(Entry(id)), other)
      ensures OthersKept(old(table), table, id)
    {
      if other.Some? {
        table := table[id := other.value];
      }
    }

    method Register(d: Descriptor, turn: Turn) returns (reply: Reply)
      requires Valid() && SoundTurn(hash, d.id, turn)
      modifies this
      ensures Valid() && OthersKept(old(table), table, d.id)
      ensures var was := Overtaken(old(Entry(d.id)), turn.arrives);
              var landed := d.(state := lands(d.state));
              if turn.fault == BeforeWrite then
                Entry(d.id) == was && reply == Refused && trail == old(trail)
              else if was.Some? then
                Entry(d.id) == was && reply == Conflict && trail == old(trail)
              else
                && Entry(d.id) == Some(History(map[hash(landed) := Row(landed.state, landed)], hash(landed)))
                && reply == (if turn.fault == AfterCommit then Refused else Landed(hash(landed)))
                && trail == old(trail) + [Change(d.id, None, d.state, landed.state)]
    {
      Meet(d.id, turn.arrives);
      if turn.fault == BeforeWrite {
        return Refused;
      }
      if d.id in table {
        return Conflict;
      }
      var landed := d.(state := lands(d.state));
      var v := hash(landed);
      table := table[d.id := History(map[v := Row(landed.state, landed)], v)];
      trail := trail + [Change(d.id, None, d.state, landed.state)];
      return if turn.fault == AfterCommit then Refused else Landed(v);
    }

    method Update(d: Descriptor, turn: Turn) returns (reply: Reply)
      requires Valid() && SoundTurn(hash, d.id, turn)
      modifies this
      ensures Valid() && OthersKept(old(table), table, d.id)
      ensures var was := Overtaken(old(Entry(d.id)), turn.arrives);
              if was.None? then
                Entry(d.id) == None && reply == Refused && trail == old(trail)
              else
                && Entry(d.id).Some?
                && var (next, said, moved) := UpdateOutcome(hash, was.value, d, turn);
                   Entry(d.id).value == next && reply == said && trail == old(trail) + moved
    {
      hide Sound, Injective, AllSound, Superseded, Permitted;
      Meet(d.id, turn.arrives);
      if turn.fault == BeforeWrite || d.id !in table {
        return Refused;
      }
      SoundEntry(hash, table, d.id);
      var fromVersion, fromState := table[d.id].head, HeadState(table[d.id]);
      if !Permitted(fromState, d.state) {
        return Refused;
      }
      Meet(d.id, turn.intrudes);
      SoundEntry(hash, table, d.id);
      var now := table[d.id];
      if now.head != fromVersion || HeadState(now) != fromState {
        return Conflict;
      }
      SupersededGrows(hash, d.id, now, d);
      var next := Superseded(hash, now, d);
      StaysSound(hash, table, d.id, next);
      table := table[d.id := next];
      if next != now {
        trail := trail + [Change(d.id, Some(fromState), d.state, HeadState(next))];
      }
      return if turn.fault == AfterCommit then Refused else Landed(hash(d));
    }
  }
}
