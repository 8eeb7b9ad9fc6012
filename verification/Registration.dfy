/** What `register_descriptor` does at one id, as a function of the history it starts from and of everything
    that happens around its calls, and what holds of it: the exact outcome of an undisturbed run and of one
    that loses a race, the heads it moves, and when those moves are allowed. */
module Registration {
  import opened Ordering
  import opened LegalPath
  import opened Lifecycle
  import opened DescriptorRegistry

  datatype Action = Registered | Updated | Unchanged | Failed

  datatype Detail = Plain | Advanced | NoLegalPath | LostRace | Raised | Preserved

  /** The outcome for one id; None where the script prints a placeholder for the version. */
  datatype Result = Result(id: Id, action: Action, version: Option<Version>, detail: Detail)

  /** Where a stretch of updates leaves an id: its history, the last reply, and the heads moved. */
  datatype Run = Run(now: Option<History>, reply: Reply, moved: seq<Change>)

  /** Where a registration leaves an id, what it reports, and the heads it moved. */
  datatype Outcome = Outcome(now: Option<History>, result: Result, moved: seq<Change>)

  /** A stretch of updates behind the moves already made. */
  ghost function Continued(moved: seq<Change>, rest: Run): (r: Run)
    ensures r.now == rest.now && r.reply == rest.reply
  {
    rest.(moved := moved + rest.moved)
  }

  ghost function Onto(moved: seq<Change>, o: Outcome): Outcome {
    o.(moved := moved + o.moved)
  }

  ghost predicate SoundAt(hash: Hash, id: Id, h: Option<History>) {
    h.Some? ==> Sound(hash, id, h.value)
  }

  lemma TurnOf(hash: Hash, id: Id, turns: Turns, n: nat)
    requires SoundTurns(hash, id, turns)
    ensures SoundTurn(hash, id, TurnAt(turns, n))
  {
  }

  lemma UpdateStaysSound(hash: Hash, id: Id, h: History, d: Descriptor, turn: Turn)
    requires Sound(hash, id, h) && SoundTurn(hash, id, turn) && d.id == id
    ensures Sound(hash, id, UpdateOutcome(hash, h, d, turn).0)
  {
    SupersededGrows(hash, id, h, d);
    if turn.intrudes.Some? {
      SupersededGrows(hash, id, turn.intrudes.value, d);
    }
    hide Sound, Grown, Superseded, Permitted, Column;
  }

  /** One update, around one turn. */
  ghost function Updating(hash: Hash, h: Option<History>, d: Descriptor, turn: Turn): (r: Run)
    requires SoundAt(hash, d.id, h) && SoundTurn(hash, d.id, turn)
    ensures SoundAt(hash, d.id, r.now)
  {
    var was := Overtaken(h, turn.arrives);
    if was.None? then Run(None, Refused, [])
    else
      UpdateStaysSound(hash, d.id, was.value, d, turn);
      var (next, said, moved) := UpdateOutcome(hash, was.value, d, turn);
      Run(Some(next), said, moved)
  }

  /** The updates of a walk from its step `i` on, call `n` being the one for step 0; they end with the first
      that does not land. */
  ghost function Walking(hash: Hash, h: Option<History>, d: Descriptor, p: seq<LifecycleState>, turns: Turns,
                         n: nat, i: nat): (r: Run)
    requires SoundAt(hash, d.id, h) && SoundTurns(hash, d.id, turns) && i <= |p|
    ensures SoundAt(hash, d.id, r.now)
    decreases |p| - i
  {
    if i == |p| then Run(h, Landed(hash(d)), [])
    else
      TurnOf(hash, d.id, turns, n + i);
      var run := Updating(hash, h, d.(state := p[i]), TurnAt(turns, n + i));
      if !run.reply.Landed? then run
      else
        Continued(run.moved, Walking(hash, run.now, d, p, turns, n, i + 1))
  }

  /** The two `except` clauses: a lost race reads the head again and calls itself unchanged. */
  function Trouble(reply: Reply, id: Id, h: Option<History>, seen: Option<Version>): (r: Result)
    requires !reply.Landed?
    ensures r.action == if reply.Conflict? then Unchanged else Failed
    ensures r.detail == LostRace || r.detail == Raised
    ensures r.action == Unchanged <==> r.detail == LostRace
  {
    if reply.Conflict? then Result(id, Unchanged, if h.Some? then Some(h.value.head) else None, LostRace)
    else Result(id, Failed, seen, Raised)
  }

  /** How `register_descriptor` closes: the last reply, or what its `except` clauses make of it. */
  function Closing(reply: Reply, done: Action, detail: Detail, d: Descriptor, h: Option<History>,
                   seen: Option<Version>): Result {
    if reply.Landed? then Result(d.id, done, Some(reply.version), detail) else Trouble(reply, d.id, h, seen)
  }

  /** The states that the updates of one registration declare: a head already in the declared state takes
      one update, any other is walked. */
  function Steps(from: LifecycleState, to: LifecycleState): seq<LifecycleState> {
    if from == to then [to] else Route(from, to)
  }

  /** Registering an id whose head was just read. */
  ghost function Reregistering(hash: Hash, g: History, d: Descriptor, turns: Turns): (o: Outcome)
    requires Sound(hash, d.id, g) && SoundTurns(hash, d.id, turns)
    ensures SoundAt(hash, d.id, o.now)
  {
    if Settled(hash, g, d) then
      Outcome(Some(g), Result(d.id, Unchanged, Some(g.head), Plain), [])
    else if !CanBecome(HeadState(g), d.state) then
      Outcome(Some(g), Result(d.id, Failed, Some(g.head), NoLegalPath), [])
    else
      var run := Walking(hash, Some(g), d, Steps(HeadState(g), d.state), turns, 1, 0);
      Outcome(run.now, Closing(run.reply, Updated, Plain, d, run.now, Some(g.head)), run.moved)
  }

  function JustLanded(hash: Hash, landed: Descriptor): History {
    History(map[hash(landed) := Row(landed.state, landed)], hash(landed))
  }

  /** Once the new id is registered: its head is read again and walked on from wherever it is. */
  ghost function Advancing(hash: Hash, h: History, v: Version, d: Descriptor, turns: Turns): (o: Outcome)
    requires Sound(hash, d.id, h) && SoundTurns(hash, d.id, turns)
    ensures SoundAt(hash, d.id, o.now)
  {
    if HeadState(h) == d.state then
      Outcome(Some(h), Result(d.id, Registered, Some(v), Plain), [])
    else if !CanBecome(HeadState(h), d.state) then
      Outcome(Some(h), Result(d.id, Failed, Some(v), NoLegalPath), [])
    else
      var run := Walking(hash, Some(h), d, Steps(HeadState(h), d.state), turns, 3, 0);
      Outcome(run.now, Closing(run.reply, Registered, Advanced, d, run.now, None), run.moved)
  }

  /** Registering an id that had no head, in a registry that lands it in state `s`. */
  ghost function RegisteringNew(hash: Hash, s: LifecycleState, d: Descriptor, turns: Turns): (o: Outcome)
    requires SoundTurns(hash, d.id, turns)
    ensures SoundAt(hash, d.id, o.now)
  {
    TurnOf(hash, d.id, turns, 1);
    TurnOf(hash, d.id, turns, 2);
    var turn := TurnAt(turns, 1);
    var landed := d.(state := s);
    if turn.fault == BeforeWrite || turn.arrives.Some? then
      var reply := if turn.fault == BeforeWrite then Refused else Conflict;
      Outcome(turn.arrives, Closing(reply, Registered, Advanced, d, turn.arrives, None), [])
    else
      var first := Change(d.id, None, d.state, s);
      if turn.fault == AfterCommit then
        var h := Some(JustLanded(hash, landed));
        Outcome(h, Closing(Refused, Registered, Advanced, d, h, None), [first])
      else
        var h := Overtaken(Some(JustLanded(hash, landed)), TurnAt(turns, 2).arrives).value;
        Onto([first], Advancing(hash, h, hash(landed), d, turns))
  }

  /** `register_descriptor`, for any turns around its reads and calls. */
  ghost function Registering(hash: Hash, lands: LifecycleState -> LifecycleState, h: Option<History>, d: Descriptor,
                             turns: Turns): (o: Outcome)
    requires SoundAt(hash, d.id, h) && SoundTurns(hash, d.id, turns)
    ensures SoundAt(hash, d.id, o.now)
  {
    TurnOf(hash, d.id, turns, 0);
    match Overtaken(h, TurnAt(turns, 0).arrives)
    case Some(g) => Reregistering(hash, g, d, turns)
    case None => RegisteringNew(hash, lands(d.state), d, turns)
  }

  lemma RouteEnds(from: LifecycleState, to: LifecycleState)
    requires CanBecome(from, to) && from != to
    ensures var p := Route(from, to);
            p != [] && p[|p| - 1] == to && forall k | 0 <= k < |p| - 1 :: p[k] != to
  {
  }

  lemma {:induction false} StepsAreLegal(from: LifecycleState, to: LifecycleState)
    requires CanBecome(from, to)
    ensures var steps := Steps(from, to);
            && steps != [] && steps[|steps| - 1] == to
            && (forall k | 0 <= k < |steps| :: Permitted(Before(from, steps, k), steps[k]))
            && (forall k | 0 <= k < |steps| - 1 :: steps[k] != to)
  {
    RouteIsWalk(from, to);
    if from != to {
      RouteEnds(from, to);
      hide Route;
      forall k | 0 <= k < |Route(from, to)| ensures Permitted(Before(from, Route(from, to), k), Route(from, to)[k]) {
        assert Hop(ALLOWED_TRANSITIONS, Before(from, Route(from, to), k), Route(from, to)[k]);
      }
    }
  }

  // Whatever happens: reports and moves.

  /** What a report promises about the head, whatever other writers and failing calls did meanwhile.
      A lost race promises nothing. */
  ghost predicate Reported(hash: Hash, now: Option<History>, d: Descriptor, r: Result) {
    && r.id == d.id
    && (r.action == Updated || r.detail == Advanced ==>
          now.Some? && now.value.head == hash(d) && r.version == Some(hash(d)))
    && (r.action == Registered && r.detail != Advanced ==>
          now.Some? && now.value.head in now.value.rows && HeadState(now.value) == d.state)
    && (r.action == Unchanged && r.detail != LostRace ==> now.Some? && Settled(hash, now.value, d))
  }

  /** What a report promises about the heads moved on the way to it. */
  ghost predicate Accounted(moved: seq<Change>, r: Result) {
    && (forall k | 0 <= k < |moved| :: moved[k].id == r.id && Checked(moved[k]))
    && (r.action == Unchanged && r.detail != LostRace ==> moved == [])
    && (r.detail == NoLegalPath ==> moved == [] || (|moved| == 1 && moved[0].from.None?))
  }

  /** The history `now` is the one another writer brought in around call `n`. */
  predicate BroughtIn(turns: Turns, n: nat, now: Option<History>) {
    n > 0 && now.Some? && (TurnAt(turns, n).intrudes == now || TurnAt(turns, n).arrives == now)
  }

  lemma UpdateReplies(hash: Hash, h: Option<History>, d: Descriptor, turn: Turn)
    requires SoundAt(hash, d.id, h) && SoundTurn(hash, d.id, turn)
    ensures var run := Updating(hash, h, d, turn);
            && (run.reply.Landed? ==> run.reply == Landed(hash(d)) && run.now.Some? && run.now.value.head == hash(d))
            && (run.reply.Conflict? ==> run.now.Some? && run.now == turn.intrudes)
            && forall k | 0 <= k < |run.moved| :: run.moved[k].id == d.id && Checked(run.moved[k])
  {
    hide Permitted;
  }

  lemma {:induction false} WalkReplies(hash: Hash, h: Option<History>, d: Descriptor, p: seq<LifecycleState>,
                                       turns: Turns, n: nat, i: nat)
    requires SoundAt(hash, d.id, h) && SoundTurns(hash, d.id, turns) && i <= |p|
    requires n > 0 && p != [] && p[|p| - 1] == d.state
    requires i > 0 ==> h.Some? && h.value.head == hash(d.(state := p[i - 1]))
    ensures var run := Walking(hash, h, d, p, turns, n, i);
            && (run.reply.Landed? ==> run.reply == Landed(hash(d)) && run.now.Some? && run.now.value.head == hash(d))
            && (run.reply.Conflict? ==> exists m | m >= n + i :: BroughtIn(turns, m, run.now))
            && forall k | 0 <= k < |run.moved| :: run.moved[k].id == d.id && Checked(run.moved[k])
    decreases |p| - i
  {
    hide Updating, SoundAt, Sound, SoundTurns, Checked;
    if i == |p| {
      assert d.(state := d.state) == d;
    } else {
      TurnOf(hash, d.id, turns, n + i);
      UpdateReplies(hash, h, d.(state := p[i]), TurnAt(turns, n + i));
      var run := Updating(hash, h, d.(state := p[i]), TurnAt(turns, n + i));
      assert run.reply.Conflict? ==> BroughtIn(turns, n + i, run.now);
      if run.reply.Landed? {
        WalkReplies(hash, run.now, d, p, turns, n, i + 1);
      }
    }
  }

  /** Every report keeps its promises in every run; a lost race names the head of the writer it was lost to,
      and that writer's history is the one left behind. */
  ghost predicate Kept(hash: Hash, o: Outcome, d: Descriptor, turns: Turns) {
    && Reported(hash, o.now, d, o.result) && Accounted(o.moved, o.result)
    && (o.result.detail == LostRace ==>
          && o.now.Some? && o.result == Result(d.id, Unchanged, Some(o.now.value.head), LostRace)
          && exists n :: BroughtIn(turns, n, o.now))
  }

  lemma WalkKeeps(hash: Hash, h: History, d: Descriptor, turns: Turns, n: nat, done: Action, detail: Detail,
                  seen: Option<Version>)
    requires Sound(hash, d.id, h) && SoundTurns(hash, d.id, turns) && CanBecome(HeadState(h), d.state) && n > 0
    requires (done == Updated && detail == Plain) || (done == Registered && detail == Advanced)
    ensures var run := Walking(hash, Some(h), d, Steps(HeadState(h), d.state), turns, n, 0);
            Kept(hash, Outcome(run.now, Closing(run.reply, done, detail, d, run.now, seen), run.moved), d, turns)
  {
    StepsAreLegal(HeadState(h), d.state);
    WalkReplies(hash, Some(h), d, Steps(HeadState(h), d.state), turns, n, 0);
    hide Walking, Sound, SoundTurns, CanBecome, Steps, Checked, BroughtIn;
  }

  lemma ReregistrationKeeps(hash: Hash, g: History, d: Descriptor, turns: Turns)
    requires Sound(hash, d.id, g) && SoundTurns(hash, d.id, turns)
    ensures Kept(hash, Reregistering(hash, g, d, turns), d, turns)
  {
    if CanBecome(HeadState(g), d.state) {
      WalkKeeps(hash, g, d, turns, 1, Updated, Plain, Some(g.head));
    }
    hide Walking, Sound, SoundTurns, CanBecome, Steps, Closing;
  }

  lemma AdvanceKeeps(hash: Hash, h: History, v: Version, d: Descriptor, turns: Turns)
    requires Sound(hash, d.id, h) && SoundTurns(hash, d.id, turns)
    ensures var o := Advancing(hash, h, v, d, turns);
            && Kept(hash, o, d, turns)
            && (o.result.action == Unchanged ==> o.result.detail == LostRace)
            && (o.result.detail == NoLegalPath ==> o.moved == [])
  {
    if CanBecome(HeadState(h), d.state) {
      WalkKeeps(hash, h, d, turns, 3, Registered, Advanced, None);
    }
    hide Walking, Sound, SoundTurns, CanBecome, Steps;
  }

  lemma KeptWithFirst(hash: Hash, o: Outcome, d: Descriptor, turns: Turns, s: LifecycleState)
    requires Kept(hash, o, d, turns)
    requires o.result.action == Unchanged ==> o.result.detail == LostRace
    requires o.result.detail == NoLegalPath ==> o.moved == []
    ensures Kept(hash, Onto([Change(d.id, None, d.state, s)], o), d, turns)
  {
    hide Settled, BroughtIn, Permitted;
  }

  /** A registration that raises, or that finds the id taken. */
  lemma TroubleKept(hash: Hash, reply: Reply, d: Descriptor, turns: Turns, h: Option<History>, moved: seq<Change>)
    requires !reply.Landed? && (reply.Conflict? ==> BroughtIn(turns, 1, h))
    requires forall k | 0 <= k < |moved| :: moved[k].id == d.id && Checked(moved[k])
    ensures Kept(hash, Outcome(h, Closing(reply, Registered, Advanced, d, h, None), moved), d, turns)
  {
    hide Checked;
  }

  lemma NewRegistrationKeeps(hash: Hash, s: LifecycleState, d: Descriptor, turns: Turns)
    requires SoundTurns(hash, d.id, turns)
    ensures Kept(hash, RegisteringNew(hash, s, d, turns), d, turns)
  {
    TurnOf(hash, d.id, turns, 1);
    TurnOf(hash, d.id, turns, 2);
    var turn, first, landed := TurnAt(turns, 1), Change(d.id, None, d.state, s), d.(state := s);
    if turn.fault == BeforeWrite || turn.arrives.Some? {
      TroubleKept(hash, if turn.fault == BeforeWrite then Refused else Conflict, d, turns, turn.arrives, []);
    } else if turn.fault == AfterCommit {
      TroubleKept(hash, Refused, d, turns, Some(JustLanded(hash, landed)), [first]);
    } else {
      var h := Overtaken(Some(JustLanded(hash, landed)), TurnAt(turns, 2).arrives).value;
      AdvanceKeeps(hash, h, hash(landed), d, turns);
      KeptWithFirst(hash, Advancing(hash, h, hash(landed), d, turns), d, turns, s);
    }
    hide Advancing, Sound, SoundTurns, Kept;
  }

  lemma RegistrationKeeps(hash: Hash, lands: LifecycleState -> LifecycleState, h: Option<History>, d: Descriptor,
                          turns: Turns)
    requires SoundAt(hash, d.id, h) && SoundTurns(hash, d.id, turns)
    ensures Kept(hash, Registering(hash, lands, h, d, turns), d, turns)
  {
    TurnOf(hash, d.id, turns, 0);
    match Overtaken(h, TurnAt(turns, 0).arrives)
    case Some(g) => ReregistrationKeeps(hash, g, d, turns);
    case None => NewRegistrationKeeps(hash, lands(d.state), d, turns);
    hide Kept, Sound, SoundTurns, Reregistering, RegisteringNew;
  }

  // An undisturbed run.

  /** The state of the head when the walk `p` towards `d` declares its step `i`, if all before it landed. */
  function Reached(hash: Hash, g: History, d: Descriptor, p: seq<LifecycleState>, i: nat): LifecycleState
    requires g.head in g.rows && i <= |p|
  {
    if i == 0 then HeadState(g) else Column(hash, g, d.(state := p[i - 1]))
  }

  /** The head at that point. */
  function HeadBefore(hash: Hash, g: History, d: Descriptor, p: seq<LifecycleState>, i: nat): Version
    requires i <= |p|
  {
    if i == 0 then g.head else hash(d.(state := p[i - 1]))
  }

  /** The rows at that point: those there were, and one for every step that had none. */
  function RowsBefore(hash: Hash, g: History, d: Descriptor, p: seq<LifecycleState>, i: nat): map<Version, Row>
    requires i <= |p|
  {
    if i == 0 then g.rows
    else
      var rows, e := RowsBefore(hash, g, d, p, i - 1), d.(state := p[i - 1]);
      if hash(e) in rows then rows else rows[hash(e) := Row(e.state, e)]
  }

  predicate Open(hash: Hash, g: History, d: Descriptor, p: seq<LifecycleState>, i: nat)
    requires g.head in g.rows && i < |p|
  {
    Permitted(Reached(hash, g, d, p, i), p[i])
  }

  /** How many steps of the walk land, from step `i` on: up to the first one the lifecycle does not allow
      out of the state the head has by then. */
  function Landings(hash: Hash, g: History, d: Descriptor, p: seq<LifecycleState>, i: nat): (n: nat)
    requires g.head in g.rows && i <= |p|
    ensures i <= n <= |p| && forall k | i <= k < n :: Open(hash, g, d, p, k)
    ensures n < |p| ==> !Open(hash, g, d, p, n)
    decreases |p| - i
  {
    if i < |p| && Open(hash, g, d, p, i) then Landings(hash, g, d, p, i + 1) else i
  }

  /** Step `i` changes the head. */
  predicate Moves(hash: Hash, g: History, d: Descriptor, p: seq<LifecycleState>, i: nat)
    requires i < |p|
  {
    HeadBefore(hash, g, d, p, i) != hash(d.(state := p[i]))
  }

  /** The heads moved by the steps from `i` up to `n`. */
  function MovesOf(hash: Hash, g: History, d: Descriptor, p: seq<LifecycleState>, i: nat, n: nat): seq<Change>
    requires g.head in g.rows && i <= n <= |p|
    decreases n - i
  {
    if i == n then []
    else
      (if Moves(hash, g, d, p, i) then
         [Change(d.id, Some(Reached(hash, g, d, p, i)), p[i], Reached(hash, g, d, p, i + 1))]
       else [])
      + MovesOf(hash, g, d, p, i + 1, n)
  }

  /** The history once `i` steps of the walk have landed. */
  ghost predicate Walked(hash: Hash, g: History, h: History, d: Descriptor, p: seq<LifecycleState>, i: nat)
    requires g.head in g.rows && i <= |p|
  {
    && Grown(g, h) && h.head in h.rows
    && h == History(RowsBefore(hash, g, d, p, i), HeadBefore(hash, g, d, p, i))
    && HeadState(h) == Reached(hash, g, d, p, i)
  }

  /** Nothing happens around a run once it has read the head for the first time. */
  ghost predicate QuietOnceRead(turns: Turns) {
    forall n: nat | n > 0 :: TurnAt(turns, n) == QUIET
  }

  lemma QuietUpdating(hash: Hash, h: History, d: Descriptor)
    requires Sound(hash, d.id, h)
    ensures var (next, reply, moved) := UpdateOutcome(hash, h, d, QUIET);
            Updating(hash, Some(h), d, QUIET) == Run(Some(next), reply, moved)
  {
    hide UpdateOutcome, Sound;
  }

  lemma StepOfWalk(hash: Hash, g: History, h: History, d: Descriptor, p: seq<LifecycleState>, i: nat)
    requires Injective(hash) && Sound(hash, d.id, g) && Sound(hash, d.id, h)
    requires i < |p| && Walked(hash, g, h, d, p, i)
    ensures var run := Updating(hash, Some(h), d.(state := p[i]), QUIET);
            if Open(hash, g, d, p, i) then
              && run.now.Some? && Walked(hash, g, run.now.value, d, p, i + 1)
              && run.reply == Landed(hash(d.(state := p[i])))
              && run.moved == MovesOf(hash, g, d, p, i, i + 1)
            else
              run == Run(Some(h), Refused, [])
  {
    QuietUpdate(hash, d.id, g, h, d.(state := p[i]));
    QuietUpdating(hash, h, d.(state := p[i]));
    hide Injective, Sound, Grown, Column, Permitted;
  }

  /** Walking on from step `i`, undisturbed, lands the steps before the first one that is not open. */
  lemma {:induction false} QuietWalking(hash: Hash, g: History, h: History, d: Descriptor, p: seq<LifecycleState>,
                                        turns: Turns, n: nat, i: nat)
    requires Injective(hash) && Sound(hash, d.id, g) && Sound(hash, d.id, h) && SoundTurns(hash, d.id, turns)
    requires i <= |p| && Walked(hash, g, h, d, p, i) && QuietOnceRead(turns) && n > 0
    ensures var run := Walking(hash, Some(h), d, p, turns, n, i);
            var k := Landings(hash, g, d, p, i);
            && run.now.Some? && Walked(hash, g, run.now.value, d, p, k)
            && run.reply == (if k < |p| then Refused else Landed(hash(d)))
            && run.moved == MovesOf(hash, g, d, p, i, k)
    decreases |p| - i
  {
    assert g.head in g.rows;
    hide Injective, Sound, SoundTurns, Walked, Open, Updating, Moves, Reached;
    if i < |p| {
      assert TurnAt(turns, n + i) == QUIET;
      StepOfWalk(hash, g, h, d, p, i);
      TurnOf(hash, d.id, turns, n + i);
      if Open(hash, g, d, p, i) {
        QuietWalking(hash, g, Updating(hash, Some(h), d.(state := p[i]), QUIET).now.value, d, p, turns, n, i + 1);
      }
    }
  }

  /** What registering `d` reports and leaves behind for an id that has a head, left undisturbed. */
  ghost predicate QuietReregistration(hash: Hash, g: History, h: History, d: Descriptor, r: Result)
    requires g.head in g.rows
  {
    var steps := Steps(HeadState(g), d.state);
    if Settled(hash, g, d) then
      h == g && r == Result(d.id, Unchanged, Some(g.head), Plain)
    else if !CanBecome(HeadState(g), d.state) then
      h == g && r == Result(d.id, Failed, Some(g.head), NoLegalPath)
    else
      var n := Landings(hash, g, d, steps, 0);
      && Walked(hash, g, h, d, steps, n)
      && r == if n < |steps| then Result(d.id, Failed, Some(g.head), Raised)
          else Result(d.id, Updated, Some(hash(d)), Plain)
  }

  /** The same for a new id that the registry lands in state `s`. */
  ghost predicate QuietRegistration(hash: Hash, s: LifecycleState, h: History, d: Descriptor, r: Result) {
    var g := JustLanded(hash, d.(state := s));
    var steps := Route(s, d.state);
    if CanBecome(s, d.state) then
      && Walked(hash, g, h, d, steps, |steps|) && Settled(hash, h, d)
      && r == Result(d.id, Registered, Some(hash(d)), if s == d.state then Plain else Advanced)
    else
      h == g && r == Result(d.id, Failed, Some(g.head), NoLegalPath)
  }

  /** What registering `d` once, undisturbed, reports and leaves behind. */
  ghost predicate QuietResult(hash: Hash, lands: LifecycleState -> LifecycleState, was: Option<History>,
                              now: Option<History>, d: Descriptor, r: Result) {
    now.Some? &&
    match was
    case Some(g) => g.head in g.rows && QuietReregistration(hash, g, now.value, d, r)
    case None => QuietRegistration(hash, lands(d.state), now.value, d, r)
  }

  /** Every head an undisturbed registration of `d` moves. */
  function QuietMoves(hash: Hash, lands: LifecycleState -> LifecycleState, was: Option<History>, d: Descriptor):
      seq<Change>
    requires was.Some? ==> was.value.head in was.value.rows
  {
    match was
    case Some(g) =>
      var steps := Steps(HeadState(g), d.state);
      if Settled(hash, g, d) || !CanBecome(HeadState(g), d.state) then []
      else MovesOf(hash, g, d, steps, 0, Landings(hash, g, d, steps, 0))
    case None =>
      var s := lands(d.state);
      [Change(d.id, None, d.state, s)]
      + if CanBecome(s, d.state) then
          MovesOf(hash, JustLanded(hash, d.(state := s)), d, Route(s, d.state), 0, |Route(s, d.state)|)
        else []
  }

  lemma WalkStarts(hash: Hash, g: History, d: Descriptor, p: seq<LifecycleState>)
    requires g.head in g.rows
    ensures Walked(hash, g, g, d, p, 0)
  {
  }

  lemma QuietlyReregistered(hash: Hash, g: History, d: Descriptor, turns: Turns)
    requires Injective(hash) && Sound(hash, d.id, g) && SoundTurns(hash, d.id, turns) && QuietOnceRead(turns)
    ensures var o := Reregistering(hash, g, d, turns);
            && g.head in g.rows && o.now.Some?
            && QuietReregistration(hash, g, o.now.value, d, o.result)
            && o.moved == QuietMoves(hash, s => s, Some(g), d)
  {
    assert g.head in g.rows;
    if !Settled(hash, g, d) && CanBecome(HeadState(g), d.state) {
      var steps := Steps(HeadState(g), d.state);
      WalkStarts(hash, g, d, steps);
      QuietWalking(hash, g, g, d, steps, turns, 1, 0);
    }
    hide Injective, Sound, SoundTurns, CanBecome, Steps, Settled, Walking, Walked, Landings, MovesOf, QuietOnceRead;
  }

  /** No version of `d`, in whatever state, is stored under another state than its own. */
  ghost predicate Unaltered(hash: Hash, h: Option<History>, d: Descriptor) {
    h.Some? ==> forall e: Descriptor | e == d.(state := e.state) :: !Stale(hash, h.value, e)
  }

  lemma UnalteredColumn(hash: Hash, h: History, d: Descriptor, s: LifecycleState)
    requires Unaltered(hash, Some(h), d)
    ensures Column(hash, h, d.(state := s)) == s
  {
    assert !Stale(hash, h, d.(state := s));
  }

  lemma {:induction false} LandingsAre(hash: Hash, g: History, d: Descriptor, p: seq<LifecycleState>, i: nat, n: nat)
    requires g.head in g.rows && i <= n <= |p|
    requires forall k | i <= k < n :: Open(hash, g, d, p, k)
    requires n < |p| ==> !Open(hash, g, d, p, n)
    ensures Landings(hash, g, d, p, i) == n
    decreases n - i
  {
    hide Open;
    if i < n {
      LandingsAre(hash, g, d, p, i + 1, n);
    }
  }

  /** Where the columns are those of the documents, the walk along the route completes. */
  lemma RouteCompletes(hash: Hash, g: History, d: Descriptor)
    requires g.head in g.rows && CanBecome(HeadState(g), d.state) && Unaltered(hash, Some(g), d)
    ensures var steps := Steps(HeadState(g), d.state);
            Landings(hash, g, d, steps, 0) == |steps| && steps != [] && steps[|steps| - 1] == d.state
  {
    var steps := Steps(HeadState(g), d.state);
    StepsAreLegal(HeadState(g), d.state);
    hide Column, Permitted, Steps, CanBecome, Unaltered;
    forall k | 0 <= k < |steps| ensures Open(hash, g, d, steps, k) {
      if k > 0 {
        UnalteredColumn(hash, g, d, steps[k - 1]);
      }
      assert Reached(hash, g, d, steps, k) == Before(HeadState(g), steps, k);
    }
    LandingsAre(hash, g, d, steps, 0, |steps|);
  }

  lemma JustLandedUnaltered(hash: Hash, d: Descriptor, s: LifecycleState)
    requires Injective(hash)
    ensures var g := JustLanded(hash, d.(state := s));
            Sound(hash, d.id, g) && HeadState(g) == s && Unaltered(hash, Some(g), d)
  {
  }

  lemma WalkedToTheEnd(hash: Hash, g: History, h: History, d: Descriptor, p: seq<LifecycleState>)
    requires g.head in g.rows && p != [] && p[|p| - 1] == d.state && Walked(hash, g, h, d, p, |p|)
    ensures h.head == hash(d) && h.head in h.rows && HeadState(h) == Column(hash, g, d)
    ensures Settled(hash, h, d) <==> !Stale(hash, g, d)
  {
    assert d.(state := p[|p| - 1]) == d;
    hide Grown, RowsBefore;
  }

  lemma QuietlyRegistered(hash: Hash, s: LifecycleState, d: Descriptor, turns: Turns)
    requires Injective(hash) && SoundTurns(hash, d.id, turns) && QuietOnceRead(turns)
    ensures var o := RegisteringNew(hash, s, d, turns);
            && o.now.Some? && QuietRegistration(hash, s, o.now.value, d, o.result)
            && o.moved == QuietMoves(hash, _ => s, None, d)
  {
    assert TurnAt(turns, 1) == QUIET && TurnAt(turns, 2) == QUIET;
    var g := JustLanded(hash, d.(state := s));
    JustLandedUnaltered(hash, d, s);
    WalkStarts(hash, g, d, []);
    assert s == d.state ==> d.(state := s) == d;
    if s != d.state && CanBecome(s, d.state) {
      RouteCompletes(hash, g, d);
      var steps := Steps(s, d.state);
      WalkStarts(hash, g, d, steps);
      QuietWalking(hash, g, g, d, steps, turns, 3, 0);
      var run := Walking(hash, Some(g), d, steps, turns, 3, 0);
      WalkedToTheEnd(hash, g, run.now.value, d, steps);
      assert !Stale(hash, g, d) by {
        assert d == d.(state := d.state);
      }
    }
    hide Injective, Sound, SoundTurns, CanBecome, Walking, Walked, Landings, QuietOnceRead, Unaltered, Stale;
  }

  /** The outcome of a run that is left alone once it has read the head: what it reports, the history it leaves
      to the last row, and every move. */
  lemma QuietRun(hash: Hash, lands: LifecycleState -> LifecycleState, h: Option<History>, d: Descriptor, turns: Turns)
    requires Injective(hash) && SoundAt(hash, d.id, h) && SoundTurns(hash, d.id, turns) && QuietOnceRead(turns)
    ensures var was := Overtaken(h, TurnAt(turns, 0).arrives);
            var o := Registering(hash, lands, h, d, turns);
            && (was.Some? ==> was.value.head in was.value.rows)
            && QuietResult(hash, lands, was, o.now, d, o.result)
            && o.moved == QuietMoves(hash, lands, was, d)
  {
    TurnOf(hash, d.id, turns, 0);
    match Overtaken(h, TurnAt(turns, 0).arrives)
    case Some(g) => QuietlyReregistered(hash, g, d, turns);
    case None => QuietlyRegistered(hash, lands(d.state), d, turns);
    hide Injective, SoundTurns, Reregistering, RegisteringNew, QuietReregistration, QuietRegistration, Landings,
      MovesOf, Settled, CanBecome;
  }

  // When the moves of a run are allowed.

  /** Every landed step that changes the head finds the column of its version permitted from where the head is. */
  ghost predicate HopsAllowed(hash: Hash, was: Option<History>, d: Descriptor)
    requires was.Some? ==> was.value.head in was.value.rows
  {
    was.Some? ==>
      var g := was.value;
      var steps := Steps(HeadState(g), d.state);
      !Settled(hash, g, d) && CanBecome(HeadState(g), d.state) ==>
        forall i | 0 <= i < Landings(hash, g, d, steps, 0) && Moves(hash, g, d, steps, i) ::
          Permitted(Reached(hash, g, d, steps, i), Reached(hash, g, d, steps, i + 1))
  }

  lemma {:induction false} MovesLegal(hash: Hash, g: History, d: Descriptor, p: seq<LifecycleState>, i: nat, n: nat)
    requires g.head in g.rows && i <= n <= |p|
    ensures AllLegal(MovesOf(hash, g, d, p, i, n)) <==>
            forall k | i <= k < n && Moves(hash, g, d, p, k) ::
              Permitted(Reached(hash, g, d, p, k), Reached(hash, g, d, p, k + 1))
    decreases n - i
  {
    hide Moves, Reached, Permitted;
    if i < n {
      var rest := MovesOf(hash, g, d, p, i + 1, n);
      MovesLegal(hash, g, d, p, i + 1, n);
      if Moves(hash, g, d, p, i) {
        LegalJoined([MovesOf(hash, g, d, p, i, n)[0]], rest);
      } else {
        assert MovesOf(hash, g, d, p, i, n) == rest;
      }
    }
  }

  lemma LegalJoined(a: seq<Change>, b: seq<Change>)
    ensures AllLegal(a + b) <==> AllLegal(a) && AllLegal(b)
  {
    hide Legal;
    if AllLegal(a + b) {
      assert forall k | 0 <= k < |a| :: (a + b)[k] == a[k];
      assert forall k | 0 <= k < |b| :: (a + b)[|a| + k] == b[k];
    }
  }

  lemma UnalteredHops(hash: Hash, g: History, d: Descriptor, p: seq<LifecycleState>, n: nat)
    requires g.head in g.rows && n <= |p| && Unaltered(hash, Some(g), d)
    requires forall k | 0 <= k < n :: Open(hash, g, d, p, k)
    ensures AllLegal(MovesOf(hash, g, d, p, 0, n))
  {
    hide Unaltered, Column, Permitted, Moves;
    forall k | 0 <= k < n ensures Permitted(Reached(hash, g, d, p, k), Reached(hash, g, d, p, k + 1)) {
      UnalteredColumn(hash, g, d, p[k]);
      assert Open(hash, g, d, p, k);
    }
    MovesLegal(hash, g, d, p, 0, n);
  }

  /** The moves of an undisturbed run are permitted transitions exactly when the columns of the versions it
      promotes are; those of a new id always are. */
  lemma QuietMovesLegal(hash: Hash, lands: LifecycleState -> LifecycleState, was: Option<History>, d: Descriptor)
    requires Injective(hash) && (was.Some? ==> was.value.head in was.value.rows)
    ensures AllLegal(QuietMoves(hash, lands, was, d)) <==> HopsAllowed(hash, was, d)
  {
    match was
    case Some(g) =>
      var steps := Steps(HeadState(g), d.state);
      MovesLegal(hash, g, d, steps, 0, Landings(hash, g, d, steps, 0));
      hide Injective, MovesOf, Landings, Steps, CanBecome, Settled, Moves, Reached, Permitted, Open;
    case None =>
      var s := lands(d.state);
      var g, steps := JustLanded(hash, d.(state := s)), Route(s, d.state);
      JustLandedUnaltered(hash, d, s);
      if CanBecome(s, d.state) {
        if s != d.state {
          RouteCompletes(hash, g, d);
        }
        assert Landings(hash, g, d, steps, 0) == |steps|;
        UnalteredHops(hash, g, d, steps, |steps|);
        LegalJoined([Change(d.id, None, d.state, s)], MovesOf(hash, g, d, steps, 0, |steps|));
      }
      hide Injective, MovesOf, Landings, Steps, CanBecome, Unaltered, Sound, Open;
  }

  ghost predicate UnalteredTurn(hash: Hash, turn: Turn, d: Descriptor) {
    Unaltered(hash, turn.arrives, d) && Unaltered(hash, turn.intrudes, d)
  }

  ghost predicate UnalteredTurns(hash: Hash, turns: Turns, d: Descriptor) {
    forall n: nat :: UnalteredTurn(hash, TurnAt(turns, n), d)
  }

  lemma SupersededUnaltered(hash: Hash, h: History, d: Descriptor, s: LifecycleState)
    requires Injective(hash) && Unaltered(hash, Some(h), d)
    ensures Unaltered(hash, Some(Superseded(hash, h, d.(state := s))), d)
  {
    var next := Superseded(hash, h, d.(state := s));
    forall e: Descriptor | e == d.(state := e.state) ensures !Stale(hash, next, e) {
      assert !Stale(hash, h, e);
    }
  }

  lemma UpdateLegal(hash: Hash, h: Option<History>, d: Descriptor, s: LifecycleState, turn: Turn)
    requires Injective(hash) && SoundAt(hash, d.id, h) && SoundTurn(hash, d.id, turn)
    requires Unaltered(hash, h, d) && UnalteredTurn(hash, turn, d)
    ensures var run := Updating(hash, h, d.(state := s), turn);
            Unaltered(hash, run.now, d) && AllLegal(run.moved)
  {
    var was := Overtaken(h, turn.arrives);
    if was.Some? {
      var now := Overtaken(was, turn.intrudes).value;
      SupersededUnaltered(hash, now, d, s);
      assert !Stale(hash, now, d.(state := s)) by {
        assert Unaltered(hash, Some(now), d);
      }
      MoveIsLegal(hash, d.id, was.value, d.(state := s), turn);
      hide Unaltered, Stale, Sound, SoundTurn, Injective, Superseded, Permitted, Column;
    }
  }

  lemma {:induction false} WalkLegal(hash: Hash, h: Option<History>, d: Descriptor, p: seq<LifecycleState>,
                                     turns: Turns, n: nat, i: nat)
    requires Injective(hash) && SoundAt(hash, d.id, h) && SoundTurns(hash, d.id, turns) && i <= |p|
    requires Unaltered(hash, h, d) && UnalteredTurns(hash, turns, d)
    ensures var run := Walking(hash, h, d, p, turns, n, i);
            Unaltered(hash, run.now, d) && AllLegal(run.moved)
    decreases |p| - i
  {
    hide Injective, SoundAt, SoundTurns, Unaltered, Updating, UnalteredTurn;
    if i < |p| {
      TurnOf(hash, d.id, turns, n + i);
      UpdateLegal(hash, h, d, p[i], TurnAt(turns, n + i));
      var run := Updating(hash, h, d.(state := p[i]), TurnAt(turns, n + i));
      if run.reply.Landed? {
        WalkLegal(hash, run.now, d, p, turns, n, i + 1);
        LegalJoined(run.moved, Walking(hash, run.now, d, p, turns, n, i + 1).moved);
      }
    }
  }

  lemma NewRegistrationLegal(hash: Hash, s: LifecycleState, d: Descriptor, turns: Turns)
    requires Injective(hash) && SoundTurns(hash, d.id, turns) && UnalteredTurns(hash, turns, d)
    ensures var o := RegisteringNew(hash, s, d, turns);
            Unaltered(hash, o.now, d) && AllLegal(o.moved)
  {
    TurnOf(hash, d.id, turns, 1);
    TurnOf(hash, d.id, turns, 2);
    JustLandedUnaltered(hash, d, s);
    assert UnalteredTurn(hash, TurnAt(turns, 1), d) && UnalteredTurn(hash, TurnAt(turns, 2), d);
    var first, landed := Change(d.id, None, d.state, s), d.(state := s);
    var h := Overtaken(Some(JustLanded(hash, landed)), TurnAt(turns, 2).arrives).value;
    var o := Advancing(hash, h, hash(landed), d, turns);
    assert Unaltered(hash, Some(h), d);
    if CanBecome(HeadState(h), d.state) {
      WalkLegal(hash, Some(h), d, Steps(HeadState(h), d.state), turns, 3, 0);
    }
    assert AllLegal(o.moved) && Unaltered(hash, o.now, d);
    LegalJoined([first], o.moved);
    hide Injective, Sound, SoundTurns, Unaltered, Walking, CanBecome, Steps, Closing;
  }

  /** In any run, disturbed and cut short as it may be, every move is a permitted transition as long as nobody
      brings in a version of this descriptor stored under another state. */
  lemma RunIsLegal(hash: Hash, lands: LifecycleState -> LifecycleState, h: Option<History>, d: Descriptor, turns: Turns)
    requires Injective(hash) && SoundAt(hash, d.id, h) && SoundTurns(hash, d.id, turns)
    requires Unaltered(hash, h, d) && UnalteredTurns(hash, turns, d)
    ensures var o := Registering(hash, lands, h, d, turns);
            Unaltered(hash, o.now, d) && AllLegal(o.moved)
  {
    TurnOf(hash, d.id, turns, 0);
    assert UnalteredTurn(hash, TurnAt(turns, 0), d);
    match Overtaken(h, TurnAt(turns, 0).arrives)
    case Some(g) =>
      assert Unaltered(hash, Some(g), d);
      if CanBecome(HeadState(g), d.state) {
        WalkLegal(hash, Some(g), d, Steps(HeadState(g), d.state), turns, 1, 0);
      }
    case None => NewRegistrationLegal(hash, lands(d.state), d, turns);
    hide Injective, Sound, SoundTurns, Unaltered, Walking, RegisteringNew, CanBecome, Steps, Closing, Settled;
  }

  // A run that another writer gets in the way of.

  /** Once the head is read, nothing happens but that another writer gets into call `m` with `other`. */
  ghost predicate OneIntruder(turns: Turns, m: nat, other: History) {
    && m > 0
    && forall n: nat | n > 0 :: TurnAt(turns, n) == if n == m then Turn(None, Some(other), NoFault) else QUIET
  }

  /** The head that step `i` reads is no longer there when it writes. */
  ghost predicate Displaces(hash: Hash, g: History, d: Descriptor, p: seq<LifecycleState>, i: nat, other: History)
    requires g.head in g.rows && i <= |p| && other.head in other.rows
  {
    other.head != HeadBefore(hash, g, d, p, i) || HeadState(other) != Reached(hash, g, d, p, i)
  }

  /** The update that another writer gets into. */
  lemma IntrudedStep(hash: Hash, g: History, h: History, d: Descriptor, p: seq<LifecycleState>, i: nat, other: History)
    requires Sound(hash, d.id, h) && Sound(hash, d.id, other)
    requires g.head in g.rows && i < |p| && Walked(hash, g, h, d, p, i)
    ensures SoundTurn(hash, d.id, Turn(None, Some(other), NoFault))
    ensures var run := Updating(hash, Some(h), d.(state := p[i]), Turn(None, Some(other), NoFault));
            if Open(hash, g, d, p, i) && Displaces(hash, g, d, p, i, other) then run == Run(Some(other), Conflict, [])
            else !run.reply.Conflict?
  {
    hide Sound, Grown, RowsBefore, Permitted, Superseded;
  }

  lemma AfterIntruder(hash: Hash, h: History, d: Descriptor, p: seq<LifecycleState>, turns: Turns, n: nat, i: nat,
                      other: History)
    requires Sound(hash, d.id, h) && SoundTurns(hash, d.id, turns) && OneIntruder(turns, n + i, other)
    requires n > 0 && i < |p| && p[|p| - 1] == d.state
    ensures SoundTurn(hash, d.id, TurnAt(turns, n + i))
    ensures var run := Updating(hash, Some(h), d.(state := p[i]), TurnAt(turns, n + i));
            && (!run.reply.Landed? ==> Walking(hash, Some(h), d, p, turns, n, i) == run)
            && (run.reply.Landed? ==> !Walking(hash, Some(h), d, p, turns, n, i).reply.Conflict?)
  {
    TurnOf(hash, d.id, turns, n + i);
    var turn := TurnAt(turns, n + i);
    UpdateReplies(hash, Some(h), d.(state := p[i]), turn);
    var run := Updating(hash, Some(h), d.(state := p[i]), turn);
    if run.reply.Landed? {
      WalkReplies(hash, run.now, d, p, turns, n, i + 1);
    }
    hide Updating, Sound, SoundTurns;
  }

  lemma IntrudedNow(hash: Hash, g: History, h: History, d: Descriptor, p: seq<LifecycleState>, turns: Turns,
                    n: nat, i: nat, other: History)
    requires Sound(hash, d.id, g) && Sound(hash, d.id, h) && SoundTurns(hash, d.id, turns)
    requires Sound(hash, d.id, other) && OneIntruder(turns, n + i, other)
    requires n > 0 && i <= |p| && Walked(hash, g, h, d, p, i) && p != [] && p[|p| - 1] == d.state
    ensures var run := Walking(hash, Some(h), d, p, turns, n, i);
            && (run.reply.Conflict? <==> i < Landings(hash, g, d, p, i) && Displaces(hash, g, d, p, i, other))
            && (run.reply.Conflict? ==> run == Run(Some(other), Conflict, []))
  {
    assert g.head in g.rows && other.head in other.rows;
    hide Sound, SoundTurns, Walked, Open, Updating, Displaces;
    if i < |p| {
      IntrudedStep(hash, g, h, d, p, i, other);
      AfterIntruder(hash, h, d, p, turns, n, i, other);
    }
  }

  lemma {:induction false} IntrudedWalk(hash: Hash, g: History, h: History, d: Descriptor, p: seq<LifecycleState>,
                                        turns: Turns, n: nat, i: nat, m: nat, other: History)
    requires Injective(hash) && Sound(hash, d.id, g) && Sound(hash, d.id, h) && SoundTurns(hash, d.id, turns)
    requires Sound(hash, d.id, other) && OneIntruder(turns, n + m, other)
    requires n > 0 && i <= |p| && i <= m && Walked(hash, g, h, d, p, i) && p != [] && p[|p| - 1] == d.state
    ensures var run := Walking(hash, Some(h), d, p, turns, n, i);
            && (run.reply.Conflict? <==> m < Landings(hash, g, d, p, i) && Displaces(hash, g, d, p, m, other))
            && (run.reply.Conflict? ==> run == Run(Some(other), Conflict, MovesOf(hash, g, d, p, i, m)))
    decreases |p| - i
  {
    assert g.head in g.rows && other.head in other.rows;
    hide Injective, Sound, SoundTurns, Walked, Open, Updating, Moves, Reached, Displaces, HeadBefore;
    if i == m {
      IntrudedNow(hash, g, h, d, p, turns, n, i, other);
    } else if i < |p| {
      TurnOf(hash, d.id, turns, n + i);
      assert TurnAt(turns, n + i) == QUIET;
      hide OneIntruder;
      StepOfWalk(hash, g, h, d, p, i);
      if Open(hash, g, d, p, i) {
        var next := Updating(hash, Some(h), d.(state := p[i]), QUIET).now.value;
        IntrudedWalk(hash, g, next, d, p, turns, n, i + 1, m, other);
      }
    }
  }

  /** One intruder makes a registration lose the race exactly when the walk gets as far as the call it gets
      into, and that call finds another head or state than it read. The intruder's history stands, the report
      says unchanged and names its head, and the steps before have moved the head. */
  ghost predicate RaceDecided(hash: Hash, g: History, d: Descriptor, m: nat, other: History, o: Outcome) {
    && m > 0 && g.head in g.rows && other.head in other.rows
    && var steps := Steps(HeadState(g), d.state);
       && (o.result.detail == LostRace <==>
             && !Settled(hash, g, d) && CanBecome(HeadState(g), d.state)
             && m <= Landings(hash, g, d, steps, 0) && Displaces(hash, g, d, steps, m - 1, other))
       && (o.result.detail == LostRace ==>
             o == Outcome(Some(other), Result(d.id, Unchanged, Some(other.head), LostRace),
                          MovesOf(hash, g, d, steps, 0, m - 1)))
  }

  lemma RaceOverHead(hash: Hash, g: History, d: Descriptor, turns: Turns, m: nat, other: History)
    requires Injective(hash) && Sound(hash, d.id, g) && SoundTurns(hash, d.id, turns)
    requires Sound(hash, d.id, other) && OneIntruder(turns, m, other)
    ensures RaceDecided(hash, g, d, m, other, Reregistering(hash, g, d, turns))
  {
    assert g.head in g.rows && other.head in other.rows;
    var steps := Steps(HeadState(g), d.state);
    if !Settled(hash, g, d) && CanBecome(HeadState(g), d.state) {
      StepsAreLegal(HeadState(g), d.state);
      WalkStarts(hash, g, d, steps);
      IntrudedWalk(hash, g, g, d, steps, turns, 1, 0, m - 1, other);
    }
    hide Injective, Sound, SoundTurns, Walking, CanBecome, Steps, Settled, Landings, MovesOf, Displaces, Walked;
  }

  /** The race decided for a whole run of `register_descriptor` on an id that has a head. */
  lemma LostRaceIsUnchanged(hash: Hash, lands: LifecycleState -> LifecycleState, h: Option<History>, d: Descriptor,
                            turns: Turns, m: nat, other: History)
    requires Injective(hash) && SoundAt(hash, d.id, h) && SoundTurns(hash, d.id, turns)
    requires OneIntruder(turns, m, other) && Overtaken(h, TurnAt(turns, 0).arrives).Some?
    ensures RaceDecided(hash, Overtaken(h, TurnAt(turns, 0).arrives).value, d, m, other,
                        Registering(hash, lands, h, d, turns))
  {
    TurnOf(hash, d.id, turns, 0);
    TurnOf(hash, d.id, turns, m);
    assert TurnAt(turns, m) == Turn(None, Some(other), NoFault);
    RaceOverHead(hash, Overtaken(h, TurnAt(turns, 0).arrives).value, d, turns, m, other);
    hide Injective, Sound, SoundTurns, Reregistering, RaceDecided, OneIntruder;
  }

  // Every run.

  /** What is promised of a run that starts from `h`, whatever the turns around it.
      Every report keeps its word about the head and the moves, and a lost race names the head of its winner.
      Left alone once it has read the head, the run has one outcome, to the last row and move, and its moves are
      permitted transitions if and only if the columns it promotes are. Disturbed or cut short, every move is
      permitted as long as no version of `d` is or gets stored under another state than its own. A single
      intruder wins the race in exactly the runs that get as far as the call it gets into. */
  ghost predicate Promised(hash: Hash, lands: LifecycleState -> LifecycleState, h: Option<History>, d: Descriptor,
                           turns: Turns, o: Outcome) {
    var was := Overtaken(h, TurnAt(turns, 0).arrives);
    && Kept(hash, o, d, turns)
    && (was.Some? ==> was.value.head in was.value.rows)
    && (QuietOnceRead(turns) ==>
          && QuietResult(hash, lands, was, o.now, d, o.result)
          && o.moved == QuietMoves(hash, lands, was, d)
          && (AllLegal(o.moved) <==> HopsAllowed(hash, was, d)))
    && (Unaltered(hash, h, d) && UnalteredTurns(hash, turns, d) ==> AllLegal(o.moved))
    && (was.Some? ==>
          forall m, other | OneIntruder(turns, m, other) :: RaceDecided(hash, was.value, d, m, other, o))
  }

  lemma RunMeetsPromise(hash: Hash, lands: LifecycleState -> LifecycleState, h: Option<History>, d: Descriptor,
                        turns: Turns)
    requires Injective(hash) && SoundAt(hash, d.id, h) && SoundTurns(hash, d.id, turns)
    ensures Promised(hash, lands, h, d, turns, Registering(hash, lands, h, d, turns))
  {
    TurnOf(hash, d.id, turns, 0);
    var was := Overtaken(h, TurnAt(turns, 0).arrives);
    assert was.Some? ==> was.value.head in was.value.rows;
    RegistrationKeeps(hash, lands, h, d, turns);
    if QuietOnceRead(turns) {
      QuietRun(hash, lands, h, d, turns);
      QuietMovesLegal(hash, lands, was, d);
    }
    if Unaltered(hash, h, d) && UnalteredTurns(hash, turns, d) {
      RunIsLegal(hash, lands, h, d, turns);
    }
    if was.Some? {
      forall m, other | OneIntruder(turns, m, other)
        ensures RaceDecided(hash, was.value, d, m, other, Registering(hash, lands, h, d, turns))
      {
        LostRaceIsUnchanged(hash, lands, h, d, turns, m, other);
      }
    }
    hide Injective, SoundAt, SoundTurns, QuietOnceRead, Kept, QuietResult, Registering, QuietMoves, AllLegal,
      HopsAllowed, Unaltered, UnalteredTurns, OneIntruder, RaceDecided;
  }

  // What an undisturbed run amounts to.

  /** The documented promise, "an updated descriptor is at its declared state", exactly: it holds
      unless the declared version is stored under another state. */
  lemma UpdatedReachesDeclaredState(hash: Hash, g: History, h: History, d: Descriptor, r: Result)
    requires g.head in g.rows && QuietReregistration(hash, g, h, d, r) && r.action == Updated
    ensures h.head == hash(d) && r.version == Some(hash(d)) && h.head in h.rows && HeadState(h) == Column(hash, g, d)
    ensures Settled(hash, h, d) <==> !Stale(hash, g, d)
  {
    StepsAreLegal(HeadState(g), d.state);
    WalkedToTheEnd(hash, g, h, d, Steps(HeadState(g), d.state));
    hide Landings, Steps, CanBecome, Walked;
  }

  /** A registration undisturbed updates exactly when there is something to do, a legal path to do it by, and
      no version strictly inside that path stored under a state its next hop is not allowed from. */
  lemma UpdateCompletes(hash: Hash, g: History, h: History, d: Descriptor, r: Result)
    requires g.head in g.rows && QuietReregistration(hash, g, h, d, r)
    ensures var steps := Steps(HeadState(g), d.state);
            r.action == Updated <==>
              && !Settled(hash, g, d) && CanBecome(HeadState(g), d.state)
              && forall k | 0 < k < |steps| :: Permitted(Column(hash, g, d.(state := steps[k - 1])), steps[k])
  {
    var steps := Steps(HeadState(g), d.state);
    if CanBecome(HeadState(g), d.state) {
      StepsAreLegal(HeadState(g), d.state);
      assert Before(HeadState(g), steps, 0) == HeadState(g);
      assert Open(hash, g, d, steps, 0);
      assert forall k | 0 < k < |steps| ::
          Open(hash, g, d, steps, k) <==> Permitted(Column(hash, g, d.(state := steps[k - 1])), steps[k]);
    }
    hide Landings, Steps, CanBecome, Walked, Open, Column;
  }

  /** Two documents of one id, both declared active: the first is the head, the second was the head,
      was retired, and was rolled back from. Registering the second again revives the retired row. */
  lemma StaleVersionIsRevived(hash: Hash, d1: Descriptor, d2: Descriptor, h: History, r: Result)
    requires Injective(hash) && d1.id == d2.id && d1.body != d2.body && d1.state == Active && d2.state == Active
    requires var g := History(map[hash(d1) := Row(Active, d1), hash(d2) := Row(Retired, d2)], hash(d1));
             QuietReregistration(hash, g, h, d2, r)
    ensures var g := History(map[hash(d1) := Row(Active, d1), hash(d2) := Row(Retired, d2)], hash(d1));
            Sound(hash, d1.id, g) && HeadState(g) == Active
    ensures r == Result(d2.id, Updated, Some(hash(d2)), Plain)
    ensures h.head in h.rows && HeadState(h) == Retired
  {
    var g := History(map[hash(d1) := Row(Active, d1), hash(d2) := Row(Retired, d2)], hash(d1));
    assert hash(d1) != hash(d2);
    UpdateCompletes(hash, g, h, d2, r);
    UpdatedReachesDeclaredState(hash, g, h, d2, r);
    hide QuietReregistration;
  }

  /** An update that takes a single call promotes or inserts the declared version, and does nothing else. */
  lemma SingleStep(hash: Hash, g: History, h: History, d: Descriptor, r: Result)
    requires g.head in g.rows && QuietReregistration(hash, g, h, d, r) && r.action == Updated
    requires Permitted(HeadState(g), d.state)
    ensures h == Superseded(hash, g, d)
  {
    assert Steps(HeadState(g), d.state) == [d.state];
    assert d.(state := d.state) == d;
    assert RowsBefore(hash, g, d, [d.state], 0) == g.rows;
    hide Grown, Column;
  }

  /** A head at the declared document that was paused in place: registering it again reports an update, and
      changes nothing at all. */
  lemma PausedHeadStaysPaused(hash: Hash, d: Descriptor, h: History, r: Result)
    requires Injective(hash) && d.state == Active
    requires QuietReregistration(hash, History(map[hash(d) := Row(Paused, d)], hash(d)), h, d, r)
    ensures Sound(hash, d.id, History(map[hash(d) := Row(Paused, d)], hash(d)))
    ensures r == Result(d.id, Updated, Some(hash(d)), Plain)
    ensures h == History(map[hash(d) := Row(Paused, d)], hash(d))
  {
    var g := History(map[hash(d) := Row(Paused, d)], hash(d));
    UpdateCompletes(hash, g, h, d, r);
    SingleStep(hash, g, h, d, r);
    hide QuietReregistration;
  }
}
