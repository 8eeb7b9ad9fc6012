/** The idempotent registration of one descriptor, which walks a stale head to the declared state one
    legal hop at a time while others write to it and calls fail. */
module Registrar {
  import opened Ordering
  import opened LegalPath
  import opened Lifecycle
  import opened DescriptorRegistry
  import opened Registration

  lemma ValidEntry(reg: Registry, id: Id)
    requires reg.Valid()
    ensures SoundAt(reg.hash, id, reg.Entry(id))
  {
  }

  /** One update of the walk, since the registry held `table`. */
  method Advance(reg: Registry, d: Descriptor, turns: Turns, n: nat, ghost table: map<Id, History>)
    returns (reply: Reply)
    requires reg.Valid() && SoundTurn(reg.hash, d.id, TurnAt(turns, n)) && OthersKept(table, reg.table, d.id)
    requires SoundAt(reg.hash, d.id, reg.Entry(d.id))
    modifies reg
    ensures reg.Valid() && OthersKept(table, reg.table, d.id) && SoundAt(reg.hash, d.id, reg.Entry(d.id))
    ensures Run(reg.Entry(d.id), reply, reg.trail) ==
            Continued(old(reg.trail), Updating(reg.hash, old(reg.Entry(d.id)), d, TurnAt(turns, n)))
  {
    ghost var was := reg.table;
    hide UpdateOutcome, reg.Valid;
    reply := reg.Update(d, TurnAt(turns, n));
    OthersKeptCompose(table, was, reg.table, d.id);
  }

  /** What the walk amounts to, from what it has done before step `i` and what that step does. */
  lemma WalkUnfolds(hash: Hash, h: Option<History>, d: Descriptor, p: seq<LifecycleState>, turns: Turns, n: nat,
                    i: nat, moved: seq<Change>)
    requires SoundAt(hash, d.id, h) && SoundTurns(hash, d.id, turns) && i < |p|
    ensures SoundTurn(hash, d.id, TurnAt(turns, n + i))
    ensures var whole := Continued(moved, Walking(hash, h, d, p, turns, n, i));
            var run := Updating(hash, h, d.(state := p[i]), TurnAt(turns, n + i));
            var so := Continued(moved, run);
            && (!so.reply.Landed? ==> whole == so)
            && (so.reply.Landed? ==>
                  && so.reply == Landed(hash(d.(state := p[i])))
                  && whole == Continued(so.moved, Walking(hash, so.now, d, p, turns, n, i + 1)))
  {
    TurnOf(hash, d.id, turns, n + i);
    UpdateReplies(hash, h, d.(state := p[i]), TurnAt(turns, n + i));
    hide Updating, SoundAt, Sound, SoundTurn, SoundTurns;
    var run := Updating(hash, h, d.(state := p[i]), TurnAt(turns, n + i));
    ContinuedTwice(moved, run.moved, Walking(hash, run.now, d, p, turns, n, i + 1));
  }

  lemma ContinuedTwice(a: seq<Change>, b: seq<Change>, rest: Run)
    ensures Continued(a, Continued(b, rest)) == Continued(a + b, rest)
  {
  }

  /** The stepwise walk of `register_descriptor`; it ends early with the first call that does not land. */
  method WalkTo(reg: Registry, d: Descriptor, path: seq<LifecycleState>, turns: Turns, base: nat)
    returns (reply: Reply)
    requires reg.Valid() && SoundTurns(reg.hash, d.id, turns) && SoundAt(reg.hash, d.id, reg.Entry(d.id))
    requires path != [] && path[|path| - 1] == d.state
    modifies reg
    ensures reg.Valid() && OthersKept(old(reg.table), reg.table, d.id)
    ensures Run(reg.Entry(d.id), reply, reg.trail) ==
            Continued(old(reg.trail), Walking(reg.hash, old(reg.Entry(d.id)), d, path, turns, base, 0))
  {
    hide *;
    ghost var table := reg.table;
    ghost var whole := Continued(reg.trail, Walking(reg.hash, reg.Entry(d.id), d, path, turns, base, 0));
    OthersKeptSame(table, d.id);
    var i := 0;
    reply := Refused;
    while i < |path|
      invariant 0 <= i <= |path|
      invariant reg.Valid() && OthersKept(table, reg.table, d.id) && SoundAt(reg.hash, d.id, reg.Entry(d.id))
      invariant i > 0 ==> reply == Landed(reg.hash(d.(state := path[i - 1])))
      invariant whole == Continued(reg.trail, Walking(reg.hash, reg.Entry(d.id), d, path, turns, base, i))
    {
      var e := d.(state := path[i]);
      WalkUnfolds(reg.hash, reg.Entry(d.id), d, path, turns, base, i, reg.trail);
      reply := Advance(reg, e, turns, base + i, table);
      if !reply.Landed? {
        return;
      }
      i := i + 1;
    }
    assert d.(state := path[|path| - 1]) == d;
    WalkIsOver(reg.hash, reg.Entry(d.id), d, path, turns, base, reg.trail);
  }

  lemma WalkIsOver(hash: Hash, h: Option<History>, d: Descriptor, p: seq<LifecycleState>, turns: Turns, n: nat,
                   moved: seq<Change>)
    requires SoundAt(hash, d.id, h) && SoundTurns(hash, d.id, turns)
    ensures Continued(moved, Walking(hash, h, d, p, turns, n, |p|)) == Run(h, Landed(hash(d)), moved)
  {
  }

  lemma OthersKeptSame(table: map<Id, History>, id: Id)
    ensures OthersKept(table, table, id)
  {
  }

  /** `_legal_path` on the lifecycle: the shortest walk, when there is one. */
  method PathTo(from: LifecycleState, to: LifecycleState) returns (path: Option<seq<LifecycleState>>)
    requires from != to
    ensures path.None? <==> !CanBecome(from, to)
    ensures path.Some? ==> path.value == Steps(from, to)
  {
    LifecycleIsClosed();
    LifecycleReach(from, to);
    hide Route, Shortest, Reachable, Closed, CanBecome, Successors;
    path := FindLegalPath(ALLOWED_TRANSITIONS, from, to);
    if path.Some? {
      ShortestIsRoute(from, path.value, to);
    }
  }

  method ReadHead(reg: Registry, id: Id, turns: Turns, n: nat) returns (head: Option<(Version, LifecycleState)>)
    requires reg.Valid() && SoundTurns(reg.hash, id, turns)
    modifies reg`table
    ensures reg.Valid() && OthersKept(old(reg.table), reg.table, id)
    ensures reg.Entry(id) == Overtaken(old(reg.Entry(id)), TurnAt(turns, n).arrives)
    ensures head.None? <==> reg.Entry(id).None?
    ensures head.Some? ==>
              var h := reg.Entry(id).value; Sound(reg.hash, id, h) && head.value == (h.head, HeadState(h))
  {
    TurnOf(reg.hash, id, turns, n);
    reg.Meet(id, TurnAt(turns, n).arrives);
    if id !in reg.table {
      return None;
    }
    return Some((reg.table[id].head, HeadState(reg.table[id])));
  }

  /** `register_descriptor` for an id whose head was just read. */
  method Reregister(reg: Registry, d: Descriptor, turns: Turns) returns (r: Result)
    requires reg.Valid() && SoundTurns(reg.hash, d.id, turns)
    requires reg.Entry(d.id).Some? && Sound(reg.hash, d.id, reg.Entry(d.id).value)
    modifies reg
    ensures reg.Valid() && OthersKept(old(reg.table), reg.table, d.id)
    ensures Outcome(reg.Entry(d.id), r, reg.trail) ==
            Onto(old(reg.trail), Reregistering(reg.hash, old(reg.Entry(d.id)).value, d, turns))
  {
    ghost var g := reg.Entry(d.id).value;
    var version, state := reg.Entry(d.id).value.head, HeadState(reg.Entry(d.id).value);
    assert Settled(reg.hash, g, d) <==> version == reg.hash(d) && state == d.state;
    if CanBecome(state, d.state) {
      StepsAreLegal(state, d.state);
    }
    SameState(d.state);
    SingleUpdate(reg.hash, Some(g), d, turns, 1);
    hide Sound, SoundTurns, reg.Valid, CanBecome, Walking, Updating, Settled, Closing;
    if version == reg.hash(d) && state == d.state {
      return Result(d.id, Unchanged, Some(version), Plain);
    }
    var reply;
    if state == d.state {
      reply := Advance(reg, d, turns, 1, reg.table);
    } else {
      var path := PathTo(state, d.state);
      if path.None? {
        return Result(d.id, Failed, Some(version), NoLegalPath);
      }
      reply := WalkTo(reg, d, path.value, turns, 1);
    }
    return Closing(reply, Updated, Plain, d, reg.Entry(d.id), Some(version));
  }

  lemma SameState(s: LifecycleState)
    ensures CanBecome(s, s) && Steps(s, s) == [s]
  {
  }

  /** A head already in the declared state takes one update, as a walk of one step. */
  lemma SingleUpdate(hash: Hash, h: Option<History>, d: Descriptor, turns: Turns, n: nat)
    requires SoundAt(hash, d.id, h) && SoundTurns(hash, d.id, turns)
    ensures SoundTurn(hash, d.id, TurnAt(turns, n))
    ensures Walking(hash, h, d, [d.state], turns, n, 0) == Updating(hash, h, d, TurnAt(turns, n))
  {
    TurnOf(hash, d.id, turns, n);
    UpdateReplies(hash, h, d, TurnAt(turns, n));
    assert d.(state := d.state) == d;
    var run := Updating(hash, h, d, TurnAt(turns, n));
    if run.reply.Landed? {
      WalkIsOver(hash, run.now, d, [d.state], turns, n, run.moved);
    }
    hide Updating, SoundTurn, SoundTurns, SoundAt;
  }

  /** What follows the registration of a new id: walk on from wherever the registry landed it. */
  method AdvanceNew(reg: Registry, d: Descriptor, state: LifecycleState, version: Version, turns: Turns)
    returns (r: Result)
    requires reg.Valid() && SoundTurns(reg.hash, d.id, turns)
    requires reg.Entry(d.id).Some? && Sound(reg.hash, d.id, reg.Entry(d.id).value)
    requires state == HeadState(reg.Entry(d.id).value)
    modifies reg
    ensures reg.Valid() && OthersKept(old(reg.table), reg.table, d.id)
    ensures Outcome(reg.Entry(d.id), r, reg.trail) ==
            Onto(old(reg.trail), Advancing(reg.hash, old(reg.Entry(d.id)).value, version, d, turns))
  {
    hide SoundTurns, reg.Valid, CanBecome, Closing, Sound, Steps, Walking;
    if d.state == state {
      return Result(d.id, Registered, Some(version), Plain);
    }
    var path := PathTo(state, d.state);
    if path.None? {
      return Result(d.id, Failed, Some(version), NoLegalPath);
    }
    PathEnds(state, d.state);
    var reply := WalkTo(reg, d, path.value, turns, 3);
    return Closing(reply, Registered, Advanced, d, reg.Entry(d.id), None);
  }

  /** `register_descriptor` for an id that had no head. */
  method RegisterNew(reg: Registry, d: Descriptor, turns: Turns) returns (r: Result)
    requires reg.Valid() && SoundTurns(reg.hash, d.id, turns) && reg.Entry(d.id).None?
    modifies reg
    ensures reg.Valid() && OthersKept(old(reg.table), reg.table, d.id)
    ensures Outcome(reg.Entry(d.id), r, reg.trail) ==
            Onto(old(reg.trail), RegisteringNew(reg.hash, reg.lands(d.state), d, turns))
  {
    TurnOf(reg.hash, d.id, turns, 1);
    ghost var table := reg.table;
    hide SoundTurns, SoundTurn, reg.Valid, Closing, Sound, Advancing, OthersKept;
    var reply := reg.Register(d, TurnAt(turns, 1));
    if !reply.Landed? {
      return Closing(reply, Registered, Advanced, d, reg.Entry(d.id), None);
    }
    ghost var landed := reg.table;
    var post := ReadHead(reg, d.id, turns, 2);
    OthersKeptCompose(table, landed, reg.table, d.id);
    ghost var read := reg.table;
    r := AdvanceNew(reg, d, if post.Some? then post.value.1 else Draft, reply.version, turns);
    OthersKeptCompose(table, read, reg.table, d.id);
  }

  lemma PathEnds(from: LifecycleState, to: LifecycleState)
    requires CanBecome(from, to)
    ensures Steps(from, to) != [] && Steps(from, to)[|Steps(from, to)| - 1] == to
  {
    StepsAreLegal(from, to);
  }

  /** `register_descriptor`. What it leaves behind, reports and moves is `Registering` of the history it starts
      from, whatever happens around it, and meets what is promised of every run. */
  method RegisterDescriptor(reg: Registry, d: Descriptor, turns: Turns) returns (r: Result)
    requires reg.Valid() && SoundTurns(reg.hash, d.id, turns)
    modifies reg
    ensures reg.Valid() && OthersKept(old(reg.table), reg.table, d.id)
    ensures SoundAt(reg.hash, d.id, old(reg.Entry(d.id)))
    ensures |old(reg.trail)| <= |reg.trail| && reg.trail[..|old(reg.trail)|] == old(reg.trail)
    ensures var o := Outcome(reg.Entry(d.id), r, reg.trail[|old(reg.trail)|..]);
            && o == Registering(reg.hash, reg.lands, old(reg.Entry(d.id)), d, turns)
            && Promised(reg.hash, reg.lands, old(reg.Entry(d.id)), d, turns, o)
  {
    ValidEntry(reg, d.id);
    assert Injective(reg.hash);
    ghost var before, table, trail := reg.Entry(d.id), reg.table, reg.trail;
    RunMeetsPromise(reg.hash, reg.lands, before, d, turns);
    hide SoundTurns, Reregistering, RegisteringNew, Promised, reg.Valid, OthersKept, Sound;
    var head := ReadHead(reg, d.id, turns, 0);
    ghost var read := reg.table;
    if head.None? {
      r := RegisterNew(reg, d, turns);
    } else {
      r := Reregister(reg, d, turns);
    }
    OthersKeptCompose(table, read, reg.table, d.id);
    assert reg.trail[|trail|..] == Registering(reg.hash, reg.lands, before, d, turns).moved;
  }

  lemma UnchangedMeansSettled(hash: Hash, lands: LifecycleState -> LifecycleState, was: Option<History>,
                              now: Option<History>, d: Descriptor, r: Result)
    requires QuietResult(hash, lands, was, now, d, r)
    ensures r.action == Unchanged <==> was.Some? && Settled(hash, was.value, d)
    ensures r.action == Unchanged ==> now == was && r == Result(d.id, Unchanged, Some(hash(d)), Plain)
  {
    hide Landings, Walked, Steps, CanBecome;
  }

  /** A walk that stops short leaves the head short of its target. */
  lemma StoppedShort(hash: Hash, g: History, h: History, d: Descriptor, r: Result)
    requires Injective(hash) && g.head in g.rows && QuietReregistration(hash, g, h, d, r) && r.action == Failed
    ensures !Settled(hash, h, d)
  {
    if CanBecome(HeadState(g), d.state) {
      var steps := Steps(HeadState(g), d.state);
      var n := Landings(hash, g, d, steps, 0);
      StepsAreLegal(HeadState(g), d.state);
      if n > 0 {
        assert d.(state := steps[n - 1]) != d;
        assert hash(d.(state := steps[n - 1])) != hash(d);
      }
    }
    hide Landings, Steps, CanBecome, Grown, RowsBefore;
  }

  lemma SettledAfter(hash: Hash, lands: LifecycleState -> LifecycleState, was: Option<History>,
                     now: Option<History>, d: Descriptor, r: Result)
    requires Injective(hash) && QuietResult(hash, lands, was, now, d, r)
    ensures Settled(hash, now.value, d) <==>
            r.action == Registered || r.action == Unchanged
            || (r.action == Updated && was.Some? && !Stale(hash, was.value, d))
  {
    match was
    case Some(g) =>
      if r.action == Updated {
        UpdatedReachesDeclaredState(hash, g, now.value, d, r);
      } else if r.action == Failed {
        StoppedShort(hash, g, now.value, d, r);
      }
      hide Landings, Steps, CanBecome, Walked, Stale;
    case None =>
      assert lands(d.state) != d.state ==> d.(state := lands(d.state)) != d;
      hide Stale, Walked, Route;
  }

  /** The second of two undisturbed registrations reports unchanged exactly when the first registered the
      descriptor, found it settled, or updated it to a version that was not stored under another state. */
  lemma SecondIsUnchanged(hash: Hash, lands: LifecycleState -> LifecycleState, was: Option<History>,
                          now: Option<History>, last: Option<History>, d: Descriptor, first: Result, second: Result)
    requires Injective(hash)
    requires QuietResult(hash, lands, was, now, d, first) && QuietResult(hash, lands, now, last, d, second)
    ensures second.action == Unchanged <==>
            first.action == Registered || first.action == Unchanged
            || (first.action == Updated && was.Some? && !Stale(hash, was.value, d))
    ensures second.action == Unchanged ==>
              && last == now && now.Some? && Settled(hash, now.value, d)
              && second == Result(d.id, Unchanged, Some(hash(d)), Plain)
  {
    SettledAfter(hash, lands, was, now, d, first);
    UnchangedMeansSettled(hash, lands, now, last, d, second);
    hide QuietResult, Stale, Settled;
  }

  /** Registering a descriptor the lifecycle lets its head become, undisturbed and with every version of it
      stored under its own state, settles it; what is settled already is reported unchanged and left alone. */
  lemma RegistrationSettles(hash: Hash, lands: LifecycleState -> LifecycleState, was: Option<History>,
                            now: Option<History>, d: Descriptor, r: Result)
    requires Injective(hash) && QuietResult(hash, lands, was, now, d, r) && Unaltered(hash, was, d)
    requires CanBecome(if was.Some? then HeadState(was.value) else lands(d.state), d.state)
    ensures now.Some? && now.value.head == hash(d) && hash(d) in now.value.rows
    ensures now.value.rows[hash(d)].state == d.state && r.version == Some(hash(d)) && r.action != Failed
    ensures r.action == Unchanged <==> was.Some? && was.value.head == hash(d) && HeadState(was.value) == d.state
    ensures r.action == Unchanged ==> now == was
  {
    if was.Some? {
      RouteCompletes(hash, was.value, d);
      if !Settled(hash, was.value, d) {
        UpdatedReachesDeclaredState(hash, was.value, now.value, d, r);
      }
      assert d.(state := d.state) == d;
    }
    hide Landings, Walked, Steps, Route;
  }

  lemma NewIdIsRegistered(hash: Hash, lands: LifecycleState -> LifecycleState, now: Option<History>,
                          d: Descriptor, r: Result)
    requires QuietResult(hash, lands, None, now, d, r)
    ensures r.action == Registered <==> CanBecome(lands(d.state), d.state)
  {
  }

  /** Registering a descriptor twice, undisturbed. */
  method RegisterTwice(reg: Registry, d: Descriptor, turns: Turns) returns (first: Result, second: Result)
    requires reg.Valid() && SoundTurns(reg.hash, d.id, turns) && Quiet(turns)
    modifies reg
    ensures old(reg.Entry(d.id)).None? ==> (first.action == Registered <==> CanBecome(reg.lands(d.state), d.state))
    ensures var was := old(reg.Entry(d.id));
            second.action == Unchanged <==>
            first.action == Registered || first.action == Unchanged
            || (first.action == Updated && was.Some? && !Stale(reg.hash, was.value, d))
    ensures second.action == Unchanged ==> reg.Entry(d.id).Some? && Settled(reg.hash, reg.Entry(d.id).value, d)
  {
    assert Injective(reg.hash);
    assert QuietOnceRead(turns) && TurnAt(turns, 0) == QUIET;
    hide Quiet, QuietOnceRead, SoundTurns, Kept, QuietResult, Stale, Settled, reg.Valid, Injective, CanBecome,
      QuietMoves, AllLegal, HopsAllowed, Unaltered, UnalteredTurns, OneIntruder, RaceDecided, Registering;
    ghost var was := reg.Entry(d.id);
    first := RegisterDescriptor(reg, d, turns);
    ghost var now := reg.Entry(d.id);
    second := RegisterDescriptor(reg, d, turns);
    if was.None? {
      NewIdIsRegistered(reg.hash, reg.lands, now, d, first);
    }
    SecondIsUnchanged(reg.hash, reg.lands, was, now, reg.Entry(d.id), d, first, second);
  }
}
