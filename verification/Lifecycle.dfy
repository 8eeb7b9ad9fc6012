/** The lifecycle of a descriptor: its five states and the hops the registry allows. */
module Lifecycle {
  import opened LegalPath

  datatype LifecycleState = Draft | Configured | Active | Paused | Retired

  function Successors(s: LifecycleState): seq<LifecycleState> {
    match s
    case Draft => [Configured, Retired]
    case Configured => [Active, Draft, Retired]
    case Active => [Paused, Retired]
    case Paused => [Active, Retired]
    case Retired => []
  }

  const ALLOWED_TRANSITIONS: Transitions<LifecycleState> := map s: LifecycleState :: Successors(s)

  /** What an update may do to the state of a head: keep it, or follow one allowed hop. */
  predicate Permitted(from: LifecycleState, to: LifecycleState) {
    from == to || to in ALLOWED_TRANSITIONS[from]
  }

  /** Reachability in closed form: `Draft` and `Configured` can become anything, `Active` and
      `Paused` never go back before themselves, and nothing leaves `Retired`. */
  predicate CanBecome(from: LifecycleState, to: LifecycleState) {
    match from
    case Draft | Configured => true
    case Active | Paused => to != Draft && to != Configured
    case Retired => to == Retired
  }

  lemma LifecycleIsClosed()
    ensures Closed(ALLOWED_TRANSITIONS)
  {
  }

  lemma HopKeepsCanBecome(from: LifecycleState, via: LifecycleState, to: LifecycleState)
    requires CanBecome(from, via) && Hop(ALLOWED_TRANSITIONS, via, to)
    ensures CanBecome(from, to)
  {
  }

  lemma {:induction false} WalksStayWithin(from: LifecycleState, p: seq<LifecycleState>)
    requires Walk(ALLOWED_TRANSITIONS, from, p, Last(from, p))
    ensures CanBecome(from, Last(from, p))
    decreases |p|
  {
    if p != [] {
      var n := |p| - 1;
      WalkPrefix(ALLOWED_TRANSITIONS, from, p, n);
      assert Last(from, p[..n]) == Before(from, p, n);
      WalksStayWithin(from, p[..n]);
      assert Hop(ALLOWED_TRANSITIONS, Before(from, p, n), p[n]);
      HopKeepsCanBecome(from, Before(from, p, n), p[n]);
    }
  }

  /** One walk for every pair of states that has one. */
  function Route(from: LifecycleState, to: LifecycleState): seq<LifecycleState> {
    if from == to then []
    else if to == Active then (if from == Draft then [Configured, Active] else [Active])
    else if to == Paused && from != Active then
      (if from == Draft then [Configured, Active, Paused] else [Active, Paused])
    else [to]
  }

  lemma RouteIsWalk(from: LifecycleState, to: LifecycleState)
    requires CanBecome(from, to)
    ensures Walk(ALLOWED_TRANSITIONS, from, Route(from, to), to)
  {
  }

  /** `_legal_path` finds a path out of `from` for exactly the states `CanBecome` lists. */
  lemma LifecycleReach(from: LifecycleState, to: LifecycleState)
    ensures Reachable(ALLOWED_TRANSITIONS, from, to) <==> CanBecome(from, to)
  {
    if CanBecome(from, to) {
      RouteIsWalk(from, to);
    } else {
      if Reachable(ALLOWED_TRANSITIONS, from, to) {
        var p: seq<LifecycleState> :| Walk(ALLOWED_TRANSITIONS, from, p, to);
        WalksStayWithin(from, p);
      }
    }
  }

  /** An update may keep the state, retire any state, configure a draft and draft it again, activate what is
      configured or paused, and pause what is active. */
  lemma PermittedAre(from: LifecycleState, to: LifecycleState)
    ensures Permitted(from, to) <==>
            || from == to || to == Retired
            || (from == Draft && to == Configured) || (from == Configured && to == Draft)
            || ((from == Configured || from == Paused) && to == Active) || (from == Active && to == Paused)
  {
  }

  lemma HopIs(from: LifecycleState, to: LifecycleState)
    ensures Hop(ALLOWED_TRANSITIONS, from, to) <==> from != to && Route(from, to) == [to] && CanBecome(from, to)
  {
  }

  lemma ShortWalkIsRoute(from: LifecycleState, p: seq<LifecycleState>, to: LifecycleState)
    requires Walk(ALLOWED_TRANSITIONS, from, p, to) && |p| <= |Route(from, to)|
    ensures p == Route(from, to)
  {
    forall k | 0 <= k < |p| ensures Hop(ALLOWED_TRANSITIONS, Before(from, p, k), p[k]) {
    }
    hide Walk, Successors, Hop;
    match |p|
    case 0 =>
    case 1 =>
      HopIs(from, p[0]);
    case 2 =>
      HopIs(from, p[0]);
      HopIs(p[0], p[1]);
    case _ =>
      HopIs(from, p[0]);
      HopIs(p[0], p[1]);
      HopIs(p[1], p[2]);
  }

  /** The shortest walk is unique, so the order in which the search enumerates the successor sets
      cannot show in its answer; past its first step it never enters `Retired`. */
  lemma ShortestIsRoute(from: LifecycleState, p: seq<LifecycleState>, to: LifecycleState)
    requires Shortest(ALLOWED_TRANSITIONS, from, p, to)
    ensures p == Route(from, to)
    ensures forall k | 0 < k < |p| :: p[k] != Retired
  {
    WalksStayWithin(from, p);
    RouteIsWalk(from, to);
    hide Walk, Hop, Successors;
    ShortWalkIsRoute(from, p, to);
  }
}
