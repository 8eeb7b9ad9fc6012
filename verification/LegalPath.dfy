/** The breadth-first search for a shortest legal path through a finite transition relation. */
module LegalPath {
  import opened Ordering

  /** For each state its successors, in the order the search happens to enumerate them. */
  type Transitions<!S> = map<S, seq<S>>

  /** Every successor is itself a key, so that looking a state up never fails. */
  ghost predicate Closed<S>(allowed: Transitions<S>) {
    forall s, k | s in allowed && 0 <= k < |allowed[s]| :: allowed[s][k] in allowed
  }

  function Last<S>(src: S, p: seq<S>): S {
    if p == [] then src else p[|p| - 1]
  }

  /** The state before step `i` of a walk that leaves `src`. */
  function Before<S>(src: S, p: seq<S>, i: nat): S
    requires i <= |p|
  {
    if i == 0 then src else p[i - 1]
  }

  ghost predicate Hop<S>(allowed: Transitions<S>, s: S, t: S) {
    s in allowed && t in allowed[s]
  }

  /** `p` steps from `src` to `dst` along allowed hops; like the code's result it leaves `src` out. */
  ghost predicate Walk<S>(allowed: Transitions<S>, src: S, p: seq<S>, dst: S) {
    && (forall i | 0 <= i < |p| :: Hop(allowed, Before(src, p, i), p[i]))
    && Last(src, p) == dst
  }

  ghost predicate Reachable<S(!new)>(allowed: Transitions<S>, src: S, dst: S) {
    exists p: seq<S> :: Walk(allowed, src, p, dst)
  }

  ghost predicate Shortest<S(!new)>(allowed: Transitions<S>, src: S, p: seq<S>, dst: S) {
    && Walk(allowed, src, p, dst)
    && forall q: seq<S> | Walk(allowed, src, q, dst) :: |p| <= |q|
  }

  lemma WalkExtended<S>(allowed: Transitions<S>, src: S, p: seq<S>, t: S)
    requires Walk(allowed, src, p, Last(src, p)) && Hop(allowed, Last(src, p), t)
    ensures Walk(allowed, src, p + [t], t)
  {
    var q := p + [t];
    forall i | 0 <= i < |q| ensures Hop(allowed, Before(src, q, i), q[i]) {
      if i < |p| {
        assert Hop(allowed, Before(src, p, i), p[i]);
      }
    }
  }

  lemma WalkPrefix<S>(allowed: Transitions<S>, src: S, p: seq<S>, n: nat)
    requires n <= |p| && Walk(allowed, src, p, Last(src, p))
    ensures Walk(allowed, src, p[..n], Before(src, p, n))
  {
    forall i | 0 <= i < n ensures Hop(allowed, Before(src, p[..n], i), p[..n][i]) {
      assert Hop(allowed, Before(src, p, i), p[i]);
    }
  }

  /** Cutting the stretch between two visits of one state leaves a shorter walk. */
  lemma WalkWithoutLoop<S>(allowed: Transitions<S>, src: S, p: seq<S>, i: nat, j: nat)
    requires i < j <= |p| && Walk(allowed, src, p, Last(src, p)) && Before(src, p, i) == Before(src, p, j)
    ensures Walk(allowed, src, p[..i] + p[j..], Last(src, p)) && |p[..i] + p[j..]| < |p|
  {
    hide Hop;
    var q := p[..i] + p[j..];
    forall k | 0 <= k < i ensures Hop(allowed, Before(src, q, k), q[k]) {
      assert Hop(allowed, Before(src, p, k), p[k]);
    }
    forall k | i <= k < |q| ensures Hop(allowed, Before(src, q, k), q[k]) {
      var original := k + (j - i);
      assert Hop(allowed, Before(src, p, original), p[original]);
      assert q[k] == p[original];
      assert Before(src, q, k) == Before(src, p, original);
    }
  }

  lemma ShortestVisitsOnce<S(!new)>(allowed: Transitions<S>, src: S, p: seq<S>, dst: S, i: nat, j: nat)
    requires Shortest(allowed, src, p, dst) && i < j <= |p|
    ensures Before(src, p, i) != Before(src, p, j)
  {
    if Before(src, p, i) == Before(src, p, j) {
      hide Hop, Before;
      WalkWithoutLoop(allowed, src, p, i, j);
    }
  }

  /** A shortest walk visits no state twice, its start included. */
  lemma ShortestRepeatsNothing<S(!new)>(allowed: Transitions<S>, src: S, p: seq<S>, dst: S)
    requires Shortest(allowed, src, p, dst)
    ensures NoRepeats([src] + p)
  {
    hide Shortest;
    var visited := [src] + p;
    forall i, j | 0 <= i < j < |visited| ensures visited[i] != visited[j] {
      ShortestVisitsOnce(allowed, src, p, dst, i, j);
      assert visited[i] == Before(src, p, i) && visited[j] == Before(src, p, j);
    }
  }

  /** What a search at distance `near` knows: `dist` labels the states seen, of which those in
      `done` have had all their successors labelled. */
  ghost predicate Labelled<S>(allowed: Transitions<S>, src: S, dist: map<S, nat>, done: set<S>, near: nat) {
    && src in dist && dist[src] == 0
    && done <= dist.Keys <= allowed.Keys
    && (forall s | s in dist && s !in done :: near <= dist[s])
    && (forall s | s in dist :: dist[s] <= near + 1)
    && (forall s, t | s in done && t in allowed[s] :: t in dist && dist[t] <= dist[s] + 1)
  }

  /** Every state within `near` steps of the source has been seen, at no more than that distance. */
  lemma {:induction false} NearStatesSeen<S>(allowed: Transitions<S>, src: S, dist: map<S, nat>,
                                            done: set<S>, near: nat, p: seq<S>)
    requires Labelled(allowed, src, dist, done, near)
    requires |p| <= near && Walk(allowed, src, p, Last(src, p))
    ensures Last(src, p) in dist && dist[Last(src, p)] <= |p|
    decreases |p|
  {
    if p != [] {
      var n := |p| - 1;
      WalkPrefix(allowed, src, p, n);
      assert Last(src, p[..n]) == Before(src, p, n);
      NearStatesSeen(allowed, src, dist, done, near, p[..n]);
      assert Hop(allowed, Before(src, p, n), p[n]);
    }
  }

  /** With nothing left to expand the labelled states are closed under hops. */
  lemma {:induction false} ExhaustedIsEverything<S>(allowed: Transitions<S>, src: S, dist: map<S, nat>,
                                                   near: nat, p: seq<S>)
    requires Labelled(allowed, src, dist, dist.Keys, near)
    requires Walk(allowed, src, p, Last(src, p))
    ensures Last(src, p) in dist
    decreases |p|
  {
    if p != [] {
      var n := |p| - 1;
      WalkPrefix(allowed, src, p, n);
      assert Last(src, p[..n]) == Before(src, p, n);
      ExhaustedIsEverything(allowed, src, dist, near, p[..n]);
      assert Hop(allowed, Before(src, p, n), p[n]);
    }
  }

  /** The queued paths: walks that end at the states still to be expanded, nearest first. */
  ghost predicate Queued<S>(allowed: Transitions<S>, src: S, queue: seq<seq<S>>, dist: map<S, nat>, near: nat) {
    && (forall k | 0 <= k < |queue| ::
          && Walk(allowed, src, queue[k], Last(src, queue[k]))
          && Last(src, queue[k]) in dist && dist[Last(src, queue[k])] == |queue[k]|
          && near <= |queue[k]| <= near + 1)
    && (forall i, j | 0 <= i < j < |queue| :: |queue[i]| <= |queue[j]|)
  }

  /** Each labelled state is expanded, is `current`, or ends a queued path. */
  ghost predicate Covered<S>(src: S, queue: seq<seq<S>>, dist: map<S, nat>, done: set<S>, current: set<S>) {
    forall s | s in dist && s !in done && s !in current ::
      exists k :: 0 <= k < |queue| && Last(src, queue[k]) == s
  }

  ghost predicate Searching<S>(allowed: Transitions<S>, src: S, queue: seq<seq<S>>, dist: map<S, nat>,
                               done: set<S>, near: nat, current: set<S>) {
    && Labelled(allowed, src, dist, done, near)
    && Queued(allowed, src, queue, dist, near)
    && Covered(src, queue, dist, done, current)
  }

  /** When `dst` is first met one hop past a state at distance `near`, no shorter walk reaches it. */
  lemma FirstMeetingIsShortest<S(!new)>(allowed: Transitions<S>, src: S, queue: seq<seq<S>>, dist: map<S, nat>,
                                       done: set<S>, path: seq<S>, dst: S)
    requires Searching(allowed, src, queue, dist, done, |path|, {Last(src, path)}) && dst !in dist
    requires Walk(allowed, src, path, Last(src, path)) && Hop(allowed, Last(src, path), dst)
    ensures Shortest(allowed, src, path + [dst], dst) && Reachable(allowed, src, dst)
    ensures NoRepeats([src] + (path + [dst]))
  {
    WalkExtended(allowed, src, path, dst);
    forall q: seq<S> | Walk(allowed, src, q, dst) ensures |path| + 1 <= |q| {
      if |q| <= |path| {
        NearStatesSeen(allowed, src, dist, done, |path|, q);
      }
    }
    ShortestRepeatsNothing(allowed, src, path + [dst], dst);
  }

  lemma SearchStarts<S>(allowed: Transitions<S>, src: S)
    requires src in allowed
    ensures Searching(allowed, src, [[]], map[src := 0], {}, 0, {})
  {
    var queue: seq<seq<S>> := [[]];
    assert Last(src, queue[0]) == src;
  }

  lemma HeadTaken<S>(allowed: Transitions<S>, src: S, queue: seq<seq<S>>, dist: map<S, nat>,
                     done: set<S>, near: nat)
    requires queue != [] && Searching(allowed, src, queue, dist, done, near, {})
    ensures var here := Last(src, queue[0]);
            && Walk(allowed, src, queue[0], here)
            && here in allowed && here in dist && dist[here] == |queue[0]|
            && Searching(allowed, src, queue[1..], dist, done, |queue[0]|, {here})
  {
    hide Walk, Last;
    var here := Last(src, queue[0]);
    forall s | s in dist && s !in done && s !in {here}
      ensures exists k :: 0 <= k < |queue[1..]| && Last(src, queue[1..][k]) == s
    {
      var k :| 0 <= k < |queue| && Last(src, queue[k]) == s;
      assert queue[1..][k - 1] == queue[k];
    }
    forall s | s in dist && s !in done ensures |queue[0]| <= dist[s] {
      var k :| 0 <= k < |queue| && Last(src, queue[k]) == s;
    }
  }

  lemma Successor<S>(allowed: Transitions<S>, s: S, i: nat)
    requires Closed(allowed) && s in allowed && i < |allowed[s]|
    ensures Hop(allowed, s, allowed[s][i]) && allowed[s][i] in allowed
  {
  }

  lemma DiscoveredIsQueued<S>(allowed: Transitions<S>, src: S, queue: seq<seq<S>>, dist: map<S, nat>,
                              path: seq<S>, next: S)
    requires Queued(allowed, src, queue, dist, |path|) && next !in dist
    requires Walk(allowed, src, path + [next], next)
    ensures Queued(allowed, src, queue + [path + [next]], dist[next := |path| + 1], |path|)
  {
    assert Last(src, path + [next]) == next;
    hide Walk, Last;
    var more, labels := queue + [path + [next]], dist[next := |path| + 1];
    forall k | 0 <= k < |more|
      ensures Walk(allowed, src, more[k], Last(src, more[k])) && Last(src, more[k]) in labels
      ensures labels[Last(src, more[k])] == |more[k]| && |path| <= |more[k]| <= |path| + 1
    {
      assert k < |queue| ==> more[k] == queue[k];
    }
    forall i, j | 0 <= i < j < |more| ensures |more[i]| <= |more[j]| {
      assert more[i] == queue[i];
      assert j < |queue| ==> more[j] == queue[j];
    }
  }

  lemma DiscoveredIsCovered<S>(src: S, queue: seq<seq<S>>, dist: map<S, nat>, done: set<S>, here: S,
                               path: seq<S>, next: S, n: nat)
    requires Covered(src, queue, dist, done, {here})
    ensures Covered(src, queue + [path + [next]], dist[next := n], done, {here})
  {
    var more := queue + [path + [next]];
    assert more[|queue|] == path + [next] && Last(src, more[|queue|]) == next;
    hide Last;
    forall s | s in dist[next := n] && s !in done && s !in {here}
      ensures exists k :: 0 <= k < |more| && Last(src, more[k]) == s
    {
      if s != next {
        var k :| 0 <= k < |queue| && Last(src, queue[k]) == s;
        assert more[k] == queue[k];
      }
    }
  }

  lemma Discovered<S>(allowed: Transitions<S>, src: S, queue: seq<seq<S>>, dist: map<S, nat>,
                      done: set<S>, path: seq<S>, next: S)
    requires Searching(allowed, src, queue, dist, done, |path|, {Last(src, path)})
    requires Walk(allowed, src, path, Last(src, path)) && Hop(allowed, Last(src, path), next)
    requires next in allowed && next !in dist
    ensures Searching(allowed, src, queue + [path + [next]], dist[next := |path| + 1], done, |path|,
                      {Last(src, path)})
  {
    WalkExtended(allowed, src, path, next);
    DiscoveredIsQueued(allowed, src, queue, dist, path, next);
    DiscoveredIsCovered(src, queue, dist, done, Last(src, path), path, next, |path| + 1);
    hide Walk, Hop, Last, Queued, Covered;
  }

  lemma Expanded<S>(allowed: Transitions<S>, src: S, queue: seq<seq<S>>, dist: map<S, nat>,
                    done: set<S>, near: nat, here: S)
    requires Searching(allowed, src, queue, dist, done, near, {here})
    requires here in dist && dist[here] == near && here in allowed
    requires forall t | t in allowed[here] :: t in dist
    ensures Searching(allowed, src, queue, dist, done + {here}, near, {})
  {
  }

  lemma ExhaustedMeansUnreachable<S(!new)>(allowed: Transitions<S>, src: S, dist: map<S, nat>, done: set<S>,
                                          near: nat, dst: S)
    requires Searching(allowed, src, [], dist, done, near, {}) && dst !in dist
    ensures !Reachable(allowed, src, dst)
  {
    assert done == dist.Keys;
    forall p: seq<S> | Walk(allowed, src, p, dst) ensures false {
      ExhaustedIsEverything(allowed, src, dist, near, p);
    }
  }

  lemma StandingStill<S(!new)>(allowed: Transitions<S>, src: S)
    ensures Shortest(allowed, src, [], src) && Reachable(allowed, src, src) && NoRepeats([src] + [])
  {
    assert Walk(allowed, src, [], src);
  }

  /** `_legal_path`: None exactly when `dst` cannot be reached, and otherwise a shortest walk. */
  method FindLegalPath<S(==, !new)>(allowed: Transitions<S>, src: S, dst: S) returns (found: Option<seq<S>>)
    requires Closed(allowed) && (src == dst || src in allowed)
    ensures found.None? <==> !Reachable(allowed, src, dst)
    ensures found.Some? ==> Shortest(allowed, src, found.value, dst)
    ensures found.Some? ==> NoRepeats([src] + found.value)
  {
    hide Searching, Last, Walk, Hop, Shortest, Reachable, NoRepeats, Closed;
    if src == dst {
      StandingStill(allowed, src);
      return Some([]);
    }
    var seen := {src};
    var queue: seq<seq<S>> := [[]];
    ghost var dist: map<S, nat> := map[src := 0];
    ghost var done: set<S> := {};
    ghost var near: nat := 0;
    SearchStarts(allowed, src);
    while queue != []
      invariant seen == dist.Keys && dst !in dist && seen <= allowed.Keys
      invariant Searching(allowed, src, queue, dist, done, near, {})
      decreases allowed.Keys - seen, |queue|
    {
      var path := queue[0];
      HeadTaken(allowed, src, queue, dist, done, near);
      queue := queue[1..];
      near := |path|;
      var here := Last(src, path);
      ghost var before, rest := seen, queue;
      for i := 0 to |allowed[here]|
        invariant seen == dist.Keys && dst !in dist && before <= seen <= allowed.Keys
        invariant seen == before ==> queue == rest
        invariant here in dist && dist[here] == near
        invariant Searching(allowed, src, queue, dist, done, near, {here})
        invariant forall k | 0 <= k < i :: allowed[here][k] in dist
      {
        var next := allowed[here][i];
        if next !in seen {
          Successor(allowed, here, i);
          if next == dst {
            FirstMeetingIsShortest(allowed, src, queue, dist, done, path, dst);
            return Some(path + [next]);
          }
          Discovered(allowed, src, queue, dist, done, path, next);
          seen := seen + {next};
          dist := dist[next := near + 1];
          queue := queue + [path + [next]];
        }
      }
      Expanded(allowed, src, queue, dist, done, near, here);
      done := done + {here};
    }
    ExhaustedMeansUnreachable(allowed, src, dist, done, near, dst);
    return None;
  }
}
