/** What can be reached in a graph, cycles and all. */
module Reachability {

  function Next<N>(g: map<N, seq<N>>, n: N): seq<N> {
    if n in g then g[n] else []
  }

  predicate IsPath<N>(g: map<N, seq<N>>, p: seq<N>) {
    p != [] && forall i {:trigger Next(g, p[i])} :: 0 <= i < |p| - 1 ==> p[i + 1] in Next(g, p[i])
  }

  predicate Leads<N(==)>(g: map<N, seq<N>>, roots: seq<N>, n: N, p: seq<N>) {
    IsPath(g, p) && p[0] in roots && p[|p| - 1] == n
  }

  ghost predicate Reachable<N(!new)>(g: map<N, seq<N>>, roots: seq<N>, n: N) {
    exists p :: Leads(g, roots, n, p)
  }

  lemma RootIsReachable<N(!new)>(g: map<N, seq<N>>, roots: seq<N>, n: N)
    requires n in roots
    ensures Reachable(g, roots, n)
  {
    assert Leads(g, roots, n, [n]);
  }

  lemma NextIsReachable<N(!new)>(g: map<N, seq<N>>, roots: seq<N>, n: N, next: N)
    requires Reachable(g, roots, n) && next in Next(g, n)
    ensures Reachable(g, roots, next)
  {
    var p :| Leads(g, roots, n, p);
    var q := p + [next];
    forall i | 0 <= i < |q| - 1 ensures q[i + 1] in Next(g, q[i]) {
      if i < |p| - 1 { assert q[i + 1] == p[i + 1]; }
    }
    assert Leads(g, roots, next, q);
  }

  ghost predicate Closed<N(!new)>(g: map<N, seq<N>>, roots: seq<N>, s: seq<N>) {
    && (forall n :: n in roots ==> n in s)
    && (forall n, next :: n in s && next in Next(g, n) ==> next in s)
  }

  lemma {:induction false} PathStaysIn<N(!new)>(g: map<N, seq<N>>, roots: seq<N>, s: seq<N>, p: seq<N>)
    requires Closed(g, roots, s) && IsPath(g, p) && p[0] in roots
    ensures p[|p| - 1] in s
  {
    if |p| > 1 {
      var front := p[..|p| - 1];
      forall i | 0 <= i < |front| - 1 ensures front[i + 1] in Next(g, front[i]) { assert p[i + 1] in Next(g, p[i]); }
      PathStaysIn(g, roots, s, front);
      assert p[|p| - 2 + 1] in Next(g, p[|p| - 2]);
    }
  }

  /** A set that holds the roots and what follows from its members holds all that can be reached. */
  lemma ClosedHoldsAll<N(!new)>(g: map<N, seq<N>>, roots: seq<N>, s: seq<N>, n: N)
    requires Closed(g, roots, s) && Reachable(g, roots, n)
    ensures n in s
  {
    var p :| Leads(g, roots, n, p);
    PathStaysIn(g, roots, s, p);
  }

  /** More edges reach no less. */
  lemma MoreEdgesReachMore<N(!new)>(g: map<N, seq<N>>, h: map<N, seq<N>>, roots: seq<N>, n: N)
    requires forall m, next :: next in Next(g, m) ==> next in Next(h, m)
    requires Reachable(g, roots, n)
    ensures Reachable(h, roots, n)
  {
    var p :| Leads(g, roots, n, p);
    assert Leads(h, roots, n, p);
  }

  // A walk with a worklist, whatever the order it is worked off in

  /**
   Nodes seen and nodes waiting are reachable, what follows from the seen ones is seen or waits, and `unseen` bounds the
   rest.
   */
  ghost predicate Walking<N(!new)>(g: map<N, seq<N>>, roots: seq<N>, seen: seq<N>, queue: seq<N>, unseen: set<N>) {
    && (forall n :: n in seen || n in queue ==> Reachable(g, roots, n))
    && (forall n :: n in roots ==> n in seen || n in queue)
    && (forall n, next :: n in seen && next in Next(g, n) ==> next in seen || next in queue)
    && Bounds(g, roots, seen, unseen)
  }

  ghost predicate Bounds<N(!new)>(g: map<N, seq<N>>, roots: seq<N>, seen: seq<N>, unseen: set<N>) {
    && (forall n :: n in roots ==> n in seen || n in unseen)
    && (forall n, next :: next in Next(g, n) ==> next in seen || next in unseen)
  }

  /** Every node a walk can meet. */
  ghost function Universe<N(!new)>(g: map<N, seq<N>>, roots: seq<N>): set<N> {
    (set n | n in roots) + set m, n | m in g && n in g[m] :: n
  }

  lemma WalkStarts<N(!new)>(g: map<N, seq<N>>, roots: seq<N>)
    ensures Walking(g, roots, [], roots, Universe(g, roots))
  {
    forall n | n in roots { RootIsReachable(g, roots, n); }
  }

  lemma {:induction false} ReachableIsBounded<N(!new)>(g: map<N, seq<N>>, roots: seq<N>, seen: seq<N>, unseen: set<N>,
                                                n: N)
    requires Bounds(g, roots, seen, unseen) && Reachable(g, roots, n)
    ensures n in seen || n in unseen
  {
    var p :| Leads(g, roots, n, p);
    if |p| > 1 { assert p[|p| - 2 + 1] in Next(g, p[|p| - 2]); }
  }

  /** A node that was seen before is left out. */
  lemma WalkSkips<N(!new)>(g: map<N, seq<N>>, roots: seq<N>, seen: seq<N>, before: seq<N>, n: N, after: seq<N>,
                    unseen: set<N>)
    requires Walking(g, roots, seen, before + [n] + after, unseen) && n in seen
    ensures Walking(g, roots, seen, before + after, unseen)
  {
    var queue := before + [n] + after;
    assert forall m :: m in queue <==> m == n || m in before + after;
  }

  /** A new one is seen, and what follows from it waits. */
  lemma WalkVisits<N(!new)>(g: map<N, seq<N>>, roots: seq<N>, seen: seq<N>, before: seq<N>, n: N, after: seq<N>,
                     unseen: set<N>)
    requires Walking(g, roots, seen, before + [n] + after, unseen) && n !in seen
    ensures unseen - {n} < unseen
    ensures Walking(g, roots, seen + [n], before + after + Next(g, n), unseen - {n})
  {
    var queue := before + [n] + after;
    assert forall m :: m in queue <==> m == n || m in before + after;
    assert n in queue;
    ReachableIsBounded(g, roots, seen, unseen, n);
    forall next | next in Next(g, n) { NextIsReachable(g, roots, n, next); }
  }

  /** The same when the last one waiting is taken, */
  lemma WalkPops<N(!new)>(g: map<N, seq<N>>, roots: seq<N>, seen: seq<N>, queue: seq<N>, unseen: set<N>)
    requires queue != [] && Walking(g, roots, seen, queue, unseen)
    ensures var n, rest := queue[|queue| - 1], queue[..|queue| - 1];
      if n in seen then Walking(g, roots, seen, rest, unseen)
      else unseen - {n} < unseen && Walking(g, roots, seen + [n], rest + Next(g, n), unseen - {n})
  {
    var n, rest := queue[|queue| - 1], queue[..|queue| - 1];
    assert queue == rest + [n] + [] && rest + [] == rest;
    if n in seen {
      WalkSkips(g, roots, seen, rest, n, [], unseen);
    } else {
      WalkVisits(g, roots, seen, rest, n, [], unseen);
    }
  }

  /** or the first one. */
  lemma WalkShifts<N(!new)>(g: map<N, seq<N>>, roots: seq<N>, seen: seq<N>, queue: seq<N>, unseen: set<N>)
    requires queue != [] && Walking(g, roots, seen, queue, unseen)
    ensures var n, rest := queue[0], queue[1..];
      if n in seen then Walking(g, roots, seen, rest, unseen)
      else unseen - {n} < unseen && Walking(g, roots, seen + [n], rest + Next(g, n), unseen - {n})
  {
    var n, rest := queue[0], queue[1..];
    assert queue == [] + [n] + rest && [] + rest == rest;
    if n in seen {
      WalkSkips(g, roots, seen, [], n, rest, unseen);
    } else {
      WalkVisits(g, roots, seen, [], n, rest, unseen);
    }
  }

  /** When nothing waits any more, exactly the reachable nodes were seen. */
  lemma WalkEnds<N(!new)>(g: map<N, seq<N>>, roots: seq<N>, seen: seq<N>, unseen: set<N>)
    requires Walking(g, roots, seen, [], unseen)
    ensures forall n :: n in seen <==> Reachable(g, roots, n)
  {
    forall n | Reachable(g, roots, n) ensures n in seen { ClosedHoldsAll(g, roots, seen, n); }
  }
}
