/**
 The shard scheduler of `scripts/vitest-shards.ts`: the files that spawn git are spread out first, then the rest
 are placed longest first on the least loaded shard.
 */
module Shards {
  import opened Sorting
  import opened Lpt

  type Key = string

  /** One OS's weights, in milliseconds. */
  datatype Timings = Timings(defaultMs: nat, files: map<Key, nat>)

  function Weight(t: Timings, key: Key): nat {
    if key in t.files then t.files[key] else t.defaultMs
  }

  /** Heavier first; equal weights go by key. */
  predicate Before(t: Timings, a: Key, b: Key) {
    Weight(t, a) > Weight(t, b) || (Weight(t, a) == Weight(t, b) && TextLess(a, b))
  }

  function Comparator(t: Timings): (Key, Key) -> bool {
    (a: Key, b: Key) => Before(t, a, b)
  }

  /** The distinct keys in the order they would be placed with nothing to spread. */
  function Order(t: Timings, keys: seq<Key>): seq<Key> {
    Sort(Comparator(t), keys)
  }

  /** The keys inside (or outside) the spread set, in their order. */
  function Filter(keys: seq<Key>, spread: set<Key>, inside: bool): seq<Key> {
    if keys == [] then []
    else
      var rest := Filter(keys[..|keys| - 1], spread, inside);
      if (keys[|keys| - 1] in spread) == inside then rest + [keys[|keys| - 1]] else rest
  }

  /** The keys in the order they are placed: the spread ones, then the rest. */
  function Placing(t: Timings, keys: seq<Key>, spread: set<Key>): seq<Key> {
    Filter(Order(t, keys), spread, true) + Filter(Order(t, keys), spread, false)
  }

  /** The scheduler's variables. */
  datatype Board = Board(loads: seq<nat>, spreadCounts: seq<nat>, shardOf: map<Key, nat>)

  predicate Shaped(b: Board, count: nat) {
    |b.loads| == count && |b.spreadCounts| == count
  }

  /** Whether shard `i` is preferred to the best one so far, `best`. */
  predicate Preferred(loads: seq<nat>, spreadCounts: seq<nat>, spreading: bool, i: nat, best: nat)
    requires |loads| == |spreadCounts| && i < |loads| && best < |loads|
  {
    if spreading then
      spreadCounts[i] < spreadCounts[best] || (spreadCounts[i] == spreadCounts[best] && loads[i] < loads[best])
    else
      loads[i] < loads[best]
  }

  /** No shard of `0..n` is preferred to `best`. */
  ghost predicate NonePreferred(loads: seq<nat>, spreadCounts: seq<nat>, spreading: bool, best: nat, n: nat)
    requires |loads| == |spreadCounts| && best < |loads| && n <= |loads|
  {
    forall i :: 0 <= i < n ==> !Preferred(loads, spreadCounts, spreading, i, best)
  }

  /** `best` is preferred to every shard before it. */
  ghost predicate PreferredToEarlier(loads: seq<nat>, spreadCounts: seq<nat>, spreading: bool, best: nat)
    requires |loads| == |spreadCounts| && best < |loads|
  {
    forall i :: 0 <= i < best ==> Preferred(loads, spreadCounts, spreading, best, i)
  }

  lemma PreferredOverBest(loads: seq<nat>, spreadCounts: seq<nat>, spreading: bool, best: nat, n: nat)
    requires |loads| == |spreadCounts| && best < |loads| && n < |loads|
    requires NonePreferred(loads, spreadCounts, spreading, best, n)
             && Preferred(loads, spreadCounts, spreading, n, best)
    ensures NonePreferred(loads, spreadCounts, spreading, n, n + 1)
            && PreferredToEarlier(loads, spreadCounts, spreading, n)
  {
    forall i | 0 <= i < n
      ensures Preferred(loads, spreadCounts, spreading, n, i) && !Preferred(loads, spreadCounts, spreading, i, n)
    {
      assert !Preferred(loads, spreadCounts, spreading, i, best);
    }
  }

  /** The scan for the best of the shards `0..n`. */
  function Best(loads: seq<nat>, spreadCounts: seq<nat>, spreading: bool, n: nat): (best: nat)
    requires |loads| == |spreadCounts| && 1 <= n <= |loads|
    ensures best < n
  {
    if n == 1 then 0
    else
      var best := Best(loads, spreadCounts, spreading, n - 1);
      if Preferred(loads, spreadCounts, spreading, n - 1, best) then n - 1 else best
  }

  /** It finds the first shard that no other is preferred to. */
  lemma {:induction false} BestIsFirstOfBest(loads: seq<nat>, spreadCounts: seq<nat>, spreading: bool, n: nat)
    requires |loads| == |spreadCounts| && 1 <= n <= |loads|
    ensures NonePreferred(loads, spreadCounts, spreading, Best(loads, spreadCounts, spreading, n), n)
    ensures PreferredToEarlier(loads, spreadCounts, spreading, Best(loads, spreadCounts, spreading, n))
  {
    if n > 1 {
      BestIsFirstOfBest(loads, spreadCounts, spreading, n - 1);
      var best := Best(loads, spreadCounts, spreading, n - 1);
      if Preferred(loads, spreadCounts, spreading, n - 1, best) {
        PreferredOverBest(loads, spreadCounts, spreading, best, n - 1);
      }
    }
  }

  /** One key placed. */
  function Place(t: Timings, b: Board, key: Key, spreading: bool): Board
    requires Shaped(b, |b.loads|) && |b.loads| >= 1
  {
    var best := Best(b.loads, b.spreadCounts, spreading, |b.loads|);
    Board(
      b.loads[best := b.loads[best] + Weight(t, key)],
      if spreading then b.spreadCounts[best := b.spreadCounts[best] + 1] else b.spreadCounts,
      b.shardOf[key := best])
  }

  /** The board once the first `n` keys of `placing` are placed. */
  function Run(t: Timings, placing: seq<Key>, spread: set<Key>, count: nat, n: nat): (b: Board)
    requires count >= 1 && n <= |placing|
    ensures Shaped(b, count)
  {
    if n == 0 then Board(seq(count, _ => 0), seq(count, _ => 0), map[])
    else Place(t, Run(t, placing, spread, count, n - 1), placing[n - 1], placing[n - 1] in spread)
  }

  function Assigned(t: Timings, keys: seq<Key>, spread: set<Key>, count: nat): map<Key, nat>
    requires count >= 1
  {
    var placing := Placing(t, keys, spread);
    Run(t, placing, spread, count, |placing|).shardOf
  }

  // The scheduler itself

  /** Adds `weight` to the best shard's load and says which it is. */
  method PlaceOne(loads: array<nat>, spreadCounts: array<nat>, weight: nat, spreading: bool) returns (best: nat)
    requires loads.Length == spreadCounts.Length >= 1 && loads != spreadCounts
    modifies loads
    ensures best < loads.Length && best == Best(old(loads[..]), spreadCounts[..], spreading, loads.Length)
    ensures loads[..] == old(loads[..])[best := old(loads[best]) + weight]
  {
    best := 0;
    for i := 1 to loads.Length
      invariant best < loads.Length && best == Best(loads[..], spreadCounts[..], spreading, i)
      invariant loads[..] == old(loads[..])
    {
      if spreading {
        if spreadCounts[i] < spreadCounts[best] || (spreadCounts[i] == spreadCounts[best] && loads[i] < loads[best]) {
          best := i;
        }
      } else if loads[i] < loads[best] {
        best := i;
      }
    }
    loads[best] := loads[best] + weight;
  }

  method PlaceKey(loads: array<nat>, spreadCounts: array<nat>, shardOf: map<Key, nat>, t: Timings, key: Key,
                  spreading: bool)
    returns (placed: map<Key, nat>)
    requires loads.Length == spreadCounts.Length >= 1 && loads != spreadCounts
    modifies loads, spreadCounts
    ensures Board(loads[..], spreadCounts[..], placed)
         == Place(t, Board(old(loads[..]), old(spreadCounts[..]), shardOf), key, spreading)
  {
    var shard := PlaceOne(loads, spreadCounts, Weight(t, key), spreading);
    if spreading {
      spreadCounts[shard] := spreadCounts[shard] + 1;
    }
    placed := shardOf[key := shard];
  }

  /** `keys` are the keys of `placing` from the `from`-th on, all of one kind. */
  ghost predicate PlacesHere(placing: seq<Key>, from: nat, keys: seq<Key>, spread: set<Key>, spreading: bool)
    requires from + |keys| <= |placing|
  {
    forall n :: 0 <= n < |keys| ==> placing[from + n] == keys[n] && (keys[n] in spread) == spreading
  }

  lemma RunNext(t: Timings, placing: seq<Key>, spread: set<Key>, count: nat, from: nat, keys: seq<Key>, spreading: bool,
                n: nat)
    requires count >= 1 && from + |keys| <= |placing|
             && n < |keys| && PlacesHere(placing, from, keys, spread, spreading)
    ensures Run(t, placing, spread, count, from + n + 1)
            == Place(t, Run(t, placing, spread, count, from + n), keys[n], spreading)
  {
    assert placing[from + n] == keys[n];
  }

  /** One placing loop: over the keys of `placing` from the `from`-th on that are of one kind. */
  method PlaceKeys(loads: array<nat>, spreadCounts: array<nat>, before: map<Key, nat>, t: Timings, keys: seq<Key>,
                   spreading: bool, ghost placing: seq<Key>, ghost spread: set<Key>, ghost from: nat)
    returns (shardOf: map<Key, nat>)
    requires loads.Length == spreadCounts.Length >= 1 && loads != spreadCounts
    requires from + |keys| <= |placing| && PlacesHere(placing, from, keys, spread, spreading)
    requires Run(t, placing, spread, loads.Length, from) == Board(loads[..], spreadCounts[..], before)
    modifies loads, spreadCounts
    ensures Run(t, placing, spread, loads.Length, from + |keys|) == Board(loads[..], spreadCounts[..], shardOf)
  {
    shardOf := before;
    for n := 0 to |keys|
      invariant Run(t, placing, spread, loads.Length, from + n) == Board(loads[..], spreadCounts[..], shardOf)
    {
      RunNext(t, placing, spread, loads.Length, from, keys, spreading, n);
      shardOf := PlaceKey(loads, spreadCounts, shardOf, t, keys[n], spreading);
    }
  }

  lemma PlacesBoth(first: seq<Key>, rest: seq<Key>, spread: set<Key>)
    requires forall n :: 0 <= n < |first| ==> first[n] in spread
    requires forall n :: 0 <= n < |rest| ==> rest[n] !in spread
    ensures PlacesHere(first + rest, 0, first, spread, true) && PlacesHere(first + rest, |first|, rest, spread, false)
  {
  }

  method PlaceAll(t: Timings, first: seq<Key>, rest: seq<Key>, count: nat, ghost spread: set<Key>)
    returns (shardOf: map<Key, nat>)
    requires count >= 1
    requires forall n :: 0 <= n < |first| ==> first[n] in spread
    requires forall n :: 0 <= n < |rest| ==> rest[n] !in spread
    ensures shardOf == Run(t, first + rest, spread, count, |first + rest|).shardOf
  {
    var loads, spreadCounts := new nat[count](_ => 0), new nat[count](_ => 0);
    ghost var placing := first + rest;
    PlacesBoth(first, rest, spread);
    assert Run(t, placing, spread, count, 0) == Board(loads[..], spreadCounts[..], map[]);
    shardOf := PlaceKeys(loads, spreadCounts, map[], t, first, true, placing, spread, 0);
    shardOf := PlaceKeys(loads, spreadCounts, shardOf, t, rest, false, placing, spread, |first|);
  }

  /** Vitest gives `count` at least 1. */
  method AssignShards(keys: seq<Key>, t: Timings, count: nat, spread: set<Key>) returns (shardOf: map<Key, nat>)
    requires count >= 1
    ensures shardOf == Assigned(t, keys, spread, count)
  {
    var order := Order(t, keys);
    var first, rest := Filter(order, spread, true), Filter(order, spread, false);
    FilterKinds(order, spread, true);
    FilterKinds(order, spread, false);
    shardOf := PlaceAll(t, first, rest, count, spread);
  }

  lemma FilterKinds(keys: seq<Key>, spread: set<Key>, inside: bool)
    ensures forall n :: 0 <= n < |Filter(keys, spread, inside)| ==>
            (Filter(keys, spread, inside)[n] in spread) == inside
  {
    FilterInside(keys, spread, inside);
  }

  lemma {:induction false} FilterInside(keys: seq<Key>, spread: set<Key>, inside: bool)
    ensures forall k :: k in Filter(keys, spread, inside) <==> k in keys && (k in spread) == inside
  {
    if keys != [] {
      FilterInside(keys[..|keys| - 1], spread, inside);
      assert forall k :: k in keys <==> k in keys[..|keys| - 1] || k == keys[|keys| - 1];
    }
  }
}
