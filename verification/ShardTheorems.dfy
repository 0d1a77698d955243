/** What the shard scheduler promises, for every set of keys, weights, spread set and shard count. */
module ShardTheorems {
  import opened Sorting
  import opened Lpt
  import opened Shards

  // The order of placing

  lemma ComparatorIsStrict(t: Timings)
    ensures StrictOrder(Comparator(t))
  {
    var less := Comparator(t);
    forall a, b | a != b ensures !less(a, a) && (less(a, b) || less(b, a)) { TextLessTotal(a, b); }
    forall a ensures !less(a, a) { TextLessTotal(a, a); }
    forall a, b, c | less(a, b) && less(b, c) ensures less(a, c) {
      if Weight(t, a) == Weight(t, c) { TextLessTransitive(a, b, c); }
    }
  }

  ghost predicate NoRepeats(s: seq<Key>) {
    forall i, j :: 0 <= i < j < |s| ==> s[i] != s[j]
  }

  lemma OrderLists(t: Timings, keys: seq<Key>)
    ensures NoRepeats(Order(t, keys)) && Increasing(Comparator(t), Order(t, keys))
    ensures forall k :: k in Order(t, keys) <==> k in keys
  {
    ComparatorIsStrict(t);
    SortSorts(Comparator(t), keys);
  }

  lemma {:induction false} FilterKeepsDistinct(keys: seq<Key>, spread: set<Key>, inside: bool)
    requires NoRepeats(keys)
    ensures NoRepeats(Filter(keys, spread, inside))
  {
    if keys != [] {
      FilterKeepsDistinct(keys[..|keys| - 1], spread, inside);
      FilterInside(keys[..|keys| - 1], spread, inside);
      var rest := Filter(keys[..|keys| - 1], spread, inside);
      forall i | 0 <= i < |rest| ensures rest[i] != keys[|keys| - 1] { assert rest[i] in rest; }
    }
  }

  /** Heavier keys before lighter ones, keys of one weight by their text. */
  ghost predicate HeaviestFirst(t: Timings, keys: seq<Key>) {
    forall i, j :: 0 <= i < j < |keys| ==>
      WeightOf(t, keys[i]) > WeightOf(t, keys[j])
      || (WeightOf(t, keys[i]) == WeightOf(t, keys[j]) && TextLess(keys[i], keys[j]))
  }

  /** What a file took last time, or what is assumed of one that is new. */
  function WeightOf(t: Timings, key: Key): nat {
    if key !in t.files then t.defaultMs else t.files[key]
  }

  lemma {:induction false} FilterKeepsOrder(t: Timings, keys: seq<Key>, spread: set<Key>, inside: bool)
    requires HeaviestFirst(t, keys)
    ensures HeaviestFirst(t, Filter(keys, spread, inside))
  {
    if keys != [] {
      var front := keys[..|keys| - 1];
      FilterKeepsOrder(t, front, spread, inside);
      FilterInside(front, spread, inside);
      var rest := Filter(front, spread, inside);
      forall i | 0 <= i < |rest|
        ensures WeightOf(t, rest[i]) > WeightOf(t, keys[|keys| - 1])
                || (WeightOf(t, rest[i]) == WeightOf(t, keys[|keys| - 1]) && TextLess(rest[i], keys[|keys| - 1]))
      {
        assert rest[i] in rest;
        var k :| 0 <= k < |front| && front[k] == rest[i];
        assert keys[k] == rest[i];
      }
    }
  }

  lemma OrderIsHeaviestFirst(t: Timings, keys: seq<Key>)
    ensures HeaviestFirst(t, Order(t, keys)) && forall k :: k in Order(t, keys) <==> k in keys
  {
    OrderLists(t, keys);
    var order := Order(t, keys);
    forall i, j | 0 <= i < j < |order|
      ensures WeightOf(t, order[i]) > WeightOf(t, order[j])
              || (WeightOf(t, order[i]) == WeightOf(t, order[j]) && TextLess(order[i], order[j]))
    {
      assert Comparator(t)(order[i], order[j]);
    }
  }

  /** Every key is placed exactly once, the spread keys first, and within both the heaviest first. */
  lemma PlacingLists(t: Timings, keys: seq<Key>, spread: set<Key>)
    ensures NoRepeats(Placing(t, keys, spread))
    ensures forall k :: k in Placing(t, keys, spread) <==> k in keys
    ensures forall i, j :: 0 <= i < j < |Placing(t, keys, spread)| && Placing(t, keys, spread)[j] in spread
                           ==> Placing(t, keys, spread)[i] in spread
    ensures exists n: nat :: n <= |Placing(t, keys, spread)| && InTwoParts(t, Placing(t, keys, spread), spread, n)
  {
    var order := Order(t, keys);
    OrderIsHeaviestFirst(t, keys);
    FilterKeepsOrder(t, order, spread, true);
    FilterKeepsOrder(t, order, spread, false);
    PartsOf(t, Filter(order, spread, true), Filter(order, spread, false), spread);
    OrderLists(t, keys);
    FilterKeepsDistinct(order, spread, true);
    FilterKeepsDistinct(order, spread, false);
    FilterInside(order, spread, true);
    FilterInside(order, spread, false);
    FilterKinds(order, spread, true);
    FilterKinds(order, spread, false);
  }

  /** The first `n` keys are the spread ones, and both parts go from the heaviest on. */
  ghost predicate InTwoParts(t: Timings, ks: seq<Key>, spread: set<Key>, n: nat)
    requires n <= |ks|
  {
    && HeaviestFirst(t, ks[..n]) && HeaviestFirst(t, ks[n..])
    && (forall i :: 0 <= i < |ks| ==> (ks[i] in spread <==> i < n))
  }

  lemma PartsOf(t: Timings, first: seq<Key>, rest: seq<Key>, spread: set<Key>)
    requires HeaviestFirst(t, first) && HeaviestFirst(t, rest)
    ensures (forall i :: 0 <= i < |first| ==> first[i] in spread)
            && (forall i :: 0 <= i < |rest| ==> rest[i] !in spread)
            ==> InTwoParts(t, first + rest, spread, |first|)
  {
    assert (first + rest)[..|first|] == first && (first + rest)[|first|..] == rest;
  }

  lemma {:induction false} NothingToSpread(keys: seq<Key>)
    ensures Filter(keys, {}, true) == [] && Filter(keys, {}, false) == keys
  {
    if keys != [] { NothingToSpread(keys[..|keys| - 1]); }
  }

  // The board as loads of items

  function Weights(t: Timings, ks: seq<Key>): (w: seq<nat>)
    ensures |w| == |ks|
  {
    seq(|ks|, i requires 0 <= i < |ks| => Weight(t, ks[i]))
  }

  /** Where `shardOf` puts each key. */
  function Targets(ks: seq<Key>, shardOf: map<Key, nat>): (a: seq<nat>)
    requires forall k :: k in ks ==> k in shardOf
    ensures |a| == |ks|
  {
    seq(|ks|, i requires 0 <= i < |ks| => shardOf[ks[i]])
  }

  ghost predicate Covers(ks: seq<Key>, shardOf: map<Key, nat>, count: nat) {
    forall k :: k in ks ==> k in shardOf && shardOf[k] < count
  }

  /** The total weight `shardOf` gives each shard. */
  function ShardLoads(t: Timings, ks: seq<Key>, shardOf: map<Key, nat>, count: nat): (loads: seq<nat>)
    requires Covers(ks, shardOf, count)
    ensures |loads| == count
  {
    Loads(Weights(t, ks), Targets(ks, shardOf), count, |ks|)
  }

  /** 1 for a spread key, 0 for another: loads of these weights count the spread keys. */
  function Marks(ks: seq<Key>, spread: set<Key>): (w: seq<nat>)
    ensures |w| == |ks|
  {
    seq(|ks|, i requires 0 <= i < |ks| => if ks[i] in spread then 1 else 0)
  }

  /** The shard the scheduler picks for the `i`-th key placed. */
  function Pick(t: Timings, ks: seq<Key>, spread: set<Key>, count: nat, i: nat): (shard: nat)
    requires count >= 1 && i < |ks|
    ensures shard < count
  {
    var b := Run(t, ks, spread, count, i);
    Best(b.loads, b.spreadCounts, ks[i] in spread, count)
  }

  function Picks(t: Timings, ks: seq<Key>, spread: set<Key>, count: nat): (a: seq<nat>)
    requires count >= 1
    ensures |a| == |ks| && forall i :: 0 <= i < |a| ==> a[i] < count
  {
    seq(|ks|, i requires 0 <= i < |ks| => Pick(t, ks, spread, count, i))
  }

  /** After every step the board's loads and spread counts are those of the picks made. */
  lemma BoardTallies(t: Timings, ks: seq<Key>, spread: set<Key>, count: nat, n: nat)
    requires count >= 1 && n <= |ks|
    ensures Run(t, ks, spread, count, n).loads == Loads(Weights(t, ks), Picks(t, ks, spread, count), count, n)
    ensures Run(t, ks, spread, count, n).spreadCounts == Loads(Marks(ks, spread), Picks(t, ks, spread, count), count, n)
  {
    LoadsTally(t, ks, spread, count, n, Weights(t, ks), Picks(t, ks, spread, count));
    CountsTally(t, ks, spread, count, n, Marks(ks, spread), Picks(t, ks, spread, count));
  }

  ghost predicate ArePicks(t: Timings, ks: seq<Key>, spread: set<Key>, count: nat, a: seq<nat>)
    requires count >= 1
  {
    |a| == |ks| && forall i {:trigger a[i]} :: 0 <= i < |ks| ==> a[i] == Pick(t, ks, spread, count, i)
  }

  lemma {:induction false} LoadsTally(t: Timings, ks: seq<Key>, spread: set<Key>, count: nat, n: nat, w: seq<nat>,
                                      a: seq<nat>)
    requires count >= 1 && n <= |ks| && Assigns(a, w, count) && ArePicks(t, ks, spread, count, a)
    requires |w| == |ks| && forall i {:trigger w[i]} :: 0 <= i < |ks| ==> w[i] == Weight(t, ks[i])
    ensures Run(t, ks, spread, count, n).loads == Loads(w, a, count, n)
  {
    if n > 0 { LoadsTally(t, ks, spread, count, n - 1, w, a); }
  }

  lemma {:induction false} CountsTally(t: Timings, ks: seq<Key>, spread: set<Key>, count: nat, n: nat, marks: seq<nat>,
                                       a: seq<nat>)
    requires count >= 1 && n <= |ks| && Assigns(a, marks, count) && ArePicks(t, ks, spread, count, a)
    requires |marks| == |ks| && forall i {:trigger marks[i]} :: 0 <= i < |ks| ==>
             marks[i] == if ks[i] in spread then 1 else 0
    ensures Run(t, ks, spread, count, n).spreadCounts == Loads(marks, a, count, n)
  {
    if n > 0 {
      CountsTally(t, ks, spread, count, n - 1, marks, a);
      var counts := Run(t, ks, spread, count, n - 1).spreadCounts;
      assert counts[a[n - 1] := counts[a[n - 1]]] == counts;
    }
  }

  predicate Maps(shardOf: map<Key, nat>, key: Key, shard: nat) {
    key in shardOf && shardOf[key] == shard
  }

  /** `shardOf` holds the first `n` of `ks`, each where `a` says, and only keys of `ks`. */
  ghost predicate Lists(shardOf: map<Key, nat>, ks: seq<Key>, a: seq<nat>, n: nat)
    requires n <= |ks| == |a|
  {
    && (forall i {:trigger a[i]} :: 0 <= i < n ==> Maps(shardOf, ks[i], a[i]))
    && (forall k :: k in shardOf ==> k in ks)
  }

  lemma ListsNext(shardOf: map<Key, nat>, ks: seq<Key>, a: seq<nat>, n: nat)
    requires n < |ks| == |a| && NoRepeats(ks) && Lists(shardOf, ks, a, n)
    ensures Lists(shardOf[ks[n] := a[n]], ks, a, n + 1)
  {
    var next := shardOf[ks[n] := a[n]];
    assert ks[n] in ks;
    forall i {:trigger a[i]} | 0 <= i < n + 1 ensures Maps(next, ks[i], a[i]) {
      assert i < n ==> ks[i] != ks[n] && Maps(shardOf, ks[i], a[i]);
    }
  }

  /** The `n`-th key placed goes where `a` says. */
  ghost predicate GoesTo(t: Timings, ks: seq<Key>, spread: set<Key>, count: nat, a: seq<nat>, n: nat)
    requires count >= 1 && n < |ks| == |a|
  {
    Run(t, ks, spread, count, n + 1).shardOf == Run(t, ks, spread, count, n).shardOf[ks[n] := a[n]]
  }

  lemma PickGoesTo(t: Timings, ks: seq<Key>, spread: set<Key>, count: nat, a: seq<nat>, n: nat)
    requires count >= 1 && n < |ks| && ArePicks(t, ks, spread, count, a)
    ensures GoesTo(t, ks, spread, count, a, n)
  {
    assert a[n] == Pick(t, ks, spread, count, n);
  }

  lemma GoesToLists(t: Timings, ks: seq<Key>, spread: set<Key>, count: nat, a: seq<nat>, n: nat)
    requires count >= 1 && n < |ks| == |a| && NoRepeats(ks) && GoesTo(t, ks, spread, count, a, n)
    requires Lists(Run(t, ks, spread, count, n).shardOf, ks, a, n)
    ensures Lists(Run(t, ks, spread, count, n + 1).shardOf, ks, a, n + 1)
  {
    ListsNext(Run(t, ks, spread, count, n).shardOf, ks, a, n);
  }

  lemma {:induction false} BoardLists(t: Timings, ks: seq<Key>, spread: set<Key>, count: nat, n: nat, a: seq<nat>)
    requires count >= 1 && NoRepeats(ks) && n <= |ks| == |a|
    requires forall i: nat :: i < |ks| ==> GoesTo(t, ks, spread, count, a, i)
    ensures Lists(Run(t, ks, spread, count, n).shardOf, ks, a, n)
    decreases n
  {
    if n > 0 {
      BoardLists(t, ks, spread, count, n - 1, a);
      GoesToLists(t, ks, spread, count, a, n - 1);
    }
  }

  lemma AssignedIsPicks(t: Timings, keys: seq<Key>, spread: set<Key>, count: nat)
    requires count >= 1
    ensures var ks, shardOf := Placing(t, keys, spread), Assigned(t, keys, spread, count);
      && Covers(ks, shardOf, count)
      && Targets(ks, shardOf) == Picks(t, ks, spread, count)
      && (forall k :: k in shardOf <==> k in keys)
  {
    var ks := Placing(t, keys, spread);
    PlacingLists(t, keys, spread);
    var a, shardOf := Picks(t, ks, spread, count), Assigned(t, keys, spread, count);
    forall i: nat | i < |ks| ensures GoesTo(t, ks, spread, count, a, i) { PickGoesTo(t, ks, spread, count, a, i); }
    BoardLists(t, ks, spread, count, |ks|, a);
    forall k | k in ks ensures k in shardOf && shardOf[k] < count {
      var i :| 0 <= i < |ks| && ks[i] == k;
      assert Maps(shardOf, ks[i], a[i]);
    }
  }

  // Partition

  /** The files (by position) the shard numbered `shard`, from 1, runs: `vitest.config.ts`'s selection. */
  function Selected(files: seq<Key>, t: Timings, spread: set<Key>, count: nat, shard: nat): set<nat>
    requires count >= 1
  {
    var shardOf := Assigned(t, files, spread, count);
    set p: nat | p < |files| && files[p] in shardOf && shardOf[files[p]] == shard - 1
  }

  /** Jobs that list the same files in any order, each as often as it likes, agree on every file's shard. */
  lemma JobsAgree(t: Timings, keys: seq<Key>, others: seq<Key>, spread: set<Key>, count: nat)
    requires count >= 1 && forall k :: k in keys <==> k in others
    ensures Assigned(t, keys, spread, count) == Assigned(t, others, spread, count)
  {
    ComparatorIsStrict(t);
    SortDependsOnElements(Comparator(t), keys, others);
  }

  /** Every file is run by one of the shards 1 to `count`, and by no other. */
  lemma ShardsPartition(files: seq<Key>, t: Timings, spread: set<Key>, count: nat, p: nat)
    requires count >= 1 && p < |files|
    ensures exists shard: nat :: 1 <= shard <= count && p in Selected(files, t, spread, count, shard)
    ensures forall x: nat, y: nat ::
              1 <= x && 1 <= y && p in Selected(files, t, spread, count, x) && p in Selected(files, t, spread, count, y)
              ==> x == y
  {
    AssignedIsPicks(t, files, spread, count);
    PlacingLists(t, files, spread);
    var shardOf := Assigned(t, files, spread, count);
    assert files[p] in files;
    assert p in Selected(files, t, spread, count, shardOf[files[p]] + 1);
  }

  // Spreading

  ghost predicate Even(counts: seq<nat>) {
    forall x, y :: 0 <= x < |counts| && 0 <= y < |counts| ==> counts[x] <= counts[y] + 1
  }

  /** After every step no shard holds two more spread keys than another. */
  lemma {:induction false} SpreadStaysEven(t: Timings, ks: seq<Key>, spread: set<Key>, count: nat, n: nat)
    requires count >= 1 && n <= |ks|
    ensures Even(Run(t, ks, spread, count, n).spreadCounts)
  {
    if n > 0 {
      SpreadStaysEven(t, ks, spread, count, n - 1);
      var b := Run(t, ks, spread, count, n - 1);
      if ks[n - 1] in spread {
        var best := Best(b.loads, b.spreadCounts, true, count);
        BestIsFirstOfBest(b.loads, b.spreadCounts, true, count);
        forall x | 0 <= x < count ensures b.spreadCounts[best] <= b.spreadCounts[x] {
          assert !Preferred(b.loads, b.spreadCounts, true, x, best);
        }
      }
    }
  }

  /** And a spread count is what it says: the number of spread keys the answer puts on that shard. */
  lemma AssignedSpreadsEvenly(t: Timings, keys: seq<Key>, spread: set<Key>, count: nat)
    requires count >= 1
    ensures var ks, shardOf := Placing(t, keys, spread), Assigned(t, keys, spread, count);
      && Covers(ks, shardOf, count)
      && Even(Loads(Marks(ks, spread), Targets(ks, shardOf), count, |ks|))
  {
    var ks := Placing(t, keys, spread);
    PlacingLists(t, keys, spread);
    AssignedIsPicks(t, keys, spread, count);
    BoardTallies(t, ks, spread, count, |ks|);
    SpreadStaysEven(t, ks, spread, count, |ks|);
  }

  // Load bounds

  /** A key outside the spread set goes to a shard with the least load. */
  lemma PicksLeast(t: Timings, ks: seq<Key>, spread: set<Key>, count: nat, i: nat)
    requires count >= 1 && i < |ks| && ks[i] !in spread
    ensures Least(Loads(Weights(t, ks), Picks(t, ks, spread, count), count, i), Picks(t, ks, spread, count)[i])
  {
    BoardTallies(t, ks, spread, count, i);
    var b := Run(t, ks, spread, count, i);
    BestIsFirstOfBest(b.loads, b.spreadCounts, false, count);
    forall s | 0 <= s < count ensures b.loads[Pick(t, ks, spread, count, i)] <= b.loads[s] {
      assert !Preferred(b.loads, b.spreadCounts, false, s, Pick(t, ks, spread, count, i));
    }
  }

  // The rule, said of the answer

  /**
   The shard to take: while spreading, one with the fewest spread keys and of those one with the least load, else one
   with the least load; the first of several.
   */
  predicate IsToTake(marks: seq<nat>, loads: seq<nat>, spreading: bool, shard: nat)
    requires |marks| == |loads|
  {
    && shard < |loads|
    && (spreading ==> forall x :: 0 <= x < |marks| ==> marks[shard] <= marks[x])
    && (forall x :: 0 <= x < |loads| && (spreading ==> marks[x] == marks[shard]) ==>
          loads[shard] < loads[x] || (loads[shard] == loads[x] && shard <= x))
  }

  lemma BestIsToTake(loads: seq<nat>, spreadCounts: seq<nat>, spreading: bool)
    requires |loads| == |spreadCounts| >= 1
    ensures IsToTake(spreadCounts, loads, spreading, Best(loads, spreadCounts, spreading, |loads|))
  {
    var best := Best(loads, spreadCounts, spreading, |loads|);
    BestIsFirstOfBest(loads, spreadCounts, spreading, |loads|);
    forall x | 0 <= x < |loads| && spreading ensures spreadCounts[best] <= spreadCounts[x] {
      assert !Preferred(loads, spreadCounts, spreading, x, best);
    }
    forall x | 0 <= x < |loads| && (spreading ==> spreadCounts[x] == spreadCounts[best])
      ensures loads[best] < loads[x] || (loads[best] == loads[x] && best <= x)
    {
      assert !Preferred(loads, spreadCounts, spreading, x, best);
      if x < best { assert Preferred(loads, spreadCounts, spreading, best, x); }
    }
  }

  lemma PickIsToTake(t: Timings, ks: seq<Key>, spread: set<Key>, count: nat, i: nat)
    requires count >= 1 && i < |ks|
    ensures var a := Picks(t, ks, spread, count);
      IsToTake(Loads(Marks(ks, spread), a, count, i), Loads(Weights(t, ks), a, count, i), ks[i] in spread, a[i])
  {
    BoardTallies(t, ks, spread, count, i);
    var b := Run(t, ks, spread, count, i);
    BestIsToTake(b.loads, b.spreadCounts, ks[i] in spread);
  }

  /** `w` is a file's last timing or the default, key by key, and `marks` marks the spread keys. */
  ghost predicate Weighed(t: Timings, ks: seq<Key>, spread: set<Key>, w: seq<nat>, marks: seq<nat>) {
    && |w| == |marks| == |ks|
    && (forall k {:trigger w[k]} :: 0 <= k < |w| ==> w[k] == WeightOf(t, ks[k]))
    && (forall k {:trigger marks[k]} :: 0 <= k < |w| ==> marks[k] == if ks[k] in spread then 1 else 0)
  }

  lemma WeighedIs(t: Timings, ks: seq<Key>, spread: set<Key>, w: seq<nat>, marks: seq<nat>)
    requires Weighed(t, ks, spread, w, marks)
    ensures w == Weights(t, ks) && marks == Marks(ks, spread)
  {
  }

  /**
   In the answer every key, in the order of placing, is on the shard to take given those placed before it: the one rule
   that determines the answer.
   */
  lemma AssignedByRule(t: Timings, keys: seq<Key>, spread: set<Key>, count: nat, w: seq<nat>, marks: seq<nat>, i: nat)
    requires count >= 1 && i < |Placing(t, keys, spread)| && Weighed(t, Placing(t, keys, spread), spread, w, marks)
    ensures var ks, shardOf := Placing(t, keys, spread), Assigned(t, keys, spread, count);
      && Covers(ks, shardOf, count)
      && IsToTake(Loads(marks, Targets(ks, shardOf), count, i), Loads(w, Targets(ks, shardOf), count, i),
                  ks[i] in spread, shardOf[ks[i]])
  {
    var ks, shardOf := Placing(t, keys, spread), Assigned(t, keys, spread, count);
    AssignedIsPicks(t, keys, spread, count);
    WeighedIs(t, ks, spread, w, marks);
    PickIsToTake(t, ks, spread, count, i);
    assert Targets(ks, shardOf)[i] == shardOf[ks[i]];
  }

  /**
   With any spread set: a shard that holds a key outside it, `last` being the last one placed there, carries at
   most the average plus (1 - 1/count) of that key's weight.
   */
  lemma LoadBound(t: Timings, keys: seq<Key>, spread: set<Key>, count: nat, key: Key) returns (last: Key)
    requires count >= 1 && key in keys && key !in spread
    ensures var ks, shardOf := Placing(t, keys, spread), Assigned(t, keys, spread, count);
      && Covers(ks, shardOf, count) && key in shardOf
            && shardOf[key] < count && last in shardOf && shardOf[last] == shardOf[key]
      && last in keys && last !in spread
      && (forall i, j :: 0 <= i < j < |ks| && ks[i] == last ==> shardOf[ks[j]] != shardOf[last])
      && count * ShardLoads(t, ks, shardOf, count)[shardOf[key]] <= Sum(Weights(t, ks)) + (count - 1) * Weight(t, last)
  {
    var ks, shardOf := Placing(t, keys, spread), Assigned(t, keys, spread, count);
    PlacingLists(t, keys, spread);
    AssignedIsPicks(t, keys, spread, count);
    var i :| 0 <= i < |ks| && ks[i] == key;
    assert Targets(ks, shardOf)[i] == shardOf[key];
    var k := LastIsBounded(t, ks, spread, count, i);
    last := ks[k];
    assert Targets(ks, shardOf)[k] == shardOf[last];
    forall i, j | 0 <= i < j < |ks| && ks[i] == last ensures shardOf[ks[j]] != shardOf[last] {
      assert i == k && Targets(ks, shardOf)[j] == shardOf[ks[j]];
    }
  }

  lemma LastIsBounded(t: Timings, ks: seq<Key>, spread: set<Key>, count: nat, i: nat) returns (k: nat)
    requires count >= 1 && i < |ks| && ks[i] !in spread
    requires forall x, y :: 0 <= x < y < |ks| && ks[y] in spread ==> ks[x] in spread
    ensures var w, a := Weights(t, ks), Picks(t, ks, spread, count);
      && k < |ks| && ks[k] !in spread && a[k] == a[i] && (forall j :: k < j < |ks| ==> a[j] != a[k])
      && count * Loads(w, a, count, |ks|)[a[i]] <= Sum(w) + (count - 1) * Weight(t, ks[k])
  {
    k := LastHeld(Weights(t, ks), Picks(t, ks, spread, count), count, |ks|, i);
    PicksLeast(t, ks, spread, count, k);
    LastBound(Weights(t, ks), Picks(t, ks, spread, count), count, i, k);
  }

  lemma LastBound(w: seq<nat>, a: seq<nat>, m: nat, i: nat, k: nat)
    requires Assigns(a, w, m) && i < |w| && k < |w| && a[k] == a[i]
    requires Least(Loads(w, a, m, k), a[k]) && Loads(w, a, m, |w|)[a[i]] == Loads(w, a, m, k + 1)[a[k]]
    ensures m * Loads(w, a, m, |w|)[a[i]] <= Sum(w) + (m - 1) * w[k]
  {
    ListBound(w, a, m, k);
    SumPrefix(w, k + 1);
  }

  /** The last of the first `n` items on the shard of item `i`. */
  lemma {:induction false} LastHeld(w: seq<nat>, a: seq<nat>, m: nat, n: nat, i: nat) returns (k: nat)
    requires Assigns(a, w, m) && i < n <= |w|
    ensures i <= k < n && a[k] == a[i] && forall j :: k < j < n ==> a[j] != a[k]
    ensures Loads(w, a, m, n)[a[i]] == Loads(w, a, m, k + 1)[a[i]]
  {
    if a[n - 1] == a[i] { k := n - 1; } else { k := LastHeld(w, a, m, n - 1, i); }
  }

  lemma {:induction false} SumPrefix(w: seq<nat>, n: nat)
    requires n <= |w|
    ensures Sum(w[..n]) <= Sum(w)
    decreases |w|
  {
    if n < |w| {
      assert w[..|w| - 1][..n] == w[..n];
      SumPrefix(w[..|w| - 1], n);
    } else {
      assert w[..n] == w;
    }
  }

  /**
   Graham's bound: with nothing to spread, no shard's load is over 4/3 - 1/(3 count) of the largest load of any
   other assignment of the same keys.
   */
  lemma WithinFourThirds(t: Timings, keys: seq<Key>, count: nat, other: map<Key, nat>, largest: nat, s: nat)
    requires count >= 1 && s < count
    requires Covers(Order(t, keys), other, count) && Within(ShardLoads(t, Order(t, keys), other, count), largest)
    ensures Covers(Order(t, keys), Assigned(t, keys, {}, count), count)
    ensures var loads := ShardLoads(t, Order(t, keys), Assigned(t, keys, {}, count), count);
      3 * count * loads[s] <= (4 * count - 1) * largest
  {
    var ks := Order(t, keys);
    OrderLists(t, keys);
    NothingToSpread(ks);
    assert Placing(t, keys, {}) == ks;
    AssignedIsPicks(t, keys, {}, count);
    PicksAreGreedy(t, keys, count);
    LongestFirstBound(Weights(t, ks), Picks(t, ks, {}, count), Targets(ks, other), count, s, largest);
  }

  lemma PicksAreGreedy(t: Timings, keys: seq<Key>, count: nat)
    requires count >= 1
    ensures var ks := Order(t, keys);
      Descending(Weights(t, ks)) && Greedy(Weights(t, ks), Picks(t, ks, {}, count), count)
  {
    var ks := Order(t, keys);
    var w, a := Weights(t, ks), Picks(t, ks, {}, count);
    OrderLists(t, keys);
    forall i, j | 0 <= i < j < |w| ensures w[i] >= w[j] { assert Comparator(t)(ks[i], ks[j]); }
    forall i | 0 <= i < |w| ensures Least(Loads(w, a, count, i), a[i]) { PicksLeast(t, ks, {}, count, i); }
  }
}
