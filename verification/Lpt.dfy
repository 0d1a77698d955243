/**
 Longest-first list scheduling, apart from keys and files: `w[i]` is the weight of the i-th item, `a[i]` the
 shard it is put on, of `m` shards. The bound proved is Graham's: 4/3 - 1/(3m) times the best assignment.
 */
module Lpt {

  function Sum(s: seq<nat>): nat {
    if s == [] then 0 else Sum(s[..|s| - 1]) + s[|s| - 1]
  }

  /** An assignment of `w`'s items to `m` shards. */
  predicate Assigns(a: seq<nat>, w: seq<nat>, m: nat) {
    |a| == |w| && forall i :: 0 <= i < |a| ==> a[i] < m
  }

  /** Each shard's load once the first `n` items are placed. */
  function Loads(w: seq<nat>, a: seq<nat>, m: nat, n: nat): (loads: seq<nat>)
    requires Assigns(a, w, m) && n <= |w|
    ensures |loads| == m
  {
    if n == 0 then seq(m, _ => 0)
    else
      var before := Loads(w, a, m, n - 1);
      before[a[n - 1] := before[a[n - 1]] + w[n - 1]]
  }

  /** How many items each shard holds: the loads of items that all weigh 1. */
  function Counts(a: seq<nat>, m: nat, n: nat): (counts: seq<nat>)
    requires n <= |a| && forall i :: 0 <= i < |a| ==> a[i] < m
    ensures |counts| == m
  {
    Loads(seq(|a|, _ => 1), a, m, n)
  }

  /** No shard has a smaller load than shard `i`. */
  predicate Least(loads: seq<nat>, i: nat) {
    i < |loads| && forall s :: 0 <= s < |loads| ==> loads[i] <= loads[s]
  }

  /** No shard's load is over `t`. */
  predicate Within(loads: seq<nat>, t: nat) {
    forall s :: 0 <= s < |loads| ==> loads[s] <= t
  }

  /** Each item goes to a shard with the least load so far. */
  ghost predicate Greedy(w: seq<nat>, a: seq<nat>, m: nat)
    requires Assigns(a, w, m)
  {
    forall i :: 0 <= i < |w| ==> Least(Loads(w, a, m, i), a[i])
  }

  predicate Descending(w: seq<nat>) {
    forall i, j :: 0 <= i < j < |w| ==> w[i] >= w[j]
  }

  // Sums

  lemma {:induction false} SumUpdate(s: seq<nat>, i: nat, x: nat)
    requires i < |s|
    ensures Sum(s[i := x]) + s[i] == Sum(s) + x
  {
    var n := |s| - 1;
    if i == n {
      assert s[i := x][..n] == s[..n];
    } else {
      assert s[i := x][..n] == s[..n][i := x];
      SumUpdate(s[..n], i, x);
    }
  }

  lemma {:induction false} SumZeros(m: nat)
    ensures Sum(seq(m, _ => 0)) == 0
  {
    if m > 0 {
      assert seq(m, _ => 0)[..m - 1] == seq(m - 1, _ => 0);
      SumZeros(m - 1);
    }
  }

  /** If `x[i] + y[i] >= c` everywhere, the sums make at least `c` a place. */
  lemma {:induction false} SumsAtLeast(x: seq<nat>, y: seq<nat>, c: nat)
    requires |x| == |y| && forall i :: 0 <= i < |x| ==> x[i] + y[i] >= c
    ensures Sum(x) + Sum(y) >= |x| * c
  {
    if x != [] {
      SumsAtLeast(x[..|x| - 1], y[..|x| - 1], c);
      assert |x| * c == (|x| - 1) * c + c;
    }
  }

  /** If `x[i] + y[i] <= c` everywhere, the sums make at most `c` a place. */
  lemma {:induction false} SumsAtMost(x: seq<nat>, y: seq<nat>, c: nat)
    requires |x| == |y| && forall i :: 0 <= i < |x| ==> x[i] + y[i] <= c
    ensures Sum(x) + Sum(y) <= |x| * c
  {
    if x != [] {
      SumsAtMost(x[..|x| - 1], y[..|x| - 1], c);
      assert |x| * c == (|x| - 1) * c + c;
    }
  }

  /** Nothing is lost: the loads add up to the weights placed. */
  lemma {:induction false} LoadsConserve(w: seq<nat>, a: seq<nat>, m: nat, n: nat)
    requires Assigns(a, w, m) && n <= |w|
    ensures Sum(Loads(w, a, m, n)) == Sum(w[..n])
  {
    if n == 0 {
      SumZeros(m);
    } else {
      LoadsConserve(w, a, m, n - 1);
      var before := Loads(w, a, m, n - 1);
      SumUpdate(before, a[n - 1], before[a[n - 1]] + w[n - 1]);
      assert w[..n][..n - 1] == w[..n - 1];
    }
  }

  lemma {:induction false} CountsAddUp(a: seq<nat>, m: nat, n: nat)
    requires n <= |a| && forall i :: 0 <= i < |a| ==> a[i] < m
    ensures Sum(Counts(a, m, n)) == n
  {
    var ones := seq(|a|, _ => 1);
    LoadsConserve(ones, a, m, n);
    SumOnes(ones, n);
  }

  lemma {:induction false} SumOnes(ones: seq<nat>, n: nat)
    requires n <= |ones| && forall i :: 0 <= i < |ones| ==> ones[i] == 1
    ensures Sum(ones[..n]) == n
  {
    if n > 0 {
      assert ones[..n][..n - 1] == ones[..n - 1];
      SumOnes(ones, n - 1);
    }
  }

  // Loads and counts as items are added

  lemma {:induction false} LoadsGrow(w: seq<nat>, a: seq<nat>, m: nat, i: nat, n: nat, s: nat)
    requires Assigns(a, w, m) && i <= n <= |w| && s < m
    ensures Loads(w, a, m, i)[s] <= Loads(w, a, m, n)[s]
  {
    if i < n { LoadsGrow(w, a, m, i, n - 1, s); }
  }

  /** The last item on a shard, whose placement gave the shard its final load. */
  lemma {:induction false} LastOn(w: seq<nat>, a: seq<nat>, m: nat, n: nat, s: nat) returns (k: nat)
    requires Assigns(a, w, m) && n <= |w| && s < m && Loads(w, a, m, n)[s] > 0
    ensures k < n && a[k] == s && Loads(w, a, m, n)[s] == Loads(w, a, m, k + 1)[s]
    ensures forall i :: k < i < n ==> a[i] != s
  {
    if a[n - 1] == s { k := n - 1; } else { k := LastOn(w, a, m, n - 1, s); }
  }

  /** When every item placed weighs at least `v`, a shard's load is at least `v` a time for each it holds. */
  lemma {:induction false} LoadCoversCount(w: seq<nat>, a: seq<nat>, m: nat, n: nat, s: nat, v: nat)
    requires Assigns(a, w, m) && n <= |w| && s < m && forall i :: 0 <= i < n ==> w[i] >= v
    ensures Counts(a, m, n)[s] * v <= Loads(w, a, m, n)[s]
  {
    if n > 0 {
      LoadCoversCount(w, a, m, n - 1, s, v);
      if a[n - 1] == s {
        assert Counts(a, m, n)[s] * v == Counts(a, m, n - 1)[s] * v + v;
      }
    }
  }

  /** And more exactly when it holds item `i`: that item in full, and `v` for each other. */
  lemma {:induction false} LoadCoversItem(w: seq<nat>, a: seq<nat>, m: nat, n: nat, i: nat, v: nat)
    requires Assigns(a, w, m) && i < n <= |w| && forall j :: 0 <= j < n ==> w[j] >= v
    ensures Counts(a, m, n)[a[i]] >= 1
    ensures w[i] + (Counts(a, m, n)[a[i]] - 1) * v <= Loads(w, a, m, n)[a[i]]
  {
    if i == n - 1 {
      LoadCoversCount(w, a, m, i, a[i], v);
    } else {
      LoadCoversItem(w, a, m, n - 1, i, v);
      if a[n - 1] == a[i] {
        assert (Counts(a, m, n)[a[i]] - 1) * v == (Counts(a, m, n - 1)[a[i]] - 1) * v + v;
      }
    }
  }

  /** A shard with no item weighs nothing, and one with a single item weighs what that item does. */
  lemma {:induction false} FewItems(w: seq<nat>, a: seq<nat>, m: nat, n: nat, i: nat)
    requires Assigns(a, w, m) && i < n <= |w|
    ensures Counts(a, m, n)[a[i]] == 1 ==> Loads(w, a, m, n)[a[i]] == w[i]
  {
    if i == n - 1 {
      EmptyShard(w, a, m, i, a[i]);
    } else {
      FewItems(w, a, m, n - 1, i);
      var ones := seq(|a|, _ => 1);
      LoadCoversItem(ones, a, m, n - 1, i, 1);
    }
  }

  lemma {:induction false} EmptyShard(w: seq<nat>, a: seq<nat>, m: nat, n: nat, s: nat)
    requires Assigns(a, w, m) && n <= |w| && s < m
    ensures Counts(a, m, n)[s] == 0 ==> Loads(w, a, m, n)[s] == 0
  {
    if n > 0 { EmptyShard(w, a, m, n - 1, s); }
  }

  /** If no item from `p` on is on shard `s`, all of `s`'s items are among the first `p`. */
  lemma {:induction false} CountSettled(a: seq<nat>, m: nat, p: nat, n: nat, s: nat)
    requires p <= n <= |a| && (forall i :: 0 <= i < |a| ==> a[i] < m) && s < m
    requires forall i :: p <= i < n ==> a[i] != s
    ensures Counts(a, m, n)[s] == Counts(a, m, p)[s]
  {
    if p < n { CountSettled(a, m, p, n - 1, s); }
  }

  lemma {:induction false} HoldsItem(a: seq<nat>, m: nat, n: nat, s: nat) returns (i: nat)
    requires n <= |a| && (forall i :: 0 <= i < |a| ==> a[i] < m) && s < m && Counts(a, m, n)[s] > 0
    ensures i < n && a[i] == s
  {
    if a[n - 1] == s { i := n - 1; } else { i := HoldsItem(a, m, n - 1, s); }
  }

  // The bounds

  /** Placing an item on the least loaded shard: `m` times its new load is within one weight of everything placed. */
  lemma ListBound(w: seq<nat>, a: seq<nat>, m: nat, k: nat)
    requires Assigns(a, w, m) && k < |w|
    requires Least(Loads(w, a, m, k), a[k])
    ensures m * Loads(w, a, m, k + 1)[a[k]] <= Sum(w[..k + 1]) + (m - 1) * w[k]
  {
    var loads := Loads(w, a, m, k);
    var least := loads[a[k]];
    var nothing := seq(m, _ => 0);
    SumZeros(m);
    SumsAtLeast(loads, nothing, least);
    LoadsConserve(w, a, m, k);
    assert w[..k + 1][..k] == w[..k];
    assert m * (least + w[k]) == m * least + m * w[k];
    assert (m - 1) * w[k] == m * w[k] - w[k];
  }

  /** An assignment within `t` carries at most `t` a shard, of the first `n` items as of all of them. */
  lemma OtherCarriesAll(w: seq<nat>, b: seq<nat>, m: nat, n: nat, t: nat)
    requires Assigns(b, w, m) && n <= |w| && Within(Loads(w, b, m, |w|), t)
    ensures Sum(w[..n]) <= m * t
    ensures Within(Loads(w, b, m, n), t)
  {
    forall s | 0 <= s < m ensures Loads(w, b, m, n)[s] <= t { LoadsGrow(w, b, m, n, |w|, s); }
    LoadsConserve(w, b, m, n);
    SumZeros(m);
    SumsAtMost(Loads(w, b, m, n), seq(m, _ => 0), t);
  }

  /** The shortest prefix that contains every item alone on its shard among the first `k`. */
  lemma LastAlone(a: seq<nat>, m: nat, k: nat) returns (p: nat)
    requires k <= |a| && forall i :: 0 <= i < |a| ==> a[i] < m
    ensures p <= k && forall i :: p <= i < k ==> Counts(a, m, k)[a[i]] != 1
    ensures p > 0 ==> Counts(a, m, k)[a[p - 1]] == 1
  {
    p := k;
    while p > 0 && Counts(a, m, k)[a[p - 1]] != 1
      invariant p <= k && forall i :: p <= i < k ==> Counts(a, m, k)[a[i]] != 1
    {
      p := p - 1;
    }
  }

  /**
   With no shard empty, the `k` items fill all `m` shards twice but for those alone, which are among the first `p`.
   */
  lemma GreedyIsFull(a: seq<nat>, m: nat, k: nat, p: nat)
    requires k <= |a| && (forall i :: 0 <= i < |a| ==> a[i] < m) && p <= k
    requires forall s :: 0 <= s < m ==> Counts(a, m, k)[s] >= 1
    requires forall i :: p <= i < k ==> Counts(a, m, k)[a[i]] != 1
    ensures k + p >= m * 2
  {
    var all, early := Counts(a, m, k), Counts(a, m, p);
    forall s | 0 <= s < m ensures all[s] + early[s] >= 2 {
      if all[s] == 1 { CountSettled(a, m, p, k, s); }
    }
    SumsAtLeast(all, early, 2);
    CountsAddUp(a, m, k);
    CountsAddUp(a, m, p);
  }

  lemma CapsCount(count: nat, c: nat, v: nat, t: int)
    requires count * v <= t < c * v
    ensures count < c
  {
    if count >= c { Scale(c, count, v); }
  }

  /**
   When no shard of `b` carries three of the first `n` items, nor one of the first `p` with another, room runs short.
   */
  lemma OtherIsShort(w: seq<nat>, b: seq<nat>, m: nat, n: nat, p: nat, v: nat, t: nat)
    requires Assigns(b, w, m) && p <= n <= |w| && Descending(w) && 3 * v > t
    requires Within(Loads(w, b, m, n), t)
    requires forall i :: 0 <= i < n ==> w[i] >= v
    requires p > 0 ==> w[p - 1] + v > t
    ensures n + p <= m * 2
  {
    var all, early := Counts(b, m, n), Counts(b, m, p);
    forall s | 0 <= s < m ensures all[s] + early[s] <= 2 {
      LoadCoversCount(w, b, m, n, s, v);
      CapsCount(all[s], 3, v, t);
      if early[s] > 0 {
        var i := HoldsItem(b, m, p, s);
        LoadCoversItem(w, b, m, n, i, v);
        CapsCount(all[s] - 1, 1, v, t - w[i]);
        LoadsGrow(seq(|b|, _ => 1), b, m, p, n, s);
      }
    }
    SumsAtMost(all, early, 2);
    CountsAddUp(b, m, n);
    CountsAddUp(b, m, p);
  }

  /**
   When the last item is more than a third of `t`, an assignment within `t` proves longest-first is within `t` too.
   */
  lemma HeavyItemsFit(w: seq<nat>, a: seq<nat>, b: seq<nat>, m: nat, k: nat, t: nat)
    requires Assigns(a, w, m) && Assigns(b, w, m) && Descending(w) && k < |w| && 3 * w[k] > t
    requires Least(Loads(w, a, m, k), a[k])
    requires Within(Loads(w, b, m, k + 1), t)
    ensures Loads(w, a, m, k + 1)[a[k]] <= t
  {
    var least, v := Loads(w, a, m, k)[a[k]], w[k];
    if least + v > t {
      assert v <= Loads(w, b, m, k + 1)[b[k]] <= t;
      NoShardEmpty(w, a, m, k);
      var p := LastAlone(a, m, k);
      GreedyIsFull(a, m, k, p);
      if p > 0 { FewItems(w, a, m, k, p - 1); }
      assert forall i :: 0 <= i < k + 1 ==> w[i] >= v;
      OtherIsShort(w, b, m, k + 1, p, v, t);
    }
  }

  lemma NoShardEmpty(w: seq<nat>, a: seq<nat>, m: nat, k: nat)
    requires Assigns(a, w, m) && k < |w| && Least(Loads(w, a, m, k), a[k]) && Loads(w, a, m, k)[a[k]] > 0
    ensures forall s :: 0 <= s < m ==> Counts(a, m, k)[s] >= 1
  {
    forall s | 0 <= s < m ensures Counts(a, m, k)[s] >= 1 { EmptyShard(w, a, m, k, s); }
  }

  /**
   Graham's bound: 3m times any of longest-first's loads is at most (4m - 1) times the most any other assignment loads.
   */
  lemma LongestFirstBound(w: seq<nat>, a: seq<nat>, b: seq<nat>, m: nat, s: nat, t: nat)
    requires Assigns(a, w, m) && Assigns(b, w, m) && Descending(w) && Greedy(w, a, m) && s < m
    requires Within(Loads(w, b, m, |w|), t)
    ensures 3 * m * Loads(w, a, m, |w|)[s] <= (4 * m - 1) * t
  {
    var load := Loads(w, a, m, |w|)[s];
    if load == 0 {
      HeavyAddUp(m, load, t);
    } else {
      var k := LastOn(w, a, m, |w|, s);
      BoundAtLast(w, a, b, m, k, t);
    }
  }

  lemma BoundAtLast(w: seq<nat>, a: seq<nat>, b: seq<nat>, m: nat, k: nat, t: nat)
    requires Assigns(a, w, m) && Assigns(b, w, m) && Descending(w) && k < |w| && Least(Loads(w, a, m, k), a[k])
    requires Within(Loads(w, b, m, |w|), t)
    ensures 3 * m * Loads(w, a, m, k + 1)[a[k]] <= (4 * m - 1) * t
  {
    var load := Loads(w, a, m, k + 1)[a[k]];
    OtherCarriesAll(w, b, m, k + 1, t);
    if 3 * w[k] > t {
      HeavyItemsFit(w, a, b, m, k, t);
      HeavyAddUp(m, load, t);
    } else {
      ListBound(w, a, m, k);
      ThirdsAddUp(m, load, w[k], t);
    }
  }

  lemma HeavyAddUp(m: nat, load: nat, t: nat)
    requires m >= 1 && load <= t
    ensures 3 * m * load <= (4 * m - 1) * t
  {
    Scale(load, t, 3 * m);
    Scale(3 * m, 4 * m - 1, t);
  }

  lemma ThirdsAddUp(m: nat, load: nat, v: nat, t: nat)
    requires m >= 1 && m * load <= m * t + (m - 1) * v && 3 * v <= t
    ensures 3 * m * load <= (4 * m - 1) * t
  {
    Scale(3 * v, t, m - 1);
    assert (m - 1) * (3 * v) == 3 * ((m - 1) * v);
    assert 3 * m * load == 3 * (m * load);
    assert (4 * m - 1) * t == 3 * (m * t) + (m - 1) * t;
  }

  lemma Scale(x: int, y: int, c: nat)
    requires x <= y
    ensures c * x <= c * y && x * c <= y * c
  {
  }
}
