/** Loops that go from one whole number to the next, and when they end. */
module Loops {
  import opened Wrappers

  /** Where a loop goes from a number; `None` is its end. */
  type Jump = int -> Option<int>

  /** At most `n` jumps are made from `x`. */
  predicate EndsWithin(jump: Jump, x: int, n: nat)
    decreases n
  {
    jump(x).Some? ==> n > 0 && EndsWithin(jump, jump(x).value, n - 1)
  }

  ghost predicate Ends(jump: Jump, x: int) {
    exists n: nat :: EndsWithin(jump, x, n)
  }

  /** The number after `k` jumps, if the loop makes so many. */
  function At(jump: Jump, x: int, k: nat): Option<int>
    decreases k
  {
    if k == 0 then Some(x)
    else if jump(x).None? then None
    else At(jump, jump(x).value, k - 1)
  }

  predicate Visits(jump: Jump, x: int, k: nat, y: int) {
    At(jump, x, k) == Some(y)
  }

  /** No number comes up twice. */
  ghost predicate VisitsOnce(jump: Jump, x: int) {
    forall i: nat, j: nat, y :: i < j && Visits(jump, x, i, y) ==> !Visits(jump, x, j, y)
  }

  lemma {:induction false} VisitsCompose(jump: Jump, x: int, i: nat, j: nat)
    requires At(jump, x, i).Some?
    ensures At(jump, x, i + j) == At(jump, At(jump, x, i).value, j)
    decreases i
  {
    if i > 0 { VisitsCompose(jump, jump(x).value, i - 1, j); }
  }

  lemma {:induction false} EndsLater(jump: Jump, x: int, n: nat, k: nat)
    requires EndsWithin(jump, x, n) && At(jump, x, k).Some?
    ensures k <= n && EndsWithin(jump, At(jump, x, k).value, n - k)
    decreases k
  {
    if k > 0 { EndsLater(jump, jump(x).value, n - 1, k - 1); }
  }

  /** A number that comes round again comes round for ever. */
  lemma {:induction false} CycleNeverEnds(jump: Jump, x: int, k: nat, n: nat)
    requires k > 0 && At(jump, x, k) == Some(x)
    ensures !EndsWithin(jump, x, n)
    decreases n
  {
    if EndsWithin(jump, x, n) {
      EndsLater(jump, x, n, k);
      CycleNeverEnds(jump, x, k, n - k);
    }
  }

  lemma OneMoreJump(jump: Jump, x: int)
    requires jump(x).Some?
    ensures Ends(jump, x) <==> Ends(jump, jump(x).value)
  {
    if Ends(jump, x) {
      var n: nat :| EndsWithin(jump, x, n);
      assert EndsWithin(jump, jump(x).value, n - 1);
    }
    if Ends(jump, jump(x).value) {
      var n: nat :| EndsWithin(jump, jump(x).value, n);
      assert EndsWithin(jump, x, n + 1);
    }
  }

  lemma {:induction false} EndsFrom(jump: Jump, x: int, k: nat)
    requires At(jump, x, k).Some?
    ensures Ends(jump, x) <==> Ends(jump, At(jump, x, k).value)
    decreases k
  {
    if k > 0 {
      OneMoreJump(jump, x);
      EndsFrom(jump, jump(x).value, k - 1);
    }
  }

  lemma {:induction false} GoesOn(jump: Jump, x: int, k: nat)
    requires !EndsWithin(jump, x, k)
    ensures At(jump, x, k).Some? && jump(At(jump, x, k).value).Some?
    decreases k
  {
    if k > 0 { GoesOn(jump, jump(x).value, k - 1); }
  }

  lemma {:induction false} FitIn(xs: set<int>, low: int, n: nat)
    requires forall x :: x in xs ==> low <= x < low + n
    ensures |xs| <= n
  {
    if n > 0 {
      var top := low + n - 1;
      FitIn(xs - {top}, low, n - 1);
      assert |xs| <= |xs - {top}| + 1;
    } else {
      forall x | x in xs ensures false {}
      assert xs == {};
    }
  }

  /** The loop jumps only from numbers in a range of `n`. */
  ghost predicate Within(jump: Jump, low: int, n: nat) {
    forall x :: jump(x).Some? ==> low <= x < low + n
  }

  ghost predicate VisitedBefore(jump: Jump, x: int, k: nat, y: int) {
    exists i: nat :: i < k && Visits(jump, x, i, y)
  }

  /** The first `k` numbers of a loop that does not end. */
  lemma {:induction false} ManyVisited(jump: Jump, x: int, low: int, n: nat, k: nat) returns (ys: set<int>)
    requires VisitsOnce(jump, x) && !Ends(jump, x) && Within(jump, low, n)
    ensures |ys| == k && forall y :: y in ys ==> low <= y < low + n && VisitedBefore(jump, x, k, y)
    decreases k
  {
    ys := {};
    if k > 0 {
      var fewer := ManyVisited(jump, x, low, n, k - 1);
      GoesOn(jump, x, k - 1);
      var y := At(jump, x, k - 1).value;
      assert Visits(jump, x, k - 1, y);
      assert y !in fewer;
      ys := fewer + {y};
    }
  }

  /** Where it jumps only from numbers in a range, the loop ends if and only if no number comes up twice. */
  lemma WhenLoopEnds(jump: Jump, x: int, low: int, n: nat)
    requires Within(jump, low, n)
    ensures Ends(jump, x) <==> VisitsOnce(jump, x)
  {
    if Ends(jump, x) {
      forall i: nat, j: nat, y | i < j && Visits(jump, x, i, y) ensures !Visits(jump, x, j, y) {
        if Visits(jump, x, j, y) {
          VisitsCompose(jump, x, i, j - i);
          EndsFrom(jump, x, i);
          var m: nat :| EndsWithin(jump, y, m);
          CycleNeverEnds(jump, y, j - i, m);
        }
      }
    } else if VisitsOnce(jump, x) {
      var ys := ManyVisited(jump, x, low, n, n + 1);
      FitIn(ys, low, n);
    }
  }
}
