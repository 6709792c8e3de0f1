/**
 * slow_scroll: scroll down by a fixed increment, re-measuring the page height
 * after every step, until the position reaches the latest height. The page is
 * a height oracle: height(k) is the document height measured after k steps
 * (height(0) is the measurement before the first step). The pause between
 * steps has no logical content and is left out.
 */
module Scroll {

  /** scroll_increment: the default the runner uses. */
  const Increment: int := 500

  /** The loop stops after exactly n steps: position 500n covers height(n), and no earlier position covered its height. */
  predicate StopsAfter(height: nat -> int, n: nat)
  {
    Increment * n >= height(n) && forall j :: 0 <= j < n ==> Increment * j < height(j)
  }

  /** The number of steps a page whose height never exceeds bound can take: ceil(bound / 500), or 0. */
  function MaxSteps(bound: int): (m: nat)
    ensures bound <= 0 ==> m == 0
    ensures bound > 0 ==> Increment * (m - 1) < bound <= Increment * m
  {
    if bound <= 0 then 0 else (bound + Increment - 1) / Increment
  }

  /**
   * The scroll loop. It terminates when every measured height is at most
   * bound; the bound is needed only for the proof. targets are the scrollTo
   * positions in the order they were requested.
   */
  method SlowScroll(height: nat -> int, ghost bound: int) returns (steps: nat, position: int, lastHeight: int, targets: seq<int>)
    requires forall k :: height(k) <= bound
    ensures StopsAfter(height, steps)
    ensures lastHeight == height(steps)
    ensures position == Increment * steps && position >= lastHeight
    ensures |targets| == steps && forall i :: 0 <= i < steps ==> targets[i] == Increment * (i + 1)
    ensures forall i, j :: 0 <= i < j < steps ==> targets[i] < targets[j]
    ensures height(0) <= 0 ==> steps == 0
    ensures steps <= MaxSteps(bound)
  {
    lastHeight := height(0);
    position := 0;
    steps := 0;
    targets := [];
    while position < lastHeight
      invariant position == Increment * steps
      invariant lastHeight == height(steps)
      invariant |targets| == steps && forall i :: 0 <= i < steps ==> targets[i] == Increment * (i + 1)
      invariant forall j :: 0 <= j < steps ==> Increment * j < height(j)
      decreases bound - position
    {
      position := position + Increment;
      targets := targets + [position];
      steps := steps + 1;
      lastHeight := height(steps);
    }
    BoundedSteps(height, bound, steps);
  }

  /** The stopping step is unique: the loop's outcome is determined by the page. */
  lemma StopsAfterUnique(height: nat -> int, n: nat, m: nat)
    requires StopsAfter(height, n) && StopsAfter(height, m)
    ensures n == m
  {
  }

  /** A page whose height stays at h > 0 takes exactly ceil(h / 500) steps; one of height h <= 0 takes none. */
  lemma {:induction false} ConstantHeightSteps(height: nat -> int, h: int, n: nat)
    requires forall k :: height(k) == h
    requires StopsAfter(height, n)
    ensures n == MaxSteps(h)
  {
    var m := MaxSteps(h);
    assert Increment * n >= h by { assert height(n) == h; }
    if n > 0 {
      assert Increment * (n - 1) < h by { assert Increment * (n - 1) < height(n - 1); }
      assert Increment * 0 < h by { assert Increment * 0 < height(0); }
      assert Increment * (m - 1) < h <= Increment * m;
    }
  }

  /** A page whose height never exceeds bound stops within ceil(bound / 500) steps. */
  lemma {:induction false} BoundedSteps(height: nat -> int, bound: int, n: nat)
    requires forall k :: height(k) <= bound
    requires StopsAfter(height, n)
    ensures n <= MaxSteps(bound)
  {
    if n > 0 {
      assert Increment * (n - 1) < height(n - 1) <= bound;
    }
  }
}
