/**
 * The rolling stability window: the newest `cap` calibrated readings, oldest
 * first, and the predicate that says whether they have settled.
 */
module StabilityWindow {

  /** The largest reading of a non-empty window (the source folds `f64::max`). */
  function Max(w: seq<real>): (m: real)
    requires w != []
    ensures m in w
    ensures forall x :: x in w ==> x <= m
  {
    if |w| == 1 then w[0]
    else
      var rest := Max(w[1..]);
      assert forall x :: x in w ==> x == w[0] || x in w[1..];
      if w[0] > rest then w[0] else rest
  }

  /** The smallest reading of a non-empty window (the source folds `f64::min`). */
  function Min(w: seq<real>): (m: real)
    requires w != []
    ensures m in w
    ensures forall x :: x in w ==> m <= x
  {
    if |w| == 1 then w[0]
    else
      var rest := Min(w[1..]);
      assert forall x :: x in w ==> x == w[0] || x in w[1..];
      if w[0] < rest then w[0] else rest
  }

  /**
   * The window is stable when it holds exactly `cap` readings and their spread
   * is strictly below `maxNoise`. An empty window has spread minus infinity in
   * the source (its folds start from the infinities), so it counts as spread
   * below any noise threshold; it can only be full when `cap` is zero.
   */
  predicate StableWindow(w: seq<real>, cap: nat, maxNoise: real)
    ensures StableWindow(w, cap, maxNoise) ==> |w| == cap
  {
    |w| == cap && (w == [] || Max(w) - Min(w) < maxNoise)
  }

  /** The newest `n` elements of `s` (all of `s` when it is shorter), in order. */
  function Newest(s: seq<real>, n: nat): (r: seq<real>)
    ensures |r| == if |s| < n then |s| else n
    ensures r == s[|s| - |r|..]
  {
    if |s| < n then s else s[|s| - n..]
  }

  /**
   * The source's `update_buffer` on a value: below capacity it appends; at
   * capacity it drops index 0 and then appends.
   */
  function Push(w: seq<real>, cap: nat, x: real): (r: seq<real>)
    requires 0 < cap && |w| <= cap
    ensures r == Newest(w + [x], cap)
    ensures |r| <= cap && r[|r| - 1] == x
    ensures |w| < cap ==> |r| == |w| + 1
    ensures |w| == cap ==> |r| == cap
  {
    if |w| < cap then w + [x] else w[1..] + [x]
  }

  /**
   * Sliding is compositional: if the window holds the newest `n` readings of a
   * history, then after a push it holds the newest `n` of the extended history.
   * This is the FIFO property: the survivors keep their order and the oldest go first.
   */
  lemma {:induction false} NewestAppend(h: seq<real>, t: seq<real>, n: nat)
    ensures Newest(Newest(h, n) + t, n) == Newest(h + t, n)
  {
    var kept := Newest(h, n);
    var d := |h| - |kept|;
    assert kept + t == (h + t)[d..] by {
      assert kept == h[d..];
    }
    NewestOfSuffix(h + t, d, n);
  }

  /** Dropping a prefix does not change the newest `n` when at least `n` elements remain. */
  lemma NewestOfSuffix(s: seq<real>, d: nat, n: nat)
    requires d <= |s| && (d == 0 || n <= |s| - d)
    ensures Newest(s[d..], n) == Newest(s, n)
  {
    if d == 0 {
      assert s[d..] == s;
    } else {
      assert s[d..][|s| - d - n..] == s[|s| - n..];
    }
  }

  /** Pushing every reading of `xs`, one after another, starting from window `w`. */
  function PushAll(w: seq<real>, cap: nat, xs: seq<real>): (r: seq<real>)
    requires 0 < cap && |w| <= cap
    ensures |r| <= cap
    decreases |xs|
  {
    if xs == [] then w else PushAll(Push(w, cap, xs[0]), cap, xs[1..])
  }

  /**
   * Whatever was pushed, the window is the newest `cap` readings of everything
   * pushed since it was empty: never longer than `cap`, evicting oldest first.
   */
  lemma {:induction false} PushAllIsNewest(w: seq<real>, cap: nat, xs: seq<real>)
    requires 0 < cap && |w| <= cap
    ensures PushAll(w, cap, xs) == Newest(w + xs, cap)
    decreases |xs|
  {
    if xs == [] {
      assert w + xs == w;
    } else {
      var x, rest := xs[0], xs[1..];
      var w' := Push(w, cap, x);
      assert PushAll(w, cap, xs) == PushAll(w', cap, rest);
      PushAllIsNewest(w', cap, rest);
      assert w' == Newest(w + [x], cap);
      NewestAppend(w + [x], rest, cap);
      SplitFirst(w, xs);
    }
  }

  lemma SplitFirst(w: seq<real>, xs: seq<real>)
    requires xs != []
    ensures w + [xs[0]] + xs[1..] == w + xs
  {
    assert xs == [xs[0]] + xs[1..];
  }

  /**
   * Reference definition of stability: the window is full and every two of its
   * readings differ by strictly less than `maxNoise`.
   */
  lemma StableIffPairwise(w: seq<real>, cap: nat, maxNoise: real)
    ensures StableWindow(w, cap, maxNoise) <==>
            |w| == cap && forall i, j :: 0 <= i < |w| && 0 <= j < |w| ==> w[i] - w[j] < maxNoise
  {
    if |w| == cap && w != [] {
      if forall i, j :: 0 <= i < |w| && 0 <= j < |w| ==> w[i] - w[j] < maxNoise {
        var i :| 0 <= i < |w| && w[i] == Max(w);
        var j :| 0 <= j < |w| && w[j] == Min(w);
        assert w[i] - w[j] < maxNoise;
      }
      if StableWindow(w, cap, maxNoise) {
        forall i, j | 0 <= i < |w| && 0 <= j < |w| ensures w[i] - w[j] < maxNoise {
          assert w[i] in w && w[j] in w;
        }
      }
    }
  }

  /** A stable non-empty window implies a positive noise threshold, since its spread is never negative. */
  lemma StableNoisePositive(w: seq<real>, cap: nat, maxNoise: real)
    requires StableWindow(w, cap, maxNoise) && w != []
    ensures 0.0 < maxNoise
  {
    assert Min(w) <= w[0] <= Max(w);
  }

  /**
   * Example: with capacity 3, pushing 10.0, 10.2, 10.9
   * fills the window in order, and pushing 12.0 next evicts 10.0.
   */
  lemma ExamplePushes()
    ensures Push(Push(Push([], 3, 10.0), 3, 10.2), 3, 10.9) == [10.0, 10.2, 10.9]
    ensures Push([10.0, 10.2, 10.9], 3, 12.0) == [10.2, 10.9, 12.0]
  {
    var w1 := Push([], 3, 10.0);
    assert w1 == [] + [10.0] == [10.0];
    var w2 := Push(w1, 3, 10.2);
    assert w2 == [10.0] + [10.2] == [10.0, 10.2];
    var w3 := Push(w2, 3, 10.9);
    assert w3 == [10.0, 10.2] + [10.9] == [10.0, 10.2, 10.9];
    var w4 := Push(w3, 3, 12.0);
    assert w4 == w3[1..] + [12.0];
    assert w3[1..] == [10.2, 10.9];
  }

  /**
   * Example: with capacity 3 and noise 1.0 the window
   * [10.0, 10.2, 10.9] (spread 0.9) is stable and [10.2, 10.9, 12.0]
   * (spread 1.8) is not.
   */
  lemma ExampleStability()
    ensures StableWindow([10.0, 10.2, 10.9], 3, 1.0)
    ensures !StableWindow([10.2, 10.9, 12.0], 3, 1.0)
  {
    ExampleSpread(10.0, 10.2, 10.9);
    ExampleSpread(10.2, 10.9, 12.0);
  }

  /** The spread of three ascending readings is the last minus the first. */
  lemma ExampleSpread(a: real, b: real, c: real)
    requires a <= b <= c
    ensures Max([a, b, c]) == c && Min([a, b, c]) == a
  {
    var w := [a, b, c];
    assert w[1..] == [b, c] && w[1..][1..] == [c];
  }
}
