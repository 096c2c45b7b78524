/**
 * The fixed-capacity smoothing window: a Python deque([0.0] * W, maxlen=W)
 * to which samples are pushed with appendleft, so index 0 holds the newest
 * sample and the last index the oldest.
 */
module Window {

  /** Python's sum() over the window. */
  function Sum(h: seq<real>): real {
    if h == [] then 0.0 else Sum(h[..|h| - 1]) + h[|h| - 1]
  }

  /** The smoothing transform `_moving_average`: sum / len, or 0 on an empty window. */
  function Mean(h: seq<real>): (m: real)
    ensures |h| == 0 ==> m == 0.0
    ensures |h| > 0 ==> m * |h| as real == Sum(h)
  {
    if |h| == 0 then 0.0 else Sum(h) / |h| as real
  }

  /** deque([0.0] * w, maxlen=w) */
  function ZeroWindow(w: nat): seq<real> {
    seq(w, _ => 0.0)
  }

  /** appendleft on a deque whose maxlen is its length: the oldest (rightmost) slot falls off. */
  function PushLeft<T>(h: seq<T>, x: T): seq<T> {
    if |h| == 0 then h else [x] + h[..|h| - 1]
  }

  /** appendleft of each of xs in turn. */
  function PushAll<T>(h: seq<T>, xs: seq<T>): seq<T> {
    if xs == [] then h else PushLeft(PushAll(h, xs[..|xs| - 1]), xs[|xs| - 1])
  }

  lemma PushAllSnoc<T>(h: seq<T>, xs: seq<T>, x: T)
    ensures PushAll(h, xs + [x]) == PushLeft(PushAll(h, xs), x)
  {
    assert (xs + [x])[..|xs|] == xs;
  }

  /** The order in which a deque filled by appendleft yields its elements. */
  function Reverse<T>(s: seq<T>): seq<T> {
    if s == [] then [] else [s[|s| - 1]] + Reverse(s[..|s| - 1])
  }

  /** k copies of x. */
  function Repeat<T>(x: T, k: nat): seq<T> {
    seq(k, _ => x)
  }

  function Min(a: int, b: int): int { if a <= b then a else b }

  /** A push keeps the capacity, puts x first and loses exactly the oldest slot. */
  lemma PushLeftDropsOldest<T>(h: seq<T>, x: T)
    requires |h| > 0
    ensures |PushLeft(h, x)| == |h|
    ensures PushLeft(h, x)[0] == x
    ensures PushLeft(h, x) + [h[|h| - 1]] == [x] + h
  {
  }

  /**
   * After pushing xs, slot k holds the k-th newest pushed value while there
   * is one, and otherwise the value that was |xs| slots to its left.
   */
  lemma {:induction false} PushAllAt<T>(h: seq<T>, xs: seq<T>)
    ensures |PushAll(h, xs)| == |h|
    ensures forall k :: 0 <= k < |h| ==>
      PushAll(h, xs)[k] == if k < |xs| then xs[|xs| - 1 - k] else h[k - |xs|]
  {
    if xs != [] {
      var init := xs[..|xs| - 1];
      PushAllAt(h, init);
    }
  }

  /** The oldest slot of a zero-filled window of w slots after the pushes xs: 0 until w samples have arrived. */
  lemma OldestSlotAfterPushes(w: nat, xs: seq<real>)
    requires w > 0
    ensures |PushAll(ZeroWindow(w), xs)| == w
    ensures PushAll(ZeroWindow(w), xs)[w - 1] == if |xs| >= w then xs[|xs| - w] else 0.0
  {
    var z := ZeroWindow(w);
    PushAllAt(z, xs);
    if |xs| < w {
      assert z[w - 1 - |xs|] == 0.0;
    }
  }

  lemma {:induction false} ReverseAt<T>(s: seq<T>)
    ensures |Reverse(s)| == |s|
    ensures forall k :: 0 <= k < |s| ==> Reverse(s)[k] == s[|s| - 1 - k]
  {
    if s != [] {
      ReverseAt(s[..|s| - 1]);
    }
  }

  lemma {:induction false} SumAppend(a: seq<real>, b: seq<real>)
    ensures Sum(a + b) == Sum(a) + Sum(b)
  {
    if b == [] {
      assert a + b == a;
    } else {
      assert (a + b)[..|a + b| - 1] == a + b[..|b| - 1];
      SumAppend(a, b[..|b| - 1]);
    }
  }

  /** The sum of a window whose first m slots hold v and the rest 0. */
  lemma {:induction false} SumOfFilledPrefix(v: real, m: nat, w: nat)
    requires m <= w
    ensures Sum(seq(w, i => if i < m then v else 0.0)) == m as real * v
  {
    var s := seq(w, i => if i < m then v else 0.0);
    if w > 0 {
      if m == w {
        SumOfFilledPrefix(v, m - 1, w - 1);
        assert s[..w - 1] == seq(w - 1, i => if i < m - 1 then v else 0.0);
      } else {
        SumOfFilledPrefix(v, m, w - 1);
        assert s[..w - 1] == seq(w - 1, i => if i < m then v else 0.0);
      }
    }
  }

  /** A window whose values all lie in [lo, hi] has its sum in [n*lo, n*hi]. */
  lemma {:induction false} SumWithin(h: seq<real>, lo: real, hi: real)
    requires forall i :: 0 <= i < |h| ==> lo <= h[i] <= hi
    ensures |h| as real * lo <= Sum(h) <= |h| as real * hi
  {
    if h != [] {
      SumWithin(h[..|h| - 1], lo, hi);
    }
  }

  /** The smoothed value never leaves the range of the values in the window. */
  lemma MeanWithin(h: seq<real>, lo: real, hi: real)
    requires |h| > 0
    requires forall i :: 0 <= i < |h| ==> lo <= h[i] <= hi
    ensures lo <= Mean(h) <= hi
  {
    SumWithin(h, lo, hi);
    var n := |h| as real;
    assert Mean(h) * n == Sum(h);
  }

  /**
   * k pushes of a constant v into a zero-filled window of capacity w give the
   * mean v * min(k, w) / w: the zeros are still counted until they are pushed out.
   */
  lemma MeanOfConstantPushes(v: real, w: nat, k: nat)
    requires w > 0
    ensures Mean(PushAll(ZeroWindow(w), Repeat(v, k))) == v * Min(k, w) as real / w as real
  {
    var m := Min(k, w);
    var h := PushAll(ZeroWindow(w), Repeat(v, k));
    ConstantPushesFill(v, w, k);
    SumOfFilledPrefix(v, m, w);
    var n := w as real;
    calc {
      Mean(h);
      Sum(h) / n;
      (m as real * v) / n;
      { assert m as real * v == v * m as real; }
      v * m as real / n;
    }
  }

  /** The window after k pushes of v: min(k, w) copies of v, then zeros. */
  lemma ConstantPushesFill(v: real, w: nat, k: nat)
    ensures PushAll(ZeroWindow(w), Repeat(v, k)) == seq(w, i => if i < Min(k, w) then v else 0.0)
  {
    var xs := Repeat(v, k);
    var h := PushAll(ZeroWindow(w), xs);
    PushAllAt(ZeroWindow(w), xs);
    forall i | 0 <= i < w
      ensures h[i] == if i < Min(k, w) then v else 0.0
    {
      if i < k {
        assert xs[k - 1 - i] == v;
      }
    }
  }

  /** Once w equal values have been pushed, the mean is that value. */
  lemma MeanSettles(v: real, w: nat, k: nat)
    requires 0 < w <= k
    ensures Mean(PushAll(ZeroWindow(w), Repeat(v, k))) == v
  {
    var h := PushAll(ZeroWindow(w), Repeat(v, k));
    ConstantPushesFill(v, w, k);
    SumOfFilledPrefix(v, w, w);
    assert Min(k, w) == w;
    assert Mean(h) * w as real == v * w as real;
    CancelPositive(Mean(h), v, w as real);
  }

  lemma CancelPositive(a: real, b: real, n: real)
    requires n > 0.0 && a * n == b * n
    ensures a == b
  {
    assert (a - b) * n == 0.0;
  }
}
