/**
 * Python 2 arithmetic on a window that mixes ints and floats, as in the
 * legacy Pingdom stream (monitor/streams/stream.py) and the batch monitor
 * (monitor/monitor.py): the window starts as 0.0 floats but samples are
 * pushed as ints, and Python 2 divides two ints by flooring.
 */
module Py2Arith {
  import opened Window

  datatype Num = PyInt(i: int) | PyFloat(x: real)

  function AsReal(n: Num): real {
    match n
    case PyInt(i) => i as real
    case PyFloat(x) => x
  }

  /** a + b: int when both are ints, float otherwise. */
  function Add(a: Num, b: Num): Num {
    if a.PyInt? && b.PyInt? then PyInt(a.i + b.i) else PyFloat(AsReal(a) + AsReal(b))
  }

  /** sum(h), which starts from the int 0. */
  function Py2Sum(h: seq<Num>): Num {
    if h == [] then PyInt(0) else Add(Py2Sum(h[..|h| - 1]), h[|h| - 1])
  }

  /** a / n for a positive int n: floor division when a is an int. */
  function Py2Div(a: Num, n: int): Num
    requires n > 0
  {
    match a
    case PyInt(i) => PyInt(i / n)
    case PyFloat(x) => PyFloat(x / n as real)
  }

  /** `sum(history)/len(history) if len(history) > 0 else 0`, as written. */
  function Py2Mean(h: seq<Num>): Num {
    if |h| > 0 then Py2Div(Py2Sum(h), |h|) else PyInt(0)
  }

  function Reals(h: seq<Num>): seq<real> {
    seq(|h|, i requires 0 <= i < |h| => AsReal(h[i]))
  }

  predicate HasFloat(h: seq<Num>) {
    exists i :: 0 <= i < |h| && h[i].PyFloat?
  }

  /** sum() is exact, and its result is a float exactly when some element is. */
  lemma {:induction false} Py2SumAgrees(h: seq<Num>)
    ensures AsReal(Py2Sum(h)) == Sum(Reals(h))
    ensures Py2Sum(h).PyFloat? <==> HasFloat(h)
  {
    if h != [] {
      var init := h[..|h| - 1];
      Py2SumAgrees(init);
      assert Reals(h)[..|h| - 1] == Reals(init);
      if HasFloat(init) {
        var i :| 0 <= i < |init| && init[i].PyFloat?;
        assert h[i].PyFloat?;
      }
      if HasFloat(h) && !h[|h| - 1].PyFloat? {
        var i :| 0 <= i < |h| && h[i].PyFloat?;
        assert init[i].PyFloat?;
      }
    }
  }

  /** While a float is left in the window the mean is the exact one. */
  lemma Py2MeanExactWithFloat(h: seq<Num>)
    requires HasFloat(h)
    ensures AsReal(Py2Mean(h)) == Mean(Reals(h))
  {
    Py2SumAgrees(h);
  }

  /** Once the window holds only ints, the mean is floored. */
  lemma Py2MeanFloorsInts(h: seq<Num>)
    requires |h| > 0 && !HasFloat(h)
    ensures Py2Mean(h).PyInt?
    ensures Py2Mean(h).i == Mean(Reals(h)).Floor
  {
    Py2SumAgrees(h);
    var s := Py2Sum(h).i;
    var n := |h|;
    assert Mean(Reals(h)) * n as real == s as real;
    FloorOfQuotient(s, n, Mean(Reals(h)));
  }

  /** Dafny's int division by a positive n is the floor of the exact quotient m. */
  lemma FloorOfQuotient(s: int, n: int, m: real)
    requires n > 0 && m * n as real == s as real
    ensures m.Floor == s / n
  {
    var q, r := s / n, s % n;
    var nr := n as real;
    assert (q * n) as real == q as real * nr;
    var d := m - q as real;
    assert d * nr == m * nr - q as real * nr;
    UnitInterval(d, nr, r as real);
  }

  /** A factor d with d * n = p for 0 <= p < n lies in [0, 1). */
  lemma UnitInterval(d: real, n: real, p: real)
    requires n > 0.0 && d * n == p && 0.0 <= p < n
    ensures 0.0 <= d < 1.0
  {
  }

  /**
   * The 30-slot window of stream.py after thirty pushes of 1 and one of 2:
   * the exact mean is 31/30, but the code yields the int 1.
   */
  lemma LegacyMeanTruncates()
    ensures var h := PushAll(Repeat(PyFloat(0.0), 30), Repeat(PyInt(1), 30) + [PyInt(2)]);
            Py2Mean(h) == PyInt(1) && Mean(Reals(h)) == 31.0 / 30.0
  {
    var xs := Repeat(PyInt(1), 30) + [PyInt(2)];
    var h := PushAll(Repeat(PyFloat(0.0), 30), xs);
    PushAllAt(Repeat(PyFloat(0.0), 30), xs);
    assert !HasFloat(h) by {
      forall i | 0 <= i < 30 ensures h[i].PyInt? {
        assert h[i] == xs[30 - i];
      }
    }
    var r := Reals(h);
    assert r == [2.0] + seq(29, i => if i < 29 then 1.0 else 0.0) by {
      forall i | 0 <= i < 30 ensures r[i] == ([2.0] + seq(29, i => if i < 29 then 1.0 else 0.0))[i] {
        assert h[i] == xs[30 - i];
      }
    }
    SumOfFilledPrefix(1.0, 29, 29);
    SumAppend([2.0], seq(29, i => if i < 29 then 1.0 else 0.0));
    assert Sum([2.0]) == 2.0 by { assert [2.0][..0] == []; }
    Py2SumAgrees(h);
    assert Py2Sum(h) == PyInt(31);
  }
}
