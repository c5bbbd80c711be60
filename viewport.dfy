/** The numeric side of a plot: the evenly spaced x samples, the y samples
    the compiled expression produces for them, the square viewport planned
    from those samples, and the horizontal shift of the curve.

    Numbers are reals; the floating-point "not a number" value that the
    compiled expression yields where it is undefined is the explicit
    constructor `NaN`.
 */
module ViewportPlanner {

  datatype Option<T> = None | Some(value: T)

  /** One y sample: a number, or not-a-number. */
  datatype Sample = Num(v: real) | NaN

  /** An axis-aligned display window. */
  datatype Bounds = Bounds(xMin: real, xMax: real, yMin: real, yMax: real)

  /** A plotted curve: x coordinates and the y value drawn at each. */
  datatype Curve = Curve(xs: seq<real>, ys: seq<real>)

  /** The number of x samples each plot evaluates the expression at. */
  const SampleCount: nat := 1000

  function Abs(x: real): real
  {
    if x < 0.0 then -x else x
  }

  function Min(a: real, b: real): (m: real)
    ensures m <= a && m <= b && (m == a || m == b)
  {
    if a <= b then a else b
  }

  function Max(a: real, b: real): (m: real)
    ensures m >= a && m >= b && (m == a || m == b)
  {
    if a >= b then a else b
  }

  /** Distance between neighbouring samples of `Linspace(a, b, n)`. */
  function Step(a: real, b: real, n: nat): real
    requires n >= 2
  {
    (b - a) / (n - 1) as real
  }

  /** `n` evenly spaced values from `a` to `b`, both included, computed as
      the numeric library does: `a + i * step`, with the last value pinned
      to `b`. */
  function Linspace(a: real, b: real, n: nat): (r: seq<real>)
    requires n >= 2
    ensures |r| == n && r[0] == a && r[n - 1] == b
  {
    seq(n, i requires 0 <= i < n => if i == n - 1 then b else a + (i as real) * Step(a, b, n))
  }

  lemma StepFacts(a: real, b: real, n: nat)
    requires n >= 2
    ensures (n - 1) as real * Step(a, b, n) == b - a
    ensures a <= b ==> Step(a, b, n) >= 0.0
    ensures a < b ==> Step(a, b, n) > 0.0
  {
  }

  /** Every sample, the last one included, is `a + i * step`. */
  lemma LinspaceAt(a: real, b: real, n: nat, i: nat)
    requires n >= 2 && i < n
    ensures Linspace(a, b, n)[i] == a + (i as real) * Step(a, b, n)
  {
    if i == n - 1 {
      StepFacts(a, b, n);
    }
  }

  /** The samples are evenly spaced. */
  lemma LinspaceEven(a: real, b: real, n: nat, i: nat)
    requires n >= 2 && i < n - 1
    ensures Linspace(a, b, n)[i + 1] - Linspace(a, b, n)[i] == Step(a, b, n)
  {
    var step := Step(a, b, n);
    LinspaceAt(a, b, n, i);
    LinspaceAt(a, b, n, i + 1);
    assert (i + 1) as real * step == (i as real) * step + step;
  }

  /** Over an increasing interval the samples do not decrease, and over a
      non-empty one they strictly increase. */
  lemma {:induction false} LinspaceMonotone(a: real, b: real, n: nat, i: nat, j: nat)
    requires n >= 2 && a <= b && i <= j < n
    ensures Linspace(a, b, n)[i] <= Linspace(a, b, n)[j]
    ensures a < b && i < j ==> Linspace(a, b, n)[i] < Linspace(a, b, n)[j]
    decreases j - i
  {
    if i < j {
      LinspaceMonotone(a, b, n, i, j - 1);
      LinspaceEven(a, b, n, j - 1);
      StepFacts(a, b, n);
    }
  }

  /** Over an increasing interval every sample, the last one included, lies
      in `[a, b]`. */
  lemma LinspaceWithin(a: real, b: real, n: nat, i: nat)
    requires n >= 2 && a <= b && i < n
    ensures a <= Linspace(a, b, n)[i] <= b
  {
    LinspaceMonotone(a, b, n, 0, i);
    LinspaceMonotone(a, b, n, i, n - 1);
  }

  /** The y samples of the expression at the x samples, element-wise. */
  function Evaluate(f: real -> Sample, xs: seq<real>): (ys: seq<Sample>)
    ensures |ys| == |xs|
    ensures forall i :: 0 <= i < |xs| ==> ys[i] == f(xs[i])
  {
    seq(|xs|, i requires 0 <= i < |xs| => f(xs[i]))
  }

  /** The numbers of a sample sequence without not-a-number entries. */
  function Values(ys: seq<Sample>): (r: seq<real>)
    requires NaN !in ys
    ensures |r| == |ys| && forall i :: 0 <= i < |ys| ==> ys[i] == Num(r[i])
  {
    assert forall i :: 0 <= i < |ys| ==> ys[i].Num? by {
      forall i | 0 <= i < |ys| ensures ys[i].Num? {
        assert ys[i] in ys;
      }
    }
    seq(|ys|, i requires 0 <= i < |ys| => ys[i].v)
  }

  /** Smallest element of a non-empty sequence. */
  function SeqMin(s: seq<real>): (m: real)
    requires |s| > 0
    ensures m in s
    ensures forall i :: 0 <= i < |s| ==> m <= s[i]
  {
    if |s| == 1 then s[0]
    else
      var rest := SeqMin(s[1..]);
      assert rest in s;
      Min(s[0], rest)
  }

  /** Largest element of a non-empty sequence. */
  function SeqMax(s: seq<real>): (m: real)
    requires |s| > 0
    ensures m in s
    ensures forall i :: 0 <= i < |s| ==> s[i] <= m
  {
    if |s| == 1 then s[0]
    else
      var rest := SeqMax(s[1..]);
      assert rest in s;
      Max(s[0], rest)
  }

  /** The y magnitude used to widen the x window: the larger of the
      absolute values of the y extremes. */
  function YRange(yMin: real, yMax: real): (r: real)
    ensures r >= 0.0 && r >= Abs(yMin) && r >= Abs(yMax)
    ensures r == Abs(yMin) || r == Abs(yMax)
  {
    Max(Abs(yMax), Abs(yMin))
  }

  /** The bounds before they are made square: y spans the samples exactly,
      and x is the requested window widened on each side to at least the y
      magnitude. */
  function Fit(xs: seq<real>, ys: seq<real>): (b: Bounds)
    requires |xs| > 0 && |ys| > 0
    ensures b.yMin in ys && b.yMax in ys
    ensures forall i :: 0 <= i < |ys| ==> b.yMin <= ys[i] <= b.yMax
    ensures b.xMin <= xs[0] && b.xMin <= -YRange(b.yMin, b.yMax)
    ensures b.xMin == xs[0] || b.xMin == -YRange(b.yMin, b.yMax)
    ensures b.xMax >= xs[|xs| - 1] && b.xMax >= YRange(b.yMin, b.yMax)
    ensures b.xMax == xs[|xs| - 1] || b.xMax == YRange(b.yMin, b.yMax)
  {
    var yMin, yMax := SeqMin(ys), SeqMax(ys);
    var yRange := YRange(yMin, yMax);
    Bounds(Min(xs[0], -yRange), Max(xs[|xs| - 1], yRange), yMin, yMax)
  }

  /** The largest absolute value among the four bounds. */
  function AbsRange(b: Bounds): (a: real)
    ensures a >= Abs(b.xMin) && a >= Abs(b.xMax) && a >= Abs(b.yMin) && a >= Abs(b.yMax)
    ensures a == Abs(b.xMin) || a == Abs(b.xMax) || a == Abs(b.yMin) || a == Abs(b.yMax)
  {
    Max(Max(Max(Abs(b.xMin), Abs(b.xMax)), Abs(b.yMin)), Abs(b.yMax))
  }

  /** A square viewport centred on the origin. */
  predicate IsSquare(b: Bounds)
  {
    b.xMin == -b.xMax && b.yMin == -b.yMax && b.xMax == b.yMax && b.xMax >= 0.0
  }

  /** The viewport planned from the samples. `None` is the plot failing:
      with a not-a-number sample the y magnitude is never computed and the
      widening step that needs it raises; an empty sample sequence has no
      minimum or first element. Otherwise the window is the square
      `[-a, a] x [-a, a]` with `a` the largest absolute fitted bound. */
  function PlanViewport(xs: seq<real>, ys: seq<Sample>): (r: Option<Bounds>)
    ensures r.Some? <==> |xs| > 0 && |ys| > 0 && NaN !in ys
    ensures r.Some? ==> IsSquare(r.value)
  {
    if NaN in ys || |ys| == 0 || |xs| == 0 then None
    else
      var a := AbsRange(Fit(xs, Values(ys)));
      Some(Bounds(-a, a, -a, a))
  }

  /** The viewport planning as the plot action performs it, reassigning the
      four bounds step by step. A NaN sample leaves `yRange` unset, and the
      widening step that reads it then raises. */
  method PlanBounds(xVals: seq<real>, yVals: seq<Sample>) returns (viewport: Option<Bounds>)
    requires |xVals| > 0 && |yVals| > 0
    ensures viewport == PlanViewport(xVals, yVals)
  {
    var xMin: real, xMax: real, yMin: real, yMax: real;
    var yRange: Option<real> := None;
    if NaN !in yVals {
      var values := Values(yVals);
      yMin := SeqMin(values);
      yMax := SeqMax(values);
      yRange := Some(YRange(yMin, yMax));
    } else {
      yMin, yMax := -10.0, 10.0;
    }
    if yRange == None {
      // Reading the unset `yRange` raises.
      return None;
    }
    xMin := Min(xVals[0], -yRange.value);
    xMax := Max(xVals[|xVals| - 1], yRange.value);
    assert Bounds(xMin, xMax, yMin, yMax) == Fit(xVals, Values(yVals));

    var absRange := AbsRange(Bounds(xMin, xMax, yMin, yMax));
    xMin, xMax := -absRange, absRange;
    yMin, yMax := -absRange, absRange;
    viewport := Some(Bounds(xMin, xMax, yMin, yMax));
  }

  /** The planned viewport contains every fitted bound, hence the first and
      last x sample and every y sample, and it is as small as that allows:
      its half-width is one of the fitted bounds' absolute values. */
  lemma PlanViewportCovers(xs: seq<real>, ys: seq<Sample>)
    requires PlanViewport(xs, ys).Some?
    ensures var v, b := PlanViewport(xs, ys).value, Fit(xs, Values(ys));
      && v.xMin <= b.xMin && b.xMax <= v.xMax && v.yMin <= b.yMin && b.yMax <= v.yMax
      && v.xMin <= xs[0] && xs[|xs| - 1] <= v.xMax
      && (forall i :: 0 <= i < |ys| ==> v.yMin <= ys[i].v <= v.yMax)
      && v.xMax == AbsRange(b)
  {
    var v, b := PlanViewport(xs, ys).value, Fit(xs, Values(ys));
    var vals := Values(ys);
    forall i | 0 <= i < |ys| ensures v.yMin <= ys[i].v <= v.yMax {
      assert ys[i].v == vals[i];
    }
  }

  /** However flat the curve, the viewport is at least half as wide as the x
      samples span, so it never degenerates over a non-empty window. */
  lemma PlanViewportHalfWidth(xs: seq<real>, ys: seq<Sample>)
    requires PlanViewport(xs, ys).Some?
    ensures 2.0 * PlanViewport(xs, ys).value.xMax >= xs[|xs| - 1] - xs[0]
  {
    PlanViewportCovers(xs, ys);
  }

  /** Every x coordinate moved right by `s`. */
  function Shifted(xs: seq<real>, s: real): seq<real>
  {
    seq(|xs|, i requires 0 <= i < |xs| => xs[i] + s)
  }

  /** The same y samples drawn against translated x coordinates: the
      expression is not evaluated again at the shifted positions. */
  function ShiftCurve(c: Curve, s: real): (r: Curve)
    ensures r.ys == c.ys && |r.xs| == |c.xs|
    ensures forall i :: 0 <= i < |c.xs| ==> r.xs[i] == c.xs[i] + s
  {
    Curve(Shifted(c.xs, s), c.ys)
  }

  /** Shifting back by the same amount restores the curve. */
  lemma ShiftInverse(c: Curve, s: real)
    ensures ShiftCurve(ShiftCurve(c, s), -s) == c
  {
    assert ShiftCurve(ShiftCurve(c, s), -s).xs == c.xs;
  }

  /** Two shifts compose into one by the sum of the amounts. */
  lemma ShiftCompose(c: Curve, s: real, t: real)
    ensures ShiftCurve(ShiftCurve(c, s), t) == ShiftCurve(c, s + t)
  {
    assert ShiftCurve(ShiftCurve(c, s), t).xs == ShiftCurve(c, s + t).xs;
  }
}
