/** The plot controller: it turns the entry text and the three slider
    values into a plot request, suppresses a redraw when the request equals
    the snapshot of the last successful plot, plans the viewport, and on
    success records the new snapshot.

    The expression parser and vectorised evaluator are an input of the
    model (`compile`); what it does with the normalised text is not
    modelled. The rendering backend is left out; a successful plot's
    outcome carries what would be handed to it.
 */
module PlotController {
  import opened Expression
  import opened ViewportPlanner

  /** What compiling and evaluating the normalised text gives: an exception
      (parse error, unknown name, evaluation error), or a function that
      yields one sample per x value. */
  datatype Evaluator = Raises | Numeric(f: real -> Sample)

  /** The values `plot_graph` compares with the snapshot: the normalised
      text, the slider-derived window and the current shift. */
  datatype Request = Request(expression: string, xMin: real, xMax: real, yMin: real, yMax: real, shift: real)

  /** The last successful plot. The bounds and shift are `None` until the
      first plot succeeds. */
  datatype Snapshot = Snapshot(expression: string, xMin: Option<real>, xMax: Option<real>,
                               yMin: Option<real>, yMax: Option<real>, shift: Option<real>)

  /** What is drawn: the viewport, the original curve and the shifted one. */
  datatype Frame = Frame(viewport: Bounds, original: Curve, shifted: Curve)

  datatype Outcome = Skipped | Failed | Rendered(frame: Frame)

  /** The snapshot before anything was plotted. */
  const Initial := Snapshot("", None, None, None, None, None)

  /** The request built from the entry text and the slider values: an x
      window of width 10 starting at the x slider, a y window of height 10
      centred on the y slider. */
  function RequestOf(entry: string, xScale: real, yScale: real, shift: real): (r: Request)
    ensures r.expression == Normalise(entry) && r.shift == shift
    ensures r.xMin == xScale && r.xMax - r.xMin == 10.0
    ensures r.yMax - r.yMin == 10.0 && r.yMin + r.yMax == 2.0 * yScale
  {
    Request(Normalise(entry), xScale, xScale + 10.0, yScale - 5.0, yScale + 5.0, shift)
  }

  /** Tuple equality of the request with the snapshot; a `None` bound
      equals no number. */
  predicate Matches(req: Request, snap: Snapshot)
  {
    && snap.expression == req.expression
    && snap.xMin == Some(req.xMin) && snap.xMax == Some(req.xMax)
    && snap.yMin == Some(req.yMin) && snap.yMax == Some(req.yMax)
    && snap.shift == Some(req.shift)
  }

  /** The snapshot a successful plot records: the normalised text, the
      planned (square) viewport, not the requested window, and the shift. */
  function Recorded(req: Request, v: Bounds): Snapshot
  {
    Snapshot(req.expression, Some(v.xMin), Some(v.xMax), Some(v.yMin), Some(v.yMax), Some(req.shift))
  }

  /** The x samples of a request: `SampleCount` points across its x window. */
  function XSamples(req: Request): (xs: seq<real>)
    ensures |xs| == SampleCount && xs[0] == req.xMin && xs[SampleCount - 1] == req.xMax
  {
    Linspace(req.xMin, req.xMax, SampleCount)
  }

  /** Compiling, sampling, planning and drawing a request: the `try` suite
      of a plot action, any exception giving `Failed`. */
  function Draw(req: Request, compile: string -> Evaluator): Outcome
  {
    match compile(req.expression)
    case Raises => Failed
    case Numeric(f) =>
      var xs := XSamples(req);
      var ys := Evaluate(f, xs);
      match PlanViewport(xs, ys)
      case None => Failed
      case Some(v) =>
        var curve := Curve(xs, Values(ys));
        Rendered(Frame(v, curve, ShiftCurve(curve, req.shift)))
  }

  /** One plot action against the last snapshot. */
  function Plot(req: Request, snap: Snapshot, compile: string -> Evaluator): (o: Outcome)
    ensures o == Skipped <==> Matches(req, snap)
  {
    if Matches(req, snap) then Skipped else Draw(req, compile)
  }

  /** The snapshot after a plot action: replaced on success only. */
  function After(req: Request, snap: Snapshot, outcome: Outcome): Snapshot
  {
    if outcome.Rendered? then Recorded(req, outcome.frame.viewport) else snap
  }

  /** The shape every reachable snapshot has: nothing plotted yet, or a
      square origin-centred viewport of half-width at least 5 together with
      a shift. */
  predicate WellFormed(snap: Snapshot)
  {
    || (snap.xMin == None && snap.xMax == None && snap.yMin == None && snap.yMax == None && snap.shift == None)
    || (&& snap.xMax.Some? && snap.xMax.value >= 5.0
        && snap.xMin == Some(-snap.xMax.value) && snap.yMin == Some(-snap.xMax.value)
        && snap.yMax == snap.xMax && snap.shift.Some?)
  }

  /** The outcome of drawing when compiling succeeds and no sample is NaN:
      the square of the expression's samples, the curve and its shifted
      copy. */
  lemma DrawRendered(req: Request, compile: string -> Evaluator)
    requires compile(req.expression).Numeric?
    requires NaN !in Evaluate(compile(req.expression).f, XSamples(req))
    ensures var xs := XSamples(req);
      var vals := Values(Evaluate(compile(req.expression).f, xs));
      var a, curve := AbsRange(Fit(xs, vals)), Curve(xs, vals);
      Draw(req, compile) == Rendered(Frame(Bounds(-a, a, -a, a), curve, ShiftCurve(curve, req.shift)))
  {
  }

  /** The viewport part of `DrawRendered`. */
  lemma DrawnViewport(req: Request, compile: string -> Evaluator)
    requires compile(req.expression).Numeric?
    requires NaN !in Evaluate(compile(req.expression).f, XSamples(req))
    ensures var xs := XSamples(req);
      var a := AbsRange(Fit(xs, Values(Evaluate(compile(req.expression).f, xs))));
      Draw(req, compile).Rendered? && Draw(req, compile).frame.viewport == Bounds(-a, a, -a, a)
  {
  }

  /** A request whose x window has width 10 that draws successfully records
      a well-formed snapshot. */
  lemma RecordedWellFormed(req: Request, compile: string -> Evaluator)
    requires Draw(req, compile).Rendered? && req.xMax == req.xMin + 10.0
    ensures WellFormed(Recorded(req, Draw(req, compile).frame.viewport))
  {
    var xs := XSamples(req);
    var ys := Evaluate(compile(req.expression).f, xs);
    var v := PlanViewport(xs, ys).value;
    assert Draw(req, compile).frame.viewport == v;
    PlanViewportHalfWidth(xs, ys);
    assert xs[|xs| - 1] - xs[0] == 10.0;
    assert IsSquare(v) && v.xMax >= 5.0;
  }

  /** The first plot is never suppressed. */
  lemma FirstPlotNeverSkipped(req: Request, compile: string -> Evaluator)
    ensures Plot(req, Initial, compile) != Skipped
  {
  }

  /** A plot is suppressed exactly when the request equals the snapshot, and
      then the snapshot is kept. */
  lemma SkipIffMatches(req: Request, snap: Snapshot, compile: string -> Evaluator)
    ensures Plot(req, snap, compile) == Skipped <==> Matches(req, snap)
    ensures Plot(req, snap, compile) == Skipped ==> After(req, snap, Skipped) == snap
  {
  }

  /** A plot fails exactly when it is not suppressed and either compiling or
      evaluating raises or some y sample is not a number; the snapshot is
      then kept. */
  lemma FailIff(req: Request, snap: Snapshot, compile: string -> Evaluator)
    ensures Plot(req, snap, compile) == Failed <==>
      && !Matches(req, snap)
      && (|| compile(req.expression).Raises?
          || NaN in Evaluate(compile(req.expression).f, XSamples(req)))
    ensures After(req, snap, Failed) == snap
  {
  }

  /** What a successful plot draws: the x samples of the request, the y
      values the expression gave at them, and the same y values against the
      x samples moved by the shift. */
  lemma RenderedCurves(req: Request, snap: Snapshot, compile: string -> Evaluator)
    requires Plot(req, snap, compile).Rendered?
    ensures var fr, xs := Plot(req, snap, compile).frame, XSamples(req);
      && compile(req.expression).Numeric?
      && fr.original.xs == xs && |fr.original.ys| == |xs| == SampleCount
      && (forall i :: 0 <= i < |xs| ==> compile(req.expression).f(xs[i]) == Num(fr.original.ys[i]))
      && fr.shifted.ys == fr.original.ys && |fr.shifted.xs| == |xs|
      && (forall i :: 0 <= i < |xs| ==> fr.shifted.xs[i] == xs[i] + req.shift)
  {
    var f := compile(req.expression).f;
    var xs := XSamples(req);
    var ys := Evaluate(f, xs);
    var fr := Plot(req, snap, compile).frame;
    forall i | 0 <= i < |xs| ensures f(xs[i]) == Num(fr.original.ys[i]) {
      assert ys[i] == f(xs[i]);
    }
  }

  /** The viewport of a successful plot is square and centred on the origin,
      contains the requested x window and every plotted point, and its
      half-width is at least half the width of the x window. */
  lemma RenderedViewport(req: Request, snap: Snapshot, compile: string -> Evaluator)
    requires Plot(req, snap, compile).Rendered? && req.xMin <= req.xMax
    ensures var fr := Plot(req, snap, compile).frame;
      var v := fr.viewport;
      && IsSquare(v)
      && v.xMin <= req.xMin && req.xMax <= v.xMax
      && 2.0 * v.xMax >= req.xMax - req.xMin
      && (forall i :: 0 <= i < |fr.original.xs| ==>
            v.xMin <= fr.original.xs[i] <= v.xMax && v.yMin <= fr.original.ys[i] <= v.yMax)
  {
    var f := compile(req.expression).f;
    var xs := XSamples(req);
    var ys := Evaluate(f, xs);
    var fr := Plot(req, snap, compile).frame;
    var v := fr.viewport;
    PlanViewportCovers(xs, ys);
    PlanViewportHalfWidth(xs, ys);
    RenderedCurves(req, snap, compile);
    forall i | 0 <= i < |xs|
      ensures v.xMin <= xs[i] <= v.xMax && v.yMin <= fr.original.ys[i] <= v.yMax
    {
      LinspaceWithin(req.xMin, req.xMax, SampleCount, i);
      assert ys[i] == Num(fr.original.ys[i]);
    }
  }

  /** Every snapshot a plot action leaves behind is well formed, provided
      the request came from the sliders. */
  lemma AfterWellFormed(entry: string, xScale: real, yScale: real, shift: real,
                        snap: Snapshot, compile: string -> Evaluator)
    requires WellFormed(snap)
    ensures var req := RequestOf(entry, xScale, yScale, shift);
      WellFormed(After(req, snap, Plot(req, snap, compile)))
  {
    var req := RequestOf(entry, xScale, yScale, shift);
    if Plot(req, snap, compile).Rendered? {
      RecordedWellFormed(req, compile);
    }
  }

  /** The snapshot holds the planned square, not the slider window, so a
      plot of slider-derived values is suppressed only when the x slider is
      at -5, the y slider at 0 and the last planned half-width was exactly 5
      (and text and shift are unchanged). */
  lemma SkipOnlyAtDefaultSliders(entry: string, xScale: real, yScale: real, shift: real,
                                 snap: Snapshot, compile: string -> Evaluator)
    requires WellFormed(snap)
    requires Plot(RequestOf(entry, xScale, yScale, shift), snap, compile) == Skipped
    ensures xScale == -5.0 && yScale == 0.0 && snap.xMax == Some(5.0)
    ensures snap.expression == Normalise(entry) && snap.shift == Some(shift)
  {
  }

  /** Repeating a successful plot with unchanged inputs is suppressed if and
      only if the planned viewport is the requested window itself. */
  lemma ReplotSkippedIff(req: Request, v: Bounds, compile: string -> Evaluator)
    ensures Plot(req, Recorded(req, v), compile) == Skipped <==>
      v == Bounds(req.xMin, req.xMax, req.yMin, req.yMax)
  {
  }

  /** The x samples of the window [-5, 5] stay inside it. */
  lemma DefaultWindowSamples(req: Request)
    requires req.xMin == -5.0 && req.xMax == 5.0
    ensures forall i :: 0 <= i < |XSamples(req)| ==> -5.0 <= XSamples(req)[i] <= 5.0
  {
    var xs := XSamples(req);
    forall i | 0 <= i < |xs| ensures -5.0 <= xs[i] <= 5.0 {
      LinspaceWithin(-5.0, 5.0, SampleCount, i);
    }
  }

  /** The product of two non-negative reals is non-negative; kept apart so
      that the nonlinear step of `SquareWithin` is a single call. */
  lemma ProductNonNegative(p: real, q: real)
    requires p >= 0.0 && q >= 0.0
    ensures p * q >= 0.0
  {
  }

  /** Over the window [-5, 5] the square of a sample lies in [0, 25]: the
      range of the y samples in `SquareScenario`. */
  lemma SquareWithin(x: real)
    requires -5.0 <= x <= 5.0
    ensures 0.0 <= x * x <= 25.0
  {
    assert 25.0 - x * x == (5.0 - x) * (5.0 + x);
    ProductNonNegative(5.0 - x, 5.0 + x);
    if x < 0.0 {
      assert x * x == (-x) * (-x);
      ProductNonNegative(-x, -x);
    } else {
      ProductNonNegative(x, x);
    }
  }

  /** Plotting `x ^ 2` with the x slider at -5 (the window [-5, 5]): the
      samples span [0, 25], the x window is widened to [-25, 25], and the
      viewport is the square of half-width 25. */
  lemma SquareScenario(compile: string -> Evaluator, yScale: real, shift: real)
    requires compile("x**2").Numeric? && forall x :: compile("x**2").f(x) == Num(x * x)
    ensures var o := Plot(RequestOf("x^2", -5.0, yScale, shift), Initial, compile);
      o.Rendered? && o.frame.viewport == Bounds(-25.0, 25.0, -25.0, 25.0)
  {
    var req := RequestOf("x^2", -5.0, yScale, shift);
    assert req.expression == "x**2";
    var xs := XSamples(req);
    var ys := Evaluate(compile("x**2").f, xs);
    assert ys[0] == Num(25.0);
    DefaultWindowSamples(req);
    forall i | 0 <= i < |ys| ensures ys[i].Num? && 0.0 <= ys[i].v <= 25.0 {
      SquareWithin(xs[i]);
    }
    assert NaN !in ys;
    var vals := Values(ys);
    assert forall i :: 0 <= i < |vals| ==> 0.0 <= vals[i] <= 25.0;
    var b := Fit(xs, vals);
    assert vals[0] == 25.0;
    assert b.yMax == 25.0 && 0.0 <= b.yMin;
    assert YRange(b.yMin, b.yMax) == 25.0;
    assert b.xMin == -25.0 && b.xMax == 25.0;
    assert AbsRange(b) == 25.0;
    DrawnViewport(req, compile);
    assert !Matches(req, Initial);
  }

  /** Plotting `x` at the default sliders plans the square of half-width 5,
      which is exactly the requested window; so pressing plot again with no
      change is suppressed. */
  lemma IdentityReplotSkipped(compile: string -> Evaluator, shift: real)
    requires compile("x").Numeric? && forall x :: compile("x").f(x) == Num(x)
    ensures var req := RequestOf("x", -5.0, 0.0, shift);
      var o := Plot(req, Initial, compile);
      && o.Rendered? && o.frame.viewport == Bounds(-5.0, 5.0, -5.0, 5.0)
      && Plot(req, After(req, Initial, o), compile) == Skipped
  {
    var req := RequestOf("x", -5.0, 0.0, shift);
    assert req.expression == "x";
    var xs := XSamples(req);
    var ys := Evaluate(compile("x").f, xs);
    DefaultWindowSamples(req);
    assert forall i :: 0 <= i < |ys| ==> ys[i] == Num(xs[i]);
    assert NaN !in ys;
    var vals := Values(ys);
    assert forall i :: 0 <= i < |vals| ==> -5.0 <= vals[i] <= 5.0;
    var b := Fit(xs, vals);
    assert vals[0] == -5.0 && vals[|vals| - 1] == 5.0;
    assert b.yMin == -5.0 && b.yMax == 5.0;
    assert YRange(b.yMin, b.yMax) == 5.0;
    assert b.xMin == -5.0 && b.xMax == 5.0;
    assert AbsRange(b) == 5.0;
    DrawnViewport(req, compile);
    assert !Matches(req, Initial);
    var o := Plot(req, Initial, compile);
    assert o == Draw(req, compile);
    ReplotSkippedIff(req, o.frame.viewport, compile);
  }

  /** An expression that is undefined at the left end of the window (such as
      `log(2*x)` from the x slider below 0) fails to plot: the NaN
      branch leaves the y magnitude unset. */
  lemma NaNAtWindowStartFails(entry: string, xScale: real, yScale: real, shift: real,
                              snap: Snapshot, compile: string -> Evaluator)
    requires compile(Normalise(entry)).Numeric? && compile(Normalise(entry)).f(xScale) == NaN
    requires !Matches(RequestOf(entry, xScale, yScale, shift), snap)
    ensures Plot(RequestOf(entry, xScale, yScale, shift), snap, compile) == Failed
  {
    var req := RequestOf(entry, xScale, yScale, shift);
    assert Evaluate(compile(req.expression).f, XSamples(req))[0] == NaN;
  }

  /** The controller's state. The display bounds set up at construction are
      never updated by plotting (the plot works on local copies); the
      snapshot fields change only when a plot succeeds. */
  class FunctionPlotter {
    var xMin: real
    var xMax: real
    var yMin: real
    var yMax: real
    var shift: real
    var lastFunction: string
    var lastXMin: Option<real>
    var lastXMax: Option<real>
    var lastYMin: Option<real>
    var lastYMax: Option<real>
    var lastShift: Option<real>

    /** The snapshot fields as one value. */
    function LastPlot(): Snapshot
      reads this
    {
      Snapshot(lastFunction, lastXMin, lastXMax, lastYMin, lastYMax, lastShift)
    }

    ghost predicate Valid()
      reads this
    {
      WellFormed(LastPlot())
    }

    constructor ()
      ensures Valid()
      ensures xMin == -10.0 && xMax == 10.0 && yMin == -10.0 && yMax == 10.0
      ensures shift == 0.0 && LastPlot() == Initial
    {
      xMin, xMax := -10.0, 10.0;
      yMin, yMax := -10.0, 10.0;
      shift := 0.0;
      lastFunction := "";
      lastXMin, lastXMax := None, None;
      lastYMin, lastYMax := None, None;
      lastShift := None;
    }

    /** The plot action, reading the entry text and the x and y sliders. */
    method PlotGraph(entry: string, xScale: real, yScale: real, compile: string -> Evaluator)
      returns (outcome: Outcome)
      requires Valid()
      modifies this`lastFunction, this`lastXMin, this`lastXMax, this`lastYMin, this`lastYMax, this`lastShift
      ensures Valid()
      ensures outcome == Plot(RequestOf(entry, xScale, yScale, shift), old(LastPlot()), compile)
      ensures LastPlot() == After(RequestOf(entry, xScale, yScale, shift), old(LastPlot()), outcome)
    {
      var text := Normalise(entry);
      var reqXMin := xScale;
      var reqXMax := xScale + 10.0;
      var reqYMin := yScale - 5.0;
      var reqYMax := yScale + 5.0;

      if text == lastFunction && Some(reqXMin) == lastXMin && Some(reqXMax) == lastXMax
         && Some(reqYMin) == lastYMin && Some(reqYMax) == lastYMax && Some(shift) == lastShift {
        return Skipped;
      }
      outcome := Redraw(text, reqXMin, reqXMax, reqYMin, reqYMax, compile);
    }

    /** The `try` suite of the plot action together with its `except`
        clause: on success the snapshot becomes the planned viewport with
        the text and shift, on any exception it is left alone. */
    method Redraw(text: string, reqXMin: real, reqXMax: real, reqYMin: real, reqYMax: real,
                  compile: string -> Evaluator)
      returns (outcome: Outcome)
      requires Valid() && reqXMax == reqXMin + 10.0
      modifies this`lastFunction, this`lastXMin, this`lastXMax, this`lastYMin, this`lastYMax, this`lastShift
      ensures Valid()
      ensures outcome == Draw(Request(text, reqXMin, reqXMax, reqYMin, reqYMax, shift), compile)
      ensures LastPlot() ==
        if outcome.Rendered? then Recorded(Request(text, reqXMin, reqXMax, reqYMin, reqYMax, shift), outcome.frame.viewport)
        else old(LastPlot())
    {
      ghost var req := Request(text, reqXMin, reqXMax, reqYMin, reqYMax, shift);
      match compile(text)
      case Raises =>
        return Failed;
      case Numeric(f) =>
        var xVals := Linspace(reqXMin, reqXMax, SampleCount);
        var yVals := Evaluate(f, xVals);
        assert xVals == XSamples(req);
        var planned := PlanBounds(xVals, yVals);
        if planned == None {
          return Failed;
        }
        var curve := Curve(xVals, Values(yVals));
        outcome := Rendered(Frame(planned.value, curve, ShiftCurve(curve, shift)));
        DrawRendered(req, compile);
        RecordedWellFormed(req, compile);

        lastFunction := text;
        lastXMin, lastXMax := Some(planned.value.xMin), Some(planned.value.xMax);
        lastYMin, lastYMax := Some(planned.value.yMin), Some(planned.value.yMax);
        lastShift := Some(shift);
    }

    /** The shift action: the shift slider's value becomes the current shift,
        whatever the plot that follows does. */
    method ShiftGraph(shiftScale: real, entry: string, xScale: real, yScale: real,
                      compile: string -> Evaluator)
      returns (outcome: Outcome)
      requires Valid()
      modifies this`shift, this`lastFunction, this`lastXMin, this`lastXMax, this`lastYMin,
               this`lastYMax, this`lastShift
      ensures Valid() && shift == shiftScale
      ensures outcome == Plot(RequestOf(entry, xScale, yScale, shiftScale), old(LastPlot()), compile)
      ensures LastPlot() == After(RequestOf(entry, xScale, yScale, shiftScale), old(LastPlot()), outcome)
    {
      shift := shiftScale;
      outcome := PlotGraph(entry, xScale, yScale, compile);
    }
  }
}
