# Function plotter: plot controller model

A model of the plot controller of a small function-plotting application
(`FunctionPlotter` in `main.py`). The user types an expression in `x`, picks
an x window and a y window with two sliders and a shift with a third; the
*plot* action draws the expression together with a horizontally shifted copy,
and the *shift* action first takes the shift slider's value and then plots.

The model has three modules, one per part of the plot action:

- `Expression` (`expression.dfy`): the normalisation applied to the entry
  text, every `^` becoming `**`.
- `ViewportPlanner` (`viewport.dfy`): the 1000 evenly spaced x samples, the y
  samples at them (a number or `NaN`), the bounds fitted to the samples, the
  square origin-centred viewport derived from them, and the shifted curve.
- `PlotController` (`controller.dfy`): the request built from the entry and
  the sliders, the comparison with the snapshot of the last successful plot,
  the specification functions `Draw` (the part under the exception
  handler) and `Plot` (one plot action), and the class `FunctionPlotter`
  whose fields are the source's state (`shift` and the `last_*` snapshot
  fields) and whose methods `PlotGraph`, `Redraw` and `ShiftGraph` are
  proved against those functions and keep the snapshot well formed.

Behaviour of the code that the model keeps as written:

- The snapshot stores the planned square viewport, not the slider window.
  A plot is therefore suppressed only when the x slider is at -5, the y
  slider at 0 and the last planned half-width was exactly 5
  (`SkipOnlyAtDefaultSliders`, `IdentityReplotSkipped`).
- When any y sample is not a number, the code sets the y bounds to
  `[-10, 10]` but never assigns the y magnitude. The x samples' NaN test at
  main.py:135 passes, and the widening of the x window at main.py:136 then
  reads the unassigned magnitude and raises, so the plot fails with the
  snapshot unchanged (`FailIff`, `NaNAtWindowStartFails`). It does not fall
  back to a `[-10, 10]` display.
- The viewport never degenerates: the x window always has width 10, so the
  square has half-width at least 5 (`RenderedViewport`, `WellFormed`).

## Model

| member | source | states |
|---|---|---|
| `Expression.Normalise` | main.py:103 | the result contains no `^` and is longer than the input by exactly the number of carets |
| `Expression.NormaliseAppend` | main.py:103 | normalisation distributes over concatenation (it works character by character) |
| `Expression.NormaliseAt` | main.py:103 | each input character lands at its offset in the output in order: a `^` as the two characters `**`, any other character copied unchanged, the blocks tiling the output |
| `Expression.NormaliseCaretFree` | main.py:103 | text without a caret is left exactly as it is |
| `Expression.NormaliseIdempotent` | main.py:103 | normalising twice equals normalising once |
| `ViewportPlanner.Linspace` | main.py:124 | the sample sequence has the requested length, starts at the window's start and ends at its end |
| `ViewportPlanner.LinspaceAt` | main.py:124 | every sample, the last included, is start plus its index times the step |
| `ViewportPlanner.LinspaceEven` | main.py:124 | neighbouring samples are one step apart |
| `ViewportPlanner.LinspaceMonotone` | main.py:124 | over an increasing window the samples never decrease, and over a non-empty one they strictly increase |
| `ViewportPlanner.LinspaceWithin` | main.py:124 | over an increasing window every sample, the last one included, lies inside it |
| `ViewportPlanner.Evaluate` | main.py:125 | element-wise evaluation gives one y sample per x sample, the expression's value at that x |
| `ViewportPlanner.SeqMin` | main.py:129 | the minimum is one of the samples and no sample is smaller |
| `ViewportPlanner.SeqMax` | main.py:130 | the maximum is one of the samples and no sample is larger |
| `ViewportPlanner.YRange` | main.py:131 | the y magnitude is non-negative, at least the absolute value of both y extremes, and equal to one of them |
| `ViewportPlanner.Fit` | main.py:128-137 | the y bounds are the minimum and maximum sample; the x minimum is the smaller of the first x and minus the y magnitude, the x maximum the larger of the last x and the y magnitude |
| `ViewportPlanner.AbsRange` | main.py:142 | the half-width is at least the absolute value of each of the four fitted bounds and equal to one of them |
| `ViewportPlanner.PlanViewport` | main.py:128-144 | a viewport exists exactly when there are samples and none is NaN, and then it is square and centred on the origin |
| `ViewportPlanner.PlanBounds` | main.py:128-144 | the step-by-step reassignment of the four bounds, failing when a NaN left the y magnitude unset, yields exactly the planned viewport |
| `ViewportPlanner.PlanViewportCovers` | main.py:128-144 | the square contains every fitted bound, the first and last x and every y sample, and its half-width is the fitted bounds' largest absolute value |
| `ViewportPlanner.PlanViewportHalfWidth` | main.py:136-144 | the square is at least as wide as the span of the x samples |
| `ViewportPlanner.ShiftCurve` | main.py:149 | the shifted curve keeps the same y samples and its length, and each x is the original x plus the shift |
| `ViewportPlanner.ShiftInverse` | main.py:149 | shifting by `s` and then by `-s` restores the curve |
| `ViewportPlanner.ShiftCompose` | main.py:149 | shifting by `s` and then `t` equals shifting by `s + t` |
| `PlotController.RequestOf` | main.py:103-107 | the request holds the normalised text, an x window of width 10 starting at the x slider, a y window of height 10 centred on the y slider, and the current shift |
| `PlotController.Matches` | main.py:110-112 | the six-value tuple comparison with the snapshot, a `None` field equal to no number; `SkipIffMatches` proves it alone decides suppression, `FirstPlotNeverSkipped` that the initial snapshot matches nothing |
| `PlotController.XSamples` | main.py:124 | the request's 1000 x samples, starting at the window's start and ending at its end |
| `PlotController.Draw` | main.py:122-177 | the `try` suite with its `except`: `FailIff` states when it fails, `DrawRendered` the frame it draws otherwise, `RenderedCurves` and `RenderedViewport` what that frame holds |
| `PlotController.Plot` | main.py:101-177 | a plot action is suppressed exactly when the request matches the snapshot (its own contract and `SkipIffMatches`); `FailIff` states when it fails |
| `PlotController.Recorded` | main.py:169-174 | the snapshot a successful plot stores: text, planned square and shift; `RecordedWellFormed` and `ReplotSkippedIff` state its properties |
| `PlotController.After` | main.py:169-177 | the snapshot is replaced on success only (`SkipIffMatches`, `FailIff`), and stays well formed (`AfterWellFormed`) |
| `PlotController.FirstPlotNeverSkipped` | main.py:85-113 | against the initial snapshot, whose bounds are `None`, no request matches, so the first plot always proceeds |
| `PlotController.SkipIffMatches` | main.py:110-113 | a plot is suppressed if and only if the six-value request equals the snapshot, and the snapshot then stays as it was |
| `PlotController.FailIff` | main.py:122-177 | a plot fails if and only if it is not suppressed and compiling or evaluating raises or a y sample is NaN; a failure keeps the snapshot |
| `PlotController.RenderedCurves` | main.py:123-149 | a successful plot draws the request's x samples with the expression's values at them, and the same y values against the x samples plus the shift, without evaluating again |
| `PlotController.RenderedViewport` | main.py:128-151 | a successful plot's viewport is square and origin-centred, contains the requested x window and every drawn point of the original curve, and is at least half as wide as the x window on each side |
| `PlotController.DrawRendered` | main.py:122-149 | when compiling succeeds and no sample is NaN, the plot draws the square of half-width the largest absolute fitted bound, the sampled curve and its shifted copy |
| `PlotController.RecordedWellFormed` | main.py:142-174 | a successful plot of a width-10 window records a square snapshot of half-width at least 5 |
| `PlotController.AfterWellFormed` | main.py:142-174 | after any plot of slider values the snapshot is either still empty or a square of half-width at least 5 with a shift |
| `PlotController.SkipOnlyAtDefaultSliders` | main.py:104-113 | a suppressed plot had the x slider at -5, the y slider at 0, a recorded half-width of 5, the same normalised text and the same shift |
| `PlotController.ReplotSkippedIff` | main.py:110-174 | repeating a successful plot unchanged is suppressed if and only if the planned viewport equals the requested window |
| `PlotController.SquareScenario` | main.py:103-144 | `x^2` over the window [-5, 5] is planned as the square of half-width 25 |
| `PlotController.IdentityReplotSkipped` | main.py:101-174 | `x` at the default sliders is planned as the square of half-width 5, and plotting it again is suppressed |
| `PlotController.NaNAtWindowStartFails` | main.py:128-139 | a not-suppressed plot whose expression is NaN at the window's start fails |
| `PlotController.FunctionPlotter.constructor` | main.py:80-90 | the display bounds start at [-10, 10], the shift at 0, the last text empty and every other snapshot field `None` |
| `PlotController.FunctionPlotter.PlotGraph` | main.py:101-177 | the outcome is `Plot` of the slider request and the old snapshot; the snapshot becomes the recorded square on success and is unchanged otherwise; the shift and display bounds are untouched |
| `PlotController.FunctionPlotter.Redraw` | main.py:115-177 | the `try` suite with its `except` clause: the outcome is `Draw` of the request, and the snapshot becomes the recorded square on success and stays unchanged on failure |
| `PlotController.FunctionPlotter.ShiftGraph` | main.py:179-181 | the shift becomes the shift slider's value whatever the outcome, and the plot then runs with that shift |

## Left out

- Widget construction, the label-update callbacks and the restoring of the slider ranges and values after a plot (main.py:12-78, 92-99, 116-117, 163-166): user interface only.
- Drawing: clearing the figure, axes, spines, grid, legend and the canvas redraw (main.py:146-160); a `Rendered` outcome carries the viewport and the two curves that would be drawn.
- Parsing and compiling the text and evaluating it on an array (main.py:120-125): the expression library is an input of the model, `compile`, applied to the normalised text, which either raises or yields one sample per x value. An expression without `x` compiles to a scalar, and drawing it then raises; the model counts that among the `Raises` results.
- The error dialog (main.py:177): a failure is the `Failed` outcome.
- Floating-point rounding and infinities: numbers are reals and NaN is an explicit value, so an infinite sample and rounding in `x + 10` or in the linspace step are not modelled.
- The fallback for NaN x samples (main.py:138-139): the x samples come from finite slider values and are never NaN, so the branch cannot be taken.
- Slider ranges and resolution (-10 to 10, step 0.1): every real slider value is admitted.
