# TGraphPainter core in Dafny

This project models the painting core of ROOT's `TGraphPainter`
(`hist/histpainter/src/TGraphPainter.cxx`). That core turns the points of
a graph into calls on the pad: polylines, fill areas, polymarkers, boxes,
smoothed curves and hatched exclusion zones. The model covers:

- **Zero**. The reverse-communication root finder that Smooth calls. Its
  function-static variables are the fields of the class
  `RootFinder.ZeroSolver`, and one call is `ZeroSolver.Step`.
- **Smooth**. The tangent-continuous curve smoother:
  - rescaling of the data, and its exact inverse;
  - the output bank `qlx`/`qly`, modelled as the class `CurveSmoother.Bank`;
  - the flush at label L310, with its fill closure;
  - the `goto` machine, as a label datatype stepped by `SmoothDriver.Run`.
- **PaintPolyLineHatches**, in the module `Hatching`:
  - thinning of repeated points;
  - the shifted points at the ends, at interior points and at the closure;
  - the crossing pass;
  - the conversion back to user coordinates.
- **PaintGraph**, in the module `GraphPainter`:
  - option decoding;
  - the line/fill loop, including its wrap iteration;
  - the curve loop that splits the graph into pieces for Smooth;
  - the `*` and `P` markers;
  - the bar chart.
- **PaintGrapHist**, in the module `GraphHist`:
  - option decoding;
  - the step outline shared by the histogram and the fill area;
  - the edge checks of option N;
  - the `][` cutoff;
  - the smoothed curve, cut into batches of at most 50 points;
  - the low-resolution decision and the pixel-column bucketing.
  - the order of the parts, where a bad edge returns from the whole routine.
- **The error band of option 3/4**, in the module `ErrorBands`. This is
  the closed polygon that `PaintGraphErrors`, `PaintGraphAsymmErrors` and
  `PaintGraphBentErrors` hand to `PaintGraph`.

The pad (`gPad`) is a value of `Canvas.Pad`. Its coordinate conversions
(`XtoPad`, `YtoPad`, `PadtoX`), `log10`, the pixel conversions and the
trigonometric functions of `TMath` are function-typed fields, so they stay
uninterpreted. What a routine paints is a sequence of `Canvas.PaintCall`
records. A call of Smooth or of PaintPolyLineHatches from PaintGraph is
also recorded as a call, so the routines can be stated one at a time.
C integer division and remainder are modelled as truncating
(`Canvas.TruncDiv`, `Canvas.TruncRem`). Reals are exact.

## Model

| member | source | states |
|---|---|---|
| Canvas.TruncDiv | hist/histpainter/src/TGraphPainter.cxx:2364 | C division truncates toward zero: the quotient's magnitude is the floor of the magnitudes, and its sign follows the dividend |
| Canvas.TruncRem | hist/histpainter/src/TGraphPainter.cxx:2720-2722 | the C remainder takes the dividend's sign, with a == (a / b) * b + a % b |
| Canvas.ComputeLogs | hist/histpainter/src/TGraphPainter.cxx:55-80 | every coordinate is copied, then taken to log10 on a log axis, with non-positive values sent to the pad corner; y is left alone when opt != 0 |
| RootFinder.SameSideKeepsBracket | hist/histpainter/src/TGraphPainter.cxx:3259-3261 | replacing the bracket end whose residual has the new sample's sign keeps a sign change between the ends |
| RootFinder.ZeroSolver.constructor | hist/histpainter/src/TGraphPainter.cxx:3156-3157 | the static state starts zeroed, before any session |
| RootFinder.ZeroSolver.Step | hist/histpainter/src/TGraphPainter.cxx:3146-3271 | k <= 0 starts a session at AZ; \|Y\| <= E2 returns k = 2 and changes nothing; the second call proposes BZ; same signs at both ends start the subdivision from a with step b - a, and later same-sign samples either halve the step and restart from x1 or go one step further on; a sign change closes the bracket at X; with a bracket, the end whose residual shares the sign of Y moves to X, so a sample inside the bracket keeps the new ends inside the old bracket; every later proposal spends one iteration within the budget, and once bracketed lies strictly inside (a, b), whose residuals keep opposite signs; a call with k = 1 returns k = 2 only when \|Y\| <= E2 (X returned as is) or when the bracket has no room left for its midpoint |
| RootFinder.ZeroSolver.Advance | hist/histpainter/src/TGraphPainter.cxx:3196-3199 | it grows by one; x2 is proposed exactly while it < maxiterations, and otherwise k becomes j1 |
| RootFinder.ZeroSolver.Search | hist/histpainter/src/TGraphPainter.cxx:3187-3218 | with no sign change yet: the first search step starts from a with step b - a; later ones halve the step and restart from x1 after j2 steps, or go one step further from X; each spends one iteration |
| RootFinder.ZeroSolver.Revise | hist/histpainter/src/TGraphPainter.cxx:3262-3270 | the bracket end whose residual shares the sign of Y moves to X, the other stays, and a sign change between the ends is kept; the reference residual picks the secant or the bisection label |
| RootFinder.ZeroSolver.Refine | hist/histpainter/src/TGraphPainter.cxx:3225-3255 | when the secant point of the pair chosen at L130 (or of X and x1 at L150) lies strictly inside (a, b), it is the proposal (or the budget is spent); otherwise the midpoint of (a, b) is proposed, and no proposal with k = 2 happens exactly when that midpoint is no longer strictly inside; every proposal lies strictly inside (a, b) and spends one iteration |
| RootFinder.SecantBase | hist/histpainter/src/TGraphPainter.cxx:3227-3235 | at L130 the secant runs from the bracket end with the smaller residual to the other end; at L150 from X to the previous point x1 |
| RootFinder.Secant | hist/histpainter/src/TGraphPainter.cxx:3235 | the secant point is where the line through the two samples crosses zero |
| RootFinder.ZeroSolver.Session | hist/histpainter/src/TGraphPainter.cxx:3040-3061 | a caller loop ends with k == 2, or with k in 3..4 and the budget spent, after at most max(2, maxiterations) proposals; k == 2 means \|f(x)\| <= E2 at the returned x, or a bracket (a, b) with no room left for its midpoint across which f changes sign (for E2 >= 0) |
| CurveSmoother.DecodeDrawtype | hist/histpainter/src/TGraphPainter.cxx:2719-2723 | drawtype is 1000·q + ktype, plus 10 when the axes are swapped; the swap flag holds iff drawtype % 1000 > 10 |
| CurveSmoother.Origin | hist/histpainter/src/TGraphPainter.cxx:2725-2734 | the fill baseline is the frame corner for ktype 3; otherwise x is max(0, uxmin) and y is clamped into [uymin, uymax] |
| CurveSmoother.ExtentsBound | hist/histpainter/src/TGraphPainter.cxx:2743-2758 | every point lies between the scanned minimum and maximum |
| CurveSmoother.ExtentsAttained | hist/histpainter/src/TGraphPainter.cxx:2743-2758 | the scanned minimum and maximum are values of the data |
| CurveSmoother.ScanExtents | hist/histpainter/src/TGraphPainter.cxx:2743-2758 | the scan loop returns the extents and 1 + the number of turns of x and of y |
| CurveSmoother.ClosedNeedsSpan | hist/histpainter/src/TGraphPainter.cxx:2759-2762 | a curve is found closed only if it spans a non-empty range in both x and y |
| CurveSmoother.XRatio | hist/histpainter/src/TGraphPainter.cxx:2763-2768 | the x scale is positive; it is 1 for a constant x, and otherwise maps the x span onto ratio_signs |
| CurveSmoother.RatioSigns | hist/histpainter/src/TGraphPainter.cxx:2765-2766 | the ratio of y turns to x turns (20 without x turns) is positive |
| CurveSmoother.YRatio | hist/histpainter/src/TGraphPainter.cxx:2769-2770 | the y scale is positive and maps the y span onto 1 |
| CurveSmoother.UnscaleRescale | hist/histpainter/src/TGraphPainter.cxx:3134-3138 | over exact reals, the final unscale gives back exactly the data the opening rescale started from |
| CurveSmoother.RescaledRange | hist/histpainter/src/TGraphPainter.cxx:2774-2777 | rescaled data lie in [0, span · ratio], that is [0, ratio_signs] in x and [0, 1] in y |
| CurveSmoother.RescaleInPlace | hist/histpainter/src/TGraphPainter.cxx:2774-2777 | the array becomes the rescaled data; the slots beyond n are unchanged |
| CurveSmoother.UnscaleInPlace | hist/histpainter/src/TGraphPainter.cxx:3135-3138 | the array becomes the unscaled data; the slots beyond n are unchanged |
| CurveSmoother.Normalise | hist/histpainter/src/TGraphPainter.cxx:2743-2777 | the extents, scales and closedness come from the original data, and x/y are rescaled in place |
| CurveSmoother.Restore | hist/histpainter/src/TGraphPainter.cxx:3134-3138 | x/y are converted back with the same extents and scales |
| CurveSmoother.SkipRepeated | hist/histpainter/src/TGraphPainter.cxx:2817-2824 | k advances over points that repeat their predecessor, and stops at the first one that does not or at the end of the data |
| CurveSmoother.GrownCapacity | hist/histpainter/src/TGraphPainter.cxx:3081-3095 | a grown bank keeps the two spare slots of the first allocation |
| CurveSmoother.ClosureOverrunsGrownBankAsWritten | hist/histpainter/src/TGraphPainter.cxx:3080-3116 | as written, a fill-mode bank grown once and then filled to banksize - 1 vertices has one slot too few for the two closure slots that L310 writes |
| CurveSmoother.ClosureFitsGrownBank | hist/histpainter/src/TGraphPainter.cxx:3105-3118 | with the spare slots kept, both closure slots fit for every count a flush can see |
| CurveSmoother.Flush | hist/histpainter/src/TGraphPainter.cxx:3100-3122 | draw types from 1000 paint one fill area; otherwise the batch ends in its polyline, is hatched iff the width is over 99, and for ktype > 1 is preceded by a fill area closed down to the baseline (or across it when rotated) |
| CurveSmoother.Bank.constructor | hist/histpainter/src/TGraphPainter.cxx:2706-2711 | the bank has 10·npoints slots, and banksize = n2 = 10·npoints - 2 |
| CurveSmoother.Bank.Push | hist/histpainter/src/TGraphPainter.cxx:3072-3075 | the vertex is appended and npt grows by one; a bank with its two spare slots keeps them |
| CurveSmoother.Copy | hist/histpainter/src/TGraphPainter.cxx:3084-3093 | a fresh array of the new capacity holding the first size values of the old one |
| CurveSmoother.Bank.Grow | hist/histpainter/src/TGraphPainter.cxx:3082-3094 | fresh arrays, n2 larger, holding the old contents, with the two spare slots kept |
| CurveSmoother.Bank.GrowAsWritten | hist/histpainter/src/TGraphPainter.cxx:3082-3094 | as written: fresh arrays of exactly banksize + n2 slots holding the old contents, so no spare slot is left |
| CurveSmoother.Bank.Draw | hist/histpainter/src/TGraphPainter.cxx:3100-3122 | the calls are Flush of the bank's contents, and the contents are unchanged |
| CurveSmoother.Bank.Close | hist/histpainter/src/TGraphPainter.cxx:3105-3116 | given room for the two closure slots after npt, they go down to yorg under the last and the first vertex, or across to xorg when rotated |
| CurveSmoother.Bank.Emit | hist/histpainter/src/TGraphPainter.cxx:3072-3095 | the vertex is appended; a full bank grows when filling; the bank reports full only when it may not grow |
| CurveSmoother.Bank.Hand | hist/histpainter/src/TGraphPainter.cxx:3100-3125 | the old contents are flushed, and the next batch starts at the current point |
| CurveSmoother.Bank.Restart | hist/histpainter/src/TGraphPainter.cxx:3123-3125 | the bank holds the current point only |
| SmoothDriver.Walk | hist/histpainter/src/TGraphPainter.cxx:2817-2921 | labels L50 to L160 keep the data indices in range and leave through L170, or finish through L310 iff points are pending |
| SmoothDriver.Trace | hist/histpainter/src/TGraphPainter.cxx:2924-3070 | labels L170 to L290 keep k fixed and end at the root finder (L250) or at the bank (L300); L170 sends a straight segment, or an arc close to its chord, to the bank with the point P(k), and otherwise starts the arc at P(k-1) with tj = 0; L230 sends P(k) itself with s = 0 |
| SmoothDriver.SetUpArc | hist/histpainter/src/TGraphPainter.cxx:2924-2973 | L170: a pending straight segment or an arc within delta of its chord ends at P(k) with finished = -1; otherwise the arc starts at P(k-1) with tj = 0 on a cubic (X(t), Y(t)) that reaches P(k) at t with the end direction (ct, st) |
| SmoothDriver.ArcEnd | hist/histpainter/src/TGraphPainter.cxx:2941-2948 | the cubic xa t^3 + xb t^2 + co t + xo reaches xo + dx at the parameter t |
| SmoothDriver.ArcEndSlope | hist/histpainter/src/TGraphPainter.cxx:2941-2948 | its derivative at t is ct, the direction cosine at P(k) |
| SmoothDriver.Solve | hist/histpainter/src/TGraphPainter.cxx:3040-3061 | one Zero call, whose answer kp leads to L210 iff kp = 2, to L230 iff kp > 2 (and only with the budget of 20 spent), and otherwise to L200 while searching (iw > 0) or back to L250 with iw and the residual z set by the mode |
| SmoothDriver.Settle | hist/histpainter/src/TGraphPainter.cxx:3126-3130 | after a vertex: stop iff finished > 0, continue the arc iff finished == 0 and s > 0, else move on to the next arc |
| SmoothDriver.Advance | hist/histpainter/src/TGraphPainter.cxx:2817-3070 | the inner labels run until the bank or the end within the fuel, and keep the indices in range |
| SmoothDriver.Feed | hist/histpainter/src/TGraphPainter.cxx:3072-3095 | L300 appends the point, back in the caller's coordinates, to the bank, changes nothing else of the machine, and goes on to L310 exactly when the bank is full, which happens only when it may not grow |
| SmoothDriver.Deliver | hist/histpainter/src/TGraphPainter.cxx:3100-3125 | L310 appends Flush of the bank's old contents to the trace, counts the flush, and restarts the bank at the current point in the caller's coordinates |
| SmoothDriver.Run | hist/histpainter/src/TGraphPainter.cxx:2783-3130 | every painted batch has at least two points and the first starts at the first point; a fill mode flushes at most once; each flush paints at most three records |
| SmoothDriver.Smooth | hist/histpainter/src/TGraphPainter.cxx:2654-3142 | the caller's x/y come back unchanged (over exact reals); every batch has at least two points and the first starts at the first point; fill modes paint in one flush |
| Hatching.HatchWidth | hist/histpainter/src/TGraphPainter.cxx:2364 | w is zero iff \|width\| < 100, and otherwise has the sign of the width |
| Hatching.NdcRoundTrip | hist/histpainter/src/TGraphPainter.cxx:2543-2547 | the NDC map and the way back are inverse over exact reals |
| Hatching.Trunc | hist/histpainter/src/TGraphPainter.cxx:2378-2381 | the (Int_t) cast truncates toward zero |
| Hatching.NdcAxes | hist/histpainter/src/TGraphPainter.cxx:2373-2395 | the scale of each axis maps the user range onto the pad's NDC corners |
| Hatching.NdcRoundTripAll | hist/histpainter/src/TGraphPainter.cxx:2543-2547 | a whole batch taken to NDC and back is unchanged |
| Hatching.Kept | hist/histpainter/src/TGraphPainter.cxx:2399-2407 | the survivors of thinning are indices in range, and the first point always survives |
| Hatching.KeptShape | hist/histpainter/src/TGraphPainter.cxx:2401-2406 | surviving indices increase, and the last point equals the last survivor |
| Hatching.KeptAdjacentDiffer | hist/histpainter/src/TGraphPainter.cxx:2401-2406 | consecutive survivors differ |
| Hatching.DroppedRepeat | hist/histpainter/src/TGraphPainter.cxx:2402 | every dropped point repeats its predecessor |
| Hatching.ThinStart | hist/histpainter/src/TGraphPainter.cxx:2399-2400 | slot 0 holds the first point in NDC |
| Hatching.ThinStep | hist/histpainter/src/TGraphPainter.cxx:2401-2406 | one loop turn extends the thinned prefix by point i exactly when it survives |
| Hatching.Thin | hist/histpainter/src/TGraphPainter.cxx:2399-2407 | xf/yf[..nf+1] are the survivors in NDC, and nf + 1 is their number |
| Hatching.Toward | hist/histpainter/src/TGraphPainter.cxx:2466-2470 | the point is kept or reflected through (xi0, yi0), so that it is not on the far side from (xm, ym) |
| Hatching.InteriorShift | hist/histpainter/src/TGraphPainter.cxx:2436-2480 | an interior shift is the bisector point, or the rotated point kept on the bisector's side |
| Hatching.ClosingShift | hist/histpainter/src/TGraphPainter.cxx:2482-2496 | the shared end shift of a closed line is on the side of the mean end shift |
| Hatching.ShiftInterior | hist/histpainter/src/TGraphPainter.cxx:2436-2480 | slot i, for 1 <= i < nf, holds the interior shift InteriorAt of point i of the thinned line, and the end slots are unchanged |
| Hatching.ShiftedLine | hist/histpainter/src/TGraphPainter.cxx:2409-2503 | the shifted line has one point per thinned point: the end shifts, the interior shifts, and the shared closing shift at both ends of a closed line |
| Hatching.ShiftedLineShape | hist/histpainter/src/TGraphPainter.cxx:2409-2503 | a closed line's two ends share one shift, on the side of the mean end shift; an open line's ends are its end shifts; each interior shift lies on its bisector's side |
| Hatching.Shift | hist/histpainter/src/TGraphPainter.cxx:2409-2503 | xt/yt[..nf+1] become ShiftedLine of the thinned line: for a closed line both ends hold the closing shift of the mean end shift, for an open one the two end shifts |
| Hatching.Line | hist/histpainter/src/TGraphPainter.cxx:2511-2514 | the slope and intercept describe a line through both points |
| Hatching.Crossing | hist/histpainter/src/TGraphPainter.cxx:2508-2521 | a reported crossing lies strictly inside both segments' bounding boxes |
| Hatching.OnLine | hist/histpainter/src/TGraphPainter.cxx:2511-2514 | both end points satisfy y = c·x + b |
| Hatching.LinesMeet | hist/histpainter/src/TGraphPainter.cxx:2515-2518 | xc = (b2 - b1) / (c1 - c2) lies on both lines |
| Hatching.CrossingOnBothLines | hist/histpainter/src/TGraphPainter.cxx:2515-2521 | a reported crossing lies on both segments' lines |
| Hatching.FirstCross | hist/histpainter/src/TGraphPainter.cxx:2508-2531 | the first crossed segment j, searched from i-1 down to 1, carries the crossing point |
| Hatching.Pruned | hist/histpainter/src/TGraphPainter.cxx:2505-2541 | the crossing pass over segments i..1 emits at most i points, in matching x/y lists |
| Hatching.PrunedCross | hist/histpainter/src/TGraphPainter.cxx:2522-2527 | a crossing emits xt[i] and the crossing point, then resumes at segment j - 1 |
| Hatching.PrunedPlain | hist/histpainter/src/TGraphPainter.cxx:2536-2540 | without a crossing, xt[i] is emitted and the pass goes on at i - 1 |
| Hatching.FindCross | hist/histpainter/src/TGraphPainter.cxx:2508-2531 | the inner loop finds exactly FirstCross |
| Hatching.PruneStep | hist/histpainter/src/TGraphPainter.cxx:2507-2541 | one outer turn keeps the emitted points equal to Pruned's prefix |
| Hatching.Prune | hist/histpainter/src/TGraphPainter.cxx:2505-2541 | the pass emits Pruned of all segments, then the first shifted point |
| Hatching.BackToUser | hist/histpainter/src/TGraphPainter.cxx:2543-2547 | the first count slots are taken back to user coordinates; the others are unchanged |
| Hatching.SinglePointReadsBeforeStartAsWritten | hist/histpainter/src/TGraphPainter.cxx:2424-2434 | as written, two equal points thin to nf = 0, and the end shift reads xf[-1] |
| Hatching.HatchOutline | hist/histpainter/src/TGraphPainter.cxx:2409-2547 | the hatched outline opens with the thinned line, then runs from the shift of the last point back through the pruned shifted line to the shift of the first, with between n + 1 and 2n points |
| Hatching.Outline | hist/histpainter/src/TGraphPainter.cxx:2409-2547 | the outline the arrays build is HatchOutline of the thinned line, taken back to user coordinates |
| Hatching.UserOutline | hist/histpainter/src/TGraphPainter.cxx:2543-2547 | in user coordinates the outline opens with the thinned line, and its second half starts at the last point's shift and ends at the first point's |
| Hatching.HatchesShape | hist/histpainter/src/TGraphPainter.cxx:2354-2558 | at most one fill area, none exactly when one point survives thinning; its second half starts at the shift of the last survivor and ends at the shift of the first; with a non-degenerate pad its first points are the survivors themselves |
| Hatching.HatchPolyLine | hist/histpainter/src/TGraphPainter.cxx:2354-2558 | the routine paints exactly Hatches: the fill area of the hatched outline of the thinned polyline, or nothing when one point survives |
| GraphPainter.UpperAll | hist/histpainter/src/TGraphPainter.cxx:476 | upper-casing maps each character and keeps the length |
| GraphPainter.DropSame | hist/histpainter/src/TGraphPainter.cxx:477 | removing "SAME" never lengthens the option |
| GraphPainter.DropSameLetters | hist/histpainter/src/TGraphPainter.cxx:477 | removing "SAME" invents no character, and keeps every character that "SAME" does not contain |
| GraphPainter.OptionLetter | hist/histpainter/src/TGraphPainter.cxx:479-489 | a letter not in "SAME" is seen iff the caller wrote it in either case |
| GraphPainter.DecodeOptions | hist/histpainter/src/TGraphPainter.cxx:471-504 | the routine does nothing exactly when a non-empty option names none of L, F, C, *, P, B, 2, 3, 4 |
| GraphPainter.DecodedFlags | hist/histpainter/src/TGraphPainter.cxx:479-504 | each flag holds iff its letter was written; C with F becomes a filled curve; an empty option means L |
| GraphPainter.SameAloneDrawsNothing | hist/histpainter/src/TGraphPainter.cxx:492-496 | "same" alone draws nothing |
| GraphPainter.Drawn | hist/histpainter/src/TGraphPainter.cxx:649-670 | the batch goes through ComputeLogs, with the axes swapped for option R |
| GraphPainter.LineFillCalls | hist/histpainter/src/TGraphPainter.cxx:649-670 | a fill area (plus a border line) for F, else a polyline preceded by hatches for wide lines, all on the drawn batch |
| GraphPainter.LineOrFill | hist/histpainter/src/TGraphPainter.cxx:633-673 | the loop paints exactly the npoints data points, through LineFillCalls; the wrap iteration of an open fill adds no point |
| GraphPainter.Visible | hist/histpainter/src/TGraphPainter.cxx:746-757 | the marker batch holds only points inside the window, in order |
| GraphPainter.VisibleComplete | hist/histpainter/src/TGraphPainter.cxx:746-757 | no point inside the window is lost |
| GraphPainter.Selected | hist/histpainter/src/TGraphPainter.cxx:714-721 | option R keeps only the points inside the window; otherwise every point is kept |
| GraphPainter.RunsOf | hist/histpainter/src/TGraphPainter.cxx:689-705 | the open piece of a non-empty batch has at least one point |
| GraphPainter.RunsStep | hist/histpainter/src/TGraphPainter.cxx:689-705 | the pieces of a longer batch extend the pieces of its prefix by one point |
| GraphPainter.CurveRunsAll | hist/histpainter/src/TGraphPainter.cxx:711-738 | the loop over all raw points gives the pieces of the selected points |
| GraphPainter.RepeatLast | hist/histpainter/src/TGraphPainter.cxx:690-692 | the extra iteration writes the first work point into slot npt, and leaves the open piece unchanged |
| GraphPainter.Take | hist/histpainter/src/TGraphPainter.cxx:691-704 | the point joins the open piece held in the work arrays, which stays non-empty; the pieces it closes are exactly those of Extend |
| GraphPainter.Visit | hist/histpainter/src/TGraphPainter.cxx:689-705 | one loop turn keeps the work arrays and the emitted pieces in step with CurveRuns |
| GraphPainter.Walk | hist/histpainter/src/TGraphPainter.cxx:689-705 | after the loop, the work arrays hold the open piece, and the emitted pieces are those of CurveRuns |
| GraphPainter.CurveSplit | hist/histpainter/src/TGraphPainter.cxx:676-740 | the curve part paints exactly CurveCalls: Smooth once per piece, with draw type 1, plus 1000 when filled and 10 when rotated |
| GraphPainter.LastPiece | hist/histpainter/src/TGraphPainter.cxx:706-709 | the open piece is smoothed iff it has more than one point |
| GraphPainter.RunsShape | hist/histpainter/src/TGraphPainter.cxx:689-705 | every closed piece has at least two points, and none but its first and last lies outside the frame |
| GraphPainter.CurvePiecesInside | hist/histpainter/src/TGraphPainter.cxx:689-710 | every piece handed to Smooth has at least two points, and only its ends may lie outside the frame |
| GraphPainter.CurveInsideOnePiece | hist/histpainter/src/TGraphPainter.cxx:689-710 | a curve that never leaves the frame is smoothed in one piece |
| GraphPainter.RotatedFilledCurveReadsBeforeStartAsWritten | hist/histpainter/src/TGraphPainter.cxx:713-733 | with "CFR", an open graph whose points all lie outside the window leaves the piece empty, and the extra iteration reads gxworkl[-1] |
| GraphPainter.Markers | hist/histpainter/src/TGraphPainter.cxx:746-757 | one polymarker over exactly the points inside the window, axes swapped for R |
| GraphPainter.Gather | hist/histpainter/src/TGraphPainter.cxx:746-751 | the work arrays receive the visible points, in order |
| GraphPainter.SeqMin | hist/histpainter/src/TGraphPainter.cxx:780-784 | the minimum is a member of the positions and bounds them all |
| GraphPainter.SeqMax | hist/histpainter/src/TGraphPainter.cxx:780-784 | the maximum is a member of the positions and bounds them all |
| GraphPainter.Extent | hist/histpainter/src/TGraphPainter.cxx:780-784 | the bar loop finds the minimum and maximum |
| GraphPainter.BarHalfWidth | hist/histpainter/src/TGraphPainter.cxx:785-797 | the half width is non-negative for a non-negative bar width |
| GraphPainter.BarAt | hist/histpainter/src/TGraphPainter.cxx:799-818 | a bar is drawn only when [x - dbar, x + dbar] fits in the frame; it spans that interval and runs from the base (0 or uymin) to the value, clipped to the frame |
| GraphPainter.RotatedBarAt | hist/histpainter/src/TGraphPainter.cxx:820-832 | with R, every point gets a box from max(0, uxmin) to x, of height 2·dbar around y |
| GraphPainter.BarCalls | hist/histpainter/src/TGraphPainter.cxx:798-834 | at most one bar per point, and exactly one with R |
| GraphPainter.BarsInFrame | hist/histpainter/src/TGraphPainter.cxx:812-818 | every upright bar lies within the frame's y range |
| GraphPainter.Bars | hist/histpainter/src/TGraphPainter.cxx:778-834 | the bar part paints BarsOf the points |
| GraphPainter.BarLoop | hist/histpainter/src/TGraphPainter.cxx:798-834 | the loop paints BarCalls |
| GraphPainter.PaintLines | hist/histpainter/src/TGraphPainter.cxx:633-740 | the line/fill part, then the curve part |
| GraphPainter.PaintPoints | hist/histpainter/src/TGraphPainter.cxx:743-834 | the star markers, the P markers, then the bars |
| GraphPainter.PaintGraph | hist/histpainter/src/TGraphPainter.cxx:414-841 | nothing for npoints <= 0 or an option without drawing parts; otherwise the parts in source order |
| GraphHist.UpperMentions | hist/histpainter/src/TGraphPainter.cxx:935-947 | an upper-cased option contains a letter iff the caller wrote it in either case |
| GraphHist.UpperPair | hist/histpainter/src/TGraphPainter.cxx:947 | "][" survives upper-casing exactly when it was written |
| GraphHist.DecodeHistOptions | hist/histpainter/src/TGraphPainter.cxx:935-954 | each flag holds iff its letter was written; F with 2 becomes fill2 and not fill; H or an empty option draws the histogram; "9" forces high resolution |
| GraphHist.HistFrame | hist/histpainter/src/TGraphPainter.cxx:1050-1065 | equidistant bins split [x0, x1] into npoints steps; the view starts at or after wmin; the frame line raises vymin by dyframe |
| GraphHist.StepAt | hist/histpainter/src/TGraphPainter.cxx:1168-1186 | a bin fails iff option N sees a decreasing edge, with the message of the last bin or of a middle one; otherwise it adds two points (kept) or none (dropped) |
| GraphHist.StepShape | hist/histpainter/src/TGraphPainter.cxx:1182-1186 | a kept bin appends its tread, raised to vymin; a dropped bin only moves the last point to min(edge, uxmax) |
| GraphHist.Outlined | hist/histpainter/src/TGraphPainter.cxx:1168-1186 | a successful pass has matching x/y lengths and at least the start point |
| GraphHist.Closing | hist/histpainter/src/TGraphPainter.cxx:1187-1193 | the closing adds exactly one point |
| GraphHist.OutlinedSize | hist/histpainter/src/TGraphPainter.cxx:1168-1186 | after k bins the outline has an odd size of at most 2k + 1 |
| GraphHist.PolygonSize | hist/histpainter/src/TGraphPainter.cxx:1162-1193 | the closed polygon has an even size of at most 2·last + 2 |
| GraphHist.ClosingShape | hist/histpainter/src/TGraphPainter.cxx:1187-1193 | the start is raised to (vxmin, vymin), the last point returns to the start height under the last edge, and the treads are unchanged |
| GraphHist.Polygon | hist/histpainter/src/TGraphPainter.cxx:1162-1193 | a successful pass gives a polygon of at least two points |
| GraphHist.OutlineFails | hist/histpainter/src/TGraphPainter.cxx:1174-1179 | the pass fails iff option N meets a decreasing edge, and the error names the last bin or a middle one |
| GraphHist.KeptStepInside | hist/histpainter/src/TGraphPainter.cxx:1184-1185 | a kept bin appends a step inside the frame |
| GraphHist.DroppedStepInside | hist/histpainter/src/TGraphPainter.cxx:1186 | a dropped bin keeps every step inside |
| GraphHist.StepKeepsSteps | hist/histpainter/src/TGraphPainter.cxx:1182-1186 | one bin keeps every step of the outline inside |
| GraphHist.OutlineSteps | hist/histpainter/src/TGraphPainter.cxx:1168-1186 | every tread is horizontal and at or above vymin, and every kept edge is within the rounding of [uxmin, uxmax] |
| GraphHist.FailureSticks | hist/histpainter/src/TGraphPainter.cxx:1175-1178 | after a failure the routine returns, and later bins change nothing |
| GraphHist.Bin | hist/histpainter/src/TGraphPainter.cxx:1168-1186 | the loop body writes exactly StepAt's outline into the work arrays, or reports its error |
| GraphHist.Close | hist/histpainter/src/TGraphPainter.cxx:1187-1193 | the work arrays hold the closed outline |
| GraphHist.Advance | hist/histpainter/src/TGraphPainter.cxx:1168-1186 | one loop turn keeps the work arrays equal to Outlined after j bins |
| GraphHist.BinLoop | hist/histpainter/src/TGraphPainter.cxx:1168-1222 | after the loop the work arrays hold Outlined of all bins, or the failure |
| GraphHist.StepOutline | hist/histpainter/src/TGraphPainter.cxx:1162-1193 | the work arrays hold Polygon, or the same error |
| GraphHist.OutlineOf | hist/histpainter/src/TGraphPainter.cxx:1162-1193 | on fresh work arrays of 2·npoints + 10 slots the pass computes Polygon |
| GraphHist.FirstDiff | hist/histpainter/src/TGraphPainter.cxx:1203-1208 | the first index off the bottom line, with every earlier one on it |
| GraphHist.LastDiff | hist/histpainter/src/TGraphPainter.cxx:1210-1216 | the last index off the bottom line, with every later one on it |
| GraphHist.CutoffOf | hist/histpainter/src/TGraphPainter.cxx:1198-1218 | the kept span runs from the first to the last point off the bottom line, and is everything when every point is on it |
| GraphHist.Cutoff | hist/histpainter/src/TGraphPainter.cxx:1198-1218 | the two search loops compute CutoffOf |
| GraphHist.HistLine | hist/histpainter/src/TGraphPainter.cxx:1195-1219 | without "][" the line drops only the two vertical edge lines; with it the line is a sub-span |
| GraphHist.HistCalls | hist/histpainter/src/TGraphPainter.cxx:1162-1222 | the histogram paints one polyline, or nothing after an edge error |
| GraphHist.HistOutline | hist/histpainter/src/TGraphPainter.cxx:1162-1222 | the histogram pass paints HistCalls |
| GraphHist.HistLineOf | hist/histpainter/src/TGraphPainter.cxx:1195-1219 | the search loops paint HistLine |
| GraphHist.FillPolygon | hist/histpainter/src/TGraphPainter.cxx:1110-1117 | the fill area covers the whole polygon; the border drops the closing point |
| GraphHist.FillCalls | hist/histpainter/src/TGraphPainter.cxx:1074-1122 | option F paints a fill area plus a border when wanted, or nothing after an edge error |
| GraphHist.FillOutline | hist/histpainter/src/TGraphPainter.cxx:1074-1122 | the fill pass paints FillCalls |
| GraphHist.TreadsRaised | hist/histpainter/src/TGraphPainter.cxx:1184 | every outline point after the start is at or above vymin |
| GraphHist.CutoffKeepsAll | hist/histpainter/src/TGraphPainter.cxx:1198-1218 | when no point lies on the bottom line, the cutoff keeps everything |
| GraphHist.ThickFrameIdlesCutoff | hist/histpainter/src/TGraphPainter.cxx:1184-1218 | with a frame line thicker than one pixel the treads are raised above uymin, so "][" changes nothing |
| GraphHist.UncutLine | hist/histpainter/src/TGraphPainter.cxx:1198-1219 | a cutoff that keeps every point leaves the line as it is |
| GraphHist.FullStaircase | hist/histpainter/src/TGraphPainter.cxx:1168-1186 | when every bin is inside, the outline is the start point followed by one tread per bin |
| GraphHist.CurveRun | hist/histpainter/src/TGraphPainter.cxx:1265-1302 | the open piece never exceeds 49 points |
| GraphHist.CurveStops | hist/histpainter/src/TGraphPainter.cxx:1271-1276 | after an edge error, later bins change nothing |
| GraphHist.Join | hist/histpainter/src/TGraphPainter.cxx:1283-1301 | a point joins the open piece in the work arrays; a piece that ends is smoothed |
| GraphHist.CurveVisit | hist/histpainter/src/TGraphPainter.cxx:1267-1302 | one loop turn keeps the work arrays and the smoothed pieces in step with CurveRun |
| GraphHist.CurveLoop | hist/histpainter/src/TGraphPainter.cxx:1265-1302 | the loop paints the smoothed pieces of CurveRun and stops at the same error |
| GraphHist.HistCurveOf | hist/histpainter/src/TGraphPainter.cxx:1259-1307 | option C paints HistCurve |
| GraphHist.JoinFits | hist/histpainter/src/TGraphPainter.cxx:1295-1301 | a point inside the range keeps every piece between two and fifty points |
| GraphHist.CurveFits | hist/histpainter/src/TGraphPainter.cxx:1265-1302 | every smoothed piece has two to fifty points, all with centres inside [uxmin, uxmax] |
| GraphHist.CurvePiecesFit | hist/histpainter/src/TGraphPainter.cxx:1295-1306 | every Smooth call of option C gets two to fifty points |
| GraphHist.CurveWhole | hist/histpainter/src/TGraphPainter.cxx:1265-1302 | fewer than fifty bins, all inside, with rising edges, make one open piece of the bin centres |
| GraphHist.CurveOnePiece | hist/histpainter/src/TGraphPainter.cxx:1265-1306 | such a curve is smoothed as one piece |
| GraphHist.LowResolution | hist/histpainter/src/TGraphPainter.cxx:1372-1376 | low resolution needs more than three bins per pixel column, and neither fill2 nor "9" |
| GraphHist.Column | hist/histpainter/src/TGraphPainter.cxx:1395-1397 | a bin's column is clamped into 0..nrPix-1 |
| GraphHist.DropAt | hist/histpainter/src/TGraphPainter.cxx:1394-1402 | collecting a bin keeps the number of columns |
| GraphHist.Buckets | hist/histpainter/src/TGraphPainter.cxx:1383-1412 | there is one bucket per pixel column |
| GraphHist.AddSummarises | hist/histpainter/src/TGraphPainter.cxx:1400-1402 | adding a row keeps the bucket's count and bounds in step with its rows |
| GraphHist.BucketsSummarise | hist/histpainter/src/TGraphPainter.cxx:1383-1412 | each column holds the count, minimum and maximum of the rows of the kept bins that fall in it |
| GraphHist.PaintedIffCollected | hist/histpainter/src/TGraphPainter.cxx:1414-1429 | a column is painted (minPix <= maxPix) iff some kept bin fell in it |
| GraphHist.TruncReal | hist/histpainter/src/TGraphPainter.cxx:1433 | the (Int_t) cast truncates toward zero |
| GraphHist.CentrePix | hist/histpainter/src/TGraphPainter.cxx:1414-1420 | a used column's centre is the midpoint of its bounds and lies between them; an unused one is 2·1e100 |
| GraphHist.Sketched | hist/histpainter/src/TGraphPainter.cxx:1428-1467 | at most one line per column |
| GraphHist.LowResCalls | hist/histpainter/src/TGraphPainter.cxx:1422-1470 | the picture ends with the centre polyline |
| GraphHist.SketchShape | hist/histpainter/src/TGraphPainter.cxx:1428-1467 | every column line is vertical, two points at the column's abscissa, which is also the abscissa of its centre point |
| GraphHist.LastBinLostAsWritten | hist/histpainter/src/TGraphPainter.cxx:1389 | as written, the bucket loop stops before bin last; a concrete input shows the painted column differ |
| GraphHist.Drop | hist/histpainter/src/TGraphPainter.cxx:1390-1402 | the loop body updates the column arrays as DropAt does |
| GraphHist.Collect | hist/histpainter/src/TGraphPainter.cxx:1383-1412 | the initialisation loop and the bucket loop leave the arrays equal to Buckets |
| GraphHist.CentreRows | hist/histpainter/src/TGraphPainter.cxx:1414-1420 | the centre array holds CentrePix of every column |
| GraphHist.PaintColumn | hist/histpainter/src/TGraphPainter.cxx:1429-1467 | one turn of the painting loop extends the lines and centres as Sketched does |
| GraphHist.PaintColumns | hist/histpainter/src/TGraphPainter.cxx:1428-1470 | the painting loop paints LowResCalls |
| GraphHist.LowResOf | hist/histpainter/src/TGraphPainter.cxx:1377-1470 | the low-resolution pass paints the picture of bins 1..last |
| GraphHist.CurveFails | hist/histpainter/src/TGraphPainter.cxx:1265-1277 | the curve pass stops exactly when option N is given and an edge decreases, with the error the outline pass reports |
| GraphHist.OutlinedSameError | hist/histpainter/src/TGraphPainter.cxx:1082-1180 | the fill pass and the histogram pass stop on the same edge with the same error |
| GraphHist.BadEdgeEndsGrapHist | hist/histpainter/src/TGraphPainter.cxx:1074-1307 | among the modelled passes (fill area, histogram, curve), a bad edge ends PaintGrapHist exactly when option N is given, an edge decreases and one of those passes is selected; then nothing is painted but the curve pieces smoothed before the edge |
| GraphHist.EmptyOptionPaintsHistogram | hist/histpainter/src/TGraphPainter.cxx:1162 | an empty option paints the histogram and nothing else |
| GraphHist.LaterPartsOf | hist/histpainter/src/TGraphPainter.cxx:1259-1470 | the curve, then the low-resolution columns unless the curve met a bad edge |
| GraphHist.GrapHistOf | hist/histpainter/src/TGraphPainter.cxx:1074-1470 | the fill area (F without C), the histogram (H or an empty option), the curve (C) and the low-resolution columns, in this order; a bad edge ends the routine |
| GraphHist.PaintGrapHist | hist/histpainter/src/TGraphPainter.cxx:846-1470 | nothing for npoints <= 0; otherwise, unrotated, exactly GrapHistCalls on the frame of x |
| ErrorBands.DecodeErrorOptions | hist/histpainter/src/TGraphPainter.cxx:2157-2177 | X or x gives the simple graph; 2 gives boxes; 3 or 4 gives the band; 4 also smooths it |
| ErrorBands.BandOption | hist/histpainter/src/TGraphPainter.cxx:2309-2311 | the band is painted with "FC" iff option 4, else with "F" |
| ErrorBands.ErrorsRung | hist/histpainter/src/TGraphPainter.cxx:2224-2256 | every point takes part; an x inside the frame is kept, one below uxmin goes to uxmin and one above uxmax to uxmax, and with uxmin > uxmax the two sequential tests put every point on uxmax; its corners are at YtoPad(y ± ey) |
| ErrorBands.AsymmRung | hist/histpainter/src/TGraphPainter.cxx:1813-1841 | a point takes part iff it is inside the frame; its corners are at YtoPad(y + eyh) and YtoPad(y - eyl) |
| ErrorBands.BentRung | hist/histpainter/src/TGraphPainter.cxx:2012-2041 | a point takes part iff it is inside the frame; its corners' x are XtoPad(x + eyh) and XtoPad(x + eyl) |
| ErrorBands.Band | hist/histpainter/src/TGraphPainter.cxx:2249-2256 | the band has two slots per kept point |
| ErrorBands.BandMirrors | hist/histpainter/src/TGraphPainter.cxx:2249-2256 | slot k holds the k-th kept upper corner, and slot 2m-1-k its lower corner |
| ErrorBands.AllKept | hist/histpainter/src/TGraphPainter.cxx:2226-2230 | when every point is kept, the sides are the corners of all points, in order |
| ErrorBands.ErrorsBandComplete | hist/histpainter/src/TGraphPainter.cxx:2224-2256 | the symmetric band has all 2n slots; slot i and slot 2n-1-i hold point i's corners at its clamped x |
| ErrorBands.SlotsAsWritten | hist/histpainter/src/TGraphPainter.cxx:1833-1841 | as written, PaintGraph receives 2n slots, whatever the number of kept points |
| ErrorBands.UnsetSlotsAsWritten | hist/histpainter/src/TGraphPainter.cxx:1833-1841 | as written, a skipped point leaves slots that nothing wrote |
| ErrorBands.SkippedPointAsWritten | hist/histpainter/src/TGraphPainter.cxx:1813-1841 | a point below the frame gives PaintGraph two unwritten slots, where the band is empty |
| ErrorBands.SkippedBentPointAsWritten | hist/histpainter/src/TGraphPainter.cxx:2012-2100 | a bent-error point above the frame gives PaintGraph two unwritten slots, where the band is empty |
| ErrorBands.PlaceRung | hist/histpainter/src/TGraphPainter.cxx:2249-2256 | one loop turn writes a kept point's corners at if1 and if2, and moves them inward |
| ErrorBands.Assemble | hist/histpainter/src/TGraphPainter.cxx:2249-2256 | the assembly loop produces exactly Band |
| ErrorBands.ErrorsBandOf | hist/histpainter/src/TGraphPainter.cxx:2305-2311 | PaintGraphErrors hands the band iff neither X nor 2 is given and 3 or 4 is, with its option |
| ErrorBands.AsymmBandOf | hist/histpainter/src/TGraphPainter.cxx:1886-1897 | the same for PaintGraphAsymmErrors, over the kept points only |
| ErrorBands.BentBandOf | hist/histpainter/src/TGraphPainter.cxx:2089-2100 | the same for PaintGraphBentErrors, over the kept points only |
| ErrorBands.AsymmKeepsFramed | hist/histpainter/src/TGraphPainter.cxx:1813-1841 | the asymmetric band has two slots per point inside the frame, and all 2n slots when every point is inside |

## Left out

- SmoothDriver.Smooth: the label machine runs on a `fuel` bound. When the fuel runs out, the smoother goes straight to the final unscale, so a curve needing more steps is cut short in the model.
- SmoothDriver.Run: the numerical content of the arcs is modelled, but apart from the ends of each arc (SmoothDriver.SetUpArc and SmoothDriver.Trace: the cubic meets P(k), and a straight or last step emits P(k) itself) nothing is proved about where on the curve the emitted vertices lie, nor about the step lengths found by the root finder. The contract of Run covers batch sizes, starts and flush counts.
- CurveSmoother.UnscaleRescale: holds over exact reals only; IEEE rounding of `(x - sxmin)*xratio` and back is not modelled.
- Hatching.Prune: the crossing pass is computed on sequences and then copied into `xf`/`yf` (`Hatching.Append`), not written in place slot by slot.
- Hatching.HatchPolyLine: `TAttLine::Modify` and the deletion of the buffers are not modelled.
- The rotated branches of PaintGrapHist (option R): the rotated fill area (1124-1155), the rotated histogram (1224-1253), the rotated curve (1308-1347) and the rotated low-resolution columns (1403-1411, 1440-1446) are not part of this model.
- The high-resolution markers and lines of PaintGrapHist (after 1470), its bar chart, its axis drawing (988-1042) and the "P0" marker style are not part of this model.
- GraphHist.GrapHistOf: the markers and lines at high resolution and the bar chart add no calls in the model, since those parts are left out; only the low-resolution columns are composed after the curve.
- GraphPainter.PaintGraph: an npoints <= 0 paints nothing, but the `Error` message "illegal number of points" printed at TGraphPainter.cxx:472 is not modelled, nor is `SetMarkerStyle(3)` for option `*` (498, 744), which changes the graph's marker attribute rather than what is painted in the model.
- GraphHist.PaintGrapHist: likewise the "illegal number of points" message at TGraphPainter.cxx:932 and `SetMarkerStyle(3)` for option `*` at 964 are not modelled.
- GraphHist.PaintGrapHist: states nothing for option R, since the rotated branches are left out; its out-parameter `failed` stands for the message that `Error` prints when the fill area, the histogram or the curve pass returns early.
- GraphHist.BadEdgeEndsGrapHist and GraphHist.PaintGrapHist: the high-resolution markers and lines pass (TGraphPainter.cxx:1486-1490) and the bar chart (1644-1648) also print an edge error under option N and return early; since those passes are left out, their edge errors are not reported in `failed` (option "NB" with a decreasing edge gives `failed == None` in the model).
- SmoothDriver.Solve: the `Error` message "Attempt to plot outside plot limits" printed when the root finder answers kp > 2 (TGraphPainter.cxx:3044) is not modelled; only the jump to L230 is.
- The logarithmic branches of the low-resolution painting (1448-1463) are dead code, because optionZ is always 1 in PaintGrapHist (line 962). They are not modelled.
- GraphHist.OutlineSteps and GraphHist.ThickFrameIdlesCutoff assume a non-negative rounding (uxmin <= uxmax), which every pad provides.
- GraphHist.LowResOf and GraphHist.PaintGrapHist require at least one pixel column (NrPix >= 1). The source divides the axis into `ax2Pix - ax1Pix + 1` columns, which is at least one on any pad.
- The axis drawing, the temporary histogram, the statistics box (PaintStats), ExecuteEvent, DistancetoPrimitive and GetObjectInfo of PaintGraph are not part of this model.
- The error bars, boxes, arrows and end lines of the three error painters are not part of this model; only the band of options 3 and 4 is modelled. Options 2 and 3 together (boxes plus band) are left out.
- PaintGraphSimple is not part of this model.
- Inputs are modelled as sequences or arrays of known length. The `TGraph` object, `TString`, `gStyle` and the global `gxwork` buffers are replaced by parameters and call-local arrays.
- The pad conversions, `TMath::Log10`, `ATan`, `Sin`, `Cos`, `Sqrt` and the pixel conversions are uninterpreted functions. Divisions by quantities the source never checks go through `Canvas.Quot`, which yields 0 for a zero divisor instead of an IEEE infinity or NaN.
- Memory allocation failure (`new` returning null) is not modelled.

## Findings

| source | as written | input that shows it | evidently intended | confidence | as-written member | corrected member |
|---|---|---|---|---|---|---|
| hist/histpainter/src/TGraphPainter.cxx:3083-3108 | a grown bank is allocated with exactly `banksize + n2` slots, and the fill closure writes `qlx[npt+1]` | a fill mode (ktype > 1) whose bank has grown once and holds banksize - 1 vertices when L310 flushes: the closure writes `qlx[banksize]`, one past the end | the grown bank keeps the two spare slots of the first allocation | not executed | CurveSmoother.ClosureOverrunsGrownBankAsWritten | CurveSmoother.ClosureFitsGrownBank |
| hist/histpainter/src/TGraphPainter.cxx:2424-2434 | the end shift reads `xf[nf-1]` even when thinning left nf = 0 | two equal points (1,2), (1,2): nf = 0 and the routine reads `xf[-1]` | a polyline that thins to one point draws no hatches | not executed | Hatching.SinglePointReadsBeforeStartAsWritten | Hatching.HatchesShape |
| hist/histpainter/src/TGraphPainter.cxx:713-733 | the extra iteration of an open filled curve with R tests `gxworkl[npt-1]` with npt = 0 | option "CFR", points (0,0), (1,1), window y range [2, 3]: no point is taken, and the read is at index -1 | an empty open piece is neither read nor smoothed | not executed | GraphPainter.RotatedFilledCurveReadsBeforeStartAsWritten | GraphPainter.LastPiece |
| hist/histpainter/src/TGraphPainter.cxx:1389 | the bucket loop runs `ip < last`, so bin last is never collected | one pixel column, four bins with contents 1, 1, 1, 9: the column's line stays at the row of 1 and misses the row of 9 | every bin first..last is collected | not executed | GraphHist.LastBinLostAsWritten | GraphHist.LowResOf |
| hist/histpainter/src/TGraphPainter.cxx:1833-1841 | points outside the frame are skipped, yet PaintGraph receives all 2n slots of xline/yline | one point with y = -1, below a [0,1] frame: both slots handed over were never written | only the 2·(kept points) written slots form the band | not executed | ErrorBands.SkippedPointAsWritten | ErrorBands.AsymmBandOf |
| hist/histpainter/src/TGraphPainter.cxx:2089-2100 | points outside the frame are skipped, yet PaintGraph receives all `2*theNpoints` slots of xline/yline | one point at (0.5, 2.0), above a [0,1] frame: both slots handed over were never written | only the 2·(kept points) written slots form the band | not executed | ErrorBands.SkippedBentPointAsWritten | ErrorBands.BentBandOf |
