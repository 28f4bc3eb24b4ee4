/** PaintGraph: how a graph's points become paint calls. The option string
    selects the parts; each part fills the work arrays gxwork/gywork point
    by point and hands finished batches to gPad, to Smooth or to the
    hatching routine, which appear here as records of the trace. */
module GraphPainter {
  import opened Canvas

  // ---------------------------------------------------------------------
  // The option string.

  /** TString::ToUpper on one character (ASCII letters only). */
  function Upper(c: char): char {
    if 'a' <= c <= 'z' then (c as int - 32) as char else c
  }

  function UpperAll(s: string): (u: string)
    ensures |u| == |s| && forall i :: 0 <= i < |s| ==> u[i] == Upper(s[i])
  {
    seq(|s|, i requires 0 <= i < |s| => Upper(s[i]))
  }

  /** ReplaceAll("SAME", ""): occurrences are removed left to right and the
      search goes on after each removed one. */
  function DropSame(s: string): (r: string)
    ensures |r| <= |s|
    decreases |s|
  {
    if |s| == 0 then []
    else if |s| >= 4 && s[..4] == "SAME" then DropSame(s[4..])
    else [s[0]] + DropSame(s[1..])
  }

  /** A character of the option, in either case. */
  predicate Mentions(chopt: string, c: char) {
    exists i :: 0 <= i < |chopt| && Upper(chopt[i]) == c
  }

  /** Removing "SAME" never invents a character, and keeps every character
      that is not one of its letters. */
  lemma {:induction false} DropSameLetters(s: string, c: char)
    ensures c in DropSame(s) ==> c in s
    ensures c !in "SAME" ==> (c in DropSame(s) <==> c in s)
    decreases |s|
  {
    if |s| == 0 {
    } else if |s| >= 4 && s[..4] == "SAME" {
      DropSameLetters(s[4..], c);
      assert s == s[..4] + s[4..];
    } else {
      DropSameLetters(s[1..], c);
      assert s == [s[0]] + s[1..];
    }
  }

  /** A letter that "SAME" does not contain is seen iff the caller wrote
      it, in either case. */
  lemma OptionLetter(chopt: string, c: char)
    ensures c in DropSame(UpperAll(chopt)) ==> Mentions(chopt, c)
    ensures c !in "SAME" ==> (c in DropSame(UpperAll(chopt)) <==> Mentions(chopt, c))
  {
    var u := UpperAll(chopt);
    DropSameLetters(u, c);
    if c in u {
      var i :| 0 <= i < |u| && u[i] == c;
      assert Upper(chopt[i]) == c;
    }
    if Mentions(chopt, c) {
      var i :| 0 <= i < |chopt| && Upper(chopt[i]) == c;
      assert u[i] == c;
    }
  }

  datatype GraphOptions = GraphOptions(
    line: bool, axis: bool, curve: bool, star: bool, mark: bool, bar: bool,
    rotate: bool, one: bool, fill: bool, errors: bool, curveFill: bool)

  /** The option flags of PaintGraph, or None when a non-empty option asks
      for no drawing at all and the routine returns at once. "CF" turns the
      fill area into a filled smooth curve. */
  function DecodeOptions(chopt: string): (r: Option<GraphOptions>)
    ensures r.None? <==> chopt != "" && !Mentions(chopt, 'L') && !Mentions(chopt, 'F')
                         && !Mentions(chopt, 'C') && !Mentions(chopt, '*') && !Mentions(chopt, 'P')
                         && !Mentions(chopt, 'B') && !Mentions(chopt, '2')
                         && !Mentions(chopt, '3') && !Mentions(chopt, '4')
  {
    OptionLetter(chopt, 'L'); OptionLetter(chopt, 'C'); OptionLetter(chopt, '*');
    OptionLetter(chopt, 'P'); OptionLetter(chopt, 'B'); OptionLetter(chopt, 'F');
    OptionLetter(chopt, '2'); OptionLetter(chopt, '3'); OptionLetter(chopt, '4');
    var o := DropSame(UpperAll(chopt));
    var line, fill, curve := 'L' in o, 'F' in o, 'C' in o;
    var errors := '2' in o || '3' in o || '4' in o;
    if !(line || fill || curve || '*' in o || 'P' in o || 'B' in o || errors) && |chopt| != 0 then
      None
    else
      Some(GraphOptions(line || |chopt| == 0, 'A' in o, curve, '*' in o, 'P' in o, 'B' in o,
                        'R' in o, '1' in o, fill && !curve, errors, curve && fill))
  }

  /** Each flag is set exactly when its letter appears in the option, in
      either case and wherever "SAME" appears; only the axis flag, whose
      letter "SAME" contains, can be lost. */
  lemma DecodedFlags(chopt: string)
    requires DecodeOptions(chopt).Some?
    ensures var f := DecodeOptions(chopt).value;
      (f.line <==> Mentions(chopt, 'L') || chopt == "") &&
      (f.curve <==> Mentions(chopt, 'C')) &&
      (f.fill <==> Mentions(chopt, 'F') && !Mentions(chopt, 'C')) &&
      (f.curveFill <==> Mentions(chopt, 'F') && Mentions(chopt, 'C'))
    ensures var f := DecodeOptions(chopt).value;
      (f.star <==> Mentions(chopt, '*')) && (f.mark <==> Mentions(chopt, 'P')) &&
      (f.bar <==> Mentions(chopt, 'B')) && (f.rotate <==> Mentions(chopt, 'R')) &&
      (f.one <==> Mentions(chopt, '1')) && (f.axis ==> Mentions(chopt, 'A'))
  {
    OptionLetter(chopt, 'L'); OptionLetter(chopt, 'A'); OptionLetter(chopt, 'C');
    OptionLetter(chopt, '*'); OptionLetter(chopt, 'P'); OptionLetter(chopt, 'B');
    OptionLetter(chopt, 'R'); OptionLetter(chopt, '1'); OptionLetter(chopt, 'F');
  }

  /** "same" alone asks for no drawing: the routine returns at once. */
  lemma SameAloneDrawsNothing()
    ensures DecodeOptions("same").None?
  {
    assert UpperAll("same") == "SAME";
    assert DropSame("SAME") == [];
  }

  // ---------------------------------------------------------------------
  // Point batches.

  /** A batch of points, as the two coordinate lists gPad receives. */
  datatype Batch = Batch(xs: seq<real>, ys: seq<real>)

  /** The batch as gPad draws it: taken to log scale, with the axes swapped
      for option R. */
  function Drawn(pad: Pad, rotate: bool, b: Batch): (r: Batch)
    ensures |r.xs| == (if rotate then |b.ys| else |b.xs|)
    ensures |r.ys| == (if rotate then |b.xs| else |b.ys|)
    ensures !pad.logx && !pad.logy ==> r == (if rotate then Batch(b.ys, b.xs) else b)
  {
    var l := ComputeLogs(pad, 0, b.xs, b.ys);
    if rotate then Batch(l.1, l.0) else Batch(l.0, l.1)
  }

  /** What the line/fill part paints for a batch: a fill area with an
      optional border, or the hatched exclusion zone (line widths beyond
      99) followed by the polyline. */
  function LineFillCalls(pad: Pad, rotate: bool, fill: bool, lineWidth: int, border: bool,
                         b: Batch): (r: seq<PaintCall>)
    ensures 1 <= |r| <= 2 && (fill <==> r[0].FillArea?)
    ensures !fill ==> r[|r| - 1].PolyLine?
    ensures forall c :: c in r ==> !c.Box? && c.xs == Drawn(pad, rotate, b).xs && c.ys == Drawn(pad, rotate, b).ys
  {
    var d := Drawn(pad, rotate, b);
    if fill then [FillArea(d.xs, d.ys)] + (if border then [PolyLine(d.xs, d.ys)] else [])
    else (if Abs(lineWidth) > 99 then [Hatches(d.xs, d.ys)] else []) + [PolyLine(d.xs, d.ys)]
  }

  /** The line/fill loop. For a fill area that is not closed it runs one
      extra iteration, which copies the first point behind the last one
      without counting it: the batch painted is exactly the graph's points,
      closed or not. */
  method LineOrFill(pad: Pad, rotate: bool, fill: bool, lineWidth: int, border: bool,
                    x: seq<real>, y: seq<real>, npoints: int)
    returns (calls: seq<PaintCall>)
    requires 1 <= npoints <= |x| && npoints <= |y|
    ensures calls == LineFillCalls(pad, rotate, fill, lineWidth, border, Batch(x[..npoints], y[..npoints]))
  {
    var gxwork := new real[2 * npoints + 10];
    var gywork := new real[2 * npoints + 10];
    ghost var xs, ys := x[..npoints], y[..npoints];
    var nloop := npoints;
    if fill && (x[npoints - 1] != x[0] || y[npoints - 1] != y[0]) {
      nloop := nloop + 1;
    }
    var npt := 0;
    var i := 1;
    while i <= nloop
      invariant 1 <= i <= nloop + 1
      invariant npt == if i - 1 <= npoints then i - 1 else npoints
      invariant gxwork[..npt] == xs[..npt] && gywork[..npt] == ys[..npt]
    {
      if i > npoints {
        gxwork[npt], gywork[npt] := gxwork[0], gywork[0];
      } else {
        assert x[i - 1] == xs[i - 1] && y[i - 1] == ys[i - 1];
        assert xs[..npt + 1] == xs[..npt] + [xs[npt]] && ys[..npt + 1] == ys[..npt] + [ys[npt]];
        PutPoint(gxwork, gywork, npt, x[i - 1], y[i - 1]);
        npt := npt + 1;
      }
      i := i + 1;
    }
    // The last iteration (i == nloop) paints the batch.
    assert xs[..npt] == xs && ys[..npt] == ys;
    calls := LineFillCalls(pad, rotate, fill, lineWidth, border, Batch(gxwork[..npt], gywork[..npt]));
  }

  // ---------------------------------------------------------------------
  // The smooth curve, cut where it leaves the frame.

  /** The window of the marker and option R curve filters: the y range of
      the graph's histogram (or of the pad) and the x range of the frame. */
  datatype Window = Window(ymin: real, ymax: real, xmin: real, xmax: real)

  predicate InWindow(w: Window, px: real, py: real) {
    py >= w.ymin && py <= w.ymax && px >= w.xmin && px <= w.xmax
  }

  /** The points inside the window, in their order. */
  function Visible(xs: seq<real>, ys: seq<real>, w: Window): (r: Batch)
    requires |xs| == |ys|
    ensures |r.xs| == |r.ys| <= |xs|
    ensures forall m :: 0 <= m < |r.xs| ==> InWindow(w, r.xs[m], r.ys[m])
    decreases |xs|
  {
    if |xs| == 0 then Batch([], [])
    else
      var n := |xs| - 1;
      var r := Visible(xs[..n], ys[..n], w);
      if InWindow(w, xs[n], ys[n]) then Batch(r.xs + [xs[n]], r.ys + [ys[n]]) else r
  }

  /** No point inside the window is lost. */
  lemma {:induction false} VisibleComplete(xs: seq<real>, ys: seq<real>, w: Window, i: nat)
    requires |xs| == |ys| && i < |xs| && InWindow(w, xs[i], ys[i])
    ensures var r := Visible(xs, ys, w);
              exists m :: 0 <= m < |r.xs| && r.xs[m] == xs[i] && r.ys[m] == ys[i]
    decreases |xs|
  {
    var n := |xs| - 1;
    var r := Visible(xs[..n], ys[..n], w);
    if i < n {
      VisibleComplete(xs[..n], ys[..n], w, i);
      var m :| 0 <= m < |r.xs| && r.xs[m] == xs[i] && r.ys[m] == ys[i];
      assert Visible(xs, ys, w).xs[m] == xs[i] && Visible(xs, ys, w).ys[m] == ys[i];
    } else {
      assert Visible(xs, ys, w).xs[|r.xs|] == xs[i] && Visible(xs, ys, w).ys[|r.xs|] == ys[i];
    }
  }

  /** The points the curve part walks through: all of them, or with option
      R only those inside the window. */
  function Selected(rotate: bool, w: Window, xs: seq<real>, ys: seq<real>): (r: Batch)
    requires |xs| == |ys|
    ensures |r.xs| == |r.ys|
  {
    if rotate then Visible(xs, ys, w) else Batch(xs, ys)
  }

  /** The test that ends a curve piece: the new point, on log scale, is
      outside the frame's y range (x range with option R). */
  predicate Outside(pad: Pad, rotate: bool, px: real, py: real) {
    if rotate then
      var v := LogCoord(pad.logx, pad.log10, pad.x1, px);
      v < pad.uxmin || v > pad.uxmax
    else
      var v := LogCoord(pad.logy, pad.log10, pad.y1, py);
      v < pad.uymin || v > pad.uymax
  }

  /** The pieces handed to Smooth so far and the piece still open. */
  datatype Runs = Runs(done: seq<Batch>, open: Batch)

  /** One more point: it joins the open piece; when it is outside, the
      piece is handed on if it has more than two points, and a new piece
      starts at this point. */
  function Extend(pad: Pad, rotate: bool, r: Runs, px: real, py: real): Runs {
    var o := Batch(r.open.xs + [px], r.open.ys + [py]);
    if Outside(pad, rotate, px, py) then
      Runs(r.done + (if |o.xs| > 2 then [o] else []), Batch([px], [py]))
    else Runs(r.done, o)
  }

  function RunsOf(pad: Pad, rotate: bool, b: Batch): (r: Runs)
    requires |b.xs| == |b.ys|
    ensures |r.open.xs| == |r.open.ys| <= |b.xs|
    ensures |b.xs| >= 1 ==> |r.open.xs| >= 1
    decreases |b.xs|
  {
    if |b.xs| == 0 then Runs([], Batch([], []))
    else
      var n := |b.xs| - 1;
      Extend(pad, rotate, RunsOf(pad, rotate, Batch(b.xs[..n], b.ys[..n])), b.xs[n], b.ys[n])
  }

  /** The pieces of the curve: those cut at outside points, then the open
      one when it has at least two points. */
  function CurveBatches(pad: Pad, rotate: bool, b: Batch): seq<Batch>
    requires |b.xs| == |b.ys|
  {
    var r := RunsOf(pad, rotate, b);
    r.done + (if |r.open.xs| > 1 then [r.open] else [])
  }

  lemma RunsStep(pad: Pad, rotate: bool, b: Batch, px: real, py: real)
    requires |b.xs| == |b.ys|
    ensures RunsOf(pad, rotate, Batch(b.xs + [px], b.ys + [py])) == Extend(pad, rotate, RunsOf(pad, rotate, b), px, py)
  {
    assert (b.xs + [px])[..|b.xs|] == b.xs && (b.ys + [py])[..|b.ys|] == b.ys;
  }

  /** The draw type Smooth receives: 1 for a curve, 1001 for a filled one,
      plus 10 with option R. */
  function Drawtype(rotate: bool, curveFill: bool): int {
    1 + (if curveFill then 1000 else 0) + (if rotate then 10 else 0)
  }

  function SmoothCall(pad: Pad, drawtype: int, b: Batch): PaintCall {
    var l := ComputeLogs(pad, 0, b.xs, b.ys);
    SmoothCurve(l.0, l.1, drawtype)
  }

  function SmoothCalls(pad: Pad, drawtype: int, bs: seq<Batch>): (r: seq<PaintCall>)
    ensures |r| == |bs|
    ensures forall k :: 0 <= k < |bs| ==> r[k] == SmoothCall(pad, drawtype, bs[k])
  {
    seq(|bs|, k requires 0 <= k < |bs| => SmoothCall(pad, drawtype, bs[k]))
  }

  lemma SmoothCallsAppend(pad: Pad, drawtype: int, bs: seq<Batch>, cs: seq<Batch>)
    ensures SmoothCalls(pad, drawtype, bs + cs) == SmoothCalls(pad, drawtype, bs) + SmoothCalls(pad, drawtype, cs)
  {
  }

  /** Whether the curve part takes a point: always, or with option R when
      it is inside the window. */
  predicate Takes(rotate: bool, w: Window, px: real, py: real) {
    !rotate || InWindow(w, px, py)
  }

  /** Selecting one more raw point. */
  lemma SelectedStep(rotate: bool, w: Window, xs: seq<real>, ys: seq<real>, k: nat)
    requires |xs| == |ys| && k < |xs|
    ensures var s := Selected(rotate, w, xs[..k], ys[..k]);
            Selected(rotate, w, xs[..k + 1], ys[..k + 1]) ==
              if Takes(rotate, w, xs[k], ys[k]) then Batch(s.xs + [xs[k]], s.ys + [ys[k]]) else s
  {
    assert xs[..k + 1][..k] == xs[..k] && ys[..k + 1][..k] == ys[..k];
    assert xs[..k + 1] == xs[..k] + [xs[k]] && ys[..k + 1] == ys[..k] + [ys[k]];
  }

  /** The pieces after the first k raw points. */
  function CurveRuns(pad: Pad, rotate: bool, w: Window, xs: seq<real>, ys: seq<real>, k: nat): Runs
    requires |xs| == |ys| && k <= |xs|
  {
    RunsOf(pad, rotate, Selected(rotate, w, xs[..k], ys[..k]))
  }

  lemma CurveRunsAll(pad: Pad, rotate: bool, w: Window, xs: seq<real>, ys: seq<real>)
    requires |xs| == |ys|
    ensures CurveRuns(pad, rotate, w, xs, ys, |xs|) == RunsOf(pad, rotate, Selected(rotate, w, xs, ys))
  {
    assert xs[..|xs|] == xs && ys[..|ys|] == ys;
  }

  lemma CurveStep(pad: Pad, rotate: bool, w: Window, xs: seq<real>, ys: seq<real>, k: nat,
                  px: real, py: real)
    requires |xs| == |ys| && 1 <= k <= |xs| && px == xs[k - 1] && py == ys[k - 1]
    ensures Takes(rotate, w, px, py) ==>
              CurveRuns(pad, rotate, w, xs, ys, k) ==
              Extend(pad, rotate, CurveRuns(pad, rotate, w, xs, ys, k - 1), px, py)
    ensures !Takes(rotate, w, px, py) ==>
              CurveRuns(pad, rotate, w, xs, ys, k) == CurveRuns(pad, rotate, w, xs, ys, k - 1)
  {
    SelectedStep(rotate, w, xs, ys, k - 1);
    RunsStep(pad, rotate, Selected(rotate, w, xs[..k - 1], ys[..k - 1]), px, py);
  }

  /** The extra iteration of a filled curve that is not closed: the first
      point is copied behind the open piece without being counted, and the
      test on the last point is repeated, which keeps the piece as it is. */
  method RepeatLast(pad: Pad, rotate: bool, gxwork: array<real>, gywork: array<real>, npt: int)
    requires gxwork != gywork && 0 < npt < gxwork.Length && npt < gywork.Length
    requires npt >= 2 ==> !Outside(pad, rotate, gxwork[npt - 1], gywork[npt - 1])
    modifies gxwork, gywork
    ensures gxwork[..npt] == old(gxwork[..npt]) && gywork[..npt] == old(gywork[..npt])
  {
    gxwork[npt], gywork[npt] := gxwork[0], gywork[0];
    if Outside(pad, rotate, gxwork[npt - 1], gywork[npt - 1]) {
      PutPoint(gxwork, gywork, 0, gxwork[npt - 1], gywork[npt - 1]);
    }
  }

  /** One point joins the open piece in the work arrays (the body of the
      curve loop for a point it takes). */
  method Take(pad: Pad, rotate: bool, gxwork: array<real>, gywork: array<real>,
              npt: int, px: real, py: real, ghost r: Runs)
    returns (npt': int, emitted: seq<Batch>)
    requires gxwork != gywork && 0 <= npt < gxwork.Length && npt < gywork.Length
    requires npt == |r.open.xs| == |r.open.ys|
    requires gxwork[..npt] == r.open.xs && gywork[..npt] == r.open.ys
    modifies gxwork, gywork
    ensures var r' := Extend(pad, rotate, r, px, py);
              npt' == |r'.open.xs| == |r'.open.ys| && 1 <= npt' <= npt + 1 &&
              gxwork[..npt'] == r'.open.xs && gywork[..npt'] == r'.open.ys &&
              r.done + emitted == r'.done
  {
    PutPoint(gxwork, gywork, npt, px, py);
    npt' := npt + 1;
    emitted := [];
    if Outside(pad, rotate, gxwork[npt' - 1], gywork[npt' - 1]) {
      if npt' > 2 {
        emitted := [Batch(gxwork[..npt'], gywork[..npt'])];
      }
      PutPoint(gxwork, gywork, 0, px, py);
      npt' := 1;
    }
  }

  /** The open piece is the prefix of the work arrays. */
  predicate Holds(gxwork: array<real>, gywork: array<real>, npt: int, open: Batch)
    reads gxwork, gywork
  {
    0 <= npt <= gxwork.Length && npt <= gywork.Length && npt == |open.xs| == |open.ys| &&
    gxwork[..npt] == open.xs && gywork[..npt] == open.ys
  }

  /** The body of the curve loop for the raw point k: taken or skipped. */
  method Visit(pad: Pad, rotate: bool, w: Window, xs: seq<real>, ys: seq<real>, k: nat,
               gxwork: array<real>, gywork: array<real>, npt: int, ghost r: Runs)
    returns (npt': int, emitted: seq<Batch>)
    requires |xs| == |ys| && 1 <= k <= |xs| && r == CurveRuns(pad, rotate, w, xs, ys, k - 1)
    requires gxwork != gywork && 0 <= npt < gxwork.Length && npt < gywork.Length
    requires Holds(gxwork, gywork, npt, r.open)
    modifies gxwork, gywork
    ensures Holds(gxwork, gywork, npt', CurveRuns(pad, rotate, w, xs, ys, k).open) && npt' <= npt + 1
    ensures r.done + emitted == CurveRuns(pad, rotate, w, xs, ys, k).done
  {
    var px, py := xs[k - 1], ys[k - 1];
    CurveStep(pad, rotate, w, xs, ys, k, px, py);
    npt' := npt;
    emitted := [];
    if Takes(rotate, w, px, py) {
      npt', emitted := Take(pad, rotate, gxwork, gywork, npt, px, py, r);
    }
  }

  /** The curve loop over the graph's points, up to the extra iteration:
      it returns, in order, the pieces it hands to Smooth, and leaves the
      open piece in the work arrays. */
  method Walk(pad: Pad, rotate: bool, w: Window, xs: seq<real>, ys: seq<real>,
              npoints: int, gxwork: array<real>, gywork: array<real>)
    returns (npt: int, pieces: seq<Batch>)
    requires npoints == |xs| == |ys|
    requires gxwork != gywork && npoints < gxwork.Length && npoints < gywork.Length
    modifies gxwork, gywork
    ensures Holds(gxwork, gywork, npt, CurveRuns(pad, rotate, w, xs, ys, npoints).open) && npt <= npoints
    ensures pieces == CurveRuns(pad, rotate, w, xs, ys, npoints).done
  {
    assert xs[..0] == [] && ys[..0] == [];
    npt := 0;
    pieces := [];
    ghost var r := Runs([], Batch([], []));
    var i := 1;
    while i <= npoints
      invariant 1 <= i <= npoints + 1 && npt < i
      invariant r == CurveRuns(pad, rotate, w, xs, ys, i - 1)
      invariant Holds(gxwork, gywork, npt, r.open) && pieces == r.done
    {
      var emitted;
      npt, emitted := Visit(pad, rotate, w, xs, ys, i, gxwork, gywork, npt, r);
      pieces := pieces + emitted;
      r := CurveRuns(pad, rotate, w, xs, ys, i);
      i := i + 1;
    }
  }

  /** The Smooth calls of the curve part. */
  function CurveCalls(pad: Pad, rotate: bool, curveFill: bool, w: Window,
                      xs: seq<real>, ys: seq<real>): seq<PaintCall>
    requires |xs| == |ys|
  {
    SmoothCalls(pad, Drawtype(rotate, curveFill), CurveBatches(pad, rotate, Selected(rotate, w, xs, ys)))
  }

  /** The curve part. Without option R every point joins the open piece;
      with it, points outside the window are skipped. A point outside the
      frame closes the piece (handed to Smooth when it has more than two
      points) and opens the next one. A filled curve that is not closed
      gets one more iteration, for the first point; as it is not counted,
      that iteration only repeats the test on the last point, which changes
      nothing. It is skipped when no point was taken, see the findings. */
  method CurveSplit(pad: Pad, rotate: bool, curveFill: bool, w: Window,
                    x: seq<real>, y: seq<real>, npoints: int)
    returns (calls: seq<PaintCall>)
    requires 1 <= npoints <= |x| && npoints <= |y|
    ensures calls == CurveCalls(pad, rotate, curveFill, w, x[..npoints], y[..npoints])
  {
    var gxwork := new real[2 * npoints + 10];
    var gywork := new real[2 * npoints + 10];
    ghost var xs, ys := x[..npoints], y[..npoints];
    var drawtype := Drawtype(rotate, curveFill);
    var nloop := npoints;
    if curveFill && (x[npoints - 1] != x[0] || y[npoints - 1] != y[0]) {
      nloop := nloop + 1;
    }
    var npt, pieces := Walk(pad, rotate, w, x[..npoints], y[..npoints], npoints, gxwork, gywork);
    ghost var r := RunsOf(pad, rotate, Selected(rotate, w, xs, ys));
    CurveRunsAll(pad, rotate, w, xs, ys);
    RunsShape(pad, rotate, Selected(rotate, w, xs, ys));
    var last := LastPiece(pad, rotate, drawtype, nloop > npoints, gxwork, gywork, npt, r.open);
    calls := SmoothCalls(pad, drawtype, pieces) + last;
    SmoothCallsAppend(pad, drawtype, r.done, if npt > 1 then [r.open] else []);
    assert CurveBatches(pad, rotate, Selected(rotate, w, xs, ys)) == r.done + (if npt > 1 then [r.open] else []);
  }

  /** The end of the curve loop: the extra iteration i == npoints + 1 of a
      filled curve that is not closed, then the open piece handed to Smooth
      when it has at least two points. */
  method LastPiece(pad: Pad, rotate: bool, drawtype: int, repeat: bool,
                   gxwork: array<real>, gywork: array<real>, npt: int, ghost open: Batch)
    returns (last: seq<PaintCall>)
    requires gxwork != gywork && 0 <= npt < gxwork.Length && npt < gywork.Length
    requires npt == |open.xs| == |open.ys| && OpenInside(pad, rotate, open)
    requires gxwork[..npt] == open.xs && gywork[..npt] == open.ys
    modifies gxwork, gywork
    ensures last == SmoothCalls(pad, drawtype, if npt > 1 then [open] else [])
  {
    if repeat && npt > 0 {
      assert gxwork[npt - 1] == open.xs[npt - 1] && gywork[npt - 1] == open.ys[npt - 1];
      RepeatLast(pad, rotate, gxwork, gywork, npt);
    }
    last := [];
    if npt > 1 {
      last := [SmoothCall(pad, drawtype, Batch(gxwork[..npt], gywork[..npt]))];
    }
  }

  /** Every piece handed to Smooth has at least two points, and none of its
      points but the first and the last lies outside the frame. */
  predicate PieceInside(pad: Pad, rotate: bool, b: Batch) {
    |b.xs| == |b.ys| >= 2 &&
    forall m :: 0 < m < |b.xs| - 1 ==> !Outside(pad, rotate, b.xs[m], b.ys[m])
  }

  /** No point of the open piece but its first lies outside the frame. */
  predicate OpenInside(pad: Pad, rotate: bool, o: Batch)
    requires |o.xs| == |o.ys|
  {
    forall m :: 1 <= m < |o.xs| ==> !Outside(pad, rotate, o.xs[m], o.ys[m])
  }

  lemma {:induction false} RunsShape(pad: Pad, rotate: bool, b: Batch)
    requires |b.xs| == |b.ys|
    ensures forall k :: 0 <= k < |RunsOf(pad, rotate, b).done| ==>
              PieceInside(pad, rotate, RunsOf(pad, rotate, b).done[k])
    ensures OpenInside(pad, rotate, RunsOf(pad, rotate, b).open)
    decreases |b.xs|
  {
    if |b.xs| > 0 {
      var n := |b.xs| - 1;
      var prev := Batch(b.xs[..n], b.ys[..n]);
      RunsShape(pad, rotate, prev);
      var r := RunsOf(pad, rotate, prev);
      var px, py := b.xs[n], b.ys[n];
      assert RunsOf(pad, rotate, b) == Extend(pad, rotate, r, px, py);
      var o := Batch(r.open.xs + [px], r.open.ys + [py]);
      if Outside(pad, rotate, px, py) {
        if |o.xs| > 2 {
          forall m | 0 < m < |o.xs| - 1
            ensures !Outside(pad, rotate, o.xs[m], o.ys[m])
          {
            assert o.xs[m] == r.open.xs[m] && o.ys[m] == r.open.ys[m];
          }
          assert PieceInside(pad, rotate, o);
        }
      } else {
        forall m | 1 <= m < |o.xs|
          ensures !Outside(pad, rotate, o.xs[m], o.ys[m])
        {
          if m < |r.open.xs| {
            assert o.xs[m] == r.open.xs[m] && o.ys[m] == r.open.ys[m];
          }
        }
      }
    }
  }

  /** The pieces of the curve: each has at least two points and leaves the
      frame at most at its ends. */
  lemma CurvePiecesInside(pad: Pad, rotate: bool, b: Batch)
    requires |b.xs| == |b.ys|
    ensures forall k :: 0 <= k < |CurveBatches(pad, rotate, b)| ==>
              PieceInside(pad, rotate, CurveBatches(pad, rotate, b)[k])
  {
    RunsShape(pad, rotate, b);
    var r := RunsOf(pad, rotate, b);
    if |r.open.xs| > 1 {
      forall m | 0 < m < |r.open.xs| - 1
        ensures !Outside(pad, rotate, r.open.xs[m], r.open.ys[m])
      {
        assert 1 <= m < |r.open.xs|;
        assert |r.open.xs| == |r.open.ys|;
      }
      assert PieceInside(pad, rotate, r.open);
    }
  }

  lemma PrefixStep(s: seq<real>, k: nat)
    requires 1 <= k <= |s|
    ensures s[..k][..k - 1] == s[..k - 1] && s[..k - 1] + [s[k - 1]] == s[..k]
  {
  }

  lemma {:induction false} RunsInside(pad: Pad, rotate: bool, b: Batch, k: nat)
    requires |b.xs| == |b.ys| && k <= |b.xs|
    requires forall m :: 0 <= m < |b.xs| ==> !Outside(pad, rotate, b.xs[m], b.ys[m])
    ensures RunsOf(pad, rotate, Batch(b.xs[..k], b.ys[..k])) == Runs([], Batch(b.xs[..k], b.ys[..k]))
  {
    if k > 0 {
      RunsInside(pad, rotate, b, k - 1);
      var px, py := b.xs[k - 1], b.ys[k - 1];
      assert !Outside(pad, rotate, px, py);
      PrefixStep(b.xs, k);
      PrefixStep(b.ys, k);
    }
  }

  /** A curve that never leaves the frame is smoothed in one piece. */
  lemma CurveInsideOnePiece(pad: Pad, rotate: bool, b: Batch)
    requires |b.xs| == |b.ys| >= 2
    requires forall m :: 0 <= m < |b.xs| ==> !Outside(pad, rotate, b.xs[m], b.ys[m])
    ensures CurveBatches(pad, rotate, b) == [b]
  {
    RunsInside(pad, rotate, b, |b.xs|);
    assert b.xs[..|b.xs|] == b.xs && b.ys[..|b.ys|] == b.ys;
  }

  /** The slot the extra iteration of a filled curve tests as written:
      the last one of the open piece, even when the piece is empty. */
  function ExtraIterationSlotAsWritten(npt: int): int {
    npt - 1
  }

  /** With options "CFR", a graph that is not closed and whose points all
      lie outside the window leaves the open piece empty, so the extra
      iteration as written reads gxworkl[-1]. */
  lemma RotatedFilledCurveReadsBeforeStartAsWritten(pad: Pad)
    ensures var xs, ys, w := [0.0, 1.0], [0.0, 1.0], Window(2.0, 3.0, 0.0, 1.0);
            var r := RunsOf(pad, true, Selected(true, w, xs, ys));
              DecodeOptions("CFR").Some? && DecodeOptions("CFR").value.curveFill &&
              DecodeOptions("CFR").value.rotate &&
              xs[1] != xs[0] && |r.open.xs| == 0 && ExtraIterationSlotAsWritten(|r.open.xs|) == -1
  {
    var xs, ys, w := [0.0, 1.0], [0.0, 1.0], Window(2.0, 3.0, 0.0, 1.0);
    assert xs[..1] == [0.0] && ys[..1] == [0.0] && [0.0][..0] == [];
    assert Visible(xs, ys, w) == Batch([], []);
    assert UpperAll("CFR") == "CFR";
    assert DropSame("CFR") == "CFR";
    DecodedFlags("CFR");
    assert Mentions("CFR", 'C') && Mentions("CFR", 'F') && Mentions("CFR", 'R') by {
      assert Upper("CFR"[0]) == 'C' && Upper("CFR"[1]) == 'F' && Upper("CFR"[2]) == 'R';
    }
  }

  // ---------------------------------------------------------------------
  // Markers.

  /** The polymarker of the points inside the window. */
  function MarkerCall(pad: Pad, rotate: bool, w: Window, xs: seq<real>, ys: seq<real>): PaintCall
    requires |xs| == |ys|
  {
    var d := Drawn(pad, rotate, Visible(xs, ys, w));
    PolyMarker(d.xs, d.ys)
  }

  /** The '*' and 'P' parts: one polymarker over the points inside the
      window, painted at the last iteration (with no point at all when none
      is inside). */
  method Markers(pad: Pad, rotate: bool, w: Window, x: seq<real>, y: seq<real>, npoints: int)
    returns (call: PaintCall)
    requires 1 <= npoints <= |x| && npoints <= |y|
    ensures call == MarkerCall(pad, rotate, w, x[..npoints], y[..npoints])
  {
    var gxwork := new real[2 * npoints + 10];
    var gywork := new real[2 * npoints + 10];
    var xs, ys := x[..npoints], y[..npoints];
    var npt := Gather(w, xs, ys, gxwork, gywork);
    var d := Drawn(pad, rotate, Batch(gxwork[..npt], gywork[..npt]));
    call := PolyMarker(d.xs, d.ys);
  }

  lemma VisibleStep(xs: seq<real>, ys: seq<real>, w: Window, k: nat)
    requires |xs| == |ys| && 1 <= k <= |xs|
    ensures var v := Visible(xs[..k - 1], ys[..k - 1], w);
            Visible(xs[..k], ys[..k], w) ==
              if InWindow(w, xs[k - 1], ys[k - 1]) then Batch(v.xs + [xs[k - 1]], v.ys + [ys[k - 1]]) else v
  {
    assert xs[..k][..k - 1] == xs[..k - 1] && ys[..k][..k - 1] == ys[..k - 1];
  }

  /** The marker loop: the points inside the window go to the work arrays. */
  method Gather(w: Window, xs: seq<real>, ys: seq<real>, gxwork: array<real>, gywork: array<real>)
    returns (npt: int)
    requires |xs| == |ys| && gxwork != gywork && |xs| < gxwork.Length && |xs| < gywork.Length
    modifies gxwork, gywork
    ensures var v := Visible(xs, ys, w);
              npt == |v.xs| && gxwork[..npt] == v.xs && gywork[..npt] == v.ys
  {
    assert xs[..0] == [] && ys[..0] == [];
    npt := 0;
    ghost var v := Batch([], []);
    var i := 1;
    while i <= |xs|
      invariant 1 <= i <= |xs| + 1 && npt < i
      invariant v == Visible(xs[..i - 1], ys[..i - 1], w)
      invariant npt == |v.xs| && gxwork[..npt] == v.xs && gywork[..npt] == v.ys
    {
      VisibleStep(xs, ys, w, i);
      if InWindow(w, xs[i - 1], ys[i - 1]) {
        PutPoint(gxwork, gywork, npt, xs[i - 1], ys[i - 1]);
        npt := npt + 1;
      }
      v := Visible(xs[..i], ys[..i], w);
      i := i + 1;
    }
    assert xs[..|xs|] == xs && ys[..|ys|] == ys;
  }

  // ---------------------------------------------------------------------
  // Bars.

  /** The smallest value, found as the bar loop finds it. */
  function SeqMin(s: seq<real>): (m: real)
    requires |s| >= 1
    ensures m in s && forall k :: 0 <= k < |s| ==> m <= s[k]
  {
    if |s| == 1 then s[0]
    else
      var m := SeqMin(s[..|s| - 1]);
      assert forall k :: 0 <= k < |s| - 1 ==> s[..|s| - 1][k] == s[k];
      if s[|s| - 1] < m then s[|s| - 1] else m
  }

  function SeqMax(s: seq<real>): (m: real)
    requires |s| >= 1
    ensures m in s && forall k :: 0 <= k < |s| ==> s[k] <= m
  {
    if |s| == 1 then s[0]
    else
      var m := SeqMax(s[..|s| - 1]);
      assert forall k :: 0 <= k < |s| - 1 ==> s[..|s| - 1][k] == s[k];
      if s[|s| - 1] > m then s[|s| - 1] else m
  }

  lemma ExtentStep(s: seq<real>, i: nat)
    requires 1 <= i < |s|
    ensures SeqMin(s[..i + 1]) == (if s[i] < SeqMin(s[..i]) then s[i] else SeqMin(s[..i]))
    ensures SeqMax(s[..i + 1]) == (if s[i] > SeqMax(s[..i]) then s[i] else SeqMax(s[..i]))
  {
    assert s[..i + 1][..i] == s[..i];
  }

  /** The range of the bar positions (x, or y with option R). */
  method Extent(s: seq<real>) returns (lo: real, hi: real)
    requires |s| >= 1
    ensures lo == SeqMin(s) && hi == SeqMax(s)
  {
    lo, hi := s[0], s[0];
    var i := 1;
    while i < |s|
      invariant 1 <= i <= |s|
      invariant lo == SeqMin(s[..i]) && hi == SeqMax(s[..i])
    {
      ExtentStep(s, i);
      if s[i] < lo { lo := s[i]; }
      if s[i] > hi { hi := s[i]; }
      i := i + 1;
    }
    assert s[..|s|] == s;
  }

  /** Half the width of a bar: the range of the positions over the number
      of points, scaled by the style's bar width. */
  function BarHalfWidth(lo: real, hi: real, n: int, barWidth: real): (dbar: real)
    requires n >= 1
    ensures lo <= hi && barWidth >= 0.0 ==> dbar >= 0.0
  {
    var bdelta := (hi - lo) / (n as real);
    assert lo <= hi ==> bdelta >= 0.0;
    0.5 * bdelta * barWidth
  }

  /** The box of one upright bar, from the base to the value, or nothing
      when the bar crosses the frame's x range, lies wholly below the frame
      or wholly above it. Without option 1 the base is 0 (or the frame's
      bottom, when above 0). The box is clipped to the frame's y range. */
  function BarAt(pad: Pad, one: bool, uxmin: real, uxmax: real, dbar: real,
                 px: real, py: real): (r: seq<PaintCall>)
    ensures |r| <= 1
    ensures r != [] ==> r[0].Box? && uxmin <= px - dbar && px + dbar <= uxmax &&
                        pad.uymin <= r[0].y1 <= pad.uymax && pad.uymin <= r[0].y2 <= pad.uymax
    ensures r != [] && !pad.logx ==> r[0].x1 == px - dbar && r[0].x2 == px + dbar
    ensures r != [] && !pad.logy ==> r[0].y2 == RMin(py, pad.uymax)
    ensures (!pad.logy && px - dbar >= uxmin && px + dbar <= uxmax &&
             pad.uymin <= py && pad.uymin <= pad.uymax && (one || 0.0 <= pad.uymax)) ==> r != []
  {
    var xlow, xhigh := px - dbar, px + dbar;
    if xlow < uxmin || xhigh > uxmax then []
    else
      var ylow := if one then pad.uymin else RMax(0.0, pad.uymin);
      var y0 := LogCoord(pad.logy, pad.log10, pad.y1, ylow);
      var y1 := LogCoord(pad.logy, pad.log10, pad.y1, py);
      var y0c := if y0 < pad.uymin then pad.uymin else y0;
      if y1 < pad.uymin then []
      else
        var y1c := if y1 > pad.uymax then pad.uymax else y1;
        if y0c > pad.uymax then []
        else [Box(LogCoord(pad.logx, pad.log10, pad.x1, xlow), y0c,
                  LogCoord(pad.logx, pad.log10, pad.x1, xhigh), y1c)]
  }

  /** The box of one bar drawn with option R: from the frame's left edge
      (or 0, when the frame starts below 0) to the value, across the y
      position; it is not clipped. */
  function RotatedBarAt(pad: Pad, dbar: real, px: real, py: real): (r: PaintCall)
    ensures r.Box?
    ensures !pad.logx && !pad.logy ==>
              r == Box(RMax(0.0, pad.uxmin), py - dbar, px, py + dbar)
  {
    Box(LogCoord(pad.logx, pad.log10, pad.x1, RMax(0.0, pad.uxmin)),
        LogCoord(pad.logy, pad.log10, pad.y1, py - dbar),
        LogCoord(pad.logx, pad.log10, pad.x1, px),
        LogCoord(pad.logy, pad.log10, pad.y1, py + dbar))
  }

  /** The bars of the points, in their order. */
  function BarCalls(pad: Pad, rotate: bool, one: bool, uxmin: real, uxmax: real, dbar: real,
                    xs: seq<real>, ys: seq<real>): (r: seq<PaintCall>)
    requires |xs| == |ys|
    ensures |r| <= |xs| && (rotate ==> |r| == |xs|)
    decreases |xs|
  {
    if |xs| == 0 then []
    else
      var n := |xs| - 1;
      BarCalls(pad, rotate, one, uxmin, uxmax, dbar, xs[..n], ys[..n]) +
      (if rotate then [RotatedBarAt(pad, dbar, xs[n], ys[n])]
       else BarAt(pad, one, uxmin, uxmax, dbar, xs[n], ys[n]))
  }

  /** Without option R every bar painted lies within the frame's y range. */
  lemma {:induction false} BarsInFrame(pad: Pad, one: bool, uxmin: real, uxmax: real, dbar: real,
                                       xs: seq<real>, ys: seq<real>)
    requires |xs| == |ys|
    ensures forall c :: c in BarCalls(pad, false, one, uxmin, uxmax, dbar, xs, ys) ==>
              c.Box? && pad.uymin <= c.y1 <= pad.uymax && pad.uymin <= c.y2 <= pad.uymax
    decreases |xs|
  {
    if |xs| > 0 {
      var n := |xs| - 1;
      BarsInFrame(pad, one, uxmin, uxmax, dbar, xs[..n], ys[..n]);
    }
  }

  lemma BarStep(pad: Pad, rotate: bool, one: bool, uxmin: real, uxmax: real, dbar: real,
                xs: seq<real>, ys: seq<real>, k: nat)
    requires |xs| == |ys| && 1 <= k <= |xs|
    ensures BarCalls(pad, rotate, one, uxmin, uxmax, dbar, xs[..k], ys[..k]) ==
              BarCalls(pad, rotate, one, uxmin, uxmax, dbar, xs[..k - 1], ys[..k - 1]) +
              (if rotate then [RotatedBarAt(pad, dbar, xs[k - 1], ys[k - 1])]
               else BarAt(pad, one, uxmin, uxmax, dbar, xs[k - 1], ys[k - 1]))
  {
    assert xs[..k][..k - 1] == xs[..k - 1] && ys[..k][..k - 1] == ys[..k - 1];
  }

  /** The bars, half as wide as the range of the positions over their
      number, scaled by the style's bar width. */
  function BarsOf(pad: Pad, rotate: bool, one: bool, barWidth: real, uxmin: real, uxmax: real,
                  xs: seq<real>, ys: seq<real>): seq<PaintCall>
    requires |xs| == |ys| >= 1
  {
    var s := if rotate then ys else xs;
    BarCalls(pad, rotate, one, uxmin, uxmax, BarHalfWidth(SeqMin(s), SeqMax(s), |xs|, barWidth), xs, ys)
  }

  /** The bar part. */
  method Bars(pad: Pad, rotate: bool, one: bool, barWidth: real, uxmin: real, uxmax: real,
              x: seq<real>, y: seq<real>, npoints: int)
    returns (calls: seq<PaintCall>)
    requires 1 <= npoints <= |x| && npoints <= |y|
    ensures calls == BarsOf(pad, rotate, one, barWidth, uxmin, uxmax, x[..npoints], y[..npoints])
  {
    var xs, ys := x[..npoints], y[..npoints];
    var lo, hi := Extent(if rotate then ys else xs);
    var dbar := BarHalfWidth(lo, hi, npoints, barWidth);
    calls := BarLoop(pad, rotate, one, uxmin, uxmax, dbar, xs, ys);
  }

  /** The loop of the bar part, one bar per point. */
  method BarLoop(pad: Pad, rotate: bool, one: bool, uxmin: real, uxmax: real, dbar: real,
                 xs: seq<real>, ys: seq<real>)
    returns (calls: seq<PaintCall>)
    requires |xs| == |ys|
    ensures calls == BarCalls(pad, rotate, one, uxmin, uxmax, dbar, xs, ys)
  {
    assert xs[..0] == [] && ys[..0] == [];
    calls := [];
    var i := 1;
    while i <= |xs|
      invariant 1 <= i <= |xs| + 1
      invariant calls == BarCalls(pad, rotate, one, uxmin, uxmax, dbar, xs[..i - 1], ys[..i - 1])
    {
      BarStep(pad, rotate, one, uxmin, uxmax, dbar, xs, ys, i);
      if rotate {
        calls := calls + [RotatedBarAt(pad, dbar, xs[i - 1], ys[i - 1])];
      } else {
        calls := calls + BarAt(pad, one, uxmin, uxmax, dbar, xs[i - 1], ys[i - 1]);
      }
      i := i + 1;
    }
    assert xs[..|xs|] == xs && ys[..|ys|] == ys;
  }

  // ---------------------------------------------------------------------
  // The whole routine.

  /** The window of the marker and option R filters: the y range is the
      histogram's minimum and maximum when the graph has a histogram, else
      the frame's; the x range is the frame's, in user coordinates. */
  function GraphWindow(pad: Pad, hist: Option<(real, real)>): Window {
    Window(if hist.Some? then hist.value.0 else pad.padtoY(pad.uymin),
           if hist.Some? then hist.value.1 else pad.padtoY(pad.uymax),
           pad.padtoX(pad.uxmin), pad.padtoX(pad.uxmax))
  }

  /** What PaintGraph paints for the options o, in this order: the line or
      fill area, the smooth curve pieces, the '*' markers, the 'P' markers
      and the bars. */
  function GraphCalls(pad: Pad, o: GraphOptions, w: Window, lineWidth: int, border: bool,
                      barWidth: real, xs: seq<real>, ys: seq<real>): seq<PaintCall>
    requires |xs| == |ys| >= 1
  {
    LineParts(pad, o, w, lineWidth, border, xs, ys) + PointParts(pad, o, w, barWidth, xs, ys)
  }

  /** The parts drawn through the points: the line or fill area, then the
      smooth curve. */
  function LineParts(pad: Pad, o: GraphOptions, w: Window, lineWidth: int, border: bool,
                     xs: seq<real>, ys: seq<real>): seq<PaintCall>
    requires |xs| == |ys|
  {
    (if o.line || o.fill then LineFillCalls(pad, o.rotate, o.fill, lineWidth, border, Batch(xs, ys))
     else []) +
    (if o.curve then CurveCalls(pad, o.rotate, o.curveFill, w, xs, ys) else [])
  }

  /** The parts drawn at the points: the '*' markers, the 'P' markers, then
      the bars. */
  function PointParts(pad: Pad, o: GraphOptions, w: Window, barWidth: real,
                      xs: seq<real>, ys: seq<real>): seq<PaintCall>
    requires |xs| == |ys| >= 1
  {
    (if o.star then [MarkerCall(pad, o.rotate, w, xs, ys)] else []) +
    (if o.mark then [MarkerCall(pad, o.rotate, w, xs, ys)] else []) +
    (if o.bar then BarsOf(pad, o.rotate, o.one, barWidth, w.xmin, w.xmax, xs, ys) else [])
  }

  method PaintLines(pad: Pad, o: GraphOptions, w: Window, lineWidth: int, border: bool,
                    x: seq<real>, y: seq<real>, npoints: int)
    returns (calls: seq<PaintCall>)
    requires 1 <= npoints <= |x| && npoints <= |y|
    ensures calls == LineParts(pad, o, w, lineWidth, border, x[..npoints], y[..npoints])
  {
    var lineFill, curve := [], [];
    if o.line || o.fill {
      lineFill := LineOrFill(pad, o.rotate, o.fill, lineWidth, border, x, y, npoints);
    }
    if o.curve {
      curve := CurveSplit(pad, o.rotate, o.curveFill, w, x, y, npoints);
    }
    calls := lineFill + curve;
  }

  method PaintPoints(pad: Pad, o: GraphOptions, w: Window, barWidth: real,
                     x: seq<real>, y: seq<real>, npoints: int)
    returns (calls: seq<PaintCall>)
    requires 1 <= npoints <= |x| && npoints <= |y|
    ensures calls == PointParts(pad, o, w, barWidth, x[..npoints], y[..npoints])
  {
    var star, mark, bars := [], [], [];
    if o.star {
      var c := Markers(pad, o.rotate, w, x, y, npoints);
      star := [c];
    }
    if o.mark {
      var c := Markers(pad, o.rotate, w, x, y, npoints);
      mark := [c];
    }
    if o.bar {
      bars := Bars(pad, o.rotate, o.one, barWidth, w.xmin, w.xmax, x, y, npoints);
    }
    calls := star + mark + bars;
  }

  /** PaintGraph: nothing for an empty graph or an option asking for no
      drawing, otherwise the parts the options select. */
  method PaintGraph(pad: Pad, chopt: string, x: seq<real>, y: seq<real>, npoints: int,
                    lineWidth: int, border: bool, barWidth: real, hist: Option<(real, real)>)
    returns (calls: seq<PaintCall>)
    requires npoints <= |x| && npoints <= |y|
    ensures npoints <= 0 || DecodeOptions(chopt).None? ==> calls == []
    ensures npoints >= 1 && DecodeOptions(chopt).Some? ==>
              calls == GraphCalls(pad, DecodeOptions(chopt).value, GraphWindow(pad, hist),
                                  lineWidth, border, barWidth, x[..npoints], y[..npoints])
  {
    calls := [];
    if npoints <= 0 {
      return;
    }
    var opt := DecodeOptions(chopt);
    if opt.None? {
      return;
    }
    var o, w := opt.value, GraphWindow(pad, hist);
    var lines := PaintLines(pad, o, w, lineWidth, border, x, y, npoints);
    var points := PaintPoints(pad, o, w, barWidth, x, y, npoints);
    calls := lines + points;
  }
}
