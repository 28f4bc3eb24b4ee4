/** PaintGrapHist: a graph drawn as a histogram. The bins are either
    equidistant between x[0] and x[1], or (option N) given by the npoints+1
    edges x[0..npoints]; y[j-1] is the content of bin j. Only the
    unrotated forms are modelled. */
module GraphHist {
  import opened Canvas
  import opened GraphPainter

  // ---------------------------------------------------------------------
  // Options.

  /** An upper-cased option string contains c exactly when the caller wrote
      c in either case. */
  lemma UpperMentions(chopt: string, c: char)
    ensures c in UpperAll(chopt) <==> Mentions(chopt, c)
  {
    var u := UpperAll(chopt);
    if c in u {
      var i :| 0 <= i < |u| && u[i] == c;
      assert Upper(chopt[i]) == c;
    }
    if Mentions(chopt, c) {
      var i :| 0 <= i < |chopt| && Upper(chopt[i]) == c;
      assert u[i] == c;
    }
  }

  /** The two characters a, b appear next to each other in s. */
  predicate HasPair(s: string, a: char, b: char) {
    exists i :: 0 <= i < |s| - 1 && s[i] == a && s[i + 1] == b
  }

  /** The same for the pair "][", which upper-casing leaves alone. */
  lemma UpperPair(chopt: string)
    ensures HasPair(UpperAll(chopt), ']', '[') <==> HasPair(chopt, ']', '[')
  {
    var u := UpperAll(chopt);
    if HasPair(u, ']', '[') {
      var i :| 0 <= i < |u| - 1 && u[i] == ']' && u[i + 1] == '[';
      assert Upper(chopt[i]) == ']' && Upper(chopt[i + 1]) == '[';
    }
    if HasPair(chopt, ']', '[') {
      var i :| 0 <= i < |chopt| - 1 && chopt[i] == ']' && chopt[i + 1] == '[';
      assert u[i] == ']' && u[i + 1] == '[';
    }
  }

  datatype HistOptions = HistOptions(
    hist: bool, fill: bool, curve: bool, star: bool, rotate: bool, one: bool,
    bar: bool, bins: bool, line: bool, mark: bool, axis: bool, off: bool,
    fill2: bool, highRes: bool)

  /** The option flags of PaintGrapHist, read from the upper-cased option
      string. An empty option draws the plain histogram; "F" together with
      "2" trades the fill area for the fill2 mode; "9" forces the high
      resolution. */
  function DecodeHistOptions(chopt: string): (r: HistOptions)
    ensures r.hist <==> Mentions(chopt, 'H') || chopt == ""
    ensures r.fill <==> Mentions(chopt, 'F') && !Mentions(chopt, '2')
    ensures r.fill2 <==> Mentions(chopt, 'F') && Mentions(chopt, '2')
    ensures r.curve <==> Mentions(chopt, 'C')
    ensures r.star <==> Mentions(chopt, '*')
    ensures r.rotate <==> Mentions(chopt, 'R')
    ensures r.one <==> Mentions(chopt, '1')
    ensures r.bar <==> Mentions(chopt, 'B')
    ensures r.bins <==> Mentions(chopt, 'N')
    ensures r.line <==> Mentions(chopt, 'L')
    ensures r.mark <==> Mentions(chopt, 'P')
    ensures r.axis <==> Mentions(chopt, 'A')
    ensures r.highRes <==> Mentions(chopt, '9')
    ensures r.off <==> HasPair(chopt, ']', '[')
  {
    UpperMentions(chopt, 'H'); UpperMentions(chopt, 'F'); UpperMentions(chopt, 'C');
    UpperMentions(chopt, '*'); UpperMentions(chopt, 'R'); UpperMentions(chopt, '1');
    UpperMentions(chopt, 'B'); UpperMentions(chopt, 'N'); UpperMentions(chopt, 'L');
    UpperMentions(chopt, 'P'); UpperMentions(chopt, 'A'); UpperMentions(chopt, '2');
    UpperMentions(chopt, '9');
    UpperPair(chopt);
    var u := UpperAll(chopt);
    var fill2 := 'F' in u && '2' in u;
    HistOptions('H' in u || |chopt| == 0, 'F' in u && !fill2, 'C' in u, '*' in u,
                'R' in u, '1' in u, 'B' in u, 'N' in u, 'L' in u, 'P' in u, 'A' in u,
                HasPair(u, ']', '['), fill2, '9' in u)
  }

  // ---------------------------------------------------------------------
  // The step outline.

  /** Why a pass over the bins with option N stops: an edge below its
      predecessor, or (at the last edge) too few edges supplied. */
  datatype HistError = NotIncreasing | MissingEdge

  datatype Result<T> = Ok(value: T) | Err(error: HistError)

  /** What one pass over the bins works with: the bin layout, the user
      range of x with its rounding allowance, and the lower-left corner
      inside the frame line. */
  datatype Frame = Frame(
    bins: bool, wmin: real, delta: real, last: int,
    uxmin: real, uxmax: real, rounding: real, vxmin: real, vymin: real)

  /** The frame of a call: x[0] and x[1] bound the equidistant bins, the
      frame line is dxframe wide and dyframe high (both measured through
      pixel conversions the model takes as given). */
  function HistFrame(pad: Pad, bins: bool, x: seq<real>, npoints: int,
                     dxframe: real, dyframe: real): (f: Frame)
    requires |x| >= 2 && npoints >= 1
    ensures f.bins == bins && f.last == npoints && f.wmin == x[0]
    ensures !bins ==> f.wmin + (npoints as real) * f.delta == x[1]
    ensures f.vxmin >= f.wmin && f.vymin == pad.uymin + dyframe
    ensures f.uxmax - f.uxmin >= 0.0 ==> f.rounding >= 0.0
  {
    var uxmin := pad.padtoX(pad.uxmin);
    var uxmax := pad.padtoX(pad.uxmax);
    Frame(bins, x[0], if bins then 0.0 else (x[1] - x[0]) / (npoints as real), npoints,
          uxmin, uxmax, (uxmax - uxmin) / 100000.0,
          RMax(pad.padtoX(pad.uxmin + dxframe), x[0]), pad.uymin + dyframe)
  }

  /** The content of bin j as drawn: never below the frame line. */
  function Tread(f: Frame, y: seq<real>, j: int): real
    requires 1 <= j <= |y|
  {
    if y[j - 1] < f.vymin then f.vymin else y[j - 1]
  }

  /** The left end of bin j's tread: its lower edge, or with equidistant
      bins the end of the outline so far. */
  function StepLeft(f: Frame, x: seq<real>, j: int, end: real): real
    requires f.bins ==> 1 <= j < |x|
  {
    if f.bins then x[j - 1] else end
  }

  /** The right end of bin j's tread: its upper edge; an equidistant fill
      area never reaches left of its start. */
  function StepRight(f: Frame, fill: bool, x: seq<real>, j: int, start: real): real
    requires f.bins ==> 1 <= j < |x|
  {
    var right := if f.bins then x[j] else f.wmin + (j as real) * f.delta;
    if fill && !f.bins && right < start then start else right
  }

  /** Bin j added to the outline p: its step (left, h), (right, h) is
      appended when it lies inside the user range, and otherwise the last
      point is moved to the bin's right edge (at most uxmax). With option
      N the edges are checked first. */
  function StepAt(f: Frame, fill: bool, p: Batch, x: seq<real>, y: seq<real>, j: int): (r: Result<Batch>)
    requires 1 <= |p.xs| == |p.ys|
    requires 1 <= j <= |y| && (f.bins ==> j < |x|)
    ensures r.Err? <==> f.bins && x[j] < x[j - 1]
    ensures r.Err? ==> r.error == (if j == f.last then MissingEdge else NotIncreasing)
    ensures r.Ok? ==> |r.value.xs| == |r.value.ys|
    ensures r.Ok? ==> |r.value.xs| == |p.xs| + 2 || |r.value.xs| == |p.xs|
  {
    if f.bins && x[j] < x[j - 1] then
      Err(if j != f.last then NotIncreasing else MissingEdge)
    else
      var n := |p.xs|;
      var left := StepLeft(f, x, j, p.xs[n - 1]);
      var right := StepRight(f, fill, x, j, p.xs[0]);
      var h := Tread(f, y, j);
      if left >= f.uxmin - f.rounding && right <= f.uxmax + f.rounding then
        Ok(Batch(p.xs + [left, right], p.ys + [h, h]))
      else
        Ok(Batch(p.xs[n - 1 := RMin(right, f.uxmax)], p.ys))
  }

  /** A kept bin appends its tread and leaves the outline before it alone;
      a dropped bin changes only the last point, which stays at most
      uxmax. */
  lemma StepShape(f: Frame, fill: bool, p: Batch, x: seq<real>, y: seq<real>, j: int)
    requires 1 <= |p.xs| == |p.ys|
    requires 1 <= j <= |y| && (f.bins ==> j < |x|)
    requires StepAt(f, fill, p, x, y, j).Ok?
    ensures var q := StepAt(f, fill, p, x, y, j).value;
      |q.xs| == |p.xs| + 2 ==>
        q.xs[..|p.xs|] == p.xs && q.ys[..|p.ys|] == p.ys &&
        q.xs[|p.xs|] >= f.uxmin - f.rounding && q.xs[|p.xs| + 1] <= f.uxmax + f.rounding &&
        q.ys[|p.xs|] == q.ys[|p.xs| + 1] == Tread(f, y, j)
    ensures var q := StepAt(f, fill, p, x, y, j).value;
      |q.xs| != |p.xs| + 2 ==>
        |q.xs| == |p.xs| && q.ys == p.ys &&
        q.xs[..|p.xs| - 1] == p.xs[..|p.xs| - 1] && q.xs[|p.xs| - 1] <= f.uxmax
  {
  }

  /** The outline after bins 1..k, from the start point, or the error of
      the first bad edge. */
  function Outlined(f: Frame, fill: bool, start: Batch, x: seq<real>, y: seq<real>, k: nat): (r: Result<Batch>)
    requires |start.xs| == |start.ys| == 1
    requires k <= |y| && (f.bins ==> k < |x|)
    ensures r.Ok? ==> 1 <= |r.value.xs| == |r.value.ys|
    decreases k
  {
    if k == 0 then Ok(start)
    else
      match Outlined(f, fill, start, x, y, k - 1)
      case Err(e) => Err(e)
      case Ok(p) => StepAt(f, fill, p, x, y, k)
  }

  /** The outline closed after the last bin: a point under the last edge
      at the start height, then the start kept inside the frame line (its
      first step moves with it). */
  function Closing(f: Frame, p: Batch): (q: Batch)
    requires 1 <= |p.xs| == |p.ys|
    ensures |q.xs| == |q.ys| == |p.xs| + 1
  {
    var n := |p.xs|;
    var xs := p.xs + [p.xs[n - 1]];
    var ys := p.ys + [p.ys[0]];
    var xs' := if xs[0] < f.vxmin then xs[0 := f.vxmin][1 := f.vxmin] else xs;
    var ys' := if ys[0] < f.vymin then ys[0 := f.vymin][n := f.vymin] else ys;
    Batch(xs', ys')
  }

  /** Each kept bin adds a step of two points to the start point, so the
      outline after k bins has an odd size of at most 2k+1. */
  lemma {:induction false} OutlinedSize(f: Frame, fill: bool, start: Batch, x: seq<real>, y: seq<real>, k: nat)
    requires |start.xs| == |start.ys| == 1
    requires k <= |y| && (f.bins ==> k < |x|)
    ensures var r := Outlined(f, fill, start, x, y, k);
            r.Ok? ==> |r.value.xs| <= 2 * k + 1 && |r.value.xs| % 2 == 1
    decreases k
  {
    if k > 0 {
      OutlinedSize(f, fill, start, x, y, k - 1);
      var r := Outlined(f, fill, start, x, y, k - 1);
      if r.Ok? {
        var n := |r.value.xs|;
        var q := StepAt(f, fill, r.value, x, y, k);
        assert Outlined(f, fill, start, x, y, k) == q;
        if q.Ok? && |q.value.xs| != n {
          assert |q.value.xs| == n + 2 && (n + 2) % 2 == n % 2;
        }
      }
    }
  }

  /** The closed polygon has an even size of at most 2 last + 2. */
  lemma PolygonSize(f: Frame, fill: bool, start: Batch, x: seq<real>, y: seq<real>)
    requires |start.xs| == |start.ys| == 1
    requires 1 <= f.last <= |y| && (f.bins ==> f.last < |x|)
    ensures var r := Polygon(f, fill, start, x, y);
            r.Ok? ==> |r.value.xs| <= 2 * f.last + 2 && |r.value.xs| % 2 == 0
  {
    OutlinedSize(f, fill, start, x, y, f.last);
  }

  /** The closing point is under the last edge at the start height; the
      start is raised to the frame line, and its first step with it. */
  lemma ClosingShape(f: Frame, p: Batch)
    requires 1 <= |p.xs| == |p.ys|
    ensures var q := Closing(f, p);
            q.xs[0] == RMax(p.xs[0], f.vxmin) && q.ys[0] == RMax(p.ys[0], f.vymin) &&
            q.ys[|p.xs|] == q.ys[0] && q.ys[1..|p.xs|] == p.ys[1..] &&
            (|p.xs| >= 2 ==> q.xs[2..] == p.xs[2..] + [p.xs[|p.xs| - 1]])
  {
  }

  /** The closed polygon of all bins, or the first edge error. */
  function Polygon(f: Frame, fill: bool, start: Batch, x: seq<real>, y: seq<real>): (r: Result<Batch>)
    requires |start.xs| == |start.ys| == 1
    requires 1 <= f.last <= |y| && (f.bins ==> f.last < |x|)
    ensures r.Ok? ==> 2 <= |r.value.xs| == |r.value.ys|
  {
    match Outlined(f, fill, start, x, y, f.last)
    case Err(e) => Err(e)
    case Ok(p) => Ok(Closing(f, p))
  }

  /** The edges x[0..k] never decrease. */
  predicate EdgesRise(x: seq<real>, k: int)
    requires k < |x|
  {
    forall j :: 1 <= j <= k ==> x[j - 1] <= x[j]
  }

  /** With option N the pass fails exactly when an edge decreases; the
      error names the first such edge: a missing edge when it is the last
      one. Equidistant bins never fail. */
  lemma {:induction false} OutlineFails(f: Frame, fill: bool, start: Batch, x: seq<real>, y: seq<real>, k: nat)
    requires |start.xs| == |start.ys| == 1
    requires k <= |y| && (f.bins ==> k < |x|)
    ensures Outlined(f, fill, start, x, y, k).Err? <==> f.bins && !EdgesRise(x, k)
    ensures Outlined(f, fill, start, x, y, k).Err? ==>
              exists j :: 1 <= j <= k && x[j] < x[j - 1] && EdgesRise(x, j - 1) &&
                Outlined(f, fill, start, x, y, k).error == (if j == f.last then MissingEdge else NotIncreasing)
    decreases k
  {
    if k > 0 {
      OutlineFails(f, fill, start, x, y, k - 1);
      if f.bins && EdgesRise(x, k - 1) && x[k - 1] <= x[k] {
        assert EdgesRise(x, k);
      }
    }
  }

  /** Every step of the outline: a horizontal tread at or above the frame
      line, whose left end is inside the user range and whose right end is
      at most uxmax, each up to the rounding allowance. */
  predicate StepsInside(f: Frame, b: Batch) {
    forall i :: 1 <= i < |b.xs| - 1 && i < |b.ys| - 1 && i % 2 == 1 ==> StepInsideAt(f, b, i)
  }

  /** The step that starts at the odd slot i: a horizontal tread at or
      above the frame line, its ends inside the user range up to the
      rounding allowance. */
  predicate StepInsideAt(f: Frame, b: Batch, i: int)
    requires 1 <= i < |b.xs| - 1 && i < |b.ys| - 1
  {
    b.ys[i] == b.ys[i + 1] >= f.vymin &&
    b.xs[i] >= f.uxmin - f.rounding && b.xs[i + 1] <= f.uxmax + f.rounding
  }

  lemma StepsInsideAt(f: Frame, b: Batch, i: int)
    requires StepsInside(f, b) && 1 <= i < |b.xs| - 1 && i < |b.ys| - 1 && i % 2 == 1
    ensures StepInsideAt(f, b, i)
  {
  }

  /** A kept bin appends a step inside the frame to the steps before it. */
  lemma KeptStepInside(f: Frame, p: Batch, q: Batch)
    requires 1 <= |p.xs| == |p.ys| && |p.xs| % 2 == 1 && StepsInside(f, p)
    requires |q.xs| == |q.ys| == |p.xs| + 2
    requires q.xs[..|p.xs|] == p.xs && q.ys[..|p.ys|] == p.ys
    requires q.xs[|p.xs|] >= f.uxmin - f.rounding && q.xs[|p.xs| + 1] <= f.uxmax + f.rounding
    requires q.ys[|p.xs|] == q.ys[|p.xs| + 1] >= f.vymin
    ensures StepsInside(f, q)
  {
    var n := |p.xs|;
    forall i | 1 <= i < |q.xs| - 1 && i < |q.ys| - 1 && i % 2 == 1
      ensures StepInsideAt(f, q, i)
    {
      if i < n - 1 {
        StepsInsideAt(f, p, i);
        assert q.xs[..n][i] == q.xs[i] && q.xs[..n][i + 1] == q.xs[i + 1];
        assert q.ys[..n][i] == q.ys[i] && q.ys[..n][i + 1] == q.ys[i + 1];
      } else {
        assert i == n;
      }
    }
  }

  /** A dropped bin only lowers the last point to at most uxmax. */
  lemma DroppedStepInside(f: Frame, p: Batch, q: Batch)
    requires 1 <= |p.xs| == |p.ys| && |p.xs| % 2 == 1 && StepsInside(f, p) && f.rounding >= 0.0
    requires |q.xs| == |p.xs| && q.ys == p.ys
    requires q.xs[..|p.xs| - 1] == p.xs[..|p.xs| - 1] && q.xs[|p.xs| - 1] <= f.uxmax
    ensures StepsInside(f, q)
  {
    var n := |p.xs|;
    forall i | 1 <= i < |q.xs| - 1 && i < |q.ys| - 1 && i % 2 == 1
      ensures StepInsideAt(f, q, i)
    {
      StepsInsideAt(f, p, i);
      assert q.xs[i] == p.xs[i];
      if i + 1 < n - 1 {
        assert q.xs[i + 1] == p.xs[i + 1];
      }
    }
  }

  /** One bin keeps every step of an odd-sized outline inside. */
  lemma StepKeepsSteps(f: Frame, fill: bool, p: Batch, x: seq<real>, y: seq<real>, j: int)
    requires 1 <= |p.xs| == |p.ys| && |p.xs| % 2 == 1 && f.rounding >= 0.0
    requires 1 <= j <= |y| && (f.bins ==> j < |x|)
    requires StepsInside(f, p) && StepAt(f, fill, p, x, y, j).Ok?
    ensures StepsInside(f, StepAt(f, fill, p, x, y, j).value)
  {
    var q := StepAt(f, fill, p, x, y, j).value;
    StepShape(f, fill, p, x, y, j);
    if |q.xs| == |p.xs| + 2 {
      KeptStepInside(f, p, q);
    } else {
      DroppedStepInside(f, p, q);
    }
  }

  /** Every step of the outline after bins 1..k is inside. */
  lemma {:induction false} OutlineSteps(f: Frame, fill: bool, start: Batch, x: seq<real>, y: seq<real>, k: nat)
    requires |start.xs| == |start.ys| == 1 && f.rounding >= 0.0
    requires k <= |y| && (f.bins ==> k < |x|)
    ensures Outlined(f, fill, start, x, y, k).Ok? ==> StepsInside(f, Outlined(f, fill, start, x, y, k).value)
    decreases k
  {
    if k > 0 {
      OutlineSteps(f, fill, start, x, y, k - 1);
      var r := Outlined(f, fill, start, x, y, k - 1);
      if r.Ok? {
        OutlinedSize(f, fill, start, x, y, k - 1);
        assert Outlined(f, fill, start, x, y, k) == StepAt(f, fill, r.value, x, y, k);
        if StepAt(f, fill, r.value, x, y, k).Ok? {
          StepKeepsSteps(f, fill, r.value, x, y, k);
        }
      }
    }
  }

  /** Once a pass has failed, later bins are never looked at. */
  lemma {:induction false} FailureSticks(f: Frame, fill: bool, start: Batch, x: seq<real>, y: seq<real>, k: nat, m: nat)
    requires |start.xs| == |start.ys| == 1
    requires k <= m <= |y| && (f.bins ==> m < |x|)
    requires Outlined(f, fill, start, x, y, k).Err?
    ensures Outlined(f, fill, start, x, y, m) == Outlined(f, fill, start, x, y, k)
    decreases m
  {
    if m > k {
      FailureSticks(f, fill, start, x, y, k, m - 1);
    }
  }

  /** One more bin after a successful prefix is one StepAt. */
  lemma OutlinedStep(f: Frame, fill: bool, start: Batch, x: seq<real>, y: seq<real>, j: int, p: Batch)
    requires |start.xs| == |start.ys| == 1
    requires 1 <= j <= |y| && (f.bins ==> j < |x|)
    requires Outlined(f, fill, start, x, y, j - 1) == Ok(p)
    ensures Outlined(f, fill, start, x, y, j) == StepAt(f, fill, p, x, y, j)
  {
  }

  /** Stores a tread, (u1, v) and (u2, v), in slots at and at+1. */
  method PutStep(xf: array<real>, yf: array<real>, at: int, u1: real, u2: real, v: real)
    requires 0 <= at && at + 1 < xf.Length && at + 1 < yf.Length && xf != yf
    modifies xf, yf
    ensures xf[..at + 2] == old(xf[..at]) + [u1, u2] && yf[..at + 2] == old(yf[..at]) + [v, v]
    ensures xf[..at] == old(xf[..at]) && yf[..at] == old(yf[..at])
  {
    xf[at], yf[at] := u1, v;
    xf[at + 1], yf[at + 1] := u2, v;
  }

  /** Moves slot at of the first n slots to v. */
  method Overwrite(a: array<real>, n: int, at: int, v: real)
    requires 0 <= at < n <= a.Length
    modifies a
    ensures a[..n] == old(a[..n])[at := v]
  {
    a[at] := v;
  }

  /** The body of the bin loop: slots npt-1 and npt take the bin's step,
      which is kept (npt grows by two) or folded into slot npt-2. */
  method Bin(f: Frame, fill: bool, x: seq<real>, y: seq<real>, j: int,
             gxwork: array<real>, gywork: array<real>, npt: int, ghost p: Batch)
    returns (res: Result<int>)
    requires gxwork != gywork && 2 <= npt && npt + 1 <= gxwork.Length && npt + 1 <= gywork.Length
    requires 1 <= j <= |y| && (f.bins ==> j < |x|)
    requires Holds(gxwork, gywork, npt - 1, p)
    modifies gxwork, gywork
    ensures res.Ok? == StepAt(f, fill, p, x, y, j).Ok?
    ensures res.Err? ==> res.error == StepAt(f, fill, p, x, y, j).error
    ensures res.Ok? ==> res.value <= npt + 2 && Holds(gxwork, gywork, res.value - 1, StepAt(f, fill, p, x, y, j).value)
  {
    if f.bins && x[j] < x[j - 1] {
      res := Err(if j != f.last then NotIncreasing else MissingEdge);
    } else {
      assert gxwork[npt - 2] == p.xs[npt - 2] && gxwork[0] == p.xs[0];
      var left := StepLeft(f, x, j, gxwork[npt - 2]);
      var right := StepRight(f, fill, x, j, gxwork[0]);
      var h := Tread(f, y, j);
      PutStep(gxwork, gywork, npt - 1, left, right, h);
      if left >= f.uxmin - f.rounding && right <= f.uxmax + f.rounding {
        assert StepAt(f, fill, p, x, y, j) == Ok(Batch(p.xs + [left, right], p.ys + [h, h]));
        res := Ok(npt + 2);
      } else {
        assert StepAt(f, fill, p, x, y, j) == Ok(Batch(p.xs[npt - 2 := RMin(right, f.uxmax)], p.ys));
        Overwrite(gxwork, npt - 1, npt - 2, RMin(right, f.uxmax));
        res := Ok(npt);
      }
    }
  }

  /** The closing of the outline in slot npt-1, then the start kept
      inside the frame line. */
  method Close(f: Frame, gxwork: array<real>, gywork: array<real>, npt: int, ghost p: Batch)
    requires gxwork != gywork && 2 <= npt <= gxwork.Length && npt <= gywork.Length
    requires Holds(gxwork, gywork, npt - 1, p)
    modifies gxwork, gywork
    ensures Holds(gxwork, gywork, npt, Closing(f, p))
  {
    PutPoint(gxwork, gywork, npt - 1, gxwork[npt - 2], gywork[0]);
    if gxwork[0] < f.vxmin {
      gxwork[0] := f.vxmin;
      gxwork[1] := f.vxmin;
    }
    if gywork[0] < f.vymin {
      gywork[0] := f.vymin;
      gywork[npt - 1] := f.vymin;
    }
  }

  /** The bin loop after bins 1..j: the outline so far in the work
      arrays, or the error that stopped it. */
  predicate BinsDone(f: Frame, fill: bool, start: Batch, x: seq<real>, y: seq<real>, j: int,
                     gxwork: array<real>, gywork: array<real>, npt: int, failed: Option<HistError>, p: Batch)
    reads gxwork, gywork
    requires |start.xs| == |start.ys| == 1
    requires 0 <= j <= |y| && (f.bins ==> j < |x|)
  {
    (failed.None? ==> Outlined(f, fill, start, x, y, j) == Ok(p) &&
                      2 <= npt <= 2 * (j + 1) && Holds(gxwork, gywork, npt - 1, p)) &&
    (failed.Some? ==> Outlined(f, fill, start, x, y, j) == Err(failed.value))
  }

  /** One turn of the bin loop, stated against the outline so far. */
  method Advance(f: Frame, fill: bool, start: Batch, x: seq<real>, y: seq<real>, j: int,
                 gxwork: array<real>, gywork: array<real>, npt: int, ghost p: Batch)
    returns (npt': int, failed: Option<HistError>, ghost p': Batch)
    requires gxwork != gywork && 2 * f.last + 2 <= gxwork.Length && 2 * f.last + 2 <= gywork.Length
    requires |start.xs| == |start.ys| == 1
    requires 1 <= j <= f.last <= |y| && (f.bins ==> f.last < |x|)
    requires BinsDone(f, fill, start, x, y, j - 1, gxwork, gywork, npt, None, p)
    modifies gxwork, gywork
    ensures BinsDone(f, fill, start, x, y, j, gxwork, gywork, npt', failed, p')
  {
    OutlinedStep(f, fill, start, x, y, j, p);
    var r := Bin(f, fill, x, y, j, gxwork, gywork, npt, p);
    p' := p;
    npt' := npt;
    if r.Err? {
      failed := Some(r.error);
    } else {
      failed := None;
      npt' := r.value;
      p' := StepAt(f, fill, p, x, y, j).value;
    }
  }

  /** The bin loop shared by the fill area and the histogram: the start
      point in slot 0, then one step per bin until the last bin or the
      first bad edge. */
  method BinLoop(f: Frame, fill: bool, start: Batch, x: seq<real>, y: seq<real>,
                 gxwork: array<real>, gywork: array<real>)
    returns (npt: int, failed: Option<HistError>, ghost p: Batch)
    requires gxwork != gywork && 2 * f.last + 2 <= gxwork.Length && 2 * f.last + 2 <= gywork.Length
    requires |start.xs| == |start.ys| == 1
    requires 1 <= f.last <= |y| && (f.bins ==> f.last < |x|)
    modifies gxwork, gywork
    ensures BinsDone(f, fill, start, x, y, f.last, gxwork, gywork, npt, failed, p)
  {
    PutPoint(gxwork, gywork, 0, start.xs[0], start.ys[0]);
    npt := 2;
    var j := 1;
    p := start;
    failed := None;
    while j <= f.last && failed.None?
      invariant 1 <= j <= f.last + 1
      invariant BinsDone(f, fill, start, x, y, j - 1, gxwork, gywork, npt, failed, p)
    {
      npt, failed, p := Advance(f, fill, start, x, y, j, gxwork, gywork, npt, p);
      j := j + 1;
    }
    if failed.Some? {
      FailureSticks(f, fill, start, x, y, j - 1, f.last);
    }
  }

  /** The whole pass: the bin loop, then the closing of the outline. */
  method StepOutline(f: Frame, fill: bool, start: Batch, x: seq<real>, y: seq<real>,
                     gxwork: array<real>, gywork: array<real>)
    returns (res: Result<int>)
    requires gxwork != gywork && 2 * f.last + 2 <= gxwork.Length && 2 * f.last + 2 <= gywork.Length
    requires |start.xs| == |start.ys| == 1
    requires 1 <= f.last <= |y| && (f.bins ==> f.last < |x|)
    modifies gxwork, gywork
    ensures res.Ok? == Polygon(f, fill, start, x, y).Ok?
    ensures res.Err? ==> res.error == Polygon(f, fill, start, x, y).error
    ensures res.Ok? ==> Holds(gxwork, gywork, res.value, Polygon(f, fill, start, x, y).value)
  {
    var npt, failed, p := BinLoop(f, fill, start, x, y, gxwork, gywork);
    if failed.Some? {
      res := Err(failed.value);
    } else {
      Close(f, gxwork, gywork, npt, p);
      res := Ok(npt);
    }
  }

  /** The bin loop run on fresh work arrays of the size the painter
      allocates, 2*npoints+10; the closed outline is their prefix. */
  method OutlineOf(f: Frame, fill: bool, start: Batch, x: seq<real>, y: seq<real>)
    returns (res: Result<Batch>)
    requires |start.xs| == |start.ys| == 1
    requires 1 <= f.last <= |y| && (f.bins ==> f.last < |x|)
    ensures res == Polygon(f, fill, start, x, y)
  {
    var gxwork := new real[2 * f.last + 10];
    var gywork := new real[2 * f.last + 10];
    var r := StepOutline(f, fill, start, x, y, gxwork, gywork);
    if r.Err? {
      res := Err(r.error);
    } else {
      res := Ok(Batch(gxwork[..r.value], gywork[..r.value]));
    }
  }

  // ---------------------------------------------------------------------
  // The "][" cutoff.

  /** The first k in i..nb with ys[k] != w, or nb+1 when there is none. */
  function FirstDiff(ys: seq<real>, i: int, nb: int, w: real): (r: int)
    requires 1 <= i <= nb + 1 <= |ys|
    ensures i <= r <= nb + 1 && (r <= nb ==> ys[r] != w)
    ensures forall k :: i <= k < r ==> ys[k] == w
    decreases nb + 1 - i
  {
    if i > nb then i
    else if ys[i] != w then i
    else FirstDiff(ys, i + 1, nb, w)
  }

  /** The last k in lo..hi with ys[k] != w, or lo-1 when there is none. */
  function LastDiff(ys: seq<real>, lo: int, hi: int, w: real): (r: int)
    requires 1 <= lo && lo - 1 <= hi < |ys|
    ensures lo - 1 <= r <= hi && (r >= lo ==> ys[r] != w)
    ensures forall k :: r < k <= hi ==> ys[k] == w
    decreases hi - lo + 1
  {
    if hi < lo then lo - 1
    else if ys[hi] != w then hi
    else LastDiff(ys, lo, hi - 1, w)
  }

  /** The part (first point, number of points) of ys[1..nb] the histogram
      draws under "][": the points at the bottom ywmin before the first and
      after the last point off the bottom are dropped; when every point is
      at the bottom nothing is dropped. */
  function CutoffOf(ys: seq<real>, nb: int, ywmin: real): (r: (int, int))
    requires 0 <= nb < |ys|
    ensures 1 <= r.0 && 0 <= r.1 && r.0 + r.1 <= nb + 1
    ensures (exists k :: 1 <= k <= nb && ys[k] != ywmin) ==>
              r.1 >= 1 && ys[r.0] != ywmin && ys[r.0 + r.1 - 1] != ywmin &&
              (forall k :: 1 <= k < r.0 ==> ys[k] == ywmin) &&
              (forall k :: r.0 + r.1 <= k <= nb ==> ys[k] == ywmin)
    ensures (forall k :: 1 <= k <= nb ==> ys[k] == ywmin) ==> r == (1, nb)
  {
    var a := FirstDiff(ys, 1, nb, ywmin);
    var point1 := if a <= nb then a else 1;
    var b := LastDiff(ys, point1, nb, ywmin);
    var point2 := if b >= point1 then b else nb;
    (point1, point2 - point1 + 1)
  }

  /** The two search loops of the cutoff. */
  method Cutoff(ys: seq<real>, nb: int, ywmin: real) returns (point1: int, nbpoints: int)
    requires 0 <= nb < |ys|
    ensures (point1, nbpoints) == CutoffOf(ys, nb, ywmin)
  {
    point1 := 1;
    var ip := point1;
    var found := false;
    while ip <= nb && !found
      invariant 1 <= ip <= nb + 1
      invariant !found ==> point1 == 1 && FirstDiff(ys, ip, nb, ywmin) == FirstDiff(ys, 1, nb, ywmin)
      invariant found ==> point1 == FirstDiff(ys, 1, nb, ywmin) <= nb
      decreases nb + 1 - ip + (if found then 0 else 1)
    {
      if ys[ip] != ywmin {
        point1 := ip;
        found := true;
      } else {
        ip := ip + 1;
      }
    }
    var point2 := nb;
    ip := point2;
    found := false;
    while ip >= point1 && !found
      invariant point1 - 1 <= ip <= nb
      invariant !found ==> point2 == nb && LastDiff(ys, point1, ip, ywmin) == LastDiff(ys, point1, nb, ywmin)
      invariant found ==> point2 == LastDiff(ys, point1, nb, ywmin) >= point1
      decreases ip - point1 + 1 + (if found then 0 else 1)
    {
      if ys[ip] != ywmin {
        point2 := ip;
        found := true;
      } else {
        ip := ip - 1;
      }
    }
    nbpoints := point2 - point1 + 1;
  }

  // ---------------------------------------------------------------------
  // The histogram and the fill area.

  /** The histogram outline starts at the lower edge of the first bin, on
      the bottom of the frame. */
  function HistStart(pad: Pad, f: Frame): Batch {
    Batch([f.wmin], [pad.uymin])
  }

  /** The fill area starts at the left frame line, at height 0 kept inside
      the y range (option 1: on the bottom of the frame). */
  function FillStart(pad: Pad, f: Frame, one: bool): Batch {
    Batch([f.vxmin], [if one then pad.uymin else RMin(RMax(0.0, pad.uymin), pad.uymax)])
  }

  /** The line the histogram draws from its closed outline q: everything
      but the first and the closing point, so the two outer vertical lines
      are not drawn; "][" (off) also drops the points on the bottom before
      the first and after the last bin with content. */
  function HistLine(pad: Pad, off: bool, q: Batch): (r: PaintCall)
    requires 2 <= |q.xs| == |q.ys|
    ensures r.PolyLine? && |r.xs| == |r.ys| <= |q.xs| - 2
    ensures !off ==> r.ys == q.ys[1..|q.ys| - 1]
    ensures !off && !pad.logx ==> r.xs == q.xs[1..|q.xs| - 1]
  {
    var l := ComputeLogs(pad, 1, q.xs, q.ys);
    Span(l.0, l.1, if off then CutoffOf(l.1, |q.xs| - 2, pad.uymin) else (1, |q.xs| - 2))
  }

  /** The line through the c.1 points from slot c.0 on. */
  function Span(xs: seq<real>, ys: seq<real>, c: (int, int)): (r: PaintCall)
    requires 0 <= c.0 && 0 <= c.1 && c.0 + c.1 <= |xs| && c.0 + c.1 <= |ys|
    ensures r.PolyLine? && |r.xs| == |r.ys| == c.1
  {
    PolyLine(xs[c.0..c.0 + c.1], ys[c.0..c.0 + c.1])
  }

  /** What option H (or an empty option) paints: one line, or nothing
      when an edge is bad. */
  function HistCalls(pad: Pad, f: Frame, off: bool, x: seq<real>, y: seq<real>): (r: Result<seq<PaintCall>>)
    requires 1 <= f.last <= |y| && (f.bins ==> f.last < |x|)
    ensures r.Ok? ==> |r.value| == 1
  {
    match Polygon(f, false, HistStart(pad, f), x, y)
    case Err(e) => Err(e)
    case Ok(q) => Ok([HistLine(pad, off, q)])
  }

  /** The histogram: the bin loop on fresh work arrays, the log transform
      of x, the cutoff, one line. */
  method HistOutline(pad: Pad, f: Frame, off: bool, x: seq<real>, y: seq<real>)
    returns (res: Result<seq<PaintCall>>)
    requires 1 <= f.last <= |y| && (f.bins ==> f.last < |x|)
    ensures res == HistCalls(pad, f, off, x, y)
  {
    var r := OutlineOf(f, false, HistStart(pad, f), x, y);
    if r.Err? {
      res := Err(r.error);
    } else {
      var line := HistLineOf(pad, off, r.value);
      res := Ok([line]);
    }
  }

  /** The line of the histogram, with the cutoff searched by its loops. */
  method HistLineOf(pad: Pad, off: bool, q: Batch) returns (call: PaintCall)
    requires 2 <= |q.xs| == |q.ys|
    ensures call == HistLine(pad, off, q)
  {
    var l := ComputeLogs(pad, 1, q.xs, q.ys);
    var point1, nbpoints := 1, |q.xs| - 2;
    if off {
      point1, nbpoints := Cutoff(l.1, |q.xs| - 2, pad.uymin);
    }
    call := Span(l.0, l.1, (point1, nbpoints));
  }

  /** What the fill area paints from its closed outline q: the area, and
      with a border its outline without the closing point. */
  function FillPolygon(pad: Pad, border: bool, q: Batch): (r: seq<PaintCall>)
    requires 2 <= |q.xs| == |q.ys|
    ensures |r| == (if border then 2 else 1) && r[0].FillArea?
    ensures |r[0].xs| == |r[0].ys| == |q.xs| && r[0].ys == q.ys
    ensures border ==> r[1].PolyLine? && r[1].xs == r[0].xs[..|q.xs| - 1] && r[1].ys == q.ys[..|q.ys| - 1]
  {
    var l := ComputeLogs(pad, 1, q.xs, q.ys);
    [FillArea(l.0, l.1)] + (if border then [PolyLine(l.0[..|q.xs| - 1], l.1[..|q.ys| - 1])] else [])
  }

  /** What option F (without C) paints, or nothing when an edge is bad. */
  function FillCalls(pad: Pad, f: Frame, one: bool, border: bool, x: seq<real>, y: seq<real>): (r: Result<seq<PaintCall>>)
    requires 1 <= f.last <= |y| && (f.bins ==> f.last < |x|)
    ensures r.Ok? ==> 1 <= |r.value| <= 2
  {
    match Polygon(f, true, FillStart(pad, f, one), x, y)
    case Err(e) => Err(e)
    case Ok(q) => Ok(FillPolygon(pad, border, q))
  }

  /** The fill area: the bin loop on fresh work arrays, then the area and
      its border. */
  method FillOutline(pad: Pad, f: Frame, one: bool, border: bool, x: seq<real>, y: seq<real>)
    returns (res: Result<seq<PaintCall>>)
    requires 1 <= f.last <= |y| && (f.bins ==> f.last < |x|)
    ensures res == FillCalls(pad, f, one, border, x, y)
  {
    var r := OutlineOf(f, true, FillStart(pad, f, one), x, y);
    if r.Err? {
      res := Err(r.error);
    } else {
      res := Ok(FillPolygon(pad, border, r.value));
    }
  }

  /** The step that starts at the odd slot i. */
  lemma OddStep(f: Frame, p: Batch, i: int)
    requires 1 <= |p.xs| == |p.ys| && |p.xs| % 2 == 1 && StepsInside(f, p)
    requires 1 <= i < |p.xs| && i % 2 == 1
    ensures i + 1 < |p.xs| && p.ys[i] == p.ys[i + 1] >= f.vymin
  {
    assert i + 1 < |p.xs|;
    StepsInsideAt(f, p, i);
  }

  /** Every point of an outline after its start is on a tread, so at or
      above the frame line. */
  lemma TreadsRaised(f: Frame, p: Batch)
    requires 1 <= |p.xs| == |p.ys| && |p.xs| % 2 == 1 && StepsInside(f, p)
    ensures forall k :: 1 <= k < |p.ys| ==> p.ys[k] >= f.vymin
  {
    forall k | 1 <= k < |p.ys|
      ensures p.ys[k] >= f.vymin
    {
      if k % 2 == 1 {
        OddStep(f, p, k);
      } else {
        OddStep(f, p, k - 1);
      }
    }
  }

  /** When no point of ys[1..nb] is on the bottom, the cutoff keeps them
      all. */
  lemma CutoffKeepsAll(ys: seq<real>, nb: int, ywmin: real)
    requires 0 <= nb < |ys|
    requires forall k :: 1 <= k <= nb ==> ys[k] != ywmin
    ensures CutoffOf(ys, nb, ywmin) == (1, nb)
  {
    var c := CutoffOf(ys, nb, ywmin);
    if nb >= 1 {
      assert ys[1] != ywmin && ys[nb] != ywmin;
    }
  }

  /** With a frame line thicker than one pixel the treads are raised
      above the bottom uymin that "][" looks for, so the cutoff drops
      nothing. */
  lemma ThickFrameIdlesCutoff(pad: Pad, f: Frame, x: seq<real>, y: seq<real>)
    requires 1 <= f.last <= |y| && (f.bins ==> f.last < |x|)
    requires f.rounding >= 0.0 && f.vymin > pad.uymin
    requires Polygon(f, false, HistStart(pad, f), x, y).Ok?
    ensures HistLine(pad, true, Polygon(f, false, HistStart(pad, f), x, y).value) ==
            HistLine(pad, false, Polygon(f, false, HistStart(pad, f), x, y).value)
  {
    var start := HistStart(pad, f);
    OutlineSteps(f, false, start, x, y, f.last);
    var p := Outlined(f, false, start, x, y, f.last).value;
    OutlinedSize(f, false, start, x, y, f.last);
    TreadsRaised(f, p);
    ClosingShape(f, p);
    var q := Closing(f, p);
    var n := |p.xs|;
    assert q.ys[1..n] == p.ys[1..];
    forall k | 1 <= k <= n - 1
      ensures q.ys[k] != pad.uymin
    {
      assert q.ys[k] == q.ys[1..n][k - 1];
    }
    CutoffKeepsAll(q.ys, n - 1, pad.uymin);
    UncutLine(pad, q);
  }

  /** A cutoff that keeps every point leaves the line as it is. */
  lemma UncutLine(pad: Pad, q: Batch)
    requires 2 <= |q.xs| == |q.ys| && CutoffOf(q.ys, |q.ys| - 2, pad.uymin) == (1, |q.ys| - 2)
    ensures HistLine(pad, true, q) == HistLine(pad, false, q)
  {
    assert ComputeLogs(pad, 1, q.xs, q.ys).1 == q.ys;
  }

  /** The lower and upper edge of bin j. */
  function BinLow(f: Frame, x: seq<real>, j: int): real
    requires f.bins ==> 1 <= j < |x|
  {
    if f.bins then x[j - 1] else f.wmin + ((j - 1) as real) * f.delta
  }

  function BinHigh(f: Frame, x: seq<real>, j: int): real
    requires f.bins ==> 1 <= j < |x|
  {
    if f.bins then x[j] else f.wmin + (j as real) * f.delta
  }

  /** Bins 1..k all lie inside the user range, up to the rounding. */
  predicate BinsInside(f: Frame, x: seq<real>, k: int)
    requires f.bins ==> k < |x|
  {
    forall j :: 1 <= j <= k ==>
      BinLow(f, x, j) >= f.uxmin - f.rounding && BinHigh(f, x, j) <= f.uxmax + f.rounding
  }

  /** p is the start point followed by one tread per bin 1..k. */
  predicate Staircase(f: Frame, x: seq<real>, y: seq<real>, p: Batch, k: int)
    requires 0 <= k <= |y| && (f.bins ==> k < |x|)
  {
    |p.xs| == |p.ys| == 2 * k + 1 &&
    forall j :: 1 <= j <= k ==>
      p.xs[2 * j - 1] == BinLow(f, x, j) && p.xs[2 * j] == BinHigh(f, x, j) &&
      p.ys[2 * j - 1] == Tread(f, y, j) && p.ys[2 * j] == Tread(f, y, j)
  }

  /** When every bin is inside (and, with option N, the edges rise) the
      histogram outline is the full staircase: each bin's content drawn
      over exactly its own edges. */
  lemma {:induction false} FullStaircase(f: Frame, start: Batch, x: seq<real>, y: seq<real>, k: nat)
    requires |start.xs| == |start.ys| == 1 && start.xs[0] == f.wmin
    requires k <= |y| && (f.bins ==> k < |x|)
    requires (f.bins ==> EdgesRise(x, k)) && BinsInside(f, x, k)
    ensures Outlined(f, false, start, x, y, k).Ok?
    ensures Staircase(f, x, y, Outlined(f, false, start, x, y, k).value, k)
    ensures Outlined(f, false, start, x, y, k).value.xs[0] == f.wmin
    decreases k
  {
    if k > 0 {
      FullStaircase(f, start, x, y, k - 1);
      var p := Outlined(f, false, start, x, y, k - 1).value;
      assert BinLow(f, x, k) >= f.uxmin - f.rounding && BinHigh(f, x, k) <= f.uxmax + f.rounding;
      if k == 1 && !f.bins {
        assert p.xs[0] == BinLow(f, x, 1);
      } else if !f.bins {
        assert p.xs[2 * (k - 1)] == BinHigh(f, x, k - 1) == BinLow(f, x, k);
      }
      assert StepLeft(f, x, k, p.xs[|p.xs| - 1]) == BinLow(f, x, k);
      assert StepRight(f, false, x, k, p.xs[0]) == BinHigh(f, x, k);
      var q := Batch(p.xs + [BinLow(f, x, k), BinHigh(f, x, k)], p.ys + [Tread(f, y, k), Tread(f, y, k)]);
      assert Outlined(f, false, start, x, y, k) == Ok(q);
      StaircaseGrows(f, x, y, p, k);
    }
  }

  /** One more tread on a staircase of k-1 bins makes one of k. */
  lemma StaircaseGrows(f: Frame, x: seq<real>, y: seq<real>, p: Batch, k: int)
    requires 1 <= k <= |y| && (f.bins ==> k < |x|) && Staircase(f, x, y, p, k - 1)
    ensures Staircase(f, x, y, Batch(p.xs + [BinLow(f, x, k), BinHigh(f, x, k)],
                                     p.ys + [Tread(f, y, k), Tread(f, y, k)]), k)
  {
    var q := Batch(p.xs + [BinLow(f, x, k), BinHigh(f, x, k)], p.ys + [Tread(f, y, k), Tread(f, y, k)]);
    forall j | 1 <= j <= k
      ensures q.xs[2 * j - 1] == BinLow(f, x, j) && q.xs[2 * j] == BinHigh(f, x, j) &&
              q.ys[2 * j - 1] == Tread(f, y, j) && q.ys[2 * j] == Tread(f, y, j)
    {
      if j < k {
        assert q.xs[2 * j - 1] == p.xs[2 * j - 1] && q.xs[2 * j] == p.xs[2 * j];
        assert q.ys[2 * j - 1] == p.ys[2 * j - 1] && q.ys[2 * j] == p.ys[2 * j];
      }
    }
  }

  // ---------------------------------------------------------------------
  // The smooth curve through the bin centres (option C).

  /** Smooth's draw type for option C: 1 for a line, 2 for a filled curve
      (3 with option 1). */
  function CurveDrawtype(fill: bool, one: bool): int {
    if !fill then 1 else if !one then 2 else 3
  }

  /** The centre of bin j. */
  function Centre(f: Frame, x: seq<real>, j: int): real
    requires f.bins ==> 1 <= j < |x|
  {
    if f.bins then x[j - 1] + 0.5 * (x[j] - x[j - 1])
    else f.wmin + ((j - 1) as real) * f.delta + 0.5 * f.delta
  }

  /** A call of Smooth on a piece, with x taken to log scale. */
  function HistSmooth(pad: Pad, drawtype: int, b: Batch): PaintCall {
    var l := ComputeLogs(pad, 1, b.xs, b.ys);
    SmoothCurve(l.0, l.1, drawtype)
  }

  /** The Smooth calls of a list of pieces, in order. */
  function SmoothAll(pad: Pad, drawtype: int, bs: seq<Batch>): (r: seq<PaintCall>)
    ensures |r| == |bs|
    decreases |bs|
  {
    if |bs| == 0 then [] else SmoothAll(pad, drawtype, bs[..|bs| - 1]) + [HistSmooth(pad, drawtype, bs[|bs| - 1])]
  }

  lemma SmoothAllStep(pad: Pad, drawtype: int, bs: seq<Batch>, b: Batch)
    ensures SmoothAll(pad, drawtype, bs + [b]) == SmoothAll(pad, drawtype, bs) + [HistSmooth(pad, drawtype, b)]
  {
    assert (bs + [b])[..|bs|] == bs;
  }

  /** The curve pass so far: the pieces already smoothed, the open piece,
      and the error that stopped it, if any. */
  datatype Curve = Curve(done: seq<Batch>, open: Batch, failed: Option<HistError>)

  /** Bin j in the curve pass. A centre outside [uxmin, uxmax] is skipped.
      Otherwise the point joins the open piece; a content outside
      [uymin, uymax] ends it there (smoothed only with more than two
      points) and so does the fiftieth point; the ending point starts the
      next piece. */
  function CurveStepAt(pad: Pad, f: Frame, c: Curve, x: seq<real>, y: seq<real>, j: int): (r: Curve)
    requires 1 <= j <= |y| && (f.bins ==> j < |x|)
    requires |c.open.xs| == |c.open.ys|
  {
    if f.bins && x[j] < x[j - 1] then
      c.(failed := Some(if j != f.last then NotIncreasing else MissingEdge))
    else
      var cx := Centre(f, x, j);
      if cx < f.uxmin || cx > f.uxmax then c else JoinPoint(pad, c, cx, y[j - 1])
  }

  /** The point (cx, cy) joins the open piece of a pass that has not
      failed. */
  function JoinPoint(pad: Pad, c: Curve, cx: real, cy: real): (r: Curve)
    requires |c.open.xs| == |c.open.ys|
  {
    var o := Batch(c.open.xs + [cx], c.open.ys + [cy]);
    var restart := Batch([cx], [cy]);
    if cy < pad.uymin || cy > pad.uymax then
      Curve(c.done + (if |o.xs| > 2 then [o] else []), restart, None)
    else if |o.xs| >= 50 then
      Curve(c.done + [o], restart, None)
    else
      Curve(c.done, o, None)
  }

  /** The curve pass over bins 1..k; it stops at the first bad edge. */
  function CurveRun(pad: Pad, f: Frame, x: seq<real>, y: seq<real>, k: nat): (r: Curve)
    requires k <= |y| && (f.bins ==> k < |x|)
    ensures |r.open.xs| == |r.open.ys| <= k && |r.open.xs| <= 49
    decreases k
  {
    if k == 0 then Curve([], Batch([], []), None)
    else
      var c := CurveRun(pad, f, x, y, k - 1);
      if c.failed.Some? then c else CurveStepAt(pad, f, c, x, y, k)
  }

  /** The pieces smoothed by the whole pass: the open piece is smoothed at
      the end if it has two points or more, unless an edge was bad. */
  function CurvePieces(pad: Pad, f: Frame, x: seq<real>, y: seq<real>): seq<Batch>
    requires 1 <= f.last <= |y| && (f.bins ==> f.last < |x|)
  {
    var c := CurveRun(pad, f, x, y, f.last);
    c.done + (if c.failed.None? && |c.open.xs| > 1 then [c.open] else [])
  }

  /** What option C paints (unrotated), and the error that cut it short. */
  function HistCurve(pad: Pad, f: Frame, drawtype: int, x: seq<real>, y: seq<real>): (seq<PaintCall>, Option<HistError>)
    requires 1 <= f.last <= |y| && (f.bins ==> f.last < |x|)
  {
    (SmoothAll(pad, drawtype, CurvePieces(pad, f, x, y)), CurveRun(pad, f, x, y, f.last).failed)
  }

  /** Once the curve pass has stopped, later bins change nothing. */
  lemma {:induction false} CurveStops(pad: Pad, f: Frame, x: seq<real>, y: seq<real>, k: nat, m: nat)
    requires k <= m <= |y| && (f.bins ==> m < |x|)
    requires CurveRun(pad, f, x, y, k).failed.Some?
    ensures CurveRun(pad, f, x, y, m) == CurveRun(pad, f, x, y, k)
    decreases m
  {
    if m > k {
      CurveStops(pad, f, x, y, k, m - 1);
    }
  }

  /** A point joining the open piece gxwork[..npt]; a piece that ends is
      smoothed at once and its last point starts the next. */
  method Join(pad: Pad, drawtype: int, gxwork: array<real>, gywork: array<real>, npt: int,
              cx: real, cy: real, ghost c: Curve)
    returns (npt': int, emitted: seq<PaintCall>)
    requires gxwork != gywork && npt < gxwork.Length && npt < gywork.Length
    requires Holds(gxwork, gywork, npt, c.open)
    modifies gxwork, gywork
    ensures SmoothAll(pad, drawtype, c.done) + emitted == SmoothAll(pad, drawtype, JoinPoint(pad, c, cx, cy).done)
    ensures Holds(gxwork, gywork, npt', JoinPoint(pad, c, cx, cy).open)
  {
    PutPoint(gxwork, gywork, npt, cx, cy);
    var o := Batch(gxwork[..npt + 1], gywork[..npt + 1]);
    assert o == Batch(c.open.xs + [cx], c.open.ys + [cy]);
    if cy < pad.uymin || cy > pad.uymax || npt + 1 >= 50 {
      if npt + 1 > 2 {
        emitted := [HistSmooth(pad, drawtype, o)];
        SmoothAllStep(pad, drawtype, c.done, o);
      } else {
        emitted := [];
        assert c.done + [] == c.done;
      }
      PutPoint(gxwork, gywork, 0, cx, cy);
      npt' := 1;
    } else {
      emitted := [];
      npt' := npt + 1;
    }
  }

  /** The body of the curve loop for bin j: the open piece is
      gxwork[..npt]. */
  method CurveVisit(pad: Pad, f: Frame, drawtype: int, x: seq<real>, y: seq<real>, j: int,
                    gxwork: array<real>, gywork: array<real>, npt: int, ghost c: Curve)
    returns (npt': int, emitted: seq<PaintCall>, failed: Option<HistError>)
    requires gxwork != gywork && j <= gxwork.Length && j <= gywork.Length
    requires 1 <= j <= |y| && (f.bins ==> j < |x|)
    requires c == CurveRun(pad, f, x, y, j - 1) && c.failed.None? && Holds(gxwork, gywork, npt, c.open)
    modifies gxwork, gywork
    ensures failed == CurveRun(pad, f, x, y, j).failed
    ensures SmoothAll(pad, drawtype, c.done) + emitted == SmoothAll(pad, drawtype, CurveRun(pad, f, x, y, j).done)
    ensures failed.None? ==> Holds(gxwork, gywork, npt', CurveRun(pad, f, x, y, j).open)
  {
    assert CurveRun(pad, f, x, y, j) == CurveStepAt(pad, f, c, x, y, j);
    npt', emitted, failed := npt, [], None;
    if f.bins && x[j] < x[j - 1] {
      failed := Some(if j != f.last then NotIncreasing else MissingEdge);
    } else {
      var cx := Centre(f, x, j);
      if f.uxmin <= cx <= f.uxmax {
        npt', emitted := Join(pad, drawtype, gxwork, gywork, npt, cx, y[j - 1], c);
      }
    }
  }

  /** The curve loop over bins 1..last. */
  method CurveLoop(pad: Pad, f: Frame, drawtype: int, x: seq<real>, y: seq<real>,
                   gxwork: array<real>, gywork: array<real>)
    returns (calls: seq<PaintCall>, npt: int, failed: Option<HistError>, ghost c: Curve)
    requires gxwork != gywork && f.last <= gxwork.Length && f.last <= gywork.Length
    requires 1 <= f.last <= |y| && (f.bins ==> f.last < |x|)
    modifies gxwork, gywork
    ensures c == CurveRun(pad, f, x, y, f.last) && failed == c.failed
    ensures calls == SmoothAll(pad, drawtype, c.done)
    ensures failed.None? ==> Holds(gxwork, gywork, npt, c.open)
  {
    npt := 0;
    var j := 1;
    c := CurveRun(pad, f, x, y, 0);
    calls := [];
    failed := None;
    while j <= f.last && failed.None?
      invariant 1 <= j <= f.last + 1
      invariant c == CurveRun(pad, f, x, y, j - 1) && failed == c.failed
      invariant calls == SmoothAll(pad, drawtype, c.done)
      invariant failed.None? ==> Holds(gxwork, gywork, npt, c.open)
    {
      var emitted;
      npt, emitted, failed := CurveVisit(pad, f, drawtype, x, y, j, gxwork, gywork, npt, c);
      calls := calls + emitted;
      c := CurveRun(pad, f, x, y, j);
      j := j + 1;
    }
    if failed.Some? {
      CurveStops(pad, f, x, y, j - 1, f.last);
    }
  }

  /** Option C (unrotated): the curve loop on fresh work arrays, then the
      open piece smoothed if it has two points or more. */
  method HistCurveOf(pad: Pad, f: Frame, drawtype: int, x: seq<real>, y: seq<real>)
    returns (calls: seq<PaintCall>, failed: Option<HistError>)
    requires 1 <= f.last <= |y| && (f.bins ==> f.last < |x|)
    ensures (calls, failed) == HistCurve(pad, f, drawtype, x, y)
  {
    var gxwork := new real[2 * f.last + 10];
    var gywork := new real[2 * f.last + 10];
    var npt;
    ghost var c;
    calls, npt, failed, c := CurveLoop(pad, f, drawtype, x, y, gxwork, gywork);
    if failed.None? && npt > 1 {
      calls := calls + [HistSmooth(pad, drawtype, Batch(gxwork[..npt], gywork[..npt]))];
      SmoothAllStep(pad, drawtype, c.done, c.open);
    } else {
      assert c.done + [] == c.done;
    }
  }

  /** A smoothed piece: two to fifty points, all inside [uxmin, uxmax]. */
  predicate PieceFits(f: Frame, b: Batch) {
    2 <= |b.xs| == |b.ys| <= 50 && forall i :: 0 <= i < |b.xs| ==> f.uxmin <= b.xs[i] <= f.uxmax
  }

  /** The open piece between bins: at most 49 points, all inside. */
  predicate OpenFits(f: Frame, b: Batch) {
    |b.xs| == |b.ys| <= 49 && forall i :: 0 <= i < |b.xs| ==> f.uxmin <= b.xs[i] <= f.uxmax
  }

  /** A point inside the range keeps every piece fitting. */
  lemma JoinFits(pad: Pad, f: Frame, c: Curve, cx: real, cy: real)
    requires OpenFits(f, c.open) && (forall b :: b in c.done ==> PieceFits(f, b))
    requires f.uxmin <= cx <= f.uxmax
    ensures OpenFits(f, JoinPoint(pad, c, cx, cy).open)
    ensures forall b :: b in JoinPoint(pad, c, cx, cy).done ==> PieceFits(f, b)
  {
    var o := Batch(c.open.xs + [cx], c.open.ys + [cy]);
    assert forall i :: 0 <= i < |o.xs| ==> f.uxmin <= o.xs[i] <= f.uxmax by {
      forall i | 0 <= i < |o.xs|
        ensures f.uxmin <= o.xs[i] <= f.uxmax
      {
        if i < |c.open.xs| {
          assert o.xs[i] == c.open.xs[i];
        }
      }
    }
  }

  /** Every piece of the curve pass has two to fifty points, all at bin
      centres inside [uxmin, uxmax]. */
  lemma {:induction false} CurveFits(pad: Pad, f: Frame, x: seq<real>, y: seq<real>, k: nat)
    requires k <= |y| && (f.bins ==> k < |x|)
    ensures OpenFits(f, CurveRun(pad, f, x, y, k).open)
    ensures forall b :: b in CurveRun(pad, f, x, y, k).done ==> PieceFits(f, b)
    decreases k
  {
    if k > 0 {
      CurveFits(pad, f, x, y, k - 1);
      var c := CurveRun(pad, f, x, y, k - 1);
      if c.failed.None? && !(f.bins && x[k] < x[k - 1]) {
        var cx := Centre(f, x, k);
        if f.uxmin <= cx <= f.uxmax {
          JoinFits(pad, f, c, cx, y[k - 1]);
        }
      }
    }
  }

  /** So every Smooth call of option C gets between two and fifty points. */
  lemma CurvePiecesFit(pad: Pad, f: Frame, x: seq<real>, y: seq<real>)
    requires 1 <= f.last <= |y| && (f.bins ==> f.last < |x|)
    ensures forall b :: b in CurvePieces(pad, f, x, y) ==> PieceFits(f, b)
  {
    CurveFits(pad, f, x, y, f.last);
  }

  /** The centres of bins 1..k. */
  function Centres(f: Frame, x: seq<real>, k: nat): (r: seq<real>)
    requires f.bins ==> k < |x|
    ensures |r| == k
  {
    seq(k, i requires 0 <= i < k => Centre(f, x, i + 1))
  }

  /** Bins 1..k have their centres inside [uxmin, uxmax] and their
      contents inside [uymin, uymax]. */
  predicate CurveInside(pad: Pad, f: Frame, x: seq<real>, y: seq<real>, k: nat)
    requires k <= |y| && (f.bins ==> k < |x|)
  {
    forall j :: 1 <= j <= k ==> f.uxmin <= Centre(f, x, j) <= f.uxmax && pad.uymin <= y[j - 1] <= pad.uymax
  }

  /** With every bin inside, rising edges and fewer than fifty bins, the
      pass keeps one open piece: every bin centre with its content. */
  lemma {:induction false} CurveWhole(pad: Pad, f: Frame, x: seq<real>, y: seq<real>, k: nat)
    requires k <= |y| && (f.bins ==> k < |x|) && k <= 49
    requires (f.bins ==> EdgesRise(x, k)) && CurveInside(pad, f, x, y, k)
    ensures CurveRun(pad, f, x, y, k) == Curve([], Batch(Centres(f, x, k), y[..k]), None)
    decreases k
  {
    if k > 0 {
      CurveWhole(pad, f, x, y, k - 1);
      assert Centres(f, x, k) == Centres(f, x, k - 1) + [Centre(f, x, k)];
      PrefixStep(y, k);
    }
  }

  /** Such a curve is smoothed as one piece. */
  lemma CurveOnePiece(pad: Pad, f: Frame, x: seq<real>, y: seq<real>)
    requires 2 <= f.last <= 49 && f.last <= |y| && (f.bins ==> f.last < |x|)
    requires (f.bins ==> EdgesRise(x, f.last)) && CurveInside(pad, f, x, y, f.last)
    ensures CurvePieces(pad, f, x, y) == [Batch(Centres(f, x, f.last), y[..f.last])]
  {
    CurveWhole(pad, f, x, y, f.last);
  }

  // ---------------------------------------------------------------------
  // Low resolution (option L or P with more bins than three per pixel).

  /** The pixel geometry of the pad: the pixel column of an x (through
      XtoPad and XtoAbsPixel), the pixel row of a y, the pixels of the
      axis ends, and the way back from pixels to coordinates. */
  datatype Screen = Screen(
    column: real -> int, row: real -> int,
    ax1Pix: int, ax2Pix: int, ay1Pix: int,
    pixelToX: int -> real, pixelToY: int -> real)

  /** The number of pixel columns along the x axis. */
  function NrPix(s: Screen): int {
    s.ax2Pix - s.ax1Pix + 1
  }

  /** Low resolution is used when there are more than three bins per
      pixel column, unless option "F2" or "9" asks for the full
      resolution. */
  function LowResolution(s: Screen, npoints: int, o: HistOptions): (r: bool)
    ensures r ==> npoints > 3 * NrPix(s)
  {
    3 * NrPix(s) < npoints && !o.fill2 && !o.highRes
  }

  /** The sentinel bounds of a column no bin has reached. */
  const Far: real := 1.0e100

  /** What a pixel column has collected: the smallest and largest pixel
      row, and the number of bins. */
  datatype Bucket = Bucket(lo: real, hi: real, n: int)

  const Unused: Bucket := Bucket(Far, -Far, 0)

  /** The column of bin j: the pixel of its centre, kept on the axis. */
  function Column(s: Screen, f: Frame, x: seq<real>, j: int): (c: int)
    requires NrPix(s) >= 1 && (f.bins ==> 1 <= j < |x|)
    ensures 0 <= c < NrPix(s)
  {
    var ix := s.column(Centre(f, x, j)) - s.ax1Pix;
    if ix < 0 then 0 else if ix >= NrPix(s) then NrPix(s) - 1 else ix
  }

  /** The pixel row of bin j's content. */
  function Row(s: Screen, y: seq<real>, j: int): int
    requires 1 <= j <= |y|
  {
    s.row(y[j - 1])
  }

  /** A bin whose row is at or below the x axis is not collected. */
  predicate Kept(s: Screen, y: seq<real>, j: int)
    requires 1 <= j <= |y|
  {
    Row(s, y, j) < s.ay1Pix
  }

  /** A row added to a column, through the comparisons with the stored
      bounds. */
  function Add(b: Bucket, r: real): Bucket {
    Bucket(if b.lo > r then r else b.lo, if b.hi < r then r else b.hi, b.n + 1)
  }

  /** Bin j collected into its column. */
  function DropAt(s: Screen, f: Frame, x: seq<real>, y: seq<real>, j: int, bs: seq<Bucket>): (r: seq<Bucket>)
    requires NrPix(s) >= 1 && |bs| == NrPix(s)
    requires 1 <= j <= |y| && (f.bins ==> j < |x|)
    ensures |r| == |bs|
  {
    if Kept(s, y, j) then bs[Column(s, f, x, j) := Add(bs[Column(s, f, x, j)], Row(s, y, j) as real)] else bs
  }

  /** The columns after bins 1..k. */
  function Buckets(s: Screen, f: Frame, x: seq<real>, y: seq<real>, k: nat): (r: seq<Bucket>)
    requires NrPix(s) >= 1 && k <= |y| && (f.bins ==> k < |x|)
    ensures |r| == NrPix(s)
    decreases k
  {
    if k == 0 then seq(NrPix(s), _ => Unused)
    else DropAt(s, f, x, y, k, Buckets(s, f, x, y, k - 1))
  }

  /** The rows of the kept bins among 1..k whose column is c. */
  function Rows(s: Screen, f: Frame, x: seq<real>, y: seq<real>, c: int, k: nat): seq<real>
    requires NrPix(s) >= 1 && k <= |y| && (f.bins ==> k < |x|)
    decreases k
  {
    if k == 0 then []
    else Rows(s, f, x, y, c, k - 1) +
         (if Kept(s, y, k) && Column(s, f, x, k) == c then [Row(s, y, k) as real] else [])
  }

  /** What a column holds, stated on its rows: their number, and when
      there are some their smallest and largest; otherwise the sentinels. */
  predicate Summarises(b: Bucket, rows: seq<real>) {
    b.n == |rows| &&
    (|rows| == 0 ==> b == Unused) &&
    (|rows| > 0 ==> b.lo in rows && b.hi in rows &&
                    forall i :: 0 <= i < |rows| ==> b.lo <= rows[i] <= b.hi)
  }

  /** Pixel rows are far from the sentinels. */
  predicate RowsNear(s: Screen, y: seq<real>, k: nat)
    requires k <= |y|
  {
    forall j :: 1 <= j <= k ==> -Far < Row(s, y, j) as real < Far
  }

  lemma AddSummarises(b: Bucket, rows: seq<real>, r: real)
    requires Summarises(b, rows) && -Far < r < Far
    ensures Summarises(Add(b, r), rows + [r])
  {
    var rs := rows + [r];
    forall i | 0 <= i < |rs|
      ensures Add(b, r).lo <= rs[i] <= Add(b, r).hi
    {
      if i < |rows| {
        assert rs[i] == rows[i];
      }
    }
    if |rows| > 0 {
      assert b.lo in rs && b.hi in rs;
    }
  }

  /** Each column summarises exactly the rows of the kept bins that fall
      in it. */
  lemma {:induction false} BucketsSummarise(s: Screen, f: Frame, x: seq<real>, y: seq<real>, k: nat, c: int)
    requires NrPix(s) >= 1 && k <= |y| && (f.bins ==> k < |x|) && RowsNear(s, y, k)
    requires 0 <= c < NrPix(s)
    ensures Summarises(Buckets(s, f, x, y, k)[c], Rows(s, f, x, y, c, k))
    decreases k
  {
    if k > 0 {
      BucketsSummarise(s, f, x, y, k - 1, c);
      var rows := Rows(s, f, x, y, c, k - 1);
      if Kept(s, y, k) && Column(s, f, x, k) == c {
        AddSummarises(Buckets(s, f, x, y, k - 1)[c], rows, Row(s, y, k) as real);
      } else {
        assert rows + [] == rows;
      }
    }
  }

  /** A column is painted exactly when some kept bin fell in it. */
  lemma PaintedIffCollected(s: Screen, f: Frame, x: seq<real>, y: seq<real>, k: nat, c: int)
    requires NrPix(s) >= 1 && k <= |y| && (f.bins ==> k < |x|) && RowsNear(s, y, k)
    requires 0 <= c < NrPix(s)
    ensures var b := Buckets(s, f, x, y, k)[c];
            b.lo <= b.hi <==> |Rows(s, f, x, y, c, k)| > 0
  {
    BucketsSummarise(s, f, x, y, k, c);
    var rows := Rows(s, f, x, y, c, k);
    if |rows| > 0 {
      assert Buckets(s, f, x, y, k)[c].lo <= rows[0];
    }
  }

  /** The C cast of a double to Int_t: truncation toward zero. */
  function TruncReal(v: real): (r: int)
    ensures v >= 0.0 ==> r as real <= v < r as real + 1.0
    ensures v < 0.0 ==> r as real - 1.0 < v <= r as real
  {
    if v >= 0.0 then v.Floor else -((-v).Floor)
  }

  /** The row of a column's centre: the middle of its bounds, and for a
      column nothing reached twice the larger sentinel. */
  function CentrePix(b: Bucket): (r: real)
    ensures b.n > 0 ==> r == (b.lo + b.hi) / 2.0
    ensures b.n > 0 && b.lo <= b.hi ==> b.lo <= r <= b.hi
    ensures b == Unused ==> r == 2.0 * Far
  {
    if b.n > 0 then (b.lo + b.hi) / 2.0 else 2.0 * RMax(RAbs(b.lo), RAbs(b.hi))
  }

  /** The shift of the centre line, three tenths of a pixel. */
  function XcAdjust(s: Screen): real {
    0.3 * (s.pixelToX(s.ax1Pix + 1) - s.pixelToX(s.ax1Pix))
  }

  /** The vertical line of each painted column among the first c, and the
      points of the centre line. */
  datatype Sketch = Sketch(lines: seq<PaintCall>, xc: seq<real>, yc: seq<real>)

  /** The vertical line of a painted column, at the abscissa xc. */
  function ColumnLine(s: Screen, b: Bucket, xc: real): PaintCall {
    PolyLine([xc, xc], [s.pixelToY(TruncReal(b.lo)), s.pixelToY(TruncReal(b.hi))])
  }

  function Sketched(s: Screen, bs: seq<Bucket>, c: nat): (r: Sketch)
    requires c <= |bs|
    ensures |r.lines| == |r.xc| == |r.yc| <= c
    decreases c
  {
    if c == 0 then Sketch([], [], [])
    else
      var k := Sketched(s, bs, c - 1);
      var b := bs[c - 1];
      if b.lo <= b.hi then
        var xc := s.pixelToX(s.ax1Pix + (c - 1)) + XcAdjust(s);
        Sketch(k.lines + [ColumnLine(s, b, xc)], k.xc + [xc], k.yc + [s.pixelToY(TruncReal(CentrePix(b)))])
      else k
  }

  /** The low-resolution picture: one vertical line per painted column,
      then the line through their centres. */
  function LowResCalls(s: Screen, bs: seq<Bucket>): (r: seq<PaintCall>)
    ensures |r| >= 1 && r[|r| - 1].PolyLine?
  {
    var k := Sketched(s, bs, |bs|);
    k.lines + [PolyLine(k.xc, k.yc)]
  }

  /** Every column line is vertical, at the abscissa of its point on the
      centre line, and the centre line has one point per column line. */
  predicate Vertical(k: Sketch) {
    |k.lines| == |k.xc| &&
    forall i :: 0 <= i < |k.lines| ==>
      k.lines[i].PolyLine? && k.lines[i].xs == [k.xc[i], k.xc[i]] && |k.lines[i].ys| == 2
  }

  lemma {:induction false} SketchShape(s: Screen, bs: seq<Bucket>, c: nat)
    requires c <= |bs|
    ensures Vertical(Sketched(s, bs, c))
    decreases c
  {
    if c > 0 {
      SketchShape(s, bs, c - 1);
      var k := Sketched(s, bs, c - 1);
      var b := bs[c - 1];
      if b.lo <= b.hi {
        var xc := s.pixelToX(s.ax1Pix + (c - 1)) + XcAdjust(s);
        var k' := Sketched(s, bs, c);
        assert k'.lines == k.lines + [ColumnLine(s, b, xc)] && k'.xc == k.xc + [xc];
        forall i | 0 <= i < |k'.lines|
          ensures k'.lines[i].PolyLine? && k'.lines[i].xs == [k'.xc[i], k'.xc[i]] && |k'.lines[i].ys| == 2
        {
          if i < |k.lines| {
            assert k'.lines[i] == k.lines[i] && k'.xc[i] == k.xc[i];
          }
        }
      }
    }
  }

  /** The picture of bins 1..last. */
  function LowResPaint(s: Screen, f: Frame, x: seq<real>, y: seq<real>): seq<PaintCall>
    requires NrPix(s) >= 1 && 0 <= f.last <= |y| && (f.bins ==> f.last < |x|)
  {
    LowResCalls(s, Buckets(s, f, x, y, f.last))
  }

  /** The loop as written visits bins first..last-1 only. */
  function LowResPaintAsWritten(s: Screen, f: Frame, x: seq<real>, y: seq<real>): seq<PaintCall>
    requires NrPix(s) >= 1 && 1 <= f.last <= |y| && (f.bins ==> f.last < |x|)
  {
    LowResCalls(s, Buckets(s, f, x, y, f.last - 1))
  }

  /** One pixel column, four bins, the last one higher than the others:
      the loop as written leaves the column's line at the common row, the
      corrected one reaches the last bin's row. */
  lemma LastBinLostAsWritten()
    ensures var s := Screen(_ => 0, v => if v > 5.0 then 10 else 20, 0, 0, 100, p => p as real, p => p as real);
            var f := Frame(false, 0.0, 1.0, 4, 0.0, 4.0, 0.0, 0.0, 0.0);
            var y := [1.0, 1.0, 1.0, 9.0];
            Buckets(s, f, [], y, 3)[0] == Bucket(20.0, 20.0, 3) &&
            Buckets(s, f, [], y, 4)[0] == Bucket(10.0, 20.0, 4) &&
            LowResPaintAsWritten(s, f, [], y) != LowResPaint(s, f, [], y)
  {
    var s := Screen(_ => 0, v => if v > 5.0 then 10 else 20, 0, 0, 100, p => p as real, p => p as real);
    var f := Frame(false, 0.0, 1.0, 4, 0.0, 4.0, 0.0, 0.0, 0.0);
    var y := [1.0, 1.0, 1.0, 9.0];
    var b3 := Buckets(s, f, [], y, 3);
    var b4 := Buckets(s, f, [], y, 4);
    assert Buckets(s, f, [], y, 0) == [Unused];
    assert Buckets(s, f, [], y, 1) == [Bucket(20.0, 20.0, 1)];
    assert Buckets(s, f, [], y, 2) == [Bucket(20.0, 20.0, 2)];
    assert b3 == [Bucket(20.0, 20.0, 3)];
    assert b4 == [Bucket(10.0, 20.0, 4)];
    assert Sketched(s, b3, 1).lines[0] == ColumnLine(s, b3[0], XcAdjust(s));
    assert Sketched(s, b4, 1).lines[0] == ColumnLine(s, b4[0], XcAdjust(s));
    assert LowResCalls(s, b3)[0].ys[0] == 20.0;
    assert LowResCalls(s, b4)[0].ys[0] == 10.0;
  }

  // The arrays of the low-resolution pass.

  /** The three column arrays hold the buckets. */
  predicate Mirrors(minPix: array<real>, maxPix: array<real>, nrEntries: array<int>, bs: seq<Bucket>)
    reads minPix, maxPix, nrEntries
  {
    minPix.Length == |bs| && maxPix.Length == |bs| && nrEntries.Length == |bs| &&
    forall c :: 0 <= c < |bs| ==> minPix[c] == bs[c].lo && maxPix[c] == bs[c].hi && nrEntries[c] == bs[c].n
  }

  /** The body of the bucketing loop for bin ip. */
  method Drop(s: Screen, f: Frame, x: seq<real>, y: seq<real>, ip: int,
              minPix: array<real>, maxPix: array<real>, nrEntries: array<int>, ghost bs: seq<Bucket>)
    requires NrPix(s) >= 1 && |bs| == NrPix(s) && 1 <= ip <= |y| && (f.bins ==> ip < |x|)
    requires minPix != maxPix && Mirrors(minPix, maxPix, nrEntries, bs)
    modifies minPix, maxPix, nrEntries
    ensures Mirrors(minPix, maxPix, nrEntries, DropAt(s, f, x, y, ip, bs))
  {
    var xw := Centre(f, x, ip);
    var ix := s.column(xw) - s.ax1Pix;
    if ix < 0 { ix := 0; }
    if ix >= NrPix(s) { ix := NrPix(s) - 1; }
    var yPixel := s.row(y[ip - 1]);
    if yPixel < s.ay1Pix {
      if minPix[ix] > yPixel as real { minPix[ix] := yPixel as real; }
      if maxPix[ix] < yPixel as real { maxPix[ix] := yPixel as real; }
      nrEntries[ix] := nrEntries[ix] + 1;
    }
  }

  /** The column arrays after bins 1..count. */
  method Collect(s: Screen, f: Frame, x: seq<real>, y: seq<real>, count: nat)
    returns (minPix: array<real>, maxPix: array<real>, nrEntries: array<int>)
    requires NrPix(s) >= 1 && count <= |y| && (f.bins ==> count < |x|)
    ensures minPix != maxPix && Mirrors(minPix, maxPix, nrEntries, Buckets(s, f, x, y, count))
  {
    var nrPix := NrPix(s);
    minPix := new real[nrPix];
    maxPix := new real[nrPix];
    nrEntries := new int[nrPix];
    var ip := 0;
    while ip < nrPix
      invariant 0 <= ip <= nrPix
      invariant forall c :: 0 <= c < ip ==> minPix[c] == Far && maxPix[c] == -Far && nrEntries[c] == 0
    {
      minPix[ip] := Far;
      maxPix[ip] := -Far;
      nrEntries[ip] := 0;
      ip := ip + 1;
    }
    ip := 1;
    while ip <= count
      invariant 1 <= ip <= count + 1
      invariant Mirrors(minPix, maxPix, nrEntries, Buckets(s, f, x, y, ip - 1))
    {
      Drop(s, f, x, y, ip, minPix, maxPix, nrEntries, Buckets(s, f, x, y, ip - 1));
      ip := ip + 1;
    }
  }

  /** The centre row of every column. */
  method CentreRows(minPix: array<real>, maxPix: array<real>, nrEntries: array<int>, ghost bs: seq<Bucket>)
    returns (centrPix: array<real>)
    requires Mirrors(minPix, maxPix, nrEntries, bs)
    ensures fresh(centrPix) && Columns(minPix, maxPix, centrPix, bs)
  {
    centrPix := new real[minPix.Length];
    var ipix := 0;
    while ipix < minPix.Length
      invariant 0 <= ipix <= minPix.Length
      invariant forall c :: 0 <= c < ipix ==> centrPix[c] == CentrePix(bs[c])
    {
      if nrEntries[ipix] > 0 {
        centrPix[ipix] := (minPix[ipix] + maxPix[ipix]) / 2.0;
      } else {
        centrPix[ipix] := 2.0 * RMax(RAbs(minPix[ipix]), RAbs(maxPix[ipix]));
      }
      ipix := ipix + 1;
    }
  }

  /** The arrays the painting pass reads hold the buckets' bounds and
      centres. */
  predicate Columns(minPix: array<real>, maxPix: array<real>, centrPix: array<real>, bs: seq<Bucket>)
    reads minPix, maxPix, centrPix
  {
    minPix.Length == |bs| && maxPix.Length == |bs| && centrPix.Length == |bs| &&
    forall c :: 0 <= c < |bs| ==>
      minPix[c] == bs[c].lo && maxPix[c] == bs[c].hi && centrPix[c] == CentrePix(bs[c])
  }

  /** The body of the painting loop for column ipix. */
  method PaintColumn(s: Screen, minPix: array<real>, maxPix: array<real>, centrPix: array<real>,
                     ghost bs: seq<Bucket>, ipix: nat, xcadjust: real,
                     xc: array<real>, yc: array<real>, nrLine: int, calls: seq<PaintCall>)
    returns (nrLine': int, calls': seq<PaintCall>)
    requires Columns(minPix, maxPix, centrPix, bs) && ipix < |bs| && xcadjust == XcAdjust(s)
    requires xc != yc && xc.Length == |bs| && yc.Length == |bs|
    requires calls == Sketched(s, bs, ipix).lines
    requires Holds(xc, yc, nrLine, Batch(Sketched(s, bs, ipix).xc, Sketched(s, bs, ipix).yc))
    modifies xc, yc
    ensures calls' == Sketched(s, bs, ipix + 1).lines
    ensures Holds(xc, yc, nrLine', Batch(Sketched(s, bs, ipix + 1).xc, Sketched(s, bs, ipix + 1).yc))
  {
    nrLine', calls' := nrLine, calls;
    var lo, hi, mid := minPix[ipix], maxPix[ipix], centrPix[ipix];
    assert lo == bs[ipix].lo && hi == bs[ipix].hi && mid == CentrePix(bs[ipix]);
    if lo <= hi {
      var u := s.pixelToX(s.ax1Pix + ipix) + xcadjust;
      PutPoint(xc, yc, nrLine, u, s.pixelToY(TruncReal(mid)));
      calls' := calls + [PolyLine([u, u], [s.pixelToY(TruncReal(lo)), s.pixelToY(TruncReal(hi))])];
      nrLine' := nrLine + 1;
    }
  }

  /** The painting pass over the columns: a vertical line for each
      column some bin reached, then the line through their centres. */
  method PaintColumns(s: Screen, minPix: array<real>, maxPix: array<real>, centrPix: array<real>,
                      ghost bs: seq<Bucket>)
    returns (calls: seq<PaintCall>)
    requires Columns(minPix, maxPix, centrPix, bs)
    ensures calls == LowResCalls(s, bs)
  {
    var nrPix := minPix.Length;
    var xc := new real[nrPix];
    var yc := new real[nrPix];
    var xcadjust := 0.3 * (s.pixelToX(s.ax1Pix + 1) - s.pixelToX(s.ax1Pix));
    var nrLine := 0;
    calls := [];
    var ipix := 0;
    while ipix < nrPix
      invariant 0 <= ipix <= nrPix
      invariant calls == Sketched(s, bs, ipix).lines
      invariant Holds(xc, yc, nrLine, Batch(Sketched(s, bs, ipix).xc, Sketched(s, bs, ipix).yc))
    {
      nrLine, calls := PaintColumn(s, minPix, maxPix, centrPix, bs, ipix, xcadjust, xc, yc, nrLine, calls);
      ipix := ipix + 1;
    }
    calls := calls + [PolyLine(xc[..nrLine], yc[..nrLine])];
  }

  /** The low-resolution pass of bins 1..last. */
  method LowResOf(s: Screen, f: Frame, x: seq<real>, y: seq<real>) returns (calls: seq<PaintCall>)
    requires NrPix(s) >= 1 && 0 <= f.last <= |y| && (f.bins ==> f.last < |x|)
    ensures calls == LowResPaint(s, f, x, y)
  {
    var minPix, maxPix, nrEntries := Collect(s, f, x, y, f.last);
    ghost var bs := Buckets(s, f, x, y, f.last);
    var centrPix := CentreRows(minPix, maxPix, nrEntries, bs);
    calls := PaintColumns(s, minPix, maxPix, centrPix, bs);
  }

  // ---------------------------------------------------------------------
  // PaintGrapHist: the parts in order.

  /** What a call of PaintGrapHist paints, and the bad edge that ended it,
      if any. */
  datatype Painting = Painting(calls: seq<PaintCall>, failed: Option<HistError>)

  /** The unrotated parts of PaintGrapHist, in this order: the fill area
      (option F without C), the histogram (option H or an empty option),
      the smooth curve (option C) and, for markers or a line, the
      low-resolution columns when LowResolution holds. A bad edge returns
      from the whole routine: the parts after it are not painted. */
  function GrapHistCalls(pad: Pad, s: Screen, o: HistOptions, f: Frame, border: bool,
                         x: seq<real>, y: seq<real>): Painting
    requires NrPix(s) >= 1 && 1 <= f.last <= |y| && (f.bins ==> f.last < |x|)
  {
    var fill := if o.fill && !o.curve then FillCalls(pad, f, o.one, border, x, y) else Ok([]);
    var hist := if o.hist then HistCalls(pad, f, o.off, x, y) else Ok([]);
    if fill.Err? then Painting([], Some(fill.error))
    else if hist.Err? then Painting(fill.value, Some(hist.error))
    else
      var later := LaterParts(pad, s, o, f, x, y);
      Painting(fill.value + hist.value + later.calls, later.failed)
  }

  /** The parts after the histogram: the smooth curve, then the
      low-resolution columns unless the curve met a bad edge. */
  function LaterParts(pad: Pad, s: Screen, o: HistOptions, f: Frame, x: seq<real>, y: seq<real>): Painting
    requires NrPix(s) >= 1 && 1 <= f.last <= |y| && (f.bins ==> f.last < |x|)
  {
    var curve := if o.curve then HistCurve(pad, f, CurveDrawtype(o.fill, o.one), x, y) else ([], None);
    if curve.1.Some? then Painting(curve.0, curve.1)
    else Painting(curve.0 + (if (o.star || o.mark || o.line) && LowResolution(s, f.last, o)
                             then LowResPaint(s, f, x, y) else []), None)
  }

  /** The curve pass fails exactly when option N is given and an edge
      decreases, with the same error as the outline pass. */
  lemma {:induction false} CurveFails(pad: Pad, f: Frame, x: seq<real>, y: seq<real>, start: Batch, k: nat)
    requires |start.xs| == |start.ys| == 1
    requires k <= |y| && (f.bins ==> k < |x|)
    ensures CurveRun(pad, f, x, y, k).failed.Some? <==> f.bins && !EdgesRise(x, k)
    ensures CurveRun(pad, f, x, y, k).failed.Some? ==>
              Outlined(f, true, start, x, y, k).Err? &&
              CurveRun(pad, f, x, y, k).failed.value == Outlined(f, true, start, x, y, k).error
    decreases k
  {
    if k > 0 {
      CurveFails(pad, f, x, y, start, k - 1);
      OutlineFails(f, true, start, x, y, k);
      OutlineFails(f, true, start, x, y, k - 1);
      if f.bins && EdgesRise(x, k - 1) && x[k - 1] <= x[k] {
        assert EdgesRise(x, k);
      }
    }
  }

  /** A bad edge ends PaintGrapHist exactly when option N is given, an
      edge decreases and one of the fill area, the histogram or the curve
      is selected; the first of these reports it, and only the curve
      pieces smoothed before the edge have been painted. */
  lemma BadEdgeEndsGrapHist(pad: Pad, s: Screen, o: HistOptions, f: Frame, border: bool,
                            x: seq<real>, y: seq<real>)
    requires NrPix(s) >= 1 && 1 <= f.last <= |y| && (f.bins ==> f.last < |x|)
    ensures GrapHistCalls(pad, s, o, f, border, x, y).failed.Some? <==>
              f.bins && !EdgesRise(x, f.last) && (o.fill || o.hist || o.curve)
    ensures GrapHistCalls(pad, s, o, f, border, x, y).failed.Some? ==>
              Outlined(f, true, FillStart(pad, f, o.one), x, y, f.last).Err? &&
              GrapHistCalls(pad, s, o, f, border, x, y).failed.value
                == Outlined(f, true, FillStart(pad, f, o.one), x, y, f.last).error &&
              GrapHistCalls(pad, s, o, f, border, x, y).calls
                == (if (o.fill && !o.curve) || o.hist then []
                    else HistCurve(pad, f, CurveDrawtype(o.fill, o.one), x, y).0)
  {
    var k := f.last;
    OutlineFails(f, true, FillStart(pad, f, o.one), x, y, k);
    OutlineFails(f, false, HistStart(pad, f), x, y, k);
    CurveFails(pad, f, x, y, FillStart(pad, f, o.one), k);
    if f.bins && !EdgesRise(x, k) {
      var e := Outlined(f, true, FillStart(pad, f, o.one), x, y, k).error;
      OutlinedSameError(f, FillStart(pad, f, o.one), HistStart(pad, f), x, y, k);
      assert FillCalls(pad, f, o.one, border, x, y) == Err(e);
      assert HistCalls(pad, f, o.off, x, y) == Err(e);
    }
  }

  /** The fill pass and the histogram pass stop at the same edge with the
      same error. */
  lemma OutlinedSameError(f: Frame, a: Batch, b: Batch, x: seq<real>, y: seq<real>, k: nat)
    requires |a.xs| == |a.ys| == 1 && |b.xs| == |b.ys| == 1
    requires k <= |y| && (f.bins ==> k < |x|)
    requires Outlined(f, true, a, x, y, k).Err?
    ensures Outlined(f, false, b, x, y, k).Err?
    ensures Outlined(f, false, b, x, y, k).error == Outlined(f, true, a, x, y, k).error
  {
    OutlineFails(f, true, a, x, y, k);
    OutlineFails(f, false, b, x, y, k);
    var i :| 1 <= i <= k && x[i] < x[i - 1] && EdgesRise(x, i - 1) &&
             Outlined(f, true, a, x, y, k).error == (if i == f.last then MissingEdge else NotIncreasing);
    var j :| 1 <= j <= k && x[j] < x[j - 1] && EdgesRise(x, j - 1) &&
             Outlined(f, false, b, x, y, k).error == (if j == f.last then MissingEdge else NotIncreasing);
    assert i == j;
  }

  /** An empty option paints the histogram and nothing else. */
  lemma EmptyOptionPaintsHistogram(pad: Pad, s: Screen, f: Frame, border: bool, x: seq<real>, y: seq<real>)
    requires NrPix(s) >= 1 && 1 <= f.last <= |y| && (f.bins ==> f.last < |x|)
    ensures GrapHistCalls(pad, s, DecodeHistOptions(""), f, border, x, y)
              == match HistCalls(pad, f, false, x, y)
                 case Ok(v) => Painting(v, None)
                 case Err(e) => Painting([], Some(e))
  {
    var o := DecodeHistOptions("");
    assert o.hist && !o.fill && !o.curve && !o.star && !o.mark && !o.line && !o.off;
  }

  /** PaintGrapHist: nothing for a non-positive number of points, otherwise
      the parts its options select, on the frame of x. */
  method PaintGrapHist(pad: Pad, s: Screen, chopt: string, x: seq<real>, y: seq<real>, npoints: int,
                       dxframe: real, dyframe: real, border: bool)
    returns (calls: seq<PaintCall>, failed: Option<HistError>)
    requires NrPix(s) >= 1
    requires npoints >= 1 ==> 2 <= |x| && npoints <= |y| && (Mentions(chopt, 'N') ==> npoints < |x|)
    ensures npoints <= 0 ==> calls == [] && failed == None
    ensures npoints >= 1 && !DecodeHistOptions(chopt).rotate ==>
              Painting(calls, failed)
                == GrapHistCalls(pad, s, DecodeHistOptions(chopt),
                                 HistFrame(pad, Mentions(chopt, 'N'), x, npoints, dxframe, dyframe),
                                 border, x, y)
  {
    calls, failed := [], None;
    if npoints <= 0 {
      return;
    }
    var o := DecodeHistOptions(chopt);
    if o.rotate {
      return;
    }
    var f := HistFrame(pad, o.bins, x, npoints, dxframe, dyframe);
    calls, failed := GrapHistOf(pad, s, o, f, border, x, y);
  }

  /** The unrotated parts, each painted by its own pass. */
  method GrapHistOf(pad: Pad, s: Screen, o: HistOptions, f: Frame, border: bool,
                    x: seq<real>, y: seq<real>)
    returns (calls: seq<PaintCall>, failed: Option<HistError>)
    requires NrPix(s) >= 1 && 1 <= f.last <= |y| && (f.bins ==> f.last < |x|)
    ensures Painting(calls, failed) == GrapHistCalls(pad, s, o, f, border, x, y)
  {
    var fill: Result<seq<PaintCall>> := Ok([]);
    if o.fill && !o.curve {
      fill := FillOutline(pad, f, o.one, border, x, y);
    }
    if fill.Err? {
      return [], Some(fill.error);
    }
    var hist: Result<seq<PaintCall>> := Ok([]);
    if o.hist {
      hist := HistOutline(pad, f, o.off, x, y);
    }
    if hist.Err? {
      return fill.value, Some(hist.error);
    }
    var later;
    later, failed := LaterPartsOf(pad, s, o, f, x, y);
    calls := fill.value + hist.value + later;
  }

  /** The curve, and the low-resolution columns when the curve pass ran
      to the end. */
  method LaterPartsOf(pad: Pad, s: Screen, o: HistOptions, f: Frame, x: seq<real>, y: seq<real>)
    returns (calls: seq<PaintCall>, failed: Option<HistError>)
    requires NrPix(s) >= 1 && 1 <= f.last <= |y| && (f.bins ==> f.last < |x|)
    ensures Painting(calls, failed) == LaterParts(pad, s, o, f, x, y)
  {
    calls, failed := [], None;
    if o.curve {
      calls, failed := HistCurveOf(pad, f, CurveDrawtype(o.fill, o.one), x, y);
      if failed.Some? {
        return;
      }
    }
    if (o.star || o.mark || o.line) && LowResolution(s, f.last, o) {
      var low := LowResOf(s, f, x, y);
      calls := calls + low;
    }
  }
}
