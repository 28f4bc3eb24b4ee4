/** PaintPolyLineHatches: a polyline drawn with hatches on one side, the
    exclusion-zone style selected by line widths of 100 and more. The
    polyline, without repeated points, goes to normalised device coordinates
    (NDC); each point gets a partner shifted by the hatch width; crossings
    in the shifted line are cut out; the outline of polyline and shifted line
    goes back to user coordinates and is painted as one fill area. */
module Hatching {
  import opened Canvas

  /** The trigonometric functions of TMath, left uninterpreted. */
  datatype Trig = Trig(atan: real -> real, sin: real -> real, cos: real -> real)

  const PiOver2: real := 1.5707963267948966

  // ---------------------------------------------------------------------
  // Hatch width.

  /** w = (line width / 100) * 0.005 with C integer division: the hundreds
      of the line width select the width, their sign the side. */
  function HatchWidth(lineWidth: int): (w: real)
    ensures -100 < lineWidth < 100 <==> w == 0.0
    ensures lineWidth >= 100 <==> w > 0.0
    ensures lineWidth <= -100 <==> w < 0.0
  {
    var q := TruncDiv(lineWidth, 100);
    assert Abs(q) * 100 <= Abs(lineWidth) < (Abs(q) + 1) * 100;
    assert q == 0 <==> -100 < lineWidth < 100;
    q as real * 0.005
  }

  // ---------------------------------------------------------------------
  // User coordinates to true NDC and back.

  /** The window and pad geometry PaintPolyLineHatches reads from gPad: the
      window size in pixels, the pad corners as fractions of the window and
      the user range of the pad. */
  datatype PadWindow = PadWindow(ww: int, wh: int,
                                 x1p: real, y1p: real, x2p: real, y2p: real,
                                 rx1: real, ry1: real, rx2: real, ry2: real)

  /** The affine map of one axis from user coordinates to true NDC:
      u = scale * (v - user1) + ndc1. */
  datatype Axis = Axis(scale: real, user1: real, ndc1: real)

  function ToNdc(a: Axis, v: real): real { a.scale * (v - a.user1) + a.ndc1 }

  /** The way back, (1 / scale) * (u - ndc1) + user1. */
  function ToUser(a: Axis, u: real): real { Quot(1.0, a.scale) * (u - a.ndc1) + a.user1 }

  /** Over exact reals, going to NDC and back returns every user coordinate
      unchanged when the scale factor is not zero. */
  lemma NdcRoundTrip(a: Axis, v: real)
    requires a.scale != 0.0
    ensures ToUser(a, ToNdc(a, v)) == v
  {
    assert Quot(1.0, a.scale) * (ToNdc(a, v) - a.ndc1) == (1.0 / a.scale) * (a.scale * (v - a.user1));
  }

  /** C conversion of a double to int: truncation toward zero. */
  function Trunc(v: real): (r: int)
    ensures RAbs(r as real) <= RAbs(v) < RAbs(r as real) + 1.0
    ensures v >= 0.0 ==> r >= 0
    ensures v <= 0.0 ==> r <= 0
  {
    if v >= 0.0 then v.Floor else -((-v).Floor)
  }

  /** The pad corners in true NDC: the pixel corners (truncated) divided by
      the window size, with the shorter window side as 1. */
  function PadCorners(p: PadWindow): (real, real, real, real)
    requires p.ww > 0 && p.wh > 0
  {
    var iw, ih := p.ww as real, p.wh as real;
    var wndc := RMin(1.0, iw / ih);
    var hndc := RMin(1.0, ih / iw);
    var rw, rh := wndc / iw, hndc / ih;
    (Trunc(iw * p.x1p) as real * rw, Trunc(ih * p.y1p) as real * rh,
     Trunc(iw * p.x2p) as real * rw, Trunc(ih * p.y2p) as real * rh)
  }

  /** The user-to-NDC maps of both axes. A degenerate user range gives the
      factor 0 here where the floating-point code divides by zero. */
  function NdcAxes(p: PadWindow): (r: (Axis, Axis))
    requires p.ww > 0 && p.wh > 0
    // The user range of the pad maps onto its NDC extent.
    ensures var (x1ndc, y1ndc, x2ndc, y2ndc) := PadCorners(p);
            ToNdc(r.0, p.rx1) == x1ndc && ToNdc(r.1, p.ry1) == y1ndc &&
            (p.rx2 != p.rx1 ==> ToNdc(r.0, p.rx2) == x2ndc) &&
            (p.ry2 != p.ry1 ==> ToNdc(r.1, p.ry2) == y2ndc)
  {
    var (x1ndc, y1ndc, x2ndc, y2ndc) := PadCorners(p);
    (Axis(Quot(x2ndc - x1ndc, p.rx2 - p.rx1), p.rx1, x1ndc),
     Axis(Quot(y2ndc - y1ndc, p.ry2 - p.ry1), p.ry1, y1ndc))
  }

  /** A whole batch taken to NDC, and back. */
  function ToNdcAll(a: Axis, s: seq<real>): (r: seq<real>)
    ensures |r| == |s| && forall i :: 0 <= i < |s| ==> r[i] == ToNdc(a, s[i])
  {
    seq(|s|, i requires 0 <= i < |s| => ToNdc(a, s[i]))
  }

  function ToUserAll(a: Axis, s: seq<real>): (r: seq<real>)
    ensures |r| == |s| && forall i :: 0 <= i < |s| ==> r[i] == ToUser(a, s[i])
  {
    seq(|s|, i requires 0 <= i < |s| => ToUser(a, s[i]))
  }

  lemma NdcRoundTripAll(a: Axis, s: seq<real>)
    requires a.scale != 0.0
    ensures ToUserAll(a, ToNdcAll(a, s)) == s
  {
    forall i | 0 <= i < |s|
      ensures ToUserAll(a, ToNdcAll(a, s))[i] == s[i]
    {
      NdcRoundTrip(a, s[i]);
    }
  }

  // ---------------------------------------------------------------------
  // The polyline without repeated points.

  /** Indices of the points of xs/ys[..i] that survive thinning: the first
      one and every point that differs from its predecessor. */
  function Kept(xs: seq<real>, ys: seq<real>, i: nat): (k: seq<int>)
    requires i <= |xs| && i <= |ys|
    ensures |k| <= i && forall m :: 0 <= m < |k| ==> 0 <= k[m] < i
    ensures i >= 1 ==> |k| >= 1 && k[0] == 0
  {
    if i == 0 then []
    else Kept(xs, ys, i - 1) +
         (if i == 1 || xs[i - 1] != xs[i - 2] || ys[i - 1] != ys[i - 2] then [i - 1] else [])
  }

  /** Kept indices are increasing, and the last one names a point equal to
      the last point of the prefix. */
  lemma {:induction false} KeptShape(xs: seq<real>, ys: seq<real>, i: nat)
    requires 1 <= i <= |xs| && i <= |ys|
    ensures var k := Kept(xs, ys, i);
              (forall m :: 0 < m < |k| ==> k[m - 1] < k[m]) &&
              xs[k[|k| - 1]] == xs[i - 1] && ys[k[|k| - 1]] == ys[i - 1]
  {
    if i > 1 {
      KeptShape(xs, ys, i - 1);
    }
  }

  /** Consecutive surviving points differ: thinning removes exactly the
      repeats. */
  lemma {:induction false} KeptAdjacentDiffer(xs: seq<real>, ys: seq<real>, i: nat, m: nat)
    requires 1 <= i <= |xs| && i <= |ys|
    requires m + 1 < |Kept(xs, ys, i)|
    ensures var k := Kept(xs, ys, i);
              xs[k[m]] != xs[k[m + 1]] || ys[k[m]] != ys[k[m + 1]]
  {
    var k := Kept(xs, ys, i - 1);
    if m + 1 < |k| {
      KeptAdjacentDiffer(xs, ys, i - 1, m);
    } else {
      KeptShape(xs, ys, i - 1);
    }
  }

  /** Every dropped point repeats the point before it. */
  lemma {:induction false} DroppedRepeat(xs: seq<real>, ys: seq<real>, i: nat, p: nat)
    requires 1 <= p < i <= |xs| && i <= |ys|
    requires p !in Kept(xs, ys, i)
    ensures xs[p] == xs[p - 1] && ys[p] == ys[p - 1]
  {
    if p < i - 1 {
      DroppedRepeat(xs, ys, i - 1, p);
    }
  }

  /** The coordinates at the indices k. */
  function Gather(vs: seq<real>, k: seq<int>): (r: seq<real>)
    requires forall m :: 0 <= m < |k| ==> 0 <= k[m] < |vs|
    ensures |r| == |k| && forall m :: 0 <= m < |k| ==> r[m] == vs[k[m]]
  {
    seq(|k|, m requires 0 <= m < |k| => vs[k[m]])
  }

  lemma GatherStep(a: Axis, vs: seq<real>, k: seq<int>, i: nat)
    requires i < |vs| && forall m :: 0 <= m < |k| ==> 0 <= k[m] < |vs|
    ensures ToNdcAll(a, Gather(vs, k + [i])) == ToNdcAll(a, Gather(vs, k)) + [ToNdc(a, vs[i])]
  {
    assert Gather(vs, k + [i]) == Gather(vs, k) + [vs[i]];
  }

  /** Stores v in slot at of buf. */
  method Put(buf: array<real>, at: int, v: real)
    requires 0 <= at < buf.Length
    modifies buf
    ensures buf[..at + 1] == old(buf[..at]) + [v] && buf[at + 1..] == old(buf[at + 1..])
  {
    buf[at] := v;
  }

  /** The first nf+1 slots of xf and yf hold the points of x[..i], y[..i]
      that survive thinning, in NDC. */
  predicate ThinnedTo(x: array<real>, y: array<real>, i: int, ax: Axis, ay: Axis,
                      xf: array<real>, yf: array<real>, nf: int)
    reads x, y, xf, yf
  {
    1 <= i <= x.Length && i <= y.Length &&
    nf + 1 == |Kept(x[..], y[..], i)| && nf + 1 <= xf.Length && nf + 1 <= yf.Length &&
    xf[..nf + 1] == ToNdcAll(ax, Gather(x[..], Kept(x[..], y[..], i))) &&
    yf[..nf + 1] == ToNdcAll(ay, Gather(y[..], Kept(x[..], y[..], i)))
  }

  /** The first point is always kept. */
  method ThinStart(x: array<real>, y: array<real>, ax: Axis, ay: Axis, xf: array<real>, yf: array<real>)
    requires 1 <= x.Length && 1 <= y.Length
    requires xf != yf && xf != x && xf != y && yf != x && yf != y && 1 <= xf.Length && 1 <= yf.Length
    modifies xf, yf
    ensures ThinnedTo(x, y, 1, ax, ay, xf, yf, 0)
  {
    xf[0], yf[0] := ToNdc(ax, x[0]), ToNdc(ay, y[0]);
    assert Kept(x[..], y[..], 1) == [0];
    assert Gather(x[..], [0]) == [x[0]] && Gather(y[..], [0]) == [y[0]];
  }

  /** The body of the thinning loop for point i: kept when it differs from
      the point before it. */
  method ThinStep(x: array<real>, y: array<real>, i: int, ax: Axis, ay: Axis,
                  xf: array<real>, yf: array<real>, nf: int)
    returns (nf': int)
    requires 1 <= i < x.Length && i < y.Length
    requires xf != yf && xf != x && xf != y && yf != x && yf != y
    requires xf.Length == yf.Length && i < xf.Length
    requires ThinnedTo(x, y, i, ax, ay, xf, yf, nf)
    modifies xf, yf
    ensures ThinnedTo(x, y, i + 1, ax, ay, xf, yf, nf')
  {
    ghost var xs, ys := x[..], y[..];
    ghost var k := Kept(xs, ys, i);
    assert x[i] == xs[i] && x[i - 1] == xs[i - 1] && y[i] == ys[i] && y[i - 1] == ys[i - 1];
    nf' := nf;
    if !(x[i] == x[i - 1] && y[i] == y[i - 1]) {
      GatherStep(ax, xs, k, i);
      GatherStep(ay, ys, k, i);
      nf' := nf + 1;
      PutPoint(xf, yf, nf', ToNdc(ax, x[i]), ToNdc(ay, y[i]));
    }
  }

  /** The thinning loop: the surviving points, in NDC, in the first slots of
      two fresh buffers of 2n slots; nf is the index of the last one. */
  method Thin(x: array<real>, y: array<real>, n: int, ax: Axis, ay: Axis)
    returns (xf: array<real>, yf: array<real>, nf: int)
    requires 1 <= n <= x.Length && n <= y.Length
    ensures fresh(xf) && fresh(yf) && xf != yf && xf.Length == 2 * n && yf.Length == 2 * n
    ensures nf + 1 == |Kept(x[..], y[..], n)| && 0 <= nf < n
    ensures xf[..nf + 1] == ToNdcAll(ax, Gather(x[..], Kept(x[..], y[..], n)))
    ensures yf[..nf + 1] == ToNdcAll(ay, Gather(y[..], Kept(x[..], y[..], n)))
  {
    xf := new real[2 * n];
    yf := new real[2 * n];
    ThinStart(x, y, ax, ay, xf, yf);
    nf := 0;
    var i := 1;
    while i < n
      invariant 1 <= i <= n && ThinnedTo(x, y, i, ax, ay, xf, yf, nf)
    {
      nf := ThinStep(x, y, i, ax, ay, xf, yf, nf);
      i := i + 1;
    }
  }

  // ---------------------------------------------------------------------
  // The shifted points.

  /** Direction of the segment (x0,y0)-(x1,y1), pi/2 for a vertical one. */
  function Slope(trig: Trig, x0: real, y0: real, x1: real, y1: real): real {
    if x1 == x0 then PiOver2 else trig.atan((y1 - y0) / (x1 - x0))
  }

  /** Shift of the first point, to the left of the first segment. */
  function StartShift(trig: Trig, w: real, x0: real, y0: real, x1: real, y1: real): (real, real) {
    var a := Slope(trig, x0, y0, x1, y1);
    if x0 <= x1 then (x0 - w * trig.sin(a), y0 + w * trig.cos(a))
    else (x0 + w * trig.sin(a), y0 - w * trig.cos(a))
  }

  /** Shift of the last point, to the left of the last segment. */
  function EndShift(trig: Trig, w: real, xp: real, yp: real, xn: real, yn: real): (real, real) {
    var a := Slope(trig, xp, yp, xn, yn);
    if xn >= xp then (xn - w * trig.sin(a), yn + w * trig.cos(a))
    else (xn + w * trig.sin(a), yn - w * trig.cos(a))
  }

  /** The point (x3, y3) does not lie on the far side of (xi0, yi0) from
      (xm, ym) on both axes at once. */
  predicate SameSide(xi0: real, yi0: real, xm: real, ym: real, x3: real, y3: real) {
    !((xm - xi0) * (x3 - xi0) < 0.0 && (ym - yi0) * (y3 - yi0) < 0.0)
  }

  /** The point reflected through (xi0, yi0) when it lies on the far side
      of (xm, ym) on both axes. */
  function Toward(xi0: real, yi0: real, xm: real, ym: real, x3: real, y3: real): (r: (real, real))
    ensures SameSide(xi0, yi0, xm, ym, r.0, r.1)
    ensures r == (x3, y3) || r == (2.0 * xi0 - x3, 2.0 * yi0 - y3)
  {
    if (xm - xi0) * (x3 - xi0) < 0.0 && (ym - yi0) * (y3 - yi0) < 0.0 then
      assert (xm - xi0) * ((2.0 * xi0 - x3) - xi0) == -((xm - xi0) * (x3 - xi0));
      (2.0 * xi0 - x3, 2.0 * yi0 - y3)
    else (x3, y3)
  }

  /** Middle of the two shifts of an interior point P(i), one for each
      adjacent segment. */
  function Bisector(trig: Trig, w: real, xi2: real, yi2: real, xi0: real, yi0: real,
                    xi1: real, yi1: real): (real, real)
  {
    var a1 := Slope(trig, xi0, yi0, xi1, yi1) + (if xi1 < xi0 then 3.14159 else 0.0);
    var a2 := Slope(trig, xi2, yi2, xi0, yi0) + (if xi0 < xi2 then 3.14159 else 0.0);
    var x1, y1 := xi0 - w * trig.sin(a1), yi0 + w * trig.cos(a1);
    var x2, y2 := xi0 - w * trig.sin(a2), yi0 + w * trig.cos(a2);
    ((x1 + x2) * 0.5, (y1 + y2) * 0.5)
  }

  /** Shift of an interior point P(i) with neighbours P(i-1) (xi2, yi2) and
      P(i+1) (xi1, yi1): w along the bisector of the two segment normals,
      on the side of their middle; the middle itself when both shifts
      coincide. */
  function InteriorShift(trig: Trig, w: real, xi2: real, yi2: real, xi0: real, yi0: real,
                         xi1: real, yi1: real): (r: (real, real))
    ensures var (xm, ym) := Bisector(trig, w, xi2, yi2, xi0, yi0, xi1, yi1);
              SameSide(xi0, yi0, xm, ym, r.0, r.1)
  {
    var a1 := Slope(trig, xi0, yi0, xi1, yi1) + (if xi1 < xi0 then 3.14159 else 0.0);
    var x1, y1 := xi0 - w * trig.sin(a1), yi0 + w * trig.cos(a1);
    var (xm, ym) := Bisector(trig, w, xi2, yi2, xi0, yi0, xi1, yi1);
    var a3 := Slope(trig, xi0, yi0, xm, ym);
    if xm == x1 && ym == y1 then
      assert (xm - xi0) * (xm - xi0) >= 0.0;
      (xm, ym)
    else
      Toward(xi0, yi0, xm, ym, xi0 - w * trig.sin(a3 + 1.57079), yi0 + w * trig.cos(a3 + 1.57079))
  }

  /** Shift shared by the two ends of a closed polyline, on the side of the
      middle of their separate shifts (xm, ym). */
  function ClosingShift(trig: Trig, w: real, x0: real, y0: real, xm: real, ym: real): (r: (real, real))
    ensures SameSide(x0, y0, xm, ym, r.0, r.1)
  {
    var a3 := Slope(trig, x0, y0, xm, ym);
    Toward(x0, y0, xm, ym, x0 + w * trig.sin(a3 + 1.57079), y0 - w * trig.cos(a3 + 1.57079))
  }

  /** Middle of two points. */
  function Mid(p: (real, real), q: (real, real)): (real, real) {
    ((p.0 + q.0) * 0.5, (p.1 + q.1) * 0.5)
  }

  /** The shift of interior point i of the thinned line xs/ys. */
  function InteriorAt(trig: Trig, w: real, xs: seq<real>, ys: seq<real>, i: nat): (real, real)
    requires 0 < i < |xs| - 1 && |ys| == |xs|
  {
    InteriorShift(trig, w, xs[i - 1], ys[i - 1], xs[i], ys[i], xs[i + 1], ys[i + 1])
  }

  /** The shift of point i of the thinned line xs/ys: the start and end
      shifts at the two ends, shared by both ends of a closed line, and
      InteriorAt in between. */
  function ShiftedAt(trig: Trig, w: real, xs: seq<real>, ys: seq<real>, i: nat): (real, real)
    requires 2 <= |xs| == |ys| && i < |xs|
  {
    var nf := |xs| - 1;
    var s := StartShift(trig, w, xs[0], ys[0], xs[1], ys[1]);
    var e := EndShift(trig, w, xs[nf - 1], ys[nf - 1], xs[nf], ys[nf]);
    if (i == 0 || i == nf) && xs[nf] == xs[0] && ys[nf] == ys[0] then
      ClosingShift(trig, w, xs[0], ys[0], Mid(e, s).0, Mid(e, s).1)
    else if i == 0 then s
    else if i == nf then e
    else InteriorAt(trig, w, xs, ys, i)
  }

  /** The shifted line: one shifted point per point of the thinned line. */
  function ShiftedLine(trig: Trig, w: real, xs: seq<real>, ys: seq<real>): (r: (seq<real>, seq<real>))
    requires 2 <= |xs| == |ys|
    ensures |r.0| == |r.1| == |xs|
    ensures forall i :: 0 <= i < |xs| ==> (r.0[i], r.1[i]) == ShiftedAt(trig, w, xs, ys, i)
  {
    (seq(|xs|, i requires 0 <= i < |xs| => ShiftedAt(trig, w, xs, ys, i).0),
     seq(|xs|, i requires 0 <= i < |xs| => ShiftedAt(trig, w, xs, ys, i).1))
  }

  /** Where the shifted points lie: a closed line gets a closed shifted
      line whose shared end lies on the side of the middle of the two end
      shifts; an open one keeps the start and end shifts; every interior
      shift lies on the side of its bisector point. */
  lemma ShiftedLineShape(trig: Trig, w: real, xs: seq<real>, ys: seq<real>)
    requires 2 <= |xs| == |ys|
    ensures var (sx, sy) := ShiftedLine(trig, w, xs, ys);
            var nf := |xs| - 1;
            var s := StartShift(trig, w, xs[0], ys[0], xs[1], ys[1]);
            var e := EndShift(trig, w, xs[nf - 1], ys[nf - 1], xs[nf], ys[nf]);
            (xs[nf] == xs[0] && ys[nf] == ys[0] ==>
               sx[0] == sx[nf] && sy[0] == sy[nf] &&
               SameSide(xs[0], ys[0], Mid(e, s).0, Mid(e, s).1, sx[0], sy[0])) &&
            (!(xs[nf] == xs[0] && ys[nf] == ys[0]) ==> (sx[0], sy[0]) == s && (sx[nf], sy[nf]) == e) &&
            forall i :: 0 < i < nf ==>
              SameSide(xs[i], ys[i], Bisector(trig, w, xs[i - 1], ys[i - 1], xs[i], ys[i], xs[i + 1], ys[i + 1]).0,
                       Bisector(trig, w, xs[i - 1], ys[i - 1], xs[i], ys[i], xs[i + 1], ys[i + 1]).1, sx[i], sy[i])
  {
    var (sx, sy) := ShiftedLine(trig, w, xs, ys);
    var nf := |xs| - 1;
    assert (sx[0], sy[0]) == ShiftedAt(trig, w, xs, ys, 0);
    assert (sx[nf], sy[nf]) == ShiftedAt(trig, w, xs, ys, nf);
    forall i | 0 < i < nf
      ensures SameSide(xs[i], ys[i], Bisector(trig, w, xs[i - 1], ys[i - 1], xs[i], ys[i], xs[i + 1], ys[i + 1]).0,
                       Bisector(trig, w, xs[i - 1], ys[i - 1], xs[i], ys[i], xs[i + 1], ys[i + 1]).1, sx[i], sy[i])
    {
      assert (sx[i], sy[i]) == ShiftedAt(trig, w, xs, ys, i) == InteriorAt(trig, w, xs, ys, i);
    }
  }

  /** The shifts of the interior points 1 .. nf-1. */
  method ShiftInterior(trig: Trig, w: real, xf: array<real>, yf: array<real>, nf: int,
                       xt: array<real>, yt: array<real>)
    requires 1 <= nf < xf.Length && xf.Length == yf.Length && nf < xt.Length && nf < yt.Length
    requires xt != yt && xt != xf && xt != yf && yt != xf && yt != yf
    modifies xt, yt
    ensures forall i :: 0 < i < nf ==> (xt[i], yt[i]) == InteriorAt(trig, w, xf[..nf + 1], yf[..nf + 1], i)
    ensures xt[0] == old(xt[0]) && yt[0] == old(yt[0]) && xt[nf] == old(xt[nf]) && yt[nf] == old(yt[nf])
  {
    ghost var sx, sy := xf[..nf + 1], yf[..nf + 1];
    var i := 1;
    while i < nf
      invariant 1 <= i <= nf
      invariant xt[0] == old(xt[0]) && yt[0] == old(yt[0]) && xt[nf] == old(xt[nf]) && yt[nf] == old(yt[nf])
      invariant forall j :: 0 < j < i ==> (xt[j], yt[j]) == InteriorAt(trig, w, sx, sy, j)
    {
      var p := InteriorAt(trig, w, xf[..nf + 1], yf[..nf + 1], i);
      xt[i], yt[i] := p.0, p.1;
      i := i + 1;
    }
  }

  /** The shifted line xt/yt for the thinned points xf/yf[..nf+1]. */
  method Shift(trig: Trig, w: real, xf: array<real>, yf: array<real>, nf: int, n: int)
    returns (xt: array<real>, yt: array<real>)
    requires 1 <= nf < n && nf < xf.Length && xf.Length == yf.Length
    ensures fresh(xt) && fresh(yt) && xt.Length == n && yt.Length == n
    ensures (xt[..nf + 1], yt[..nf + 1]) == ShiftedLine(trig, w, xf[..nf + 1], yf[..nf + 1])
    ensures var s := StartShift(trig, w, xf[0], yf[0], xf[1], yf[1]);
            var e := EndShift(trig, w, xf[nf - 1], yf[nf - 1], xf[nf], yf[nf]);
            if xf[nf] == xf[0] && yf[nf] == yf[0] then
              // A closed polyline gets a closed shifted line.
              xt[0] == xt[nf] && yt[0] == yt[nf] &&
              (xt[0], yt[0]) == ClosingShift(trig, w, xf[0], yf[0], Mid(e, s).0, Mid(e, s).1)
            else (xt[0], yt[0]) == s && (xt[nf], yt[nf]) == e
  {
    ghost var xs, ys := xf[..nf + 1], yf[..nf + 1];
    xt := new real[n];
    yt := new real[n];
    var s := StartShift(trig, w, xf[0], yf[0], xf[1], yf[1]);
    var e := EndShift(trig, w, xf[nf - 1], yf[nf - 1], xf[nf], yf[nf]);
    var first, last := s, e;
    if xf[nf] == xf[0] && yf[nf] == yf[0] {
      var p := ClosingShift(trig, w, xf[0], yf[0], Mid(e, s).0, Mid(e, s).1);
      first, last := p, p;
    }
    assert first == ShiftedAt(trig, w, xs, ys, 0) && last == ShiftedAt(trig, w, xs, ys, nf);
    xt[0], yt[0] := first.0, first.1;
    xt[nf], yt[nf] := last.0, last.1;
    ShiftInterior(trig, w, xf, yf, nf, xt, yt);
    ShiftedPoints(trig, w, xs, ys, xt[..nf + 1], yt[..nf + 1]);
  }

  /** Two sequences whose points are ShiftedAt at every index, the ends
      given, form the shifted line. */
  lemma ShiftedPoints(trig: Trig, w: real, xs: seq<real>, ys: seq<real>, tx: seq<real>, ty: seq<real>)
    requires 2 <= |xs| == |ys| == |tx| == |ty|
    requires (tx[0], ty[0]) == ShiftedAt(trig, w, xs, ys, 0)
    requires (tx[|xs| - 1], ty[|xs| - 1]) == ShiftedAt(trig, w, xs, ys, |xs| - 1)
    requires forall i :: 0 < i < |xs| - 1 ==> (tx[i], ty[i]) == InteriorAt(trig, w, xs, ys, i)
    ensures (tx, ty) == ShiftedLine(trig, w, xs, ys)
  {
    var r := ShiftedLine(trig, w, xs, ys);
    forall i | 0 <= i < |xs|
      ensures tx[i] == r.0[i] && ty[i] == r.1[i]
    {
      if 0 < i < |xs| - 1 {
        assert ShiftedAt(trig, w, xs, ys, i) == InteriorAt(trig, w, xs, ys, i);
      }
    }
    assert tx == r.0 && ty == r.1;
  }

  // ---------------------------------------------------------------------
  // Cutting out crossings of the shifted line.

  /** Slope and intercept of the line through two points of different
      abscissae. */
  function Line(x0: real, y0: real, x1: real, y1: real): (l: (real, real))
    requires x0 != x1
    ensures l.0 * (x0 - x1) == y0 - y1
  {
    var c := (y0 - y1) / (x0 - x1);
    (c, y1 - c * x1)
  }

  /** The crossing of segment a (ax0,ay0)-(ax1,ay1) with segment b, when
      neither is vertical, they are not parallel and the crossing lies
      strictly inside both bounding boxes. */
  function Crossing(ax0: real, ay0: real, ax1: real, ay1: real,
                    bx0: real, by0: real, bx1: real, by1: real): (r: Option<(real, real)>)
    ensures r.Some? ==>
              var (xc, yc) := r.value;
              RMin(ax1, ax0) < xc < RMax(ax1, ax0) && RMin(bx1, bx0) < xc < RMax(bx1, bx0) &&
              RMin(ay1, ay0) < yc < RMax(ay1, ay0) && RMin(by1, by0) < yc < RMax(by1, by0)
  {
    if ax0 == ax1 || bx0 == bx1 then None
    else
      var (c1, b1) := Line(ax0, ay0, ax1, ay1);
      var (c2, b2) := Line(bx0, by0, bx1, by1);
      if c1 == c2 then None
      else
        var xc := (b2 - b1) / (c1 - c2);
        var yc := c1 * xc + b1;
        if RMin(ax1, ax0) < xc < RMax(ax1, ax0) && RMin(bx1, bx0) < xc < RMax(bx1, bx0) &&
           RMin(ay1, ay0) < yc < RMax(ay1, ay0) && RMin(by1, by0) < yc < RMax(by1, by0)
        then Some((xc, yc))
        else None
  }

  /** A point of the line y = c*x + b through (x0, y0) and (x1, y1). */
  lemma OnLine(x0: real, y0: real, x1: real, y1: real, xc: real)
    requires x0 != x1
    ensures var (c, b) := Line(x0, y0, x1, y1);
            (c * xc + b - y1) * (x0 - x1) == (y0 - y1) * (xc - x1)
  {
    var (c, b) := Line(x0, y0, x1, y1);
    assert c * xc + b - y1 == c * (xc - x1);
    calc {
      (c * (xc - x1)) * (x0 - x1);
      (c * (x0 - x1)) * (xc - x1);
    }
  }

  /** Two non-parallel lines meet at xc = (b2 - b1) / (c1 - c2). */
  lemma LinesMeet(c1: real, b1: real, c2: real, b2: real)
    requires c1 != c2
    ensures var xc := (b2 - b1) / (c1 - c2); c1 * xc + b1 == c2 * xc + b2
  {
    var xc := (b2 - b1) / (c1 - c2);
    assert xc * (c1 - c2) == b2 - b1;
  }

  /** A reported crossing lies on both lines. */
  lemma CrossingOnBothLines(ax0: real, ay0: real, ax1: real, ay1: real,
                            bx0: real, by0: real, bx1: real, by1: real)
    requires Crossing(ax0, ay0, ax1, ay1, bx0, by0, bx1, by1).Some?
    ensures var (xc, yc) := Crossing(ax0, ay0, ax1, ay1, bx0, by0, bx1, by1).value;
              (yc - ay1) * (ax0 - ax1) == (ay0 - ay1) * (xc - ax1) &&
              (yc - by1) * (bx0 - bx1) == (by0 - by1) * (xc - bx1)
  {
    var (c1, b1) := Line(ax0, ay0, ax1, ay1);
    var (c2, b2) := Line(bx0, by0, bx1, by1);
    var xc := (b2 - b1) / (c1 - c2);
    OnLine(ax0, ay0, ax1, ay1, xc);
    LinesMeet(c1, b1, c2, b2);
    OnLine(bx0, by0, bx1, by1, xc);
  }

  /** Segment i of the shifted line (from point i-1 to point i) crossed by
      segment j. */
  function CrossAt(xt: seq<real>, yt: seq<real>, i: nat, j: nat): Option<(real, real)>
    requires 1 <= j && 1 <= i < |xt| && j < |xt| && |yt| == |xt|
  {
    Crossing(xt[i - 1], yt[i - 1], xt[i], yt[i], xt[j - 1], yt[j - 1], xt[j], yt[j])
  }

  /** The first of the segments j, j-1, ..., 1 that segment i crosses, with
      the crossing. */
  function FirstCross(xt: seq<real>, yt: seq<real>, i: nat, j: nat): (r: Option<(nat, real, real)>)
    requires j < i < |xt| && |yt| == |xt|
    ensures r.Some? ==> 1 <= r.value.0 <= j &&
                        CrossAt(xt, yt, i, r.value.0) == Some((r.value.1, r.value.2))
  {
    if j == 0 then None
    else match CrossAt(xt, yt, i, j)
      case Some(p) => Some((j, p.0, p.1))
      case None => FirstCross(xt, yt, i, j - 1)
  }

  /** The points the crossing pass appends for segments i, i-1, ..., 1:
      point i, then either the first crossing with an earlier segment j,
      skipping everything in between, or just the next point. */
  function Pruned(xt: seq<real>, yt: seq<real>, i: nat): (r: (seq<real>, seq<real>))
    requires i < |xt| && |yt| == |xt|
    ensures |r.0| == |r.1| <= i
  {
    if i == 0 then ([], [])
    else match FirstCross(xt, yt, i, i - 1)
      case Some((j, xc, yc)) =>
        var rest := Pruned(xt, yt, j - 1);
        ([xt[i], xc] + rest.0, [yt[i], yc] + rest.1)
      case None =>
        var rest := Pruned(xt, yt, i - 1);
        ([xt[i]] + rest.0, [yt[i]] + rest.1)
  }

  /** One step of Pruned past a crossing with segment j, behind an already
      emitted prefix px/py. */
  lemma PrunedCross(xt: seq<real>, yt: seq<real>, i: nat, j: nat, xc: real, yc: real,
                    px: seq<real>, py: seq<real>)
    requires 0 < i < |xt| && |yt| == |xt|
    requires FirstCross(xt, yt, i, i - 1) == Some((j, xc, yc))
    ensures 1 <= j < i
    ensures px + Pruned(xt, yt, i).0 == (px + [xt[i], xc]) + Pruned(xt, yt, j - 1).0
    ensures py + Pruned(xt, yt, i).1 == (py + [yt[i], yc]) + Pruned(xt, yt, j - 1).1
  {
    var rest := Pruned(xt, yt, j - 1);
    assert Pruned(xt, yt, i) == ([xt[i], xc] + rest.0, [yt[i], yc] + rest.1);
    assert px + ([xt[i], xc] + rest.0) == (px + [xt[i], xc]) + rest.0;
    assert py + ([yt[i], yc] + rest.1) == (py + [yt[i], yc]) + rest.1;
  }

  /** One step of Pruned where segment i crosses nothing. */
  lemma PrunedPlain(xt: seq<real>, yt: seq<real>, i: nat, px: seq<real>, py: seq<real>)
    requires 0 < i < |xt| && |yt| == |xt|
    requires FirstCross(xt, yt, i, i - 1).None?
    ensures px + Pruned(xt, yt, i).0 == (px + [xt[i]]) + Pruned(xt, yt, i - 1).0
    ensures py + Pruned(xt, yt, i).1 == (py + [yt[i]]) + Pruned(xt, yt, i - 1).1
  {
  }

  /** The inner search of the crossing pass: segments i-1 down to 1
      against segment i. */
  method FindCross(xt: seq<real>, yt: seq<real>, i: nat)
    returns (cross: bool, j: nat, xc: real, yc: real)
    requires 1 <= i < |xt| && |yt| == |xt|
    ensures cross ==> FirstCross(xt, yt, i, i - 1) == Some((j, xc, yc))
    ensures !cross ==> FirstCross(xt, yt, i, i - 1).None?
  {
    j := i - 1;
    cross := false;
    xc, yc := 0.0, 0.0;
    while j > 0 && !cross
      invariant j < i
      invariant !cross ==> FirstCross(xt, yt, i, i - 1) == FirstCross(xt, yt, i, j)
      invariant cross ==> 1 <= j && FirstCross(xt, yt, i, i - 1) == Some((j, xc, yc))
      decreases j, !cross
    {
      var p := CrossAt(xt, yt, i, j);
      if p.Some? {
        xc, yc := p.value.0, p.value.1;
        cross := true;
      } else {
        j := j - 1;
      }
    }
  }

  /** The crossing pass has emitted px/py and resumes at segment i: what
      is left to emit is Pruned from i. */
  predicate PruneState(xt: seq<real>, yt: seq<real>, nf: nat, i: nat, px: seq<real>, py: seq<real>)
    requires nf < |xt| && |yt| == |xt|
  {
    i <= nf && |px| == |py| <= nf - i &&
    Pruned(xt, yt, nf).0 == px + Pruned(xt, yt, i).0 &&
    Pruned(xt, yt, nf).1 == py + Pruned(xt, yt, i).1
  }

  /** The body of the crossing pass for segment i. */
  method PruneStep(xt: seq<real>, yt: seq<real>, nf: nat, i: nat, px: seq<real>, py: seq<real>)
    returns (i': nat, px': seq<real>, py': seq<real>)
    requires nf < |xt| && |yt| == |xt| && 0 < i && PruneState(xt, yt, nf, i, px, py)
    ensures i' < i && PruneState(xt, yt, nf, i', px', py')
  {
    var cross, j, xc, yc := FindCross(xt, yt, i);
    if cross {
      PrunedCross(xt, yt, i, j, xc, yc, px, py);
      px', py' := px + [xt[i], xc], py + [yt[i], yc];
      i' := j - 1;
    } else {
      PrunedPlain(xt, yt, i, px, py);
      px', py' := px + [xt[i]], py + [yt[i]];
      i' := i - 1;
    }
  }

  /** The crossing pass over the shifted line xt/yt[..nf+1]: for each
      segment from the last down, its end point and, when it crosses an
      earlier segment, the crossing, after which the pass resumes below the
      crossed segment; last comes the closing point xt[0]. */
  method Prune(xt: seq<real>, yt: seq<real>, nf: nat) returns (px: seq<real>, py: seq<real>)
    requires nf < |xt| && |yt| == |xt|
    ensures px == Pruned(xt, yt, nf).0 + [xt[0]] && py == Pruned(xt, yt, nf).1 + [yt[0]]
    ensures |px| == |py| <= nf + 1
  {
    px, py := [], [];
    var i: nat := nf;
    while i > 0
      invariant PruneState(xt, yt, nf, i, px, py)
    {
      i, px, py := PruneStep(xt, yt, nf, i, px, py);
    }
    assert Pruned(xt, yt, 0) == ([], []);
    assert px + [] == px && py + [] == py;
    px, py := px + [xt[0]], py + [yt[0]];
  }

  /** Writes the points us/vs into xf/yf from slot at on, leaving the slots
      before it alone. */
  method Append(xf: array<real>, yf: array<real>, at: nat, us: seq<real>, vs: seq<real>)
    requires xf != yf && |us| == |vs| && at + |us| <= xf.Length && at + |vs| <= yf.Length
    modifies xf, yf
    ensures xf[..at + |us|] == old(xf[..at]) + us && yf[..at + |vs|] == old(yf[..at]) + vs
  {
    var m := 0;
    while m < |us|
      invariant 0 <= m <= |us|
      invariant xf[..at + m] == old(xf[..at]) + us[..m] && yf[..at + m] == old(yf[..at]) + vs[..m]
    {
      xf[at + m], yf[at + m] := us[m], vs[m];
      assert us[..m + 1] == us[..m] + [us[m]] && vs[..m + 1] == vs[..m] + [vs[m]];
      m := m + 1;
    }
  }

  // ---------------------------------------------------------------------
  // Back to user coordinates, and the whole routine.

  /** The outline goes back to user coordinates, slot by slot. */
  method BackToUser(xf: array<real>, yf: array<real>, count: int, ax: Axis, ay: Axis)
    requires 0 <= count <= xf.Length && count <= yf.Length && xf != yf
    modifies xf, yf
    ensures xf[..count] == ToUserAll(ax, old(xf[..count])) && xf[count..] == old(xf[count..])
    ensures yf[..count] == ToUserAll(ay, old(yf[..count])) && yf[count..] == old(yf[count..])
  {
    ghost var ox, oy := xf[..], yf[..];
    var i := 0;
    while i < count
      invariant 0 <= i <= count
      invariant xf[..i] == ToUserAll(ax, ox[..i]) && xf[i..] == ox[i..]
      invariant yf[..i] == ToUserAll(ay, oy[..i]) && yf[i..] == oy[i..]
    {
      assert xf[i] == ox[i] && yf[i] == oy[i];
      assert ox[..i + 1] == ox[..i] + [ox[i]] && oy[..i + 1] == oy[..i] + [oy[i]];
      Put(xf, i, ToUser(ax, xf[i]));
      Put(yf, i, ToUser(ay, yf[i]));
      i := i + 1;
    }
    assert ox[..count] == old(xf[..count]) && oy[..count] == old(yf[..count]);
  }

  /** Number of points the source reads before the first one when the
      thinned polyline has a single point: the end shift takes its
      neighbour from index nf - 1. */
  function EndNeighbourAsWritten(nf: int): int { nf - 1 }

  /** As written, two equal points thin to nf == 0, and the end shift
      reads xf[-1]. */
  lemma SinglePointReadsBeforeStartAsWritten()
    ensures |Kept([1.0, 1.0], [2.0, 2.0], 2)| - 1 == 0
    ensures EndNeighbourAsWritten(|Kept([1.0, 1.0], [2.0, 2.0], 2)| - 1) < 0
  {
  }

  /** The fill area in NDC for the thinned line xs/ys: the line itself,
      then its shifted line from the last point back to the first with the
      crossings cut out, and last the first shifted point again. */
  function HatchOutline(trig: Trig, w: real, xs: seq<real>, ys: seq<real>): (r: (seq<real>, seq<real>))
    requires 2 <= |xs| == |ys|
    ensures |r.0| == |r.1| && |xs| + 1 <= |r.0| <= 2 * |xs|
    ensures r.0[..|xs|] == xs && r.1[..|xs|] == ys
    // The second half opens with the shift of the last point and closes
    // with the shift of the first.
    ensures var (sx, sy) := ShiftedLine(trig, w, xs, ys);
            r.0[|xs|] == sx[|xs| - 1] && r.1[|xs|] == sy[|xs| - 1] &&
            r.0[|r.0| - 1] == sx[0] && r.1[|r.1| - 1] == sy[0]
  {
    var (sx, sy) := ShiftedLine(trig, w, xs, ys);
    var (px, py) := Pruned(sx, sy, |xs| - 1);
    (xs + px + [sx[0]], ys + py + [sy[0]])
  }

  /** The hatched outline of the thinned polyline xf/yf[..nf+1] (in NDC),
      back in user coordinates. */
  method Outline(trig: Trig, w: real, xf: array<real>, yf: array<real>, nf: int, n: int,
                 ax: Axis, ay: Axis)
    returns (ox: seq<real>, oy: seq<real>)
    requires 1 <= nf < n && xf.Length == 2 * n && yf.Length == 2 * n && xf != yf
    modifies xf, yf
    ensures ox == ToUserAll(ax, HatchOutline(trig, w, old(xf[..nf + 1]), old(yf[..nf + 1])).0)
    ensures oy == ToUserAll(ay, HatchOutline(trig, w, old(xf[..nf + 1]), old(yf[..nf + 1])).1)
  {
    ghost var head, yhead := xf[..nf + 1], yf[..nf + 1];
    var xt, yt := Shift(trig, w, xf, yf, nf, n);
    var px, py := Prune(xt[..nf + 1], yt[..nf + 1], nf);
    HatchOutlineIs(trig, w, head, yhead, xt[..nf + 1], yt[..nf + 1]);
    Append(xf, yf, nf + 1, px, py);
    var count := nf + 1 + |px|;
    assert xf[..count] == head + px && yf[..count] == yhead + py;
    BackToUser(xf, yf, count, ax, ay);
    ox, oy := xf[..count], yf[..count];
  }

  /** HatchOutline is the line followed by what the crossing pass emits
      over its shifted line. */
  lemma HatchOutlineIs(trig: Trig, w: real, xs: seq<real>, ys: seq<real>, tx: seq<real>, ty: seq<real>)
    requires 2 <= |xs| == |ys| && (tx, ty) == ShiftedLine(trig, w, xs, ys)
    ensures HatchOutline(trig, w, xs, ys).0 == xs + (Pruned(tx, ty, |xs| - 1).0 + [tx[0]])
    ensures HatchOutline(trig, w, xs, ys).1 == ys + (Pruned(tx, ty, |xs| - 1).1 + [ty[0]])
  {
    var px := Pruned(tx, ty, |xs| - 1);
    assert xs + px.0 + [tx[0]] == xs + (px.0 + [tx[0]]);
    assert ys + px.1 + [ty[0]] == ys + (px.1 + [ty[0]]);
  }

  /** The calls of PaintPolyLineHatches for the first n points of xs/ys:
      nothing when every point repeats the first, otherwise one fill area
      over HatchOutline of the thinned line, taken to NDC and back. */
  function Hatches(lineWidth: int, pad: PadWindow, trig: Trig, xs: seq<real>, ys: seq<real>, n: nat)
    : seq<PaintCall>
    requires 1 <= n <= |xs| && n <= |ys| && pad.ww > 0 && pad.wh > 0
  {
    var k := Kept(xs, ys, n);
    if |k| == 1 then []
    else
      var ax, ay := NdcAxes(pad).0, NdcAxes(pad).1;
      var h := HatchOutline(trig, HatchWidth(lineWidth), ToNdcAll(ax, Gather(xs, k)), ToNdcAll(ay, Gather(ys, k)));
      [FillArea(ToUserAll(ax, h.0), ToUserAll(ay, h.1))]
  }

  /** HatchOutline of the line nx/ny in NDC, taken back to user
      coordinates: the line itself comes first, the shift of its last point
      follows, and the shift of its first point closes the outline. */
  lemma UserOutline(ax: Axis, ay: Axis, trig: Trig, w: real, nx: seq<real>, ny: seq<real>)
    requires 2 <= |nx| == |ny|
    ensures var ux := ToUserAll(ax, HatchOutline(trig, w, nx, ny).0);
            var uy := ToUserAll(ay, HatchOutline(trig, w, nx, ny).1);
            var sl := ShiftedLine(trig, w, nx, ny);
            |ux| == |uy| && |nx| + 1 <= |ux| <= 2 * |nx| &&
            ux[..|nx|] == ToUserAll(ax, nx) && uy[..|nx|] == ToUserAll(ay, ny) &&
            ux[|nx|] == ToUser(ax, sl.0[|nx| - 1]) && uy[|nx|] == ToUser(ay, sl.1[|nx| - 1]) &&
            ux[|ux| - 1] == ToUser(ax, sl.0[0]) && uy[|uy| - 1] == ToUser(ay, sl.1[0])
  {
    var h := HatchOutline(trig, w, nx, ny);
    UserHalves(ax, h.0, nx);
    UserHalves(ay, h.1, ny);
  }

  /** Taking an outline h that opens with the polyline s back to user
      coordinates takes its opening back point by point. */
  lemma UserHalves(a: Axis, h: seq<real>, s: seq<real>)
    requires |s| < |h| && h[..|s|] == s
    ensures ToUserAll(a, h)[..|s|] == ToUserAll(a, s)
  {
    assert ToUserAll(a, h)[..|s|] == ToUserAll(a, h[..|s|]);
  }

  /** What PaintPolyLineHatches paints: at most one fill area, none exactly
      when one point survives thinning; the thinned polyline opens it, and
      its second half runs from the shift of the last point back to the
      shift of the first, all in user coordinates. */
  lemma HatchesShape(lineWidth: int, pad: PadWindow, trig: Trig, xs: seq<real>, ys: seq<real>, n: nat)
    requires 1 <= n <= |xs| && n <= |ys| && pad.ww > 0 && pad.wh > 0
    ensures var calls := Hatches(lineWidth, pad, trig, xs, ys, n);
            var k := Kept(xs, ys, n);
            var ax := NdcAxes(pad).0;
            var ay := NdcAxes(pad).1;
            |calls| <= 1 && (calls == [] <==> |k| == 1) &&
            (calls != [] ==>
               var sl := ShiftedLine(trig, HatchWidth(lineWidth), ToNdcAll(ax, Gather(xs, k)), ToNdcAll(ay, Gather(ys, k)));
               calls[0].FillArea? && |calls[0].xs| == |calls[0].ys| &&
               |k| + 1 <= |calls[0].xs| <= 2 * |k| &&
               calls[0].xs[|k|] == ToUser(ax, sl.0[|k| - 1]) && calls[0].ys[|k|] == ToUser(ay, sl.1[|k| - 1]) &&
               calls[0].xs[|calls[0].xs| - 1] == ToUser(ax, sl.0[0]) &&
               calls[0].ys[|calls[0].ys| - 1] == ToUser(ay, sl.1[0]) &&
               (ax.scale != 0.0 && ay.scale != 0.0 ==>
                  calls[0].xs[..|k|] == Gather(xs, k) && calls[0].ys[..|k|] == Gather(ys, k)))
  {
    var k := Kept(xs, ys, n);
    if |k| > 1 {
      var ax, ay := NdcAxes(pad).0, NdcAxes(pad).1;
      var nx, ny := ToNdcAll(ax, Gather(xs, k)), ToNdcAll(ay, Gather(ys, k));
      var w := HatchWidth(lineWidth);
      UserOutline(ax, ay, trig, w, nx, ny);
      assert Hatches(lineWidth, pad, trig, xs, ys, n) ==
             [FillArea(ToUserAll(ax, HatchOutline(trig, w, nx, ny).0), ToUserAll(ay, HatchOutline(trig, w, nx, ny).1))];
      if ax.scale != 0.0 && ay.scale != 0.0 {
        NdcRoundTripAll(ax, Gather(xs, k));
        NdcRoundTripAll(ay, Gather(ys, k));
      }
    }
  }

  /** PaintPolyLineHatches(theGraph, n, x, y). The pad geometry, the line
      width and the trigonometric functions are inputs; the result is the
      fill area handed to the pad. A polyline whose points all coincide has
      no direction to hatch along and draws nothing. */
  method HatchPolyLine(lineWidth: int, pad: PadWindow, trig: Trig,
                       n: int, x: array<real>, y: array<real>)
    returns (calls: seq<PaintCall>)
    requires 1 <= n <= x.Length && n <= y.Length
    requires pad.ww > 0 && pad.wh > 0
    ensures calls == Hatches(lineWidth, pad, trig, x[..], y[..], n)
  {
    var w := HatchWidth(lineWidth);
    var (ax, ay) := NdcAxes(pad);
    var xf, yf, nf := Thin(x, y, n, ax, ay);
    if nf == 0 {
      calls := [];
    } else {
      var ox, oy := Outline(trig, w, xf, yf, nf, n, ax, ay);
      calls := [FillArea(ox, oy)];
    }
  }
}
