/** Smooth: the tangent-continuous curve smoother of TGraphPainter (after
    CERN GD3 TVIPTE, Marlow and Powell, McConalogue). The data points are
    rescaled in place, split into arcs, each arc is replaced by a parametric
    cubic drawn as a polygon of short chords, the chords are collected in an
    output bank, and the caller's arrays are restored before returning. */
module CurveSmoother {
  import opened Canvas
  import RootFinder

  // ---------------------------------------------------------------------
  // Draw type decoding.

  /** The curve type and the "rotated" flag packed into a draw type:
      drawtype % 1000 is ktype, plus 10 when the axes are swapped; 1000 and
      above asks for a fill area drawn in one piece. */
  function DecodeDrawtype(drawtype: int): (r: (int, bool))
    ensures var (ktype, loptx) := r;
              drawtype == 1000 * TruncDiv(drawtype, 1000) + ktype + (if loptx then 10 else 0)
    ensures r.1 <==> TruncRem(drawtype, 1000) > 10
    ensures drawtype >= 0 ==> 0 <= r.0 < 1000
  {
    var jtype := TruncRem(drawtype, 1000) - 10;
    if jtype > 0 then (jtype, true) else (TruncRem(drawtype, 1000), false)
  }

  /** Origin of the fill-area baseline: the frame corner for ktype 3, the
      axis (clamped into the frame) otherwise. */
  function Origin(ktype: int, ruxmin: real, ruymin: real, ruymax: real): (o: (real, real))
    ensures ktype == 3 ==> o == (ruxmin, ruymin)
    ensures ktype != 3 ==> o.0 >= 0.0 && o.0 >= ruxmin
    ensures ktype != 3 && ruymin <= ruymax ==> ruymin <= o.1 <= ruymax
  {
    if ktype == 3 then (ruxmin, ruymin)
    else (RMax(0.0, ruxmin), RMin(RMax(0.0, ruymin), ruymax))
  }

  // ---------------------------------------------------------------------
  // Extents, sign changes and the aspect-ratio scale factors.

  /** Number of interior points of s[..n] where the sequence turns back,
      that is where consecutive differences have opposite signs. */
  function Turns(s: seq<real>, n: nat): nat
    requires n <= |s|
  {
    if n < 3 then 0
    else Turns(s, n - 1) + (if Turn(s[n - 3], s[n - 2], s[n - 1]) then 1 else 0)
  }

  /** The step from v to w goes the other way than the step from u to v. */
  predicate Turn(u: real, v: real, w: real) {
    (w - v) * (v - u) < 0.0
  }

  function Lowest(s: seq<real>, n: nat): real
    requires 1 <= n <= |s|
  {
    if n == 1 then s[0] else RMin(Lowest(s, n - 1), s[n - 1])
  }

  function Highest(s: seq<real>, n: nat): real
    requires 1 <= n <= |s|
  {
    if n == 1 then s[0] else RMax(Highest(s, n - 1), s[n - 1])
  }

  lemma {:induction false} ExtentsBound(s: seq<real>, n: nat, i: nat)
    requires 1 <= n <= |s| && i < n
    ensures Lowest(s, n) <= s[i] <= Highest(s, n)
  {
    if i < n - 1 {
      ExtentsBound(s, n - 1, i);
    }
  }

  lemma {:induction false} ExtentsAttained(s: seq<real>, n: nat)
    requires 1 <= n <= |s|
    ensures exists i :: 0 <= i < n && s[i] == Lowest(s, n)
    ensures exists j :: 0 <= j < n && s[j] == Highest(s, n)
  {
    if n > 1 {
      ExtentsAttained(s, n - 1);
      var i :| 0 <= i < n - 1 && s[i] == Lowest(s, n - 1);
      var j :| 0 <= j < n - 1 && s[j] == Highest(s, n - 1);
      if Lowest(s, n - 1) <= s[n - 1] {
        assert s[i] == Lowest(s, n);
      } else {
        assert s[n - 1] == Lowest(s, n);
      }
      if Highest(s, n - 1) >= s[n - 1] {
        assert s[j] == Highest(s, n);
      } else {
        assert s[n - 1] == Highest(s, n);
      }
    } else {
      assert s[0] == Lowest(s, n) == Highest(s, n);
    }
  }

  /** The extents of the first npoints points and the counts of turns in x
      and in y, each starting at 1, as the scan in Smooth computes them. */
  method ScanExtents(x: array<real>, y: array<real>, npoints: int)
    returns (six: int, siy: int, sxmin: real, sxmax: real, symin: real, symax: real)
    requires 1 <= npoints <= x.Length && npoints <= y.Length
    ensures six == 1 + Turns(x[..], npoints) && siy == 1 + Turns(y[..], npoints)
    ensures sxmin == Lowest(x[..], npoints) && sxmax == Highest(x[..], npoints)
    ensures symin == Lowest(y[..], npoints) && symax == Highest(y[..], npoints)
  {
    ghost var sx, sy := x[..], y[..];
    sxmin, sxmax, symin, symax := x[0], x[0], y[0], y[0];
    six, siy := 1, 1;
    var i := 1;
    while i < npoints
      invariant 1 <= i <= npoints
      invariant six == 1 + Turns(sx, i) && siy == 1 + Turns(sy, i)
      invariant sxmin == Lowest(sx, i) && sxmax == Highest(sx, i)
      invariant symin == Lowest(sy, i) && symax == Highest(sy, i)
    {
      if i > 1 {
        if Turn(x[i - 2], x[i - 1], x[i]) { six := six + 1; }
        if Turn(y[i - 2], y[i - 1], y[i]) { siy := siy + 1; }
      }
      if x[i] < sxmin { sxmin := x[i]; }
      if x[i] > sxmax { sxmax := x[i]; }
      if y[i] < symin { symin := y[i]; }
      if y[i] > symax { symax := y[i]; }
      i := i + 1;
    }
  }

  /** The closedness test: first and last points within 1% of the span of
      the data on both axes. */
  predicate NearlyClosed(x0: real, xn: real, y0: real, yn: real,
                         sxmin: real, sxmax: real, symin: real, symax: real)
  {
    RAbs(xn - x0) < 0.01 * (sxmax - sxmin) && RAbs(yn - y0) < 0.01 * (symax - symin)
  }

  /** A curve counts as closed only if it spans a non-empty range on both
      axes: a constant coordinate can never pass the 1% test. */
  lemma ClosedNeedsSpan(x0: real, xn: real, y0: real, yn: real,
                        sxmin: real, sxmax: real, symin: real, symax: real)
    requires NearlyClosed(x0, xn, y0, yn, sxmin, sxmax, symin, symax)
    ensures sxmin < sxmax && symin < symax
  {
    assert 0.0 <= RAbs(xn - x0) && 0.0 <= RAbs(yn - y0);
  }

  /** Scale factor of x: the ratio of turns in y to turns in x (20 when x
      never turns) over the x span, or 1 for a constant x. */
  function XRatio(six: int, siy: int, sxmin: real, sxmax: real): (r: real)
    requires six >= 1 && siy >= 1 && sxmin <= sxmax
    ensures r > 0.0
    ensures sxmin == sxmax ==> r == 1.0
    ensures sxmin < sxmax ==> r * (sxmax - sxmin) == RatioSigns(six, siy)
  {
    if sxmin == sxmax then 1.0
    else RatioSigns(six, siy) / (sxmax - sxmin)
  }

  function RatioSigns(six: int, siy: int): (r: real)
    requires six >= 1 && siy >= 1
    ensures r > 0.0
  {
    if six > 1 then siy as real / six as real else 20.0
  }

  /** Scale factor of y: one over the y span, or 1 for a constant y. */
  function YRatio(symin: real, symax: real): (r: real)
    requires symin <= symax
    ensures r > 0.0
    ensures symin < symax ==> r * (symax - symin) == 1.0
  {
    if symin == symax then 1.0 else 1.0 / (symax - symin)
  }

  // ---------------------------------------------------------------------
  // Rescaling the caller's arrays in place, and restoring them.

  function Rescaled(s: seq<real>, n: nat, lo: real, ratio: real): (r: seq<real>)
    requires n <= |s|
    ensures |r| == |s|
  {
    seq(|s|, i requires 0 <= i < |s| => if i < n then (s[i] - lo) * ratio else s[i])
  }

  function Unscaled(s: seq<real>, n: nat, lo: real, ratio: real): (r: seq<real>)
    requires n <= |s| && ratio != 0.0
    ensures |r| == |s|
  {
    seq(|s|, i requires 0 <= i < |s| => if i < n then lo + s[i] / ratio else s[i])
  }

  /** Over exact reals, unscaling undoes rescaling for any non-zero ratio. */
  lemma UnscaleRescale(s: seq<real>, n: nat, lo: real, ratio: real)
    requires n <= |s| && ratio != 0.0
    ensures Unscaled(Rescaled(s, n, lo, ratio), n, lo, ratio) == s
  {
    var r := Rescaled(s, n, lo, ratio);
    forall i | 0 <= i < n
      ensures lo + r[i] / ratio == s[i]
    {
      assert r[i] / ratio == s[i] - lo;
    }
  }

  /** The rescaled data lie in [0, span * ratio]: [0, ratio_signs] for x
      and [0, 1] for y. */
  lemma RescaledRange(s: seq<real>, n: nat, lo: real, hi: real, ratio: real, i: nat)
    requires 1 <= n <= |s| && i < n && ratio > 0.0
    requires lo == Lowest(s, n) && hi == Highest(s, n)
    ensures 0.0 <= Rescaled(s, n, lo, ratio)[i] <= (hi - lo) * ratio
  {
    ExtentsBound(s, n, i);
    var d := s[i] - lo;
    assert 0.0 <= d <= hi - lo;
    assert 0.0 <= d * ratio;
    assert (hi - lo) * ratio - d * ratio == (hi - s[i]) * ratio;
    assert 0.0 <= (hi - s[i]) * ratio;
  }

  method RescaleInPlace(a: array<real>, n: int, lo: real, ratio: real)
    requires 0 <= n <= a.Length
    modifies a
    ensures a[..] == Rescaled(old(a[..]), n, lo, ratio)
  {
    var i := 0;
    while i < n
      invariant 0 <= i <= n
      invariant forall j :: 0 <= j < i ==> a[j] == (old(a[j]) - lo) * ratio
      invariant forall j :: i <= j < a.Length ==> a[j] == old(a[j])
    {
      a[i] := (a[i] - lo) * ratio;
      i := i + 1;
    }
    assert forall j :: 0 <= j < a.Length ==> a[..][j] == Rescaled(old(a[..]), n, lo, ratio)[j];
  }

  method UnscaleInPlace(a: array<real>, n: int, lo: real, ratio: real)
    requires 0 <= n <= a.Length && ratio != 0.0
    modifies a
    ensures a[..] == Unscaled(old(a[..]), n, lo, ratio)
  {
    var i := 0;
    while i < n
      invariant 0 <= i <= n
      invariant forall j :: 0 <= j < i ==> a[j] == lo + old(a[j]) / ratio
      invariant forall j :: i <= j < a.Length ==> a[j] == old(a[j])
    {
      a[i] := lo + a[i] / ratio;
      i := i + 1;
    }
    assert forall j :: 0 <= j < a.Length ==> a[..][j] == Unscaled(old(a[..]), n, lo, ratio)[j];
  }

  /** The opening of Smooth: scan the data, decide whether the curve is
      closed, and rescale x and y in place to [0, ratio_signs] and [0, 1]. */
  method Normalise(x: array<real>, y: array<real>, npoints: int)
    returns (sxmin: real, symin: real, xratio: real, yratio: real, closed: bool)
    requires 1 <= npoints <= x.Length && npoints <= y.Length && x != y
    modifies x, y
    ensures sxmin == Lowest(old(x[..]), npoints) && symin == Lowest(old(y[..]), npoints)
    ensures xratio == XRatio(1 + Turns(old(x[..]), npoints), 1 + Turns(old(y[..]), npoints),
                             sxmin, Highest(old(x[..]), npoints))
    ensures yratio == YRatio(symin, Highest(old(y[..]), npoints))
    ensures xratio > 0.0 && yratio > 0.0
    ensures closed == NearlyClosed(old(x[0]), old(x[npoints - 1]), old(y[0]), old(y[npoints - 1]),
                                   sxmin, Highest(old(x[..]), npoints),
                                   symin, Highest(old(y[..]), npoints))
    ensures x[..] == Rescaled(old(x[..]), npoints, sxmin, xratio)
    ensures y[..] == Rescaled(old(y[..]), npoints, symin, yratio)
  {
    var six, siy, sxmax, symax;
    six, siy, sxmin, sxmax, symin, symax := ScanExtents(x, y, npoints);
    closed := NearlyClosed(x[0], x[npoints - 1], y[0], y[npoints - 1], sxmin, sxmax, symin, symax);
    ExtentsBound(x[..], npoints, 0);
    ExtentsBound(y[..], npoints, 0);
    xratio := XRatio(six, siy, sxmin, sxmax);
    yratio := YRatio(symin, symax);
    RescaleInPlace(x, npoints, sxmin, xratio);
    RescaleInPlace(y, npoints, symin, yratio);
  }

  /** The closing of Smooth: convert x and y back to the caller's
      coordinates. */
  method Restore(x: array<real>, y: array<real>, npoints: int,
                 sxmin: real, symin: real, xratio: real, yratio: real)
    requires 0 <= npoints <= x.Length && npoints <= y.Length && x != y
    requires xratio != 0.0 && yratio != 0.0
    modifies x, y
    ensures x[..] == Unscaled(old(x[..]), npoints, sxmin, xratio)
    ensures y[..] == Unscaled(old(y[..]), npoints, symin, yratio)
  {
    UnscaleInPlace(x, npoints, sxmin, xratio);
    UnscaleInPlace(y, npoints, symin, yratio);
  }

  // ---------------------------------------------------------------------
  // Skipping repeated points (label L50).

  /** P(j), 1-based as in the source, equals P(j-1). */
  predicate Repeats(x: seq<real>, y: seq<real>, j: int)
    requires 2 <= j <= |x| && j <= |y|
  {
    x[j - 1] == x[j - 2] && y[j - 1] == y[j - 2]
  }

  /** Advances k past points equal to their predecessor. Either it stops at
      the first P(k') that differs from P(k'-1), or it runs off the end of
      the data (done). */
  method SkipRepeated(x: array<real>, y: array<real>, npoints: int, k: int)
    returns (k': int, done: bool)
    requires npoints <= x.Length && npoints <= y.Length && 1 <= k
    ensures k <= k'
    ensures done ==> k' == (if k < npoints then npoints else k)
    ensures !done ==> k < k' <= npoints && !Repeats(x[..], y[..], k')
    ensures forall j :: k < j < k' ==> j <= npoints && Repeats(x[..], y[..], j)
    ensures done && k < k' ==> Repeats(x[..], y[..], k')
  {
    k' := k;
    var found := false;
    while !found && k' < npoints
      invariant k <= k' && (k' <= npoints || k' == k)
      invariant found ==> k < k' <= npoints && !Repeats(x[..], y[..], k')
      invariant forall j :: k < j < k' ==> j <= npoints && Repeats(x[..], y[..], j)
      invariant !found && k < k' ==> Repeats(x[..], y[..], k')
    {
      k' := k' + 1;
      found := !(x[k' - 1] == x[k' - 2] && y[k' - 1] == y[k' - 2]);
    }
    done := !found;
  }

  // ---------------------------------------------------------------------
  // The output bank.

  /** Capacity of a grown bank as the source allocates it: exactly the new
      bank size, without the two spare slots of the first bank. */
  function GrownCapacityAsWritten(banksize: int, n2: int): int {
    banksize + n2
  }

  /** Capacity of a grown bank with the two spare slots kept, which the
      fill closure needs. */
  function GrownCapacity(banksize: int, n2: int): (c: int)
    ensures c == (banksize + n2) + 2
  {
    GrownCapacityAsWritten(banksize, n2) + 2
  }

  /** With the spare slots kept, the closure writes stay inside the bank
      for every count a final flush can see. */
  lemma ClosureFitsGrownBank(banksize: int, n2: int, npt: int)
    requires 1 <= npt <= banksize + n2
    ensures npt + 1 < GrownCapacity(banksize, n2)
  {
  }

  /** A drawn batch of at least n points that starts at (x0, y0). */
  predicate Batch(c: PaintCall, x0: real, y0: real, n: int) {
    !c.Box? && |c.xs| == |c.ys| && |c.xs| >= n && n >= 1 && c.xs[0] == x0 && c.ys[0] == y0
  }

  /** A record carrying a batch of at least two points. */
  predicate Drawn(c: PaintCall) {
    !c.Box? && |c.xs| == |c.ys| && |c.xs| >= 2
  }

  /** What label L310 hands to the pad for the batch xs/ys: a fill area in
      one piece for draw types from 1000 on; otherwise, for ktype > 1, the
      polygon closed down to the baseline with two extra points, then the
      hatches when the line is wide, then the polyline itself. */
  function Flush(drawtype: int, ktype: int, loptx: bool, xorg: real, yorg: real, hatched: bool,
                 xs: seq<real>, ys: seq<real>): (r: seq<PaintCall>)
    requires 1 <= |xs| == |ys|
    ensures 1 <= |r| <= 3
    ensures forall i :: 0 <= i < |r| ==> Batch(r[i], xs[0], ys[0], |xs|)
    ensures drawtype >= 1000 <==> r == [FillArea(xs, ys)]
    ensures drawtype < 1000 ==> r[|r| - 1] == PolyLine(xs, ys)
    ensures drawtype < 1000 ==> (hatched <==> Hatches(xs, ys) in r)
    // The fill polygon goes down to the baseline and back to the start.
    ensures drawtype < 1000 && ktype > 1 ==>
              r[0].FillArea? && |r[0].xs| == |xs| + 2 && |r[0].ys| == |ys| + 2 &&
              r[0].xs[..|xs|] == xs && r[0].ys[..|ys|] == ys &&
              (if loptx then r[0].xs[|xs|] == r[0].xs[|xs| + 1] == xorg &&
                             r[0].ys[|xs| + 1] == ys[0]
               else r[0].ys[|xs|] == r[0].ys[|xs| + 1] == yorg &&
                    r[0].xs[|xs| + 1] == xs[0])
    ensures drawtype < 1000 && ktype <= 1 ==> forall i :: 0 <= i < |r| ==> !r[i].FillArea?
  {
    if drawtype >= 1000 then [FillArea(xs, ys)]
    else
      var n := |xs|;
      var fill :=
        if ktype <= 1 then []
        else if !loptx then [FillArea(xs + [xs[n - 1], xs[0]], ys + [yorg, yorg])]
        else [FillArea(xs + [xorg, xorg], ys + [ys[n - 1], ys[0]])];
      fill + (if hatched then [Hatches(xs, ys)] else []) + [PolyLine(xs, ys)]
  }

  /** A fresh array of capacity slots whose first size slots are those of
      src. */
  method Copy(src: array<real>, size: int, capacity: int) returns (dst: array<real>)
    requires 0 <= size <= src.Length && size <= capacity
    ensures fresh(dst) && dst.Length == capacity && dst[..size] == src[..size]
  {
    dst := new real[capacity];
    var i := 0;
    while i < size
      invariant 0 <= i <= size
      invariant dst[..i] == src[..i]
    {
      dst[i] := src[i];
      assert dst[..i + 1] == dst[..i] + [src[i]] && src[..i + 1] == src[..i] + [src[i]];
      i := i + 1;
    }
  }

  /** As written, a fill-mode bank of npoints data points fills its first
      10 * npoints - 2 vertices, grows by banksize + n2 slots and goes on to
      banksize - 1 vertices; the final flush then cannot close the polygon,
      because the two slots Close writes no longer fit. */
  method ClosureOverrunsGrownBankAsWritten(npoints: int, vx: real, vy: real) returns (bank: Bank)
    requires npoints >= 1
    ensures bank.Shaped() && bank.npt == bank.banksize - 1
    ensures bank.banksize == 2 * (10 * npoints - 2)
    // Close's requirement npt + 2 <= capacity fails by one slot.
    ensures bank.npt + 2 == bank.qlx.Length + 1
  {
    bank := new Bank(npoints, vx, vy);
    while bank.npt < bank.banksize
      invariant bank.Valid() && fresh(bank.qlx) && fresh(bank.qly)
      invariant bank.banksize == bank.n2 == 10 * npoints - 2
      decreases bank.banksize - bank.npt
    {
      bank.Push(vx, vy);
    }
    // Label L300 with a full bank in a fill mode.
    bank.GrowAsWritten();
    while bank.npt < bank.banksize - 1
      invariant bank.Shaped() && fresh(bank.qlx) && fresh(bank.qly)
      invariant bank.qlx.Length == bank.banksize == 2 * (10 * npoints - 2)
      invariant bank.npt <= bank.banksize - 1
      decreases bank.banksize - bank.npt
    {
      bank.Push(vx, vy);
    }
  }

  /** The output bank qlx/qly of Smooth and its fill counter npt. */
  class Bank {
    var qlx: array<real>
    var qly: array<real>
    var npt: int
    var banksize: int
    const n2: int

    /** Room for banksize vertices, of which the first npt are in use. */
    ghost predicate Shaped()
      reads this
    {
      qlx != qly && qlx.Length == qly.Length >= banksize &&
      1 <= npt <= banksize && 2 <= n2 <= banksize
    }

    /** A bank with the two spare slots behind the vertices that the fill
        closure needs. */
    ghost predicate Valid()
      reads this
    {
      Shaped() && qlx.Length == banksize + 2
    }

    function Xs(): seq<real>
      reads this, qlx
      requires Shaped()
    {
      qlx[..npt]
    }

    function Ys(): seq<real>
      reads this, qly
      requires Shaped()
    {
      qly[..npt]
    }

    /** npointsMax = 10 * npoints slots, banksize = npointsMax - 2, with
        the first vertex already in slot 0. */
    constructor (npoints: int, x0: real, y0: real)
      requires npoints >= 1
      ensures Valid() && fresh(qlx) && fresh(qly)
      ensures banksize == 10 * npoints - 2 && n2 == banksize && qlx.Length == 10 * npoints
      ensures Xs() == [x0] && Ys() == [y0]
    {
      var npointsMax := npoints * 10;
      n2 := npointsMax - 2;
      banksize := npointsMax - 2;
      qlx := new real[npointsMax];
      qly := new real[npointsMax];
      npt := 1;
      new;
      qlx[0] := x0;
      qly[0] := y0;
    }

    /** Appends one vertex (label L300). */
    method Push(vx: real, vy: real)
      requires Shaped() && npt < banksize
      modifies this`npt, qlx, qly
      ensures Shaped() && npt == old(npt) + 1 && (old(Valid()) ==> Valid())
      ensures Xs() == old(Xs()) + [vx] && Ys() == old(Ys()) + [vy]
    {
      qlx[npt] := vx;
      qly[npt] := vy;
      npt := npt + 1;
    }

    /** Fill modes must not split the polygon: replace the bank by one n2
        slots larger whose first banksize entries are the old ones. */
    method Grow()
      requires Valid()
      modifies this`qlx, this`qly, this`banksize
      ensures Valid() && fresh(qlx) && fresh(qly)
      ensures banksize == old(banksize) + n2 && npt == old(npt)
      ensures qlx.Length == GrownCapacity(old(banksize), n2)
      ensures qlx[..old(banksize)] == old(qlx[..banksize])
      ensures qly[..old(banksize)] == old(qly[..banksize])
      ensures Xs() == old(Xs()) && Ys() == old(Ys())
    {
      var size := banksize;
      var nx := Copy(qlx, size, GrownCapacity(size, n2));
      var ny := Copy(qly, size, GrownCapacity(size, n2));
      qlx, qly := nx, ny;
      banksize := size + n2;
      assert Xs() == nx[..size][..npt];
      assert Ys() == ny[..size][..npt];
    }

    /** The growth as the source writes it: the new arrays hold exactly
        banksize + n2 slots, without the two spare ones. */
    method GrowAsWritten()
      requires Shaped()
      modifies this`qlx, this`qly, this`banksize
      ensures Shaped() && fresh(qlx) && fresh(qly)
      ensures banksize == old(banksize) + n2 && npt == old(npt)
      ensures qlx.Length == GrownCapacityAsWritten(old(banksize), n2) == banksize
      ensures Xs() == old(Xs()) && Ys() == old(Ys())
    {
      var size := banksize;
      var nx := Copy(qlx, size, GrownCapacityAsWritten(size, n2));
      var ny := Copy(qly, size, GrownCapacityAsWritten(size, n2));
      qlx, qly := nx, ny;
      banksize := size + n2;
      assert Xs() == nx[..size][..npt];
      assert Ys() == ny[..size][..npt];
    }

    /** Label L310: the batch in the bank goes to the pad, with the fill
        polygon closed in the two slots behind the batch. */
    method Draw(drawtype: int, ktype: int, loptx: bool, xorg: real, yorg: real, hatched: bool)
      returns (calls: seq<PaintCall>)
      requires Valid()
      modifies qlx, qly
      ensures Valid() && Xs() == old(Xs()) && Ys() == old(Ys())
      ensures calls == Flush(drawtype, ktype, loptx, xorg, yorg, hatched, Xs(), Ys())
    {
      if drawtype >= 1000 {
        calls := [FillArea(qlx[..npt], qly[..npt])];
      } else {
        var fill := [];
        if ktype > 1 {
          Close(loptx, xorg, yorg);
          fill := [FillArea(qlx[..npt + 2], qly[..npt + 2])];
        }
        calls := fill + (if hatched then [Hatches(qlx[..npt], qly[..npt])] else []) +
                 [PolyLine(qlx[..npt], qly[..npt])];
      }
    }

    /** The closure of the fill polygon: down to the baseline under the last
        vertex and back under the first (across to the axis when rotated). */
    method Close(loptx: bool, xorg: real, yorg: real)
      requires Shaped() && npt + 2 <= qlx.Length
      modifies qlx, qly
      ensures Shaped() && Xs() == old(Xs()) && Ys() == old(Ys())
      ensures !loptx ==> qlx[..npt + 2] == Xs() + [qlx[npt - 1], qlx[0]] &&
                         qly[..npt + 2] == Ys() + [yorg, yorg]
      ensures loptx ==> qlx[..npt + 2] == Xs() + [xorg, xorg] &&
                        qly[..npt + 2] == Ys() + [qly[npt - 1], qly[0]]
    {
      if !loptx {
        qlx[npt] := qlx[npt - 1];
        qlx[npt + 1] := qlx[0];
        qly[npt] := yorg;
        qly[npt + 1] := yorg;
      } else {
        qlx[npt] := xorg;
        qlx[npt + 1] := xorg;
        qly[npt] := qly[npt - 1];
        qly[npt + 1] := qly[0];
      }
      assert qlx[..npt + 2] == qlx[..npt] + [qlx[npt], qlx[npt + 1]];
      assert qly[..npt + 2] == qly[..npt] + [qly[npt], qly[npt + 1]];
    }

    /** Label L300: append a vertex; a full bank grows when growing is set
        (fill modes), and is otherwise reported full, to be flushed. */
    method Emit(vx: real, vy: real, growing: bool) returns (full: bool)
      requires Valid() && npt < banksize
      modifies this, qlx, qly
      ensures Valid() && (qlx == old(qlx) || fresh(qlx)) && (qly == old(qly) || fresh(qly))
      ensures Xs() == old(Xs()) + [vx] && Ys() == old(Ys()) + [vy]
      ensures full <==> npt == banksize
      ensures full ==> !growing
    {
      Push(vx, vy);
      full := npt >= banksize;
      if full && growing {
        Grow();
        full := false;
      }
    }

    /** Label L310 in full: draw the batch, then start the next one at
        (vx, vy). */
    method Hand(drawtype: int, ktype: int, loptx: bool, xorg: real, yorg: real, hatched: bool,
                vx: real, vy: real)
      returns (calls: seq<PaintCall>)
      requires Valid()
      modifies this`npt, qlx, qly
      ensures Valid() && npt == 1 && Xs() == [vx] && Ys() == [vy]
      ensures calls == Flush(drawtype, ktype, loptx, xorg, yorg, hatched, old(Xs()), old(Ys()))
    {
      calls := Draw(drawtype, ktype, loptx, xorg, yorg, hatched);
      Restart(vx, vy);
    }

    /** After a flush the next batch starts again from the last vertex. */
    method Restart(vx: real, vy: real)
      requires Valid()
      modifies this`npt, qlx, qly
      ensures Valid() && npt == 1 && Xs() == [vx] && Ys() == [vy]
    {
      npt := 1;
      qlx[0] := vx;
      qly[0] := vy;
    }
  }
}

