/** What the painter hands to the outside world, and the C arithmetic it
    relies on. Every paint call becomes a record appended to a trace, so the
    point batches the painter builds can be stated and compared. */
module Canvas {

  datatype Option<T> = None | Some(value: T)

  /** One call into gPad (or into a sibling painter routine). */
  datatype PaintCall =
    | PolyLine(xs: seq<real>, ys: seq<real>)
    | FillArea(xs: seq<real>, ys: seq<real>)
    | PolyMarker(xs: seq<real>, ys: seq<real>)
    | Box(x1: real, y1: real, x2: real, y2: real)
      /** A call of Smooth on a batch, with its draw type. */
    | SmoothCurve(xs: seq<real>, ys: seq<real>, drawtype: int)
      /** A call of PaintPolyLineHatches on a batch. */
    | Hatches(xs: seq<real>, ys: seq<real>)

  /** A record that carries a point batch, with both coordinate lists of
      the same length. */
  predicate WellFormed(c: PaintCall) {
    match c
    case Box(_, _, _, _) => true
    case _ => |c.xs| == |c.ys|
  }

  /** C and C++ integer division by a positive divisor: the quotient is
      truncated toward zero, unlike Dafny's Euclidean division. */
  function TruncDiv(a: int, b: int): (q: int)
    requires b > 0
    ensures Abs(q) * b <= Abs(a) < (Abs(q) + 1) * b
    ensures q >= 0 <==> a > -b
  {
    var n := Abs(a);
    var m := n / b;
    assert n == m * b + n % b && 0 <= n % b < b;
    if a >= 0 then m else -m
  }

  /** C and C++ remainder by a positive divisor: it takes the sign of the
      dividend. */
  function TruncRem(a: int, b: int): (r: int)
    requires b > 0
    ensures a == TruncDiv(a, b) * b + r
    ensures -b < r < b
    ensures a >= 0 ==> 0 <= r
    ensures a <= 0 ==> r <= 0
  {
    a - TruncDiv(a, b) * b
  }

  function Abs(a: int): nat { if a < 0 then -a else a }

  function RAbs(v: real): real { if v < 0.0 then -v else v }

  function RMin(u: real, v: real): real { if u <= v then u else v }

  function RMax(u: real, v: real): real { if u >= v then u else v }

  /** Real division where the source divides by a quantity it never checks
      (IEEE arithmetic would give an infinity or a NaN there). */
  function Quot(u: real, v: real): real {
    if v == 0.0 then 0.0 else u / v
  }

  /** The part of gPad the painters consult: the user range of the frame,
      the lower pad corner used for non-positive values on log axes, the
      log flags and the coordinate conversions, which stay uninterpreted. */
  datatype Pad = Pad(
    uxmin: real, uxmax: real, uymin: real, uymax: real,
    x1: real, y1: real,
    logx: bool, logy: bool,
    xtoPad: real -> real, ytoPad: real -> real,
    padtoX: real -> real, padtoY: real -> real,
    log10: real -> real)

  /** ComputeLogs on one coordinate: the logarithm of positive values on a
      log axis, the pad corner for the others. */
  function LogCoord(log: bool, log10: real -> real, corner: real, v: real): real {
    if !log then v else if v > 0.0 then log10(v) else corner
  }

  /** ComputeLogs: the working copy of a batch, taken to log scale axis by
      axis; opt != 0 leaves y alone. */
  function ComputeLogs(pad: Pad, opt: int, xs: seq<real>, ys: seq<real>): (r: (seq<real>, seq<real>))
    ensures |r.0| == |xs| && |r.1| == |ys|
    ensures forall i :: 0 <= i < |xs| ==> r.0[i] == LogCoord(pad.logx, pad.log10, pad.x1, xs[i])
    ensures forall i :: 0 <= i < |ys| ==>
              r.1[i] == LogCoord(opt == 0 && pad.logy, pad.log10, pad.y1, ys[i])
    ensures !pad.logx ==> r.0 == xs
    ensures !(opt == 0 && pad.logy) ==> r.1 == ys
  {
    (seq(|xs|, i requires 0 <= i < |xs| => LogCoord(pad.logx, pad.log10, pad.x1, xs[i])),
     seq(|ys|, i requires 0 <= i < |ys| => LogCoord(opt == 0 && pad.logy, pad.log10, pad.y1, ys[i])))
  }

  /** Stores the point (u, v) in slot at of a pair of work arrays. */
  method PutPoint(xf: array<real>, yf: array<real>, at: int, u: real, v: real)
    requires 0 <= at < xf.Length && at < yf.Length && xf != yf
    modifies xf, yf
    ensures xf[..at + 1] == old(xf[..at]) + [u] && yf[..at + 1] == old(yf[..at]) + [v]
  {
    xf[at], yf[at] := u, v;
  }
}
