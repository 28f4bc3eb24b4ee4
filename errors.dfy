// The fill band of options "3" and "4" of the error painters: every point
// gives an upper and a lower corner, the upper corners are written from the
// front of xline/yline and the lower ones from the back, and the whole
// polygon is handed to PaintGraph with option "F" ("FC" for "4").

module ErrorBands {
  import opened Canvas
  import opened GraphPainter

  // ---------------------------------------------------------------------
  // Options.

  /** The options the error painters read for the band. The letters are
      looked up with strchr, so they are case-sensitive except for X. */
  datatype ErrorOptions = ErrorOptions(simple: bool, boxes: bool, band: bool, smooth: bool)

  function DecodeErrorOptions(opt: string): (r: ErrorOptions)
    ensures r.simple <==> 'X' in opt || 'x' in opt
    ensures r.boxes <==> '2' in opt
    ensures r.band <==> '3' in opt || '4' in opt
    ensures r.smooth <==> '4' in opt
    ensures r.smooth ==> r.band
  {
    ErrorOptions('X' in opt || 'x' in opt, '2' in opt, '3' in opt || '4' in opt, '4' in opt)
  }

  /** The option PaintGraph is given for the band. */
  function BandOption(o: ErrorOptions): (r: string)
    ensures r == "FC" <==> o.smooth
  {
    if o.smooth then "FC" else "F"
  }

  // ---------------------------------------------------------------------
  // Rungs: what one point contributes to the band.

  /** Whether a point takes part, and the corners it adds above and below. */
  datatype Rung = Rung(keep: bool, up: (real, real), down: (real, real))

  /** The frame test of the asymmetric and bent painters. */
  predicate InFrame(pad: Pad, px: real, py: real) {
    pad.uxmin <= px <= pad.uxmax && pad.uymin <= py <= pad.uymax
  }

  /** PaintGraphErrors with option 3: no point is skipped, its pad x is
      raised to uxmin and then lowered to uxmax, and both corners share it.
      The two tests run one after the other, so on a frame with
      uxmin > uxmax every point lands on uxmax. */
  function ErrorsRung(pad: Pad, x: real, y: real, ey: real): (r: Rung)
    ensures r.keep && r.up.0 == r.down.0
    ensures pad.uxmin <= pad.uxmax ==> pad.uxmin <= r.up.0 <= pad.uxmax
    ensures pad.uxmin <= pad.xtoPad(x) <= pad.uxmax ==> r.up.0 == pad.xtoPad(x)
    ensures pad.xtoPad(x) < pad.uxmin <= pad.uxmax ==> r.up.0 == pad.uxmin
    ensures pad.xtoPad(x) > pad.uxmax || pad.uxmin > pad.uxmax ==> r.up.0 == pad.uxmax
    ensures r.up.1 == pad.ytoPad(y + ey) && r.down.1 == pad.ytoPad(y - ey)
  {
    var px := pad.xtoPad(x);
    var raised := if px < pad.uxmin then pad.uxmin else px;
    var cx := if raised > pad.uxmax then pad.uxmax else raised;
    Rung(true, (cx, pad.ytoPad(y + ey)), (cx, pad.ytoPad(y - ey)))
  }

  /** PaintGraphAsymmErrors: a point outside the frame is skipped; the
      corners are at the point's pad x. */
  function AsymmRung(pad: Pad, x: real, y: real, eyl: real, eyh: real): (r: Rung)
    ensures r.keep <==> InFrame(pad, pad.xtoPad(x), pad.ytoPad(y))
    ensures r.up.0 == r.down.0 == pad.xtoPad(x)
    ensures r.up.1 == pad.ytoPad(y + eyh) && r.down.1 == pad.ytoPad(y - eyl)
  {
    var px := pad.xtoPad(x);
    Rung(InFrame(pad, px, pad.ytoPad(y)), (px, pad.ytoPad(y + eyh)), (px, pad.ytoPad(y - eyl)))
  }

  /** PaintGraphBentErrors: as the asymmetric one, but the corners are
      shifted in x by the high and low y errors. */
  function BentRung(pad: Pad, x: real, y: real, eyl: real, eyh: real): (r: Rung)
    ensures r.keep <==> InFrame(pad, pad.xtoPad(x), pad.ytoPad(y))
    ensures r.up == (pad.xtoPad(x + eyh), pad.ytoPad(y + eyh))
    ensures r.down == (pad.xtoPad(x + eyl), pad.ytoPad(y - eyl))
  {
    Rung(InFrame(pad, pad.xtoPad(x), pad.ytoPad(y)),
         (pad.xtoPad(x + eyh), pad.ytoPad(y + eyh)),
         (pad.xtoPad(x + eyl), pad.ytoPad(y - eyl)))
  }

  function ErrorsRungs(pad: Pad, x: seq<real>, y: seq<real>, ey: seq<real>): (r: seq<Rung>)
    requires |y| == |x| && |ey| == |x|
    ensures |r| == |x|
    ensures forall i :: 0 <= i < |x| ==> r[i] == ErrorsRung(pad, x[i], y[i], ey[i])
  {
    seq(|x|, i requires 0 <= i < |x| => ErrorsRung(pad, x[i], y[i], ey[i]))
  }

  function AsymmRungs(pad: Pad, x: seq<real>, y: seq<real>, eyl: seq<real>, eyh: seq<real>): (r: seq<Rung>)
    requires |y| == |x| && |eyl| == |x| && |eyh| == |x|
    ensures |r| == |x|
    ensures forall i :: 0 <= i < |x| ==> r[i] == AsymmRung(pad, x[i], y[i], eyl[i], eyh[i])
  {
    seq(|x|, i requires 0 <= i < |x| => AsymmRung(pad, x[i], y[i], eyl[i], eyh[i]))
  }

  function BentRungs(pad: Pad, x: seq<real>, y: seq<real>, eyl: seq<real>, eyh: seq<real>): (r: seq<Rung>)
    requires |y| == |x| && |eyl| == |x| && |eyh| == |x|
    ensures |r| == |x|
    ensures forall i :: 0 <= i < |x| ==> r[i] == BentRung(pad, x[i], y[i], eyl[i], eyh[i])
  {
    seq(|x|, i requires 0 <= i < |x| => BentRung(pad, x[i], y[i], eyl[i], eyh[i]))
  }

  // ---------------------------------------------------------------------
  // The band of the kept points.

  /** The number of kept points. */
  function Kept(rs: seq<Rung>): (m: nat)
    ensures m <= |rs|
  {
    if rs == [] then 0 else Kept(rs[..|rs| - 1]) + (if rs[|rs| - 1].keep then 1 else 0)
  }

  /** The upper (up) or lower corners of the kept points, in order. */
  function Side(rs: seq<Rung>, up: bool): (r: Batch)
    ensures |r.xs| == |r.ys| == Kept(rs)
  {
    if rs == [] then Batch([], [])
    else
      var b := Side(rs[..|rs| - 1], up);
      var last := rs[|rs| - 1];
      var p := if up then last.up else last.down;
      if last.keep then Batch(b.xs + [p.0], b.ys + [p.1]) else b
  }

  function Reverse(s: seq<real>): (r: seq<real>)
    ensures |r| == |s|
    ensures forall k :: 0 <= k < |s| ==> r[k] == s[|s| - 1 - k]
  {
    if s == [] then [] else [s[|s| - 1]] + Reverse(s[..|s| - 1])
  }

  /** The closed band: the upper corners left to right, then the lower
      corners right to left. */
  function Band(rs: seq<Rung>): (r: Batch)
    ensures |r.xs| == |r.ys| == 2 * Kept(rs)
  {
    var u := Side(rs, true);
    var d := Side(rs, false);
    Batch(u.xs + Reverse(d.xs), u.ys + Reverse(d.ys))
  }

  /** Slot k of the band and slot 2m-1-k are the two corners of the same
      kept point. */
  lemma BandMirrors(rs: seq<Rung>, k: int)
    requires 0 <= k < Kept(rs)
    ensures var b := Band(rs);
            var m := Kept(rs);
            b.xs[k] == Side(rs, true).xs[k] && b.ys[k] == Side(rs, true).ys[k] &&
            b.xs[2 * m - 1 - k] == Side(rs, false).xs[k] && b.ys[2 * m - 1 - k] == Side(rs, false).ys[k]
  {
  }

  /** When every point is kept, the sides are the corners of all points. */
  lemma {:induction false} AllKept(rs: seq<Rung>, up: bool)
    requires forall i :: 0 <= i < |rs| ==> rs[i].keep
    ensures Kept(rs) == |rs|
    ensures forall i :: 0 <= i < |rs| ==>
              Side(rs, up).xs[i] == (if up then rs[i].up.0 else rs[i].down.0) &&
              Side(rs, up).ys[i] == (if up then rs[i].up.1 else rs[i].down.1)
    decreases |rs|
  {
    if rs != [] {
      var init := rs[..|rs| - 1];
      AllKept(init, up);
      assert forall i :: 0 <= i < |init| ==> init[i] == rs[i];
    }
  }

  /** Option 3 of PaintGraphErrors: the band has all 2n slots; slot i is
      point i's upper corner and slot 2n-1-i its lower corner, at the same
      clamped x. */
  lemma ErrorsBandComplete(pad: Pad, x: seq<real>, y: seq<real>, ey: seq<real>, i: int)
    requires |y| == |x| && |ey| == |x| && 0 <= i < |x|
    ensures var b := Band(ErrorsRungs(pad, x, y, ey));
            var n := |x|;
            |b.xs| == 2 * n &&
            b.xs[i] == b.xs[2 * n - 1 - i] &&
            b.ys[i] == pad.ytoPad(y[i] + ey[i]) && b.ys[2 * n - 1 - i] == pad.ytoPad(y[i] - ey[i]) &&
            (pad.uxmin <= pad.uxmax ==> pad.uxmin <= b.xs[i] <= pad.uxmax)
  {
    var rs := ErrorsRungs(pad, x, y, ey);
    AllKept(rs, true);
    AllKept(rs, false);
    BandMirrors(rs, i);
  }

  // ---------------------------------------------------------------------
  // The slots as the asymmetric and bent painters leave them.

  /** A slot of xline/yline: written with a corner, or never written. */
  datatype Slot = Unset | Written(x: real, y: real)

  function Slots(b: Batch): (r: seq<Slot>)
    requires |b.xs| == |b.ys|
    ensures |r| == |b.xs|
    ensures forall k :: 0 <= k < |r| ==> r[k] == Written(b.xs[k], b.ys[k])
  {
    seq(|b.xs|, k requires 0 <= k < |b.xs| => Written(b.xs[k], b.ys[k]))
  }

  /** The 2n slots handed to PaintGraph as written: the upper corners from
      the front, the lower ones from the back, and between them one
      unwritten pair for every skipped point. */
  function SlotsAsWritten(rs: seq<Rung>): (r: seq<Slot>)
    ensures |r| == 2 * |rs|
  {
    var u := Side(rs, true);
    var d := Side(rs, false);
    Slots(u) + seq(2 * (|rs| - Kept(rs)), _ => Unset) + Slots(Batch(Reverse(d.xs), Reverse(d.ys)))
  }

  /** A skipped point leaves slots PaintGraph reads but nothing wrote. */
  lemma UnsetSlotsAsWritten(rs: seq<Rung>)
    requires Kept(rs) < |rs|
    ensures SlotsAsWritten(rs)[Kept(rs)] == Unset
    ensures |SlotsAsWritten(rs)| > |Band(rs).xs|
  {
  }

  /** One point below the frame of an asymmetric graph: PaintGraph gets two
      slots and neither was written. */
  lemma SkippedPointAsWritten()
    ensures var pad := Pad(0.0, 1.0, 0.0, 1.0, 0.0, 0.0, false, false,
                           v => v, v => v, v => v, v => v, v => v);
            var rs := AsymmRungs(pad, [0.5], [-1.0], [0.1], [0.1]);
            SlotsAsWritten(rs) == [Unset, Unset] && Band(rs) == Batch([], [])
  {
    var pad := Pad(0.0, 1.0, 0.0, 1.0, 0.0, 0.0, false, false,
                   v => v, v => v, v => v, v => v, v => v);
    var rs := AsymmRungs(pad, [0.5], [-1.0], [0.1], [0.1]);
    assert !rs[0].keep;
    assert rs[..0] == [];
    assert Kept(rs) == 0;
  }

  /** One point above the frame of a bent graph: the same two unwritten
      slots reach PaintGraph. */
  lemma SkippedBentPointAsWritten()
    ensures var pad := Pad(0.0, 1.0, 0.0, 1.0, 0.0, 0.0, false, false,
                           v => v, v => v, v => v, v => v, v => v);
            var rs := BentRungs(pad, [0.5], [2.0], [0.1], [0.1]);
            SlotsAsWritten(rs) == [Unset, Unset] && Band(rs) == Batch([], [])
  {
    var pad := Pad(0.0, 1.0, 0.0, 1.0, 0.0, 0.0, false, false,
                   v => v, v => v, v => v, v => v, v => v);
    var rs := BentRungs(pad, [0.5], [2.0], [0.1], [0.1]);
    assert !rs[0].keep;
    assert rs[..0] == [];
    assert Kept(rs) == 0;
  }

  // ---------------------------------------------------------------------
  // The assembly loop.

  /** Writes an upper corner at slot lo and a lower one at slot hi. */
  method PutPair(xline: array<real>, yline: array<real>, lo: int, hi: int, up: (real, real), down: (real, real))
    requires xline != yline && xline.Length == yline.Length && 0 <= lo < hi < xline.Length
    modifies xline, yline
    ensures xline[..lo + 1] == old(xline[..lo]) + [up.0] && yline[..lo + 1] == old(yline[..lo]) + [up.1]
    ensures xline[hi..] == [down.0] + old(xline[hi + 1..]) && yline[hi..] == [down.1] + old(yline[hi + 1..])
  {
    xline[lo], yline[lo] := up.0, up.1;
    xline[hi], yline[hi] := down.0, down.1;
    assert xline[hi..] == [xline[hi]] + xline[hi + 1..];
    assert yline[hi..] == [yline[hi]] + yline[hi + 1..];
  }

  /** The state of the arrays after the first i points. */
  predicate Assembled(rs: seq<Rung>, xline: array<real>, yline: array<real>, if1: int, if2: int)
    reads xline, yline
  {
    1 <= if1 && if1 - 1 <= if2 <= xline.Length && xline.Length == yline.Length &&
    if1 - 1 == Kept(rs) && if2 == xline.Length - Kept(rs) &&
    xline[..if1 - 1] == Side(rs, true).xs && yline[..if1 - 1] == Side(rs, true).ys &&
    xline[if2..] == Reverse(Side(rs, false).xs) && yline[if2..] == Reverse(Side(rs, false).ys)
  }

  lemma ReverseSnoc(s: seq<real>, a: real)
    ensures Reverse(s + [a]) == [a] + Reverse(s)
  {
    assert (s + [a])[..|s|] == s;
  }

  lemma SideSnoc(rs: seq<Rung>, i: int, up: bool)
    requires 0 <= i < |rs|
    ensures var b := Side(rs[..i], up);
            var p := if up then rs[i].up else rs[i].down;
            Side(rs[..i + 1], up) == if rs[i].keep then Batch(b.xs + [p.0], b.ys + [p.1]) else b
  {
    assert rs[..i + 1][..i] == rs[..i];
  }

  /** The body of the assembly loop for point i. */
  method PlaceRung(rs: seq<Rung>, i: int, xline: array<real>, yline: array<real>, if1: int, if2: int)
    returns (if1': int, if2': int)
    requires 0 <= i < |rs| && xline != yline && xline.Length == 2 * |rs|
    requires Assembled(rs[..i], xline, yline, if1, if2)
    modifies xline, yline
    ensures Assembled(rs[..i + 1], xline, yline, if1', if2')
  {
    SideSnoc(rs, i, true);
    SideSnoc(rs, i, false);
    assert rs[..i + 1][..i] == rs[..i];
    if1', if2' := if1, if2;
    if rs[i].keep {
      ReverseSnoc(Side(rs[..i], false).xs, rs[i].down.0);
      ReverseSnoc(Side(rs[..i], false).ys, rs[i].down.1);
      PutPair(xline, yline, if1 - 1, if2 - 1, rs[i].up, rs[i].down);
      if1', if2' := if1 + 1, if2 - 1;
    }
  }

  /** The fill loop of option 3: the kept points' corners written from both
      ends of 2n-slot arrays, then the band of the written slots. */
  method Assemble(rs: seq<Rung>) returns (band: Batch)
    ensures band == Band(rs)
  {
    var n := |rs|;
    var xline := new real[2 * n];
    var yline := new real[2 * n];
    var if1, if2 := 1, 2 * n;
    assert rs[..0] == [];
    for i := 0 to n
      invariant Assembled(rs[..i], xline, yline, if1, if2)
    {
      if1, if2 := PlaceRung(rs, i, xline, yline, if1, if2);
    }
    assert rs[..n] == rs;
    band := Batch(xline[..if1 - 1] + xline[if2..], yline[..if1 - 1] + yline[if2..]);
  }

  /** What the error painters hand to PaintGraph for the band, or nothing
      when the band is not drawn. Options 2 and 3 together are left out. */
  method ErrorsBandOf(pad: Pad, opt: string, x: seq<real>, y: seq<real>, ey: seq<real>)
    returns (r: Option<(Batch, string)>)
    requires |y| == |x| && |ey| == |x|
    ensures var o := DecodeErrorOptions(opt);
            r.Some? <==> !o.simple && !o.boxes && o.band
    ensures r.Some? ==> r.value == (Band(ErrorsRungs(pad, x, y, ey)), BandOption(DecodeErrorOptions(opt)))
  {
    var o := DecodeErrorOptions(opt);
    if o.simple || o.boxes || !o.band {
      return None;
    }
    var band := Assemble(ErrorsRungs(pad, x, y, ey));
    r := Some((band, BandOption(o)));
  }

  method AsymmBandOf(pad: Pad, opt: string, x: seq<real>, y: seq<real>, eyl: seq<real>, eyh: seq<real>)
    returns (r: Option<(Batch, string)>)
    requires |y| == |x| && |eyl| == |x| && |eyh| == |x|
    ensures var o := DecodeErrorOptions(opt);
            r.Some? <==> !o.simple && !o.boxes && o.band
    ensures r.Some? ==> r.value == (Band(AsymmRungs(pad, x, y, eyl, eyh)), BandOption(DecodeErrorOptions(opt)))
  {
    var o := DecodeErrorOptions(opt);
    if o.simple || o.boxes || !o.band {
      return None;
    }
    var band := Assemble(AsymmRungs(pad, x, y, eyl, eyh));
    r := Some((band, BandOption(o)));
  }

  method BentBandOf(pad: Pad, opt: string, x: seq<real>, y: seq<real>, eyl: seq<real>, eyh: seq<real>)
    returns (r: Option<(Batch, string)>)
    requires |y| == |x| && |eyl| == |x| && |eyh| == |x|
    ensures var o := DecodeErrorOptions(opt);
            r.Some? <==> !o.simple && !o.boxes && o.band
    ensures r.Some? ==> r.value == (Band(BentRungs(pad, x, y, eyl, eyh)), BandOption(DecodeErrorOptions(opt)))
  {
    var o := DecodeErrorOptions(opt);
    if o.simple || o.boxes || !o.band {
      return None;
    }
    var band := Assemble(BentRungs(pad, x, y, eyl, eyh));
    r := Some((band, BandOption(o)));
  }

  /** The kept points of an asymmetric graph are those inside the frame,
      and the band has two corners for each. */
  lemma {:induction false} AsymmKeepsFramed(pad: Pad, x: seq<real>, y: seq<real>, eyl: seq<real>, eyh: seq<real>)
    requires |y| == |x| && |eyl| == |x| && |eyh| == |x|
    ensures |Band(AsymmRungs(pad, x, y, eyl, eyh)).xs| ==
            2 * Kept(AsymmRungs(pad, x, y, eyl, eyh))
    ensures (forall i :: 0 <= i < |x| ==> InFrame(pad, pad.xtoPad(x[i]), pad.ytoPad(y[i]))) ==>
            Kept(AsymmRungs(pad, x, y, eyl, eyh)) == |x|
  {
    var rs := AsymmRungs(pad, x, y, eyl, eyh);
    if forall i :: 0 <= i < |x| ==> InFrame(pad, pad.xtoPad(x[i]), pad.ytoPad(y[i])) {
      AllKept(rs, true);
    }
  }
}
