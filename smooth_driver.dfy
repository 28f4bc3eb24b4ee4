/** The state machine of Smooth. The source is one function whose control
    flow is a web of gotos between numbered labels; here the label is a
    value, each group of labels is a helper that moves the machine one step,
    and Smooth loops over them. */
module SmoothDriver {
  import opened Canvas
  import opened CurveSmoother
  import RootFinder

  /** The labels of Smooth that are jump targets. */
  datatype Label =
    | L50 | L60 | L80 | L90 | L100 | L110 | L120 | L130 | L150 | L160
    | L170 | L180 | L190 | L200 | L210 | L220 | L230 | L240 | L250 | L290
    | L300 | L310 | L320 | L390

  /** Control variables: the label, the 1-based data indices k-1 (km), k
      and k+1 (kp, also the mode code of the root finder), whether the main
      loop is running (flgis), finished (-1: straight segment pending, 1:
      data exhausted) and the phase counter iw of the step search. */
  datatype Ctl = Ctl(lbl: Label, k: int, km: int, kp: int, flgis: bool, finished: int, iw: int)

  /** The real-valued variables that live across labels: direction cosines
      at both ends of the arc, the chords of the last tangent computation,
      the cubic's coefficients, the parameter and the current point. */
  datatype Geo = Geo(
    co: real, so: real, ct: real, st: real, ctu: real, stu: real,
    dx1: real, dy1: real, dx2: real, dy2: real,
    t: real, tj: real, xa: real, xb: real, ya: real, yb: real,
    u1: real, u2: real, u3: real,
    p1: real, p2: real, p3: real, p4: real, p5: real, p6: real,
    cc: real, err: real,
    a: real, b: real, c: real, s: real, z: real, sb: real,
    xt: real, yt: real)

  const Zeroed: Geo := Geo(0.0, 0.0, 0.0, 0.0, 0.0, 0.0, 0.0, 0.0, 0.0, 0.0,
                           0.0, 0.0, 0.0, 0.0, 0.0, 0.0, 0.0, 0.0, 0.0,
                           0.0, 0.0, 0.0, 0.0, 0.0, 0.0, 0.0, 0.0,
                           0.0, 0.0, 0.0, 0.0, 0.0, 0.0, 0.0, 0.0)

  /** The indices each label reads stay inside the n data points, and
      finished is 1 only where the last flush is pending. Around the root
      finder (L250, and L200 in the search phase iw > 0) kp holds its mode
      code, 0 or 1, rather than a data index. */
  ghost predicate At(c: Ctl, n: int)
  {
    var k := c.k;
    -1 <= c.finished <= 1 &&
    match c.lbl
    case L50 => 1 <= k <= n && c.finished <= 0
    case L60 => 2 <= k <= n + 1 && c.finished <= 0
    case L90 => 2 <= k < n && c.km == k - 1 && c.finished <= 0
    case L100 => 1 <= k < n && 1 <= c.km <= n && (k >= 2 || c.flgis) && c.finished <= 0
    case L120 => 1 <= k <= n && c.finished <= 0
    case L130 =>
      1 <= k <= n && 1 <= c.km <= n && 1 <= c.kp <= n && (k >= 2 || c.flgis) && c.finished <= 0
    case L160 => 1 <= k <= n && c.finished <= 0
    case L310 => c.finished == 1 || (2 <= k <= n && c.finished <= 0)
    case L320 => c.finished == 1 || (2 <= k <= n && c.finished <= 0)
    case L190 => 2 <= k <= n && c.finished <= 0 && c.iw == -2
    case L200 => 2 <= k <= n && c.finished <= 0 && (c.iw > 0 ==> 0 <= c.kp <= 1)
    case L250 => 2 <= k <= n && c.finished <= 0 && 0 <= c.kp <= 1
    case L390 => true
    case _ => 2 <= k <= n && c.finished <= 0
  }

  predicate Walking(l: Label) {
    l in {L50, L60, L80, L90, L100, L110, L120, L130, L150, L160}
  }

  predicate Tracing(l: Label) {
    l in {L170, L180, L190, L200, L210, L220, L230, L240, L290}
  }

  /** Label L200: PSI(D/delta) - cc for the step s, where D estimates how
      far the cubic strays from the chord over [tj, tj + s] (Marlow and
      Powell, equation 4.4). */
  function Deviation(s: real, a: real, b: real, w1: real, w2: real, delta: real, cc: real): real
  {
    var w3 := 1.5 * w1 + w2;
    var wsign := if w3 > 0.0 then RAbs(w1) else -RAbs(w1);
    var sth := 0.5 + Quot(wsign, 3.4 * RAbs(w1) + 5.2 * RAbs(w3));
    var z := s * sth * (s - s * sth) * (w1 * sth + w1 + w2);
    var z2 := Quot(z * z, (a * a + b * b) * (delta * delta));
    Quot((z2 + 2.642937) * z2, (0.3715652 * z2 + 3.063444) * z2 + 0.2441889) - cc
  }

  /** Below this squared norm the tangent at P(k) defaults to the normal of
      the incoming chord. */
  const TinyNorm: real := 0.0000000000000000000000001

  /** Labels L50 to L160: walk along the data, skip repeated points, decide
      between a straight segment and a curved arc, and compute the
      direction cosines at the ends of the arc. pending says whether the
      bank holds more than its first vertex. */
  method Walk(c: Ctl, g: Geo, x: array<real>, y: array<real>, n: int, flgic: bool,
              pending: bool, sqrt: real -> real)
    returns (c': Ctl, g': Geo)
    requires 2 <= n <= x.Length && n <= y.Length
    requires At(c, n) && Walking(c.lbl)
    ensures At(c', n) && c'.iw == c.iw
    ensures Walking(c'.lbl) || c'.lbl in {L170, L310, L390}
    ensures c'.lbl in {L310, L390} ==> c'.finished == 1 && (c'.lbl == L310 <==> pending)
    ensures c'.lbl == L170 ==> c'.k == c.k
  {
    c', g' := c, g;
    match c.lbl {
      case L50 =>
        // Step over points that repeat their predecessor.
        var k, done := SkipRepeated(x, y, n, c.k);
        if done {
          c' := c.(k := k, finished := 1, lbl := if pending then L310 else L390);
        } else {
          c' := c.(k := k, lbl := L60);
        }
      case L60 =>
        c' := c.(km := c.k - 1);
        if c.k > n {
          c' := c'.(finished := 1, lbl := if pending then L310 else L390);
        } else if c.k < n {
          c' := c'.(lbl := L90);
        } else if !flgic {
          // A closed curve: the arc into P(n) continues into P(2).
          c' := c'.(kp := 2, lbl := L130);
        } else {
          c' := c'.(lbl := L80);
        }
      case L80 =>
        if c.flgis {
          c' := c.(lbl := L150);
        } else {
          // A straight segment from P(k-1) to P(k).
          c' := c.(finished := -1, lbl := L170);
        }
      case L90 =>
        // P(k) is a cusp when it equals P(k+1).
        c' := c.(lbl := if x[c.k - 1] == x[c.k] && y[c.k - 1] == y[c.k] then L80 else L100);
      case L100 =>
        c' := c.(kp := c.k + 1, lbl := L130);
      case L110 =>
        c' := c.(lbl := if !c.flgis then L50 else L120);
      case L120 =>
        // Carry the direction cosines forward to the next arc.
        g' := g.(co := g.ct, so := g.st);
        c' := c.(k := c.k + 1, lbl := L60);
      case L130 =>
        // Direction cosines at P(k) from P(km), P(k), P(kp).
        var k, km, kp := c.k, c.km, c.kp;
        var dx1 := x[k - 1] - x[km - 1];
        var dy1 := y[k - 1] - y[km - 1];
        var dk1 := dx1 * dx1 + dy1 * dy1;
        var dx2 := x[kp - 1] - x[k - 1];
        var dy2 := y[kp - 1] - y[k - 1];
        var dk2 := dx2 * dx2 + dy2 * dy2;
        var ctu := dx1 * dk2 + dx2 * dk1;
        var stu := dy1 * dk2 + dy2 * dk1;
        var xnt := ctu * ctu + stu * stu;
        if xnt < TinyNorm {
          // P(k) == P(k+1), a loop: take the normal of the incoming chord.
          ctu, stu, xnt := dy1, -dx1, dk1;
        }
        g' := g.(dx1 := dx1, dy1 := dy1, dx2 := dx2, dy2 := dy2, ctu := ctu, stu := stu,
                 ct := Quot(ctu, sqrt(xnt)), st := Quot(stu, sqrt(xnt)));
        if c.flgis {
          c' := c.(lbl := L160);
        } else {
          // Direction cosines at P(k-1) from the same three points.
          var w3 := 2.0 * (dx1 * dy2 - dx2 * dy1);
          var co := ctu + w3 * dy1;
          var so := stu - w3 * dx1;
          var inv := Quot(1.0, sqrt(co * co + so * so));
          g' := g'.(co := co * inv, so := so * inv);
          c' := c.(flgis := true, lbl := L170);
        }
      case L150 =>
        // Direction cosines at P(k) from P(k-2), P(k-1), P(k).
        var w3 := 2.0 * (g.dx1 * g.dy2 - g.dx2 * g.dy1);
        var ct := g.ctu - w3 * g.dy2;
        var st := g.stu + w3 * g.dx2;
        var inv := Quot(1.0, sqrt(ct * ct + st * st));
        g' := g.(ct := ct * inv, st := st * inv);
        c' := c.(flgis := false, lbl := L170);
      case L160 =>
        c' := c.(lbl := if c.k <= 1 then L120 else L170);
    }
  }

  /** The arc's coordinate at parameter t: u3 t^3 + u2 t^2 + u1 t + u0. */
  function ArcAt(u3: real, u2: real, u1: real, u0: real, t: real): real {
    ((u3 * t + u2) * t + u1) * t + u0
  }

  /** The derivative of ArcAt with respect to t. */
  function ArcSlope(u3: real, u2: real, u1: real, t: real): real {
    (3.0 * u3 * t + 2.0 * u2) * t + u1
  }

  /** The two leading coefficients of the cubic of one coordinate set up
      at L170, from the start and end slopes c0 and c1, the chord d and the
      parameter length t. */
  function HermiteCoefficients(c0: real, c1: real, d: real, t: real): (real, real) {
    var a := c0 + c1;
    (Quot(a * t - 2.0 * d, t * (t * t)), Quot(3.0 * d - (c0 + a) * t, t * t))
  }

  /** The cube and the square of a non-zero parameter are non-zero. */
  lemma PowersNonZero(t: real)
    requires t != 0.0
    ensures t * t > 0.0 && t * (t * t) != 0.0
  {
    if t < 0.0 {
      var m := -t;
      assert m * m > 0.0 && m * (m * m) > 0.0;
      assert t * t == m * m && t * (t * t) == -(m * (m * m));
    }
  }

  /** The coefficients undo their divisions. */
  lemma HermiteScaled(c0: real, c1: real, d: real, t: real)
    requires t != 0.0
    ensures var u := HermiteCoefficients(c0, c1, d, t);
            u.0 * (t * (t * t)) == (c0 + c1) * t - 2.0 * d &&
            u.1 * (t * t) == 3.0 * d - (2.0 * c0 + c1) * t
  {
    PowersNonZero(t);
  }

  /** That cubic runs from start to start + d at parameter t. */
  lemma ArcEnd(c0: real, c1: real, d: real, start: real, t: real)
    requires t != 0.0
    ensures var u := HermiteCoefficients(c0, c1, d, t);
            ArcAt(u.0, u.1, c0, start, t) == start + d
  {
    var u := HermiteCoefficients(c0, c1, d, t);
    HermiteScaled(c0, c1, d, t);
    var p, q := u.0 * (t * (t * t)), u.1 * (t * t);
    assert ArcAt(u.0, u.1, c0, start, t) == p + q + c0 * t + start;
  }

  /** Its slope at parameter t is c1. */
  lemma ArcEndSlope(c0: real, c1: real, d: real, t: real)
    requires t != 0.0
    ensures var u := HermiteCoefficients(c0, c1, d, t);
            ArcSlope(u.0, u.1, c0, t) == c1
  {
    var u := HermiteCoefficients(c0, c1, d, t);
    HermiteScaled(c0, c1, d, t);
    var p, q := u.0 * (t * (t * t)), u.1 * (t * t);
    var v := ArcSlope(u.0, u.1, c0, t);
    assert v * t == 3.0 * p + 2.0 * q + c0 * t;
    assert v * t == c1 * t;
    assert (v - c1) * t == 0.0;
  }

  /** Label L170: the arc from P(k-1) to P(k). A straight segment, or an arc
      close to its chord, ends at P(k); a curved arc starts at P(k-1) with
      tj = 0, on a cubic that meets P(k) at t with the end direction
      (ct, st). */
  method SetUpArc(c: Ctl, g: Geo, x: array<real>, y: array<real>, n: int, delta: real,
                  sqrt: real -> real)
    returns (c': Ctl, g': Geo)
    requires 2 <= n <= x.Length && n <= y.Length
    requires At(c, n) && c.lbl == L170
    ensures c.finished < 0 ==> c'.lbl == L300 && c'.finished < 0
    ensures (c'.lbl == L300 && c' == c.(lbl := L300, finished := -1) &&
             g'.xt == x[c.k - 1] && g'.yt == y[c.k - 1]) ||
            (c.finished >= 0 && c' == c.(lbl := L180) && g'.tj == 0.0 &&
             g'.xt == x[c.k - 2] && g'.yt == y[c.k - 2] &&
             (g'.t != 0.0 ==>
                ArcAt(g'.xa, g'.xb, g.co, x[c.k - 2], g'.t) == x[c.k - 1] &&
                ArcAt(g'.ya, g'.yb, g.so, y[c.k - 2], g'.t) == y[c.k - 1] &&
                ArcSlope(g'.xa, g'.xb, g.co, g'.t) == g.ct &&
                ArcSlope(g'.ya, g'.yb, g.so, g'.t) == g.st))
  {
    var xo, yo := x[c.k - 2], y[c.k - 2];
    var dx, dy := x[c.k - 1] - xo, y[c.k - 1] - yo;
    if c.finished < 0 {
      g' := g.(xt := xo + dx, yt := yo + dy);
      c' := c.(lbl := L300);
    } else {
      // X(t) = xa t^3 + xb t^2 + co t + xo, and Y(t) alike.
      var cc := dx * dx + dy * dy;
      var a := g.co + g.ct;
      var b := g.so + g.st;
      var r := dx * a + dy * b;
      var t := Quot(cc * 6.0, sqrt(r * r + 2.0 * (7.0 - g.co * g.ct - g.so * g.st) * cc) + r);
      var (xa, xb) := HermiteCoefficients(g.co, g.ct, dx, t);
      var (ya, yb) := HermiteCoefficients(g.so, g.st, dy, t);
      if t != 0.0 {
        ArcEnd(g.co, g.ct, dx, xo, t);
        ArcEnd(g.so, g.st, dy, yo, t);
        ArcEndSlope(g.co, g.ct, dx, t);
        ArcEndSlope(g.so, g.st, dy, t);
      }
      g' := g.(c := cc, a := a, b := b, t := t, xa := xa, xb := xb, ya := ya, yb := yb);
      if 0.75 * RMax(RAbs(dx * g.so - dy * g.co), RAbs(dx * g.st - dy * g.ct)) <= delta {
        // Close to a straight line: draw the chord.
        g' := g'.(xt := xo + dx, yt := yo + dy);
        c' := c.(finished := -1, lbl := L300);
      } else {
        g' := g'.(xt := xo, yt := yo, tj := 0.0,
                  u1 := ya * xb - yb * xa, u2 := yb * g.co - xb * g.so,
                  u3 := g.so * xa - ya * g.co);
        c' := c.(lbl := L180);
      }
    }
  }

  /** Labels L170 to L290 except the root finder: set up the cubic of the
      arc from P(k-1) to P(k), then step along it, each step as long as the
      chord stays within delta of the curve. */
  method Trace(c: Ctl, g: Geo, x: array<real>, y: array<real>, n: int, delta: real,
               sqrt: real -> real)
    returns (c': Ctl, g': Geo)
    requires 2 <= n <= x.Length && n <= y.Length
    requires At(c, n) && Tracing(c.lbl)
    ensures At(c', n) && c'.k == c.k
    ensures Tracing(c'.lbl) || c'.lbl in {L250, L300}
    // A straight segment, or an arc close to its chord, ends at P(k); a
    // curved arc starts at P(k-1) with tj = 0 (SetUpArc gives its cubic).
    ensures c.lbl == L170 && c.finished < 0 ==> c'.lbl == L300 && c'.finished < 0
    ensures c.lbl == L170 ==>
              (c'.lbl == L300 && c'.finished == -1 && g'.xt == x[c.k - 1] && g'.yt == y[c.k - 1]) ||
              (c.finished >= 0 && c' == c.(lbl := L180) && g'.tj == 0.0 &&
               g'.xt == x[c.k - 2] && g'.yt == y[c.k - 2])
    // The last part of an arc ends exactly at P(k).
    ensures c.lbl == L230 ==>
              c'.lbl == L300 && g'.xt == x[c.k - 1] && g'.yt == y[c.k - 1] && g'.s == 0.0
  {
    c', g' := c, g;
    match c.lbl {
      case L170 =>
        c', g' := SetUpArc(c, g, x, y, n, delta, sqrt);
      case L180 =>
        // Given t(j), look for t(j+1).
        var tj := g.tj;
        var p3 := 3.0 * tj * g.ya + g.yb;
        var p5 := 3.0 * tj * g.xa + g.xb;
        g' := g.(s := g.t - tj,
                 p1 := (2.0 * g.u1) * tj - g.u3,
                 p2 := (g.u1 * tj - g.u3) * 3.0 * tj + g.u2,
                 p3 := p3, p4 := (p3 + g.yb) * tj + g.so,
                 p5 := p5, p6 := (p5 + g.xb) * tj + g.co,
                 cc := 0.8209285, err := 0.1209835);
        c' := c.(iw := -2, lbl := L190);
      case L190 =>
        c' := c.(iw := c.iw - 2, lbl := L200);
      case L200 =>
        var s := g.s;
        var a := (s * g.ya + g.p3) * s + g.p4;
        var b := (s * g.xa + g.p5) * s + g.p6;
        var w1 := -s * (s * g.u1 + g.p1);
        var w2 := s * s * g.u1 - g.p2;
        var z := Deviation(s, a, b, w1, w2, delta, g.cc);
        g' := g.(a := a, b := b, z := z);
        c' := c.(lbl := if c.iw > 0 then L250 else if z > g.err then L240 else L220);
      case L210 =>
        c' := c.(iw := c.iw - 2, lbl := L220);
      case L220 =>
        c' := c.(lbl := if c.iw + 2 == 0 then L190 else if c.iw + 2 > 0 then L290 else L230);
      case L230 =>
        // Last part of the arc.
        g' := g.(xt := x[c.k - 1], yt := y[c.k - 1], s := 0.0);
        c' := c.(lbl := L300);
      case L240 =>
        g' := g.(c := g.z, sb := g.s);
        c' := c.(kp := 0, lbl := L250);
      case L290 =>
        g' := g.(xt := g.xt + g.s * g.b, yt := g.yt + g.s * g.a, tj := g.s + g.tj);
        c' := c.(lbl := L300);
    }
  }

  /** Label L250: one call of the root finder on z(s) over [0, sb]. */
  method Solve(c: Ctl, g: Geo, solver: RootFinder.ZeroSolver, n: int)
    returns (c': Ctl, g': Geo)
    requires At(c, n) && c.lbl == L250 && solver.Valid()
    modifies solver
    ensures solver.Valid()
    ensures At(c', n) && c'.k == c.k
    ensures c'.lbl in {L200, L210, L230, L250}
    // Convergence of the root finder ends the step search at L210.
    ensures c'.kp == 2 <==> c'.lbl == L210
    // Any other result above 2 is a failure: the arc ends at its data point.
    ensures c'.kp > 2 <==> c'.lbl == L230
    ensures c'.kp > 2 ==> solver.it >= 20
    // A proposal is evaluated at L200 in the search phase; in the two
    // starting phases the known residual at 0 or at sb is handed back.
    ensures c'.kp < 2 ==>
              if c.iw > 0 then c'.lbl == L200 && c'.iw == c.iw
              else c'.lbl == L250 && c'.iw == (if c.iw < 0 then 0 else 1) &&
                   g'.z == (if c.iw < 0 then -g.cc else g.c)
  {
    var kp, s, z, proposed := solver.Step(c.kp, 0.0, g.sb, g.err, g.s, g.z, 20);
    g' := g.(s := s, z := z);
    c' := c.(kp := kp);
    if kp == 2 {
      c' := c'.(lbl := L210);
    } else if kp > 2 {
      // The source reports "Attempt to plot outside plot limits".
      c' := c'.(lbl := L230);
    } else if c.iw > 0 {
      c' := c'.(lbl := L200);
    } else if c.iw < 0 {
      // z(0) is -cc.
      g' := g'.(z := -g.cc);
      c' := c'.(iw := 0);
    } else {
      // z(sb) was kept in c.
      g' := g'.(z := g.c);
      c' := c'.(iw := 1);
    }
  }

  /** The labels that neither touch the bank nor leave the machine. */
  predicate Inner(l: Label) {
    Walking(l) || Tracing(l) || l == L250 || l == L320
  }

  /** Label L320: after a vertex, stop when the data are exhausted, go back
      to the walk after a straight segment or the end of an arc, and
      otherwise take the next step along the arc. */
  function Settle(c: Ctl, s: real): (c': Ctl)
    requires c.lbl == L320
    ensures c'.finished == (if c.finished < 0 then 0 else c.finished)
    ensures c'.lbl == L390 <==> c.finished > 0
    ensures c'.lbl == L180 <==> c.finished == 0 && s > 0.0
    ensures c'.lbl in {L110, L180, L390}
  {
    if c.finished > 0 then c.(lbl := L390)
    else if c.finished < 0 then c.(finished := 0, lbl := L110)
    else if s > 0.0 then c.(lbl := L180)
    else c.(lbl := L110)
  }

  /** Runs the machine through inner labels until it reaches the bank (L300,
      L310), the end (L390), or runs out of steps. */
  method Advance(c: Ctl, g: Geo, x: array<real>, y: array<real>, n: int, flgic: bool,
                 pending: bool, delta: real, sqrt: real -> real,
                 solver: RootFinder.ZeroSolver, steps: nat)
    returns (c': Ctl, g': Geo, steps': nat)
    requires 2 <= n <= x.Length && n <= y.Length
    requires At(c, n) && Inner(c.lbl) && solver.Valid()
    modifies solver
    ensures solver.Valid() && At(c', n)
    ensures steps' <= steps && (steps > 0 ==> steps' < steps)
    ensures Inner(c'.lbl) ==> steps' == 0
    ensures c'.lbl in {L310, L390} ==> c'.finished == 1 && (c'.lbl == L310 ==> pending)
    ensures c.lbl == L320 && c.finished == 1 ==> c'.finished == 1 && c'.lbl in {L320, L390}
  {
    c', g', steps' := c, g, steps;
    ghost var ran := false;
    while steps' > 0 && Inner(c'.lbl)
      invariant solver.Valid() && At(c', n)
      invariant ran ==> steps' < steps
      invariant !ran ==> c' == c && steps' == steps
      invariant !Inner(c'.lbl) ==> c'.lbl in {L300, L310, L390}
      invariant c.lbl == L320 && c.finished == 1 ==> c'.finished == 1 && c'.lbl in {L320, L390}
      invariant c'.lbl in {L310, L390} ==> c'.finished == 1 && (c'.lbl == L310 ==> pending)
      decreases steps'
    {
      steps' := steps' - 1;
      ran := true;
      if Walking(c'.lbl) {
        c', g' := Walk(c', g', x, y, n, flgic, pending, sqrt);
      } else if Tracing(c'.lbl) {
        c', g' := Trace(c', g', x, y, n, delta, sqrt);
      } else if c'.lbl == L320 {
        c' := Settle(c', g'.s);
      } else {
        c', g' := Solve(c', g', solver, n);
      }
    }
  }

  /** How a flushed batch is drawn: the draw type, the curve type and
      rotation decoded from it, the baseline origin and whether hatches go
      with the polyline. */
  datatype Style = Style(drawtype: int, ktype: int, loptx: bool, xorg: real, yorg: real, hatched: bool)
  {
    predicate Fill() { drawtype >= 1000 || ktype > 1 }
  }

  /** What the output side of Smooth keeps between steps: a well-formed
      bank with room for the next vertex (or a batch of at least two to
      flush at L310), a trace of batches of two or more points that starts
      at (x0, y0) (or, while empty, a bank that starts there), and in fill
      modes no flush before the final one. */
  ghost predicate Output(c: Ctl, style: Style, bank: Bank, trace: seq<PaintCall>, flushes: nat,
                         x0: real, y0: real)
    reads bank, bank.qlx, bank.qly
  {
    bank.Valid() &&
    (c.lbl != L310 ==> bank.npt < bank.banksize) &&
    (c.lbl == L310 ==> bank.npt >= 2) &&
    (forall i :: 0 <= i < |trace| ==> Drawn(trace[i])) &&
    (trace == [] ==> bank.Xs()[0] == x0 && bank.Ys()[0] == y0) &&
    (trace != [] ==> Batch(trace[0], x0, y0, 2)) &&
    |trace| <= 3 * flushes &&
    (style.Fill() ==> flushes == 0 || (flushes == 1 && c.finished == 1 && c.lbl in {L320, L390})) &&
    (style.Fill() && c.lbl == L310 ==> c.finished == 1)
  }

  /** Inner labels leave the bank and the trace alone, so the output side
      still holds after them provided a flush is only requested for a batch
      of two or more at the end of the data, and a finished machine stays
      finished. */
  lemma OutputAfterInner(c: Ctl, c': Ctl, style: Style, bank: Bank, trace: seq<PaintCall>,
                         flushes: nat, x0: real, y0: real)
    requires Output(c, style, bank, trace, flushes, x0, y0) && Inner(c.lbl)
    requires c'.lbl == L310 ==> bank.npt >= 2 && c'.finished == 1
    requires c.lbl == L320 && c.finished == 1 ==> c'.finished == 1 && c'.lbl in {L320, L390}
    ensures Output(c', style, bank, trace, flushes, x0, y0)
  {
  }

  /** Label L300: the current point, back in the caller's coordinates, goes
      into the bank; a full bank is flushed next unless a fill mode lets it
      grow. */
  method Feed(c: Ctl, g: Geo, n: int, style: Style, sxmin: real, symin: real,
              xratio: real, yratio: real, bank: Bank, trace: seq<PaintCall>, ghost flushes: nat,
              ghost x0: real, ghost y0: real)
    returns (c': Ctl)
    requires c.lbl == L300 && At(c, n) && xratio != 0.0 && yratio != 0.0
    requires Output(c, style, bank, trace, flushes, x0, y0)
    modifies bank, bank.qlx, bank.qly
    ensures At(c', n) && c'.lbl in {L310, L320} && Output(c', style, bank, trace, flushes, x0, y0)
    ensures c' == c.(lbl := c'.lbl)
    ensures bank.qlx == old(bank.qlx) || fresh(bank.qlx)
    ensures bank.qly == old(bank.qly) || fresh(bank.qly)
    // The current point, in the caller's coordinates, joins the bank.
    ensures bank.Xs() == old(bank.Xs()) + [sxmin + g.xt / xratio]
    ensures bank.Ys() == old(bank.Ys()) + [symin + g.yt / yratio]
    // A flush follows exactly when the bank is full, never in fill modes.
    ensures c'.lbl == L310 <==> bank.npt == bank.banksize
    ensures c'.lbl == L310 ==> !style.Fill()
  {
    var full := bank.Emit(sxmin + g.xt / xratio, symin + g.yt / yratio, style.Fill());
    c' := c.(lbl := if full then L310 else L320);
  }

  /** Label L310: the bank goes to the pad, and the next batch starts at
      the current point. */
  method Deliver(c: Ctl, g: Geo, n: int, style: Style, sxmin: real, symin: real,
                 xratio: real, yratio: real, bank: Bank, trace: seq<PaintCall>, ghost flushes: nat,
                 ghost x0: real, ghost y0: real)
    returns (c': Ctl, trace': seq<PaintCall>, ghost flushes': nat)
    requires c.lbl == L310 && At(c, n) && xratio != 0.0 && yratio != 0.0
    requires Output(c, style, bank, trace, flushes, x0, y0)
    modifies bank, bank.qlx, bank.qly
    ensures At(c', n) && c'.lbl == L320 && Output(c', style, bank, trace', flushes', x0, y0)
    ensures c' == c.(lbl := L320) && flushes' == flushes + 1
    ensures bank.qlx == old(bank.qlx) && bank.qly == old(bank.qly)
    // The batch is drawn as Flush prescribes...
    ensures trace' == trace + Flush(style.drawtype, style.ktype, style.loptx, style.xorg, style.yorg,
                                    style.hatched, old(bank.Xs()), old(bank.Ys()))
    // ... and the next one starts at the current point.
    ensures bank.Xs() == [sxmin + g.xt / xratio] && bank.Ys() == [symin + g.yt / yratio]
  {
    var calls := bank.Hand(style.drawtype, style.ktype, style.loptx, style.xorg, style.yorg,
                           style.hatched, sxmin + g.xt / xratio, symin + g.yt / yratio);
    trace' := trace + calls;
    flushes' := flushes + 1;
    c' := c.(lbl := L320);
  }

  /** The main loop of Smooth on rescaled data: runs the machine from c for
      at most steps steps, feeding the bank and flushing it to the trace. */
  method Run(c0: Ctl, x: array<real>, y: array<real>, n: int, flgic: bool, style: Style,
             sxmin: real, symin: real, xratio: real, yratio: real, delta: real,
             sqrt: real -> real, solver: RootFinder.ZeroSolver, bank: Bank, steps0: nat)
    returns (trace: seq<PaintCall>, ghost flushes: nat)
    requires 2 <= n <= x.Length && n <= y.Length
    requires At(c0, n) && Inner(c0.lbl) && xratio != 0.0 && yratio != 0.0
    requires solver.Valid() && bank.Valid() && bank.npt < bank.banksize
    requires x != bank.qlx && x != bank.qly && y != bank.qlx && y != bank.qly
    modifies solver, bank, bank.qlx, bank.qly
    ensures solver.Valid()
    ensures forall i :: 0 <= i < |trace| ==> Drawn(trace[i])
    ensures trace != [] ==> Batch(trace[0], old(bank.Xs()[0]), old(bank.Ys()[0]), 2)
    ensures style.Fill() ==> flushes <= 1
    ensures |trace| <= 3 * flushes
  {
    ghost var x0, y0 := bank.Xs()[0], bank.Ys()[0];
    var c, g := c0, Zeroed;
    trace := [];
    flushes := 0;
    var steps := steps0;
    while steps > 0 && c.lbl != L390
      invariant At(c, n) && solver.Valid()
      invariant Output(c, style, bank, trace, flushes, x0, y0)
      invariant bank.qlx == old(bank.qlx) || fresh(bank.qlx)
      invariant bank.qly == old(bank.qly) || fresh(bank.qly)
      decreases steps
    {
      if Inner(c.lbl) {
        ghost var before := c;
        c, g, steps := Advance(c, g, x, y, n, flgic, bank.npt > 1, delta, sqrt, solver, steps);
        OutputAfterInner(before, c, style, bank, trace, flushes, x0, y0);
      } else if c.lbl == L300 {
        steps := steps - 1;
        c := Feed(c, g, n, style, sxmin, symin, xratio, yratio, bank, trace, flushes, x0, y0);
      } else {
        assert c.lbl == L310;
        steps := steps - 1;
        c, trace, flushes :=
          Deliver(c, g, n, style, sxmin, symin, xratio, yratio, bank, trace, flushes, x0, y0);
      }
    }
  }

  /** Smooth(theGraph, npoints, x, y, drawtype): draws a tangent-continuous
      curve through the first npoints points of x/y. The frame range
      (ruxmin, ruymin, ruymax), the graph's line width and the square root
      are inputs; the pad calls are returned as a trace, and flushes counts
      the times the bank was handed to the pad. The state machine runs for
      at most fuel steps. */
  method Smooth(ruxmin: real, ruymin: real, ruymax: real, lineWidth: int,
                npoints: int, x: array<real>, y: array<real>, drawtype: int,
                solver: RootFinder.ZeroSolver, sqrt: real -> real, fuel: nat)
    returns (trace: seq<PaintCall>, ghost flushes: nat)
    requires 2 <= npoints <= x.Length && npoints <= y.Length && x != y
    requires solver.Valid()
    modifies x, y, solver
    // The caller's arrays come back as they were.
    ensures x[..] == old(x[..]) && y[..] == old(y[..])
    ensures solver.Valid()
    ensures forall i :: 0 <= i < |trace| ==> Drawn(trace[i])
    // The drawn curve starts at the first data point.
    ensures trace != [] ==> Batch(trace[0], old(x[0]), old(y[0]), 2)
    // Fill modes draw the whole polygon in one go.
    ensures drawtype >= 1000 || DecodeDrawtype(drawtype).0 > 1 ==> flushes <= 1
    ensures |trace| <= 3 * flushes
  {
    var (ktype, loptx) := DecodeDrawtype(drawtype);
    var (xorg, yorg) := Origin(ktype, ruxmin, ruymin, ruymax);
    var style := Style(drawtype, ktype, loptx, xorg, yorg, Abs(lineWidth) > 99);
    var delta := 0.00055;

    var bank := new Bank(npoints, x[0], y[0]);
    // Scale to [0, ratio_signs] in x and [0, 1] in y.
    var sxmin, symin, xratio, yratio, closed := Normalise(x, y, npoints);

    // An open curve, or one whose ends do not join smoothly, starts with
    // the point walk; a closed one starts with the tangent at P(1) taken
    // from P(n-1), P(1), P(2).
    var flgic := !closed && (x[0] != x[npoints - 1] || y[0] != y[npoints - 1] ||
                             (x[npoints - 2] == x[npoints - 1] && y[npoints - 2] == y[npoints - 1]) ||
                             (x[0] == x[1] && y[0] == y[1]));
    var c := if flgic then Ctl(L50, 1, 0, 0, false, 0, 0)
             else Ctl(L100, 1, npoints - 1, 0, true, 0, 0);
    trace, flushes := Run(c, x, y, npoints, flgic, style, sxmin, symin, xratio, yratio, delta,
                          sqrt, solver, bank, fuel);

    // Restore the caller's coordinates.
    Restore(x, y, npoints, sxmin, symin, xratio, yratio);
    UnscaleRescale(old(x[..]), npoints, sxmin, xratio);
    UnscaleRescale(old(y[..]), npoints, symin, yratio);
  }
}
