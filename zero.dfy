/** Reverse-communication root finder of TGraphPainter (Zero).
    The caller passes a mode code k and the residual Y at the last proposed
    abscissa X; the solver either proposes a new X (and leaves k alone, so the
    caller sees k == 1), reports convergence (k == 2) or reports that the
    iteration budget is spent (k == j1, that is 3 or 4). Its state lives in
    function-static variables, modelled here as the fields of ZeroSolver. */
module RootFinder {

  function Abs(v: real): real { if v < 0.0 then -v else v }

  function Min(u: real, v: real): real { if u <= v then u else v }

  /** True when v lies strictly between the bracket ends u and w. */
  predicate StrictlyInside(v: real, u: real, w: real) {
    (v - u) * (v - w) < 0.0
  }

  /** True when v lies between u and w, ends included. */
  predicate Within(v: real, u: real, w: real) {
    (v - u) * (v - w) <= 0.0
  }

  /** The two points the secant step of L150 goes through: the current
      point (X, Y), then the previous one (x1, y1). Entering at L130, the
      bracket end with the smaller residual becomes the current point and
      the other end the previous one. */
  function SecantBase(where: int, a: real, ya: real, b: real, yb: real,
                      x: real, y: real, x1: real, y1: real): (r: (real, real, real, real))
    ensures where == 130 ==>
              Abs(r.1) <= Abs(r.3) && (r == (a, ya, b, yb) || r == (b, yb, a, ya))
    ensures where != 130 ==> r == (x, y, x1, y1)
  {
    if where != 130 then (x, y, x1, y1)
    else if Abs(ya) > Abs(yb) then (b, yb, a, ya)
    else (a, ya, b, yb)
  }

  /** Where the line through (xp, yp) and (xq, yq) crosses zero. */
  function Secant(xp: real, yp: real, xq: real, yq: real): (r: real)
    requires yp != yq
    ensures (r - xp) * (yq - yp) == yp * (xp - xq)
  {
    var d := yp * (xp - xq) / (yp - yq);
    assert d * (yp - yq) == yp * (xp - xq);
    xp - d
  }

  /** True when the secant step taken at label where is defined and lands
      strictly inside the bracket (a, b), so that it is proposed. */
  predicate SecantTaken(where: int, a: real, ya: real, b: real, yb: real,
                        x: real, y: real, x1: real, y1: real)
  {
    var p := SecantBase(where, a, ya, b, yb, x, y, x1, y1);
    where != 160 && p.1 != p.3 && StrictlyInside(Secant(p.0, p.1, p.2, p.3), a, b)
  }

  /** Replacing the end whose residual has the same sign as the new sample
      keeps a sign change between the two ends. */
  lemma SameSideKeepsBracket(ya: real, fb: real, y: real)
    requires ya * fb < 0.0 && ya * y >= 0.0 && y != 0.0
    ensures y * fb < 0.0
  {
    if ya > 0.0 {
      assert y > 0.0 && fb < 0.0;
    } else {
      assert ya < 0.0 && y < 0.0 && fb > 0.0;
    }
  }

  class ZeroSolver {
    // The static variables of Zero.
    var a: real
    var b: real
    var ya: real
    var ytest: real
    var y1: real
    var x1: real
    var h: real
    var j1: int
    var it: int
    var j3: int
    var j2: int

    /** Residual the caller reported at b (the source keeps it only in a
        per-call local). */
    ghost var fb: real
    /** Abscissae proposed since the last session start. */
    ghost var proposals: nat

    ghost predicate Valid()
      reads this
    {
      0 <= j1 <= 4 && 0 <= it && proposals <= it + 1 &&
      (j1 == 1 ==> proposals <= it)
    }

    /** Once a sign change is bracketed, the stored residuals at a and b
        have opposite signs. */
    ghost predicate Bracketed()
      reads this
    {
      j1 == 4 ==> ya * fb < 0.0
    }

    /** The stored residuals are values of f: ya at a once both ends are
        sampled, y1 at x1 during the search, and fb at b once bracketed. */
    ghost predicate Samples(f: real -> real)
      reads this
    {
      (j1 >= 2 ==> ya == f(a)) && (j1 == 3 ==> y1 == f(x1)) && (j1 == 4 ==> fb == f(b))
    }

    /** Static storage starts zeroed. */
    constructor ()
      ensures Valid() && Bracketed()
      ensures j1 == 0 && it == 0 && proposals == 0
    {
      a, b, ya, ytest, y1, x1, h := 0.0, 0.0, 0.0, 0.0, 0.0, 0.0, 0.0;
      j1, it, j3, j2 := 0, 0, 0, 0;
      fb := 0.0;
      proposals := 0;
    }

    /** One call of Zero(k, AZ, BZ, E2, X, Y, maxiterations): k, X and Y are
        in/out parameters of the source and come back as k', x', y'. The
        ghost result proposed says whether a new abscissa was handed out. */
    method Step(k: int, az: real, bz: real, e2: real, x: real, y: real, maxiterations: int)
      returns (k': int, x': real, y': real, ghost proposed: bool)
      requires Valid()
      modifies this
      ensures Valid()
      // Starting a session.
      ensures k <= 0 ==>
                a == az && b == bz && x' == az && y' == y && k' == 1 &&
                j1 == 1 && it == 1 && proposed && proposals == 1
      // A small residual ends the session at once and touches nothing.
      ensures k > 0 && Abs(y) <= e2 ==>
                k' == 2 && x' == x && y' == y && !proposed && unchanged(this)
      // Second sample: the other end of the interval.
      ensures k > 0 && Abs(y) > e2 && old(j1) == 1 ==>
                ya == y && a == old(a) && b == old(b) && x' == b && j1 == 2 && k' == k &&
                it == old(it) && proposed
      // After the first two samples every proposal spends one iteration and
      // happens only while the budget lasts.
      ensures k > 0 && Abs(y) > e2 && old(j1) != 1 && proposed ==>
                it == old(it) + 1 && it < maxiterations && k' == k
      // When nothing is proposed the call reports convergence or exhaustion.
      ensures k > 0 && Abs(y) > e2 && !proposed ==>
                k' == 2 || (k' == j1 && j1 != 1 && j1 != 2 && it >= maxiterations)
      // Same signs at both ends: the subdivision search starts from a.
      ensures k > 0 && Abs(y) > e2 && old(j1) == 2 && old(ya) * y >= 0.0 ==>
                j1 == 3 && a == old(a) && b == old(b) && ya == old(ya) && h == b - a &&
                x1 == a && y1 == ya && j2 == 1 && j3 == 1 && (proposed ==> x' == a + 0.5 * h)
      // The search goes on: either the step halves and restarts from x1, or
      // the next point lies one step further on.
      ensures k > 0 && Abs(y) > e2 && old(j1) == 3 && old(ya) * y >= 0.0 ==>
                j1 == 3 && b == old(b) && x1 == old(x1) && y1 == old(y1) &&
                if old(j3) >= old(j2) then
                  h == 0.5 * old(h) && j2 == 2 * old(j2) && a == old(x1) && ya == old(y1) && j3 == 1 &&
                  (proposed ==> x' == a + 0.5 * h)
                else
                  h == old(h) && a == x && ya == y && j3 == old(j3) + 1 && (proposed ==> x' == x + h)
      // A sign change found by the search closes the bracket at x.
      ensures k > 0 && Abs(y) > e2 && 2 <= old(j1) <= 3 && old(ya) * y < 0.0 ==>
                j1 == 4 && a == old(a) && ya == old(ya) && b == x && fb == y
      // Revising the bracket: the end whose residual shares the sign of y
      // moves to x, the other stays.
      ensures k > 0 && Abs(y) > e2 && old(j1) == 4 ==>
                j1 == 4 &&
                if old(ya) * y < 0.0 then b == x && fb == y && a == old(a) && ya == old(ya)
                else a == x && ya == y && b == old(b) && fb == old(fb)
      // So a sample taken inside the bracket keeps the new one inside it.
      ensures k > 0 && Abs(y) > e2 && old(j1) == 4 && StrictlyInside(x, old(a), old(b)) ==>
                Within(a, old(a), old(b)) && Within(b, old(a), old(b))
      // The state code only moves forward within a session, and so does it.
      ensures k > 0 ==> old(j1) <= j1 && old(it) <= it
      ensures proposed ==> proposals == (if k <= 0 then 1 else old(proposals) + 1)
      ensures !proposed ==> proposals == old(proposals)
      // Once bracketed, every proposal lies strictly inside the bracket.
      ensures proposed && j1 == 4 ==> StrictlyInside(x', a, b)
      ensures k > 0 && e2 >= 0.0 && old(Bracketed()) ==> Bracketed()
      // A session in progress ends with k = 2 only on a small residual at X
      // or on a bracket with no room left for its midpoint.
      ensures k == 1 && k' == 2 ==>
                (Abs(y) <= e2 && x' == x) || (j1 == 4 && !StrictlyInside(0.5 * (a + b), a, b))
    {
      var yb: real := 0.0;
      var x2: real;
      k', x', y' := k, x, y;
      proposed := false;

      // A new session samples the left end of the interval first.
      if k <= 0 {
        a := az;
        b := bz;
        x' := a;
        j1 := 1;
        it := 1;
        k' := j1;
        proposed := true;
        proposals := 1;
        return;
      }

      // A residual within the tolerance ends the session.
      if Abs(y) <= e2 {
        k' := 2;
        return;
      }

      // Second call: sample the right end next.
      if j1 == 1 {
        ya := y;
        x' := b;
        j1 := 2;
        proposed := true;
        proposals := proposals + 1;
        return;
      }

      var where: int;
      if j1 <= 3 && ya * y >= 0.0 {
        k', x', proposed := Search(k, x, y, maxiterations);
        return;
      } else if j1 <= 3 {
        where := 120;
      } else {
        // L170: revise the bracket (a,b).
        // The source returns here when j1 != 4; Valid() leaves 4 as the only
        // value above 3.
        assert j1 == 4;
        yb, where := Revise(x, y, e2);
      }

      if where == 120 {
        // A sign change: the interval now brackets a root.
        b := x;
        yb := y;
        fb := y;
        j1 := 4;
        where := 130;
      }
      k', x', y', proposed := Refine(where, yb, k, x, y, maxiterations);
    }

    /** Labels L90 and L100 of the source: no sign change yet, so the
        binary subdivision of the interval proposes its next point (state
        code 0, before any session has started, takes the L100 path). The
        first search step starts from a with the whole interval as step;
        later ones go one step further on, or halve the step and restart
        from x1 once the j2 steps of the current step size are spent. */
    method Search(k: int, x: real, y: real, maxiterations: int)
      returns (k': int, x': real, ghost proposed: bool)
      requires Valid() && j1 != 1 && j1 <= 3
      modifies this`x1, this`y1, this`j1, this`h, this`j2, this`j3, this`a, this`ya, this`it, this`proposals
      ensures Valid() && j1 == (if old(j1) == 2 then 3 else old(j1))
      ensures it == old(it) + 1 && (proposed <==> it < maxiterations)
      ensures proposed ==> k' == k && proposals == old(proposals) + 1
      ensures !proposed ==> x' == x && k' == j1 && proposals == old(proposals)
      ensures old(j1) == 2 ==>
                a == old(a) && ya == old(ya) && h == b - a && x1 == a && y1 == ya &&
                j2 == 1 && j3 == 1 && (proposed ==> x' == a + 0.5 * h)
      ensures old(j1) != 2 ==>
                x1 == old(x1) && y1 == old(y1) &&
                if old(j3) >= old(j2) then
                  h == 0.5 * old(h) && j2 == 2 * old(j2) && a == old(x1) && ya == old(y1) && j3 == 1 &&
                  (proposed ==> x' == a + 0.5 * h)
                else
                  h == old(h) && j2 == old(j2) && a == x && ya == y && j3 == old(j3) + 1 &&
                  (proposed ==> x' == x + h)
    {
      var x2: real;
      if j1 == 2 {
        // Same signs at AZ and BZ: begin the binary subdivision.
        x1 := a;
        y1 := ya;
        j1 := 3;
        h := b - a;
        j2 := 1;
        x2 := a + 0.5 * h;
        j3 := 1;
      } else if j3 >= j2 {
        h := 0.5 * h;
        j2 := 2 * j2;
        a := x1;
        ya := y1;
        x2 := a + 0.5 * h;
        j3 := 1;
      } else {
        a := x;
        ya := y;
        x2 := x + h;
        j3 := j3 + 1;
      }
      k', x', proposed := Advance(x2, k, x, maxiterations);
    }

    /** Label L170 of the source: the end of the bracket whose residual
        shares the sign of y moves to x, then the reference residual
        chooses between secant and bisection. */
    method Revise(x: real, y: real, e2: real) returns (yb: real, where: int)
      requires Valid() && j1 == 4 && Abs(y) > e2
      modifies this`a, this`b, this`ya, this`fb
      ensures Valid() && j1 == 4
      ensures if old(ya) * y < 0.0 then b == x && fb == y && a == old(a) && ya == old(ya) && yb == y
              else a == x && ya == y && b == old(b) && fb == old(fb) && yb == 0.0
      ensures where == (if ytest <= 0.0 then 130 else if Abs(y) - ytest <= 0.0 then 150 else 160)
      ensures e2 >= 0.0 && old(Bracketed()) ==> Bracketed()
    {
      yb := 0.0;
      if ya * y < 0.0 {
        b := x;
        yb := y;
        fb := y;
      } else {
        if e2 >= 0.0 && ya * fb < 0.0 {
          SameSideKeepsBracket(ya, fb, y);
        }
        a := x;
        ya := y;
      }
      // The reference residual chooses between secant and bisection.
      if ytest <= 0.0 {
        where := 130;
      } else if Abs(y) - ytest <= 0.0 {
        where := 150;
      } else {
        where := 160;
      }
    }

    /** Spends one iteration: proposes x2 while the budget lasts, otherwise
        reports the state code j1 as k. */
    method Advance(x2: real, k: int, x: real, maxiterations: int)
      returns (k': int, x': real, ghost proposed: bool)
      requires Valid() && j1 != 1
      modifies this`it, this`proposals
      ensures Valid()
      ensures it == old(it) + 1
      ensures proposed <==> it < maxiterations
      ensures proposed ==> x' == x2 && k' == k && proposals == old(proposals) + 1
      ensures !proposed ==> x' == x && k' == j1 && proposals == old(proposals)
    {
      it := it + 1;
      if it >= maxiterations {
        k', x', proposed := j1, x, false;
      } else {
        k', x', proposed := k, x2, true;
        proposals := proposals + 1;
      }
    }

    /** Labels L130, L150 and L160 of the source: a secant step inside the
        bracket when it lands strictly inside, otherwise bisection, and
        convergence when the midpoint no longer lies strictly inside. */
    method Refine(where: int, yb: real, k: int, x: real, y: real, maxiterations: int)
      returns (k': int, x': real, y': real, ghost proposed: bool)
      requires Valid() && j1 == 4
      requires where == 130 || where == 150 || where == 160
      modifies this`x1, this`y1, this`ytest, this`it, this`proposals
      ensures Valid()
      ensures proposed ==> it == old(it) + 1 && it < maxiterations && k' == k
      ensures proposed ==> StrictlyInside(x', a, b)
      ensures proposed ==> proposals == old(proposals) + 1
      ensures !proposed ==> proposals == old(proposals) && old(it) <= it
      ensures !proposed ==> k' == 2 || (k' == 4 && it >= maxiterations)
      // The proposal is the secant point when that lands inside, and the
      // midpoint otherwise.
      ensures var p := SecantBase(where, a, ya, b, yb, x, y, old(x1), old(y1));
              SecantTaken(where, a, ya, b, yb, x, y, old(x1), old(y1)) ==>
                it == old(it) + 1 && (proposed ==> x' == Secant(p.0, p.1, p.2, p.3))
      ensures !SecantTaken(where, a, ya, b, yb, x, y, old(x1), old(y1)) ==>
                (proposed ==> x' == 0.5 * (a + b)) &&
                (!proposed && k' == 2 <==> !StrictlyInside(0.5 * (a + b), a, b))
      // Convergence means the bracket has no room left for its midpoint.
      ensures !proposed && k' == 2 ==> !StrictlyInside(0.5 * (a + b), a, b)
    {
      k', x', y' := k, x, y;
      proposed := false;
      // L130 makes the bracket end with the smaller residual the current
      // point, and the other end the previous one.
      var p := SecantBase(where, a, ya, b, yb, x, y, x1, y1);
      if where != 160 {
        x', y' := p.0, p.1;
        // Secant step based on y1 and Y; IEEE division by zero yields an
        // infinity or a NaN, which fails the inside test below.
        x1 := p.0;
        y1 := p.1;
        ytest := 0.5 * Min(Abs(ya), Abs(yb));
        if p.1 != p.3 && StrictlyInside(Secant(p.0, p.1, p.2, p.3), a, b) {
          k', x', proposed := Advance(Secant(p.0, p.1, p.2, p.3), k', x', maxiterations);
          return;
        }
      }

      // L160: bisection of the bracket.
      ytest := 0.0;
      if !StrictlyInside(0.5 * (a + b), a, b) {
        k' := 2;
        return;
      }
      k', x', proposed := Advance(0.5 * (a + b), k', x', maxiterations);
    }
  }

  /** Drives one complete session of Zero on a function f, the way a caller
      such as Smooth does: start with k = 0, then evaluate f at every
      proposed abscissa and call again until k is no longer 1. */
  method Session(solver: ZeroSolver, f: real -> real, az: real, bz: real, e2: real, maxiterations: int)
    returns (k: int, x: real, ghost count: nat)
    requires solver.Valid()
    modifies solver
    ensures solver.Valid()
    ensures k == 2 || (3 <= k <= 4 && solver.it >= maxiterations)
    ensures count == solver.proposals
    ensures count <= if maxiterations < 2 then 2 else maxiterations
    // Convergence: either f is within the tolerance at x, or the bracket
    // (a, b) has no room left for its midpoint and, for a non-negative
    // tolerance, f changes sign between its ends.
    ensures k == 2 ==>
              Abs(f(x)) <= e2 ||
              (solver.j1 == 4 && !StrictlyInside(0.5 * (solver.a + solver.b), solver.a, solver.b) &&
               (e2 >= 0.0 ==> f(solver.a) * f(solver.b) < 0.0))
  {
    var y: real := 0.0;
    ghost var p: bool;
    k, x, y, p := solver.Step(0, az, bz, e2, 0.0, y, maxiterations);
    count := 1;
    y := f(x);
    k, x, y, p := solver.Step(k, az, bz, e2, x, y, maxiterations);
    if p {
      count := 2;
    }
    while k == 1
      invariant solver.Valid()
      invariant count == solver.proposals
      invariant k == 1 ==> solver.j1 >= 2
      invariant k == 1 ==> count <= solver.it + 1
      invariant solver.it >= 1 && solver.j1 >= 1
      invariant count <= if maxiterations < 2 then 2 else maxiterations
      invariant k == 2 || k == 1 || (3 <= k <= 4 && solver.it >= maxiterations)
      invariant solver.Samples(f) && (e2 >= 0.0 ==> solver.Bracketed())
      invariant k == 2 ==>
                  Abs(f(x)) <= e2 ||
                  (solver.j1 == 4 && !StrictlyInside(0.5 * (solver.a + solver.b), solver.a, solver.b))
      decreases if k == 1 then 1 else 0, maxiterations - solver.it
    {
      y := f(x);
      k, x, y, p := solver.Step(k, az, bz, e2, x, y, maxiterations);
      if p {
        count := count + 1;
      }
    }
  }
}
