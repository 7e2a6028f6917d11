/** The ghost-share curve of pkg/assign/ghosts.go: the exact mean of a clipped
    piecewise-linear curve, and the search for the scale that gives a wanted mean.
    Go's floats are modelled as reals. */
module GhostShare {
  import opened RealArith

  /** (quantile, share) points. */
  type Curve = seq<(real, real)>

  const QUANTILES: Curve :=
    [(0.0, 0.0), (0.10, 0.021), (0.25, 0.035), (0.50, 0.053), (0.75, 0.130), (0.90, 0.30), (1.0, 0.57)]

  /** Abscissas strictly increase, ordinates never fall and start at or above zero. */
  ghost predicate Rising(q: Curve) {
    && |q| >= 2 && q[0].1 >= 0.0
    && (forall i :: 1 <= i < |q| ==> q[i - 1].0 < q[i].0 && q[i - 1].1 <= q[i].1)
  }

  function Min(x: real, y: real): real { if x <= y then x else y }

  /** The line through (x0, y0) and (x1, y1) at `u`. */
  function Line(x0: real, x1: real, y0: real, y1: real, u: real): real
    requires x0 < x1
  {
    y0 + (u - x0) / (x1 - x0) * (y1 - y0)
  }

  /** ghostQuantile, from segment `i` on. */
  function Quantile(q: Curve, u: real, i: nat): real
    requires 1 <= i <= |q| && (forall j :: 1 <= j < |q| ==> q[j - 1].0 < q[j].0)
    decreases |q| - i
  {
    if i == |q| then q[|q| - 1].1
    else if u <= q[i].0 then Line(q[i - 1].0, q[i].0, q[i - 1].1, q[i].1, u)
    else Quantile(q, u, i + 1)
  }

  /** The mean of min(1, y) as y goes linearly from `a` to `b`. */
  function SegMean(a: real, b: real): real
    requires a <= b
  {
    if b <= 1.0 then (a + b) / 2.0
    else if a >= 1.0 then 1.0
    else var t := (1.0 - a) / (b - a); t * (a + 1.0) / 2.0 + 1.0 - t
  }

  /** The area under min(1, curve) from segment `i` on. */
  function Area(q: Curve, i: nat): real
    requires Rising(q) && 1 <= i <= |q|
    decreases |q| - i
  {
    if i == |q| then 0.0 else Times(q[i].0 - q[i - 1].0, SegMean(q[i - 1].1, q[i].1)) + Area(q, i + 1)
  }

  function Scaled(q: Curve, k: real): Curve {
    seq(|q|, i requires 0 <= i < |q| => (q[i].0, Times(k, q[i].1)))
  }

  /** clippedMean: the mean of min(1, k x curve). */
  function ClippedMean(q: Curve, k: real): real
    requires Rising(q) && k >= 0.0
  {
    ScaledRises(q, k);
    Area(Scaled(q, k), 1)
  }

  // ------------------------------------------------------------------------- lines

  lemma ScaledRises(q: Curve, k: real)
    requires Rising(q) && k >= 0.0
    ensures Rising(Scaled(q, k)) && |Scaled(q, k)| == |q|
    ensures forall i :: 0 <= i < |q| ==> Scaled(q, k)[i] == (q[i].0, Times(k, q[i].1))
  {
    hide Times;
    Products(k, 0.0, 0.0);
    Scale(k, 0.0, q[0].1);
    forall i | 1 <= i < |q| ensures Times(k, q[i - 1].1) <= Times(k, q[i].1) {
      Scale(k, q[i - 1].1, q[i].1);
    }
  }

  lemma LineIs(x0: real, x1: real, y0: real, y1: real, u: real)
    requires x0 < x1
    ensures Line(x0, x1, y0, y1, u) == y0 + Times((u - x0) / (x1 - x0), y1 - y0)
  {
  }

  lemma LineEnds(x0: real, x1: real, y0: real, y1: real)
    requires x0 < x1
    ensures Line(x0, x1, y0, y1, x0) == y0 && Line(x0, x1, y0, y1, x1) == y1
  {
  }

  lemma LineRises(x0: real, x1: real, y0: real, y1: real, u: real, v: real)
    requires x0 < x1 && y0 <= y1 && x0 <= u <= v <= x1
    ensures y0 <= Line(x0, x1, y0, y1, u) <= Line(x0, x1, y0, y1, v) <= y1
    ensures Times(x1 - x0, Line(x0, x1, y0, y1, v) - Line(x0, x1, y0, y1, u)) == Times(y1 - y0, v - u)
  {
    hide Times, Line;
    Fraction(u - x0, x1 - x0);
    Fraction(v - x0, x1 - x0);
    LineIs(x0, x1, y0, y1, u);
    LineIs(x0, x1, y0, y1, v);
    Shares((u - x0) / (x1 - x0), (v - x0) / (x1 - x0), x1 - x0, y1 - y0, u - x0, v - x0);
  }

  lemma Shares(fu: real, fv: real, w: real, r: real, du: real, dv: real)
    requires w > 0.0 && r >= 0.0 && Times(w, fu) == du && Times(w, fv) == dv && 0.0 <= du <= dv <= w
    ensures 0.0 <= Times(fu, r) <= Times(fv, r) <= r
    ensures Times(w, Times(fv, r) - Times(fu, r)) == Times(r, dv - du)
  {
    hide Times;
    Products(w, 0.0, 0.0);
    Products(w, 1.0, 0.0);
    InOrder(w, 0.0, fu);
    InOrder(w, fu, fv);
    InOrder(w, fv, 1.0);
    Scale(r, 0.0, fu);
    Scale(r, fu, fv);
    Scale(r, fv, 1.0);
    Products(r, 0.0, 0.0);
    Products(r, 1.0, 0.0);
    Products(r, fu, 0.0);
    Products(r, fv, 0.0);
    Products(w, Times(fv, r), Times(fu, r));
    Assoc(w, fv, r);
    Assoc(w, fu, r);
    Products(dv, r, 0.0);
    Products(du, r, 0.0);
    Products(r, dv, du);
  }

  // ---------------------------------------------------------------- one segment

  /** Antiderivative of min(1, y). */
  function H(y: real): real { if y <= 1.0 then y * y / 2.0 else y - 0.5 }

  lemma SegMeanTimesRise(a: real, b: real)
    requires a <= b
    ensures Times(b - a, SegMean(a, b)) == H(b) - H(a)
  {
    if b <= 1.0 {
      assert (a + b) * (b - a) == b * b - a * a;
    } else if a >= 1.0 {
    } else {
      var t := (1.0 - a) / (b - a);
      assert t * (b - a) == 1.0 - a;
      assert (t * (a + 1.0) / 2.0 + 1.0 - t) * (b - a) == (1.0 - a) * (a + 1.0) / 2.0 + (b - a) - (1.0 - a);
      assert (1.0 - a) * (a + 1.0) == 1.0 - a * a;
    }
  }

  lemma SegMeanBetween(a: real, b: real)
    requires a <= b
    ensures Min(1.0, a) <= SegMean(a, b) <= Min(1.0, b)
  {
    if a < 1.0 < b {
      Within(1.0 - a, b - a);
      MixedMean((1.0 - a) / (b - a), a);
    }
  }

  lemma Within(x: real, w: real)
    requires 0.0 <= x <= w && w > 0.0
    ensures 0.0 <= x / w <= 1.0
  {
    hide Times;
    Fraction(x, w);
    Products(w, 0.0, 0.0);
    InOrder(w, 0.0, x / w);
    InOrder(w, x / w, 1.0);
  }

  lemma MixedMean(t: real, a: real)
    requires 0.0 <= t <= 1.0 && a <= 1.0
    ensures a <= t * (a + 1.0) / 2.0 + 1.0 - t <= 1.0
  {
    hide Times;
    Scale(t, a, 1.0);
    Scale(1.0 - a, t, 1.0);
    Products(t, a, 1.0);
    Products(t, 1.0, a);
    Products(1.0, a, t);
    Products(1.0 - a, t, 1.0);
    Products(1.0 - a, 1.0, 0.0);
    Named(t, a + 1.0);
  }

  lemma Named(x: real, y: real)
    ensures Times(x, y) == x * y
  {
  }

  /** Means over adjoining stretches of one line combine by length: with slope `m`, the
      stretch from `x` to `u` to `v` rises from `a` to `b` to `c`. */
  lemma Stretch(x: real, u: real, v: real, a: real, b: real, c: real, m: real)
    requires x <= u <= v && a <= b <= c && m >= 0.0
    requires b - a == Times(m, u - x) && c - b == Times(m, v - u)
    ensures Times(v - x, SegMean(a, c)) - Times(u - x, SegMean(a, b)) == Times(v - u, SegMean(b, c))
  {
    hide Times, SegMean, H;
    var whole, left, right := SegMean(a, c), SegMean(a, b), SegMean(b, c);
    if m == 0.0 {
      Products(u - x, 0.0, 0.0);
      Products(v - u, 0.0, 0.0);
      assert a == b == c;
      Products(u - x, v - u, whole);
    } else {
      SegMeanTimesRise(a, c);
      SegMeanTimesRise(a, b);
      SegMeanTimesRise(b, c);
      Products(m, u - x, v - u);
      Assoc(m, v - x, whole);
      Assoc(m, u - x, left);
      Assoc(m, v - u, right);
      Products(m, Times(v - x, whole), Times(u - x, left));
      Cancel(m, Times(v - x, whole) - Times(u - x, left), Times(v - u, right));
    }
  }

  lemma MeanBounds(b: real, c: real, d: real)
    requires b <= c && d >= 0.0
    ensures Times(d, Min(1.0, b)) <= Times(d, SegMean(b, c)) <= Times(d, Min(1.0, c))
  {
    hide Times, SegMean;
    SegMeanBetween(b, c);
    Scale(d, Min(1.0, b), SegMean(b, c));
    Scale(d, SegMean(b, c), Min(1.0, c));
  }

  /** The area under min(1, line) from `x0` to `u`. */
  function Piece(x0: real, x1: real, y0: real, y1: real, u: real): real
    requires x0 < x1 && y0 <= y1 && x0 <= u <= x1
  {
    LineRises(x0, x1, y0, y1, u, u);
    Times(u - x0, SegMean(y0, Line(x0, x1, y0, y1, u)))
  }

  lemma PieceBounds(x0: real, x1: real, y0: real, y1: real, u: real, v: real)
    requires x0 < x1 && y0 <= y1 && x0 <= u <= v <= x1
    ensures Times(v - u, Min(1.0, Line(x0, x1, y0, y1, u)))
         <= Piece(x0, x1, y0, y1, v) - Piece(x0, x1, y0, y1, u)
         <= Times(v - u, Min(1.0, Line(x0, x1, y0, y1, v)))
  {
    hide Times, SegMean, Line, Min;
    var lu, lv, w, r := Line(x0, x1, y0, y1, u), Line(x0, x1, y0, y1, v), x1 - x0, y1 - y0;
    LineRises(x0, x1, y0, y1, x0, u);
    LineRises(x0, x1, y0, y1, u, v);
    LineEnds(x0, x1, y0, y1);
    var m := r / w;
    Fraction(r, w);
    Products(w, 0.0, 0.0);
    InOrder(w, 0.0, m);
    Slope(w, r, lu - y0, u - x0, m);
    Slope(w, r, lv - lu, v - u, m);
    Stretch(x0, u, v, y0, lu, lv, m);
    MeanBounds(lu, lv, v - u);
  }

  lemma Slope(w: real, r: real, rise: real, run: real, m: real)
    requires w > 0.0 && Times(w, rise) == Times(r, run) && Times(w, m) == r
    ensures rise == Times(m, run)
  {
    hide Times;
    Assoc(w, m, run);
    Cancel(w, rise, Times(m, run));
  }

  lemma PieceEnds(x0: real, x1: real, y0: real, y1: real)
    requires x0 < x1 && y0 <= y1
    ensures Piece(x0, x1, y0, y1, x0) == 0.0
    ensures Piece(x0, x1, y0, y1, x1) == Times(x1 - x0, SegMean(y0, y1))
  {
    hide Times, SegMean, Line;
    LineEnds(x0, x1, y0, y1);
    Products(SegMean(y0, y0), 0.0, 0.0);
  }

  // -------------------------------------------- the area up to a point, and its bounds

  /** min(1, curve(u)), reading the curve from segment `i` on. */
  function Clipped(q: Curve, u: real, i: nat): real
    requires Rising(q) && 1 <= i <= |q|
  {
    Min(1.0, Quantile(q, u, i))
  }

  /** The area from the start of segment `i` to `u`. */
  function AreaTo(q: Curve, u: real, i: nat): real
    requires Rising(q) && 1 <= i <= |q| && q[i - 1].0 <= u
    decreases |q| - i
  {
    if i == |q| then 0.0
    else if u <= q[i].0 then Piece(q[i - 1].0, q[i].0, q[i - 1].1, q[i].1, u)
    else Times(q[i].0 - q[i - 1].0, SegMean(q[i - 1].1, q[i].1)) + AreaTo(q, u, i + 1)
  }

  /** The first segment considered. */
  lemma InFirst(q: Curve, u: real, i: nat)
    requires Rising(q) && 1 <= i < |q| && q[i - 1].0 <= u <= q[i].0
    ensures AreaTo(q, u, i) == Piece(q[i - 1].0, q[i].0, q[i - 1].1, q[i].1, u)
    ensures Quantile(q, u, i) == Line(q[i - 1].0, q[i].0, q[i - 1].1, q[i].1, u)
  {
    hide Times, SegMean, Line, Piece;
  }

  /** Past it. */
  lemma PastFirst(q: Curve, u: real, i: nat)
    requires Rising(q) && 1 <= i < |q| && q[i].0 < u
    ensures AreaTo(q, u, i) == Times(q[i].0 - q[i - 1].0, SegMean(q[i - 1].1, q[i].1)) + AreaTo(q, u, i + 1)
    ensures Quantile(q, u, i) == Quantile(q, u, i + 1)
  {
    hide Times, SegMean, Line, Piece;
  }

  /** At a break the two segments agree. */
  lemma AtBreak(q: Curve, i: nat)
    requires Rising(q) && 1 <= i && i + 1 < |q|
    ensures Quantile(q, q[i].0, i) == Quantile(q, q[i].0, i + 1) == q[i].1
    ensures AreaTo(q, q[i].0, i) == Times(q[i].0 - q[i - 1].0, SegMean(q[i - 1].1, q[i].1))
    ensures AreaTo(q, q[i].0, i + 1) == 0.0
  {
    hide Times, SegMean, Line, Piece, AreaTo, Quantile;
    InFirst(q, q[i].0, i);
    InFirst(q, q[i].0, i + 1);
    LineEnds(q[i - 1].0, q[i].0, q[i - 1].1, q[i].1);
    LineEnds(q[i].0, q[i + 1].0, q[i].1, q[i + 1].1);
    PieceEnds(q[i - 1].0, q[i].0, q[i - 1].1, q[i].1);
    PieceEnds(q[i].0, q[i + 1].0, q[i].1, q[i + 1].1);
  }

  lemma InSegment(q: Curve, u: real, v: real, i: nat)
    requires Rising(q) && 1 <= i < |q| && q[i - 1].0 <= u <= v <= q[i].0
    ensures Times(v - u, Clipped(q, u, i)) <= AreaTo(q, v, i) - AreaTo(q, u, i) <= Times(v - u, Clipped(q, v, i))
    ensures Clipped(q, u, i) <= Clipped(q, v, i)
  {
    hide Times, SegMean, Line, Piece, AreaTo, Quantile;
    InFirst(q, u, i);
    InFirst(q, v, i);
    PieceBounds(q[i - 1].0, q[i].0, q[i - 1].1, q[i].1, u, v);
    LineRises(q[i - 1].0, q[i].0, q[i - 1].1, q[i].1, u, v);
  }

  /** Anywhere on the curve: the area between two points lies between the clipped curve's
      values there times their distance. */
  lemma {:induction false} AreaBounds(q: Curve, u: real, v: real, i: nat)
    requires Rising(q) && 1 <= i < |q| && q[i - 1].0 <= u <= v <= q[|q| - 1].0
    ensures Times(v - u, Clipped(q, u, i)) <= AreaTo(q, v, i) - AreaTo(q, u, i) <= Times(v - u, Clipped(q, v, i))
    ensures Clipped(q, u, i) <= Clipped(q, v, i)
    decreases |q| - i
  {
    hide Times, SegMean, Line, Piece, AreaTo, Quantile, Min;
    var b := q[i].0;
    if v <= b {
      InSegment(q, u, v, i);
    } else if u > b {
      PastFirst(q, u, i);
      PastFirst(q, v, i);
      AreaBounds(q, u, v, i + 1);
    } else {
      InSegment(q, u, b, i);
      AtBreak(q, i);
      PastFirst(q, v, i);
      AreaBounds(q, b, v, i + 1);
      Join(Clipped(q, u, i), Clipped(q, b, i), Clipped(q, v, i), b - u, v - b);
    }
  }

  lemma Join(cu: real, cb: real, cv: real, p: real, r: real)
    requires cu <= cb <= cv && p >= 0.0 && r >= 0.0
    ensures Times(p + r, cu) <= Times(p, cu) + Times(r, cb)
    ensures Times(p, cb) + Times(r, cv) <= Times(p + r, cv)
  {
    hide Times;
    Scale(r, cu, cb);
    Scale(p, cb, cv);
    Products(p, r, cu);
    Products(p, r, cv);
  }

  lemma {:induction false} AreaToEnd(q: Curve, i: nat)
    requires Rising(q) && 1 <= i < |q|
    ensures q[i - 1].0 < q[|q| - 1].0 && AreaTo(q, q[|q| - 1].0, i) == Area(q, i)
    decreases |q| - i
  {
    hide Times, SegMean, Line, Piece, AreaTo;
    if i == |q| - 1 {
      InFirst(q, q[i].0, i);
      PieceEnds(q[i - 1].0, q[i].0, q[i - 1].1, q[i].1);
    } else {
      AreaToEnd(q, i + 1);
      PastFirst(q, q[|q| - 1].0, i);
    }
  }

  // --------------------------------------------------------- the mean is the integral

  /** min(1, k x curve(u)): what the clipped mean is the mean of. */
  function Height(q: Curve, k: real, u: real): real
    requires Rising(q)
  {
    Min(1.0, Times(k, Quantile(q, u, 1)))
  }

  /** Cuts of [from, to], both ends included. */
  ghost predicate Partition(p: seq<real>, from: real, to: real) {
    |p| >= 1 && p[0] == from && p[|p| - 1] == to && (forall i :: 1 <= i < |p| ==> p[i - 1] <= p[i])
  }

  function LowerSum(q: Curve, k: real, p: seq<real>): real
    requires Rising(q)
  {
    if |p| <= 1 then 0.0 else Times(p[1] - p[0], Height(q, k, p[0])) + LowerSum(q, k, p[1..])
  }

  function UpperSum(q: Curve, k: real, p: seq<real>): real
    requires Rising(q)
  {
    if |p| <= 1 then 0.0 else Times(p[1] - p[0], Height(q, k, p[1])) + UpperSum(q, k, p[1..])
  }

  lemma {:induction false} QuantileScaled(q: Curve, k: real, u: real, i: nat)
    requires Rising(q) && k >= 0.0 && 1 <= i <= |q|
    ensures Rising(Scaled(q, k)) && Quantile(Scaled(q, k), u, i) == Times(k, Quantile(q, u, i))
    decreases |q| - i
  {
    hide Times, Line, Scaled;
    ScaledRises(q, k);
    if i < |q| {
      if u <= q[i].0 {
        LineScaled(q[i - 1].0, q[i].0, q[i - 1].1, q[i].1, k, u);
      } else {
        QuantileScaled(q, k, u, i + 1);
      }
    }
  }

  lemma LineScaled(x0: real, x1: real, y0: real, y1: real, k: real, u: real)
    requires x0 < x1
    ensures Line(x0, x1, Times(k, y0), Times(k, y1), u) == Times(k, Line(x0, x1, y0, y1, u))
  {
    hide Times, Line;
    var f := (u - x0) / (x1 - x0);
    LineIs(x0, x1, y0, y1, u);
    LineIs(x0, x1, Times(k, y0), Times(k, y1), u);
    Products(k, y0, Times(f, y1 - y0));
    Products(k, y1, y0);
    Assoc(f, k, y1 - y0);
  }

  lemma CellBounds(q: Curve, k: real, u: real, v: real)
    requires Rising(q) && k >= 0.0 && q[0].0 <= u <= v <= q[|q| - 1].0
    ensures Rising(Scaled(q, k)) && Scaled(q, k)[0].0 == q[0].0 && Height(q, k, u) <= Height(q, k, v)
    ensures Times(v - u, Height(q, k, u))
         <= AreaTo(Scaled(q, k), v, 1) - AreaTo(Scaled(q, k), u, 1)
         <= Times(v - u, Height(q, k, v))
  {
    hide AreaTo, Quantile, Times, Scaled;
    ScaledRises(q, k);
    QuantileScaled(q, k, u, 1);
    QuantileScaled(q, k, v, 1);
    assert Height(q, k, u) == Clipped(Scaled(q, k), u, 1) && Height(q, k, v) == Clipped(Scaled(q, k), v, 1);
    AreaBounds(Scaled(q, k), u, v, 1);
  }

  lemma {:induction false} SumsBound(q: Curve, k: real, p: seq<real>, from: real)
    requires Rising(q) && k >= 0.0 && q[0].0 <= from && Partition(p, from, q[|q| - 1].0)
    ensures Rising(Scaled(q, k)) && Scaled(q, k)[0].0 == q[0].0 && from <= q[|q| - 1].0
    ensures LowerSum(q, k, p)
         <= AreaTo(Scaled(q, k), q[|q| - 1].0, 1) - AreaTo(Scaled(q, k), from, 1)
         <= UpperSum(q, k, p)
    decreases |p|
  {
    hide AreaTo, Height, Times, Scaled;
    ScaledRises(q, k);
    if |p| > 1 {
      assert p[1..][0] == p[1] && p[1..][|p| - 2] == p[|p| - 1];
      forall i | 1 <= i < |p| - 1 ensures p[1..][i - 1] <= p[1..][i] {
        assert p[1..][i - 1] == p[i] && p[1..][i] == p[i + 1];
      }
      SumsBound(q, k, p[1..], p[1]);
      CellBounds(q, k, p[0], p[1]);
    }
  }

  /** clippedMean is the integral of min(1, k x curve) over the curve's span: for every
      partition it lies between the lower and the upper sum, the clipped curve being
      nondecreasing so that a cell's extremes are at its ends. */
  lemma ClippedMeanIsIntegral(q: Curve, k: real, p: seq<real>)
    requires Rising(q) && k >= 0.0 && Partition(p, q[0].0, q[|q| - 1].0)
    ensures LowerSum(q, k, p) <= ClippedMean(q, k) <= UpperSum(q, k, p)
    ensures forall i :: 1 <= i < |p| ==> Height(q, k, p[i - 1]) <= Height(q, k, p[i])
  {
    hide AreaTo, Area, Height, LowerSum, UpperSum, Scaled;
    ScaledRises(q, k);
    SumsBound(q, k, p, q[0].0);
    AreaToEnd(Scaled(q, k), 1);
    AreaToStart(Scaled(q, k));
    InSpan(p, q[0].0, q[|q| - 1].0);
    forall i | 1 <= i < |p| ensures Height(q, k, p[i - 1]) <= Height(q, k, p[i]) {
      CellBounds(q, k, p[i - 1], p[i]);
    }
  }

  /** `v` lies between the sums of every partition. */
  ghost predicate BetweenSums(q: Curve, k: real, v: real)
    requires Rising(q)
  {
    forall p: seq<real> :: Partition(p, q[0].0, q[|q| - 1].0) ==> LowerSum(q, k, p) <= v <= UpperSum(q, k, p)
  }

  /** `n` cells of width `w`, and where they end. */
  function Even(from: real, w: real, n: nat): (p: seq<real>)
    ensures |p| == n + 1 && p[0] == from
    decreases n
  {
    if n == 0 then [from] else [from] + Even(from + w, w, n - 1)
  }

  function EvenEnd(from: real, w: real, n: nat): real
    decreases n
  {
    if n == 0 then from else EvenEnd(from + w, w, n - 1)
  }

  lemma {:induction false} EvenEndIs(from: real, w: real, n: nat)
    ensures EvenEnd(from, w, n) == from + Times(n as real, w)
    decreases n
  {
    hide Times;
    Products(w, 0.0, 0.0);
    if n > 0 {
      EvenEndIs(from + w, w, n - 1);
      assert n as real == (n - 1) as real + 1.0;
      Products((n - 1) as real, 1.0, w);
    }
  }

  lemma {:induction false} EvenPartition(from: real, w: real, n: nat)
    requires w >= 0.0
    ensures Partition(Even(from, w, n), from, EvenEnd(from, w, n))
    decreases n
  {
    if n > 0 {
      EvenPartition(from + w, w, n - 1);
      var p, rest := Even(from, w, n), Even(from + w, w, n - 1);
      forall i | 1 <= i < |p| ensures p[i - 1] <= p[i] {
        assert p[i] == rest[i - 1] && (i > 1 ==> p[i - 1] == rest[i - 2]);
      }
    }
  }

  /** Over cells of one width the sums differ by that width times the rise of the whole. */
  lemma {:induction false} SumsDiffer(q: Curve, k: real, from: real, w: real, n: nat)
    requires Rising(q)
    ensures var p := Even(from, w, n);
            UpperSum(q, k, p) - LowerSum(q, k, p) == Times(w, Height(q, k, EvenEnd(from, w, n)) - Height(q, k, from))
    decreases n
  {
    hide Height, Times;
    if n == 0 {
      Products(w, 0.0, 0.0);
    } else {
      SumsDiffer(q, k, from + w, w, n - 1);
      var p := Even(from, w, n);
      assert p[1..] == Even(from + w, w, n - 1) && p[1] - p[0] == w;
      var a, b, c := Height(q, k, from), Height(q, k, from + w), Height(q, k, EvenEnd(from, w, n));
      Products(w, b, a);
      Products(w, c, b);
      Products(w, c, a);
    }
  }

  /** Cells of one width pin a value between the sums to within that width. */
  lemma Pinned(q: Curve, k: real, v: real, n: nat)
    requires Rising(q) && k >= 0.0 && BetweenSums(q, k, v) && n >= 1
    ensures q[0].0 < q[|q| - 1].0
    ensures -Over(q[|q| - 1].0 - q[0].0, n as real) <= v - ClippedMean(q, k) <= Over(q[|q| - 1].0 - q[0].0, n as real)
  {
    hide ClippedMean, Height, LowerSum, UpperSum, Times, Over, Quantile;
    Ascends(q, |q| - 1);
    var from, to := q[0].0, q[|q| - 1].0;
    var w := Over(to - from, n as real);
    Quotient(to - from, n as real);
    Products(n as real, 0.0, 0.0);
    InOrder(n as real, 0.0, w);
    EvenEndIs(from, w, n);
    EvenPartition(from, w, n);
    var p := Even(from, w, n);
    ClippedMeanIsIntegral(q, k, p);
    SumsDiffer(q, k, from, w, n);
    HeightNonNegative(q, k);
    HeightAtMostOne(q, k, to);
    Scale(w, Height(q, k, to) - Height(q, k, from), 1.0);
    Products(w, 1.0, 0.0);
  }

  lemma HeightAtMostOne(q: Curve, k: real, u: real)
    requires Rising(q)
    ensures Height(q, k, u) <= 1.0
  {
    hide Times, Quantile;
  }

  lemma {:induction false} Ascends(q: Curve, i: nat)
    requires Rising(q) && 1 <= i < |q|
    ensures q[0].0 < q[i].0
  {
    if i > 1 { Ascends(q, i - 1); }
  }

  /** Nothing positive is below every fraction of `span`. */
  lemma Archimedes(span: real, d: real) returns (n: nat)
    requires span > 0.0 && d > 0.0
    ensures n >= 1 && Over(span, n as real) < d
  {
    hide Over, Times;
    var r := Over(span, d);
    Quotient(span, d);
    Products(d, 0.0, 0.0);
    InOrder(d, 0.0, r);
    n := r.Floor + 1;
    var m := n as real;
    Quotient(span, m);
    Positive(d, m - r);
    Products(d, m, r);
    Products(m, d, 0.0);
    if Over(span, m) >= d {
      Scale(m, d, Over(span, m));
    }
  }

  /** It is the only value that does: the integral. */
  lemma ClippedMeanIsTheIntegral(q: Curve, k: real, v: real)
    requires Rising(q) && k >= 0.0
    ensures BetweenSums(q, k, v) <==> v == ClippedMean(q, k)
  {
    hide ClippedMean, Over, LowerSum, UpperSum;
    forall p: seq<real> | Partition(p, q[0].0, q[|q| - 1].0)
      ensures LowerSum(q, k, p) <= ClippedMean(q, k) <= UpperSum(q, k, p)
    {
      ClippedMeanIsIntegral(q, k, p);
    }
    if BetweenSums(q, k, v) && v != ClippedMean(q, k) {
      var d := if v > ClippedMean(q, k) then v - ClippedMean(q, k) else ClippedMean(q, k) - v;
      Ascends(q, |q| - 1);
      var n := Archimedes(q[|q| - 1].0 - q[0].0, d);
      Pinned(q, k, v, n);
    }
  }

  lemma AreaToStart(q: Curve)
    requires Rising(q)
    ensures AreaTo(q, q[0].0, 1) == 0.0
  {
    hide SegMean, Line, Piece, AreaTo;
    InFirst(q, q[0].0, 1);
    PieceEnds(q[0].0, q[1].0, q[0].1, q[1].1);
  }

  lemma {:induction false} InSpan(p: seq<real>, from: real, to: real)
    requires Partition(p, from, to)
    ensures from <= to && forall i :: 0 <= i < |p| ==> from <= p[i] <= to
    decreases |p|
  {
    if |p| > 1 {
      var rest := p[1..];
      forall i | 1 <= i < |rest| ensures rest[i - 1] <= rest[i] {
        assert rest[i - 1] == p[i] && rest[i] == p[i + 1];
      }
      InSpan(rest, p[1], to);
      forall i | 0 <= i < |p| ensures from <= p[i] <= to {
        if i > 0 { assert p[i] == rest[i - 1]; }
      }
    }
  }

  // --------------------------------------------- nondecreasing and Lipschitz in the scale

  /** What a clipped stretch misses of one, in terms of how far its start is below one. */
  lemma SegMeanMixed(a: real, b: real)
    requires a < 1.0 < b
    ensures Times(2.0 * (b - a), 1.0 - SegMean(a, b)) == Times(1.0 - a, 1.0 - a)
  {
    var t := (1.0 - a) / (b - a);
    assert t * (b - a) == 1.0 - a;
    assert 1.0 - (t * (a + 1.0) / 2.0 + 1.0 - t) == t * (1.0 - a) / 2.0;
    assert t * (1.0 - a) / 2.0 * (2.0 * (b - a)) == (t * (b - a)) * (1.0 - a);
  }

  lemma SegMeanRises(a: real, b: real, a': real, b': real)
    requires a <= b && a' <= b' && a <= a' && b <= b'
    ensures SegMean(a, b) <= SegMean(a', b')
  {
    SegMeanBetween(a, b);
    if a' < 1.0 < b' {
      hide Times;
      SegMeanMixed(a', b');
      if b <= 1.0 {
        MixedAbove(1.0 - a', b' - a', 1.0 - SegMean(a', b'));
      } else {
        SegMeanMixed(a, b);
        MixedRises(1.0 - a, b - 1.0, 1.0 - SegMean(a, b), 1.0 - a', b' - 1.0, 1.0 - SegMean(a', b'));
      }
    }
  }

  /** A clipped stretch misses at most half of what its start is short of one. */
  lemma MixedAbove(x: real, l: real, miss: real)
    requires 0.0 < x < l && Times(2.0 * l, miss) == Times(x, x)
    ensures 0.0 <= miss <= x / 2.0
  {
    HalfTwice(l, x);
    hide Times;
    Positive(x, x);
    Scale(x, x, l);
    Products(x, l, 0.0);
    InOrder(2.0 * l, miss, x / 2.0);
    Products(2.0 * l, 0.0, 0.0);
    InOrder(2.0 * l, 0.0, miss);
  }

  lemma HalfTwice(l: real, x: real)
    ensures Times(2.0 * l, x / 2.0) == Times(l, x)
  {
  }

  lemma MixedRises(x: real, y: real, miss: real, x': real, y': real, miss': real)
    requires x >= x' > 0.0 && y' >= y > 0.0
    requires Times(2.0 * (x + y), miss) == Times(x, x) && Times(2.0 * (x' + y'), miss') == Times(x', x')
    ensures miss' <= miss
  {
    hide Times;
    var l, l' := 2.0 * (x + y), 2.0 * (x' + y');
    Cross(x, y, x', y');
    Assoc(l, l', miss');
    Assoc(l', l, miss);
    Products(l, Times(x', x'), 0.0);
    Products(l', Times(x, x), 0.0);
    Products(l, l', 0.0);
    Positive(l, l');
    InOrder(Times(l, l'), miss', miss);
  }

  lemma Cross(x: real, y: real, x': real, y': real)
    requires x >= x' > 0.0 && y' >= y > 0.0
    ensures Times(2.0 * (x + y), Times(x', x')) <= Times(2.0 * (x' + y'), Times(x, x))
  {
    hide Times;
    Products(x, x', 0.0);
    Scale(x, x', x);
    Scale(x', x', x);
    Assoc(x, x', x');
    Assoc(x', x, x);
    Positive(x, x');
    Scale(Times(x, x'), x', x);
    Products(Times(x, x'), x', 0.0);
    Products(Times(x, x'), x, 0.0);
    Scale(y, Times(x', x'), Times(x, x));
    Positive(x, x);
    Scale(Times(x, x), y, y');
    Products(Times(x, x), y, 0.0);
    Products(Times(x, x), y', 0.0);
    Double(Times(x', x'), x, y);
    Double(Times(x, x), x', y');
  }

  lemma Double(s: real, x: real, y: real)
    ensures Times(2.0 * (x + y), s) == 2.0 * Times(x, s) + 2.0 * Times(y, s)
  {
  }

  lemma SegMeanShift(a: real, b: real, d: real)
    requires a <= b && d >= 0.0
    ensures SegMean(a + d, b + d) <= SegMean(a, b) + d
  {
    SegMeanBetween(a, b);
    SegMeanBetween(a + d, b + d);
    if a < 1.0 < b + d {
      var l := b - a;
      if b <= 1.0 {
        if a + d < 1.0 {
          SegMeanMixed(a + d, b + d);
          ShiftLine(1.0 - a - d, l, 1.0 - SegMean(a + d, b + d));
        }
      } else {
        SegMeanMixed(a, b);
        if a + d < 1.0 {
          SegMeanMixed(a + d, b + d);
          ShiftBoth(1.0 - a, d, l, 1.0 - SegMean(a, b), 1.0 - SegMean(a + d, b + d));
        } else {
          MixedAbove(1.0 - a, l, 1.0 - SegMean(a, b));
        }
      }
    }
  }

  /** The clipped mean is at most the unclipped one: x^2 / 2l is at least x - l/2. */
  lemma ShiftLine(x: real, l: real, miss: real)
    requires 0.0 < x < l && Times(2.0 * l, miss) == Times(x, x)
    ensures miss >= x - l / 2.0
  {
    assert (l - x) * (l - x) >= 0.0;
    assert (l - x) * (l - x) == x * x - 2.0 * x * l + l * l;
    assert Times(2.0 * l, x - l / 2.0) == 2.0 * x * l - l * l;
    InOrder(2.0 * l, x - l / 2.0, miss);
  }

  lemma ShiftBoth(x: real, d: real, l: real, miss: real, miss': real)
    requires 0.0 <= d < x < l
    requires Times(2.0 * l, miss) == Times(x, x) && Times(2.0 * l, miss') == Times(x - d, x - d)
    ensures miss - miss' <= d
  {
    assert Times(x, x) - Times(x - d, x - d) == Times(d, 2.0 * x - d);
    hide Times;
    Scale(d, 2.0 * x - d, 2.0 * l);
    Products(2.0 * l, miss, miss');
    Products(2.0 * l, d, 0.0);
    InOrder(2.0 * l, miss - miss', d);
  }

  /** Two curves over the same abscissas. */
  ghost predicate SameSpan(q: Curve, r: Curve) {
    Rising(q) && Rising(r) && |q| == |r| && forall i :: 0 <= i < |q| ==> q[i].0 == r[i].0
  }

  lemma AreaNone(q: Curve)
    requires Rising(q)
    ensures Area(q, |q|) == 0.0
  {
  }

  lemma AreaStep(q: Curve, i: nat)
    requires Rising(q) && 1 <= i < |q|
    ensures Area(q, i) == Times(q[i].0 - q[i - 1].0, SegMean(q[i - 1].1, q[i].1)) + Area(q, i + 1)
  {
    hide SegMean, Times;
  }

  lemma {:induction false} AreaShifts(q: Curve, r: Curve, d: real, i: nat)
    requires SameSpan(q, r) && 1 <= i <= |q| && d >= 0.0 && (forall j :: 0 <= j < |q| ==> r[j].1 <= q[j].1 + d)
    ensures Area(r, i) <= Area(q, i) + Times(q[|q| - 1].0 - q[i - 1].0, d)
    decreases |q| - i
  {
    hide SegMean, Area, Times;
    if i < |q| {
      assert q[i].0 == r[i].0 && q[i - 1].0 == r[i - 1].0;
      var w, m := q[i].0 - q[i - 1].0, SegMean(q[i - 1].1, q[i].1);
      AreaStep(q, i);
      AreaStep(r, i);
      SegMeanRises(r[i - 1].1, r[i].1, q[i - 1].1 + d, q[i].1 + d);
      SegMeanShift(q[i - 1].1, q[i].1, d);
      AreaShifts(q, r, d, i + 1);
      Scale(w, SegMean(r[i - 1].1, r[i].1), m + d);
      Products(w, m, d);
      Products(w, q[|q| - 1].0 - q[i].0, d);
    } else {
      AreaNone(q);
      AreaNone(r);
      Products(d, 0.0, 0.0);
    }
  }

  /** A larger scale never lowers the clipped mean, and raises it by at most the curve's
      maximum times the change of scale, over the width of the curve. */
  lemma ClippedMeanGrowth(q: Curve, k: real, k': real)
    requires Rising(q) && 0.0 <= k <= k'
    ensures ClippedMean(q, k) <= ClippedMean(q, k')
    ensures ClippedMean(q, k') - ClippedMean(q, k) <= Times(q[|q| - 1].0 - q[0].0, Times(k' - k, q[|q| - 1].1))
  {
    hide Area, Scaled, Times;
    var d := Times(k' - k, q[|q| - 1].1);
    ScaledPair(q, k, k', d);
    AreaShifts(Scaled(q, k'), Scaled(q, k), 0.0, 1);
    Products(q[|q| - 1].0 - q[0].0, 0.0, 0.0);
    AreaShifts(Scaled(q, k), Scaled(q, k'), d, 1);
  }

  lemma ScaledPair(q: Curve, k: real, k': real, d: real)
    requires Rising(q) && 0.0 <= k <= k' && d == Times(k' - k, q[|q| - 1].1)
    ensures SameSpan(Scaled(q, k), Scaled(q, k')) && |Scaled(q, k)| == |q| && d >= 0.0
    ensures forall j :: 0 <= j < |q| ==> Scaled(q, k)[j].0 == q[j].0 == Scaled(q, k')[j].0
    ensures forall j :: 0 <= j < |q| ==> Scaled(q, k)[j].1 <= Scaled(q, k')[j].1 <= Scaled(q, k)[j].1 + d
  {
    hide Times, Scaled;
    ScaledRises(q, k);
    ScaledRises(q, k');
    Tops(q);
    Scale(k' - k, 0.0, q[|q| - 1].1);
    Products(k' - k, 0.0, 0.0);
    forall j | 0 <= j < |q|
      ensures Scaled(q, k)[j].1 <= Scaled(q, k')[j].1 <= Scaled(q, k)[j].1 + d
    {
      Between(q[j].1, q[|q| - 1].1, k, k', d);
    }
  }

  lemma Between(y: real, top: real, k: real, k': real, d: real)
    requires 0.0 <= y <= top && k <= k' && d == Times(k' - k, top)
    ensures Times(k, y) <= Times(k', y) <= Times(k, y) + d
  {
    hide Times;
    Products(y, k, 0.0);
    Products(y, k', 0.0);
    Scale(y, k, k');
    Scale(k' - k, y, top);
    Products(k', k, y);
  }

  lemma {:induction false} Tops(q: Curve)
    requires Rising(q)
    ensures |q| >= 2 && forall j :: 0 <= j < |q| ==> 0.0 <= q[j].1 <= q[|q| - 1].1
  {
    var n := |q| - 1;
    while n > 0
      invariant 0 <= n < |q|
      invariant forall j :: n <= j < |q| ==> q[n].1 <= q[j].1 <= q[|q| - 1].1
    {
      assert q[n - 1].1 <= q[n].1;
      n := n - 1;
    }
  }

  // ------------------------------------------------------------------- the methods

  lemma QuantilesRise()
    ensures Rising(QUANTILES)
  {
  }

  /** clippedMean's loop. */
  method ComputeClippedMean(q: Curve, k: real) returns (m: real)
    requires Rising(q) && k >= 0.0
    ensures m == ClippedMean(q, k)
  {
    ScaledRises(q, k);
    hide SegMean, Area, Scaled, Times;
    m := 0.0;
    var i := 1;
    while i < |q|
      invariant 1 <= i <= |q| == |Scaled(q, k)|
      invariant m + Area(Scaled(q, k), i) == Area(Scaled(q, k), 1)
    {
      var w, a, b := q[i].0 - q[i - 1].0, Times(k, q[i - 1].1), Times(k, q[i].1);
      assert Scaled(q, k)[i - 1] == (q[i - 1].0, a) && Scaled(q, k)[i] == (q[i].0, b);
      AreaStep(Scaled(q, k), i);
      var part := SegmentMean(a, b);
      MeanUnique(a, b, part);
      m := m + Times(w, part);
      i := i + 1;
    }
    AreaNone(Scaled(q, k));
  }

  lemma MeanUnique(a: real, b: real, m: real)
    requires a <= b && Times(b - a, m) == H(b) - H(a) && Min(1.0, a) <= m <= Min(1.0, b)
    ensures m == SegMean(a, b)
  {
    hide H, Times, SegMean;
    SegMeanTimesRise(a, b);
    SegMeanBetween(a, b);
    if a < b { Cancel(b - a, m, SegMean(a, b)); }
  }

  /** The switch in clippedMean's loop: the mean height, by the area under min(1, y) for y from `a`
      to `b`, which is H(b) - H(a). */
  method SegmentMean(a: real, b: real) returns (m: real)
    requires a <= b
    ensures Times(b - a, m) == H(b) - H(a) && Min(1.0, a) <= m <= Min(1.0, b)
  {
    hide H, Times;
    if b <= 1.0 {
      m := (a + b) / 2.0;
    } else if a >= 1.0 {
      m := 1.0;
    } else {
      var t := (1.0 - a) / (b - a);
      m := t * (a + 1.0) / 2.0 + 1.0 - t;
    }
    assert m == SegMean(a, b);
    SegMeanTimesRise(a, b);
    SegMeanBetween(a, b);
  }

  function Pow2(n: nat): (r: real)
    ensures r > 0.0
  {
    if n == 0 then 1.0 else 2.0 * Pow2(n - 1)
  }

  lemma PowNext(n: nat)
    ensures Pow2(0) == 1.0 && Pow2(n + 1) == Pow2(n) * 2.0
  {
  }

  /** For a share below one some scale reaches it: the curve is positive past zero, so a
      large scale clips all of it but a sliver narrower than 1 - share. */
  lemma ScaleExists(share: real) returns (enough: real)
    requires 0.0 <= share < 1.0
    ensures enough > 0.0 && Rising(QUANTILES)
    ensures forall k :: k >= enough ==> ClippedMean(QUANTILES, k) >= share
  {
    QuantilesRise();
    hide Quantile, ClippedMean, Rising, Times;
    var sliver := 1.0 - share;
    var y := Quantile(QUANTILES, sliver, 1);
    PositiveQuantile(sliver);
    enough := 1.0 / y;
    Fraction(1.0, y);
    Products(y, 0.0, 0.0);
    InOrder(y, 0.0, enough);
    assert enough != 0.0;
    forall k | k >= enough ensures ClippedMean(QUANTILES, k) >= share {
      Scale(y, enough, k);
      Products(y, k, 0.0);
      LargeScale(QUANTILES, k, sliver);
    }
  }

  /** If the scaled curve is clipped from `s` on, all but what lies before `s` is full. */
  lemma LargeScale(q: Curve, k: real, s: real)
    requires Rising(q) && k >= 0.0 && q[0].0 <= s <= q[|q| - 1].0 && Times(k, Quantile(q, s, 1)) >= 1.0
    ensures ClippedMean(q, k) >= q[|q| - 1].0 - s
  {
    hide Quantile, ClippedMean, Times;
    var end := q[|q| - 1].0;
    var p := [q[0].0, s, end];
    ClippedMeanIsIntegral(q, k, p);
    assert Height(q, k, s) == 1.0;
    hide Height;
    HeightNonNegative(q, k);
    assert p[1..] == [s, end] && p[1..][1..] == [end];
    assert LowerSum(q, k, [end]) == 0.0;
    assert LowerSum(q, k, p[1..]) == Times(end - s, 1.0) + LowerSum(q, k, [end]);
    assert LowerSum(q, k, p) == Times(s - q[0].0, Height(q, k, q[0].0)) + LowerSum(q, k, p[1..]);
    Products(end - s, 0.0, 0.0);
    Products(s - q[0].0, 0.0, 0.0);
    Scale(s - q[0].0, 0.0, Height(q, k, q[0].0));
  }

  lemma HeightNonNegative(q: Curve, k: real)
    requires Rising(q) && k >= 0.0
    ensures Height(q, k, q[0].0) >= 0.0
  {
    hide Times, Line;
    LineEnds(q[0].0, q[1].0, q[0].1, q[1].1);
    Scale(k, 0.0, q[0].1);
    Products(k, 0.0, 0.0);
  }

  lemma PositiveQuantile(u: real)
    requires 0.0 < u <= 1.0
    ensures Quantile(QUANTILES, u, 1) > 0.0
  {
    QuantilesRise();
    if u <= 0.10 {
      assert Quantile(QUANTILES, u, 1) == u / 0.10 * 0.021;
    } else {
      AboveFirst(u, 2);
    }
  }

  lemma {:induction false} AboveFirst(u: real, i: nat)
    requires 2 <= i <= |QUANTILES| && QUANTILES[i - 1].0 < u <= 1.0 && Rising(QUANTILES)
    ensures Quantile(QUANTILES, u, i - 1) > 0.0
    decreases |QUANTILES| - i
  {
    hide Line;
    var q := QUANTILES;
    assert i < |q|;
    if u <= q[i].0 {
      LineRises(q[i - 1].0, q[i].0, q[i - 1].1, q[i].1, u, u);
    } else {
      AboveFirst(u, i + 1);
    }
  }

  /** No scale clips all of the curve: near zero it stays low, so the mean stays below one. */
  lemma NeverAll(k: real)
    requires k >= 0.0
    ensures Rising(QUANTILES) && ClippedMean(QUANTILES, k) < 1.0
  {
    QuantilesRise();
    var s := Over(0.1, 1.0 + k);
    assert 0.0 < s <= 0.1 && Times(k, s) <= 0.1 by { Sliver(k); }
    assert Quantile(QUANTILES, s, 1) == 0.21 * s;
    Named(k, 0.21 * s);
    Named(k, s);
    assert Height(QUANTILES, k, s) <= 0.021;
    var p := [0.0, s, 1.0];
    hide ClippedMean, Quantile, Over, Rising;
    ClippedMeanIsIntegral(QUANTILES, k, p);
    HeightAtMostOne(QUANTILES, k, 1.0);
    hide Height;
    UpperOfTwo(k, s);
  }

  lemma Sliver(k: real)
    requires k >= 0.0
    ensures 0.0 < Over(0.1, 1.0 + k) <= 0.1 && Times(k, Over(0.1, 1.0 + k)) <= 0.1
  {
    hide Over, Times;
    var s := Over(0.1, 1.0 + k);
    Quotient(0.1, 1.0 + k);
    Products(1.0 + k, 0.0, 0.0);
    InOrder(1.0 + k, 0.0, s);
    assert s != 0.0;
    Products(1.0, k, s);
    Products(s, 1.0, 0.0);
    Scale(k, 0.0, s);
    Products(k, 0.0, 0.0);
  }

  lemma UpperOfTwo(k: real, s: real)
    requires Rising(QUANTILES) && 0.0 < s <= 0.1
    requires Height(QUANTILES, k, s) <= 0.021 && Height(QUANTILES, k, 1.0) <= 1.0
    ensures UpperSum(QUANTILES, k, [0.0, s, 1.0]) < 1.0
  {
    hide Height, Rising, Times;
    var p := [0.0, s, 1.0];
    assert p[1..] == [s, 1.0] && p[1..][1..] == [1.0];
    var a, b := Height(QUANTILES, k, s), Height(QUANTILES, k, 1.0);
    assert UpperSum(QUANTILES, k, [1.0]) == 0.0;
    assert UpperSum(QUANTILES, k, p[1..]) == Times(1.0 - s, b) + UpperSum(QUANTILES, k, [1.0]);
    assert UpperSum(QUANTILES, k, p) == Times(s - 0.0, a) + UpperSum(QUANTILES, k, p[1..]);
    Scale(s, a, 0.021);
    Scale(1.0 - s, b, 1.0);
    Products(1.0 - s, 1.0, 0.0);
    Named(s, 0.021);
  }

  /** Some scale reaches the share, so that the doubling ends, exactly when the share is below one. */
  lemma ReachedExactly(share: real)
    ensures Rising(QUANTILES)
    ensures (exists k :: k >= 0.0 && ClippedMean(QUANTILES, k) >= share) <==> share < 1.0
  {
    QuantilesRise();
    hide Rising, ClippedMean;
    if share < 1.0 {
      var enough := ScaleExists(if share < 0.0 then 0.0 else share);
      assert ClippedMean(QUANTILES, enough) >= share;
    } else {
      forall k | k >= 0.0 ensures ClippedMean(QUANTILES, k) < share { NeverAll(k); }
    }
  }

  /** 2^n is the first power of two whose clipped mean reaches the share. */
  ghost predicate FirstPower(share: real, n: nat)
    requires Rising(QUANTILES)
  {
    ClippedMean(QUANTILES, Pow2(n)) >= share && BelowTo(share, n)
  }

  ghost predicate BelowTo(share: real, n: nat)
    requires Rising(QUANTILES)
  {
    forall m: nat :: m < n ==> ClippedMean(QUANTILES, Pow2(m)) < share
  }

  /** The doubling half of ghostScale: it ends because the share is below one. */
  method Doubling(share: real) returns (hi: real)
    requires 0.0 <= share < 1.0
    ensures Rising(QUANTILES) && exists n: nat :: hi == Pow2(n) && FirstPower(share, n)
  {
    ghost var enough := ScaleExists(share);
    hide Rising, ClippedMean, Pow2, BelowTo;
    hi := 1.0;
    ghost var n: nat := 0;
    PowNext(0);
    NoneBelow(share);
    var m := ComputeClippedMean(QUANTILES, hi);
    while m < share
      invariant hi == Pow2(n) && hi >= 1.0 && m == ClippedMean(QUANTILES, hi) && BelowTo(share, n)
      decreases enough - hi
    {
      PowNext(n);
      OneMoreBelow(share, n);
      hi, n := hi * 2.0, n + 1;
      m := ComputeClippedMean(QUANTILES, hi);
    }
    assert FirstPower(share, n);
  }

  lemma NoneBelow(share: real)
    requires Rising(QUANTILES)
    ensures BelowTo(share, 0)
  {
  }

  lemma OneMoreBelow(share: real, n: nat)
    requires Rising(QUANTILES) && BelowTo(share, n) && ClippedMean(QUANTILES, Pow2(n)) < share
    ensures BelowTo(share, n + 1)
  {
    hide Rising, ClippedMean, Pow2;
  }

  /** The sixty bisections keep the share between the means at the two ends. */
  method Bisect(share: real, top: real) returns (lo: real, hi: real)
    requires Rising(QUANTILES) && top >= 0.0 && 0.0 <= share <= ClippedMean(QUANTILES, top)
    ensures 0.0 <= lo <= hi <= top && Times(Pow2(60), hi - lo) == top
    ensures ClippedMean(QUANTILES, lo) <= share <= ClippedMean(QUANTILES, hi)
  {
    hide Rising, ClippedMean, Pow2, Times;
    lo, hi := 0.0, top;
    ZeroScale();
    PowZero(top);
    var n := 0;
    while n < 60
      invariant 0 <= n <= 60
      invariant 0.0 <= lo <= hi <= top && Times(Pow2(n), hi - lo) == top
      invariant ClippedMean(QUANTILES, lo) <= share <= ClippedMean(QUANTILES, hi)
    {
      Halve(lo, hi, n);
      var mid := (lo + hi) / 2.0;
      var m := ComputeClippedMean(QUANTILES, mid);
      if m < share {
        lo := mid;
      } else {
        hi := mid;
      }
      n := n + 1;
    }
  }

  /** The clipped mean at `scale` misses the share by at most 0.57 x top / 2^60. */
  predicate Close(share: real, scale: real, top: real)
    requires Rising(QUANTILES) && scale >= 0.0
  {
    -0.57 * top <= Pow2(60) * (ClippedMean(QUANTILES, scale) - share) <= 0.57 * top
  }

  /** ghostScale: the clipped mean at the result misses the share by at most the curve's
      maximum, 0.57, times top / 2^60, where top is the first power of two whose clipped
      mean reaches the share. */
  method GhostScale(share: real) returns (scale: real)
    requires 0.0 <= share < 1.0
    ensures Rising(QUANTILES)
    ensures exists n: nat :: FirstPower(share, n) && 0.0 <= scale <= Pow2(n) && Close(share, scale, Pow2(n))
  {
    hide Rising, ClippedMean, Pow2;
    var top := Doubling(share);
    ghost var n: nat :| top == Pow2(n) && FirstPower(share, n);
    var lo, hi := Bisect(share, top);
    scale := (lo + hi) / 2.0;
    Bracketed(share, lo, hi, scale);
    Widths(ClippedMean(QUANTILES, scale) - share, hi - lo, Pow2(60), top);
    assert Close(share, scale, Pow2(n));
  }

  lemma Widths(miss: real, w: real, p: real, top: real)
    requires -0.57 * w <= miss <= 0.57 * w && p > 0.0 && Times(p, w) == top
    ensures -0.57 * top <= p * miss <= 0.57 * top
  {
    assert p * (miss + 0.57 * w) >= 0.0 && p * (0.57 * w - miss) >= 0.0;
  }

  lemma ZeroScale()
    requires Rising(QUANTILES)
    ensures ClippedMean(QUANTILES, 0.0) == 0.0
  {
    hide ClippedMean, Quantile, Times;
    var p := [0.0, 1.0];
    assert p[1..] == [1.0];
    ClippedMeanIsIntegral(QUANTILES, 0.0, p);
    Products(Quantile(QUANTILES, 0.0, 1), 0.0, 0.0);
    Products(Quantile(QUANTILES, 1.0, 1), 0.0, 0.0);
    Products(1.0, 0.0, 0.0);
  }

  lemma PowZero(top: real)
    ensures Times(Pow2(0), top) == top
  {
  }

  lemma {:induction false} Halve(lo: real, hi: real, n: nat)
    ensures Times(Pow2(n + 1), hi - (lo + hi) / 2.0) == Times(Pow2(n), hi - lo)
    ensures Times(Pow2(n + 1), (lo + hi) / 2.0 - lo) == Times(Pow2(n), hi - lo)
  {
    assert Pow2(n + 1) == 2.0 * Pow2(n);
  }

  lemma Bracketed(share: real, lo: real, hi: real, scale: real)
    requires Rising(QUANTILES) && 0.0 <= lo <= scale <= hi
    requires ClippedMean(QUANTILES, lo) <= share <= ClippedMean(QUANTILES, hi)
    ensures -0.57 * (hi - lo) <= ClippedMean(QUANTILES, scale) - share <= 0.57 * (hi - lo)
  {
    hide Rising, ClippedMean;
    GrowthWithin(lo, scale);
    GrowthWithin(scale, hi);
    GrowthWithin(lo, hi);
  }

  lemma GrowthWithin(k: real, k': real)
    requires Rising(QUANTILES) && 0.0 <= k <= k'
    ensures 0.0 <= ClippedMean(QUANTILES, k') - ClippedMean(QUANTILES, k) <= 0.57 * (k' - k)
  {
    ClippedMeanGrowth(QUANTILES, k, k');
    hide Rising, ClippedMean;
    assert Times(1.0, Times(k' - k, 0.57)) == 0.57 * (k' - k);
  }
}
