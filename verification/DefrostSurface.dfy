/** The derate surface of defrost.py: bilinear between bucket centres, flat beyond
    them, and no steeper than the grid's own steps. Exact reals. */
module DefrostSurface {
  import opened Reals

  // ----- interpolation along one axis ------------------------------------------------

  predicate Centers(c: seq<real>) {
    |c| >= 2 && forall i, j | 0 <= i < j < |c| :: c[i] < c[j]
  }

  /** The first cell from `i` on whose upper centre lies above the value. */
  function CellFrom(value: real, c: seq<real>, i: nat): (k: nat)
    requires i < |c|
    ensures i <= k < |c|
    ensures k < |c| - 1 ==> value < c[k + 1]
    ensures i < k ==> value >= c[k]
    decreases |c| - i
  {
    if i == |c| - 1 then i else if value < c[i + 1] then i else CellFrom(value, c, i + 1)
  }

  /** How far along the way from `a` to `b` a value is. */
  function Share(x: real, a: real, b: real): real
    requires a < b
  {
    (x - a) / (b - a)
  }

  /** Cell index and fractional position among the centres; clamped outside. */
  function InterpPosition(value: real, c: seq<real>): (p: (nat, real))
    requires Centers(c)
    ensures p.0 < |c| - 1
  {
    if value <= c[0] then (0, 0.0)
    else
      var k := CellFrom(value, c, 0);
      if k < |c| - 1 then (k, Share(value, c[k], c[k + 1])) else (|c| - 2, 1.0)
  }

  /** The value's place inside the span of the centres. */
  function Clamped(value: real, c: seq<real>): real
    requires Centers(c)
  {
    if value <= c[0] then c[0] else if value >= c[|c| - 1] then c[|c| - 1] else value
  }

  function Mix(a: real, b: real, u: real): real { a * (1.0 - u) + b * u }

  /** The piecewise linear curve through the values at the centres. */
  function Curve(c: seq<real>, v: seq<real>, x: real): real
    requires Centers(c) && |v| == |c|
  {
    var p := InterpPosition(x, c);
    Mix(v[p.0], v[p.0 + 1], p.1)
  }

  /** The cell found is the one the value lies in, or the one above a shared centre. */
  lemma CellFound(c: seq<real>, x: real, i: nat)
    requires Centers(c) && i < |c| - 1 && c[i] <= x <= c[i + 1]
    ensures var k := CellFrom(x, c, 0);
            k == i || (k == i + 1 && x == c[i + 1])
  {
    var k := CellFrom(x, c, 0);
    assert k < |c| - 1 ==> x < c[k + 1];
  }

  lemma MixEnds(a: real, b: real)
    ensures Mix(a, b, 0.0) == a && Mix(a, b, 1.0) == b
  {
  }

  lemma ShareEnds(a: real, b: real)
    requires a < b
    ensures Share(a, a, b) == 0.0 && Share(b, a, b) == 1.0
  {
    Itself(b - a);
  }

  lemma Itself(span: real)
    requires span != 0.0
    ensures span / span == 1.0 && 0.0 / span == 0.0
  {
  }

  /** On a closed cell the curve is the line between its ends. */
  lemma OnCell(c: seq<real>, v: seq<real>, x: real, i: nat)
    requires Centers(c) && |v| == |c| && i < |c| - 1 && c[i] <= x <= c[i + 1]
    ensures Curve(c, v, x) == Mix(v[i], v[i + 1], Share(x, c[i], c[i + 1]))
  {
    hide Mix, CellFrom, Share;
    CellFound(c, x, i);
    ShareEnds(c[i], c[i + 1]);
    MixEnds(v[i], v[i + 1]);
    var k := CellFrom(x, c, 0);
    if x <= c[0] {
      assert InterpPosition(x, c) == (0, 0.0);
      assert i == 0 && x == c[i];
    } else if k == |c| - 1 {
      assert InterpPosition(x, c) == (|c| - 2, 1.0);
      assert x == c[i + 1];
    } else if k == i + 1 {
      ShareEnds(c[k], c[k + 1]);
      MixEnds(v[k], v[k + 1]);
      assert x == c[k];
      assert InterpPosition(x, c) == (k, Share(x, c[k], c[k + 1]));
      assert Curve(c, v, x) == v[i + 1];
    } else {
      assert k == i;
      assert InterpPosition(x, c) == (k, Share(x, c[k], c[k + 1]));
    }
  }
  /** Between two centres the curve is straight: it rises in the proportion the value does. */
  lemma CurveIsStraight(c: seq<real>, v: seq<real>, x: real, i: nat)
    requires Centers(c) && |v| == |c| && i < |c| - 1 && c[i] <= x <= c[i + 1]
    ensures (Curve(c, v, x) - v[i]) * (c[i + 1] - c[i]) == (x - c[i]) * (v[i + 1] - v[i])
  {
    hide Curve;
    OnCell(c, v, x, i);
    StraightMix(v[i], v[i + 1], x - c[i], c[i + 1] - c[i]);
  }

  lemma StraightMix(a: real, b: real, along: real, span: real)
    requires span > 0.0
    ensures (Mix(a, b, along / span) - a) * span == along * (b - a)
  {
    var u := along / span;
    assert u * span == along;
    assert Mix(a, b, u) - a == u * (b - a);
    assert u * (b - a) * span == (u * span) * (b - a);
  }

  /** The curve passes through every centre's value. */
  lemma AtCenter(c: seq<real>, v: seq<real>, i: nat)
    requires Centers(c) && |v| == |c| && i < |c|
    ensures Curve(c, v, c[i]) == v[i]
  {
    hide Curve, Mix, Share;
    var k := if i < |c| - 1 then i else i - 1;
    OnCell(c, v, c[i], k);
    ShareEnds(c[k], c[k + 1]);
    MixEnds(v[k], v[k + 1]);
  }

  lemma AboveAll(c: seq<real>, x: real)
    requires Centers(c) && x >= c[|c| - 1]
    ensures CellFrom(x, c, 0) == |c| - 1 && x > c[0]
  {
    var k := CellFrom(x, c, 0);
  }

  /** Outside the outer centres the curve is flat. */
  lemma FlatBeyond(c: seq<real>, v: seq<real>, x: real)
    requires Centers(c) && |v| == |c|
    ensures Curve(c, v, x) == Curve(c, v, Clamped(x, c))
    ensures c[0] <= Clamped(x, c) <= c[|c| - 1]
  {
    hide CellFrom, Mix;
    if x >= c[|c| - 1] {
      AboveAll(c, x);
      AboveAll(c, c[|c| - 1]);
    }
  }

  /** No step between neighbouring values is steeper than `slope`. */
  predicate Gentle(c: seq<real>, v: seq<real>, slope: real)
    requires Centers(c) && |v| == |c|
  {
    forall i, j | 0 <= i < |c| && j == i + 1 && j < |c| :: Abs(v[j] - v[i]) <= slope * (c[j] - c[i])
  }

  lemma SlopeTimes(d: real, span: real, slope: real, q: real)
    requires span > 0.0 && q >= 0.0 && Abs(d) <= slope * span
    ensures Abs(d * q) <= slope * (q * span)
  {
    assert Abs(d * q) == Abs(d) * q;
    assert Abs(d) * q <= (slope * span) * q;
    assert (slope * span) * q == slope * (q * span);
  }

  lemma MixDifference(a: real, b: real, u: real, w: real, d: real, e: real)
    requires d == b - a && e == w - u
    ensures Mix(a, b, w) - Mix(a, b, u) == d * e
  {
  }

  lemma ShareTimes(x: real, a: real, b: real)
    requires a < b
    ensures Share(x, a, b) * (b - a) == x - a
  {
  }

  lemma Ordered(p: real, q: real, span: real)
    requires span > 0.0 && p * span <= q * span
    ensures p <= q
  {
    Difference(p, q, span);
    PositiveProduct(p - q, span);
  }

  lemma PositiveProduct(p: real, q: real)
    requires q > 0.0
    ensures p > 0.0 ==> p * q > 0.0
  {
  }

  lemma ShareDifference(x: real, y: real, a: real, b: real) returns (w: real)
    requires a < b && x <= y
    ensures w == Share(y, a, b) - Share(x, a, b) && w >= 0.0 && w * (b - a) == y - x
  {
    hide Share;
    w := Share(y, a, b) - Share(x, a, b);
    ShareTimes(x, a, b);
    ShareTimes(y, a, b);
    Difference(Share(y, a, b), Share(x, a, b), b - a);
    Ordered(Share(x, a, b), Share(y, a, b), b - a);
  }

  lemma Difference(p: real, q: real, k: real)
    ensures (p - q) * k == p * k - q * k
  {
  }

  lemma Distribute(k: real, p: real, q: real)
    ensures k * p + k * q == k * (p + q)
  {
  }

  lemma Scaled(k: real, p: real, q: real)
    requires k >= 0.0 && p <= q
    ensures k * p <= k * q
  {
  }

  lemma CellIsGentle(c: seq<real>, v: seq<real>, slope: real, x: real, y: real, i: nat)
    requires Centers(c) && |v| == |c| && Gentle(c, v, slope)
    requires i < |c| - 1 && c[i] <= x <= y <= c[i + 1]
    ensures Abs(Curve(c, v, x) - Curve(c, v, y)) <= slope * (y - x)
  {
    hide Curve, Mix, Share;
    OnCell(c, v, x, i);
    OnCell(c, v, y, i);
    var j := i + 1;
    assert Abs(v[j] - v[i]) <= slope * (c[j] - c[i]);
    LineIsGentle(v[i], v[i + 1], c[i], c[i + 1], slope, x, y);
  }

  lemma LineIsGentle(a: real, b: real, lo: real, hi: real, slope: real, x: real, y: real)
    requires lo < hi && x <= y && Abs(b - a) <= slope * (hi - lo)
    ensures Abs(Mix(a, b, Share(x, lo, hi)) - Mix(a, b, Share(y, lo, hi))) <= slope * (y - x)
  {
    hide Mix, Share, Abs;
    var w := ShareDifference(x, y, lo, hi);
    MixDifference(a, b, Share(x, lo, hi), Share(y, lo, hi), b - a, w);
    Rise(Mix(a, b, Share(x, lo, hi)), Mix(a, b, Share(y, lo, hi)), b - a, w, slope, hi - lo, y - x);
  }

  lemma Rise(fx: real, fy: real, d: real, w: real, slope: real, span: real, t: real)
    requires fy - fx == d * w && w >= 0.0 && span > 0.0 && w * span == t && Abs(d) <= slope * span
    ensures Abs(fx - fy) <= slope * t
  {
    SlopeTimes(d, span, slope, w);
  }

  lemma AbsTriangle(p: real, q: real, r: real, m: real, n: real)
    requires Abs(p - q) <= m && Abs(q - r) <= n
    ensures Abs(p - r) <= m + n
  {
  }

  /** Across cells: the curve is as gentle as its steps. */
  lemma {:induction false} CurveIsGentleFrom(c: seq<real>, v: seq<real>, slope: real, x: real, y: real, i: nat)
    requires Centers(c) && |v| == |c| && Gentle(c, v, slope)
    requires i < |c| - 1 && c[i] <= x <= c[i + 1] && x <= y <= c[|c| - 1]
    ensures Abs(Curve(c, v, x) - Curve(c, v, y)) <= slope * (y - x)
    decreases |c| - i
  {
    if y <= c[i + 1] {
      CellIsGentle(c, v, slope, x, y, i);
    } else {
      var z := c[i + 1];
      CellIsGentle(c, v, slope, x, z, i);
      assert z <= c[i + 2];
      CurveIsGentleFrom(c, v, slope, z, y, i + 1);
      AbsTriangle(Curve(c, v, x), Curve(c, v, z), Curve(c, v, y), slope * (z - x), slope * (y - z));
      Distribute(slope, z - x, y - z);
      hide Curve, Gentle, Abs;
    }
  }

  lemma {:induction false} CellOf(c: seq<real>, x: real, n: nat) returns (i: nat)
    requires Centers(c) && 1 <= n < |c| && c[0] <= x <= c[n]
    ensures i < |c| - 1 && c[i] <= x <= c[i + 1]
  {
    if x >= c[n - 1] { i := n - 1; } else { i := CellOf(c, x, n - 1); }
  }

  lemma ClampedCloser(c: seq<real>, x: real, y: real)
    requires Centers(c) && x <= y
    ensures 0.0 <= Clamped(y, c) - Clamped(x, c) <= y - x
  {
  }

  lemma CurveIsGentleOrdered(c: seq<real>, v: seq<real>, slope: real, x: real, y: real)
    requires Centers(c) && |v| == |c| && Gentle(c, v, slope) && slope >= 0.0 && x <= y
    ensures Abs(Curve(c, v, x) - Curve(c, v, y)) <= slope * (y - x)
  {
    hide Curve, Gentle, Abs, Clamped;
    FlatBeyond(c, v, x);
    FlatBeyond(c, v, y);
    ClampedCloser(c, x, y);
    var i := CellOf(c, Clamped(x, c), |c| - 1);
    CurveIsGentleFrom(c, v, slope, Clamped(x, c), Clamped(y, c), i);
    AtMost(Abs(Curve(c, v, x) - Curve(c, v, y)), slope, Clamped(y, c) - Clamped(x, c), y - x);
  }

  lemma AtMost(p: real, k: real, d: real, e: real)
    requires k >= 0.0 && d <= e && p <= k * d
    ensures p <= k * e
  {
    Scaled(k, d, e);
  }

  lemma CurveIsGentle(c: seq<real>, v: seq<real>, slope: real, x: real, y: real)
    requires Centers(c) && |v| == |c| && Gentle(c, v, slope) && slope >= 0.0
    ensures Abs(Curve(c, v, x) - Curve(c, v, y)) <= slope * Abs(x - y)
  {
    hide Curve, Gentle, Centers;
    if x <= y {
      CurveIsGentleOrdered(c, v, slope, x, y);
    } else {
      CurveIsGentleOrdered(c, v, slope, y, x);
    }
  }

  lemma PositionInUnit(c: seq<real>, x: real)
    requires Centers(c)
    ensures 0.0 <= InterpPosition(x, c).1 <= 1.0
  {
    var p := InterpPosition(x, c);
    if c[0] < x {
      var k := CellFrom(x, c, 0);
      if k < |c| - 1 {
        ShareInUnit(x, c[k], c[k + 1]);
      }
    }
  }

  lemma ProductSign(p: real, q: real)
    requires q >= 0.0
    ensures p >= 0.0 ==> p * q >= 0.0
    ensures p <= 0.0 ==> p * q <= 0.0
  {
  }

  lemma ShareInUnit(x: real, a: real, b: real)
    requires a <= x <= b && a < b
    ensures 0.0 <= Share(x, a, b) <= 1.0
  {
    hide Share;
    ShareEnds(a, b);
    var low := ShareDifference(a, x, a, b);
    var high := ShareDifference(x, b, a, b);
  }

  lemma MixSpread(a: real, b: real, u: real, m: real)
    ensures Mix(a, b, u) - m == (a - m) * (1.0 - u) + (b - m) * u
  {
  }

  lemma MixBetween(a: real, b: real, u: real, lo: real, hi: real)
    requires lo <= a <= hi && lo <= b <= hi && 0.0 <= u <= 1.0
    ensures lo <= Mix(a, b, u) <= hi
  {
    hide Mix;
    ProductSign(a - lo, 1.0 - u);
    ProductSign(b - lo, u);
    ProductSign(a - hi, 1.0 - u);
    ProductSign(b - hi, u);
    MixSpread(a, b, u, lo);
    MixSpread(a, b, u, hi);
  }

  lemma CurveBetween(c: seq<real>, v: seq<real>, x: real, lo: real, hi: real)
    requires Centers(c) && |v| == |c| && forall i | 0 <= i < |v| :: lo <= v[i] <= hi
    ensures lo <= Curve(c, v, x) <= hi
  {
    var p := InterpPosition(x, c);
    PositionInUnit(c, x);
    MixBetween(v[p.0], v[p.0 + 1], p.1, lo, hi);
  }

  // ----- the surface ---------------------------------------------------------------------

  const TEMP_EDGES: seq<real> := [-30.0, -5.0, 0.0, 2.0, 5.0, 8.0, 40.0]
  const HUMIDITY_EDGES: seq<real> := [0.0, 70.0, 101.0]
  const TEMP_CENTERS: seq<real> := [-17.5, -2.5, 1.0, 3.5, 6.5, 24.0]
  const HUMIDITY_CENTERS: seq<real> := [35.0, 85.5]

  const DERATE_MIN: real := 0.55
  const DERATE_MAX: real := 1.0

  /** The centres are the midpoints of the edges. */
  lemma CentersAreMidpoints()
    ensures Centers(TEMP_CENTERS) && Centers(HUMIDITY_CENTERS)
    ensures |TEMP_CENTERS| == |TEMP_EDGES| - 1 && |HUMIDITY_CENTERS| == |HUMIDITY_EDGES| - 1
    ensures forall i | 0 <= i < 6 :: TEMP_CENTERS[i] == (TEMP_EDGES[i] + TEMP_EDGES[i + 1]) / 2.0
    ensures forall i | 0 <= i < 2 :: HUMIDITY_CENTERS[i] == (HUMIDITY_EDGES[i] + HUMIDITY_EDGES[i + 1]) / 2.0
  {
  }

  /** The bucket values: one dry and one humid column over the temperatures. */
  datatype Surface = Surface(dry: seq<real>, humid: seq<real>)

  predicate WellShaped(s: Surface) {
    |s.dry| == 6 && |s.humid| == 6 && Centers(TEMP_CENTERS) && Centers(HUMIDITY_CENTERS)
  }

  predicate Physical(s: Surface) {
    && WellShaped(s)
    && (forall i | 0 <= i < 6 :: DERATE_MIN <= s.dry[i] <= DERATE_MAX)
    && (forall i | 0 <= i < 6 :: DERATE_MIN <= s.humid[i] <= DERATE_MAX)
  }

  /** The law of `_factor_uncached`: uniform surroundings answer at once, the rest by
      the four-weight sum. */
  function SurfaceAt(s: Surface, t: real, h: real): real
    requires WellShaped(s)
  {
    var (ti, tu) := InterpPosition(t, TEMP_CENTERS);
    var hu := InterpPosition(h, HUMIDITY_CENTERS).1;
    var f00, f10, f01, f11 := s.dry[ti], s.dry[ti + 1], s.humid[ti], s.humid[ti + 1];
    if f00 == f10 == f01 == f11 then f00
    else f00 * (1.0 - tu) * (1.0 - hu) + f10 * tu * (1.0 - hu) + f01 * (1.0 - tu) * hu + f11 * tu * hu
  }

  lemma FourWeights(f00: real, f10: real, f01: real, f11: real, tu: real, hu: real)
    ensures f00 * (1.0 - tu) * (1.0 - hu) + f10 * tu * (1.0 - hu) + f01 * (1.0 - tu) * hu + f11 * tu * hu
         == Mix(Mix(f00, f10, tu), Mix(f01, f11, tu), hu)
  {
  }

  lemma UniformMix(a: real, tu: real, hu: real)
    ensures Mix(Mix(a, a, tu), Mix(a, a, tu), hu) == a
  {
  }

  function HumidShare(h: real): real
    requires Centers(HUMIDITY_CENTERS)
  {
    InterpPosition(h, HUMIDITY_CENTERS).1
  }

  /** The surface is the humidity mix of the two temperature curves; the shortcut for
      uniform surroundings changes no value. */
  lemma SurfaceIsMix(s: Surface, t: real, h: real)
    requires WellShaped(s)
    ensures SurfaceAt(s, t, h) == Mix(Curve(TEMP_CENTERS, s.dry, t), Curve(TEMP_CENTERS, s.humid, t), HumidShare(h))
  {
    hide Mix, InterpPosition;
    var p := InterpPosition(t, TEMP_CENTERS);
    var hu := HumidShare(h);
    var f00, f10, f01, f11 := s.dry[p.0], s.dry[p.0 + 1], s.humid[p.0], s.humid[p.0 + 1];
    FourWeights(f00, f10, f01, f11, p.1, hu);
    UniformMix(f00, p.1, hu);
  }

  lemma ShareIsCurve(h: real)
    requires Centers(HUMIDITY_CENTERS)
    ensures HumidShare(h) == Curve(HUMIDITY_CENTERS, [0.0, 1.0], h)
  {
  }

  lemma ShareIsGentle(h1: real, h2: real)
    requires Centers(HUMIDITY_CENTERS)
    ensures Abs(HumidShare(h1) - HumidShare(h2)) <= Abs(h1 - h2) / 50.5
  {
    hide Curve, HumidShare;
    ShareIsCurve(h1);
    ShareIsCurve(h2);
    assert Gentle(HUMIDITY_CENTERS, [0.0, 1.0], 1.0 / 50.5);
    CurveIsGentle(HUMIDITY_CENTERS, [0.0, 1.0], 1.0 / 50.5, h1, h2);
  }

  lemma PhysicalIsGentle(v: seq<real>)
    requires |v| == 6 && Centers(TEMP_CENTERS) && forall i | 0 <= i < 6 :: DERATE_MIN <= v[i] <= DERATE_MAX
    ensures Gentle(TEMP_CENTERS, v, 0.18)
  {
    forall i, j | 0 <= i < 6 && j == i + 1 && j < 6
      ensures Abs(v[j] - v[i]) <= 0.18 * (TEMP_CENTERS[j] - TEMP_CENTERS[i])
    {
      assert Abs(v[j] - v[i]) <= 0.45;
      assert TEMP_CENTERS[j] - TEMP_CENTERS[i] >= 2.5;
    }
  }

  lemma MixMoves(a1: real, b1: real, a2: real, b2: real, u: real, k: real)
    requires 0.0 <= u <= 1.0 && Abs(a1 - a2) <= k && Abs(b1 - b2) <= k
    ensures Abs(Mix(a1, b1, u) - Mix(a2, b2, u)) <= k
  {
    MixBetween(a1 - a2, b1 - b2, u, -k, k);
    assert Mix(a1, b1, u) - Mix(a2, b2, u) == Mix(a1 - a2, b1 - b2, u);
  }

  lemma AbsProduct(p: real, q: real, m: real, n: real)
    requires Abs(p) <= m && Abs(q) <= n
    ensures Abs(p * q) <= m * n
  {
    assert Abs(p * q) == Abs(p) * Abs(q);
    Scaled(Abs(p), Abs(q), n);
    Scaled(n, Abs(p), m);
  }

  lemma MixTurns(a: real, b: real, u1: real, u2: real, d: real)
    requires Abs(b - a) <= 0.45 && Abs(u1 - u2) <= d
    ensures Abs(Mix(a, b, u1) - Mix(a, b, u2)) <= 0.45 * d
  {
    hide Mix;
    var k, e := b - a, u1 - u2;
    MixDifference(a, b, u2, u1, k, e);
    AbsProduct(k, e, 0.45, d);
  }

  lemma SurfaceInTemperature(s: Surface, t1: real, t2: real, h: real)
    requires Physical(s)
    ensures Abs(SurfaceAt(s, t1, h) - SurfaceAt(s, t2, h)) <= 0.18 * Abs(t1 - t2)
  {
    hide Curve, SurfaceAt, Mix, InterpPosition, Abs;
    SurfaceIsMix(s, t1, h);
    SurfaceIsMix(s, t2, h);
    PhysicalIsGentle(s.dry);
    PhysicalIsGentle(s.humid);
    CurveIsGentle(TEMP_CENTERS, s.dry, 0.18, t1, t2);
    CurveIsGentle(TEMP_CENTERS, s.humid, 0.18, t1, t2);
    PositionInUnit(HUMIDITY_CENTERS, h);
    MixMoves(Curve(TEMP_CENTERS, s.dry, t1), Curve(TEMP_CENTERS, s.humid, t1),
             Curve(TEMP_CENTERS, s.dry, t2), Curve(TEMP_CENTERS, s.humid, t2), HumidShare(h), 0.18 * Abs(t1 - t2));
  }

  lemma SurfaceInHumidity(s: Surface, t: real, h1: real, h2: real)
    requires Physical(s)
    ensures Abs(SurfaceAt(s, t, h1) - SurfaceAt(s, t, h2)) <= 0.45 / 50.5 * Abs(h1 - h2)
  {
    hide Curve, SurfaceAt, Mix, HumidShare;
    SurfaceIsMix(s, t, h1);
    SurfaceIsMix(s, t, h2);
    CurveBetween(TEMP_CENTERS, s.dry, t, DERATE_MIN, DERATE_MAX);
    CurveBetween(TEMP_CENTERS, s.humid, t, DERATE_MIN, DERATE_MAX);
    ShareIsGentle(h1, h2);
    MixTurns(Curve(TEMP_CENTERS, s.dry, t), Curve(TEMP_CENTERS, s.humid, t), HumidShare(h1), HumidShare(h2),
             Abs(h1 - h2) / 50.5);
  }

  /** The surface is Lipschitz across all cells, whatever the grids have learned. */
  lemma SurfaceIsLipschitz(s: Surface, t1: real, h1: real, t2: real, h2: real)
    requires Physical(s)
    ensures Abs(SurfaceAt(s, t1, h1) - SurfaceAt(s, t2, h2))
         <= 0.18 * Abs(t1 - t2) + 0.45 / 50.5 * Abs(h1 - h2)
  {
    hide SurfaceAt, Physical;
    SurfaceInTemperature(s, t1, t2, h1);
    SurfaceInHumidity(s, t2, h1, h2);
  }

  /** It meets each bucket's value at the bucket's centre, is flat beyond the outer
      centres, and never leaves the physical range. */
  lemma SurfaceMeetsBuckets(s: Surface, i: nat)
    requires WellShaped(s) && i < 6
    ensures SurfaceAt(s, TEMP_CENTERS[i], HUMIDITY_CENTERS[0]) == s.dry[i]
    ensures SurfaceAt(s, TEMP_CENTERS[i], HUMIDITY_CENTERS[1]) == s.humid[i]
  {
    hide Curve, SurfaceAt, HumidShare;
    SurfaceIsMix(s, TEMP_CENTERS[i], HUMIDITY_CENTERS[0]);
    SurfaceIsMix(s, TEMP_CENTERS[i], HUMIDITY_CENTERS[1]);
    AtCenter(TEMP_CENTERS, s.dry, i);
    AtCenter(TEMP_CENTERS, s.humid, i);
    ShareIsCurve(HUMIDITY_CENTERS[0]);
    ShareIsCurve(HUMIDITY_CENTERS[1]);
    AtCenter(HUMIDITY_CENTERS, [0.0, 1.0], 0);
    AtCenter(HUMIDITY_CENTERS, [0.0, 1.0], 1);
  }

  lemma SurfaceIsFlatBeyond(s: Surface, t: real, h: real)
    requires WellShaped(s)
    ensures SurfaceAt(s, t, h) == SurfaceAt(s, Clamped(t, TEMP_CENTERS), Clamped(h, HUMIDITY_CENTERS))
  {
    hide Curve, SurfaceAt, HumidShare;
    var ct, ch := Clamped(t, TEMP_CENTERS), Clamped(h, HUMIDITY_CENTERS);
    SurfaceIsMix(s, t, h);
    SurfaceIsMix(s, ct, ch);
    FlatBeyond(TEMP_CENTERS, s.dry, t);
    FlatBeyond(TEMP_CENTERS, s.humid, t);
    ShareIsCurve(h);
    ShareIsCurve(ch);
    FlatBeyond(HUMIDITY_CENTERS, [0.0, 1.0], h);
  }

  lemma SurfaceInRange(s: Surface, t: real, h: real)
    requires Physical(s)
    ensures DERATE_MIN <= SurfaceAt(s, t, h) <= DERATE_MAX
  {
    hide Curve, SurfaceAt, Mix;
    SurfaceIsMix(s, t, h);
    CurveBetween(TEMP_CENTERS, s.dry, t, DERATE_MIN, DERATE_MAX);
    CurveBetween(TEMP_CENTERS, s.humid, t, DERATE_MIN, DERATE_MAX);
    PositionInUnit(HUMIDITY_CENTERS, h);
    MixBetween(Curve(TEMP_CENTERS, s.dry, t), Curve(TEMP_CENTERS, s.humid, t), HumidShare(h), DERATE_MIN, DERATE_MAX);
  }
}
