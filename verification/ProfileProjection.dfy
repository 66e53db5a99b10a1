/** The usage profile's projection of dhw_learning.py (`normalize_profile`), and the
    learner that stores only projected profiles. Exact reals. */
module ProfileProjection {
  import opened Options
  import opened Reals

  const HOURS: nat := 24
  const LO: real := 0.2
  const HI: real := 3.5
  const TOLERANCE: real := 0.000000000001
  const ROUNDS: nat := 100
  const EWMA_ALPHA: real := 0.12

  type Profile = p: seq<real> | |p| == HOURS witness seq(HOURS, i => 1.0)

  function Clip(x: real): (r: real)
    ensures LO <= r <= HI
  {
    if x < LO then LO else if x > HI then HI else x
  }

  /** One hour at a scale. */
  function ScaledHour(x: real, s: real): real { Clip(x * s) }

  function ClipScaled(p: Profile, s: real): (r: Profile)
    ensures forall i | 0 <= i < HOURS :: r[i] == ScaledHour(p[i], s)
  {
    seq(HOURS, i requires 0 <= i < HOURS => ScaledHour(p[i], s))
  }

  function ClipAll(p: Profile): (r: Profile)
    ensures forall i | 0 <= i < HOURS :: r[i] == Clip(p[i])
  {
    seq(HOURS, i requires 0 <= i < HOURS => Clip(p[i]))
  }

  function Sum(xs: seq<real>): real {
    if xs == [] then 0.0 else Sum(xs[..|xs| - 1]) + xs[|xs| - 1]
  }

  function Mean(p: Profile): real { Sum(p) / HOURS as real }

  predicate InBounds(p: Profile) {
    forall i | 0 <= i < HOURS :: LO <= p[i] <= HI
  }

  /** The admitted shapes: every hour inside the bounds, mean one. */
  predicate Admitted(p: Profile) {
    InBounds(p) && Abs(Mean(p) - 1.0) <= TOLERANCE
  }

  // ----- sums ------------------------------------------------------------------------------

  lemma {:induction false} SumScaledGap(xs: seq<real>, ys: seq<real>, gap: real)
    requires |xs| == |ys| && forall i | 0 <= i < |xs| :: ys[i] <= xs[i] + gap
    ensures Sum(ys) <= Sum(xs) + |xs| as real * gap
  {
    if xs != [] {
      var k := |xs| - 1;
      SumScaledGap(xs[..k], ys[..k], gap);
    }
  }

  lemma {:induction false} SumBounds(xs: seq<real>, lo: real, hi: real)
    requires forall i | 0 <= i < |xs| :: lo <= xs[i] <= hi
    ensures |xs| as real * lo <= Sum(xs) <= |xs| as real * hi
  {
    if xs != [] {
      SumBounds(xs[..|xs| - 1], lo, hi);
    }
  }

  lemma MeanBounds(p: Profile, lo: real, hi: real)
    requires forall i | 0 <= i < HOURS :: lo <= p[i] <= hi
    ensures lo <= Mean(p) <= hi
  {
    SumBounds(p, lo, hi);
  }

  lemma MeanGap(p: Profile, q: Profile, gap: real)
    requires forall i | 0 <= i < HOURS :: q[i] <= p[i] + gap
    ensures Mean(q) <= Mean(p) + gap
  {
    SumScaledGap(p, q, gap);
  }

  // ----- extremes -----------------------------------------------------------------------------

  function Greatest(xs: seq<real>): (m: real)
    requires xs != []
    ensures m in xs && forall i | 0 <= i < |xs| :: xs[i] <= m
  {
    if |xs| == 1 then xs[0]
    else
      var m := Greatest(xs[1..]);
      assert xs == [xs[0]] + xs[1..];
      if xs[0] < m then m else xs[0]
  }

  function Least(xs: seq<real>): (m: real)
    requires xs != []
    ensures m in xs && forall i | 0 <= i < |xs| :: m <= xs[i]
  {
    if |xs| == 1 then xs[0]
    else
      var m := Least(xs[1..]);
      assert xs == [xs[0]] + xs[1..];
      if m < xs[0] then m else xs[0]
  }

  // ----- products with a scale -----------------------------------------------------------------

  lemma Product(x: real, s: real, t: real)
    requires x >= 0.0 && s <= t
    ensures x * s <= x * t
  {
  }

  lemma ScaledBelow(x: real, m: real, c: real)
    requires 0.0 <= x <= m && m > 0.0 && c >= 0.0
    ensures x * (c / m) <= c
  {
    var q := c / m;
    assert q * m == c;
    Quotient(c, m);
    Product(q, x, m);
  }

  lemma ScaledAbove(x: real, m: real, c: real)
    requires 0.0 < m <= x && c >= 0.0
    ensures c <= x * (c / m)
  {
    var q := c / m;
    assert q * m == c;
    Quotient(c, m);
    Product(q, m, x);
  }

  lemma Quotient(c: real, m: real)
    requires c >= 0.0 && m > 0.0
    ensures c / m >= 0.0
  {
  }

  lemma QuotientOrder(a: real, b: real, c: real, d: real)
    requires 0.0 <= a <= c && b > 0.0 && d > 0.0 && d <= b
    ensures a / b <= c / d
  {
    var p, q := a / b, c / d;
    assert p * b == a && q * d == c;
    Quotient(a, b);
    Product(p, d, b);
    assert p * d <= q * d;
    Cancel(p, q, d);
  }

  lemma Cancel(p: real, q: real, d: real)
    requires d > 0.0 && p * d <= q * d
    ensures p <= q
  {
  }

  lemma ScaleGap(x: real, low: real, high: real)
    requires LO <= x <= HI && low <= high
    ensures ScaledHour(x, high) <= ScaledHour(x, low) + HI * (high - low)
    ensures ScaledHour(x, low) <= ScaledHour(x, high)
  {
    hide Clip;
    var d := high - low;
    Product(x, low, high);
    Product(d, x, HI);
    assert x * high == x * low + x * d;
    ClipGap(x * low, x * high, HI * d);
  }

  lemma ClipGap(a: real, b: real, gap: real)
    requires a <= b <= a + gap
    ensures Clip(a) <= Clip(b) <= Clip(a) + gap
  {
  }

  // ----- the bisection ----------------------------------------------------------------------

  function MeanAt(p: Profile, s: real): real { Mean(ClipScaled(p, s)) }

  /** The mean is monotone and Lipschitz in the scale. */
  lemma MeanAtMoves(p: Profile, low: real, high: real)
    requires InBounds(p) && low <= high
    ensures MeanAt(p, low) <= MeanAt(p, high) <= MeanAt(p, low) + HI * (high - low)
  {
    hide Clip, Mean, ScaledHour;
    var gap := HI * (high - low);
    forall i | 0 <= i < HOURS
      ensures ScaledHour(p[i], high) <= ScaledHour(p[i], low) + gap
      ensures ScaledHour(p[i], low) <= ScaledHour(p[i], high)
    {
      ScaleGap(p[i], low, high);
    }
    MeanGap(ClipScaled(p, low), ClipScaled(p, high), gap);
    MeanGap(ClipScaled(p, high), ClipScaled(p, low), 0.0);
  }

  lemma FloorHour(x: real, most: real)
    requires LO <= x <= most
    ensures ScaledHour(x, LO / most) == LO
  {
    ScaledBelow(x, most, LO);
  }

  lemma CeilingHour(x: real, least: real)
    requires LO <= least <= x
    ensures ScaledHour(x, HI / least) == HI
  {
    ScaledAbove(x, least, HI);
  }

  /** The bracket's low end: every hour is at the floor. */
  lemma LowEnd(p: Profile)
    requires InBounds(p)
    ensures MeanAt(p, LO / Greatest(p)) == LO
  {
    hide Clip, Mean, ScaledHour;
    var most := Greatest(p);
    forall i | 0 <= i < HOURS ensures ScaledHour(p[i], LO / most) == LO {
      FloorHour(p[i], most);
    }
    MeanBounds(ClipScaled(p, LO / most), LO, LO);
  }

  /** The bracket's high end: every hour is at the ceiling. */
  lemma HighEnd(p: Profile)
    requires InBounds(p)
    ensures MeanAt(p, HI / Least(p)) == HI
  {
    hide Clip, Mean, ScaledHour;
    var least := Least(p);
    forall i | 0 <= i < HOURS ensures ScaledHour(p[i], HI / least) == HI {
      CeilingHour(p[i], least);
    }
    MeanBounds(ClipScaled(p, HI / least), HI, HI);
  }

  lemma BracketWidth(p: Profile)
    requires InBounds(p)
    ensures 0.0 <= LO / Greatest(p) <= HI / Least(p) <= 17.5
  {
    hide Greatest, Least;
    var most, least := Greatest(p), Least(p);
    assert LO <= least <= p[0] <= most;
    QuotientOrder(LO, most, HI, least);
    Quotient(LO, most);
    QuotientOrder(HI, least, HI, LO);
  }

  function Pow2(k: nat): (r: real)
    ensures r >= 1.0
  {
    if k == 0 then 1.0 else 2.0 * Pow2(k - 1)
  }

  lemma {:induction false} Pow2Ten(k: nat)
    ensures Pow2(k + 10) == 1024.0 * Pow2(k)
  {
    assert Pow2(k + 1) == 2.0 * Pow2(k);
    assert Pow2(k + 2) == 4.0 * Pow2(k);
    assert Pow2(k + 3) == 8.0 * Pow2(k);
    assert Pow2(k + 4) == 16.0 * Pow2(k);
    assert Pow2(k + 5) == 32.0 * Pow2(k);
    assert Pow2(k + 6) == 64.0 * Pow2(k);
    assert Pow2(k + 7) == 128.0 * Pow2(k);
    assert Pow2(k + 8) == 256.0 * Pow2(k);
    assert Pow2(k + 9) == 512.0 * Pow2(k);
  }

  /** A hundred halvings shrink the bracket far below the tolerance. */
  lemma HundredHalvings(width: real)
    requires 0.0 <= width * Pow2(ROUNDS) <= 17.5
    ensures width >= 0.0 && HI * width <= TOLERANCE
  {
    hide Pow2;
    Pow2Ten(0); Pow2Ten(10); Pow2Ten(20); Pow2Ten(30); Pow2Ten(40); Pow2Ten(50);
    Pow2Ten(60); Pow2Ten(70); Pow2Ten(80); Pow2Ten(90);
    PowZero();
    var big := Pow2(ROUNDS);
    assert big >= 100000000000000.0;
    NarrowWidth(width, big);
  }

  lemma PowZero()
    ensures Pow2(0) == 1.0
  {
  }

  lemma PowNext(k: nat)
    ensures Pow2(k + 1) == 2.0 * Pow2(k)
  {
  }

  lemma NarrowWidth(width: real, big: real)
    requires big >= 100000000000000.0 && 0.0 <= width * big <= 17.5
    ensures width >= 0.0 && HI * width <= TOLERANCE
  {
    NonNegative(width, big);
    Product(width, 100000000000000.0, big);
  }

  lemma NonNegative(width: real, big: real)
    requires big > 0.0 && 0.0 <= width * big
    ensures width >= 0.0
  {
  }

  /** The bisection: its bracket keeps the mean's crossing of one between its ends
      and is halved in every round. */
  method Bisect(p: Profile, from: real, to: real) returns (low: real, high: real)
    requires from <= to && MeanAt(p, from) < 1.0 <= MeanAt(p, to)
    ensures low <= high && (high - low) * Pow2(ROUNDS) == to - from
    ensures MeanAt(p, low) < 1.0 <= MeanAt(p, high)
  {
    hide MeanAt, Pow2;
    PowZero();
    low, high := from, to;
    for k := 0 to ROUNDS
      invariant low <= high && (high - low) * Pow2(k) == to - from
      invariant MeanAt(p, low) < 1.0 <= MeanAt(p, high)
    {
      var mid := 0.5 * (low + high);
      HalfWidth(low, high, Pow2(k));
      PowNext(k);
      if MeanAt(p, mid) < 1.0 {
        low := mid;
      } else {
        high := mid;
      }
    }
  }

  /** The scale at which the clipped profile has mean one, from above. */
  method SolveScale(p: Profile) returns (high: real)
    requires InBounds(p)
    ensures 1.0 <= MeanAt(p, high) <= 1.0 + TOLERANCE
    ensures high > 0.0
  {
    hide MeanAt, Greatest, Least, Pow2;
    LowEnd(p);
    HighEnd(p);
    BracketWidth(p);
    var low;
    low, high := Bisect(p, LO / Greatest(p), HI / Least(p));
    HundredHalvings(high - low);
    MeanAtMoves(p, low, high);
    ScaleIsPositive(p, high);
  }

  lemma HalfWidth(low: real, high: real, pow: real)
    ensures (high - 0.5 * (low + high)) * (2.0 * pow) == (high - low) * pow
    ensures (0.5 * (low + high) - low) * (2.0 * pow) == (high - low) * pow
  {
  }

  lemma ZeroHour(x: real, s: real)
    requires x >= LO && s <= 0.0
    ensures ScaledHour(x, s) == LO
  {
    Product(x, s, 0.0);
  }

  lemma ScaleIsPositive(p: Profile, s: real)
    requires InBounds(p) && MeanAt(p, s) >= 1.0
    ensures s > 0.0
  {
    hide Clip, Mean, ScaledHour;
    if s <= 0.0 {
      forall i | 0 <= i < HOURS ensures ScaledHour(p[i], s) == LO {
        ZeroHour(p[i], s);
      }
      MeanBounds(ClipScaled(p, s), LO, LO);
    }
  }

  // ----- the projection -----------------------------------------------------------------------

  /** A stored profile: its hours, None where one is not a finite number. */
  type Written = seq<Option<real>>

  predicate Usable(w: Written) {
    |w| == HOURS && forall i | 0 <= i < HOURS :: w[i].Some?
  }

  function Finite(w: Written): Profile
    requires Usable(w)
  {
    seq(HOURS, i requires 0 <= i < HOURS => w[i].value)
  }

  function Base(w: Written, fallback: Profile): Profile {
    ClipAll(if Usable(w) then Finite(w) else fallback)
  }

  /** Order between hours is kept. */
  predicate KeepsOrder(p: Profile, q: Profile) {
    forall i, j | 0 <= i < HOURS && 0 <= j < HOURS && p[i] <= p[j] :: q[i] <= q[j]
  }

  lemma HoursKeepOrder(x: real, y: real, s: real)
    requires s > 0.0 && x <= y
    ensures ScaledHour(x, s) <= ScaledHour(y, s)
  {
    hide Clip;
    Product(s, x, y);
    assert s * x == x * s && s * y == y * s;
    ClipGap(x * s, y * s, y * s - x * s);
  }

  lemma ScalingKeepsOrder(p: Profile, s: real)
    requires s > 0.0
    ensures KeepsOrder(p, ClipScaled(p, s))
  {
    hide Clip, ScaledHour;
    forall i, j | 0 <= i < HOURS && 0 <= j < HOURS && p[i] <= p[j]
      ensures ClipScaled(p, s)[i] <= ClipScaled(p, s)[j]
    {
      HoursKeepOrder(p[i], p[j], s);
    }
  }

  /** `p` divided by its mean, hour by hour, then clipped. */
  function DividedBy(p: Profile, avg: real): (r: Profile)
    requires avg > 0.0
    ensures forall i | 0 <= i < HOURS :: r[i] == DividedHour(p[i], avg)
  {
    seq(HOURS, i requires 0 <= i < HOURS => DividedHour(p[i], avg))
  }

  function DividedHour(x: real, avg: real): real
    requires avg > 0.0
  {
    Clip(x / avg)
  }

  lemma DivideHour(x: real, avg: real)
    requires avg > 0.0
    ensures DividedHour(x, avg) == ScaledHour(x, 1.0 / avg)
  {
    assert x * (1.0 / avg) == x / avg;
  }

  lemma ScaleByMean(p: Profile, avg: real)
    requires avg > 0.0
    ensures 1.0 / avg > 0.0
    ensures DividedBy(p, avg) == ClipScaled(p, 1.0 / avg)
  {
    hide Clip, ScaledHour, DividedHour;
    Quotient(1.0, avg);
    assert 1.0 / avg * avg == 1.0;
    forall i | 0 <= i < HOURS ensures DividedHour(p[i], avg) == ScaledHour(p[i], 1.0 / avg) {
      DivideHour(p[i], avg);
    }
  }

  lemma UnitScale(p: Profile)
    requires InBounds(p)
    ensures ClipScaled(p, 1.0) == p
  {
    forall i | 0 <= i < HOURS ensures ScaledHour(p[i], 1.0) == p[i] {
      assert p[i] * 1.0 == p[i];
    }
  }

  /** `q` has the shape of `p`: one positive scale for every hour, then the clip. */
  ghost predicate SameShape(p: Profile, q: Profile) {
    exists s: real :: s > 0.0 && q == ClipScaled(p, s)
  }

  lemma ShapeKeepsOrder(p: Profile, q: Profile)
    requires SameShape(p, q)
    ensures KeepsOrder(p, q)
  {
    hide KeepsOrder, ClipScaled;
    var s :| s > 0.0 && q == ClipScaled(p, s);
    ScalingKeepsOrder(p, s);
  }

  lemma {:induction false} SumOrdered(xs: seq<real>, ys: seq<real>, i: nat)
    requires |xs| == |ys| && i < |xs| && forall k | 0 <= k < |xs| :: xs[k] <= ys[k]
    ensures ys[i] - xs[i] <= Sum(ys) - Sum(xs)
  {
    var k := |xs| - 1;
    SumScaledGap(ys[..k], xs[..k], 0.0);
    if i < k {
      SumOrdered(xs[..k], ys[..k], i);
    }
  }

  /** However the scale is found, the admitted profile of a shape is the same to within
      the tolerance in every hour. */
  lemma ProjectionUnique(p: Profile, q: Profile, r: Profile, i: nat)
    requires InBounds(p) && SameShape(p, q) && SameShape(p, r) && i < HOURS
    requires Abs(Mean(q) - 1.0) <= TOLERANCE && Abs(Mean(r) - 1.0) <= TOLERANCE
    ensures Abs(q[i] - r[i]) <= 48.0 * TOLERANCE
  {
    hide Clip, Sum, ScaledHour, ClipScaled;
    var s :| s > 0.0 && q == ClipScaled(p, s);
    var t :| t > 0.0 && r == ClipScaled(p, t);
    var a, b := if s <= t then s else t, if s <= t then t else s;
    forall k | 0 <= k < HOURS ensures ClipScaled(p, a)[k] <= ClipScaled(p, b)[k] {
      ScaleGap(p[k], a, b);
    }
    SumOrdered(ClipScaled(p, a), ClipScaled(p, b), i);
  }

  lemma WrittenKeepsOrder(w: Written, fallback: Profile, q: Profile)
    requires Usable(w) && SameShape(Base(w, fallback), q)
    ensures KeepsOrder(Finite(w), q)
  {
    hide SameShape;
    ShapeKeepsOrder(Base(w, fallback), q);
    assert forall i | 0 <= i < HOURS :: Base(w, fallback)[i] == Clip(Finite(w)[i]);
  }

  /** What the source admits: every hour in [0.2, 3.5], and a day's worth of 24 in all, to
      within a millionth of a millionth an hour. */
  predicate Shaped(p: Profile) {
    && (forall i | 0 <= i < 24 :: 0.2 <= p[i] <= 3.5)
    && -0.000000000024 <= Sum(p) - 24.0 <= 0.000000000024
  }

  lemma AdmittedIsShaped(p: Profile)
    ensures Admitted(p) <==> Shaped(p)
  {
    hide Sum;
  }

  /** The result is always admitted, has the shape of the (clipped) input, keeps the order
      of the hours as written, and is the input itself when that was admitted already. */
  method NormalizeProfile(w: Written, fallback: Profile) returns (out: Profile)
    ensures Admitted(out)
    ensures SameShape(Base(w, fallback), out)
    ensures Admitted(Base(w, fallback)) ==> out == Base(w, fallback)
    ensures Usable(w) ==> KeepsOrder(Finite(w), out)
    ensures Shaped(out)
  {
    hide Mean, Sum, DividedBy, ClipScaled, Shaped;
    var raw := Base(w, fallback);
    assert InBounds(raw);
    var avg := Mean(raw);
    MeanBounds(raw, LO, HI);
    if Abs(avg - 1.0) <= TOLERANCE {
      out := raw;
      UnitScale(raw);
      assert out == ClipScaled(raw, 1.0);
    } else {
      out := DividedBy(raw, avg);
      ScaleByMean(raw, avg);
      assert out == ClipScaled(raw, 1.0 / avg);
    }
    if Abs(Mean(out) - 1.0) > TOLERANCE {
      var s := SolveScale(raw);
      out := ClipScaled(raw, s);
    }
    if Usable(w) { WrittenKeepsOrder(w, fallback, out); }
    AdmittedIsShaped(out);
  }

  function AsWritten(p: Profile): Written { seq(HOURS, i requires 0 <= i < HOURS => Some(p[i])) }

  lemma AdmittedIsItsBase(p: Profile, fallback: Profile)
    requires Admitted(p)
    ensures Base(AsWritten(p), fallback) == p
  {
    hide Mean;
    assert forall i | 0 <= i < HOURS :: AsWritten(p)[i].Some? && Finite(AsWritten(p))[i] == p[i] && Clip(p[i]) == p[i];
  }

  /** A projection: normalising its own output returns it unchanged, so a stored
      profile is loaded as it was written. */
  method NormalizeTwice(w: Written, fallback: Profile) returns (once: Profile, twice: Profile)
    ensures Admitted(once) && twice == once
  {
    once := NormalizeProfile(w, fallback);
    AdmittedIsItsBase(once, fallback);
    twice := NormalizeProfile(AsWritten(once), fallback);
  }
}
