/** The pooled heat-loss refit of accuracy.py: where settled evidence begins, which pairs
    are admitted, and the one Newton step over all of them. Instants are exact days, the
    three-digit rounding of the answer is a parameter. */
module HeatLossRefit {
  import opened Options
  import opened Reals

  const SETTLED_DAYS: real := 3.0
  const SCALE_MIN: real := 0.3
  const SCALE_MAX: real := 3.0
  const MAX_SOLAR: real := 50.0

  datatype Sample = Sample(
    when: real, boosted: bool,
    predicted: Option<real>, actual: Option<real>, outdoor: Option<real>, solar: Option<real>)

  datatype Setup = Setup(
    scale: real, baseU: real, capacity: real, dtHours: real,
    minDelta: real, maxResidual: real, settle: real, since: Option<real>)

  datatype Pair = Pair(residual: real, delta: real)

  /** A division by two totals, named so that proofs can keep it whole. */
  function Step(num: real, den: real, u: real): real
    requires den > 0.0 && u > 0.0
  {
    num / den / u
  }

  lemma PositiveProduct(x: real, y: real)
    requires x > 0.0 && y > 0.0
    ensures Times(x, y) > 0.0
  {
  }

  function ClipScale(x: real): real { if x < SCALE_MIN then SCALE_MIN else if x > SCALE_MAX then SCALE_MAX else x }

  function Later(a: Option<real>, b: Option<real>): Option<real> {
    if a.None? then b else if b.None? then a else if a.value < b.value then b else a
  }

  function Earlier(a: Option<real>, b: Option<real>): Option<real> {
    if a.None? then b else if b.None? then a else if b.value < a.value then b else a
  }

  // ----- the evidence ------------------------------------------------------------------------

  /** The last boost-tagged instant. */
  function LatestTag(rows: seq<Sample>): (t: Option<real>)
    ensures t.Some? ==> exists i :: 0 <= i < |rows| && rows[i].boosted && rows[i].when == t.value
    ensures forall i | 0 <= i < |rows| && rows[i].boosted :: t.Some? && rows[i].when <= t.value
  {
    if rows == [] then None
    else
      var k := |rows| - 1;
      Later(LatestTag(rows[..k]), if rows[k].boosted then Some(rows[k].when) else None)
  }

  /** The fence: after the last boost and its settling time, and after the last restore. */
  function Start(rows: seq<Sample>, c: Setup): Option<real> {
    var tag := LatestTag(rows);
    Later(c.since, if tag.Some? then Some(tag.value + c.settle) else None)
  }

  predicate IsSettled(s: Sample, start: Option<real>) { start.Some? ==> s.when > start.value }

  function Sunlit(s: Sample): bool { s.solar.Some? && s.solar.value > MAX_SOLAR }

  /** The residual and the temperature difference of a pair the interval learner admits. */
  function PairOf(s: Sample, c: Setup): Option<Pair> {
    if s.boosted || s.predicted.None? || s.actual.None? || s.outdoor.None? || Sunlit(s) then None
    else
      var residual := s.actual.value - s.predicted.value;
      var delta := (s.actual.value + s.predicted.value) / 2.0 - s.outdoor.value;
      if delta < c.minDelta || Abs(residual) > c.maxResidual then None else Some(Pair(residual, delta))
  }

  /** What the settled evidence adds up to. */
  datatype Totals = Totals(num: real, den: real, pairs: nat, first: Option<real>, last: Option<real>)

  const NOTHING := Totals(0.0, 0.0, 0, None, None)

  function Plus(a: Totals, b: Totals): Totals {
    Totals(a.num + b.num, a.den + b.den, a.pairs + b.pairs, Earlier(a.first, b.first), Later(a.last, b.last))
  }

  /** One settled sample's share. */
  function Share(s: Sample, c: Setup): Totals {
    match PairOf(s, c)
    case None => Totals(0.0, 0.0, 0, Some(s.when), Some(s.when))
    case Some(p) => Totals(-Times(p.residual, c.capacity), Times(p.delta, c.dtHours), 1, Some(s.when), Some(s.when))
  }

  function Weigh(s: Sample, start: Option<real>, c: Setup): Totals {
    if IsSettled(s, start) then Share(s, c) else NOTHING
  }

  function Summary(rows: seq<Sample>, start: Option<real>, c: Setup): Totals {
    if rows == [] then NOTHING
    else Plus(Summary(rows[..|rows| - 1], start, c), Weigh(rows[|rows| - 1], start, c))
  }

  function SettledDays(t: Totals, start: Option<real>, c: Setup): real {
    if t.first.None? || t.last.None? then 0.0
    else t.last.value - (if start.Some? then start.value else t.first.value - c.dtHours / 24.0)
  }

  /** The pooled Newton step. */
  function Pooled(t: Totals, c: Setup): real
    requires t.den > 0.0 && c.baseU > 0.0
  {
    c.scale + Step(t.num, t.den, c.baseU)
  }

  /** The window is evidence: three settled days, a day's worth of pairs. */
  predicate Enough(t: Totals, days: real, c: Setup) {
    !(|| days < SETTLED_DAYS
      || t.pairs as real < 24.0 / (if c.dtHours > 0.000001 then c.dtHours else 0.000001)
      || t.den <= 0.0
      || c.baseU <= 0.000001)
  }

  datatype Answer = Answer(scale: Option<real>, pairs: nat, days: real, since: Option<real>)

  function Refit(rows: seq<Sample>, c: Setup, round3: real -> real): Answer {
    var start := Start(rows, c);
    var t := Summary(rows, start, c);
    var days := SettledDays(t, start, c);
    Answer(if Enough(t, days, c) then Some(round3(ClipScale(Pooled(t, c)))) else None,
           t.pairs, if days > 0.0 then days else 0.0, start)
  }

  // ----- order does not matter ----------------------------------------------------------------

  lemma PlusCommutes(a: Totals, b: Totals, d: Totals)
    ensures Plus(Plus(a, b), d) == Plus(Plus(a, d), b)
    ensures Plus(a, NOTHING) == a
  {
  }

  function Without(rows: seq<Sample>, i: nat): seq<Sample>
    requires i < |rows|
  {
    rows[..i] + rows[i + 1..]
  }

  lemma RestOf(rows: seq<Sample>, i: nat)
    requires i < |rows|
    ensures multiset(rows) == multiset(Without(rows, i)) + multiset{rows[i]}
  {
    assert rows == rows[..i] + [rows[i]] + rows[i + 1..];
  }

  lemma RestPermutes(rows: seq<Sample>, k: nat, other: seq<Sample>, i: nat)
    requires k == |rows| - 1 && i < |other| && rows[k] == other[i] && multiset(rows) == multiset(other)
    ensures multiset(rows[..k]) == multiset(Without(other, i))
  {
    hide Without;
    RestOf(rows, k);
    RestOf(other, i);
    assert Without(rows, k) == rows[..k] by { TakeIsWithout(rows); }
    assert multiset(rows[..k]) == multiset(rows) - multiset{rows[k]};
    assert multiset(Without(other, i)) == multiset(other) - multiset{other[i]};
  }

  lemma TakeIsWithout(rows: seq<Sample>)
    requires rows != []
    ensures Without(rows, |rows| - 1) == rows[..|rows| - 1]
  {
  }

  lemma {:induction false} SummaryRemoves(rows: seq<Sample>, i: nat, start: Option<real>, c: Setup)
    requires i < |rows|
    ensures Summary(rows, start, c) == Plus(Summary(Without(rows, i), start, c), Weigh(rows[i], start, c))
  {
    hide Plus, Weigh;
    var k := |rows| - 1;
    if i == k {
      assert Without(rows, i) == rows[..k];
    } else {
      SummaryRemoves(rows[..k], i, start, c);
      assert Without(rows, i)[..k - 1] == Without(rows[..k], i);
      assert Without(rows, i)[k - 1] == rows[k];
      PlusCommutes(Summary(Without(rows[..k], i), start, c), Weigh(rows[i], start, c), Weigh(rows[k], start, c));
    }
  }

  lemma {:induction false} SummaryPermutes(rows: seq<Sample>, other: seq<Sample>, start: Option<real>, c: Setup)
    requires multiset(rows) == multiset(other)
    ensures Summary(rows, start, c) == Summary(other, start, c)
  {
    hide Plus, Weigh;
    if rows == [] {
      assert |multiset(other)| == 0;
      assert other == [];
    } else {
      var k := |rows| - 1;
      assert rows[k] in multiset(other);
      var i :| 0 <= i < |other| && other[i] == rows[k];
      RestPermutes(rows, k, other, i);
      SummaryRemoves(other, i, start, c);
      SummaryPermutes(rows[..k], Without(other, i), start, c);
    }
  }

  lemma TagPermutes(rows: seq<Sample>, other: seq<Sample>)
    requires multiset(rows) == multiset(other)
    ensures LatestTag(rows) == LatestTag(other)
  {
    hide LatestTag;
    TagWithin(rows, other);
    TagWithin(other, rows);
  }

  lemma TagWithin(rows: seq<Sample>, other: seq<Sample>)
    requires multiset(rows) == multiset(other)
    ensures LatestTag(rows).Some? ==> LatestTag(other).Some? && LatestTag(rows).value <= LatestTag(other).value
  {
    hide LatestTag;
    if LatestTag(rows).Some? {
      var i :| 0 <= i < |rows| && rows[i].boosted && rows[i].when == LatestTag(rows).value;
      assert rows[i] in multiset(other);
      var j :| 0 <= j < |other| && other[j] == rows[i];
    }
  }

  /** The answer depends on which samples there are, not on their order. */
  lemma OrderDoesNotMatter(rows: seq<Sample>, other: seq<Sample>, c: Setup, round3: real -> real)
    requires multiset(rows) == multiset(other)
    ensures Refit(rows, c, round3) == Refit(other, c, round3)
  {
    hide Summary, LatestTag;
    TagPermutes(rows, other);
    SummaryPermutes(rows, other, Start(rows, c), c);
  }

  // ----- the fence ----------------------------------------------------------------------------

  /** The same samples but for what was measured at or before `start`. */
  predicate SameBeyond(rows: seq<Sample>, other: seq<Sample>, start: Option<real>) {
    && |rows| == |other|
    && (forall i | 0 <= i < |rows| :: rows[i].when == other[i].when && rows[i].boosted == other[i].boosted)
    && (forall i | 0 <= i < |rows| && IsSettled(rows[i], start) :: rows[i] == other[i])
  }

  lemma {:induction false} FencedSummary(rows: seq<Sample>, other: seq<Sample>, start: Option<real>, c: Setup)
    requires SameBeyond(rows, other, start)
    ensures Summary(rows, start, c) == Summary(other, start, c)
    ensures LatestTag(rows) == LatestTag(other)
  {
    if rows != [] {
      FencedSummary(rows[..|rows| - 1], other[..|rows| - 1], start, c);
    }
  }

  /** Nothing measured at or before the fence reaches the answer. */
  lemma FenceIgnoresTheUnsettled(rows: seq<Sample>, other: seq<Sample>, c: Setup, round3: real -> real)
    requires SameBeyond(rows, other, Start(rows, c))
    ensures Refit(rows, c, round3) == Refit(other, c, round3)
  {
    hide Summary, LatestTag;
    FencedSummary(rows, other, Start(rows, c), c);
  }

  // ----- a convex combination --------------------------------------------------------------------

  /** The refit of one pair alone. */
  function Newton(p: Pair, c: Setup): real
    requires p.delta > 0.0 && c.dtHours > 0.0 && c.baseU > 0.0
  {
    PositiveProduct(p.delta, c.dtHours);
    c.scale + Step(-Times(p.residual, c.capacity), Times(p.delta, c.dtHours), c.baseU)
  }

  predicate Sound(c: Setup) { c.minDelta > 0.0 && c.dtHours > 0.0 && c.baseU > 0.0 }

  /** Every settled, admitted pair's own estimate lies in [lo, hi]; its difference is
      positive because `minDelta` is. */
  predicate EstimatesWithin(rows: seq<Sample>, start: Option<real>, c: Setup, lo: real, hi: real)
    requires Sound(c)
  {
    forall i | 0 <= i < |rows| && IsSettled(rows[i], start) && PairOf(rows[i], c).Some? ::
      PairOf(rows[i], c).value.delta > 0.0 && lo <= Newton(PairOf(rows[i], c).value, c) <= hi
  }

  lemma Monotone(x: real, y: real, f: real)
    requires f > 0.0
    ensures x <= y ==> Times(x, f) <= Times(y, f)
    ensures x < y ==> Times(x, f) < Times(y, f)
  {
  }

  lemma QuotientBound(n: real, d: real, x: real)
    requires d > 0.0
    ensures x <= n / d <==> Times(x, d) <= n
    ensures n / d <= x <==> n <= Times(x, d)
  {
    hide Times;
    QuotientTimes(n, d);
    Monotone(x, n / d, d);
    Monotone(n / d, x, d);
  }

  lemma QuotientTimes(n: real, d: real)
    requires d > 0.0
    ensures Times(n / d, d) == n
  {
  }

  /** `scale + num / den / u` against a bound, read as a bound on `num`. */
  lemma StepBound(num: real, den: real, u: real, scale: real, x: real)
    requires den > 0.0 && u > 0.0
    ensures x <= scale + Step(num, den, u) <==> Times(Times(x - scale, u), den) <= num
    ensures scale + Step(num, den, u) <= x <==> num <= Times(Times(x - scale, u), den)
  {
    hide Times;
    QuotientBound(num / den, u, x - scale);
    QuotientBound(num, den, Times(x - scale, u));
  }

  function Slope(x: real, c: Setup): real { Times(x - c.scale, c.baseU) }

  lemma ShareBounded(s: Sample, c: Setup, lo: real, hi: real)
    requires Sound(c) && PairOf(s, c).Some? && PairOf(s, c).value.delta > 0.0
    requires lo <= Newton(PairOf(s, c).value, c) <= hi
    ensures Share(s, c).den > 0.0
    ensures Times(Slope(lo, c), Share(s, c).den) <= Share(s, c).num <= Times(Slope(hi, c), Share(s, c).den)
  {
    hide Times, Step, PairOf;
    var t := Share(s, c);
    PositiveProduct(PairOf(s, c).value.delta, c.dtHours);
    StepBound(t.num, t.den, c.baseU, c.scale, lo);
    StepBound(t.num, t.den, c.baseU, c.scale, hi);
  }

  lemma PairIsWarm(s: Sample, c: Setup)
    requires PairOf(s, c).Some?
    ensures PairOf(s, c).value.delta >= c.minDelta
  {
  }

  lemma Distributes(a: real, x: real, y: real)
    ensures Times(a, x + y) == Times(a, x) + Times(a, y) && Times(a, 0.0) == 0.0
  {
  }

  /** Totals between two slopes, with nothing pooled when no pair is. */
  predicate Between(t: Totals, a: real, b: real) {
    && (t.pairs > 0 ==> t.den > 0.0) && (t.pairs == 0 ==> t.den == 0.0)
    && Times(a, t.den) <= t.num <= Times(b, t.den)
  }

  lemma BetweenPlus(t: Totals, more: Totals, a: real, b: real)
    requires Between(t, a, b) && Between(more, a, b)
    ensures Between(Plus(t, more), a, b)
  {
    hide Times, Earlier, Later;
    Distributes(a, t.den, more.den);
    Distributes(b, t.den, more.den);
  }

  lemma WeighBetween(s: Sample, start: Option<real>, c: Setup, lo: real, hi: real)
    requires Sound(c) && IsSettled(s, start) && PairOf(s, c).Some? ==>
               PairOf(s, c).value.delta > 0.0 && lo <= Newton(PairOf(s, c).value, c) <= hi
    requires Sound(c)
    ensures Between(Weigh(s, start, c), Slope(lo, c), Slope(hi, c))
  {
    hide Times, Slope, PairOf, Newton, IsSettled;
    Distributes(Slope(lo, c), 0.0, 0.0);
    Distributes(Slope(hi, c), 0.0, 0.0);
    if IsSettled(s, start) && PairOf(s, c).Some? {
      ShareBounded(s, c, lo, hi);
    }
  }

  lemma {:induction false} TotalsBounded(rows: seq<Sample>, start: Option<real>, c: Setup, lo: real, hi: real)
    requires Sound(c) && EstimatesWithin(rows, start, c, lo, hi)
    ensures Between(Summary(rows, start, c), Slope(lo, c), Slope(hi, c))
  {
    hide Times, Slope, PairOf, Newton, IsSettled, Between, Plus, Weigh;
    if rows == [] {
      NothingBetween(Slope(lo, c), Slope(hi, c));
    } else {
      var k := |rows| - 1;
      TotalsBounded(rows[..k], start, c, lo, hi);
      WeighBetween(rows[k], start, c, lo, hi);
      BetweenPlus(Summary(rows[..k], start, c), Weigh(rows[k], start, c), Slope(lo, c), Slope(hi, c));
    }
  }

  lemma NothingBetween(a: real, b: real)
    ensures Between(NOTHING, a, b)
  {
  }

  /** The pooled step lies between the least and the greatest single-pair estimate. */
  lemma PooledIsConvex(rows: seq<Sample>, start: Option<real>, c: Setup, lo: real, hi: real)
    requires Sound(c) && EstimatesWithin(rows, start, c, lo, hi) && Summary(rows, start, c).pairs > 0
    ensures Summary(rows, start, c).den > 0.0
    ensures lo <= Pooled(Summary(rows, start, c), c) <= hi
  {
    hide Summary, EstimatesWithin, Times, Step;
    TotalsBounded(rows, start, c, lo, hi);
    var t := Summary(rows, start, c);
    StepBound(t.num, t.den, c.baseU, c.scale, lo);
    StepBound(t.num, t.den, c.baseU, c.scale, hi);
  }

  /** A pair whose residual is what the scale `truth` makes of it. */
  predicate Consistent(p: Pair, c: Setup, truth: real) {
    -Times(p.residual, c.capacity) == Times(Times(truth - c.scale, c.baseU), Times(p.delta, c.dtHours))
  }

  lemma ConsistentEstimate(p: Pair, c: Setup, truth: real)
    requires p.delta > 0.0 && c.dtHours > 0.0 && c.baseU > 0.0 && Consistent(p, c, truth)
    ensures Newton(p, c) == truth
  {
    hide Times, Step;
    PositiveProduct(p.delta, c.dtHours);
    StepBound(-Times(p.residual, c.capacity), Times(p.delta, c.dtHours), c.baseU, c.scale, truth);
  }

  /** On consistent evidence the refit recovers the true scale exactly, and answers it
      rounded and clipped once there is enough. */
  lemma RecoversTruth(rows: seq<Sample>, c: Setup, truth: real, round3: real -> real)
    requires Sound(c)
    requires forall i | 0 <= i < |rows| && IsSettled(rows[i], Start(rows, c)) && PairOf(rows[i], c).Some? ::
               Consistent(PairOf(rows[i], c).value, c, truth)
    ensures Refit(rows, c, round3).scale.Some? ==>
              Refit(rows, c, round3).scale.value == round3(if truth < 0.3 then 0.3 else if truth > 3.0 then 3.0 else truth)
  {
    hide Summary, Newton, Consistent, Start, PairOf, Times, Step, SettledDays;
    var start := Start(rows, c);
    forall i | 0 <= i < |rows| && IsSettled(rows[i], start) && PairOf(rows[i], c).Some?
      ensures PairOf(rows[i], c).value.delta > 0.0 && truth <= Newton(PairOf(rows[i], c).value, c) <= truth
    {
      PairIsWarm(rows[i], c);
      ConsistentEstimate(PairOf(rows[i], c).value, c, truth);
    }
    var t := Summary(rows, start, c);
    TotalsBounded(rows, start, c, truth, truth);
    if t.pairs > 0 {
      PooledIsConvex(rows, start, c, truth, truth);
    }
  }

  // ----- what the answer means -----------------------------------------------------------------

  /** Settled: after the last restore, and after every boost and its settling time. */
  predicate Settled(rows: seq<Sample>, c: Setup, at: real) {
    && (c.since.Some? ==> at > c.since.value)
    && forall j | 0 <= j < |rows| && rows[j].boosted :: at > rows[j].when + c.settle
  }

  /** Admitted: complete, outside any boost and dark, warm enough inside for its difference
      to carry information, and with a residual small enough to be believed. */
  predicate Admitted(s: Sample, c: Setup) {
    && !s.boosted && s.predicted.Some? && s.actual.Some? && s.outdoor.Some?
    && (s.solar.Some? ==> s.solar.value <= 50.0)
    && s.actual.value + s.predicted.value >= 2.0 * (s.outdoor.value + c.minDelta)
    && s.actual.value - s.predicted.value <= c.maxResidual
    && s.predicted.value - s.actual.value <= c.maxResidual
  }

  lemma SettledIs(rows: seq<Sample>, c: Setup, s: Sample)
    ensures IsSettled(s, Start(rows, c)) <==> Settled(rows, c, s.when)
  {
    var tag := LatestTag(rows);
    if tag.Some? {
      var i :| 0 <= i < |rows| && rows[i].boosted && rows[i].when == tag.value;
    }
  }

  lemma AdmittedIs(s: Sample, c: Setup)
    ensures PairOf(s, c).Some? <==> Admitted(s, c)
    ensures Admitted(s, c) ==>
              && PairOf(s, c).value.residual == s.actual.value - s.predicted.value
              && 2.0 * PairOf(s, c).value.delta == s.actual.value + s.predicted.value - 2.0 * s.outdoor.value
  {
  }

  /** The settled, admitted samples. */
  function Evidence(rows: seq<Sample>, c: Setup): set<nat> {
    set i: nat | i < |rows| && Settled(rows, c, rows[i].when) && Admitted(rows[i], c)
  }

  function PairsBelow(rows: seq<Sample>, start: Option<real>, c: Setup): set<nat> {
    set i: nat | i < |rows| && IsSettled(rows[i], start) && PairOf(rows[i], c).Some?
  }

  lemma PairsGrow(rows: seq<Sample>, start: Option<real>, c: Setup)
    requires rows != []
    ensures var k := |rows| - 1;
            |PairsBelow(rows, start, c)| == |PairsBelow(rows[..k], start, c)|
              + if IsSettled(rows[k], start) && PairOf(rows[k], c).Some? then 1 else 0
  {
    hide IsSettled, PairOf;
    var k := |rows| - 1;
    var all, before := PairsBelow(rows, start, c), PairsBelow(rows[..k], start, c);
    var more: set<nat> := if IsSettled(rows[k], start) && PairOf(rows[k], c).Some? then {k} else {};
    assert forall i: nat | i < k :: rows[..k][i] == rows[i];
    forall i: nat
      ensures i in all <==> i in before + more
    {
    }
    assert k !in before;
    assert all == before + more;
  }

  lemma {:induction false} PairsCounted(rows: seq<Sample>, start: Option<real>, c: Setup)
    ensures Summary(rows, start, c).pairs == |PairsBelow(rows, start, c)|
  {
    hide IsSettled, PairOf, Earlier, Later, Times;
    if rows == [] {
      assert PairsBelow(rows, start, c) == {};
    } else {
      hide PairsBelow;
      PairsCounted(rows[..|rows| - 1], start, c);
      PairsGrow(rows, start, c);
    }
  }

  /** The first and the last settled instant. */
  predicate Spans(rows: seq<Sample>, start: Option<real>, first: Option<real>, last: Option<real>) {
    && (first.None? <==> last.None?)
    && (first.Some? ==>
          && (exists i :: 0 <= i < |rows| && IsSettled(rows[i], start) && rows[i].when == first.value)
          && (exists i :: 0 <= i < |rows| && IsSettled(rows[i], start) && rows[i].when == last.value))
    && forall i | 0 <= i < |rows| && IsSettled(rows[i], start) ::
         first.Some? && first.value <= rows[i].when <= last.value
  }

  lemma WeighSpans(s: Sample, start: Option<real>, c: Setup)
    ensures var at := if IsSettled(s, start) then Some(s.when) else None;
            Weigh(s, start, c).first == at && Weigh(s, start, c).last == at
  {
    hide IsSettled, PairOf, Times;
  }

  lemma SpansMore(rows: seq<Sample>, s: Sample, start: Option<real>, first: Option<real>, last: Option<real>)
    requires Spans(rows, start, first, last)
    ensures var at := if IsSettled(s, start) then Some(s.when) else None;
            Spans(rows + [s], start, Earlier(first, at), Later(last, at))
  {
    hide IsSettled;
    var more := rows + [s];
    assert more[|rows|] == s && forall i | 0 <= i < |rows| :: more[i] == rows[i];
    if first.Some? {
      var i :| 0 <= i < |rows| && IsSettled(rows[i], start) && rows[i].when == first.value;
      var j :| 0 <= j < |rows| && IsSettled(rows[j], start) && rows[j].when == last.value;
      assert IsSettled(more[i], start) && IsSettled(more[j], start);
    }
  }

  lemma {:induction false} SummarySpans(rows: seq<Sample>, start: Option<real>, c: Setup)
    ensures var t := Summary(rows, start, c); Spans(rows, start, t.first, t.last)
  {
    hide Spans, Earlier, Later, Weigh;
    if rows == [] {
      NothingSpans(start);
    } else {
      var k := |rows| - 1;
      SummarySpans(rows[..k], start, c);
      WeighSpans(rows[k], start, c);
      var was := Summary(rows[..k], start, c);
      SpansMore(rows[..k], rows[k], start, was.first, was.last);
      assert rows == rows[..k] + [rows[k]];
    }
  }

  lemma NothingSpans(start: Option<real>)
    ensures Spans([], start, None, None)
  {
  }

  /** The settled span: from where settled evidence begins, or from one interval before its
      first sample, to its last sample; nothing without one. */
  ghost predicate SpanIs(rows: seq<Sample>, c: Setup, since: Option<real>, days: real) {
    if forall i | 0 <= i < |rows| :: !Settled(rows, c, rows[i].when) then days == 0.0
    else
      exists i, j | 0 <= i < |rows| && 0 <= j < |rows| && Outermost(rows, c, i, j) ::
        if since.Some? then days == rows[j].when - since.value
        else 24.0 * (days - (rows[j].when - rows[i].when)) == c.dtHours
  }

  /** The first and the last settled sample. */
  predicate Outermost(rows: seq<Sample>, c: Setup, i: nat, j: nat)
    requires i < |rows| && j < |rows|
  {
    && Settled(rows, c, rows[i].when) && Settled(rows, c, rows[j].when)
    && forall k | 0 <= k < |rows| && Settled(rows, c, rows[k].when) :: rows[i].when <= rows[k].when <= rows[j].when
  }

  lemma SpanMeans(rows: seq<Sample>, c: Setup)
    ensures SpanIs(rows, c, Start(rows, c), SettledDays(Summary(rows, Start(rows, c), c), Start(rows, c), c))
  {
    hide Summary, Start, Settled, IsSettled;
    var start := Start(rows, c);
    var t := Summary(rows, start, c);
    SummarySpans(rows, start, c);
    forall i | 0 <= i < |rows| ensures IsSettled(rows[i], start) <==> Settled(rows, c, rows[i].when) {
      SettledIs(rows, c, rows[i]);
    }
    if t.first.Some? {
      var i :| 0 <= i < |rows| && IsSettled(rows[i], start) && rows[i].when == t.first.value;
      var j :| 0 <= j < |rows| && IsSettled(rows[j], start) && rows[j].when == t.last.value;
      assert Outermost(rows, c, i, j);
      assert Settled(rows, c, rows[i].when);
      DaysBetween(t, start, c);
    }
  }

  lemma DaysBetween(t: Totals, start: Option<real>, c: Setup)
    requires t.first.Some? && t.last.Some?
    ensures var days := SettledDays(t, start, c);
            if start.Some? then days == t.last.value - start.value
            else 24.0 * (days - (t.last.value - t.first.value)) == c.dtHours
  {
  }

  /** The answer in the source's terms: since when evidence is settled, how many pairs it
      holds and over how many days, and that a scale is answered exactly when three settled
      days hold a day's worth of pairs. */
  ghost predicate Means(rows: seq<Sample>, c: Setup, a: Answer) {
    && (a.since.None? <==> c.since.None? && forall j | 0 <= j < |rows| :: !rows[j].boosted)
    && (a.since.Some? ==> forall at :: at > a.since.value <==> Settled(rows, c, at))
    && a.pairs == |Evidence(rows, c)|
    && (exists days :: SpanIs(rows, c, a.since, days) && a.days == if days < 0.0 then 0.0 else days)
    && (Sound(c) ==>
          (a.scale.Some? <==>
            && a.days >= 3.0 && c.baseU > 0.000001
            && a.pairs as real * (if c.dtHours > 0.000001 then c.dtHours else 0.000001) >= 24.0))
  }

  lemma StartMeans(rows: seq<Sample>, c: Setup)
    ensures Start(rows, c).None? <==> c.since.None? && forall j | 0 <= j < |rows| :: !rows[j].boosted
    ensures Start(rows, c).Some? ==> forall at :: at > Start(rows, c).value <==> Settled(rows, c, at)
  {
    hide LatestTag, Settled;
    forall at ensures Start(rows, c).Some? ==> (at > Start(rows, c).value <==> Settled(rows, c, at)) {
      SettledIs(rows, c, Sample(at, false, None, None, None, None));
    }
  }

  lemma EnoughMeans(pairs: nat, dtHours: real)
    ensures var dt := if dtHours > 0.000001 then dtHours else 0.000001;
            pairs as real < 24.0 / dt <==> pairs as real * dt < 24.0
  {
    var dt := if dtHours > 0.000001 then dtHours else 0.000001;
    QuotientBound(24.0, dt, pairs as real);
  }

  lemma EvidenceCounted(rows: seq<Sample>, c: Setup)
    ensures Summary(rows, Start(rows, c), c).pairs == |Evidence(rows, c)|
  {
    hide Summary, Start, Settled, IsSettled, PairOf, Admitted;
    PairsCounted(rows, Start(rows, c), c);
    forall i: nat | i < |rows| ensures i in PairsBelow(rows, Start(rows, c), c) <==> i in Evidence(rows, c) {
      SettledIs(rows, c, rows[i]);
      AdmittedIs(rows[i], c);
    }
    assert PairsBelow(rows, Start(rows, c), c) == Evidence(rows, c);
  }

  /** Positive differences make a positive total. */
  lemma {:induction false} PairsWeigh(rows: seq<Sample>, start: Option<real>, c: Setup)
    requires Sound(c)
    ensures var t := Summary(rows, start, c); t.den >= 0.0 && (t.pairs > 0 ==> t.den > 0.0)
  {
    hide PairOf, IsSettled, Times, Earlier, Later;
    if rows != [] {
      var k := |rows| - 1;
      PairsWeigh(rows[..k], start, c);
      if PairOf(rows[k], c).Some? {
        PairIsWarm(rows[k], c);
        PositiveProduct(PairOf(rows[k], c).value.delta, c.dtHours);
      }
    }
  }

  lemma RefitMeans(rows: seq<Sample>, c: Setup, round3: real -> real)
    ensures Means(rows, c, Refit(rows, c, round3))
  {
    hide Summary, Start, Settled, SpanIs, SettledDays, Evidence, Pooled, ClipScale;
    var start := Start(rows, c);
    var t := Summary(rows, start, c);
    StartMeans(rows, c);
    EvidenceCounted(rows, c);
    SpanMeans(rows, c);
    EnoughMeans(t.pairs, c.dtHours);
    if Sound(c) { PairsWeigh(rows, start, c); }
  }

  // ----- the loop ------------------------------------------------------------------------------

  method HeatLossRefit(rows: seq<Sample>, c: Setup, round3: real -> real) returns (answer: Answer)
    ensures answer == Refit(rows, c, round3)
    ensures Means(rows, c, answer)
  {
    hide Means, PairOf, LatestTag, SettledDays, Start, ClipScale, IsSettled;
    var start := Start(rows, c);
    var num, den, pairs := 0.0, 0.0, 0;
    var first: Option<real>, last: Option<real> := None, None;
    for k := 0 to |rows|
      invariant Totals(num, den, pairs, first, last) == Summary(rows[..k], start, c)
    {
      var s := rows[k];
      assert rows[..k + 1][..k] == rows[..k];
      if IsSettled(s, start) {
        var pair := PairOf(s, c);
        if pair.Some? {
          num := num - Times(pair.value.residual, c.capacity);
          den := den + Times(pair.value.delta, c.dtHours);
          pairs := pairs + 1;
        }
        first := Earlier(first, Some(s.when));
        last := Later(last, Some(s.when));
      }
    }
    assert rows[..|rows|] == rows;
    var days := SettledDays(Totals(num, den, pairs, first, last), start, c);
    var scale: Option<real> := None;
    if Enough(Totals(num, den, pairs, first, last), days, c) {
      scale := Some(round3(ClipScale(c.scale + Step(num, den, c.baseU))));
    }
    answer := Answer(scale, pairs, if days > 0.0 then days else 0.0, start);
    RefitMeans(rows, c, round3);
  }
}
