/** The derate learner of defrost.py: two estimators per bucket, their arbitration,
    the memo in front of the surface, and loading a stored learner. */
module DefrostLearner {
  import opened DefrostSurface
  import opened Options
  import opened Reals

  const CONFIDENCE: nat := 12
  const DERATE_ALPHA: real := 0.05
  const DUTY_ALPHA: real := 0.10
  const DEFROST_LOSS_MULTIPLIER: real := 1.5
  const DEFROST_DUTY_MAX: real := 0.30
  const FACTOR_MEMO_MAX: nat := 8192
  const NO_HUMIDITY: real := 60.0

  // ----- buckets -----------------------------------------------------------------------

  /** One bucket of the grids. */
  datatype Bucket = Bucket(factor: real, count: nat, duty: real, dutyCount: nat, dutyEvents: nat)

  const UNLEARNED := Bucket(1.0, 0, 0.0, 0, 0)

  /** The grids, bucket by bucket: six temperatures, two humidities. */
  datatype Grids = Grids(dry: seq<Bucket>, humid: seq<Bucket>)

  predicate PhysicalBucket(b: Bucket) {
    DERATE_MIN <= b.factor <= DERATE_MAX && 0.0 <= b.duty <= 1.0
  }

  predicate PhysicalGrids(g: Grids) {
    && |g.dry| == 6 && |g.humid| == 6
    && (forall i | 0 <= i < 6 :: PhysicalBucket(g.dry[i]) && PhysicalBucket(g.humid[i]))
  }

  function Fresh(): Grids { Grids(seq(6, i => UNLEARNED), seq(6, i => UNLEARNED)) }

  function BucketFrom(value: real, edges: seq<real>, i: nat): (k: nat)
    requires |edges| >= 2 && i < |edges| - 1
    ensures k < |edges| - 1
    decreases |edges| - i
  {
    if edges[i] <= value < edges[i + 1] then i
    else if i + 1 < |edges| - 1 then BucketFrom(value, edges, i + 1)
    else if value >= edges[|edges| - 1] then |edges| - 2 else 0
  }

  function TempBucket(t: real): (i: nat)
    ensures i < 6
  {
    BucketFrom(t, TEMP_EDGES, 0)
  }

  predicate IsHumid(humidity: Option<real>) {
    BucketFrom(if humidity.Some? then humidity.value else NO_HUMIDITY, HUMIDITY_EDGES, 0) == 1
  }

  // ----- the two estimators ---------------------------------------------------------------

  /** What a measured defrost duty implies. */
  function DerateFromDuty(duty: real): real {
    var d := if duty < 0.0 then 0.0 else if duty > DEFROST_DUTY_MAX then DEFROST_DUTY_MAX else duty;
    var f := 1.0 - d * DEFROST_LOSS_MULTIPLIER;
    if f < DERATE_MIN then DERATE_MIN else if f > DERATE_MAX then DERATE_MAX else f
  }

  function Trust(n: nat): real {
    if n >= CONFIDENCE then 1.0 else n as real / CONFIDENCE as real
  }

  /** One estimator's value blended towards 1 while short of evidence. */
  function Trusted(raw: real, n: nat): Option<real> {
    if n == 0 then None else Some(1.0 + (raw - 1.0) * Trust(n))
  }

  datatype Source = Measured | Inferred | Empty

  /** Which estimator a bucket rests on, and its value. */
  function Decide(b: Bucket): (Source, real) {
    var measured := Trusted(DerateFromDuty(b.duty), b.dutyCount);
    var inferred := Trusted(b.factor, b.count);
    if measured.None? then
      if inferred.None? then (Empty, 1.0) else (Inferred, inferred.value)
    else if inferred.None? || b.dutyCount >= CONFIDENCE then (Measured, measured.value)
    else if inferred.value < measured.value then (Inferred, inferred.value)
    else (Measured, measured.value)
  }

  lemma TrustInUnit(n: nat)
    ensures 0.0 <= Trust(n) <= 1.0 && (n >= CONFIDENCE ==> Trust(n) == 1.0)
  {
  }

  lemma TrustedInRange(raw: real, n: nat)
    requires DERATE_MIN <= raw <= DERATE_MAX && n > 0
    ensures raw <= Trusted(raw, n).value <= DERATE_MAX
    ensures n >= CONFIDENCE ==> Trusted(raw, n).value == raw
  {
    hide Trust;
    TrustInUnit(n);
    ProductSign(raw - 1.0, Trust(n));
    ProductSign(raw - 1.0, 1.0 - Trust(n));
    Blend(raw, Trust(n));
  }

  lemma Blend(raw: real, u: real)
    ensures 1.0 + (raw - 1.0) * u - raw == -((raw - 1.0) * (1.0 - u))
  {
  }

  /** The outer clamp on a duty's derate never binds: the duty's own clamp suffices. */
  lemma DutyDerate(duty: real)
    ensures DERATE_MIN <= DerateFromDuty(duty) <= DERATE_MAX
    ensures 0.0 <= duty <= DEFROST_DUTY_MAX ==> DerateFromDuty(duty) == 1.0 - DEFROST_LOSS_MULTIPLIER * duty
    ensures duty >= DEFROST_DUTY_MAX ==> DerateFromDuty(duty) == DERATE_MIN
  {
  }

  /** The arbitration: no evidence is no derate; until the duty has full trust an
      inferred derate is never relaxed; from then on the measurement stands alone. */
  lemma Arbitration(b: Bucket)
    requires PhysicalBucket(b)
    ensures DERATE_MIN <= Decide(b).1 <= DERATE_MAX
    ensures b.count == 0 && b.dutyCount == 0 <==> Decide(b).0 == Empty
    ensures Decide(b).0 == Empty ==> Decide(b).1 == 1.0
    ensures b.dutyCount < CONFIDENCE && b.count > 0 ==> Decide(b).1 <= Trusted(b.factor, b.count).value
    ensures b.dutyCount < CONFIDENCE && b.dutyCount > 0 ==>
              Decide(b).1 <= Trusted(DerateFromDuty(b.duty), b.dutyCount).value
    ensures b.dutyCount >= CONFIDENCE ==> Decide(b) == (Measured, DerateFromDuty(b.duty))
  {
    hide Trust, DerateFromDuty;
    DutyDerate(b.duty);
    if b.dutyCount > 0 { TrustedInRange(DerateFromDuty(b.duty), b.dutyCount); }
    if b.count > 0 { TrustedInRange(b.factor, b.count); }
  }

  /** What a duty costs: half as much again as its time, of at most three tenths. */
  function DutyCost(duty: real): real {
    if duty <= 0.0 then 0.0 else if duty >= 0.3 then 0.45 else 1.5 * duty
  }

  function Evidence(n: nat): real { if n >= 12 then 12.0 else n as real }

  /** `v` is a derate short of one by `loss`, in proportion to evidence that is full at twelve. */
  predicate Weighed(loss: real, n: nat, v: real) { 12.0 * (1.0 - v) == loss * Evidence(n) }

  /** A bucket's value and what it rests on: nothing; the one estimator with evidence; the
      measured one alone from twelve samples on; and until then the lower of the two, the
      measured one when they agree. */
  predicate Decides(b: Bucket, source: Source, v: real) {
    if b.count == 0 && b.dutyCount == 0 then source == Empty && v == 1.0
    else if b.dutyCount == 0 then source == Inferred && Weighed(1.0 - b.factor, b.count, v)
    else if b.count == 0 || b.dutyCount >= 12 then source == Measured && Weighed(DutyCost(b.duty), b.dutyCount, v)
    else
      var inferred, measured := (1.0 - b.factor) * Evidence(b.count), DutyCost(b.duty) * Evidence(b.dutyCount);
      if inferred > measured then source == Inferred && Weighed(1.0 - b.factor, b.count, v)
      else source == Measured && Weighed(DutyCost(b.duty), b.dutyCount, v)
  }

  lemma TrustedWeighs(raw: real, n: nat)
    requires n > 0
    ensures Weighed(1.0 - raw, n, Trusted(raw, n).value)
  {
    TrustIsEvidence(n);
    Weighs(raw - 1.0, Trust(n), Evidence(n));
  }

  lemma TrustIsEvidence(n: nat)
    ensures Trust(n) * 12.0 == Evidence(n)
  {
  }

  lemma Weighs(x: real, t: real, e: real)
    requires t * 12.0 == e
    ensures 12.0 * (1.0 - (1.0 + x * t)) == (-x) * e
  {
    assert x * (t * 12.0) == x * e;
  }

  lemma CostIsDerate(duty: real)
    ensures DerateFromDuty(duty) == 1.0 - DutyCost(duty)
  {
  }

  lemma DecideMeans(b: Bucket)
    ensures Decides(b, Decide(b).0, Decide(b).1)
  {
    hide Trust, Evidence, DutyCost, DerateFromDuty;
    CostIsDerate(b.duty);
    if b.count > 0 { TrustedWeighs(b.factor, b.count); }
    if b.dutyCount > 0 { TrustedWeighs(DerateFromDuty(b.duty), b.dutyCount); }
    hide Trusted;
  }

  function Values(bs: seq<Bucket>): seq<real>
    requires |bs| == 6
  {
    seq(6, i requires 0 <= i < 6 => Decide(bs[i]).1)
  }

  function SurfaceOf(g: Grids): Surface
    requires |g.dry| == 6 && |g.humid| == 6
  {
    Surface(Values(g.dry), Values(g.humid))
  }

  lemma SurfaceIsPhysical(g: Grids)
    requires PhysicalGrids(g)
    ensures Physical(SurfaceOf(g))
  {
    hide Decide;
    CentersAreMidpoints();
    forall i | 0 <= i < 6
      ensures DERATE_MIN <= Decide(g.dry[i]).1 <= DERATE_MAX && DERATE_MIN <= Decide(g.humid[i]).1 <= DERATE_MAX
    {
      Arbitration(g.dry[i]);
      Arbitration(g.humid[i]);
    }
  }

  /** `_factor_uncached`. */
  function FactorAt(g: Grids, t: real, h: real): real
    requires PhysicalGrids(g)
  {
    SurfaceIsPhysical(g);
    SurfaceAt(SurfaceOf(g), t, h)
  }

  lemma FactorInRange(g: Grids, t: real, h: real)
    requires PhysicalGrids(g)
    ensures DERATE_MIN <= FactorAt(g, t, h) <= DERATE_MAX
  {
    hide SurfaceAt, Physical, SurfaceOf;
    SurfaceIsPhysical(g);
    SurfaceInRange(SurfaceOf(g), t, h);
  }

  /** At a bucket's own temperature and humidity the answer is the bucket's own value. */
  lemma FactorMeetsBuckets(g: Grids, i: nat)
    requires PhysicalGrids(g) && i < 6
    ensures exists source :: Decides(g.dry[i], source, FactorAt(g, TEMP_CENTERS[i], 35.0))
    ensures exists source :: Decides(g.humid[i], source, FactorAt(g, TEMP_CENTERS[i], 85.5))
  {
    hide SurfaceAt, Decide, Decides;
    SurfaceIsPhysical(g);
    SurfaceMeetsBuckets(SurfaceOf(g), i);
    DecideMeans(g.dry[i]);
    DecideMeans(g.humid[i]);
    assert Decides(g.dry[i], Decide(g.dry[i]).0, FactorAt(g, TEMP_CENTERS[i], HUMIDITY_CENTERS[0]));
    assert Decides(g.humid[i], Decide(g.humid[i]).0, FactorAt(g, TEMP_CENTERS[i], HUMIDITY_CENTERS[1]));
  }

  /** In air drier than the dry bucket's centre the answer is the dry bucket's. */
  lemma DryIsFlat(g: Grids, t: real, h: real)
    requires PhysicalGrids(g) && h <= 35.0
    ensures FactorAt(g, t, h) == FactorAt(g, t, 35.0)
  {
    hide SurfaceAt;
    SurfaceIsPhysical(g);
    SurfaceIsFlatBeyond(SurfaceOf(g), t, h);
    SurfaceIsFlatBeyond(SurfaceOf(g), t, 35.0);
  }

  /** A learner that has seen nothing changes nothing. */
  lemma FreshIsInert(t: real, h: real)
    ensures PhysicalGrids(Fresh()) && FactorAt(Fresh(), t, h) == 1.0
    ensures forall i | 0 <= i < 6 :: Fresh().dry[i] == Fresh().humid[i] == Bucket(1.0, 0, 0.0, 0, 0)
  {
    hide InterpPosition;
    CentersAreMidpoints();
    assert forall i | 0 <= i < 6 :: Values(Fresh().dry)[i] == 1.0 && Values(Fresh().humid)[i] == 1.0;
  }

  // ----- learning ---------------------------------------------------------------------------

  function ClampRatio(x: real): real {
    if x < DERATE_MIN then DERATE_MIN else if x > DERATE_MAX then DERATE_MAX else x
  }

  function InferredBucket(b: Bucket, ratio: real): Bucket {
    b.(factor := (1.0 - DERATE_ALPHA) * b.factor + DERATE_ALPHA * ClampRatio(ratio), count := b.count + 1)
  }

  function MeasuredBucket(b: Bucket, duty: real, events: int): Bucket {
    b.(duty := (1.0 - DUTY_ALPHA) * b.duty + DUTY_ALPHA * duty, dutyCount := b.dutyCount + 1,
       dutyEvents := b.dutyEvents + if events > 0 then events else 0)
  }

  function BucketAt(g: Grids, t: real, humidity: Option<real>): Bucket
    requires |g.dry| == 6 && |g.humid| == 6
  {
    if IsHumid(humidity) then g.humid[TempBucket(t)] else g.dry[TempBucket(t)]
  }

  function WithBucket(g: Grids, t: real, humidity: Option<real>, b: Bucket): Grids
    requires |g.dry| == 6 && |g.humid| == 6
  {
    if IsHumid(humidity) then g.(humid := g.humid[TempBucket(t) := b]) else g.(dry := g.dry[TempBucket(t) := b])
  }

  predicate UsableRatio(ratio: real) { 0.0 < ratio <= 3.0 }

  predicate UsableDuty(duty: real) { 0.0 <= duty <= 1.0 }

  function Inferring(g: Grids, t: real, humidity: Option<real>, ratio: real): Grids
    requires |g.dry| == 6 && |g.humid| == 6
  {
    if !UsableRatio(ratio) then g
    else WithBucket(g, t, humidity, InferredBucket(BucketAt(g, t, humidity), ratio))
  }

  function Measuring(g: Grids, t: real, humidity: Option<real>, duty: real, events: int): Grids
    requires |g.dry| == 6 && |g.humid| == 6
  {
    if !UsableDuty(duty) then g
    else WithBucket(g, t, humidity, MeasuredBucket(BucketAt(g, t, humidity), duty, events))
  }

  lemma LearningStaysPhysical(g: Grids, t: real, humidity: Option<real>, ratio: real, duty: real, events: int)
    requires PhysicalGrids(g)
    ensures PhysicalGrids(Inferring(g, t, humidity, ratio))
    ensures PhysicalGrids(Measuring(g, t, humidity, duty, events))
  {
    hide IsHumid, TempBucket;
    assert PhysicalBucket(BucketAt(g, t, humidity));
  }

  /** The temperature lies in the `i`-th bucket: between its edges, or beyond an outer one. */
  predicate Lies(t: real, i: nat)
    requires i < 6
  {
    (i == 0 || TEMP_EDGES[i] <= t) && (i == 5 || t < TEMP_EDGES[i + 1])
  }

  /** Damp enough to frost; an unknown humidity is not. */
  predicate Frosting(humidity: Option<real>) { humidity.Some? && humidity.value >= 70.0 }

  lemma TempBucketLies(t: real)
    ensures forall i | 0 <= i < 6 :: Lies(t, i) <==> i == TempBucket(t)
  {
    EdgeWalk(t, 0);
  }

  lemma {:induction false} EdgeWalk(t: real, i: nat)
    requires i < 6 && (t < TEMP_EDGES[0] || TEMP_EDGES[i] <= t)
    ensures Lies(t, BucketFrom(t, TEMP_EDGES, i))
    decreases 6 - i
  {
    if !(TEMP_EDGES[i] <= t < TEMP_EDGES[i + 1]) && i < 5 {
      EdgeWalk(t, i + 1);
    }
  }

  lemma HumidIsFrosting(humidity: Option<real>)
    ensures IsHumid(humidity) <==> Frosting(humidity)
  {
  }

  /** Nothing changed but the bucket the conditions lie in. */
  predicate OnlyThere(was: Grids, now: Grids, t: real, humidity: Option<real>)
    requires |was.dry| == |was.humid| == |now.dry| == |now.humid| == 6
  {
    forall i | 0 <= i < 6 ::
      && (now.dry[i] == was.dry[i] || (Lies(t, i) && !Frosting(humidity)))
      && (now.humid[i] == was.humid[i] || (Lies(t, i) && Frosting(humidity)))
  }

  /** One power ratio learned: a twentieth of the way to the ratio clamped to [0.55, 1]. */
  predicate RatioLearned(was: Bucket, now: Bucket, ratio: real) {
    && now.factor - was.factor
       == 0.05 * ((if ratio < 0.55 then 0.55 else if ratio > 1.0 then 1.0 else ratio) - was.factor)
    && now.count == was.count + 1
    && now.duty == was.duty && now.dutyCount == was.dutyCount && now.dutyEvents == was.dutyEvents
  }

  /** One measured duty learned: a tenth of the way to it, with the defrosts witnessed. */
  predicate DutyLearned(was: Bucket, now: Bucket, duty: real, events: int) {
    && now.duty - was.duty == 0.1 * (duty - was.duty)
    && now.dutyCount == was.dutyCount + 1 && now.dutyEvents == was.dutyEvents + (if events > 0 then events else 0)
    && now.factor == was.factor && now.count == was.count
  }

  /** A ratio teaches the bucket the conditions lie in and no other. */
  predicate TaughtRatio(was: Grids, now: Grids, t: real, humidity: Option<real>, ratio: real) {
    && |was.dry| == |was.humid| == |now.dry| == |now.humid| == 6
    && if 0.0 < ratio <= 3.0
       then
         && OnlyThere(was, now, t, humidity)
         && forall i | 0 <= i < 6 && Lies(t, i) ::
              if Frosting(humidity) then RatioLearned(was.humid[i], now.humid[i], ratio)
              else RatioLearned(was.dry[i], now.dry[i], ratio)
       else now == was
  }

  /** A duty teaches the bucket the conditions lie in and no other. */
  predicate TaughtDuty(was: Grids, now: Grids, t: real, humidity: Option<real>, duty: real, events: int) {
    && |was.dry| == |was.humid| == |now.dry| == |now.humid| == 6
    && if 0.0 <= duty <= 1.0
       then
         && OnlyThere(was, now, t, humidity)
         && forall i | 0 <= i < 6 && Lies(t, i) ::
              if Frosting(humidity) then DutyLearned(was.humid[i], now.humid[i], duty, events)
              else DutyLearned(was.dry[i], now.dry[i], duty, events)
       else now == was
  }

  /** What an observation teaches, in terms of the edges its conditions lie between. */
  lemma LearningIsLocal(g: Grids, t: real, humidity: Option<real>, ratio: real, duty: real, events: int)
    requires |g.dry| == 6 && |g.humid| == 6
    ensures TaughtRatio(g, Inferring(g, t, humidity, ratio), t, humidity, ratio)
    ensures TaughtDuty(g, Measuring(g, t, humidity, duty, events), t, humidity, duty, events)
  {
    hide IsHumid, TempBucket, Lies, Frosting;
    TempBucketLies(t);
    HumidIsFrosting(humidity);
  }

  // ----- the stored form ------------------------------------------------------------------------

  /** A stored value under one key: missing, not a list, or rows whose cells are None
      where they are not a number of the wanted kind. */
  datatype Raw<T> = Missing | NoList | Rows(rows: seq<Option<seq<Option<T>>>>)

  datatype Stored = Stored(factors: Raw<real>, counts: Raw<int>, duty: Raw<real>, dutyCounts: Raw<int>, dutyEvents: Raw<int>)

  predicate Gridded<T>(raw: Raw<T>) {
    && raw.Rows? && |raw.rows| == 6
    && forall i | 0 <= i < 6 :: raw.rows[i].Some? && |raw.rows[i].value| == 2
  }

  /** A cell of a well-shaped grid; None when it is unusable. */
  function CellOf<T>(raw: Raw<T>, i: nat, h: nat): Option<T>
    requires Gridded(raw) && i < 6 && h < 2
  {
    raw.rows[i].value[h]
  }

  function CountCell(raw: Raw<int>, i: nat, h: nat): Option<nat>
    requires Gridded(raw) && i < 6 && h < 2
  {
    var c := CellOf(raw, i, h);
    if c.Some? && c.value >= 0 then Some(c.value) else None
  }

  function UnitCell(raw: Raw<real>, i: nat, h: nat): Option<real>
    requires Gridded(raw) && i < 6 && h < 2
  {
    var c := CellOf(raw, i, h);
    if c.Some? && UsableDuty(c.value) then c else None
  }

  /** The measured half of one bucket, when both its cells are usable. */
  function LoadMeasured(d: Stored, i: nat, h: nat, b: Bucket): Bucket
    requires i < 6 && h < 2
  {
    if !Gridded(d.duty) || !Gridded(d.dutyCounts) then b
    else
      var duty, n := UnitCell(d.duty, i, h), CountCell(d.dutyCounts, i, h);
      if duty.None? || n.None? then b
      else
        var e := if Gridded(d.dutyEvents) then CountCell(d.dutyEvents, i, h) else None;
        b.(duty := duty.value, dutyCount := n.value, dutyEvents := if e.Some? then e.value else 0)
  }

  /** The inferred half, re-clamped. */
  function LoadInferred(d: Stored, i: nat, h: nat, b: Bucket): Bucket
    requires i < 6 && h < 2
  {
    if !Gridded(d.factors) then b
    else
      var f := CellOf(d.factors, i, h);
      var n := if Gridded(d.counts) then CountCell(d.counts, i, h) else Some(0);
      if f.None? || n.None? then b else b.(factor := ClampRatio(f.value), count := n.value)
  }

  function LoadBucket(d: Stored, i: nat, h: nat): Bucket
    requires i < 6 && h < 2
  {
    LoadInferred(d, i, h, LoadMeasured(d, i, h, UNLEARNED))
  }

  function Loaded(d: Stored): Grids {
    Grids(seq(6, i requires 0 <= i < 6 => LoadBucket(d, i, 0)), seq(6, i requires 0 <= i < 6 => LoadBucket(d, i, 1)))
  }

  /** A store from before the measured half: kept, and marked as upgraded. */
  predicate Migrated(d: Stored) {
    && !(Gridded(d.duty) && Gridded(d.dutyCounts)) && d.duty.Missing? && d.dutyCounts.Missing? && d.factors.Rows?
  }

  /** The cell of a whole grid holds this number. */
  predicate Holds<T(==)>(raw: Raw<T>, i: nat, h: nat, v: T)
    requires i < 6 && h < 2
  {
    Gridded(raw) && raw.rows[i].value[h] == Some(v)
  }

  /** One bucket loaded: its measured half from a duty in [0, 1] and a count, with the events if
      they are a count too; its inferred half from a factor, clamped, and a count, none when
      there are no counts at all; each half on its own, and as new without them. */
  lemma LoadMeans(d: Stored, i: nat, h: nat)
    requires i < 6 && h < 2
    ensures var b := LoadBucket(d, i, h);
            && (forall duty, n | Holds(d.duty, i, h, duty) && Holds(d.dutyCounts, i, h, n) && 0.0 <= duty <= 1.0 && n >= 0 ::
                  b.duty == duty && b.dutyCount == n)
            && ((b.duty != 0.0 || b.dutyCount != 0 || b.dutyEvents != 0) ==>
                  0.0 <= b.duty <= 1.0 && Holds(d.duty, i, h, b.duty) && Holds(d.dutyCounts, i, h, b.dutyCount))
            && (b.dutyEvents != 0 ==> Holds(d.dutyEvents, i, h, b.dutyEvents))
            && (forall duty, n, e | Holds(d.duty, i, h, duty) && Holds(d.dutyCounts, i, h, n) && 0.0 <= duty <= 1.0 && n >= 0
                                    && Holds(d.dutyEvents, i, h, e) && e >= 0 :: b.dutyEvents == e)
            && (forall f, n | Holds(d.factors, i, h, f) && Holds(d.counts, i, h, n) && n >= 0 ::
                  b.factor == ClampRatio(f) && b.count == n)
            && (forall f | Holds(d.factors, i, h, f) && !Gridded(d.counts) :: b.factor == ClampRatio(f) && b.count == 0)
            && ((b.factor != 1.0 || b.count != 0) ==>
                  && (exists f :: Holds(d.factors, i, h, f) && b.factor == ClampRatio(f))
                  && (b.count != 0 ==> Holds(d.counts, i, h, b.count)))
  {
    hide ClampRatio;
  }

  /** An older store: inferred factors, and neither half of the measurement's keys. */
  lemma MigratedIff(d: Stored)
    ensures Migrated(d) <==> d.factors.Rows? && d.duty.Missing? && d.dutyCounts.Missing?
  {
  }

  function RowsOf<T>(g: Grids, cell: Bucket -> T): Raw<T>
    requires |g.dry| == 6 && |g.humid| == 6
  {
    Rows(seq(6, i requires 0 <= i < 6 => Some([Some(cell(g.dry[i])), Some(cell(g.humid[i]))])))
  }

  function FactorOf(b: Bucket): real { b.factor }
  function CountOf(b: Bucket): int { b.count }
  function DutyOf(b: Bucket): real { b.duty }
  function DutyCountOf(b: Bucket): int { b.dutyCount }
  function DutyEventsOf(b: Bucket): int { b.dutyEvents }

  function AsStored(g: Grids): Stored
    requires |g.dry| == 6 && |g.humid| == 6
  {
    Stored(RowsOf(g, FactorOf), RowsOf(g, CountOf), RowsOf(g, DutyOf), RowsOf(g, DutyCountOf), RowsOf(g, DutyEventsOf))
  }

  /** Whatever was stored, the loaded grids are physical. */
  lemma LoadedIsPhysical(d: Stored)
    ensures PhysicalGrids(Loaded(d))
  {
    hide Gridded, CellOf;
    forall i, h | 0 <= i < 6 && 0 <= h < 2 ensures PhysicalBucket(LoadBucket(d, i, h)) {
    }
  }

  lemma RowsAreCells<T>(g: Grids, cell: Bucket -> T, i: nat)
    requires |g.dry| == 6 && |g.humid| == 6 && i < 6
    ensures Gridded(RowsOf(g, cell))
    ensures CellOf(RowsOf(g, cell), i, 0) == Some(cell(g.dry[i]))
    ensures CellOf(RowsOf(g, cell), i, 1) == Some(cell(g.humid[i]))
  {
  }

  lemma BucketRoundTrip(g: Grids, i: nat)
    requires PhysicalGrids(g) && i < 6
    ensures LoadBucket(AsStored(g), i, 0) == g.dry[i]
    ensures LoadBucket(AsStored(g), i, 1) == g.humid[i]
  {
    hide Gridded, CellOf, RowsOf;
    RowsAreCells(g, FactorOf, i);
    RowsAreCells(g, CountOf, i);
    RowsAreCells(g, DutyOf, i);
    RowsAreCells(g, DutyCountOf, i);
    RowsAreCells(g, DutyEventsOf, i);
    assert PhysicalBucket(g.dry[i]) && PhysicalBucket(g.humid[i]);
  }

  /** Saving and loading restores every physical learner's grids, unmigrated. */
  lemma StoreRoundTrip(g: Grids)
    requires PhysicalGrids(g)
    ensures Loaded(AsStored(g)) == g && !Migrated(AsStored(g))
  {
    hide LoadBucket, AsStored;
    forall i | 0 <= i < 6
      ensures LoadBucket(AsStored(g), i, 0) == g.dry[i] && LoadBucket(AsStored(g), i, 1) == g.humid[i]
    {
      BucketRoundTrip(g, i);
    }
    NotMigrated(g);
  }

  lemma NotMigrated(g: Grids)
    requires |g.dry| == 6 && |g.humid| == 6
    ensures !Migrated(AsStored(g))
  {
  }

  // ----- the learner and its memo --------------------------------------------------------------

  type Memo = map<(real, real), real>

  datatype Learner = Learner(grids: Grids, memo: Memo)

  /** Every remembered answer is the surface's own, on the grids as they are now. */
  predicate Honest(l: Learner) {
    && PhysicalGrids(l.grids) && |l.memo| <= FACTOR_MEMO_MAX
    && forall k | k in l.memo :: l.memo[k] == FactorAt(l.grids, k.0, k.1)
  }

  datatype Op =
    | Ask(t: real, humidity: Option<real>)
    | SeeRatio(t: real, humidity: Option<real>, ratio: real)
    | SeeDuty(t: real, humidity: Option<real>, duty: real, events: int)
    | Load(stored: Stored)

  function KeyOf(t: real, humidity: Option<real>): (real, real) {
    (t, if humidity.Some? then humidity.value else HUMIDITY_CENTERS[0])
  }

  function Remember(l: Learner, key: (real, real), value: real): Learner {
    if key in l.memo then l
    else l.(memo := (if |l.memo| >= FACTOR_MEMO_MAX then map[] else l.memo)[key := value])
  }

  function Step(l: Learner, op: Op): Learner
    requires PhysicalGrids(l.grids)
  {
    match op
    case Ask(t, humidity) =>
      var key := KeyOf(t, humidity);
      Remember(l, key, FactorAt(l.grids, key.0, key.1))
    case SeeRatio(t, humidity, ratio) =>
      if UsableRatio(ratio) then Learner(Inferring(l.grids, t, humidity, ratio), map[]) else l
    case SeeDuty(t, humidity, duty, events) =>
      if UsableDuty(duty) then Learner(Measuring(l.grids, t, humidity, duty, events), map[]) else l
    case Load(stored) => Learner(Loaded(stored), map[])
  }

  /** What asking answers: the remembered value, or the surface's. */
  function Answer(l: Learner, t: real, humidity: Option<real>): real
    requires PhysicalGrids(l.grids)
  {
    var key := KeyOf(t, humidity);
    if key in l.memo then l.memo[key] else FactorAt(l.grids, key.0, key.1)
  }

  lemma StepStaysHonest(l: Learner, op: Op)
    requires Honest(l)
    ensures Honest(Step(l, op))
  {
    hide FactorAt, PhysicalGrids, Inferring, Measuring, Loaded, KeyOf, UsableRatio, UsableDuty;
    match op
    case Ask(t, humidity) =>
      var key := KeyOf(t, humidity);
      RememberIsSmall(l, key, FactorAt(l.grids, key.0, key.1));
    case SeeRatio(t, humidity, ratio) => LearningStaysPhysical(l.grids, t, humidity, ratio, 0.0, 0);
    case SeeDuty(t, humidity, duty, events) => LearningStaysPhysical(l.grids, t, humidity, 0.0, duty, events);
    case Load(stored) => LoadedIsPhysical(stored);
  }

  lemma RememberIsSmall(l: Learner, key: (real, real), value: real)
    requires |l.memo| <= FACTOR_MEMO_MAX
    ensures |Remember(l, key, value).memo| <= FACTOR_MEMO_MAX
  {
  }

  function Run(ops: seq<Op>): (l: Learner)
    ensures Honest(l)
  {
    if ops == [] then
      FreshIsHonest();
      Learner(Fresh(), map[])
    else
      var l := Run(ops[..|ops| - 1]);
      StepStaysHonest(l, ops[|ops| - 1]);
      Step(l, ops[|ops| - 1])
  }

  lemma FreshIsHonest()
    ensures Honest(Learner(Fresh(), map[]))
  {
  }

  /** After any interleaving of asking, learning and loading, an answer is the
      surface's on the current grids, inside the physical range: the memo shows
      nowhere. */
  lemma MemoIsInvisible(ops: seq<Op>, t: real, humidity: Option<real>)
    ensures var l, key := Run(ops), KeyOf(t, humidity);
            && Answer(l, t, humidity) == FactorAt(l.grids, key.0, key.1)
            && DERATE_MIN <= Answer(l, t, humidity) <= DERATE_MAX
  {
    hide FactorAt, Run, KeyOf, PhysicalGrids;
    var l, key := Run(ops), KeyOf(t, humidity);
    FactorInRange(l.grids, key.0, key.1);
  }

  /** And every reachable learner survives being saved and loaded. */
  lemma ReachableRoundTrip(ops: seq<Op>)
    ensures Loaded(AsStored(Run(ops).grids)) == Run(ops).grids
  {
    hide Run, Loaded, AsStored, PhysicalGrids;
    StoreRoundTrip(Run(ops).grids);
  }

  // ----- the code -------------------------------------------------------------------------------

  class DefrostDerate {
    var grids: Grids
    var memo: Memo
    var migrated: bool

    ghost function Abs(): Learner
      reads this
    {
      Learner(grids, memo)
    }

    constructor ()
      ensures Honest(Abs()) && grids == Fresh() && memo == map[] && !migrated
    {
      grids, memo, migrated := Fresh(), map[], false;
      new;
      FreshIsHonest();
    }

    constructor FromDict(stored: Stored)
      ensures Honest(Abs()) && grids == Loaded(stored) && memo == map[]
      ensures migrated == Migrated(stored)
    {
      grids, memo, migrated := Loaded(stored), map[], Migrated(stored);
      new;
      hide Loaded, PhysicalGrids;
      LoadedIsPhysical(stored);
    }

    method Factor(t: real, humidity: Option<real>) returns (f: real)
      requires Honest(Abs())
      modifies this`memo
      ensures Honest(Abs()) && Abs() == Step(old(Abs()), Ask(t, humidity))
      ensures f == FactorAt(grids, KeyOf(t, humidity).0, KeyOf(t, humidity).1)
      ensures DERATE_MIN <= f <= DERATE_MAX
      ensures f == FactorAt(grids, t, if humidity.Some? then humidity.value else 0.0) && |memo| <= 8192
    {
      hide FactorAt, PhysicalGrids;
      DryIsFlat(grids, t, 0.0);
      StepStaysHonest(Abs(), Ask(t, humidity));
      var key := KeyOf(t, humidity);
      FactorInRange(grids, key.0, key.1);
      if key in memo {
        return memo[key];
      }
      if |memo| >= FACTOR_MEMO_MAX {
        memo := map[];
      }
      f := FactorAt(grids, key.0, key.1);
      memo := memo[key := f];
    }

    method Observe(t: real, humidity: Option<real>, ratio: real)
      requires Honest(Abs())
      modifies this`grids, this`memo
      ensures Honest(Abs()) && Abs() == Step(old(Abs()), SeeRatio(t, humidity, ratio))
      ensures TaughtRatio(old(grids), grids, t, humidity, ratio)
    {
      hide FactorAt, PhysicalGrids, BucketAt, WithBucket, InferredBucket, TaughtRatio;
      Shape(grids);
      LearningIsLocal(grids, t, humidity, ratio, 0.0, 0);
      StepStaysHonest(Abs(), SeeRatio(t, humidity, ratio));
      if ratio <= 0.0 || ratio > 3.0 {
        return;
      }
      memo := map[];
      assert PhysicalGrids(grids) ==> |grids.dry| == 6 && |grids.humid| == 6 by { Shape(grids); }
      grids := WithBucket(grids, t, humidity, InferredBucket(BucketAt(grids, t, humidity), ratio));
    }

    method ObserveDuty(t: real, humidity: Option<real>, duty: real, events: int)
      requires Honest(Abs())
      modifies this`grids, this`memo
      ensures Honest(Abs()) && Abs() == Step(old(Abs()), SeeDuty(t, humidity, duty, events))
      ensures TaughtDuty(old(grids), grids, t, humidity, duty, events)
    {
      hide FactorAt, PhysicalGrids, BucketAt, WithBucket, MeasuredBucket, TaughtDuty;
      Shape(grids);
      LearningIsLocal(grids, t, humidity, 0.0, duty, events);
      StepStaysHonest(Abs(), SeeDuty(t, humidity, duty, events));
      if !(0.0 <= duty <= 1.0) {
        return;
      }
      memo := map[];
      assert PhysicalGrids(grids) ==> |grids.dry| == 6 && |grids.humid| == 6 by { Shape(grids); }
      grids := WithBucket(grids, t, humidity, MeasuredBucket(BucketAt(grids, t, humidity), duty, events));
    }
  }

  lemma Shape(g: Grids)
    ensures PhysicalGrids(g) ==> |g.dry| == 6 && |g.humid| == 6
  {
  }
}
