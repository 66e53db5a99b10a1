/** The hot-water usage learner of dhw_learning.py: the pooled profile and the two
    day-type profiles, what an observed draw teaches them, the blend the planner reads,
    and what a stored payload restores. */
module UsageLearner {
  import opened Options
  import opened ProfileProjection
  import opened Reals

  const DAYTYPE_BLEND_K: real := 14.0
  const DROP_MIN: real := 0.15
  const INTENSITY_MIN: real := 0.05
  const TANK_AMBIENT: real := 20.0
  const REFERENCE_DELTA: real := 25.0
  /** How far two shapes of one profile, both admitted, may differ in an hour. */
  const SLACK: real := 48.0 * TOLERANCE

  /** The part of a temperature drop standby loss does not explain, in degrees an hour. */
  function DrawIntensity(coolingRate: real, previousTemp: real, drop: real, hours: real): real
    requires hours > 0.0
  {
    var above := previousTemp - TANK_AMBIENT;
    drop / hours - coolingRate * (if above > 0.0 then above else 0.0) / REFERENCE_DELTA
  }

  function TaughtHour(x: real, intensity: real): real {
    (1.0 - EWMA_ALPHA) * x + EWMA_ALPHA * intensity
  }

  /** A profile with one hour moved towards the observed intensity, before projection. */
  function Taught(p: Profile, hour: nat, intensity: real): Profile
    requires hour < HOURS
  {
    p[hour := TaughtHour(p[hour], intensity)]
  }

  function BlendHour(a: real, b: real, w: real): real { Times(1.0 - w, a) + Times(w, b) }

  function Blend(a: Profile, b: Profile, w: real): (r: Profile)
    ensures forall i | 0 <= i < HOURS :: r[i] == BlendHour(a[i], b[i], w)
  {
    seq(HOURS, i requires 0 <= i < HOURS => BlendHour(a[i], b[i], w))
  }

  /** The trust in a day type after evidence on `n` days. */
  function Trust(n: nat): (w: real)
    ensures 0.0 <= w < 1.0
  {
    if n == 0 then 0.0
    else
      TrustIsAFraction(n as real);
      n as real / (n as real + DAYTYPE_BLEND_K)
  }

  lemma TrustIsAFraction(n: real)
    requires n > 0.0
    ensures 0.0 <= n / (n + DAYTYPE_BLEND_K) < 1.0
  {
    var q := n / (n + DAYTYPE_BLEND_K);
    assert q * (n + DAYTYPE_BLEND_K) == n;
  }

  /** The blend after evidence on `n` days counts the day type `n` times against the pooled
      profile's fourteen. */
  lemma BlendCounts(a: real, b: real, n: nat)
    ensures BlendHour(a, b, Trust(n)) * (n as real + 14.0) == 14.0 * a + n as real * b
  {
    hide Trust, Times;
    var total, w := n as real + 14.0, Trust(n);
    TrustCounts(n);
    TimesIs(1.0 - w, a);
    TimesIs(w, b);
    Collects(w, a, b, total, n as real);
  }

  /** Each hour counts the day type once a day against fourteen of the pooled profile. */
  predicate CountsDays(r: Profile, pooled: Profile, own: Profile, n: nat) {
    forall i | 0 <= i < HOURS :: r[i] * (n as real + 14.0) == 14.0 * pooled[i] + n as real * own[i]
  }

  lemma BlendCountsDays(pooled: Profile, own: Profile, n: nat)
    ensures CountsDays(Blend(pooled, own, Trust(n)), pooled, own, n)
    ensures n == 0 ==> CountsDays(pooled, pooled, own, n)
  {
    hide Trust, BlendHour;
    var r := Blend(pooled, own, Trust(n));
    forall i | 0 <= i < HOURS ensures r[i] * (n as real + 14.0) == 14.0 * pooled[i] + n as real * own[i] {
      BlendCounts(pooled[i], own[i], n);
    }
  }

  lemma TimesIs(x: real, y: real)
    ensures Times(x, y) == x * y
  {
  }

  lemma TrustCounts(n: nat)
    ensures Trust(n) * (n as real + 14.0) == n as real
  {
    if n > 0 {
      var total := n as real + 14.0;
      assert n as real / total * total == n as real;
    }
  }

  lemma Collects(w: real, a: real, b: real, total: real, n: real)
    requires w * total == n && total == n + 14.0
    ensures ((1.0 - w) * a + w * b) * total == 14.0 * a + n * b
  {
    assert (1.0 - w) * total == 14.0;
    assert ((1.0 - w) * a) * total == ((1.0 - w) * total) * a;
    assert (w * b) * total == (w * total) * b;
  }

  // ----- blending keeps the volume ----------------------------------------------------------

  lemma {:induction false} SumOfBlend(a: seq<real>, b: seq<real>, r: seq<real>, w: real)
    requires |a| == |b| == |r|
    requires forall i | 0 <= i < |a| :: r[i] == BlendHour(a[i], b[i], w)
    ensures Sum(r) == BlendHour(Sum(a), Sum(b), w)
  {
    hide BlendHour;
    if a != [] {
      var k := |a| - 1;
      SumOfBlend(a[..k], b[..k], r[..k], w);
      BlendAdds(Sum(a[..k]), Sum(b[..k]), a[k], b[k], w);
    } else {
      BlendOfNothing(w);
    }
  }

  lemma BlendOfNothing(w: real)
    ensures BlendHour(0.0, 0.0, w) == 0.0
  {
  }

  lemma BlendAdds(a: real, b: real, x: real, y: real, w: real)
    ensures BlendHour(a, b, w) + BlendHour(x, y, w) == BlendHour(a + x, b + y, w)
  {
    hide Times;
    TimesAdds(1.0 - w, a, x);
    TimesAdds(w, b, y);
  }

  lemma TimesAdds(w: real, x: real, y: real)
    ensures Times(w, x + y) == Times(w, x) + Times(w, y)
  {
  }

  lemma TimesOrdered(w: real, x: real, y: real)
    requires w >= 0.0 && x <= y
    ensures Times(w, x) <= Times(w, y)
  {
  }

  lemma TimesWhole(w: real, x: real)
    ensures Times(1.0 - w, x) + Times(w, x) == x
  {
  }

  lemma BlendBetween(a: real, b: real, w: real, lo: real, hi: real)
    requires 0.0 <= w <= 1.0 && lo <= a <= hi && lo <= b <= hi
    ensures lo <= BlendHour(a, b, w) <= hi
  {
    hide Times;
    TimesOrdered(w, lo, b);
    TimesOrdered(w, b, hi);
    TimesOrdered(1.0 - w, lo, a);
    TimesOrdered(1.0 - w, a, hi);
    TimesWhole(w, lo);
    TimesWhole(w, hi);
  }

  /** A blend of two admitted profiles is admitted as it stands. */
  lemma BlendIsAdmitted(a: Profile, b: Profile, w: real)
    requires Admitted(a) && Admitted(b) && 0.0 <= w <= 1.0
    ensures Admitted(Blend(a, b, w))
  {
    hide Sum, BlendHour;
    var r := Blend(a, b, w);
    forall i | 0 <= i < HOURS ensures LO <= r[i] <= HI {
      BlendBetween(a[i], b[i], w, LO, HI);
    }
    SumOfBlend(a, b, r, w);
    var day := HOURS as real;
    BlendBetween(Sum(a), Sum(b), w, day * (1.0 - TOLERANCE), day * (1.0 + TOLERANCE));
  }

  // ----- what one draw teaches ---------------------------------------------------------------

  lemma TaughtBase(p: Profile, hour: nat, intensity: real, fallback: Profile)
    requires Admitted(p) && hour < HOURS
    ensures Base(AsWritten(Taught(p, hour, intensity)), fallback) == ClipAll(Taught(p, hour, intensity))
    ensures forall i | 0 <= i < HOURS && i != hour :: ClipAll(Taught(p, hour, intensity))[i] == p[i]
  {
    hide Mean;
    var t := Taught(p, hour, intensity);
    assert Finite(AsWritten(t)) == t;
  }

  lemma ShrunkHour(x: real, s: real)
    requires LO <= x <= HI && s <= 1.0
    ensures ScaledHour(x, s) <= x
  {
    Product(x, s, 1.0);
    ClipGap(x * s, x, x - x * s);
  }

  lemma GrownHour(x: real, s: real)
    requires LO <= x <= HI && 1.0 <= s
    ensures x <= ScaledHour(x, s)
  {
    Product(x, 1.0, s);
    ClipGap(x, x * s, x * s - x);
  }

  /** Two admitted profiles, one never above the other, agree to within the slack. */
  lemma OrderedAgree(p: Profile, q: Profile, i: nat)
    requires i < HOURS && Abs(Mean(p) - 1.0) <= TOLERANCE && Abs(Mean(q) - 1.0) <= TOLERANCE
    requires forall k | 0 <= k < HOURS :: p[k] <= q[k]
    ensures q[i] <= p[i] + SLACK
  {
    hide Sum;
    SumOrdered(p, q, i);
  }

  /** Raising one hour and projecting: that hour does not fall and no other rises. */
  lemma RaisedHour(p: Profile, t: Profile, q: Profile, hour: nat, i: nat)
    requires Admitted(p) && Admitted(q) && InBounds(t) && SameShape(t, q) && hour < HOURS && i < HOURS
    requires t[hour] >= p[hour] && forall k | 0 <= k < HOURS && k != hour :: t[k] == p[k]
    ensures if i == hour then q[i] >= p[i] - SLACK else q[i] <= p[i] + SLACK
  {
    hide Clip, ScaledHour, Mean, ClipScaled;
    var s :| s > 0.0 && q == ClipScaled(t, s);
    forall k | 0 <= k < HOURS
      ensures if s <= 1.0 then q[k] <= t[k] else t[k] <= q[k]
    {
      if s <= 1.0 { ShrunkHour(t[k], s); } else { GrownHour(t[k], s); }
    }
    if s > 1.0 {
      OrderedAgree(p, q, i);
    } else if q[hour] <= p[hour] {
      OrderedAgree(q, p, i);
    }
  }

  /** Lowering one hour and projecting: that hour does not rise and no other falls. */
  lemma LoweredHour(p: Profile, t: Profile, q: Profile, hour: nat, i: nat)
    requires Admitted(p) && Admitted(q) && InBounds(t) && SameShape(t, q) && hour < HOURS && i < HOURS
    requires t[hour] <= p[hour] && forall k | 0 <= k < HOURS && k != hour :: t[k] == p[k]
    ensures if i == hour then q[i] <= p[i] + SLACK else q[i] >= p[i] - SLACK
  {
    hide Clip, ScaledHour, Mean, ClipScaled;
    var s :| s > 0.0 && q == ClipScaled(t, s);
    forall k | 0 <= k < HOURS
      ensures if s <= 1.0 then q[k] <= t[k] else t[k] <= q[k]
    {
      if s <= 1.0 { ShrunkHour(t[k], s); } else { GrownHour(t[k], s); }
    }
    if s <= 1.0 {
      OrderedAgree(q, p, i);
    } else if q[hour] >= p[hour] {
      OrderedAgree(p, q, i);
    }
  }

  /** One hour twelve hundredths of the way to the observed intensity, every other as it was. */
  predicate Nudged(p: Profile, hour: nat, intensity: real, t: Profile)
    requires hour < HOURS
  {
    && t[hour] - p[hour] == 0.12 * (intensity - p[hour])
    && forall i | 0 <= i < HOURS && i != hour :: t[i] == p[i]
  }

  lemma TaughtNudges(p: Profile, hour: nat, intensity: real, t: Profile)
    requires hour < HOURS
    ensures Nudged(p, hour, intensity, t) <==> t == Taught(p, hour, intensity)
  {
  }

  /** `q` is what a draw of this intensity in this hour makes of `p`: the nudged profile's
      shape, admitted. */
  ghost predicate Learned(p: Profile, hour: nat, intensity: real, q: Profile)
    requires hour < HOURS
  {
    Admitted(q) && exists t: Profile :: Nudged(p, hour, intensity, t) && SameShape(ClipAll(t), q)
  }

  /** The intensity of a draw: with what standby loss takes in the interval, it makes up the
      observed drop. */
  predicate Explains(intensity: real, coolingRate: real, previousTemp: real, drop: real, hours: real) {
    intensity * hours + StandbyLoss(coolingRate, previousTemp, hours) == drop
  }

  /** What standby takes off a tank in an interval: the learned rate, in proportion to how far
      the tank is above its room's 20 degrees, from the 25 the rate is for. */
  function StandbyLoss(coolingRate: real, previousTemp: real, hours: real): real {
    if previousTemp <= 20.0 then 0.0 else coolingRate * (previousTemp - 20.0) * hours / 25.0
  }

  lemma IntensityExplains(coolingRate: real, previousTemp: real, drop: real, hours: real)
    requires hours > 0.0
    ensures Explains(DrawIntensity(coolingRate, previousTemp, drop, hours), coolingRate, previousTemp, drop, hours)
  {
    assert drop / hours * hours == drop;
    if previousTemp > 20.0 {
      LossOver(coolingRate * (previousTemp - 20.0), hours);
    }
  }

  lemma LossOver(x: real, hours: real)
    ensures x / 25.0 * hours == x * hours / 25.0
  {
  }

  /** Too little to be a draw: within five hundredths of a degree an hour of the standby
      loss. */
  lemma WithinLossIff(intensity: real, coolingRate: real, previousTemp: real, drop: real, hours: real)
    requires hours > 0.0 && Explains(intensity, coolingRate, previousTemp, drop, hours)
    ensures intensity <= 0.05 <==> drop <= StandbyLoss(coolingRate, previousTemp, hours) + 0.05 * hours
  {
    hide StandbyLoss;
    HoursOrder(intensity, 0.05, hours);
  }

  lemma HoursOrder(x: real, y: real, hours: real)
    requires hours > 0.0
    ensures x <= y <==> x * hours <= y * hours
  {
  }

  lemma ClipTaught(x: real, intensity: real)
    requires LO <= x <= HI
    ensures intensity >= x ==> Clip(TaughtHour(x, intensity)) >= x
    ensures intensity <= x ==> Clip(TaughtHour(x, intensity)) <= x
  {
  }

  /** A draw above what an hour had learned never lowers that hour or raises another; one
      below never raises it or lowers another. */
  lemma EvidenceMovesItsHour(p: Profile, hour: nat, intensity: real, q: Profile, i: nat)
    requires Admitted(p) && hour < HOURS && i < HOURS && Learned(p, hour, intensity, q)
    ensures intensity >= p[hour] ==> if i == hour then q[i] >= p[i] - SLACK else q[i] <= p[i] + SLACK
    ensures intensity <= p[hour] ==> if i == hour then q[i] <= p[i] + SLACK else q[i] >= p[i] - SLACK
  {
    hide Clip, TaughtHour, Mean, SameShape;
    var r: Profile :| Nudged(p, hour, intensity, r) && SameShape(ClipAll(r), q);
    TaughtNudges(p, hour, intensity, r);
    TaughtBase(p, hour, intensity, p);
    ClipTaught(p[hour], intensity);
    var t := ClipAll(Taught(p, hour, intensity));
    if intensity >= p[hour] { RaisedHour(p, t, q, hour, i); }
    if intensity <= p[hour] { LoweredHour(p, t, q, hour, i); }
  }

  // ----- the learner ---------------------------------------------------------------------------

  /** What a stored payload holds for one profile: its list and its day count, either
      possibly missing or unreadable. */
  datatype StoredProfile = StoredProfile(hours: Option<Written>, days: Option<int>)

  function DaysOf(days: Option<int>): nat { if days.Some? && days.value > 0 then days.value else 0 }

  /** The day-type half of a learner. */
  datatype DayType = DayType(profile: Profile, samples: nat, lastDay: Option<int>)

  class UsageLearner {
    var hourly: Profile
    var weekday: DayType
    var weekend: DayType

    /** Every profile held is admitted. */
    predicate Valid()
      reads this
    {
      Admitted(hourly) && Admitted(weekday.profile) && Admitted(weekend.profile)
    }

    constructor (shipped: Profile)
      ensures Valid() && SameShape(ClipAll(shipped), hourly)
      ensures weekday == weekend == DayType(hourly, 0, None)
    {
      hide SameShape, Admitted, Clip;
      assert Finite(AsWritten(shipped)) == shipped;
      var p := NormalizeProfile(AsWritten(shipped), shipped);
      hourly := p;
      weekday := DayType(p, 0, None);
      weekend := DayType(p, 0, None);
    }

    /** One observed interval. `published` is the pattern the planner holds. */
    method LearnUsage(coolingRate: real, previousTemp: real, drop: real, hours: real, hour: nat, heated: bool,
                      isWeekend: bool, today: int, published: Profile)
      requires Valid() && hours > 0.0 && hour < HOURS
      modifies this
      ensures Valid()
      ensures var before, after := if isWeekend then old(weekend) else old(weekday),
                                   if isWeekend then weekend else weekday;
              && (if isWeekend then weekday == old(weekday) else weekend == old(weekend))
              && (if heated || drop < 0.15 || drop <= StandbyLoss(coolingRate, previousTemp, hours) + 0.05 * hours
                  then hourly == old(hourly) && after == before
                  else
                    && after.lastDay == Some(today)
                    && after.samples == before.samples + (if before.lastDay == Some(today) then 0 else 1)
                    && exists intensity :: Explains(intensity, coolingRate, previousTemp, drop, hours)
                         && Learned(old(hourly), hour, intensity, hourly)
                         && Learned(before.profile, hour, intensity, after.profile))
    {
      hide SameShape, Admitted, Taught, DrawIntensity, ClipAll, StandbyLoss, Nudged, Explains;
      IntensityExplains(coolingRate, previousTemp, drop, hours);
      WithinLossIff(DrawIntensity(coolingRate, previousTemp, drop, hours), coolingRate, previousTemp, drop, hours);
      if drop < DROP_MIN || heated { return; }
      var intensity := DrawIntensity(coolingRate, previousTemp, drop, hours);
      if intensity <= INTENSITY_MIN { return; }
      TaughtNudges(hourly, hour, intensity, Taught(hourly, hour, intensity));
      TaughtBase(hourly, hour, intensity, published);
      hourly := NormalizeProfile(AsWritten(Taught(hourly, hour, intensity)), published);
      var d := if isWeekend then weekend else weekday;
      TaughtNudges(d.profile, hour, intensity, Taught(d.profile, hour, intensity));
      TaughtBase(d.profile, hour, intensity, hourly);
      var p := NormalizeProfile(AsWritten(Taught(d.profile, hour, intensity)), hourly);
      d := DayType(p, if d.lastDay == Some(today) then d.samples else d.samples + 1, Some(today));
      if isWeekend { weekend := d; } else { weekday := d; }
    }

    /** The pattern for one day type: pooled until the day type has evidence, then the
        blend itself; the projection it passes through changes nothing. */
    method PatternFor(isWeekend: bool, published: Profile) returns (r: Profile)
      requires Valid()
      ensures Admitted(r)
      ensures var d := if isWeekend then weekend else weekday;
              && r == (if d.samples == 0 then hourly else Blend(hourly, d.profile, Trust(d.samples)))
              && CountsDays(r, hourly, d.profile, d.samples)
    {
      hide SameShape, Admitted, Blend, CountsDays;
      var d := if isWeekend then weekend else weekday;
      BlendCountsDays(hourly, d.profile, d.samples);
      if d.samples == 0 { return hourly; }
      var blended := Blend(hourly, d.profile, Trust(d.samples));
      BlendIsAdmitted(hourly, d.profile, Trust(d.samples));
      AdmittedIsItsBase(blended, published);
      r := NormalizeProfile(AsWritten(blended), published);
    }

    /** Restores one day type of a payload. */
    static method RestoreDayType(was: DayType, stored: StoredProfile, published: Profile) returns (d: DayType)
      requires Admitted(was.profile)
      ensures Admitted(d.profile) && Restored(was, stored, published, d)
    {
      hide SameShape, Admitted, Base;
      d := was;
      if stored.hours.Some? && |stored.hours.value| == HOURS {
        var profile := NormalizeProfile(stored.hours.value, published);
        d := DayType(profile, DaysOf(stored.days), was.lastDay);
      }
    }

    /** Restores a payload over the learner: any payload leaves every profile admitted,
        and what it does not hold as a list of 24 is kept. */
    method ApplyPayload(pooled: Option<Written>, weekdays: StoredProfile, weekends: StoredProfile, published: Profile)
      requires Valid()
      modifies this
      ensures Valid()
      ensures RestoredProfile(old(hourly), pooled, published, hourly)
      ensures var pattern := if pooled.Some? && |pooled.value| == HOURS then hourly else published;
              Restored(old(weekday), weekdays, pattern, weekday) && Restored(old(weekend), weekends, pattern, weekend)
    {
      hide SameShape, Admitted, Base, Restored;
      var pattern := published;
      if pooled.Some? && |pooled.value| == HOURS {
        hourly := NormalizeProfile(pooled.value, published);
        pattern := hourly;
      }
      weekday := RestoreDayType(weekday, weekdays, pattern);
      weekend := RestoreDayType(weekend, weekends, pattern);
    }
  }

  /** `q` is what restoring `stored` over `was` leaves. */
  ghost predicate RestoredProfile(was: Profile, stored: Option<Written>, published: Profile, q: Profile) {
    if stored.Some? && |stored.value| == HOURS
    then
      && Admitted(q) && SameShape(Base(stored.value, published), q)
      && (Admitted(Base(stored.value, published)) ==> q == Base(stored.value, published))
    else q == was
  }

  ghost predicate Restored(was: DayType, stored: StoredProfile, published: Profile, d: DayType) {
    && RestoredProfile(was.profile, stored.hours, published, d.profile)
    && d.lastDay == was.lastDay
    && d.samples == (if stored.hours.Some? && |stored.hours.value| == HOURS then DaysOf(stored.days) else was.samples)
  }

  /** A restart never reshapes a profile: what a valid learner stored comes back exactly. */
  lemma RestartKeepsProfile(was: DayType, p: Profile, days: nat, published: Profile, d: DayType)
    requires Admitted(p) && Restored(was, StoredProfile(Some(AsWritten(p)), Some(days)), published, d)
    ensures d.profile == p && d.samples == days
  {
    hide SameShape, Admitted, Base;
    AdmittedIsItsBase(p, published);
  }
}
