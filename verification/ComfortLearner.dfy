/** The comfort-weight learner of comfort_learning.py: override and quiet-period evidence,
    its decay, and the adjustments it pays for. Instants are exact days; the half-life's
    value at an elapsed time is a parameter in (0, 1]. */
module ComfortLearner {
  import opened Options
  import opened Reals

  const WEIGHT_MIN: real := 1.0
  const WEIGHT_MAX: real := 40.0
  const LEARNING_RATE: real := 0.06
  const EVIDENCE_THRESHOLD: real := 2.0
  const MIN_OVERRIDE_DELTA: real := 0.3
  const FLAT_BAND_FRACTION: real := 0.25
  const QUIET_PER_DAY: real := 0.35

  function Sign(x: real): real { if x < 0.0 then -1.0 else if x > 0.0 then 1.0 else 0.0 }
  function Min(x: real, y: real): real { if x < y then x else y }
  function Clip(x: real, lo: real, hi: real): real { if x < lo then lo else if x > hi then hi else x }

  datatype State = State(configured: real, weight: real, evidence: real, overrides: nat, lastUpdate: Option<real>)

  datatype Event =
    | Override(now: real, delta: real, price: real, decay: real)
    | Quiet(now: real, span: real, band: real, days: real, decay: real)
    | Forget

  /** The decay a caller may find: any factor the half-life can give. */
  predicate Decays(e: Event) { e.Forget? || 0.0 < e.decay <= 1.0 }

  /** How much an override says: its size, weighted by the relative price. */
  function Strength(delta: real, price: real): real { Times(Min(Abs(delta), 3.0), Clip(price, 0.5, 2.5)) }

  /** What an override adds to the evidence, signed. */
  function OverrideEvidence(delta: real, price: real): real {
    if Abs(delta) < MIN_OVERRIDE_DELTA then 0.0
    else Times(Sign(delta), Strength(delta, price))
  }

  predicate QuietCounts(e: Event)
    requires e.Quiet?
  {
    !(e.band <= 0.0 || e.days <= 0.0) && e.span <= e.band * FLAT_BAND_FRACTION
  }

  function Contribution(e: Event): real {
    match e
    case Override(_, delta, price, _) => OverrideEvidence(delta, price)
    case Quiet(_, _, _, days, _) => if QuietCounts(e) then -(QUIET_PER_DAY * Min(days, 7.0)) else 0.0
    case Forget => 0.0
  }

  function Decayed(s: State, now: real, decay: real): State {
    if s.lastUpdate.None? then s.(lastUpdate := Some(now))
    else if now - s.lastUpdate.value <= 0.0 then s
    else s.(evidence := Times(s.evidence, decay), lastUpdate := Some(now))
  }

  predicate Adjusts(s: State) { Abs(s.evidence) >= EVIDENCE_THRESHOLD }

  function StepSize(evidence: real): real { LEARNING_RATE * Min(Abs(evidence), 6.0) }

  function Factor(evidence: real): real { 1.0 + Times(Sign(evidence), StepSize(evidence)) }

  function Moved(w: real, evidence: real): real { Clip(Times(w, Factor(evidence)), WEIGHT_MIN, WEIGHT_MAX) }

  function Adjusted(s: State, now: real): State {
    if !Adjusts(s) then s
    else
      s.(weight := Moved(s.weight, s.evidence),
         evidence := s.evidence - Sign(s.evidence) * EVIDENCE_THRESHOLD,
         lastUpdate := Some(now))
  }

  /** The state with the event's evidence in, before any adjustment. */
  function Heard(s: State, e: Event): State {
    match e
    case Override(now, _, _, decay) =>
      var d := Decayed(s, now, decay);
      if Contribution(e) == 0.0 then d
      else d.(evidence := d.evidence + Contribution(e), overrides := d.overrides + 1)
    case Quiet(now, _, _, _, decay) =>
      if !QuietCounts(e) then s
      else
        var d := Decayed(s, now, decay);
        d.(evidence := d.evidence + Contribution(e))
    case Forget => s.(weight := s.configured, evidence := 0.0, overrides := 0)
  }

  /** Whether the event reaches the adjustment at all. */
  predicate Reaches(e: Event) { !e.Forget? && Contribution(e) != 0.0 }

  function Next(s: State, e: Event): State {
    if Reaches(e) then Adjusted(Heard(s, e), e.now) else Heard(s, e)
  }

  predicate Fires(s: State, e: Event) { Reaches(e) && Adjusts(Heard(s, e)) }

  function After(s: State, run: seq<Event>): State
    decreases |run|
  {
    if run == [] then s else After(Next(s, run[0]), run[1..])
  }

  predicate AllDecay(run: seq<Event>) { forall i | 0 <= i < |run| :: Decays(run[i]) }

  // ----- evidence is never spent twice --------------------------------------------------------

  /** The part of some evidence that asks for more comfort, or for less. */
  function Part(x: real, up: bool): real {
    if up then (if x > 0.0 then x else 0.0) else (if x < 0.0 then -x else 0.0)
  }

  predicate FiresTowards(s: State, e: Event, up: bool) {
    Fires(s, e) && (Heard(s, e).evidence > 0.0 <==> up)
  }

  /** The adjustments of one direction over a run. */
  function Fired(s: State, run: seq<Event>, up: bool): nat
    decreases |run|
  {
    if run == [] then 0 else (if FiresTowards(s, run[0], up) then 1 else 0) + Fired(Next(s, run[0]), run[1..], up)
  }

  /** The evidence a run brings in one direction. */
  function Brought(run: seq<Event>, up: bool): real {
    if run == [] then 0.0 else Part(Contribution(run[0]), up) + Brought(run[1..], up)
  }

  lemma DecayShrinks(x: real, decay: real, up: bool)
    requires 0.0 < decay <= 1.0
    ensures Part(Times(x, decay), up) <= Part(x, up)
  {
    if x >= 0.0 {
      Scaled(x, decay, 0.0, 1.0);
    } else {
      Scaled(-x, decay, 0.0, 1.0);
      assert Times(-x, decay) == -Times(x, decay);
    }
  }

  lemma HeardBounded(s: State, e: Event, up: bool)
    requires Decays(e)
    ensures Part(Heard(s, e).evidence, up) <= Part(s.evidence, up) + Part(Contribution(e), up)
  {
    hide OverrideEvidence, QuietCounts, Contribution;
    if !e.Forget? {
      DecayShrinks(s.evidence, e.decay, up);
    }
  }

  /** One event: what an adjustment spends plus what stays never exceeds what was there
      plus what came in, in each direction on its own. */
  lemma SpentOnce(s: State, e: Event, up: bool)
    requires Decays(e)
    ensures (if FiresTowards(s, e, up) then EVIDENCE_THRESHOLD else 0.0) + Part(Next(s, e).evidence, up)
            <= Part(s.evidence, up) + Part(Contribution(e), up)
  {
    hide Contribution, Heard, Moved;
    HeardBounded(s, e, up);
  }

  /** Over any sequence of overrides, quiet periods, decays and resets, each adjustment is
      paid for by its own two units of evidence in its own direction. */
  lemma {:induction false} EvidenceNeverSpentTwice(s: State, run: seq<Event>, up: bool)
    requires AllDecay(run)
    ensures EVIDENCE_THRESHOLD * Fired(s, run, up) as real + Part(After(s, run).evidence, up)
            <= Part(s.evidence, up) + Brought(run, up)
    decreases |run|
  {
    hide Next, FiresTowards, Contribution, Part, Decays;
    if run != [] {
      SpentOnce(s, run[0], up);
      EvidenceNeverSpentTwice(Next(s, run[0]), run[1..], up);
      var one: nat := if FiresTowards(s, run[0], up) then 1 else 0;
      var rest := Fired(Next(s, run[0]), run[1..], up);
      assert (one + rest) as real == one as real + rest as real;
    }
  }

  /** Both directions together, from a learner without evidence. */
  lemma EvidenceBudget(s: State, run: seq<Event>)
    requires AllDecay(run) && s.evidence == 0.0
    ensures EVIDENCE_THRESHOLD * (Fired(s, run, true) + Fired(s, run, false)) as real + Abs(After(s, run).evidence)
            <= Brought(run, true) + Brought(run, false)
  {
    hide After, Fired, Brought, AllDecay;
    EvidenceNeverSpentTwice(s, run, true);
    EvidenceNeverSpentTwice(s, run, false);
    var ups, downs := Fired(s, run, true), Fired(s, run, false);
    assert (ups + downs) as real == ups as real + downs as real;
  }

  // ----- the weight -----------------------------------------------------------------------------

  lemma Scaled(w: real, f: real, lo: real, hi: real)
    requires w >= 0.0 && lo <= f <= hi
    ensures w * lo <= Times(w, f) <= w * hi
  {
    assert w * (f - lo) >= 0.0 && w * (hi - f) >= 0.0;
  }

  /** The weight follows the evidence: up by at most 0.36 of itself, or down by as much. */
  predicate FollowsBy(w: real, moved: real, up: bool) {
    if up then w <= moved <= 1.36 * w else 0.64 * w <= moved <= w
  }

  /** The weights an adjustment can move without its clip working against it. */
  predicate Movable(w: real, up: bool) {
    if up then WEIGHT_MIN <= 1.36 * w && w <= WEIGHT_MAX else WEIGHT_MIN <= w && 0.64 * w <= WEIGHT_MAX
  }

  lemma Between(w: real, f: real, lo: real, hi: real)
    requires lo <= f <= hi
    ensures if w >= 0.0 then w * lo <= Times(w, f) <= w * hi else w * hi <= Times(w, f) <= w * lo
  {
    if w >= 0.0 {
      Scaled(w, f, lo, hi);
    } else {
      Scaled(-w, f, lo, hi);
      assert Times(-w, f) == -Times(w, f);
    }
  }

  lemma MovedUpIff(w: real, evidence: real)
    requires evidence >= EVIDENCE_THRESHOLD
    ensures FollowsBy(w, Moved(w, evidence), true) <==> Movable(w, true)
    ensures InBoundsWeight(w) ==> Moved(w, evidence) == WEIGHT_MAX || 1.12 * w <= Moved(w, evidence)
  {
    hide Times, Factor;
    FactorBounds(evidence);
    Between(w, Factor(evidence), 1.12, 1.36);
  }

  lemma MovedDownIff(w: real, evidence: real)
    requires evidence <= -EVIDENCE_THRESHOLD
    ensures FollowsBy(w, Moved(w, evidence), false) <==> Movable(w, false)
    ensures InBoundsWeight(w) ==> Moved(w, evidence) == WEIGHT_MIN || Moved(w, evidence) <= 0.88 * w
  {
    hide Times, Factor;
    FactorBounds(evidence);
    Between(w, Factor(evidence), 0.64, 0.88);
  }

  predicate InBoundsWeight(w: real) { WEIGHT_MIN <= w <= WEIGHT_MAX }

  lemma FactorBounds(evidence: real)
    ensures evidence >= EVIDENCE_THRESHOLD ==> 1.12 <= Factor(evidence) <= 1.36
    ensures evidence <= -EVIDENCE_THRESHOLD ==> 0.64 <= Factor(evidence) <= 0.88
  {
    var step := StepSize(evidence);
    assert Times(1.0, step) == step && Times(-1.0, step) == -step;
  }

  lemma WeightAfter(s: State, e: Event)
    ensures Next(s, e).weight ==
      if e.Forget? then s.configured else if Fires(s, e) then Moved(s.weight, Heard(s, e).evidence) else s.weight
    ensures Fires(s, e) ==> !e.Forget? && Abs(Heard(s, e).evidence) >= EVIDENCE_THRESHOLD
  {
    hide Contribution, QuietCounts, Moved;
  }

  /** For any weight: an adjustment follows the evidence by a factor change of at most
      0.36 exactly when the weight before it is movable that way, and then by at least
      0.12 unless it reaches a bound; nothing but a reset moves the weight otherwise. */
  lemma AdjustmentFollowsEvidence(s: State, e: Event)
    ensures e.Forget? ==> Next(s, e).weight == s.configured
    ensures !e.Forget? && !Fires(s, e) ==> Next(s, e).weight == s.weight
    ensures Fires(s, e) ==>
              (FollowsBy(s.weight, Next(s, e).weight, Heard(s, e).evidence > 0.0)
               <==> Movable(s.weight, Heard(s, e).evidence > 0.0))
    ensures Fires(s, e) && InBounds(s) && Heard(s, e).evidence > 0.0 ==>
              Next(s, e).weight == WEIGHT_MAX || 1.12 * s.weight <= Next(s, e).weight
    ensures Fires(s, e) && InBounds(s) && Heard(s, e).evidence <= 0.0 ==>
              Next(s, e).weight == WEIGHT_MIN || Next(s, e).weight <= 0.88 * s.weight
  {
    hide Next, Heard, Moved, Fires, FollowsBy, Movable;
    WeightAfter(s, e);
    if Fires(s, e) {
      if Heard(s, e).evidence > 0.0 { MovedUpIff(s.weight, Heard(s, e).evidence); }
      else { MovedDownIff(s.weight, Heard(s, e).evidence); }
    } else if e.Forget? {
      assert Next(s, e).weight == s.configured;
    }
  }

  predicate InBounds(s: State) { InBoundsWeight(s.weight) }

  predicate Follows(s: State, e: Event) {
    Fires(s, e) ==> FollowsBy(s.weight, Next(s, e).weight, Heard(s, e).evidence > 0.0)
  }

  predicate AllFollow(s: State, run: seq<Event>)
    decreases |run|
  {
    run != [] ==> Follows(s, run[0]) && AllFollow(Next(s, run[0]), run[1..])
  }

  /** A learner as it is made for a configured weight. */
  function Made(configured: real): State { State(configured, configured, 0.0, 0, None) }

  lemma {:induction false} BoundedFollows(s: State, run: seq<Event>)
    requires InBounds(s) && InBoundsWeight(s.configured)
    ensures AllFollow(s, run)
    decreases |run|
  {
    hide Next, Heard, Fires, FollowsBy;
    if run != [] {
      AdjustmentFollowsEvidence(s, run[0]);
      StaysBounded(s, run[0]);
      BoundedFollows(Next(s, run[0]), run[1..]);
    }
  }

  lemma StaysBounded(s: State, e: Event)
    requires InBounds(s) && InBoundsWeight(s.configured)
    ensures InBounds(Next(s, e)) && Next(s, e).configured == s.configured
  {
    hide Contribution, QuietCounts, Factor;
  }

  /** An override of two degrees at the mean price: evidence of exactly two. */
  function TwoDegrees(up: bool): Event { Override(0.0, if up then 2.0 else -2.0, 1.0, 1.0) }

  lemma TwoDegreesFire(configured: real, up: bool)
    ensures Fires(Made(configured), TwoDegrees(up)) && (Heard(Made(configured), TwoDegrees(up)).evidence > 0.0 <==> up)
  {
    assert Contribution(TwoDegrees(up)) == if up then 2.0 else -2.0;
  }

  /** The budget is tight: one such override is spent to the last unit, and forgetting brings nothing. */
  lemma BudgetIsTight(configured: real, up: bool)
    ensures var run := [TwoDegrees(up), Forget];
            && AllDecay(run)
            && EVIDENCE_THRESHOLD * Fired(Made(configured), run, up) as real == Brought(run, up) == 2.0
            && After(Made(configured), run) == Made(configured).(lastUpdate := Some(0.0))
  {
    hide Moved;
    TwoDegreesFire(configured, up);
    var s := Next(Made(configured), TwoDegrees(up));
    assert Contribution(TwoDegrees(up)) == if up then 2.0 else -2.0;
    assert [TwoDegrees(up), Forget][1..] == [Forget] && [Forget][1..] == [];
    assert Fired(s, [Forget], up) == 0 && Brought([Forget], up) == 0.0;
    assert After(s, [Forget]) == Next(s, Forget);
  }

  ghost predicate AlwaysFollows(configured: real) {
    forall run: seq<Event> :: AllFollow(Made(configured), run)
  }

  /** In every run, for every configured weight: all adjustments follow the evidence
      exactly when the configured weight is itself within the bounds. */
  lemma FollowsInEveryRunIff(configured: real)
    ensures AlwaysFollows(configured) <==> InBoundsWeight(configured)
  {
    hide Next, Heard, Fires, FollowsBy, Movable;
    if InBoundsWeight(configured) {
      forall run: seq<Event> ensures AllFollow(Made(configured), run) {
        BoundedFollows(Made(configured), run);
      }
    } else {
      var up := configured > WEIGHT_MAX;
      TwoDegreesFire(configured, up);
      AdjustmentFollowsEvidence(Made(configured), TwoDegrees(up));
      NotMovable(configured);
      assert (Heard(Made(configured), TwoDegrees(up)).evidence > 0.0) == up;
      var run := [TwoDegrees(up)];
      assert run[0] == TwoDegrees(up) && !Follows(Made(configured), run[0]);
      assert !AllFollow(Made(configured), run);
    }
  }

  lemma NotMovable(configured: real)
    requires !InBoundsWeight(configured)
    ensures !Movable(configured, configured > WEIGHT_MAX)
  {
  }

  predicate NoResets(run: seq<Event>) { forall i | 0 <= i < |run| :: !run[i].Forget? }

  /** From the first adjustment on, whatever the configured weight, the weight is in
      bounds until a reset. */
  lemma {:induction false} InBoundsSinceAdjustment(s: State, run: seq<Event>)
    requires NoResets(run) && (InBounds(s) || Fired(s, run, true) + Fired(s, run, false) > 0)
    ensures InBounds(After(s, run))
    decreases |run|
  {
    hide Heard, Contribution, Moved;
    if run != [] {
      FiringBounds(s, run[0]);
      InBoundsSinceAdjustment(Next(s, run[0]), run[1..]);
    }
  }

  lemma FiringBounds(s: State, e: Event)
    requires !e.Forget?
    ensures InBounds(s) || Fires(s, e) ==> InBounds(Next(s, e))
    ensures !Fires(s, e) ==> Next(s, e).weight == s.weight
  {
    hide Next, Heard, Fires, Factor;
    WeightAfter(s, e);
  }

  // ----- a complaint and the quiet after it -----------------------------------------------------

  /** A quiet period that counts, with some decay before it. */
  predicate IsQuiet(e: Event) { e.Quiet? && QuietCounts(e) && Decays(e) }

  predicate AllQuiet(quiets: seq<Event>) { forall i | 0 <= i < |quiets| :: IsQuiet(quiets[i]) }

  /** The days of quiet the code counts: at most a week a record. */
  function QuietDays(quiets: seq<Event>): (days: real)
    requires AllQuiet(quiets)
    ensures days >= 0.0
  {
    if quiets == [] then 0.0 else Min(quiets[0].days, 7.0) + QuietDays(quiets[1..])
  }

  /** The quiet has won: the evidence asks for less comfort, or has already been spent on
      an adjustment that does. */
  predicate Outweighed(s: State, quiets: seq<Event>) {
    After(s, quiets).evidence < 0.0 || Fired(s, quiets, false) > 0
  }

  /** One quiet record: the evidence it leaves, and what an adjustment then spends. */
  lemma QuietStep(s: State, q: Event)
    requires IsQuiet(q)
    ensures var h, n := Heard(s, q).evidence, Next(s, q).evidence;
            && (s.evidence >= 0.0 ==> h <= s.evidence - QUIET_PER_DAY * Min(q.days, 7.0))
            && (s.evidence < 0.0 ==> h < 0.0)
            && n == (if h >= EVIDENCE_THRESHOLD then h - EVIDENCE_THRESHOLD
                     else if h <= -EVIDENCE_THRESHOLD then h + EVIDENCE_THRESHOLD else h)
            && (FiresTowards(s, q, false) <==> h <= -EVIDENCE_THRESHOLD)
    ensures 0.0 < Min(q.days, 7.0) <= 7.0
  {
    hide OverrideEvidence, Times, Moved;
    if s.evidence >= 0.0 {
      Scaled(s.evidence, q.decay, 0.0, 1.0);
    } else {
      Scaled(-s.evidence, q.decay, 0.0, 1.0);
      Negated(s.evidence, q.decay);
    }
  }

  lemma Negated(x: real, y: real)
    ensures Times(-x, y) == -Times(x, y)
  {
  }

  /** Evidence below zero stays outweighed. */
  lemma {:induction false} NegativeStays(s: State, quiets: seq<Event>)
    requires AllQuiet(quiets) && s.evidence < 0.0
    ensures Outweighed(s, quiets)
    decreases |quiets|
  {
    hide Next, Heard, IsQuiet, FiresTowards;
    if quiets != [] {
      QuietStep(s, quiets[0]);
      if !FiresTowards(s, quiets[0], false) {
        NegativeStays(Next(s, quiets[0]), quiets[1..]);
      }
    }
  }

  /** Any evidence is outweighed by quiet worth more than it, however the quiet is
      recorded, whatever has decayed and whatever was spent on the way. */
  lemma {:induction false} QuietOutweighs(s: State, quiets: seq<Event>)
    requires AllQuiet(quiets) && s.evidence < QUIET_PER_DAY * QuietDays(quiets)
    ensures Outweighed(s, quiets)
    decreases |quiets|
  {
    hide Next, Heard, IsQuiet, FiresTowards, Min;
    if s.evidence < 0.0 {
      NegativeStays(s, quiets);
    } else if quiets != [] {
      QuietStep(s, quiets[0]);
      if !FiresTowards(s, quiets[0], false) {
        QuietOutweighs(Next(s, quiets[0]), quiets[1..]);
      }
    }
  }

  /** What a complaint leaves to a learner that held no evidence for more comfort. */
  lemma ComplaintLeaves(s: State, complaint: Event)
    requires s.evidence <= 0.0 && complaint.Override? && Decays(complaint)
    ensures Next(s, complaint).evidence <= 5.5
  {
    hide Moved, Times, OverrideEvidence;
    HeardBounded(s, complaint, true);
    OverrideBound(complaint.delta, complaint.price);
  }

  lemma OverrideBound(delta: real, price: real)
    ensures OverrideEvidence(delta, price) <= 7.5
  {
    hide Times;
    var size, weight := Min(Abs(delta), 3.0), Clip(price, 0.5, 2.5);
    Scaled(size, weight, 0.0, 2.5);
    Scaled(Strength(delta, price), 1.0, 0.0, 1.0);
    SignTimes(delta, Strength(delta, price));
  }

  lemma SignTimes(delta: real, x: real)
    requires x >= 0.0
    ensures Times(Sign(delta), x) <= x
  {
  }

  /** The documented rule that a fortnight of quiet cannot outweigh one clear complaint
      holds for no complaint at all: whatever its size and price, on a learner without
      evidence for more comfort, any quiet records that count fourteen days outweigh it,
      with any decay between them. */
  lemma FortnightOutweighsEveryComplaint(s: State, complaint: Event, quiets: seq<Event>)
    requires s.evidence <= 0.0 && complaint.Override? && Decays(complaint)
    requires AllQuiet(quiets) && QuietDays(quiets) >= 14.0
    ensures Outweighed(Next(s, complaint), quiets)
  {
    hide Next, Heard, IsQuiet, FiresTowards, Min;
    var n, q := Next(s, complaint), quiets[0];
    ComplaintLeaves(s, complaint);
    if n.evidence < 0.0 {
      NegativeStays(n, quiets);
    } else {
      QuietStep(n, q);
      if !FiresTowards(n, q, false) {
        QuietOutweighs(Next(n, q), quiets[1..]);
      }
    }
  }

  /** Only a record of more than a week, which the code counts as a week, can leave a
      complaint standing: a single one does so exactly when at least 2.45 of the
      complaint is left under its decay. */
  lemma LongRecordIff(s: State, q: Event)
    requires s.evidence >= 0.0 && IsQuiet(q) && q.days >= 7.0 && s.lastUpdate.Some? && s.lastUpdate.value < q.now
    ensures Outweighed(s, [q]) <==> Times(s.evidence, q.decay) < 2.45
  {
    hide Next, Heard, Times, IsQuiet, FiresTowards, Min;
    DecayedQuiet(s, q);
    QuietStep(s, q);
    assert [q][1..] == [] && After(Next(s, q), []) == Next(s, q) && Fired(Next(s, q), [], false) == 0;
    assert After(s, [q]) == After(Next(s, q), [q][1..]);
    assert Fired(s, [q], false) == (if FiresTowards(s, q, false) then 1 else 0) + Fired(Next(s, q), [q][1..], false);
  }

  lemma DecayedQuiet(s: State, q: Event)
    requires IsQuiet(q) && q.days >= 7.0 && s.lastUpdate.Some? && s.lastUpdate.value < q.now
    ensures Heard(s, q).evidence == Times(s.evidence, q.decay) - 2.45
  {
    hide Times, OverrideEvidence;
  }

  /** The strongest complaint there is, and two quiet weeks: a run that ends asking for
      less comfort. */
  lemma StrongestComplaintOutweighed()
    ensures var complaint := Override(0.0, 3.0, 2.5, 1.0);
            var weeks := [Quiet(7.0, 0.0, 1.0, 7.0, 1.0), Quiet(14.0, 0.0, 1.0, 7.0, 1.0)];
            && Next(Made(5.0), complaint).evidence == 5.5
            && After(Next(Made(5.0), complaint), weeks).evidence == -1.4
  {
    hide Moved;
    var w1, w2 := Quiet(7.0, 0.0, 1.0, 7.0, 1.0), Quiet(14.0, 0.0, 1.0, 7.0, 1.0);
    var s := Next(Made(5.0), Override(0.0, 3.0, 2.5, 1.0));
    assert s.evidence == 5.5 by { assert Contribution(Override(0.0, 3.0, 2.5, 1.0)) == 7.5; }
    var t := Next(s, w1);
    assert Contribution(w1) == -2.45 && t.evidence == 1.05;
    assert Contribution(w2) == -2.45 && Next(t, w2).evidence == -1.4;
    assert [w1, w2][1..] == [w2] && [w2][1..] == [];
  }

  /** What all the decays of a run leave of evidence from its start. */
  function Lasting(quiets: seq<Event>): (p: real)
    requires AllQuiet(quiets)
    ensures 0.0 < p <= 1.0
  {
    if quiets == [] then 1.0
    else
      var rest := Lasting(quiets[1..]);
      LastingShrinks(quiets[0].decay, rest);
      Times(quiets[0].decay, rest)
  }

  lemma LastingShrinks(f: real, rest: real)
    requires 0.0 < f <= 1.0 && 0.0 < rest <= 1.0
    ensures 0.0 < Times(f, rest) <= 1.0
  {
    Scaled(f, rest, 0.0, 1.0);
    assert f * rest > 0.0;
  }

  /** And below the bounds quiet raises the weight: with a configured weight under one,
      quiet records of which two units outlast their decays (eight days do, under the
      21-day half-life) bring an adjustment for less comfort that leaves the weight at one
      or more. */
  lemma QuietRaisesLowWeight(configured: real, quiets: seq<Event>)
    requires configured < WEIGHT_MIN && AllQuiet(quiets)
    requires Times(Lasting(quiets), QUIET_PER_DAY * QuietDays(quiets)) >= EVIDENCE_THRESHOLD
    ensures Fired(Made(configured), quiets, false) > 0 && After(Made(configured), quiets).weight >= WEIGHT_MIN > configured
  {
    hide Next, Heard, IsQuiet, Min, After, Fired, Times, Lasting;
    LastingQuietFires(Made(configured), quiets);
    QuietsAreNoResets(quiets);
    InBoundsSinceAdjustment(Made(configured), quiets);
  }

  lemma QuietsAreNoResets(quiets: seq<Event>)
    requires AllQuiet(quiets)
    ensures NoResets(quiets)
  {
  }

  /** Quiet of which two units last is spent on an adjustment. */
  lemma {:induction false} LastingQuietFires(s: State, quiets: seq<Event>)
    requires AllQuiet(quiets) && -EVIDENCE_THRESHOLD < s.evidence <= 0.0
    requires Times(Lasting(quiets), QUIET_PER_DAY * QuietDays(quiets) - s.evidence) >= EVIDENCE_THRESHOLD
    ensures Fired(s, quiets, false) > 0
    decreases |quiets|
  {
    hide Next, Heard, IsQuiet, Min, FiresTowards, Times;
    if quiets == [] {
      TimesOne(-s.evidence);
      assert false;
    } else {
      var q, rest := quiets[0], Lasting(quiets[1..]);
      QuietStep(s, q);
      QuietAdds(s, q);
      DecayFactors(q);
      if !FiresTowards(s, q, false) {
        LastingStep(q.decay, rest, -s.evidence, QUIET_PER_DAY * Min(q.days, 7.0), QUIET_PER_DAY * QuietDays(quiets[1..]),
                    -Heard(s, q).evidence);
        LastingQuietFires(Next(s, q), quiets[1..]);
      }
    }
  }

  lemma TimesOne(x: real)
    ensures Times(1.0, x) == x
  {
  }

  lemma DecayFactors(q: Event)
    requires IsQuiet(q)
    ensures q.Quiet? && 0.0 < q.decay <= 1.0 && Min(q.days, 7.0) > 0.0
  {
  }

  /** At least the decayed evidence and the record's own worth. */
  lemma QuietAdds(s: State, q: Event)
    requires IsQuiet(q) && s.evidence <= 0.0
    ensures -Heard(s, q).evidence >= Times(q.decay, -s.evidence) + QUIET_PER_DAY * Min(q.days, 7.0)
  {
    hide OverrideEvidence, Times;
    Negated(s.evidence, q.decay);
    TimesSwap(-s.evidence, q.decay);
    Scaled(-s.evidence, q.decay, 0.0, 1.0);
  }

  lemma TimesSwap(x: real, y: real)
    ensures Times(x, y) == Times(y, x)
  {
  }

  /** `rest` of what one record leaves is at least all the decays' share of what was there
      before and what it adds. */
  lemma LastingStep(f: real, rest: real, held: real, worth: real, later: real, left: real)
    requires 0.0 < f <= 1.0 && 0.0 < rest <= 1.0 && held >= 0.0 && worth >= 0.0 && later >= 0.0
    requires left >= Times(f, held) + worth
    ensures Times(rest, later + left) >= Times(Times(f, rest), later + worth + held)
  {
    hide Times;
    var all := later + worth + held;
    TimesSplits(f, later + worth, held);
    Scaled(later + worth, f, 0.0, 1.0);
    TimesSwap(later + worth, f);
    assert later + left >= Times(f, all);
    TimesGrows(rest, Times(f, all), later + left);
    TimesAssociates(f, rest, all);
  }

  lemma TimesSplits(f: real, x: real, y: real)
    ensures Times(f, x + y) == Times(f, x) + Times(f, y)
  {
  }

  lemma TimesGrows(f: real, x: real, y: real)
    requires f >= 0.0 && x <= y
    ensures Times(f, x) <= Times(f, y)
  {
  }

  lemma TimesAssociates(f: real, g: real, x: real)
    ensures Times(g, Times(f, x)) == Times(Times(f, g), x)
  {
  }

  // ----- what each call does, outright -----------------------------------------------------

  /** The evidence ages by the decay of the time since the last update, if there was one. */
  predicate Ages(s: State, now: real, decay: real, t: State) {
    if s.lastUpdate.Some? && now <= s.lastUpdate.value then t == s
    else
      && t.configured == s.configured && t.weight == s.weight && t.overrides == s.overrides
      && t.lastUpdate == Some(now)
      && t.evidence == if s.lastUpdate.None? then s.evidence else s.evidence * decay
  }

  /** Two units of evidence move the weight by six hundredths a unit, at most six units' worth,
      and are spent; less moves nothing. */
  predicate Settles(s: State, now: real, t: State) {
    if -2.0 < s.evidence < 2.0 then t == s
    else
      && t.configured == s.configured && t.overrides == s.overrides && t.lastUpdate == Some(now)
      && if s.evidence > 0.0
         then
           && t.evidence == s.evidence - 2.0
           && Within(t.weight, s.weight * (1.0 + (if s.evidence > 6.0 then 0.36 else 0.06 * s.evidence)))
         else
           && t.evidence == s.evidence + 2.0
           && Within(t.weight, s.weight * (1.0 - (if s.evidence < -6.0 then 0.36 else 0.06 * -s.evidence)))
  }

  /** A weight held to the range no one leaves. */
  predicate Within(weight: real, wanted: real) {
    if wanted < 1.0 then weight == 1.0 else if wanted > 40.0 then weight == 40.0 else weight == wanted
  }

  /** What an override of at least 0.3 degrees says: its degrees, three at most, more the
      dearer the hour. */
  predicate Says(delta: real, price: real, x: real) {
    var factor := if price < 0.5 then 0.5 else if price > 2.5 then 2.5 else price;
    if delta >= 0.3 then x == (if delta > 3.0 then 3.0 else delta) * factor
    else if delta <= -0.3 then x == (if delta < -3.0 then -3.0 else delta) * factor
    else x == 0.0
  }

  /** One override heard: the old evidence ages, what it says is added and counted, and the
      sum is acted on; a small one only ages it. */
  ghost predicate HearsOverride(s: State, now: real, delta: real, price: real, decay: real, t: State) {
    exists a, x ::
      && Ages(s, now, decay, a) && Says(delta, price, x)
      && if x == 0.0 then t == a
         else Settles(a.(evidence := a.evidence + x, overrides := a.overrides + 1), now, t)
  }

  /** One quiet period heard: with a band and a duration, and a span of at most a quarter of the
      band, it counts 0.35 a day against comfort, seven days at most; otherwise nothing. */
  ghost predicate HearsQuiet(s: State, now: real, span: real, band: real, days: real, decay: real, t: State) {
    if band > 0.0 && days > 0.0 && 4.0 * span <= band
    then
      exists a :: Ages(s, now, decay, a)
        && Settles(a.(evidence := a.evidence - 0.35 * (if days > 7.0 then 7.0 else days)), now, t)
    else t == s
  }

  lemma DecayedAges(s: State, now: real, decay: real)
    ensures Ages(s, now, decay, Decayed(s, now, decay))
  {
  }

  lemma AdjustedSettles(s: State, now: real)
    ensures Settles(s, now, Adjusted(s, now))
  {
    if Adjusts(s) {
      MovedWithin(s.weight, s.evidence);
    }
  }

  lemma MovedWithin(w: real, evidence: real)
    requires evidence != 0.0
    ensures evidence > 0.0 ==>
              Within(Moved(w, evidence), w * (1.0 + (if evidence > 6.0 then 0.36 else 0.06 * evidence)))
    ensures evidence < 0.0 ==>
              Within(Moved(w, evidence), w * (1.0 - (if evidence < -6.0 then 0.36 else 0.06 * -evidence)))
  {
    hide Clip;
    assert Factor(evidence) == if evidence > 0.0 then 1.0 + (if evidence > 6.0 then 0.36 else 0.06 * evidence)
                               else 1.0 - (if evidence < -6.0 then 0.36 else 0.06 * -evidence);
    ClipWithin(Times(w, Factor(evidence)));
  }

  lemma ClipWithin(x: real)
    ensures Within(Clip(x, WEIGHT_MIN, WEIGHT_MAX), x)
  {
  }

  lemma EvidenceSays(delta: real, price: real)
    ensures Says(delta, price, OverrideEvidence(delta, price))
  {
  }

  lemma NextHearsOverride(s: State, now: real, delta: real, price: real, decay: real)
    ensures HearsOverride(s, now, delta, price, decay, Next(s, Override(now, delta, price, decay)))
  {
    hide Ages, Settles, Says, OverrideEvidence, Adjusted, Decayed;
    DecayedAges(s, now, decay);
    EvidenceSays(delta, price);
    AdjustedSettles(Heard(s, Override(now, delta, price, decay)), now);
  }

  lemma NextHearsQuiet(s: State, now: real, span: real, band: real, days: real, decay: real)
    ensures HearsQuiet(s, now, span, band, days, decay, Next(s, Quiet(now, span, band, days, decay)))
  {
    hide Ages, Settles, Adjusted, Decayed;
    DecayedAges(s, now, decay);
    AdjustedSettles(Heard(s, Quiet(now, span, band, days, decay)), now);
  }

  // ----- the object ------------------------------------------------------------------------

  class ComfortLearner {
    var configured: real
    var weight: real
    var evidence: real
    var overrides: nat
    var lastUpdate: Option<real>

    function View(): State
      reads this
    {
      State(configured, weight, evidence, overrides, lastUpdate)
    }

    constructor (configuredWeight: real)
      ensures View() == State(configuredWeight, configuredWeight, 0.0, 0, None) == Made(configuredWeight)
    {
      configured, weight, evidence, overrides, lastUpdate := configuredWeight, configuredWeight, 0.0, 0, None;
    }

    method Decay(now: real, decay: real)
      modifies this
      ensures View() == Decayed(old(View()), now, decay) && Ages(old(View()), now, decay, View())
    {
      if lastUpdate.None? {
        lastUpdate := Some(now);
        return;
      }
      if now - lastUpdate.value <= 0.0 { return; }
      evidence := Times(evidence, decay);
      lastUpdate := Some(now);
    }

    /** Folds a manual override in. */
    method RecordOverride(now: real, delta: real, price: real, decay: real)
      modifies this
      ensures View() == Next(old(View()), Override(now, delta, price, decay))
      ensures HearsOverride(old(View()), now, delta, price, decay, View())
    {
      NextHearsOverride(View(), now, delta, price, decay);
      hide HearsOverride;
      Decay(now, decay);
      var contribution := OverrideEvidence(delta, price);
      if contribution == 0.0 { return; }
      evidence := evidence + contribution;
      overrides := overrides + 1;
      MaybeAdjust(now);
    }

    /** Notes a stretch without overrides at a flat temperature. */
    method RecordQuietPeriod(now: real, span: real, band: real, days: real, decay: real)
      modifies this
      ensures View() == Next(old(View()), Quiet(now, span, band, days, decay))
      ensures HearsQuiet(old(View()), now, span, band, days, decay, View())
    {
      NextHearsQuiet(View(), now, span, band, days, decay);
      hide HearsQuiet;
      if band <= 0.0 || days <= 0.0 { return; }
      if span > band * FLAT_BAND_FRACTION { return; }
      Decay(now, decay);
      evidence := evidence - QUIET_PER_DAY * Min(days, 7.0);
      MaybeAdjust(now);
    }

    method MaybeAdjust(now: real)
      modifies this
      ensures View() == Adjusted(old(View()), now) && Settles(old(View()), now, View())
    {
      hide Times, StepSize, Clip, Settles;
      AdjustedSettles(View(), now);
      if Abs(evidence) < EVIDENCE_THRESHOLD { return; }
      var direction := Sign(evidence);
      var step := StepSize(evidence);
      weight := Clip(Times(weight, 1.0 + Times(direction, step)), WEIGHT_MIN, WEIGHT_MAX);
      evidence := evidence - direction * EVIDENCE_THRESHOLD;
      lastUpdate := Some(now);
    }

    /** Returns to the configured weight and forgets the evidence. */
    method Reset()
      modifies this
      ensures View() == Next(old(View()), Forget)
      ensures View() == State(old(configured), old(configured), 0.0, 0, old(lastUpdate))
    {
      weight, evidence, overrides := configured, 0.0, 0;
    }
  }
}
