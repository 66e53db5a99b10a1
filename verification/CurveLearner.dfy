/** The heat-curve bias learner of curve_learning.py: slow steps down on comfortable days,
    a full reset on a comfort miss. Instants are exact days. */
module CurveLearner {
  import opened Options

  const BIAS_MIN: real := -4.0
  const BIAS_MAX: real := 0.0
  const MAX_DOWN_PER_WEEK: real := 0.5
  const COMFORT_MARGIN: real := 0.3
  const DAYS_PER_STEP: nat := 3
  const STEP: real := 0.2

  datatype State = State(bias: real, comfortable: nat, resets: nat, lastDay: Option<int>, lastStep: Option<real>)

  const NEW := State(0.0, 0, 0, None, None)

  /** A day's outcome at `now` on calendar day `day`, or a miss reported on its own. */
  datatype Event =
    | Day(now: real, day: int, margin: Option<real>)
    | Miss(now: real)

  predicate InRange(s: State) { BIAS_MIN <= s.bias <= BIAS_MAX }

  function Clip(x: real): real { if x < BIAS_MIN then BIAS_MIN else if x > BIAS_MAX then BIAS_MAX else x }

  /** The most the weekly rate allows since the last step. */
  function Allowance(s: State, now: real): real {
    if s.lastStep.Some? then MAX_DOWN_PER_WEEK * (now - s.lastStep.value) / 7.0 else STEP
  }

  function StepSize(s: State, now: real): real {
    if Allowance(s, now) < STEP then Allowance(s, now) else STEP
  }

  function SteppedDown(s: State, now: real): State {
    var step := StepSize(s, now);
    if step <= 0.0 then s
    else s.(bias := Clip(s.bias - step), comfortable := 0, lastStep := Some(now))
  }

  function Missed(s: State): State {
    if s.bias >= BIAS_MAX then s.(comfortable := 0)
    else s.(comfortable := 0, bias := 0.0, resets := s.resets + 1)
  }

  function DayRecorded(s: State, now: real, day: int, margin: Option<real>): State {
    if s.lastDay == Some(day) then s
    else
      var t := s.(lastDay := Some(day));
      if margin.None? then t
      else if margin.value <= 0.0 then Missed(t)
      else if margin.value < COMFORT_MARGIN then t.(comfortable := 0)
      else
        var u := t.(comfortable := t.comfortable + 1);
        if u.comfortable >= DAYS_PER_STEP then SteppedDown(u, now) else u
  }

  function Next(s: State, e: Event): State {
    match e
    case Day(now, day, margin) => DayRecorded(s, now, day, margin)
    case Miss(_) => Missed(s)
  }

  function After(s: State, run: seq<Event>): State
    decreases |run|
  {
    if run == [] then s else After(Next(s, run[0]), run[1..])
  }

  /** An event is a step exactly when it moves the step stamp. */
  predicate Steps(s: State, e: Event) { Next(s, e).lastStep != s.lastStep }

  /** The day counted as comfortable. */
  predicate Counted(s: State, e: Event) {
    e.Day? && s.lastDay != Some(e.day) && e.margin.Some? && e.margin.value >= COMFORT_MARGIN
  }

  predicate IsMiss(s: State, e: Event) {
    e.Miss? || (s.lastDay != Some(e.day) && e.margin.Some? && e.margin.value <= 0.0)
  }

  // ----- the bias ------------------------------------------------------------------------

  /** On every run the bias only ever cools, within its clamp. */
  lemma {:induction false} BiasStaysInRange(s: State, run: seq<Event>)
    requires InRange(s)
    ensures InRange(After(s, run))
    decreases |run|
  {
    if run != [] {
      BiasStaysInRange(Next(s, run[0]), run[1..]);
    }
  }

  /** A miss surrenders the whole bias, and nothing else raises it. */
  lemma OnlyMissesRaise(s: State, e: Event)
    requires InRange(s)
    ensures IsMiss(s, e) ==> Next(s, e).bias == 0.0 && Next(s, e).comfortable == 0
    ensures !IsMiss(s, e) ==> Next(s, e).bias <= s.bias
    ensures Next(s, e).bias < s.bias ==> Steps(s, e)
    ensures Next(s, e).resets > s.resets <==> IsMiss(s, e) && s.bias < 0.0
  {
  }

  // ----- the rate -------------------------------------------------------------------------

  function Drop(s: State, e: Event): real {
    if Next(s, e).bias < s.bias then s.bias - Next(s, e).bias else 0.0
  }

  /** The total downward movement over a run. */
  function Down(s: State, run: seq<Event>): real
    decreases |run|
  {
    if run == [] then 0.0 else Drop(s, run[0]) + Down(Next(s, run[0]), run[1..])
  }

  /** A step moves at most STEP and, after an earlier one, at most what the weekly rate
      allows for the time since; its stamp is later than the earlier one's on any clock. */
  lemma StepBound(s: State, e: Event)
    requires InRange(s)
    ensures Drop(s, e) <= STEP
    ensures s.lastStep.Some? ==> Next(s, e).lastStep.Some? && s.lastStep.value <= Next(s, e).lastStep.value
    ensures s.lastStep.Some? ==>
      Drop(s, e) <= MAX_DOWN_PER_WEEK * (Next(s, e).lastStep.value - s.lastStep.value) / 7.0
  {
  }

  /** After a step, everything that follows moves down no faster than the weekly rate. */
  lemma {:induction false} RateSinceStep(s: State, run: seq<Event>)
    requires InRange(s) && s.lastStep.Some?
    ensures After(s, run).lastStep.Some?
    ensures Down(s, run) <= MAX_DOWN_PER_WEEK * (After(s, run).lastStep.value - s.lastStep.value) / 7.0
    decreases |run|
  {
    hide Next, Drop;
    if run != [] {
      StepBound(s, run[0]);
      BiasStaysInRange(s, run[..1]);
      assert After(s, run[..1]) == Next(s, run[0]);
      RateSinceStep(Next(s, run[0]), run[1..]);
    }
  }

  /** The rate bound: from a step on, that step included, the bias moves down by at most
      one step more than the weekly rate over the time to the last step. */
  lemma RateBound(s: State, run: seq<Event>)
    requires InRange(s) && run != [] && Steps(s, run[0])
    ensures After(s, run).lastStep.Some?
    ensures Down(s, run) <= STEP + MAX_DOWN_PER_WEEK * (After(s, run).lastStep.value - run[0].now) / 7.0
  {
    hide Drop;
    StepBound(s, run[0]);
    BiasStaysInRange(s, run[..1]);
    assert After(s, run[..1]) == Next(s, run[0]);
    RateSinceStep(Next(s, run[0]), run[1..]);
  }

  /** Comfortable days `k`, `k + 1`, ... up to `n`, each recorded a day after the last. */
  function ComfortableDays(k: nat, n: nat): seq<Event>
    requires k <= n
    decreases n - k
  {
    if k == n then [] else [Day(k as real, k, Some(1.0))] + ComfortableDays(k + 1, n)
  }

  lemma ComfortableDay(s: State, k: nat, n: nat, t: State)
    requires k < n && DayRecorded(s, k as real, k, Some(1.0)) == t
    ensures Down(s, ComfortableDays(k, n)) == Drop(s, Day(k as real, k, Some(1.0))) + Down(t, ComfortableDays(k + 1, n))
  {
    assert ComfortableDays(k, n)[1..] == ComfortableDays(k + 1, n);
  }

  /** The documented cap of half a kelvin in seven days fails by one step: nine comfortable
      days in a row move 0.6 K, all of it from the third day to the ninth. */
  lemma WeeklyCapCounterexample()
    ensures Down(NEW, ComfortableDays(0, 2)) == 0.0
    ensures Down(NEW, ComfortableDays(0, 9)) == 0.6
  {
    hide After;
    var s1 := State(0.0, 1, 0, Some(0), None);
    var s2 := State(0.0, 2, 0, Some(1), None);
    ComfortableDay(NEW, 0, 2, s1);
    ComfortableDay(s1, 1, 2, s2);
    ComfortableDay(NEW, 0, 9, s1);
    ComfortableDay(s1, 1, 9, s2);
    FirstTwoSteps(s2);
  }

  lemma FirstTwoSteps(s2: State)
    requires s2 == State(0.0, 2, 0, Some(1), None)
    ensures Down(s2, ComfortableDays(2, 9)) == 0.6
  {
    hide After, Down;
    var s3 := State(-0.2, 0, 0, Some(2), Some(2.0));
    var s4 := State(-0.2, 1, 0, Some(3), Some(2.0));
    var s5 := State(-0.2, 2, 0, Some(4), Some(2.0));
    var s6 := State(-0.4, 0, 0, Some(5), Some(5.0));
    ComfortableDay(s2, 2, 9, s3);
    ComfortableDay(s3, 3, 9, s4);
    ComfortableDay(s4, 4, 9, s5);
    ComfortableDay(s5, 5, 9, s6);
    LastStep(s6);
  }

  lemma LastStep(s6: State)
    requires s6 == State(-0.4, 0, 0, Some(5), Some(5.0))
    ensures Down(s6, ComfortableDays(6, 9)) == 0.2
  {
    hide After;
    var s7 := State(-0.4, 1, 0, Some(6), Some(5.0));
    var s8 := State(-0.4, 2, 0, Some(7), Some(5.0));
    var s9 := State(-0.6, 0, 0, Some(8), Some(8.0));
    ComfortableDay(s6, 6, 9, s7);
    ComfortableDay(s7, 7, 9, s8);
    ComfortableDay(s8, 8, 9, s9);
  }

  // ----- every seven days ------------------------------------------------------------------------

  /** How far summer time moves the local date against the clock, in days. */
  const CLOCK_CHANGE: real := 1.0 / 24.0

  /** The event's date is the local date of its instant. */
  predicate OnDate(now: real, day: int) { day as real <= now + CLOCK_CHANGE && now < day as real + 1.0 }

  /** A run on a clock and a calendar that never run back, dated by them. */
  predicate Calendar(run: seq<Event>) {
    && (forall i, j | 0 <= i < j < |run| :: run[i].now <= run[j].now)
    && (forall i | 0 <= i < |run| && run[i].Day? :: OnDate(run[i].now, run[i].day))
    && (forall i, j | 0 <= i < j < |run| && run[i].Day? && run[j].Day? :: run[i].day <= run[j].day)
  }

  predicate WithinWeek(run: seq<Event>) { run != [] ==> run[|run| - 1].now - run[0].now <= 7.0 }

  /** A step as it is taken: its instant and date, the time since the step before it, if
      there was one, and the bias it starts from. */
  datatype Taken = Taken(at: real, day: int, gap: Option<real>, before: real)

  function TakenBy(s: State, e: Event): Taken {
    Taken(e.now, if e.Day? then e.day else 0,
          if s.lastStep.Some? then Some(e.now - s.lastStep.value) else None, s.bias)
  }

  /** The steps of a stretch of a run, in order. */
  function Log(s: State, run: seq<Event>): seq<Taken>
    decreases |run|
  {
    if run == [] then []
    else (if Steps(s, run[0]) then [TakenBy(s, run[0])] else []) + Log(Next(s, run[0]), run[1..])
  }

  /** A step's time since the last one, as far as it counts: 2.8 days earn a full step. */
  function Capped(gap: Option<real>): real { if gap.Some? && gap.value < 2.8 then gap.value else 2.8 }

  /** What a step moves, in days of the weekly rate: its capped gap, or the room the clamp
      leaves it. */
  function Size(t: Taken): real {
    var room := (t.before - BIAS_MIN) * 14.0;
    if Capped(t.gap) < room then Capped(t.gap) else room
  }

  function SumSizes(log: seq<Taken>): real {
    if log == [] then 0.0 else Size(log[0]) + SumSizes(log[1..])
  }

  lemma DropIsSize(s: State, e: Event)
    requires InRange(s)
    ensures InRange(Next(s, e))
    ensures 14.0 * Drop(s, e) == if Steps(s, e) then Size(TakenBy(s, e)) else 0.0
  {
  }

  lemma {:induction false} DownIsSizes(s: State, run: seq<Event>)
    requires InRange(s)
    ensures 14.0 * Down(s, run) == SumSizes(Log(s, run))
    decreases |run|
  {
    hide Next, Drop, Steps, Size, TakenBy;
    if run != [] {
      DropIsSize(s, run[0]);
      DownIsSizes(Next(s, run[0]), run[1..]);
      if Steps(s, run[0]) {
        assert ([TakenBy(s, run[0])] + Log(Next(s, run[0]), run[1..]))[1..] == Log(Next(s, run[0]), run[1..]);
      } else {
        assert [] + Log(Next(s, run[0]), run[1..]) == Log(Next(s, run[0]), run[1..]);
      }
    }
  }

  /** The dates of a run never precede the last one recorded. */
  predicate DatedFrom(run: seq<Event>, day: int) { forall i | 0 <= i < |run| && run[i].Day? :: day <= run[i].day }

  /** One event: what it can do to the counter and to the date it is recorded under. */
  lemma EventCounts(s: State, e: Event)
    requires s.lastDay.Some? && (e.Day? ==> s.lastDay.value <= e.day)
    ensures var n := Next(s, e);
            && n.lastDay.Some? && s.lastDay.value <= n.lastDay.value
            && (e.Day? ==> n.lastDay == Some(e.day)) && (e.Miss? ==> n.lastDay == s.lastDay)
            && n.comfortable <= s.comfortable + (n.lastDay.value - s.lastDay.value)
            && (Steps(s, e) ==> e.Day? && s.lastDay.value < e.day && n.comfortable == 0)
            && (Steps(s, e) ==> s.comfortable + 1 >= DAYS_PER_STEP)
  {
  }

  /** The next step comes at the earliest on the date the counter still lacks. */
  lemma {:induction false} FirstStepDate(s: State, run: seq<Event>)
    requires Calendar(run) && s.lastDay.Some? && DatedFrom(run, s.lastDay.value)
    ensures Log(s, run) != [] ==> Log(s, run)[0].day >= s.lastDay.value + DAYS_PER_STEP - s.comfortable
    decreases |run|
  {
    hide Next, Steps;
    if run != [] {
      EventCounts(s, run[0]);
      if !Steps(s, run[0]) {
        assert [] + Log(Next(s, run[0]), run[1..]) == Log(Next(s, run[0]), run[1..]);
        FirstStepDate(Next(s, run[0]), run[1..]);
      }
    }
  }

  /** What the next step of a log owes to the one before it. */
  predicate Linked(a: Taken, b: Taken) {
    && a.day + DAYS_PER_STEP <= b.day
    && b.gap == Some(b.at - a.at) && b.before >= a.before - STEP
  }

  /** The log of a stretch: dated, inside the stretch, each step linked to the last. */
  ghost predicate Orderly(log: seq<Taken>, run: seq<Event>) {
    && (forall i | 0 <= i < |log| :: OnDate(log[i].at, log[i].day) && BIAS_MIN <= log[i].before <= BIAS_MAX)
    && (forall i | 0 <= i < |log| :: run != [] && run[0].now <= log[i].at <= run[|run| - 1].now)
    && (forall i, j | 0 <= i < j < |log| && j == i + 1 :: Linked(log[i], log[j]))
  }

  lemma StepLeaves(s: State, e: Event)
    requires InRange(s) && Steps(s, e)
    ensures e.Day? && Next(s, e).lastStep == Some(e.now) && Next(s, e).lastDay == Some(e.day)
    ensures Next(s, e).comfortable == 0 && Next(s, e).bias >= s.bias - STEP && InRange(Next(s, e))
  {
  }

  /** Until the next step the stamp stays and the bias does not fall. */
  lemma {:induction false} UntilNextStep(s: State, run: seq<Event>)
    requires InRange(s) && s.lastStep.Some? && Log(s, run) != []
    ensures Log(s, run)[0].gap == Some(Log(s, run)[0].at - s.lastStep.value) && Log(s, run)[0].before >= s.bias
    decreases |run|
  {
    hide Next, Steps;
    if run != [] && !Steps(s, run[0]) {
      assert [] + Log(Next(s, run[0]), run[1..]) == Log(Next(s, run[0]), run[1..]);
      NoStepKeeps(s, run[0]);
      UntilNextStep(Next(s, run[0]), run[1..]);
    }
  }

  lemma NoStepKeeps(s: State, e: Event)
    requires InRange(s) && !Steps(s, e)
    ensures Next(s, e).lastStep == s.lastStep && Next(s, e).bias >= s.bias && InRange(Next(s, e))
  {
  }

  /** The log of a run's rest, seen as part of the run. */
  lemma OrderlyLater(log: seq<Taken>, run: seq<Event>)
    requires run != [] && Calendar(run) && Orderly(log, run[1..])
    ensures Orderly(log, run)
  {
    hide Linked, OnDate;
    if |run| > 1 {
      assert run[1..][|run| - 2] == run[|run| - 1] && run[1..][0] == run[1];
    }
  }

  lemma OrderlyStarts(t: Taken, log: seq<Taken>, run: seq<Event>)
    requires run != [] && Calendar(run) && Orderly(log, run) && (log != [] ==> Linked(t, log[0]))
    requires t.at == run[0].now && OnDate(t.at, t.day) && BIAS_MIN <= t.before <= BIAS_MAX
    ensures Orderly([t] + log, run)
  {
    hide Linked, OnDate;
    var all := [t] + log;
    forall i, j | 0 <= i < j < |all| && j == i + 1 ensures Linked(all[i], all[j]) {
      if i > 0 { assert Linked(log[i - 1], log[j - 1]); }
    }
  }

  lemma {:induction false} LogIsOrderly(s: State, run: seq<Event>)
    requires InRange(s) && Calendar(run)
    ensures Orderly(Log(s, run), run)
    decreases |run|
  {
    hide Next, Steps, Linked, OnDate, Orderly;
    if run == [] {
      NothingOrderly();
    } else {
      var e, n, rest := run[0], Next(s, run[0]), Log(Next(s, run[0]), run[1..]);
      NextInRange(s, e);
      LogIsOrderly(n, run[1..]);
      OrderlyLater(rest, run);
      if Steps(s, e) {
        StepLeaves(s, e);
        if rest != [] {
          FirstStepDate(n, run[1..]);
          UntilNextStep(n, run[1..]);
          LinkFacts(TakenBy(s, e), rest[0]);
        }
        OrderlyStarts(TakenBy(s, e), rest, run);
      } else {
        assert Log(s, run) == [] + rest == rest;
      }
    }
  }

  lemma NothingOrderly()
    ensures Orderly([], [])
  {
  }

  lemma NextInRange(s: State, e: Event)
    requires InRange(s)
    ensures InRange(Next(s, e))
  {
  }

  lemma LinkFacts(a: Taken, b: Taken)
    requires a.day + DAYS_PER_STEP <= b.day && b.gap == Some(b.at - a.at) && b.before >= a.before - STEP
    ensures Linked(a, b)
  {
  }

  lemma FourTooFar(log: seq<Taken>, run: seq<Event>)
    requires Orderly(log, run)
    ensures |log| > 3 ==> run != [] && run[|run| - 1].now - run[0].now > 7.0
  {
    if |log| > 3 {
      assert Linked(log[0], log[1]) && Linked(log[1], log[2]) && Linked(log[2], log[3]);
    }
  }

  /** The dates leave room for at most three steps in seven days. */
  lemma AtMostThree(log: seq<Taken>, run: seq<Event>)
    requires Orderly(log, run) && WithinWeek(run)
    ensures |log| <= 3
  {
    hide Orderly;
    FourTooFar(log, run);
  }

  lemma SizesOfThree(log: seq<Taken>)
    requires |log| <= 3
    ensures SumSizes(log) == (if |log| > 0 then Size(log[0]) else 0.0) + (if |log| > 1 then Size(log[1]) else 0.0)
                             + (if |log| > 2 then Size(log[2]) else 0.0)
  {
    hide Size;
    if |log| > 0 { assert SumSizes(log) == Size(log[0]) + SumSizes(log[1..]); }
    if |log| > 1 { assert SumSizes(log[1..]) == Size(log[1]) + SumSizes(log[1..][1..]); }
    if |log| > 2 { assert SumSizes(log[1..][1..]) == Size(log[2]) + SumSizes(log[1..][1..][1..]); }
  }

  /** When three steps keep to the cap: their sizes come to at most seven days. */
  predicate Fits(log: seq<Taken>) { |log| == 3 ==> Size(log[0]) + Size(log[1]) + Size(log[2]) <= 7.0 }

  /** The documented cap over any stretch of seven days of any run: at most three steps fall
      in it, and it moves at most half a kelvin exactly when they are fewer than three, or
      three whose gaps, each counted up to 2.8 days and no further than the clamp leaves
      room, come to at most seven days. */
  lemma SevenDayCapIff(s: State, run: seq<Event>)
    requires InRange(s) && Calendar(run) && WithinWeek(run)
    ensures |Log(s, run)| <= 3
    ensures Down(s, run) <= MAX_DOWN_PER_WEEK <==> Fits(Log(s, run))
    ensures |Log(s, run)| <= 2 ==> Down(s, run) <= 0.4
  {
    hide Log, Down, Orderly, Calendar, WithinWeek;
    LogIsOrderly(s, run);
    AtMostThree(Log(s, run), run);
    DownIsSizes(s, run);
    SizesOfThree(Log(s, run));
  }

  /** For a stretch whose first step is a full one clear of the clamp the condition is the
      number of steps alone: three always exceed the cap. */
  lemma FullStepCapIff(s: State, run: seq<Event>)
    requires InRange(s) && Calendar(run) && WithinWeek(run) && Log(s, run) != []
    requires Capped(Log(s, run)[0].gap) == 2.8 && Log(s, run)[0].before >= -3.4
    ensures Down(s, run) <= MAX_DOWN_PER_WEEK <==> |Log(s, run)| <= 2
  {
    hide Log, Down, Calendar, WithinWeek;
    var log := Log(s, run);
    LogIsOrderly(s, run);
    SevenDayCapIff(s, run);
    if |log| == 3 {
      assert Linked(log[0], log[1]) && Linked(log[1], log[2]);
      assert log[1].at - log[0].at > 2.0 - CLOCK_CHANGE && log[2].at - log[0].at > 5.0 - CLOCK_CHANGE;
      assert log[2].at - log[1].at > 2.0 - CLOCK_CHANGE;
    }
  }

  /** Over a whole run: every seven days keep to the cap exactly when no three steps within
      seven days are too large together. */
  lemma EverySevenDaysIff(s: State, run: seq<Event>)
    requires InRange(s) && Calendar(run)
    ensures (forall i, j | 0 <= i <= j <= |run| && WithinWeek(run[i..j]) ::
               Down(After(s, run[..i]), run[i..j]) <= MAX_DOWN_PER_WEEK)
       <==> (forall i, j | 0 <= i <= j <= |run| && WithinWeek(run[i..j]) :: Fits(Log(After(s, run[..i]), run[i..j])))
  {
    hide Log, Down, After, WithinWeek, Fits;
    forall i, j | 0 <= i <= j <= |run| && WithinWeek(run[i..j])
      ensures Down(After(s, run[..i]), run[i..j]) <= MAX_DOWN_PER_WEEK <==> Fits(Log(After(s, run[..i]), run[i..j]))
    {
      BiasStaysInRange(s, run[..i]);
      StretchIsCalendar(run, i, j);
      SevenDayCapIff(After(s, run[..i]), run[i..j]);
    }
  }

  lemma StretchIsCalendar(run: seq<Event>, i: nat, j: nat)
    requires i <= j <= |run| && Calendar(run)
    ensures Calendar(run[i..j])
  {
    hide OnDate;
  }

  // ----- the evidence between two steps --------------------------------------------------------

  function CountedDays(s: State, run: seq<Event>): nat
    decreases |run|
  {
    if run == [] then 0 else (if Counted(s, run[0]) then 1 else 0) + CountedDays(Next(s, run[0]), run[1..])
  }

  predicate NoSteps(s: State, run: seq<Event>)
    decreases |run|
  {
    run != [] ==> !Steps(s, run[0]) && NoSteps(Next(s, run[0]), run[1..])
  }

  /** The counter never runs ahead of the comfortable days recorded. */
  lemma {:induction false} CounterIsBacked(s: State, run: seq<Event>)
    requires NoSteps(s, run)
    ensures After(s, run).comfortable <= s.comfortable + CountedDays(s, run)
    decreases |run|
  {
    if run != [] {
      CounterIsBacked(Next(s, run[0]), run[1..]);
    }
  }

  lemma StepResets(s: State, e: Event)
    requires Steps(s, e)
    ensures Next(s, e).comfortable == 0 && Counted(s, e) && s.comfortable + 1 >= DAYS_PER_STEP
  {
  }

  /** Between two consecutive steps lie at least three newly recorded comfortable days,
      the second step's own included. */
  lemma StepsNeedNewEvidence(s: State, first: Event, between: seq<Event>, second: Event)
    requires Steps(s, first) && NoSteps(Next(s, first), between)
    requires Steps(After(Next(s, first), between), second)
    ensures CountedDays(Next(s, first), between) + 1 >= DAYS_PER_STEP
    ensures Counted(After(Next(s, first), between), second)
  {
    hide Next, Steps, Counted;
    StepResets(s, first);
    CounterIsBacked(Next(s, first), between);
    StepResets(After(Next(s, first), between), second);
  }

  // ----- what each call does, outright -----------------------------------------------------

  /** A step of 0.2 K, or less when less than 2.8 days have passed since the last, within the
      four kelvin the bias may have; none when no time has passed. */
  predicate StepsDown(s: State, now: real, t: State) {
    var step := if s.lastStep.Some? && now - s.lastStep.value < 2.8 then (now - s.lastStep.value) / 14.0 else 0.2;
    if s.lastStep.Some? && now <= s.lastStep.value then t == s
    else
      && t.comfortable == 0 && t.lastStep == Some(now) && t.resets == s.resets && t.lastDay == s.lastDay
      && (s.bias <= 0.0 ==> t.bias == if s.bias - step < -4.0 then -4.0 else s.bias - step)
  }

  /** A miss ends the count, and takes back any bias there is. */
  predicate Surrenders(s: State, t: State) {
    && t.comfortable == 0 && t.lastDay == s.lastDay && t.lastStep == s.lastStep
    && t.bias == (if s.bias < 0.0 then 0.0 else s.bias)
    && t.resets == s.resets + (if s.bias < 0.0 then 1 else 0)
  }

  /** One day: nothing the second time; nothing without a reading; a miss at or below the
      floor; no evidence within 0.3 of it; otherwise a comfortable day, and with the third a
      step. */
  predicate Records(s: State, now: real, day: int, margin: Option<real>, t: State) {
    if s.lastDay == Some(day) then t == s
    else
      && t.lastDay == Some(day)
      && var u := State(s.bias, s.comfortable, s.resets, Some(day), s.lastStep);
         if margin.None? then t == u
         else if margin.value <= 0.0 then Surrenders(u, t)
         else if margin.value < 0.3 then t == State(s.bias, 0, s.resets, Some(day), s.lastStep)
         else if s.comfortable < 2 then t == State(s.bias, s.comfortable + 1, s.resets, Some(day), s.lastStep)
         else StepsDown(State(s.bias, s.comfortable + 1, s.resets, Some(day), s.lastStep), now, t)
  }

  lemma SteppedDownSteps(s: State, now: real)
    ensures StepsDown(s, now, SteppedDown(s, now))
  {
  }

  lemma MissedSurrenders(s: State)
    ensures Surrenders(s, Missed(s))
  {
  }

  lemma DayRecords(s: State, now: real, day: int, margin: Option<real>)
    ensures Records(s, now, day, margin, DayRecorded(s, now, day, margin))
  {
    hide StepsDown, Surrenders, SteppedDown, Missed;
    MissedSurrenders(s.(lastDay := Some(day)));
    var u := s.(lastDay := Some(day), comfortable := s.comfortable + 1);
    SteppedDownSteps(u, now);
    SteppedDownKeepsDay(u, now);
    MissedKeepsDay(s.(lastDay := Some(day)));
  }

  lemma SteppedDownKeepsDay(s: State, now: real)
    ensures SteppedDown(s, now).lastDay == s.lastDay
  {
  }

  lemma MissedKeepsDay(s: State)
    ensures Missed(s).lastDay == s.lastDay
  {
  }

  // ----- the object ------------------------------------------------------------------------

  class CurveLearner {
    var bias: real
    var comfortable: nat
    var resets: nat
    var lastDay: Option<int>
    var lastStep: Option<real>

    function View(): State
      reads this
    {
      State(bias, comfortable, resets, lastDay, lastStep)
    }

    constructor ()
      ensures View() == NEW == State(0.0, 0, 0, None, None)
    {
      bias, comfortable, resets, lastDay, lastStep := 0.0, 0, 0, None, None;
    }

    /** Folds one day's outcome, once per calendar day. */
    method RecordDay(now: real, day: int, margin: Option<real>)
      modifies this
      ensures View() == DayRecorded(old(View()), now, day, margin)
      ensures Records(old(View()), now, day, margin, View())
    {
      hide Records;
      DayRecords(View(), now, day, margin);
      if lastDay == Some(day) { return; }
      lastDay := Some(day);
      if margin.None? { return; }
      if margin.value <= 0.0 {
        RecordMiss();
        return;
      }
      if margin.value < COMFORT_MARGIN {
        comfortable := 0;
        return;
      }
      comfortable := comfortable + 1;
      if comfortable >= DAYS_PER_STEP {
        StepDown(now);
      }
    }

    /** A zone touched its floor: the bias surrenders. */
    method RecordMiss()
      modifies this
      ensures View() == Missed(old(View())) && Surrenders(old(View()), View())
    {
      comfortable := 0;
      if bias >= BIAS_MAX { return; }
      bias := 0.0;
      resets := resets + 1;
    }

    method StepDown(now: real)
      modifies this
      ensures View() == SteppedDown(old(View()), now) && StepsDown(old(View()), now, View())
    {
      hide StepsDown;
      SteppedDownSteps(View(), now);
      var allowed := STEP;
      if lastStep.Some? {
        var days := now - lastStep.value;
        allowed := MAX_DOWN_PER_WEEK * days / 7.0;
      }
      var step := if allowed < STEP then allowed else STEP;
      if step <= 0.0 { return; }
      bias := Clip(bias - step);
      comfortable := 0;
      lastStep := Some(now);
    }
  }
}
