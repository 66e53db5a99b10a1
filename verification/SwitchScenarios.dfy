/** Concrete runs from the first setup, for the cases the exact conditions leave open. */
module SwitchScenarios {
  import opened Options
  import opened SwitchOwnership
  import opened SwitchSafety
  import opened SwitchWaits
  import opened SwitchClaims

  const PUMP: Id := "pump"

  /** A cycle that switches the pump on, having read it off. */
  function StartCycle(now: real, a: Answer): Cycle {
    Cycle(now, Some(PUMP), Some(PUMP), map[PUMP := Reading(Off, false)], true, true, false, a, map[])
  }

  /** A cycle that finds the pump as given; while it is wanted on it writes nothing. */
  function QuietCycle(now: real, on: bool, flag: Flag): Cycle {
    Cycle(now, Some(PUMP), Some(PUMP), map[PUMP := Reading(flag, flag == Unread)], on, true, false,
          Answer(Unread, false, Unread, false), map[])
  }

  function Whole(c: Cycle): Step { Step(Guard(c), Completes) }

  /** A claim that landed, from the first setup. */
  lemma Starts(now: real)
    ensures var r := Cycled(INITIAL, StartCycle(now, Answer(Off, false, On, false))).state;
            && r.owned == [PUMP] && r.disk == [PUMP] && r.armed == {PUMP} && r.lost == [] && r.since == map[]
  {
    var c := StartCycle(now, Answer(Off, false, On, false));
    QuietRelease(INITIAL, c);
  }

  /** A cycle over the single owned switch, unfolded. */
  lemma QuietRelease(s: State, c: Cycle)
    requires BeforeRelease(s, c).owned == [PUMP]
    ensures var b := BeforeRelease(s, c);
            Driven(Observed(s, c.entity, c.reader), c).state
            == Noted(ReleasedOne(b, PUMP, c.now, Kept(c), c.later, AnswerOf(c.offAnswers, PUMP)).state, c.now)
  {
    DrivenIsRelease(s, c);
    var b := BeforeRelease(s, c);
    hide BeforeRelease, Driven, ReleasedOne, Noted;
    assert Released(b, [PUMP], 0, c.now, Kept(c), c.later, c.offAnswers).state == b;
  }

  lemma GoesMissing(s: State, now: real)
    requires s.owned == [PUMP] && s.disk == [PUMP] && s.since == map[]
    ensures var r := Cycled(s, QuietCycle(now, false, Unread)).state;
            && r.owned == [PUMP] && r.disk == [PUMP] && r.since == map[PUMP := now] && !r.memo
            && (s.lost == [] && s.armed == {PUMP} ==> r.lost == [] && r.armed == {PUMP})
  {
    QuietRelease(s, QuietCycle(now, false, Unread));
  }

  lemma AfterNone(s: State)
    ensures After(s, []) == s
  {
  }

  lemma AfterMore(s: State, run: seq<Step>, n: nat)
    requires n < |run|
    ensures After(s, run[..n + 1]) == Next(After(s, run[..n]), run[n])
  {
    hide Next;
    assert run[..n + 1][..n] == run[..n];
  }

  lemma WholeNext(s: State, c: Cycle)
    ensures Next(s, Whole(c)) == Cycled(s, c).state
    ensures c.later == c.entity ==> !Forgets(s, Whole(c))
  {
    hide Cycled;
  }

  lemma WholesRemember(run: seq<Step>)
    requires forall k | 0 <= k < |run| ::
               run[k].event.Guard? && run[k].end.Completes? && run[k].event.cycle.later == run[k].event.cycle.entity
    ensures Remembers(run)
  {
    hide After, Forgets;
    forall k | 0 <= k < |run| ensures !Forgets(After(INITIAL, run[..k]), run[k]) {
      WholeNext(After(INITIAL, run[..k]), run[k].event.cycle);
    }
  }

  lemma DiesNext(s: State, c: Cycle, at: nat)
    requires at < |Cycled(s, c).snaps|
    ensures var m, n := Cycled(s, c).snaps[at], Next(s, Step(Guard(c), Dies(at)));
            n.owned == m.disk && n.disk == m.disk && n.lost == [] && n.armed == m.armed
  {
    hide Cycled;
  }

  // ----- the switch nobody remembers --------------------------------------------------

  /** Half an hour later it is given up and the shortened record saved, with nothing
      handed over yet. */
  lemma GivenUpAtSave(s: State, now: real, start: real)
    requires s.owned == [PUMP] && s.disk == [PUMP] && s.since == map[PUMP := start] && now - start >= LOST_MINUTES
    requires s.lost == [] && s.armed == {PUMP}
    ensures var snaps := Cycled(s, QuietCycle(now, false, Unread)).snaps;
            |snaps| == 2 && snaps[1].owned == [] && snaps[1].disk == [] && snaps[1].armed == {PUMP}
  {
    var c := QuietCycle(now, false, Unread);
    QuietRelease(s, c);
    var b := BeforeRelease(s, c);
    assert ReadingOf(b, PUMP) == Reading(Unread, true);
    assert Released(b, [PUMP], 0, c.now, Kept(c), c.later, c.offAnswers) == Done(b, []);
  }

  function ForgottenRun(): seq<Step> {
    [Whole(StartCycle(-1.0, Answer(Off, false, On, false))), Whole(QuietCycle(0.0, false, Unread)),
     Step(Guard(QuietCycle(30.0, false, Unread)), Dies(1))]
  }

  /** A run from the first setup that ends with the pump on by this code, no record of it
      in memory or on disk, and no notice: it was given up, and the process died after the
      save and before the report. Cancelled there and unloaded, it ends the same. */
  lemma ForgottenSwitch()
    ensures var s := After(INITIAL, ForgottenRun());
            && AllAllowed(ForgottenRun())
            && s.owned == [] && s.disk == [] && s.lost == [] && s.armed == {PUMP} && !Safe(s)
    ensures Forgets(After(INITIAL, ForgottenRun()[..2]), ForgottenRun()[2])
    ensures !Safe(After(INITIAL, ForgottenRun()[..2] + [Step(ForgottenRun()[2].event, Stops(1, map[], None))]))
  {
    hide Cycled, Next, After, Forgets, Honest;
    var run := ForgottenRun();
    ForgottenConfig();
    var c0, c1, c2 := run[0].event.cycle, run[1].event.cycle, run[2].event.cycle;
    assert run[..3] == run && run[..0] == [];
    AfterNone(INITIAL);
    AfterMore(INITIAL, run, 0);
    AfterMore(INITIAL, run, 1);
    AfterMore(INITIAL, run, 2);
    Starts(-1.0);
    WholeNext(INITIAL, c0);
    GoesMissing(After(INITIAL, run[..1]), 0.0);
    WholeNext(After(INITIAL, run[..1]), c1);
    GivenUpAtSave(After(INITIAL, run[..2]), 30.0, 0.0);
    DiesNext(After(INITIAL, run[..2]), c2, 1);
    NotSafe(After(INITIAL, run), PUMP);
    hide Safe, Inv;
    assert run[..|run|] == run;
    CrashSafety(run);
    WholesRemember(run[..2]);
    StopsToo(run[..2], c2, 1);
  }

  /** What forgets a switch when the process dies forgets it when it is cancelled and
      unloaded. */
  lemma StopsToo(run: seq<Step>, c: Cycle, at: nat)
    requires AllAllowed(run) && Remembers(run) && Honest(true, c.onAnswer)
    requires Forgets(After(INITIAL, run), Step(Guard(c), Dies(at))) && at < |Cycled(After(INITIAL, run), c).snaps|
    ensures !Safe(After(INITIAL, run + [Step(Guard(c), Stops(at, map[], None))]))
  {
    hide Cycled, Inv, Safe, Remembers, Honest, Abandons, Slipped, BlindForgets;
    CrashSafety(run);
    var next := Step(Guard(c), Stops(at, map[], None));
    assert (run + [next])[..|run|] == run;
    hide Next, Forgets;
    NextSafeIff(After(INITIAL, run), next);
  }

  lemma ForgottenConfig()
    ensures AllAllowed(ForgottenRun())
    ensures forall k | 0 <= k < 3 ::
              var c := ForgottenRun()[k].event.cycle;
              Honest(true, c.onAnswer) && c.later == c.entity
  {
  }

  // ----- the wait that was not closed -------------------------------------------------

  lemma KeptThrough(s: State, now: real, start: real)
    requires s.owned == [PUMP] && s.disk == [PUMP] && s.since == map[PUMP := start] && !s.memo
    ensures var r := Cycled(s, QuietCycle(now, true, On)).state;
            && r.owned == [PUMP] && r.disk == [PUMP] && r.since == s.since && r.lost == []
            && PUMP in r.legible && r.legible[PUMP] == now
  {
    var c := QuietCycle(now, true, On);
    QuietRelease(s, c);
    var b := BeforeRelease(s, c);
    assert ReadingOf(b, PUMP).flag == On;
    NotedFacts(b, now, PUMP);
  }

  lemma MissingAgain(s: State, now: real, start: real)
    requires s.owned == [PUMP] && s.since == map[PUMP := start] && now - start >= LOST_MINUTES
    ensures var c := QuietCycle(now, false, Unread);
            && PUMP in Driven(Observed(s, c.entity, c.reader), c).state.lost
            && Cycled(s, c).state.owned == []
  {
    var c := QuietCycle(now, false, Unread);
    QuietRelease(s, c);
    var b := BeforeRelease(s, c);
    assert ReadingOf(b, PUMP) == Reading(Unread, true);
    assert b.lost + [PUMP] == b.lost + [PUMP] && PUMP in b.lost + [PUMP];
    hide Noted, BeforeRelease, Observed;
    assert Driven(Observed(s, c.entity, c.reader), c).state.owned == [];
  }

  function OverlookedRun(): seq<Step> {
    [Whole(StartCycle(-1.0, Answer(Off, false, On, false))), Whole(QuietCycle(0.0, false, Unread)),
     Whole(QuietCycle(28.0, true, On))]
  }

  lemma OverlookedTicks()
    ensures Ticks(OverlookedRun())
  {
    var run := OverlookedRun();
    assert run[..2] == [run[0], run[1]] && run[..2][..1] == [run[0]] && run[..2][..1][..0] == [];
    assert Ticks([]) && LastCycle([]) == None;
    assert Ticks([run[0]]) && LastCycle([run[0]]) == Some(-1.0);
    assert Ticks(run[..2]) && LastCycle(run[..2]) == Some(0.0);
  }

  lemma ReadOn(s: State, now: real)
    ensures var c := QuietCycle(now, true, On);
            ReadingOf(Observed(s, c.entity, c.reader), PUMP).flag == On && Kept(c) == Some(PUMP)
  {
  }

  /** A run from the first setup: the switch is started, goes missing for one cycle, is
      then read on and kept through a boost, and goes missing again. It is lost at once,
      though it was legible two minutes before, in a cycle that kept it. */
  lemma OverlookedWaitCounterexample()
    ensures var run, c := OverlookedRun(), QuietCycle(30.0, false, Unread);
            var s := After(INITIAL, run);
            && Ticks(run) && AllAllowed(run)
            && PUMP in Driven(Observed(s, c.entity, c.reader), c).state.lost && PUMP !in s.lost
            && ReadLately(run, 2, PUMP, c.now) && KeptLately(run, 2, PUMP, c.now)
            && PUMP in s.legible && s.legible[PUMP] == 28.0 && Cycled(s, c).state.owned == []
  {
    hide Cycled, Next, After, Forgets, Driven, Observed, StartCycle, QuietCycle, Ticks, Kept;
    var run := OverlookedRun();
    QuietTimes();
    OverlookedTicks();
    assert run[..3] == run && run[..0] == [];
    AfterNone(INITIAL);
    AfterMore(INITIAL, run, 0);
    AfterMore(INITIAL, run, 1);
    AfterMore(INITIAL, run, 2);
    Starts(-1.0);
    WholeNext(INITIAL, run[0].event.cycle);
    GoesMissing(After(INITIAL, run[..1]), 0.0);
    WholeNext(After(INITIAL, run[..1]), run[1].event.cycle);
    KeptThrough(After(INITIAL, run[..2]), 28.0, 0.0);
    WholeNext(After(INITIAL, run[..2]), run[2].event.cycle);
    ReadOn(After(INITIAL, run[..2]), 28.0);
    MissingAgain(After(INITIAL, run), 30.0, 0.0);
  }

  lemma QuietTimes()
    ensures AllAllowed(OverlookedRun())
    ensures QuietCycle(28.0, true, On).now == 28.0 && QuietCycle(30.0, false, Unread).now == 30.0
  {
  }

  // ----- ON that was not ours ---------------------------------------------------------

  lemma ClaimedOn(now: real, before: Flag)
    requires before != Unread
    ensures Cycled(INITIAL, StartCycle(now, Answer(before, false, On, false))).state.owned == [PUMP]
  {
    var c := StartCycle(now, Answer(before, false, On, false));
    QuietRelease(INITIAL, c);
  }

  /** The release of a cycle that reads the owned pump on and does not want it on. */
  lemma QuietOff(s: State, now: real)
    requires s.owned == [PUMP]
    ensures OffIn(s, Whole(QuietCycle(now, false, On)), PUMP)
  {
    hide Outcome;
    var c := QuietCycle(now, false, On);
    assert ReadingOf(BeforeRelease(s, c), PUMP).flag == On;
  }

  /** Read off, switched on by its user before the write: the ON is written to a switch
      already on, claimed, and the user's program is switched off later. */
  lemma ClaimedThoughOn()
    ensures var run := [Whole(StartCycle(0.0, Answer(On, false, On, false)))];
            && AllAllowed(run) && LastClaim(run, 0, PUMP) && !OnTook(run[0])
            && OffIn(After(INITIAL, run), Whole(QuietCycle(1.0, false, On)), PUMP)
  {
    hide Cycled, Next, After, OffIn, QuietCycle;
    var run := [Whole(StartCycle(0.0, Answer(On, false, On, false)))];
    ClaimedOn(0.0, On);
    assert run[..1] == run && run[..0] == [];
    AfterNone(INITIAL);
    AfterMore(INITIAL, run, 0);
    WholeNext(INITIAL, run[0].event.cycle);
    QuietOff(After(INITIAL, run), 1.0);
  }

  lemma DiesBeforeOn(now: real)
    ensures var snaps := Cycled(INITIAL, StartCycle(now, Answer(Off, false, On, false))).snaps;
            |snaps| >= 4 && snaps[2].disk == [PUMP] && snaps[2].armed == {}
  {
    var c := StartCycle(now, Answer(Off, false, On, false));
    var o := Observed(INITIAL, c.entity, c.reader);
    assert Driven(o, c).snaps[..4] == TurnedOn(o, c.entity, c.control, c.blocked, c.onAnswer).snaps[..4];
  }

  /** Died between the write-ahead save and the ON: the record outlives an ON that was never
      sent, and what its user switches on is switched off. */
  lemma ClaimedBeforeOn()
    ensures var run := [Step(Guard(StartCycle(0.0, Answer(Off, false, On, false))), Dies(2))];
            && AllAllowed(run) && LastClaim(run, 0, PUMP) && !OnTook(run[0]) && After(INITIAL, run).armed == {}
            && OffIn(After(INITIAL, run), Whole(QuietCycle(1.0, false, On)), PUMP)
  {
    hide Cycled, Next, After, OffIn, QuietCycle;
    var run := [Step(Guard(StartCycle(0.0, Answer(Off, false, On, false))), Dies(2))];
    DiesBeforeOn(0.0);
    assert run[..1] == run && run[..0] == [];
    AfterNone(INITIAL);
    AfterMore(INITIAL, run, 0);
    DiesNext(INITIAL, run[0].event.cycle, 2);
    QuietOff(After(INITIAL, run), 1.0);
  }
}
