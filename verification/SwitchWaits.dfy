/** How a record ends, and how long its wait was: runs of any device, cut anywhere. */
module SwitchWaits {
  import opened Options
  import opened SwitchOwnership

  /** How resolving one record may end it: only on an off reading or, after half an hour's
      wait, unreadable, in `lost`; and what is left of its wait. */
  predicate Ends(s: State, id: Id, now: real, keep: Option<Id>, r: State) {
    && (id in s.lost ==> id in r.lost)
    && (id in s.owned && id !in r.owned ==> keep != Some(id) && (ReadingOf(s, id).flag == Off || id in r.lost))
    && (id in r.lost && id !in s.lost ==> keep != Some(id) && WaitedOut(s, id, now))
    && (id in r.since ==> (if id in s.since then r.since[id] == s.since[id]
                           else r.since[id] == now && ReadingOf(s, id).flag == Unread))
    && (id in r.since && ReadingOf(s, id).flag != Unread ==> keep == Some(id))
  }

  lemma EndsUnresolved(s: State, id: Id, now: real, keep: Option<Id>)
    ensures keep == Some(id) || ReadingOf(s, id).flag == Unread ==> Ends(s, id, now, keep, s)
    ensures ReadingOf(s, id).flag == Unread ==> Ends(s, id, now, keep, Awaited(s, id, now))
  {
    hide ReadingOf;
  }

  lemma EndsResolved(s: State, id: Id, now: real, keep: Option<Id>, a: Answer)
    requires keep != Some(id)
    ensures ReadingOf(s, id).flag == On ==> Ends(s, id, now, keep, Written(Unwaited(s, id), id, false, a).state)
    ensures ReadingOf(s, id).flag == Off ==> Ends(s, id, now, keep, Dropped(s, id))
    ensures ReadingOf(s, id).flag == Unread && now - WaitingSince(s, id, now) >= LOST_MINUTES ==>
              Ends(s, id, now, keep, GivenUp(s, id))
  {
    hide ReadingOf, Without, Written;
    WrittenFrame(Unwaited(s, id), id, false, a);
  }

  lemma ReleasedOneEnd(s: State, id: Id, now: real, keep: Option<Id>, entity: Option<Id>, a: Answer)
    ensures Ends(s, id, now, keep, ReleasedOne(s, id, now, keep, entity, a).state)
  {
    hide Ends, ReadingOf, WaitingSince, Written, Unwaited, Dropped, Awaited, GivenUp;
    EndsUnresolved(s, id, now, keep);
    if keep != Some(id) { EndsResolved(s, id, now, keep, a); }
  }

  /** A wait outlives no record. */
  lemma ReleasedOneWait(s: State, id: Id, now: real, keep: Option<Id>, entity: Option<Id>, a: Answer)
    requires Distinct(s.owned)
    ensures var r := ReleasedOne(s, id, now, keep, entity, a).state;
            (id in s.owned && id in r.since ==> id in r.owned) && (id in r.owned ==> id in s.owned)
  {
    hide Distinct, Without, ReadingOf;
    WithoutFacts(s.owned, id);
    WrittenFrame(Unwaited(s, id), id, false, a);
  }

  lemma {:induction false} ReleasedExit(
    s: State, todo: seq<Id>, n: nat, now: real, keep: Option<Id>, entity: Option<Id>, answers: map<Id, Answer>, id: Id)
    requires n <= |todo| && Distinct(s.owned) && Distinct(todo)
    ensures var r := Released(s, todo, n, now, keep, entity, answers).state;
            && Distinct(r.owned) && r.readings == s.readings && r.legible == s.legible
            && r.overlooked == s.overlooked
            && (id !in todo[..n] ==> SameRecord(s, r, id))
            && (id in s.lost ==> id in r.lost)
            && (id in s.owned && id !in r.owned ==>
                  keep != Some(id) && (ReadingOf(s, id).flag == Off || id in r.lost))
            && (id in r.lost && id !in s.lost ==> keep != Some(id) && WaitedOut(s, id, now))
            && (id in r.since ==> (if id in s.since then r.since[id] == s.since[id]
                                   else r.since[id] == now && ReadingOf(s, id).flag == Unread))
            && (id in r.since && id in todo[..n] && ReadingOf(s, id).flag != Unread ==> keep == Some(id))
            && (id in r.owned ==> id in s.owned) && (id in s.owned && id in r.since ==> id in r.owned)
  {
    hide ReleasedOne, AnswerOf;
    if n > 0 {
      ReleasedExit(s, todo, n - 1, now, keep, entity, answers, id);
      var d, x := Released(s, todo, n - 1, now, keep, entity, answers).state, todo[n - 1];
      var a := AnswerOf(answers, x);
      ReleasedOneOthers(d, x, now, keep, entity, a, id);
      assert todo[..n] == todo[..n - 1] + [x] && x !in todo[..n - 1];
      assert ReadingOf(d, id) == ReadingOf(s, id);
      if id == x {
        ReleasedOneEnd(d, id, now, keep, entity, a);
        ReleasedOneWait(d, id, now, keep, entity, a);
      }
    }
  }

  /** Everything an ON leaves alone. */
  predicate SameWaits(s: State, r: State) {
    && (forall id | id in s.owned :: id in r.owned) && r.since == s.since && r.lost == s.lost
    && r.legible == s.legible && r.overlooked == s.overlooked && r.readings == s.readings
  }

  lemma RecordingKeeps(s: State, id: Id)
    ensures SameWaits(s, Recorded(s, id).state)
  {
  }

  lemma WithdrawingKeeps(s: State, t: State, id: Id)
    requires Neat(s) && id !in s.owned && t.owned == s.owned + [id] && SameWaits(s, t)
    ensures SameWaits(s, Withdrawn(t, id).state)
  {
    hide Distinct, Without;
    AppendedDistinct(s.owned, id);
    WithoutFacts(t.owned, id);
  }

  lemma WritingKeeps(s: State, t: State, id: Id, a: Answer)
    requires SameWaits(s, t)
    ensures SameWaits(s, Written(t, id, true, a).state) && Written(t, id, true, a).state.owned == t.owned
    ensures SameWaits(s, Written(t, id, true, a).state.(memo := true))
  {
    hide Written;
    WrittenFrame(t, id, true, a);
  }

  lemma ClaimedKeeps(s: State, id: Id, a: Answer)
    requires Neat(s)
    ensures SameWaits(s, Claimed(s, id, a).state)
  {
    hide Neat, Written, Landed, Without, SameWaits;
    var d0 := if id !in s.owned then Recorded(s, id) else Done(s, []);
    RecordingKeeps(s, id);
    KeepsItself(s);
    WritingKeeps(s, d0.state, id, a);
    if id !in s.owned {
      WithdrawingKeeps(s, Written(d0.state, id, true, a).state, id);
    }
  }

  lemma KeepsItself(s: State)
    ensures SameWaits(s, s)
  {
  }

  lemma TurnedOnKeeps(s: State, entity: Option<Id>, control: bool, blocked: bool, a: Answer)
    requires Neat(s)
    ensures SameWaits(s, TurnedOn(s, entity, control, blocked, a).state)
  {
    if entity.Some? {
      ClaimedKeeps(s, entity.value, a);
    }
    hide Claimed;
  }

  lemma BeforeReleaseFacts(s: State, c: Cycle)
    requires Neat(s)
    ensures var b := BeforeRelease(s, c);
            && Distinct(b.owned) && (forall id | id in s.owned :: id in b.owned)
            && b.since == s.since && b.lost == s.lost && b.legible == s.legible && b.overlooked == s.overlooked
            && b.readings == Observed(s, c.entity, c.reader).readings
  {
    hide TurnedOn, Observed, Claiming, IdsIn, Distinct;
    var o := Observed(s, c.entity, c.reader);
    ObservedSame(s, c.entity, c.reader);
    TurnedOnKeeps(o, c.entity, c.control, c.blocked, c.onAnswer);
    TidyItself(s);
    TidyMore(s, IdsIn(s), IdsIn(s) + Claiming(s, c));
    BeforeReleaseTidy(s, c, IdsIn(s) + Claiming(s, c));
  }

  /** In a cycle a record ends only because the switch was read off, or because it
      was unreadable and waited out; only the latter is reported lost. */
  lemma CycleExits(s: State, c: Cycle, id: Id)
    requires Neat(s)
    ensures var b, r := BeforeRelease(s, c), Driven(Observed(s, c.entity, c.reader), c).state;
            && r.owned == Cycled(s, c).state.owned
            && (id in s.owned && id !in r.owned ==> (ReadingOf(b, id).flag == Off || id in r.lost))
            && (id in r.lost && id !in s.lost ==> Kept(c) != Some(id) && WaitedOut(b, id, c.now))
  {
    DrivenIsRelease(s, c);
    BeforeReleaseFacts(s, c);
    var b := BeforeRelease(s, c);
    ReleasedExit(b, b.owned, |b.owned|, c.now, Kept(c), c.later, c.offAnswers, id);
    hide BeforeRelease, Released, Driven, Observed, Distinct;
  }

  // ----- how long a wait was -------------------------------------------------------------------

  /** The waits are honest, but for those that survived a legible reading. */
  predicate Waits(s: State, last: real) {
    && (forall id | id in s.since :: s.since[id] <= last)
    && (forall id | id in s.legible :: s.legible[id] <= last)
    && (forall id | id in s.overlooked :: id in s.since)
    && (forall id | id in s.since :: id in s.overlooked <==> id in s.legible && s.legible[id] > s.since[id])
  }

  lemma NotedFacts(s: State, now: real, id: Id)
    ensures var r := Noted(s, now);
            && r.since == s.since
            && (id in r.legible <==> id in s.legible || ReadingOf(s, id).flag != Unread)
            && (id in r.legible ==> r.legible[id] == if ReadingOf(s, id).flag != Unread then now else s.legible[id])
            && (id in r.overlooked <==> id in s.since && (id in s.overlooked || ReadingOf(s, id).flag != Unread))
  {
  }

  lemma CycleWaitsFor(s: State, c: Cycle, last: real, id: Id)
    requires Neat(s) && Waits(s, last) && last < c.now
    ensures var r := Cycled(s, c).state;
            && (id in r.since ==> r.since[id] <= c.now)
            && (id in r.legible ==> r.legible[id] <= c.now)
            && (id in r.overlooked ==> id in r.since)
            && (id in r.since ==> (id in r.overlooked <==> id in r.legible && r.legible[id] > r.since[id]))
  {
    hide BeforeRelease, Released, Noted, Driven, Observed, Distinct, SameRecord;
    DrivenIsRelease(s, c);
    BeforeReleaseFacts(s, c);
    var b := BeforeRelease(s, c);
    ReleasedExit(b, b.owned, |b.owned|, c.now, Kept(c), c.later, c.offAnswers, id);
    var d := Released(b, b.owned, |b.owned|, c.now, Kept(c), c.later, c.offAnswers).state;
    assert b.owned[..|b.owned|] == b.owned;
    NotedFacts(d, c.now, id);
    var r := Cycled(s, c).state;
    assert r.since == d.since && r.legible == Noted(d, c.now).legible && r.overlooked == Noted(d, c.now).overlooked;
  }

  /** Every wait is for an owned switch. */
  predicate WaitsOwned(s: State) { forall id | id in s.since :: id in s.owned }

  /** One cycle and one wait: it stays with its record, it is older than the cycle only if
      it was there before, and a legible reading leaves it only to the kept switch. */
  lemma CycleWait(s: State, c: Cycle, id: Id)
    requires Neat(s) && WaitsOwned(s)
    ensures var r := Cycled(s, c).state;
            id in r.since ==>
              && id in r.owned
              && (if id in s.since then r.since[id] == s.since[id] else r.since[id] == c.now)
              && (ReadingOf(Observed(s, c.entity, c.reader), id).flag != Unread ==> Kept(c) == Some(id))
  {
    hide BeforeRelease, Released, Noted, Driven, Observed, Distinct, SameRecord, Kept;
    DrivenIsRelease(s, c);
    BeforeReleaseFacts(s, c);
    var b := BeforeRelease(s, c);
    ReleasedExit(b, b.owned, |b.owned|, c.now, Kept(c), c.later, c.offAnswers, id);
    var d := Released(b, b.owned, |b.owned|, c.now, Kept(c), c.later, c.offAnswers).state;
    assert b.owned[..|b.owned|] == b.owned;
    NotedSame(d, c.now);
    SameUnlessHeld(b, d, id);
  }

  lemma SameUnlessHeld(b: State, d: State, id: Id)
    ensures SameRecord(b, d, id) ==> (id in d.since <==> id in b.since)
  {
  }

  /** One step of a run and one wait, crashes and unloads included: they end every wait. */
  lemma StepWait(s: State, step: Step, id: Id)
    requires Neat(s) && WaitsOwned(s)
    ensures var n := Next(s, step);
            id in n.since ==>
              && id in n.owned
              && (step.event.Guard? ==>
                    && n == Cycled(s, step.event.cycle).state
                    && (if id in s.since then n.since[id] == s.since[id] else n.since[id] == step.event.cycle.now))
              && (!step.event.Guard? ==> id in s.since && n.since[id] == s.since[id])
  {
    hide Cycled, Neat, Blind;
    if step.event.Guard? { CycleWait(s, step.event.cycle, id); }
  }

  lemma {:induction false} RunWaitsOwned(run: seq<Step>)
    ensures WaitsOwned(After(INITIAL, run))
  {
    hide Next, Neat;
    if run != [] {
      var prefix, step := run[..|run| - 1], run[|run| - 1];
      RunWaitsOwned(prefix);
      RunNeat(prefix);
      forall id | id in After(INITIAL, run).since ensures id in After(INITIAL, run).owned {
        StepWait(After(INITIAL, prefix), step, id);
      }
    }
  }

  /** The `k`-th event of the run is a cycle that read the switch legibly. */
  predicate ReadIn(run: seq<Step>, k: nat, id: Id) {
    && k < |run| && run[k].event.Guard?
    && var c := run[k].event.cycle;
       ReadingOf(Observed(After(INITIAL, run[..k]), c.entity, c.reader), id).flag != Unread
  }

  lemma {:induction false} CyclesTick(run: seq<Step>, k: nat)
    requires Ticks(run) && k < |run| && run[k].event.Guard?
    ensures LastCycle(run).Some? && run[k].event.cycle.now <= LastCycle(run).value
    ensures run[|run| - 1].event.Guard? && k < |run| - 1 ==> run[k].event.cycle.now < run[|run| - 1].event.cycle.now
  {
    if k < |run| - 1 {
      CyclesTick(run[..|run| - 1], k);
    }
  }

  /** A wait older than a cycle of the run was there before that cycle and survived it. */
  lemma {:induction false} WaitPersists(run: seq<Step>, k: nat, id: Id)
    requires Ticks(run) && k < |run| && run[k].event.Guard?
    requires id in After(INITIAL, run).since && After(INITIAL, run).since[id] < run[k].event.cycle.now
    ensures id in After(INITIAL, run[..k]).since
    ensures id in Cycled(After(INITIAL, run[..k]), run[k].event.cycle).state.since
  {
    hide Next, Neat, Cycled, WaitsOwned;
    var prefix, step := run[..|run| - 1], run[|run| - 1];
    RunWaitsOwned(prefix);
    RunNeat(prefix);
    StepWait(After(INITIAL, prefix), step, id);
    if k < |run| - 1 {
      CyclesTick(run, k);
      WaitPersists(prefix, k, id);
      assert prefix[..k] == run[..k];
    }
  }

  /** A cycle keeps the waits honest; only a switch kept on through a legible reading
      joins the exceptions. */
  lemma CycleWaits(s: State, c: Cycle, last: real)
    requires Neat(s) && Waits(s, last) && last < c.now
    ensures Waits(Cycled(s, c).state, c.now)
  {
    hide Cycled, Neat, Kept, BeforeRelease;
    forall id: Id
      ensures var r := Cycled(s, c).state;
              && (id in r.since ==> r.since[id] <= c.now)
              && (id in r.legible ==> r.legible[id] <= c.now)
              && (id in r.overlooked ==> id in r.since)
              && (id in r.since ==> (id in r.overlooked <==> id in r.legible && r.legible[id] > r.since[id]))
    {
      CycleWaitsFor(s, c, last, id);
    }
  }

  lemma {:induction false} BlindWritesFrame(s: State, todo: seq<Id>, n: nat, answers: map<Id, Answer>)
    requires n <= |todo|
    ensures var r := BlindWrites(s, todo, n, answers).state;
            && r.since == s.since && r.legible == s.legible && r.overlooked == s.overlooked
            && r.owned == s.owned && r.disk == s.disk
  {
    hide Written, AnswerOf;
    if n > 0 {
      BlindWritesFrame(s, todo, n - 1, answers);
      WrittenFrame(BlindWrites(s, todo, n - 1, answers).state, todo[n - 1], false, AnswerOf(answers, todo[n - 1]));
    }
  }

  lemma OutcomeWaits(s: State, ev: Event, last: real)
    requires Neat(s) && Waits(s, last) && (ev.Guard? ==> last < ev.cycle.now)
    ensures Waits(Outcome(s, ev).state, if ev.Guard? then ev.cycle.now else last)
  {
    match ev
    case Guard(c) => CycleWaits(s, c, last);
    case Save =>
    case Unload(answers) => BlindWritesFrame(s, s.owned, |s.owned|, answers);
  }

  /** The time of a run's last cycle. */
  function LastCycle(run: seq<Step>): Option<real> {
    if run == [] then None
    else
      var ev := run[|run| - 1].event;
      if ev.Guard? then Some(ev.cycle.now) else LastCycle(run[..|run| - 1])
  }

  /** Cycles come at strictly increasing times. */
  predicate Ticks(run: seq<Step>) {
    run != [] ==>
      var prefix, ev := run[..|run| - 1], run[|run| - 1].event;
      Ticks(prefix) && (ev.Guard? && LastCycle(prefix).Some? ==> LastCycle(prefix).value < ev.cycle.now)
  }

  lemma NextWaits(s: State, step: Step, last: real)
    requires Waits(Outcome(s, step.event).state, last)
    ensures Waits(Next(s, step), last)
  {
    hide Outcome;
  }

  /** The waits of a run are honest up to its last cycle, or any later time. */
  lemma {:induction false} RunWaits(run: seq<Step>, last: real)
    requires Ticks(run) && (LastCycle(run).Some? ==> LastCycle(run).value <= last)
    ensures Waits(After(INITIAL, run), last)
  {
    if run != [] {
      var prefix, step := run[..|run| - 1], run[|run| - 1];
      var s := After(INITIAL, prefix);
      RunNeat(prefix);
      hide Outcome, Neat, Next;
      if step.event.Guard? {
        var now := step.event.cycle.now;
        var before := if LastCycle(prefix).Some? then LastCycle(prefix).value else now - 1.0;
        RunWaits(prefix, before);
        OutcomeWaits(s, step.event, before);
        LaterWaits(Outcome(s, step.event).state, now, last);
      } else {
        RunWaits(prefix, last);
        OutcomeWaits(s, step.event, last);
      }
      NextWaits(s, step, last);
    }
  }

  lemma LaterWaits(s: State, last: real, later: real)
    requires Waits(s, last) && last <= later
    ensures Waits(s, later)
  {
  }

  /** In every run, whatever the device does and wherever it is cut, a switch is
      reported lost only unreadable and at least half an hour after its wait began;
      that wait held no legible reading exactly when the switch was not overlooked. */
  lemma LostAfterWait(run: seq<Step>, c: Cycle, id: Id)
    requires Ticks(run)
    requires var s := After(INITIAL, run);
             id in Driven(Observed(s, c.entity, c.reader), c).state.lost && id !in s.lost
    ensures var s := After(INITIAL, run);
            && id in s.since && c.now - s.since[id] >= LOST_MINUTES && Kept(c) != Some(id)
            && ReadingOf(Observed(s, c.entity, c.reader), id).flag == Unread
            && (id !in s.overlooked <==> id !in s.legible || s.legible[id] <= s.since[id])
            && (id !in s.overlooked ==> id !in s.legible || c.now - s.legible[id] >= LOST_MINUTES)
  {
    hide BeforeRelease, Driven, Observed, Cycled, After, Neat, Kept, Ticks, Blind, Saved;
    var s := After(INITIAL, run);
    RunNeat(run);
    CycleExits(s, c, id);
    BeforeReleaseFacts(s, c);
    RunWaits(run, if LastCycle(run).Some? then LastCycle(run).value else 0.0);
  }

  /** Read legibly by a cycle of the run less than half an hour before `now`; and kept by
      that cycle. */
  predicate ReadLately(run: seq<Step>, k: nat, id: Id, now: real) {
    ReadIn(run, k, id) && run[k].event.cycle.now > now - LOST_MINUTES
  }

  predicate KeptLately(run: seq<Step>, k: nat, id: Id, now: real) {
    ReadLately(run, k, id, now) && Kept(run[k].event.cycle) == Some(id)
  }

  /** Exactly when a switch is lost too soon: a legible reading lies in the half hour
      before the loss if and only if some cycle in that half hour read the switch while
      keeping it on. Every cycle that read it in that time kept it. */
  lemma LostTooSoonIff(run: seq<Step>, c: Cycle, id: Id)
    requires Ticks(run)
    requires var s := After(INITIAL, run);
             id in Driven(Observed(s, c.entity, c.reader), c).state.lost && id !in s.lost
    ensures (exists k: nat :: ReadLately(run, k, id, c.now))
       <==> (exists k: nat :: KeptLately(run, k, id, c.now))
    ensures forall k: nat | ReadLately(run, k, id, c.now) :: KeptLately(run, k, id, c.now)
  {
    hide Driven, Observed, Cycled, After, Neat, Ticks, WaitsOwned, Kept;
    LostAfterWait(run, c, id);
    forall k: nat | ReadLately(run, k, id, c.now)
      ensures KeptLately(run, k, id, c.now)
    {
      WaitPersists(run, k, id);
      ReadWhileWaiting(run, k, id);
    }
    assert forall k: nat :: KeptLately(run, k, id, c.now) ==> ReadLately(run, k, id, c.now);
  }

  lemma ReadWhileWaiting(run: seq<Step>, k: nat, id: Id)
    requires ReadIn(run, k, id) && id in Cycled(After(INITIAL, run[..k]), run[k].event.cycle).state.since
    ensures Kept(run[k].event.cycle) == Some(id)
  {
    hide Observed, Cycled, After, Neat, WaitsOwned, Kept;
    RunWaitsOwned(run[..k]);
    RunNeat(run[..k]);
    CycleWait(After(INITIAL, run[..k]), run[k].event.cycle, id);
  }

  /** A wait is overlooked only through a cycle that kept the switch on. */
  lemma OverlookedWhenKept(run: seq<Step>, c: Cycle, id: Id)
    requires Ticks(run)
    requires var s := After(INITIAL, run);
             id in Cycled(s, c).state.overlooked && id !in s.overlooked
    ensures Kept(c) == Some(id)
  {
    hide Neat, Kept, After, WaitsOwned, Cycled, Observed;
    var s := After(INITIAL, run);
    RunNeat(run);
    RunWaitsOwned(run);
    RunWaits(run, if LastCycle(run).Some? then LastCycle(run).value else 0.0);
    CycleWait(s, c, id);
    CycleOverlooks(s, c, id);
  }

  /** What a cycle overlooks anew it read legibly. */
  lemma CycleOverlooks(s: State, c: Cycle, id: Id)
    requires Neat(s)
    ensures var r := Cycled(s, c).state;
            && (id in r.overlooked ==> id in r.since)
            && (id in r.overlooked && id !in s.overlooked ==>
                  ReadingOf(Observed(s, c.entity, c.reader), id).flag != Unread)
  {
    hide BeforeRelease, Released, Noted, Driven, Observed, Distinct, SameRecord;
    DrivenIsRelease(s, c);
    BeforeReleaseFacts(s, c);
    var b := BeforeRelease(s, c);
    ReleasedExit(b, b.owned, |b.owned|, c.now, Kept(c), c.later, c.offAnswers, id);
    var d := Released(b, b.owned, |b.owned|, c.now, Kept(c), c.later, c.offAnswers).state;
    NotedFacts(d, c.now, id);
  }
}
