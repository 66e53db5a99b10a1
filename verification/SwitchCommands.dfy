/** When a cycle switches the disinfection switch on: what its memory of a boost already
    served rests on, and that nothing else keeps an ON from being sent. */
module SwitchCommands {
  import opened Options
  import opened SwitchOwnership
  import opened SwitchSafety
  import SwitchWaits

  /** The guard wants the configured switch on and may command it. */
  predicate Wants(c: Cycle) { c.on && c.control && c.entity.Some? }

  /** The cycle's own reading finds the switch on. */
  predicate ReadsOn(c: Cycle) {
    c.entity.Some? && c.entity.value in c.reader && c.reader[c.entity.value].flag == On
  }

  /** The write is seen to have done its work: a usable state before it, no error, and the
      switch read on after it. */
  predicate ReadsBack(a: Answer) { a.before != Unread && !a.raised && a.after == On }

  /** The step ran to its end. */
  predicate RanOut(s: State, step: Step) { !Cut(step, |Outcome(s, step.event).snaps|) }

  /** The `k`-th step is a whole cycle that wanted its switch on and found it on, or switched
      it on. */
  predicate FoundOrPutOn(run: seq<Step>, k: nat) {
    && k < |run| && run[k].event.Guard? && RanOut(After(INITIAL, run[..k]), run[k])
    && var c := run[k].event.cycle;
       Wants(c) && !c.blocked && (ReadsOn(c) || (ReadsBack(c.onAnswer) && !After(INITIAL, run[..k]).memo))
  }

  /** The `j`-th step runs to its end without ending the boost. */
  predicate StaysWanted(run: seq<Step>, j: nat)
    requires j < |run|
  {
    && RanOut(After(INITIAL, run[..j]), run[j]) && !run[j].event.Unload?
    && (run[j].event.Guard? ==> Wants(run[j].event.cycle))
  }

  /** The boost is served: some cycle of it found the switch on or switched it on, and it has
      been wanted ever since. */
  ghost predicate Served(run: seq<Step>) {
    exists k: nat :: FoundOrPutOn(run, k) && forall j: nat | k < j < |run| :: StaysWanted(run, j)
  }

  lemma {:induction false} ReleasedMemo(
    s: State, todo: seq<Id>, n: nat, now: real, keep: Option<Id>, entity: Option<Id>, answers: map<Id, Answer>)
    requires n <= |todo|
    ensures Released(s, todo, n, now, keep, entity, answers).state.memo == s.memo
  {
    hide AnswerOf, Written, Without, ReadingOf, WaitingSince;
    if n > 0 {
      ReleasedMemo(s, todo, n - 1, now, keep, entity, answers);
      var d := Released(s, todo, n - 1, now, keep, entity, answers);
      WrittenFrame(Unwaited(d.state, todo[n - 1]), todo[n - 1], false, AnswerOf(answers, todo[n - 1]));
    }
  }

  lemma ClaimedMemo(s: State, id: Id, a: Answer)
    ensures Claimed(s, id, a).state.memo == (s.memo || ReadsBack(a))
  {
    hide Written, Without;
    WrittenFrame(s, id, true, a);
    WrittenFrame(Recorded(s, id).state, id, true, a);
  }

  lemma ObservedReads(s: State, c: Cycle)
    ensures c.entity.Some? ==> (Observed(s, c.entity, c.reader).observed == On <==> ReadsOn(c))
    ensures Observed(s, c.entity, c.reader).memo == s.memo
  {
  }

  /** The memory after a whole cycle. */
  lemma CycleMemo(s: State, c: Cycle)
    ensures Cycled(s, c).state.memo
       <==> Wants(c) && (s.memo || (!c.blocked && (ReadsOn(c) || ReadsBack(c.onAnswer))))
  {
    hide Released, Claimed, Observed, ReadsOn, ReadsBack;
    var o, b := Observed(s, c.entity, c.reader), BeforeRelease(s, c);
    ObservedReads(s, c);
    if c.entity.Some? { ClaimedMemo(o, c.entity.value, c.onAnswer); }
    DrivenIsRelease(s, c);
    ReleasedMemo(b, b.owned, |b.owned|, c.now, Kept(c), c.later, c.offAnswers);
    hide Driven;
  }

  lemma {:induction false} BlindMemo(s: State, todo: seq<Id>, n: nat, answers: map<Id, Answer>)
    requires n <= |todo|
    ensures BlindWrites(s, todo, n, answers).state.memo == s.memo
  {
    hide Written, AnswerOf;
    if n > 0 {
      BlindMemo(s, todo, n - 1, answers);
      WrittenFrame(BlindWrites(s, todo, n - 1, answers).state, todo[n - 1], false, AnswerOf(answers, todo[n - 1]));
    }
  }

  lemma NextMemo(s: State, step: Step)
    ensures Next(s, step).memo
       <==> RanOut(s, step) && !step.event.Unload?
            && (if step.event.Guard?
                then Wants(step.event.cycle)
                     && (s.memo || (!step.event.cycle.blocked
                                    && (ReadsOn(step.event.cycle) || ReadsBack(step.event.cycle.onAnswer))))
                else s.memo)
  {
    hide Cycled, Blind, ReadsOn, ReadsBack, Wants;
    if step.event.Guard? { CycleMemo(s, step.event.cycle); }
  }

  /** The memory of a boost already served is exactly that: over every run it is set if and
      only if a cycle of the boost found the switch on or switched it on, and no cycle since
      wanted it off. */
  lemma {:induction false} MemoIff(run: seq<Step>)
    ensures After(INITIAL, run).memo <==> Served(run)
  {
    if run != [] {
      var prefix, step := run[..|run| - 1], run[|run| - 1];
      MemoIff(prefix);
      NextMemo(After(INITIAL, prefix), step);
      ServedNext(run);
    }
  }

  /** A boost is served after one more step exactly when that step serves it, or it was
      served and stays wanted. */
  lemma ServedNext(run: seq<Step>)
    requires run != []
    ensures var prefix, last: nat := run[..|run| - 1], |run| - 1;
            Served(run) <==> FoundOrPutOn(run, last) || (Served(prefix) && StaysWanted(run, last))
  {
    hide After, RanOut, Wants, ReadsOn, ReadsBack;
    var prefix, last: nat := run[..|run| - 1], |run| - 1;
    assert forall j: nat | j <= last :: prefix[..j] == run[..j];
    assert forall k: nat | k < last :: FoundOrPutOn(prefix, k) <==> FoundOrPutOn(run, k);
    assert forall j: nat | j < last :: StaysWanted(prefix, j) <==> StaysWanted(run, j);
    if Served(prefix) && StaysWanted(run, last) {
      var k: nat :| FoundOrPutOn(prefix, k) && forall j: nat | k < j < last :: StaysWanted(prefix, j);
      assert FoundOrPutOn(run, k) && forall j: nat | k < j < |run| :: StaysWanted(run, j);
    }
    if Served(run) && !FoundOrPutOn(run, last) {
      var k: nat :| FoundOrPutOn(run, k) && forall j: nat | k < j < |run| :: StaysWanted(run, j);
      assert FoundOrPutOn(prefix, k);
    }
  }

  // ----- the ON that is sent ------------------------------------------------------------

  /** The cycle calls the switch on: at some await its own ON may have landed. */
  ghost predicate CallsOn(s: State, c: Cycle, id: Id) {
    exists m | m in Cycled(s.(armed := {}), c).snaps :: id in m.armed
  }

  lemma ClaimedCalls(o: State, id: Id, a: Answer)
    requires o.armed == {}
    ensures Claimed(o, id, a).state.armed <= {id}
    ensures forall m | m in Claimed(o, id, a).snaps :: m.armed <= {id}
    ensures a.before == Unread ==>
              Claimed(o, id, a).state.armed == {} && forall m | m in Claimed(o, id, a).snaps :: m.armed == {}
    ensures a.before != Unread ==> exists m :: m in Claimed(o, id, a).snaps && id in m.armed
  {
    hide Without, Landed;
    var d0 := if id in o.owned then Done(o, []) else Recorded(o, id);
    var w := Written(d0.state, id, true, a);
    assert a.before != Unread ==> w.snaps[1] in w.snaps && id in w.snaps[1].armed;
    assert forall m | m in w.snaps :: m in Claimed(o, id, a).snaps;
  }

  lemma {:induction false} ReleasedQuiet(
    s: State, todo: seq<Id>, n: nat, now: real, keep: Option<Id>, entity: Option<Id>, answers: map<Id, Answer>)
    requires n <= |todo|
    ensures var d := Released(s, todo, n, now, keep, entity, answers);
            d.state.armed <= s.armed && forall m | m in d.snaps :: m.armed <= s.armed
  {
    hide ReleasedOne, AnswerOf, WaitingSince, Without;
    if n > 0 {
      ReleasedQuiet(s, todo, n - 1, now, keep, entity, answers);
      var d, x := Released(s, todo, n - 1, now, keep, entity, answers), todo[n - 1];
      ReleasedOneShape(d.state, x, now, keep, entity, AnswerOf(answers, x));
      ReleasedOneInFlight(d.state, x, now, keep, entity, AnswerOf(answers, x));
    }
  }

  lemma TurnedOnCalls(o: State, c: Cycle)
    requires Wants(c) && o.armed == {}
    ensures var d := TurnedOn(o, c.entity, c.control, c.blocked, c.onAnswer);
            && (if !c.blocked && !o.memo && o.observed != On && c.onAnswer.before != Unread
                then exists m :: m in d.snaps && c.entity.value in m.armed
                else d.state.armed == {} && forall m | m in d.snaps :: m.armed == {})
            && d.state.armed <= {c.entity.value} && forall m | m in d.snaps :: m.armed <= {c.entity.value}
  {
    hide Claimed;
    ClaimedCalls(o, c.entity.value, c.onAnswer);
  }

  /** A cycle calls a switch on exactly when it wants it on, nothing forbids it, it is not
      read on nor remembered as served, and it has a usable state. */
  lemma CycleCallsOn(s: State, c: Cycle, id: Id)
    ensures CallsOn(s, c, id)
       <==> Wants(c) && c.entity == Some(id) && !c.blocked && !s.memo && !ReadsOn(c) && c.onAnswer.before != Unread
  {
    hide Released, TurnedOn, Observed, ReadsOn, Noted, HandedOver;
    var t := s.(armed := {});
    var o, b := Observed(t, c.entity, c.reader), BeforeRelease(t, c);
    ObservedReads(t, c);
    ObservedSame(t, c.entity, c.reader);
    DrivenSnaps(t, c);
    ReleasedQuiet(b, b.owned, |b.owned|, c.now, Kept(c), c.later, c.offAnswers);
    NotedSame(Released(b, b.owned, |b.owned|, c.now, Kept(c), c.later, c.offAnswers).state, c.now);
    if Wants(c) {
      TurnedOnCalls(o, c);
      var d := TurnedOn(o, c.entity, c.control, c.blocked, c.onAnswer);
      if exists m :: m in d.snaps && c.entity.value in m.armed {
        var m :| m in d.snaps && c.entity.value in m.armed;
        assert m in Cycled(t, c).snaps;
      }
    }
    hide Driven;
  }

  /** The ON over runs: a cycle calls its switch on exactly when it wants it on, the pump's
      mode allows hot water, the switch has a usable state and is not read on, and no cycle of
      the boost found it on or switched it on before. A refused or failed ON is asked for
      again. */
  lemma SendsOnIff(run: seq<Step>, c: Cycle, id: Id)
    ensures CallsOn(After(INITIAL, run), c, id)
       <==> Wants(c) && c.entity == Some(id) && !c.blocked && !ReadsOn(c) && c.onAnswer.before != Unread && !Served(run)
  {
    hide Cycled, After, ReadsOn, CallsOn;
    MemoIff(run);
    CycleCallsOn(After(INITIAL, run), c, id);
  }

  // ----- the OFF that is sent -----------------------------------------------------------

  /** The OFF is seen to have done its work. */
  predicate ReadsBackOff(a: Answer) { a.before != Unread && !a.raised && a.after == Off }

  /** A record read on: kept, and on by us afterwards only if it was and the OFF failed. */
  predicate SwitchedOff(s: State, id: Id, a: Answer, r: State) {
    && (id in r.owned <==> id in s.owned) && (id in r.lost <==> id in s.lost)
    && (id in r.armed <==> id in s.armed && !ReadsBackOff(a))
  }

  lemma ReleasedOneOff(s: State, id: Id, now: real, keep: Option<Id>, entity: Option<Id>, a: Answer)
    requires keep != Some(id) && ReadingOf(s, id).flag == On
    ensures SwitchedOff(s, id, a, ReleasedOne(s, id, now, keep, entity, a).state)
  {
    hide ReadingOf;
  }

  lemma {:induction false} ReleasedOff(
    s: State, todo: seq<Id>, n: nat, now: real, keep: Option<Id>, entity: Option<Id>, answers: map<Id, Answer>, id: Id)
    requires n <= |todo| && Distinct(s.owned) && Distinct(todo)
    requires keep != Some(id) && ReadingOf(s, id).flag == On
    ensures var r := Released(s, todo, n, now, keep, entity, answers).state;
            && Distinct(r.owned) && r.readings == s.readings
            && (id !in todo[..n] ==> SameRecord(s, r, id))
            && (id in todo[..n] ==> SwitchedOff(s, id, AnswerOf(answers, id), r))
  {
    hide ReleasedOne, AnswerOf, ReadsBackOff, Distinct;
    if n > 0 {
      ReleasedOff(s, todo, n - 1, now, keep, entity, answers, id);
      var d, x := Released(s, todo, n - 1, now, keep, entity, answers).state, todo[n - 1];
      var a := AnswerOf(answers, x);
      ReleasedOneOthers(d, x, now, keep, entity, a, id);
      NotBefore(todo, n);
      if id == x { ReleasedOneOff(d, id, now, keep, entity, a); }
    }
  }

  lemma NotBefore(todo: seq<Id>, n: nat)
    requires 0 < n <= |todo| && Distinct(todo)
    ensures todo[..n] == todo[..n - 1] + [todo[n - 1]] && todo[n - 1] !in todo[..n - 1]
  {
  }

  /** Every owned switch read on that the cycle is not keeping is sent an OFF, and stays on
      record until a reading shows it off. */
  lemma CycleSendsOff(s: State, c: Cycle, id: Id)
    requires Neat(s) && id in s.owned && !(Wants(c) && c.later == Some(id))
    requires id in c.reader && c.reader[id].flag == On
    ensures var b, r := BeforeRelease(s, c), Cycled(s, c).state;
            id in r.owned
            && (id !in s.lost ==> (id in r.armed <==> id in b.armed && !ReadsBackOff(AnswerOf(c.offAnswers, id))))
  {
    hide TurnedOn, Observed, Released, Noted, Distinct, ReadsBackOff, AnswerOf, BeforeRelease, ReadingOf;
    var o, b := Observed(s, c.entity, c.reader), BeforeRelease(s, c);
    SwitchWaits.BeforeReleaseFacts(s, c);
    OwnedIsRead(s, c, id);
    SameReadings(b, o, id);
    DrivenIsRelease(s, c);
    ReleasedOff(b, b.owned, |b.owned|, c.now, Kept(c), c.later, c.offAnswers, id);
    assert b.owned[..|b.owned|] == b.owned;
    NotedSame(Released(b, b.owned, |b.owned|, c.now, Kept(c), c.later, c.offAnswers).state, c.now);
    hide Driven;
  }

  lemma OwnedIsRead(s: State, c: Cycle, id: Id)
    requires id in s.owned && id in c.reader
    ensures ReadingOf(Observed(s, c.entity, c.reader), id) == c.reader[id]
  {
  }

  lemma SameReadings(b: State, o: State, id: Id)
    requires b.readings == o.readings
    ensures ReadingOf(b, id) == ReadingOf(o, id)
  {
  }
}
