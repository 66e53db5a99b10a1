/** Crash safety of the ownership record: at which awaits, of which operations, every
    switch that is on by this code is in the record on disk. */
module SwitchSafety {
  import opened Options
  import opened SwitchOwnership

  // ----- safety at an await -----------------------------------------------------------

  /** Every switch that is on by us is in the record on disk. */
  predicate Safe(m: State) { forall id | id in m.armed :: id in m.disk }

  predicate AllSafe(snaps: seq<State>) { forall i | 0 <= i < |snaps| :: Safe(snaps[i]) }

  /** The switches on by us whose record is gone from memory. */
  function Stranded(m: State): set<Id> { set id | id in m.armed && id !in m.owned }

  /** Within an operation: safe, and what is owned is on disk. */
  predicate Mid(s: State) {
    Distinct(s.owned) && (forall id | id in s.owned :: id in s.disk) && Safe(s)
  }

  /** Between operations: everything on by us is owned, and nothing waits to be reported. */
  predicate Inv(s: State) { Neat(s) && Mid(s) && Stranded(s) == {} && s.lost == [] }

  /** Safe, and every switch that is on by us is in memory's record too. */
  predicate Sound(m: State) { Safe(m) && Stranded(m) == {} }

  predicate AllSound(snaps: seq<State>) { forall i | 0 <= i < |snaps| :: Sound(snaps[i]) }

  lemma SoundIsSafe(snaps: seq<State>)
    requires AllSound(snaps)
    ensures AllSafe(snaps)
  {
  }

  lemma SafeConcat(a: seq<State>, b: seq<State>)
    requires AllSafe(a) && AllSafe(b)
    ensures AllSafe(a + b)
  {
    hide Safe;
  }

  lemma SafeInFlight(s: State, snaps: seq<State>, extra: set<Id>)
    requires Safe(s) && (forall id | id in extra :: id in s.disk)
    requires forall m | m in snaps :: InFlight(s, m, extra)
    ensures AllSafe(snaps)
  {
    forall i | 0 <= i < |snaps| ensures Safe(snaps[i]) { assert snaps[i] in snaps; }
  }

  lemma SoundConcat(a: seq<State>, b: seq<State>)
    requires AllSound(a) && AllSound(b)
    ensures AllSound(a + b)
  {
    hide Sound;
  }

  lemma SoundInFlight(s: State, snaps: seq<State>, extra: set<Id>)
    requires Sound(s) && (forall id | id in extra :: id in s.disk && id in s.owned)
    requires forall m | m in snaps :: InFlight(s, m, extra)
    ensures AllSound(snaps)
  {
    forall i | 0 <= i < |snaps| ensures Sound(snaps[i]) {
      assert snaps[i] in snaps;
      assert Stranded(snaps[i]) <= Stranded(s);
    }
  }

  lemma LandedArms(s: State, id: Id, a: Answer)
    requires Landed(true, a)
    ensures id in Written(s, id, true, a).state.armed && Written(s, id, true, a).state.disk == s.disk
  {
  }

  lemma StrandedNone(s: State, id: Id)
    requires Stranded(s) == {} && id !in s.owned
    ensures id !in s.armed
  {
    assert id in s.armed ==> id in Stranded(s);
  }

  lemma SavedSafe(s: State)
    requires Neat(s) && Safe(s) && Stranded(s) == {} && s.lost == []
    ensures Inv(Saved(s).state) && AllSound(Saved(s).snaps)
  {
    hide Distinct;
    forall id | id in s.armed ensures id in s.owned { if id !in s.owned { StrandedNone(s, id); } }
    var t := Saved(s).state;
    assert Stranded(t) == Stranded(s);
  }

  lemma RecordedSafe(s: State, id: Id)
    requires Inv(s) && id !in s.owned
    ensures Inv(Recorded(s, id).state) && AllSound(Recorded(s, id).snaps)
  {
    hide Distinct;
    AppendedDistinct(s.owned, id);
    var t := s.(owned := s.owned + [id]);
    assert Stranded(t) <= Stranded(s);
    SavedSafe(t);
  }

  lemma WithdrawnSafe(s: State, id: Id)
    requires Inv(s) && id !in s.armed
    ensures Inv(Withdrawn(s, id).state) && AllSound(Withdrawn(s, id).snaps)
  {
    hide Distinct, Without;
    WithoutFacts(s.owned, id);
    var t := s.(owned := Without(s.owned, id));
    assert Stranded(t) <= Stranded(s) + (if id in s.armed then {id} else {});
    SavedSafe(t);
  }

  /** A write to a recorded switch is safe whatever the device does. */
  lemma WrittenSafe(s: State, id: Id, on: bool, a: Answer)
    requires Inv(s) && id in s.owned
    ensures var d := Written(s, id, on, a);
            && Inv(d.state) && AllSound(d.snaps) && d.state.owned == s.owned
            && d.state.armed <= s.armed + {id} && d.state.readings == s.readings
            && (on && Honest(on, a) && !Landed(on, a) ==> d.state.armed == s.armed)
            && (on && Landed(on, a) ==> id in d.state.armed)
  {
    hide Distinct, Landed;
    if on && Landed(on, a) { LandedArms(s, id, a); }
    WrittenInFlight(s, id, on, a);
    var d := Written(s, id, on, a);
    SoundInFlight(s, d.snaps, if on then {id} else {});
    assert Stranded(d.state) <= Stranded(s);
  }

  lemma InvMemo(s: State)
    ensures Inv(s) <==> Inv(s.(memo := true))
  {
    hide Distinct;
    assert Stranded(s) == Stranded(s.(memo := true));
  }

  lemma ClaimedSafe(s: State, id: Id, a: Answer)
    requires Inv(s) && Honest(true, a)
    ensures var d := Claimed(s, id, a);
            && Inv(d.state) && AllSound(d.snaps) && d.state.armed <= s.armed + {id}
            && d.state.readings == s.readings
            && (Landed(true, a) ==> id in d.state.armed) && (!Landed(true, a) ==> d.state.armed == s.armed)
  {
    hide Written, Landed, Withdrawn, Honest, Inv, AllSound;
    var d0 := if id in s.owned then Done(s, []) else Recorded(s, id);
    SoundNone();
    if id !in s.owned { RecordedSafe(s, id); }
    var w := Written(d0.state, id, true, a);
    WrittenSafe(d0.state, id, true, a);
    SoundConcat(d0.snaps, w.snaps);
    if id !in s.owned && !Landed(true, a) {
      InvUnarmed(s, id);
      WithdrawnSafe(w.state, id);
      WithdrawnSame(w.state, id);
      SoundConcat(d0.snaps + w.snaps, Withdrawn(w.state, id).snaps);
    }
    InvMemo(w.state);
  }

  lemma SoundNone()
    ensures AllSound([])
  {
  }

  lemma WithdrawnSame(s: State, id: Id)
    ensures Withdrawn(s, id).state.armed == s.armed && Withdrawn(s, id).state.readings == s.readings
  {
  }

  lemma InvUnarmed(s: State, id: Id)
    requires Inv(s) && id !in s.owned
    ensures id !in s.armed
  {
    StrandedNone(s, id);
  }

  lemma UnreadClaimSafe(s: State, id: Id, a: Answer)
    requires Inv(s) && a.before == Unread
    ensures Inv(Claimed(s, id, a).state) && AllSound(Claimed(s, id, a).snaps)
  {
    ClaimedSafe(s, id, a.(late := false));
    hide Inv, AllSound;
    assert Claimed(s, id, a) == Claimed(s, id, a.(late := false));
  }

  lemma OwnedClaimSafe(s: State, id: Id, a: Answer)
    requires Inv(s) && id in s.owned
    ensures Inv(Claimed(s, id, a).state) && AllSound(Claimed(s, id, a).snaps)
  {
    hide Written, AllSound, Inv, Landed;
    WrittenSafe(s, id, true, a);
    InvMemo(Written(s, id, true, a).state);
    assert [] + Written(s, id, true, a).snaps == Written(s, id, true, a).snaps;
  }

  lemma LateClaimUnsafe(s: State, id: Id, a: Answer)
    requires Inv(s) && id !in s.owned && a.before != Unread && !Honest(true, a)
    ensures !Inv(Claimed(s, id, a).state)
  {
    hide Distinct, Without;
    AppendedDistinct(s.owned, id);
    WithoutFacts(s.owned + [id], id);
    assert id in Stranded(Claimed(s, id, a).state);
  }

  /** A failed claim may be withdrawn safely exactly when the ON it withdraws never
      lands late: that assumption about the device cannot be dropped. */
  lemma WithdrawalIff(s: State, id: Id, a: Answer)
    requires Inv(s)
    ensures Inv(Claimed(s, id, a).state) && AllSound(Claimed(s, id, a).snaps)
       <==> Honest(true, a) || a.before == Unread || id in s.owned
  {
    hide Inv, AllSound, Claimed, Honest;
    if Honest(true, a) {
      ClaimedSafe(s, id, a);
    } else if a.before == Unread {
      UnreadClaimSafe(s, id, a);
    } else if id in s.owned {
      OwnedClaimSafe(s, id, a);
    } else {
      LateClaimUnsafe(s, id, a);
    }
  }

  // ----- one cycle --------------------------------------------------------------------

  lemma TurnedOnSafe(s: State, entity: Option<Id>, control: bool, blocked: bool, a: Answer)
    requires Inv(s) && Honest(true, a)
    ensures var d := TurnedOn(s, entity, control, blocked, a);
            && Inv(d.state) && AllSound(d.snaps) && d.state.readings == s.readings
            && (forall x | x in d.state.armed :: x in s.armed || entity == Some(x))
            && (if entity.Some? && control && !blocked && !s.memo && s.observed != On && Landed(true, a)
                then entity.value in d.state.armed else d.state.armed == s.armed)
  {
    hide Claimed, Inv, Landed, Honest, AllSound;
    SoundNone();
    InvMemo(s);
    if entity.Some? {
      ClaimedSafe(s, entity.value, a);
    }
  }

  lemma ObservedInv(s: State, entity: Option<Id>, reader: map<Id, Reading>)
    requires Inv(s)
    ensures Inv(Observed(s, entity, reader)) && Inv(Observed(s, entity, reader).(memo := false))
  {
    hide Observed, Distinct;
    ObservedSame(s, entity, reader);
    var o := Observed(s, entity, reader);
    assert Stranded(o) <= Stranded(s) && Stranded(o.(memo := false)) == Stranded(o);
  }

  lemma BeforeReleaseInv(s: State, c: Cycle)
    requires Inv(s) && Honest(true, c.onAnswer)
    ensures Inv(BeforeRelease(s, c))
    ensures c.on && c.control && c.entity.Some? ==>
              AllSound(TurnedOn(Observed(s, c.entity, c.reader), c.entity, c.control, c.blocked, c.onAnswer).snaps)
  {
    hide TurnedOn, Observed, Inv, Honest, AllSound;
    ObservedInv(s, c.entity, c.reader);
    TurnedOnSafe(Observed(s, c.entity, c.reader), c.entity, c.control, c.blocked, c.onAnswer);
  }

  lemma ResolvesMid(s: State, x: Id, now: real, r: State)
    requires Mid(s) && Resolves(s, x, now, r)
    ensures Mid(r)
  {
    hide Distinct, Without, WaitingSince;
    WithoutFacts(s.owned, x);
  }

  lemma {:induction false} ReleasedMid(
    s: State, todo: seq<Id>, n: nat, now: real, keep: Option<Id>, entity: Option<Id>, answers: map<Id, Answer>)
    requires n <= |todo| && Mid(s)
    ensures var d := Released(s, todo, n, now, keep, entity, answers);
            Mid(d.state) && AllSafe(d.snaps) && d.state.disk == s.disk && d.state.armed <= s.armed
  {
    hide ReleasedOne, AnswerOf, WaitingSince, Without, Distinct;
    if n > 0 {
      ReleasedMid(s, todo, n - 1, now, keep, entity, answers);
      var d := Released(s, todo, n - 1, now, keep, entity, answers);
      var x, a := todo[n - 1], AnswerOf(answers, todo[n - 1]);
      var one := ReleasedOne(d.state, x, now, keep, entity, a);
      ReleasedOneShape(d.state, x, now, keep, entity, a);
      ReleasedOneInFlight(d.state, x, now, keep, entity, a);
      ResolvesMid(d.state, x, now, one.state);
      SafeInFlight(d.state, one.snaps, {});
      SafeConcat(d.snaps, one.snaps);
    }
  }

  /** Given up in a release: waited out, not kept, and not the configured switch merely
      unavailable. */
  predicate GivesUp(s: State, id: Id, now: real, keep: Option<Id>, entity: Option<Id>) {
    keep != Some(id) && WaitedOut(s, id, now) && !(entity == Some(id) && !ReadingOf(s, id).missing)
  }

  /** Its record ends in a release. */
  predicate Leaves(s: State, id: Id, now: real, keep: Option<Id>, entity: Option<Id>) {
    (keep != Some(id) && ReadingOf(s, id).flag == Off) || GivesUp(s, id, now, keep, entity)
  }

  /** What becomes of one record. */
  predicate Fate(s: State, id: Id, leaves: bool, r: State) {
    && (id in r.owned <==> id in s.owned && !leaves)
    && (id in r.lost <==> id in s.lost || (leaves && ReadingOf(s, id).flag != Off))
    && (leaves ==> (id in r.armed <==> id in s.armed))
  }

  lemma FateStays(s: State, id: Id, r: State)
    requires r.owned == s.owned && r.lost == s.lost
    ensures Fate(s, id, false, r)
  {
  }

  lemma FateEnds(s: State, id: Id)
    requires Distinct(s.owned)
    ensures ReadingOf(s, id).flag == Off ==> Fate(s, id, true, Dropped(s, id))
    ensures ReadingOf(s, id).flag == Unread ==> Fate(s, id, true, GivenUp(s, id))
  {
    hide Distinct, Without, ReadingOf;
    WithoutFacts(s.owned, id);
  }

  lemma ReleasedOneFate(s: State, id: Id, now: real, keep: Option<Id>, entity: Option<Id>, a: Answer)
    requires Distinct(s.owned)
    ensures Fate(s, id, Leaves(s, id, now, keep, entity), ReleasedOne(s, id, now, keep, entity, a).state)
  {
    hide Fate, Distinct, ReadingOf, Written, Dropped, GivenUp;
    FateEnds(s, id);
    WrittenFrame(Unwaited(s, id), id, false, a);
    FateStays(s, id, s);
    FateStays(s, id, Awaited(s, id, now));
    FateStays(s, id, Written(Unwaited(s, id), id, false, a).state);
  }

  lemma LeavesSame(s: State, d: State, id: Id, now: real, keep: Option<Id>, entity: Option<Id>)
    requires SameRecord(s, d, id) && d.readings == s.readings
    ensures Leaves(s, id, now, keep, entity) == Leaves(d, id, now, keep, entity)
    ensures forall leaves, r :: Fate(d, id, leaves, r) ==> Fate(s, id, leaves, r)
  {
  }

  lemma FateKept(s: State, d: State, id: Id, leaves: bool, r: State)
    requires Fate(s, id, leaves, d) && SameRecord(d, r, id)
    ensures Fate(s, id, leaves, r)
  {
  }

  /** What becomes of each record in a release: it leaves memory exactly when it is read
      off or given up, and only then without an OFF. */
  lemma {:induction false} ReleasedFate(
    s: State, todo: seq<Id>, n: nat, now: real, keep: Option<Id>, entity: Option<Id>, answers: map<Id, Answer>, id: Id)
    requires n <= |todo| && Distinct(s.owned) && Distinct(todo)
    ensures var r := Released(s, todo, n, now, keep, entity, answers).state;
            && Distinct(r.owned) && r.readings == s.readings
            && (id !in todo[..n] ==> SameRecord(s, r, id))
            && (id in todo[..n] ==> Fate(s, id, Leaves(s, id, now, keep, entity), r))
  {
    hide ReleasedOne, AnswerOf, Leaves, Fate, SameRecord;
    if n == 0 {
      SameItself(s, id);
    } else {
      ReleasedFate(s, todo, n - 1, now, keep, entity, answers, id);
      var d, x := Released(s, todo, n - 1, now, keep, entity, answers).state, todo[n - 1];
      var a := AnswerOf(answers, x);
      var r := ReleasedOne(d, x, now, keep, entity, a).state;
      ReleasedOneOthers(d, x, now, keep, entity, a, id);
      assert todo[..n] == todo[..n - 1] + [x] && x !in todo[..n - 1];
      if id == x {
        ReleasedOneFate(d, id, now, keep, entity, a);
        LeavesSame(s, d, id, now, keep, entity);
      } else if id in todo[..n] {
        FateKept(s, d, id, Leaves(s, id, now, keep, entity), r);
      } else {
        SameTwice(s, d, r, id);
      }
    }
  }

  lemma SameItself(s: State, id: Id)
    ensures SameRecord(s, s, id)
  {
  }

  lemma SameTwice(s: State, d: State, r: State, id: Id)
    requires SameRecord(s, d, id) && SameRecord(d, r, id)
    ensures SameRecord(s, r, id)
  {
  }

  /** The switches on by us that a cycle gives up. */
  function GivenUpOn(s: State, c: Cycle): set<Id> {
    var b := BeforeRelease(s, c);
    set id | id in b.armed && GivesUp(b, id, c.now, Kept(c), c.later)
  }

  /** The configuration changed under a landed ON, with an off reading from before it. */
  predicate Slipped(s: State, c: Cycle) {
    && c.on && c.control && !c.blocked && c.entity.Some? && c.later != c.entity && !s.memo
    && Observed(s, c.entity, c.reader).observed == Off && Landed(true, c.onAnswer)
  }

  /** A switch on by us that the release would drop on its off reading. */
  predicate StaleOff(s: State, c: Cycle, id: Id) {
    var b := BeforeRelease(s, c);
    id in b.armed && Kept(c) != Some(id) && ReadingOf(b, id).flag == Off
  }

  lemma ObservedOff(s: State, entity: Option<Id>, reader: map<Id, Reading>, id: Id)
    requires Inv(s)
    ensures var o := Observed(s, entity, reader);
            && (id in o.armed ==> ReadingOf(o, id).flag != Off)
            && (entity == Some(id) ==> ReadingOf(o, id).flag == o.observed)
  {
    if id in s.armed && id !in s.owned { StrandedNone(s, id); }
  }

  lemma StaleOffIs(s: State, c: Cycle, id: Id)
    requires Inv(s) && Honest(true, c.onAnswer)
    ensures StaleOff(s, c, id) <==> Slipped(s, c) && c.entity == Some(id)
  {
    hide TurnedOn, Observed, Inv, Honest, Landed, AllSafe, ReadAll;
    var o, b := Observed(s, c.entity, c.reader), BeforeRelease(s, c);
    ObservedInv(s, c.entity, c.reader);
    ObservedSame(s, c.entity, c.reader);
    ObservedOff(s, c.entity, c.reader, id);
    TurnedOnSafe(o, c.entity, c.control, c.blocked, c.onAnswer);
  }

  lemma InvParts(s: State)
    requires Inv(s)
    ensures Distinct(s.owned) && Distinct(s.disk) && Mid(s) && Safe(s) && s.lost == []
    ensures forall id | id in s.armed :: id in s.owned
  {
    hide Distinct;
    forall id | id in s.armed ensures id in s.owned { if id !in s.owned { StrandedNone(s, id); } }
  }

  lemma StrandedFate(b: State, r: State, id: Id, now: real, keep: Option<Id>, entity: Option<Id>)
    requires (id in b.armed ==> id in b.owned) && b.lost == [] && r.armed <= b.armed
    requires id in b.owned ==> Fate(b, id, Leaves(b, id, now, keep, entity), r)
    ensures id in Stranded(r) <==> id in b.armed && Leaves(b, id, now, keep, entity)
    ensures id in Stranded(r) && id in r.lost <==> id in b.armed && GivesUp(b, id, now, keep, entity)
  {
    hide ReadingOf;
  }

  lemma GivenUpIs(s: State, c: Cycle, id: Id)
    ensures var b := BeforeRelease(s, c);
            && (id in GivenUpOn(s, c) <==> id in b.armed && GivesUp(b, id, c.now, Kept(c), c.later))
            && (id in b.armed && Leaves(b, id, c.now, Kept(c), c.later) <==>
                  id in GivenUpOn(s, c) || StaleOff(s, c, id))
  {
    hide BeforeRelease, GivesUp, Kept, ReadingOf;
  }

  /** What a cycle leaves in memory before it saves: of the switches on by us, exactly the
      given-up ones and a slipped one are out of the record, and only the former are to be
      reported. */
  lemma DrivenFate(s: State, c: Cycle, id: Id)
    requires Inv(s) && Honest(true, c.onAnswer)
    ensures var r := Driven(Observed(s, c.entity, c.reader), c).state;
            && (id in Stranded(r) <==> id in GivenUpOn(s, c) || (Slipped(s, c) && c.entity == Some(id)))
            && (id in Stranded(r) && id in r.lost <==> id in GivenUpOn(s, c))
  {
    hide Inv, Honest, Slipped, StaleOff, BeforeRelease, Released, Driven, Observed, Kept, Noted, AllSafe, Mid,
         GivenUpOn, Leaves, GivesUp, Fate, Distinct, SameRecord;
    var b := BeforeRelease(s, c);
    BeforeReleaseInv(s, c);
    InvParts(b);
    DrivenIsRelease(s, c);
    ReleasedFate(b, b.owned, |b.owned|, c.now, Kept(c), c.later, c.offAnswers, id);
    ReleasedMid(b, b.owned, |b.owned|, c.now, Kept(c), c.later, c.offAnswers);
    assert b.owned[..|b.owned|] == b.owned;
    StaleOffIs(s, c, id);
    NotedSame(Released(b, b.owned, |b.owned|, c.now, Kept(c), c.later, c.offAnswers).state, c.now);
    GivenUpIs(s, c, id);
    StrandedFate(b, Released(b, b.owned, |b.owned|, c.now, Kept(c), c.later, c.offAnswers).state,
                 id, c.now, Kept(c), c.later);
  }

  lemma DrivenMid(s: State, c: Cycle)
    requires Inv(s) && Honest(true, c.onAnswer)
    ensures var d := Driven(Observed(s, c.entity, c.reader), c);
            Mid(d.state) && AllSafe(d.snaps)
  {
    hide Inv, Honest, TurnedOn, Released, Observed, Kept, Noted, AllSafe, Mid, Distinct;
    var o, b := Observed(s, c.entity, c.reader), BeforeRelease(s, c);
    BeforeReleaseInv(s, c);
    InvParts(b);
    var d := Released(b, b.owned, |b.owned|, c.now, Kept(c), c.later, c.offAnswers);
    ReleasedMid(b, b.owned, |b.owned|, c.now, Kept(c), c.later, c.offAnswers);
    MidNoted(d.state, c.now);
    DrivenSnaps(s, c);
    SoundNone();
    SoundIsSafe([]);
    if c.on && c.control && c.entity.Some? {
      SoundIsSafe(TurnedOn(o, c.entity, c.control, c.blocked, c.onAnswer).snaps);
    }
    SafeConcat(if c.on && c.control && c.entity.Some?
               then TurnedOn(o, c.entity, c.control, c.blocked, c.onAnswer).snaps else [], d.snaps);
  }

  lemma DrivenSnaps(s: State, c: Cycle)
    ensures var o, b := Observed(s, c.entity, c.reader), BeforeRelease(s, c);
            var d, r := Driven(o, c), Released(b, b.owned, |b.owned|, c.now, Kept(c), c.later, c.offAnswers);
            && d.state == Noted(r.state, c.now)
            && d.snaps == (if c.on && c.control && c.entity.Some?
                           then TurnedOn(o, c.entity, c.control, c.blocked, c.onAnswer).snaps else []) + r.snaps
  {
    hide TurnedOn, Released, Observed, Noted;
    DrivenIsRelease(s, c);
  }

  lemma MidNoted(s: State, now: real)
    requires Mid(s)
    ensures Mid(Noted(s, now))
  {
    hide Noted, Distinct;
    NotedSame(s, now);
  }

  /** A cycle that gives up or drops a switch on by us. */
  predicate Abandons(s: State, c: Cycle) { Slipped(s, c) || GivenUpOn(s, c) != {} }

  lemma SlippedAbandons(s: State, c: Cycle)
    ensures Slipped(s, c) ==> Abandons(s, c)
  {
  }

  lemma StrandedIff(s: State, c: Cycle)
    requires Inv(s) && Honest(true, c.onAnswer)
    ensures var r := Driven(Observed(s, c.entity, c.reader), c).state;
            && (Stranded(r) == {} <==> !Abandons(s, c)) && (Stranded(HandedOver(r)) == {} <==> !Slipped(s, c))
  {
    hide Inv, Honest, Slipped, GivenUpOn, Driven, Observed;
    var r := Driven(Observed(s, c.entity, c.reader), c).state;
    forall id: Id
      ensures id in Stranded(r) <==> id in GivenUpOn(s, c) || (Slipped(s, c) && c.entity == Some(id))
      ensures id in Stranded(HandedOver(r)) <==> id in Stranded(r) && id !in r.lost
      ensures id in Stranded(r) && id in r.lost <==> id in GivenUpOn(s, c)
      ensures Slipped(s, c) && c.entity == Some(id) ==> id !in GivenUpOn(s, c)
    {
      DrivenFate(s, c, id);
      if Slipped(s, c) { StaleOffIs(s, c, id); GivenUpUnread(s, c, id); }
    }
    SlippedSome(s, c);
    if Slipped(s, c) {
      assert c.entity.value in Stranded(HandedOver(r));
      assert c.entity.value in Stranded(r);
    }
    if GivenUpOn(s, c) != {} {
      var id :| id in GivenUpOn(s, c);
      assert id in Stranded(r);
    }
  }

  lemma SlippedSome(s: State, c: Cycle)
    ensures Slipped(s, c) ==> c.entity.Some?
  {
  }

  lemma GivenUpUnread(s: State, c: Cycle, id: Id)
    ensures id in GivenUpOn(s, c) ==> !StaleOff(s, c, id)
  {
    hide BeforeRelease, ReadingOf, Kept;
  }

  lemma SafeSaved(r: State)
    ensures Safe(r.(disk := r.owned)) <==> Stranded(r) == {}
  {
    if Stranded(r) != {} { var id :| id in Stranded(r); }
    forall id | id in r.armed && id !in r.owned ensures Stranded(r) != {} { assert id in Stranded(r); }
  }

  /** A switch on by us is on no record. */
  predicate Lapsed(m: State) { Stranded(m) != {} && m.disk == m.owned }

  lemma SavedLapsed(r: State)
    requires Stranded(r) != {}
    ensures Lapsed(r.(disk := r.owned))
  {
    assert Stranded(r.(disk := r.owned)) == Stranded(r);
  }

  lemma UnsavedNone(r: State)
    requires Safe(r) && r.owned == r.disk
    ensures Stranded(r) == {}
  {
  }

  lemma HandedOverSafe(r: State)
    requires Distinct(r.owned) && r.owned == r.disk
    ensures Safe(HandedOver(r)) <==> Stranded(HandedOver(r)) == {}
    ensures Safe(HandedOver(r)) ==> Inv(HandedOver(r))
  {
    hide Distinct;
    var h := HandedOver(r);
    assert h.(disk := h.owned) == h;
    SafeSaved(h);
  }

  lemma HandedOverDisk(r: State, ids: seq<Id>)
    ensures Stranded(HandedOver(r.(disk := ids))) == Stranded(HandedOver(r))
  {
  }

  /** A cycle's awaits are all safe but for the one after its final save, which is safe
      exactly when the cycle abandons no switch; its end is safe exactly when it did not
      slip. */
  lemma CycledCuts(s: State, c: Cycle)
    requires Inv(s) && Honest(true, c.onAnswer)
    ensures var d := Cycled(s, c);
            && (forall i | 0 <= i < |d.snaps| - 1 :: Safe(d.snaps[i]))
            && (|d.snaps| > 0 ==> (Safe(d.snaps[|d.snaps| - 1]) <==> !Abandons(s, c)))
            && (Abandons(s, c) ==> |d.snaps| > 0 && Lapsed(d.snaps[|d.snaps| - 1]))
            && (Safe(d.state) <==> !Slipped(s, c)) && (Safe(d.state) ==> Inv(d.state))
  {
    hide Inv, Honest, Slipped, Abandons, GivenUpOn, Driven, Observed, Safe, Stranded, HandedOver, Distinct,
         Lapsed;
    var d := Driven(Observed(s, c.entity, c.reader), c);
    DrivenMid(s, c);
    StrandedIff(s, c);
    SafeSaved(d.state);
    if Stranded(d.state) != {} { SavedLapsed(d.state); }
    HandedOverDisk(d.state, d.state.owned);
    HandedOverDisk(d.state, d.state.disk);
    if d.state.owned == d.state.disk {
      UnsavedNone(d.state);
      HandedOverSafe(d.state);
    } else {
      HandedOverSafe(d.state.(disk := d.state.owned));
    }
    SlippedAbandons(s, c);
  }

  /** Only records that leave in this release are gone from memory. */
  predicate OnlyLeaving(b: State, m: State, now: real, keep: Option<Id>, entity: Option<Id>) {
    forall id | id in Stranded(m) :: id in b.armed && Leaves(b, id, now, keep, entity)
  }

  lemma ReleasedLeaving(
    b: State, n: nat, now: real, keep: Option<Id>, entity: Option<Id>, answers: map<Id, Answer>)
    requires n <= |b.owned| && Inv(b)
    ensures OnlyLeaving(b, Released(b, b.owned, n, now, keep, entity, answers).state, now, keep, entity)
  {
    hide Released, Leaves, Distinct, Inv, Safe, AllSafe;
    InvParts(b);
    ReleasedMid(b, b.owned, n, now, keep, entity, answers);
    var r := Released(b, b.owned, n, now, keep, entity, answers).state;
    forall id | id in Stranded(r) ensures id in b.armed && Leaves(b, id, now, keep, entity) {
      ReleasedFate(b, b.owned, n, now, keep, entity, answers, id);
    }
  }

  lemma {:induction false} ReleasedAwaits(
    b: State, n: nat, now: real, keep: Option<Id>, entity: Option<Id>, answers: map<Id, Answer>)
    requires n <= |b.owned| && Inv(b)
    ensures forall m | m in Released(b, b.owned, n, now, keep, entity, answers).snaps ::
              OnlyLeaving(b, m, now, keep, entity)
  {
    hide ReleasedOne, AnswerOf, Leaves, Inv;
    if n > 0 {
      ReleasedAwaits(b, n - 1, now, keep, entity, answers);
      ReleasedLeaving(b, n - 1, now, keep, entity, answers);
      var d := Released(b, b.owned, n - 1, now, keep, entity, answers);
      ReleasedOneInFlight(d.state, b.owned[n - 1], now, keep, entity, AnswerOf(answers, b.owned[n - 1]));
    }
  }

  lemma LeavingAbandons(s: State, c: Cycle, m: State)
    requires Inv(s) && Honest(true, c.onAnswer) && Stranded(m) != {}
    requires OnlyLeaving(BeforeRelease(s, c), m, c.now, Kept(c), c.later)
    ensures Abandons(s, c)
  {
    hide BeforeRelease, Leaves, Stranded, Inv, Honest, Slipped, GivenUpOn, Kept, StaleOff;
    var id :| id in Stranded(m);
    GivenUpIs(s, c, id);
    StaleOffIs(s, c, id);
  }

  /** Nothing on by us leaves memory's record before its OFF, at any await of a cycle that
      abandons nothing. */
  lemma CycledAwaits(s: State, c: Cycle)
    requires Inv(s) && Honest(true, c.onAnswer)
    ensures forall i | 0 <= i < |Cycled(s, c).snaps| :: Stranded(Cycled(s, c).snaps[i]) == {} || Abandons(s, c)
  {
    hide TurnedOn, Released, Observed, Driven, Inv, Honest, Abandons, Stranded, OnlyLeaving, Kept, Noted, HandedOver;
    var o, b, d := Observed(s, c.entity, c.reader), BeforeRelease(s, c), Driven(Observed(s, c.entity, c.reader), c);
    BeforeReleaseInv(s, c);
    ReleasedAwaits(b, |b.owned|, c.now, Kept(c), c.later, c.offAnswers);
    DrivenSnaps(s, c);
    StrandedIff(s, c);
    StrandedSaved(d.state);
    forall i | 0 <= i < |d.snaps| ensures Stranded(d.snaps[i]) == {} || Abandons(s, c) {
      var m := d.snaps[i];
      var r := Released(b, b.owned, |b.owned|, c.now, Kept(c), c.later, c.offAnswers);
      if m in r.snaps {
        if Stranded(m) != {} { LeavingAbandons(s, c, m); }
      } else {
        var t := TurnedOn(o, c.entity, c.control, c.blocked, c.onAnswer);
        assert m == t.snaps[i];
      }
    }
  }

  /** A cycle keeps the record safe, at every await and at its end, exactly when the
      configuration is not changed under a landed ON that an off reading preceded and no
      switch that is on by us is given up. */
  lemma CycleSafeIff(s: State, c: Cycle)
    requires Inv(s) && Honest(true, c.onAnswer)
    ensures AllSafe(Cycled(s, c).snaps) && Safe(Cycled(s, c).state) <==> !Slipped(s, c) && GivenUpOn(s, c) == {}
    ensures !Slipped(s, c) ==> Inv(Cycled(s, c).state)
  {
    hide Cycled, Slipped, GivenUpOn, Inv, Safe, Honest;
    CycledCuts(s, c);
  }

  // ----- the unload path --------------------------------------------------------------

  lemma LandedOffsAre(todo: seq<Id>, n: nat, answers: map<Id, Answer>)
    requires n <= |todo|
    ensures forall id :: id in LandedOffs(todo, n, answers) <==> id in todo[..n] && Landed(false, AnswerOf(answers, id))
  {
    hide Landed, AnswerOf;
    assert forall i | 0 <= i < n :: todo[i] == todo[..n][i];
  }

  lemma WrittenOff(s: State, id: Id, a: Answer)
    ensures Written(s, id, false, a).state.armed == if Landed(false, a) then s.armed - {id} else s.armed
  {
  }

  /** Between OFFs of an unload: the records as they were, and perhaps fewer switches on. */
  predicate Commanding(m: State, x: State, landed: set<Id>) {
    x.owned == m.owned && x.disk == m.disk && x.lost == m.lost && m.armed - landed <= x.armed <= m.armed
  }

  lemma {:induction false} BlindWritesSafe(s: State, todo: seq<Id>, n: nat, answers: map<Id, Answer>)
    requires n <= |todo|
    ensures var d := BlindWrites(s, todo, n, answers);
            && d.state.owned == s.owned && d.state.disk == s.disk && d.state.lost == s.lost
            && d.state.armed == s.armed - LandedOffs(todo, n, answers)
            && (forall x | x in d.snaps :: Commanding(s, x, LandedOffs(todo, n, answers)))
  {
    hide Landed, AnswerOf, Written;
    if n > 0 {
      BlindWritesSafe(s, todo, n - 1, answers);
      var d, id := BlindWrites(s, todo, n - 1, answers), todo[n - 1];
      var a := AnswerOf(answers, id);
      WrittenFrame(d.state, id, false, a);
      WrittenOff(d.state, id, a);
      WrittenInFlight(d.state, id, false, a);
      LandedOffsAre(todo, n, answers);
      LandedOffsAre(todo, n - 1, answers);
      assert todo[..n] == todo[..n - 1] + [id];
    }
  }

  /** The OFFs of an unload that land. */
  function Obeyed(m: State, answers: map<Id, Answer>): set<Id> { LandedOffs(m.owned, |m.owned|, answers) }

  /** The state the unload path saves. */
  function BlindKept(m: State, answers: map<Id, Answer>): State {
    m.(owned := Keep(m.owned, Obeyed(m, answers)), armed := m.armed - Obeyed(m, answers))
  }

  lemma BlindKeptStranded(m: State, answers: map<Id, Answer>)
    ensures Stranded(BlindKept(m, answers)) == Stranded(m)
    ensures Safe(m) ==> Safe(BlindKept(m, answers))
  {
    hide Landed, Keep, AnswerOf, LandedOffs;
    KeepFacts(m.owned, Obeyed(m, answers));
    LandedOffsAre(m.owned, |m.owned|, answers);
  }

  /** The end of the unload path and its awaits: the writes change nothing in the records;
      the save, made when an OFF landed, keeps what is still owned. */
  lemma BlindShape(m: State, answers: map<Id, Answer>)
    ensures var b, k := Blind(m, answers), BlindKept(m, answers);
            if Obeyed(m, answers) == {} then
              (forall i | 0 <= i < |b.snaps| :: Commanding(m, b.snaps[i], {})) && Commanding(m, b.state, {})
            else
              && |b.snaps| >= 2
              && (forall i | 0 <= i < |b.snaps| - 2 :: Commanding(m, b.snaps[i], Obeyed(m, answers)))
              && SameRecords(b.snaps[|b.snaps| - 2], k) && SameRecords(b.snaps[|b.snaps| - 1], k.(disk := k.owned))
              && SameRecords(b.state, k.(disk := k.owned))
  {
    hide BlindWrites, LandedOffs, Keep;
    BlindWritesSafe(m, m.owned, |m.owned|, answers);
    var d := BlindWrites(m, m.owned, |m.owned|, answers);
    assert forall i | 0 <= i < |d.snaps| :: d.snaps[i] in d.snaps;
  }

  predicate SameRecords(m: State, k: State) {
    m.owned == k.owned && m.disk == k.disk && m.armed == k.armed && m.lost == k.lost
  }

  lemma SameSafety(m: State, k: State)
    requires SameRecords(m, k)
    ensures Safe(m) == Safe(k) && Stranded(m) == Stranded(k)
  {
  }

  lemma FewerSafe(m: State, x: State, landed: set<Id>)
    requires Commanding(m, x, landed)
    ensures Safe(m) ==> Safe(x)
    ensures Stranded(m) == {} ==> Stranded(x) == {}
  {
    assert Stranded(x) <= Stranded(m);
  }

  /** The unload path on whatever memory an operation left when it was cut: every await is
      safe but the one after the save, and that save forgets exactly the switches on by us
      whose record had left memory before. */
  lemma BlindCuts(m: State, answers: map<Id, Answer>)
    requires Safe(m)
    ensures var b, forgets := Blind(m, answers), Stranded(m) != {} && Obeyed(m, answers) != {};
            && (forall i | 0 <= i < |b.snaps| - 1 :: Safe(b.snaps[i]))
            && (|b.snaps| > 0 ==> (Safe(b.snaps[|b.snaps| - 1]) <==> !forgets))
            && (forgets ==> |b.snaps| > 0) && (Safe(b.state) <==> !forgets)
  {
    hide Blind, Obeyed, Keep, Safe, Stranded;
    var b, k := Blind(m, answers), BlindKept(m, answers);
    BlindShape(m, answers);
    BlindKeptStranded(m, answers);
    SafeSaved(k);
    if Obeyed(m, answers) == {} {
      forall i | 0 <= i < |b.snaps| ensures Safe(b.snaps[i]) {
        FewerSafe(m, b.snaps[i], {});
      }
      FewerSafe(m, b.state, {});
    } else {
      forall i | 0 <= i < |b.snaps| - 2 ensures Safe(b.snaps[i]) { FewerSafe(m, b.snaps[i], Obeyed(m, answers)); }
      SameSafety(b.snaps[|b.snaps| - 2], k);
      SameSafety(b.snaps[|b.snaps| - 1], k.(disk := k.owned));
      SameSafety(b.state, k.(disk := k.owned));
    }
  }

  /** Cut at a safe await and unloaded from there, an operation stays safe exactly when no
      switch on by us had left the record in memory, or no OFF lands. */
  lemma CutSafeIff(m: State, answers: map<Id, Answer>)
    requires Safe(m)
    ensures AllSafe(Blind(m, answers).snaps) && Safe(Blind(m, answers).state)
       <==> Stranded(m) == {} || Obeyed(m, answers) == {}
  {
    hide Blind, Obeyed, Safe, Stranded;
    BlindCuts(m, answers);
  }

  lemma StillForgotten(m: State, x: State, landed: set<Id>, id: Id)
    requires Commanding(m, x, landed) && id in m.armed && id !in m.disk && id !in landed
    ensures !Safe(x)
  {
  }

  /** What is neither in memory nor on disk the unload path does not bring back. */
  lemma BlindForgotten(m: State, answers: map<Id, Answer>)
    requires Lapsed(m)
    ensures var b := Blind(m, answers);
            !Safe(b.state) && forall i | 0 <= i < |b.snaps| :: !Safe(b.snaps[i])
  {
    hide Blind, LandedOffs, Keep, Safe, Commanding, Landed, AnswerOf, Stranded;
    var b, k := Blind(m, answers), BlindKept(m, answers);
    StrandedOne(m);
    var id :| id in m.armed && id !in m.owned;
    BlindShape(m, answers);
    LandedOffsAre(m.owned, |m.owned|, answers);
    KeepFacts(m.owned, Obeyed(m, answers));
    NotSafe(k, id);
    NotSafe(k.(disk := k.owned), id);
    if Obeyed(m, answers) == {} {
      forall i | 0 <= i < |b.snaps| ensures !Safe(b.snaps[i]) { StillForgotten(m, b.snaps[i], {}, id); }
      StillForgotten(m, b.state, {}, id);
    } else {
      forall i | 0 <= i < |b.snaps| - 2 ensures !Safe(b.snaps[i]) {
        StillForgotten(m, b.snaps[i], Obeyed(m, answers), id);
      }
      SameSafety(b.snaps[|b.snaps| - 2], k);
      SameSafety(b.snaps[|b.snaps| - 1], k.(disk := k.owned));
      SameSafety(b.state, k.(disk := k.owned));
    }
  }

  lemma StrandedOne(m: State)
    requires Stranded(m) != {}
    ensures exists id :: id in m.armed && id !in m.owned
  {
    var id :| id in Stranded(m);
  }

  lemma NotSafe(m: State, id: Id)
    requires id in m.armed && id !in m.disk
    ensures !Safe(m)
  {
  }

  /** The unload path between operations is safe at every await, leaves no switch on by us
      without its record in memory or on disk, and drops exactly the switches whose OFF
      read back. */
  lemma BlindSafe(s: State, answers: map<Id, Answer>)
    requires Inv(s)
    ensures AllSound(Blind(s, answers).snaps) && Inv(Blind(s, answers).state)
    ensures forall id | id in s.owned ::
              id in Blind(s, answers).state.owned <==> !Landed(false, AnswerOf(answers, id))
  {
    hide Blind, LandedOffs, Keep, Landed, AnswerOf, Distinct, Stranded, Safe, Commanding;
    var b, k := Blind(s, answers), BlindKept(s, answers);
    LandedOffsAre(s.owned, |s.owned|, answers);
    assert s.owned[..|s.owned|] == s.owned;
    KeepFacts(s.owned, Obeyed(s, answers));
    BlindShape(s, answers);
    BlindCuts(s, answers);
    BlindKeptStranded(s, answers);
    BlindWhole(s, answers);
    TidyItself(s);
    BlindTidy(s, answers, IdsIn(s));
    BlindMid(s, answers);
  }

  lemma BlindMid(s: State, answers: map<Id, Answer>)
    requires Inv(s)
    ensures var r := Blind(s, answers).state;
            && (forall id | id in r.owned :: id in r.disk) && r.lost == []
            && forall id | id in s.owned :: id in r.owned <==> id !in Obeyed(s, answers)
  {
    hide Blind, LandedOffs, Keep, Distinct, Stranded, Safe;
    KeepFacts(s.owned, Obeyed(s, answers));
    BlindShape(s, answers);
  }

  lemma BlindWhole(s: State, answers: map<Id, Answer>)
    requires Stranded(s) == {}
    ensures Stranded(Blind(s, answers).state) == {}
    ensures forall i | 0 <= i < |Blind(s, answers).snaps| :: Stranded(Blind(s, answers).snaps[i]) == {}
  {
    hide Blind, LandedOffs, Keep, Stranded, Safe, Commanding;
    var b, k := Blind(s, answers), BlindKept(s, answers);
    BlindShape(s, answers);
    BlindKeptStranded(s, answers);
    StrandedSaved(k);
    if Obeyed(s, answers) == {} {
      forall i | 0 <= i < |b.snaps| ensures Stranded(b.snaps[i]) == {} { FewerSafe(s, b.snaps[i], {}); }
      FewerSafe(s, b.state, {});
    } else {
      forall i | 0 <= i < |b.snaps| - 2 ensures Stranded(b.snaps[i]) == {} {
        FewerSafe(s, b.snaps[i], Obeyed(s, answers));
      }
      SameSafety(b.snaps[|b.snaps| - 2], k);
      SameSafety(b.snaps[|b.snaps| - 1], k.(disk := k.owned));
      SameSafety(b.state, k.(disk := k.owned));
    }
  }

  lemma StrandedSaved(k: State)
    ensures Stranded(k.(disk := k.owned)) == Stranded(k)
  {
  }

  // ----- whole runs -------------------------------------------------------------------

  /** The unload path forgets what had left memory, once its save is reached. */
  predicate BlindForgets(m: State, answers: map<Id, Answer>, dies: Option<nat>) {
    && Stranded(m) != {} && Obeyed(m, answers) != {}
    && (dies.None? || dies.value >= |Blind(m, answers).snaps| - 1)
  }

  /** A step that loses a switch on by us: a cycle that slips; one that gives up a switch
      still on by us and dies or is cancelled after its save, before the report; or one
      cancelled with such a switch out of memory, when the unload then saves. */
  predicate Forgets(s: State, step: Step) {
    step.event.Guard?
    && var c, snaps := step.event.cycle, Cycled(s, step.event.cycle).snaps;
       if !Cut(step, |snaps|) then Slipped(s, c)
       else (step.end.at == |snaps| - 1 && Abandons(s, c))
            || (step.end.Stops? && BlindForgets(snaps[step.end.at], step.end.answers, step.end.dies))
  }

  /** Only a cycle that slips or gives up a switch still on by us can forget one. */
  lemma ForgettingAbandons(s: State, step: Step)
    requires Inv(s) && Allowed(step.event) && Forgets(s, step)
    ensures step.event.Guard? && Abandons(s, step.event.cycle)
  {
    hide Inv, Honest, Cycled, Stranded, GivenUpOn, Slipped, Obeyed, Blind;
    CycledAwaits(s, step.event.cycle);
  }

  lemma RestartInv(m: State, legible: map<Id, real>)
    ensures Safe(Restart(m, legible)) == Safe(m)
    ensures Neat(Restart(m, legible)) && Safe(Restart(m, legible)) ==> Inv(Restart(m, legible))
  {
    hide Distinct;
    var r := Restart(m, legible);
    assert r.(disk := r.owned) == r;
    SafeSaved(r);
  }

  lemma LeftSafe(m: State, answers: map<Id, Answer>, dies: Option<nat>)
    requires Safe(m)
    ensures Safe(Left(Blind(m, answers), dies)) <==> !BlindForgets(m, answers, dies)
  {
    hide Blind, Safe, Stranded, Obeyed;
    BlindCuts(m, answers);
  }

  lemma LeftForgotten(m: State, answers: map<Id, Answer>, dies: Option<nat>)
    requires Lapsed(m)
    ensures !Safe(Left(Blind(m, answers), dies))
  {
    hide Blind, Safe, Stranded, Obeyed;
    BlindForgotten(m, answers);
  }

  lemma NextOfCycle(s: State, step: Step)
    requires Inv(s) && Allowed(step.event) && step.event.Guard?
    ensures Safe(Next(s, step)) <==> !Forgets(s, step)
    ensures !Cut(step, |Outcome(s, step.event).snaps|) && Safe(Next(s, step)) ==> Inv(Next(s, step))
  {
    hide Safe, Inv, Cycled, Slipped, Abandons, Blind, BlindForgets, Honest, Lapsed, Restart, Left;
    var c, d := step.event.cycle, Cycled(s, step.event.cycle);
    CycledCuts(s, c);
    if Cut(step, |d.snaps|) {
      var m := d.snaps[step.end.at];
      if step.end.Dies? {
        RestartInv(m, d.state.legible);
      } else {
        RestartInv(Left(Blind(m, step.end.answers), step.end.dies), d.state.legible);
        if step.end.at == |d.snaps| - 1 && Abandons(s, c) {
          LeftForgotten(m, step.end.answers, step.end.dies);
        } else {
          LeftSafe(m, step.end.answers, step.end.dies);
        }
      }
    }
  }

  /** A save or an unload loses nothing, wherever it is cut. */
  lemma OthersSafe(s: State, ev: Event)
    requires Inv(s) && !ev.Guard?
    ensures var d := Outcome(s, ev);
            Inv(d.state) && AllSound(d.snaps)
  {
    hide Blind, Inv, Safe, Stranded;
    match ev
    case Save => SavesSafe(s);
    case Unload(answers) => BlindSafe(s, answers);
  }

  lemma SavesSafe(s: State)
    requires Inv(s)
    ensures Inv(Saved(s).state) && AllSound(Saved(s).snaps)
  {
    hide Distinct;
    SavedSafe(s);
  }

  lemma NextOfOthers(s: State, step: Step)
    requires Inv(s) && !step.event.Guard?
    ensures Safe(Next(s, step))
    ensures !Cut(step, |Outcome(s, step.event).snaps|) ==> Inv(Outcome(s, step.event).state)
  {
    hide Safe, Inv, Outcome, Blind, Restart, Left, Obeyed, Stranded;
    var d := Outcome(s, step.event);
    OthersSafe(s, step.event);
    InvParts(d.state);
    if Cut(step, |d.snaps|) {
      var m := d.snaps[step.end.at];
      if step.end.Dies? {
        RestartInv(m, d.state.legible);
      } else {
        LeftSafe(m, step.end.answers, step.end.dies);
        RestartInv(Left(Blind(m, step.end.answers), step.end.dies), d.state.legible);
      }
    } else {
      RestartInv(d.state, d.state.legible);
    }
  }

  lemma NextRestarts(s: State, step: Step)
    ensures var n, d := Next(s, step), Outcome(s, step.event);
            n == d.state || exists m, legible :: n == Restart(m, legible)
    ensures !Cut(step, |Outcome(s, step.event).snaps|) && !step.event.Unload? ==>
              Next(s, step) == Outcome(s, step.event).state
    ensures Cut(step, |Outcome(s, step.event).snaps|) || step.event.Unload? ==>
              exists m, legible :: Next(s, step) == Restart(m, legible)
  {
    hide Outcome, Blind, Left, Restart;
  }

  /** One step: it forgets a switch on by us exactly when `Forgets` says so, and otherwise
      leaves everything on by us owned and on disk. */
  lemma NextSafeIff(s: State, step: Step)
    requires Inv(s) && Allowed(step.event)
    ensures Safe(Next(s, step)) <==> !Forgets(s, step)
    ensures !Forgets(s, step) ==> Inv(Next(s, step))
  {
    hide Safe, Inv, Outcome, Next, Forgets, Restart, Honest, Distinct;
    if step.event.Guard? {
      NextOfCycle(s, step);
    } else {
      NextOfOthers(s, step);
      OthersForgetNothing(s, step);
    }
    InvParts(s);
    NextTidy(s, step);
    NextRestarts(s, step);
    if Safe(Next(s, step)) && (Cut(step, |Outcome(s, step.event).snaps|) || step.event.Unload?) {
      var m, legible :| Next(s, step) == Restart(m, legible);
      RestartInv(m, legible);
    }
  }

  lemma OthersForgetNothing(s: State, step: Step)
    requires !step.event.Guard?
    ensures !Forgets(s, step)
  {
  }

  /** No step of the run forgets a switch. */
  predicate Remembers(run: seq<Step>) {
    forall k | 0 <= k < |run| :: !Forgets(After(INITIAL, run[..k]), run[k])
  }

  /** The record is safe after every step of the run. */
  predicate AlwaysSafe(run: seq<Step>) { forall n | 0 <= n <= |run| :: Safe(After(INITIAL, run[..n])) }

  lemma RememberedPrefix(run: seq<Step>)
    requires run != []
    ensures var prefix, step := run[..|run| - 1], run[|run| - 1];
            && (Remembers(run) <==> Remembers(prefix) && !Forgets(After(INITIAL, prefix), step))
            && (AlwaysSafe(run) <==> AlwaysSafe(prefix) && Safe(After(INITIAL, run)))
            && (AllAllowed(run) ==> AllAllowed(prefix))
  {
    hide After, Forgets, Safe, Allowed;
    var prefix, step := run[..|run| - 1], run[|run| - 1];
    assert forall k | 0 <= k <= |prefix| :: prefix[..k] == run[..k];
    assert run[..|run|] == run && run[..|run| - 1] == prefix;
  }

  /** Crash safety over runs. The process may die at any await of any operation, be
      cancelled there and unloaded, or run on: after every step everything that is on by
      this code is in the record on disk, exactly when no step is one of those that forget;
      and then memory holds it too. */
  lemma {:induction false} CrashSafety(run: seq<Step>)
    requires AllAllowed(run)
    ensures AlwaysSafe(run) <==> Remembers(run)
    ensures Remembers(run) ==> Inv(After(INITIAL, run))
  {
    hide Safe, Inv, Forgets, Next, Remembers, AlwaysSafe, Allowed;
    if run == [] {
      InitialSafe(run);
    } else {
      var prefix, step := run[..|run| - 1], run[|run| - 1];
      RememberedPrefix(run);
      CrashSafety(prefix);
      if Remembers(prefix) {
        NextSafeIff(After(INITIAL, prefix), step);
      }
    }
  }

  /** No cycle of the run slips or gives up a switch that is still on by this code. */
  predicate AbandonsNothing(run: seq<Step>) {
    forall k | 0 <= k < |run| :: run[k].event.Guard? ==> !Abandons(After(INITIAL, run[..k]), run[k].event.cycle)
  }

  /** Such a run is safe wherever it is cut. */
  lemma {:induction false} SafeUnlessAbandoning(run: seq<Step>)
    requires AllAllowed(run) && AbandonsNothing(run)
    ensures Remembers(run) && AlwaysSafe(run)
  {
    hide Safe, Inv, Forgets, After, Abandons, Remembers, AlwaysSafe, Allowed;
    CrashSafety(run);
    if run == [] {
      InitialSafe(run);
    } else {
      var prefix, step := run[..|run| - 1], run[|run| - 1];
      RememberedPrefix(run);
      assert forall k | 0 <= k <= |prefix| :: prefix[..k] == run[..k];
      SafeUnlessAbandoning(prefix);
      CrashSafety(prefix);
      if Forgets(After(INITIAL, prefix), step) {
        ForgettingAbandons(After(INITIAL, prefix), step);
      }
    }
  }

  lemma InitialSafe(run: seq<Step>)
    requires run == []
    ensures AlwaysSafe(run) && Remembers(run) && Inv(INITIAL)
  {
    assert Stranded(INITIAL) == {};
  }

  /** At the awaits of what comes after such a run: all are safe exactly when it is not a
      cycle that slips or gives up a switch that is on by this code. */
  lemma NextAwaitsSafeIff(run: seq<Step>, ev: Event)
    requires AllAllowed(run) && Allowed(ev) && Remembers(run)
    ensures var s := After(INITIAL, run);
            AllSafe(Outcome(s, ev).snaps) <==> !(ev.Guard? && Abandons(s, ev.cycle))
  {
    hide Safe, Inv, Remembers, Honest, AlwaysSafe, Cycled, Abandons, Blind, Saved;
    CrashSafety(run);
    var s := After(INITIAL, run);
    if ev.Guard? { CycledCuts(s, ev.cycle); } else { OthersSafe(s, ev); }
  }

  /** A first ON whose write-ahead save wrote nothing. */
  function ClaimedUnsaved(s: State, id: Id, a: Answer): State {
    Written(s.(owned := s.owned + [id]), id, true, a).state
  }

  /** The write-ahead save cannot be dropped: in every run, a first ON that lands without
      it is on by us and nowhere on disk. */
  lemma SaveNeeded(run: seq<Step>, id: Id, a: Answer)
    requires id !in After(INITIAL, run).owned && Landed(true, a)
    ensures !Safe(ClaimedUnsaved(After(INITIAL, run), id, a))
  {
    hide After, Landed;
    DiskIsOwned(run);
    var t := ClaimedUnsaved(After(INITIAL, run), id, a);
    LandedArms(After(INITIAL, run).(owned := After(INITIAL, run).owned + [id]), id, a);
    assert id in t.armed && id !in t.disk;
  }
}
