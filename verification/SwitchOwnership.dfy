/** The disinfection switch's ownership record (disinfection.py) as the guard drives
    it (legionella.py): a write-ahead list of the switches turned on, kept over an
    unreliable device, with a crash possible at every await. */
module SwitchOwnership {
  import opened Options

  type Id = s: string | s != "" witness "switch"

  /** A state read as a flag; `Unread` is the code's None. */
  datatype Flag = On | Off | Unread

  /** A reading through the input reader; `missing` is the missing-entity problem. */
  datatype Reading = Reading(flag: Flag, missing: bool)

  /** How one write goes: the state read before and after it, whether the call
      raised or timed out, and whether the device obeys late, unseen by the read. */
  datatype Answer = Answer(before: Flag, raised: bool, after: Flag, late: bool)

  const LOST_MINUTES: real := 30.0

  /** The controller's fields, the record on disk, and three history variables:
      `armed`, the switches this code turned on that have not since been read off,
      commanded off with read-back, or handed over as lost; `legible`, when each switch
      was last read; `overlooked`, the waits that survived a legible reading. */
  datatype State = State(
    owned: seq<Id>, lost: seq<Id>, readings: map<Id, Reading>, since: map<Id, real>,
    memo: bool, observed: Flag, failed: bool, failedEntity: Option<Id>,
    disk: seq<Id>, armed: set<Id>, legible: map<Id, real>, overlooked: set<Id>)

  /** An operation's end state, and its state at every await on the way there. */
  datatype Done = Done(state: State, snaps: seq<State>)

  // ----- specification functions -----------------------------------------------------

  function Without(ids: seq<Id>, id: Id): seq<Id> {
    if ids == [] then [] else if ids[0] == id then ids[1..] else [ids[0]] + Without(ids[1..], id)
  }

  /** A write counts only when the target has a usable state before the call, the
      call does not raise, and the commanded state is read back. */
  predicate Landed(on: bool, a: Answer) {
    a.before != Unread && !a.raised && a.after == if on then On else Off
  }

  /** An assumption about the device: a write that is not read back never lands. */
  predicate Honest(on: bool, a: Answer) { Landed(on, a) || !a.late }

  /** One write. While the call is in flight an ON may land at any moment. */
  function Written(s: State, id: Id, on: bool, a: Answer): Done {
    if a.before == Unread then Done(s, [])
    else
      var armed := if on then (if Landed(on, a) || a.late then s.armed + {id} else s.armed)
                   else if Landed(on, a) then s.armed - {id} else s.armed;
      Done(s.(armed := armed, failed := !Landed(on, a),
              failedEntity := if Landed(on, a) then s.failedEntity else Some(id)),
           [s, if on then s.(armed := s.armed + {id}) else s])
  }

  /** Saving the record: a crash finds the old record or the new one. */
  function Saved(s: State): Done { Done(s.(disk := s.owned), [s, s.(disk := s.owned)]) }

  function Then(d: Done, e: Done): Done { Done(e.state, d.snaps + e.snaps) }

  /** A switch recorded ahead of its ON, and taken out again after a failed one. */
  function Recorded(s: State, id: Id): Done { Saved(s.(owned := s.owned + [id])) }

  function Withdrawn(s: State, id: Id): Done { Saved(s.(owned := Without(s.owned, id))) }

  /** The ON itself, once every guard has let it through. */
  function Claimed(s: State, id: Id, a: Answer): Done {
    var claim := id !in s.owned;
    var d0 := if claim then Recorded(s, id) else Done(s, []);
    var d1 := Then(d0, Written(d0.state, id, true, a));
    if Landed(true, a) then d1.(state := d1.state.(memo := true))
    else if claim then Then(d1, Withdrawn(d1.state, id))
    else d1
  }

  function TurnedOn(s: State, entity: Option<Id>, control: bool, blocked: bool, a: Answer): Done {
    if entity.None? || !control || blocked || s.memo then Done(s, [])
    else if s.observed == On then Done(s.(memo := true), [])
    else Claimed(s, entity.value, a)
  }

  /** `turn_on`'s answer: whether the configured switch is known to be on. */
  predicate KnownOn(s: State, entity: Option<Id>, control: bool, blocked: bool, a: Answer) {
    entity.Some? && control && !blocked && (s.memo || s.observed == On || Landed(true, a))
  }

  function ReadingOf(s: State, id: Id): Reading {
    if id in s.readings then s.readings[id] else Reading(Unread, false)
  }

  function AnswerOf(answers: map<Id, Answer>, id: Id): Answer {
    if id in answers then answers[id] else Answer(Unread, false, Unread, false)
  }

  /** When the wait for an unreadable switch began: now, unless it already has. */
  function WaitingSince(s: State, id: Id, now: real): real {
    if id in s.since then s.since[id] else now
  }

  /** A wait ended by a legible reading. */
  function Unwaited(s: State, id: Id): State { s.(since := s.since - {id}) }

  /** A record dropped on an off reading. */
  function Dropped(s: State, id: Id): State { s.(since := s.since - {id}, owned := Without(s.owned, id)) }

  /** A record whose reading is still waited for. */
  function Awaited(s: State, id: Id, now: real): State { s.(since := s.since[id := WaitingSince(s, id, now)]) }

  /** A record given up, to be reported. */
  function GivenUp(s: State, id: Id): State {
    s.(since := s.since - {id}, owned := Without(s.owned, id), lost := s.lost + [id])
  }

  function ReleasedOne(s: State, id: Id, now: real, keep: Option<Id>, entity: Option<Id>, a: Answer): Done {
    var reading := ReadingOf(s, id);
    if keep == Some(id) then Done(s, [])
    else if reading.flag == On then Written(Unwaited(s, id), id, false, a)
    else if reading.flag == Off then Done(Dropped(s, id), [])
    else if entity == Some(id) && !reading.missing then Done(s, [])
    else if now - WaitingSince(s, id, now) < LOST_MINUTES then Done(Awaited(s, id, now), [])
    else Done(GivenUp(s, id), [])
  }

  /** The first `n` records of the list resolved, in order. */
  function Released(s: State, todo: seq<Id>, n: nat, now: real, keep: Option<Id>, entity: Option<Id>,
                    answers: map<Id, Answer>): Done
    requires n <= |todo|
  {
    if n == 0 then Done(s, [])
    else
      var d := Released(s, todo, n - 1, now, keep, entity, answers);
      Then(d, ReleasedOne(d.state, todo[n - 1], now, keep, entity, AnswerOf(answers, todo[n - 1])))
  }

  /** A cycle's readings entered in the history: who was read, and whose wait
      should have ended with it. */
  function Noted(s: State, now: real): State {
    s.(legible := map id | id in s.legible.Keys + s.readings.Keys
                           && (id in s.legible || ReadingOf(s, id).flag != Unread)
                    :: if ReadingOf(s, id).flag != Unread then now else s.legible[id],
       overlooked := set id | id in s.since && (id in s.overlooked || ReadingOf(s, id).flag != Unread))
  }

  /** Every owned switch but `keep` resolved against its reading. */
  function ReleasedAll(s: State, now: real, keep: Option<Id>, entity: Option<Id>,
                       answers: map<Id, Answer>): Done
  {
    var d := Released(s, s.owned, |s.owned|, now, keep, entity, answers);
    d.(state := Noted(d.state, now))
  }

  function IdsOf(ids: seq<Id>): set<Id> { set i | 0 <= i < |ids| :: ids[i] }

  function ReadingFrom(reader: map<Id, Reading>, id: Id): Reading {
    if id in reader then reader[id] else Reading(Unread, true)
  }

  function ReadAll(targets: set<Id>, reader: map<Id, Reading>): map<Id, Reading> {
    map id | id in targets :: ReadingFrom(reader, id)
  }

  /** The readings of the configured switch and every owned one; a switch read off
      is no longer on by us. */
  function Observed(s: State, entity: Option<Id>, reader: map<Id, Reading>): State {
    var targets := IdsOf(s.owned) + if entity.Some? then {entity.value} else {};
    s.(readings := ReadAll(targets, reader),
       observed := if entity.Some? then ReadingFrom(reader, entity.value).flag else Unread,
       armed := set id | id in s.armed && !(id in targets && ReadingFrom(reader, id).flag == Off))
  }

  /** One cycle of the guard: observe, switch on or not, release, save, report. The
      configuration is read afresh after the ON: `later` is what it names then. */
  datatype Cycle = Cycle(
    now: real, entity: Option<Id>, later: Option<Id>, reader: map<Id, Reading>,
    on: bool, control: bool, blocked: bool, onAnswer: Answer, offAnswers: map<Id, Answer>)

  function Driven(s: State, c: Cycle): Done {
    if c.on && c.control && c.entity.Some? then
      var d := TurnedOn(s, c.entity, c.control, c.blocked, c.onAnswer);
      Then(d, ReleasedAll(d.state, c.now, c.later, c.later, c.offAnswers))
    else ReleasedAll(s.(memo := false), c.now, None, c.later, c.offAnswers)
  }

  /** The lost records handed to the repair list: the last word on switches that may
      still be on. */
  function HandedOver(s: State): State {
    s.(lost := [], armed := set id | id in s.armed && id !in s.lost)
  }

  /** The record is saved when it differs from the saved one; only then are the lost
      records handed over. */
  function Cycled(s: State, c: Cycle): Done {
    var d := Driven(Observed(s, c.entity, c.reader), c);
    var e := if d.state.owned != d.state.disk then Then(d, Saved(d.state)) else d;
    e.(state := HandedOver(e.state))
  }

  /** The ids whose OFF landed, of the first `n` of a list. */
  function LandedOffs(todo: seq<Id>, n: nat, answers: map<Id, Answer>): set<Id>
    requires n <= |todo|
  {
    set i | 0 <= i < n && Landed(false, AnswerOf(answers, todo[i])) :: todo[i]
  }

  function BlindWrites(s: State, todo: seq<Id>, n: nat, answers: map<Id, Answer>): Done
    requires n <= |todo|
  {
    if n == 0 then Done(s, [])
    else
      var d := BlindWrites(s, todo, n - 1, answers);
      Then(d, Written(d.state, todo[n - 1], false, AnswerOf(answers, todo[n - 1])))
  }

  function Keep(ids: seq<Id>, dropped: set<Id>): seq<Id> {
    if ids == [] then [] else (if ids[0] in dropped then [] else [ids[0]]) + Keep(ids[1..], dropped)
  }

  /** On unload: OFF to every owned switch unread; drop what landed. */
  function Blind(s: State, answers: map<Id, Answer>): Done {
    var d := BlindWrites(s, s.owned, |s.owned|, answers);
    var landed := LandedOffs(s.owned, |s.owned|, answers);
    if landed == {} then d else Then(d, Saved(d.state.(owned := Keep(d.state.owned, landed))))
  }

  /** A restart from what a crash left: the record on disk, and what is on by us. */
  function Rebooted(disk: seq<Id>, armed: set<Id>, legible: map<Id, real>): State {
    State(disk, [], map[], map[], false, Unread, false, None, disk, armed, legible, {})
  }

  function Restart(m: State, legible: map<Id, real>): State { Rebooted(m.disk, m.armed, legible) }

  /** The state a cycle releases from, and what it keeps. */
  function BeforeRelease(s: State, c: Cycle): State {
    var o := Observed(s, c.entity, c.reader);
    if c.on && c.control && c.entity.Some? then TurnedOn(o, c.entity, c.control, c.blocked, c.onAnswer).state
    else o.(memo := false)
  }

  function Kept(c: Cycle): Option<Id> {
    if c.on && c.control && c.entity.Some? then c.later else None
  }

  /** Unreadable now, and waited for since at least half an hour ago. */
  predicate WaitedOut(s: State, id: Id, now: real) {
    ReadingOf(s, id).flag == Unread && id in s.since && now - s.since[id] >= LOST_MINUTES
  }

  // ----- records without repetition ---------------------------------------------------

  predicate Distinct(ids: seq<Id>) { forall i, j | 0 <= i < j < |ids| :: ids[i] != ids[j] }

  /** Both records are free of repetitions. */
  predicate Neat(s: State) { Distinct(s.owned) && Distinct(s.disk) }

  lemma {:induction false} WithoutFacts(ids: seq<Id>, id: Id)
    requires Distinct(ids)
    ensures Distinct(Without(ids, id))
    ensures forall x :: x in Without(ids, id) <==> x in ids && x != id
  {
    if ids != [] {
      assert ids == [ids[0]] + ids[1..] && ids[0] !in ids[1..];
      if ids[0] != id {
        WithoutFacts(ids[1..], id);
      }
    }
  }

  lemma {:induction false} KeepFacts(ids: seq<Id>, dropped: set<Id>)
    ensures Distinct(ids) ==> Distinct(Keep(ids, dropped))
    ensures forall x :: x in Keep(ids, dropped) <==> x in ids && x !in dropped
  {
    if ids != [] {
      KeepFacts(ids[1..], dropped);
    }
  }

  lemma AppendedDistinct(ids: seq<Id>, id: Id)
    requires Distinct(ids) && id !in ids
    ensures Distinct(ids + [id])
  {
  }

  /** What no write touches. */
  lemma WrittenFrame(s: State, id: Id, on: bool, a: Answer)
    ensures var r := Written(s, id, on, a).state;
            && r.owned == s.owned && r.lost == s.lost && r.readings == s.readings && r.since == s.since
            && r.disk == s.disk && r.legible == s.legible && r.overlooked == s.overlooked
            && r.memo == s.memo && r.observed == s.observed
  {
    hide Landed;
  }

  /** The states of a write in flight: as before, but for an ON that may have landed. */
  predicate InFlight(s: State, m: State, extra: set<Id>) {
    m.owned == s.owned && m.lost == s.lost && m.disk == s.disk && s.armed <= m.armed <= s.armed + extra
  }

  lemma WrittenInFlight(s: State, id: Id, on: bool, a: Answer)
    ensures forall m | m in Written(s, id, on, a).snaps :: InFlight(s, m, if on then {id} else {})
  {
    hide Landed;
  }

  /** A state reached by resolving one record: nothing but its record, its wait, and the
      report of it may differ. */
  predicate Resolves(s: State, x: Id, now: real, r: State) {
    && (r.owned == s.owned || r.owned == Without(s.owned, x))
    && (r.lost == s.lost || r.lost == s.lost + [x])
    && (r.since == s.since || r.since == s.since - {x} || r.since == s.since[x := WaitingSince(s, x, now)])
    && s.armed - {x} <= r.armed <= s.armed && r.disk == s.disk
    && r.readings == s.readings && r.legible == s.legible && r.overlooked == s.overlooked
  }

  lemma ResolvedStates(s: State, x: Id, now: real)
    ensures Resolves(s, x, now, s) && Resolves(s, x, now, Unwaited(s, x)) && Resolves(s, x, now, Dropped(s, x))
    ensures Resolves(s, x, now, Awaited(s, x, now)) && Resolves(s, x, now, GivenUp(s, x))
  {
    hide Without, WaitingSince;
  }

  lemma WrittenResolves(s: State, x: Id, now: real, a: Answer)
    ensures Resolves(s, x, now, Written(Unwaited(s, x), x, false, a).state)
  {
    hide Without, WaitingSince, Landed;
  }

  lemma ReleasedOneShape(s: State, x: Id, now: real, keep: Option<Id>, entity: Option<Id>, a: Answer)
    ensures Resolves(s, x, now, ReleasedOne(s, x, now, keep, entity, a).state)
  {
    hide Resolves, Unwaited, Dropped, Awaited, GivenUp, Written, ReadingOf, WaitingSince;
    ResolvedStates(s, x, now);
    WrittenResolves(s, x, now, a);
  }

  lemma UnwaitedSame(s: State, x: Id)
    ensures InFlight(s, Unwaited(s, x), {})
  {
  }

  /** Resolving one record awaits nothing but its own OFF. */
  lemma ReleasedOneInFlight(s: State, x: Id, now: real, keep: Option<Id>, entity: Option<Id>, a: Answer)
    ensures forall m | m in ReleasedOne(s, x, now, keep, entity, a).snaps :: InFlight(s, m, {})
  {
    hide Unwaited, Dropped, Awaited, GivenUp, Written, ReadingOf, WaitingSince;
    UnwaitedSame(s, x);
    WrittenInFlight(Unwaited(s, x), x, false, a);
  }

  /** A switch's record and wait are as they were. */
  predicate SameRecord(s: State, r: State, id: Id) {
    && (id in r.owned <==> id in s.owned) && (id in r.lost <==> id in s.lost)
    && (id in r.since <==> id in s.since) && (id in s.since ==> r.since[id] == s.since[id])
    && (id in r.armed <==> id in s.armed)
  }

  lemma ReleasedOneOthers(s: State, x: Id, now: real, keep: Option<Id>, entity: Option<Id>, a: Answer, id: Id)
    requires Distinct(s.owned)
    ensures var r := ReleasedOne(s, x, now, keep, entity, a).state;
            && Distinct(r.owned) && r.readings == s.readings && r.legible == s.legible && r.overlooked == s.overlooked
            && (id != x ==> SameRecord(s, r, id))
  {
    hide Distinct, Without, ReleasedOne, WaitingSince;
    WithoutFacts(s.owned, x);
    ReleasedOneShape(s, x, now, keep, entity, a);
  }

  lemma DrivenIsRelease(s: State, c: Cycle)
    ensures Driven(Observed(s, c.entity, c.reader), c).state
         == ReleasedAll(BeforeRelease(s, c), c.now, Kept(c), c.later, c.offAnswers).state
  {
    hide TurnedOn, ReleasedAll;
  }

  lemma NotedSame(s: State, now: real)
    ensures var r := Noted(s, now);
            && r.owned == s.owned && r.armed == s.armed && r.lost == s.lost && r.disk == s.disk && r.since == s.since
  {
  }

  // ----- which ids the records can hold -----------------------------------------------

  /** Records without repetitions, of the given ids only. */
  predicate Tidy(s: State, ids: set<Id>) {
    Neat(s) && (forall id | id in s.owned :: id in ids) && (forall id | id in s.disk :: id in ids)
  }

  predicate AllTidy(d: Done, ids: set<Id>) {
    Tidy(d.state, ids) && forall m | m in d.snaps :: Tidy(m, ids)
  }

  function IdsIn(s: State): set<Id> { (set id | id in s.owned) + (set id | id in s.disk) }

  lemma TidyThen(d: Done, e: Done, ids: set<Id>)
    requires AllTidy(d, ids) && AllTidy(e, ids)
    ensures AllTidy(Then(d, e), ids)
  {
    hide Tidy;
  }

  lemma TidyMore(s: State, ids: set<Id>, more: set<Id>)
    requires Tidy(s, ids) && ids <= more
    ensures Tidy(s, more)
  {
    hide Distinct;
  }

  lemma TidyItself(s: State)
    requires Neat(s)
    ensures Tidy(s, IdsIn(s))
  {
    hide Distinct;
  }

  lemma SavedTidy(s: State, ids: set<Id>)
    requires Tidy(s, ids)
    ensures AllTidy(Saved(s), ids)
  {
    hide Distinct;
  }

  lemma WrittenTidy(s: State, id: Id, on: bool, a: Answer, ids: set<Id>)
    requires Tidy(s, ids)
    ensures AllTidy(Written(s, id, on, a), ids)
  {
    hide Distinct, Landed;
  }

  lemma RecordedTidy(s: State, id: Id, ids: set<Id>)
    requires Tidy(s, ids) && id in ids && id !in s.owned
    ensures AllTidy(Recorded(s, id), ids)
  {
    AppendedDistinct(s.owned, id);
    hide Distinct;
  }

  lemma WithdrawnTidy(s: State, id: Id, ids: set<Id>)
    requires Tidy(s, ids)
    ensures AllTidy(Withdrawn(s, id), ids)
  {
    hide Distinct, Without;
    WithoutFacts(s.owned, id);
  }

  lemma ClaimedTidy(s: State, id: Id, a: Answer, ids: set<Id>)
    requires Tidy(s, ids) && id in ids
    ensures AllTidy(Claimed(s, id, a), ids)
  {
    hide Tidy, Recorded, Withdrawn, Written, Landed, Then;
    var d0 := if id in s.owned then Done(s, []) else Recorded(s, id);
    if id !in s.owned { RecordedTidy(s, id, ids); }
    var w := Written(d0.state, id, true, a);
    WrittenTidy(d0.state, id, true, a, ids);
    TidyThen(d0, w, ids);
    WithdrawnTidy(w.state, id, ids);
    TidyThen(Then(d0, w), Withdrawn(w.state, id), ids);
    ThenState(d0, w);
    TidyMemo(Then(d0, w), ids);
  }

  lemma ThenState(d: Done, e: Done)
    ensures Then(d, e).state == e.state
  {
  }

  lemma TidyMemo(d: Done, ids: set<Id>)
    requires AllTidy(d, ids)
    ensures AllTidy(d.(state := d.state.(memo := true)), ids)
  {
    hide Distinct;
  }

  /** The switch a cycle claims if it does not own it yet: wanted on, allowed, and not
      read on, nor known to be on already. */
  function Claiming(s: State, c: Cycle): set<Id> {
    if c.on && c.control && !c.blocked && c.entity.Some? && !s.memo
       && Observed(s, c.entity, c.reader).observed != On then {c.entity.value} else {}
  }

  lemma TurnedOnTidy(s: State, entity: Option<Id>, control: bool, blocked: bool, a: Answer, ids: set<Id>)
    requires Tidy(s, ids)
    requires entity.Some? && control && !blocked && !s.memo && s.observed != On ==> entity.value in ids
    ensures AllTidy(TurnedOn(s, entity, control, blocked, a), ids)
  {
    hide Claimed, Distinct;
    if entity.Some? && entity.value in ids {
      ClaimedTidy(s, entity.value, a, ids);
    }
  }

  lemma ReleasedOneTidy(
    s: State, x: Id, now: real, keep: Option<Id>, entity: Option<Id>, a: Answer, ids: set<Id>)
    requires Tidy(s, ids)
    ensures AllTidy(ReleasedOne(s, x, now, keep, entity, a), ids)
  {
    hide ReleasedOne, Distinct, Without, WaitingSince;
    ReleasedOneShape(s, x, now, keep, entity, a);
    ReleasedOneInFlight(s, x, now, keep, entity, a);
    WithoutFacts(s.owned, x);
  }

  lemma {:induction false} ReleasedTidy(
    s: State, todo: seq<Id>, n: nat, now: real, keep: Option<Id>, entity: Option<Id>, answers: map<Id, Answer>,
    ids: set<Id>)
    requires n <= |todo| && Tidy(s, ids)
    ensures AllTidy(Released(s, todo, n, now, keep, entity, answers), ids)
  {
    hide ReleasedOne, AnswerOf, Tidy, Then;
    if n > 0 {
      ReleasedTidy(s, todo, n - 1, now, keep, entity, answers, ids);
      var d := Released(s, todo, n - 1, now, keep, entity, answers);
      var one := ReleasedOne(d.state, todo[n - 1], now, keep, entity, AnswerOf(answers, todo[n - 1]));
      ReleasedOneTidy(d.state, todo[n - 1], now, keep, entity, AnswerOf(answers, todo[n - 1]), ids);
      TidyThen(d, one, ids);
    }
  }

  lemma NotedTidy(d: Done, now: real, ids: set<Id>)
    requires AllTidy(d, ids)
    ensures AllTidy(d.(state := Noted(d.state, now)), ids)
  {
    hide Distinct;
  }

  lemma ReleasedAllTidy(
    s: State, now: real, keep: Option<Id>, entity: Option<Id>, answers: map<Id, Answer>, ids: set<Id>)
    requires Tidy(s, ids)
    ensures AllTidy(ReleasedAll(s, now, keep, entity, answers), ids)
  {
    hide Released, Noted, Tidy;
    ReleasedTidy(s, s.owned, |s.owned|, now, keep, entity, answers, ids);
    NotedTidy(Released(s, s.owned, |s.owned|, now, keep, entity, answers), now, ids);
  }

  lemma ObservedSame(s: State, entity: Option<Id>, reader: map<Id, Reading>)
    ensures var o := Observed(s, entity, reader);
            && o.owned == s.owned && o.disk == s.disk && o.lost == s.lost && o.memo == s.memo && o.armed <= s.armed
            && o.since == s.since && o.legible == s.legible && o.overlooked == s.overlooked
  {
  }

  lemma BeforeReleaseTidy(s: State, c: Cycle, ids: set<Id>)
    requires Tidy(s, ids) && Claiming(s, c) <= ids
    ensures Tidy(BeforeRelease(s, c), ids)
    ensures c.on && c.control && c.entity.Some? ==>
              AllTidy(TurnedOn(Observed(s, c.entity, c.reader), c.entity, c.control, c.blocked, c.onAnswer), ids)
  {
    hide TurnedOn, Observed, Distinct;
    var o := Observed(s, c.entity, c.reader);
    ObservedSame(s, c.entity, c.reader);
    assert Tidy(o, ids);
    if c.on && c.control && c.entity.Some? {
      assert !c.blocked && !o.memo && o.observed != On ==> c.entity.value in Claiming(s, c);
      TurnedOnTidy(o, c.entity, c.control, c.blocked, c.onAnswer, ids);
    }
  }

  lemma DrivenTidy(s: State, c: Cycle, ids: set<Id>)
    requires Tidy(s, ids) && Claiming(s, c) <= ids
    ensures AllTidy(Driven(Observed(s, c.entity, c.reader), c), ids)
  {
    hide TurnedOn, Observed, Tidy, ReleasedAll, Then, Claiming;
    BeforeReleaseTidy(s, c, ids);
    var o, b := Observed(s, c.entity, c.reader), BeforeRelease(s, c);
    ReleasedAllTidy(b, c.now, Kept(c), c.later, c.offAnswers, ids);
    if c.on && c.control && c.entity.Some? {
      TidyThen(TurnedOn(o, c.entity, c.control, c.blocked, c.onAnswer),
               ReleasedAll(b, c.now, Kept(c), c.later, c.offAnswers), ids);
    }
  }

  lemma HandedOverTidy(d: Done, ids: set<Id>)
    requires AllTidy(d, ids)
    ensures AllTidy(d.(state := HandedOver(d.state)), ids)
  {
    hide Distinct;
  }

  lemma CycledTidy(s: State, c: Cycle, ids: set<Id>)
    requires Tidy(s, ids) && Claiming(s, c) <= ids
    ensures AllTidy(Cycled(s, c), ids)
  {
    hide Driven, Observed, Tidy, Then, Saved, Claiming, HandedOver;
    DrivenTidy(s, c, ids);
    var d := Driven(Observed(s, c.entity, c.reader), c);
    SavedTidy(d.state, ids);
    TidyThen(d, Saved(d.state), ids);
    HandedOverTidy(if d.state.owned != d.state.disk then Then(d, Saved(d.state)) else d, ids);
  }

  lemma {:induction false} BlindWritesTidy(s: State, todo: seq<Id>, n: nat, answers: map<Id, Answer>, ids: set<Id>)
    requires n <= |todo| && Tidy(s, ids)
    ensures AllTidy(BlindWrites(s, todo, n, answers), ids)
  {
    hide Written, AnswerOf, Tidy, Then;
    if n > 0 {
      BlindWritesTidy(s, todo, n - 1, answers, ids);
      var d := BlindWrites(s, todo, n - 1, answers);
      WrittenTidy(d.state, todo[n - 1], false, AnswerOf(answers, todo[n - 1]), ids);
      TidyThen(d, Written(d.state, todo[n - 1], false, AnswerOf(answers, todo[n - 1])), ids);
    }
  }

  lemma KeptTidy(s: State, dropped: set<Id>, ids: set<Id>)
    requires Tidy(s, ids)
    ensures Tidy(s.(owned := Keep(s.owned, dropped)), ids)
  {
    hide Distinct, Keep;
    KeepFacts(s.owned, dropped);
  }

  lemma BlindTidy(s: State, answers: map<Id, Answer>, ids: set<Id>)
    requires Tidy(s, ids)
    ensures AllTidy(Blind(s, answers), ids)
  {
    hide BlindWrites, Tidy, Then, Saved, LandedOffs, Keep;
    BlindWritesTidy(s, s.owned, |s.owned|, answers, ids);
    var d := BlindWrites(s, s.owned, |s.owned|, answers);
    var landed := LandedOffs(s.owned, |s.owned|, answers);
    KeptTidy(d.state, landed, ids);
    var kept := d.state.(owned := Keep(d.state.owned, landed));
    SavedTidy(kept, ids);
    TidyThen(d, Saved(kept), ids);
  }

  // ----- whole runs -------------------------------------------------------------------

  datatype Event = Guard(cycle: Cycle) | Save | Unload(answers: map<Id, Answer>)

  function Outcome(s: State, ev: Event): Done {
    match ev
    case Guard(c) => Cycled(s, c)
    case Save => Saved(s)
    case Unload(answers) => Blind(s, answers)
  }

  /** How an event ends: it completes; the process dies at its `at`-th await; or it is
      cancelled there and the unload path runs on the memory it left, which may itself
      die at one of its awaits. */
  datatype End = Completes | Dies(at: nat) | Stops(at: nat, answers: map<Id, Answer>, dies: Option<nat>)

  datatype Step = Step(event: Event, end: End)

  /** The await a step is cut at, among so many; past the last one the event completes. */
  predicate Cut(step: Step, awaits: nat) { !step.end.Completes? && step.end.at < awaits }

  /** What a death at an await leaves, or the end when there is none. */
  function Left(d: Done, dies: Option<nat>): State {
    if dies.Some? && dies.value < |d.snaps| then d.snaps[dies.value] else d.state
  }

  /** After an unload, and after a death, the next setup starts from the record on disk. */
  function Next(s: State, step: Step): State {
    var d := Outcome(s, step.event);
    if !Cut(step, |d.snaps|) then
      if step.event.Unload? then Restart(d.state, d.state.legible) else d.state
    else if step.end.Dies? then Restart(d.snaps[step.end.at], d.state.legible)
    else Restart(Left(Blind(d.snaps[step.end.at], step.end.answers), step.end.dies), d.state.legible)
  }

  function After(s: State, run: seq<Step>): State {
    if run == [] then s else Next(After(s, run[..|run| - 1]), run[|run| - 1])
  }

  const INITIAL := Rebooted([], {}, map[])

  function ClaimingIn(s: State, ev: Event): set<Id> { if ev.Guard? then Claiming(s, ev.cycle) else {} }

  lemma OutcomeTidy(s: State, ev: Event, ids: set<Id>)
    requires Tidy(s, ids) && ClaimingIn(s, ev) <= ids
    ensures AllTidy(Outcome(s, ev), ids)
  {
    hide Tidy, Claiming, Cycled, Blind, Saved;
    match ev
    case Guard(c) => CycledTidy(s, c, ids);
    case Save => SavedTidy(s, ids);
    case Unload(answers) => BlindTidy(s, answers, ids);
  }

  lemma RestartTidy(m: State, legible: map<Id, real>, ids: set<Id>)
    requires Tidy(m, ids)
    ensures Tidy(Restart(m, legible), ids)
  {
    hide Distinct;
  }

  /** A step brings no id into the records but one its cycle claims. */
  lemma NextTidy(s: State, step: Step)
    requires Neat(s)
    ensures Tidy(Next(s, step), IdsIn(s) + ClaimingIn(s, step.event))
  {
    hide Tidy, ClaimingIn, Outcome, Blind, IdsIn, Neat, Restart;
    var d, ids := Outcome(s, step.event), IdsIn(s) + ClaimingIn(s, step.event);
    TidyItself(s);
    TidyMore(s, IdsIn(s), ids);
    OutcomeTidy(s, step.event, ids);
    if Cut(step, |d.snaps|) {
      var m := d.snaps[step.end.at];
      assert m in d.snaps;
      if step.end.Dies? {
        RestartTidy(m, d.state.legible, ids);
      } else {
        BlindTidy(m, step.end.answers, ids);
        var b := Blind(m, step.end.answers);
        RestartTidy(Left(b, step.end.dies), d.state.legible, ids);
      }
    } else {
      RestartTidy(d.state, d.state.legible, ids);
    }
  }

  lemma InitialNeat()
    ensures Neat(INITIAL)
  {
  }

  /** In every run, whatever the device does and wherever it is cut, the records hold no
      switch twice. */
  lemma {:induction false} RunNeat(run: seq<Step>)
    ensures Neat(After(INITIAL, run))
  {
    hide Next, Neat;
    if run == [] {
      InitialNeat();
    } else {
      RunNeat(run[..|run| - 1]);
      NextTidy(After(INITIAL, run[..|run| - 1]), run[|run| - 1]);
    }
  }

  /** The assumption about the device, of the one ON an event may write. */
  predicate Allowed(ev: Event) { ev.Guard? ==> Honest(true, ev.cycle.onAnswer) }

  predicate AllAllowed(run: seq<Step>) { forall i | 0 <= i < |run| :: Allowed(run[i].event) }

  /** Between the operations of a run the record on disk is the one in memory. */
  lemma DiskIsOwned(run: seq<Step>)
    ensures After(INITIAL, run).owned == After(INITIAL, run).disk
  {
    hide Driven, Observed, BlindWrites, Keep, Cut, Left;
  }
}
