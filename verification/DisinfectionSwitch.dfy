/** The controller itself: the code of disinfection.py and the guard's cycle, on
    fields, each method against its specification function. */
module DisinfectionSwitchController {
  import opened Options
  import opened SwitchOwnership

  class DisinfectionSwitch {
    var owned: seq<Id>
    var lost: seq<Id>
    var readings: map<Id, Reading>
    var unreadableSince: map<Id, real>
    var memo: bool
    var observed: Flag
    var failed: bool
    var failedEntity: Option<Id>
    /** The record as the store holds it. */
    var disk: seq<Id>
    ghost var armed: set<Id>
    ghost var legible: map<Id, real>
    ghost var overlooked: set<Id>
    /** The state at every await so far. */
    ghost var snaps: seq<State>

    ghost function Abs(): State
      reads this
    {
      State(owned, lost, readings, unreadableSince, memo, observed, failed, failedEntity,
            disk, armed, legible, overlooked)
    }

    /** The state and the crash points of an operation, on top of what was before. */
    twostate predicate Did(d: Done)
      reads this
    {
      Abs() == d.state && snaps == old(snaps) + d.snaps
    }

    constructor (stored: seq<Id>, ghost on: set<Id>, ghost history: map<Id, real>)
      ensures Abs() == Rebooted(stored, on, history) && snaps == []
    {
      owned, disk := stored, stored;
      lost, readings, unreadableSince := [], map[], map[];
      memo, observed, failed, failedEntity := false, Unread, false, None;
      armed, legible, overlooked, snaps := on, history, {}, [];
    }

    /** `persist`: one await, before and after the record reaches the disk. */
    method Persist()
      modifies this
      ensures Did(Saved(old(Abs())))
    {
      ghost var before := Abs();
      disk := owned;
      snaps := snaps + [before, Abs()];
    }

    method Write(id: Id, on: bool, a: Answer) returns (ok: bool)
      modifies this
      ensures ok == Landed(on, a)
      ensures Did(Written(old(Abs()), id, on, a))
      ensures ok == (a.before != Unread && !a.raised && a.after == if on then On else Off)
      ensures if a.before == Unread then failed == old(failed) && failedEntity == old(failedEntity)
              else failed == !ok && failedEntity == (if ok then old(failedEntity) else Some(id))
    {
      hide Written;
      WrittenCases(Abs(), id, on, a);
      if a.before == Unread {
        return false;
      }
      snaps := snaps + [Abs(), if on then Abs().(armed := armed + {id}) else Abs()];
      if on && (Landed(on, a) || a.late) {
        armed := armed + {id};
      }
      if a.raised {
        failed, failedEntity := true, Some(id);
        return false;
      }
      if a.after != (if on then On else Off) {
        failed, failedEntity := true, Some(id);
        return false;
      }
      if !on {
        armed := armed - {id};
      }
      failed := false;
      return true;
    }

    method TurnOn(entity: Option<Id>, control: bool, blocked: bool, a: Answer) returns (known: bool)
      modifies this
      ensures known == KnownOn(old(Abs()), entity, control, blocked, a)
      ensures Did(TurnedOn(old(Abs()), entity, control, blocked, a))
      ensures known == (entity.Some? && control && !blocked
                        && (old(memo) || old(observed) == On || (a.before != Unread && !a.raised && a.after == On)))
      ensures memo == (old(memo) || known)
    {
      if entity.None? || !control {
        return false;
      }
      if blocked {
        return false;
      }
      if memo {
        return true;
      }
      if observed == On {
        memo := true;
        return true;
      }
      known := Claim(entity.value, a);
    }

    /** Write-ahead: the record is saved before the ON, and a failed claim is withdrawn. */
    method Claim(id: Id, a: Answer) returns (ok: bool)
      modifies this
      ensures ok == Landed(true, a)
      ensures Did(Claimed(old(Abs()), id, a))
      ensures memo == (old(memo) || ok)
    {
      hide Written, Landed, Without, Claimed;
      ClaimedCases(Abs(), id, a, snaps);
      var claimed := id !in owned;
      if claimed {
        owned := owned + [id];
        Persist();
      }
      WrittenFrame(Abs(), id, true, a);
      ok := Write(id, true, a);
      if ok {
        memo := true;
      } else if claimed {
        owned := Without(owned, id);
        Persist();
      }
    }

    /** A switch without a legible reading: waited for, and after half an hour given up. */
    method AwaitOrGiveUp(id: Id, now: real)
      modifies this
      ensures Abs() == if now - WaitingSince(old(Abs()), id, now) < LOST_MINUTES
                       then Awaited(old(Abs()), id, now) else GivenUp(old(Abs()), id)
      ensures snaps == old(snaps)
    {
      hide Without;
      if id !in unreadableSince {
        unreadableSince := unreadableSince[id := now];
      }
      if now - unreadableSince[id] < LOST_MINUTES {
        assert old(unreadableSince)[id := WaitingSince(old(Abs()), id, now)] == unreadableSince;
        return;
      }
      assert old(unreadableSince) - {id} == unreadableSince - {id};
      unreadableSince := unreadableSince - {id};
      owned := Without(owned, id);
      lost := lost + [id];
    }

    /** One owned switch resolved against its reading. */
    method ReleaseOne(id: Id, now: real, keep: Option<Id>, entity: Option<Id>, a: Answer)
      modifies this
      ensures Did(ReleasedOne(old(Abs()), id, now, keep, entity, a))
    {
      hide Written, Without, ReleasedOne, WaitingSince, Awaited, GivenUp;
      ReleasedCases(Abs(), id, now, keep, entity, a);
      assert snaps + [] == snaps;
      if keep == Some(id) {
        return;
      }
      var reading := if id in readings then readings[id] else Reading(Unread, false);
      if reading.flag == Unread {
        if !(entity == Some(id) && !reading.missing) {
          AwaitOrGiveUp(id, now);
        }
        return;
      }
      unreadableSince := unreadableSince - {id};
      if reading.flag == On {
        var _ := Write(id, false, a);
      } else {
        owned := Without(owned, id);
      }
    }

    method Release(now: real, keep: Option<Id>, entity: Option<Id>, answers: map<Id, Answer>)
      modifies this
      ensures Did(ReleasedAll(old(Abs()), now, keep, entity, answers))
    {
      hide ReleasedOne, Released, Noted;
      var todo := owned;
      ghost var start := Abs();
      ghost var before := snaps;
      ReleasedNone(start, todo, now, keep, entity, answers);
      assert before + [] == before;
      for i := 0 to |todo|
        invariant Abs() == Released(start, todo, i, now, keep, entity, answers).state
        invariant snaps == before + Released(start, todo, i, now, keep, entity, answers).snaps
      {
        ReleasedNext(start, todo, i, now, keep, entity, answers, before);
        ReleaseOne(todo[i], now, keep, entity, AnswerOf(answers, todo[i]));
      }
      NotedOnly(Abs(), now);
      ghost var noted := Noted(Abs(), now);
      legible, overlooked := noted.legible, noted.overlooked;
    }

    method Observe(entity: Option<Id>, reader: map<Id, Reading>)
      modifies this
      ensures Did(Done(Observed(old(Abs()), entity, reader), []))
      ensures forall id :: id in readings <==> id in owned || entity == Some(id)
      ensures forall id | id in readings :: readings[id] == if id in reader then reader[id] else Reading(Unread, true)
      ensures observed == if entity.Some? then readings[entity.value].flag else Unread
    {
      hide ReadingFrom, ReadAll, IdsOf;
      ReadAllIs(IdsOf(owned) + if entity.Some? then {entity.value} else {}, reader);
      ReadAllIs(IdsOf(owned), reader);
      IdsAre(owned);
      ghost var targets := IdsOf(owned) + if entity.Some? then {entity.value} else {};
      readings := ReadOwned(owned, reader);
      if entity.Some? {
        readings := readings[entity.value := ReadingFrom(reader, entity.value)];
      }
      assert readings == ReadAll(targets, reader);
      observed := if entity.Some? then readings[entity.value].flag else Unread;
      armed := set id | id in armed && !(id in targets && ReadingFrom(reader, id).flag == Off);
    }

    method ReleaseBlind(answers: map<Id, Answer>)
      modifies this
      ensures Did(Blind(old(Abs()), answers))
    {
      hide Written, BlindWrites, LandedOffs, Landed, Keep;
      var todo := owned;
      ghost var start := Abs();
      ghost var before := snaps;
      BlindNone(start, todo, answers);
      assert before + [] == before;
      var landed: set<Id> := {};
      for i := 0 to |todo|
        invariant Abs() == BlindWrites(start, todo, i, answers).state && owned == start.owned
        invariant snaps == before + BlindWrites(start, todo, i, answers).snaps
        invariant landed == LandedOffs(todo, i, answers)
      {
        BlindNext(start, todo, i, answers, before);
        LandedStep(todo, i, answers);
        WrittenFrame(Abs(), todo[i], false, AnswerOf(answers, todo[i]));
        var ok := Write(todo[i], false, AnswerOf(answers, todo[i]));
        if ok {
          landed := landed + {todo[i]};
        }
      }
      ghost var d := BlindWrites(start, todo, |todo|, answers);
      if landed != {} {
        owned := Keep(owned, landed);
        Persist();
        ghost var e := Saved(d.state.(owned := Keep(start.owned, landed)));
        assert (before + d.snaps) + e.snaps == before + (d.snaps + e.snaps);
      }
    }

    /** `_drive_switch` up to the save: the ON when it is wanted, then the release. */
    method Drive(c: Cycle)
      modifies this
      ensures Did(Driven(old(Abs()), c))
    {
      hide TurnedOn, ReleasedAll, KnownOn;
      if c.on && c.control && c.entity.Some? {
        var _ := TurnOn(c.entity, c.control, c.blocked, c.onAnswer);
        Release(c.now, c.later, c.later, c.offAnswers);
      } else {
        memo := false;
        Release(c.now, None, c.later, c.offAnswers);
      }
    }

    /** One cycle: observe, drive, save, and hand over what was lost. */
    method RunCycle(c: Cycle) returns (reported: seq<Id>)
      modifies this
      ensures Did(Cycled(old(Abs()), c))
      ensures reported == Driven(Observed(old(Abs()), c.entity, c.reader), c).state.lost
    {
      hide Driven, Observed;
      Observe(c.entity, c.reader);
      Drive(c);
      if owned != disk {
        Persist();
      }
      reported := lost;
      armed := set id | id in armed && id !in lost;
      lost := [];
    }
  }

  /** A write, case by case. */
  lemma WrittenCases(s: State, id: Id, on: bool, a: Answer)
    ensures var w := Written(s, id, on, a);
            if a.before == Unread then w == Done(s, [])
            else
              && w.snaps == [s, if on then s.(armed := s.armed + {id}) else s]
              && (Landed(on, a) ==> w.state == s.(armed := if on then s.armed + {id} else s.armed - {id}, failed := false))
              && (!Landed(on, a) ==>
                    w.state == s.(armed := if on && a.late then s.armed + {id} else s.armed,
                                  failed := true, failedEntity := Some(id)))
  {
    hide Landed;
  }

  /** An ON, case by case, its crash points after those before. */
  lemma ClaimedCases(s: State, id: Id, a: Answer, before: seq<State>)
    ensures var d0 := if id !in s.owned then Recorded(s, id) else Done(s, []);
            var w := Written(d0.state, id, true, a);
            var c := Claimed(s, id, a);
            if Landed(true, a) then
              c.state == w.state.(memo := true) && before + c.snaps == before + d0.snaps + w.snaps
            else if id !in s.owned then
              && c.state == Withdrawn(w.state, id).state
              && before + c.snaps == before + d0.snaps + w.snaps + Withdrawn(w.state, id).snaps
            else c.state == w.state && before + c.snaps == before + d0.snaps + w.snaps
    ensures before + [] == before
  {
    hide Written, Landed, Recorded, Withdrawn;
  }

  lemma ReleasedNone(s: State, todo: seq<Id>, now: real, keep: Option<Id>, entity: Option<Id>, answers: map<Id, Answer>)
    ensures Released(s, todo, 0, now, keep, entity, answers) == Done(s, [])
  {
  }

  /** One more record resolved, and its crash points after those before. */
  lemma ReleasedNext(s: State, todo: seq<Id>, i: nat, now: real, keep: Option<Id>, entity: Option<Id>,
                     answers: map<Id, Answer>, before: seq<State>)
    requires i < |todo|
    ensures var d := Released(s, todo, i, now, keep, entity, answers);
            var one := ReleasedOne(d.state, todo[i], now, keep, entity, AnswerOf(answers, todo[i]));
            var e := Released(s, todo, i + 1, now, keep, entity, answers);
            e.state == one.state && before + e.snaps == before + d.snaps + one.snaps
  {
    hide ReleasedOne, AnswerOf;
  }

  lemma NotedOnly(s: State, now: real)
    ensures Noted(s, now) == s.(legible := Noted(s, now).legible, overlooked := Noted(s, now).overlooked)
  {
  }

  lemma BlindNone(s: State, todo: seq<Id>, answers: map<Id, Answer>)
    ensures BlindWrites(s, todo, 0, answers) == Done(s, [])
    ensures LandedOffs(todo, 0, answers) == {}
  {
  }

  lemma BlindNext(s: State, todo: seq<Id>, i: nat, answers: map<Id, Answer>, before: seq<State>)
    requires i < |todo|
    ensures var d := BlindWrites(s, todo, i, answers);
            var one := Written(d.state, todo[i], false, AnswerOf(answers, todo[i]));
            var e := BlindWrites(s, todo, i + 1, answers);
            e.state == one.state && before + e.snaps == before + d.snaps + one.snaps
  {
    hide Written, AnswerOf;
  }

  /** Resolving one record, case by case. */
  lemma ReleasedCases(s: State, id: Id, now: real, keep: Option<Id>, entity: Option<Id>, a: Answer)
    ensures ReleasedOne(s, id, now, keep, entity, a) ==
      if keep == Some(id) then Done(s, [])
      else if ReadingOf(s, id).flag == On then Written(Unwaited(s, id), id, false, a)
      else if ReadingOf(s, id).flag == Off then Done(Dropped(s, id), [])
      else if entity == Some(id) && !ReadingOf(s, id).missing then Done(s, [])
      else if now - WaitingSince(s, id, now) < LOST_MINUTES then Done(Awaited(s, id, now), [])
      else Done(GivenUp(s, id), [])
  {
    hide Written, Unwaited, Dropped, Awaited, GivenUp, ReadingOf, WaitingSince;
  }

  method ReadOwned(ids: seq<Id>, reader: map<Id, Reading>) returns (readings: map<Id, Reading>)
    ensures readings == ReadAll(IdsOf(ids), reader)
  {
    hide ReadingFrom;
    readings := map[];
    for i := 0 to |ids|
      invariant readings == ReadAll(IdsOf(ids[..i]), reader)
    {
      ReadOneMore(ids, i, reader);
      readings := readings[ids[i] := ReadingFrom(reader, ids[i])];
    }
    assert ids[..|ids|] == ids;
  }

  lemma ReadAllIs(targets: set<Id>, reader: map<Id, Reading>)
    ensures ReadAll(targets, reader).Keys == targets
    ensures forall id | id in targets :: ReadAll(targets, reader)[id] == ReadingFrom(reader, id)
    ensures forall id | id in targets ::
              ReadAll(targets, reader)[id] == if id in reader then reader[id] else Reading(Unread, true)
  {
  }

  lemma IdsAre(ids: seq<Id>)
    ensures forall id :: id in IdsOf(ids) <==> id in ids
  {
  }

  lemma ReadOneMore(ids: seq<Id>, i: nat, reader: map<Id, Reading>)
    requires i < |ids|
    ensures ReadAll(IdsOf(ids[..i + 1]), reader) == ReadAll(IdsOf(ids[..i]), reader)[ids[i] := ReadingFrom(reader, ids[i])]
  {
    hide ReadingFrom;
    assert IdsOf(ids[..i + 1]) == IdsOf(ids[..i]) + {ids[i]} by {
      assert ids[..i + 1] == ids[..i] + [ids[i]];
      forall id ensures id in IdsOf(ids[..i + 1]) <==> id in IdsOf(ids[..i]) || id == ids[i] {
        assert id == ids[i] ==> ids[..i + 1][i] == id;
        if id in IdsOf(ids[..i]) {
          var k :| 0 <= k < i && ids[k] == id;
          assert ids[..i + 1][k] == id;
        }
      }
    }
  }

  lemma LandedStep(todo: seq<Id>, i: nat, answers: map<Id, Answer>)
    requires i < |todo|
    ensures LandedOffs(todo, i + 1, answers)
         == LandedOffs(todo, i, answers) + if Landed(false, AnswerOf(answers, todo[i])) then {todo[i]} else {}
  {
    hide Landed;
  }
}
