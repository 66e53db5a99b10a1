/** Whose ON it was: which switches an OFF can reach, and when the ON recorded for one of
    them is what turned it on. */
module SwitchClaims {
  import opened Options
  import opened SwitchOwnership
  import SwitchWaits

  /** A step sends an OFF to the switch: in a cycle's release, on an unload, or on the
      unload after a cancelled event. */
  predicate OffIn(s: State, step: Step, id: Id) {
    var d := Outcome(s, step.event);
    || (step.event.Guard?
        && var b := BeforeRelease(s, step.event.cycle);
           id in b.owned && Kept(step.event.cycle) != Some(id) && ReadingOf(b, id).flag == On)
    || (step.event.Unload? && id in s.owned)
    || (step.end.Stops? && Cut(step, |d.snaps|) && id in d.snaps[step.end.at].owned)
  }

  /** The `k`-th step of the run claims the switch. */
  predicate ClaimedAt(run: seq<Step>, k: nat, id: Id) {
    k < |run| && id !in After(INITIAL, run[..k]).owned && id in After(INITIAL, run[..k + 1]).owned
  }

  /** And it is owned ever since. */
  predicate LastClaim(run: seq<Step>, k: nat, id: Id) {
    ClaimedAt(run, k, id) && forall j: nat | k < j <= |run| :: id in After(INITIAL, run[..j]).owned
  }

  lemma {:induction false} ClaimExists(run: seq<Step>, id: Id)
    requires id in After(INITIAL, run).owned
    ensures exists k: nat :: LastClaim(run, k, id)
  {
    hide Next;
    assert run != [];
    var prefix := run[..|run| - 1];
    if id in After(INITIAL, prefix).owned {
      ClaimExists(prefix, id);
      var k: nat :| LastClaim(prefix, k, id);
      ClaimStands(run, k, id);
    } else {
      assert run[..|run| - 1 + 1] == run;
      assert LastClaim(run, |run| - 1, id);
    }
  }

  lemma ClaimStands(run: seq<Step>, k: nat, id: Id)
    requires run != [] && LastClaim(run[..|run| - 1], k, id) && id in After(INITIAL, run).owned
    ensures LastClaim(run, k, id)
  {
    hide After;
    var prefix := run[..|run| - 1];
    assert prefix[..k] == run[..k] && prefix[..k + 1] == run[..k + 1];
    forall j: nat | k < j <= |run| ensures id in After(INITIAL, run[..j]).owned {
      if j <= |prefix| { assert prefix[..j] == run[..j]; } else { assert run[..j] == run; }
    }
  }

  /** Only a cycle claims, and only the switch it names: control on, no block, wanted on,
      and not read on. */
  lemma ClaimIs(s: State, step: Step, id: Id)
    requires Neat(s) && s.owned == s.disk && id !in s.owned && id in Next(s, step).owned
    ensures step.event.Guard? && id in Claiming(s, step.event.cycle)
  {
    hide Next, Neat, Claiming;
    NextTidy(s, step);
  }

  lemma ClaimingMeans(s: State, c: Cycle, id: Id)
    ensures id in Claiming(s, c) <==>
              && c.entity == Some(id) && c.on && c.control && !c.blocked && !s.memo
              && ReadingOf(Observed(s, c.entity, c.reader), id).flag != On
  {
  }

  /** Where a cycle's ON phase ended: at its cut, or complete. */
  function OnPhase(s: State, step: Step): State
    requires step.event.Guard?
  {
    var c := step.event.cycle;
    var d := TurnedOn(Observed(s, c.entity, c.reader), c.entity, c.control, c.blocked, c.onAnswer);
    if Cut(step, |d.snaps|) then d.snaps[step.end.at] else d.state
  }

  /** The step's own ON is what turned the switch on: it was off at the write, and on by
      us when the step's ON phase ended, counting from no switch on by us. */
  predicate OnWasOurs(s: State, step: Step, id: Id)
    requires step.event.Guard?
  {
    step.event.cycle.onAnswer.before == Off && id in OnPhase(s.(armed := {}), step).armed
  }

  /** It was off at the write, and the ON took: it was read back and the event not cut
      before it landed, or it had landed when the event was cut in the call. */
  predicate OnTook(step: Step)
    requires step.event.Guard?
  {
    var a := step.event.cycle.onAnswer;
    a.before == Off
    && if step.end.Completes? || step.end.at > ON_IN_FLIGHT then Landed(true, a) else step.end.at == ON_IN_FLIGHT
  }

  /** The awaits of a claim: two of the write-ahead save, then the call before and after
      the ON has landed. */
  const ON_IN_FLIGHT: nat := 3

  /** The ON phase of a claim, await by await. */
  lemma ClaimPhase(o: State, id: Id, a: Answer)
    requires id !in o.owned && a.before != Unread && Honest(true, a) && o.armed == {}
    ensures var d := Claimed(o, id, a);
            && |d.snaps| >= 4 && d.snaps[3].armed == {id} && (forall i | 0 <= i < 3 :: d.snaps[i].armed == {})
            && (forall i | 4 <= i < |d.snaps| :: !Landed(true, a) && d.snaps[i].armed == {})
            && d.state.armed == if Landed(true, a) then {id} else {}
  {
    hide Without;
  }

  lemma OnPhaseIs(s: State, step: Step, id: Id)
    requires step.event.Guard? && id in Claiming(s, step.event.cycle)
    ensures var c, t := step.event.cycle, s.(armed := {});
            var o := Observed(t, c.entity, c.reader);
            TurnedOn(o, c.entity, c.control, c.blocked, c.onAnswer) == Claimed(o, id, c.onAnswer)
            && o.owned == s.owned && o.armed == {}
  {
    hide Claimed;
  }

  /** A claim's ON is what turned the switch on exactly when the switch was off at the
      write and the ON took. */
  lemma OursIff(s: State, step: Step, id: Id)
    requires Allowed(step.event) && step.event.Guard? && id !in s.owned && id in Claiming(s, step.event.cycle)
    ensures OnWasOurs(s, step, id) <==> OnTook(step)
  {
    hide Claimed, Claiming, Honest, Landed, Observed, TurnedOn;
    OnPhaseIs(s, step, id);
    var c := step.event.cycle;
    if c.onAnswer.before == Off {
      ClaimPhase(Observed(s.(armed := {}), c.entity, c.reader), id, c.onAnswer);
    }
  }

  /** An OFF goes only to a switch owned before the step, or to the one a cancelled cycle
      was about to switch on. */
  lemma OffIsOwned(s: State, step: Step, id: Id)
    requires Neat(s) && s.owned == s.disk && OffIn(s, step, id)
    ensures id in s.owned || (step.event.Guard? && step.end.Stops? && id in Claiming(s, step.event.cycle))
  {
    hide Outcome, BeforeRelease, Observed, Claiming, Kept, Distinct, ReadingOf;
    var ids := IdsIn(s) + ClaimingIn(s, step.event);
    TidyItself(s);
    TidyMore(s, IdsIn(s), ids);
    OutcomeTidy(s, step.event, ids);
    if step.event.Guard? {
      var c := step.event.cycle;
      BeforeReleaseTidy(s, c, ids);
      SwitchWaits.BeforeReleaseFacts(s, c);
      ClaimingMeans(s, c, id);
      SameReading(BeforeRelease(s, c), Observed(s, c.entity, c.reader), id);
    }
    SnapTidy(Outcome(s, step.event), ids);
  }

  lemma SameReading(b: State, o: State, id: Id)
    requires b.readings == o.readings
    ensures ReadingOf(b, id) == ReadingOf(o, id)
  {
  }

  lemma SnapTidy(d: Done, ids: set<Id>)
    requires AllTidy(d, ids)
    ensures forall i | 0 <= i < |d.snaps| :: Tidy(d.snaps[i], ids)
  {
    hide Tidy;
  }

  /** Whose switches are switched off. Over any run: an OFF goes to a switch this code
      claimed in an earlier cycle and has owned ever since, or to the one a cancelled cycle
      was about to switch on; the claim was of the configured switch, wanted on and not
      read on; and its ON is what turned the switch on exactly when the switch was off at
      the write and the ON took. */
  lemma OffsAreOursIff(run: seq<Step>, step: Step, id: Id)
    requires AllAllowed(run) && OffIn(After(INITIAL, run), step, id)
    ensures (exists k: nat :: LastClaim(run, k, id))
            || (step.event.Guard? && step.end.Stops? && id in Claiming(After(INITIAL, run), step.event.cycle))
    ensures forall k: nat | LastClaim(run, k, id) ::
              && run[k].event.Guard? && id in Claiming(After(INITIAL, run[..k]), run[k].event.cycle)
              && (OnWasOurs(After(INITIAL, run[..k]), run[k], id) <==> OnTook(run[k]))
  {
    hide After, OffIn, Neat, Claiming, OnWasOurs, OnTook, Allowed;
    RunNeat(run);
    DiskIsOwned(run);
    OffIsOwned(After(INITIAL, run), step, id);
    if id in After(INITIAL, run).owned {
      ClaimExists(run, id);
    }
    forall k: nat | LastClaim(run, k, id)
      ensures run[k].event.Guard? && id in Claiming(After(INITIAL, run[..k]), run[k].event.cycle)
      ensures OnWasOurs(After(INITIAL, run[..k]), run[k], id) <==> OnTook(run[k])
    {
      ClaimedInRun(run, k, id);
    }
  }

  /** A claim of a run, and whether its ON was what turned the switch on. */
  lemma ClaimedInRun(run: seq<Step>, k: nat, id: Id)
    requires k < |run| && Allowed(run[k].event) && ClaimedAt(run, k, id)
    ensures run[k].event.Guard? && id in Claiming(After(INITIAL, run[..k]), run[k].event.cycle)
    ensures OnWasOurs(After(INITIAL, run[..k]), run[k], id) <==> OnTook(run[k])
  {
    hide Next, Neat, Claiming, OnWasOurs, OnTook, Allowed;
    RunNeat(run[..k]);
    DiskIsOwned(run[..k]);
    assert run[..k + 1][..k] == run[..k];
    ClaimIs(After(INITIAL, run[..k]), run[k], id);
    OursIff(After(INITIAL, run[..k]), run[k], id);
  }
}
