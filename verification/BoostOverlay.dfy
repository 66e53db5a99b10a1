/** The timed boost and block windows of boost.py: one window per channel, the settling
    tail a space boost leaves behind, and whether the learners are frozen. Instants are
    exact hours on one clock. */
module BoostOverlay {
  import opened Options

  datatype Channel = Dhw | Space

  /** The window of a boost and of a block. */
  const LEAD: real := 2.0
  const SETTLE_TAIL: real := 12.0

  datatype State = State(until: map<Channel, real>, blocked: map<Channel, real>, settle: Option<real>)

  const OFF := State(map[], map[], None)

  /** A channel's boost is governing at `now`. */
  predicate Active(s: State, c: Channel, now: real) { c in s.until && s.until[c] > now }

  /** The learners' question, with the global boost mode not selected. */
  predicate Frozen(s: State, t: real) {
    Space in s.until || (s.settle.Some? && s.settle.value > t)
  }

  /** A boost and a block never share a channel. */
  predicate Exclusive(s: State) { s.until.Keys !! s.blocked.Keys }

  // ----- the operations ---------------------------------------------------------------------

  function Held(end: real, now: real): real { if end > now + LEAD then now + LEAD else end }

  function Expired(s: State, now: real): State {
    State(map c | c in s.until && s.until[c] > now :: Held(s.until[c], now),
          map c | c in s.blocked && s.blocked[c] > now :: Held(s.blocked[c], now),
          if Space in s.until && s.until[Space] <= now then Some(s.until[Space] + SETTLE_TAIL) else s.settle)
  }

  /** Ending channel `c` at `now` by hand: a live space boost owes its tail. */
  function Ended(s: State, c: Channel, now: real): State {
    State(s.until - {c}, s.blocked,
          if c == Space && Active(s, Space, now) then Some(now + SETTLE_TAIL) else s.settle)
  }

  function Boosted(s: State, c: Channel, on: bool, now: real): State {
    if on then State(s.until[c := now + LEAD], s.blocked - {c}, s.settle) else Ended(s, c, now)
  }

  function Blocked(s: State, c: Channel, on: bool, now: real): State {
    if on then
      var e := Ended(s, c, now);
      e.(blocked := e.blocked[c := now + LEAD])
    else s.(blocked := s.blocked - {c})
  }

  datatype Event =
    | Expire                       // a cycle lays the overlay
    | Boost(c: Channel, on: bool)  // the boost switch
    | Block(c: Channel, on: bool)  // the block switch
    | Release(c: Channel)          // a safety floor drops the block
    | NoTank                       // a house without hot water drops that channel
    | ModeEnded                    // the global boost mode is left

  datatype Step = Step(now: real, event: Event)

  function Next(s: State, step: Step): State {
    match step.event
    case Expire => Expired(s, step.now)
    case Boost(c, on) => Boosted(s, c, on, step.now)
    case Block(c, on) => Blocked(s, c, on, step.now)
    case Release(c) => s.(blocked := s.blocked - {c})
    case NoTank => State(s.until - {Dhw}, s.blocked - {Dhw}, s.settle)
    case ModeEnded => s.(settle := Some(step.now + SETTLE_TAIL))
  }

  function After(run: seq<Step>): State {
    if run == [] then OFF else Next(After(run[..|run| - 1]), run[|run| - 1])
  }

  // ----- what sets and what ends a window -----------------------------------------------------

  /** A block window is there exactly after a block press, until the block is released, by hand
      or by a safety floor, the channel is boosted or has no tank, or a cycle finds the window
      ended; its end is two hours from the press, or from the last cycle that found more. */
  lemma BlockedIff(s: State, step: Step, c: Channel)
    ensures var n, now := Next(s, step), step.now;
            var pressed := step.event == Block(c, true);
            var ended := || step.event == Block(c, false) || step.event == Boost(c, true) || step.event == Release(c)
                         || (step.event == NoTank && c == Dhw)
                         || (step.event == Expire && c in s.blocked && s.blocked[c] <= now);
            && (c in n.blocked <==> pressed || (c in s.blocked && !ended))
            && (c in n.blocked ==>
                  n.blocked[c] == if pressed || (step.event == Expire && s.blocked[c] > now + 2.0) then now + 2.0
                                  else s.blocked[c])
  {
  }

  /** A boost window likewise, ended by a press of either switch instead. */
  lemma BoostedIff(s: State, step: Step, c: Channel)
    ensures var n, now := Next(s, step), step.now;
            var pressed := step.event == Boost(c, true);
            var ended := || step.event == Boost(c, false) || step.event == Block(c, true)
                         || (step.event == NoTank && c == Dhw)
                         || (step.event == Expire && c in s.until && s.until[c] <= now);
            && (c in n.until <==> pressed || (c in s.until && !ended))
            && (c in n.until ==>
                  n.until[c] == if pressed || (step.event == Expire && s.until[c] > now + 2.0) then now + 2.0
                                else s.until[c])
  {
  }

  /** The tail is set to twelve hours from a live space boost's end by hand, from the end of a
      window a cycle expires, or from leaving the boost mode, and is touched by nothing else. */
  lemma TailIff(s: State, step: Step)
    ensures var n, now := Next(s, step), step.now;
            var live := Space in s.until && s.until[Space] > now;
            n.settle ==
              if step.event == ModeEnded then Some(now + 12.0)
              else if live && (step.event == Boost(Space, false) || step.event == Block(Space, true)) then Some(now + 12.0)
              else if step.event == Expire && Space in s.until && !live then Some(s.until[Space] + 12.0)
              else s.settle
  {
  }

  // ----- exclusion and the two-hour bound -----------------------------------------------------

  /** On any clock, a boost and a block never coexist on a channel. */
  lemma {:induction false} BoostExcludesBlock(run: seq<Step>)
    ensures Exclusive(After(run))
  {
    hide Held;
    if run != [] {
      BoostExcludesBlock(run[..|run| - 1]);
    }
  }

  /** After a cycle every window ends within two hours, even when the clock stepped back
      since it was set, and no ended window is left. */
  lemma CycleBoundsWindows(s: State, now: real, c: Channel)
    ensures c in Expired(s, now).until ==> now < Expired(s, now).until[c] <= now + LEAD
    ensures c in Expired(s, now).blocked ==> now < Expired(s, now).blocked[c] <= now + LEAD
    ensures Active(Expired(s, now), c, now) <==> Active(s, c, now)
  {
  }

  // ----- runs on a monotone clock --------------------------------------------------------------

  predicate Monotone(run: seq<Step>) {
    forall i, j | 0 <= i < j < |run| :: run[i].now <= run[j].now
  }

  predicate WithinLead(s: State, now: real) {
    forall c | c in s.until :: s.until[c] <= now + LEAD
  }

  /** The space boost was governing at `t`: the state of the last step at or before `t`
      says so. */
  predicate LiveAt(run: seq<Step>, t: real) {
    if run == [] then false
    else if t >= run[|run| - 1].now then Active(After(run), Space, t)
    else LiveAt(run[..|run| - 1], t)
  }

  lemma {:induction false} WindowsWithinLead(run: seq<Step>)
    requires Monotone(run) && run != []
    ensures WithinLead(After(run), run[|run| - 1].now)
  {
    var k := |run| - 1;
    if k > 0 {
      WindowsWithinLead(run[..k]);
      assert run[k - 1].now <= run[k].now;
    }
  }

  /** The space window over one step with the clock not run back: set anew, ended, or as
      it was. */
  lemma SpaceWindowOverStep(s: State, step: Step, before: real)
    requires before <= step.now && (Space in s.until ==> s.until[Space] <= before + LEAD)
    ensures var n := Next(s, step);
            Space in n.until ==>
              n.until[Space] == step.now + LEAD || (Space in s.until && n.until[Space] == s.until[Space])
  {
  }

  /** The whole window of a space boost still held was live. */
  lemma {:induction false} HeldWindowWasLive(run: seq<Step>, t: real)
    requires Monotone(run) && Space in After(run).until
    requires After(run).until[Space] - LEAD <= t < After(run).until[Space]
    ensures LiveAt(run, t)
  {
    hide Next;
    var k := |run| - 1;
    if k > 0 {
      WindowsWithinLead(run[..k]);
      assert run[k - 1].now <= run[k].now;
    }
    SpaceWindowOverStep(After(run[..k]), run[k], if k > 0 then run[k - 1].now else run[k].now);
    if t < run[k].now {
      HeldWindowWasLive(run[..k], t);
    }
  }

  // ----- the freeze --------------------------------------------------------------------------

  /** The promise: the learners are frozen at `t` whenever the space boost governed at some
      instant of the twelve hours up to `t`. */
  predicate PromiseAt(run: seq<Step>, live: real, t: real) {
    t - SETTLE_TAIL < live <= t && LiveAt(run, live) ==> Frozen(After(run), t)
  }

  ghost predicate Promised(run: seq<Step>) {
    forall live, t :: (run != [] ==> run[|run| - 1].now <= t) ==> PromiseAt(run, live, t)
  }

  /** A cancel or a block that finds the space window ended but not yet expired, inside
      the tail it owes and with no other tail that long: the branch that pops the entry
      without starting the tail. */
  predicate DropsTail(s: State, step: Step) {
    && (step.event == Boost(Space, false) || step.event == Block(Space, true))
    && Space in s.until && s.until[Space] <= step.now < s.until[Space] + SETTLE_TAIL
    && !(s.settle.Some? && s.settle.value >= s.until[Space] + SETTLE_TAIL)
  }

  predicate KeepsTails(run: seq<Step>) {
    forall k | 0 <= k < |run| :: !DropsTail(After(run[..k]), run[k])
  }

  /** What an instant of boost leaves behind at `now`: its window, its tail, or nothing
      because its twelve hours are over. */
  predicate Covered(s: State, live: real, now: real) {
    if Space in s.until then s.until[Space] > live
    else (s.settle.Some? && s.settle.value >= live + SETTLE_TAIL) || now >= live + SETTLE_TAIL
  }

  lemma CoveredStep(s: State, step: Step, live: real, before: real)
    requires WithinLead(s, before) && before <= step.now && live < step.now
    requires Covered(s, live, before) && !DropsTail(s, step)
    ensures Covered(Next(s, step), live, step.now)
  {
  }

  lemma {:induction false} LiveIsCovered(run: seq<Step>, live: real)
    requires Monotone(run) && KeepsTails(run) && LiveAt(run, live)
    ensures Covered(After(run), live, run[|run| - 1].now)
  {
    hide Next, DropsTail, WithinLead, Monotone, KeepsTails, Covered, Active;
    var k := |run| - 1;
    if live < run[k].now {
      RunPrefix(run);
      LiveIsCovered(run[..k], live);
      WindowsWithinLead(run[..k]);
      CoveredStep(After(run[..k]), run[k], live, run[k - 1].now);
    } else {
      LiveNowCovered(After(run), live, run[k].now);
    }
  }

  lemma RunPrefix(run: seq<Step>)
    requires Monotone(run) && KeepsTails(run) && run != []
    ensures var k := |run| - 1;
            && Monotone(run[..k]) && KeepsTails(run[..k]) && !DropsTail(After(run[..k]), run[k])
            && (k > 0 ==> run[k - 1].now <= run[k].now)
  {
    hide DropsTail, After;
    var k := |run| - 1;
    assert forall i | 0 <= i < k :: run[..k][..i] == run[..i];
  }

  lemma LiveNowCovered(s: State, live: real, now: real)
    requires Active(s, Space, live)
    ensures Covered(s, live, now)
  {
  }

  /** Runs that never drop a tail keep the promise. */
  lemma TailsKeepPromise(run: seq<Step>, live: real, t: real)
    requires Monotone(run) && KeepsTails(run) && (run != [] ==> run[|run| - 1].now <= t)
    ensures PromiseAt(run, live, t)
  {
    hide Next, DropsTail, KeepsTails;
    if t - SETTLE_TAIL < live <= t && LiveAt(run, live) {
      LiveIsCovered(run, live);
    }
  }

  /** A dropped tail breaks the promise at once: some governed instant is forgotten. */
  lemma DroppedTailBreaks(run: seq<Step>)
    requires Monotone(run) && run != []
    requires DropsTail(After(run[..|run| - 1]), run[|run| - 1])
    ensures !Promised(run)
  {
    var k := |run| - 1;
    var s, now := After(run[..k]), run[k].now;
    var end := s.until[Space];
    var t := if s.settle.Some? && s.settle.value > now then s.settle.value else now;
    var late := (t - SETTLE_TAIL + end) / 2.0;
    var live := if late < end - LEAD then end - LEAD else late;
    HeldWindowWasLive(run[..k], live);
    assert LiveAt(run, live);
    assert !PromiseAt(run, live, t);
  }

  /** Exactly when the freeze can be relied on: after every step of a run on a monotone
      clock the promise holds if and only if no cancel or block met an ended window before
      a cycle expired it. */
  lemma FrozenWhileSettlingIff(run: seq<Step>)
    requires Monotone(run)
    ensures (forall n | 0 <= n <= |run| :: Promised(run[..n])) <==> KeepsTails(run)
  {
    hide After, LiveAt, DropsTail, PromiseAt;
    if KeepsTails(run) {
      forall n | 0 <= n <= |run| ensures Promised(run[..n]) {
        var prefix := run[..n];
        assert forall i | 0 <= i < n :: prefix[..i] == run[..i];
        forall live, t | prefix != [] ==> prefix[|prefix| - 1].now <= t ensures PromiseAt(prefix, live, t) {
          TailsKeepPromise(prefix, live, t);
        }
      }
    } else {
      var k :| 0 <= k < |run| && DropsTail(After(run[..k]), run[k]);
      var prefix := run[..k + 1];
      assert prefix[..k] == run[..k];
      DroppedTailBreaks(prefix);
    }
  }

  /** Cycles often enough suffice: if a cycle runs between a window's end and any cancel or
      block, no tail is dropped. */
  lemma FreshCyclesSuffice(s: State, now: real, step: Step)
    requires now == step.now
    ensures !DropsTail(Expired(s, now), step)
  {
  }

  /** The documented promise fails for a cancel one minute late. */
  lemma LateCancelForgetsBoost()
    ensures var run := [Step(0.0, Boost(Space, true)), Step(2.02, Boost(Space, false))];
            Monotone(run) && LiveAt(run, 1.9) && !Frozen(After(run), 2.02)
  {
    var run := [Step(0.0, Boost(Space, true)), Step(2.02, Boost(Space, false))];
    assert run[..1] == [run[0]] && run[..1][..0] == [] && run[..0] == [];
    assert After(run[..1]) == Boosted(OFF, Space, true, 0.0);
  }

  /** A cycle shortens a running tail exactly when it expires a space window that ended
      earlier than that tail began: the global mode's tail can be lost this way. */
  lemma TailShortenedIff(s: State, now: real)
    requires s.settle.Some?
    ensures Expired(s, now).settle.Some?
    ensures Expired(s, now).settle.value < s.settle.value
            <==> Space in s.until && s.until[Space] <= now && s.until[Space] < s.settle.value - SETTLE_TAIL
  {
  }

  // ----- the tail of a left boost mode -----------------------------------------------------------

  /** A run in which the global boost mode is left after `before`. */
  function LeftMode(before: seq<Step>, tau: real, later: seq<Step>): seq<Step> {
    before + [Step(tau, ModeEnded)] + later
  }

  /** The promise of a left boost mode after a run: frozen for twelve hours from then. */
  ghost predicate ModeTailKept(run: seq<Step>, tau: real) {
    forall t :: (run != [] ==> run[|run| - 1].now <= t) && t < tau + SETTLE_TAIL ==> Frozen(After(run), t)
  }

  /** A cycle, inside those twelve hours, that expires a space window which ended before
      the mode was left: its tail is anchored to that earlier end. */
  predicate CutsModeTail(s: State, step: Step, tau: real) {
    step.event.Expire? && Space in s.until && s.until[Space] <= step.now && s.until[Space] < tau
    && step.now < tau + SETTLE_TAIL
  }

  predicate ModeTailUncut(before: seq<Step>, tau: real, later: seq<Step>) {
    forall k | 0 <= k < |later| :: !CutsModeTail(After(LeftMode(before, tau, later[..k])), later[k], tau)
  }

  /** The tail itself, or the end of its twelve hours. */
  predicate TailStands(s: State, tau: real, now: real) {
    (s.settle.Some? && s.settle.value >= tau + SETTLE_TAIL) || now >= tau + SETTLE_TAIL
  }

  lemma TailStandsStep(s: State, step: Step, tau: real, before: real)
    requires TailStands(s, tau, before) && tau <= before <= step.now && !CutsModeTail(s, step, tau)
    ensures TailStands(Next(s, step), tau, step.now)
  {
    if step.event.Expire? && s.settle.Some? && Expired(s, step.now).settle.Some? {
      TailShortenedIff(s, step.now);
    }
  }

  lemma LastOfLeftMode(before: seq<Step>, tau: real, later: seq<Step>)
    requires Monotone(LeftMode(before, tau, later)) && later != []
    ensures var run, k := LeftMode(before, tau, later), |later| - 1;
            && run[..|run| - 1] == LeftMode(before, tau, later[..k]) && run[|run| - 1] == later[k]
            && Monotone(LeftMode(before, tau, later[..k]))
            && tau <= LeftMode(before, tau, later[..k])[|run| - 2].now <= later[k].now
  {
    var run, k := LeftMode(before, tau, later), |later| - 1;
    assert later == later[..k] + [later[k]];
    assert run[..|run| - 1] == LeftMode(before, tau, later[..k]);
    assert run[|before|] == Step(tau, ModeEnded);
    assert run[|before|].now <= run[|run| - 2].now <= run[|run| - 1].now;
  }

  lemma {:induction false} UncutTailStands(before: seq<Step>, tau: real, later: seq<Step>)
    requires Monotone(LeftMode(before, tau, later)) && ModeTailUncut(before, tau, later)
    ensures var run := LeftMode(before, tau, later);
            TailStands(After(run), tau, run[|run| - 1].now)
    decreases |later|
  {
    hide Next, CutsModeTail, TailStands, Monotone;
    if later == [] {
      TailStarts(before, tau);
      assert LeftMode(before, tau, []) == before + [Step(tau, ModeEnded)];
    } else {
      var k := |later| - 1;
      LastOfLeftMode(before, tau, later);
      assert forall i | 0 <= i < k :: later[..k][..i] == later[..i];
      UncutTailStands(before, tau, later[..k]);
      var shorter := LeftMode(before, tau, later[..k]);
      TailStandsStep(After(shorter), later[k], tau, shorter[|shorter| - 1].now);
    }
  }

  lemma TailStarts(before: seq<Step>, tau: real)
    ensures TailStands(After(before + [Step(tau, ModeEnded)]), tau, tau)
  {
    assert (before + [Step(tau, ModeEnded)])[..|before|] == before;
  }

  lemma CutTailForgets(run: seq<Step>, tau: real)
    requires run != [] && CutsModeTail(After(run[..|run| - 1]), run[|run| - 1], tau)
    ensures !ModeTailKept(run, tau)
  {
    var s, now := After(run[..|run| - 1]), run[|run| - 1].now;
    var end := s.until[Space] + SETTLE_TAIL;
    var t := if end > now then end else now;
    assert After(run) == Expired(s, now);
    assert !Frozen(After(run), t);
  }

  /** Exactly when leaving the global boost mode freezes the learners for its twelve hours:
      after every later step of a monotone run they are frozen up to `tau + 12`, whatever
      other tails begin meanwhile, if and only if no cycle in that time expires a space
      window that ended before the mode was left. */
  lemma ModeTailIff(before: seq<Step>, tau: real, later: seq<Step>)
    requires Monotone(LeftMode(before, tau, later))
    ensures (forall n | 0 <= n <= |later| :: ModeTailKept(LeftMode(before, tau, later[..n]), tau))
       <==> ModeTailUncut(before, tau, later)
  {
    hide After, CutsModeTail, Frozen, Monotone;
    if ModeTailUncut(before, tau, later) {
      forall n | 0 <= n <= |later| ensures ModeTailKept(LeftMode(before, tau, later[..n]), tau) {
        assert forall i | 0 <= i < n :: later[..n][..i] == later[..i];
        MonotonePrefix(before, tau, later, n);
        UncutTailStands(before, tau, later[..n]);
        StandingTailKept(LeftMode(before, tau, later[..n]), tau);
      }
    } else {
      var k :| 0 <= k < |later| && CutsModeTail(After(LeftMode(before, tau, later[..k])), later[k], tau);
      MonotonePrefix(before, tau, later, k + 1);
      LastOfLeftMode(before, tau, later[..k + 1]);
      assert later[..k + 1][..k] == later[..k];
      CutTailForgets(LeftMode(before, tau, later[..k + 1]), tau);
    }
  }

  lemma MonotonePrefix(before: seq<Step>, tau: real, later: seq<Step>, n: nat)
    requires n <= |later| && Monotone(LeftMode(before, tau, later))
    ensures Monotone(LeftMode(before, tau, later[..n]))
  {
    var run, prefix := LeftMode(before, tau, later), LeftMode(before, tau, later[..n]);
    assert forall i | 0 <= i < |prefix| :: prefix[i] == run[i];
  }

  lemma StandingTailKept(run: seq<Step>, tau: real)
    requires run != [] && TailStands(After(run), tau, run[|run| - 1].now)
    ensures ModeTailKept(run, tau)
  {
    hide After;
  }

  /** A boost whose window ended five minutes before the mode was left, and a cycle just
      after: the learners thaw two minutes before the mode's twelve hours are over. */
  lemma CycleCutsModeTail()
    ensures var before := [Step(0.0, Boost(Space, true))];
            var later := [Step(2.1, Expire)];
            && Monotone(LeftMode(before, 2.08, later))
            && After(LeftMode(before, 2.08, later)).settle == Some(14.0)
            && !Frozen(After(LeftMode(before, 2.08, later)), 14.05) && 14.05 < 2.08 + SETTLE_TAIL
  {
    var b, m, e := Step(0.0, Boost(Space, true)), Step(2.08, ModeEnded), Step(2.1, Expire);
    var run := LeftMode([b], 2.08, [e]);
    assert run == [b, m, e] && run[..2] == [b, m] && [b, m][..1] == [b] && [b][..0] == [];
    assert After([b]) == Boosted(OFF, Space, true, 0.0);
    assert After([b, m]) == Next(After([b]), m);
    assert After(run) == Expired(After([b, m]), 2.1);
  }

  // ----- the object -------------------------------------------------------------------------

  class BoostState {
    var until: map<Channel, real>
    var blocked: map<Channel, real>
    var settle: Option<real>

    function View(): State
      reads this
    {
      State(until, blocked, settle)
    }

    constructor ()
      ensures View() == OFF
    {
      until, blocked, settle := map[], map[], None;
    }

    /** Drops ended windows, starts the tail a space boost leaves, and holds the rest to
        two hours from now. */
    method Expire(now: real)
      modifies this
      ensures View() == Expired(old(View()), now)
      ensures forall c :: c in until <==> c in old(until) && old(until)[c] > now
      ensures forall c :: c in blocked <==> c in old(blocked) && old(blocked)[c] > now
      ensures forall c | c in until :: until[c] == if old(until)[c] > now + 2.0 then now + 2.0 else old(until)[c]
      ensures forall c | c in blocked :: blocked[c] == if old(blocked)[c] > now + 2.0 then now + 2.0 else old(blocked)[c]
      ensures settle == if Space in old(until) && old(until)[Space] <= now then Some(old(until)[Space] + 12.0)
                        else old(settle)
    {
      var left := until.Keys;
      while left != {}
        invariant left <= until.Keys && blocked == old(blocked)
        invariant forall c | c in left :: c in old(until) && until[c] == old(until)[c]
        invariant forall c | c !in left :: c in until <==> Active(old(View()), c, now)
        invariant forall c | c in until && c !in left :: until[c] == Held(old(until)[c], now)
        invariant settle == if Space in left then old(settle) else Expired(old(View()), now).settle
      {
        var c :| c in left;
        left := left - {c};
        var end := until[c];
        if end <= now {
          until := until - {c};
          if c == Space { settle := Some(end + SETTLE_TAIL); }
        } else if end > now + LEAD {
          until := until[c := now + LEAD];
        }
      }
      assert until == Expired(old(View()), now).until;
      blocked := ExpireBlocks(blocked, now);
    }

    static method ExpireBlocks(blocks: map<Channel, real>, now: real) returns (slots: map<Channel, real>)
      ensures slots == map c | c in blocks && blocks[c] > now :: Held(blocks[c], now)
    {
      slots := blocks;
      var left := blocks.Keys;
      while left != {}
        invariant left <= slots.Keys
        invariant forall c | c in left :: c in blocks && slots[c] == blocks[c]
        invariant forall c | c !in left :: c in slots <==> c in blocks && blocks[c] > now
        invariant forall c | c in slots && c !in left :: slots[c] == Held(blocks[c], now)
      {
        var c :| c in left;
        left := left - {c};
        var end := slots[c];
        if end <= now {
          slots := slots - {c};
        } else if end > now + LEAD {
          slots := slots[c := now + LEAD];
        }
      }
    }

    /** The switches: a boost press clears the channel's block, a block press its boost, and
        ending a live space boost starts the tail. */
    method Set(c: Channel, on: bool, now: real, block: bool)
      modifies this
      ensures View() == if block then Blocked(old(View()), c, on, now) else Boosted(old(View()), c, on, now)
      ensures block ==> until == (if on then old(until) - {c} else old(until))
      ensures block ==> blocked == if on then old(blocked)[c := now + 2.0] else old(blocked) - {c}
      ensures !block ==> until == if on then old(until)[c := now + 2.0] else old(until) - {c}
      ensures !block ==> blocked == (if on then old(blocked) - {c} else old(blocked))
      ensures var live := Space in old(until) && old(until)[Space] > now;
              settle == if c == Space && live && on == block then Some(now + 12.0) else old(settle)
    {
      if block {
        SetBlocked(c, on, now);
        return;
      }
      if on {
        blocked := blocked - {c};
        until := until[c := now + LEAD];
      } else {
        var wasLive := c in until && until[c] > now;
        until := until - {c};
        if c == Space && wasLive { settle := Some(now + SETTLE_TAIL); }
      }
    }

    method SetBlocked(c: Channel, on: bool, now: real)
      modifies this
      ensures View() == Blocked(old(View()), c, on, now)
      ensures until == (if on then old(until) - {c} else old(until))
      ensures blocked == if on then old(blocked)[c := now + 2.0] else old(blocked) - {c}
      ensures settle == if c == Space && on && Space in old(until) && old(until)[Space] > now then Some(now + 12.0)
                        else old(settle)
    {
      if on {
        if c == Space && c in until && until[c] > now { settle := Some(now + SETTLE_TAIL); }
        until := until - {c};
        blocked := blocked[c := now + LEAD];
      } else {
        blocked := blocked - {c};
      }
    }
  }
}
