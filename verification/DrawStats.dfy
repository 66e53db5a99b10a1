/** The hot-water draw statistics of dhw_draws.py: ticks folded one at a time into
    per-window reservoirs, against the grouping of a whole tick sequence into its maximal
    runs. The four-digit rounding of a total is a parameter. */
module DrawStats {
  import opened Options
  import opened Reals

  const MAX_EVENTS: nat := 40

  /** A tick on calendar day `date`; the empty window is outside every window. */
  datatype Tick = Tick(window: string, date: int, kwh: real)

  predicate SameOccurrence(a: Tick, b: Tick) { a.window == b.window && a.date == b.date }

  function LastEvents(s: seq<real>): seq<real> { if |s| <= MAX_EVENTS then s else s[|s| - MAX_EVENTS..] }

  function Energy(ticks: seq<Tick>): real {
    if ticks == [] then 0.0 else Energy(ticks[..|ticks| - 1]) + AtLeastZero(ticks[|ticks| - 1].kwh)
  }

  // ----- the grouping of a whole sequence ---------------------------------------------------------

  /** Where the maximal run of one occurrence that holds tick `i` ends. */
  function RunEnd(ticks: seq<Tick>, i: nat): (j: nat)
    requires i < |ticks|
    ensures i < j <= |ticks|
    ensures forall k | i <= k < j :: SameOccurrence(ticks[i], ticks[k])
    ensures j < |ticks| ==> !SameOccurrence(ticks[j - 1], ticks[j])
    decreases |ticks| - i
  {
    if i + 1 == |ticks| || !SameOccurrence(ticks[i], ticks[i + 1]) then i + 1 else RunEnd(ticks, i + 1)
  }

  /** One run's rounded total, if it is an occurrence of the window. */
  function TotalOf(ticks: seq<Tick>, i: nat, j: nat, window: string, round4: real -> real): seq<real>
    requires i < j <= |ticks|
  {
    if ticks[i].window == window then [round4(Energy(ticks[i..j]))] else []
  }

  /** The rounded totals of the runs of `window` from tick `i` on that another run follows. */
  function ClosedTotals(ticks: seq<Tick>, i: nat, window: string, round4: real -> real): seq<real>
    requires i <= |ticks|
    decreases |ticks| - i
  {
    if i == |ticks| || RunEnd(ticks, i) == |ticks| then []
    else
      var j := RunEnd(ticks, i);
      TotalOf(ticks, i, j, window, round4) + ClosedTotals(ticks, j, window, round4)
  }

  /** Where the final run starts. */
  function LastStart(ticks: seq<Tick>, i: nat): (k: nat)
    requires i < |ticks|
    ensures i <= k < |ticks| && RunEnd(ticks, k) == |ticks|
    decreases |ticks| - i
  {
    if RunEnd(ticks, i) == |ticks| then i else LastStart(ticks, RunEnd(ticks, i))
  }

  // ----- one more tick --------------------------------------------------------------------------

  /** A run that another one follows is not changed by a further tick; the final one grows
      if the tick belongs to it. */
  lemma {:induction false} RunEndGrows(ticks: seq<Tick>, t: Tick, i: nat)
    requires i < |ticks|
    ensures RunEnd(ticks + [t], i) ==
      if RunEnd(ticks, i) < |ticks| then RunEnd(ticks, i)
      else if SameOccurrence(ticks[|ticks| - 1], t) then |ticks| + 1 else |ticks|
    decreases |ticks| - i
  {
    var more := ticks + [t];
    if i + 1 == |ticks| {
      assert more[i + 1] == t;
    } else {
      RunEndGrows(ticks, t, i + 1);
    }
  }

  /** The grouping after one more tick of the final run: the same runs, the final one
      grown. */
  lemma {:induction false} FinalRunGrows(ticks: seq<Tick>, t: Tick, i: nat, window: string, round4: real -> real)
    requires i < |ticks| && SameOccurrence(ticks[|ticks| - 1], t)
    ensures ClosedTotals(ticks + [t], i, window, round4) == ClosedTotals(ticks, i, window, round4)
    ensures LastStart(ticks + [t], i) == LastStart(ticks, i)
    decreases |ticks| - i
  {
    hide Energy, SameOccurrence, RunEnd;
    var j := RunEnd(ticks, i);
    RunEndGrows(ticks, t, i);
    if j < |ticks| {
      FinalRunGrows(ticks, t, j, window, round4);
      assert (ticks + [t])[i..j] == ticks[i..j];
    }
  }

  /** After a tick of another occurrence the final run is closed and the tick is alone in a
      new one. */
  lemma {:induction false} NewRunStarts(ticks: seq<Tick>, t: Tick, i: nat)
    requires i < |ticks| && !SameOccurrence(ticks[|ticks| - 1], t)
    ensures LastStart(ticks + [t], i) == |ticks|
    decreases |ticks| - i
  {
    hide SameOccurrence, RunEnd;
    RunEndGrows(ticks, t, i);
    if RunEnd(ticks, i) < |ticks| {
      NewRunStarts(ticks, t, RunEnd(ticks, i));
    } else {
      NewestRunIsOpen(ticks + [t], "", x => x);
    }
  }

  lemma {:induction false} FinalRunCloses(ticks: seq<Tick>, t: Tick, i: nat, window: string, round4: real -> real)
    requires i < |ticks| && !SameOccurrence(ticks[|ticks| - 1], t)
    ensures ClosedTotals(ticks + [t], i, window, round4)
            == ClosedTotals(ticks, i, window, round4) + TotalOf(ticks, LastStart(ticks, i), |ticks|, window, round4)
    decreases |ticks| - i
  {
    hide Energy, SameOccurrence, RunEnd;
    var more := ticks + [t];
    var j := RunEnd(ticks, i);
    RunEndGrows(ticks, t, i);
    assert more[i..j] == ticks[i..j];
    if j < |ticks| {
      FinalRunCloses(ticks, t, j, window, round4);
      var head, rest := TotalOf(ticks, i, j, window, round4), ClosedTotals(ticks, j, window, round4);
      var tail := TotalOf(ticks, LastStart(ticks, j), |ticks|, window, round4);
      assert head + (rest + tail) == (head + rest) + tail;
    } else {
      NewestRunIsOpen(more, window, round4);
      assert ClosedTotals(ticks, i, window, round4) == [];
      assert TotalOf(ticks, i, j, window, round4) + [] == [] + TotalOf(ticks, i, j, window, round4);
    }
  }

  lemma NewestRunIsOpen(ticks: seq<Tick>, window: string, round4: real -> real)
    requires ticks != []
    ensures RunEnd(ticks, |ticks| - 1) == |ticks| && LastStart(ticks, |ticks| - 1) == |ticks| - 1
    ensures ClosedTotals(ticks, |ticks| - 1, window, round4) == []
  {
  }

  // ----- folding ---------------------------------------------------------------------------------

  datatype State = State(reservoirs: map<string, seq<real>>, window: string, date: Option<int>, kwh: real)

  const FRESH := State(map[], "", None, 0.0)

  function Reservoir(s: State, window: string): seq<real> {
    if window in s.reservoirs then s.reservoirs[window] else []
  }

  function Closed(s: State, round4: real -> real): State {
    if s.window == "" then s
    else s.(reservoirs := s.reservoirs[s.window := LastEvents(Reservoir(s, s.window) + [round4(s.kwh)])])
  }

  function Folded(s: State, t: Tick, round4: real -> real): State {
    var ready := if s.window == t.window && s.date == Some(t.date) then s
                 else Closed(s, round4).(window := t.window, date := Some(t.date), kwh := 0.0);
    if t.window == "" then ready else ready.(kwh := ready.kwh + AtLeastZero(t.kwh))
  }

  function FoldedAll(ticks: seq<Tick>, round4: real -> real): State {
    if ticks == [] then FRESH else Folded(FoldedAll(ticks[..|ticks| - 1], round4), ticks[|ticks| - 1], round4)
  }

  lemma LastEventsAppend(s: seq<real>, x: real)
    ensures LastEvents(LastEvents(s) + [x]) == LastEvents(s + [x])
  {
  }

  lemma EnergyAppend(ticks: seq<Tick>, t: Tick)
    ensures Energy(ticks + [t]) == Energy(ticks) + AtLeastZero(t.kwh)
  {
    assert (ticks + [t])[..|ticks|] == ticks;
  }

  /** The folded state is the grouping: each window's reservoir is the last forty rounded
      totals of its closed runs, oldest first, quiet runs included, and the final run is
      the one still open. */
  ghost predicate Refines(s: State, ticks: seq<Tick>, round4: real -> real) {
    && "" !in s.reservoirs
    && (ticks == [] ==> s == FRESH)
    && (ticks != [] ==>
      var start := LastStart(ticks, 0);
      && s.window == ticks[start].window && s.date == Some(ticks[start].date)
      && s.kwh == (if s.window == "" then 0.0 else Energy(ticks[start..]))
      && forall window | window != "" :: Reservoir(s, window) == LastEvents(ClosedTotals(ticks, 0, window, round4)))
  }

  lemma FirstTickRefines(t: Tick, round4: real -> real)
    ensures Refines(Folded(FRESH, t, round4), [t], round4)
  {
    var s := Folded(FRESH, t, round4);
    assert LastStart([t], 0) == 0 && [t][0..] == [] + [t];
    EnergyAppend([], t);
    forall window: string ensures Reservoir(s, window) == LastEvents(ClosedTotals([t], 0, window, round4)) {
      NewestRunIsOpen([t], window, round4);
    }
  }

  lemma SameRunGrows(s: State, ticks: seq<Tick>, t: Tick, round4: real -> real)
    requires ticks != [] && Refines(s, ticks, round4) && SameOccurrence(ticks[|ticks| - 1], t)
    ensures Refines(Folded(s, t, round4), ticks + [t], round4)
  {
    hide ClosedTotals, LastEvents, Energy, LastStart, RunEnd;
    var more, start := ticks + [t], LastStart(ticks, 0);
    var n := Folded(s, t, round4);
    FinalRunGrows(ticks, t, 0, "", round4);
    assert SameOccurrence(ticks[start], ticks[|ticks| - 1]);
    assert more[start..] == ticks[start..] + [t];
    EnergyAppend(ticks[start..], t);
    forall window: string | window != "" ensures Reservoir(n, window) == LastEvents(ClosedTotals(more, 0, window, round4)) {
      FinalRunGrows(ticks, t, 0, window, round4);
      assert Reservoir(n, window) == Reservoir(s, window);
    }
  }

  /** Folding a tick of another occurrence, seen on its own: the open run goes into its
      window's reservoir and no other reservoir changes. */
  lemma FoldCloses(s: State, t: Tick, window: string, round4: real -> real)
    requires !(s.window == t.window && s.date == Some(t.date)) && window != ""
    ensures var n := Folded(s, t, round4);
            && n.window == t.window && n.date == Some(t.date)
            && n.kwh == (if t.window == "" then 0.0 else AtLeastZero(t.kwh))
            && ("" !in s.reservoirs ==> "" !in n.reservoirs)
            && Reservoir(n, window)
               == if window == s.window then LastEvents(Reservoir(s, window) + [round4(s.kwh)]) else Reservoir(s, window)
  {
    hide LastEvents;
  }

  lemma ReservoirGrows(closed: seq<real>, more: seq<real>, was: seq<real>, now: seq<real>, mine: bool, total: real)
    requires was == LastEvents(closed) && more == closed + (if mine then [total] else [])
    requires now == if mine then LastEvents(was + [total]) else was
    ensures now == LastEvents(more)
  {
    hide LastEvents;
    if mine { LastEventsAppend(closed, total); } else { assert more == closed; }
  }

  /** One window's reservoir once the final run is closed. */
  lemma NewRunReservoir(s: State, ticks: seq<Tick>, t: Tick, window: string, round4: real -> real)
    requires ticks != [] && Refines(s, ticks, round4) && !SameOccurrence(ticks[|ticks| - 1], t) && window != ""
    ensures Reservoir(Folded(s, t, round4), window) == LastEvents(ClosedTotals(ticks + [t], 0, window, round4))
  {
    hide ClosedTotals, LastEvents, Energy, LastStart, RunEnd, Folded, Reservoir;
    var start := LastStart(ticks, 0);
    assert SameOccurrence(ticks[start], ticks[|ticks| - 1]);
    FinalRunCloses(ticks, t, 0, window, round4);
    FoldCloses(s, t, window, round4);
    assert ticks[start..] == ticks[start..|ticks|];
    ReservoirGrows(ClosedTotals(ticks, 0, window, round4), ClosedTotals(ticks + [t], 0, window, round4),
                   Reservoir(s, window), Reservoir(Folded(s, t, round4), window), window == s.window, round4(s.kwh));
  }

  /** The final run once another one follows. */
  lemma NewRunOpens(s: State, ticks: seq<Tick>, t: Tick, round4: real -> real)
    requires ticks != [] && Refines(s, ticks, round4) && !SameOccurrence(ticks[|ticks| - 1], t)
    ensures var n, more := Folded(s, t, round4), ticks + [t];
            && "" !in n.reservoirs && LastStart(more, 0) == |ticks|
            && n.window == t.window && n.date == Some(t.date)
            && n.kwh == (if n.window == "" then 0.0 else Energy(more[|ticks|..]))
  {
    hide ClosedTotals, LastEvents, Energy, LastStart, RunEnd, Folded, Reservoir;
    NewRunStarts(ticks, t, 0);
    assert SameOccurrence(ticks[LastStart(ticks, 0)], ticks[|ticks| - 1]);
    FoldCloses(s, t, "any", round4);
    assert (ticks + [t])[|ticks|..] == [] + [t];
    EnergyAppend([], t);
    NoEnergy();
  }

  lemma NewRunCloses(s: State, ticks: seq<Tick>, t: Tick, round4: real -> real)
    requires ticks != [] && Refines(s, ticks, round4) && !SameOccurrence(ticks[|ticks| - 1], t)
    ensures Refines(Folded(s, t, round4), ticks + [t], round4)
  {
    hide ClosedTotals, LastEvents, Energy, LastStart, RunEnd, Folded, Reservoir;
    var n, more := Folded(s, t, round4), ticks + [t];
    NewRunOpens(s, ticks, t, round4);
    assert more[|ticks|] == t;
    forall window: string | window != "" ensures Reservoir(n, window) == LastEvents(ClosedTotals(more, 0, window, round4)) {
      NewRunReservoir(s, ticks, t, window, round4);
    }
  }

  lemma NoEnergy()
    ensures Energy([]) == 0.0
  {
  }

  /** Folding tick by tick refines the grouping, for every tick sequence. */
  lemma {:induction false} FoldRefinesGrouping(ticks: seq<Tick>, round4: real -> real)
    ensures Refines(FoldedAll(ticks, round4), ticks, round4)
  {
    hide Refines, Folded;
    if ticks == [] {
      NothingRefines(round4);
    } else {
      var k := |ticks| - 1;
      var before := ticks[..k];
      assert ticks == before + [ticks[k]];
      FoldRefinesGrouping(before, round4);
      if before == [] {
        FirstTickRefines(ticks[k], round4);
      } else if SameOccurrence(before[k - 1], ticks[k]) {
        SameRunGrows(FoldedAll(before, round4), before, ticks[k], round4);
      } else {
        NewRunCloses(FoldedAll(before, round4), before, ticks[k], round4);
      }
    }
  }

  lemma NothingRefines(round4: real -> real)
    ensures Refines(FRESH, [], round4)
  {
  }

  // ----- pruning -----------------------------------------------------------------------------------

  function Pruned(s: State, labels: seq<string>): State {
    s.(reservoirs := map l | l in s.reservoirs && l in labels :: s.reservoirs[l])
  }

  lemma {:induction false} ReservoirsAreOfTicks(ticks: seq<Tick>, labels: seq<string>, round4: real -> real)
    requires forall i | 0 <= i < |ticks| :: ticks[i].window == "" || ticks[i].window in labels
    ensures var s := FoldedAll(ticks, round4);
            (s.window == "" || s.window in labels) && forall l | l in s.reservoirs :: l in labels
  {
    if ticks != [] {
      ReservoirsAreOfTicks(ticks[..|ticks| - 1], labels, round4);
    }
  }

  /** While the configured windows stay what the ticks were labelled by, pruning forgets
      nothing, so the refinement holds for the pruned statistics too. */
  lemma PruneIsInert(ticks: seq<Tick>, labels: seq<string>, round4: real -> real)
    requires forall i | 0 <= i < |ticks| :: ticks[i].window == "" || ticks[i].window in labels
    ensures Pruned(FoldedAll(ticks, round4), labels) == FoldedAll(ticks, round4)
  {
    ReservoirsAreOfTicks(ticks, labels, round4);
    var s := FoldedAll(ticks, round4);
    assert Pruned(s, labels).reservoirs == s.reservoirs;
  }

  /** One more total at the end, and the forty newest kept. */
  predicate Newest(was: seq<real>, total: real, now: seq<real>) {
    && |now| == (if |was| < 40 then |was| + 1 else 40)
    && now[|now| - 1] == total
    && forall i | 0 <= i < |now| - 1 :: now[i] == was[|was| + 1 - |now| + i]
  }

  // ----- the object ---------------------------------------------------------------------------------

  class DrawStats {
    const round4: real -> real
    var reservoirs: map<string, seq<real>>
    var openLabel: string
    var openDate: Option<int>
    var openKwh: real

    function View(): State
      reads this
    {
      State(reservoirs, openLabel, openDate, openKwh)
    }

    constructor (rounding: real -> real)
      ensures View() == FRESH == State(map[], "", None, 0.0) && round4 == rounding
    {
      round4 := rounding;
      reservoirs, openLabel, openDate, openKwh := map[], "", None, 0.0;
    }

    /** Folds one tick; a change of window or date closes the open occurrence first. */
    method Fold(t: Tick)
      modifies this
      ensures View() == Folded(old(View()), t, round4)
    {
      if t.window != openLabel || openDate != Some(t.date) {
        Close();
        openLabel := t.window;
        openDate := Some(t.date);
        openKwh := 0.0;
      }
      if t.window != "" {
        openKwh := openKwh + AtLeastZero(t.kwh);
      }
    }

    method Close()
      modifies this`reservoirs
      ensures View() == Closed(old(View()), round4)
      ensures if openLabel == "" then reservoirs == old(reservoirs)
              else
                && reservoirs.Keys == old(reservoirs).Keys + {openLabel}
                && (forall l | l in old(reservoirs) && l != openLabel :: reservoirs[l] == old(reservoirs)[l])
                && Newest(if openLabel in old(reservoirs) then old(reservoirs)[openLabel] else [],
                          round4(openKwh), reservoirs[openLabel])
    {
      if openLabel == "" { return; }
      var bucket := if openLabel in reservoirs then reservoirs[openLabel] else [];
      bucket := bucket + [round4(openKwh)];
      if |bucket| > MAX_EVENTS { bucket := bucket[|bucket| - MAX_EVENTS..]; }
      reservoirs := reservoirs[openLabel := bucket];
    }

    /** Drops the reservoirs of windows no longer configured. */
    method Prune(labels: seq<string>)
      modifies this`reservoirs
      ensures View() == Pruned(old(View()), labels)
      ensures forall l :: l in reservoirs <==> l in old(reservoirs) && l in labels
      ensures forall l | l in reservoirs :: reservoirs[l] == old(reservoirs)[l]
    {
      var left := reservoirs.Keys;
      while left != {}
        invariant left <= reservoirs.Keys <= old(reservoirs).Keys
        invariant forall l | l in reservoirs :: reservoirs[l] == old(reservoirs)[l]
        invariant forall l | l in old(reservoirs) && l !in left :: l in reservoirs <==> l in labels
      {
        var l :| l in left;
        left := left - {l};
        if l !in labels { reservoirs := reservoirs - {l}; }
      }
      assert reservoirs == Pruned(old(View()), labels).reservoirs;
    }
  }
}
