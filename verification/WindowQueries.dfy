/** Questions asked of canonical windows: membership, covered share, time to the
    next opening (dhw_schedule.py) and the window's label (dhw_draws.py). */
module WindowQueries {
  import opened Options
  import opened Text
  import opened Windows
  import opened WindowGrammar
  import opened GrammarRoundTrip

  /** Whether an hour of the day, taken modulo 24 hours, falls inside any window. */
  predicate HourInWindows(hour: int, ws: seq<Window>) {
    var h := hour % DAY;
    exists i :: 0 <= i < |ws| && (ws[i].start <= h < ws[i].end || (ws[i].end >= DAY && h >= ws[i].start))
  }

  /** On canonical windows the 24:00 guard of the code changes nothing. */
  lemma HourIsCovered(hour: int, ws: seq<Window>)
    requires IsNormal(ws)
    ensures HourInWindows(hour, ws) <==> Covers(ws, hour % DAY)
  {
    var h := hour % DAY;
    if i :| 0 <= i < |ws| && (ws[i].start <= h < ws[i].end || (ws[i].end >= DAY && h >= ws[i].start)) {
      assert ws[i].start <= h < ws[i].end;
    }
  }

  // ----- covered share ------------------------------------------------------------------

  /** How many of the `n` minutes from `from` on the windows admit. */
  function AdmittedMinutes(from: int, n: nat, ws: seq<Window>): nat {
    if n == 0 then 0
    else AdmittedMinutes(from, n - 1, ws) + if HourInWindows(from + (n - 1), ws) then 1 else 0
  }

  /** The covered minutes of one stretch of the day. */
  function CoveredIn(ws: seq<Window>, a: int, b: int): nat
    decreases b - a
  {
    if b <= a then 0 else CoveredIn(ws, a, b - 1) + if Covers(ws, b - 1) then 1 else 0
  }

  function Overlap(w: Window, a: int, b: int): int {
    Max(0, Min(b, w.end) - Max(a, w.start))
  }

  function Overlaps(ws: seq<Window>, a: int, b: int): int {
    if ws == [] then 0 else Overlaps(ws[..|ws| - 1], a, b) + Overlap(ws[|ws| - 1], a, b)
  }

  predicate Holds(w: Window, m: int) { w.start <= m < w.end }

  lemma OneMinuteMore(w: Window, a: int, b: int)
    requires a <= b && w.start < w.end
    ensures Overlap(w, a, b + 1) == Overlap(w, a, b) + if Holds(w, b) then 1 else 0
  {
  }

  /** The last window of a canonical list, set apart from the others. */
  lemma LastApart(ws: seq<Window>, m: int)
    requires IsNormal(ws) && ws != []
    ensures var init, w := ws[..|ws| - 1], ws[|ws| - 1];
            && IsNormal(init) && w.start < w.end
            && (Covers(ws, m) <==> Covers(init, m) || Holds(w, m)) && !(Covers(init, m) && Holds(w, m))
  {
    var init, w := ws[..|ws| - 1], ws[|ws| - 1];
    assert ws == init + [w];
    ConcatCovers(init, [w], m);
    SingleCovers(w, m);
  }

  lemma {:induction false} OverlapStep(ws: seq<Window>, a: int, b: int)
    requires IsNormal(ws) && a <= b
    ensures Overlaps(ws, a, b + 1) == Overlaps(ws, a, b) + if Covers(ws, b) then 1 else 0
  {
    hide IsNormal, Overlap, Holds;
    if ws != [] {
      LastApart(ws, b);
      OverlapStep(ws[..|ws| - 1], a, b);
      OneMinuteMore(ws[|ws| - 1], a, b);
    } else {
      NothingCovered(b);
    }
  }

  lemma NothingCovered(m: int)
    ensures !Covers([], m)
  {
  }

  lemma {:induction false} OverlapsNothing(ws: seq<Window>, a: int)
    requires IsNormal(ws)
    ensures Overlaps(ws, a, a) == 0
  {
    if ws != [] {
      OverlapsNothing(ws[..|ws| - 1], a);
    }
  }

  /** Summed overlaps of disjoint windows count each covered minute once. */
  lemma {:induction false} OverlapsCount(ws: seq<Window>, a: int, b: int)
    requires IsNormal(ws) && a <= b
    ensures Overlaps(ws, a, b) == CoveredIn(ws, a, b)
    decreases b - a
  {
    if a == b {
      OverlapsNothing(ws, a);
    } else {
      OverlapsCount(ws, a, b - 1);
      OverlapStep(ws, a, b - 1);
    }
  }

  /** A stretch that does not cross midnight, counted on the clock. */
  lemma {:induction false} AdmittedIsCovered(from: int, n: nat, ws: seq<Window>)
    requires IsNormal(ws) && from % DAY + n <= DAY
    ensures AdmittedMinutes(from, n, ws) == CoveredIn(ws, from % DAY, from % DAY + n)
    decreases n
  {
    if n > 0 {
      AdmittedIsCovered(from, n - 1, ws);
      HourIsCovered(from + (n - 1), ws);
      ClockAdd(from, n - 1);
    }
  }

  lemma ClockAdd(from: int, k: nat)
    requires from % DAY + k < DAY
    ensures (from + k) % DAY == from % DAY + k
  {
  }

  lemma {:induction false} AdmittedSplit(from: int, n: nat, k: nat, ws: seq<Window>)
    ensures AdmittedMinutes(from, n + k, ws) == AdmittedMinutes(from, n, ws) + AdmittedMinutes(from + n, k, ws)
    decreases k
  {
    if k > 0 {
      AdmittedSplit(from, n, k - 1, ws);
      assert from + (n + k - 1) == from + n + (k - 1);
    }
  }

  lemma {:induction false} AdmittedBound(from: int, n: nat, ws: seq<Window>)
    ensures AdmittedMinutes(from, n, ws) <= n
  {
    if n > 0 { AdmittedBound(from, n - 1, ws); }
  }

  /** The stretches of the day an interval of at most 24 hours is walked in. */
  function Stretches(start: int, remaining: nat): seq<(int, int)>
    requires 0 <= start < DAY
    decreases remaining
  {
    if remaining == 0 then []
    else
      var end := Min(start + remaining, DAY);
      [(start, end)] + Stretches(0, remaining - (end - start))
  }

  function SumOverlaps(stretches: seq<(int, int)>, ws: seq<Window>): int {
    if stretches == [] then 0
    else SumOverlaps(stretches[..|stretches| - 1], ws)
         + Overlaps(ws, stretches[|stretches| - 1].0, stretches[|stretches| - 1].1)
  }

  lemma OneStretch(h: int, n: nat)
    requires 0 <= h < DAY && 0 < n <= DAY - h
    ensures Stretches(h, n) == [(h, h + n)]
  {
    assert Stretches(0, 0) == [];
  }

  lemma TwoStretches(h: int, n: nat)
    requires 0 <= h < DAY && DAY - h < n <= DAY
    ensures Stretches(h, n) == [(h, DAY)] + [(0, n - (DAY - h))]
  {
    OneStretch(0, n - (DAY - h));
  }

  lemma SumOfOne(a: int, b: int, ws: seq<Window>)
    ensures SumOverlaps([(a, b)], ws) == Overlaps(ws, a, b)
  {
    var one := [(a, b)];
    assert one[..0] == [] && SumOverlaps([], ws) == 0;
  }

  lemma SumOfTwo(a: int, b: int, c: int, d: int, ws: seq<Window>)
    ensures SumOverlaps([(a, b)] + [(c, d)], ws) == Overlaps(ws, a, b) + Overlaps(ws, c, d)
  {
    var two := [(a, b)] + [(c, d)];
    assert two[..1] == [(a, b)] && two[1] == (c, d);
    SumOfOne(a, b, ws);
  }

  lemma StretchesCount(from: int, n: nat, ws: seq<Window>)
    requires IsNormal(ws) && n <= DAY
    ensures SumOverlaps(Stretches(from % DAY, n), ws) == AdmittedMinutes(from, n, ws)
  {
    hide Overlaps, CoveredIn, IsNormal;
    var h := from % DAY;
    if n == 0 {
    } else if n <= DAY - h {
      OneStretch(h, n);
      SumOfOne(h, h + n, ws);
      AdmittedIsCovered(from, n, ws);
      OverlapsCount(ws, h, h + n);
    } else {
      var first := DAY - h;
      hide AdmittedMinutes, SumOverlaps, Stretches;
      TwoStretches(h, n);
      SumOfTwo(h, DAY, 0, n - first, ws);
      AdmittedSplit(from, first, n - first, ws);
      AdmittedIsCovered(from, first, ws);
      OverlapsCount(ws, h, DAY);
      MidnightAfter(from, first);
      AdmittedIsCovered(from + first, n - first, ws);
      OverlapsCount(ws, 0, n - first);
    }
  }

  lemma MidnightAfter(from: int, k: int)
    requires k == DAY - from % DAY
    ensures (from + k) % DAY == 0
  {
  }

  /** The share of an interval the windows cover. On canonical windows it is the
      number of admitted minutes in the interval's first 24 hours over the
      interval's length, so the closing clamp never binds. */
  method OverlapFraction(hourStart: int, hourEnd: int, ws: seq<Window>) returns (share: real)
    ensures 0.0 <= share <= 1.0
    ensures ws == [] || hourEnd <= hourStart ==> share == 0.0
    ensures IsNormal(ws) && hourEnd > hourStart ==>
              share * (hourEnd - hourStart) as real
              == AdmittedMinutes(hourStart, Min(hourEnd - hourStart, DAY), ws) as real
  {
    hide IsNormal, AdmittedMinutes;
    var length := hourEnd - hourStart;
    if ws == [] {
      if length > 0 { NoneAdmitted(hourStart, Min(length, DAY)); }
      return 0.0;
    }
    if length <= 0 {
      return 0.0;
    }
    var covered := CoveredMinutes(hourStart, length, ws);
    if IsNormal(ws) {
      ShareInBounds(covered, length);
    }
    hide ClampUnit;
    share := ClampUnit(covered as real / length as real);
  }

  method CoveredMinutes(hourStart: int, length: int, ws: seq<Window>) returns (covered: int)
    requires length > 0
    ensures IsNormal(ws) ==> covered == AdmittedMinutes(hourStart, Min(length, DAY), ws) && 0 <= covered <= length
  {
    var segments := Walk(hourStart % DAY, Min(length, DAY));
    covered := AddOverlaps(segments, ws);
    if IsNormal(ws) {
      StretchesCount(hourStart, Min(length, DAY), ws);
      AdmittedBound(hourStart, Min(length, DAY), ws);
    }
  }

  function ClampUnit(x: real): (r: real)
    ensures 0.0 <= r <= 1.0
  {
    if x < 0.0 then 0.0 else if x > 1.0 then 1.0 else x
  }

  /** The interval in 24-hour-normalised segments. */
  method Walk(hour: int, length: nat) returns (segments: seq<(int, int)>)
    requires 0 <= hour < DAY
    ensures segments == Stretches(hour, length)
  {
    segments := [];
    var start, remaining := hour, length;
    while remaining > 0
      invariant 0 <= start < DAY && 0 <= remaining
      invariant segments + Stretches(start, remaining) == Stretches(hour, length)
      decreases remaining
    {
      var end := Min(start + remaining, DAY);
      assert Stretches(start, remaining) == [(start, end)] + Stretches(0, remaining - (end - start));
      segments := segments + [(start, end)];
      remaining := remaining - (end - start);
      start := 0;
    }
  }

  lemma ShareInBounds(covered: int, length: int)
    requires 0 <= covered <= length && length > 0
    ensures ClampUnit(covered as real / length as real) * length as real == covered as real
  {
  }

  lemma {:induction false} NoneAdmitted(from: int, n: nat)
    ensures AdmittedMinutes(from, n, []) == 0
  {
    if n > 0 { NoneAdmitted(from, n - 1); }
  }

  method AddOverlaps(segments: seq<(int, int)>, ws: seq<Window>) returns (covered: int)
    ensures covered == SumOverlaps(segments, ws)
  {
    covered := 0;
    for i := 0 to |segments|
      invariant covered == SumOverlaps(segments[..i], ws)
    {
      assert segments[..i + 1][..i] == segments[..i];
      var a, b := segments[i].0, segments[i].1;
      for j := 0 to |ws|
        invariant covered == SumOverlaps(segments[..i], ws) + Overlaps(ws[..j], a, b)
      {
        assert ws[..j + 1][..j] == ws[..j];
        covered := covered + Max(0, Min(b, ws[j].end) - Max(a, ws[j].start));
      }
      assert ws[..|ws|] == ws;
    }
    assert segments[..|segments|] == segments;
  }

  // ----- time to the next opening -----------------------------------------------------

  /** The wait from an hour of the day to a window's start. */
  function Wait(hour: int, w: Window): int { (w.start - hour % DAY) % DAY }

  lemma WaitIs(hour: int, w: Window)
    requires 0 <= w.start < DAY
    ensures 0 <= Wait(hour, w) < DAY
    ensures Wait(hour, w) == if w.start >= hour % DAY then w.start - hour % DAY else w.start - hour % DAY + DAY
  {
  }

  lemma ClockWrap(from: int, k: nat)
    requires DAY <= from % DAY + k < 2 * DAY
    ensures (from + k) % DAY == from % DAY + k - DAY
  {
  }

  /** A window the clock is outside of admits nothing until the wait is over, and
      its start then. */
  lemma WaitBlocks(hour: int, w: Window, t: int)
    requires 0 <= w.start < w.end <= DAY && !(w.start <= hour % DAY < w.end)
    requires hour <= t <= hour + Wait(hour, w)
    ensures t < hour + Wait(hour, w) ==> !(w.start <= t % DAY < w.end)
    ensures t == hour + Wait(hour, w) ==> t % DAY == w.start
  {
    WaitIs(hour, w);
    var k := t - hour;
    if hour % DAY + k < DAY { ClockAdd(hour, k); } else { ClockWrap(hour, k); }
  }

  /** Minutes until the windows next admit the clock: the first hitting time. */
  method MinutesUntilNextWindow(hour: int, ws: seq<Window>) returns (wait: Option<int>)
    ensures wait.None? <==> ws == []
    ensures IsNormal(ws) && wait.Some? ==>
              && 0 <= wait.value < DAY
              && HourInWindows(hour + wait.value, ws)
              && forall t | hour <= t < hour + wait.value :: !HourInWindows(t, ws)
  {
    if ws == [] {
      return None;
    }
    if HourInWindows(hour, ws) {
      return Some(0);
    }
    var best, arg := ShortestWait(hour, ws);
    if IsNormal(ws) {
      FirstOpening(hour, ws, best, arg);
    }
    return Some(best);
  }

  method ShortestWait(hour: int, ws: seq<Window>) returns (best: int, ghost arg: nat)
    requires ws != []
    ensures arg < |ws| && best == Wait(hour, ws[arg])
    ensures forall j | 0 <= j < |ws| :: best <= Wait(hour, ws[j])
  {
    hide Wait;
    best, arg := Wait(hour, ws[0]), 0;
    for i := 1 to |ws|
      invariant arg < |ws| && best == Wait(hour, ws[arg])
      invariant forall j | 0 <= j < i :: best <= Wait(hour, ws[j])
    {
      var delta := Wait(hour, ws[i]);
      if delta < best {
        best, arg := delta, i;
      }
    }
  }

  lemma FirstOpening(hour: int, ws: seq<Window>, best: int, arg: int)
    requires IsNormal(ws) && 0 <= arg < |ws| && !HourInWindows(hour, ws)
    requires best == Wait(hour, ws[arg]) && forall j | 0 <= j < |ws| :: best <= Wait(hour, ws[j])
    ensures 0 <= best < DAY && HourInWindows(hour + best, ws)
    ensures forall t | hour <= t < hour + best :: !HourInWindows(t, ws)
  {
    WaitIs(hour, ws[arg]);
    HourIsCovered(hour, ws);
    WaitBlocks(hour, ws[arg], hour + best);
    HourIsCovered(hour + best, ws);
    forall t | hour <= t < hour + best ensures !HourInWindows(t, ws) {
      HourIsCovered(t, ws);
      forall i | 0 <= i < |ws| ensures !(ws[i].start <= t % DAY < ws[i].end) {
        WaitBlocks(hour, ws[i], t);
      }
    }
  }

  // ----- labels ---------------------------------------------------------------------------

  predicate InWindow(hour: int, w: Window) {
    if w.end > w.start then w.start <= hour < w.end else hour >= w.start || hour < w.end
  }

  /** The label of the first window an hour falls in, or the empty text. */
  function WindowLabel(hour: int, ws: seq<Window>): string {
    if ws == [] then []
    else if InWindow(hour, ws[0]) then FormatWindow(ws[0])
    else WindowLabel(hour, ws[1..])
  }

  lemma {:induction false} LabelNames(hour: int, ws: seq<Window>)
    requires AllInDay(ws)
    ensures WindowLabel(hour, ws) != [] <==> SomeWrittenCovers(ws, hour)
    ensures WindowLabel(hour, ws) != [] ==>
              exists i :: 0 <= i < |ws| && InWindow(hour, ws[i]) && WindowLabel(hour, ws) == FormatWindow(ws[i])
  {
    hide FormatWindow;
    if ws != [] {
      RangeText(ws[0]);
      assert WrittenCovers(ws[0], hour) <==> InWindow(hour, ws[0]);
      assert forall w | w in ws[1..] :: w in ws;
      LabelNames(hour, ws[1..]);
      if SomeWrittenCovers(ws, hour) && !InWindow(hour, ws[0]) {
        var i :| 0 <= i < |ws| && WrittenCovers(ws[i], hour);
        assert WrittenCovers(ws[1..][i - 1], hour);
      }
      if i :| 0 <= i < |ws[1..]| && WrittenCovers(ws[1..][i], hour) {
        assert WrittenCovers(ws[i + 1], hour);
      }
      if !InWindow(hour, ws[0]) && WindowLabel(hour, ws) != [] {
        var i :| 0 <= i < |ws[1..]| && InWindow(hour, ws[1..][i])
                 && WindowLabel(hour, ws[1..]) == FormatWindow(ws[1..][i]);
        assert InWindow(hour, ws[i + 1]);
      }
    }
  }

  /** A window's label determines the window. */
  lemma LabelsDistinguish(v: Window, w: Window)
    requires InDay(v) && InDay(w) && v.start < v.end && w.start < w.end
    requires FormatWindow(v) == FormatWindow(w)
    ensures v == w
  {
    BareRangeRoundTrip(v);
    BareRangeRoundTrip(w);
    hide FormatWindow, ParseOneRange, TakeSelector, Dashes;
  }

  lemma OnlyWindow(hour: int, ws: seq<Window>, i: int, j: int)
    requires IsNormal(ws) && 0 <= i < |ws| && 0 <= j < |ws|
    requires InWindow(hour, ws[i]) && InWindow(hour, ws[j])
    ensures i == j
  {
  }

  lemma NormalWritten(ws: seq<Window>, hour: int)
    requires IsNormal(ws)
    ensures AllInDay(ws) && (SomeWrittenCovers(ws, hour) <==> Covers(ws, hour))
  {
    assert forall i | 0 <= i < |ws| :: WrittenCovers(ws[i], hour) <==> ws[i].start <= hour < ws[i].end;
  }

  /** Two hours share a window of the list. */
  ghost predicate SameWindow(hour: int, other: int, ws: seq<Window>) {
    exists i :: 0 <= i < |ws| && InWindow(hour, ws[i]) && InWindow(other, ws[i])
  }

  /** On canonical windows an hour has a label exactly when it is admitted. */
  lemma LabelIffAdmitted(hour: int, ws: seq<Window>)
    requires IsNormal(ws) && 0 <= hour < DAY
    ensures WindowLabel(hour, ws) != [] <==> HourInWindows(hour, ws)
  {
    hide FormatWindow, WindowLabel;
    NormalWritten(ws, hour);
    LabelNames(hour, ws);
    HourIsCovered(hour, ws);
  }

  /** Two hours share a label exactly when they fall in the same window. */
  lemma LabelIffSameWindow(hour: int, other: int, ws: seq<Window>)
    requires IsNormal(ws) && WindowLabel(hour, ws) != []
    ensures WindowLabel(hour, ws) == WindowLabel(other, ws) <==> SameWindow(hour, other, ws)
  {
    hide FormatWindow, WindowLabel;
    NormalWritten(ws, hour);
    NormalWritten(ws, other);
    LabelNames(hour, ws);
    LabelNames(other, ws);
    var i :| 0 <= i < |ws| && InWindow(hour, ws[i]) && WindowLabel(hour, ws) == FormatWindow(ws[i]);
    if WindowLabel(hour, ws) == WindowLabel(other, ws) {
      var j :| 0 <= j < |ws| && InWindow(other, ws[j]) && WindowLabel(other, ws) == FormatWindow(ws[j]);
      LabelsDistinguish(ws[i], ws[j]);
    }
    if SameWindow(hour, other, ws) {
      var k :| 0 <= k < |ws| && InWindow(hour, ws[k]) && InWindow(other, ws[k]);
      OnlyWindow(hour, ws, i, k);
      assert WrittenCovers(ws[k], other);
      var j :| 0 <= j < |ws| && InWindow(other, ws[j]) && WindowLabel(other, ws) == FormatWindow(ws[j]);
      OnlyWindow(other, ws, j, k);
    }
  }
}
