/** The loops of the grammar's readers and writer, against their specification
    functions, and what the two parsers accept and keep. */
module GrammarParsers {
  import opened Options
  import opened Text
  import opened Windows
  import opened WindowGrammar

  // ----- the loops -----------------------------------------------------------------

  lemma PrependTwice<T>(a: seq<T>, b: seq<T>, tail: Result<seq<T>>)
    ensures Prepend(a, Prepend(b, tail)) == Prepend(a + b, tail)
  {
    if tail.Ok? {
      assert a + (b + tail.value) == (a + b) + tail.value;
    }
  }

  lemma PrependNothing<T>(tail: Result<seq<T>>)
    ensures Prepend([], tail) == tail
  {
    if tail.Ok? {
      assert [] + tail.value == tail.value;
    }
  }

  method Segments(raw: string) returns (r: Result<seq<string>>)
    ensures r == SegmentsOf(raw)
  {
    hide SelectorOnly;
    var segments: seq<string> := [];
    var pending: string := [];
    var chunks := SplitOn(raw, ',');
    assert chunks[0..] == chunks;
    PrependNothing(Assemble(chunks, []));
    for i := 0 to |chunks|
      invariant Prepend(segments, Assemble(chunks[i..], pending)) == SegmentsOf(raw)
    {
      assert chunks[i..][0] == chunks[i] && chunks[i..][1..] == chunks[i + 1..];
      var chunk := Strip(chunks[i]);
      if chunk == [] {
        continue;
      }
      if SelectorOnly(chunk) {
        pending := WithPending(pending, chunk);
        continue;
      }
      PrependTwice(segments, [WithPending(pending, chunk)], Assemble(chunks[i + 1..], []));
      segments := segments + [WithPending(pending, chunk)];
      pending := [];
    }
    if pending != [] {
      return Err(SelectorWithoutRange);
    }
    assert segments + [] == segments;
    return Ok(segments);
  }

  method ParseWeeklyWindows(spec: string) returns (r: Result<Option<Week>>)
    ensures r == ParsedWeekly(spec)
  {
    hide SegmentsOf, SegmentDays, SegmentRange, Normalized, SpecText;
    var raw := SpecText(spec);
    if raw == [] {
      return Ok(None);
    }
    var split := Segments(raw);
    if split.Err? {
      return Err(split.error);
    }
    var segments := split.value;
    var weekly: Option<Week> := None;
    assert segments[0..] == segments;
    for i := 0 to |segments|
      invariant WeeklyFrom(segments[i..], weekly) == WeeklyFrom(segments, None)
    {
      assert segments[i..][0] == segments[i] && segments[i..][1..] == segments[i + 1..];
      var days := SegmentDays(segments[i]);
      var range := SegmentRange(segments[i]);
      if range.Err? {
        return Err(range.error);
      }
      if days != ALL_DAYS {
        if weekly.None? {
          weekly := Some(EmptyWeek());
        }
        weekly := Some(Extend(weekly.value, days, range.value));
      } else if weekly.Some? {
        weekly := Some(Extend(weekly.value, ALL_DAYS, range.value));
      }
    }
    if weekly.None? {
      return Ok(None);
    }
    return Ok(Some(NormalizedWeek(weekly.value)));
  }

  /** Days sharing a window list, in the order the list was first met. */
  datatype Group = Group(windows: seq<Window>, days: set<int>)

  /** The window lists of the days below `n`, each once, in order of first day. */
  function FirstLists(week: Week, n: nat): seq<seq<Window>>
    requires n <= 7
  {
    if n == 0 then []
    else FirstLists(week, n - 1) + if FirstOfGroup(week, n - 1) then [week[n - 1]] else []
  }

  lemma {:induction false} FirstListsMembers(week: Week, n: nat)
    requires n <= 7
    ensures forall ws :: ws in FirstLists(week, n) <==> exists d :: 0 <= d < n && week[d] == ws
    ensures forall i, j | 0 <= i < j < |FirstLists(week, n)| :: FirstLists(week, n)[i] != FirstLists(week, n)[j]
  {
    if n > 0 {
      FirstListsMembers(week, n - 1);
      var prev := FirstLists(week, n - 1);
      assert FirstOfGroup(week, n - 1) <==> week[n - 1] !in prev;
      forall ws ensures ws in FirstLists(week, n) <==> ws in prev || ws == week[n - 1] {
      }
    }
  }

  function SegmentsOfLists(week: Week, lists: seq<seq<Window>>): seq<string> {
    if lists == [] then []
    else
      var last := |lists| - 1;
      SegmentsOfLists(week, lists[..last]) + GroupSegments(GroupDays(week, lists[last]), lists[last])
  }

  lemma {:induction false} ListsGiveSegments(week: Week, n: nat)
    requires n <= 7
    ensures SegmentsOfLists(week, FirstLists(week, n)) == SegmentsBelow(week, n)
  {
    hide GroupSegments, FirstOfGroup, GroupDays;
    if n > 0 {
      ListsGiveSegments(week, n - 1);
      if FirstOfGroup(week, n - 1) {
        var lists := FirstLists(week, n);
        assert lists[..|lists| - 1] == FirstLists(week, n - 1);
      } else {
        assert FirstLists(week, n) == FirstLists(week, n - 1);
        assert SegmentsBelow(week, n) == SegmentsBelow(week, n - 1);
      }
    }
  }

  /** The dictionary of groups once the days below `n` are in it. */
  predicate Grouped(week: Week, n: nat, groups: seq<Group>)
    requires n <= 7
  {
    && |groups| == |FirstLists(week, n)|
    && forall i | 0 <= i < |groups| ::
         && groups[i].windows == FirstLists(week, n)[i]
         && groups[i].days == set d | 0 <= d < n && week[d] == groups[i].windows
  }

  /** `by_windows.setdefault(...).append(d)`. */
  method AddDay(week: Week, d: nat, groups: seq<Group>) returns (next: seq<Group>)
    requires d < 7 && Grouped(week, d, groups)
    ensures Grouped(week, d + 1, next)
  {
    FirstListsMembers(week, d);
    for i := 0 to |groups|
      invariant forall j | 0 <= j < i :: groups[j].windows != week[d]
    {
      if groups[i].windows == week[d] {
        assert FirstLists(week, d)[i] == week[d] && week[d] in FirstLists(week, d);
        assert !FirstOfGroup(week, d);
        next := groups[i := Group(week[d], groups[i].days + {d})];
        forall j | 0 <= j < |next|
          ensures next[j].days == set e | 0 <= e < d + 1 && week[e] == next[j].windows
        {
          assert j != i ==> week[d] != next[j].windows;
        }
        return;
      }
    }
    assert week[d] !in FirstLists(week, d) && FirstOfGroup(week, d);
    next := groups + [Group(week[d], {d})];
    forall j | 0 <= j < |next|
      ensures next[j].days == set e | 0 <= e < d + 1 && week[e] == next[j].windows
    {
      assert j < |groups| ==> week[d] != next[j].windows;
    }
  }

  method FormatWeeklyWindows(week: Week) returns (text: string)
    ensures text == FormattedWeek(week)
  {
    var groups: seq<Group> := [];
    for d := 0 to 7
      invariant Grouped(week, d, groups)
    {
      groups := AddDay(week, d, groups);
    }
    text := FormatGroups(week, groups);
    ListsGiveSegments(week, WEEK_LENGTH);
  }

  method FormatGroups(week: Week, groups: seq<Group>) returns (text: string)
    requires Grouped(week, 7, groups)
    ensures text == Join(", ", SegmentsOfLists(week, FirstLists(week, 7)))
  {
    hide FormatDaySelector, FormatWindows, Prefixed;
    var segments: seq<string> := [];
    ghost var lists := FirstLists(week, 7);
    for i := 0 to |groups|
      invariant segments == SegmentsOfLists(week, lists[..i])
    {
      assert lists[..i + 1][..i] == lists[..i];
      var group := groups[i];
      assert group.days == GroupDays(week, lists[i]);
      if group.windows == [] {
        continue;
      }
      if FormatDaySelector(group.days) == "daily" {
        segments := segments + [FormatWindows(group.windows)];
        continue;
      }
      segments := segments + Prefixed(FormatDaySelector(group.days), group.windows);
    }
    assert lists[..|groups|] == lists;
    return Join(", ", segments);
  }
}
