/** What the two parsers accept, what they return, and the one place where the
    per-day view departs from the documented meaning of a bare range. */
module GrammarLaws {
  import opened Options
  import opened Text
  import opened Windows
  import opened WindowGrammar
  import opened GrammarRoundTrip

  // ----- one language ---------------------------------------------------------------

  predicate Trimmed(t: string) {
    t != [] && !IsSpace(t[0]) && !IsSpace(t[|t| - 1])
  }

  lemma {:induction false} LStripTrims(s: string)
    ensures LStrip(s) == [] || !IsSpace(LStrip(s)[0])
  {
    if s != [] && IsSpace(s[0]) { LStripTrims(s[1..]); }
  }

  lemma {:induction false} RStripTrims(s: string)
    ensures RStrip(s) == [] || !IsSpace(RStrip(s)[|RStrip(s)| - 1])
    ensures RStrip(s) <= s
  {
    if s != [] && IsSpace(s[|s| - 1]) { RStripTrims(s[..|s| - 1]); }
  }

  lemma StripTrims(s: string)
    ensures Strip(s) == [] || Trimmed(Strip(s))
  {
    LStripTrims(s);
    RStripTrims(LStrip(s));
  }

  predicate AllTrimmed(texts: seq<string>) {
    forall i | 0 <= i < |texts| :: Trimmed(texts[i])
  }

  lemma TrimmedCons(text: string, rest: seq<string>)
    requires Trimmed(text) && AllTrimmed(rest)
    ensures AllTrimmed([text] + rest)
  {
    hide Trimmed;
    var all := [text] + rest;
    forall i | 0 <= i < |all| ensures Trimmed(all[i]) {
      assert all[i] == if i == 0 then text else rest[i - 1];
    }
  }

  lemma PendingTrimmed(pending: string, chunk: string)
    requires (pending == [] || !IsSpace(pending[0])) && Trimmed(chunk)
    ensures Trimmed(WithPending(pending, chunk))
  {
    var text := WithPending(pending, chunk);
    assert text[0] == (if pending != [] then pending else chunk)[0];
    assert text[|text| - 1] == chunk[|chunk| - 1];
  }

  lemma {:induction false} AssembledTrimmed(chunks: seq<string>, pending: string)
    requires pending == [] || !IsSpace(pending[0])
    ensures var r := Assemble(chunks, pending); r.Ok? ==> AllTrimmed(r.value)
    decreases |chunks|
  {
    hide SelectorOnly;
    if chunks != [] {
      var chunk := Strip(chunks[0]);
      StripTrims(chunks[0]);
      hide Strip;
      if chunk == [] {
        AssembledTrimmed(chunks[1..], pending);
      } else {
        var text := WithPending(pending, chunk);
        PendingTrimmed(pending, chunk);
        AssembledTrimmed(chunks[1..], text);
        AssembledTrimmed(chunks[1..], []);
        var rest := Assemble(chunks[1..], []);
        if rest.Ok? {
          TrimmedCons(text, rest.value);
        }
        hide AllTrimmed, WithPending;
      }
    }
  }

  lemma DashesTwice(t: string)
    ensures Dashes(Dashes(t)) == Dashes(t) && |Dashes(t)| == |t|
    ensures Trimmed(t) ==> Trimmed(Dashes(t))
  {
    var d := Dashes(t);
    assert forall i | 0 <= i < |t| :: d[i] == if t[i] == '\U{2013}' || t[i] == '\U{2014}' then '-' else t[i];
    assert '\U{2013}' !in d && '\U{2014}' !in d;
    ReplaceAbsent(d, '\U{2013}', '-');
    ReplaceAbsent(d, '\U{2014}', '-');
  }

  lemma DashesOfSuffix(t: string, p: nat)
    requires p <= |t| && Dashes(t) == t
    ensures Dashes(t[p..]) == t[p..]
  {
    assert forall i | 0 <= i < |t| :: Dashes(t)[i] == t[i];
  }

  /** What a selector leaves starts with a digit, so it holds no second one. */
  lemma NoSecondSelector(rest: string)
    requires rest != [] && IsDigit(rest[0])
    ensures TakeSelector(rest) == (ALL_DAYS, rest)
  {
  }

  /** The weekly view and the every-day view read one segment's range alike. */
  lemma SameRange(t: string)
    requires Trimmed(t)
    ensures SegmentRange(t) == ParseOneRange(t)
  {
    hide Strip, Dashes, FirstDigit, ParseOneRange, RStrip, ParseDaySelector, IsAlpha;
    var chunk := Dashes(t);
    DashesTwice(t);
    StripNone(t);
    StripNone(chunk);
    var rest := TakeSelector(chunk).1;
    if rest != chunk {
      var lead := LeadingSelector(chunk);
      assert lead.Some? && rest == lead.value.1;
      var p := FirstDigit(chunk);
      assert rest == chunk[p..];
      assert rest[|rest| - 1] == chunk[|chunk| - 1];
      StripNone(rest);
      DashesOfSuffix(chunk, p);
      NoSecondSelector(rest);
    }
    RangeAfterSelector(rest, t);
  }

  lemma {:induction false} SameRanges(segments: seq<string>, weekly: Option<Week>)
    requires AllTrimmed(segments)
    ensures var week, flat := WeeklyFrom(segments, weekly), ParseRanges(segments);
            (week.Ok? <==> flat.Ok?) && (week.Err? ==> week.error == flat.error)
    decreases |segments|
  {
    hide SegmentRange, ParseOneRange, SegmentDays;
    if segments != [] {
      assert Trimmed(segments[0]) && AllTrimmed(segments[1..]);
      hide AllTrimmed;
      SameRange(segments[0]);
      var range := SegmentRange(segments[0]);
      if range.Ok? {
        SameRanges(segments[1..], WeeklyStep(weekly, SegmentDays(segments[0]), range.value));
      }
    }
  }

  /** Both parsers accept exactly the same strings, and refuse the others for the
      same reason. */
  lemma SameLanguage(spec: string)
    ensures ParsedWindows(spec).Ok? <==> ParsedWeekly(spec).Ok?
    ensures ParsedWindows(spec).Err? ==> ParsedWindows(spec).error == ParsedWeekly(spec).error
  {
    var raw := SpecText(spec);
    if raw != [] {
      var segments := SegmentsOf(raw);
      AssembledTrimmed(SplitOn(raw, ','), []);
      if segments.Ok? {
        SameRanges(segments.value, None);
      }
    }
  }

  // ----- what they return --------------------------------------------------------------

  lemma ParsedTimeInDay(token: string)
    ensures ParseTime(token).Ok? ==> 0 <= ParseTime(token).value <= DAY
  {
  }

  lemma ParsedRangeInDay(chunk: string)
    ensures ParseOneRange(chunk).Ok? ==>
              InDay(ParseOneRange(chunk).value)
              && ParseOneRange(chunk).value.start != ParseOneRange(chunk).value.end
  {
    hide TakeSelector, ParseTime, Strip, Dashes;
    var rest := TakeSelector(Dashes(Strip(chunk))).1;
    var dash := Find(rest, '-');
    if dash < |rest| {
      ParsedTimeInDay(rest[..dash]);
      ParsedTimeInDay(rest[dash + 1..]);
    }
  }

  lemma {:induction false} ParsedRangesInDay(segments: seq<string>)
    ensures ParseRanges(segments).Ok? ==> AllInDay(ParseRanges(segments).value)
  {
    hide ParseOneRange;
    if segments != [] {
      ParsedRangeInDay(segments[0]);
      ParsedRangesInDay(segments[1..]);
    }
  }

  /** Every accepted specification parses to canonical windows covering exactly the
      minutes its ranges name. */
  lemma ParsedIsCanonical(spec: string)
    requires ParsedWindows(spec).Ok?
    ensures IsNormal(ParsedWindows(spec).value)
    ensures forall m | 0 <= m < DAY ::
              Covers(ParsedWindows(spec).value, m) <==> SomeWrittenCovers(RawWindows(spec).value, m)
  {
    var raw := SpecText(spec);
    if raw != [] {
      ParsedRangesInDay(SegmentsOf(raw).value);
    }
    assert AllInDay(RawWindows(spec).value);
    hide RawWindows, Normalized, Covers, SomeWrittenCovers;
    NormalizedIsCanonical(RawWindows(spec).value);
  }

  // ----- bare ranges in a weekly specification --------------------------------------------

  ghost predicate Readable(segments: seq<string>) {
    forall i | 0 <= i < |segments| :: SegmentRange(segments[i]).Ok?
  }

  /** The segments as the days they name (all seven for a bare range) and their windows. */
  ghost function ReadSegments(segments: seq<string>): seq<Item>
    requires Readable(segments)
  {
    if segments == [] then []
    else [Item(SegmentDays(segments[0]), SegmentRange(segments[0]).value)] + ReadSegments(segments[1..])
  }

  function WeeklyItems(items: seq<Item>, weekly: Option<Week>): Option<Week>
    decreases |items|
  {
    if items == [] then weekly else WeeklyItems(items[1..], WeeklyStep(weekly, items[0].days, items[0].w))
  }

  lemma {:induction false} WeeklyReads(segments: seq<string>, weekly: Option<Week>)
    requires Readable(segments)
    ensures WeeklyFrom(segments, weekly) == Ok(WeeklyItems(ReadSegments(segments), weekly))
    decreases |segments|
  {
    hide SegmentRange, SegmentDays, WeeklyStep;
    if segments != [] {
      var days, w := SegmentDays(segments[0]), SegmentRange(segments[0]).value;
      assert ReadSegments(segments)[1..] == ReadSegments(segments[1..]);
      WeeklyReads(segments[1..], WeeklyStep(weekly, days, w));
    }
  }

  /** The documented reading: every range applies to each day it names, and to all
      seven when it names none. */
  function Documented(items: seq<Item>): Week { AddItems(EmptyWeek(), items) }

  lemma {:induction false} StartedIsDocumented(items: seq<Item>, week: Week)
    ensures WeeklyItems(items, Some(week)) == Some(AddItems(week, items))
    decreases |items|
  {
    if items == [] {
      assert forall d | 0 <= d < 7 :: week[d] + [] == week[d];
      assert AddItems(week, items) == week;
    } else {
      var it := items[0];
      assert WeeklyStep(Some(week), it.days, it.w) == Some(Extend(week, it.days, it.w));
      StartedIsDocumented(items[1..], Extend(week, it.days, it.w));
      AddItemsStep(week, items);
      hide AddItems, Extend;
    }
  }

  /** How many leading ranges carry no selector. */
  function LeadingBare(items: seq<Item>): (k: nat)
    ensures k <= |items|
    ensures k < |items| ==> items[k].days != ALL_DAYS
    ensures forall i | 0 <= i < k :: items[i].days == ALL_DAYS
  {
    if items == [] || items[0].days != ALL_DAYS then 0 else 1 + LeadingBare(items[1..])
  }

  lemma {:induction false} DropsLeadingBare(items: seq<Item>)
    ensures var k := LeadingBare(items);
            WeeklyItems(items, None) == if k == |items| then None else Some(Documented(items[k..]))
    decreases |items|
  {
    if items != [] {
      if items[0].days == ALL_DAYS {
        DropsLeadingBare(items[1..]);
        assert items[1..][LeadingBare(items[1..])..] == items[LeadingBare(items)..];
      } else {
        assert items[0..] == items;
        assert WeeklyStep(None, items[0].days, items[0].w) == WeeklyStep(Some(EmptyWeek()), items[0].days, items[0].w);
        StartedIsDocumented(items, EmptyWeek());
      }
    }
  }

  lemma {:induction false} BareOnEveryDay(items: seq<Item>, k: nat, d: int)
    requires 0 <= d < 7 && k <= LeadingBare(items)
    ensures DayItems(items, d) == ItemWindows(items[..k]) + DayItems(items[k..], d)
    decreases |items|
  {
    assert items == items[..k] + items[k..];
    DayItemsConcat(items[..k], items[k..], d);
    AllDaysWindows(items[..k], d);
  }

  lemma {:induction false} AllDaysWindows(items: seq<Item>, d: int)
    requires 0 <= d < 7 && forall i | 0 <= i < |items| :: items[i].days == ALL_DAYS
    ensures DayItems(items, d) == ItemWindows(items) && |ItemWindows(items)| == |items|
  {
    if items != [] {
      assert d in ALL_DAYS;
      AllDaysWindows(items[1..], d);
    }
  }

  lemma DocumentedSplit(items: seq<Item>, d: int)
    requires 0 <= d < 7
    ensures var k := LeadingBare(items);
            Documented(items)[d] == ItemWindows(items[..k]) + Documented(items[k..])[d]
  {
    var k := LeadingBare(items);
    BareOnEveryDay(items, k, d);
    hide DayItems, ItemWindows, LeadingBare;
    assert EmptyWeek()[d] + DayItems(items, d) == DayItems(items, d);
    assert EmptyWeek()[d] + DayItems(items[k..], d) == DayItems(items[k..], d);
  }

  /** A specification that names days at all is given the documented reading exactly
      when its first segment names days; otherwise each day has lost the windows of
      the leading bare ranges, and nothing else. */
  lemma DocumentedIff(items: seq<Item>)
    requires exists i :: 0 <= i < |items| && items[i].days != ALL_DAYS
    ensures var read := WeeklyItems(items, None);
            && read.Some?
            && (read.value == Documented(items) <==> items[0].days != ALL_DAYS)
            && forall d | 0 <= d < 7 ::
                 Documented(items)[d] == ItemWindows(items[..LeadingBare(items)]) + read.value[d]
  {
    var k := LeadingBare(items);
    DropsLeadingBare(items);
    AllDaysWindows(items[..k], 0);
    forall d | 0 <= d < 7 ensures Documented(items)[d] == ItemWindows(items[..k]) + Documented(items[k..])[d] {
      DocumentedSplit(items, d);
    }
    hide DayItems, ItemWindows, WeeklyItems, Documented;
    if k == 0 {
      assert items[0..] == items;
    } else {
      assert |Documented(items)[0]| == k + |Documented(items[k..])[0]|;
    }
  }

  lemma ConcatWritten(a: seq<Window>, b: seq<Window>, m: int)
    ensures SomeWrittenCovers(a + b, m) <==> SomeWrittenCovers(a, m) || SomeWrittenCovers(b, m)
  {
    var c := a + b;
    if SomeWrittenCovers(a, m) {
      var i :| 0 <= i < |a| && WrittenCovers(a[i], m);
      assert WrittenCovers(c[i], m);
    }
    if SomeWrittenCovers(b, m) {
      var i :| 0 <= i < |b| && WrittenCovers(b[i], m);
      assert WrittenCovers(c[|a| + i], m);
    }
  }

  /** On the clock: a day's schedule is the documented one exactly when the dropped
      ranges add no minute to what the day keeps. */
  lemma DroppedRangesMatter(dropped: seq<Window>, kept: seq<Window>)
    requires AllInDay(dropped) && AllInDay(kept)
    ensures Normalized(dropped + kept) == Normalized(kept)
       <==> forall m | 0 <= m < DAY :: SomeWrittenCovers(dropped, m) ==> SomeWrittenCovers(kept, m)
  {
    forall m ensures SomeWrittenCovers(dropped + kept, m)
                <==> SomeWrittenCovers(dropped, m) || SomeWrittenCovers(kept, m) {
      ConcatWritten(dropped, kept, m);
    }
    hide SomeWrittenCovers, Normalized;
    SameTimesSameForm(dropped + kept, kept);
  }

  // ----- what that means for a specification ----------------------------------------------------

  /** The items of an accepted specification, segment by segment. */
  ghost function SpecItems(spec: string): seq<Item> {
    var segments := SegmentsOf(SpecText(spec));
    if segments.Ok? && Readable(segments.value) then ReadSegments(segments.value) else []
  }

  predicate AllItemsInDay(items: seq<Item>) { forall i | 0 <= i < |items| :: InDay(items[i].w) }

  lemma {:induction false} ReadInDay(segments: seq<string>)
    requires Readable(segments)
    ensures AllItemsInDay(ReadSegments(segments))
  {
    hide SegmentDays, ParseOneRange;
    if segments != [] {
      ParsedRangeInDay(TakeSelector(Dashes(segments[0])).1);
      ReadInDay(segments[1..]);
    }
  }

  lemma {:induction false} AcceptedIsReadable(segments: seq<string>, weekly: Option<Week>)
    requires WeeklyFrom(segments, weekly).Ok?
    ensures Readable(segments)
    decreases |segments|
  {
    hide SegmentRange, SegmentDays, WeeklyStep;
    if segments != [] {
      AcceptedIsReadable(segments[1..], WeeklyStep(weekly, SegmentDays(segments[0]), SegmentRange(segments[0]).value));
    }
  }

  /** What the weekly parser makes of an accepted specification, in terms of its items. */
  lemma SpecWeekly(spec: string)
    requires ParsedWeekly(spec).Ok? && SpecText(spec) != []
    ensures AllItemsInDay(SpecItems(spec))
    ensures var read := WeeklyItems(SpecItems(spec), None);
            ParsedWeekly(spec) == Ok(if read.None? then None else Some(NormalizedWeek(read.value)))
  {
    hide SegmentsOf, WeeklyFrom, WeeklyItems, NormalizedWeek, ReadSegments, Readable, AllItemsInDay, SpecText;
    var segments := SegmentsOf(SpecText(spec)).value;
    AcceptedIsReadable(segments, None);
    WeeklyReads(segments, None);
    ReadInDay(segments);
  }

  lemma {:induction false} ItemWindowsInDay(items: seq<Item>, d: int)
    requires AllItemsInDay(items)
    ensures AllInDay(ItemWindows(items)) && AllInDay(DayItems(items, d))
  {
    if items != [] { ItemWindowsInDay(items[1..], d); }
  }

  /** The ranges before the first selector, and what a day keeps of the others. */
  ghost function Dropped(spec: string): seq<Window> { ItemWindows(SpecItems(spec)[..LeadingBare(SpecItems(spec))]) }

  ghost function KeptOn(spec: string, d: int): seq<Window>
    requires 0 <= d < 7
  {
    Documented(SpecItems(spec)[LeadingBare(SpecItems(spec))..])[d]
  }

  /** The windows add no minute of the clock to the others. */
  ghost predicate AddsNothing(more: seq<Window>, windows: seq<Window>) {
    forall m | 0 <= m < DAY :: SomeWrittenCovers(more, m) ==> SomeWrittenCovers(windows, m)
  }

  ghost predicate AsDocumented(spec: string, d: int)
    requires 0 <= d < 7 && ParsedWeekly(spec).Ok? && ParsedWeekly(spec).value.Some?
  {
    ParsedWeekly(spec).value.value[d] == Normalized(Documented(SpecItems(spec))[d])
  }

  lemma NamesDaysIff(items: seq<Item>)
    ensures WeeklyItems(items, None).Some? <==> exists i :: 0 <= i < |items| && items[i].days != ALL_DAYS
    ensures WeeklyItems(items, None).Some? ==> WeeklyItems(items, None).value == Documented(items[LeadingBare(items)..])
  {
    hide Documented, WeeklyItems;
    DropsLeadingBare(items);
  }

  /** For every accepted specification that names days: each day gets the canonical form of
      what the other ranges give it, which is the documented schedule exactly when the bare
      ranges before the first selector add no minute to it. */
  lemma SpecDocumentedIff(spec: string, d: int)
    requires 0 <= d < 7 && ParsedWeekly(spec).Ok? && ParsedWeekly(spec).value.Some?
    ensures exists i :: 0 <= i < |SpecItems(spec)| && SpecItems(spec)[i].days != ALL_DAYS
    ensures ParsedWeekly(spec).value.value[d] == Normalized(KeptOn(spec, d))
    ensures Documented(SpecItems(spec))[d] == Dropped(spec) + KeptOn(spec, d)
    ensures AsDocumented(spec, d) <==> AddsNothing(Dropped(spec), KeptOn(spec, d))
  {
    hide SpecItems, WeeklyItems, Documented, Normalized, SomeWrittenCovers, ItemWindows, AllItemsInDay, LeadingBare,
      WeeklyFrom, SegmentsOf;
    var items := SpecItems(spec);
    var k := LeadingBare(items);
    SpecWeekly(spec);
    NamesDaysIff(items);
    DocumentedSplit(items, d);
    PartsInDay(items, k, d);
    DroppedRangesMatter(Dropped(spec), KeptOn(spec, d));
  }

  lemma PartsInDay(items: seq<Item>, k: nat, d: int)
    requires AllItemsInDay(items) && k <= |items| && 0 <= d < 7
    ensures AllInDay(ItemWindows(items[..k])) && AllInDay(Documented(items[k..])[d])
  {
    hide ItemWindows, DayItems, AllInDay;
    ItemWindowsInDay(items[..k], d);
    ItemWindowsInDay(items[k..], d);
    assert EmptyWeek()[d] + DayItems(items[k..], d) == DayItems(items[k..], d);
  }

  /** So a bare start is harmless exactly when every day keeps its minutes anyway. */
  lemma WholeWeekDocumentedIff(spec: string)
    requires ParsedWeekly(spec).Ok? && ParsedWeekly(spec).value.Some?
    ensures (forall d | 0 <= d < 7 :: AsDocumented(spec, d))
       <==> (forall d | 0 <= d < 7 :: AddsNothing(Dropped(spec), KeptOn(spec, d)))
  {
    hide AsDocumented, AddsNothing, Dropped, KeptOn, ParsedWeekly;
    forall d | 0 <= d < 7 ensures AsDocumented(spec, d) <==> AddsNothing(Dropped(spec), KeptOn(spec, d)) {
      SpecDocumentedIff(spec, d);
    }
  }

  const MORNING := Item(ALL_DAYS, Window(360, 420))
  const MONDAY := Item({0}, Window(480, 540))

  lemma CounterexampleSegments()
    ensures GoodItems([MORNING, MONDAY]) && GoodItems([MONDAY])
    ensures Texts([MORNING, MONDAY]) == [ItemText(MORNING), ItemText(MONDAY)]
    ensures Texts([MONDAY]) == [ItemText(MONDAY)]
    ensures ItemWindows([MORNING, MONDAY]) == [MORNING.w, MONDAY.w]
    ensures MONDAY.days != ALL_DAYS
  {
    hide ItemText;
    assert 0 in ALL_DAYS && 1 in ALL_DAYS && 0 in MONDAY.days && 1 !in MONDAY.days;
    assert GoodItem(MORNING) && GoodItem(MONDAY);
    TwoItems(MORNING, MONDAY);
  }

  lemma TwoItems(a: Item, b: Item)
    ensures Texts([b]) == [ItemText(b)] && Texts([a, b]) == [ItemText(a), ItemText(b)]
    ensures ItemWindows([b]) == [b.w] && ItemWindows([a, b]) == [a.w, b.w]
  {
    hide ItemText;
    assert [b][1..] == [] && [a, b][1..] == [b];
    assert Texts([b]) == [ItemText(b)] + Texts([]);
    assert Texts([a, b]) == [ItemText(a)] + Texts([b]);
    assert ItemWindows([b]) == [b.w] + ItemWindows([]);
    assert ItemWindows([a, b]) == [a.w] + ItemWindows([b]);
  }

  lemma MorningText()
    ensures ItemText(MORNING) == FormatWindow(MORNING.w)
  {
    hide FormatWindow, FormatDaySelector;
  }

  lemma MondayText()
    ensures ItemText(MONDAY) == DayName(0) + " " + FormatWindow(MONDAY.w)
  {
    hide FormatWindow, FormatDaySelector, DayName;
    MondaySelector();
    assert 1 in ALL_DAYS && 1 !in MONDAY.days;
  }

  lemma CounterexampleText()
    ensures Join(", ", Texts([MORNING, MONDAY]))
         == FormatWindow(MORNING.w) + ", " + (DayName(0) + " " + FormatWindow(MONDAY.w))
  {
    hide FormatWindow, DayName, Texts, GoodItems, ItemWindows, ItemText;
    CounterexampleSegments();
    MorningText();
    MondayText();
    var a, b := ItemText(MORNING), ItemText(MONDAY);
    assert Join(", ", [b]) == b;
    assert [a, b][1..] == [b];
    assert Join(", ", [a, b]) == a + ", " + b;
  }

  lemma CounterexampleWeek()
    ensures var week := NormalizedWeek(AddItems(EmptyWeek(), [MONDAY]));
            week[0] == [MONDAY.w] && forall d | 1 <= d < 7 :: week[d] == []
  {
    hide Normalized, IsNormal;
    NormalIsFixed([MONDAY.w]);
    NormalIsFixed([]);
    var week := AddItems(EmptyWeek(), [MONDAY]);
    forall d | 0 <= d < 7 ensures week[d] == if d == 0 then [MONDAY.w] else [] {
      assert [MONDAY][1..] == [] && DayItems([], d) == [];
      assert DayItems([MONDAY], d) == (if d in MONDAY.days then [MONDAY.w] else []) + [];
    }
  }

  lemma CounterexampleWeekly()
    ensures WeeklyFrom(Texts([MORNING, MONDAY]), None) == Ok(Some(AddItems(EmptyWeek(), [MONDAY])))
  {
    CounterexampleSegments();
    ItemRange(MORNING);
    WeeklyFromNothing([MONDAY]);
    hide ItemText, SegmentDays, SegmentRange, AddItems, Texts;
    assert [ItemText(MORNING), ItemText(MONDAY)][1..] == [ItemText(MONDAY)];
  }

  /** "06:00-07:00, Mo 08:00-09:00": the bare morning range means every day, and the
      every-day view has it, but no day of the per-day view does. */
  lemma LeadingBareCounterexample()
    ensures var s := FormatWindow(MORNING.w) + ", " + (DayName(0) + " " + FormatWindow(MONDAY.w));
            && ParsedWindows(s) == Ok([MORNING.w, MONDAY.w])
            && ParsedWeekly(s).Ok? && ParsedWeekly(s).value.Some?
            && ParsedWeekly(s).value.value[0] == [MONDAY.w]
            && forall d | 1 <= d < 7 :: ParsedWeekly(s).value.value[d] == []
  {
    hide Join, Texts, ItemText, FormatWindow, Normalized, SegmentsOf, SpecText, ParseRanges, WeeklyFrom,
      NormalizedWeek, AddItems, ItemWindows, GoodItems, DayName, EmptyWeek, IsNormal;
    CounterexampleSegments();
    CounterexampleText();
    SegmentsOfItems([MORNING, MONDAY]);
    RangesOfItems([MORNING, MONDAY]);
    CounterexampleWeekly();
    CounterexampleWeek();
    NormalIsFixed([MORNING.w, MONDAY.w]);
  }

  lemma MondaySelector()
    ensures FormatDaySelector({0}) == DayName(0)
    ensures {0} < ALL_DAYS
  {
    hide FindRun, DayName;
    assert 0 in ALL_DAYS && 1 in ALL_DAYS && 1 !in {0};
    SingleDay(WEEK_LENGTH);
    assert Ordered({0}) == [0];
    assert DayNames([0]) == [DayName(0)];
  }

  lemma {:induction false} SingleDay(n: nat)
    requires n <= 7
    ensures OrderedBelow({0}, n) == if n == 0 then [] else [0]
  {
    if n > 0 { SingleDay(n - 1); }
  }
}
