/** What the renderer emits is read back to the same schedule by both parsers. */
module GrammarRoundTrip {
  import opened Options
  import opened Text
  import opened Windows
  import opened WindowGrammar

  // ----- day selectors -----------------------------------------------------------

  lemma {:induction false} OrderedMembers(days: set<int>, n: nat)
    ensures forall d :: d in OrderedBelow(days, n) <==> d in days && 0 <= d < n
  {
    if n > 0 {
      OrderedMembers(days, n - 1);
    }
  }

  lemma {:induction false} OrderedFull(days: set<int>, n: nat)
    requires |OrderedBelow(days, n)| == n
    ensures forall d | 0 <= d < n :: d in days
  {
    if n > 0 {
      OrderedFull(days, n - 1);
    }
  }

  /** A text the segmenter keeps whole: letters only, besides dashes. */
  predicate Clean(s: string) {
    s != [] && IsAlpha(s[0]) && forall i | 0 <= i < |s| :: IsAlpha(s[i]) || s[i] == '-'
  }

  lemma CleanFacts(s: string)
    requires Clean(s)
    ensures !HasDigit(s) && ',' !in s && Strip(s) == s
    ensures forall i | 0 <= i < |s| :: !IsSpace(s[i])
  {
    StripNone(s);
  }

  lemma DigitShows(c: char)
    requires IsDigit(c)
    ensures !IsSpace(c)
  {
  }

  lemma LowerConcat(a: string, b: string)
    ensures Lower(a + b) == Lower(a) + Lower(b)
  {
  }

  lemma NameFacts(d: int)
    requires 0 <= d < 7
    ensures Clean(DayName(d)) && |DayName(d)| == 2 && '-' !in DayName(d)
    ensures Lower(DayName(d)) == DAY_TOKENS[d] && |DAY_TOKENS[d]| == 2
    ensures IsAlpha(DAY_TOKENS[d][0]) && IsAlpha(DAY_TOKENS[d][1])
    ensures TokenIndex(DAY_TOKENS[d]) == d
  {
  }

  function Tokens(days: seq<int>): seq<string>
    requires forall i | 0 <= i < |days| :: 0 <= days[i] < 7
  {
    if days == [] then [] else [DAY_TOKENS[days[0]]] + Tokens(days[1..])
  }

  function SetOf(days: seq<int>): set<int> { set d | d in days }

  predicate Weekdays(days: seq<int>) {
    days != [] && forall i | 0 <= i < |days| :: 0 <= days[i] < 7
  }

  function TokenList(days: seq<int>): string
    requires Weekdays(days)
  {
    Join(",", Tokens(days))
  }

  lemma TokenListCons(days: seq<int>)
    requires Weekdays(days)
    ensures |days| == 1 ==> TokenList(days) == DAY_TOKENS[days[0]]
    ensures |days| > 1 ==> TokenList(days) == DAY_TOKENS[days[0]] + [','] + TokenList(days[1..])
  {
    assert Tokens(days) == [DAY_TOKENS[days[0]]] + Tokens(days[1..]);
    if |days| > 1 {
      JoinCons(",", DAY_TOKENS[days[0]], Tokens(days[1..]));
    }
  }

  lemma {:induction false} ListLower(days: seq<int>)
    requires Weekdays(days)
    ensures Lower(Join(",", DayNames(days))) == TokenList(days)
  {
    NameFacts(days[0]);
    TokenListCons(days);
    assert DayNames(days) == [DayName(days[0])] + DayNames(days[1..]);
    if |days| > 1 {
      ListLower(days[1..]);
      JoinCons(",", DayName(days[0]), DayNames(days[1..]));
      LowerConcat(DayName(days[0]) + ",", Join(",", DayNames(days[1..])));
      LowerConcat(DayName(days[0]), ",");
      assert Lower(",") == ",";
    }
  }

  lemma {:induction false} ListCharacters(days: seq<int>)
    requires Weekdays(days)
    ensures '-' !in TokenList(days)
    ensures forall i | 0 <= i < |TokenList(days)| :: !IsSpace(TokenList(days)[i])
    ensures |TokenList(days)| >= 2 && IsAlpha(TokenList(days)[0])
    ensures if |days| == 1 then |TokenList(days)| == 2
            else |TokenList(days)| > 2 && TokenList(days)[2] == ','
  {
    TokenText(days[0]);
    TokenListCons(days);
    if |days| > 1 {
      ListCharacters(days[1..]);
    }
  }

  lemma {:induction false} ListShape(days: seq<int>)
    requires Weekdays(days)
    ensures SelectorShape(TokenList(days))
  {
    hide TokenList;
    TokenText(days[0]);
    TokenListCons(days);
    if |days| > 1 {
      ListShape(days[1..]);
      ListCharacters(days[1..]);
      var text, tail := TokenList(days), TokenList(days[1..]);
      assert text[2..] == [','] + tail;
      assert LStrip(text[2..]) == text[2..];
      assert text[2..][1..] == tail;
      assert LStrip(tail) == tail;
    }
  }

  lemma {:induction false} ListSplit(days: seq<int>)
    requires Weekdays(days)
    ensures SplitOn(TokenList(days), ',') == Tokens(days)
  {
    TokenText(days[0]);
    TokenListCons(days);
    SplitNone(DAY_TOKENS[days[0]], ',');
    assert Tokens(days) == [DAY_TOKENS[days[0]]] + Tokens(days[1..]);
    if |days| > 1 {
      ListSplit(days[1..]);
      SplitConcat(DAY_TOKENS[days[0]], TokenList(days[1..]), ',');
    }
  }

  lemma {:induction false} ListDays(days: seq<int>)
    requires Weekdays(days)
    ensures ListedDays(Tokens(days)) == SetOf(days) && days[0] in SetOf(days)
  {
    NameFacts(days[0]);
    assert Tokens(days) == [DAY_TOKENS[days[0]]] + Tokens(days[1..]);
    if |days| > 1 {
      ListDays(days[1..]);
      assert Tokens(days)[1..] == Tokens(days[1..]);
      assert SetOf(days) == {days[0]} + SetOf(days[1..]);
    } else {
      assert SetOf(days) == {days[0]};
    }
  }

  /** The selector's fixed words are never taken for a list or a range. */
  lemma NotAWord(t: string)
    requires |t| == 2 || (|t| > 2 && (t[2] == ',' || t[2] == '-'))
    ensures t !in ["daily", "everyday", "all"] && t != "weekdays" && t !in ["weekend", "weekends"]
  {
  }

  lemma ParseList(days: seq<int>)
    requires Weekdays(days)
    requires Strip(Join(",", DayNames(days))) == Join(",", DayNames(days))
    ensures ParseDaySelector(Join(",", DayNames(days))) == SetOf(days)
  {
    var t := TokenList(days);
    ListLower(days);
    ListCharacters(days);
    ListShape(days);
    ListSplit(days);
    ListDays(days);
    NotAWord(t);
    RemoveNoSpaces(t);
    SplitNone(t, '-');
  }

  lemma ParseRange(lo: int, hi: int)
    requires 0 <= lo < 7 && 0 <= hi < 7
    ensures Clean(DayName(lo) + "-" + DayName(hi))
    ensures ParseDaySelector(DayName(lo) + "-" + DayName(hi)) == SpanDays(lo, hi)
  {
    hide DayName, SplitOn, RemoveSpaces, SelectorShape, HasDigit, IsAlpha, IndexBelow;
    var name := DayName(lo) + "-" + DayName(hi);
    NameFacts(lo);
    NameFacts(hi);
    TokenText(lo);
    TokenText(hi);
    CleanFacts(name);
    LowerConcat(DayName(lo) + "-", DayName(hi));
    LowerConcat(DayName(lo), "-");
    assert Lower("-") == "-";
    var t := DAY_TOKENS[lo] + ['-'] + DAY_TOKENS[hi];
    assert Lower(Strip(name)) == t;
    NotAWord(t);
    RangeShape(lo, hi);
    RemoveNoSpaces(t);
    SplitConcat(DAY_TOKENS[lo], DAY_TOKENS[hi], '-');
    SplitNone(DAY_TOKENS[lo], '-');
    SplitNone(DAY_TOKENS[hi], '-');
  }

  lemma RangeShape(lo: int, hi: int)
    requires 0 <= lo < 7 && 0 <= hi < 7
    ensures SelectorShape(DAY_TOKENS[lo] + ['-'] + DAY_TOKENS[hi])
  {
    var t, tail := DAY_TOKENS[lo] + ['-'] + DAY_TOKENS[hi], DAY_TOKENS[hi];
    TokenText(lo);
    TokenText(hi);
    assert t[2..] == ['-'] + tail && LStrip(t[2..]) == t[2..];
    assert t[2..][1..] == tail && LStrip(tail) == tail;
    assert tail[2..] == [];
  }

  lemma TokenText(d: int)
    requires 0 <= d < 7
    ensures |DAY_TOKENS[d]| == 2 && ',' !in DAY_TOKENS[d] && '-' !in DAY_TOKENS[d]
    ensures forall i | 0 <= i < 2 :: IsAlpha(DAY_TOKENS[d][i]) && !IsSpace(DAY_TOKENS[d][i])
  {
  }

  /** A rendered selector: letters, commas and dashes, starting with a letter and
      ending in one. */
  predicate SelectorText(s: string) {
    && s != [] && IsAlpha(s[0]) && IsAlpha(s[|s| - 1])
    && forall i | 0 <= i < |s| :: IsAlpha(s[i]) || s[i] == ',' || s[i] == '-'
  }

  /** The comma-free parts of a selector, each of which names days by itself. */
  ghost predicate Parts(parts: seq<string>) {
    parts != [] && forall i | 0 <= i < |parts| :: Clean(parts[i]) && ParseDaySelector(parts[i]) != {}
  }

  /** One day name is a selector of its own. */
  lemma NameIsPart(d: int)
    requires 0 <= d < 7
    ensures Clean(DayName(d)) && IsAlpha(DayName(d)[1]) && ParseDaySelector(DayName(d)) != {}
  {
    NameFacts(d);
    CleanFacts(DayName(d));
    assert DayNames([d]) == [DayName(d)];
    ParseList([d]);
    ListDays([d]);
  }

  lemma {:induction false} NamesAreParts(days: seq<int>)
    requires Weekdays(days)
    ensures Parts(DayNames(days))
  {
    hide ParseDaySelector, DayName, Clean;
    NameIsPart(days[0]);
    assert DayNames(days) == [DayName(days[0])] + DayNames(days[1..]);
    if |days| > 1 {
      NamesAreParts(days[1..]);
    }
  }

  lemma {:induction false} NamesAreSelectorText(days: seq<int>)
    requires Weekdays(days)
    ensures SelectorText(Join(",", DayNames(days)))
  {
    NameFacts(days[0]);
    assert DayNames(days) == [DayName(days[0])] + DayNames(days[1..]);
    hide DayName;
    if |days| > 1 {
      NamesAreSelectorText(days[1..]);
      JoinCons(",", DayName(days[0]), DayNames(days[1..]));
    }
  }

  lemma SelectorTextFacts(s: string)
    requires SelectorText(s)
    ensures Strip(s) == s && !HasDigit(s) && RStrip(s + " ") == s
  {
    StripNone(s);
    RStripBlank(s);
  }

  /** The selector words, as parts of their own. */
  lemma WordFacts()
    ensures Parts(["weekdays"]) && SelectorText("weekdays") && ParseDaySelector("weekdays") == {0, 1, 2, 3, 4}
    ensures Parts(["weekend"]) && SelectorText("weekend") && ParseDaySelector("weekend") == {5, 6}
  {
    hide Lower, Strip, SelectorShape, TokenIndex, CyclicSpan;
    CleanFacts("weekdays");
    CleanFacts("weekend");
    assert Lower("weekdays") == "weekdays";
    assert Lower("weekend") == "weekend";
  }

  /** A selector's parts: one part when it is a word or a range, else its names. */
  function PartsOf(days: set<int>): seq<string> {
    var ordered := Ordered(days);
    var run := FindRun(days, ordered, ordered);
    if ordered == [0, 1, 2, 3, 4] || ordered == [5, 6] || (run.Some? && |ordered| >= 3)
    then [FormatDaySelector(days)]
    else DayNames(ordered)
  }

  lemma ProperSubset(days: set<int>)
    requires days < ALL_DAYS
    ensures forall d | d in days :: 0 <= d < 7
    ensures exists d :: 0 <= d < 7 && d !in days
  {
    assert !(ALL_DAYS <= days);
    var d :| d in ALL_DAYS && d !in days;
  }

  lemma OrderedFacts(days: set<int>)
    requires days != {} && days < ALL_DAYS
    ensures Weekdays(Ordered(days)) && SetOf(Ordered(days)) == days && |Ordered(days)| < 7
  {
    ProperSubset(days);
    OrderedMembers(days, WEEK_LENGTH);
    var d :| d in days;
    assert d in Ordered(days);
    if |OrderedBelow(days, WEEK_LENGTH)| == 7 {
      OrderedFull(days, WEEK_LENGTH);
      assert false;
    }
  }

  /** Every proper set of weekdays is rendered to a selector that parses back to it. */
  lemma SelectorRoundTrip(days: set<int>)
    requires days != {} && days < ALL_DAYS
    ensures ParseDaySelector(FormatDaySelector(days)) == days
    ensures FormatDaySelector(days) != "daily" && SelectorText(FormatDaySelector(days))
    ensures Parts(PartsOf(days)) && Join(",", PartsOf(days)) == FormatDaySelector(days)
  {
    hide SelectorText, Parts, Ordered, ParseDaySelector, SpanDays, DayName, Weekdays;
    var ordered := Ordered(days);
    OrderedFacts(days);
    WordFacts();
    if ordered == [0, 1, 2, 3, 4] {
      assert SetOf(ordered) == {0, 1, 2, 3, 4};
    } else if ordered == [5, 6] {
      assert SetOf(ordered) == {5, 6};
    } else {
      var run := FindRun(days, ordered, ordered);
      if run.Some? && |ordered| >= 3 {
        RunFacts(days, run.value.0, run.value.1);
      } else {
        NamesAreParts(ordered);
        NamesAreSelectorText(ordered);
        SelectorTextFacts(Join(",", DayNames(ordered)));
        ParseList(ordered);
        NotDaily(ordered);
      }
    }
  }

  lemma NotDaily(days: seq<int>)
    requires Weekdays(days)
    ensures Join(",", DayNames(days)) != "daily"
  {
    ListLower(days);
    ListCharacters(days);
    assert Lower("daily")[2] == 'i';
    assert |Lower("daily")| == 5;
  }

  lemma RunFacts(days: set<int>, lo: int, hi: int)
    requires days != {} && SpanDays(lo, hi) == days && 0 <= lo < 7 && 0 <= hi < 7
    ensures ParseDaySelector(DayName(lo) + "-" + DayName(hi)) == days
    ensures DayName(lo) + "-" + DayName(hi) != "daily"
    ensures SelectorText(DayName(lo) + "-" + DayName(hi))
    ensures Parts([DayName(lo) + "-" + DayName(hi)])
  {
    hide ParseDaySelector, SpanDays, DayName, Lower, TokenIndex, IsAlpha, LowerChar;
    var name := DayName(lo) + "-" + DayName(hi);
    NameFacts(lo);
    NameFacts(hi);
    ParseRange(lo, hi);
    assert name[2] == '-' && "daily"[2] == 'i';
  }

  // ----- times and ranges ----------------------------------------------------------

  lemma TwoDigitsFacts(n: int)
    requires 0 <= n < 100
    ensures OneOrTwoDigits(TwoDigits(n)) && Number(TwoDigits(n)) == n
  {
    var s := TwoDigits(n);
    assert s[..1] == [Digit(n / 10)];
    assert s[..1][..0] == [];
    assert Number(s[..1]) == n / 10;
  }

  lemma TwoDigitsText(n: int)
    requires 0 <= n < 100
    ensures |TwoDigits(n)| == 2 && IsDigit(TwoDigits(n)[0]) && IsDigit(TwoDigits(n)[1])
  {
  }

  lemma ClockParts(m: int)
    requires 0 <= m <= DAY
    ensures 0 <= m / 60 <= 24 && 0 <= m % 60 < 60
    ensures FormatClock(m) == TwoDigits(m / 60) + [':'] + TwoDigits(m % 60)
  {
    MinuteKept(m);
    hide TwoDigits;
    assert ":" == [':'];
  }

  lemma MinuteKept(m: int)
    requires 0 <= m <= DAY
    ensures 0 <= m / 60 <= 24 && 0 <= m % 60 < 60
    ensures m != DAY ==> m % DAY == m
  {
  }

  lemma ClockText(m: int)
    requires 0 <= m <= DAY
    ensures |FormatClock(m)| == 5 && IsDigit(FormatClock(m)[0]) && IsDigit(FormatClock(m)[4])
    ensures forall i | 0 <= i < 5 :: IsDigit(FormatClock(m)[i]) || FormatClock(m)[i] == ':'
  {
    ClockParts(m);
    TwoDigitsText(m / 60);
    TwoDigitsText(m % 60);
    hide TwoDigits, FormatClock;
  }

  lemma SplitClock(h: string, mm: string)
    requires OneOrTwoDigits(h) && OneOrTwoDigits(mm)
    ensures Strip(h + [':'] + mm) == h + [':'] + mm
    ensures SplitOn(h + [':'] + mm, ':') == [h, mm]
  {
    var text := h + [':'] + mm;
    assert text[0] == h[0] && text[|text| - 1] == mm[|mm| - 1];
    StripNone(text);
    SplitConcat(h, mm, ':');
    SplitNone(h, ':');
    SplitNone(mm, ':');
  }

  /** Reading back a rendered time gives the minute it stands for. */
  lemma ClockRoundTrip(m: int)
    requires 0 <= m <= DAY
    ensures ParseTime(FormatClock(m)) == Ok(m)
  {
    hide TwoDigits, OneOrTwoDigits, SplitOn, Strip, Number, IsDigit;
    ClockParts(m);
    TwoDigitsFacts(m / 60);
    TwoDigitsFacts(m % 60);
    SplitClock(TwoDigits(m / 60), TwoDigits(m % 60));
    assert forall p | p in [TwoDigits(m / 60), TwoDigits(m % 60)] :: OneOrTwoDigits(p);
  }

  lemma RangeText(w: Window)
    requires InDay(w)
    ensures |FormatWindow(w)| == 11 && IsDigit(FormatWindow(w)[0]) && IsDigit(FormatWindow(w)[10])
    ensures Find(FormatWindow(w), '-') == 5
    ensures FormatWindow(w)[..5] == FormatClock(w.start) && FormatWindow(w)[6..] == FormatClock(w.end)
    ensures forall i | 0 <= i < 11 ::
              IsDigit(FormatWindow(w)[i]) || FormatWindow(w)[i] == ':' || FormatWindow(w)[i] == '-'
  {
    ClockText(w.start);
    ClockText(w.end);
    assert FormatWindow(w) == FormatClock(w.start) + ['-'] + FormatClock(w.end);
    FindAfter(FormatClock(w.start), FormatClock(w.end), '-');
  }

  /** A character no rendered segment holds anything outside of. */
  predicate SegmentChar(c: char) {
    IsAlpha(c) || IsDigit(c) || c == ',' || c == '-' || c == ':' || c == ' '
  }

  lemma DashesKept(s: string)
    requires forall i | 0 <= i < |s| :: SegmentChar(s[i])
    ensures Dashes(s) == s
  {
    ReplaceAbsent(s, '\U{2013}', '-');
    ReplaceAbsent(s, '\U{2014}', '-');
  }

  /** A rendered range carries no selector and parses to its window. */
  lemma BareRangeRoundTrip(w: Window)
    requires InDay(w) && w.start < w.end
    ensures TakeSelector(Dashes(FormatWindow(w))) == (ALL_DAYS, FormatWindow(w))
    ensures ParseOneRange(FormatWindow(w)) == Ok(w)
  {
    hide FormatWindow, Find, FormatClock, LStrip, ParseTime, ParseDaySelector, Replace;
    var text := FormatWindow(w);
    RangeText(w);
    DashesKept(text);
    StripNone(text);
    ClockRoundTrip(w.start);
    ClockRoundTrip(w.end);
  }

  lemma LeadingSelectorFound(sel: string, range: string)
    requires SelectorText(sel) && range != [] && IsDigit(range[0])
    ensures LeadingSelector(sel + " " + range) == Some((sel, range))
  {
    var text := sel + " " + range;
    SelectorTextFacts(sel);
    assert !HasDigit(sel + " ");
    FirstDigitAfter(sel + " ", range);
    assert text == (sel + " ") + range;
    assert text[..|sel| + 1] == sel + " ";
    assert text[|sel| + 1..] == range;
  }

  lemma SegmentText(sel: string, range: string)
    requires SelectorText(sel) && range != [] && IsDigit(range[0]) && IsDigit(range[|range| - 1])
    requires forall i | 0 <= i < |range| :: SegmentChar(range[i])
    ensures var text := sel + " " + range;
            Dashes(text) == text && Strip(text) == text && HasDigit(text)
  {
    var text := sel + " " + range;
    DashesKept(text);
    assert text[0] == sel[0] && text[|text| - 1] == range[|range| - 1];
    StripNone(text);
    assert IsDigit(text[|sel| + 1]);
  }

  lemma SegmentTaken(days: set<int>, w: Window)
    requires days != {} && days < ALL_DAYS && InDay(w)
    ensures var text := FormatDaySelector(days) + " " + FormatWindow(w);
            Dashes(text) == text && Strip(text) == text && TakeSelector(text) == (days, FormatWindow(w))
  {
    var sel, range := FormatDaySelector(days), FormatWindow(w);
    SelectorRoundTrip(days);
    RangeText(w);
    LeadingSelectorFound(sel, range);
    SegmentText(sel, range);
    hide ParseDaySelector, FormatDaySelector, FormatWindow, LeadingSelector, Dashes, Strip, SelectorText, Parts;
  }

  /** A range is read from what its selector leaves, and from nothing else. */
  lemma RangeAfterSelector(a: string, b: string)
    requires TakeSelector(Dashes(Strip(a))).1 == TakeSelector(Dashes(Strip(b))).1
    ensures ParseOneRange(a) == ParseOneRange(b)
  {
    hide TakeSelector, Dashes, Strip, ParseTime, Find;
  }

  /** A rendered segment is read as exactly its days and its window. */
  lemma SegmentRoundTrip(days: set<int>, w: Window)
    requires days != {} && days < ALL_DAYS && InDay(w) && w.start < w.end
    ensures var text := FormatDaySelector(days) + " " + FormatWindow(w);
            && SegmentDays(text) == days && SegmentRange(text) == Ok(w) && ParseOneRange(text) == Ok(w)
  {
    hide FormatDaySelector, FormatWindow, TakeSelector, Dashes, ParseOneRange, Strip, InDay, Find, FormatClock;
    var text, range := FormatDaySelector(days) + " " + FormatWindow(w), FormatWindow(w);
    SegmentTaken(days, w);
    BareRangeRoundTrip(w);
    RangeText(w);
    StripNone(range);
    RangeAfterSelector(text, range);
  }

  // ----- whole specifications --------------------------------------------------------

  /** One rendered segment: its days and its window. */
  datatype Item = Item(days: set<int>, w: Window)

  ghost predicate GoodItem(it: Item) {
    it.days != {} && it.days <= ALL_DAYS && InDay(it.w) && it.w.start < it.w.end
  }

  ghost predicate GoodItems(items: seq<Item>) {
    forall i | 0 <= i < |items| :: GoodItem(items[i])
  }

  function ItemText(it: Item): string {
    if it.days == ALL_DAYS then FormatWindow(it.w) else FormatDaySelector(it.days) + " " + FormatWindow(it.w)
  }

  function Texts(items: seq<Item>): seq<string> {
    if items == [] then [] else [ItemText(items[0])] + Texts(items[1..])
  }

  function ItemWindows(items: seq<Item>): seq<Window> {
    if items == [] then [] else [items[0].w] + ItemWindows(items[1..])
  }

  /** The windows the items give one day, in order. */
  function DayItems(items: seq<Item>, d: int): seq<Window> {
    if items == [] then []
    else (if d in items[0].days then [items[0].w] else []) + DayItems(items[1..], d)
  }

  /** A chunk that only names days is held back for the next one. */
  lemma AssembleSelector(p: string, tail: string, blank: string, pending: string, rest: seq<string>)
    requires Clean(p) && ParseDaySelector(p) != {} && (blank == "" || blank == " ")
    ensures Assemble(SplitOn(blank + p + [','] + tail, ',') + rest, pending)
         == Assemble(SplitOn(tail, ',') + rest, WithPending(pending, p))
  {
    hide ParseDaySelector, SplitOn, Strip, HasDigit, IsSpace, IsAlpha;
    CleanFacts(p);
    SplitConcat(blank + p, tail, ',');
    SplitNone(blank + p, ',');
    StripLeadingBlank(p);
    assert "" + p == p;
    var chunks := SplitOn(blank + p + [','] + tail, ',') + rest;
    assert chunks == [blank + p] + (SplitOn(tail, ',') + rest);
    assert chunks[1..] == SplitOn(tail, ',') + rest;
  }

  /** A range without commas, a digit at either end. */
  predicate RangeChunk(range: string) {
    range != [] && ',' !in range && IsDigit(range[0]) && IsDigit(range[|range| - 1])
  }

  lemma AssembleLastPart(p: string, range: string, blank: string, pending: string, rest: seq<string>)
    requires Clean(p) && RangeChunk(range) && (blank == "" || blank == " ")
    ensures var text := p + " " + range;
            Assemble(SplitOn(blank + text, ',') + rest, pending)
            == Prepend([WithPending(pending, text)], Assemble(rest, []))
  {
    hide Assemble, SplitOn, Strip, IsSpace;
    var text := p + " " + range;
    CleanFacts(p);
    assert text[|p| + 1] == range[0];
    DigitShows(range[|range| - 1]);
    AssembleLast(text, blank, pending, rest);
  }

  lemma PendingJoins(pending: string, p: string, tail: string)
    requires p != []
    ensures WithPending(WithPending(pending, p), tail) == WithPending(pending, p + [','] + tail)
  {
  }

  lemma {:induction false} AssembleParts(
    parts: seq<string>, range: string, blank: string, pending: string, rest: seq<string>)
    requires Parts(parts) && RangeChunk(range) && (blank == "" || blank == " ")
    ensures var text := Join(",", parts) + " " + range;
            Assemble(SplitOn(blank + text, ',') + rest, pending)
            == Prepend([WithPending(pending, text)], Assemble(rest, []))
    decreases |parts|
  {
    hide ParseDaySelector, Assemble, SplitOn, RangeChunk, WithPending;
    var p, text := parts[0], Join(",", parts) + " " + range;
    if |parts| == 1 {
      AssembleLastPart(p, range, blank, pending, rest);
    } else {
      var tail := Join(",", parts[1..]) + " " + range;
      assert text == p + [','] + tail;
      assert blank + text == blank + p + [','] + tail;
      AssembleSelector(p, tail, blank, pending, rest);
      AssembleParts(parts[1..], range, "", WithPending(pending, p), rest);
      assert "" + tail == tail;
      PendingJoins(pending, p, tail);
    }
  }

  /** A comma-free chunk with a digit in it ends a segment. */
  lemma AssembleLast(text: string, blank: string, pending: string, rest: seq<string>)
    requires blank == "" || blank == " "
    requires ',' !in text && HasDigit(text) && !IsSpace(text[0]) && !IsSpace(text[|text| - 1])
    ensures Assemble(SplitOn(blank + text, ',') + rest, pending)
         == Prepend([WithPending(pending, text)], Assemble(rest, []))
  {
    SplitNone(blank + text, ',');
    StripLeadingBlank(text);
    StripNone(text);
    assert "" + text == text;
    var chunks := SplitOn(blank + text, ',') + rest;
    assert chunks == [blank + text] + rest;
    assert chunks[1..] == rest;
  }

  lemma AssembleItem(it: Item, blank: string, rest: seq<string>)
    requires GoodItem(it) && (blank == "" || blank == " ")
    ensures Assemble(SplitOn(blank + ItemText(it), ',') + rest, [])
         == Prepend([ItemText(it)], Assemble(rest, []))
  {
    hide Assemble, Join, ParseDaySelector, FormatDaySelector, InDay, FormatClock, HasDigit, FindRun, DayNames,
      Ordered, SpanDays;
    RangeText(it.w);
    if it.days == ALL_DAYS {
      AssembleLast(ItemText(it), blank, [], rest);
    } else {
      SelectorRoundTrip(it.days);
      AssembleParts(PartsOf(it.days), FormatWindow(it.w), blank, [], rest);
    }
  }

  lemma {:induction false} AssembleItems(items: seq<Item>, blank: string)
    requires items != [] && GoodItems(items) && (blank == "" || blank == " ")
    ensures Assemble(SplitOn(blank + Join(", ", Texts(items)), ','), []) == Ok(Texts(items))
    decreases |items|
  {
    hide ItemText;
    hide GoodItem;
    var text, rest := ItemText(items[0]), items[1..];
    if rest == [] {
      AssembleItem(items[0], blank, []);
      assert SplitOn(blank + text, ',') + [] == SplitOn(blank + text, ',');
    } else {
      AssembleItems(rest, " ");
      JoinCons(", ", text, Texts(rest));
      var tail := " " + Join(", ", Texts(rest));
      assert blank + Join(", ", Texts(items)) == (blank + text) + [','] + tail;
      SplitConcat(blank + text, tail, ',');
      AssembleItem(items[0], blank, SplitOn(tail, ','));
    }
  }

  lemma ItemTextShape(it: Item)
    requires GoodItem(it)
    ensures var t := ItemText(it);
            && t != [] && !IsSpace(t[0]) && !IsSpace(t[|t| - 1])
            && forall i | 0 <= i < |t| :: SegmentChar(t[i])
  {
    hide ParseDaySelector, FormatDaySelector, PartsOf, FormatClock, Clean;
    RangeText(it.w);
    if it.days != ALL_DAYS {
      SelectorRoundTrip(it.days);
    }
  }

  lemma SeparatorChars()
    ensures forall i | 0 <= i < 2 :: SegmentChar(", "[i])
  {
  }

  lemma {:induction false} JoinedShape(items: seq<Item>)
    requires items != [] && GoodItems(items)
    ensures var t := Join(", ", Texts(items));
            && t != [] && !IsSpace(t[0]) && !IsSpace(t[|t| - 1])
            && forall i | 0 <= i < |t| :: SegmentChar(t[i])
  {
    hide ItemText, GoodItem, IsSpace, SegmentChar;
    ItemTextShape(items[0]);
    SeparatorChars();
    if |items| > 1 {
      JoinedShape(items[1..]);
      JoinCons(", ", ItemText(items[0]), Texts(items[1..]));
    }
  }

  lemma SpecTextKept(s: string)
    requires s != [] && !IsSpace(s[0]) && !IsSpace(s[|s| - 1])
    requires forall i | 0 <= i < |s| :: SegmentChar(s[i])
    ensures SpecText(s) == s
  {
    ReplaceAbsent(s, ';', ',');
    ReplaceAbsent(s, '\n', ',');
    StripNone(s);
  }

  /** The segments of a rendered list of items are the items' own texts. */
  lemma SegmentsOfItems(items: seq<Item>)
    requires items != [] && GoodItems(items)
    ensures var s := Join(", ", Texts(items));
            SpecText(s) == s && s != [] && SegmentsOf(s) == Ok(Texts(items))
  {
    hide ItemText, GoodItem, Assemble, SplitOn;
    var s := Join(", ", Texts(items));
    JoinedShape(items);
    SpecTextKept(s);
    AssembleItems(items, "");
    hide SpecText, Join, Texts;
    assert "" + s == s;
  }

  lemma ItemRange(it: Item)
    requires GoodItem(it)
    ensures SegmentDays(ItemText(it)) == it.days && SegmentRange(ItemText(it)) == Ok(it.w)
    ensures ParseOneRange(ItemText(it)) == Ok(it.w)
  {
    hide ParseDaySelector, FormatDaySelector, ParseOneRange, TakeSelector, FormatWindow;
    if it.days == ALL_DAYS {
      BareRangeRoundTrip(it.w);
    } else {
      SegmentRoundTrip(it.days, it.w);
    }
  }

  lemma {:induction false} RangesOfItems(items: seq<Item>)
    requires GoodItems(items)
    ensures ParseRanges(Texts(items)) == Ok(ItemWindows(items))
  {
    hide ParseOneRange, ItemText, GoodItem;
    if items != [] {
      ItemRange(items[0]);
      RangesOfItems(items[1..]);
    }
  }

  /** The week after folding the items into it. */
  function AddItems(week: Week, items: seq<Item>): Week {
    seq(7, d requires 0 <= d < 7 => week[d] + DayItems(items, d))
  }

  lemma AddItemsStep(week: Week, items: seq<Item>)
    requires items != []
    ensures AddItems(Extend(week, items[0].days, items[0].w), items[1..]) == AddItems(week, items)
  {
    var next := Extend(week, items[0].days, items[0].w);
    forall d | 0 <= d < 7 ensures next[d] + DayItems(items[1..], d) == week[d] + DayItems(items, d) {
      var head := if d in items[0].days then [items[0].w] else [];
      assert next[d] == week[d] + head;
      assert (week[d] + head) + DayItems(items[1..], d) == week[d] + (head + DayItems(items[1..], d));
    }
  }

  lemma {:induction false} WeeklyOfItems(items: seq<Item>, week: Week)
    requires GoodItems(items)
    ensures WeeklyFrom(Texts(items), Some(week)) == Ok(Some(AddItems(week, items)))
    decreases |items|
  {
    hide SegmentDays, SegmentRange, ItemText;
    if items == [] {
      assert forall d | 0 <= d < 7 :: week[d] + [] == week[d];
      assert AddItems(week, items) == week;
    } else {
      var it := items[0];
      ItemRange(it);
      assert it == Item(it.days, it.w) && WeeklyStep(Some(week), it.days, it.w) == Some(Extend(week, it.days, it.w));
      WeeklyOfItems(items[1..], Extend(week, it.days, it.w));
      AddItemsStep(week, items);
      hide AddItems, Extend, GoodItem;
    }
  }

  /** A list of items none of which names all days starts the weekly structure. */
  lemma WeeklyFromNothing(items: seq<Item>)
    requires items != [] && GoodItems(items) && items[0].days != ALL_DAYS
    ensures WeeklyFrom(Texts(items), None) == Ok(Some(AddItems(EmptyWeek(), items)))
  {
    hide SegmentDays, SegmentRange, ItemText;
    ItemRange(items[0]);
    WeeklyOfItems(items, EmptyWeek());
    assert WeeklyStep(None, items[0].days, items[0].w) == WeeklyStep(Some(EmptyWeek()), items[0].days, items[0].w);
  }

  lemma {:induction false} WeeklyOfBareItems(items: seq<Item>)
    requires GoodItems(items) && forall i | 0 <= i < |items| :: items[i].days == ALL_DAYS
    ensures WeeklyFrom(Texts(items), None) == Ok(None)
    decreases |items|
  {
    hide SegmentDays, SegmentRange, ItemText;
    if items != [] {
      ItemRange(items[0]);
      WeeklyOfBareItems(items[1..]);
    }
  }

  // ----- the items of a rendered week ------------------------------------------------

  ghost predicate NormalWeek(week: Week) {
    forall d | 0 <= d < 7 :: IsNormal(week[d])
  }

  function ItemsFor(days: set<int>, ws: seq<Window>): seq<Item> {
    if ws == [] then [] else [Item(days, ws[0])] + ItemsFor(days, ws[1..])
  }

  function DayGroup(week: Week, d: int): seq<Item>
    requires 0 <= d < 7
  {
    if FirstOfGroup(week, d) then ItemsFor(GroupDays(week, week[d]), week[d]) else []
  }

  function ItemsBelow(week: Week, n: nat): seq<Item>
    requires n <= 7
  {
    if n == 0 then [] else ItemsBelow(week, n - 1) + DayGroup(week, n - 1)
  }

  lemma NoTexts()
    ensures Texts([]) == []
  {
  }

  lemma TextsOf(items: seq<Item>)
    requires items != []
    ensures Texts(items) == [ItemText(items[0])] + Texts(items[1..])
  {
    hide ItemText;
  }

  lemma {:induction false} TextsConcat(a: seq<Item>, b: seq<Item>)
    ensures Texts(a + b) == Texts(a) + Texts(b)
  {
    hide ItemText, Texts;
    NoTexts();
    if a == [] {
      assert a + b == b;
    } else {
      TextsConcat(a[1..], b);
      assert (a + b)[1..] == a[1..] + b;
      TextsOf(a);
      TextsOf(a + b);
      assert ([ItemText(a[0])] + Texts(a[1..])) + Texts(b) == [ItemText(a[0])] + (Texts(a[1..]) + Texts(b));
    }
  }

  lemma {:induction false} DayItemsConcat(a: seq<Item>, b: seq<Item>, d: int)
    ensures DayItems(a + b, d) == DayItems(a, d) + DayItems(b, d)
  {
    if a == [] {
      assert a + b == b;
    } else {
      DayItemsConcat(a[1..], b, d);
      var head := if d in a[0].days then [a[0].w] else [];
      assert (a + b)[0] == a[0] && (a + b)[1..] == a[1..] + b;
      assert DayItems(a + b, d) == head + DayItems(a[1..] + b, d);
      var x, y := DayItems(a[1..], d), DayItems(b, d);
      assert head + (x + y) == (head + x) + y;
    }
  }

  lemma {:induction false} ItemsForFacts(days: set<int>, ws: seq<Window>)
    requires days != {} && days <= ALL_DAYS
    requires forall i | 0 <= i < |ws| :: InDay(ws[i]) && ws[i].start < ws[i].end
    ensures GoodItems(ItemsFor(days, ws)) && |ItemsFor(days, ws)| == |ws|
    ensures ItemWindows(ItemsFor(days, ws)) == ws
    ensures forall i | 0 <= i < |ws| :: ItemsFor(days, ws)[i] == Item(days, ws[i])
    ensures forall d :: DayItems(ItemsFor(days, ws), d) == if d in days then ws else []
  {
    if ws != [] {
      ItemsForFacts(days, ws[1..]);
    }
  }

  lemma {:induction false} PrefixedTexts(days: set<int>, ws: seq<Window>)
    requires days != ALL_DAYS
    ensures Prefixed(FormatDaySelector(days), ws) == Texts(ItemsFor(days, ws))
  {
    hide FormatDaySelector, FormatWindow;
    if ws != [] {
      PrefixedTexts(days, ws[1..]);
      assert ItemsFor(days, ws)[1..] == ItemsFor(days, ws[1..]);
    }
  }

  lemma {:induction false} BareTexts(ws: seq<Window>)
    ensures WindowTexts(ws) == Texts(ItemsFor(ALL_DAYS, ws))
  {
    hide FormatDaySelector, FormatWindow;
    if ws != [] {
      BareTexts(ws[1..]);
      assert ItemsFor(ALL_DAYS, ws)[1..] == ItemsFor(ALL_DAYS, ws[1..]);
    }
  }

  predicate AllEqual(week: Week) { forall d | 0 <= d < 7 :: week[d] == week[0] }

  lemma GroupFacts(week: Week, d: int)
    requires 0 <= d < 7
    ensures d in GroupDays(week, week[d]) && GroupDays(week, week[d]) <= ALL_DAYS
    ensures GroupDays(week, week[d]) == ALL_DAYS <==> AllEqual(week)
  {
    var days := GroupDays(week, week[d]);
    if days == ALL_DAYS {
      forall e | 0 <= e < 7 ensures week[e] == week[0] {
        assert e in ALL_DAYS && 0 in ALL_DAYS;
      }
    }
  }

  lemma {:induction false} DayItemIsItem(items: seq<Item>, w: Window, d: int)
    requires w in DayItems(items, d)
    ensures w in ItemWindows(items)
  {
    if w != items[0].w {
      DayItemIsItem(items[1..], w, d);
    }
  }

  lemma {:induction false} ItemHasADay(items: seq<Item>, w: Window) returns (d: int)
    requires GoodItems(items) && w in ItemWindows(items)
    ensures 0 <= d < 7 && w in DayItems(items, d)
  {
    if w == items[0].w {
      assert GoodItem(items[0]);
      d :| d in items[0].days;
      assert d in ALL_DAYS;
      assert DayItems(items, d)[0] == w;
    } else {
      d := ItemHasADay(items[1..], w);
    }
  }

  lemma GoodConcat(a: seq<Item>, b: seq<Item>)
    requires GoodItems(a) && GoodItems(b)
    ensures GoodItems(a + b)
  {
  }

  lemma DayGroupItems(week: Week, d: int, e: int)
    requires NormalWeek(week) && 0 <= d < 7 && 0 <= e < 7
    ensures GoodItems(DayGroup(week, d))
    ensures DayItems(DayGroup(week, d), e)
         == if FirstOfGroup(week, d) && week[e] == week[d] then week[e] else []
    ensures !AllEqual(week) ==> forall i | 0 <= i < |DayGroup(week, d)| :: DayGroup(week, d)[i].days != ALL_DAYS
  {
    hide AllEqual, FirstOfGroup, ItemsFor, ItemWindows, GoodItem;
    assert IsNormal(week[d]);
    if FirstOfGroup(week, d) {
      GroupFacts(week, d);
      ItemsForFacts(GroupDays(week, week[d]), week[d]);
    }
  }

  lemma DayGroupTexts(week: Week, d: int)
    requires 0 <= d < 7 && !AllEqual(week)
    ensures Texts(DayGroup(week, d)) == DaySegments(week, d)
  {
    hide FormatDaySelector, AllEqual, ItemText;
    if FirstOfGroup(week, d) && week[d] != [] {
      GroupFacts(week, d);
      SelectorRoundTrip(GroupDays(week, week[d]));
      PrefixedTexts(GroupDays(week, week[d]), week[d]);
    }
  }

  /** The first day of a day's group has been reached. */
  ghost predicate GroupBelow(week: Week, n: int, e: int)
    requires n <= 7 && 0 <= e < 7
  {
    exists d :: 0 <= d < n && FirstOfGroup(week, d) && week[d] == week[e]
  }

  lemma {:induction false} ItemsBelowGood(week: Week, n: nat)
    requires NormalWeek(week) && n <= 7
    ensures GoodItems(ItemsBelow(week, n))
    ensures !AllEqual(week) ==> forall i | 0 <= i < |ItemsBelow(week, n)| :: ItemsBelow(week, n)[i].days != ALL_DAYS
  {
    hide DayGroup, NormalWeek, GoodItem, AllEqual, FirstOfGroup;
    if n > 0 {
      ItemsBelowGood(week, n - 1);
      DayGroupItems(week, n - 1, 0);
      GoodConcat(ItemsBelow(week, n - 1), DayGroup(week, n - 1));
    }
  }

  lemma {:induction false} ItemsBelowDay(week: Week, n: nat, e: int)
    requires NormalWeek(week) && n <= 7 && 0 <= e < 7
    ensures DayItems(ItemsBelow(week, n), e) == if GroupBelow(week, n, e) then week[e] else []
  {
    hide DayGroup, NormalWeek, GoodItems, AllEqual, FirstOfGroup, GroupBelow;
    if n > 0 {
      ItemsBelowDay(week, n - 1, e);
      DayGroupItems(week, n - 1, e);
      DayItemsConcat(ItemsBelow(week, n - 1), DayGroup(week, n - 1), e);
      GroupBelowStep(week, n, e);
    } else {
      NoGroupBelow(week, e);
    }
  }

  lemma NoGroupBelow(week: Week, e: int)
    requires 0 <= e < 7
    ensures !GroupBelow(week, 0, e)
  {
  }

  lemma {:induction false} ItemsBelowTexts(week: Week, n: nat)
    requires n <= 7 && !AllEqual(week)
    ensures Texts(ItemsBelow(week, n)) == SegmentsBelow(week, n)
  {
    hide DayGroup, DaySegments, AllEqual, ItemText;
    if n > 0 {
      ItemsBelowTexts(week, n - 1);
      DayGroupTexts(week, n - 1);
      TextsConcat(ItemsBelow(week, n - 1), DayGroup(week, n - 1));
    }
  }

  lemma ItemsBelowFacts(week: Week, n: nat, e: int)
    requires NormalWeek(week) && n <= 7 && 0 <= e < 7
    ensures GoodItems(ItemsBelow(week, n))
    ensures DayItems(ItemsBelow(week, n), e) == if GroupBelow(week, n, e) then week[e] else []
    ensures !AllEqual(week) ==>
              && Texts(ItemsBelow(week, n)) == SegmentsBelow(week, n)
              && forall i | 0 <= i < |ItemsBelow(week, n)| :: ItemsBelow(week, n)[i].days != ALL_DAYS
  {
    hide ItemsBelow, DayItems, Texts, SegmentsBelow, GoodItems, AllEqual, NormalWeek, GroupBelow;
    ItemsBelowGood(week, n);
    ItemsBelowDay(week, n, e);
    if !AllEqual(week) { ItemsBelowTexts(week, n); }
  }

  lemma GroupBelowStep(week: Week, n: nat, e: int)
    requires 0 < n <= 7 && 0 <= e < 7
    ensures GroupBelow(week, n, e)
       <==> GroupBelow(week, n - 1, e) || (FirstOfGroup(week, n - 1) && week[n - 1] == week[e])
    ensures FirstOfGroup(week, n - 1) && week[n - 1] == week[e] ==> !GroupBelow(week, n - 1, e)
  {
  }

  lemma {:induction false} EveryGroupHasAFirst(week: Week, e: int)
    requires 0 <= e < 7
    ensures GroupBelow(week, WEEK_LENGTH, e)
    decreases e
  {
    if !FirstOfGroup(week, e) {
      var d :| 0 <= d < e && week[d] == week[e];
      EveryGroupHasAFirst(week, d);
      var f :| 0 <= f < 7 && FirstOfGroup(week, f) && week[f] == week[d];
      assert week[f] == week[e];
    }
  }

  /** The items of a week, and what they give each day. */
  function ItemsOf(week: Week): seq<Item> {
    if AllEqual(week) then ItemsFor(ALL_DAYS, week[0]) else ItemsBelow(week, WEEK_LENGTH)
  }

  lemma EqualDayItems(week: Week, e: int)
    requires NormalWeek(week) && AllEqual(week) && 0 <= e < 7
    ensures GoodItems(ItemsOf(week)) && DayItems(ItemsOf(week), e) == week[e]
    ensures ItemWindows(ItemsOf(week)) == week[e]
    ensures forall i | 0 <= i < |ItemsOf(week)| :: ItemsOf(week)[i].days == ALL_DAYS
  {
    hide GoodItems, DayItems, ItemWindows, ItemsFor, GoodItem, DayGroup;
    assert IsNormal(week[0]) && week[e] == week[0] && e in ALL_DAYS;
    ItemsForFacts(ALL_DAYS, week[0]);
  }

  lemma ItemsOfFacts(week: Week, e: int)
    requires NormalWeek(week) && 0 <= e < 7
    ensures GoodItems(ItemsOf(week)) && DayItems(ItemsOf(week), e) == week[e]
    ensures AllEqual(week) ==>
              && ItemWindows(ItemsOf(week)) == week[e]
              && forall i | 0 <= i < |ItemsOf(week)| :: ItemsOf(week)[i].days == ALL_DAYS
    ensures !AllEqual(week) ==> forall i | 0 <= i < |ItemsOf(week)| :: ItemsOf(week)[i].days != ALL_DAYS
  {
    if AllEqual(week) {
      EqualDayItems(week, e);
    } else {
      ItemsBelowFacts(week, WEEK_LENGTH, e);
      EveryGroupHasAFirst(week, e);
      hide NormalWeek, GoodItems, AllEqual, GroupBelow, ItemsBelow, ItemsFor, DayItems;
    }
  }

  lemma {:induction false} SegmentsOfEqualDays(week: Week, n: nat)
    requires AllEqual(week) && 0 < n <= 7
    ensures SegmentsBelow(week, n) == GroupSegments(ALL_DAYS, week[0])
  {
    hide GroupSegments;
    if n == 1 {
      assert FirstOfGroup(week, 0);
      GroupFacts(week, 0);
      assert SegmentsBelow(week, 0) == [];
    } else {
      SegmentsOfEqualDays(week, n - 1);
      assert week[0] == week[n - 1];
      assert !FirstOfGroup(week, n - 1);
    }
  }

  lemma AllDaysIsDaily()
    ensures FormatDaySelector(ALL_DAYS) == "daily"
  {
    OrderedAll(WEEK_LENGTH);
  }

  lemma {:induction false} OrderedAll(n: nat)
    requires n <= 7
    ensures |OrderedBelow(ALL_DAYS, n)| == n
  {
    if n > 0 {
      OrderedAll(n - 1);
    }
  }

  /** The rendered week is the join of its items' texts. */
  lemma FormattedWeekText(week: Week)
    requires NormalWeek(week)
    ensures FormattedWeek(week) == Join(", ", Texts(ItemsOf(week)))
  {
    hide FormatDaySelector, ItemText, FormatWindow;
    if AllEqual(week) {
      SegmentsOfEqualDays(week, WEEK_LENGTH);
      AllDaysIsDaily();
      BareTexts(week[0]);
    } else {
      ItemsBelowFacts(week, WEEK_LENGTH, 0);
    }
  }

  lemma EmptyItems(week: Week)
    requires NormalWeek(week)
    ensures ItemsOf(week) == [] <==> forall d | 0 <= d < 7 :: week[d] == []
  {
    forall d | 0 <= d < 7 ensures DayItems(ItemsOf(week), d) == week[d] {
      ItemsOfFacts(week, d);
    }
    if ItemsOf(week) != [] {
      ItemsOfFacts(week, 0);
      var it := ItemsOf(week)[0];
      var d :| d in it.days;
      assert d in ALL_DAYS;
      assert it.w in DayItems(ItemsOf(week), d);
    }
  }

  /** Both parsers on a rendered week: the every-day view sees every item's window,
      the weekly view each day's own list. */
  lemma ParseFormatted(week: Week)
    requires NormalWeek(week)
    ensures var s := FormattedWeek(week);
            && RawWindows(s) == Ok(ItemWindows(ItemsOf(week)))
            && ParsedWeekly(s) == Ok(if AllEqual(week) then None else Some(week))
  {
    hide ItemsOf, FormattedWeek, NormalWeek, GoodItems, WeeklyFrom, ParseRanges, SegmentsOf, NormalizedWeek,
      Replace, ItemText;
    var items := ItemsOf(week);
    FormattedWeekText(week);
    EmptyItems(week);
    ItemsOfFacts(week, 0);
    if items != [] {
      SegmentsOfItems(items);
      RangesOfItems(items);
      if AllEqual(week) {
        WeeklyOfBareItems(items);
      } else {
        WeeklyFromNothing(items);
        WeekIsKept(week);
      }
    } else {
      assert SpecText([]) == [];
    }
  }

  lemma CollectedWeek(week: Week)
    requires NormalWeek(week)
    ensures AddItems(EmptyWeek(), ItemsOf(week)) == week
  {
    var items := ItemsOf(week);
    forall d | 0 <= d < 7 ensures DayItems(items, d) == week[d] {
      ItemsOfFacts(week, d);
    }
    hide ItemsOf, DayItems, NormalWeek;
    assert forall d | 0 <= d < 7 :: EmptyWeek()[d] + DayItems(items, d) == week[d];
  }

  lemma WeekIsKept(week: Week)
    requires NormalWeek(week)
    ensures NormalizedWeek(AddItems(EmptyWeek(), ItemsOf(week))) == week
  {
    CollectedWeek(week);
    forall d | 0 <= d < 7 ensures Normalized(week[d]) == week[d] {
      NormalIsFixed(week[d]);
    }
    hide AddItems, ItemsOf, Normalized, NormalWeek;
  }

  lemma EveryDayView(week: Week)
    requires NormalWeek(week) && AllEqual(week)
    ensures ParsedWindows(FormattedWeek(week)) == Ok(week[0])
  {
    ParseFormatted(week);
    ItemsOfFacts(week, 0);
    NormalIsFixed(week[0]);
    hide RawWindows, FormattedWeek, ItemsOf, Normalized;
  }

  /** Resolving a weekday against both views of a specification. */
  lemma ResolvedDay(weekly: Option<Week>, flat: seq<Window>, d: int)
    requires 0 <= d < 7
    ensures WindowsForDay(weekly, Some(d), flat) == if weekly.None? then flat else weekly.value[d]
  {
  }

  lemma BothViews(week: Week)
    requires NormalWeek(week)
    ensures ParsedWindows(FormattedWeek(week)).Ok?
    ensures ParsedWeekly(FormattedWeek(week)) == Ok(if AllEqual(week) then None else Some(week))
    ensures AllEqual(week) ==> ParsedWindows(FormattedWeek(week)).value == week[0]
  {
    ParseFormatted(week);
    if AllEqual(week) {
      EveryDayView(week);
    }
    hide FormattedWeek, RawWindows, ParsedWeekly, ItemsOf, Normalized, NormalWeek;
  }

  /** The renderer's output is read back, by both parsers, to the schedule it was
      written from: every weekday resolves to its own windows. Only a week whose
      days all agree is written without selectors. */
  lemma WeeklyRoundTrip(week: Week)
    requires NormalWeek(week)
    ensures var s := FormattedWeek(week);
            && ParsedWindows(s).Ok? && ParsedWeekly(s).Ok?
            && (ParsedWeekly(s).value.None? <==> AllEqual(week))
            && forall d | 0 <= d < 7 ::
                 WindowsForDay(ParsedWeekly(s).value, Some(d), ParsedWindows(s).value) == week[d]
  {
    BothViews(week);
    hide FormattedWeek, ParsedWeekly, ParsedWindows, NormalWeek, WindowsForDay;
    var s := FormattedWeek(week);
    forall d | 0 <= d < 7
      ensures WindowsForDay(ParsedWeekly(s).value, Some(d), ParsedWindows(s).value) == week[d]
    {
      ResolvedDay(ParsedWeekly(s).value, ParsedWindows(s).value, d);
    }
  }

  lemma RenderedWindows(week: Week, w: Window)
    requires NormalWeek(week)
    ensures w in ItemWindows(ItemsOf(week)) <==> exists d :: 0 <= d < 7 && w in week[d]
  {
    var items := ItemsOf(week);
    forall d | 0 <= d < 7 ensures DayItems(items, d) == week[d] {
      ItemsOfFacts(week, d);
    }
    ItemsOfFacts(week, 0);
    hide ItemsOf, NormalWeek;
    if d :| 0 <= d < 7 && w in week[d] {
      DayItemIsItem(items, w, d);
    }
    if w in ItemWindows(items) {
      var d := ItemHasADay(items, w);
      assert w in week[d];
    }
  }

  /** Some window of the week is shorter than a planning step. */
  ghost predicate HasShortWindow(week: Week) {
    exists d, w :: 0 <= d < 7 && w in week[d] && w.end - w.start < MIN_WINDOW_MINUTES
  }

  lemma ShortWindows(week: Week, windows: seq<Window>)
    requires NormalWeek(week)
    requires forall w :: w in windows <==> exists d :: 0 <= d < 7 && w in week[d]
    ensures HasShortWindow(week) <==> exists w | w in windows :: WindowMinutes(w) < MIN_WINDOW_MINUTES
  {
    forall d, w | 0 <= d < 7 && w in week[d] ensures WindowMinutes(w) == w.end - w.start {
      assert IsNormal(week[d]);
    }
    if HasShortWindow(week) {
      var d, w :| 0 <= d < 7 && w in week[d] && w.end - w.start < MIN_WINDOW_MINUTES;
      assert w in windows && WindowMinutes(w) < MIN_WINDOW_MINUTES;
    }
    if w :| w in windows && WindowMinutes(w) < MIN_WINDOW_MINUTES {
      var d :| 0 <= d < 7 && w in week[d];
      assert w.end - w.start < MIN_WINDOW_MINUTES;
    }
  }

  /** The configuration form accepts a rendered week exactly when each of its
      windows lasts at least one planning step. */
  lemma RenderedVerdict(week: Week)
    requires NormalWeek(week)
    ensures SpecProblem(FormattedWeek(week)) == if HasShortWindow(week) then TooShort else Accepted
  {
    var windows := ItemWindows(ItemsOf(week));
    ParseFormatted(week);
    forall w ensures w in windows <==> exists d :: 0 <= d < 7 && w in week[d] {
      RenderedWindows(week, w);
    }
    ShortWindows(week, windows);
  }
}
