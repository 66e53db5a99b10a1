/** What the words, times and ranges of the grammar mean, apart from how they are rendered. */
module GrammarMeaning {
  import opened Options
  import opened Text
  import opened Windows
  import opened WindowGrammar
  import opened GrammarRoundTrip
  import GrammarLaws

  // ----- characters ---------------------------------------------------------------------

  /** The blanks, the digits, the letters, and the small letter of a capital, by their codes. */
  lemma CharactersAre(c: char)
    ensures IsSpace(c) <==> c as int in {9, 10, 11, 12, 13, 28, 29, 30, 31, 32}
    ensures IsDigit(c) <==> 48 <= c as int <= 57
    ensures IsAlpha(c) <==> 65 <= c as int <= 90 || 97 <= c as int <= 122
    ensures LowerChar(c) as int == if 65 <= c as int <= 90 then c as int + 32 else c as int
  {
  }

  // ----- which days a selector means -------------------------------------------------------

  const DAY_NAMES: seq<string> := ["Mo", "Tu", "We", "Th", "Fr", "Sa", "Su"]

  lemma NamesAre(d: int)
    requires 0 <= d < 7
    ensures DayName(d) == DAY_NAMES[d]
  {
  }

  /** The values from one to another on a cycle that starts at `first`, both included. */
  predicate Around(lo: int, hi: int, size: int, first: int, d: int) {
    first <= d < first + size && if lo <= hi then lo <= d <= hi else d >= lo || d <= hi
  }

  lemma Wrapped(x: int, size: int)
    requires -size < x < size
    ensures x % size == if x >= 0 then x else x + size
  {
    if x < 0 {
      assert (x + size) % size == x % size by { Shifted(x, size); }
    }
  }

  lemma Shifted(x: int, size: int)
    requires size > 0
    ensures (x + size) % size == x % size
  {
    var q, r := x / size, x % size;
    assert x + size == (q + 1) * size + r;
    Quotient(x + size, size, q + 1, r);
  }

  lemma Quotient(x: int, size: int, q: int, r: int)
    requires size > 0 && 0 <= r < size && x == q * size + r
    ensures x % size == r
  {
    var k := x / size;
    Remainder(x, size);
    Multiple(q - k, size);
    assert (q - k) * size == q * size - k * size;
  }

  lemma Remainder(x: int, size: int)
    requires size > 0
    ensures x == x / size * size + x % size && 0 <= x % size < size
  {
  }

  lemma Multiple(m: int, size: int)
    requires size > 0
    ensures m > 0 ==> m * size >= size
    ensures m < 0 ==> m * size <= -size
  {
    if m > 0 {
      assert (m - 1) * size >= 0;
    } else if m < 0 {
      assert (-m - 1) * size >= 0;
    }
  }

  /** A cyclic range holds exactly the values from its start round to its end. */
  lemma SpanMeans(lo: int, hi: int, size: int, first: int)
    requires first <= lo < first + size && first <= hi < first + size
    ensures forall d :: d in CyclicSpan(lo, hi, size, first) <==> Around(lo, hi, size, first, d)
  {
    var span := CyclicSpan(lo, hi, size, first);
    Wrapped(hi - lo, size);
    forall d ensures d in span <==> Around(lo, hi, size, first, d) {
      if first <= d < first + size {
        Wrapped(d - lo, size);
        var k := (d - lo) % size;
        SpanAt(lo, size, first, d);
        if k < |span| { assert span[k] == d; }
        if d in span {
          var j :| 0 <= j < |span| && span[j] == d;
          SpanStep(lo, size, first, j);
        }
      }
    }
  }

  lemma SpanAt(lo: int, size: int, first: int, d: int)
    requires first <= lo < first + size && first <= d < first + size
    ensures first + (lo - first + (d - lo) % size) % size == d
  {
    Wrapped(d - lo, size);
    if d >= lo { Wrapped(d - first, size); } else { Shifted(d - first, size); Wrapped(d - first, size); }
  }

  lemma SpanStep(lo: int, size: int, first: int, j: int)
    requires first <= lo < first + size && 0 <= j < size
    ensures (first + (lo - first + j) % size - lo) % size == j
  {
    if lo - first + j < size {
      Wrapped(lo - first + j, size);
      Wrapped(j, size);
    } else {
      Shifted(lo - first + j - size, size);
      Wrapped(lo - first + j - size, size);
      Wrapped(j - size, size);
    }
  }

  /** The days from one to another on the circle of the week, both included. */
  predicate Between(lo: int, hi: int, d: int) {
    0 <= d < 7 && if lo <= hi then lo <= d <= hi else d >= lo || d <= hi
  }

  lemma SpanSet(lo: int, hi: int, d: int)
    ensures d in SpanDays(lo, hi) <==> d in CyclicSpan(lo, hi, 7, 0)
  {
  }

  /** "Mo-Fr" is Monday to Friday, "Sa-Mo" runs through the end of the week. */
  lemma RangeMeans(lo: int, hi: int, d: int)
    requires 0 <= lo < 7 && 0 <= hi < 7
    ensures d in ParseDaySelector(DAY_NAMES[lo] + "-" + DAY_NAMES[hi]) <==> Between(lo, hi, d)
  {
    hide ParseDaySelector, DayName, SpanDays;
    NamesAre(lo);
    NamesAre(hi);
    ParseRange(lo, hi);
    SpanMeans(lo, hi, 7, 0);
    SpanSet(lo, hi, d);
  }

  /** A list means the days it names, in any order. */
  lemma ListMeans(days: seq<int>, d: int)
    requires Weekdays(days)
    ensures d in ParseDaySelector(Join(",", DayNames(days))) <==> d in days
  {
    hide ParseDaySelector, Join, DayNames;
    NamesAreSelectorText(days);
    SelectorTextFacts(Join(",", DayNames(days)));
    ParseList(days);
  }

  /** A token read as a selector, whatever its case and blanks around it. */
  lemma WordRead(token: string)
    ensures var t := Lower(Strip(token));
            && (t in ["daily", "everyday", "all"] ==> ParseDaySelector(token) == {0, 1, 2, 3, 4, 5, 6})
            && (t == "weekdays" ==> ParseDaySelector(token) == {0, 1, 2, 3, 4})
            && (t in ["weekend", "weekends"] ==> ParseDaySelector(token) == {5, 6})
  {
    hide SelectorShape, ListedDays, SpanDays;
  }

  predicate WordMeans(w: string) {
    && (w in ["daily", "everyday", "all"] ==> ParseDaySelector(w) == {0, 1, 2, 3, 4, 5, 6})
    && (w == "weekdays" ==> ParseDaySelector(w) == {0, 1, 2, 3, 4})
    && (w in ["weekend", "weekends"] ==> ParseDaySelector(w) == {5, 6})
  }

  /** The words mean their sets. */
  lemma WordsMean()
    ensures forall w :: WordMeans(w)
  {
    hide ParseDaySelector, Strip, Lower;
    forall w: string ensures WordMeans(w) {
      if w in ["daily", "everyday", "all", "weekdays", "weekend", "weekends"] {
        PlainWord(w);
        WordRead(w);
      }
    }
  }

  lemma PlainWord(w: string)
    requires w in ["daily", "everyday", "all", "weekdays", "weekend", "weekends"]
    ensures Strip(w) == w && Lower(w) == w
  {
    assert forall i | 0 <= i < |w| :: 'a' <= w[i] <= 'z';
    CleanFacts(w);
  }

  /** The names of some weekdays in lower case, as a token is compared. */
  predicate NamesList(text: string, days: seq<int>) { Weekdays(days) && text == TokenList(days) }

  predicate NamesRange(text: string, lo: int, hi: int) {
    0 <= lo < 7 && 0 <= hi < 7 && text == DAY_TOKENS[lo] + ['-'] + DAY_TOKENS[hi]
  }

  lemma {:induction false} ListedAre(tokens: seq<string>)
    requires tokens != [] && ListedDays(tokens) != {}
    ensures exists days :: Weekdays(days) && Tokens(days) == tokens && ListedDays(tokens) == SetOf(days)
  {
    hide IndexBelow;
    var d := TokenIndex(tokens[0]);
    if |tokens| == 1 {
      assert Tokens([d]) == [DAY_TOKENS[d]] + Tokens([d][1..]) && SetOf([d]) == {d};
      assert Weekdays([d]) && Tokens([d]) == tokens;
    } else {
      ListedAre(tokens[1..]);
      var rest :| Weekdays(rest) && Tokens(rest) == tokens[1..] && ListedDays(tokens[1..]) == SetOf(rest);
      var days := [d] + rest;
      assert days[1..] == rest && Tokens(days) == [DAY_TOKENS[d]] + Tokens(rest);
      assert SetOf(days) == {d} + SetOf(rest);
      assert Weekdays(days);
    }
  }

  /** Nothing but the words, two names with a dash between them, and names with commas between
      them is a selector, whatever the case and the blanks; a name that is none makes it none. */
  lemma OnlySelectors(token: string)
    requires ParseDaySelector(token) != {}
    ensures var t := Lower(Strip(token));
            || t in ["daily", "everyday", "all", "weekdays", "weekend", "weekends"]
            || (exists lo, hi :: NamesRange(RemoveSpaces(t), lo, hi) && ParseDaySelector(token) == SpanDays(lo, hi))
            || (exists days :: NamesList(RemoveSpaces(t), days) && ParseDaySelector(token) == SetOf(days))
  {
    hide Strip, SelectorShape, IndexBelow, SpanDays;
    var t := Lower(Strip(token));
    if t !in ["daily", "everyday", "all", "weekdays", "weekend", "weekends"] {
      var bare := RemoveSpaces(t);
      var ends := SplitOn(bare, '-');
      JoinSplit(bare, '-');
      JoinSplit(bare, ',');
      hide RemoveSpaces, Lower;
      if |ends| == 2 {
        assert ends == [ends[0], ends[1]] && bare == ends[0] + ['-'] + ends[1];
        assert NamesRange(bare, TokenIndex(ends[0]), TokenIndex(ends[1]));
      } else {
        ListedAre(SplitOn(bare, ','));
        var days :| Weekdays(days) && Tokens(days) == SplitOn(bare, ',') && ListedDays(SplitOn(bare, ',')) == SetOf(days);
        assert NamesList(bare, days);
      }
    }
  }

  // ----- how days are written -----------------------------------------------------------

  lemma {:induction false} NoEnd(days: set<int>, lo: int, ends: seq<int>, hi: int)
    requires FindEnd(days, lo, ends).None? && hi in ends
    ensures SpanDays(lo, hi) != days
  {
    if hi != ends[0] { NoEnd(days, lo, ends[1..], hi); }
  }

  lemma {:induction false} NoRun(days: set<int>, starts: seq<int>, ends: seq<int>, lo: int, hi: int)
    requires FindRun(days, starts, ends).None? && lo in starts && hi in ends
    ensures SpanDays(lo, hi) != days
  {
    if lo == starts[0] { NoEnd(days, lo, ends, hi); } else { NoRun(days, starts[1..], ends, lo, hi); }
  }

  /** The set is one stretch of the circle of the week. */
  predicate Runs(days: set<int>, lo: int, hi: int) {
    0 <= lo < 7 && 0 <= hi < 7 && (forall d | d in days :: 0 <= d < 7)
    && forall d | 0 <= d < 7 :: d in days <==> Between(lo, hi, d)
  }

  lemma RunsIsSpan(days: set<int>, lo: int, hi: int)
    requires 0 <= lo < 7 && 0 <= hi < 7
    ensures Runs(days, lo, hi) <==> SpanDays(lo, hi) == days
  {
    hide SpanDays, CyclicSpan, Between;
    SpanMeans(lo, hi, 7, 0);
    forall d ensures d in SpanDays(lo, hi) <==> Between(lo, hi, d) {
      SpanSet(lo, hi, d);
      AroundIsBetween(lo, hi, d);
    }
    if Runs(days, lo, hi) {
      forall d ensures d in days <==> d in SpanDays(lo, hi) { AroundIsBetween(lo, hi, d); }
    } else if SpanDays(lo, hi) == days {
      forall d | d in days ensures 0 <= d < 7 { AroundIsBetween(lo, hi, d); }
    }
  }

  lemma AroundIsBetween(lo: int, hi: int, d: int)
    ensures Around(lo, hi, 7, 0, d) <==> Between(lo, hi, d)
    ensures Between(lo, hi, d) ==> 0 <= d < 7
  {
  }

  /** The written form of a set of days: its word if it has one; from first to last when it is
      one stretch of three days or more; otherwise its days in order, by name. */
  lemma SelectorForm(days: set<int>)
    requires days != {} && forall d | d in days :: 0 <= d < 7
    ensures var text, count := FormatDaySelector(days), |Ordered(days)|;
            if days == {0, 1, 2, 3, 4, 5, 6} then text == "daily"
            else if days == {0, 1, 2, 3, 4} then text == "weekdays"
            else if days == {5, 6} then text == "weekend"
            else if count >= 3 && exists lo, hi :: Runs(days, lo, hi)
            then exists lo, hi | 0 <= lo < 7 && 0 <= hi < 7 ::
                   Runs(days, lo, hi) && text == DAY_NAMES[lo] + "-" + DAY_NAMES[hi]
            else text == Join(",", DayNames(Ordered(days)))
  {
    hide DayName, SpanDays, FindRun, OrderedBelow;
    var ordered := Ordered(days);
    OrderedMembers(days, WEEK_LENGTH);
    OrderedSets(days);
    var run := FindRun(days, ordered, ordered);
    if run.Some? {
      RunsIsSpan(days, run.value.0, run.value.1);
      NamesAre(run.value.0);
      NamesAre(run.value.1);
    }
    forall lo, hi | Runs(days, lo, hi) ensures run.Some? {
      assert Between(lo, hi, lo) && Between(lo, hi, hi);
      assert lo in ordered && hi in ordered;
      RunsIsSpan(days, lo, hi);
      if run.None? { NoRun(days, ordered, ordered, lo, hi); }
    }
  }

  lemma OrderedSets(days: set<int>)
    requires forall d | d in days :: 0 <= d < 7
    ensures |Ordered(days)| == 7 <==> days == {0, 1, 2, 3, 4, 5, 6}
    ensures Ordered(days) == [0, 1, 2, 3, 4] <==> days == {0, 1, 2, 3, 4}
    ensures Ordered(days) == [5, 6] <==> days == {5, 6}
  {
    hide Ordered, OrderedBelow;
    OrderedWords();
    FullIsOrdered(days);
    OrderedIs(days, {0, 1, 2, 3, 4});
    OrderedIs(days, {5, 6});
  }

  lemma FullIsOrdered(days: set<int>)
    requires forall d | d in days :: 0 <= d < 7
    ensures |Ordered(days)| == 7 ==> days == {0, 1, 2, 3, 4, 5, 6}
  {
    hide OrderedBelow;
    if |Ordered(days)| == 7 {
      OrderedFull(days, WEEK_LENGTH);
      assert forall d :: d in days <==> d in {0, 1, 2, 3, 4, 5, 6};
    }
  }

  lemma OrderedWords()
    ensures Ordered({0, 1, 2, 3, 4, 5, 6}) == [0, 1, 2, 3, 4, 5, 6]
    ensures Ordered({0, 1, 2, 3, 4}) == [0, 1, 2, 3, 4]
    ensures Ordered({5, 6}) == [5, 6]
  {
  }

  lemma OrderedIs(days: set<int>, other: set<int>)
    requires (forall d | d in days :: 0 <= d < 7) && forall d | d in other :: 0 <= d < 7
    ensures Ordered(days) == Ordered(other) <==> days == other
  {
    hide OrderedBelow;
    OrderedMembers(days, WEEK_LENGTH);
    OrderedMembers(other, WEEK_LENGTH);
    if Ordered(days) == Ordered(other) {
      assert forall d :: d in days <==> d in other;
    }
  }

  // ----- times ------------------------------------------------------------------------------

  /** One or two of the characters '0' to '9'. */
  predicate Digits(s: string) {
    (|s| == 1 || |s| == 2) && forall i | 0 <= i < |s| :: '0' <= s[i] <= '9'
  }

  /** The number one or two digits stand for. */
  function Value(s: string): int
    requires Digits(s)
  {
    if |s| == 1 then s[0] as int - '0' as int else 10 * (s[0] as int - '0' as int) + (s[1] as int - '0' as int)
  }

  lemma NumberIsValue(s: string)
    requires Digits(s)
    ensures Number(s) == Value(s)
  {
    assert s[..1][..0] == [];
    if |s| == 1 {
      assert s[..1] == s;
    } else {
      assert Number(s[..1]) == s[0] as int - '0' as int;
    }
  }

  /** An hour and a minute as a clock time: up to 23:59, and the end of the day. */
  predicate TimeIs(hour: int, minute: int, r: Result<int>) {
    if minute >= 60 then r == Err(InvalidMinute)
    else if hour <= 23 then r == Ok(60 * hour + minute)
    else if hour == 24 && minute == 0 then r == Ok(1440)
    else r == Err(InvalidHour)
  }

  /** "HH:MM", in one or two digits each. */
  lemma ClockMeans(h: string, m: string)
    requires Digits(h) && Digits(m)
    ensures TimeIs(Value(h), Value(m), ParseTime(h + [':'] + m))
  {
    hide SplitOn, Strip, Number, Value;
    SplitClock(h, m);
    NumberIsValue(h);
    NumberIsValue(m);
    assert forall p | p in [h, m] :: OneOrTwoDigits(p);
  }

  /** "HH" alone is the full hour. */
  lemma HourMeans(h: string)
    requires Digits(h)
    ensures TimeIs(Value(h), 0, ParseTime(h))
  {
    hide SplitOn, Number, Value;
    StripNone(h);
    SplitNone(h, ':');
    NumberIsValue(h);
    hide Strip;
    assert forall p | p in [h] :: OneOrTwoDigits(p);
  }

  lemma {:induction false} JoinSplit(s: string, c: char)
    ensures Join([c], SplitOn(s, c)) == s
  {
    if s != [] {
      JoinSplit(s[1..], c);
      var rest := SplitOn(s[1..], c);
      if s[0] == c {
        assert SplitOn(s, c) == [[]] + rest;
        JoinCons([c], [], rest);
      } else {
        assert SplitOn(s, c) == [[s[0]] + rest[0]] + rest[1..];
        if |rest| > 1 {
          assert rest == [rest[0]] + rest[1..];
          JoinCons([c], [s[0]] + rest[0], rest[1..]);
          JoinCons([c], rest[0], rest[1..]);
        }
      }
    }
  }

  /** Whatever is read as a time at all is one of those two forms. */
  lemma OnlyTimes(token: string)
    requires ParseTime(token) != Err(InvalidTime)
    ensures Digits(Strip(token)) || exists h, m :: Digits(h) && Digits(m) && Strip(token) == h + [':'] + m
  {
    hide Strip, Number;
    var parts := SplitOn(Strip(token), ':');
    JoinSplit(Strip(token), ':');
    assert parts[0] in parts;
    if |parts| == 2 {
      assert parts == [parts[0], parts[1]] && parts[1] in parts;
      assert Strip(token) == parts[0] + [':'] + parts[1];
      assert Digits(parts[0]) && Digits(parts[1]);
    } else {
      assert parts == [parts[0]];
    }
  }

  // ----- the selector before a range --------------------------------------------------------

  predicate Blanks(s: string) { forall i | 0 <= i < |s| :: IsSpace(s[i]) }

  lemma {:induction false} RStripBlanks(s: string, blanks: string)
    requires Blanks(blanks) && (s == [] || !IsSpace(s[|s| - 1]))
    ensures RStrip(s + blanks) == s
  {
    if blanks == [] {
      assert s + blanks == s;
    } else {
      assert (s + blanks)[..|s + blanks| - 1] == s + blanks[..|blanks| - 1];
      RStripBlanks(s, blanks[..|blanks| - 1]);
    }
  }

  /** Letters, commas, dashes and blanks between them, then blanks, then a digit: the selector
      ends there, if it names days. */
  lemma LeadMeans(selector: string, blanks: string, range: string)
    requires selector != [] && IsAlpha(selector[0]) && !IsSpace(selector[|selector| - 1])
    requires forall i | 0 <= i < |selector| :: SelectorChar(selector[i])
    requires blanks != [] && Blanks(blanks) && range != [] && IsDigit(range[0])
    ensures var chunk := selector + blanks + range;
            TakeSelector(chunk) ==
            if ParseDaySelector(selector) != {} then (ParseDaySelector(selector), range) else (ALL_DAYS, chunk)
  {
    hide ParseDaySelector;
    var head, chunk := selector + blanks, selector + blanks + range;
    assert chunk == head + range;
    NoDigits(selector, blanks);
    FirstDigitAfter(head, range);
    assert chunk[..|head|] == head && chunk[|head|..] == range;
    forall i | 0 <= i < |head| ensures SelectorChar(chunk[i]) {
      if i >= |selector| { assert head[i] == blanks[i - |selector|]; }
    }
    assert chunk[|head| - 1] == blanks[|blanks| - 1];
    RStripBlanks(selector, blanks);
  }

  lemma NoDigits(selector: string, blanks: string)
    requires (forall i | 0 <= i < |selector| :: SelectorChar(selector[i])) && Blanks(blanks)
    ensures !HasDigit(selector + blanks)
  {
    forall i | 0 <= i < |selector + blanks| ensures !IsDigit((selector + blanks)[i]) {
      if i >= |selector| { assert (selector + blanks)[i] == blanks[i - |selector|]; }
    }
  }

  // ----- ranges -----------------------------------------------------------------------------

  /** A range as a window: an error is the start's before the end's, "00:00-00:00" is the whole
      day, and no other range may end where it starts. */
  predicate RangeIs(start: Result<int>, end: Result<int>, r: Result<Window>) {
    if start.Err? then r == Err(start.error)
    else if end.Err? then r == Err(end.error)
    else if start.value != end.value then r == Ok(Window(start.value, end.value))
    else if start.value == 0 then r == Ok(Window(0, 1440))
    else r == Err(IdenticalEnds)
  }

  /** What is left of a segment after its day selector is a range split at its first dash; a
      segment without one is none. */
  lemma WindowMeans(written: string)
    ensures var text := TakeSelector(Dashes(Strip(written))).1;
            && ('-' !in text ==> ParseOneRange(written) == Err(NoRange))
            && forall s, e | text == s + ['-'] + e && '-' !in s ::
                 RangeIs(ParseTime(s), ParseTime(e), ParseOneRange(written))
  {
    hide TakeSelector, ParseTime, Dashes, Strip;
    var text := TakeSelector(Dashes(Strip(written))).1;
    if '-' !in text {
      assert Find(text, '-') == |text|;
    }
    forall s: string, e: string | text == s + ['-'] + e && '-' !in s
      ensures RangeIs(ParseTime(s), ParseTime(e), ParseOneRange(written))
    {
      FindAfter(s, e, '-');
      assert text[..|s|] == s && text[|s| + 1..] == e;
    }
  }

  // ----- the form's verdict -----------------------------------------------------------------

  function MinutesFrom(a: int, b: int): (r: set<int>)
    requires a <= b
    ensures |r| == b - a && forall m :: m in r <==> a <= m < b
    decreases b - a
  {
    if a == b then {} else MinutesFrom(a, b - 1) + {b - 1}
  }

  /** The clock minutes a window stands for. */
  function MinutesOf(w: Window): set<int> { set m | 0 <= m < 1440 && WrittenCovers(w, m) }

  /** A window's length is the number of clock minutes it covers, through midnight too. */
  lemma LengthCounts(w: Window)
    requires InDay(w)
    ensures WindowMinutes(w) == |MinutesOf(w)|
  {
    if w.end > w.start {
      assert MinutesOf(w) == MinutesFrom(w.start, w.end);
    } else {
      if w.end < w.start {
        assert MinutesOf(w) == MinutesFrom(w.start, DAY) + MinutesFrom(0, w.end);
      } else {
        assert MinutesOf(w) == MinutesFrom(0, DAY);
      }
    }
  }

  lemma WrittenInDay(spec: string)
    requires RawWindows(spec).Ok?
    ensures forall w | w in RawWindows(spec).value :: InDay(w)
  {
    hide SegmentsOf, ParseRanges, InDay;
    var raw := SpecText(spec);
    if raw != [] {
      GrammarLaws.ParsedRangesInDay(SegmentsOf(raw).value);
    }
  }

  /** A text is too short exactly when it is accepted and some range of it covers fewer than
      fifteen minutes of the clock. */
  lemma VerdictMeans(spec: string)
    ensures SpecProblem(spec) ==
            if RawWindows(spec).Err? then Invalid
            else if exists w | w in RawWindows(spec).value :: |MinutesOf(w)| < 15 then TooShort else Accepted
  {
    hide RawWindows, WindowMinutes, MinutesOf;
    if RawWindows(spec).Ok? {
      WrittenInDay(spec);
      forall w | w in RawWindows(spec).value ensures WindowMinutes(w) == |MinutesOf(w)| { LengthCounts(w); }
    }
  }
}
