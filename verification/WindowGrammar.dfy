/** The demand-window grammar of dhw_schedule.py: one segmenter, two parsers, and
    the renderer that writes back into it. */
module WindowGrammar {
  import opened Options
  import opened Text
  import opened Windows

  /** Why a specification is refused (`DHWWindowError`). */
  datatype WindowError =
    | InvalidTime | InvalidMinute | InvalidHour | NoRange | IdenticalEnds | SelectorWithoutRange

  datatype Result<T> = Ok(value: T) | Err(error: WindowError)

  // ----- day selectors -----------------------------------------------------------

  const DAY_TOKENS: seq<string> := ["mo", "tu", "we", "th", "fr", "sa", "su"]

  const ALL_DAYS: set<int> := {0, 1, 2, 3, 4, 5, 6}

  function CyclicSpan(start: int, end: int, size: int, first: int): seq<int>
    requires size > 0
  {
    seq((end - start) % size + 1, k => first + (start - first + k) % size)
  }

  /** The weekdays a range of day tokens names. */
  function SpanDays(lo: int, hi: int): set<int> {
    set d | d in CyclicSpan(lo, hi, 7, 0)
  }

  const WEEK_LENGTH: nat := 7

  /** The weekdays of a set below `n`, in order. */
  function OrderedBelow(days: set<int>, n: nat): (r: seq<int>)
    ensures |r| <= n
    ensures forall i | 0 <= i < |r| :: r[i] in days && 0 <= r[i] < n
  {
    if n == 0 then [] else OrderedBelow(days, n - 1) + if n - 1 in days then [n - 1] else []
  }

  /** `sorted(set(days))` for weekday sets. */
  function Ordered(days: set<int>): (r: seq<int>)
    ensures forall i | 0 <= i < |r| :: r[i] in days && 0 <= r[i] < 7
  {
    OrderedBelow(days, WEEK_LENGTH)
  }

  /** First position of a token among the first `n`, or -1. */
  function IndexBelow(token: string, n: nat): (i: int)
    requires n <= 7
    ensures -1 <= i < n
    ensures i >= 0 ==> DAY_TOKENS[i] == token
    ensures i == -1 ==> forall k | 0 <= k < n :: DAY_TOKENS[k] != token
  {
    if n == 0 then -1
    else
      var i := IndexBelow(token, n - 1);
      if i >= 0 then i else if DAY_TOKENS[n - 1] == token then n - 1 else -1
  }

  function TokenIndex(token: string): (i: int)
    ensures -1 <= i < 7
    ensures i >= 0 ==> DAY_TOKENS[i] == token
    ensures i == -1 ==> forall k | 0 <= k < 7 :: DAY_TOKENS[k] != token
  {
    IndexBelow(token, WEEK_LENGTH)
  }

  /** Two letters, then any number of dash- or comma-separated pairs. */
  predicate SelectorShape(t: string)
    decreases |t|
  {
    && |t| >= 2 && IsAlpha(t[0]) && IsAlpha(t[1])
    && (t[2..] == []
        || var rest := LStrip(t[2..]);
           rest != [] && (rest[0] == '-' || rest[0] == ',') && SelectorShape(LStrip(rest[1..])))
  }

  /** The days of a token list; a token that is no day name empties the answer. */
  function ListedDays(tokens: seq<string>): set<int> {
    if tokens == [] then {}
    else if TokenIndex(tokens[0]) < 0 then {}
    else if |tokens| == 1 then {TokenIndex(tokens[0])}
    else
      var rest := ListedDays(tokens[1..]);
      if rest == {} then {} else {TokenIndex(tokens[0])} + rest
  }

  /** The weekdays a selector names; the empty set for anything that is none. */
  function ParseDaySelector(token: string): set<int> {
    var t := Lower(Strip(token));
    if t in ["daily", "everyday", "all"] then ALL_DAYS
    else if t == "weekdays" then {0, 1, 2, 3, 4}
    else if t in ["weekend", "weekends"] then {5, 6}
    else if !SelectorShape(t) then {}
    else
      var bare := RemoveSpaces(t);
      var ends := SplitOn(bare, '-');
      if |ends| == 2 then
        var lo, hi := TokenIndex(ends[0]), TokenIndex(ends[1]);
        if lo < 0 || hi < 0 then {} else SpanDays(lo, hi)
      else ListedDays(SplitOn(bare, ','))
  }

  function Capitalize(token: string): string
    requires |token| == 2
  {
    [if 'a' <= token[0] <= 'z' then (token[0] as int - 32) as char else token[0], LowerChar(token[1])]
  }

  function DayName(d: int): string
    requires 0 <= d < 7
  {
    Capitalize(DAY_TOKENS[d])
  }

  /** The first of the candidate ends that makes the range from `lo` the set. */
  function FindEnd(days: set<int>, lo: int, ends: seq<int>): (hi: Option<int>)
    ensures hi.Some? ==> hi.value in ends && SpanDays(lo, hi.value) == days
  {
    if ends == [] then None
    else if SpanDays(lo, ends[0]) == days then Some(ends[0])
    else FindEnd(days, lo, ends[1..])
  }

  /** The first pair, in order, whose range is exactly the set, if any. */
  function FindRun(days: set<int>, starts: seq<int>, ends: seq<int>): (run: Option<(int, int)>)
    ensures run.Some? ==> run.value.0 in starts && run.value.1 in ends
                          && SpanDays(run.value.0, run.value.1) == days
  {
    if starts == [] then None
    else
      var hi := FindEnd(days, starts[0], ends);
      if hi.Some? then Some((starts[0], hi.value)) else FindRun(days, starts[1..], ends)
  }

  function DayNames(days: seq<int>): seq<string>
    requires forall i | 0 <= i < |days| :: 0 <= days[i] < 7
  {
    if days == [] then [] else [DayName(days[0])] + DayNames(days[1..])
  }

  /** A list of days as one range when it is one, else token by token. */
  function FormatDays(ordered: seq<int>, run: Option<(int, int)>): string
    requires forall i | 0 <= i < |ordered| :: 0 <= ordered[i] < 7
    requires run.Some? ==> 0 <= run.value.0 < 7 && 0 <= run.value.1 < 7
  {
    if run.Some? && |ordered| >= 3 then DayName(run.value.0) + "-" + DayName(run.value.1)
    else Join(",", DayNames(ordered))
  }

  function FormatDaySelector(days: set<int>): string {
    var ordered := Ordered(days);
    if |ordered| == 7 then "daily"
    else if ordered == [0, 1, 2, 3, 4] then "weekdays"
    else if ordered == [5, 6] then "weekend"
    else FormatDays(ordered, FindRun(days, ordered, ordered))
  }

  // ----- times and ranges ----------------------------------------------------------

  function Digit(k: int): char
    requires 0 <= k < 10
  {
    ('0' as int + k) as char
  }

  function Number(s: string): nat
    requires forall i | 0 <= i < |s| :: IsDigit(s[i])
  {
    if s == [] then 0
    else
      assert IsDigit(s[|s| - 1]);
      10 * Number(s[..|s| - 1]) + (s[|s| - 1] as int - '0' as int)
  }

  predicate OneOrTwoDigits(s: string) {
    1 <= |s| <= 2 && forall i | 0 <= i < |s| :: IsDigit(s[i])
  }

  /** `HH` or `HH:MM` as minutes of the day, up to and including 24:00. */
  function ParseTime(token: string): Result<int> {
    var parts := SplitOn(Strip(token), ':');
    if |parts| > 2 || (exists p | p in parts :: !OneOrTwoDigits(p)) then Err(InvalidTime)
    else
      assert parts[0] in parts;
      var hour := Number(parts[0]);
      var minute := if |parts| == 2 then assert parts[1] in parts; Number(parts[1]) else 0;
      if minute >= 60 then Err(InvalidMinute)
      else if hour == 24 && minute == 0 then Ok(DAY)
      else if hour > 23 then Err(InvalidHour)
      else Ok(hour * 60 + minute)
  }

  /** A character a leading day selector may hold. */
  predicate SelectorChar(c: char) { IsAlpha(c) || c == ',' || c == '-' || IsSpace(c) }

  /** A leading day selector and the text after it: letters, commas, dashes and
      blanks, ending in a blank right before the first digit. */
  function LeadingSelector(chunk: string): Option<(string, string)> {
    var p := FirstDigit(chunk);
    if 2 <= p < |chunk| && IsAlpha(chunk[0]) && (forall i | 1 <= i < p :: SelectorChar(chunk[i]))
       && IsSpace(chunk[p - 1])
    then Some((RStrip(chunk[..p]), chunk[p..]))
    else None
  }

  function Dashes(chunk: string): string {
    Replace(Replace(chunk, '\U{2013}', '-'), '\U{2014}', '-')
  }

  /** The days a chunk names (all seven when it names none) and what is left. */
  function TakeSelector(chunk: string): (set<int>, string) {
    var lead := LeadingSelector(chunk);
    if lead.Some? && ParseDaySelector(lead.value.0) != {}
    then (ParseDaySelector(lead.value.0), lead.value.1)
    else (ALL_DAYS, chunk)
  }

  function ParseOneRange(written: string): Result<Window> {
    var chunk := TakeSelector(Dashes(Strip(written))).1;
    var dash := Find(chunk, '-');
    if dash == |chunk| then Err(NoRange)
    else
      var start := ParseTime(chunk[..dash]);
      if start.Err? then Err(start.error)
      else
        var end := ParseTime(chunk[dash + 1..]);
        if end.Err? then Err(end.error)
        else if start.value == end.value then
          if start.value == 0 then Ok(FULL_DAY) else Err(IdenticalEnds)
        else Ok(Window(start.value, end.value))
  }

  // ----- the parsers -----------------------------------------------------------------

  function SpecText(spec: string): string {
    Strip(Replace(Replace(spec, ';', ','), '\n', ','))
  }

  function WithPending(pending: string, chunk: string): string {
    if pending != [] then pending + "," + chunk else chunk
  }

  function Prepend<T>(head: seq<T>, tail: Result<seq<T>>): Result<seq<T>> {
    if tail.Err? then tail else Ok(head + tail.value)
  }

  predicate SelectorOnly(chunk: string) {
    !HasDigit(chunk) && ParseDaySelector(chunk) != {}
  }

  /** Chunks reassembled: a digit-free day name continues the next selector. */
  function Assemble(chunks: seq<string>, pending: string): Result<seq<string>>
    decreases |chunks|
  {
    if chunks == [] then if pending != [] then Err(SelectorWithoutRange) else Ok([])
    else
      var chunk := Strip(chunks[0]);
      if chunk == [] then Assemble(chunks[1..], pending)
      else if SelectorOnly(chunk) then Assemble(chunks[1..], WithPending(pending, chunk))
      else Prepend([WithPending(pending, chunk)], Assemble(chunks[1..], []))
  }

  function SegmentsOf(raw: string): Result<seq<string>> {
    Assemble(SplitOn(raw, ','), [])
  }

  function ParseRanges(segments: seq<string>): Result<seq<Window>> {
    if segments == [] then Ok([])
    else
      var first := ParseOneRange(segments[0]);
      if first.Err? then Err(first.error) else Prepend([first.value], ParseRanges(segments[1..]))
  }

  /** The windows exactly as written, one per range. */
  function RawWindows(spec: string): Result<seq<Window>> {
    var raw := SpecText(spec);
    if raw == [] then Ok([])
    else
      var segments := SegmentsOf(raw);
      if segments.Err? then Err(segments.error) else ParseRanges(segments.value)
  }

  /** The every-day view of a specification. */
  function ParsedWindows(spec: string): Result<seq<Window>> {
    var raw := RawWindows(spec);
    if raw.Err? then raw else Ok(Normalized(raw.value))
  }

  type Week = w: seq<seq<Window>> | |w| == 7 witness [[], [], [], [], [], [], []]

  function EmptyWeek(): Week { seq(7, d => []) }

  function Extend(week: Week, days: set<int>, w: Window): Week {
    seq(7, d requires 0 <= d < 7 => if d in days then week[d] + [w] else week[d])
  }

  /** One segment folded into the weekly structure, which starts with the first
      segment that names a proper subset of the days. */
  function WeeklyStep(weekly: Option<Week>, days: set<int>, w: Window): Option<Week> {
    if days != ALL_DAYS then Some(Extend(if weekly.None? then EmptyWeek() else weekly.value, days, w))
    else if weekly.Some? then Some(Extend(weekly.value, ALL_DAYS, w))
    else None
  }

  function SegmentDays(segment: string): set<int> { TakeSelector(Dashes(segment)).0 }

  function SegmentRange(segment: string): Result<Window> { ParseOneRange(TakeSelector(Dashes(segment)).1) }

  function WeeklyFrom(segments: seq<string>, weekly: Option<Week>): Result<Option<Week>>
    decreases |segments|
  {
    if segments == [] then Ok(weekly)
    else
      var range := SegmentRange(segments[0]);
      if range.Err? then Err(range.error)
      else WeeklyFrom(segments[1..], WeeklyStep(weekly, SegmentDays(segments[0]), range.value))
  }

  function NormalizedWeek(week: Week): Week {
    seq(7, d requires 0 <= d < 7 => Normalized(week[d]))
  }

  /** The per-day view: none for a specification that names no days. */
  function ParsedWeekly(spec: string): Result<Option<Week>> {
    var raw := SpecText(spec);
    if raw == [] then Ok(None)
    else
      var segments := SegmentsOf(raw);
      if segments.Err? then Err(segments.error)
      else
        var weekly := WeeklyFrom(segments.value, None);
        if weekly.Err? || weekly.value.None? then weekly else Ok(Some(NormalizedWeek(weekly.value.value)))
  }

  // ----- the renderer -------------------------------------------------------------

  function TwoDigits(n: int): string
    requires 0 <= n < 100
  {
    [Digit(n / 10), Digit(n % 10)]
  }

  /** A minute of the day as `HH:MM`; the end of the day reads 24:00. */
  function FormatClock(minutes: int): string {
    var total := if minutes != DAY then minutes % DAY else minutes;
    TwoDigits(total / 60) + ":" + TwoDigits(total % 60)
  }

  function FormatWindow(w: Window): string { FormatClock(w.start) + "-" + FormatClock(w.end) }

  function WindowTexts(ws: seq<Window>): seq<string> {
    if ws == [] then [] else [FormatWindow(ws[0])] + WindowTexts(ws[1..])
  }

  function FormatWindows(ws: seq<Window>): string { Join(", ", WindowTexts(ws)) }

  /** The days of a week sharing one window list. */
  function GroupDays(week: Week, ws: seq<Window>): set<int> {
    set d | 0 <= d < 7 && week[d] == ws
  }

  predicate FirstOfGroup(week: Week, d: int)
    requires 0 <= d < 7
  {
    forall e | 0 <= e < d :: week[e] != week[d]
  }

  function Prefixed(selector: string, ws: seq<Window>): seq<string> {
    if ws == [] then [] else [selector + " " + FormatWindow(ws[0])] + Prefixed(selector, ws[1..])
  }

  /** The segments of one group of days: one selector per range. */
  function GroupSegments(days: set<int>, ws: seq<Window>): seq<string> {
    if ws == [] then []
    else if FormatDaySelector(days) == "daily" then [FormatWindows(ws)]
    else Prefixed(FormatDaySelector(days), ws)
  }

  /** The segments contributed by the group whose first day is `d`, if any is. */
  function DaySegments(week: Week, d: int): seq<string>
    requires 0 <= d < 7
  {
    if FirstOfGroup(week, d) then GroupSegments(GroupDays(week, week[d]), week[d]) else []
  }

  /** The segments of the groups starting below day `n`, in order of first day. */
  function SegmentsBelow(week: Week, n: nat): seq<string>
    requires n <= 7
  {
    if n == 0 then [] else SegmentsBelow(week, n - 1) + DaySegments(week, n - 1)
  }

  function WeekSegments(week: Week): seq<string> { SegmentsBelow(week, WEEK_LENGTH) }

  function FormattedWeek(week: Week): string { Join(", ", WeekSegments(week)) }

  // ----- verdicts and resolution -----------------------------------------------------

  const MIN_WINDOW_MINUTES := 15

  datatype Verdict = Accepted | Invalid | TooShort

  function WindowMinutes(w: Window): int {
    if w.end > w.start then w.end - w.start else w.end + DAY - w.start
  }

  function SpecProblem(spec: string): Verdict {
    var raw := RawWindows(spec);
    if raw.Err? then Invalid
    else if exists w | w in raw.value :: WindowMinutes(w) < MIN_WINDOW_MINUTES then TooShort
    else Accepted
  }

  function Clamp(weekday: int): int { Max(0, Min(6, weekday)) }

  /** The window list in force on one weekday: a per-weekday override, else the
      holiday overlay, else the specification's own structure. */
  function WindowsForDay(
    weekly: Option<Week>, weekday: Option<int>, fallback: seq<Window>,
    holidayWindows: Option<seq<Window>> := None, holiday: bool := false,
    overrides: Option<seq<Option<seq<Window>>>> := None): seq<Window>
  {
    if overrides.Some? && weekday.Some? && Clamp(weekday.value) < |overrides.value|
       && overrides.value[Clamp(weekday.value)].Some?
    then overrides.value[Clamp(weekday.value)].value
    else if holiday && holidayWindows.Some? then holidayWindows.value
    else if weekly.None? || weekday.None? then fallback
    else weekly.value[Clamp(weekday.value)]
  }
}
