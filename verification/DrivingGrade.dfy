/** The driving grade of driving_grade.py: the day book, the split of a day's score into
    its drivers, and the folded grade they sum to. Exact reals; None is a number that is
    not finite. */
module DrivingGrade {
  import opened Options
  import opened Reals

  const SCORE_ALPHA: real := 0.05
  const FULL_SAVING: real := 0.2

  datatype Book = Book(kwh: real, sek: real, spotSum: real, spotHours: real, kwhLo: real, sekLo: real)

  const EMPTY := Book(0.0, 0.0, 0.0, 0.0, 0.0, 0.0)

  datatype Interval = Interval(kwh: real, sek: Option<real>, spot: Option<real>, hours: real)

  function Clip01(x: real): real { if x < 0.0 then 0.0 else if x > 1.0 then 1.0 else x }

  /** Below the day's running mean. */
  predicate BelowMean(spot: real, sum: real, hours: real) { hours != 0.0 && spot < sum / hours }

  /** One priced interval booked. */
  function Tally(b: Book, i: Interval): Book {
    var paid := if i.sek.Some? then b.(kwh := b.kwh + AtLeastZero(i.kwh), sek := b.sek + i.sek.value) else b;
    if i.spot.None? || i.hours <= 0.0 then paid
    else
      var priced := paid.(spotSum := paid.spotSum + Times(i.spot.value, i.hours), spotHours := paid.spotHours + i.hours);
      if i.sek.Some? && BelowMean(i.spot.value, priced.spotSum, priced.spotHours)
      then priced.(kwhLo := priced.kwhLo + AtLeastZero(i.kwh), sekLo := priced.sekLo + i.sek.value)
      else priced
  }

  function Booked(intervals: seq<Interval>): Book {
    if intervals == [] then EMPTY else Tally(Booked(intervals[..|intervals| - 1]), intervals[|intervals| - 1])
  }

  /** The cheap side is a part of the day, on every day booked from empty. */
  lemma {:induction false} CheapSideIsPart(intervals: seq<Interval>)
    ensures 0.0 <= Booked(intervals).kwhLo <= Booked(intervals).kwh && Booked(intervals).spotHours >= 0.0
  {
    if intervals != [] {
      CheapSideIsPart(intervals[..|intervals| - 1]);
    }
  }

  lemma BelowMeanIs(spot: real, sum: real, hours: real)
    requires hours > 0.0
    ensures BelowMean(spot, sum, hours) <==> spot * hours < sum
  {
    assert sum / hours * hours == sum;
  }

  lemma TallyAdds(b: Book, i: Interval)
    ensures var n := Tally(b, i);
            var timed := i.spot.Some? && i.hours > 0.0;
            var cheap := i.sek.Some? && timed && BelowMean(i.spot.value, n.spotSum, n.spotHours);
            && n.kwh - b.kwh == (if i.sek.Some? then AtLeastZero(i.kwh) else 0.0)
            && n.sek - b.sek == (if i.sek.Some? then i.sek.value else 0.0)
            && n.spotSum - b.spotSum == (if timed then Times(i.spot.value, i.hours) else 0.0)
            && n.spotHours - b.spotHours == (if timed then i.hours else 0.0)
            && n.kwhLo - b.kwhLo == (if cheap then AtLeastZero(i.kwh) else 0.0)
            && n.sekLo - b.sekLo == (if cheap then i.sek.value else 0.0)
  {
    hide BelowMean, Times, AtLeastZero;
  }

  /** What one more interval of a day adds: its energy and cost when it is priced, its spot
      price for its hours when it lasts, and the cheap side exactly when both hold and its
      spot price is below the mean of the day so far, itself included. */
  lemma BookedAdds(intervals: seq<Interval>, i: Interval)
    ensures var b, n := Booked(intervals), Booked(intervals + [i]);
            var timed := i.spot.Some? && i.hours > 0.0;
            var cheap := i.sek.Some? && timed && i.spot.value * n.spotHours < n.spotSum;
            var energy := if i.kwh > 0.0 then i.kwh else 0.0;
            && n.kwh - b.kwh == (if i.sek.Some? then energy else 0.0)
            && n.sek - b.sek == (if i.sek.Some? then i.sek.value else 0.0)
            && n.spotSum - b.spotSum == (if timed then i.spot.value * i.hours else 0.0)
            && n.spotHours - b.spotHours == (if timed then i.hours else 0.0)
            && n.kwhLo - b.kwhLo == (if cheap then energy else 0.0)
            && n.sekLo - b.sekLo == (if cheap then i.sek.value else 0.0)
  {
    hide BelowMean, Tally, Booked;
    CheapSideIsPart(intervals);
    BookedNext(intervals, i);
    TallyAdds(Booked(intervals), i);
    if i.spot.Some? && i.hours > 0.0 {
      var n := Booked(intervals + [i]);
      BelowMeanIs(i.spot.value, n.spotSum, n.spotHours);
    }
  }

  // ----- one day's drivers ----------------------------------------------------------------------

  datatype Points = Points(cheap: real, dear: real)

  function SumOf(p: Points): real { p.cheap + p.dear }

  /** What each side saved against buying flat at the day's mean. */
  function Saved(b: Book, meanSpot: real): Points {
    Points(meanSpot * b.kwhLo - b.sekLo, meanSpot * (b.kwh - b.kwhLo) - (b.sek - b.sekLo))
  }

  function DayDrivers(b: Book, meanSpot: real, sample: real): Points {
    var saved := Saved(b, meanSpot);
    var total := SumOf(saved);
    var scale := if sample > 0.0 && total > 0.0 then sample / total else 0.0;
    Points(saved.cheap * scale, saved.dear * scale)
  }

  /** The day's score: 100 for buying a fifth below flat, 0 for flat or dearer. */
  function Sample(b: Book, meanSpot: real): real
    requires b.kwh > 0.0 && meanSpot > 0.0
  {
    Clip01((1.0 - b.sek / b.kwh / meanSpot) / FULL_SAVING) * 100.0
  }

  /** The score of a day, in the source's own words: 0 for buying at the day's flat price or
      above, 100 for a fifth below it, and the saving's share of a fifth in between. */
  predicate Scores(score: real, paid: real, flat: real) {
    && (score == 0.0 <==> paid >= flat)
    && (score == 100.0 <==> paid <= 0.8 * flat)
    && (0.8 * flat < paid < flat ==> score * 0.2 * flat == 100.0 * (flat - paid))
  }

  /** The day's score is the documented one. */
  lemma SampleScores(b: Book, meanSpot: real)
    requires b.kwh > 0.0 && meanSpot > 0.0
    ensures Scores(Sample(b, meanSpot), b.sek, meanSpot * b.kwh)
  {
    hide Clip01, Scores;
    PositiveFlat(b.kwh, meanSpot);
    PaidShare(b.kwh, b.sek, meanSpot);
    ShareScores(b.sek / b.kwh / meanSpot, b.sek, meanSpot * b.kwh);
  }

  lemma PositiveFlat(kwh: real, meanSpot: real)
    requires kwh > 0.0 && meanSpot > 0.0
    ensures meanSpot * kwh > 0.0
  {
  }

  lemma PaidShare(kwh: real, sek: real, meanSpot: real)
    requires kwh > 0.0 && meanSpot > 0.0
    ensures sek / kwh / meanSpot * (meanSpot * kwh) == sek
  {
    var paid := sek / kwh;
    assert paid * kwh == sek;
    assert paid / meanSpot * meanSpot == paid;
  }

  lemma ShareOrder(x: real, y: real, flat: real)
    requires flat > 0.0
    ensures x <= y <==> x * flat <= y * flat
    ensures x < y <==> x * flat < y * flat
  {
  }

  /** The score of a paid share of the flat price. */
  lemma ShareScores(share: real, paid: real, flat: real)
    requires flat > 0.0 && share * flat == paid
    ensures Scores(Clip01((1.0 - share) / FULL_SAVING) * 100.0, paid, flat)
  {
    hide Clip01;
    ShareOrder(1.0, share, flat);
    ShareOrder(share, 0.8, flat);
    ScoreOfShare(share);
    if 0.8 < share < 1.0 {
      ShareBetween(share, flat, paid, Clip01((1.0 - share) / FULL_SAVING) * 100.0);
    }
  }

  lemma ScoreOfShare(share: real)
    ensures var score := Clip01((1.0 - share) / FULL_SAVING) * 100.0;
            && (score == 0.0 <==> share >= 1.0) && (score == 100.0 <==> share <= 0.8)
            && (0.8 < share < 1.0 ==> score * 0.2 == 100.0 * (1.0 - share))
  {
  }

  lemma ShareBetween(share: real, flat: real, sek: real, score: real)
    requires share * flat == sek && score * 0.2 == 100.0 * (1.0 - share)
    ensures score * 0.2 * flat == 100.0 * (flat - sek)
  {
    assert (1.0 - share) * flat == flat - share * flat;
  }

  lemma TotalSaving(b: Book, meanSpot: real)
    ensures SumOf(Saved(b, meanSpot)) == meanSpot * b.kwh - b.sek
  {
    assert meanSpot * b.kwhLo + meanSpot * (b.kwh - b.kwhLo) == meanSpot * b.kwh;
  }

  lemma PaidBelowFlat(kwh: real, sek: real, meanSpot: real)
    requires kwh > 0.0 && meanSpot > 0.0 && sek / kwh / meanSpot < 1.0
    ensures meanSpot * kwh - sek > 0.0
  {
    var paid := sek / kwh;
    var part := paid / meanSpot;
    assert paid * kwh == sek && part * meanSpot == paid;
    assert part * meanSpot < 1.0 * meanSpot;
    assert paid * kwh < meanSpot * kwh;
  }

  lemma ScaledParts(a: real, b: real, sample: real)
    requires a + b > 0.0
    ensures a * (sample / (a + b)) + b * (sample / (a + b)) == sample
  {
    var scale := sample / (a + b);
    assert (a + b) * scale == sample;
  }

  /** A day's drivers sum to its score, clipped or not. */
  lemma DriversSumToSample(b: Book, meanSpot: real)
    requires b.kwh > 0.0 && meanSpot > 0.0
    ensures SumOf(DayDrivers(b, meanSpot, Sample(b, meanSpot))) == Sample(b, meanSpot)
    ensures 0.0 <= Sample(b, meanSpot) <= 100.0
  {
    hide Saved;
    var sample := Sample(b, meanSpot);
    var saved := Saved(b, meanSpot);
    if sample > 0.0 {
      PaidBelowFlat(b.kwh, b.sek, meanSpot);
      TotalSaving(b, meanSpot);
      ScaledParts(saved.cheap, saved.dear, sample);
    } else {
      assert saved.cheap * 0.0 == 0.0 && saved.dear * 0.0 == 0.0;
    }
  }

  /** A day's score split in the proportion of what each side saved against buying flat; a
      day that scores nothing has no drivers. */
  predicate Splits(day: Points, score: real, b: Book, meanSpot: real) {
    && day.cheap + day.dear == score
    && (score == 0.0 ==> day == Points(0.0, 0.0))
    && (score > 0.0 ==> day.cheap * (meanSpot * b.kwh - b.sek) == score * (meanSpot * b.kwhLo - b.sekLo))
  }

  lemma DriversSplit(b: Book, meanSpot: real)
    requires b.kwh > 0.0 && meanSpot > 0.0
    ensures Splits(DayDrivers(b, meanSpot, Sample(b, meanSpot)), Sample(b, meanSpot), b, meanSpot)
  {
    hide Sample, Scores, DayDrivers;
    var sample := Sample(b, meanSpot);
    DriversSumToSample(b, meanSpot);
    if sample > 0.0 {
      TotalSaving(b, meanSpot);
      ScoreMeansSaving(b, meanSpot);
      CheapShare(b, meanSpot, sample);
    } else {
      NoDrivers(b, meanSpot);
    }
  }

  lemma ScoreMeansSaving(b: Book, meanSpot: real)
    requires b.kwh > 0.0 && meanSpot > 0.0 && Sample(b, meanSpot) > 0.0
    ensures meanSpot * b.kwh - b.sek > 0.0
  {
    hide Sample;
    SampleScores(b, meanSpot);
  }

  lemma NoDrivers(b: Book, meanSpot: real)
    ensures DayDrivers(b, meanSpot, 0.0) == Points(0.0, 0.0)
  {
    hide Saved;
  }

  lemma CheapShare(b: Book, meanSpot: real, score: real)
    requires score > 0.0 && SumOf(Saved(b, meanSpot)) > 0.0
    ensures DayDrivers(b, meanSpot, score).cheap * SumOf(Saved(b, meanSpot)) == score * Saved(b, meanSpot).cheap
  {
    hide Saved, SumOf;
    PartShare(Saved(b, meanSpot).cheap, score, SumOf(Saved(b, meanSpot)));
  }

  lemma PartShare(part: real, score: real, total: real)
    requires total > 0.0
    ensures part * (score / total) * total == score * part
  {
    assert score / total * total == score;
  }

  lemma BookedNext(intervals: seq<Interval>, i: Interval)
    ensures Booked(intervals + [i]) == Tally(Booked(intervals), i)
  {
    assert (intervals + [i])[..|intervals|] == intervals;
  }

  /** A full day: prices that fall with one purchase, nearly nothing for most of it, a
      purchase above the running mean, then dear hours without one. */
  function ClimbingDay(): seq<Interval> {
    [Interval(0.0, Some(0.0), Some(10.0), 1.0)] + [Interval(1.0, Some(8.0), Some(8.0), 1.0)]
    + [Interval(0.0, Some(0.0), Some(0.0), 18.0)] + [Interval(10.0, Some(10.0), Some(1.0), 1.0)]
    + [Interval(0.0, Some(0.0), Some(10.0), 3.0)]
  }

  lemma ClimbingDayBook()
    ensures Booked(ClimbingDay()) == Book(11.0, 18.0, 49.0, 24.0, 1.0, 8.0)
  {
    hide Booked, Tally;
    var i1, i2 := Interval(0.0, Some(0.0), Some(10.0), 1.0), Interval(1.0, Some(8.0), Some(8.0), 1.0);
    var i3, i4 := Interval(0.0, Some(0.0), Some(0.0), 18.0), Interval(10.0, Some(10.0), Some(1.0), 1.0);
    BookedNothing();
    BookedNext([], i1);
    BookedNext([i1], i2);
    BookedNext([i1] + [i2], i3);
    BookedNext([i1] + [i2] + [i3], i4);
    BookedNext([i1] + [i2] + [i3] + [i4], Interval(0.0, Some(0.0), Some(10.0), 3.0));
    assert [] + [i1] == [i1];
    ClimbingTallies();
  }

  lemma BookedNothing()
    ensures Booked([]) == EMPTY
  {
  }

  lemma ClimbingTallies()
    ensures Tally(EMPTY, Interval(0.0, Some(0.0), Some(10.0), 1.0)) == Book(0.0, 0.0, 10.0, 1.0, 0.0, 0.0)
    ensures Tally(Book(0.0, 0.0, 10.0, 1.0, 0.0, 0.0), Interval(1.0, Some(8.0), Some(8.0), 1.0))
            == Book(1.0, 8.0, 18.0, 2.0, 1.0, 8.0)
    ensures Tally(Book(1.0, 8.0, 18.0, 2.0, 1.0, 8.0), Interval(0.0, Some(0.0), Some(0.0), 18.0))
            == Book(1.0, 8.0, 18.0, 20.0, 1.0, 8.0)
    ensures Tally(Book(1.0, 8.0, 18.0, 20.0, 1.0, 8.0), Interval(10.0, Some(10.0), Some(1.0), 1.0))
            == Book(11.0, 18.0, 19.0, 21.0, 1.0, 8.0)
    ensures Tally(Book(11.0, 18.0, 19.0, 21.0, 1.0, 8.0), Interval(0.0, Some(0.0), Some(10.0), 3.0))
            == Book(11.0, 18.0, 49.0, 24.0, 1.0, 8.0)
  {
    hide Times, BelowMean, Tally;
    ClimbingProducts();
    ClimbingMeans();
    TallyPriced(EMPTY, 0.0, 0.0, 10.0, 1.0);
    TallyPriced(Book(0.0, 0.0, 10.0, 1.0, 0.0, 0.0), 1.0, 8.0, 8.0, 1.0);
    TallyPriced(Book(1.0, 8.0, 18.0, 2.0, 1.0, 8.0), 0.0, 0.0, 0.0, 18.0);
    TallyPriced(Book(1.0, 8.0, 18.0, 20.0, 1.0, 8.0), 10.0, 10.0, 1.0, 1.0);
    TallyPriced(Book(11.0, 18.0, 19.0, 21.0, 1.0, 8.0), 0.0, 0.0, 10.0, 3.0);
  }

  /** An interval with every reading: what it adds to the day, and to the cheap side. */
  lemma TallyPriced(b: Book, kwh: real, sek: real, spot: real, hours: real)
    requires kwh >= 0.0 && hours > 0.0
    ensures var sum := b.spotSum + Times(spot, hours);
            var below := BelowMean(spot, sum, b.spotHours + hours);
            Tally(b, Interval(kwh, Some(sek), Some(spot), hours))
            == Book(b.kwh + kwh, b.sek + sek, sum, b.spotHours + hours,
                    b.kwhLo + (if below then kwh else 0.0), b.sekLo + (if below then sek else 0.0))
  {
    hide Times, BelowMean;
  }

  lemma ClimbingProducts()
    ensures Times(10.0, 1.0) == 10.0 && Times(8.0, 1.0) == 8.0 && Times(0.0, 18.0) == 0.0
    ensures Times(1.0, 1.0) == 1.0 && Times(10.0, 3.0) == 30.0
  {
  }

  lemma ClimbingMeans()
    ensures !BelowMean(10.0, 10.0, 1.0) && BelowMean(8.0, 18.0, 2.0)
    ensures !BelowMean(1.0, 19.0, 21.0) && !BelowMean(10.0, 49.0, 24.0)
  {
  }

  /** Both documented signs fail: the hours bought below the running mean can push the
      grade down and the others up, since the mean that weighs them is the whole day's. */
  lemma CheapHoursCanPushDown()
    ensures var b := Booked(ClimbingDay());
            && b.kwh > 0.0 && Sample(b, 49.0 / 24.0) > 0.0
            && var day := DayDrivers(b, 49.0 / 24.0, Sample(b, 49.0 / 24.0)); day.cheap < 0.0 && day.dear > 0.0
  {
    hide Booked, ClimbingDay, DayDrivers, Sample;
    ClimbingDayBook();
    ClimbingDayScores();
  }

  lemma ClimbingDayScores()
    ensures var b := Book(11.0, 18.0, 49.0, 24.0, 1.0, 8.0);
            var day := DayDrivers(b, 49.0 / 24.0, Sample(b, 49.0 / 24.0));
            Sample(b, 49.0 / 24.0) > 0.0 && day.cheap < 0.0 && day.dear > 0.0
  {
    hide DayDrivers;
    var b := Book(11.0, 18.0, 49.0, 24.0, 1.0, 8.0);
    assert Sample(b, 49.0 / 24.0) > 0.0;
    DriverSignsIff(b, 49.0 / 24.0);
  }

  /** Exactly when the drivers of a day have their documented signs: a day that scores
      nothing has no drivers; otherwise the cheap side cost at most its energy at the day's
      mean price, and the other side at least its own. */
  lemma DriverSignsIff(b: Book, meanSpot: real)
    requires b.kwh > 0.0 && meanSpot > 0.0
    ensures var sample := Sample(b, meanSpot);
            var day := DayDrivers(b, meanSpot, sample);
            && (day.cheap >= 0.0 <==> sample == 0.0 || b.sekLo <= meanSpot * b.kwhLo)
            && (day.dear <= 0.0 <==> sample == 0.0 || meanSpot * (b.kwh - b.kwhLo) <= b.sek - b.sekLo)
            && (sample == 0.0 ==> day == Points(0.0, 0.0))
  {
    hide SumOf;
    var sample, saved := Sample(b, meanSpot), Saved(b, meanSpot);
    if sample > 0.0 {
      PaidBelowFlat(b.kwh, b.sek, meanSpot);
      TotalSaving(b, meanSpot);
      var scale := sample / SumOf(saved);
      PositiveQuotient(sample, SumOf(saved));
      SignKept(saved.cheap, scale);
      SignKept(-saved.dear, scale);
      assert -saved.dear * scale == -(saved.dear * scale);
    } else {
      assert saved.cheap * 0.0 == 0.0 && saved.dear * 0.0 == 0.0;
    }
  }

  lemma PositiveQuotient(x: real, y: real)
    requires x > 0.0 && y > 0.0
    ensures x / y > 0.0
  {
  }

  lemma SignKept(x: real, scale: real)
    requires scale > 0.0
    ensures x * scale >= 0.0 <==> x >= 0.0
  {
  }

  // ----- the folded grade --------------------------------------------------------------------

  /** The held drivers, None before any day, and the grade, None before any day. */
  datatype Score = Score(drivers: Option<Points>, grade: Option<real>)

  function Held(s: Score): Points { if s.drivers.Some? then s.drivers.value else Points(0.0, 0.0) }

  /** What a fold keeps of an old value. */
  function Fading(x: real): real { (1.0 - SCORE_ALPHA) * x }

  function Blend(was: real, sample: real): real { Fading(was) + SCORE_ALPHA * sample }

  datatype Day = Day(book: Book, meanSpot: real)

  /** What the caller checks before it folds a day. */
  predicate Foldable(d: Day) { d.book.kwh > 0.0 && d.meanSpot > 0.0 }

  function Folded(s: Score, d: Day): Score
    requires Foldable(d)
  {
    var sample := Sample(d.book, d.meanSpot);
    var day := DayDrivers(d.book, d.meanSpot, sample);
    if s.grade.None? then Score(Some(day), Some(sample))
    else
      Score(Some(Points(Blend(Held(s).cheap, day.cheap), Blend(Held(s).dear, day.dear))),
            Some(Blend(s.grade.value, sample)))
  }

  /** What no held driver accounts for. */
  function EarlierDays(s: Score): real
    requires s.grade.Some?
  {
    s.grade.value - SumOf(Held(s))
  }

  datatype Published = Nothing | Drivers(cheap: real, dear: real, earlierDays: real)

  function Publish(s: Score): Published {
    if s.grade.None? then Nothing else Drivers(Held(s).cheap, Held(s).dear, EarlierDays(s))
  }

  predicate AllFoldable(days: seq<Day>) { forall i | 0 <= i < |days| :: Foldable(days[i]) }

  function FoldedAll(s: Score, days: seq<Day>): Score
    requires AllFoldable(days)
  {
    if days == [] then s else Folded(FoldedAll(s, days[..|days| - 1]), days[|days| - 1])
  }

  function Power(x: real, n: nat): real { if n == 0 then 1.0 else x * Power(x, n - 1) }

  /** The published drivers always sum to the grade. */
  lemma PublishedSumsToGrade(s: Score)
    ensures s.grade.Some? <==> Publish(s).Drivers?
    ensures s.grade.Some? ==> Publish(s).cheap + Publish(s).dear + Publish(s).earlierDays == s.grade.value
    ensures s.grade.Some? ==> Publish(s).earlierDays == EarlierDays(s)
  {
  }

  lemma BlendGap(grade: real, sample: real, c: real, d: real, cheap: real, dear: real)
    requires cheap + dear == sample
    ensures Blend(grade, sample) - (Blend(c, cheap) + Blend(d, dear)) == Fading(grade - (c + d))
  {
  }

  /** One fold: the unexplained part decays by the average's factor, and a first day leaves
      none. */
  lemma EarlierDecays(s: Score, d: Day)
    requires Foldable(d)
    ensures Folded(s, d).grade.Some?
    ensures EarlierDays(Folded(s, d)) == if s.grade.Some? then Fading(EarlierDays(s)) else 0.0
  {
    hide DayDrivers, Sample, Blend, Fading;
    DriversSumToSample(d.book, d.meanSpot);
    if s.grade.Some? {
      var day := DayDrivers(d.book, d.meanSpot, Sample(d.book, d.meanSpot));
      BlendGap(s.grade.value, Sample(d.book, d.meanSpot), Held(s).cheap, Held(s).dear, day.cheap, day.dear);
    }
  }

  /** After `n` days the unexplained part is exactly (1 - alpha)^n of what it was. */
  lemma {:induction false} EarlierAfterDays(s: Score, days: seq<Day>)
    requires AllFoldable(days) && s.grade.Some?
    ensures FoldedAll(s, days).grade.Some?
    ensures EarlierDays(FoldedAll(s, days)) == Power(1.0 - SCORE_ALPHA, |days|) * EarlierDays(s)
  {
    hide Folded, EarlierDays;
    if days != [] {
      var k := |days| - 1;
      EarlierAfterDays(s, days[..k]);
      EarlierDecays(FoldedAll(s, days[..k]), days[k]);
    }
  }

  /** What is published after `n` days: parts that sum to the grade, the unexplained one
      exactly (1 - alpha)^n of what it was. */
  lemma PublishedAfterDays(s: Score, days: seq<Day>)
    requires AllFoldable(days) && s.grade.Some?
    ensures var after := FoldedAll(s, days);
            var p := Publish(after);
            && p.Drivers? && after.grade == Some(p.cheap + p.dear + p.earlierDays)
            && p.earlierDays == Power(1.0 - SCORE_ALPHA, |days|) * EarlierDays(s)
  {
    hide FoldedAll, Power, Foldable, Publish, EarlierDays, Held;
    EarlierAfterDays(s, days);
    PublishedSumsToGrade(FoldedAll(s, days));
  }

  /** A grade folded from nothing is explained by its drivers in full, and stays a score. */
  lemma {:induction false} FreshGradeIsExplained(days: seq<Day>)
    requires AllFoldable(days) && days != []
    ensures var s := FoldedAll(Score(None, None), days);
            s.grade.Some? && EarlierDays(s) == 0.0 && 0.0 <= s.grade.value <= 100.0
  {
    hide Sample, DayDrivers, EarlierDays;
    var k := |days| - 1;
    var before := FoldedAll(Score(None, None), days[..k]);
    if k > 0 {
      FreshGradeIsExplained(days[..k]);
    }
    EarlierDecays(before, days[k]);
    DriversSumToSample(days[k].book, days[k].meanSpot);
  }

  /** `now` is a twentieth of the way from `was` to `target`, or the target itself. */
  predicate Steps(was: Option<real>, now: real, target: real) {
    if was.None? then now == target else now - was.value == 0.05 * (target - was.value)
  }

  /** One day folded: the grade moves towards the day's documented score, the drivers
      towards its split, all by the same share. */
  ghost predicate FoldsDay(was: Points, grade: Option<real>, b: Book, meanSpot: real, now: Points, result: real) {
    exists score: real, day: Points ::
      && Scores(score, b.sek, meanSpot * b.kwh) && Splits(day, score, b, meanSpot)
      && Steps(grade, result, score)
      && Steps(if grade.None? then None else Some(was.cheap), now.cheap, day.cheap)
      && Steps(if grade.None? then None else Some(was.dear), now.dear, day.dear)
  }

  lemma FoldedFoldsDay(s: Score, d: Day)
    requires Foldable(d)
    ensures var n := Folded(s, d);
            && n.grade.Some? && n.drivers.Some?
            && FoldsDay(Held(s), s.grade, d.book, d.meanSpot, n.drivers.value, n.grade.value)
  {
    hide Sample, DayDrivers, Scores, Splits;
    var sample := Sample(d.book, d.meanSpot);
    SampleScores(d.book, d.meanSpot);
    DriversSplit(d.book, d.meanSpot);
    assert Splits(DayDrivers(d.book, d.meanSpot, sample), sample, d.book, d.meanSpot);
  }

  // ----- the drivers in place --------------------------------------------------------------------

  datatype Code = CheapHours | DearHours

  /** The drivers held beside a grade, updated in place. */
  class HeldDrivers {
    var points: map<Code, real>

    constructor ()
      ensures points == map[]
    {
      points := map[];
    }

    function At(c: Code): real
      reads this
    {
      if c in points then points[c] else 0.0
    }

    function View(): Option<Points>
      reads this
    {
      if points == map[] then None else Some(Points(At(CheapHours), At(DearHours)))
    }

    /** Folds one priced day into the grade and the drivers. */
    method Fold(grade: Option<real>, book: Book, meanSpot: real) returns (sample: real)
      requires Foldable(Day(book, meanSpot))
      modifies this
      ensures Score(View(), Some(sample)) == Folded(Score(old(View()), grade), Day(book, meanSpot))
      ensures points.Keys == {CheapHours, DearHours}
      ensures FoldsDay(Points(old(At(CheapHours)), old(At(DearHours))), grade, book, meanSpot,
                       Points(At(CheapHours), At(DearHours)), sample)
    {
      hide DayDrivers, Sample, Blend, FoldsDay;
      FoldedFoldsDay(Score(View(), grade), Day(book, meanSpot));
      assert Held(Score(View(), grade)) == Points(At(CheapHours), At(DearHours));
      sample := Sample(book, meanSpot);
      var day := DayDrivers(book, meanSpot, sample);
      if grade.Some? {
        sample := Blend(grade.value, sample);
        day := Points(Blend(At(CheapHours), day.cheap), Blend(At(DearHours), day.dear));
      }
      points := map[CheapHours := day.cheap, DearHours := day.dear];
      assert CheapHours in points;
    }
  }
}
