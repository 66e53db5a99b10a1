/** Hot-water demand windows on the 24-hour clock, in whole minutes, and their
    canonical form: `_split_wrapping` and `_normalize` of dhw_schedule.py. */
module Windows {

  const DAY: int := 1440

  /** A window as written: an end at or before its start wraps past midnight. */
  datatype Window = Window(start: int, end: int)

  const FULL_DAY := Window(0, DAY)

  predicate InDay(w: Window) {
    0 <= w.start <= DAY && 0 <= w.end <= DAY
  }

  predicate AllInDay(ws: seq<Window>) {
    forall w | w in ws :: InDay(w)
  }

  /** The clock minutes a window as written stands for. */
  predicate WrittenCovers(w: Window, m: int) {
    if w.end > w.start then w.start <= m < w.end else m >= w.start || m < w.end
  }

  predicate SomeWrittenCovers(ws: seq<Window>, m: int) {
    exists i :: 0 <= i < |ws| && WrittenCovers(ws[i], m)
  }

  /** The minutes inside a list of non-wrapping windows. */
  predicate Covers(ws: seq<Window>, m: int) {
    exists i :: 0 <= i < |ws| && ws[i].start <= m < ws[i].end
  }

  /** The canonical form: ascending, non-empty, inside the day, and with a gap
      of at least a minute between neighbours. */
  predicate IsNormal(ws: seq<Window>) {
    && (forall i | 0 <= i < |ws| :: 0 <= ws[i].start < ws[i].end <= DAY)
    && (forall i, j | 0 <= i < j < |ws| :: ws[i].end < ws[j].start)
  }

  // ----- specification functions ------------------------------------------

  function Min(a: int, b: int): int { if a < b then a else b }

  function Max(a: int, b: int): int { if a < b then b else a }

  function NonEmpty(ws: seq<Window>): seq<Window> {
    if ws == [] then []
    else (if ws[0].end > ws[0].start then [ws[0]] else []) + NonEmpty(ws[1..])
  }

  function Pieces(w: Window): seq<Window> {
    if w.end > w.start then [Window(w.start, Min(w.end, DAY))]
    else [Window(w.start, DAY), Window(0, w.end)]
  }

  function AllPieces(ws: seq<Window>): seq<Window> {
    if ws == [] then [] else Pieces(ws[0]) + AllPieces(ws[1..])
  }

  /** Python's tuple order. */
  predicate Before(a: Window, b: Window) {
    a.start < b.start || (a.start == b.start && a.end <= b.end)
  }

  predicate Ascending(ws: seq<Window>) {
    forall i, j | 0 <= i < j < |ws| :: Before(ws[i], ws[j])
  }

  function Insert(w: Window, ws: seq<Window>): seq<Window> {
    if ws == [] then [w]
    else if Before(w, ws[0]) then [w] + ws
    else [ws[0]] + Insert(w, ws[1..])
  }

  lemma {:induction false} InsertElements(w: Window, ws: seq<Window>)
    ensures multiset(Insert(w, ws)) == multiset{w} + multiset(ws)
  {
    if ws != [] && !Before(w, ws[0]) {
      InsertElements(w, ws[1..]);
      assert ws == [ws[0]] + ws[1..];
    }
  }

  lemma {:induction false} InsertAscends(w: Window, ws: seq<Window>)
    requires Ascending(ws)
    ensures Ascending(Insert(w, ws))
  {
    if ws != [] && !Before(w, ws[0]) {
      InsertAscends(w, ws[1..]);
      InsertElements(w, ws[1..]);
      var tail := Insert(w, ws[1..]);
      forall j | 0 <= j < |tail| ensures Before(ws[0], tail[j]) {
        assert tail[j] in multiset(tail);
        if tail[j] != w {
          assert tail[j] in ws[1..];
        }
      }
    }
  }

  /** The library sort, fixed by its contract. */
  function Sorted(ws: seq<Window>): (r: seq<Window>)
    ensures Ascending(r) && multiset(r) == multiset(ws)
  {
    if ws == [] then []
    else
      assert ws == [ws[0]] + ws[1..];
      InsertAscends(ws[0], Sorted(ws[1..]));
      InsertElements(ws[0], Sorted(ws[1..]));
      Insert(ws[0], Sorted(ws[1..]))
  }

  /** One piece folded into the merged list: extend the last entry or append. */
  function Absorb(merged: seq<Window>, w: Window): seq<Window> {
    if merged != [] && w.start <= merged[|merged| - 1].end then
      var last := merged[|merged| - 1];
      merged[..|merged| - 1] + [Window(last.start, Max(last.end, w.end))]
    else merged + [w]
  }

  function Merge(merged: seq<Window>, rest: seq<Window>): seq<Window>
    decreases |rest|
  {
    if rest == [] then merged else Merge(Absorb(merged, rest[0]), rest[1..])
  }

  function Normalized(ws: seq<Window>): seq<Window> {
    var merged := Merge([], Sorted(NonEmpty(AllPieces(ws))));
    if |merged| == 1 && merged[0].start <= 0 && merged[0].end >= DAY then [FULL_DAY] else merged
  }

  // ----- what the canonical form means ---------------------------------------

  lemma NonEmptyCovers(ws: seq<Window>, m: int)
    ensures Covers(NonEmpty(ws), m) <==> Covers(ws, m)
    ensures forall w | w in NonEmpty(ws) :: w in ws && w.end > w.start
  {
    if ws != [] {
      NonEmptyCovers(ws[1..], m);
      assert ws == [ws[0]] + ws[1..];
      ConcatCovers([ws[0]], ws[1..], m);
      ConcatCovers(if ws[0].end > ws[0].start then [ws[0]] else [], NonEmpty(ws[1..]), m);
    }
  }

  lemma ConcatCovers(a: seq<Window>, b: seq<Window>, m: int)
    ensures Covers(a + b, m) <==> Covers(a, m) || Covers(b, m)
  {
    var c := a + b;
    if Covers(a, m) {
      var i :| 0 <= i < |a| && a[i].start <= m < a[i].end;
      assert c[i] == a[i];
    }
    if Covers(b, m) {
      var i :| 0 <= i < |b| && b[i].start <= m < b[i].end;
      assert c[|a| + i] == b[i];
    }
    if Covers(c, m) {
      var i :| 0 <= i < |c| && c[i].start <= m < c[i].end;
      assert c[i] == if i < |a| then a[i] else b[i - |a|];
    }
  }

  lemma PiecesCover(ws: seq<Window>, m: int)
    requires 0 <= m < DAY && AllInDay(ws)
    ensures Covers(AllPieces(ws), m) <==> SomeWrittenCovers(ws, m)
    ensures AllInDay(AllPieces(ws))
  {
    if ws != [] {
      assert forall w | w in ws[1..] :: w in ws;
      PiecesCover(ws[1..], m);
      ConcatCovers(Pieces(ws[0]), AllPieces(ws[1..]), m);
      var p := Pieces(ws[0]);
      assert ws[0] in ws;
      assert AllInDay(p);
      assert Covers(p, m) <==> WrittenCovers(ws[0], m) by {
        if ws[0].end > ws[0].start {
          assert p[0].start <= m < p[0].end <==> WrittenCovers(ws[0], m);
        } else {
          assert p[0].start <= m < p[0].end || p[1].start <= m < p[1].end <==> WrittenCovers(ws[0], m);
        }
      }
      if SomeWrittenCovers(ws, m) {
        var i :| 0 <= i < |ws| && WrittenCovers(ws[i], m);
        assert i > 0 ==> WrittenCovers(ws[1..][i - 1], m);
      }
      if SomeWrittenCovers(ws[1..], m) {
        var i :| 0 <= i < |ws[1..]| && WrittenCovers(ws[1..][i], m);
        assert WrittenCovers(ws[i + 1], m);
      }
    }
  }

  lemma SameElementsCover(a: seq<Window>, b: seq<Window>, m: int)
    requires multiset(a) == multiset(b)
    requires Covers(a, m)
    ensures Covers(b, m)
  {
    var i :| 0 <= i < |a| && a[i].start <= m < a[i].end;
    assert a[i] in multiset(b);
    var j :| 0 <= j < |b| && b[j] == a[i];
  }

  ghost predicate Mergeable(merged: seq<Window>, rest: seq<Window>) {
    && IsNormal(merged) && Ascending(rest)
    && (forall w | w in rest :: 0 <= w.start < w.end <= DAY)
    && (merged != [] && rest != [] ==> merged[|merged| - 1].start <= rest[0].start)
  }

  lemma AbsorbKeepsNormal(merged: seq<Window>, w: Window)
    requires IsNormal(merged) && 0 <= w.start < w.end <= DAY
    requires merged != [] ==> merged[|merged| - 1].start <= w.start
    ensures IsNormal(Absorb(merged, w))
    ensures Absorb(merged, w) != [] && Absorb(merged, w)[|Absorb(merged, w)| - 1].start <= w.start
  {
    if merged != [] {
      var n := |merged| - 1;
      assert forall i | 0 <= i < n :: merged[i].end < merged[n].start;
    }
  }

  lemma SingleCovers(w: Window, m: int)
    ensures Covers([w], m) <==> w.start <= m < w.end
  {
    assert [w][0] == w;
  }

  lemma AbsorbCovers(merged: seq<Window>, w: Window, m: int)
    requires IsNormal(merged) && w.start < w.end
    requires merged != [] ==> merged[|merged| - 1].start <= w.start
    ensures Covers(Absorb(merged, w), m) <==> Covers(merged, m) || w.start <= m < w.end
  {
    hide Covers;
    SingleCovers(w, m);
    if merged != [] && w.start <= merged[|merged| - 1].end {
      var init, last := merged[..|merged| - 1], merged[|merged| - 1];
      var joined := Window(last.start, Max(last.end, w.end));
      assert merged == init + [last];
      ConcatCovers(init, [last], m);
      ConcatCovers(init, [joined], m);
      SingleCovers(last, m);
      SingleCovers(joined, m);
    } else {
      ConcatCovers(merged, [w], m);
    }
  }

  lemma MergeableStep(merged: seq<Window>, rest: seq<Window>)
    requires Mergeable(merged, rest) && rest != []
    ensures Mergeable(Absorb(merged, rest[0]), rest[1..])
  {
    AbsorbKeepsNormal(merged, rest[0]);
    hide Absorb, IsNormal;
    assert rest[1..] != [] ==> Before(rest[0], rest[1..][0]);
  }

  lemma {:induction false} MergeStep(merged: seq<Window>, rest: seq<Window>, m: int)
    requires Mergeable(merged, rest)
    ensures IsNormal(Merge(merged, rest))
    ensures Covers(Merge(merged, rest), m) <==> Covers(merged, m) || Covers(rest, m)
    decreases |rest|
  {
    if rest != [] {
      MergeableStep(merged, rest);
      AbsorbCovers(merged, rest[0], m);
      HeadCovers(rest, m);
      hide Absorb, Covers, IsNormal;
      MergeStep(Absorb(merged, rest[0]), rest[1..], m);
    }
  }

  lemma HeadCovers(ws: seq<Window>, m: int)
    requires ws != []
    ensures Covers(ws, m) <==> ws[0].start <= m < ws[0].end || Covers(ws[1..], m)
  {
    assert ws == [ws[0]] + ws[1..];
    ConcatCovers([ws[0]], ws[1..], m);
    SingleCovers(ws[0], m);
  }

  /** The final full-day test of the code changes nothing on canonical lists. */
  lemma FullDayIsShortcut(merged: seq<Window>)
    requires IsNormal(merged)
    ensures |merged| == 1 && merged[0].start <= 0 && merged[0].end >= DAY ==> merged == [FULL_DAY]
  {
  }

  lemma NormalizedCovers(ws: seq<Window>, m: int)
    requires AllInDay(ws) && 0 <= m < DAY
    ensures IsNormal(Normalized(ws))
    ensures Covers(Normalized(ws), m) <==> SomeWrittenCovers(ws, m)
  {
    var pieces := AllPieces(ws);
    var kept := NonEmpty(pieces);
    var flat := Sorted(kept);
    PiecesCover(ws, m);
    NonEmptyCovers(pieces, m);
    assert Covers(flat, m) <==> Covers(kept, m) by {
      if Covers(flat, m) { SameElementsCover(flat, kept, m); }
      if Covers(kept, m) { SameElementsCover(kept, flat, m); }
    }
    assert Mergeable([], flat) by {
      forall w | w in flat ensures 0 <= w.start < w.end <= DAY {
        assert w in multiset(flat) && w in kept;
      }
    }
    MergeStep([], flat, m);
    FullDayIsShortcut(Merge([], flat));
  }

  /** The canonical form is sorted, separated, inside the day, and covers exactly
      the clock minutes the windows cover as written, through midnight. */
  lemma NormalizedIsCanonical(ws: seq<Window>)
    requires AllInDay(ws)
    ensures IsNormal(Normalized(ws))
    ensures forall m | 0 <= m < DAY :: Covers(Normalized(ws), m) <==> SomeWrittenCovers(ws, m)
  {
    NormalizedCovers(ws, 0);
    forall m | 0 <= m < DAY
      ensures Covers(Normalized(ws), m) <==> SomeWrittenCovers(ws, m)
    {
      NormalizedCovers(ws, m);
    }
  }

  lemma GapAfterFirst(b: seq<Window>)
    requires IsNormal(b) && b != []
    ensures !Covers(b, b[0].end)
  {
  }

  lemma FirstIsCovered(a: seq<Window>)
    requires a != []
    ensures forall m | a[0].start <= m < a[0].end :: Covers(a, m)
  {
  }

  lemma FirstAgrees(a: seq<Window>, b: seq<Window>)
    requires IsNormal(a) && IsNormal(b) && a != []
    requires forall m :: Covers(a, m) <==> Covers(b, m)
    ensures b != [] && a[0].start >= b[0].start
    ensures a[0].start == b[0].start ==> a[0].end <= b[0].end
  {
    assert Covers(a, a[0].start);
    var j :| 0 <= j < |b| && b[j].start <= a[0].start < b[j].end;
    GapAfterFirst(b);
    FirstIsCovered(a);
  }

  lemma TailCovers(a: seq<Window>, m: int)
    requires IsNormal(a) && a != []
    ensures Covers(a[1..], m) <==> Covers(a, m) && m >= a[0].end
  {
    assert a == [a[0]] + a[1..];
    ConcatCovers([a[0]], a[1..], m);
    if Covers(a, m) && m >= a[0].end {
      var i :| 0 <= i < |a| && a[i].start <= m < a[i].end;
      assert a[1..][i - 1] == a[i];
    }
  }

  /** Two canonical lists covering the same minutes are the same list. */
  lemma {:induction false} CanonicalUnique(a: seq<Window>, b: seq<Window>)
    requires IsNormal(a) && IsNormal(b)
    requires forall m :: Covers(a, m) <==> Covers(b, m)
    ensures a == b
    decreases |a|
  {
    if a == [] {
      if b != [] { FirstAgrees(b, a); }
    } else {
      FirstAgrees(a, b);
      FirstAgrees(b, a);
      forall m ensures Covers(a[1..], m) <==> Covers(b[1..], m) {
        TailCovers(a, m);
        TailCovers(b, m);
      }
      CanonicalUnique(a[1..], b[1..]);
      assert a == [a[0]] + a[1..] && b == [b[0]] + b[1..];
    }
  }

  /** Lists of windows standing for the same clock times have the same canonical
      form, and only those. */
  lemma SameTimesSameForm(ws: seq<Window>, vs: seq<Window>)
    requires AllInDay(ws) && AllInDay(vs)
    ensures Normalized(ws) == Normalized(vs)
       <==> forall m | 0 <= m < DAY :: SomeWrittenCovers(ws, m) <==> SomeWrittenCovers(vs, m)
  {
    NormalizedIsCanonical(ws);
    NormalizedIsCanonical(vs);
    if forall m | 0 <= m < DAY :: SomeWrittenCovers(ws, m) <==> SomeWrittenCovers(vs, m) {
      forall m ensures Covers(Normalized(ws), m) <==> Covers(Normalized(vs), m) {
        if 0 <= m < DAY {
          assert Covers(Normalized(ws), m) <==> SomeWrittenCovers(ws, m);
          assert Covers(Normalized(vs), m) <==> SomeWrittenCovers(vs, m);
        }
      }
      CanonicalUnique(Normalized(ws), Normalized(vs));
    } else {
      var m :| 0 <= m < DAY && (SomeWrittenCovers(ws, m) <==> !SomeWrittenCovers(vs, m));
      assert Covers(Normalized(ws), m) <==> !Covers(Normalized(vs), m);
    }
  }

  /** A canonical list is its own canonical form. */
  lemma NormalIsFixed(ws: seq<Window>)
    requires IsNormal(ws)
    ensures Normalized(ws) == ws
  {
    NormalizedIsCanonical(ws);
    forall m ensures Covers(Normalized(ws), m) <==> Covers(ws, m) {
      if 0 <= m < DAY {
        assert Covers(Normalized(ws), m) <==> SomeWrittenCovers(ws, m);
        if SomeWrittenCovers(ws, m) {
          var i :| 0 <= i < |ws| && WrittenCovers(ws[i], m);
          assert ws[i].start <= m < ws[i].end;
        }
        if Covers(ws, m) {
          var i :| 0 <= i < |ws| && ws[i].start <= m < ws[i].end;
          assert WrittenCovers(ws[i], m);
        }
      }
    }
    CanonicalUnique(Normalized(ws), ws);
  }

  // ----- the code ------------------------------------------------------------

  lemma {:induction false} AllPiecesAppend(ws: seq<Window>, w: Window)
    ensures AllPieces(ws + [w]) == AllPieces(ws) + Pieces(w)
  {
    hide Pieces;
    if ws == [] {
      assert [w][1..] == [] && AllPieces([w]) == Pieces(w) + AllPieces([]);
    } else {
      AllPiecesAppend(ws[1..], w);
      assert (ws + [w])[1..] == ws[1..] + [w];
      assert Pieces(ws[0]) + (AllPieces(ws[1..]) + Pieces(w)) == (Pieces(ws[0]) + AllPieces(ws[1..])) + Pieces(w);
    }
  }

  lemma {:induction false} NonEmptyAppend(ws: seq<Window>, w: Window)
    ensures NonEmpty(ws + [w]) == NonEmpty(ws) + if w.end > w.start then [w] else []
  {
    if ws == [] {
      assert [w][1..] == [];
    } else {
      NonEmptyAppend(ws[1..], w);
      assert (ws + [w])[1..] == ws[1..] + [w];
      var head, last := if ws[0].end > ws[0].start then [ws[0]] else [], if w.end > w.start then [w] else [];
      assert head + (NonEmpty(ws[1..]) + last) == (head + NonEmpty(ws[1..])) + last;
    }
  }

  lemma {:induction false} MergeAppend(merged: seq<Window>, rest: seq<Window>, w: Window)
    ensures Merge(merged, rest + [w]) == Absorb(Merge(merged, rest), w)
    decreases |rest|
  {
    if rest == [] {
      assert [w][1..] == [];
    } else {
      MergeAppend(Absorb(merged, rest[0]), rest[1..], w);
      assert (rest + [w])[1..] == rest[1..] + [w];
    }
  }

  method SplitWrapping(windows: seq<Window>) returns (flat: seq<Window>)
    ensures flat == NonEmpty(AllPieces(windows))
  {
    var pieces: seq<Window> := [];
    for i := 0 to |windows|
      invariant pieces == AllPieces(windows[..i])
    {
      var w := windows[i];
      AllPiecesAppend(windows[..i], w);
      assert windows[..i + 1] == windows[..i] + [w];
      if w.end > w.start {
        pieces := pieces + [Window(w.start, Min(w.end, DAY))];
      } else {
        pieces := pieces + [Window(w.start, DAY)];
        pieces := pieces + [Window(0, w.end)];
      }
    }
    assert windows[..|windows|] == windows;
    flat := [];
    for i := 0 to |pieces|
      invariant flat == NonEmpty(pieces[..i])
    {
      NonEmptyAppend(pieces[..i], pieces[i]);
      assert pieces[..i + 1] == pieces[..i] + [pieces[i]];
      if pieces[i].end > pieces[i].start {
        flat := flat + [pieces[i]];
      }
    }
    assert pieces[..|pieces|] == pieces;
  }

  lemma MergeFirst(w: Window)
    ensures Merge([], [w]) == [w]
  {
    assert [w][1..] == [] && [] + [w] == [w];
    assert Absorb([], w) == [w] && Merge([w], []) == [w];
  }

  lemma AbsorbInPlace(merged: seq<Window>, w: Window)
    requires merged != []
    ensures var k := |merged| - 1;
            Absorb(merged, w) == if w.start <= merged[k].end
                                 then merged[k := Window(merged[k].start, Max(merged[k].end, w.end))]
                                 else merged + [w]
  {
  }

  method MergeOverlaps(flat: seq<Window>) returns (merged: seq<Window>)
    requires flat != []
    ensures merged == Merge([], flat)
  {
    hide Merge, Absorb;
    merged := [flat[0]];
    MergeFirst(flat[0]);
    assert flat[..1] == [flat[0]];
    for i := 1 to |flat|
      invariant merged != []
      invariant merged == Merge([], flat[..i])
    {
      MergeAppend([], flat[..i], flat[i]);
      AbsorbInPlace(merged, flat[i]);
      assert flat[..i + 1] == flat[..i] + [flat[i]];
      var last := merged[|merged| - 1];
      if flat[i].start <= last.end {
        merged := merged[|merged| - 1 := Window(last.start, Max(last.end, flat[i].end))];
      } else {
        merged := merged + [flat[i]];
      }
    }
    assert flat[..|flat|] == flat;
  }

  method Normalize(windows: seq<Window>) returns (out: seq<Window>)
    ensures out == Normalized(windows)
    ensures AllInDay(windows) ==> IsNormal(out)
    ensures AllInDay(windows) ==>
              forall m | 0 <= m < DAY :: Covers(out, m) <==> SomeWrittenCovers(windows, m)
  {
    var pieces := SplitWrapping(windows);
    var flat := Sorted(pieces);
    if flat == [] {
      out := [];
    } else {
      var merged := MergeOverlaps(flat);
      if |merged| == 1 && merged[0].start <= 0 && merged[0].end >= DAY {
        out := [FULL_DAY];
      } else {
        out := merged;
      }
    }
    if AllInDay(windows) {
      NormalizedIsCanonical(windows);
    }
  }
}
