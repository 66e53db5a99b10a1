/** The batched reduction of batchmath.py: numpy's pairwise order written out as
    column arithmetic. Addition is an arbitrary operation, not assumed associative
    or commutative: agreement is step for step, not up to rounding. */
module RowSums {

  const PAIRWISE_BLOCK: nat := 128

  type Matrix<F> = seq<seq<F>>

  predicate Rectangular<F>(rows: Matrix<F>, n: nat) {
    forall b | 0 <= b < |rows| :: |rows[b]| == n
  }

  // ----- the scalar order, row by row -----------------------------------------------------

  /** Where a wide row is split: half, rounded down to a multiple of eight. */
  function Half(n: nat): (half: nat)
    requires n > PAIRWISE_BLOCK
    ensures 0 < half < n && half % 8 == 0
  {
    n / 2 - n / 2 % 8
  }

  /** Left-to-right from a start value. */
  function FoldFrom<F>(add: (F, F) -> F, start: F, xs: seq<F>): F {
    if xs == [] then start else add(FoldFrom(add, start, xs[..|xs| - 1]), xs[|xs| - 1])
  }

  /** Lane `l` of eight after `blocks` blocks: x[l], x[l+8], x[l+16], ... in order. */
  function Lane<F>(add: (F, F) -> F, xs: seq<F>, l: nat, blocks: nat): F
    requires 0 < blocks && 8 * blocks <= |xs| && l < 8
  {
    if blocks == 1 then xs[l] else add(Lane(add, xs, l, blocks - 1), xs[8 * (blocks - 1) + l])
  }

  /** The fixed tree that combines the eight lanes. */
  function Tree<F>(add: (F, F) -> F, p: seq<F>): F
    requires |p| == 8
  {
    add(add(add(p[0], p[1]), add(p[2], p[3])), add(add(p[4], p[5]), add(p[6], p[7])))
  }

  function Lanes<F>(add: (F, F) -> F, xs: seq<F>, blocks: nat): seq<F>
    requires 0 < blocks && 8 * blocks <= |xs|
  {
    seq(8, l requires 0 <= l < 8 => Lane(add, xs, l, blocks))
  }

  /** numpy's scalar sum of one fresh row. */
  function PairwiseSum<F>(add: (F, F) -> F, zero: F, negZero: F, xs: seq<F>): F
    decreases |xs|
  {
    if |xs| > PAIRWISE_BLOCK then
      add(PairwiseSum(add, zero, negZero, xs[..Half(|xs|)]), PairwiseSum(add, zero, negZero, xs[Half(|xs|)..]))
    else if |xs| < 8 then add(zero, FoldFrom(add, negZero, xs))
    else
      var blocks := |xs| / 8;
      add(zero, FoldFrom(add, Tree(add, Lanes(add, xs, blocks)), xs[8 * blocks..]))
  }

  // ----- the code --------------------------------------------------------------------------

  /** `rows[:, j]`. */
  function Column<F>(rows: Matrix<F>, n: nat, j: nat): (c: seq<F>)
    requires Rectangular(rows, n) && j < n
    ensures |c| == |rows| && forall b | 0 <= b < |rows| :: c[b] == rows[b][j]
  {
    seq(|rows|, b requires 0 <= b < |rows| => rows[b][j])
  }

  /** One elementwise `+` across the batch. */
  function AddColumns<F>(add: (F, F) -> F, x: seq<F>, y: seq<F>): (c: seq<F>)
    requires |x| == |y|
    ensures |c| == |x| && forall b | 0 <= b < |x| :: c[b] == add(x[b], y[b])
  {
    seq(|x|, b requires 0 <= b < |x| => add(x[b], y[b]))
  }

  function Slice<F>(rows: Matrix<F>, n: nat, lo: nat, hi: nat): (s: Matrix<F>)
    requires Rectangular(rows, n) && lo <= hi <= n
    ensures |s| == |rows| && Rectangular(s, hi - lo)
    ensures forall b | 0 <= b < |rows| :: s[b] == rows[b][lo..hi]
  {
    seq(|rows|, b requires 0 <= b < |rows| => rows[b][lo..hi])
  }

  /** Columns `from` to `to` added to a running total, left to right. */
  method AddTail<F>(add: (F, F) -> F, start: seq<F>, rows: Matrix<F>, n: nat, from: nat, to: nat)
    returns (total: seq<F>)
    requires Rectangular(rows, n) && from <= to <= n && |start| == |rows|
    ensures |total| == |rows|
    ensures forall b | 0 <= b < |rows| :: total[b] == FoldFrom(add, start[b], rows[b][from..to])
  {
    total := start;
    for j := from to to
      invariant |total| == |rows|
      invariant forall b | 0 <= b < |rows| :: total[b] == FoldFrom(add, start[b], rows[b][from..j])
    {
      forall b | 0 <= b < |rows|
        ensures FoldFrom(add, start[b], rows[b][from..j + 1]) == add(FoldFrom(add, start[b], rows[b][from..j]), rows[b][j])
      {
        assert rows[b][from..j + 1][..j - from] == rows[b][from..j];
      }
      total := AddColumns(add, total, Column(rows, n, j));
    }
  }

  /** The eight partial columns, each block added to them in place. */
  method Partials<F>(add: (F, F) -> F, rows: Matrix<F>, n: nat) returns (partial: seq<seq<F>>)
    requires Rectangular(rows, n) && 8 <= n
    ensures |partial| == 8 && forall l | 0 <= l < 8 :: |partial[l]| == |rows|
    ensures forall l, b | 0 <= l < 8 && 0 <= b < |rows| :: partial[l][b] == Lane(add, rows[b], l, n / 8)
  {
    partial := seq(8, l requires 0 <= l < 8 => Column(rows, n, l));
    for k := 1 to n / 8
      invariant |partial| == 8 && forall l | 0 <= l < 8 :: |partial[l]| == |rows|
      invariant forall l, b | 0 <= l < 8 && 0 <= b < |rows| :: partial[l][b] == Lane(add, rows[b], l, k)
    {
      partial := seq(8, l requires 0 <= l < 8 => AddColumns(add, partial[l], Column(rows, n, 8 * k + l)));
    }
  }

  method RowSums<F>(add: (F, F) -> F, zero: F, negZero: F, rows: Matrix<F>, n: nat) returns (sums: seq<F>)
    requires Rectangular(rows, n)
    ensures |sums| == |rows|
    ensures forall b | 0 <= b < |rows| :: sums[b] == PairwiseSum(add, zero, negZero, rows[b])
    decreases n
  {
    var zeros := seq(|rows|, _ => zero);
    if n > PAIRWISE_BLOCK {
      var half := Half(n);
      var left := RowSums(add, zero, negZero, Slice(rows, n, 0, half), half);
      var right := RowSums(add, zero, negZero, Slice(rows, n, half, n), n - half);
      sums := AddColumns(add, left, right);
      forall b | 0 <= b < |rows| ensures sums[b] == PairwiseSum(add, zero, negZero, rows[b]) {
        assert rows[b][0..half] == rows[b][..half] && rows[b][half..n] == rows[b][half..];
      }
      return;
    }
    if n < 8 {
      var total := AddTail(add, seq(|rows|, _ => negZero), rows, n, 0, n);
      sums := AddColumns(add, zeros, total);
      forall b | 0 <= b < |rows| ensures sums[b] == PairwiseSum(add, zero, negZero, rows[b]) {
        assert rows[b][0..n] == rows[b];
      }
      return;
    }
    var partial := Partials(add, rows, n);
    var stop := n - n % 8;
    var tree := AddColumns(add,
                  AddColumns(add, AddColumns(add, partial[0], partial[1]), AddColumns(add, partial[2], partial[3])),
                  AddColumns(add, AddColumns(add, partial[4], partial[5]), AddColumns(add, partial[6], partial[7])));
    var total := AddTail(add, tree, rows, n, stop, n);
    sums := AddColumns(add, zeros, total);
    forall b | 0 <= b < |rows| ensures sums[b] == PairwiseSum(add, zero, negZero, rows[b]) {
      assert rows[b][stop..n] == rows[b][stop..] && stop == 8 * (n / 8);
      assert tree[b] == Tree(add, Lanes(add, rows[b], n / 8));
    }
  }

  // ----- the order, outright ------------------------------------------------------------

  /** Over 128 values: the two halves' own sums, the first half cut down to whole eights. */
  lemma WideOrder<F>(add: (F, F) -> F, zero: F, negZero: F, xs: seq<F>, h: nat)
    requires |xs| > 128 && h % 8 == 0 && 2 * h <= |xs| < 2 * h + 16
    ensures PairwiseSum(add, zero, negZero, xs)
         == add(PairwiseSum(add, zero, negZero, xs[..h]), PairwiseSum(add, zero, negZero, xs[h..]))
  {
    assert h == Half(|xs|);
  }

  /** Eight to 128 values: the eight lanes meet in pairs, and what is left over is added after
      them, in order. */
  lemma BlockOrder<F>(add: (F, F) -> F, zero: F, negZero: F, xs: seq<F>, k: nat)
    requires 8 <= |xs| <= 128 && 8 * k <= |xs| < 8 * k + 8
    ensures var l := seq(8, i requires 0 <= i < 8 => Lane(add, xs, i, k));
            PairwiseSum(add, zero, negZero, xs)
            == add(zero, FoldFrom(add, add(add(add(l[0], l[1]), add(l[2], l[3])), add(add(l[4], l[5]), add(l[6], l[7]))),
                                  xs[8 * k..]))
  {
    hide Lane, FoldFrom;
    assert k == |xs| / 8;
    assert Lanes(add, xs, k) == seq(8, i requires 0 <= i < 8 => Lane(add, xs, i, k));
  }

  /** Lane `l` holds the values whose index leaves `l` over eight, added in order. */
  lemma LaneOrder<F>(add: (F, F) -> F, xs: seq<F>, l: nat, k: nat)
    requires l < 8 && 1 <= k && 8 * (k + 1) <= |xs|
    ensures Lane(add, xs, l, 1) == xs[l]
    ensures Lane(add, xs, l, k + 1) == add(Lane(add, xs, l, k), xs[8 * k + l])
  {
  }

  /** Fewer than eight: from negative zero, left to right, and zero added last. */
  lemma NarrowOrder<F>(add: (F, F) -> F, zero: F, negZero: F, xs: seq<F>)
    requires |xs| < 8
    ensures PairwiseSum(add, zero, negZero, xs) == add(zero, FoldFrom(add, negZero, xs))
    ensures FoldFrom(add, negZero, []) == negZero
    ensures forall n: nat | n < |xs| :: FoldFrom(add, negZero, xs[..n + 1]) == add(FoldFrom(add, negZero, xs[..n]), xs[n])
  {
    forall n: nat | n < |xs|
      ensures FoldFrom(add, negZero, xs[..n + 1]) == add(FoldFrom(add, negZero, xs[..n]), xs[n])
    {
      assert xs[..n + 1][..n] == xs[..n];
    }
  }

  // ----- what the order computes when order does not matter -----------------------------------

  ghost predicate CommutativeMonoid<F(!new)>(add: (F, F) -> F, zero: F) {
    && (forall x, y :: add(x, y) == add(y, x))
    && (forall x, y, z :: add(add(x, y), z) == add(x, add(y, z)))
    && (forall x :: add(zero, x) == x)
  }

  lemma Medial<F(!new)>(add: (F, F) -> F, zero: F, a: F, b: F, c: F, d: F)
    requires CommutativeMonoid(add, zero)
    ensures add(add(a, b), add(c, d)) == add(add(a, c), add(b, d))
  {
    calc {
      add(add(a, b), add(c, d));
      add(a, add(b, add(c, d)));
      add(a, add(add(b, c), d));
      add(a, add(add(c, b), d));
      add(a, add(c, add(b, d)));
      add(add(a, c), add(b, d));
    }
  }

  lemma {:induction false} FoldMoves<F(!new)>(add: (F, F) -> F, zero: F, start: F, xs: seq<F>)
    requires CommutativeMonoid(add, zero)
    ensures FoldFrom(add, start, xs) == add(start, FoldFrom(add, zero, xs))
  {
    if xs == [] {
      assert add(start, zero) == add(zero, start);
    } else {
      FoldMoves(add, zero, start, xs[..|xs| - 1]);
    }
  }

  lemma {:induction false} FoldConcat<F(!new)>(add: (F, F) -> F, start: F, xs: seq<F>, ys: seq<F>)
    ensures FoldFrom(add, start, xs + ys) == FoldFrom(add, FoldFrom(add, start, xs), ys)
  {
    if ys == [] {
      assert xs + ys == xs;
    } else {
      FoldConcat(add, start, xs, ys[..|ys| - 1]);
      assert (xs + ys)[..|xs + ys| - 1] == xs + ys[..|ys| - 1];
    }
  }

  function Plain<F>(add: (F, F) -> F, zero: F, xs: seq<F>): F { FoldFrom(add, zero, xs) }

  lemma PlainConcat<F(!new)>(add: (F, F) -> F, zero: F, xs: seq<F>, ys: seq<F>)
    requires CommutativeMonoid(add, zero)
    ensures Plain(add, zero, xs + ys) == add(Plain(add, zero, xs), Plain(add, zero, ys))
  {
    FoldConcat(add, zero, xs, ys);
    FoldMoves(add, zero, Plain(add, zero, xs), ys);
  }

  lemma TreeAdds<F(!new)>(add: (F, F) -> F, zero: F, p: seq<F>, q: seq<F>, r: seq<F>)
    requires CommutativeMonoid(add, zero)
    requires |p| == 8 && |q| == 8 && |r| == 8 && forall l | 0 <= l < 8 :: r[l] == add(p[l], q[l])
    ensures Tree(add, r) == add(Tree(add, p), Tree(add, q))
  {
    hide CommutativeMonoid;
    Medial(add, zero, p[0], q[0], p[1], q[1]);
    Medial(add, zero, p[2], q[2], p[3], q[3]);
    Medial(add, zero, p[4], q[4], p[5], q[5]);
    Medial(add, zero, p[6], q[6], p[7], q[7]);
    Medial(add, zero, add(p[0], p[1]), add(q[0], q[1]), add(p[2], p[3]), add(q[2], q[3]));
    Medial(add, zero, add(p[4], p[5]), add(q[4], q[5]), add(p[6], p[7]), add(q[6], q[7]));
    Medial(add, zero, add(add(p[0], p[1]), add(p[2], p[3])), add(add(q[0], q[1]), add(q[2], q[3])),
           add(add(p[4], p[5]), add(p[6], p[7])), add(add(q[4], q[5]), add(q[6], q[7])));
  }

  lemma PlainPair<F(!new)>(add: (F, F) -> F, zero: F, xs: seq<F>)
    requires CommutativeMonoid(add, zero) && |xs| == 2
    ensures Plain(add, zero, xs) == add(xs[0], xs[1])
  {
    assert xs[..1][..0] == [];
    assert FoldFrom(add, zero, xs[..1]) == add(zero, xs[0]);
  }

  lemma TreeOfEight<F(!new)>(add: (F, F) -> F, zero: F, xs: seq<F>)
    requires CommutativeMonoid(add, zero) && |xs| == 8
    ensures Tree(add, xs) == Plain(add, zero, xs)
  {
    hide CommutativeMonoid, Plain;
    var a, b, c, d := xs[0..2], xs[2..4], xs[4..6], xs[6..8];
    PlainPair(add, zero, a);
    PlainPair(add, zero, b);
    PlainPair(add, zero, c);
    PlainPair(add, zero, d);
    PlainConcat(add, zero, a, b);
    PlainConcat(add, zero, c, d);
    PlainConcat(add, zero, a + b, c + d);
    assert xs == (a + b) + (c + d);
  }

  lemma {:induction false} LanesCover<F(!new)>(add: (F, F) -> F, zero: F, xs: seq<F>, blocks: nat)
    requires CommutativeMonoid(add, zero) && 0 < blocks && 8 * blocks <= |xs|
    ensures Tree(add, Lanes(add, xs, blocks)) == Plain(add, zero, xs[..8 * blocks])
    decreases blocks
  {
    hide CommutativeMonoid, Plain, Tree;
    if blocks == 1 {
      assert Lanes(add, xs, 1) == xs[..8];
      TreeOfEight(add, zero, xs[..8]);
    } else {
      var done, block := xs[..8 * (blocks - 1)], xs[8 * (blocks - 1)..8 * blocks];
      LanesCover(add, zero, xs, blocks - 1);
      TreeAdds(add, zero, Lanes(add, xs, blocks - 1), block, Lanes(add, xs, blocks));
      TreeOfEight(add, zero, block);
      PlainConcat(add, zero, done, block);
      assert xs[..8 * blocks] == done + block;
    }
  }

  lemma Neutral<F(!new)>(add: (F, F) -> F, zero: F, x: F)
    requires CommutativeMonoid(add, zero)
    ensures add(zero, x) == x
  {
  }

  /** With an associative, commutative addition with a neutral zero, the pairwise
      order computes the plain sum. */
  lemma {:induction false} PairwiseIsPlain<F(!new)>(add: (F, F) -> F, zero: F, xs: seq<F>)
    requires CommutativeMonoid(add, zero)
    ensures PairwiseSum(add, zero, zero, xs) == Plain(add, zero, xs)
    decreases |xs|
  {
    hide CommutativeMonoid, Tree, Lanes;
    if |xs| > PAIRWISE_BLOCK {
      var half := Half(|xs|);
      PairwiseIsPlain(add, zero, xs[..half]);
      PairwiseIsPlain(add, zero, xs[half..]);
      PlainConcat(add, zero, xs[..half], xs[half..]);
      assert xs == xs[..half] + xs[half..];
    } else {
      Neutral(add, zero, Plain(add, zero, xs));
      if |xs| >= 8 {
        var stop := 8 * (|xs| / 8);
        LanesCover(add, zero, xs, |xs| / 8);
        FoldConcat(add, zero, xs[..stop], xs[stop..]);
        assert xs == xs[..stop] + xs[stop..];
      }
    }
  }

  /** A row of a batch is its own scalar sum: the rest of the batch does not matter. */
  method BatchIgnoresOthers<F>(add: (F, F) -> F, zero: F, negZero: F, rows: Matrix<F>, n: nat, b: nat)
    returns (alone: F, batched: F)
    requires Rectangular(rows, n) && b < |rows|
    ensures alone == batched == PairwiseSum(add, zero, negZero, rows[b])
  {
    var single := RowSums(add, zero, negZero, [rows[b]], n);
    var sums := RowSums(add, zero, negZero, rows, n);
    return single[0], sums[b];
  }
}
