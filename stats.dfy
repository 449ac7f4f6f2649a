/** Column reductions as pandas computes them on a table without missing values:
    `col.sum()`, `col.mean()`, a boolean mask's `.sum()`, and the share of a
    0/1 flag column in percent. */
module Stats {

  /** `sum(f(r) for r in rows)`. */
  function SumOf<T>(rows: seq<T>, f: T -> real): real
  {
    if rows == [] then 0.0 else f(rows[0]) + SumOf(rows[1..], f)
  }

  /** `sum(f(r) for r in rows)` on an integer column. */
  function IntSumOf<T>(rows: seq<T>, f: T -> int): int
  {
    if rows == [] then 0 else f(rows[0]) + IntSumOf(rows[1..], f)
  }

  /** `col.mean()` of a non-empty column. */
  function MeanOf<T>(rows: seq<T>, f: T -> real): real
    requires rows != []
  {
    SumOf(rows, f) / (|rows| as real)
  }

  /** The number of rows a boolean mask selects. */
  function CountWhere<T>(rows: seq<T>, p: T -> bool): (n: nat)
    ensures n <= |rows|
  {
    if rows == [] then 0 else (if p(rows[0]) then 1 else 0) + CountWhere(rows[1..], p)
  }

  /** `(total / n) * 100`: a total as a percentage of `n` rows. */
  function Percent(total: real, n: nat): real
    requires n > 0
  {
    (total / (n as real)) * 100.0
  }

  /** An upper bound on each value bounds the sum. */
  lemma {:induction false} SumAtMost<T>(rows: seq<T>, f: T -> real, hi: real)
    requires forall r :: r in rows ==> f(r) <= hi
    ensures SumOf(rows, f) <= hi * (|rows| as real)
  {
    if rows != [] {
      SumAtMost(rows[1..], f, hi);
      assert hi * (|rows| as real) == hi + hi * (|rows[1..]| as real);
    }
  }

  /** A lower bound on each value bounds the sum. */
  lemma {:induction false} SumAtLeast<T>(rows: seq<T>, f: T -> real, lo: real)
    requires forall r :: r in rows ==> lo <= f(r)
    ensures lo * (|rows| as real) <= SumOf(rows, f)
  {
    if rows != [] {
      SumAtLeast(rows[1..], f, lo);
      assert lo * (|rows| as real) == lo + lo * (|rows[1..]| as real);
    }
  }

  /** Bounds on each value bound the sum. */
  lemma SumBounds<T>(rows: seq<T>, f: T -> real, lo: real, hi: real)
    requires forall r :: r in rows ==> lo <= f(r) <= hi
    ensures lo * (|rows| as real) <= SumOf(rows, f) <= hi * (|rows| as real)
  {
    SumAtMost(rows, f, hi);
    SumAtLeast(rows, f, lo);
  }

  /** The mean is at most the largest value. */
  lemma MeanAtMost<T>(rows: seq<T>, f: T -> real, hi: real)
    requires rows != []
    requires forall r :: r in rows ==> f(r) <= hi
    ensures MeanOf(rows, f) <= hi
  {
    SumAtMost(rows, f, hi);
    DivideBoundsAbove(SumOf(rows, f), |rows| as real, hi);
  }

  /** The mean is at least the smallest value. */
  lemma MeanAtLeast<T>(rows: seq<T>, f: T -> real, lo: real)
    requires rows != []
    requires forall r :: r in rows ==> lo <= f(r)
    ensures lo <= MeanOf(rows, f)
  {
    SumAtLeast(rows, f, lo);
    DivideBounds(SumOf(rows, f), |rows| as real, lo);
  }

  /** The mean lies between the smallest and the largest bound of the values. */
  lemma MeanBounds<T>(rows: seq<T>, f: T -> real, lo: real, hi: real)
    requires rows != []
    requires forall r :: r in rows ==> lo <= f(r) <= hi
    ensures lo <= MeanOf(rows, f) <= hi
  {
    MeanAtMost(rows, f, hi);
    MeanAtLeast(rows, f, lo);
  }

  lemma DivideBounds(s: real, n: real, lo: real)
    requires n > 0.0 && s >= lo * n
    ensures s / n >= lo
  {
  }

  lemma DivideBoundsAbove(s: real, n: real, hi: real)
    requires n > 0.0 && s <= hi * n
    ensures s / n <= hi
  {
  }

  /** A percentage of a total between 0 and `n` lies in [0, 100]. */
  lemma PercentBounds(total: real, n: nat)
    requires n > 0 && 0.0 <= total <= n as real
    ensures 0.0 <= Percent(total, n) <= 100.0
  {
    var q := total / (n as real);
    DivideBounds(total, n as real, 0.0);
    DivideBoundsAbove(total, n as real, 1.0);
    assert 0.0 <= q <= 1.0;
  }

  /** The share of a 0/1 flag column, in percent, lies in [0, 100]. */
  lemma FlagPercentBounds<T>(rows: seq<T>, f: T -> real)
    requires rows != []
    requires forall r :: r in rows ==> 0.0 <= f(r) <= 1.0
    ensures 0.0 <= Percent(SumOf(rows, f), |rows|) <= 100.0
  {
    SumBounds(rows, f, 0.0, 1.0);
    PercentBounds(SumOf(rows, f), |rows|);
  }

  /** The total of a 0/1 integer column lies between 0 and the row count. */
  lemma {:induction false} IntSumOfFlags<T>(rows: seq<T>, f: T -> int)
    requires forall r :: r in rows ==> 0 <= f(r) <= 1
    ensures 0 <= IntSumOf(rows, f) <= |rows|
  {
    if rows != [] {
      IntSumOfFlags(rows[1..], f);
    }
  }

  /** Three masks of which exactly one holds on each row split the row count. */
  lemma {:induction false} CountPartition3<T>(rows: seq<T>, p: T -> bool, q: T -> bool, s: T -> bool)
    requires forall r :: r in rows ==> (p(r) || q(r) || s(r))
    requires forall r :: r in rows ==> !(p(r) && q(r)) && !(p(r) && s(r)) && !(q(r) && s(r))
    ensures CountWhere(rows, p) + CountWhere(rows, q) + CountWhere(rows, s) == |rows|
  {
    if rows != [] {
      CountPartition3(rows[1..], p, q, s);
    }
  }
}
