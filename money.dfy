/**
 * Money arithmetic of the billing screens and invoices.  Amounts are rupees
 * held exactly as `real`; Python's `round()` is spelled out as
 * round-half-to-even so that round-off lines can be reasoned about.
 */
module Money {

  function Min(a: real, b: real): (r: real)
    ensures r <= a && r <= b && (r == a || r == b)
  {
    if a <= b then a else b
  }

  /** The column of amounts read off a list of records, one per record, in order. */
  function Column<T>(xs: seq<T>, amount: T -> real): (a: seq<real>)
    ensures |a| == |xs| && forall i :: 0 <= i < |xs| ==> a[i] == amount(xs[i])
  {
    seq(|xs|, i requires 0 <= i < |xs| => amount(xs[i]))
  }

  /** Left-to-right total of a column of amounts (Python's `sum`). */
  function Sum(xs: seq<real>): real
  {
    if xs == [] then 0.0 else Sum(xs[..|xs| - 1]) + xs[|xs| - 1]
  }

  lemma {:induction false} SumAppend(xs: seq<real>, ys: seq<real>)
    ensures Sum(xs + ys) == Sum(xs) + Sum(ys)
    decreases |ys|
  {
    if ys == [] {
      assert xs + ys == xs;
    } else {
      var init := ys[..|ys| - 1];
      assert (xs + ys)[..|xs + ys| - 1] == xs + init;
      SumAppend(xs, init);
    }
  }

  lemma {:induction false} SumNonNegative(xs: seq<real>)
    requires forall i :: 0 <= i < |xs| ==> xs[i] >= 0.0
    ensures Sum(xs) >= 0.0
    decreases |xs|
  {
    if xs != [] {
      SumNonNegative(xs[..|xs| - 1]);
    }
  }

  lemma {:induction false} SumPositive(xs: seq<real>)
    requires |xs| > 0 && forall i :: 0 <= i < |xs| ==> xs[i] > 0.0
    ensures Sum(xs) > 0.0
    decreases |xs|
  {
    var init := xs[..|xs| - 1];
    if init != [] {
      SumPositive(init);
    }
  }

  /** Summing a column of pointwise sums is summing the three columns. */
  lemma {:induction false} SumOfPointwiseSum(xs: seq<real>, ys: seq<real>, zs: seq<real>, ws: seq<real>)
    requires |xs| == |ys| == |zs| == |ws|
    requires forall i :: 0 <= i < |ws| ==> ws[i] == xs[i] + ys[i] + zs[i]
    ensures Sum(ws) == Sum(xs) + Sum(ys) + Sum(zs)
    decreases |ws|
  {
    if ws != [] {
      var n := |ws| - 1;
      SumOfPointwiseSum(xs[..n], ys[..n], zs[..n], ws[..n]);
    }
  }

  /**
   * Python's `round(x)` on an exact value: the nearest integer, ties going
   * to the even neighbour.
   */
  function RoundHalfEven(x: real): (r: int)
    ensures -0.5 <= r as real - x <= 0.5
    ensures (r as real - x == 0.5 || x - r as real == 0.5) ==> r % 2 == 0
  {
    var f := x.Floor;
    var d := x - f as real;
    if d < 0.5 then f
    else if d > 0.5 then f + 1
    else if f % 2 == 0 then f
    else f + 1
  }

  /** No integer is nearer to x than `RoundHalfEven(x)`. */
  lemma RoundIsNearest(x: real, n: int)
    ensures Abs(RoundHalfEven(x) as real - x) <= Abs(n as real - x)
  {
    var r := RoundHalfEven(x);
    if n < r {
      assert n as real <= r as real - 1.0;
    } else if n > r {
      assert n as real >= r as real + 1.0;
    }
  }

  lemma RoundOfWhole(n: int)
    ensures RoundHalfEven(n as real) == n
  {
  }

  function Abs(x: real): real
  {
    if x < 0.0 then -x else x
  }

  /** `amount * rate / 100`, the percentage computations of the bill screens. */
  function Percent(amount: real, rate: real): real
  {
    amount * rate / 100.0
  }
}
