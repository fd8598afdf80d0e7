/** Real arithmetic: multiplication with its laws made explicit, clamping, square roots and sums. */
module RealArithmetic {

  function Abs(x: real): (r: real)
    ensures r >= 0.0 && (r == x || r == -x)
  {
    if x < 0.0 then -x else x
  }

  function Max(a: real, b: real): (r: real)
    ensures r >= a && r >= b && (r == a || r == b)
  {
    if a < b then b else a
  }

  function Clamp(value: real, low: real, high: real): (r: real)
    ensures low <= high ==> low <= r <= high
    ensures low <= value <= high ==> r == value
    ensures low <= high && value <= low ==> r == low
    ensures low <= high <= value ==> r == high
  {
    Max(low, if high < value then high else value)
  }

  /** `root` is the non-negative square root. */
  ghost predicate IsRoot(root: real -> real) {
    forall q: real | q >= 0.0 :: root(q) >= 0.0 && root(q) * root(q) == q
  }

  /**
   * Multiplication under a name: hiding its definition lets proofs treat products as opaque terms
   * and use only the laws they ask for.
   */
  function Times(x: real, y: real): real {
    x * y
  }

  // ----- laws of multiplication -----

  lemma TimesIsProduct(x: real, y: real)
    ensures Times(x, y) == x * y
  {
  }

  lemma TimesCommutes(x: real, y: real)
    ensures Times(x, y) == Times(y, x)
  {
  }

  lemma TimesAdd(s: real, x: real, y: real)
    ensures Times(s, x + y) == Times(s, x) + Times(s, y)
  {
  }

  lemma TimesAssociates(x: real, y: real, z: real)
    ensures Times(Times(x, y), z) == Times(x, Times(y, z))
  {
  }

  lemma TimesUnits(x: real)
    ensures Times(0.0, x) == 0.0 == Times(x, 0.0) && Times(1.0, x) == x && Times(-1.0, x) == -x
  {
  }

  lemma TimesSign(x: real, y: real)
    requires x >= 0.0 && y >= 0.0
    ensures Times(x, y) >= 0.0
    ensures x > 0.0 && y > 0.0 ==> Times(x, y) > 0.0
  {
  }

  lemma TimesSquare(x: real)
    ensures Times(x, x) >= 0.0
    ensures x != 0.0 ==> Times(x, x) > 0.0
  {
    var size := Abs(x);
    assert Times(x, x) == size * size;
    TimesSign(size, size);
  }

  lemma TimesDistributes(x: real, s: real, y: real, z: real)
    ensures Times(x + Times(s, y), z) == Times(x, z) + Times(s, Times(y, z))
  {
  }

  lemma RootMonotone(root: real -> real, a: real, b: real)
    requires IsRoot(root) && 0.0 <= a <= b
    ensures root(a) <= root(b)
  {
    var x, y := root(a), root(b);
    if x > y {
      TimesSign(x - y, x + y);
      DifferenceOfSquares(x, y);
    }
  }

  lemma DifferenceOfSquares(x: real, y: real)
    ensures Times(x - y, x + y) == x * x - y * y
  {
  }

  // ----- sums -----

  function Sum(values: seq<real>): real {
    if |values| == 0 then 0.0 else Sum(values[..|values| - 1]) + values[|values| - 1]
  }

  function SumOfSquares(values: seq<real>): real {
    if |values| == 0 then 0.0
    else SumOfSquares(values[..|values| - 1]) + Times(values[|values| - 1], values[|values| - 1])
  }

  function Mean(values: seq<real>): real {
    if |values| == 0 then 0.0 else Sum(values) / |values| as real
  }

  lemma {:induction false} SquaredGaps(values: seq<real>, x: real)
    ensures SumOfSquares(values) - 2.0 * Times(x, Sum(values)) + Times(|values| as real, Times(x, x)) >= 0.0
  {
    hide Times;
    if |values| == 0 {
      TimesUnits(x);
      TimesUnits(Times(x, x));
    } else {
      var n, last := |values| - 1, values[|values| - 1];
      SquaredGaps(values[..n], x);
      TimesAdd(x, Sum(values[..n]), last);
      TimesCount(n as real, Times(x, x));
      TimesSquare(last - x);
      SquareOfDifference(last, x);
      TimesCommutes(last, x);
    }
  }

  lemma TimesCount(n: real, x: real)
    ensures Times(n + 1.0, x) == Times(n, x) + x
  {
  }

  lemma SquareOfDifference(x: real, y: real)
    ensures Times(x - y, x - y) == Times(x, x) - 2.0 * Times(x, y) + Times(y, y)
  {
  }

  lemma SquareOfSum(x: real, y: real)
    ensures Times(x + y, x + y) == Times(x, x) + 2.0 * Times(x, y) + Times(y, y)
  {
  }

  /** Cauchy-Schwarz against the all-ones vector. */
  lemma {:induction false} SquareOfSumBound(values: seq<real>)
    ensures Times(Sum(values), Sum(values)) <= Times(|values| as real, SumOfSquares(values))
  {
    hide Times;
    if |values| == 0 {
      TimesUnits(0.0);
    } else {
      var n, last := |values| - 1, values[|values| - 1];
      var rest := values[..n];
      SquareOfSumBound(rest);
      SquaredGaps(rest, last);
      SquareOfSum(Sum(rest), last);
      TimesCommutes(last, Sum(rest));
      TimesCount(n as real, SumOfSquares(rest) + Times(last, last));
      TimesAdd(n as real, SumOfSquares(rest), Times(last, last));
    }
  }

  /** Positive terms: the square of the sum dominates the sum of the squares. */
  lemma {:induction false} SumOfSquaresBound(values: seq<real>)
    requires forall i | 0 <= i < |values| :: values[i] > 0.0
    ensures Sum(values) >= 0.0 && Times(Sum(values), Sum(values)) >= SumOfSquares(values) >= 0.0
    ensures |values| > 0 ==> SumOfSquares(values) > 0.0
  {
    hide Times;
    if |values| == 0 {
      TimesUnits(0.0);
    } else {
      var rest, last := values[..|values| - 1], values[|values| - 1];
      SumOfSquaresBound(rest);
      SquareOfSum(Sum(rest), last);
      TimesSign(Sum(rest), last);
      TimesSign(last, last);
    }
  }
}
