/** Vectors and matrices over the reals: the laws the contextual impact model rests on. */
module LinearAlgebra {
  import opened RealArithmetic

  type Vector = seq<real>
  type Matrix = seq<Vector>

  ghost predicate Rectangular(m: Matrix, rows: nat, columns: nat) {
    |m| == rows && forall i | 0 <= i < rows :: |m[i]| == columns
  }

  ghost predicate Square(m: Matrix, n: nat) {
    Rectangular(m, n, n)
  }

  /** The inner product over the common prefix of two vectors. */
  function Dot(u: Vector, v: Vector): real {
    if |u| == 0 || |v| == 0 then 0.0 else Times(u[0], v[0]) + Dot(u[1..], v[1..])
  }

  function Zeros(n: nat): Vector {
    seq(n, _ => 0.0)
  }

  function Unit(n: nat, i: nat): Vector {
    seq(n, k => if k == i then 1.0 else 0.0)
  }

  function Scaled(s: real, u: Vector): (r: Vector)
    ensures |r| == |u| && forall k {:trigger r[k]} | 0 <= k < |u| :: r[k] == Times(s, u[k])
  {
    seq(|u|, k requires 0 <= k < |u| => Times(s, u[k]))
  }

  function AddScaled(u: Vector, s: real, v: Vector): (r: Vector)
    requires |u| == |v|
    ensures |r| == |u| && forall k {:trigger r[k]} | 0 <= k < |u| :: r[k] == u[k] + Times(s, v[k])
  {
    seq(|u|, k requires 0 <= k < |u| => u[k] + Times(s, v[k]))
  }

  function MulVec(m: Matrix, v: Vector): (r: Vector)
    ensures |r| == |m|
  {
    seq(|m|, i requires 0 <= i < |m| => Dot(m[i], v))
  }

  function Column(m: Matrix, n: nat, j: nat): Vector
    requires forall i | 0 <= i < |m| :: |m[i]| == n
    requires j < n
  {
    seq(|m|, i requires 0 <= i < |m| => m[i][j])
  }

  /** The combination of the rows of `m` with coefficients `u`. */
  function VecMul(u: Vector, m: Matrix, n: nat): (r: Vector)
    requires Rectangular(m, |u|, n)
    ensures |r| == n
  {
    if |u| == 0 then Zeros(n) else AddScaled(VecMul(u[1..], m[1..], n), u[0], m[0])
  }

  ghost predicate Symmetric(m: Matrix, n: nat)
    requires Square(m, n)
  {
    forall i, j | 0 <= i < n && 0 <= j < n :: m[i][j] == m[j][i]
  }

  /** `inverse * m` is the identity matrix. */
  ghost predicate LeftInverse(inverse: Matrix, m: Matrix, n: nat)
    requires Square(inverse, n) && Square(m, n)
  {
    forall i, j | 0 <= i < n && 0 <= j < n :: Dot(inverse[i], Column(m, n, j)) == Unit(n, i)[j]
  }

  // ----- inner product -----

  lemma {:induction false} DotCommutes(u: Vector, v: Vector)
    ensures Dot(u, v) == Dot(v, u)
  {
    hide Times;
    if |u| > 0 && |v| > 0 {
      TimesCommutes(u[0], v[0]);
      DotCommutes(u[1..], v[1..]);
    }
  }

  lemma {:induction false} AddScaledSlice(u: Vector, s: real, v: Vector, low: nat, high: nat)
    requires |u| == |v| && low <= high <= |u|
    ensures AddScaled(u, s, v)[low..high] == AddScaled(u[low..high], s, v[low..high])
  {
    hide Times;
  }

  lemma {:induction false} ScaledSlice(s: real, u: Vector, low: nat, high: nat)
    requires low <= high <= |u|
    ensures Scaled(s, u)[low..high] == Scaled(s, u[low..high])
  {
    hide Times;
  }

  lemma {:induction false} DotAddScaled(u: Vector, s: real, v: Vector, w: Vector)
    requires |u| == |v| == |w|
    ensures Dot(AddScaled(u, s, v), w) == Dot(u, w) + Times(s, Dot(v, w))
  {
    hide Times;
    if |u| == 0 {
      TimesUnits(s);
    } else {
      DotAddScaled(u[1..], s, v[1..], w[1..]);
      AddScaledSlice(u, s, v, 1, |u|);
      assert AddScaled(u, s, v)[1..] == AddScaled(u, s, v)[1..|u|] && u[1..] == u[1..|u|] && v[1..] == v[1..|u|];
      TimesDistributes(u[0], s, v[0], w[0]);
      TimesAdd(s, Times(v[0], w[0]), Dot(v[1..], w[1..]));
    }
  }

  lemma {:induction false} DotAddScaledRight(w: Vector, u: Vector, s: real, v: Vector)
    requires |u| == |v| == |w|
    ensures Dot(w, AddScaled(u, s, v)) == Dot(w, u) + Times(s, Dot(w, v))
  {
    hide Times, Dot;
    DotCommutes(w, AddScaled(u, s, v));
    DotAddScaled(u, s, v, w);
    DotCommutes(u, w);
    DotCommutes(v, w);
  }

  lemma {:induction false} DotScaled(s: real, u: Vector, w: Vector)
    requires |u| == |w|
    ensures Dot(Scaled(s, u), w) == Times(s, Dot(u, w))
  {
    hide Times;
    if |u| == 0 {
      TimesUnits(s);
    } else {
      DotScaled(s, u[1..], w[1..]);
      ScaledSlice(s, u, 1, |u|);
      assert Scaled(s, u)[1..] == Scaled(s, u)[1..|u|] && u[1..] == u[1..|u|];
      TimesAssociates(s, u[0], w[0]);
      TimesAdd(s, Times(u[0], w[0]), Dot(u[1..], w[1..]));
    }
  }

  lemma {:induction false} DotZeros(n: nat, v: Vector)
    requires |v| == n
    ensures Dot(Zeros(n), v) == 0.0
  {
    hide Times;
    if n > 0 {
      TimesUnits(v[0]);
      DotZeros(n - 1, v[1..]);
      assert Zeros(n)[1..] == Zeros(n - 1);
    }
  }

  lemma {:induction false} DotUnit(n: nat, i: nat, v: Vector)
    requires |v| == n && i < n
    ensures Dot(Unit(n, i), v) == v[i]
  {
    hide Times;
    TimesUnits(v[0]);
    if i == 0 {
      assert Unit(n, 0)[1..] == Zeros(n - 1);
      DotZeros(n - 1, v[1..]);
    } else {
      assert Unit(n, i)[1..] == Unit(n - 1, i - 1);
      DotUnit(n - 1, i - 1, v[1..]);
    }
  }

  lemma {:induction false} DotSelfNonNegative(v: Vector)
    ensures Dot(v, v) >= 0.0
  {
    hide Times;
    if |v| > 0 {
      TimesSquare(v[0]);
      DotSelfNonNegative(v[1..]);
    }
  }

  lemma {:induction false} DotSelfBound(v: Vector, i: nat)
    requires i < |v|
    ensures Dot(v, v) >= Times(v[i], v[i])
  {
    hide Times;
    if i == 0 {
      DotSelfNonNegative(v[1..]);
    } else {
      TimesSquare(v[0]);
      DotSelfBound(v[1..], i - 1);
    }
  }

  /** Entries at most `e` in size in one factor bound the product by the size of the other. */
  lemma {:induction false} DotBound(u: Vector, v: Vector, e: real)
    requires |u| == |v| && e >= 0.0
    requires forall i | 0 <= i < |v| :: Abs(v[i]) <= e
    ensures 2.0 * Dot(u, v) <= Times(e, |u| as real + Dot(u, u))
  {
    hide Times;
    if |u| == 0 {
      TimesUnits(e);
    } else {
      DotBound(u[1..], v[1..], e);
      ProductBound(u[0], v[0], e);
      TimesAdd(e, 1.0 + Times(u[0], u[0]), |u[1..]| as real + Dot(u[1..], u[1..]));
      assert |u| as real == |u[1..]| as real + 1.0;
    }
  }

  lemma ProductBound(x: real, y: real, e: real)
    requires Abs(y) <= e
    ensures 2.0 * Times(x, y) <= Times(e, 1.0 + Times(x, x))
  {
    hide Times;
    TimesSquare(x - 1.0);
    TimesSquare(x + 1.0);
    assert Times(x - 1.0, x - 1.0) == Times(x, x) - 2.0 * x + 1.0
        && Times(x + 1.0, x + 1.0) == Times(x, x) + 2.0 * x + 1.0 by {
      SquareOfShift(x, -1.0);
      SquareOfShift(x, 1.0);
    }
    ScaledBound(x, y, e, 1.0 + Times(x, x));
  }

  lemma SquareOfShift(x: real, d: real)
    ensures Times(x + d, x + d) == Times(x, x) + 2.0 * Times(d, x) + Times(d, d)
    ensures Times(1.0, x) == x && Times(-1.0, x) == -x && Times(1.0, 1.0) == 1.0 && Times(-1.0, -1.0) == 1.0
  {
  }

  lemma ScaledBound(x: real, y: real, e: real, b: real)
    requires Abs(y) <= e && -b <= 2.0 * x <= b
    ensures 2.0 * Times(x, y) <= Times(e, b)
  {
    hide Times;
    if x >= 0.0 {
      TimesSign(x, e - y);
      TimesSign(e, b - 2.0 * x);
      SplitProducts(x, y, e, b);
    } else {
      TimesSign(-x, e + y);
      TimesSign(e, b + 2.0 * x);
      SplitProducts(-x, -y, e, b);
      TwiceNegated(x, y);
    }
  }

  lemma SplitProducts(x: real, y: real, e: real, b: real)
    ensures Times(x, e - y) == Times(x, e) - Times(x, y)
    ensures Times(e, b - 2.0 * x) == Times(e, b) - 2.0 * Times(x, e)
  {
  }

  lemma TwiceNegated(x: real, y: real)
    ensures Times(-x, -y) == Times(x, y)
  {
  }

  // ----- matrix times vector -----

  lemma {:induction false} DotMulVec(u: Vector, m: Matrix, v: Vector, n: nat)
    requires Rectangular(m, |u|, n) && |v| == n
    ensures Dot(u, MulVec(m, v)) == Dot(VecMul(u, m, n), v)
  {
    if |u| == 0 {
      DotZeros(n, v);
    } else {
      DotMulVec(u[1..], m[1..], v, n);
      assert MulVec(m, v)[1..] == MulVec(m[1..], v);
      DotAddScaled(VecMul(u[1..], m[1..], n), u[0], m[0], v);
    }
  }

  lemma {:induction false} VecMulAt(u: Vector, m: Matrix, n: nat, j: nat)
    requires Rectangular(m, |u|, n) && j < n
    ensures VecMul(u, m, n)[j] == Dot(u, Column(m, n, j))
  {
    if |u| > 0 {
      VecMulAt(u[1..], m[1..], n, j);
      assert Column(m, n, j)[1..] == Column(m[1..], n, j);
    }
  }

  lemma {:induction false} VecMulSymmetric(u: Vector, m: Matrix, n: nat)
    requires Square(m, n) && Symmetric(m, n) && |u| == n
    ensures VecMul(u, m, n) == MulVec(m, u)
  {
    forall j | 0 <= j < n
      ensures VecMul(u, m, n)[j] == MulVec(m, u)[j]
    {
      VecMulAt(u, m, n, j);
      assert Column(m, n, j) == m[j];
      DotCommutes(u, m[j]);
    }
  }

  /** The bilinear form of a symmetric matrix is symmetric. */
  lemma {:induction false} SymmetricForm(u: Vector, m: Matrix, v: Vector, n: nat)
    requires Square(m, n) && Symmetric(m, n) && |u| == |v| == n
    ensures Dot(u, MulVec(m, v)) == Dot(v, MulVec(m, u))
  {
    DotMulVec(u, m, v, n);
    VecMulSymmetric(u, m, n);
    DotCommutes(MulVec(m, u), v);
  }

  lemma {:induction false} MulVecAddScaled(m: Matrix, u: Vector, s: real, v: Vector, n: nat)
    requires Square(m, n) && |u| == |v| == n
    ensures MulVec(m, AddScaled(u, s, v)) == AddScaled(MulVec(m, u), s, MulVec(m, v))
  {
    forall i | 0 <= i < n
      ensures Dot(m[i], AddScaled(u, s, v)) == Dot(m[i], u) + Times(s, Dot(m[i], v))
    {
      DotAddScaledRight(m[i], u, s, v);
    }
    assert forall i | 0 <= i < n ::
        MulVec(m, AddScaled(u, s, v))[i] == AddScaled(MulVec(m, u), s, MulVec(m, v))[i];
  }

  /** The form of a symmetric matrix at `u + s v` with `s` plus or minus one, expanded. */
  lemma {:induction false} FormOfSum(m: Matrix, u: Vector, s: real, v: Vector, n: nat)
    requires Square(m, n) && Symmetric(m, n) && |u| == |v| == n
    requires s == 1.0 || s == -1.0
    ensures var w := AddScaled(u, s, v);
            var cross := Dot(v, MulVec(m, u));
            Dot(w, MulVec(m, w)) ==
            Dot(u, MulVec(m, u)) + (if s == 1.0 then 2.0 * cross else -2.0 * cross) + Dot(v, MulVec(m, v))
  {
    hide Times, Dot;
    var w := AddScaled(u, s, v);
    var mu, mv := MulVec(m, u), MulVec(m, v);
    MulVecAddScaled(m, u, s, v, n);
    DotAddScaledRight(w, mu, s, mv);
    DotAddScaled(u, s, v, mu);
    DotAddScaled(u, s, v, mv);
    SymmetricForm(u, m, v, n);
    TimesUnits(Dot(w, mv));
    TimesUnits(Dot(v, mu));
    TimesUnits(Dot(v, mv));
  }

  // ----- inverses -----

  lemma {:induction false} LeftInverseCancels(inverse: Matrix, m: Matrix, v: Vector, n: nat)
    requires Square(inverse, n) && Square(m, n) && |v| == n
    requires LeftInverse(inverse, m, n)
    ensures MulVec(inverse, MulVec(m, v)) == v
  {
    forall i | 0 <= i < n
      ensures Dot(inverse[i], MulVec(m, v)) == v[i]
    {
      DotMulVec(inverse[i], m, v, n);
      forall j | 0 <= j < n
        ensures VecMul(inverse[i], m, n)[j] == Unit(n, i)[j]
      {
        VecMulAt(inverse[i], m, n, j);
      }
      assert VecMul(inverse[i], m, n) == Unit(n, i);
      DotUnit(n, i, v);
    }
  }

  /** The left inverse of a symmetric matrix is symmetric and is a right inverse too. */
  lemma {:induction false} InverseOfSymmetric(inverse: Matrix, m: Matrix, n: nat)
    requires Square(inverse, n) && Square(m, n)
    requires Symmetric(m, n) && LeftInverse(inverse, m, n)
    ensures Symmetric(inverse, n)
    ensures LeftInverse(m, inverse, n)
  {
    forall j | 0 <= j < n
      ensures inverse[j] == Column(inverse, n, j)
    {
      // m times row j of the inverse is the j-th unit vector ...
      forall i | 0 <= i < n
        ensures MulVec(m, inverse[j])[i] == Unit(n, j)[i]
      {
        assert Column(m, n, i) == m[i];
        DotCommutes(m[i], inverse[j]);
      }
      assert MulVec(m, inverse[j]) == Unit(n, j);
      // ... so applying the inverse again gives back both row j and column j.
      LeftInverseCancels(inverse, m, inverse[j], n);
      forall i | 0 <= i < n
        ensures MulVec(inverse, Unit(n, j))[i] == Column(inverse, n, j)[i]
      {
        DotCommutes(inverse[i], Unit(n, j));
        DotUnit(n, j, inverse[i]);
      }
    }
    forall i, j | 0 <= i < n && 0 <= j < n
      ensures inverse[i][j] == inverse[j][i]
    {
      assert inverse[j][i] == Column(inverse, n, j)[i];
    }
    forall i, j | 0 <= i < n && 0 <= j < n
      ensures Dot(m[i], Column(inverse, n, j)) == Unit(n, i)[j]
    {
      assert Column(m, n, i) == m[i];
      DotCommutes(m[i], inverse[j]);
    }
  }

  lemma {:induction false} InverseSolves(inverse: Matrix, m: Matrix, z: Vector, n: nat)
    requires Square(inverse, n) && Square(m, n) && |z| == n
    requires Symmetric(m, n) && LeftInverse(inverse, m, n)
    ensures MulVec(m, MulVec(inverse, z)) == z
  {
    InverseOfSymmetric(inverse, m, n);
    LeftInverseCancels(m, inverse, z, n);
  }
}
