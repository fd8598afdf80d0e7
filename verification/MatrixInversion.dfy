/**
 * Gauss-Jordan elimination with partial pivoting on the augmented matrix [m | I].
 * The array methods are proved to perform row operations on the matrix they hold; the lemmas say
 * what those operations keep.
 */
module MatrixInversion {
  import opened RealArithmetic
  import opened LinearAlgebra

  const PIVOT_THRESHOLD: real := 0.000000000001

  // ----- row operations on values -----

  ghost function SwapRows(w: Matrix, i: nat, j: nat): Matrix
    requires i < |w| && j < |w|
  {
    w[i := w[j]][j := w[i]]
  }

  ghost function Divided(row: Vector, divisor: real): (r: Vector)
    requires divisor != 0.0
    ensures |r| == |row| && forall k | 0 <= k < |row| :: r[k] == row[k] / divisor
  {
    seq(|row|, k requires 0 <= k < |row| => row[k] / divisor)
  }

  ghost function EliminateRows(w: Matrix, pivot: nat, count: nat, width: nat): (r: Matrix)
    requires count <= |w| && pivot < |w| && pivot < width && Rectangular(w, |w|, width)
    ensures |r| == |w|
    ensures forall i | 0 <= i < |w| ::
        r[i] == if i == pivot || count <= i then w[i] else AddScaled(w[i], -w[i][pivot], w[pivot])
  {
    seq(|w|, i requires 0 <= i < |w| =>
      if i == pivot || count <= i then w[i] else AddScaled(w[i], -w[i][pivot], w[pivot]))
  }

  // ----- the array that is rewritten in place -----

  ghost function Row(a: array2<real>, i: nat): (r: Vector)
    requires i < a.Length0
    reads a
    ensures |r| == a.Length1 && forall j | 0 <= j < a.Length1 :: r[j] == a[i, j]
  {
    seq(a.Length1, j requires 0 <= j < a.Length1 reads a => a[i, j])
  }

  ghost function Rows(a: array2<real>): (w: Matrix)
    reads a
    ensures |w| == a.Length0 && forall i | 0 <= i < a.Length0 :: w[i] == Row(a, i)
    ensures Rectangular(w, a.Length0, a.Length1)
  {
    seq(a.Length0, i requires 0 <= i < a.Length0 reads a => Row(a, i))
  }

  method FindPivot(a: array2<real>, pivot: nat) returns (best: nat)
    requires pivot < a.Length0 && pivot < a.Length1
    ensures pivot <= best < a.Length0
    ensures forall r | pivot <= r < a.Length0 :: Abs(a[r, pivot]) <= Abs(a[best, pivot])
  {
    best := pivot;
    for row := pivot + 1 to a.Length0
      invariant pivot <= best < a.Length0
      invariant forall r | pivot <= r < row :: Abs(a[r, pivot]) <= Abs(a[best, pivot])
    {
      if Abs(a[row, pivot]) > Abs(a[best, pivot]) {
        best := row;
      }
    }
  }

  method Swap(a: array2<real>, i: nat, j: nat)
    requires i < a.Length0 && j < a.Length0
    modifies a
    ensures Rows(a) == SwapRows(old(Rows(a)), i, j)
  {
    for column := 0 to a.Length1
      invariant forall r, c | 0 <= r < a.Length0 && 0 <= c < a.Length1 ::
          a[r, c] == if c < column && r == i then old(a[j, c])
                     else if c < column && r == j then old(a[i, c])
                     else old(a[r, c])
    {
      a[i, column], a[j, column] := a[j, column], a[i, column];
    }
    assert forall r | 0 <= r < a.Length0 :: Row(a, r) == SwapRows(old(Rows(a)), i, j)[r];
  }

  method Normalize(a: array2<real>, pivot: nat)
    requires pivot < a.Length0 && pivot < a.Length1
    requires a[pivot, pivot] != 0.0
    modifies a
    ensures Rows(a) == old(Rows(a))[pivot := Divided(old(Row(a, pivot)), old(a[pivot, pivot]))]
  {
    var divisor := a[pivot, pivot];
    for column := 0 to a.Length1
      invariant forall r, c | 0 <= r < a.Length0 && 0 <= c < a.Length1 ::
          a[r, c] == if c < column && r == pivot then old(a[r, c]) / divisor else old(a[r, c])
    {
      a[pivot, column] := a[pivot, column] / divisor;
    }
    assert forall r | 0 <= r < a.Length0 ::
        Row(a, r) == old(Rows(a))[pivot := Divided(old(Row(a, pivot)), divisor)][r];
  }

  method EliminateRow(a: array2<real>, row: nat, pivot: nat)
    requires row < a.Length0 && pivot < a.Length0 && pivot < a.Length1 && row != pivot
    modifies a
    ensures Rows(a) ==
            old(Rows(a))[row := AddScaled(old(Row(a, row)), -old(a[row, pivot]), old(Row(a, pivot)))]
  {
    var factor := a[row, pivot];
    for column := 0 to a.Length1
      invariant forall r, c | 0 <= r < a.Length0 && 0 <= c < a.Length1 ::
          a[r, c] == if c < column && r == row then old(a[r, c]) - factor * old(a[pivot, c]) else old(a[r, c])
    {
      a[row, column] := a[row, column] - factor * a[pivot, column];
    }
    ghost var was := old(Rows(a));
    ghost var reduced := AddScaled(old(Row(a, row)), -factor, old(Row(a, pivot)));
    assert forall c | 0 <= c < a.Length1 :: Row(a, row)[c] == reduced[c];
    assert Row(a, row) == reduced;
    assert forall r | 0 <= r < a.Length0 && r != row :: Row(a, r) == was[r];
  }

  method Eliminate(a: array2<real>, pivot: nat)
    requires pivot < a.Length0 && pivot < a.Length1
    modifies a
    ensures Rows(a) == EliminateRows(old(Rows(a)), pivot, a.Length0, a.Length1)
  {
    ghost var w := Rows(a);
    for row := 0 to a.Length0
      invariant Rows(a) == EliminateRows(w, pivot, row, a.Length1)
    {
      if row != pivot {
        assert Row(a, row) == Rows(a)[row] == w[row] && Row(a, pivot) == Rows(a)[pivot] == w[pivot];
        EliminateRow(a, row, pivot);
      }
    }
  }

  // ----- what the elimination keeps -----

  /** The right half of the row, times `m`, is the left half of the row. */
  ghost predicate RowTracks(row: Vector, m: Matrix, n: nat)
    requires Square(m, n)
  {
    |row| == 2 * n && forall j | 0 <= j < n :: Dot(row[n..], Column(m, n, j)) == row[j]
  }

  ghost predicate Tracks(w: Matrix, m: Matrix, n: nat)
    requires Square(m, n)
  {
    |w| == n && forall i | 0 <= i < n :: RowTracks(w[i], m, n)
  }

  /** The first `p` columns are those of the identity. */
  ghost predicate Reduced(w: Matrix, n: nat, p: nat)
    requires Rectangular(w, n, 2 * n) && p <= n
  {
    forall r, c | 0 <= r < n && 0 <= c < p :: w[r][c] == Unit(n, r)[c]
  }

  /** The left half sends `v` to zero in the rows below `p` and to at most `e` in the others. */
  ghost predicate Residual(w: Matrix, n: nat, p: nat, v: Vector, e: real)
    requires Rectangular(w, n, 2 * n) && p <= n
  {
    forall r | 0 <= r < n :: Abs(Dot(w[r][..n], v)) <= if r < p then 0.0 else e
  }

  ghost predicate Small(m: Matrix, v: Vector, e: real) {
    forall r | 0 <= r < |m| :: Abs(Dot(m[r], v)) <= e
  }

  /** Nothing the left half nearly annihilates escapes `m`: row operations lose no size. */
  ghost predicate Conditioned(w: Matrix, m: Matrix, n: nat, p: nat)
    requires Rectangular(w, n, 2 * n) && p <= n
  {
    forall v: Vector, e: real | |v| == n && Residual(w, n, p, v, e) && e >= 0.0 :: Small(m, v, e)
  }

  ghost predicate Eliminated(w: Matrix, m: Matrix, n: nat, p: nat)
    requires Square(m, n)
  {
    && Tracks(w, m, n)
    && p <= n
    && Reduced(w, n, p)
    && Conditioned(w, m, n, p)
  }

  /** Some vector with an entry equal to one is sent below the pivot threshold. */
  ghost predicate NearlySingular(m: Matrix, n: nat) {
    exists v: Vector, p: nat, e: real ::
      |v| == n && p < n && v[p] == 1.0 && Small(m, v, e) && 0.0 <= e < PIVOT_THRESHOLD
  }

  lemma {:induction false} AugmentedIsEliminated(w: Matrix, m: Matrix, n: nat)
    requires Square(m, n) && |w| == n
    requires forall i | 0 <= i < n :: w[i] == m[i] + Unit(n, i)
    ensures Eliminated(w, m, n, 0)
  {
    hide Dot, Times;
    forall i | 0 <= i < n
      ensures RowTracks(w[i], m, n) && w[i][..n] == m[i]
    {
      assert w[i][n..] == Unit(n, i);
      forall j | 0 <= j < n
        ensures Dot(w[i][n..], Column(m, n, j)) == w[i][j]
      {
        DotUnit(n, i, Column(m, n, j));
      }
    }
    forall v: Vector, e: real | |v| == n && Residual(w, n, 0, v, e) && e >= 0.0
      ensures Small(m, v, e)
    {
      assert forall r | 0 <= r < n :: Dot(w[r][..n], v) == Dot(m[r], v);
    }
  }

  lemma {:induction false} SwapKeeps(w: Matrix, m: Matrix, n: nat, p: nat, i: nat, j: nat)
    requires Square(m, n) && Eliminated(w, m, n, p)
    requires p <= i < n && p <= j < n
    ensures Eliminated(SwapRows(w, i, j), m, n, p)
  {
    hide Dot, Times;
    var s := SwapRows(w, i, j);
    forall v: Vector, e: real | |v| == n && Residual(s, n, p, v, e) && e >= 0.0
      ensures Small(m, v, e)
    {
      forall r | 0 <= r < n
        ensures Abs(Dot(w[r][..n], v)) <= if r < p then 0.0 else e
      {
        var r' := if r == i then j else if r == j then i else r;
        assert s[r'] == w[r];
      }
      assert Residual(w, n, p, v, e);
    }
  }

  lemma {:induction false} DividedTracks(row: Vector, divisor: real, m: Matrix, n: nat)
    requires Square(m, n) && RowTracks(row, m, n) && divisor != 0.0
    ensures RowTracks(Divided(row, divisor), m, n)
  {
    hide Dot, Times;
    var s := 1.0 / divisor;
    var q := Divided(row, divisor);
    forall k | 0 <= k < 2 * n
      ensures q[k] == Scaled(s, row)[k]
    {
      DivideIsTimes(row[k], divisor);
    }
    assert q == Scaled(s, row);
    assert q[n..] == q[n..2 * n] && row[n..] == row[n..2 * n];
    ScaledSlice(s, row, n, 2 * n);
    forall j | 0 <= j < n
      ensures Dot(q[n..], Column(m, n, j)) == q[j]
    {
      DotScaled(s, row[n..], Column(m, n, j));
    }
  }

  lemma {:induction false} DividedDot(row: Vector, divisor: real, v: Vector, n: nat)
    requires |row| == 2 * n && |v| == n && divisor != 0.0
    requires Dot(Divided(row, divisor)[..n], v) == 0.0
    ensures Dot(row[..n], v) == 0.0
  {
    hide Dot, Times;
    var q := Divided(row, divisor)[..n];
    forall k | 0 <= k < n
      ensures Scaled(divisor, q)[k] == row[k]
    {
      TimesDivides(row[k], divisor);
    }
    assert Scaled(divisor, q) == row[..n];
    DotScaled(divisor, q, v);
    TimesUnits(divisor);
  }

  lemma DivideIsTimes(x: real, divisor: real)
    requires divisor != 0.0
    ensures x / divisor == Times(1.0 / divisor, x)
  {
  }

  lemma TimesDivides(x: real, divisor: real)
    requires divisor != 0.0
    ensures Times(divisor, x / divisor) == x
  {
  }

  lemma {:induction false} AddScaledTracks(u: Vector, s: real, v: Vector, m: Matrix, n: nat)
    requires Square(m, n) && RowTracks(u, m, n) && RowTracks(v, m, n)
    ensures RowTracks(AddScaled(u, s, v), m, n)
  {
    hide Dot, Times;
    var w := AddScaled(u, s, v);
    AddScaledSlice(u, s, v, n, 2 * n);
    assert w[n..] == w[n..2 * n] && u[n..] == u[n..2 * n] && v[n..] == v[n..2 * n];
    forall j | 0 <= j < n
      ensures Dot(w[n..], Column(m, n, j)) == w[j]
    {
      DotAddScaled(u[n..], s, v[n..], Column(m, n, j));
    }
  }

  /** The effect of one pass: row `p` divided by its pivot, then subtracted from all others. */
  ghost function Pass(w: Matrix, n: nat, p: nat): (r: Matrix)
    requires Rectangular(w, n, 2 * n) && p < n && w[p][p] != 0.0
    ensures Rectangular(r, n, 2 * n)
  {
    EliminateRows(w[p := Divided(w[p], w[p][p])], p, n, 2 * n)
  }

  lemma {:induction false} PassKeeps(w: Matrix, m: Matrix, n: nat, p: nat)
    requires Square(m, n) && p < n && Eliminated(w, m, n, p)
    requires w[p][p] != 0.0
    ensures Eliminated(Pass(w, n, p), m, n, p + 1)
  {
    hide Dot, Times;
    var pivotRow := Divided(w[p], w[p][p]);
    var w' := Pass(w, n, p);
    DividedTracks(w[p], w[p][p], m, n);
    forall r | 0 <= r < n
      ensures RowTracks(w'[r], m, n)
    {
      if r != p {
        AddScaledTracks(w[r], -w[r][p], pivotRow, m, n);
      }
    }
    PassReduces(w, n, p);
    forall v: Vector, e: real | |v| == n && Residual(w', n, p + 1, v, e) && e >= 0.0
      ensures Small(m, v, e)
    {
      PassResidual(w, m, n, p, v, e);
    }
  }

  lemma {:induction false} PassReduces(w: Matrix, n: nat, p: nat)
    requires Rectangular(w, n, 2 * n) && p < n && w[p][p] != 0.0 && Reduced(w, n, p)
    ensures Reduced(Pass(w, n, p), n, p + 1)
  {
    var pivotRow := Divided(w[p], w[p][p]);
    assert pivotRow[p] == 1.0;
    forall r, c | 0 <= r < n && 0 <= c < p + 1
      ensures Pass(w, n, p)[r][c] == Unit(n, r)[c]
    {
      if c < p {
        assert pivotRow[c] == 0.0 / w[p][p] == 0.0;
      }
    }
  }

  lemma {:induction false} PassResidual(w: Matrix, m: Matrix, n: nat, p: nat, v: Vector, e: real)
    requires Square(m, n) && Tracks(w, m, n) && p < n && w[p][p] != 0.0 && |v| == n && e >= 0.0
    requires Residual(Pass(w, n, p), n, p + 1, v, e)
    ensures Residual(w, n, p, v, e)
  {
    hide Dot, Times;
    var pivotRow, w' := Divided(w[p], w[p][p]), Pass(w, n, p);
    assert w'[p] == pivotRow && Abs(Dot(w'[p][..n], v)) <= 0.0;
    DividedDot(w[p], w[p][p], v, n);
    forall r | 0 <= r < n && r != p
      ensures Dot(w[r][..n], v) == Dot(w'[r][..n], v)
    {
      AddScaledSlice(w[r], -w[r][p], pivotRow, 0, n);
      DotAddScaled(w[r][..n], -w[r][p], pivotRow[..n], v);
      TimesUnits(-w[r][p]);
    }
  }

  lemma {:induction false} DotAgree(u: Vector, u': Vector, x: Vector)
    requires |u| == |u'| == |x|
    requires forall k | 0 <= k < |x| :: u[k] == u'[k] || x[k] == 0.0
    ensures Dot(u, x) == Dot(u', x)
  {
    if |x| > 0 {
      DotAgree(u[1..], u'[1..], x[1..]);
    }
  }

  /** A column without a usable pivot exhibits a vector that `m` all but annihilates. */
  lemma {:induction false} NoPivot(w: Matrix, m: Matrix, n: nat, p: nat, e: real)
    requires Square(m, n) && p < n && Eliminated(w, m, n, p)
    requires 0.0 <= e < PIVOT_THRESHOLD
    requires forall r | p <= r < n :: Abs(w[r][p]) <= e
    ensures NearlySingular(m, n)
  {
    hide Dot, Times;
    var x := seq(n, c requires 0 <= c < n => if c < p then w[c][p] else 0.0);
    var v := AddScaled(Unit(n, p), -1.0, x);
    forall r | 0 <= r < n
      ensures Abs(Dot(w[r][..n], v)) <= if r < p then 0.0 else e
    {
      var left := w[r][..n];
      DotAddScaledRight(left, Unit(n, p), -1.0, x);
      DotCommutes(left, Unit(n, p));
      DotUnit(n, p, left);
      DotAgree(left, Unit(n, r), x);
      DotUnit(n, r, x);
      TimesUnits(Dot(left, x));
    }
    assert Residual(w, n, p, v, e);
    TimesUnits(x[p]);
    assert v[p] == 1.0 && Small(m, v, e);
  }

  // ----- inversion -----

  method Augment(matrix: Matrix) returns (ok: bool, a: array2<real>)
    requires |matrix| > 0
    ensures ok <==> Square(matrix, |matrix|)
    ensures fresh(a) && a.Length0 == |matrix| && a.Length1 == 2 * |matrix|
    ensures ok ==> forall i | 0 <= i < |matrix| :: Rows(a)[i] == matrix[i] + Unit(|matrix|, i)
  {
    var size := |matrix|;
    a := new real[size, size * 2]((_, _) => 0.0);
    for row := 0 to size
      invariant forall i | 0 <= i < row :: |matrix[i]| == size
      invariant forall i, j | 0 <= i < size && 0 <= j < 2 * size ::
          a[i, j] == if i < row then (matrix[i] + Unit(size, i))[j] else 0.0
    {
      if |matrix[row]| != size {
        return false, a;
      }
      for column := 0 to size
        invariant forall i, j | 0 <= i < size && 0 <= j < 2 * size ::
            a[i, j] == if i < row then (matrix[i] + Unit(size, i))[j]
                       else if i == row && j < column then matrix[row][j] else 0.0
      {
        a[row, column] := matrix[row][column];
      }
      a[row, size + row] := 1.0;
    }
    assert forall i | 0 <= i < size :: Row(a, i) == matrix[i] + Unit(size, i);
    ok := true;
  }

  /** The elimination loop: it stops early only at a column without a usable pivot. */
  method ReduceLeftHalf(a: array2<real>, ghost m: Matrix) returns (ok: bool)
    requires a.Length1 == 2 * a.Length0 && Square(m, a.Length0)
    requires Eliminated(Rows(a), m, a.Length0, 0)
    modifies a
    ensures ok ==> Eliminated(Rows(a), m, a.Length0, a.Length0)
    ensures !ok ==> NearlySingular(m, a.Length0)
  {
    hide Dot, Times, RowTracks, Reduced, Conditioned, NearlySingular;
    var size := a.Length0;
    for pivot := 0 to size
      invariant Eliminated(Rows(a), m, size, pivot)
    {
      var best := FindPivot(a, pivot);
      if Abs(a[best, pivot]) < PIVOT_THRESHOLD {
        assert forall r | 0 <= r < size :: Rows(a)[r][pivot] == a[r, pivot];
        NoPivot(Rows(a), m, size, pivot, Abs(a[best, pivot]));
        return false;
      }
      SwapKeeps(Rows(a), m, size, pivot, pivot, best);
      assert Rows(a)[best][pivot] == a[best, pivot];
      Swap(a, pivot, best);
      ghost var w := Rows(a);
      assert w[pivot] == Row(a, pivot) && w[pivot][pivot] == a[pivot, pivot];
      PassKeeps(w, m, size, pivot);
      Normalize(a, pivot);
      Eliminate(a, pivot);
    }
    ok := true;
  }

  method RightHalf(a: array2<real>) returns (inverse: Matrix)
    requires a.Length1 == 2 * a.Length0
    ensures Square(inverse, a.Length0)
    ensures forall i | 0 <= i < a.Length0 :: inverse[i] == Rows(a)[i][a.Length0..]
  {
    var size := a.Length0;
    inverse := seq(size, _ => seq(size, _ => 0.0));
    for row := 0 to size
      invariant Square(inverse, size)
      invariant forall i, j | 0 <= i < row && 0 <= j < size :: inverse[i][j] == a[i, size + j]
    {
      for column := 0 to size
        invariant Square(inverse, size)
        invariant forall i, j | 0 <= i < size && 0 <= j < size && (i < row || (i == row && j < column)) ::
            inverse[i][j] == a[i, size + j]
      {
        inverse := inverse[row := inverse[row][column := a[row, size + column]]];
      }
    }
    forall i | 0 <= i < size
      ensures inverse[i] == Rows(a)[i][size..]
    {
      assert Rows(a)[i] == Row(a, i);
    }
  }

  method Invert(matrix: Matrix) returns (ok: bool, inverse: Matrix)
    ensures ok ==>
        && |matrix| > 0 && Square(matrix, |matrix|) && Square(inverse, |matrix|)
        && LeftInverse(inverse, matrix, |matrix|)
    ensures !ok ==>
        |matrix| == 0 || !Square(matrix, |matrix|) || NearlySingular(matrix, |matrix|)
  {
    var size := |matrix|;
    inverse := [];
    if size == 0 {
      return false, [];
    }
    var a: array2<real>;
    ok, a := Augment(matrix);
    if !ok {
      return false, [];
    }
    AugmentedIsEliminated(Rows(a), matrix, size);
    ok := ReduceLeftHalf(a, matrix);
    if !ok {
      return false, [];
    }
    inverse := RightHalf(a);
    ReducedIsInverse(Rows(a), inverse, matrix, size);
  }

  lemma {:induction false} ReducedIsInverse(w: Matrix, inverse: Matrix, m: Matrix, n: nat)
    requires Square(m, n) && Eliminated(w, m, n, n)
    requires Square(inverse, n) && forall i | 0 <= i < n :: inverse[i] == w[i][n..]
    ensures LeftInverse(inverse, m, n)
  {
    hide Dot, Times;
    forall i, j | 0 <= i < n && 0 <= j < n
      ensures Dot(inverse[i], Column(m, n, j)) == Unit(n, i)[j]
    {
      assert RowTracks(w[i], m, n);
    }
  }
}
