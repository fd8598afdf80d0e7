/**
 * The mathematics behind the contextual impact model: the covariance built from the recorded
 * evidence, and what the solutions of its linear systems mean.
 */
module RidgeRegression {
  import opened RealArithmetic
  import opened LinearAlgebra
  import opened MatrixInversion

  datatype Evidence = Evidence(context: Vector, reward: real)

  ghost predicate Contexts(history: seq<Evidence>, n: nat) {
    forall e | e in history :: |e.context| == n
  }

  ghost function Diagonal(n: nat, ridge: real): (m: Matrix)
    ensures Square(m, n)
  {
    seq(n, i requires 0 <= i < n => Scaled(ridge, Unit(n, i)))
  }

  /** `m + x * transpose(x)` */
  ghost function AddOuter(m: Matrix, x: Vector, n: nat): (r: Matrix)
    requires Square(m, n) && |x| == n
    ensures Square(r, n)
  {
    seq(n, i requires 0 <= i < n => AddScaled(m[i], x[i], x))
  }

  /** `ridge * I` plus the outer products of all recorded contexts. */
  ghost function CovarianceOf(ridge: real, history: seq<Evidence>, n: nat): (m: Matrix)
    requires Contexts(history, n)
    ensures Square(m, n)
  {
    if |history| == 0 then Diagonal(n, ridge)
    else AddOuter(CovarianceOf(ridge, history[..|history| - 1], n), history[|history| - 1].context, n)
  }

  ghost function RewardOf(history: seq<Evidence>, n: nat): (b: Vector)
    requires Contexts(history, n)
    ensures |b| == n
  {
    if |history| == 0 then Zeros(n)
    else var last := history[|history| - 1];
         AddScaled(RewardOf(history[..|history| - 1], n), last.reward, last.context)
  }

  ghost function Form(m: Matrix, v: Vector): real {
    Dot(v, MulVec(m, v))
  }

  /** The penalised squared error of predicting every recorded reward linearly with weights `w`. */
  ghost function Loss(ridge: real, history: seq<Evidence>, w: Vector): real {
    if |history| == 0 then Times(ridge, Dot(w, w))
    else var last := history[|history| - 1];
         var residual := last.reward - Dot(last.context, w);
         Loss(ridge, history[..|history| - 1], w) + Times(residual, residual)
  }

  // ----- the covariance and its quadratic form -----

  lemma {:induction false} CovarianceSymmetric(ridge: real, history: seq<Evidence>, n: nat)
    requires Contexts(history, n)
    ensures Symmetric(CovarianceOf(ridge, history, n), n)
  {
    hide Times;
    if |history| > 0 {
      CovarianceSymmetric(ridge, history[..|history| - 1], n);
      var x := history[|history| - 1].context;
      forall i, j | 0 <= i < n && 0 <= j < n
        ensures Times(x[i], x[j]) == Times(x[j], x[i])
      {
        TimesCommutes(x[i], x[j]);
      }
    } else {
      TimesUnits(ridge);
    }
  }

  lemma {:induction false} DiagonalForm(n: nat, ridge: real, v: Vector)
    requires |v| == n
    ensures Form(Diagonal(n, ridge), v) == Times(ridge, Dot(v, v))
  {
    hide Dot, Times;
    forall i | 0 <= i < n
      ensures MulVec(Diagonal(n, ridge), v)[i] == Scaled(ridge, v)[i]
    {
      DotScaled(ridge, Unit(n, i), v);
      DotUnit(n, i, v);
    }
    assert MulVec(Diagonal(n, ridge), v) == Scaled(ridge, v);
    DotCommutes(v, Scaled(ridge, v));
    DotScaled(ridge, v, v);
  }

  lemma {:induction false} OuterTimes(m: Matrix, x: Vector, v: Vector, n: nat)
    requires Square(m, n) && |x| == |v| == n
    ensures MulVec(AddOuter(m, x, n), v) == AddScaled(MulVec(m, v), Dot(x, v), x)
  {
    hide Dot, Times;
    forall i | 0 <= i < n
      ensures MulVec(AddOuter(m, x, n), v)[i] == AddScaled(MulVec(m, v), Dot(x, v), x)[i]
    {
      DotAddScaled(m[i], x[i], x, v);
      TimesCommutes(x[i], Dot(x, v));
    }
  }

  lemma {:induction false} OuterForm(m: Matrix, x: Vector, v: Vector, n: nat)
    requires Square(m, n) && |x| == |v| == n
    ensures Form(AddOuter(m, x, n), v) == Form(m, v) + Times(Dot(x, v), Dot(x, v))
  {
    hide Dot, Times;
    OuterTimes(m, x, v, n);
    DotAddScaledRight(v, MulVec(m, v), Dot(x, v), x);
    DotCommutes(v, x);
  }

  /** Every recorded context only adds to the quadratic form. */
  lemma {:induction false} FormGrows(ridge: real, history: seq<Evidence>, more: seq<Evidence>, v: Vector, n: nat)
    requires Contexts(history, n) && Contexts(more, n) && |v| == n
    ensures Contexts(history + more, n)
    ensures Form(CovarianceOf(ridge, history + more, n), v) >= Form(CovarianceOf(ridge, history, n), v)
  {
    hide Dot, Times, Form;
    if |more| == 0 {
      assert history + more == history;
    } else {
      var all := history + more;
      var fewer := more[..|more| - 1];
      assert all[..|all| - 1] == history + fewer && all[|all| - 1] == more[|more| - 1];
      FormGrows(ridge, history, fewer, v, n);
      OuterForm(CovarianceOf(ridge, history + fewer, n), more[|more| - 1].context, v, n);
      TimesSquare(Dot(more[|more| - 1].context, v));
    }
  }

  /** The ridge bounds the quadratic form from below: the covariance is positive definite. */
  lemma {:induction false} FormBound(ridge: real, history: seq<Evidence>, v: Vector, n: nat)
    requires Contexts(history, n) && |v| == n
    ensures Form(CovarianceOf(ridge, history, n), v) >= Times(ridge, Dot(v, v))
  {
    FormGrows(ridge, [], history, v, n);
    assert [] + history == history;
    DiagonalForm(n, ridge, v);
  }

  lemma {:induction false} FormNonNegative(ridge: real, history: seq<Evidence>, v: Vector, n: nat)
    requires Contexts(history, n) && |v| == n && ridge >= 0.0
    ensures Form(CovarianceOf(ridge, history, n), v) >= 0.0
  {
    hide Dot, Times, Form;
    FormBound(ridge, history, v, n);
    DotSelfNonNegative(v);
    TimesSign(ridge, Dot(v, v));
  }

  /** The covariance is never rejected by the pivot test. */
  lemma {:induction false} CovarianceRegular(ridge: real, history: seq<Evidence>, n: nat)
    requires Contexts(history, n)
    requires 2.0 * ridge > PIVOT_THRESHOLD * (n as real + 1.0)
    ensures !NearlySingular(CovarianceOf(ridge, history, n), n)
  {
    hide Dot, Times;
    var m := CovarianceOf(ridge, history, n);
    forall v: Vector, p: nat, e: real | |v| == n && p < n && v[p] == 1.0 && Small(m, v, e) && 0.0 <= e < PIVOT_THRESHOLD
      ensures false
    {
      DotBound(v, MulVec(m, v), e);
      FormBound(ridge, history, v, n);
      DotSelfBound(v, p);
      TimesUnits(1.0);
      TooSmall(ridge, e, n as real, Dot(v, v));
    }
  }

  lemma TooSmall(ridge: real, e: real, n: real, norm: real)
    requires n >= 0.0 && norm >= 1.0 && 0.0 <= e < PIVOT_THRESHOLD
    requires 2.0 * Times(ridge, norm) <= Times(e, n + norm)
    ensures 2.0 * ridge <= PIVOT_THRESHOLD * (n + 1.0)
  {
    var bound := e * n;
    assert bound >= 0.0;
    assert bound * (norm - 1.0) >= 0.0;
    NonNegativeFactor(bound + e - 2.0 * ridge, norm);
    assert bound <= PIVOT_THRESHOLD * n;
  }

  lemma NonNegativeFactor(x: real, norm: real)
    requires norm > 0.0 && x * norm >= 0.0
    ensures x >= 0.0
  {
  }

  // ----- uncertainty -----

  /** The squared uncertainty of a context is the form of the solution, so it is never negative. */
  lemma {:induction false} UncertaintyNonNegative(ridge: real, history: seq<Evidence>, inverse: Matrix, z: Vector,
                                                  n: nat)
    requires Contexts(history, n) && |z| == n && ridge >= 0.0
    requires Square(inverse, n) && LeftInverse(inverse, CovarianceOf(ridge, history, n), n)
    ensures Dot(z, MulVec(inverse, z)) == Form(CovarianceOf(ridge, history, n), MulVec(inverse, z)) >= 0.0
  {
    hide Dot, Times;
    var m, w := CovarianceOf(ridge, history, n), MulVec(inverse, z);
    CovarianceSymmetric(ridge, history, n);
    InverseSolves(inverse, m, z, n);
    DotCommutes(z, w);
    FormNonNegative(ridge, history, w, n);
  }

  /** More evidence never raises the squared uncertainty of any context. */
  lemma {:induction false} UncertaintyFalls(ridge: real, history: seq<Evidence>, more: seq<Evidence>,
                         inverse: Matrix, inverse': Matrix, z: Vector, n: nat)
    requires Contexts(history, n) && Contexts(more, n) && |z| == n && ridge >= 0.0
    requires Contexts(history + more, n)
    requires Square(inverse, n) && LeftInverse(inverse, CovarianceOf(ridge, history, n), n)
    requires Square(inverse', n) && LeftInverse(inverse', CovarianceOf(ridge, history + more, n), n)
    ensures Dot(z, MulVec(inverse', z)) <= Dot(z, MulVec(inverse, z))
  {
    hide Dot, Times;
    var m := CovarianceOf(ridge, history, n);
    var w, w' := MulVec(inverse, z), MulVec(inverse', z);
    UncertaintyNonNegative(ridge, history, inverse, z, n);
    UncertaintyNonNegative(ridge, history + more, inverse', z, n);
    FormGrows(ridge, history, more, w', n);
    CovarianceSymmetric(ridge, history, n);
    InverseSolves(inverse, m, z, n);
    DotCommutes(w', z);
    // The form of the difference of the two solutions is not negative.
    FormOfSum(m, w, -1.0, w', n);
    FormNonNegative(ridge, history, AddScaled(w, -1.0, w'), n);
  }

  // ----- expected reward -----

  lemma {:induction false} LossExpands(ridge: real, history: seq<Evidence>, w: Vector, n: nat)
    requires Contexts(history, n) && |w| == n
    ensures Loss(ridge, history, w) ==
            Form(CovarianceOf(ridge, history, n), w) - 2.0 * Dot(RewardOf(history, n), w) + Loss(0.0, history, Zeros(n))
  {
    hide Dot, Times, Form;
    if |history| == 0 {
      DiagonalForm(n, ridge, w);
      DotZeros(n, w);
      TimesUnits(Dot(Zeros(n), Zeros(n)));
    } else {
      var fewer, last := history[..|history| - 1], history[|history| - 1];
      var x, r := last.context, last.reward;
      LossExpands(ridge, fewer, w, n);
      OuterForm(CovarianceOf(ridge, fewer, n), x, w, n);
      DotAddScaled(RewardOf(fewer, n), r, x, w);
      DotCommutes(x, Zeros(n));
      DotZeros(n, x);
      SquareOfDifference(r, Dot(x, w));
    }
  }

  /** Around the fit, the loss grows by the form of the step away from it. */
  lemma {:induction false} LossAround(ridge: real, history: seq<Evidence>, inverse: Matrix, d: Vector, n: nat)
    requires Contexts(history, n) && |d| == n
    requires Square(inverse, n) && LeftInverse(inverse, CovarianceOf(ridge, history, n), n)
    ensures var w := MulVec(inverse, RewardOf(history, n));
            Loss(ridge, history, AddScaled(w, 1.0, d))
            == Loss(ridge, history, w) + Form(CovarianceOf(ridge, history, n), d)
  {
    hide Dot, Times, Loss;
    var m, b := CovarianceOf(ridge, history, n), RewardOf(history, n);
    var w := MulVec(inverse, b);
    CovarianceSymmetric(ridge, history, n);
    InverseSolves(inverse, m, b, n);
    FormOfSum(m, w, 1.0, d, n);
    DotAddScaledRight(b, w, 1.0, d);
    TimesUnits(Dot(b, d));
    DotCommutes(d, b);
    LossExpands(ridge, history, AddScaled(w, 1.0, d), n);
    LossExpands(ridge, history, w, n);
  }

  /** The weights used for prediction are the unique ridge-regression fit of the evidence. */
  lemma {:induction false} WeightsMinimiseLoss(ridge: real, history: seq<Evidence>, inverse: Matrix, v: Vector, n: nat)
    requires Contexts(history, n) && |v| == n && ridge > 0.0
    requires Square(inverse, n) && LeftInverse(inverse, CovarianceOf(ridge, history, n), n)
    requires v != MulVec(inverse, RewardOf(history, n))
    ensures Loss(ridge, history, MulVec(inverse, RewardOf(history, n))) < Loss(ridge, history, v)
  {
    hide Dot, Times, Loss, Form;
    var w := MulVec(inverse, RewardOf(history, n));
    var d := Difference(v, w, n);
    DifferenceIsPositive(v, w, d, n);
    LossAround(ridge, history, inverse, d, n);
    FormBound(ridge, history, d, n);
    TimesSign(ridge, Dot(d, d));
  }

  /** The step from `w` to `v`. */
  lemma {:induction false} Difference(v: Vector, w: Vector, n: nat) returns (d: Vector)
    requires |v| == |w| == n
    ensures |d| == n && v == AddScaled(w, 1.0, d) && forall k | 0 <= k < n :: d[k] == v[k] - w[k]
  {
    hide Times;
    d := seq(n, k requires 0 <= k < n => v[k] - w[k]);
    forall k | 0 <= k < n
      ensures AddScaled(w, 1.0, d)[k] == v[k]
    {
      TimesUnits(d[k]);
    }
  }

  lemma {:induction false} DifferenceIsPositive(v: Vector, w: Vector, d: Vector, n: nat)
    requires |v| == |w| == |d| == n && v != w && forall k | 0 <= k < n :: d[k] == v[k] - w[k]
    ensures Dot(d, d) > 0.0
  {
    hide Dot, Times;
    var i :| 0 <= i < n && v[i] != w[i];
    TimesSquare(d[i]);
    DotSelfBound(d, i);
  }

  // ----- the lower confidence bound -----

  /** The covariance is definite: only the zero vector has no form. */
  lemma {:induction false} NullVector(ridge: real, history: seq<Evidence>, x: Vector, n: nat)
    requires Contexts(history, n) && |x| == n && ridge > 0.0
    requires Form(CovarianceOf(ridge, history, n), x) <= 0.0
    ensures x == Zeros(n)
  {
    hide Dot, Times, Form;
    FormBound(ridge, history, x, n);
    if x != Zeros(n) {
      var i :| 0 <= i < n && x[i] != Zeros(n)[i];
      TimesSquare(x[i]);
      DotSelfBound(x, i);
      TimesSign(ridge, Dot(x, x));
    }
  }

  lemma {:induction false} FormScaled(m: Matrix, s: real, x: Vector, n: nat)
    requires Square(m, n) && |x| == n
    ensures MulVec(m, Scaled(s, x)) == Scaled(s, MulVec(m, x))
    ensures Form(m, Scaled(s, x)) == Times(s, Times(s, Form(m, x)))
  {
    hide Dot, Times;
    forall i | 0 <= i < n
      ensures MulVec(m, Scaled(s, x))[i] == Scaled(s, MulVec(m, x))[i]
    {
      DotCommutes(m[i], Scaled(s, x));
      DotScaled(s, x, m[i]);
      DotCommutes(x, m[i]);
    }
    DotScaled(s, x, Scaled(s, MulVec(m, x)));
    DotCommutes(x, Scaled(s, MulVec(m, x)));
    DotScaled(s, MulVec(m, x), x);
    DotCommutes(x, MulVec(m, x));
  }

  /** Cauchy-Schwarz in the covariance: a step `d` of bounded form moves the reward of `z` by a bounded amount. */
  lemma {:induction false} StepIsBounded(ridge: real, history: seq<Evidence>, inverse: Matrix, z: Vector, d: Vector,
                                         s: real, u: real, n: nat)
    requires Contexts(history, n) && |z| == |d| == n && ridge > 0.0 && s >= 0.0 && u >= 0.0
    requires Square(inverse, n) && LeftInverse(inverse, CovarianceOf(ridge, history, n), n)
    requires Dot(z, MulVec(inverse, z)) == Times(u, u)
    requires Form(CovarianceOf(ridge, history, n), d) <= Times(s, s)
    ensures Dot(d, z) >= -Times(s, u)
  {
    hide Dot, Times;
    var m, g := CovarianceOf(ridge, history, n), MulVec(inverse, z);
    CovarianceSymmetric(ridge, history, n);
    InverseSolves(inverse, m, z, n);
    UncertaintyNonNegative(ridge, history, inverse, z, n);
    DotZeros(n, z);
    if s == 0.0 || u == 0.0 {
      TimesUnits(s);
      TimesUnits(u);
      StepIsNull(ridge, history, g, z, d, n, s == 0.0);
    } else {
      FormScaled(m, u, d, n);
      FormScaled(m, s, g, n);
      FormOfSum(m, Scaled(u, d), 1.0, Scaled(s, g), n);
      FormNonNegative(ridge, history, AddScaled(Scaled(u, d), 1.0, Scaled(s, g)), n);
      CrossTerm(m, u, d, s, g, z, n);
      Discriminant(s, u, Form(m, d), Dot(d, z));
    }
  }

  lemma {:induction false} StepIsNull(ridge: real, history: seq<Evidence>, g: Vector, z: Vector, d: Vector, n: nat,
                                      still: bool)
    requires Contexts(history, n) && |z| == |d| == |g| == n && ridge > 0.0
    requires MulVec(CovarianceOf(ridge, history, n), g) == z
    requires Form(CovarianceOf(ridge, history, n), if still then d else g) <= 0.0
    ensures Dot(d, z) == 0.0
  {
    hide Dot, Times, Form;
    var m := CovarianceOf(ridge, history, n);
    NullVector(ridge, history, if still then d else g, n);
    if still {
      DotZeros(n, z);
    } else {
      CovarianceSymmetric(ridge, history, n);
      SymmetricForm(d, m, g, n);
      DotZeros(n, MulVec(m, d));
    }
  }

  lemma {:induction false} CrossTerm(m: Matrix, u: real, d: Vector, s: real, g: Vector, z: Vector, n: nat)
    requires Square(m, n) && Symmetric(m, n) && |d| == |g| == |z| == n && MulVec(m, g) == z
    ensures Dot(Scaled(s, g), MulVec(m, Scaled(u, d))) == Times(s, Times(u, Dot(d, z)))
  {
    hide Dot, Times;
    FormScaled(m, u, d, n);
    DotScaled(s, g, Scaled(u, MulVec(m, d)));
    DotCommutes(g, Scaled(u, MulVec(m, d)));
    DotScaled(u, MulVec(m, d), g);
    DotCommutes(MulVec(m, d), g);
    SymmetricForm(g, m, d, n);
  }

  lemma Discriminant(s: real, u: real, form: real, move: real)
    requires s > 0.0 && u > 0.0 && form <= Times(s, s)
    requires Times(u, Times(u, form)) + 2.0 * Times(s, Times(u, move)) + Times(s, Times(s, Times(u, u))) >= 0.0
    ensures move >= -Times(s, u)
  {
    var area := s * u;
    assert area > 0.0;
    assert u * u > 0.0;
    assert (u * u) * form <= (u * u) * (s * s);
    assert area * (area + move) >= 0.0;
    if area + move < 0.0 {
      NonNegativeFactor(area + move, area);
    }
  }

  /** `v` fits the evidence nearly as well as anything: its loss exceeds no other by more than `slack`. */
  ghost predicate FitsWithin(ridge: real, history: seq<Evidence>, v: Vector, slack: real) {
    forall w: Vector | |w| == |v| :: Loss(ridge, history, v) <= Loss(ridge, history, w) + slack
  }

  /**
   * What the lower confidence bound is: the least reward that any weights predict whose loss is within
   * the square of the scale of the best one.
   */
  lemma {:induction false} BoundIsWorstCase(ridge: real, history: seq<Evidence>, inverse: Matrix, z: Vector, v: Vector,
                                            s: real, u: real, n: nat)
    requires Contexts(history, n) && |z| == |v| == n && ridge > 0.0 && s >= 0.0 && u >= 0.0
    requires Square(inverse, n) && LeftInverse(inverse, CovarianceOf(ridge, history, n), n)
    requires Dot(z, MulVec(inverse, z)) == Times(u, u)
    requires FitsWithin(ridge, history, v, Times(s, s))
    ensures Dot(v, z) >= Dot(MulVec(inverse, RewardOf(history, n)), z) - Times(s, u)
  {
    hide Dot, Times, Loss, Form;
    var w := MulVec(inverse, RewardOf(history, n));
    var d := Difference(v, w, n);
    LossAround(ridge, history, inverse, d, n);
    assert Loss(ridge, history, v) <= Loss(ridge, history, w) + Times(s, s);
    StepIsBounded(ridge, history, inverse, z, d, s, u, n);
    DotAddScaled(w, 1.0, d, z);
    TimesUnits(Dot(d, z));
  }

  lemma {:induction false} BoundIsAttained(ridge: real, history: seq<Evidence>, inverse: Matrix, z: Vector, s: real,
                                           u: real, n: nat)
    returns (v: Vector)
    requires Contexts(history, n) && |z| == n && ridge > 0.0 && s >= 0.0 && u >= 0.0
    requires Square(inverse, n) && LeftInverse(inverse, CovarianceOf(ridge, history, n), n)
    requires Dot(z, MulVec(inverse, z)) == Times(u, u)
    ensures |v| == n && FitsWithin(ridge, history, v, Times(s, s))
    ensures Dot(v, z) == Dot(MulVec(inverse, RewardOf(history, n)), z) - Times(s, u)
  {
    hide Dot, Times, Loss, Form;
    var m, g, w := CovarianceOf(ridge, history, n), MulVec(inverse, z), MulVec(inverse, RewardOf(history, n));
    var t := if u == 0.0 then 0.0 else -s / u;
    UncertaintyNonNegative(ridge, history, inverse, z, n);
    FormScaled(m, t, g, n);
    v := AddScaled(w, 1.0, Scaled(t, g));
    LossAround(ridge, history, inverse, Scaled(t, g), n);
    DotAddScaled(w, 1.0, Scaled(t, g), z);
    TimesUnits(Dot(Scaled(t, g), z));
    DotScaled(t, g, z);
    DotCommutes(g, z);
    StepOfScale(s, u, t);
    forall x: Vector | |x| == n
      ensures Loss(ridge, history, v) <= Loss(ridge, history, x) + Times(s, s)
    {
      if x != w {
        WeightsMinimiseLoss(ridge, history, inverse, x, n);
      }
    }
  }

  lemma StepOfScale(s: real, u: real, t: real)
    requires u >= 0.0 && t == if u == 0.0 then 0.0 else -s / u
    ensures Times(t, Times(u, u)) == -Times(s, u)
    ensures Times(t, Times(t, Times(u, u))) <= Times(s, s)
  {
    if u > 0.0 {
      assert t * u == -s;
      assert t * (u * u) == (t * u) * u;
      assert t * (t * (u * u)) == (t * u) * (t * u);
    } else {
      TimesSquare(s);
    }
  }
}
