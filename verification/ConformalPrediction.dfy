/** Split-conformal event sets, and the exact number of exchangeable points they cover. */
module ConformalPrediction {
  import opened Sequences
  import opened Wrappers

  datatype Model = Model(threshold: real, alpha: real)

  datatype Prediction = Prediction(labels: seq<int>, threshold: real, abstain: bool)

  function Ceil(x: real): int {
    -((-x).Floor)
  }

  function Score(probability: real, outcome: int): real {
    if outcome != 0 then 1.0 - probability else probability
  }

  function Scores(probabilities: seq<real>, labels: seq<int>): seq<real>
    requires |probabilities| == |labels|
  {
    seq(|labels|, i requires 0 <= i < |labels| => Score(probabilities[i], labels[i]))
  }

  predicate AtMost(x: real, y: real) {
    x <= y
  }

  /** The position of the threshold among `n` sorted scores. */
  function ThresholdIndex(n: nat, alpha: real): (index: nat)
    requires n > 0
    ensures index < n
  {
    var wanted := Ceil((n + 1) as real * (1.0 - alpha)) - 1;
    var clamped := if wanted < 0 then 0 else wanted;
    if clamped < n - 1 then clamped else n - 1
  }

  function Fit(probabilities: seq<real>, labels: seq<int>, alpha: real): Result<Model> {
    if !(0.0 < alpha < 1.0) || |probabilities| != |labels| || |probabilities| == 0 then Failure(ValueError)
    else
      var scores := Scores(probabilities, labels);
      SortPermutes(scores, AtMost);
      Success(Model(Sort(scores, AtMost)[ThresholdIndex(|scores|, alpha)], alpha))
  }

  function Predict(model: Model, eventProbability: real, allowEmptySet: bool): Prediction {
    var no := if 1.0 - (1.0 - eventProbability) <= model.threshold then [0] else [];
    var yes := if 1.0 - eventProbability <= model.threshold then [1] else [];
    var labels := no + yes;
    if labels == [] && !allowEmptySet then Prediction([0, 1], model.threshold, true)
    else Prediction(labels, model.threshold, |labels| == 0 || |labels| == 2)
  }

  /** Which labels a prediction offers, and when it abstains: the event and its absence are judged apart. */
  lemma PredictMeans(model: Model, eventProbability: real, allowEmptySet: bool)
    ensures var p := Predict(model, eventProbability, allowEmptySet);
            var noPasses, yesPasses := eventProbability <= model.threshold, 1.0 - eventProbability <= model.threshold;
            && p.threshold == model.threshold
            && (0 in p.labels <==> noPasses || (!allowEmptySet && !yesPasses))
            && (1 in p.labels <==> yesPasses || (!allowEmptySet && !noPasses))
            && (p.labels == [] || p.labels == [0] || p.labels == [1] || p.labels == [0, 1])
            && (p.abstain <==> (noPasses <==> yesPasses))
  {
  }

  /** The two modes differ in one case: what would be an empty set is the full one by default. */
  lemma ModesAgree(model: Model, eventProbability: real)
    ensures var strict, default := Predict(model, eventProbability, true), Predict(model, eventProbability, false);
            default == if strict.labels == [] then Prediction([0, 1], model.threshold, true) else strict
  {
  }

  /** What calibration accepts; its threshold is the score of one of the points. */
  lemma {:induction false} FitMeans(probabilities: seq<real>, labels: seq<int>, alpha: real)
    ensures var fitted := Fit(probabilities, labels, alpha);
            && (fitted.Success? <==> 0.0 < alpha < 1.0 && |probabilities| == |labels| > 0)
            && (fitted.Failure? ==> fitted.error == ValueError)
            && (fitted.Success? ==>
                  && fitted.value.alpha == alpha
                  && exists i | 0 <= i < |labels| :: fitted.value.threshold
                       == if labels[i] == 0 then probabilities[i] else 1.0 - probabilities[i])
  {
    hide Sort;
    if 0.0 < alpha < 1.0 && |probabilities| == |labels| > 0 {
      var scores := Scores(probabilities, labels);
      SortPermutes(scores, AtMost);
      var threshold := Sort(scores, AtMost)[ThresholdIndex(|scores|, alpha)];
      assert threshold in multiset(scores);
      var i :| 0 <= i < |scores| && scores[i] == threshold;
    }
  }

  // ----- order statistics -----

  function Below(x: real, s: seq<real>): nat {
    Count((y: real) => y < x, s)
  }

  ghost predicate Distinct(s: seq<real>) {
    forall i, j | 0 <= i < j < |s| :: s[i] != s[j]
  }

  /** A value is at most the k-th smallest exactly when at most k others are below it. */
  lemma {:induction false} OrderStatistic(t: seq<real>, index: nat, x: real)
    requires SortedBy(t, AtMost) && index < |t|
    ensures x <= t[index] <==> Below(x, t) <= index
  {
    var p := (y: real) => y < x;
    if x <= t[index] {
      forall i | 0 <= i < |t[index..]|
        ensures !p(t[index..][i])
      {
        assert i > 0 ==> AtMost(t[index], t[index + i]);
      }
      CountNone(p, t[index..]);
      CountAppends(p, t[..index], t[index..]);
      assert t == t[..index] + t[index..];
    } else {
      var low := t[..index + 1];
      forall i | 0 <= i < |low|
        ensures p(low[i])
      {
        assert i < index ==> AtMost(t[i], t[index]);
      }
      CountAll(p, low);
      CountAppends(p, t[..index + 1], t[index + 1..]);
      assert t == t[..index + 1] + t[index + 1..];
    }
  }

  /** Sorting ranks the entries; with distinct entries the rank is the position. */
  lemma {:induction false} SortedRank(s: seq<real>, t: seq<real>, i: nat)
    requires multiset(s) == multiset(t) && SortedBy(t, AtMost) && i < |t|
    ensures Below(t[i], s) <= i
    ensures Distinct(s) ==> Below(t[i], s) == i
  {
    hide Count, Distinct;
    CountPermutes((y: real) => y < t[i], s, t);
    OrderStatistic(t, i, t[i]);
    if Distinct(s) && i > 0 {
      DistinctSorted(s, t);
      OrderStatistic(t, i - 1, t[i]);
    }
  }

  /** At least k entries have fewer than k entries below them, and exactly k when all are distinct. */
  lemma {:induction false} LowRankCount(s: seq<real>, k: nat)
    requires k <= |s|
    ensures Count((x: real) => Below(x, s) < k, s) >= k
    ensures Distinct(s) ==> Count((x: real) => Below(x, s) < k, s) == k
  {
    hide Count, Distinct, Below, Sort, SortedBy;
    var t := Sort(s, AtMost);
    SortSorts(s, AtMost);
    SortPermutes(s, AtMost);
    var p := (x: real) => Below(x, s) < k;
    var low, high := t[..k], t[k..];
    forall i | 0 <= i < |low|
      ensures p(low[i])
    {
      SortedRank(s, t, i);
    }
    forall i | 0 <= i < |high| && Distinct(s)
      ensures !p(high[i])
    {
      SortedRank(s, t, k + i);
    }
    CountAll(p, low);
    if Distinct(s) {
      CountNone(p, high);
    }
    assert t == low + high;
    CountAppends(p, low, high);
    CountPermutes(p, s, t);
  }

  lemma {:induction false} DistinctSorted(s: seq<real>, t: seq<real>)
    requires multiset(s) == multiset(t) && SortedBy(t, AtMost)
    requires Distinct(s)
    ensures forall i | 0 < i < |t| :: t[i - 1] < t[i]
  {
    forall i | 0 < i < |t|
      ensures t[i - 1] < t[i]
    {
      assert AtMost(t[i - 1], t[i]);
      if t[i - 1] == t[i] {
        assert t == t[..i - 1] + [t[i - 1], t[i]] + t[i + 1..];
        assert multiset(t)[t[i]] >= 2;
        OnlyOnce(s, t[i]);
      }
    }
  }

  lemma {:induction false} OnlyOnce(s: seq<real>, x: real)
    requires Distinct(s)
    ensures multiset(s)[x] <= 1
  {
    if |s| > 0 {
      OnlyOnce(s[1..], x);
      MultisetTail(s);
      if x == s[0] {
        assert x !in s[1..];
      }
    }
  }

  // ----- coverage -----

  function Without<T>(s: seq<T>, i: nat): seq<T>
    requires i < |s|
  {
    s[..i] + s[i + 1..]
  }

  /** Calibrated on all other points, the prediction for point `i` contains its true label. */
  predicate Covers(probabilities: seq<real>, labels: seq<int>, alpha: real, allowEmptySet: bool, i: nat)
    requires |probabilities| == |labels| >= 2 && 0.0 < alpha < 1.0 && i < |labels|
  {
    var model := Fit(Without(probabilities, i), Without(labels, i), alpha);
    model.Success? && labels[i] in Predict(model.value, probabilities[i], allowEmptySet).labels
  }

  ghost function Covered(probabilities: seq<real>, labels: seq<int>, alpha: real, allowEmptySet: bool): set<nat>
    requires |probabilities| == |labels| >= 2 && 0.0 < alpha < 1.0
  {
    set i: nat | i < |labels| && Covers(probabilities, labels, alpha, allowEmptySet, i)
  }

  /** A score passes the fitted threshold exactly when few calibration scores are below it. */
  lemma {:induction false} ThresholdMeaning(probabilities: seq<real>, labels: seq<int>, alpha: real, x: real)
    requires |probabilities| == |labels| > 0 && 0.0 < alpha < 1.0
    ensures var fitted := Fit(probabilities, labels, alpha);
            fitted.Success? && (x <= fitted.value.threshold <==>
              Below(x, Scores(probabilities, labels)) <= ThresholdIndex(|labels|, alpha))
  {
    hide Sort, SortedBy, Count, ThresholdIndex;
    var scores := Scores(probabilities, labels);
    var t := Sort(scores, AtMost);
    SortSorts(scores, AtMost);
    SortPermutes(scores, AtMost);
    OrderStatistic(t, ThresholdIndex(|scores|, alpha), x);
    CountPermutes((y: real) => y < x, scores, t);
  }

  lemma {:induction false} BelowWithout(s: seq<real>, i: nat)
    requires i < |s|
    ensures Below(s[i], Without(s, i)) == Below(s[i], s)
  {
    var p := (y: real) => y < s[i];
    Middle(s, i);
    CountAppends(p, s[..i] + [s[i]], s[i + 1..]);
    CountAppends(p, s[..i], [s[i]]);
    CountAppends(p, s[..i], s[i + 1..]);
  }

  /** Membership in the predicted set is a statement about ranks: no probability model is involved. */
  lemma {:induction false} CoversIffLowRank(probabilities: seq<real>, labels: seq<int>, alpha: real, i: nat)
    requires |probabilities| == |labels| >= 2 && 0.0 < alpha < 1.0 && i < |labels|
    requires labels[i] == 0 || labels[i] == 1
    ensures var s := Scores(probabilities, labels);
            Covers(probabilities, labels, alpha, true, i) <==> Below(s[i], s) <= ThresholdIndex(|labels| - 1, alpha)
    ensures Covers(probabilities, labels, alpha, true, i) ==> Covers(probabilities, labels, alpha, false, i)
  {
    hide Fit, Below, ThresholdIndex;
    var s := Scores(probabilities, labels);
    assert Scores(Without(probabilities, i), Without(labels, i)) == Without(s, i);
    ThresholdMeaning(Without(probabilities, i), Without(labels, i), alpha, s[i]);
    BelowWithout(s, i);
  }

  /** The strict prediction for point `i`, calibrated on all other points, offers no label. */
  predicate LeavesEmpty(probabilities: seq<real>, labels: seq<int>, alpha: real, i: nat)
    requires |probabilities| == |labels| >= 2 && 0.0 < alpha < 1.0 && i < |labels|
  {
    var model := Fit(Without(probabilities, i), Without(labels, i), alpha);
    model.Success? && Predict(model.value, probabilities[i], true).labels == []
  }

  /**
   * Both modes in terms of ranks. By default a point is missed exactly when its own label is out and the
   * other one is in: besides the low-ranked points, those are covered whose strict set is empty.
   */
  lemma {:induction false} DefaultCovers(probabilities: seq<real>, labels: seq<int>, alpha: real, i: nat)
    requires |probabilities| == |labels| >= 2 && 0.0 < alpha < 1.0 && i < |labels|
    requires labels[i] == 0 || labels[i] == 1
    ensures var s := Scores(probabilities, labels);
            var index := ThresholdIndex(|labels| - 1, alpha);
            var other := 1.0 - s[i];
            && (LeavesEmpty(probabilities, labels, alpha, i) <==>
                  Below(s[i], s) > index && Below(other, Without(s, i)) > index)
            && (Covers(probabilities, labels, alpha, false, i) <==>
                  Below(s[i], s) <= index || Below(other, Without(s, i)) > index)
            && (Covers(probabilities, labels, alpha, false, i) <==>
                  Covers(probabilities, labels, alpha, true, i) || LeavesEmpty(probabilities, labels, alpha, i))
            && !(Covers(probabilities, labels, alpha, true, i) && LeavesEmpty(probabilities, labels, alpha, i))
  {
    hide Fit, Below, ThresholdIndex;
    var s := Scores(probabilities, labels);
    assert Scores(Without(probabilities, i), Without(labels, i)) == Without(s, i);
    ThresholdMeaning(Without(probabilities, i), Without(labels, i), alpha, s[i]);
    ThresholdMeaning(Without(probabilities, i), Without(labels, i), alpha, 1.0 - s[i]);
    BelowWithout(s, i);
  }

  ghost function EmptySets(probabilities: seq<real>, labels: seq<int>, alpha: real): set<nat>
    requires |probabilities| == |labels| >= 2 && 0.0 < alpha < 1.0
  {
    set i: nat | i < |labels| && LeavesEmpty(probabilities, labels, alpha, i)
  }

  ghost function Holding(p: real -> bool, s: seq<real>): set<nat> {
    if |s| == 0 then {}
    else Holding(p, s[..|s| - 1]) + if p(s[|s| - 1]) then {|s| - 1} else {}
  }

  lemma {:induction false} HoldingMeans(p: real -> bool, s: seq<real>)
    ensures |Holding(p, s)| == Count(p, s)
    ensures forall i: nat :: i in Holding(p, s) <==> i < |s| && p(s[i])
  {
    hide Count;
    if |s| == 0 {
      CountNone(p, s);
    } else {
      HoldingMeans(p, s[..|s| - 1]);
      CountLast(p, s);
    }
  }

  lemma {:induction false} CountIsCardinality(p: real -> bool, s: seq<real>)
    ensures |set i: nat | i < |s| && p(s[i])| == Count(p, s)
  {
    hide Count, Holding;
    HoldingMeans(p, s);
    assert Holding(p, s) == set i: nat | i < |s| && p(s[i]);
  }

  lemma {:induction false} CountLast(p: real -> bool, s: seq<real>)
    requires |s| > 0
    ensures Count(p, s) == Count(p, s[..|s| - 1]) + if p(s[|s| - 1]) then 1 else 0
  {
    var n := |s| - 1;
    CountAppends(p, s[..n], [s[n]]);
    assert s == s[..n] + [s[n]];
  }

  /** How many of n+1 points the fit on n of them promises to cover. */
  function Promised(n: nat, alpha: real): int {
    var k := Ceil((n + 1) as real * (1.0 - alpha));
    if k <= n then k else n
  }

  lemma PromisedIsPositive(n: nat, alpha: real)
    requires 0.0 < alpha < 1.0 && n > 0
    ensures Promised(n, alpha) == ThresholdIndex(n, alpha) + 1
  {
    assert (n + 1) as real * (1.0 - alpha) > 0.0;
  }

  lemma {:induction false} CoveredByRank(probabilities: seq<real>, labels: seq<int>, alpha: real)
    requires |probabilities| == |labels| >= 2 && 0.0 < alpha < 1.0
    requires forall i | 0 <= i < |labels| :: labels[i] == 0 || labels[i] == 1
    ensures var s := Scores(probabilities, labels);
            var k := ThresholdIndex(|labels| - 1, alpha) + 1;
            |Covered(probabilities, labels, alpha, true)| == Count((x: real) => Below(x, s) < k, s)
    ensures Covered(probabilities, labels, alpha, true) <= Covered(probabilities, labels, alpha, false)
  {
    hide Covers, Below, Count, ThresholdIndex;
    var s := Scores(probabilities, labels);
    var k := ThresholdIndex(|labels| - 1, alpha) + 1;
    var p := (x: real) => Below(x, s) < k;
    var covered := Covered(probabilities, labels, alpha, true);
    forall i: nat | i < |labels|
      ensures i in covered <==> p(s[i])
      ensures i in covered ==> i in Covered(probabilities, labels, alpha, false)
    {
      CoversIffLowRank(probabilities, labels, alpha, i);
    }
    assert covered == set i: nat | i < |s| && p(s[i]);
    CountIsCardinality(p, s);
  }

  /**
   * Exact finite-sample coverage. Of any n+1 labelled points at least min(n, k) are covered by the
   * model fitted on the other n, where k = ceil((n+1)(1-alpha)); and exactly that many when the
   * scores are distinct and empty sets are allowed.
   */
  lemma {:induction false} Coverage(probabilities: seq<real>, labels: seq<int>, alpha: real)
    requires |probabilities| == |labels| >= 2 && 0.0 < alpha < 1.0
    requires forall i | 0 <= i < |labels| :: labels[i] == 0 || labels[i] == 1
    ensures |Covered(probabilities, labels, alpha, true)| >= Promised(|labels| - 1, alpha)
    ensures |Covered(probabilities, labels, alpha, false)| >= Promised(|labels| - 1, alpha)
    ensures Distinct(Scores(probabilities, labels)) ==>
        |Covered(probabilities, labels, alpha, true)| == Promised(|labels| - 1, alpha)
  {
    hide Covered, Below, Count, ThresholdIndex, Promised;
    var s := Scores(probabilities, labels);
    CoveredByRank(probabilities, labels, alpha);
    PromisedIsPositive(|labels| - 1, alpha);
    LowRankCount(s, ThresholdIndex(|labels| - 1, alpha) + 1);
    var strict, lenient := Covered(probabilities, labels, alpha, true), Covered(probabilities, labels, alpha, false);
    assert lenient == strict + (lenient - strict);
    assert |lenient| == |strict| + |lenient - strict|;
  }

  /** Exact coverage in the default mode: what the strict mode covers, and each point it leaves without a label. */
  lemma {:induction false} DefaultCoverage(probabilities: seq<real>, labels: seq<int>, alpha: real)
    requires |probabilities| == |labels| >= 2 && 0.0 < alpha < 1.0
    requires forall i | 0 <= i < |labels| :: labels[i] == 0 || labels[i] == 1
    ensures var strict, empty := Covered(probabilities, labels, alpha, true), EmptySets(probabilities, labels, alpha);
            && Covered(probabilities, labels, alpha, false) == strict + empty && strict !! empty
            && |Covered(probabilities, labels, alpha, false)| == |strict| + |empty|
    ensures Distinct(Scores(probabilities, labels)) ==>
        |Covered(probabilities, labels, alpha, false)|
        == Promised(|labels| - 1, alpha) + |EmptySets(probabilities, labels, alpha)|
  {
    hide Covers, LeavesEmpty, Below, Promised, Distinct, ThresholdIndex;
    forall i: nat | i < |labels|
      ensures Covers(probabilities, labels, alpha, false, i) <==>
              Covers(probabilities, labels, alpha, true, i) || LeavesEmpty(probabilities, labels, alpha, i)
      ensures !(Covers(probabilities, labels, alpha, true, i) && LeavesEmpty(probabilities, labels, alpha, i))
    {
      DefaultCovers(probabilities, labels, alpha, i);
    }
    Coverage(probabilities, labels, alpha);
  }

  /**
   * The covered fraction is at least 1 - alpha as soon as the calibration set is large enough, and with
   * distinct scores and empty sets allowed not before.
   */
  lemma {:induction false} CoverageRate(probabilities: seq<real>, labels: seq<int>, alpha: real)
    requires |probabilities| == |labels| >= 2 && 0.0 < alpha < 1.0
    requires forall i | 0 <= i < |labels| :: labels[i] == 0 || labels[i] == 1
    ensures |labels| as real * alpha >= 1.0 ==>
        && |Covered(probabilities, labels, alpha, false)| as real >= |labels| as real * (1.0 - alpha)
        && |Covered(probabilities, labels, alpha, true)| as real >= |labels| as real * (1.0 - alpha)
    ensures Distinct(Scores(probabilities, labels)) ==>
        (|Covered(probabilities, labels, alpha, true)| as real >= |labels| as real * (1.0 - alpha)
         <==> |labels| as real * alpha >= 1.0)
  {
    hide Covered, Promised, Distinct;
    Coverage(probabilities, labels, alpha);
    PromisedRate(|labels| - 1, alpha);
  }

  lemma PromisedRate(n: nat, alpha: real)
    requires 0.0 < alpha < 1.0
    ensures Promised(n, alpha) as real >= (n + 1) as real * (1.0 - alpha) <==> (n + 1) as real * alpha >= 1.0
  {
    var wanted := (n + 1) as real * (1.0 - alpha);
    assert wanted == (n + 1) as real - (n + 1) as real * alpha;
    assert wanted <= Ceil(wanted) as real < wanted + 1.0;
  }
}
