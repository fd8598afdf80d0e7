/** Off-policy evaluation of a candidate policy from logged outcomes, and the gate for promoting it. */
module OfflineEvaluation {
  import opened RealArithmetic
  import opened ResourceActions

  datatype LoggedPolicyOutcome = LoggedPolicyOutcome(
    loggedAction: ResourceActionType,
    candidatePolicyAction: ResourceActionType,
    reward: real,
    baselineReward: real,
    loggingPropensity: real,
    causalSupport: bool,
    observedOutcome: bool)

  datatype EvaluationReason =
    | NotEvaluated
    | InvalidPropensity
    | NoObservedActionsMatched
    | InsufficientOverlap
    | CausalChecksumMissing
    | InsufficientMatchedSamples
    | BeatsBaseline
    | DoesNotBeatBaseline

  datatype OfflineEvaluationResult = OfflineEvaluationResult(
    totalSamples: int,
    matchedSamples: int,
    estimatedPolicyReward: real,
    baselineReward: real,
    standardError: real,
    lowerConfidenceBenefit: real,
    effectiveSampleSize: real,
    overlapAdequate: bool,
    causalEvidenceAdequate: bool,
    sufficientEvidence: bool,
    promotionEligible: bool,
    reason: EvaluationReason)

  predicate ValidPropensity(o: LoggedPolicyOutcome) {
    0.0 < o.loggingPropensity <= 1.0
  }

  /** The candidate would have taken the logged action, and its outcome was observed. */
  predicate Matched(o: LoggedPolicyOutcome) {
    ValidPropensity(o) && o.loggedAction == o.candidatePolicyAction && o.observedOutcome
  }

  function Weight(o: LoggedPolicyOutcome): real
    requires ValidPropensity(o)
  {
    1.0 / o.loggingPropensity
  }

  function WeightedReward(o: LoggedPolicyOutcome): real
    requires ValidPropensity(o)
  {
    Clamp(Times(o.reward, Weight(o)), -10.0, 10.0)
  }

  /** The baseline rewards of all outcomes with a usable propensity. */
  function Baselines(outcomes: seq<LoggedPolicyOutcome>): seq<real> {
    if |outcomes| == 0 then []
    else var last := outcomes[|outcomes| - 1];
         Baselines(outcomes[..|outcomes| - 1]) + if ValidPropensity(last) then [last.baselineReward] else []
  }

  /** The inverse-propensity weights of the matched outcomes. */
  function Weights(outcomes: seq<LoggedPolicyOutcome>): seq<real> {
    if |outcomes| == 0 then []
    else var last := outcomes[|outcomes| - 1];
         Weights(outcomes[..|outcomes| - 1]) + if Matched(last) then [Weight(last)] else []
  }

  function WeightedRewards(outcomes: seq<LoggedPolicyOutcome>): seq<real> {
    if |outcomes| == 0 then []
    else var last := outcomes[|outcomes| - 1];
         WeightedRewards(outcomes[..|outcomes| - 1]) + if Matched(last) then [WeightedReward(last)] else []
  }

  function CausalCount(outcomes: seq<LoggedPolicyOutcome>): nat {
    if |outcomes| == 0 then 0
    else var last := outcomes[|outcomes| - 1];
         CausalCount(outcomes[..|outcomes| - 1]) + if Matched(last) && last.causalSupport then 1 else 0
  }

  function SquaredDeviations(values: seq<real>, mean: real): real {
    if |values| == 0 then 0.0
    else SquaredDeviations(values[..|values| - 1], mean) +
         Times(values[|values| - 1] - mean, values[|values| - 1] - mean)
  }

  /** The sample variance of the mean: zero for a single value. */
  function VarianceOfMean(values: seq<real>): real
    requires |values| > 0
  {
    var squares := SquaredDeviations(values, Mean(values));
    (if |values| > 1 then squares / (|values| - 1) as real else squares) / |values| as real
  }

  /** The Kish effective sample size of a weighted sample. */
  function EffectiveSampleSize(weights: seq<real>): real {
    if SumOfSquares(weights) > 0.0 then Times(Sum(weights), Sum(weights)) / SumOfSquares(weights) else 0.0
  }

  lemma {:induction false} EffectiveSampleSizeBounds(weights: seq<real>)
    requires |weights| > 0 && forall i | 0 <= i < |weights| :: weights[i] > 0.0
    ensures 1.0 <= EffectiveSampleSize(weights) <= |weights| as real
    ensures EffectiveSampleSize(weights) * SumOfSquares(weights) == Times(Sum(weights), Sum(weights))
  {
    hide Times;
    SumOfSquaresBound(weights);
    SquareOfSumBound(weights);
    QuotientBounds(Times(Sum(weights), Sum(weights)), SumOfSquares(weights), |weights| as real);
  }

  lemma QuotientBounds(x: real, y: real, n: real)
    requires y > 0.0 && y <= x <= Times(n, y)
    ensures 1.0 <= x / y <= n
  {
    var quotient := x / y;
    assert quotient * y == x;
  }

  lemma {:induction false} SquaredDeviationsNonNegative(values: seq<real>, mean: real)
    ensures SquaredDeviations(values, mean) >= 0.0
  {
    hide Times;
    if |values| > 0 {
      SquaredDeviationsNonNegative(values[..|values| - 1], mean);
      TimesSquare(values[|values| - 1] - mean);
    }
  }

  lemma {:induction false} MatchedFacts(outcomes: seq<LoggedPolicyOutcome>)
    ensures |Weights(outcomes)| == |WeightedRewards(outcomes)|
    ensures forall i | 0 <= i < |Weights(outcomes)| :: Weights(outcomes)[i] >= 1.0
    ensures |Weights(outcomes)| > 0 ==> |Baselines(outcomes)| > 0
    ensures CausalCount(outcomes) <= |Weights(outcomes)|
    ensures CausalCount(outcomes) == |Weights(outcomes)| <==>
            forall o | o in outcomes && Matched(o) :: o.causalSupport
  {
    if |outcomes| > 0 {
      var rest, last := outcomes[..|outcomes| - 1], outcomes[|outcomes| - 1];
      MatchedFacts(rest);
      assert outcomes == rest + [last];
      if Matched(last) {
        assert Weight(last) >= 1.0;
      }
    }
  }

  /** An inverse-propensity weight undoes the propensity, and the weighted reward is cut off at ten. */
  lemma WeightingMeans(o: LoggedPolicyOutcome)
    requires 0.0 < o.loggingPropensity <= 1.0
    ensures ValidPropensity(o) && Weight(o) * o.loggingPropensity == 1.0
    ensures -10.0 <= WeightedReward(o) <= 10.0
    ensures -10.0 * o.loggingPropensity <= o.reward <= 10.0 * o.loggingPropensity ==>
        WeightedReward(o) * o.loggingPropensity == o.reward
    ensures o.reward > 10.0 * o.loggingPropensity ==> WeightedReward(o) == 10.0
    ensures o.reward < -10.0 * o.loggingPropensity ==> WeightedReward(o) == -10.0
  {
    var p, weighted := o.loggingPropensity, o.reward / o.loggingPropensity;
    assert weighted * p == o.reward;
    assert Times(o.reward, Weight(o)) == weighted;
    CutOff(weighted, p);
  }

  lemma CutOff(weighted: real, p: real)
    requires p > 0.0
    ensures weighted > 10.0 <==> weighted * p > 10.0 * p
    ensures weighted < -10.0 <==> weighted * p < -10.0 * p
  {
    assert weighted * p - 10.0 * p == (weighted - 10.0) * p;
    assert weighted * p + 10.0 * p == (weighted + 10.0) * p;
    SignOfProduct(weighted - 10.0, p);
    SignOfProduct(-10.0 - weighted, p);
  }

  lemma SignOfProduct(x: real, p: real)
    requires p > 0.0
    ensures x * p > 0.0 <==> x > 0.0
  {
  }

  /** An outcome that the estimate uses: its propensity is usable, the candidate agrees, and it was observed. */
  predicate IsUsed(o: LoggedPolicyOutcome) {
    0.0 < o.loggingPropensity <= 1.0 && o.loggedAction == o.candidatePolicyAction && o.observedOutcome
  }

  /** Which outcomes are used, and that each contributes its own reward and weight, in the order of the log. */
  lemma {:induction false} UsedOutcomes(outcomes: seq<LoggedPolicyOutcome>) returns (used: seq<nat>)
    ensures |used| == |WeightedRewards(outcomes)| == |Weights(outcomes)|
    ensures forall j, k | 0 <= j < k < |used| :: used[j] < used[k]
    ensures forall k | 0 <= k < |used| ::
        && used[k] < |outcomes| && IsUsed(outcomes[used[k]])
        && WeightedRewards(outcomes)[k] == WeightedReward(outcomes[used[k]])
        && Weights(outcomes)[k] == Weight(outcomes[used[k]])
    ensures forall i | 0 <= i < |outcomes| && IsUsed(outcomes[i]) :: i in used
  {
    hide WeightedReward, Weight;
    if |outcomes| == 0 {
      used := [];
    } else {
      var n := |outcomes| - 1;
      var before := UsedOutcomes(outcomes[..n]);
      assert Matched(outcomes[n]) <==> IsUsed(outcomes[n]);
      hide IsUsed, Matched;
      used := before + if IsUsed(outcomes[n]) then [n] else [];
      assert outcomes == outcomes[..n] + [outcomes[n]];
      forall i | 0 <= i < |outcomes| && IsUsed(outcomes[i])
        ensures i in used
      {
        if i < n {
          assert IsUsed(outcomes[..n][i]);
        }
      }
    }
  }

  predicate IsUsable(o: LoggedPolicyOutcome) {
    0.0 < o.loggingPropensity <= 1.0
  }

  /** The baseline is averaged over every outcome with a usable propensity, matched or not. */
  lemma {:induction false} BaselineOutcomes(outcomes: seq<LoggedPolicyOutcome>) returns (used: seq<nat>)
    ensures |used| == |Baselines(outcomes)|
    ensures forall j, k | 0 <= j < k < |used| :: used[j] < used[k]
    ensures forall k | 0 <= k < |used| ::
        && used[k] < |outcomes| && IsUsable(outcomes[used[k]])
        && Baselines(outcomes)[k] == outcomes[used[k]].baselineReward
    ensures forall i | 0 <= i < |outcomes| && IsUsable(outcomes[i]) :: i in used
  {
    if |outcomes| == 0 {
      used := [];
    } else {
      var n := |outcomes| - 1;
      var before := BaselineOutcomes(outcomes[..n]);
      assert ValidPropensity(outcomes[n]) <==> IsUsable(outcomes[n]);
      hide IsUsable, ValidPropensity;
      used := before + if IsUsable(outcomes[n]) then [n] else [];
      assert outcomes == outcomes[..n] + [outcomes[n]];
      forall i | 0 <= i < |outcomes| && IsUsable(outcomes[i])
        ensures i in used
      {
        if i < n {
          assert IsUsable(outcomes[..n][i]);
        }
      }
    }
  }

  /**
   * The variance of the mean in the sums alone: the mean of the squares less the square of the mean, over
   * one less than their number, which is counted as one for a single value.
   */
  lemma {:induction false} VarianceMeans(values: seq<real>)
    requires |values| > 0
    ensures var n := |values| as real;
            Times(Times(VarianceOfMean(values), n), if |values| > 1 then n - 1.0 else 1.0)
            == SumOfSquares(values) - Times(Mean(values), Sum(values))
  {
    hide Times, Sum, SumOfSquares, SquaredDeviations;
    SquaresAroundMean(values, Mean(values));
    MeanTimesCount(values);
    UndoDivision(SquaredDeviations(values, Mean(values)), |values| as real, |values| > 1);
    TimesAssociates(|values| as real, Mean(values), Mean(values));
    TimesCommutes(Mean(values), |values| as real);
    TimesCommutes(Times(|values| as real, Mean(values)), Mean(values));
  }

  lemma {:induction false} MeanTimesCount(values: seq<real>)
    requires |values| > 0
    ensures Times(Mean(values), |values| as real) == Sum(values)
  {
  }

  lemma UndoDivision(x: real, n: real, several: bool)
    requires n >= 1.0 && (several ==> n > 1.0)
    ensures var quotient := (if several then x / (n - 1.0) else x) / n;
            Times(Times(quotient, n), if several then n - 1.0 else 1.0) == x
  {
  }

  lemma {:induction false} SquaresAroundMean(values: seq<real>, mean: real)
    ensures SquaredDeviations(values, mean)
            == SumOfSquares(values) - 2.0 * Times(mean, Sum(values)) + Times(|values| as real, Times(mean, mean))
  {
    hide Times;
    if |values| == 0 {
      TimesUnits(mean);
      TimesUnits(Times(mean, mean));
    } else {
      var n, last := |values| - 1, values[|values| - 1];
      SquaresAroundMean(values[..n], mean);
      SquareOfDifference(last, mean);
      TimesAdd(mean, Sum(values[..n]), last);
      TimesCount(n as real, Times(mean, mean));
      TimesCommutes(last, mean);
    }
  }

  /** When the gate opens: stated on the logged outcomes alone. */
  ghost predicate Promotable(outcomes: seq<LoggedPolicyOutcome>, minimumMatchedSamples: int, z: real,
                             root: real -> real)
  {
    var rewards := WeightedRewards(outcomes);
    && (forall o | o in outcomes :: ValidPropensity(o))
    && (forall o | o in outcomes && Matched(o) :: o.causalSupport)
    && |rewards| > 0
    && EffectiveSampleSize(Weights(outcomes)) >= minimumMatchedSamples as real
    && Mean(rewards) - Mean(Baselines(outcomes)) > Times(z, root(VarianceOfMean(rewards)))
  }

  method Average(values: seq<real>) returns (mean: real)
    ensures mean == Mean(values)
  {
    if |values| == 0 {
      return 0.0;
    }
    var total := 0.0;
    for i := 0 to |values|
      invariant total == Sum(values[..i])
    {
      assert values[..i + 1][..i] == values[..i];
      total := total + values[i];
    }
    assert values[..|values|] == values;
    mean := total / |values| as real;
  }

  lemma {:induction false} PrefixStep(outcomes: seq<LoggedPolicyOutcome>, i: nat)
    requires i < |outcomes|
    ensures var o, before, after := outcomes[i], outcomes[..i], outcomes[..i + 1];
            && Baselines(after) == Baselines(before) + (if ValidPropensity(o) then [o.baselineReward] else [])
            && WeightedRewards(after) == WeightedRewards(before) + (if Matched(o) then [WeightedReward(o)] else [])
            && CausalCount(after) == CausalCount(before) + (if Matched(o) && o.causalSupport then 1 else 0)
            && Sum(Weights(after)) == Sum(Weights(before)) + (if Matched(o) then Weight(o) else 0.0)
            && SumOfSquares(Weights(after)) ==
               SumOfSquares(Weights(before)) + (if Matched(o) then Times(Weight(o), Weight(o)) else 0.0)
  {
    hide Times;
    var o, before, after := outcomes[i], outcomes[..i], outcomes[..i + 1];
    assert after[..|after| - 1] == before;
    if Matched(o) {
      assert Weights(after) == Weights(before) + [Weight(o)];
      assert Weights(after)[..|Weights(after)| - 1] == Weights(before);
    } else {
      assert Weights(after) == Weights(before);
    }
  }

  lemma NothingCollected()
    ensures Weights([]) == Baselines([]) == WeightedRewards([]) == [] && CausalCount([]) == 0
    ensures Sum(Weights([])) == 0.0 == SumOfSquares(Weights([]))
  {
  }

  /** The filtering loop. */
  method Collect(outcomes: seq<LoggedPolicyOutcome>)
    returns (weightedRewards: seq<real>, baselineRewards: seq<real>, sumWeights: real, sumSquaredWeights: real,
             causalObserved: int, invalidPropensity: bool)
    ensures weightedRewards == WeightedRewards(outcomes) && baselineRewards == Baselines(outcomes)
    ensures sumWeights == Sum(Weights(outcomes)) && sumSquaredWeights == SumOfSquares(Weights(outcomes))
    ensures causalObserved == CausalCount(outcomes)
    ensures invalidPropensity <==> exists o | o in outcomes :: !ValidPropensity(o)
  {
    hide Times, Sum, SumOfSquares, Weights, Baselines, WeightedRewards, CausalCount;
    NothingCollected();
    assert outcomes[..0] == [];
    weightedRewards, baselineRewards := [], [];
    sumWeights, sumSquaredWeights := 0.0, 0.0;
    causalObserved, invalidPropensity := 0, false;
    for i := 0 to |outcomes|
      invariant weightedRewards == WeightedRewards(outcomes[..i])
      invariant baselineRewards == Baselines(outcomes[..i])
      invariant sumWeights == Sum(Weights(outcomes[..i]))
      invariant sumSquaredWeights == SumOfSquares(Weights(outcomes[..i]))
      invariant causalObserved == CausalCount(outcomes[..i])
      invariant invalidPropensity <==> exists o | o in outcomes[..i] :: !ValidPropensity(o)
    {
      var outcome := outcomes[i];
      PrefixStep(outcomes, i);
      assert outcomes[..i + 1] == outcomes[..i] + [outcome];
      if !(outcome.loggingPropensity > 0.0 && outcome.loggingPropensity <= 1.0) {
        invalidPropensity := true;
        continue;
      }
      baselineRewards := baselineRewards + [outcome.baselineReward];
      if outcome.loggedAction != outcome.candidatePolicyAction || !outcome.observedOutcome {
        continue;
      }
      var weight := 1.0 / outcome.loggingPropensity;
      weightedRewards := weightedRewards + [Clamp(Times(outcome.reward, weight), -10.0, 10.0)];
      sumWeights := sumWeights + weight;
      sumSquaredWeights := sumSquaredWeights + Times(weight, weight);
      if outcome.causalSupport {
        causalObserved := causalObserved + 1;
      }
    }
    assert outcomes[..|outcomes|] == outcomes;
  }

  method VarianceLoop(values: seq<real>, mean: real) returns (variance: real)
    requires |values| > 0 && mean == Mean(values)
    ensures variance == VarianceOfMean(values) >= 0.0
  {
    hide Times;
    variance := 0.0;
    for i := 0 to |values|
      invariant variance == SquaredDeviations(values[..i], mean)
    {
      assert values[..i + 1][..i] == values[..i];
      variance := variance + Times(values[i] - mean, values[i] - mean);
    }
    assert values[..|values|] == values;
    SquaredDeviationsNonNegative(values, mean);
    if |values| > 1 {
      variance := variance / (|values| - 1) as real;
    }
    variance := variance / |values| as real;
  }

  method Evaluate(outcomes: seq<LoggedPolicyOutcome>, minimumMatchedSamples: int, confidenceZ: real,
                  root: real -> real)
    returns (result: OfflineEvaluationResult)
    requires IsRoot(root)
    ensures result.totalSamples == |outcomes| && result.matchedSamples == |WeightedRewards(outcomes)|
    ensures result.baselineReward == Mean(Baselines(outcomes))
    ensures result.promotionEligible <==> Promotable(outcomes, minimumMatchedSamples, confidenceZ, root)
    ensures result.matchedSamples > 0 ==>
        && 1.0 <= result.effectiveSampleSize <= result.matchedSamples as real
        && result.effectiveSampleSize == EffectiveSampleSize(Weights(outcomes))
        && result.lowerConfidenceBenefit
           == Mean(WeightedRewards(outcomes)) - Mean(Baselines(outcomes)) - Times(confidenceZ, result.standardError)
        && (result.overlapAdequate <==>
              (forall o | o in outcomes :: ValidPropensity(o))
              && result.effectiveSampleSize >= minimumMatchedSamples as real)
        && (result.causalEvidenceAdequate <==> forall o | o in outcomes && Matched(o) :: o.causalSupport)
        && result.estimatedPolicyReward == Mean(WeightedRewards(outcomes))
        && result.standardError >= 0.0
        && Times(result.standardError, result.standardError) == VarianceOfMean(WeightedRewards(outcomes))
        && (result.overlapAdequate ==> minimumMatchedSamples <= result.matchedSamples)
        && (result.sufficientEvidence <==> result.overlapAdequate && result.causalEvidenceAdequate)
    ensures result.reason == NoObservedActionsMatched <==>
        result.matchedSamples == 0 && forall o | o in outcomes :: ValidPropensity(o)
    ensures result.reason != NotEvaluated && result.reason != InsufficientMatchedSamples
    ensures result.reason == InvalidPropensity <==> exists o | o in outcomes :: !ValidPropensity(o)
    ensures result.reason == BeatsBaseline <==> result.promotionEligible
    ensures result.reason == InsufficientOverlap <==>
        && result.matchedSamples > 0 && (forall o | o in outcomes :: 0.0 < o.loggingPropensity <= 1.0)
        && result.effectiveSampleSize < minimumMatchedSamples as real
    ensures result.reason == CausalChecksumMissing <==>
        && result.matchedSamples > 0 && (forall o | o in outcomes :: 0.0 < o.loggingPropensity <= 1.0)
        && result.effectiveSampleSize >= minimumMatchedSamples as real
        && exists o | o in outcomes :: IsUsed(o) && !o.causalSupport
    ensures result.reason == DoesNotBeatBaseline <==>
        result.sufficientEvidence && result.lowerConfidenceBenefit <= 0.0
  {
    hide Times, Sum, SumOfSquares, Mean, VarianceOfMean;
    var weightedRewards, baselineRewards, sumWeights, sumSquaredWeights, causalObserved, invalidPropensity :=
      Collect(outcomes);
    MatchedFacts(outcomes);
    var matched := |weightedRewards|;
    var baseline := Average(baselineRewards);
    result := OfflineEvaluationResult(|outcomes|, matched, 0.0, baseline, 0.0, 0.0, 0.0, false, false, false, false,
                                      NotEvaluated);
    if matched == 0 {
      result := result.(reason := if invalidPropensity then InvalidPropensity else NoObservedActionsMatched);
      return;
    }
    EffectiveSampleSizeBounds(Weights(outcomes));
    var estimate := Average(weightedRewards);
    var variance := VarianceLoop(weightedRewards, estimate);
    var standardError := root(variance);
    assert Times(standardError, standardError) == variance by {
      TimesIsProduct(standardError, standardError);
    }
    var benefit := estimate - baseline - Times(confidenceZ, standardError);
    var effective :=
      if sumSquaredWeights > 0.0 then Times(sumWeights, sumWeights) / sumSquaredWeights else 0.0;
    var overlap := !invalidPropensity && effective >= minimumMatchedSamples as real;
    var causal := causalObserved == matched;
    var sufficient := matched >= minimumMatchedSamples && overlap && causal;
    var eligible := sufficient && benefit > 0.0;
    result := OfflineEvaluationResult(
      |outcomes|, matched, estimate, baseline, standardError, benefit, effective, overlap, causal, sufficient, eligible,
      if invalidPropensity then InvalidPropensity
      else if !overlap then InsufficientOverlap
      else if !causal then CausalChecksumMissing
      else if !sufficient then InsufficientMatchedSamples
      else if eligible then BeatsBaseline
      else DoesNotBeatBaseline);
  }
}
