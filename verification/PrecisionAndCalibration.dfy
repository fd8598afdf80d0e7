/** Two further measures of the evaluation: average precision, and the calibration error over buckets. */
module PrecisionAndCalibration {
  import opened RealArithmetic
  import opened Sequences
  import opened EvaluationMetrics

  // ----- average precision -----

  /** The order of the ranking: decreasing by probability, positives first among ties. */
  predicate Ahead(a: Scored, b: Scored) {
    Before(b, a)
  }

  function PositivesIn(ranked: seq<Scored>, k: nat): nat
    requires k <= |ranked|
  {
    Positives(ranked[..k])
  }

  function Precision(ranked: seq<Scored>, k: nat): real
    requires 0 < k <= |ranked|
  {
    Share(PositivesIn(ranked, k) as real, k as real)
  }

  /** The precisions at the ranks of the positives among the first `k`, added up. */
  function PrecisionSum(ranked: seq<Scored>, k: nat): real
    requires k <= |ranked|
  {
    if k == 0 then 0.0
    else PrecisionSum(ranked, k - 1) + if ranked[k - 1].truth == 1 then Precision(ranked, k) else 0.0
  }

  ghost predicate PositivesFirst(ranked: seq<Scored>, k: nat)
    requires k <= |ranked|
  {
    forall i, j | 0 <= i < j < k && ranked[j].truth == 1 :: ranked[i].truth == 1
  }

  lemma {:induction false} PositivesStep(ranked: seq<Scored>, k: nat)
    requires k < |ranked|
    ensures PositivesIn(ranked, k + 1) == PositivesIn(ranked, k) + if ranked[k].truth == 1 then 1 else 0
    ensures PositivesIn(ranked, 0) == 0
  {
    assert ranked[..k + 1] == ranked[..k] + [ranked[k]];
    CountAppends((e: Scored) => e.truth == 1, ranked[..k], [ranked[k]]);
  }

  /** A prefix holds as many positives as entries exactly when all its entries are positive. */
  lemma {:induction false} AllPositive(ranked: seq<Scored>, k: nat)
    requires k <= |ranked|
    ensures PositivesIn(ranked, k) <= k
    ensures PositivesIn(ranked, k) == k <==> forall i | 0 <= i < k :: ranked[i].truth == 1
  {
    hide Count;
    if k > 0 {
      PositivesStep(ranked, k - 1);
      AllPositive(ranked, k - 1);
    }
  }

  lemma {:induction false} PrecisionBound(ranked: seq<Scored>, k: nat)
    requires 0 < k <= |ranked|
    ensures 0.0 <= Precision(ranked, k) <= 1.0
    ensures Precision(ranked, k) == 1.0 <==> forall i | 0 <= i < k :: ranked[i].truth == 1
  {
    hide Count, Share;
    AllPositive(ranked, k);
    ShareBound(PositivesIn(ranked, k) as real, k as real);
  }

  /** A quotient, under a name that proofs can treat as opaque. */
  function Share(x: real, y: real): real
    requires y > 0.0
  {
    x / y
  }

  lemma ShareTimes(x: real, y: real)
    requires y > 0.0
    ensures Times(Share(x, y), y) == x && Times(Share(x, y) - 1.0, y) == x - y
  {
  }

  lemma ShareBound(x: real, y: real)
    requires 0.0 <= x <= y && y > 0.0
    ensures 0.0 <= Share(x, y) <= 1.0 && (Share(x, y) == 1.0 <==> x == y)
  {
    hide Times, Share;
    ShareTimes(x, y);
    if Share(x, y) > 1.0 {
      TimesSign(Share(x, y) - 1.0, y);
    }
    if Share(x, y) < 0.0 {
      TimesSign(-Share(x, y), y);
      TimesNegated(Share(x, y), y);
    }
    TimesUnits(y);
    EqualShare(y);
  }

  lemma TimesNegated(x: real, y: real)
    ensures Times(-x, y) == -Times(x, y)
  {
  }

  lemma EqualShare(y: real)
    requires y > 0.0
    ensures Share(y, y) == 1.0
  {
  }

  /** Every positive contributes at most one, and all of them do exactly when no negative precedes a positive. */
  lemma {:induction false} PrecisionSumBound(ranked: seq<Scored>, k: nat)
    requires k <= |ranked|
    ensures 0.0 <= PrecisionSum(ranked, k) <= PositivesIn(ranked, k) as real
    ensures PrecisionSum(ranked, k) == PositivesIn(ranked, k) as real <==> PositivesFirst(ranked, k)
  {
    hide Count, Precision;
    if k > 0 {
      PrecisionSumBound(ranked, k - 1);
      PositivesStep(ranked, k - 1);
      PrecisionBound(ranked, k);
      if PositivesFirst(ranked, k) {
        assert PositivesFirst(ranked, k - 1);
        assert ranked[k - 1].truth == 1 ==> forall i | 0 <= i < k :: ranked[i].truth == 1;
      }
      if PositivesFirst(ranked, k - 1) && (ranked[k - 1].truth == 1 ==> forall i | 0 <= i < k :: ranked[i].truth == 1) {
        assert PositivesFirst(ranked, k);
      }
    }
  }

  /** No negative is given a higher probability than a positive; ties are allowed. */
  ghost predicate Separated(s: seq<Scored>) {
    forall e, other | e in s && other in s && e.truth == 1 && other.truth == 0 :: other.probability <= e.probability
  }

  lemma {:induction false} SeparationInRanking(s: seq<Scored>, ranked: seq<Scored>)
    requires Binary(s) && multiset(ranked) == multiset(s) && SortedBy(ranked, Ahead)
    ensures PositivesFirst(ranked, |ranked|) <==> Separated(s)
  {
    hide Ahead, SortedBy;
    SortedIsBinary(s, ranked);
    SameElements(s, ranked);
    if Separated(s) {
      forall i, j | 0 <= i < j < |ranked| && ranked[j].truth == 1
        ensures ranked[i].truth == 1
      {
        InOrder(ranked, i, j);
        assert ranked[i] in s && ranked[j] in s;
      }
    }
    if PositivesFirst(ranked, |ranked|) {
      forall e, other | e in s && other in s && e.truth == 1 && other.truth == 0
        ensures other.probability <= e.probability
      {
        var j :| 0 <= j < |ranked| && ranked[j] == e;
        var i :| 0 <= i < |ranked| && ranked[i] == other;
        InOrder(ranked, j, i);
      }
    }
  }

  lemma {:induction false} SameElements(s: seq<Scored>, t: seq<Scored>)
    requires multiset(t) == multiset(s)
    ensures forall e :: e in s <==> e in t
  {
    forall e: Scored
      ensures e in s <==> e in t
    {
      assert e in s <==> e in multiset(s);
      assert e in t <==> e in multiset(t);
    }
  }

  /** What the order of the ranking says about two entries, an earlier and a later one. */
  lemma {:induction false} InOrder(ranked: seq<Scored>, i: nat, j: nat)
    requires SortedBy(ranked, Ahead) && i < |ranked| && j < |ranked|
    ensures i < j ==> ranked[j].probability <= ranked[i].probability
    ensures i < j && ranked[i].probability == ranked[j].probability ==> ranked[j].truth <= ranked[i].truth
  {
    assert i < j ==> Ahead(ranked[i], ranked[j]);
  }

  lemma AreaStep(area: real, sum: real, precision: real, positives: real, before: real, after: real)
    requires positives > 0.0 && area == Share(sum, positives) && (after == before || after == before + 1.0)
    ensures area + Times(precision, Share(after, positives) - Share(before, positives))
            == Share(sum + if after == before then 0.0 else precision, positives)
  {
    if after != before {
      assert Share(after, positives) - Share(before, positives) == 1.0 / positives;
      assert precision * (1.0 / positives) == precision / positives;
    }
  }

  /** The loop over the ranking: precision weighted by the growth of recall. */
  method AreaUnderCurve(ordered: seq<Scored>, positives: nat) returns (area: real)
    requires Binary(ordered) && positives > 0
    ensures area == Share(PrecisionSum(ordered, |ordered|), positives as real)
  {
    hide Count, Share, Times;
    var truePositive, previousRecall := 0, Share(0.0, positives as real);
    area := 0.0;
    NothingYet(ordered, positives);
    for index := 0 to |ordered|
      invariant truePositive == PositivesIn(ordered, index)
      invariant previousRecall == Share(truePositive as real, positives as real)
      invariant area == Share(PrecisionSum(ordered, index), positives as real)
    {
      PositivesStep(ordered, index);
      ghost var before := truePositive;
      truePositive := truePositive + ordered[index].truth;
      var recall := Share(truePositive as real, positives as real);
      var precision := Share(truePositive as real, (index + 1) as real);
      AreaStep(area, PrecisionSum(ordered, index), precision, positives as real, before as real, truePositive as real);
      area := area + Times(precision, recall - previousRecall);
      previousRecall := recall;
    }
  }

  lemma {:induction false} NothingYet(ranked: seq<Scored>, positives: nat)
    requires positives > 0
    ensures PositivesIn(ranked, 0) == 0 && Share(0.0, positives as real) == 0.0
  {
  }

  /**
   * Average precision: the mean precision at the ranks of the positives. It is one exactly when no
   * negative outscores a positive, so a tie between the classes costs nothing.
   */
  method Auprc(labels: seq<int>, probabilities: seq<real>) returns (area: real)
    requires |labels| == |probabilities|
    requires forall i | 0 <= i < |labels| :: labels[i] == 0 || labels[i] == 1
    ensures var s := Zip(labels, probabilities);
            var ranked := Sort(s, Ahead);
            area == if Positives(s) == 0 then 0.0 else Share(PrecisionSum(ranked, |ranked|), Positives(s) as real)
    ensures 0.0 <= area <= 1.0
    ensures var s := Zip(labels, probabilities);
            Positives(s) > 0 ==> (area == 1.0 <==> Separated(s))
  {
    hide SumOf, Count, Sort, SortedBy, Precision, Separated, Share, PositivesFirst;
    var zipped := Zip(labels, probabilities);
    var positives := SumLabels(zipped);
    if positives == 0 {
      return 0.0;
    }
    var ordered := Sort(zipped, Ahead);
    SortSorts(zipped, Ahead);
    SortPermutes(zipped, Ahead);
    SortedIsBinary(zipped, ordered);
    area := AreaUnderCurve(ordered, positives);
    PrecisionSumBound(ordered, |ordered|);
    SeparationInRanking(zipped, ordered);
    assert ordered[..|ordered|] == ordered;
    CountPermutes((e: Scored) => e.truth == 1, ordered, zipped);
    ShareBound(PrecisionSum(ordered, |ordered|), positives as real);
  }

  // ----- the same question for the rank sum -----

  /** Every positive is given a strictly higher probability than every negative. */
  ghost predicate StrictlySeparated(t: seq<Scored>, s: seq<Scored>) {
    forall e, other | e in t && other in s && e.truth == 1 && other.truth == 0 :: other.probability < e.probability
  }

  function Negatives(s: seq<Scored>): nat {
    Count((e: Scored) => e.truth == 0, s)
  }

  lemma {:induction false} WinsBound(e: Scored, s: seq<Scored>)
    ensures 0.0 <= WinsOver(e, s, 0) <= Negatives(s) as real
    ensures WinsOver(e, s, 0) == Negatives(s) as real <==>
            forall other | other in s && other.truth == 0 :: other.probability < e.probability
  {
    if |s| > 0 {
      WinsBound(e, s[1..]);
      assert s == [s[0]] + s[1..];
    }
  }

  lemma {:induction false} PairWinsBound(t: seq<Scored>, s: seq<Scored>)
    ensures 0.0 <= PairWins(t, s, 0) <= Times(Positives(t) as real, Negatives(s) as real)
    ensures PairWins(t, s, 0) == Times(Positives(t) as real, Negatives(s) as real) <==> StrictlySeparated(t, s)
  {
    hide Times, WinsOver, Negatives;
    if |t| == 0 {
      TimesUnits(Negatives(s) as real);
    } else {
      PairWinsBound(t[1..], s);
      WinsBound(t[0], s);
      TimesCount(Positives(t[1..]) as real, Negatives(s) as real);
      SeparationSplits(t, s);
    }
  }

  lemma {:induction false} SeparationSplits(t: seq<Scored>, s: seq<Scored>)
    requires |t| > 0
    ensures StrictlySeparated(t, s) <==>
            && StrictlySeparated(t[1..], s)
            && (t[0].truth == 1 ==> forall other | other in s && other.truth == 0 ::
                other.probability < t[0].probability)
  {
    assert t == [t[0]] + t[1..];
    assert forall e :: e in t <==> e == t[0] || e in t[1..];
  }

  lemma {:induction false} BinaryCounts(s: seq<Scored>)
    requires Binary(s)
    ensures Positives(s) + Negatives(s) == |s|
  {
    if |s| > 0 {
      BinaryCounts(s[1..]);
    }
  }

  /** The area under the ROC curve is one exactly when no negative ties with or outscores a positive. */
  lemma {:induction false} PerfectAuroc(s: seq<Scored>)
    requires Binary(s) && 0 < Positives(s) < |s|
    ensures 0.0 <= PairwiseAuroc(s) <= 1.0
    ensures PairwiseAuroc(s) == 1.0 <==> StrictlySeparated(s, s)
  {
    hide Times, Share, PairWins, StrictlySeparated, Count;
    BinaryCounts(s);
    PairWinsBound(s, s);
    var pairs := Positives(s) * (|s| - Positives(s));
    ProductOfCounts(Positives(s), |s| - Positives(s));
    TimesSign(Positives(s) as real, Negatives(s) as real);
    ShareBound(PairWins(s, s, 0), pairs as real);
    AurocIsShare(s);
  }

  lemma {:induction false} AurocIsShare(s: seq<Scored>)
    requires 0 < Positives(s) < |s| && (Positives(s) * (|s| - Positives(s))) as real > 0.0
    ensures PairwiseAuroc(s) == Share(PairWins(s, s, 0), (Positives(s) * (|s| - Positives(s))) as real)
  {
    hide PairWins, Count;
  }

  lemma ProductOfCounts(m: nat, n: nat)
    ensures (m * n) as real == Times(m as real, n as real)
  {
  }

  // ----- calibration -----

  /** The bucket of a probability: its share of the unit interval, the last one closed at the top. */
  function Bucket(probability: real, bins: nat): nat
    requires bins > 0 && 0.0 <= probability
  {
    var bucket := (probability * bins as real).Floor;
    if bins - 1 < bucket then bins - 1 else bucket
  }

  /** Bucket `b` of `bins` holds the probabilities from `b / bins` to the next boundary, the last one to the top. */
  lemma BucketMeans(probability: real, bins: nat)
    requires bins > 0 && 0.0 <= probability <= 1.0
    ensures var b := Bucket(probability, bins);
            && b < bins && b as real <= probability * bins as real
            && (b < bins - 1 ==> probability * bins as real < (b + 1) as real)
  {
    assert probability * bins as real >= 0.0;
  }

  ghost predicate Probabilities(s: seq<Scored>) {
    forall i | 0 <= i < |s| :: 0.0 <= s[i].probability <= 1.0
  }

  /** What a bucket has gathered. */
  datatype Tally = Tally(count: nat, probability: real, outcome: real)

  function Tallied(s: seq<Scored>, b: nat, bins: nat): Tally
    requires bins > 0 && Probabilities(s)
  {
    if |s| == 0 then Tally(0, 0.0, 0.0)
    else
      var before, last := Tallied(s[..|s| - 1], b, bins), s[|s| - 1];
      if Bucket(last.probability, bins) == b
      then Tally(before.count + 1, before.probability + last.probability, before.outcome + last.truth as real)
      else before
  }

  function Gap(t: Tally): real {
    if t.count == 0 then 0.0 else Share(Abs(t.probability - t.outcome), t.count as real)
  }

  /** The imbalances of the first `k` buckets, added up. */
  function Imbalance(s: seq<Scored>, k: nat, bins: nat): real
    requires bins > 0 && Probabilities(s)
  {
    if k == 0 then 0.0
    else
      var t := Tallied(s, k - 1, bins);
      Imbalance(s, k - 1, bins) + Abs(t.probability - t.outcome)
  }

  function LargestGap(s: seq<Scored>, k: nat, bins: nat): real
    requires bins > 0 && Probabilities(s)
  {
    if k == 0 then 0.0 else Max(LargestGap(s, k - 1, bins), Gap(Tallied(s, k - 1, bins)))
  }

  /** All that the first `k` buckets have gathered. */
  function Gathered(s: seq<Scored>, k: nat, bins: nat): Tally
    requires bins > 0 && Probabilities(s)
  {
    if k == 0 then Tally(0, 0.0, 0.0)
    else
      var before, t := Gathered(s, k - 1, bins), Tallied(s, k - 1, bins);
      Tally(before.count + t.count, before.probability + t.probability, before.outcome + t.outcome)
  }

  function TotalProbability(s: seq<Scored>): real {
    SumOf((e: Scored) => e.probability, s)
  }

  function TotalTruth(s: seq<Scored>): real {
    SumOf((e: Scored) => e.truth as real, s)
  }

  /** Each entry is in exactly one bucket: the first `k` gather those whose bucket is below `k`. */
  lemma {:induction false} GatheredStep(s: seq<Scored>, k: nat, bins: nat)
    requires bins > 0 && Probabilities(s) && |s| > 0
    ensures var last, before := s[|s| - 1], Gathered(s[..|s| - 1], k, bins);
            Gathered(s, k, bins) ==
              if Bucket(last.probability, bins) < k
              then Tally(before.count + 1, before.probability + last.probability, before.outcome + last.truth as real)
              else before
    decreases k
  {
    hide Bucket;
    if k > 0 {
      GatheredStep(s, k - 1, bins);
    }
  }

  lemma {:induction false} GatheredNothing(k: nat, bins: nat)
    requires bins > 0
    ensures Gathered([], k, bins) == Tally(0, 0.0, 0.0)
  {
    if k > 0 {
      GatheredNothing(k - 1, bins);
    }
  }

  /** Nothing is lost and nothing is counted twice. */
  lemma {:induction false} BucketsPartition(s: seq<Scored>, bins: nat)
    requires bins > 0 && Probabilities(s)
    ensures Gathered(s, bins, bins) == Tally(|s|, TotalProbability(s), TotalTruth(s))
  {
    hide Bucket, Gathered;
    if |s| == 0 {
      assert s == [];
      GatheredNothing(bins, bins);
    } else {
      var n, last := |s| - 1, s[|s| - 1];
      GatheredStep(s, bins, bins);
      BucketsPartition(s[..n], bins);
      BucketInRange(last.probability, bins);
      assert s == s[..n] + [last];
      SumAppends((e: Scored) => e.probability, s[..n], [last]);
      SumAppends((e: Scored) => e.truth as real, s[..n], [last]);
    }
  }

  lemma BucketInRange(probability: real, bins: nat)
    requires bins > 0 && 0.0 <= probability
    ensures Bucket(probability, bins) < bins
  {
  }

  /** A bucket's sums of probabilities and of outcomes both lie between zero and its count. */
  lemma {:induction false} TallyBounds(s: seq<Scored>, b: nat, bins: nat)
    requires bins > 0 && Probabilities(s) && Binary(s)
    ensures var t := Tallied(s, b, bins);
            0.0 <= t.probability <= t.count as real && 0.0 <= t.outcome <= t.count as real
  {
    hide Bucket;
    if |s| > 0 {
      TallyBounds(s[..|s| - 1], b, bins);
    }
  }

  lemma {:induction false} GapBounds(s: seq<Scored>, b: nat, bins: nat)
    requires bins > 0 && Probabilities(s) && Binary(s)
    ensures var t := Tallied(s, b, bins);
            0.0 <= Gap(t) <= 1.0 && Times(Gap(t), t.count as real) == Abs(t.probability - t.outcome)
  {
    hide Share, Times, Tallied;
    var t := Tallied(s, b, bins);
    TallyBounds(s, b, bins);
    if t.count > 0 {
      ShareBound(Abs(t.probability - t.outcome), t.count as real);
      ShareTimes(Abs(t.probability - t.outcome), t.count as real);
    } else {
      TimesUnits(0.0);
    }
  }

  /** The triangle inequality and its weighted mean, bucket by bucket. */
  lemma {:induction false} ImbalanceBounds(s: seq<Scored>, k: nat, bins: nat)
    requires bins > 0 && Probabilities(s) && Binary(s)
    ensures var all := Gathered(s, k, bins);
            && Abs(all.probability - all.outcome) <= Imbalance(s, k, bins)
            && Imbalance(s, k, bins) <= Times(LargestGap(s, k, bins), all.count as real)
            && 0.0 <= LargestGap(s, k, bins) <= 1.0
  {
    hide Times, Tallied, Gap;
    if k == 0 {
      TimesUnits(0.0);
    } else {
      ImbalanceBounds(s, k - 1, bins);
      GapBounds(s, k - 1, bins);
      var t, before := Tallied(s, k - 1, bins), Gathered(s, k - 1, bins);
      var top := LargestGap(s, k, bins);
      TimesMonotone(LargestGap(s, k - 1, bins), top, before.count as real);
      TimesMonotone(Gap(t), top, t.count as real);
      TimesAdd(top, before.count as real, t.count as real);
    }
  }

  lemma TimesMonotone(x: real, y: real, z: real)
    requires x <= y && z >= 0.0
    ensures Times(x, z) <= Times(y, z)
  {
    TimesSign(y - x, z);
    assert Times(y - x, z) == Times(y, z) - Times(x, z);
  }

  /** The expected calibration error lies between the overall bias and the largest gap, and that below one. */
  lemma {:induction false} CalibrationBounds(s: seq<Scored>, bins: nat)
    requires bins > 0 && Probabilities(s) && Binary(s) && |s| > 0
    ensures var expected := Share(Imbalance(s, bins, bins), |s| as real);
            && Share(Abs(TotalProbability(s) - TotalTruth(s)), |s| as real) <= expected
            && expected <= LargestGap(s, bins, bins) <= 1.0
  {
    hide Imbalance, LargestGap, Gathered, Tallied, Times, Share;
    ImbalanceBounds(s, bins, bins);
    BucketsPartition(s, bins);
    ShareMonotone(Abs(TotalProbability(s) - TotalTruth(s)), Imbalance(s, bins, bins), |s| as real);
    ShareMonotone(Imbalance(s, bins, bins), Times(LargestGap(s, bins, bins), |s| as real), |s| as real);
    ShareOfTimes(LargestGap(s, bins, bins), |s| as real);
  }

  lemma ShareMonotone(x: real, y: real, z: real)
    requires x <= y && z > 0.0
    ensures Share(x, z) <= Share(y, z)
  {
    hide Share, Times;
    ShareTimes(x, z);
    ShareTimes(y, z);
    if Share(x, z) > Share(y, z) {
      TimesSign(Share(x, z) - Share(y, z), z);
      TimesOfDifference(Share(x, z), Share(y, z), z);
    }
  }

  lemma TimesOfDifference(x: real, y: real, z: real)
    ensures Times(x - y, z) == Times(x, z) - Times(y, z)
  {
  }

  lemma ShareOfTimes(x: real, z: real)
    requires z > 0.0
    ensures Share(Times(x, z), z) == x
  {
  }

  ghost predicate Holds(counts: array<nat>, probabilities: array<real>, outcomes: array<real>, s: seq<Scored>,
                        bins: nat)
    requires bins > 0 && Probabilities(s)
    reads counts, probabilities, outcomes
  {
    && counts.Length == probabilities.Length == outcomes.Length == bins
    && forall b | 0 <= b < bins :: Tally(counts[b], probabilities[b], outcomes[b]) == Tallied(s, b, bins)
  }

  /** The first loop: every entry goes to its bucket, in place. */
  method FillBuckets(s: seq<Scored>, counts: array<nat>, probabilities: array<real>, outcomes: array<real>, bins: nat)
    requires bins > 0 && Probabilities(s)
    requires Holds(counts, probabilities, outcomes, [], bins)
    requires probabilities != outcomes
    modifies counts, probabilities, outcomes
    ensures Holds(counts, probabilities, outcomes, s, bins)
  {
    hide Bucket;
    for i := 0 to |s|
      invariant Holds(counts, probabilities, outcomes, s[..i], bins)
    {
      var e := s[i];
      assert s[..i + 1][..i] == s[..i];
      BucketInRange(e.probability, bins);
      var bucket := Bucket(e.probability, bins);
      counts[bucket] := counts[bucket] + 1;
      probabilities[bucket] := probabilities[bucket] + e.probability;
      outcomes[bucket] := outcomes[bucket] + e.truth as real;
    }
    assert s[..|s|] == s;
  }

  lemma GapIs(t: Tally)
    requires t.count > 0
    ensures var count := t.count as real;
            var gap := Abs(Share(t.probability, count) - Share(t.outcome, count));
            gap == Gap(t) && Times(gap, count) == Abs(t.probability - t.outcome)
  {
    var count := t.count as real;
    assert Share(t.probability, count) - Share(t.outcome, count) == Share(t.probability - t.outcome, count);
    ShareAbs(t.probability - t.outcome, count);
    hide Share, Times;
    ShareTimes(Abs(t.probability - t.outcome), count);
  }

  lemma ShareAbs(x: real, y: real)
    requires y > 0.0
    ensures Abs(Share(x, y)) == Share(Abs(x), y)
  {
    hide Share, Times;
    ShareTimes(x, y);
    ShareTimes(-x, y);
    NegatedShare(x, y);
    if x >= 0.0 {
      ShareMonotone(0.0, x, y);
    } else {
      ShareMonotone(x, 0.0, y);
    }
    NoShare(y);
  }

  lemma NegatedShare(x: real, y: real)
    requires y > 0.0
    ensures Share(-x, y) == -Share(x, y)
  {
  }

  lemma NoShare(y: real)
    requires y > 0.0
    ensures Share(0.0, y) == 0.0
  {
  }

  lemma ShareAdds(x: real, y: real, z: real)
    requires z > 0.0
    ensures Share(x + y, z) == Share(x, z) + Share(y, z)
  {
  }

  /** An empty bucket has nothing to be out of balance. */
  lemma {:induction false} EmptyBucket(s: seq<Scored>, b: nat, bins: nat)
    requires bins > 0 && Probabilities(s) && Binary(s) && Tallied(s, b, bins).count == 0
    ensures Abs(Tallied(s, b, bins).probability - Tallied(s, b, bins).outcome) == 0.0
  {
    hide Tallied;
    TallyBounds(s, b, bins);
  }

  lemma NothingTallied(bins: nat)
    requires bins > 0
    ensures forall b: nat :: Tallied([], b, bins) == Tally(0, 0.0, 0.0)
  {
  }

  lemma {:induction false} CountWithin(s: seq<Scored>, b: nat, bins: nat)
    requires bins > 0 && Probabilities(s)
    ensures Tallied(s, b, bins).count <= |s|
  {
    hide Bucket;
    if |s| > 0 {
      CountWithin(s[..|s| - 1], b, bins);
    }
  }

  /** The second loop: the gaps of the buckets that hold anything, weighted by what they hold. */
  method CombineBuckets(s: seq<Scored>, counts: array<nat>, probabilities: array<real>, outcomes: array<real>,
                        bins: nat)
    returns (expected: real, maximum: real)
    requires bins > 0 && Probabilities(s) && Binary(s) && Holds(counts, probabilities, outcomes, s, bins)
    ensures maximum == LargestGap(s, bins, bins)
    ensures |s| > 0 ==> expected == Share(Imbalance(s, bins, bins), |s| as real)
    ensures |s| == 0 ==> expected == maximum == 0.0
  {
    hide Tallied, Share, Times;
    expected, maximum := 0.0, 0.0;
    if |s| > 0 {
      NoShare(|s| as real);
    }
    for b := 0 to bins
      invariant maximum == LargestGap(s, b, bins)
      invariant |s| > 0 ==> expected == Share(Imbalance(s, b, bins), |s| as real)
      invariant |s| == 0 ==> expected == maximum == 0.0
    {
      ghost var t := Tallied(s, b, bins);
      assert t == Tally(counts[b], probabilities[b], outcomes[b]);
      CountWithin(s, b, bins);
      GapBounds(s, b, bins);
      if counts[b] != 0 {
        var count := counts[b] as real;
        var gap := Abs(Share(probabilities[b], count) - Share(outcomes[b], count));
        GapIs(t);
        ShareAdds(Imbalance(s, b, bins), Abs(t.probability - t.outcome), |s| as real);
        expected := expected + Share(Times(gap, count), |s| as real);
        maximum := Max(maximum, gap);
      } else {
        EmptyBucket(s, b, bins);
        NoGap(s, b, bins);
      }
    }
  }

  lemma {:induction false} NoGap(s: seq<Scored>, k: nat, bins: nat)
    requires bins > 0 && Probabilities(s) && Binary(s)
    ensures LargestGap(s, k, bins) >= 0.0
  {
    hide Tallied, Gap;
    ImbalanceBounds(s, k, bins);
  }

  /** The maximum error is the gap of some bucket that holds predictions, and no such bucket has a larger one. */
  lemma {:induction false} LargestGapMeans(s: seq<Scored>, k: nat, bins: nat)
    requires bins > 0 && Probabilities(s)
    ensures forall b: nat | b < k :: var t := Tallied(s, b, bins);
              t.count == 0 || Times(LargestGap(s, k, bins), t.count as real) >= Abs(t.probability - t.outcome)
    ensures LargestGap(s, k, bins) >= 0.0
    ensures LargestGap(s, k, bins) > 0.0 ==> exists b: nat | b < k :: var t := Tallied(s, b, bins);
              t.count > 0 && Times(LargestGap(s, k, bins), t.count as real) == Abs(t.probability - t.outcome)
  {
    hide Tallied, Times, Share;
    if k > 0 {
      var before, t := LargestGap(s, k - 1, bins), Tallied(s, k - 1, bins);
      LargestGapMeans(s, k - 1, bins);
      GapMeans(t);
      forall b: nat | b < k
        ensures var u := Tallied(s, b, bins);
                Times(LargestGap(s, k, bins), u.count as real) >= Abs(u.probability - u.outcome) || u.count == 0
      {
        var u := Tallied(s, b, bins);
        TimesGrows(before, LargestGap(s, k, bins), u.count as real);
        TimesGrows(Gap(t), LargestGap(s, k, bins), u.count as real);
      }
    }
  }

  lemma GapMeans(t: Tally)
    ensures Gap(t) >= 0.0
    ensures if t.count == 0 then Gap(t) == 0.0 else Times(Gap(t), t.count as real) == Abs(t.probability - t.outcome)
  {
    hide Times, Share;
    if t.count > 0 {
      ShareTimes(Abs(t.probability - t.outcome), t.count as real);
      SignOfShare(Abs(t.probability - t.outcome), t.count as real);
    }
  }

  lemma SignOfShare(x: real, y: real)
    requires x >= 0.0 && y > 0.0
    ensures Share(x, y) >= 0.0
  {
  }

  lemma TimesGrows(x: real, y: real, n: real)
    requires x <= y && n >= 0.0
    ensures Times(x, n) <= Times(y, n)
  {
  }

  /**
   * Calibration error: the mean imbalance over the buckets, and the largest gap of one bucket.
   * The overall bias, the expected and the maximum error come in that order, all of them within one.
   */
  method Calibration(labels: seq<int>, probabilities: seq<real>, bins: nat) returns (expected: real, maximum: real)
    requires |labels| == |probabilities| && bins > 0
    requires forall i | 0 <= i < |labels| :: labels[i] == 0 || labels[i] == 1
    requires forall i | 0 <= i < |labels| :: 0.0 <= probabilities[i] <= 1.0
    ensures var s := Zip(labels, probabilities);
            && maximum == LargestGap(s, bins, bins)
            && (|s| > 0 ==> expected == Share(Imbalance(s, bins, bins), |s| as real))
            && (|s| > 0 ==> Share(Abs(TotalProbability(s) - TotalTruth(s)), |s| as real) <= expected <= maximum <= 1.0)
            && (|s| == 0 ==> expected == maximum == 0.0)
  {
    hide Tallied, SumOf;
    var s := Zip(labels, probabilities);
    var counts := new nat[bins](_ => 0);
    var bucketProbabilities := new real[bins](_ => 0.0);
    var outcomes := new real[bins](_ => 0.0);
    NothingTallied(bins);
    FillBuckets(s, counts, bucketProbabilities, outcomes, bins);
    expected, maximum := CombineBuckets(s, counts, bucketProbabilities, outcomes, bins);
    if |s| > 0 {
      CalibrationBounds(s, bins);
    }
  }
}
