/** Episode-level evaluation: the tie-aware rank-sum AUROC against its pairwise meaning. */
module EvaluationMetrics {
  import opened RealArithmetic
  import opened Sequences

  datatype Scored = Scored(probability: real, truth: int)

  predicate Binary(s: seq<Scored>) {
    forall i | 0 <= i < |s| :: s[i].truth == 0 || s[i].truth == 1
  }

  /** The lexicographic order in which Python sorts (probability, label) pairs. */
  predicate Before(a: Scored, b: Scored) {
    a.probability < b.probability || (a.probability == b.probability && a.truth <= b.truth)
  }

  function Zip(labels: seq<int>, probabilities: seq<real>): (s: seq<Scored>)
    requires |labels| == |probabilities|
    ensures |s| == |labels|
  {
    seq(|labels|, i requires 0 <= i < |labels| => Scored(probabilities[i], labels[i]))
  }

  // ----- the pairwise meaning -----

  /** One for a pair in the right order, a half for a tie. */
  function Win(e: Scored, other: Scored): real {
    if other.probability < e.probability then 1.0 else if other.probability == e.probability then 0.5 else 0.0
  }

  function WinsOver(e: Scored, s: seq<Scored>, truth: int): real {
    SumOf((other: Scored) => if other.truth == truth then Win(e, other) else 0.0, s)
  }

  /** Wins of the positive entries of `t` over the entries of `s` with the given label. */
  function PairWins(t: seq<Scored>, s: seq<Scored>, truth: int): real {
    SumOf((e: Scored) => if e.truth == 1 then WinsOver(e, s, truth) else 0.0, t)
  }

  function Positives(s: seq<Scored>): nat {
    Count((e: Scored) => e.truth == 1, s)
  }

  /** The probability that a positive outranks a negative, ties counting half. */
  function PairwiseAuroc(s: seq<Scored>): real
    requires 0 < Positives(s) < |s|
  {
    PairWins(s, s, 0) / (Positives(s) * (|s| - Positives(s))) as real
  }

  lemma {:induction false} PairWinsPermutes(a: seq<Scored>, b: seq<Scored>, truth: int)
    requires multiset(a) == multiset(b)
    ensures PairWins(a, a, truth) == PairWins(b, b, truth)
  {
    var f := (e: Scored) => if e.truth == 1 then WinsOver(e, a, truth) else 0.0;
    var g := (e: Scored) => if e.truth == 1 then WinsOver(e, b, truth) else 0.0;
    forall e: Scored
      ensures f(e) == g(e)
    {
      SumPermutes((other: Scored) => if other.truth == truth then Win(e, other) else 0.0, a, b);
    }
    SumPermutes(f, a, b);
    SumAgrees(f, g, b);
  }

  /** Among the positives, every pair is won once in total: half of the square of their number. */
  lemma {:induction false} PositivePairs(s: seq<Scored>)
    ensures PairWins(s, s, 1) == Positives(s) as real * Positives(s) as real / 2.0
  {
    if |s| > 0 {
      var x, rest := s[0], s[1..];
      PositivePairs(rest);
      assert s == [x] + rest;
      FirstEntry(x, rest);
    }
  }

  lemma {:induction false} FirstEntry(x: Scored, rest: seq<Scored>)
    ensures PairWins([x] + rest, [x] + rest, 1) ==
            PairWins(rest, rest, 1) + if x.truth == 1 then Positives(rest) as real + 0.5 else 0.0
  {
    var s := [x] + rest;
    var f := (e: Scored) => if e.truth == 1 then WinsOver(e, s, 1) else 0.0;
    var g := (e: Scored) => if e.truth == 1 then WinsOver(e, rest, 1) else 0.0;
    var h := (e: Scored) => if e.truth == 1 && x.truth == 1 then Win(e, x) else 0.0;
    assert s[1..] == rest;
    forall e: Scored
      ensures f(e) == g(e) + h(e)
    {
    }
    SumAdds(g, h, f, rest);
    if x.truth == 1 {
      var w := (other: Scored) => if other.truth == 1 then Win(x, other) else 0.0;
      var one := (other: Scored) => if other.truth == 1 then 1.0 else 0.0;
      SumAdds(h, w, one, rest);
      CountIsSum(rest);
    } else {
      SumConstant(h, 0.0, rest);
    }
  }

  lemma {:induction false} CountIsSum(s: seq<Scored>)
    ensures SumOf((e: Scored) => if e.truth == 1 then 1.0 else 0.0, s) == Positives(s) as real
  {
    if |s| > 0 {
      CountIsSum(s[1..]);
    }
  }

  // ----- the rank sum -----

  /** The average rank of `e`: one more than the entries below it and half of the other ties. */
  function Rank(e: Scored, s: seq<Scored>): real {
    SumOf((other: Scored) => Win(e, other), s) + 0.5
  }

  function RankSum(t: seq<Scored>, s: seq<Scored>): real {
    SumOf((e: Scored) => if e.truth == 1 then Rank(e, s) else 0.0, t)
  }

  lemma {:induction false} RankSplits(e: Scored, s: seq<Scored>)
    requires Binary(s)
    ensures Rank(e, s) == WinsOver(e, s, 0) + WinsOver(e, s, 1) + 0.5
  {
    var f := (other: Scored) => if other.truth == 0 then Win(e, other) else 0.0;
    var g := (other: Scored) => if other.truth == 1 then Win(e, other) else 0.0;
    SumAdds(f, g, (other: Scored) => Win(e, other), s);
  }

  lemma {:induction false} RankSumMeaning(s: seq<Scored>)
    requires Binary(s)
    ensures RankSum(s, s) == PairWins(s, s, 0) + Positives(s) as real * (Positives(s) as real + 1.0) / 2.0
  {
    var f := (e: Scored) => if e.truth == 1 then WinsOver(e, s, 0) else 0.0;
    var g := (e: Scored) => if e.truth == 1 then WinsOver(e, s, 1) else 0.0;
    var half := (e: Scored) => if e.truth == 1 then 0.5 else 0.0;
    var gHalf := (e: Scored) => g(e) + half(e);
    var r := (e: Scored) => if e.truth == 1 then Rank(e, s) else 0.0;
    forall i | 0 <= i < |s|
      ensures r(s[i]) == f(s[i]) + gHalf(s[i])
    {
      RankSplits(s[i], s);
    }
    SumAdds(f, gHalf, r, s);
    SumAdds(g, half, gHalf, s);
    HalfPerPositive(s);
    PositivePairs(s);
  }

  lemma {:induction false} HalfPerPositive(s: seq<Scored>)
    ensures SumOf((e: Scored) => if e.truth == 1 then 0.5 else 0.0, s) == Positives(s) as real / 2.0
  {
    if |s| > 0 {
      HalfPerPositive(s[1..]);
    }
  }

  /** The entries `low..high` of a ranking are all those with one probability. */
  ghost predicate TieGroup(ranked: seq<Scored>, low: nat, high: nat) {
    && low < high <= |ranked|
    && (forall i | low <= i < high :: ranked[i].probability == ranked[low].probability)
    && (low > 0 ==> ranked[low - 1].probability < ranked[low].probability)
    && (high < |ranked| ==> ranked[high].probability != ranked[low].probability)
  }

  /** Every entry of a maximal tie group `low..high` of the ranking has the same average rank. */
  lemma {:induction false} GroupRank(ranked: seq<Scored>, low: nat, high: nat, k: nat)
    requires SortedBy(ranked, Before) && TieGroup(ranked, low, high) && low <= k < high
    ensures Rank(ranked[k], ranked) == (low + 1 + high) as real / 2.0
  {
    hide SumOf;
    var win := (other: Scored) => Win(ranked[k], other);
    forall i | 0 <= i < |ranked|
      ensures win(ranked[i]) == if i < low then 1.0 else if i < high then 0.5 else 0.0
    {
      if i < low {
        assert i < low - 1 ==> Before(ranked[i], ranked[low - 1]);
      } else if i >= high {
        assert Before(ranked[low], ranked[high]) && (i > high ==> Before(ranked[high], ranked[i]));
      }
    }
    SumConstant(win, 1.0, ranked[..low]);
    SumConstant(win, 0.5, ranked[low..high]);
    SumConstant(win, 0.0, ranked[high..]);
    SumSplits(win, ranked, low, high);
  }

  lemma {:induction false} GroupRankSum(ranked: seq<Scored>, low: nat, high: nat)
    requires SortedBy(ranked, Before) && TieGroup(ranked, low, high)
    ensures RankSum(ranked[..high], ranked) ==
            RankSum(ranked[..low], ranked) +
            Times((low + 1 + high) as real / 2.0, Positives(ranked[low..high]) as real)
  {
    hide Times, SortedBy, Before, Rank, SumOf, Count;
    var r := (e: Scored) => if e.truth == 1 then Rank(e, ranked) else 0.0;
    var average := (low + 1 + high) as real / 2.0;
    forall k | low <= k < high
      ensures Rank(ranked[k], ranked) == average
    {
      GroupRank(ranked, low, high, k);
    }
    assert ranked[..high] == ranked[..low] + ranked[low..high];
    SumAppends(r, ranked[..low], ranked[low..high]);
    EqualRanks(r, average, ranked[low..high]);
  }

  lemma {:induction false} EqualRanks(r: Scored -> real, average: real, s: seq<Scored>)
    requires forall i | 0 <= i < |s| :: r(s[i]) == if s[i].truth == 1 then average else 0.0
    ensures SumOf(r, s) == Times(average, Positives(s) as real)
  {
    hide Times;
    if |s| == 0 {
      TimesUnits(average);
    } else {
      EqualRanks(r, average, s[1..]);
      TimesAdd(average, Positives(s[1..]) as real, 1.0);
      TimesCommutes(average, 1.0);
      TimesUnits(average);
    }
  }

  // ----- the implementation -----

  method SumLabels(s: seq<Scored>) returns (total: int)
    requires Binary(s)
    ensures total == Positives(s)
  {
    total := 0;
    for i := 0 to |s|
      invariant total == Positives(s[..i])
    {
      assert s[..i + 1] == s[..i] + [s[i]];
      CountAppends((e: Scored) => e.truth == 1, s[..i], [s[i]]);
      total := total + s[i].truth;
    }
    assert s[..|s|] == s;
  }

  lemma {:induction false} SortedIsBinary(s: seq<Scored>, ranked: seq<Scored>)
    requires Binary(s) && multiset(ranked) == multiset(s)
    ensures Binary(ranked)
  {
    forall i | 0 <= i < |ranked|
      ensures ranked[i].truth == 0 || ranked[i].truth == 1
    {
      assert ranked[i] in multiset(ranked);
      assert ranked[i] in s;
    }
  }

  /** The loop over the tie groups of the ranking. */
  method SumRanks(ranked: seq<Scored>) returns (rankSum: real)
    requires Binary(ranked) && SortedBy(ranked, Before)
    ensures rankSum == RankSum(ranked, ranked)
  {
    hide Times, Rank, SumOf, Count;
    rankSum := 0.0;
    assert RankSum(ranked[..0], ranked) == 0.0 by {
      SumConstant((e: Scored) => if e.truth == 1 then Rank(e, ranked) else 0.0, 0.0, ranked[..0]);
    }
    var index := 0;
    while index < |ranked|
      invariant 0 <= index <= |ranked|
      invariant 0 < index < |ranked| ==> ranked[index - 1].probability < ranked[index].probability
      invariant rankSum == RankSum(ranked[..index], ranked)
    {
      var end := index + 1;
      while end < |ranked| && ranked[end].probability == ranked[index].probability
        invariant index < end <= |ranked|
        invariant forall i | index <= i < end :: ranked[i].probability == ranked[index].probability
      {
        end := end + 1;
      }
      var averageRank := (index + 1 + end) as real / 2.0;
      var groupPositives := SumLabels(ranked[index..end]);
      GroupRankSum(ranked, index, end);
      rankSum := rankSum + Times(averageRank, groupPositives as real);
      if end < |ranked| {
        assert Before(ranked[end - 1], ranked[end]);
      }
      index := end;
    }
    assert ranked[..|ranked|] == ranked;
  }

  method Auroc(labels: seq<int>, probabilities: seq<real>) returns (area: real)
    requires |labels| == |probabilities|
    requires forall i | 0 <= i < |labels| :: labels[i] == 0 || labels[i] == 1
    ensures var s := Zip(labels, probabilities);
            area == if 0 < Positives(s) < |s| then PairwiseAuroc(s) else 0.0
  {
    hide SumOf, Count, Sort, SortedBy;
    var zipped := Zip(labels, probabilities);
    var positives := SumLabels(zipped);
    var negatives := |labels| - positives;
    if positives == 0 || negatives == 0 {
      return 0.0;
    }
    var ranked := Sort(zipped, Before);
    SortSorts(zipped, Before);
    SortPermutes(zipped, Before);
    SortedIsBinary(zipped, ranked);
    var rankSum := SumRanks(ranked);
    RankSumMeaning(ranked);
    PairWinsPermutes(ranked, zipped, 0);
    CountPermutes((e: Scored) => e.truth == 1, ranked, zipped);
    area := (rankSum - positives as real * (positives as real + 1.0) / 2.0) / (positives * negatives) as real;
  }
}
