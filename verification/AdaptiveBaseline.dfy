/** The self-learning baseline of a device: exponentially weighted means and variances, and the anomaly score. */
module AdaptiveBaseline {
  import opened RealArithmetic

  datatype Metric = Metric(mean: real, variance: real, samples: nat)

  /** How one metric is watched: which side is risky, and the least spread that it is credited with. */
  datatype Watch = Watch(lowerIsRisk: bool, minStdDev: real)

  datatype Evaluation = Evaluation(mean: real, deviation: real, pressure: real)

  const NEW_METRIC := Metric(0.0, 16.0, 0)

  // ----- the specification of one reading -----

  ghost function Spread(m: Metric, watch: Watch, root: real -> real): real {
    Max(watch.minStdDev, root(Max(0.0, m.variance)))
  }

  function Ratio(x: real, y: real): real
    requires y > 0.0
  {
    x / y
  }

  ghost function Pressure(m: Metric, value: real, watch: Watch, root: real -> real): real {
    Max(0.0, Ratio(if watch.lowerIsRisk then m.mean - value else value - m.mean, Max(1.0, Spread(m, watch, root))))
  }

  ghost function Deviation(m: Metric, value: real, sensitivity: real, watch: Watch, root: real -> real): real {
    if m.samples == 0 then 0.0
    else Clamp(Ratio(Pressure(m, value, watch, root), Max(0.75, sensitivity)) * 35.0, 0.0, 100.0)
  }

  /** The learning rate: slower for an established metric, and slower still for a reading that looks anomalous. */
  function Rate(samples: nat, deviation: real): real {
    if deviation >= 70.0 then 0.006
    else if deviation >= 45.0 then 0.012
    else if samples < 30 then 0.08
    else 0.025
  }

  function Square(x: real): real {
    Times(x, x)
  }

  function Blend(m: Metric, value: real, alpha: real, minStdDev: real): Metric {
    var delta := value - m.mean;
    Metric(m.mean + Times(alpha, delta),
           Max(Times(1.0 - alpha, m.variance) + Times(alpha, Square(delta)), Square(minStdDev)),
           m.samples + 1)
  }

  ghost function Learn(m: Metric, value: real, sensitivity: real, watch: Watch, root: real -> real): Metric {
    if m.samples == 0 then Metric(value, Square(watch.minStdDev), 1)
    else Blend(m, value, Rate(m.samples, Deviation(m, value, sensitivity, watch, root)), watch.minStdDev)
  }

  // ----- whole streams -----

  datatype Reading = Reading(value: real, sensitivity: real)

  ghost function Learned(stream: seq<Reading>, watch: Watch, root: real -> real): Metric {
    if |stream| == 0 then NEW_METRIC
    else
      var last := stream[|stream| - 1];
      Learn(Learned(stream[..|stream| - 1], watch, root), last.value, last.sensitivity, watch, root)
  }

  ghost predicate Between(stream: seq<Reading>, low: real, high: real) {
    forall i | 0 <= i < |stream| :: low <= stream[i].value <= high
  }

  ghost predicate Plausible(m: Metric, low: real, high: real, minStdDev: real) {
    && low <= m.mean <= high
    && Square(minStdDev) <= m.variance <= Max(Square(minStdDev), Square(high - low))
  }

  /** A blended mean stays between the old mean and the reading, and closes the gap by exactly the rate. */
  lemma BlendedMean(m: Metric, value: real, alpha: real, minStdDev: real)
    requires 0.0 <= alpha <= 1.0
    ensures var mean' := Blend(m, value, alpha, minStdDev).mean;
            && (m.mean <= value ==> m.mean <= mean' <= value)
            && (value <= m.mean ==> value <= mean' <= m.mean)
            && Abs(mean' - m.mean) == Times(alpha, Abs(value - m.mean))
            && Abs(value - mean') == Times(1.0 - alpha, Abs(value - m.mean))
  {
    hide Times;
    var delta := value - m.mean;
    TimesSign(alpha, Abs(delta));
    TimesSign(1.0 - alpha, Abs(delta));
    TimesSplit(alpha, delta);
    TimesSplit(alpha, -delta);
    TimesNegates(alpha, delta);
    TimesNegates(1.0 - alpha, delta);
  }

  lemma TimesSplit(alpha: real, x: real)
    ensures Times(alpha, x) + Times(1.0 - alpha, x) == x
  {
  }

  lemma TimesNegates(x: real, y: real)
    ensures Times(x, -y) == -Times(x, y)
  {
  }

  lemma SquareMonotone(x: real, y: real)
    requires Abs(x) <= y
    ensures Square(x) <= Square(y)
  {
    TimesSign(y - Abs(x), y + Abs(x));
    DifferenceOfSquares(y, Abs(x));
  }

  lemma BlendedVariance(variance: real, square: real, alpha: real, low: real, high: real)
    requires 0.0 <= alpha <= 1.0 && low <= variance <= high && square <= high
    ensures Times(1.0 - alpha, variance) + Times(alpha, square) <= high
  {
    hide Times;
    TimesSplit(alpha, high);
    TimesSign(1.0 - alpha, high - variance);
    TimesSign(alpha, high - square);
    TimesDifference(1.0 - alpha, high, variance);
    TimesDifference(alpha, high, square);
  }

  lemma TimesDifference(s: real, x: real, y: real)
    ensures Times(s, x - y) == Times(s, x) - Times(s, y)
  {
  }

  /**
   * Whatever the readings, their order and the rates that they provoke: the mean stays within the
   * smallest and the largest value seen, and the variance between the credited minimum and the
   * square of the range.
   */
  lemma {:induction false} LearnedIsPlausible(stream: seq<Reading>, low: real, high: real, watch: Watch,
                                              root: real -> real)
    requires |stream| > 0 && Between(stream, low, high)
    ensures Learned(stream, watch, root).samples == |stream|
    ensures Plausible(Learned(stream, watch, root), low, high, watch.minStdDev)
  {
    hide Deviation, Times;
    var n, last := |stream| - 1, stream[|stream| - 1];
    var before := Learned(stream[..n], watch, root);
    if n > 0 {
      LearnedIsPlausible(stream[..n], low, high, watch, root);
      var alpha := Rate(before.samples, Deviation(before, last.value, last.sensitivity, watch, root));
      BlendedMean(before, last.value, alpha, watch.minStdDev);
      SquareMonotone(last.value - before.mean, high - low);
      BlendedVariance(before.variance, Square(last.value - before.mean), alpha, Square(watch.minStdDev),
                      Max(Square(watch.minStdDev), Square(high - low)));
    }
  }

  /** A reading pulls the mean towards it by at most 8% of the gap, and an anomalous one by only 0.6%. */
  lemma OutliersBarelyMove(m: Metric, value: real, sensitivity: real, watch: Watch, root: real -> real)
    requires m.samples > 0
    ensures var pull := Abs(Learn(m, value, sensitivity, watch, root).mean - m.mean);
            && pull <= Times(0.08, Abs(value - m.mean))
            && (Deviation(m, value, sensitivity, watch, root) >= 70.0 ==> pull == Times(0.006, Abs(value - m.mean)))
  {
    hide Deviation, Times;
    var alpha := Rate(m.samples, Deviation(m, value, sensitivity, watch, root));
    BlendedMean(m, value, alpha, watch.minStdDev);
    TimesSign(0.08 - alpha, Abs(value - m.mean));
    TimesCommutes(Abs(value - m.mean), 0.08 - alpha);
    TimesCommutes(Abs(value - m.mean), 0.08);
    TimesCommutes(Abs(value - m.mean), alpha);
    TimesDifference(Abs(value - m.mean), 0.08, alpha);
  }

  /** Every reading, even an anomalous one, closes at least 0.6% of its gap to the mean: no level is rejected. */
  lemma MeanFollows(m: Metric, value: real, sensitivity: real, watch: Watch, root: real -> real)
    requires m.samples > 0
    ensures Abs(value - Learn(m, value, sensitivity, watch, root).mean) <= Times(0.994, Abs(value - m.mean))
  {
    hide Deviation, Times;
    var alpha, gap := Rate(m.samples, Deviation(m, value, sensitivity, watch, root)), Abs(value - m.mean);
    BlendedMean(m, value, alpha, watch.minStdDev);
    TimesSign(alpha - 0.006, gap);
    TimesCommutes(gap, alpha - 0.006);
    TimesCommutes(gap, 0.994);
    TimesCommutes(gap, 1.0 - alpha);
    TimesDifference(gap, 0.994, 1.0 - alpha);
    assert alpha - 0.006 == 0.994 - (1.0 - alpha);
  }

  lemma RatioSign(x: real, y: real)
    requires y > 0.0
    ensures Ratio(x, y) > 0.0 <==> x > 0.0
    ensures Ratio(x, y) >= 0.0 <==> x >= 0.0
  {
  }

  /** Only a move to the risky side of the mean deviates at all. */
  lemma DeviationMeansRisk(m: Metric, value: real, sensitivity: real, watch: Watch, root: real -> real)
    requires m.samples > 0
    ensures 0.0 <= Deviation(m, value, sensitivity, watch, root) <= 100.0
    ensures Deviation(m, value, sensitivity, watch, root) > 0.0 <==>
            if watch.lowerIsRisk then value < m.mean else value > m.mean
  {
    hide Ratio;
    RatioSign(if watch.lowerIsRisk then m.mean - value else value - m.mean, Max(1.0, Spread(m, watch, root)));
    RatioSign(Pressure(m, value, watch, root), Max(0.75, sensitivity));
  }

  /** How far a reading is on the risky side of the mean. */
  function Excess(m: Metric, value: real, watch: Watch): real {
    if watch.lowerIsRisk then m.mean - value else value - m.mean
  }

  /**
   * What a deviation of `t` percent means: 35 of them stand for one spread, scaled by the sensitivity, on
   * the risky side of the mean. A reading looks anomalous from two such spreads on.
   */
  lemma DeviationLevel(m: Metric, value: real, sensitivity: real, watch: Watch, root: real -> real, t: real)
    requires m.samples > 0 && 0.0 < t <= 100.0
    ensures var spread := Max(1.0, Max(watch.minStdDev, root(if m.variance < 0.0 then 0.0 else m.variance)));
            Deviation(m, value, sensitivity, watch, root) >= t <==>
            Times(35.0, Excess(m, value, watch)) >= Times(t, Times(Max(0.75, sensitivity), spread))
  {
    hide Ratio, Times;
    var spread, scale := Max(1.0, Spread(m, watch, root)), Max(0.75, sensitivity);
    var x := Excess(m, value, watch);
    var pressure := Pressure(m, value, watch, root);
    LevelOfQuotient(pressure, scale, t);
    LevelOfQuotient(x, spread, Ratio(Times(t, scale), 35.0));
    TimesSign(t, scale);
    PositiveRatio(Times(t, scale), 35.0);
    ScaledLevel(x, spread, t, scale);
  }

  lemma LevelOfQuotient(x: real, y: real, t: real)
    requires y > 0.0
    ensures Ratio(x, y) >= t <==> x >= Times(t, y)
    ensures Ratio(x, y) * 35.0 >= t <==> x >= Ratio(Times(t, y), 35.0)
  {
    var quotient := x / y;
    assert quotient * y == x;
    if quotient >= t {
      assert (quotient - t) * y >= 0.0;
    } else {
      assert (t - quotient) * y > 0.0;
    }
    if quotient * 35.0 >= t {
      assert (quotient * 35.0 - t) * y >= 0.0;
    } else {
      assert (t - quotient * 35.0) * y > 0.0;
    }
  }

  lemma PositiveRatio(x: real, y: real)
    requires x > 0.0 && y > 0.0
    ensures Ratio(x, y) > 0.0
  {
  }

  lemma ScaledLevel(x: real, spread: real, t: real, scale: real)
    ensures x >= Times(Ratio(Times(t, scale), 35.0), spread) <==> Times(35.0, x) >= Times(t, Times(scale, spread))
  {
    var level := t * scale / 35.0;
    assert 35.0 * (level * spread) == t * (scale * spread);
  }

  /**
   * What a reading teaches: mean and variance close the same share of their gaps to the reading and to its
   * squared distance. The share is 0.6% for an anomalous reading, 1.2% for a conspicuous one, and otherwise
   * 8% for the first thirty and 2.5% after them.
   */
  lemma LearnMeans(m: Metric, value: real, sensitivity: real, watch: Watch, root: real -> real)
    ensures m.samples == 0 ==>
        Learn(m, value, sensitivity, watch, root) == Metric(value, Times(watch.minStdDev, watch.minStdDev), 1)
    ensures m.samples > 0 ==>
        var deviation := Deviation(m, value, sensitivity, watch, root);
        var share := if deviation >= 70.0 then 0.006 else if deviation >= 45.0 then 0.012
            else if m.samples < 30 then 0.08 else 0.025;
        var learned, distance := Learn(m, value, sensitivity, watch, root), value - m.mean;
        && learned.samples == m.samples + 1
        && learned.mean - m.mean == Times(share, distance)
        && learned.variance == Max(m.variance + Times(share, Times(distance, distance) - m.variance),
                                   Times(watch.minStdDev, watch.minStdDev))
  {
    hide Deviation;
  }

  // ----- the implementation -----

  class BaselineMetricState {
    var mean: real
    var variance: real
    var samples: nat

    ghost function View(): Metric
      reads this
    {
      Metric(mean, variance, samples)
    }

    constructor ()
      ensures View() == NEW_METRIC
    {
      mean := 0.0;
      variance := 16.0;
      samples := 0;
    }
  }

  method EvaluateMetric(state: BaselineMetricState, value: real, watch: Watch, sensitivity: real, root: real -> real)
    returns (e: Evaluation)
    modifies state
    ensures state.View() == Learn(old(state.View()), value, sensitivity, watch, root)
    ensures e.mean == state.mean && state.samples == old(state.samples) + 1
    ensures e.deviation == Deviation(old(state.View()), value, sensitivity, watch, root)
    ensures e.pressure == if old(state.samples) == 0 then 0.0 else Pressure(old(state.View()), value, watch, root)
    ensures e.pressure >= 0.0 && (old(state.samples) == 0 ==> e.deviation == 0.0 && e.mean == value)
  {
    if state.samples == 0 {
      state.mean := value;
      state.variance := Times(watch.minStdDev, watch.minStdDev);
      state.samples := 1;
      return Evaluation(state.mean, 0.0, 0.0);
    }
    hide Times, Ratio;
    var stddev := Max(watch.minStdDev, root(Max(0.0, state.variance)));
    var signedDelta := if watch.lowerIsRisk then state.mean - value else value - state.mean;
    var pressure := Max(0.0, Ratio(signedDelta, Max(1.0, stddev)));
    var deviation := Clamp(Ratio(pressure, Max(0.75, sensitivity)) * 35.0, 0.0, 100.0);
    var alpha := if state.samples < 30 then 0.08 else 0.025;
    if deviation >= 70.0 {
      alpha := 0.006;
    } else if deviation >= 45.0 {
      alpha := 0.012;
    }
    var rawDelta := value - state.mean;
    TimesAssociates(alpha, rawDelta, rawDelta);
    state.mean := state.mean + Times(alpha, rawDelta);
    state.variance := Times(1.0 - alpha, state.variance) + Times(Times(alpha, rawDelta), rawDelta);
    state.variance := Max(state.variance, Times(watch.minStdDev, watch.minStdDev));
    state.samples := state.samples + 1;
    e := Evaluation(state.mean, deviation, pressure);
  }

  datatype Snapshot = Snapshot(
    cpuUsage: real,
    memoryUsage: real,
    diskFree: real,
    netDownKBps: real,
    netUpKBps: real,
    processCount: int,
    topCpuPercent: real,
    topPrivateMemoryMB: real,
    topMemoryMB: real)

  datatype MetricName = Cpu | Memory | Disk | Network | ProcessCount | TopProcessCpu | TopProcessMemory

  const NAMES := [Cpu, Memory, Disk, Network, ProcessCount, TopProcessCpu, TopProcessMemory]

  /** The seven values that a snapshot is judged by. */
  function Values(snapshot: Snapshot): (values: seq<real>)
    ensures |values| == 7
  {
    [snapshot.cpuUsage, snapshot.memoryUsage, snapshot.diskFree, snapshot.netDownKBps + snapshot.netUpKBps,
     snapshot.processCount as real, snapshot.topCpuPercent, Max(snapshot.topPrivateMemoryMB, snapshot.topMemoryMB)]
  }

  const WATCHES := [Watch(false, 4.0), Watch(false, 3.0), Watch(true, 2.0), Watch(false, 64.0),
                    Watch(false, 6.0), Watch(false, 5.0), Watch(false, 64.0)]

  datatype Outcome = Outcome(
    sampleCount: nat,
    ready: bool,
    confidence: real,
    deviations: seq<real>,
    dominantMetric: MetricName,
    anomalyScore: real,
    riskHint: real)

  method Dominant(scores: seq<real>) returns (k: nat)
    requires |scores| > 0
    ensures k < |scores|
    ensures forall i | 0 <= i < |scores| :: scores[i] <= scores[k]
    ensures forall i | 0 <= i < k :: scores[i] < scores[k]
  {
    k := 0;
    for i := 1 to |scores|
      invariant k < |scores|
      invariant forall j | 0 <= j < i :: scores[j] <= scores[k]
      invariant forall j | 0 <= j < k :: scores[j] < scores[k]
    {
      if scores[k] < scores[i] {
        k := i;
      }
    }
  }

  const WEIGHTS := [0.18, 0.20, 0.16, 0.12, 0.12, 0.12, 0.10]

  function Score(d: seq<real>): real
    requires |d| == 7
  {
    Clamp(d[0] * 0.18 + d[1] * 0.20 + d[2] * 0.16 + d[3] * 0.12 + d[4] * 0.12 + d[5] * 0.12 + d[6] * 0.10, 0.0, 100.0)
  }

  ghost predicate Percentages(d: seq<real>) {
    |d| == 7 && forall i | 0 <= i < 7 :: 0.0 <= d[i] <= 100.0
  }

  /** The score is an average of the deviations: it never leaves an interval that holds them all. */
  lemma {:induction false} ScoreIsWeightedAverage(d: seq<real>, low: real, high: real)
    requires Percentages(d) && forall i | 0 <= i < 7 :: low <= d[i] <= high
    ensures low <= Score(d) <= high
  {
    assert low <= d[0] <= high && low <= d[1] <= high && low <= d[2] <= high && low <= d[3] <= high;
  }

  /** A change of one deviation moves the score by that metric's weight. */
  lemma {:induction false} ScoreMoves(d: seq<real>, i: nat, x: real)
    requires Percentages(d) && i < 7 && 0.0 <= x <= 100.0
    ensures Score(d[i := x]) == Score(d) + WEIGHTS[i] * (x - d[i])
  {
    var d' := d[i := x];
    assert forall j | 0 <= j < 7 :: 0.0 <= d'[j] <= 100.0;
  }

  class AdaptiveBaselineEngine {
    const cpu: BaselineMetricState
    const memory: BaselineMetricState
    const diskFree: BaselineMetricState
    const network: BaselineMetricState
    const processCount: BaselineMetricState
    const topCpu: BaselineMetricState
    const topMemory: BaselineMetricState

    ghost predicate Valid()
      reads cpu, memory, diskFree, network, processCount, topCpu, topMemory
    {
      && Separate()
      && cpu.samples == memory.samples == diskFree.samples == network.samples
         == processCount.samples == topCpu.samples == topMemory.samples
    }

    ghost predicate Separate() {
      && cpu !in {memory, diskFree, network, processCount, topCpu, topMemory}
      && memory !in {diskFree, network, processCount, topCpu, topMemory}
      && diskFree !in {network, processCount, topCpu, topMemory}
      && network !in {processCount, topCpu, topMemory}
      && processCount !in {topCpu, topMemory}
      && topCpu != topMemory
    }

    /** What the seven metrics have learned, in the order of `NAMES`. */
    ghost function Views(): (views: seq<Metric>)
      reads cpu, memory, diskFree, network, processCount, topCpu, topMemory
      ensures |views| == 7
    {
      [cpu.View(), memory.View(), diskFree.View(), network.View(), processCount.View(), topCpu.View(), topMemory.View()]
    }

    constructor ()
      ensures Valid()
      ensures Views() == [NEW_METRIC, NEW_METRIC, NEW_METRIC, NEW_METRIC, NEW_METRIC, NEW_METRIC, NEW_METRIC]
      ensures fresh({cpu, memory, diskFree, network, processCount, topCpu, topMemory})
    {
      cpu := new BaselineMetricState();
      memory := new BaselineMetricState();
      diskFree := new BaselineMetricState();
      network := new BaselineMetricState();
      processCount := new BaselineMetricState();
      topCpu := new BaselineMetricState();
      topMemory := new BaselineMetricState();
    }

    /** The four metrics of the whole system. */
    method EvaluateSystem(snapshot: Snapshot, sensitivity: real, root: real -> real) returns (deviations: seq<real>)
      requires Separate()
      modifies cpu, memory, diskFree, network
      ensures deviations == Deviations(old(Views()), Values(snapshot), sensitivity, root)[..4]
      ensures Views() == LearnAll(old(Views()), Values(snapshot), sensitivity, root)[..4] + old(Views())[4..]
      ensures cpu.samples == old(cpu.samples) + 1 && memory.samples == old(memory.samples) + 1
      ensures diskFree.samples == old(diskFree.samples) + 1 && network.samples == old(network.samples) + 1
    {
      hide Learn, Deviation;
      var cpuNow := EvaluateMetric(cpu, snapshot.cpuUsage, Watch(false, 4.0), sensitivity, root);
      var memoryNow := EvaluateMetric(memory, snapshot.memoryUsage, Watch(false, 3.0), sensitivity, root);
      var diskNow := EvaluateMetric(diskFree, snapshot.diskFree, Watch(true, 2.0), sensitivity, root);
      var networkTotal := snapshot.netDownKBps + snapshot.netUpKBps;
      var networkNow := EvaluateMetric(network, networkTotal, Watch(false, 64.0), sensitivity, root);
      deviations := [cpuNow.deviation, memoryNow.deviation, diskNow.deviation, networkNow.deviation];
    }

    /** The three metrics of the processes. */
    method EvaluateProcesses(snapshot: Snapshot, sensitivity: real, root: real -> real) returns (deviations: seq<real>)
      requires Separate()
      modifies processCount, topCpu, topMemory
      ensures deviations == Deviations(old(Views()), Values(snapshot), sensitivity, root)[4..]
      ensures Views() == old(Views())[..4] + LearnAll(old(Views()), Values(snapshot), sensitivity, root)[4..]
      ensures processCount.samples == old(processCount.samples) + 1
      ensures topCpu.samples == old(topCpu.samples) + 1 && topMemory.samples == old(topMemory.samples) + 1
    {
      hide Learn, Deviation;
      var processNow := EvaluateMetric(processCount, snapshot.processCount as real, Watch(false, 6.0), sensitivity,
                                       root);
      var topCpuNow := EvaluateMetric(topCpu, snapshot.topCpuPercent, Watch(false, 5.0), sensitivity, root);
      var topMemoryMB := Max(snapshot.topPrivateMemoryMB, snapshot.topMemoryMB);
      var topMemoryNow := EvaluateMetric(topMemory, topMemoryMB, Watch(false, 64.0), sensitivity, root);
      deviations := [processNow.deviation, topCpuNow.deviation, topMemoryNow.deviation];
    }

    method EvaluateMetrics(snapshot: Snapshot, sensitivity: real, root: real -> real) returns (deviations: seq<real>)
      requires Valid()
      modifies cpu, memory, diskFree, network, processCount, topCpu, topMemory
      ensures Valid() && cpu.samples == old(cpu.samples) + 1
      ensures Views() == LearnAll(old(Views()), Values(snapshot), sensitivity, root)
      ensures deviations == Deviations(old(Views()), Values(snapshot), sensitivity, root)
    {
      hide Learn, Deviation, Values, WATCHES;
      ghost var before := Views();
      var system := EvaluateSystem(snapshot, sensitivity, root);
      ghost var between := Views();
      var processes := EvaluateProcesses(snapshot, sensitivity, root);
      LaterHalf(before, between, Values(snapshot), sensitivity, root);
      deviations := system + processes;
    }

    method EvaluateAndUpdate(snapshot: Snapshot, minSamples: int, sensitivity: real, root: real -> real)
      returns (outcome: Outcome)
      requires Valid()
      modifies cpu, memory, diskFree, network, processCount, topCpu, topMemory
      ensures Valid() && Views() == LearnAll(old(Views()), Values(snapshot), Clamp(sensitivity, 0.6, 3.0), root)
      ensures outcome.deviations == Deviations(old(Views()), Values(snapshot), Clamp(sensitivity, 0.6, 3.0), root)
      ensures outcome.sampleCount == cpu.samples == old(cpu.samples) + 1
      ensures outcome.ready <==> outcome.sampleCount >= 5 && outcome.sampleCount >= minSamples
      ensures Judged(outcome) && outcome.confidence == ConfidenceIn(outcome.sampleCount, minSamples)
      ensures old(cpu.samples) == 0 ==> FirstSnapshot(Views(), snapshot)
      ensures old(cpu.samples) > 0 ==> RisksShown(outcome.deviations, old(Views()), snapshot)
    {
      hide Learn, Deviation, FirstSnapshot, RisksShown;
      var clamped := Clamp(sensitivity, 0.6, 3.0);
      ghost var before := Views();
      var deviations := EvaluateMetrics(snapshot, clamped, root);
      DeviationsArePercentages(before, Values(snapshot), clamped, root);
      if before[0].samples == 0 {
        FirstIsLearned(before, snapshot, clamped, root);
      } else {
        DeviationsShowRisks(before, snapshot, clamped, root);
      }
      var sampleCount := Least([cpu.samples, memory.samples, diskFree.samples, network.samples,
                                processCount.samples, topCpu.samples, topMemory.samples]);
      outcome := Judge(deviations, sampleCount, minSamples);
    }
  }

  function ConfidenceIn(sampleCount: nat, minSamples: int): real {
    if sampleCount >= 5 && sampleCount >= minSamples
    then Clamp(Ratio(sampleCount as real, Max(1.0, 3.0 * minSamples as real)) * 100.0, 45.0, 100.0)
    else Clamp(Ratio(sampleCount as real, Max(1.0, minSamples as real)) * 45.0, 0.0, 45.0)
  }

  /**
   * The confidence in a baseline. While warming up it grows with the samples, to 45 percent once there are as
   * many as asked for; from then on it is at least that, and 100 percent with three times as many.
   */
  lemma ConfidenceLevel(sampleCount: nat, minSamples: int)
    ensures sampleCount >= 5 && sampleCount >= minSamples ==>
        && 45.0 <= ConfidenceIn(sampleCount, minSamples) <= 100.0
        && (minSamples >= 1 ==>
              Times(ConfidenceIn(sampleCount, minSamples), 3.0 * minSamples as real)
              == Clamp(100.0 * sampleCount as real, 135.0 * minSamples as real, 300.0 * minSamples as real))
    ensures sampleCount < minSamples ==>
        && 0.0 <= ConfidenceIn(sampleCount, minSamples) < 45.0
        && Times(ConfidenceIn(sampleCount, minSamples), minSamples as real) == 45.0 * sampleCount as real
    ensures minSamples <= sampleCount < 5 && sampleCount > 0 ==> ConfidenceIn(sampleCount, minSamples) == 45.0
  {
    hide Times, Ratio;
    if sampleCount >= 5 && sampleCount >= minSamples {
      if minSamples >= 1 {
        ClampedRatio(sampleCount as real, 3.0 * minSamples as real, 100.0, 45.0, 100.0);
      }
    } else if sampleCount < minSamples {
      WarmingUp(sampleCount as real, minSamples as real);
    } else if sampleCount > 0 {
      AllAskedFor(sampleCount as real, Max(1.0, minSamples as real));
    }
  }

  lemma WarmingUp(n: real, m: real)
    requires 0.0 <= n < m
    ensures 0.0 <= Clamp(Ratio(n, m) * 45.0, 0.0, 45.0) < 45.0
    ensures Times(Clamp(Ratio(n, m) * 45.0, 0.0, 45.0), m) == 45.0 * n
  {
    hide Ratio;
    ClampedRatio(n, m, 45.0, 0.0, 45.0);
    SmallerProduct(Clamp(Ratio(n, m) * 45.0, 0.0, 45.0), 45.0, m);
  }

  lemma AllAskedFor(n: real, m: real)
    requires n >= m >= 1.0
    ensures Clamp(Ratio(n, m) * 45.0, 0.0, 45.0) == 45.0
  {
    hide Ratio;
    ClampedRatio(n, m, 45.0, 0.0, 45.0);
    SameFactor(Clamp(Ratio(n, m) * 45.0, 0.0, 45.0), 45.0, m);
  }

  lemma ClampedRatio(x: real, y: real, percent: real, low: real, high: real)
    requires y > 0.0 && low <= high
    ensures Times(Clamp(Ratio(x, y) * percent, low, high), y) == Clamp(percent * x, low * y, high * y)
  {
    var quotient := x / y;
    assert quotient * y == x;
    var level := quotient * percent;
    assert level * y == percent * x;
    SmallerProduct(level, low, y);
    SmallerProduct(high, level, y);
    SmallerProduct(high, low, y);
  }

  lemma SmallerProduct(a: real, b: real, y: real)
    requires y > 0.0
    ensures a * y < b * y <==> a < b
  {
    assert a * y - b * y == (a - b) * y;
    if a < b {
      assert (b - a) * y > 0.0;
    } else {
      assert (a - b) * y >= 0.0;
    }
  }

  lemma SameFactor(a: real, b: real, y: real)
    requires y > 0.0 && Times(a, y) == b * y
    ensures a == b
  {
    SmallerProduct(a, b, y);
    SmallerProduct(b, a, y);
  }

  lemma ConfidenceMeans(sampleCount: nat, minSamples: int, ready: bool, confidence: real)
    requires ready <==> sampleCount >= (if minSamples < 5 then 5 else minSamples)
    requires confidence ==
      if ready then Clamp(sampleCount as real / (if minSamples * 3 < 1 then 1 else minSamples * 3) as real * 100.0,
                          45.0, 100.0)
      else Clamp(sampleCount as real / (if minSamples < 1 then 1 else minSamples) as real * 45.0, 0.0, 45.0)
    ensures confidence == ConfidenceIn(sampleCount, minSamples)
  {
  }

  /** What the first snapshot of all leaves behind: its own values, with the least spread of each metric. */
  ghost predicate FirstSnapshot(views: seq<Metric>, snapshot: Snapshot) {
    views == [Metric(snapshot.cpuUsage, 16.0, 1), Metric(snapshot.memoryUsage, 9.0, 1),
              Metric(snapshot.diskFree, 4.0, 1), Metric(snapshot.netDownKBps + snapshot.netUpKBps, 4096.0, 1),
              Metric(snapshot.processCount as real, 36.0, 1), Metric(snapshot.topCpuPercent, 25.0, 1),
              Metric(Max(snapshot.topPrivateMemoryMB, snapshot.topMemoryMB), 4096.0, 1)]
  }

  /** Which metrics deviate: free disk space below its mean, everything else above it. */
  ghost predicate RisksShown(d: seq<real>, before: seq<Metric>, snapshot: Snapshot)
    requires |d| == |before| == 7
  {
    && (d[0] > 0.0 <==> snapshot.cpuUsage > before[0].mean)
    && (d[1] > 0.0 <==> snapshot.memoryUsage > before[1].mean)
    && (d[2] > 0.0 <==> snapshot.diskFree < before[2].mean)
    && (d[3] > 0.0 <==> snapshot.netDownKBps + snapshot.netUpKBps > before[3].mean)
    && (d[4] > 0.0 <==> snapshot.processCount as real > before[4].mean)
    && (d[5] > 0.0 <==> snapshot.topCpuPercent > before[5].mean)
    && (d[6] > 0.0 <==> snapshot.topPrivateMemoryMB > before[6].mean || snapshot.topMemoryMB > before[6].mean)
  }

  lemma {:induction false} FirstIsLearned(before: seq<Metric>, snapshot: Snapshot, sensitivity: real,
                                          root: real -> real)
    requires |before| == 7 && forall i | 0 <= i < 7 :: before[i].samples == 0
    ensures FirstSnapshot(LearnAll(before, Values(snapshot), sensitivity, root), snapshot)
  {
    hide Deviation, Blend;
  }

  lemma {:induction false} DeviationsShowRisks(before: seq<Metric>, snapshot: Snapshot, sensitivity: real,
                                               root: real -> real)
    requires |before| == 7 && forall i | 0 <= i < 7 :: before[i].samples > 0
    ensures RisksShown(Deviations(before, Values(snapshot), sensitivity, root), before, snapshot)
  {
    hide Deviation;
    var values := Values(snapshot);
    forall i | 0 <= i < 7
      ensures Deviation(before[i], values[i], sensitivity, WATCHES[i], root) > 0.0 <==>
              if WATCHES[i].lowerIsRisk then values[i] < before[i].mean else values[i] > before[i].mean
    {
      DeviationMeansRisk(before[i], values[i], sensitivity, WATCHES[i], root);
    }
  }

  /** Readiness, confidence, dominant metric and score. */
  method Judge(deviations: seq<real>, sampleCount: nat, minSamples: int) returns (outcome: Outcome)
    requires Percentages(deviations)
    ensures outcome.deviations == deviations && outcome.sampleCount == sampleCount
    ensures outcome.ready <==> sampleCount >= 5 && sampleCount >= minSamples
    ensures Judged(outcome) && outcome.confidence == ConfidenceIn(sampleCount, minSamples)
  {
    hide Score, ConfidenceIn;
    var ready := sampleCount >= (if minSamples < 5 then 5 else minSamples);
    var confidence :=
      if ready then Clamp(sampleCount as real / (if minSamples * 3 < 1 then 1 else minSamples * 3) as real * 100.0,
                          45.0, 100.0)
      else Clamp(sampleCount as real / (if minSamples < 1 then 1 else minSamples) as real * 45.0, 0.0, 45.0);
    var dominant := Dominant(deviations);
    ScoreIsWeightedAverage(deviations, 0.0, deviations[dominant]);
    ConfidenceMeans(sampleCount, minSamples, ready, confidence);
    var anomalyScore := Score(deviations);
    if !ready {
      anomalyScore := Clamp(anomalyScore * 0.35, 0.0, 35.0);
    }
    outcome := Outcome(sampleCount, ready, confidence, deviations, NAMES[dominant], anomalyScore,
                       if ready then anomalyScore else 0.0);
    assert NAMES[dominant] == outcome.dominantMetric;
  }

  ghost function LearnAll(ms: seq<Metric>, values: seq<real>, sensitivity: real, root: real -> real): seq<Metric>
    requires |ms| == |values| == 7
  {
    [Learn(ms[0], values[0], sensitivity, WATCHES[0], root), Learn(ms[1], values[1], sensitivity, WATCHES[1], root),
     Learn(ms[2], values[2], sensitivity, WATCHES[2], root), Learn(ms[3], values[3], sensitivity, WATCHES[3], root),
     Learn(ms[4], values[4], sensitivity, WATCHES[4], root), Learn(ms[5], values[5], sensitivity, WATCHES[5], root),
     Learn(ms[6], values[6], sensitivity, WATCHES[6], root)]
  }

  ghost function Deviations(ms: seq<Metric>, values: seq<real>, sensitivity: real, root: real -> real): (d: seq<real>)
    requires |ms| == |values| == 7
  {
    [Deviation(ms[0], values[0], sensitivity, WATCHES[0], root), Deviation(ms[1], values[1], sensitivity, WATCHES[1],
                                                                           root),
     Deviation(ms[2], values[2], sensitivity, WATCHES[2], root), Deviation(ms[3], values[3], sensitivity, WATCHES[3],
                                                                           root),
     Deviation(ms[4], values[4], sensitivity, WATCHES[4], root), Deviation(ms[5], values[5], sensitivity, WATCHES[5],
                                                                           root),
     Deviation(ms[6], values[6], sensitivity, WATCHES[6], root)]
  }

  /** The metrics learn independently: what the last three learn does not depend on the first four. */
  lemma {:induction false} LaterHalf(ms: seq<Metric>, ms': seq<Metric>, values: seq<real>, sensitivity: real,
                                     root: real -> real)
    requires |ms| == |ms'| == |values| == 7 && ms[4..] == ms'[4..]
    ensures LearnAll(ms, values, sensitivity, root)[4..] == LearnAll(ms', values, sensitivity, root)[4..]
    ensures Deviations(ms, values, sensitivity, root)[4..] == Deviations(ms', values, sensitivity, root)[4..]
  {
    hide Learn, Deviation;
    assert forall i | 4 <= i < 7 :: ms[i] == ms[4..][i - 4] == ms'[i];
  }

  lemma {:induction false} DeviationsArePercentages(ms: seq<Metric>, values: seq<real>, sensitivity: real,
                                                    root: real -> real)
    requires |ms| == |values| == 7
    ensures Percentages(Deviations(ms, values, sensitivity, root))
  {
    hide Pressure, Ratio;
  }

  /** The dominant metric deviates most; the score never exceeds it, and only 35% of it while warming up. */
  ghost predicate Judged(o: Outcome) {
    && |o.deviations| == 7
    && (exists k | 0 <= k < 7 ::
          && NAMES[k] == o.dominantMetric
          && 0.0 <= o.anomalyScore <= (if o.ready then o.deviations[k] else 0.35 * o.deviations[k])
          && (forall i | 0 <= i < 7 :: o.deviations[i] <= o.deviations[k])
          && (forall i | 0 <= i < k :: o.deviations[i] < o.deviations[k]))
    && (o.anomalyScore == if o.ready then Score(o.deviations) else 0.35 * Score(o.deviations))
    && o.riskHint == (if o.ready then o.anomalyScore else 0.0)
    && if o.ready then 45.0 <= o.confidence <= 100.0 else 0.0 <= o.confidence <= 45.0
  }

  /** The smallest of several counts. */
  method Least(counts: seq<nat>) returns (least: nat)
    requires |counts| > 0
    ensures least in counts && forall i | 0 <= i < |counts| :: least <= counts[i]
  {
    least := counts[0];
    for i := 1 to |counts|
      invariant least in counts && forall j | 0 <= j < i :: least <= counts[j]
    {
      if counts[i] < least {
        least := counts[i];
      }
    }
  }
}
