/** Pacing of telemetry captures: escalation, the cap on focused bursts, and failure backoff. */
module AdaptiveSampling {
  import opened IntegerArithmetic

  datatype Config = Config(
    stableIntervalMs: int,
    elevatedRiskIntervalMs: int,
    minimumImmediateIntervalMs: int,
    maximumFocusedBurstMs: int,
    overloadBackoffMultiplier: int)

  datatype Inputs = Inputs(
    elevatedRisk: bool,
    severePressure: bool,
    foregroundChanged: bool,
    dataInvalid: bool,
    safetyEvent: bool)

  datatype Tier = Tier0Cheap | Tier1Risk | Tier2Focused

  datatype Reason =
    | InitialSample
    | CollectorFailureBackoff
    | ForegroundChanged
    | ForcedEscalation
    | FocusedBurstCapped
    | ElevatedRisk
    | OverheadBackoff
    | StableInterval

  datatype Decision = Decision(capture: bool, immediate: bool, tier: Tier, targetIntervalMs: int, reason: Reason)

  datatype Sampler = Sampler(
    lastCaptureMs: int,
    focusedBurstStartedMs: int,
    failureBackoffUntilMs: int,
    captureCount: int,
    overloadBackoff: bool)

  // ----- the specification, one step at a time -----

  /** What the constructor makes of any configuration. */
  function Clamped(config: Config): Config {
    var elevated := Max(500, config.elevatedRiskIntervalMs);
    Config(Max(1000, config.stableIntervalMs), elevated, Max(100, config.minimumImmediateIntervalMs),
           Max(elevated, config.maximumFocusedBurstMs), Max(1, config.overloadBackoffMultiplier))
  }

  ghost predicate Sane(config: Config) {
    && config.stableIntervalMs >= 1000 && config.elevatedRiskIntervalMs >= 500
    && config.minimumImmediateIntervalMs >= 100
    && config.maximumFocusedBurstMs >= config.elevatedRiskIntervalMs
    && config.overloadBackoffMultiplier >= 1
  }

  const NEW_SAMPLER := Sampler(-1, -1, 0, 0, false)

  predicate Forced(inputs: Inputs) {
    inputs.foregroundChanged || inputs.dataInvalid || inputs.safetyEvent || inputs.severePressure
  }

  predicate Urgent(inputs: Inputs) {
    inputs.severePressure || inputs.safetyEvent
  }

  function Backoff(s: Sampler, config: Config): int {
    if s.overloadBackoff then config.overloadBackoffMultiplier else 1
  }

  function EffectiveInterval(s: Sampler, inputs: Inputs, config: Config): int {
    var interval := if inputs.elevatedRisk || Forced(inputs) then config.elevatedRiskIntervalMs
        else config.stableIntervalMs;
    if Urgent(inputs) then interval else interval * Backoff(s, config)
  }

  /** The first sample of all, and a sample that a failed collector holds back, leave the burst alone. */
  predicate Deferred(s: Sampler, nowMs: int, inputs: Inputs) {
    s.lastCaptureMs < 0 || (nowMs < s.failureBackoffUntilMs && !inputs.safetyEvent)
  }

  predicate Immediate(s: Sampler, nowMs: int, inputs: Inputs, config: Config) {
    Forced(inputs) && Max(0, nowMs - s.lastCaptureMs) >= config.minimumImmediateIntervalMs
  }

  function BurstStart(s: Sampler, nowMs: int, inputs: Inputs, config: Config): int {
    if Deferred(s, nowMs, inputs) || Immediate(s, nowMs, inputs, config) then s.focusedBurstStartedMs
    else if !Forced(inputs) && !inputs.elevatedRisk then -1
    else if s.focusedBurstStartedMs < 0 then nowMs
    else s.focusedBurstStartedMs
  }

  /** The gap to the previous capture that this sample has to keep, once it is neither deferred nor immediate. */
  function RequiredGap(s: Sampler, nowMs: int, inputs: Inputs, config: Config): int {
    if (Forced(inputs) || inputs.elevatedRisk) && !Urgent(inputs)
       && nowMs - BurstStart(s, nowMs, inputs, config) >= config.maximumFocusedBurstMs
    then config.stableIntervalMs * Backoff(s, config)
    else EffectiveInterval(s, inputs, config)
  }

  predicate Captures(s: Sampler, nowMs: int, inputs: Inputs, config: Config) {
    if s.lastCaptureMs < 0 then true
    else if Deferred(s, nowMs, inputs) then false
    else Immediate(s, nowMs, inputs, config)
         || Max(0, nowMs - s.lastCaptureMs) >= RequiredGap(s, nowMs, inputs, config)
  }

  // ----- runs -----

  /**
   * A sample, and the recording of its capture at the same reading of the clock. The caller may turn
   * a capture down that the sampler asks for (`granted`), but takes none that it does not ask for.
   */
  datatype Call =
    | Sample(nowMs: int, inputs: Inputs, granted: bool, withinOverheadBudget: bool)
    | CollectorFailure(nowMs: int)
    | ClearBackoff

  function Step(s: Sampler, call: Call, config: Config): Sampler {
    match call
    case Sample(nowMs, inputs, granted, withinOverheadBudget) =>
      var looked := s.(focusedBurstStartedMs := BurstStart(s, nowMs, inputs, config));
      if granted && Captures(s, nowMs, inputs, config)
      then looked.(lastCaptureMs := nowMs, captureCount := s.captureCount + 1, overloadBackoff := !withinOverheadBudget)
      else looked
    case CollectorFailure(nowMs) =>
      s.(failureBackoffUntilMs := nowMs + config.stableIntervalMs * config.overloadBackoffMultiplier)
    case ClearBackoff => s.(failureBackoffUntilMs := 0)
  }

  function After(s: Sampler, calls: seq<Call>, config: Config): Sampler {
    if |calls| == 0 then s else Step(After(s, calls[..|calls| - 1], config), calls[|calls| - 1], config)
  }

  predicate IsCapture(s: Sampler, call: Call, config: Config) {
    call.Sample? && call.granted && Captures(s, call.nowMs, call.inputs, config)
  }

  /** The instants at which a run captured. */
  function CaptureTimes(s: Sampler, calls: seq<Call>, config: Config): seq<int> {
    if |calls| == 0 then []
    else
      var n := |calls| - 1;
      var earlier := CaptureTimes(s, calls[..n], config);
      if IsCapture(After(s, calls[..n], config), calls[n], config) then earlier + [calls[n].nowMs] else earlier
  }

  ghost predicate ClockFromZero(calls: seq<Call>) {
    forall i | 0 <= i < |calls| && calls[i].Sample? :: calls[i].nowMs >= 0
  }

  /** The shortest gap that any configuration of the sampler can allow. */
  function ShortestGap(config: Config): int {
    Min(config.minimumImmediateIntervalMs, Min(config.elevatedRiskIntervalMs, config.stableIntervalMs))
  }

  lemma ScaledGap(interval: int, multiplier: int)
    requires interval >= 0 && multiplier >= 1
    ensures interval * multiplier >= interval
  {
    assert interval * multiplier == interval + interval * (multiplier - 1);
    assert interval * (multiplier - 1) >= 0;
  }

  /** One capture after another keeps the shortest gap, whatever the inputs and even if the clock runs backwards. */
  lemma {:induction false} CaptureKeepsGap(s: Sampler, call: Call, config: Config)
    requires Sane(config) && s.lastCaptureMs >= 0 && IsCapture(s, call, config)
    ensures call.nowMs - s.lastCaptureMs >= ShortestGap(config)
  {
    ScaledGap(config.stableIntervalMs, Backoff(s, config));
    ScaledGap(config.elevatedRiskIntervalMs, Backoff(s, config));
  }

  /** The state after a run of a new sampler remembers the last capture and how many there were. */
  lemma {:induction false} RemembersCaptures(calls: seq<Call>, config: Config)
    requires ClockFromZero(calls)
    ensures var s, times := After(NEW_SAMPLER, calls, config), CaptureTimes(NEW_SAMPLER, calls, config);
            && s.captureCount == |times|
            && s.lastCaptureMs == (if |times| == 0 then -1 else times[|times| - 1])
            && forall i | 0 <= i < |times| :: times[i] >= 0
  {
    hide Captures, BurstStart;
    if |calls| > 0 {
      RemembersCaptures(calls[..|calls| - 1], config);
    }
  }

  /**
   * The rate bound: any two captures of a run are at least the shortest gap apart for each capture
   * between them, so a span of time `t` holds at most `t / ShortestGap + 1` captures.
   */
  lemma {:induction false} CaptureRate(calls: seq<Call>, config: Config, i: nat, j: nat)
    requires Sane(config) && ClockFromZero(calls)
    requires i <= j < |CaptureTimes(NEW_SAMPLER, calls, config)|
    ensures var times := CaptureTimes(NEW_SAMPLER, calls, config);
            times[j] - times[i] >= (j - i) * ShortestGap(config)
    decreases |calls|
  {
    hide Captures, BurstStart, ShortestGap;
    var n := |calls| - 1;
    var times, earlier := CaptureTimes(NEW_SAMPLER, calls, config), CaptureTimes(NEW_SAMPLER, calls[..n], config);
    RemembersCaptures(calls[..n], config);
    if j < |earlier| {
      CaptureRate(calls[..n], config, i, j);
    } else if i < j {
      CaptureRate(calls[..n], config, i, j - 1);
      CaptureKeepsGap(After(NEW_SAMPLER, calls[..n], config), calls[n], config);
      assert (j - i) * ShortestGap(config) == (j - 1 - i) * ShortestGap(config) + ShortestGap(config);
    } else {
      assert (j - i) * ShortestGap(config) == 0;
    }
  }

  // ----- the cap on a focused burst -----

  predicate ElevatedOnly(inputs: Inputs) {
    inputs.elevatedRisk && !Forced(inputs)
  }

  ghost predicate Stretch(calls: seq<Call>) {
    forall i | 0 <= i < |calls| && calls[i].Sample? :: ElevatedOnly(calls[i].inputs) && calls[i].nowMs >= 0
  }

  /** While the risk stays merely elevated, a burst that has started keeps its start. */
  lemma {:induction false} BurstPersists(s: Sampler, calls: seq<Call>, config: Config)
    requires Stretch(calls) && s.focusedBurstStartedMs >= 0 && s.lastCaptureMs >= 0
    ensures var after := After(s, calls, config);
            after.focusedBurstStartedMs == s.focusedBurstStartedMs && after.lastCaptureMs >= 0
  {
    hide Captures;
    if |calls| > 0 {
      BurstPersists(s, calls[..|calls| - 1], config);
    }
  }

  /** The first sample that gets through to the focused branch fixes the start of the burst. */
  lemma {:induction false} BurstStarts(s: Sampler, call: Call, config: Config)
    requires call.Sample? && ElevatedOnly(call.inputs) && !Deferred(s, call.nowMs, call.inputs) && call.nowMs >= 0
    ensures var burst := Step(s, call, config).focusedBurstStartedMs;
            burst == (if s.focusedBurstStartedMs < 0 then call.nowMs else s.focusedBurstStartedMs) && burst >= 0
  {
    hide Captures;
  }

  /**
   * The cap: after `maximumFocusedBurstMs` of merely elevated risk, sampling falls back to the stable
   * interval, with the overload multiplier on top, until the stretch ends, and does so exactly on time.
   */
  lemma {:induction false} BurstIsCapped(s: Sampler, calls: seq<Call>, config: Config, call: Call)
    requires Sane(config) && Stretch(calls + [call]) && call.Sample?
    requires s.focusedBurstStartedMs >= 0 && s.lastCaptureMs >= 0
    requires call.nowMs >= s.focusedBurstStartedMs + config.maximumFocusedBurstMs
    ensures var before := After(s, calls, config);
            && (Captures(before, call.nowMs, call.inputs, config) <==>
                 && call.nowMs >= before.failureBackoffUntilMs
                 && call.nowMs - before.lastCaptureMs >= config.stableIntervalMs * Backoff(before, config))
            && (IsCapture(before, call, config) ==> call.nowMs - before.lastCaptureMs >= config.stableIntervalMs)
  {
    var all := calls + [call];
    assert all[|calls|] == call;
    assert Stretch(calls) by {
      forall i | 0 <= i < |calls| && calls[i].Sample?
        ensures ElevatedOnly(calls[i].inputs) && calls[i].nowMs >= 0
      {
        assert all[i] == calls[i];
      }
    }
    BurstPersists(s, calls, config);
    ScaledGap(config.stableIntervalMs, Backoff(After(s, calls, config), config));
  }

  // ----- captures are not starved -----

  /** Past the longer interval with its multiplier, only a failed collector can hold a capture back. */
  lemma {:induction false} OverdueSampleCaptures(s: Sampler, nowMs: int, inputs: Inputs, config: Config)
    requires Sane(config) && s.lastCaptureMs >= 0
    requires nowMs - s.lastCaptureMs >= config.stableIntervalMs * config.overloadBackoffMultiplier
    requires nowMs - s.lastCaptureMs >= config.elevatedRiskIntervalMs * config.overloadBackoffMultiplier
    ensures Captures(s, nowMs, inputs, config) <==> nowMs >= s.failureBackoffUntilMs || inputs.safetyEvent
  {
    ScaledGap(config.stableIntervalMs, config.overloadBackoffMultiplier);
    ScaledGap(config.elevatedRiskIntervalMs, config.overloadBackoffMultiplier);
  }

  // ----- the implementation -----

  class AdaptiveSamplingController {
    const config: Config
    var lastCaptureMs: int
    var focusedBurstStartedMs: int
    var failureBackoffUntilMs: int
    var captureCount: int
    var overloadBackoff: bool

    ghost function State(): Sampler
      reads this
    {
      Sampler(lastCaptureMs, focusedBurstStartedMs, failureBackoffUntilMs, captureCount, overloadBackoff)
    }

    constructor (config: Config)
      ensures Sane(this.config) && this.config == Clamped(config) && State() == NEW_SAMPLER
      ensures Sane(config) ==> this.config == config
      ensures this.config.stableIntervalMs == (if config.stableIntervalMs < 1000 then 1000 else config.stableIntervalMs)
      ensures this.config.elevatedRiskIntervalMs
              == (if config.elevatedRiskIntervalMs < 500 then 500 else config.elevatedRiskIntervalMs)
      ensures this.config.minimumImmediateIntervalMs
              == (if config.minimumImmediateIntervalMs < 100 then 100 else config.minimumImmediateIntervalMs)
      ensures this.config.maximumFocusedBurstMs
              == (if config.maximumFocusedBurstMs < this.config.elevatedRiskIntervalMs
                  then this.config.elevatedRiskIntervalMs else config.maximumFocusedBurstMs)
      ensures this.config.overloadBackoffMultiplier
              == (if config.overloadBackoffMultiplier < 1 then 1 else config.overloadBackoffMultiplier)
    {
      this.config := Clamped(config);
      lastCaptureMs := -1;
      focusedBurstStartedMs := -1;
      failureBackoffUntilMs := 0;
      captureCount := 0;
      overloadBackoff := false;
    }

    method EffectiveIntervalMs(inputs: Inputs) returns (intervalMs: int)
      ensures intervalMs == EffectiveInterval(State(), inputs, config)
      ensures inputs == Inputs(false, false, false, false, false) ==>
          intervalMs == config.stableIntervalMs * (if overloadBackoff then config.overloadBackoffMultiplier else 1)
      ensures inputs.severePressure || inputs.safetyEvent ==> intervalMs == config.elevatedRiskIntervalMs
      ensures inputs != Inputs(false, false, false, false, false) && !inputs.severePressure && !inputs.safetyEvent ==>
          intervalMs
          == config.elevatedRiskIntervalMs * (if overloadBackoff then config.overloadBackoffMultiplier else 1)
    {
      intervalMs := if inputs.elevatedRisk || inputs.severePressure || inputs.foregroundChanged
                       || inputs.dataInvalid || inputs.safetyEvent
                    then config.elevatedRiskIntervalMs else config.stableIntervalMs;
      if overloadBackoff && !inputs.safetyEvent && !inputs.severePressure {
        intervalMs := intervalMs * config.overloadBackoffMultiplier;
      }
    }

    method Next(nowMs: int, inputs: Inputs) returns (decision: Decision)
      modifies `focusedBurstStartedMs
      ensures decision.capture == Captures(old(State()), nowMs, inputs, config)
      ensures State() == old(State()).(focusedBurstStartedMs := BurstStart(old(State()), nowMs, inputs, config))
      ensures decision.immediate <==>
                !Deferred(old(State()), nowMs, inputs) && Immediate(old(State()), nowMs, inputs, config)
      ensures decision.targetIntervalMs ==
                if Deferred(old(State()), nowMs, inputs) || Immediate(old(State()), nowMs, inputs, config)
                then EffectiveInterval(old(State()), inputs, config)
                else RequiredGap(old(State()), nowMs, inputs, config)
      ensures decision.reason.InitialSample? <==> lastCaptureMs < 0
      ensures decision.reason.CollectorFailureBackoff? <==>
              !decision.reason.InitialSample? && nowMs < failureBackoffUntilMs && !inputs.safetyEvent
      ensures decision.immediate <==>
              && !decision.reason.InitialSample? && !decision.reason.CollectorFailureBackoff?
              && (inputs.foregroundChanged || inputs.dataInvalid || inputs.safetyEvent || inputs.severePressure)
              && Max(0, nowMs - lastCaptureMs) >= config.minimumImmediateIntervalMs
      ensures decision.reason.ForegroundChanged? <==> decision.immediate && inputs.foregroundChanged
      ensures decision.reason.ForcedEscalation? <==> decision.immediate && !inputs.foregroundChanged
      ensures decision.reason.ElevatedRisk? <==>
              && !decision.reason.InitialSample? && !decision.reason.CollectorFailureBackoff? && !decision.immediate
              && !decision.reason.FocusedBurstCapped?
              && inputs != Inputs(false, false, false, false, false)
      ensures decision.reason.OverheadBackoff? || decision.reason.StableInterval? <==>
              && !decision.reason.InitialSample? && !decision.reason.CollectorFailureBackoff?
              && inputs == Inputs(false, false, false, false, false)
      ensures decision.reason.OverheadBackoff? ==> overloadBackoff
      ensures decision.reason.StableInterval? ==> !overloadBackoff
      ensures focusedBurstStartedMs ==
              if decision.reason.OverheadBackoff? || decision.reason.StableInterval? then -1
              else if (decision.reason.FocusedBurstCapped? || decision.reason.ElevatedRisk?)
                      && old(focusedBurstStartedMs) < 0 then nowMs
              else old(focusedBurstStartedMs)
      ensures decision.capture <==>
              || decision.reason.InitialSample? || decision.immediate
              || (!decision.reason.CollectorFailureBackoff?
                  && Max(0, nowMs - lastCaptureMs) >= decision.targetIntervalMs)
      ensures decision.reason.FocusedBurstCapped? ==>
          decision.targetIntervalMs
          == config.stableIntervalMs * (if overloadBackoff then config.overloadBackoffMultiplier else 1)
      ensures !decision.reason.FocusedBurstCapped? ==>
          decision.targetIntervalMs
          == (if inputs == Inputs(false, false, false, false, false) then config.stableIntervalMs
              else config.elevatedRiskIntervalMs)
             * (if overloadBackoff && !inputs.severePressure && !inputs.safetyEvent
                then config.overloadBackoffMultiplier else 1)
      ensures decision.tier.Tier0Cheap? <==> inputs == Inputs(false, false, false, false, false)
      ensures decision.tier.Tier1Risk? <==> decision.reason.FocusedBurstCapped?
      ensures decision.reason.FocusedBurstCapped? <==>
              && !decision.reason.InitialSample? && !decision.reason.CollectorFailureBackoff? && !decision.immediate
              && (inputs.elevatedRisk || inputs.foregroundChanged || inputs.dataInvalid)
              && !inputs.severePressure && !inputs.safetyEvent
              && nowMs - focusedBurstStartedMs >= config.maximumFocusedBurstMs
    {
      var forcedEscalation := inputs.foregroundChanged || inputs.dataInvalid || inputs.safetyEvent
          || inputs.severePressure;
      var focused := forcedEscalation || inputs.elevatedRisk;
      var intervalMs := EffectiveIntervalMs(inputs);
      var tier := if focused then Tier2Focused else Tier0Cheap;
      if lastCaptureMs < 0 {
        return Decision(true, false, tier, intervalMs, InitialSample);
      }
      if nowMs < failureBackoffUntilMs && !inputs.safetyEvent {
        return Decision(false, false, tier, intervalMs, CollectorFailureBackoff);
      }
      var elapsedMs := Max(0, nowMs - lastCaptureMs);
      if forcedEscalation && elapsedMs >= config.minimumImmediateIntervalMs {
        return Decision(true, true, tier, intervalMs,
                        if inputs.foregroundChanged then ForegroundChanged else ForcedEscalation);
      }
      if focused {
        if focusedBurstStartedMs < 0 {
          focusedBurstStartedMs := nowMs;
        }
        var burstExpired := nowMs - focusedBurstStartedMs >= config.maximumFocusedBurstMs;
        if burstExpired && !inputs.severePressure && !inputs.safetyEvent {
          var target := config.stableIntervalMs * (if overloadBackoff then config.overloadBackoffMultiplier else 1);
          return Decision(elapsedMs >= target, false, Tier1Risk, target, FocusedBurstCapped);
        }
        return Decision(elapsedMs >= intervalMs, false, tier, intervalMs, ElevatedRisk);
      }
      focusedBurstStartedMs := -1;
      decision := Decision(elapsedMs >= intervalMs, false, tier, intervalMs,
                           if overloadBackoff then OverheadBackoff else StableInterval);
    }

    method RecordCapture(nowMs: int, withinOverheadBudget: bool)
      modifies `lastCaptureMs, `captureCount, `overloadBackoff
      ensures State() == old(State()).(lastCaptureMs := nowMs, captureCount := old(captureCount) + 1,
                                       overloadBackoff := !withinOverheadBudget)
    {
      lastCaptureMs := nowMs;
      captureCount := captureCount + 1;
      overloadBackoff := !withinOverheadBudget;
    }

    method RecordCollectorFailure(nowMs: int)
      modifies `failureBackoffUntilMs
      ensures State() == Step(old(State()), CollectorFailure(nowMs), config)
      ensures failureBackoffUntilMs == nowMs + config.stableIntervalMs * config.overloadBackoffMultiplier
    {
      failureBackoffUntilMs := nowMs + config.stableIntervalMs * config.overloadBackoffMultiplier;
    }

    method ClearFailureBackoff()
      modifies `failureBackoffUntilMs
      ensures State() == Step(old(State()), ClearBackoff, config) && failureBackoffUntilMs == 0
    {
      failureBackoffUntilMs := 0;
    }

    /** How the main loop drives the sampler: it asks, and records a capture it takes, at one clock reading. */
    method SampleOnce(nowMs: int, inputs: Inputs, granted: bool, withinOverheadBudget: bool) returns (captured: bool)
      modifies this
      ensures captured == IsCapture(old(State()), Sample(nowMs, inputs, granted, withinOverheadBudget), config)
      ensures State() == Step(old(State()), Sample(nowMs, inputs, granted, withinOverheadBudget), config)
    {
      var decision := Next(nowMs, inputs);
      captured := decision.capture && granted;
      if captured {
        RecordCapture(nowMs, withinOverheadBudget);
      }
    }
  }
}
