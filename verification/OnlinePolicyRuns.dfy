/** Whole runs of the online policy: which clocks keep the hourly budget and the cooldown, and which do not. */
module OnlinePolicyRuns {
  import opened ResourceActions
  import opened Sequences
  import opened OnlinePolicies

  // ----- whole runs under one configuration -----

  datatype Call =
    | Look(now: int)
    | Act(input: OnlinePolicyInput, killSwitch: bool, checkedAt: int, began: bool, executedAt: int)

  ghost function Called(s: Ledger, config: OnlinePolicyConfig, call: Call): Ledger {
    match call
    case Look(now) => Looked(s, now)
    case Act(input, killSwitch, checkedAt, began, executedAt) =>
      Acted(s, config, input, killSwitch, checkedAt, began, executedAt)
  }

  ghost function After(s: Ledger, config: OnlinePolicyConfig, calls: seq<Call>): Ledger {
    if |calls| == 0 then s else Called(After(s, config, calls[..|calls| - 1]), config, calls[|calls| - 1])
  }

  lemma {:induction false} CallKeepsBudget(s: Ledger, config: OnlinePolicyConfig, call: Call, budget: int)
    requires BudgetHolds(s, budget) && config.maximumActionsPerHour <= budget
    ensures BudgetHolds(Called(s, config, call), budget)
  {
    hide LedgerOk, Forgets, BudgetKept, GatesPass, Pruned;
    var now := if call.Look? then call.now else call.checkedAt;
    LookKeepsBudget(s, now, budget);
    if call.Act? && call.began
       && MayExecute(config, s.history, s.cooldownUntil, call.input, call.killSwitch, call.checkedAt) {
      ChargeKeepsHolding(Looked(s, now), Execution(call.executedAt, call.input.selectedAction, call.input.targetPid),
                         call.executedAt + config.cooldownSeconds * 1000, budget);
    }
  }

  /** On a clock that forgets nothing, every run keeps the budget. */
  lemma {:induction false} RunKeepsBudget(config: OnlinePolicyConfig, calls: seq<Call>)
    requires config == Clamped(config)
    ensures BudgetHolds(After(EMPTY, config, calls), config.maximumActionsPerHour)
  {
    hide BudgetHolds, Called;
    if |calls| == 0 {
      EmptyHolds(config.maximumActionsPerHour);
    } else {
      var before := calls[..|calls| - 1];
      RunKeepsBudget(config, before);
      CallKeepsBudget(After(EMPTY, config, before), config, calls[|calls| - 1], config.maximumActionsPerHour);
    }
  }

  // ----- nothing is executed that was not permitted -----

  /** The call that `e` is the execution of: no gate of the configuration stood against it. */
  ghost predicate Permitted(e: Execution, config: OnlinePolicyConfig, call: Call) {
    && call.Act? && call.began && e == Execution(call.executedAt, call.input.selectedAction, call.input.targetPid)
    && config.onlineEnabled && !config.globalDisable && !call.killSwitch && config.policyPromoted
    && call.input.wouldAct && call.input.selectedAction != NoAction
    && call.input.lowerConfidenceBound > config.minimumLowerConfidenceBenefit
    && call.input.executionEligible && !call.input.hardBlock
    && call.input.targetSafety >= config.minimumTargetSafety
    && call.input.targetCriticality <= config.maximumTargetCriticality
    && call.input.targetPid !in {0, call.input.foregroundPid}
    && !call.input.targetSystemCritical && !call.input.targetMatchesUserIntent
    && (config.requireApproval ==> call.input.userApproved)
  }

  /** Every execution in the log of a run is that of a call which passed every gate, one call for each. */
  lemma {:induction false} ExecutionsArePermitted(config: OnlinePolicyConfig, calls: seq<Call>) returns (of: seq<nat>)
    ensures var log := After(EMPTY, config, calls).log;
            && |of| == |log| && (forall j, k | 0 <= j < k < |of| :: of[j] < of[k])
            && forall k | 0 <= k < |of| :: of[k] < |calls| && Permitted(log[k], config, calls[of[k]])
  {
    hide Pruned, Permitted;
    if |calls| == 0 {
      of := [];
    } else {
      var n := |calls| - 1;
      var before := After(EMPTY, config, calls[..n]);
      of := ExecutionsArePermitted(config, calls[..n]);
      var log := Called(before, config, calls[n]).log;
      if log != before.log {
        of := of + [n];
        ActIsPermitted(before, config, calls[n]);
      }
    }
  }

  lemma {:induction false} ActIsPermitted(s: Ledger, config: OnlinePolicyConfig, call: Call)
    requires Called(s, config, call).log != s.log
    ensures var log := Called(s, config, call).log;
            log == s.log + [log[|s.log|]] && Permitted(log[|s.log|], config, call)
  {
    hide Pruned;
  }

  // ----- a run that breaks the budget on any clock that forgets -----

  const ONE_AN_HOUR := Open(1, 10)

  /** A configuration that leaves everything to the budget and the cooldown. */
  function Open(budget: int, cooldownSeconds: int): OnlinePolicyConfig {
    OnlinePolicyConfig(true, true, false, false, budget, cooldownSeconds, 1, 1, 0.0, 0.0, 0.0)
  }

  /** An input that passes every gate for a given target. */
  function Request(pid: nat): OnlinePolicyInput {
    OnlinePolicyInput(true, LowerPriority, 1.0, true, false, 0.0, 0.0, pid, 0, false, false, true)
  }

  function LooksAt(times: seq<int>): seq<Call> {
    seq(|times|, i requires 0 <= i < |times| => Look(times[i]))
  }

  lemma {:induction false} AfterAppended(s: Ledger, config: OnlinePolicyConfig, first: seq<Call>, second: seq<Call>)
    ensures After(s, config, first + second) == After(After(s, config, first), config, second)
  {
    hide Called;
    if |second| == 0 {
      assert first + second == first;
    } else {
      var all := first + second;
      assert all[..|all| - 1] == first + second[..|second| - 1];
      AfterAppended(s, config, first, second[..|second| - 1]);
    }
  }

  /** At none of these times is `at` an hour past. */
  ghost predicate Young(times: seq<int>, at: int) {
    forall k | 0 <= k < |times| :: times[k] - at < HOUR_MS
  }

  lemma {:induction false} OneMoreYoung(times: seq<int>, time: int, at: int)
    ensures Young(times + [time], at) <==> Young(times, at) && time - at < HOUR_MS
  {
    var more := times + [time];
    if Young(more, at) {
      assert more[|times|] - at < HOUR_MS;
      assert forall k | 0 <= k < |times| :: more[k] == times[k];
    }
  }

  /** Looking on and on changes nothing but the history, which loses its entry at a reading an hour past it. */
  lemma {:induction false} LooksAfter(s: Ledger, config: OnlinePolicyConfig, times: seq<int>)
    requires |s.history| <= 1
    ensures var after := After(s, config, LooksAt(times));
            && after == s.(history := after.history, readings := s.readings + times)
            && (after.history == [] || after.history == s.history)
            && (after.history == [] || Young(times, after.history[0]))
  {
    if |times| == 0 {
      assert s.readings + times == s.readings;
    } else {
      var n := |times| - 1;
      LooksAfter(s, config, times[..n]);
      assert LooksAt(times)[..n] == LooksAt(times[..n]);
      assert s.readings + times == s.readings + times[..n] + [times[n]];
      var before := After(s, config, LooksAt(times[..n]));
      assert times == times[..n] + [times[n]];
      assert After(s, config, LooksAt(times)) == Looked(before, times[n]);
      if before.history != [] {
        assert before.history == [s.history[0]];
        PrunedOne(s.history[0], times[n]);
      }
    }
  }

  /** Looking on leaves the log alone, whatever the history. */
  lemma {:induction false} LooksOn(s: Ledger, config: OnlinePolicyConfig, times: seq<int>)
    ensures After(s, config, LooksAt(times)).log == s.log
    ensures After(s, config, LooksAt(times)).readings == s.readings + times
  {
    if |times| == 0 {
      assert s.readings + times == s.readings;
    } else {
      var n := |times| - 1;
      LooksOn(s, config, times[..n]);
      assert LooksAt(times)[..n] == LooksAt(times[..n]);
      assert After(s, config, LooksAt(times)) == Looked(After(s, config, LooksAt(times[..n])), times[n]);
      assert times == times[..n] + [times[n]];
    }
  }

  lemma {:induction false} RequestActs(s: Ledger, budget: int, seconds: int, pid: nat, checkedAt: int, executedAt: int)
    requires pid != 0 && |Pruned(s.history, checkedAt)| < budget
    requires (LowerPriority, pid) in s.cooldownUntil ==> s.cooldownUntil[(LowerPriority, pid)] <= checkedAt
    ensures Called(s, Open(budget, seconds), Act(Request(pid), false, checkedAt, true, executedAt))
            == Charged(Looked(s, checkedAt), Execution(executedAt, LowerPriority, pid), executedAt + seconds * 1000)
  {
  }

  lemma {:induction false} TwoInOneHour(first: Execution, second: Execution)
    requires -HOUR_MS < second.at - first.at < HOUR_MS
    ensures !BudgetKept([first, second], 1)
  {
    var start := if first.at < second.at then first.at else second.at;
    var within := (e: Execution) => start <= e.at < start + HOUR_MS;
    assert [first, second][1..] == [second] && [second][1..] == [];
    assert Count(within, [first, second]) == 2;
    assert CountWithin([first, second], start) == 2;
  }

  /** The first half: looks, and one execution stamped with reading `h`. */
  lemma {:induction false} FirstExecution(readings: seq<int>, h: nat, budget: int, seconds: int)
    returns (calls: seq<Call>)
    requires 1 <= h < |readings| && 1 <= budget
    ensures var s := After(EMPTY, Open(budget, seconds), calls);
            && s.history == [readings[h]] && s.readings == readings[..h + 1]
            && s.log == [Execution(readings[h], LowerPriority, 1)]
            && s.cooldownUntil == map[(LowerPriority, 1) := readings[h] + seconds * 1000]
  {
    hide Called, Clamped;
    var looks := LooksAt(readings[..h - 1]);
    var act := Act(Request(1), false, readings[h - 1], true, readings[h]);
    LooksAfter(EMPTY, Open(budget, seconds), readings[..h - 1]);
    RequestActs(After(EMPTY, Open(budget, seconds), looks), budget, seconds, 1, readings[h - 1], readings[h]);
    calls := looks + [act];
    assert calls[..|calls| - 1] == looks;
    assert readings[..h + 1] == readings[..h - 1] + [readings[h - 1]] + [readings[h]];
  }

  lemma {:induction false} RoomLeft(readings: seq<int>, h: nat, j: nat, history: seq<int>, budget: int)
    requires 1 <= h < j - 1 < |readings| && 1 <= budget
    requires budget > 1 || !Young(readings[h + 1..j], readings[h])
    requires history == [] || (history == [readings[h]] && Young(readings[h + 1..j - 1], readings[h]))
    ensures |Pruned(history, readings[j - 1])| < budget
  {
    if history != [] {
      PrunedOne(readings[h], readings[j - 1]);
      assert readings[h + 1..j] == readings[h + 1..j - 1] + [readings[j - 1]];
      OneMoreYoung(readings[h + 1..j - 1], readings[j - 1], readings[h]);
    }
  }

  /**
   * A run that reads these times and executes at readings `h` and `j`: the second time on a given target,
   * which must have cooled down at the check before `j` if it is the first target again.
   */
  lemma {:induction false} TwoExecutions(readings: seq<int>, h: nat, j: nat, budget: int, seconds: int, pid: nat)
    returns (calls: seq<Call>)
    requires 1 <= h < j - 1 < |readings| - 1 && 1 <= budget && pid != 0
    requires budget > 1 || !Young(readings[h + 1..j], readings[h])
    requires pid == 1 ==> readings[j - 1] - readings[h] >= seconds * 1000
    ensures var s := After(EMPTY, Open(budget, seconds), calls);
            && s.readings == readings
            && s.log == [Execution(readings[h], LowerPriority, 1), Execution(readings[j], LowerPriority, pid)]
  {
    hide Called, Pruned, Young;
    var config := Open(budget, seconds);
    var first := FirstExecution(readings, h, budget, seconds);
    var s1 := After(EMPTY, config, first);
    var between, rest := readings[h + 1..j - 1], readings[j + 1..];
    LooksAfter(s1, config, between);
    var s2 := After(s1, config, LooksAt(between));
    RoomLeft(readings, h, j, s2.history, budget);
    var act := Act(Request(pid), false, readings[j - 1], true, readings[j]);
    RequestActs(s2, budget, seconds, pid, readings[j - 1], readings[j]);
    LooksOn(Called(s2, config, act), config, rest);
    calls := first + LooksAt(between) + [act] + LooksAt(rest);
    InFour(config, first, LooksAt(between), act, LooksAt(rest));
    assert readings == readings[..h + 1] + between + [readings[j - 1]] + [readings[j]] + rest;
  }

  lemma {:induction false} InFour(config: OnlinePolicyConfig, first: seq<Call>, between: seq<Call>, act: Call,
                                  last: seq<Call>)
    ensures After(EMPTY, config, first + between + [act] + last)
            == After(Called(After(After(EMPTY, config, first), config, between), config, act), config, last)
  {
    hide Called;
    AfterAppended(EMPTY, config, first + between + [act], last);
    AfterAppended(EMPTY, config, first, between);
    var three := first + between + [act];
    assert three[..|three| - 1] == first + between;
  }

  /**
   * Any clock that forgets breaks the budget of some run: two executions on different targets share an
   * hour although the budget is one.
   */
  lemma {:induction false} ForgettingBreaksBudget(readings: seq<int>) returns (calls: seq<Call>)
    requires Forgets(readings)
    ensures After(EMPTY, ONE_AN_HOUR, calls).readings == readings
    ensures !BudgetKept(After(EMPTY, ONE_AN_HOUR, calls).log, 1)
  {
    hide After, BudgetKept;
    var h, i, j :| 1 <= h < i < j < |readings| && Lapse(readings, h, i, j);
    assert readings[h + 1..j][i - h - 1] - readings[h] >= HOUR_MS;
    calls := TwoExecutions(readings, h, j, 1, 10, 2);
    TwoInOneHour(Execution(readings[h], LowerPriority, 1), Execution(readings[j], LowerPriority, 2));
  }

  /** A run of this configuration that reads these times keeps its budget. */
  ghost predicate RunsKeepBudget(config: OnlinePolicyConfig, calls: seq<Call>, readings: seq<int>) {
    config == Clamped(config) && After(EMPTY, config, calls).readings == readings ==>
      BudgetKept(After(EMPTY, config, calls).log, config.maximumActionsPerHour)
  }

  /**
   * The exact condition on the clock. All runs that read these times keep their budget if and only if no
   * reading an hour or more past an execution is followed by one within an hour of it. A clock that never
   * goes back meets it, and so does one that is set back without crossing such a boundary.
   */
  lemma {:induction false} ClockCondition(readings: seq<int>)
    ensures !Forgets(readings) <==> forall config, calls :: RunsKeepBudget(config, calls, readings)
    ensures Steady(readings) ==> !Forgets(readings)
  {
    hide BudgetKept, Forgets, LedgerOk, Clamped, After;
    if Forgets(readings) {
      var calls := ForgettingBreaksBudget(readings);
      OpenIsClamped(1, 10);
      assert !RunsKeepBudget(ONE_AN_HOUR, calls, readings);
    } else {
      forall config, calls
        ensures RunsKeepBudget(config, calls, readings)
      {
        if config == Clamped(config) {
          RunKeepsBudget(config, calls);
        }
      }
    }
    if Steady(readings) {
      SteadyForgetsNothing(readings);
    }
  }

  lemma OpenIsClamped(budget: int, seconds: int)
    requires 1 <= budget <= 20 && 10 <= seconds <= 86400
    ensures Open(budget, seconds) == Clamped(Open(budget, seconds))
  {
  }

  // ----- the cooldown -----

  /**
   * A check that finds the gap after an earlier reading over, and right after it a reading at which the
   * gap is not over.
   */
  ghost predicate Hurries(readings: seq<int>, gapMs: int) {
    exists h, i :: 1 <= h < i < |readings| - 1 && Hurry(readings, h, i, gapMs)
  }

  ghost predicate Hurry(readings: seq<int>, h: nat, i: nat, gapMs: int)
    requires h < |readings| && i + 1 < |readings|
  {
    readings[i] - readings[h] >= gapMs > readings[i + 1] - readings[h]
  }

  lemma {:induction false} HurriesLater(readings: seq<int>, now: int, gapMs: int)
    requires Hurries(readings, gapMs)
    ensures Hurries(readings + [now], gapMs)
  {
    var h, i :| 1 <= h < i < |readings| - 1 && Hurry(readings, h, i, gapMs);
    assert Hurry(readings + [now], h, i, gapMs);
  }

  ghost predicate SpacingHolds(s: Ledger, gapMs: int) {
    LedgerOk(s) && (!Hurries(s.readings, gapMs) ==> Spaced(s.cooldownUntil, s.log, gapMs))
  }

  lemma {:induction false} ChargeKeepsDistance(s: Ledger, e: Execution, gapMs: nat, until: int)
    requires LedgerOk(s) && |s.readings| > 0 && ReadAt(s, s.readings[|s.readings| - 1])
    requires Spaced(s.cooldownUntil, s.log, gapMs) && !Hurries(s.readings + [e.at], gapMs) && e.at + gapMs <= until
    requires (e.action, e.pid) in s.cooldownUntil ==>
               s.cooldownUntil[(e.action, e.pid)] <= s.readings[|s.readings| - 1]
    ensures Spaced(s.cooldownUntil[(e.action, e.pid) := until], s.log + [e], gapMs)
  {
    var more, last := s.readings + [e.at], |s.readings| - 1;
    forall k | 0 <= k < |s.log| && s.log[k].action == e.action && s.log[k].pid == e.pid
      ensures s.log[k].at + gapMs <= e.at
    {
      assert s.stamps[k] < last && more[last] - more[s.stamps[k]] >= gapMs;
      assert !Hurry(more, s.stamps[k], last, gapMs);
    }
    DistanceKeepsSpacing(s.cooldownUntil, s.log, gapMs, e, until);
  }

  lemma {:induction false} LookKeepsSpacing(s: Ledger, now: int, gapMs: int)
    requires SpacingHolds(s, gapMs)
    ensures SpacingHolds(Looked(s, now), gapMs) && ReadAt(Looked(s, now), now)
  {
    hide LedgerOk, Hurries, Spaced, Pruned;
    LookKeepsLedger(s, now);
    SameReading(s.(readings := s.readings + [now]), Looked(s, now), now);
    if Hurries(s.readings, gapMs) {
      HurriesLater(s.readings, now, gapMs);
    }
  }

  lemma {:induction false} ChargeHoldsSpacing(s: Ledger, e: Execution, gapMs: nat, until: int)
    requires SpacingHolds(s, gapMs) && |s.readings| > 0 && ReadAt(s, s.readings[|s.readings| - 1])
    requires e.at + gapMs <= until
    requires (e.action, e.pid) in s.cooldownUntil ==>
               s.cooldownUntil[(e.action, e.pid)] <= s.readings[|s.readings| - 1]
    ensures SpacingHolds(Charged(s, e, until), gapMs)
  {
    hide LedgerOk, Hurries, Spaced, ReadAt;
    ChargeKeepsLedger(s, e, until);
    if Hurries(s.readings, gapMs) {
      HurriesLater(s.readings, e.at, gapMs);
    } else if !Hurries(s.readings + [e.at], gapMs) {
      ChargeKeepsDistance(s, e, gapMs, until);
    }
  }

  lemma {:induction false} CallKeepsSpacing(s: Ledger, config: OnlinePolicyConfig, call: Call)
    requires SpacingHolds(s, config.cooldownSeconds * 1000) && config.cooldownSeconds >= 0
    ensures SpacingHolds(Called(s, config, call), config.cooldownSeconds * 1000)
  {
    hide SpacingHolds, GatesPass, Pruned, ReadAt;
    var now := if call.Look? then call.now else call.checkedAt;
    LookKeepsSpacing(s, now, config.cooldownSeconds * 1000);
    if call.Act? && call.began
       && MayExecute(config, s.history, s.cooldownUntil, call.input, call.killSwitch, call.checkedAt) {
      ChargeHoldsSpacing(Looked(s, now), Execution(call.executedAt, call.input.selectedAction, call.input.targetPid),
                         config.cooldownSeconds * 1000, call.executedAt + config.cooldownSeconds * 1000);
    }
  }

  lemma EmptySpaced(gapMs: nat)
    ensures SpacingHolds(EMPTY, gapMs)
  {
  }

  lemma {:induction false} RunKeepsSpacing(config: OnlinePolicyConfig, calls: seq<Call>)
    requires config == Clamped(config)
    ensures SpacingHolds(After(EMPTY, config, calls), config.cooldownSeconds * 1000)
  {
    hide SpacingHolds, Called;
    if |calls| == 0 {
      EmptySpaced(config.cooldownSeconds * 1000);
    } else {
      RunKeepsSpacing(config, calls[..|calls| - 1]);
      CallKeepsSpacing(After(EMPTY, config, calls[..|calls| - 1]), config, calls[|calls| - 1]);
    }
  }

  /** Any clock that hurries breaks the spacing of some run: the same action on the same target too early. */
  lemma {:induction false} HurryingBreaksSpacing(readings: seq<int>, seconds: nat) returns (calls: seq<Call>)
    requires Hurries(readings, seconds * 1000)
    ensures After(EMPTY, Open(2, seconds), calls).readings == readings
    ensures !SpacedOut(After(EMPTY, Open(2, seconds), calls).log, seconds * 1000)
  {
    hide After;
    var h, i :| 1 <= h < i < |readings| - 1 && Hurry(readings, h, i, seconds * 1000);
    calls := TwoExecutions(readings, h, i + 1, 2, seconds, 1);
    var log := After(EMPTY, Open(2, seconds), calls).log;
    assert log[0].action == log[1].action && log[0].pid == log[1].pid;
  }

  /** A run of this configuration that reads these times keeps its distances. */
  ghost predicate RunsKeepSpacing(config: OnlinePolicyConfig, calls: seq<Call>, readings: seq<int>) {
    config == Clamped(config) && After(EMPTY, config, calls).readings == readings ==>
      SpacedOut(After(EMPTY, config, calls).log, config.cooldownSeconds * 1000)
  }

  /** The exact condition on the clock for the cooldown, for each length of it. */
  lemma {:induction false} CooldownCondition(readings: seq<int>, seconds: nat)
    requires 10 <= seconds <= 86400
    ensures !Hurries(readings, seconds * 1000) <==>
            forall config: OnlinePolicyConfig, calls | config.cooldownSeconds == seconds ::
              RunsKeepSpacing(config, calls, readings)
    ensures Steady(readings) ==> !Hurries(readings, seconds * 1000)
  {
    hide Hurries, SpacedOut, After, LedgerOk;
    if Hurries(readings, seconds * 1000) {
      var calls := HurryingBreaksSpacing(readings, seconds);
      OpenIsClamped(2, seconds);
      assert !RunsKeepSpacing(Open(2, seconds), calls, readings);
    } else {
      forall config: OnlinePolicyConfig, calls | config.cooldownSeconds == seconds
        ensures RunsKeepSpacing(config, calls, readings)
      {
        if config == Clamped(config) {
          RunKeepsSpacing(config, calls);
        }
      }
    }
    if Steady(readings) {
      SteadyNeverHurries(readings, seconds * 1000);
    }
  }

  lemma {:induction false} SteadyNeverHurries(readings: seq<int>, gapMs: int)
    requires Steady(readings)
    ensures !Hurries(readings, gapMs)
  {
  }

  // ----- the run that breaks the budget, on the controller itself -----

  /** What the first request of a run leaves behind. */
  lemma {:induction false} FirstRequest(t: int, p: nat)
    requires p != 0
    ensures Acted(EMPTY, ONE_AN_HOUR, Request(p), false, t, true, t)
            == Ledger([t], map[(LowerPriority, p) := t + 10000], [Execution(t, LowerPriority, p)], [1], [t, t])
  {
    RequestActs(EMPTY, 1, 10, p, t, t);
  }

  /** What a second one does at the same time, after an evaluation an hour later. */
  lemma {:induction false} SecondRequest(s: Ledger, t: int, p: nat, q: nat)
    requires p != 0 && q != 0 && s.history == [t] && s.cooldownUntil == map[(LowerPriority, p) := t + 10000]
    ensures Acted(Looked(s, t + HOUR_MS), ONE_AN_HOUR, Request(q), false, t, true, t).log
            == s.log + (if p == q then [] else [Execution(t, LowerPriority, q)])
  {
    PrunedOne(t, t + HOUR_MS);
    if p != q {
      RequestActs(Looked(s, t + HOUR_MS), 1, 10, q, t, t);
    }
  }

  lemma OneFits(e: Execution)
    ensures BudgetKept([e], 1)
  {
    forall start
      ensures CountWithin([e], start) <= 1
    {
      OneCounts((x: Execution) => start <= x.at < start + HOUR_MS, e);
    }
  }

  /**
   * One execution, one evaluation an hour later, then the clock is set back and a second execution is
   * asked for at the time of the first one. On the first target the cooldown refuses it. On another
   * target it is executed: two executions in one hour with a budget of one.
   */
  method SetBackAnHour(t: int, p: nat, q: nat) returns (controller: SafeOnlinePolicyController)
    requires p != 0 && q != 0
    ensures fresh(controller) && controller.Valid() && controller.config == ONE_AN_HOUR
    ensures controller.largestBudget == 1
    ensures controller.log
            == [Execution(t, LowerPriority, p)] + (if p == q then [] else [Execution(t, LowerPriority, q)])
    ensures BudgetKept(controller.log, 1) <==> p == q
  {
    hide Acted, Looked, Charged, MayExecute, BudgetKept, LedgerOk, Forgets, Spaced, Request;
    controller := new SafeOnlinePolicyController(ONE_AN_HOUR);
    OpenIsClamped(1, 10);
    FirstRequest(t, p);
    var first := controller.Execute(Request(p), false, t, true, t);
    SecondRequest(controller.View(), t, p, q);
    var seen := controller.Evaluate(Request(q), false, t + HOUR_MS);
    var second := controller.Execute(Request(q), false, t, true, t);
    if p == q {
      assert controller.log == [Execution(t, LowerPriority, p)];
      OneFits(Execution(t, LowerPriority, p));
    } else {
      assert controller.log == [Execution(t, LowerPriority, p), Execution(t, LowerPriority, q)];
      TwoInOneHour(Execution(t, LowerPriority, p), Execution(t, LowerPriority, q));
    }
  }
}
