/** The safe online policy: the gates before an action, its hourly budget and its per-target cooldown. */
module OnlinePolicies {
  import opened ResourceActions
  import opened Sequences
  import opened IntegerArithmetic

  const HOUR_MS: int := 3600000

  datatype OnlinePolicyConfig = OnlinePolicyConfig(
    onlineEnabled: bool,
    policyPromoted: bool,
    globalDisable: bool,
    requireApproval: bool,
    maximumActionsPerHour: int,
    cooldownSeconds: int,
    maximumActionSeconds: int,
    observationSeconds: int,
    minimumLowerConfidenceBenefit: real,
    minimumTargetSafety: real,
    maximumTargetCriticality: real)

  datatype OnlinePolicyInput = OnlinePolicyInput(
    wouldAct: bool,
    selectedAction: ResourceActionType,
    lowerConfidenceBound: real,
    executionEligible: bool,
    hardBlock: bool,
    targetSafety: real,
    targetCriticality: real,
    targetPid: nat,
    foregroundPid: nat,
    targetSystemCritical: bool,
    targetMatchesUserIntent: bool,
    userApproved: bool)

  datatype Decision =
    | Disabled
    | KillSwitch
    | NotPromoted
    | NoIntervention
    | BenefitTooSmall
    | DeterministicBlock
    | OutsideBoundary
    | TargetProtected
    | ApprovalMissing
    | BudgetExhausted
    | CooldownActive
    | Eligible

  /** One executed action, at the time it entered the history. */
  datatype Execution = Execution(at: int, action: ResourceActionType, pid: nat)

  /** Per action and target, the time at which it has cooled down. */
  type Cooldowns = map<(ResourceActionType, nat), int>

  function Clamped(config: OnlinePolicyConfig): OnlinePolicyConfig {
    var seconds := Clamp(config.maximumActionSeconds, 1, 300);
    config.(maximumActionsPerHour := Clamp(config.maximumActionsPerHour, 1, 20),
            cooldownSeconds := Clamp(config.cooldownSeconds, 10, 86400),
            maximumActionSeconds := seconds,
            observationSeconds := Clamp(config.observationSeconds, 1, seconds))
  }

  /** Everything an action must pass apart from the budget and the cooldown. */
  predicate GatesPass(config: OnlinePolicyConfig, input: OnlinePolicyInput, killSwitch: bool) {
    && config.onlineEnabled && !config.globalDisable && !killSwitch && config.policyPromoted
    && input.wouldAct && input.selectedAction != NoAction
    && input.lowerConfidenceBound > config.minimumLowerConfidenceBenefit
    && input.executionEligible && !input.hardBlock
    && input.targetSafety >= config.minimumTargetSafety
    && input.targetCriticality <= config.maximumTargetCriticality
    && input.targetPid != 0 && input.targetPid != input.foregroundPid
    && !input.targetSystemCritical && !input.targetMatchesUserIntent
    && (config.requireApproval ==> input.userApproved)
  }

  // ----- the promise -----

  ghost function CountWithin(log: seq<Execution>, start: int): nat {
    Count((e: Execution) => start <= e.at < start + HOUR_MS, log)
  }

  /** Every half-open window of one hour holds at most `budget` executions. */
  ghost predicate BudgetKept(log: seq<Execution>, budget: int) {
    forall start :: CountWithin(log, start) <= budget
  }

  ghost predicate SpacedOut(log: seq<Execution>, gapMs: int) {
    forall i, j | 0 <= i < j < |log| && log[i].action == log[j].action && log[i].pid == log[j].pid ::
      log[j].at - log[i].at >= gapMs
  }

  /** The executions of the hour up to `now`. */
  ghost function Recent(log: seq<Execution>, now: int): nat {
    Count((e: Execution) => now - e.at < HOUR_MS, log)
  }

  lemma {:induction false} RecentIsSuffix(log: seq<Execution>, now: int, k: nat)
    requires k <= |log|
    requires forall i | 0 <= i < |log| - k :: now - log[i].at >= HOUR_MS
    requires forall i | |log| - k <= i < |log| :: now - log[i].at < HOUR_MS
    ensures Recent(log, now) == k
  {
    hide Count;
    var recent := (e: Execution) => now - e.at < HOUR_MS;
    var aged, young := log[..|log| - k], log[|log| - k..];
    assert log == aged + young;
    CountAppends(recent, aged, young);
    CountNone(recent, aged);
    CountAll(recent, young);
  }

  /** Pruning stops at the first entry that is less than an hour old. */
  function Pruned(history: seq<int>, now: int): seq<int> {
    if |history| > 0 && now - history[0] >= HOUR_MS then Pruned(history[1..], now) else history
  }

  /** Pruning twice at the same time is pruning once. */
  lemma {:induction false} PrunedOnce(history: seq<int>, now: int)
    ensures Pruned(Pruned(history, now), now) == Pruned(history, now)
  {
    if |history| > 0 && now - history[0] >= HOUR_MS {
      PrunedOnce(history[1..], now);
    }
  }

  lemma {:induction false} PrunedOne(at: int, now: int)
    ensures Pruned([at], now) == if now - at >= HOUR_MS then [] else [at]
  {
    assert [at][1..] == [];
  }

  /** Of two readings in a row, the first one leaves no mark exactly when the clock did not go back. */
  lemma {:induction false} PruningComposes(c1: int, c2: int)
    ensures c1 <= c2 <==> forall h: seq<int> :: Pruned(Pruned(h, c1), c2) == Pruned(h, c2)
  {
    if c1 <= c2 {
      forall h: seq<int>
        ensures Pruned(Pruned(h, c1), c2) == Pruned(h, c2)
      {
        EarlierPruning(h, c1, c2);
      }
    } else {
      var at := c2 - HOUR_MS + 1;
      PrunedOne(at, c1);
      PrunedOne(at, c2);
      assert Pruned(Pruned([at], c1), c2) != Pruned([at], c2);
    }
  }

  lemma {:induction false} EarlierPruning(history: seq<int>, c1: int, c2: int)
    requires c1 <= c2
    ensures Pruned(Pruned(history, c1), c2) == Pruned(history, c2)
  {
    if |history| > 0 && c1 - history[0] >= HOUR_MS {
      EarlierPruning(history[1..], c1, c2);
    }
  }

  /** Everything that an execution needs: the gates, room in the hour's budget, and an expired cooldown. */
  ghost predicate MayExecute(config: OnlinePolicyConfig, history: seq<int>, cooldownUntil: Cooldowns,
                             input: OnlinePolicyInput, killSwitch: bool, now: int)
  {
    && GatesPass(config, input, killSwitch)
    && |Pruned(history, now)| < config.maximumActionsPerHour
    && ((input.selectedAction, input.targetPid) in cooldownUntil ==>
          cooldownUntil[(input.selectedAction, input.targetPid)] <= now)
  }

  // ----- the ledger: what is kept, and everything that happened -----

  /**
   * The history and the cooldowns that the controller keeps, every execution so far, every reading of
   * the clock, and for each execution which reading it is stamped with.
   */
  datatype Ledger = Ledger(
    history: seq<int>,
    cooldownUntil: Cooldowns,
    log: seq<Execution>,
    stamps: seq<nat>,
    readings: seq<int>)

  const EMPTY := Ledger([], map[], [], [], [])

  function Looked(s: Ledger, now: int): Ledger {
    s.(history := Pruned(s.history, now), readings := s.readings + [now])
  }

  function Charged(s: Ledger, e: Execution, until: int): Ledger {
    s.(history := s.history + [e.at], cooldownUntil := s.cooldownUntil[(e.action, e.pid) := until], log := s.log + [e],
       stamps := s.stamps + [|s.readings|], readings := s.readings + [e.at])
  }

  /** An entry of the log that is no longer in the history. */
  ghost predicate Forgotten(s: Ledger, k: nat)
    requires k < |s.log| == |s.stamps|
  {
    exists i :: s.stamps[k] < i < |s.readings| && s.readings[i] - s.log[k].at >= HOUR_MS
  }

  /**
   * On any clock: the history is the tail of the log, and what was dropped from it was an hour old at
   * some later reading.
   */
  ghost predicate LedgerOk(s: Ledger) {
    && |s.stamps| == |s.log| && |s.history| <= |s.log|
    && (forall i, j | 0 <= i < j < |s.log| :: s.stamps[i] < s.stamps[j])
    && (forall k | 0 <= k < |s.log| :: 1 <= s.stamps[k] < |s.readings| && s.readings[s.stamps[k]] == s.log[k].at)
    && (forall i | 0 <= i < |s.history| :: s.history[i] == s.log[|s.log| - |s.history| + i].at)
    && (forall k | 0 <= k < |s.log| - |s.history| :: Forgotten(s, k))
  }

  /** What is forgotten stays forgotten: nothing is taken back from the log, the stamps or the readings. */
  lemma {:induction false} ForgottenStays(s: Ledger, s': Ledger, k: nat)
    requires k < |s.log| == |s.stamps| && |s'.log| == |s'.stamps| && Forgotten(s, k)
    requires s.log <= s'.log && s.stamps <= s'.stamps && s.readings <= s'.readings
    ensures Forgotten(s', k)
  {
    var i :| s.stamps[k] < i < |s.readings| && s.readings[i] - s.log[k].at >= HOUR_MS;
    assert s'.readings[i] - s'.log[k].at >= HOUR_MS;
  }

  lemma {:induction false} ReadOnce(s: Ledger, now: int)
    requires LedgerOk(s)
    ensures LedgerOk(s.(readings := s.readings + [now]))
    ensures forall k | 0 <= k < |s.log| :: s.stamps[k] < |s.readings|
  {
    hide Forgotten;
    var s' := s.(readings := s.readings + [now]);
    forall k | 0 <= k < |s.log| - |s.history|
      ensures Forgotten(s', k)
    {
      ForgottenStays(s, s', k);
    }
  }

  /** The last reading is that of the pruning, and nothing is stamped with it. */
  ghost predicate ReadAt(s: Ledger, now: int) {
    && |s.readings| > 0 && s.readings[|s.readings| - 1] == now
    && forall k | 0 <= k < |s.stamps| :: s.stamps[k] < |s.readings| - 1
  }

  lemma {:induction false} DropAged(s: Ledger, now: int)
    requires LedgerOk(s) && ReadAt(s, now) && |s.history| > 0 && now - s.history[0] >= HOUR_MS
    ensures LedgerOk(s.(history := s.history[1..]))
  {
    var s' := s.(history := s.history[1..]);
    forall k | 0 <= k < |s.log| - |s'.history|
      ensures Forgotten(s', k)
    {
      if k == |s.log| - |s.history| {
        assert s.history[0] == s.log[k].at;
        assert s'.stamps[k] < |s.readings| - 1 && s'.readings[|s.readings| - 1] - s'.log[k].at >= HOUR_MS;
      } else {
        ForgottenStays(s, s', k);
      }
    }
  }

  lemma {:induction false} PruneKeepsLedger(s: Ledger, now: int)
    requires LedgerOk(s) && ReadAt(s, now)
    ensures LedgerOk(s.(history := Pruned(s.history, now)))
    decreases |s.history|
  {
    hide LedgerOk, ReadAt;
    if |s.history| > 0 && now - s.history[0] >= HOUR_MS {
      DropAged(s, now);
      SameReading(s, s.(history := s.history[1..]), now);
      PruneKeepsLedger(s.(history := s.history[1..]), now);
    } else {
      assert s.(history := Pruned(s.history, now)) == s;
    }
  }

  lemma {:induction false} SameReading(s: Ledger, s': Ledger, now: int)
    requires ReadAt(s, now) && s'.stamps == s.stamps && s'.readings == s.readings
    ensures ReadAt(s', now)
  {
  }

  lemma {:induction false} LookKeepsLedger(s: Ledger, now: int)
    requires LedgerOk(s)
    ensures LedgerOk(Looked(s, now)) && ReadAt(s.(readings := s.readings + [now]), now)
  {
    ReadOnce(s, now);
    PruneKeepsLedger(s.(readings := s.readings + [now]), now);
  }

  lemma {:induction false} ChargeKeepsLedger(s: Ledger, e: Execution, until: int)
    requires LedgerOk(s) && |s.readings| > 0
    ensures LedgerOk(Charged(s, e, until))
  {
    hide Forgotten;
    ReadOnce(s, e.at);
    var s' := Charged(s, e, until);
    forall k | 0 <= k < |s'.log| - |s'.history|
      ensures Forgotten(s', k)
    {
      ForgottenStays(s, s', k);
    }
  }

  // ----- the clock and the budget -----

  /**
   * A reading an hour or more past an execution, and after it one within an hour of that execution: the
   * history has forgotten what the budget still has to count. The first reading is that of a check.
   */
  ghost predicate Forgets(readings: seq<int>) {
    exists h, i, j :: 1 <= h < i < j < |readings| && Lapse(readings, h, i, j)
  }

  ghost predicate Lapse(readings: seq<int>, h: nat, i: nat, j: nat)
    requires h < |readings| && i < |readings| && j < |readings|
  {
    readings[i] - readings[h] >= HOUR_MS && -HOUR_MS < readings[j] - readings[h] < HOUR_MS
  }

  ghost predicate Steady(readings: seq<int>) {
    forall i, j | 0 <= i <= j < |readings| :: readings[i] <= readings[j]
  }

  lemma {:induction false} SteadyForgetsNothing(readings: seq<int>)
    requires Steady(readings)
    ensures !Forgets(readings)
  {
  }

  lemma {:induction false} ForgetsLater(readings: seq<int>, now: int)
    requires Forgets(readings)
    ensures Forgets(readings + [now])
  {
    var more := readings + [now];
    var h, i, j :| 1 <= h < i < j < |readings| && Lapse(readings, h, i, j);
    assert Lapse(more, h, i, j);
  }

  /** As long as nothing that counts is forgotten, an execution that found room in the history keeps the budget. */
  lemma {:induction false} ChargeKeepsBudget(s: Ledger, e: Execution, budget: int)
    requires LedgerOk(s) && BudgetKept(s.log, budget) && |s.history| < budget && !Forgets(s.readings + [e.at])
    ensures BudgetKept(s.log + [e], budget)
  {
    hide LedgerOk, Count;
    forall start
      ensures CountWithin(s.log + [e], start) <= budget
    {
      var within := (x: Execution) => start <= x.at < start + HOUR_MS;
      CountAppends(within, s.log, [e]);
      assert Count(within, s.log) == CountWithin(s.log, start);
      if within(e) {
        WindowIsInHistory(s, e, start);
        OneCounts(within, e);
      } else {
        CountNone(within, [e]);
      }
    }
  }

  lemma OneCounts(p: Execution -> bool, e: Execution)
    ensures Count(p, [e]) <= 1
  {
  }

  lemma {:induction false} WindowIsInHistory(s: Ledger, e: Execution, start: int)
    requires LedgerOk(s) && !Forgets(s.readings + [e.at]) && start <= e.at < start + HOUR_MS
    ensures CountWithin(s.log, start) <= |s.history|
  {
    hide Count, Forgets;
    var within := (x: Execution) => start <= x.at < start + HOUR_MS;
    var n := |s.log| - |s.history|;
    assert s.log == s.log[..n] + s.log[n..];
    CountAppends(within, s.log[..n], s.log[n..]);
    forall k | 0 <= k < n
      ensures !within(s.log[..n][k])
    {
      ForgottenIsFar(s, e, k);
    }
    CountNone(within, s.log[..n]);
  }

  lemma {:induction false} ForgottenIsFar(s: Ledger, e: Execution, k: nat)
    requires LedgerOk(s) && !Forgets(s.readings + [e.at]) && k < |s.log| - |s.history|
    ensures !(-HOUR_MS < e.at - s.log[k].at < HOUR_MS)
  {
    var more := s.readings + [e.at];
    assert Forgotten(s, k);
    var i :| s.stamps[k] < i < |s.readings| && s.readings[i] - s.log[k].at >= HOUR_MS;
    assert !Lapse(more, s.stamps[k], i, |s.readings|);
  }

  ghost predicate BudgetHolds(s: Ledger, budget: int) {
    LedgerOk(s) && (!Forgets(s.readings) ==> BudgetKept(s.log, budget))
  }

  lemma {:induction false} EmptyHolds(budget: nat)
    ensures BudgetHolds(EMPTY, budget)
  {
    assert BudgetKept([], 0);
  }

  lemma {:induction false} LookKeepsBudget(s: Ledger, now: int, budget: int)
    requires BudgetHolds(s, budget)
    ensures BudgetHolds(Looked(s, now), budget)
  {
    hide LedgerOk, Forgets, BudgetKept, Pruned;
    LookKeepsLedger(s, now);
    if Forgets(s.readings) {
      ForgetsLater(s.readings, now);
    }
  }

  lemma {:induction false} ChargeKeepsHolding(s: Ledger, e: Execution, until: int, budget: int)
    requires BudgetHolds(s, budget) && |s.readings| > 0 && |s.history| < budget
    ensures BudgetHolds(Charged(s, e, until), budget)
  {
    hide LedgerOk, Forgets, BudgetKept;
    ChargeKeepsLedger(s, e, until);
    if Forgets(s.readings) {
      ForgetsLater(s.readings, e.at);
    }
    if !Forgets(s.readings + [e.at]) {
      ChargeKeepsBudget(s, e, budget);
    }
  }

  /** A check of the gates, and where it passes and the action begins, its charge. */
  ghost function Acted(s: Ledger, config: OnlinePolicyConfig, input: OnlinePolicyInput, killSwitch: bool,
                       checkedAt: int, began: bool, executedAt: int): Ledger
  {
    if MayExecute(config, s.history, s.cooldownUntil, input, killSwitch, checkedAt) && began
    then Charged(Looked(s, checkedAt), Execution(executedAt, input.selectedAction, input.targetPid),
                 executedAt + config.cooldownSeconds * 1000)
    else Looked(s, checkedAt)
  }

  /** On a steady clock a freshly pruned history is the last hour of the log. */
  lemma {:induction false} HistoryIsRecent(s: Ledger, now: int)
    requires LedgerOk(s) && Steady(s.readings) && |s.readings| > 0 && s.readings[|s.readings| - 1] == now
    requires |s.history| > 0 ==> now - s.history[0] < HOUR_MS
    ensures |s.history| == Recent(s.log, now)
  {
    hide Recent;
    var n := |s.log| - |s.history|;
    forall k | 0 <= k < n
      ensures now - s.log[k].at >= HOUR_MS
    {
      assert Forgotten(s, k);
    }
    forall k | n <= k < |s.log|
      ensures now - s.log[k].at < HOUR_MS
    {
      assert s.history[0] == s.log[n].at;
      assert k > n ==> s.stamps[n] < s.stamps[k];
    }
    RecentIsSuffix(s.log, now, |s.history|);
  }

  lemma {:induction false} PrunedIsYoung(history: seq<int>, now: int)
    ensures |Pruned(history, now)| > 0 ==> now - Pruned(history, now)[0] < HOUR_MS
  {
    if |history| > 0 && now - history[0] >= HOUR_MS {
      PrunedIsYoung(history[1..], now);
    }
  }

  // ----- the cooldowns -----

  /** Every execution is covered: its target is cooling down at least until the gap after it is over. */
  ghost predicate CooldownsCover(cooldownUntil: Cooldowns, log: seq<Execution>, gapMs: int) {
    forall i | 0 <= i < |log| ::
      (log[i].action, log[i].pid) in cooldownUntil && log[i].at + gapMs <= cooldownUntil[(log[i].action, log[i].pid)]
  }

  ghost predicate Spaced(cooldownUntil: Cooldowns, log: seq<Execution>, gapMs: int) {
    CooldownsCover(cooldownUntil, log, gapMs) && SpacedOut(log, gapMs)
  }

  /** An execution at a distance from the earlier ones on its target keeps the spacing, in any order of times. */
  lemma {:induction false} DistanceKeepsSpacing(cooldownUntil: Cooldowns, log: seq<Execution>, gapMs: nat, e: Execution,
                                                until: int)
    requires Spaced(cooldownUntil, log, gapMs) && e.at + gapMs <= until
    requires forall i | 0 <= i < |log| && log[i].action == e.action && log[i].pid == e.pid :: log[i].at + gapMs <= e.at
    ensures Spaced(cooldownUntil[(e.action, e.pid) := until], log + [e], gapMs)
  {
  }

  /**
   * The cooldown asks less of the clock than the budget: it is enough that a charge reads no earlier than
   * its own check, whatever the clock did before.
   */
  lemma {:induction false} ChargeKeepsSpacing(cooldownUntil: Cooldowns, log: seq<Execution>, gapMs: nat, e: Execution,
                                              checkedAt: int, until: int)
    requires Spaced(cooldownUntil, log, gapMs) && e.at + gapMs <= until
    requires (e.action, e.pid) in cooldownUntil ==> cooldownUntil[(e.action, e.pid)] <= checkedAt
    requires checkedAt <= e.at
    ensures Spaced(cooldownUntil[(e.action, e.pid) := until], log + [e], gapMs)
  {
    DistanceKeepsSpacing(cooldownUntil, log, gapMs, e, until);
  }

  // ----- the controller -----

  /**
   * Within budget on a clock that forgets nothing, and spaced out per target as long as every charge read
   * no earlier than its own check.
   */
  ghost predicate PromiseHolds(s: Ledger, fair: bool, budget: nat, cooldownSeconds: nat) {
    BudgetHolds(s, budget) && (fair ==> Spaced(s.cooldownUntil, s.log, cooldownSeconds * 1000))
  }

  lemma {:induction false} ChargeKeepsPromise(s: Ledger, e: Execution, until: int, fair: bool, budget: nat,
                                              cooldownSeconds: nat)
    requires PromiseHolds(s, fair, budget, cooldownSeconds) && |s.readings| > 0
    requires |s.history| < budget && e.at + cooldownSeconds * 1000 <= until
    requires (e.action, e.pid) in s.cooldownUntil ==>
               s.cooldownUntil[(e.action, e.pid)] <= s.readings[|s.readings| - 1]
    ensures PromiseHolds(Charged(s, e, until), fair && s.readings[|s.readings| - 1] <= e.at, budget, cooldownSeconds)
  {
    hide BudgetHolds, Spaced;
    ChargeKeepsHolding(s, e, until, budget);
    if fair && s.readings[|s.readings| - 1] <= e.at {
      ChargeKeepsSpacing(s.cooldownUntil, s.log, cooldownSeconds * 1000, e, s.readings[|s.readings| - 1], until);
    }
  }

  lemma {:induction false} LooserPromise(cooldownUntil: Cooldowns, log: seq<Execution>, budget: int, looserBudget: int,
                                         gapMs: int, smallerGapMs: int)
    requires budget <= looserBudget && smallerGapMs <= gapMs
    ensures BudgetKept(log, budget) ==> BudgetKept(log, looserBudget)
    ensures Spaced(cooldownUntil, log, gapMs) ==> Spaced(cooldownUntil, log, smallerGapMs)
  {
    hide CountWithin;
  }

  class SafeOnlinePolicyController {
    var config: OnlinePolicyConfig
    var actionHistory: seq<int>
    var cooldownUntil: Cooldowns
    // the rest of the ledger, whether every charge read no earlier than its check, and the loosest limits used
    ghost var log: seq<Execution>
    ghost var stamps: seq<nat>
    ghost var readings: seq<int>
    ghost var fair: bool
    ghost var largestBudget: nat
    ghost var smallestCooldown: nat

    ghost function View(): Ledger
      reads this
    {
      Ledger(actionHistory, cooldownUntil, log, stamps, readings)
    }

    ghost predicate LimitsOk()
      reads `config, `largestBudget, `smallestCooldown
    {
      && config == Clamped(config)
      && config.maximumActionsPerHour <= largestBudget
      && smallestCooldown <= config.cooldownSeconds
    }

    ghost predicate Valid()
      reads this
    {
      LimitsOk() && PromiseHolds(View(), fair, largestBudget, smallestCooldown)
    }

    constructor (config: OnlinePolicyConfig)
      ensures Valid() && View() == EMPTY && fair && this.config == Clamped(config)
      ensures largestBudget == this.config.maximumActionsPerHour && smallestCooldown == this.config.cooldownSeconds
    {
      this.config := Clamped(config);
      actionHistory, cooldownUntil := [], map[];
      log, stamps, readings, fair := [], [], [], true;
      largestBudget, smallestCooldown := Clamped(config).maximumActionsPerHour, Clamped(config).cooldownSeconds;
      new;
      EmptyHolds(largestBudget);
    }

    /** Reconfiguration keeps the promise at the loosest limits used so far. */
    method Configure(config: OnlinePolicyConfig)
      requires Valid()
      modifies this`config, this`largestBudget, this`smallestCooldown
      ensures Valid() && this.config == Clamped(config)
      ensures this.config == config.(maximumActionsPerHour := this.config.maximumActionsPerHour,
                                     cooldownSeconds := this.config.cooldownSeconds,
                                     maximumActionSeconds := this.config.maximumActionSeconds,
                                     observationSeconds := this.config.observationSeconds)
      ensures 1 <= this.config.maximumActionsPerHour <= 20 && 10 <= this.config.cooldownSeconds <= 86400
      ensures 1 <= this.config.observationSeconds <= this.config.maximumActionSeconds <= 300
      ensures (&& 1 <= config.maximumActionsPerHour <= 20 && 10 <= config.cooldownSeconds <= 86400
               && 1 <= config.observationSeconds <= config.maximumActionSeconds <= 300) ==> this.config == config
      ensures largestBudget == Max(this.config.maximumActionsPerHour, old(largestBudget))
      ensures smallestCooldown == Min(this.config.cooldownSeconds, old(smallestCooldown))
    {
      hide LedgerOk, Forgets, BudgetKept, Spaced;
      this.config := Clamped(config);
      LooserPromise(cooldownUntil, log, largestBudget, Max(this.config.maximumActionsPerHour, largestBudget),
                    smallestCooldown * 1000, Min(this.config.cooldownSeconds, smallestCooldown) * 1000);
      largestBudget := Max(this.config.maximumActionsPerHour, largestBudget);
      smallestCooldown := Min(this.config.cooldownSeconds, smallestCooldown);
    }

    method PruneBudget(now: int)
      modifies this`actionHistory
      ensures actionHistory == Pruned(old(actionHistory), now)
      ensures var dropped := |old(actionHistory)| - |actionHistory|;
              && 0 <= dropped && actionHistory == old(actionHistory)[dropped..]
              && (forall i | 0 <= i < dropped :: now - old(actionHistory)[i] >= 3600000)
              && (|actionHistory| > 0 ==> now - actionHistory[0] < 3600000)
    {
      while |actionHistory| > 0 && now - actionHistory[0] >= HOUR_MS
        invariant |actionHistory| <= |old(actionHistory)|
        invariant actionHistory == old(actionHistory)[|old(actionHistory)| - |actionHistory|..]
        invariant forall i | 0 <= i < |old(actionHistory)| - |actionHistory| :: now - old(actionHistory)[i] >= HOUR_MS
        invariant Pruned(actionHistory, now) == Pruned(old(actionHistory), now)
        decreases |actionHistory|
      {
        actionHistory := actionHistory[1..];
      }
    }

    /** The clock is read at `now`. */
    ghost method Look(now: int)
      requires Valid()
      modifies this`readings
      ensures readings == old(readings) + [now]
      ensures BudgetHolds(Looked(old(View()), now), largestBudget)
      ensures Steady(readings) ==> |Pruned(actionHistory, now)| == Recent(log, now)
    {
      hide LedgerOk, Forgets, BudgetKept, Spaced, Pruned, Recent, Steady, LimitsOk;
      LookKeepsBudget(View(), now, largestBudget);
      readings := readings + [now];
      PrunedIsYoung(actionHistory, now);
      if Steady(readings) {
        HistoryIsRecent(Looked(old(View()), now), now);
      }
    }

    /** The gates apart from budget and cooldown, in the order in which they are checked. */
    static method CheckGates(config: OnlinePolicyConfig, input: OnlinePolicyInput, killSwitch: bool)
      returns (decision: Decision)
      ensures decision == Eligible <==> GatesPass(config, input, killSwitch)
      ensures !decision.BudgetExhausted? && !decision.CooldownActive?
      ensures decision.Disabled? <==> !config.onlineEnabled || config.globalDisable
      ensures decision.KillSwitch? <==>
              && !decision.Disabled?
              && killSwitch
      ensures decision.NotPromoted? <==>
              && !decision.Disabled? && !decision.KillSwitch?
              && !config.policyPromoted
      ensures decision.NoIntervention? <==>
              && !decision.Disabled? && !decision.KillSwitch? && !decision.NotPromoted?
              && (!input.wouldAct || input.selectedAction == NoAction)
      ensures decision.BenefitTooSmall? <==>
              && !decision.Disabled? && !decision.KillSwitch? && !decision.NotPromoted? && !decision.NoIntervention?
              && input.lowerConfidenceBound <= config.minimumLowerConfidenceBenefit
      ensures decision.DeterministicBlock? <==>
              && !decision.Disabled? && !decision.KillSwitch? && !decision.NotPromoted? && !decision.NoIntervention?
              && !decision.BenefitTooSmall?
              && (!input.executionEligible || input.hardBlock)
      ensures decision.OutsideBoundary? <==>
              && !decision.Disabled? && !decision.KillSwitch? && !decision.NotPromoted? && !decision.NoIntervention?
              && !decision.BenefitTooSmall? && !decision.DeterministicBlock?
              && (input.targetSafety < config.minimumTargetSafety
                  || input.targetCriticality > config.maximumTargetCriticality)
      ensures decision.TargetProtected? <==>
              && !decision.Disabled? && !decision.KillSwitch? && !decision.NotPromoted? && !decision.NoIntervention?
              && !decision.BenefitTooSmall? && !decision.DeterministicBlock? && !decision.OutsideBoundary?
              && (input.targetPid == 0 || input.targetPid == input.foregroundPid || input.targetSystemCritical
                  || input.targetMatchesUserIntent)
      ensures decision.ApprovalMissing? <==>
              && !decision.Disabled? && !decision.KillSwitch? && !decision.NotPromoted? && !decision.NoIntervention?
              && !decision.BenefitTooSmall? && !decision.DeterministicBlock? && !decision.OutsideBoundary?
              && !decision.TargetProtected?
              && config.requireApproval && !input.userApproved
    {
      if !config.onlineEnabled || config.globalDisable {
        return Disabled;
      }
      if killSwitch {
        return KillSwitch;
      }
      if !config.policyPromoted {
        return NotPromoted;
      }
      if !input.wouldAct || input.selectedAction == NoAction {
        return NoIntervention;
      }
      if input.lowerConfidenceBound <= config.minimumLowerConfidenceBenefit {
        return BenefitTooSmall;
      }
      if !input.executionEligible || input.hardBlock {
        return DeterministicBlock;
      }
      if input.targetSafety < config.minimumTargetSafety || input.targetCriticality > config.maximumTargetCriticality {
        return OutsideBoundary;
      }
      if input.targetPid == 0 || input.targetPid == input.foregroundPid ||
         input.targetSystemCritical || input.targetMatchesUserIntent {
        return TargetProtected;
      }
      if config.requireApproval && !input.userApproved {
        return ApprovalMissing;
      }
      return Eligible;
    }

    /** The first locked section of an evaluation. */
    method LookAndPrune(now: int)
      requires Valid()
      modifies this`actionHistory, this`readings
      ensures Valid() && View() == Looked(old(View()), now)
      ensures Steady(readings) ==> |actionHistory| == Recent(log, now)
    {
      hide BudgetHolds, Spaced, Recent, Pruned, Steady;
      Look(now);
      PruneBudget(now);
    }

    /** The second one: pruning again finds nothing more to drop. */
    method CheckRoom(action: ResourceActionType, pid: nat, now: int) returns (decision: Decision)
      requires Pruned(actionHistory, now) == actionHistory
      modifies this`actionHistory
      ensures actionHistory == old(actionHistory)
      ensures decision.BudgetExhausted? || decision.CooldownActive? || decision.Eligible?
      ensures decision.BudgetExhausted? <==> |actionHistory| >= config.maximumActionsPerHour
      ensures decision.CooldownActive? <==>
              && |actionHistory| < config.maximumActionsPerHour
              && (action, pid) in cooldownUntil && cooldownUntil[(action, pid)] > now
    {
      hide Pruned;
      PruneBudget(now);
      if |actionHistory| >= config.maximumActionsPerHour {
        return BudgetExhausted;
      }
      var key := (action, pid);
      if key in cooldownUntil && cooldownUntil[key] > now {
        return CooldownActive;
      }
      return Eligible;
    }

    method Evaluate(input: OnlinePolicyInput, killSwitch: bool, now: int) returns (decision: Decision)
      requires Valid()
      modifies this`actionHistory, this`readings
      ensures Valid() && View() == Looked(old(View()), now)
      ensures Steady(readings) ==> |actionHistory| == Recent(log, now)
      ensures decision == Eligible <==> MayExecute(config, old(actionHistory), cooldownUntil, input, killSwitch, now)
      ensures decision.Disabled? <==> !config.onlineEnabled || config.globalDisable
      ensures decision.KillSwitch? <==>
              && !decision.Disabled?
              && killSwitch
      ensures decision.NotPromoted? <==>
              && !decision.Disabled? && !decision.KillSwitch?
              && !config.policyPromoted
      ensures decision.NoIntervention? <==>
              && !decision.Disabled? && !decision.KillSwitch? && !decision.NotPromoted?
              && (!input.wouldAct || input.selectedAction == NoAction)
      ensures decision.BenefitTooSmall? <==>
              && !decision.Disabled? && !decision.KillSwitch? && !decision.NotPromoted? && !decision.NoIntervention?
              && input.lowerConfidenceBound <= config.minimumLowerConfidenceBenefit
      ensures decision.DeterministicBlock? <==>
              && !decision.Disabled? && !decision.KillSwitch? && !decision.NotPromoted? && !decision.NoIntervention?
              && !decision.BenefitTooSmall?
              && (!input.executionEligible || input.hardBlock)
      ensures decision.OutsideBoundary? <==>
              && !decision.Disabled? && !decision.KillSwitch? && !decision.NotPromoted? && !decision.NoIntervention?
              && !decision.BenefitTooSmall? && !decision.DeterministicBlock?
              && (input.targetSafety < config.minimumTargetSafety
                  || input.targetCriticality > config.maximumTargetCriticality)
      ensures decision.TargetProtected? <==>
              && !decision.Disabled? && !decision.KillSwitch? && !decision.NotPromoted? && !decision.NoIntervention?
              && !decision.BenefitTooSmall? && !decision.DeterministicBlock? && !decision.OutsideBoundary?
              && (input.targetPid == 0 || input.targetPid == input.foregroundPid || input.targetSystemCritical
                  || input.targetMatchesUserIntent)
      ensures decision.ApprovalMissing? <==>
              && !decision.Disabled? && !decision.KillSwitch? && !decision.NotPromoted? && !decision.NoIntervention?
              && !decision.BenefitTooSmall? && !decision.DeterministicBlock? && !decision.OutsideBoundary?
              && !decision.TargetProtected?
              && config.requireApproval && !input.userApproved
      ensures decision.BudgetExhausted? <==>
              && (decision.BudgetExhausted? || decision.CooldownActive? || decision.Eligible?)
              && |actionHistory| >= config.maximumActionsPerHour
      ensures decision.CooldownActive? <==>
              && (decision.CooldownActive? || decision.Eligible?)
              && (input.selectedAction, input.targetPid) in cooldownUntil
              && cooldownUntil[(input.selectedAction, input.targetPid)] > now
    {
      hide PromiseHolds, LimitsOk, Recent, Pruned, Steady, GatesPass;
      PrunedOnce(actionHistory, now);
      LookAndPrune(now);
      decision := CheckGates(config, input, killSwitch);
      if decision.Eligible? {
        decision := CheckRoom(input.selectedAction, input.targetPid, now);
      }
    }

    /** The budget is checked at `checkedAt` and charged at `executedAt`, another reading of the clock. */
    method Execute(input: OnlinePolicyInput, killSwitch: bool, checkedAt: int, began: bool, executedAt: int)
      returns (decision: Decision)
      requires Valid()
      modifies this`actionHistory, this`cooldownUntil, this`log, this`stamps, this`readings, this`fair
      ensures Valid() && View() == Acted(old(View()), config, input, killSwitch, checkedAt, began, executedAt)
      ensures decision == Eligible <==>
              MayExecute(config, old(actionHistory), old(cooldownUntil), input, killSwitch, checkedAt)
      ensures decision == Eligible ==>
          && config.onlineEnabled && !config.globalDisable && !killSwitch && config.policyPromoted
          && input.wouldAct && input.selectedAction != NoAction
          && input.lowerConfidenceBound > config.minimumLowerConfidenceBenefit
          && input.executionEligible && !input.hardBlock
          && input.targetSafety >= config.minimumTargetSafety
          && input.targetCriticality <= config.maximumTargetCriticality
          && input.targetPid !in {0, input.foregroundPid}
          && !input.targetSystemCritical && !input.targetMatchesUserIntent
          && (config.requireApproval ==> input.userApproved)
      ensures decision == Eligible && began ==>
          && log == old(log) + [Execution(executedAt, input.selectedAction, input.targetPid)]
          && cooldownUntil == old(cooldownUntil)[(input.selectedAction, input.targetPid) :=
                                                   executedAt + config.cooldownSeconds * 1000]
      ensures decision != Eligible || !began ==> log == old(log) && cooldownUntil == old(cooldownUntil)
      ensures decision == Eligible && Steady(old(readings) + [checkedAt]) ==>
              Recent(old(log), checkedAt) < config.maximumActionsPerHour
      ensures fair == (old(fair) && (decision == Eligible && began ==> checkedAt <= executedAt))
    {
      hide Valid, GatesPass, Recent, Pruned, Steady;
      decision := Evaluate(input, killSwitch, checkedAt);
      if decision == Eligible && began {
        Charge(input.selectedAction, input.targetPid, executedAt);
      }
    }

    method Charge(action: ResourceActionType, pid: nat, now: int)
      requires Valid() && |readings| > 0
      requires |actionHistory| < config.maximumActionsPerHour
      requires (action, pid) in cooldownUntil ==> cooldownUntil[(action, pid)] <= readings[|readings| - 1]
      modifies this`actionHistory, this`cooldownUntil, this`log, this`stamps, this`readings, this`fair
      ensures Valid()
      ensures View() == Charged(old(View()), Execution(now, action, pid), now + config.cooldownSeconds * 1000)
      ensures fair == (old(fair) && old(readings[|readings| - 1]) <= now)
    {
      hide PromiseHolds, Clamped;
      ghost var e := Execution(now, action, pid);
      var until := now + config.cooldownSeconds * 1000;
      ChargeKeepsPromise(View(), e, until, fair, largestBudget, smallestCooldown);
      fair := fair && readings[|readings| - 1] <= now;
      log, stamps, readings := log + [e], stamps + [|readings|], readings + [now];
      actionHistory := actionHistory + [now];
      cooldownUntil := cooldownUntil[(action, pid) := until];
    }
  }
}
