/** Live processes, and the executor that captures, changes and restores their settings. */
module ProcessWorld {
  import opened ResourceActions

  /** A process instance; a reused pid gets a new creation time. */
  datatype Identity = Identity(pid: nat, creationTime: nat, executablePath: string)

  datatype Settings = Settings(priorityClass: nat, memoryPriority: nat, powerControlMask: nat, powerStateMask: nat)

  datatype Process = Process(identity: Identity, settings: Settings)

  type World = map<nat, Process>

  datatype OriginalState = OriginalState(
    settings: Settings,
    priorityCaptured: bool,
    memoryPriorityCaptured: bool,
    powerThrottlingCaptured: bool)

  datatype Transaction = Transaction(
    action: ResourceActionType,
    identity: Identity,
    original: OriginalState,
    startedAtMs: int,
    expiresAtMs: int)

  datatype RollbackOutcome = Restored | AlreadyExited | RollbackError

  const IDLE_PRIORITY_CLASS: nat := 0x40
  const BELOW_NORMAL_PRIORITY_CLASS: nat := 0x4000
  const LOW_MEMORY_PRIORITY: nat := 2
  const EXECUTION_SPEED: nat := 1

  // ----- identities -----

  function NormalizeChar(c: char): char {
    if c == '/' then '\\' else if 'A' <= c <= 'Z' then c - 'A' + 'a' else c
  }

  function NormalizePath(path: string): string {
    seq(|path|, i requires 0 <= i < |path| => NormalizeChar(path[i]))
  }

  predicate SameIdentity(expected: Identity, actual: Identity) {
    && expected.pid == actual.pid
    && expected.creationTime == actual.creationTime
    && NormalizePath(expected.executablePath) == NormalizePath(actual.executablePath)
  }

  /** The process instance captured as `identity` is still running. */
  predicate Live(w: World, identity: Identity) {
    identity.pid in w && SameIdentity(identity, w[identity.pid].identity)
  }

  /** The same character in a path: upper and lower case of a letter, and both slashes, are one. */
  predicate SamePathChar(a: char, b: char) {
    || a == b
    || {a, b} == {'/', '\\'}
    || ('a' <= a <= 'z' && 'A' <= b <= 'Z' && a - 'a' == b - 'A')
    || ('A' <= a <= 'Z' && 'a' <= b <= 'z' && a - 'A' == b - 'a')
  }

  /** What identifies a process instance: pid, creation time, and the path up to case and direction of slashes. */
  lemma {:induction false} IdentityMeans(a: Identity, b: Identity)
    ensures SameIdentity(a, b) <==>
            && a.pid == b.pid && a.creationTime == b.creationTime && |a.executablePath| == |b.executablePath|
            && forall i | 0 <= i < |a.executablePath| :: SamePathChar(a.executablePath[i], b.executablePath[i])
  {
    var x, y := NormalizePath(a.executablePath), NormalizePath(b.executablePath);
    forall i | 0 <= i < |x| && |x| == |y|
      ensures x[i] == y[i] <==> SamePathChar(a.executablePath[i], b.executablePath[i])
    {
      SameNormalChar(a.executablePath[i], b.executablePath[i]);
    }
  }

  lemma SameNormalChar(a: char, b: char)
    ensures NormalizeChar(a) == NormalizeChar(b) <==> SamePathChar(a, b)
  {
  }

  // ----- the part of the settings an action is about -----

  function Bit(mask: nat): nat {
    mask % 2
  }

  /** Capturing an action's original state includes the setting that the action changes. */
  predicate Captured(action: ResourceActionType, original: OriginalState) {
    match action
    case NoAction => true
    case LowerPriority => original.priorityCaptured
    case EnableEcoQos => original.powerThrottlingCaptured
    case LowerMemoryPriority => original.memoryPriorityCaptured
  }

  /** The setting a rollback of `action` is responsible for. */
  function Aspect(action: ResourceActionType, settings: Settings): nat {
    match action
    case NoAction => 0
    case LowerPriority => settings.priorityClass
    case EnableEcoQos => Bit(settings.powerStateMask)
    case LowerMemoryPriority => settings.memoryPriority
  }

  // ----- the executor -----

  datatype CaptureResult = CaptureFailed | CaptureOk(identity: Identity, original: OriginalState)

  /** The four flags say which of the operating system's reads succeed. */
  function Capture(w: World, action: ResourceActionType, pid: nat,
                   openOk: bool, priorityRead: bool, memoryRead: bool, powerRead: bool): (r: CaptureResult)
    ensures r.CaptureOk? && (forall p | p in w :: w[p].identity.pid == p) ==>
        Live(w, r.identity) && r.identity.pid == pid && Captured(action, r.original) &&
        Aspect(action, r.original.settings) == Aspect(action, w[pid].settings)
  {
    if pid !in w || !openOk then CaptureFailed
    else
      var settings := w[pid].settings;
      if !priorityRead || settings.priorityClass == 0 then CaptureFailed
      else if !memoryRead && action == LowerMemoryPriority then CaptureFailed
      else if !powerRead && action == EnableEcoQos then CaptureFailed
      else
        CaptureOk(w[pid].identity, OriginalState(
          Settings(settings.priorityClass,
                   if memoryRead then settings.memoryPriority else 0,
                   if powerRead then settings.powerControlMask else 0,
                   if powerRead then settings.powerStateMask else 0),
          true, memoryRead, powerRead))
  }

  /** When a capture succeeds, and what it records. */
  lemma CaptureRecords(w: World, action: ResourceActionType, pid: nat, openOk: bool, priorityRead: bool,
                       memoryRead: bool, powerRead: bool)
    ensures var r := Capture(w, action, pid, openOk, priorityRead, memoryRead, powerRead);
            && (r.CaptureOk? <==>
                  && pid in w && openOk && priorityRead && w[pid].settings.priorityClass != 0
                  && (action == LowerMemoryPriority ==> memoryRead) && (action == EnableEcoQos ==> powerRead))
            && (r.CaptureOk? ==>
                  && r.identity == w[pid].identity && r.original.priorityCaptured
                  && r.original.settings.priorityClass == w[pid].settings.priorityClass
                  && (r.original.memoryPriorityCaptured <==> memoryRead)
                  && (memoryRead ==> r.original.settings.memoryPriority == w[pid].settings.memoryPriority)
                  && (r.original.powerThrottlingCaptured <==> powerRead)
                  && (powerRead ==>
                        && r.original.settings.powerControlMask == w[pid].settings.powerControlMask
                        && r.original.settings.powerStateMask == w[pid].settings.powerStateMask)
                  && (!memoryRead ==> r.original.settings.memoryPriority == 0)
                  && (!powerRead ==>
                        r.original.settings.powerControlMask == 0 && r.original.settings.powerStateMask == 0))
  {
  }

  function Lowered(action: ResourceActionType, settings: Settings): Settings {
    match action
    case NoAction => settings
    case LowerPriority =>
      settings.(priorityClass := if settings.priorityClass == IDLE_PRIORITY_CLASS then IDLE_PRIORITY_CLASS
                                 else BELOW_NORMAL_PRIORITY_CLASS)
    case EnableEcoQos => settings.(powerControlMask := EXECUTION_SPEED, powerStateMask := EXECUTION_SPEED)
    case LowerMemoryPriority => settings.(memoryPriority := LOW_MEMORY_PRIORITY)
  }

  function Undone(action: ResourceActionType, original: OriginalState, settings: Settings): Settings {
    match action
    case NoAction => settings
    case LowerPriority =>
      if original.priorityCaptured then settings.(priorityClass := original.settings.priorityClass) else settings
    case EnableEcoQos =>
      if original.powerThrottlingCaptured
      then settings.(powerControlMask := EXECUTION_SPEED, powerStateMask := Bit(original.settings.powerStateMask))
      else settings
    case LowerMemoryPriority =>
      if original.memoryPriorityCaptured then settings.(memoryPriority := original.settings.memoryPriority)
      else settings
  }

  /** The executor refuses when the process is gone, was replaced, cannot be read or cannot be set. */
  predicate CanApply(w: World, action: ResourceActionType, identity: Identity, openOk: bool, setOk: bool) {
    && identity.pid in w && openOk && SameIdentity(identity, w[identity.pid].identity)
    && !(action == LowerPriority && w[identity.pid].settings.priorityClass == 0)
    && (setOk || action == NoAction)
  }

  function Apply(w: World, tx: Transaction, openOk: bool, setOk: bool): (r: (World, bool))
    ensures r.1 <==> CanApply(w, tx.action, tx.identity, openOk, setOk)
    ensures !r.1 ==> r.0 == w
    ensures r.0.Keys == w.Keys
    ensures r.1 ==> Live(w, tx.identity)
  {
    var pid := tx.identity.pid;
    if CanApply(w, tx.action, tx.identity, openOk, setOk)
    then (w[pid := w[pid].(settings := Lowered(tx.action, w[pid].settings))], true)
    else (w, false)
  }

  function Rollback(w: World, tx: Transaction, openOk: bool, setOk: bool): (r: (World, RollbackOutcome))
    ensures r.1 != Restored ==> r.0 == w
    ensures r.0.Keys == w.Keys
    ensures r.1 == AlreadyExited <==> tx.identity.pid !in w
    ensures r.1 == AlreadyExited ==> !Live(r.0, tx.identity)
    ensures r.1 == Restored ==> Live(w, tx.identity)
  {
    var pid := tx.identity.pid;
    if pid !in w then (w, AlreadyExited)
    else if !openOk || !SameIdentity(tx.identity, w[pid].identity) then (w, RollbackError)
    else if tx.action != NoAction && Captured(tx.action, tx.original) && !setOk then (w, RollbackError)
    else (w[pid := w[pid].(settings := Undone(tx.action, tx.original, w[pid].settings))], Restored)
  }

  /**
   * The effect of an action on the settings of its target. A priority becomes below normal, unless it is
   * idle already; EcoQoS is controlled and switched on; a memory priority becomes low. Nothing else moves.
   */
  ghost predicate TakesEffect(action: ResourceActionType, before: Settings, after: Settings) {
    && (action == LowerPriority ==> after.priorityClass == if before.priorityClass == 0x40 then 0x40 else 0x4000)
    && (action == EnableEcoQos ==> after.powerControlMask == 1 && after.powerStateMask == 1)
    && (action == LowerMemoryPriority ==> after.memoryPriority == 2)
    && (action != LowerPriority ==> after.priorityClass == before.priorityClass)
    && (action != EnableEcoQos ==>
          after.powerControlMask == before.powerControlMask && after.powerStateMask == before.powerStateMask)
    && (action != LowerMemoryPriority ==> after.memoryPriority == before.memoryPriority)
  }

  /** The effect of undoing it: the recorded setting is back, of EcoQoS its execution-speed bit. Nothing else moves. */
  ghost predicate TakesBack(action: ResourceActionType, original: OriginalState, before: Settings, after: Settings) {
    && (action == LowerPriority && original.priorityCaptured ==> after.priorityClass == original.settings.priorityClass)
    && (action == EnableEcoQos && original.powerThrottlingCaptured ==>
          after.powerControlMask == 1 && after.powerStateMask == original.settings.powerStateMask % 2)
    && (action == LowerMemoryPriority && original.memoryPriorityCaptured ==>
          after.memoryPriority == original.settings.memoryPriority)
    && (action != LowerPriority || !original.priorityCaptured ==> after.priorityClass == before.priorityClass)
    && (action != EnableEcoQos || !original.powerThrottlingCaptured ==>
          after.powerControlMask == before.powerControlMask && after.powerStateMask == before.powerStateMask)
    && (action != LowerMemoryPriority || !original.memoryPriorityCaptured ==>
          after.memoryPriority == before.memoryPriority)
  }

  /**
   * An apply succeeds exactly when the captured process can be opened, read and set. Then it leaves its
   * effect on that process, and the rest of the world alone.
   */
  lemma ApplyTakesEffect(w: World, tx: Transaction, openOk: bool, setOk: bool)
    ensures var (w', ok) := Apply(w, tx, openOk, setOk);
            var pid := tx.identity.pid;
            && (ok <==>
                  && pid in w && openOk && SameIdentity(tx.identity, w[pid].identity)
                  && (tx.action == LowerPriority ==> w[pid].settings.priorityClass != 0)
                  && (setOk || tx.action == NoAction))
            && (ok ==>
                  && w'.Keys == w.Keys && w'[pid].identity == w[pid].identity
                  && TakesEffect(tx.action, w[pid].settings, w'[pid].settings)
                  && forall p | p in w && p != pid :: w'[p] == w[p])
  {
  }

  /** The same of a rollback, which succeeds exactly when the captured process can be opened and set. */
  lemma RollbackTakesBack(w: World, tx: Transaction, openOk: bool, setOk: bool)
    ensures var (w', outcome) := Rollback(w, tx, openOk, setOk);
            var pid := tx.identity.pid;
            && (outcome == Restored <==>
                  && pid in w && openOk && SameIdentity(tx.identity, w[pid].identity)
                  && (setOk || tx.action == NoAction || !Captured(tx.action, tx.original)))
            && (outcome == Restored ==>
                  && w'.Keys == w.Keys && w'[pid].identity == w[pid].identity
                  && TakesBack(tx.action, tx.original, w[pid].settings, w'[pid].settings)
                  && forall p | p in w && p != pid :: w'[p] == w[p])
  {
  }

  /** The executor changes settings, never which process instances are running. */
  lemma ExecutorKeepsIdentities(w: World, tx: Transaction, openOk: bool, setOk: bool)
    ensures var w' := Apply(w, tx, openOk, setOk).0;
            w'.Keys == w.Keys && forall p | p in w :: w'[p].identity == w[p].identity
    ensures var w' := Rollback(w, tx, openOk, setOk).0;
            w'.Keys == w.Keys && forall p | p in w :: w'[p].identity == w[p].identity
  {
  }

  /** From `before` to `after` at most the setting `action` is about has changed, on the process `identity`. */
  ghost predicate ChangesOnly(before: Process, after: Process, identity: Identity, action: ResourceActionType) {
    && after.identity == before.identity
    && (after == before || SameIdentity(identity, before.identity))
    && forall other | other != action :: Aspect(other, after.settings) == Aspect(other, before.settings)
  }

  /** The executor touches nothing but the captured process, and there only the action's own setting. */
  lemma ExecutorIsSelective(w: World, tx: Transaction, openOk: bool, setOk: bool, p: nat)
    requires p in w
    ensures ChangesOnly(w[p], Apply(w, tx, openOk, setOk).0[p], tx.identity, tx.action)
    ensures ChangesOnly(w[p], Rollback(w, tx, openOk, setOk).0[p], tx.identity, tx.action)
  {
  }

  /** The settings that a rollback can reproduce: for EcoQoS only the execution-speed bit is ever set or cleared. */
  predicate Reproducible(action: ResourceActionType, settings: Settings) {
    action == EnableEcoQos ==> settings.powerControlMask == EXECUTION_SPEED && settings.powerStateMask < 2
  }

  /**
   * Capture, apply and rollback in a row: the aspect of the action always comes back, and the whole
   * world does exactly when the settings were reproducible.
   */
  lemma ApplyThenRollback(w: World, action: ResourceActionType, pid: nat, memoryRead: bool, powerRead: bool,
                          tx: Transaction,
                          openOk: bool, setOk: bool)
    requires forall p | p in w :: w[p].identity.pid == p
    requires Capture(w, action, pid, openOk, true, memoryRead, powerRead) == CaptureOk(tx.identity, tx.original)
    requires tx.action == action && action != NoAction
    requires Apply(w, tx, openOk, setOk).1
    ensures var (w', outcome) := Rollback(Apply(w, tx, openOk, setOk).0, tx, openOk, setOk);
            && outcome == Restored
            && w'.Keys == w.Keys
            && Aspect(action, w'[pid].settings) == Aspect(action, w[pid].settings)
            && (w' == w <==> Reproducible(action, w[pid].settings))
  {
    hide SameIdentity;
    var applied := Apply(w, tx, openOk, setOk).0;
    var restored := Rollback(applied, tx, openOk, setOk).0;
    assert restored == w[pid := restored[pid]];
    assert restored[pid] == w[pid] <==> restored == w;
  }
}
