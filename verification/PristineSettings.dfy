/**
 * What crash safety buys: as long as no original state is captured while the same action is in
 * effect on the same process, every recorded original is the state the process started with, and a
 * process on which nothing is in effect is in that state.
 */
module PristineSettings {
  import opened ResourceActions
  import opened ProcessWorld
  import opened ActionJournals
  import opened ActionProtocol
  import opened Wrappers

  ghost predicate InEffectOn(captured: map<TransactionId, Transaction>, effects: set<TransactionId>,
                             identity: Identity, action: ResourceActionType)
  {
    exists id | id in effects && id in captured ::
      captured[id].action == action && SameIdentity(captured[id].identity, identity)
  }

  /** The caller's side: no capture of a setting while an action on that setting is in effect. */
  ghost predicate Uncontended(s: State, step: Step) {
    step.CaptureOriginal? && step.pid in s.world ==>
      !InEffectOn(s.captured, s.effects, s.world[step.pid].identity, step.action)
  }

  ghost predicate OriginalIsPristine(tx: Transaction, pristine: map<(nat, nat), Settings>) {
    Key(tx.identity) in pristine ==>
      Aspect(tx.action, tx.original.settings) == Aspect(tx.action, pristine[Key(tx.identity)])
  }

  ghost predicate Originals(s: State) {
    forall id | id in s.captured :: OriginalIsPristine(s.captured[id], s.pristine)
  }

  ghost predicate AccountedFor(s: State, p: nat, action: ResourceActionType)
    requires p in s.world
  {
    var process := s.world[p];
    && Key(process.identity) in s.pristine
    && (Aspect(action, process.settings) == Aspect(action, s.pristine[Key(process.identity)])
        || InEffectOn(s.captured, s.effects, process.identity, action))
  }

  ghost predicate Pristine(s: State) {
    Originals(s) && forall p, action | p in s.world :: AccountedFor(s, p, action)
  }

  lemma UndoneAspect(tx: Transaction, settings: Settings)
    requires Captured(tx.action, tx.original)
    ensures Aspect(tx.action, Undone(tx.action, tx.original, settings)) == Aspect(tx.action, tx.original.settings)
  {
  }

  lemma {:induction false} UndoKeepsPristine(s: State, id: TransactionId, openOk: bool, setOk: bool)
    requires Inv(s) && Pristine(s) && id in s.captured
    ensures Pristine(Undo(s, id, s.captured[id], openOk, setOk))
  {
    var tx := s.captured[id];
    var s' := Undo(s, id, tx, openOk, setOk);
    forall p, action | p in s'.world
      ensures AccountedFor(s', p, action)
    {
      ExecutorIsSelective(s.world, tx, openOk, setOk, p);
      UndoneAspect(tx, s.world[p].settings);
      assert AccountedFor(s, p, action);
      if InEffectOn(s.captured, s.effects, s.world[p].identity, action) {
        RemainsInEffect(s, s', id, s.world[p].identity, action);
      }
    }
  }

  lemma {:induction false} RemainsInEffect(s: State, s': State, id: TransactionId, identity: Identity,
                                           action: ResourceActionType)
    requires s'.captured == s.captured && s.effects - {id} <= s'.effects
    requires InEffectOn(s.captured, s.effects, identity, action)
    requires id in s.captured
    ensures InEffectOn(s'.captured, s'.effects, identity, action)
         || (s.captured[id].action == action && SameIdentity(s.captured[id].identity, identity))
  {
  }

  lemma {:induction false} ApplyKeepsPristine(s: State, id: TransactionId, openOk: bool, setOk: bool)
    requires Inv(s) && Pristine(s) && id in s.captured
    ensures var (world, ok) := Apply(s.world, s.captured[id], openOk, setOk);
            ok ==> Pristine(Applied(s, id, world))
  {
    var tx := s.captured[id];
    var s' := Applied(s, id, Apply(s.world, tx, openOk, setOk).0);
    forall p, action | p in s'.world
      ensures AccountedFor(s', p, action)
    {
      ExecutorIsSelective(s.world, tx, openOk, setOk, p);
      assert AccountedFor(s, p, action);
    }
  }

  lemma {:induction false} CaptureKeepsPristine(s: State, step: Step)
    requires Inv(s) && Pristine(s) && Enabled(s, step) && step.CaptureOriginal? && Uncontended(s, step)
    ensures Pristine(Next(s, step))
  {
    var s' := Next(s, step);
    assert AccountedFor(s, step.pid, step.action);
    assert OriginalIsPristine(s'.captured[step.id], s'.pristine);
    forall p, action | p in s'.world
      ensures AccountedFor(s', p, action)
    {
      assert AccountedFor(s, p, action);
    }
  }

  lemma {:induction false} SpawnKeepsPristine(s: State, process: Process)
    requires Inv(s) && Pristine(s) && process.identity.pid !in s.world && Key(process.identity) !in s.pristine
    ensures Pristine(Spawned(s, process))
  {
    var s' := Spawned(s, process);
    assert forall id | id in s.captured :: OriginalIsPristine(s.captured[id], s.pristine);
    forall p, action | p in s'.world
      ensures AccountedFor(s', p, action)
    {
      if p in s.world {
        assert AccountedFor(s, p, action);
      }
    }
  }

  /** Steps that leave processes, effects and captures alone. */
  lemma {:induction false} SameFactsKeepPristine(s: State, s': State)
    requires Pristine(s)
    requires s'.captured == s.captured && s'.effects == s.effects && s'.pristine == s.pristine
    requires s'.world.Keys <= s.world.Keys && forall p | p in s'.world :: s'.world[p] == s.world[p]
    ensures Pristine(s')
  {
    forall p, action | p in s'.world
      ensures AccountedFor(s', p, action)
    {
      assert AccountedFor(s, p, action);
    }
  }

  lemma {:induction false} QuietStep(s: State, step: Step)
    requires Pristine(s) && Enabled(s, step)
    requires !step.Spawn? && !step.CaptureOriginal? && !step.ApplyAction? &&
             !step.RecoverAct? && !step.Compensate? && !step.RollbackAct?
    ensures Pristine(Next(s, step))
  {
    hide Pristine, Save, UnfinishedRow;
    SameFactsKeepPristine(s, Next(s, step));
  }

  lemma {:induction false} UndoingStep(s: State, step: Step)
    requires Inv(s) && Pristine(s) && Enabled(s, step)
    requires step.RecoverAct? || step.Compensate? || step.RollbackAct?
    ensures Pristine(Next(s, step))
  {
    hide Pristine, Rollback, Live, WorldOk, CapturedOk, OutcomeOk;
    var (id, openOk, setOk) := match step
      case RecoverAct(openOk, setOk) => (s.mode.todo[0].0, openOk, setOk)
      case Compensate(id, openOk, setOk) => (id, openOk, setOk)
      case RollbackAct(job, openOk, setOk) => (s.jobs[job].id, openOk, setOk);
    UndoKeepsPristine(s, id, openOk, setOk);
    SameFactsKeepPristine(Undo(s, id, s.captured[id], openOk, setOk), Next(s, step));
  }

  lemma {:induction false} ApplyingStep(s: State, step: Step)
    requires Inv(s) && Pristine(s) && Enabled(s, step) && step.ApplyAction?
    ensures Pristine(Next(s, step))
  {
    hide Inv, Pristine, Apply;
    var (world, ok) := Apply(s.world, s.captured[step.id], step.openOk, step.setOk);
    if ok {
      ApplyKeepsPristine(s, step.id, step.openOk, step.setOk);
      SameFactsKeepPristine(Applied(s, step.id, world), Next(s, step));
    } else {
      SameFactsKeepPristine(s, Next(s, step));
    }
  }

  lemma {:induction false} StepKeepsPristine(s: State, step: Step)
    requires Inv(s) && Pristine(s) && Enabled(s, step) && Uncontended(s, step)
    ensures Pristine(Next(s, step))
  {
    hide Inv, Pristine, Uncontended;
    match step
    case Spawn(process) => SpawnKeepsPristine(s, process);
    case CaptureOriginal(_, _, _, _, _, _, _) => CaptureKeepsPristine(s, step);
    case RecoverAct(_, _) | Compensate(_, _, _) | RollbackAct(_, _, _) => UndoingStep(s, step);
    case ApplyAction(_, _, _) => ApplyingStep(s, step);
    case _ => QuietStep(s, step);
  }

  // ----- uncontended runs -----

  ghost predicate UncontendedTransition(s: State, s': State) {
    exists step :: Enabled(s, step) && Uncontended(s, step) && s' == Next(s, step)
  }

  ghost predicate UncontendedRun(states: seq<State>) {
    && |states| > 0
    && Init(states[0])
    && forall i | 0 <= i < |states| - 1 :: UncontendedTransition(states[i], states[i + 1])
  }

  lemma {:induction false} UncontendedIsTransition(s: State, s': State)
    requires UncontendedTransition(s, s')
    ensures Transition(s, s')
    ensures Inv(s) && Pristine(s) ==> Pristine(s')
  {
    hide Enabled, Next, Inv, Pristine, Uncontended;
    var step :| Enabled(s, step) && Uncontended(s, step) && s' == Next(s, step);
    if Inv(s) && Pristine(s) {
      StepKeepsPristine(s, step);
    }
  }

  lemma {:induction false} InitIsPristine(s: State)
    requires Init(s)
    ensures Pristine(s)
  {
  }

  /**
   * In every uncontended run, crashes included: every captured original is the process's own, and a
   * live process deviates from its own settings only where an action is in effect.
   */
  lemma {:induction false} UncontendedRunIsPristine(states: seq<State>, i: nat)
    requires UncontendedRun(states) && i < |states|
    ensures Run(states) && Inv(states[i]) && Pristine(states[i])
  {
    hide UncontendedTransition, Pristine, Init, Transition, Inv;
    forall j | 0 <= j < |states| - 1
      ensures Transition(states[j], states[j + 1])
    {
      UncontendedIsTransition(states[j], states[j + 1]);
    }
    RunKeepsInv(states, i);
    if i == 0 {
      InitIsPristine(states[0]);
    } else {
      UncontendedRunIsPristine(states, i - 1);
      assert UncontendedTransition(states[i - 1], states[i - 1 + 1]);
      UncontendedIsTransition(states[i - 1], states[i]);
    }
  }

  // ----- overlapping actions -----

  /**
   * Two actions on one target, one after the other: the order of the rollbacks decides. Undoing the
   * second one last leaves the target lowered, undoing the first one last restores it.
   */
  lemma OverlappingRollbacks(w: World, action: ResourceActionType, pid: nat, tx1: Transaction, tx2: Transaction)
    requires action != NoAction && tx1.action == tx2.action == action && forall p | p in w :: w[p].identity.pid == p
    requires IsCaptureOf(w, pid, tx1) && Apply(w, tx1, true, true).1
    requires var w1 := Apply(w, tx1, true, true).0;
             IsCaptureOf(w1, pid, tx2) && Apply(w1, tx2, true, true).1
    ensures var w2 := Apply(Apply(w, tx1, true, true).0, tx2, true, true).0;
            var (w3, outcome3) := Rollback(w2, tx1, true, true);
            var (w4, outcome4) := Rollback(w3, tx2, true, true);
            && outcome3 == outcome4 == Restored && pid in w && pid in w4
            && Aspect(action, w4[pid].settings) == Aspect(action, Lowered(action, w[pid].settings))
    ensures var w2 := Apply(Apply(w, tx1, true, true).0, tx2, true, true).0;
            var (w3, outcome3) := Rollback(w2, tx2, true, true);
            var (w4, outcome4) := Rollback(w3, tx1, true, true);
            && outcome3 == outcome4 == Restored && pid in w4
            && Aspect(action, w4[pid].settings) == Aspect(action, w[pid].settings)
  {
    hide NormalizePath, Lowered, Undone, Aspect, Captured;
    var w1 := Apply(w, tx1, true, true).0;
    var w2 := Apply(w1, tx2, true, true).0;
    CaptureMeans(w, pid, tx1);
    CaptureMeans(w1, pid, tx2);
    UndoneAspect(tx1, w2[pid].settings);
    UndoneAspect(tx2, w2[pid].settings);
    UndoneAspect(tx2, Rollback(w2, tx1, true, true).0[pid].settings);
    UndoneAspect(tx1, Rollback(w2, tx2, true, true).0[pid].settings);
  }

  /** The transaction records what a capture of this process answers, whichever optional reads succeed. */
  predicate IsCaptureOf(w: World, pid: nat, tx: Transaction) {
    exists memoryRead, powerRead ::
      Capture(w, tx.action, pid, true, true, memoryRead, powerRead) == CaptureOk(tx.identity, tx.original)
  }

  lemma CaptureMeans(w: World, pid: nat, tx: Transaction)
    requires IsCaptureOf(w, pid, tx) && forall p | p in w :: w[p].identity.pid == p
    ensures pid in w && tx.identity == w[pid].identity && tx.identity.pid == pid && Captured(tx.action, tx.original)
    ensures Aspect(tx.action, tx.original.settings) == Aspect(tx.action, w[pid].settings)
  {
  }

  // ----- a contended capture -----

  lemma {:induction false} Extend(states: seq<State>, step: Step) returns (more: seq<State>)
    requires Run(states) && Enabled(states[|states| - 1], step)
    ensures Run(more) && |more| > 0 && more[|more| - 1] == Next(states[|states| - 1], step)
  {
    hide Enabled, Next, Init;
    var last := states[|states| - 1];
    more := states + [Next(last, step)];
    forall i | 0 <= i < |more| - 1
      ensures Transition(more[i], more[i + 1])
    {
      if i < |states| - 1 {
        assert Transition(states[i], states[i + 1]);
      }
    }
  }

  /**
   * Nothing in the code prevents a second action on the same process. It then captures the lowered
   * priority as its original.
   */
  lemma ContendedCapture(identity: Identity, settings: Settings)
    requires settings.priorityClass !in {0, IDLE_PRIORITY_CLASS, BELOW_NORMAL_PRIORITY_CLASS}
    ensures exists states :: Run(states) && !Originals(states[|states| - 1])
  {
    hide UnfinishedRow;
    var s0 := State(map[identity.pid := Process(identity, settings)], map[], Recovering([], false, Restored),
                    map[], {}, map[], map[], {}, map[Key(identity) := settings]);
    var run := Extend([s0], FinishRecovery);
    FirstAction(run, identity, settings);
  }

  lemma {:induction false} FirstAction(run: seq<State>, identity: Identity, settings: Settings)
    requires |run| > 0 && Run(run)
    requires var s, pid := run[|run| - 1], identity.pid;
             && s.mode.Running? && pid in s.world && s.captured == map[] && s.journal == map[]
             && s.world[pid] == Process(identity, settings)
             && Key(identity) in s.pristine && s.pristine[Key(identity)] == settings
    requires settings.priorityClass !in {0, IDLE_PRIORITY_CLASS, BELOW_NORMAL_PRIORITY_CLASS}
    ensures exists states :: Run(states) && !Originals(states[|states| - 1])
  {
    hide Run, UnfinishedRow;
    var captured := Extend(run, CaptureOriginal(1, LowerPriority, identity.pid, true, true, 0, 1));
    assert captured[|captured| - 1].world == run[|run| - 1].world;
    var planned := Extend(captured, SavePlanned(1, true));
    assert planned[|planned| - 1].world == run[|run| - 1].world;
    LowerOnce(planned, identity, settings);
  }

  lemma {:induction false} LowerOnce(run: seq<State>, identity: Identity, settings: Settings)
    requires |run| > 0 && Run(run)
    requires var s, pid := run[|run| - 1], identity.pid;
             && s.mode.Running? && pid in s.world && At(s, 1, Applying) && 2 !in s.captured && 2 !in s.journal
             && s.captured[1].action == LowerPriority && s.captured[1].identity == identity
             && s.world[pid] == Process(identity, settings)
             && Key(identity) in s.pristine && s.pristine[Key(identity)] == settings
    requires settings.priorityClass !in {0, IDLE_PRIORITY_CLASS, BELOW_NORMAL_PRIORITY_CLASS}
    ensures exists states :: Run(states) && !Originals(states[|states| - 1])
  {
    hide Run, UnfinishedRow;
    var applied := Extend(run, ApplyAction(1, true, true));
    CaptureOfLowered(applied, identity, settings);
  }

  lemma {:induction false} CaptureOfLowered(run: seq<State>, identity: Identity, settings: Settings)
    requires |run| > 0 && Run(run)
    requires var s, pid := run[|run| - 1], identity.pid;
             && s.mode.Running? && pid in s.world && 2 !in s.captured && 2 !in s.journal
             && s.world[pid] == Process(identity, settings.(priorityClass := BELOW_NORMAL_PRIORITY_CLASS))
             && Key(identity) in s.pristine && s.pristine[Key(identity)] == settings
    requires settings.priorityClass != BELOW_NORMAL_PRIORITY_CLASS
    ensures exists states :: Run(states) && !Originals(states[|states| - 1])
  {
    hide Run, UnfinishedRow;
    var more := Extend(run, CaptureOriginal(2, LowerPriority, identity.pid, true, true, 0, 1));
    var s := more[|more| - 1];
    assert !OriginalIsPristine(s.captured[2], s.pristine);
  }
}
