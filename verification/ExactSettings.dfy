/**
 * What is known of the settings as long as there is at most one open transaction on each target and
 * action: each is the process's own, lowered once exactly where the action is in effect.
 */
module ExactSettings {
  import opened ResourceActions
  import opened ProcessWorld
  import opened ActionJournals
  import opened ActionProtocol
  import opened PristineSettings
  import opened ExclusiveActions

  /** The process's own setting, or that setting lowered once. */
  ghost predicate AspectIsExact(s: State, p: nat, action: ResourceActionType)
    requires p in s.world
  {
    var process := s.world[p];
    && Key(process.identity) in s.pristine
    && var own := s.pristine[Key(process.identity)];
       Aspect(action, process.settings) ==
       if InEffectOn(s.captured, s.effects, process.identity, action) then Aspect(action, Lowered(action, own))
       else Aspect(action, own)
  }

  ghost predicate Exact(s: State) {
    Originals(s) && forall p, action | p in s.world :: AspectIsExact(s, p, action)
  }

  lemma LoweredAspect(action: ResourceActionType, a: Settings, b: Settings)
    requires Aspect(action, a) == Aspect(action, b)
    ensures Aspect(action, Lowered(action, a)) == Aspect(action, Lowered(action, b))
  {
  }

  /** Besides `id`, which is open, no transaction has the same action in effect on its live target. */
  lemma {:induction false} NoOtherEffect(s: State, id: TransactionId, p: nat)
    requires Inv(s) && AtMostOne(s) && id in s.captured && Open(s, id)
    requires p in s.world && SameIdentity(s.captured[id].identity, s.world[p].identity)
    ensures !InEffectOn(s.captured, s.effects - {id}, s.world[p].identity, s.captured[id].action)
  {
    hide Open, NormalizePath;
    forall other | other in s.effects && other in s.captured && s.captured[other].action == s.captured[id].action
      && SameIdentity(s.captured[other].identity, s.world[p].identity)
      ensures other == id
    {
      LiveEffectIsOpen(s, other);
      assert SameTarget(s.captured[other], s.captured[id]);
    }
  }

  /** Adding or removing the effect of `id` matters only to its own action on its own target. */
  lemma {:induction false} OtherTargetsKeepEffects(captured: map<TransactionId, Transaction>,
                                                   effects: set<TransactionId>,
                                                   id: TransactionId, identity: Identity, action: ResourceActionType)
    requires id in captured
    requires captured[id].action != action || !SameIdentity(captured[id].identity, identity)
    ensures InEffectOn(captured, effects - {id}, identity, action) <==> InEffectOn(captured, effects, identity, action)
    ensures InEffectOn(captured, effects + {id}, identity, action) <==> InEffectOn(captured, effects, identity, action)
  {
  }

  lemma {:induction false} UndoKeepsExact(s: State, id: TransactionId, openOk: bool, setOk: bool)
    requires Inv(s) && AtMostOne(s) && Exact(s) && id in s.captured && Open(s, id)
    ensures Exact(Undo(s, id, s.captured[id], openOk, setOk))
  {
    var tx := s.captured[id];
    var s' := Undo(s, id, tx, openOk, setOk);
    forall p, action | p in s'.world
      ensures AspectIsExact(s', p, action)
    {
      UndoneAspectIsExact(s, id, openOk, setOk, p, action);
    }
  }

  lemma {:induction false} UndoneAspectIsExact(s: State, id: TransactionId, openOk: bool, setOk: bool, p: nat,
                                               action: ResourceActionType)
    requires Inv(s) && AtMostOne(s) && Exact(s) && id in s.captured && Open(s, id) && p in s.world
    ensures var s' := Undo(s, id, s.captured[id], openOk, setOk);
            p in s'.world && AspectIsExact(s', p, action)
  {
    hide AtMostOne, Open, InEffectOn, NormalizePath, Lowered, Undone, Aspect, Captured;
    var tx := s.captured[id];
    var s' := Undo(s, id, tx, openOk, setOk);
    assert AspectIsExact(s, p, action);
    ExecutorIsSelective(s.world, tx, openOk, setOk, p);
    InvParts(s);
    if Rollback(s.world, tx, openOk, setOk).1 == Restored {
      if tx.action == action && SameIdentity(tx.identity, s.world[p].identity) {
        NoOtherEffect(s, id, p);
        UndoneAspect(tx, s.world[p].settings);
        assert OriginalIsPristine(tx, s.pristine);
      } else {
        OtherTargetsKeepEffects(s.captured, s.effects, id, s.world[p].identity, action);
      }
    }
  }

  lemma {:induction false} ApplyKeepsExact(s: State, id: TransactionId, openOk: bool, setOk: bool)
    requires Inv(s) && AtMostOne(s) && Exact(s) && At(s, id, Applying)
    requires Apply(s.world, s.captured[id], openOk, setOk).1
    ensures Exact(Applied(s, id, Apply(s.world, s.captured[id], openOk, setOk).0))
  {
    var tx := s.captured[id];
    var s' := Applied(s, id, Apply(s.world, tx, openOk, setOk).0);
    forall p, action | p in s'.world
      ensures AspectIsExact(s', p, action)
    {
      AppliedAspectIsExact(s, id, openOk, setOk, p, action);
    }
  }

  lemma {:induction false} AppliedAspectIsExact(s: State, id: TransactionId, openOk: bool, setOk: bool, p: nat,
                                                action: ResourceActionType)
    requires Inv(s) && AtMostOne(s) && Exact(s) && At(s, id, Applying) && p in s.world
    requires Apply(s.world, s.captured[id], openOk, setOk).1
    ensures var s' := Applied(s, id, Apply(s.world, s.captured[id], openOk, setOk).0);
            p in s'.world && AspectIsExact(s', p, action)
  {
    hide AtMostOne, InEffectOn, NormalizePath, Lowered, Aspect;
    var tx := s.captured[id];
    var s' := Applied(s, id, Apply(s.world, tx, openOk, setOk).0);
    assert AspectIsExact(s, p, action);
    ExecutorIsSelective(s.world, tx, openOk, setOk, p);
    InvParts(s);
    if tx.action == action && SameIdentity(tx.identity, s.world[p].identity) {
      NoOtherEffect(s, id, p);
      assert BeginOk(s, id);
      assert s.effects - {id} == s.effects;
      LoweredAspect(action, s.world[p].settings, s.pristine[Key(s.world[p].identity)]);
      NowInEffect(s', id, s.world[p].identity);
    } else {
      OtherTargetsKeepEffects(s.captured, s.effects, id, s.world[p].identity, action);
    }
  }

  lemma {:induction false} NowInEffect(s: State, id: TransactionId, identity: Identity)
    requires id in s.effects && id in s.captured && SameIdentity(s.captured[id].identity, identity)
    ensures InEffectOn(s.captured, s.effects, identity, s.captured[id].action)
  {
  }

  lemma {:induction false} SpawnKeepsExact(s: State, process: Process)
    requires Inv(s) && Exact(s) && process.identity.pid !in s.world && Key(process.identity) !in s.pristine
    ensures Exact(Spawned(s, process))
  {
    hide NormalizePath, Lowered, Aspect;
    var s' := Spawned(s, process);
    InvParts(s);
    assert forall id | id in s.captured :: OriginalIsPristine(s.captured[id], s.pristine);
    forall p, action | p in s'.world
      ensures AspectIsExact(s', p, action)
    {
      if p in s.world {
        assert AspectIsExact(s, p, action);
      }
    }
  }

  /** Steps that leave processes, effects and captures alone. */
  lemma {:induction false} SameFactsKeepExact(s: State, s': State)
    requires Exact(s)
    requires s'.captured == s.captured && s'.effects == s.effects && s'.pristine == s.pristine
    requires s'.world.Keys <= s.world.Keys && forall p | p in s'.world :: s'.world[p] == s.world[p]
    ensures Exact(s')
  {
    hide InEffectOn, Aspect, Lowered;
    forall p, action | p in s'.world
      ensures AspectIsExact(s', p, action)
    {
      assert AspectIsExact(s, p, action);
    }
  }

  lemma {:induction false} UndoingStepIsExact(s: State, step: Step)
    requires Inv(s) && AtMostOne(s) && Exact(s) && Enabled(s, step)
    requires step.RecoverAct? || step.Compensate? || step.RollbackAct?
    ensures Exact(Next(s, step))
  {
    hide Exact, AtMostOne, Rollback, Live, WorldOk, CapturedOk, OutcomeOk, OnRecord;
    var (id, openOk, setOk) := match step
      case RecoverAct(openOk, setOk) => (s.mode.todo[0].0, openOk, setOk)
      case Compensate(id, openOk, setOk) => (id, openOk, setOk)
      case RollbackAct(job, openOk, setOk) => (s.jobs[job].id, openOk, setOk);
    assert step.RecoverAct? ==> InRecovery(s, id);
    assert step.RollbackAct? ==> InJob(s, id);
    UndoKeepsExact(s, id, openOk, setOk);
    SameFactsKeepExact(Undo(s, id, s.captured[id], openOk, setOk), Next(s, step));
  }

  lemma {:induction false} ApplyingStepIsExact(s: State, step: Step)
    requires Inv(s) && AtMostOne(s) && Exact(s) && Enabled(s, step) && step.ApplyAction?
    ensures Exact(Next(s, step))
  {
    hide Inv, Exact, AtMostOne, Apply;
    var (world, ok) := Apply(s.world, s.captured[step.id], step.openOk, step.setOk);
    if ok {
      ApplyKeepsExact(s, step.id, step.openOk, step.setOk);
      SameFactsKeepExact(Applied(s, step.id, world), Next(s, step));
    } else {
      SameFactsKeepExact(s, Next(s, step));
    }
  }

  lemma {:induction false} QuietStepIsExact(s: State, step: Step)
    requires Exact(s) && Enabled(s, step)
    requires !step.Spawn? && !step.CaptureOriginal? && !step.ApplyAction? &&
             !step.RecoverAct? && !step.Compensate? && !step.RollbackAct?
    ensures Exact(Next(s, step))
  {
    hide Exact, Save, UnfinishedRow;
    SameFactsKeepExact(s, Next(s, step));
  }

  // ----- what a capture records -----

  /** Lowering would change nothing: the process started out where the action would put it. */
  predicate AlreadyLow(action: ResourceActionType, own: Settings) {
    Aspect(action, Lowered(action, own)) == Aspect(action, own)
  }

  /**
   * The exact condition. In a state whose settings are known, a capture records the process's own
   * setting if and only if the action is not in effect on that process, or would not change it.
   */
  lemma {:induction false} CaptureRecordsOwn(s: State, step: Step)
    requires Inv(s) && Exact(s) && Enabled(s, step) && step.CaptureOriginal?
    ensures step.pid in s.world && Key(s.world[step.pid].identity) in s.pristine
    ensures step.id in Next(s, step).captured
    ensures OriginalIsPristine(Next(s, step).captured[step.id], s.pristine) <==>
            || !InEffectOn(s.captured, s.effects, s.world[step.pid].identity, step.action)
            || AlreadyLow(step.action, s.pristine[Key(s.world[step.pid].identity)])
  {
    hide InEffectOn, Aspect, Lowered, Originals;
    InvParts(s);
    assert AspectIsExact(s, step.pid, step.action);
  }

  lemma {:induction false} ExclusiveFindsNoEffect(s: State, step: Step)
    requires Inv(s) && Enabled(s, step) && step.CaptureOriginal? && Exclusive(s, step)
    ensures Uncontended(s, step)
  {
    hide Open, NormalizePath;
    InvParts(s);
    forall id | id in s.effects && id in s.captured && s.captured[id].action == step.action && step.pid in s.world
      ensures !SameIdentity(s.captured[id].identity, s.world[step.pid].identity)
    {
      EffectClearOf(s, step, id);
    }
  }

  lemma {:induction false} EffectClearOf(s: State, step: Step, id: TransactionId)
    requires Inv(s) && step.CaptureOriginal? && Exclusive(s, step) && step.pid in s.world
    requires id in s.effects && id in s.captured && s.captured[id].action == step.action
    ensures !SameIdentity(s.captured[id].identity, s.world[step.pid].identity)
  {
    hide Open;
    InvParts(s);
    if Live(s.world, s.captured[id].identity) {
      LiveEffectIsOpen(s, id);
    }
  }

  lemma {:induction false} CaptureKeepsExact(s: State, step: Step)
    requires Inv(s) && Exact(s) && Enabled(s, step) && step.CaptureOriginal? && Exclusive(s, step)
    ensures Exact(Next(s, step))
  {
    hide Exclusive, Lowered, Aspect, NormalizePath;
    var s' := Next(s, step);
    ExclusiveFindsNoEffect(s, step);
    CaptureRecordsOwn(s, step);
    StepCaptures(s, step);
    forall p, action | p in s'.world
      ensures AspectIsExact(s', p, action)
    {
      assert AspectIsExact(s, p, action);
      NewCaptureHasNoEffect(s, step.id, s'.captured[step.id], s.world[p].identity, action);
    }
  }

  lemma {:induction false} NewCaptureHasNoEffect(s: State, id: TransactionId, tx: Transaction, identity: Identity,
                                                 action: ResourceActionType)
    requires Inv(s) && id !in s.captured
    ensures InEffectOn(s.captured[id := tx], s.effects, identity, action) <==>
        InEffectOn(s.captured, s.effects, identity, action)
  {
    hide SameIdentity;
    assert id !in s.effects;
  }

  lemma {:induction false} StepKeepsExact(s: State, step: Step)
    requires Inv(s) && AtMostOne(s) && Exact(s) && Enabled(s, step) && Exclusive(s, step)
    ensures Exact(Next(s, step))
  {
    hide Inv, Exact, AtMostOne, Exclusive;
    match step
    case Spawn(process) => SpawnKeepsExact(s, process);
    case CaptureOriginal(_, _, _, _, _, _, _) => CaptureKeepsExact(s, step);
    case RecoverAct(_, _) | Compensate(_, _, _) | RollbackAct(_, _, _) => UndoingStepIsExact(s, step);
    case ApplyAction(_, _, _) => ApplyingStepIsExact(s, step);
    case _ => QuietStepIsExact(s, step);
  }
}
