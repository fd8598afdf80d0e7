/** Runs in which every capture finds its target clear: what they know, and what the next capture records. */
module ExclusiveRuns {
  import opened ResourceActions
  import opened ProcessWorld
  import opened ActionJournals
  import opened ActionProtocol
  import opened PristineSettings
  import opened ExclusiveActions
  import opened ExactSettings

  ghost predicate ExclusiveTransition(s: State, s': State) {
    exists step :: Enabled(s, step) && Exclusive(s, step) && s' == Next(s, step)
  }

  ghost predicate ExclusiveRun(states: seq<State>) {
    && |states| > 0
    && Init(states[0])
    && forall i | 0 <= i < |states| - 1 :: ExclusiveTransition(states[i], states[i + 1])
  }

  lemma {:induction false} ExclusiveIsUncontended(s: State, s': State)
    requires Inv(s) && ExclusiveTransition(s, s')
    ensures UncontendedTransition(s, s')
    ensures AtMostOne(s) && Exact(s) ==> AtMostOne(s') && Exact(s')
  {
    hide Enabled, Next, Inv, Exact, AtMostOne, Exclusive;
    var step :| Enabled(s, step) && Exclusive(s, step) && s' == Next(s, step);
    if step.CaptureOriginal? {
      ExclusiveFindsNoEffect(s, step);
    }
    if AtMostOne(s) && Exact(s) {
      StepKeepsAtMostOne(s, step);
      StepKeepsExact(s, step);
    }
  }

  lemma {:induction false} InitIsExact(s: State)
    requires Init(s)
    ensures AtMostOne(s) && Exact(s)
  {
    hide Aspect, Lowered, SameTarget;
  }

  /** Crashes, exits, reused pids and failed writes included: at most one open transaction each, and exact settings. */
  lemma {:induction false} ExclusiveRunIsExact(states: seq<State>, i: nat)
    requires ExclusiveRun(states) && i < |states|
    ensures UncontendedRun(states[..i + 1]) && Inv(states[i]) && AtMostOne(states[i]) && Exact(states[i])
  {
    hide ExclusiveTransition, UncontendedTransition, Exact, AtMostOne, Init, Inv;
    if i == 0 {
      InitIsExact(states[0]);
      UncontendedRunIsPristine(states[..1], 0);
    } else {
      ExclusiveRunIsExact(states, i - 1);
      assert ExclusiveTransition(states[i - 1], states[i - 1 + 1]);
      ExclusiveIsUncontended(states[i - 1], states[i]);
      UncontendedStep(states[..i], states[i]);
      assert states[..i + 1] == states[..i] + [states[i]];
      UncontendedRunIsPristine(states[..i + 1], i);
    }
  }

  lemma {:induction false} UncontendedStep(states: seq<State>, s: State)
    requires UncontendedRun(states) && UncontendedTransition(states[|states| - 1], s)
    ensures UncontendedRun(states + [s])
  {
    hide UncontendedTransition, Init;
    var more := states + [s];
    forall i | 0 <= i < |more| - 1
      ensures UncontendedTransition(more[i], more[i + 1])
    {
      if i < |states| - 1 {
        assert UncontendedTransition(states[i], states[i + 1]);
      }
    }
  }

  /**
   * The theorem about runs: after any exclusive run, the next capture, exclusive or not, records the
   * process's own setting if and only if the action is not in effect on it or would not change it.
   */
  lemma {:induction false} NextCaptureRecordsOwn(states: seq<State>, step: Step)
    requires ExclusiveRun(states)
    requires Enabled(states[|states| - 1], step) && step.CaptureOriginal?
    ensures var s := states[|states| - 1];
            && step.pid in s.world && Key(s.world[step.pid].identity) in s.pristine
            && step.id in Next(s, step).captured
            && (OriginalIsPristine(Next(s, step).captured[step.id], s.pristine) <==>
                 || !InEffectOn(s.captured, s.effects, s.world[step.pid].identity, step.action)
                 || AlreadyLow(step.action, s.pristine[Key(s.world[step.pid].identity)]))
            && (Exclusive(s, step) ==> OriginalIsPristine(Next(s, step).captured[step.id], s.pristine))
  {
    hide Enabled, Next, Inv, Exact, AtMostOne, Exclusive, InEffectOn, OriginalIsPristine, AlreadyLow,
        ExclusiveTransition, Init;
    var s := states[|states| - 1];
    ExclusiveRunIsExact(states, |states| - 1);
    CaptureRecordsOwn(s, step);
    if Exclusive(s, step) {
      ExclusiveFindsNoEffect(s, step);
    }
  }

  // ----- which open transactions are in effect -----

  predicate AppliedPhase(phase: BeginPhase) {
    phase in {SavingExecuted, Compensating, Activating}
  }

  /** Past its apply a begin is in effect, and so is an active transaction that no rollback has taken up. */
  ghost predicate Settled(s: State) {
    && (forall id | id in s.begins && AppliedPhase(s.begins[id]) :: id in s.effects)
    && (forall id | id in s.active :: id in s.effects || InJob(s, id))
  }

  lemma {:induction false} RollbackKeepsSettled(s: State, step: Step)
    requires Inv(s) && Settled(s) && Enabled(s, step)
    requires step.CopyActive? || step.RollbackAct? || step.RollbackSave? || step.Forget?
    ensures Settled(Next(s, step))
  {
    hide Live, WorldOk, CapturedOk, Rollback, Save, ModeOk, RowOk, BeginOk, Settled, InJob;
    var id := if step.CopyActive? then step.id else s.jobs[step.job].id;
    assert !step.CopyActive? ==> JobOk(s, step.job);
    OneJobSettles(s, Next(s, step), step.job, id);
  }

  /** A step of one job leaves the others as they are; while the job lasts, it is of the same transaction. */
  lemma {:induction false} OneJobSettles(s: State, s': State, job: nat, id: TransactionId)
    requires Settled(s) && s'.begins == s.begins && s'.active <= s.active
    requires s.effects - {id} <= s'.effects && (s'.effects == s.effects || id !in s.begins)
    requires forall other | other in s.jobs && other != job :: other in s'.jobs && s'.jobs[other].id == s.jobs[other].id
    requires job in s.jobs ==> s.jobs[job].id == id
    requires if job in s'.jobs then s'.jobs[job].id == id else id !in s'.active
    ensures Settled(s')
  {
    forall other | other in s'.active
      ensures other in s'.effects || InJob(s', other)
    {
      if other != id && InJob(s, other) {
        var k :| k in s.jobs && s.jobs[k].id == other;
        assert s'.jobs[k].id == other;
      }
    }
  }

  lemma {:induction false} BeginKeepsSettled(s: State, step: Step)
    requires Inv(s) && Settled(s) && Enabled(s, step)
    requires step.SavePlanned? || step.ApplyAction? || step.SaveFailed? || step.SaveExecuted? || step.Compensate?
          || step.Activate?
    ensures Settled(Next(s, step))
  {
    hide Live, WorldOk, CapturedOk, Rollback, Apply, Save, ModeOk, RowOk, JobOk, Settled;
    assert BeginOk(s, step.id);
    if AppliedPhase(s.begins[step.id]) {
      PhaseIsSettled(s, step.id);
    }
    OneBeginSettles(s, Next(s, step), step.id);
  }

  lemma {:induction false} PhaseIsSettled(s: State, id: TransactionId)
    requires Settled(s) && id in s.begins && AppliedPhase(s.begins[id])
    ensures id in s.effects
  {
  }

  /** A step of one begin leaves the others as they are. */
  lemma {:induction false} OneBeginSettles(s: State, s': State, id: TransactionId)
    requires Settled(s) && s'.jobs == s.jobs && id !in s.active
    requires forall other | other != id ::
               && (other in s'.begins ==> other in s.begins && s'.begins[other] == s.begins[other])
               && (other in s'.effects <==> other in s.effects) && (other in s'.active <==> other in s.active)
    requires id in s'.begins && AppliedPhase(s'.begins[id]) ==> id in s'.effects
    requires id in s'.active ==> id in s'.effects
    ensures Settled(s')
  {
    forall other | other in s'.active
      ensures other in s'.effects || InJob(s', other)
    {
      assert InJob(s, other) ==> InJob(s', other);
    }
  }

  /** Recovery is started only while nothing is active, as the program does when it starts. */
  ghost predicate IdleRecovery(s: State) {
    s.mode.Recovering? ==> s.active == {}
  }

  lemma {:induction false} OtherStepKeepsSettled(s: State, step: Step)
    requires Inv(s) && Settled(s) && Enabled(s, step) && IdleRecovery(s)
    requires step.Exit? || step.Spawn? || step.Crash? || step.Boot? || step.RecoverAct? || step.RecoverSave?
          || step.FinishRecovery? || step.Refuse? || step.CaptureOriginal?
    ensures Settled(Next(s, step))
  {
    hide Live, WorldOk, CapturedOk, Rollback, Capture, Save, RowOk, JobOk;
    var s' := Next(s, step);
    assert s.mode.Recovering? ==> s.begins == map[];
    forall id | id in s'.active
      ensures id in s'.effects || InJob(s', id)
    {
      assert InJob(s, id) ==> InJob(s', id);
    }
  }

  lemma {:induction false} RunIsSettled(states: seq<State>, i: nat)
    requires Run(states) && i < |states| && forall j | 0 <= j < i :: IdleRecovery(states[j])
    ensures Settled(states[i])
  {
    hide Transition, Inv, Settled, Enabled, Next, IdleRecovery;
    if i == 0 {
      InitIsSettled(states[0]);
    } else {
      RunIsSettled(states, i - 1);
      RunKeepsInv(states, i - 1);
      assert Transition(states[i - 1], states[i - 1 + 1]);
      TransitionKeepsSettled(states[i - 1], states[i]);
    }
  }

  lemma {:induction false} InitIsSettled(s: State)
    requires Init(s)
    ensures Settled(s)
  {
  }

  lemma {:induction false} TransitionKeepsSettled(s: State, s': State)
    requires Inv(s) && Settled(s) && Transition(s, s') && IdleRecovery(s)
    ensures Settled(s')
  {
    hide Inv, Settled, Enabled, Next;
    var step :| Enabled(s, step) && s' == Next(s, step);
    match step
    case CopyActive(_, _) | RollbackAct(_, _, _) | RollbackSave(_, _) | Forget(_) => RollbackKeepsSettled(s, step);
    case SavePlanned(_, _) | ApplyAction(_, _, _) | SaveFailed(_, _) | SaveExecuted(_, _) | Compensate(_, _, _)
       | Activate(_) => BeginKeepsSettled(s, step);
    case _ => OtherStepKeepsSettled(s, step);
  }

  /**
   * The same in terms of the active set: if the target already carries this action for an active
   * transaction that no rollback has taken up, the capture is right exactly where lowering is without
   * effect.
   */
  lemma {:induction false} CaptureOverActive(states: seq<State>, step: Step, id: TransactionId)
    requires ExclusiveRun(states) && forall i | 0 <= i < |states| - 1 :: IdleRecovery(states[i])
    requires Enabled(states[|states| - 1], step) && step.CaptureOriginal?
    requires id in states[|states| - 1].active && !InJob(states[|states| - 1], id)
    ensures var s := states[|states| - 1];
            && id in s.captured && step.pid in s.world && step.id in Next(s, step).captured
            && Key(s.world[step.pid].identity) in s.pristine
            && (s.captured[id].action == step.action && SameIdentity(s.captured[id].identity,
                                                                     s.world[step.pid].identity) ==>
                 (OriginalIsPristine(Next(s, step).captured[step.id], s.pristine) <==>
                  AlreadyLow(step.action, s.pristine[Key(s.world[step.pid].identity)])))
  {
    hide IdleRecovery, Enabled, Next, OriginalIsPristine, AlreadyLow, ExclusiveTransition, UncontendedTransition,
        Init, Exact, AtMostOne;
    var s := states[|states| - 1];
    ExclusiveRunIsExact(states, |states| - 1);
    assert states[..|states|] == states;
    UncontendedRunIsPristine(states, |states| - 1);
    RunIsSettled(states, |states| - 1);
    ActiveIsCaptured(s, id);
    NextCaptureRecordsOwn(states, step);
  }

  lemma {:induction false} ActiveIsCaptured(s: State, id: TransactionId)
    requires Inv(s) && id in s.active
    ensures id in s.captured
  {
    hide RowOk, BeginOk, JobOk, ModeOk, WorldOk, CapturedOk;
  }
}
