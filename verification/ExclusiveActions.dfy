/**
 * One action at a time on each target. A caller can see which transactions are open: begins in flight,
 * the active set, rollbacks in flight, the rows that recovery still has to visit, and rows in PLANNED,
 * EXECUTED or ROLLBACK_FAILED. If no original is captured while another transaction on the same target
 * and action is open, there is never more than one.
 */
module ExclusiveActions {
  import opened ResourceActions
  import opened ProcessWorld
  import opened ActionJournals
  import opened ActionProtocol
  import opened PristineSettings
  import opened Wrappers

  /** A row whose action may still be in effect. */
  predicate OnRecord(journal: Journal, id: TransactionId) {
    id in journal && (Unfinished(journal[id].status) || journal[id].status == RollbackFailed)
  }

  ghost predicate InJob(s: State, id: TransactionId) {
    exists job | job in s.jobs :: s.jobs[job].id == id
  }

  ghost predicate InRecovery(s: State, id: TransactionId) {
    s.mode.Recovering? && exists i | 0 <= i < |s.mode.todo| :: s.mode.todo[i].0 == id
  }

  /** Everything here is in the memory of the program or in its journal. */
  ghost predicate Open(s: State, id: TransactionId) {
    id in s.begins || id in s.active || InJob(s, id) || InRecovery(s, id) || OnRecord(s.journal, id)
  }

  predicate SameTarget(tx: Transaction, tx': Transaction) {
    tx.action == tx'.action && SameIdentity(tx.identity, tx'.identity)
  }

  /** The discipline: a capture finds no open transaction on its target and action. */
  ghost predicate Exclusive(s: State, step: Step) {
    step.CaptureOriginal? && step.pid in s.world ==>
      forall id | id in s.captured && Open(s, id) && s.captured[id].action == step.action ::
        !SameIdentity(s.captured[id].identity, s.world[step.pid].identity)
  }

  ghost predicate AtMostOne(s: State) {
    forall a, b | a in s.captured && b in s.captured && Open(s, a) && Open(s, b)
      && SameTarget(s.captured[a], s.captured[b]) :: a == b
  }

  // ----- open transactions -----

  /** An action in effect on a live process is that of an open transaction. */
  lemma {:induction false} LiveEffectIsOpen(s: State, id: TransactionId)
    requires Inv(s) && id in s.effects && id in s.captured && Live(s.world, s.captured[id].identity)
    ensures Open(s, id)
  {
    hide Live, WorldOk, CapturedOk;
    assert RowOk(s, id);
  }

  lemma {:induction false} OthersStayOnRecord(journal: Journal, id: TransactionId, tx: Transaction, status: Status,
                                              saved: bool,
                                              other: TransactionId)
    requires other != id
    ensures OnRecord(Save(journal, id, tx, status, saved), other) <==> OnRecord(journal, other)
  {
  }

  /** No step but a capture opens a transaction. */
  lemma {:induction false} OpenShrinks(s: State, step: Step, id: TransactionId)
    requires Inv(s) && Enabled(s, step) && !step.CaptureOriginal? && id in s.captured
    requires Open(Next(s, step), id)
    ensures Open(s, id)
  {
    hide Inv, Rollback, Apply, Live, Save, OnRecord;
    match step
    case Boot(_) | RecoverAct(_, _) | RecoverSave(_) | FinishRecovery => RecoveryOpensNothing(s, step, id);
    case CopyActive(_, _) | RollbackAct(_, _, _) | RollbackSave(_, _) | Forget(_) => RollbackOpensNothing(s, step, id);
    case SavePlanned(_, _) | ApplyAction(_, _, _) | SaveFailed(_, _) | SaveExecuted(_, _) | Compensate(_, _, _)
       | Activate(_) => BeginOpensNothing(s, step, id);
    case Refuse(other, tx, status, saved) => OthersStayOnRecord(s.journal, other, tx, status, saved, id);
    case _ =>
  }

  lemma {:induction false} RecoveryOpensNothing(s: State, step: Step, id: TransactionId)
    requires Enabled(s, step) && Open(Next(s, step), id)
    requires step.Boot? || step.RecoverAct? || step.RecoverSave? || step.FinishRecovery?
    ensures Open(s, id)
  {
    hide Rollback, Save;
    match step
    case Boot(rows) =>
    case RecoverAct(_, _) =>
    case RecoverSave(saved) =>
      var (other, tx) := s.mode.todo[0];
      if id == other {
        assert InRecovery(s, id);
      } else {
        OthersStayOnRecord(s.journal, other, tx, StatusAfter(s.mode.outcome), saved, id);
        hide OnRecord;
      }
    case FinishRecovery =>
  }

  lemma {:induction false} RollbackOpensNothing(s: State, step: Step, id: TransactionId)
    requires Enabled(s, step) && Open(Next(s, step), id)
    requires step.CopyActive? || step.RollbackAct? || step.RollbackSave? || step.Forget?
    ensures Open(s, id)
  {
    hide Rollback, Save, OnRecord;
    match step
    case CopyActive(_, _) =>
    case RollbackAct(job, _, _) =>
      assert s.jobs[job].id == id ==> InJob(s, id);
    case RollbackSave(job, saved) =>
      var Job(other, phase) := s.jobs[job];
      if id == other {
        assert InJob(s, id);
      } else {
        OthersStayOnRecord(s.journal, other, s.captured[other], StatusAfter(phase.outcome), saved, id);
      }
    case Forget(_) =>
  }

  lemma {:induction false} BeginOpensNothing(s: State, step: Step, id: TransactionId)
    requires Enabled(s, step) && Open(Next(s, step), id)
    requires step.SavePlanned? || step.ApplyAction? || step.SaveFailed? || step.SaveExecuted? || step.Compensate?
          || step.Activate?
    ensures Open(s, id)
  {
    hide Rollback, Apply, Save, OnRecord;
    if step.id != id {
      match step
      case SavePlanned(other, saved) => OthersStayOnRecord(s.journal, other, s.captured[other], Planned, saved, id);
      case SaveFailed(other, saved) => OthersStayOnRecord(s.journal, other, s.captured[other], Failed, saved, id);
      case SaveExecuted(other, saved) => OthersStayOnRecord(s.journal, other, s.captured[other], Executed, saved, id);
      case _ =>
    }
  }

  lemma {:induction false} StepKeepsAtMostOne(s: State, step: Step)
    requires Inv(s) && AtMostOne(s) && Enabled(s, step) && Exclusive(s, step)
    ensures AtMostOne(Next(s, step))
  {
    hide Inv, Enabled, Next, Open, SameTarget;
    var s' := Next(s, step);
    StepCaptures(s, step);
    if step.CaptureOriginal? {
      CaptureKeepsAtMostOne(s, step);
    } else {
      forall a, b | a in s'.captured && b in s'.captured && Open(s', a) && Open(s', b)
        && SameTarget(s'.captured[a], s'.captured[b])
        ensures a == b
      {
        OpenShrinks(s, step, a);
        OpenShrinks(s, step, b);
      }
    }
  }

  lemma {:induction false} CaptureKeepsAtMostOne(s: State, step: Step)
    requires AtMostOne(s) && Enabled(s, step) && Exclusive(s, step) && step.CaptureOriginal?
    ensures AtMostOne(Next(s, step))
  {
    hide OnRecord, NormalizePath;
    var s' := Next(s, step);
    forall a, b | a in s'.captured && b in s'.captured && Open(s', a) && Open(s', b)
      && SameTarget(s'.captured[a], s'.captured[b])
      ensures a == b
    {
      assert a != step.id ==> Open(s, a);
      assert b != step.id ==> Open(s, b);
    }
  }
}
