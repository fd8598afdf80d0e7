/**
 * The coordinator itself: `Begin`, `Rollback`, `Tick` and `RecoverUnfinished` as they update the
 * journal and the active set. The ghost field `run` records every intermediate state and `Valid`
 * keeps it a run of the protocol, so whatever holds of runs holds between any two statements here.
 */
module ActionCoordinators {
  import opened ResourceActions
  import opened ProcessWorld
  import opened ActionJournals
  import opened ActionProtocol
  import opened ActionRecovery
  import opened PristineSettings
  import opened ExclusiveActions
  import opened ExactSettings
  import opened ExclusiveRuns
  import opened Wrappers
  import opened IntegerArithmetic

  datatype ActionContext = ActionContext(action: ResourceActionType, targetPid: nat, maxDurationMs: int)

  /** What the operating system, the safety shield and the journal answer during one `Begin`. */
  datatype BeginAnswers = BeginAnswers(
    shieldPassed: bool, safetyIdentity: Identity,
    openOk: bool, priorityRead: bool, memoryRead: bool, powerRead: bool,
    refusalSaved: bool, plannedSaved: bool,
    applyOpenOk: bool, applySetOk: bool, failedSaved: bool, executedSaved: bool,
    undoOpenOk: bool, undoSetOk: bool)

  /** What they answer during one rollback. */
  datatype UndoAnswers = UndoAnswers(openOk: bool, setOk: bool, saved: bool)

  const ALL_WELL := UndoAnswers(true, true, true)

  /** The part of the active set that has not expired at `now`. */
  function Unexpired(active: map<TransactionId, Transaction>, now: int): map<TransactionId, Transaction> {
    map id | id in active && active[id].expiresAtMs > now :: active[id]
  }

  /** Rolling back some rows in turn, and how many of them were restored or had exited. */
  function UndoInTurn(world: World, journal: Journal, rows: Rows, answers: TransactionId -> UndoAnswers):
    (World, Journal, nat)
    decreases |rows|
  {
    if |rows| == 0 then (world, journal, 0)
    else
      var (id, tx) := rows[0];
      var (world', outcome) := Rollback(world, tx, answers(id).openOk, answers(id).setOk);
      var rest := UndoInTurn(world', Save(journal, id, tx, StatusAfter(outcome), answers(id).saved), rows[1..],
                             answers);
      (rest.0, rest.1, rest.2 + if outcome == RollbackError then 0 else 1)
  }

  lemma {:induction false} UndoOneMore(world: World, journal: Journal, rows: Rows, id: TransactionId, tx: Transaction,
                                       answers: TransactionId -> UndoAnswers)
    ensures var (world', journal', _) := UndoInTurn(world, journal, rows, answers);
            var (world'', outcome) := Rollback(world', tx, answers(id).openOk, answers(id).setOk);
            var after := UndoInTurn(world, journal, rows + [(id, tx)], answers);
            after.0 == world'' && after.1 == Save(journal', id, tx, StatusAfter(outcome), answers(id).saved)
    decreases |rows|
  {
    hide Rollback, Save;
    if |rows| == 0 {
      assert rows + [(id, tx)] == [(id, tx)];
      assert [(id, tx)][1..] == [];
    } else {
      var (id0, tx0) := rows[0];
      var (world', outcome) := Rollback(world, tx0, answers(id0).openOk, answers(id0).setOk);
      UndoOneMore(world', Save(journal, id0, tx0, StatusAfter(outcome), answers(id0).saved), rows[1..], id, tx,
                  answers);
      assert (rows + [(id, tx)])[1..] == rows[1..] + [(id, tx)];
    }
  }

  /** Undoing rows in turn leaves the rows of other transactions alone, and turns no row into another. */
  lemma {:induction false} UndoKeepsOthers(world: World, journal: Journal, rows: Rows,
                                           answers: TransactionId -> UndoAnswers, id: TransactionId)
    requires id in journal && !Listed(rows, id)
    ensures var journal' := UndoInTurn(world, journal, rows, answers).1;
            id in journal' && journal'[id] == journal[id]
    decreases |rows|
  {
    hide Rollback;
    if |rows| > 0 {
      var (first, tx) := rows[0];
      assert Listed(rows, first);
      var (world', outcome) := Rollback(world, tx, answers(first).openOk, answers(first).setOk);
      assert forall i | 0 <= i < |rows[1..]| :: rows[1..][i] == rows[i + 1];
      UndoKeepsOthers(world', Save(journal, first, tx, StatusAfter(outcome), answers(first).saved), rows[1..], answers,
                      id);
    }
  }

  /** The transactions of these rows that the journal has as undone. */
  ghost function UndoneIn(journal: Journal, rows: Rows): set<TransactionId> {
    set id | id in journal && Listed(rows, id) && journal[id].status in {RolledBack, TargetExited}
  }

  /** If the journal takes every write, the count is that of the transactions which it has as rolled back or exited. */
  lemma {:induction false} UndoneCount(world: World, journal: Journal, rows: Rows,
                                       answers: TransactionId -> UndoAnswers)
    requires forall i | 0 <= i < |rows| :: rows[i].0 in journal && answers(rows[i].0).saved
    requires forall i, j | 0 <= i < j < |rows| :: rows[i].0 != rows[j].0
    ensures var (_, journal', count) := UndoInTurn(world, journal, rows, answers);
            count == |UndoneIn(journal', rows)|
    decreases |rows|
  {
    hide Rollback;
    if |rows| == 0 {
      assert UndoneIn(UndoInTurn(world, journal, rows, answers).1, rows) == {};
    } else {
      var (first, tx) := rows[0];
      var (world', outcome) := Rollback(world, tx, answers(first).openOk, answers(first).setOk);
      var journal1, rest := Save(journal, first, tx, StatusAfter(outcome), true), rows[1..];
      UndoneCount(world', journal1, rest, answers);
      forall i | 0 <= i < |rest|
        ensures rest[i] == rows[i + 1] && rest[i].0 != first
      {
      }
      UndoKeepsOthers(world', journal1, rest, answers, first);
      OneMoreUndone(UndoInTurn(world', journal1, rest, answers).1, rows);
    }
  }

  lemma {:induction false} CountIsOfUndone(world: World, journal: Journal, rows: Rows,
                                           answers: TransactionId -> UndoAnswers)
    requires SomeUnfinished(journal, rows) && forall id :: answers(id).saved
    ensures var (_, journal', count) := UndoInTurn(world, journal, rows, answers);
            count == |UndoneIn(journal', rows)|
  {
    UndoneCount(world, journal, rows, answers);
  }

  lemma {:induction false} OneMoreUndone(journal: Journal, rows: Rows)
    requires |rows| > 0 && rows[0].0 in journal && !Listed(rows[1..], rows[0].0)
    ensures |UndoneIn(journal, rows)|
            == |UndoneIn(journal, rows[1..])| + if journal[rows[0].0].status in {RolledBack, TargetExited} then 1 else 0
  {
    forall id
      ensures Listed(rows, id) <==> id == rows[0].0 || Listed(rows[1..], id)
    {
      ListedFirst(rows, id);
    }
    hide Listed;
    var first, rest := rows[0].0, UndoneIn(journal, rows[1..]);
    if journal[first].status in {RolledBack, TargetExited} {
      assert UndoneIn(journal, rows) == rest + {first};
    } else {
      assert UndoneIn(journal, rows) == rest;
    }
  }

  lemma {:induction false} ListedFirst(rows: Rows, id: TransactionId)
    requires |rows| > 0
    ensures Listed(rows, id) <==> id == rows[0].0 || Listed(rows[1..], id)
  {
    assert forall i | 0 <= i < |rows[1..]| :: rows[1..][i] == rows[i + 1];
    if i :| 0 <= i < |rows| && rows[i].0 == id {
      assert i > 0 ==> rows[1..][i - 1].0 == id;
    }
  }

  /** When every answer is favourable, that is the recovery whose result `RecoveryResult` states. */
  lemma {:induction false} FavourableRecovery(world: World, journal: Journal, rows: Rows,
                                              answers: TransactionId -> UndoAnswers)
    requires forall id :: answers(id) == ALL_WELL
    ensures var (world', journal', _) := UndoInTurn(world, journal, rows, answers);
            (world', journal') == RecoverAll(world, journal, rows)
    decreases |rows|
  {
    hide Rollback, Save;
    if |rows| > 0 {
      var (id, tx) := rows[0];
      var (world', outcome) := Rollback(world, tx, true, true);
      FavourableRecovery(world', Save(journal, id, tx, StatusAfter(outcome), true), rows[1..], answers);
    }
  }

  /**
   * A recovery that went well: the recorded originals are back exactly when the rows agree, and the targets'
   * own settings exactly when the last rows recorded them. After an exclusive run every setting of every
   * process is its own but for what recovery left in effect. With every unfinished row loaded, that is what
   * a failed rollback left in effect, and there is nothing left to load.
   */
  ghost predicate RecoveredWell(states: seq<State>, rows: Rows, world': World, journal': Journal)
    requires |states| > 0
  {
    var s := states[|states| - 1];
    && (AllRestored(s.world, rows, world') <==> Agree(s.world, rows))
    && (AllOwn(s, rows, world') <==> LastRowsOwn(s, rows))
    && (ExclusiveRun(states) ==> AllOwn(s, rows, world') && RecoveredButLeft(s, rows, world'))
    && (IsUnfinishedPart(s.journal, rows) ==>
          && (ExclusiveRun(states) ==> RecoveredButFailed(s, world'))
          && forall again: Rows | IsUnfinishedPart(journal', again) :: again == [])
  }

  lemma {:induction false} FavourableRecoveryIsWell(states: seq<State>, rows: Rows,
                                                    answers: TransactionId -> UndoAnswers)
    requires |states| > 0 && Run(states) && SomeUnfinished(states[|states| - 1].journal, rows)
    requires forall id :: answers(id) == ALL_WELL
    ensures var s := states[|states| - 1];
            var (world', journal', _) := UndoInTurn(s.world, s.journal, rows, answers);
            RecoveredWell(states, rows, world', journal')
  {
    hide Run, ExclusiveRun, UndoInTurn, RecoverAll, SomeUnfinished, IsUnfinishedPart, AllRestored, Agree, AllOwn,
        LastRowsOwn, RecoveredButLeft, RecoveredButFailed, Inv;
    var s := states[|states| - 1];
    RunKeepsInv(states, |states| - 1);
    RowsAreCaptured(s, rows);
    FavourableRecovery(s.world, s.journal, rows, answers);
    RecoveryRestoresAll(s.world, s.journal, rows);
    RecoveryRestoresOwn(states, |states| - 1, rows);
    if ExclusiveRun(states) {
      RecoveryAfterExclusiveRun(states, rows);
    }
    if IsUnfinishedPart(s.journal, rows) {
      forall again: Rows | IsUnfinishedPart(RecoverAll(s.world, s.journal, rows).1, again)
        ensures again == []
      {
        SecondRecoveryFindsNothing(s.world, s.journal, rows, again);
      }
    }
  }

  lemma {:induction false} ListedStays(rows: Rows, id: TransactionId, tx: Transaction)
    ensures forall other :: Listed(rows + [(id, tx)], other) <==> other == id || Listed(rows, other)
  {
    var more := rows + [(id, tx)];
    assert more[|rows|].0 == id;
    assert forall i | 0 <= i < |rows| :: more[i] == rows[i];
  }

  function UnfinishedIds(journal: Journal): set<TransactionId> {
    set id | id in journal && Unfinished(journal[id].status)
  }

  /** `rows` is the expired part of the active set, in some order. */
  ghost predicate IsExpiredPart(active: map<TransactionId, Transaction>, now: int, rows: Rows) {
    && (forall i, j | 0 <= i < j < |rows| :: rows[i].0 != rows[j].0)
    && (forall i | 0 <= i < |rows| ::
          rows[i].0 in active && active[rows[i].0] == rows[i].1 && rows[i].1.expiresAtMs <= now)
    && (forall id | id in active && active[id].expiresAtMs <= now :: exists i | 0 <= i < |rows| :: rows[i].0 == id)
  }

  const UNKNOWN_IDENTITY := Identity(0, 0, "")
  const NOTHING_CAPTURED := OriginalState(Settings(0, 0, 0, 0), false, false, false)

  // ----- the protocol steps of one uninterrupted begin -----

  lemma {:induction false} PlanSteps(s: State, id: TransactionId, action: ResourceActionType, pid: nat,
                                     memoryRead: bool, powerRead: bool,
                  startedAtMs: int, expiresAtMs: int, saved: bool)
    requires s.mode.Running? && id !in s.captured && id !in s.journal && s.begins == map[] && action != NoAction
    requires Capture(s.world, action, pid, true, true, memoryRead, powerRead).CaptureOk?
    requires 1 <= expiresAtMs - startedAtMs <= 300000
    ensures var capture := CaptureOriginal(id, action, pid, memoryRead, powerRead, startedAtMs, expiresAtMs);
            var result := Capture(s.world, action, pid, true, true, memoryRead, powerRead);
            var tx := Transaction(action, result.identity, result.original, startedAtMs, expiresAtMs);
            && Enabled(s, capture)
            && Enabled(Next(s, capture), SavePlanned(id, saved))
            && Next(Next(s, capture), SavePlanned(id, saved)) ==
               s.(captured := s.captured[id := tx], journal := Save(s.journal, id, tx, Planned, saved),
                  begins := if saved then map[id := Applying] else map[])
  {
    hide Capture, Save;
    var s1 := Next(s, CaptureOriginal(id, action, pid, memoryRead, powerRead, startedAtMs, expiresAtMs));
    assert s1.begins == map[id := SavingPlanned] && s1.begins[id := Applying] == map[id := Applying];
    assert s1.begins - {id} == map[];
  }

  lemma {:induction false} ApplyStep(s: State, id: TransactionId, openOk: bool, setOk: bool)
    requires id in s.captured && s.begins == map[id := Applying]
    ensures Enabled(s, ApplyAction(id, openOk, setOk))
    ensures var (world, ok) := Apply(s.world, s.captured[id], openOk, setOk);
            Next(s, ApplyAction(id, openOk, setOk)) ==
            if ok then s.(world := world, effects := s.effects + {id}, begins := map[id := SavingExecuted])
            else s.(begins := map[id := SavingFailed])
  {
    hide Apply;
    assert forall phase :: s.begins[id := phase] == map[id := phase];
  }

  lemma {:induction false} SaveFailedStep(s: State, id: TransactionId, saved: bool)
    requires id in s.captured && s.begins == map[id := SavingFailed]
    ensures Enabled(s, SaveFailed(id, saved))
    ensures Next(s, SaveFailed(id, saved)) ==
            s.(journal := Save(s.journal, id, s.captured[id], Failed, saved), begins := map[])
  {
    hide Save;
    assert s.begins - {id} == map[];
  }

  lemma {:induction false} ActivateSteps(s: State, id: TransactionId)
    requires id in s.captured && s.begins == map[id := SavingExecuted]
    ensures Enabled(s, SaveExecuted(id, true)) && Enabled(Next(s, SaveExecuted(id, true)), Activate(id))
    ensures Next(Next(s, SaveExecuted(id, true)), Activate(id)) ==
            s.(journal := Save(s.journal, id, s.captured[id], Executed, true), begins := map[],
               active := s.active + {id})
  {
    hide Save;
    var s1 := Next(s, SaveExecuted(id, true));
    assert s1.begins == map[id := Activating] && s1.begins - {id} == map[];
  }

  lemma {:induction false} CompensateSteps(s: State, id: TransactionId, openOk: bool, setOk: bool)
    requires id in s.captured && s.begins == map[id := SavingExecuted]
    ensures Enabled(s, SaveExecuted(id, false))
    ensures Enabled(Next(s, SaveExecuted(id, false)), Compensate(id, openOk, setOk))
    ensures var (world, outcome) := Rollback(s.world, s.captured[id], openOk, setOk);
            Next(Next(s, SaveExecuted(id, false)), Compensate(id, openOk, setOk)) ==
            s.(world := world, effects := if outcome == Restored then s.effects - {id} else s.effects, begins := map[])
  {
    hide Rollback;
    var s1 := Next(s, SaveExecuted(id, false));
    assert s1.begins == map[id := Compensating] && s1.begins - {id} == map[];
  }

  // ----- the protocol steps of one recovered row -----

  lemma {:induction false} RecoverySteps(s: State, answers: UndoAnswers)
    requires s.mode.Recovering? && |s.mode.todo| > 0 && !s.mode.acted
    ensures var act, save := RecoverAct(answers.openOk, answers.setOk), RecoverSave(answers.saved);
            var (id, tx) := s.mode.todo[0];
            var (world, outcome) := Rollback(s.world, tx, answers.openOk, answers.setOk);
            && Enabled(s, act) && Enabled(Next(s, act), save)
            && Next(Next(s, act), save) ==
               s.(world := world, effects := if outcome == Restored then s.effects - {id} else s.effects,
                  journal := Save(s.journal, id, tx, StatusAfter(outcome), answers.saved),
                  mode := Recovering(s.mode.todo[1..], false, outcome))
  {
    hide Rollback, Save, StatusAfter;
  }

  // ----- the protocol steps of one uninterrupted rollback -----

  lemma {:induction false} CopyStep(s: State, id: TransactionId)
    requires id in s.active && s.jobs == map[]
    ensures Enabled(s, CopyActive(0, id))
    ensures Next(s, CopyActive(0, id)) == s.(jobs := map[0 := Job(id, Acting)])
  {
  }

  lemma {:induction false} ActStep(s: State, id: TransactionId, openOk: bool, setOk: bool)
    requires id in s.captured && s.jobs == map[0 := Job(id, Acting)]
    ensures Enabled(s, RollbackAct(0, openOk, setOk))
    ensures var (world, outcome) := Rollback(s.world, s.captured[id], openOk, setOk);
            Next(s, RollbackAct(0, openOk, setOk)) ==
            s.(world := world, effects := if outcome == Restored then s.effects - {id} else s.effects,
               jobs := map[0 := Job(id, Saving(outcome))])
  {
    hide Rollback;
  }

  lemma {:induction false} SaveStep(s: State, id: TransactionId, outcome: RollbackOutcome, saved: bool)
    requires id in s.captured && s.jobs == map[0 := Job(id, Saving(outcome))]
    ensures Enabled(s, RollbackSave(0, saved))
    ensures Next(s, RollbackSave(0, saved)) ==
            s.(journal := Save(s.journal, id, s.captured[id], StatusAfter(outcome), saved),
               jobs := map[0 := Job(id, Forgetting)])
  {
    hide Save, StatusAfter;
  }

  lemma {:induction false} ForgetStep(s: State, id: TransactionId)
    requires s.jobs == map[0 := Job(id, Forgetting)]
    ensures Enabled(s, Forget(0))
    ensures Next(s, Forget(0)) == s.(active := s.active - {id}, jobs := map[])
  {
    assert s.jobs - {0} == map[];
  }

  /** Every check, capture, write and call along the successful path of `Begin`. */
  predicate Succeeds(world: World, context: ActionContext, answers: BeginAnswers) {
    && context.action != NoAction && answers.shieldPassed
    && var capture := Capture(world, context.action, context.targetPid,
                              answers.openOk, answers.priorityRead, answers.memoryRead, answers.powerRead);
    && capture.CaptureOk? && SameIdentity(answers.safetyIdentity, capture.identity)
    && answers.plannedSaved && answers.executedSaved
    && CanApply(world, context.action, capture.identity, answers.applyOpenOk, answers.applySetOk)
  }

  lemma NothingUndone(world: World, journal: Journal, answers: TransactionId -> UndoAnswers)
    ensures UndoInTurn(world, journal, [], answers) == (world, journal, 0)
  {
  }

  /** Part of the way: `rows` are the expired transactions that have left the active set. */
  ghost predicate TurnsTaken(before: map<TransactionId, Transaction>, active: map<TransactionId, Transaction>,
                             now: int, rows: Rows) {
    && (forall i, j | 0 <= i < j < |rows| :: rows[i].0 != rows[j].0)
    && (forall i | 0 <= i < |rows| ::
          rows[i].0 in before && rows[i].0 !in active && before[rows[i].0] == rows[i].1 && rows[i].1.expiresAtMs <= now)
    && (forall id | id in before :: id in active || exists i | 0 <= i < |rows| :: rows[i].0 == id)
    && (forall id | id in active :: id in before && active[id] == before[id])
  }

  lemma NoTurnTaken(active: map<TransactionId, Transaction>, now: int)
    ensures TurnsTaken(active, active, now, [])
  {
  }

  lemma {:induction false} AllTurnsTaken(before: map<TransactionId, Transaction>, active: map<TransactionId,
                                         Transaction>,
                                         now: int, rows: Rows)
    requires TurnsTaken(before, active, now, rows) && forall id | id in active :: active[id].expiresAtMs > now
    ensures IsExpiredPart(before, now, rows) && active == Unexpired(before, now)
  {
    forall id | id in before && before[id].expiresAtMs > now
      ensures id in active
    {
      assert forall i | 0 <= i < |rows| :: rows[i].0 != id;
    }
  }

  lemma {:induction false} OneMoreTurn(before: map<TransactionId, Transaction>, active: map<TransactionId, Transaction>,
                                       now: int, rows: Rows, id: TransactionId)
    requires TurnsTaken(before, active, now, rows)
    requires id in active && active[id].expiresAtMs <= now
    ensures TurnsTaken(before, active - {id}, now, rows + [(id, active[id])])
  {
    var more := rows + [(id, active[id])];
    assert more[|rows|].0 == id;
    forall other | other in before && other !in active - {id}
      ensures exists i | 0 <= i < |more| :: more[i].0 == other
    {
      if other != id {
        var i :| 0 <= i < |rows| && rows[i].0 == other;
        assert more[i].0 == other;
      }
    }
  }

  // ----- the whole effect of a begin -----

  datatype Begun = Begun(status: Status, world: World, journal: Journal, active: map<TransactionId, Transaction>)

  /** From the PLANNED row on: apply, record, and either activate or undo. */
  function Carried(world: World, journal: Journal, active: map<TransactionId, Transaction>, id: TransactionId,
                   tx: Transaction, answers: BeginAnswers): Begun
  {
    var (changed, applied) := Apply(world, tx, answers.applyOpenOk, answers.applySetOk);
    if !applied then Begun(Failed, changed, Save(journal, id, tx, Failed, answers.failedSaved), active)
    else if !answers.executedSaved then
      var (undone, outcome) := Rollback(changed, tx, answers.undoOpenOk, answers.undoSetOk);
      Begun(if outcome == Restored then RolledBack else RollbackFailed, undone, journal, active)
    else Begun(Executed, changed, Save(journal, id, tx, Executed, true), active[id := tx])
  }

  function Began(world: World, journal: Journal, active: map<TransactionId, Transaction>, context: ActionContext,
                 id: TransactionId, now: int, maximumSeconds: int, answers: BeginAnswers): Begun
  {
    var expires := now + Clamp(context.maxDurationMs, 1, maximumSeconds * 1000);
    var unknown := Transaction(context.action, UNKNOWN_IDENTITY, NOTHING_CAPTURED, now, expires);
    var capture := Capture(world, context.action, context.targetPid,
                           answers.openOk, answers.priorityRead, answers.memoryRead, answers.powerRead);
    if context.action == NoAction || !answers.shieldPassed
    then Begun(Blocked, world, Save(journal, id, unknown, Blocked, answers.refusalSaved), active)
    else if capture.CaptureFailed?
    then Begun(Failed, world, Save(journal, id, unknown, Failed, answers.refusalSaved), active)
    else
      var tx := Transaction(context.action, capture.identity, capture.original, now, expires);
      if !SameIdentity(answers.safetyIdentity, tx.identity)
      then Begun(Blocked, world, Save(journal, id, tx, Blocked, answers.refusalSaved), active)
      else if !answers.plannedSaved then Begun(Failed, world, journal, active)
      else Carried(world, Save(journal, id, tx, Planned, true), active, id, tx, answers)
  }

  /** The row that covers a change: the original of the aspect that changed, and a status that recovery looks at. */
  ghost predicate Covers(journal: Journal, id: TransactionId, context: ActionContext, world: World) {
    && UnfinishedRow(journal, id)
    && var tx := journal[id].transaction;
       && Live(world, tx.identity) && tx.identity.pid == context.targetPid && tx.action == context.action
       && Aspect(tx.action, tx.original.settings) == Aspect(tx.action, world[context.targetPid].settings)
  }

  ghost predicate WorldIsCovered(world: World, context: ActionContext, id: TransactionId, after: Begun) {
    && (after.world != world ==> Covers(after.journal, id, context, world))
    && (after.status == Blocked ==> after.world == world && !UnfinishedRow(after.journal, id))
    && (after.status == RolledBack ==>
          && context.targetPid in after.world && context.targetPid in world
          && Aspect(context.action, after.world[context.targetPid].settings)
             == Aspect(context.action, world[context.targetPid].settings))
  }

  ghost predicate ActiveIsRecorded(journal: Journal, active: map<TransactionId, Transaction>, id: TransactionId,
                                   now: int,
                                   after: Begun)
  {
    && (forall other | other in journal && other != id ::
          other in after.journal && after.journal[other] == journal[other])
    && (after.status != Executed ==> after.active == active)
    && (after.status == Executed ==>
          && id in after.journal && after.journal[id].status == Executed
          && after.active == active[id := after.journal[id].transaction]
          && 1 <= after.active[id].expiresAtMs - now <= 300000)
  }

  /** The reads of a capture that an action needs all succeed, on a process that is there. */
  ghost predicate Readable(world: World, context: ActionContext, answers: BeginAnswers) {
    && context.targetPid in world && answers.openOk && answers.priorityRead
    && world[context.targetPid].settings.priorityClass != 0
    && (context.action == LowerMemoryPriority ==> answers.memoryRead)
    && (context.action == EnableEcoQos ==> answers.powerRead)
  }

  /** The status of a begin, told by the answers that it gets: the first that is not favourable decides. */
  ghost predicate StatusTold(world: World, context: ActionContext, answers: BeginAnswers, status: Status) {
    if context.action == NoAction || !answers.shieldPassed then status == Blocked
    else if !Readable(world, context, answers) then status == Failed
    else if !SameIdentity(answers.safetyIdentity, world[context.targetPid].identity) then status == Blocked
    else if !answers.plannedSaved || !answers.applyOpenOk || !answers.applySetOk then status == Failed
    else if answers.executedSaved then status == Executed
    else if answers.undoOpenOk && answers.undoSetOk then status == RolledBack
    else status == RollbackFailed
  }

  /** What a begin leaves on its target: the effect of the action exactly if it is in effect, and nothing elsewhere. */
  ghost predicate TargetTold(world: World, context: ActionContext, after: Begun) {
    var pid := context.targetPid;
    && after.world.Keys == world.Keys && (forall p | p in world && p != pid :: after.world[p] == world[p])
    && (after.status in {Executed, RollbackFailed} ==>
          && pid in world && after.world[pid].identity == world[pid].identity
          && TakesEffect(context.action, world[pid].settings, after.world[pid].settings))
    && (after.status in {Blocked, Failed} ==> after.world == world)
  }

  /** A begin that is turned down before it plans anything. */
  ghost predicate TurnedDown(world: World, context: ActionContext, answers: BeginAnswers) {
    || context.action == NoAction || !answers.shieldPassed || !Readable(world, context, answers)
    || !SameIdentity(answers.safetyIdentity, world[context.targetPid].identity)
  }

  /**
   * The row that a begin leaves. One that is turned down is on record with its status, if that was written;
   * any other stays PLANNED until EXECUTED or FAILED is written. It runs out after the requested duration,
   * which is at least a millisecond and at most the limit.
   */
  ghost predicate RowTold(world: World, context: ActionContext, answers: BeginAnswers, id: TransactionId, now: int,
                          maximumSeconds: int, after: Begun)
  {
    && (id in after.journal <==> if TurnedDown(world, context, answers) then answers.refusalSaved
                                 else answers.plannedSaved)
    && (id in after.journal ==>
          && var Row(tx, status) := after.journal[id];
          && status == (if TurnedDown(world, context, answers) || after.status == Executed then after.status
                        else if after.status == Failed && answers.failedSaved then Failed else Planned)
          && tx.action == context.action && tx.startedAtMs == now
          && tx.expiresAtMs - now == (if context.maxDurationMs < 1 then 1
                                      else if context.maxDurationMs > maximumSeconds * 1000 then maximumSeconds * 1000
                                      else context.maxDurationMs))
  }

  lemma {:induction false} CarriedIsTold(world: World, journal: Journal, active: map<TransactionId, Transaction>,
                                         context: ActionContext, id: TransactionId, tx: Transaction,
                                         answers: BeginAnswers)
    requires id in journal && journal[id] == Row(tx, Planned) && tx.action == context.action != NoAction
    requires context.targetPid in world && tx.identity == world[context.targetPid].identity
    requires tx.identity.pid == context.targetPid && world[context.targetPid].settings.priorityClass != 0
    requires Captured(tx.action, tx.original)
    ensures var after := Carried(world, journal, active, id, tx, answers);
            && after.status == (if !answers.applyOpenOk || !answers.applySetOk then Failed
                                else if answers.executedSaved then Executed
                                else if answers.undoOpenOk && answers.undoSetOk then RolledBack else RollbackFailed)
            && TargetTold(world, context, after)
            && id in after.journal && after.journal[id].transaction == tx
            && after.journal[id].status == (if after.status == Executed then Executed
                                            else if after.status == Failed && answers.failedSaved then Failed
                                            else Planned)
  {
    hide NormalizePath, Apply, Rollback, TakesEffect, TakesBack, Captured, CanApply;
    var (changed, ok) := Apply(world, tx, answers.applyOpenOk, answers.applySetOk);
    ApplyTakesEffect(world, tx, answers.applyOpenOk, answers.applySetOk);
    RollbackTakesBack(changed, tx, answers.undoOpenOk, answers.undoSetOk);
  }

  lemma {:induction false} CarriedIsCovered(world: World, journal: Journal, active: map<TransactionId, Transaction>,
                                            context: ActionContext, id: TransactionId, tx: Transaction,
                                            answers: BeginAnswers)
    requires id in journal && journal[id] == Row(tx, Planned)
    requires tx.action == context.action && tx.identity.pid == context.targetPid && Captured(tx.action, tx.original)
    requires context.targetPid in world
             && Aspect(tx.action, tx.original.settings) == Aspect(tx.action, world[context.targetPid].settings)
    ensures WorldIsCovered(world, context, id, Carried(world, journal, active, id, tx, answers))
  {
    hide SameIdentity, Aspect, Captured, Lowered, Undone;
    UndoneAspect(tx, Lowered(tx.action, world[context.targetPid].settings));
    UndoneAspect(tx, world[context.targetPid].settings);
  }

  lemma {:induction false} CarriedIsRecorded(world: World, journal: Journal, active: map<TransactionId, Transaction>,
                                             id: TransactionId, tx: Transaction, now: int, answers: BeginAnswers)
    requires id in journal && journal[id] == Row(tx, Planned) && 1 <= tx.expiresAtMs - now <= 300000
    ensures ActiveIsRecorded(journal, active, id, now, Carried(world, journal, active, id, tx, answers))
    ensures Carried(world, journal, active, id, tx, answers).status == Executed <==>
            CanApply(world, tx.action, tx.identity, answers.applyOpenOk, answers.applySetOk) && answers.executedSaved
    ensures Carried(world, journal, active, id, tx, answers).status in {Failed, RolledBack, RollbackFailed, Executed}
  {
    hide SameIdentity, CanApply, Rollback, Lowered;
  }

  function CaptureFor(world: World, context: ActionContext, answers: BeginAnswers): CaptureResult {
    Capture(world, context.action, context.targetPid,
            answers.openOk, answers.priorityRead, answers.memoryRead, answers.powerRead)
  }

  /** Every check up to and including the PLANNED write. */
  predicate GetsPlanned(world: World, context: ActionContext, answers: BeginAnswers) {
    && context.action != NoAction && answers.shieldPassed
    && CaptureFor(world, context, answers).CaptureOk?
    && SameIdentity(answers.safetyIdentity, CaptureFor(world, context, answers).identity)
    && answers.plannedSaved
  }

  function PlannedTransaction(world: World, context: ActionContext, now: int, maximumSeconds: int,
                              answers: BeginAnswers):
    Transaction
    requires GetsPlanned(world, context, answers)
  {
    var capture := CaptureFor(world, context, answers);
    Transaction(context.action, capture.identity, capture.original, now,
                now + Clamp(context.maxDurationMs, 1, maximumSeconds * 1000))
  }

  lemma {:induction false} PlannedBegin(world: World, journal: Journal, active: map<TransactionId, Transaction>,
                                        context: ActionContext, id: TransactionId, now: int, maximumSeconds: int,
                                        answers: BeginAnswers)
    requires GetsPlanned(world, context, answers) && id !in journal
    ensures var tx := PlannedTransaction(world, context, now, maximumSeconds, answers);
            && Began(world, journal, active, context, id, now, maximumSeconds, answers)
               == Carried(world, journal[id := Row(tx, Planned)], active, id, tx, answers)
            && (Succeeds(world, context, answers) <==>
                  CanApply(world, tx.action, tx.identity, answers.applyOpenOk, answers.applySetOk)
                      && answers.executedSaved)
  {
    hide Capture, SameIdentity, CanApply, Carried;
  }

  lemma {:induction false} RefusedBegin(world: World, journal: Journal, active: map<TransactionId, Transaction>,
                                        context: ActionContext, id: TransactionId, now: int, maximumSeconds: int,
                                        answers: BeginAnswers)
    requires !GetsPlanned(world, context, answers) && id !in journal
    ensures var after := Began(world, journal, active, context, id, now, maximumSeconds, answers);
            && WorldIsCovered(world, context, id, after) && ActiveIsRecorded(journal, active, id, now, after)
            && after.status != Executed && !Succeeds(world, context, answers)
  {
    hide Capture, SameIdentity, CanApply, Carried, Aspect;
  }

  lemma {:induction false} RecordedOverPlanned(journal: Journal, active: map<TransactionId, Transaction>,
                                               id: TransactionId,
                                               tx: Transaction, now: int, after: Begun)
    requires id !in journal && ActiveIsRecorded(journal[id := Row(tx, Planned)], active, id, now, after)
    ensures ActiveIsRecorded(journal, active, id, now, after)
  {
    forall other | other in journal && other != id
      ensures other in after.journal && after.journal[other] == journal[other]
    {
      assert other in journal[id := Row(tx, Planned)];
    }
  }

  lemma CaptureIsOfTarget(world: World, action: ResourceActionType, pid: nat, answers: BeginAnswers)
    requires forall p | p in world :: world[p].identity.pid == p
    ensures var capture := Capture(world, action, pid, answers.openOk, answers.priorityRead, answers.memoryRead,
                                   answers.powerRead);
            capture.CaptureOk? ==>
              && pid in world && capture.identity.pid == pid && Captured(action, capture.original)
              && Aspect(action, capture.original.settings) == Aspect(action, world[pid].settings)
  {
  }

  lemma {:induction false} UnplannedIsTold(world: World, journal: Journal, active: map<TransactionId, Transaction>,
                                           context: ActionContext, id: TransactionId, now: int, maximumSeconds: int,
                                           answers: BeginAnswers)
    requires id !in journal && 1 <= maximumSeconds <= 300 && !GetsPlanned(world, context, answers)
    ensures var after := Began(world, journal, active, context, id, now, maximumSeconds, answers);
            && StatusTold(world, context, answers, after.status)
            && TargetTold(world, context, after)
            && RowTold(world, context, answers, id, now, maximumSeconds, after)
  {
    hide SameIdentity, Capture, Carried, TakesEffect;
    CaptureRecords(world, context.action, context.targetPid, answers.openOk, answers.priorityRead, answers.memoryRead,
                   answers.powerRead);
  }

  lemma {:induction false} PlannedIsTold(world: World, journal: Journal, active: map<TransactionId, Transaction>,
                                         context: ActionContext, id: TransactionId, now: int, maximumSeconds: int,
                                         answers: BeginAnswers)
    requires id !in journal && 1 <= maximumSeconds <= 300 && GetsPlanned(world, context, answers)
    requires forall p | p in world :: world[p].identity.pid == p
    ensures var after := Began(world, journal, active, context, id, now, maximumSeconds, answers);
            && StatusTold(world, context, answers, after.status)
            && TargetTold(world, context, after)
            && RowTold(world, context, answers, id, now, maximumSeconds, after)
  {
    hide SameIdentity, Capture, Carried, TakesEffect, Began, TargetTold;
    CaptureRecords(world, context.action, context.targetPid, answers.openOk, answers.priorityRead, answers.memoryRead,
                   answers.powerRead);
    CaptureIsOfTarget(world, context.action, context.targetPid, answers);
    PlannedBegin(world, journal, active, context, id, now, maximumSeconds, answers);
    var tx := PlannedTransaction(world, context, now, maximumSeconds, answers);
    CarriedIsTold(world, journal[id := Row(tx, Planned)], active, context, id, tx, answers);
  }

  /** The whole outcome of a begin, told by the answers that it gets. */
  lemma {:induction false} BeginIsTold(world: World, journal: Journal, active: map<TransactionId, Transaction>,
                                       context: ActionContext, id: TransactionId, now: int, maximumSeconds: int,
                                       answers: BeginAnswers)
    requires id !in journal && 1 <= maximumSeconds <= 300
    requires forall p | p in world :: world[p].identity.pid == p
    ensures var after := Began(world, journal, active, context, id, now, maximumSeconds, answers);
            && StatusTold(world, context, answers, after.status)
            && TargetTold(world, context, after)
            && RowTold(world, context, answers, id, now, maximumSeconds, after)
  {
    hide NormalizePath, Began, Carried, StatusTold, TargetTold, RowTold, GetsPlanned, TurnedDown;
    if GetsPlanned(world, context, answers) {
      PlannedIsTold(world, journal, active, context, id, now, maximumSeconds, answers);
    } else {
      UnplannedIsTold(world, journal, active, context, id, now, maximumSeconds, answers);
    }
  }

  /**
   * What a begin promises. The world differs afterwards only under a row that recovery would undo,
   * with the original of the aspect that changed; a transaction is active exactly when every step
   * succeeded, and then expires within the limit; a begin that undid its action restored that aspect;
   * no other row or active transaction is touched; and the status, the settings of the target and the row
   * are told by the answers alone.
   */
  lemma {:induction false} BeginIsWriteAhead(world: World, journal: Journal, active: map<TransactionId, Transaction>,
                                             context: ActionContext, id: TransactionId, now: int, maximumSeconds: int,
                                             answers: BeginAnswers)
    requires id !in journal && 1 <= maximumSeconds <= 300
    requires forall p | p in world :: world[p].identity.pid == p
    ensures var after := Began(world, journal, active, context, id, now, maximumSeconds, answers);
            && WorldIsCovered(world, context, id, after)
            && ActiveIsRecorded(journal, active, id, now, after)
            && (after.status == Executed <==> Succeeds(world, context, answers))
            && StatusTold(world, context, answers, after.status) && TargetTold(world, context, after)
            && RowTold(world, context, answers, id, now, maximumSeconds, after)
  {
    BeginIsTold(world, journal, active, context, id, now, maximumSeconds, answers);
    hide StatusTold, TargetTold, RowTold;
    hide SameIdentity, Aspect, CanApply, Captured, Carried, Covers, Began, Save, Succeeds, WorldIsCovered,
        ActiveIsRecorded;
    if GetsPlanned(world, context, answers) {
      var tx := PlannedTransaction(world, context, now, maximumSeconds, answers);
      PlannedBegin(world, journal, active, context, id, now, maximumSeconds, answers);
      CaptureIsOfTarget(world, context.action, context.targetPid, answers);
      CarriedIsCovered(world, journal[id := Row(tx, Planned)], active, context, id, tx, answers);
      CarriedIsRecorded(world, journal[id := Row(tx, Planned)], active, id, tx, now, answers);
      RecordedOverPlanned(journal, active, id, tx, now, Carried(world, journal[id := Row(tx, Planned)], active, id,
                                                                tx, answers));
    } else {
      RefusedBegin(world, journal, active, context, id, now, maximumSeconds, answers);
    }
  }

  /**
   * The same target twice: both begins succeed. Undoing them in the order in which they began closes both
   * rows and leaves the target lowered; undoing them in the opposite order restores it.
   */
  lemma {:induction false} OverlapInTheCoordinator(world: World, journal: Journal, active: map<TransactionId,
                                                   Transaction>,
                                                   context: ActionContext, id1: TransactionId, id2: TransactionId,
                                                   now1: int, now2: int, maximumSeconds: int,
                                                   answers1: BeginAnswers, answers2: BeginAnswers)
    requires id1 !in journal && id2 !in journal && id1 != id2 && forall p | p in world :: world[p].identity.pid == p
    requires Succeeds(world, context, answers1)
    requires var first := Began(world, journal, active, context, id1, now1, maximumSeconds, answers1);
             Succeeds(first.world, context, answers2)
    ensures var first := Began(world, journal, active, context, id1, now1, maximumSeconds, answers1);
            var second := Began(first.world, first.journal, first.active, context, id2, now2, maximumSeconds, answers2);
            && id1 in second.active && id2 in second.active && context.targetPid in world
            && var row1, row2 := (id1, second.active[id1]), (id2, second.active[id2]);
               var own := world[context.targetPid].settings;
               && EndsWith(UndoInTurn(second.world, second.journal, [row1, row2], FAVOURABLE), id1, id2, context,
                           Lowered(context.action, own))
               && EndsWith(UndoInTurn(second.world, second.journal, [row2, row1], FAVOURABLE), id1, id2, context, own)
  {
    hide Capture, SameIdentity, Aspect, Captured, Lowered, Undone, Apply, Rollback;
    var first := Began(world, journal, active, context, id1, now1, maximumSeconds, answers1);
    var second := Began(first.world, first.journal, first.active, context, id2, now2, maximumSeconds, answers2);
    SuccessfulBegin(world, journal, active, context, id1, now1, maximumSeconds, answers1);
    var tx1 := first.active[id1];
    ExecutorKeepsIdentities(world, tx1, true, true);
    SuccessfulBegin(first.world, first.journal, first.active, context, id2, now2, maximumSeconds, answers2);
    var tx2 := second.active[id2];
    OverlappingRollbacks(world, context.action, context.targetPid, tx1, tx2);
    UndoTwo(second.world, second.journal, id1, tx1, id2, tx2);
    UndoTwo(second.world, second.journal, id2, tx2, id1, tx1);
  }

  const FAVOURABLE: TransactionId -> UndoAnswers := _ => ALL_WELL

  /** Both rows are closed as rolled back, and the action's own setting on the target is that of `settings`. */
  ghost predicate EndsWith(undone: (World, Journal, nat), id1: TransactionId, id2: TransactionId,
                           context: ActionContext,
                           settings: Settings)
  {
    && undone.2 == 2
    && id1 in undone.1 && undone.1[id1].status == RolledBack && id2 in undone.1 && undone.1[id2].status == RolledBack
    && context.targetPid in undone.0
    && Aspect(context.action, undone.0[context.targetPid].settings) == Aspect(context.action, settings)
  }

  lemma {:induction false} SuccessfulBegin(world: World, journal: Journal, active: map<TransactionId, Transaction>,
                                           context: ActionContext, id: TransactionId, now: int, maximumSeconds: int,
                                           answers: BeginAnswers)
    requires id !in journal && Succeeds(world, context, answers) && forall p | p in world :: world[p].identity.pid == p
    ensures var after := Began(world, journal, active, context, id, now, maximumSeconds, answers);
            && id in after.active && after.active == active[id := after.active[id]]
            && after.journal == journal[id := Row(after.active[id], Executed)]
            && var tx := after.active[id];
               && tx.action == context.action && context.action != NoAction && IsCaptureOf(world, context.targetPid, tx)
               && Apply(world, tx, true, true) == (after.world, true)
               && context.targetPid in world
  {
    hide SameIdentity, Lowered;
    var tx := PlannedTransaction(world, context, now, maximumSeconds, answers);
    PlannedBegin(world, journal, active, context, id, now, maximumSeconds, answers);
    assert Capture(world, tx.action, context.targetPid, true, true, answers.memoryRead, answers.powerRead)
           == CaptureOk(tx.identity, tx.original);
  }

  lemma {:induction false} UndoTwo(world: World, journal: Journal, id: TransactionId, tx: Transaction,
                                   id': TransactionId, tx': Transaction)
    requires id in journal && id' in journal && id != id'
    ensures var (w1, outcome1) := Rollback(world, tx, true, true);
            var (w2, outcome2) := Rollback(w1, tx', true, true);
            var undone := UndoInTurn(world, journal, [(id, tx), (id', tx')], FAVOURABLE);
            && undone.0 == w2
            && id in undone.1 && undone.1[id].status == StatusAfter(outcome1)
            && id' in undone.1 && undone.1[id'].status == StatusAfter(outcome2)
            && (outcome1 == outcome2 == Restored ==> undone.2 == 2)
  {
    hide Rollback;
    var rows: Rows := [(id, tx), (id', tx')];
    assert rows[1..] == [(id', tx')] && rows[1..][1..] == [];
    var (w1, outcome1) := Rollback(world, tx, true, true);
    var journal1 := Save(journal, id, tx, StatusAfter(outcome1), true);
    NothingUndone(Rollback(w1, tx', true, true).0,
                  Save(journal1, id', tx', StatusAfter(Rollback(w1, tx', true, true).1), true), FAVOURABLE);
  }

  // ----- the discipline, as a caller of the coordinator sees it -----

  /** The run goes on from `before`, and if it was exclusive it still is. */
  ghost predicate Continues(before: seq<State>, after: seq<State>) {
    before <= after && (ExclusiveRun(before) ==> ExclusiveRun(after))
  }

  /** Neither the active set nor the journal knows of an open transaction on the target and action. */
  ghost predicate Clear(world: World, journal: Journal, active: map<TransactionId, Transaction>,
                        action: ResourceActionType, pid: nat)
  {
    pid in world ==>
      && (forall id | id in active && active[id].action == action ::
            !SameIdentity(active[id].identity, world[pid].identity))
      && (forall id | OnRecord(journal, id) && journal[id].transaction.action == action ::
            !SameIdentity(journal[id].transaction.identity, world[pid].identity))
  }

  lemma {:induction false} ClearIsExclusive(s: State, active: map<TransactionId, Transaction>, step: Step)
    requires Inv(s) && s.mode.Running? && s.begins == map[] && s.jobs == map[] && step.CaptureOriginal?
    requires s.active == active.Keys && forall id | id in active :: id in s.captured && s.captured[id] == active[id]
    requires Clear(s.world, s.journal, active, step.action, step.pid)
    ensures Exclusive(s, step)
  {
    hide SameIdentity, WorldOk, CapturedOk;
    forall id | id in s.captured && Open(s, id) && s.captured[id].action == step.action && step.pid in s.world
      ensures !SameIdentity(s.captured[id].identity, s.world[step.pid].identity)
    {
      assert id in s.journal ==> RowOk(s, id);
    }
  }

  lemma {:induction false} ExclusiveStep(states: seq<State>, step: Step)
    requires ExclusiveRun(states) && Enabled(states[|states| - 1], step) && Exclusive(states[|states| - 1], step)
    ensures ExclusiveRun(states + [Next(states[|states| - 1], step)])
  {
    hide Enabled, Next, Exclusive, Init;
    var more := states + [Next(states[|states| - 1], step)];
    forall i | 0 <= i < |more| - 1
      ensures ExclusiveTransition(more[i], more[i + 1])
    {
      if i < |states| - 1 {
        assert ExclusiveTransition(states[i], states[i + 1]);
      }
    }
  }

  class ActionCoordinator {
    var world: World
    var journal: Journal
    var active: map<TransactionId, Transaction>
    var maximumActionSeconds: int
    ghost var run: seq<State>

    ghost function Now(): State
      requires |run| > 0
      reads this
    {
      run[|run| - 1]
    }

    ghost predicate Tracks(s: State)
      reads this
    {
      && s.world == world && s.journal == journal
      && s.active == active.Keys
      && forall id | id in active :: id in s.captured && s.captured[id] == active[id]
    }

    /** The coordinator in the middle of a `Begin`: `begins` says where it stands. */
    ghost predicate ValidDuring(begins: map<TransactionId, BeginPhase>)
      reads this
    {
      && |run| > 0 && Run(run) && Tracks(Now())
      && Now().begins == begins && Now().jobs == map[]
      && (Now().mode.Running? || Now().mode == Recovering([], false, Restored))
      && 1 <= maximumActionSeconds <= 300
    }

    ghost predicate Valid()
      reads this
    {
      ValidDuring(map[])
    }

    ghost method Advance(step: Step)
      requires |run| > 0 && Run(run) && Enabled(Now(), step)
      modifies this`run
      ensures |run| == |old(run)| + 1 && Run(run) && old(run) <= run
      ensures Exclusive(old(Now()), step) ==> Continues(old(run), run)
      ensures Now() == Next(old(Now()), step)
    {
      hide Enabled, Next, Init;
      var last := Now();
      var before := run;
      run := run + [Next(last, step)];
      forall i | 0 <= i < |run| - 1
        ensures Transition(run[i], run[i + 1])
      {
        if i < |before| - 1 {
          assert Transition(before[i], before[i + 1]);
        }
      }
      if ExclusiveRun(before) && Exclusive(last, step) {
        ExclusiveStep(before, step);
      }
    }

    /** A process start: the world and the journal are whatever the last run left behind. */
    constructor (world: World, journal: Journal, ghost past: seq<State>)
      requires |past| > 0 && Run(past) && past[|past| - 1].world == world && past[|past| - 1].journal == journal
      ensures Valid() && this.world == world && this.journal == journal && active == map[]
      ensures Continues(past, run)
    {
      this.world, this.journal := world, journal;
      active := map[];
      maximumActionSeconds := 30;
      run := past;
      new;
      Advance(Crash);
    }

    method Configure(seconds: int)
      requires Valid()
      modifies this`maximumActionSeconds
      ensures Valid() && maximumActionSeconds == Clamp(seconds, 1, 300)
    {
      maximumActionSeconds := Clamp(seconds, 1, 300);
    }

    method Rollback(id: TransactionId, answers: UndoAnswers) returns (ok: bool)
      requires Valid()
      modifies this`world, this`journal, this`active, this`run
      ensures Valid() && Continues(old(run), run)
      ensures id !in old(active) ==> !ok && world == old(world) && journal == old(journal) && active == old(active)
      ensures id in old(active) ==>
          var tx := old(active)[id];
          var result := ProcessWorld.Rollback(old(world), tx, answers.openOk, answers.setOk);
          && world == result.0
          && journal == Save(old(journal), id, tx, StatusAfter(result.1), answers.saved)
          && active == old(active) - {id}
          && (ok <==> result.1 != RollbackError && answers.saved)
    {
      hide ExclusiveRun, Run, ProcessWorld.Rollback, Save;
      if id !in active {
        return false;
      }
      var tx := active[id];
      var (world', outcome) := ProcessWorld.Rollback(world, tx, answers.openOk, answers.setOk);
      world := world';
      journal := Save(journal, id, tx, StatusAfter(outcome), answers.saved);
      active := active - {id};
      FollowRollback(id, answers);
      ok := outcome != RollbackError && answers.saved;
    }

    /** The four protocol steps of a rollback: copy under the lock, act, save, erase under the lock. */
    ghost method FollowRollback(id: TransactionId, answers: UndoAnswers)
      requires |run| > 0 && Run(run) && id in Now().active && id in Now().captured && Now().jobs == map[]
      modifies this`run
      ensures |run| > 0 && Run(run) && Continues(old(run), run)
      ensures var s := old(Now());
              var (world, outcome) := ProcessWorld.Rollback(s.world, s.captured[id], answers.openOk, answers.setOk);
              Now() == s.(world := world, effects := if outcome == Restored then s.effects - {id} else s.effects,
                          journal := Save(s.journal, id, s.captured[id], StatusAfter(outcome), answers.saved),
                          active := s.active - {id})
    {
      hide ExclusiveRun, Run, Enabled, Next, ProcessWorld.Rollback, Save;
      var outcome := ProcessWorld.Rollback(Now().world, Now().captured[id], answers.openOk, answers.setOk).1;
      CopyStep(Now(), id);
      Advance(CopyActive(0, id));
      ActStep(Now(), id, answers.openOk, answers.setOk);
      Advance(RollbackAct(0, answers.openOk, answers.setOk));
      SaveStep(Now(), id, outcome, answers.saved);
      Advance(RollbackSave(0, answers.saved));
      ForgetStep(Now(), id);
      Advance(Forget(0));
    }

    /** Everything whose time is up is rolled back, in some order, and leaves the active set; nothing else does. */
    method Tick(now: int, answers: TransactionId -> UndoAnswers) returns (ghost rows: Rows)
      requires Valid()
      modifies this`world, this`journal, this`active, this`run
      ensures Valid() && Continues(old(run), run)
      ensures active == Unexpired(old(active), now)
      ensures forall id :: id in active <==> id in old(active) && old(active)[id].expiresAtMs > now
      ensures IsExpiredPart(old(active), now, rows)
      ensures var undone := UndoInTurn(old(world), old(journal), rows, answers);
              world == undone.0 && journal == undone.1
    {
      hide ExclusiveRun, Run, Valid, UndoInTurn, ProcessWorld.Rollback, Save, TurnsTaken, IsExpiredPart;
      var expired := set id | id in active && active[id].expiresAtMs <= now;
      rows := [];
      NothingUndone(world, journal, answers);
      NoTurnTaken(active, now);
      while expired != {}
        invariant Valid() && Continues(old(run), run)
        invariant expired == set id | id in active && active[id].expiresAtMs <= now
        invariant TurnsTaken(old(active), active, now, rows)
        invariant var undone := UndoInTurn(old(world), old(journal), rows, answers);
                  world == undone.0 && journal == undone.1
        decreases expired
      {
        var id :| id in expired;
        ghost var tx := active[id];
        UndoOneMore(old(world), old(journal), rows, id, tx, answers);
        OneMoreTurn(old(active), active, now, rows, id);
        var _ := Rollback(id, answers(id));
        rows := rows + [(id, tx)];
        expired := expired - {id};
      }
      assert forall id | id in active && active[id].expiresAtMs <= now :: id in expired;
      AllTurnsTaken(old(active), active, now, rows);
    }

    /**
     * The load delivers rows until there are none left or it stops early, after `delivered` rows. A journal
     * that cannot be read delivers none.
     */
    method LoadUnfinished(delivered: nat) returns (rows: Rows)
      ensures SomeUnfinished(journal, rows) && |rows| == Min(delivered, |UnfinishedIds(journal)|)
      ensures |UnfinishedIds(journal)| <= delivered ==> IsUnfinishedPart(journal, rows)
    {
      var remaining := UnfinishedIds(journal);
      rows := [];
      while remaining != {} && |rows| < delivered
        invariant forall id | id in remaining :: UnfinishedRow(journal, id)
        invariant SomeUnfinished(journal, rows) && forall i | 0 <= i < |rows| :: rows[i].0 !in remaining
        invariant forall id | UnfinishedRow(journal, id) :: id in remaining || Listed(rows, id)
        invariant |rows| <= delivered && |rows| + |remaining| == |UnfinishedIds(journal)|
        decreases remaining
      {
        var id :| id in remaining;
        ListedStays(rows, id, journal[id].transaction);
        rows := rows + [(id, journal[id].transaction)];
        remaining := remaining - {id};
      }
    }

    /** Recovery under way: `todo` are the rows still to be rolled back. */
    ghost predicate RecoveringWith(todo: Rows)
      reads this
    {
      && |run| > 0 && Run(run) && Tracks(Now())
      && Now().begins == map[] && Now().jobs == map[]
      && Now().mode.Recovering? && Now().mode.todo == todo && !Now().mode.acted
      && 1 <= maximumActionSeconds <= 300
    }

    /** One turn of the recovery loop. */
    method RecoverRow(id: TransactionId, tx: Transaction, answers: UndoAnswers, ghost rest: Rows)
      returns (outcome: RollbackOutcome)
      requires RecoveringWith([(id, tx)] + rest)
      modifies this`world, this`journal, this`run
      ensures RecoveringWith(rest) && Continues(old(run), run)
      ensures (world, outcome) == ProcessWorld.Rollback(old(world), tx, answers.openOk, answers.setOk)
      ensures journal == Save(old(journal), id, tx, StatusAfter(outcome), answers.saved)
    {
      hide ExclusiveRun, Run, Enabled, Next, ProcessWorld.Rollback, Save;
      RecoverySteps(Now(), answers);
      Advance(RecoverAct(answers.openOk, answers.setOk));
      Advance(RecoverSave(answers.saved));
      var (world', result) := ProcessWorld.Rollback(world, tx, answers.openOk, answers.setOk);
      world, outcome := world', result;
      journal := Save(journal, id, tx, StatusAfter(outcome), answers.saved);
    }

    /** The recovery loop. */
    method RecoverRows(unfinished: Rows, answers: TransactionId -> UndoAnswers) returns (recoveredCount: nat)
      requires RecoveringWith(unfinished)
      modifies this`world, this`journal, this`run
      ensures RecoveringWith([]) && Continues(old(run), run)
      ensures (world, journal, recoveredCount) == UndoInTurn(old(world), old(journal), unfinished, answers)
    {
      hide ExclusiveRun, Run, RecoveringWith, ProcessWorld.Rollback, Save;
      recoveredCount := 0;
      assert unfinished[0..] == unfinished;
      for i := 0 to |unfinished|
        invariant RecoveringWith(unfinished[i..]) && Continues(old(run), run)
        invariant var rest := UndoInTurn(world, journal, unfinished[i..], answers);
                  (rest.0, rest.1, recoveredCount + rest.2) == UndoInTurn(old(world), old(journal), unfinished, answers)
      {
        var (id, tx) := unfinished[i];
        assert unfinished[i..] == [(id, tx)] + unfinished[i + 1..];
        var outcome := RecoverRow(id, tx, answers(id), unfinished[i + 1..]);
        if outcome != RollbackError {
          recoveredCount := recoveredCount + 1;
        }
      }
      assert unfinished[|unfinished|..] == [];
    }

    /** Recovery: every loaded row is rolled back and closed in turn, whatever the answers are. */
    method RecoverUnfinished(delivered: nat, answers: TransactionId -> UndoAnswers)
      returns (recoveredCount: nat, ghost rows: Rows)
      requires Valid()
      modifies this`world, this`journal, this`run
      ensures Valid() && Continues(old(run), run)
      ensures SomeUnfinished(old(journal), rows) && |rows| == Min(delivered, |UnfinishedIds(old(journal))|)
      ensures |UnfinishedIds(old(journal))| <= delivered ==> IsUnfinishedPart(old(journal), rows)
      ensures (world, journal, recoveredCount) == UndoInTurn(old(world), old(journal), rows, answers)
      ensures (forall id :: answers(id) == ALL_WELL) ==>
          |old(run)| > 0 && RecoveredWell(old(run), rows, world, journal)
      ensures (forall id :: answers(id).saved) ==> recoveredCount == |UndoneIn(journal, rows)|
    {
      hide ExclusiveRun, Run, RecoveringWith, UndoInTurn, SomeUnfinished, IsUnfinishedPart, UnfinishedIds,
          RecoveredWell, UndoneIn;
      var unfinished := LoadUnfinished(delivered);
      rows := unfinished;
      StartRecovery(unfinished);
      recoveredCount := RecoverRows(unfinished, answers);
      if forall id :: answers(id) == ALL_WELL {
        FavourableRecoveryIsWell(old(run), rows, answers);
      }
      if forall id :: answers(id).saved {
        CountIsOfUndone(old(world), old(journal), rows, answers);
      }
      CloseRecovery();
    }

    ghost method StartRecovery(rows: Rows)
      requires Valid() && SomeUnfinished(journal, rows)
      modifies this`run
      ensures RecoveringWith(rows) && Continues(old(run), run)
    {
      hide ExclusiveRun, Run;
      Advance(Boot(rows));
    }

    ghost method CloseRecovery()
      requires RecoveringWith([])
      modifies this`run
      ensures Valid() && Now().mode.Running? && Now().captured == old(Now()).captured && Continues(old(run), run)
    {
      hide ExclusiveRun, Run;
      Advance(FinishRecovery);
    }

    /** A begin without a recovery before it: as if recovery had found nothing to do. */
    ghost method StartRunning()
      requires Valid()
      modifies this`run
      ensures Valid() && Now().mode.Running? && Now().captured == old(Now()).captured && Continues(old(run), run)
    {
      if Now().mode.Recovering? {
        CloseRecovery();
      }
    }

    // ----- the steps of a begin -----

    /** A `Begin` in flight: its transaction has been captured and journaled. */
    ghost predicate InFlight(id: TransactionId, tx: Transaction, phase: BeginPhase)
      reads this
    {
      ValidDuring(map[id := phase]) && id !in active && id in Now().captured && Now().captured[id] == tx
    }

    method Refuse(id: TransactionId, tx: Transaction, status: Status, saved: bool)
      requires Valid() && Now().mode.Running? && id !in journal && id !in Now().captured && status in {Blocked, Failed}
      modifies this`journal, this`run
      ensures Valid() && Continues(old(run), run)
      ensures journal == Save(old(journal), id, tx, status, saved)
    {
      hide ExclusiveRun, Run;
      journal := Save(journal, id, tx, status, saved);
      Advance(ActionProtocol.Refuse(id, tx, status, saved));
    }

    lemma CaptureIsExclusive(step: Step)
      requires Valid() && Now().mode.Running? && step.CaptureOriginal?
      requires Clear(world, journal, active, step.action, step.pid)
      ensures Exclusive(Now(), step)
    {
      hide Clear, Exclusive, Run, Inv;
      RunKeepsInv(run, |run| - 1);
      ClearIsExclusive(Now(), active, step);
    }

    method Plan(id: TransactionId, tx: Transaction, memoryRead: bool, powerRead: bool, saved: bool)
      requires Valid() && Now().mode.Running? && id !in journal && id !in Now().captured && id !in active
      requires tx.action != NoAction && 1 <= tx.expiresAtMs - tx.startedAtMs <= 300000
      requires Capture(world, tx.action, tx.identity.pid, true, true, memoryRead, powerRead)
               == CaptureOk(tx.identity, tx.original)
      modifies this`journal, this`run
      ensures old(run) <= run
      ensures Clear(world, old(journal), active, tx.action, tx.identity.pid) ==> Continues(old(run), run)
      ensures if saved then InFlight(id, tx, Applying) else Valid()
      ensures journal == Save(old(journal), id, tx, Planned, saved)
    {
      hide ExclusiveRun, Run, Enabled, Next, Capture, Save, Clear;
      PlanSteps(Now(), id, tx.action, tx.identity.pid, memoryRead, powerRead, tx.startedAtMs, tx.expiresAtMs, saved);
      ghost var capture := CaptureOriginal(id, tx.action, tx.identity.pid, memoryRead, powerRead, tx.startedAtMs,
                                           tx.expiresAtMs);
      if Clear(world, journal, active, tx.action, tx.identity.pid) {
        CaptureIsExclusive(capture);
      }
      Advance(capture);
      Advance(SavePlanned(id, saved));
      journal := Save(journal, id, tx, Planned, saved);
    }

    method ApplyPlanned(id: TransactionId, tx: Transaction, openOk: bool, setOk: bool) returns (ok: bool)
      requires InFlight(id, tx, Applying)
      modifies this`world, this`run
      ensures Continues(old(run), run) && InFlight(id, tx, if ok then SavingExecuted else SavingFailed)
      ensures (world, ok) == Apply(old(world), tx, openOk, setOk)
    {
      hide ExclusiveRun, Run, Enabled, Next, Apply;
      ApplyStep(Now(), id, openOk, setOk);
      Advance(ApplyAction(id, openOk, setOk));
      var (world', applied) := Apply(world, tx, openOk, setOk);
      world, ok := world', applied;
    }

    method RecordFailure(id: TransactionId, tx: Transaction, saved: bool)
      requires InFlight(id, tx, SavingFailed)
      modifies this`journal, this`run
      ensures Continues(old(run), run) && Valid()
      ensures journal == Save(old(journal), id, tx, Failed, saved)
    {
      hide ExclusiveRun, Run, Enabled, Next, Save;
      SaveFailedStep(Now(), id, saved);
      Advance(SaveFailed(id, saved));
      journal := Save(journal, id, tx, Failed, saved);
    }

    /** The EXECUTED row could not be written: undo at once. */
    method CompensateExecuted(id: TransactionId, tx: Transaction, openOk: bool, setOk: bool)
      returns (outcome: RollbackOutcome)
      requires InFlight(id, tx, SavingExecuted)
      modifies this`world, this`run
      ensures Continues(old(run), run) && Valid()
      ensures (world, outcome) == ProcessWorld.Rollback(old(world), tx, openOk, setOk)
    {
      hide ExclusiveRun, Run, Enabled, Next, ProcessWorld.Rollback;
      CompensateSteps(Now(), id, openOk, setOk);
      Advance(SaveExecuted(id, false));
      Advance(Compensate(id, openOk, setOk));
      var (world', result) := ProcessWorld.Rollback(world, tx, openOk, setOk);
      world, outcome := world', result;
    }

    method ActivateExecuted(id: TransactionId, tx: Transaction)
      requires InFlight(id, tx, SavingExecuted)
      modifies this`journal, this`active, this`run
      ensures Continues(old(run), run) && Valid()
      ensures journal == Save(old(journal), id, tx, Executed, true) && active == old(active)[id := tx]
    {
      hide ExclusiveRun, Run, Enabled, Next, Save;
      ActivateSteps(Now(), id);
      Advance(SaveExecuted(id, true));
      Advance(Activate(id));
      journal := Save(journal, id, tx, Executed, true);
      active := active[id := tx];
    }

    /** Check, capture, plan, apply, record, activate: the whole effect, whatever answers come along the way. */
    method Begin(context: ActionContext, id: TransactionId, now: int, answers: BeginAnswers)
      returns (status: Status)
      requires Valid() && id !in journal && id !in Now().captured && id !in active
      modifies this`world, this`journal, this`active, this`run
      ensures Valid() && old(run) <= run
      ensures Clear(old(world), old(journal), old(active), context.action, context.targetPid) ==>
              Continues(old(run), run)
      ensures Begun(status, world, journal, active)
              == Began(old(world), old(journal), old(active), context, id, now, maximumActionSeconds, answers)
    {
      hide Valid, InFlight, Carried, Run, Enabled, Next, ExclusiveRun, Clear;
      StartRunning();
      KnownFacts();
      var duration := Clamp(context.maxDurationMs, 1, maximumActionSeconds * 1000);
      var expires := now + duration;
      var action, pid := context.action, context.targetPid;
      var unknown := Transaction(action, UNKNOWN_IDENTITY, NOTHING_CAPTURED, now, expires);
      if action == NoAction || !answers.shieldPassed {
        Refuse(id, unknown, Blocked, answers.refusalSaved);
        return Blocked;
      }
      var capture := Capture(world, action, pid, answers.openOk, answers.priorityRead, answers.memoryRead,
                             answers.powerRead);
      if capture.CaptureFailed? {
        Refuse(id, unknown, Failed, answers.refusalSaved);
        return Failed;
      }
      var tx := Transaction(action, capture.identity, capture.original, now, expires);
      if !SameIdentity(answers.safetyIdentity, tx.identity) {
        Refuse(id, tx, Blocked, answers.refusalSaved);
        return Blocked;
      }
      status := PlanAndExecute(id, tx, answers);
    }

    method PlanAndExecute(id: TransactionId, tx: Transaction, answers: BeginAnswers) returns (status: Status)
      requires Valid() && Now().mode.Running? && id !in journal && id !in Now().captured && id !in active
      requires tx.action != NoAction && 1 <= tx.expiresAtMs - tx.startedAtMs <= 300000
      requires Capture(world, tx.action, tx.identity.pid, true, true, answers.memoryRead, answers.powerRead)
               == CaptureOk(tx.identity, tx.original)
      modifies this`world, this`journal, this`active, this`run
      ensures Valid() && old(run) <= run
      ensures Clear(old(world), old(journal), old(active), tx.action, tx.identity.pid) ==> Continues(old(run), run)
      ensures Begun(status, world, journal, active) ==
              if !answers.plannedSaved then Begun(Failed, old(world), old(journal), old(active))
              else Carried(old(world), Save(old(journal), id, tx, Planned, true), old(active), id, tx, answers)
    {
      hide Valid, InFlight, Carried, Run, Enabled, Next, ExclusiveRun, Clear, Capture;
      Plan(id, tx, answers.memoryRead, answers.powerRead, answers.plannedSaved);
      if !answers.plannedSaved {
        return Failed;
      }
      status := ExecutePlanned(id, tx, answers);
    }

    lemma KnownFacts()
      requires Valid()
      ensures 1 <= maximumActionSeconds <= 300 && forall p | p in world :: world[p].identity.pid == p
    {
      RunKeepsInv(run, |run| - 1);
    }

    /** The second half of `Begin`: from the PLANNED row to the active set, or back. */
    method ExecutePlanned(id: TransactionId, tx: Transaction, answers: BeginAnswers) returns (status: Status)
      requires InFlight(id, tx, Applying) && id in journal && journal[id] == Row(tx, Planned)
      modifies this`world, this`journal, this`active, this`run
      ensures Valid() && Continues(old(run), run)
      ensures Begun(status, world, journal, active) == Carried(old(world), old(journal), old(active), id, tx, answers)
    {
      hide ExclusiveRun, InFlight, Valid, ProcessWorld.Rollback, Apply, Save;
      var applied := ApplyPlanned(id, tx, answers.applyOpenOk, answers.applySetOk);
      if !applied {
        RecordFailure(id, tx, answers.failedSaved);
        return Failed;
      }
      if !answers.executedSaved {
        var outcome := CompensateExecuted(id, tx, answers.undoOpenOk, answers.undoSetOk);
        return if outcome == Restored then RolledBack else RollbackFailed;
      }
      ActivateExecuted(id, tx);
      return Executed;
    }
  }
}
