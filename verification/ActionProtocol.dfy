/**
 * The write-ahead action protocol as a state machine. One step is one call into the executor, one
 * journal write or one locked section, so a crash, a process exit, a reused pid or a failed write
 * can fall between any two of them, and any number of operations may be in flight at once.
 */
module ActionProtocol {
  import opened ResourceActions
  import opened ProcessWorld
  import opened ActionJournals
  import opened Wrappers

  /** Where a `Begin` stands: the step it is about to take. */
  datatype BeginPhase = SavingPlanned | Applying | SavingFailed | SavingExecuted | Compensating | Activating

  /** Where a `Rollback` stands, once it has copied its transaction from the active set. */
  datatype JobPhase = Acting | Saving(outcome: RollbackOutcome) | Forgetting

  datatype Job = Job(id: TransactionId, phase: JobPhase)

  datatype Mode = Running | Recovering(todo: seq<(TransactionId, Transaction)>, acted: bool, outcome: RollbackOutcome)

  datatype State = State(
    // survives a crash
    world: World,
    journal: Journal,
    // lost in a crash
    mode: Mode,
    begins: map<TransactionId, BeginPhase>,
    active: set<TransactionId>,
    jobs: map<nat, Job>,
    // history: what was captured, what is in effect, and how every process started out
    captured: map<TransactionId, Transaction>,
    effects: set<TransactionId>,
    pristine: map<(nat, nat), Settings>)

  datatype Step =
    | Exit(pid: nat)
    | Spawn(process: Process)
    | Crash
    | Boot(rows: seq<(TransactionId, Transaction)>)
    | RecoverAct(openOk: bool, setOk: bool)
    | RecoverSave(saved: bool)
    | FinishRecovery
    | Refuse(id: TransactionId, transaction: Transaction, status: Status, saved: bool)
    | CaptureOriginal(id: TransactionId, action: ResourceActionType, pid: nat, memoryRead: bool, powerRead: bool,
                      startedAtMs: int, expiresAtMs: int)
    | SavePlanned(id: TransactionId, saved: bool)
    | ApplyAction(id: TransactionId, openOk: bool, setOk: bool)
    | SaveFailed(id: TransactionId, saved: bool)
    | SaveExecuted(id: TransactionId, saved: bool)
    | Compensate(id: TransactionId, openOk: bool, setOk: bool)
    | Activate(id: TransactionId)
    | CopyActive(job: nat, id: TransactionId)
    | RollbackAct(job: nat, openOk: bool, setOk: bool)
    | RollbackSave(job: nat, saved: bool)
    | Forget(job: nat)

  function Key(identity: Identity): (nat, nat) {
    (identity.pid, identity.creationTime)
  }

  predicate At(s: State, id: TransactionId, phase: BeginPhase) {
    id in s.begins && id in s.captured && s.begins[id] == phase
  }

  predicate Enabled(s: State, step: Step) {
    match step
    case Exit(pid) => pid in s.world
    case Spawn(process) => process.identity.pid !in s.world && Key(process.identity) !in s.pristine
    case Crash => true
    case Boot(rows) =>
      // any part of the unfinished rows, in any order: the load itself may fail or stop early
      && (s.mode.Running? || s.mode == Recovering([], false, Restored)) && s.begins == map[]
      && (forall i, j | 0 <= i < j < |rows| :: rows[i].0 != rows[j].0)
      && (forall i | 0 <= i < |rows| ::
            UnfinishedRow(s.journal, rows[i].0) && s.journal[rows[i].0].transaction == rows[i].1)
    case RecoverAct(_, _) => s.mode.Recovering? && |s.mode.todo| > 0 && !s.mode.acted
    case RecoverSave(_) => s.mode.Recovering? && |s.mode.todo| > 0 && s.mode.acted
    case FinishRecovery => s.mode.Recovering? && |s.mode.todo| == 0
    case Refuse(id, _, status, _) =>
      s.mode.Running? && id !in s.captured && id !in s.journal && status in {Blocked, Failed}
    case CaptureOriginal(id, action, pid, memoryRead, powerRead, startedAtMs, expiresAtMs) =>
      && s.mode.Running? && id !in s.captured && id !in s.journal
      && action != NoAction
      && Capture(s.world, action, pid, true, true, memoryRead, powerRead).CaptureOk?
      && 1 <= expiresAtMs - startedAtMs <= 300000
    case SavePlanned(id, _) => At(s, id, SavingPlanned)
    case ApplyAction(id, _, _) => At(s, id, Applying)
    case SaveFailed(id, _) => At(s, id, SavingFailed)
    case SaveExecuted(id, _) => At(s, id, SavingExecuted)
    case Compensate(id, _, _) => At(s, id, Compensating)
    case Activate(id) => At(s, id, Activating)
    case CopyActive(job, id) => id in s.active && job !in s.jobs
    case RollbackAct(job, _, _) => job in s.jobs && s.jobs[job].id in s.captured && s.jobs[job].phase == Acting
    case RollbackSave(job, _) => job in s.jobs && s.jobs[job].id in s.captured && s.jobs[job].phase.Saving?
    case Forget(job) => job in s.jobs && s.jobs[job].phase == Forgetting
  }

  // ----- the effect of each step -----

  function Exited(s: State, pid: nat): State {
    s.(world := s.world - {pid})
  }

  function Spawned(s: State, process: Process): State {
    s.(world := s.world[process.identity.pid := process],
       pristine := s.pristine[Key(process.identity) := process.settings])
  }

  function Crashed(s: State): State {
    s.(mode := Recovering([], false, Restored), begins := map[], active := {}, jobs := map[])
  }

  /** Undoing a transaction ends its effect exactly when the executor reports success. */
  function Undo(s: State, id: TransactionId, tx: Transaction, openOk: bool, setOk: bool): State {
    var (world, outcome) := Rollback(s.world, tx, openOk, setOk);
    s.(world := world, effects := if outcome == Restored then s.effects - {id} else s.effects)
  }

  function Record(s: State, id: TransactionId, tx: Transaction, status: Status, saved: bool): State {
    s.(journal := Save(s.journal, id, tx, status, saved))
  }

  function RecoveryActed(s: State, openOk: bool, setOk: bool): State
    requires s.mode.Recovering? && |s.mode.todo| > 0
  {
    var (id, tx) := s.mode.todo[0];
    Undo(s, id, tx, openOk, setOk).(
      mode := Recovering(s.mode.todo, true, Rollback(s.world, tx, openOk, setOk).1))
  }

  function RecoverySaved(s: State, saved: bool): State
    requires s.mode.Recovering? && |s.mode.todo| > 0
  {
    var (id, tx) := s.mode.todo[0];
    Record(s, id, tx, StatusAfter(s.mode.outcome), saved).(mode := Recovering(s.mode.todo[1..], false, s.mode.outcome))
  }

  function OriginalCaptured(s: State, id: TransactionId, tx: Transaction): State {
    s.(begins := s.begins[id := SavingPlanned], captured := s.captured[id := tx])
  }

  /** A begin moves on to its next phase, or ends. */
  function Proceed(s: State, id: TransactionId, next: Option<BeginPhase>): State {
    s.(begins := if next.Some? then s.begins[id := next.value] else s.begins - {id})
  }

  function Applied(s: State, id: TransactionId, world: World): State {
    s.(world := world, effects := s.effects + {id})
  }

  function JobMoved(s: State, job: nat, id: TransactionId, phase: JobPhase): State {
    s.(jobs := s.jobs[job := Job(id, phase)])
  }

  function Forgotten(s: State, job: nat): State
    requires job in s.jobs
  {
    s.(active := s.active - {s.jobs[job].id}, jobs := s.jobs - {job})
  }

  function Next(s: State, step: Step): State
    requires Enabled(s, step)
  {
    match step
    case Exit(pid) => Exited(s, pid)
    case Spawn(process) => Spawned(s, process)
    case Crash => Crashed(s)
    case Boot(rows) => s.(mode := Recovering(rows, false, Restored))
    case RecoverAct(openOk, setOk) => RecoveryActed(s, openOk, setOk)
    case RecoverSave(saved) => RecoverySaved(s, saved)
    case FinishRecovery => s.(mode := Running)
    case Refuse(id, tx, status, saved) => Record(s, id, tx, status, saved)
    case CaptureOriginal(id, action, pid, memoryRead, powerRead, startedAtMs, expiresAtMs) =>
      var result := Capture(s.world, action, pid, true, true, memoryRead, powerRead);
      OriginalCaptured(s, id, Transaction(action, result.identity, result.original, startedAtMs, expiresAtMs))
    case SavePlanned(id, saved) =>
      Proceed(Record(s, id, s.captured[id], Planned, saved), id, if saved then Some(Applying) else None)
    case ApplyAction(id, openOk, setOk) =>
      var (world, ok) := Apply(s.world, s.captured[id], openOk, setOk);
      if ok then Proceed(Applied(s, id, world), id, Some(SavingExecuted)) else Proceed(s, id, Some(SavingFailed))
    case SaveFailed(id, saved) => Proceed(Record(s, id, s.captured[id], Failed, saved), id, None)
    case SaveExecuted(id, saved) =>
      Proceed(Record(s, id, s.captured[id], Executed, saved), id, Some(if saved then Activating else Compensating))
    case Compensate(id, openOk, setOk) => Proceed(Undo(s, id, s.captured[id], openOk, setOk), id, None)
    case Activate(id) => Proceed(s, id, None).(active := s.active + {id})
    case CopyActive(job, id) => JobMoved(s, job, id, Acting)
    case RollbackAct(job, openOk, setOk) =>
      var tx := s.captured[s.jobs[job].id];
      JobMoved(Undo(s, s.jobs[job].id, tx, openOk, setOk), job, s.jobs[job].id,
               Saving(Rollback(s.world, tx, openOk, setOk).1))
    case RollbackSave(job, saved) =>
      var Job(id, phase) := s.jobs[job];
      JobMoved(Record(s, id, s.captured[id], StatusAfter(phase.outcome), saved), job, id, Forgetting)
    case Forget(job) => Forgotten(s, job)
  }

  // ----- runs -----

  ghost predicate Init(s: State) {
    && s.mode == Recovering([], false, Restored)
    && s.journal == map[] && s.begins == map[] && s.active == {} && s.jobs == map[]
    && s.captured == map[] && s.effects == {}
    && forall p | p in s.world ::
         var process := s.world[p];
         process.identity.pid == p && Key(process.identity) in s.pristine
         && s.pristine[Key(process.identity)] == process.settings
  }

  ghost predicate Transition(s: State, s': State) {
    exists step :: Enabled(s, step) && s' == Next(s, step)
  }

  ghost predicate Run(states: seq<State>) {
    && |states| > 0
    && Init(states[0])
    && forall i | 0 <= i < |states| - 1 :: Transition(states[i], states[i + 1])
  }

  // ----- what every step keeps -----

  ghost predicate WorldOk(world: World, pristine: map<(nat, nat), Settings>) {
    forall p | p in world :: world[p].identity.pid == p && Key(world[p].identity) in pristine
  }

  /** Every transaction is about a known process, has captured what it changes, and expires in time. */
  ghost predicate CapturedOk(captured: map<TransactionId, Transaction>, pristine: map<(nat, nat), Settings>) {
    forall id | id in captured ::
      var tx := captured[id];
      && Key(tx.identity) in pristine && Captured(tx.action, tx.original) && tx.action != NoAction
      && 1 <= tx.expiresAtMs - tx.startedAtMs <= 300000
  }

  ghost predicate RowOk(s: State, id: TransactionId)
    requires id in s.journal
  {
    var Row(tx, status) := s.journal[id];
    if id !in s.captured then status in {Blocked, Failed}
    else
      && tx == s.captured[id]
      && match status
         case Planned | Executed | RollbackFailed => true
         case RolledBack | Failed => id !in s.effects
         case TargetExited => !Live(s.world, tx.identity)
         case _ => false
  }

  ghost predicate OutcomeOk(s: State, id: TransactionId, outcome: RollbackOutcome)
    requires id in s.captured
  {
    && (outcome == Restored ==> id !in s.effects)
    && (outcome == AlreadyExited ==> !Live(s.world, s.captured[id].identity))
  }

  ghost predicate BeginOk(s: State, id: TransactionId)
    requires id in s.begins
  {
    && id in s.captured && id !in s.active
    && match s.begins[id]
       case SavingPlanned => id !in s.journal && id !in s.effects
       case Applying | SavingFailed => id in s.journal && s.journal[id].status == Planned && id !in s.effects
       case SavingExecuted | Compensating => id in s.journal && s.journal[id].status == Planned
       case Activating => id in s.journal && s.journal[id].status == Executed
  }

  ghost predicate JobOk(s: State, job: nat)
    requires job in s.jobs
  {
    var Job(id, phase) := s.jobs[job];
    && id in s.captured && id in s.journal && id !in s.begins
    && (phase.Saving? ==> OutcomeOk(s, id, phase.outcome))
  }

  ghost predicate ModeOk(s: State) {
    s.mode.Recovering? ==>
      && s.begins == map[]
      && (forall i | 0 <= i < |s.mode.todo| ::
            var (id, tx) := s.mode.todo[i];
            id in s.captured && id in s.journal && tx == s.captured[id])
      && (s.mode.acted && |s.mode.todo| > 0 ==> OutcomeOk(s, s.mode.todo[0].0, s.mode.outcome))
  }

  ghost predicate Inv(s: State) {
    && WorldOk(s.world, s.pristine) && CapturedOk(s.captured, s.pristine)
    && (forall id | id in s.journal :: RowOk(s, id))
    && (forall id | id in s.begins :: BeginOk(s, id))
    && (forall id | id in s.active :: id in s.captured && id in s.journal)
    && (forall job | job in s.jobs :: JobOk(s, job))
    && (forall id | id in s.effects :: id in s.captured && id in s.journal)
    && ModeOk(s)
  }

  /** The world moved on and effects may have ended; no captured process instance came back to life. */
  ghost predicate Later(s: State, s': State) {
    && s' == s.(world := s'.world, pristine := s'.pristine, effects := s'.effects)
    && s'.effects <= s.effects
    && s.pristine.Keys <= s'.pristine.Keys
    && WorldOk(s'.world, s'.pristine)
    && (forall id | id in s.captured ::
          Live(s'.world, s.captured[id].identity) ==> Live(s.world, s.captured[id].identity))
  }

  lemma {:induction false} LaterKeepsInv(s: State, s': State)
    requires Inv(s) && Later(s, s')
    ensures Inv(s')
  {
    hide Live, Key;
  }

  lemma {:induction false} ExitIsLater(s: State, pid: nat)
    requires Inv(s)
    ensures Later(s, Exited(s, pid))
  {
  }

  lemma {:induction false} SpawnIsLater(s: State, process: Process)
    requires WorldOk(s.world, s.pristine) && CapturedOk(s.captured, s.pristine)
    requires process.identity.pid !in s.world && Key(process.identity) !in s.pristine
    ensures Later(s, Spawned(s, process))
  {
    hide NormalizePath;
    var s' := Spawned(s, process);
    forall id | id in s.captured && Live(s'.world, s.captured[id].identity)
      ensures Live(s.world, s.captured[id].identity)
    {
      assert Key(s.captured[id].identity) != Key(process.identity);
    }
  }

  lemma {:induction false} UndoIsLater(s: State, id: TransactionId, openOk: bool, setOk: bool)
    requires WorldOk(s.world, s.pristine) && id in s.captured
    ensures var s', outcome := Undo(s, id, s.captured[id], openOk, setOk), Rollback(s.world, s.captured[id], openOk,
                                                                                    setOk).1;
            Later(s, s') && OutcomeOk(s', id, outcome)
  {
    hide Rollback, NormalizePath;
    ExecutorKeepsIdentities(s.world, s.captured[id], openOk, setOk);
  }

  lemma {:induction false} CrashKeepsInv(s: State)
    requires Inv(s)
    ensures Inv(Crashed(s))
  {
    hide Live, WorldOk, CapturedOk;
  }

  lemma {:induction false} CaptureKeepsInv(s: State, id: TransactionId, tx: Transaction)
    requires Inv(s) && s.mode.Running? && id !in s.captured && id !in s.journal
    requires Key(tx.identity) in s.pristine && Captured(tx.action, tx.original) && tx.action != NoAction
    requires 1 <= tx.expiresAtMs - tx.startedAtMs <= 300000
    ensures Inv(OriginalCaptured(s, id, tx))
  {
    hide Live, WorldOk, Captured, Key, OutcomeOk;
    var s' := OriginalCaptured(s, id, tx);
    forall other | other in s'.journal
      ensures RowOk(s', other)
    {
      assert RowOk(s, other);
    }
    forall other | other in s'.begins
      ensures BeginOk(s', other)
    {
      assert other != id ==> BeginOk(s, other);
    }
    forall job | job in s'.jobs
      ensures JobOk(s', job)
    {
      assert JobOk(s, job);
      hide RowOk, BeginOk;
      JobStays(s, s', job);
    }
  }

  lemma {:induction false} JobStays(s: State, s': State, job: nat)
    requires job in s.jobs && JobOk(s, job) && s'.jobs == s.jobs && s.jobs[job].id !in s'.begins
    requires s.jobs[job].id in s'.captured && s'.captured[s.jobs[job].id] == s.captured[s.jobs[job].id]
    requires s'.world == s.world && s'.effects == s.effects && s.journal.Keys <= s'.journal.Keys
    ensures JobOk(s', job)
  {
    hide Live;
  }

  /** Any begin may move on as long as its new phase tells the truth. */
  lemma {:induction false} ProceedKeepsInv(s: State, id: TransactionId, next: Option<BeginPhase>)
    requires Inv(s) && id in s.begins
    requires next.Some? ==> BeginOk(Proceed(s, id, next), id)
    ensures Inv(Proceed(s, id, next))
  {
    hide Live, WorldOk, CapturedOk;
  }

  lemma {:induction false} ApplyKeepsInv(s: State, id: TransactionId, openOk: bool, setOk: bool)
    requires Inv(s) && At(s, id, Applying)
    ensures var world := Apply(s.world, s.captured[id], openOk, setOk).0;
            Inv(Proceed(Applied(s, id, world), id, Some(SavingExecuted)))
  {
    hide Apply, NormalizePath;
    var world := Apply(s.world, s.captured[id], openOk, setOk).0;
    ExecutorKeepsIdentities(s.world, s.captured[id], openOk, setOk);
    var moved := s.(world := world);
    assert Later(s, moved);
    LaterKeepsInv(s, moved);
    EffectKeepsInv(moved, id);
  }

  lemma {:induction false} EffectKeepsInv(s: State, id: TransactionId)
    requires Inv(s) && At(s, id, Applying)
    ensures Inv(Proceed(Applied(s, id, s.world), id, Some(SavingExecuted)))
  {
    hide Live, WorldOk, CapturedOk;
  }

  lemma {:induction false} SaveKeepsInv(s: State, id: TransactionId, status: Status, saved: bool)
    requires Inv(s) && id in s.captured && id in s.journal && id !in s.begins
    requires status in {RolledBack, RollbackFailed, TargetExited}
    requires status == RolledBack ==> id !in s.effects
    requires status == TargetExited ==> !Live(s.world, s.captured[id].identity)
    ensures Inv(Record(s, id, s.captured[id], status, saved))
  {
    hide Live, WorldOk, CapturedOk;
  }

  lemma {:induction false} BeginSaveKeepsInv(s: State, id: TransactionId, status: Status, next: Option<BeginPhase>)
    requires Inv(s) && id in s.begins
    requires (s.begins[id], status, next) in {
               (SavingPlanned, Planned, Some(Applying)),
               (SavingFailed, Failed, None),
               (SavingExecuted, Executed, Some(Activating))}
    ensures Inv(Proceed(Record(s, id, s.captured[id], status, true), id, next))
  {
    hide Live, WorldOk, CapturedOk, ModeOk;
    var s' := Proceed(Record(s, id, s.captured[id], status, true), id, next);
    assert BeginOk(s, id);
    assert s'.journal == s.journal[id := Row(s.captured[id], status)] by {
      assert id in s.journal ==> RowOk(s, id);
    }
    forall other | other in s'.journal
      ensures RowOk(s', other)
    {
      assert other != id ==> RowOk(s, other);
    }
    forall other | other in s'.begins
      ensures BeginOk(s', other)
    {
      assert other != id ==> BeginOk(s, other);
    }
    forall job | job in s'.jobs
      ensures JobOk(s', job)
    {
      assert JobOk(s, job);
    }
    ModeStays(s, s');
  }

  lemma {:induction false} ModeStays(s: State, s': State)
    requires ModeOk(s) && s'.mode == s.mode && s'.captured == s.captured && s.journal.Keys <= s'.journal.Keys
    requires s'.world == s.world && s'.effects == s.effects && (s.begins == map[] ==> s'.begins == map[])
    ensures ModeOk(s')
  {
    hide Live;
  }

  lemma {:induction false} ActivateKeepsInv(s: State, id: TransactionId)
    requires Inv(s) && At(s, id, Activating)
    ensures Inv(Proceed(s, id, None).(active := s.active + {id}))
  {
    hide Live, WorldOk, CapturedOk;
  }

  lemma {:induction false} JobMovedKeepsInv(s: State, job: nat, id: TransactionId, phase: JobPhase)
    requires Inv(s) && id in s.captured && id in s.journal && id !in s.begins
    requires phase.Saving? ==> OutcomeOk(s, id, phase.outcome)
    ensures Inv(JobMoved(s, job, id, phase))
  {
    hide Live, WorldOk, CapturedOk;
  }

  lemma {:induction false} ForgetKeepsInv(s: State, job: nat)
    requires Inv(s) && job in s.jobs
    ensures Inv(Forgotten(s, job))
  {
    hide Live, WorldOk, CapturedOk;
  }

  lemma {:induction false} RefuseKeepsInv(s: State, id: TransactionId, tx: Transaction, status: Status, saved: bool)
    requires Inv(s) && id !in s.captured && id !in s.journal && status in {Blocked, Failed}
    ensures Inv(Record(s, id, tx, status, saved))
  {
    hide Live, WorldOk, CapturedOk;
  }

  lemma {:induction false} ModeKeepsInv(s: State, mode: Mode)
    requires Inv(s) && ModeOk(s.(mode := mode))
    ensures Inv(s.(mode := mode))
  {
    hide Live, WorldOk, CapturedOk;
  }

  lemma {:induction false} RecoveryKeepsInv(s: State, step: Step)
    requires Inv(s) && Enabled(s, step)
    requires step.Boot? || step.RecoverAct? || step.RecoverSave? || step.FinishRecovery?
    ensures Inv(Next(s, step))
  {
    hide Live, WorldOk, CapturedOk, Rollback, Save;
    match step
    case Boot(rows) =>
      ModeKeepsInv(s, Recovering(rows, false, Restored));
    case RecoverAct(openOk, setOk) =>
      var (id, tx) := s.mode.todo[0];
      UndoIsLater(s, id, openOk, setOk);
      LaterKeepsInv(s, Undo(s, id, tx, openOk, setOk));
      ModeKeepsInv(Undo(s, id, tx, openOk, setOk),
                   Recovering(s.mode.todo, true, Rollback(s.world, tx, openOk, setOk).1));
    case RecoverSave(saved) =>
      var (id, tx) := s.mode.todo[0];
      var status := StatusAfter(s.mode.outcome);
      SaveKeepsInv(s, id, status, saved);
      ModeKeepsInv(Record(s, id, tx, status, saved), Recovering(s.mode.todo[1..], false, s.mode.outcome));
    case FinishRecovery =>
      ModeKeepsInv(s, Running);
  }

  lemma {:induction false} RollbackKeepsInv(s: State, step: Step)
    requires Inv(s) && Enabled(s, step)
    requires step.CopyActive? || step.RollbackAct? || step.RollbackSave? || step.Forget?
    ensures Inv(Next(s, step))
  {
    hide Live, WorldOk, CapturedOk, Rollback, Save;
    match step
    case CopyActive(job, id) =>
      JobMovedKeepsInv(s, job, id, Acting);
    case RollbackAct(job, openOk, setOk) =>
      var id := s.jobs[job].id;
      UndoIsLater(s, id, openOk, setOk);
      var undone := Undo(s, id, s.captured[id], openOk, setOk);
      LaterKeepsInv(s, undone);
      JobMovedKeepsInv(undone, job, id, Saving(Rollback(s.world, s.captured[id], openOk, setOk).1));
    case RollbackSave(job, saved) =>
      var Job(id, phase) := s.jobs[job];
      SaveKeepsInv(s, id, StatusAfter(phase.outcome), saved);
      JobMovedKeepsInv(Record(s, id, s.captured[id], StatusAfter(phase.outcome), saved), job, id, Forgetting);
    case Forget(job) =>
      ForgetKeepsInv(s, job);
  }

  lemma {:induction false} BeginKeepsInv(s: State, step: Step)
    requires Inv(s) && Enabled(s, step)
    requires step.CaptureOriginal? || step.SavePlanned? || step.ApplyAction? || step.SaveFailed? ||
             step.SaveExecuted? || step.Compensate? || step.Activate?
    ensures Inv(Next(s, step))
  {
    hide Inv, Enabled, Next;
    if step.CaptureOriginal? || step.SavePlanned? || step.ApplyAction? {
      EarlyBeginKeepsInv(s, step);
    } else {
      LateBeginKeepsInv(s, step);
    }
  }

  lemma {:induction false} EarlyBeginKeepsInv(s: State, step: Step)
    requires Inv(s) && Enabled(s, step)
    requires step.CaptureOriginal? || step.SavePlanned? || step.ApplyAction?
    ensures Inv(Next(s, step))
  {
    hide Live, CapturedOk, Rollback, Apply, Capture, ModeOk, RowOk, JobOk;
    match step
    case CaptureOriginal(id, action, pid, memoryRead, powerRead, startedAtMs, expiresAtMs) =>
      var result := Capture(s.world, action, pid, true, true, memoryRead, powerRead);
      CaptureIsKnown(s.world, s.pristine, action, pid, memoryRead, powerRead);
      CaptureKeepsInv(s, id, Transaction(action, result.identity, result.original, startedAtMs, expiresAtMs));
    case SavePlanned(id, saved) =>
      if saved {
        BeginSaveKeepsInv(s, id, Planned, Some(Applying));
      } else {
        ProceedKeepsInv(s, id, None);
      }
    case ApplyAction(id, openOk, setOk) =>
      if Apply(s.world, s.captured[id], openOk, setOk).1 {
        ApplyKeepsInv(s, id, openOk, setOk);
      } else {
        ProceedKeepsInv(s, id, Some(SavingFailed));
      }
  }

  lemma {:induction false} LateBeginKeepsInv(s: State, step: Step)
    requires Inv(s) && Enabled(s, step)
    requires step.SaveFailed? || step.SaveExecuted? || step.Compensate? || step.Activate?
    ensures Inv(Next(s, step))
  {
    hide Live, CapturedOk, Rollback, Apply, ModeOk, RowOk, JobOk;
    match step
    case SaveFailed(id, saved) =>
      if saved {
        BeginSaveKeepsInv(s, id, Failed, None);
      } else {
        ProceedKeepsInv(s, id, None);
      }
    case SaveExecuted(id, saved) =>
      if saved {
        BeginSaveKeepsInv(s, id, Executed, Some(Activating));
      } else {
        ProceedKeepsInv(s, id, Some(Compensating));
      }
    case Compensate(id, openOk, setOk) =>
      UndoIsLater(s, id, openOk, setOk);
      LaterKeepsInv(s, Undo(s, id, s.captured[id], openOk, setOk));
      ProceedKeepsInv(Undo(s, id, s.captured[id], openOk, setOk), id, None);
    case Activate(id) =>
      ActivateKeepsInv(s, id);
  }

  lemma CaptureIsKnown(world: World, pristine: map<(nat, nat), Settings>, action: ResourceActionType, pid: nat,
                       memoryRead: bool, powerRead: bool)
    requires WorldOk(world, pristine)
    ensures var result := Capture(world, action, pid, true, true, memoryRead, powerRead);
            result.CaptureOk? ==> Key(result.identity) in pristine && Captured(action, result.original)
  {
  }

  lemma {:induction false} StepKeepsInv(s: State, step: Step)
    requires Inv(s) && Enabled(s, step)
    ensures Inv(Next(s, step))
  {
    hide Inv, ModeOk, Live, CapturedOk, Rollback, Apply, Capture, Save;
    match step
    case Exit(pid) =>
      ExitIsLater(s, pid);
      LaterKeepsInv(s, Exited(s, pid));
    case Spawn(process) =>
      InvParts(s);
      SpawnIsLater(s, process);
      LaterKeepsInv(s, Spawned(s, process));
    case Crash => CrashKeepsInv(s);
    case Refuse(id, tx, status, saved) => RefuseKeepsInv(s, id, tx, status, saved);
    case Boot(_) | RecoverAct(_, _) | RecoverSave(_) | FinishRecovery => RecoveryKeepsInv(s, step);
    case CopyActive(_, _) | RollbackAct(_, _, _) | RollbackSave(_, _) | Forget(_) => RollbackKeepsInv(s, step);
    case _ => BeginKeepsInv(s, step);
  }

  lemma {:induction false} InvParts(s: State)
    requires Inv(s)
    ensures WorldOk(s.world, s.pristine) && CapturedOk(s.captured, s.pristine)
  {
  }

  lemma {:induction false} TransitionKeepsInv(s: State, s': State)
    requires Inv(s) && Transition(s, s')
    ensures Inv(s')
  {
    hide Inv, Enabled, Next;
    var step :| Enabled(s, step) && s' == Next(s, step);
    StepKeepsInv(s, step);
  }

  lemma {:induction false} RunKeepsInv(states: seq<State>, i: nat)
    requires Run(states) && i < |states|
    ensures Inv(states[i])
  {
    hide Transition;
    if i > 0 {
      RunKeepsInv(states, i - 1);
      assert Transition(states[i - 1], states[i - 1 + 1]);
      TransitionKeepsInv(states[i - 1], states[i]);
    }
  }

  // ----- crash safety -----

  /**
   * At every point of every run, an action still in effect on a live process has a journal row that
   * holds the original state captured for it, in a status that keeps it visible.
   */
  lemma {:induction false} EffectsAreJournaled(states: seq<State>, i: nat, id: TransactionId)
    requires Run(states) && i < |states|
    requires id in states[i].effects
    ensures var s := states[i];
            && id in s.captured && id in s.journal
            && s.journal[id].transaction == s.captured[id]
            && (Live(s.world, s.captured[id].identity) ==> s.journal[id].status in {Planned, Executed, RollbackFailed})
  {
    RunKeepsInv(states, i);
  }

  lemma {:induction false} StepCaptures(s: State, step: Step)
    requires Enabled(s, step)
    ensures !step.CaptureOriginal? ==> Next(s, step).captured == s.captured
    ensures step.CaptureOriginal? ==>
        step.id !in s.captured && Next(s, step).captured == s.captured[step.id := Next(s, step).captured[step.id]]
  {
    hide Rollback, Apply, Capture, Save, UnfinishedRow;
  }

  lemma {:induction false} CapturedGrows(s: State, s': State, id: TransactionId)
    requires Transition(s, s') && id in s.captured
    ensures id in s'.captured && s'.captured[id] == s.captured[id]
  {
    hide Enabled, Next;
    var step :| Enabled(s, step) && s' == Next(s, step);
    StepCaptures(s, step);
  }

  /** The first captured original state survives every later write and every crash. */
  lemma {:induction false} CapturedForever(states: seq<State>, i: nat, j: nat, id: TransactionId)
    requires Run(states) && i <= j < |states| && id in states[i].captured
    ensures id in states[j].captured && states[j].captured[id] == states[i].captured[id]
    ensures id in states[j].journal ==> states[j].journal[id].transaction == states[i].captured[id]
    decreases j - i
  {
    hide Transition;
    if i < j {
      CapturedForever(states, i, j - 1, id);
      assert Transition(states[j - 1], states[j - 1 + 1]);
      CapturedGrows(states[j - 1], states[j], id);
    }
    RunKeepsInv(states, j);
  }

  /** The transaction whose target a step may change. */
  function Target(s: State, step: Step): Option<Transaction>
    requires Enabled(s, step)
  {
    match step
    case RecoverAct(_, _) => Some(s.mode.todo[0].1)
    case ApplyAction(id, _, _) => Some(s.captured[id])
    case Compensate(id, _, _) => Some(s.captured[id])
    case RollbackAct(job, _, _) => Some(s.captured[s.jobs[job].id])
    case _ => None
  }

  /** No step of the protocol changes a process other than the one its transaction captured. */
  lemma {:induction false} OnlyTheCapturedProcess(s: State, step: Step, p: nat)
    requires Enabled(s, step) && !step.Exit? && !step.Spawn?
    requires p in s.world
    ensures p in Next(s, step).world
    ensures match Target(s, step)
            case None => Next(s, step).world[p] == s.world[p]
            case Some(tx) => ChangesOnly(s.world[p], Next(s, step).world[p], tx.identity, tx.action)
  {
    hide Enabled, Next, Target, ChangesOnly;
    WorldAfter(s, step);
    if Target(s, step).Some? {
      ActingStep(s, step, p);
    }
  }

  /** A step without a target leaves the processes alone. */
  lemma {:induction false} WorldAfter(s: State, step: Step)
    requires Enabled(s, step) && !step.Exit? && !step.Spawn?
    ensures Target(s, step).None? ==> Next(s, step).world == s.world
  {
    hide Rollback, Apply, Capture, Save, UnfinishedRow;
  }

  lemma {:induction false} ActingStep(s: State, step: Step, p: nat)
    requires Enabled(s, step) && !step.Exit? && !step.Spawn? && p in s.world && Target(s, step).Some?
    ensures p in Next(s, step).world
    ensures var tx := Target(s, step).value;
            ChangesOnly(s.world[p], Next(s, step).world[p], tx.identity, tx.action)
  {
    hide Rollback, Apply, ChangesOnly;
    match step
    case RecoverAct(openOk, setOk) => ExecutorIsSelective(s.world, s.mode.todo[0].1, openOk, setOk, p);
    case ApplyAction(id, openOk, setOk) => ExecutorIsSelective(s.world, s.captured[id], openOk, setOk, p);
    case Compensate(id, openOk, setOk) => ExecutorIsSelective(s.world, s.captured[id], openOk, setOk, p);
    case RollbackAct(job, openOk, setOk) =>
      ExecutorIsSelective(s.world, s.captured[s.jobs[job].id], openOk, setOk, p);
  }
}
