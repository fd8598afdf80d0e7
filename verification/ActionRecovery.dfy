/** Startup recovery when the executor and the journal cooperate: exactly what it restores. */
module ActionRecovery {
  import opened ResourceActions
  import opened ProcessWorld
  import opened ActionJournals
  import opened ActionProtocol
  import opened PristineSettings
  import opened ExclusiveActions
  import opened ExactSettings
  import opened ExclusiveRuns
  import opened Wrappers

  type Rows = seq<(TransactionId, Transaction)>

  function RecoverAll(world: World, journal: Journal, rows: Rows): (World, Journal)
    decreases |rows|
  {
    if |rows| == 0 then (world, journal)
    else
      var (id, tx) := rows[0];
      var (world', outcome) := Rollback(world, tx, true, true);
      RecoverAll(world', Save(journal, id, tx, StatusAfter(outcome), true), rows[1..])
  }

  /** `rows` are unfinished rows of the journal, in some order; a load may stop before it has seen them all. */
  ghost predicate SomeUnfinished(journal: Journal, rows: Rows) {
    && (forall i, j | 0 <= i < j < |rows| :: rows[i].0 != rows[j].0)
    && (forall i | 0 <= i < |rows| ::
          UnfinishedRow(journal, rows[i].0) && journal[rows[i].0].transaction == rows[i].1)
  }

  ghost predicate Listed(rows: Rows, id: TransactionId) {
    exists i | 0 <= i < |rows| :: rows[i].0 == id
  }

  /** `rows` is the whole unfinished part of the journal, in some order. */
  ghost predicate IsUnfinishedPart(journal: Journal, rows: Rows) {
    SomeUnfinished(journal, rows) && forall id | UnfinishedRow(journal, id) :: Listed(rows, id)
  }

  predicate Concerns(tx: Transaction, identity: Identity, action: ResourceActionType) {
    tx.action == action && SameIdentity(tx.identity, identity)
  }

  /** The setting recorded by the last row about this process and action. */
  function LastOriginal(rows: Rows, identity: Identity, action: ResourceActionType): Option<nat> {
    if |rows| == 0 then None
    else
      var last := LastOriginal(rows[1..], identity, action);
      if last.Some? then last
      else if Concerns(rows[0].1, identity, action) then Some(Aspect(action, rows[0].1.original.settings))
      else None
  }

  lemma {:induction false} RecoveryFinishesRows(world: World, journal: Journal, rows: Rows, id: TransactionId)
    requires id in journal
    ensures var journal' := RecoverAll(world, journal, rows).1;
            && id in journal' && journal'[id].transaction == journal[id].transaction
            && ((exists i | 0 <= i < |rows| :: rows[i].0 == id) ==> !Unfinished(journal'[id].status))
            && (!Unfinished(journal[id].status) ==> !Unfinished(journal'[id].status))
    decreases |rows|
  {
    hide Rollback;
    if |rows| > 0 {
      var (first, tx) := rows[0];
      var (world', outcome) := Rollback(world, tx, true, true);
      RecoveryFinishesRows(world', Save(journal, first, tx, StatusAfter(outcome), true), rows[1..], id);
      if i :| 0 <= i < |rows| && rows[i].0 == id {
        assert i > 0 ==> rows[1..][i - 1].0 == id;
      }
    }
  }

  lemma {:induction false} RecoveryAddsNoRows(world: World, journal: Journal, rows: Rows)
    requires forall i | 0 <= i < |rows| :: rows[i].0 in journal
    ensures RecoverAll(world, journal, rows).1.Keys == journal.Keys
    decreases |rows|
  {
    hide Rollback;
    if |rows| > 0 {
      var (first, tx) := rows[0];
      var (world', outcome) := Rollback(world, tx, true, true);
      assert first in journal;
      RecoveryAddsNoRows(world', Save(journal, first, tx, StatusAfter(outcome), true), rows[1..]);
    }
  }

  /** A second recovery finds nothing to do. */
  lemma {:induction false} SecondRecoveryFindsNothing(world: World, journal: Journal, rows: Rows, again: Rows)
    requires IsUnfinishedPart(journal, rows)
    requires IsUnfinishedPart(RecoverAll(world, journal, rows).1, again)
    ensures again == []
  {
    var journal' := RecoverAll(world, journal, rows).1;
    if |again| > 0 {
      var id := again[0].0;
      RecoveryAddsNoRows(world, journal, rows);
      assert UnfinishedRow(journal', id);
      assert Unfinished(journal[id].status) ==> UnfinishedRow(journal, id);
      RecoveryFinishesRows(world, journal, rows, id);
    }
  }

  /** Each setting ends as the last row about it says; no other setting changes. */
  lemma {:induction false} RecoveryResult(world: World, journal: Journal, rows: Rows, p: nat,
                                          action: ResourceActionType)
    requires p in world && action != NoAction && forall q | q in world :: world[q].identity.pid == q
    requires forall i | 0 <= i < |rows| :: Captured(rows[i].1.action, rows[i].1.original)
    ensures var world' := RecoverAll(world, journal, rows).0;
            && p in world' && world'[p].identity == world[p].identity
            && Aspect(action, world'[p].settings) ==
               match LastOriginal(rows, world[p].identity, action)
               case None => Aspect(action, world[p].settings)
               case Some(value) => value
    decreases |rows|
  {
    hide Save, Aspect, SameIdentity, Captured;
    if |rows| > 0 {
      var (id, tx) := rows[0];
      var (world', outcome) := Rollback(world, tx, true, true);
      ExecutorKeepsIdentities(world, tx, true, true);
      FirstRow(world, tx, p, action);
      RecoveryResult(world', Save(journal, id, tx, StatusAfter(outcome), true), rows[1..], p, action);
    }
  }

  lemma FirstRow(world: World, tx: Transaction, p: nat, action: ResourceActionType)
    requires p in world && forall q | q in world :: world[q].identity.pid == q
    requires Captured(tx.action, tx.original)
    ensures var world' := Rollback(world, tx, true, true).0;
            Aspect(action, world'[p].settings) ==
            if Concerns(tx, world[p].identity, action) then Aspect(action, tx.original.settings)
            else Aspect(action, world[p].settings)
  {
    UndoneAspect(tx, world[p].settings);
    ExecutorIsSelective(world, tx, true, true, p);
  }

  /** Rows about the same live process and action agree on the original setting. */
  ghost predicate Agree(world: World, rows: Rows) {
    forall i, j | 0 <= i < |rows| && 0 <= j < |rows| && Live(world, rows[i].1.identity)
      && Concerns(rows[j].1, world[rows[i].1.identity.pid].identity, rows[i].1.action) ::
      Aspect(rows[i].1.action, rows[i].1.original.settings) == Aspect(rows[i].1.action, rows[j].1.original.settings)
  }

  ghost predicate AllRestored(world: World, rows: Rows, world': World) {
    forall i | 0 <= i < |rows| && Live(world, rows[i].1.identity) ::
      var tx := rows[i].1;
      && tx.identity.pid in world'
      && Aspect(tx.action, world'[tx.identity.pid].settings) == Aspect(tx.action, tx.original.settings)
  }

  lemma {:induction false} LastOriginalIsRecorded(rows: Rows, identity: Identity, action: ResourceActionType, i: nat)
    requires i < |rows| && Concerns(rows[i].1, identity, action)
    ensures exists j | 0 <= j < |rows| && Concerns(rows[j].1, identity, action) ::
        LastOriginal(rows, identity, action) == Some(Aspect(action, rows[j].1.original.settings))
  {
    hide Concerns, Aspect;
    var last := LastOriginal(rows[1..], identity, action);
    if last.Some? {
      LastOriginalFrom(rows[1..], identity, action);
      var j :| 0 <= j < |rows[1..]| && Concerns(rows[1..][j].1, identity, action)
        && last == Some(Aspect(action, rows[1..][j].1.original.settings));
      assert rows[j + 1] == rows[1..][j];
    } else if i > 0 {
      LastOriginalIsRecorded(rows[1..], identity, action, i - 1);
    }
  }

  lemma {:induction false} LastOriginalFrom(rows: Rows, identity: Identity, action: ResourceActionType)
    requires LastOriginal(rows, identity, action).Some?
    ensures exists j | 0 <= j < |rows| && Concerns(rows[j].1, identity, action) ::
        LastOriginal(rows, identity, action) == Some(Aspect(action, rows[j].1.original.settings))
  {
    hide Concerns, Aspect;
    if LastOriginal(rows[1..], identity, action).Some? {
      LastOriginalFrom(rows[1..], identity, action);
      var j :| 0 <= j < |rows[1..]| && Concerns(rows[1..][j].1, identity, action)
        && LastOriginal(rows[1..], identity, action) == Some(Aspect(action, rows[1..][j].1.original.settings));
      assert rows[j + 1] == rows[1..][j];
    }
  }

  /** Recovery restores every surviving target exactly when the rows do not contradict each other. */
  lemma {:induction false} RecoveryRestoresAll(world: World, journal: Journal, rows: Rows)
    requires forall q | q in world :: world[q].identity.pid == q
    requires forall i | 0 <= i < |rows| ::
        rows[i].1.action != NoAction && Captured(rows[i].1.action, rows[i].1.original)
    ensures AllRestored(world, rows, RecoverAll(world, journal, rows).0) <==> Agree(world, rows)
  {
    hide RecoverAll, Aspect, SameIdentity, Captured;
    var world' := RecoverAll(world, journal, rows).0;
    forall i | 0 <= i < |rows| && Live(world, rows[i].1.identity)
      ensures rows[i].1.identity.pid in world'
      ensures exists j | 0 <= j < |rows| && Concerns(rows[j].1, world[rows[i].1.identity.pid].identity,
                                                     rows[i].1.action) ::
          Aspect(rows[i].1.action, world'[rows[i].1.identity.pid].settings) ==
          Aspect(rows[i].1.action, rows[j].1.original.settings)
    {
      var tx := rows[i].1;
      RecoveryResult(world, journal, rows, tx.identity.pid, tx.action);
      LastOriginalIsRecorded(rows, world[tx.identity.pid].identity, tx.action, i);
    }
    if AllRestored(world, rows, world') {
      forall i, j | 0 <= i < |rows| && 0 <= j < |rows| && Live(world, rows[i].1.identity)
        && Concerns(rows[j].1, world[rows[i].1.identity.pid].identity, rows[i].1.action)
        ensures Aspect(rows[i].1.action, rows[i].1.original.settings) ==
                Aspect(rows[i].1.action, rows[j].1.original.settings)
      {
        TargetsAgree(world, rows[i].1, rows[j].1);
      }
    }
  }

  lemma TargetsAgree(world: World, tx: Transaction, tx': Transaction)
    requires Live(world, tx.identity) && Concerns(tx', world[tx.identity.pid].identity, tx.action)
    ensures Live(world, tx'.identity) && tx'.identity.pid == tx.identity.pid && tx'.action == tx.action
    ensures Key(tx'.identity) == Key(tx.identity)
  {
  }

  /** Every surviving target of a loaded row has the action's setting with which it started. */
  ghost predicate AllOwn(s: State, rows: Rows, world': World) {
    forall k | 0 <= k < |rows| && Live(s.world, rows[k].1.identity) :: HasOwn(s, rows[k].1, world')
  }

  ghost predicate HasOwn(s: State, tx: Transaction, world': World) {
    && tx.identity.pid in world' && Key(tx.identity) in s.pristine
    && Aspect(tx.action, world'[tx.identity.pid].settings) == Aspect(tx.action, s.pristine[Key(tx.identity)])
  }

  /** The last row about each surviving target recorded the setting with which the process started. */
  ghost predicate LastRowsOwn(s: State, rows: Rows) {
    forall k | 0 <= k < |rows| && Live(s.world, rows[k].1.identity) ::
      && Key(rows[k].1.identity) in s.pristine
      && LastOriginal(rows, s.world[rows[k].1.identity.pid].identity, rows[k].1.action)
         == Some(Aspect(rows[k].1.action, s.pristine[Key(rows[k].1.identity)]))
  }

  lemma {:induction false} RowsAreCaptured(s: State, rows: Rows)
    requires Inv(s) && SomeUnfinished(s.journal, rows)
    ensures forall k | 0 <= k < |rows| :: rows[k].0 in s.captured && rows[k].1 == s.captured[rows[k].0]
    ensures forall k | 0 <= k < |rows| ::
              rows[k].1.action != NoAction && Captured(rows[k].1.action, rows[k].1.original)
    ensures forall q | q in s.world :: s.world[q].identity.pid == q
  {
    forall k | 0 <= k < |rows|
      ensures rows[k].0 in s.captured && rows[k].1 == s.captured[rows[k].0]
    {
      assert RowOk(s, rows[k].0);
    }
  }

  /** In any run at all, the processes get their own settings back exactly when the last rows recorded them. */
  lemma {:induction false} RecoveryRestoresOwn(states: seq<State>, i: nat, rows: Rows)
    requires Run(states) && i < |states| && SomeUnfinished(states[i].journal, rows)
    ensures var s := states[i];
            AllOwn(s, rows, RecoverAll(s.world, s.journal, rows).0) <==> LastRowsOwn(s, rows)
  {
    hide RecoverAll, Aspect, Run, LastOriginal, SomeUnfinished, SameIdentity;
    var s := states[i];
    RunKeepsInv(states, i);
    RowsAreCaptured(s, rows);
    InvParts(s);
    var world' := RecoverAll(s.world, s.journal, rows).0;
    forall k | 0 <= k < |rows| && Live(s.world, rows[k].1.identity)
      ensures HasOwn(s, rows[k].1, world') <==>
              && Key(rows[k].1.identity) in s.pristine
              && LastOriginal(rows, s.world[rows[k].1.identity.pid].identity, rows[k].1.action)
                 == Some(Aspect(rows[k].1.action, s.pristine[Key(rows[k].1.identity)]))
    {
      RecoveryResult(s.world, s.journal, rows, rows[k].1.identity.pid, rows[k].1.action);
      LastOriginalIsRecorded(rows, s.world[rows[k].1.identity.pid].identity, rows[k].1.action, k);
    }
  }

  // ----- the whole world after a recovery -----

  /** A transaction on this target that recovery leaves alone is in effect. */
  ghost predicate LeftInEffect(s: State, rows: Rows, identity: Identity, action: ResourceActionType) {
    exists id | id in s.effects && id in s.captured :: Concerns(s.captured[id], identity, action) && !Listed(rows, id)
  }

  /** A transaction on this target is in effect although its row is closed: its rollback failed. */
  ghost predicate FailedInEffect(s: State, identity: Identity, action: ResourceActionType) {
    exists id | id in s.effects && id in s.captured && id in s.journal ::
      Concerns(s.captured[id], identity, action) && s.journal[id].status == RollbackFailed
  }

  /** The setting ends as the process's own, or as that lowered once. */
  ghost predicate EndsOwn(s: State, world': World, p: nat, action: ResourceActionType, lowered: bool)
    requires p in s.world
  {
    && p in world' && world'[p].identity == s.world[p].identity && Key(s.world[p].identity) in s.pristine
    && var own := s.pristine[Key(s.world[p].identity)];
       Aspect(action, world'[p].settings) == Aspect(action, if lowered then Lowered(action, own) else own)
  }

  /** Every setting of every process is its own, lowered once exactly where recovery left the action in effect. */
  ghost predicate RecoveredButLeft(s: State, rows: Rows, world': World) {
    forall p, action | p in s.world && action != NoAction ::
      EndsOwn(s, world', p, action, LeftInEffect(s, rows, s.world[p].identity, action))
  }

  /** Every setting of every process is its own, lowered once exactly where a failed rollback left it in effect. */
  ghost predicate RecoveredButFailed(s: State, world': World) {
    forall p, action | p in s.world && action != NoAction ::
      EndsOwn(s, world', p, action, FailedInEffect(s, s.world[p].identity, action))
  }

  /** When every unfinished row was loaded, what is left in effect has a ROLLBACK_FAILED row. */
  lemma {:induction false} LeftMeansFailed(s: State, rows: Rows, p: nat, action: ResourceActionType)
    requires Inv(s) && IsUnfinishedPart(s.journal, rows) && p in s.world
    ensures LeftInEffect(s, rows, s.world[p].identity, action) <==> FailedInEffect(s, s.world[p].identity, action)
  {
    hide SameIdentity, WorldOk, CapturedOk, SomeUnfinished, BeginOk, JobOk, ModeOk;
    forall id | id in s.effects && id in s.captured && Concerns(s.captured[id], s.world[p].identity, action)
      ensures id in s.journal && (Listed(rows, id) <==> s.journal[id].status != RollbackFailed)
    {
      EffectIsUnfinishedOrFailed(s, id, p);
      ListedIsUnfinished(s.journal, rows, id);
    }
  }

  lemma {:induction false} EffectIsUnfinishedOrFailed(s: State, id: TransactionId, p: nat)
    requires Inv(s) && p in s.world && id in s.effects && id in s.captured
    requires SameIdentity(s.captured[id].identity, s.world[p].identity)
    ensures id in s.journal
    ensures UnfinishedRow(s.journal, id) <==> s.journal[id].status != RollbackFailed
  {
    hide NormalizePath, CapturedOk, BeginOk, JobOk, ModeOk;
    assert RowOk(s, id);
  }

  lemma {:induction false} ListedIsUnfinished(journal: Journal, rows: Rows, id: TransactionId)
    requires IsUnfinishedPart(journal, rows)
    ensures Listed(rows, id) <==> UnfinishedRow(journal, id)
  {
  }

  /** In an exact state, with at most one open transaction on each target: what one setting is after a recovery. */
  lemma {:induction false} AspectAfterRecovery(s: State, rows: Rows, p: nat, action: ResourceActionType)
    requires Inv(s) && Exact(s) && AtMostOne(s) && SomeUnfinished(s.journal, rows)
    requires p in s.world && action != NoAction
    ensures EndsOwn(s, RecoverAll(s.world, s.journal, rows).0, p, action,
                    LeftInEffect(s, rows, s.world[p].identity, action))
  {
    hide RecoverAll, Aspect, Lowered, SomeUnfinished, Inv, AtMostOne, SameIdentity, Captured, LastOriginal;
    var identity := s.world[p].identity;
    RowsAreCaptured(s, rows);
    RecoveryResult(s.world, s.journal, rows, p, action);
    assert AspectIsExact(s, p, action);
    if LastOriginal(rows, identity, action).Some? {
      LastOriginalFrom(rows, identity, action);
      var j :| 0 <= j < |rows| && Concerns(rows[j].1, identity, action)
        && LastOriginal(rows, identity, action) == Some(Aspect(action, rows[j].1.original.settings));
      RowsOriginalIsOwn(s, rows, j, p);
      NothingLeftBeside(s, rows, j, p);
    } else {
      NoRowConcerns(s, rows, identity, action);
    }
  }

  lemma {:induction false} RowsOriginalIsOwn(s: State, rows: Rows, j: nat, p: nat)
    requires Inv(s) && Originals(s) && j < |rows| && rows[j].0 in s.captured && rows[j].1 == s.captured[rows[j].0]
    requires p in s.world && SameIdentity(rows[j].1.identity, s.world[p].identity)
    ensures Key(s.world[p].identity) in s.pristine
    ensures Aspect(rows[j].1.action, rows[j].1.original.settings)
            == Aspect(rows[j].1.action, s.pristine[Key(s.world[p].identity)])
  {
    hide Aspect, NormalizePath;
    InvParts(s);
    assert OriginalIsPristine(s.captured[rows[j].0], s.pristine);
  }

  /** Besides the transaction of a loaded row, no other is in effect on its target. */
  lemma {:induction false} NothingLeftBeside(s: State, rows: Rows, j: nat, p: nat)
    requires Inv(s) && AtMostOne(s) && SomeUnfinished(s.journal, rows) && j < |rows|
    requires rows[j].0 in s.captured && rows[j].1 == s.captured[rows[j].0]
    requires p in s.world && SameIdentity(rows[j].1.identity, s.world[p].identity)
    ensures !LeftInEffect(s, rows, s.world[p].identity, rows[j].1.action)
  {
    hide Inv, AtMostOne, SameIdentity;
    var id := rows[j].0;
    assert OnRecord(s.journal, id);
    NoOtherEffect(s, id, p);
    forall other | other in s.effects && other in s.captured
      && Concerns(s.captured[other], s.world[p].identity, rows[j].1.action)
      ensures Listed(rows, other)
    {
      assert other !in s.effects - {id};
    }
  }

  /** Without a loaded row about it, whatever is in effect on a target is left so. */
  lemma {:induction false} NoRowConcerns(s: State, rows: Rows, identity: Identity, action: ResourceActionType)
    requires LastOriginal(rows, identity, action).None?
    requires forall k | 0 <= k < |rows| :: rows[k].0 in s.captured && rows[k].1 == s.captured[rows[k].0]
    ensures LeftInEffect(s, rows, identity, action) <==> InEffectOn(s.captured, s.effects, identity, action)
  {
    hide SameIdentity, LastOriginal;
    forall id | id in s.captured && Listed(rows, id)
      ensures !Concerns(s.captured[id], identity, action)
    {
      var k :| 0 <= k < |rows| && rows[k].0 == id;
      if Concerns(rows[k].1, identity, action) {
        LastOriginalIsRecorded(rows, identity, action, k);
      }
    }
  }

  /** Nothing is said here about which actions are open, so a setting left lowered need not be lowered just once. */
  lemma {:induction false} PristineAfterRecovery(s: State, rows: Rows, p: nat, action: ResourceActionType)
    requires Inv(s) && Pristine(s) && SomeUnfinished(s.journal, rows) && p in s.world && action != NoAction
    ensures var world' := RecoverAll(s.world, s.journal, rows).0;
            EndsOwn(s, world', p, action, false) || LeftInEffect(s, rows, s.world[p].identity, action)
  {
    hide RecoverAll, Aspect, Lowered, SomeUnfinished, Inv, SameIdentity, Captured, LastOriginal;
    var identity := s.world[p].identity;
    RowsAreCaptured(s, rows);
    RecoveryResult(s.world, s.journal, rows, p, action);
    assert AccountedFor(s, p, action);
    if LastOriginal(rows, identity, action).Some? {
      LastOriginalFrom(rows, identity, action);
      var j :| 0 <= j < |rows| && Concerns(rows[j].1, identity, action)
        && LastOriginal(rows, identity, action) == Some(Aspect(action, rows[j].1.original.settings));
      RowsOriginalIsOwn(s, rows, j, p);
    } else {
      NoRowConcerns(s, rows, identity, action);
    }
  }

  /**
   * After an uncontended run the rows agree, so recovery returns the target of every row that it loads to
   * its own setting; any other setting is own unless an action is left in effect on it.
   */
  lemma {:induction false} RecoveryRestoresPristine(states: seq<State>, i: nat, rows: Rows)
    requires UncontendedRun(states) && i < |states| && SomeUnfinished(states[i].journal, rows)
    ensures var s := states[i];
            var world' := RecoverAll(s.world, s.journal, rows).0;
            && AllOwn(s, rows, world')
            && (forall p, action | p in s.world && action != NoAction ::
                  EndsOwn(s, world', p, action, false) || LeftInEffect(s, rows, s.world[p].identity, action))
  {
    hide RecoverAll, Aspect, LeftInEffect;
    var s := states[i];
    UncontendedRunIsPristine(states, i);
    RowsAreCaptured(s, rows);
    forall p, action | p in s.world && action != NoAction
      ensures EndsOwn(s, RecoverAll(s.world, s.journal, rows).0, p, action, false)
           || LeftInEffect(s, rows, s.world[p].identity, action)
    {
      PristineAfterRecovery(s, rows, p, action);
    }
    forall j, k | 0 <= j < |rows| && 0 <= k < |rows| && Live(s.world, rows[j].1.identity)
      && Concerns(rows[k].1, s.world[rows[j].1.identity.pid].identity, rows[j].1.action)
      ensures Aspect(rows[j].1.action, rows[j].1.original.settings) == Aspect(rows[j].1.action,
                                                                              rows[k].1.original.settings)
    {
      TargetsAgree(s.world, rows[j].1, rows[k].1);
      assert OriginalIsPristine(s.captured[rows[j].0], s.pristine);
      assert OriginalIsPristine(s.captured[rows[k].0], s.pristine);
    }
    RecoveryRestoresAll(s.world, s.journal, rows);
    assert forall k | 0 <= k < |rows| :: OriginalIsPristine(s.captured[rows[k].0], s.pristine);
  }

  /**
   * After an exclusive run, whose discipline a caller can see, the state of the whole world is known: a
   * setting that is not the process's own is that of a transaction that recovery did not load, and if
   * recovery loaded every unfinished row, of one whose rollback has failed.
   */
  lemma {:induction false} RecoveryAfterExclusiveRun(states: seq<State>, rows: Rows)
    requires ExclusiveRun(states) && SomeUnfinished(states[|states| - 1].journal, rows)
    ensures var s := states[|states| - 1];
            var world' := RecoverAll(s.world, s.journal, rows).0;
            && AllOwn(s, rows, world') && RecoveredButLeft(s, rows, world')
            && (IsUnfinishedPart(s.journal, rows) ==> RecoveredButFailed(s, world'))
  {
    hide ExclusiveTransition, UncontendedTransition, Exact, AtMostOne, Init, Inv, SomeUnfinished, AllOwn, RecoverAll,
        EndsOwn, LeftInEffect, FailedInEffect;
    var s := states[|states| - 1];
    ExclusiveRunIsExact(states, |states| - 1);
    assert states[..|states|] == states;
    RecoveryRestoresPristine(states, |states| - 1, rows);
    forall p, action | p in s.world && action != NoAction
      ensures EndsOwn(s, RecoverAll(s.world, s.journal, rows).0, p, action,
                      LeftInEffect(s, rows, s.world[p].identity, action))
      ensures IsUnfinishedPart(s.journal, rows) ==>
                (LeftInEffect(s, rows, s.world[p].identity, action)
                 <==> FailedInEffect(s, s.world[p].identity, action))
    {
      AspectAfterRecovery(s, rows, p, action);
      if IsUnfinishedPart(s.journal, rows) {
        LeftMeansFailed(s, rows, p, action);
      }
    }
  }
}
