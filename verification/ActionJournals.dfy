/** The persistent action journal: one row per transaction id. */
module ActionJournals {
  import opened ProcessWorld

  type TransactionId = nat

  datatype Status =
    | Blocked
    | Planned
    | Executed
    | VerifiedHelpful
    | VerifiedNeutral
    | VerifiedHarmful
    | RolledBack
    | Failed
    | RollbackFailed
    | TargetExited

  datatype Row = Row(transaction: Transaction, status: Status)

  type Journal = map<TransactionId, Row>

  /** An existing row keeps everything but its status: the first captured original state survives. */
  function Save(journal: Journal, id: TransactionId, transaction: Transaction, status: Status, ok: bool): Journal {
    if !ok then journal
    else if id in journal then journal[id := journal[id].(status := status)]
    else journal[id := Row(transaction, status)]
  }

  predicate Unfinished(status: Status) {
    status in {Planned, Executed, VerifiedHelpful, VerifiedNeutral, VerifiedHarmful}
  }

  /** Recovery looks at every row but those whose action was never carried out, is over, or could not be undone. */
  lemma UnfinishedMeans(status: Status)
    ensures Unfinished(status) <==> status !in {Blocked, Failed, RolledBack, RollbackFailed, TargetExited}
  {
  }

  predicate UnfinishedRow(journal: Journal, id: TransactionId) {
    id in journal && Unfinished(journal[id].status)
  }

  function StatusAfter(outcome: RollbackOutcome): Status {
    match outcome
    case Restored => RolledBack
    case AlreadyExited => TargetExited
    case RollbackError => RollbackFailed
  }
}
