/** The durable ledger of provider calls: ProviderAttemptsService. */
module Attempts {
  import opened Rows

  /** Transcriptions are budgeted per asset across generations, the other operations per generation. */
  predicate InScope(attempt: Attempt, g: GenerationId, operation: Operation, asset: Option<AssetId>) {
    && attempt.operation == operation
    && attempt.asset == asset
    && ((operation.TRANSCRIPTION? && asset.Some?) || attempt.generation == g)
  }

  function Scope(attempts: map<AttemptId, Attempt>, g: GenerationId, operation: Operation, asset: Option<AssetId>): set<AttemptId> {
    set id | id in attempts && InScope(attempts[id], g, operation, asset)
  }

  predicate Stale(attempt: Attempt, now: Time) {
    attempt.status.STARTED? && attempt.lease <= now
  }

  function CloseStale(attempts: map<AttemptId, Attempt>, g: GenerationId, operation: Operation, asset: Option<AssetId>,
                      now: Time): (closed: map<AttemptId, Attempt>)
    ensures closed.Keys == attempts.Keys
  {
    map id | id in attempts ::
      if InScope(attempts[id], g, operation, asset) && Stale(attempts[id], now) then attempts[id].(status := ABORTED)
      else attempts[id]
  }

  predicate SameSlot(left: Attempt, right: Attempt) {
    && left.generation == right.generation && left.operation == right.operation
    && left.asset == right.asset && left.number == right.number
  }

  /** Refuses while an attempt is in progress; closes stale attempts; refuses once the budget is spent, which
      throws and so undoes the closing; otherwise authorises one more call. */
  function StartAttempt(cfg: Config, db: Db, now: Time, id: AttemptId, g: GenerationId, operation: Operation,
                        asset: Option<AssetId>, token: Token, lease: Time): Outcome<Db> {
    var scope := Scope(db.attempts, g, operation, asset);
    if exists a :: a in scope && db.attempts[a].status.STARTED? && db.attempts[a].lease > now then
      Err(AttemptInProgress)
    else if |scope| >= cfg.MaximumCalls(operation) then Err(BudgetExhausted)
    else
      var closed := CloseStale(db.attempts, g, operation, asset, now);
      var attempt := Attempt(g, asset, operation, |scope| + 1, STARTED, token, lease);
      if id in closed || g !in db.generations || (asset.Some? && asset.value !in db.assets) then Err(Constraint)
      else if exists a :: a in closed && SameSlot(closed[a], attempt) then Err(Constraint)
      else Ok(db.(attempts := closed[id := attempt]))
  }

  predicate HasCompleted(attempts: map<AttemptId, Attempt>, g: GenerationId, operation: Operation) {
    exists id :: id in attempts && Completes(attempts[id], g, operation)
  }

  predicate Completes(attempt: Attempt, g: GenerationId, operation: Operation) {
    attempt.generation == g && attempt.operation == operation && attempt.asset.None? && attempt.status.COMPLETED?
  }

  /** The ownership test of every guarded write of a worker. */
  predicate Owned(generations: map<GenerationId, Generation>, now: Time, g: GenerationId, token: Token) {
    && g in generations
    && generations[g].status.Processing?
    && generations[g].token == Some(token)
    && generations[g].lease.Some? && generations[g].lease.value > now
  }

  function CompleteAttempt(db: Db, now: Time, id: AttemptId, token: Token): Outcome<Db> {
    if id in db.attempts && db.attempts[id].token == token && db.attempts[id].status.STARTED? && db.attempts[id].lease > now then
      Ok(db.(attempts := db.attempts[id := db.attempts[id].(status := COMPLETED)]))
    else Err(ClaimLost)
  }

  function CompleteOwned(db: Db, now: Time, g: GenerationId, id: AttemptId, token: Token): Outcome<Db> {
    if Owned(db.generations, now, g, token) then CompleteAttempt(db, now, id, token) else Err(ClaimLost)
  }

  function FailAttempt(db: Db, id: AttemptId, token: Token): Db {
    if id in db.attempts && db.attempts[id].token == token && db.attempts[id].status.STARTED? then
      db.(attempts := db.attempts[id := db.attempts[id].(status := ABORTED)])
    else db
  }
}
