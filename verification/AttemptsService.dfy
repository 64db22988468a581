/** ProviderAttemptsService statement by statement, proved against the functions of Attempts. */
module AttemptsService {
  import opened Rows
  import opened Tables
  import Attempts

  /** The stale rows of the scope, closed one by one. */
  method Close(prisma: Prisma, stale: set<AttemptId>, now: Time)
    requires stale <= prisma.attempts.Keys
    requires forall id | id in stale :: Attempts.Stale(prisma.attempts[id], now)
    modifies prisma`attempts
    ensures prisma.attempts.Keys == old(prisma.attempts).Keys
    ensures forall id | id in prisma.attempts :: prisma.attempts[id]
              == if id in stale then old(prisma.attempts)[id].(status := ABORTED) else old(prisma.attempts)[id]
  {
    var rest := stale;
    while rest != {}
      invariant rest <= stale && prisma.attempts.Keys == old(prisma.attempts).Keys
      invariant forall id | id in prisma.attempts :: prisma.attempts[id]
                  == if id in stale - rest then old(prisma.attempts)[id].(status := ABORTED) else old(prisma.attempts)[id]
      decreases |rest|
    {
      var id :| id in rest;
      prisma.attempts := prisma.attempts[id := prisma.attempts[id].(status := ABORTED)];
      rest := rest - {id};
    }
  }

  method CloseScope(prisma: Prisma, scope: set<AttemptId>, g: GenerationId, operation: Operation, asset: Option<AssetId>, now: Time)
    requires scope == Attempts.Scope(prisma.attempts, g, operation, asset)
    modifies prisma`attempts
    ensures prisma.attempts == Attempts.CloseStale(old(prisma.attempts), g, operation, asset, now)
  {
    var stale := set a | a in scope && Attempts.Stale(prisma.attempts[a], now);
    Close(prisma, stale, now);
  }

  /** Looks for a started attempt of the scope whose lease has not ended. */
  method FindActive(attempts: map<AttemptId, Attempt>, scope: set<AttemptId>, now: Time) returns (found: bool)
    requires scope <= attempts.Keys
    ensures found <==> exists a :: a in scope && attempts[a].status.STARTED? && attempts[a].lease > now
  {
    var rest := scope;
    while rest != {}
      invariant rest <= scope
      invariant forall a | a in scope - rest :: !(attempts[a].status.STARTED? && attempts[a].lease > now)
      decreases |rest|
    {
      var a :| a in rest;
      if attempts[a].status.STARTED? && attempts[a].lease > now { return true; }
      rest := rest - {a};
    }
    return false;
  }

  /** create on the attempts: the foreign keys and the unique number of each scope. */
  method Create(transaction: Prisma, id: AttemptId, attempt: Attempt) returns (created: bool)
    modifies transaction`attempts
    ensures created <==> id !in old(transaction.attempts) && attempt.generation in transaction.generations
                         && (attempt.asset.Some? ==> attempt.asset.value in transaction.assets)
                         && forall a | a in old(transaction.attempts) :: !Attempts.SameSlot(old(transaction.attempts)[a], attempt)
    ensures transaction.attempts == if created then old(transaction.attempts)[id := attempt] else old(transaction.attempts)
  {
    if id in transaction.attempts || attempt.generation !in transaction.generations
       || (attempt.asset.Some? && attempt.asset.value !in transaction.assets)
       || exists a :: a in transaction.attempts && Attempts.SameSlot(transaction.attempts[a], attempt) {
      return false;
    }
    transaction.attempts := transaction.attempts[id := attempt];
    return true;
  }

  /** Stale rows are closed before the budget is tested, so running out of budget undoes the closing. */
  method Start(prisma: Prisma, cfg: Config, now: Time, id: AttemptId, g: GenerationId, operation: Operation,
               asset: Option<AssetId>, token: Token, lease: Time) returns (thrown: Option<Error>)
    modifies prisma
    ensures Settles(old(prisma.Committed()), prisma.Committed(),
                    Attempts.StartAttempt(cfg, old(prisma.Committed()), now, id, g, operation, asset, token, lease), thrown)
  {
    var saved := prisma.Committed();
    var attempts := Attempts.Scope(prisma.attempts, g, operation, asset);
    var active := FindActive(prisma.attempts, attempts, now);
    if active { return Some(AttemptInProgress); }
    CloseScope(prisma, attempts, g, operation, asset, now);
    if |attempts| >= cfg.MaximumCalls(operation) {
      prisma.RollBack(saved);
      return Some(BudgetExhausted);
    }
    var created := Create(prisma, id, Attempt(g, asset, operation, |attempts| + 1, STARTED, token, lease));
    if !created {
      prisma.RollBack(saved);
      return Some(Constraint);
    }
    return None;
  }

  /** One conditional update: whether it changed a row decides. */
  method Complete(transaction: Prisma, now: Time, id: AttemptId, token: Token) returns (thrown: Option<Error>)
    modifies transaction`attempts
    ensures Settles(old(transaction.Committed()), transaction.Committed(),
                    Attempts.CompleteAttempt(old(transaction.Committed()), now, id, token), thrown)
  {
    if id !in transaction.attempts { return Some(ClaimLost); }
    var attempt := transaction.attempts[id];
    if attempt.token != token || !attempt.status.STARTED? || attempt.lease <= now { return Some(ClaimLost); }
    transaction.attempts := transaction.attempts[id := attempt.(status := COMPLETED)];
    return None;
  }

  method CompleteOwned(prisma: Prisma, now: Time, g: GenerationId, id: AttemptId, token: Token) returns (thrown: Option<Error>)
    modifies prisma`attempts
    ensures Settles(old(prisma.Committed()), prisma.Committed(),
                    Attempts.CompleteOwned(old(prisma.Committed()), now, g, id, token), thrown)
  {
    if !Attempts.Owned(prisma.generations, now, g, token) { return Some(ClaimLost); }
    thrown := Complete(prisma, now, id, token);
  }

  method Fail(prisma: Prisma, id: AttemptId, token: Token)
    modifies prisma`attempts
    ensures prisma.Committed() == Attempts.FailAttempt(old(prisma.Committed()), id, token)
  {
    if id in prisma.attempts {
      var attempt := prisma.attempts[id];
      if attempt.token == token && attempt.status.STARTED? {
        prisma.attempts := prisma.attempts[id := attempt.(status := ABORTED)];
      }
    }
  }
}
