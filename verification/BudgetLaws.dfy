/** The provider budget: what the attempt rows of a scope always look like. */
module BudgetLaws {
  import opened Rows
  import opened Attempts
  import opened WorkLaws

  predicate SameScope(left: Attempt, right: Attempt) {
    InScope(left, right.generation, right.operation, right.asset)
  }

  ghost predicate WithinBudget(cfg: Config, attempts: map<AttemptId, Attempt>) {
    forall g, operation, asset :: |Scope(attempts, g, operation, asset)| <= cfg.MaximumCalls(operation)
  }

  ghost predicate OneStarted(attempts: map<AttemptId, Attempt>) {
    forall i, j | i in attempts && j in attempts && attempts[i].status.STARTED? && attempts[j].status.STARTED?
                  && SameScope(attempts[i], attempts[j]) :: i == j
  }

  function Numbers(attempts: map<AttemptId, Attempt>, g: GenerationId, operation: Operation): set<nat> {
    set id | id in Scope(attempts, g, operation, None) :: attempts[id].number
  }

  /** 1, 2, ..., n */
  function UpTo(n: nat): (numbers: set<nat>)
    ensures forall i: nat :: i in numbers <==> 1 <= i <= n
  {
    if n == 0 then {} else UpTo(n - 1) + {n}
  }

  ghost predicate Numbered(attempts: map<AttemptId, Attempt>) {
    forall g, operation :: Numbers(attempts, g, operation) == UpTo(|Scope(attempts, g, operation, None)|)
  }

  /** Never more attempts than the maximum, never two started ones in a scope, and numbers 1 to n per
      generation and operation. */
  ghost predicate Budgeted(cfg: Config, attempts: map<AttemptId, Attempt>) {
    WithinBudget(cfg, attempts) && OneStarted(attempts) && Numbered(attempts)
  }

  // ----- rows that change status or go -----

  predicate StatusOnly(before: Attempt, after: Attempt) {
    && after == before.(status := after.status)
    && (after.status.STARTED? ==> before.status.STARTED?)
  }

  lemma StatusKeepsBudget(cfg: Config, attempts: map<AttemptId, Attempt>, attempts': map<AttemptId, Attempt>)
    requires Budgeted(cfg, attempts) && attempts'.Keys == attempts.Keys
    requires forall id | id in attempts :: StatusOnly(attempts[id], attempts'[id])
    ensures Budgeted(cfg, attempts')
  {
    forall g, operation, asset ensures Scope(attempts', g, operation, asset) == Scope(attempts, g, operation, asset) {
      assert forall id | id in attempts :: InScope(attempts'[id], g, operation, asset) == InScope(attempts[id], g, operation, asset);
    }
    forall g, operation ensures Numbers(attempts', g, operation) == Numbers(attempts, g, operation) {
      assert Scope(attempts', g, operation, None) == Scope(attempts, g, operation, None);
    }
    forall i, j | i in attempts' && j in attempts' && attempts'[i].status.STARTED? && attempts'[j].status.STARTED?
                  && SameScope(attempts'[i], attempts'[j]) ensures i == j
    {
      assert StatusOnly(attempts[i], attempts'[i]) && StatusOnly(attempts[j], attempts'[j]);
      assert SameScope(attempts[i], attempts[j]);
    }
  }

  /** Fading rows: the scope of a generation that stays is untouched, that of one that goes is emptied. */
  lemma FadingKeepsBudget(cfg: Config, db: Db, after: Db)
    requires Budgeted(cfg, db.attempts) && Fades(db, after)
    ensures Budgeted(cfg, after.attempts)
  {
    forall g, operation, asset ensures Scope(after.attempts, g, operation, asset) <= Scope(db.attempts, g, operation, asset) {
      assert forall id | id in after.attempts :: AttemptFades(db.attempts, after.attempts[id], id);
    }
    forall g, operation, asset ensures |Scope(after.attempts, g, operation, asset)| <= cfg.MaximumCalls(operation) {
      SubsetSize(Scope(after.attempts, g, operation, asset), Scope(db.attempts, g, operation, asset));
    }
    forall g, operation ensures Numbers(after.attempts, g, operation) == UpTo(|Scope(after.attempts, g, operation, None)|) {
      FadingKeepsNumbers(db, after, g, operation);
    }
    forall i, j | i in after.attempts && j in after.attempts && after.attempts[i].status.STARTED? && after.attempts[j].status.STARTED?
                  && SameScope(after.attempts[i], after.attempts[j]) ensures i == j
    {
      assert AttemptFades(db.attempts, after.attempts[i], i) && AttemptFades(db.attempts, after.attempts[j], j);
      assert SameScope(db.attempts[i], db.attempts[j]);
    }
  }

  lemma FadingKeepsNumbers(db: Db, after: Db, g: GenerationId, operation: Operation)
    requires Numbered(db.attempts) && Fades(db, after)
    ensures Numbers(after.attempts, g, operation) == UpTo(|Scope(after.attempts, g, operation, None)|)
  {
    if g in after.generations {
      FadingKeepsScope(db, after, g, operation);
    } else {
      assert Scope(after.attempts, g, operation, None) == {};
    }
  }

  /** The attempts of a generation that stays, which are not about an asset, all stay. */
  lemma FadingKeepsScope(db: Db, after: Db, g: GenerationId, operation: Operation)
    requires Fades(db, after) && g in after.generations
    ensures Scope(after.attempts, g, operation, None) == Scope(db.attempts, g, operation, None)
    ensures Numbers(after.attempts, g, operation) == Numbers(db.attempts, g, operation)
  {
    var before := Scope(db.attempts, g, operation, None);
    var now := Scope(after.attempts, g, operation, None);
    assert forall id | id in after.attempts :: AttemptFades(db.attempts, after.attempts[id], id);
    forall id ensures id in before <==> id in now {
      if id in before { assert id in after.attempts; }
    }
    assert now == before;
  }

  // ----- one more attempt -----

  lemma ScopeGrows(attempts: map<AttemptId, Attempt>, id: AttemptId, attempt: Attempt, g: GenerationId, operation: Operation, asset: Option<AssetId>)
    requires id !in attempts
    ensures Scope(attempts[id := attempt], g, operation, asset)
            == Scope(attempts, g, operation, asset) + (if InScope(attempt, g, operation, asset) then {id} else {})
    ensures id !in Scope(attempts, g, operation, asset)
  {
  }

  ghost predicate Authorised(cfg: Config, attempts: map<AttemptId, Attempt>, attempt: Attempt) {
    var scope := Scope(attempts, attempt.generation, attempt.operation, attempt.asset);
    && (attempt.asset.Some? <==> attempt.operation.TRANSCRIPTION?)
    && (forall i | i in attempts :: attempts[i].asset.Some? <==> attempts[i].operation.TRANSCRIPTION?)
    && |scope| < cfg.MaximumCalls(attempt.operation) && attempt.number == |scope| + 1
    && forall i | i in scope :: !attempts[i].status.STARTED?
  }

  lemma AnotherAttemptKeepsBudget(cfg: Config, attempts: map<AttemptId, Attempt>, id: AttemptId, attempt: Attempt)
    requires Budgeted(cfg, attempts) && id !in attempts && Authorised(cfg, attempts, attempt)
    ensures Budgeted(cfg, attempts[id := attempt])
  {
    AnotherAttemptIsWithin(cfg, attempts, id, attempt);
    AnotherAttemptIsNumbered(cfg, attempts, id, attempt);
    AnotherAttemptIsAlone(cfg, attempts, id, attempt);
  }

  lemma AnotherAttemptIsWithin(cfg: Config, attempts: map<AttemptId, Attempt>, id: AttemptId, attempt: Attempt)
    requires WithinBudget(cfg, attempts) && id !in attempts && Authorised(cfg, attempts, attempt)
    ensures WithinBudget(cfg, attempts[id := attempt])
  {
    var attempts' := attempts[id := attempt];
    forall g, operation, asset ensures |Scope(attempts', g, operation, asset)| <= cfg.MaximumCalls(operation) {
      ScopeGrows(attempts, id, attempt, g, operation, asset);
      if InScope(attempt, g, operation, asset) {
        assert Scope(attempts, g, operation, asset) == Scope(attempts, attempt.generation, attempt.operation, attempt.asset);
      }
    }
  }

  lemma AnotherAttemptIsNumbered(cfg: Config, attempts: map<AttemptId, Attempt>, id: AttemptId, attempt: Attempt)
    requires Numbered(attempts) && id !in attempts && Authorised(cfg, attempts, attempt)
    ensures Numbered(attempts[id := attempt])
  {
    var attempts' := attempts[id := attempt];
    forall g, operation ensures Numbers(attempts', g, operation) == UpTo(|Scope(attempts', g, operation, None)|) {
      assert Numbers(attempts, g, operation) == UpTo(|Scope(attempts, g, operation, None)|);
      if InScope(attempt, g, operation, None) {
        assert Scope(attempts, g, operation, None) == Scope(attempts, attempt.generation, attempt.operation, attempt.asset);
      }
      AnotherNumber(attempts, id, attempt, g, operation);
    }
  }

  lemma AnotherAttemptIsAlone(cfg: Config, attempts: map<AttemptId, Attempt>, id: AttemptId, attempt: Attempt)
    requires OneStarted(attempts) && id !in attempts && Authorised(cfg, attempts, attempt)
    ensures OneStarted(attempts[id := attempt])
  {
    forall i | i in attempts && attempts[i].status.STARTED? ensures !SameScope(attempts[i], attempt) && !SameScope(attempt, attempts[i]) {
      assert i in Scope(attempts, attempt.generation, attempt.operation, attempt.asset) <==> SameScope(attempts[i], attempt);
    }
  }

  lemma AnotherNumber(attempts: map<AttemptId, Attempt>, id: AttemptId, attempt: Attempt, g: GenerationId, operation: Operation)
    requires Numbers(attempts, g, operation) == UpTo(|Scope(attempts, g, operation, None)|) && id !in attempts
    requires InScope(attempt, g, operation, None) ==> attempt.number == |Scope(attempts, g, operation, None)| + 1
    ensures Numbers(attempts[id := attempt], g, operation) == UpTo(|Scope(attempts[id := attempt], g, operation, None)|)
  {
    var n := |Scope(attempts, g, operation, None)|;
    ScopeGrows(attempts, id, attempt, g, operation, None);
    NumbersGrow(attempts, id, attempt, g, operation);
    if InScope(attempt, g, operation, None) {
      assert |Scope(attempts[id := attempt], g, operation, None)| == n + 1;
      assert UpTo(n + 1) == UpTo(n) + {n + 1};
    }
  }

  lemma NumbersGrow(attempts: map<AttemptId, Attempt>, id: AttemptId, attempt: Attempt, g: GenerationId, operation: Operation)
    requires id !in attempts
    ensures Numbers(attempts[id := attempt], g, operation)
            == Numbers(attempts, g, operation) + (if InScope(attempt, g, operation, None) then {attempt.number} else {})
  {
    var attempts' := attempts[id := attempt];
    ScopeGrows(attempts, id, attempt, g, operation, None);
    forall n ensures n in Numbers(attempts', g, operation) <==>
                     n in Numbers(attempts, g, operation) + (if InScope(attempt, g, operation, None) then {attempt.number} else {})
    {
      if n in Numbers(attempts, g, operation) {
        var i :| i in Scope(attempts, g, operation, None) && attempts[i].number == n;
        assert i in Scope(attempts', g, operation, None) && attempts'[i].number == n;
      }
    }
  }

  /** Authorising a call keeps the budget whatever is stale, in progress or spent. */
  lemma StartKeepsBudget(cfg: Config, db: Db, now: Time, id: AttemptId, g: GenerationId, operation: Operation, asset: Option<AssetId>,
                         token: Token, lease: Time)
    requires Budgeted(cfg, db.attempts) && (asset.Some? <==> operation.TRANSCRIPTION?)
    requires forall i | i in db.attempts :: db.attempts[i].asset.Some? <==> db.attempts[i].operation.TRANSCRIPTION?
    requires StartAttempt(cfg, db, now, id, g, operation, asset, token, lease).Ok?
    ensures Budgeted(cfg, StartAttempt(cfg, db, now, id, g, operation, asset, token, lease).value.attempts)
  {
    var closed := CloseStale(db.attempts, g, operation, asset, now);
    StatusKeepsBudget(cfg, db.attempts, closed);
    var scope := Scope(db.attempts, g, operation, asset);
    assert forall i | i in db.attempts :: InScope(closed[i], g, operation, asset) == InScope(db.attempts[i], g, operation, asset);
    assert Scope(closed, g, operation, asset) == scope;
    var attempt := Attempt(g, asset, operation, |scope| + 1, STARTED, token, lease);
    forall i | i in scope ensures !closed[i].status.STARTED? {
      assert db.attempts[i].status.STARTED? ==> Stale(db.attempts[i], now);
    }
    assert Authorised(cfg, closed, attempt);
    AnotherAttemptKeepsBudget(cfg, closed, id, attempt);
  }
}
