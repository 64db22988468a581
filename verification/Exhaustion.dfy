/** When a generation can no longer be published: its calls are spent, and no run
    brings them back. */
module Exhaustion {
  import opened Rows
  import opened Protocol
  import opened Runs
  import opened Calls
  import opened Completion
  import Attempts
  import Assets
  import Credits
  import Generations
  import Steps
  import Permanence
  import Processing

  // ----- calls that are closed stay closed -----

  /** A call that was completed or closed, as long as its row is there, stays what it is. */
  predicate ClosedStay(attempts: map<AttemptId, Attempt>, after: map<AttemptId, Attempt>) {
    forall i | i in attempts && i in after && !attempts[i].status.STARTED? :: after[i] == attempts[i]
  }

  lemma StartCallKeepsClosed(cfg: Config, s: Sys, t: Token, id: AttemptId, audio: AssetId)
    requires t in s.workers
    ensures ClosedStay(s.db.attempts, StartCallStep(cfg, s, t, id, audio).db.attempts)
  {
  }

  lemma CompletionKeepsClosed(cfg: Config, db: Db, now: Time, g: GenerationId, t: Token, id: AttemptId, content: Content)
    ensures var completed := Attempts.CompleteOwned(db, now, g, id, t); completed.Ok? ==> ClosedStay(db.attempts, completed.value.attempts)
    ensures var stored := Processing.PersistResult(cfg, db, now, g, t, id, content); stored.Ok? ==> ClosedStay(db.attempts, stored.value.attempts)
  {
  }

  lemma FinishCallKeepsClosed(cfg: Config, s: Sys, t: Token, content: Content)
    requires t in s.workers
    ensures ClosedStay(s.db.attempts, FinishCallStep(cfg, s, t, content).db.attempts)
  {
    var w := s.workers[t];
    match w.pc
    case CallingTranscriber(id) => CompletionKeepsClosed(cfg, s.db, s.clock, w.generation, t, id, content);
    case CallingModerator(id) => CompletionKeepsClosed(cfg, s.db, s.clock, w.generation, t, id, content);
    case CallingReporter(id) => CompletionKeepsClosed(cfg, s.db, s.clock, w.generation, t, id, content);
    case _ =>
  }

  lemma AbandonKeepsClosed(s: Sys, t: Token)
    requires t in s.workers
    ensures ClosedStay(s.db.attempts, AbandonStep(s, t).db.attempts)
  {
  }

  lemma PublicationLeavesAttempts(s: Sys, t: Token)
    requires t in s.workers
    ensures PublishStep(s, t).db.attempts == s.db.attempts
  {
  }

  lemma RecoveryLeavesAttempts(cfg: Config, s: Sys, t: Token, retry: bool)
    requires t in s.workers
    ensures RecoverStep(cfg, s, t, retry).db.attempts == s.db.attempts
  {
  }

  lemma OtherStepsLeaveAttempts(cfg: Config, s: Sys, t: Token, step: WorkerStep)
    requires t in s.workers && !step.StartCall? && !step.FinishCall? && !step.Abandon? && !step.Publish? && !step.Recover?
    ensures WorkerNext(cfg, s, t, step).db.attempts == s.db.attempts
  {
  }

  lemma WorkerKeepsClosed(cfg: Config, s: Sys, t: Token, step: WorkerStep)
    requires t in s.workers
    ensures ClosedStay(s.db.attempts, WorkerNext(cfg, s, t, step).db.attempts)
  {
    match step
    case StartCall(id, audio) => StartCallKeepsClosed(cfg, s, t, id, audio);
    case FinishCall(content) => FinishCallKeepsClosed(cfg, s, t, content);
    case Abandon => AbandonKeepsClosed(s, t);
    case Publish => PublicationLeavesAttempts(s, t);
    case Recover(retry) => RecoveryLeavesAttempts(cfg, s, t, retry);
    case _ => OtherStepsLeaveAttempts(cfg, s, t, step);
  }

  lemma DeletionKeepsClosed(db: Db, user: UserId, r: ReportId)
    ensures var deleted := Assets.DeleteReport(db, user, r); deleted.Ok? ==> ClosedStay(db.attempts, deleted.value.attempts)
  {
  }

  lemma CompensationKeepsClosed(s: Sys, g: GenerationId)
    ensures ClosedStay(s.db.attempts, CompensateNext(s, g).db.attempts)
  {
  }

  lemma CancellationLeavesAttempts(db: Db, user: UserId, r: ReportId, g: GenerationId)
    ensures var cancelled := Generations.Cancel(db, user, r, g); cancelled.Ok? ==> cancelled.value.attempts == db.attempts
  {
  }

  lemma DeliveryLeavesAttempts(cfg: Config, s: Sys, t: Token, g: GenerationId, lag: nat)
    ensures DeliverNext(cfg, s, t, g, lag).db.attempts == s.db.attempts
  {
  }

  lemma GenerationStepKeepsClosed(cfg: Config, s: Sys, a: Action)
    requires OnGeneration(a)
    ensures ClosedStay(s.db.attempts, Next(cfg, s, a).db.attempts)
  {
    match a
    case DeleteReport(user, r) => DeletionKeepsClosed(s.db, user, r);
    case Compensate(g) => CompensationKeepsClosed(s, g);
    case CancelGeneration(user, r, g) => CancellationLeavesAttempts(s.db, user, r, g);
    case StartGeneration(user, r, key, g, emailVerified) => StartLeavesAttempts(cfg, s, user, r, key, g, emailVerified);
    case Deliver(t, g, lag) => DeliveryLeavesAttempts(cfg, s, t, g, lag);
    case MarkEnqueued(g) =>
  }

  lemma UploadKeepsClosed(cfg: Config, s: Sys, a: UploadAction)
    ensures ClosedStay(s.db.attempts, UploadNext(cfg, s, a).db.attempts)
  {
    match a
    case RequestUpload(_, _, _, _, _) =>
    case WithdrawUpload(_) =>
    case ConfirmUpload(_, _, _, _) =>
    case FinishRejection(_) =>
    case DeleteAsset(_, _, _) =>
  }

  lemma ReportsLeaveAttempts(s: Sys, a: ReportAction)
    ensures ReportNext(s, a).db.attempts == s.db.attempts
  {
    match a
    case CreateReport(_, _, _, _) =>
    case UpdateReport(_, _, _, _) =>
    case ReadSource(_, _, _) =>
    case DuplicateReport(_, _, _) =>
  }

  lemma StorageLeavesAttempts(s: Sys, a: StorageAction)
    ensures StorageNext(s, a).db.attempts == s.db.attempts
  {
  }

  lemma AddingLeavesAttempts(db: Db, id: GrantId, grant: Grant, key: LedgerKey)
    ensures var added := Credits.AddGrant(db, id, grant, key); added.Ok? ==> added.value.attempts == db.attempts
  {
  }

  lemma AllocationLeavesAttempts(db: Db, id: GrantId, user: UserId, period: string, total: int, validFrom: Instant, expiresAt: Instant, now: Instant)
    ensures var granted := Credits.AllocateMonthly(db, id, user, period, total, validFrom, expiresAt, now);
            granted.Ok? ==> granted.value.attempts == db.attempts
  {
    if total > 0 {
      var grant := Grant(user, SubscriptionMonthly, total, total, validFrom, Some(expiresAt), now, Some(period));
      AddingLeavesAttempts(db, id, grant, PeriodKey(user, period));
    }
  }

  lemma CreditsLeaveAttempts(s: Sys, a: CreditAction)
    ensures CreditNext(s, a).db.attempts == s.db.attempts
  {
    match a
    case AllocateMonthly(id, user, period, total, validFrom, expiresAt, now) =>
      AllocationLeavesAttempts(s.db, id, user, period, total, validFrom, expiresAt, now);
    case GrantByAdmin(_, _, _, _, _) =>
  }

  lemma OtherContentLeavesAttempts(cfg: Config, s: Sys, a: Action)
    requires Steps.OnContent(a) && !a.OnUpload?
    ensures Next(cfg, s, a).db.attempts == s.db.attempts
  {
    match a
    case OnReport(report) => ReportsLeaveAttempts(s, report);
    case OnStorage(storage) => StorageLeavesAttempts(s, storage);
    case OnCredits(credits) => CreditsLeaveAttempts(s, credits);
    case Tick(_) =>
  }

  lemma StepKeepsClosed(cfg: Config, s: Sys, a: Action)
    ensures ClosedStay(s.db.attempts, Next(cfg, s, a).db.attempts)
  {
    if a.WorkerActs? {
      if a.token in s.workers { WorkerKeepsClosed(cfg, s, a.token, a.step); }
    } else if a.OnUpload? {
      UploadKeepsClosed(cfg, s, a.upload);
    } else if Steps.OnContent(a) {
      OtherContentLeavesAttempts(cfg, s, a);
    } else {
      GenerationStepKeepsClosed(cfg, s, a);
    }
  }

  // ----- spent calls -----

  /** As many calls as allowed were made, and each was closed without an answer. */
  ghost predicate Spent(cfg: Config, attempts: map<AttemptId, Attempt>, g: GenerationId, operation: Operation) {
    && !BudgetLeft(cfg, attempts, g, operation)
    && forall i | i in CallsOf(attempts, g, operation) :: attempts[i].status.ABORTED?
  }

  lemma SpentStays(cfg: Config, s: Sys, after: Sys, g: GenerationId, operation: Operation)
    requires Spent(cfg, s.db.attempts, g, operation) && g in after.db.generations
    requires Steps.AttemptsKept(s, after) && ClosedStay(s.db.attempts, after.db.attempts)
    requires |CallsOf(after.db.attempts, g, operation)| <= cfg.MaximumCalls(operation)
    ensures Spent(cfg, after.db.attempts, g, operation)
  {
    var before, now := CallsOf(s.db.attempts, g, operation), CallsOf(after.db.attempts, g, operation);
    assert before <= now;
    assert now == before + (now - before);
    assert now - before == {};
  }

  lemma {:induction false} SpentIsFinal(cfg: Config, run: seq<Action>, rest: seq<Action>, g: GenerationId, operation: Operation)
    requires g in Reached(cfg, run).db.generations && Spent(cfg, Reached(cfg, run).db.attempts, g, operation)
    requires g in Reached(cfg, run + rest).db.generations
    ensures Spent(cfg, Reached(cfg, run + rest).db.attempts, g, operation)
  {
    if rest == [] {
      assert run + rest == run;
    } else {
      var n := |rest| - 1;
      var before := run + rest[..n];
      assert run + rest == before + [rest[n]];
      Permanence.RowWasThere(cfg, run, rest, g);
      SpentIsFinal(cfg, run, rest[..n], g, operation);
      RunStep(cfg, before, rest[n]);
      StepKeepsClosed(cfg, Reached(cfg, before), rest[n]);
      CallsStayWithinBudget(cfg, run + rest, g, operation, None, 0);
      CallsAreScope(Reached(cfg, run + rest).db.attempts, g, operation);
      SpentStays(cfg, Reached(cfg, before), Reached(cfg, run + rest), g, operation);
    }
  }

  lemma FinishedIsPaid(cfg: Config, run: seq<Action>, g: GenerationId, r: ReportId)
    requires Finished(Reached(cfg, run), g, r)
    ensures var attempts := Reached(cfg, run).db.attempts;
            Attempts.HasCompleted(attempts, g, MODERATION) && Attempts.HasCompleted(attempts, g, REPORT_GENERATION)
  {
    PaidWorkIsDoneOnce(cfg, run, g);
  }

  lemma SpentIsNotCompleted(cfg: Config, attempts: map<AttemptId, Attempt>, g: GenerationId, operation: Operation)
    requires Spent(cfg, attempts, g, operation)
    ensures !Attempts.HasCompleted(attempts, g, operation)
  {
    forall i | i in attempts ensures !Attempts.Completes(attempts[i], g, operation) {
      assert Attempts.Completes(attempts[i], g, operation) ==> i in CallsOf(attempts, g, operation);
    }
  }

  /** A generation whose moderation or report calls are spent is never published. */
  lemma SpentIsNeverPublished(cfg: Config, run: seq<Action>, next: seq<Action>, g: GenerationId, r: ReportId, operation: Operation)
    requires g in Reached(cfg, run).db.generations && operation != TRANSCRIPTION && Spent(cfg, Reached(cfg, run).db.attempts, g, operation)
    requires run <= next
    ensures !Finished(Reached(cfg, next), g, r)
  {
    if Finished(Reached(cfg, next), g, r) {
      assert next == run + next[|run|..];
      SpentIsFinal(cfg, run, next[|run|..], g, operation);
      SpentIsNotCompleted(cfg, Reached(cfg, next).db.attempts, g, operation);
      FinishedIsPaid(cfg, next, g, r);
      assert false;
    }
  }

  /** No moderation or report call of the generation is under way. */
  predicate Idle(attempts: map<AttemptId, Attempt>, g: GenerationId) {
    forall i | i in attempts && attempts[i].generation == g && attempts[i].asset.None? :: !attempts[i].status.STARTED?
  }

  lemma UnaffordableIsSpent(cfg: Config, run: seq<Action>, g: GenerationId)
    requires g in Reached(cfg, run).db.generations && Idle(Reached(cfg, run).db.attempts, g) && !Affordable(cfg, Reached(cfg, run).db, g)
    ensures var attempts := Reached(cfg, run).db.attempts; Spent(cfg, attempts, g, MODERATION) || Spent(cfg, attempts, g, REPORT_GENERATION)
  {
    var attempts := Reached(cfg, run).db.attempts;
    PaidWorkIsDoneOnce(cfg, run, g);
    if !Attempts.HasCompleted(attempts, g, MODERATION) && !BudgetLeft(cfg, attempts, g, MODERATION) {
      IncompleteIsClosed(attempts, g, MODERATION);
    } else {
      assert !Attempts.HasCompleted(attempts, g, REPORT_GENERATION);
      IncompleteIsClosed(attempts, g, REPORT_GENERATION);
    }
  }

  lemma IncompleteIsClosed(attempts: map<AttemptId, Attempt>, g: GenerationId, operation: Operation)
    requires Idle(attempts, g) && !Attempts.HasCompleted(attempts, g, operation)
    ensures forall i | i in CallsOf(attempts, g, operation) :: attempts[i].status.ABORTED?
  {
    forall i | i in CallsOf(attempts, g, operation) ensures attempts[i].status.ABORTED? {
      assert !Attempts.Completes(attempts[i], g, operation);
    }
  }

  /** In every reachable state in which no such call of a queued or held generation is under way, some run publishes it
      exactly if of moderation and report each is done or may still be called. */
  lemma PublishableIff(cfg: Config, run: seq<Action>, g: GenerationId)
    requires g in Reached(cfg, run).db.generations && Generations.Active(Reached(cfg, run).db.generations[g])
    requires Idle(Reached(cfg, run).db.attempts, g)
    ensures (exists next, r :: run <= next && Finished(Reached(cfg, next), g, r)) <==> Affordable(cfg, Reached(cfg, run).db, g)
  {
    if Affordable(cfg, Reached(cfg, run).db, g) {
      var next, t := ActiveCanBePublished(cfg, run, g);
      assert run <= next && Finished(Reached(cfg, next), g, Reached(cfg, run).db.generations[g].report);
    } else {
      UnaffordableIsSpent(cfg, run, g);
      forall next, r | run <= next ensures !Finished(Reached(cfg, next), g, r) {
        if Spent(cfg, Reached(cfg, run).db.attempts, g, MODERATION) {
          SpentIsNeverPublished(cfg, run, next, g, r, MODERATION);
        } else {
          SpentIsNeverPublished(cfg, run, next, g, r, REPORT_GENERATION);
        }
      }
    }
  }
}
