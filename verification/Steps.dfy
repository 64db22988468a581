/** What one action may do to the rows of others: the facts about single steps
    from which the properties of whole runs follow. */
module Steps {
  import opened Rows
  import opened Protocol
  import opened LockstepLaws
  import opened WorkLaws
  import Attempts
  import Processing
  import Generations
  import Assets
  import Credits
  import Lifecycle
  import PublicationLaws
  import StartLaws
  import RunLaws
  import BudgetLaws

  // ----- the facts -----

  /** Whoever owns a generation after a step owned it before, unless it has only just come. */
  ghost predicate NoOwnershipRegained(s: Sys, after: Sys) {
    && s.clock <= after.clock
    && (forall t | t in s.workers :: t in after.workers && after.workers[t].generation == s.workers[t].generation)
    && forall g, t | t in s.workers && Attempts.Owned(after.db.generations, after.clock, g, t) ::
         Attempts.Owned(s.db.generations, s.clock, g, t)
  }

  /** A report row changes only under an active generation, or by its user while it is editable and then not
      in its throttle columns. */
  ghost predicate ReportMoves(s: Sys, after: Sys, r: ReportId)
    requires r in s.db.reports && r in after.db.reports
  {
    || after.db.reports[r] == s.db.reports[r]
    || (Lifecycle.Editable(s.db.reports[r].status) && after.db.reports[r].throttle == s.db.reports[r].throttle)
    || exists g :: ActiveOf(s.db.generations, r, g)
  }

  ghost predicate ReportsMove(s: Sys, after: Sys) {
    && (forall r | r in s.db.reports && r in after.db.reports :: ReportMoves(s, after, r))
    && (forall r | r in s.db.outputs && r in after.db.reports :: r in after.db.outputs && after.db.outputs[r] == s.db.outputs[r])
  }

  /** An attempt of a generation that stays, other than a transcription, is kept under its number. */
  ghost predicate AttemptsKept(s: Sys, after: Sys) {
    forall id | id in s.db.attempts && s.db.attempts[id].asset.None? && s.db.attempts[id].generation in after.db.generations ::
      id in after.db.attempts && after.db.attempts[id] == s.db.attempts[id].(status := after.db.attempts[id].status)
  }

  /** A task goes only once its object was deleted by the cleanup attempt that removes it. */
  ghost predicate TasksKept(s: Sys, after: Sys) {
    && (forall k | k in s.db.tasks && k !in after.db.tasks :: k in s.swept)
    && (forall k | k in after.swept && k !in s.swept :: k in s.sweeping && k !in after.objects && k in after.history.deletedOnce)
  }

  /** A deleted generation and a deleted report never come back. */
  ghost predicate GoneStaysGone(s: Sys, after: Sys) {
    && (forall g | g in s.history.origins :: g in after.history.origins && after.history.origins[g] == s.history.origins[g]
                                              && (g in after.db.generations ==> g in s.db.generations))
    && (forall r | r in s.history.failures :: r in after.history.failures && (r in after.db.reports ==> r in s.db.reports))
  }

  predicate FailedNow(s: Sys, after: Sys, r: ReportId, g: GenerationId) {
    ActiveOf(s.db.generations, r, g) && g in after.db.generations && after.db.generations[g].status.Failed?
  }

  /** A generation fails for good exactly when the time goes into the failure history of its report. */
  ghost predicate FailuresRecorded(s: Sys, after: Sys) {
    && (forall g | g in s.db.generations && g in after.db.generations
                   && !s.db.generations[g].status.Failed? && after.db.generations[g].status.Failed? ::
          var r := s.db.generations[g].report;
          r in s.history.failures && r in after.history.failures && after.history.failures[r] == s.history.failures[r] + [s.clock])
    && (forall r | r in s.history.failures && r in after.history.failures && after.history.failures[r] != s.history.failures[r] ::
          exists g :: FailedNow(s, after, r, g))
  }

  /** All of them at once. */
  ghost predicate Orderly(s: Sys, after: Sys) {
    && NoOwnershipRegained(s, after) && ReportsMove(s, after) && AttemptsKept(s, after) && TasksKept(s, after)
    && GoneStaysGone(s, after) && FailuresRecorded(s, after)
  }

  // ----- actions that leave generations alone -----

  /** Reports come only under fresh ids, and change only while editable and not in their throttle columns. */
  ghost predicate ContentFrame(s: Sys, after: Sys) {
    && after.db == s.db.(reports := after.db.reports, assets := after.db.assets, attempts := after.db.attempts,
                         grants := after.db.grants, ledger := after.db.ledger, tasks := after.db.tasks)
    && after.workers == s.workers && s.clock <= after.clock
    && after.history == s.history.(failures := after.history.failures, owed := after.history.owed, deletedOnce := after.history.deletedOnce)
    && (forall r | r in s.db.reports && r in after.db.reports :: ReportMoves(s, after, r))
    && AttemptsKept(s, after) && TasksKept(s, after)
    && (forall r | r in s.history.failures :: r in after.history.failures && after.history.failures[r] == s.history.failures[r]
                                               && (r in after.db.reports ==> r in s.db.reports))
  }

  lemma ContentIsOrderly(s: Sys, after: Sys)
    requires ContentFrame(s, after)
    ensures Orderly(s, after)
  {
  }

  lemma NewUploadFrame(cfg: Config, s: Sys, a: UploadAction)
    requires a.RequestUpload? || a.WithdrawUpload?
    ensures ContentFrame(s, UploadNext(cfg, s, a))
  {
  }

  lemma UploadFrame(cfg: Config, s: Sys, a: UploadAction)
    ensures ContentFrame(s, UploadNext(cfg, s, a))
  {
    if a.RequestUpload? || a.WithdrawUpload? { NewUploadFrame(cfg, s, a); }
  }

  lemma NewReportFrame(s: Sys, a: ReportAction)
    requires !a.UpdateReport?
    ensures ContentFrame(s, ReportNext(s, a))
  {
  }

  lemma ReportFrame(s: Sys, a: ReportAction)
    ensures ContentFrame(s, ReportNext(s, a))
  {
    if !a.UpdateReport? { NewReportFrame(s, a); }
  }

  lemma EnqueueFrame(s: Sys, a: StorageAction)
    requires a.RollBackCopies? || a.EnqueueRejected? || a.StoreAssetObject?
    ensures ContentFrame(s, StorageNext(s, a))
  {
  }

  lemma StorageFrame(s: Sys, a: StorageAction)
    ensures ContentFrame(s, StorageNext(s, a))
  {
    if a.RollBackCopies? || a.EnqueueRejected? || a.StoreAssetObject? { EnqueueFrame(s, a); }
  }

  lemma AllocationFrame(s: Sys, a: CreditAction)
    requires a.AllocateMonthly?
    ensures ContentFrame(s, CreditNext(s, a))
  {
  }

  lemma CreditFrame(s: Sys, a: CreditAction)
    ensures ContentFrame(s, CreditNext(s, a))
  {
    if a.AllocateMonthly? { AllocationFrame(s, a); }
  }

  // ----- actions of users on generations, and deliveries -----

  /** No owner appears but a new worker, nothing fails, nothing comes back. */
  ghost predicate LifeFrame(s: Sys, after: Sys) {
    && after.clock == s.clock
    && (forall t | t in s.workers :: t in after.workers && after.workers[t] == s.workers[t])
    && (forall g | g in after.db.generations :: RowMoves(s, after.db.generations[g], g))
    && after.history == s.history.(origins := after.history.origins, compensated := after.history.compensated)
    && (forall g | g in s.history.origins :: g in after.history.origins && after.history.origins[g] == s.history.origins[g]
                                              && (g in after.db.generations ==> g in s.db.generations))
    && after.db.reports.Keys <= s.db.reports.Keys
    && AttemptsKept(s, after) && s.db.tasks <= after.db.tasks && after.swept == s.swept
  }

  predicate RowMoves(s: Sys, row: Generation, g: GenerationId) {
    || (g in s.db.generations && row == s.db.generations[g])
    || ((row.token.None? || row.token.value !in s.workers || !row.status.Processing?) && !row.status.Failed?)
  }

  lemma LifeIsOrderly(s: Sys, after: Sys)
    requires LifeFrame(s, after) && ReportsMove(s, after)
    ensures Orderly(s, after)
  {
    forall g, t | t in s.workers && Attempts.Owned(after.db.generations, after.clock, g, t)
      ensures Attempts.Owned(s.db.generations, s.clock, g, t)
    {
      assert RowMoves(s, after.db.generations[g], g);
    }
    forall g | g in s.db.generations && g in after.db.generations && after.db.generations[g].status.Failed?
      ensures s.db.generations[g].status.Failed?
    {
      assert RowMoves(s, after.db.generations[g], g);
    }
  }

  lemma OneReportMoves(s: Sys, after: Sys, r: ReportId, g: GenerationId)
    requires ActiveOf(s.db.generations, r, g)
    requires r in after.db.reports && after.db.reports == s.db.reports[r := after.db.reports[r]]
    requires after.db.outputs == s.db.outputs
             || (r !in s.db.outputs && r in after.db.outputs && after.db.outputs == s.db.outputs[r := after.db.outputs[r]])
    ensures ReportsMove(s, after)
  {
    forall q | q in s.db.reports && q in after.db.reports ensures ReportMoves(s, after, q) {}
  }

  /** One queued row more under a fresh id, or nothing. */
  ghost predicate Starts(s: Sys, after: Sys, g: GenerationId) {
    && after == s.(db := s.db.(generations := after.db.generations, reports := after.db.reports, grants := after.db.grants,
                               ledger := after.db.ledger),
                   history := s.history.(origins := after.history.origins))
    && after.db.reports.Keys == s.db.reports.Keys
    && (after == s
        || (g !in s.history.origins && g in after.db.generations && after.db.generations == s.db.generations[g := after.db.generations[g]]
            && after.db.generations[g].token.None? && after.db.generations[g].status.Queued?
            && g in after.history.origins && after.history.origins == s.history.origins[g := after.history.origins[g]]))
  }

  lemma StartStarts(cfg: Config, s: Sys, user: UserId, r: ReportId, key: string, g: GenerationId, emailVerified: bool)
    ensures Starts(s, StartNext(cfg, s, user, r, key, g, emailVerified), g)
  {
  }

  lemma StartingLives(s: Sys, after: Sys, g: GenerationId)
    requires Starts(s, after, g)
    ensures LifeFrame(s, after)
  {
  }

  lemma StartFrame(cfg: Config, s: Sys, user: UserId, r: ReportId, key: string, g: GenerationId, emailVerified: bool)
    ensures LifeFrame(s, StartNext(cfg, s, user, r, key, g, emailVerified))
  {
    StartStarts(cfg, s, user, r, key, g, emailVerified);
    StartingLives(s, StartNext(cfg, s, user, r, key, g, emailVerified), g);
  }

  lemma StartMovesReport(cfg: Config, s: Sys, user: UserId, r: ReportId, key: string, g: GenerationId, emailVerified: bool)
    ensures ReportsMove(s, StartNext(cfg, s, user, r, key, g, emailVerified))
  {
  }

  lemma MarkFrame(s: Sys, g: GenerationId)
    requires Lockstep(s.db.reports, s.db.outputs, s.db.generations)
    ensures LifeFrame(s, s.(db := Generations.MarkEnqueued(s.db, g)))
    ensures ReportsMove(s, s.(db := Generations.MarkEnqueued(s.db, g)))
  {
    assert g in s.db.generations ==> GenerationFits(s.db.reports, s.db.outputs, s.db.generations, g);
  }

  lemma CancelFrame(s: Sys, user: UserId, r: ReportId, g: GenerationId)
    ensures LifeFrame(s, Commit(s, Generations.Cancel(s.db, user, r, g)))
    ensures ReportsMove(s, Commit(s, Generations.Cancel(s.db, user, r, g)))
  {
    var after := Commit(s, Generations.Cancel(s.db, user, r, g));
    if after.db != s.db { OneReportMoves(s, after, r, g); }
  }

  lemma CompensationMovesReport(s: Sys, g: GenerationId)
    requires Lockstep(s.db.reports, s.db.outputs, s.db.generations)
    ensures ReportsMove(s, CompensateNext(s, g))
  {
    var after := CompensateNext(s, g);
    if after.db != s.db {
      StartLaws.CompensationRows(s.db, g);
      OneReportMoves(s, after, s.db.generations[g].report, g);
    }
  }

  lemma CompensationLives(s: Sys, g: GenerationId)
    ensures LifeFrame(s, CompensateNext(s, g))
  {
  }

  lemma CompensateFrame(s: Sys, g: GenerationId)
    requires Lockstep(s.db.reports, s.db.outputs, s.db.generations)
    ensures LifeFrame(s, CompensateNext(s, g)) && ReportsMove(s, CompensateNext(s, g))
  {
    CompensationLives(s, g);
    CompensationMovesReport(s, g);
  }

  lemma DeliveryClaims(cfg: Config, s: Sys, t: Token, g: GenerationId, lag: nat)
    ensures LifeFrame(s, DeliverNext(cfg, s, t, g, lag))
  {
  }

  lemma DeliveryMovesReport(cfg: Config, s: Sys, t: Token, g: GenerationId, lag: nat)
    requires Lockstep(s.db.reports, s.db.outputs, s.db.generations)
    ensures ReportsMove(s, DeliverNext(cfg, s, t, g, lag))
  {
    var after := DeliverNext(cfg, s, t, g, lag);
    if after.db != s.db {
      ActiveHasReport(s.db, g);
      OneReportMoves(s, after, s.db.generations[g].report, g);
    }
  }

  lemma ActiveHasReport(db: Db, g: GenerationId)
    requires Lockstep(db.reports, db.outputs, db.generations) && g in db.generations
    ensures db.generations[g].report in db.reports
  {
    assert GenerationFits(db.reports, db.outputs, db.generations, g);
  }

  lemma DeliverFrame(cfg: Config, s: Sys, t: Token, g: GenerationId, lag: nat)
    requires Lockstep(s.db.reports, s.db.outputs, s.db.generations)
    ensures LifeFrame(s, DeliverNext(cfg, s, t, g, lag)) && ReportsMove(s, DeliverNext(cfg, s, t, g, lag))
  {
    DeliveryClaims(cfg, s, t, g, lag);
    DeliveryMovesReport(cfg, s, t, g, lag);
  }

  lemma DeleteReportFrame(s: Sys, user: UserId, r: ReportId)
    requires Lockstep(s.db.reports, s.db.outputs, s.db.generations)
    ensures LifeFrame(s, Commit(s, Assets.DeleteReport(s.db, user, r)))
    ensures ReportsMove(s, Commit(s, Assets.DeleteReport(s.db, user, r)))
  {
    if Assets.DeleteReport(s.db, user, r).Ok? { DeletionKeepsLockstep(s.db, user, r); }
  }

  // ----- workers -----

  /** The one generation whose row a worker's step may change, and only as its owner. */
  ghost predicate RenewedOrEnded(s: Sys, after: Sys, t: Token)
    requires t in s.workers
  {
    var g := s.workers[t].generation;
    && after.clock == s.clock
    && t in after.workers && after.workers == s.workers[t := after.workers[t]] && after.workers[t].generation == g
    && (after.db.generations == s.db.generations
        || (Attempts.Owned(s.db.generations, s.clock, g, t) && g in after.db.generations
            && after.db.generations == s.db.generations[g := after.db.generations[g]]
            && (after.db.generations[g].token == Some(t) || after.db.generations[g].token.None?)))
  }

  /** A step that neither publishes nor recovers: no report, no output and no credit moves. */
  ghost predicate Gentle(s: Sys, after: Sys, t: Token)
    requires t in s.workers
  {
    && RenewedOrEnded(s, after, t)
    && after.db == s.db.(generations := after.db.generations, attempts := after.db.attempts, tasks := after.db.tasks)
    && (forall g | g in after.db.generations && after.db.generations[g].status.Failed? :: g in s.db.generations && s.db.generations[g].status.Failed?)
    && AttemptsKept(s, after) && s.db.tasks <= after.db.tasks && after.swept == s.swept && after.history == s.history
  }

  lemma GentleIsOrderly(s: Sys, after: Sys, t: Token)
    requires t in s.workers && Gentle(s, after, t)
    ensures Orderly(s, after)
  {
  }

  lemma HeartbeatIsGentle(cfg: Config, s: Sys, t: Token)
    requires t in s.workers
    ensures Gentle(s, HeartbeatStep(cfg, s, t), t)
  {
  }

  lemma ProgressIsGentle(cfg: Config, s: Sys, t: Token, advance: bool)
    requires t in s.workers
    ensures Gentle(s, ProgressStep(cfg, s, t, advance), t)
  {
  }

  lemma StartCallIsGentle(cfg: Config, s: Sys, t: Token, id: AttemptId, audio: AssetId)
    requires t in s.workers
    ensures Gentle(s, StartCallStep(cfg, s, t, id, audio), t)
  {
    StartCallKeepsAttempts(cfg, s, t, id, audio);
    if StartCallStep(cfg, s, t, id, audio) != s { RunLaws.StartCallFrame(cfg, s, t, id, audio); }
  }

  lemma StartCallKeepsAttempts(cfg: Config, s: Sys, t: Token, id: AttemptId, audio: AssetId)
    requires t in s.workers
    ensures AttemptsKept(s, StartCallStep(cfg, s, t, id, audio))
  {
  }

  lemma AbandonIsGentle(s: Sys, t: Token)
    requires t in s.workers
    ensures Gentle(s, AbandonStep(s, t), t)
  {
  }

  lemma FinishCallIsGentle(cfg: Config, s: Sys, t: Token, content: Content)
    requires t in s.workers
    ensures Gentle(s, FinishCallStep(cfg, s, t, content), t)
  {
    var after := FinishCallStep(cfg, s, t, content);
    if after != s {
      RunLaws.FinishCallFrame(cfg, s, t, content);
      FinishKeepsAttempts(s, after, t);
      if s.workers[t].pc.CallingReporter? { PersistIsGentle(cfg, s, t, content, s.workers[t].pc.attempt); }
    }
  }

  lemma FinishKeepsAttempts(s: Sys, after: Sys, t: Token)
    requires t in s.workers && RunLaws.FinishFrame(s, after, t)
    ensures AttemptsKept(s, after)
  {
    forall id | id in s.db.attempts ensures after.db.attempts[id] == s.db.attempts[id].(status := after.db.attempts[id].status) {
      assert BudgetLaws.StatusOnly(s.db.attempts[id], after.db.attempts[id]);
    }
  }

  lemma PersistIsGentle(cfg: Config, s: Sys, t: Token, content: Content, id: AttemptId)
    requires t in s.workers && s.workers[t].pc == CallingReporter(id)
    ensures var after := FinishCallStep(cfg, s, t, content);
            && after.db.reports == s.db.reports && RenewedOrEnded(s, after, t)
            && forall g | g in after.db.generations && after.db.generations[g].status.Failed? ::
                 g in s.db.generations && s.db.generations[g].status.Failed?
  {
  }

  predicate Plain(step: WorkerStep) {
    || step.Crash? || step.ReadGeneration? || step.CheckCompleted? || step.CallFails? || step.Put? || step.PutFails? || step.Head?
    || step.Fail? || step.ScheduleCleanup?
  }

  lemma UploadStepIsGentle(cfg: Config, s: Sys, t: Token, step: WorkerStep)
    requires t in s.workers && (step.Put? || step.PutFails? || step.Head? || step.ScheduleCleanup?)
    ensures Gentle(s, WorkerNext(cfg, s, t, step), t)
  {
    if step.ScheduleCleanup? { CleanupIsGentle(cfg, s, t); }
  }

  lemma CleanupIsGentle(cfg: Config, s: Sys, t: Token)
    requires t in s.workers
    ensures Gentle(s, ScheduleCleanupStep(s, t), t)
  {
  }

  lemma PlainIsGentle(cfg: Config, s: Sys, t: Token, step: WorkerStep)
    requires t in s.workers && Plain(step)
    ensures Gentle(s, WorkerNext(cfg, s, t, step), t)
  {
    if step.Put? || step.PutFails? || step.Head? || step.ScheduleCleanup? { UploadStepIsGentle(cfg, s, t, step); }
  }

  lemma WorkerIsGentle(cfg: Config, s: Sys, t: Token, step: WorkerStep)
    requires t in s.workers && !step.Publish? && !step.Recover?
    ensures Gentle(s, WorkerNext(cfg, s, t, step), t)
  {
    match step
    case Heartbeat => HeartbeatIsGentle(cfg, s, t);
    case Progress(advance) => ProgressIsGentle(cfg, s, t, advance);
    case StartCall(id, audio) => StartCallIsGentle(cfg, s, t, id, audio);
    case FinishCall(content) => FinishCallIsGentle(cfg, s, t, content);
    case Abandon => AbandonIsGentle(s, t);
    case _ => PlainIsGentle(cfg, s, t, step);
  }

  lemma PublishFrame(s: Sys, t: Token)
    requires t in s.workers && PublishStep(s, t).db != s.db
    ensures var after := PublishStep(s, t); var r := s.workers[t].report; var g := s.workers[t].generation;
            && Attempts.Owned(s.db.generations, s.clock, g, t)
            && g in after.db.generations && after.db.generations == s.db.generations[g := after.db.generations[g]]
            && after.db.generations[g].token.None? && !after.db.generations[g].status.Failed?
            && r in after.db.reports && after.db.reports == s.db.reports[r := after.db.reports[r]] && r in s.db.reports
            && r !in s.db.outputs && r in after.db.outputs && after.db.outputs == s.db.outputs[r := after.db.outputs[r]]
            && after.db == s.db.(generations := after.db.generations, reports := after.db.reports, outputs := after.db.outputs,
                                 ledger := after.db.ledger)
            && after == s.(db := after.db, workers := after.workers, history := s.history.(owed := after.history.owed))
  {
  }

  /** An owner ended or gave up its generation, and its report's row went along. */
  ghost predicate Ended(s: Sys, after: Sys, t: Token)
    requires t in s.workers
  {
    && RenewedOrEnded(s, after, t) && ReportsMove(s, after)
    && after.db == s.db.(generations := after.db.generations, reports := after.db.reports, outputs := after.db.outputs, ledger := after.db.ledger)
    && (forall g | g in after.db.generations && after.db.generations[g].status.Failed? :: g in s.db.generations && s.db.generations[g].status.Failed?)
    && after.db.reports.Keys <= s.db.reports.Keys && after.swept == s.swept && after.history == s.history.(owed := after.history.owed)
  }

  lemma EndedIsOrderly(s: Sys, after: Sys, t: Token)
    requires t in s.workers && Ended(s, after, t)
    ensures Orderly(s, after)
  {
  }

  lemma PublishEnds(s: Sys, t: Token)
    requires WorkIn(s) && t in s.workers && PublishStep(s, t).db != s.db
    ensures Ended(s, PublishStep(s, t), t)
  {
    PublicationLaws.PublisherKnows(s, t);
    PublishFrame(s, t);
    OneReportMoves(s, PublishStep(s, t), s.workers[t].report, s.workers[t].generation);
  }

  lemma RefusedPublicationIsGentle(s: Sys, t: Token)
    requires t in s.workers && PublishStep(s, t).db == s.db
    ensures Gentle(s, PublishStep(s, t), t)
  {
    var w := s.workers[t];
    if w.pc.Publishing? { PublicationEnds(s.db, s.clock, w.generation, w.report, w.user, t, KeyOf(t, w), w.pc.size); }
  }

  lemma PublicationEnds(db: Db, now: Time, g: GenerationId, r: ReportId, user: UserId, t: Token, key: StorageKey, size: nat)
    ensures var published := Processing.FinalizeSuccess(db, now, g, r, user, t, key, size); published.Ok? ==> published.value != db
  {
    var published := Processing.FinalizeSuccess(db, now, g, r, user, t, key, size);
    if published.Ok? { assert published.value.generations[g].status.Completed?; }
  }

  lemma PublishIsOrderly(s: Sys, t: Token)
    requires WorkIn(s) && t in s.workers
    ensures Orderly(s, PublishStep(s, t)) && RenewedOrEnded(s, PublishStep(s, t), t)
  {
    if PublishStep(s, t).db != s.db {
      PublishEnds(s, t);
      EndedIsOrderly(s, PublishStep(s, t), t);
    } else {
      RefusedPublicationIsGentle(s, t);
      GentleIsOrderly(s, PublishStep(s, t), t);
    }
  }

  lemma RetryEnds(cfg: Config, s: Sys, t: Token)
    requires Lockstep(s.db.reports, s.db.outputs, s.db.generations) && t in s.workers && RecoverStep(cfg, s, t, true).db != s.db
    ensures Ended(s, RecoverStep(cfg, s, t, true), t)
  {
    var g := s.workers[t].generation;
    ActiveHasReport(s.db, g);
    OneReportMoves(s, RecoverStep(cfg, s, t, true), s.db.generations[g].report, g);
  }

  lemma RetryIsOrderly(cfg: Config, s: Sys, t: Token)
    requires Lockstep(s.db.reports, s.db.outputs, s.db.generations) && t in s.workers
    ensures Orderly(s, RecoverStep(cfg, s, t, true)) && RenewedOrEnded(s, RecoverStep(cfg, s, t, true), t)
  {
    var after := RecoverStep(cfg, s, t, true);
    if after.db != s.db {
      RetryEnds(cfg, s, t);
      EndedIsOrderly(s, after, t);
    } else {
      RefusedRetryIsGentle(cfg, s, t);
      GentleIsOrderly(s, after, t);
    }
  }

  lemma RefusedRetryIsGentle(cfg: Config, s: Sys, t: Token)
    requires t in s.workers && RecoverStep(cfg, s, t, true).db == s.db
    ensures Gentle(s, RecoverStep(cfg, s, t, true), t)
  {
  }

  lemma FailureFrame(cfg: Config, s: Sys, t: Token)
    requires t in s.workers && RecoverStep(cfg, s, t, false).db != s.db
    ensures var after := RecoverStep(cfg, s, t, false); var g := s.workers[t].generation;
            && Attempts.Owned(s.db.generations, s.clock, g, t)
            && g in after.db.generations && after.db.generations == s.db.generations[g := after.db.generations[g]]
            && after.db.generations[g].status.Failed? && after.db.generations[g].token.None?
            && var r := s.db.generations[g].report;
            && r in s.db.reports && r in after.db.reports && after.db.reports == s.db.reports[r := after.db.reports[r]]
            && after.db == s.db.(generations := after.db.generations, reports := after.db.reports, grants := after.db.grants,
                                 ledger := after.db.ledger)
            && after == s.(db := after.db, workers := s.workers[t := s.workers[t].(pc := Stopped)],
                           history := RecordFailure(s.history, r, s.clock))
  {
  }

  /** A generation failed for good, and its report's row and history went along. */
  ghost predicate Failing(s: Sys, after: Sys, t: Token)
    requires t in s.workers
  {
    var g := s.workers[t].generation;
    && RenewedOrEnded(s, after, t) && ReportsMove(s, after)
    && g in s.db.generations && FailedNow(s, after, s.db.generations[g].report, g)
    && s.db.generations[g].report in s.history.failures
    && after.db == s.db.(generations := after.db.generations, reports := after.db.reports, grants := after.db.grants, ledger := after.db.ledger)
    && after.db.reports.Keys <= s.db.reports.Keys && after.swept == s.swept
    && after.history == RecordFailure(s.history, s.db.generations[g].report, s.clock)
  }

  lemma FailureFails(cfg: Config, s: Sys, t: Token)
    requires t in s.workers && s.db.reports.Keys <= s.history.failures.Keys && RecoverStep(cfg, s, t, false).db != s.db
    ensures Failing(s, RecoverStep(cfg, s, t, false), t)
  {
    FailureFrame(cfg, s, t);
    var g := s.workers[t].generation;
    OneReportMoves(s, RecoverStep(cfg, s, t, false), s.db.generations[g].report, g);
  }

  lemma FailingIsOrderly(s: Sys, after: Sys, t: Token)
    requires t in s.workers && Failing(s, after, t)
    ensures Orderly(s, after)
  {
    var g := s.workers[t].generation;
    assert FailedNow(s, after, s.db.generations[g].report, g);
  }

  lemma RefusedFailureIsGentle(cfg: Config, s: Sys, t: Token)
    requires t in s.workers && RecoverStep(cfg, s, t, false).db == s.db
    ensures Gentle(s, RecoverStep(cfg, s, t, false), t)
  {
    FailureEnds(cfg, s.db, s.clock, s.workers[t].generation, t);
  }

  lemma FailureEnds(cfg: Config, db: Db, now: Time, g: GenerationId, t: Token)
    ensures var failed := Processing.FailGeneration(cfg, db, now, g, t); failed.Ok? ==> failed.value != db
  {
    var failed := Processing.FailGeneration(cfg, db, now, g, t);
    if failed.Ok? { assert failed.value.generations[g].status.Failed?; }
  }

  lemma FailureIsOrderly(cfg: Config, s: Sys, t: Token)
    requires t in s.workers && s.db.reports.Keys <= s.history.failures.Keys
    ensures Orderly(s, RecoverStep(cfg, s, t, false)) && RenewedOrEnded(s, RecoverStep(cfg, s, t, false), t)
  {
    if RecoverStep(cfg, s, t, false).db != s.db {
      FailureFails(cfg, s, t);
      FailingIsOrderly(s, RecoverStep(cfg, s, t, false), t);
    } else {
      RefusedFailureIsGentle(cfg, s, t);
      GentleIsOrderly(s, RecoverStep(cfg, s, t, false), t);
    }
  }

  // ----- every step -----

  /** What the facts about a step rest on. */
  ghost predicate Grounded(s: Sys) {
    && Lockstep(s.db.reports, s.db.outputs, s.db.generations) && WorkIn(s)
    && s.db.reports.Keys <= s.history.failures.Keys && s.db.generations.Keys <= s.history.origins.Keys
  }

  lemma WorkerIsOrderly(cfg: Config, s: Sys, t: Token, step: WorkerStep)
    requires Grounded(s) && t in s.workers
    ensures Orderly(s, WorkerNext(cfg, s, t, step)) && RenewedOrEnded(s, WorkerNext(cfg, s, t, step), t)
  {
    match step
    case Publish => PublishIsOrderly(s, t);
    case Recover(retry) => if retry { RetryIsOrderly(cfg, s, t); } else { FailureIsOrderly(cfg, s, t); }
    case _ =>
      WorkerIsGentle(cfg, s, t, step);
      GentleIsOrderly(s, WorkerNext(cfg, s, t, step), t);
  }

  predicate OnContent(a: Action) {
    a.Tick? || a.OnUpload? || a.OnReport? || a.OnStorage? || a.OnCredits?
  }

  lemma ContentStepIsOrderly(cfg: Config, s: Sys, a: Action)
    requires OnContent(a)
    ensures ContentFrame(s, Next(cfg, s, a)) && Orderly(s, Next(cfg, s, a))
  {
    match a
    case Tick(_) =>
    case OnUpload(upload) => UploadFrame(cfg, s, upload);
    case OnReport(report) => ReportFrame(s, report);
    case OnStorage(storage) => StorageFrame(s, storage);
    case OnCredits(credits) => CreditFrame(s, credits);
    ContentIsOrderly(s, Next(cfg, s, a));
  }

  lemma LifeStepFrame(cfg: Config, s: Sys, a: Action)
    requires Grounded(s) && OnGeneration(a)
    ensures LifeFrame(s, Next(cfg, s, a)) && ReportsMove(s, Next(cfg, s, a))
  {
    match a
    case DeleteReport(user, r) => DeleteReportFrame(s, user, r);
    case StartGeneration(user, r, key, g, emailVerified) =>
      StartFrame(cfg, s, user, r, key, g, emailVerified);
      StartMovesReport(cfg, s, user, r, key, g, emailVerified);
    case MarkEnqueued(g) => MarkFrame(s, g);
    case Compensate(g) => CompensateFrame(s, g);
    case CancelGeneration(user, r, g) => CancelFrame(s, user, r, g);
    case Deliver(t, g, lag) => DeliverFrame(cfg, s, t, g, lag);
  }

  lemma LifeStepIsOrderly(cfg: Config, s: Sys, a: Action)
    requires Grounded(s) && OnGeneration(a)
    ensures LifeFrame(s, Next(cfg, s, a)) && Orderly(s, Next(cfg, s, a))
  {
    LifeStepFrame(cfg, s, a);
    LifeIsOrderly(s, Next(cfg, s, a));
  }

  lemma StepIsOrderly(cfg: Config, s: Sys, a: Action)
    requires Grounded(s)
    ensures Orderly(s, Next(cfg, s, a))
  {
    if a.WorkerActs? {
      if a.token in s.workers { WorkerIsOrderly(cfg, s, a.token, a.step); }
    } else if OnContent(a) {
      ContentStepIsOrderly(cfg, s, a);
    } else {
      LifeStepIsOrderly(cfg, s, a);
    }
  }

  // ----- which keys are owed -----

  /** The keys of all live rows are among the owed ones, and no two assets share one. */
  ghost predicate RowsOwed(s: Sys) {
    && (forall a | a in s.db.assets :: s.db.assets[a].storageKey.AssetKey? && s.db.assets[a].storageKey in s.history.owed)
    && (forall r | r in s.db.outputs :: s.db.outputs[r].storageKey.OutputKey? && s.db.outputs[r].storageKey in s.history.owed)
    && (forall a, b | a in s.db.assets && b in s.db.assets && s.db.assets[a].storageKey == s.db.assets[b].storageKey :: a == b)
  }

  /** Rows keep their keys or go. */
  ghost predicate KeysFade(s: Sys, after: Sys) {
    && s.history.owed <= after.history.owed
    && (forall a | a in after.db.assets :: a in s.db.assets && after.db.assets[a].storageKey == s.db.assets[a].storageKey)
    && (forall r | r in after.db.outputs :: r in s.db.outputs && after.db.outputs[r].storageKey == s.db.outputs[r].storageKey)
  }

  lemma FadingKeysStayOwed(s: Sys, after: Sys)
    requires RowsOwed(s) && KeysFade(s, after)
    ensures RowsOwed(after)
  {
  }

  lemma RecoverFadesKeys(cfg: Config, s: Sys, t: Token, retry: bool)
    requires t in s.workers
    ensures KeysFade(s, RecoverStep(cfg, s, t, retry))
  {
  }

  lemma PublishOwes(s: Sys, t: Token)
    requires RowsOwed(s) && t in s.workers
    ensures RowsOwed(PublishStep(s, t))
  {
  }

  lemma WorkerOwes(cfg: Config, s: Sys, t: Token, step: WorkerStep)
    requires RowsOwed(s) && t in s.workers
    ensures RowsOwed(WorkerNext(cfg, s, t, step))
  {
    match step
    case Publish => PublishOwes(s, t);
    case Recover(retry) =>
      RecoverFadesKeys(cfg, s, t, retry);
      FadingKeysStayOwed(s, RecoverStep(cfg, s, t, retry));
    case _ =>
      WorkerIsGentle(cfg, s, t, step);
      FadingKeysStayOwed(s, WorkerNext(cfg, s, t, step));
  }

  lemma UploadOwes(cfg: Config, s: Sys, a: UploadAction)
    requires RowsOwed(s)
    ensures RowsOwed(UploadNext(cfg, s, a))
  {
  }

  lemma ReportOwes(s: Sys, a: ReportAction)
    requires RowsOwed(s)
    ensures RowsOwed(ReportNext(s, a))
  {
  }

  lemma StartFadesKeys(cfg: Config, s: Sys, user: UserId, r: ReportId, key: string, g: GenerationId, emailVerified: bool)
    ensures KeysFade(s, StartNext(cfg, s, user, r, key, g, emailVerified))
  {
  }

  lemma DeletionFadesKeys(s: Sys, user: UserId, r: ReportId)
    ensures KeysFade(s, Commit(s, Assets.DeleteReport(s.db, user, r)))
  {
  }

  lemma CompensationFadesKeys(s: Sys, g: GenerationId)
    ensures KeysFade(s, CompensateNext(s, g))
  {
  }

  lemma CancelFadesKeys(s: Sys, user: UserId, r: ReportId, g: GenerationId)
    ensures KeysFade(s, Commit(s, Generations.Cancel(s.db, user, r, g)))
  {
  }

  lemma LifeStepFadesKeys(cfg: Config, s: Sys, a: Action)
    requires OnGeneration(a)
    ensures KeysFade(s, Next(cfg, s, a))
  {
    match a
    case DeleteReport(user, r) => DeletionFadesKeys(s, user, r);
    case Compensate(g) => CompensationFadesKeys(s, g);
    case StartGeneration(user, r, key, g, emailVerified) => StartFadesKeys(cfg, s, user, r, key, g, emailVerified);
    case CancelGeneration(user, r, g) => CancelFadesKeys(s, user, r, g);
    case MarkEnqueued(_) =>
    case Deliver(_, _, _) =>
  }

  lemma StorageFadesKeys(s: Sys, a: StorageAction)
    ensures KeysFade(s, StorageNext(s, a))
  {
  }

  lemma ContentStepOwes(cfg: Config, s: Sys, a: Action)
    requires RowsOwed(s) && OnContent(a)
    ensures RowsOwed(Next(cfg, s, a))
  {
    match a
    case Tick(_) =>
    case OnUpload(upload) => UploadOwes(cfg, s, upload);
    case OnReport(report) => ReportOwes(s, report);
    case OnStorage(storage) =>
      StorageFadesKeys(s, storage);
      FadingKeysStayOwed(s, StorageNext(s, storage));
    case OnCredits(credits) => CreditOwes(s, credits);
  }

  lemma AllocationMovesLedger(db: Db, id: GrantId, user: UserId, period: string, total: int, validFrom: Instant, expiresAt: Instant, now: Instant)
    requires Credits.AllocateMonthly(db, id, user, period, total, validFrom, expiresAt, now).Ok?
    ensures var after := Credits.AllocateMonthly(db, id, user, period, total, validFrom, expiresAt, now).value;
            after == db.(grants := after.grants, ledger := after.ledger)
  {
  }

  lemma CreditOwes(s: Sys, a: CreditAction)
    requires RowsOwed(s)
    ensures RowsOwed(CreditNext(s, a))
  {
    match a
    case AllocateMonthly(id, user, period, total, validFrom, expiresAt, now) =>
      if Credits.AllocateMonthly(s.db, id, user, period, total, validFrom, expiresAt, now).Ok? {
        AllocationMovesLedger(s.db, id, user, period, total, validFrom, expiresAt, now);
      }
    case GrantByAdmin(_, _, _, _, _) =>
  }

  lemma StepOwes(cfg: Config, s: Sys, a: Action)
    requires RowsOwed(s)
    ensures RowsOwed(Next(cfg, s, a))
  {
    if OnGeneration(a) {
      LifeStepFadesKeys(cfg, s, a);
      FadingKeysStayOwed(s, Next(cfg, s, a));
    } else if OnContent(a) {
      ContentStepOwes(cfg, s, a);
    } else if a.token in s.workers {
      WorkerOwes(cfg, s, a.token, a.step);
    }
  }
}
