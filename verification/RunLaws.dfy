/** The invariant of the whole system and its preservation by every action, so
    that it holds after every run. */
module RunLaws {
  import opened Rows
  import opened Protocol
  import opened LockstepLaws
  import opened WorkLaws
  import opened CreditLaws
  import opened LedgerLaws
  import opened StorageLaws
  import opened BudgetLaws
  import opened TimeLaws
  import opened SnapshotLaws
  import opened SlotLaws
  import opened OutboxLaws
  import Attempts
  import Processing
  import Generations
  import Assets
  import Credits
  import Lifecycle

  predicate Housed(assets: map<AssetId, Asset>, reports: map<ReportId, Report>) {
    forall a | a in assets :: assets[a].report in reports
  }

  ghost predicate Inv(cfg: Config, s: Sys) {
    && Lockstep(s.db.reports, s.db.outputs, s.db.generations)
    && WorkIn(s)
    && Sound(s.db)
    && LedgerFitsIn(s)
    && StoredIn(s)
    && AssetKeysOnly(s.db.assets)
    && Housed(s.db.assets, s.db.reports)
    && Budgeted(cfg, s.db.attempts)
    && Throttled(cfg, s.db.reports, s.db.generations, s.history.failures, s.clock)
    && Rolling(cfg, s.db.generations, s.clock)
    && Snapshots(s.db.reports, s.db.assets, s.db.generations)
    && Slots(cfg, s.db.assets, s.clock)
    && OutboxIn(s)
    && SourcesFit(cfg, s.duplicating)
  }

  lemma InitIsSound()
    ensures Lockstep(map[], map[], map[]) && WorkIn(INIT) && Sound(INIT.db) && LedgerFitsIn(INIT) && StoredIn(INIT) && OutboxIn(INIT)
  {
    forall id: GrantId ensures Outstanding(INIT.db.ledger, id) == {} {}
  }

  lemma InitIsWithinLimits(cfg: Config)
    ensures Budgeted(cfg, map[]) && Throttled(cfg, map[], map[], map[], INIT.clock) && Rolling(cfg, map[], INIT.clock)
  {
    forall g, operation, asset ensures Attempts.Scope(map[], g, operation, asset) == {} {}
    forall user, from, length ensures CreatedIn(map[], user, from, length) == {} {}
  }

  lemma InitHasSlots(cfg: Config)
    ensures Slots(cfg, map[], INIT.clock)
  {
    forall r ensures Assets.CountedOf(map[], r, cfg, INIT.clock) == {} {}
    assert forall kind :: Assets.OfKind(map[], {}, kind) == {};
  }

  lemma InitKeepsInv(cfg: Config)
    ensures Inv(cfg, INIT)
  {
    InitIsSound();
    InitIsWithinLimits(cfg);
    InitHasSlots(cfg);
  }

  // ----- time, grants, sweeps -----

  lemma TickKeepsInv(cfg: Config, s: Sys, to: Time)
    requires Inv(cfg, s) && to >= s.clock
    ensures Inv(cfg, s.(clock := to))
  {
    TickKeepsThrottle(cfg, s.db.reports, s.db.generations, s.history.failures, s.clock, to);
    TickKeepsSlots(cfg, s.db.assets, s.clock, to);
  }

  lemma GrantsKeepInv(cfg: Config, s: Sys, db: Db, key: LedgerKey)
    requires Inv(cfg, s) && Sound(db) && !OfGeneration(key)
    requires db == s.db.(grants := db.grants, ledger := db.ledger)
    requires db.ledger.Keys == s.db.ledger.Keys || db.ledger.Keys == s.db.ledger.Keys + {key}
    ensures Inv(cfg, s.(db := db))
  {
    OtherHistoryKeepsLedger(s.db.generations, s.db.ledger.Keys, s.db.reports.Keys, s.history, db.ledger.Keys, s.history);
  }

  lemma AddedRows(db: Db, id: GrantId, grant: Grant, key: LedgerKey)
    requires Credits.AddGrant(db, id, grant, key).Ok?
    ensures var after := Credits.AddGrant(db, id, grant, key).value;
            after == db.(grants := after.grants, ledger := after.ledger) && after.ledger.Keys == db.ledger.Keys + {key}
  {
  }

  lemma AllocationRows(db: Db, id: GrantId, user: UserId, period: string, total: int, validFrom: Instant, expiresAt: Instant, now: Instant)
    requires Credits.AllocateMonthly(db, id, user, period, total, validFrom, expiresAt, now).Ok?
    ensures var after := Credits.AllocateMonthly(db, id, user, period, total, validFrom, expiresAt, now).value;
            && after == db.(grants := after.grants, ledger := after.ledger)
            && (after.ledger.Keys == db.ledger.Keys || after.ledger.Keys == db.ledger.Keys + {PeriodKey(user, period)})
  {
    if PeriodKey(user, period) !in db.ledger && !exists h :: h in db.grants && Credits.SamePeriod(db.grants[h], user, period) {
      AddedRows(db, id, Grant(user, SubscriptionMonthly, total, total, validFrom, Some(expiresAt), now, Some(period)), PeriodKey(user, period));
    }
  }

  lemma AllocationKeepsInv(cfg: Config, s: Sys, id: GrantId, user: UserId, period: string, total: int,
                           validFrom: Instant, expiresAt: Instant, now: Instant)
    requires Inv(cfg, s)
    ensures Inv(cfg, Commit(s, Credits.AllocateMonthly(s.db, id, user, period, total, validFrom, expiresAt, now)))
  {
    var granted := Credits.AllocateMonthly(s.db, id, user, period, total, validFrom, expiresAt, now);
    if granted.Ok? {
      AllocateConserves(s.db, id, user, period, total, validFrom, expiresAt, now);
      AllocationRows(s.db, id, user, period, total, validFrom, expiresAt, now);
      GrantsKeepInv(cfg, s, granted.value, PeriodKey(user, period));
    }
  }

  lemma AdminGrantKeepsInv(cfg: Config, s: Sys, id: GrantId, user: UserId, amount: int, request: string, now: Instant)
    requires Inv(cfg, s)
    ensures Inv(cfg, Commit(s, Credits.GrantByAdmin(s.db, id, user, amount, request, now)))
  {
    if Credits.GrantByAdmin(s.db, id, user, amount, request, now).Ok? && AdminKey(request) !in s.db.ledger {
      AddGrantConserves(s.db, id, Grant(user, Admin, amount, amount, now, None, now, None), AdminKey(request));
      GrantsKeepInv(cfg, s, Credits.GrantByAdmin(s.db, id, user, amount, request, now).value, AdminKey(request));
    }
  }

  /** Keys of assets become tasks, or a sweep goes on. */
  ghost predicate SweepEffect(s: Sys, after: Sys) {
    && after == s.(db := s.db.(tasks := after.db.tasks), objects := after.objects, sweeping := after.sweeping, swept := after.swept,
                   history := s.history.(deletedOnce := after.history.deletedOnce))
    && s.history.deletedOnce <= after.history.deletedOnce && after.swept <= after.history.deletedOnce
    && (forall k | k in s.db.tasks :: k in after.db.tasks || k in after.history.deletedOnce)
    && (forall k: StorageKey | k.OutputKey? ::
          && (Condemned(after.db.tasks, after.sweeping, after.swept, k) ==> Condemned(s.db.tasks, s.sweeping, s.swept, k))
          && (!Condemned(s.db.tasks, s.sweeping, s.swept, k) ==>
                (k in after.objects <==> k in s.objects) && (k in s.objects ==> after.objects[k] == s.objects[k])))
  }

  lemma SweepEffectKeepsInv(cfg: Config, s: Sys, after: Sys)
    requires Inv(cfg, s) && SweepEffect(s, after)
    ensures Inv(cfg, after)
  {
    KeysMoveKeepsStored(s, after.db.outputs, after.db.tasks, after.sweeping, after.swept, after.objects);
    HandOverKeepsOutbox(s, after);
    OtherHistoryKeepsLedger(s.db.generations, s.db.ledger.Keys, s.db.reports.Keys, s.history, s.db.ledger.Keys, after.history);
  }

  lemma StorageStepSweeps(s: Sys, a: StorageAction)
    requires s.swept <= s.history.deletedOnce
    ensures SweepEffect(s, StorageNext(s, a))
  {
    match a
    case StoreAssetObject(_, _) =>
    case RollBackCopies(copied) => if forall k | k in copied :: k.AssetKey? { EnqueueSweeps(s, copied); }
    case EnqueueRejected(key) => if key.AssetKey? { EnqueueSweeps(s, {key}); }
    case PickTask(_) =>
    case DeleteObject(key) => if key in s.sweeping { DeletionSweeps(s, key); }
    case RemoveTask(_) =>
  }

  lemma DeletionSweeps(s: Sys, key: StorageKey)
    requires s.swept <= s.history.deletedOnce && key in s.sweeping
    ensures SweepEffect(s, s.(objects := s.objects - {key}, sweeping := s.sweeping - {key}, swept := s.swept + {key},
                              history := s.history.(deletedOnce := s.history.deletedOnce + {key})))
  {
  }

  lemma EnqueueSweeps(s: Sys, keys: set<StorageKey>)
    requires s.swept <= s.history.deletedOnce && forall k | k in keys :: k.AssetKey?
    ensures SweepEffect(s, Enqueue(s, keys))
  {
  }

  // ----- worker steps -----

  /** Nothing moved in the tables of reports and generations, or one active generation stayed active. */
  ghost predicate QuietFor(db: Db, after: Db, g: GenerationId) {
    || (after.generations == db.generations && after.reports == db.reports)
    || (MovesWithin(db, after, g) && Generations.Active(after.generations[g])
        && after.reports[db.generations[g].report].throttle == db.reports[db.generations[g].report].throttle)
  }

  lemma QuietMoveKeepsTime(cfg: Config, s: Sys, db: Db, g: GenerationId)
    requires Throttled(cfg, s.db.reports, s.db.generations, s.history.failures, s.clock)
    requires Rolling(cfg, s.db.generations, s.clock)
    requires MovesWithin(s.db, db, g) && Generations.Active(db.generations[g])
    requires db.reports[s.db.generations[g].report].throttle == s.db.reports[s.db.generations[g].report].throttle
    requires s.db.reports[s.db.generations[g].report].status.READY? ==> db.reports[s.db.generations[g].report].status.READY?
    ensures Throttled(cfg, db.reports, db.generations, s.history.failures, s.clock)
    ensures Rolling(cfg, db.generations, s.clock)
  {
    assert forall r, h | ActiveOf(db.generations, r, h) :: ActiveOf(s.db.generations, r, h);
    QuietChangeKeepsThrottle(cfg, s.db.reports, s.db.generations, s.history.failures, s.clock, db.reports, db.generations);
    SubsetKeepsRolling(cfg, s.db.generations, db.generations, s.clock);
  }

  /** A step that leaves reports and generations quiet, once its other tables are dealt with. */
  lemma QuietStepKeepsInv(cfg: Config, s: Sys, after: Sys, g: GenerationId)
    requires Inv(cfg, s) && QuietFor(s.db, after.db, g)
    requires WorkIn(after) && StoredIn(after) && Budgeted(cfg, after.db.attempts)
    requires after.db == s.db.(generations := after.db.generations, reports := after.db.reports, attempts := after.db.attempts, tasks := after.db.tasks)
    requires s.db.tasks <= after.db.tasks && after.swept == s.swept && after.history == s.history && after.clock == s.clock
    requires after.duplicating == s.duplicating
    ensures Inv(cfg, after)
  {
    HandOverKeepsOutbox(s, after);
    if after.db.generations != s.db.generations || after.db.reports != s.db.reports {
      QuietMoveKeepsTables(s, after.db, g);
      QuietMoveKeepsLedgerIn(s, after.db, g);
      ActiveIsNotReady(s.db, g);
      QuietMoveKeepsTime(cfg, s, after.db, g);
    }
  }

  lemma QuietMoveKeepsTables(s: Sys, db: Db, g: GenerationId)
    requires Lockstep(s.db.reports, s.db.outputs, s.db.generations) && Snapshots(s.db.reports, s.db.assets, s.db.generations)
    requires MovesWithin(s.db, db, g)
    ensures Lockstep(db.reports, db.outputs, db.generations) && Snapshots(db.reports, db.assets, db.generations)
    ensures db.generations.Keys == s.db.generations.Keys && db.reports.Keys == s.db.reports.Keys
  {
    MoveKeepsLockstep(s.db, db, g);
    MoveKeepsSnapshots(s.db, db, g);
  }

  lemma QuietMoveKeepsLedgerIn(s: Sys, db: Db, g: GenerationId)
    requires LedgerFitsIn(s) && MovesWithin(s.db, db, g) && Generations.Active(db.generations[g])
    ensures LedgerFits(db.generations, s.db.ledger.Keys, db.reports.Keys, s.history)
  {
    QuietMoveKeepsLedger(s.db.generations, s.db.ledger.Keys, s.db.reports.Keys, s.history, g, db.generations[g]);
    assert db.reports.Keys == s.db.reports.Keys;
  }

  lemma ActiveIsNotReady(db: Db, g: GenerationId)
    requires Lockstep(db.reports, db.outputs, db.generations) && g in db.generations && Generations.Active(db.generations[g])
    ensures var r := db.generations[g].report;
            && r in db.reports && !db.reports[r].status.READY? && !Lifecycle.Editable(db.reports[r].status) && r !in db.outputs
            && ActiveOf(db.generations, r, g)
  {
    assert GenerationFits(db.reports, db.outputs, db.generations, g);
    assert ReportFits(db.reports, db.outputs, db.generations, db.generations[g].report);
  }

  /** A worker moved on and changed nothing but attempts and generations. */
  ghost predicate StepFrame(s: Sys, after: Sys, t: Token) {
    && t in s.workers && t in after.workers
    && after == s.(db := s.db.(generations := after.db.generations, reports := after.db.reports, attempts := after.db.attempts),
                   workers := s.workers[t := after.workers[t]])
    && after.workers[t].generation == s.workers[t].generation
    && StaysRetired(s.workers[t].pc, after.workers[t].pc)
    && (after.workers[t].pc.Publishing? ==> UploadStored(s.objects, t, after.workers[t]))
  }

  lemma FrameKeepsInv(cfg: Config, s: Sys, after: Sys, t: Token)
    requires Inv(cfg, s) && StepFrame(s, after, t) && QuietFor(s.db, after.db, s.workers[t].generation)
    requires WorkIn(after) && Budgeted(cfg, after.db.attempts)
    ensures Inv(cfg, after)
  {
    WorkerMoveKeepsStored(s, t, after.workers[t]);
    QuietStepKeepsInv(cfg, s, after, s.workers[t].generation);
  }

  /** A worker gave up at some point of its program. */
  lemma GiveUpKeepsInv(cfg: Config, s: Sys, after: Sys, t: Token)
    requires Inv(cfg, s) && StepFrame(s, after, t) && after.db == s.db
    requires var pc := after.workers[t].pc; pc.Failing? || pc.Recovering? || pc.Stopped? || pc.AbandoningAttempt?
    ensures Inv(cfg, after)
  {
    GivingUpKeepsWork(s, after, t);
    FrameKeepsInv(cfg, s, after, t);
  }

  lemma CrashKeepsInv(cfg: Config, s: Sys, t: Token)
    requires Inv(cfg, s) && t in s.workers
    ensures Inv(cfg, Goto(s, t, Stopped))
  {
    GiveUpKeepsInv(cfg, s, Goto(s, t, Stopped), t);
  }

  lemma ReadFrame(s: Sys, t: Token)
    requires t in s.workers
    ensures var after := ReadStep(s, t); after == s || (StepFrame(s, after, t) && after.db == s.db)
  {
  }

  lemma ReadKeepsInv(cfg: Config, s: Sys, t: Token)
    requires Inv(cfg, s) && t in s.workers
    ensures Inv(cfg, ReadStep(s, t))
  {
    ReadKeepsWork(s, t);
    ReadFrame(s, t);
    if ReadStep(s, t) != s { FrameKeepsInv(cfg, s, ReadStep(s, t), t); }
  }

  lemma CheckKeepsInv(cfg: Config, s: Sys, t: Token)
    requires Inv(cfg, s) && t in s.workers
    ensures Inv(cfg, CheckStep(s, t))
  {
    CheckKeepsWork(s, t);
    if CheckStep(s, t) != s { FrameKeepsInv(cfg, s, CheckStep(s, t), t); }
  }

  lemma CallFailsKeepsInv(cfg: Config, s: Sys, t: Token, error: Error)
    requires Inv(cfg, s) && t in s.workers
    ensures Inv(cfg, CallFailsStep(s, t, error))
  {
    CallFailsFrame(s, t, error);
    if CallFailsStep(s, t, error) != s { GiveUpKeepsInv(cfg, s, CallFailsStep(s, t, error), t); }
  }

  lemma CallFailsFrame(s: Sys, t: Token, error: Error)
    requires t in s.workers
    ensures var after := CallFailsStep(s, t, error);
            after == s || (StepFrame(s, after, t) && after.db == s.db
                           && (after.workers[t].pc.Failing? || after.workers[t].pc.AbandoningAttempt?))
  {
  }

  lemma FailStepKeepsInv(cfg: Config, s: Sys, t: Token, error: Error)
    requires Inv(cfg, s) && t in s.workers
    ensures Inv(cfg, FailStep(s, t, error))
  {
    if FailStep(s, t, error) != s { GiveUpKeepsInv(cfg, s, FailStep(s, t, error), t); }
  }

  lemma PutFailsKeepsInv(cfg: Config, s: Sys, t: Token)
    requires Inv(cfg, s) && t in s.workers
    ensures Inv(cfg, PutFailsStep(s, t))
  {
    if PutFailsStep(s, t) != s { GiveUpKeepsInv(cfg, s, PutFailsStep(s, t), t); }
  }

  /** No row changes, but a task may be added. */
  ghost predicate RowsStay(s: Sys, after: Sys) {
    && after.db == s.db.(tasks := after.db.tasks) && s.db.tasks <= after.db.tasks
    && after.swept == s.swept && after.history == s.history && after.clock == s.clock && after.duplicating == s.duplicating
  }

  lemma RowsStayKeepsInv(cfg: Config, s: Sys, after: Sys)
    requires Inv(cfg, s) && RowsStay(s, after) && WorkIn(after) && StoredIn(after)
    ensures Inv(cfg, after)
  {
    HandOverKeepsOutbox(s, after);
  }

  lemma UploadStepsKeepRows(s: Sys, t: Token, size: nat)
    requires t in s.workers
    ensures RowsStay(s, PutStep(s, t, size)) && RowsStay(s, ScheduleCleanupStep(s, t))
  {
  }

  lemma PutKeepsInv(cfg: Config, s: Sys, t: Token, size: nat)
    requires Inv(cfg, s) && t in s.workers
    ensures Inv(cfg, PutStep(s, t, size))
  {
    PutKeepsWork(s, t, size);
    PutKeepsStored(s, t, size);
    UploadStepsKeepRows(s, t, size);
    RowsStayKeepsInv(cfg, s, PutStep(s, t, size));
  }

  lemma HeadKeepsInv(cfg: Config, s: Sys, t: Token, answered: bool)
    requires Inv(cfg, s) && t in s.workers
    ensures Inv(cfg, HeadStep(s, t, answered))
  {
    HeadKeepsWork(s, t, answered);
    if HeadStep(s, t, answered) != s { FrameKeepsInv(cfg, s, HeadStep(s, t, answered), t); }
  }

  lemma ScheduleKeepsWork(s: Sys, t: Token)
    requires WorkIn(s) && t in s.workers
    ensures WorkIn(ScheduleCleanupStep(s, t))
  {
    var after := ScheduleCleanupStep(s, t);
    if after != s { GivingUpKeepsWork(s, after, t); }
  }

  lemma ScheduleKeepsInv(cfg: Config, s: Sys, t: Token)
    requires Inv(cfg, s) && t in s.workers
    ensures Inv(cfg, ScheduleCleanupStep(s, t))
  {
    ScheduleKeepsWork(s, t);
    ScheduleKeepsStored(s, t);
    UploadStepsKeepRows(s, t, 0);
    RowsStayKeepsInv(cfg, s, ScheduleCleanupStep(s, t));
  }

  lemma HeartbeatKeepsInv(cfg: Config, s: Sys, t: Token)
    requires Inv(cfg, s) && t in s.workers
    ensures Inv(cfg, HeartbeatStep(cfg, s, t))
  {
    var after := HeartbeatStep(cfg, s, t);
    var g := s.workers[t].generation;
    if after != s {
      HeartbeatKeepsWork(cfg, s, t);
      RenewalFrame(cfg, s.db, s.clock, g, t);
      QuietStepKeepsInv(cfg, s, after, g);
    }
  }

  lemma RenewalFrame(cfg: Config, db: Db, now: Time, g: GenerationId, t: Token)
    requires Lockstep(db.reports, db.outputs, db.generations) && Processing.Renew(cfg, db, now, g, t).Some?
    ensures var after := Processing.Renew(cfg, db, now, g, t).value;
            after == db.(generations := after.generations) && QuietFor(db, after, g)
  {
    RenewMoves(cfg, db, now, g, t);
  }

  lemma ProgressKeepsInv(cfg: Config, s: Sys, t: Token, advance: bool)
    requires Inv(cfg, s) && t in s.workers
    ensures Inv(cfg, ProgressStep(cfg, s, t, advance))
  {
    if ProgressStep(cfg, s, t, advance) != s {
      ProgressKeepsWork(cfg, s, t, advance);
      ProgressFrame(cfg, s, t, advance);
      FrameKeepsInv(cfg, s, ProgressStep(cfg, s, t, advance), t);
    }
  }

  lemma ProgressFrame(cfg: Config, s: Sys, t: Token, advance: bool)
    requires Lockstep(s.db.reports, s.db.outputs, s.db.generations) && t in s.workers
    requires ProgressStep(cfg, s, t, advance) != s
    ensures var after := ProgressStep(cfg, s, t, advance);
            StepFrame(s, after, t) && QuietFor(s.db, after.db, s.workers[t].generation) && after.db.attempts == s.db.attempts
  {
    var g := s.workers[t].generation;
    if Processing.Renew(cfg, s.db, s.clock, g, t).Some? { RenewalFrame(cfg, s.db, s.clock, g, t); }
  }

  lemma StartCallKeepsInv(cfg: Config, s: Sys, t: Token, id: AttemptId, audio: AssetId)
    requires Inv(cfg, s) && t in s.workers
    ensures Inv(cfg, StartCallStep(cfg, s, t, id, audio))
  {
    if StartCallStep(cfg, s, t, id, audio) != s {
      StartCallKeepsWork(cfg, s, t, id, audio);
      StartCallKeepsBudget(cfg, s, t, id, audio);
      StartCallFrame(cfg, s, t, id, audio);
      FrameKeepsInv(cfg, s, StartCallStep(cfg, s, t, id, audio), t);
    }
  }

  lemma StartCallFrame(cfg: Config, s: Sys, t: Token, id: AttemptId, audio: AssetId)
    requires t in s.workers && StartCallStep(cfg, s, t, id, audio) != s
    ensures var after := StartCallStep(cfg, s, t, id, audio);
            StepFrame(s, after, t) && after.db.generations == s.db.generations && after.db.reports == s.db.reports
  {
  }

  lemma StartCallKeepsBudget(cfg: Config, s: Sys, t: Token, id: AttemptId, audio: AssetId)
    requires WorkIn(s) && Budgeted(cfg, s.db.attempts) && t in s.workers
    ensures Budgeted(cfg, StartCallStep(cfg, s, t, id, audio).db.attempts)
  {
    var w := s.workers[t];
    var operation := if w.pc.Transcribing? then TRANSCRIPTION
                     else if w.pc.StartingModeration? then MODERATION else REPORT_GENERATION;
    var asset := if w.pc.Transcribing? then Some(audio) else None;
    forall i | i in s.db.attempts ensures s.db.attempts[i].asset.Some? <==> s.db.attempts[i].operation.TRANSCRIPTION? {
      assert AttemptFits(s.db.generations, s.db.attempts, i);
    }
    if Attempts.StartAttempt(cfg, s.db, s.clock, id, w.generation, operation, asset, t, w.deadline).Ok? {
      StartKeepsBudget(cfg, s.db, s.clock, id, w.generation, operation, asset, t, w.deadline);
    }
  }

  lemma AbandonKeepsInv(cfg: Config, s: Sys, t: Token)
    requires Inv(cfg, s) && t in s.workers
    ensures Inv(cfg, AbandonStep(s, t))
  {
    if AbandonStep(s, t) != s {
      AbandonKeepsWork(s, t);
      AbandonFrame(s, t);
      StatusKeepsBudget(cfg, s.db.attempts, AbandonStep(s, t).db.attempts);
      FrameKeepsInv(cfg, s, AbandonStep(s, t), t);
    }
  }

  lemma AbandonFrame(s: Sys, t: Token)
    requires t in s.workers && AbandonStep(s, t) != s
    ensures var after := AbandonStep(s, t);
            && StepFrame(s, after, t) && after.db.generations == s.db.generations && after.db.reports == s.db.reports
            && after.db.attempts.Keys == s.db.attempts.Keys
            && (forall id | id in s.db.attempts :: StatusOnly(s.db.attempts[id], after.db.attempts[id]))
  {
  }

  lemma FinishCallKeepsInv(cfg: Config, s: Sys, t: Token, content: Content)
    requires Inv(cfg, s) && t in s.workers
    ensures Inv(cfg, FinishCallStep(cfg, s, t, content))
  {
    if FinishCallStep(cfg, s, t, content) != s {
      FinishCallKeepsWork(cfg, s, t, content);
      FinishCallFrame(cfg, s, t, content);
      if s.workers[t].pc.CallingReporter? { FinishCallIsQuiet(cfg, s, t, content, s.workers[t].pc.attempt); }
      StatusKeepsBudget(cfg, s.db.attempts, FinishCallStep(cfg, s, t, content).db.attempts);
      FrameKeepsInv(cfg, s, FinishCallStep(cfg, s, t, content), t);
    }
  }

  ghost predicate FinishFrame(s: Sys, after: Sys, t: Token) {
    && StepFrame(s, after, t)
    && after.db.attempts.Keys == s.db.attempts.Keys
    && (forall id | id in s.db.attempts :: StatusOnly(s.db.attempts[id], after.db.attempts[id]))
    && (!s.workers[t].pc.CallingReporter? ==> after.db.generations == s.db.generations && after.db.reports == s.db.reports)
  }

  lemma FinishCallFrame(cfg: Config, s: Sys, t: Token, content: Content)
    requires t in s.workers && FinishCallStep(cfg, s, t, content) != s
    ensures FinishFrame(s, FinishCallStep(cfg, s, t, content), t)
  {
    match s.workers[t].pc
    case CallingTranscriber(id) => FinishTranscriptionFrame(cfg, s, t, content, id);
    case CallingModerator(id) => FinishModerationFrame(cfg, s, t, content, id);
    case CallingReporter(id) => FinishReportFrame(cfg, s, t, content, id);
    case _ =>
  }

  lemma FinishTranscriptionFrame(cfg: Config, s: Sys, t: Token, content: Content, id: AttemptId)
    requires t in s.workers && s.workers[t].pc == CallingTranscriber(id)
    ensures FinishFrame(s, FinishCallStep(cfg, s, t, content), t)
  {
  }

  lemma FinishModerationFrame(cfg: Config, s: Sys, t: Token, content: Content, id: AttemptId)
    requires t in s.workers && s.workers[t].pc == CallingModerator(id)
    ensures FinishFrame(s, FinishCallStep(cfg, s, t, content), t)
  {
  }

  lemma FinishReportFrame(cfg: Config, s: Sys, t: Token, content: Content, id: AttemptId)
    requires t in s.workers && s.workers[t].pc == CallingReporter(id)
    ensures FinishFrame(s, FinishCallStep(cfg, s, t, content), t)
  {
  }

  lemma FinishCallIsQuiet(cfg: Config, s: Sys, t: Token, content: Content, id: AttemptId)
    requires Lockstep(s.db.reports, s.db.outputs, s.db.generations) && t in s.workers && s.workers[t].pc == CallingReporter(id)
    ensures QuietFor(s.db, FinishCallStep(cfg, s, t, content).db, s.workers[t].generation)
  {
    var g := s.workers[t].generation;
    if Processing.PersistResult(cfg, s.db, s.clock, g, t, id, content).Ok? {
      PersistMoves(cfg, s.db, s.clock, g, t, id, content);
    }
  }
}
