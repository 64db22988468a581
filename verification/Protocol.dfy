/** The whole system as a step relation: the database, the object store, a clock,
    any number of generation workers and of cleanup sweeps. A run is a sequence
    of actions; every database transaction or statement and every call to the
    object store is one action, so anything may happen between two of them. An
    action whose guard fails, and a transaction that throws, changes no row. */
module Protocol {
  import opened Rows
  import Credits
  import opened Attempts
  import opened Processing
  import Generations
  import Assets

  /** Where a worker is in process. */
  datatype Pc =
    | Reading
    | Transcribing
    | CallingTranscriber(attempt: AttemptId)
    | CheckingModeration
    | StartingModeration
    | CallingModerator(attempt: AttemptId)
    | PreparingContent
    | StartingReport
    | CallingReporter(attempt: AttemptId)
    | Rendering
    | Uploading
    | VerifyingUpload(size: nat)
    | Publishing(size: nat)
    | AbandoningAttempt(attempt: AttemptId, error: Error)
    | Failing(error: Error)
    | Recovering(error: Error)
    | Stopped

  /** One delivery of a generation job. uploaded says that uploadedOutputKey is set. */
  datatype Worker = Worker(
    generation: GenerationId,
    report: ReportId,
    user: UserId,
    deadline: Time,
    hasResult: bool,
    uploaded: bool,
    pc: Pc)

  function KeyOf(token: Token, w: Worker): StorageKey {
    OutputKey(w.user, w.report, w.generation, token)
  }

  datatype Origin = Origin(user: UserId, report: ReportId, idempotencyKey: string)

  /** What the properties remember of a run; no step reads it except to keep identifiers fresh. */
  datatype History = History(
    origins: map<GenerationId, Origin>,        // every generation ever started
    failures: map<ReportId, seq<Time>>,        // every report ever created, with its terminal failures
    compensated: set<GenerationId>,            // generations that compensation deleted
    owed: set<StorageKey>,                     // keys of outputs and of assets whose upload was not withdrawn
    deletedOnce: set<StorageKey>)              // keys whose object was deleted successfully at least once

  datatype Sys = Sys(
    db: Db,
    objects: map<StorageKey, nat>,
    clock: Time,
    workers: map<Token, Worker>,
    sweeping: set<StorageKey>,                 // cleanup attempts that have not deleted their object yet
    swept: set<StorageKey>,                    // cleanup attempts that have, and not removed their task yet
    duplicating: map<ReportId, Assets.Source>, // what duplicates have read, by the report they will create
    history: History)

  const INIT := Sys(EMPTY_DB, map[], 0, map[], {}, {}, map[], History(map[], map[], {}, {}, {}))

  datatype WorkerStep =
    | Heartbeat
    | Crash
    | ReadGeneration
    | Progress(advance: bool)
    | StartCall(id: AttemptId, audio: AssetId)
    | CheckCompleted
    | FinishCall(content: Content)
    | CallFails(error: Error)
    | Abandon
    | Put(size: nat)
    | PutFails
    | Head(answered: bool)
    | Publish
    | Fail(error: Error)
    | ScheduleCleanup
    | Recover(retry: bool)

  datatype UploadAction =
    | RequestUpload(user: UserId, report: ReportId, asset: AssetId, nonce: nat, upload: Assets.UploadRequest)
    | WithdrawUpload(asset: AssetId)
    | ConfirmUpload(user: UserId, report: ReportId, asset: AssetId, inspected: bool)
    | FinishRejection(asset: AssetId)
    | DeleteAsset(user: UserId, report: ReportId, asset: AssetId)

  datatype ReportAction =
    | CreateReport(user: UserId, report: ReportId, title: string, notes: string)
    | UpdateReport(user: UserId, report: ReportId, title: string, notes: string)
    | ReadSource(user: UserId, source: ReportId, report: ReportId)
    | DuplicateReport(report: ReportId, copies: map<AssetId, Assets.Copy>, title: string)

  /** Objects of assets come and go: client uploads, copies made by duplicate, and the cleanup sweeps. */
  datatype StorageAction =
    | StoreAssetObject(key: StorageKey, size: nat)
    | RollBackCopies(copied: set<StorageKey>)
    | EnqueueRejected(key: StorageKey)
    | PickTask(key: StorageKey)
    | DeleteObject(key: StorageKey)
    | RemoveTask(key: StorageKey)

  datatype CreditAction =
    | AllocateMonthly(grant: GrantId, user: UserId, period: string, total: int, validFrom: Instant, expiresAt: Instant, now: Instant)
    | GrantByAdmin(grant: GrantId, user: UserId, amount: int, request: string, now: Instant)

  datatype Action =
    | Tick(to: Time)
    | OnUpload(upload: UploadAction)
    | OnReport(report: ReportAction)
    | OnStorage(storage: StorageAction)
    | OnCredits(credits: CreditAction)
    | DeleteReport(user: UserId, doomed: ReportId)
    | StartGeneration(user: UserId, on: ReportId, idempotencyKey: string, generation: GenerationId, emailVerified: bool)
    | MarkEnqueued(generation: GenerationId)
    | Compensate(generation: GenerationId)
    | CancelGeneration(user: UserId, on: ReportId, generation: GenerationId)
    | Deliver(token: Token, generation: GenerationId, lag: nat)
    | WorkerActs(token: Token, step: WorkerStep)

  /** The actions that begin, enqueue, deliver or end a generation from outside, or delete its report. */
  predicate OnGeneration(a: Action) {
    a.DeleteReport? || a.StartGeneration? || a.MarkEnqueued? || a.Compensate? || a.CancelGeneration? || a.Deliver?
  }

  // ----- worker steps -----

  function Goto(s: Sys, t: Token, pc: Pc): Sys
    requires t in s.workers
  {
    s.(workers := s.workers[t := s.workers[t].(pc := pc)])
  }

  function ReadStep(s: Sys, t: Token): Sys
    requires t in s.workers
  {
    var w := s.workers[t];
    if !w.pc.Reading? then s
    else if w.generation !in s.db.generations then Goto(s, t, Failing(Other))
    else
      var row := s.db.generations[w.generation];
      s.(workers := s.workers[t := w.(report := row.report, user := row.user,
                                      hasResult := row.structured.Some?, pc := Transcribing)])
  }

  /** updateProgress, which between two stages also moves the program on. */
  function ProgressStep(cfg: Config, s: Sys, t: Token, advance: bool): Sys
    requires t in s.workers
  {
    var w := s.workers[t];
    if !w.pc.Transcribing? && !w.pc.PreparingContent? && !w.pc.Rendering? then s
    else
      match Renew(cfg, s.db, s.clock, w.generation, t)
      case None => Goto(s, t, Failing(ClaimLost))
      case Some(db) =>
        var next := if !advance then w.pc
                    else if w.pc.Transcribing? then CheckingModeration
                    else if w.pc.PreparingContent? then (if w.hasResult then Rendering else StartingReport)
                    else Uploading;
        Goto(s.(db := db), t, next)
  }

  function HeartbeatStep(cfg: Config, s: Sys, t: Token): Sys
    requires t in s.workers
  {
    if s.workers[t].pc.Stopped? then s
    else
      match Renew(cfg, s.db, s.clock, s.workers[t].generation, t)
      case None => s
      case Some(db) => s.(db := db)
  }

  function StartCallStep(cfg: Config, s: Sys, t: Token, id: AttemptId, audio: AssetId): Sys
    requires t in s.workers
  {
    var w := s.workers[t];
    if !w.pc.Transcribing? && !w.pc.StartingModeration? && !w.pc.StartingReport? then s
    else
      var operation := if w.pc.Transcribing? then TRANSCRIPTION
                       else if w.pc.StartingModeration? then MODERATION else REPORT_GENERATION;
      var asset := if w.pc.Transcribing? then Some(audio) else None;
      match StartAttempt(cfg, s.db, s.clock, id, w.generation, operation, asset, t, w.deadline)
      case Err(e) => Goto(s, t, Failing(e))
      case Ok(db) =>
        Goto(s.(db := db), t,
             match operation
             case TRANSCRIPTION => CallingTranscriber(id)
             case MODERATION => CallingModerator(id)
             case REPORT_GENERATION => CallingReporter(id))
  }

  function CheckStep(s: Sys, t: Token): Sys
    requires t in s.workers
  {
    var w := s.workers[t];
    if !w.pc.CheckingModeration? then s
    else Goto(s, t, if HasCompleted(s.db.attempts, w.generation, MODERATION) then PreparingContent else StartingModeration)
  }

  /** The provider answered usably: the transaction that records it. */
  function FinishCallStep(cfg: Config, s: Sys, t: Token, content: Content): Sys
    requires t in s.workers
  {
    var w := s.workers[t];
    match w.pc
    case CallingTranscriber(id) =>
      (match CompleteOwned(s.db, s.clock, w.generation, id, t)
       case Err(e) => Goto(s, t, Failing(e))
       case Ok(db) => Goto(s.(db := db), t, Transcribing))
    case CallingModerator(id) =>
      (match CompleteOwned(s.db, s.clock, w.generation, id, t)
       case Err(e) => Goto(s, t, AbandoningAttempt(id, e))
       case Ok(db) => Goto(s.(db := db), t, PreparingContent))
    case CallingReporter(id) =>
      (match PersistResult(cfg, s.db, s.clock, w.generation, t, id, content)
       case Err(e) => Goto(s, t, AbandoningAttempt(id, e))
       case Ok(db) => s.(db := db, workers := s.workers[t := w.(hasResult := true, pc := Rendering)]))
    case _ => s
  }

  /** The provider failed, timed out, flagged the content or answered unusably. A transcription is
      abandoned only by a worker that still holds the generation. */
  function CallFailsStep(s: Sys, t: Token, error: Error): Sys
    requires t in s.workers
  {
    var w := s.workers[t];
    match w.pc
    case CallingTranscriber(id) =>
      var holds := w.generation in s.db.generations && s.db.generations[w.generation].status.Processing?
                   && s.db.generations[w.generation].token == Some(t);
      Goto(s, t, if holds then AbandoningAttempt(id, error) else Failing(ClaimLost))
    case CallingModerator(id) => Goto(s, t, AbandoningAttempt(id, error))
    case CallingReporter(id) => Goto(s, t, AbandoningAttempt(id, error))
    case _ => s
  }

  function AbandonStep(s: Sys, t: Token): Sys
    requires t in s.workers
  {
    match s.workers[t].pc
    case AbandoningAttempt(id, error) => Goto(s.(db := FailAttempt(s.db, id, t)), t, Failing(error))
    case _ => s
  }

  /** uploadedOutputKey is set before the upload is sent. */
  function PutStep(s: Sys, t: Token, size: nat): Sys
    requires t in s.workers
  {
    var w := s.workers[t];
    if !w.pc.Uploading? then s
    else s.(objects := s.objects[KeyOf(t, w) := size],
            workers := s.workers[t := w.(uploaded := true, pc := VerifyingUpload(size))])
  }

  function PutFailsStep(s: Sys, t: Token): Sys
    requires t in s.workers
  {
    var w := s.workers[t];
    if !w.pc.Uploading? then s
    else s.(workers := s.workers[t := w.(uploaded := true, pc := Failing(Other))])
  }

  function HeadStep(s: Sys, t: Token, answered: bool): Sys
    requires t in s.workers
  {
    var w := s.workers[t];
    match w.pc
    case VerifyingUpload(size) =>
      if answered && KeyOf(t, w) in s.objects && s.objects[KeyOf(t, w)] == size then Goto(s, t, Publishing(size))
      else Goto(s, t, Failing(Other))
    case _ => s
  }

  function PublishStep(s: Sys, t: Token): Sys
    requires t in s.workers
  {
    var w := s.workers[t];
    match w.pc
    case Publishing(size) =>
      (match FinalizeSuccess(s.db, s.clock, w.generation, w.report, w.user, t, KeyOf(t, w), size)
       case Err(e) => Goto(s, t, Failing(e))
       case Ok(db) => s.(db := db,
                         workers := s.workers[t := w.(uploaded := false, pc := Stopped)],
                         history := s.history.(owed := s.history.owed + {KeyOf(t, w)})))
    case _ => s
  }

  /** A check, a deadline or a dependency fails between two recorded steps. */
  function FailStep(s: Sys, t: Token, error: Error): Sys
    requires t in s.workers
  {
    match s.workers[t].pc
    case Reading => Goto(s, t, Failing(error))
    case Transcribing => Goto(s, t, Failing(error))
    case CheckingModeration => Goto(s, t, Failing(error))
    case StartingModeration => Goto(s, t, Failing(error))
    case PreparingContent => Goto(s, t, Failing(error))
    case StartingReport => Goto(s, t, Failing(error))
    case Rendering => Goto(s, t, Failing(error))
    case Uploading => Goto(s, t, Failing(error))
    case _ => s
  }

  /** The catch block: an uploaded object becomes a cleanup task, and its first attempt begins. */
  function ScheduleCleanupStep(s: Sys, t: Token): Sys
    requires t in s.workers
  {
    var w := s.workers[t];
    match w.pc
    case Failing(error) =>
      var next := w.(uploaded := false, pc := if error.ClaimLost? then Stopped else Recovering(error));
      var key := KeyOf(t, w);
      if w.uploaded
      then s.(db := s.db.(tasks := s.db.tasks + {key}), sweeping := s.sweeping + {key}, workers := s.workers[t := next])
      else s.(workers := s.workers[t := next])
    case _ => s
  }

  function RecordFailure(history: History, r: ReportId, now: Time): History {
    history.(failures := history.failures[r := (if r in history.failures then history.failures[r] else []) + [now]])
  }

  /** Retry or fail for good; which one depends on the error and on the queue's attempt counter. */
  function RecoverStep(cfg: Config, s: Sys, t: Token, retry: bool): Sys
    requires t in s.workers
  {
    var w := s.workers[t];
    if !w.pc.Recovering? then s
    else if retry then
      match PrepareRetry(s.db, s.clock, w.generation, t)
      case None => Goto(s, t, Stopped)
      case Some(db) => Goto(s.(db := db), t, Stopped)
    else
      match FailGeneration(cfg, s.db, s.clock, w.generation, t)
      case Err(_) => Goto(s, t, Stopped)
      case Ok(db) =>
        Goto(s.(db := db, history := RecordFailure(s.history, s.db.generations[w.generation].report, s.clock)), t, Stopped)
  }

  function WorkerNext(cfg: Config, s: Sys, t: Token, step: WorkerStep): Sys
    requires t in s.workers
  {
    match step
    case Heartbeat => HeartbeatStep(cfg, s, t)
    case Crash => Goto(s, t, Stopped)
    case ReadGeneration => ReadStep(s, t)
    case Progress(advance) => ProgressStep(cfg, s, t, advance)
    case StartCall(id, audio) => StartCallStep(cfg, s, t, id, audio)
    case CheckCompleted => CheckStep(s, t)
    case FinishCall(content) => FinishCallStep(cfg, s, t, content)
    case CallFails(error) => CallFailsStep(s, t, error)
    case Abandon => AbandonStep(s, t)
    case Put(size) => PutStep(s, t, size)
    case PutFails => PutFailsStep(s, t)
    case Head(answered) => HeadStep(s, t, answered)
    case Publish => PublishStep(s, t)
    case Fail(error) => FailStep(s, t, error)
    case ScheduleCleanup => ScheduleCleanupStep(s, t)
    case Recover(retry) => RecoverStep(cfg, s, t, retry)
  }

  /** A queue delivery: a fresh token tries to claim; a delivery that does not claim ends at once. */
  function DeliverNext(cfg: Config, s: Sys, t: Token, g: GenerationId, lag: nat): Sys {
    if t in s.workers then s
    else
      var idle := Worker(g, 0, 0, s.clock + lag + cfg.jobTimeoutMs, false, false, Stopped);
      match Claim(cfg, s.db, s.clock, g, t)
      case None => s.(workers := s.workers[t := idle])
      case Some(db) => s.(db := db, workers := s.workers[t := idle.(pc := Reading)])
  }

  // ----- user steps -----

  function Commit(s: Sys, outcome: Outcome<Db>): Sys {
    match outcome
    case Ok(db) => s.(db := db)
    case Err(_) => s
  }

  function CreateReportNext(s: Sys, user: UserId, r: ReportId, title: string, notes: string): Sys {
    if r in s.history.failures then s
    else
      match Assets.CreateReport(s.db, r, user, title, notes)
      case Err(_) => s
      case Ok(db) => s.(db := db, history := s.history.(failures := s.history.failures[r := []]))
  }

  function ReadSourceNext(s: Sys, user: UserId, source: ReportId, r: ReportId): Sys {
    if r in s.duplicating then s
    else
      match Assets.ReadSource(s.db, user, source)
      case Err(_) => s
      case Ok(read) => s.(duplicating := s.duplicating[r := read])
  }

  function DuplicateNext(s: Sys, r: ReportId, copies: map<AssetId, Assets.Copy>, title: string): Sys {
    if r in s.history.failures || r !in s.duplicating then s
    else
      match Assets.Duplicate(s.db, s.clock, s.duplicating[r], r, copies, title)
      case Err(_) => s
      case Ok(db) => s.(db := db,
                        history := s.history.(failures := s.history.failures[r := []],
                                              owed := s.history.owed + set a | a in copies :: copies[a].storageKey))
  }

  ghost function RequestUploadNext(cfg: Config, s: Sys, user: UserId, r: ReportId, a: AssetId, nonce: nat, request: Assets.UploadRequest): Sys {
    var key := AssetKey(user, r, a, nonce);
    if key in s.history.owed then s
    else
    match Assets.RequestUpload(cfg, s.db, s.clock, user, r, a, key, request)
    case Err(_) => s
    case Ok(db) => s.(db := db, history := s.history.(owed := s.history.owed + {key}))
  }

  function WithdrawUploadNext(s: Sys, a: AssetId): Sys {
    if a in s.db.assets && s.db.assets[a].status.Pending?
    then s.(db := Assets.WithdrawUpload(s.db, a),
            history := s.history.(owed := s.history.owed - {s.db.assets[a].storageKey}))
    else s
  }

  /** inspected says that the stored object passes the tests of Verdicts; an upload that is refused is rejected by
      FinishRejection. */
  function ConfirmUploadNext(cfg: Config, s: Sys, user: UserId, r: ReportId, a: AssetId, inspected: bool): Sys {
    if !inspected || a !in s.db.assets || s.db.assets[a].storageKey !in s.objects then s
    else Commit(s, Assets.ConfirmUpload(cfg, s.db, s.clock, user, r, a, s.objects[s.db.assets[a].storageKey]))
  }

  function Enqueue(s: Sys, keys: set<StorageKey>): Sys {
    s.(db := s.db.(tasks := s.db.tasks + keys), sweeping := s.sweeping + keys)
  }

  ghost function StartNext(cfg: Config, s: Sys, user: UserId, r: ReportId, key: string, g: GenerationId, emailVerified: bool): Sys {
    if g in s.history.origins then s
    else
      match Generations.Start(cfg, s.db, s.clock, user, r, key, g, emailVerified)
      case Err(_) => s
      case Ok(db) =>
        if g in db.generations && g !in s.db.generations
        then s.(db := db, history := s.history.(origins := s.history.origins[g := Origin(user, r, key)]))
        else s
  }

  function CompensateNext(s: Sys, g: GenerationId): Sys {
    match Generations.Compensate(s.db, g)
    case Err(_) => s
    case Ok(db) =>
      if g in s.db.generations && g !in db.generations
      then s.(db := db, history := s.history.(compensated := s.history.compensated + {g}))
      else s
  }

  // ----- one step -----

  ghost function UploadNext(cfg: Config, s: Sys, a: UploadAction): Sys {
    match a
    case RequestUpload(user, r, asset, nonce, request) => RequestUploadNext(cfg, s, user, r, asset, nonce, request)
    case WithdrawUpload(asset) => WithdrawUploadNext(s, asset)
    case ConfirmUpload(user, r, asset, inspected) => ConfirmUploadNext(cfg, s, user, r, asset, inspected)
    case FinishRejection(asset) => s.(db := Assets.Reject(s.db, asset))
    case DeleteAsset(user, r, asset) => Commit(s, Assets.DeleteAsset(s.db, user, r, asset))
  }

  function ReportNext(s: Sys, a: ReportAction): Sys {
    match a
    case CreateReport(user, r, title, notes) => CreateReportNext(s, user, r, title, notes)
    case UpdateReport(user, r, title, notes) => Commit(s, Assets.UpdateReport(s.db, user, r, title, notes))
    case ReadSource(user, source, r) => ReadSourceNext(s, user, source, r)
    case DuplicateReport(r, copies, title) => DuplicateNext(s, r, copies, title)
  }

  ghost function StorageNext(s: Sys, a: StorageAction): Sys {
    match a
    case StoreAssetObject(key, size) => if key.AssetKey? then s.(objects := s.objects[key := size]) else s
    case RollBackCopies(copied) => if forall k | k in copied :: k.AssetKey? then Enqueue(s, copied) else s
    case EnqueueRejected(key) => if key.AssetKey? then Enqueue(s, {key}) else s
    case PickTask(key) => if key in s.db.tasks then s.(sweeping := s.sweeping + {key}) else s
    case DeleteObject(key) =>
      if key in s.sweeping
      then s.(objects := s.objects - {key}, sweeping := s.sweeping - {key}, swept := s.swept + {key},
              history := s.history.(deletedOnce := s.history.deletedOnce + {key}))
      else s
    case RemoveTask(key) =>
      if key in s.swept then s.(db := s.db.(tasks := s.db.tasks - {key}), swept := s.swept - {key}) else s
  }

  ghost function CreditNext(s: Sys, a: CreditAction): Sys {
    match a
    case AllocateMonthly(id, user, period, total, validFrom, expiresAt, now) =>
      Commit(s, Credits.AllocateMonthly(s.db, id, user, period, total, validFrom, expiresAt, now))
    case GrantByAdmin(id, user, amount, request, now) => Commit(s, Credits.GrantByAdmin(s.db, id, user, amount, request, now))
  }

  ghost function Next(cfg: Config, s: Sys, a: Action): Sys {
    match a
    case Tick(to) => if to >= s.clock then s.(clock := to) else s
    case OnUpload(upload) => UploadNext(cfg, s, upload)
    case OnReport(report) => ReportNext(s, report)
    case OnStorage(storage) => StorageNext(s, storage)
    case OnCredits(credits) => CreditNext(s, credits)
    case DeleteReport(user, r) => Commit(s, Assets.DeleteReport(s.db, user, r))
    case StartGeneration(user, r, key, g, emailVerified) => StartNext(cfg, s, user, r, key, g, emailVerified)
    case MarkEnqueued(g) => s.(db := Generations.MarkEnqueued(s.db, g))
    case Compensate(g) => CompensateNext(s, g)
    case CancelGeneration(user, r, g) => Commit(s, Generations.Cancel(s.db, user, r, g))
    case Deliver(t, g, lag) => DeliverNext(cfg, s, t, g, lag)
    case WorkerActs(t, step) => if t in s.workers then WorkerNext(cfg, s, t, step) else s
  }

  /** The state after a run. */
  ghost function After(cfg: Config, s: Sys, run: seq<Action>): Sys {
    if run == [] then s else Next(cfg, After(cfg, s, run[..|run| - 1]), run[|run| - 1])
  }

  lemma AfterStep(cfg: Config, s: Sys, run: seq<Action>, a: Action)
    ensures After(cfg, s, run + [a]) == Next(cfg, After(cfg, s, run), a)
  {
    assert (run + [a])[..|run|] == run;
  }

  lemma {:induction false} AfterConcat(cfg: Config, s: Sys, first: seq<Action>, second: seq<Action>)
    ensures After(cfg, s, first + second) == After(cfg, After(cfg, s, first), second)
  {
    if second == [] {
      assert first + second == first;
    } else {
      var n := |second| - 1;
      AfterConcat(cfg, s, first, second[..n]);
      assert (first + second)[..|first| + n] == first + second[..n];
    }
  }
}
