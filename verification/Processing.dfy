/** The transactions of a generation worker: ReportGenerationProcessorService. */
module Processing {
  import opened Rows
  import opened Attempts
  import Credits
  import Throttle

  predicate Claimable(generations: map<GenerationId, Generation>, now: Time, g: GenerationId) {
    && g in generations
    && (generations[g].status.Queued?
        || (generations[g].status.Processing? && generations[g].lease.Some? && generations[g].lease.value < now))
  }

  function SetReportStatus(reports: map<ReportId, Report>, r: ReportId, from: set<ReportStatus>, to: ReportStatus): map<ReportId, Report> {
    if r in reports && reports[r].status in from then reports[r := reports[r].(status := to)] else reports
  }

  function Claim(cfg: Config, db: Db, now: Time, g: GenerationId, token: Token): Option<Db> {
    if !Claimable(db.generations, now, g) then None
    else
      var row := db.generations[g];
      Some(db.(generations := db.generations[g := row.(status := GenerationStatus.Processing, token := Some(token),
                                                       lease := Some(now + cfg.jobTimeoutMs))],
               reports := SetReportStatus(db.reports, row.report, {QUEUED, PROCESSING}, PROCESSING)))
  }

  /** renewLease and, without its stage and progress columns, updateProgress. */
  function Renew(cfg: Config, db: Db, now: Time, g: GenerationId, token: Token): Option<Db> {
    if !Owned(db.generations, now, g, token) then None
    else Some(db.(generations := db.generations[g := db.generations[g].(lease := Some(now + cfg.jobTimeoutMs))]))
  }

  function PersistResult(cfg: Config, db: Db, now: Time, g: GenerationId, token: Token, id: AttemptId, content: Content): Outcome<Db> {
    if !Owned(db.generations, now, g, token) then Err(ClaimLost)
    else
      match CompleteAttempt(db, now, id, token)
      case Err(e) => Err(e)
      case Ok(completed) =>
        Ok(completed.(generations := db.generations[g := db.generations[g].(structured := Some(content),
                                                                            lease := Some(now + cfg.jobTimeoutMs))]))
  }

  /** Unique report, unique generation and unique storage key of an output. */
  predicate OutputInsertable(db: Db, r: ReportId, output: Output) {
    && r in db.reports && output.generation in db.generations
    && r !in db.outputs
    && forall h | h in db.outputs :: db.outputs[h].generation != output.generation && db.outputs[h].storageKey != output.storageKey
  }

  function FinalizeSuccess(db: Db, now: Time, g: GenerationId, r: ReportId, user: UserId, token: Token,
                           key: StorageKey, size: nat): Outcome<Db> {
    if !Owned(db.generations, now, g, token) || db.generations[g].user != user then Err(ClaimLost)
    else if !OutputInsertable(db, r, Output(g, key, size)) then Err(Constraint)
    else if db.reports[r].user != user then Err(NotFound)
    else
      var row := db.generations[g].(status := GenerationStatus.Completed, token := None, lease := None);
      var report := db.reports[r].(status := READY, throttle := Throttle.CLEAR);
      Credits.Consume(db.(outputs := db.outputs[r := Output(g, key, size)],
                          generations := db.generations[g := row],
                          reports := db.reports[r := report]), g)
  }

  function PrepareRetry(db: Db, now: Time, g: GenerationId, token: Token): Option<Db> {
    if !Owned(db.generations, now, g, token) then None
    else
      var row := db.generations[g];
      Some(db.(generations := db.generations[g := row.(status := GenerationStatus.Queued, token := None, lease := None)],
               reports := SetReportStatus(db.reports, row.report, {PROCESSING}, QUEUED)))
  }

  /** The status branch for a report that has an output is kept although no run reaches it. */
  function FailGeneration(cfg: Config, db: Db, now: Time, g: GenerationId, token: Token): Outcome<Db> {
    if !Owned(db.generations, now, g, token) then Err(ClaimLost)
    else
      var row := db.generations[g];
      if row.report !in db.reports then Err(NotFound)
      else
        var report := db.reports[row.report];
        var failed := report.(status := if row.report in db.outputs then READY else ReportStatus.FAILED,
                              throttle := Throttle.Fail(cfg.throttle, report.throttle, now));
        Credits.Release(db.(generations := db.generations[g := row.(status := GenerationStatus.Failed, token := None, lease := None)],
                            reports := db.reports[row.report := failed]), g)
  }

  datatype ProcessResult = Finished | Deferred(retryAt: Time)

  function ResultAfterClaimLoss(db: Db, now: Time, g: GenerationId): ProcessResult {
    if g !in db.generations || !db.generations[g].status.Processing? then Finished
    else
      var expiry := match db.generations[g].lease { case Some(t) => t case None => now };
      Deferred(if now + 1_000 >= expiry + 1_000 then now + 1_000 else expiry + 1_000)
  }
}
