/** The transactions of ReportGenerationProcessorService statement by statement,
    proved against the functions of Processing. */
module ProcessorService {
  import opened Rows
  import opened Tables
  import Attempts
  import Processing
  import Throttle
  import AttemptsService
  import CreditsService

  method Claim(prisma: Prisma, cfg: Config, now: Time, g: GenerationId, token: Token) returns (claimed: bool)
    modifies prisma
    ensures match Processing.Claim(cfg, old(prisma.Committed()), now, g, token)
            case Some(db) => claimed && prisma.Committed() == db
            case None => !claimed && prisma.Committed() == old(prisma.Committed())
  {
    if g !in prisma.generations { return false; }
    var row := prisma.generations[g];
    var expired := row.status.Processing? && row.lease.Some? && row.lease.value < now;
    if !row.status.Queued? && !expired { return false; }
    prisma.generations := prisma.generations[g := row.(status := GenerationStatus.Processing, token := Some(token),
                                                       lease := Some(now + cfg.jobTimeoutMs))];
    UpdateReportStatus(prisma, row.report, {QUEUED, PROCESSING}, PROCESSING);
    return true;
  }

  method UpdateReportStatus(transaction: Prisma, r: ReportId, from: set<ReportStatus>, to: ReportStatus)
    modifies transaction`reports
    ensures transaction.reports == Processing.SetReportStatus(old(transaction.reports), r, from, to)
  {
    if r in transaction.reports && transaction.reports[r].status in from {
      transaction.reports := transaction.reports[r := transaction.reports[r].(status := to)];
    }
  }

  /** renewLease and updateProgress; the latter throws when no row changed. */
  method Renew(prisma: Prisma, cfg: Config, now: Time, g: GenerationId, token: Token) returns (renewed: bool)
    modifies prisma`generations
    ensures match Processing.Renew(cfg, old(prisma.Committed()), now, g, token)
            case Some(db) => renewed && prisma.Committed() == db
            case None => !renewed && prisma.Committed() == old(prisma.Committed())
  {
    if !Attempts.Owned(prisma.generations, now, g, token) { return false; }
    prisma.generations := prisma.generations[g := prisma.generations[g].(lease := Some(now + cfg.jobTimeoutMs))];
    return true;
  }

  method PersistReportResult(prisma: Prisma, cfg: Config, now: Time, g: GenerationId, token: Token, id: AttemptId, content: Content)
    returns (thrown: Option<Error>)
    modifies prisma
    ensures Settles(old(prisma.Committed()), prisma.Committed(),
                    Processing.PersistResult(cfg, old(prisma.Committed()), now, g, token, id, content), thrown)
  {
    if !Attempts.Owned(prisma.generations, now, g, token) { return Some(ClaimLost); }
    thrown := AttemptsService.Complete(prisma, now, id, token);
    if thrown.None? {
      prisma.generations := prisma.generations[g := prisma.generations[g].(structured := Some(content),
                                                                           lease := Some(now + cfg.jobTimeoutMs))];
    }
  }

  /** The output is created first; everything after it may still throw and take it away again. */
  method FinalizeSuccess(prisma: Prisma, now: Time, g: GenerationId, r: ReportId, user: UserId, token: Token,
                         key: StorageKey, size: nat) returns (thrown: Option<Error>)
    modifies prisma
    ensures Settles(old(prisma.Committed()), prisma.Committed(),
                    Processing.FinalizeSuccess(old(prisma.Committed()), now, g, r, user, token, key, size), thrown)
  {
    var saved := prisma.Committed();
    if !Attempts.Owned(prisma.generations, now, g, token) || prisma.generations[g].user != user { return Some(ClaimLost); }
    if !Processing.OutputInsertable(prisma.Committed(), r, Output(g, key, size)) { return Some(Constraint); }
    prisma.outputs := prisma.outputs[r := Output(g, key, size)];
    var row := prisma.generations[g];
    prisma.generations := prisma.generations[g := row.(status := GenerationStatus.Completed, token := None, lease := None)];
    if prisma.reports[r].user != user {
      prisma.RollBack(saved);
      return Some(NotFound);
    }
    prisma.reports := prisma.reports[r := prisma.reports[r].(status := READY, throttle := Throttle.CLEAR)];
    thrown := CreditsService.Consume(prisma, g);
    if thrown.Some? { prisma.RollBack(saved); }
  }

  method PrepareRetry(prisma: Prisma, now: Time, g: GenerationId, token: Token) returns (prepared: bool)
    modifies prisma
    ensures match Processing.PrepareRetry(old(prisma.Committed()), now, g, token)
            case Some(db) => prepared && prisma.Committed() == db
            case None => !prepared && prisma.Committed() == old(prisma.Committed())
  {
    if !Attempts.Owned(prisma.generations, now, g, token) { return false; }
    var row := prisma.generations[g];
    prisma.generations := prisma.generations[g := row.(status := GenerationStatus.Queued, token := None, lease := None)];
    UpdateReportStatus(prisma, row.report, {PROCESSING}, QUEUED);
    return true;
  }

  /** The columns of the failure throttle are computed from the row that was just read. */
  method FailGeneration(prisma: Prisma, cfg: Config, now: Time, g: GenerationId, token: Token) returns (thrown: Option<Error>)
    modifies prisma
    ensures Settles(old(prisma.Committed()), prisma.Committed(),
                    Processing.FailGeneration(cfg, old(prisma.Committed()), now, g, token), thrown)
  {
    var saved := prisma.Committed();
    if !Attempts.Owned(prisma.generations, now, g, token) { return Some(ClaimLost); }
    var row := prisma.generations[g];
    prisma.generations := prisma.generations[g := row.(status := GenerationStatus.Failed, token := None, lease := None)];
    if row.report !in prisma.reports {
      prisma.RollBack(saved);
      return Some(NotFound);
    }
    var report := prisma.reports[row.report];
    var throttle := NextThrottle(cfg.throttle, report.throttle, now);
    var status := ReportStatus.FAILED;
    if row.report in prisma.outputs { status := READY; }
    prisma.reports := prisma.reports[row.report := report.(status := status, throttle := throttle)];
    thrown := CreditsService.Release(prisma, g);
    if thrown.Some? { prisma.RollBack(saved); }
  }

  method NextThrottle(policy: ThrottlePolicy, read: ThrottleRecord, now: Time) returns (next: ThrottleRecord)
    ensures next == Throttle.Fail(policy, read, now)
  {
    var elapsed: Option<int> := None;
    if read.windowStart.Some? { elapsed := Some(now - read.windowStart.value); }
    var withinWindow := elapsed.Some? && elapsed.value >= 0 && elapsed.value <= policy.windowMs;
    var failures := 1;
    if withinWindow { failures := read.failures + 1; }
    var windowStart := Some(now);
    if withinWindow { windowStart := read.windowStart; }
    var lockedUntil: Option<Time> := None;
    if failures >= policy.limit { lockedUntil := Some(now + policy.lockMs); }
    next := ThrottleRecord(windowStart, failures, lockedUntil);
  }
}
