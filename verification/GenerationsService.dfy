/** ReportGenerationsService statement by statement, proved against the functions of Generations. */
module GenerationsService {
  import opened Rows
  import opened Tables
  import Generations
  import Credits
  import Throttle
  import CreditsService

  predicate Requested(generations: map<GenerationId, Generation>, user: UserId, r: ReportId, key: string) {
    exists h :: h in generations && Generations.SameRequest(generations[h], user, r, key)
  }

  /** The tests of the transaction of start, named by what their failure throws, in their order. */
  const TESTS: seq<Error> := [NotFound, Forbidden, GenerationActive, NotEditable, Locked, BadSources, RateLimited]

  /** The test of this name is passed. */
  predicate Passes(test: Error, cfg: Config, db: Db, now: Time, user: UserId, r: ReportId, emailVerified: bool) {
    match test
    case NotFound => r in db.reports && db.reports[r].user == user
    case Forbidden => emailVerified
    case GenerationActive => r in db.reports ==> !db.reports[r].status.QUEUED? && !db.reports[r].status.PROCESSING?
    case NotEditable => r in db.reports ==> !db.reports[r].status.READY?
    case Locked => r in db.reports ==> Throttle.Unlocked(db.reports[r].throttle, now)
    case BadSources => r in db.reports ==> Generations.SourcesValid(db.reports[r].notes, Generations.AssetsOf(db.assets, r))
    case RateLimited => Generations.WithinStartLimits(cfg, db.generations, user, now)
    case _ => true
  }

  /** The first test that is not passed is the k-th. */
  predicate FirstFailure(k: nat, cfg: Config, db: Db, now: Time, user: UserId, r: ReportId, emailVerified: bool)
    requires k < |TESTS|
  {
    && !Passes(TESTS[k], cfg, db, now, user, r, emailVerified)
    && forall j | 0 <= j < k :: Passes(TESTS[j], cfg, db, now, user, r, emailVerified)
  }

  predicate PassesAll(cfg: Config, db: Db, now: Time, user: UserId, r: ReportId, emailVerified: bool) {
    forall k | 0 <= k < |TESTS| :: Passes(TESTS[k], cfg, db, now, user, r, emailVerified)
  }

  lemma SevenTests()
    ensures |TESTS| == 7 && TESTS[0] == NotFound && TESTS[1] == Forbidden && TESTS[2] == GenerationActive && TESTS[3] == NotEditable
    ensures TESTS[4] == Locked && TESTS[5] == BadSources && TESTS[6] == RateLimited
  {
  }

  /** The transaction of start throws what its first failing test is named by, and gets past them exactly when there is
      none. */
  lemma StartThrowsFirstFailure(cfg: Config, db: Db, now: Time, user: UserId, r: ReportId, key: string, g: GenerationId, emailVerified: bool)
    requires !Requested(db.generations, user, r, key)
    ensures forall k | 0 <= k < |TESTS| && FirstFailure(k, cfg, db, now, user, r, emailVerified) ::
              Generations.Start(cfg, db, now, user, r, key, g, emailVerified) == Err(TESTS[k])
    ensures PassesAll(cfg, db, now, user, r, emailVerified) ==> r in db.reports
    ensures PassesAll(cfg, db, now, user, r, emailVerified) && r in db.reports ==>
              Generations.Start(cfg, db, now, user, r, key, g, emailVerified)
              == if !Creatable(db.generations, r, g) then Err(Constraint)
                 else match Credits.Reserve(db.(generations := db.generations[g := Fresh(db, now, user, r, key)]), now, user, g)
                      case Err(e) => Err(e)
                      case Ok(reserved) => Ok(reserved.(reports := db.reports[r := db.reports[r].(status := QUEUED)]))
  {
    SevenTests();
    if PassesAll(cfg, db, now, user, r, emailVerified) {
      assert Passes(TESTS[0], cfg, db, now, user, r, emailVerified) && Passes(TESTS[1], cfg, db, now, user, r, emailVerified);
      assert Passes(TESTS[2], cfg, db, now, user, r, emailVerified) && Passes(TESTS[3], cfg, db, now, user, r, emailVerified);
      assert Passes(TESTS[4], cfg, db, now, user, r, emailVerified) && Passes(TESTS[5], cfg, db, now, user, r, emailVerified);
      assert Passes(TESTS[6], cfg, db, now, user, r, emailVerified);
    }
  }

  /** What is thrown is the first test that fails, and nothing exactly when all are passed. */
  method Refusal(transaction: Prisma, cfg: Config, now: Time, user: UserId, r: ReportId, emailVerified: bool)
    returns (thrown: Option<Error>, ghost k: nat)
    ensures thrown.None? <==> PassesAll(cfg, transaction.Committed(), now, user, r, emailVerified)
    ensures thrown.Some? ==> k < |TESTS| && thrown.value == TESTS[k] && FirstFailure(k, cfg, transaction.Committed(), now, user, r, emailVerified)
  {
    SevenTests();
    if r !in transaction.reports || transaction.reports[r].user != user { return Some(NotFound), 0; }
    var report := transaction.reports[r];
    if !emailVerified { return Some(Forbidden), 1; }
    if report.status.PROCESSING? { return Some(GenerationActive), 2; }
    if report.status.QUEUED? { return Some(GenerationActive), 2; }
    if !report.status.DRAFT? && !report.status.FAILED? { return Some(NotEditable), 3; }
    if report.throttle.lockedUntil.Some? && report.throttle.lockedUntil.value > now { return Some(Locked), 4; }
    if !Generations.SourcesValid(report.notes, Generations.AssetsOf(transaction.assets, r)) { return Some(BadSources), 5; }
    var hourly := Generations.CreatedSince(transaction.generations, Some(user), now - cfg.startWindowMs);
    var daily := Generations.CreatedSince(transaction.generations, Some(user), now - DAY_MS);
    var globalDaily := Generations.CreatedSince(transaction.generations, None, now - DAY_MS);
    if |hourly| >= cfg.startLimit || |daily| >= cfg.dailyLimit || |globalDaily| >= cfg.globalDailyLimit { return Some(RateLimited), 6; }
    return None, 7;
  }

  /** create on the generations: the primary key and the index of one active generation per report. */
  predicate Creatable(generations: map<GenerationId, Generation>, r: ReportId, g: GenerationId) {
    g !in generations && !exists h :: h in generations && generations[h].report == r && Generations.Active(generations[h])
  }

  /** One attempt of the serializable transaction of start. */
  method StartOnce(prisma: Prisma, cfg: Config, now: Time, user: UserId, r: ReportId, key: string, g: GenerationId, emailVerified: bool)
    returns (thrown: Option<Error>)
    modifies prisma
    ensures Settles(old(prisma.Committed()), prisma.Committed(),
                    Generations.Start(cfg, old(prisma.Committed()), now, user, r, key, g, emailVerified), thrown)
  {
    var saved := prisma.Committed();
    if Requested(prisma.generations, user, r, key) { return None; }
    StartThrowsFirstFailure(cfg, saved, now, user, r, key, g, emailVerified);
    ghost var k;
    thrown, k := Refusal(prisma, cfg, now, user, r, emailVerified);
    if thrown.Some? { return; }
    assert Passes(TESTS[0], cfg, saved, now, user, r, emailVerified);
    if !Creatable(prisma.generations, r, g) { return Some(Constraint); }
    thrown := CreateReserved(prisma, now, user, r, key, g);
    if thrown.Some? { prisma.RollBack(saved); }
  }

  function Fresh(db: Db, now: Time, user: UserId, r: ReportId, key: string): Generation
    requires r in db.reports
  {
    var report := db.reports[r];
    Generation(r, user, key, GenerationStatus.Queued, None, None,
               Snapshot(report.title, report.notes, Generations.ReadyAssets(db.assets, r)), None, report.status, now, false)
  }

  method CreateReserved(transaction: Prisma, now: Time, user: UserId, r: ReportId, key: string, g: GenerationId) returns (thrown: Option<Error>)
    requires r in transaction.reports
    modifies transaction
    ensures var db := old(transaction.Committed()); var report := db.reports[r];
            match Credits.Reserve(db.(generations := db.generations[g := Fresh(db, now, user, r, key)]), now, user, g)
            case Ok(reserved) => thrown.None? && transaction.Committed() == reserved.(reports := db.reports[r := report.(status := QUEUED)])
            case Err(e) => thrown == Some(e)
  {
    transaction.generations := transaction.generations[g := Fresh(transaction.Committed(), now, user, r, key)];
    ghost var created := transaction.Committed();
    thrown := CreditsService.Reserve(transaction, now, user, g);
    if thrown.None? {
      ReserveKeepsReports(created, now, user, g);
      transaction.reports := transaction.reports[r := transaction.reports[r].(status := QUEUED)];
    }
  }

  lemma ReserveKeepsReports(db: Db, now: Time, user: UserId, g: GenerationId)
    requires Credits.Reserve(db, now, user, g).Ok?
    ensures Credits.Reserve(db, now, user, g).value.reports == db.reports
  {
  }

  const SERIALIZABLE_RETRY_LIMIT := 3

  /** start: the serializable transaction is tried up to three times under one generation id; conflicted says which
      tries the database aborts, and an aborted try leaves no trace. */
  method Start(prisma: Prisma, cfg: Config, now: Time, user: UserId, r: ReportId, key: string, g: GenerationId, emailVerified: bool,
               conflicted: seq<bool>) returns (thrown: Option<Error>)
    requires |conflicted| == SERIALIZABLE_RETRY_LIMIT
    modifies prisma
    ensures !Requested(old(prisma.generations), user, r, key) && (forall i | 0 <= i < |conflicted| :: conflicted[i]) ==>
              thrown == Some(SerializationFailure) && prisma.Committed() == old(prisma.Committed())
    ensures Requested(old(prisma.generations), user, r, key) || !(forall i | 0 <= i < |conflicted| :: conflicted[i]) ==>
              match Generations.Start(cfg, old(prisma.Committed()), now, user, r, key, g, emailVerified)
              case Ok(db) => thrown.None? && prisma.Committed() == db
              case Err(e) => thrown == Some(if e == Constraint then GenerationActive else e) && prisma.Committed() == old(prisma.Committed())
  {
    if Requested(prisma.generations, user, r, key) {
      StartOfKnown(cfg, prisma.Committed(), now, user, r, key, g, emailVerified);
      return None;
    }
    var attempt := 0;
    while attempt < SERIALIZABLE_RETRY_LIMIT
      invariant 0 <= attempt <= SERIALIZABLE_RETRY_LIMIT
      invariant prisma.Committed() == old(prisma.Committed())
      invariant forall i | 0 <= i < attempt :: conflicted[i]
    {
      if !conflicted[attempt] {
        thrown := StartOnce(prisma, cfg, now, user, r, key, g, emailVerified);
        if thrown == Some(Constraint) {
          if Requested(prisma.generations, user, r, key) { return None; }
          return Some(GenerationActive);
        }
        return;
      }
      attempt := attempt + 1;
    }
    return Some(SerializationFailure);
  }

  lemma StartOfKnown(cfg: Config, db: Db, now: Time, user: UserId, r: ReportId, key: string, g: GenerationId, emailVerified: bool)
    requires Requested(db.generations, user, r, key)
    ensures Generations.Start(cfg, db, now, user, r, key, g, emailVerified) == Ok(db)
  {
  }

  // ----- cancelling and compensating -----

  method Cancel(prisma: Prisma, user: UserId, r: ReportId, g: GenerationId) returns (thrown: Option<Error>)
    modifies prisma
    ensures Settles(old(prisma.Committed()), prisma.Committed(), Generations.Cancel(old(prisma.Committed()), user, r, g), thrown)
  {
    var saved := prisma.Committed();
    if g !in prisma.generations { return Some(NotCancellable); }
    var row := prisma.generations[g];
    if row.report != r || row.user != user || !row.status.Queued? { return Some(NotCancellable); }
    prisma.generations := prisma.generations[g := row.(status := GenerationStatus.Cancelled)];
    if r !in prisma.reports {
      prisma.RollBack(saved);
      return Some(NotFound);
    }
    prisma.reports := prisma.reports[r := prisma.reports[r].(status := row.priorReportStatus)];
    thrown := CreditsService.Release(prisma, g);
    if thrown.Some? { prisma.RollBack(saved); }
  }

  /** delete on the generations, with what the foreign keys cascade to or set to null. */
  method DeleteRow(transaction: Prisma, g: GenerationId)
    modifies transaction
    ensures transaction.Committed() == Generations.DeleteGenerations(old(transaction.Committed()), {g})
  {
    transaction.attempts := map id | id in transaction.attempts && transaction.attempts[id].generation != g :: transaction.attempts[id];
    transaction.outputs := map r | r in transaction.outputs && transaction.outputs[r].generation != g :: transaction.outputs[r];
    transaction.ledger := Credits.Detach(transaction.ledger, {g});
    transaction.generations := map h | h in transaction.generations && h != g :: transaction.generations[h];
  }

  method CompensateQueueFailure(prisma: Prisma, g: GenerationId) returns (thrown: Option<Error>)
    modifies prisma
    ensures Settles(old(prisma.Committed()), prisma.Committed(), Generations.Compensate(old(prisma.Committed()), g), thrown)
  {
    var saved := prisma.Committed();
    if g !in prisma.generations || !prisma.generations[g].status.Queued? { return None; }
    var row := prisma.generations[g];
    thrown := CreditsService.Release(prisma, g);
    if thrown.Some? {
      prisma.RollBack(saved);
      return;
    }
    ReleaseKeepsRows(saved, g);
    if row.report in prisma.reports && prisma.reports[row.report].status.QUEUED? {
      prisma.reports := prisma.reports[row.report := prisma.reports[row.report].(status := row.priorReportStatus)];
    }
    DeleteRow(prisma, g);
  }

  lemma ReleaseKeepsRows(db: Db, g: GenerationId)
    requires Credits.Release(db, g).Ok?
    ensures var released := Credits.Release(db, g).value; released == db.(grants := released.grants, ledger := released.ledger)
  {
  }

  /** ensureEnqueued: a queue that does not answer undoes the start; a failing undo and a failing mark are only logged. */
  method EnsureEnqueued(prisma: Prisma, g: GenerationId, queueAnswers: bool, marks: bool) returns (thrown: Option<Error>)
    requires g in prisma.generations
    modifies prisma
    ensures !old(prisma.generations)[g].status.Queued? || old(prisma.generations)[g].enqueued ==>
              thrown.None? && prisma.Committed() == old(prisma.Committed())
    ensures old(prisma.generations)[g].status.Queued? && !old(prisma.generations)[g].enqueued && queueAnswers ==>
              && thrown.None?
              && prisma.Committed() == if marks then Generations.MarkEnqueued(old(prisma.Committed()), g) else old(prisma.Committed())
    ensures old(prisma.generations)[g].status.Queued? && !old(prisma.generations)[g].enqueued && !queueAnswers ==>
              thrown.Some?
              && prisma.Committed() == match Generations.Compensate(old(prisma.Committed()), g)
                                       case Ok(db) => db
                                       case Err(_) => old(prisma.Committed())
  {
    var row := prisma.generations[g];
    if !row.status.Queued? || row.enqueued { return None; }
    if !queueAnswers {
      var failed := CompensateQueueFailure(prisma, g);
      return Some(Other);
    }
    if marks { prisma.generations := prisma.generations[g := row.(enqueued := true)]; }
    return None;
  }
}
