/** Starting a generation, and undoing a start that the queue did not take, keep
    the invariant of the system. */
module StartLaws {
  import opened Rows
  import opened Protocol
  import opened LockstepLaws
  import opened WorkLaws
  import opened CreditLaws
  import opened LedgerLaws
  import opened StorageLaws
  import opened BudgetLaws
  import opened TimeLaws
  import opened SnapshotLaws
  import opened SlotLaws
  import opened RunLaws
  import opened EndingLaws
  import Generations
  import Credits
  import Throttle
  import Lifecycle

  // ----- start -----

  /** Everything a start has checked about the row that it is about to insert. */
  ghost predicate Begins(cfg: Config, db: Db, now: Time, g: GenerationId, row: Generation) {
    && g !in db.generations && row.report in db.reports
    && var report := db.reports[row.report];
    && report.user == row.user && Lifecycle.Editable(report.status) && Throttle.Unlocked(report.throttle, now)
    && row.status.Queued? && row.token.None? && row.lease.None? && row.structured.None?
    && row.priorReportStatus == report.status && row.createdAt == now
    && row.snapshot == Snapshot(report.title, report.notes, Generations.ReadyAssets(db.assets, row.report))
    && AllReady(db.assets, row.report)
    && Generations.WithinStartLimits(cfg, db.generations, row.user, now)
    && forall h | h in db.generations :: !Generations.SameRequest(db.generations[h], row.user, row.report, row.idempotencyKey)
  }

  function Queue(db: Db, row: Generation): map<ReportId, Report>
    requires row.report in db.reports
  {
    db.reports[row.report := db.reports[row.report].(status := QUEUED)]
  }

  lemma StartBegins(cfg: Config, db: Db, now: Time, user: UserId, r: ReportId, key: string, g: GenerationId, emailVerified: bool)
    returns (row: Generation)
    requires g !in db.generations
    requires Generations.Start(cfg, db, now, user, r, key, g, emailVerified).Ok?
    requires g in Generations.Start(cfg, db, now, user, r, key, g, emailVerified).value.generations
    ensures Begins(cfg, db, now, g, row) && row.user == user && row.report == r && row.idempotencyKey == key
    ensures var reserved := Credits.Reserve(db.(generations := db.generations[g := row]), now, user, g);
            reserved.Ok? && Generations.Start(cfg, db, now, user, r, key, g, emailVerified)
                            == Ok(reserved.value.(reports := Queue(db, row)))
  {
    var report := db.reports[r];
    row := Generation(r, user, key, GenerationStatus.Queued, None, None,
                      Snapshot(report.title, report.notes, Generations.ReadyAssets(db.assets, r)),
                      None, report.status, now, false);
    assert AllReady(db.assets, r) by {
      forall a | a in db.assets && db.assets[a].report == r ensures db.assets[a].status.Uploaded? {
        assert a in Generations.AssetsOf(db.assets, r);
      }
    }
  }

  lemma BeginningKeepsTables(cfg: Config, s: Sys, g: GenerationId, row: Generation)
    requires Lockstep(s.db.reports, s.db.outputs, s.db.generations) && Snapshots(s.db.reports, s.db.assets, s.db.generations)
    requires Begins(cfg, s.db, s.clock, g, row)
    ensures Lockstep(Queue(s.db, row), s.db.outputs, s.db.generations[g := row])
    ensures Snapshots(Queue(s.db, row), s.db.assets, s.db.generations[g := row])
  {
    StartKeepsLockstep(s.db.reports, s.db.outputs, s.db.generations, g, row);
    var generations' := s.db.generations[g := row];
    forall h | h in generations' ensures SnapshotFits(Queue(s.db, row), s.db.assets, generations'[h]) {
      assert h != g ==> SnapshotFits(s.db.reports, s.db.assets, s.db.generations[h]);
    }
  }

  lemma BeginningKeepsTime(cfg: Config, s: Sys, g: GenerationId, row: Generation)
    requires Throttled(cfg, s.db.reports, s.db.generations, s.history.failures, s.clock) && Rolling(cfg, s.db.generations, s.clock)
    requires Begins(cfg, s.db, s.clock, g, row)
    ensures Throttled(cfg, Queue(s.db, row), s.db.generations[g := row], s.history.failures, s.clock)
    ensures Rolling(cfg, s.db.generations[g := row], s.clock)
  {
    var generations' := s.db.generations[g := row];
    assert forall r, h | ActiveOf(generations', r, h) && h != g :: ActiveOf(s.db.generations, r, h);
    QuietChangeKeepsThrottle(cfg, s.db.reports, s.db.generations, s.history.failures, s.clock, Queue(s.db, row), generations');
    StartKeepsRolling(cfg, s.db.generations, s.clock, g, row);
  }

  lemma BeginningKeepsWork(cfg: Config, s: Sys, g: GenerationId, row: Generation)
    requires WorkIn(s) && Begins(cfg, s.db, s.clock, g, row)
    ensures Work(s.db.generations[g := row], s.db.attempts, s.db.outputs, s.workers)
  {
    var after := s.db.(generations := s.db.generations[g := row]);
    forall id | id in s.db.attempts ensures s.db.attempts[id].generation != g {
      assert AttemptFits(s.db.generations, s.db.attempts, id);
    }
    OneRowFades(s.db, after, g);
    FadingKeepsWork(s.db, after, s.workers);
  }

  /** The first reservation of a generation really writes its row. */
  lemma ReserveWrites(db: Db, now: Time, user: UserId, g: GenerationId)
    requires ReserveKey(g) !in db.ledger && Credits.Reserve(db, now, user, g).Ok?
    ensures var after := Credits.Reserve(db, now, user, g).value;
            after.ledger.Keys == db.ledger.Keys + {ReserveKey(g)} && after == db.(grants := after.grants, ledger := after.ledger)
  {
  }

  lemma BeginningKeepsCredits(db: Db, now: Time, g: GenerationId, row: Generation)
    requires Sound(db) && ReserveKey(g) !in db.ledger
    requires Credits.Reserve(db.(generations := db.generations[g := row]), now, row.user, g).Ok?
    ensures var mid := db.(generations := db.generations[g := row]);
            var after := Credits.Reserve(mid, now, row.user, g).value;
            Sound(after) && after.ledger.Keys == db.ledger.Keys + {ReserveKey(g)} && after == mid.(grants := after.grants, ledger := after.ledger)
  {
    var mid := db.(generations := db.generations[g := row]);
    AttachConserves(db.generations.Keys, db.grants, db.ledger, g);
    assert mid.generations.Keys == db.generations.Keys + {g};
    ReserveConserves(mid, now, row.user, g);
    ReserveWrites(mid, now, row.user, g);
  }

  lemma BeginningKeepsRows(cfg: Config, s: Sys, g: GenerationId, row: Generation)
    requires Inv(cfg, s) && Begins(cfg, s.db, s.clock, g, row)
    ensures Lockstep(Queue(s.db, row), s.db.outputs, s.db.generations[g := row])
    ensures Snapshots(Queue(s.db, row), s.db.assets, s.db.generations[g := row])
    ensures Throttled(cfg, Queue(s.db, row), s.db.generations[g := row], s.history.failures, s.clock)
    ensures Rolling(cfg, s.db.generations[g := row], s.clock)
    ensures Work(s.db.generations[g := row], s.db.attempts, s.db.outputs, s.workers)
    ensures Queue(s.db, row).Keys == s.db.reports.Keys
  {
    BeginningKeepsTables(cfg, s, g, row);
    BeginningKeepsTime(cfg, s, g, row);
    BeginningKeepsWork(cfg, s, g, row);
  }

  lemma BeginningKeepsLedger(s: Sys, g: GenerationId, row: Generation)
    requires LedgerFitsIn(s) && g !in s.history.origins && row.status.Queued? && row.report in s.db.reports
    requires forall h | h in s.db.generations :: !Generations.SameRequest(s.db.generations[h], row.user, row.report, row.idempotencyKey)
    ensures LedgerFits(s.db.generations[g := row], s.db.ledger.Keys + {ReserveKey(g)}, s.db.reports.Keys, Born(s.history, g, row))
  {
    StartKeepsLedger(s.db.generations, s.db.ledger.Keys, s.db.reports.Keys, s.history, g, row);
  }

  lemma BegunKeepsInv(cfg: Config, s: Sys, after: Sys, g: GenerationId, row: Generation)
    requires Inv(cfg, s) && Begins(cfg, s.db, s.clock, g, row) && g !in s.history.origins
    requires Sound(after.db) && after.db.ledger.Keys == s.db.ledger.Keys + {ReserveKey(g)}
    requires after.db == s.db.(generations := s.db.generations[g := row], reports := Queue(s.db, row),
                               grants := after.db.grants, ledger := after.db.ledger)
    requires after == s.(db := after.db, history := Born(s.history, g, row))
    ensures Inv(cfg, after)
  {
    BeginningKeepsRows(cfg, s, g, row);
    BeginningKeepsLedger(s, g, row);
  }

  lemma StartKeepsInv(cfg: Config, s: Sys, user: UserId, r: ReportId, key: string, g: GenerationId, emailVerified: bool)
    requires Inv(cfg, s)
    ensures Inv(cfg, StartNext(cfg, s, user, r, key, g, emailVerified))
  {
    var after := StartNext(cfg, s, user, r, key, g, emailVerified);
    if after != s {
      var row := StartBegins(cfg, s.db, s.clock, user, r, key, g, emailVerified);
      UnknownIsUnreserved(s, g);
      BeginningKeepsCredits(s.db, s.clock, g, row);
      SoundWithOtherReports(s.db, after.db, g, row);
      BegunKeepsInv(cfg, s, after, g, row);
    }
  }

  lemma UnknownIsUnreserved(s: Sys, g: GenerationId)
    requires LedgerFitsIn(s) && g !in s.history.origins
    ensures ReserveKey(g) !in s.db.ledger && g !in s.db.generations
  {
    assert OfGeneration(ReserveKey(g));
  }

  lemma SoundWithOtherReports(db: Db, after: Db, g: GenerationId, row: Generation)
    requires Sound(after.(reports := db.reports))
    ensures Sound(after)
  {
  }

  lemma MarkEnqueuedKeepsInv(cfg: Config, s: Sys, g: GenerationId)
    requires Inv(cfg, s)
    ensures Inv(cfg, s.(db := Generations.MarkEnqueued(s.db, g)))
  {
    var db := Generations.MarkEnqueued(s.db, g);
    if db != s.db {
      MarkMoves(s.db, g);
      MarkKeepsWork(s, g);
      QuietStepKeepsInv(cfg, s, s.(db := db), g);
    }
  }

  lemma MarkKeepsWork(s: Sys, g: GenerationId)
    requires WorkIn(s)
    ensures WorkIn(s.(db := Generations.MarkEnqueued(s.db, g)))
  {
    var db := Generations.MarkEnqueued(s.db, g);
    if db != s.db {
      OneRowFades(s.db, db, g);
      FadingKeepsWork(s.db, db, s.workers);
    }
  }

  // ----- compensation -----

  /** The rows that stay when one generation goes. */
  lemma CompensationRows(db: Db, g: GenerationId)
    requires Lockstep(db.reports, db.outputs, db.generations)
    requires g in db.generations && db.generations[g].status.Queued? && Generations.Compensate(db, g).Ok?
    ensures var after := Generations.Compensate(db, g).value; var released := Credits.Release(db, g);
            var r := db.generations[g].report;
            && released.Ok?
            && after.generations.Keys == db.generations.Keys - {g}
            && (forall h | h in after.generations :: after.generations[h] == db.generations[h])
            && r in db.reports && after.reports == db.reports[r := db.reports[r].(status := db.generations[g].priorReportStatus)]
            && after.outputs == db.outputs
            && after.attempts == (map id | id in db.attempts && db.attempts[id].generation != g :: db.attempts[id])
            && after.grants == released.value.grants && after.ledger == Credits.Detach(released.value.ledger, {g})
            && after.assets == db.assets && after.tasks == db.tasks
  {
    assert GenerationFits(db.reports, db.outputs, db.generations, g);
    assert ReportFits(db.reports, db.outputs, db.generations, db.generations[g].report);
    var released := Credits.Release(db, g).value;
    assert released == db.(grants := released.grants, ledger := released.ledger);
    forall r | r in db.outputs ensures db.outputs[r].generation != g {
      assert OutputFits(db.reports, db.outputs, db.generations, r);
    }
  }

  /** What compensation leaves in the tables. */
  ghost predicate Undone(db: Db, after: Db, g: GenerationId) {
    && g in db.generations && db.generations[g].status.Queued?
    && var r := db.generations[g].report;
    && after.generations.Keys == db.generations.Keys - {g}
    && (forall h | h in after.generations :: after.generations[h] == db.generations[h])
    && r in db.reports && after.reports == db.reports[r := db.reports[r].(status := db.generations[g].priorReportStatus)]
    && after.outputs == db.outputs
    && after.attempts == (map id | id in db.attempts && db.attempts[id].generation != g :: db.attempts[id])
    && after.assets == db.assets && after.tasks == db.tasks
  }

  lemma UndoneKeepsTables(cfg: Config, s: Sys, after: Db, g: GenerationId)
    requires Lockstep(s.db.reports, s.db.outputs, s.db.generations) && Snapshots(s.db.reports, s.db.assets, s.db.generations)
    requires Undone(s.db, after, g)
    ensures Lockstep(after.reports, after.outputs, after.generations) && Snapshots(after.reports, after.assets, after.generations)
    ensures after.reports.Keys == s.db.reports.Keys
  {
    CompensationKeepsLockstep(s.db.reports, s.db.outputs, s.db.generations, g, after.reports, after.generations);
    GuardedChangeKeepsSnapshots(s.db.reports, s.db.assets, s.db.generations, after.reports, after.assets, after.generations);
  }

  lemma UndoneKeepsTime(cfg: Config, s: Sys, after: Db, g: GenerationId)
    requires Throttled(cfg, s.db.reports, s.db.generations, s.history.failures, s.clock) && Rolling(cfg, s.db.generations, s.clock)
    requires Lockstep(s.db.reports, s.db.outputs, s.db.generations) && Undone(s.db, after, g)
    ensures Throttled(cfg, after.reports, after.generations, s.history.failures, s.clock)
    ensures Rolling(cfg, after.generations, s.clock)
  {
    ActiveIsNotReady(s.db, g);
    assert forall r, h | ActiveOf(after.generations, r, h) :: ActiveOf(s.db.generations, r, h);
    QuietChangeKeepsThrottle(cfg, s.db.reports, s.db.generations, s.history.failures, s.clock, after.reports, after.generations);
    SubsetKeepsRolling(cfg, s.db.generations, after.generations, s.clock);
  }

  lemma UndoneRowsHaveGenerations(s: Sys, after: Db, g: GenerationId)
    requires WorkIn(s) && Lockstep(s.db.reports, s.db.outputs, s.db.generations) && Undone(s.db, after, g)
    ensures forall id | id in s.db.attempts :: s.db.attempts[id].generation in s.db.generations
    ensures forall r | r in s.db.outputs :: s.db.outputs[r].generation in after.generations
  {
    forall id | id in s.db.attempts ensures s.db.attempts[id].generation in s.db.generations {
      assert AttemptFits(s.db.generations, s.db.attempts, id);
    }
    forall r | r in s.db.outputs ensures s.db.outputs[r].generation in after.generations {
      assert OutputFits(s.db.reports, s.db.outputs, s.db.generations, r);
    }
  }

  lemma UndoneKeepsWork(cfg: Config, s: Sys, after: Db, g: GenerationId)
    requires WorkIn(s) && Budgeted(cfg, s.db.attempts)
    requires Lockstep(s.db.reports, s.db.outputs, s.db.generations) && Undone(s.db, after, g)
    ensures Work(after.generations, after.attempts, after.outputs, s.workers) && Budgeted(cfg, after.attempts)
  {
    UndoneRowsHaveGenerations(s, after, g);
    UndoneFades(s.db, after, g);
    FadingKeepsWork(s.db, after, s.workers);
    FadingKeepsBudget(cfg, s.db, after);
  }

  lemma UndoneFades(db: Db, after: Db, g: GenerationId)
    requires forall id | id in db.attempts :: db.attempts[id].generation in db.generations
    requires forall r | r in db.outputs :: db.outputs[r].generation in after.generations
    requires Undone(db, after, g)
    ensures Fades(db, after)
  {
  }

  lemma UndoneKeepsCredits(db: Db, g: GenerationId, after: Db)
    requires Sound(db) && g in db.generations && Credits.Release(db, g).Ok?
    requires ReserveKey(g) in db.ledger && ConsumeKey(g) !in db.ledger && ReleaseKey(g) !in db.ledger
    requires var released := Credits.Release(db, g).value;
             after.grants == released.grants && after.ledger == Credits.Detach(released.ledger, {g})
    requires after.generations.Keys == db.generations.Keys - {g}
    ensures Sound(after) && after.ledger.Keys == db.ledger.Keys + {ReleaseKey(g)}
  {
    ReleaseSettles(db, g);
    var released := Credits.Release(db, g).value;
    DetachConserves(db.generations.Keys, released.grants, released.ledger, {g});
  }

  lemma CompensateKeepsInv(cfg: Config, s: Sys, g: GenerationId)
    requires Inv(cfg, s)
    ensures Inv(cfg, CompensateNext(s, g))
  {
    var after := CompensateNext(s, g);
    if after != s {
      CompensationRows(s.db, g);
      UnsettledWhileActive(s, g);
      UndoneKeepsCredits(s.db, g, after.db);
      CompensatedKeepsInv(cfg, s, after, g);
    }
  }

  lemma CompensatedKeepsInv(cfg: Config, s: Sys, after: Sys, g: GenerationId)
    requires Inv(cfg, s) && Undone(s.db, after.db, g) && Sound(after.db)
    requires after.db.ledger.Keys == s.db.ledger.Keys + {ReleaseKey(g)}
    requires after == s.(db := after.db, history := s.history.(compensated := s.history.compensated + {g}))
    ensures Inv(cfg, after)
  {
    UndoneKeepsTables(cfg, s, after.db, g);
    UndoneKeepsTime(cfg, s, after.db, g);
    UndoneKeepsWork(cfg, s, after.db, g);
    CompensationKeepsLedger(s.db.generations, s.db.ledger.Keys, s.db.reports.Keys, s.history, g, after.db.generations);
  }

  // ----- a start undone -----

  lemma FreshReservation(db: Db, now: Time, user: UserId, g: GenerationId) returns (best: GrantId)
    requires ReserveKey(g) !in db.ledger && Credits.Reserve(db, now, user, g).Ok?
    ensures best in db.grants && db.grants[best].remaining > 0
    ensures Credits.Reserve(db, now, user, g).value
            == db.(grants := db.grants[best := db.grants[best].(remaining := db.grants[best].remaining - 1)],
                   ledger := db.ledger[ReserveKey(g) := Entry(user, Some(g), Some(best), RESERVE, 1)])
  {
    best := Credits.BestGrant(db.grants, user, now).value;
  }

  lemma FreshIsOpen(db: Db, now: Time, user: UserId, g: GenerationId)
    requires Sound(db) && g in db.generations && ReserveKey(g) !in db.ledger && Credits.Reserve(db, now, user, g).Ok?
    ensures ReleaseKey(g) !in db.ledger && ConsumeKey(g) !in db.ledger
    ensures Credits.FindTerminal(Credits.Reserve(db, now, user, g).value.ledger, g).None?
    ensures forall k | k in db.ledger :: db.ledger[k].generation != Some(g)
  {
    assert ReleaseKey(g) in db.ledger ==> RowShape(db.generations.Keys, db.grants, db.ledger, ReleaseKey(g));
    assert ConsumeKey(g) in db.ledger ==> RowShape(db.generations.Keys, db.grants, db.ledger, ConsumeKey(g));
    forall k | k in db.ledger ensures db.ledger[k].generation != Some(g) {
      assert RowShape(db.generations.Keys, db.grants, db.ledger, k);
    }
    var best := FreshReservation(db, now, user, g);
  }

  /** Releasing a fresh reservation always succeeds and gives its grant back the credit. */
  lemma ReserveThenRelease(db: Db, now: Time, user: UserId, g: GenerationId)
    requires Sound(db) && g in db.generations && ReserveKey(g) !in db.ledger && Credits.Reserve(db, now, user, g).Ok?
    ensures var released := Credits.Release(Credits.Reserve(db, now, user, g).value, g);
            && released.Ok? && released.value.grants == db.grants
            && released.value == db.(ledger := released.value.ledger)
            && released.value.ledger.Keys == db.ledger.Keys + {ReserveKey(g), ReleaseKey(g)}
            && forall k | k in db.ledger :: released.value.ledger[k] == db.ledger[k]
  {
    var best := FreshReservation(db, now, user, g);
    FreshIsOpen(db, now, user, g);
    ConservedMeansInRange(db.grants, db.ledger, best);
    ReleaseOf(db, g, best, user, Credits.Reserve(db, now, user, g).value);
  }

  lemma ReleaseOf(db: Db, g: GenerationId, best: GrantId, user: UserId, reserved: Db)
    requires g in db.generations && ReserveKey(g) !in db.ledger && ReleaseKey(g) !in db.ledger
    requires best in db.grants && 0 < db.grants[best].remaining <= db.grants[best].total
    requires reserved == db.(grants := db.grants[best := db.grants[best].(remaining := db.grants[best].remaining - 1)],
                             ledger := db.ledger[ReserveKey(g) := Entry(user, Some(g), Some(best), RESERVE, 1)])
    requires Credits.FindTerminal(reserved.ledger, g).None?
    requires forall k | k in db.ledger :: db.ledger[k].generation != Some(g)
    ensures Credits.Release(reserved, g)
            == Ok(db.(ledger := reserved.ledger[ReleaseKey(g) := Entry(user, Some(g), Some(best), RELEASE, 1)]))
  {
    assert reserved.grants[best := db.grants[best]] == db.grants;
  }

  /** A start that the queue refuses leaves nothing behind but two settled ledger rows: reports, generations,
      grants, attempts, outputs, assets and tasks are what they were. */
  lemma CompensationUndoesStart(cfg: Config, s: Sys, user: UserId, r: ReportId, key: string, g: GenerationId, emailVerified: bool)
    requires Inv(cfg, s) && g !in s.history.origins
    requires StartNext(cfg, s, user, r, key, g, emailVerified) != s
    ensures var undone := CompensateNext(StartNext(cfg, s, user, r, key, g, emailVerified), g);
            && undone.db == s.db.(ledger := undone.db.ledger)
            && undone.db.ledger.Keys == s.db.ledger.Keys + {ReserveKey(g), ReleaseKey(g)}
            && forall k | k in s.db.ledger :: undone.db.ledger[k] == s.db.ledger[k]
  {
    var started := StartNext(cfg, s, user, r, key, g, emailVerified);
    var row := StartBegins(cfg, s.db, s.clock, user, r, key, g, emailVerified);
    UnknownIsUnreserved(s, g);
    NothingPointsTo(s, g);
    UndoneIsRestored(cfg, s.db, s.clock, g, row, started.db);
  }

  lemma NothingPointsTo(s: Sys, g: GenerationId)
    requires WorkIn(s) && Sound(s.db) && g !in s.db.generations
    ensures forall id | id in s.db.attempts :: s.db.attempts[id].generation != g
    ensures forall q | q in s.db.outputs :: s.db.outputs[q].generation != g
    ensures forall k | k in s.db.ledger :: s.db.ledger[k].generation != Some(g)
  {
    forall id | id in s.db.attempts ensures s.db.attempts[id].generation != g {
      assert AttemptFits(s.db.generations, s.db.attempts, id);
    }
    forall q | q in s.db.outputs ensures s.db.outputs[q].generation != g {
      assert OutputIsPaid(s.db.generations, s.db.attempts, s.db.outputs[q]);
    }
    forall k | k in s.db.ledger ensures s.db.ledger[k].generation != Some(g) {
      assert RowShape(s.db.generations.Keys, s.db.grants, s.db.ledger, k);
    }
  }

  lemma UndoneIsRestored(cfg: Config, db: Db, now: Time, g: GenerationId, row: Generation, started: Db)
    requires Sound(db) && g !in db.generations && ReserveKey(g) !in db.ledger
    requires row.report in db.reports && row.status.Queued? && row.priorReportStatus == db.reports[row.report].status
    requires forall id | id in db.attempts :: db.attempts[id].generation != g
    requires forall q | q in db.outputs :: db.outputs[q].generation != g
    requires forall k | k in db.ledger :: db.ledger[k].generation != Some(g)
    requires var reserved := Credits.Reserve(db.(generations := db.generations[g := row]), now, row.user, g);
             reserved.Ok? && started == reserved.value.(reports := Queue(db, row))
    ensures var undone := Generations.Compensate(started, g);
            && undone.Ok? && undone.value == db.(ledger := undone.value.ledger)
            && undone.value.ledger.Keys == db.ledger.Keys + {ReserveKey(g), ReleaseKey(g)}
            && forall k | k in db.ledger :: undone.value.ledger[k] == db.ledger[k]
  {
    var mid := db.(generations := db.generations[g := row]);
    AttachConserves(db.generations.Keys, db.grants, db.ledger, g);
    assert mid.generations.Keys == db.generations.Keys + {g};
    ReserveThenRelease(mid, now, row.user, g);
    var reserved := Credits.Reserve(mid, now, row.user, g).value;
    ReleaseIgnoresReports(reserved, Queue(db, row), g);
    TablesReturn(db, g, row, started, Credits.Release(started, g).value);
  }

  lemma TablesReturn(db: Db, g: GenerationId, row: Generation, started: Db, released: Db)
    requires g !in db.generations && row.report in db.reports
    requires row.status.Queued? && row.priorReportStatus == db.reports[row.report].status
    requires forall id | id in db.attempts :: db.attempts[id].generation != g
    requires forall q | q in db.outputs :: db.outputs[q].generation != g
    requires forall k | k in db.ledger :: db.ledger[k].generation != Some(g)
    requires started.generations == db.generations[g := row] && started.reports == Queue(db, row)
    requires Credits.Release(started, g) == Ok(released)
    requires released == db.(generations := db.generations[g := row], ledger := released.ledger, reports := Queue(db, row))
    requires forall k | k in db.ledger :: k in released.ledger && released.ledger[k] == db.ledger[k]
    ensures var undone := Generations.Compensate(started, g);
            && undone.Ok? && undone.value == db.(ledger := undone.value.ledger)
            && undone.value.ledger.Keys == released.ledger.Keys
            && forall k | k in db.ledger :: undone.value.ledger[k] == db.ledger[k]
  {
    var undone := Generations.Compensate(started, g).value;
    assert undone.generations == db.generations;
    assert undone.attempts == db.attempts;
    assert undone.outputs == db.outputs;
    assert undone.reports == db.reports;
  }

  lemma ReleaseIgnoresReports(db: Db, reports: map<ReportId, Report>, g: GenerationId)
    requires Credits.Release(db, g).Ok?
    ensures Credits.Release(db.(reports := reports), g) == Ok(Credits.Release(db, g).value.(reports := reports))
  {
  }
}
