/** The actions that end, claim or begin a generation keep the invariant of the system. */
module EndingLaws {
  import opened Rows
  import opened Protocol
  import opened LockstepLaws
  import opened WorkLaws
  import opened CreditLaws
  import opened LedgerLaws
  import opened StorageLaws
  import opened TimeLaws
  import opened SnapshotLaws
  import opened SlotLaws
  import opened OutboxLaws
  import opened RunLaws
  import Processing
  import Generations
  import Credits
  import Throttle

  // ----- ending with a release -----

  /** One generation failed or was cancelled in mid, before its credit went back. */
  ghost predicate Ends(db: Db, mid: Db, g: GenerationId) {
    && MovesWithin(db, mid, g)
    && mid == db.(generations := mid.generations, reports := mid.reports)
    && (mid.generations[g].status.Failed? || mid.generations[g].status.Cancelled?)
  }

  lemma UnsettledWhileActive(s: Sys, g: GenerationId)
    requires LedgerFitsIn(s) && g in s.db.generations && Generations.Active(s.db.generations[g])
    ensures g in s.history.origins
    ensures ReserveKey(g) in s.db.ledger && ConsumeKey(g) !in s.db.ledger && ReleaseKey(g) !in s.db.ledger
  {
    assert Settled(s.db.generations, s.db.ledger.Keys, s.db.reports.Keys, s.history, g);
  }

  lemma SoundByKeys(db: Db, mid: Db)
    requires Sound(db) && mid.generations.Keys == db.generations.Keys && mid.grants == db.grants && mid.ledger == db.ledger
    ensures Sound(mid)
  {
  }

  lemma EndingKeepsLedger(s: Sys, mid: Db, g: GenerationId)
    requires LedgerFitsIn(s) && Sound(s.db) && Ends(s.db, mid, g) && Credits.Release(mid, g).Ok?
    ensures var db := Credits.Release(mid, g).value;
            && Sound(db)
            && LedgerFits(db.generations, db.ledger.Keys, db.reports.Keys, s.history)
            && db == mid.(grants := db.grants, ledger := db.ledger)
  {
    UnsettledWhileActive(s, g);
    EndingKeepsKeys(s.db, mid, g);
    SoundByKeys(s.db, mid);
    ReleaseSettles(mid, g);
    EndingSettles(s.db.generations, s.db.ledger.Keys, s.db.reports.Keys, s.history, mid.generations, g);
  }

  lemma EndingSettles(generations: map<GenerationId, Generation>, keys: set<LedgerKey>, reports: set<ReportId>, history: History,
                      generations': map<GenerationId, Generation>, g: GenerationId)
    requires LedgerFits(generations, keys, reports, history)
    requires g in generations && g in generations' && generations' == generations[g := generations'[g]]
    requires SameIdentity(generations[g], generations'[g]) && Generations.Active(generations[g])
    requires generations'[g].status.Failed? || generations'[g].status.Cancelled?
    ensures LedgerFits(generations', keys + {ReleaseKey(g)}, reports, history)
  {
    ReleaseKeepsLedger(generations, keys, reports, history, g, generations'[g]);
  }

  /** The release of a reservation that nothing settled yet. */
  lemma ReleaseSettles(db: Db, g: GenerationId)
    requires Sound(db) && g in db.generations && Credits.Release(db, g).Ok?
    requires ReserveKey(g) in db.ledger && ConsumeKey(g) !in db.ledger && ReleaseKey(g) !in db.ledger
    ensures var after := Credits.Release(db, g).value;
            && Sound(after)
            && after.ledger.Keys == db.ledger.Keys + {ReleaseKey(g)}
            && after == db.(grants := after.grants, ledger := after.ledger)
  {
    ReleaseConserves(db, g);
    ReleaseWrites(db, g);
  }

  lemma EndingKeepsKeys(db: Db, mid: Db, g: GenerationId)
    requires Ends(db, mid, g)
    ensures mid.generations.Keys == db.generations.Keys && mid.reports.Keys == db.reports.Keys
    ensures SameIdentity(db.generations[g], mid.generations[g]) && mid.generations == db.generations[g := mid.generations[g]]
  {
  }

  lemma EndingKeepsTables(cfg: Config, s: Sys, mid: Db, g: GenerationId)
    requires Lockstep(s.db.reports, s.db.outputs, s.db.generations) && Snapshots(s.db.reports, s.db.assets, s.db.generations)
    requires Rolling(cfg, s.db.generations, s.clock) && Ends(s.db, mid, g)
    ensures Lockstep(mid.reports, mid.outputs, mid.generations) && Snapshots(mid.reports, mid.assets, mid.generations)
    ensures Rolling(cfg, mid.generations, s.clock)
    ensures forall q, h | ActiveOf(mid.generations, q, h) :: ActiveOf(s.db.generations, q, h) && h != g
  {
    MoveKeepsLockstep(s.db, mid, g);
    MoveKeepsSnapshots(s.db, mid, g);
    SubsetKeepsRolling(cfg, s.db.generations, mid.generations, s.clock);
  }

  // ----- failGeneration -----

  lemma FailureEnds(cfg: Config, s: Sys, g: GenerationId, t: Token) returns (mid: Db)
    requires Lockstep(s.db.reports, s.db.outputs, s.db.generations)
    requires Processing.FailGeneration(cfg, s.db, s.clock, g, t).Ok?
    ensures g in s.db.generations && Ends(s.db, mid, g)
    ensures Credits.Release(mid, g) == Processing.FailGeneration(cfg, s.db, s.clock, g, t)
    ensures var r := s.db.generations[g].report;
            mid.reports == s.db.reports[r := mid.reports[r]]
            && mid.reports[r].throttle == Throttle.Fail(cfg.throttle, s.db.reports[r].throttle, s.clock)
  {
    ActiveIsNotReady(s.db, g);
    var row := s.db.generations[g];
    var report := s.db.reports[row.report];
    var failed := report.(status := ReportStatus.FAILED, throttle := Throttle.Fail(cfg.throttle, report.throttle, s.clock));
    mid := s.db.(generations := s.db.generations[g := row.(status := GenerationStatus.Failed, token := None, lease := None)],
                 reports := s.db.reports[row.report := failed]);
    assert GenerationFits(s.db.reports, s.db.outputs, s.db.generations, g);
  }

  lemma FailureKeepsInv(cfg: Config, s: Sys, t: Token)
    requires Inv(cfg, s) && t in s.workers
    ensures Inv(cfg, RecoverStep(cfg, s, t, false))
  {
    var w := s.workers[t];
    var g := w.generation;
    var after := RecoverStep(cfg, s, t, false);
    if !w.pc.Recovering? {
    } else if Processing.FailGeneration(cfg, s.db, s.clock, g, t).Err? {
      GiveUpKeepsInv(cfg, s, after, t);
    } else {
      var mid := FailureEnds(cfg, s, g, t);
      RecoverKeepsWork(cfg, s, t, false);
      FailedKeepsInv(cfg, s, after, t, mid);
    }
  }

  lemma FailedKeepsInv(cfg: Config, s: Sys, after: Sys, t: Token, mid: Db)
    requires Inv(cfg, s) && t in s.workers && WorkIn(after)
    requires var g := s.workers[t].generation;
             && Ends(s.db, mid, g) && Credits.Release(mid, g).Ok?
             && var r := s.db.generations[g].report;
             && mid.reports[r].throttle == Throttle.Fail(cfg.throttle, s.db.reports[r].throttle, s.clock)
             && after == s.(db := Credits.Release(mid, g).value, history := RecordFailure(s.history, r, s.clock),
                            workers := s.workers[t := s.workers[t].(pc := Stopped)])
    ensures Inv(cfg, after)
  {
    var g := s.workers[t].generation;
    EndingKeepsLedger(s, mid, g);
    EndingKeepsTables(cfg, s, mid, g);
    WorkerMoveKeepsStored(s, t, s.workers[t].(pc := Stopped));
    RecordedFailureKeepsThrottle(cfg, s, mid, g);
    HandOverKeepsOutbox(s, after);
    OtherHistoryKeepsLedger(after.db.generations, after.db.ledger.Keys, after.db.reports.Keys, s.history, after.db.ledger.Keys, after.history);
  }

  lemma RecordedFailureKeepsThrottle(cfg: Config, s: Sys, mid: Db, g: GenerationId)
    requires Lockstep(s.db.reports, s.db.outputs, s.db.generations) && Ends(s.db, mid, g)
    requires Throttled(cfg, s.db.reports, s.db.generations, s.history.failures, s.clock)
    requires forall q, h | ActiveOf(mid.generations, q, h) :: ActiveOf(s.db.generations, q, h) && h != g
    requires var r := s.db.generations[g].report;
             mid.reports[r].throttle == Throttle.Fail(cfg.throttle, s.db.reports[r].throttle, s.clock)
    ensures var history' := RecordFailure(s.history, s.db.generations[g].report, s.clock);
            && Throttled(cfg, mid.reports, mid.generations, history'.failures, s.clock)
            && history'.failures.Keys == s.history.failures.Keys
  {
    var r := s.db.generations[g].report;
    ActiveIsNotReady(s.db, g);
    assert ThrottleFits(cfg, s.db.reports, s.db.generations, s.history.failures, s.clock, r);
    FailureKeepsThrottle(cfg, s.db.reports, s.db.generations, s.history.failures, s.clock, r, g, mid.reports[r], mid.generations);
  }

  lemma RetryKeepsInv(cfg: Config, s: Sys, t: Token)
    requires Inv(cfg, s) && t in s.workers
    ensures Inv(cfg, RecoverStep(cfg, s, t, true))
  {
    var after := RecoverStep(cfg, s, t, true);
    var g := s.workers[t].generation;
    if after != s {
      if Processing.PrepareRetry(s.db, s.clock, g, t).Some? {
        RetryFrame(cfg, s, t);
        RecoverKeepsWork(cfg, s, t, true);
        FrameKeepsInv(cfg, s, after, t);
      } else {
        GiveUpKeepsInv(cfg, s, after, t);
      }
    }
  }

  lemma RetryFrame(cfg: Config, s: Sys, t: Token)
    requires Lockstep(s.db.reports, s.db.outputs, s.db.generations) && t in s.workers && s.workers[t].pc.Recovering?
    requires Processing.PrepareRetry(s.db, s.clock, s.workers[t].generation, t).Some?
    ensures var after := RecoverStep(cfg, s, t, true);
            StepFrame(s, after, t) && QuietFor(s.db, after.db, s.workers[t].generation) && after.db.attempts == s.db.attempts
  {
    RetryMoves(s.db, s.clock, s.workers[t].generation, t);
  }

  // ----- cancel -----

  lemma CancellationEnds(s: Sys, user: UserId, r: ReportId, g: GenerationId) returns (mid: Db)
    requires Lockstep(s.db.reports, s.db.outputs, s.db.generations)
    requires Generations.Cancel(s.db, user, r, g).Ok?
    ensures Ends(s.db, mid, g) && Credits.Release(mid, g) == Generations.Cancel(s.db, user, r, g)
    ensures mid.reports == s.db.reports[r := mid.reports[r]] && mid.reports[r].throttle == s.db.reports[r].throttle
    ensures s.db.generations[g].report == r
    ensures mid.generations[g].token.None? && mid.generations[g].structured == s.db.generations[g].structured
  {
    assert GenerationFits(s.db.reports, s.db.outputs, s.db.generations, g);
    var row := s.db.generations[g];
    mid := s.db.(generations := s.db.generations[g := row.(status := GenerationStatus.Cancelled)],
                 reports := s.db.reports[r := s.db.reports[r].(status := row.priorReportStatus)]);
  }

  lemma CancelKeepsInv(cfg: Config, s: Sys, user: UserId, r: ReportId, g: GenerationId)
    requires Inv(cfg, s)
    ensures Inv(cfg, Commit(s, Generations.Cancel(s.db, user, r, g)))
  {
    if Generations.Cancel(s.db, user, r, g).Ok? {
      var mid := CancellationEnds(s, user, r, g);
      EndedKeepsInv(cfg, s, mid, g);
    }
  }

  lemma EndedKeepsInv(cfg: Config, s: Sys, mid: Db, g: GenerationId)
    requires Inv(cfg, s) && Ends(s.db, mid, g) && Credits.Release(mid, g).Ok?
    requires mid.generations[g].token.None? && mid.generations[g].structured == s.db.generations[g].structured
    requires var r := s.db.generations[g].report; mid.reports[r].throttle == s.db.reports[r].throttle
    ensures Inv(cfg, s.(db := Credits.Release(mid, g).value))
  {
    EndingKeepsLedger(s, mid, g);
    EndingKeepsTables(cfg, s, mid, g);
    EndedKeepsWork(s, mid, g);
    EndedKeepsThrottle(cfg, s, mid, g);
  }

  lemma EndedKeepsWork(s: Sys, mid: Db, g: GenerationId)
    requires WorkIn(s) && Ends(s.db, mid, g)
    requires mid.generations[g].token.None? && mid.generations[g].structured == s.db.generations[g].structured
    ensures Work(mid.generations, mid.attempts, mid.outputs, s.workers)
  {
    OneRowFades(s.db, mid, g);
    FadingKeepsWork(s.db, mid, s.workers);
  }

  lemma EndedKeepsThrottle(cfg: Config, s: Sys, mid: Db, g: GenerationId)
    requires Lockstep(s.db.reports, s.db.outputs, s.db.generations) && Ends(s.db, mid, g)
    requires Throttled(cfg, s.db.reports, s.db.generations, s.history.failures, s.clock)
    requires forall q, h | ActiveOf(mid.generations, q, h) :: ActiveOf(s.db.generations, q, h) && h != g
    requires var r := s.db.generations[g].report; mid.reports[r].throttle == s.db.reports[r].throttle
    ensures Throttled(cfg, mid.reports, mid.generations, s.history.failures, s.clock)
  {
    ActiveIsNotReady(s.db, g);
    QuietChangeKeepsThrottle(cfg, s.db.reports, s.db.generations, s.history.failures, s.clock, mid.reports, mid.generations);
  }
}
