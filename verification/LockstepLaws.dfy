/** Reports, generations and outputs move in lockstep: a report is QUEUED or
    PROCESSING exactly while one of its generations is, and READY exactly while
    it has the output of its one COMPLETED generation. */
module LockstepLaws {
  import opened Rows
  import opened Generations
  import opened Processing
  import Assets
  import Lifecycle

  predicate ActiveOf(generations: map<GenerationId, Generation>, r: ReportId, g: GenerationId) {
    g in generations && generations[g].report == r && Active(generations[g])
  }

  /** The report status that goes with the status of one of its generations. */
  predicate Matched(row: Generation, status: ReportStatus) {
    match row.status
    case Queued => status.QUEUED? && row.token.None? && row.lease.None?
    case Processing => status.PROCESSING? && row.token.Some? && row.lease.Some?
    case Completed => status.READY? && row.token.None?
    case Failed => row.token.None?
    case Cancelled => row.token.None?
  }

  predicate GenerationFits(reports: map<ReportId, Report>, outputs: map<ReportId, Output>,
                           generations: map<GenerationId, Generation>, g: GenerationId)
    requires g in generations
  {
    var row := generations[g];
    && row.report in reports && reports[row.report].user == row.user
    && Matched(row, reports[row.report].status)
    && Lifecycle.Editable(row.priorReportStatus)
    && (row.status.Completed? ==> row.report in outputs && outputs[row.report].generation == g)
  }

  ghost predicate ReportFits(reports: map<ReportId, Report>, outputs: map<ReportId, Output>,
                             generations: map<GenerationId, Generation>, r: ReportId)
    requires r in reports
  {
    && (reports[r].status.QUEUED? || reports[r].status.PROCESSING? ==> exists g :: ActiveOf(generations, r, g))
    && (reports[r].status.READY? <==> r in outputs)
  }

  predicate OutputFits(reports: map<ReportId, Report>, outputs: map<ReportId, Output>,
                       generations: map<GenerationId, Generation>, r: ReportId)
    requires r in outputs
  {
    && r in reports
    && outputs[r].generation in generations
    && generations[outputs[r].generation].report == r
    && generations[outputs[r].generation].status.Completed?
  }

  ghost predicate OneActive(generations: map<GenerationId, Generation>) {
    forall r, g, h | ActiveOf(generations, r, g) && ActiveOf(generations, r, h) :: g == h
  }

  ghost predicate Lockstep(reports: map<ReportId, Report>, outputs: map<ReportId, Output>, generations: map<GenerationId, Generation>) {
    && (forall g | g in generations :: GenerationFits(reports, outputs, generations, g))
    && (forall r | r in reports :: ReportFits(reports, outputs, generations, r))
    && (forall r | r in outputs :: OutputFits(reports, outputs, generations, r))
    && OneActive(generations)
  }

  // ----- what lockstep says -----

  /** The three machines agree, in both directions and with exactly one generation each time. */
  lemma StatusesAgree(reports: map<ReportId, Report>, outputs: map<ReportId, Output>, generations: map<GenerationId, Generation>,
                      r: ReportId)
    requires Lockstep(reports, outputs, generations) && r in reports
    ensures reports[r].status.QUEUED? <==> exists g :: ActiveOf(generations, r, g) && generations[g].status.Queued?
    ensures reports[r].status.PROCESSING? <==> exists g :: ActiveOf(generations, r, g) && generations[g].status.Processing?
    ensures reports[r].status.READY? <==> exists g :: g in generations && generations[g].report == r && generations[g].status.Completed?
    ensures reports[r].status.READY? <==> r in outputs
    ensures forall g, h | ActiveOf(generations, r, g) && ActiveOf(generations, r, h) :: g == h
    ensures forall g, h | g in generations && h in generations && generations[g].report == r && generations[h].report == r
                          && generations[g].status.Completed? && generations[h].status.Completed? :: g == h
  {
    assert ReportFits(reports, outputs, generations, r);
    assert r in outputs ==> OutputFits(reports, outputs, generations, r);
    forall g | g in generations && generations[g].report == r ensures GenerationFits(reports, outputs, generations, g) {}
  }

  // ----- one generation and its report move together -----

  predicate SameIdentity(before: Generation, after: Generation) {
    && before.report == after.report && before.user == after.user && before.idempotencyKey == after.idempotencyKey
    && before.snapshot == after.snapshot && before.priorReportStatus == after.priorReportStatus
    && before.createdAt == after.createdAt
  }

  /** The move of one active generation that most transactions make: its row and its report's row change, both
      keep what identifies them, and they end in statuses that go together. */
  ghost predicate Moves(db: Db, after: Db, g: GenerationId) {
    && g in db.generations && g in after.generations && Active(db.generations[g])
    && var r := db.generations[g].report;
    && r in db.reports && r in after.reports
    && after.generations == db.generations[g := after.generations[g]]
    && after.reports == db.reports[r := after.reports[r]]
    && SameIdentity(db.generations[g], after.generations[g])
    && after.reports[r].user == db.reports[r].user && after.reports[r].title == db.reports[r].title
    && after.reports[r].notes == db.reports[r].notes
    && Matched(after.generations[g], after.reports[r].status)
    && after.assets == db.assets
  }

  /** The moves that publish nothing. */
  ghost predicate MovesWithin(db: Db, after: Db, g: GenerationId) {
    && Moves(db, after, g)
    && after.outputs == db.outputs
    && !after.generations[g].status.Completed?
    && (Active(after.generations[g]) || Lifecycle.Editable(after.reports[db.generations[g].report].status))
  }

  lemma MoveKeepsLockstep(db: Db, after: Db, g: GenerationId)
    requires Lockstep(db.reports, db.outputs, db.generations) && MovesWithin(db, after, g)
    ensures Lockstep(after.reports, after.outputs, after.generations)
  {
    var r := db.generations[g].report;
    assert GenerationFits(db.reports, db.outputs, db.generations, g);
    assert ReportFits(db.reports, db.outputs, db.generations, r);
    assert ActiveOf(db.generations, r, g);
    forall h | h in after.generations ensures GenerationFits(after.reports, after.outputs, after.generations, h) {
      assert GenerationFits(db.reports, db.outputs, db.generations, h);
      assert h != g && db.generations[h].report == r ==> !ActiveOf(db.generations, r, h);
    }
    forall q | q in after.reports ensures ReportFits(after.reports, after.outputs, after.generations, q) {
      assert ReportFits(db.reports, db.outputs, db.generations, q);
      if q == r {
        assert Active(after.generations[g]) ==> ActiveOf(after.generations, r, g);
      } else if exists h :: ActiveOf(db.generations, q, h) {
        var h :| ActiveOf(db.generations, q, h);
        assert ActiveOf(after.generations, q, h);
      }
    }
    forall q | q in after.outputs ensures OutputFits(after.reports, after.outputs, after.generations, q) {
      assert OutputFits(db.reports, db.outputs, db.generations, q);
    }
    forall q, h, i | ActiveOf(after.generations, q, h) && ActiveOf(after.generations, q, i) ensures h == i {
      assert ActiveOf(db.generations, q, h) && ActiveOf(db.generations, q, i);
    }
  }

  // ----- which transactions are such moves -----

  lemma ClaimMoves(cfg: Config, db: Db, now: Time, g: GenerationId, token: Token)
    requires Lockstep(db.reports, db.outputs, db.generations) && Claim(cfg, db, now, g, token).Some?
    ensures MovesWithin(db, Claim(cfg, db, now, g, token).value, g)
  {
    assert GenerationFits(db.reports, db.outputs, db.generations, g);
  }

  lemma RenewMoves(cfg: Config, db: Db, now: Time, g: GenerationId, token: Token)
    requires Lockstep(db.reports, db.outputs, db.generations) && Renew(cfg, db, now, g, token).Some?
    ensures MovesWithin(db, Renew(cfg, db, now, g, token).value, g)
  {
    assert GenerationFits(db.reports, db.outputs, db.generations, g);
  }

  lemma PersistMoves(cfg: Config, db: Db, now: Time, g: GenerationId, token: Token, id: AttemptId, content: Content)
    requires Lockstep(db.reports, db.outputs, db.generations) && PersistResult(cfg, db, now, g, token, id, content).Ok?
    ensures MovesWithin(db, PersistResult(cfg, db, now, g, token, id, content).value, g)
  {
    assert GenerationFits(db.reports, db.outputs, db.generations, g);
  }

  lemma RetryMoves(db: Db, now: Time, g: GenerationId, token: Token)
    requires Lockstep(db.reports, db.outputs, db.generations) && PrepareRetry(db, now, g, token).Some?
    ensures MovesWithin(db, PrepareRetry(db, now, g, token).value, g)
  {
    assert GenerationFits(db.reports, db.outputs, db.generations, g);
  }

  lemma MarkMoves(db: Db, g: GenerationId)
    requires Lockstep(db.reports, db.outputs, db.generations) && MarkEnqueued(db, g) != db
    ensures MovesWithin(db, MarkEnqueued(db, g), g)
  {
    assert GenerationFits(db.reports, db.outputs, db.generations, g);
  }

  lemma PublicationKeepsLockstep(db: Db, after: Db, g: GenerationId)
    requires Lockstep(db.reports, db.outputs, db.generations) && Moves(db, after, g)
    requires after.generations[g].status.Completed?
    requires var r := db.generations[g].report;
             r in after.outputs && after.outputs == db.outputs[r := after.outputs[r]] && after.outputs[r].generation == g
    ensures Lockstep(after.reports, after.outputs, after.generations)
  {
    var r := db.generations[g].report;
    assert GenerationFits(db.reports, db.outputs, db.generations, g);
    assert ReportFits(db.reports, db.outputs, db.generations, r);
    assert ActiveOf(db.generations, r, g);
    forall h | h in after.generations ensures GenerationFits(after.reports, after.outputs, after.generations, h) {
      assert GenerationFits(db.reports, db.outputs, db.generations, h);
      assert h != g && db.generations[h].report == r ==> !ActiveOf(db.generations, r, h);
    }
    forall q | q in after.reports ensures ReportFits(after.reports, after.outputs, after.generations, q) {
      assert ReportFits(db.reports, db.outputs, db.generations, q);
      if q != r && exists h :: ActiveOf(db.generations, q, h) {
        var h :| ActiveOf(db.generations, q, h);
        assert ActiveOf(after.generations, q, h);
      }
    }
    forall q | q in after.outputs ensures OutputFits(after.reports, after.outputs, after.generations, q) {
      assert q != r ==> OutputFits(db.reports, db.outputs, db.generations, q);
    }
    forall q, h, i | ActiveOf(after.generations, q, h) && ActiveOf(after.generations, q, i) ensures h == i {
      assert ActiveOf(db.generations, q, h) && ActiveOf(db.generations, q, i);
    }
  }

  // ----- the other transactions on these tables -----

  /** A new queued generation of a report that had no active one. */
  lemma StartKeepsLockstep(reports: map<ReportId, Report>, outputs: map<ReportId, Output>, generations: map<GenerationId, Generation>,
                           g: GenerationId, row: Generation)
    requires Lockstep(reports, outputs, generations) && g !in generations
    requires row.report in reports && reports[row.report].user == row.user && Lifecycle.Editable(reports[row.report].status)
    requires row.priorReportStatus == reports[row.report].status
    requires row.status.Queued? && row.token.None? && row.lease.None?
    ensures Lockstep(reports[row.report := reports[row.report].(status := QUEUED)], outputs, generations[g := row])
  {
    var r := row.report;
    var reports' := reports[r := reports[r].(status := QUEUED)];
    var generations' := generations[g := row];
    assert ReportFits(reports, outputs, generations, r);
    forall h | h in generations' ensures GenerationFits(reports', outputs, generations', h) {
      assert h != g ==> GenerationFits(reports, outputs, generations, h);
    }
    forall q | q in reports' ensures ReportFits(reports', outputs, generations', q) {
      assert ReportFits(reports, outputs, generations, q);
      if q == r {
        assert ActiveOf(generations', r, g);
      } else if exists h :: ActiveOf(generations, q, h) {
        var h :| ActiveOf(generations, q, h);
        assert ActiveOf(generations', q, h);
      }
    }
    forall q | q in outputs ensures OutputFits(reports', outputs, generations', q) {
      assert OutputFits(reports, outputs, generations, q);
    }
    forall q, h, i | ActiveOf(generations', q, h) && ActiveOf(generations', q, i) ensures h == i {
      assert h != g ==> GenerationFits(reports, outputs, generations, h);
      assert i != g ==> GenerationFits(reports, outputs, generations, i);
      assert h != g && i != g ==> ActiveOf(generations, q, h) && ActiveOf(generations, q, i);
    }
  }

  /** A queued generation goes and its report returns to where it was. */
  lemma CompensationKeepsLockstep(reports: map<ReportId, Report>, outputs: map<ReportId, Output>,
                                  generations: map<GenerationId, Generation>, g: GenerationId,
                                  reports': map<ReportId, Report>, generations': map<GenerationId, Generation>)
    requires Lockstep(reports, outputs, generations) && g in generations && generations[g].status.Queued?
    requires var r := generations[g].report;
             r in reports && reports' == reports[r := reports[r].(status := generations[g].priorReportStatus)]
    requires generations'.Keys == generations.Keys - {g}
    requires forall h | h in generations' :: generations'[h] == generations[h]
    ensures Lockstep(reports', outputs, generations')
  {
    var r := generations[g].report;
    assert GenerationFits(reports, outputs, generations, g);
    assert ReportFits(reports, outputs, generations, r);
    assert ActiveOf(generations, r, g);
    forall h | h in generations' ensures GenerationFits(reports', outputs, generations', h) {
      assert GenerationFits(reports, outputs, generations, h);
      assert generations[h].report == r ==> !ActiveOf(generations, r, h);
    }
    forall q | q in reports' ensures ReportFits(reports', outputs, generations', q) {
      assert ReportFits(reports, outputs, generations, q);
      if q != r && exists h :: ActiveOf(generations, q, h) {
        var h :| ActiveOf(generations, q, h);
        assert ActiveOf(generations', q, h);
      }
    }
    forall q | q in outputs ensures OutputFits(reports', outputs, generations', q) {
      assert OutputFits(reports, outputs, generations, q);
    }
    forall q, h, i | ActiveOf(generations', q, h) && ActiveOf(generations', q, i) ensures h == i {
      assert ActiveOf(generations, q, h) && ActiveOf(generations, q, i);
    }
  }

  /** A new draft, or new title and notes. */
  lemma DraftKeepsLockstep(reports: map<ReportId, Report>, outputs: map<ReportId, Output>, generations: map<GenerationId, Generation>,
                           r: ReportId, report: Report)
    requires Lockstep(reports, outputs, generations)
    requires if r in reports then report.status == reports[r].status && report.user == reports[r].user else report.status.DRAFT?
    ensures Lockstep(reports[r := report], outputs, generations)
  {
    var reports' := reports[r := report];
    forall h | h in generations ensures GenerationFits(reports', outputs, generations, h) {
      assert GenerationFits(reports, outputs, generations, h);
    }
    forall q | q in reports' ensures ReportFits(reports', outputs, generations, q) {
      assert q in reports ==> ReportFits(reports, outputs, generations, q);
      assert q in outputs ==> OutputFits(reports, outputs, generations, q);
    }
    forall q | q in outputs ensures OutputFits(reports', outputs, generations, q) {
      assert OutputFits(reports, outputs, generations, q);
    }
  }

  /** A report goes with its generations and its output. */
  lemma DeletionKeepsLockstep(db: Db, user: UserId, r: ReportId)
    requires Lockstep(db.reports, db.outputs, db.generations) && Assets.DeleteReport(db, user, r).Ok?
    ensures var after := Assets.DeleteReport(db, user, r).value;
            && Lockstep(after.reports, after.outputs, after.generations)
            && (forall h | h in db.outputs && h != r :: h in after.outputs && after.outputs[h] == db.outputs[h])
  {
    var after := Assets.DeleteReport(db, user, r).value;
    forall q | q in db.outputs && q != r ensures q in after.outputs && after.outputs[q] == db.outputs[q] {
      assert OutputFits(db.reports, db.outputs, db.generations, q);
    }
    forall h | h in after.generations ensures GenerationFits(after.reports, after.outputs, after.generations, h) {
      assert GenerationFits(db.reports, db.outputs, db.generations, h);
    }
    forall q | q in after.reports ensures ReportFits(after.reports, after.outputs, after.generations, q) {
      assert ReportFits(db.reports, db.outputs, db.generations, q);
      if exists h :: ActiveOf(db.generations, q, h) {
        var h :| ActiveOf(db.generations, q, h);
        assert ActiveOf(after.generations, q, h);
      }
    }
    forall q | q in after.outputs ensures OutputFits(after.reports, after.outputs, after.generations, q) {
      assert OutputFits(db.reports, db.outputs, db.generations, q);
    }
    forall q, h, i | ActiveOf(after.generations, q, h) && ActiveOf(after.generations, q, i) ensures h == i {
      assert ActiveOf(db.generations, q, h) && ActiveOf(db.generations, q, i);
    }
  }
}
