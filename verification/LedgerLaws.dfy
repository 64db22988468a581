/** How the ledger follows the life of each generation: an active generation has
    its reservation and nothing else, a completed one is consumed, every other one
    is released; and what follows for reports and for idempotency keys. */
module LedgerLaws {
  import opened Rows
  import opened Generations
  import opened LockstepLaws
  import opened CreditLaws
  import Credits
  import opened Protocol

  predicate OfGeneration(k: LedgerKey) {
    k.ReserveKey? || k.ConsumeKey? || k.ReleaseKey?
  }

  predicate Settlement(row: Generation, keys: set<LedgerKey>, g: GenerationId) {
    match row.status
    case Completed => ConsumeKey(g) in keys && ReleaseKey(g) !in keys
    case Failed => ConsumeKey(g) !in keys && ReleaseKey(g) in keys
    case Cancelled => ConsumeKey(g) !in keys && ReleaseKey(g) in keys
    case Queued => ConsumeKey(g) !in keys && ReleaseKey(g) !in keys
    case Processing => ConsumeKey(g) !in keys && ReleaseKey(g) !in keys
  }

  predicate MatchesOrigin(row: Generation, origin: Origin) {
    row.user == origin.user && row.report == origin.report && row.idempotencyKey == origin.idempotencyKey
  }

  /** The ledger keys of one generation that was ever started. */
  predicate Settled(generations: map<GenerationId, Generation>, keys: set<LedgerKey>, reports: set<ReportId>, history: History, g: GenerationId)
    requires g in history.origins
  {
    var origin := history.origins[g];
    && ReserveKey(g) in keys
    && origin.report in history.failures
    && (if g in generations then
          MatchesOrigin(generations[g], origin) && Settlement(generations[g], keys, g) && g !in history.compensated
        else
          && (ConsumeKey(g) in keys <==> ReleaseKey(g) !in keys)
          && (ConsumeKey(g) in keys ==> origin.report !in reports && g !in history.compensated))
  }

  ghost predicate OneCharge(keys: set<LedgerKey>, origins: map<GenerationId, Origin>) {
    forall g, h | g in origins && h in origins && ConsumeKey(g) in keys && ConsumeKey(h) in keys
                  && origins[g].report == origins[h].report :: g == h
  }

  ghost predicate OneReservation(keys: set<LedgerKey>, origins: map<GenerationId, Origin>) {
    forall g, h | g in origins && h in origins && ReleaseKey(g) !in keys && ReleaseKey(h) !in keys && origins[g] == origins[h] :: g == h
  }

  ghost predicate OneRow(generations: map<GenerationId, Generation>) {
    forall g, h | g in generations && h in generations
                  && SameRequest(generations[h], generations[g].user, generations[g].report, generations[g].idempotencyKey) :: g == h
  }

  ghost predicate LedgerFits(generations: map<GenerationId, Generation>, keys: set<LedgerKey>, reports: set<ReportId>, history: History) {
    && (forall g | g in history.origins :: Settled(generations, keys, reports, history, g))
    && generations.Keys <= history.origins.Keys
    && history.compensated <= history.origins.Keys
    && reports <= history.failures.Keys
    && (forall k | k in keys && OfGeneration(k) :: k.generation in history.origins)
    && OneCharge(keys, history.origins)
    && OneReservation(keys, history.origins)
    && OneRow(generations)
  }

  ghost predicate LedgerFitsIn(s: Sys) {
    LedgerFits(s.db.generations, s.db.ledger.Keys, s.db.reports.Keys, s.history)
  }

  // ----- moves that leave the ledger alone -----

  /** Nothing of interest here changed but columns of one generation that keeps its identity and its kind of status. */
  lemma QuietMoveKeepsLedger(generations: map<GenerationId, Generation>, keys: set<LedgerKey>, reports: set<ReportId>, history: History,
                             g: GenerationId, row: Generation)
    requires LedgerFits(generations, keys, reports, history) && g in generations
    requires SameIdentity(generations[g], row) && Active(generations[g]) && Active(row)
    ensures LedgerFits(generations[g := row], keys, reports, history)
  {
    forall h | h in history.origins ensures Settled(generations[g := row], keys, reports, history, h) {
      assert Settled(generations, keys, reports, history, h);
    }
  }

  // ----- moves that write a terminal row -----

  /** Publication: the generation completes and its reservation is consumed. */
  lemma ConsumptionKeepsLedger(generations: map<GenerationId, Generation>, keys: set<LedgerKey>, reports: set<ReportId>, history: History,
                               g: GenerationId, row: Generation)
    requires LedgerFits(generations, keys, reports, history) && g in generations
    requires SameIdentity(generations[g], row) && Active(generations[g]) && row.status.Completed?
    requires row.report in reports
    requires forall h | h in generations && generations[h].report == row.report :: !generations[h].status.Completed?
    ensures LedgerFits(generations[g := row], keys + {ConsumeKey(g)}, reports, history)
  {
    var keys' := keys + {ConsumeKey(g)};
    forall h | h in history.origins ensures Settled(generations[g := row], keys', reports, history, h) {
      assert Settled(generations, keys, reports, history, h);
    }
    forall h | h in history.origins && ConsumeKey(h) in keys ensures history.origins[h].report != row.report {
      assert Settled(generations, keys, reports, history, h);
    }
    assert Settled(generations, keys, reports, history, g);
    assert forall h :: ReleaseKey(h) in keys' <==> ReleaseKey(h) in keys;
  }

  /** Failure and cancellation: the generation ends and its reservation is released. */
  lemma ReleaseKeepsLedger(generations: map<GenerationId, Generation>, keys: set<LedgerKey>, reports: set<ReportId>, history: History,
                           g: GenerationId, row: Generation)
    requires LedgerFits(generations, keys, reports, history) && g in generations
    requires SameIdentity(generations[g], row) && Active(generations[g]) && (row.status.Failed? || row.status.Cancelled?)
    ensures LedgerFits(generations[g := row], keys + {ReleaseKey(g)}, reports, history)
  {
    var keys' := keys + {ReleaseKey(g)};
    forall h | h in history.origins ensures Settled(generations[g := row], keys', reports, history, h) {
      assert Settled(generations, keys, reports, history, h);
    }
    assert forall h :: ConsumeKey(h) in keys' <==> ConsumeKey(h) in keys;
    assert forall h :: ReleaseKey(h) in keys ==> ReleaseKey(h) in keys';
  }

  /** For an active generation a release really writes its row. */
  lemma ReleaseWrites(db: Db, g: GenerationId)
    requires Sound(db) && g in db.generations && Credits.Release(db, g).Ok?
    requires ReserveKey(g) in db.ledger && ConsumeKey(g) !in db.ledger && ReleaseKey(g) !in db.ledger
    ensures Credits.Release(db, g).value.ledger.Keys == db.ledger.Keys + {ReleaseKey(g)}
  {
    assert RowShape(db.generations.Keys, db.grants, db.ledger, ReserveKey(g));
    TerminalByKey(db, g);
  }

  /** For an active generation a consumption really writes its row. */
  lemma ConsumeWrites(db: Db, g: GenerationId)
    requires Sound(db) && g in db.generations && Credits.Consume(db, g).Ok?
    requires ReserveKey(g) in db.ledger && ConsumeKey(g) !in db.ledger && ReleaseKey(g) !in db.ledger
    ensures Credits.Consume(db, g).value.ledger.Keys == db.ledger.Keys + {ConsumeKey(g)}
  {
    TerminalByKey(db, g);
  }

  // ----- births and deaths -----

  function Born(history: History, g: GenerationId, row: Generation): History {
    history.(origins := history.origins[g := Origin(row.user, row.report, row.idempotencyKey)])
  }

  lemma StartKeepsLedger(generations: map<GenerationId, Generation>, keys: set<LedgerKey>, reports: set<ReportId>, history: History,
                         g: GenerationId, row: Generation)
    requires LedgerFits(generations, keys, reports, history) && g !in history.origins
    requires row.status.Queued? && row.report in reports
    requires forall h | h in generations :: !SameRequest(generations[h], row.user, row.report, row.idempotencyKey)
    ensures LedgerFits(generations[g := row], keys + {ReserveKey(g)}, reports, Born(history, g, row))
  {
    var keys' := keys + {ReserveKey(g)};
    var history' := Born(history, g, row);
    assert forall h :: ConsumeKey(h) in keys' <==> ConsumeKey(h) in keys;
    assert forall h :: ReleaseKey(h) in keys' <==> ReleaseKey(h) in keys;
    assert ConsumeKey(g) !in keys && ReleaseKey(g) !in keys;
    forall h | h in history'.origins ensures Settled(generations[g := row], keys', reports, history', h) {
      assert h != g ==> Settled(generations, keys, reports, history, h);
    }
    forall h | h in history.origins && ReleaseKey(h) !in keys ensures history.origins[h] != history'.origins[g] {
      assert Settled(generations, keys, reports, history, h);
    }
  }

  /** Compensation: a queued generation goes, released. */
  lemma CompensationKeepsLedger(generations: map<GenerationId, Generation>, keys: set<LedgerKey>, reports: set<ReportId>, history: History,
                                g: GenerationId, generations': map<GenerationId, Generation>)
    requires LedgerFits(generations, keys, reports, history) && g in generations && Active(generations[g])
    requires generations'.Keys == generations.Keys - {g}
    requires forall h | h in generations' :: generations'[h] == generations[h]
    ensures LedgerFits(generations', keys + {ReleaseKey(g)}, reports, history.(compensated := history.compensated + {g}))
  {
    var keys' := keys + {ReleaseKey(g)};
    var history' := history.(compensated := history.compensated + {g});
    assert forall h :: ConsumeKey(h) in keys' <==> ConsumeKey(h) in keys;
    assert forall h :: ReleaseKey(h) in keys ==> ReleaseKey(h) in keys';
    forall h | h in history'.origins ensures Settled(generations', keys', reports, history', h) {
      assert Settled(generations, keys, reports, history, h);
    }
  }

  /** A report without active generation goes with its generations. */
  lemma DeletionKeepsLedger(generations: map<GenerationId, Generation>, keys: set<LedgerKey>, reports: set<ReportId>, history: History,
                            r: ReportId, generations': map<GenerationId, Generation>)
    requires LedgerFits(generations, keys, reports, history)
    requires forall g | g in generations && generations[g].report == r :: !Active(generations[g])
    requires forall g :: g in generations' <==> g in generations && generations[g].report != r
    requires forall h | h in generations' :: generations'[h] == generations[h]
    ensures LedgerFits(generations', keys, reports - {r}, history)
  {
    forall h | h in history.origins ensures Settled(generations', keys, reports - {r}, history, h) {
      assert Settled(generations, keys, reports, history, h);
    }
  }

  /** A report with a fresh id. */
  lemma NewReportKeepsLedger(generations: map<GenerationId, Generation>, keys: set<LedgerKey>, reports: set<ReportId>, history: History,
                             r: ReportId, failures: map<ReportId, seq<Time>>)
    requires LedgerFits(generations, keys, reports, history) && r !in history.failures
    requires failures.Keys == history.failures.Keys + {r}
    ensures LedgerFits(generations, keys, reports + {r}, history.(failures := failures))
  {
    forall h | h in history.origins ensures Settled(generations, keys, reports + {r}, history.(failures := failures), h) {
      assert Settled(generations, keys, reports, history, h);
    }
  }

  /** Only the recorded failures, the storage keys or the rows of grants changed. */
  lemma OtherHistoryKeepsLedger(generations: map<GenerationId, Generation>, keys: set<LedgerKey>, reports: set<ReportId>, history: History,
                                keys': set<LedgerKey>, history': History)
    requires LedgerFits(generations, keys, reports, history)
    requires history'.origins == history.origins && history'.compensated == history.compensated
    requires history'.failures.Keys == history.failures.Keys
    requires forall k | OfGeneration(k) :: k in keys' <==> k in keys
    ensures LedgerFits(generations, keys', reports, history')
  {
    assert forall h :: ReserveKey(h) in keys' <==> ReserveKey(h) in keys;
    assert forall h :: ConsumeKey(h) in keys' <==> ConsumeKey(h) in keys;
    assert forall h :: ReleaseKey(h) in keys' <==> ReleaseKey(h) in keys;
    forall h | h in history.origins ensures Settled(generations, keys', reports, history', h) {
      assert Settled(generations, keys, reports, history, h);
    }
  }
}
