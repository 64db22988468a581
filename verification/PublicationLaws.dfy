/** Publication and delivery keep the invariant of the system. */
module PublicationLaws {
  import opened Rows
  import opened Protocol
  import opened LockstepLaws
  import opened WorkLaws
  import opened CreditLaws
  import opened LedgerLaws
  import opened StorageLaws
  import opened TimeLaws
  import opened SnapshotLaws
  import opened SlotLaws
  import opened OutboxLaws
  import opened RunLaws
  import opened EndingLaws
  import Attempts
  import Processing
  import Generations
  import Credits
  import Throttle

  /** The rows of a publication, before its reservation is consumed. */
  ghost predicate Publishes(db: Db, mid: Db, g: GenerationId, key: StorageKey, size: nat) {
    && Moves(db, mid, g)
    && mid == db.(generations := mid.generations, reports := mid.reports, outputs := mid.outputs)
    && mid.generations[g].status.Completed? && mid.generations[g].token.None?
    && mid.generations[g].structured == db.generations[g].structured
    && var r := db.generations[g].report;
    && r !in db.outputs && mid.outputs == db.outputs[r := Output(g, key, size)]
    && mid.reports[r].status.READY? && mid.reports[r].throttle == Throttle.CLEAR
  }

  lemma FinalizationPublishes(s: Sys, t: Token) returns (mid: Db)
    requires Lockstep(s.db.reports, s.db.outputs, s.db.generations) && WorkIn(s)
    requires t in s.workers && s.workers[t].pc.Publishing?
    requires var w := s.workers[t];
             Processing.FinalizeSuccess(s.db, s.clock, w.generation, w.report, w.user, t, KeyOf(t, w), w.pc.size).Ok?
    ensures var w := s.workers[t];
            && Publishes(s.db, mid, w.generation, KeyOf(t, w), w.pc.size)
            && Credits.Consume(mid, w.generation)
               == Processing.FinalizeSuccess(s.db, s.clock, w.generation, w.report, w.user, t, KeyOf(t, w), w.pc.size)
  {
    var w := s.workers[t];
    PublisherKnows(s, t);
    mid := FinalizationRows(s.db, s.clock, w.generation, w.report, w.user, t, KeyOf(t, w), w.pc.size);
  }

  lemma PublisherKnows(s: Sys, t: Token)
    requires WorkIn(s) && t in s.workers && s.workers[t].pc.Publishing?
    requires Attempts.Owned(s.db.generations, s.clock, s.workers[t].generation, t)
    ensures s.workers[t].report == s.db.generations[s.workers[t].generation].report
  {
    assert WorkerFits(s.db.generations, s.db.attempts, s.workers, t);
  }

  lemma FinalizationRows(db: Db, now: Time, g: GenerationId, r: ReportId, user: UserId, token: Token, key: StorageKey, size: nat)
    returns (mid: Db)
    requires Lockstep(db.reports, db.outputs, db.generations)
    requires Processing.FinalizeSuccess(db, now, g, r, user, token, key, size).Ok? && r == db.generations[g].report
    ensures Publishes(db, mid, g, key, size)
    ensures Credits.Consume(mid, g) == Processing.FinalizeSuccess(db, now, g, r, user, token, key, size)
  {
    mid := db.(outputs := db.outputs[r := Output(g, key, size)],
               generations := db.generations[g := db.generations[g].(status := GenerationStatus.Completed, token := None, lease := None)],
               reports := db.reports[r := db.reports[r].(status := READY, throttle := Throttle.CLEAR)]);
  }

  lemma PublicationKeepsTables(cfg: Config, s: Sys, mid: Db, g: GenerationId, key: StorageKey, size: nat)
    requires Lockstep(s.db.reports, s.db.outputs, s.db.generations) && Snapshots(s.db.reports, s.db.assets, s.db.generations)
    requires Publishes(s.db, mid, g, key, size)
    ensures Lockstep(mid.reports, mid.outputs, mid.generations) && Snapshots(mid.reports, mid.assets, mid.generations)
    ensures mid.generations.Keys == s.db.generations.Keys && mid.reports.Keys == s.db.reports.Keys
  {
    PublicationKeepsLockstep(s.db, mid, g);
    MoveKeepsSnapshots(s.db, mid, g);
  }

  lemma PublicationKeepsTime(cfg: Config, s: Sys, mid: Db, g: GenerationId, key: StorageKey, size: nat)
    requires Throttled(cfg, s.db.reports, s.db.generations, s.history.failures, s.clock) && Rolling(cfg, s.db.generations, s.clock)
    requires Publishes(s.db, mid, g, key, size)
    ensures Throttled(cfg, mid.reports, mid.generations, s.history.failures, s.clock) && Rolling(cfg, mid.generations, s.clock)
  {
    var r := s.db.generations[g].report;
    SuccessKeepsThrottle(cfg, s.db.reports, s.db.generations, s.history.failures, s.clock, r, mid.reports[r], mid.generations);
    SubsetKeepsRolling(cfg, s.db.generations, mid.generations, s.clock);
  }

  /** The consumption of a reservation that nothing settled yet. */
  lemma ConsumptionSettles(db: Db, g: GenerationId)
    requires Sound(db) && g in db.generations && Credits.Consume(db, g).Ok?
    requires ReserveKey(g) in db.ledger && ConsumeKey(g) !in db.ledger && ReleaseKey(g) !in db.ledger
    ensures var after := Credits.Consume(db, g).value;
            && Sound(after)
            && after.ledger.Keys == db.ledger.Keys + {ConsumeKey(g)}
            && after == db.(ledger := after.ledger)
  {
    ConsumeConserves(db, g);
    ConsumeWrites(db, g);
  }

  lemma NothingCompletedBefore(db: Db, mid: Db, g: GenerationId, key: StorageKey, size: nat)
    requires Lockstep(db.reports, db.outputs, db.generations) && Publishes(db, mid, g, key, size)
    ensures forall h | h in db.generations && db.generations[h].report == db.generations[g].report :: !db.generations[h].status.Completed?
    ensures db.generations[g].report in db.reports
  {
    forall h | h in db.generations && db.generations[h].report == db.generations[g].report
      ensures !db.generations[h].status.Completed?
    {
      assert GenerationFits(db.reports, db.outputs, db.generations, h);
    }
  }

  lemma PublicationKeepsLedger(s: Sys, mid: Db, g: GenerationId, key: StorageKey, size: nat)
    requires LedgerFitsIn(s) && Sound(s.db) && Lockstep(s.db.reports, s.db.outputs, s.db.generations)
    requires Publishes(s.db, mid, g, key, size) && Credits.Consume(mid, g).Ok?
    ensures var db := Credits.Consume(mid, g).value;
            && Sound(db) && db == mid.(ledger := db.ledger)
            && LedgerFits(db.generations, db.ledger.Keys, db.reports.Keys, s.history)
  {
    ReadyToConsume(s, mid, g, key, size);
    ConsumptionSettles(mid, g);
    PublicationSettlesIn(s, mid, g, key, size);
  }

  lemma ReadyToConsume(s: Sys, mid: Db, g: GenerationId, key: StorageKey, size: nat)
    requires LedgerFitsIn(s) && Sound(s.db) && Publishes(s.db, mid, g, key, size)
    ensures Sound(mid) && g in mid.generations
    ensures ReserveKey(g) in mid.ledger && ConsumeKey(g) !in mid.ledger && ReleaseKey(g) !in mid.ledger
  {
    UnsettledWhileActive(s, g);
    SoundByKeys(s.db, mid);
  }

  lemma PublicationSettlesIn(s: Sys, mid: Db, g: GenerationId, key: StorageKey, size: nat)
    requires LedgerFitsIn(s) && Lockstep(s.db.reports, s.db.outputs, s.db.generations) && Publishes(s.db, mid, g, key, size)
    ensures LedgerFits(mid.generations, mid.ledger.Keys + {ConsumeKey(g)}, mid.reports.Keys, s.history)
  {
    NothingCompletedBefore(s.db, mid, g, key, size);
    PublicationSettles(s.db.generations, s.db.ledger.Keys, s.db.reports.Keys, s.history, mid.generations, g);
    assert mid.reports.Keys == s.db.reports.Keys;
  }

  lemma PublicationSettles(generations: map<GenerationId, Generation>, keys: set<LedgerKey>, reports: set<ReportId>, history: History,
                           generations': map<GenerationId, Generation>, g: GenerationId)
    requires LedgerFits(generations, keys, reports, history)
    requires g in generations && g in generations' && generations' == generations[g := generations'[g]]
    requires SameIdentity(generations[g], generations'[g]) && Generations.Active(generations[g])
    requires generations'[g].status.Completed? && generations[g].report in reports
    requires forall h | h in generations && generations[h].report == generations[g].report :: !generations[h].status.Completed?
    ensures LedgerFits(generations', keys + {ConsumeKey(g)}, reports, history)
  {
    ConsumptionKeepsLedger(generations, keys, reports, history, g, generations'[g]);
  }

  lemma PublishKeepsInv(cfg: Config, s: Sys, t: Token)
    requires Inv(cfg, s) && t in s.workers
    ensures Inv(cfg, PublishStep(s, t))
  {
    var w := s.workers[t];
    var after := PublishStep(s, t);
    if !w.pc.Publishing? {
    } else if Processing.FinalizeSuccess(s.db, s.clock, w.generation, w.report, w.user, t, KeyOf(t, w), w.pc.size).Err? {
      GiveUpKeepsInv(cfg, s, after, t);
    } else {
      var mid := FinalizationPublishes(s, t);
      PublishKeepsWork(s, t);
      PublishKeepsStored(s, t);
      PublishedKeepsInv(cfg, s, after, mid, w.generation, KeyOf(t, w), w.pc.size);
    }
  }

  lemma PublishedKeepsInv(cfg: Config, s: Sys, after: Sys, mid: Db, g: GenerationId, key: StorageKey, size: nat)
    requires Inv(cfg, s) && WorkIn(after) && StoredIn(after)
    requires Publishes(s.db, mid, g, key, size) && Credits.Consume(mid, g).Ok?
    requires after == s.(db := Credits.Consume(mid, g).value, workers := after.workers, history := s.history.(owed := s.history.owed + {key}))
    ensures Inv(cfg, after)
  {
    PublicationKeepsLedger(s, mid, g, key, size);
    PublicationKeepsTables(cfg, s, mid, g, key, size);
    PublicationKeepsTime(cfg, s, mid, g, key, size);
    PublicationKeepsOutbox(s, after, mid, g, key, size);
    OtherHistoryKeepsLedger(after.db.generations, after.db.ledger.Keys, after.db.reports.Keys, s.history, after.db.ledger.Keys, after.history);
  }

  lemma PublicationKeepsOutbox(s: Sys, after: Sys, mid: Db, g: GenerationId, key: StorageKey, size: nat)
    requires OutboxIn(s) && Publishes(s.db, mid, g, key, size)
    requires after.db == mid.(ledger := after.db.ledger)
    requires after.swept == s.swept && after.history == s.history.(owed := s.history.owed + {key})
    ensures OutboxIn(after)
  {
    assert after.db.outputs[s.db.generations[g].report].storageKey == key;
    HandOverKeepsOutbox(s, after);
  }

  // ----- delivery -----

  lemma DeliverKeepsInv(cfg: Config, s: Sys, t: Token, g: GenerationId, lag: nat)
    requires Inv(cfg, s)
    ensures Inv(cfg, DeliverNext(cfg, s, t, g, lag))
  {
    var after := DeliverNext(cfg, s, t, g, lag);
    if t !in s.workers {
      DeliveryKeepsWork(cfg, s, t, g, lag);
      WorkerMoveKeepsStored(s, t, after.workers[t]);
      DeliveryIsQuiet(cfg, s, t, g, lag);
      QuietStepKeepsInv(cfg, s, after, g);
    }
  }

  lemma DeliveryIsQuiet(cfg: Config, s: Sys, t: Token, g: GenerationId, lag: nat)
    requires Lockstep(s.db.reports, s.db.outputs, s.db.generations) && t !in s.workers
    ensures var after := DeliverNext(cfg, s, t, g, lag);
            && QuietFor(s.db, after.db, g)
            && after == s.(db := s.db.(generations := after.db.generations, reports := after.db.reports),
                           workers := s.workers[t := after.workers[t]])
  {
    if Processing.Claim(cfg, s.db, s.clock, g, t).Some? { ClaimMoves(cfg, s.db, s.clock, g, t); }
  }
}
