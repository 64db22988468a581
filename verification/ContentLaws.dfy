/** The steps on assets and on report rows keep the invariant of the system. */
module ContentLaws {
  import opened Rows
  import opened Protocol
  import opened LockstepLaws
  import opened WorkLaws
  import opened CreditLaws
  import opened LedgerLaws
  import opened StorageLaws
  import opened BudgetLaws
  import opened TimeLaws
  import opened SnapshotLaws
  import opened SlotLaws
  import opened OutboxLaws
  import opened RunLaws
  import Generations
  import Assets
  import Throttle
  import Lifecycle

  // ----- assets of a report without active generation -----

  predicate Idle(generations: map<GenerationId, Generation>, r: ReportId) {
    forall g | g in generations && Generations.Active(generations[g]) :: generations[g].report != r
  }

  lemma EditableIsIdle(db: Db, r: ReportId)
    requires Lockstep(db.reports, db.outputs, db.generations) && r in db.reports
    requires !db.reports[r].status.QUEUED? && !db.reports[r].status.PROCESSING?
    ensures Idle(db.generations, r)
  {
    forall g | g in db.generations && Generations.Active(db.generations[g]) ensures db.generations[g].report != r {
      assert GenerationFits(db.reports, db.outputs, db.generations, g);
    }
  }

  /** A start refuses pending uploads, so a report with one is idle. */
  lemma PendingIsIdle(db: Db, a: AssetId)
    requires Snapshots(db.reports, db.assets, db.generations) && a in db.assets && !db.assets[a].status.Uploaded?
    ensures Idle(db.generations, db.assets[a].report)
  {
    forall g | g in db.generations && Generations.Active(db.generations[g]) ensures db.generations[g].report != db.assets[a].report {
      assert SnapshotFits(db.reports, db.assets, db.generations[g]);
    }
  }

  /** Assets of the report r come, go or change. */
  ghost predicate ChangesAssets(assets: map<AssetId, Asset>, assets': map<AssetId, Asset>, r: ReportId) {
    && (forall a | a in assets' && assets'[a].report != r :: a in assets && assets[a] == assets'[a])
    && (forall a | a in assets && assets[a].report != r :: a in assets' && assets[a] == assets'[a])
  }

  lemma AssetChangeKeepsSnapshots(db: Db, assets: map<AssetId, Asset>, r: ReportId)
    requires Snapshots(db.reports, db.assets, db.generations) && Idle(db.generations, r) && ChangesAssets(db.assets, assets, r)
    ensures Snapshots(db.reports, assets, db.generations)
  {
    forall q | q != r ensures SameAssetsOf(db.assets, assets, q) {}
    GuardedChangeKeepsSnapshots(db.reports, db.assets, db.generations, db.reports, assets, db.generations);
  }

  lemma AssetChangeKeepsInv(cfg: Config, s: Sys, after: Sys, r: ReportId)
    requires Inv(cfg, s) && Idle(s.db.generations, r)
    requires after == s.(db := s.db.(assets := after.db.assets), history := s.history.(owed := after.history.owed))
    requires ChangesAssets(s.db.assets, after.db.assets, r)
    requires Housed(after.db.assets, s.db.reports) && AssetKeysOnly(after.db.assets)
    requires Slots(cfg, after.db.assets, s.clock) && OutboxIn(after)
    ensures Inv(cfg, after)
  {
    AssetChangeKeepsSnapshots(s.db, after.db.assets, r);
    OtherHistoryKeepsLedger(s.db.generations, s.db.ledger.Keys, s.db.reports.Keys, s.history, s.db.ledger.Keys, after.history);
  }

  lemma RequestKeepsInv(cfg: Config, s: Sys, user: UserId, r: ReportId, a: AssetId, nonce: nat, request: Assets.UploadRequest)
    requires Inv(cfg, s)
    ensures Inv(cfg, RequestUploadNext(cfg, s, user, r, a, nonce, request))
  {
    var after := RequestUploadNext(cfg, s, user, r, a, nonce, request);
    if after != s {
      RequestFrame(cfg, s, user, r, a, nonce, request);
      EditableIsIdle(s.db, r);
      RequestKeepsSlots(cfg, s.db, s.clock, user, r, a, AssetKey(user, r, a, nonce), request);
      AssetChangeKeepsInv(cfg, s, after, r);
    }
  }

  lemma RequestFrame(cfg: Config, s: Sys, user: UserId, r: ReportId, a: AssetId, nonce: nat, request: Assets.UploadRequest)
    requires OutboxIn(s) && Housed(s.db.assets, s.db.reports) && AssetKeysOnly(s.db.assets)
    requires RequestUploadNext(cfg, s, user, r, a, nonce, request) != s
    ensures var after := RequestUploadNext(cfg, s, user, r, a, nonce, request); var key := AssetKey(user, r, a, nonce);
            var outcome := Assets.RequestUpload(cfg, s.db, s.clock, user, r, a, key, request);
            && outcome.Ok? && after.db == outcome.value
            && after == s.(db := s.db.(assets := after.db.assets), history := s.history.(owed := after.history.owed))
            && r in s.db.reports && Lifecycle.Editable(s.db.reports[r].status)
            && ChangesAssets(s.db.assets, after.db.assets, r)
            && Housed(after.db.assets, s.db.reports) && AssetKeysOnly(after.db.assets) && OutboxIn(after)
  {
    var after := RequestUploadNext(cfg, s, user, r, a, nonce, request);
    var asset := after.db.assets[a];
    assert after.db.assets == s.db.assets[a := asset];
    HandOverKeepsOutbox(s, after);
  }

  lemma WithdrawFrame(cfg: Config, s: Sys, a: AssetId)
    requires OutboxIn(s) && Housed(s.db.assets, s.db.reports) && AssetKeysOnly(s.db.assets) && Slots(cfg, s.db.assets, s.clock)
    requires a in s.db.assets && s.db.assets[a].status.Pending?
    ensures var after := WithdrawUploadNext(s, a);
            && after == s.(db := s.db.(assets := after.db.assets), history := s.history.(owed := after.history.owed))
            && ChangesAssets(s.db.assets, after.db.assets, s.db.assets[a].report)
            && Housed(after.db.assets, s.db.reports) && AssetKeysOnly(after.db.assets)
            && Slots(cfg, after.db.assets, s.clock) && OutboxIn(after)
  {
    var after := WithdrawUploadNext(s, a);
    NoNewSlotKeepsSlots(cfg, s.db.assets, s.clock, after.db.assets, s.clock);
    HandOverKeepsOutbox(s, after);
  }

  lemma WithdrawKeepsInv(cfg: Config, s: Sys, a: AssetId)
    requires Inv(cfg, s)
    ensures Inv(cfg, WithdrawUploadNext(s, a))
  {
    var after := WithdrawUploadNext(s, a);
    if after != s {
      PendingIsIdle(s.db, a);
      WithdrawFrame(cfg, s, a);
      AssetChangeKeepsInv(cfg, s, after, s.db.assets[a].report);
    }
  }

  /** What rejecting and confirming do to the assets. */
  ghost predicate KeyKept(s: Sys, after: Sys, r: ReportId) {
    && after == s.(db := s.db.(assets := after.db.assets))
    && ChangesAssets(s.db.assets, after.db.assets, r)
    && Housed(after.db.assets, s.db.reports) && AssetKeysOnly(after.db.assets)
    && (forall a | a in s.db.assets :: a in after.db.assets && after.db.assets[a].storageKey == s.db.assets[a].storageKey)
  }

  lemma KeyKeptKeepsInv(cfg: Config, s: Sys, after: Sys, r: ReportId)
    requires Inv(cfg, s) && Idle(s.db.generations, r) && KeyKept(s, after, r) && Slots(cfg, after.db.assets, s.clock)
    ensures Inv(cfg, after)
  {
    HandOverKeepsOutbox(s, after);
    AssetChangeKeepsInv(cfg, s, after, r);
  }

  lemma RejectFrame(s: Sys, a: AssetId)
    requires Housed(s.db.assets, s.db.reports) && AssetKeysOnly(s.db.assets)
    requires a in s.db.assets && s.db.assets[a].status.Pending?
    ensures KeyKept(s, s.(db := Assets.Reject(s.db, a)), s.db.assets[a].report)
  {
  }

  lemma RejectKeepsInv(cfg: Config, s: Sys, a: AssetId)
    requires Inv(cfg, s)
    ensures Inv(cfg, s.(db := Assets.Reject(s.db, a)))
  {
    var after := s.(db := Assets.Reject(s.db, a));
    if after != s {
      PendingIsIdle(s.db, a);
      NoNewSlotKeepsSlots(cfg, s.db.assets, s.clock, after.db.assets, s.clock);
      RejectFrame(s, a);
      KeyKeptKeepsInv(cfg, s, after, s.db.assets[a].report);
    }
  }

  lemma ConfirmFrame(cfg: Config, s: Sys, user: UserId, r: ReportId, a: AssetId, inspected: bool)
    requires Housed(s.db.assets, s.db.reports) && AssetKeysOnly(s.db.assets)
    requires ConfirmUploadNext(cfg, s, user, r, a, inspected) != s
    ensures KeyKept(s, ConfirmUploadNext(cfg, s, user, r, a, inspected), r)
    ensures a in s.db.assets && s.db.assets[a].report == r && s.db.assets[a].status.Pending?
  {
  }

  lemma ConfirmKeepsSlotsOf(cfg: Config, s: Sys, user: UserId, r: ReportId, a: AssetId, inspected: bool)
    requires Slots(cfg, s.db.assets, s.clock)
    ensures Slots(cfg, ConfirmUploadNext(cfg, s, user, r, a, inspected).db.assets, s.clock)
  {
    if ConfirmUploadNext(cfg, s, user, r, a, inspected) != s {
      ConfirmKeepsSlots(cfg, s.db, s.clock, user, r, a, s.objects[s.db.assets[a].storageKey]);
    }
  }

  lemma ConfirmKeepsInv(cfg: Config, s: Sys, user: UserId, r: ReportId, a: AssetId, inspected: bool)
    requires Inv(cfg, s)
    ensures Inv(cfg, ConfirmUploadNext(cfg, s, user, r, a, inspected))
  {
    var after := ConfirmUploadNext(cfg, s, user, r, a, inspected);
    if after != s {
      ConfirmFrame(cfg, s, user, r, a, inspected);
      PendingIsIdle(s.db, a);
      ConfirmKeepsSlotsOf(cfg, s, user, r, a, inspected);
      KeyKeptKeepsInv(cfg, s, after, r);
    }
  }

  // ----- deleting an asset -----

  /** What deleting an asset does, if it is there. */
  lemma DeleteAssetRows(s: Sys, user: UserId, r: ReportId, a: AssetId)
    requires Commit(s, Assets.DeleteAsset(s.db, user, r, a)) != s
    ensures Assets.DeleteAsset(s.db, user, r, a).Ok? && r in s.db.reports && Lifecycle.Editable(s.db.reports[r].status)
    ensures var after := Commit(s, Assets.DeleteAsset(s.db, user, r, a));
            && after == s.(db := Assets.DeleteAsset(s.db, user, r, a).value)
            && a in s.db.assets && s.db.assets[a].report == r && after.db.assets == s.db.assets - {a}
            && after.db == s.db.(tasks := after.db.tasks, assets := after.db.assets, attempts := after.db.attempts)
  {
  }

  lemma AssetGoneKeepsAssets(cfg: Config, s: Sys, a: AssetId)
    requires Housed(s.db.assets, s.db.reports) && AssetKeysOnly(s.db.assets) && Slots(cfg, s.db.assets, s.clock)
    requires Snapshots(s.db.reports, s.db.assets, s.db.generations) && a in s.db.assets && Idle(s.db.generations, s.db.assets[a].report)
    ensures var assets := s.db.assets - {a};
            && Housed(assets, s.db.reports) && AssetKeysOnly(assets) && Slots(cfg, assets, s.clock)
            && Snapshots(s.db.reports, assets, s.db.generations)
  {
    AssetChangeKeepsSnapshots(s.db, s.db.assets - {a}, s.db.assets[a].report);
    NoNewSlotKeepsSlots(cfg, s.db.assets, s.clock, s.db.assets - {a}, s.clock);
  }

  lemma DeleteAssetKeepsInv(cfg: Config, s: Sys, user: UserId, r: ReportId, a: AssetId)
    requires Inv(cfg, s)
    ensures Inv(cfg, Commit(s, Assets.DeleteAsset(s.db, user, r, a)))
  {
    var after := Commit(s, Assets.DeleteAsset(s.db, user, r, a));
    if after != s {
      DeleteAssetRows(s, user, r, a);
      EditableIsIdle(s.db, r);
      AssetGoneKeepsAssets(cfg, s, a);
      DeleteAssetKeepsWork(cfg, s, user, r, a);
      DeleteAssetKeepsKeys(s, user, r, a);
    }
  }

  lemma DeleteAssetFades(db: Db, user: UserId, r: ReportId, a: AssetId)
    requires forall id | id in db.attempts :: db.attempts[id].generation in db.generations
    requires forall q | q in db.outputs :: db.outputs[q].generation in db.generations
    requires Assets.DeleteAsset(db, user, r, a).Ok?
    ensures Fades(db, Assets.DeleteAsset(db, user, r, a).value)
  {
  }

  lemma RowsHaveGenerations(s: Sys)
    requires WorkIn(s)
    ensures forall id | id in s.db.attempts :: s.db.attempts[id].generation in s.db.generations
    ensures forall q | q in s.db.outputs :: s.db.outputs[q].generation in s.db.generations
  {
    forall id | id in s.db.attempts ensures s.db.attempts[id].generation in s.db.generations {
      assert AttemptFits(s.db.generations, s.db.attempts, id);
    }
    forall q | q in s.db.outputs ensures s.db.outputs[q].generation in s.db.generations {
      assert OutputIsPaid(s.db.generations, s.db.attempts, s.db.outputs[q]);
    }
  }

  lemma DeleteAssetKeepsWork(cfg: Config, s: Sys, user: UserId, r: ReportId, a: AssetId)
    requires WorkIn(s) && Budgeted(cfg, s.db.attempts) && Assets.DeleteAsset(s.db, user, r, a).Ok?
    ensures var after := Assets.DeleteAsset(s.db, user, r, a).value;
            Work(after.generations, after.attempts, after.outputs, s.workers) && Budgeted(cfg, after.attempts)
  {
    var after := Assets.DeleteAsset(s.db, user, r, a).value;
    RowsHaveGenerations(s);
    DeleteAssetFades(s.db, user, r, a);
    FadingKeepsWork(s.db, after, s.workers);
    FadingKeepsBudget(cfg, s.db, after);
  }

  lemma DeleteAssetKeepsKeys(s: Sys, user: UserId, r: ReportId, a: AssetId)
    requires StoredIn(s) && OutboxIn(s) && AssetKeysOnly(s.db.assets) && Assets.DeleteAsset(s.db, user, r, a).Ok?
    ensures var after := s.(db := Assets.DeleteAsset(s.db, user, r, a).value); StoredIn(after) && OutboxIn(after)
  {
    var after := s.(db := Assets.DeleteAsset(s.db, user, r, a).value);
    KeysMoveKeepsStored(s, after.db.outputs, after.db.tasks, s.sweeping, s.swept, s.objects);
    HandOverKeepsOutbox(s, after);
  }

  // ----- reports -----

  lemma CreateReportKeepsInv(cfg: Config, s: Sys, user: UserId, r: ReportId, title: string, notes: string)
    requires Inv(cfg, s)
    ensures Inv(cfg, CreateReportNext(s, user, r, title, notes))
  {
    var after := CreateReportNext(s, user, r, title, notes);
    if after != s {
      NewReportKeepsTables(cfg, s, r, after.db.reports[r]);
      NewReportKeepsLedger(s.db.generations, s.db.ledger.Keys, s.db.reports.Keys, s.history, r, after.history.failures);
      assert after.db.reports.Keys == s.db.reports.Keys + {r};
    }
  }

  lemma NewReportKeepsTables(cfg: Config, s: Sys, r: ReportId, report: Report)
    requires Lockstep(s.db.reports, s.db.outputs, s.db.generations) && Snapshots(s.db.reports, s.db.assets, s.db.generations)
    requires Throttled(cfg, s.db.reports, s.db.generations, s.history.failures, s.clock)
    requires r !in s.db.reports && r !in s.history.failures && report.status.DRAFT? && report.throttle == Throttle.CLEAR
    ensures var reports' := s.db.reports[r := report];
            && Lockstep(reports', s.db.outputs, s.db.generations) && Snapshots(reports', s.db.assets, s.db.generations)
            && Throttled(cfg, reports', s.db.generations, s.history.failures[r := []], s.clock)
  {
    forall g | g in s.db.generations ensures s.db.generations[g].report != r {
      assert GenerationFits(s.db.reports, s.db.outputs, s.db.generations, g);
    }
    DraftKeepsLockstep(s.db.reports, s.db.outputs, s.db.generations, r, report);
    NewReportKeepsThrottle(cfg, s.db.reports, s.db.generations, s.history.failures, s.clock, r, report);
    GuardedChangeKeepsSnapshots(s.db.reports, s.db.assets, s.db.generations, s.db.reports[r := report], s.db.assets, s.db.generations);
  }

  lemma UpdateReportKeepsInv(cfg: Config, s: Sys, user: UserId, r: ReportId, title: string, notes: string)
    requires Inv(cfg, s)
    ensures Inv(cfg, Commit(s, Assets.UpdateReport(s.db, user, r, title, notes)))
  {
    if Assets.UpdateReport(s.db, user, r, title, notes).Ok? {
      UpdateReportKeepsTables(cfg, s, r, s.db.reports[r].(title := title, notes := notes));
    }
  }

  lemma UpdateReportKeepsTables(cfg: Config, s: Sys, r: ReportId, report: Report)
    requires Lockstep(s.db.reports, s.db.outputs, s.db.generations) && Snapshots(s.db.reports, s.db.assets, s.db.generations)
    requires Throttled(cfg, s.db.reports, s.db.generations, s.history.failures, s.clock)
    requires r in s.db.reports && Lifecycle.Editable(s.db.reports[r].status)
    requires report == s.db.reports[r].(title := report.title, notes := report.notes)
    ensures var reports' := s.db.reports[r := report];
            && Lockstep(reports', s.db.outputs, s.db.generations) && Snapshots(reports', s.db.assets, s.db.generations)
            && Throttled(cfg, reports', s.db.generations, s.history.failures, s.clock)
            && reports'.Keys == s.db.reports.Keys
  {
    EditableIsIdle(s.db, r);
    DraftKeepsLockstep(s.db.reports, s.db.outputs, s.db.generations, r, report);
    QuietChangeKeepsThrottle(cfg, s.db.reports, s.db.generations, s.history.failures, s.clock, s.db.reports[r := report], s.db.generations);
    GuardedChangeKeepsSnapshots(s.db.reports, s.db.assets, s.db.generations, s.db.reports[r := report], s.db.assets, s.db.generations);
  }

  // ----- duplicating a report -----

  /** Everything about the new rows of a duplicate that the invariant asks for. */
  ghost predicate Duplicated(cfg: Config, s: Sys, after: Sys, r: ReportId) {
    && r !in s.history.failures && after.history.failures == s.history.failures[r := []]
    && after == s.(db := s.db.(reports := after.db.reports, assets := after.db.assets),
                   history := s.history.(failures := after.history.failures, owed := after.history.owed))
    && after.db.reports.Keys == s.db.reports.Keys + {r}
    && Lockstep(after.db.reports, s.db.outputs, s.db.generations) && Snapshots(after.db.reports, after.db.assets, s.db.generations)
    && Throttled(cfg, after.db.reports, s.db.generations, after.history.failures, s.clock) && Slots(cfg, after.db.assets, s.clock)
    && Housed(after.db.assets, after.db.reports) && AssetKeysOnly(after.db.assets) && OutboxIn(after)
  }

  lemma ReadSourceKeepsInv(cfg: Config, s: Sys, user: UserId, source: ReportId, r: ReportId)
    requires Inv(cfg, s)
    ensures Inv(cfg, ReadSourceNext(s, user, source, r))
  {
    SourcesStayFit(cfg, s, user, source, r);
  }

  lemma SourcesStayFit(cfg: Config, s: Sys, user: UserId, source: ReportId, r: ReportId)
    requires Slots(cfg, s.db.assets, s.clock) && SourcesFit(cfg, s.duplicating)
    ensures var after := ReadSourceNext(s, user, source, r);
            SourcesFit(cfg, after.duplicating) && after == s.(duplicating := after.duplicating)
  {
    if Assets.ReadSource(s.db, user, source).Ok? { ReadSourceFits(cfg, s.db, s.clock, user, source); }
  }

  lemma DuplicateKeepsInv(cfg: Config, s: Sys, r: ReportId, copies: map<AssetId, Assets.Copy>, title: string)
    requires Inv(cfg, s)
    ensures Inv(cfg, DuplicateNext(s, r, copies, title))
  {
    var after := DuplicateNext(s, r, copies, title);
    if after != s {
      DuplicateIsDuplicated(cfg, s, r, copies, title);
      DuplicatedKeepsInv(cfg, s, after, r);
    }
  }

  lemma DuplicatedKeepsInv(cfg: Config, s: Sys, after: Sys, r: ReportId)
    requires Inv(cfg, s) && Duplicated(cfg, s, after, r)
    ensures Inv(cfg, after)
  {
    DuplicateKeepsLedger(s, after, r);
  }

  lemma DuplicateIsDuplicated(cfg: Config, s: Sys, r: ReportId, copies: map<AssetId, Assets.Copy>, title: string)
    requires Lockstep(s.db.reports, s.db.outputs, s.db.generations) && Snapshots(s.db.reports, s.db.assets, s.db.generations)
    requires Throttled(cfg, s.db.reports, s.db.generations, s.history.failures, s.clock) && Slots(cfg, s.db.assets, s.clock)
    requires SourcesFit(cfg, s.duplicating)
    requires Housed(s.db.assets, s.db.reports) && AssetKeysOnly(s.db.assets) && OutboxIn(s)
    requires DuplicateNext(s, r, copies, title) != s
    ensures Duplicated(cfg, s, DuplicateNext(s, r, copies, title), r)
  {
    var after := DuplicateNext(s, r, copies, title);
    DuplicateFrame(s, r, copies, title);
    NewReportKeepsTables(cfg, s, r, after.db.reports[r]);
    DuplicateKeepsAssets(cfg, s, r, copies, title);
    DuplicateKeepsOutbox(s, r, copies, title);
  }

  lemma DuplicateFrame(s: Sys, r: ReportId, copies: map<AssetId, Assets.Copy>, title: string)
    requires Housed(s.db.assets, s.db.reports) && AssetKeysOnly(s.db.assets)
    requires DuplicateNext(s, r, copies, title) != s
    ensures var after := DuplicateNext(s, r, copies, title);
            && r !in s.db.reports && r !in s.history.failures
            && r in after.db.reports && after.db.reports == s.db.reports[r := after.db.reports[r]]
            && after.db.reports[r].status.DRAFT? && after.db.reports[r].throttle == Throttle.CLEAR
            && after.history.failures == s.history.failures[r := []]
            && after == s.(db := s.db.(reports := after.db.reports, assets := after.db.assets),
                           history := s.history.(failures := after.history.failures, owed := after.history.owed))
            && ChangesAssets(s.db.assets, after.db.assets, r)
            && Housed(after.db.assets, after.db.reports) && AssetKeysOnly(after.db.assets)
  {
  }

  lemma DuplicateKeepsLedger(s: Sys, after: Sys, r: ReportId)
    requires LedgerFitsIn(s) && r !in s.history.failures && after.history.failures == s.history.failures[r := []]
    requires after.history.origins == s.history.origins && after.history.compensated == s.history.compensated
    requires after.db.generations == s.db.generations && after.db.ledger == s.db.ledger && after.db.reports.Keys == s.db.reports.Keys + {r}
    ensures LedgerFitsIn(after)
  {
    var between := s.history.(failures := after.history.failures);
    NewReportKeepsLedger(s.db.generations, s.db.ledger.Keys, s.db.reports.Keys, s.history, r, after.history.failures);
    OtherHistoryKeepsLedger(s.db.generations, s.db.ledger.Keys, after.db.reports.Keys, between, s.db.ledger.Keys, after.history);
  }

  lemma DuplicateKeepsAssets(cfg: Config, s: Sys, r: ReportId, copies: map<AssetId, Assets.Copy>, title: string)
    requires Housed(s.db.assets, s.db.reports) && AssetKeysOnly(s.db.assets) && Slots(cfg, s.db.assets, s.clock)
    requires SourcesFit(cfg, s.duplicating)
    requires DuplicateNext(s, r, copies, title) != s
    requires var after := DuplicateNext(s, r, copies, title);
             Lockstep(after.db.reports, s.db.outputs, s.db.generations) && Snapshots(after.db.reports, s.db.assets, s.db.generations)
    ensures var after := DuplicateNext(s, r, copies, title);
            Snapshots(after.db.reports, after.db.assets, s.db.generations) && Slots(cfg, after.db.assets, s.clock)
  {
    var after := DuplicateNext(s, r, copies, title);
    DuplicateFrame(s, r, copies, title);
    EditableIsIdle(after.db.(assets := s.db.assets), r);
    AssetChangeKeepsSnapshots(after.db.(assets := s.db.assets), after.db.assets, r);
    DuplicateKeepsSlots(cfg, s.db, s.clock, s.duplicating[r], r, copies, title);
  }

  lemma DuplicateKeepsOutbox(s: Sys, r: ReportId, copies: map<AssetId, Assets.Copy>, title: string)
    requires OutboxIn(s) && DuplicateNext(s, r, copies, title) != s
    ensures OutboxIn(DuplicateNext(s, r, copies, title))
  {
    var after := DuplicateNext(s, r, copies, title);
    forall k | k in after.history.owed && k !in s.history.owed ensures LiveIn(after.db.assets, after.db.outputs, k) {
      var a :| a in copies && copies[a].storageKey == k;
      assert after.db.assets[a].storageKey == k;
    }
    HandOverKeepsOutbox(s, after);
  }

  // ----- deleting a report -----

  lemma DeleteReportKeepsInv(cfg: Config, s: Sys, user: UserId, r: ReportId)
    requires Inv(cfg, s)
    ensures Inv(cfg, Commit(s, Assets.DeleteReport(s.db, user, r)))
  {
    if Assets.DeleteReport(s.db, user, r).Ok? {
      DeletionKeepsLockstep(s.db, user, r);
      DeletionKeepsTime(cfg, s, user, r);
      DeletionKeepsAssets(cfg, s, user, r);
      DeletionKeepsLedgerIn(s, user, r);
      DeletionKeepsWork(cfg, s, user, r);
      DeletionKeepsKeys(s, user, r);
    }
  }

  lemma DeletionKeepsTime(cfg: Config, s: Sys, user: UserId, r: ReportId)
    requires Throttled(cfg, s.db.reports, s.db.generations, s.history.failures, s.clock) && Rolling(cfg, s.db.generations, s.clock)
    requires Assets.DeleteReport(s.db, user, r).Ok?
    ensures var db := Assets.DeleteReport(s.db, user, r).value;
            Throttled(cfg, db.reports, db.generations, s.history.failures, s.clock) && Rolling(cfg, db.generations, s.clock)
  {
    var db := Assets.DeleteReport(s.db, user, r).value;
    assert forall q, h | ActiveOf(db.generations, q, h) :: ActiveOf(s.db.generations, q, h);
    QuietChangeKeepsThrottle(cfg, s.db.reports, s.db.generations, s.history.failures, s.clock, db.reports, db.generations);
    SubsetKeepsRolling(cfg, s.db.generations, db.generations, s.clock);
  }

  lemma DeletionKeepsAssets(cfg: Config, s: Sys, user: UserId, r: ReportId)
    requires Snapshots(s.db.reports, s.db.assets, s.db.generations) && Slots(cfg, s.db.assets, s.clock)
    requires Housed(s.db.assets, s.db.reports) && AssetKeysOnly(s.db.assets)
    requires Assets.DeleteReport(s.db, user, r).Ok?
    ensures var db := Assets.DeleteReport(s.db, user, r).value;
            && Snapshots(db.reports, db.assets, db.generations) && Slots(cfg, db.assets, s.clock)
            && Housed(db.assets, db.reports) && AssetKeysOnly(db.assets)
  {
    var db := Assets.DeleteReport(s.db, user, r).value;
    GuardedChangeKeepsSnapshots(s.db.reports, s.db.assets, s.db.generations, db.reports, db.assets, db.generations);
    NoNewSlotKeepsSlots(cfg, s.db.assets, s.clock, db.assets, s.clock);
  }

  lemma DeletionKeepsLedgerIn(s: Sys, user: UserId, r: ReportId)
    requires LedgerFitsIn(s) && Sound(s.db) && Lockstep(s.db.reports, s.db.outputs, s.db.generations)
    requires Assets.DeleteReport(s.db, user, r).Ok?
    ensures var db := Assets.DeleteReport(s.db, user, r).value;
            Sound(db) && LedgerFits(db.generations, db.ledger.Keys, db.reports.Keys, s.history)
  {
    DeletionKeepsCredits(s.db, user, r);
    EditableIsIdle(s.db, r);
    DeletionFrame(s.db, user, r);
    DeletionKeepsLedger(s.db.generations, s.db.ledger.Keys, s.db.reports.Keys, s.history, r, Assets.DeleteReport(s.db, user, r).value.generations);
  }

  lemma DeletionFrame(db: Db, user: UserId, r: ReportId)
    requires Assets.DeleteReport(db, user, r).Ok?
    ensures var after := Assets.DeleteReport(db, user, r).value;
            && after.reports.Keys == db.reports.Keys - {r} && after.ledger.Keys == db.ledger.Keys
            && (forall g :: g in after.generations <==> g in db.generations && db.generations[g].report != r)
            && (forall g | g in after.generations :: after.generations[g] == db.generations[g])
  {
  }

  lemma DeletionKeepsCredits(db: Db, user: UserId, r: ReportId)
    requires Sound(db) && Assets.DeleteReport(db, user, r).Ok?
    ensures Sound(Assets.DeleteReport(db, user, r).value)
  {
    var after := Assets.DeleteReport(db, user, r).value;
    DetachConserves(db.generations.Keys, db.grants, db.ledger, Assets.GenerationsOf(db, r));
    assert after.generations.Keys == db.generations.Keys - Assets.GenerationsOf(db, r);
  }

  lemma DeletionKeepsWork(cfg: Config, s: Sys, user: UserId, r: ReportId)
    requires WorkIn(s) && Budgeted(cfg, s.db.attempts) && Assets.DeleteReport(s.db, user, r).Ok?
    ensures var db := Assets.DeleteReport(s.db, user, r).value;
            Work(db.generations, db.attempts, db.outputs, s.workers) && Budgeted(cfg, db.attempts)
  {
    var db := Assets.DeleteReport(s.db, user, r).value;
    RowsHaveGenerations(s);
    DeletionFades(s.db, user, r);
    FadingKeepsWork(s.db, db, s.workers);
    FadingKeepsBudget(cfg, s.db, db);
  }

  lemma DeletionFades(db: Db, user: UserId, r: ReportId)
    requires forall id | id in db.attempts :: db.attempts[id].generation in db.generations
    requires forall q | q in db.outputs :: db.outputs[q].generation in db.generations
    requires Assets.DeleteReport(db, user, r).Ok?
    ensures Fades(db, Assets.DeleteReport(db, user, r).value)
  {
  }

  lemma DeletionKeepsKeys(s: Sys, user: UserId, r: ReportId)
    requires StoredIn(s) && OutboxIn(s) && AssetKeysOnly(s.db.assets) && Assets.DeleteReport(s.db, user, r).Ok?
    requires Lockstep(s.db.reports, s.db.outputs, s.db.generations)
    ensures var after := s.(db := Assets.DeleteReport(s.db, user, r).value); StoredIn(after) && OutboxIn(after)
  {
    var after := s.(db := Assets.DeleteReport(s.db, user, r).value);
    DeletionKeepsLockstep(s.db, user, r);
    KeysMoveKeepsStored(s, after.db.outputs, after.db.tasks, s.sweeping, s.swept, s.objects);
    HandOverKeepsOutbox(s, after);
  }
}
