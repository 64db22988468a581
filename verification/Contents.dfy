/** What creating, updating, duplicating and deleting a report do to the rows,
    column by column, and that what a user writes is what a generation reads. */
module Contents {
  import opened Rows
  import opened Protocol
  import opened Uploads
  import opened Runs
  import Assets
  import Starts

  // ----- creating and updating -----

  /** A draft that has never failed. */
  predicate Fresh(row: Report, user: UserId, title: string, notes: string) {
    && row.user == user && row.title == title && row.notes == notes && row.status.DRAFT?
    && row.throttle.failures == 0 && row.throttle.windowStart.None? && row.throttle.lockedUntil.None?
  }

  lemma ReportIsCreated(cfg: Config, s: Sys, user: UserId, r: ReportId, title: string, notes: string)
    requires r !in s.db.reports && r !in s.history.failures
    ensures var after := Next(cfg, s, OnReport(CreateReport(user, r, title, notes)));
            && r in after.db.reports && Fresh(after.db.reports[r], user, title, notes)
            && after == s.(db := s.db.(reports := s.db.reports[r := after.db.reports[r]]),
                           history := s.history.(failures := s.history.failures[r := []]))
  {
  }

  /** Title and notes are what was sent, exactly while the report is its user's and editable; its other columns and all
      other rows stay. */
  lemma ReportUpdatedIff(cfg: Config, s: Sys, user: UserId, r: ReportId, title: string, notes: string)
    ensures var after := Next(cfg, s, OnReport(UpdateReport(user, r, title, notes)));
            if EditableBy(s.db.reports, user, r) then
              && r in after.db.reports && after.db.reports[r].title == title && after.db.reports[r].notes == notes
              && after.db.reports[r].user == user && after.db.reports[r].status == s.db.reports[r].status
              && after.db.reports[r].throttle == s.db.reports[r].throttle
              && after == s.(db := s.db.(reports := s.db.reports[r := after.db.reports[r]]))
            else after == s
  {
  }

  ghost function Updated(cfg: Config, run: seq<Action>, user: UserId, r: ReportId, title: string, notes: string): Sys {
    Next(cfg, Reached(cfg, run), OnReport(UpdateReport(user, r, title, notes)))
  }

  /** A generation works on the title and the notes that the report has when it starts. */
  lemma StartReadsTheReport(cfg: Config, run: seq<Action>, user: UserId, r: ReportId, key: string, g: GenerationId)
    requires g !in Reached(cfg, run).history.origins && !Starts.Asked(Reached(cfg, run).db, user, r, key)
    requires Starts.Conditions(cfg, Reached(cfg, run).db, user, r, Reached(cfg, run).clock, true)
    ensures Shows(Reached(cfg, run), Reached(cfg, run + [StartGeneration(user, r, key, g, true)]), r, g)
  {
    Starts.StartTakesPlaceIff(cfg, run, user, r, key, g, true);
    RunStep(cfg, run, StartGeneration(user, r, key, g, true));
    StartShows(cfg, Reached(cfg, run), Reached(cfg, run + [StartGeneration(user, r, key, g, true)]), user, r, key, g);
  }

  predicate Shows(s: Sys, after: Sys, r: ReportId, g: GenerationId) {
    && r in s.db.reports && g in after.db.generations && after.db.generations[g].status.Queued?
    && after.db.generations[g].snapshot.title == s.db.reports[r].title && after.db.generations[g].snapshot.notes == s.db.reports[r].notes
  }

  /** One that starts right after an update works on what was sent. */
  lemma StartReadsTheUpdate(cfg: Config, run: seq<Action>, user: UserId, r: ReportId, title: string, notes: string, key: string, g: GenerationId)
    requires var s := Reached(cfg, run);
             EditableBy(s.db.reports, user, r) && g !in s.history.origins && !Starts.Asked(s.db, user, r, key)
    requires var updated := Updated(cfg, run, user, r, title, notes);
             Starts.Conditions(cfg, updated.db, user, r, updated.clock, true)
    ensures var after := Reached(cfg, run + [OnReport(UpdateReport(user, r, title, notes)), StartGeneration(user, r, key, g, true)]);
            && g in after.db.generations && after.db.generations[g].status.Queued?
            && after.db.generations[g].snapshot.title == title && after.db.generations[g].snapshot.notes == notes
  {
    var update := OnReport(UpdateReport(user, r, title, notes));
    UpdateShows(cfg, Reached(cfg, run), user, r, title, notes, key);
    RunStep(cfg, run, update);
    StartReadsTheReport(cfg, run + [update], user, r, key, g);
    assert run + [update, StartGeneration(user, r, key, g, true)] == run + [update] + [StartGeneration(user, r, key, g, true)];
  }

  lemma UpdateShows(cfg: Config, s: Sys, user: UserId, r: ReportId, title: string, notes: string, key: string)
    requires EditableBy(s.db.reports, user, r) && !Starts.Asked(s.db, user, r, key)
    ensures var updated := Next(cfg, s, OnReport(UpdateReport(user, r, title, notes)));
            && r in updated.db.reports && updated.db.reports[r].title == title && updated.db.reports[r].notes == notes
            && updated.history == s.history && !Starts.Asked(updated.db, user, r, key)
  {
    ReportUpdatedIff(cfg, s, user, r, title, notes);
  }

  lemma StartShows(cfg: Config, s: Sys, after: Sys, user: UserId, r: ReportId, key: string, g: GenerationId)
    requires Starts.StartsIff(cfg, s, after, user, r, key, g, true) && Starts.Conditions(cfg, s.db, user, r, s.clock, true)
    ensures Shows(s, after, r, g)
  {
  }

  // ----- duplicating -----

  /** A report can be duplicated by its user exactly while it is ready; then its notes and its ready assets are read. */
  lemma SourceReadIff(cfg: Config, s: Sys, user: UserId, source: ReportId, r: ReportId)
    requires r !in s.duplicating
    ensures var after := Next(cfg, s, OnReport(ReadSource(user, source, r)));
            if source in s.db.reports && s.db.reports[source].user == user && s.db.reports[source].status.READY? then
              && r in after.duplicating && after == s.(duplicating := s.duplicating[r := after.duplicating[r]])
              && after.duplicating[r].user == user && after.duplicating[r].notes == s.db.reports[source].notes
              && forall a :: (a in after.duplicating[r].rows <==>
                                a in s.db.assets && s.db.assets[a].report == source && s.db.assets[a].status.Uploaded?)
                             && (a in after.duplicating[r].rows ==> after.duplicating[r].rows[a] == s.db.assets[a])
            else after == s
  {
  }

  /** The copy of an asset: the same file at the same position, in another report, under another key, from now on. */
  predicate CopyOf(row: Asset, original: Asset, r: ReportId, key: StorageKey, now: Time) {
    && row.report == r && row.storageKey == key && row.createdAt == now
    && row.kind == original.kind && row.mimeType == original.mimeType && row.position == original.position && row.status == original.status
    && row.declaredSize == original.declaredSize && row.verifiedSize == original.verifiedSize
  }

  /** A draft of the same user with the notes that were read, one copy of every asset that was read and nothing else, next
      to all other rows. */
  ghost predicate DuplicateRows(db: Db, after: Db, now: Time, read: Assets.Source, r: ReportId, copies: map<AssetId, Assets.Copy>, title: string)
    requires Assets.CopiesOf(read, copies)
  {
    && r in after.reports && Fresh(after.reports[r], read.user, title, read.notes)
    && after.reports == db.reports[r := after.reports[r]]
    && after.assets.Keys == db.assets.Keys + copies.Keys
    && (forall a | a in db.assets :: after.assets[a] == db.assets[a])
    && (forall a | a in copies :: CopyOf(after.assets[a], read.rows[copies[a].source], r, copies[a].storageKey, now))
    && after == db.(reports := after.reports, assets := after.assets)
  }

  lemma DuplicateIsMade(db: Db, now: Time, read: Assets.Source, r: ReportId, copies: map<AssetId, Assets.Copy>, title: string)
    requires r !in db.reports && Assets.CopiesOf(read, copies) && Assets.CopiesFresh(db, copies)
    ensures var duplicate := Assets.Duplicate(db, now, read, r, copies, title);
            duplicate.Ok? && DuplicateRows(db, duplicate.value, now, read, r, copies, title)
  {
  }

  /** What was read is duplicated under fresh identifiers, whatever has become of the source. */
  lemma Duplicated(cfg: Config, s: Sys, r: ReportId, copies: map<AssetId, Assets.Copy>, title: string)
    requires r in s.duplicating && r !in s.db.reports && r !in s.history.failures
    requires Assets.CopiesOf(s.duplicating[r], copies) && Assets.CopiesFresh(s.db, copies)
    ensures DuplicateRows(s.db, Next(cfg, s, OnReport(DuplicateReport(r, copies, title))).db, s.clock, s.duplicating[r], r, copies, title)
  {
    DuplicateIsMade(s.db, s.clock, s.duplicating[r], r, copies, title);
    DuplicateCommits(cfg, s, r, copies, title);
  }

  lemma DuplicateCommits(cfg: Config, s: Sys, r: ReportId, copies: map<AssetId, Assets.Copy>, title: string)
    requires r in s.duplicating && r !in s.history.failures
    requires Assets.Duplicate(s.db, s.clock, s.duplicating[r], r, copies, title).Ok?
    ensures Next(cfg, s, OnReport(DuplicateReport(r, copies, title))).db == Assets.Duplicate(s.db, s.clock, s.duplicating[r], r, copies, title).value
  {
  }

  // ----- deleting -----

  /** The rows that do not belong to the report stay as they are. */
  ghost predicate OnlyReportGone(db: Db, after: Db, r: ReportId) {
    && after.reports == db.reports - {r} && after.grants == db.grants
    && (forall a :: (a in after.assets <==> a in db.assets && db.assets[a].report != r) && (a in after.assets ==> after.assets[a] == db.assets[a]))
    && (forall g :: (g in after.generations <==> g in db.generations && db.generations[g].report != r)
                    && (g in after.generations ==> after.generations[g] == db.generations[g]))
  }

  /** The key of an asset or of the output of the report. */
  ghost predicate Held(db: Db, r: ReportId, key: StorageKey) {
    || (exists a :: a in db.assets && db.assets[a].report == r && db.assets[a].storageKey == key)
    || (r in db.outputs && db.outputs[r].storageKey == key)
  }

  /** Its keys are tasks, besides those that already were. */
  ghost predicate KeysHandedOver(db: Db, after: Db, r: ReportId) {
    forall k :: k in after.tasks <==> k in db.tasks || Held(db, r, k)
  }

  /** Of the attempts, those go that belong to its generations or its assets. */
  predicate AttemptsCascade(db: Db, after: Db, r: ReportId) {
    && (forall i | i in after.attempts :: i in db.attempts && after.attempts[i] == db.attempts[i])
    && (forall i | i in db.attempts && db.attempts[i].generation in db.generations
                   && (db.attempts[i].asset.Some? ==> db.attempts[i].asset.value in db.assets) ::
          i in after.attempts <==> db.generations[db.attempts[i].generation].report != r
                                   && (db.attempts[i].asset.Some? ==> db.assets[db.attempts[i].asset.value].report != r))
  }

  /** Ledger rows stay, without the column of a generation that is gone. */
  predicate LedgerDetached(db: Db, after: Db, r: ReportId) {
    && after.ledger.Keys == db.ledger.Keys
    && forall k | k in db.ledger ::
         after.ledger[k] == if db.ledger[k].generation.Some? && db.ledger[k].generation.value in db.generations
                               && db.generations[db.ledger[k].generation.value].report == r
                            then db.ledger[k].(generation := None) else db.ledger[k]
  }

  ghost predicate Deleted(db: Db, after: Db, r: ReportId) {
    OnlyReportGone(db, after, r) && KeysHandedOver(db, after, r) && AttemptsCascade(db, after, r) && LedgerDetached(db, after, r)
    && r !in after.outputs
  }

  lemma DeletionRows(db: Db, user: UserId, r: ReportId)
    requires r in db.reports && db.reports[r].user == user && !db.reports[r].status.QUEUED? && !db.reports[r].status.PROCESSING?
    ensures Assets.DeleteReport(db, user, r).Ok?
    ensures var after := Assets.DeleteReport(db, user, r).value; OnlyReportGone(db, after, r) && KeysHandedOver(db, after, r) && r !in after.outputs
  {
    var after := Assets.DeleteReport(db, user, r).value;
    forall k ensures k in after.tasks <==> k in db.tasks || Held(db, r, k) {}
  }

  lemma DeletionCascades(db: Db, user: UserId, r: ReportId)
    requires Assets.DeleteReport(db, user, r).Ok?
    ensures var after := Assets.DeleteReport(db, user, r).value; AttemptsCascade(db, after, r) && LedgerDetached(db, after, r)
  {
  }

  /** A report can be deleted by its user exactly while no generation of it is queued or processing. */
  lemma DeletedIff(cfg: Config, s: Sys, user: UserId, r: ReportId)
    ensures var after := Next(cfg, s, DeleteReport(user, r));
            if r in s.db.reports && s.db.reports[r].user == user && !s.db.reports[r].status.QUEUED? && !s.db.reports[r].status.PROCESSING?
            then Deleted(s.db, after.db, r) && after == s.(db := after.db)
            else after == s
  {
    if r in s.db.reports && s.db.reports[r].user == user && !s.db.reports[r].status.QUEUED? && !s.db.reports[r].status.PROCESSING? {
      DeletionRows(s.db, user, r);
      DeletionCascades(s.db, user, r);
    }
  }
}
