/** Starting, cancelling and compensating a generation: ReportGenerationsService. */
module Generations {
  import opened Rows
  import Credits
  import Throttle

  predicate Active(row: Generation) {
    row.status.Queued? || row.status.Processing?
  }

  predicate SameRequest(row: Generation, user: UserId, r: ReportId, key: string) {
    row.user == user && row.report == r && row.idempotencyKey == key
  }

  /** The generations of a user (of everyone, for None) created at or after a moment. */
  function CreatedSince(generations: map<GenerationId, Generation>, user: Option<UserId>, since: Time): set<GenerationId> {
    set g | g in generations && (user.None? || generations[g].user == user.value) && generations[g].createdAt >= since
  }

  predicate WithinStartLimits(cfg: Config, generations: map<GenerationId, Generation>, user: UserId, now: Time) {
    && |CreatedSince(generations, Some(user), now - cfg.startWindowMs)| < cfg.startLimit
    && |CreatedSince(generations, Some(user), now - DAY_MS)| < cfg.dailyLimit
    && |CreatedSince(generations, None, now - DAY_MS)| < cfg.globalDailyLimit
  }

  function AssetsOf(assets: map<AssetId, Asset>, r: ReportId): map<AssetId, Asset> {
    map a | a in assets && assets[a].report == r :: assets[a]
  }

  function ReadyAssets(assets: map<AssetId, Asset>, r: ReportId): map<AssetId, Asset> {
    map a | a in assets && assets[a].report == r && assets[a].status.Uploaded? :: assets[a]
  }

  /** What trim removes: WhiteSpace and LineTerminator, sections 12.2 and 12.3 of ECMA-262. */
  predicate Trimmed(c: char) {
    var code := c as int;
    || 0x09 <= code <= 0x0D || code == 0x20 || code == 0xA0 || code == 0x1680 || 0x2000 <= code <= 0x200A
    || code == 0x2028 || code == 0x2029 || code == 0x202F || code == 0x205F || code == 0x3000 || code == 0xFEFF
  }

  predicate Blank(notes: string) {
    forall i | 0 <= i < |notes| :: Trimmed(notes[i])
  }

  predicate SourcesValid(notes: string, assets: map<AssetId, Asset>) {
    && (forall a | a in assets :: assets[a].status.Uploaded?)
    && (!Blank(notes) || assets != map[])
  }

  /** The body of the serializable transaction of start. A duplicate request changes nothing. */
  ghost function Start(cfg: Config, db: Db, now: Time, user: UserId, r: ReportId, key: string, g: GenerationId,
                       emailVerified: bool): Outcome<Db> {
    if exists h :: h in db.generations && SameRequest(db.generations[h], user, r, key) then Ok(db)
    else if r !in db.reports || db.reports[r].user != user then Err(NotFound)
    else
      var report := db.reports[r];
      if !emailVerified then Err(Forbidden)
      else if report.status.PROCESSING? || report.status.QUEUED? then Err(GenerationActive)
      else if !report.status.DRAFT? && !report.status.FAILED? then Err(NotEditable)
      else if !Throttle.Unlocked(report.throttle, now) then Err(Locked)
      else if !SourcesValid(report.notes, AssetsOf(db.assets, r)) then Err(BadSources)
      else if !WithinStartLimits(cfg, db.generations, user, now) then Err(RateLimited)
      else if g in db.generations || (exists h :: h in db.generations && db.generations[h].report == r && Active(db.generations[h])) then
        Err(Constraint)
      else
        var row := Generation(r, user, key, GenerationStatus.Queued, None, None,
                              Snapshot(report.title, report.notes, ReadyAssets(db.assets, r)),
                              None, report.status, now, false);
        match Credits.Reserve(db.(generations := db.generations[g := row]), now, user, g)
        case Err(e) => Err(e)
        case Ok(reserved) => Ok(reserved.(reports := db.reports[r := report.(status := QUEUED)]))
  }

  function Cancel(db: Db, user: UserId, r: ReportId, g: GenerationId): Outcome<Db> {
    if g !in db.generations || db.generations[g].report != r || db.generations[g].user != user
       || !db.generations[g].status.Queued? then Err(NotCancellable)
    else if r !in db.reports then Err(NotFound)
    else
      var row := db.generations[g];
      Credits.Release(db.(generations := db.generations[g := row.(status := GenerationStatus.Cancelled)],
                          reports := db.reports[r := db.reports[r].(status := row.priorReportStatus)]), g)
  }

  /** Deletes generations with what ON DELETE CASCADE and ON DELETE SET NULL take along. */
  function DeleteGenerations(db: Db, gone: set<GenerationId>): Db {
    db.(generations := map g | g in db.generations && g !in gone :: db.generations[g],
        attempts := map id | id in db.attempts && db.attempts[id].generation !in gone :: db.attempts[id],
        outputs := map r | r in db.outputs && db.outputs[r].generation !in gone :: db.outputs[r],
        ledger := Credits.Detach(db.ledger, gone))
  }

  function Compensate(db: Db, g: GenerationId): Outcome<Db> {
    if g !in db.generations || !db.generations[g].status.Queued? then Ok(db)
    else
      match Credits.Release(db, g)
      case Err(e) => Err(e)
      case Ok(released) =>
        var row := db.generations[g];
        var restored := if row.report in db.reports && db.reports[row.report].status.QUEUED?
                        then db.reports[row.report := db.reports[row.report].(status := row.priorReportStatus)]
                        else db.reports;
        Ok(DeleteGenerations(released.(reports := restored), {g}))
  }

  function MarkEnqueued(db: Db, g: GenerationId): Db {
    if g in db.generations && db.generations[g].status.Queued? && !db.generations[g].enqueued
    then db.(generations := db.generations[g := db.generations[g].(enqueued := true)])
    else db
  }
}
