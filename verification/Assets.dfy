/** Asset slots, the reports that hold them and the hand-over of storage keys to
    cleanup tasks: ReportAssetsService and ReportsService. */
module Assets {
  import opened Rows
  import opened Lifecycle
  import Generations
  import Throttle

  /** Ready assets and uploads that have not expired: what the limits count. */
  predicate Counted(asset: Asset, cfg: Config, now: Time) {
    asset.status.Uploaded? || (asset.status.Pending? && asset.createdAt >= now - cfg.pendingTtlMs)
  }

  function CountedOf(assets: map<AssetId, Asset>, r: ReportId, cfg: Config, now: Time): set<AssetId> {
    set a | a in assets && assets[a].report == r && Counted(assets[a], cfg, now)
  }

  function OfKind(assets: map<AssetId, Asset>, ids: set<AssetId>, kind: AssetType): set<AssetId>
    requires ids <= assets.Keys
  {
    set a | a in ids && assets[a].kind == kind
  }

  function Bytes(asset: Asset): nat {
    match asset.verifiedSize
    case Some(size) => size
    case None => asset.declaredSize
  }

  ghost function TotalBytes(assets: map<AssetId, Asset>, ids: set<AssetId>): nat
    requires ids <= assets.Keys
    decreases |ids|
  {
    if ids == {} then 0
    else
      var a :| a in ids;
      Bytes(assets[a]) + TotalBytes(assets, ids - {a})
  }

  /** The largest position in use, -1 without any. */
  ghost function MaxPosition(assets: map<AssetId, Asset>, ids: set<AssetId>): (maximum: int)
    requires ids <= assets.Keys
    ensures maximum >= -1
    ensures forall a | a in ids :: assets[a].position <= maximum
    ensures maximum > -1 ==> exists a :: a in ids && assets[a].position == maximum
    decreases |ids|
  {
    if ids == {} then -1
    else
      var a :| a in ids;
      var rest := MaxPosition(assets, ids - {a});
      if assets[a].position > rest then assets[a].position else rest
  }

  datatype UploadRequest = UploadRequest(kind: AssetType, mimeType: string, size: nat)

  /** createPendingAssetWithinLimits. */
  ghost function RequestUpload(cfg: Config, db: Db, now: Time, user: UserId, r: ReportId, a: AssetId, key: StorageKey,
                               request: UploadRequest): Outcome<Db> {
    if r !in db.reports || db.reports[r].user != user then Err(NotFound)
    else if !Editable(db.reports[r].status) then Err(EditError(db.reports[r].status))
    else
      var counted := CountedOf(db.assets, r, cfg, now);
      if |OfKind(db.assets, counted, request.kind)| >= cfg.MaximumCount(request.kind) then Err(LimitReached)
      else if TotalBytes(db.assets, counted) + request.size > cfg.maxReportBytes then Err(LimitReached)
      else if a in db.assets || (exists b :: b in db.assets && db.assets[b].storageKey == key) then Err(Constraint)
      else Ok(db.(assets := db.assets[a := Asset(r, request.kind, Pending, key, request.mimeType, request.size, None,
                                           MaxPosition(db.assets, counted) + 1, now)]))
  }

  /** The row goes when no upload contract could be issued for it. */
  function WithdrawUpload(db: Db, a: AssetId): Db {
    if a in db.assets && db.assets[a].status.Pending? then db.(assets := db.assets - {a}) else db
  }

  /** confirmUpload, taken as one step: the stored object has the declared size and the declared type. */
  function ConfirmUpload(cfg: Config, db: Db, now: Time, user: UserId, r: ReportId, a: AssetId, objectSize: nat): Outcome<Db> {
    if r !in db.reports || db.reports[r].user != user || a !in db.assets || db.assets[a].report != r then Err(NotFound)
    else if db.assets[a].status.Uploaded? then Ok(db)
    else if db.assets[a].status.Rejected? then Err(Other)
    else if !Editable(db.reports[r].status) then Err(EditError(db.reports[r].status))
    else if db.assets[a].createdAt < now - cfg.pendingTtlMs || objectSize == 0 || objectSize != db.assets[a].declaredSize then Err(Other)
    else Ok(db.(assets := db.assets[a := db.assets[a].(status := AssetStatus.Uploaded, verifiedSize := Some(objectSize))]))
  }

  /** The status flip that ends a rejection or an expiry. */
  function Reject(db: Db, a: AssetId): Db {
    if a in db.assets && db.assets[a].status.Pending?
    then db.(assets := db.assets[a := db.assets[a].(status := AssetStatus.Rejected)])
    else db
  }

  /** delete, with its status check and its transaction taken as one step. */
  function DeleteAsset(db: Db, user: UserId, r: ReportId, a: AssetId): Outcome<Db> {
    if r !in db.reports || db.reports[r].user != user then Err(NotFound)
    else if !Editable(db.reports[r].status) then Err(EditError(db.reports[r].status))
    else if a !in db.assets then Ok(db)
    else if db.assets[a].report != r then Err(NotFound)
    else Ok(db.(tasks := db.tasks + {db.assets[a].storageKey},
                assets := db.assets - {a},
                attempts := map id | id in db.attempts && db.attempts[id].asset != Some(a) :: db.attempts[id]))
  }

  // ----- reports -----

  function CreateReport(db: Db, r: ReportId, user: UserId, title: string, notes: string): Outcome<Db> {
    if r in db.reports then Err(Constraint)
    else Ok(db.(reports := db.reports[r := Report(user, title, notes, DRAFT, Throttle.CLEAR)]))
  }

  function UpdateReport(db: Db, user: UserId, r: ReportId, title: string, notes: string): Outcome<Db> {
    if r !in db.reports || db.reports[r].user != user then Err(NotFound)
    else if !Editable(db.reports[r].status) then Err(EditError(db.reports[r].status))
    else Ok(db.(reports := db.reports[r := db.reports[r].(title := title, notes := notes)]))
  }

  function KeysOf(db: Db, r: ReportId): set<StorageKey> {
    (set a | a in db.assets && db.assets[a].report == r :: db.assets[a].storageKey)
    + (if r in db.outputs then {db.outputs[r].storageKey} else {})
  }

  function GenerationsOf(db: Db, r: ReportId): set<GenerationId> {
    set g | g in db.generations && db.generations[g].report == r
  }

  /** Every key of the report becomes a task in the transaction that deletes the rows. */
  function DeleteReport(db: Db, user: UserId, r: ReportId): Outcome<Db> {
    if r !in db.reports || db.reports[r].user != user then Err(NotFound)
    else if db.reports[r].status.QUEUED? || db.reports[r].status.PROCESSING? then Err(GenerationActive)
    else
      var without := Generations.DeleteGenerations(db, GenerationsOf(db, r));
      Ok(without.(tasks := db.tasks + KeysOf(db, r),
                  reports := db.reports - {r},
                  assets := map a | a in db.assets && db.assets[a].report != r :: db.assets[a],
                  attempts := map id | id in without.attempts
                                       && (without.attempts[id].asset.Some? ==>
                                             without.attempts[id].asset.value in db.assets
                                             && db.assets[without.attempts[id].asset.value].report != r)
                                :: without.attempts[id],
                  outputs := map h | h in without.outputs && h != r :: without.outputs[h]))
  }

  /** What duplicate reads before it copies any object: the notes of the source and its ready assets. */
  datatype Source = Source(user: UserId, notes: string, rows: map<AssetId, Asset>)

  function ReadSource(db: Db, user: UserId, source: ReportId): Outcome<Source> {
    if source !in db.reports || db.reports[source].user != user then Err(NotFound)
    else if !db.reports[source].status.READY? then Err(NotEditable)
    else Ok(Source(user, db.reports[source].notes, Generations.ReadyAssets(db.assets, source)))
  }

  /** What a new asset of a duplicate copies, and the key its object is copied to. */
  datatype Copy = Copy(source: AssetId, storageKey: StorageKey)

  /** One copy of every asset that was read. */
  predicate CopiesOf(read: Source, copies: map<AssetId, Copy>) {
    && (forall a | a in copies :: copies[a].source in read.rows)
    && (forall b | b in read.rows :: exists a :: a in copies && copies[a].source == b)
    && (forall a, b | a in copies && b in copies && a != b ::
          copies[a].source != copies[b].source && copies[a].storageKey != copies[b].storageKey)
    && (forall a, b | a in copies && b in read.rows :: read.rows[b].storageKey != copies[a].storageKey)
  }

  /** Its id and key are drawn afresh. */
  predicate CopiesFresh(db: Db, copies: map<AssetId, Copy>) {
    && (forall a | a in copies :: a !in db.assets && copies[a].storageKey.AssetKey?)
    && (forall a, b | a in copies && b in db.assets :: db.assets[b].storageKey != copies[a].storageKey)
  }

  /** The insert that ends duplicate, once every object has been copied, from what was read before: the source may have
      gone in the meantime. */
  function Duplicate(db: Db, now: Time, read: Source, r: ReportId, copies: map<AssetId, Copy>, title: string): Outcome<Db> {
    if r in db.reports || !CopiesOf(read, copies) || !CopiesFresh(db, copies) then Err(Constraint)
    else Ok(db.(reports := db.reports[r := Report(read.user, title, read.notes, DRAFT, Throttle.CLEAR)],
                assets := map a | a in db.assets.Keys + copies.Keys ::
                  if a in copies
                  then read.rows[copies[a].source].(report := r, storageKey := copies[a].storageKey, createdAt := now)
                  else db.assets[a]))
  }
}
