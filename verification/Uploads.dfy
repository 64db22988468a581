/** When an upload is accepted and when it is confirmed, in terms of the rows and
    the object store, and that one that keeps to the rules is. */
module Uploads {
  import opened Rows
  import opened Protocol
  import Assets
  import AssetsService
  import Runs

  // ----- what counts -----

  /** Ready assets, and uploads that were requested at most their lifetime ago. */
  function Holding(assets: map<AssetId, Asset>, r: ReportId, cfg: Config, now: Time): set<AssetId> {
    set a | a in assets && assets[a].report == r
            && (assets[a].status.Uploaded? || (assets[a].status.Pending? && now - assets[a].createdAt <= cfg.pendingTtlMs))
  }

  lemma HoldingIsCounted(assets: map<AssetId, Asset>, r: ReportId, cfg: Config, now: Time)
    ensures Holding(assets, r, cfg, now) == Assets.CountedOf(assets, r, cfg, now)
  {
  }

  /** The limits in plain terms: of each kind, in bytes and in positions, in every reachable state. */
  lemma LimitsHold(cfg: Config, run: seq<Action>, r: ReportId, kind: AssetType)
    ensures var s := Runs.Reached(cfg, run); var holding := Holding(s.db.assets, r, cfg, s.clock);
            && |set a | a in holding && s.db.assets[a].kind == kind| <= cfg.MaximumCount(kind)
            && Assets.TotalBytes(s.db.assets, holding) <= cfg.maxReportBytes
            && forall a, b | a in holding && b in holding && s.db.assets[a].position == s.db.assets[b].position :: a == b
  {
    var s := Runs.Reached(cfg, run);
    HoldingIsCounted(s.db.assets, r, cfg, s.clock);
    Runs.SlotsStayWithinLimits(cfg, run, r, kind);
    assert (set a | a in Holding(s.db.assets, r, cfg, s.clock) && s.db.assets[a].kind == kind)
        == Assets.OfKind(s.db.assets, Holding(s.db.assets, r, cfg, s.clock), kind);
  }

  predicate EditableBy(reports: map<ReportId, Report>, user: UserId, r: ReportId) {
    r in reports && reports[r].user == user && (reports[r].status.DRAFT? || reports[r].status.FAILED?)
  }

  // ----- requests -----

  ghost predicate RoomFor(cfg: Config, db: Db, now: Time, r: ReportId, request: Assets.UploadRequest) {
    var holding := Holding(db.assets, r, cfg, now);
    && |set a | a in holding && db.assets[a].kind == request.kind| < cfg.MaximumCount(request.kind)
    && Assets.TotalBytes(db.assets, holding) + request.size <= cfg.maxReportBytes
  }

  /** A pending upload as declared, behind everything that counts. */
  predicate Requested(cfg: Config, db: Db, now: Time, row: Asset, r: ReportId, key: StorageKey, request: Assets.UploadRequest) {
    && row.report == r && row.status.Pending? && row.storageKey == key && row.createdAt == now
    && row.kind == request.kind && row.mimeType == request.mimeType && row.declaredSize == request.size && row.verifiedSize.None?
    && row.position >= 0 && forall a | a in Holding(db.assets, r, cfg, now) :: db.assets[a].position < row.position
  }

  predicate Unused(s: Sys, a: AssetId, key: StorageKey) {
    a !in s.db.assets && key !in s.history.owed && forall b | b in s.db.assets :: s.db.assets[b].storageKey != key
  }

  ghost predicate AcceptedIff(cfg: Config, s: Sys, after: Sys, user: UserId, r: ReportId, a: AssetId, key: StorageKey,
                             request: Assets.UploadRequest) {
    if EditableBy(s.db.reports, user, r) && RoomFor(cfg, s.db, s.clock, r, request) then
      && a in after.db.assets && Requested(cfg, s.db, s.clock, after.db.assets[a], r, key, request)
      && after == s.(db := s.db.(assets := s.db.assets[a := after.db.assets[a]]), history := s.history.(owed := s.history.owed + {key}))
    else after == s
  }

  /** A request under a fresh identifier and key is accepted exactly while the report is its user's and editable and there
      is room for one more of its kind and for its bytes. */
  lemma RequestAcceptedIff(cfg: Config, s: Sys, user: UserId, r: ReportId, a: AssetId, nonce: nat, request: Assets.UploadRequest)
    requires Unused(s, a, AssetKey(user, r, a, nonce))
    ensures AcceptedIff(cfg, s, Next(cfg, s, OnUpload(RequestUpload(user, r, a, nonce, request))), user, r, a, AssetKey(user, r, a, nonce), request)
  {
    RequestByRows(cfg, s.db, s.clock, user, r, a, AssetKey(user, r, a, nonce), request);
    RequestCommits(cfg, s, user, r, a, nonce, request);
  }

  lemma RequestByRows(cfg: Config, db: Db, now: Time, user: UserId, r: ReportId, a: AssetId, key: StorageKey, request: Assets.UploadRequest)
    requires a !in db.assets && forall b | b in db.assets :: db.assets[b].storageKey != key
    ensures var requested := Assets.RequestUpload(cfg, db, now, user, r, a, key, request);
            && (requested.Ok? <==> EditableBy(db.reports, user, r) && RoomFor(cfg, db, now, r, request))
            && (requested.Ok? ==> a in requested.value.assets && Requested(cfg, db, now, requested.value.assets[a], r, key, request)
                                  && requested.value == db.(assets := db.assets[a := requested.value.assets[a]]))
  {
    var holding := Holding(db.assets, r, cfg, now);
    HoldingIsCounted(db.assets, r, cfg, now);
    assert (set b | b in holding && db.assets[b].kind == request.kind) == Assets.OfKind(db.assets, holding, request.kind);
  }

  lemma RequestCommits(cfg: Config, s: Sys, user: UserId, r: ReportId, a: AssetId, nonce: nat, request: Assets.UploadRequest)
    requires AssetKey(user, r, a, nonce) !in s.history.owed
    ensures var key := AssetKey(user, r, a, nonce);
            Next(cfg, s, OnUpload(RequestUpload(user, r, a, nonce, request)))
            == match Assets.RequestUpload(cfg, s.db, s.clock, user, r, a, key, request)
               case Err(_) => s
               case Ok(db) => s.(db := db, history := s.history.(owed := s.history.owed + {key}))
  {
  }

  // ----- confirmations -----

  /** The report is its user's and editable, the upload is not too old, its object is there in the declared size, which is
      not zero, and holds what was declared. */
  predicate Confirmable(cfg: Config, s: Sys, user: UserId, r: ReportId, a: AssetId, inspected: bool) {
    && EditableBy(s.db.reports, user, r)
    && a in s.db.assets && s.db.assets[a].report == r && s.db.assets[a].status.Pending?
    && s.clock - s.db.assets[a].createdAt <= cfg.pendingTtlMs
    && s.db.assets[a].storageKey in s.objects && s.objects[s.db.assets[a].storageKey] == s.db.assets[a].declaredSize != 0
    && inspected
  }

  /** A confirmation makes an upload ready, with the size of its object, exactly then; it changes nothing else, and
      otherwise nothing at all. */
  lemma ConfirmedIff(cfg: Config, s: Sys, user: UserId, r: ReportId, a: AssetId, inspected: bool)
    ensures var after := Next(cfg, s, OnUpload(ConfirmUpload(user, r, a, inspected)));
            if Confirmable(cfg, s, user, r, a, inspected) then
              after == s.(db := s.db.(assets := s.db.assets[a :=
                         s.db.assets[a].(status := AssetStatus.Uploaded, verifiedSize := Some(s.objects[s.db.assets[a].storageKey]))]))
            else after == s
  {
  }

  /** What the cleanup rejects is exactly what no confirmation can make ready any more: a pending upload that does not
      count. */
  lemma ExpiredIffTooLate(cfg: Config, assets: map<AssetId, Asset>, r: Option<ReportId>, now: Time, a: AssetId)
    requires a in assets && assets[a].status.Pending? && (r.Some? ==> assets[a].report == r.value)
    ensures a in AssetsService.Expired(assets, r, cfg, now) <==> a !in Holding(assets, assets[a].report, cfg, now)
    ensures a in AssetsService.Expired(assets, r, cfg, now) <==> now - assets[a].createdAt > cfg.pendingTtlMs
  {
  }

  // ----- a whole upload -----

  /** What a pending upload is once its object is stored, some time has passed and it is confirmed. */
  function Ready(s: Sys, a: AssetId, to: Time): Sys
    requires a in s.db.assets
  {
    var row := s.db.assets[a];
    s.(objects := s.objects[row.storageKey := row.declaredSize], clock := to,
       db := s.db.(assets := s.db.assets[a := row.(status := AssetStatus.Uploaded, verifiedSize := Some(row.declaredSize))]))
  }

  lemma StoredIsConfirmed(cfg: Config, s: Sys, user: UserId, r: ReportId, a: AssetId, to: Time)
    requires EditableBy(s.db.reports, user, r) && a in s.db.assets && s.db.assets[a].report == r && s.db.assets[a].status.Pending?
    requires s.db.assets[a].storageKey.AssetKey? && s.db.assets[a].declaredSize > 0
    requires s.clock <= to && to - s.db.assets[a].createdAt <= cfg.pendingTtlMs
    ensures var stored := Next(cfg, s, OnStorage(StoreAssetObject(s.db.assets[a].storageKey, s.db.assets[a].declaredSize)));
            Next(cfg, Next(cfg, stored, Tick(to)), OnUpload(ConfirmUpload(user, r, a, true))) == Ready(s, a, to)
  {
    var row := s.db.assets[a];
    var stored := s.(objects := s.objects[row.storageKey := row.declaredSize]);
    assert stored == Next(cfg, s, OnStorage(StoreAssetObject(row.storageKey, row.declaredSize)));
    var later := stored.(clock := to);
    assert later == Next(cfg, stored, Tick(to));
    ConfirmedIff(cfg, later, user, r, a, true);
  }

  /** A request with room, the object, and a confirmation within the lifetime end in a ready asset of the declared size. */
  lemma UploadSucceeds(cfg: Config, s: Sys, user: UserId, r: ReportId, a: AssetId, nonce: nat, request: Assets.UploadRequest, to: Time)
    requires Unused(s, a, AssetKey(user, r, a, nonce)) && EditableBy(s.db.reports, user, r) && RoomFor(cfg, s.db, s.clock, r, request)
    requires request.size > 0 && s.clock <= to <= s.clock + cfg.pendingTtlMs
    ensures var key := AssetKey(user, r, a, nonce);
            var run := [OnUpload(RequestUpload(user, r, a, nonce, request)), OnStorage(StoreAssetObject(key, request.size)), Tick(to),
                        OnUpload(ConfirmUpload(user, r, a, true))];
            UploadedAs(s, After(cfg, s, run), r, a, key, request)
  {
    var key := AssetKey(user, r, a, nonce);
    RequestAcceptedIff(cfg, s, user, r, a, nonce, request);
    var asked := Next(cfg, s, OnUpload(RequestUpload(user, r, a, nonce, request)));
    AcceptedIsUploaded(cfg, s, asked, user, r, a, key, request, to);
    StoredIsConfirmed(cfg, asked, user, r, a, to);
    FourSteps(cfg, s, OnUpload(RequestUpload(user, r, a, nonce, request)), OnStorage(StoreAssetObject(key, request.size)), Tick(to),
              OnUpload(ConfirmUpload(user, r, a, true)));
  }

  predicate UploadedAs(s: Sys, after: Sys, r: ReportId, a: AssetId, key: StorageKey, request: Assets.UploadRequest) {
    && a in after.db.assets && after.db.assets[a].status.Uploaded? && after.db.assets[a].verifiedSize == Some(request.size)
    && after.db.assets[a].report == r && after.db.assets[a].kind == request.kind && after.db.assets[a].storageKey == key
    && forall b | b in s.db.assets :: b in after.db.assets && after.db.assets[b] == s.db.assets[b]
  }

  lemma AcceptedIsUploaded(cfg: Config, s: Sys, asked: Sys, user: UserId, r: ReportId, a: AssetId, key: StorageKey,
                           request: Assets.UploadRequest, to: Time)
    requires AcceptedIff(cfg, s, asked, user, r, a, key, request) && EditableBy(s.db.reports, user, r) && RoomFor(cfg, s.db, s.clock, r, request)
    requires a !in s.db.assets
    ensures a in asked.db.assets && Requested(cfg, s.db, s.clock, asked.db.assets[a], r, key, request)
    ensures asked.db.reports == s.db.reports && asked.clock == s.clock
    ensures UploadedAs(s, Ready(asked, a, to), r, a, key, request)
  {
  }

  lemma FourSteps(cfg: Config, s: Sys, a: Action, b: Action, c: Action, d: Action)
    ensures After(cfg, s, [a, b, c, d]) == Next(cfg, Next(cfg, Next(cfg, Next(cfg, s, a), b), c), d)
  {
    assert After(cfg, s, []) == s;
    AfterStep(cfg, s, [], a);
    AfterStep(cfg, s, [a], b);
    AfterStep(cfg, s, [a, b], c);
    AfterStep(cfg, s, [a, b, c], d);
    assert [] + [a] == [a] && [a] + [b] == [a, b] && [a, b] + [c] == [a, b, c] && [a, b, c] + [d] == [a, b, c, d];
  }

  // ----- deletions and rejections -----

  /** Deleting an asset works for the user of an editable report: its row goes, with the attempts to transcribe it, its key
      becomes a task, and every other row stays. */
  lemma AssetDeletedIff(cfg: Config, s: Sys, user: UserId, r: ReportId, a: AssetId)
    requires a in s.db.assets
    ensures var after := Next(cfg, s, OnUpload(DeleteAsset(user, r, a)));
            if EditableBy(s.db.reports, user, r) && s.db.assets[a].report == r then
              && after.db.assets == s.db.assets - {a} && after.db.tasks == s.db.tasks + {s.db.assets[a].storageKey}
              && (forall id | id in s.db.attempts :: id in after.db.attempts <==> s.db.attempts[id].asset != Some(a))
              && (forall id | id in after.db.attempts :: id in s.db.attempts && after.db.attempts[id] == s.db.attempts[id])
              && after == s.(db := s.db.(assets := after.db.assets, tasks := after.db.tasks, attempts := after.db.attempts))
            else after == s
  {
  }

  /** A pending upload for which no contract could be issued leaves no row and owes no key. */
  lemma WithdrawnIff(cfg: Config, s: Sys, a: AssetId)
    requires a in s.db.assets
    ensures Next(cfg, s, OnUpload(WithdrawUpload(a)))
            == if s.db.assets[a].status.Pending?
               then s.(db := s.db.(assets := s.db.assets - {a}), history := s.history.(owed := s.history.owed - {s.db.assets[a].storageKey}))
               else s
  {
  }

  /** A rejection flips a pending upload and nothing else. */
  lemma RejectedIff(cfg: Config, s: Sys, a: AssetId)
    requires a in s.db.assets
    ensures var after := Next(cfg, s, OnUpload(FinishRejection(a)));
            after == if s.db.assets[a].status.Pending?
                     then s.(db := s.db.(assets := s.db.assets[a := s.db.assets[a].(status := AssetStatus.Rejected)])) else s
  {
  }
}
