/** ReportAssetsService statement by statement, proved against the functions of Assets. */
module AssetsService {
  import opened Rows
  import opened Tables
  import opened Assets
  import Lifecycle
  import SlotLaws
  import CleanupService
  import Inspection
  import Verdicts

  // ----- slots -----

  /** The reduce over the sizes. */
  method ReservedBytes(assets: map<AssetId, Asset>, active: set<AssetId>) returns (total: nat)
    requires active <= assets.Keys
    ensures total == TotalBytes(assets, active)
  {
    total := 0;
    var rest := active;
    while rest != {}
      invariant rest <= active && total + TotalBytes(assets, rest) == TotalBytes(assets, active)
      decreases |rest|
    {
      var a :| a in rest;
      SlotLaws.TakeOut(assets, rest, a);
      total := total + Bytes(assets[a]);
      rest := rest - {a};
    }
  }

  /** The reduce over the positions. */
  method MaximumPosition(assets: map<AssetId, Asset>, active: set<AssetId>) returns (maximum: int)
    requires active <= assets.Keys
    ensures maximum == MaxPosition(assets, active)
  {
    maximum := -1;
    var rest := active;
    while rest != {}
      invariant rest <= active && maximum >= -1
      invariant forall a | a in active - rest :: assets[a].position <= maximum
      invariant maximum > -1 ==> exists a :: a in active && assets[a].position == maximum
      decreases |rest|
    {
      var a :| a in rest;
      if assets[a].position > maximum { maximum := assets[a].position; }
      rest := rest - {a};
    }
    var expected := MaxPosition(assets, active);
    assert maximum <= expected && expected <= maximum;
  }

  /** The limits, and the largest position if they are kept. */
  method NextSlot(assets: map<AssetId, Asset>, active: set<AssetId>, cfg: Config, request: UploadRequest) returns (within: bool, maximum: int)
    requires active <= assets.Keys
    ensures within <==>
              |OfKind(assets, active, request.kind)| < cfg.MaximumCount(request.kind)
              && TotalBytes(assets, active) + request.size <= cfg.maxReportBytes
    ensures within ==> maximum == MaxPosition(assets, active)
  {
    if |OfKind(assets, active, request.kind)| >= cfg.MaximumCount(request.kind) { return false, -1; }
    var reserved := ReservedBytes(assets, active);
    if reserved + request.size > cfg.maxReportBytes { return false, -1; }
    maximum := MaximumPosition(assets, active);
    return true, maximum;
  }

  method CreatePendingOnce(prisma: Prisma, cfg: Config, now: Time, user: UserId, r: ReportId, a: AssetId, key: StorageKey,
                           request: UploadRequest) returns (thrown: Option<Error>)
    modifies prisma
    ensures Settles(old(prisma.Committed()), prisma.Committed(),
                    RequestUpload(cfg, old(prisma.Committed()), now, user, r, a, key, request), thrown)
  {
    if r !in prisma.reports || prisma.reports[r].user != user { return Some(NotFound); }
    if !Lifecycle.Editable(prisma.reports[r].status) { return Some(Lifecycle.EditError(prisma.reports[r].status)); }
    var within, maximum := NextSlot(prisma.assets, CountedOf(prisma.assets, r, cfg, now), cfg, request);
    if !within { return Some(LimitReached); }
    if a in prisma.assets || exists b :: b in prisma.assets && prisma.assets[b].storageKey == key { return Some(Constraint); }
    prisma.assets := prisma.assets[a := Asset(r, request.kind, Pending, key, request.mimeType, request.size, None, maximum + 1, now)];
    return None;
  }

  const SERIALIZABLE_TRANSACTION_ATTEMPTS := 3

  /** createPendingAssetWithinLimits: up to three tries under one asset id and one key; an aborted try leaves no trace. */
  method CreatePendingAssetWithinLimits(prisma: Prisma, cfg: Config, now: Time, user: UserId, r: ReportId, a: AssetId, key: StorageKey,
                                        request: UploadRequest, conflicted: seq<bool>) returns (thrown: Option<Error>)
    requires |conflicted| == SERIALIZABLE_TRANSACTION_ATTEMPTS
    modifies prisma
    ensures Settles(old(prisma.Committed()), prisma.Committed(),
                    if forall i | 0 <= i < |conflicted| :: conflicted[i] then Err(SerializationFailure)
                    else RequestUpload(cfg, old(prisma.Committed()), now, user, r, a, key, request), thrown)
  {
    var attempt := 0;
    while attempt < SERIALIZABLE_TRANSACTION_ATTEMPTS
      invariant 0 <= attempt <= SERIALIZABLE_TRANSACTION_ATTEMPTS
      invariant prisma.Committed() == old(prisma.Committed())
      invariant forall i | 0 <= i < attempt :: conflicted[i]
    {
      if !conflicted[attempt] {
        thrown := CreatePendingOnce(prisma, cfg, now, user, r, a, key, request);
        return;
      }
      attempt := attempt + 1;
    }
    return Some(SerializationFailure);
  }

  /** confirmUpload up to its rejections, taken as one step; answers says that the object store does, inspection is what
      the inspector finds in the bytes that were read. */
  method Confirm(prisma: Prisma, storage: CleanupService.ObjectStore, cfg: Config, limits: Verdicts.ContentLimits, now: Time, user: UserId,
                 r: ReportId, a: AssetId, answers: bool, inspection: Option<Inspection.Inspected>) returns (thrown: Option<Error>)
    modifies prisma`assets
    ensures var size := if a in old(prisma.assets) && old(prisma.assets)[a].storageKey in storage.objects && answers
                           && Verdicts.Acceptable(limits, old(prisma.assets)[a], storage.objects[old(prisma.assets)[a].storageKey], inspection)
                        then storage.objects[old(prisma.assets)[a].storageKey] else 0;
            Settles(old(prisma.Committed()), prisma.Committed(),
                    ConfirmUpload(cfg, old(prisma.Committed()), now, user, r, a, size), thrown)
  {
    if r !in prisma.reports || prisma.reports[r].user != user || a !in prisma.assets || prisma.assets[a].report != r {
      return Some(NotFound);
    }
    var asset := prisma.assets[a];
    if asset.status.Uploaded? { return None; }
    if asset.status.Rejected? { return Some(Other); }
    if !Lifecycle.Editable(prisma.reports[r].status) { return Some(Lifecycle.EditError(prisma.reports[r].status)); }
    if asset.createdAt < now - cfg.pendingTtlMs { return Some(Other); }
    if !answers || asset.storageKey !in storage.objects { return Some(Other); }
    var size := storage.objects[asset.storageKey];
    if size > limits.MaximumBytes(asset.kind) { return Some(Other); }
    if size == 0 || size != asset.declaredSize { return Some(Other); }
    if inspection.None? || inspection.value.kind != asset.kind || asset.mimeType != inspection.value.mimeType { return Some(Other); }
    if inspection.value.kind.Image? && inspection.value.dimensions.Some?
       && (inspection.value.dimensions.value.width > limits.imageWidth || inspection.value.dimensions.value.height > limits.imageHeight) {
      return Some(Other);
    }
    if inspection.value.kind.Audio? && inspection.value.duration.Some? && inspection.value.duration.value > limits.audioSeconds as real {
      return Some(Other);
    }
    prisma.assets := prisma.assets[a := asset.(status := AssetStatus.Uploaded, verifiedSize := Some(size))];
    return None;
  }

  // ----- deletion and expiry -----

  method Delete(prisma: Prisma, user: UserId, r: ReportId, a: AssetId) returns (thrown: Option<Error>)
    modifies prisma
    ensures Settles(old(prisma.Committed()), prisma.Committed(), DeleteAsset(old(prisma.Committed()), user, r, a), thrown)
  {
    if r !in prisma.reports || prisma.reports[r].user != user { return Some(NotFound); }
    if !Lifecycle.Editable(prisma.reports[r].status) { return Some(Lifecycle.EditError(prisma.reports[r].status)); }
    if a !in prisma.assets { return None; }
    if prisma.assets[a].report != r { return Some(NotFound); }
    prisma.tasks := prisma.tasks + {prisma.assets[a].storageKey};
    prisma.attempts := map id | id in prisma.attempts && prisma.attempts[id].asset != Some(a) :: prisma.attempts[id];
    prisma.assets := prisma.assets - {a};
    return None;
  }

  /** rejectUpload: the object's deletion is enqueued before the status flips. If the task cannot be stored, nothing
      changes. */
  method RejectUpload(prisma: Prisma, storage: CleanupService.ObjectStore, a: AssetId, enqueues: bool, answers: bool, clears: bool)
    returns (thrown: Option<Error>)
    requires a in prisma.assets
    modifies prisma`assets, prisma`tasks, storage
    ensures thrown.Some?
    ensures !enqueues ==> prisma.Committed() == old(prisma.Committed()) && storage.objects == old(storage.objects)
    ensures enqueues ==>
              var key := old(prisma.assets)[a].storageKey;
              && prisma.assets == Reject(old(prisma.Committed()), a).assets
              && prisma.tasks == (if answers && clears then old(prisma.tasks) - {key} else old(prisma.tasks) + {key})
              && storage.objects == (if answers then old(storage.objects) - {key} else old(storage.objects))
  {
    if !enqueues { return Some(Other); }
    var deleted := CleanupService.EnqueueAndAttempt(prisma, storage, prisma.assets[a].storageKey, answers, clears);
    if prisma.assets[a].status.Pending? {
      prisma.assets := prisma.assets[a := prisma.assets[a].(status := AssetStatus.Rejected)];
    }
    return Some(Other);
  }

  function Expired(assets: map<AssetId, Asset>, r: Option<ReportId>, cfg: Config, now: Time): set<AssetId> {
    set a | a in assets && (r.Some? ==> assets[a].report == r.value) && assets[a].status.Pending?
            && assets[a].createdAt < now - cfg.pendingTtlMs
  }

  function KeysOfAssets(assets: map<AssetId, Asset>, ids: set<AssetId>): set<StorageKey>
    requires ids <= assets.Keys
  {
    set a | a in ids :: assets[a].storageKey
  }

  /** The rows of these uploads flip. */
  predicate Flipped(before: map<AssetId, Asset>, after: map<AssetId, Asset>, ids: set<AssetId>) {
    && after.Keys == before.Keys
    && forall a | a in before :: after[a] == if a in ids then before[a].(status := AssetStatus.Rejected) else before[a]
  }

  /** Which keys can be stored as tasks, which objects the store deletes, and which of their tasks' rows go. */
  datatype Answers = Answers(enqueued: set<StorageKey>, answered: set<StorageKey>, cleared: set<StorageKey>)

  /** Of the keys that were tried, the objects that the store answered for are gone, and a key that is not cleared is a
      task. */
  ghost predicate Handled(tasks: set<StorageKey>, objects: map<StorageKey, nat>, keys: set<StorageKey>, answers: Answers,
                          tasks': set<StorageKey>, objects': map<StorageKey, nat>) {
    && (forall k :: k in tasks' <==> if k in keys then !(k in answers.answered && k in answers.cleared) else k in tasks)
    && (forall k :: k in objects' <==> k in objects && !(k in keys && k in answers.answered))
    && (forall k | k in objects' :: objects'[k] == objects[k])
  }

  lemma OneMoreHandled(tasks: set<StorageKey>, objects: map<StorageKey, nat>, keys: set<StorageKey>, answers: Answers,
                       tasks': set<StorageKey>, objects': map<StorageKey, nat>, key: StorageKey)
    requires Handled(tasks, objects, keys, answers, tasks', objects')
    ensures Handled(tasks, objects, keys + {key}, answers,
                    if key in answers.answered && key in answers.cleared then tasks' - {key} else tasks' + {key},
                    if key in answers.answered then objects' - {key} else objects')
  {
  }

  lemma OneMoreExpired(before: map<AssetId, Asset>, after: map<AssetId, Asset>, done: set<AssetId>, a: AssetId)
    requires Flipped(before, after, done) && done <= before.Keys && a in before && a !in done
    ensures Flipped(before, after[a := after[a].(status := AssetStatus.Rejected)], done + {a})
    ensures KeysOfAssets(before, done + {a}) == KeysOfAssets(before, done) + {after[a].storageKey}
  {
  }

  /** The body of the loop for one expired upload. */
  method RejectExpired(prisma: Prisma, storage: CleanupService.ObjectStore, a: AssetId, answers: Answers)
    requires a in prisma.assets
    modifies prisma`assets, prisma`tasks, storage
    ensures prisma.assets == old(prisma.assets)[a := old(prisma.assets)[a].(status := AssetStatus.Rejected)]
    ensures var key := old(prisma.assets)[a].storageKey;
            && prisma.tasks == (if key in answers.answered && key in answers.cleared then old(prisma.tasks) - {key} else old(prisma.tasks) + {key})
            && storage.objects == (if key in answers.answered then old(storage.objects) - {key} else old(storage.objects))
  {
    var key := prisma.assets[a].storageKey;
    var deleted := CleanupService.EnqueueAndAttempt(prisma, storage, key, key in answers.answered, key in answers.cleared);
    prisma.assets := prisma.assets[a := prisma.assets[a].(status := AssetStatus.Rejected)];
  }

  /** The expired uploads whose key can be stored as a task. */
  function Deferrable(assets: map<AssetId, Asset>, expired: set<AssetId>, answers: Answers): set<AssetId>
    requires expired <= assets.Keys
  {
    set a | a in expired && assets[a].storageKey in answers.enqueued
  }

  /** cleanupExpiredPendingUploads: every expired upload is rejected, and its key is deleted or left as a task; one whose
      task cannot be stored is passed over and stays pending. */
  method CleanupExpiredPendingUploads(prisma: Prisma, storage: CleanupService.ObjectStore, r: Option<ReportId>, cfg: Config, now: Time,
                                      answers: Answers) returns (cleaned: nat)
    modifies prisma`assets, prisma`tasks, storage
    ensures var handled := Deferrable(old(prisma.assets), Expired(old(prisma.assets), r, cfg, now), answers);
            && cleaned == |handled|
            && Flipped(old(prisma.assets), prisma.assets, handled)
            && Handled(old(prisma.tasks), old(storage.objects), KeysOfAssets(old(prisma.assets), handled), answers, prisma.tasks, storage.objects)
  {
    var expired := Expired(prisma.assets, r, cfg, now);
    ghost var assets, tasks, objects := prisma.assets, prisma.tasks, storage.objects;
    ghost var done: set<AssetId> := {};
    cleaned := 0;
    var rest := expired;
    while rest != {}
      invariant rest <= expired && expired <= assets.Keys
      invariant forall a :: a in done <==> a in expired && a !in rest && assets[a].storageKey in answers.enqueued
      invariant cleaned == |done|
      invariant Flipped(assets, prisma.assets, done)
      invariant Handled(tasks, objects, KeysOfAssets(assets, done), answers, prisma.tasks, storage.objects)
      decreases |rest|
    {
      var a :| a in rest;
      if prisma.assets[a].storageKey in answers.enqueued {
        OneMoreExpired(assets, prisma.assets, done, a);
        OneMoreHandled(tasks, objects, KeysOfAssets(assets, done), answers, prisma.tasks, storage.objects, prisma.assets[a].storageKey);
        RejectExpired(prisma, storage, a, answers);
        cleaned := cleaned + 1;
        done := done + {a};
      }
      rest := rest - {a};
    }
    assert done == Deferrable(assets, expired, answers);
  }
}
