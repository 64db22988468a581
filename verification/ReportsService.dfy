/** ReportsService statement by statement, proved against the functions of Assets. */
module ReportsService {
  import opened Rows
  import opened Tables
  import opened Assets
  import Generations
  import Credits
  import Lifecycle
  import CleanupService
  import Throttle

  /** One conditional update; only when it changed no row does the service look why. */
  method Update(prisma: Prisma, user: UserId, r: ReportId, title: string, notes: string) returns (thrown: Option<Error>)
    modifies prisma`reports
    ensures Settles(old(prisma.Committed()), prisma.Committed(), UpdateReport(old(prisma.Committed()), user, r, title, notes), thrown)
  {
    if r in prisma.reports && prisma.reports[r].user == user && Lifecycle.Editable(prisma.reports[r].status) {
      prisma.reports := prisma.reports[r := prisma.reports[r].(title := title, notes := notes)];
      return None;
    }
    if r !in prisma.reports || prisma.reports[r].user != user { return Some(NotFound); }
    return Some(Lifecycle.EditError(prisma.reports[r].status));
  }

  /** What the cascades from the report, its generations and its assets leave of three tables. */
  function KeptAttempts(db: Db, r: ReportId): map<AttemptId, Attempt> {
    map id | id in db.attempts && db.attempts[id].generation !in GenerationsOf(db, r)
             && (db.attempts[id].asset.Some? ==>
                   db.attempts[id].asset.value in db.assets && db.assets[db.attempts[id].asset.value].report != r)
      :: db.attempts[id]
  }

  function KeptOutputs(db: Db, r: ReportId): map<ReportId, Output> {
    map h | h in db.outputs && db.outputs[h].generation !in GenerationsOf(db, r) && h != r :: db.outputs[h]
  }

  function KeptAssets(db: Db, r: ReportId): map<AssetId, Asset> {
    map a | a in db.assets && db.assets[a].report != r :: db.assets[a]
  }

  /** delete on the reports, with what the foreign keys cascade to or set to null. */
  method DeleteRow(transaction: Prisma, r: ReportId)
    modifies transaction
    ensures var db := old(transaction.Committed());
            transaction.Committed() == db.(reports := db.reports - {r}, assets := KeptAssets(db, r), attempts := KeptAttempts(db, r),
                                           generations := Generations.DeleteGenerations(db, GenerationsOf(db, r)).generations,
                                           outputs := KeptOutputs(db, r), ledger := Credits.Detach(db.ledger, GenerationsOf(db, r)))
  {
    var db := transaction.Committed();
    transaction.ledger := Credits.Detach(db.ledger, GenerationsOf(db, r));
    transaction.attempts := KeptAttempts(db, r);
    transaction.outputs := KeptOutputs(db, r);
    transaction.generations := Generations.DeleteGenerations(db, GenerationsOf(db, r)).generations;
    transaction.assets := KeptAssets(db, r);
    transaction.reports := db.reports - {r};
  }

  lemma CascadesCompose(db: Db, tasks: set<StorageKey>, user: UserId, r: ReportId)
    requires DeleteReport(db, user, r).Ok?
    ensures var after := DeleteReport(db, user, r).value;
            && after.attempts == KeptAttempts(db, r) && after.outputs == KeptOutputs(db, r) && after.assets == KeptAssets(db, r)
            && KeptAttempts(db.(tasks := tasks), r) == KeptAttempts(db, r) && KeptOutputs(db.(tasks := tasks), r) == KeptOutputs(db, r)
            && KeptAssets(db.(tasks := tasks), r) == KeptAssets(db, r) && GenerationsOf(db.(tasks := tasks), r) == GenerationsOf(db, r)
  {
    assert GenerationsOf(db.(tasks := tasks), r) == GenerationsOf(db, r);
  }

  /** One try of the serializable transaction of delete: every key becomes a task before the rows go. */
  method DeleteOnce(prisma: Prisma, user: UserId, r: ReportId) returns (thrown: Option<Error>)
    modifies prisma
    ensures Settles(old(prisma.Committed()), prisma.Committed(), DeleteReport(old(prisma.Committed()), user, r), thrown)
  {
    if r !in prisma.reports || prisma.reports[r].user != user { return Some(NotFound); }
    if prisma.reports[r].status.QUEUED? || prisma.reports[r].status.PROCESSING? { return Some(GenerationActive); }
    CascadesCompose(prisma.Committed(), prisma.tasks + KeysOf(prisma.Committed(), r), user, r);
    prisma.tasks := prisma.tasks + KeysOf(prisma.Committed(), r);
    DeleteRow(prisma, r);
    return None;
  }

  /** attemptMany, of which a failure is only logged. */
  method Dispatch(prisma: Prisma, storage: CleanupService.ObjectStore, keys: set<StorageKey>, answered: set<StorageKey>, cleared: set<StorageKey>)
    modifies prisma`tasks, storage
    ensures storage.objects == old(storage.objects) - keys * answered
    ensures prisma.tasks == old(prisma.tasks) - keys * answered * cleared
  {
    var deleted, thrown := CleanupService.AttemptMany(prisma, storage, keys, answered, cleared);
  }

  const DELETE_ATTEMPTS := 3

  /** delete: up to three tries; afterwards one cleanup attempt for each key of the report. */
  method Delete(prisma: Prisma, storage: CleanupService.ObjectStore, user: UserId, r: ReportId, conflicted: seq<bool>,
                answered: set<StorageKey>, cleared: set<StorageKey>)
    returns (thrown: Option<Error>)
    requires |conflicted| == DELETE_ATTEMPTS
    modifies prisma, storage
    ensures (forall i | 0 <= i < |conflicted| :: conflicted[i]) ==>
              thrown == Some(SerializationFailure) && prisma.Committed() == old(prisma.Committed()) && storage.objects == old(storage.objects)
    ensures !(forall i | 0 <= i < |conflicted| :: conflicted[i]) ==>
              match DeleteReport(old(prisma.Committed()), user, r)
              case Err(e) => thrown == Some(e) && prisma.Committed() == old(prisma.Committed()) && storage.objects == old(storage.objects)
              case Ok(db) =>
                var deleted := KeysOf(old(prisma.Committed()), r) * answered;
                && thrown.None? && prisma.Committed() == db.(tasks := db.tasks - deleted * cleared)
                && storage.objects == old(storage.objects) - deleted
  {
    var attempt := 0;
    while attempt < DELETE_ATTEMPTS
      invariant 0 <= attempt <= DELETE_ATTEMPTS
      invariant prisma.Committed() == old(prisma.Committed()) && storage.objects == old(storage.objects)
      invariant forall i | 0 <= i < attempt :: conflicted[i]
    {
      if !conflicted[attempt] {
        var keys := KeysOf(prisma.Committed(), r);
        thrown := DeleteOnce(prisma, user, r);
        if thrown.None? {
          Dispatch(prisma, storage, keys, answered, cleared);
        }
        return;
      }
      attempt := attempt + 1;
    }
    return Some(SerializationFailure);
  }

  // ----- duplicating -----

  predicate Copied(storage: map<StorageKey, nat>, assets: map<AssetId, Asset>, copies: map<AssetId, Copy>,
                   ids: seq<AssetId>)
    requires forall a | a in ids :: a in copies && copies[a].source in assets
  {
    forall a | a in ids :: copies[a].storageKey in storage && storage[copies[a].storageKey] == Bytes(assets[copies[a].source])
  }

  function KeysOfCopies(copies: map<AssetId, Copy>, ids: seq<AssetId>): set<StorageKey>
    requires forall a | a in ids :: a in copies
  {
    set a | a in ids :: copies[a].storageKey
  }

  /** What copying one object meets: the copy fails, it is made but cannot be looked up, or it is made. */
  datatype CopyAnswer = Refused | Unverified | Done

  predicate Unchanged(before: map<StorageKey, nat>, after: map<StorageKey, nat>, k: StorageKey) {
    (k in after <==> k in before) && (k in after ==> after[k] == before[k])
  }

  /** The copy that was made but is not among the keys that were remembered, if there is one. */
  function Forgotten(copies: map<AssetId, Copy>, ids: seq<AssetId>, answers: seq<CopyAnswer>, copied: seq<AssetId>): set<StorageKey>
    requires |answers| == |ids| && forall a | a in ids :: a in copies
  {
    if |copied| < |ids| && answers[|copied|].Unverified? then {copies[ids[|copied|]].storageKey} else {}
  }

  /** The loop over the assets: an object that cannot be copied or looked up, or whose copy has another size, ends it.
      The keys copied so far are returned either way, with the one whose copy has another size, but without the one
      that could not be looked up. */
  method CopyObjects(storage: CleanupService.ObjectStore, assets: map<AssetId, Asset>, copies: map<AssetId, Copy>, ids: seq<AssetId>,
                     answers: seq<CopyAnswer>) returns (copied: seq<AssetId>, complete: bool)
    requires |answers| == |ids| && forall a | a in ids :: a in copies && copies[a].source in assets
    requires forall a, b | a in copies && b in assets :: copies[a].storageKey != assets[b].storageKey
    requires forall i, j | 0 <= i < j < |ids| :: copies[ids[i]].storageKey != copies[ids[j]].storageKey
    modifies storage
    ensures copied <= ids && (complete ==> copied == ids)
    ensures complete ==> Copied(storage.objects, assets, copies, copied)
    ensures forall k | k !in KeysOfCopies(copies, copied) && k !in Forgotten(copies, ids, answers, copied) ::
              Unchanged(old(storage.objects), storage.objects, k)
  {
    copied := [];
    var i := 0;
    while i < |ids|
      invariant 0 <= i <= |ids| && copied == ids[..i]
      invariant Copied(storage.objects, assets, copies, copied)
      invariant forall k | k !in KeysOfCopies(copies, copied) :: Unchanged(old(storage.objects), storage.objects, k)
    {
      var a := ids[i];
      assert a in ids;
      var from := assets[copies[a].source].storageKey;
      if answers[i].Refused? || from !in storage.objects { return copied, false; }
      var size := storage.objects[from];
      storage.Put(copies[a].storageKey, size);
      if answers[i].Unverified? { return copied, false; }
      assert KeysOfCopies(copies, copied + [a]) == KeysOfCopies(copies, copied) + {copies[a].storageKey};
      copied := copied + [a];
      assert ids[..i + 1] == ids[..i] + [a];
      if size != Bytes(assets[copies[a].source]) { return copied, false; }
      forall b | b in ids[..i] ensures copies[b].storageKey != copies[a].storageKey {
        var j :| 0 <= j < i && ids[j] == b;
      }
      i := i + 1;
    }
    return copied, true;
  }

  /** rollbackDuplicateCopies: the copies become tasks and are tried; if the tasks cannot be stored, that is only logged. */
  method RollBackCopies(prisma: Prisma, storage: CleanupService.ObjectStore, keys: set<StorageKey>, enqueues: bool,
                        answered: set<StorageKey>, cleared: set<StorageKey>)
    modifies prisma`tasks, storage
    ensures !enqueues ==> prisma.tasks == old(prisma.tasks) && storage.objects == old(storage.objects)
    ensures enqueues ==>
              && prisma.tasks == old(prisma.tasks) + keys - keys * answered * cleared
              && storage.objects == old(storage.objects) - keys * answered
  {
    if !enqueues { return; }
    prisma.tasks := prisma.tasks + keys;
    Dispatch(prisma, storage, keys, answered, cleared);
  }

  /** The read that begins duplicate. */
  method ReadRows(prisma: Prisma, user: UserId, source: ReportId) returns (thrown: Option<Error>, read: Source)
    ensures match ReadSource(prisma.Committed(), user, source)
            case Ok(expected) => thrown.None? && read == expected
            case Err(e) => thrown == Some(e)
  {
    read := Source(user, "", map[]);
    if source !in prisma.reports || prisma.reports[source].user != user { return Some(NotFound), read; }
    if !prisma.reports[source].status.READY? { return Some(NotEditable), read; }
    return None, Source(user, prisma.reports[source].notes, Generations.ReadyAssets(prisma.assets, source));
  }

  /** create on the reports, with the assets of the new report. */
  method InsertCopies(prisma: Prisma, now: Time, read: Source, r: ReportId, copies: map<AssetId, Copy>, title: string)
    requires r !in prisma.reports && CopiesOf(read, copies) && CopiesFresh(prisma.Committed(), copies)
    modifies prisma`reports, prisma`assets
    ensures Duplicate(old(prisma.Committed()), now, read, r, copies, title) == Ok(prisma.Committed())
  {
    var assets := prisma.assets;
    prisma.reports := prisma.reports[r := Report(read.user, title, read.notes, DRAFT, Throttle.CLEAR)];
    prisma.assets := map a | a in assets.Keys + copies.Keys ::
      if a in copies then read.rows[copies[a].source].(report := r, storageKey := copies[a].storageKey, createdAt := now) else assets[a];
  }

  /** duplicate after its read, over whatever rows there are by now: either every object is copied and the new report
      holds every copy, or no row of reports and assets changes and every copy that was remembered is deleted or a
      cleanup task, if tasks can be stored. */
  method CopyAndCreate(prisma: Prisma, storage: CleanupService.ObjectStore, now: Time, read: Source, r: ReportId,
                       copies: map<AssetId, Copy>, ids: seq<AssetId>, title: string, answers: seq<CopyAnswer>, enqueues: bool,
                       answered: set<StorageKey>, cleared: set<StorageKey>)
    returns (thrown: Option<Error>, ghost copied: seq<AssetId>)
    requires (forall a :: a in ids <==> a in copies) && |answers| == |ids|
    requires forall i, j | 0 <= i < j < |ids| :: ids[i] != ids[j]
    requires CopiesOf(read, copies) && CopiesFresh(prisma.Committed(), copies)
    modifies prisma, storage
    ensures thrown.None? ==>
              Duplicate(old(prisma.Committed()), now, read, r, copies, title) == Ok(prisma.Committed())
              && forall a | a in copies :: copies[a].storageKey in storage.objects
                                           && storage.objects[copies[a].storageKey] == Bytes(read.rows[copies[a].source])
    ensures thrown.Some? ==> copied <= ids && prisma.Committed() == old(prisma.Committed()).(tasks := prisma.tasks)
    ensures thrown.Some? && enqueues ==>
              forall k | k in storage.objects && !Unchanged(old(storage.objects), storage.objects, k) ::
                k in prisma.tasks || k in Forgotten(copies, ids, answers, copied)
    ensures forall k | k in old(storage.objects) && (forall a | a in copies :: copies[a].storageKey != k) ::
              Unchanged(old(storage.objects), storage.objects, k)
  {
    var made, complete := CopyObjects(storage, read.rows, copies, ids, answers);
    copied := made;
    forall a | a in made ensures a in copies { assert a in ids; }
    if complete && r !in prisma.reports {
      InsertCopies(prisma, now, read, r, copies, title);
      return None, copied;
    }
    ghost var copiedObjects := storage.objects;
    var keys := KeysOfCopies(copies, made);
    ghost var forgotten := Forgotten(copies, ids, answers, made);
    RollBackCopies(prisma, storage, keys, enqueues, answered, cleared);
    CopiesAreAccountedFor(old(storage.objects), copiedObjects, storage.objects, keys, forgotten, if enqueues then answered else {});
    NewKeysOnly(copies, ids, answers, made);
    return Some(Other), copied;
  }

  lemma CopiesAreAccountedFor(before: map<StorageKey, nat>, copied: map<StorageKey, nat>, after: map<StorageKey, nat>,
                              keys: set<StorageKey>, forgotten: set<StorageKey>, answered: set<StorageKey>)
    requires forall k | k !in keys && k !in forgotten :: Unchanged(before, copied, k)
    requires after == copied - keys * answered
    ensures forall k | k in after && !Unchanged(before, after, k) :: k in keys - keys * answered || k in forgotten
    ensures forall k | k !in keys && k !in forgotten :: Unchanged(before, after, k)
  {
    forall k | k in after && !Unchanged(before, after, k) ensures k in keys - keys * answered || k in forgotten {
      assert !Unchanged(before, copied, k);
    }
    forall k | k !in keys && k !in forgotten ensures Unchanged(before, after, k) {
      assert Unchanged(before, copied, k);
    }
  }

  lemma NewKeysOnly(copies: map<AssetId, Copy>, ids: seq<AssetId>, answers: seq<CopyAnswer>, made: seq<AssetId>)
    requires |answers| == |ids| && made <= ids && forall a | a in ids :: a in copies
    ensures forall k | (forall a | a in copies :: copies[a].storageKey != k) ::
              k !in KeysOfCopies(copies, made) && k !in Forgotten(copies, ids, answers, made)
  {
    if |made| < |ids| { assert ids[|made|] in copies; }
  }
}
