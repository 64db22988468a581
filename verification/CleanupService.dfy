/** The object store and StorageCleanupService. Which deletions the store answers
    is a parameter: the set of keys for which it does. */
module CleanupService {
  import opened Rows
  import opened Tables

  class ObjectStore {
    var objects: map<StorageKey, nat>

    constructor ()
      ensures objects == map[]
    {
      objects := map[];
    }

    method Put(key: StorageKey, size: nat)
      modifies this
      ensures objects == old(objects)[key := size]
    {
      objects := objects[key := size];
    }

    method Delete(key: StorageKey)
      modifies this
      ensures objects == old(objects) - {key}
    {
      objects := objects - {key};
    }
  }

  /** attempt: the task goes only after the object is gone. A failed deletion keeps the task, and so does a failure to
      remove its row; the count of the failure is then stored in that row, which throws if there is none. */
  method Attempt(prisma: Prisma, storage: ObjectStore, key: StorageKey, answers: bool, clears: bool)
    returns (deleted: bool, thrown: Option<Error>)
    modifies prisma`tasks, storage
    ensures deleted == (answers && clears)
    ensures storage.objects == if answers then old(storage.objects) - {key} else old(storage.objects)
    ensures prisma.tasks == if answers && clears then old(prisma.tasks) - {key} else old(prisma.tasks)
    ensures thrown.Some? <==> !deleted && key !in old(prisma.tasks)
  {
    if answers {
      storage.Delete(key);
      if clears {
        prisma.tasks := prisma.tasks - {key};
        return true, None;
      }
    }
    return false, if key in prisma.tasks then None else Some(NotFound);
  }

  method EnqueueAndAttempt(prisma: Prisma, storage: ObjectStore, key: StorageKey, answers: bool, clears: bool) returns (deleted: bool)
    modifies prisma`tasks, storage
    ensures deleted == (answers && clears)
    ensures storage.objects == if answers then old(storage.objects) - {key} else old(storage.objects)
    ensures prisma.tasks == if answers && clears then old(prisma.tasks) - {key} else old(prisma.tasks) + {key}
  {
    prisma.tasks := prisma.tasks + {key};
    var thrown;
    deleted, thrown := Attempt(prisma, storage, key, answers, clears);
    assert thrown.None?;
    assert old(prisma.tasks) + {key} - {key} == old(prisma.tasks) - {key};
  }

  lemma OneMoreGone<T>(objects: map<StorageKey, T>, tasks: set<StorageKey>, gone: set<StorageKey>, cleared: set<StorageKey>, key: StorageKey)
    ensures objects - gone - {key} == objects - (gone + {key}) && tasks - cleared - {key} == tasks - (cleared + {key})
  {
  }

  /** attemptMany: every key is tried once, in any order. It throws if one of them does, after all have been tried. */
  method AttemptMany(prisma: Prisma, storage: ObjectStore, keys: set<StorageKey>, answered: set<StorageKey>, cleared: set<StorageKey>)
    returns (deleted: nat, thrown: Option<Error>)
    modifies prisma`tasks, storage
    ensures deleted == |keys * answered * cleared|
    ensures storage.objects == old(storage.objects) - keys * answered
    ensures prisma.tasks == old(prisma.tasks) - keys * answered * cleared
    ensures thrown.Some? <==> exists k | k in keys :: !(k in answered && k in cleared) && k !in old(prisma.tasks)
  {
    var rest := keys;
    deleted, thrown := 0, None;
    ghost var gone: set<StorageKey>, done: set<StorageKey> := {}, {};
    while rest != {}
      invariant rest <= keys && deleted == |done|
      invariant forall k :: k in gone <==> k in keys && k !in rest && k in answered
      invariant done == gone * cleared
      invariant storage.objects == old(storage.objects) - gone && prisma.tasks == old(prisma.tasks) - done
      invariant thrown.Some? <==> exists k | k in keys :: k !in rest && !(k in answered && k in cleared) && k !in old(prisma.tasks)
      decreases |rest|
    {
      var key :| key in rest;
      OneMoreGone(old(storage.objects), old(prisma.tasks), gone, done, key);
      var both, failed := Attempt(prisma, storage, key, key in answered, key in cleared);
      if failed.Some? { thrown := failed; }
      rest := rest - {key};
      if key in answered { gone := gone + {key}; }
      if both {
        done := done + {key};
        deleted := deleted + 1;
      }
    }
    assert gone == keys * answered;
  }

  /** The rows of the tasks as a query by age lists them. */
  ghost predicate OldestFirst(tasks: set<StorageKey>, keys: seq<StorageKey>) {
    && (forall k :: k in keys <==> k in tasks)
    && (forall i, j | 0 <= i < j < |keys| :: keys[i] != keys[j])
  }

  function Oldest(keys: seq<StorageKey>, limit: nat): seq<StorageKey> {
    if limit < |keys| then keys[..limit] else keys
  }

  function Tried(keys: seq<StorageKey>, limit: nat): set<StorageKey> {
    set k | k in Oldest(keys, limit)
  }

  /** retryPending: the oldest tasks up to the limit are tried, and exactly those go whose object was deleted. */
  method RetryPending(prisma: Prisma, storage: ObjectStore, keys: seq<StorageKey>, limit: nat, answered: set<StorageKey>, cleared: set<StorageKey>)
    returns (deleted: nat)
    requires OldestFirst(prisma.tasks, keys)
    modifies prisma`tasks, storage
    ensures var tried := Tried(keys, limit);
            && deleted == |tried * answered * cleared|
            && storage.objects == old(storage.objects) - tried * answered
            && prisma.tasks == old(prisma.tasks) - tried * answered * cleared
  {
    var thrown;
    deleted, thrown := AttemptMany(prisma, storage, Tried(keys, limit), answered, cleared);
    assert thrown.None?;
  }
}
