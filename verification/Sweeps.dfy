/** What a cleanup task is for: the attempts that follow from one leave neither the
    object nor the task. */
module Sweeps {
  import opened Rows
  import opened Protocol

  /** Every object but this one is as before. */
  predicate OnlyObjectGone(before: map<StorageKey, nat>, after: map<StorageKey, nat>, key: StorageKey) {
    && key !in after && (forall k | k in before && k != key :: k in after) && forall k | k in after :: k in before && after[k] == before[k]
  }

  /** An attempt for a task, answered by the store and the table: the object is gone, and then the task. */
  lemma TaskIsDone(cfg: Config, s: Sys, key: StorageKey)
    requires key in s.db.tasks
    ensures var picked := Next(cfg, s, OnStorage(PickTask(key)));
            var deleted := Next(cfg, picked, OnStorage(DeleteObject(key)));
            var done := Next(cfg, deleted, OnStorage(RemoveTask(key)));
            && OnlyObjectGone(s.objects, deleted.objects, key) && deleted.db == s.db && key in deleted.history.deletedOnce
            && done.objects == deleted.objects && done.db == s.db.(tasks := s.db.tasks - {key})
            && done.sweeping == s.sweeping - {key} && done.swept == s.swept - {key}
  {
  }

  /** Without an answer of the store the task stays, and without a task nothing is tried. */
  lemma NoTaskNoSweep(cfg: Config, s: Sys, key: StorageKey)
    ensures key !in s.db.tasks ==> Next(cfg, s, OnStorage(PickTask(key))) == s
    ensures key !in s.sweeping ==> Next(cfg, s, OnStorage(DeleteObject(key))) == s
    ensures key !in s.swept ==> Next(cfg, s, OnStorage(RemoveTask(key))) == s
  {
  }

  /** The keys of refused copies and of a rejected upload become tasks, and their first attempt begins. */
  lemma HandedOver(cfg: Config, s: Sys, keys: set<StorageKey>, key: StorageKey)
    requires key.AssetKey? && forall k | k in keys :: k.AssetKey?
    ensures var after := Next(cfg, s, OnStorage(RollBackCopies(keys)));
            after == s.(db := s.db.(tasks := after.db.tasks), sweeping := after.sweeping)
            && forall k :: (k in after.db.tasks <==> k in s.db.tasks || k in keys) && (k in after.sweeping <==> k in s.sweeping || k in keys)
    ensures var after := Next(cfg, s, OnStorage(EnqueueRejected(key)));
            after == s.(db := s.db.(tasks := s.db.tasks + {key}), sweeping := s.sweeping + {key})
  {
  }

  /** A worker whose upload was not published leaves its key as a task, which its first attempt follows. */
  lemma UnpublishedIsHandedOver(cfg: Config, s: Sys, t: Token)
    requires t in s.workers && s.workers[t].pc.Failing?
    ensures var w := s.workers[t]; var after := WorkerNext(cfg, s, t, ScheduleCleanup);
            && after.db == s.db.(tasks := if w.uploaded then s.db.tasks + {KeyOf(t, w)} else s.db.tasks)
            && after.sweeping == (if w.uploaded then s.sweeping + {KeyOf(t, w)} else s.sweeping)
            && t in after.workers && !after.workers[t].uploaded
            && after.workers[t].pc == if w.pc.error.ClaimLost? then Stopped else Recovering(w.pc.error)
  {
  }
}
