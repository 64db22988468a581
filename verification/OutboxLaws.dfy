/** The outbox is complete: a storage key that a row once held, or that was handed
    out for an upload, is in a live row, in a cleanup task, or was deleted. */
module OutboxLaws {
  import opened Rows
  import opened Protocol

  ghost predicate LiveIn(assets: map<AssetId, Asset>, outputs: map<ReportId, Output>, k: StorageKey) {
    || (exists a :: a in assets && assets[a].storageKey == k)
    || (exists r :: r in outputs && outputs[r].storageKey == k)
  }

  ghost predicate Outbox(assets: map<AssetId, Asset>, outputs: map<ReportId, Output>, tasks: set<StorageKey>, swept: set<StorageKey>,
                         owed: set<StorageKey>, deletedOnce: set<StorageKey>) {
    && (forall k | k in owed :: LiveIn(assets, outputs, k) || k in tasks || k in deletedOnce)
    && swept <= deletedOnce
  }

  ghost predicate OutboxIn(s: Sys) {
    Outbox(s.db.assets, s.db.outputs, s.db.tasks, s.swept, s.history.owed, s.history.deletedOnce)
  }

  /** Rows keep their keys, or give them up to a task; a task leaves for a key that was deleted. */
  lemma HandOverKeepsOutbox(s: Sys, after: Sys)
    requires OutboxIn(s)
    requires forall k | k in after.history.owed && k !in s.history.owed :: LiveIn(after.db.assets, after.db.outputs, k)
    requires forall a | a in s.db.assets ::
               (a in after.db.assets && after.db.assets[a].storageKey == s.db.assets[a].storageKey)
               || s.db.assets[a].storageKey in after.db.tasks || s.db.assets[a].storageKey !in after.history.owed
    requires forall r | r in s.db.outputs ::
               (r in after.db.outputs && after.db.outputs[r].storageKey == s.db.outputs[r].storageKey)
               || s.db.outputs[r].storageKey in after.db.tasks
    requires forall k | k in s.db.tasks :: k in after.db.tasks || k in after.history.deletedOnce
    requires s.history.deletedOnce <= after.history.deletedOnce && after.swept <= after.history.deletedOnce
    ensures OutboxIn(after)
  {
    forall k | k in after.history.owed
      ensures LiveIn(after.db.assets, after.db.outputs, k) || k in after.db.tasks || k in after.history.deletedOnce
    {
      if k in s.history.owed && LiveIn(s.db.assets, s.db.outputs, k) {
        if exists a :: a in s.db.assets && s.db.assets[a].storageKey == k {
          var a :| a in s.db.assets && s.db.assets[a].storageKey == k;
          assert k in after.db.tasks || (a in after.db.assets && after.db.assets[a].storageKey == k);
        } else {
          var r :| r in s.db.outputs && s.db.outputs[r].storageKey == k;
          assert k in after.db.tasks || (r in after.db.outputs && after.db.outputs[r].storageKey == k);
        }
      }
    }
  }
}
