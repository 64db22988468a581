/** A published output is never destroyed: its object stays stored with the
    recorded size and its key is in no cleanup task. */
module StorageLaws {
  import opened Rows
  import opened Protocol

  predicate Retired(pc: Pc) {
    pc.Recovering? || pc.Stopped?
  }

  /** A key that some task or some running cleanup attempt is after. */
  predicate Condemned(tasks: set<StorageKey>, sweeping: set<StorageKey>, swept: set<StorageKey>, k: StorageKey) {
    k in tasks || k in sweeping || k in swept
  }

  /** Only a worker that can no longer publish lets its key be condemned, and then no output has it. */
  ghost predicate CondemnedFits(outputs: map<ReportId, Output>, workers: map<Token, Worker>, k: StorageKey) {
    k.OutputKey? ==>
      && k.token in workers && Retired(workers[k.token].pc)
      && forall r | r in outputs :: outputs[r].storageKey != k
  }

  predicate OutputStored(objects: map<StorageKey, nat>, workers: map<Token, Worker>, output: Output) {
    var k := output.storageKey;
    && k.OutputKey? && k.token in workers && workers[k.token].pc.Stopped?
    && k in objects && objects[k] == output.size
  }

  predicate UploadStored(objects: map<StorageKey, nat>, t: Token, w: Worker) {
    w.pc.Publishing? ==> KeyOf(t, w) in objects && objects[KeyOf(t, w)] == w.pc.size
  }

  ghost predicate DistinctKeys(outputs: map<ReportId, Output>) {
    forall q, r | q in outputs && r in outputs && outputs[q].storageKey == outputs[r].storageKey :: q == r
  }

  ghost predicate Stored(outputs: map<ReportId, Output>, tasks: set<StorageKey>, sweeping: set<StorageKey>, swept: set<StorageKey>,
                         objects: map<StorageKey, nat>, workers: map<Token, Worker>) {
    && (forall k | Condemned(tasks, sweeping, swept, k) :: CondemnedFits(outputs, workers, k))
    && (forall r | r in outputs :: OutputStored(objects, workers, outputs[r]))
    && (forall t | t in workers :: UploadStored(objects, t, workers[t]))
    && DistinctKeys(outputs)
  }

  ghost predicate StoredIn(s: Sys) {
    Stored(s.db.outputs, s.db.tasks, s.sweeping, s.swept, s.objects, s.workers)
  }

  predicate AssetKeysOnly(assets: map<AssetId, Asset>) {
    forall a | a in assets :: assets[a].storageKey.AssetKey?
  }

  /** What the invariant says of a published output. */
  lemma PublishedIsSafe(s: Sys, r: ReportId)
    requires StoredIn(s) && r in s.db.outputs
    ensures var k := s.db.outputs[r].storageKey;
            && k in s.objects && s.objects[k] == s.db.outputs[r].size
            && k !in s.db.tasks && k !in s.sweeping && k !in s.swept
  {
    var k := s.db.outputs[r].storageKey;
    assert OutputStored(s.objects, s.workers, s.db.outputs[r]);
    assert Condemned(s.db.tasks, s.sweeping, s.swept, k) ==> CondemnedFits(s.db.outputs, s.workers, k);
  }

  // ----- the steps -----

  predicate StaysRetired(before: Pc, after: Pc) {
    (Retired(before) ==> Retired(after)) && (before.Stopped? ==> after.Stopped?)
  }

  /** One worker moves on, or a new one appears, and no object and no key changes hands. */
  lemma WorkerMoveKeepsStored(s: Sys, t: Token, w: Worker)
    requires StoredIn(s)
    requires t in s.workers ==> StaysRetired(s.workers[t].pc, w.pc)
    requires UploadStored(s.objects, t, w)
    ensures Stored(s.db.outputs, s.db.tasks, s.sweeping, s.swept, s.objects, s.workers[t := w])
  {
    var workers' := s.workers[t := w];
    forall k | Condemned(s.db.tasks, s.sweeping, s.swept, k) ensures CondemnedFits(s.db.outputs, workers', k) {
      assert CondemnedFits(s.db.outputs, s.workers, k);
    }
    forall r | r in s.db.outputs ensures OutputStored(s.objects, workers', s.db.outputs[r]) {
      assert OutputStored(s.objects, s.workers, s.db.outputs[r]);
    }
    forall u | u in workers' ensures UploadStored(s.objects, u, workers'[u]) {
      assert u != t ==> UploadStored(s.objects, u, s.workers[u]);
    }
  }

  lemma PutKeepsStored(s: Sys, t: Token, size: nat)
    requires StoredIn(s) && t in s.workers
    ensures StoredIn(PutStep(s, t, size))
  {
    var after := PutStep(s, t, size);
    var w := s.workers[t];
    if w.pc.Uploading? {
      forall k | Condemned(s.db.tasks, s.sweeping, s.swept, k) ensures CondemnedFits(s.db.outputs, after.workers, k) {
        assert CondemnedFits(s.db.outputs, s.workers, k);
      }
      forall r | r in s.db.outputs ensures OutputStored(after.objects, after.workers, s.db.outputs[r]) {
        assert OutputStored(s.objects, s.workers, s.db.outputs[r]);
      }
      forall u | u in after.workers ensures UploadStored(after.objects, u, after.workers[u]) {
        assert u != t ==> UploadStored(s.objects, u, s.workers[u]);
      }
    }
  }

  lemma ScheduleKeepsStored(s: Sys, t: Token)
    requires StoredIn(s) && t in s.workers
    ensures StoredIn(ScheduleCleanupStep(s, t))
  {
    var after := ScheduleCleanupStep(s, t);
    var w := s.workers[t];
    if w.pc.Failing? {
      WorkerMoveKeepsStored(s, t, after.workers[t]);
      if w.uploaded {
        var key := KeyOf(t, w);
        forall r | r in s.db.outputs ensures s.db.outputs[r].storageKey != key {
          assert OutputStored(s.objects, s.workers, s.db.outputs[r]);
        }
        forall k | Condemned(after.db.tasks, after.sweeping, after.swept, k) ensures CondemnedFits(s.db.outputs, after.workers, k) {
          assert k != key ==> Condemned(s.db.tasks, s.sweeping, s.swept, k);
          assert k != key ==> CondemnedFits(s.db.outputs, s.workers, k);
        }
      }
    }
  }

  /** Publication by the worker whose verified upload is stored. */
  lemma PublicationKeepsStored(s: Sys, t: Token, r: ReportId, g: GenerationId, w: Worker)
    requires StoredIn(s) && t in s.workers && s.workers[t].pc.Publishing? && w.pc.Stopped?
    requires forall h | h in s.db.outputs :: s.db.outputs[h].storageKey != KeyOf(t, s.workers[t])
    ensures Stored(s.db.outputs[r := Output(g, KeyOf(t, s.workers[t]), s.workers[t].pc.size)], s.db.tasks, s.sweeping, s.swept,
                   s.objects, s.workers[t := w])
  {
    var key := KeyOf(t, s.workers[t]);
    var outputs' := s.db.outputs[r := Output(g, key, s.workers[t].pc.size)];
    assert UploadStored(s.objects, t, s.workers[t]);
    WorkerMoveKeepsStored(s, t, w);
    forall k | Condemned(s.db.tasks, s.sweeping, s.swept, k) ensures CondemnedFits(outputs', s.workers[t := w], k) {
      assert CondemnedFits(s.db.outputs, s.workers, k);
      assert CondemnedFits(s.db.outputs, s.workers[t := w], k);
    }
    forall q | q in outputs' ensures OutputStored(s.objects, s.workers[t := w], outputs'[q]) {
      assert q != r ==> OutputStored(s.objects, s.workers[t := w], s.db.outputs[q]);
    }
  }

  lemma PublishKeepsStored(s: Sys, t: Token)
    requires StoredIn(s) && t in s.workers
    ensures StoredIn(PublishStep(s, t))
  {
    var w := s.workers[t];
    var after := PublishStep(s, t);
    if w.pc.Publishing? {
      if after.db == s.db {
        WorkerMoveKeepsStored(s, t, after.workers[t]);
        assert after.workers == s.workers[t := after.workers[t]];
      } else {
        PublicationKeepsStored(s, t, w.report, w.generation, after.workers[t]);
        assert after.db.outputs == s.db.outputs[w.report := Output(w.generation, KeyOf(t, w), w.pc.size)];
      }
    }
  }

  /** Keys of assets are condemned or forgotten, and outputs may go while their keys become tasks. */
  lemma KeysMoveKeepsStored(s: Sys, outputs: map<ReportId, Output>, tasks: set<StorageKey>, sweeping: set<StorageKey>,
                            swept: set<StorageKey>, objects: map<StorageKey, nat>)
    requires StoredIn(s)
    requires forall r | r in outputs :: r in s.db.outputs && outputs[r] == s.db.outputs[r]
    requires forall k | Condemned(tasks, sweeping, swept, k) && k.OutputKey? ::
               Condemned(s.db.tasks, s.sweeping, s.swept, k) || (exists r :: r in s.db.outputs && r !in outputs && s.db.outputs[r].storageKey == k)
    requires forall k: StorageKey | k.OutputKey? && !Condemned(s.db.tasks, s.sweeping, s.swept, k) ::
               (k in objects <==> k in s.objects) && (k in objects ==> objects[k] == s.objects[k])
    ensures Stored(outputs, tasks, sweeping, swept, objects, s.workers)
  {
    forall k | Condemned(tasks, sweeping, swept, k) ensures CondemnedFits(outputs, s.workers, k) {
      if k.OutputKey? {
        if Condemned(s.db.tasks, s.sweeping, s.swept, k) {
          assert CondemnedFits(s.db.outputs, s.workers, k);
        } else {
          var r :| r in s.db.outputs && r !in outputs && s.db.outputs[r].storageKey == k;
          assert OutputStored(s.objects, s.workers, s.db.outputs[r]);
        }
      }
    }
    forall r | r in outputs ensures OutputStored(objects, s.workers, outputs[r]) {
      assert OutputStored(s.objects, s.workers, s.db.outputs[r]);
      PublishedIsSafe(s, r);
    }
    forall t | t in s.workers ensures UploadStored(objects, t, s.workers[t]) {
      assert UploadStored(s.objects, t, s.workers[t]);
      var k := KeyOf(t, s.workers[t]);
      assert Condemned(s.db.tasks, s.sweeping, s.swept, k) ==> CondemnedFits(s.db.outputs, s.workers, k);
    }
  }
}
