/** How a generation ends, and that it can: what the owner of a generation, or the
    user of a queued one, brings about in every reachable state. */
module Outcomes {
  import opened Rows
  import opened Protocol
  import opened LockstepLaws
  import opened CreditLaws
  import opened Runs
  import Attempts
  import Credits
  import Processing
  import Generations
  import Throttle
  import StorageLaws
  import EndingLaws
  import RunLaws
  import WorkLaws
  import Invariance

  // ----- settling a reservation -----

  /** The reservation of a generation is open. */
  predicate Open(db: Db, g: GenerationId) {
    g in db.generations && ReserveKey(g) in db.ledger && ConsumeKey(g) !in db.ledger && ReleaseKey(g) !in db.ledger
  }

  /** The one credit that was taken from this grant is back on it, and nothing else about grants changed. */
  ghost predicate CreditReturned(db: Db, after: Db, g: GenerationId) {
    && ReserveKey(g) in db.ledger && db.ledger[ReserveKey(g)].grant.Some?
    && var id := db.ledger[ReserveKey(g)].grant.value;
    && id in db.grants && after.grants == db.grants[id := db.grants[id].(remaining := db.grants[id].remaining + 1)]
    && ReleaseKey(g) in after.ledger && after.ledger == db.ledger[ReleaseKey(g) := after.ledger[ReleaseKey(g)]]
  }

  lemma OpenReservationsSettle(db: Db, g: GenerationId)
    requires Sound(db) && Open(db, g)
    ensures Credits.Consume(db, g).Ok? && ConsumeKey(g) in Credits.Consume(db, g).value.ledger
    ensures Credits.Consume(db, g).value == db.(ledger := Credits.Consume(db, g).value.ledger)
    ensures Credits.Release(db, g).Ok? && CreditReturned(db, Credits.Release(db, g).value, g)
    ensures Credits.Release(db, g).value == db.(grants := Credits.Release(db, g).value.grants, ledger := Credits.Release(db, g).value.ledger)
  {
    TerminalByKey(db, g);
    assert RowShape(db.generations.Keys, db.grants, db.ledger, ReserveKey(g));
    var id := db.ledger[ReserveKey(g)].grant.value;
    ChargedGrantHasRoom(db, g, id);
    NothingSettled(db, g);
  }

  lemma ChargedGrantHasRoom(db: Db, g: GenerationId, id: GrantId)
    requires Sound(db) && Open(db, g) && db.ledger[ReserveKey(g)].grant == Some(id) && id in db.grants
    ensures db.grants[id].remaining < db.grants[id].total
  {
    assert g in Outstanding(db.ledger, id);
  }

  lemma NothingSettled(db: Db, g: GenerationId)
    requires Sound(db) && Open(db, g)
    ensures forall k | k in db.ledger && db.ledger[k].generation == Some(g) :: !Credits.Terminal(db.ledger[k].kind)
  {
    forall k | k in db.ledger && db.ledger[k].generation == Some(g) ensures !Credits.Terminal(db.ledger[k].kind) {
      assert RowShape(db.generations.Keys, db.grants, db.ledger, k);
    }
  }

  // ----- publishing -----

  /** The new output is the report's only one, with this key and size; the report is ready, the generation completed and
      its reservation consumed. */
  ghost predicate PublishedRows(db: Db, after: Db, g: GenerationId, key: StorageKey, size: nat) {
    && g in db.generations
    && var r := db.generations[g].report;
    && r in db.reports && r !in db.outputs && after.outputs == db.outputs[r := Output(g, key, size)]
    && after.reports == db.reports[r := db.reports[r].(status := READY, throttle := Throttle.CLEAR)]
    && after.generations == db.generations[g := db.generations[g].(status := GenerationStatus.Completed, token := None, lease := None)]
    && ConsumeKey(g) in after.ledger && after.grants == db.grants
  }

  function PublicationRows(db: Db, g: GenerationId, r: ReportId, key: StorageKey, size: nat): Db
    requires g in db.generations && r in db.reports
  {
    db.(outputs := db.outputs[r := Output(g, key, size)],
        generations := db.generations[g := db.generations[g].(status := GenerationStatus.Completed, token := None, lease := None)],
        reports := db.reports[r := db.reports[r].(status := READY, throttle := Throttle.CLEAR)])
  }

  lemma FinalizationConsumes(db: Db, now: Time, g: GenerationId, r: ReportId, user: UserId, t: Token, key: StorageKey, size: nat)
    requires Attempts.Owned(db.generations, now, g, t) && db.generations[g].user == user
    requires r in db.reports && db.reports[r].user == user && r !in db.outputs
    requires forall h | h in db.outputs :: db.outputs[h].generation != g && db.outputs[h].storageKey != key
    ensures Processing.FinalizeSuccess(db, now, g, r, user, t, key, size) == Credits.Consume(PublicationRows(db, g, r, key, size), g)
  {
  }

  lemma ConsumptionPublishes(db: Db, g: GenerationId, key: StorageKey, size: nat)
    requires Sound(db) && Open(db, g) && db.generations[g].report in db.reports && db.generations[g].report !in db.outputs
    ensures var consumed := Credits.Consume(PublicationRows(db, g, db.generations[g].report, key, size), g);
            consumed.Ok? && PublishedRows(db, consumed.value, g, key, size)
  {
    var mid := PublicationRows(db, g, db.generations[g].report, key, size);
    EndingLaws.SoundByKeys(db, mid);
    OpenReservationsSettle(mid, g);
  }

  lemma PublisherReadItsRow(s: Sys, t: Token)
    requires Lockstep(s.db.reports, s.db.outputs, s.db.generations) && WorkLaws.WorkIn(s)
    requires t in s.workers && Owns(s, t) && s.workers[t].pc.Publishing?
    ensures var w := s.workers[t]; var row := s.db.generations[w.generation];
            && w.report == row.report && w.user == row.user && w.report in s.db.reports && s.db.reports[w.report].user == w.user
            && w.report !in s.db.outputs
  {
    assert WorkLaws.WorkerFits(s.db.generations, s.db.attempts, s.workers, t);
    RunLaws.ActiveIsNotReady(s.db, s.workers[t].generation);
    assert GenerationFits(s.db.reports, s.db.outputs, s.db.generations, s.workers[t].generation);
  }

  lemma KeyIsUnused(s: Sys, t: Token)
    requires StorageLaws.StoredIn(s) && t in s.workers && s.workers[t].pc.Publishing?
    ensures forall h | h in s.db.outputs :: s.db.outputs[h].storageKey != KeyOf(t, s.workers[t])
    ensures KeyOf(t, s.workers[t]) in s.objects && s.objects[KeyOf(t, s.workers[t])] == s.workers[t].pc.size
  {
    forall h | h in s.db.outputs ensures s.db.outputs[h].storageKey != KeyOf(t, s.workers[t]) {
      assert StorageLaws.OutputStored(s.objects, s.workers, s.db.outputs[h]);
    }
    assert StorageLaws.UploadStored(s.objects, t, s.workers[t]);
  }

  lemma GenerationIsUnpublished(db: Db, g: GenerationId)
    requires Lockstep(db.reports, db.outputs, db.generations) && g in db.generations && Generations.Active(db.generations[g])
    ensures forall h | h in db.outputs :: db.outputs[h].generation != g
  {
    forall h | h in db.outputs ensures db.outputs[h].generation != g {
      assert OutputFits(db.reports, db.outputs, db.generations, h);
    }
  }

  lemma FinalizationSucceeds(cfg: Config, s: Sys, t: Token)
    requires RunLaws.Inv(cfg, s) && t in s.workers && Owns(s, t) && s.workers[t].pc.Publishing?
    ensures var w := s.workers[t]; var g := w.generation;
            var finalized := Processing.FinalizeSuccess(s.db, s.clock, g, w.report, w.user, t, KeyOf(t, w), w.pc.size);
            && finalized.Ok? && PublishedRows(s.db, finalized.value, g, KeyOf(t, w), w.pc.size)
    ensures KeyOf(t, s.workers[t]) in s.objects && s.objects[KeyOf(t, s.workers[t])] == s.workers[t].pc.size
    ensures var row := s.db.generations[s.workers[t].generation];
            KeyOf(t, s.workers[t]) == OutputKey(row.user, row.report, s.workers[t].generation, t)
  {
    var w := s.workers[t];
    PublisherReadItsRow(s, t);
    KeyIsUnused(s, t);
    GenerationIsUnpublished(s.db, w.generation);
    EndingLaws.UnsettledWhileActive(s, w.generation);
    FinalizationConsumes(s.db, s.clock, w.generation, w.report, w.user, t, KeyOf(t, w), w.pc.size);
    ConsumptionPublishes(s.db, w.generation, KeyOf(t, w), w.pc.size);
  }

  /** The owner's publication as a step: its rows, its object under a key of its own, and its end. */
  ghost predicate Publication(s: Sys, after: Sys, t: Token)
    requires t in s.workers && s.workers[t].pc.Publishing? && s.workers[t].generation in s.db.generations
  {
    var g, size := s.workers[t].generation, s.workers[t].pc.size;
    var key := OutputKey(s.db.generations[g].user, s.db.generations[g].report, g, t);
    && PublishedRows(s.db, after.db, g, key, size)
    && key in after.objects && after.objects[key] == size
    && t in after.workers && after.workers[t].pc.Stopped? && !after.workers[t].uploaded
  }

  lemma FinalizationCommits(cfg: Config, s: Sys, t: Token)
    requires t in s.workers && s.workers[t].pc.Publishing? && s.workers[t].generation in s.db.generations
    requires var w := s.workers[t]; var g := w.generation; var row := s.db.generations[g];
             var finalized := Processing.FinalizeSuccess(s.db, s.clock, g, w.report, w.user, t, KeyOf(t, w), w.pc.size);
             && finalized.Ok? && PublishedRows(s.db, finalized.value, g, KeyOf(t, w), w.pc.size)
             && KeyOf(t, w) in s.objects && s.objects[KeyOf(t, w)] == w.pc.size
             && KeyOf(t, w) == OutputKey(row.user, row.report, g, t)
    ensures Publication(s, WorkerNext(cfg, s, t, Publish), t)
  {
  }

  lemma PublicationSucceeds(cfg: Config, s: Sys, t: Token)
    requires RunLaws.Inv(cfg, s) && t in s.workers && Owns(s, t) && s.workers[t].pc.Publishing?
    ensures Publication(s, WorkerNext(cfg, s, t, Publish), t)
  {
    FinalizationSucceeds(cfg, s, t);
    FinalizationCommits(cfg, s, t);
  }

  /** In every reachable state the owner of a generation can publish what it has uploaded. */
  lemma OwnerPublishes(cfg: Config, run: seq<Action>, t: Token)
    requires t in Reached(cfg, run).workers && Owns(Reached(cfg, run), t) && Reached(cfg, run).workers[t].pc.Publishing?
    ensures Publication(Reached(cfg, run), WorkerNext(cfg, Reached(cfg, run), t, Publish), t)
  {
    Invariance.EveryRunKeepsInv(cfg, run);
    PublicationSucceeds(cfg, Reached(cfg, run), t);
  }

  // ----- retrying, failing and cancelling -----

  /** Only this generation and its report change: the one to this status without a holder, the other to this status. */
  ghost predicate MovesTo(db: Db, after: Db, g: GenerationId, status: GenerationStatus, reportStatus: ReportStatus) {
    && g in db.generations && after.generations == db.generations[g := db.generations[g].(status := status, token := None, lease := None)]
    && var r := db.generations[g].report;
    && r in db.reports && r in after.reports && after.reports == db.reports[r := after.reports[r]]
    && after.reports[r] == db.reports[r].(status := reportStatus, throttle := after.reports[r].throttle)
    && after.outputs == db.outputs && after.assets == db.assets && after.attempts == db.attempts && after.tasks == db.tasks
  }

  /** A retry gives the generation back to the queue, where anyone may claim it at once, and keeps its credit. */
  lemma OwnerRetries(cfg: Config, s: Sys, t: Token)
    requires Lockstep(s.db.reports, s.db.outputs, s.db.generations)
    requires t in s.workers && Owns(s, t) && s.workers[t].pc.Recovering?
    ensures var after := WorkerNext(cfg, s, t, Recover(true)); var g := s.workers[t].generation;
            && MovesTo(s.db, after.db, g, GenerationStatus.Queued, QUEUED)
            && after.db.reports[s.db.generations[g].report].throttle == s.db.reports[s.db.generations[g].report].throttle
            && after.db.grants == s.db.grants && after.db.ledger == s.db.ledger
            && Processing.Claimable(after.db.generations, after.clock, g)
  {
    assert GenerationFits(s.db.reports, s.db.outputs, s.db.generations, s.workers[t].generation);
  }

  function EndRows(db: Db, g: GenerationId, status: GenerationStatus, report: Report): Db
    requires g in db.generations
  {
    db.(generations := db.generations[g := db.generations[g].(status := status, token := None, lease := None)],
        reports := db.reports[db.generations[g].report := report])
  }

  lemma ReleaseEnds(db: Db, g: GenerationId, status: GenerationStatus, report: Report)
    requires Sound(db) && Open(db, g) && db.generations[g].report in db.reports
    requires var before := db.reports[db.generations[g].report]; report == before.(status := report.status, throttle := report.throttle)
    ensures var released := Credits.Release(EndRows(db, g, status, report), g);
            && released.Ok? && MovesTo(db, released.value, g, status, report.status) && CreditReturned(db, released.value, g)
            && released.value.reports == db.reports[db.generations[g].report := report]
  {
    var mid := EndRows(db, g, status, report);
    EndingLaws.SoundByKeys(db, mid);
    OpenReservationsSettle(mid, g);
  }

  lemma FailureReleases(cfg: Config, db: Db, now: Time, g: GenerationId, t: Token)
    requires Attempts.Owned(db.generations, now, g, t) && db.generations[g].report in db.reports && db.generations[g].report !in db.outputs
    ensures var before := db.reports[db.generations[g].report];
            Processing.FailGeneration(cfg, db, now, g, t)
            == Credits.Release(EndRows(db, g, GenerationStatus.Failed,
                                       before.(status := ReportStatus.FAILED, throttle := Throttle.Fail(cfg.throttle, before.throttle, now))), g)
  {
  }

  lemma FailureSucceeds(cfg: Config, s: Sys, g: GenerationId, t: Token)
    requires RunLaws.Inv(cfg, s) && Attempts.Owned(s.db.generations, s.clock, g, t)
    ensures var failed := Processing.FailGeneration(cfg, s.db, s.clock, g, t);
            && failed.Ok? && MovesTo(s.db, failed.value, g, GenerationStatus.Failed, ReportStatus.FAILED) && CreditReturned(s.db, failed.value, g)
  {
    RunLaws.ActiveIsNotReady(s.db, g);
    EndingLaws.UnsettledWhileActive(s, g);
    var before := s.db.reports[s.db.generations[g].report];
    FailureReleases(cfg, s.db, s.clock, g, t);
    ReleaseEnds(s.db, g, GenerationStatus.Failed,
                before.(status := ReportStatus.FAILED, throttle := Throttle.Fail(cfg.throttle, before.throttle, s.clock)));
  }

  ghost predicate Failure(s: Sys, after: Sys, g: GenerationId) {
    MovesTo(s.db, after.db, g, GenerationStatus.Failed, ReportStatus.FAILED) && CreditReturned(s.db, after.db, g)
  }

  lemma FailureCommits(cfg: Config, s: Sys, t: Token)
    requires t in s.workers && s.workers[t].pc.Recovering?
    requires var g := s.workers[t].generation; var failed := Processing.FailGeneration(cfg, s.db, s.clock, g, t);
             failed.Ok? && MovesTo(s.db, failed.value, g, GenerationStatus.Failed, ReportStatus.FAILED) && CreditReturned(s.db, failed.value, g)
    ensures Failure(s, WorkerNext(cfg, s, t, Recover(false)), s.workers[t].generation)
  {
  }

  lemma RecoverySucceeds(cfg: Config, s: Sys, t: Token)
    requires RunLaws.Inv(cfg, s) && t in s.workers && Owns(s, t) && s.workers[t].pc.Recovering?
    ensures Failure(s, WorkerNext(cfg, s, t, Recover(false)), s.workers[t].generation)
  {
    FailureSucceeds(cfg, s, s.workers[t].generation, t);
    FailureCommits(cfg, s, t);
  }

  /** A failure for good gives the credit back to the grant it came from; the throttle follows the failure times, as
      Runs.FailuresAreRecorded says. */
  lemma OwnerFails(cfg: Config, run: seq<Action>, t: Token)
    requires t in Reached(cfg, run).workers && Owns(Reached(cfg, run), t) && Reached(cfg, run).workers[t].pc.Recovering?
    ensures Failure(Reached(cfg, run), WorkerNext(cfg, Reached(cfg, run), t, Recover(false)), Reached(cfg, run).workers[t].generation)
  {
    Invariance.EveryRunKeepsInv(cfg, run);
    RecoverySucceeds(cfg, Reached(cfg, run), t);
  }

  predicate Cancellable(db: Db, user: UserId, r: ReportId, g: GenerationId) {
    g in db.generations && db.generations[g].status.Queued? && db.generations[g].report == r && db.generations[g].user == user
  }

  lemma QueuedHasNoHolder(cfg: Config, s: Sys, g: GenerationId)
    requires RunLaws.Inv(cfg, s) && g in s.db.generations && s.db.generations[g].status.Queued?
    ensures s.db.generations[g].token.None? && s.db.generations[g].lease.None?
  {
    assert GenerationFits(s.db.reports, s.db.outputs, s.db.generations, g);
  }

  lemma CancellationReleases(db: Db, user: UserId, r: ReportId, g: GenerationId)
    requires Cancellable(db, user, r, g) && r in db.reports && db.generations[g].token.None? && db.generations[g].lease.None?
    ensures Generations.Cancel(db, user, r, g)
            == Credits.Release(EndRows(db, g, GenerationStatus.Cancelled, db.reports[r].(status := db.generations[g].priorReportStatus)), g)
  {
  }

  lemma CancellationSucceeds(cfg: Config, s: Sys, user: UserId, r: ReportId, g: GenerationId)
    requires RunLaws.Inv(cfg, s) && Cancellable(s.db, user, r, g)
    ensures var cancelled := Generations.Cancel(s.db, user, r, g);
            && cancelled.Ok? && MovesTo(s.db, cancelled.value, g, GenerationStatus.Cancelled, s.db.generations[g].priorReportStatus)
            && cancelled.value.reports[r].throttle == s.db.reports[r].throttle && CreditReturned(s.db, cancelled.value, g)
  {
    RunLaws.ActiveIsNotReady(s.db, g);
    EndingLaws.UnsettledWhileActive(s, g);
    QueuedHasNoHolder(cfg, s, g);
    CancellationReleases(s.db, user, r, g);
    ReleaseEnds(s.db, g, GenerationStatus.Cancelled, s.db.reports[r].(status := s.db.generations[g].priorReportStatus));
  }

  ghost predicate Cancelled(s: Sys, after: Sys, r: ReportId, g: GenerationId) {
    && g in s.db.generations && MovesTo(s.db, after.db, g, GenerationStatus.Cancelled, s.db.generations[g].priorReportStatus)
    && r in s.db.reports && r in after.db.reports && after.db.reports[r].throttle == s.db.reports[r].throttle
    && CreditReturned(s.db, after.db, g)
  }

  ghost predicate CancelsIff(s: Sys, after: Sys, user: UserId, r: ReportId, g: GenerationId) {
    if Cancellable(s.db, user, r, g) then Cancelled(s, after, r, g) else after == s
  }

  lemma CancellationCommits(cfg: Config, s: Sys, user: UserId, r: ReportId, g: GenerationId)
    requires Cancellable(s.db, user, r, g) ==>
               Generations.Cancel(s.db, user, r, g).Ok? && Cancelled(s, s.(db := Generations.Cancel(s.db, user, r, g).value), r, g)
    ensures CancelsIff(s, Next(cfg, s, CancelGeneration(user, r, g)), user, r, g)
  {
    assert !Cancellable(s.db, user, r, g) ==> Generations.Cancel(s.db, user, r, g).Err?;
  }

  /** A user can cancel exactly the queued generations of their own reports: the report goes back to the status it had
      before the start, and the credit to its grant. */
  lemma QueuedCancels(cfg: Config, run: seq<Action>, user: UserId, r: ReportId, g: GenerationId)
    ensures CancelsIff(Reached(cfg, run), Next(cfg, Reached(cfg, run), CancelGeneration(user, r, g)), user, r, g)
  {
    Invariance.EveryRunKeepsInv(cfg, run);
    if Cancellable(Reached(cfg, run).db, user, r, g) { CancellationSucceeds(cfg, Reached(cfg, run), user, r, g); }
    CancellationCommits(cfg, Reached(cfg, run), user, r, g);
  }

  // ----- the queue's answer -----

  /** A queued generation is marked once the queue has taken it; nothing else about it changes. */
  lemma MarkedIff(cfg: Config, s: Sys, g: GenerationId)
    ensures Next(cfg, s, MarkEnqueued(g))
            == if g in s.db.generations && s.db.generations[g].status.Queued?
               then s.(db := s.db.(generations := s.db.generations[g := s.db.generations[g].(enqueued := true)])) else s
  {
    if g in s.db.generations && s.db.generations[g].status.Queued? && s.db.generations[g].enqueued {
      assert s.db.generations[g := s.db.generations[g].(enqueued := true)] == s.db.generations;
    }
  }

  /** The generation is gone with its calls, its report has its status back and its grant the credit. */
  ghost predicate CompensatedRows(db: Db, after: Db, g: GenerationId) {
    && g in db.generations && after.generations == db.generations - {g}
    && var r := db.generations[g].report;
    && r in db.reports && after.reports == db.reports[r := db.reports[r].(status := db.generations[g].priorReportStatus)]
    && ReserveKey(g) in db.ledger && db.ledger[ReserveKey(g)].grant.Some? && var id := db.ledger[ReserveKey(g)].grant.value;
    && id in db.grants && after.grants == db.grants[id := db.grants[id].(remaining := db.grants[id].remaining + 1)]
    && after.ledger.Keys == db.ledger.Keys + {ReleaseKey(g)}
    && (forall i :: i in after.attempts <==> i in db.attempts && db.attempts[i].generation != g)
    && (forall i | i in after.attempts :: after.attempts[i] == db.attempts[i])
    && after.outputs == db.outputs && after.assets == db.assets && after.tasks == db.tasks
  }

  lemma CompensationRows(db: Db, g: GenerationId)
    requires Sound(db) && Open(db, g) && db.generations[g].status.Queued?
    requires var r := db.generations[g].report; r in db.reports && db.reports[r].status.QUEUED?
    requires forall h | h in db.outputs :: db.outputs[h].generation != g
    ensures Generations.Compensate(db, g).Ok? && CompensatedRows(db, Generations.Compensate(db, g).value, g)
  {
    OpenReservationsSettle(db, g);
    var after := Generations.Compensate(db, g).value;
    assert after.outputs == db.outputs;
    assert after.generations == db.generations - {g};
  }

  ghost predicate CompensatesIff(s: Sys, after: Sys, g: GenerationId) {
    if g in s.db.generations && s.db.generations[g].status.Queued? then CompensatedRows(s.db, after.db, g) else after == s
  }

  lemma QueuedCanBeUndone(cfg: Config, s: Sys, g: GenerationId)
    requires RunLaws.Inv(cfg, s) && g in s.db.generations && s.db.generations[g].status.Queued?
    ensures Generations.Compensate(s.db, g).Ok? && CompensatedRows(s.db, Generations.Compensate(s.db, g).value, g)
  {
    RunLaws.ActiveIsNotReady(s.db, g);
    EndingLaws.UnsettledWhileActive(s, g);
    GenerationIsUnpublished(s.db, g);
    assert GenerationFits(s.db.reports, s.db.outputs, s.db.generations, g);
    CompensationRows(s.db, g);
  }

  lemma CompensationCommits(cfg: Config, s: Sys, g: GenerationId)
    requires g in s.db.generations && s.db.generations[g].status.Queued? ==>
               Generations.Compensate(s.db, g).Ok? && CompensatedRows(s.db, Generations.Compensate(s.db, g).value, g)
    ensures CompensatesIff(s, Next(cfg, s, Compensate(g)), g)
  {
  }

  /** When the queue refuses, exactly a generation that is still queued is undone, in every reachable state. */
  lemma QueuedIsCompensated(cfg: Config, run: seq<Action>, g: GenerationId)
    ensures CompensatesIff(Reached(cfg, run), Next(cfg, Reached(cfg, run), Compensate(g)), g)
  {
    Invariance.EveryRunKeepsInv(cfg, run);
    if g in Reached(cfg, run).db.generations && Reached(cfg, run).db.generations[g].status.Queued? { QueuedCanBeUndone(cfg, Reached(cfg, run), g); }
    CompensationCommits(cfg, Reached(cfg, run), g);
  }
}
