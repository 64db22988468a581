/** What a generation's row never changes: what identifies it, the snapshot, the
    status that its report had, and a result once it is stored. */
module Permanence {
  import opened Rows
  import opened Protocol
  import opened LockstepLaws
  import opened Runs
  import Attempts
  import Processing
  import Generations
  import Assets
  import WorkLaws
  import Steps
  import Leases
  import Outcomes

  predicate RowKeeps(before: Generation, after: Generation) {
    SameIdentity(before, after) && (before.structured.Some? ==> after.structured == before.structured)
  }

  ghost predicate RowsKeep(before: map<GenerationId, Generation>, after: map<GenerationId, Generation>) {
    forall g | g in before && g in after :: RowKeeps(before[g], after[g])
  }

  // ----- one action -----

  lemma StartKeepsRows(cfg: Config, s: Sys, user: UserId, r: ReportId, key: string, g: GenerationId, emailVerified: bool)
    ensures RowsKeep(s.db.generations, StartNext(cfg, s, user, r, key, g, emailVerified).db.generations)
  {
  }

  lemma MarkKeepsRows(db: Db, g: GenerationId)
    ensures RowsKeep(db.generations, Generations.MarkEnqueued(db, g).generations)
  {
  }

  lemma ClaimKeepsRows(cfg: Config, db: Db, now: Time, g: GenerationId, t: Token)
    ensures var claimed := Processing.Claim(cfg, db, now, g, t); claimed.Some? ==> RowsKeep(db.generations, claimed.value.generations)
  {
  }

  lemma DeliveryKeepsRows(cfg: Config, s: Sys, t: Token, g: GenerationId, lag: nat)
    ensures RowsKeep(s.db.generations, DeliverNext(cfg, s, t, g, lag).db.generations)
  {
    ClaimKeepsRows(cfg, s.db, s.clock, g, t);
  }

  lemma CancellationKeepsRows(s: Sys, user: UserId, r: ReportId, g: GenerationId)
    ensures RowsKeep(s.db.generations, Commit(s, Generations.Cancel(s.db, user, r, g)).db.generations)
  {
  }

  lemma DeletionKeepsRows(s: Sys, user: UserId, r: ReportId)
    ensures RowsKeep(s.db.generations, Commit(s, Assets.DeleteReport(s.db, user, r)).db.generations)
  {
  }

  lemma CompensationKeepsRows(s: Sys, g: GenerationId)
    ensures RowsKeep(s.db.generations, CompensateNext(s, g).db.generations)
  {
  }

  lemma LifeStepKeepsRows(cfg: Config, s: Sys, a: Action)
    requires OnGeneration(a)
    ensures RowsKeep(s.db.generations, Next(cfg, s, a).db.generations)
  {
    match a
    case StartGeneration(user, r, key, g, emailVerified) => StartKeepsRows(cfg, s, user, r, key, g, emailVerified);
    case MarkEnqueued(g) => MarkKeepsRows(s.db, g);
    case Deliver(t, g, lag) => DeliveryKeepsRows(cfg, s, t, g, lag);
    case CancelGeneration(user, r, g) => CancellationKeepsRows(s, user, r, g);
    case DeleteReport(user, r) => DeletionKeepsRows(s, user, r);
    case Compensate(g) => CompensationKeepsRows(s, g);
  }

  lemma RenewalKeepsRows(cfg: Config, db: Db, now: Time, g: GenerationId, t: Token)
    ensures var renewed := Processing.Renew(cfg, db, now, g, t); renewed.Some? ==> RowsKeep(db.generations, renewed.value.generations)
  {
  }

  lemma HeartbeatKeepsRows(cfg: Config, s: Sys, t: Token)
    requires t in s.workers
    ensures RowsKeep(s.db.generations, HeartbeatStep(cfg, s, t).db.generations)
  {
    RenewalKeepsRows(cfg, s.db, s.clock, s.workers[t].generation, t);
  }

  lemma ProgressKeepsRows(cfg: Config, s: Sys, t: Token, advance: bool)
    requires t in s.workers
    ensures RowsKeep(s.db.generations, ProgressStep(cfg, s, t, advance).db.generations)
  {
    RenewalKeepsRows(cfg, s.db, s.clock, s.workers[t].generation, t);
  }

  lemma ReporterHasNoResult(s: Sys, t: Token)
    requires WorkLaws.WorkIn(s) && t in s.workers && s.workers[t].pc.CallingReporter? && Owns(s, t)
    ensures s.db.generations[s.workers[t].generation].structured.None?
  {
    assert WorkLaws.WorkerFits(s.db.generations, s.db.attempts, s.workers, t);
  }

  lemma StoredResultKeepsRows(cfg: Config, db: Db, now: Time, g: GenerationId, t: Token, id: AttemptId, content: Content)
    requires Attempts.Owned(db.generations, now, g, t) ==> db.generations[g].structured.None?
    ensures var stored := Processing.PersistResult(cfg, db, now, g, t, id, content);
            stored.Ok? ==> RowsKeep(db.generations, stored.value.generations)
  {
  }

  lemma ReportKeepsRows(cfg: Config, s: Sys, t: Token, content: Content)
    requires t in s.workers && s.workers[t].pc.CallingReporter?
    requires Owns(s, t) ==> s.db.generations[s.workers[t].generation].structured.None?
    ensures RowsKeep(s.db.generations, FinishCallStep(cfg, s, t, content).db.generations)
  {
    StoredResultKeepsRows(cfg, s.db, s.clock, s.workers[t].generation, t, s.workers[t].pc.attempt, content);
  }

  /** A worker that asks for a report has none, so a stored result is never written over. */
  lemma RecordKeepsRows(cfg: Config, s: Sys, t: Token, content: Content)
    requires WorkLaws.WorkIn(s) && t in s.workers
    ensures RowsKeep(s.db.generations, FinishCallStep(cfg, s, t, content).db.generations)
  {
    if s.workers[t].pc.CallingReporter? {
      if Owns(s, t) { ReporterHasNoResult(s, t); }
      ReportKeepsRows(cfg, s, t, content);
    } else {
      Leases.CompletionLeavesGenerations(cfg, s, t, content);
    }
  }

  lemma PublicationKeepsRows(s: Sys, t: Token)
    requires t in s.workers
    ensures RowsKeep(s.db.generations, PublishStep(s, t).db.generations)
  {
  }

  lemma PreparationKeepsRows(db: Db, now: Time, g: GenerationId, t: Token)
    ensures var prepared := Processing.PrepareRetry(db, now, g, t); prepared.Some? ==> RowsKeep(db.generations, prepared.value.generations)
  {
  }

  lemma RetryKeepsRows(cfg: Config, s: Sys, t: Token)
    requires t in s.workers
    ensures RowsKeep(s.db.generations, RecoverStep(cfg, s, t, true).db.generations)
  {
    PreparationKeepsRows(s.db, s.clock, s.workers[t].generation, t);
  }

  lemma FailureKeepsRows(cfg: Config, s: Sys, t: Token)
    requires t in s.workers
    ensures RowsKeep(s.db.generations, RecoverStep(cfg, s, t, false).db.generations)
  {
  }

  lemma EndingKeepsRows(cfg: Config, s: Sys, t: Token, step: WorkerStep)
    requires t in s.workers && (step.Publish? || step.Recover?)
    ensures RowsKeep(s.db.generations, WorkerNext(cfg, s, t, step).db.generations)
  {
    match step
    case Publish => PublicationKeepsRows(s, t);
    case Recover(retry) => if retry { RetryKeepsRows(cfg, s, t); } else { FailureKeepsRows(cfg, s, t); }
  }

  lemma WorkerStepKeepsRows(cfg: Config, s: Sys, t: Token, step: WorkerStep)
    requires WorkLaws.WorkIn(s) && t in s.workers
    ensures RowsKeep(s.db.generations, WorkerNext(cfg, s, t, step).db.generations)
  {
    match step
    case Heartbeat => HeartbeatKeepsRows(cfg, s, t);
    case Progress(advance) => ProgressKeepsRows(cfg, s, t, advance);
    case FinishCall(content) => RecordKeepsRows(cfg, s, t, content);
    case Publish => EndingKeepsRows(cfg, s, t, step);
    case Recover(_) => EndingKeepsRows(cfg, s, t, step);
    case _ => Leases.OtherStepsLeaveGenerations(cfg, s, t, step);
  }

  lemma StepKeepsRows(cfg: Config, s: Sys, a: Action)
    requires WorkLaws.WorkIn(s)
    ensures RowsKeep(s.db.generations, Next(cfg, s, a).db.generations)
  {
    if a.WorkerActs? {
      if a.token in s.workers { WorkerStepKeepsRows(cfg, s, a.token, a.step); }
    } else if OnGeneration(a) {
      LifeStepKeepsRows(cfg, s, a);
    } else {
      Steps.ContentStepIsOrderly(cfg, s, a);
    }
  }

  // ----- runs -----

  /** As long as its row is there, a generation is that of the same user, report and key, with the same snapshot and the
      same status to go back to; and its result, once stored, is never another. */
  lemma {:induction false} RowsArePermanent(cfg: Config, run: seq<Action>, rest: seq<Action>, g: GenerationId)
    requires g in Reached(cfg, run).db.generations && g in Reached(cfg, run + rest).db.generations
    ensures RowKeeps(Reached(cfg, run).db.generations[g], Reached(cfg, run + rest).db.generations[g])
  {
    if rest == [] {
      assert run + rest == run;
    } else {
      var n := |rest| - 1;
      assert run + rest == run + rest[..n] + [rest[n]];
      RunStep(cfg, run + rest[..n], rest[n]);
      RunsAreGrounded(cfg, run + rest[..n]);
      RowWasThere(cfg, run, rest, g);
      RowsArePermanent(cfg, run, rest[..n], g);
      StepKeepsRows(cfg, Reached(cfg, run + rest[..n]), rest[n]);
    }
  }

  lemma {:induction false} StartsAreRemembered(cfg: Config, run: seq<Action>, rest: seq<Action>, g: GenerationId)
    requires g in Reached(cfg, run).history.origins
    ensures g in Reached(cfg, run + rest).history.origins
  {
    if rest == [] {
      assert run + rest == run;
    } else {
      var n := |rest| - 1;
      assert run + rest == run + rest[..n] + [rest[n]];
      StartsAreRemembered(cfg, run, rest[..n], g);
      RunStep(cfg, run + rest[..n], rest[n]);
    }
  }

  /** A generation that is there now and was there before was there in between. */
  lemma RowWasThere(cfg: Config, run: seq<Action>, rest: seq<Action>, g: GenerationId)
    requires rest != [] && g in Reached(cfg, run).db.generations && g in Reached(cfg, run + rest).db.generations
    ensures g in Reached(cfg, run + rest[..|rest| - 1]).db.generations
  {
    var n := |rest| - 1;
    assert run + rest == run + rest[..n] + [rest[n]];
    RunStep(cfg, run + rest[..n], rest[n]);
    RunsAreGrounded(cfg, run);
    StartsAreRemembered(cfg, run, rest[..n], g);
  }

  /** Cancelling takes back a start, however long the generation waited: the report returns to the very status that it
      had when it was started. */
  lemma CancellationRestoresStatus(cfg: Config, run: seq<Action>, user: UserId, r: ReportId, key: string, g: GenerationId, emailVerified: bool,
                                   rest: seq<Action>)
    requires var start := StartGeneration(user, r, key, g, emailVerified);
             && g !in Reached(cfg, run).db.generations && g in Reached(cfg, run + [start]).db.generations
             && Outcomes.Cancellable(Reached(cfg, run + [start] + rest).db, user, r, g)
    ensures var later := Reached(cfg, run + [StartGeneration(user, r, key, g, emailVerified)] + rest);
            var after := Next(cfg, later, CancelGeneration(user, r, g));
            && r in Reached(cfg, run).db.reports && r in after.db.reports
            && after.db.reports[r].status == Reached(cfg, run).db.reports[r].status
  {
    var start := StartGeneration(user, r, key, g, emailVerified);
    RunStep(cfg, run, start);
    StartRemembersStatus(cfg, Reached(cfg, run), user, r, key, g, emailVerified);
    RowsArePermanent(cfg, run + [start], rest, g);
    Outcomes.QueuedCancels(cfg, run + [start] + rest, user, r, g);
  }

  lemma StartRemembersStatus(cfg: Config, s: Sys, user: UserId, r: ReportId, key: string, g: GenerationId, emailVerified: bool)
    requires g !in s.db.generations && g in StartNext(cfg, s, user, r, key, g, emailVerified).db.generations
    ensures var row := StartNext(cfg, s, user, r, key, g, emailVerified).db.generations[g];
            r in s.db.reports && row.report == r && row.priorReportStatus == s.db.reports[r].status
  {
  }
}
