/** What a lease gives to the worker that holds it: from each renewal on, one job
    timeout in which nobody else can claim the generation. */
module Leases {
  import opened Rows
  import opened Protocol
  import opened LockstepLaws
  import opened Runs
  import Attempts
  import Processing
  import Generations
  import Assets
  import Steps

  /** At every time of one job timeout from now on the generation is this worker's, and up to its end nobody may claim it. */
  ghost predicate Secured(cfg: Config, now: Time, generations: map<GenerationId, Generation>, t: Token, g: GenerationId) {
    && (forall later: Time | now <= later < now + cfg.jobTimeoutMs :: Attempts.Owned(generations, later, g, t))
    && (forall later: Time | later <= now + cfg.jobTimeoutMs :: !Processing.Claimable(generations, later, g))
  }

  /** In plain columns. */
  lemma SecuredByColumns(cfg: Config, now: Time, generations: map<GenerationId, Generation>, t: Token, g: GenerationId)
    requires g in generations
    ensures Secured(cfg, now, generations, t, g)
       <==> generations[g].status.Processing? && generations[g].token == Some(t)
            && generations[g].lease.Some? && generations[g].lease.value >= now + cfg.jobTimeoutMs
  {
    if Secured(cfg, now, generations, t, g) {
      assert Attempts.Owned(generations, now, g, t) && Attempts.Owned(generations, now + cfg.jobTimeoutMs - 1, g, t);
    }
  }

  lemma HeartbeatSecures(cfg: Config, s: Sys, t: Token)
    requires t in s.workers && Owns(s, t) && !s.workers[t].pc.Stopped?
    ensures Secured(cfg, s.clock, WorkerNext(cfg, s, t, Heartbeat).db.generations, t, s.workers[t].generation)
  {
  }

  /** Progress renews and lets the program go on. */
  lemma ProgressSecures(cfg: Config, s: Sys, t: Token, advance: bool)
    requires t in s.workers && Owns(s, t)
    requires var pc := s.workers[t].pc; pc.Transcribing? || pc.PreparingContent? || pc.Rendering?
    ensures var after := WorkerNext(cfg, s, t, Progress(advance));
            && Secured(cfg, s.clock, after.db.generations, t, s.workers[t].generation)
            && t in after.workers && !after.workers[t].pc.Failing?
  {
  }

  /** A delivery claims exactly a generation that is queued or whose lease has run out, and starts a worker that holds it;
      any other delivery changes no row and ends. */
  lemma DeliverySecuresIff(cfg: Config, s: Sys, t: Token, g: GenerationId, lag: nat)
    requires t !in s.workers
    ensures var after := Next(cfg, s, Deliver(t, g, lag));
            && t in after.workers && after.workers[t].generation == g
            && if g in s.db.generations && var row := s.db.generations[g];
                  row.status.Queued? || (row.status.Processing? && row.lease.Some? && row.lease.value < s.clock)
               then Secured(cfg, s.clock, after.db.generations, t, g) && after.workers[t].pc.Reading?
                    && after.db.generations == s.db.generations[g := after.db.generations[g]]
               else after.db == s.db && after.workers[t].pc.Stopped?
  {
  }

  /** The report that the provider wrote is stored as it is, with its call, and the lease is renewed. */
  lemma ResultSecures(cfg: Config, s: Sys, t: Token, id: AttemptId, content: Content)
    requires t in s.workers && Owns(s, t) && s.workers[t].pc == CallingReporter(id)
    requires id in s.db.attempts && s.db.attempts[id].token == t && s.db.attempts[id].status.STARTED? && s.db.attempts[id].lease > s.clock
    ensures var after := WorkerNext(cfg, s, t, FinishCall(content)); var g := s.workers[t].generation;
            && Secured(cfg, s.clock, after.db.generations, t, g)
            && after.db.generations[g].structured == Some(content)
            && after.db.attempts == s.db.attempts[id := s.db.attempts[id].(status := COMPLETED)]
            && t in after.workers && after.workers[t].pc.Rendering? && after.workers[t].hasResult
  {
  }

  // ----- nobody else takes it away -----

  /** The row is still this worker's, with a lease at least as long as one set at a time before. */
  predicate HeldSince(cfg: Config, s: Sys, t: Token, g: GenerationId, since: Time) {
    && since <= s.clock && g in s.db.generations
    && s.db.generations[g].status.Processing? && s.db.generations[g].token == Some(t)
    && s.db.generations[g].lease.Some? && s.db.generations[g].lease.value >= since + cfg.jobTimeoutMs
  }

  /** This worker's own steps that end its claim. */
  predicate Ends(a: Action, t: Token) {
    a.WorkerActs? && a.token == t && (a.step.Publish? || a.step.Recover?)
  }

  predicate RowStays(s: Sys, after: Sys, g: GenerationId) {
    g in s.db.generations && g in after.db.generations && after.db.generations[g] == s.db.generations[g] && s.clock <= after.clock
  }

  lemma OtherWorkersLeaveRow(cfg: Config, s: Sys, u: Token, step: WorkerStep, t: Token, g: GenerationId)
    requires Steps.Grounded(s) && u in s.workers && u != t
    requires g in s.db.generations && s.db.generations[g].token == Some(t)
    ensures RowStays(s, WorkerNext(cfg, s, u, step), g)
  {
    Steps.WorkerIsOrderly(cfg, s, u, step);
    RenewalLeavesOthers(s, WorkerNext(cfg, s, u, step), u, t, g);
  }

  lemma RenewalLeavesOthers(s: Sys, after: Sys, u: Token, t: Token, g: GenerationId)
    requires u in s.workers && Steps.RenewedOrEnded(s, after, u) && u != t
    requires g in s.db.generations && s.db.generations[g].token == Some(t)
    ensures RowStays(s, after, g)
  {
  }

  predicate Renews(step: WorkerStep) {
    step.Heartbeat? || step.Progress? || step.FinishCall?
  }

  lemma OtherStepsLeaveGenerations(cfg: Config, s: Sys, t: Token, step: WorkerStep)
    requires t in s.workers && !Renews(step) && !step.Publish? && !step.Recover?
    ensures WorkerNext(cfg, s, t, step).db.generations == s.db.generations
  {
  }

  lemma HeartbeatKeepsHold(cfg: Config, s: Sys, t: Token, g: GenerationId, since: Time)
    requires HeldSince(cfg, s, t, g, since) && t in s.workers
    ensures HeldSince(cfg, HeartbeatStep(cfg, s, t), t, g, since)
  {
  }

  lemma ProgressKeepsHold(cfg: Config, s: Sys, t: Token, advance: bool, g: GenerationId, since: Time)
    requires HeldSince(cfg, s, t, g, since) && t in s.workers
    ensures HeldSince(cfg, ProgressStep(cfg, s, t, advance), t, g, since)
  {
  }

  lemma RecordKeepsHold(cfg: Config, s: Sys, t: Token, content: Content, g: GenerationId, since: Time)
    requires HeldSince(cfg, s, t, g, since) && t in s.workers
    ensures HeldSince(cfg, FinishCallStep(cfg, s, t, content), t, g, since)
  {
    var w := s.workers[t];
    match w.pc
    case CallingReporter(id) => PersistKeepsHold(cfg, s, t, id, content, g, since);
    case _ => CompletionLeavesGenerations(cfg, s, t, content);
  }

  lemma CompletionLeavesGenerations(cfg: Config, s: Sys, t: Token, content: Content)
    requires t in s.workers && !s.workers[t].pc.CallingReporter?
    ensures var after := FinishCallStep(cfg, s, t, content); after.db.generations == s.db.generations && after.clock == s.clock
  {
    match s.workers[t].pc
    case CallingTranscriber(id) => CompletedRows(s.db, s.clock, s.workers[t].generation, id, t);
    case CallingModerator(id) => CompletedRows(s.db, s.clock, s.workers[t].generation, id, t);
    case _ =>
  }

  lemma CompletedRows(db: Db, now: Time, g: GenerationId, id: AttemptId, t: Token)
    ensures var completed := Attempts.CompleteOwned(db, now, g, id, t); completed.Ok? ==> completed.value.generations == db.generations
  {
  }

  lemma PersistKeepsHold(cfg: Config, s: Sys, t: Token, id: AttemptId, content: Content, g: GenerationId, since: Time)
    requires HeldSince(cfg, s, t, g, since) && t in s.workers && s.workers[t].pc == CallingReporter(id)
    ensures HeldSince(cfg, FinishCallStep(cfg, s, t, content), t, g, since)
  {
  }

  lemma OwnStepKeepsHold(cfg: Config, s: Sys, t: Token, step: WorkerStep, g: GenerationId, since: Time)
    requires HeldSince(cfg, s, t, g, since) && t in s.workers && !step.Publish? && !step.Recover?
    ensures HeldSince(cfg, WorkerNext(cfg, s, t, step), t, g, since)
  {
    match step
    case Heartbeat => HeartbeatKeepsHold(cfg, s, t, g, since);
    case Progress(advance) => ProgressKeepsHold(cfg, s, t, advance, g, since);
    case FinishCall(content) => RecordKeepsHold(cfg, s, t, content, g, since);
    case _ =>
      Steps.WorkerIsGentle(cfg, s, t, step);
      OtherStepsLeaveGenerations(cfg, s, t, step);
  }

  lemma DeletionLeavesClaim(cfg: Config, s: Sys, user: UserId, doomed: ReportId, g: GenerationId)
    requires Lockstep(s.db.reports, s.db.outputs, s.db.generations)
    requires g in s.db.generations && s.db.generations[g].status.Processing?
    ensures RowStays(s, Commit(s, Assets.DeleteReport(s.db, user, doomed)), g)
  {
    assert GenerationFits(s.db.reports, s.db.outputs, s.db.generations, g);
    if s.db.generations[g].report != doomed { DeletionLeavesOthers(s.db, user, doomed, g); }
  }

  lemma DeletionLeavesOthers(db: Db, user: UserId, doomed: ReportId, g: GenerationId)
    requires g in db.generations && db.generations[g].report != doomed
    ensures var deleted := Assets.DeleteReport(db, user, doomed);
            deleted.Ok? ==> g in deleted.value.generations && deleted.value.generations[g] == db.generations[g]
  {
  }

  /** Starts, marks, compensations and cancellations concern generations that are new or queued, and a delivery cannot
      claim one whose lease has not run out. */
  lemma UsersLeaveClaim(cfg: Config, s: Sys, a: Action, g: GenerationId)
    requires a.StartGeneration? || a.MarkEnqueued? || a.CancelGeneration? || a.Deliver?
    requires g in s.db.generations && s.db.generations[g].status.Processing?
    requires !Processing.Claimable(s.db.generations, s.clock, g)
    ensures RowStays(s, Next(cfg, s, a), g)
  {
    match a
    case StartGeneration(user, r, key, h, emailVerified) => StartLeavesClaim(cfg, s, user, r, key, h, emailVerified, g);
    case MarkEnqueued(h) => MarkLeavesClaim(s.db, h, g);
    case CancelGeneration(user, r, h) => CancellationLeavesClaim(s.db, user, r, h, g);
    case Deliver(u, h, lag) => DeliveryLeavesClaim(cfg, s, u, h, lag, g);
  }

  lemma MarkLeavesClaim(db: Db, h: GenerationId, g: GenerationId)
    requires g in db.generations && db.generations[g].status.Processing?
    ensures var after := Generations.MarkEnqueued(db, h); g in after.generations && after.generations[g] == db.generations[g]
  {
  }

  lemma DeliveryLeavesClaim(cfg: Config, s: Sys, u: Token, h: GenerationId, lag: nat, g: GenerationId)
    requires g in s.db.generations && !Processing.Claimable(s.db.generations, s.clock, g)
    ensures RowStays(s, DeliverNext(cfg, s, u, h, lag), g)
  {
  }

  lemma StartLeavesClaim(cfg: Config, s: Sys, user: UserId, r: ReportId, key: string, h: GenerationId, emailVerified: bool, g: GenerationId)
    requires g in s.db.generations
    ensures RowStays(s, StartNext(cfg, s, user, r, key, h, emailVerified), g)
  {
  }

  lemma CancellationLeavesClaim(db: Db, user: UserId, r: ReportId, h: GenerationId, g: GenerationId)
    requires g in db.generations && db.generations[g].status.Processing?
    ensures var cancelled := Generations.Cancel(db, user, r, h);
            cancelled.Ok? ==> g in cancelled.value.generations && cancelled.value.generations[g] == db.generations[g]
  {
  }

  lemma CompensationLeavesClaim(s: Sys, h: GenerationId, g: GenerationId)
    requires g in s.db.generations && s.db.generations[g].status.Processing?
    ensures RowStays(s, CompensateNext(s, h), g)
  {
  }

  /** Whatever happens, a claim whose time has not run out stays. */
  lemma ClaimStays(cfg: Config, s: Sys, a: Action, t: Token, g: GenerationId, since: Time)
    requires Steps.Grounded(s) && t in s.workers && s.workers[t].generation == g && HeldSince(cfg, s, t, g, since)
    requires s.clock < since + cfg.jobTimeoutMs && !Ends(a, t)
    ensures HeldSince(cfg, Next(cfg, s, a), t, g, since)
  {
    if a.WorkerActs? {
      if a.token == t {
        OwnStepKeepsHold(cfg, s, t, a.step, g, since);
      } else if a.token in s.workers {
        OtherWorkersKeepHold(cfg, s, a.token, a.step, t, g, since);
      }
    } else {
      OthersLeaveClaim(cfg, s, a, g);
      RowThatStaysIsHeld(cfg, s, Next(cfg, s, a), t, g, since);
    }
  }

  lemma RowThatStaysIsHeld(cfg: Config, s: Sys, after: Sys, t: Token, g: GenerationId, since: Time)
    requires HeldSince(cfg, s, t, g, since) && RowStays(s, after, g)
    ensures HeldSince(cfg, after, t, g, since)
  {
  }

  lemma OtherWorkersKeepHold(cfg: Config, s: Sys, u: Token, step: WorkerStep, t: Token, g: GenerationId, since: Time)
    requires Steps.Grounded(s) && u in s.workers && u != t && HeldSince(cfg, s, t, g, since)
    ensures HeldSince(cfg, WorkerNext(cfg, s, u, step), t, g, since)
  {
    OtherWorkersLeaveRow(cfg, s, u, step, t, g);
    RowThatStaysIsHeld(cfg, s, WorkerNext(cfg, s, u, step), t, g, since);
  }

  lemma OthersLeaveClaim(cfg: Config, s: Sys, a: Action, g: GenerationId)
    requires Steps.Grounded(s) && !a.WorkerActs?
    requires g in s.db.generations && s.db.generations[g].status.Processing?
    requires !Processing.Claimable(s.db.generations, s.clock, g)
    ensures RowStays(s, Next(cfg, s, a), g)
  {
    if Steps.OnContent(a) {
      ContentLeavesRow(cfg, s, a, g);
    } else if a.DeleteReport? || a.Compensate? {
      RemovalsLeaveClaim(cfg, s, a, g);
    } else {
      UsersLeaveClaim(cfg, s, a, g);
    }
  }

  lemma RemovalsLeaveClaim(cfg: Config, s: Sys, a: Action, g: GenerationId)
    requires Lockstep(s.db.reports, s.db.outputs, s.db.generations) && (a.DeleteReport? || a.Compensate?)
    requires g in s.db.generations && s.db.generations[g].status.Processing?
    ensures RowStays(s, Next(cfg, s, a), g)
  {
    match a
    case DeleteReport(user, doomed) => DeletionLeavesClaim(cfg, s, user, doomed, g);
    case Compensate(h) => CompensationLeavesClaim(s, h, g);
  }

  lemma ContentLeavesRow(cfg: Config, s: Sys, a: Action, g: GenerationId)
    requires Steps.OnContent(a) && g in s.db.generations
    ensures RowStays(s, Next(cfg, s, a), g)
  {
    Steps.ContentStepIsOrderly(cfg, s, a);
  }

  // ----- a worker that renews in time -----

  /** The heartbeats of a worker that still runs. */
  ghost predicate Beats(s: Sys, a: Action, t: Token) {
    a.WorkerActs? && a.token == t && a.step.Heartbeat? && t in s.workers && !s.workers[t].pc.Stopped?
  }

  /** When the worker last renewed in a run from a state, which begins with a renewal. */
  ghost function LastRenewal(cfg: Config, s: Sys, run: seq<Action>, t: Token): Time {
    if run == [] then s.clock
    else
      var n := |run| - 1;
      var before := After(cfg, s, run[..n]);
      if Beats(before, run[n], t) then before.clock else LastRenewal(cfg, s, run[..n], t)
  }

  /** At no point has it been a whole job timeout since the worker's last renewal, and it neither publishes nor recovers. */
  ghost predicate RenewsInTime(cfg: Config, s: Sys, run: seq<Action>, t: Token) {
    && (forall n | 0 <= n <= |run| :: After(cfg, s, run[..n]).clock < LastRenewal(cfg, s, run[..n], t) + cfg.jobTimeoutMs)
    && (forall n | 0 <= n < |run| :: !Ends(run[n], t))
  }

  lemma {:induction false} HoldLasts(cfg: Config, before: seq<Action>, rest: seq<Action>, t: Token)
    requires var s := Reached(cfg, before); t in s.workers && Secured(cfg, s.clock, s.db.generations, t, s.workers[t].generation)
    requires RenewsInTime(cfg, Reached(cfg, before), rest, t)
    ensures var s := Reached(cfg, before); var later := After(cfg, s, rest);
            && later == Reached(cfg, before + rest)
            && t in later.workers && later.workers[t].generation == s.workers[t].generation
            && HeldSince(cfg, later, t, s.workers[t].generation, LastRenewal(cfg, s, rest, t))
  {
    var s := Reached(cfg, before);
    var g := s.workers[t].generation;
    if rest == [] {
      assert before + rest == before;
      SecuredHolds(cfg, s, t, g);
    } else {
      var n := |rest| - 1;
      RenewedInTimeBefore(cfg, s, rest, t);
      HoldLasts(cfg, before, rest[..n], t);
      assert before + rest == before + rest[..n] + [rest[n]];
      RunStep(cfg, before + rest[..n], rest[n]);
      RunsAreGrounded(cfg, before + rest[..n]);
      OneMoreHold(cfg, After(cfg, s, rest[..n]), rest[n], t, g, LastRenewal(cfg, s, rest[..n], t));
    }
  }

  lemma SecuredHolds(cfg: Config, s: Sys, t: Token, g: GenerationId)
    requires Secured(cfg, s.clock, s.db.generations, t, g)
    ensures HeldSince(cfg, s, t, g, s.clock)
  {
    assert Attempts.Owned(s.db.generations, s.clock, g, t);
    SecuredByColumns(cfg, s.clock, s.db.generations, t, g);
  }

  lemma RenewedInTimeBefore(cfg: Config, s: Sys, run: seq<Action>, t: Token)
    requires run != [] && RenewsInTime(cfg, s, run, t)
    ensures RenewsInTime(cfg, s, run[..|run| - 1], t)
    ensures After(cfg, s, run[..|run| - 1]).clock < LastRenewal(cfg, s, run[..|run| - 1], t) + cfg.jobTimeoutMs
    ensures !Ends(run[|run| - 1], t)
  {
    var some := run[..|run| - 1];
    forall n | 0 <= n <= |some| ensures After(cfg, s, some[..n]).clock < LastRenewal(cfg, s, some[..n], t) + cfg.jobTimeoutMs {
      assert some[..n] == run[..n];
    }
  }

  lemma BeatHolds(cfg: Config, s: Sys, t: Token)
    requires t in s.workers && Owns(s, t) && !s.workers[t].pc.Stopped?
    ensures HeldSince(cfg, WorkerNext(cfg, s, t, Heartbeat), t, s.workers[t].generation, s.clock)
  {
    HeartbeatSecures(cfg, s, t);
    SecuredHolds(cfg, WorkerNext(cfg, s, t, Heartbeat), t, s.workers[t].generation);
  }

  lemma OneMoreHold(cfg: Config, s: Sys, a: Action, t: Token, g: GenerationId, since: Time)
    requires Steps.Grounded(s) && t in s.workers && s.workers[t].generation == g && HeldSince(cfg, s, t, g, since)
    requires s.clock < since + cfg.jobTimeoutMs && !Ends(a, t)
    ensures HeldSince(cfg, Next(cfg, s, a), t, g, if Beats(s, a, t) then s.clock else since)
  {
    if Beats(s, a, t) {
      BeatHolds(cfg, s, t);
    } else {
      ClaimStays(cfg, s, a, t, g, since);
    }
  }

  /** A worker whose claim or last renewal is never a whole job timeout ago owns its generation at every moment, whatever
      users, queue deliveries and other workers do: nobody can claim it. */
  lemma RenewingInTimeKeepsOwnership(cfg: Config, before: seq<Action>, rest: seq<Action>, t: Token)
    requires var s := Reached(cfg, before); t in s.workers && Secured(cfg, s.clock, s.db.generations, t, s.workers[t].generation)
    requires RenewsInTime(cfg, Reached(cfg, before), rest, t)
    ensures var later := Reached(cfg, before + rest);
            && t in later.workers && Owns(later, t)
            && !Processing.Claimable(later.db.generations, later.clock, later.workers[t].generation)
  {
    HoldLasts(cfg, before, rest, t);
    assert rest[..|rest|] == rest;
  }
}
