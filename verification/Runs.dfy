/** What holds in every run of the system, from an empty database on: any number
    of users, queue deliveries, crashes, stale workers, clock advances and
    cleanup sweeps, in any order. */
module Runs {
  import opened Rows
  import opened Protocol
  import opened LockstepLaws
  import opened WorkLaws
  import opened CreditLaws
  import opened LedgerLaws
  import opened BudgetLaws
  import opened TimeLaws
  import opened Steps
  import StorageLaws
  import SnapshotLaws
  import SlotLaws
  import OutboxLaws
  import RunLaws
  import Invariance
  import Attempts
  import Processing
  import Generations
  import Assets
  import Throttle
  import Lifecycle

  ghost function Reached(cfg: Config, run: seq<Action>): Sys {
    After(cfg, INIT, run)
  }

  // ----- fencing -----

  predicate Owns(s: Sys, t: Token)
    requires t in s.workers
  {
    Attempts.Owned(s.db.generations, s.clock, s.workers[t].generation, t)
  }

  /** A claim and a guarded write of an owner exclude each other, and between the two there is only the
      instant at which the lease ends. */
  lemma ClaimAndWriteExclude(generations: map<GenerationId, Generation>, now: Time, g: GenerationId)
    requires g in generations && generations[g].status.Processing? && generations[g].token.Some? && generations[g].lease.Some?
    ensures Processing.Claimable(generations, now, g) <==> generations[g].lease.value < now
    ensures (exists t :: Attempts.Owned(generations, now, g, t)) <==> generations[g].lease.value > now
  {
    assert Attempts.Owned(generations, now, g, generations[g].token.value) <==> generations[g].lease.value > now;
  }

  /** The tables that only the owner of a generation may write, and the objects of other workers. */
  predicate LeavesAlone(s: Sys, after: Sys, t: Token) {
    && after.db.reports == s.db.reports && after.db.generations == s.db.generations && after.db.outputs == s.db.outputs
    && after.db.grants == s.db.grants && after.db.ledger == s.db.ledger && after.db.assets == s.db.assets
    && forall k | k in s.objects.Keys + after.objects.Keys && !(k.OutputKey? && k.token == t) ::
         k in s.objects && k in after.objects && after.objects[k] == s.objects[k]
  }

  lemma StrangersLeaveAlone(cfg: Config, s: Sys, t: Token, step: WorkerStep)
    requires t in s.workers && !Owns(s, t)
    ensures LeavesAlone(s, WorkerNext(cfg, s, t, step), t)
  {
    match step
    case Publish => StrangerEnds(cfg, s, t, false);
    case Recover(retry) => StrangerEnds(cfg, s, t, retry);
    case Put(size) => StrangerUploads(s, t, size);
    case _ =>
      WorkerIsGentle(cfg, s, t, step);
      GentleKeepsObjects(cfg, s, t, step);
  }

  lemma StrangerEnds(cfg: Config, s: Sys, t: Token, retry: bool)
    requires t in s.workers && !Owns(s, t)
    ensures LeavesAlone(s, PublishStep(s, t), t) && LeavesAlone(s, RecoverStep(cfg, s, t, retry), t)
  {
  }

  lemma StrangerUploads(s: Sys, t: Token, size: nat)
    requires t in s.workers
    ensures LeavesAlone(s, PutStep(s, t, size), t)
  {
  }

  lemma GentleKeepsObjects(cfg: Config, s: Sys, t: Token, step: WorkerStep)
    requires t in s.workers && !step.Publish? && !step.Recover? && !step.Put?
    ensures WorkerNext(cfg, s, t, step).objects == s.objects
  {
  }

  lemma RunsAreGrounded(cfg: Config, run: seq<Action>)
    ensures Grounded(Reached(cfg, run))
  {
    Invariance.EveryRunKeepsInv(cfg, run);
  }

  lemma RunStep(cfg: Config, run: seq<Action>, a: Action)
    ensures Reached(cfg, run + [a]) == Next(cfg, Reached(cfg, run), a)
    ensures Orderly(Reached(cfg, run), Reached(cfg, run + [a]))
  {
    RunsAreGrounded(cfg, run);
    AfterStep(cfg, INIT, run, a);
    StepIsOrderly(cfg, Reached(cfg, run), a);
  }

  /** Ownership that was lost once, by expiry, by a newer claim, by a retry or by an ending, is lost for good. */
  lemma {:induction false} LossIsFinal(cfg: Config, run: seq<Action>, rest: seq<Action>, t: Token)
    requires t in Reached(cfg, run).workers && !Owns(Reached(cfg, run), t)
    ensures var s := Reached(cfg, run); var later := Reached(cfg, run + rest);
            t in later.workers && later.workers[t].generation == s.workers[t].generation && !Owns(later, t)
  {
    if rest == [] {
      assert run + rest == run;
    } else {
      var n := |rest| - 1;
      LossIsFinal(cfg, run, rest[..n], t);
      assert run + rest == run + rest[..n] + [rest[n]];
      RunStep(cfg, run + rest[..n], rest[n]);
    }
  }

  /** Fencing: once a delivery with a new token has claimed a generation, no later step of a worker that came
      before it changes any report, generation, output, grant or ledger row, whatever happens in between. */
  lemma NewClaimFencesOldWorkers(cfg: Config, before: seq<Action>, u: Token, g: GenerationId, lag: nat, rest: seq<Action>,
                                 t: Token, step: WorkerStep)
    requires var s := Reached(cfg, before);
             && u !in s.workers && Processing.Claimable(s.db.generations, s.clock, g)
             && t in s.workers && s.workers[t].generation == g
    ensures var later := Reached(cfg, before + [Deliver(u, g, lag)] + rest);
            t in later.workers && LeavesAlone(later, WorkerNext(cfg, later, t, step), t)
  {
    AfterStep(cfg, INIT, before, Deliver(u, g, lag));
    ClaimDisowns(cfg, Reached(cfg, before), u, g, lag, t);
    LossIsFinal(cfg, before + [Deliver(u, g, lag)], rest, t);
    StrangersLeaveAlone(cfg, Reached(cfg, before + [Deliver(u, g, lag)] + rest), t, step);
  }

  lemma ClaimDisowns(cfg: Config, s: Sys, u: Token, g: GenerationId, lag: nat, t: Token)
    requires u !in s.workers && Processing.Claimable(s.db.generations, s.clock, g)
    requires t in s.workers && s.workers[t].generation == g
    ensures var claimed := DeliverNext(cfg, s, u, g, lag); t in claimed.workers && !Owns(claimed, t) && Owns(claimed, u)
  {
  }

  /** The same without a newer claim: an expired lease alone fences its worker for the rest of the run. */
  lemma ExpiredLeaseFences(cfg: Config, before: seq<Action>, rest: seq<Action>, t: Token, step: WorkerStep)
    requires var s := Reached(cfg, before);
             && t in s.workers && s.workers[t].generation in s.db.generations
             && var row := s.db.generations[s.workers[t].generation];
             row.lease.Some? && row.lease.value <= s.clock
    ensures var later := Reached(cfg, before + rest);
            t in later.workers && LeavesAlone(later, WorkerNext(cfg, later, t, step), t)
  {
    LossIsFinal(cfg, before, rest, t);
    StrangersLeaveAlone(cfg, Reached(cfg, before + rest), t, step);
  }

  /** A delivery that lost its claim is deferred exactly while a worker holds the generation, and then to a time at which
      the generation, if nobody renewed it, can be claimed: not before a second from now, and no later than a second after
      the last moment at which it cannot. */
  lemma DeferredDeliveryCanClaim(cfg: Config, run: seq<Action>, g: GenerationId, later: Time)
    requires var s := Reached(cfg, run);
             var result := Processing.ResultAfterClaimLoss(s.db, s.clock, g);
             result.Deferred? && later >= result.retryAt
    ensures var s := Reached(cfg, run);
            s.clock + 1_000 <= later && Processing.Claimable(s.db.generations, later, g)
    ensures var s := Reached(cfg, run);
            var retryAt := Processing.ResultAfterClaimLoss(s.db, s.clock, g).retryAt;
            retryAt == s.clock + 1_000 || !Processing.Claimable(s.db.generations, retryAt - 1_000, g)
  {
    RunsAreGrounded(cfg, run);
    var db := Reached(cfg, run).db;
    assert GenerationFits(db.reports, db.outputs, db.generations, g);
  }

  lemma DeliveryIsDeferredIff(cfg: Config, run: seq<Action>, g: GenerationId)
    ensures var s := Reached(cfg, run);
            Processing.ResultAfterClaimLoss(s.db, s.clock, g).Deferred? <==> exists t :: Held(s.db.generations, g, t)
  {
    RunsAreGrounded(cfg, run);
    var db := Reached(cfg, run).db;
    if g in db.generations && db.generations[g].status.Processing? {
      assert GenerationFits(db.reports, db.outputs, db.generations, g);
      assert Held(db.generations, g, db.generations[g].token.value);
    }
  }

  /** A worker holds it, whether or not its lease has run out. */
  predicate Held(generations: map<GenerationId, Generation>, g: GenerationId, t: Token) {
    g in generations && generations[g].status.Processing? && generations[g].token == Some(t)
  }

  // ----- credits -----

  /** Credit conservation: what is left plus what is reserved and not released is the total. */
  lemma CreditsAreConserved(cfg: Config, run: seq<Action>, id: GrantId)
    requires id in Reached(cfg, run).db.grants
    ensures var db := Reached(cfg, run).db; var grant := db.grants[id];
            && grant.remaining + |Outstanding(db.ledger, id)| == grant.total
            && 0 <= grant.remaining <= grant.total
  {
    Invariance.EveryRunKeepsInv(cfg, run);
  }

  /** Every generation that was ever started has its reservation; one that is active has no terminal row, a
      completed one is consumed and not released, a failed, cancelled or compensated one is released and not
      consumed, and one that went with its report keeps exactly one terminal row. */
  lemma LedgerFollowsGenerations(cfg: Config, run: seq<Action>, g: GenerationId)
    requires g in Reached(cfg, run).history.origins
    ensures var s := Reached(cfg, run); var ledger := s.db.ledger;
            && ReserveKey(g) in ledger
            && (g in s.db.generations && Generations.Active(s.db.generations[g]) ==> ConsumeKey(g) !in ledger && ReleaseKey(g) !in ledger)
            && (g in s.db.generations && s.db.generations[g].status.Completed? ==> ConsumeKey(g) in ledger && ReleaseKey(g) !in ledger)
            && (g in s.db.generations && (s.db.generations[g].status.Failed? || s.db.generations[g].status.Cancelled?) ==>
                  ReleaseKey(g) in ledger && ConsumeKey(g) !in ledger)
            && (g in s.history.compensated ==> g !in s.db.generations && ReleaseKey(g) in ledger && ConsumeKey(g) !in ledger)
            && (g !in s.db.generations ==> (ConsumeKey(g) in ledger <==> ReleaseKey(g) !in ledger))
  {
    Invariance.EveryRunKeepsInv(cfg, run);
    var s := Reached(cfg, run);
    assert Settled(s.db.generations, s.db.ledger.Keys, s.db.reports.Keys, s.history, g);
  }

  /** At most one reservation is ever consumed for a report, over its whole life. */
  lemma OneChargePerReport(cfg: Config, run: seq<Action>, g: GenerationId, h: GenerationId)
    requires var s := Reached(cfg, run);
             && g in s.history.origins && h in s.history.origins && s.history.origins[g].report == s.history.origins[h].report
             && ConsumeKey(g) in s.db.ledger && ConsumeKey(h) in s.db.ledger
    ensures g == h
  {
    Invariance.EveryRunKeepsInv(cfg, run);
  }

  // ----- the three machines -----

  lemma MachinesAgree(cfg: Config, run: seq<Action>, r: ReportId)
    requires r in Reached(cfg, run).db.reports
    ensures var db := Reached(cfg, run).db; var status := db.reports[r].status;
            && (status.QUEUED? <==> exists g :: ActiveOf(db.generations, r, g) && db.generations[g].status.Queued?)
            && (status.PROCESSING? <==> exists g :: ActiveOf(db.generations, r, g) && db.generations[g].status.Processing?)
            && (status.READY? <==> exists g :: g in db.generations && db.generations[g].report == r && db.generations[g].status.Completed?)
            && (status.READY? <==> r in db.outputs)
            && (forall g, h | ActiveOf(db.generations, r, g) && ActiveOf(db.generations, r, h) :: g == h)
            && (forall g, h | g in db.generations && h in db.generations && db.generations[g].report == r && db.generations[h].report == r
                              && db.generations[g].status.Completed? && db.generations[h].status.Completed? :: g == h)
  {
    Invariance.EveryRunKeepsInv(cfg, run);
    var db := Reached(cfg, run).db;
    StatusesAgree(db.reports, db.outputs, db.generations, r);
  }

  /** The status that a start remembers to go back to is always one that a start accepts. */
  lemma PriorStatusIsEditable(cfg: Config, run: seq<Action>, g: GenerationId)
    requires g in Reached(cfg, run).db.generations
    ensures Lifecycle.Editable(Reached(cfg, run).db.generations[g].priorReportStatus)
  {
    Invariance.EveryRunKeepsInv(cfg, run);
    var db := Reached(cfg, run).db;
    assert GenerationFits(db.reports, db.outputs, db.generations, g);
  }

  /** failGeneration never finds an output, so its branch that would return a report to READY is dead. */
  lemma FailureNeverFindsOutput(cfg: Config, run: seq<Action>, g: GenerationId, t: Token)
    requires var s := Reached(cfg, run); Attempts.Owned(s.db.generations, s.clock, g, t)
    ensures var s := Reached(cfg, run); s.db.generations[g].report in s.db.reports && s.db.generations[g].report !in s.db.outputs
  {
    Invariance.EveryRunKeepsInv(cfg, run);
    RunLaws.ActiveIsNotReady(Reached(cfg, run).db, g);
  }

  // ----- READY -----

  /** Once created, a report or a generation is known for good, and once deleted it never comes back. */
  lemma {:induction false} DeletedStaysDeleted(cfg: Config, run: seq<Action>, rest: seq<Action>)
    ensures GoneStaysGone(Reached(cfg, run), Reached(cfg, run + rest))
    ensures Reached(cfg, run).clock <= Reached(cfg, run + rest).clock
  {
    RunsAreGrounded(cfg, run);
    if rest == [] {
      assert run + rest == run;
    } else {
      var n := |rest| - 1;
      assert run + rest == run + rest[..n] + [rest[n]];
      DeletedStaysDeleted(cfg, run, rest[..n]);
      RunStep(cfg, run + rest[..n], rest[n]);
    }
  }

  /** READY is absorbing: until it is deleted, a ready report keeps its whole row and its whole output. */
  lemma {:induction false} ReadyUntilDeleted(cfg: Config, run: seq<Action>, rest: seq<Action>, r: ReportId)
    requires r in Reached(cfg, run).db.reports && Reached(cfg, run).db.reports[r].status.READY?
    requires r in Reached(cfg, run + rest).db.reports
    ensures var db := Reached(cfg, run).db; var later := Reached(cfg, run + rest).db;
            && later.reports[r] == db.reports[r]
            && r in db.outputs && r in later.outputs && later.outputs[r] == db.outputs[r]
  {
    if rest == [] {
      RunsAreGrounded(cfg, run);
      assert run + rest == run;
      ReadyHasOutput(Reached(cfg, run).db, r);
    } else {
      var n := |rest| - 1;
      assert run + rest == run + rest[..n] + [rest[n]];
      RunStep(cfg, run + rest[..n], rest[n]);
      StillThere(cfg, run, rest[..n], r, rest[n]);
      ReadyUntilDeleted(cfg, run, rest[..n], r);
      RunsAreGrounded(cfg, run + rest[..n]);
      ReadyStays(Reached(cfg, run + rest[..n]), Reached(cfg, run + rest), r);
    }
  }

  lemma ReadyHasOutput(db: Db, r: ReportId)
    requires Lockstep(db.reports, db.outputs, db.generations) && r in db.reports && db.reports[r].status.READY?
    ensures r in db.outputs && forall g :: !ActiveOf(db.generations, r, g)
  {
    assert ReportFits(db.reports, db.outputs, db.generations, r);
    forall g ensures !ActiveOf(db.generations, r, g) {
      assert g in db.generations ==> GenerationFits(db.reports, db.outputs, db.generations, g);
    }
  }

  lemma ReadyStays(s: Sys, after: Sys, r: ReportId)
    requires Lockstep(s.db.reports, s.db.outputs, s.db.generations) && ReportsMove(s, after)
    requires r in s.db.reports && s.db.reports[r].status.READY? && r in after.db.reports
    ensures after.db.reports[r] == s.db.reports[r] && r in s.db.outputs && r in after.db.outputs && after.db.outputs[r] == s.db.outputs[r]
  {
    ReadyHasOutput(s.db, r);
    assert ReportMoves(s, after, r);
  }

  /** A report that is there after one more step was there before it, if it had ever been there. */
  lemma StillThere(cfg: Config, run: seq<Action>, rest: seq<Action>, r: ReportId, a: Action)
    requires r in Reached(cfg, run).db.reports && r in Reached(cfg, run + rest + [a]).db.reports
    ensures r in Reached(cfg, run + rest).db.reports
  {
    RunsAreGrounded(cfg, run);
    DeletedStaysDeleted(cfg, run, rest);
    RunStep(cfg, run + rest, a);
  }

  // ----- the throttle in a run -----

  lemma RunsAreThrottled(cfg: Config, run: seq<Action>)
    ensures var s := Reached(cfg, run); Throttled(cfg, s.db.reports, s.db.generations, s.history.failures, s.clock)
  {
    Invariance.EveryRunKeepsInv(cfg, run);
  }

  /** The history of a report gains the current time exactly when one of its generations fails for good. */
  lemma FailuresAreRecorded(cfg: Config, run: seq<Action>, a: Action)
    ensures FailuresRecorded(Reached(cfg, run), Reached(cfg, run + [a]))
  {
    RunStep(cfg, run, a);
  }

  /** The throttle bound: if the lock outlasts the window, no stretch of one window length ever holds more than
      max(limit, 2*limit - 2) terminal failures of one report, and one that holds that many has just ended in a
      lock; the report row shows that lock unless a later success made the report READY. */
  lemma ThrottleBoundsFailures(cfg: Config, run: seq<Action>, r: ReportId, i: nat, j: nat)
    requires cfg.throttle.lockMs > cfg.throttle.windowMs
    requires r in Reached(cfg, run).history.failures
    requires var times := Reached(cfg, run).history.failures[r]; i <= j < |times| && times[j] - times[i] <= cfg.throttle.windowMs
    ensures j - i + 1 <= Throttle.Bound(cfg.throttle.limit)
    ensures var s := Reached(cfg, run); var times := s.history.failures[r];
            j - i + 1 == Throttle.Bound(cfg.throttle.limit) && j == |times| - 1 && r in s.db.reports && !s.db.reports[r].status.READY? ==>
              s.db.reports[r].throttle.lockedUntil == Some(times[j] + cfg.throttle.lockMs)
  {
    RunsAreThrottled(cfg, run);
    var s := Reached(cfg, run);
    assert HistoryFits(cfg, s.history.failures[r], s.clock);
    assert r in s.db.reports ==> ThrottleFits(cfg, s.db.reports, s.db.generations, s.history.failures, s.clock, r);
    Throttle.FailuresInAnyWindow(cfg.throttle, s.history.failures[r], i, j);
  }

  predicate LockedAt(s: Sys, r: ReportId, now: Time)
    requires r in s.db.reports
  {
    !Throttle.Unlocked(s.db.reports[r].throttle, now)
  }

  /** A lock is never cleared, shortened or lengthened before it expires, and no generation of the report is
      active meanwhile. */
  lemma {:induction false} LockLasts(cfg: Config, run: seq<Action>, rest: seq<Action>, r: ReportId)
    requires r in Reached(cfg, run).db.reports && r in Reached(cfg, run + rest).db.reports
    requires LockedAt(Reached(cfg, run), r, Reached(cfg, run + rest).clock)
    ensures var s := Reached(cfg, run); var later := Reached(cfg, run + rest);
            && later.db.reports[r].throttle == s.db.reports[r].throttle
            && forall g :: !ActiveOf(later.db.generations, r, g)
  {
    if rest == [] {
      assert run + rest == run;
      RunsAreThrottled(cfg, run);
      LockedIsIdle(cfg, Reached(cfg, run), r);
    } else {
      var n := |rest| - 1;
      assert run + rest == run + rest[..n] + [rest[n]];
      RunStep(cfg, run + rest[..n], rest[n]);
      StillThere(cfg, run, rest[..n], r, rest[n]);
      LockLasts(cfg, run, rest[..n], r);
      assert ReportMoves(Reached(cfg, run + rest[..n]), Reached(cfg, run + rest), r);
      RunsAreThrottled(cfg, run + rest);
      LockedIsIdle(cfg, Reached(cfg, run + rest), r);
    }
  }

  lemma LockedIsIdle(cfg: Config, s: Sys, r: ReportId)
    requires Throttled(cfg, s.db.reports, s.db.generations, s.history.failures, s.clock)
    requires r in s.db.reports && LockedAt(s, r, s.clock)
    ensures forall g :: !ActiveOf(s.db.generations, r, g)
  {
    assert ThrottleFits(cfg, s.db.reports, s.db.generations, s.history.failures, s.clock, r);
  }

  // ----- rolling limits -----

  /** At every moment and for every closed interval of the window length, the surviving generations created in
      it are at most the limit: per user for the start window and the day, over all users for the day. */
  lemma StartsStayWithinLimits(cfg: Config, run: seq<Action>, user: UserId, from: Time)
    ensures var generations := Reached(cfg, run).db.generations;
            && |CreatedIn(generations, Some(user), from, cfg.startWindowMs)| <= cfg.startLimit
            && |CreatedIn(generations, Some(user), from, DAY_MS)| <= cfg.dailyLimit
            && |CreatedIn(generations, None, from, DAY_MS)| <= cfg.globalDailyLimit
  {
    Invariance.EveryRunKeepsInv(cfg, run);
    var generations := Reached(cfg, run).db.generations;
    assert Rolls(generations, Some(user), cfg.startWindowMs, cfg.startLimit);
    assert Rolls(generations, Some(user), DAY_MS, cfg.dailyLimit);
    assert Rolls(generations, None, DAY_MS, cfg.globalDailyLimit);
  }

  // ----- provider calls -----

  /** Paid work is never redone. */
  lemma PaidWorkIsDoneOnce(cfg: Config, run: seq<Action>, g: GenerationId)
    requires g in Reached(cfg, run).db.generations
    ensures var db := Reached(cfg, run).db;
            && (forall i, j | i in db.attempts && j in db.attempts
                              && db.attempts[i].operation == db.attempts[j].operation
                              && Attempts.Completes(db.attempts[i], g, db.attempts[i].operation)
                              && Attempts.Completes(db.attempts[j], g, db.attempts[j].operation) :: i == j)
            && (db.generations[g].structured.Some? <==> exists i :: i in db.attempts && Attempts.Completes(db.attempts[i], g, REPORT_GENERATION))
            && ((exists r :: r in db.outputs && db.outputs[r].generation == g) ==>
                  db.generations[g].structured.Some? && exists i :: i in db.attempts && Attempts.Completes(db.attempts[i], g, MODERATION))
  {
    RunsAreGrounded(cfg, run);
    var db := Reached(cfg, run).db;
    assert ResultFits(db.generations, db.attempts, g);
    assert forall r | r in db.outputs :: OutputIsPaid(db.generations, db.attempts, db.outputs[r]);
  }

  lemma RunsAreBudgeted(cfg: Config, run: seq<Action>)
    ensures Budgeted(cfg, Reached(cfg, run).db.attempts)
  {
    Invariance.EveryRunKeepsInv(cfg, run);
  }

  /** The budget of provider calls: never more than the maximum, never two in progress, and the calls of a
      generation carry exactly the numbers 1, 2, ..., n. */
  lemma CallsStayWithinBudget(cfg: Config, run: seq<Action>, g: GenerationId, operation: Operation, asset: Option<AssetId>, n: nat)
    ensures var attempts := Reached(cfg, run).db.attempts; var scope := Attempts.Scope(attempts, g, operation, asset);
            && |scope| <= cfg.MaximumCalls(operation)
            && (forall i, j | i in scope && j in scope && attempts[i].status.STARTED? && attempts[j].status.STARTED? :: i == j)
            && (asset.None? ==> ((exists i :: i in scope && attempts[i].number == n) <==> 1 <= n <= |scope|))
  {
    RunsAreBudgeted(cfg, run);
    var attempts := Reached(cfg, run).db.attempts;
    var scope := Attempts.Scope(attempts, g, operation, asset);
    forall i, j | i in scope && j in scope && attempts[i].status.STARTED? && attempts[j].status.STARTED? ensures i == j {
      assert SameScope(attempts[i], attempts[j]);
    }
    if asset.None? {
      assert Numbers(attempts, g, operation) == UpTo(|scope|);
      assert n in Numbers(attempts, g, operation) <==> n in UpTo(|scope|);
    }
  }

  /** No authorised call of a generation is ever forgotten while the generation is there, so the stored calls
      are all that were ever authorised and the budget bounds those. */
  lemma {:induction false} AuthorisedCallsAreKept(cfg: Config, run: seq<Action>, rest: seq<Action>, g: GenerationId, operation: Operation)
    requires g in Reached(cfg, run).db.generations && g in Reached(cfg, run + rest).db.generations
    ensures Attempts.Scope(Reached(cfg, run).db.attempts, g, operation, None)
            <= Attempts.Scope(Reached(cfg, run + rest).db.attempts, g, operation, None)
  {
    if rest == [] {
      assert run + rest == run;
    } else {
      var n := |rest| - 1;
      assert run + rest == run + rest[..n] + [rest[n]];
      RunsAreGrounded(cfg, run);
      DeletedStaysDeleted(cfg, run, rest[..n]);
      RunStep(cfg, run + rest[..n], rest[n]);
      AuthorisedCallsAreKept(cfg, run, rest[..n], g, operation);
      StepKeepsScope(Reached(cfg, run + rest[..n]), Reached(cfg, run + rest), g, operation);
    }
  }

  lemma StepKeepsScope(s: Sys, after: Sys, g: GenerationId, operation: Operation)
    requires AttemptsKept(s, after) && g in after.db.generations
    ensures Attempts.Scope(s.db.attempts, g, operation, None) <= Attempts.Scope(after.db.attempts, g, operation, None)
  {
  }

  // ----- idempotent start -----

  /** However often a start is repeated, lost, re-enqueued and compensated: one generation and at most one
      reservation that was not released for each user, report and idempotency key. */
  lemma StartIsIdempotent(cfg: Config, run: seq<Action>, g: GenerationId, h: GenerationId)
    requires var s := Reached(cfg, run);
             && g in s.history.origins && h in s.history.origins && s.history.origins[g] == s.history.origins[h]
    ensures var s := Reached(cfg, run);
            && (g in s.db.generations && h in s.db.generations ==> g == h)
            && (ReleaseKey(g) !in s.db.ledger && ReleaseKey(h) !in s.db.ledger ==> g == h)
  {
    Invariance.EveryRunKeepsInv(cfg, run);
    var s := Reached(cfg, run);
    assert Settled(s.db.generations, s.db.ledger.Keys, s.db.reports.Keys, s.history, g);
    assert Settled(s.db.generations, s.db.ledger.Keys, s.db.reports.Keys, s.history, h);
  }

  // ----- content -----

  /** From its start until it ends, a generation's snapshot is what the live report says. */
  lemma SnapshotIsCurrent(cfg: Config, run: seq<Action>, g: GenerationId)
    requires g in Reached(cfg, run).db.generations && Generations.Active(Reached(cfg, run).db.generations[g])
    ensures var db := Reached(cfg, run).db; var row := db.generations[g];
            && row.report in db.reports
            && row.snapshot.title == db.reports[row.report].title && row.snapshot.notes == db.reports[row.report].notes
            && (forall a :: a in row.snapshot.assets <==> a in db.assets && db.assets[a].report == row.report)
            && (forall a | a in row.snapshot.assets :: row.snapshot.assets[a] == db.assets[a] && db.assets[a].status.Uploaded?)
  {
    Invariance.EveryRunKeepsInv(cfg, run);
    var db := Reached(cfg, run).db;
    assert SnapshotLaws.SnapshotFits(db.reports, db.assets, db.generations[g]);
  }

  /** The ordered list of a snapshot is the ordered list of the live report, and there is only one such list: whatever
      the database answers at either time to the query by position, it is the same, by strictly increasing position. */
  lemma SnapshotOrderIsCurrent(cfg: Config, run: seq<Action>, g: GenerationId, listed: seq<AssetId>, live: seq<AssetId>)
    requires g in Reached(cfg, run).db.generations && Generations.Active(Reached(cfg, run).db.generations[g])
    requires SnapshotLaws.OrderedByPosition(Reached(cfg, run).db.generations[g].snapshot.assets, listed)
    requires var db := Reached(cfg, run).db;
             SnapshotLaws.OrderedByPosition(Generations.AssetsOf(db.assets, db.generations[g].report), live)
    ensures listed == live
    ensures SnapshotLaws.ListsByPosition(Reached(cfg, run).db.assets, live)
  {
    var s := Reached(cfg, run);
    var row := s.db.generations[g];
    SnapshotIsCurrent(cfg, run, g);
    SlotsStayWithinLimits(cfg, run, row.report, Image);
    var assets := Generations.AssetsOf(s.db.assets, row.report);
    assert row.snapshot.assets == assets;
    forall a | a in assets ensures a in Assets.CountedOf(s.db.assets, row.report, cfg, s.clock) {
      assert s.db.assets[a].status.Uploaded?;
    }
    SnapshotLaws.OrderOfDistinctIsDetermined(assets, listed, live);
  }

  /** Ready assets and unexpired uploads stay within the limits and have different positions. */
  lemma SlotsStayWithinLimits(cfg: Config, run: seq<Action>, r: ReportId, kind: AssetType)
    ensures var s := Reached(cfg, run); var slots := Assets.CountedOf(s.db.assets, r, cfg, s.clock);
            && |Assets.OfKind(s.db.assets, slots, kind)| <= cfg.MaximumCount(kind)
            && Assets.TotalBytes(s.db.assets, slots) <= cfg.maxReportBytes
            && forall a, b | a in slots && b in slots && s.db.assets[a].position == s.db.assets[b].position :: a == b
  {
    Invariance.EveryRunKeepsInv(cfg, run);
    var s := Reached(cfg, run);
    assert SlotLaws.SlotsFit(cfg, s.db.assets, s.clock, r);
  }

  // ----- storage -----

  /** A published output is never destroyed or dangling. */
  lemma OutputsStayStored(cfg: Config, run: seq<Action>, r: ReportId)
    requires r in Reached(cfg, run).db.outputs
    ensures var s := Reached(cfg, run); var output := s.db.outputs[r];
            && output.storageKey in s.objects && s.objects[output.storageKey] == output.size
            && output.storageKey !in s.db.tasks && output.storageKey !in s.sweeping && output.storageKey !in s.swept
  {
    Invariance.EveryRunKeepsInv(cfg, run);
    StorageLaws.PublishedIsSafe(Reached(cfg, run), r);
  }

  lemma {:induction false} RowsAreOwed(cfg: Config, run: seq<Action>)
    ensures RowsOwed(Reached(cfg, run))
  {
    if run != [] {
      var n := |run| - 1;
      RowsAreOwed(cfg, run[..n]);
      StepOwes(cfg, Reached(cfg, run[..n]), run[n]);
    }
  }

  /** The outbox is complete: a key that an output or an issued upload ever had is in a live row, in a task, or
      was deleted successfully; the keys of live rows are among those keys. */
  lemma EveryKeyIsAccountedFor(cfg: Config, run: seq<Action>, k: StorageKey)
    ensures var s := Reached(cfg, run);
            && (k in s.history.owed ==> OutboxLaws.LiveIn(s.db.assets, s.db.outputs, k) || k in s.db.tasks || k in s.history.deletedOnce)
            && (OutboxLaws.LiveIn(s.db.assets, s.db.outputs, k) ==> k in s.history.owed)
  {
    Invariance.EveryRunKeepsInv(cfg, run);
    RowsAreOwed(cfg, run);
  }

  /** A task leaves only in the cleanup attempt that deleted its object, after the deletion succeeded. */
  lemma TasksLeaveAfterDeletion(cfg: Config, run: seq<Action>, a: Action, k: StorageKey)
    requires k in Reached(cfg, run).db.tasks && k !in Reached(cfg, run + [a]).db.tasks
    ensures k in Reached(cfg, run).swept && k in Reached(cfg, run).history.deletedOnce
  {
    Invariance.EveryRunKeepsInv(cfg, run);
    RunStep(cfg, run, a);
  }
}
