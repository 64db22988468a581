/** When a generation starts: the conditions and the counts written out on the
    rows, and that they suffice. */
module Starts {
  import opened Rows
  import opened Protocol
  import opened LockstepLaws
  import opened TimeLaws
  import opened Charges
  import opened Runs
  import Credits
  import CreditLaws
  import Generations
  import Processing
  import LedgerLaws
  import RunLaws
  import Invariance

  // ----- the counts -----

  /** The user's own starts in the window that ends now and in the day that ends now, and everyone's in that day, are
      below their limits. */
  ghost predicate CountsAllow(cfg: Config, generations: map<GenerationId, Generation>, user: UserId, now: Time) {
    && |CreatedIn(generations, Some(user), now - cfg.startWindowMs, cfg.startWindowMs)| < cfg.startLimit
    && |CreatedIn(generations, Some(user), now - DAY_MS, DAY_MS)| < cfg.dailyLimit
    && |CreatedIn(generations, None, now - DAY_MS, DAY_MS)| < cfg.globalDailyLimit
  }

  lemma CountsAgree(cfg: Config, generations: map<GenerationId, Generation>, user: UserId, now: Time)
    requires forall g | g in generations :: generations[g].createdAt <= now
    ensures Generations.WithinStartLimits(cfg, generations, user, now) <==> CountsAllow(cfg, generations, user, now)
  {
    SinceIsIn(generations, Some(user), cfg.startWindowMs, now);
    SinceIsIn(generations, Some(user), DAY_MS, now);
    SinceIsIn(generations, None, DAY_MS, now);
  }

  lemma SinceIsIn(generations: map<GenerationId, Generation>, user: Option<UserId>, length: nat, now: Time)
    requires forall g | g in generations :: generations[g].createdAt <= now
    ensures Generations.CreatedSince(generations, user, now - length) == CreatedIn(generations, user, now - length, length)
  {
  }

  /** What others have started matters only through the limit on everyone. */
  lemma OthersCountOnlyGlobally(cfg: Config, one: map<GenerationId, Generation>, other: map<GenerationId, Generation>, user: UserId, now: Time)
    requires forall g | g in one && one[g].user == user :: g in other && other[g] == one[g]
    requires forall g | g in other && other[g].user == user :: g in one && one[g] == other[g]
    requires |CreatedIn(one, None, now - DAY_MS, DAY_MS)| < cfg.globalDailyLimit
    requires |CreatedIn(other, None, now - DAY_MS, DAY_MS)| < cfg.globalDailyLimit
    ensures CountsAllow(cfg, one, user, now) <==> CountsAllow(cfg, other, user, now)
  {
    assert CreatedIn(one, Some(user), now - DAY_MS, DAY_MS) == CreatedIn(other, Some(user), now - DAY_MS, DAY_MS);
    assert CreatedIn(one, Some(user), now - cfg.startWindowMs, cfg.startWindowMs)
        == CreatedIn(other, Some(user), now - cfg.startWindowMs, cfg.startWindowMs);
  }

  // ----- the conditions -----

  predicate HasContent(db: Db, r: ReportId)
    requires r in db.reports
  {
    || (exists a :: a in db.assets && db.assets[a].report == r)
    || (exists i :: 0 <= i < |db.reports[r].notes| && !Generations.Trimmed(db.reports[r].notes[i]))
  }

  /** Everything a start asks for but the counts and a credit. */
  predicate Startable(db: Db, now: Time, user: UserId, r: ReportId, emailVerified: bool) {
    && r in db.reports && db.reports[r].user == user && emailVerified
    && (db.reports[r].status.DRAFT? || db.reports[r].status.FAILED?)
    && (db.reports[r].throttle.lockedUntil.None? || db.reports[r].throttle.lockedUntil.value <= now)
    && (forall a | a in db.assets && db.assets[a].report == r :: db.assets[a].status.Uploaded?)
    && HasContent(db, r)
  }

  predicate Asked(db: Db, user: UserId, r: ReportId, key: string) {
    exists h :: h in db.generations && db.generations[h].user == user && db.generations[h].report == r && db.generations[h].idempotencyKey == key
  }

  lemma SourcesByRows(db: Db, r: ReportId)
    requires r in db.reports
    ensures Generations.SourcesValid(db.reports[r].notes, Generations.AssetsOf(db.assets, r))
       <==> (forall a | a in db.assets && db.assets[a].report == r :: db.assets[a].status.Uploaded?) && HasContent(db, r)
  {
    var assets := Generations.AssetsOf(db.assets, r);
    if assets != map[] {
      var a :| a in assets;
      assert a in db.assets && db.assets[a].report == r;
    }
    forall a | a in db.assets && db.assets[a].report == r ensures a in assets {}
  }

  /** Of a request that is otherwise in order, start answers RateLimited exactly when one of the three counts is full. */
  lemma RateLimitedIff(cfg: Config, db: Db, now: Time, user: UserId, r: ReportId, key: string, g: GenerationId, emailVerified: bool)
    requires !Asked(db, user, r, key) && Startable(db, now, user, r, emailVerified)
    requires forall h | h in db.generations :: db.generations[h].createdAt <= now
    ensures Generations.Start(cfg, db, now, user, r, key, g, emailVerified) == Err(RateLimited) <==> !CountsAllow(cfg, db.generations, user, now)
  {
    CountsAgree(cfg, db.generations, user, now);
    SourcesByRows(db, r);
    assert !exists h :: h in db.generations && Generations.SameRequest(db.generations[h], user, r, key);
  }

  // ----- a start -----

  /** The generation is queued with what the report says now, and the report is queued. */
  ghost predicate Queued(db: Db, after: Db, now: Time, user: UserId, r: ReportId, key: string, g: GenerationId) {
    && r in db.reports && g in after.generations && after.generations == db.generations[g := after.generations[g]]
    && after.reports == db.reports[r := db.reports[r].(status := QUEUED)]
    && var row := after.generations[g];
    && row.user == user && row.report == r && row.idempotencyKey == key && row.createdAt == now
    && row.status.Queued? && row.token.None? && row.lease.None? && row.structured.None? && !row.enqueued
    && row.priorReportStatus == db.reports[r].status
    && row.snapshot.title == db.reports[r].title && row.snapshot.notes == db.reports[r].notes
    && (forall a :: a in row.snapshot.assets <==> a in db.assets && db.assets[a].report == r)
    && (forall a | a in row.snapshot.assets :: row.snapshot.assets[a] == db.assets[a])
  }

  ghost predicate CanBePaid(db: Db, user: UserId, now: Time) {
    exists id :: id in db.grants && CanPay(db.grants[id], user, now)
  }

  function Row(db: Db, now: Time, user: UserId, r: ReportId, key: string): Generation
    requires r in db.reports
  {
    Generation(r, user, key, GenerationStatus.Queued, None, None,
               Snapshot(db.reports[r].title, db.reports[r].notes, Generations.ReadyAssets(db.assets, r)), None, db.reports[r].status, now, false)
  }

  lemma StartReserves(cfg: Config, db: Db, now: Time, user: UserId, r: ReportId, key: string, g: GenerationId, emailVerified: bool)
    requires !Asked(db, user, r, key) && Startable(db, now, user, r, emailVerified) && CountsAllow(cfg, db.generations, user, now)
    requires forall h | h in db.generations :: db.generations[h].createdAt <= now
    requires g !in db.generations && forall h | h in db.generations && db.generations[h].report == r :: !Generations.Active(db.generations[h])
    ensures Generations.Start(cfg, db, now, user, r, key, g, emailVerified)
            == match Credits.Reserve(db.(generations := db.generations[g := Row(db, now, user, r, key)]), now, user, g)
               case Err(e) => Err(e)
               case Ok(reserved) => Ok(reserved.(reports := db.reports[r := db.reports[r].(status := QUEUED)]))
  {
    CountsAgree(cfg, db.generations, user, now);
    SourcesByRows(db, r);
    assert !exists h :: h in db.generations && Generations.SameRequest(db.generations[h], user, r, key);
  }

  lemma RowQueues(db: Db, after: Db, now: Time, user: UserId, r: ReportId, key: string, g: GenerationId, emailVerified: bool)
    requires Startable(db, now, user, r, emailVerified) && g !in db.generations
    requires after.generations == db.generations[g := Row(db, now, user, r, key)]
    requires after.reports == db.reports[r := db.reports[r].(status := QUEUED)]
    ensures Queued(db, after, now, user, r, key, g)
  {
  }

  lemma IdleWhileEditable(db: Db, r: ReportId)
    requires Lockstep(db.reports, db.outputs, db.generations) && r in db.reports
    requires db.reports[r].status.DRAFT? || db.reports[r].status.FAILED?
    ensures forall h | h in db.generations && db.generations[h].report == r :: !Generations.Active(db.generations[h])
  {
    forall h | h in db.generations && db.generations[h].report == r ensures !Generations.Active(db.generations[h]) {
      assert GenerationFits(db.reports, db.outputs, db.generations, h);
    }
  }

  lemma CreatedIsSound(db: Db, g: GenerationId, row: Generation)
    requires CreditLaws.Sound(db) && ReserveKey(g) !in db.ledger
    ensures CreditLaws.Sound(db.(generations := db.generations[g := row]))
  {
    CreditLaws.AttachConserves(db.generations.Keys, db.grants, db.ledger, g);
    assert db.generations[g := row].Keys == db.generations.Keys + {g};
  }

  /** The outcome of a start that nobody asked for before, under a fresh identifier. */
  ghost predicate StartsIff(cfg: Config, s: Sys, after: Sys, user: UserId, r: ReportId, key: string, g: GenerationId, emailVerified: bool) {
    if Conditions(cfg, s.db, user, r, s.clock, emailVerified) then
      && Queued(s.db, after.db, s.clock, user, r, key, g)
      && ReserveKey(g) in after.db.ledger && after.db.ledger[ReserveKey(g)].grant.Some?
      && Charged(s.db, after.db, user, s.clock, after.db.ledger[ReserveKey(g)].grant.value)
      && Processing.Claimable(after.db.generations, after.clock, g)
    else after == s
  }

  ghost predicate Conditions(cfg: Config, db: Db, user: UserId, r: ReportId, now: Time, emailVerified: bool) {
    Startable(db, now, user, r, emailVerified) && CountsAllow(cfg, db.generations, user, now) && CanBePaid(db, user, now)
  }

  lemma ConditionsSuffice(cfg: Config, s: Sys, user: UserId, r: ReportId, key: string, g: GenerationId, emailVerified: bool) returns (after: Db)
    requires RunLaws.Inv(cfg, s) && g !in s.history.origins && !Asked(s.db, user, r, key)
    requires Conditions(cfg, s.db, user, r, s.clock, emailVerified)
    ensures Generations.Start(cfg, s.db, s.clock, user, r, key, g, emailVerified) == Ok(after)
    ensures Queued(s.db, after, s.clock, user, r, key, g)
    ensures ReserveKey(g) in after.ledger && after.ledger[ReserveKey(g)].grant.Some?
    ensures Charged(s.db, after, user, s.clock, after.ledger[ReserveKey(g)].grant.value)
  {
    FreshIsUnknown(cfg, s, g);
    IdleWhileEditable(s.db, r);
    StartReserves(cfg, s.db, s.clock, user, r, key, g, emailVerified);
    var created := s.db.(generations := s.db.generations[g := Row(s.db, s.clock, user, r, key)]);
    CreatedIsSound(s.db, g, Row(s.db, s.clock, user, r, key));
    ReservationChargesFirst(created, s.clock, user, g);
    var reserved := Credits.Reserve(created, s.clock, user, g).value;
    after := reserved.(reports := s.db.reports[r := s.db.reports[r].(status := QUEUED)]);
    RowQueues(s.db, after, s.clock, user, r, key, g, emailVerified);
    ChargedAlike(created, reserved, s.db, after, user, s.clock, after.ledger[ReserveKey(g)].grant.value);
  }

  lemma ChargedAlike(one: Db, oneAfter: Db, db: Db, after: Db, user: UserId, now: Time, id: GrantId)
    requires Charged(one, oneAfter, user, now, id) && one.grants == db.grants && oneAfter.grants == after.grants
    ensures Charged(db, after, user, now, id)
  {
  }

  lemma FreshIsUnknown(cfg: Config, s: Sys, g: GenerationId)
    requires RunLaws.Inv(cfg, s) && g !in s.history.origins
    ensures g !in s.db.generations && ReserveKey(g) !in s.db.ledger
    ensures forall h | h in s.db.generations :: s.db.generations[h].createdAt <= s.clock
  {
    assert LedgerLaws.OfGeneration(ReserveKey(g));
  }

  /** Whatever condition fails, the transaction throws. */
  lemma ConditionsAreNeeded(cfg: Config, s: Sys, user: UserId, r: ReportId, key: string, g: GenerationId, emailVerified: bool)
    requires RunLaws.Inv(cfg, s) && g !in s.history.origins && !Asked(s.db, user, r, key)
    requires !Conditions(cfg, s.db, user, r, s.clock, emailVerified)
    ensures Generations.Start(cfg, s.db, s.clock, user, r, key, g, emailVerified).Err?
  {
    FreshIsUnknown(cfg, s, g);
    if !Startable(s.db, s.clock, user, r, emailVerified) {
      UnstartableIsRefused(cfg, s.db, s.clock, user, r, key, g, emailVerified);
    } else if !CountsAllow(cfg, s.db.generations, user, s.clock) {
      RateLimitedIff(cfg, s.db, s.clock, user, r, key, g, emailVerified);
    } else {
      IdleWhileEditable(s.db, r);
      StartReserves(cfg, s.db, s.clock, user, r, key, g, emailVerified);
      CreatedIsSound(s.db, g, Row(s.db, s.clock, user, r, key));
      ReservationChargesFirst(s.db.(generations := s.db.generations[g := Row(s.db, s.clock, user, r, key)]), s.clock, user, g);
    }
  }

  lemma UnstartableIsRefused(cfg: Config, db: Db, now: Time, user: UserId, r: ReportId, key: string, g: GenerationId, emailVerified: bool)
    requires !Asked(db, user, r, key) && !Startable(db, now, user, r, emailVerified)
    ensures Generations.Start(cfg, db, now, user, r, key, g, emailVerified).Err?
  {
    if r in db.reports { SourcesByRows(db, r); }
    assert !exists h :: h in db.generations && Generations.SameRequest(db.generations[h], user, r, key);
  }

  lemma StartCommits(cfg: Config, s: Sys, user: UserId, r: ReportId, key: string, g: GenerationId, emailVerified: bool)
    requires g !in s.history.origins && g !in s.db.generations
    ensures var started := Generations.Start(cfg, s.db, s.clock, user, r, key, g, emailVerified);
            var after := Next(cfg, s, StartGeneration(user, r, key, g, emailVerified));
            && (started.Err? ==> after == s)
            && (started.Ok? && g in started.value.generations ==> after.db == started.value && after.clock == s.clock)
  {
  }

  /** In every reachable state a new request under a fresh identifier starts a generation exactly when the report is its
      user's and in order, the three counts are below their limits and some grant can pay; then the generation is
      queued, may be claimed at once, and is paid by the first grant that can pay. Otherwise nothing changes. */
  lemma StartTakesPlaceIff(cfg: Config, run: seq<Action>, user: UserId, r: ReportId, key: string, g: GenerationId, emailVerified: bool)
    requires g !in Reached(cfg, run).history.origins && !Asked(Reached(cfg, run).db, user, r, key)
    ensures StartsIff(cfg, Reached(cfg, run), Next(cfg, Reached(cfg, run), StartGeneration(user, r, key, g, emailVerified)),
                      user, r, key, g, emailVerified)
  {
    var s := Reached(cfg, run);
    Invariance.EveryRunKeepsInv(cfg, run);
    StartOutcome(cfg, s, user, r, key, g, emailVerified);
  }

  lemma StartOutcome(cfg: Config, s: Sys, user: UserId, r: ReportId, key: string, g: GenerationId, emailVerified: bool)
    requires RunLaws.Inv(cfg, s) && g !in s.history.origins && !Asked(s.db, user, r, key)
    ensures StartsIff(cfg, s, Next(cfg, s, StartGeneration(user, r, key, g, emailVerified)), user, r, key, g, emailVerified)
  {
    FreshIsUnknown(cfg, s, g);
    StartCommits(cfg, s, user, r, key, g, emailVerified);
    if Conditions(cfg, s.db, user, r, s.clock, emailVerified) {
      var after := ConditionsSuffice(cfg, s, user, r, key, g, emailVerified);
    } else {
      ConditionsAreNeeded(cfg, s, user, r, key, g, emailVerified);
    }
  }
}
