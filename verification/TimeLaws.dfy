/** The properties of a run that speak of time: the failure throttle on each
    report and the rolling limits on starts. */
module TimeLaws {
  import opened Rows
  import opened Generations
  import opened LockstepLaws
  import Throttle

  // ----- the throttle on a report's row -----

  predicate NotAfter(times: seq<Time>, clock: Time) {
    |times| > 0 ==> times[|times| - 1] <= clock
  }

  ghost predicate HistoryFits(cfg: Config, times: seq<Time>, clock: Time) {
    Throttle.Admissible(cfg.throttle, times) && NotAfter(times, clock)
  }

  /** Until a report is READY its columns are what its failures left, and none of its generations is active
      under an unexpired lock. */
  ghost predicate ThrottleFits(cfg: Config, reports: map<ReportId, Report>, generations: map<GenerationId, Generation>,
                               failures: map<ReportId, seq<Time>>, clock: Time, r: ReportId)
    requires r in reports
  {
    && r in failures
    && (reports[r].status.READY? || reports[r].throttle == Throttle.After(cfg.throttle, failures[r], |failures[r]|))
    && (forall g | ActiveOf(generations, r, g) :: Throttle.Unlocked(reports[r].throttle, clock))
  }

  ghost predicate Throttled(cfg: Config, reports: map<ReportId, Report>, generations: map<GenerationId, Generation>,
                            failures: map<ReportId, seq<Time>>, clock: Time) {
    && (forall r | r in failures :: HistoryFits(cfg, failures[r], clock))
    && (forall r | r in reports :: ThrottleFits(cfg, reports, generations, failures, clock, r))
  }

  lemma TickKeepsThrottle(cfg: Config, reports: map<ReportId, Report>, generations: map<GenerationId, Generation>,
                          failures: map<ReportId, seq<Time>>, clock: Time, later: Time)
    requires Throttled(cfg, reports, generations, failures, clock) && clock <= later
    ensures Throttled(cfg, reports, generations, failures, later)
  {
    forall r | r in failures ensures HistoryFits(cfg, failures[r], later) {
      assert HistoryFits(cfg, failures[r], clock);
    }
    forall r | r in reports ensures ThrottleFits(cfg, reports, generations, failures, later, r) {
      assert ThrottleFits(cfg, reports, generations, failures, clock, r);
    }
  }

  /** Reports keep their throttle columns and nothing becomes active that was not, except under no lock. */
  lemma QuietChangeKeepsThrottle(cfg: Config, reports: map<ReportId, Report>, generations: map<GenerationId, Generation>,
                                 failures: map<ReportId, seq<Time>>, clock: Time,
                                 reports': map<ReportId, Report>, generations': map<GenerationId, Generation>)
    requires Throttled(cfg, reports, generations, failures, clock)
    requires forall r | r in reports' :: r in reports && reports'[r].throttle == reports[r].throttle
                                          && (reports[r].status.READY? ==> reports'[r].status.READY?)
    requires forall r, g | ActiveOf(generations', r, g) && r in reports' ::
               ActiveOf(generations, r, g) || Throttle.Unlocked(reports[r].throttle, clock)
    ensures Throttled(cfg, reports', generations', failures, clock)
  {
    forall r | r in reports' ensures ThrottleFits(cfg, reports', generations', failures, clock, r) {
      assert ThrottleFits(cfg, reports, generations, failures, clock, r);
    }
  }

  lemma NewReportKeepsThrottle(cfg: Config, reports: map<ReportId, Report>, generations: map<GenerationId, Generation>,
                               failures: map<ReportId, seq<Time>>, clock: Time, r: ReportId, report: Report)
    requires Throttled(cfg, reports, generations, failures, clock) && r !in failures && report.throttle == Throttle.CLEAR
    requires forall g :: !ActiveOf(generations, r, g)
    ensures Throttled(cfg, reports[r := report], generations, failures[r := []], clock)
  {
    var failures', reports' := failures[r := []], reports[r := report];
    forall q | q in failures' ensures HistoryFits(cfg, failures'[q], clock) {
      assert q != r ==> HistoryFits(cfg, failures[q], clock);
    }
    forall q | q in reports' ensures ThrottleFits(cfg, reports', generations, failures', clock, q) {
      assert q != r ==> ThrottleFits(cfg, reports, generations, failures, clock, q);
    }
  }

  lemma HistoryExtends(cfg: Config, times: seq<Time>, clock: Time)
    requires HistoryFits(cfg, times, clock)
    requires Throttle.Unlocked(Throttle.After(cfg.throttle, times, |times|), clock)
    ensures HistoryFits(cfg, times + [clock], clock)
    ensures Throttle.After(cfg.throttle, times + [clock], |times + [clock]|)
            == Throttle.Fail(cfg.throttle, Throttle.After(cfg.throttle, times, |times|), clock)
  {
    Throttle.AdmissibleExtend(cfg.throttle, times, clock);
  }

  /** A terminal failure at the current time: its report was unlocked, so the history stays admissible. */
  lemma FailureKeepsThrottle(cfg: Config, reports: map<ReportId, Report>, generations: map<GenerationId, Generation>,
                             failures: map<ReportId, seq<Time>>, clock: Time, r: ReportId, g: GenerationId,
                             report: Report, generations': map<GenerationId, Generation>)
    requires Throttled(cfg, reports, generations, failures, clock) && OneActive(generations)
    requires r in reports && r in failures && !reports[r].status.READY? && ActiveOf(generations, r, g)
    requires report.throttle == Throttle.Fail(cfg.throttle, reports[r].throttle, clock)
    requires forall q, h | ActiveOf(generations', q, h) :: ActiveOf(generations, q, h) && h != g
    ensures Throttled(cfg, reports[r := report], generations', failures[r := failures[r] + [clock]], clock)
  {
    var failures', reports' := failures[r := failures[r] + [clock]], reports[r := report];
    assert ThrottleFits(cfg, reports, generations, failures, clock, r);
    assert HistoryFits(cfg, failures[r], clock);
    HistoryExtends(cfg, failures[r], clock);
    forall q | q in failures' ensures HistoryFits(cfg, failures'[q], clock) {
      assert q != r ==> HistoryFits(cfg, failures[q], clock);
    }
    forall q | q in reports' ensures ThrottleFits(cfg, reports', generations', failures', clock, q) {
      assert ThrottleFits(cfg, reports, generations, failures, clock, q);
      assert q == r ==> forall h :: !ActiveOf(generations', q, h);
    }
  }

  lemma SuccessKeepsThrottle(cfg: Config, reports: map<ReportId, Report>, generations: map<GenerationId, Generation>,
                             failures: map<ReportId, seq<Time>>, clock: Time, r: ReportId,
                             report: Report, generations': map<GenerationId, Generation>)
    requires Throttled(cfg, reports, generations, failures, clock)
    requires r in reports && report.status.READY? && report.throttle == Throttle.CLEAR
    requires forall q, h | ActiveOf(generations', q, h) :: ActiveOf(generations, q, h)
    ensures Throttled(cfg, reports[r := report], generations', failures, clock)
  {
    var reports' := reports[r := report];
    forall q | q in reports' ensures ThrottleFits(cfg, reports', generations', failures, clock, q) {
      assert ThrottleFits(cfg, reports, generations, failures, clock, q);
    }
  }

  // ----- rolling limits on starts -----

  /** The generations created in the closed interval that starts at a moment and has this length. */
  function CreatedIn(generations: map<GenerationId, Generation>, user: Option<UserId>, from: Time, length: nat): set<GenerationId> {
    set g | g in generations && (user.None? || generations[g].user == user.value)
            && from <= generations[g].createdAt <= from + length
  }

  /** No closed interval of the window length holds more than the limit. */
  ghost predicate Rolls(generations: map<GenerationId, Generation>, user: Option<UserId>, windowMs: nat, limit: nat) {
    forall from: Time :: |CreatedIn(generations, user, from, windowMs)| <= limit
  }

  ghost predicate RollsAll(cfg: Config, generations: map<GenerationId, Generation>) {
    && (forall user :: Rolls(generations, Some(user), cfg.startWindowMs, cfg.startLimit))
    && (forall user :: Rolls(generations, Some(user), DAY_MS, cfg.dailyLimit))
    && Rolls(generations, None, DAY_MS, cfg.globalDailyLimit)
  }

  ghost predicate Rolling(cfg: Config, generations: map<GenerationId, Generation>, clock: Time) {
    && (forall g | g in generations :: generations[g].createdAt <= clock)
    && RollsAll(cfg, generations)
  }

  predicate SameBirth(before: Generation, after: Generation) {
    before.user == after.user && before.createdAt == after.createdAt
  }

  lemma SubsetRolls(generations: map<GenerationId, Generation>, generations': map<GenerationId, Generation>,
                    user: Option<UserId>, windowMs: nat, limit: nat)
    requires Rolls(generations, user, windowMs, limit)
    requires forall g | g in generations' :: g in generations && SameBirth(generations[g], generations'[g])
    ensures Rolls(generations', user, windowMs, limit)
  {
    forall from: Time ensures |CreatedIn(generations', user, from, windowMs)| <= limit {
      var small := CreatedIn(generations', user, from, windowMs);
      var large := CreatedIn(generations, user, from, windowMs);
      assert small <= large;
      assert large == small + (large - small);
    }
  }

  /** Rows that change other columns or go: a limit once kept stays kept. */
  lemma SubsetKeepsRolling(cfg: Config, generations: map<GenerationId, Generation>, generations': map<GenerationId, Generation>, clock: Time)
    requires Rolling(cfg, generations, clock)
    requires forall g | g in generations' :: g in generations && SameBirth(generations[g], generations'[g])
    ensures Rolling(cfg, generations', clock)
  {
    forall user ensures Rolls(generations', Some(user), cfg.startWindowMs, cfg.startLimit)
                     && Rolls(generations', Some(user), DAY_MS, cfg.dailyLimit)
    {
      SubsetRolls(generations, generations', Some(user), cfg.startWindowMs, cfg.startLimit);
      SubsetRolls(generations, generations', Some(user), DAY_MS, cfg.dailyLimit);
    }
    SubsetRolls(generations, generations', None, DAY_MS, cfg.globalDailyLimit);
  }

  /** A start now is in no interval that reaches back further than the window that was just counted. */
  lemma StartRolls(generations: map<GenerationId, Generation>, user: Option<UserId>, windowMs: nat, limit: nat,
                   g: GenerationId, row: Generation, now: Time)
    requires Rolls(generations, user, windowMs, limit) && g !in generations && row.createdAt == now
    requires forall h | h in generations :: generations[h].createdAt <= now
    requires user == None || user == Some(row.user) ==> |CreatedSince(generations, user, now - windowMs)| < limit
    ensures Rolls(generations[g := row], user, windowMs, limit)
  {
    var generations' := generations[g := row];
    forall from: Time ensures |CreatedIn(generations', user, from, windowMs)| <= limit {
      StartRollsFrom(generations, user, windowMs, limit, g, row, now, from);
    }
  }

  lemma StartRollsFrom(generations: map<GenerationId, Generation>, user: Option<UserId>, windowMs: nat, limit: nat,
                       g: GenerationId, row: Generation, now: Time, from: Time)
    requires |CreatedIn(generations, user, from, windowMs)| <= limit && g !in generations && row.createdAt == now
    requires forall h | h in generations :: generations[h].createdAt <= now
    requires user == None || user == Some(row.user) ==> |CreatedSince(generations, user, now - windowMs)| < limit
    ensures |CreatedIn(generations[g := row], user, from, windowMs)| <= limit
  {
    var before := CreatedIn(generations, user, from, windowMs);
    NewInInterval(generations, user, windowMs, g, row, from);
    if from <= now <= from + windowMs && (user == None || user == Some(row.user)) {
      assert before <= CreatedSince(generations, user, now - windowMs);
      SubsetSize(before, CreatedSince(generations, user, now - windowMs));
    }
  }

  lemma NewInInterval(generations: map<GenerationId, Generation>, user: Option<UserId>, windowMs: nat, g: GenerationId, row: Generation, from: Time)
    requires g !in generations
    ensures CreatedIn(generations[g := row], user, from, windowMs)
            == CreatedIn(generations, user, from, windowMs)
               + (if (user.None? || row.user == user.value) && from <= row.createdAt <= from + windowMs then {g} else {})
  {
  }

  lemma StartKeepsRolling(cfg: Config, generations: map<GenerationId, Generation>, clock: Time, g: GenerationId, row: Generation)
    requires Rolling(cfg, generations, clock) && g !in generations && row.createdAt == clock
    requires WithinStartLimits(cfg, generations, row.user, clock)
    ensures Rolling(cfg, generations[g := row], clock)
  {
    forall user ensures Rolls(generations[g := row], Some(user), cfg.startWindowMs, cfg.startLimit)
                     && Rolls(generations[g := row], Some(user), DAY_MS, cfg.dailyLimit)
    {
      StartRolls(generations, Some(user), cfg.startWindowMs, cfg.startLimit, g, row, clock);
      StartRolls(generations, Some(user), DAY_MS, cfg.dailyLimit, g, row, clock);
    }
    StartRolls(generations, None, DAY_MS, cfg.globalDailyLimit, g, row, clock);
  }
}
