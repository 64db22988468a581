/** The transition system is not empty of what it is about: under every
    configuration some run takes a report from its creation to a published
    output. */
module Witness {
  import opened Rows
  import opened Protocol
  import Attempts
  import Generations
  import Credits
  import Throttle

  const DRAFTED := Report(1, "title", "notes", DRAFT, Throttle.CLEAR)
  const GRANTED := Grant(1, Admin, 1, 1, 0, None, 0, None)
  const GRANT_ENTRY := Entry(1, None, Some(1), GRANT, 1)

  /** A draft and a credit. */
  function DraftedState(): Sys {
    INIT.(db := EMPTY_DB.(reports := map[1 := DRAFTED], grants := map[1 := GRANTED], ledger := map[AdminKey("first") := GRANT_ENTRY]),
          history := INIT.history.(failures := map[1 := []]))
  }

  lemma Drafted(cfg: Config)
    ensures After(cfg, INIT, [OnReport(CreateReport(1, 1, "title", "notes")), OnCredits(GrantByAdmin(1, 1, 1, "first", 0))]) == DraftedState()
  {
    AfterStep(cfg, INIT, [], OnReport(CreateReport(1, 1, "title", "notes")));
    assert After(cfg, INIT, []) == INIT;
    assert [] + [OnReport(CreateReport(1, 1, "title", "notes"))] == [OnReport(CreateReport(1, 1, "title", "notes"))];
    AfterStep(cfg, INIT, [OnReport(CreateReport(1, 1, "title", "notes"))], OnCredits(GrantByAdmin(1, 1, 1, "first", 0)));
    assert [OnReport(CreateReport(1, 1, "title", "notes"))] + [OnCredits(GrantByAdmin(1, 1, 1, "first", 0))]
        == [OnReport(CreateReport(1, 1, "title", "notes")), OnCredits(GrantByAdmin(1, 1, 1, "first", 0))];
  }

  /** One generation, its worker at a point of its program, its reservation open and nothing published. */
  ghost predicate At(s: Sys, pc: Pc, hasResult: bool) {
    && s.db.generations.Keys == {1} && s.db.reports.Keys == {1} && s.db.outputs == map[]
    && Attempts.Owned(s.db.generations, s.clock, 1, 1)
    && s.db.generations[1].report == 1 && s.db.generations[1].user == 1
    && (s.db.generations[1].structured.Some? <==> hasResult)
    && s.db.reports[1].user == 1
    && 1 in s.workers && s.workers[1].generation == 1 && s.workers[1].deadline > s.clock
    && s.workers[1].pc == pc
    && (!pc.Reading? ==> s.workers[1].report == 1 && s.workers[1].user == 1 && s.workers[1].hasResult == hasResult)
    && ReserveKey(1) in s.db.ledger && ConsumeKey(1) !in s.db.ledger
    && (s.db.ledger[ReserveKey(1)].grant.Some? ==> s.db.ledger[ReserveKey(1)].grant.value in s.db.grants)
    && (forall k | k in s.db.ledger && s.db.ledger[k].generation == Some(1) :: s.db.ledger[k].kind.RESERVE?)
  }

  /** The attempts so far: none, a moderation, and then a report. */
  predicate Calls(attempts: map<AttemptId, Attempt>, moderation: bool, report: bool) {
    && attempts.Keys == (if moderation then {1} else {}) + (if report then {2} else {})
    && (moderation ==> attempts[1].operation.MODERATION? && attempts[1].generation == 1 && attempts[1].asset.None? && attempts[1].token == 1)
    && (report ==> attempts[2].operation.REPORT_GENERATION? && attempts[2].generation == 1 && attempts[2].asset.None? && attempts[2].token == 1)
  }

  /** Queued and charged to a grant that exists. */
  ghost predicate Waiting(s: Sys) {
    && s.clock == 0 && s.workers == map[] && s.db.outputs == map[] && s.db.attempts == map[]
    && s.db.generations.Keys == {1} && s.db.reports.Keys == {1}
    && s.db.generations[1].status.Queued? && s.db.generations[1].report == 1 && s.db.generations[1].user == 1
    && s.db.generations[1].structured.None? && s.db.reports[1].user == 1
    && s.db.ledger.Keys == {AdminKey("first"), ReserveKey(1)}
    && s.db.ledger[AdminKey("first")] == GRANT_ENTRY && s.db.ledger[ReserveKey(1)].kind.RESERVE?
    && s.db.ledger[ReserveKey(1)].grant == Some(1) && 1 in s.db.grants
  }

  lemma Claimed(cfg: Config, s: Sys)
    requires Waiting(s)
    ensures At(DeliverNext(cfg, s, 1, 1, 0), Reading, false) && DeliverNext(cfg, s, 1, 1, 0).db.attempts == map[]
  {
  }

  lemma StartSucceeds(cfg: Config, s: Sys)
    requires s == DraftedState()
    ensures Waiting(StartNext(cfg, s, 1, 1, "key", 1, true))
  {
    assert Credits.Usable(GRANTED, 1, 0);
    NothingCreated(cfg, s.db.generations);
    assert !Generations.Blank("notes") by { assert !Generations.Trimmed("notes"[0]); }
    assert Generations.AssetsOf(s.db.assets, 1) == map[];
  }

  lemma NothingCreated(cfg: Config, generations: map<GenerationId, Generation>)
    requires generations == map[]
    ensures Generations.WithinStartLimits(cfg, generations, 1, 0)
  {
    assert Generations.CreatedSince(generations, Some(1), 0 - cfg.startWindowMs) == {};
    assert Generations.CreatedSince(generations, Some(1), 0 - DAY_MS) == {};
    assert Generations.CreatedSince(generations, None, 0 - DAY_MS) == {};
  }

  // ----- the worker's statements -----

  lemma ReadsOn(s: Sys)
    requires At(s, Reading, false)
    ensures At(ReadStep(s, 1), Transcribing, false) && ReadStep(s, 1).db == s.db
  {
  }

  lemma ProgressesOn(cfg: Config, s: Sys, pc: Pc, hasResult: bool)
    requires At(s, pc, hasResult) && (pc.Transcribing? || pc.PreparingContent? || pc.Rendering?)
    ensures At(ProgressStep(cfg, s, 1, true),
               if pc.Transcribing? then CheckingModeration else if pc.PreparingContent? then (if hasResult then Rendering else StartingReport) else Uploading,
               hasResult)
    ensures ProgressStep(cfg, s, 1, true).db.attempts == s.db.attempts && ProgressStep(cfg, s, 1, true).objects == s.objects
  {
  }

  lemma ChecksOn(s: Sys)
    requires At(s, CheckingModeration, false) && s.db.attempts == map[]
    ensures At(CheckStep(s, 1), StartingModeration, false) && CheckStep(s, 1).db.attempts == map[]
  {
  }

  lemma Asks(cfg: Config, s: Sys)
    requires At(s, StartingModeration, false) && s.db.attempts == map[]
    ensures var calling := StartCallStep(cfg, s, 1, 1, 0);
            At(calling, CallingModerator(1), false) && Calls(calling.db.attempts, true, false) && Open(calling, 1)
  {
    assert Attempts.Scope(s.db.attempts, 1, MODERATION, None) == {};
    FreshAttemptStarts(cfg, s.db, s.clock, 1, MODERATION, s.workers[1].deadline);
  }

  /** The first attempt of a generation for an operation starts, and nothing is closed. */
  lemma FreshAttemptStarts(cfg: Config, db: Db, now: Time, id: AttemptId, operation: Operation, lease: Time)
    requires Attempts.Scope(db.attempts, 1, operation, None) == {} && id !in db.attempts && 1 in db.generations
    ensures Attempts.StartAttempt(cfg, db, now, id, 1, operation, None, 1, lease)
            == Ok(db.(attempts := db.attempts[id := Attempt(1, None, operation, 1, STARTED, 1, lease)]))
  {
    var closed := Attempts.CloseStale(db.attempts, 1, operation, None, now);
    forall i | i in db.attempts ensures !Attempts.InScope(db.attempts[i], 1, operation, None) {
      assert i !in Attempts.Scope(db.attempts, 1, operation, None);
    }
    assert closed == db.attempts;
  }

  predicate Open(s: Sys, id: AttemptId) {
    id in s.db.attempts && s.db.attempts[id].status.STARTED? && s.db.attempts[id].token == 1 && s.db.attempts[id].lease > s.clock
  }

  lemma Moderates(cfg: Config, s: Sys)
    requires At(s, CallingModerator(1), false) && Calls(s.db.attempts, true, false) && Open(s, 1)
    ensures var after := FinishCallStep(cfg, s, 1, 0); At(after, PreparingContent, false) && Calls(after.db.attempts, true, false)
  {
  }

  lemma Commissions(cfg: Config, s: Sys)
    requires At(s, StartingReport, false) && Calls(s.db.attempts, true, false)
    ensures var calling := StartCallStep(cfg, s, 1, 2, 0);
            At(calling, CallingReporter(2), false) && Calls(calling.db.attempts, true, true) && Open(calling, 2)
  {
    assert Attempts.Scope(s.db.attempts, 1, REPORT_GENERATION, None) == {};
    FreshAttemptStarts(cfg, s.db, s.clock, 2, REPORT_GENERATION, s.workers[1].deadline);
  }

  lemma Writes(cfg: Config, s: Sys)
    requires At(s, CallingReporter(2), false) && Calls(s.db.attempts, true, true) && Open(s, 2)
    ensures var after := FinishCallStep(cfg, s, 1, 0); At(after, Rendering, true)
  {
  }

  lemma Uploads(s: Sys)
    requires At(s, Uploading, true)
    ensures var sent := PutStep(s, 1, 5); At(sent, VerifyingUpload(5), true) && At(HeadStep(sent, 1, true), Publishing(5), true)
  {
    var sent := PutStep(s, 1, 5);
    assert At(sent, VerifyingUpload(5), true);
  }

  lemma Publishes(s: Sys)
    requires At(s, Publishing(5), true)
    ensures var after := PublishStep(s, 1); 1 in after.db.reports && after.db.reports[1].status.READY? && 1 in after.db.outputs
  {
    assert Credits.FindTerminal(s.db.ledger, 1).None?;
    Consumable(s.db);
  }

  lemma Consumable(db: Db)
    requires 1 in db.generations && ReserveKey(1) in db.ledger && ConsumeKey(1) !in db.ledger
    requires db.ledger[ReserveKey(1)].grant.Some? ==> db.ledger[ReserveKey(1)].grant.value in db.grants
    requires forall k | k in db.ledger && db.ledger[k].generation == Some(1) :: db.ledger[k].kind.RESERVE?
    ensures forall other: Db | other.ledger == db.ledger && other.grants == db.grants && 1 in other.generations :: Credits.Consume(other, 1).Ok?
  {
  }

  // ----- the run -----

  ghost predicate Reachable(cfg: Config, s: Sys) {
    exists run :: After(cfg, INIT, run) == s
  }

  lemma Then(cfg: Config, s: Sys, a: Action)
    requires Reachable(cfg, s)
    ensures Reachable(cfg, Next(cfg, s, a))
  {
    var run :| After(cfg, INIT, run) == s;
    AfterStep(cfg, INIT, run, a);
    assert After(cfg, INIT, run + [a]) == Next(cfg, s, a);
  }

  lemma ThenActs(cfg: Config, s: Sys, step: WorkerStep)
    requires Reachable(cfg, s) && 1 in s.workers
    ensures Reachable(cfg, WorkerNext(cfg, s, 1, step))
  {
    Then(cfg, s, WorkerActs(1, step));
  }

  lemma ThenStarts(cfg: Config, s: Sys)
    requires Reachable(cfg, s)
    ensures Reachable(cfg, StartNext(cfg, s, 1, 1, "key", 1, true))
  {
    Then(cfg, s, StartGeneration(1, 1, "key", 1, true));
  }

  lemma ReachesWaiting(cfg: Config) returns (s: Sys)
    ensures Reachable(cfg, s) && Waiting(s)
  {
    var drafted := DraftedState();
    Drafted(cfg);
    assert Reachable(cfg, drafted);
    StartSucceeds(cfg, drafted);
    ThenStarts(cfg, drafted);
    s := StartNext(cfg, drafted, 1, 1, "key", 1, true);
  }

  lemma ReachesReading(cfg: Config) returns (s: Sys)
    ensures Reachable(cfg, s) && At(s, Reading, false) && s.db.attempts == map[]
  {
    var waiting := ReachesWaiting(cfg);
    Claimed(cfg, waiting);
    Then(cfg, waiting, Deliver(1, 1, 0));
    s := DeliverNext(cfg, waiting, 1, 1, 0);
  }

  lemma ReachesTranscribing(cfg: Config) returns (s: Sys)
    ensures Reachable(cfg, s) && At(s, Transcribing, false) && s.db.attempts == map[]
  {
    var reading := ReachesReading(cfg);
    ReadsOn(reading);
    ThenActs(cfg, reading, ReadGeneration);
    s := ReadStep(reading, 1);
  }

  lemma ReachesModeration(cfg: Config) returns (s: Sys)
    ensures Reachable(cfg, s) && At(s, StartingModeration, false) && s.db.attempts == map[]
  {
    var transcribing := ReachesTranscribing(cfg);
    ProgressesOn(cfg, transcribing, Transcribing, false);
    ThenActs(cfg, transcribing, Progress(true));
    s := Checked(cfg, ProgressStep(cfg, transcribing, 1, true));
  }

  lemma Checked(cfg: Config, s: Sys) returns (after: Sys)
    requires Reachable(cfg, s) && At(s, CheckingModeration, false) && s.db.attempts == map[]
    ensures Reachable(cfg, after) && At(after, StartingModeration, false) && after.db.attempts == map[]
  {
    ChecksOn(s);
    ThenActs(cfg, s, CheckCompleted);
    after := CheckStep(s, 1);
  }

  lemma ReachesContent(cfg: Config) returns (s: Sys)
    ensures Reachable(cfg, s) && At(s, PreparingContent, false) && Calls(s.db.attempts, true, false)
  {
    var starting := ReachesModeration(cfg);
    Asks(cfg, starting);
    ThenActs(cfg, starting, StartCall(1, 0));
    s := Moderated(cfg, StartCallStep(cfg, starting, 1, 1, 0));
  }

  lemma Moderated(cfg: Config, s: Sys) returns (after: Sys)
    requires Reachable(cfg, s) && At(s, CallingModerator(1), false) && Calls(s.db.attempts, true, false) && Open(s, 1)
    ensures Reachable(cfg, after) && At(after, PreparingContent, false) && Calls(after.db.attempts, true, false)
  {
    Moderates(cfg, s);
    ThenActs(cfg, s, FinishCall(0));
    after := FinishCallStep(cfg, s, 1, 0);
  }

  lemma ReachesReport(cfg: Config) returns (s: Sys)
    ensures Reachable(cfg, s) && At(s, StartingReport, false) && Calls(s.db.attempts, true, false)
  {
    var preparing := ReachesContent(cfg);
    ProgressesOn(cfg, preparing, PreparingContent, false);
    ThenActs(cfg, preparing, Progress(true));
    s := ProgressStep(cfg, preparing, 1, true);
  }

  lemma ReachesRendering(cfg: Config) returns (s: Sys)
    ensures Reachable(cfg, s) && At(s, Rendering, true)
  {
    var starting := ReachesReport(cfg);
    Commissions(cfg, starting);
    ThenActs(cfg, starting, StartCall(2, 0));
    s := Written(cfg, StartCallStep(cfg, starting, 1, 2, 0));
  }

  lemma Written(cfg: Config, s: Sys) returns (after: Sys)
    requires Reachable(cfg, s) && At(s, CallingReporter(2), false) && Calls(s.db.attempts, true, true) && Open(s, 2)
    ensures Reachable(cfg, after) && At(after, Rendering, true)
  {
    Writes(cfg, s);
    ThenActs(cfg, s, FinishCall(0));
    after := FinishCallStep(cfg, s, 1, 0);
  }

  lemma ReachesUploading(cfg: Config) returns (s: Sys)
    ensures Reachable(cfg, s) && At(s, Uploading, true)
  {
    var rendering := ReachesRendering(cfg);
    ProgressesOn(cfg, rendering, Rendering, true);
    ThenActs(cfg, rendering, Progress(true));
    s := ProgressStep(cfg, rendering, 1, true);
  }

  lemma ThenUploads(cfg: Config, s: Sys)
    requires Reachable(cfg, s) && 1 in s.workers
    ensures Reachable(cfg, PutStep(s, 1, 5)) && Reachable(cfg, HeadStep(s, 1, true))
  {
    ThenActs(cfg, s, Put(5));
    ThenActs(cfg, s, Head(true));
  }

  lemma ReachesPublishing(cfg: Config) returns (s: Sys)
    ensures Reachable(cfg, s) && At(s, Publishing(5), true)
  {
    var uploading := ReachesUploading(cfg);
    Uploads(uploading);
    ThenUploads(cfg, uploading);
    ThenUploads(cfg, PutStep(uploading, 1, 5));
    s := HeadStep(PutStep(uploading, 1, 5), 1, true);
  }

  /** Some run ends with a published report. */
  lemma SomeRunPublishes(cfg: Config)
    ensures exists s :: Reachable(cfg, s) && 1 in s.db.reports && s.db.reports[1].status.READY? && 1 in s.db.outputs
  {
    var publishing := ReachesPublishing(cfg);
    Publishes(publishing);
    ThenActs(cfg, publishing, Publish);
  }
}
