/** A generation that is queued or held can be brought to its end by one worker
    alone, in every reachable state in which its calls can still be paid for. */
module Completion {
  import opened Rows
  import opened Protocol
  import opened LockstepLaws
  import opened Runs
  import opened Calls
  import Attempts
  import Processing
  import Generations
  import BudgetLaws
  import Outcomes
  import Permanence
  import Starts
  import WorkLaws
  import Invariance

  // ----- what is left to pay for -----

  predicate BudgetLeft(cfg: Config, attempts: map<AttemptId, Attempt>, g: GenerationId, operation: Operation) {
    |CallsOf(attempts, g, operation)| < cfg.MaximumCalls(operation)
  }

  /** Of moderation and report, each is done or has budget left. */
  predicate Affordable(cfg: Config, db: Db, g: GenerationId) {
    && g in db.generations
    && (Attempts.HasCompleted(db.attempts, g, MODERATION) || BudgetLeft(cfg, db.attempts, g, MODERATION))
    && (db.generations[g].structured.Some? || BudgetLeft(cfg, db.attempts, g, REPORT_GENERATION))
  }

  /** No call of anyone is within its lease. */
  predicate Quiet(attempts: map<AttemptId, Attempt>, now: Time) {
    forall i | i in attempts :: attempts[i].status.STARTED? ==> attempts[i].lease <= now
  }

  predicate ReportLeft(cfg: Config, s: Sys, g: GenerationId) {
    g in s.db.generations && (s.db.generations[g].structured.Some? || BudgetLeft(cfg, s.db.attempts, g, REPORT_GENERATION))
  }

  predicate ModerationLeft(cfg: Config, s: Sys, g: GenerationId) {
    Attempts.HasCompleted(s.db.attempts, g, MODERATION) || BudgetLeft(cfg, s.db.attempts, g, MODERATION)
  }

  // ----- the worker -----

  /** The worker stands there, owns its generation and knows whether the report is written. */
  predicate At(s: Sys, t: Token, g: GenerationId, pc: Pc) {
    && t in s.workers && s.workers[t].generation == g && s.workers[t].pc == pc && s.workers[t].deadline > s.clock
    && Attempts.Owned(s.db.generations, s.clock, g, t)
    && (!pc.Reading? ==> s.workers[t].hasResult == s.db.generations[g].structured.Some?)
  }

  /** Nothing that decides what is left to do has changed. */
  predicate SameWork(s: Sys, after: Sys, g: GenerationId) {
    && after.clock == s.clock && after.db.attempts == s.db.attempts
    && g in s.db.generations && g in after.db.generations && after.db.generations[g].structured == s.db.generations[g].structured
  }

  lemma SameWorkIsLeft(cfg: Config, s: Sys, after: Sys, g: GenerationId)
    requires SameWork(s, after, g)
    ensures ReportLeft(cfg, after, g) <==> ReportLeft(cfg, s, g)
    ensures ModerationLeft(cfg, after, g) <==> ModerationLeft(cfg, s, g)
    ensures Quiet(after.db.attempts, after.clock) <==> Quiet(s.db.attempts, s.clock)
  {
  }

  lemma BoundOf(used: set<nat>) returns (bound: nat)
    ensures forall n | n in used :: n <= bound
    decreases |used|
  {
    if used == {} {
      bound := 0;
    } else {
      var n :| n in used;
      var rest := BoundOf(used - {n});
      bound := if n > rest then n else rest;
      forall m | m in used ensures m <= bound {
        if m != n { assert m in used - {n}; }
      }
    }
  }

  lemma FreshNumber(used: set<nat>) returns (n: nat)
    ensures n !in used
  {
    var bound := BoundOf(used);
    n := bound + 1;
  }

  lemma Claims(cfg: Config, s: Sys, t: Token, g: GenerationId, lag: nat)
    requires t !in s.workers && Processing.Claimable(s.db.generations, s.clock, g)
    ensures var after := Next(cfg, s, Deliver(t, g, lag)); At(after, t, g, Reading) && SameWork(s, after, g)
  {
  }

  lemma Reads(cfg: Config, s: Sys, t: Token, g: GenerationId)
    requires At(s, t, g, Reading)
    ensures var after := WorkerNext(cfg, s, t, ReadGeneration); At(after, t, g, Transcribing) && SameWork(s, after, g)
  {
  }

  /** Transcriptions may be skipped, as if each was stored already. */
  lemma Progresses(cfg: Config, s: Sys, t: Token, g: GenerationId, pc: Pc)
    requires At(s, t, g, pc) && (pc.Transcribing? || pc.PreparingContent? || pc.Rendering?)
    ensures var after := WorkerNext(cfg, s, t, Progress(true));
            && SameWork(s, after, g)
            && At(after, t, g, if pc.Transcribing? then CheckingModeration
                               else if pc.PreparingContent? then (if s.db.generations[g].structured.Some? then Rendering else StartingReport)
                               else Uploading)
  {
  }

  lemma Checks(cfg: Config, s: Sys, t: Token, g: GenerationId)
    requires At(s, t, g, CheckingModeration)
    ensures var after := WorkerNext(cfg, s, t, CheckCompleted);
            && SameWork(s, after, g)
            && At(after, t, g, if Attempts.HasCompleted(s.db.attempts, g, MODERATION) then PreparingContent else StartingModeration)
  {
  }

  /** The call is authorised for this worker until its deadline; calls of other kinds are as before. */
  predicate CallBegun(s: Sys, after: Sys, t: Token, id: AttemptId, g: GenerationId, operation: Operation) {
    && after.clock == s.clock && g in s.db.generations && after.db.generations == s.db.generations
    && id !in s.db.attempts && id in after.db.attempts
    && after.db.attempts[id].token == t && after.db.attempts[id].status.STARTED? && after.db.attempts[id].lease > after.clock
    && after.db.attempts[id].operation == operation
    && after.db.attempts.Keys == s.db.attempts.Keys + {id}
    && (forall i | i in s.db.attempts ::
          || after.db.attempts[i] == s.db.attempts[i]
          || (s.db.attempts[i].operation == operation && after.db.attempts[i] == s.db.attempts[i].(status := ABORTED)))
  }

  lemma QuietIsFree(attempts: map<AttemptId, Attempt>, calls: set<AttemptId>, now: Time)
    requires Quiet(attempts, now) && calls <= attempts.Keys
    ensures !InProgress(attempts, calls, now)
  {
  }

  lemma Begins(cfg: Config, s: Sys, t: Token, g: GenerationId, id: AttemptId, audio: AssetId)
    requires BudgetLaws.Budgeted(cfg, s.db.attempts) && t in s.workers && AsksModel(s.workers[t].pc) && At(s, t, g, s.workers[t].pc)
    requires id !in s.db.attempts && Quiet(s.db.attempts, s.clock) && BudgetLeft(cfg, s.db.attempts, g, Calls.Asked(s.workers[t].pc))
    ensures var after := WorkerNext(cfg, s, t, StartCall(id, audio)); var operation := Calls.Asked(s.workers[t].pc);
            && CallBegun(s, after, t, id, g, operation)
            && At(after, t, g, if operation.MODERATION? then CallingModerator(id) else CallingReporter(id))
  {
    var operation := Calls.Asked(s.workers[t].pc);
    QuietIsFree(s.db.attempts, CallsOf(s.db.attempts, g, operation), s.clock);
    ModelCallIsAnswered(cfg, s, t, id, audio);
    AuthorisedIsBegun(cfg, s, WorkerNext(cfg, s, t, StartCall(id, audio)), t, id, g);
  }

  lemma AuthorisedIsBegun(cfg: Config, s: Sys, after: Sys, t: Token, id: AttemptId, g: GenerationId)
    requires t in s.workers && AsksModel(s.workers[t].pc) && At(s, t, g, s.workers[t].pc) && id !in s.db.attempts
    requires var operation := Calls.Asked(s.workers[t].pc); var calls := CallsOf(s.db.attempts, g, operation);
             !InProgress(s.db.attempts, calls, s.clock) && |calls| < cfg.MaximumCalls(operation)
    requires ModelCallAnswered(cfg, s, after, t, id)
    ensures var operation := Calls.Asked(s.workers[t].pc);
            && CallBegun(s, after, t, id, g, operation)
            && At(after, t, g, if operation.MODERATION? then CallingModerator(id) else CallingReporter(id))
  {
  }

  lemma Moderated(cfg: Config, s: Sys, t: Token, g: GenerationId, id: AttemptId, content: Content)
    requires At(s, t, g, CallingModerator(id))
    requires id in s.db.attempts && s.db.attempts[id].token == t && s.db.attempts[id].status.STARTED? && s.db.attempts[id].lease > s.clock
    ensures var after := WorkerNext(cfg, s, t, FinishCall(content));
            && At(after, t, g, PreparingContent) && after.clock == s.clock && after.db.generations == s.db.generations
            && after.db.attempts == s.db.attempts[id := s.db.attempts[id].(status := COMPLETED)]
  {
    AnswerRecordedIff(cfg, s, t, id, content);
  }

  lemma Reported(cfg: Config, s: Sys, t: Token, g: GenerationId, id: AttemptId, content: Content)
    requires At(s, t, g, CallingReporter(id))
    requires id in s.db.attempts && s.db.attempts[id].token == t && s.db.attempts[id].status.STARTED? && s.db.attempts[id].lease > s.clock
    ensures var after := WorkerNext(cfg, s, t, FinishCall(content)); At(after, t, g, Rendering) && after.db.attempts.Keys == s.db.attempts.Keys
  {
  }

  /** What was left of the report's budget is left while a moderation is under way. */
  lemma ReportIsAffordable(cfg: Config, s: Sys, begun: Sys, t: Token, id: AttemptId, g: GenerationId)
    requires CallBegun(s, begun, t, id, g, MODERATION) && Quiet(s.db.attempts, s.clock) && ReportLeft(cfg, s, g)
    ensures Quiet(begun.db.attempts - {id}, begun.clock) && ReportLeft(cfg, begun, g)
  {
    assert CallsOf(begun.db.attempts, g, REPORT_GENERATION) == CallsOf(s.db.attempts, g, REPORT_GENERATION);
  }

  /** Its object is stored in this size. */
  predicate Stored(s: Sys, t: Token, size: nat) {
    t in s.workers && KeyOf(t, s.workers[t]) in s.objects && s.objects[KeyOf(t, s.workers[t])] == size
  }

  lemma Puts(cfg: Config, s: Sys, t: Token, g: GenerationId, size: nat)
    requires At(s, t, g, Uploading)
    ensures var after := WorkerNext(cfg, s, t, Put(size)); At(after, t, g, VerifyingUpload(size)) && Stored(after, t, size) && after.db == s.db
  {
    var after := WorkerNext(cfg, s, t, Put(size));
    assert KeyOf(t, after.workers[t]) == KeyOf(t, s.workers[t]);
  }

  lemma Verifies(cfg: Config, s: Sys, t: Token, g: GenerationId, size: nat)
    requires At(s, t, g, VerifyingUpload(size)) && Stored(s, t, size)
    ensures var after := WorkerNext(cfg, s, t, Head(true)); At(after, t, g, Publishing(size)) && after.db == s.db
  {
  }

  // ----- a worker in a position to finish -----

  predicate WorkLeft(cfg: Config, s: Sys, g: GenerationId) {
    Quiet(s.db.attempts, s.clock) && ModerationLeft(cfg, s, g) && ReportLeft(cfg, s, g)
  }

  /** This call is the worker's, started and within its lease. */
  predicate Waiting(s: Sys, t: Token, id: AttemptId) {
    id in s.db.attempts && s.db.attempts[id].token == t && s.db.attempts[id].status.STARTED? && s.db.attempts[id].lease > s.clock
  }

  /** The worker owns its generation, and what its place in the program leaves to pay for can be paid for. */
  predicate Fit(cfg: Config, s: Sys, t: Token) {
    && t in s.workers
    && var w := s.workers[t];
    && At(s, t, w.generation, w.pc)
    && match w.pc
       case Reading => WorkLeft(cfg, s, w.generation)
       case Transcribing => WorkLeft(cfg, s, w.generation)
       case CheckingModeration => WorkLeft(cfg, s, w.generation)
       case StartingModeration =>
         Quiet(s.db.attempts, s.clock) && BudgetLeft(cfg, s.db.attempts, w.generation, MODERATION) && ReportLeft(cfg, s, w.generation)
       case CallingModerator(id) => Waiting(s, t, id) && Quiet(s.db.attempts - {id}, s.clock) && ReportLeft(cfg, s, w.generation)
       case PreparingContent => Quiet(s.db.attempts, s.clock) && ReportLeft(cfg, s, w.generation)
       case StartingReport => Quiet(s.db.attempts, s.clock) && BudgetLeft(cfg, s.db.attempts, w.generation, REPORT_GENERATION)
       case CallingReporter(id) => Waiting(s, t, id)
       case Rendering => true
       case Uploading => true
       case VerifyingUpload(size) => Stored(s, t, size)
       case Publishing(size) => true
       case _ => false
  }

  /** One statement on, and still in such a position, with no calls but these in addition. */
  predicate Onward(cfg: Config, s: Sys, after: Sys, t: Token, pc: Pc, calls: set<AttemptId>) {
    && t in s.workers && Fit(cfg, after, t) && after.workers[t].pc == pc && after.workers[t].generation == s.workers[t].generation
    && after.db.attempts.Keys <= s.db.attempts.Keys + calls
  }

  lemma FitClaims(cfg: Config, s: Sys, t: Token, g: GenerationId, lag: nat)
    requires t !in s.workers
    ensures Processing.Claimable(s.db.generations, s.clock, g) && WorkLeft(cfg, s, g) ==>
              var after := Next(cfg, s, Deliver(t, g, lag));
              && Fit(cfg, after, t) && after.workers[t].pc.Reading? && after.workers[t].generation == g && after.db.attempts == s.db.attempts
  {
    if Processing.Claimable(s.db.generations, s.clock, g) && WorkLeft(cfg, s, g) {
      Claims(cfg, s, t, g, lag);
      SameWorkIsLeft(cfg, s, Next(cfg, s, Deliver(t, g, lag)), g);
    }
  }

  lemma FitReads(cfg: Config, s: Sys, t: Token)
    requires t in s.workers && s.workers[t].pc.Reading?
    ensures Fit(cfg, s, t) ==> Onward(cfg, s, WorkerNext(cfg, s, t, ReadGeneration), t, Transcribing, {})
  {
    if Fit(cfg, s, t) {
      Reads(cfg, s, t, s.workers[t].generation);
      SameWorkIsLeft(cfg, s, WorkerNext(cfg, s, t, ReadGeneration), s.workers[t].generation);
    }
  }

  /** Where a progress update leads. */
  function AfterProgress(w: Worker, advance: bool): Pc {
    if !advance then w.pc
    else if w.pc.Transcribing? then CheckingModeration
    else if w.pc.PreparingContent? then (if w.hasResult then Rendering else StartingReport)
    else Uploading
  }

  lemma Stays(cfg: Config, s: Sys, t: Token, g: GenerationId, pc: Pc)
    requires At(s, t, g, pc) && (pc.Transcribing? || pc.PreparingContent? || pc.Rendering?)
    ensures var after := WorkerNext(cfg, s, t, Progress(false)); SameWork(s, after, g) && At(after, t, g, pc)
  {
  }

  lemma FitProgresses(cfg: Config, s: Sys, t: Token, advance: bool)
    requires t in s.workers && var pc := s.workers[t].pc; pc.Transcribing? || pc.PreparingContent? || pc.Rendering?
    ensures Fit(cfg, s, t) ==> Onward(cfg, s, WorkerNext(cfg, s, t, Progress(advance)), t, AfterProgress(s.workers[t], advance), {})
  {
    if Fit(cfg, s, t) {
      var g := s.workers[t].generation;
      if advance { Progresses(cfg, s, t, g, s.workers[t].pc); } else { Stays(cfg, s, t, g, s.workers[t].pc); }
      SameWorkIsLeft(cfg, s, WorkerNext(cfg, s, t, Progress(advance)), g);
    }
  }

  lemma FitChecks(cfg: Config, s: Sys, t: Token)
    requires t in s.workers && s.workers[t].pc.CheckingModeration?
    ensures Fit(cfg, s, t) ==>
              Onward(cfg, s, WorkerNext(cfg, s, t, CheckCompleted), t,
                     if Attempts.HasCompleted(s.db.attempts, s.workers[t].generation, MODERATION) then PreparingContent else StartingModeration, {})
  {
    if Fit(cfg, s, t) {
      Checks(cfg, s, t, s.workers[t].generation);
      SameWorkIsLeft(cfg, s, WorkerNext(cfg, s, t, CheckCompleted), s.workers[t].generation);
    }
  }

  function Called(pc: Pc, id: AttemptId): Pc {
    if pc.StartingModeration? then CallingModerator(id) else CallingReporter(id)
  }

  lemma FitBegins(cfg: Config, s: Sys, t: Token, id: AttemptId, audio: AssetId)
    requires t in s.workers && AsksModel(s.workers[t].pc) && BudgetLaws.Budgeted(cfg, s.db.attempts) && id !in s.db.attempts
    ensures Fit(cfg, s, t) ==> Onward(cfg, s, WorkerNext(cfg, s, t, StartCall(id, audio)), t, Called(s.workers[t].pc, id), {id})
  {
    if Fit(cfg, s, t) {
      var g := s.workers[t].generation;
      Begins(cfg, s, t, g, id, audio);
      if s.workers[t].pc.StartingModeration? { ReportIsAffordable(cfg, s, WorkerNext(cfg, s, t, StartCall(id, audio)), t, id, g); }
    }
  }

  lemma FitRecords(cfg: Config, s: Sys, t: Token, content: Content)
    requires t in s.workers
    ensures Fit(cfg, s, t) && s.workers[t].pc.CallingModerator? ==>
              Onward(cfg, s, WorkerNext(cfg, s, t, FinishCall(content)), t, PreparingContent, {})
    ensures Fit(cfg, s, t) && s.workers[t].pc.CallingReporter? ==>
              Onward(cfg, s, WorkerNext(cfg, s, t, FinishCall(content)), t, Rendering, {})
  {
    if Fit(cfg, s, t) {
      var g := s.workers[t].generation;
      match s.workers[t].pc
      case CallingModerator(id) =>
        Moderated(cfg, s, t, g, id, content);
        ModeratedIsQuiet(cfg, s, WorkerNext(cfg, s, t, FinishCall(content)), id, g);
      case CallingReporter(id) => Reported(cfg, s, t, g, id, content);
      case _ =>
    }
  }

  lemma ModeratedIsQuiet(cfg: Config, s: Sys, after: Sys, id: AttemptId, g: GenerationId)
    requires id in s.db.attempts && Quiet(s.db.attempts - {id}, s.clock) && ReportLeft(cfg, s, g)
    requires after.clock == s.clock && after.db.generations == s.db.generations
    requires after.db.attempts == s.db.attempts[id := s.db.attempts[id].(status := COMPLETED)]
    ensures Quiet(after.db.attempts, after.clock) && ReportLeft(cfg, after, g)
  {
    assert CallsOf(after.db.attempts, g, REPORT_GENERATION) == CallsOf(s.db.attempts, g, REPORT_GENERATION);
    forall i | i in after.db.attempts && after.db.attempts[i].status.STARTED? ensures after.db.attempts[i].lease <= after.clock {
      assert i in s.db.attempts - {id};
    }
  }

  lemma FitPuts(cfg: Config, s: Sys, t: Token, size: nat)
    requires t in s.workers && s.workers[t].pc.Uploading?
    ensures Fit(cfg, s, t) ==> Onward(cfg, s, WorkerNext(cfg, s, t, Put(size)), t, VerifyingUpload(size), {})
  {
    if Fit(cfg, s, t) { Puts(cfg, s, t, s.workers[t].generation, size); }
  }

  lemma FitVerifies(cfg: Config, s: Sys, t: Token, size: nat)
    requires t in s.workers && s.workers[t].pc == VerifyingUpload(size)
    ensures Fit(cfg, s, t) ==> Onward(cfg, s, WorkerNext(cfg, s, t, Head(true)), t, Publishing(size), {})
  {
    if Fit(cfg, s, t) { Verifies(cfg, s, t, s.workers[t].generation, size); }
  }

  // ----- the run -----

  lemma Then(cfg: Config, run: seq<Action>, t: Token, step: WorkerStep)
    requires t in Reached(cfg, run).workers
    ensures Reached(cfg, run + [WorkerActs(t, step)]) == WorkerNext(cfg, Reached(cfg, run), t, step)
  {
    RunStep(cfg, run, WorkerActs(t, step));
  }

  /** The run goes on with nothing but time, this worker's delivery and its statements. */
  predicate Alone(run: seq<Action>, next: seq<Action>, t: Token) {
    && run <= next
    && forall i | |run| <= i < |next| :: next[i].Tick? || (next[i].Deliver? && next[i].token == t) || (next[i].WorkerActs? && next[i].token == t)
  }

  // ----- every run -----

  /** The report is ready and the generation completed, with its output stored. */
  predicate Finished(s: Sys, g: GenerationId, r: ReportId) {
    && g in s.db.generations && s.db.generations[g].status.Completed? && s.db.generations[g].report == r
    && r in s.db.reports && s.db.reports[r].status.READY?
    && r in s.db.outputs && s.db.outputs[r].generation == g && s.db.outputs[r].storageKey in s.objects
    && ConsumeKey(g) in s.db.ledger
  }

  lemma Publishes(cfg: Config, run: seq<Action>, t: Token) returns (next: seq<Action>)
    requires Fit(cfg, Reached(cfg, run), t) && Reached(cfg, run).workers[t].pc.Publishing?
    ensures Alone(run, next, t)
    ensures var g := Reached(cfg, run).workers[t].generation; Finished(Reached(cfg, next), g, Reached(cfg, run).db.generations[g].report)
  {
    Outcomes.OwnerPublishes(cfg, run, t);
    next := run + [WorkerActs(t, Publish)];
    Then(cfg, run, t, Publish);
    PublishedIsFinished(Reached(cfg, run), Reached(cfg, next), t, Reached(cfg, run).workers[t].generation);
  }

  lemma PublishedIsFinished(s: Sys, after: Sys, t: Token, g: GenerationId)
    requires t in s.workers && At(s, t, g, s.workers[t].pc) && s.workers[t].pc.Publishing? && Outcomes.Publication(s, after, t)
    ensures Finished(after, g, s.db.generations[g].report)
  {
  }

  lemma SameReport(cfg: Config, run: seq<Action>, next: seq<Action>, g: GenerationId)
    requires run <= next && g in Reached(cfg, run).db.generations && g in Reached(cfg, next).db.generations
    ensures Reached(cfg, next).db.generations[g].report == Reached(cfg, run).db.generations[g].report
  {
    assert next == run + next[|run|..];
    Permanence.RowsArePermanent(cfg, run, next[|run|..], g);
  }

  /** How many statements are left at most. */
  function Remaining(pc: Pc): nat {
    match pc
    case Reading => 12
    case Transcribing => 11
    case CheckingModeration => 10
    case StartingModeration => 9
    case CallingModerator(_) => 8
    case PreparingContent => 7
    case StartingReport => 6
    case CallingReporter(_) => 5
    case Rendering => 4
    case Uploading => 3
    case VerifyingUpload(_) => 2
    case Publishing(_) => 1
    case _ => 0
  }

  predicate Closer(cfg: Config, s: Sys, after: Sys, t: Token) {
    && t in s.workers && Fit(cfg, after, t)
    && Remaining(after.workers[t].pc) < Remaining(s.workers[t].pc) && after.workers[t].generation == s.workers[t].generation
  }

  lemma NextStatement(cfg: Config, s: Sys, t: Token) returns (step: WorkerStep)
    requires Fit(cfg, s, t) && !s.workers[t].pc.Publishing? && BudgetLaws.Budgeted(cfg, s.db.attempts)
    ensures Closer(cfg, s, WorkerNext(cfg, s, t, step), t)
  {
    match s.workers[t].pc
    case Reading => step := ReadGeneration; FitReads(cfg, s, t);
    case CheckingModeration => step := CheckCompleted; FitChecks(cfg, s, t);
    case StartingModeration => step := NextCall(cfg, s, t);
    case StartingReport => step := NextCall(cfg, s, t);
    case CallingModerator(_) => step := FinishCall(0); FitRecords(cfg, s, t, 0);
    case CallingReporter(_) => step := FinishCall(0); FitRecords(cfg, s, t, 0);
    case Uploading => step := Put(1); FitPuts(cfg, s, t, 1);
    case VerifyingUpload(size) => step := Head(true); FitVerifies(cfg, s, t, size);
    case _ => step := Progress(true); FitProgresses(cfg, s, t, true);
  }

  lemma NextCall(cfg: Config, s: Sys, t: Token) returns (step: WorkerStep)
    requires Fit(cfg, s, t) && AsksModel(s.workers[t].pc) && BudgetLaws.Budgeted(cfg, s.db.attempts)
    ensures Closer(cfg, s, WorkerNext(cfg, s, t, step), t)
  {
    var id := FreshNumber(s.db.attempts.Keys);
    step := StartCall(id, 0);
    FitBegins(cfg, s, t, id, 0);
  }

  /** A worker in a position to finish can, alone and wherever it stands. */
  lemma {:induction false} FitFinishes(cfg: Config, run: seq<Action>, t: Token) returns (next: seq<Action>)
    requires Fit(cfg, Reached(cfg, run), t)
    ensures Alone(run, next, t)
    ensures var g := Reached(cfg, run).workers[t].generation; Finished(Reached(cfg, next), g, Reached(cfg, run).db.generations[g].report)
    decreases Remaining(Reached(cfg, run).workers[t].pc)
  {
    if Reached(cfg, run).workers[t].pc.Publishing? {
      next := Publishes(cfg, run, t);
    } else {
      RunsAreBudgeted(cfg, run);
      var step := NextStatement(cfg, Reached(cfg, run), t);
      var closer := run + [WorkerActs(t, step)];
      Then(cfg, run, t, step);
      SameReport(cfg, run, closer, Reached(cfg, run).workers[t].generation);
      next := FitFinishes(cfg, closer, t);
    }
  }

  /** A time by which every attempt's lease has ended. */
  lemma LeasesEnd(attempts: map<AttemptId, Attempt>, ids: set<AttemptId>, now: Time) returns (to: Time)
    requires ids <= attempts.Keys
    ensures to >= now && forall i | i in ids :: attempts[i].lease <= to
    decreases |ids|
  {
    if ids == {} {
      to := now;
    } else {
      var i :| i in ids;
      var rest := LeasesEnd(attempts, ids - {i}, now);
      to := if attempts[i].lease <= rest then rest else attempts[i].lease;
      forall j | j in ids ensures attempts[j].lease <= to {
        if j != i { assert j in ids - {i}; }
      }
    }
  }

  lemma HeldHasLease(cfg: Config, run: seq<Action>, g: GenerationId)
    requires g in Reached(cfg, run).db.generations && Reached(cfg, run).db.generations[g].status.Processing?
    ensures Reached(cfg, run).db.generations[g].lease.Some?
  {
    RunsAreGrounded(cfg, run);
    var db := Reached(cfg, run).db;
    assert GenerationFits(db.reports, db.outputs, db.generations, g);
  }

  /** Waiting until every lease has run out changes nothing but the time. */
  lemma WaitsOut(cfg: Config, run: seq<Action>, g: GenerationId) returns (to: Time)
    requires g in Reached(cfg, run).db.generations && Generations.Active(Reached(cfg, run).db.generations[g])
    ensures var s := Reached(cfg, run); var after := s.(clock := to);
            && Reached(cfg, run + [Tick(to)]) == after
            && Processing.Claimable(s.db.generations, to, g) && Quiet(s.db.attempts, to)
  {
    var s := Reached(cfg, run);
    to := LeasesEnd(s.db.attempts, s.db.attempts.Keys, s.clock);
    if s.db.generations[g].status.Processing? {
      HeldHasLease(cfg, run, g);
      to := if to <= s.db.generations[g].lease.value then s.db.generations[g].lease.value + 1 else to;
    }
    RunStep(cfg, run, Tick(to));
  }

  /** From every reachable state one fresh worker alone can bring a queued or held generation to its published output,
      if of moderation and report each is done or may still be called. */
  lemma ActiveCanBePublished(cfg: Config, run: seq<Action>, g: GenerationId) returns (next: seq<Action>, t: Token)
    requires g in Reached(cfg, run).db.generations && Generations.Active(Reached(cfg, run).db.generations[g])
    requires Affordable(cfg, Reached(cfg, run).db, g)
    ensures t !in Reached(cfg, run).workers && Alone(run, next, t)
    ensures Finished(Reached(cfg, next), g, Reached(cfg, run).db.generations[g].report)
  {
    t := FreshNumber(Reached(cfg, run).workers.Keys);
    var to := WaitsOut(cfg, run, g);
    var waited := run + [Tick(to)];
    var claimed := waited + [Deliver(t, g, 0)];
    FitClaims(cfg, Reached(cfg, waited), t, g, 0);
    RunStep(cfg, waited, Deliver(t, g, 0));
    SameReport(cfg, run, claimed, g);
    next := FitFinishes(cfg, claimed, t);
  }

  lemma NothingCalledYet(cfg: Config, run: seq<Action>, g: GenerationId)
    requires g !in Reached(cfg, run).db.generations
    ensures forall i | i in Reached(cfg, run).db.attempts :: Reached(cfg, run).db.attempts[i].generation != g
  {
    RunsAreGrounded(cfg, run);
    var db := Reached(cfg, run).db;
    forall i | i in db.attempts ensures db.attempts[i].generation != g {
      assert WorkLaws.AttemptFits(db.generations, db.attempts, i);
    }
  }

  lemma StartLeavesAttempts(cfg: Config, s: Sys, user: UserId, r: ReportId, key: string, g: GenerationId, emailVerified: bool)
    ensures StartNext(cfg, s, user, r, key, g, emailVerified).db.attempts == s.db.attempts
  {
  }

  lemma FreshIsAffordable(cfg: Config, s: Sys, after: Sys, g: GenerationId)
    requires after.db.attempts == s.db.attempts && forall i | i in s.db.attempts :: s.db.attempts[i].generation != g
    requires g in after.db.generations
    ensures Affordable(cfg, after.db, g)
  {
    assert CallsOf(after.db.attempts, g, MODERATION) == {} && CallsOf(after.db.attempts, g, REPORT_GENERATION) == {};
  }

  /** Whatever a user could start can be published. */
  lemma StartedCanBePublished(cfg: Config, run: seq<Action>, user: UserId, r: ReportId, key: string, g: GenerationId, emailVerified: bool)
    returns (next: seq<Action>, t: Token)
    requires CanStart(cfg, Reached(cfg, run), user, r, key, g, emailVerified)
    ensures Alone(run + [StartGeneration(user, r, key, g, emailVerified)], next, t) && Finished(Reached(cfg, next), g, r)
  {
    var start := StartGeneration(user, r, key, g, emailVerified);
    StartedIsAffordable(cfg, run, user, r, key, g, emailVerified);
    RunStep(cfg, run, start);
    next, t := ActiveCanBePublished(cfg, run + [start], g);
  }

  ghost predicate CanStart(cfg: Config, s: Sys, user: UserId, r: ReportId, key: string, g: GenerationId, emailVerified: bool) {
    g !in s.history.origins && !Starts.Asked(s.db, user, r, key) && Starts.Conditions(cfg, s.db, user, r, s.clock, emailVerified)
  }

  lemma StartedIsAffordable(cfg: Config, run: seq<Action>, user: UserId, r: ReportId, key: string, g: GenerationId, emailVerified: bool)
    requires CanStart(cfg, Reached(cfg, run), user, r, key, g, emailVerified)
    ensures var after := Next(cfg, Reached(cfg, run), StartGeneration(user, r, key, g, emailVerified));
            && g in after.db.generations && Generations.Active(after.db.generations[g]) && after.db.generations[g].report == r
            && Affordable(cfg, after.db, g)
  {
    var s := Reached(cfg, run);
    var after := StartNext(cfg, s, user, r, key, g, emailVerified);
    assert after == Next(cfg, s, StartGeneration(user, r, key, g, emailVerified));
    UnknownIsAbsent(cfg, run, g);
    NothingCalledYet(cfg, run, g);
    Starts.StartTakesPlaceIff(cfg, run, user, r, key, g, emailVerified);
    StartLeavesAttempts(cfg, s, user, r, key, g, emailVerified);
    StartedIsQueued(cfg, s, after, user, r, key, g, emailVerified);
    FreshIsAffordable(cfg, s, after, g);
  }

  lemma StartedIsQueued(cfg: Config, s: Sys, after: Sys, user: UserId, r: ReportId, key: string, g: GenerationId, emailVerified: bool)
    requires Starts.StartsIff(cfg, s, after, user, r, key, g, emailVerified) && Starts.Conditions(cfg, s.db, user, r, s.clock, emailVerified)
    ensures g in after.db.generations && Generations.Active(after.db.generations[g]) && after.db.generations[g].report == r
  {
  }

  lemma UnknownIsAbsent(cfg: Config, run: seq<Action>, g: GenerationId)
    requires g !in Reached(cfg, run).history.origins
    ensures g !in Reached(cfg, run).db.generations
  {
    Invariance.EveryRunKeepsInv(cfg, run);
    Starts.FreshIsUnknown(cfg, Reached(cfg, run), g);
  }
}
