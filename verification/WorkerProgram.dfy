/** The worker program: process as one piece of code with its loop, its locals
    and its catch block, run among everyone else. Each of its statements is one
    action, so everything that holds of runs holds while it runs. */
module WorkerProgram {
  import opened Rows
  import opened Protocol
  import Steps
  import Runs
  import Calls
  import Outcomes
  import Processing
  import Completion

  /** What everyone else does: anything but another statement of this program; its heartbeat may tick. */
  predicate ByOthers(a: Action, t: Token) {
    a.WorkerActs? && a.token == t ==> a.step.Heartbeat?
  }

  lemma OthersLeaveWorker(cfg: Config, s: Sys, a: Action, t: Token)
    requires ByOthers(a, t) && t in s.workers
    ensures var after := Next(cfg, s, a); t in after.workers && after.workers[t] == s.workers[t]
  {
    if a.WorkerActs? {
      if a.token in s.workers { StepLeavesOthers(cfg, s, a.token, a.step); }
    } else if Steps.OnContent(a) {
      Steps.ContentStepIsOrderly(cfg, s, a);
    } else {
      GenerationStepLeavesWorkers(cfg, s, a, t);
    }
  }

  lemma StepLeavesOthers(cfg: Config, s: Sys, t: Token, step: WorkerStep)
    requires t in s.workers
    ensures var after := WorkerNext(cfg, s, t, step);
            t in after.workers && after.workers == s.workers[t := after.workers[t]]
            && (step.Heartbeat? ==> after.workers == s.workers)
  {
    if !step.Publish? && !step.Recover? { Steps.WorkerIsGentle(cfg, s, t, step); }
  }

  lemma GenerationStepLeavesWorkers(cfg: Config, s: Sys, a: Action, t: Token)
    requires OnGeneration(a) && t in s.workers
    ensures var after := Next(cfg, s, a); t in after.workers && after.workers[t] == s.workers[t]
  {
    match a
    case StartGeneration(user, r, key, g, emailVerified) => Steps.StartFrame(cfg, s, user, r, key, g, emailVerified);
    case Compensate(g) => Steps.CompensationLives(s, g);
    case DeleteReport(_, _) =>
    case MarkEnqueued(_) =>
    case CancelGeneration(_, _, _) =>
    case Deliver(_, _, _) =>
  }

  class World {
    ghost const cfg: Config
    ghost const start: Sys
    ghost var s: Sys
    ghost var run: seq<Action>
    /** What everyone else will have done before each of the program's next statements. */
    ghost var others: seq<seq<Action>>

    ghost constructor (cfg: Config, start: Sys, others: seq<seq<Action>>)
      ensures Valid() && this.cfg == cfg && this.start == start && s == start && run == []
    {
      this.cfg, this.start, this.s, this.run, this.others := cfg, start, start, [], others;
    }

    /** The state is the one after the run so far. */
    ghost predicate Valid()
      reads this
    {
      s == After(cfg, start, run)
    }

    ghost method Act(a: Action)
      requires Valid()
      modifies this
      ensures Valid() && s == Next(cfg, old(s), a) && run == old(run) + [a] && others == old(others)
    {
      AfterStep(cfg, start, run, a);
      s, run := Next(cfg, s, a), run + [a];
    }

    /** Everyone else moves; this worker's own record stays as it was. */
    ghost method Interleave(t: Token)
      requires Valid() && t in s.workers
      modifies this
      ensures Valid() && old(run) <= run && t in s.workers && s.workers[t] == old(s).workers[t]
      ensures old(others) == [] ==> s == old(s) && others == []
    {
      if others != [] {
        var batch := others[0];
        others := others[1..];
        var i := 0;
        while i < |batch|
          invariant 0 <= i <= |batch| && Valid() && old(run) <= run
          invariant t in s.workers && s.workers[t] == old(s).workers[t]
        {
          if ByOthers(batch[i], t) {
            OthersLeaveWorker(cfg, s, batch[i], t);
            Act(batch[i]);
          }
          i := i + 1;
        }
      }
    }

    /** One statement of the program: before it, everyone else may have moved. */
    ghost method Do(t: Token, step: WorkerStep) returns (seen: Sys)
      requires Valid() && t in s.workers
      modifies this
      ensures Valid() && old(run) <= run && t in s.workers
      ensures t in seen.workers && seen.workers[t] == old(s).workers[t] && s == WorkerNext(cfg, seen, t, step)
      ensures old(others) == [] ==> seen == old(s) && others == []
    {
      Interleave(t);
      seen := s;
      Act(WorkerActs(t, step));
      StepLeavesOthers(cfg, seen, t, step);
    }
  }

  // ----- the statements -----

  /** Every statement keeps the run going and says where the program stands next, and whether its upload is pending. */
  twostate predicate Moved(world: World, t: Token)
    reads world
  {
    && world.Valid() && old(world.run) <= world.run && t in old(world.s).workers && t in world.s.workers
  }

  /** Where nobody else does anything, it is exactly this statement. */
  twostate predicate Did(world: World, t: Token, step: WorkerStep)
    requires t in old(world.s).workers
    reads world
  {
    old(world.others) == [] ==> world.others == [] && world.s == WorkerNext(world.cfg, old(world.s), t, step)
  }

  /** Where nobody else does anything in a run from the empty database and the outside is willing, a worker in a position
      to finish gets there and still is in such a position, and makes only these calls. */
  twostate predicate GetsTo(world: World, t: Token, willing: bool, pc: Pc, calls: set<AttemptId>)
    reads world
  {
    old(world.others) == [] && world.start == INIT && willing && Completion.Fit(world.cfg, old(world.s), t) ==>
      world.others == [] && Completion.Onward(world.cfg, old(world.s), world.s, t, pc, calls)
  }

  /** And a worker that gets through has finished. */
  twostate predicate Finishes(world: World, t: Token, willing: bool)
    reads world
  {
    old(world.others) == [] && world.start == INIT && willing && Completion.Fit(world.cfg, old(world.s), t) ==>
      && t in world.s.workers && world.s.workers[t].pc.Stopped?
      && var g := old(world.s).workers[t].generation; Completion.Finished(world.s, g, old(world.s).db.generations[g].report)
  }

  ghost method Read(world: World, t: Token)
    requires world.Valid() && t in world.s.workers && world.s.workers[t].pc.Reading?
    modifies world
    ensures Moved(world, t) && world.s.workers[t].uploaded == old(world.s).workers[t].uploaded
    ensures world.s.workers[t].pc.Transcribing? || world.s.workers[t].pc.Failing?
    ensures Did(world, t, ReadGeneration)
    ensures GetsTo(world, t, true, Transcribing, {})
  {
    Completion.FitReads(world.cfg, world.s, t);
    var seen := world.Do(t, ReadGeneration);
  }

  lemma ProgressLeads(cfg: Config, s: Sys, t: Token, advance: bool)
    requires t in s.workers
    requires var pc := s.workers[t].pc; pc.Transcribing? || pc.PreparingContent? || pc.Rendering?
    ensures var after := WorkerNext(cfg, s, t, Progress(advance));
            && t in after.workers && after.workers[t].uploaded == s.workers[t].uploaded
            && (after.workers[t].pc.Failing? || after.workers[t].pc == Completion.AfterProgress(s.workers[t], advance))
  {
  }

  /** updateProgress, which throws when the generation is no longer owned. */
  ghost method UpdateProgress(world: World, t: Token, advance: bool)
    requires world.Valid() && t in world.s.workers
    requires var pc := world.s.workers[t].pc; pc.Transcribing? || pc.PreparingContent? || pc.Rendering?
    modifies world
    ensures Moved(world, t) && world.s.workers[t].uploaded == old(world.s).workers[t].uploaded
    ensures var w := old(world.s).workers[t]; var after := world.s.workers[t];
            after.pc.Failing? || after.pc == Completion.AfterProgress(w, advance)
    ensures Did(world, t, Progress(advance))
    ensures GetsTo(world, t, true, Completion.AfterProgress(old(world.s).workers[t], advance), {})
  {
    Completion.FitProgresses(world.cfg, world.s, t, advance);
    var seen := world.Do(t, Progress(advance));
    ProgressLeads(world.cfg, seen, t, advance);
  }

  predicate Calling(before: Pc, after: Pc) {
    || after.Failing?
    || (before.Transcribing? && after.CallingTranscriber?)
    || (before.StartingModeration? && after.CallingModerator?)
    || (before.StartingReport? && after.CallingReporter?)
  }

  lemma CallIsAuthorised(world: World, t: Token, id: AttemptId, audio: AssetId)
    requires world.Valid() && t in world.s.workers
    ensures Calls.AsksModel(world.s.workers[t].pc) && id !in world.s.db.attempts && world.start == INIT && Completion.Fit(world.cfg, world.s, t) ==>
              Completion.Onward(world.cfg, world.s, WorkerNext(world.cfg, world.s, t, StartCall(id, audio)), t,
                                Completion.Called(world.s.workers[t].pc, id), {id})
  {
    if Calls.AsksModel(world.s.workers[t].pc) && id !in world.s.db.attempts && world.start == INIT {
      Runs.RunsAreBudgeted(world.cfg, world.run);
      Completion.FitBegins(world.cfg, world.s, t, id, audio);
    }
  }

  /** attempts.start */
  ghost method Authorise(world: World, t: Token, id: AttemptId, audio: AssetId)
    requires world.Valid() && t in world.s.workers
    requires var pc := world.s.workers[t].pc; pc.Transcribing? || pc.StartingModeration? || pc.StartingReport?
    modifies world
    ensures Moved(world, t) && world.s.workers[t].uploaded == old(world.s).workers[t].uploaded
    ensures Calling(old(world.s).workers[t].pc, world.s.workers[t].pc)
    ensures Did(world, t, StartCall(id, audio))
    ensures GetsTo(world, t, Calls.AsksModel(old(world.s).workers[t].pc) && id !in old(world.s).db.attempts,
                   Completion.Called(old(world.s).workers[t].pc, id), {id})
  {
    CallIsAuthorised(world, t, id, audio);
    var seen := world.Do(t, StartCall(id, audio));
  }

  predicate Called(before: Pc, after: Pc) {
    || after.Failing? || after.AbandoningAttempt?
    || (before.CallingTranscriber? && after.Transcribing?)
    || (before.CallingModerator? && after.PreparingContent?)
    || (before.CallingReporter? && after.Rendering?)
  }

  predicate InCall(pc: Pc) {
    pc.CallingTranscriber? || pc.CallingModerator? || pc.CallingReporter?
  }

  lemma RecordLeads(cfg: Config, s: Sys, t: Token, content: Content)
    requires t in s.workers && InCall(s.workers[t].pc)
    ensures var after := WorkerNext(cfg, s, t, FinishCall(content));
            && t in after.workers && after.workers[t].uploaded == s.workers[t].uploaded && Called(s.workers[t].pc, after.workers[t].pc)
  {
  }

  /** The provider answered: completeOwned or persistReportResult. */
  ghost method Record(world: World, t: Token, content: Content)
    requires world.Valid() && t in world.s.workers && InCall(world.s.workers[t].pc)
    modifies world
    ensures Moved(world, t) && world.s.workers[t].uploaded == old(world.s).workers[t].uploaded
    ensures Called(old(world.s).workers[t].pc, world.s.workers[t].pc)
    ensures Did(world, t, FinishCall(content))
    ensures GetsTo(world, t, !old(world.s).workers[t].pc.CallingTranscriber?,
                   if old(world.s).workers[t].pc.CallingModerator? then PreparingContent else Rendering, {})
  {
    Completion.FitRecords(world.cfg, world.s, t, content);
    var seen := world.Do(t, FinishCall(content));
    RecordLeads(world.cfg, seen, t, content);
  }

  /** The provider did not answer, or its answer was refused. */
  ghost method NoAnswer(world: World, t: Token, error: Error)
    requires world.Valid() && t in world.s.workers && InCall(world.s.workers[t].pc)
    modifies world
    ensures Moved(world, t) && world.s.workers[t].uploaded == old(world.s).workers[t].uploaded
    ensures world.s.workers[t].pc.Failing? || world.s.workers[t].pc.AbandoningAttempt?
    ensures Did(world, t, CallFails(error))
  {
    var seen := world.Do(t, CallFails(error));
  }

  /** attempts.fail */
  ghost method GiveUp(world: World, t: Token)
    requires world.Valid() && t in world.s.workers && world.s.workers[t].pc.AbandoningAttempt?
    modifies world
    ensures Moved(world, t) && world.s.workers[t].uploaded == old(world.s).workers[t].uploaded && world.s.workers[t].pc.Failing?
    ensures Did(world, t, Abandon)
  {
    var seen := world.Do(t, Abandon);
  }

  ghost method Check(world: World, t: Token)
    requires world.Valid() && t in world.s.workers && world.s.workers[t].pc.CheckingModeration?
    modifies world
    ensures Moved(world, t) && world.s.workers[t].uploaded == old(world.s).workers[t].uploaded
    ensures world.s.workers[t].pc.PreparingContent? || world.s.workers[t].pc.StartingModeration?
    ensures Did(world, t, CheckCompleted)
    ensures GetsTo(world, t, true, world.s.workers[t].pc, {})
  {
    Completion.FitChecks(world.cfg, world.s, t);
    var seen := world.Do(t, CheckCompleted);
  }

  predicate Between(pc: Pc) {
    || pc.Transcribing? || pc.CheckingModeration? || pc.StartingModeration? || pc.StartingReport? || pc.Rendering? || pc.Uploading?
  }

  /** A statement that touches no row, such as a test of the deadline, presigning, loading or rendering: it may throw. */
  ghost method Elsewhere(world: World, t: Token, error: Option<Error>)
    requires world.Valid() && t in world.s.workers && Between(world.s.workers[t].pc)
    modifies world
    ensures Moved(world, t) && world.s.workers[t].uploaded == old(world.s).workers[t].uploaded
    ensures if error.Some? then world.s.workers[t].pc.Failing? else world.s.workers[t].pc == old(world.s).workers[t].pc
    ensures GetsTo(world, t, error.None?, old(world.s).workers[t].pc, {})
  {
    if error.Some? { var seen := world.Do(t, Fail(error.value)); }
  }

  /** uploadObject, with its verification. */
  ghost method Upload(world: World, t: Token, size: nat, sent: bool, heads: bool)
    requires world.Valid() && t in world.s.workers && world.s.workers[t].pc.Uploading?
    modifies world
    ensures Moved(world, t) && world.s.workers[t].uploaded
    ensures world.s.workers[t].pc.Failing? || (sent && heads && world.s.workers[t].pc == Publishing(size))
    ensures GetsTo(world, t, sent && heads, Publishing(size), {})
  {
    if sent {
      Send(world, t, size);
      LookUp(world, t, size, heads);
    } else {
      var seen := world.Do(t, PutFails);
    }
  }

  ghost method Send(world: World, t: Token, size: nat)
    requires world.Valid() && t in world.s.workers && world.s.workers[t].pc.Uploading?
    modifies world
    ensures Moved(world, t) && world.s.workers[t].uploaded && world.s.workers[t].pc == VerifyingUpload(size)
    ensures Did(world, t, Put(size))
    ensures GetsTo(world, t, true, VerifyingUpload(size), {})
  {
    Completion.FitPuts(world.cfg, world.s, t, size);
    var seen := world.Do(t, Put(size));
  }

  ghost method LookUp(world: World, t: Token, size: nat, heads: bool)
    requires world.Valid() && t in world.s.workers && world.s.workers[t].pc == VerifyingUpload(size)
    modifies world
    ensures Moved(world, t) && world.s.workers[t].uploaded == old(world.s).workers[t].uploaded
    ensures world.s.workers[t].pc.Failing? || (heads && world.s.workers[t].pc == Publishing(size))
    ensures Did(world, t, Head(heads))
    ensures GetsTo(world, t, heads, Publishing(size), {})
  {
    Completion.FitVerifies(world.cfg, world.s, t, size);
    var seen := world.Do(t, Head(heads));
  }

  lemma PublicationFinishes(world: World, t: Token)
    requires world.Valid() && t in world.s.workers && world.s.workers[t].pc.Publishing?
    ensures world.start == INIT && Completion.Fit(world.cfg, world.s, t) ==>
              var g := world.s.workers[t].generation; var after := WorkerNext(world.cfg, world.s, t, Publish);
              && t in after.workers && after.workers[t].pc.Stopped?
              && Completion.Finished(after, g, world.s.db.generations[g].report)
  {
    if world.start == INIT && Completion.Fit(world.cfg, world.s, t) {
      Outcomes.OwnerPublishes(world.cfg, world.run, t);
      Completion.PublishedIsFinished(world.s, WorkerNext(world.cfg, world.s, t, Publish), t, world.s.workers[t].generation);
    }
  }

  /** finalizeSuccess, after which uploadedOutputKey is cleared. */
  ghost method Finalize(world: World, t: Token)
    requires world.Valid() && t in world.s.workers && world.s.workers[t].pc.Publishing?
    modifies world
    ensures Moved(world, t)
    ensures (world.s.workers[t].pc.Failing? && world.s.workers[t].uploaded == old(world.s).workers[t].uploaded)
            || (world.s.workers[t].pc.Stopped? && !world.s.workers[t].uploaded)
    ensures Did(world, t, Publish)
    ensures Finishes(world, t, true)
  {
    PublicationFinishes(world, t);
    var seen := world.Do(t, Publish);
  }

  /** The catch block up to its decision: an unpublished upload has become a cleanup task. */
  ghost method Catch(world: World, t: Token)
    requires world.Valid() && t in world.s.workers && world.s.workers[t].pc.Failing?
    modifies world
    ensures Moved(world, t) && !world.s.workers[t].uploaded
    ensures old(world.s).workers[t].uploaded ==> KeyOf(t, old(world.s).workers[t]) in world.s.db.tasks
    ensures world.s.workers[t].pc.Recovering? || world.s.workers[t].pc.Stopped?
    ensures Did(world, t, ScheduleCleanup)
  {
    var seen := world.Do(t, ScheduleCleanup);
  }

  ghost method RetryOrFail(world: World, t: Token, retryable: bool)
    requires world.Valid() && t in world.s.workers && world.s.workers[t].pc.Recovering?
    modifies world
    ensures Moved(world, t) && world.s.workers[t].uploaded == old(world.s).workers[t].uploaded && world.s.workers[t].pc.Stopped?
    ensures Did(world, t, Recover(retryable))
  {
    var seen := world.Do(t, Recover(retryable));
  }

  ghost method Claim(world: World, t: Token, g: GenerationId, lag: nat)
    requires world.Valid() && t !in world.s.workers
    modifies world
    ensures world.Valid() && old(world.run) <= world.run && t in world.s.workers && !world.s.workers[t].uploaded
    ensures world.s.workers[t].pc.Reading? || world.s.workers[t].pc.Stopped?
    ensures world.others == old(world.others) && CanFinish(world, old(world.s), t, g)
  {
    Completion.FitClaims(world.cfg, world.s, t, g, lag);
    world.Act(Protocol.Deliver(t, g, lag));
    ClaimedIsSameReport(world, old(world.run), old(world.s), t, g);
  }

  /** A delivery that could claim, of a generation whose calls can be paid for, has put the worker in a position to finish. */
  ghost predicate CanFinish(world: World, s: Sys, t: Token, g: GenerationId)
    reads world
  {
    world.start == INIT && Processing.Claimable(s.db.generations, s.clock, g) && Completion.WorkLeft(world.cfg, s, g) ==>
      && Completion.Fit(world.cfg, world.s, t) && world.s.workers[t].pc.Reading? && world.s.workers[t].generation == g
      && world.s.db.attempts == s.db.attempts && world.s.db.generations[g].report == s.db.generations[g].report
  }

  lemma ClaimedIsSameReport(world: World, run: seq<Action>, s: Sys, t: Token, g: GenerationId)
    requires world.Valid() && run <= world.run && s == After(world.cfg, world.start, run)
    ensures world.start == INIT && g in s.db.generations && g in world.s.db.generations ==>
              world.s.db.generations[g].report == s.db.generations[g].report
  {
    if world.start == INIT && g in s.db.generations && g in world.s.db.generations {
      Completion.SameReport(world.cfg, run, world.run, g);
    }
  }

  // ----- the program -----

  /** Where a statement that touches no row may throw. */
  datatype Place =
    | ParsingSnapshot
    | BeforeAudio(index: nat)     // assertBeforeDeadline
    | Presigning                  // the types of the images, the deadline and createPresignedGet
    | BeforeModeration
    | LoadingDocuments            // the stored result, or the documents that are uploaded to the provider
    | CheckingReferences          // validateImageReferences
    | RenderingPdf                // the deadline, the referenced images, the PDF and assertOwnership
    | BeforeUpload

  /** What the outside answers; None is no error. */
  datatype Answers = Answers(
    transcribed: seq<bool>,      // a finished transcription is already stored
    transcribes: seq<Option<Error>>,
    moderates: Option<Error>,
    reports: Option<Error>,
    throws: Place -> Option<Error>,
    uploads: bool,
    heads: bool,
    content: Content,
    size: nat,
    retryable: bool,
    ids: nat -> AttemptId)

  /** Nothing throws between two recorded statements. */
  ghost predicate Silent(answers: Answers) {
    forall place: Place :: answers.throws(place).None?
  }

  /** And every transcription is stored already. */
  ghost predicate AllStored(answers: Answers) {
    Silent(answers) && forall i | 0 <= i < |answers.transcribed| :: answers.transcribed[i]
  }

  /** Transcriptions are stored, the providers and the object store answer, and calls are drawn afresh. */
  ghost predicate Willing(answers: Answers, known: set<AttemptId>) {
    && AllStored(answers)
    && answers.moderates.None? && answers.reports.None? && answers.uploads && answers.heads
    && answers.ids(0) != answers.ids(1) && answers.ids(0) !in known && answers.ids(1) !in known
  }

  /** A provider call from its authorisation to its record: the program goes on where it should, or fails. */
  ghost method Call(world: World, t: Token, id: AttemptId, audio: AssetId, error: Option<Error>, content: Content)
    requires world.Valid() && t in world.s.workers
    requires var pc := world.s.workers[t].pc; pc.Transcribing? || pc.StartingModeration? || pc.StartingReport?
    modifies world
    ensures Moved(world, t) && world.s.workers[t].uploaded == old(world.s).workers[t].uploaded
    ensures var before := old(world.s).workers[t].pc; var after := world.s.workers[t].pc;
            after.Failing? || after == (if before.Transcribing? then Transcribing else if before.StartingModeration? then PreparingContent else Rendering)
    ensures GetsTo(world, t, error.None? && Calls.AsksModel(old(world.s).workers[t].pc) && id !in old(world.s).db.attempts,
                   if old(world.s).workers[t].pc.StartingModeration? then PreparingContent else Rendering, {id})
  {
    Authorise(world, t, id, audio);
    if !world.s.workers[t].pc.Failing? {
      if error.None? { Record(world, t, content); } else { NoAnswer(world, t, error.value); }
      if world.s.workers[t].pc.AbandoningAttempt? { GiveUp(world, t); }
    }
  }

  /** The loop over the audio assets. */
  ghost method Transcribe(world: World, t: Token, audio: seq<AssetId>, answers: Answers)
    requires world.Valid() && t in world.s.workers && world.s.workers[t].pc.Transcribing?
    requires |answers.transcribed| == |answers.transcribes| == |audio|
    modifies world
    ensures Moved(world, t) && world.s.workers[t].uploaded == old(world.s).workers[t].uploaded
    ensures world.s.workers[t].pc.Failing? || world.s.workers[t].pc.CheckingModeration?
    ensures GetsTo(world, t, AllStored(answers), CheckingModeration, {})
  {
    Elsewhere(world, t, answers.throws(ParsingSnapshot));
    if world.s.workers[t].pc.Failing? { return; }
    UpdateProgress(world, t, false);
    if world.s.workers[t].pc.Failing? { return; }
    var index := 0;
    while index < |audio|
      invariant 0 <= index <= |audio|
      invariant Moved(world, t) && world.s.workers[t].uploaded == old(world.s).workers[t].uploaded
      invariant world.s.workers[t].pc.Transcribing? && GetsTo(world, t, AllStored(answers), Transcribing, {})
    {
      TranscribeOne(world, t, audio[index], index, answers);
      if world.s.workers[t].pc.Failing? { return; }
      index := index + 1;
    }
    UpdateProgress(world, t, true);
  }

  ghost method TranscribeOne(world: World, t: Token, audio: AssetId, index: nat, answers: Answers)
    requires world.Valid() && t in world.s.workers && world.s.workers[t].pc.Transcribing?
    requires index < |answers.transcribed| == |answers.transcribes|
    modifies world
    ensures Moved(world, t) && world.s.workers[t].uploaded == old(world.s).workers[t].uploaded
    ensures world.s.workers[t].pc.Failing? || world.s.workers[t].pc.Transcribing?
    ensures GetsTo(world, t, AllStored(answers), Transcribing, {})
  {
    Elsewhere(world, t, answers.throws(BeforeAudio(index)));
    if world.s.workers[t].pc.Failing? { return; }
    if !answers.transcribed[index] {
      Call(world, t, answers.ids(index), audio, answers.transcribes[index], answers.content);
      if world.s.workers[t].pc.Failing? { return; }
    }
    UpdateProgress(world, t, false);
  }

  /** Moderation is skipped when a completed attempt is stored. */
  ghost method Moderate(world: World, t: Token, answers: Answers)
    requires world.Valid() && t in world.s.workers && world.s.workers[t].pc.CheckingModeration?
    modifies world
    ensures Moved(world, t) && world.s.workers[t].uploaded == old(world.s).workers[t].uploaded
    ensures world.s.workers[t].pc.Failing? || world.s.workers[t].pc.PreparingContent?
    ensures GetsTo(world, t, Silent(answers) && answers.moderates.None? && answers.ids(0) !in old(world.s).db.attempts,
                   PreparingContent, {answers.ids(0)})
  {
    Elsewhere(world, t, answers.throws(Presigning));
    if world.s.workers[t].pc.Failing? { return; }
    Check(world, t);
    if world.s.workers[t].pc.StartingModeration? {
      Elsewhere(world, t, answers.throws(BeforeModeration));
      if world.s.workers[t].pc.Failing? { return; }
      Call(world, t, answers.ids(0), 0, answers.moderates, answers.content);
    }
  }

  /** And report generation when a result is. */
  ghost method WriteReport(world: World, t: Token, answers: Answers)
    requires world.Valid() && t in world.s.workers && world.s.workers[t].pc.PreparingContent?
    modifies world
    ensures Moved(world, t) && world.s.workers[t].uploaded == old(world.s).workers[t].uploaded
    ensures world.s.workers[t].pc.Failing? || world.s.workers[t].pc.Rendering?
    ensures GetsTo(world, t, Silent(answers) && answers.reports.None? && answers.ids(1) !in old(world.s).db.attempts, Rendering, {answers.ids(1)})
  {
    UpdateProgress(world, t, true);
    if world.s.workers[t].pc.Failing? { return; }
    Elsewhere(world, t, answers.throws(LoadingDocuments));
    if world.s.workers[t].pc.StartingReport? { Call(world, t, answers.ids(1), 0, answers.reports, answers.content); }
    if world.s.workers[t].pc.Failing? { return; }
    Elsewhere(world, t, answers.throws(CheckingReferences));
  }

  /** Rendering, upload and publication; uploadedOutputKey says what the catch block will find. */
  ghost method Deliver(world: World, t: Token, answers: Answers) returns (uploadedOutputKey: bool)
    requires world.Valid() && t in world.s.workers && world.s.workers[t].pc.Rendering? && !world.s.workers[t].uploaded
    modifies world
    ensures Moved(world, t) && world.s.workers[t].uploaded == uploadedOutputKey
    ensures world.s.workers[t].pc.Failing? || (world.s.workers[t].pc.Stopped? && !uploadedOutputKey)
    ensures Finishes(world, t, Silent(answers) && answers.uploads && answers.heads)
  {
    uploadedOutputKey := false;
    Render(world, t, answers);
    if world.s.workers[t].pc.Failing? { return; }
    uploadedOutputKey := true;
    Upload(world, t, answers.size, answers.uploads, answers.heads);
    if world.s.workers[t].pc.Failing? { return; }
    ReportStays(world, t, old(world.run), old(world.s));
    Finalize(world, t);
    if world.s.workers[t].pc.Stopped? { uploadedOutputKey := false; }
  }

  /** The generation that the worker had before in the same run is of the same report still. */
  lemma ReportStays(world: World, t: Token, run: seq<Action>, s: Sys)
    requires world.Valid() && run <= world.run && s == After(world.cfg, world.start, run)
    ensures world.start == INIT && Completion.Fit(world.cfg, s, t) && Completion.Fit(world.cfg, world.s, t)
            && world.s.workers[t].generation == s.workers[t].generation ==>
              var g := s.workers[t].generation; world.s.db.generations[g].report == s.db.generations[g].report
  {
    if world.start == INIT && Completion.Fit(world.cfg, s, t) && Completion.Fit(world.cfg, world.s, t)
       && world.s.workers[t].generation == s.workers[t].generation {
      Completion.SameReport(world.cfg, run, world.run, s.workers[t].generation);
    }
  }

  ghost method Render(world: World, t: Token, answers: Answers)
    requires world.Valid() && t in world.s.workers && world.s.workers[t].pc.Rendering?
    modifies world
    ensures Moved(world, t) && world.s.workers[t].uploaded == old(world.s).workers[t].uploaded
    ensures world.s.workers[t].pc.Failing? || world.s.workers[t].pc.Uploading?
    ensures GetsTo(world, t, Silent(answers), Uploading, {})
  {
    UpdateProgress(world, t, false);
    if world.s.workers[t].pc.Failing? { return; }
    Elsewhere(world, t, answers.throws(RenderingPdf));
    if world.s.workers[t].pc.Failing? { return; }
    UpdateProgress(world, t, true);
    if world.s.workers[t].pc.Failing? { return; }
    Elsewhere(world, t, answers.throws(BeforeUpload));
  }

  ghost method ReadSources(world: World, t: Token, audio: seq<AssetId>, answers: Answers)
    requires world.Valid() && t in world.s.workers && world.s.workers[t].pc.Reading?
    requires |answers.transcribed| == |answers.transcribes| == |audio|
    modifies world
    ensures Moved(world, t) && world.s.workers[t].uploaded == old(world.s).workers[t].uploaded
    ensures world.s.workers[t].pc.Failing? || world.s.workers[t].pc.CheckingModeration?
    ensures GetsTo(world, t, AllStored(answers), CheckingModeration, {})
  {
    Read(world, t);
    if world.s.workers[t].pc.Transcribing? { Transcribe(world, t, audio, answers); }
  }

  /** Up to the rendering. */
  ghost method Prepare(world: World, t: Token, audio: seq<AssetId>, answers: Answers)
    requires world.Valid() && t in world.s.workers && world.s.workers[t].pc.Reading?
    requires |answers.transcribed| == |answers.transcribes| == |audio|
    modifies world
    ensures Moved(world, t) && world.s.workers[t].uploaded == old(world.s).workers[t].uploaded
    ensures world.s.workers[t].pc.Failing? || world.s.workers[t].pc.Rendering?
    ensures GetsTo(world, t, Willing(answers, old(world.s).db.attempts.Keys), Rendering, {answers.ids(0), answers.ids(1)})
  {
    ReadSources(world, t, audio, answers);
    if world.s.workers[t].pc.CheckingModeration? { Moderate(world, t, answers); }
    if world.s.workers[t].pc.PreparingContent? { WriteReport(world, t, answers); }
  }

  /** The body up to its first error, from reading the generation to its publication. */
  ghost method Body(world: World, t: Token, audio: seq<AssetId>, answers: Answers) returns (uploadedOutputKey: bool)
    requires world.Valid() && t in world.s.workers && world.s.workers[t].pc.Reading? && !world.s.workers[t].uploaded
    requires |answers.transcribed| == |answers.transcribes| == |audio|
    modifies world
    ensures Moved(world, t) && world.s.workers[t].uploaded == uploadedOutputKey
    ensures world.s.workers[t].pc.Failing? || (world.s.workers[t].pc.Stopped? && !uploadedOutputKey)
    ensures Finishes(world, t, Willing(answers, old(world.s).db.attempts.Keys))
  {
    uploadedOutputKey := false;
    Prepare(world, t, audio, answers);
    if world.s.workers[t].pc.Rendering? {
      ReportStays(world, t, old(world.run), old(world.s));
      uploadedOutputKey := Deliver(world, t, answers);
    }
  }

  /** process: a delivery claims or ends at once; the body runs up to its first error; the catch block turns an
      unpublished upload into a cleanup task, then retries or fails for good. The program always ends, with no
      upload left behind, and all of it is part of one run. */
  ghost method Process(world: World, t: Token, g: GenerationId, lag: nat, audio: seq<AssetId>, answers: Answers)
    requires world.Valid() && t !in world.s.workers
    requires |answers.transcribed| == |answers.transcribes| == |audio|
    modifies world
    ensures world.s == After(world.cfg, world.start, world.run) && old(world.run) <= world.run
    ensures t in world.s.workers && world.s.workers[t].pc.Stopped? && !world.s.workers[t].uploaded
    ensures old(world.others) == [] && world.start == INIT && Willing(answers, old(world.s).db.attempts.Keys)
            && Processing.Claimable(old(world.s).db.generations, old(world.s).clock, g) && Completion.WorkLeft(world.cfg, old(world.s), g) ==>
              Completion.Finished(world.s, g, old(world.s).db.generations[g].report)
  {
    Claim(world, t, g, lag);
    if world.s.workers[t].pc.Stopped? { return; }
    var uploadedOutputKey := Body(world, t, audio, answers);
    if world.s.workers[t].pc.Stopped? { return; }
    assert world.s.workers[t].uploaded == uploadedOutputKey;
    Catch(world, t);
    if world.s.workers[t].pc.Recovering? { RetryOrFail(world, t, answers.retryable); }
  }
}
