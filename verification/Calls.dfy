/** When a provider call is authorised, recorded and closed, in terms of the rows
    of the attempts. */
module Calls {
  import opened Rows
  import opened Protocol
  import opened BudgetLaws
  import opened Runs
  import Attempts

  // ----- the rows that decide -----

  /** The moderation or report calls of a generation. */
  function CallsOf(attempts: map<AttemptId, Attempt>, g: GenerationId, operation: Operation): set<AttemptId> {
    set i | i in attempts && attempts[i].generation == g && attempts[i].operation == operation && attempts[i].asset.None?
  }

  /** The calls that transcribe an asset, for whatever generation. */
  function CallsAbout(attempts: map<AttemptId, Attempt>, a: AssetId): set<AttemptId> {
    set i | i in attempts && attempts[i].operation.TRANSCRIPTION? && attempts[i].asset == Some(a)
  }

  predicate InProgress(attempts: map<AttemptId, Attempt>, calls: set<AttemptId>, now: Time)
    requires calls <= attempts.Keys
  {
    exists i :: i in calls && attempts[i].status.STARTED? && attempts[i].lease > now
  }

  /** One more row for the call, the started ones among its predecessors closed, every other row as it was. */
  predicate OneMore(attempts: map<AttemptId, Attempt>, after: map<AttemptId, Attempt>, calls: set<AttemptId>, id: AttemptId, row: Attempt)
    requires calls <= attempts.Keys
  {
    && after.Keys == attempts.Keys + {id} && after[id] == row
    && forall i | i in attempts ::
         after[i] == if i in calls && attempts[i].status.STARTED? then attempts[i].(status := ABORTED) else attempts[i]
  }

  predicate NumberFree(attempts: map<AttemptId, Attempt>, calls: set<AttemptId>, g: GenerationId)
    requires calls <= attempts.Keys
  {
    forall i | i in calls && attempts[i].generation == g :: attempts[i].number != |calls| + 1
  }

  /** The answer to a request for a call, from the calls that count against it. */
  ghost predicate AnswersBy(attempts: map<AttemptId, Attempt>, now: Time, answer: Outcome<Db>, calls: set<AttemptId>, maximum: nat,
                            id: AttemptId, row: Attempt)
    requires calls <= attempts.Keys
  {
    if InProgress(attempts, calls, now) then answer == Err(AttemptInProgress)
    else if |calls| >= maximum then answer == Err(BudgetExhausted)
    else if !NumberFree(attempts, calls, row.generation) then answer == Err(Constraint)
    else answer.Ok? && OneMore(attempts, answer.value.attempts, calls, id, row)
  }

  lemma RequestIsAnswered(cfg: Config, db: Db, now: Time, id: AttemptId, g: GenerationId, operation: Operation, asset: Option<AssetId>,
                          token: Token, lease: Time)
    requires id !in db.attempts && g in db.generations && (asset.Some? ==> asset.value in db.assets)
    ensures var calls := Attempts.Scope(db.attempts, g, operation, asset);
            var answer := Attempts.StartAttempt(cfg, db, now, id, g, operation, asset, token, lease);
            && AnswersBy(db.attempts, now, answer, calls, cfg.MaximumCalls(operation), id,
                         Attempt(g, asset, operation, |calls| + 1, STARTED, token, lease))
            && (answer.Ok? ==> answer.value == db.(attempts := answer.value.attempts))
  {
    var calls := Attempts.Scope(db.attempts, g, operation, asset);
    var row := Attempt(g, asset, operation, |calls| + 1, STARTED, token, lease);
    var closed := Attempts.CloseStale(db.attempts, g, operation, asset, now);
    assert InProgress(db.attempts, calls, now) <==> exists a :: a in calls && db.attempts[a].status.STARTED? && db.attempts[a].lease > now;
    if !InProgress(db.attempts, calls, now) {
      NumbersStay(db.attempts, closed, calls, row);
      forall i | i in db.attempts
        ensures closed[i] == if i in calls && db.attempts[i].status.STARTED? then db.attempts[i].(status := ABORTED) else db.attempts[i] {}
    }
  }

  lemma NumbersStay(attempts: map<AttemptId, Attempt>, closed: map<AttemptId, Attempt>, calls: set<AttemptId>, row: Attempt)
    requires closed.Keys == attempts.Keys && forall i | i in attempts :: closed[i] == attempts[i].(status := closed[i].status)
    requires calls == Attempts.Scope(attempts, row.generation, row.operation, row.asset) && row.number == |calls| + 1
    ensures NumberFree(attempts, calls, row.generation) <==> !exists i :: i in closed && Attempts.SameSlot(closed[i], row)
  {
    if i :| i in calls && attempts[i].generation == row.generation && attempts[i].number == |calls| + 1 {
      assert Attempts.SameSlot(closed[i], row);
    }
    if i :| i in closed && Attempts.SameSlot(closed[i], row) {
      assert i in calls;
    }
  }

  // ----- moderation and report calls -----

  predicate AsksModel(pc: Pc) {
    pc.StartingModeration? || pc.StartingReport?
  }

  function Asked(pc: Pc): Operation
    requires AsksModel(pc)
  {
    if pc.StartingModeration? then MODERATION else REPORT_GENERATION
  }

  /** A worker's request for a moderation or report call: refused while one of the generation is in progress, refused for
      good once there are as many as allowed, and authorised otherwise under the next number until the job's deadline. */
  ghost predicate ModelCallAnswered(cfg: Config, s: Sys, after: Sys, t: Token, id: AttemptId)
    requires t in s.workers && AsksModel(s.workers[t].pc)
  {
    var w := s.workers[t];
    var operation := Asked(w.pc);
    var calls := CallsOf(s.db.attempts, w.generation, operation);
    if InProgress(s.db.attempts, calls, s.clock) then after == Goto(s, t, Failing(AttemptInProgress))
    else if |calls| >= cfg.MaximumCalls(operation) then after == Goto(s, t, Failing(BudgetExhausted))
    else
      && OneMore(s.db.attempts, after.db.attempts, calls, id, Attempt(w.generation, None, operation, |calls| + 1, STARTED, t, w.deadline))
      && after == Goto(s.(db := s.db.(attempts := after.db.attempts)), t,
                       if operation.MODERATION? then CallingModerator(id) else CallingReporter(id))
  }

  lemma CallsAreScope(attempts: map<AttemptId, Attempt>, g: GenerationId, operation: Operation)
    ensures CallsOf(attempts, g, operation) == Attempts.Scope(attempts, g, operation, None)
  {
  }

  lemma NextNumberIsFree(cfg: Config, attempts: map<AttemptId, Attempt>, g: GenerationId, operation: Operation)
    requires Budgeted(cfg, attempts)
    ensures NumberFree(attempts, CallsOf(attempts, g, operation), g)
  {
    CallsAreScope(attempts, g, operation);
    var calls := CallsOf(attempts, g, operation);
    assert Numbers(attempts, g, operation) == UpTo(|calls|);
    forall i | i in calls ensures attempts[i].number != |calls| + 1 {
      assert attempts[i].number in Numbers(attempts, g, operation);
    }
  }

  lemma StartCommits(cfg: Config, s: Sys, t: Token, id: AttemptId, audio: AssetId)
    requires t in s.workers && AsksModel(s.workers[t].pc)
    ensures var w := s.workers[t]; var operation := Asked(w.pc);
            WorkerNext(cfg, s, t, StartCall(id, audio))
            == match Attempts.StartAttempt(cfg, s.db, s.clock, id, w.generation, operation, None, t, w.deadline)
               case Err(e) => Goto(s, t, Failing(e))
               case Ok(db) => Goto(s.(db := db), t, if operation.MODERATION? then CallingModerator(id) else CallingReporter(id))
  {
  }

  lemma ModelCallIsAnswered(cfg: Config, s: Sys, t: Token, id: AttemptId, audio: AssetId)
    requires Budgeted(cfg, s.db.attempts) && t in s.workers && AsksModel(s.workers[t].pc)
    requires s.workers[t].generation in s.db.generations && id !in s.db.attempts
    ensures ModelCallAnswered(cfg, s, WorkerNext(cfg, s, t, StartCall(id, audio)), t, id)
  {
    var w := s.workers[t];
    var operation := Asked(w.pc);
    CallsAreScope(s.db.attempts, w.generation, operation);
    NextNumberIsFree(cfg, s.db.attempts, w.generation, operation);
    RequestIsAnswered(cfg, s.db, s.clock, id, w.generation, operation, None, t, w.deadline);
    StartCommits(cfg, s, t, id, audio);
  }

  /** In every reachable state. */
  lemma ModelCallsAreAnswered(cfg: Config, run: seq<Action>, t: Token, id: AttemptId, audio: AssetId)
    requires t in Reached(cfg, run).workers && AsksModel(Reached(cfg, run).workers[t].pc)
    requires Reached(cfg, run).workers[t].generation in Reached(cfg, run).db.generations && id !in Reached(cfg, run).db.attempts
    ensures ModelCallAnswered(cfg, Reached(cfg, run), WorkerNext(cfg, Reached(cfg, run), t, StartCall(id, audio)), t, id)
  {
    RunsAreBudgeted(cfg, run);
    ModelCallIsAnswered(cfg, Reached(cfg, run), t, id, audio);
  }

  // ----- transcriptions -----

  /** A transcription is budgeted by its asset, whichever generation asks. */
  lemma TranscriptionIsAnswered(cfg: Config, s: Sys, t: Token, id: AttemptId, audio: AssetId)
    requires t in s.workers && s.workers[t].pc.Transcribing? && s.workers[t].generation in s.db.generations
    requires audio in s.db.assets && id !in s.db.attempts
    ensures var w := s.workers[t]; var calls := CallsAbout(s.db.attempts, audio);
            var after := WorkerNext(cfg, s, t, StartCall(id, audio));
            if InProgress(s.db.attempts, calls, s.clock) then after == Goto(s, t, Failing(AttemptInProgress))
            else if |calls| >= cfg.maxTranscriptions then after == Goto(s, t, Failing(BudgetExhausted))
            else if !NumberFree(s.db.attempts, calls, w.generation) then after == Goto(s, t, Failing(Constraint))
            else
              && OneMore(s.db.attempts, after.db.attempts, calls, id,
                         Attempt(w.generation, Some(audio), TRANSCRIPTION, |calls| + 1, STARTED, t, w.deadline))
              && after == Goto(s.(db := s.db.(attempts := after.db.attempts)), t, CallingTranscriber(id))
  {
    var w := s.workers[t];
    assert CallsAbout(s.db.attempts, audio) == Attempts.Scope(s.db.attempts, w.generation, TRANSCRIPTION, Some(audio));
    RequestIsAnswered(cfg, s.db, s.clock, id, w.generation, TRANSCRIPTION, Some(audio), t, w.deadline);
  }

  // ----- the end of a call -----

  /** The call that a worker waits for a usable answer of. */
  predicate Waits(pc: Pc, id: AttemptId) {
    pc == CallingTranscriber(id) || pc == CallingModerator(id)
  }

  /** A usable answer of a transcription or a moderation is recorded exactly while the worker owns its generation and its
      call is started and within its lease; nothing else changes, and the worker goes on or fails. */
  lemma AnswerRecordedIff(cfg: Config, s: Sys, t: Token, id: AttemptId, content: Content)
    requires t in s.workers && Waits(s.workers[t].pc, id)
    ensures var after := WorkerNext(cfg, s, t, FinishCall(content));
            if Owns(s, t) && id in s.db.attempts
               && s.db.attempts[id].token == t && s.db.attempts[id].status.STARTED? && s.clock < s.db.attempts[id].lease
            then after == Goto(s.(db := s.db.(attempts := s.db.attempts[id := s.db.attempts[id].(status := COMPLETED)])), t,
                               if s.workers[t].pc.CallingTranscriber? then Transcribing else PreparingContent)
            else after == Goto(s, t, if s.workers[t].pc.CallingTranscriber? then Failing(ClaimLost) else AbandoningAttempt(id, ClaimLost))
  {
  }

  /** A worker whose provider does not answer goes on to close its call, but for a transcription of a generation that is no
      longer under its token. */
  lemma NoAnswerLeads(cfg: Config, s: Sys, t: Token, id: AttemptId, error: Error)
    requires t in s.workers && (Waits(s.workers[t].pc, id) || s.workers[t].pc == CallingReporter(id))
    ensures var w := s.workers[t];
            var lost := w.pc.CallingTranscriber?
                        && !(w.generation in s.db.generations && s.db.generations[w.generation].status.Processing?
                             && s.db.generations[w.generation].token == Some(t));
            WorkerNext(cfg, s, t, CallFails(error)) == Goto(s, t, if lost then Failing(ClaimLost) else AbandoningAttempt(id, error))
  {
  }

  /** A failed call is closed, if it is this worker's and still started, and the worker fails with the error. */
  lemma FailedCallIsClosed(cfg: Config, s: Sys, t: Token, id: AttemptId, error: Error)
    requires t in s.workers && s.workers[t].pc == AbandoningAttempt(id, error)
    ensures WorkerNext(cfg, s, t, Abandon)
            == Goto(if id in s.db.attempts && s.db.attempts[id].token == t && s.db.attempts[id].status.STARTED?
                    then s.(db := s.db.(attempts := s.db.attempts[id := s.db.attempts[id].(status := ABORTED)])) else s, t, Failing(error))
  {
  }

  /** A closed call is in nobody's way: at any later time another one of its generation and kind is authorised as long as
      the budget lasts. */
  lemma ClosedCallUnblocks(cfg: Config, run: seq<Action>, t: Token, id: AttemptId, error: Error, next: AttemptId, now: Time, u: Token, lease: Time)
    requires var s := Reached(cfg, run);
             && t in s.workers && s.workers[t].pc == AbandoningAttempt(id, error)
             && id in s.db.attempts && s.db.attempts[id].token == t && s.db.attempts[id].status.STARTED? && s.db.attempts[id].asset.None?
             && s.db.attempts[id].generation in s.db.generations && next !in s.db.attempts
    ensures var s := Reached(cfg, run); var row := s.db.attempts[id]; var after := WorkerNext(cfg, s, t, Abandon);
            var calls := CallsOf(s.db.attempts, row.generation, row.operation);
            Attempts.StartAttempt(cfg, after.db, now, next, row.generation, row.operation, None, u, lease).Ok?
            <==> |calls| < cfg.MaximumCalls(row.operation)
  {
    var s := Reached(cfg, run);
    var row := s.db.attempts[id];
    RunsAreBudgeted(cfg, run);
    FailedCallIsClosed(cfg, s, t, id, error);
    var attempts := s.db.attempts[id := row.(status := ABORTED)];
    StatusKeepsBudget(cfg, s.db.attempts, attempts);
    NothingStarted(cfg, s.db.attempts, id);
    CallsAreScope(attempts, row.generation, row.operation);
    assert CallsOf(attempts, row.generation, row.operation) == CallsOf(s.db.attempts, row.generation, row.operation);
    NextNumberIsFree(cfg, attempts, row.generation, row.operation);
    RequestIsAnswered(cfg, s.db.(attempts := attempts), now, next, row.generation, row.operation, None, u, lease);
  }

  lemma NothingStarted(cfg: Config, attempts: map<AttemptId, Attempt>, id: AttemptId)
    requires Budgeted(cfg, attempts) && id in attempts && attempts[id].status.STARTED? && attempts[id].asset.None?
    ensures var after := attempts[id := attempts[id].(status := ABORTED)];
            forall i | i in CallsOf(after, attempts[id].generation, attempts[id].operation) :: !after[i].status.STARTED?
  {
    var after := attempts[id := attempts[id].(status := ABORTED)];
    forall i | i in CallsOf(after, attempts[id].generation, attempts[id].operation) ensures !after[i].status.STARTED? {
      if i != id && attempts[i].status.STARTED? {
        assert SameScope(attempts[i], attempts[id]);
        assert false;
      }
    }
  }
}
