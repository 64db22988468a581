/** What a worker that still holds its generation may rely on at each point of
    its program, and from it: paid work is never redone. */
module WorkLaws {
  import opened Rows
  import opened Attempts
  import opened Processing
  import opened Protocol

  /** The worker's token is the one on the generation's row. */
  predicate Holds(generations: map<GenerationId, Generation>, t: Token, w: Worker) {
    w.generation in generations && generations[w.generation].token == Some(t)
  }

  predicate HasRead(pc: Pc) {
    !pc.Reading? && !pc.AbandoningAttempt? && !pc.Failing? && !pc.Recovering? && !pc.Stopped?
  }

  predicate PastModeration(pc: Pc) {
    pc.PreparingContent? || pc.StartingReport? || pc.CallingReporter? || PastContent(pc)
  }

  predicate PastContent(pc: Pc) {
    pc.Rendering? || pc.Uploading? || pc.VerifyingUpload? || pc.Publishing?
  }

  /** A provider call that the worker started is recorded under its generation and operation. */
  predicate CallIs(attempts: map<AttemptId, Attempt>, id: AttemptId, t: Token, g: GenerationId, operation: Operation) {
    id in attempts && attempts[id].token == t ==>
      attempts[id].operation == operation && attempts[id].generation == g && (operation.TRANSCRIPTION? <==> attempts[id].asset.Some?)
  }

  predicate CallsFit(attempts: map<AttemptId, Attempt>, t: Token, w: Worker) {
    match w.pc
    case CallingTranscriber(id) => CallIs(attempts, id, t, w.generation, TRANSCRIPTION)
    case CallingModerator(id) => CallIs(attempts, id, t, w.generation, MODERATION)
    case CallingReporter(id) => CallIs(attempts, id, t, w.generation, REPORT_GENERATION)
    case _ => true
  }

  ghost predicate KnowledgeFits(generations: map<GenerationId, Generation>, attempts: map<AttemptId, Attempt>, t: Token, w: Worker) {
    Holds(generations, t, w) ==>
      var row := generations[w.generation];
      && (HasRead(w.pc) ==> w.report == row.report && w.user == row.user)
      && (HasRead(w.pc) && !PastContent(w.pc) ==> w.hasResult == row.structured.Some?)
      && (w.pc.StartingReport? || w.pc.CallingReporter? ==> !w.hasResult)
      && (w.pc.StartingModeration? || w.pc.CallingModerator? ==> !HasCompleted(attempts, w.generation, MODERATION))
      && (PastModeration(w.pc) ==> HasCompleted(attempts, w.generation, MODERATION))
      && (PastContent(w.pc) ==> row.structured.Some?)
  }

  ghost predicate WorkerFits(generations: map<GenerationId, Generation>, attempts: map<AttemptId, Attempt>, workers: map<Token, Worker>, t: Token)
    requires t in workers
  {
    KnowledgeFits(generations, attempts, t, workers[t]) && CallsFit(attempts, t, workers[t])
  }

  predicate HolderFits(generations: map<GenerationId, Generation>, workers: map<Token, Worker>, g: GenerationId)
    requires g in generations
  {
    generations[g].token.Some? ==> generations[g].token.value in workers && workers[generations[g].token.value].generation == g
  }

  /** One paid result: at most one COMPLETED moderation and at most one COMPLETED report attempt. */
  ghost predicate OneCompleted(attempts: map<AttemptId, Attempt>) {
    forall i, j | i in attempts && j in attempts && attempts[i].status.COMPLETED? && attempts[j].status.COMPLETED?
                  && attempts[i].asset.None? && attempts[j].asset.None?
                  && attempts[i].generation == attempts[j].generation && attempts[i].operation == attempts[j].operation :: i == j
  }

  ghost predicate ResultFits(generations: map<GenerationId, Generation>, attempts: map<AttemptId, Attempt>, g: GenerationId)
    requires g in generations
  {
    generations[g].structured.Some? <==> HasCompleted(attempts, g, REPORT_GENERATION)
  }

  predicate AttemptFits(generations: map<GenerationId, Generation>, attempts: map<AttemptId, Attempt>, id: AttemptId)
    requires id in attempts
  {
    attempts[id].generation in generations && (attempts[id].operation.TRANSCRIPTION? <==> attempts[id].asset.Some?)
  }

  ghost predicate OutputIsPaid(generations: map<GenerationId, Generation>, attempts: map<AttemptId, Attempt>, output: Output) {
    && output.generation in generations
    && generations[output.generation].structured.Some?
    && HasCompleted(attempts, output.generation, MODERATION)
  }

  ghost predicate Work(generations: map<GenerationId, Generation>, attempts: map<AttemptId, Attempt>, outputs: map<ReportId, Output>,
                       workers: map<Token, Worker>) {
    && (forall g | g in generations :: HolderFits(generations, workers, g))
    && (forall g | g in generations :: ResultFits(generations, attempts, g))
    && (forall t | t in workers :: WorkerFits(generations, attempts, workers, t))
    && (forall id | id in attempts :: AttemptFits(generations, attempts, id))
    && (forall r | r in outputs :: OutputIsPaid(generations, attempts, outputs[r]))
    && OneCompleted(attempts)
  }

  ghost predicate WorkIn(s: Sys) {
    Work(s.db.generations, s.db.attempts, s.db.outputs, s.workers)
  }

  // ----- changes that take nothing away from a holder -----

  /** A row that stays keeps its report, user and result and keeps or loses its token; a new row starts blank. */
  predicate RowFades(generations: map<GenerationId, Generation>, attempts: map<AttemptId, Attempt>, row: Generation, g: GenerationId) {
    if g in generations then
      && row.report == generations[g].report && row.user == generations[g].user && row.structured == generations[g].structured
      && (row.token == generations[g].token || row.token.None?)
    else
      && row.token.None? && row.structured.None?
      && forall id | id in attempts :: attempts[id].generation != g
  }

  predicate AttemptFades(attempts: map<AttemptId, Attempt>, attempt: Attempt, id: AttemptId) {
    && id in attempts
    && (attempt == attempts[id] || (attempts[id].status.STARTED? && attempt == attempts[id].(status := ABORTED)))
  }

  ghost predicate Fades(db: Db, after: Db) {
    && (forall g | g in after.generations :: RowFades(db.generations, db.attempts, after.generations[g], g))
    && (forall id | id in after.attempts :: AttemptFades(db.attempts, after.attempts[id], id))
    && (forall id | id in after.attempts :: after.attempts[id].generation in after.generations)
    && (forall id | id in db.attempts && id !in after.attempts ::
          db.attempts[id].generation !in after.generations || db.attempts[id].asset.Some?)
    && (forall r | r in after.outputs :: r in db.outputs && after.outputs[r] == db.outputs[r]
                                          && after.outputs[r].generation in after.generations)
  }

  lemma CompletionFades(db: Db, after: Db, g: GenerationId, operation: Operation)
    requires Fades(db, after) && g in after.generations
    ensures HasCompleted(after.attempts, g, operation) <==> HasCompleted(db.attempts, g, operation)
  {
    if HasCompleted(db.attempts, g, operation) {
      var id :| id in db.attempts && Completes(db.attempts[id], g, operation);
      assert id in after.attempts;
      assert AttemptFades(db.attempts, after.attempts[id], id);
      assert Completes(after.attempts[id], g, operation);
    }
    if HasCompleted(after.attempts, g, operation) {
      var id :| id in after.attempts && Completes(after.attempts[id], g, operation);
      assert AttemptFades(db.attempts, after.attempts[id], id);
      assert Completes(db.attempts[id], g, operation);
    }
  }

  lemma FadingKeepsWork(db: Db, after: Db, workers: map<Token, Worker>)
    requires Work(db.generations, db.attempts, db.outputs, workers) && Fades(db, after)
    ensures Work(after.generations, after.attempts, after.outputs, workers)
  {
    forall g | g in after.generations
      ensures HolderFits(after.generations, workers, g) && ResultFits(after.generations, after.attempts, g)
    {
      assert RowFades(db.generations, db.attempts, after.generations[g], g);
      CompletionFades(db, after, g, REPORT_GENERATION);
      if g in db.generations {
        assert HolderFits(db.generations, workers, g) && ResultFits(db.generations, db.attempts, g);
      }
    }
    forall t | t in workers ensures WorkerFits(after.generations, after.attempts, workers, t) {
      FadingKeepsWorker(db, after, t, workers);
    }
    forall id | id in after.attempts ensures AttemptFits(after.generations, after.attempts, id) {
      assert AttemptFades(db.attempts, after.attempts[id], id);
      assert AttemptFits(db.generations, db.attempts, id);
    }
    forall r | r in after.outputs ensures OutputIsPaid(after.generations, after.attempts, after.outputs[r]) {
      assert OutputIsPaid(db.generations, db.attempts, db.outputs[r]);
      CompletionFades(db, after, after.outputs[r].generation, MODERATION);
      assert RowFades(db.generations, db.attempts, after.generations[after.outputs[r].generation], after.outputs[r].generation);
    }
    forall i, j | i in after.attempts && j in after.attempts
                  && after.attempts[i].status.COMPLETED? && after.attempts[j].status.COMPLETED?
                  && after.attempts[i].asset.None? && after.attempts[j].asset.None?
                  && after.attempts[i].generation == after.attempts[j].generation && after.attempts[i].operation == after.attempts[j].operation
      ensures i == j
    {
      assert AttemptFades(db.attempts, after.attempts[i], i) && AttemptFades(db.attempts, after.attempts[j], j);
    }
  }

  lemma FadingKeepsWorker(db: Db, after: Db, t: Token, workers: map<Token, Worker>)
    requires t in workers && WorkerFits(db.generations, db.attempts, workers, t) && Fades(db, after)
    ensures WorkerFits(after.generations, after.attempts, workers, t)
  {
    var w := workers[t];
    if Holds(after.generations, t, w) {
      assert RowFades(db.generations, db.attempts, after.generations[w.generation], w.generation);
      CompletionFades(db, after, w.generation, MODERATION);
    }
    assert forall id | id in after.attempts :: AttemptFades(db.attempts, after.attempts[id], id);
  }

  // ----- one worker moves on -----

  lemma MovingOnKeepsWork(db: Db, workers: map<Token, Worker>, t: Token, w: Worker)
    requires Work(db.generations, db.attempts, db.outputs, workers)
    requires t in workers && w.generation == workers[t].generation
    requires KnowledgeFits(db.generations, db.attempts, t, w) && CallsFit(db.attempts, t, w)
    ensures Work(db.generations, db.attempts, db.outputs, workers[t := w])
  {
    var workers' := workers[t := w];
    forall g | g in db.generations ensures HolderFits(db.generations, workers', g) {
      assert HolderFits(db.generations, workers, g);
    }
    forall u | u in workers' ensures WorkerFits(db.generations, db.attempts, workers', u) {
      assert u != t ==> WorkerFits(db.generations, db.attempts, workers, u);
    }
  }

  lemma RenewFades(cfg: Config, db: Db, now: Time, g: GenerationId, t: Token)
    requires Renew(cfg, db, now, g, t).Some?
    requires forall id | id in db.attempts :: AttemptFits(db.generations, db.attempts, id)
    requires forall r | r in db.outputs :: OutputIsPaid(db.generations, db.attempts, db.outputs[r])
    ensures Fades(db, Renew(cfg, db, now, g, t).value)
  {
    forall id | id in db.attempts ensures db.attempts[id].generation in db.generations {
      assert AttemptFits(db.generations, db.attempts, id);
    }
  }

  /** A worker that gave up relies on nothing. */
  lemma GivingUpKeepsWork(s: Sys, after: Sys, t: Token)
    requires WorkIn(s) && t in s.workers && t in after.workers && after.workers == s.workers[t := after.workers[t]]
    requires after.db.generations == s.db.generations && after.db.attempts == s.db.attempts && after.db.outputs == s.db.outputs
    requires after.workers[t].generation == s.workers[t].generation
    requires var pc := after.workers[t].pc;
             after == s || pc.Failing? || pc.Recovering? || pc.Stopped? || pc.AbandoningAttempt?
    ensures WorkIn(after)
  {
    if after != s {
      MovingOnKeepsWork(s.db, s.workers, t, after.workers[t]);
    }
  }

  lemma ReadKeepsWork(s: Sys, t: Token)
    requires WorkIn(s) && t in s.workers
    ensures WorkIn(ReadStep(s, t))
  {
    var after := ReadStep(s, t);
    assert WorkerFits(s.db.generations, s.db.attempts, s.workers, t);
    MovingOnKeepsWork(s.db, s.workers, t, after.workers[t]);
    assert after.workers == s.workers[t := after.workers[t]];
  }

  lemma CheckKeepsWork(s: Sys, t: Token)
    requires WorkIn(s) && t in s.workers
    ensures WorkIn(CheckStep(s, t))
  {
    var after := CheckStep(s, t);
    assert WorkerFits(s.db.generations, s.db.attempts, s.workers, t);
    MovingOnKeepsWork(s.db, s.workers, t, after.workers[t]);
    assert after.workers == s.workers[t := after.workers[t]];
  }

  lemma PutKeepsWork(s: Sys, t: Token, size: nat)
    requires WorkIn(s) && t in s.workers
    ensures WorkIn(PutStep(s, t, size))
  {
    assert WorkerFits(s.db.generations, s.db.attempts, s.workers, t);
    var put := PutStep(s, t, size).workers[t];
    MovingOnKeepsWork(s.db, s.workers, t, put);
    assert PutStep(s, t, size).workers == s.workers[t := put];
  }

  lemma HeadKeepsWork(s: Sys, t: Token, answered: bool)
    requires WorkIn(s) && t in s.workers
    ensures WorkIn(HeadStep(s, t, answered))
  {
    assert WorkerFits(s.db.generations, s.db.attempts, s.workers, t);
    var head := HeadStep(s, t, answered).workers[t];
    MovingOnKeepsWork(s.db, s.workers, t, head);
    assert HeadStep(s, t, answered).workers == s.workers[t := head];
  }

  lemma HeartbeatKeepsWork(cfg: Config, s: Sys, t: Token)
    requires WorkIn(s) && t in s.workers
    ensures WorkIn(HeartbeatStep(cfg, s, t))
  {
    var g := s.workers[t].generation;
    if Renew(cfg, s.db, s.clock, g, t).Some? {
      RenewFades(cfg, s.db, s.clock, g, t);
      FadingKeepsWork(s.db, Renew(cfg, s.db, s.clock, g, t).value, s.workers);
    }
  }

  lemma LostProgressKeepsWork(cfg: Config, s: Sys, t: Token, advance: bool)
    requires WorkIn(s) && t in s.workers && Renew(cfg, s.db, s.clock, s.workers[t].generation, t).None?
    ensures WorkIn(ProgressStep(cfg, s, t, advance))
  {
    GivingUpKeepsWork(s, ProgressStep(cfg, s, t, advance), t);
  }

  lemma RenewedKeepsWork(cfg: Config, s: Sys, t: Token)
    requires WorkIn(s) && t in s.workers && Renew(cfg, s.db, s.clock, s.workers[t].generation, t).Some?
    ensures var db := Renew(cfg, s.db, s.clock, s.workers[t].generation, t).value;
            Work(db.generations, db.attempts, db.outputs, s.workers) && WorkerFits(db.generations, db.attempts, s.workers, t)
  {
    RenewFades(cfg, s.db, s.clock, s.workers[t].generation, t);
    FadingKeepsWork(s.db, Renew(cfg, s.db, s.clock, s.workers[t].generation, t).value, s.workers);
  }

  lemma ProgressKeepsWork(cfg: Config, s: Sys, t: Token, advance: bool)
    requires WorkIn(s) && t in s.workers
    ensures WorkIn(ProgressStep(cfg, s, t, advance))
  {
    var after := ProgressStep(cfg, s, t, advance);
    if Renew(cfg, s.db, s.clock, s.workers[t].generation, t).None? {
      LostProgressKeepsWork(cfg, s, t, advance);
    } else if after != s {
      RenewedKeepsWork(cfg, s, t);
      var w := after.workers[t];
      AdvancingFits(after.db, s.workers, t, w);
      MovingOnKeepsWork(after.db, s.workers, t, w);
      assert after.workers == s.workers[t := w];
    }
  }

  lemma AdvancingFits(db: Db, workers: map<Token, Worker>, t: Token, w: Worker)
    requires t in workers && WorkerFits(db.generations, db.attempts, workers, t)
    requires var before := workers[t];
             && (before.pc.Transcribing? || before.pc.PreparingContent? || before.pc.Rendering?)
             && w == before.(pc := w.pc)
             && (w.pc == before.pc
                 || w.pc == (if before.pc.Transcribing? then CheckingModeration
                             else if before.pc.PreparingContent? then (if before.hasResult then Rendering else StartingReport) else Uploading))
    ensures KnowledgeFits(db.generations, db.attempts, t, w) && CallsFit(db.attempts, t, w)
  {
  }

  // ----- provider calls -----

  lemma ClosingFades(db: Db, now: Time, g: GenerationId, operation: Operation, asset: Option<AssetId>)
    requires forall id | id in db.attempts :: AttemptFits(db.generations, db.attempts, id)
    requires forall r | r in db.outputs :: OutputIsPaid(db.generations, db.attempts, db.outputs[r])
    ensures Fades(db, db.(attempts := CloseStale(db.attempts, g, operation, asset, now)))
  {
    var closed := CloseStale(db.attempts, g, operation, asset, now);
    forall id | id in closed ensures AttemptFades(db.attempts, closed[id], id) && closed[id].generation in db.generations {
      assert AttemptFits(db.generations, db.attempts, id);
    }
    forall h | h in db.generations ensures RowFades(db.generations, db.attempts, db.generations[h], h) {}
  }

  /** A fresh STARTED attempt of a worker that waits for none. */
  lemma StartedAttemptKeepsWork(db: Db, workers: map<Token, Worker>, id: AttemptId, attempt: Attempt)
    requires Work(db.generations, db.attempts, db.outputs, workers)
    requires id !in db.attempts && attempt.status.STARTED? && attempt.generation in db.generations
    requires attempt.operation.TRANSCRIPTION? <==> attempt.asset.Some?
    requires attempt.token in workers && workers[attempt.token].pc.Stopped?
    ensures Work(db.generations, db.attempts[id := attempt], db.outputs, workers)
  {
    var attempts' := db.attempts[id := attempt];
    forall h, operation ensures HasCompleted(attempts', h, operation) <==> HasCompleted(db.attempts, h, operation) {
      if HasCompleted(db.attempts, h, operation) {
        var i :| i in db.attempts && Completes(db.attempts[i], h, operation);
        assert i in attempts' && Completes(attempts'[i], h, operation);
      }
    }
    forall h | h in db.generations ensures ResultFits(db.generations, attempts', h) {
      assert ResultFits(db.generations, db.attempts, h);
    }
    forall u | u in workers ensures WorkerFits(db.generations, attempts', workers, u) {
      assert WorkerFits(db.generations, db.attempts, workers, u);
    }
    forall i | i in attempts' ensures AttemptFits(db.generations, attempts', i) {
      assert i != id ==> AttemptFits(db.generations, db.attempts, i);
    }
    forall r | r in db.outputs ensures OutputIsPaid(db.generations, attempts', db.outputs[r]) {
      assert OutputIsPaid(db.generations, db.attempts, db.outputs[r]);
    }
  }

  lemma StartCallKeepsWork(cfg: Config, s: Sys, t: Token, id: AttemptId, audio: AssetId)
    requires WorkIn(s) && t in s.workers
    ensures WorkIn(StartCallStep(cfg, s, t, id, audio))
  {
    var w := s.workers[t];
    var after := StartCallStep(cfg, s, t, id, audio);
    assert WorkerFits(s.db.generations, s.db.attempts, s.workers, t);
    if after.db == s.db {
      GivingUpKeepsWork(s, after, t);
    } else {
      StartedCallKeepsWork(cfg, s, t, id, audio);
    }
  }

  /** What an authorised call left behind: the closed rows, one more attempt, and a worker that waits for it. */
  lemma StartedRows(cfg: Config, db: Db, now: Time, id: AttemptId, g: GenerationId, operation: Operation, asset: Option<AssetId>, t: Token,
                    lease: Time) returns (attempt: Attempt)
    requires StartAttempt(cfg, db, now, id, g, operation, asset, t, lease).Ok?
    ensures var closed := CloseStale(db.attempts, g, operation, asset, now);
            id !in closed && StartAttempt(cfg, db, now, id, g, operation, asset, t, lease).value == db.(attempts := closed[id := attempt])
    ensures attempt.status.STARTED? && attempt.generation == g && g in db.generations && attempt.token == t
    ensures attempt.operation == operation && attempt.asset == asset
  {
    attempt := StartAttempt(cfg, db, now, id, g, operation, asset, t, lease).value.attempts[id];
  }

  /** What a worker that stands before a call asks for. */
  predicate AsksFor(w: Worker, audio: AssetId, operation: Operation, asset: Option<AssetId>) {
    match w.pc
    case Transcribing => operation.TRANSCRIPTION? && asset == Some(audio)
    case StartingModeration => operation.MODERATION? && asset.None?
    case StartingReport => operation.REPORT_GENERATION? && asset.None?
    case _ => false
  }

  function InCall(operation: Operation, id: AttemptId): Pc {
    match operation
    case TRANSCRIPTION => CallingTranscriber(id)
    case MODERATION => CallingModerator(id)
    case REPORT_GENERATION => CallingReporter(id)
  }

  lemma CallGoesOn(cfg: Config, s: Sys, t: Token, id: AttemptId, audio: AssetId, operation: Operation, asset: Option<AssetId>)
    requires t in s.workers && AsksFor(s.workers[t], audio, operation, asset)
    ensures match StartAttempt(cfg, s.db, s.clock, id, s.workers[t].generation, operation, asset, t, s.workers[t].deadline)
            case Ok(db) => StartCallStep(cfg, s, t, id, audio) == Goto(s.(db := db), t, InCall(operation, id))
            case Err(_) => StartCallStep(cfg, s, t, id, audio).db == s.db
  {
  }

  lemma StartedCallRows(cfg: Config, s: Sys, t: Token, id: AttemptId, audio: AssetId)
    returns (operation: Operation, asset: Option<AssetId>, attempt: Attempt)
    requires t in s.workers && StartCallStep(cfg, s, t, id, audio).db != s.db
    ensures var after := StartCallStep(cfg, s, t, id, audio); var w := s.workers[t];
            var closed := s.db.(attempts := CloseStale(s.db.attempts, w.generation, operation, asset, s.clock));
            && id !in closed.attempts && after.db == closed.(attempts := closed.attempts[id := attempt])
            && attempt.status.STARTED? && attempt.generation in s.db.generations && attempt.token == t
            && t in after.workers && after.workers == s.workers[t := after.workers[t]]
            && Begins(w, id, attempt, after.workers[t])
  {
    var w := s.workers[t];
    operation := if w.pc.Transcribing? then TRANSCRIPTION else if w.pc.StartingModeration? then MODERATION else REPORT_GENERATION;
    asset := if w.pc.Transcribing? then Some(audio) else None;
    assert AsksFor(w, audio, operation, asset);
    CallGoesOn(cfg, s, t, id, audio, operation, asset);
    attempt := StartedRows(cfg, s.db, s.clock, id, w.generation, operation, asset, t, w.deadline);
  }

  lemma StartedCallKeepsWork(cfg: Config, s: Sys, t: Token, id: AttemptId, audio: AssetId)
    requires WorkIn(s) && t in s.workers && StartCallStep(cfg, s, t, id, audio).db != s.db
    ensures WorkIn(StartCallStep(cfg, s, t, id, audio))
  {
    var operation, asset, attempt := StartedCallRows(cfg, s, t, id, audio);
    AuthorisedCallKeepsWork(s, StartCallStep(cfg, s, t, id, audio), t, id, operation, asset, attempt);
  }

  lemma AuthorisedCallKeepsWork(s: Sys, after: Sys, t: Token, id: AttemptId, operation: Operation, asset: Option<AssetId>, attempt: Attempt)
    requires WorkIn(s) && t in s.workers && t in after.workers && after.workers == s.workers[t := after.workers[t]]
    requires var closed := s.db.(attempts := CloseStale(s.db.attempts, s.workers[t].generation, operation, asset, s.clock));
             id !in closed.attempts && after.db == closed.(attempts := closed.attempts[id := attempt])
    requires attempt.status.STARTED? && attempt.generation in s.db.generations && attempt.token == t
    requires Begins(s.workers[t], id, attempt, after.workers[t])
    ensures WorkIn(after)
  {
    var closed := s.db.(attempts := CloseStale(s.db.attempts, s.workers[t].generation, operation, asset, s.clock));
    ClosingFades(s.db, s.clock, s.workers[t].generation, operation, asset);
    FadingKeepsWork(s.db, closed, s.workers);
    CallStarts(closed, after.db, s.workers, t, id, attempt, after.workers[t]);
  }

  lemma CallStarts(closed: Db, after: Db, workers: map<Token, Worker>, t: Token, id: AttemptId, attempt: Attempt, calling: Worker)
    requires Work(closed.generations, closed.attempts, closed.outputs, workers) && t in workers
    requires id !in closed.attempts && after == closed.(attempts := closed.attempts[id := attempt])
    requires attempt.status.STARTED? && attempt.generation in closed.generations && attempt.token == t
    requires Begins(workers[t], id, attempt, calling)
    ensures Work(after.generations, after.attempts, after.outputs, workers[t := calling])
  {
    var w := workers[t];
    var resting := w.(pc := Stopped);
    assert WorkerFits(closed.generations, closed.attempts, workers, t);
    MovingOnKeepsWork(closed, workers, t, resting);
    StartedAttemptKeepsWork(closed, workers[t := resting], id, attempt);
    CallingFits(closed, after, id, attempt, t, w, calling);
    MovingOnKeepsWork(after, workers[t := resting], t, calling);
    assert workers[t := calling] == workers[t := resting][t := calling];
  }

  predicate Begins(w: Worker, id: AttemptId, attempt: Attempt, calling: Worker) {
    && attempt.generation == w.generation
    && (attempt.operation.TRANSCRIPTION? <==> attempt.asset.Some?)
    && (match w.pc
        case Transcribing => attempt.operation.TRANSCRIPTION? && calling == w.(pc := CallingTranscriber(id))
        case StartingModeration => attempt.operation.MODERATION? && calling == w.(pc := CallingModerator(id))
        case StartingReport => attempt.operation.REPORT_GENERATION? && calling == w.(pc := CallingReporter(id))
        case _ => false)
  }

  lemma CallingFits(closed: Db, after: Db, id: AttemptId, attempt: Attempt, t: Token, w: Worker, calling: Worker)
    requires KnowledgeFits(closed.generations, closed.attempts, t, w)
    requires id !in closed.attempts && after == closed.(attempts := closed.attempts[id := attempt])
    requires attempt.status.STARTED? && Begins(w, id, attempt, calling)
    ensures KnowledgeFits(after.generations, after.attempts, t, calling) && CallsFit(after.attempts, t, calling)
  {
    forall h, operation ensures HasCompleted(after.attempts, h, operation) <==> HasCompleted(closed.attempts, h, operation) {
      if HasCompleted(closed.attempts, h, operation) {
        var i :| i in closed.attempts && Completes(closed.attempts[i], h, operation);
        assert i in after.attempts && Completes(after.attempts[i], h, operation);
      }
    }
  }

  lemma AbandonKeepsWork(s: Sys, t: Token)
    requires WorkIn(s) && t in s.workers
    ensures WorkIn(AbandonStep(s, t))
  {
    var w := s.workers[t];
    if w.pc.AbandoningAttempt? {
      var db := FailAttempt(s.db, w.pc.attempt, t);
      var after := AbandonStep(s, t);
      forall id | id in db.attempts ensures AttemptFades(s.db.attempts, db.attempts[id], id) && db.attempts[id].generation in db.generations {
        assert AttemptFits(s.db.generations, s.db.attempts, id);
      }
      forall r | r in s.db.outputs ensures s.db.outputs[r].generation in s.db.generations {
        assert OutputIsPaid(s.db.generations, s.db.attempts, s.db.outputs[r]);
      }
      assert Fades(s.db, db);
      FadingKeepsWork(s.db, db, s.workers);
      MovingOnKeepsWork(db, s.workers, t, after.workers[t]);
      assert after.workers == s.workers[t := after.workers[t]];
    }
  }

  // ----- recorded results -----

  /** What completing one attempt changes about completion. */
  lemma CompletionAdds(attempts: map<AttemptId, Attempt>, id: AttemptId, h: GenerationId, operation: Operation)
    requires id in attempts && attempts[id].status.STARTED?
    ensures HasCompleted(attempts[id := attempts[id].(status := COMPLETED)], h, operation) <==>
            HasCompleted(attempts, h, operation)
            || (attempts[id].asset.None? && attempts[id].generation == h && attempts[id].operation == operation)
  {
    var attempts' := attempts[id := attempts[id].(status := COMPLETED)];
    if HasCompleted(attempts, h, operation) {
      var i :| i in attempts && Completes(attempts[i], h, operation);
      assert i in attempts' && Completes(attempts'[i], h, operation);
    }
    if attempts[id].asset.None? && attempts[id].generation == h && attempts[id].operation == operation {
      assert Completes(attempts'[id], h, operation);
    }
    if HasCompleted(attempts', h, operation) {
      var i :| i in attempts' && Completes(attempts'[i], h, operation);
      assert i != id ==> Completes(attempts[i], h, operation);
    }
  }

  lemma CompletionIsUnique(attempts: map<AttemptId, Attempt>, id: AttemptId)
    requires OneCompleted(attempts) && id in attempts && attempts[id].status.STARTED?
    requires attempts[id].asset.None? ==> !HasCompleted(attempts, attempts[id].generation, attempts[id].operation)
    ensures OneCompleted(attempts[id := attempts[id].(status := COMPLETED)])
  {
    assert forall i | i in attempts && attempts[i].status.COMPLETED? && attempts[i].asset.None?
             :: Completes(attempts[i], attempts[i].generation, attempts[i].operation);
  }

  predicate RowKept(generations: map<GenerationId, Generation>, row: Generation, h: GenerationId, t: Token) {
    && h in generations && row.token == generations[h].token
    && row.report == generations[h].report && row.user == generations[h].user
    && (generations[h].token != Some(t) ==> row.structured == generations[h].structured)
  }

  /** The one worker that holds g records a result; nobody else can rely on the absence of that result. */
  lemma RecordingKeepsOthers(db: Db, after: Db, workers: map<Token, Worker>, t: Token, u: Token, id: AttemptId)
    requires u in workers && u != t && WorkerFits(db.generations, db.attempts, workers, u)
    requires id in db.attempts && db.attempts[id].status.STARTED?
    requires after.attempts == db.attempts[id := db.attempts[id].(status := COMPLETED)]
    requires var g := db.attempts[id].generation; var w := workers[u];
             db.attempts[id].asset.None? ==> g in db.generations && db.generations[g].token == Some(t)
    requires forall h | h in after.generations :: RowKept(db.generations, after.generations[h], h, t)
    ensures WorkerFits(after.generations, after.attempts, workers, u)
  {
    CompletionAdds(db.attempts, id, workers[u].generation, MODERATION);
  }

  lemma FinishTranscriptionKeepsWork(db: Db, workers: map<Token, Worker>, t: Token, id: AttemptId)
    requires Work(db.generations, db.attempts, db.outputs, workers)
    requires t in workers && workers[t].pc == CallingTranscriber(id)
    requires id in db.attempts && db.attempts[id].token == t && db.attempts[id].status.STARTED?
    ensures Work(db.generations, db.attempts[id := db.attempts[id].(status := COMPLETED)], db.outputs,
                 workers[t := workers[t].(pc := Transcribing)])
  {
    var after := db.(attempts := db.attempts[id := db.attempts[id].(status := COMPLETED)]);
    var w := workers[t].(pc := Transcribing);
    assert WorkerFits(db.generations, db.attempts, workers, t);
    MovingOnKeepsWork(db, workers, t, w);
    var workers' := workers[t := w];
    CompletionIsUnique(db.attempts, id);
    forall u | u in workers' ensures WorkerFits(after.generations, after.attempts, workers', u) {
      CompletionAdds(db.attempts, id, workers'[u].generation, MODERATION);
      assert WorkerFits(db.generations, db.attempts, workers', u);
    }
    forall h | h in db.generations ensures ResultFits(db.generations, after.attempts, h) {
      CompletionAdds(db.attempts, id, h, REPORT_GENERATION);
      assert ResultFits(db.generations, db.attempts, h);
    }
    RecordingKeepsRows(db, after, id);
  }

  lemma RecordingKeepsRows(db: Db, after: Db, id: AttemptId)
    requires id in db.attempts && db.attempts[id].status.STARTED?
    requires after.attempts == db.attempts[id := db.attempts[id].(status := COMPLETED)] && after.outputs == db.outputs
    requires forall i | i in db.attempts :: AttemptFits(db.generations, db.attempts, i)
    requires forall r | r in db.outputs :: OutputIsPaid(db.generations, db.attempts, db.outputs[r])
    requires after.generations.Keys == db.generations.Keys
    requires forall h | h in db.generations :: db.generations[h].structured.Some? ==> after.generations[h].structured.Some?
    ensures forall i | i in after.attempts :: AttemptFits(after.generations, after.attempts, i)
    ensures forall r | r in after.outputs :: OutputIsPaid(after.generations, after.attempts, after.outputs[r])
  {
    forall i | i in after.attempts ensures AttemptFits(after.generations, after.attempts, i) {
      assert AttemptFits(db.generations, db.attempts, i);
    }
    forall r | r in after.outputs ensures OutputIsPaid(after.generations, after.attempts, after.outputs[r]) {
      assert OutputIsPaid(db.generations, db.attempts, db.outputs[r]);
      CompletionAdds(db.attempts, id, after.outputs[r].generation, MODERATION);
    }
  }

  lemma FinishModerationKeepsWork(db: Db, workers: map<Token, Worker>, t: Token, id: AttemptId)
    requires Work(db.generations, db.attempts, db.outputs, workers)
    requires t in workers && workers[t].pc == CallingModerator(id) && Holds(db.generations, t, workers[t])
    requires id in db.attempts && db.attempts[id].token == t && db.attempts[id].status.STARTED?
    ensures Work(db.generations, db.attempts[id := db.attempts[id].(status := COMPLETED)], db.outputs,
                 workers[t := workers[t].(pc := PreparingContent)])
  {
    var after := db.(attempts := db.attempts[id := db.attempts[id].(status := COMPLETED)]);
    var w := workers[t].(pc := PreparingContent);
    assert WorkerFits(db.generations, db.attempts, workers, t);
    CompletionIsUnique(db.attempts, id);
    CompletionAdds(db.attempts, id, w.generation, MODERATION);
    var workers' := workers[t := w];
    forall u | u in workers' ensures WorkerFits(after.generations, after.attempts, workers', u) {
      if u != t { RecordingKeepsOthers(db, after, workers, t, u, id); }
    }
    forall h | h in db.generations
      ensures ResultFits(db.generations, after.attempts, h) && HolderFits(db.generations, workers', h)
    {
      CompletionAdds(db.attempts, id, h, REPORT_GENERATION);
      assert ResultFits(db.generations, db.attempts, h) && HolderFits(db.generations, workers, h);
    }
    RecordingKeepsRows(db, after, id);
  }

  /** The reporter's own call is recorded and its result stored. */
  ghost predicate StoresResult(db: Db, after: Db, workers: map<Token, Worker>, t: Token, id: AttemptId, w: Worker) {
    && t in workers && workers[t].pc == CallingReporter(id) && Holds(db.generations, t, workers[t])
    && w == workers[t].(hasResult := true, pc := Rendering)
    && id in db.attempts && db.attempts[id].token == t && db.attempts[id].status.STARTED?
    && w.generation in after.generations
    && var row := after.generations[w.generation]; var before := db.generations[w.generation];
    && row.structured.Some? && row.token == before.token && row.report == before.report && row.user == before.user
    && after == db.(generations := db.generations[w.generation := row], attempts := db.attempts[id := db.attempts[id].(status := COMPLETED)])
  }

  lemma ReportKeepsRows(db: Db, after: Db, workers: map<Token, Worker>, t: Token, id: AttemptId, w: Worker)
    requires Work(db.generations, db.attempts, db.outputs, workers) && StoresResult(db, after, workers, t, id, w)
    ensures forall h | h in after.generations :: ResultFits(after.generations, after.attempts, h) && HolderFits(after.generations, workers[t := w], h)
    ensures forall i | i in after.attempts :: AttemptFits(after.generations, after.attempts, i)
    ensures forall r | r in after.outputs :: OutputIsPaid(after.generations, after.attempts, after.outputs[r])
    ensures OneCompleted(after.attempts)
  {
    assert WorkerFits(db.generations, db.attempts, workers, t);
    assert ResultFits(db.generations, db.attempts, w.generation);
    CompletionIsUnique(db.attempts, id);
    StoredResultFits(db, workers, t, id, after.generations[w.generation], w);
    RecordingKeepsRows(db, after, id);
  }

  lemma ReportKeepsWorkers(db: Db, after: Db, workers: map<Token, Worker>, t: Token, id: AttemptId, w: Worker)
    requires Work(db.generations, db.attempts, db.outputs, workers) && StoresResult(db, after, workers, t, id, w)
    ensures forall u | u in workers :: WorkerFits(after.generations, after.attempts, workers[t := w], u)
  {
    assert WorkerFits(db.generations, db.attempts, workers, t);
    ReporterFits(db, after, t, id, workers[t], w);
    ResultKeepsOthers(db, after, workers, t, id, after.generations[w.generation], w);
  }

  lemma FinishReportKeepsWork(db: Db, after: Db, workers: map<Token, Worker>, t: Token, id: AttemptId, w: Worker)
    requires Work(db.generations, db.attempts, db.outputs, workers) && StoresResult(db, after, workers, t, id, w)
    ensures Work(after.generations, after.attempts, after.outputs, workers[t := w])
  {
    ReportKeepsRows(db, after, workers, t, id, w);
    ReportKeepsWorkers(db, after, workers, t, id, w);
  }

  lemma ReporterFits(db: Db, after: Db, t: Token, id: AttemptId, before: Worker, w: Worker)
    requires before.pc.CallingReporter? && Holds(db.generations, t, before) && KnowledgeFits(db.generations, db.attempts, t, before)
    requires w == before.(hasResult := true, pc := Rendering)
    requires id in db.attempts && db.attempts[id].status.STARTED? && after.attempts == db.attempts[id := db.attempts[id].(status := COMPLETED)]
    requires w.generation in after.generations && after.generations[w.generation].structured.Some?
    requires after.generations[w.generation].report == db.generations[w.generation].report
    requires after.generations[w.generation].user == db.generations[w.generation].user
    ensures KnowledgeFits(after.generations, after.attempts, t, w) && CallsFit(after.attempts, t, w)
  {
    CompletionAdds(db.attempts, id, w.generation, MODERATION);
  }

  lemma ResultKeepsOthers(db: Db, after: Db, workers: map<Token, Worker>, t: Token, id: AttemptId, row: Generation, w: Worker)
    requires t in workers && w.generation == workers[t].generation && Holds(db.generations, t, workers[t])
    requires forall u | u in workers :: WorkerFits(db.generations, db.attempts, workers, u)
    requires id in db.attempts && db.attempts[id].status.STARTED? && db.attempts[id].generation == w.generation
    requires row.token == db.generations[w.generation].token
    requires row.report == db.generations[w.generation].report && row.user == db.generations[w.generation].user
    requires after.attempts == db.attempts[id := db.attempts[id].(status := COMPLETED)]
    requires after.generations == db.generations[w.generation := row]
    ensures forall u | u in workers && u != t :: WorkerFits(after.generations, after.attempts, workers[t := w], u)
  {
    forall u | u in workers && u != t ensures WorkerFits(after.generations, after.attempts, workers[t := w], u) {
      RecordingKeepsOthers(db, after, workers, t, u, id);
    }
  }

  lemma StoredResultFits(db: Db, workers: map<Token, Worker>, t: Token, id: AttemptId, row: Generation, w: Worker)
    requires forall h | h in db.generations :: HolderFits(db.generations, workers, h) && ResultFits(db.generations, db.attempts, h)
    requires t in workers && w.generation == workers[t].generation && Holds(db.generations, t, workers[t])
    requires id in db.attempts && db.attempts[id].status.STARTED? && db.attempts[id].asset.None?
    requires db.attempts[id].generation == w.generation && db.attempts[id].operation.REPORT_GENERATION?
    requires row.structured.Some? && row.token == db.generations[w.generation].token
    ensures var generations := db.generations[w.generation := row]; var attempts := db.attempts[id := db.attempts[id].(status := COMPLETED)];
            forall h | h in generations :: ResultFits(generations, attempts, h) && HolderFits(generations, workers[t := w], h)
  {
    var generations := db.generations[w.generation := row];
    var attempts := db.attempts[id := db.attempts[id].(status := COMPLETED)];
    forall h | h in generations ensures ResultFits(generations, attempts, h) && HolderFits(generations, workers[t := w], h) {
      CompletionAdds(db.attempts, id, h, REPORT_GENERATION);
      assert ResultFits(db.generations, db.attempts, h) && HolderFits(db.generations, workers, h);
    }
  }

  lemma FinishCallKeepsWork(cfg: Config, s: Sys, t: Token, content: Content)
    requires WorkIn(s) && t in s.workers
    ensures WorkIn(FinishCallStep(cfg, s, t, content))
  {
    match s.workers[t].pc
    case CallingTranscriber(id) => TranscriptionStepKeepsWork(cfg, s, t, content, id);
    case CallingModerator(id) => ModerationStepKeepsWork(cfg, s, t, content, id);
    case CallingReporter(id) => ReportStepKeepsWork(cfg, s, t, content, id);
    case _ =>
  }

  lemma TranscriptionStepKeepsWork(cfg: Config, s: Sys, t: Token, content: Content, id: AttemptId)
    requires WorkIn(s) && t in s.workers && s.workers[t].pc == CallingTranscriber(id)
    ensures WorkIn(FinishCallStep(cfg, s, t, content))
  {
    var after := FinishCallStep(cfg, s, t, content);
    match CompleteOwned(s.db, s.clock, s.workers[t].generation, id, t)
    case Err(_) => GivingUpKeepsWork(s, after, t);
    case Ok(_) => FinishTranscriptionKeepsWork(s.db, s.workers, t, id);
  }

  lemma ModerationStepKeepsWork(cfg: Config, s: Sys, t: Token, content: Content, id: AttemptId)
    requires WorkIn(s) && t in s.workers && s.workers[t].pc == CallingModerator(id)
    ensures WorkIn(FinishCallStep(cfg, s, t, content))
  {
    var after := FinishCallStep(cfg, s, t, content);
    match CompleteOwned(s.db, s.clock, s.workers[t].generation, id, t)
    case Err(_) => GivingUpKeepsWork(s, after, t);
    case Ok(_) => FinishModerationKeepsWork(s.db, s.workers, t, id);
  }

  lemma ReportStepKeepsWork(cfg: Config, s: Sys, t: Token, content: Content, id: AttemptId)
    requires WorkIn(s) && t in s.workers && s.workers[t].pc == CallingReporter(id)
    ensures WorkIn(FinishCallStep(cfg, s, t, content))
  {
    var after := FinishCallStep(cfg, s, t, content);
    ReportStepRows(cfg, s, t, content, id);
    if after.workers[t].pc.AbandoningAttempt? {
      GivingUpKeepsWork(s, after, t);
    } else {
      FinishReportKeepsWork(s.db, after.db, s.workers, t, id, after.workers[t]);
    }
  }

  /** The result is stored and the worker moves on, or nothing is stored and it gives up. */
  lemma ReportStepRows(cfg: Config, s: Sys, t: Token, content: Content, id: AttemptId)
    requires t in s.workers && s.workers[t].pc == CallingReporter(id)
    ensures var after := FinishCallStep(cfg, s, t, content);
            && t in after.workers && after.workers == s.workers[t := after.workers[t]]
            && after.workers[t].generation == s.workers[t].generation
            && (if after.workers[t].pc.AbandoningAttempt? then after.db == s.db
                else StoresResult(s.db, after.db, s.workers, t, id, after.workers[t]))
  {
    var g := s.workers[t].generation;
    if PersistResult(cfg, s.db, s.clock, g, t, id, content).Ok? { PersistedRows(cfg, s.db, s.clock, g, t, id, content); }
  }

  lemma PersistedRows(cfg: Config, db: Db, now: Time, g: GenerationId, t: Token, id: AttemptId, content: Content)
    requires PersistResult(cfg, db, now, g, t, id, content).Ok?
    ensures g in db.generations && db.generations[g].token == Some(t)
    ensures id in db.attempts && db.attempts[id].token == t && db.attempts[id].status.STARTED?
    ensures var row := PersistResult(cfg, db, now, g, t, id, content).value.generations[g];
            && row.structured.Some? && row.token == Some(t) && row.report == db.generations[g].report && row.user == db.generations[g].user
            && PersistResult(cfg, db, now, g, t, id, content).value
               == db.(generations := db.generations[g := row], attempts := db.attempts[id := db.attempts[id].(status := COMPLETED)])
  {
  }

  // ----- publication, delivery, recovery -----

  lemma PublicationKeepsWork(db: Db, after: Db, workers: map<Token, Worker>, t: Token, r: ReportId)
    requires Work(db.generations, db.attempts, db.outputs, workers)
    requires t in workers && workers[t].pc.Publishing? && Holds(db.generations, t, workers[t])
    requires var g := workers[t].generation;
             && g in after.generations && after.generations == db.generations[g := after.generations[g]]
             && RowFades(db.generations, db.attempts, after.generations[g], g)
             && after.attempts == db.attempts
             && r in after.outputs && after.outputs == db.outputs[r := after.outputs[r]] && after.outputs[r].generation == g
    ensures Work(after.generations, after.attempts, after.outputs, workers[t := workers[t].(uploaded := false, pc := Stopped)])
  {
    var g := workers[t].generation;
    assert WorkerFits(db.generations, db.attempts, workers, t);
    var between := after.(outputs := db.outputs);
    CompletedRowKeepsWork(db, between, workers, t, g);
    NewOutputIsPaid(db, between, after, workers, t, r);
  }

  lemma CompletedRowKeepsWork(db: Db, between: Db, workers: map<Token, Worker>, t: Token, g: GenerationId)
    requires Work(db.generations, db.attempts, db.outputs, workers) && t in workers
    requires g in between.generations && between.generations == db.generations[g := between.generations[g]]
    requires RowFades(db.generations, db.attempts, between.generations[g], g)
    requires between.attempts == db.attempts && between.outputs == db.outputs
    ensures Work(between.generations, between.attempts, between.outputs, workers[t := workers[t].(uploaded := false, pc := Stopped)])
  {
    OneRowFades(db, between, g);
    FadingKeepsWork(db, between, workers);
    MovingOnKeepsWork(between, workers, t, workers[t].(uploaded := false, pc := Stopped));
  }

  lemma NewOutputIsPaid(db: Db, between: Db, after: Db, workers: map<Token, Worker>, t: Token, r: ReportId)
    requires t in workers && workers[t].pc.Publishing? && KnowledgeFits(db.generations, db.attempts, t, workers[t])
    requires Holds(db.generations, t, workers[t]) && between.attempts == db.attempts == after.attempts && after.generations == between.generations
    requires var g := workers[t].generation;
             && g in after.generations && after.generations[g].structured == db.generations[g].structured
             && r in after.outputs && after.outputs == between.outputs[r := after.outputs[r]] && after.outputs[r].generation == g
    requires forall q | q in between.outputs :: OutputIsPaid(between.generations, between.attempts, between.outputs[q])
    ensures forall q | q in after.outputs :: OutputIsPaid(after.generations, after.attempts, after.outputs[q])
  {
    forall q | q in after.outputs ensures OutputIsPaid(after.generations, after.attempts, after.outputs[q]) {
      assert q != r ==> OutputIsPaid(between.generations, between.attempts, between.outputs[q]);
    }
  }

  lemma PublishedWorkRows(db: Db, now: Time, g: GenerationId, r: ReportId, user: UserId, t: Token, key: StorageKey, size: nat)
    requires FinalizeSuccess(db, now, g, r, user, t, key, size).Ok?
    ensures var after := FinalizeSuccess(db, now, g, r, user, t, key, size).value;
            && g in db.generations && db.generations[g].token == Some(t)
            && g in after.generations && after.generations == db.generations[g := after.generations[g]]
            && RowFades(db.generations, db.attempts, after.generations[g], g)
            && after.attempts == db.attempts
            && after.outputs == db.outputs[r := Output(g, key, size)]
  {
  }

  lemma PublishKeepsWork(s: Sys, t: Token)
    requires WorkIn(s) && t in s.workers
    ensures WorkIn(PublishStep(s, t))
  {
    var after := PublishStep(s, t);
    var w := s.workers[t];
    if w.pc.Publishing? && FinalizeSuccess(s.db, s.clock, w.generation, w.report, w.user, t, KeyOf(t, w), w.pc.size).Ok? {
      PublishedWorkRows(s.db, s.clock, w.generation, w.report, w.user, t, KeyOf(t, w), w.pc.size);
      PublicationKeepsWork(s.db, after.db, s.workers, t, w.report);
    } else {
      GivingUpKeepsWork(s, after, t);
    }
  }

  /** A fresh token on a row: the worker before it holds the row no longer. */
  lemma NewcomerFits(after: Db, t: Token, w: Worker)
    requires w.pc.Reading?
    ensures KnowledgeFits(after.generations, after.attempts, t, w) && CallsFit(after.attempts, t, w)
  {
  }

  /** A claim leaves what the others know; the one that held the generation holds it no longer. */
  lemma OthersLoseNothing(db: Db, after: Db, workers: map<Token, Worker>, u: Token, t: Token, g: GenerationId)
    requires u in workers && u != t && WorkerFits(db.generations, db.attempts, workers, u)
    requires g in after.generations && after.generations == db.generations[g := after.generations[g]] && after.generations[g].token == Some(t)
    requires after.attempts == db.attempts
    ensures WorkerFits(after.generations, after.attempts, workers, u)
  {
  }

  lemma NewHolderKeepsWork(db: Db, after: Db, workers: map<Token, Worker>, t: Token, g: GenerationId, w: Worker)
    requires Work(db.generations, db.attempts, db.outputs, workers) && t !in workers
    requires g in db.generations && g in after.generations && after.generations == db.generations[g := after.generations[g]]
    requires var row := after.generations[g]; var before := db.generations[g];
             row.token == Some(t) && row.report == before.report && row.user == before.user && row.structured == before.structured
    requires after.attempts == db.attempts && after.outputs == db.outputs
    requires w.generation == g && w.pc.Reading?
    ensures Work(after.generations, after.attempts, after.outputs, workers[t := w])
  {
    var workers' := workers[t := w];
    forall h | h in after.generations
      ensures HolderFits(after.generations, workers', h) && ResultFits(after.generations, after.attempts, h)
    {
      assert HolderFits(db.generations, workers, h) && ResultFits(db.generations, db.attempts, h);
    }
    forall u | u in workers' ensures WorkerFits(after.generations, after.attempts, workers', u) {
      if u == t { NewcomerFits(after, t, w); } else { OthersLoseNothing(db, after, workers, u, t, g); }
    }
    forall id | id in after.attempts ensures AttemptFits(after.generations, after.attempts, id) {
      assert AttemptFits(db.generations, db.attempts, id);
    }
    forall r | r in after.outputs ensures OutputIsPaid(after.generations, after.attempts, after.outputs[r]) {
      assert OutputIsPaid(db.generations, db.attempts, db.outputs[r]);
    }
  }

  lemma IdleDeliveryKeepsWork(db: Db, workers: map<Token, Worker>, t: Token, w: Worker)
    requires Work(db.generations, db.attempts, db.outputs, workers) && t !in workers && w.pc.Stopped?
    ensures Work(db.generations, db.attempts, db.outputs, workers[t := w])
  {
    var workers' := workers[t := w];
    forall h | h in db.generations ensures HolderFits(db.generations, workers', h) {
      assert HolderFits(db.generations, workers, h);
    }
    forall u | u in workers' ensures WorkerFits(db.generations, db.attempts, workers', u) {
      assert u != t ==> WorkerFits(db.generations, db.attempts, workers, u);
    }
  }

  lemma DeliveryKeepsWork(cfg: Config, s: Sys, t: Token, g: GenerationId, lag: nat)
    requires WorkIn(s)
    ensures WorkIn(DeliverNext(cfg, s, t, g, lag))
  {
    var after := DeliverNext(cfg, s, t, g, lag);
    if t !in s.workers {
      match Claim(cfg, s.db, s.clock, g, t)
      case None => IdleDeliveryKeepsWork(s.db, s.workers, t, after.workers[t]);
      case Some(db) => NewHolderKeepsWork(s.db, db, s.workers, t, g, after.workers[t]);
    }
  }

  /** One row that fades, with no other table that matters here changed. */
  lemma OneRowFades(db: Db, after: Db, g: GenerationId)
    requires forall id | id in db.attempts :: AttemptFits(db.generations, db.attempts, id)
    requires forall r | r in db.outputs :: OutputIsPaid(db.generations, db.attempts, db.outputs[r])
    requires g in after.generations && after.generations == db.generations[g := after.generations[g]]
    requires RowFades(db.generations, db.attempts, after.generations[g], g)
    requires after.attempts == db.attempts && after.outputs == db.outputs
    ensures Fades(db, after)
  {
    forall id | id in db.attempts ensures db.attempts[id].generation in after.generations {
      assert AttemptFits(db.generations, db.attempts, id);
    }
    forall r | r in db.outputs ensures db.outputs[r].generation in after.generations {
      assert OutputIsPaid(db.generations, db.attempts, db.outputs[r]);
    }
  }

  lemma RecoverKeepsWork(cfg: Config, s: Sys, t: Token, retry: bool)
    requires WorkIn(s) && t in s.workers
    ensures WorkIn(RecoverStep(cfg, s, t, retry))
  {
    var after := RecoverStep(cfg, s, t, retry);
    RecoveryStops(cfg, s, t, retry);
    if after.db != s.db {
      RecoveryFades(cfg, s, t, retry);
      FadingKeepsWork(s.db, after.db, s.workers);
    }
    if after.workers != s.workers { MovingOnKeepsWork(after.db, s.workers, t, s.workers[t].(pc := Stopped)); }
  }

  lemma RecoveryStops(cfg: Config, s: Sys, t: Token, retry: bool)
    requires t in s.workers
    ensures var after := RecoverStep(cfg, s, t, retry);
            after.workers == s.workers[t := s.workers[t].(pc := Stopped)] || after == s
  {
  }

  lemma RetryFades(db: Db, now: Time, g: GenerationId, t: Token)
    requires forall id | id in db.attempts :: AttemptFits(db.generations, db.attempts, id)
    requires forall r | r in db.outputs :: OutputIsPaid(db.generations, db.attempts, db.outputs[r])
    requires PrepareRetry(db, now, g, t).Some?
    ensures Fades(db, PrepareRetry(db, now, g, t).value)
  {
    OneRowFades(db, PrepareRetry(db, now, g, t).value, g);
  }

  lemma FailureFades(cfg: Config, db: Db, now: Time, g: GenerationId, t: Token)
    requires forall id | id in db.attempts :: AttemptFits(db.generations, db.attempts, id)
    requires forall r | r in db.outputs :: OutputIsPaid(db.generations, db.attempts, db.outputs[r])
    requires FailGeneration(cfg, db, now, g, t).Ok?
    ensures Fades(db, FailGeneration(cfg, db, now, g, t).value)
  {
    OneRowFades(db, FailGeneration(cfg, db, now, g, t).value, g);
  }

  lemma RecoveryFades(cfg: Config, s: Sys, t: Token, retry: bool)
    requires WorkIn(s) && t in s.workers && RecoverStep(cfg, s, t, retry).db != s.db
    ensures Fades(s.db, RecoverStep(cfg, s, t, retry).db)
  {
    var g := s.workers[t].generation;
    if retry {
      RetryFades(s.db, s.clock, g, t);
    } else {
      FailureFades(cfg, s.db, s.clock, g, t);
    }
  }
}
