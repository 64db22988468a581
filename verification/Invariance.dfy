/** The invariant holds after every run. */
module Invariance {
  import opened Rows
  import opened Protocol
  import RunLaws
  import EndingLaws
  import PublicationLaws
  import StartLaws
  import ContentLaws

  predicate CallsProvider(step: WorkerStep) {
    step.StartCall? || step.FinishCall? || step.CallFails? || step.Abandon? || step.CheckCompleted?
  }

  lemma CallStepKeepsInv(cfg: Config, s: Sys, t: Token, step: WorkerStep)
    requires RunLaws.Inv(cfg, s) && t in s.workers && CallsProvider(step)
    ensures RunLaws.Inv(cfg, WorkerNext(cfg, s, t, step))
  {
    match step
    case StartCall(id, audio) => RunLaws.StartCallKeepsInv(cfg, s, t, id, audio);
    case CheckCompleted => RunLaws.CheckKeepsInv(cfg, s, t);
    case FinishCall(content) => RunLaws.FinishCallKeepsInv(cfg, s, t, content);
    case CallFails(error) => RunLaws.CallFailsKeepsInv(cfg, s, t, error);
    case Abandon => RunLaws.AbandonKeepsInv(cfg, s, t);
  }

  lemma WorkerStepKeepsInv(cfg: Config, s: Sys, t: Token, step: WorkerStep)
    requires RunLaws.Inv(cfg, s) && t in s.workers
    ensures RunLaws.Inv(cfg, WorkerNext(cfg, s, t, step))
  {
    if CallsProvider(step) {
      CallStepKeepsInv(cfg, s, t, step);
    } else {
      match step
      case Heartbeat => RunLaws.HeartbeatKeepsInv(cfg, s, t);
      case Crash => RunLaws.CrashKeepsInv(cfg, s, t);
      case ReadGeneration => RunLaws.ReadKeepsInv(cfg, s, t);
      case Progress(advance) => RunLaws.ProgressKeepsInv(cfg, s, t, advance);
      case Put(size) => RunLaws.PutKeepsInv(cfg, s, t, size);
      case PutFails => RunLaws.PutFailsKeepsInv(cfg, s, t);
      case Head(answered) => RunLaws.HeadKeepsInv(cfg, s, t, answered);
      case Publish => PublicationLaws.PublishKeepsInv(cfg, s, t);
      case Fail(error) => RunLaws.FailStepKeepsInv(cfg, s, t, error);
      case ScheduleCleanup => RunLaws.ScheduleKeepsInv(cfg, s, t);
      case Recover(retry) =>
        if retry { EndingLaws.RetryKeepsInv(cfg, s, t); } else { EndingLaws.FailureKeepsInv(cfg, s, t); }
    }
  }

  lemma UploadStepKeepsInv(cfg: Config, s: Sys, a: UploadAction)
    requires RunLaws.Inv(cfg, s)
    ensures RunLaws.Inv(cfg, UploadNext(cfg, s, a))
  {
    match a
    case RequestUpload(user, r, asset, nonce, request) => ContentLaws.RequestKeepsInv(cfg, s, user, r, asset, nonce, request);
    case WithdrawUpload(asset) => ContentLaws.WithdrawKeepsInv(cfg, s, asset);
    case ConfirmUpload(user, r, asset, inspected) => ContentLaws.ConfirmKeepsInv(cfg, s, user, r, asset, inspected);
    case FinishRejection(asset) => ContentLaws.RejectKeepsInv(cfg, s, asset);
    case DeleteAsset(user, r, asset) => ContentLaws.DeleteAssetKeepsInv(cfg, s, user, r, asset);
  }

  lemma ReportStepKeepsInv(cfg: Config, s: Sys, a: ReportAction)
    requires RunLaws.Inv(cfg, s)
    ensures RunLaws.Inv(cfg, ReportNext(s, a))
  {
    match a
    case CreateReport(user, r, title, notes) => ContentLaws.CreateReportKeepsInv(cfg, s, user, r, title, notes);
    case UpdateReport(user, r, title, notes) => ContentLaws.UpdateReportKeepsInv(cfg, s, user, r, title, notes);
    case ReadSource(user, source, r) => ContentLaws.ReadSourceKeepsInv(cfg, s, user, source, r);
    case DuplicateReport(r, copies, title) => ContentLaws.DuplicateKeepsInv(cfg, s, r, copies, title);
  }

  lemma StorageStepKeepsInv(cfg: Config, s: Sys, a: StorageAction)
    requires RunLaws.Inv(cfg, s)
    ensures RunLaws.Inv(cfg, StorageNext(s, a))
  {
    RunLaws.StorageStepSweeps(s, a);
    RunLaws.SweepEffectKeepsInv(cfg, s, StorageNext(s, a));
  }

  lemma CreditStepKeepsInv(cfg: Config, s: Sys, a: CreditAction)
    requires RunLaws.Inv(cfg, s)
    ensures RunLaws.Inv(cfg, CreditNext(s, a))
  {
    match a
    case AllocateMonthly(id, user, period, total, validFrom, expiresAt, now) =>
      RunLaws.AllocationKeepsInv(cfg, s, id, user, period, total, validFrom, expiresAt, now);
    case GrantByAdmin(id, user, amount, request, now) => RunLaws.AdminGrantKeepsInv(cfg, s, id, user, amount, request, now);
  }

  lemma GenerationStepKeepsInv(cfg: Config, s: Sys, a: Action)
    requires RunLaws.Inv(cfg, s) && OnGeneration(a)
    ensures RunLaws.Inv(cfg, Next(cfg, s, a))
  {
    match a
    case DeleteReport(user, r) => ContentLaws.DeleteReportKeepsInv(cfg, s, user, r);
    case StartGeneration(user, r, key, g, emailVerified) => StartLaws.StartKeepsInv(cfg, s, user, r, key, g, emailVerified);
    case MarkEnqueued(g) => StartLaws.MarkEnqueuedKeepsInv(cfg, s, g);
    case Compensate(g) => StartLaws.CompensateKeepsInv(cfg, s, g);
    case CancelGeneration(user, r, g) => EndingLaws.CancelKeepsInv(cfg, s, user, r, g);
    case Deliver(t, g, lag) => PublicationLaws.DeliverKeepsInv(cfg, s, t, g, lag);
  }

  /** Every action keeps the invariant, in every state that has it. */
  lemma StepKeepsInv(cfg: Config, s: Sys, a: Action)
    requires RunLaws.Inv(cfg, s)
    ensures RunLaws.Inv(cfg, Next(cfg, s, a))
  {
    if OnGeneration(a) {
      GenerationStepKeepsInv(cfg, s, a);
    } else {
      match a
      case Tick(to) => if to >= s.clock { RunLaws.TickKeepsInv(cfg, s, to); }
      case OnUpload(upload) => UploadStepKeepsInv(cfg, s, upload);
      case OnReport(report) => ReportStepKeepsInv(cfg, s, report);
      case OnStorage(storage) => StorageStepKeepsInv(cfg, s, storage);
      case OnCredits(credits) => CreditStepKeepsInv(cfg, s, credits);
      case WorkerActs(t, step) => if t in s.workers { WorkerStepKeepsInv(cfg, s, t, step); }
    }
  }

  lemma {:induction false} EveryRunKeepsInv(cfg: Config, run: seq<Action>)
    ensures RunLaws.Inv(cfg, After(cfg, INIT, run))
  {
    if run == [] {
      RunLaws.InitKeepsInv(cfg);
    } else {
      var n := |run| - 1;
      EveryRunKeepsInv(cfg, run[..n]);
      StepKeepsInv(cfg, After(cfg, INIT, run[..n]), run[n]);
    }
  }
}
