/** The rows of the database tables, the storage keys and the settings that the
    services share. Identifiers are abstracted to natural numbers: the source
    draws them with randomUUID, so a step that creates a row takes a fresh one. */
module Rows {

  datatype Option<+T> = None | Some(value: T)

  /** The ways a transaction or a provider call can fail, as far as control flow depends on them. */
  datatype Error =
    | ClaimLost             // GENERATION_CLAIM_LOST
    | AttemptInProgress     // AI_PROVIDER_ATTEMPT_IN_PROGRESS
    | BudgetExhausted       // AI_PROVIDER_CALL_BUDGET_EXHAUSTED
    | NotFound
    | Forbidden
    | NotEditable           // REPORT_NOT_EDITABLE
    | GenerationActive      // GENERATION_ALREADY_ACTIVE, REPORT_GENERATION_ACTIVE
    | NotCancellable
    | Locked                // REPORT_TEMPORARILY_LOCKED
    | BadSources            // pending uploads, rejected assets or no content
    | RateLimited
    | CreditsExhausted      // GENERATION_CREDITS_EXHAUSTED, SUBSCRIPTION_REQUIRED
    | ReservationMissing    // GENERATION_CREDIT_RESERVATION_FAILED
    | AlreadyReleased       // GENERATION_CREDIT_ALREADY_RELEASED
    | LimitReached          // asset slot or byte limit
    | Constraint            // a unique, check or foreign-key constraint
    | SerializationFailure  // P2034 on every attempt
    | Other                 // any other provider, storage or validation error

  datatype Outcome<+T> = Ok(value: T) | Err(error: Error)

  type Pos = x: nat | x > 0 witness 1

  /** Milliseconds. */
  type Time = int

  type UserId = nat
  type ReportId = nat
  type AssetId = nat
  type GenerationId = nat
  type GrantId = nat
  type AttemptId = nat
  type Token = nat
  type Content = nat

  datatype ReportStatus = DRAFT | QUEUED | PROCESSING | READY | FAILED

  datatype GenerationStatus = Queued | Processing | Completed | Failed | Cancelled

  datatype Report = Report(
    user: UserId,
    title: string,
    notes: string,
    status: ReportStatus,
    throttle: ThrottleRecord)

  /** reportFailureWindowStartedAt, reportConsecutiveFailureCount and reportGenerationLockedUntil. */
  datatype ThrottleRecord = ThrottleRecord(
    windowStart: Option<Time>,
    failures: nat,
    lockedUntil: Option<Time>)

  datatype AssetType = Image | Audio | Document

  datatype AssetStatus = Pending | Uploaded | Rejected

  datatype Asset = Asset(
    report: ReportId,
    kind: AssetType,
    status: AssetStatus,
    storageKey: StorageKey,
    mimeType: string,
    declaredSize: nat,
    verifiedSize: Option<nat>,
    position: int,
    createdAt: Time)

  /** The two key shapes the services build. An output key ends in the processing token of its worker. */
  datatype StorageKey =
    | OutputKey(user: UserId, report: ReportId, generation: GenerationId, token: Token)
    | AssetKey(owner: UserId, container: ReportId, asset: AssetId, nonce: nat)

  datatype Snapshot = Snapshot(title: string, notes: string, assets: map<AssetId, Asset>)

  datatype Generation = Generation(
    report: ReportId,
    user: UserId,
    idempotencyKey: string,
    status: GenerationStatus,
    token: Option<Token>,
    lease: Option<Time>,
    snapshot: Snapshot,
    structured: Option<Content>,
    priorReportStatus: ReportStatus,
    createdAt: Time,
    enqueued: bool)

  datatype Output = Output(generation: GenerationId, storageKey: StorageKey, size: nat)

  datatype CreditSource = SubscriptionMonthly | Promotional | Admin | Refunded | PurchasedPack

  /** The range of an ECMAScript time value, section 21.4.1.1 of ECMA-262. */
  type Instant = t: int | 0 <= t <= 8_640_000_000_000_000 witness 0

  datatype Grant = Grant(
    user: UserId,
    source: CreditSource,
    total: nat,
    remaining: nat,
    validFrom: Instant,
    expiresAt: Option<Instant>,
    createdAt: Instant,
    periodKey: Option<string>)

  datatype EntryType = GRANT | RESERVE | CONSUME | RELEASE | REFUND | EXPIRE

  /** The unique idempotency keys of the ledger. */
  datatype LedgerKey =
    | ReserveKey(generation: GenerationId)
    | ConsumeKey(generation: GenerationId)
    | ReleaseKey(generation: GenerationId)
    | PeriodKey(subscriber: UserId, period: string)   // allocateMonthly
    | AdminKey(request: string)                       // the administrative grant command

  datatype Entry = Entry(
    user: UserId,
    generation: Option<GenerationId>,
    grant: Option<GrantId>,
    kind: EntryType,
    amount: nat)

  datatype Operation = MODERATION | TRANSCRIPTION | REPORT_GENERATION

  datatype AttemptStatus = STARTED | COMPLETED | ABORTED

  datatype Attempt = Attempt(
    generation: GenerationId,
    asset: Option<AssetId>,
    operation: Operation,
    number: nat,
    status: AttemptStatus,
    token: Token,
    lease: Time)

  /** Every committed row. */
  datatype Db = Db(
    reports: map<ReportId, Report>,
    assets: map<AssetId, Asset>,
    generations: map<GenerationId, Generation>,
    attempts: map<AttemptId, Attempt>,
    grants: map<GrantId, Grant>,
    ledger: map<LedgerKey, Entry>,
    outputs: map<ReportId, Output>,
    tasks: set<StorageKey>)

  const EMPTY_DB := Db(map[], map[], map[], map[], map[], map[], map[], {})

  datatype ThrottlePolicy = ThrottlePolicy(windowMs: nat, limit: Pos, lockMs: nat)

  datatype Config = Config(
    jobTimeoutMs: Pos,
    maxProviderCalls: Pos,
    maxTranscriptions: Pos,
    throttle: ThrottlePolicy,
    startWindowMs: Pos,
    startLimit: Pos,
    dailyLimit: Pos,
    globalDailyLimit: Pos,
    maxImages: Pos,
    maxAudio: Pos,
    maxDocuments: Pos,
    maxReportBytes: Pos,
    pendingTtlMs: Pos)
  {
    function MaximumCount(kind: AssetType): Pos {
      match kind
      case Image => maxImages
      case Audio => maxAudio
      case Document => maxDocuments
    }

    function MaximumCalls(operation: Operation): Pos {
      match operation
      case TRANSCRIPTION => maxTranscriptions
      case MODERATION => maxProviderCalls
      case REPORT_GENERATION => maxProviderCalls
    }
  }

  const DAY_MS: Pos := 86_400_000

  lemma SubsetSize<T>(small: set<T>, large: set<T>)
    requires small <= large
    ensures |small| <= |large|
  {
    assert large == small + (large - small);
  }
}
