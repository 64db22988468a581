/** Registration codes, refresh tokens and password resets: requests that read a
    row, work outside any transaction and then compare and delete. A request that
    has read waits in inFlight; between its read and its end anything may happen.
    Every action carries the time its request read, so clocks are arbitrary. */
module Auth {
  import opened Rows

  type Email = string
  type Hash = nat
  type Secret = nat
  type PendingId = nat
  type TokenId = nat
  type ResetId = nat
  type RequestId = nat

  datatype Registration = Registration(
    email: Email, codeHash: Hash, expiresAt: Time, attemptCount: nat, lastSentAt: Time, pendingExpiresAt: Time)

  datatype RefreshRow = RefreshRow(user: UserId, tokenHash: Hash, expiresAt: Time)

  datatype Reset = Reset(user: UserId, codeHash: Hash, expiresAt: Time, attemptCount: nat, used: bool, createdAt: Time)

  datatype Policy = Policy(maxAttempts: Pos, codeTtlMs: nat, pendingTtlMs: nat, cooldownMs: nat,
                           resetMaxAttempts: Pos, resetTtlMs: nat, resetCooldownMs: nat, refreshTtlMs: nat)

  /** A request between its read and its end. */
  datatype InFlight =
    | Verifying(pending: PendingId, row: Registration, code: Secret, now: Time)
    | Refreshing(token: TokenId, user: UserId)
    | Resetting(reset: ResetId, read: Reset, secret: Secret, at: Time)

  /** What the properties remember; only freshness of identifiers is read from it. */
  datatype Past = Past(
    pendings: set<PendingId>,
    tokens: map<TokenId, TokenId>,     // every token ever issued, with the first token of its chain
    resets: set<ResetId>)

  datatype State = State(
    pendings: map<PendingId, Registration>,
    users: map<UserId, Email>,
    tokens: map<TokenId, RefreshRow>,
    resets: map<ResetId, Reset>,
    inFlight: map<RequestId, InFlight>,
    past: Past)

  const START := State(map[], map[], map[], map[], map[], Past({}, map[], {}))

  datatype Action =
    | Register(email: Email, id: PendingId, codeHash: Hash, now: Time)
    | Resend(email: Email, codeHash: Hash, now: Time)
    | InvalidateCode(id: PendingId, codeHash: Hash, now: Time)
    | BeginVerification(request: RequestId, email: Email, id: PendingId, code: Secret, now: Time)
    | FinishVerification(request: RequestId, user: UserId, token: TokenId, tokenHash: Hash, now: Time)
    | Login(user: UserId, token: TokenId, tokenHash: Hash, now: Time)
    | BeginRefresh(request: RequestId, token: TokenId, user: UserId, presented: Secret, now: Time)
    | FinishRefresh(request: RequestId, next: TokenId, tokenHash: Hash, now: Time)
    | Logout(token: TokenId, user: UserId)
    | ForgotPassword(user: UserId, id: ResetId, codeHash: Hash, now: Time)
    | InvalidateReset(id: ResetId)
    | BeginReset(request: RequestId, id: ResetId, secret: Secret, now: Time)
    | FinishReset(request: RequestId)

  predicate EmailTaken(users: map<UserId, Email>, email: Email) {
    exists u :: u in users && users[u] == email
  }

  predicate PendingFor(pendings: map<PendingId, Registration>, email: Email, id: PendingId) {
    id in pendings && pendings[id].email == email
  }

  function Issue(s: State, token: TokenId, row: RefreshRow, first: TokenId): State {
    s.(tokens := s.tokens[token := row], past := s.past.(tokens := s.past.tokens[token := first]))
  }

  // ----- registration -----

  /** The transaction of register; an expired registration of the address goes first. */
  function RegisterNext(policy: Policy, s: State, email: Email, id: PendingId, codeHash: Hash, now: Time): State {
    if id in s.past.pendings || EmailTaken(s.users, email) then s
    else
      var kept := map p | p in s.pendings && !(s.pendings[p].email == email && s.pendings[p].pendingExpiresAt <= now) :: s.pendings[p];
      if exists p :: p in kept && kept[p].email == email then s
      else s.(pendings := kept[id := Registration(email, codeHash, now + policy.codeTtlMs, 0, now, now + policy.pendingTtlMs)],
              past := s.past.(pendings := s.past.pendings + {id}))
  }

  /** The transaction of resendRegistrationCode; a registration past its own expiry is deleted instead. */
  function ResendNext(policy: Policy, s: State, email: Email, codeHash: Hash, now: Time): State {
    if EmailTaken(s.users, email) then s
    else
      s.(pendings := map p | p in s.pendings && !(s.pendings[p].email == email && s.pendings[p].pendingExpiresAt <= now) ::
           if s.pendings[p].email == email && s.pendings[p].lastSentAt + policy.cooldownMs <= now
           then s.pendings[p].(codeHash := codeHash, expiresAt := now + policy.codeTtlMs, attemptCount := 0, lastSentAt := now)
           else s.pendings[p])
  }

  function InvalidateNext(policy: Policy, s: State, id: PendingId, codeHash: Hash, now: Time): State {
    if id in s.pendings && s.pendings[id].codeHash == codeHash
    then s.(pendings := s.pendings[id := s.pendings[id].(expiresAt := now, attemptCount := policy.maxAttempts)])
    else s
  }

  /** The read and the tests of verifyRegistration; id is the row that the unique address finds. */
  function BeginVerificationNext(policy: Policy, s: State, request: RequestId, email: Email, id: PendingId, code: Secret, now: Time): State {
    if request in s.inFlight || !PendingFor(s.pendings, email, id) then s
    else
      var row := s.pendings[id];
      if row.pendingExpiresAt <= now then s.(pendings := s.pendings - {id})
      else if row.expiresAt <= now || row.attemptCount >= policy.maxAttempts then s
      else s.(inFlight := s.inFlight[request := Verifying(id, row, code, now)])
  }

  /** recordFailedRegistrationAttempt: counts only if nothing changed since the read; the last failure ends the code. */
  function RecordFailedAttempt(policy: Policy, s: State, id: PendingId, read: Registration, at: Time): State {
    if id in s.pendings
       && var row := s.pendings[id];
          row.codeHash == read.codeHash && row.expiresAt > at && row.pendingExpiresAt > at && row.attemptCount == read.attemptCount
    then
      var row := s.pendings[id];
      var counted := row.(attemptCount := row.attemptCount + 1);
      s.(pendings := s.pendings[id := if counted.attemptCount >= policy.maxAttempts then counted.(expiresAt := at) else counted])
    else s
  }

  /** The where clause that claims a registration. */
  predicate Claims(policy: Policy, s: State, id: PendingId, read: Registration, now: Time) {
    && id in s.pendings
    && var row := s.pendings[id];
    && row.email == read.email && row.codeHash == read.codeHash
    && row.expiresAt > now && row.pendingExpiresAt > now && row.attemptCount < policy.maxAttempts
  }

  /** The end of verifyRegistration: a failed attempt is recorded, or one transaction claims the registration,
      creates the user and issues the first refresh token. */
  function FinishVerificationNext(policy: Policy, verifies: (Hash, Secret) -> bool, s: State, request: RequestId, user: UserId,
                                  token: TokenId, tokenHash: Hash, now: Time): State {
    if request !in s.inFlight || !s.inFlight[request].Verifying? then s
    else
      var actor := s.inFlight[request];
      var done := s.(inFlight := s.inFlight - {request});
      if !verifies(actor.row.codeHash, actor.code) then RecordFailedAttempt(policy, done, actor.pending, actor.row, actor.now)
      else if EmailTaken(s.users, actor.row.email) || !Claims(policy, s, actor.pending, actor.row, actor.now)
              || user in s.users || token in s.past.tokens then done
      else Issue(done.(pendings := done.pendings - {actor.pending}, users := done.users[user := actor.row.email]),
                 token, RefreshRow(user, tokenHash, now + policy.refreshTtlMs), token)
  }

  // ----- refresh tokens -----

  function LoginNext(policy: Policy, s: State, user: UserId, token: TokenId, tokenHash: Hash, now: Time): State {
    if user !in s.users || token in s.past.tokens then s
    else Issue(s, token, RefreshRow(user, tokenHash, now + policy.refreshTtlMs), token)
  }

  function BeginRefreshNext(verifies: (Hash, Secret) -> bool, s: State, request: RequestId, token: TokenId, user: UserId,
                            presented: Secret, now: Time): State {
    if request in s.inFlight || token !in s.tokens || s.tokens[token].user != user || s.tokens[token].expiresAt <= now
       || !verifies(s.tokens[token].tokenHash, presented) then s
    else s.(inFlight := s.inFlight[request := Refreshing(token, user)])
  }

  /** The transaction of refresh: the old row must still be there to be deleted. */
  function FinishRefreshNext(policy: Policy, s: State, request: RequestId, next: TokenId, tokenHash: Hash, now: Time): State {
    if request !in s.inFlight || !s.inFlight[request].Refreshing? then s
    else
      var actor := s.inFlight[request];
      var done := s.(inFlight := s.inFlight - {request});
      if actor.token !in s.tokens || s.tokens[actor.token].user != actor.user || actor.token !in s.past.tokens || next in s.past.tokens then done
      else Issue(done.(tokens := done.tokens - {actor.token}), next, RefreshRow(actor.user, tokenHash, now + policy.refreshTtlMs),
                 s.past.tokens[actor.token])
  }

  function LogoutNext(s: State, token: TokenId, user: UserId): State {
    if token in s.tokens && s.tokens[token].user == user then s.(tokens := s.tokens - {token}) else s
  }

  // ----- password resets -----

  function ForgotNext(policy: Policy, s: State, user: UserId, id: ResetId, codeHash: Hash, now: Time): State {
    if user !in s.users || id in s.past.resets
       || (exists r :: r in s.resets && s.resets[r].user == user && s.resets[r].createdAt > now - policy.resetCooldownMs) then s
    else
      var closed := map r | r in s.resets :: if s.resets[r].user == user then s.resets[r].(used := true) else s.resets[r];
      s.(resets := closed[id := Reset(user, codeHash, now + policy.resetTtlMs, 0, false, now)],
         past := s.past.(resets := s.past.resets + {id}))
  }

  function InvalidateResetNext(s: State, id: ResetId): State {
    if id in s.resets then s.(resets := s.resets[id := s.resets[id].(used := true)]) else s
  }

  /** The read and the tests of resetPassword; the source reads the latest row of the user, here it may be any. */
  function BeginResetNext(policy: Policy, s: State, request: RequestId, id: ResetId, secret: Secret, now: Time): State {
    if request in s.inFlight || id !in s.resets then s
    else
      var row := s.resets[id];
      if row.used || row.expiresAt <= now || row.attemptCount >= policy.resetMaxAttempts then s
      else s.(inFlight := s.inFlight[request := Resetting(id, row, secret, now)])
  }

  function RecordFailedReset(policy: Policy, s: State, id: ResetId, read: Reset, at: Time): State {
    if id in s.resets && !s.resets[id].used && s.resets[id].expiresAt > at && s.resets[id].attemptCount == read.attemptCount
    then
      var counted := s.resets[id].(attemptCount := read.attemptCount + 1);
      s.(resets := s.resets[id := if counted.attemptCount >= policy.resetMaxAttempts then counted.(used := true) else counted])
    else s
  }

  predicate ClaimsReset(policy: Policy, s: State, id: ResetId, at: Time) {
    && id in s.resets && !s.resets[id].used && s.resets[id].expiresAt > at && s.resets[id].attemptCount < policy.resetMaxAttempts
  }

  /** The end of resetPassword: the transaction uses up every request of the user and deletes every refresh token. */
  function FinishResetNext(policy: Policy, verifies: (Hash, Secret) -> bool, s: State, request: RequestId): State {
    if request !in s.inFlight || !s.inFlight[request].Resetting? then s
    else
      var actor := s.inFlight[request];
      var done := s.(inFlight := s.inFlight - {request});
      if !verifies(actor.read.codeHash, actor.secret) then RecordFailedReset(policy, done, actor.reset, actor.read, actor.at)
      else if !ClaimsReset(policy, s, actor.reset, actor.at) || actor.read.user !in s.users then done
      else done.(resets := map r | r in s.resets :: if s.resets[r].user == actor.read.user then s.resets[r].(used := true) else s.resets[r],
                 tokens := map t | t in s.tokens && s.tokens[t].user != actor.read.user :: s.tokens[t])
  }

  // ----- runs -----

  function Next(policy: Policy, verifies: (Hash, Secret) -> bool, s: State, a: Action): State {
    match a
    case Register(email, id, codeHash, now) => RegisterNext(policy, s, email, id, codeHash, now)
    case Resend(email, codeHash, now) => ResendNext(policy, s, email, codeHash, now)
    case InvalidateCode(id, codeHash, now) => InvalidateNext(policy, s, id, codeHash, now)
    case BeginVerification(request, email, id, code, now) => BeginVerificationNext(policy, s, request, email, id, code, now)
    case FinishVerification(request, user, token, tokenHash, now) =>
      FinishVerificationNext(policy, verifies, s, request, user, token, tokenHash, now)
    case Login(user, token, tokenHash, now) => LoginNext(policy, s, user, token, tokenHash, now)
    case BeginRefresh(request, token, user, presented, now) => BeginRefreshNext(verifies, s, request, token, user, presented, now)
    case FinishRefresh(request, next, tokenHash, now) => FinishRefreshNext(policy, s, request, next, tokenHash, now)
    case Logout(token, user) => LogoutNext(s, token, user)
    case ForgotPassword(user, id, codeHash, now) => ForgotNext(policy, s, user, id, codeHash, now)
    case InvalidateReset(id) => InvalidateResetNext(s, id)
    case BeginReset(request, id, secret, now) => BeginResetNext(policy, s, request, id, secret, now)
    case FinishReset(request) => FinishResetNext(policy, verifies, s, request)
  }

  function After(policy: Policy, verifies: (Hash, Secret) -> bool, s: State, run: seq<Action>): State {
    if run == [] then s
    else Next(policy, verifies, After(policy, verifies, s, run[..|run| - 1]), run[|run| - 1])
  }
}

/** What holds in every run of the authentication protocols. */
module AuthLaws {
  import opened Rows
  import opened Auth

  // ----- the invariant -----

  /** One registration per address, and no counter above the maximum. */
  ghost predicate PendingsSane(policy: Policy, pendings: map<PendingId, Registration>, known: set<PendingId>) {
    && (forall p, q | p in pendings && q in pendings && pendings[p].email == pendings[q].email :: p == q)
    && (forall p | p in pendings :: p in known && pendings[p].attemptCount <= policy.maxAttempts)
  }

  ghost predicate UsersSane(users: map<UserId, Email>) {
    forall u, v | u in users && v in users && users[u] == users[v] :: u == v
  }

  predicate ResetsSane(policy: Policy, resets: map<ResetId, Reset>, known: set<ResetId>) {
    forall r | r in resets :: r in known && resets[r].attemptCount <= policy.resetMaxAttempts
  }

  predicate ReadInTime(policy: Policy, past: Past, actor: InFlight) {
    match actor
    case Verifying(pending, row, _, _) => pending in past.pendings && row.attemptCount < policy.maxAttempts
    case Refreshing(token, _) => token in past.tokens
    case Resetting(reset, read, _, _) => reset in past.resets && read.attemptCount < policy.resetMaxAttempts
  }

  predicate FlightsSane(policy: Policy, past: Past, inFlight: map<RequestId, InFlight>) {
    forall i | i in inFlight :: ReadInTime(policy, past, inFlight[i])
  }

  ghost predicate Sane(policy: Policy, s: State) {
    && PendingsSane(policy, s.pendings, s.past.pendings)
    && UsersSane(s.users)
    && ResetsSane(policy, s.resets, s.past.resets)
    && s.tokens.Keys <= s.past.tokens.Keys
    && FlightsSane(policy, s.past, s.inFlight)
  }

  lemma RegisterIsSane(policy: Policy, s: State, email: Email, id: PendingId, codeHash: Hash, now: Time)
    requires Sane(policy, s)
    ensures Sane(policy, RegisterNext(policy, s, email, id, codeHash, now))
  {
    var after := RegisterNext(policy, s, email, id, codeHash, now);
    assert PendingsSane(policy, after.pendings, after.past.pendings);
  }

  lemma ResendIsSane(policy: Policy, s: State, email: Email, codeHash: Hash, now: Time)
    requires Sane(policy, s)
    ensures Sane(policy, ResendNext(policy, s, email, codeHash, now))
  {
    var after := ResendNext(policy, s, email, codeHash, now);
    assert PendingsSane(policy, after.pendings, s.past.pendings);
  }

  lemma InvalidationIsSane(policy: Policy, s: State, id: PendingId, codeHash: Hash, now: Time)
    requires Sane(policy, s)
    ensures Sane(policy, InvalidateNext(policy, s, id, codeHash, now))
  {
    var after := InvalidateNext(policy, s, id, codeHash, now);
    assert PendingsSane(policy, after.pendings, s.past.pendings);
  }

  lemma BeginningIsSane(policy: Policy, s: State, request: RequestId, email: Email, id: PendingId, code: Secret, now: Time)
    requires Sane(policy, s)
    ensures Sane(policy, BeginVerificationNext(policy, s, request, email, id, code, now))
  {
    var after := BeginVerificationNext(policy, s, request, email, id, code, now);
    assert PendingsSane(policy, after.pendings, s.past.pendings);
  }

  lemma RecordedAttemptIsSane(policy: Policy, s: State, id: PendingId, read: Registration, at: Time)
    requires PendingsSane(policy, s.pendings, s.past.pendings) && read.attemptCount < policy.maxAttempts
    ensures var after := RecordFailedAttempt(policy, s, id, read, at);
            PendingsSane(policy, after.pendings, s.past.pendings) && after == s.(pendings := after.pendings)
  {
  }

  lemma NewUserIsSane(users: map<UserId, Email>, user: UserId, email: Email)
    requires UsersSane(users) && !EmailTaken(users, email)
    ensures UsersSane(users[user := email])
  {
  }

  lemma VerificationIsSane(policy: Policy, verifies: (Hash, Secret) -> bool, s: State, request: RequestId, user: UserId,
                           token: TokenId, tokenHash: Hash, now: Time)
    requires Sane(policy, s)
    ensures Sane(policy, FinishVerificationNext(policy, verifies, s, request, user, token, tokenHash, now))
  {
    if request in s.inFlight && s.inFlight[request].Verifying? {
      var actor := s.inFlight[request];
      var done := s.(inFlight := s.inFlight - {request});
      assert ReadInTime(policy, s.past, actor);
      RecordedAttemptIsSane(policy, done, actor.pending, actor.row, actor.now);
      if !EmailTaken(s.users, actor.row.email) { NewUserIsSane(s.users, user, actor.row.email); }
      if verifies(actor.row.codeHash, actor.code) { ClaimIsSane(policy, verifies, s, request, user, token, tokenHash, now); }
    }
  }

  lemma ClaimIsSane(policy: Policy, verifies: (Hash, Secret) -> bool, s: State, request: RequestId, user: UserId,
                    token: TokenId, tokenHash: Hash, now: Time)
    requires Sane(policy, s) && request in s.inFlight && s.inFlight[request].Verifying?
    requires verifies(s.inFlight[request].row.codeHash, s.inFlight[request].code)
    ensures var after := FinishVerificationNext(policy, verifies, s, request, user, token, tokenHash, now);
            && PendingsSane(policy, after.pendings, after.past.pendings) && after.tokens.Keys <= after.past.tokens.Keys
            && FlightsSane(policy, after.past, after.inFlight) && after.resets == s.resets && after.past.resets == s.past.resets
            && (after.users == s.users
                || (!EmailTaken(s.users, s.inFlight[request].row.email) && after.users == s.users[user := s.inFlight[request].row.email]))
  {
    var after := FinishVerificationNext(policy, verifies, s, request, user, token, tokenHash, now);
    assert after.inFlight == s.inFlight - {request} && after.past.pendings == s.past.pendings;
    FlightsStaySane(policy, s.past, after.past, s.inFlight, after.inFlight);
  }

  /** Fewer requests with more behind them. */
  lemma FlightsStaySane(policy: Policy, past: Past, past': Past, inFlight: map<RequestId, InFlight>, inFlight': map<RequestId, InFlight>)
    requires FlightsSane(policy, past, inFlight)
    requires past.pendings <= past'.pendings && past.tokens.Keys <= past'.tokens.Keys && past.resets <= past'.resets
    requires forall i | i in inFlight' :: i in inFlight && inFlight'[i] == inFlight[i]
    ensures FlightsSane(policy, past', inFlight')
  {
  }

  lemma SessionStepIsSane(policy: Policy, verifies: (Hash, Secret) -> bool, s: State, a: Action)
    requires Sane(policy, s) && (a.Login? || a.BeginRefresh? || a.Logout?)
    ensures Sane(policy, Next(policy, verifies, s, a))
  {
    var after := Next(policy, verifies, s, a);
    assert FlightsSane(policy, after.past, after.inFlight);
  }

  lemma FinishRefreshIsSane(policy: Policy, s: State, request: RequestId, next: TokenId, tokenHash: Hash, now: Time)
    requires Sane(policy, s)
    ensures Sane(policy, FinishRefreshNext(policy, s, request, next, tokenHash, now))
  {
    var after := FinishRefreshNext(policy, s, request, next, tokenHash, now);
    assert FlightsSane(policy, after.past, after.inFlight);
  }

  lemma ForgotIsSane(policy: Policy, s: State, user: UserId, id: ResetId, codeHash: Hash, now: Time)
    requires Sane(policy, s)
    ensures Sane(policy, ForgotNext(policy, s, user, id, codeHash, now))
  {
    var after := ForgotNext(policy, s, user, id, codeHash, now);
    assert ResetsSane(policy, after.resets, after.past.resets);
  }

  lemma BeginResetIsSane(policy: Policy, s: State, request: RequestId, id: ResetId, secret: Secret, now: Time)
    requires Sane(policy, s)
    ensures Sane(policy, BeginResetNext(policy, s, request, id, secret, now)) && Sane(policy, InvalidateResetNext(s, id))
  {
  }

  lemma FinishResetIsSane(policy: Policy, verifies: (Hash, Secret) -> bool, s: State, request: RequestId)
    requires Sane(policy, s)
    ensures Sane(policy, FinishResetNext(policy, verifies, s, request))
  {
    var after := FinishResetNext(policy, verifies, s, request);
    if request in s.inFlight { assert ReadInTime(policy, s.past, s.inFlight[request]); }
    assert ResetsSane(policy, after.resets, after.past.resets);
  }

  lemma StepIsSane(policy: Policy, verifies: (Hash, Secret) -> bool, s: State, a: Action)
    requires Sane(policy, s)
    ensures Sane(policy, Next(policy, verifies, s, a))
  {
    match a
    case Register(email, id, codeHash, now) => RegisterIsSane(policy, s, email, id, codeHash, now);
    case FinishVerification(request, user, token, tokenHash, now) =>
      VerificationIsSane(policy, verifies, s, request, user, token, tokenHash, now);
    case Resend(email, codeHash, now) => ResendIsSane(policy, s, email, codeHash, now);
    case InvalidateCode(id, codeHash, now) => InvalidationIsSane(policy, s, id, codeHash, now);
    case BeginVerification(request, email, id, code, now) => BeginningIsSane(policy, s, request, email, id, code, now);
    case Login(_, _, _, _) => SessionStepIsSane(policy, verifies, s, a);
    case BeginRefresh(_, _, _, _, _) => SessionStepIsSane(policy, verifies, s, a);
    case FinishRefresh(request, next, tokenHash, now) => FinishRefreshIsSane(policy, s, request, next, tokenHash, now);
    case Logout(_, _) => SessionStepIsSane(policy, verifies, s, a);
    case ForgotPassword(user, id, codeHash, now) => ForgotIsSane(policy, s, user, id, codeHash, now);
    case InvalidateReset(id) => BeginResetIsSane(policy, s, 0, id, 0, 0);
    case BeginReset(request, id, secret, now) => BeginResetIsSane(policy, s, request, id, secret, now);
    case FinishReset(request) => FinishResetIsSane(policy, verifies, s, request);
  }

  lemma {:induction false} EveryRunIsSane(policy: Policy, verifies: (Hash, Secret) -> bool, run: seq<Action>)
    ensures Sane(policy, After(policy, verifies, START, run))
  {
    if run != [] {
      var n := |run| - 1;
      EveryRunIsSane(policy, verifies, run[..n]);
      StepIsSane(policy, verifies, After(policy, verifies, START, run[..n]), run[n]);
    }
  }

  ghost function Reached(policy: Policy, verifies: (Hash, Secret) -> bool, run: seq<Action>): State {
    After(policy, verifies, START, run)
  }

  lemma ReachedStep(policy: Policy, verifies: (Hash, Secret) -> bool, run: seq<Action>, a: Action)
    ensures Reached(policy, verifies, run + [a]) == Next(policy, verifies, Reached(policy, verifies, run), a)
  {
    assert (run + [a])[..|run|] == run;
  }

  /** The stored attempt counts never exceed their maximum, and an address has one registration and one user. */
  lemma CountersStayWithinMaximum(policy: Policy, verifies: (Hash, Secret) -> bool, run: seq<Action>)
    ensures var s := Reached(policy, verifies, run);
            && (forall p | p in s.pendings :: s.pendings[p].attemptCount <= policy.maxAttempts)
            && (forall r | r in s.resets :: s.resets[r].attemptCount <= policy.resetMaxAttempts)
            && (forall p, q | p in s.pendings && q in s.pendings && s.pendings[p].email == s.pendings[q].email :: p == q)
            && (forall u, v | u in s.users && v in s.users && s.users[u] == s.users[v] :: u == v)
  {
    EveryRunIsSane(policy, verifies, run);
  }

  // ----- what is gone or used stays so -----

  /** Registrations and tokens that are gone never come back; a used reset request is never unused. */
  ghost predicate Forgotten(s: State, after: State) {
    && s.past.pendings <= after.past.pendings && s.past.tokens.Keys <= after.past.tokens.Keys
    && (forall p | p in s.past.pendings && p in after.pendings :: p in s.pendings)
    && (forall t | t in s.past.tokens && t in after.tokens :: t in s.tokens)
    && (forall r | r in s.resets :: r in after.resets && after.resets[r].user == s.resets[r].user && (s.resets[r].used ==> after.resets[r].used))
  }

  lemma CodeStepForgets(policy: Policy, verifies: (Hash, Secret) -> bool, s: State, a: Action)
    requires Sane(policy, s)
    requires a.Register? || a.Resend? || a.InvalidateCode? || a.BeginVerification?
    ensures Forgotten(s, Next(policy, verifies, s, a))
  {
  }

  lemma VerificationForgets(policy: Policy, verifies: (Hash, Secret) -> bool, s: State, a: Action)
    requires Sane(policy, s) && a.FinishVerification?
    ensures Forgotten(s, Next(policy, verifies, s, a))
  {
  }

  lemma TokenStepForgets(policy: Policy, verifies: (Hash, Secret) -> bool, s: State, a: Action)
    requires Sane(policy, s) && (a.Login? || a.BeginRefresh? || a.FinishRefresh? || a.Logout?)
    ensures Forgotten(s, Next(policy, verifies, s, a))
  {
  }

  lemma ResetReadForgets(policy: Policy, verifies: (Hash, Secret) -> bool, s: State, a: Action)
    requires Sane(policy, s) && (a.ForgotPassword? || a.InvalidateReset? || a.BeginReset?)
    ensures Forgotten(s, Next(policy, verifies, s, a))
  {
  }

  lemma FinishResetForgets(policy: Policy, verifies: (Hash, Secret) -> bool, s: State, request: RequestId)
    requires Sane(policy, s)
    ensures Forgotten(s, FinishResetNext(policy, verifies, s, request))
  {
  }

  lemma StepForgets(policy: Policy, verifies: (Hash, Secret) -> bool, s: State, a: Action)
    requires Sane(policy, s)
    ensures Forgotten(s, Next(policy, verifies, s, a))
  {
    if a.Register? || a.Resend? || a.InvalidateCode? || a.BeginVerification? {
      CodeStepForgets(policy, verifies, s, a);
    } else if a.FinishVerification? {
      VerificationForgets(policy, verifies, s, a);
    } else if a.Login? || a.BeginRefresh? || a.FinishRefresh? || a.Logout? {
      TokenStepForgets(policy, verifies, s, a);
    } else if a.FinishReset? {
      FinishResetForgets(policy, verifies, s, a.request);
    } else {
      ResetReadForgets(policy, verifies, s, a);
    }
  }

  lemma {:induction false} RunForgets(policy: Policy, verifies: (Hash, Secret) -> bool, run: seq<Action>, rest: seq<Action>)
    ensures Forgotten(Reached(policy, verifies, run), Reached(policy, verifies, run + rest))
  {
    if rest == [] {
      assert run + rest == run;
      EveryRunIsSane(policy, verifies, run);
    } else {
      var n := |rest| - 1;
      assert run + rest == run + rest[..n] + [rest[n]];
      ReachedStep(policy, verifies, run + rest[..n], rest[n]);
      RunForgets(policy, verifies, run, rest[..n]);
      EveryRunIsSane(policy, verifies, run + rest[..n]);
      StepForgets(policy, verifies, Reached(policy, verifies, run + rest[..n]), rest[n]);
    }
  }

  // ----- one user per registration -----

  /** The registration that this action turns into a user. */
  function UserFrom(policy: Policy, verifies: (Hash, Secret) -> bool, s: State, a: Action): Option<PendingId> {
    if a.FinishVerification? && a.request in s.inFlight && s.inFlight[a.request].Verifying?
       && a.user !in s.users && a.user in Next(policy, verifies, s, a).users
    then Some(s.inFlight[a.request].pending) else None
  }

  /** A user comes only from a registration that is there, by a code that verifies against its current hash, and the
      registration goes in the same step. */
  lemma UserNeedsTheCurrentCode(policy: Policy, verifies: (Hash, Secret) -> bool, s: State, a: Action)
    ensures Next(policy, verifies, s, a).users != s.users ==> UserFrom(policy, verifies, s, a).Some?
    ensures UserFrom(policy, verifies, s, a).Some? ==>
              var p := UserFrom(policy, verifies, s, a).value; var after := Next(policy, verifies, s, a); var actor := s.inFlight[a.request];
              && p in s.pendings && verifies(s.pendings[p].codeHash, actor.code)
              && s.pendings[p].attemptCount < policy.maxAttempts && s.pendings[p].expiresAt > actor.now
              && !EmailTaken(s.users, s.pendings[p].email) && after.users == s.users[a.user := s.pendings[p].email]
              && p !in after.pendings
  {
  }

  /** Each registration yields at most one user, however verifications, resends and registrations interleave. */
  lemma OneUserPerRegistration(policy: Policy, verifies: (Hash, Secret) -> bool, run: seq<Action>, a: Action, between: seq<Action>, b: Action)
    requires UserFrom(policy, verifies, Reached(policy, verifies, run), a).Some?
    ensures UserFrom(policy, verifies, Reached(policy, verifies, run + [a] + between), b)
            != UserFrom(policy, verifies, Reached(policy, verifies, run), a)
  {
    var s := Reached(policy, verifies, run);
    UserNeedsTheCurrentCode(policy, verifies, s, a);
    EveryRunIsSane(policy, verifies, run);
    ReachedStep(policy, verifies, run, a);
    StepForgets(policy, verifies, s, a);
    RunForgets(policy, verifies, run + [a], between);
    UserNeedsTheCurrentCode(policy, verifies, Reached(policy, verifies, run + [a] + between), b);
  }

  // ----- one rotation per refresh token -----

  /** The token that this action exchanges for a new one. */
  function Rotates(policy: Policy, verifies: (Hash, Secret) -> bool, s: State, a: Action): Option<TokenId> {
    if a.FinishRefresh? && a.request in s.inFlight && s.inFlight[a.request].Refreshing?
       && a.next !in s.past.tokens && a.next in Next(policy, verifies, s, a).tokens
    then Some(s.inFlight[a.request].token) else None
  }

  lemma RotationConsumes(policy: Policy, verifies: (Hash, Secret) -> bool, s: State, a: Action)
    requires Sane(policy, s) && Rotates(policy, verifies, s, a).Some?
    ensures var t := Rotates(policy, verifies, s, a).value; var after := Next(policy, verifies, s, a);
            && t in s.tokens && t !in after.tokens && t in s.past.tokens
            && s.tokens[t].user == s.inFlight[a.request].user && after.tokens[a.next].user == s.tokens[t].user
            && after.past.tokens[a.next] == s.past.tokens[t]
  {
  }

  /** A refresh token rotates at most once, however many refreshes read it before one of them commits. */
  lemma TokenRotatesOnce(policy: Policy, verifies: (Hash, Secret) -> bool, run: seq<Action>, a: Action, between: seq<Action>, b: Action)
    requires Rotates(policy, verifies, Reached(policy, verifies, run), a).Some?
    ensures Rotates(policy, verifies, Reached(policy, verifies, run + [a] + between), b)
            != Rotates(policy, verifies, Reached(policy, verifies, run), a)
  {
    var s := Reached(policy, verifies, run);
    var later := Reached(policy, verifies, run + [a] + between);
    EveryRunIsSane(policy, verifies, run);
    RotationConsumes(policy, verifies, s, a);
    ReachedStep(policy, verifies, run, a);
    StepForgets(policy, verifies, s, a);
    RunForgets(policy, verifies, run + [a], between);
    EveryRunIsSane(policy, verifies, run + [a] + between);
    if Rotates(policy, verifies, later, b).Some? { RotationConsumes(policy, verifies, later, b); }
  }

  // ----- password resets -----

  /** The reset request with which this action changes a password. */
  function ResetBy(policy: Policy, verifies: (Hash, Secret) -> bool, s: State, a: Action): Option<ResetId> {
    if a.FinishReset? && a.request in s.inFlight && s.inFlight[a.request].Resetting?
       && var actor := s.inFlight[a.request];
          verifies(actor.read.codeHash, actor.secret) && ClaimsReset(policy, s, actor.reset, actor.at) && actor.read.user in s.users
    then Some(s.inFlight[a.request].reset) else None
  }

  /** In flight a reset remembers the user of its request. */
  ghost predicate ResetsRemember(s: State) {
    forall i | i in s.inFlight && s.inFlight[i].Resetting? ::
      var actor := s.inFlight[i];
      actor.reset in s.resets && s.resets[actor.reset].user == actor.read.user && s.resets[actor.reset].codeHash == actor.read.codeHash
  }

  lemma StepRemembers(policy: Policy, verifies: (Hash, Secret) -> bool, s: State, a: Action)
    requires Sane(policy, s) && ResetsRemember(s)
    ensures ResetsRemember(Next(policy, verifies, s, a))
  {
    if a.Register? || a.Resend? || a.InvalidateCode? || a.BeginVerification? || a.Login? || a.BeginRefresh? || a.FinishRefresh? || a.Logout? {
      OthersRemember(policy, verifies, s, a);
    } else if a.FinishVerification? {
      VerificationRemembers(policy, verifies, s, a);
    } else if a.FinishReset? {
      FinishRemembers(policy, verifies, s, a.request);
    } else {
      ResetsAreRemembered(policy, verifies, s, a);
    }
  }

  lemma OthersRemember(policy: Policy, verifies: (Hash, Secret) -> bool, s: State, a: Action)
    requires ResetsRemember(s)
    requires a.Register? || a.Resend? || a.InvalidateCode? || a.BeginVerification? || a.Login? || a.BeginRefresh? || a.FinishRefresh? || a.Logout?
    ensures ResetsRemember(Next(policy, verifies, s, a))
  {
  }

  lemma VerificationRemembers(policy: Policy, verifies: (Hash, Secret) -> bool, s: State, a: Action)
    requires ResetsRemember(s) && a.FinishVerification?
    ensures ResetsRemember(Next(policy, verifies, s, a))
  {
  }

  lemma ResetsAreRemembered(policy: Policy, verifies: (Hash, Secret) -> bool, s: State, a: Action)
    requires Sane(policy, s) && ResetsRemember(s)
    requires a.ForgotPassword? || a.InvalidateReset? || a.BeginReset?
    ensures ResetsRemember(Next(policy, verifies, s, a))
  {
  }

  lemma FinishRemembers(policy: Policy, verifies: (Hash, Secret) -> bool, s: State, request: RequestId)
    requires ResetsRemember(s)
    ensures ResetsRemember(FinishResetNext(policy, verifies, s, request))
  {
  }

  lemma {:induction false} RunsRemember(policy: Policy, verifies: (Hash, Secret) -> bool, run: seq<Action>)
    ensures ResetsRemember(Reached(policy, verifies, run))
  {
    if run != [] {
      var n := |run| - 1;
      RunsRemember(policy, verifies, run[..n]);
      EveryRunIsSane(policy, verifies, run[..n]);
      StepRemembers(policy, verifies, Reached(policy, verifies, run[..n]), run[n]);
    }
  }

  lemma ResetUsesUp(policy: Policy, verifies: (Hash, Secret) -> bool, s: State, a: Action)
    requires ResetsRemember(s) && ResetBy(policy, verifies, s, a).Some?
    ensures var r := ResetBy(policy, verifies, s, a).value; var after := Next(policy, verifies, s, a); var user := s.resets[r].user;
            && r in s.resets && !s.resets[r].used && verifies(s.resets[r].codeHash, s.inFlight[a.request].secret)
            && (forall q | q in after.resets && after.resets[q].user == user :: after.resets[q].used)
            && (forall t | t in after.tokens :: after.tokens[t].user != user)
            && after.resets.Keys == s.resets.Keys && after.resets[r].user == user && after.past.tokens == s.past.tokens
  {
  }

  /** A reset request changes the password at most once, and only by its own code. */
  lemma ResetIsSingleUse(policy: Policy, verifies: (Hash, Secret) -> bool, run: seq<Action>, a: Action, between: seq<Action>, b: Action)
    requires ResetBy(policy, verifies, Reached(policy, verifies, run), a).Some?
    ensures ResetBy(policy, verifies, Reached(policy, verifies, run + [a] + between), b)
            != ResetBy(policy, verifies, Reached(policy, verifies, run), a)
  {
    var s := Reached(policy, verifies, run);
    var later := Reached(policy, verifies, run + [a] + between);
    RunsRemember(policy, verifies, run);
    ResetUsesUp(policy, verifies, s, a);
    ReachedStep(policy, verifies, run, a);
    RunForgets(policy, verifies, run + [a], between);
    RunsRemember(policy, verifies, run + [a] + between);
    if ResetBy(policy, verifies, later, b).Some? { ResetUsesUp(policy, verifies, later, b); }
  }

  // ----- chains of refresh tokens across a reset -----

  /** No live token of the user belongs to a chain that began among these tokens. */
  ghost predicate ChainsCut(s: State, user: UserId, issued: set<TokenId>) {
    && issued <= s.past.tokens.Keys
    && forall t | t in s.tokens && s.tokens[t].user == user :: t in s.past.tokens && s.past.tokens[t] !in issued
  }

  lemma StepKeepsChainsCut(policy: Policy, verifies: (Hash, Secret) -> bool, s: State, a: Action, user: UserId, issued: set<TokenId>)
    requires ChainsCut(s, user, issued)
    ensures ChainsCut(Next(policy, verifies, s, a), user, issued)
  {
    if a.FinishVerification? || a.Login? || a.FinishRefresh? {
      IssuingKeepsChainsCut(policy, verifies, s, a, user, issued);
    } else {
      TokensFade(policy, verifies, s, a);
    }
  }

  lemma IssuingKeepsChainsCut(policy: Policy, verifies: (Hash, Secret) -> bool, s: State, a: Action, user: UserId, issued: set<TokenId>)
    requires ChainsCut(s, user, issued) && (a.FinishVerification? || a.Login? || a.FinishRefresh?)
    ensures ChainsCut(Next(policy, verifies, s, a), user, issued)
  {
  }

  lemma TokensFade(policy: Policy, verifies: (Hash, Secret) -> bool, s: State, a: Action)
    requires !a.FinishVerification? && !a.Login? && !a.FinishRefresh?
    ensures var after := Next(policy, verifies, s, a);
            after.past.tokens == s.past.tokens && forall t | t in after.tokens :: t in s.tokens && after.tokens[t] == s.tokens[t]
  {
  }

  lemma {:induction false} RunKeepsChainsCut(policy: Policy, verifies: (Hash, Secret) -> bool, run: seq<Action>, rest: seq<Action>,
                                             user: UserId, issued: set<TokenId>)
    requires ChainsCut(Reached(policy, verifies, run), user, issued)
    ensures ChainsCut(Reached(policy, verifies, run + rest), user, issued)
  {
    if rest == [] {
      assert run + rest == run;
    } else {
      var n := |rest| - 1;
      assert run + rest == run + rest[..n] + [rest[n]];
      ReachedStep(policy, verifies, run + rest[..n], rest[n]);
      RunKeepsChainsCut(policy, verifies, run, rest[..n], user, issued);
      StepKeepsChainsCut(policy, verifies, Reached(policy, verifies, run + rest[..n]), rest[n], user, issued);
    }
  }

  /** A password reset ends every session: no token of a chain whose first token was issued before the reset
      committed is live or accepted afterwards, not even for a refresh that had read its token before. */
  lemma ResetEndsEveryChain(policy: Policy, verifies: (Hash, Secret) -> bool, run: seq<Action>, a: Action, rest: seq<Action>, b: Action)
    requires ResetBy(policy, verifies, Reached(policy, verifies, run), a).Some?
    ensures var s := Reached(policy, verifies, run); var later := Reached(policy, verifies, run + [a] + rest);
            var r := ResetBy(policy, verifies, s, a).value;
            r in s.resets
            && (forall t | t in later.tokens && later.tokens[t].user == s.resets[r].user ::
                  t in later.past.tokens && later.past.tokens[t] !in s.past.tokens)
            && (Rotates(policy, verifies, later, b).Some? && later.inFlight[b.request].user == s.resets[r].user ==>
                  var t := Rotates(policy, verifies, later, b).value; t in later.past.tokens && later.past.tokens[t] !in s.past.tokens)
  {
    var s := Reached(policy, verifies, run);
    var later := Reached(policy, verifies, run + [a] + rest);
    RunsRemember(policy, verifies, run);
    ResetUsesUp(policy, verifies, s, a);
    ReachedStep(policy, verifies, run, a);
    var user := s.resets[ResetBy(policy, verifies, s, a).value].user;
    RunKeepsChainsCut(policy, verifies, run + [a], rest, user, s.past.tokens.Keys);
    EveryRunIsSane(policy, verifies, run + [a] + rest);
    if Rotates(policy, verifies, later, b).Some? { RotationConsumes(policy, verifies, later, b); }
  }
}
