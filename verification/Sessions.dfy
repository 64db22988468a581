/** What the tokens and codes that were handed out are good for: every token is
    accepted until it expires, is exchanged, is logged out or is ended by a reset,
    and a right code in time opens the account or changes the password. */
module Sessions {
  import opened Rows
  import opened Auth
  import opened AuthLaws

  // ----- presenting a token -----

  /** A presented token is under way to be exchanged. */
  predicate Begins(policy: Policy, verifies: (Hash, Secret) -> bool, s: State, request: RequestId, token: TokenId, user: UserId,
                   presented: Secret, now: Time) {
    var after := Next(policy, verifies, s, BeginRefresh(request, token, user, presented, now));
    request in after.inFlight && after.inFlight[request] == Refreshing(token, user)
  }

  /** Exactly when its row is there, is the user's, has not expired and holds the hash of what is presented. */
  lemma BeginsIff(policy: Policy, verifies: (Hash, Secret) -> bool, s: State, request: RequestId, token: TokenId, user: UserId,
                  presented: Secret, now: Time)
    requires request !in s.inFlight
    ensures Begins(policy, verifies, s, request, token, user, presented, now)
       <==> token in s.tokens && s.tokens[token].user == user && now < s.tokens[token].expiresAt && verifies(s.tokens[token].tokenHash, presented)
    ensures var after := Next(policy, verifies, s, BeginRefresh(request, token, user, presented, now));
            after == if Begins(policy, verifies, s, request, token, user, presented, now)
                     then s.(inFlight := s.inFlight[request := Refreshing(token, user)]) else s
  {
  }

  /** The exchange that a request has begun takes place exactly while the row is still the user's: the old row goes, and the
      new one is the user's, holds the new hash and lives as long as the policy says. */
  lemma ExchangedIff(policy: Policy, verifies: (Hash, Secret) -> bool, s: State, request: RequestId, next: TokenId, tokenHash: Hash, now: Time)
    requires Sane(policy, s) && request in s.inFlight && s.inFlight[request].Refreshing? && next !in s.past.tokens
    ensures var token := s.inFlight[request].token; var user := s.inFlight[request].user;
            var after := Next(policy, verifies, s, FinishRefresh(request, next, tokenHash, now));
            after.tokens == if token in s.tokens && s.tokens[token].user == user
                            then (s.tokens - {token})[next := RefreshRow(user, tokenHash, now + policy.refreshTtlMs)] else s.tokens
  {
  }

  // ----- tokens that were handed out -----

  /** An answer of an action: a token of a user, by its hash and the time it was made. */
  datatype Answer = Answer(token: TokenId, user: UserId, tokenHash: Hash, now: Time)

  /** What the answer of an action that issues a token says. */
  function AnswerTo(s: State, a: Action): Option<Answer> {
    match a
    case Login(user, token, tokenHash, now) => Some(Answer(token, user, tokenHash, now))
    case FinishVerification(_, user, token, tokenHash, now) => Some(Answer(token, user, tokenHash, now))
    case FinishRefresh(request, next, tokenHash, now) =>
      if request in s.inFlight && s.inFlight[request].Refreshing? then Some(Answer(next, s.inFlight[request].user, tokenHash, now)) else None
    case _ => None
  }

  /** The token is live from this action on. */
  predicate Issues(policy: Policy, verifies: (Hash, Secret) -> bool, s: State, a: Action, token: TokenId) {
    token !in s.past.tokens && token in Next(policy, verifies, s, a).tokens
  }

  /** A live row is as it was answered. */
  predicate AsAnswered(policy: Policy, tokens: map<TokenId, RefreshRow>, answer: Answer) {
    answer.token in tokens ==>
      && tokens[answer.token].user == answer.user && tokens[answer.token].tokenHash == answer.tokenHash
      && tokens[answer.token].expiresAt == answer.now + policy.refreshTtlMs
  }

  /** Only these actions issue tokens, and the row is the one their answer describes. */
  lemma IssuedAsAnswered(policy: Policy, verifies: (Hash, Secret) -> bool, s: State, a: Action, token: TokenId)
    requires Sane(policy, s) && Issues(policy, verifies, s, a, token)
    ensures AnswerTo(s, a).Some? && AnswerTo(s, a).value.token == token
    ensures AsAnswered(policy, Next(policy, verifies, s, a).tokens, AnswerTo(s, a).value)
  {
    if !a.FinishVerification? && !a.Login? && !a.FinishRefresh? { TokensFade(policy, verifies, s, a); }
  }

  lemma StepKeepsAnswer(policy: Policy, verifies: (Hash, Secret) -> bool, s: State, a: Action, answer: Answer)
    requires answer.token in s.past.tokens && AsAnswered(policy, s.tokens, answer)
    ensures answer.token in Next(policy, verifies, s, a).past.tokens && AsAnswered(policy, Next(policy, verifies, s, a).tokens, answer)
  {
    if !a.FinishVerification? && !a.Login? && !a.FinishRefresh? { TokensFade(policy, verifies, s, a); }
  }

  lemma {:induction false} RunKeepsAnswer(policy: Policy, verifies: (Hash, Secret) -> bool, s: State, run: seq<Action>, answer: Answer)
    requires answer.token in s.past.tokens && AsAnswered(policy, s.tokens, answer)
    ensures var later := After(policy, verifies, s, run); answer.token in later.past.tokens && AsAnswered(policy, later.tokens, answer)
  {
    if run != [] {
      var n := |run| - 1;
      RunKeepsAnswer(policy, verifies, s, run[..n], answer);
      StepKeepsAnswer(policy, verifies, After(policy, verifies, s, run[..n]), run[n], answer);
    }
  }

  lemma {:induction false} ReachedConcat(policy: Policy, verifies: (Hash, Secret) -> bool, run: seq<Action>, rest: seq<Action>)
    ensures Reached(policy, verifies, run + rest) == After(policy, verifies, Reached(policy, verifies, run), rest)
  {
    if rest == [] {
      assert run + rest == run;
    } else {
      var n := |rest| - 1;
      ReachedConcat(policy, verifies, run, rest[..n]);
      assert run + rest == run + rest[..n] + [rest[n]];
      ReachedStep(policy, verifies, run + rest[..n], rest[n]);
    }
  }

  /** A token that a login, a verified registration or an exchange handed out is accepted, whatever has happened since and
      while its row is live, exactly from its user, as what was handed out, and before it is as old as the policy allows. */
  lemma IssuedTokenIsAccepted(policy: Policy, verifies: (Hash, Secret) -> bool, run: seq<Action>, a: Action, between: seq<Action>, token: TokenId,
                              request: RequestId, user: UserId, presented: Secret, now: Time)
    requires Issues(policy, verifies, Reached(policy, verifies, run), a, token)
    requires var later := Reached(policy, verifies, run + [a] + between); token in later.tokens && request !in later.inFlight
    ensures var answer := AnswerTo(Reached(policy, verifies, run), a);
            && answer.Some? && answer.value.token == token
            && (Begins(policy, verifies, Reached(policy, verifies, run + [a] + between), request, token, user, presented, now)
                <==> user == answer.value.user && verifies(answer.value.tokenHash, presented) && now < answer.value.now + policy.refreshTtlMs)
  {
    var s := Reached(policy, verifies, run);
    EveryRunIsSane(policy, verifies, run);
    IssuedAsAnswered(policy, verifies, s, a, token);
    ReachedStep(policy, verifies, run, a);
    EveryRunIsSane(policy, verifies, run + [a]);
    RunKeepsAnswer(policy, verifies, Reached(policy, verifies, run + [a]), between, AnswerTo(s, a).value);
    ReachedConcat(policy, verifies, run + [a], between);
    BeginsIff(policy, verifies, Reached(policy, verifies, run + [a] + between), request, token, user, presented, now);
  }

  // ----- how long a token is live -----

  /** The actions that end a live token of a user: its exchange, its logout, and a password reset of the user. */
  predicate EndsToken(policy: Policy, verifies: (Hash, Secret) -> bool, s: State, a: Action, token: TokenId, user: UserId) {
    || Rotates(policy, verifies, s, a) == Some(token)
    || a == Logout(token, user)
    || (a.FinishReset? && ResetBy(policy, verifies, s, a).Some? && s.inFlight[a.request].read.user == user)
  }

  /** Nothing else does. */
  lemma TokenLivesUnlessEnded(policy: Policy, verifies: (Hash, Secret) -> bool, s: State, a: Action, token: TokenId)
    requires Sane(policy, s) && token in s.tokens
    ensures token in Next(policy, verifies, s, a).tokens <==> !EndsToken(policy, verifies, s, a, token, s.tokens[token].user)
  {
    if a.FinishReset? {
      ResetEndsTokensOf(policy, verifies, s, a.request, token);
    } else if a.FinishRefresh? || a.FinishVerification? || a.Login? {
      IssuingEndsOnlyRotated(policy, verifies, s, a, token);
    }
  }

  lemma ResetEndsTokensOf(policy: Policy, verifies: (Hash, Secret) -> bool, s: State, request: RequestId, token: TokenId)
    requires token in s.tokens
    ensures token in FinishResetNext(policy, verifies, s, request).tokens
       <==> !EndsToken(policy, verifies, s, FinishReset(request), token, s.tokens[token].user)
  {
  }

  lemma IssuingEndsOnlyRotated(policy: Policy, verifies: (Hash, Secret) -> bool, s: State, a: Action, token: TokenId)
    requires Sane(policy, s) && token in s.tokens && (a.FinishRefresh? || a.FinishVerification? || a.Login?)
    ensures token in Next(policy, verifies, s, a).tokens <==> Rotates(policy, verifies, s, a) != Some(token)
  {
  }

  /** A login issues a token to every user, under a fresh identifier. */
  lemma LoginIssues(policy: Policy, verifies: (Hash, Secret) -> bool, s: State, user: UserId, token: TokenId, tokenHash: Hash, now: Time)
    requires token !in s.past.tokens
    ensures var after := Next(policy, verifies, s, Login(user, token, tokenHash, now));
            after.tokens == if user in s.users then s.tokens[token := RefreshRow(user, tokenHash, now + policy.refreshTtlMs)] else s.tokens
  {
  }
}
