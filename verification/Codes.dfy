/** When a code is stored, read and accepted, in terms of the rows, and that the
    right code in time creates the user or changes the password. */
module Codes {
  import opened Rows
  import opened Auth
  import opened AuthLaws

  // ----- registrations -----

  /** Nobody has the address, and no registration of it is still open. */
  predicate Unregistered(s: State, email: Email, now: Time) {
    && (forall u | u in s.users :: s.users[u] != email)
    && (forall p | p in s.pendings && s.pendings[p].email == email :: s.pendings[p].pendingExpiresAt <= now)
  }

  /** Rows of other addresses are as before. */
  predicate OthersStay(pendings: map<PendingId, Registration>, after: map<PendingId, Registration>, email: Email) {
    && (forall p | p in pendings && pendings[p].email != email :: p in after && after[p] == pendings[p])
    && (forall p | p in after && after[p].email != email :: p in pendings)
  }

  /** A registration of the address opens exactly then, as the only one: with the hash of its code, no attempt counted, and
      both lifetimes from now. */
  lemma RegistersIff(policy: Policy, verifies: (Hash, Secret) -> bool, s: State, email: Email, id: PendingId, codeHash: Hash, now: Time)
    requires id !in s.past.pendings
    ensures var after := Next(policy, verifies, s, Register(email, id, codeHash, now));
            if Unregistered(s, email, now) then
              && id in after.pendings
              && after.pendings[id] == Registration(email, codeHash, now + policy.codeTtlMs, 0, now, now + policy.pendingTtlMs)
              && (forall p | p in after.pendings && after.pendings[p].email == email :: p == id)
              && (Sane(policy, s) ==> OthersStay(s.pendings, after.pendings, email))
              && after == s.(pendings := after.pendings, past := s.past.(pendings := s.past.pendings + {id}))
            else after == s
  {
    var after := Next(policy, verifies, s, Register(email, id, codeHash, now));
    if Unregistered(s, email, now) {
      var kept := map p | p in s.pendings && !(s.pendings[p].email == email && s.pendings[p].pendingExpiresAt <= now) :: s.pendings[p];
      assert after.pendings == kept[id := Registration(email, codeHash, now + policy.codeTtlMs, 0, now, now + policy.pendingTtlMs)];
    } else if p :| p in s.pendings && s.pendings[p].email == email && s.pendings[p].pendingExpiresAt > now {
      var kept := map p | p in s.pendings && !(s.pendings[p].email == email && s.pendings[p].pendingExpiresAt <= now) :: s.pendings[p];
      assert p in kept;
    }
  }

  /** A new code replaces the code of an open registration once the cooldown is over: the count and the lifetime of the code
      begin again, the lifetime of the registration does not. An expired registration goes. */
  lemma ResendsIff(policy: Policy, verifies: (Hash, Secret) -> bool, s: State, email: Email, codeHash: Hash, now: Time, p: PendingId)
    requires p in s.pendings
    ensures var row := s.pendings[p]; var after := Next(policy, verifies, s, Resend(email, codeHash, now)).pendings;
            var addressed := row.email == email && forall u | u in s.users :: s.users[u] != email;
            && (p in after <==> !(addressed && row.pendingExpiresAt <= now))
            && (p in after ==> after[p] == if addressed && now - row.lastSentAt >= policy.cooldownMs
                                           then Registration(email, codeHash, now + policy.codeTtlMs, 0, now, row.pendingExpiresAt) else row)
  {
  }

  /** The registration is open, its code has not expired and may still be tried. */
  predicate Triable(policy: Policy, row: Registration, now: Time) {
    now < row.pendingExpiresAt && now < row.expiresAt && row.attemptCount < policy.maxAttempts
  }

  /** A code that could not be sent cannot be tried at any later time, unless a newer one has replaced it already. */
  lemma UnsentCodeIsDead(policy: Policy, verifies: (Hash, Secret) -> bool, s: State, id: PendingId, codeHash: Hash, now: Time, later: Time)
    requires id in s.pendings
    ensures var after := Next(policy, verifies, s, InvalidateCode(id, codeHash, now));
            if s.pendings[id].codeHash == codeHash then
              && id in after.pendings && !Triable(policy, after.pendings[id], later)
              && (later >= now ==> after.pendings[id].expiresAt <= later)
              && after == s.(pendings := s.pendings[id := s.pendings[id].(expiresAt := after.pendings[id].expiresAt,
                                                                          attemptCount := after.pendings[id].attemptCount)])
            else after == s
  {
  }

  lemma TriedIff(policy: Policy, verifies: (Hash, Secret) -> bool, s: State, request: RequestId, email: Email, id: PendingId, code: Secret, now: Time)
    requires request !in s.inFlight && id in s.pendings && s.pendings[id].email == email
    ensures Next(policy, verifies, s, BeginVerification(request, email, id, code, now))
            == if s.pendings[id].pendingExpiresAt <= now then s.(pendings := s.pendings - {id})
               else if Triable(policy, s.pendings[id], now) then s.(inFlight := s.inFlight[request := Verifying(id, s.pendings[id], code, now)])
               else s
  {
  }

  /** A verification that has begun creates the user of the address, with a first token, exactly when the code is right,
      nobody has the address, and the row still has the address and the code that were read and may be tried. */
  lemma VerifiedIff(policy: Policy, verifies: (Hash, Secret) -> bool, s: State, request: RequestId, user: UserId, token: TokenId,
                    tokenHash: Hash, now: Time)
    requires request in s.inFlight && s.inFlight[request].Verifying? && user !in s.users && token !in s.past.tokens
    ensures var actor := s.inFlight[request]; var p := actor.pending;
            var after := Next(policy, verifies, s, FinishVerification(request, user, token, tokenHash, now));
            if && verifies(actor.row.codeHash, actor.code)
               && (forall u | u in s.users :: s.users[u] != actor.row.email)
               && p in s.pendings && s.pendings[p].email == actor.row.email && s.pendings[p].codeHash == actor.row.codeHash
               && Triable(policy, s.pendings[p], actor.now)
            then
              && after.users == s.users[user := actor.row.email] && after.pendings == s.pendings - {p}
              && after.tokens == s.tokens[token := RefreshRow(user, tokenHash, now + policy.refreshTtlMs)]
            else after.users == s.users && after.tokens == s.tokens
  {
  }

  /** A wrong code counts exactly while the row is as it was read and open; the last one ends the code. */
  lemma WrongCodeCountsIff(policy: Policy, verifies: (Hash, Secret) -> bool, s: State, request: RequestId, user: UserId, token: TokenId,
                           tokenHash: Hash, now: Time)
    requires request in s.inFlight && s.inFlight[request].Verifying?
    requires !verifies(s.inFlight[request].row.codeHash, s.inFlight[request].code)
    ensures var actor := s.inFlight[request]; var p := actor.pending;
            var after := Next(policy, verifies, s, FinishVerification(request, user, token, tokenHash, now));
            after.pendings
            == if p in s.pendings && s.pendings[p].codeHash == actor.row.codeHash && s.pendings[p].attemptCount == actor.row.attemptCount
                  && actor.now < s.pendings[p].expiresAt && actor.now < s.pendings[p].pendingExpiresAt
               then var tried := actor.row.attemptCount + 1;
                    s.pendings[p := s.pendings[p].(attemptCount := tried,
                                                   expiresAt := if tried < policy.maxAttempts then s.pendings[p].expiresAt else actor.now)]
               else s.pendings
  {
  }

  lemma ThreeSteps(policy: Policy, verifies: (Hash, Secret) -> bool, s: State, a: Action, b: Action, c: Action)
    ensures After(policy, verifies, s, [a, b, c])
            == Next(policy, verifies, Next(policy, verifies, Next(policy, verifies, s, a), b), c)
  {
    assert [a, b, c][..2] == [a, b] && [a, b][..1] == [a];
    assert After(policy, verifies, s, [a]) == Next(policy, verifies, s, a);
    assert After(policy, verifies, s, [a, b]) == Next(policy, verifies, After(policy, verifies, s, [a]), b);
  }

  /** Registering and sending back the right code before either lifetime is over creates the user of the address, whose
      first token is live. */
  lemma RegistrationSucceeds(policy: Policy, verifies: (Hash, Secret) -> bool, s: State, email: Email, id: PendingId, codeHash: Hash, sent: Time,
                             request: RequestId, code: Secret, now: Time, user: UserId, token: TokenId, tokenHash: Hash)
    requires Unregistered(s, email, sent) && verifies(codeHash, code)
    requires now < sent + policy.codeTtlMs && now < sent + policy.pendingTtlMs
    requires id !in s.past.pendings && request !in s.inFlight && user !in s.users && token !in s.past.tokens
    ensures var after := After(policy, verifies, s, [Register(email, id, codeHash, sent), BeginVerification(request, email, id, code, now),
                                                     FinishVerification(request, user, token, tokenHash, now)]);
            && after.users == s.users[user := email] && id !in after.pendings && after.inFlight == s.inFlight
            && after.tokens == s.tokens[token := RefreshRow(user, tokenHash, now + policy.refreshTtlMs)]
  {
    RegistersIff(policy, verifies, s, email, id, codeHash, sent);
    var registered := Next(policy, verifies, s, Register(email, id, codeHash, sent));
    TriedIff(policy, verifies, registered, request, email, id, code, now);
    var tried := registered.(inFlight := registered.inFlight[request := Verifying(id, registered.pendings[id], code, now)]);
    assert tried == Next(policy, verifies, registered, BeginVerification(request, email, id, code, now));
    VerifiedIff(policy, verifies, tried, request, user, token, tokenHash, now);
    assert tried.inFlight - {request} == s.inFlight;
    ThreeSteps(policy, verifies, s, Register(email, id, codeHash, sent), BeginVerification(request, email, id, code, now),
               FinishVerification(request, user, token, tokenHash, now));
  }

  // ----- password resets -----

  /** A reset request of a user is made exactly once the cooldown since each earlier one is over; it is the only unused one
      of the user, with the hash of its code, no attempt counted, and a lifetime from now. */
  lemma ForgottenIff(policy: Policy, verifies: (Hash, Secret) -> bool, s: State, user: UserId, id: ResetId, codeHash: Hash, now: Time)
    requires id !in s.past.resets && id !in s.resets
    ensures var after := Next(policy, verifies, s, ForgotPassword(user, id, codeHash, now));
            if user in s.users && (forall r | r in s.resets && s.resets[r].user == user :: now - s.resets[r].createdAt >= policy.resetCooldownMs) then
              && id in after.resets && after.resets[id] == Reset(user, codeHash, now + policy.resetTtlMs, 0, false, now)
              && (forall r | r in s.resets :: r in after.resets
                    && after.resets[r] == if s.resets[r].user == user then s.resets[r].(used := true) else s.resets[r])
              && (forall r | r in after.resets && r != id :: r in s.resets)
              && after == s.(resets := after.resets, past := s.past.(resets := s.past.resets + {id}))
            else after == s
  {
  }

  predicate ResetTriable(policy: Policy, row: Reset, now: Time) {
    !row.used && now < row.expiresAt && row.attemptCount < policy.resetMaxAttempts
  }

  lemma UnsentResetIsDead(policy: Policy, verifies: (Hash, Secret) -> bool, s: State, id: ResetId, later: Time)
    requires id in s.resets
    ensures var after := Next(policy, verifies, s, InvalidateReset(id));
            && id in after.resets && !ResetTriable(policy, after.resets[id], later)
            && after == s.(resets := s.resets[id := s.resets[id].(used := true)])
  {
  }

  lemma ResetTriedIff(policy: Policy, verifies: (Hash, Secret) -> bool, s: State, request: RequestId, id: ResetId, secret: Secret, now: Time)
    requires request !in s.inFlight && id in s.resets
    ensures Next(policy, verifies, s, BeginReset(request, id, secret, now))
            == if ResetTriable(policy, s.resets[id], now) then s.(inFlight := s.inFlight[request := Resetting(id, s.resets[id], secret, now)]) else s
  {
  }

  /** A reset that has begun changes the password exactly when the code is right, the request may still be tried and the
      user is there: every request of the user is then used and every token of the user gone. */
  lemma ResetIff(policy: Policy, verifies: (Hash, Secret) -> bool, s: State, request: RequestId)
    requires request in s.inFlight && s.inFlight[request].Resetting?
    ensures var actor := s.inFlight[request]; var after := Next(policy, verifies, s, FinishReset(request)); var user := actor.read.user;
            if && verifies(actor.read.codeHash, actor.secret) && user in s.users
               && actor.reset in s.resets && ResetTriable(policy, s.resets[actor.reset], actor.at)
            then
              && ResetBy(policy, verifies, s, FinishReset(request)) == Some(actor.reset)
              && (forall r | r in s.resets :: r in after.resets
                    && after.resets[r] == if s.resets[r].user == user then s.resets[r].(used := true) else s.resets[r])
              && (forall t :: t in after.tokens <==> t in s.tokens && s.tokens[t].user != user)
              && (forall t | t in after.tokens :: after.tokens[t] == s.tokens[t])
            else ResetBy(policy, verifies, s, FinishReset(request)).None? && after.tokens == s.tokens
  {
  }

  /** A wrong code counts exactly while the request is unused, open and counts what was read; the last one uses it up. */
  lemma WrongResetCountsIff(policy: Policy, verifies: (Hash, Secret) -> bool, s: State, request: RequestId)
    requires request in s.inFlight && s.inFlight[request].Resetting?
    requires !verifies(s.inFlight[request].read.codeHash, s.inFlight[request].secret)
    ensures var actor := s.inFlight[request]; var r := actor.reset;
            Next(policy, verifies, s, FinishReset(request)).resets
            == if r in s.resets && !s.resets[r].used && actor.at < s.resets[r].expiresAt && s.resets[r].attemptCount == actor.read.attemptCount
               then var tried := actor.read.attemptCount + 1;
                    s.resets[r := s.resets[r].(attemptCount := tried, used := tried >= policy.resetMaxAttempts)]
               else s.resets
  {
  }

  /** Asking for a code and sending back the right one in time changes the password and ends every session of the user. */
  lemma ResetSucceeds(policy: Policy, verifies: (Hash, Secret) -> bool, s: State, user: UserId, id: ResetId, codeHash: Hash, sent: Time,
                      request: RequestId, secret: Secret, now: Time)
    requires user in s.users && id !in s.past.resets && id !in s.resets && request !in s.inFlight
    requires forall r | r in s.resets && s.resets[r].user == user :: sent - s.resets[r].createdAt >= policy.resetCooldownMs
    requires verifies(codeHash, secret) && now < sent + policy.resetTtlMs
    ensures var asked := Next(policy, verifies, s, ForgotPassword(user, id, codeHash, sent));
            var tried := Next(policy, verifies, asked, BeginReset(request, id, secret, now));
            var after := Next(policy, verifies, tried, FinishReset(request));
            && ResetBy(policy, verifies, tried, FinishReset(request)) == Some(id)
            && id in after.resets && after.resets[id].used
            && forall t | t in after.tokens :: after.tokens[t].user != user
  {
    ForgottenIff(policy, verifies, s, user, id, codeHash, sent);
    var asked := Next(policy, verifies, s, ForgotPassword(user, id, codeHash, sent));
    ResetTriedIff(policy, verifies, asked, request, id, secret, now);
    ResetIff(policy, verifies, Next(policy, verifies, asked, BeginReset(request, id, secret, now)), request);
  }
}
