/** How many wrong codes may be tried against one code, of a registration or of
    a password reset: a failed attempt is counted only if the stored count is
    still the one that its request read, so of several requests in flight at one
    count only the first counts. */
module AuthGuesses {
  import opened Rows
  import opened Auth
  import AuthLaws

  /** A stored code: a registration and the hash it has now, or a reset request, whose hash never changes. */
  datatype Target = CodeOf(id: PendingId, hash: Hash) | ResetCode(reset: ResetId)

  predicate Guesses(actor: InFlight, target: Target) {
    match target
    case CodeOf(id, hash) => actor.Verifying? && actor.pending == id && actor.row.codeHash == hash
    case ResetCode(reset) => actor.Resetting? && actor.reset == reset
  }

  predicate Known(s: State, target: Target) {
    match target
    case CodeOf(id, _) => id in s.past.pendings
    case ResetCode(reset) => reset in s.past.resets
  }

  predicate Stored(s: State, target: Target) {
    match target
    case CodeOf(id, hash) => id in s.pendings && s.pendings[id].codeHash == hash
    case ResetCode(reset) => reset in s.resets && !s.resets[reset].used
  }

  function Count(s: State, target: Target): nat
    requires Stored(s, target)
  {
    match target
    case CodeOf(id, _) => s.pendings[id].attemptCount
    case ResetCode(reset) => s.resets[reset].attemptCount
  }

  function Maximum(policy: Policy, target: Target): Pos {
    if target.CodeOf? then policy.maxAttempts else policy.resetMaxAttempts
  }

  function ReadCount(actor: InFlight): nat
    requires !actor.Refreshing?
  {
    if actor.Verifying? then actor.row.attemptCount else actor.read.attemptCount
  }

  /** The code that a request brings is not the one that it read the hash of. */
  predicate Wrong(verifies: (Hash, Secret) -> bool, actor: InFlight)
    requires !actor.Refreshing?
  {
    if actor.Verifying? then !verifies(actor.row.codeHash, actor.code) else !verifies(actor.read.codeHash, actor.secret)
  }

  predicate ReadsStoredCount(s: State, actor: InFlight, target: Target) {
    Guesses(actor, target) && Stored(s, target) && ReadCount(actor) == Count(s, target)
  }

  /** The requests in flight against the code that read the count that is stored now. */
  function Live(s: State, target: Target): set<RequestId> {
    set i | i in s.inFlight && ReadsStoredCount(s, s.inFlight[i], target)
  }

  /** The others in flight against it: what they try will not be counted. */
  function Stale(s: State, target: Target): set<RequestId> {
    set i | i in s.inFlight && Guesses(s.inFlight[i], target) && !ReadsStoredCount(s, s.inFlight[i], target)
  }

  /** The stored count; a code that is gone or used counts as used up. */
  function Level(policy: Policy, s: State, target: Target): nat {
    if Stored(s, target) then Count(s, target) else Maximum(policy, target)
  }

  function RequestOf(a: Action): RequestId
    requires a.FinishVerification? || a.FinishReset?
  {
    match a
    case FinishVerification(request, _, _, _, _) => request
    case FinishReset(request) => request
  }

  /** This action ends a request that tried a wrong code. */
  predicate TriesWrong(verifies: (Hash, Secret) -> bool, s: State, a: Action, target: Target) {
    && (if target.CodeOf? then a.FinishVerification? else a.FinishReset?)
    && RequestOf(a) in s.inFlight && Guesses(s.inFlight[RequestOf(a)], target) && Wrong(verifies, s.inFlight[RequestOf(a)])
  }

  /** The wrong codes tried in a run from a state. */
  function Tries(policy: Policy, verifies: (Hash, Secret) -> bool, s: State, run: seq<Action>, target: Target): nat {
    if run == [] then 0
    else
      var n := |run| - 1;
      Tries(policy, verifies, s, run[..n], target)
      + (if TriesWrong(verifies, Auth.After(policy, verifies, s, run[..n]), run[n], target) then 1 else 0)
  }

  /** Hashes are salted, so no later code is stored under the same one. */
  predicate Renews(a: Action, target: Target) {
    target.CodeOf? && (a.Register? || a.Resend?) && a.codeHash == target.hash
  }

  /** In time for a row that is as it was read. */
  predicate Intact(s: State, actor: InFlight, target: Target)
    requires ReadsStoredCount(s, actor, target)
  {
    match target
    case CodeOf(id, _) => actor.row == s.pendings[id] && actor.row.expiresAt > actor.now && actor.row.pendingExpiresAt > actor.now
    case ResetCode(reset) => actor.read == s.resets[reset] && actor.read.expiresAt > actor.at
  }

  /** A request read a count below the maximum and not above the one stored now; a live one read the row as it is. */
  predicate ReadFits(policy: Policy, s: State, actor: InFlight, target: Target) {
    Guesses(actor, target) ==>
      && ReadCount(actor) < Maximum(policy, target)
      && (Stored(s, target) ==> ReadCount(actor) <= Count(s, target))
      && (ReadsStoredCount(s, actor, target) ==> Intact(s, actor, target))
  }

  predicate ReadsFit(policy: Policy, s: State, target: Target) {
    forall i | i in s.inFlight :: ReadFits(policy, s, s.inFlight[i], target)
  }

  predicate Bounded(policy: Policy, s: State, target: Target, tries: nat, k: nat) {
    && Known(s, target)
    && ReadsFit(policy, s, target)
    && Level(policy, s, target) <= Maximum(policy, target)
    && tries + |Stale(s, target)| <= k * Level(policy, s, target)
  }

  // ----- one step -----

  lemma UnionSize<T>(a: set<T>, b: set<T>, part: set<T>)
    requires part <= a + b
    ensures |part| <= |a| + |b|
  {
    assert a + b == a + (b - a);
    SubsetSize(b - a, b);
    SubsetSize(part, a + b);
  }

  lemma HigherLevel(k: nat, low: nat, high: nat)
    requires low < high
    ensures k * low + k <= k * high
  {
    var d := high - low - 1;
    assert k * d >= 0;
    assert k * high == k * low + k + k * d;
  }

  /** The count stays and no request becomes stale, or the count rises and the live ones do. */
  lemma StepIsBounded(policy: Policy, s: State, after: State, target: Target, tries: nat, k: nat)
    requires Bounded(policy, s, target, tries, k) && |Live(s, target)| <= k
    requires Known(after, target) && ReadsFit(policy, after, target)
    requires Level(policy, s, target) <= Level(policy, after, target) <= Maximum(policy, target)
    requires Level(policy, after, target) == Level(policy, s, target) && Live(s, target) != {} ==> Stale(after, target) <= Stale(s, target)
    requires Stale(after, target) <= Stale(s, target) + Live(s, target)
    ensures Bounded(policy, after, target, tries, k)
  {
    UnionSize(Stale(s, target), Live(s, target), Stale(after, target));
    if Level(policy, s, target) < Level(policy, after, target) {
      HigherLevel(k, Level(policy, s, target), Level(policy, after, target));
    } else {
      SubsetSize(Stale(after, target), Stale(s, target));
    }
  }

  /** The stored row of the code did not change. */
  predicate SameRow(s: State, after: State, target: Target)
    requires Stored(s, target) && Stored(after, target)
  {
    match target
    case CodeOf(id, _) => after.pendings[id] == s.pendings[id]
    case ResetCode(reset) => after.resets[reset] == s.resets[reset]
  }

  /** Requests against the code only end, and its row stays, is used up or goes. */
  ghost predicate Recedes(policy: Policy, s: State, after: State, target: Target) {
    && (Known(s, target) ==> Known(after, target))
    && (forall i | i in after.inFlight && Guesses(after.inFlight[i], target) :: i in s.inFlight && after.inFlight[i] == s.inFlight[i])
    && (Known(s, target) && Stored(after, target) ==>
          Stored(s, target) && (SameRow(s, after, target) || Count(after, target) == Maximum(policy, target)))
  }

  lemma RecedingIsBounded(policy: Policy, s: State, after: State, target: Target, tries: nat, k: nat)
    requires Bounded(policy, s, target, tries, k) && |Live(s, target)| <= k && Recedes(policy, s, after, target)
    ensures Bounded(policy, after, target, tries, k)
  {
    forall i | i in after.inFlight ensures ReadFits(policy, after, after.inFlight[i], target) {
      if Guesses(after.inFlight[i], target) { assert ReadFits(policy, s, s.inFlight[i], target); }
    }
    if Stored(after, target) && SameRow(s, after, target) {
      assert Stale(after, target) <= Stale(s, target);
    } else {
      NothingLiveAtMaximum(policy, s, target);
    }
    StepIsBounded(policy, s, after, target, tries, k);
  }

  lemma NothingLiveAtMaximum(policy: Policy, s: State, target: Target)
    requires ReadsFit(policy, s, target)
    ensures Level(policy, s, target) == Maximum(policy, target) ==> Live(s, target) == {}
  {
    forall i | i in Live(s, target) ensures Level(policy, s, target) < Maximum(policy, target) {
      assert ReadFits(policy, s, s.inFlight[i], target);
    }
  }

  lemma CodeStepRecedes(policy: Policy, verifies: (Hash, Secret) -> bool, s: State, a: Action, target: Target)
    requires !Renews(a, target) && (a.Register? || a.Resend? || a.InvalidateCode?)
    ensures Recedes(policy, s, Next(policy, verifies, s, a), target)
  {
  }

  lemma TokenStepRecedes(policy: Policy, verifies: (Hash, Secret) -> bool, s: State, a: Action, target: Target)
    requires a.Login? || a.BeginRefresh? || a.FinishRefresh? || a.Logout?
    ensures Recedes(policy, s, Next(policy, verifies, s, a), target)
  {
  }

  lemma ResetStepRecedes(policy: Policy, verifies: (Hash, Secret) -> bool, s: State, a: Action, target: Target)
    requires a.ForgotPassword? || a.InvalidateReset?
    ensures Recedes(policy, s, Next(policy, verifies, s, a), target)
  {
  }

  /** The end of a request that does not try a wrong code against this one. */
  lemma VerificationRecedes(policy: Policy, verifies: (Hash, Secret) -> bool, s: State, a: Action, target: Target)
    requires a.FinishVerification? && !TriesWrong(verifies, s, a, target)
    ensures Recedes(policy, s, Next(policy, verifies, s, a), target)
  {
  }

  lemma ResetRecedes(policy: Policy, verifies: (Hash, Secret) -> bool, s: State, a: Action, target: Target)
    requires a.FinishReset? && !TriesWrong(verifies, s, a, target)
    ensures Recedes(policy, s, Next(policy, verifies, s, a), target)
  {
  }

  /** A request that begins is live, if it begins against this code. */
  lemma BeginnerIsLive(policy: Policy, s: State, request: RequestId, actor: InFlight, target: Target, tries: nat, k: nat)
    requires Bounded(policy, s, target, tries, k) && request !in s.inFlight
    requires Guesses(actor, target) ==>
               ReadsStoredCount(s, actor, target) && Intact(s, actor, target) && ReadCount(actor) < Maximum(policy, target)
    ensures Bounded(policy, s.(inFlight := s.inFlight[request := actor]), target, tries, k)
  {
    var after := s.(inFlight := s.inFlight[request := actor]);
    assert Stale(after, target) == Stale(s, target);
    forall i | i in after.inFlight ensures ReadFits(policy, after, after.inFlight[i], target) {
      assert i != request ==> ReadFits(policy, s, s.inFlight[i], target);
    }
  }

  lemma BeginningIsBounded(policy: Policy, verifies: (Hash, Secret) -> bool, s: State, a: Action, target: Target, tries: nat, k: nat)
    requires Bounded(policy, s, target, tries, k) && |Live(s, target)| <= k && a.BeginVerification?
    ensures Bounded(policy, Next(policy, verifies, s, a), target, tries, k)
  {
    var after := Next(policy, verifies, s, a);
    if after.inFlight == s.inFlight {
      RecedingIsBounded(policy, s, after, target, tries, k);
    } else {
      BeginnerIsLive(policy, s, a.request, Verifying(a.id, s.pendings[a.id], a.code, a.now), target, tries, k);
    }
  }

  lemma BeginningResetIsBounded(policy: Policy, verifies: (Hash, Secret) -> bool, s: State, a: Action, target: Target, tries: nat, k: nat)
    requires Bounded(policy, s, target, tries, k) && |Live(s, target)| <= k && a.BeginReset?
    ensures Bounded(policy, Next(policy, verifies, s, a), target, tries, k)
  {
    var after := Next(policy, verifies, s, a);
    if after.inFlight != s.inFlight {
      BeginnerIsLive(policy, s, a.request, Resetting(a.id, s.resets[a.id], a.secret, a.now), target, tries, k);
    }
  }

  /** A stale request that tries a wrong code leaves every row alone. */
  lemma StaleTryChangesNothing(policy: Policy, verifies: (Hash, Secret) -> bool, s: State, a: Action, target: Target)
    requires TriesWrong(verifies, s, a, target) && RequestOf(a) in Stale(s, target)
    ensures Next(policy, verifies, s, a) == s.(inFlight := s.inFlight - {RequestOf(a)})
  {
  }

  lemma StaleTryIsBounded(policy: Policy, verifies: (Hash, Secret) -> bool, s: State, a: Action, target: Target, tries: nat, k: nat)
    requires Bounded(policy, s, target, tries, k) && TriesWrong(verifies, s, a, target) && RequestOf(a) in Stale(s, target)
    ensures Bounded(policy, Next(policy, verifies, s, a), target, tries + 1, k)
  {
    StaleTryChangesNothing(policy, verifies, s, a, target);
    var after := Next(policy, verifies, s, a);
    forall i | i in after.inFlight ensures ReadFits(policy, after, after.inFlight[i], target) {
      assert ReadFits(policy, s, s.inFlight[i], target);
    }
    assert Stale(after, target) == Stale(s, target) - {RequestOf(a)};
  }

  /** A live one is counted. */
  lemma LiveTryCounts(policy: Policy, verifies: (Hash, Secret) -> bool, s: State, a: Action, target: Target)
    requires ReadsFit(policy, s, target) && TriesWrong(verifies, s, a, target) && RequestOf(a) in Live(s, target)
    ensures var after := Next(policy, verifies, s, a);
            && after.inFlight == s.inFlight - {RequestOf(a)} && after.past == s.past
            && Level(policy, after, target) == Count(s, target) + 1 <= Maximum(policy, target)
            && (Stored(after, target) ==> Count(after, target) == Count(s, target) + 1)
  {
    assert ReadFits(policy, s, s.inFlight[RequestOf(a)], target);
  }

  /** And the other live ones become stale. */
  lemma LiveTryIsBounded(policy: Policy, verifies: (Hash, Secret) -> bool, s: State, a: Action, target: Target, tries: nat, k: nat)
    requires Bounded(policy, s, target, tries, k) && |Live(s, target)| <= k
    requires TriesWrong(verifies, s, a, target) && RequestOf(a) in Live(s, target)
    ensures Bounded(policy, Next(policy, verifies, s, a), target, tries + 1, k)
  {
    LiveTryCounts(policy, verifies, s, a, target);
    var after := Next(policy, verifies, s, a);
    forall i | i in after.inFlight ensures ReadFits(policy, after, after.inFlight[i], target) {
      assert ReadFits(policy, s, s.inFlight[i], target);
    }
    UnionSize(Stale(s, target), Live(s, target) - {RequestOf(a)}, Stale(after, target));
    HigherLevel(k, Level(policy, s, target), Level(policy, after, target));
  }

  lemma StepKeepsBound(policy: Policy, verifies: (Hash, Secret) -> bool, s: State, a: Action, target: Target, tries: nat, k: nat)
    requires Bounded(policy, s, target, tries, k) && |Live(s, target)| <= k && !Renews(a, target)
    ensures Bounded(policy, Next(policy, verifies, s, a), target, tries + (if TriesWrong(verifies, s, a, target) then 1 else 0), k)
  {
    if TriesWrong(verifies, s, a, target) {
      if RequestOf(a) in Live(s, target) {
        LiveTryIsBounded(policy, verifies, s, a, target, tries, k);
      } else {
        StaleTryIsBounded(policy, verifies, s, a, target, tries, k);
      }
    } else if a.BeginVerification? {
      BeginningIsBounded(policy, verifies, s, a, target, tries, k);
    } else if a.BeginReset? {
      BeginningResetIsBounded(policy, verifies, s, a, target, tries, k);
    } else {
      OtherStepRecedes(policy, verifies, s, a, target);
      RecedingIsBounded(policy, s, Next(policy, verifies, s, a), target, tries, k);
    }
  }

  lemma OtherStepRecedes(policy: Policy, verifies: (Hash, Secret) -> bool, s: State, a: Action, target: Target)
    requires !TriesWrong(verifies, s, a, target) && !a.BeginVerification? && !a.BeginReset? && !Renews(a, target)
    ensures Recedes(policy, s, Next(policy, verifies, s, a), target)
  {
    if a.FinishVerification? {
      VerificationRecedes(policy, verifies, s, a, target);
    } else if a.FinishReset? {
      ResetRecedes(policy, verifies, s, a, target);
    } else if a.Register? || a.Resend? || a.InvalidateCode? {
      CodeStepRecedes(policy, verifies, s, a, target);
    } else if a.ForgotPassword? || a.InvalidateReset? {
      ResetStepRecedes(policy, verifies, s, a, target);
    } else {
      TokenStepRecedes(policy, verifies, s, a, target);
    }
  }

  // ----- runs -----

  lemma OneMoreAction(policy: Policy, verifies: (Hash, Secret) -> bool, s: State, run: seq<Action>, a: Action, target: Target)
    ensures var reached := Auth.After(policy, verifies, s, run);
            && Auth.After(policy, verifies, s, run + [a]) == Next(policy, verifies, reached, a)
            && Tries(policy, verifies, s, run + [a], target)
               == Tries(policy, verifies, s, run, target) + (if TriesWrong(verifies, reached, a, target) then 1 else 0)
  {
    assert (run + [a])[..|run|] == run;
  }

  predicate JustStored(s: State, target: Target) {
    Stored(s, target) && Count(s, target) == 0 && forall i | i in s.inFlight :: !Guesses(s.inFlight[i], target)
  }

  /** No action stores a code under the same hash, and never more than k requests in flight read the count stored. */
  predicate Narrow(policy: Policy, verifies: (Hash, Secret) -> bool, s: State, run: seq<Action>, target: Target, k: nat) {
    && (forall i | 0 <= i < |run| :: !Renews(run[i], target))
    && (forall n | 0 <= n < |run| :: |Live(Auth.After(policy, verifies, s, run[..n]), target)| <= k)
  }

  lemma NewCodeIsBounded(policy: Policy, s: State, target: Target, k: nat)
    requires AuthLaws.Sane(policy, s) && JustStored(s, target)
    ensures Bounded(policy, s, target, 0, k)
  {
    assert Stale(s, target) == {};
  }

  lemma TriesOfBounded(policy: Policy, s: State, target: Target, tries: nat, k: nat)
    requires Bounded(policy, s, target, tries, k)
    ensures tries <= k * Maximum(policy, target)
  {
    if Level(policy, s, target) < Maximum(policy, target) { HigherLevel(k, Level(policy, s, target), Maximum(policy, target)); }
  }

  lemma NarrowPrefix(policy: Policy, verifies: (Hash, Secret) -> bool, s: State, run: seq<Action>, a: Action, target: Target, k: nat)
    ensures Narrow(policy, verifies, s, run + [a], target, k)
       <==> Narrow(policy, verifies, s, run, target, k) && !Renews(a, target) && |Live(Auth.After(policy, verifies, s, run), target)| <= k
  {
    var longer := run + [a];
    assert longer[..|run|] == run && longer[|run|] == a;
    forall n | 0 <= n < |run| ensures longer[..n] == run[..n] && longer[n] == run[n] {}
  }

  lemma {:induction false} RunIsBounded(policy: Policy, verifies: (Hash, Secret) -> bool, s: State, run: seq<Action>, target: Target, k: nat)
    requires Bounded(policy, s, target, 0, k) && Narrow(policy, verifies, s, run, target, k)
    ensures Bounded(policy, Auth.After(policy, verifies, s, run), target, Tries(policy, verifies, s, run, target), k)
  {
    if run != [] {
      var some, a := run[..|run| - 1], run[|run| - 1];
      assert run == some + [a];
      NarrowPrefix(policy, verifies, s, some, a, target, k);
      RunIsBounded(policy, verifies, s, some, target, k);
      OneMoreAction(policy, verifies, s, some, a, target);
      StepKeepsBound(policy, verifies, Auth.After(policy, verifies, s, some), a, target, Tries(policy, verifies, s, some, target), k);
    }
  }

  /** From the moment a code is stored, at most k wrong codes for each count are tried against it, where k is the
      largest number of requests in flight that read the count stored at one time. */
  lemma WrongTriesAreBounded(policy: Policy, verifies: (Hash, Secret) -> bool, before: seq<Action>, run: seq<Action>, target: Target, k: nat)
    requires JustStored(AuthLaws.Reached(policy, verifies, before), target)
    requires Narrow(policy, verifies, AuthLaws.Reached(policy, verifies, before), run, target, k)
    ensures Tries(policy, verifies, AuthLaws.Reached(policy, verifies, before), run, target) <= k * Maximum(policy, target)
  {
    var s := AuthLaws.Reached(policy, verifies, before);
    AuthLaws.EveryRunIsSane(policy, verifies, before);
    NewCodeIsBounded(policy, s, target, k);
    RunIsBounded(policy, verifies, s, run, target, k);
    TriesOfBounded(policy, Auth.After(policy, verifies, s, run), target, Tries(policy, verifies, s, run, target), k);
  }
}
