/** The bound on wrong codes is reached: in each round k requests read the count
    that is stored and then try a wrong code, and one of them is counted. So the
    maximum bounds the wrong codes exactly where requests come one at a time. */
module AuthRounds {
  import opened Rows
  import opened Auth
  import opened AuthGuesses
  import AuthLaws

  const EMAIL := "user@example.org"
  const RIGHT: Secret := 1
  const WRONG: Secret := 0
  const HASH: Hash := 1

  function Verifies(hash: Hash, code: Secret): bool {
    code == RIGHT
  }

  function Until(n: nat): (requests: set<RequestId>)
    ensures forall i: nat :: i in requests <==> i < n
  {
    if n == 0 then {} else Until(n - 1) + {n - 1}
  }

  lemma {:induction false} UntilSize(n: nat)
    ensures |Until(n)| == n
  {
    if n > 0 { UntilSize(n - 1); }
  }

  predicate IsTarget(target: Target) {
    target == CodeOf(1, HASH) || target == ResetCode(1)
  }

  // ----- the states of a round -----

  function RowAt(policy: Policy, count: nat): Registration {
    Registration(EMAIL, HASH, if count >= policy.maxAttempts then 0 else policy.codeTtlMs, count, 0, policy.pendingTtlMs)
  }

  function ResetAt(policy: Policy, count: nat): Reset {
    Reset(1, HASH, policy.resetTtlMs, count, count >= policy.resetMaxAttempts, 0)
  }

  function ReaderOf(policy: Policy, target: Target, read: nat): InFlight {
    if target.CodeOf? then Verifying(1, RowAt(policy, read), WRONG, 0) else Resetting(1, ResetAt(policy, read), WRONG, 0)
  }

  function Readers(from: nat, to: nat, actor: InFlight): map<RequestId, InFlight> {
    map i | i in Until(to) && from <= i :: actor
  }

  lemma OneMoreReader(n: nat, actor: InFlight)
    ensures n !in Readers(0, n, actor) && Readers(0, n, actor)[n := actor] == Readers(0, n + 1, actor)
  {
  }

  lemma OneReaderLess(m: nat, k: nat, actor: InFlight)
    requires m < k
    ensures m in Readers(m, k, actor) && Readers(m, k, actor)[m] == actor && Readers(m, k, actor) - {m} == Readers(m + 1, k, actor)
  {
  }

  /** The stored count, and requests from one number to another in flight that read a count. */
  function Crowd(base: State, policy: Policy, target: Target, count: nat, read: nat, from: nat, to: nat): State {
    var readers := Readers(from, to, ReaderOf(policy, target, read));
    if target.CodeOf? then base.(pendings := map[1 := RowAt(policy, count)], inFlight := readers)
    else base.(resets := map[1 := ResetAt(policy, count)], inFlight := readers)
  }

  function Begin(target: Target, i: RequestId): Action {
    if target.CodeOf? then BeginVerification(i, EMAIL, 1, WRONG, 0) else BeginReset(i, 1, WRONG, 0)
  }

  function End(target: Target, i: RequestId): Action {
    if target.CodeOf? then FinishVerification(i, 0, 0, 0, 0) else FinishReset(i)
  }

  predicate Lasting(policy: Policy) {
    policy.codeTtlMs > 0 && policy.pendingTtlMs > 0 && policy.resetTtlMs > 0
  }

  lemma OneMoreBegins(base: State, policy: Policy, target: Target, c: nat, n: nat)
    requires IsTarget(target) && Lasting(policy) && c < Maximum(policy, target)
    ensures Next(policy, Verifies, Crowd(base, policy, target, c, c, 0, n), Begin(target, n)) == Crowd(base, policy, target, c, c, 0, n + 1)
  {
    var s := Crowd(base, policy, target, c, c, 0, n);
    OneMoreReader(n, ReaderOf(policy, target, c));
    if target.CodeOf? { CodeIsRead(policy, s, c, n); } else { ResetIsRead(policy, s, c, n); }
  }

  lemma CodeIsRead(policy: Policy, s: State, c: nat, n: nat)
    requires Lasting(policy) && c < policy.maxAttempts && s.pendings == map[1 := RowAt(policy, c)] && n !in s.inFlight
    ensures BeginVerificationNext(policy, s, n, EMAIL, 1, WRONG, 0) == s.(inFlight := s.inFlight[n := Verifying(1, RowAt(policy, c), WRONG, 0)])
  {
  }

  lemma ResetIsRead(policy: Policy, s: State, c: nat, n: nat)
    requires Lasting(policy) && c < policy.resetMaxAttempts && s.resets == map[1 := ResetAt(policy, c)] && n !in s.inFlight
    ensures BeginResetNext(policy, s, n, 1, WRONG, 0) == s.(inFlight := s.inFlight[n := Resetting(1, ResetAt(policy, c), WRONG, 0)])
  {
  }

  /** The first to end is counted. */
  lemma FirstEnds(base: State, policy: Policy, target: Target, c: nat, k: Pos)
    requires IsTarget(target) && Lasting(policy) && c < Maximum(policy, target)
    ensures var s := Crowd(base, policy, target, c, c, 0, k);
            && Next(policy, Verifies, s, End(target, 0)) == Crowd(base, policy, target, c + 1, c, 1, k)
            && TriesWrong(Verifies, s, End(target, 0), target)
  {
    var s := Crowd(base, policy, target, c, c, 0, k);
    var done := s.(inFlight := s.inFlight - {0});
    OneReaderLess(0, k, ReaderOf(policy, target, c));
    EndsWrong(s, policy, target, c, 0, done);
    if target.CodeOf? { CodeIsCounted(policy, done, c); } else { ResetIsCounted(policy, done, c); }
  }

  lemma EndsWrong(s: State, policy: Policy, target: Target, c: nat, i: RequestId, done: State)
    requires IsTarget(target) && i in s.inFlight && s.inFlight[i] == ReaderOf(policy, target, c) && done == s.(inFlight := s.inFlight - {i})
    ensures TriesWrong(Verifies, s, End(target, i), target)
    ensures Next(policy, Verifies, s, End(target, i))
            == if target.CodeOf? then RecordFailedAttempt(policy, done, 1, RowAt(policy, c), 0)
               else RecordFailedReset(policy, done, 1, ResetAt(policy, c), 0)
  {
  }

  lemma CodeIsCounted(policy: Policy, s: State, c: nat)
    requires Lasting(policy) && c < policy.maxAttempts && s.pendings == map[1 := RowAt(policy, c)]
    ensures RecordFailedAttempt(policy, s, 1, RowAt(policy, c), 0) == s.(pendings := map[1 := RowAt(policy, c + 1)])
  {
  }

  lemma ResetIsCounted(policy: Policy, s: State, c: nat)
    requires Lasting(policy) && c < policy.resetMaxAttempts && s.resets == map[1 := ResetAt(policy, c)]
    ensures RecordFailedReset(policy, s, 1, ResetAt(policy, c), 0) == s.(resets := map[1 := ResetAt(policy, c + 1)])
  {
  }

  /** The others are not. */
  lemma OneMoreEnds(base: State, policy: Policy, target: Target, c: nat, m: nat, k: nat)
    requires IsTarget(target) && m < k
    ensures var s := Crowd(base, policy, target, c + 1, c, m, k);
            && Next(policy, Verifies, s, End(target, m)) == Crowd(base, policy, target, c + 1, c, m + 1, k)
            && TriesWrong(Verifies, s, End(target, m), target)
  {
    var s := Crowd(base, policy, target, c + 1, c, m, k);
    var done := s.(inFlight := s.inFlight - {m});
    OneReaderLess(m, k, ReaderOf(policy, target, c));
    EndsWrong(s, policy, target, c, m, done);
  }

  lemma LiveInCrowd(base: State, policy: Policy, target: Target, count: nat, read: nat, from: nat, to: nat)
    requires IsTarget(target)
    ensures |Live(Crowd(base, policy, target, count, read, from, to), target)| <= to
    ensures count != read ==> Live(Crowd(base, policy, target, count, read, from, to), target) == {}
  {
    SubsetSize(Live(Crowd(base, policy, target, count, read, from, to), target), Until(to));
    UntilSize(to);
  }

  // ----- the run -----

  /** A run to a state, with so many wrong tries, and never more than k live. */
  ghost predicate Leads(start: State, policy: Policy, target: Target, run: seq<Action>, s: State, tries: nat, k: nat) {
    && Auth.After(policy, Verifies, start, run) == s
    && Tries(policy, Verifies, start, run, target) == tries
    && Narrow(policy, Verifies, start, run, target, k)
  }

  lemma LeadsOn(start: State, policy: Policy, target: Target, run: seq<Action>, s: State, tries: nat, k: nat, a: Action, after: State)
    requires Leads(start, policy, target, run, s, tries, k) && |Live(s, target)| <= k && !Renews(a, target)
    requires Next(policy, Verifies, s, a) == after
    ensures Leads(start, policy, target, run + [a], after, tries + (if TriesWrong(Verifies, s, a, target) then 1 else 0), k)
  {
    OneMoreAction(policy, Verifies, start, run, a, target);
    NarrowPrefix(policy, Verifies, start, run, a, target, k);
  }

  /** The n-th begins. */
  lemma GathersOne(start: State, policy: Policy, target: Target, run: seq<Action>, c: nat, tries: nat, k: nat, n: Pos)
    requires IsTarget(target) && Lasting(policy) && c < Maximum(policy, target) && n <= k
    requires Leads(start, policy, target, run, Crowd(start, policy, target, c, c, 0, n - 1), tries, k)
    ensures Leads(start, policy, target, run + [Begin(target, n - 1)], Crowd(start, policy, target, c, c, 0, n), tries, k)
  {
    OneMoreBegins(start, policy, target, c, n - 1);
    LiveInCrowd(start, policy, target, c, c, 0, n - 1);
    LeadsOn(start, policy, target, run, Crowd(start, policy, target, c, c, 0, n - 1), tries, k, Begin(target, n - 1),
            Crowd(start, policy, target, c, c, 0, n));
  }

  lemma {:induction false} Gather(start: State, policy: Policy, target: Target, run: seq<Action>, c: nat, tries: nat, k: nat, n: nat)
    returns (longer: seq<Action>)
    requires IsTarget(target) && Lasting(policy) && c < Maximum(policy, target) && n <= k
    requires Leads(start, policy, target, run, Crowd(start, policy, target, c, c, 0, 0), tries, k)
    ensures Leads(start, policy, target, longer, Crowd(start, policy, target, c, c, 0, n), tries, k)
    decreases n
  {
    if n == 0 {
      longer := run;
    } else {
      var some := Gather(start, policy, target, run, c, tries, k, n - 1);
      GathersOne(start, policy, target, some, c, tries, k, n);
      longer := some + [Begin(target, n - 1)];
    }
  }

  lemma DispersesFirst(start: State, policy: Policy, target: Target, run: seq<Action>, c: nat, tries: nat, k: Pos)
    requires IsTarget(target) && Lasting(policy) && c < Maximum(policy, target)
    requires Leads(start, policy, target, run, Crowd(start, policy, target, c, c, 0, k), tries, k)
    ensures Leads(start, policy, target, run + [End(target, 0)], Crowd(start, policy, target, c + 1, c, 1, k), tries + 1, k)
  {
    FirstEnds(start, policy, target, c, k);
    LiveInCrowd(start, policy, target, c, c, 0, k);
    LeadsOn(start, policy, target, run, Crowd(start, policy, target, c, c, 0, k), tries, k, End(target, 0),
            Crowd(start, policy, target, c + 1, c, 1, k));
  }

  lemma DispersesOne(start: State, policy: Policy, target: Target, run: seq<Action>, c: nat, tries: nat, k: Pos, m: Pos)
    requires IsTarget(target) && Lasting(policy) && c < Maximum(policy, target) && 1 < m <= k
    requires Leads(start, policy, target, run, Crowd(start, policy, target, c + 1, c, m - 1, k), tries, k)
    ensures Leads(start, policy, target, run + [End(target, m - 1)], Crowd(start, policy, target, c + 1, c, m, k), tries + 1, k)
  {
    OneMoreEnds(start, policy, target, c, m - 1, k);
    LiveInCrowd(start, policy, target, c + 1, c, m - 1, k);
    LeadsOn(start, policy, target, run, Crowd(start, policy, target, c + 1, c, m - 1, k), tries, k, End(target, m - 1),
            Crowd(start, policy, target, c + 1, c, m, k));
  }

  lemma {:induction false} Disperse(start: State, policy: Policy, target: Target, run: seq<Action>, c: nat, tries: nat, k: Pos, m: Pos)
    returns (longer: seq<Action>)
    requires IsTarget(target) && Lasting(policy) && c < Maximum(policy, target) && m <= k
    requires Leads(start, policy, target, run, Crowd(start, policy, target, c, c, 0, k), tries, k)
    ensures Leads(start, policy, target, longer, Crowd(start, policy, target, c + 1, c, m, k), tries + m, k)
    decreases m
  {
    if m == 1 {
      DispersesFirst(start, policy, target, run, c, tries, k);
      longer := run + [End(target, 0)];
    } else {
      var some := Disperse(start, policy, target, run, c, tries, k, m - 1);
      DispersesOne(start, policy, target, some, c, tries + (m - 1), k, m);
      longer := some + [End(target, m - 1)];
    }
  }

  lemma NobodyLeft(base: State, policy: Policy, target: Target, c: nat, read: nat, k: nat)
    ensures Crowd(base, policy, target, c, read, k, k) == Crowd(base, policy, target, c, c, 0, 0)
  {
    assert Crowd(base, policy, target, c, read, k, k).inFlight == Crowd(base, policy, target, c, c, 0, 0).inFlight;
  }

  lemma OneRound(start: State, policy: Policy, target: Target, run: seq<Action>, c: nat, tries: nat, k: Pos) returns (longer: seq<Action>)
    requires IsTarget(target) && Lasting(policy) && c < Maximum(policy, target)
    requires Leads(start, policy, target, run, Crowd(start, policy, target, c, c, 0, 0), tries, k)
    ensures Leads(start, policy, target, longer, Crowd(start, policy, target, c + 1, c + 1, 0, 0), tries + k, k)
  {
    var gathered := Gather(start, policy, target, run, c, tries, k, k);
    longer := Disperse(start, policy, target, gathered, c, tries, k, k);
    NobodyLeft(start, policy, target, c + 1, c, k);
  }

  lemma LeadsNowhere(start: State, policy: Policy, target: Target, k: nat)
    ensures Leads(start, policy, target, [], start, 0, k)
  {
  }

  lemma TimesOneMore(k: nat, c: nat)
    ensures k * c >= 0 && k * c + k == k * (c + 1)
  {
  }

  /** c rounds try c times k wrong codes, of which c are counted. */
  lemma {:induction false} Rounds(start: State, policy: Policy, target: Target, k: Pos, c: nat, tries: nat) returns (run: seq<Action>)
    requires IsTarget(target) && Lasting(policy) && c <= Maximum(policy, target) && tries == k * c
    requires start == Crowd(start, policy, target, 0, 0, 0, 0)
    ensures Leads(start, policy, target, run, Crowd(start, policy, target, c, c, 0, 0), tries, k)
    decreases c
  {
    if c == 0 {
      run := [];
      LeadsNowhere(start, policy, target, k);
    } else {
      TimesOneMore(k, c - 1);
      var some := Rounds(start, policy, target, k, c - 1, tries - k);
      run := OneRound(start, policy, target, some, c - 1, tries - k, k);
    }
  }

  // ----- a stored code -----

  const REGISTERING: seq<Action> := [Register(EMAIL, 1, HASH, 0)]

  lemma Registers(policy: Policy)
    ensures var s := AuthLaws.Reached(policy, Verifies, REGISTERING);
            && s == START.(pendings := map[1 := RowAt(policy, 0)], past := Past({1}, map[], {}))
            && s == Crowd(s, policy, CodeOf(1, HASH), 0, 0, 0, 0)
  {
    AuthLaws.ReachedStep(policy, Verifies, [], REGISTERING[0]);
    assert [] + REGISTERING == REGISTERING;
    var s := Next(policy, Verifies, START, REGISTERING[0]);
    assert s.pendings == map[1 := RowAt(policy, 0)];
    assert s.inFlight == Crowd(s, policy, CodeOf(1, HASH), 0, 0, 0, 0).inFlight;
  }

  const VERIFYING: seq<Action> := REGISTERING + [BeginVerification(1, EMAIL, 1, RIGHT, 0)]
  const VERIFIED: seq<Action> := VERIFYING + [FinishVerification(1, 1, 1, 1, 0)]
  const FORGETTING: seq<Action> := VERIFIED + [ForgotPassword(1, 1, HASH, 0)]

  lemma BecomesUser(policy: Policy)
    requires Lasting(policy)
    ensures var s := AuthLaws.Reached(policy, Verifies, VERIFIED);
            s.users == map[1 := EMAIL] && s.resets == map[] && s.inFlight == map[] && s.past.resets == {}
  {
    Registers(policy);
    AuthLaws.ReachedStep(policy, Verifies, REGISTERING, BeginVerification(1, EMAIL, 1, RIGHT, 0));
    AuthLaws.ReachedStep(policy, Verifies, VERIFYING, FinishVerification(1, 1, 1, 1, 0));
    var s := AuthLaws.Reached(policy, Verifies, VERIFYING);
    assert s.inFlight == map[1 := Verifying(1, RowAt(policy, 0), RIGHT, 0)];
  }

  lemma Forgets(policy: Policy)
    requires Lasting(policy)
    ensures var s := AuthLaws.Reached(policy, Verifies, FORGETTING); s == Crowd(s, policy, ResetCode(1), 0, 0, 0, 0)
  {
    BecomesUser(policy);
    AuthLaws.ReachedStep(policy, Verifies, VERIFIED, ForgotPassword(1, 1, HASH, 0));
    var s := AuthLaws.Reached(policy, Verifies, FORGETTING);
    assert s.resets == map[1 := ResetAt(policy, 0)];
    assert s.inFlight == Crowd(s, policy, ResetCode(1), 0, 0, 0, 0).inFlight;
  }

  /** A run after which a code of either kind is stored, with nobody in flight. */
  lemma Stores(policy: Policy, registration: bool) returns (before: seq<Action>, target: Target)
    requires Lasting(policy)
    ensures IsTarget(target) && target.CodeOf? == registration
    ensures var s := AuthLaws.Reached(policy, Verifies, before); s == Crowd(s, policy, target, 0, 0, 0, 0) && JustStored(s, target)
  {
    if registration {
      Registers(policy);
      before, target := REGISTERING, CodeOf(1, HASH);
    } else {
      Forgets(policy);
      before, target := FORGETTING, ResetCode(1);
    }
  }

  /** The bound is reached for every k, by codes of registrations and of password resets. */
  lemma BoundIsReached(policy: Policy, registration: bool, k: Pos) returns (before: seq<Action>, run: seq<Action>, target: Target)
    requires Lasting(policy)
    ensures target.CodeOf? == registration && JustStored(AuthLaws.Reached(policy, Verifies, before), target)
    ensures Narrow(policy, Verifies, AuthLaws.Reached(policy, Verifies, before), run, target, k)
    ensures Tries(policy, Verifies, AuthLaws.Reached(policy, Verifies, before), run, target) == k * Maximum(policy, target)
  {
    before, target := Stores(policy, registration);
    run := Rounds(AuthLaws.Reached(policy, Verifies, before), policy, target, k, Maximum(policy, target), k * Maximum(policy, target));
  }

  /** In no run are more wrong codes tried than the maximum allows, if never more than k requests in flight read the
      count that is stored. */
  ghost predicate MaximumHolds(policy: Policy, registration: bool, k: nat) {
    forall verifies: (Hash, Secret) -> bool, before: seq<Action>, run: seq<Action>, target: Target |
      target.CodeOf? == registration && JustStored(AuthLaws.Reached(policy, verifies, before), target)
      && Narrow(policy, verifies, AuthLaws.Reached(policy, verifies, before), run, target, k) ::
      Tries(policy, verifies, AuthLaws.Reached(policy, verifies, before), run, target) <= Maximum(policy, target)
  }

  /** The configured maximum bounds the wrong codes exactly where requests read one count one at a time. */
  lemma MaximumHoldsIffOneAtATime(policy: Policy, registration: bool, k: nat)
    requires Lasting(policy)
    ensures MaximumHolds(policy, registration, k) <==> k <= 1
  {
    if k <= 1 {
      forall verifies: (Hash, Secret) -> bool, before: seq<Action>, run: seq<Action>, target: Target |
        target.CodeOf? == registration && JustStored(AuthLaws.Reached(policy, verifies, before), target)
        && Narrow(policy, verifies, AuthLaws.Reached(policy, verifies, before), run, target, k)
        ensures Tries(policy, verifies, AuthLaws.Reached(policy, verifies, before), run, target) <= Maximum(policy, target)
      {
        WrongTriesAreBounded(policy, verifies, before, run, target, k);
      }
    } else {
      var before, run, target := BoundIsReached(policy, registration, k);
      HigherLevel(Maximum(policy, target), 1, k);
      assert Tries(policy, Verifies, AuthLaws.Reached(policy, Verifies, before), run, target) > Maximum(policy, target);
    }
  }

  /** For every n some run tries n wrong codes against a registration of which the stored count shows one. */
  lemma ManyTriesMayCountAsOne(policy: Policy, n: Pos) returns (run: seq<Action>)
    requires Lasting(policy)
    ensures var s := AuthLaws.Reached(policy, Verifies, REGISTERING); var target := CodeOf(1, HASH);
            var after := Auth.After(policy, Verifies, s, run);
            && JustStored(s, target) && Tries(policy, Verifies, s, run, target) == n
            && Stored(after, target) && Count(after, target) == 1
  {
    Registers(policy);
    run := Rounds(AuthLaws.Reached(policy, Verifies, REGISTERING), policy, CodeOf(1, HASH), n, 1, n);
  }
}
