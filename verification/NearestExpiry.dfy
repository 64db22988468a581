/** Why reserve takes the grant that expires first: over any run of reservations
    it serves every request whenever some other choice of grants could have. */
module NearestExpiry {
  import opened Rows
  import opened Credits
  import CreditLaws

  /** Grants come, requests take one credit each, and a failed or cancelled generation gives its credit back. */
  datatype Event =
    | Arrive(id: GrantId, grant: Grant)
    | Request(name: GenerationId, user: UserId, time: Time)
    | Return(name: GenerationId)

  function Spend(grants: map<GrantId, Grant>, id: GrantId): (spent: map<GrantId, Grant>)
    requires id in grants && grants[id].remaining > 0
    ensures spent.Keys == grants.Keys
  {
    grants[id := grants[id].(remaining := grants[id].remaining - 1)]
  }

  function Refund(grants: map<GrantId, Grant>, id: GrantId): map<GrantId, Grant> {
    if id in grants then grants[id := grants[id].(remaining := grants[id].remaining + 1)] else grants
  }

  /** An assignment of the requests, in order, to grants that are usable at their times. */
  predicate Serves(grants: map<GrantId, Grant>, taken: map<GenerationId, GrantId>, events: seq<Event>, choice: seq<GrantId>)
    decreases |events|
  {
    if events == [] then true
    else
      match events[0]
      case Arrive(id, grant) => id !in grants && Serves(grants[id := grant], taken, events[1..], choice)
      case Request(name, user, time) =>
        && choice != [] && choice[0] in grants && Usable(grants[choice[0]], user, time)
        && Serves(Spend(grants, choice[0]), taken[name := choice[0]], events[1..], choice[1..])
      case Return(name) =>
        if name in taken then Serves(Refund(grants, taken[name]), taken - {name}, events[1..], choice)
        else Serves(grants, taken, events[1..], choice)
  }

  /** The run in which every request takes the grant that compareGrants puts first, up to the end. */
  ghost predicate NeverExhausted(grants: map<GrantId, Grant>, taken: map<GenerationId, GrantId>, events: seq<Event>)
    decreases |events|
  {
    if events == [] then true
    else
      match events[0]
      case Arrive(id, grant) => id !in grants && NeverExhausted(grants[id := grant], taken, events[1..])
      case Request(name, user, time) =>
        var best := BestGrant(grants, user, time);
        best.Some? && NeverExhausted(Spend(grants, best.value), taken[name := best.value], events[1..])
      case Return(name) =>
        if name in taken then NeverExhausted(Refund(grants, taken[name]), taken - {name}, events[1..])
        else NeverExhausted(grants, taken, events[1..])
  }

  predicate InOrder(events: seq<Event>) {
    forall i, j | 0 <= i < j < |events| && events[i].Request? && events[j].Request? :: events[i].time <= events[j].time
  }

  predicate NotBefore(events: seq<Event>, from: Time) {
    forall i | 0 <= i < |events| && events[i].Request? :: from <= events[i].time
  }

  // ----- when a returned credit does no harm -----

  /** The dates allow the grant at this time, whether or not it has credits. */
  predicate Open(grant: Grant, time: Time) {
    grant.validFrom <= time && (grant.expiresAt.Some? ==> time < grant.expiresAt.value)
  }

  /** At every request of its user that finds the later grant open, the sooner one is open too. */
  predicate Covers(sooner: Grant, later: Grant, events: seq<Event>) {
    forall i | 0 <= i < |events| && events[i].Request? && events[i].user == sooner.user && Open(later, events[i].time) ::
      Open(sooner, events[i].time)
  }

  /** If the request of this name gives its credit back, the sooner grant covers the later one from then on. */
  predicate SafeReturn(name: GenerationId, sooner: Grant, later: Grant, events: seq<Event>)
    decreases |events|
  {
    if events == [] then true
    else
      match events[0]
      case Arrive(_, _) => SafeReturn(name, sooner, later, events[1..])
      case Request(other, _, _) => other == name || SafeReturn(name, sooner, later, events[1..])
      case Return(other) => if other == name then Covers(sooner, later, events[1..]) else SafeReturn(name, sooner, later, events[1..])
  }

  /** In the run that takes the grant that compareGrants puts first, what comes back is open whenever a grant is that
      could have been taken in its place. */
  ghost predicate Harmless(grants: map<GrantId, Grant>, taken: map<GenerationId, GrantId>, events: seq<Event>)
    decreases |events|
  {
    if events == [] then true
    else
      match events[0]
      case Arrive(id, grant) => id !in grants ==> Harmless(grants[id := grant], taken, events[1..])
      case Request(name, user, time) =>
        var best := BestGrant(grants, user, time);
        best.Some? ==>
          && (forall h | h in grants && Usable(grants[h], user, time) :: SafeReturn(name, grants[best.value], grants[h], events[1..]))
          && Harmless(Spend(grants, best.value), taken[name := best.value], events[1..])
      case Return(name) =>
        if name in taken then Harmless(Refund(grants, taken[name]), taken - {name}, events[1..])
        else Harmless(grants, taken, events[1..])
  }

  // ----- the exchange -----

  predicate SameDates(one: Grant, other: Grant) {
    one == other.(remaining := one.remaining)
  }

  /** How two runs of the same events differ: the left has this many more credits of the sooner grant and the right as
      many more of the later one, and one request each may have taken the later on the left and the sooner on the
      right, or the other way round. */
  datatype Gap = Gap(sooner: GrantId, soonerRow: Grant, later: GrantId, laterRow: Grant, ahead: int,
                     tookLater: Option<GenerationId>, tookSooner: Option<GenerationId>)

  predicate Apart(left: map<GrantId, Grant>, right: map<GrantId, Grant>, gap: Gap, now: Time) {
    && left.Keys == right.Keys && gap.sooner in left && gap.later in left && gap.sooner != gap.later
    && (forall id | id in left && id != gap.sooner && id != gap.later :: left[id] == right[id])
    && SameDates(left[gap.sooner], gap.soonerRow) && SameDates(right[gap.sooner], gap.soonerRow)
    && SameDates(left[gap.later], gap.laterRow) && SameDates(right[gap.later], gap.laterRow)
    && left[gap.sooner].remaining == right[gap.sooner].remaining + gap.ahead
    && left[gap.later].remaining + gap.ahead == right[gap.later].remaining
    && gap.soonerRow.user == gap.laterRow.user
    && Expiration(gap.soonerRow) <= Expiration(gap.laterRow)
    && gap.soonerRow.validFrom <= now && gap.laterRow.validFrom <= now
  }

  predicate Crossed(taken: map<GenerationId, GrantId>, taken': map<GenerationId, GrantId>, gap: Gap) {
    && taken.Keys == taken'.Keys
    && (gap.tookLater.Some? ==> gap.tookLater.value in taken && gap.tookLater != gap.tookSooner)
    && (gap.tookSooner.Some? ==> gap.tookSooner.value in taken)
    && (forall name | name in taken ::
          if gap.tookLater == Some(name) then taken[name] == gap.later && taken'[name] == gap.sooner
          else if gap.tookSooner == Some(name) then taken[name] == gap.sooner && taken'[name] == gap.later
          else taken[name] == taken'[name])
  }

  /** Only a return of the request that took the later grant on the left can leave the right behind there, and then
      the sooner grant makes up for it. */
  predicate Bridged(gap: Gap, events: seq<Event>) {
    && -1 <= gap.ahead <= 1
    && (gap.ahead == 1 ==> gap.tookSooner.None?)
    && (gap.ahead == -1 ==> gap.tookLater.None?)
    && (Covers(gap.soonerRow, gap.laterRow, events)
        || (gap.ahead >= 0 && (gap.tookLater.Some? ==> SafeReturn(gap.tookLater.value, gap.soonerRow, gap.laterRow, events))))
  }

  /** The request of this name took the same grant in both runs. */
  function Forget(gap: Gap, name: GenerationId): Gap {
    gap.(tookLater := if gap.tookLater == Some(name) then None else gap.tookLater,
         tookSooner := if gap.tookSooner == Some(name) then None else gap.tookSooner)
  }

  function AfterReturn(gap: Gap, name: GenerationId): Gap {
    if gap.tookLater == Some(name) then gap.(ahead := gap.ahead - 1, tookLater := None)
    else if gap.tookSooner == Some(name) then gap.(ahead := gap.ahead + 1, tookSooner := None)
    else gap
  }

  /** What the right takes where the left takes a grant, and the difference after it. */
  function Matching(gap: Gap, name: GenerationId, c: GrantId): (GrantId, Gap) {
    var forgot := Forget(gap, name);
    if gap.ahead == 1 && c == gap.sooner then (gap.later, forgot.(ahead := 0, tookSooner := Some(name)))
    else if gap.ahead == -1 && c == gap.later then (gap.sooner, forgot.(ahead := 0, tookLater := Some(name)))
    else (c, forgot)
  }

  lemma CoversFromHere(sooner: Grant, later: Grant, events: seq<Event>)
    requires events != [] && Covers(sooner, later, events)
    ensures Covers(sooner, later, events[1..])
  {
    forall i | 0 <= i < |events[1..]| && events[1..][i].Request? && events[1..][i].user == sooner.user && Open(later, events[1..][i].time)
      ensures Open(sooner, events[1..][i].time)
    {
      assert events[1 + i] == events[1..][i];
    }
  }

  lemma StillBridged(gap: Gap, events: seq<Event>)
    requires events != [] && Bridged(gap, events)
    ensures events[0].Arrive? ==> Bridged(gap, events[1..])
    ensures events[0].Request? ==> Bridged(Forget(gap, events[0].name), events[1..])
    ensures events[0].Return? ==> Bridged(AfterReturn(gap, events[0].name), events[1..])
  {
    if Covers(gap.soonerRow, gap.laterRow, events) { CoversFromHere(gap.soonerRow, gap.laterRow, events); }
  }

  /** The right can match what the left takes: where it lacks the later grant, the sooner one covers it. */
  lemma MatchIsUsable(left: map<GrantId, Grant>, right: map<GrantId, Grant>, gap: Gap, now: Time, events: seq<Event>, c: GrantId)
    requires events != [] && events[0].Request? && now <= events[0].time
    requires Apart(left, right, gap, now) && Bridged(gap, events)
    requires c in left && Usable(left[c], events[0].user, events[0].time)
    ensures var c' := Matching(gap, events[0].name, c).0; c' in right && Usable(right[c'], events[0].user, events[0].time)
  {
    if gap.ahead == -1 && c == gap.later {
      assert Covers(gap.soonerRow, gap.laterRow, events);
      assert Open(gap.laterRow, events[0].time);
    }
  }

  lemma MatchKeepsApart(left: map<GrantId, Grant>, right: map<GrantId, Grant>, gap: Gap, now: Time, name: GenerationId, c: GrantId)
    requires Apart(left, right, gap, now) && -1 <= gap.ahead <= 1 && c in left && left[c].remaining > 0
    requires var c' := Matching(gap, name, c).0; c' in right && right[c'].remaining > 0
    ensures var (c', gap') := Matching(gap, name, c); Apart(Spend(left, c), Spend(right, c'), gap', now)
  {
  }

  lemma MatchKeepsCrossed(taken: map<GenerationId, GrantId>, taken': map<GenerationId, GrantId>, gap: Gap, events: seq<Event>, c: GrantId)
    requires events != [] && events[0].Request? && Crossed(taken, taken', gap) && Bridged(gap, events)
    ensures var name := events[0].name;
            var (c', gap') := Matching(gap, name, c);
            Crossed(taken[name := c], taken'[name := c'], gap') && Bridged(gap', events[1..])
  {
    StillBridged(gap, events);
    if gap.ahead == -1 { CoversFromHere(gap.soonerRow, gap.laterRow, events); }
  }

  /** A return closes the gap, leaves it or opens it. */
  lemma ReturnMatches(left: map<GrantId, Grant>, right: map<GrantId, Grant>, gap: Gap, now: Time,
                      taken: map<GenerationId, GrantId>, taken': map<GenerationId, GrantId>, name: GenerationId)
    requires Apart(left, right, gap, now) && Crossed(taken, taken', gap) && name in taken
    ensures Apart(Refund(left, taken[name]), Refund(right, taken'[name]), AfterReturn(gap, name), now)
    ensures Crossed(taken - {name}, taken' - {name}, AfterReturn(gap, name))
  {
  }

  /** Whatever an assignment does on the left, some assignment does on the right. */
  lemma {:induction false} Exchange(left: map<GrantId, Grant>, right: map<GrantId, Grant>, gap: Gap, now: Time,
                                    taken: map<GenerationId, GrantId>, taken': map<GenerationId, GrantId>,
                                    events: seq<Event>, choice: seq<GrantId>) returns (choice': seq<GrantId>)
    requires Apart(left, right, gap, now) && Crossed(taken, taken', gap) && Bridged(gap, events) && NotBefore(events, now)
    requires Serves(left, taken, events, choice)
    ensures Serves(right, taken', events, choice')
    decreases |events|
  {
    if events == [] {
      choice' := [];
    } else {
      var rest := events[1..];
      StillBridged(gap, events);
      match events[0]
      case Arrive(id, grant) =>
        choice' := Exchange(left[id := grant], right[id := grant], gap, now, taken, taken', rest, choice);
      case Request(name, user, time) =>
        var c := choice[0];
        MatchIsUsable(left, right, gap, now, events, c);
        MatchKeepsApart(left, right, gap, now, name, c);
        MatchKeepsCrossed(taken, taken', gap, events, c);
        var (c', gap') := Matching(gap, name, c);
        var tail := Exchange(Spend(left, c), Spend(right, c'), gap', now, taken[name := c], taken'[name := c'], rest, choice[1..]);
        choice' := [c'] + tail;
      case Return(name) =>
        if name in taken {
          ReturnMatches(left, right, gap, now, taken, taken', name);
          choice' := Exchange(Refund(left, taken[name]), Refund(right, taken'[name]), AfterReturn(gap, name), now,
                              taken - {name}, taken' - {name}, rest, choice);
        } else {
          choice' := Exchange(left, right, gap, now, taken, taken', rest, choice);
        }
    }
  }

  /** Any first choice may be replaced by the one that compareGrants makes. */
  lemma BestIsAsGood(grants: map<GrantId, Grant>, taken: map<GenerationId, GrantId>, events: seq<Event>, choice: seq<GrantId>)
    returns (best: GrantId, rest: seq<GrantId>)
    requires events != [] && events[0].Request? && InOrder(events) && Harmless(grants, taken, events)
    requires Serves(grants, taken, events, choice)
    ensures BestGrant(grants, events[0].user, events[0].time) == Some(best)
    ensures Serves(Spend(grants, best), taken[events[0].name := best], events[1..], rest)
  {
    var h := choice[0];
    var Request(name, user, now) := events[0];
    best := BestGrant(grants, user, now).value;
    if best == h {
      rest := choice[1..];
    } else {
      assert CompareGrants(best, grants[best], h, grants[h]) <= 0;
      rest := Exchange(Spend(grants, h), Spend(grants, best), Gap(best, grants[best], h, grants[h], 1, Some(name), None), now,
                       taken[name := h], taken[name := best], events[1..], choice[1..]);
    }
  }

  ghost predicate SomeoneServes(grants: map<GrantId, Grant>, taken: map<GenerationId, GrantId>, events: seq<Event>) {
    exists choice :: Serves(grants, taken, events, choice)
  }

  /** Nearest expiry first is optimal: where what comes back does no harm, reserve never runs out of credits exactly
      when some assignment gives every request a grant that is usable at its time. */
  lemma NearestExpiryIsOptimal(grants: map<GrantId, Grant>, taken: map<GenerationId, GrantId>, events: seq<Event>)
    requires InOrder(events) && Harmless(grants, taken, events)
    ensures NeverExhausted(grants, taken, events) <==> SomeoneServes(grants, taken, events)
  {
    if SomeoneServes(grants, taken, events) {
      var choice :| Serves(grants, taken, events, choice);
      AnyAssignmentIsMatched(grants, taken, events, choice);
    }
    if NeverExhausted(grants, taken, events) {
      var choice := ItsOwnAssignment(grants, taken, events);
    }
  }

  lemma {:induction false} AnyAssignmentIsMatched(grants: map<GrantId, Grant>, taken: map<GenerationId, GrantId>, events: seq<Event>, choice: seq<GrantId>)
    requires InOrder(events) && Harmless(grants, taken, events) && Serves(grants, taken, events, choice)
    ensures NeverExhausted(grants, taken, events)
    decreases |events|
  {
    if events != [] {
      match events[0]
      case Arrive(id, grant) => AnyAssignmentIsMatched(grants[id := grant], taken, events[1..], choice);
      case Request(name, user, time) =>
        var best, rest := BestIsAsGood(grants, taken, events, choice);
        AnyAssignmentIsMatched(Spend(grants, best), taken[name := best], events[1..], rest);
      case Return(name) =>
        if name in taken {
          AnyAssignmentIsMatched(Refund(grants, taken[name]), taken - {name}, events[1..], choice);
        } else {
          AnyAssignmentIsMatched(grants, taken, events[1..], choice);
        }
    }
  }

  lemma {:induction false} ItsOwnAssignment(grants: map<GrantId, Grant>, taken: map<GenerationId, GrantId>, events: seq<Event>)
    returns (choice: seq<GrantId>)
    requires NeverExhausted(grants, taken, events)
    ensures Serves(grants, taken, events, choice)
    decreases |events|
  {
    if events == [] {
      choice := [];
    } else {
      match events[0]
      case Arrive(id, grant) => choice := ItsOwnAssignment(grants[id := grant], taken, events[1..]);
      case Request(name, user, time) =>
        var best := BestGrant(grants, user, time).value;
        var rest := ItsOwnAssignment(Spend(grants, best), taken[name := best], events[1..]);
        choice := [best] + rest;
      case Return(name) =>
        if name in taken {
          choice := ItsOwnAssignment(Refund(grants, taken[name]), taken - {name}, events[1..]);
        } else {
          choice := ItsOwnAssignment(grants, taken, events[1..]);
        }
    }
  }

  // ----- reserve and the projection for the user -----

  /** reserve reports exhaustion exactly when no grant is usable, and otherwise takes one credit of the best one. */
  lemma ReserveTakesTheBest(db: Db, now: Time, user: UserId, g: GenerationId)
    requires CreditLaws.Sound(db) && g in db.generations && ReserveKey(g) !in db.ledger
    ensures Reserve(db, now, user, g) == Err(CreditsExhausted) <==> BestGrant(db.grants, user, now).None?
    ensures BestGrant(db.grants, user, now).Some? ==>
              Reserve(db, now, user, g).Ok? && Reserve(db, now, user, g).value.grants == Spend(db.grants, BestGrant(db.grants, user, now).value)
  {
    forall k | k in db.ledger && db.ledger[k].generation == Some(g) ensures !db.ledger[k].kind.RESERVE? {
      assert CreditLaws.RowShape(db.generations.Keys, db.grants, db.ledger, k);
    }
  }

  /** The rows that a query for usable grants lists, in some order. */
  ghost predicate Lists(grants: map<GrantId, Grant>, user: UserId, now: Time, ids: seq<GrantId>) {
    && (forall id :: id in ids <==> id in grants && Usable(grants[id], user, now))
    && (forall i, j | 0 <= i < j < |ids| :: ids[i] != ids[j])
  }

  function Sum(grants: map<GrantId, Grant>, ids: seq<GrantId>): nat
    requires forall id | id in ids :: id in grants
  {
    if ids == [] then 0 else grants[ids[0]].remaining + Sum(grants, ids[1..])
  }

  function OfSource(grants: map<GrantId, Grant>, ids: seq<GrantId>, source: CreditSource): (some: seq<GrantId>)
    requires forall id | id in ids :: id in grants
    ensures forall id :: id in some <==> id in ids && grants[id].source == source
  {
    if ids == [] then []
    else (if grants[ids[0]].source == source then [ids[0]] else []) + OfSource(grants, ids[1..], source)
  }

  datatype Entitlements = Entitlements(available: nat, monthly: nat, purchased: nat, canGenerate: bool)

  function Project(grants: map<GrantId, Grant>, ids: seq<GrantId>): Entitlements
    requires forall id | id in ids :: id in grants
  {
    var available := Sum(grants, ids);
    Entitlements(available, Sum(grants, OfSource(grants, ids, SubscriptionMonthly)), Sum(grants, OfSource(grants, ids, PurchasedPack)),
                 available > 0)
  }

  /** n reservations one after the other at one moment. */
  ghost predicate ServesInARow(grants: map<GrantId, Grant>, user: UserId, now: Time, n: nat)
    decreases n
  {
    n == 0
    || (BestGrant(grants, user, now).Some? && ServesInARow(Spend(grants, BestGrant(grants, user, now).value), user, now, n - 1))
  }

  lemma {:induction false} SumSplits(grants: map<GrantId, Grant>, left: seq<GrantId>, right: seq<GrantId>)
    requires forall id | id in left + right :: id in grants
    ensures forall id | id in left || id in right :: id in grants
    ensures Sum(grants, left + right) == Sum(grants, left) + Sum(grants, right)
  {
    forall id | id in left || id in right ensures id in grants { assert id in left + right; }
    if left == [] {
      assert left + right == right;
    } else {
      assert (left + right)[1..] == left[1..] + right;
      SumSplits(grants, left[1..], right);
    }
  }

  lemma {:induction false} SumDependsOnRows(grants: map<GrantId, Grant>, grants': map<GrantId, Grant>, ids: seq<GrantId>)
    requires forall id | id in ids :: id in grants && id in grants' && grants[id].remaining == grants'[id].remaining
    ensures Sum(grants, ids) == Sum(grants', ids)
  {
    if ids != [] { SumDependsOnRows(grants, grants', ids[1..]); }
  }

  lemma SumWithout(grants: map<GrantId, Grant>, ids: seq<GrantId>, k: nat)
    requires k < |ids| && forall id | id in ids :: id in grants
    ensures forall id | id in ids[..k] + ids[k + 1..] :: id in grants
    ensures Sum(grants, ids) == Sum(grants, ids[..k] + ids[k + 1..]) + grants[ids[k]].remaining
  {
    var left, right := ids[..k], ids[k + 1..];
    assert ids == left + ([ids[k]] + right);
    SumSplits(grants, left, [ids[k]] + right);
    assert ([ids[k]] + right)[1..] == right;
    forall id | id in left + right ensures id in grants { assert id in ids; }
    SumSplits(grants, left, right);
  }

  /** A listing without its k-th entry. */
  lemma ListWithout(ids: seq<GrantId>, k: nat)
    requires k < |ids| && forall i, j | 0 <= i < j < |ids| :: ids[i] != ids[j]
    ensures var rest := ids[..k] + ids[k + 1..];
            && (forall id :: id in rest <==> id in ids && id != ids[k])
            && (forall i, j | 0 <= i < j < |rest| :: rest[i] != rest[j])
  {
    var left, right := ids[..k], ids[k + 1..];
    assert ids == left + [ids[k]] + right;
    forall id ensures id in left + right <==> id in ids && id != ids[k] {
      if id in left { var i :| 0 <= i < k && ids[i] == id; }
      if id in right { var i :| 0 <= i < |right| && right[i] == id; assert ids[k + 1 + i] == id; }
    }
  }

  /** One credit less on one listed grant is one less in the sum, and the grant leaves the list with its last. */
  lemma SpendingLowersSum(grants: map<GrantId, Grant>, user: UserId, now: Time, ids: seq<GrantId>, best: GrantId)
    returns (ids': seq<GrantId>)
    requires Lists(grants, user, now, ids) && best in ids
    ensures Lists(Spend(grants, best), user, now, ids')
    ensures Sum(Spend(grants, best), ids') == Sum(grants, ids) - 1
  {
    var k :| 0 <= k < |ids| && ids[k] == best;
    var rest := ids[..k] + ids[k + 1..];
    var spent := Spend(grants, best);
    SumWithout(grants, ids, k);
    ListWithout(ids, k);
    SumDependsOnRows(grants, spent, rest);
    if grants[best].remaining > 1 {
      ids' := ids;
      SumWithout(spent, ids, k);
    } else {
      ids' := rest;
    }
  }

  lemma ListedBest(grants: map<GrantId, Grant>, user: UserId, now: Time, ids: seq<GrantId>)
    requires Lists(grants, user, now, ids)
    ensures BestGrant(grants, user, now).None? <==> ids == []
    ensures BestGrant(grants, user, now).Some? ==> BestGrant(grants, user, now).value in ids
  {
    if ids != [] { assert ids[0] in ids; }
  }

  lemma {:induction false} SumCountsReservations(grants: map<GrantId, Grant>, user: UserId, now: Time, ids: seq<GrantId>, n: nat)
    requires Lists(grants, user, now, ids)
    ensures ServesInARow(grants, user, now, n) <==> n <= Sum(grants, ids)
    decreases n
  {
    if n > 0 {
      ListedBest(grants, user, now, ids);
      if ids != [] {
        var best := BestGrant(grants, user, now).value;
        var rest := SpendingLowersSum(grants, user, now, ids, best);
        SumCountsReservations(Spend(grants, best), user, now, rest, n - 1);
      }
    }
  }

  /** available is the number of reservations that would succeed one after the other at that moment, whatever the
      order in which the query lists the grants. */
  lemma AvailableCountsReservations(grants: map<GrantId, Grant>, user: UserId, now: Time, ids: seq<GrantId>, n: nat)
    requires Lists(grants, user, now, ids)
    ensures ServesInARow(grants, user, now, n) <==> n <= Project(grants, ids).available
  {
    SumCountsReservations(grants, user, now, ids, n);
  }

  /** canGenerate is true exactly when reserve would find a grant. */
  lemma CanGenerateIffReserves(db: Db, now: Time, user: UserId, g: GenerationId, ids: seq<GrantId>)
    requires CreditLaws.Sound(db) && g in db.generations && ReserveKey(g) !in db.ledger
    requires Lists(db.grants, user, now, ids)
    ensures Project(db.grants, ids).canGenerate <==> Reserve(db, now, user, g).Ok?
    ensures Project(db.grants, ids).canGenerate <==> Reserve(db, now, user, g) != Err(CreditsExhausted)
  {
    ReserveTakesTheBest(db, now, user, g);
    AvailableCountsReservations(db.grants, user, now, ids, 1);
    assert ServesInARow(db.grants, user, now, 1) <==> BestGrant(db.grants, user, now).Some?;
  }
}
