/** When nearest expiry first stays optimal although failed and cancelled
    generations give their credits back. */
module ReturnedCredits {
  import opened Rows
  import opened Credits
  import opened NearestExpiry

  lemma {:induction false} CoveringIsSafe(name: GenerationId, sooner: Grant, later: Grant, events: seq<Event>)
    requires Covers(sooner, later, events)
    ensures SafeReturn(name, sooner, later, events)
    decreases |events|
  {
    if events != [] {
      CoversFromHere(sooner, later, events);
      CoveringIsSafe(name, sooner, later, events[1..]);
    }
  }

  // ----- nothing comes back -----

  predicate WithoutReturns(events: seq<Event>) {
    forall i | 0 <= i < |events| :: !events[i].Return?
  }

  lemma {:induction false} NoReturnIsSafe(name: GenerationId, sooner: Grant, later: Grant, events: seq<Event>)
    requires WithoutReturns(events)
    ensures SafeReturn(name, sooner, later, events)
    decreases |events|
  {
    if events != [] { NoReturnIsSafe(name, sooner, later, events[1..]); }
  }

  lemma {:induction false} NoReturnIsHarmless(grants: map<GrantId, Grant>, taken: map<GenerationId, GrantId>, events: seq<Event>)
    requires WithoutReturns(events)
    ensures Harmless(grants, taken, events)
    decreases |events|
  {
    if events != [] {
      var rest := events[1..];
      match events[0]
      case Arrive(id, grant) => NoReturnIsHarmless(grants[id := grant], taken, rest);
      case Request(name, user, time) =>
        var best := BestGrant(grants, user, time);
        if best.Some? {
          forall h | h in grants && Usable(grants[h], user, time) ensures SafeReturn(name, grants[best.value], grants[h], rest) {
            NoReturnIsSafe(name, grants[best.value], grants[h], rest);
          }
          NoReturnIsHarmless(Spend(grants, best.value), taken[name := best.value], rest);
        }
    }
  }

  lemma OptimalWithoutReturns(grants: map<GrantId, Grant>, taken: map<GenerationId, GrantId>, events: seq<Event>)
    requires InOrder(events) && WithoutReturns(events)
    ensures NeverExhausted(grants, taken, events) <==> SomeoneServes(grants, taken, events)
  {
    NoReturnIsHarmless(grants, taken, events);
    NearestExpiryIsOptimal(grants, taken, events);
  }

  // ----- what comes back has not expired -----

  predicate UnexpiredFor(grant: Grant, events: seq<Event>) {
    forall i | 0 <= i < |events| && events[i].Request? && events[i].user == grant.user ::
      grant.expiresAt.Some? ==> events[i].time < grant.expiresAt.value
  }

  /** Every grant that the run of reserve gets a credit back for is unexpired at every later request of its user. A
      request that finds no grant is refused and changes nothing. */
  ghost predicate ReturnsStayOpen(grants: map<GrantId, Grant>, taken: map<GenerationId, GrantId>, events: seq<Event>)
    decreases |events|
  {
    if events == [] then true
    else
      match events[0]
      case Arrive(id, grant) => ReturnsStayOpen(if id in grants then grants else grants[id := grant], taken, events[1..])
      case Request(name, user, time) =>
        var best := BestGrant(grants, user, time);
        if best.None? then ReturnsStayOpen(grants, taken, events[1..])
        else ReturnsStayOpen(Spend(grants, best.value), taken[name := best.value], events[1..])
      case Return(name) =>
        if name in taken then
          && (taken[name] in grants ==> UnexpiredFor(grants[taken[name]], events[1..]))
          && ReturnsStayOpen(Refund(grants, taken[name]), taken - {name}, events[1..])
        else ReturnsStayOpen(grants, taken, events[1..])
  }

  lemma UnexpiredCovers(grant: Grant, sooner: Grant, later: Grant, now: Time, events: seq<Event>)
    requires UnexpiredFor(grant, events) && SameDates(grant, sooner) && sooner.validFrom <= now && NotBefore(events, now)
    ensures Covers(sooner, later, events)
  {
  }

  lemma {:induction false} OpenReturnIsSafe(grants: map<GrantId, Grant>, taken: map<GenerationId, GrantId>, events: seq<Event>, now: Time,
                                            name: GenerationId, sooner: Grant, later: Grant)
    requires ReturnsStayOpen(grants, taken, events) && NotBefore(events, now) && sooner.validFrom <= now
    requires name in taken && taken[name] in grants && SameDates(grants[taken[name]], sooner)
    ensures SafeReturn(name, sooner, later, events)
    decreases |events|
  {
    if events != [] {
      var rest := events[1..];
      match events[0]
      case Arrive(id, grant) => OpenReturnIsSafe(if id in grants then grants else grants[id := grant], taken, rest, now, name, sooner, later);
      case Request(other, user, time) =>
        var best := BestGrant(grants, user, time);
        if other == name {
        } else if best.None? {
          OpenReturnIsSafe(grants, taken, rest, now, name, sooner, later);
        } else {
          OpenReturnIsSafe(Spend(grants, best.value), taken[other := best.value], rest, now, name, sooner, later);
        }
      case Return(other) =>
        if other == name {
          UnexpiredCovers(grants[taken[name]], sooner, later, now, rest);
        } else if other in taken {
          OpenReturnIsSafe(Refund(grants, taken[other]), taken - {other}, rest, now, name, sooner, later);
        } else {
          OpenReturnIsSafe(grants, taken, rest, now, name, sooner, later);
        }
    }
  }

  lemma {:induction false} OpenReturnsAreHarmless(grants: map<GrantId, Grant>, taken: map<GenerationId, GrantId>, events: seq<Event>)
    requires InOrder(events) && ReturnsStayOpen(grants, taken, events)
    ensures Harmless(grants, taken, events)
    decreases |events|
  {
    if events != [] {
      var rest := events[1..];
      match events[0]
      case Arrive(id, grant) => if id !in grants { OpenReturnsAreHarmless(grants[id := grant], taken, rest); }
      case Request(name, user, time) =>
        var best := BestGrant(grants, user, time);
        if best.Some? {
          var spent, took := Spend(grants, best.value), taken[name := best.value];
          forall h | h in grants && Usable(grants[h], user, time) ensures SafeReturn(name, grants[best.value], grants[h], rest) {
            OpenReturnIsSafe(spent, took, rest, time, name, grants[best.value], grants[h]);
          }
          OpenReturnsAreHarmless(spent, took, rest);
        }
      case Return(name) =>
        if name in taken {
          OpenReturnsAreHarmless(Refund(grants, taken[name]), taken - {name}, rest);
        } else {
          OpenReturnsAreHarmless(grants, taken, rest);
        }
    }
  }

  /** Credits may come back in any number as long as none of them has expired when its user asks again. */
  lemma OptimalIfReturnsStayOpen(grants: map<GrantId, Grant>, taken: map<GenerationId, GrantId>, events: seq<Event>)
    requires InOrder(events) && ReturnsStayOpen(grants, taken, events)
    ensures NeverExhausted(grants, taken, events) <==> SomeoneServes(grants, taken, events)
  {
    OpenReturnsAreHarmless(grants, taken, events);
    NearestExpiryIsOptimal(grants, taken, events);
  }

  // ----- a run in which it does harm -----

  lemma BestIs(grants: map<GrantId, Grant>, user: UserId, time: Time, id: GrantId)
    requires IsBest(grants, user, time, id)
    ensures BestGrant(grants, user, time) == Some(id)
  {
    var best := BestGrant(grants, user, time);
    assert best.Some?;
    BestIsUnique(grants, user, time, id, best.value);
  }

  const SOON := Grant(0, Promotional, 1, 1, 0, Some(10), 0, None)
  const LATE := Grant(0, PurchasedPack, 1, 1, 0, None, 0, None)
  const USED_SOON := SOON.(remaining := 0)
  const USED_LATE := LATE.(remaining := 0)

  /** Two requests, the first of which is given back after the sooner grant has expired, and a third. */
  const LATE_RETURN := [Request(1, 0, 0), Request(2, 0, 0), Return(1), Request(3, 0, 20)]

  lemma TakingTheLaterServes()
    ensures Serves(map[1 := SOON, 2 := LATE], map[], LATE_RETURN, [2, 1, 2])
  {
    assert LATE_RETURN[1..] == [Request(2, 0, 0), Return(1), Request(3, 0, 20)];
    assert LATE_RETURN[1..][1..] == [Return(1), Request(3, 0, 20)];
    assert LATE_RETURN[1..][1..][1..] == [Request(3, 0, 20)];
    var end := Spend(map[1 := USED_SOON, 2 := LATE], 2);
    assert Serves(end, map[2 := 1][3 := 2], [], []);
    assert Serves(map[1 := USED_SOON, 2 := LATE], map[2 := 1], [Request(3, 0, 20)], [2]);
    var returned := map[1 := 2, 2 := 1] - {1};
    assert returned == map[2 := 1];
    assert Refund(map[1 := USED_SOON, 2 := USED_LATE], 2) == map[1 := USED_SOON, 2 := LATE];
    assert Serves(map[1 := USED_SOON, 2 := USED_LATE], map[1 := 2, 2 := 1], [Return(1), Request(3, 0, 20)], [2]);
    assert Spend(map[1 := SOON, 2 := USED_LATE], 1) == map[1 := USED_SOON, 2 := USED_LATE];
    assert Serves(map[1 := SOON, 2 := USED_LATE], map[1 := 2], [Request(2, 0, 0), Return(1), Request(3, 0, 20)], [1, 2]);
    assert Spend(map[1 := SOON, 2 := LATE], 2) == map[1 := SOON, 2 := USED_LATE];
  }

  lemma TakingTheSoonerExhausts()
    ensures !NeverExhausted(map[1 := SOON, 2 := LATE], map[], LATE_RETURN)
  {
    assert LATE_RETURN[1..] == [Request(2, 0, 0), Return(1), Request(3, 0, 20)];
    assert LATE_RETURN[1..][1..] == [Return(1), Request(3, 0, 20)];
    assert LATE_RETURN[1..][1..][1..] == [Request(3, 0, 20)];
    BestIs(map[1 := SOON, 2 := LATE], 0, 0, 1);
    assert Spend(map[1 := SOON, 2 := LATE], 1) == map[1 := USED_SOON, 2 := LATE];
    BestIs(map[1 := USED_SOON, 2 := LATE], 0, 0, 2);
    assert Spend(map[1 := USED_SOON, 2 := LATE], 2) == map[1 := USED_SOON, 2 := USED_LATE];
    var returned := map[1 := 1, 2 := 2] - {1};
    assert Refund(map[1 := USED_SOON, 2 := USED_LATE], 1) == map[1 := SOON, 2 := USED_LATE];
    assert BestGrant(map[1 := SOON, 2 := USED_LATE], 0, 20).None?;
    assert !NeverExhausted(map[1 := SOON, 2 := USED_LATE], returned, [Request(3, 0, 20)]);
    assert !NeverExhausted(map[1 := USED_SOON, 2 := USED_LATE], map[1 := 1, 2 := 2], [Return(1), Request(3, 0, 20)]);
    assert !NeverExhausted(map[1 := USED_SOON, 2 := LATE], map[1 := 1], [Request(2, 0, 0), Return(1), Request(3, 0, 20)]);
  }

  /** With returns nearest expiry first is not optimal: the credit that comes back may have expired, while another
      choice would have got back one that had not. */
  lemma ReturnsBreakOptimality()
    ensures exists grants, events :: InOrder(events) && SomeoneServes(grants, map[], events) && !NeverExhausted(grants, map[], events)
  {
    TakingTheLaterServes();
    TakingTheSoonerExhausts();
    assert InOrder(LATE_RETURN);
  }

  // ----- the exact condition on the grants -----

  predicate WithoutArrivals(events: seq<Event>) {
    forall i | 0 <= i < |events| :: !events[i].Arrive?
  }

  /** Whatever is requested and given back, these grants serve every run that some assignment of them serves. A grant
      that comes later is one that is valid later. */
  ghost predicate Optimal(grants: map<GrantId, Grant>) {
    forall events | InOrder(events) && WithoutArrivals(events) && SomeoneServes(grants, map[], events) ::
      NeverExhausted(grants, map[], events)
  }

  function LaterStart(one: Grant, other: Grant): Time {
    if one.validFrom <= other.validFrom then other.validFrom else one.validFrom
  }

  /** Two grants of one user are open at a common time. */
  predicate OpenTogether(one: Grant, other: Grant) {
    one.user == other.user && Open(one, LaterStart(one, other)) && Open(other, LaterStart(one, other))
  }

  predicate AgreeOn(grants: map<GrantId, Grant>, pool: set<GrantId>) {
    forall a, b | a in pool && b in pool && a in grants && b in grants && OpenTogether(grants[a], grants[b]) ::
      grants[a].expiresAt == grants[b].expiresAt
  }

  function WithCredits(grants: map<GrantId, Grant>): set<GrantId> {
    set id | id in grants && grants[id].remaining > 0
  }

  /** Grants of one user that are open at a common time expire together. */
  predicate ExpireTogether(grants: map<GrantId, Grant>) {
    AgreeOn(grants, WithCredits(grants))
  }

  lemma {:induction false} AgreeingIsHarmless(grants: map<GrantId, Grant>, taken: map<GenerationId, GrantId>, events: seq<Event>, pool: set<GrantId>)
    requires AgreeOn(grants, pool) && WithCredits(grants) <= pool && (forall name | name in taken :: taken[name] in pool)
    requires InOrder(events) && WithoutArrivals(events)
    ensures Harmless(grants, taken, events)
    decreases |events|
  {
    if events != [] {
      var rest := events[1..];
      match events[0]
      case Request(name, user, time) =>
        var best := BestGrant(grants, user, time);
        if best.Some? {
          forall h | h in grants && Usable(grants[h], user, time) ensures SafeReturn(name, grants[best.value], grants[h], rest) {
            assert best.value in WithCredits(grants) && h in WithCredits(grants);
            assert OpenTogether(grants[best.value], grants[h]);
            CoveringIsSafe(name, grants[best.value], grants[h], rest);
          }
          assert best.value in WithCredits(grants);
          assert WithCredits(Spend(grants, best.value)) <= WithCredits(grants);
          AgreeingIsHarmless(Spend(grants, best.value), taken[name := best.value], rest, pool);
        }
      case Return(name) =>
        if name in taken {
          assert WithCredits(Refund(grants, taken[name])) <= WithCredits(grants) + {taken[name]};
          AgreeingIsHarmless(Refund(grants, taken[name]), taken - {name}, rest, pool);
        } else {
          AgreeingIsHarmless(grants, taken, rest, pool);
        }
    }
  }

  // A run that fails for two grants that do not: it asks for every credit that is usable at one time, gets one of
  // them back, and asks for one more than is left when the sooner grant has expired.

  /** n requests at one moment. */
  function Row(first: nat, n: nat, user: UserId, time: Time): (row: seq<Event>)
    ensures |row| == n && forall i | 0 <= i < n :: row[i].Request? && row[i].time == time
    decreases n
  {
    if n == 0 then [] else [Request(first, user, time)] + Row(first + 1, n - 1, user, time)
  }

  function Drained(grants: map<GrantId, Grant>, user: UserId, time: Time): map<GrantId, Grant> {
    map id | id in grants :: if Usable(grants[id], user, time) then grants[id].(remaining := 0) else grants[id]
  }

  lemma SpentIsDrained(grants: map<GrantId, Grant>, user: UserId, time: Time, id: GrantId)
    requires id in grants && Usable(grants[id], user, time)
    ensures Drained(Spend(grants, id), user, time) == Drained(grants, user, time)
  {
  }

  lemma RowUnfolds(first: nat, n: nat, user: UserId, time: Time, rest: seq<Event>)
    requires n > 0
    ensures var events := Row(first, n, user, time) + rest;
            events[0] == Request(first, user, time) && events[1..] == Row(first + 1, n - 1, user, time) + rest
  {
  }

  lemma RequestUnfolds(grants: map<GrantId, Grant>, taken: map<GenerationId, GrantId>, events: seq<Event>, best: GrantId)
    requires events != [] && events[0].Request? && BestGrant(grants, events[0].user, events[0].time) == Some(best)
    ensures NeverExhausted(grants, taken, events) <==> NeverExhausted(Spend(grants, best), taken[events[0].name := best], events[1..])
  {
  }

  lemma ReturnUnfolds(grants: map<GrantId, Grant>, taken: map<GenerationId, GrantId>, name: GenerationId, rest: seq<Event>)
    requires name in taken
    ensures NeverExhausted(grants, taken, [Return(name)] + rest) <==> NeverExhausted(Refund(grants, taken[name]), taken - {name}, rest)
  {
    assert ([Return(name)] + rest)[1..] == rest;
  }

  lemma NothingToDrain(grants: map<GrantId, Grant>, user: UserId, time: Time, ids: seq<GrantId>)
    requires Lists(grants, user, time, ids) && Sum(grants, ids) == 0
    ensures Drained(grants, user, time) == grants
  {
    ListedBest(grants, user, time, ids);
  }

  /** As many requests as there are credits drain the grants, whatever was taken before. */
  lemma {:induction false} Drains(grants: map<GrantId, Grant>, taken: map<GenerationId, GrantId>, user: UserId, time: Time, ids: seq<GrantId>,
                                  first: nat, n: nat, rest: seq<Event>)
    returns (taken': map<GenerationId, GrantId>)
    requires Lists(grants, user, time, ids) && Sum(grants, ids) == n
    ensures forall name | name in taken && name < first :: name in taken' && taken'[name] == taken[name]
    ensures NeverExhausted(grants, taken, Row(first, n, user, time) + rest) <==> NeverExhausted(Drained(grants, user, time), taken', rest)
    decreases n
  {
    if n == 0 {
      taken' := taken;
      NothingToDrain(grants, user, time, ids);
      assert Row(first, n, user, time) + rest == rest;
    } else {
      ListedBest(grants, user, time, ids);
      var best := BestGrant(grants, user, time).value;
      var ids' := SpendingLowersSum(grants, user, time, ids, best);
      taken' := Drains(Spend(grants, best), taken[first := best], user, time, ids', first + 1, n - 1, rest);
      SpentIsDrained(grants, user, time, best);
      RowUnfolds(first, n, user, time, rest);
      RequestUnfolds(grants, taken, Row(first, n, user, time) + rest, best);
    }
  }

  /** A row of requests is served as far as reservations in a row succeed. */
  lemma {:induction false} RowIsServed(grants: map<GrantId, Grant>, taken: map<GenerationId, GrantId>, user: UserId, time: Time, first: nat, n: nat)
    ensures NeverExhausted(grants, taken, Row(first, n, user, time)) <==> ServesInARow(grants, user, time, n)
    decreases n
  {
    if n > 0 {
      RowUnfolds(first, n, user, time, []);
      assert Row(first, n, user, time) + [] == Row(first, n, user, time);
      assert Row(first + 1, n - 1, user, time) + [] == Row(first + 1, n - 1, user, time);
      var best := BestGrant(grants, user, time);
      if best.Some? { RowIsServed(Spend(grants, best.value), taken[first := best.value], user, time, first + 1, n - 1); }
    }
  }

  lemma {:induction false} SomeListing(grants: map<GrantId, Grant>, user: UserId, time: Time, some: set<GrantId>) returns (ids: seq<GrantId>)
    requires some <= grants.Keys
    ensures forall id :: id in ids <==> id in some && Usable(grants[id], user, time)
    ensures forall i, j | 0 <= i < j < |ids| :: ids[i] != ids[j]
    decreases |some|
  {
    if some == {} {
      ids := [];
    } else {
      var one :| one in some;
      ids := SomeListing(grants, user, time, some - {one});
      if Usable(grants[one], user, time) { ids := ids + [one]; }
    }
  }

  lemma UsableListing(grants: map<GrantId, Grant>, user: UserId, time: Time) returns (ids: seq<GrantId>)
    ensures Lists(grants, user, time, ids)
  {
    ids := SomeListing(grants, user, time, grants.Keys);
  }

  /** A returned credit of a grant that is closed cannot be used, and one of an open grant is one credit more. */
  lemma ClosedAddsNothing(drained: map<GrantId, Grant>, user: UserId, time: Time, id: GrantId, ids: seq<GrantId>)
    requires Lists(drained, user, time, ids) && id in drained && !Open(drained[id], time)
    ensures Lists(Refund(drained, id), user, time, ids) && Sum(Refund(drained, id), ids) == Sum(drained, ids)
  {
    SumDependsOnRows(drained, Refund(drained, id), ids);
  }

  lemma OpenAddsOne(drained: map<GrantId, Grant>, user: UserId, time: Time, id: GrantId, ids: seq<GrantId>)
    requires Lists(drained, user, time, ids) && id in drained && Open(drained[id], time)
    requires drained[id].remaining == 0 && drained[id].user == user
    ensures Lists(Refund(drained, id), user, time, ids + [id]) && Sum(Refund(drained, id), ids + [id]) == Sum(drained, ids) + 1
  {
    SumDependsOnRows(drained, Refund(drained, id), ids);
    SumSplits(Refund(drained, id), ids, [id]);
  }

  /** n + 1 requests at one time, the first of which gives its credit back, and left + 1 more at another. */
  function FailingRun(user: UserId, time: Time, n: nat, later: Time, left: nat): (events: seq<Event>)
    ensures WithoutArrivals(events) && (time <= later ==> InOrder(events))
    ensures events != [] && events[0] == Request(1, user, time)
    ensures events[1..] == Row(2, n, user, time) + ([Return(1)] + Row(n + 2, left + 1, user, later))
  {
    [Request(1, user, time)] + (Row(2, n, user, time) + ([Return(1)] + Row(n + 2, left + 1, user, later)))
  }

  lemma DrainsFirst(grants: map<GrantId, Grant>, user: UserId, time: Time, ids: seq<GrantId>, first: GrantId, later: Time, left: nat,
                    last: seq<GrantId>) returns (n: nat)
    requires Lists(grants, user, time, ids) && first in ids
    requires Lists(Refund(Drained(grants, user, time), first), user, later, last)
    ensures n == Sum(grants, ids) - 1
    ensures NeverExhausted(Spend(grants, first), map[1 := first], Row(2, n, user, time) + ([Return(1)] + Row(n + 2, left + 1, user, later)))
            <==> left + 1 <= Sum(Refund(Drained(grants, user, time), first), last)
  {
    var ids' := SpendingLowersSum(grants, user, time, ids, first);
    n := Sum(Spend(grants, first), ids');
    SpentIsDrained(grants, user, time, first);
    var taken := Drains(Spend(grants, first), map[1 := first], user, time, ids', 2, n, [Return(1)] + Row(n + 2, left + 1, user, later));
    LastRow(Drained(grants, user, time), taken, user, later, n + 2, left, last);
  }

  /** After its first request the run is a matter of the credits that its last row finds. */
  lemma RestIsLastRow(grants: map<GrantId, Grant>, user: UserId, time: Time, ids: seq<GrantId>, first: GrantId, later: Time, left: nat,
                      last: seq<GrantId>) returns (n: nat)
    requires Lists(grants, user, time, ids) && first in ids
    requires Lists(Refund(Drained(grants, user, time), first), user, later, last)
    ensures n == Sum(grants, ids) - 1
    ensures NeverExhausted(Spend(grants, first), map[1 := first], FailingRun(user, time, n, later, left)[1..])
            <==> left + 1 <= Sum(Refund(Drained(grants, user, time), first), last)
  {
    n := DrainsFirst(grants, user, time, ids, first, later, left, last);
  }

  lemma LastRow(grants: map<GrantId, Grant>, taken: map<GenerationId, GrantId>, user: UserId, time: Time, from: nat, left: nat, last: seq<GrantId>)
    requires 1 in taken && Lists(Refund(grants, taken[1]), user, time, last)
    ensures NeverExhausted(grants, taken, [Return(1)] + Row(from, left + 1, user, time)) <==> left + 1 <= Sum(Refund(grants, taken[1]), last)
  {
    ReturnUnfolds(grants, taken, 1, Row(from, left + 1, user, time));
    RowIsServed(Refund(grants, taken[1]), taken - {1}, user, time, from, left + 1);
    SumCountsReservations(Refund(grants, taken[1]), user, time, last, left + 1);
  }

  /** The run for two grants of which the one that is taken first expires while the other is still open. */
  lemma UnequalExpiryFails(grants: map<GrantId, Grant>, user: UserId, time: Time, sooner: GrantId, later: GrantId)
    requires BestGrant(grants, user, time) == Some(sooner)
    requires later in grants && Usable(grants[later], user, time)
    requires grants[sooner].expiresAt.Some? && Open(grants[later], grants[sooner].expiresAt.value)
    ensures !Optimal(grants)
  {
    var expiry := grants[sooner].expiresAt.value;
    var drained := Drained(grants, user, time);
    var ids := UsableListing(grants, user, time);
    var rest := UsableListing(drained, user, expiry);
    var left := Sum(drained, rest);
    ClosedAddsNothing(drained, user, expiry, sooner, rest);
    OpenAddsOne(drained, user, expiry, later, rest);
    var n := RestIsLastRow(grants, user, time, ids, sooner, expiry, left, rest);
    var m := RestIsLastRow(grants, user, time, ids, later, expiry, left, rest + [later]);
    var events := FailingRun(user, time, n, expiry, left);
    RequestUnfolds(grants, map[], events, sooner);
    assert map[][1 := sooner] == map[1 := sooner];
    assert !NeverExhausted(grants, map[], events);
    TakingLaterServes(grants, user, time, later, events);
  }

  lemma TakingLaterServes(grants: map<GrantId, Grant>, user: UserId, time: Time, later: GrantId, events: seq<Event>)
    requires later in grants && Usable(grants[later], user, time) && events != [] && events[0] == Request(1, user, time)
    requires NeverExhausted(Spend(grants, later), map[1 := later], events[1..])
    ensures SomeoneServes(grants, map[], events)
  {
    var choice := ItsOwnAssignment(Spend(grants, later), map[1 := later], events[1..]);
    assert ([later] + choice)[1..] == choice;
    assert map[][1 := later] == map[1 := later];
    assert Serves(grants, map[], events, [later] + choice);
  }

  /** Taking the nearest expiry is optimal for every run from these grants exactly when grants of one user that are
      open at a common time expire together. */
  lemma OptimalIffExpireTogether(grants: map<GrantId, Grant>)
    ensures Optimal(grants) <==> ExpireTogether(grants)
  {
    if ExpireTogether(grants) {
      forall events | InOrder(events) && WithoutArrivals(events) && SomeoneServes(grants, map[], events)
        ensures NeverExhausted(grants, map[], events)
      {
        AgreeingIsHarmless(grants, map[], events, WithCredits(grants));
        NearestExpiryIsOptimal(grants, map[], events);
      }
    } else {
      var a, b :| a in WithCredits(grants) && b in WithCredits(grants) && OpenTogether(grants[a], grants[b])
                  && grants[a].expiresAt != grants[b].expiresAt;
      var later := if Expiration(grants[a]) < Expiration(grants[b]) then b else a;
      var user, time := grants[a].user, LaterStart(grants[a], grants[b]);
      assert Usable(grants[a], user, time) && Usable(grants[b], user, time);
      var best := BestGrant(grants, user, time).value;
      assert CompareGrants(best, grants[best], a, grants[a]) <= 0 && CompareGrants(best, grants[best], b, grants[b]) <= 0;
      UnequalExpiryFails(grants, user, time, best, later);
    }
  }
}
