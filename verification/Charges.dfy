/** Which grant pays for a generation, and what a new grant is good for, in terms
    of the columns alone. */
module Charges {
  import opened Rows
  import opened Credits
  import opened CreditLaws
  import opened NearestExpiry

  /** The grant can pay for this user at this time. */
  predicate CanPay(grant: Grant, user: UserId, now: Time) {
    && grant.user == user && grant.remaining > 0 && grant.validFrom <= now
    && (grant.expiresAt.None? || now < grant.expiresAt.value)
  }

  /** An expiry comes before none, and the sooner one first. */
  predicate ExpiresBefore(one: Grant, other: Grant) {
    one.expiresAt.Some? && (other.expiresAt.None? || one.expiresAt.value < other.expiresAt.value)
  }

  const SOURCES: seq<CreditSource> := [SubscriptionMonthly, Promotional, Admin, Refunded, PurchasedPack]

  predicate ListedBefore(one: CreditSource, other: CreditSource) {
    exists i, j | 0 <= i < j < |SOURCES| :: SOURCES[i] == one && SOURCES[j] == other
  }

  /** By expiry, then by the list of sources, then by age, then by identifier. */
  predicate Precedes(oneId: GrantId, one: Grant, otherId: GrantId, other: Grant) {
    || ExpiresBefore(one, other)
    || (one.expiresAt == other.expiresAt
        && (|| ListedBefore(one.source, other.source)
            || (one.source == other.source
                && (one.createdAt < other.createdAt || (one.createdAt == other.createdAt && oneId < otherId)))))
  }

  /** One credit of this grant, which can pay, was taken, and every other grant that could have paid comes after it. */
  ghost predicate Charged(db: Db, after: Db, user: UserId, now: Time, id: GrantId) {
    && id in db.grants && CanPay(db.grants[id], user, now)
    && after.grants == db.grants[id := db.grants[id].(remaining := db.grants[id].remaining - 1)]
    && forall other | other in db.grants && other != id && CanPay(db.grants[other], user, now) ::
         Precedes(id, db.grants[id], other, db.grants[other])
  }

  lemma ComparatorFollowsColumns(oneId: GrantId, one: Grant, otherId: GrantId, other: Grant)
    requires oneId != otherId && CompareGrants(oneId, one, otherId, other) <= 0
    ensures Precedes(oneId, one, otherId, other)
  {
    FiveSources();
    if Expiration(one) == Expiration(other) && one.source != other.source {
      assert SOURCES[SourcePriority(one.source)] == one.source && SOURCES[SourcePriority(other.source)] == other.source;
    }
  }

  lemma FiveSources()
    ensures |SOURCES| == 5 && SOURCES[0] == SubscriptionMonthly && SOURCES[1] == Promotional && SOURCES[2] == Admin
    ensures SOURCES[3] == Refunded && SOURCES[4] == PurchasedPack
  {
  }

  /** A first reservation charges the first grant that can pay, in the order of the columns, and records which; and it
      finds no credits exactly when none can pay. */
  lemma ReservationChargesFirst(db: Db, now: Time, user: UserId, g: GenerationId)
    requires Sound(db) && g in db.generations && ReserveKey(g) !in db.ledger
    ensures Reserve(db, now, user, g).Err? <==> forall id | id in db.grants :: !CanPay(db.grants[id], user, now)
    ensures Reserve(db, now, user, g).Err? ==> Reserve(db, now, user, g) == Err(CreditsExhausted)
    ensures Reserve(db, now, user, g).Ok? ==>
              var after := Reserve(db, now, user, g).value;
              && ReserveKey(g) in after.ledger && after.ledger[ReserveKey(g)].grant.Some?
              && Charged(db, after, user, now, after.ledger[ReserveKey(g)].grant.value)
              && after == db.(grants := after.grants, ledger := db.ledger[ReserveKey(g) := after.ledger[ReserveKey(g)]])
  {
    ReserveTakesTheBest(db, now, user, g);
    var best := BestGrant(db.grants, user, now);
    if best.Some? {
      forall other | other in db.grants && other != best.value && CanPay(db.grants[other], user, now)
        ensures Precedes(best.value, db.grants[best.value], other, db.grants[other])
      {
        assert Usable(db.grants[other], user, now);
        ComparatorFollowsColumns(best.value, db.grants[best.value], other, db.grants[other]);
      }
    }
  }

  /** No two grants precede each other, so the grant that is charged is determined. */
  lemma PrecedenceIsStrict(oneId: GrantId, one: Grant, otherId: GrantId, other: Grant)
    requires Precedes(oneId, one, otherId, other)
    ensures !Precedes(otherId, other, oneId, one)
  {
    FiveSources();
  }

  // ----- new grants -----

  /** A grant with all of its credits, usable in this window. */
  ghost predicate FreshGrant(grant: Grant, user: UserId, source: CreditSource, credits: int, from: Time, until: Option<Time>) {
    && grant.user == user && grant.source == source && grant.remaining == grant.total == credits
    && forall now: Time :: CanPay(grant, user, now) <==> from <= now && (until.Some? ==> now < until.value)
  }

  /** The first allocation of a period gives the user that many credits for its window; a second one gives none, and
      neither touches another grant. */
  lemma PeriodGivesOnce(db: Db, id: GrantId, user: UserId, period: string, total: int, validFrom: Instant, expiresAt: Instant, now: Instant)
    requires Sound(db) && id !in db.grants && period != "" && total > 0
    ensures var given := AllocateMonthly(db, id, user, period, total, validFrom, expiresAt, now);
            && given.Ok? && PeriodKey(user, period) in given.value.ledger
            && (if PeriodKey(user, period) in db.ledger || (exists h :: h in db.grants && SamePeriod(db.grants[h], user, period))
                then given.value.grants == db.grants
                else id in given.value.grants && given.value.grants == db.grants[id := given.value.grants[id]]
                     && FreshGrant(given.value.grants[id], user, SubscriptionMonthly, total, validFrom, Some(expiresAt))
                     && SamePeriod(given.value.grants[id], user, period))
  {
  }

  /** An administrator's grant gives its amount once per request, from now on and without expiry. */
  lemma AdminGivesOnce(db: Db, id: GrantId, user: UserId, amount: int, request: string, now: Instant)
    requires id !in db.grants && request != ""
    ensures var given := GrantByAdmin(db, id, user, amount, request, now);
            if !(1 <= amount <= 1000) then given.Err?
            else
              && given.Ok? && AdminKey(request) in given.value.ledger
              && (if AdminKey(request) in db.ledger then given.value == db
                  else id in given.value.grants && given.value.grants == db.grants[id := given.value.grants[id]]
                       && FreshGrant(given.value.grants[id], user, Admin, amount, now, None))
  {
  }

  // ----- what is shown of them -----

  function Only(grants: map<GrantId, Grant>, source: CreditSource): map<GrantId, Grant> {
    map id | id in grants && grants[id].source == source :: grants[id]
  }

  predicate Distinct(ids: seq<GrantId>) {
    forall i, j | 0 <= i < j < |ids| :: ids[i] != ids[j]
  }

  lemma {:induction false} SourceIsListed(grants: map<GrantId, Grant>, ids: seq<GrantId>, source: CreditSource)
    requires Distinct(ids) && forall id | id in ids :: id in grants
    ensures Distinct(OfSource(grants, ids, source))
  {
    if ids != [] {
      var rest := OfSource(grants, ids[1..], source);
      SourceIsListed(grants, ids[1..], source);
      assert Distinct(rest);
      if grants[ids[0]].source == source {
        forall i | 0 <= i < |rest| ensures rest[i] != ids[0] {
          assert rest[i] in ids[1..];
        }
        assert OfSource(grants, ids, source) == [ids[0]] + rest;
      } else {
        assert OfSource(grants, ids, source) == rest;
      }
    }
  }

  lemma SourceCounts(grants: map<GrantId, Grant>, user: UserId, now: Time, ids: seq<GrantId>, source: CreditSource, n: nat)
    requires Lists(grants, user, now, ids)
    ensures ServesInARow(Only(grants, source), user, now, n) <==> n <= Sum(grants, OfSource(grants, ids, source))
  {
    var some := OfSource(grants, ids, source);
    SourceIsListed(grants, ids, source);
    SumDependsOnRows(grants, Only(grants, source), some);
    SumCountsReservations(Only(grants, source), user, now, some, n);
  }

  /** The monthly and the purchased credits shown are the reservations that grants of that source alone would serve. */
  lemma ShownBySource(grants: map<GrantId, Grant>, user: UserId, now: Time, ids: seq<GrantId>, n: nat)
    requires Lists(grants, user, now, ids)
    ensures ServesInARow(Only(grants, SubscriptionMonthly), user, now, n) <==> n <= Project(grants, ids).monthly
    ensures ServesInARow(Only(grants, PurchasedPack), user, now, n) <==> n <= Project(grants, ids).purchased
  {
    SourceCounts(grants, user, now, ids, SubscriptionMonthly, n);
    SourceCounts(grants, user, now, ids, PurchasedPack, n);
  }
}
