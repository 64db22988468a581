/** Grants and the credit ledger: which grant a reservation takes, and the
    transactions that reserve, consume and release. */
module Credits {
  import opened Rows

  // ----- choosing a grant -----

  const MAX_SAFE_INTEGER := 9_007_199_254_740_991

  function Expiration(grant: Grant): int {
    match grant.expiresAt
    case Some(t) => t
    case None => MAX_SAFE_INTEGER
  }

  function SourcePriority(source: CreditSource): int {
    match source
    case SubscriptionMonthly => 0
    case Promotional => 1
    case Admin => 2
    case Refunded => 3
    case PurchasedPack => 4
  }

  /** The sign decides, as for a comparator passed to sort; identifiers compare last. */
  function CompareGrants(leftId: GrantId, left: Grant, rightId: GrantId, right: Grant): int {
    if Expiration(left) != Expiration(right) then Expiration(left) - Expiration(right)
    else if SourcePriority(left.source) != SourcePriority(right.source) then
      SourcePriority(left.source) - SourcePriority(right.source)
    else if left.createdAt != right.createdAt then left.createdAt - right.createdAt
    else leftId - rightId
  }

  predicate Usable(grant: Grant, user: UserId, now: Time) {
    && grant.user == user
    && grant.remaining > 0
    && grant.validFrom <= now
    && (grant.expiresAt.Some? ==> grant.expiresAt.value > now)
  }

  /** The usable grant that compareGrants puts first. */
  predicate IsBest(grants: map<GrantId, Grant>, user: UserId, now: Time, id: GrantId) {
    && id in grants
    && Usable(grants[id], user, now)
    && forall h | h in grants && Usable(grants[h], user, now) :: CompareGrants(id, grants[id], h, grants[h]) <= 0
  }

  lemma {:induction false} SomeGrantIsBest(grants: map<GrantId, Grant>, user: UserId, now: Time, ids: set<GrantId>)
    returns (best: GrantId)
    requires ids <= grants.Keys && ids != {}
    requires forall h | h in ids :: Usable(grants[h], user, now)
    ensures best in ids
    ensures forall h | h in ids :: CompareGrants(best, grants[best], h, grants[h]) <= 0
    decreases |ids|
  {
    var one :| one in ids;
    if ids == {one} {
      best := one;
    } else {
      var rest := SomeGrantIsBest(grants, user, now, ids - {one});
      best := if CompareGrants(one, grants[one], rest, grants[rest]) <= 0 then one else rest;
    }
  }

  lemma BestExists(grants: map<GrantId, Grant>, user: UserId, now: Time, h: GrantId)
    requires h in grants && Usable(grants[h], user, now)
    ensures exists id :: IsBest(grants, user, now, id)
  {
    var usable := set i | i in grants && Usable(grants[i], user, now);
    assert h in usable;
    var best := SomeGrantIsBest(grants, user, now, usable);
    assert IsBest(grants, user, now, best);
  }

  lemma BestIsUnique(grants: map<GrantId, Grant>, user: UserId, now: Time, one: GrantId, other: GrantId)
    requires IsBest(grants, user, now, one) && IsBest(grants, user, now, other)
    ensures one == other
  {
    assert CompareGrants(one, grants[one], other, grants[other]) <= 0;
    assert CompareGrants(other, grants[other], one, grants[one]) <= 0;
  }

  /** The grant that reserve takes, if any is usable. */
  ghost function BestGrant(grants: map<GrantId, Grant>, user: UserId, now: Time): (best: Option<GrantId>)
    ensures best.Some? ==> IsBest(grants, user, now, best.value)
    ensures best.None? <==> forall h | h in grants :: !Usable(grants[h], user, now)
  {
    if exists h :: h in grants && Usable(grants[h], user, now) then
      var h :| h in grants && Usable(grants[h], user, now);
      BestExists(grants, user, now, h);
      var id :| IsBest(grants, user, now, id);
      Some(id)
    else None
  }

  // ----- ledger rows -----

  predicate Terminal(kind: EntryType) {
    kind.CONSUME? || kind.RELEASE? || kind.REFUND?
  }

  /** The lookup goes by the generation column, which deleting a generation sets to null. */
  function FindTerminal(ledger: map<LedgerKey, Entry>, g: GenerationId): Option<EntryType> {
    if exists k :: k in ledger && ledger[k].generation == Some(g) && ledger[k].kind == CONSUME then Some(CONSUME)
    else if exists k :: k in ledger && ledger[k].generation == Some(g) && ledger[k].kind == RELEASE then Some(RELEASE)
    else if exists k :: k in ledger && ledger[k].generation == Some(g) && ledger[k].kind == REFUND then Some(REFUND)
    else None
  }

  /** The foreign keys, the unique idempotency key and the two partial unique indexes. */
  predicate Insertable(db: Db, key: LedgerKey, entry: Entry) {
    && key !in db.ledger
    && entry.amount > 0
    && (entry.generation.Some? ==> entry.generation.value in db.generations)
    && (entry.grant.Some? ==> entry.grant.value in db.grants)
    && (entry.generation.Some? && entry.kind.RESERVE? ==>
          forall k | k in db.ledger && db.ledger[k].generation == entry.generation :: !db.ledger[k].kind.RESERVE?)
    && (entry.generation.Some? && Terminal(entry.kind) ==>
          forall k | k in db.ledger && db.ledger[k].generation == entry.generation :: !Terminal(db.ledger[k].kind))
  }

  function Insert(db: Db, key: LedgerKey, entry: Entry): Outcome<Db> {
    if Insertable(db, key, entry) then Ok(db.(ledger := db.ledger[key := entry])) else Err(Constraint)
  }

  /** ON DELETE SET NULL for the generations that go. */
  function Detach(ledger: map<LedgerKey, Entry>, gone: set<GenerationId>): (detached: map<LedgerKey, Entry>)
    ensures detached.Keys == ledger.Keys
  {
    map k | k in ledger ::
      if ledger[k].generation.Some? && ledger[k].generation.value in gone then ledger[k].(generation := None)
      else ledger[k]
  }

  // ----- the three movements of a credit -----

  ghost function Reserve(db: Db, now: Time, user: UserId, g: GenerationId): Outcome<Db> {
    if ReserveKey(g) in db.ledger then Ok(db)
    else
      match BestGrant(db.grants, user, now)
      case None => Err(CreditsExhausted)
      case Some(best) =>
        var grant := db.grants[best];
        Insert(db.(grants := db.grants[best := grant.(remaining := grant.remaining - 1)]),
               ReserveKey(g), Entry(user, Some(g), Some(best), RESERVE, 1))
  }

  function Consume(db: Db, g: GenerationId): Outcome<Db> {
    if ReserveKey(g) !in db.ledger then Err(ReservationMissing)
    else
      var reservation := db.ledger[ReserveKey(g)];
      match FindTerminal(db.ledger, g)
      case Some(CONSUME) => Ok(db)
      case Some(_) => Err(AlreadyReleased)
      case None => Insert(db, ConsumeKey(g), Entry(reservation.user, Some(g), reservation.grant, CONSUME, 1))
  }

  function Release(db: Db, g: GenerationId): Outcome<Db> {
    if ReserveKey(g) !in db.ledger || db.ledger[ReserveKey(g)].grant.None? then Ok(db)
    else
      var reservation := db.ledger[ReserveKey(g)];
      var id := reservation.grant.value;
      if FindTerminal(db.ledger, g).Some? then Ok(db)
      else if id !in db.grants then Err(NotFound)
      else if db.grants[id].remaining + 1 > db.grants[id].total then Err(Constraint)
      else
        var grant := db.grants[id];
        Insert(db.(grants := db.grants[id := grant.(remaining := grant.remaining + 1)]),
               ReleaseKey(g), Entry(reservation.user, Some(g), reservation.grant, RELEASE, 1))
  }

  // ----- new grants -----

  function AddGrant(db: Db, id: GrantId, grant: Grant, key: LedgerKey): Outcome<Db> {
    if id in db.grants then Err(Constraint)
    else if grant.total == 0 || grant.remaining > grant.total then Err(Constraint)
    else Insert(db.(grants := db.grants[id := grant]), key,
                Entry(grant.user, None, Some(id), GRANT, grant.total))
  }

  predicate SamePeriod(grant: Grant, user: UserId, period: string) {
    grant.user == user && grant.periodKey == Some(period)
  }

  /** allocateMonthly: once per period; an existing grant of the period is kept as it is. */
  ghost function AllocateMonthly(db: Db, id: GrantId, user: UserId, period: string, total: int,
                           validFrom: Instant, expiresAt: Instant, now: Instant): Outcome<Db> {
    if period == "" || total <= 0 then Err(Other)
    else if PeriodKey(user, period) in db.ledger then Ok(db)
    else if exists h :: h in db.grants && SamePeriod(db.grants[h], user, period) then
      var h :| h in db.grants && SamePeriod(db.grants[h], user, period);
      Insert(db, PeriodKey(user, period), Entry(user, None, Some(h), GRANT, total))
    else AddGrant(db, id, Grant(user, SubscriptionMonthly, total, total, validFrom, Some(expiresAt), now, Some(period)),
                  PeriodKey(user, period))
  }

  function GrantByAdmin(db: Db, id: GrantId, user: UserId, amount: int, request: string, now: Instant): Outcome<Db> {
    if !(1 <= amount <= 1_000) || request == "" then Err(Other)
    else if AdminKey(request) in db.ledger then Ok(db)
    else AddGrant(db, id, Grant(user, Admin, amount, amount, now, None, now, None), AdminKey(request))
  }
}
