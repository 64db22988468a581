/** CreditsService statement by statement, proved against the functions of Credits. */
module CreditsService {
  import opened Rows
  import opened Tables
  import Credits

  predicate Before(grants: map<GrantId, Grant>, left: GrantId, right: GrantId)
    requires left in grants && right in grants
  {
    Credits.CompareGrants(left, grants[left], right, grants[right]) <= 0
  }

  predicate Known(grants: map<GrantId, Grant>, ids: seq<GrantId>) {
    forall i | 0 <= i < |ids| :: ids[i] in grants
  }

  ghost predicate InOrder(grants: map<GrantId, Grant>, ids: seq<GrantId>)
    requires Known(grants, ids)
  {
    forall i, j | 0 <= i < j < |ids| :: Before(grants, ids[i], ids[j])
  }

  lemma BeforeIsTransitive(grants: map<GrantId, Grant>, a: GrantId, b: GrantId, c: GrantId)
    requires a in grants && b in grants && c in grants && Before(grants, a, b) && Before(grants, b, c)
    ensures Before(grants, a, c)
  {
  }

  /** The rows that the query for candidates finds. */
  method FindUsable(grants: map<GrantId, Grant>, user: UserId, now: Time) returns (found: seq<GrantId>)
    ensures Known(grants, found)
    ensures forall id :: id in found <==> id in grants && Credits.Usable(grants[id], user, now)
  {
    found := [];
    var rest := grants.Keys;
    while rest != {}
      invariant rest <= grants.Keys && Known(grants, found)
      invariant forall id :: id in found <==> id in grants && id !in rest && Credits.Usable(grants[id], user, now)
      decreases |rest|
    {
      var id :| id in rest;
      rest := rest - {id};
      if Credits.Usable(grants[id], user, now) { found := found + [id]; }
    }
  }

  /** Where a grant belongs in a sorted list. */
  method Place(grants: map<GrantId, Grant>, sorted: seq<GrantId>, id: GrantId) returns (k: nat)
    requires Known(grants, sorted) && InOrder(grants, sorted) && id in grants
    ensures k <= |sorted|
    ensures forall i | 0 <= i < k :: Before(grants, sorted[i], id)
    ensures forall i | k <= i < |sorted| :: Before(grants, id, sorted[i])
  {
    k := 0;
    while k < |sorted| && Before(grants, sorted[k], id)
      invariant k <= |sorted|
      invariant forall i | 0 <= i < k :: Before(grants, sorted[i], id)
    {
      k := k + 1;
    }
    forall i | k <= i < |sorted| ensures Before(grants, id, sorted[i]) {
      if i > k { BeforeIsTransitive(grants, id, sorted[k], sorted[i]); }
    }
  }

  /** sort with compareGrants: a rearrangement in the order of the comparator. */
  method Sort(grants: map<GrantId, Grant>, ids: seq<GrantId>) returns (sorted: seq<GrantId>)
    requires Known(grants, ids)
    ensures Known(grants, sorted) && InOrder(grants, sorted)
    ensures multiset(sorted) == multiset(ids)
  {
    sorted := [];
    var n := 0;
    while n < |ids|
      invariant 0 <= n <= |ids|
      invariant Known(grants, sorted) && InOrder(grants, sorted)
      invariant multiset(sorted) == multiset(ids[..n])
    {
      var id := ids[n];
      var k := Place(grants, sorted, id);
      var left, right := sorted[..k], sorted[k..];
      InsertedInOrder(grants, left, id, right);
      assert sorted == left + right;
      assert ids[..n + 1] == ids[..n] + [id];
      sorted := left + [id] + right;
      n := n + 1;
    }
    assert ids[..n] == ids;
  }

  lemma InsertedInOrder(grants: map<GrantId, Grant>, left: seq<GrantId>, id: GrantId, right: seq<GrantId>)
    requires Known(grants, left + right) && InOrder(grants, left + right) && id in grants
    requires forall i | 0 <= i < |left + right| :: if i < |left| then Before(grants, (left + right)[i], id) else Before(grants, id, (left + right)[i])
    ensures Known(grants, left + [id] + right) && InOrder(grants, left + [id] + right)
  {
    var both, three := left + right, left + [id] + right;
    assert forall i | 0 <= i < |left| :: three[i] == both[i];
    assert forall i | |left| < i < |three| :: three[i] == both[i - 1];
    forall i | 0 <= i < |three| ensures three[i] in grants {
      if i > |left| { assert both[i - 1] in grants; } else if i < |left| { assert both[i] in grants; }
    }
    forall i, j | 0 <= i < j < |three| ensures Before(grants, three[i], three[j]) {
      var k := if i > |left| then i - 1 else i;
      var l := if j > |left| then j - 1 else j;
      if i != |left| && j != |left| { assert Before(grants, both[k], both[l]); }
    }
  }

  /** The loop over the candidates: each update is conditional, and the first that changes a row ends the loop. */
  method TakeFirst(transaction: Prisma, candidates: seq<GrantId>) returns (taken: Option<GrantId>)
    requires Known(transaction.grants, candidates)
    modifies transaction`grants
    ensures match taken
            case None =>
              transaction.grants == old(transaction.grants)
              && forall i | 0 <= i < |candidates| :: transaction.grants[candidates[i]].remaining == 0
            case Some(id) =>
              && (exists k :: 0 <= k < |candidates| && candidates[k] == id
                              && forall i | 0 <= i < k :: old(transaction.grants)[candidates[i]].remaining == 0)
              && old(transaction.grants)[id].remaining > 0
              && transaction.grants == old(transaction.grants)[id := old(transaction.grants)[id].(remaining := old(transaction.grants)[id].remaining - 1)]
  {
    var i := 0;
    while i < |candidates|
      invariant 0 <= i <= |candidates| && transaction.grants == old(transaction.grants)
      invariant forall j | 0 <= j < i :: transaction.grants[candidates[j]].remaining == 0
    {
      var id := candidates[i];
      var grant := transaction.grants[id];
      if grant.remaining > 0 {
        transaction.grants := transaction.grants[id := grant.(remaining := grant.remaining - 1)];
        return Some(id);
      }
      i := i + 1;
    }
    return None;
  }

  /** The first of the sorted candidates is the grant that the specification calls best. */
  lemma FirstIsBest(grants: map<GrantId, Grant>, user: UserId, now: Time, sorted: seq<GrantId>)
    requires Known(grants, sorted) && InOrder(grants, sorted)
    requires forall id :: id in sorted <==> id in grants && Credits.Usable(grants[id], user, now)
    ensures Credits.BestGrant(grants, user, now) == if sorted == [] then None else Some(sorted[0])
  {
    if sorted == [] {
      forall h | h in grants ensures !Credits.Usable(grants[h], user, now) { assert h !in sorted; }
    } else {
      assert sorted[0] in sorted;
      forall h | h in grants && Credits.Usable(grants[h], user, now)
        ensures Credits.CompareGrants(sorted[0], grants[sorted[0]], h, grants[h]) <= 0
      {
        assert h in sorted;
        var i :| 0 <= i < |sorted| && sorted[i] == h;
        assert i > 0 ==> Before(grants, sorted[0], sorted[i]);
      }
      assert Credits.IsBest(grants, user, now, sorted[0]);
      Credits.BestIsUnique(grants, user, now, sorted[0], Credits.BestGrant(grants, user, now).value);
    }
  }

  /** create on the ledger: a violated constraint throws. */
  method CreateEntry(transaction: Prisma, key: LedgerKey, entry: Entry) returns (thrown: Option<Error>)
    modifies transaction`ledger
    ensures Settles(old(transaction.Committed()), transaction.Committed(), Credits.Insert(old(transaction.Committed()), key, entry), thrown)
  {
    if !Credits.Insertable(transaction.Committed(), key, entry) { return Some(Constraint); }
    transaction.ledger := transaction.ledger[key := entry];
    return None;
  }

  /** After a throw the enclosing transaction rolls back, so nothing is said of the rows. */
  method Reserve(transaction: Prisma, now: Time, user: UserId, g: GenerationId) returns (thrown: Option<Error>)
    modifies transaction
    ensures match Credits.Reserve(old(transaction.Committed()), now, user, g)
            case Ok(db) => thrown.None? && transaction.Committed() == db
            case Err(e) => thrown == Some(e)
  {
    if ReserveKey(g) in transaction.ledger { return None; }
    var found := FindUsable(transaction.grants, user, now);
    var candidates := Sort(transaction.grants, found);
    forall id ensures id in candidates <==> id in found {
      assert id in multiset(candidates) <==> id in multiset(found);
    }
    FirstIsBest(transaction.grants, user, now, candidates);
    ghost var before := transaction.grants;
    assert candidates != [] ==> candidates[0] in candidates && before[candidates[0]].remaining > 0;
    var taken := TakeFirst(transaction, candidates);
    match taken
    case None =>
      return Some(CreditsExhausted);
    case Some(id) =>
      assert id == candidates[0];
      thrown := CreateEntry(transaction, ReserveKey(g), Entry(user, Some(g), Some(id), RESERVE, 1));
  }

  method Consume(transaction: Prisma, g: GenerationId) returns (thrown: Option<Error>)
    modifies transaction`ledger
    ensures Settles(old(transaction.Committed()), transaction.Committed(), Credits.Consume(old(transaction.Committed()), g), thrown)
  {
    if ReserveKey(g) !in transaction.ledger { return Some(ReservationMissing); }
    var reservation := transaction.ledger[ReserveKey(g)];
    var terminal := Credits.FindTerminal(transaction.ledger, g);
    if terminal == Some(CONSUME) { return None; }
    if terminal.Some? { return Some(AlreadyReleased); }
    thrown := CreateEntry(transaction, ConsumeKey(g), Entry(reservation.user, Some(g), reservation.grant, CONSUME, 1));
  }

  /** After a throw the enclosing transaction rolls back. */
  method Release(transaction: Prisma, g: GenerationId) returns (thrown: Option<Error>)
    modifies transaction
    ensures match Credits.Release(old(transaction.Committed()), g)
            case Ok(db) => thrown.None? && transaction.Committed() == db
            case Err(e) => thrown == Some(e)
  {
    if ReserveKey(g) !in transaction.ledger || transaction.ledger[ReserveKey(g)].grant.None? { return None; }
    var reservation := transaction.ledger[ReserveKey(g)];
    var terminal := Credits.FindTerminal(transaction.ledger, g);
    if terminal.Some? { return None; }
    var id := reservation.grant.value;
    if id !in transaction.grants { return Some(NotFound); }
    var grant := transaction.grants[id];
    if grant.remaining + 1 > grant.total { return Some(Constraint); }
    transaction.grants := transaction.grants[id := grant.(remaining := grant.remaining + 1)];
    thrown := CreateEntry(transaction, ReleaseKey(g), Entry(reservation.user, Some(g), reservation.grant, RELEASE, 1));
  }
}
