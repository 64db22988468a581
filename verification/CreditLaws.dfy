/** Credit conservation: on every grant, the credits left plus the reservations
    that no release undid make up the total, whatever mix of reserve, consume,
    release and allocation calls ran and whichever generations were deleted. */
module CreditLaws {
  import opened Rows
  import opened Credits

  /** The generations whose reservation on this grant has no RELEASE. */
  function Outstanding(ledger: map<LedgerKey, Entry>, id: GrantId): set<GenerationId> {
    set k | k in ledger && k.ReserveKey? && ledger[k].grant == Some(id) && ReleaseKey(k.generation) !in ledger
      :: k.generation
  }

  ghost predicate Conserved(grants: map<GrantId, Grant>, ledger: map<LedgerKey, Entry>) {
    forall id | id in grants :: grants[id].remaining + |Outstanding(ledger, id)| == grants[id].total
  }

  /** A ledger row of a generation points at it as long as it exists, and at nothing afterwards. */
  function Link(generations: set<GenerationId>, g: GenerationId): Option<GenerationId> {
    if g in generations then Some(g) else None
  }

  predicate RowShape(generations: set<GenerationId>, grants: map<GrantId, Grant>, ledger: map<LedgerKey, Entry>, k: LedgerKey)
    requires k in ledger
  {
    match k
    case ReserveKey(g) =>
      && ledger[k].kind.RESERVE? && ledger[k].generation == Link(generations, g)
      && ledger[k].grant.Some? && ledger[k].grant.value in grants
    case ConsumeKey(g) =>
      && ledger[k].kind.CONSUME? && ledger[k].generation == Link(generations, g)
      && ReserveKey(g) in ledger && ReleaseKey(g) !in ledger
    case ReleaseKey(g) =>
      && ledger[k].kind.RELEASE? && ledger[k].generation == Link(generations, g)
      && ReserveKey(g) in ledger
    case PeriodKey(_, _) => ledger[k].kind.GRANT? && ledger[k].generation.None?
    case AdminKey(_) => ledger[k].kind.GRANT? && ledger[k].generation.None?
  }

  ghost predicate Shape(generations: set<GenerationId>, grants: map<GrantId, Grant>, ledger: map<LedgerKey, Entry>) {
    forall k | k in ledger :: RowShape(generations, grants, ledger, k)
  }

  ghost predicate Sound(db: Db) {
    && Shape(db.generations.Keys, db.grants, db.ledger)
    && Conserved(db.grants, db.ledger)
  }

  /** Conservation keeps every grant inside its check constraint. */
  lemma ConservedMeansInRange(grants: map<GrantId, Grant>, ledger: map<LedgerKey, Entry>, id: GrantId)
    requires Conserved(grants, ledger) && id in grants
    ensures 0 <= grants[id].remaining <= grants[id].total
  {
  }

  /** For a generation that still exists, the lookup by column agrees with the rows by key. */
  lemma TerminalByKey(db: Db, g: GenerationId)
    requires Sound(db)
    ensures g in db.generations && ConsumeKey(g) in db.ledger ==> FindTerminal(db.ledger, g) == Some(CONSUME)
    ensures g in db.generations && ConsumeKey(g) !in db.ledger && ReleaseKey(g) in db.ledger ==>
              FindTerminal(db.ledger, g) == Some(RELEASE)
    ensures g in db.generations && ConsumeKey(g) !in db.ledger && ReleaseKey(g) !in db.ledger ==>
              FindTerminal(db.ledger, g) == None
    ensures g !in db.generations ==> FindTerminal(db.ledger, g) == None
  {
    forall k | k in db.ledger && db.ledger[k].generation == Some(g)
      ensures g in db.generations && k in {ReserveKey(g), ConsumeKey(g), ReleaseKey(g)}
      ensures k == ConsumeKey(g) <==> db.ledger[k].kind.CONSUME?
      ensures k == ReleaseKey(g) <==> db.ledger[k].kind.RELEASE?
      ensures !db.ledger[k].kind.REFUND?
    {
      assert RowShape(db.generations.Keys, db.grants, db.ledger, k);
    }
    if ConsumeKey(g) in db.ledger { assert RowShape(db.generations.Keys, db.grants, db.ledger, ConsumeKey(g)); }
    if ReleaseKey(g) in db.ledger { assert RowShape(db.generations.Keys, db.grants, db.ledger, ReleaseKey(g)); }
  }

  // ----- how the outstanding sets move -----

  lemma OutstandingAfterReserve(ledger: map<LedgerKey, Entry>, g: GenerationId, entry: Entry, id: GrantId)
    requires ReserveKey(g) !in ledger && ReleaseKey(g) !in ledger
    ensures Outstanding(ledger[ReserveKey(g) := entry], id)
            == Outstanding(ledger, id) + (if entry.grant == Some(id) then {g} else {})
    ensures g !in Outstanding(ledger, id)
  {
    var after := ledger[ReserveKey(g) := entry];
    forall h ensures h in Outstanding(after, id) <==> h in Outstanding(ledger, id) + (if entry.grant == Some(id) then {g} else {}) {
      assert ReserveKey(h) in after <==> ReserveKey(h) in ledger || h == g;
    }
  }

  lemma OutstandingAfterRelease(ledger: map<LedgerKey, Entry>, g: GenerationId, entry: Entry, id: GrantId)
    requires ReserveKey(g) in ledger && ReleaseKey(g) !in ledger
    ensures Outstanding(ledger[ReleaseKey(g) := entry], id) == Outstanding(ledger, id) - {g}
    ensures g in Outstanding(ledger, id) <==> ledger[ReserveKey(g)].grant == Some(id)
  {
    var after := ledger[ReleaseKey(g) := entry];
    forall h ensures h in Outstanding(after, id) <==> h in Outstanding(ledger, id) - {g} {
      assert ReserveKey(h) in after <==> ReserveKey(h) in ledger;
      assert ReleaseKey(h) in after <==> ReleaseKey(h) in ledger || h == g;
    }
  }

  lemma OutstandingDependsOnReservations(ledger: map<LedgerKey, Entry>, after: map<LedgerKey, Entry>, id: GrantId)
    requires forall g :: ReserveKey(g) in after <==> ReserveKey(g) in ledger
    requires forall g | ReserveKey(g) in ledger :: after[ReserveKey(g)].grant == ledger[ReserveKey(g)].grant
    requires forall g :: ReleaseKey(g) in after <==> ReleaseKey(g) in ledger
    ensures Outstanding(after, id) == Outstanding(ledger, id)
  {
    forall h ensures h in Outstanding(after, id) <==> h in Outstanding(ledger, id) {
      assert h in Outstanding(after, id) <==>
        ReserveKey(h) in after && after[ReserveKey(h)].grant == Some(id) && ReleaseKey(h) !in after;
    }
  }

  // ----- every ledger transaction conserves -----

  lemma ReserveConserves(db: Db, now: Time, user: UserId, g: GenerationId)
    requires Sound(db) && g in db.generations && Reserve(db, now, user, g).Ok?
    ensures Sound(Reserve(db, now, user, g).value)
  {
    if ReserveKey(g) !in db.ledger {
      var after := Reserve(db, now, user, g).value;
      var entry := after.ledger[ReserveKey(g)];
      assert ReleaseKey(g) in db.ledger ==> RowShape(db.generations.Keys, db.grants, db.ledger, ReleaseKey(g));
      forall id | id in after.grants
        ensures after.grants[id].remaining + |Outstanding(after.ledger, id)| == after.grants[id].total
      {
        OutstandingAfterReserve(db.ledger, g, entry, id);
      }
      forall k | k in after.ledger ensures RowShape(after.generations.Keys, after.grants, after.ledger, k) {
        if k in db.ledger { assert RowShape(db.generations.Keys, db.grants, db.ledger, k); }
      }
    }
  }

  lemma ConsumeConserves(db: Db, g: GenerationId)
    requires Sound(db) && Consume(db, g).Ok?
    ensures Sound(Consume(db, g).value)
  {
    TerminalByKey(db, g);
    var after := Consume(db, g).value;
    if after != db {
      forall id | id in after.grants ensures Outstanding(after.ledger, id) == Outstanding(db.ledger, id) {
        OutstandingDependsOnReservations(db.ledger, after.ledger, id);
      }
      forall k | k in after.ledger ensures RowShape(after.generations.Keys, after.grants, after.ledger, k) {
        if k in db.ledger { assert RowShape(db.generations.Keys, db.grants, db.ledger, k); }
      }
    }
  }

  /** Holds for a generation in any state, also one whose rows were detached when it was deleted: then the
      lookup by column finds no terminal row and the unique key or the foreign key undoes the increment. */
  lemma ReleaseConserves(db: Db, g: GenerationId)
    requires Sound(db) && Release(db, g).Ok?
    ensures Sound(Release(db, g).value)
    ensures Release(db, g).value != db ==>
              g in db.generations && ConsumeKey(g) !in db.ledger && ReleaseKey(g) !in db.ledger
  {
    TerminalByKey(db, g);
    var after := Release(db, g).value;
    if after != db {
      assert RowShape(db.generations.Keys, db.grants, db.ledger, ReserveKey(g));
      var entry := after.ledger[ReleaseKey(g)];
      forall id | id in after.grants
        ensures after.grants[id].remaining + |Outstanding(after.ledger, id)| == after.grants[id].total
      {
        OutstandingAfterRelease(db.ledger, g, entry, id);
      }
      forall k | k in after.ledger ensures RowShape(after.generations.Keys, after.grants, after.ledger, k) {
        if k in db.ledger { assert RowShape(db.generations.Keys, db.grants, db.ledger, k); }
      }
    }
  }

  lemma AllocateConserves(db: Db, id: GrantId, user: UserId, period: string, total: int,
                          validFrom: Instant, expiresAt: Instant, now: Instant)
    requires Sound(db) && AllocateMonthly(db, id, user, period, total, validFrom, expiresAt, now).Ok?
    ensures Sound(AllocateMonthly(db, id, user, period, total, validFrom, expiresAt, now).value)
  {
    var key := PeriodKey(user, period);
    if key !in db.ledger {
      if exists h :: h in db.grants && SamePeriod(db.grants[h], user, period) {
        var after := AllocateMonthly(db, id, user, period, total, validFrom, expiresAt, now).value;
        EntryConserves(db, key, after.ledger[key]);
      } else {
        var grant := Grant(user, SubscriptionMonthly, total, total, validFrom, Some(expiresAt), now, Some(period));
        AddGrantConserves(db, id, grant, key);
      }
    }
  }

  lemma AddGrantConserves(db: Db, id: GrantId, grant: Grant, key: LedgerKey)
    requires Sound(db) && (key.PeriodKey? || key.AdminKey?) && grant.remaining == grant.total
    requires AddGrant(db, id, grant, key).Ok?
    ensures Sound(AddGrant(db, id, grant, key).value)
  {
    var widened := db.(grants := db.grants[id := grant]);
    NothingOutstanding(db, id);
    forall k | k in db.ledger ensures RowShape(db.generations.Keys, widened.grants, db.ledger, k) {
      assert RowShape(db.generations.Keys, db.grants, db.ledger, k);
    }
    EntryConserves(widened, key, Entry(grant.user, None, Some(id), GRANT, grant.total));
  }

  /** A GRANT row leaves every reservation as it was. */
  lemma EntryConserves(db: Db, key: LedgerKey, entry: Entry)
    requires Sound(db) && (key.PeriodKey? || key.AdminKey?) && key !in db.ledger
    requires entry.kind.GRANT? && entry.generation.None?
    ensures Sound(db.(ledger := db.ledger[key := entry]))
  {
    var after := db.(ledger := db.ledger[key := entry]);
    forall k | k in after.ledger ensures RowShape(after.generations.Keys, after.grants, after.ledger, k) {
      if k in db.ledger { assert RowShape(db.generations.Keys, db.grants, db.ledger, k); }
    }
    forall h | h in after.grants
      ensures after.grants[h].remaining + |Outstanding(after.ledger, h)| == after.grants[h].total
    {
      OutstandingDependsOnReservations(db.ledger, after.ledger, h);
    }
  }

  lemma NothingOutstanding(db: Db, id: GrantId)
    requires Sound(db) && id !in db.grants
    ensures Outstanding(db.ledger, id) == {}
  {
    forall k | k in db.ledger && k.ReserveKey? ensures db.ledger[k].grant != Some(id) {
      assert RowShape(db.generations.Keys, db.grants, db.ledger, k);
    }
  }

  /** Deleting generations, which nulls the column of their ledger rows. */
  lemma DetachConserves(generations: set<GenerationId>, grants: map<GrantId, Grant>, ledger: map<LedgerKey, Entry>,
                        gone: set<GenerationId>)
    requires Shape(generations, grants, ledger) && Conserved(grants, ledger)
    ensures Shape(generations - gone, grants, Detach(ledger, gone)) && Conserved(grants, Detach(ledger, gone))
  {
    var after := Detach(ledger, gone);
    forall k | k in after ensures RowShape(generations - gone, grants, after, k) {
      assert RowShape(generations, grants, ledger, k);
    }
    forall id | id in grants ensures Outstanding(after, id) == Outstanding(ledger, id) {
      OutstandingDependsOnReservations(ledger, after, id);
    }
  }

  /** A generation id that no ledger row mentions. */
  lemma AttachConserves(generations: set<GenerationId>, grants: map<GrantId, Grant>, ledger: map<LedgerKey, Entry>,
                        g: GenerationId)
    requires Shape(generations, grants, ledger) && ReserveKey(g) !in ledger
    ensures Shape(generations + {g}, grants, ledger)
  {
    forall k | k in ledger ensures RowShape(generations + {g}, grants, ledger, k) {
      assert RowShape(generations, grants, ledger, k);
    }
  }
}
