/** The tables as the services change them: one object whose fields the
    statements of a transaction reassign. */
module Tables {
  import opened Rows

  /** What a transaction left behind: the committed rows, or after a throw the rows as they were. */
  ghost predicate Settles(before: Db, after: Db, outcome: Outcome<Db>, thrown: Option<Error>) {
    match outcome
    case Ok(db) => thrown.None? && after == db
    case Err(e) => thrown == Some(e) && after == before
  }

  class Prisma {
    var reports: map<ReportId, Report>
    var assets: map<AssetId, Asset>
    var generations: map<GenerationId, Generation>
    var attempts: map<AttemptId, Attempt>
    var grants: map<GrantId, Grant>
    var ledger: map<LedgerKey, Entry>
    var outputs: map<ReportId, Output>
    var tasks: set<StorageKey>

    function Committed(): Db
      reads this
    {
      Db(reports, assets, generations, attempts, grants, ledger, outputs, tasks)
    }

    constructor ()
      ensures Committed() == EMPTY_DB
    {
      reports, assets, generations, attempts := map[], map[], map[], map[];
      grants, ledger, outputs, tasks := map[], map[], map[], {};
    }

    /** The end of a transaction that throws. */
    method RollBack(saved: Db)
      modifies this
      ensures Committed() == saved
    {
      reports, assets, generations, attempts := saved.reports, saved.assets, saved.generations, saved.attempts;
      grants, ledger, outputs, tasks := saved.grants, saved.ledger, saved.outputs, saved.tasks;
    }
  }
}
