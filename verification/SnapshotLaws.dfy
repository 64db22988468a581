/** While a generation is active, its snapshot is what the live report still says. */
module SnapshotLaws {
  import opened Rows
  import opened Generations
  import opened LockstepLaws

  ghost predicate SnapshotFits(reports: map<ReportId, Report>, assets: map<AssetId, Asset>, row: Generation) {
    Active(row) ==>
      && row.report in reports
      && row.snapshot == Snapshot(reports[row.report].title, reports[row.report].notes, ReadyAssets(assets, row.report))
      && AllReady(assets, row.report)
  }

  predicate AllReady(assets: map<AssetId, Asset>, r: ReportId) {
    forall a | a in assets && assets[a].report == r :: assets[a].status.Uploaded?
  }

  ghost predicate Snapshots(reports: map<ReportId, Report>, assets: map<AssetId, Asset>, generations: map<GenerationId, Generation>) {
    forall g | g in generations :: SnapshotFits(reports, assets, generations[g])
  }

  /** The rows that a snapshot copied stay the same rows. */
  predicate SameAssetsOf(assets: map<AssetId, Asset>, assets': map<AssetId, Asset>, r: ReportId) {
    && (forall a | a in assets' && assets'[a].report == r :: a in assets && assets[a] == assets'[a])
    && (forall a | a in assets && assets[a].report == r :: a in assets' && assets[a] == assets'[a])
  }

  lemma SameAssetsSameSnapshot(assets: map<AssetId, Asset>, assets': map<AssetId, Asset>, r: ReportId)
    requires SameAssetsOf(assets, assets', r)
    ensures ReadyAssets(assets', r) == ReadyAssets(assets, r)
    ensures AllReady(assets, r) ==> AllReady(assets', r)
  {
  }

  /** A change keeps every snapshot when it leaves alone what reports with an active generation say. */
  lemma GuardedChangeKeepsSnapshots(reports: map<ReportId, Report>, assets: map<AssetId, Asset>, generations: map<GenerationId, Generation>,
                                    reports': map<ReportId, Report>, assets': map<AssetId, Asset>, generations': map<GenerationId, Generation>)
    requires Snapshots(reports, assets, generations)
    requires forall g | g in generations' && Active(generations'[g]) ::
               && g in generations && Active(generations[g])
               && generations'[g].report == generations[g].report && generations'[g].snapshot == generations[g].snapshot
               && var r := generations[g].report;
               && (r in reports ==> r in reports' && reports'[r].title == reports[r].title && reports'[r].notes == reports[r].notes)
               && SameAssetsOf(assets, assets', r)
    ensures Snapshots(reports', assets', generations')
  {
    forall g | g in generations' ensures SnapshotFits(reports', assets', generations'[g]) {
      if Active(generations'[g]) {
        assert SnapshotFits(reports, assets, generations[g]);
        SameAssetsSameSnapshot(assets, assets', generations[g].report);
      }
    }
  }

  /** A move of one generation: its snapshot is one of the columns it keeps. */
  lemma MoveKeepsSnapshots(db: Db, after: Db, g: GenerationId)
    requires Snapshots(db.reports, db.assets, db.generations) && Moves(db, after, g)
    ensures Snapshots(after.reports, after.assets, after.generations)
  {
    forall h | h in after.generations ensures SnapshotFits(after.reports, after.assets, after.generations[h]) {
      assert SnapshotFits(db.reports, db.assets, db.generations[h]);
    }
  }

  /** A snapshot fixes the order of its assets: a listing by strictly increasing position is the only one. */
  lemma {:induction false} OrderIsDetermined(assets: map<AssetId, Asset>, left: seq<AssetId>, right: seq<AssetId>)
    requires ListsByPosition(assets, left) && ListsByPosition(assets, right)
    requires forall a :: a in left <==> a in right
    ensures left == right
  {
    EmptyTogether(left, right);
    if left != [] {
      var n := |left| - 1;
      assert left[n] in right && right[|right| - 1] in left;
      LastIsLargest(assets, left, right);
      var m := |right| - 1;
      forall a ensures a in left[..n] <==> a in right[..m] {
        assert a in left <==> a in left[..n] || a == left[n];
        assert a in right <==> a in right[..m] || a == right[m];
      }
      OrderIsDetermined(assets, left[..n], right[..m]);
    }
  }

  lemma EmptyTogether(left: seq<AssetId>, right: seq<AssetId>)
    requires forall a :: a in left <==> a in right
    ensures left == [] <==> right == []
  {
    if left != [] { assert left[0] in left; }
    if right != [] { assert right[0] in right; }
  }

  predicate ListsByPosition(assets: map<AssetId, Asset>, ids: seq<AssetId>) {
    && (forall i | 0 <= i < |ids| :: ids[i] in assets)
    && (forall i, j | 0 <= i < j < |ids| :: assets[ids[i]].position < assets[ids[j]].position)
  }

  /** What a query ordered by position lists: every row once, none before one of a smaller position. */
  ghost predicate OrderedByPosition(assets: map<AssetId, Asset>, ids: seq<AssetId>) {
    && (forall a :: a in ids <==> a in assets)
    && (forall i, j | 0 <= i < j < |ids| :: ids[i] != ids[j] && assets[ids[i]].position <= assets[ids[j]].position)
  }

  /** With different positions the query's answer is determined by the rows. */
  lemma OrderOfDistinctIsDetermined(assets: map<AssetId, Asset>, left: seq<AssetId>, right: seq<AssetId>)
    requires forall a, b | a in assets && b in assets && assets[a].position == assets[b].position :: a == b
    requires OrderedByPosition(assets, left) && OrderedByPosition(assets, right)
    ensures left == right && ListsByPosition(assets, left)
  {
    OrderIsDetermined(assets, left, right);
  }

  lemma LastIsLargest(assets: map<AssetId, Asset>, left: seq<AssetId>, right: seq<AssetId>)
    requires ListsByPosition(assets, left) && ListsByPosition(assets, right) && left != [] && right != []
    requires left[|left| - 1] in right && right[|right| - 1] in left
    ensures left[|left| - 1] == right[|right| - 1]
  {
    var i :| 0 <= i < |right| && right[i] == left[|left| - 1];
    var j :| 0 <= j < |left| && left[j] == right[|right| - 1];
  }
}
