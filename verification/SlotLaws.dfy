/** The slots of a report: ready assets and unexpired uploads never exceed the
    limits and never share a position. */
module SlotLaws {
  import opened Rows
  import opened Assets
  import Generations

  ghost predicate Distinct(assets: map<AssetId, Asset>, ids: set<AssetId>)
    requires ids <= assets.Keys
  {
    forall a, b | a in ids && b in ids && assets[a].position == assets[b].position :: a == b
  }

  ghost predicate Fits(cfg: Config, assets: map<AssetId, Asset>, ids: set<AssetId>)
    requires ids <= assets.Keys
  {
    && (forall kind :: |OfKind(assets, ids, kind)| <= cfg.MaximumCount(kind))
    && TotalBytes(assets, ids) <= cfg.maxReportBytes
    && Distinct(assets, ids)
  }

  ghost predicate SlotsFit(cfg: Config, assets: map<AssetId, Asset>, clock: Time, r: ReportId) {
    Fits(cfg, assets, CountedOf(assets, r, cfg, clock))
  }

  ghost predicate Slots(cfg: Config, assets: map<AssetId, Asset>, clock: Time) {
    && (forall r :: SlotsFit(cfg, assets, clock, r))
    && (forall a | a in assets :: SizeFits(assets[a]) && assets[a].createdAt <= clock)
  }

  predicate SizeFits(asset: Asset) {
    asset.verifiedSize.Some? ==> asset.verifiedSize.value == asset.declaredSize
  }

  // ----- sums and counts over sets -----

  lemma {:induction false} TakeOut(assets: map<AssetId, Asset>, ids: set<AssetId>, a: AssetId)
    requires ids <= assets.Keys && a in ids
    ensures TotalBytes(assets, ids) == Bytes(assets[a]) + TotalBytes(assets, ids - {a})
    decreases |ids|
  {
    var b :| b in ids && TotalBytes(assets, ids) == Bytes(assets[b]) + TotalBytes(assets, ids - {b});
    if b != a {
      TakeOut(assets, ids - {b}, a);
      TakeOut(assets, ids - {a}, b);
      assert ids - {a} - {b} == ids - {b} - {a};
    }
  }

  /** An injection into slots that fit, keeping kind, size and position. */
  ghost predicate Embeds(assets': map<AssetId, Asset>, ids': set<AssetId>, assets: map<AssetId, Asset>, ids: set<AssetId>,
                         f: map<AssetId, AssetId>)
    requires ids' <= assets'.Keys && ids <= assets.Keys
  {
    && ids' <= f.Keys
    && (forall a | a in ids' :: f[a] in ids && assets'[a].kind == assets[f[a]].kind
                                && Bytes(assets'[a]) == Bytes(assets[f[a]]) && assets'[a].position == assets[f[a]].position)
    && (forall a, b | a in ids' && b in ids' && f[a] == f[b] :: a == b)
  }

  lemma {:induction false} EmbeddedSum(assets': map<AssetId, Asset>, ids': set<AssetId>, assets: map<AssetId, Asset>, ids: set<AssetId>,
                                       f: map<AssetId, AssetId>)
    requires ids' <= assets'.Keys && ids <= assets.Keys && Embeds(assets', ids', assets, ids, f)
    ensures TotalBytes(assets', ids') <= TotalBytes(assets, ids)
    decreases |ids'|
  {
    if ids' != {} {
      var a :| a in ids';
      TakeOut(assets', ids', a);
      TakeOut(assets, ids, f[a]);
      EmbeddedSum(assets', ids' - {a}, assets, ids - {f[a]}, f);
    }
  }

  lemma {:induction false} InjectionSize(small: set<AssetId>, large: set<AssetId>, f: map<AssetId, AssetId>)
    requires small <= f.Keys && (forall a | a in small :: f[a] in large)
    requires forall a, b | a in small && b in small && f[a] == f[b] :: a == b
    ensures |small| <= |large|
    decreases |small|
  {
    if small != {} {
      var a :| a in small;
      InjectionSize(small - {a}, large - {f[a]}, f);
    }
  }

  lemma EmbeddedCount(assets': map<AssetId, Asset>, ids': set<AssetId>, assets: map<AssetId, Asset>, ids: set<AssetId>,
                      f: map<AssetId, AssetId>, kind: AssetType)
    requires ids' <= assets'.Keys && ids <= assets.Keys && Embeds(assets', ids', assets, ids, f)
    ensures |OfKind(assets', ids', kind)| <= |OfKind(assets, ids, kind)|
  {
    InjectionSize(OfKind(assets', ids', kind), OfKind(assets, ids, kind), f);
  }

  lemma EmbeddingFits(cfg: Config, assets': map<AssetId, Asset>, ids': set<AssetId>, assets: map<AssetId, Asset>, ids: set<AssetId>,
                      f: map<AssetId, AssetId>)
    requires ids' <= assets'.Keys && ids <= assets.Keys && Embeds(assets', ids', assets, ids, f)
    requires Fits(cfg, assets, ids)
    ensures Fits(cfg, assets', ids')
  {
    EmbeddedSum(assets', ids', assets, ids, f);
    forall kind ensures |OfKind(assets', ids', kind)| <= cfg.MaximumCount(kind) {
      EmbeddedCount(assets', ids', assets, ids, f, kind);
    }
  }

  // ----- the steps -----

  /** What a step may do to a counted asset of r without taking a new slot. */
  predicate NoNewSlot(cfg: Config, assets: map<AssetId, Asset>, clock: Time, assets': map<AssetId, Asset>, clock': Time, a: AssetId)
    requires a in assets'
  {
    Counted(assets'[a], cfg, clock') ==>
      && a in assets && Counted(assets[a], cfg, clock) && assets[a].report == assets'[a].report
      && assets[a].kind == assets'[a].kind && Bytes(assets[a]) == Bytes(assets'[a]) && assets[a].position == assets'[a].position
  }

  /** Time passing, confirmation, rejection, expiry, withdrawal and deletion. */
  lemma NoNewSlotKeepsSlots(cfg: Config, assets: map<AssetId, Asset>, clock: Time, assets': map<AssetId, Asset>, clock': Time)
    requires Slots(cfg, assets, clock) && clock <= clock'
    requires forall a | a in assets' :: NoNewSlot(cfg, assets, clock, assets', clock', a)
    requires forall a | a in assets' :: SizeFits(assets'[a]) && a in assets && assets'[a].createdAt == assets[a].createdAt
    ensures Slots(cfg, assets', clock')
  {
    forall r ensures SlotsFit(cfg, assets', clock', r) {
      assert SlotsFit(cfg, assets, clock, r);
      var ids' := CountedOf(assets', r, cfg, clock');
      var same := map a | a in ids' :: a;
      EmbeddingFits(cfg, assets', ids', assets, CountedOf(assets, r, cfg, clock), same);
    }
  }

  lemma TickKeepsSlots(cfg: Config, assets: map<AssetId, Asset>, clock: Time, later: Time)
    requires Slots(cfg, assets, clock) && clock <= later
    ensures Slots(cfg, assets, later)
  {
    NoNewSlotKeepsSlots(cfg, assets, clock, assets, later);
  }

  /** One more slot within the limits, past every position in use. */
  lemma SlotAdded(cfg: Config, assets: map<AssetId, Asset>, ids: set<AssetId>, a: AssetId, asset: Asset)
    requires ids <= assets.Keys && a !in assets && Fits(cfg, assets, ids)
    requires |OfKind(assets, ids, asset.kind)| < cfg.MaximumCount(asset.kind)
    requires TotalBytes(assets, ids) + Bytes(asset) <= cfg.maxReportBytes
    requires forall b | b in ids :: assets[b].position < asset.position
    ensures Fits(cfg, assets[a := asset], ids + {a})
  {
    BytesAdded(assets, ids, a, asset);
    forall kind ensures |OfKind(assets[a := asset], ids + {a}, kind)| <= cfg.MaximumCount(kind) {
      KindAdded(assets, ids, a, asset, kind);
    }
  }

  lemma BytesAdded(assets: map<AssetId, Asset>, ids: set<AssetId>, a: AssetId, asset: Asset)
    requires ids <= assets.Keys && a !in assets
    ensures TotalBytes(assets[a := asset], ids + {a}) <= TotalBytes(assets, ids) + Bytes(asset)
  {
    var assets' := assets[a := asset];
    TakeOut(assets', ids + {a}, a);
    assert (ids + {a}) - {a} == ids;
    EmbeddedSum(assets', ids, assets, ids, map b | b in ids :: b);
  }

  lemma KindAdded(assets: map<AssetId, Asset>, ids: set<AssetId>, a: AssetId, asset: Asset, kind: AssetType)
    requires ids <= assets.Keys && a !in assets
    ensures OfKind(assets[a := asset], ids + {a}, kind) == OfKind(assets, ids, kind) + (if kind == asset.kind then {a} else {})
  {
  }

  lemma SameRowsFit(cfg: Config, assets: map<AssetId, Asset>, assets': map<AssetId, Asset>, ids: set<AssetId>)
    requires ids <= assets.Keys && ids <= assets'.Keys && Fits(cfg, assets, ids)
    requires forall b | b in ids :: assets'[b] == assets[b]
    ensures Fits(cfg, assets', ids)
  {
    EmbeddingFits(cfg, assets', ids, assets, ids, map b | b in ids :: b);
  }

  lemma RequestKeepsSlots(cfg: Config, db: Db, now: Time, user: UserId, r: ReportId, a: AssetId, key: StorageKey, request: UploadRequest)
    requires Slots(cfg, db.assets, now) && RequestUpload(cfg, db, now, user, r, a, key, request).Ok?
    ensures Slots(cfg, RequestUpload(cfg, db, now, user, r, a, key, request).value.assets, now)
  {
    var asset := RequestUpload(cfg, db, now, user, r, a, key, request).value.assets[a];
    assert SlotsFit(cfg, db.assets, now, r);
    SlotAdded(cfg, db.assets, CountedOf(db.assets, r, cfg, now), a, asset);
    PendingAssetKeepsSlots(cfg, db.assets, now, r, a, asset);
  }

  lemma PendingAssetKeepsSlots(cfg: Config, assets: map<AssetId, Asset>, now: Time, r: ReportId, a: AssetId, asset: Asset)
    requires Slots(cfg, assets, now) && a !in assets
    requires asset.report == r && Counted(asset, cfg, now) && asset.createdAt == now && SizeFits(asset)
    requires Fits(cfg, assets[a := asset], CountedOf(assets, r, cfg, now) + {a})
    ensures Slots(cfg, assets[a := asset], now)
  {
    var assets' := assets[a := asset];
    forall q ensures SlotsFit(cfg, assets', now, q) {
      assert SlotsFit(cfg, assets, now, q);
      var ids := CountedOf(assets, q, cfg, now);
      if q == r {
        assert CountedOf(assets', q, cfg, now) == ids + {a};
      } else {
        SameRowsFit(cfg, assets, assets', ids);
        assert CountedOf(assets', q, cfg, now) == ids;
      }
    }
  }

  lemma ConfirmKeepsSlots(cfg: Config, db: Db, now: Time, user: UserId, r: ReportId, a: AssetId, size: nat)
    requires Slots(cfg, db.assets, now) && ConfirmUpload(cfg, db, now, user, r, a, size).Ok?
    ensures Slots(cfg, ConfirmUpload(cfg, db, now, user, r, a, size).value.assets, now)
  {
    NoNewSlotKeepsSlots(cfg, db.assets, now, ConfirmUpload(cfg, db, now, user, r, a, size).value.assets, now);
  }

  /** What a duplicate read fits, whatever becomes of the source. */
  ghost predicate SourceFits(cfg: Config, read: Source) {
    && Fits(cfg, read.rows, read.rows.Keys)
    && (forall a | a in read.rows :: read.rows[a].status.Uploaded? && SizeFits(read.rows[a]))
  }

  ghost predicate SourcesFit(cfg: Config, duplicating: map<ReportId, Source>) {
    forall r | r in duplicating :: SourceFits(cfg, duplicating[r])
  }

  lemma ReadSourceFits(cfg: Config, db: Db, now: Time, user: UserId, source: ReportId)
    requires Slots(cfg, db.assets, now) && ReadSource(db, user, source).Ok?
    ensures SourceFits(cfg, ReadSource(db, user, source).value)
  {
    var rows := Generations.ReadyAssets(db.assets, source);
    assert SlotsFit(cfg, db.assets, now, source);
    EmbeddingFits(cfg, rows, rows.Keys, db.assets, CountedOf(db.assets, source, cfg, now), map a | a in rows :: a);
  }

  /** The rows of a duplicate: one fresh copy of each row of the source, and every other row as it was. */
  ghost predicate Copies(assets: map<AssetId, Asset>, assets': map<AssetId, Asset>, rows: map<AssetId, Asset>, r: ReportId, now: Time,
                         from: map<AssetId, AssetId>) {
    && assets'.Keys == assets.Keys + from.Keys && assets.Keys !! from.Keys
    && (forall a | a in assets :: assets'[a] == assets[a] && assets[a].report != r)
    && (forall a | a in from :: IsCopy(rows, assets'[a], r, now, from[a]))
    && (forall a, b | a in from && b in from && from[a] == from[b] :: a == b)
  }

  predicate IsCopy(rows: map<AssetId, Asset>, copy: Asset, r: ReportId, now: Time, original: AssetId) {
    && original in rows && rows[original].status.Uploaded?
    && copy == rows[original].(report := r, storageKey := copy.storageKey, createdAt := now)
  }

  /** The duplicate's slots are those of the source as it was read, one for one. */
  lemma DuplicateKeepsSlots(cfg: Config, db: Db, now: Time, read: Source, r: ReportId, copies: map<AssetId, Copy>, title: string)
    requires Slots(cfg, db.assets, now) && SourceFits(cfg, read) && Duplicate(db, now, read, r, copies, title).Ok?
    requires forall a | a in db.assets :: db.assets[a].report != r
    ensures Slots(cfg, Duplicate(db, now, read, r, copies, title).value.assets, now)
  {
    var from := map a | a in copies :: copies[a].source;
    DuplicateCopies(db, now, read, r, copies, title, from);
    CopiesKeepSlots(cfg, db.assets, Duplicate(db, now, read, r, copies, title).value.assets, read, r, now, from);
  }

  lemma DuplicateCopies(db: Db, now: Time, read: Source, r: ReportId, copies: map<AssetId, Copy>, title: string, from: map<AssetId, AssetId>)
    requires Duplicate(db, now, read, r, copies, title).Ok? && from == map a | a in copies :: copies[a].source
    requires forall a | a in db.assets :: db.assets[a].report != r
    requires forall a | a in read.rows :: read.rows[a].status.Uploaded?
    ensures Copies(db.assets, Duplicate(db, now, read, r, copies, title).value.assets, read.rows, r, now, from)
  {
    forall a | a in from ensures from[a] in read.rows {
      assert copies[a].source in read.rows;
    }
  }

  lemma CopiesKeepSlots(cfg: Config, assets: map<AssetId, Asset>, assets': map<AssetId, Asset>, read: Source, r: ReportId, now: Time,
                        from: map<AssetId, AssetId>)
    requires Slots(cfg, assets, now) && SourceFits(cfg, read) && Copies(assets, assets', read.rows, r, now, from)
    ensures Slots(cfg, assets', now)
  {
    forall q ensures SlotsFit(cfg, assets', now, q) {
      if q == r {
        CopiesFitSlots(cfg, assets, assets', read, r, now, from);
      } else {
        assert SlotsFit(cfg, assets, now, q);
        SameRowsFit(cfg, assets, assets', CountedOf(assets, q, cfg, now));
        assert CountedOf(assets', q, cfg, now) == CountedOf(assets, q, cfg, now);
      }
    }
    forall a | a in assets' ensures SizeFits(assets'[a]) && assets'[a].createdAt <= now {
      if a in from { assert IsCopy(read.rows, assets'[a], r, now, from[a]); }
    }
  }

  lemma CopiesFitSlots(cfg: Config, assets: map<AssetId, Asset>, assets': map<AssetId, Asset>, read: Source, r: ReportId, now: Time,
                       from: map<AssetId, AssetId>)
    requires SourceFits(cfg, read) && Copies(assets, assets', read.rows, r, now, from)
    ensures SlotsFit(cfg, assets', now, r)
  {
    forall a | a in from ensures assets'[a].report == r && Counted(assets'[a], cfg, now) && from[a] in read.rows {
      assert IsCopy(read.rows, assets'[a], r, now, from[a]);
    }
    assert CountedOf(assets', r, cfg, now) == from.Keys;
    EmbeddingFits(cfg, assets', from.Keys, read.rows, read.rows.Keys, from);
  }
}
