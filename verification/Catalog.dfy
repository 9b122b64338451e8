/** The campaign catalog: building the inverted indices from the targeting rows, and
    retrieving candidates through them (catalog/loader.rs, catalog/campaign_catalog.rs,
    pipeline/stages/candidate_retrieval.rs). */
module Catalog {
  import opened Common

  type SegmentId = x: nat | x < 0x1_0000_0000

  datatype GeoKind = Country | Metro
  datatype GeoKey = GeoKey(kind: GeoKind, code: string)
  datatype Device = Desktop | Mobile | Tablet | Ctv | Other
  datatype AdFormat = Banner | Video | Audio | Native

  datatype Campaign = Campaign(bidFloorCents: int, dailyBudgetCents: int, dailyCapImps: nat, hourlyCapImps: nat)
  datatype Creative = Creative(id: CreativeId, adFormat: AdFormat)

  // Rows as the queries return them.

  datatype CampaignRow = CampaignRow(id: int, bidFloorCents: int, dailyBudgetCents: int, dailyCap: int, hourlyCap: int)
  datatype CreativeRow = CreativeRow(id: int, campaignId: int, adFormat: string)
  datatype TargetRow<R> = TargetRow(key: R, campaignIds: seq<int>)

  datatype Rows = Rows(
    campaigns: seq<CampaignRow>,
    creatives: seq<CreativeRow>,
    segments: seq<TargetRow<int>>,
    geos: seq<TargetRow<(string, string)>>,
    devices: seq<TargetRow<string>>,
    formats: seq<TargetRow<string>>,
    dayparts: seq<int>)

  type Bitmap = set<CampaignId>

  datatype CampaignCatalog = CampaignCatalog(
    campaigns: map<CampaignId, Campaign>,
    creatives: map<CampaignId, seq<Creative>>,
    segmentTo: map<SegmentId, Bitmap>,
    geoTo: map<GeoKey, Bitmap>,
    deviceTo: map<Device, Bitmap>,
    formatTo: map<AdFormat, Bitmap>,
    daypartActiveNow: Bitmap,
    allCampaigns: Bitmap,
    deviceUnrestricted: Bitmap,
    formatUnrestricted: Bitmap)

  /** The cast of an `i64` or `i32` to `u32`. */
  function U32(i: int): CampaignId { i % 0x1_0000_0000 }

  function Clamped(i: int): nat { if i < 0 then 0 else i }

  // Conversions of the row keys.

  function SegmentKey(id: int): SegmentId { U32(id) }

  function GeoKeyOf(k: (string, string)): GeoKey {
    GeoKey(if k.0 == "country" then Country else Metro, k.1)
  }

  function ParseDevice(s: string): Option<Device> {
    if s == "DESKTOP" || s == "desktop" then Some(Desktop)
    else if s == "MOBILE" || s == "mobile" then Some(Mobile)
    else if s == "TABLET" || s == "tablet" then Some(Tablet)
    else if s == "CTV" || s == "ctv" then Some(Ctv)
    else if s == "OTHER" || s == "other" then Some(Other)
    else None
  }

  function ParseFormat(s: string): Option<AdFormat> {
    if s == "BANNER" || s == "banner" then Some(Banner)
    else if s == "VIDEO" || s == "video" then Some(Video)
    else if s == "AUDIO" || s == "audio" then Some(Audio)
    else if s == "NATIVE" || s == "native" then Some(Native)
    else None
  }

  // What the rows say about one campaign, read without any index.

  function CampaignOf(r: CampaignRow): Campaign {
    Campaign(r.bidFloorCents, r.dailyBudgetCents, Clamped(r.dailyCap), Clamped(r.hourlyCap))
  }

  /** The last row of the campaign. */
  function CampaignIn(rows: seq<CampaignRow>, c: CampaignId): Option<Campaign> {
    if rows == [] then None
    else
      var last := rows[|rows| - 1];
      if U32(last.id) == c then Some(CampaignOf(last)) else CampaignIn(rows[..|rows| - 1], c)
  }

  /** The creatives of the campaign, in row order; rows of unknown format are skipped. */
  function CreativesIn(rows: seq<CreativeRow>, c: CampaignId): seq<Creative> {
    if rows == [] then []
    else
      var last := rows[|rows| - 1];
      CreativesIn(rows[..|rows| - 1], c)
      + if U32(last.campaignId) == c && ParseFormat(last.adFormat).Some?
        then [Creative(U32(last.id), ParseFormat(last.adFormat).value)] else []
  }

  /** The campaign is in the last row for the key; earlier rows are overwritten. */
  ghost predicate ListedLast<R, K>(rows: seq<TargetRow<R>>, key: R -> K, k: K, c: CampaignId) {
    exists i :: 0 <= i < |rows| && key(rows[i].key) == k && c in Ids(rows[i].campaignIds)
      && forall j :: i < j < |rows| ==> key(rows[j].key) != k
  }

  /** The campaign is in some row for the key; rows of unknown key are skipped. */
  ghost predicate ListedAny<R, K>(rows: seq<TargetRow<R>>, key: R -> Option<K>, k: K, c: CampaignId) {
    exists i :: 0 <= i < |rows| && key(rows[i].key) == Some(k) && c in Ids(rows[i].campaignIds)
  }

  /** The campaign is in some row of known key. */
  ghost predicate Restricted<R, K>(rows: seq<TargetRow<R>>, key: R -> Option<K>, c: CampaignId) {
    exists i :: 0 <= i < |rows| && key(rows[i].key).Some? && c in Ids(rows[i].campaignIds)
  }

  function Ids(ids: seq<int>): Bitmap { set i | i in ids :: U32(i) }

  // Building.

  method ToBitmap(ids: seq<int>) returns (bm: Bitmap)
    ensures bm == Ids(ids)
  {
    bm := {};
    for i := 0 to |ids|
      invariant bm == Ids(ids[..i])
    {
      assert ids[..i + 1] == ids[..i] + [ids[i]];
      bm := bm + {U32(ids[i])};
    }
    assert ids[..|ids|] == ids;
  }

  predicate Indexed<K(==)>(m: map<K, Bitmap>, k: K, c: CampaignId) { k in m && c in m[k] }

  /** Segment and geo index: one bitmap per row, later rows overwrite. */
  method IndexLast<R, K(==, !new)>(rows: seq<TargetRow<R>>, key: R -> K) returns (m: map<K, Bitmap>)
    ensures forall k, c :: Indexed(m, k, c) <==> ListedLast(rows, key, k, c)
  {
    m := map[];
    for i := 0 to |rows|
      invariant forall k, c :: Indexed(m, k, c) <==> ListedLast(rows[..i], key, k, c)
    {
      var bm := ToBitmap(rows[i].campaignIds);
      m := m[key(rows[i].key) := bm];
      forall k, c ensures Indexed(m, k, c) <==> ListedLast(rows[..i + 1], key, k, c) {
        ListedLastStep(rows[..i + 1], key, k, c);
        assert rows[..i + 1][..i] == rows[..i];
      }
    }
    assert rows[..|rows|] == rows;
  }

  lemma ListedLastStep<R, K>(rows: seq<TargetRow<R>>, key: R -> K, k: K, c: CampaignId)
    requires rows != []
    ensures var n := |rows| - 1;
      ListedLast(rows, key, k, c) <==>
      if key(rows[n].key) == k then c in Ids(rows[n].campaignIds) else ListedLast(rows[..n], key, k, c)
  {
    var n := |rows| - 1;
    if key(rows[n].key) != k && ListedLast(rows[..n], key, k, c) {
      var i :| 0 <= i < n && key(rows[..n][i].key) == k && c in Ids(rows[..n][i].campaignIds)
        && forall j :: i < j < n ==> key(rows[..n][j].key) != k;
      assert forall j :: i < j < |rows| ==> key(rows[j].key) != k;
    }
    if key(rows[n].key) != k && ListedLast(rows, key, k, c) {
      var i :| 0 <= i < |rows| && key(rows[i].key) == k && c in Ids(rows[i].campaignIds)
        && forall j :: i < j < |rows| ==> key(rows[j].key) != k;
      assert key(rows[..n][i].key) == k && forall j :: i < j < n ==> key(rows[..n][j].key) != k;
    }
  }

  /** Device and format index: rows of one key are merged; the campaigns seen in any
      known row are the restricted ones. */
  method IndexMerged<R, K(==, !new)>(rows: seq<TargetRow<R>>, key: R -> Option<K>)
    returns (m: map<K, Bitmap>, restricted: Bitmap)
    ensures forall k, c :: Indexed(m, k, c) <==> ListedAny(rows, key, k, c)
    ensures forall c :: c in restricted <==> Restricted(rows, key, c)
  {
    m, restricted := map[], {};
    for i := 0 to |rows|
      invariant forall k, c :: Indexed(m, k, c) <==> ListedAny(rows[..i], key, k, c)
      invariant forall c :: c in restricted <==> Restricted(rows[..i], key, c)
    {
      forall k, c ensures MergedStep(rows, key, i, k, c) {
        MergedStepHolds(rows, key, i, k, c);
      }
      ghost var before := m;
      if key(rows[i].key).Some? {
        var k := key(rows[i].key).value;
        var bm := ToBitmap(rows[i].campaignIds);
        restricted := restricted + bm;
        m := m[k := (if k in m then m[k] else {}) + bm];
      }
      forall k, c ensures Indexed(m, k, c) <==> ListedAny(rows[..i + 1], key, k, c) {
        assert MergedStep(rows, key, i, k, c);
        assert Indexed(before, k, c) <==> ListedAny(rows[..i], key, k, c);
      }
    }
    assert rows[..|rows|] == rows;
  }

  ghost predicate MergedStep<R, K>(rows: seq<TargetRow<R>>, key: R -> Option<K>, i: nat, k: K, c: CampaignId)
    requires i < |rows|
  {
    var here := c in Ids(rows[i].campaignIds);
    && (ListedAny(rows[..i + 1], key, k, c) <==>
          ListedAny(rows[..i], key, k, c) || (key(rows[i].key) == Some(k) && here))
    && (Restricted(rows[..i + 1], key, c) <==> Restricted(rows[..i], key, c) || (key(rows[i].key).Some? && here))
  }

  lemma MergedStepHolds<R, K>(rows: seq<TargetRow<R>>, key: R -> Option<K>, i: nat, k: K, c: CampaignId)
    requires i < |rows|
    ensures MergedStep(rows, key, i, k, c)
  {
    assert rows[..i + 1] == rows[..i] + [rows[i]];
    var a, b := rows[..i], rows[..i + 1];
    assert forall j :: 0 <= j < i ==> a[j] == b[j];
    assert b[i] == rows[i];
  }

  method BuildCampaigns(rows: seq<CampaignRow>) returns (campaigns: map<CampaignId, Campaign>, all: Bitmap)
    ensures all == campaigns.Keys
    ensures forall c :: Get(campaigns, c) == CampaignIn(rows, c)
  {
    campaigns, all := map[], {};
    for i := 0 to |rows|
      invariant all == campaigns.Keys
      invariant forall c :: Get(campaigns, c) == CampaignIn(rows[..i], c)
    {
      assert rows[..i + 1][..i] == rows[..i];
      var id := U32(rows[i].id);
      all := all + {id};
      campaigns := campaigns[id := CampaignOf(rows[i])];
    }
    assert rows[..|rows|] == rows;
  }

  function Get<V>(m: map<CampaignId, V>, c: CampaignId): Option<V> {
    if c in m then Some(m[c]) else None
  }

  /** `creatives_for`. */
  function CreativesFor(m: map<CampaignId, seq<Creative>>, c: CampaignId): seq<Creative> {
    if c in m then m[c] else []
  }

  method BuildCreatives(rows: seq<CreativeRow>) returns (creatives: map<CampaignId, seq<Creative>>)
    ensures forall c :: CreativesFor(creatives, c) == CreativesIn(rows, c)
  {
    creatives := map[];
    for i := 0 to |rows|
      invariant forall c :: CreativesFor(creatives, c) == CreativesIn(rows[..i], c)
    {
      assert rows[..i + 1][..i] == rows[..i];
      var cid := U32(rows[i].campaignId);
      if ParseFormat(rows[i].adFormat).Some? {
        var creative := Creative(U32(rows[i].id), ParseFormat(rows[i].adFormat).value);
        creatives := creatives[cid := CreativesFor(creatives, cid) + [creative]];
      }
    }
    assert rows[..|rows|] == rows;
  }

  /** The catalog says of every campaign what the rows say. */
  ghost predicate BuiltFrom(cat: CampaignCatalog, rows: Rows) {
    && cat.allCampaigns == cat.campaigns.Keys
    && (forall c :: Get(cat.campaigns, c) == CampaignIn(rows.campaigns, c))
    && (forall c :: CreativesFor(cat.creatives, c) == CreativesIn(rows.creatives, c))
    && (forall k, c :: Indexed(cat.segmentTo, k, c) <==> ListedLast(rows.segments, SegmentKey, k, c))
    && (forall k, c :: Indexed(cat.geoTo, k, c) <==> ListedLast(rows.geos, GeoKeyOf, k, c))
    && (forall k, c :: Indexed(cat.deviceTo, k, c) <==> ListedAny(rows.devices, ParseDevice, k, c))
    && (forall k, c :: Indexed(cat.formatTo, k, c) <==> ListedAny(rows.formats, ParseFormat, k, c))
    && (forall c :: c in cat.deviceUnrestricted <==> c in cat.allCampaigns && !Restricted(rows.devices, ParseDevice, c))
    && (forall c :: c in cat.formatUnrestricted <==> c in cat.allCampaigns && !Restricted(rows.formats, ParseFormat, c))
    && cat.daypartActiveNow == Ids(rows.dayparts)
  }

  method Build(rows: Rows) returns (cat: CampaignCatalog)
    ensures BuiltFrom(cat, rows)
  {
    var campaigns, all := BuildCampaigns(rows.campaigns);
    var creatives := BuildCreatives(rows.creatives);
    var segmentTo := IndexLast(rows.segments, SegmentKey);
    var geoTo := IndexLast(rows.geos, GeoKeyOf);
    var deviceTo, deviceRestricted := IndexMerged(rows.devices, ParseDevice);
    var formatTo, formatRestricted := IndexMerged(rows.formats, ParseFormat);
    var daypart := ToBitmap(rows.dayparts);
    cat := CampaignCatalog(campaigns, creatives, segmentTo, geoTo, deviceTo, formatTo, daypart, all,
                           all - deviceRestricted, all - formatRestricted);
  }

  // Retrieval.

  datatype CandidateRequest = CandidateRequest(
    segmentIds: seq<SegmentId>, geoKeys: Option<seq<GeoKey>>, deviceType: Option<Device>, adFormat: Option<AdFormat>)

  ghost predicate InUnion<K>(m: map<K, Bitmap>, keys: seq<K>, c: CampaignId) {
    exists k :: k in keys && Indexed(m, k, c)
  }

  /** The union of the bitmaps of the keys. */
  method Union<K(==)>(m: map<K, Bitmap>, keys: seq<K>) returns (union: Bitmap)
    ensures forall c :: c in union <==> InUnion(m, keys, c)
  {
    union := {};
    for i := 0 to |keys|
      invariant forall c :: c in union <==> InUnion(m, keys[..i], c)
    {
      assert keys[..i + 1] == keys[..i] + [keys[i]];
      ghost var before := union;
      if keys[i] in m {
        union := union + m[keys[i]];
      }
      forall c ensures c in union <==> InUnion(m, keys[..i + 1], c) {
        assert c in before <==> InUnion(m, keys[..i], c);
        assert c in union <==> c in before || Indexed(m, keys[i], c);
      }
    }
    assert keys[..|keys|] == keys;
  }

  /** The request or the catalog restricts this dimension. */
  predicate HasGeo(req: CandidateRequest) { req.geoKeys.Some? && req.geoKeys.value != [] }

  predicate Unfiltered(cat: CampaignCatalog, req: CandidateRequest) {
    req.segmentIds == [] && !HasGeo(req) && req.deviceType.None? && req.adFormat.None? && cat.daypartActiveNow == {}
  }

  /** The campaign passes every filter that applies. */
  ghost predicate Passes(cat: CampaignCatalog, req: CandidateRequest, c: CampaignId) {
    && (req.segmentIds != [] ==> InUnion(cat.segmentTo, req.segmentIds, c))
    && (HasGeo(req) ==> InUnion(cat.geoTo, req.geoKeys.value, c))
    && (req.deviceType.Some? ==> c in cat.deviceUnrestricted || Indexed(cat.deviceTo, req.deviceType.value, c))
    && (req.adFormat.Some? ==> c in cat.formatUnrestricted || Indexed(cat.formatTo, req.adFormat.value, c))
    && (cat.daypartActiveNow != {} ==> c in cat.daypartActiveNow)
  }

  /** The bitmap of the request: empty without campaigns, the universe if nothing filters,
      else whatever passes every filter, known to the catalog or not. */
  ghost predicate Retrieved(cat: CampaignCatalog, req: CandidateRequest, r: Bitmap) {
    && (cat.allCampaigns == {} ==> r == {})
    && (cat.allCampaigns != {} && Unfiltered(cat, req) ==> r == cat.allCampaigns)
    && (cat.allCampaigns != {} && !Unfiltered(cat, req) ==> forall c :: c in r <==> Passes(cat, req, c))
  }

  function Narrowed(result: Option<Bitmap>, filter: Bitmap): Option<Bitmap> {
    match result
    case Some(r) => Some(r * filter)
    case None => Some(filter)
  }

  /** The lazy form: `None` stands for the universe, which is only copied when no filter
      fires. The result may name campaigns the catalog does not know. */
  method CandidatesFor(cat: CampaignCatalog, req: CandidateRequest) returns (r: Bitmap)
    ensures Retrieved(cat, req, r)
  {
    if cat.allCampaigns == {} {
      return {};
    }
    var result: Option<Bitmap> := None;
    if req.segmentIds != [] {
      var union := Union(cat.segmentTo, req.segmentIds);
      result := Some(union);
    }
    if req.geoKeys.Some? && req.geoKeys.value != [] {
      var union := Union(cat.geoTo, req.geoKeys.value);
      result := Narrowed(result, union);
    }
    if req.deviceType.Some? {
      var eligible := cat.deviceUnrestricted;
      if req.deviceType.value in cat.deviceTo {
        eligible := eligible + cat.deviceTo[req.deviceType.value];
      }
      result := Narrowed(result, eligible);
    }
    if req.adFormat.Some? {
      var eligible := cat.formatUnrestricted;
      if req.adFormat.value in cat.formatTo {
        eligible := eligible + cat.formatTo[req.adFormat.value];
      }
      result := Narrowed(result, eligible);
    }
    if cat.daypartActiveNow != {} {
      result := Narrowed(result, cat.daypartActiveNow);
    }
    r := match result case Some(bm) => bm case None => cat.allCampaigns;
  }

  /** The first creative that fits the format; any fits when the request names none. */
  function FirstFit(creatives: seq<Creative>, format: Option<AdFormat>): Option<Creative> {
    if creatives == [] then None
    else if format.None? || creatives[0].adFormat == format.value then Some(creatives[0])
    else FirstFit(creatives[1..], format)
  }

  /** A retrieved campaign as a candidate, bidding its floor, not yet scored. */
  function CandidateOf(c: CampaignId, campaign: Option<Campaign>, creatives: seq<Creative>, format: Option<AdFormat>):
    Option<AdCandidate>
  {
    match (campaign, FirstFit(creatives, format))
    case (Some(m), Some(cr)) => Some(AdCandidate(c, cr.id, m.bidFloorCents, 0.0, m.dailyCapImps, m.hourlyCapImps))
    case _ => None
  }

  function Listing(c: Option<AdCandidate>): seq<AdCandidate> {
    match c
    case Some(x) => [x]
    case None => []
  }

  // The reference: one campaign at a time, straight from the rows.

  ghost predicate Serves(rows: Rows, req: CandidateRequest, c: CampaignId) {
    && CampaignIn(rows.campaigns, c).Some?
    && (req.segmentIds == [] || exists k :: k in req.segmentIds && ListedLast(rows.segments, SegmentKey, k, c))
    && (req.geoKeys.None? || req.geoKeys.value == []
        || exists k :: k in req.geoKeys.value && ListedLast(rows.geos, GeoKeyOf, k, c))
    && (req.deviceType.None? || !Restricted(rows.devices, ParseDevice, c)
        || ListedAny(rows.devices, ParseDevice, req.deviceType.value, c))
    && (req.adFormat.None? || !Restricted(rows.formats, ParseFormat, c)
        || ListedAny(rows.formats, ParseFormat, req.adFormat.value, c))
    && (rows.dayparts == [] || c in Ids(rows.dayparts))
  }

  ghost function LinearScan(rows: Rows, req: CandidateRequest, n: nat): seq<AdCandidate>
    requires n <= 0x1_0000_0000
  {
    if n == 0 then []
    else
      LinearScan(rows, req, n - 1)
      + if Serves(rows, req, n - 1)
        then Listing(CandidateOf(
          n - 1, CampaignIn(rows.campaigns, n - 1), CreativesIn(rows.creatives, n - 1), req.adFormat))
        else []
  }

  /** The eager form: start from the universe and intersect with every filter. */
  ghost predicate Eager(cat: CampaignCatalog, req: CandidateRequest, c: CampaignId) {
    c in cat.allCampaigns && Passes(cat, req, c)
  }

  /** Once unknown campaigns are dropped, the lazy form is the eager one, whatever the
      index rows name. */
  lemma LazyIsEager(cat: CampaignCatalog, req: CandidateRequest, r: Bitmap, c: CampaignId)
    requires Retrieved(cat, req, r)
    ensures c in cat.allCampaigns && c in r <==> Eager(cat, req, c)
  {
  }

  lemma EagerIsServes(cat: CampaignCatalog, rows: Rows, req: CandidateRequest, c: CampaignId)
    requires BuiltFrom(cat, rows)
    ensures Eager(cat, req, c) <==> Serves(rows, req, c)
  {
    assert Get(cat.campaigns, c) == CampaignIn(rows.campaigns, c);
    assert cat.daypartActiveNow == {} <==> rows.dayparts == [] by {
      if rows.dayparts != [] {
        assert U32(rows.dayparts[0]) in Ids(rows.dayparts);
      }
    }
  }

  /** The candidates of the eager form, in ascending order of campaign. */
  ghost function EagerList(cat: CampaignCatalog, req: CandidateRequest, n: nat): seq<AdCandidate>
    requires n <= 0x1_0000_0000
  {
    if n == 0 then []
    else
      EagerList(cat, req, n - 1)
      + if Eager(cat, req, n - 1)
        then Listing(CandidateOf(n - 1, Get(cat.campaigns, n - 1), CreativesFor(cat.creatives, n - 1), req.adFormat))
        else []
  }

  const ALL_IDS: nat := 0x1_0000_0000

  /** Retrieval for one impression: the lazy bitmap, expanded in ascending order; ids the
      catalog does not know and campaigns without a fitting creative are skipped. */
  method Retrieve(cat: CampaignCatalog, req: CandidateRequest) returns (candidates: seq<AdCandidate>)
    requires cat.allCampaigns == cat.campaigns.Keys
    ensures candidates == EagerList(cat, req, ALL_IDS) && DistinctIds(candidates)
  {
    var ids := CandidatesFor(cat, req);
    candidates := [];
    for id := 0 to ALL_IDS
      invariant candidates == EagerList(cat, req, id)
    {
      LazyIsEager(cat, req, ids, id);
      if id in ids {
        var campaign, creatives := Get(cat.campaigns, id), CreativesFor(cat.creatives, id);
        candidates := candidates + Listing(CandidateOf(id, campaign, creatives, req.adFormat));
      }
    }
    EagerListDistinct(cat, req, ALL_IDS);
  }

  /** For all rows and requests: the candidates retrieved through loader-built indices are
      those a linear scan of the rows finds, in the same order. */
  lemma {:induction false} RetrievalIsScan(cat: CampaignCatalog, rows: Rows, req: CandidateRequest, n: nat)
    requires BuiltFrom(cat, rows) && n <= 0x1_0000_0000
    ensures EagerList(cat, req, n) == LinearScan(rows, req, n)
    decreases n
  {
    if n > 0 {
      RetrievalIsScan(cat, rows, req, n - 1);
      EagerIsServes(cat, rows, req, n - 1);
      assert Get(cat.campaigns, n - 1) == CampaignIn(rows.campaigns, n - 1);
    }
  }

  /** Retrieval yields each campaign at most once, in ascending order. */
  lemma {:induction false} EagerListDistinct(cat: CampaignCatalog, req: CandidateRequest, n: nat)
    requires n <= 0x1_0000_0000
    ensures forall i :: 0 <= i < |EagerList(cat, req, n)| ==> EagerList(cat, req, n)[i].campaignId < n
    ensures DistinctIds(EagerList(cat, req, n))
    decreases n
  {
    if n > 0 {
      EagerListDistinct(cat, req, n - 1);
    }
  }

  // Candidates in terms of the rows alone.

  predicate Fits(cr: Creative, format: Option<AdFormat>) { format.None? || cr.adFormat == format.value }

  /** `FirstFit` finds nothing exactly when nothing fits; else the first creative that does. */
  lemma {:induction false} FirstFitIs(creatives: seq<Creative>, format: Option<AdFormat>)
    ensures FirstFit(creatives, format) == None <==> forall i :: 0 <= i < |creatives| ==> !Fits(creatives[i], format)
    ensures FirstFit(creatives, format).Some? ==>
      exists i :: 0 <= i < |creatives| && creatives[i] == FirstFit(creatives, format).value
        && Fits(creatives[i], format) && (forall j :: 0 <= j < i ==> !Fits(creatives[j], format))
  {
    if creatives != [] && !Fits(creatives[0], format) {
      var rest := creatives[1..];
      FirstFitIs(rest, format);
      assert forall i :: 1 <= i < |creatives| ==> creatives[i] == rest[i - 1];
      if FirstFit(rest, format).Some? {
        var i :| 0 <= i < |rest| && rest[i] == FirstFit(rest, format).value
          && Fits(rest[i], format) && (forall j :: 0 <= j < i ==> !Fits(rest[j], format));
        assert creatives[i + 1] == rest[i];
      }
    }
  }

  lemma {:induction false} FirstFitAppend(creatives: seq<Creative>, x: Creative, format: Option<AdFormat>)
    ensures FirstFit(creatives + [x], format)
         == if FirstFit(creatives, format).Some? then FirstFit(creatives, format)
            else if Fits(x, format) then Some(x) else None
  {
    if creatives == [] {
      assert creatives + [x] == [x] && [x][1..] == [];
    } else {
      assert (creatives + [x])[1..] == creatives[1..] + [x];
      FirstFitAppend(creatives[1..], x, format);
    }
  }

  /** A creative row of the campaign, of known format, that the request can take. */
  predicate FittingRow(row: CreativeRow, c: CampaignId, format: Option<AdFormat>) {
    var known := ParseFormat(row.adFormat);
    row.campaignId % 0x1_0000_0000 == c && known.Some? && (format.None? || format == known)
  }

  predicate FirstRow(rows: seq<CreativeRow>, c: CampaignId, format: Option<AdFormat>, j: int) {
    0 <= j < |rows| && FittingRow(rows[j], c, format) && forall k :: 0 <= k < j ==> !FittingRow(rows[k], c, format)
  }

  predicate LastRow(rows: seq<CampaignRow>, c: CampaignId, i: int) {
    && 0 <= i < |rows| && rows[i].id % 0x1_0000_0000 == c
    && forall k :: i < k < |rows| ==> rows[k].id % 0x1_0000_0000 != c
  }

  /** The creative comes from the first creative row that fits. */
  ghost predicate ServesRow(rows: seq<CreativeRow>, c: CampaignId, format: Option<AdFormat>, id: CreativeId) {
    exists j :: FirstRow(rows, c, format, j) && id == rows[j].id % 0x1_0000_0000
  }

  /** Price and caps come from the last row of the campaign, each from its own column. */
  ghost predicate PricedBy(rows: seq<CampaignRow>, x: AdCandidate) {
    exists i :: LastRow(rows, x.campaignId, i) && RowPrices(rows[i], x)
  }

  predicate RowPrices(row: CampaignRow, x: AdCandidate) {
    && x.bidPriceCents == row.bidFloorCents
    && x.dailyCapImps == (if row.dailyCap < 0 then 0 else row.dailyCap)
    && x.hourlyCapImps == (if row.hourlyCap < 0 then 0 else row.hourlyCap)
  }

  lemma {:induction false} FirstFitRows(rows: seq<CreativeRow>, c: CampaignId, format: Option<AdFormat>)
    ensures FirstFit(CreativesIn(rows, c), format).None? ==>
      forall j :: 0 <= j < |rows| ==> !FittingRow(rows[j], c, format)
    ensures FirstFit(CreativesIn(rows, c), format).Some? ==>
      ServesRow(rows, c, format, FirstFit(CreativesIn(rows, c), format).value.id)
  {
    if rows != [] {
      var n := |rows| - 1;
      var before, last := CreativesIn(rows[..n], c), rows[n];
      FirstFitRows(rows[..n], c, format);
      assert forall j :: 0 <= j < n ==> rows[..n][j] == rows[j];
      if U32(last.campaignId) == c && ParseFormat(last.adFormat).Some? {
        FirstFitAppend(before, Creative(U32(last.id), ParseFormat(last.adFormat).value), format);
      } else {
        assert before + [] == before;
      }
      if FirstFit(before, format).Some? {
        var id := FirstFit(before, format).value.id;
        var j :| FirstRow(rows[..n], c, format, j) && id == rows[..n][j].id % 0x1_0000_0000;
        assert FirstRow(rows, c, format, j);
      } else if FittingRow(last, c, format) {
        assert FirstRow(rows, c, format, n);
      }
    }
  }

  lemma {:induction false} CampaignInRows(rows: seq<CampaignRow>, c: CampaignId, x: AdCandidate)
    requires x.campaignId == c
    ensures CampaignIn(rows, c).None? ==> forall i :: 0 <= i < |rows| ==> rows[i].id % 0x1_0000_0000 != c
    ensures CampaignIn(rows, c).Some? ==>
      var m := CampaignIn(rows, c).value;
      PricedBy(rows, x) <==>
        x.bidPriceCents == m.bidFloorCents && x.dailyCapImps == m.dailyCapImps && x.hourlyCapImps == m.hourlyCapImps
  {
    if rows != [] {
      var n := |rows| - 1;
      CampaignInRows(rows[..n], c, x);
      assert forall i :: 0 <= i < n ==> rows[..n][i] == rows[i];
      if U32(rows[n].id) == c {
        assert LastRow(rows, c, n);
      } else {
        LastRowBefore(rows, c, x);
      }
    }
  }

  lemma LastRowBefore(rows: seq<CampaignRow>, c: CampaignId, x: AdCandidate)
    requires rows != [] && rows[|rows| - 1].id % 0x1_0000_0000 != c && x.campaignId == c
    ensures PricedBy(rows, x) <==> PricedBy(rows[..|rows| - 1], x)
  {
    var init := rows[..|rows| - 1];
    assert forall i :: 0 <= i < |init| ==> init[i] == rows[i];
    if PricedBy(rows, x) {
      var i :| LastRow(rows, c, i) && RowPrices(rows[i], x);
      assert LastRow(init, c, i) && RowPrices(init[i], x);
    }
    if PricedBy(init, x) {
      var i :| LastRow(init, c, i) && RowPrices(init[i], x);
      assert LastRow(rows, c, i) && RowPrices(rows[i], x);
    }
  }

  lemma OneFirstRow(rows: seq<CreativeRow>, c: CampaignId, format: Option<AdFormat>, a: CreativeId, b: CreativeId)
    requires ServesRow(rows, c, format, a) && ServesRow(rows, c, format, b)
    ensures a == b
  {
    var i :| FirstRow(rows, c, format, i) && a == rows[i].id % 0x1_0000_0000;
    var j :| FirstRow(rows, c, format, j) && b == rows[j].id % 0x1_0000_0000;
    assert i == j;
  }

  lemma CandidateOfRows(rows: Rows, format: Option<AdFormat>, x: AdCandidate)
    ensures var c := x.campaignId;
      CandidateOf(c, CampaignIn(rows.campaigns, c), CreativesIn(rows.creatives, c), format) == Some(x)
      <==> PricedBy(rows.campaigns, x) && ServesRow(rows.creatives, c, format, x.creativeId) && x.score == 0.0
  {
    var c := x.campaignId;
    CampaignInRows(rows.campaigns, c, x);
    FirstFitRows(rows.creatives, c, format);
    var fit := FirstFit(CreativesIn(rows.creatives, c), format);
    if fit.Some? && ServesRow(rows.creatives, c, format, x.creativeId) {
      OneFirstRow(rows.creatives, c, format, fit.value.id, x.creativeId);
    }
  }

  /** The candidate is one the rows call for: its campaign passes every rule, its price and
      caps are those of the campaign's last row, its creative the first that fits. */
  ghost predicate Matches(rows: Rows, req: CandidateRequest, x: AdCandidate) {
    && Serves(rows, req, x.campaignId) && x.score == 0.0
    && PricedBy(rows.campaigns, x) && ServesRow(rows.creatives, x.campaignId, req.adFormat, x.creativeId)
  }

  lemma {:induction false} ScanMembers(rows: Rows, req: CandidateRequest, n: nat, x: AdCandidate)
    requires n <= 0x1_0000_0000
    ensures x in LinearScan(rows, req, n) <==> x.campaignId < n && Matches(rows, req, x)
    decreases n
  {
    if n > 0 {
      ScanMembers(rows, req, n - 1, x);
      if x.campaignId == n - 1 {
        CandidateOfRows(rows, req.adFormat, x);
      }
    }
  }

  /** For all rows, requests and candidates: retrieval through loader-built indices yields the
      candidate exactly when the rows call for it. */
  lemma RetrievedIff(cat: CampaignCatalog, rows: Rows, req: CandidateRequest, x: AdCandidate)
    requires BuiltFrom(cat, rows)
    ensures x in EagerList(cat, req, ALL_IDS) <==> Matches(rows, req, x)
  {
    RetrievalIsScan(cat, rows, req, ALL_IDS);
    ScanMembers(rows, req, ALL_IDS, x);
  }

  /** Every other name is unknown. */
  lemma OtherNames(s: string)
    ensures ParseDevice(s).Some? ==>
      s in ["DESKTOP", "desktop", "MOBILE", "mobile", "TABLET", "tablet", "CTV", "ctv", "OTHER", "other"]
    ensures ParseFormat(s).Some? ==> s in ["BANNER", "banner", "VIDEO", "video", "AUDIO", "audio", "NATIVE", "native"]
  {
  }

  /** The names of devices and formats in the rows, in either case, and the two kinds of place. */
  lemma RowNames(code: string)
    ensures ParseDevice("DESKTOP") == ParseDevice("desktop") == Some(Desktop)
    ensures ParseDevice("MOBILE") == ParseDevice("mobile") == Some(Mobile)
    ensures ParseDevice("TABLET") == ParseDevice("tablet") == Some(Tablet)
    ensures ParseDevice("CTV") == ParseDevice("ctv") == Some(Ctv)
    ensures ParseDevice("OTHER") == ParseDevice("other") == Some(Other)
    ensures ParseFormat("BANNER") == ParseFormat("banner") == Some(Banner)
    ensures ParseFormat("VIDEO") == ParseFormat("video") == Some(Video)
    ensures ParseFormat("AUDIO") == ParseFormat("audio") == Some(Audio)
    ensures ParseFormat("NATIVE") == ParseFormat("native") == Some(Native)
    ensures GeoKeyOf(("country", code)) == GeoKey(Country, code) && GeoKeyOf(("metro", code)) == GeoKey(Metro, code)
  {
  }
}
