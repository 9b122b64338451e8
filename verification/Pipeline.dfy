/** The bid pipeline: nine stages over one request context, cut short by a deadline or a
    no-bid (pipeline/mod.rs, pipeline/stages, main.rs:217-243). */
module Pipeline {
  import opened Common
  import opened Catalog
  import opened CandidateLimit
  import opened FrequencyCap
  import opened LocalPacer
  import opened Auction
  import Decimal

  datatype Imp = Imp(id: string, adFormat: Option<AdFormat>)

  /** The parts of a bid request the stages read. */
  datatype BidRequest = BidRequest(
    id: string, imps: seq<Imp>, gdprWithoutConsent: bool, userId: Option<string>,
    geoKeys: Option<seq<GeoKey>>, deviceType: Option<Device>)

  datatype NoBidReason = InvalidRequest | BlockedPrivacy | NoEligibleBids | PipelineDeadline
  datatype Outcome = Pending | NoBid(reason: NoBidReason) | Bid

  datatype BidEntry = BidEntry(
    id: string, impId: string, campaignId: CampaignId, creativeId: CreativeId, bidPriceCents: int, score: real)
  datatype BidResponse = Refusal(id: string, reason: NoBidReason) | Bids(id: string, bids: seq<BidEntry>)

  type Lists = seq<seq<AdCandidate>>
  type CapRecord = (nat, CampaignId, bool)

  class BidContext {
    const request: BidRequest
    var outcome: Outcome
    var segmentIds: seq<SegmentId>
    var catalog: Option<CampaignCatalog>
    var candidates: Lists
    var winners: seq<ImpWinner>
    var freqCapResults: seq<CapRecord>
    var bidResponse: Option<BidResponse>

    constructor (r: BidRequest)
      ensures request == r && New()
    {
      request, outcome, segmentIds, catalog := r, Pending, [], None;
      candidates := seq(if r.imps == [] then 1 else |r.imps|, _ => []);
      winners, freqCapResults, bidResponse := [], [], None;
    }

    /** As the constructor leaves it. */
    ghost predicate New()
      reads this
    {
      && outcome == Pending && segmentIds == [] && catalog == None && winners == [] && freqCapResults == []
      && bidResponse == None && |candidates| == (if request.imps == [] then 1 else |request.imps|)
      && forall i :: 0 <= i < |candidates| ==> candidates[i] == []
    }
  }

  /** What lies behind the traits: the catalog snapshot, the user's segments (none if the
      lookup failed), the scorer and the frequency capper. */
  datatype Services = Services(
    catalog: CampaignCatalog,
    segments: Option<seq<SegmentId>>,
    topK: nat,
    score: (nat, seq<AdCandidate>, nat) -> real,
    capper: (nat, seq<AdCandidate>) -> FreqCapOutcome)

  function SegmentsOf(sv: Services, r: BidRequest): seq<SegmentId> {
    if r.userId.Some? && sv.segments.Some? then sv.segments.value else []
  }

  function CandidateRequestFor(segments: seq<SegmentId>, r: BidRequest, imp: Imp): CandidateRequest {
    CandidateRequest(segments, r.geoKeys, r.deviceType, imp.adFormat)
  }

  /** What the catalog holds for each impression. */
  ghost function FetchedFrom(cat: CampaignCatalog, segments: seq<SegmentId>, r: BidRequest): (lists: Lists)
    ensures |lists| == |r.imps|
  {
    seq(|r.imps|, i requires 0 <= i < |r.imps| => EagerList(cat, CandidateRequestFor(segments, r, r.imps[i]), ALL_IDS))
  }

  ghost function Fetched(sv: Services, r: BidRequest): Lists { FetchedFrom(sv.catalog, SegmentsOf(sv, r), r) }

  function Resized(lists: Lists, n: nat): (r: Lists)
    ensures |r| == n
  {
    seq(n, i requires 0 <= i < n => if i < |lists| then lists[i] else [])
  }

  /** The candidate is one of the list, up to its score. */
  ghost predicate CameFrom(x: AdCandidate, list: seq<AdCandidate>) {
    exists y :: y in list && x == y.(score := x.score)
  }

  /** No campaign occurs twice in the list of impression `i`; each candidate was retrieved
      for that impression and none was reported capped for it. */
  ghost predicate ImpEligible(i: nat, cs: seq<AdCandidate>, list: seq<AdCandidate>, caps: seq<CapRecord>) {
    && DistinctIds(cs)
    && forall x :: x in cs ==> CameFrom(x, list) && (i, x.campaignId, true) !in caps
  }

  ghost predicate Eligible(cands: Lists, fetched: Lists, caps: seq<CapRecord>) {
    && |cands| == |fetched|
    && forall i :: 0 <= i < |cands| ==> ImpEligible(i, cands[i], fetched[i], caps)
  }

  // Sub-lists keep eligibility.

  lemma {:induction false} OnceOnly(cs: seq<AdCandidate>, x: AdCandidate)
    requires DistinctIds(cs)
    ensures multiset(cs)[x] <= 1
  {
    if cs != [] {
      var n := |cs| - 1;
      assert cs == cs[..n] + [cs[n]];
      OnceOnly(cs[..n], x);
      assert forall j :: 0 <= j < n ==> cs[..n][j].campaignId != cs[n].campaignId;
    }
  }

  lemma TwiceOrMore(cs: seq<AdCandidate>, i: nat, j: nat)
    requires i < j < |cs| && cs[i] == cs[j]
    ensures multiset(cs)[cs[i]] >= 2
  {
    assert cs == cs[..j] + [cs[j]] + cs[j + 1..];
    assert cs[..j][i] in multiset(cs[..j]);
  }

  lemma SubListDistinct(cs: seq<AdCandidate>, kept: seq<AdCandidate>)
    requires DistinctIds(cs) && multiset(kept) <= multiset(cs)
    ensures DistinctIds(kept) && forall x :: x in kept ==> x in cs
  {
    forall x | x in kept ensures x in cs {
      assert x in multiset(kept);
    }
    forall i, j | 0 <= i < j < |kept| ensures kept[i].campaignId != kept[j].campaignId {
      if kept[i].campaignId == kept[j].campaignId {
        assert kept[i] in kept && kept[j] in kept;
        var a :| 0 <= a < |cs| && cs[a] == kept[i];
        var b :| 0 <= b < |cs| && cs[b] == kept[j];
        assert a == b;
        TwiceOrMore(kept, i, j);
        OnceOnly(cs, kept[i]);
        assert false;
      }
    }
  }

  // The lists each stage leaves behind.

  /** One impression after scoring: same candidates, new scores. */
  function ScoredList(sv: Services, i: nat, cs: seq<AdCandidate>): (r: seq<AdCandidate>)
    ensures |r| == |cs|
  {
    seq(|cs|, k requires 0 <= k < |cs| => cs[k].(score := sv.score(i, cs, k)))
  }

  function ScoredAll(sv: Services, cands: Lists): (r: Lists)
    ensures |r| == |cands|
  {
    seq(|cands|, i requires 0 <= i < |cands| => ScoredList(sv, i, cands[i]))
  }

  /** The campaigns a check reports capped. */
  function CappedIds(results: seq<CapResult>): seq<CampaignId> {
    if results == [] then []
    else
      var n := |results| - 1;
      CappedIds(results[..n]) + if results[n].capped then [results[n].campaignId] else []
  }

  function CapRecords(i: nat, results: seq<CapResult>): (r: seq<CapRecord>)
    ensures |r| == |results|
  {
    seq(|results|, k requires 0 <= k < |results| => (i, results[k].campaignId, results[k].capped))
  }

  lemma {:induction false} CappedIdsMembers(results: seq<CapResult>, c: CampaignId)
    ensures c in CappedIds(results) <==>
      exists k :: 0 <= k < |results| && results[k].campaignId == c && results[k].capped
  {
    if results != [] {
      var n := |results| - 1;
      CappedIdsMembers(results[..n], c);
      assert forall k :: 0 <= k < n ==> results[..n][k] == results[k];
    }
  }

  /** What a check says of one impression; nothing when it was not asked or gave up. */
  function CapReport(sv: Services, i: nat, cs: seq<AdCandidate>): seq<CapResult> {
    if cs == [] then []
    else
      var outcome := sv.capper(i, cs);
      if outcome.Checked? then outcome.results else []
  }

  /** One impression without the candidates reported capped. */
  function CapFiltered(sv: Services, i: nat, cs: seq<AdCandidate>): seq<AdCandidate> {
    Without(cs, CappedIds(CapReport(sv, i, cs)))
  }

  function CapFilteredAll(sv: Services, cands: Lists): (r: Lists)
    ensures |r| == |cands|
  {
    seq(|cands|, i requires 0 <= i < |cands| => CapFiltered(sv, i, cands[i]))
  }

  /** Everything the checks reported, impression by impression. */
  function CapReports(sv: Services, cands: Lists): seq<CapRecord> {
    if cands == [] then []
    else
      var n := |cands| - 1;
      CapReports(sv, cands[..n]) + CapRecords(n, CapReport(sv, n, cands[n]))
  }

  lemma CapReportsStep(sv: Services, cands: Lists, i: nat, before: seq<CapRecord>)
    requires i < |cands|
    ensures before + CapReports(sv, cands[..i + 1])
         == before + CapReports(sv, cands[..i]) + CapRecords(i, CapReport(sv, i, cands[i]))
  {
    assert cands[..i + 1][..i] == cands[..i];
  }

  lemma {:induction false} CapReportsMembers(sv: Services, cands: Lists, i: nat, c: CampaignId)
    ensures (i, c, true) in CapReports(sv, cands) <==> i < |cands| && c in CappedIds(CapReport(sv, i, cands[i]))
  {
    if cands != [] {
      var n := |cands| - 1;
      CapReportsMembers(sv, cands[..n], i, c);
      var results := CapReport(sv, n, cands[n]);
      CappedIdsMembers(results, c);
      assert (i, c, true) in CapRecords(n, results) <==> i == n && c in CappedIds(results) by {
        if i == n && c in CappedIds(results) {
          var k :| 0 <= k < |results| && results[k].campaignId == c && results[k].capped;
          assert CapRecords(n, results)[k] == (n, c, true);
        }
      }
    }
  }

  /** A candidate stays exactly when it was not reported capped for its impression. */
  lemma CapFilterExact(sv: Services, cands: Lists, i: nat, x: AdCandidate)
    requires i < |cands|
    ensures x in CapFilteredAll(sv, cands)[i] <==> x in cands[i] && (i, x.campaignId, true) !in CapReports(sv, cands)
  {
    WithoutMembers(cands[i], CappedIds(CapReport(sv, i, cands[i])));
    CapReportsMembers(sv, cands, i, x.campaignId);
  }

  /** Filtering keeps eligibility, now against what was reported. */
  lemma CapFilterEligible(sv: Services, cands: Lists, fetched: Lists)
    requires Eligible(cands, fetched, [])
    ensures Eligible(CapFilteredAll(sv, cands), fetched, CapReports(sv, cands))
    ensures forall i, x :: 0 <= i < |cands| ==>
      (x in CapFilteredAll(sv, cands)[i] <==> x in cands[i] && (i, x.campaignId, true) !in CapReports(sv, cands))
  {
    var kept, caps := CapFilteredAll(sv, cands), CapReports(sv, cands);
    forall i | 0 <= i < |kept| ensures ImpEligible(i, kept[i], fetched[i], caps) {
      assert ImpEligible(i, cands[i], fetched[i], []);
      WithoutDistinct(cands[i], CappedIds(CapReport(sv, i, cands[i])));
      forall x: AdCandidate | x in kept[i] ensures x in cands[i] && (i, x.campaignId, true) !in caps {
        CapFilterExact(sv, cands, i, x);
      }
    }
    forall i, x | 0 <= i < |cands| ensures x in kept[i] <==> x in cands[i] && (i, x.campaignId, true) !in caps {
      CapFilterExact(sv, cands, i, x);
    }
  }

  /** Asked about the impression, the capper answers and says of the campaign whether it is capped. */
  ghost predicate Says(sv: Services, i: nat, cs: seq<AdCandidate>, c: CampaignId, capped: bool) {
    && cs != [] && sv.capper(i, cs).Checked?
    && exists k :: 0 <= k < |sv.capper(i, cs).results|
         && sv.capper(i, cs).results[k].campaignId == c && sv.capper(i, cs).results[k].capped == capped
  }

  lemma {:induction false} CapReportsByCapper(sv: Services, cands: Lists, i: nat, c: CampaignId, capped: bool)
    ensures (i, c, capped) in CapReports(sv, cands) <==> i < |cands| && Says(sv, i, cands[i], c, capped)
  {
    if cands != [] {
      var n := |cands| - 1;
      CapReportsByCapper(sv, cands[..n], i, c, capped);
      var records := CapRecords(n, CapReport(sv, n, cands[n]));
      if i == n && Says(sv, n, cands[n], c, capped) {
        var results := sv.capper(n, cands[n]).results;
        var k :| 0 <= k < |results| && results[k].campaignId == c && results[k].capped == capped;
        assert records[k] == (n, c, capped);
      }
      if (i, c, capped) in records {
        var k :| 0 <= k < |records| && records[k] == (i, c, capped);
        assert i == n && Says(sv, n, cands[n], c, capped);
      }
    }
  }

  ghost predicate ImpCapped(sv: Services, i: nat, before: seq<AdCandidate>, after: seq<AdCandidate>) {
    forall x :: x in after <==> x in before && !Says(sv, i, before, x.campaignId, true)
  }

  /** Each impression loses exactly the campaigns the capper calls capped for it, and every answer
      of the capper is on record, with its impression. */
  ghost predicate CapsApplied(sv: Services, before: Lists, after: Lists, records: seq<CapRecord>) {
    && |after| == |before|
    && (forall i :: 0 <= i < |before| ==> ImpCapped(sv, i, before[i], after[i]))
    && (forall i: nat, c: CampaignId, capped: bool ::
          (i, c, capped) in records <==> i < |before| && Says(sv, i, before[i], c, capped))
  }

  lemma CapsAreApplied(sv: Services, cands: Lists)
    ensures CapsApplied(sv, cands, CapFilteredAll(sv, cands), CapReports(sv, cands))
  {
    var after, records := CapFilteredAll(sv, cands), CapReports(sv, cands);
    forall i | 0 <= i < |cands| ensures ImpCapped(sv, i, cands[i], after[i]) {
      forall x ensures x in after[i] <==> x in cands[i] && !Says(sv, i, cands[i], x.campaignId, true) {
        CapFilterExact(sv, cands, i, x);
        CapReportsByCapper(sv, cands, i, x.campaignId, true);
      }
    }
    forall i: nat, c: CampaignId, capped: bool
      ensures (i, c, capped) in records <==> i < |cands| && Says(sv, i, cands[i], c, capped)
    {
      CapReportsByCapper(sv, cands, i, c, capped);
    }
  }

  function ImpIds(r: BidRequest): (ids: seq<string>)
    ensures |ids| == |r.imps|
  {
    seq(|r.imps|, i requires 0 <= i < |r.imps| => r.imps[i].id)
  }

  function EntryFor(requestId: string, w: ImpWinner): BidEntry {
    BidEntry(requestId + "-" + w.impId, w.impId, w.campaignId, w.creativeId, w.bidPriceCents, w.score)
  }

  function EntriesFor(requestId: string, ws: seq<ImpWinner>): (r: seq<BidEntry>)
    ensures |r| == |ws|
  {
    seq(|ws|, k requires 0 <= k < |ws| => EntryFor(requestId, ws[k]))
  }

  /** Every counter is lower by all that the surviving candidates of its campaign bid. */
  ghost predicate CostsBids(before: Counters, after: Counters, cands: Lists) {
    forall c: CampaignId :: At(after, c) == At(before, c) - HeldAll(cands, c)
  }

  /** Every counter is lower by what the winners of its campaign bid. */
  ghost predicate CostsWinners(before: Counters, after: Counters, winners: seq<ImpWinner>) {
    forall c: CampaignId :: At(after, c) == At(before, c) - Spent(winners, c)
  }

  predicate Malformed(r: BidRequest) { r.id == "" || r.imps == [] }

  predicate Refusable(r: BidRequest) { Malformed(r) || r.gdprWithoutConsent }

  predicate NoneLeft(cands: Lists) { forall i :: 0 <= i < |cands| ==> cands[i] == [] }

  lemma {:induction false} NothingListed(cs: seq<AdCandidate>)
    ensures Without(cs, []) == cs
  {
    if cs != [] {
      NothingListed(cs[..|cs| - 1]);
    }
  }

  lemma {:induction false} EagerListNothing(cat: CampaignCatalog, req: CandidateRequest, n: nat)
    requires cat.allCampaigns == {} && n <= ALL_IDS
    ensures EagerList(cat, req, n) == []
    decreases n
  {
    if n > 0 {
      EagerListNothing(cat, req, n - 1);
    }
  }

  lemma NothingFetched(sv: Services, r: BidRequest)
    requires sv.catalog.allCampaigns == {}
    ensures forall i :: 0 <= i < |r.imps| ==> Fetched(sv, r)[i] == []
  {
    forall i | 0 <= i < |r.imps| ensures Fetched(sv, r)[i] == [] {
      EagerListNothing(sv.catalog, CandidateRequestFor(SegmentsOf(sv, r), r, r.imps[i]), ALL_IDS);
    }
  }

  // Every stage keeps eligibility.

  lemma FetchedEligible(fetched: Lists)
    requires AllDistinct(fetched)
    ensures Eligible(fetched, fetched, [])
  {
    forall i | 0 <= i < |fetched| ensures ImpEligible(i, fetched[i], fetched[i], []) {
      assert forall x :: x in fetched[i] ==> x == x.(score := x.score);
    }
  }

  lemma SubListsEligible(cands: Lists, kept: Lists, fetched: Lists, caps: seq<CapRecord>)
    requires Eligible(cands, fetched, caps) && |kept| == |cands| && AllDistinct(kept)
    requires forall i, x :: 0 <= i < |kept| && x in kept[i] ==> x in cands[i]
    ensures Eligible(kept, fetched, caps)
  {
    forall i | 0 <= i < |kept| ensures ImpEligible(i, kept[i], fetched[i], caps) {
      assert ImpEligible(i, cands[i], fetched[i], caps);
    }
  }

  lemma EligibleDistinct(cands: Lists, fetched: Lists, caps: seq<CapRecord>)
    requires Eligible(cands, fetched, caps)
    ensures AllDistinct(cands)
  {
    assert forall i :: 0 <= i < |cands| ==> ImpEligible(i, cands[i], fetched[i], caps);
  }

  lemma ScoredEligible(sv: Services, cands: Lists, fetched: Lists)
    requires Eligible(cands, fetched, [])
    ensures Eligible(ScoredAll(sv, cands), fetched, [])
  {
    var scored := ScoredAll(sv, cands);
    forall i | 0 <= i < |scored| ensures ImpEligible(i, scored[i], fetched[i], []) {
      assert ImpEligible(i, cands[i], fetched[i], []);
      forall x | x in scored[i] ensures CameFrom(x, fetched[i]) {
        var k :| 0 <= k < |scored[i]| && scored[i][k] == x;
        assert cands[i][k] in cands[i];
        var y :| y in fetched[i] && cands[i][k] == y.(score := cands[i][k].score);
        assert x == y.(score := x.score);
      }
    }
  }

  // What reaches the auction, from the request alone. Only the order in which the limit
  // stage leaves a list it had to cut is up to its heap; `limited` stands for that.

  ghost predicate LimitOf(list: seq<AdCandidate>, kept: seq<AdCandidate>, k: nat) {
    TopK(multiset(list), multiset(kept), k) && (|list| <= k ==> kept == list)
  }

  ghost predicate Shortlisted(sv: Services, r: BidRequest, limited: Lists) {
    && |limited| == |r.imps|
    && forall i :: 0 <= i < |limited| ==> LimitOf(Fetched(sv, r)[i], limited[i], sv.topK)
  }

  /** The candidates the pacer is asked about. */
  function Offered(sv: Services, r: BidRequest, limited: Lists): (lists: Lists)
    ensures |lists| == |limited|
  {
    var scored := ScoredAll(sv, limited);
    if r.userId.Some? then CapFilteredAll(sv, scored) else scored
  }

  function Reports(sv: Services, r: BidRequest, limited: Lists): seq<CapRecord> {
    if r.userId.Some? then CapReports(sv, ScoredAll(sv, limited)) else []
  }

  /** What the frequency stage does to the scored lists of a request. */
  ghost predicate CapsRespected(sv: Services, r: BidRequest, limited: Lists, records: seq<CapRecord>) {
    if r.userId.Some? then CapsApplied(sv, ScoredAll(sv, limited), Offered(sv, r, limited), records)
    else Offered(sv, r, limited) == ScoredAll(sv, limited) && records == []
  }

  lemma ReportsRespected(sv: Services, r: BidRequest, limited: Lists)
    ensures CapsRespected(sv, r, limited, Reports(sv, r, limited))
  {
    CapsAreApplied(sv, ScoredAll(sv, limited));
  }

  /** The entry is a bid for impression `i` with its `m`-th shortlisted candidate, a survivor that
      no survivor of the impression beats by the scorer's score and then by price. */
  ghost predicate BidOf(sv: Services, r: BidRequest, limited: Lists, paced: Lists, e: BidEntry, i: int, m: int) {
    && 0 <= i < |r.imps| == |limited| == |paced| && 0 <= m < |limited[i]|
    && var cs := limited[i];
       && cs[m].(score := sv.score(i, cs, m)) in paced[i]
       && e == BidEntry(r.id + "-" + r.imps[i].id, r.imps[i].id, cs[m].campaignId, cs[m].creativeId,
                        cs[m].bidPriceCents, sv.score(i, cs, m))
       && forall l :: 0 <= l < |cs| && cs[l].(score := sv.score(i, cs, l)) in paced[i] ==>
            || sv.score(i, cs, l) < sv.score(i, cs, m)
            || (sv.score(i, cs, l) == sv.score(i, cs, m) && cs[l].bidPriceCents <= cs[m].bidPriceCents)
  }

  ghost predicate BestBid(sv: Services, r: BidRequest, limited: Lists, paced: Lists, e: BidEntry) {
    exists i, m :: BidOf(sv, r, limited, paced, e, i, m)
  }

  lemma SurvivorOf(sv: Services, r: BidRequest, limited: Lists, before: Counters, i: nat, x: AdCandidate)
    requires Shortlisted(sv, r, limited) && i < |limited|
    requires x in PacedAll(before, Offered(sv, r, limited))[i]
    ensures x in ScoredList(sv, i, limited[i])
  {
    var offered := Offered(sv, r, limited);
    OfferedEligible(sv, r, limited);
    EligibleDistinct(offered, Fetched(sv, r), Reports(sv, r, limited));
    PacedAllSurvive(before, offered);
    assert Survivors(before, offered[i], PacedAll(before, offered)[i]);
    if r.userId.Some? {
      CapFilterExact(sv, ScoredAll(sv, limited), i, x);
    }
  }

  lemma WinnerBestBid(sv: Services, r: BidRequest, limited: Lists, before: Counters, i: nat)
    requires Shortlisted(sv, r, limited) && i < |limited| && PacedAll(before, Offered(sv, r, limited))[i] != []
    ensures var paced := PacedAll(before, Offered(sv, r, limited));
      var x := paced[i][Best(paced[i])];
      BestBid(sv, r, limited, paced, EntryFor(r.id, WinnerFor(ImpIdOf(ImpIds(r), i), x)))
  {
    var paced := PacedAll(before, Offered(sv, r, limited));
    var cs := limited[i];
    var x := paced[i][Best(paced[i])];
    assert x in paced[i];
    SurvivorOf(sv, r, limited, before, i, x);
    var m :| 0 <= m < |cs| && ScoredList(sv, i, cs)[m] == x;
    forall l | 0 <= l < |cs| && cs[l].(score := sv.score(i, cs, l)) in paced[i]
      ensures sv.score(i, cs, l) < x.score || (sv.score(i, cs, l) == x.score && cs[l].bidPriceCents <= x.bidPriceCents)
    {
      var y := cs[l].(score := sv.score(i, cs, l));
      var k :| 0 <= k < |paced[i]| && paced[i][k] == y;
      assert !Better(paced[i][k], x);
    }
    assert BidOf(sv, r, limited, paced, EntryFor(r.id, WinnerFor(ImpIdOf(ImpIds(r), i), x)), i, m);
  }

  /** Every entry of the response is such a bid. */
  lemma BidsAreBest(sv: Services, r: BidRequest, limited: Lists, before: Counters)
    requires Shortlisted(sv, r, limited)
    ensures var paced := PacedAll(before, Offered(sv, r, limited));
      forall e :: e in EntriesFor(r.id, WinnersOf(ImpIds(r), paced)) ==> BestBid(sv, r, limited, paced, e)
  {
    var paced := PacedAll(before, Offered(sv, r, limited));
    var entries := EntriesFor(r.id, WinnersOf(ImpIds(r), paced));
    forall e | e in entries ensures BestBid(sv, r, limited, paced, e) {
      var k :| 0 <= k < |entries| && entries[k] == e;
      EntryBestBid(sv, r, limited, before, paced, k);
    }
  }

  lemma EntryBestBid(sv: Services, r: BidRequest, limited: Lists, before: Counters, paced: Lists, k: nat)
    requires Shortlisted(sv, r, limited) && paced == PacedAll(before, Offered(sv, r, limited))
    requires k < |WinnersOf(ImpIds(r), paced)|
    ensures BestBid(sv, r, limited, paced, EntryFor(r.id, WinnersOf(ImpIds(r), paced)[k]))
  {
    WinnersAreBest(ImpIds(r), paced);
    WinnerBestBid(sv, r, limited, before, Origins(paced)[k]);
  }

  lemma FetchedDistinct(sv: Services, r: BidRequest)
    ensures AllDistinct(Fetched(sv, r))
  {
    forall i | 0 <= i < |r.imps| ensures DistinctIds(Fetched(sv, r)[i]) {
      EagerListDistinct(sv.catalog, CandidateRequestFor(SegmentsOf(sv, r), r, r.imps[i]), ALL_IDS);
    }
  }

  lemma ShortlistEligible(sv: Services, r: BidRequest, limited: Lists)
    requires Shortlisted(sv, r, limited)
    ensures Eligible(limited, Fetched(sv, r), [])
  {
    var fetched := Fetched(sv, r);
    FetchedDistinct(sv, r);
    FetchedEligible(fetched);
    forall i | 0 <= i < |limited| ensures DistinctIds(limited[i]) && forall x :: x in limited[i] ==> x in fetched[i] {
      assert LimitOf(fetched[i], limited[i], sv.topK);
      SubListDistinct(fetched[i], limited[i]);
    }
    SubListsEligible(fetched, limited, fetched, []);
  }

  lemma OfferedEligible(sv: Services, r: BidRequest, limited: Lists)
    requires Shortlisted(sv, r, limited)
    ensures Eligible(Offered(sv, r, limited), Fetched(sv, r), Reports(sv, r, limited))
  {
    ShortlistEligible(sv, r, limited);
    ScoredEligible(sv, limited, Fetched(sv, r));
    CapFilterEligible(sv, ScoredAll(sv, limited), Fetched(sv, r));
  }

  /** Every candidate's campaign has a counter. */
  ghost predicate Backed(counters: Counters, cands: Lists) {
    forall i, x :: 0 <= i < |cands| && x in cands[i] ==> x.campaignId in counters
  }

  lemma PacedEligible(counters: Counters, cands: Lists, fetched: Lists, caps: seq<CapRecord>)
    requires Eligible(cands, fetched, caps)
    ensures var paced := PacedAll(counters, cands);
      && Eligible(paced, fetched, caps) && CostsBids(counters, AfterPacing(counters, cands), paced)
      && Backed(AfterPacing(counters, cands), paced) && Backed(counters, paced)
  {
    var paced := PacedAll(counters, cands);
    EligibleDistinct(cands, fetched, caps);
    PacedAllSurvive(counters, cands);
    assert forall i :: 0 <= i < |cands| ==> Survivors(counters, cands[i], paced[i]);
    SubListsEligible(cands, paced, fetched, caps);
    forall c: CampaignId ensures At(AfterPacing(counters, cands), c) == At(counters, c) - HeldAll(paced, c) {
      PacingCostsSurvivors(counters, cands, c);
    }
  }

  lemma RankedCosts(imps: seq<string>, before: Counters, paced: Counters, cands: Lists, fetched: Lists,
                    caps: seq<CapRecord>)
    requires Eligible(cands, fetched, caps) && CostsBids(before, paced, cands) && Backed(paced, cands)
    ensures CostsWinners(before, AfterRanking(paced, cands), WinnersOf(imps, cands))
  {
    EligibleDistinct(cands, fetched, caps);
    forall c: CampaignId ensures At(AfterRanking(paced, cands), c) == At(before, c) - Spent(WinnersOf(imps, cands), c) {
      RankingReleases(imps, paced, cands, c);
    }
  }

  lemma SomeoneWins(imps: seq<string>, cands: Lists)
    requires !NoneLeft(cands)
    ensures WinnersOf(imps, cands) != []
  {
    WinnersAreBest(imps, cands);
    var i :| 0 <= i < |cands| && cands[i] != [];
    assert i in Origins(cands);
  }

  /** The winner is one of the impression's candidates, none of which is better; it was
      retrieved for the impression and not reported capped for it. */
  ghost predicate SoundFor(w: ImpWinner, impId: string, i: nat, cs: seq<AdCandidate>, list: seq<AdCandidate>,
                           caps: seq<CapRecord>) {
    exists x :: x in cs && w == WinnerFor(impId, x) && CameFrom(x, list) && (i, x.campaignId, true) !in caps
      && (forall y :: y in cs ==> !Better(y, x))
  }

  /** The k-th winner is sound for the k-th impression that has a survivor; each such
      impression has exactly one winner. */
  lemma WinnersSound(imps: seq<string>, cands: Lists, fetched: Lists, caps: seq<CapRecord>)
    requires Eligible(cands, fetched, caps)
    ensures |WinnersOf(imps, cands)| == |Origins(cands)|
    ensures forall i :: i in Origins(cands) <==> 0 <= i < |cands| && cands[i] != []
    ensures forall k, l :: 0 <= k < l < |Origins(cands)| ==> Origins(cands)[k] < Origins(cands)[l]
    ensures forall k :: 0 <= k < |Origins(cands)| ==>
      var i := Origins(cands)[k];
      i < |cands| && SoundFor(WinnersOf(imps, cands)[k], ImpIdOf(imps, i), i, cands[i], fetched[i], caps)
  {
    WinnersAreBest(imps, cands);
    forall k | 0 <= k < |Origins(cands)| ensures
      var i := Origins(cands)[k];
      i < |cands| && SoundFor(WinnersOf(imps, cands)[k], ImpIdOf(imps, i), i, cands[i], fetched[i], caps)
    {
      var i := Origins(cands)[k];
      assert ImpEligible(i, cands[i], fetched[i], caps);
      assert cands[i][Best(cands[i])] in cands[i];
    }
  }

  lemma {:induction false} NoneLeftHoldsNothing(cands: Lists, c: CampaignId)
    requires NoneLeft(cands)
    ensures HeldAll(cands, c) == 0
  {
    forall cs | cs in cands ensures HeldIn(c)(cs) == 0 {
      HeldZero(cs, c);
    }
    TotalZero(cands, HeldIn(c));
  }

  class BidPipeline {
    const sv: Services
    const pacer: LocalBudgetPacer

    constructor (services: Services, p: LocalBudgetPacer)
      ensures sv == services && pacer == p
    {
      sv, pacer := services, p;
    }

    method RequestValidation(ctx: BidContext)
      modifies ctx`outcome
      ensures ctx.outcome ==
        if ctx.request.id == "" || ctx.request.imps == [] then NoBid(InvalidRequest)
        else if ctx.request.gdprWithoutConsent then NoBid(BlockedPrivacy) else old(ctx.outcome)
    {
      if ctx.request.id == "" {
        ctx.outcome := NoBid(InvalidRequest);
        return;
      }
      if ctx.request.imps == [] {
        ctx.outcome := NoBid(InvalidRequest);
        return;
      }
      if ctx.request.gdprWithoutConsent {
        ctx.outcome := NoBid(BlockedPrivacy);
      }
    }

    method UserEnrichment(ctx: BidContext)
      modifies ctx`catalog, ctx`segmentIds
      ensures ctx.catalog == Some(sv.catalog)
      ensures ctx.segmentIds ==
        if ctx.request.userId.Some? && sv.segments.Some? then sv.segments.value else old(ctx.segmentIds)
    {
      ctx.catalog := Some(sv.catalog);
      if ctx.request.userId.Some? && sv.segments.Some? {
        ctx.segmentIds := sv.segments.value;
      }
    }

    method CandidateRetrieval(ctx: BidContext)
      requires ctx.catalog.Some? ==> ctx.catalog.value.allCampaigns == ctx.catalog.value.campaigns.Keys
      modifies ctx`candidates
      ensures ctx.catalog.None? || ctx.catalog.value.campaigns == map[] ==> ctx.candidates == old(ctx.candidates)
      ensures ctx.catalog.Some? && ctx.catalog.value.campaigns != map[] ==>
        if ctx.request.imps == [] then ctx.candidates == Resized(old(ctx.candidates), 1)
        else
          && AllDistinct(ctx.candidates)
          && ctx.candidates == FetchedFrom(ctx.catalog.value, ctx.segmentIds, ctx.request)
    {
      if ctx.catalog.None? {
        return;
      }
      var cat := ctx.catalog.value;
      if cat.campaigns == map[] {
        return;
      }
      ctx.candidates := Resized(ctx.candidates, if ctx.request.imps == [] then 1 else |ctx.request.imps|);
      ghost var resized, fetched := ctx.candidates, FetchedFrom(cat, ctx.segmentIds, ctx.request);
      for i := 0 to |ctx.request.imps|
        invariant |ctx.candidates| == |resized| && (i == 0 ==> ctx.candidates == resized)
        invariant forall j :: 0 <= j < i ==> ctx.candidates[j] == fetched[j] && DistinctIds(ctx.candidates[j])
      {
        var r := ctx.request;
        var req := CandidateRequest(ctx.segmentIds, r.geoKeys, r.deviceType, r.imps[i].adFormat);
        var found := Retrieve(cat, req);
        ctx.candidates := ctx.candidates[i := found];
      }
    }

    method CandidateLimitStage(ctx: BidContext)
      modifies ctx`candidates
      ensures |ctx.candidates| == old(|ctx.candidates|)
      ensures forall i :: 0 <= i < |ctx.candidates| ==> LimitOf(old(ctx.candidates)[i], ctx.candidates[i], sv.topK)
    {
      for i := 0 to |ctx.candidates|
        invariant |ctx.candidates| == old(|ctx.candidates|)
        invariant forall j :: i <= j < |ctx.candidates| ==> ctx.candidates[j] == old(ctx.candidates)[j]
        invariant forall j :: 0 <= j < i ==> LimitOf(old(ctx.candidates)[j], ctx.candidates[j], sv.topK)
      {
        var kept := Limit(ctx.candidates[i], sv.topK);
        ctx.candidates := ctx.candidates[i := kept];
      }
    }

    method Scoring(ctx: BidContext)
      modifies ctx`candidates
      ensures ctx.candidates == ScoredAll(sv, old(ctx.candidates))
    {
      for i := 0 to |ctx.candidates|
        invariant |ctx.candidates| == old(|ctx.candidates|)
        invariant forall j :: i <= j < |ctx.candidates| ==> ctx.candidates[j] == old(ctx.candidates)[j]
        invariant forall j :: 0 <= j < i ==> ctx.candidates[j] == ScoredList(sv, j, old(ctx.candidates)[j])
      {
        if ctx.candidates[i] != [] {
          ctx.candidates := ctx.candidates[i := ScoredList(sv, i, ctx.candidates[i])];
        }
      }
    }

    method CapOne(i: nat, cs: seq<AdCandidate>) returns (kept: seq<AdCandidate>, records: seq<CapRecord>)
      ensures kept == CapFiltered(sv, i, cs) && records == CapRecords(i, CapReport(sv, i, cs))
    {
      kept, records := cs, [];
      NothingListed(cs);
      if cs != [] {
        var outcome := sv.capper(i, cs);
        if outcome.Checked? {
          records := CapRecords(i, outcome.results);
          var capped := CappedIds(outcome.results);
          if capped != [] {
            kept := Without(cs, capped);
          }
        }
      }
    }

    method FreqCapStage(ctx: BidContext)
      modifies ctx`candidates, ctx`freqCapResults
      ensures ctx.request.userId.None? ==>
        ctx.candidates == old(ctx.candidates) && ctx.freqCapResults == old(ctx.freqCapResults)
      ensures ctx.request.userId.Some? ==>
        && ctx.candidates == CapFilteredAll(sv, old(ctx.candidates))
        && ctx.freqCapResults == old(ctx.freqCapResults) + CapReports(sv, old(ctx.candidates))
        && CapsApplied(sv, old(ctx.candidates), ctx.candidates, ctx.freqCapResults[|old(ctx.freqCapResults)|..])
    {
      if ctx.request.userId.None? {
        return;
      }
      ghost var lists, before := ctx.candidates, ctx.freqCapResults;
      for i := 0 to |ctx.candidates|
        invariant |ctx.candidates| == |lists|
        invariant forall j :: 0 <= j < i ==> ctx.candidates[j] == CapFiltered(sv, j, lists[j])
        invariant forall j :: i <= j < |lists| ==> ctx.candidates[j] == lists[j]
        invariant ctx.freqCapResults == before + CapReports(sv, lists[..i])
      {
        CapReportsStep(sv, lists, i, before);
        var kept, records := CapOne(i, ctx.candidates[i]);
        ctx.freqCapResults := ctx.freqCapResults + records;
        ctx.candidates := ctx.candidates[i := kept];
      }
      assert lists[..|lists|] == lists;
      assert ctx.freqCapResults[|before|..] == CapReports(sv, lists);
      assert ctx.candidates == CapFilteredAll(sv, lists);
      CapsAreApplied(sv, lists);
    }

    /** Reserves for each candidate of one impression and keeps those not refused. */
    method PaceOne(cs: seq<AdCandidate>) returns (kept: seq<AdCandidate>)
      modifies pacer
      ensures pacer.counters == AfterReserving(old(pacer.counters), cs)
      ensures kept == Paced(old(pacer.counters), cs)
    {
      var exhausted := [];
      for k := 0 to |cs|
        invariant pacer.counters == AfterReserving(old(pacer.counters), cs[..k])
        invariant exhausted == Refused(old(pacer.counters), cs[..k])
      {
        assert cs[..k + 1][..k] == cs[..k];
        var decision := pacer.CheckAndReserve(cs[k].campaignId, cs[k].bidPriceCents);
        if decision == Exhausted {
          exhausted := exhausted + [cs[k].campaignId];
        }
      }
      assert cs[..|cs|] == cs;
      NothingListed(cs);
      kept := if exhausted == [] then cs else Without(cs, exhausted);
    }

    method PaceEach(ctx: BidContext)
      modifies ctx`candidates, pacer
      ensures pacer.counters == AfterPacing(old(pacer.counters), old(ctx.candidates))
      ensures ctx.candidates == PacedAll(old(pacer.counters), old(ctx.candidates))
    {
      ghost var lists, before := ctx.candidates, pacer.counters;
      for i := 0 to |ctx.candidates|
        invariant |ctx.candidates| == |lists|
        invariant pacer.counters == AfterPacing(before, lists[..i])
        invariant ctx.candidates[..i] == PacedAll(before, lists[..i])
        invariant ctx.candidates[i..] == lists[i..]
      {
        assert lists[..i + 1][..i] == lists[..i];
        assert ctx.candidates[i] == ctx.candidates[i..][0] == lists[i];
        if ctx.candidates[i] != [] {
          var kept := PaceOne(ctx.candidates[i]);
          ctx.candidates := ctx.candidates[i := kept];
        }
        assert ctx.candidates[..i + 1] == ctx.candidates[..i] + [ctx.candidates[i]];
      }
      assert lists[..|lists|] == lists && ctx.candidates[..|lists|] == ctx.candidates;
    }

    method BudgetPacing(ctx: BidContext)
      modifies ctx`candidates, ctx`outcome, pacer
      ensures pacer.counters == AfterPacing(old(pacer.counters), old(ctx.candidates))
      ensures ctx.candidates == PacedAll(old(pacer.counters), old(ctx.candidates))
      ensures ctx.outcome == if NoneLeft(ctx.candidates) then NoBid(NoEligibleBids) else old(ctx.outcome)
    {
      PaceEach(ctx);
      if NoneLeft(ctx.candidates) {
        ctx.outcome := NoBid(NoEligibleBids);
      }
    }

    /** Releases every candidate of another campaign than the winner's. */
    method ReleaseLosers(cs: seq<AdCandidate>, winner: CampaignId)
      modifies pacer
      ensures pacer.counters == AfterReleasing(old(pacer.counters), cs, winner)
    {
      for k := 0 to |cs|
        invariant pacer.counters == AfterReleasing(old(pacer.counters), cs[..k], winner)
      {
        assert cs[..k + 1][..k] == cs[..k];
        if cs[k].campaignId != winner {
          pacer.Release(cs[k].campaignId, cs[k].bidPriceCents);
        }
      }
      assert cs[..|cs|] == cs;
    }

    method Ranking(ctx: BidContext)
      modifies ctx`winners, ctx`outcome, pacer
      ensures ctx.winners == old(ctx.winners) + WinnersOf(ImpIds(ctx.request), ctx.candidates)
      ensures pacer.counters == AfterRanking(old(pacer.counters), ctx.candidates)
      ensures ctx.outcome == if ctx.winners == [] then NoBid(NoEligibleBids) else Bid
    {
      for i := 0 to |ctx.candidates|
        invariant ctx.winners == old(ctx.winners) + WinnersOf(ImpIds(ctx.request), ctx.candidates[..i])
        invariant pacer.counters == AfterRanking(old(pacer.counters), ctx.candidates[..i])
      {
        assert ctx.candidates[..i + 1][..i] == ctx.candidates[..i];
        var cs := ctx.candidates[i];
        if cs != [] {
          var w := cs[Best(cs)];
          ReleaseLosers(cs, w.campaignId);
          var impId := if i < |ctx.request.imps| then ctx.request.imps[i].id else Decimal.Digits(i);
          ctx.winners := ctx.winners + [WinnerFor(impId, w)];
        }
      }
      assert ctx.candidates[..|ctx.candidates|] == ctx.candidates;
      ctx.outcome := if ctx.winners == [] then NoBid(NoEligibleBids) else Bid;
    }

    method ResponseBuild(ctx: BidContext)
      modifies ctx`outcome, ctx`bidResponse
      ensures ctx.outcome == if old(ctx.outcome) == Pending then NoBid(NoEligibleBids) else old(ctx.outcome)
      ensures ctx.bidResponse == Some(
        if ctx.outcome == Bid then Bids(ctx.request.id, EntriesFor(ctx.request.id, ctx.winners))
        else Refusal(ctx.request.id, ctx.outcome.reason))
    {
      if ctx.outcome == Pending {
        ctx.outcome := NoBid(NoEligibleBids);
      }
      match ctx.outcome
      case NoBid(reason) => ctx.bidResponse := Some(Refusal(ctx.request.id, reason));
      case Bid => ctx.bidResponse := Some(Bids(ctx.request.id, EntriesFor(ctx.request.id, ctx.winners)));
    }

    // Whole runs.

    /** The run is about to start stage `k`; `before` are the counters it began with and
        `limited` the lists the limit stage left. */
    ghost predicate Reached(ctx: BidContext, k: nat, before: Counters, limited: Lists)
      reads ctx, pacer
    {
      Holds(ctx, k, before, limited) && ctx.outcome == (if k <= 7 then Pending else Bid)
    }

    ghost predicate Holds(ctx: BidContext, k: nat, before: Counters, limited: Lists)
      reads ctx, pacer
    {
      && k <= 9
      && Started(k, ctx.request, ctx.segmentIds, ctx.catalog, ctx.candidates)
      && Selected(k, ctx.request, before, limited, ctx.candidates, ctx.freqCapResults)
      && Settled(k, ctx.request, before, limited, ctx.candidates, ctx.winners, ctx.bidResponse, pacer.counters)
    }

    ghost predicate Started(k: nat, r: BidRequest, segmentIds: seq<SegmentId>, catalog: Option<CampaignCatalog>,
                            cands: Lists) {
      && (k == 0 ==> |cands| == (if r.imps == [] then 1 else |r.imps|) && NoneLeft(cands))
      && (k >= 1 ==> !Refusable(r))
      && (k <= 1 ==> segmentIds == [])
      && (k == 2 ==> catalog == Some(sv.catalog) && segmentIds == SegmentsOf(sv, r))
      && (1 <= k <= 2 ==> |cands| == |r.imps| && NoneLeft(cands))
    }

    ghost predicate Selected(k: nat, r: BidRequest, before: Counters, limited: Lists, cands: Lists,
                             caps: seq<CapRecord>) {
      var offered := Offered(sv, r, limited);
      && (k == 3 ==> cands == Fetched(sv, r))
      && (k >= 4 ==> Shortlisted(sv, r, limited))
      && (k == 4 ==> cands == limited)
      && (k == 5 ==> cands == ScoredAll(sv, limited))
      && caps == (if k <= 5 then [] else Reports(sv, r, limited))
      && (k == 6 ==> cands == offered)
      && (k >= 7 ==> cands == PacedAll(before, offered) && !NoneLeft(cands))
    }

    ghost predicate Settled(k: nat, r: BidRequest, before: Counters, limited: Lists, cands: Lists,
                            winners: seq<ImpWinner>, response: Option<BidResponse>, counters: Counters) {
      var offered := Offered(sv, r, limited);
      && (k <= 6 ==> counters == before)
      && (k == 7 ==> counters == AfterPacing(before, offered))
      && (k >= 8 ==> counters == AfterRanking(AfterPacing(before, offered), cands))
      && winners == (if k <= 7 then [] else WinnersOf(ImpIds(r), cands))
      && response == (if k <= 8 then None else Some(Bids(r.id, EntriesFor(r.id, winners))))
    }

    /** Stage `k - 1` has refused: validation, or pacing that left no candidate. */
    ghost predicate Stopped(ctx: BidContext, k: nat, before: Counters, limited: Lists)
      reads ctx, pacer
    {
      var r, offered := ctx.request, Offered(sv, ctx.request, limited);
      && ctx.bidResponse == None && ctx.winners == []
      && (|| (k == 1 && Refusable(r) && ctx.freqCapResults == [] && pacer.counters == before
              && ctx.outcome == NoBid(if Malformed(r) then InvalidRequest else BlockedPrivacy))
          || (k == 7 && !Refusable(r) && Shortlisted(sv, r, limited) && ctx.freqCapResults == Reports(sv, r, limited)
              && ctx.candidates == PacedAll(before, offered) && NoneLeft(ctx.candidates)
              && pacer.counters == AfterPacing(before, offered) && ctx.outcome == NoBid(NoEligibleBids)))
    }

    method Prepare(ctx: BidContext, k: nat, ghost before: Counters, ghost limited: Lists)
      requires k <= 2 && Reached(ctx, k, before, limited) && sv.catalog.allCampaigns == sv.catalog.campaigns.Keys
      modifies ctx, pacer
      ensures if ctx.outcome.NoBid? then Stopped(ctx, k + 1, before, limited) else Reached(ctx, k + 1, before, limited)
    {
      if k == 0 {
        RequestValidation(ctx);
      } else if k == 1 {
        UserEnrichment(ctx);
      } else {
        CandidateRetrieval(ctx);
        if sv.catalog.campaigns == map[] {
          NothingFetched(sv, ctx.request);
          assert ctx.candidates == Fetched(sv, ctx.request);
        }
      }
    }

    method Narrow(ctx: BidContext, k: nat, ghost before: Counters, ghost chosen: Lists) returns (ghost limited: Lists)
      requires 3 <= k <= 5 && Reached(ctx, k, before, chosen)
      modifies ctx, pacer
      ensures Reached(ctx, k + 1, before, limited)
    {
      limited := chosen;
      if k == 3 {
        CandidateLimitStage(ctx);
        limited := ctx.candidates;
      } else if k == 4 {
        Scoring(ctx);
      } else {
        FreqCapStage(ctx);
      }
    }

    method Pace(ctx: BidContext, ghost before: Counters, ghost limited: Lists)
      requires Reached(ctx, 6, before, limited)
      modifies ctx, pacer
      ensures if ctx.outcome.NoBid? then Stopped(ctx, 7, before, limited) else Reached(ctx, 7, before, limited)
    {
      BudgetPacing(ctx);
    }

    method Rank(ctx: BidContext, ghost before: Counters, ghost limited: Lists)
      requires Reached(ctx, 7, before, limited)
      modifies ctx, pacer
      ensures Reached(ctx, 8, before, limited)
    {
      RankedNext(ctx.request, before, limited, ctx.candidates, ctx.freqCapResults, pacer.counters);
      Ranking(ctx);
    }

    lemma RankedNext(r: BidRequest, before: Counters, limited: Lists, cands: Lists, caps: seq<CapRecord>,
                     counters: Counters)
      requires Selected(7, r, before, limited, cands, caps) && Settled(7, r, before, limited, cands, [], None, counters)
      ensures var winners := WinnersOf(ImpIds(r), cands);
        && winners != [] && [] + winners == winners && Selected(8, r, before, limited, cands, caps)
        && Settled(8, r, before, limited, cands, winners, None, AfterRanking(counters, cands))
    {
      SomeoneWins(ImpIds(r), cands);
    }

    method Respond(ctx: BidContext, ghost before: Counters, ghost limited: Lists)
      requires Reached(ctx, 8, before, limited)
      modifies ctx, pacer
      ensures Reached(ctx, 9, before, limited)
    {
      ResponseBuild(ctx);
    }

    method RunStage(ctx: BidContext, k: nat, ghost before: Counters, ghost chosen: Lists) returns (ghost limited: Lists)
      requires k < 9 && Reached(ctx, k, before, chosen) && sv.catalog.allCampaigns == sv.catalog.campaigns.Keys
      modifies ctx, pacer
      ensures if ctx.outcome.NoBid? then Stopped(ctx, k + 1, before, limited) else Reached(ctx, k + 1, before, limited)
    {
      limited := chosen;
      if k <= 2 {
        Prepare(ctx, k, before, chosen);
      } else if k <= 5 {
        limited := Narrow(ctx, k, before, chosen);
      } else if k == 6 {
        Pace(ctx, before, chosen);
      } else if k == 7 {
        Rank(ctx, before, chosen);
      } else {
        Respond(ctx, before, chosen);
      }
    }

    /** The lists and the counters of a run that completed `ran` stages. */
    ghost predicate Ran(ctx: BidContext, ran: nat, before: Counters, limited: Lists)
      reads ctx, pacer
    {
      var r := ctx.request;
      var paced := PacedAll(before, Offered(sv, r, limited));
      && (ran >= 4 ==> Shortlisted(sv, r, limited))
      && ctx.freqCapResults == (if ran <= 5 then [] else Reports(sv, r, limited))
      && (ran >= 7 ==> ctx.candidates == paced)
      && ctx.winners == (if ran <= 7 then [] else WinnersOf(ImpIds(r), paced))
      && (ran <= 6 ==> pacer.counters == before)
      && (ran == 7 ==> CostsBids(before, pacer.counters, paced))
      && (ran >= 8 ==> CostsWinners(before, pacer.counters, ctx.winners))
      && (ran >= 7 ==> Eligible(paced, Fetched(sv, r), ctx.freqCapResults) && Backed(before, paced))
    }

    /** What the exact lists cost. */
    lemma RanCosts(ctx: BidContext, ran: nat, before: Counters, limited: Lists)
      requires Holds(ctx, ran, before, limited) || Stopped(ctx, ran, before, limited)
      requires ran >= 7
      ensures var r := ctx.request;
        var paced := PacedAll(before, Offered(sv, r, limited));
        && (ran == 7 ==> CostsBids(before, pacer.counters, paced))
        && (ran >= 8 ==> CostsWinners(before, pacer.counters, ctx.winners))
        && Eligible(paced, Fetched(sv, r), Reports(sv, r, limited)) && Backed(before, paced)
    {
      var r := ctx.request;
      var offered := Offered(sv, r, limited);
      OfferedEligible(sv, r, limited);
      PacedEligible(before, offered, Fetched(sv, r), Reports(sv, r, limited));
      var paced, fetched, caps := PacedAll(before, offered), Fetched(sv, r), Reports(sv, r, limited);
      RankedCosts(ImpIds(r), before, AfterPacing(before, offered), paced, fetched, caps);
    }

    predicate InTime(late: nat -> bool, n: nat) { forall k :: 0 <= k < n ==> !late(k) }

    /** The three ways a run ends: through all stages, refused by one, or cut by the deadline. */
    ghost predicate Ended(ctx: BidContext, late: nat -> bool, ran: nat, before: Counters, limited: Lists)
      reads ctx, pacer
    {
      && InTime(late, ran)
      && (|| (ran == 9 && Reached(ctx, 9, before, limited))
          || Stopped(ctx, ran, before, limited)
          || (ran < 9 && late(ran) && Holds(ctx, ran, before, limited) && ctx.outcome == NoBid(PipelineDeadline)))
    }

    /** Runs the stages in order; `late(k)` is the deadline check before stage `k`. */
    method RunStages(ctx: BidContext, late: nat -> bool) returns (ran: nat, ghost limited: Lists)
      requires ctx.New() && sv.catalog.allCampaigns == sv.catalog.campaigns.Keys
      modifies ctx, pacer
      ensures Ended(ctx, late, ran, old(pacer.counters), limited)
    {
      ghost var before := pacer.counters;
      ran, limited := 0, [];
      while ran < 9
        invariant ran <= 9 && Reached(ctx, ran, before, limited) && InTime(late, ran)
        decreases 9 - ran
      {
        if late(ran) {
          ctx.outcome := NoBid(PipelineDeadline);
          return;
        }
        limited := RunStage(ctx, ran, before, limited);
        ran := ran + 1;
        if ctx.outcome.NoBid? {
          return;
        }
      }
    }

    lemma EndedRan(ctx: BidContext, late: nat -> bool, ran: nat, before: Counters, limited: Lists)
      requires Ended(ctx, late, ran, before, limited)
      ensures Ran(ctx, ran, before, limited)
    {
      if ran >= 7 {
        RanCosts(ctx, ran, before, limited);
      }
    }

    /** A refusal that is not a missed deadline costs nothing. */
    lemma StoppedFree(ctx: BidContext, ran: nat, before: Counters, limited: Lists)
      requires Stopped(ctx, ran, before, limited)
      ensures forall c: CampaignId :: At(pacer.counters, c) == At(before, c)
    {
      if ran == 7 {
        RanCosts(ctx, ran, before, limited);
        forall c: CampaignId ensures At(pacer.counters, c) == At(before, c) {
          NoneLeftHoldsNothing(ctx.candidates, c);
        }
      }
    }

    /** The outcome, from the request, the deadline and what pacing leaves of the candidates
        offered to it; if it is none of these, the deadline struck first. */
    ghost predicate OutcomeIs(outcome: Outcome, r: BidRequest, late: nat -> bool, paced: Lists) {
      && (outcome == Bid <==> !Refusable(r) && InTime(late, 9) && !NoneLeft(paced))
      && (outcome == NoBid(NoEligibleBids) <==> !Refusable(r) && InTime(late, 7) && NoneLeft(paced))
      && (outcome == NoBid(InvalidRequest) <==> !late(0) && (r.id == "" || r.imps == []))
      && (outcome == NoBid(BlockedPrivacy) <==> !late(0) && r.id != "" && r.imps != [] && r.gdprWithoutConsent)
      && outcome != Pending
    }

    /** The deadline strikes first before stage `k`, with candidates left by pacing. */
    ghost predicate CutBefore(k: nat, r: BidRequest, late: nat -> bool, paced: Lists) {
      !Refusable(r) && InTime(late, k) && late(k) && !NoneLeft(paced)
    }

    lemma EndedOutcome(ctx: BidContext, late: nat -> bool, ran: nat, before: Counters, limited: Lists)
      requires Ended(ctx, late, ran, before, limited)
      ensures var paced := PacedAll(before, Offered(sv, ctx.request, limited));
        && OutcomeIs(ctx.outcome, ctx.request, late, paced)
        && (ctx.outcome == NoBid(PipelineDeadline) && ran == 7 <==> CutBefore(7, ctx.request, late, paced))
        && (ctx.outcome == NoBid(PipelineDeadline) && ran == 8 <==> CutBefore(8, ctx.request, late, paced))
    {
    }

    /** A whole run, for every request and every deadline; `ran` is the number of stages that
        completed. Which outcome it is depends on the request, the deadline and the exact
        candidates offered to the pacer, and what every counter lost on how far it got. */
    method Execute(ctx: BidContext, late: nat -> bool) returns (ran: nat, ghost limited: Lists)
      requires ctx.New() && sv.catalog.allCampaigns == sv.catalog.campaigns.Keys
      modifies ctx, pacer
      ensures ran <= 9 && Ended(ctx, late, ran, old(pacer.counters), limited)
      ensures Ran(ctx, ran, old(pacer.counters), limited)
      ensures var paced := PacedAll(old(pacer.counters), Offered(sv, ctx.request, limited));
        && OutcomeIs(ctx.outcome, ctx.request, late, paced)
        && (ctx.outcome == NoBid(PipelineDeadline) && ran == 7 <==> CutBefore(7, ctx.request, late, paced))
        && (ctx.outcome == NoBid(PipelineDeadline) && ran == 8 <==> CutBefore(8, ctx.request, late, paced))
      ensures ctx.outcome == Bid <==> ran == 9
      ensures ctx.outcome == NoBid(PipelineDeadline) ==> ran < 9 && late(ran)
      ensures ran >= 6 ==> CapsRespected(sv, ctx.request, limited, ctx.freqCapResults)
      ensures ctx.outcome == Bid ==>
        forall e :: e in ctx.bidResponse.value.bids ==> BestBid(sv, ctx.request, limited, ctx.candidates, e)
      ensures ctx.bidResponse ==
        if ctx.outcome == Bid then Some(Bids(ctx.request.id, EntriesFor(ctx.request.id, ctx.winners))) else None
      ensures ctx.outcome.NoBid? && ctx.outcome.reason != PipelineDeadline ==>
        forall c: CampaignId :: At(pacer.counters, c) == At(old(pacer.counters), c)
    {
      ran, limited := RunStages(ctx, late);
      ghost var before := old(pacer.counters);
      EndedRan(ctx, late, ran, before, limited);
      EndedOutcome(ctx, late, ran, before, limited);
      if ran >= 6 {
        ReportsRespected(sv, ctx.request, limited);
        BidsAreBest(sv, ctx.request, limited, before);
      }
      if Stopped(ctx, ran, before, limited) {
        StoppedFree(ctx, ran, before, limited);
      }
    }
  }

  // One request that the deadline cuts after pacing.

  function OneCampaign(bid: int): CampaignCatalog {
    CampaignCatalog(map[0 := Campaign(bid, 0, 1, 1)], map[0 := [Creative(1, Banner)]],
                    map[], map[], map[], map[], {}, {0}, {0}, {0})
  }

  function OneService(bid: int): Services {
    Services(OneCampaign(bid), None, 1, (i, cs, k) => 0.0, (i, cs) => SkippedNoUser)
  }

  const ONE_REQUEST := BidRequest("r", [Imp("i", None)], false, None, None, None)

  function OneCandidate(bid: int): AdCandidate { AdCandidate(0, 1, bid, 0.0, 1, 1) }

  lemma {:induction false} OneListed(bid: int, req: CandidateRequest, n: nat)
    requires req == CandidateRequest([], None, None, None) && 1 <= n <= ALL_IDS
    ensures EagerList(OneCampaign(bid), req, n) == [OneCandidate(bid)]
    decreases n
  {
    var cat := OneCampaign(bid);
    if n > 1 {
      OneListed(bid, req, n - 1);
    } else {
      assert EagerList(cat, req, 0) == [];
      assert Eager(cat, req, 0) && Get(cat.campaigns, 0) == Some(Campaign(bid, 0, 1, 1));
      assert CreativesFor(cat.creatives, 0) == [Creative(1, Banner)];
    }
  }

  lemma OneFetched(bid: int)
    ensures Fetched(OneService(bid), ONE_REQUEST) == [[OneCandidate(bid)]]
  {
    var sv, r := OneService(bid), ONE_REQUEST;
    var req := CandidateRequestFor(SegmentsOf(sv, r), r, r.imps[0]);
    assert req == CandidateRequest([], None, None, None);
    OneListed(bid, req, ALL_IDS);
  }

  lemma OneOffered(bid: int, limited: Lists, fetched: Lists)
    requires fetched == Fetched(OneService(bid), ONE_REQUEST) == [[OneCandidate(bid)]]
    requires Shortlisted(OneService(bid), ONE_REQUEST, limited)
    ensures Offered(OneService(bid), ONE_REQUEST, limited) == [[OneCandidate(bid)]]
  {
    assert LimitOf(fetched[0], limited[0], 1);
    OneScored(bid, limited);
  }

  lemma OneScored(bid: int, limited: Lists)
    requires |limited| == 1 && limited[0] == [OneCandidate(bid)]
    ensures Offered(OneService(bid), ONE_REQUEST, limited) == [[OneCandidate(bid)]]
  {
    assert ScoredList(OneService(bid), 0, limited[0]) == [OneCandidate(bid)];
  }

  lemma OnePaced(bid: int, budget: int)
    requires budget > 0
    ensures PacedAll(map[0 := budget], [[OneCandidate(bid)]]) == [[OneCandidate(bid)]]
    ensures HeldAll([[OneCandidate(bid)]], 0) == bid
  {
    var counters: Counters := map[0 := budget];
    var x := OneCandidate(bid);
    OneMore(counters, [], x, []);
    assert [] + [x] == [x] && Refused(counters, [x]) == [];
    assert Paced(counters, [x]) == [x];
    assert [[x]][..0] == [];
    assert PacedAll(counters, [[x]]) == [] + [[x]];
    TotalOne([x], HeldIn(0));
    TotalOne(x, PriceFor(0));
  }

  /** A run that is refused for its deadline and keeps the bid of its candidate reserved. */
  method OneCutRun(bid: nat, budget: int) returns (ctx: BidContext, pacer: LocalBudgetPacer)
    requires budget > 0
    ensures ctx.outcome == NoBid(PipelineDeadline) && ctx.bidResponse == None
    ensures At(pacer.counters, 0) == budget - bid
  {
    ctx := new BidContext(ONE_REQUEST);
    pacer := new LocalBudgetPacer();
    pacer.Reload([(0, budget)]);
    assert IsLast([(0, budget)], 0);
    assert pacer.counters == map[0 := budget];
    var pipeline := new BidPipeline(OneService(bid), pacer);
    ghost var before := pacer.counters;
    var ran, limited := pipeline.Execute(ctx, k => k == 7);
    OneFetched(bid);
    if ran >= 4 {
      OneOffered(bid, limited, Fetched(OneService(bid), ONE_REQUEST));
    }
    OnePaced(bid, budget);
  }
}
