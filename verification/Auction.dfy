/** Reserving budget for every candidate and releasing it for every loser, on values
    (pipeline/stages/budget_pacing.rs, pipeline/stages/ranking.rs). */
module Auction {
  import opened Common
  import opened Decimal
  import opened LocalPacer

  function At(counters: Counters, c: CampaignId): int { if c in counters then counters[c] else 0 }

  ghost function PriceFor(c: CampaignId): AdCandidate -> int {
    (x: AdCandidate) => if x.campaignId == c then x.bidPriceCents else 0
  }

  /** The bids of the list for one campaign, together. */
  ghost function Held(cs: seq<AdCandidate>, c: CampaignId): int { Total(cs, PriceFor(c)) }

  lemma HeldAppend(cs: seq<AdCandidate>, x: AdCandidate, c: CampaignId)
    ensures Held(cs + [x], c) == Held(cs, c) + PriceFor(c)(x)
  {
    TotalConcat(cs, [x], PriceFor(c));
    TotalOne(x, PriceFor(c));
  }

  // Pacing one impression.

  /** The counters after trying to reserve each candidate in turn. */
  function AfterReserving(counters: Counters, cs: seq<AdCandidate>): Counters {
    if cs == [] then counters
    else
      var n := |cs| - 1;
      Reserved(AfterReserving(counters, cs[..n]), cs[n].campaignId, cs[n].bidPriceCents)
  }

  /** The campaigns that were refused, in order. */
  function Refused(counters: Counters, cs: seq<AdCandidate>): seq<CampaignId> {
    if cs == [] then []
    else
      var n := |cs| - 1;
      Refused(counters, cs[..n])
      + if Grants(AfterReserving(counters, cs[..n]), cs[n].campaignId) then [] else [cs[n].campaignId]
  }

  /** The candidates whose reservation was granted. */
  ghost function Granted(counters: Counters, cs: seq<AdCandidate>): seq<AdCandidate> {
    if cs == [] then []
    else
      var n := |cs| - 1;
      Granted(counters, cs[..n])
      + if Grants(AfterReserving(counters, cs[..n]), cs[n].campaignId) then [cs[n]] else []
  }

  /** `retain`: drops every candidate of a listed campaign. */
  function Without(cs: seq<AdCandidate>, ids: seq<CampaignId>): seq<AdCandidate> {
    if cs == [] then []
    else
      var n := |cs| - 1;
      Without(cs[..n], ids) + if cs[n].campaignId in ids then [] else [cs[n]]
  }

  /** The candidates that survive pacing. */
  function Paced(counters: Counters, cs: seq<AdCandidate>): seq<AdCandidate> {
    Without(cs, Refused(counters, cs))
  }

  lemma {:induction false} WithoutHeld(cs: seq<AdCandidate>, ids: seq<CampaignId>, c: CampaignId)
    ensures Held(Without(cs, ids), c) == if c in ids then 0 else Held(cs, c)
  {
    if cs != [] {
      var n := |cs| - 1;
      WithoutHeld(cs[..n], ids, c);
      HeldAppend(cs[..n], cs[n], c);
      HeldAppend(Without(cs[..n], ids), cs[n], c);
      assert cs == cs[..n] + [cs[n]] && Without(cs[..n], ids) + [] == Without(cs[..n], ids);
    }
  }

  lemma {:induction false} WithoutMembers(cs: seq<AdCandidate>, ids: seq<CampaignId>)
    ensures forall x :: x in Without(cs, ids) <==> x in cs && x.campaignId !in ids
  {
    if cs != [] {
      var n := |cs| - 1;
      WithoutMembers(cs[..n], ids);
      assert cs == cs[..n] + [cs[n]];
    }
  }

  /** In a list with one candidate per campaign, no earlier one has the last campaign. */
  lemma LastIsNew(cs: seq<AdCandidate>)
    requires DistinctIds(cs) && cs != []
    ensures forall x :: x in cs[..|cs| - 1] ==> x.campaignId != cs[|cs| - 1].campaignId
  {
  }

  lemma {:induction false} WithoutDistinct(cs: seq<AdCandidate>, ids: seq<CampaignId>)
    requires DistinctIds(cs)
    ensures DistinctIds(Without(cs, ids))
  {
    if cs != [] {
      var n := |cs| - 1;
      WithoutDistinct(cs[..n], ids);
      WithoutMembers(cs[..n], ids);
      LastIsNew(cs);
      var w := Without(cs[..n], ids);
      assert forall i :: 0 <= i < |w| ==> w[i] in w;
    }
  }

  /** For every list: the counters fall by exactly what was granted. What survives is, for
      each campaign, all that was granted to it, or nothing if it was also refused. */
  lemma {:induction false} PacingLedger(counters: Counters, cs: seq<AdCandidate>, c: CampaignId)
    ensures AfterReserving(counters, cs).Keys == counters.Keys
    ensures At(AfterReserving(counters, cs), c) == At(counters, c) - Held(Granted(counters, cs), c)
    ensures c !in Refused(counters, cs) ==> Held(Granted(counters, cs), c) == Held(cs, c)
  {
    if cs != [] {
      var n := |cs| - 1;
      PacingLedger(counters, cs[..n], c);
      HeldAppend(Granted(counters, cs[..n]), cs[n], c);
      HeldAppend(cs[..n], cs[n], c);
      assert cs == cs[..n] + [cs[n]] && Granted(counters, cs[..n]) + [] == Granted(counters, cs[..n]);
    }
  }

  /** The survivors' bids are what was taken exactly when the campaign was not refused or
      was granted nothing. */
  lemma SurvivorsHoldAll(counters: Counters, cs: seq<AdCandidate>, c: CampaignId)
    ensures At(AfterReserving(counters, cs), c) == At(counters, c) - Held(Paced(counters, cs), c)
      <==> c !in Refused(counters, cs) || Held(Granted(counters, cs), c) == 0
  {
    PacingLedger(counters, cs, c);
    WithoutHeld(cs, Refused(counters, cs), c);
  }

  /** Each candidate of the campaign still finds budget left by those before it. */
  ghost predicate AllFit(counters: Counters, cs: seq<AdCandidate>, c: CampaignId)
    requires c in counters
  {
    forall j :: 0 <= j < |cs| && cs[j].campaignId == c ==> Held(cs[..j], c) < counters[c]
  }

  /** Refusals of one campaign: none when all fit; otherwise the counter is used up. */
  lemma {:induction false} RefusedIff(counters: Counters, cs: seq<AdCandidate>, c: CampaignId)
    requires Grants(counters, c)
    ensures c in AfterReserving(counters, cs)
    ensures c !in Refused(counters, cs) <==> AllFit(counters, cs, c)
    ensures c in Refused(counters, cs) ==> AfterReserving(counters, cs)[c] <= 0
    ensures c !in Refused(counters, cs) ==> AfterReserving(counters, cs)[c] == counters[c] - Held(cs, c)
  {
    if cs != [] {
      var n := |cs| - 1;
      RefusedIff(counters, cs[..n], c);
      HeldAppend(cs[..n], cs[n], c);
      assert cs == cs[..n] + [cs[n]];
      assert forall j :: 0 <= j < n ==> cs[..n][..j] == cs[..j];
    }
  }

  lemma {:induction false} NeverGranted(counters: Counters, cs: seq<AdCandidate>, c: CampaignId)
    requires !Grants(counters, c)
    ensures !Grants(AfterReserving(counters, cs), c) && Held(Granted(counters, cs), c) == 0
  {
    if cs != [] {
      var n := |cs| - 1;
      NeverGranted(counters, cs[..n], c);
      HeldAppend(Granted(counters, cs[..n]), cs[n], c);
      assert Granted(counters, cs[..n]) + [] == Granted(counters, cs[..n]);
    }
  }

  /** For every list and all bids: nothing of a campaign is stranded exactly when it has no
      budget to begin with, or all its candidates fit one after the other. */
  lemma StrandedIff(counters: Counters, cs: seq<AdCandidate>, c: CampaignId)
    ensures At(AfterReserving(counters, cs), c) == At(counters, c) - Held(Paced(counters, cs), c)
      <==> (!Grants(counters, c) || AllFit(counters, cs, c))
  {
    SurvivorsHoldAll(counters, cs, c);
    PacingLedger(counters, cs, c);
    if Grants(counters, c) {
      RefusedIff(counters, cs, c);
    } else {
      NeverGranted(counters, cs, c);
    }
  }

  /** Two creatives of one campaign that bids its whole budget: the first is granted, the
      second refused, both are dropped, and the budget stays taken. */
  lemma TwoCreativesStrand(c: CampaignId, budget: int)
    requires budget > 0
    ensures var a, b := AdCandidate(c, 1, budget, 0.0, 1, 1), AdCandidate(c, 2, budget, 0.0, 1, 1);
      AfterReserving(map[c := budget], [a, b]) == map[c := 0] && Paced(map[c := budget], [a, b]) == []
  {
    var counters: Counters := map[c := budget];
    var a, b := AdCandidate(c, 1, budget, 0.0, 1, 1), AdCandidate(c, 2, budget, 0.0, 1, 1);
    OneMore(counters, [], a, [c]);
    OneMore(counters, [a], b, [c]);
    assert [] + [a] == [a] && [a] + [b] == [a, b];
    assert AfterReserving(counters, [a]) == map[c := 0];
    assert Refused(counters, [a]) == [] && Refused(counters, [a, b]) == [c];
    assert Without([a], [c]) == [] && Without([a, b], [c]) == [];
  }

  lemma OneMore(counters: Counters, cs: seq<AdCandidate>, x: AdCandidate, ids: seq<CampaignId>)
    ensures AfterReserving(counters, cs + [x]) == Reserved(AfterReserving(counters, cs), x.campaignId, x.bidPriceCents)
    ensures Refused(counters, cs + [x])
         == Refused(counters, cs) + if Grants(AfterReserving(counters, cs), x.campaignId) then [] else [x.campaignId]
    ensures Without(cs + [x], ids) == Without(cs, ids) + if x.campaignId in ids then [] else [x]
  {
    assert (cs + [x])[..|cs|] == cs;
  }

  lemma {:induction false} GrantedMembers(counters: Counters, cs: seq<AdCandidate>)
    ensures forall x :: x in Granted(counters, cs) ==> x in cs && x.campaignId in counters
  {
    if cs != [] {
      var n := |cs| - 1;
      GrantedMembers(counters, cs[..n]);
      PacingLedger(counters, cs[..n], cs[n].campaignId);
      assert cs == cs[..n] + [cs[n]];
    }
  }

  lemma {:induction false} RefusedMembers(counters: Counters, cs: seq<AdCandidate>, c: CampaignId)
    requires c in Refused(counters, cs)
    ensures exists x :: x in cs && x.campaignId == c
  {
    var n := |cs| - 1;
    if c in Refused(counters, cs[..n]) {
      RefusedMembers(counters, cs[..n], c);
      var x :| x in cs[..n] && x.campaignId == c;
      assert x in cs;
    } else {
      assert cs[n] in cs;
    }
  }

  lemma {:induction false} GrantedOrRefused(counters: Counters, cs: seq<AdCandidate>)
    requires DistinctIds(cs)
    ensures forall x :: x in cs ==> (x in Granted(counters, cs) <==> x.campaignId !in Refused(counters, cs))
  {
    if cs != [] {
      var n := |cs| - 1;
      GrantedOrRefused(counters, cs[..n]);
      GrantedMembers(counters, cs[..n]);
      LastIsNew(cs);
      if cs[n].campaignId in Refused(counters, cs[..n]) {
        RefusedMembers(counters, cs[..n], cs[n].campaignId);
        assert false;
      }
      assert cs == cs[..n] + [cs[n]];
    }
  }

  lemma {:induction false} HeldZero(cs: seq<AdCandidate>, c: CampaignId)
    requires forall x :: x in cs ==> x.campaignId != c
    ensures Held(cs, c) == 0
  {
    TotalZero(cs, PriceFor(c));
  }

  /** With one candidate per campaign the counters fall by exactly the survivors' bids,
      and every survivor was granted. */
  lemma PacingHoldsSurvivors(counters: Counters, cs: seq<AdCandidate>, c: CampaignId)
    requires DistinctIds(cs)
    ensures At(AfterReserving(counters, cs), c) == At(counters, c) - Held(Paced(counters, cs), c)
    ensures AfterReserving(counters, cs).Keys == counters.Keys && DistinctIds(Paced(counters, cs))
    ensures forall x :: x in Paced(counters, cs) <==> x in Granted(counters, cs)
    ensures forall x :: x in Paced(counters, cs) ==> x in cs && x.campaignId in counters
  {
    GrantedMembers(counters, cs);
    GrantedOrRefused(counters, cs);
    WithoutMembers(cs, Refused(counters, cs));
    WithoutDistinct(cs, Refused(counters, cs));
    PacingLedger(counters, cs, c);
    SurvivorsHoldAll(counters, cs, c);
    if c in Refused(counters, cs) {
      HeldZero(Granted(counters, cs), c);
    }
  }

  // Choosing a winner.

  /** A higher score, or the same score and a higher price. */
  predicate Better(a: AdCandidate, b: AdCandidate) {
    a.score > b.score || (a.score == b.score && a.bidPriceCents > b.bidPriceCents)
  }

  /** `max_by`: the last of the greatest. */
  function Best(cs: seq<AdCandidate>): (w: nat)
    requires cs != []
    ensures w < |cs|
    ensures forall i :: 0 <= i < |cs| ==> !Better(cs[i], cs[w])
    ensures forall i :: w < i < |cs| ==> Better(cs[w], cs[i])
  {
    var n := |cs| - 1;
    if n == 0 then 0
    else
      var w := Best(cs[..n]);
      assert cs[..n][w] == cs[w] && forall i :: 0 <= i < n ==> cs[i] == cs[..n][i];
      if Better(cs[w], cs[n]) then w else n
  }

  /** The counters after releasing every candidate of another campaign. */
  function AfterReleasing(counters: Counters, cs: seq<AdCandidate>, winner: CampaignId): Counters {
    if cs == [] then counters
    else
      var n := |cs| - 1;
      var before := AfterReleasing(counters, cs[..n], winner);
      if cs[n].campaignId == winner then before else Released(before, cs[n].campaignId, cs[n].bidPriceCents)
  }

  lemma {:induction false} ReleasingLedger(counters: Counters, cs: seq<AdCandidate>, winner: CampaignId, c: CampaignId)
    requires forall x :: x in cs ==> x.campaignId in counters
    ensures AfterReleasing(counters, cs, winner).Keys == counters.Keys
    ensures At(AfterReleasing(counters, cs, winner), c) == At(counters, c) + if c == winner then 0 else Held(cs, c)
  {
    if cs != [] {
      var n := |cs| - 1;
      assert cs == cs[..n] + [cs[n]] && cs[n] in cs;
      ReleasingLedger(counters, cs[..n], winner, c);
      HeldAppend(cs[..n], cs[n], c);
    }
  }

  lemma {:induction false} HeldByOne(cs: seq<AdCandidate>, i: nat)
    requires DistinctIds(cs) && i < |cs|
    ensures Held(cs, cs[i].campaignId) == cs[i].bidPriceCents
  {
    var c := cs[i].campaignId;
    assert cs == cs[..i] + ([cs[i]] + cs[i + 1..]);
    TotalConcat(cs[..i], [cs[i]] + cs[i + 1..], PriceFor(c));
    TotalConcat([cs[i]], cs[i + 1..], PriceFor(c));
    TotalOne(cs[i], PriceFor(c));
    HeldZero(cs[..i], c);
    HeldZero(cs[i + 1..], c);
  }

  datatype ImpWinner = ImpWinner(impId: string, campaignId: CampaignId, creativeId: CreativeId, bidPriceCents: int,
                                 score: real)

  function WinnerFor(impId: string, x: AdCandidate): ImpWinner {
    ImpWinner(impId, x.campaignId, x.creativeId, x.bidPriceCents, x.score)
  }

  // All impressions of a request.

  ghost predicate AllDistinct(cands: seq<seq<AdCandidate>>) {
    forall i :: 0 <= i < |cands| ==> DistinctIds(cands[i])
  }

  ghost function HeldIn(c: CampaignId): seq<AdCandidate> -> int { (cs: seq<AdCandidate>) => Held(cs, c) }

  /** The bids of all impressions for one campaign. */
  ghost function HeldAll(cands: seq<seq<AdCandidate>>, c: CampaignId): int { Total(cands, HeldIn(c)) }

  lemma HeldAllAppend(cands: seq<seq<AdCandidate>>, cs: seq<AdCandidate>, c: CampaignId)
    ensures HeldAll(cands + [cs], c) == HeldAll(cands, c) + Held(cs, c)
  {
    TotalConcat(cands, [cs], HeldIn(c));
    TotalOne(cs, HeldIn(c));
  }

  /** The counters after pacing each impression in turn. */
  function AfterPacing(counters: Counters, cands: seq<seq<AdCandidate>>): Counters {
    if cands == [] then counters
    else AfterReserving(AfterPacing(counters, cands[..|cands| - 1]), cands[|cands| - 1])
  }

  /** The candidate lists after pacing. */
  function PacedAll(counters: Counters, cands: seq<seq<AdCandidate>>): (r: seq<seq<AdCandidate>>)
    ensures |r| == |cands|
  {
    if cands == [] then []
    else
      var n := |cands| - 1;
      PacedAll(counters, cands[..n]) + [Paced(AfterPacing(counters, cands[..n]), cands[n])]
  }

  /** The list holds only candidates of `cs` whose campaign has a budget. */
  ghost predicate Survivors(counters: Counters, cs: seq<AdCandidate>, kept: seq<AdCandidate>) {
    DistinctIds(kept) && forall x :: x in kept ==> x in cs && x.campaignId in counters
  }

  lemma {:induction false} PacedAllSurvive(counters: Counters, cands: seq<seq<AdCandidate>>)
    requires AllDistinct(cands)
    ensures AfterPacing(counters, cands).Keys == counters.Keys
    ensures forall i :: 0 <= i < |cands| ==> Survivors(counters, cands[i], PacedAll(counters, cands)[i])
  {
    if cands != [] {
      var n := |cands| - 1;
      PacedAllSurvive(counters, cands[..n]);
      PacingHoldsSurvivors(AfterPacing(counters, cands[..n]), cands[n], 0);
      assert Survivors(counters, cands[n], Paced(AfterPacing(counters, cands[..n]), cands[n]));
    }
  }

  /** After pacing every counter is lower by exactly the survivors' bids. */
  lemma {:induction false} PacingCostsSurvivors(counters: Counters, cands: seq<seq<AdCandidate>>, c: CampaignId)
    requires AllDistinct(cands)
    ensures At(AfterPacing(counters, cands), c) == At(counters, c) - HeldAll(PacedAll(counters, cands), c)
  {
    if cands != [] {
      var n := |cands| - 1;
      PacingCostsSurvivors(counters, cands[..n], c);
      PacingHoldsSurvivors(AfterPacing(counters, cands[..n]), cands[n], c);
      HeldAllAppend(PacedAll(counters, cands[..n]), Paced(AfterPacing(counters, cands[..n]), cands[n]), c);
    }
  }

  function ImpIdOf(imps: seq<string>, idx: nat): string {
    if idx < |imps| then imps[idx] else Digits(idx)
  }

  /** One winner for each impression that has candidates, in order. */
  function WinnersOf(imps: seq<string>, cands: seq<seq<AdCandidate>>): seq<ImpWinner> {
    if cands == [] then []
    else
      var n := |cands| - 1;
      WinnersOf(imps, cands[..n])
      + if cands[n] == [] then [] else [WinnerFor(ImpIdOf(imps, n), cands[n][Best(cands[n])])]
  }

  /** The impressions the winners belong to. */
  function Origins(cands: seq<seq<AdCandidate>>): seq<nat> {
    if cands == [] then []
    else
      var n := |cands| - 1;
      Origins(cands[..n]) + if cands[n] == [] then [] else [n]
  }

  function AfterRanking(counters: Counters, cands: seq<seq<AdCandidate>>): Counters {
    if cands == [] then counters
    else
      var n := |cands| - 1;
      var before := AfterRanking(counters, cands[..n]);
      if cands[n] == [] then before else AfterReleasing(before, cands[n], cands[n][Best(cands[n])].campaignId)
  }

  ghost function PriceWon(c: CampaignId): ImpWinner -> int {
    (w: ImpWinner) => if w.campaignId == c then w.bidPriceCents else 0
  }

  /** What the winners of a campaign bid together. */
  ghost function Spent(winners: seq<ImpWinner>, c: CampaignId): int { Total(winners, PriceWon(c)) }

  lemma {:induction false} RankingReleases(imps: seq<string>, counters: Counters, cands: seq<seq<AdCandidate>>,
                                           c: CampaignId)
    requires AllDistinct(cands)
    requires forall i, x :: 0 <= i < |cands| && x in cands[i] ==> x.campaignId in counters
    ensures AfterRanking(counters, cands).Keys == counters.Keys
    ensures At(AfterRanking(counters, cands), c)
      == At(counters, c) + HeldAll(cands, c) - Spent(WinnersOf(imps, cands), c)
  {
    if cands != [] {
      var n := |cands| - 1;
      var cs := cands[n];
      RankingReleases(imps, counters, cands[..n], c);
      assert cands == cands[..n] + [cs];
      HeldAllAppend(cands[..n], cs, c);
      if cs == [] {
        HeldZero(cs, c);
        assert WinnersOf(imps, cands[..n]) + [] == WinnersOf(imps, cands[..n]);
      } else {
        var w := cs[Best(cs)];
        ReleasingLedger(AfterRanking(counters, cands[..n]), cs, w.campaignId, c);
        HeldByOne(cs, Best(cs));
        var won := WinnerFor(ImpIdOf(imps, n), w);
        TotalConcat(WinnersOf(imps, cands[..n]), [won], PriceWon(c));
        TotalOne(won, PriceWon(c));
      }
    }
  }

  /** A whole auction: when pacing and ranking both run, every counter falls by exactly
      what its winners bid. */
  lemma AuctionCostsWinners(imps: seq<string>, counters: Counters, cands: seq<seq<AdCandidate>>, c: CampaignId)
    requires AllDistinct(cands)
    ensures var paced := PacedAll(counters, cands);
      At(AfterRanking(AfterPacing(counters, cands), paced), c) == At(counters, c) - Spent(WinnersOf(imps, paced), c)
  {
    PacedAllSurvive(counters, cands);
    PacingCostsSurvivors(counters, cands, c);
    var paced := PacedAll(counters, cands);
    assert forall i :: 0 <= i < |paced| ==> Survivors(counters, cands[i], paced[i]);
    RankingReleases(imps, AfterPacing(counters, cands), PacedAll(counters, cands), c);
  }

  /** Each winner is the best of its own impression; impressions come in order and none
      twice. */
  lemma {:induction false} WinnersAreBest(imps: seq<string>, cands: seq<seq<AdCandidate>>)
    ensures |Origins(cands)| == |WinnersOf(imps, cands)|
    ensures forall k :: 0 <= k < |Origins(cands)| ==>
      var i := Origins(cands)[k];
      i < |cands| && cands[i] != []
        && WinnersOf(imps, cands)[k] == WinnerFor(ImpIdOf(imps, i), cands[i][Best(cands[i])])
    ensures forall k, l :: 0 <= k < l < |Origins(cands)| ==> Origins(cands)[k] < Origins(cands)[l]
    ensures forall i :: 0 <= i < |cands| && cands[i] != [] ==> i in Origins(cands)
  {
    if cands != [] {
      var n := |cands| - 1;
      WinnersAreBest(imps, cands[..n]);
      assert forall i :: 0 <= i < n ==> cands[..n][i] == cands[i];
    }
  }
}
