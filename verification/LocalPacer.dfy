/** The in-process budget pacer as the object a request uses (pacing/local.rs). */
module LocalPacer {
  import opened Common

  datatype PaceDecision = HasBudget | Exhausted

  type Counters = map<CampaignId, int>

  /** A reservation succeeds exactly when the counter was positive. */
  predicate Grants(counters: Counters, c: CampaignId) { c in counters && counters[c] > 0 }

  function Reserved(counters: Counters, c: CampaignId, bid: int): Counters {
    if Grants(counters, c) then counters[c := counters[c] - bid] else counters
  }

  function Released(counters: Counters, c: CampaignId, bid: int): Counters {
    if c in counters then counters[c := counters[c] + bid] else counters
  }

  function Reloaded(counters: Counters, budgets: seq<(CampaignId, int)>): Counters {
    if budgets == [] then counters
    else Reloaded(counters, budgets[..|budgets| - 1])[budgets[|budgets| - 1].0 := budgets[|budgets| - 1].1]
  }

  ghost predicate IsLast(budgets: seq<(CampaignId, int)>, i: nat)
    requires i < |budgets|
  {
    forall j :: i < j < |budgets| ==> budgets[j].0 != budgets[i].0
  }

  ghost predicate Unlisted(budgets: seq<(CampaignId, int)>, c: CampaignId) {
    forall i :: 0 <= i < |budgets| ==> budgets[i].0 != c
  }

  /** The last entry of a campaign becomes its counter. */
  lemma {:induction false} ReloadedLast(counters: Counters, budgets: seq<(CampaignId, int)>, i: nat)
    requires i < |budgets| && IsLast(budgets, i)
    ensures budgets[i].0 in Reloaded(counters, budgets) && Reloaded(counters, budgets)[budgets[i].0] == budgets[i].1
    decreases |budgets|
  {
    var n := |budgets| - 1;
    if i < n {
      assert budgets[..n][i] == budgets[i];
      ReloadedLast(counters, budgets[..n], i);
    }
  }

  /** Campaigns that are not listed keep theirs. */
  lemma {:induction false} ReloadedKeeps(counters: Counters, budgets: seq<(CampaignId, int)>, c: CampaignId)
    requires Unlisted(budgets, c)
    ensures c in Reloaded(counters, budgets) <==> c in counters
    ensures c in counters ==> Reloaded(counters, budgets)[c] == counters[c]
  {
    if budgets != [] {
      var n := |budgets| - 1;
      assert forall i :: 0 <= i < n ==> budgets[..n][i] == budgets[i];
      ReloadedKeeps(counters, budgets[..n], c);
    }
  }

  class LocalBudgetPacer {
    var counters: Counters

    constructor ()
      ensures counters == map[]
    {
      counters := map[];
    }

    /** The optimistic subtraction, undone when the counter was already exhausted. */
    method CheckAndReserve(c: CampaignId, bid: int) returns (decision: PaceDecision)
      modifies this
      ensures counters == Reserved(old(counters), c, bid)
      ensures decision == if Grants(old(counters), c) then HasBudget else Exhausted
    {
      if c !in counters {
        return Exhausted;
      }
      var prev := counters[c];
      counters := counters[c := prev - bid];
      if prev <= 0 {
        counters := counters[c := counters[c] + bid];
        return Exhausted;
      }
      return HasBudget;
    }

    method Release(c: CampaignId, bid: int)
      modifies this
      ensures counters == Released(old(counters), c, bid)
    {
      if c in counters {
        counters := counters[c := counters[c] + bid];
      }
    }

    method Reload(budgets: seq<(CampaignId, int)>)
      modifies this
      ensures counters == Reloaded(old(counters), budgets)
      ensures forall i :: 0 <= i < |budgets| && IsLast(budgets, i) ==>
        budgets[i].0 in counters && counters[budgets[i].0] == budgets[i].1
      ensures forall c :: Unlisted(budgets, c) ==>
        (c in counters <==> c in old(counters)) && (c in counters ==> counters[c] == old(counters)[c])
    {
      for i := 0 to |budgets|
        invariant counters == Reloaded(old(counters), budgets[..i])
      {
        assert budgets[..i + 1][..i] == budgets[..i];
        counters := counters[budgets[i].0 := budgets[i].1];
      }
      assert budgets[..|budgets|] == budgets;
      forall i | 0 <= i < |budgets| && IsLast(budgets, i)
        ensures budgets[i].0 in counters && counters[budgets[i].0] == budgets[i].1
      {
        ReloadedLast(old(counters), budgets, i);
      }
      forall c | Unlisted(budgets, c)
        ensures (c in counters <==> c in old(counters)) && (c in counters ==> counters[c] == old(counters)[c])
      {
        ReloadedKeeps(old(counters), budgets, c);
      }
    }
  }

  /** Releasing a granted reservation restores the counters. */
  lemma ReleaseUndoesReserve(counters: Counters, c: CampaignId, bid: int)
    requires Grants(counters, c)
    ensures Released(Reserved(counters, c, bid), c, bid) == counters
  {
    assert counters[c := counters[c] - bid][c := counters[c]] == counters;
  }
}
