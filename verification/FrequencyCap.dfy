/** The two frequency cappers: Redis-backed, and the in-process cache in front of
    it (bidder-server/src/freq_cap.rs, frequency/in_process.rs). */
module FrequencyCap {
  import opened Common
  import opened FrequencyKeys
  import opened CircuitBreaker

  datatype CapResult = CapResult(campaignId: CampaignId, capped: bool, dayCount: Option<int>, hourCount: Option<int>)

  datatype FreqCapOutcome = Checked(results: seq<CapResult>) | SkippedTimeout | SkippedNoUser

  /** How the MGET ends. */
  datatype Reply = Values | Failed | TimedOut

  /** The counters in Redis; a missing key counts as zero. */
  type Store = map<string, int>

  function Count(store: Store, key: string): int {
    if key in store then store[key] else 0
  }

  function Counts(store: Store, user: string, c: CampaignId): (int, int) {
    (Count(store, FcKey(user, "c", c, Day)), Count(store, FcKey(user, "c", c, Hour)))
  }

  /** The verdict the counts call for: a cap is reached, not exceeded. */
  function Verdict(c: AdCandidate, counts: (int, int)): CapResult {
    CapResult(c.campaignId, counts.0 >= c.dailyCapImps || counts.1 >= c.hourlyCapImps, Some(counts.0), Some(counts.1))
  }

  function RedisVerdict(store: Store, user: string, c: AdCandidate): CapResult {
    Verdict(c, Counts(store, user, c.campaignId))
  }

  /** MGET: one value, or none, for each key. */
  function Mget(store: Store, keys: seq<string>): (values: seq<Option<int>>)
    ensures |values| == |keys|
  {
    seq(|keys|, i requires 0 <= i < |keys| => if keys[i] in store then Some(store[keys[i]]) else None)
  }

  function OrZero(v: Option<int>): int {
    match v
    case Some(n) => n
    case None => 0
  }

  /** The day key and the hour key of each candidate, in turn. */
  ghost predicate Interleaved(user: string, candidates: seq<AdCandidate>, keys: seq<string>) {
    && |keys| == 2 * |candidates|
    && forall j :: 0 <= j < |candidates| ==>
         && keys[2 * j] == FcKey(user, "c", candidates[j].campaignId, Day)
         && keys[2 * j + 1] == FcKey(user, "c", candidates[j].campaignId, Hour)
  }

  /** Two values for each candidate, its own counters. */
  ghost predicate Aligned(store: Store, user: string, candidates: seq<AdCandidate>, values: seq<Option<int>>) {
    && |values| == 2 * |candidates|
    && forall j :: 0 <= j < |candidates| ==>
         (OrZero(values[2 * j]), OrZero(values[2 * j + 1])) == Counts(store, user, candidates[j].campaignId)
  }

  lemma MgetAligns(store: Store, user: string, candidates: seq<AdCandidate>, keys: seq<string>)
    requires Interleaved(user, candidates, keys)
    ensures Aligned(store, user, candidates, Mget(store, keys))
  {
  }

  /** Capped exactly when one of the two counts has reached its own cap. */
  predicate JudgedBy(r: CapResult, c: AdCandidate, day: int, hour: int) {
    && r.campaignId == c.campaignId && r.dayCount == Some(day) && r.hourCount == Some(hour)
    && (r.capped <==> day >= c.dailyCapImps || hour >= c.hourlyCapImps)
  }

  /** By the counts under the day key and the hour key of the candidate. */
  predicate JudgedByRedis(r: CapResult, c: AdCandidate, store: Store, user: string) {
    var day, hour := FcKey(user, "c", c.campaignId, Day), FcKey(user, "c", c.campaignId, Hour);
    JudgedBy(r, c, if day in store then store[day] else 0, if hour in store then store[hour] else 0)
  }

  ghost predicate AllJudgedByRedis(rs: seq<CapResult>, candidates: seq<AdCandidate>, store: Store, user: string) {
    |rs| == |candidates| && forall k :: 0 <= k < |rs| ==> JudgedByRedis(rs[k], candidates[k], store, user)
  }

  lemma RedisJudged(store: Store, user: string, candidates: seq<AdCandidate>)
    ensures AllJudgedByRedis(RedisVerdicts(store, user, candidates), candidates, store, user)
  {
  }

  /** The breaker after one more report on top of its window. */
  ghost function AfterReport(cfg: Config, inner: Inner, history: seq<Outcome>, error: bool, elapsed: nat,
                             now: nat): Inner {
    var slow := elapsed >= cfg.slowCallDuration;
    var h := history + [Outcome(error, slow)];
    Settle(cfg, inner, error, slow, |h|, ErrorsIn(h), SlowsIn(h), now)
  }

  class RedisFrequencyCapper {
    const breaker: Breaker
    /** How many MGETs were sent. */
    ghost var requests: nat

    constructor (b: Breaker)
      ensures breaker == b && requests == 0
    {
      breaker, requests := b, 0;
    }

    /** The day key and the hour key of each candidate, in turn. */
    method KeysFor(user: string, candidates: seq<AdCandidate>) returns (keys: seq<string>)
      ensures Interleaved(user, candidates, keys)
    {
      keys := [];
      for i := 0 to |candidates|
        invariant |keys| == 2 * i
        invariant forall j :: 0 <= j < i ==>
          && keys[2 * j] == FcKey(user, "c", candidates[j].campaignId, Day)
          && keys[2 * j + 1] == FcKey(user, "c", candidates[j].campaignId, Hour)
      {
        keys := keys + [FcKey(user, "c", candidates[i].campaignId, Day)];
        keys := keys + [FcKey(user, "c", candidates[i].campaignId, Hour)];
      }
    }

    /** Values aligned two to one with the candidates. */
    method Judge(user: string, candidates: seq<AdCandidate>, ghost store: Store, values: seq<Option<int>>)
      returns (results: seq<CapResult>)
      requires Aligned(store, user, candidates, values)
      ensures results == RedisVerdicts(store, user, candidates)
    {
      results := [];
      for i := 0 to |candidates|
        invariant |results| == i
        invariant forall j :: 0 <= j < i ==> results[j] == RedisVerdict(store, user, candidates[j])
      {
        var c := candidates[i];
        var day, hour := OrZero(values[2 * i]), OrZero(values[2 * i + 1]);
        var capped := day >= c.dailyCapImps || hour >= c.hourlyCapImps;
        results := results + [CapResult(c.campaignId, capped, Some(day), Some(hour))];
      }
    }

    /** If the breaker lets the call through and Redis answers, every candidate gets
        the verdict of its own two counters. Each call let through is reported. */
    method Check(user: string, candidates: seq<AdCandidate>, store: Store, reply: Reply, elapsed: nat, now: nat)
      returns (outcome: FreqCapOutcome)
      requires breaker.Valid()
      modifies this`requests, breaker
      ensures breaker.Valid()
      ensures candidates == [] ==>
        outcome == Checked([]) && requests == old(requests) && breaker.inner == old(breaker.inner)
        && breaker.reports == old(breaker.reports)
      ensures candidates != [] ==>
        var allowed := old(breaker.inner.state) == Closed || Enters(breaker.cfg, old(breaker.inner), now);
        && breaker.reports == old(breaker.reports) + (if allowed then 1 else 0)
        && requests == old(requests) + (if allowed then 1 else 0)
        && (!allowed ==> breaker.inner == old(breaker.inner))
        && (old(breaker.inner.state) == Closed ==>
              breaker.inner == AfterReport(breaker.cfg, old(breaker.inner), old(breaker.history), reply != Values,
                elapsed, now))
        && (outcome.Checked? <==> allowed && reply == Values)
        && (outcome.Checked? ==>
              outcome.results == RedisVerdicts(store, user, candidates))
        && !outcome.SkippedNoUser?
      ensures outcome.Checked? ==> AllJudgedByRedis(outcome.results, candidates, store, user)
    {
      if candidates == [] {
        return Checked([]);
      }
      var keys := KeysFor(user, candidates);
      var allowed := breaker.AllowRequest(now);
      if !allowed {
        return SkippedTimeout;
      }
      requests := requests + 1;
      breaker.RecordOutcome(reply != Values, elapsed, now);
      if reply != Values {
        return SkippedTimeout;
      }
      MgetAligns(store, user, candidates, keys);
      var results := Judge(user, candidates, store, Mget(store, keys));
      RedisJudged(store, user, candidates);
      return Checked(results);
    }
  }

  /** Per user, per campaign: the cached day and hour counts. */
  type Cache = map<string, map<CampaignId, (int, int)>>

  function Lookup(cache: Cache, user: string, c: CampaignId): Option<(int, int)> {
    if user in cache && c in cache[user] then Some(cache[user][c]) else None
  }

  /** `warm_cache`: insert, or raise each count that is lower. */
  function Warmed(cache: Cache, user: string, c: CampaignId, day: int, hour: int): Cache {
    var counters := if user in cache then cache[user] else map[];
    var (d, h) := if c in counters then counters[c] else (day, hour);
    cache[user := counters[c := (if day > d then day else d, if hour > h then hour else h)]]
  }

  /** Every cached pair of the user equals the counters in Redis. */
  ghost predicate Coherent(cache: Cache, store: Store, user: string) {
    forall c :: Lookup(cache, user, c).Some? ==> Lookup(cache, user, c).value == Counts(store, user, c)
  }

  /** The verdict of an in-process check: cached counts if there are any, else what
      Redis said if it answered, else "not capped". */
  function InProcessVerdict(cache: Cache, store: Store, answered: bool, user: string, c: AdCandidate): CapResult {
    match Lookup(cache, user, c.campaignId)
    case Some(counts) => Verdict(c, counts)
    case None => if answered then RedisVerdict(store, user, c) else CapResult(c.campaignId, false, None, None)
  }

  /** The candidates the cache does not know. */
  function Cold(cache: Cache, user: string, candidates: seq<AdCandidate>): seq<AdCandidate> {
    if candidates == [] then []
    else
      var last := candidates[|candidates| - 1];
      Cold(cache, user, candidates[..|candidates| - 1])
      + if Lookup(cache, user, last.campaignId).None? then [last] else []
  }

  lemma {:induction false} ColdMembers(cache: Cache, user: string, candidates: seq<AdCandidate>)
    ensures forall c :: c in Cold(cache, user, candidates) <==>
      c in candidates && Lookup(cache, user, c.campaignId).None?
  {
    if candidates != [] {
      var init := candidates[..|candidates| - 1];
      ColdMembers(cache, user, init);
      assert candidates == init + [candidates[|candidates| - 1]];
    }
  }

  lemma {:induction false} NoneCold(cache: Cache, user: string, candidates: seq<AdCandidate>)
    requires forall c :: c in candidates ==> Lookup(cache, user, c.campaignId).Some?
    ensures Cold(cache, user, candidates) == []
  {
    if candidates != [] {
      assert candidates[|candidates| - 1] in candidates;
      NoneCold(cache, user, candidates[..|candidates| - 1]);
    }
  }

  /** The slot of the first result for the campaign, if any. */
  function FindSlot(results: seq<CapResult>, c: CampaignId): (k: nat)
    ensures k <= |results|
    ensures k < |results| ==> results[k].campaignId == c
    ensures forall i :: 0 <= i < k ==> results[i].campaignId != c
  {
    if results == [] || results[0].campaignId == c then 0 else 1 + FindSlot(results[1..], c)
  }

  /** One answer of the fallback overwrites the first slot of its campaign. */
  function PatchedOne(results: seq<CapResult>, answer: CapResult): (r: seq<CapResult>)
    ensures |r| == |results|
  {
    var slot := FindSlot(results, answer.campaignId);
    if slot < |results| then
      results[slot := results[slot].(capped := answer.capped, dayCount := answer.dayCount,
        hourCount := answer.hourCount)]
    else results
  }

  function Patched(results: seq<CapResult>, answers: seq<CapResult>): (r: seq<CapResult>)
    ensures |r| == |results|
  {
    if answers == [] then results
    else PatchedOne(Patched(results, answers[..|answers| - 1]), answers[|answers| - 1])
  }

  function WarmedOne(cache: Cache, user: string, answer: CapResult): Cache {
    match (answer.dayCount, answer.hourCount)
    case (Some(day), Some(hour)) => Warmed(cache, user, answer.campaignId, day, hour)
    case _ => cache
  }

  function WarmedBy(cache: Cache, user: string, answers: seq<CapResult>): Cache {
    if answers == [] then cache
    else WarmedOne(WarmedBy(cache, user, answers[..|answers| - 1]), user, answers[|answers| - 1])
  }

  /** One verdict for each candidate, in order. */
  function RedisVerdicts(store: Store, user: string, candidates: seq<AdCandidate>): (r: seq<CapResult>)
    ensures |r| == |candidates|
  {
    seq(|candidates|, i requires 0 <= i < |candidates| => RedisVerdict(store, user, candidates[i]))
  }

  function InProcessVerdicts(cache: Cache, store: Store, answered: bool, user: string, candidates: seq<AdCandidate>):
    (r: seq<CapResult>)
    ensures |r| == |candidates|
  {
    seq(|candidates|, i requires 0 <= i < |candidates| => InProcessVerdict(cache, store, answered, user, candidates[i]))
  }

  /** At most one candidate of the list belongs to the campaign. */
  ghost predicate OnceIn(candidates: seq<AdCandidate>, id: CampaignId) {
    forall i, j :: 0 <= i < |candidates| && 0 <= j < |candidates|
      && candidates[i].campaignId == id == candidates[j].campaignId
      ==> i == j
  }

  lemma {:induction false} SlotOf(candidates: seq<AdCandidate>, results: seq<CapResult>, i: nat)
    requires |results| == |candidates| && i < |candidates| && OnceIn(candidates, candidates[i].campaignId)
    requires forall k :: 0 <= k < |candidates| ==> results[k].campaignId == candidates[k].campaignId
    ensures FindSlot(results, candidates[i].campaignId) == i
  {
  }

  lemma {:induction false} PatchedByPrefix(store: Store, user: string, candidates: seq<AdCandidate>,
                                           screened: seq<CapResult>, cold: seq<AdCandidate>)
    requires |screened| == |candidates|
    requires forall i :: 0 <= i < |candidates| ==> screened[i].campaignId == candidates[i].campaignId
    requires forall c :: c in cold ==> c in candidates && OnceIn(candidates, c.campaignId)
    ensures forall i :: 0 <= i < |candidates| ==>
      Patched(screened, RedisVerdicts(store, user, cold))[i] ==
      (if candidates[i] in cold then RedisVerdict(store, user, candidates[i]) else screened[i])
  {
    if cold != [] {
      var n := |cold| - 1;
      var answers := RedisVerdicts(store, user, cold);
      assert answers[..n] == RedisVerdicts(store, user, cold[..n]);
      assert cold == cold[..n] + [cold[n]] && cold[n] in cold;
      PatchedByPrefix(store, user, candidates, screened, cold[..n]);
      var i :| 0 <= i < |candidates| && candidates[i] == cold[n];
      SlotOf(candidates, Patched(screened, answers[..n]), i);
    }
  }

  /** No campaign that is missing from the cache occurs twice in the list. */
  ghost predicate ColdOnce(cache: Cache, user: string, candidates: seq<AdCandidate>) {
    forall i, j :: 0 <= i < j < |candidates| && candidates[i].campaignId == candidates[j].campaignId ==>
      Lookup(cache, user, candidates[i].campaignId).Some?
  }

  /** A slot behind another of the same campaign is never patched. */
  lemma {:induction false} LaterSlotUntouched(results: seq<CapResult>, answers: seq<CapResult>, i: nat, j: nat)
    requires i < j < |results| && results[i].campaignId == results[j].campaignId
    ensures Patched(results, answers)[j] == results[j]
    ensures forall k :: 0 <= k < |results| ==> Patched(results, answers)[k].campaignId == results[k].campaignId
  {
    if answers != [] {
      LaterSlotUntouched(results, answers[..|answers| - 1], i, j);
    }
  }

  /** A second cold candidate of a campaign keeps its placeholder, whatever Redis answers. */
  lemma PlaceholderStays(cache: Cache, store: Store, user: string, candidates: seq<AdCandidate>,
                         answers: seq<CapResult>, i: nat, j: nat)
    requires i < j < |candidates| && candidates[i].campaignId == candidates[j].campaignId
    requires Lookup(cache, user, candidates[i].campaignId).None?
    ensures Patched(InProcessVerdicts(cache, store, false, user, candidates), answers)
         != InProcessVerdicts(cache, store, true, user, candidates)
  {
    var screened := InProcessVerdicts(cache, store, false, user, candidates);
    LaterSlotUntouched(screened, answers, i, j);
    assert Patched(screened, answers)[j].dayCount.None?;
    assert InProcessVerdicts(cache, store, true, user, candidates)[j].dayCount.Some?;
  }

  /** After the patch loop each cold candidate has Redis's verdict and each warm one its
      cached verdict, exactly when no cold campaign occurs twice. */
  lemma PatchedVerdicts(cache: Cache, store: Store, user: string, candidates: seq<AdCandidate>)
    ensures Patched(InProcessVerdicts(cache, store, false, user, candidates),
                    RedisVerdicts(store, user, Cold(cache, user, candidates)))
         == InProcessVerdicts(cache, store, true, user, candidates)
      <==> ColdOnce(cache, user, candidates)
  {
    var cold := Cold(cache, user, candidates);
    var screened := InProcessVerdicts(cache, store, false, user, candidates);
    ColdMembers(cache, user, candidates);
    if ColdOnce(cache, user, candidates) {
      forall c | c in cold ensures OnceIn(candidates, c.campaignId) {
      }
      PatchedByPrefix(store, user, candidates, screened, cold);
    } else {
      var i, j :| 0 <= i < j < |candidates| && candidates[i].campaignId == candidates[j].campaignId
        && Lookup(cache, user, candidates[i].campaignId).None?;
      PlaceholderStays(cache, store, user, candidates, RedisVerdicts(store, user, cold), i, j);
    }
  }

  ghost function Ids(candidates: seq<AdCandidate>): set<CampaignId> {
    set c | c in candidates :: c.campaignId
  }

  lemma WarmedOnePair(cache: Cache, user: string, answer: CapResult, u: string, c: CampaignId)
    requires answer.dayCount.Some? && answer.hourCount.Some?
    requires Lookup(cache, user, answer.campaignId) in {None, Some((answer.dayCount.value, answer.hourCount.value))}
    ensures Lookup(WarmedOne(cache, user, answer), u, c)
         == if u == user && c == answer.campaignId then Some((answer.dayCount.value, answer.hourCount.value))
            else Lookup(cache, u, c)
  {
  }

  ghost predicate Larger(r: int, a: int, b: int) { r >= a && r >= b && (r == a || r == b) }

  /** Warming a pair never lowers a count, and touches no other pair. */
  lemma WarmedRaises(cache: Cache, user: string, c: CampaignId, day: int, hour: int, u: string, d: CampaignId)
    ensures var before, after := Lookup(cache, user, c), Lookup(Warmed(cache, user, c, day, hour), user, c);
      && after.Some? && (before.None? ==> after.value == (day, hour))
      && (before.Some? ==> Larger(after.value.0, before.value.0, day) && Larger(after.value.1, before.value.1, hour))
    ensures (u, d) != (user, c) ==> Lookup(Warmed(cache, user, c, day, hour), u, d) == Lookup(cache, u, d)
  {
  }

  /** Warming writes the counters of Redis for the cold campaigns of the list, and
      leaves every other pair of every user alone. */
  lemma {:induction false} WarmedLookup(cache: Cache, store: Store, user: string, cold: seq<AdCandidate>, u: string,
                                        c: CampaignId)
    requires forall x :: x in cold ==> Lookup(cache, user, x.campaignId).None?
    ensures Lookup(WarmedBy(cache, user, RedisVerdicts(store, user, cold)), u, c)
         == if u == user && c in Ids(cold) then Some(Counts(store, user, c)) else Lookup(cache, u, c)
    decreases |cold|
  {
    if cold != [] {
      var n := |cold| - 1;
      var answers := RedisVerdicts(store, user, cold);
      assert answers[..n] == RedisVerdicts(store, user, cold[..n]);
      assert cold == cold[..n] + [cold[n]] && cold[n] in cold;
      assert Ids(cold) == Ids(cold[..n]) + {cold[n].campaignId};
      WarmedLookup(cache, store, user, cold[..n], u, c);
      WarmedLookup(cache, store, user, cold[..n], user, cold[n].campaignId);
      WarmedOnePair(WarmedBy(cache, user, answers[..n]), user, answers[n], u, c);
    }
  }

  predicate JudgedInProcess(r: CapResult, c: AdCandidate, cache: Cache, store: Store, user: string, answered: bool) {
    if user in cache && c.campaignId in cache[user] then
      JudgedBy(r, c, cache[user][c.campaignId].0, cache[user][c.campaignId].1)
    else if answered then JudgedByRedis(r, c, store, user)
    else r.campaignId == c.campaignId && !r.capped && r.dayCount == None && r.hourCount == None
  }

  ghost predicate AllJudgedInProcess(rs: seq<CapResult>, candidates: seq<AdCandidate>, cache: Cache, store: Store,
                                     user: string, answered: bool) {
    && |rs| == |candidates|
    && forall k :: 0 <= k < |rs| ==> JudgedInProcess(rs[k], candidates[k], cache, store, user, answered)
  }

  lemma InProcessJudged(cache: Cache, store: Store, answered: bool, user: string, candidates: seq<AdCandidate>)
    ensures AllJudgedInProcess(InProcessVerdicts(cache, store, answered, user, candidates),
                               candidates, cache, store, user, answered)
  {
  }

  class InProcessFrequencyCapper {
    const fallback: RedisFrequencyCapper
    const breaker: Breaker
    var cache: Cache

    ghost predicate Valid()
      reads this, breaker
    {
      breaker.Valid() && fallback.breaker == breaker
    }

    constructor (f: RedisFrequencyCapper)
      requires f.breaker.Valid()
      ensures Valid() && fallback == f && breaker == f.breaker && cache == map[]
    {
      fallback, breaker, cache := f, f.breaker, map[];
    }

    method WarmCache(user: string, c: CampaignId, day: int, hour: int)
      modifies this`cache
      ensures cache == Warmed(old(cache), user, c, day, hour)
    {
      var counters := if user in cache then cache[user] else map[];
      var pair := if c in counters then counters[c] else (day, hour);
      if day > pair.0 {
        pair := (day, pair.1);
      }
      if hour > pair.1 {
        pair := (pair.0, hour);
      }
      cache := cache[user := counters[c := pair]];
    }

    /** The first loop of `check`: verdicts for the warm candidates, placeholders for
        the cold ones. */
    method Screen(user: string, candidates: seq<AdCandidate>)
      returns (results: seq<CapResult>, cold: seq<AdCandidate>)
      ensures cold == Cold(cache, user, candidates)
      ensures forall store :: results == InProcessVerdicts(cache, store, false, user, candidates)
    {
      results, cold := [], [];
      for i := 0 to |candidates|
        invariant |results| == i && cold == Cold(cache, user, candidates[..i])
        invariant forall j :: 0 <= j < i ==> results[j] == InProcessVerdict(cache, map[], false, user, candidates[j])
      {
        var c := candidates[i];
        assert candidates[..i + 1][..i] == candidates[..i];
        match Lookup(cache, user, c.campaignId) {
          case Some((day, hour)) =>
            var capped := day >= c.dailyCapImps || hour >= c.hourlyCapImps;
            results := results + [CapResult(c.campaignId, capped, Some(day), Some(hour))];
          case None =>
            cold := cold + [c];
            results := results + [CapResult(c.campaignId, false, None, None)];
        }
      }
      assert candidates[..|candidates|] == candidates;
    }

    /** The patch loop over the answers of the fallback. */
    method Patch(user: string, screened: seq<CapResult>, answers: seq<CapResult>) returns (results: seq<CapResult>)
      modifies this`cache
      ensures results == Patched(screened, answers) && cache == WarmedBy(old(cache), user, answers)
    {
      results := screened;
      for k := 0 to |answers|
        invariant results == Patched(screened, answers[..k])
        invariant cache == WarmedBy(old(cache), user, answers[..k])
      {
        var answer := answers[k];
        assert answers[..k + 1][..k] == answers[..k];
        var slot := FindSlot(results, answer.campaignId);
        if slot < |results| {
          results := results[slot := results[slot].(capped := answer.capped, dayCount := answer.dayCount,
            hourCount := answer.hourCount)];
        }
        if answer.dayCount.Some? && answer.hourCount.Some? {
          WarmCache(user, answer.campaignId, answer.dayCount.value, answer.hourCount.value);
        }
      }
      assert answers[..|answers|] == answers;
    }

    method Check(user: string, candidates: seq<AdCandidate>, store: Store, reply: Reply, elapsed: nat, now: nat,
                 later: nat)
      returns (outcome: FreqCapOutcome)
      requires Valid() && now <= later
      modifies this`cache, fallback`requests, breaker
      ensures Valid()
      // Refused by the breaker: nothing is served from the cache.
      ensures outcome.SkippedTimeout? <==>
        old(breaker.inner.state) != Closed && !Enters(breaker.cfg, old(breaker.inner), now)
      ensures outcome.SkippedTimeout? ==> cache == old(cache) && fallback.requests == old(fallback.requests)
      ensures !outcome.SkippedNoUser?
      // Admitted: one verdict per candidate, patched and cached if Redis answered.
      ensures outcome.Checked? ==>
        var cold := Cold(old(cache), user, candidates);
        var answered := old(breaker.inner.state) == Closed && reply == Values;
        var screened := InProcessVerdicts(old(cache), store, false, user, candidates);
        && outcome.results == (if answered then Patched(screened, RedisVerdicts(store, user, cold)) else screened)
        && (ColdOnce(old(cache), user, candidates) ==>
              outcome.results == InProcessVerdicts(old(cache), store, answered, user, candidates))
        && cache == (if answered then WarmedBy(old(cache), user, RedisVerdicts(store, user, cold)) else old(cache))
        && fallback.requests
           == old(fallback.requests) + (if old(breaker.inner.state) == Closed && cold != [] then 1 else 0)
      // In words of counts and caps: a warm candidate by its cached counts; a cold one by Redis's if
      // it answered, else not capped.
      ensures outcome.Checked? && ColdOnce(old(cache), user, candidates) ==>
        AllJudgedInProcess(outcome.results, candidates, old(cache), store, user,
                           old(breaker.inner.state) == Closed && reply == Values)
      // The breaker hears of a check exactly when it found the breaker closed and asked Redis; one
      // that takes the probe slot reports nothing and leaves the breaker half-open.
      ensures breaker.reports == old(breaker.reports)
        + (if old(breaker.inner.state) == Closed && Cold(old(cache), user, candidates) != [] then 1 else 0)
      ensures old(breaker.inner.state) == Closed && Cold(old(cache), user, candidates) != [] ==>
        breaker.inner == AfterReport(breaker.cfg, old(breaker.inner), old(breaker.history), reply != Values,
          elapsed, later)
      ensures breaker.reports == old(breaker.reports) ==>
        if Enters(breaker.cfg, old(breaker.inner), now) then breaker.inner.state == HalfOpen
        else breaker.inner == old(breaker.inner)
    {
      var allowed := breaker.AllowRequest(now);
      if !allowed {
        return SkippedTimeout;
      }
      var results, cold := Screen(user, candidates);
      assert results == InProcessVerdicts(cache, store, false, user, candidates);
      PatchedVerdicts(cache, store, user, candidates);
      InProcessJudged(cache, store, true, user, candidates);
      InProcessJudged(cache, store, false, user, candidates);
      if cold != [] {
        var answer := fallback.Check(user, cold, store, reply, elapsed, later);
        if answer.Checked? {
          results := Patch(user, results, answer.results);
        }
      }
      return Checked(results);
    }

    /** With a closed breaker, Redis answering and a coherent cache, the in-process
        check gives exactly the verdicts of the Redis capper, keeps the cache coherent,
        and an identical second check needs no Redis call. */
    method CheckTwice(user: string, candidates: seq<AdCandidate>, store: Store, elapsed: nat, now: nat)
      returns (first: FreqCapOutcome, second: FreqCapOutcome)
      requires Valid() && ColdOnce(cache, user, candidates) && Coherent(cache, store, user)
      requires breaker.inner.state == Closed
      modifies this`cache, fallback`requests, breaker
      ensures Valid() && Coherent(cache, store, user)
      ensures first == Checked(RedisVerdicts(store, user, candidates))
      ensures fallback.requests == old(fallback.requests) + (if Cold(old(cache), user, candidates) == [] then 0 else 1)
      // The second check is skipped exactly when the report of the first opened the breaker.
      ensures var reported := AfterReport(breaker.cfg, old(breaker.inner), old(breaker.history), false, elapsed, now);
        var tripped := Cold(old(cache), user, candidates) != [] && reported.state != Closed;
        second == if tripped && !Enters(breaker.cfg, reported, now) then SkippedTimeout else first
      ensures forall c :: c in candidates ==> Lookup(cache, user, c.campaignId).Some?
    {
      CoherentVerdicts(cache, store, user, candidates);
      first := Check(user, candidates, store, Values, elapsed, now, now);
      CoherentVerdicts(cache, store, user, candidates);
      second := Check(user, candidates, store, Values, elapsed, now, now);
    }
  }

  /** Over a coherent cache the in-process verdicts are Redis's, and warming keeps the
      cache coherent and leaves no candidate cold. */
  lemma CoherentVerdicts(cache: Cache, store: Store, user: string, candidates: seq<AdCandidate>)
    requires Coherent(cache, store, user)
    ensures InProcessVerdicts(cache, store, true, user, candidates) == RedisVerdicts(store, user, candidates)
    ensures var warm := WarmedBy(cache, user, RedisVerdicts(store, user, Cold(cache, user, candidates)));
      && Coherent(warm, store, user)
      && Cold(warm, user, candidates) == []
      && forall c :: c in candidates ==> Lookup(warm, user, c.campaignId).Some?
    ensures Cold(cache, user, candidates) == [] ==>
      InProcessVerdicts(cache, store, false, user, candidates) == RedisVerdicts(store, user, candidates)
  {
    var cold := Cold(cache, user, candidates);
    var warm := WarmedBy(cache, user, RedisVerdicts(store, user, cold));
    ColdMembers(cache, user, candidates);
    forall c: CampaignId ensures Lookup(warm, user, c) ==
      if c in Ids(cold) then Some(Counts(store, user, c)) else Lookup(cache, user, c)
    {
      WarmedLookup(cache, store, user, cold, user, c);
    }
    forall c | c in candidates ensures Lookup(warm, user, c.campaignId).Some? {
      assert Lookup(cache, user, c.campaignId).Some? || c.campaignId in Ids(cold);
    }
    NoneCold(warm, user, candidates);
    forall i | 0 <= i < |candidates| && cold == [] ensures Lookup(cache, user, candidates[i].campaignId).Some? {
      assert candidates[i] !in cold;
    }
  }
}
