/** The in-process cache joined with the path of an impression to Redis: what a win does to
    a cached verdict (frequency/in_process.rs, server/handlers.rs, bidder-server/src/freq_cap.rs). */
module StaleCaps {
  import opened Common
  import opened FrequencyKeys
  import opened FrequencyCap
  import WB = WriteBehind

  datatype Joint = Joint(cache: Cache, back: WB.System)

  /** The counters in Redis, as the landed writes made them. */
  function StoreOf(back: WB.System): Store { map k | k in back.increments :: back.increments[k] }

  datatype Action =
    | Warm(pair: WB.Pair)      // a check finds the pair cold, reads Redis and caches the counts
    | Step(action: WB.Action)  // any step of the write path

  function Recorded(cache: Cache, p: WB.Pair): Cache {
    var counters := if p.user in cache then cache[p.user] else map[];
    var (day, hour) := if p.campaign in counters then counters[p.campaign] else (0, 0);
    cache[p.user := counters[p.campaign := (day + 1, hour + 1)]]
  }

  /** A recorded impression raises both counts of its pair by one, from zero if it was cold, and
      touches no other pair. */
  lemma RecordedCounts(cache: Cache, p: WB.Pair, user: string, c: CampaignId)
    ensures Lookup(Recorded(cache, p), p.user, p.campaign) ==
      match Lookup(cache, p.user, p.campaign) case Some((d, h)) => Some((d + 1, h + 1)) case None => Some((1, 1))
    ensures (user, c) != (p.user, p.campaign) ==> Lookup(Recorded(cache, p), user, c) == Lookup(cache, user, c)
  {
  }

  /** Only `record_impression` and an eviction touch the cache; a win does not. */
  function CacheAfter(cache: Cache, a: WB.Action): Cache {
    match a
    case RecordImpression(p) => Recorded(cache, p)
    case Evict(user, _) => cache - {user}
    case _ => cache
  }

  function Fire(j: Joint, a: Action): Option<Joint> {
    match a
    case Warm(p) =>
      if Lookup(j.cache, p.user, p.campaign).Some? then None
      else
        var (day, hour) := Counts(StoreOf(j.back), p.user, p.campaign);
        Some(Joint(Warmed(j.cache, p.user, p.campaign, day, hour), WB.Cached(j.back, p)))
    case Step(b) =>
      if b.WarmCache? then None
      else
        match WB.Fire(j.back, b)
        case None => None
        case Some(back) => Some(Joint(CacheAfter(j.cache, b), back))
  }

  function Run(j: Joint, trace: seq<Action>): Option<Joint>
    decreases |trace|
  {
    if trace == [] then Some(j)
    else
      match Fire(j, trace[0])
      case None => None
      case Some(j') => Run(j', trace[1..])
  }

  /** The pair is neither recorded by the cache itself nor evicted. */
  ghost predicate Undisturbed(p: WB.Pair, trace: seq<Action>) {
    forall a :: a in trace && a.Step? ==>
      a.action != WB.RecordImpression(p) && (a.action.Evict? ==> a.action.user != p.user)
  }

  lemma FireKeepsCounts(j: Joint, a: Action, p: WB.Pair)
    requires Lookup(j.cache, p.user, p.campaign).Some? && Fire(j, a).Some? && Undisturbed(p, [a])
    ensures Lookup(Fire(j, a).value.cache, p.user, p.campaign) == Lookup(j.cache, p.user, p.campaign)
  {
    assert a in [a];
  }

  /** Once a pair is warm its cached counts are frozen: no win, drain, write or check of any
      user changes them before its user is evicted. */
  lemma {:induction false} CountsFrozen(j: Joint, trace: seq<Action>, p: WB.Pair)
    requires Lookup(j.cache, p.user, p.campaign).Some? && Run(j, trace).Some? && Undisturbed(p, trace)
    ensures Lookup(Run(j, trace).value.cache, p.user, p.campaign) == Lookup(j.cache, p.user, p.campaign)
    decreases |trace|
  {
    if trace != [] {
      assert trace[0] in trace;
      assert Undisturbed(p, [trace[0]]) && Undisturbed(p, trace[1..]);
      FireKeepsCounts(j, trace[0], p);
      CountsFrozen(Fire(j, trace[0]).value, trace[1..], p);
    }
  }

  /** So is the verdict on every candidate of the campaign. */
  lemma VerdictFrozen(j: Joint, trace: seq<Action>, user: string, c: AdCandidate)
    requires Lookup(j.cache, user, c.campaignId).Some? && Run(j, trace).Some?
    requires Undisturbed(WB.Pair(user, c.campaignId), trace)
    ensures var j' := Run(j, trace).value;
      forall store, answered :: InProcessVerdict(j'.cache, store, answered, user, c)
                             == Verdict(c, Lookup(j.cache, user, c.campaignId).value)
  {
    CountsFrozen(j, trace, WB.Pair(user, c.campaignId));
  }

  // Meanwhile the counters in Redis move with every write that lands.

  ghost predicate Lands(a: Action, p: WB.Pair, w: CapWindow) {
    a.Step? && a.action.Eval? && a.action.op == WB.Op(p, w) && !a.action.reply.Missed?
  }

  /** How many writes of the pair and window land in the run. */
  ghost function Landed(trace: seq<Action>, p: WB.Pair, w: CapWindow): nat {
    if trace == [] then 0 else (if Lands(trace[0], p, w) then 1 else 0) + Landed(trace[1..], p, w)
  }

  function KeyFor(p: WB.Pair, w: CapWindow): string { FcKey(p.user, "c", p.campaign, w) }

  ghost predicate NoWeek(back: WB.System) { forall op :: op in back.working ==> op.window != Week }

  lemma EvalIncrements(s: WB.System, op: WB.Op, reply: WB.Reply, p: WB.Pair, w: CapWindow)
    requires op in s.working && op.window != Week && w != Week
    ensures WB.Fire(s, WB.Eval(op, reply)).value.increments[KeyFor(p, w)]
         == s.increments[KeyFor(p, w)] + (if op == WB.Op(p, w) && !reply.Missed? then 1 else 0)
  {
    WriterKeyIsFcKey(op.pair.user, op.pair.campaign, op.window);
    if KeyFor(op.pair, op.window) == KeyFor(p, w) {
      FcKeyInjective(op.pair.user, op.pair.campaign, op.window, p.user, p.campaign, w);
    }
    EvaluatedIncrements(s, op, KeyFor(op.pair, op.window), reply, KeyFor(p, w));
  }

  lemma EvaluatedIncrements(s: WB.System, op: WB.Op, key: string, reply: WB.Reply, other: string)
    ensures WB.Evaluated(s, op, key, reply).increments[other]
         == s.increments[other] + (if key == other && !reply.Missed? then 1 else 0)
  {
  }

  lemma {:induction false} FlushedIncrements(s: WB.System, user: string, order: seq<CampaignId>)
    ensures WB.Flushed(s, user, order).increments == s.increments
    decreases |order|
  {
    if order != [] {
      var p := WB.Pair(user, order[0]);
      FlushedIncrements(WB.SentBoth(s.(log := s.log + multiset{WB.Evicted(p)}), p), user, order[1..]);
    }
  }

  lemma FireIncrements(j: Joint, a: Action, p: WB.Pair, w: CapWindow)
    requires NoWeek(j.back) && w != Week && Fire(j, a).Some?
    ensures NoWeek(Fire(j, a).value.back)
    ensures Fire(j, a).value.back.increments[KeyFor(p, w)]
         == j.back.increments[KeyFor(p, w)] + (if Lands(a, p, w) then 1 else 0)
  {
    if a.Step? {
      WB.WorkingWindows(j.back, a.action);
      match a.action
      case Eval(op, reply) => EvalIncrements(j.back, op, reply, p, w);
      case Evict(user, order) => FlushedIncrements(j.back.(cached := j.back.cached - {user}), user, order);
      case _ =>
    }
  }

  lemma {:induction false} RunIncrements(j: Joint, trace: seq<Action>, p: WB.Pair, w: CapWindow)
    requires NoWeek(j.back) && w != Week && Run(j, trace).Some?
    ensures Run(j, trace).value.back.increments[KeyFor(p, w)] == j.back.increments[KeyFor(p, w)] + Landed(trace, p, w)
    decreases |trace|
  {
    if trace != [] {
      FireIncrements(j, trace[0], p, w);
      RunIncrements(Fire(j, trace[0]).value, trace[1..], p, w);
    }
  }

  lemma CountIs(back: WB.System, key: string)
    ensures Count(StoreOf(back), key) == back.increments[key]
  {
  }

  /** The cached counts of the pair are Redis's. */
  ghost predicate PairCoherent(j: Joint, p: WB.Pair) {
    Lookup(j.cache, p.user, p.campaign) == Some(Counts(StoreOf(j.back), p.user, p.campaign))
  }

  /** Warming a cold pair puts it in step with Redis. */
  lemma WarmIsCoherent(j: Joint, p: WB.Pair)
    requires Fire(j, Warm(p)).Some?
    ensures PairCoherent(Fire(j, Warm(p)).value, p)
  {
  }

  /** A warm pair stays in step with Redis exactly as long as no write of it lands. */
  lemma StaleIff(j: Joint, trace: seq<Action>, p: WB.Pair)
    requires NoWeek(j.back) && PairCoherent(j, p) && Run(j, trace).Some? && Undisturbed(p, trace)
    ensures PairCoherent(Run(j, trace).value, p) <==> Landed(trace, p, Day) == 0 && Landed(trace, p, Hour) == 0
  {
    var j' := Run(j, trace).value;
    CountsFrozen(j, trace, p);
    RunIncrements(j, trace, p, Day);
    RunIncrements(j, trace, p, Hour);
    CountIs(j.back, KeyFor(p, Day));
    CountIs(j.back, KeyFor(p, Hour));
    CountIs(j'.back, KeyFor(p, Day));
    CountIs(j'.back, KeyFor(p, Hour));
  }

  // Any number of wins, all counted by Redis, that the cached verdict does not see.

  function OneWin(p: WB.Pair): seq<Action> {
    [Step(WB.WinNotice(p)), Step(WB.TakeEvent),
     Step(WB.Eval(WB.Op(p, Hour), WB.Landed)), Step(WB.Eval(WB.Op(p, Day), WB.Landed))]
  }

  function Wins(p: WB.Pair, n: nat): seq<Action> { if n == 0 then [] else OneWin(p) + Wins(p, n - 1) }

  ghost predicate AtRest(j: Joint) { j.back.recorder == [] && j.back.working == multiset{} }

  lemma OneWinRuns(j: Joint, p: WB.Pair) returns (j': Joint)
    requires AtRest(j) && p.user != ""
    ensures AtRest(j') && forall rest :: Run(j, OneWin(p) + rest) == Run(j', rest)
  {
    var ops := OneWin(p);
    var hour, day := WB.Op(p, Hour), WB.Op(p, Day);
    var j1 := Fire(j, ops[0]).value;
    assert j1.back.recorder == [p] && j1.back.working == multiset{};
    var j2 := Fire(j1, ops[1]).value;
    assert j2.back.recorder == [] && j2.back.working == multiset{hour};
    var j3 := Fire(j2, ops[2]).value;
    assert j3.back.recorder == [] && j3.back.working == multiset{day};
    j' := Fire(j3, ops[3]).value;
    assert j'.back.recorder == [] && j'.back.working == multiset{};
    forall rest ensures Run(j, ops + rest) == Run(j', rest) {
      FourSteps(j, j1, j2, j3, j', ops, rest);
    }
  }

  lemma FourSteps(j: Joint, j1: Joint, j2: Joint, j3: Joint, j4: Joint, ops: seq<Action>, rest: seq<Action>)
    requires |ops| == 4 && Fire(j, ops[0]) == Some(j1) && Fire(j1, ops[1]) == Some(j2)
    requires Fire(j2, ops[2]) == Some(j3) && Fire(j3, ops[3]) == Some(j4)
    ensures Run(j, ops + rest) == Run(j4, rest)
  {
    var t := ops + rest;
    assert t[1..] == ops[1..] + rest && t[1..][1..] == ops[2..] + rest;
    assert t[1..][1..][1..] == ops[3..] + rest && t[1..][1..][1..][1..] == rest;
    assert Run(j3, t[1..][1..][1..]) == Run(j4, rest);
    assert Run(j2, t[1..][1..]) == Run(j4, rest);
    assert Run(j1, t[1..]) == Run(j4, rest);
  }

  lemma {:induction false} WinsRun(j: Joint, p: WB.Pair, n: nat)
    requires AtRest(j) && p.user != ""
    ensures Run(j, Wins(p, n)).Some?
    decreases n
  {
    if n > 0 {
      var j' := OneWinRuns(j, p);
      WinsRun(j', p, n - 1);
      assert Run(j, Wins(p, n)) == Run(j', Wins(p, n - 1));
    }
  }

  lemma {:induction false} WinsLand(p: WB.Pair, n: nat)
    ensures Undisturbed(p, Wins(p, n))
    ensures Landed(Wins(p, n), p, Day) == n && Landed(Wins(p, n), p, Hour) == n
  {
    if n > 0 {
      WinsLand(p, n - 1);
      LandedInWin(p, Wins(p, n - 1));
    }
  }

  lemma LandedInWin(p: WB.Pair, rest: seq<Action>)
    ensures Landed(OneWin(p) + rest, p, Day) == 1 + Landed(rest, p, Day)
    ensures Landed(OneWin(p) + rest, p, Hour) == 1 + Landed(rest, p, Hour)
  {
    var t := OneWin(p) + rest;
    assert t[1..][1..][1..][1..] == rest;
    assert t[1..][0] == t[1] && t[1..][1..][0] == t[2] && t[1..][1..][1..][0] == t[3];
    assert Landed(t[1..][1..][1..], p, Day) == 1 + Landed(rest, p, Day);
    assert Landed(t[1..][1..][1..], p, Hour) == Landed(rest, p, Hour);
    assert Landed(t[1..][1..], p, Day) == 1 + Landed(rest, p, Day);
    assert Landed(t[1..][1..], p, Hour) == 1 + Landed(rest, p, Hour);
    assert Landed(t[1..], p, Day) == 1 + Landed(rest, p, Day);
    assert Landed(t[1..], p, Hour) == 1 + Landed(rest, p, Hour);
  }

  /** For every cap and every larger number of wins: a user checked once before the first of
      them is over the cap in Redis and under it in the cache. */
  lemma WinsUnseen(capacity: nat, user: string, c: AdCandidate, n: nat)
    requires user != "" && 0 < c.dailyCapImps <= n && c.hourlyCapImps > 0
    ensures var p := WB.Pair(user, c.campaignId);
      var end := Run(Joint(map[], WB.Start(capacity)), [Warm(p)] + Wins(p, n));
      && end.Some?
      && RedisVerdict(StoreOf(end.value.back), user, c).capped
      && forall store, answered :: !InProcessVerdict(end.value.cache, store, answered, user, c).capped
  {
    var p := WB.Pair(user, c.campaignId);
    var j := Joint(map[], WB.Start(capacity));
    var warm := Fire(j, Warm(p)).value;
    CountIs(j.back, KeyFor(p, Day));
    CountIs(j.back, KeyFor(p, Hour));
    assert Lookup(warm.cache, user, c.campaignId) == Some((0, 0));
    WinsRun(warm, p, n);
    WinsLand(p, n);
    assert ([Warm(p)] + Wins(p, n))[1..] == Wins(p, n);
    VerdictFrozen(warm, Wins(p, n), user, c);
    RunIncrements(warm, Wins(p, n), p, Day);
    CountIs(Run(warm, Wins(p, n)).value.back, KeyFor(p, Day));
  }
}
