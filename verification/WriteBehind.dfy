/** How an impression travels from the in-process cache to the Redis counters:
    write-behind channel, drain task, recorder channel, workers
    (frequency/in_process.rs, main.rs, bidder-server/src/freq_cap.rs). */
module WriteBehind {
  import opened Common
  import opened FrequencyKeys

  datatype Pair = Pair(user: string, campaign: CampaignId)

  datatype Op = Op(pair: Pair, window: CapWindow)

  /** What happened so far; each entry is counted with its multiplicity. */
  datatype Event =
    | Recorded(pair: Pair)                  // `record_impression` was called
    | Evicted(pair: Pair)                   // the user's cache entry, holding the campaign, left the cache
    | Won(pair: Pair)                       // the win handler recorded an impression
    | DayOpDropped(pair: Pair)              // write-behind channel full
    | RecorderFull(pair: Pair)              // recorder channel full
    | EvalFailed(pair: Pair, window: CapWindow)  // a worker counted a write error
    | ReplyLost(pair: Pair, window: CapWindow)   // the write behind such an error had landed

  /** How an EVAL ends: done, not done, or done with the reply lost. */
  datatype Reply = Landed | Missed | Unheard

  /** `working` holds, for each event a worker took, the next window to write. */
  datatype System = System(
    capacity: nat,
    cached: map<string, set<CampaignId>>,
    queue: seq<Op>,
    recorder: seq<Pair>,
    working: multiset<Op>,
    increments: multiset<string>,
    log: multiset<Event>)

  const RECORDER_CAPACITY: nat := 65536

  datatype Action =
    | RecordImpression(pair: Pair)
    | WarmCache(pair: Pair)
    | Evict(user: string, order: seq<CampaignId>)  // the order in which the listener visits the campaigns
    | WinNotice(pair: Pair)
    | DrainOne
    | TakeEvent
    | Eval(op: Op, reply: Reply)

  /** `try_send` on the write-behind channel. */
  function Sent(s: System, op: Op): System {
    if |s.queue| < s.capacity then s.(queue := s.queue + [op])
    else if op.window == Day then s.(log := s.log + multiset{DayOpDropped(op.pair)})
    else s
  }

  function SentBoth(s: System, pair: Pair): System {
    Sent(Sent(s, Op(pair, Day)), Op(pair, Hour))
  }

  /** `try_record` on the recorder channel. */
  function TryRecord(s: System, pair: Pair): System {
    if |s.recorder| < RECORDER_CAPACITY then s.(recorder := s.recorder + [pair])
    else s.(log := s.log + multiset{RecorderFull(pair)})
  }

  function Cached(s: System, pair: Pair): System {
    var campaigns := if pair.user in s.cached then s.cached[pair.user] else {};
    s.(cached := s.cached[pair.user := campaigns + {pair.campaign}])
  }

  /** The eviction listener: a day and an hour op for each campaign of the entry. */
  function Flushed(s: System, user: string, order: seq<CampaignId>): System
    decreases |order|
  {
    if order == [] then s
    else
      var pair := Pair(user, order[0]);
      Flushed(SentBoth(s.(log := s.log + multiset{Evicted(pair)}), pair), user, order[1..])
  }

  function Fire(s: System, a: Action): Option<System> {
    match a
    case RecordImpression(pair) =>
      Some(SentBoth(Cached(s, pair).(log := s.log + multiset{Recorded(pair)}), pair))
    case WarmCache(pair) => Some(Cached(s, pair))
    case Evict(user, order) =>
      if user in s.cached && multiset(order) == multiset(s.cached[user]) then
        Some(Flushed(s.(cached := s.cached - {user}), user, order))
      else None
    case WinNotice(pair) =>
      if pair.user == "" then Some(s) else Some(TryRecord(s.(log := s.log + multiset{Won(pair)}), pair))
    case DrainOne =>
      if s.queue == [] then None
      else
        var op, rest := s.queue[0], s.(queue := s.queue[1..]);
        if op.window == Day then Some(TryRecord(rest, op.pair)) else Some(rest)
    case TakeEvent =>
      if s.recorder == [] then None
      else Some(s.(recorder := s.recorder[1..], working := s.working + multiset{Op(s.recorder[0], Hour)}))
    case Eval(op, reply) =>
      if op in s.working then
        Some(Evaluated(s, op, WriterKey(op.pair.user, op.pair.campaign, Suffix(op.window)), reply))
      else None
  }

  /** One EVAL of a worker; the hour key comes before the day key. */
  function Evaluated(s: System, op: Op, key: string, reply: Reply): System {
    var next := if op.window == Hour then multiset{Op(op.pair, Day)} else multiset{};
    var s' := s.(working := s.working - multiset{op} + next);
    s'.(increments := if reply.Missed? then s.increments else s.increments + multiset{key},
        log := Logged(s.log, op, reply))
  }

  /** An error is counted whether or not the write landed. */
  function Logged(log: multiset<Event>, op: Op, reply: Reply): multiset<Event> {
    match reply
    case Landed => log
    case Missed => log + multiset{EvalFailed(op.pair, op.window)}
    case Unheard => log + multiset{EvalFailed(op.pair, op.window)} + multiset{ReplyLost(op.pair, op.window)}
  }

  function Run(s: System, trace: seq<Action>): Option<System>
    decreases |trace|
  {
    if trace == [] then Some(s)
    else
      match Fire(s, trace[0])
      case None => None
      case Some(s') => Run(s', trace[1..])
  }

  function Start(capacity: nat): System {
    System(capacity, map[], [], [], multiset{}, multiset{}, multiset{})
  }

  /** Impressions of the pair still on their way to the counter of the window. */
  ghost function InTransit(s: System, pair: Pair, w: CapWindow): nat {
    multiset(s.queue)[Op(pair, Day)] + multiset(s.recorder)[pair] + s.working[Op(pair, Hour)]
    + if w == Day then s.working[Op(pair, Day)] else 0
  }

  ghost function Lost(s: System, pair: Pair, w: CapWindow): nat {
    s.log[DayOpDropped(pair)] + s.log[RecorderFull(pair)] + s.log[EvalFailed(pair, w)]
  }

  ghost function Entered(s: System, pair: Pair): nat {
    s.log[Recorded(pair)] + s.log[Evicted(pair)] + s.log[Won(pair)]
  }

  /** Writes of the pair that landed although they were counted as lost. */
  ghost function Miscounted(s: System, pair: Pair, w: CapWindow): nat { s.log[ReplyLost(pair, w)] }

  ghost predicate Balanced(s: System, pair: Pair, w: CapWindow) {
    s.increments[FcKey(pair.user, "c", pair.campaign, w)] + InTransit(s, pair, w) + Lost(s, pair, w)
    == Entered(s, pair) + Miscounted(s, pair, w)
  }

  ghost predicate Inv(s: System) {
    && (forall op :: op in s.working ==> op.window != Week)
    && forall pair, w :: w != Week ==> Balanced(s, pair, w)
  }

  lemma HeadOut<T>(xs: seq<T>)
    requires xs != []
    ensures multiset(xs) == multiset{xs[0]} + multiset(xs[1..])
  {
    assert xs == [xs[0]] + xs[1..];
  }

  /** Sending a day op moves one impression into transit, or counts it lost; an hour
      op changes nothing that is counted. */
  lemma SentBalance(s: System, op: Op, pair: Pair, w: CapWindow)
    ensures var s' := Sent(s, op);
      && s'.increments == s.increments && s'.working == s.working
      && Entered(s', pair) == Entered(s, pair) && Miscounted(s', pair, w) == Miscounted(s, pair, w)
      && InTransit(s', pair, w) + Lost(s', pair, w)
         == InTransit(s, pair, w) + Lost(s, pair, w) + (if op == Op(pair, Day) then 1 else 0)
  {
    var s' := Sent(s, op);
    if |s.queue| < s.capacity {
      assert multiset(s'.queue) == multiset(s.queue) + multiset{op};
    } else {
      assert multiset(s'.queue) == multiset(s.queue);
    }
  }

  lemma TryRecordBalance(s: System, p: Pair, pair: Pair, w: CapWindow)
    ensures var s' := TryRecord(s, p);
      && s'.increments == s.increments && s'.working == s.working
      && Entered(s', pair) == Entered(s, pair) && Miscounted(s', pair, w) == Miscounted(s, pair, w)
      && InTransit(s', pair, w) + Lost(s', pair, w)
         == InTransit(s, pair, w) + Lost(s, pair, w) + (if p == pair then 1 else 0)
  {
    if |s.recorder| < RECORDER_CAPACITY {
      assert multiset(TryRecord(s, p).recorder) == multiset(s.recorder) + multiset{p};
    }
  }

  lemma SentBothBalance(s: System, p: Pair, e: Event, pair: Pair, w: CapWindow)
    requires e == Recorded(p) || e == Evicted(p)
    requires Balanced(s, pair, w)
    ensures var s' := SentBoth(s.(log := s.log + multiset{e}), p);
      Balanced(s', pair, w) && s'.working == s.working
  {
    var s1 := s.(log := s.log + multiset{e});
    assert Entered(s1, pair) == Entered(s, pair) + (if p == pair then 1 else 0);
    assert Lost(s1, pair, w) == Lost(s, pair, w) && Miscounted(s1, pair, w) == Miscounted(s, pair, w)
      && InTransit(s1, pair, w) == InTransit(s, pair, w);
    SentBalance(s1, Op(p, Day), pair, w);
    SentBalance(Sent(s1, Op(p, Day)), Op(p, Hour), pair, w);
  }

  lemma {:induction false} FlushedBalance(s: System, user: string, order: seq<CampaignId>, pair: Pair, w: CapWindow)
    requires Balanced(s, pair, w)
    ensures Balanced(Flushed(s, user, order), pair, w) && Flushed(s, user, order).working == s.working
    decreases |order|
  {
    if order != [] {
      var p := Pair(user, order[0]);
      SentBothBalance(s, p, Evicted(p), pair, w);
      FlushedBalance(SentBoth(s.(log := s.log + multiset{Evicted(p)}), p), user, order[1..], pair, w);
    }
  }

  lemma DrainBalance(s: System, pair: Pair, w: CapWindow)
    requires s.queue != [] && Balanced(s, pair, w)
    ensures Balanced(Fire(s, DrainOne).value, pair, w)
  {
    HeadOut(s.queue);
    TryRecordBalance(s.(queue := s.queue[1..]), s.queue[0].pair, pair, w);
  }

  /** One EVAL takes the op out of transit; an hour op becomes a day op. */
  lemma EvaluatedTransit(s: System, op: Op, key: string, reply: Reply, pair: Pair, w: CapWindow)
    requires op in s.working && op.window != Week && w != Week
    ensures InTransit(Evaluated(s, op, key, reply), pair, w)
         == InTransit(s, pair, w) - (if op == Op(pair, w) then 1 else 0)
  {
    var s' := Evaluated(s, op, key, reply);
    var hour, day := Op(pair, Hour), Op(pair, Day);
    assert s'.working[hour] == s.working[hour] - (if op == hour then 1 else 0);
    assert s'.working[day] == s.working[day] + (if op == hour then 1 else 0) - (if op == day then 1 else 0);
  }

  lemma LoggedCounts(log: multiset<Event>, op: Op, reply: Reply, e: Event)
    ensures Logged(log, op, reply)[e] == log[e]
      + (if !reply.Landed? && e == EvalFailed(op.pair, op.window) then 1 else 0)
      + (if reply.Unheard? && e == ReplyLost(op.pair, op.window) then 1 else 0)
  {
  }

  lemma EvaluatedLog(s: System, op: Op, key: string, reply: Reply, pair: Pair, w: CapWindow)
    ensures var s' := Evaluated(s, op, key, reply);
      var due := if op == Op(pair, w) then 1 else 0;
      && Entered(s', pair) == Entered(s, pair)
      && Lost(s', pair, w) == Lost(s, pair, w) + (if reply.Landed? then 0 else due)
      && Miscounted(s', pair, w) == Miscounted(s, pair, w) + (if reply.Unheard? then due else 0)
  {
    LoggedCounts(s.log, op, reply, Recorded(pair));
    LoggedCounts(s.log, op, reply, Evicted(pair));
    LoggedCounts(s.log, op, reply, Won(pair));
    LoggedCounts(s.log, op, reply, DayOpDropped(pair));
    LoggedCounts(s.log, op, reply, RecorderFull(pair));
    LoggedCounts(s.log, op, reply, EvalFailed(pair, w));
    LoggedCounts(s.log, op, reply, ReplyLost(pair, w));
  }

  lemma EvaluatedBalance(s: System, op: Op, key: string, reply: Reply, pair: Pair, w: CapWindow, key': string)
    requires op in s.working && op.window != Week && w != Week && (key == key' <==> op == Op(pair, w))
    requires s.increments[key'] + InTransit(s, pair, w) + Lost(s, pair, w) == Entered(s, pair) + Miscounted(s, pair, w)
    ensures var s' := Evaluated(s, op, key, reply);
      s'.increments[key'] + InTransit(s', pair, w) + Lost(s', pair, w) == Entered(s', pair) + Miscounted(s', pair, w)
  {
    EvaluatedTransit(s, op, key, reply, pair, w);
    EvaluatedLog(s, op, key, reply, pair, w);
  }

  lemma EvalBalance(s: System, op: Op, reply: Reply, pair: Pair, w: CapWindow)
    requires op in s.working && op.window != Week && w != Week && Balanced(s, pair, w)
    ensures Balanced(Fire(s, Eval(op, reply)).value, pair, w)
  {
    WriterKeyIsFcKey(op.pair.user, op.pair.campaign, op.window);
    var key, key' := FcKey(op.pair.user, "c", op.pair.campaign, op.window), FcKey(pair.user, "c", pair.campaign, w);
    if key == key' {
      FcKeyInjective(op.pair.user, op.pair.campaign, op.window, pair.user, pair.campaign, w);
    }
    EvaluatedBalance(s, op, key, reply, pair, w, key');
  }

  lemma TakeBalance(s: System, pair: Pair, w: CapWindow)
    requires s.recorder != [] && Balanced(s, pair, w)
    ensures Balanced(Fire(s, TakeEvent).value, pair, w)
  {
    HeadOut(s.recorder);
  }

  lemma WinBalance(s: System, p: Pair, pair: Pair, w: CapWindow)
    requires Balanced(s, pair, w)
    ensures Balanced(Fire(s, WinNotice(p)).value, pair, w)
  {
    var s1 := s.(log := s.log + multiset{Won(p)});
    assert Entered(s1, pair) == Entered(s, pair) + (if p == pair then 1 else 0);
    assert Lost(s1, pair, w) == Lost(s, pair, w) && Miscounted(s1, pair, w) == Miscounted(s, pair, w)
      && InTransit(s1, pair, w) == InTransit(s, pair, w);
    TryRecordBalance(s1, p, pair, w);
  }

  lemma RecordBalance(s: System, p: Pair, pair: Pair, w: CapWindow)
    requires Balanced(s, pair, w)
    ensures Balanced(Fire(s, RecordImpression(p)).value, pair, w)
    ensures Fire(s, RecordImpression(p)).value.working == s.working
  {
    SentBothBalance(Cached(s, p), p, Recorded(p), pair, w);
  }

  lemma EvictBalance(s: System, user: string, order: seq<CampaignId>, pair: Pair, w: CapWindow)
    requires Balanced(s, pair, w) && Fire(s, Evict(user, order)).Some?
    ensures Balanced(Fire(s, Evict(user, order)).value, pair, w)
    ensures Fire(s, Evict(user, order)).value.working == s.working
  {
    FlushedBalance(s.(cached := s.cached - {user}), user, order, pair, w);
  }

  lemma FireBalance(s: System, a: Action, pair: Pair, w: CapWindow)
    requires Balanced(s, pair, w) && Fire(s, a).Some? && w != Week
    requires forall op :: op in s.working ==> op.window != Week
    ensures Balanced(Fire(s, a).value, pair, w)
  {
    match a
    case RecordImpression(p) => RecordBalance(s, p, pair, w);
    case WarmCache(_) =>
    case Evict(user, order) => EvictBalance(s, user, order, pair, w);
    case WinNotice(p) => WinBalance(s, p, pair, w);
    case DrainOne => DrainBalance(s, pair, w);
    case TakeEvent => TakeBalance(s, pair, w);
    case Eval(op, reply) => EvalBalance(s, op, reply, pair, w);
  }

  lemma {:induction false} FlushedWorking(s: System, user: string, order: seq<CampaignId>)
    ensures Flushed(s, user, order).working == s.working
    decreases |order|
  {
    if order != [] {
      var p := Pair(user, order[0]);
      FlushedWorking(SentBoth(s.(log := s.log + multiset{Evicted(p)}), p), user, order[1..]);
    }
  }

  lemma WorkingWindows(s: System, a: Action)
    requires Fire(s, a).Some? && forall op :: op in s.working ==> op.window != Week
    ensures forall op :: op in Fire(s, a).value.working ==> op.window != Week
  {
    match a
    case Evict(user, order) => FlushedWorking(s.(cached := s.cached - {user}), user, order);
    case Eval(op, reply) =>
      EvaluatedWindows(s, op, WriterKey(op.pair.user, op.pair.campaign, Suffix(op.window)), reply);
    case _ =>
  }

  lemma EvaluatedWindows(s: System, op: Op, key: string, reply: Reply)
    requires forall x :: x in s.working ==> x.window != Week
    ensures forall x :: x in Evaluated(s, op, key, reply).working ==> x.window != Week
  {
  }

  lemma FireKeepsInv(s: System, a: Action)
    requires Inv(s) && Fire(s, a).Some?
    ensures Inv(Fire(s, a).value)
  {
    forall pair, w | w != Week ensures Balanced(Fire(s, a).value, pair, w) {
      assert Balanced(s, pair, w);
      FireBalance(s, a, pair, w);
    }
    WorkingWindows(s, a);
  }

  lemma {:induction false} RunKeepsInv(s: System, trace: seq<Action>)
    requires Inv(s) && Run(s, trace).Some?
    ensures Inv(Run(s, trace).value)
    decreases |trace|
  {
    if trace != [] {
      FireKeepsInv(s, trace[0]);
      RunKeepsInv(Fire(s, trace[0]).value, trace[1..]);
    }
  }

  /** Over every run, for every user and campaign, the day counter and the hour counter
      were each incremented once for every recorded impression, every eviction of an
      entry that held the campaign and every win, less what is in transit or was counted
      as lost, except that a write whose reply was lost did land. */
  lemma EveryImpressionAccounted(capacity: nat, trace: seq<Action>, pair: Pair, w: CapWindow)
    requires w != Week && Run(Start(capacity), trace).Some?
    ensures var s := Run(Start(capacity), trace).value;
      s.increments[FcKey(pair.user, "c", pair.campaign, w)] + InTransit(s, pair, w) + Lost(s, pair, w)
      == s.log[Recorded(pair)] + s.log[Evicted(pair)] + s.log[Won(pair)] + s.log[ReplyLost(pair, w)]
  {
    RunKeepsInv(Start(capacity), trace);
    assert Balanced(Run(Start(capacity), trace).value, pair, w);
  }

  /** Neither channel ever holds more than it may. */
  ghost predicate Bounded(s: System, capacity: nat) {
    s.capacity == capacity && |s.queue| <= capacity && |s.recorder| <= RECORDER_CAPACITY
  }

  lemma {:induction false} FlushedBounded(s: System, user: string, order: seq<CampaignId>)
    requires Bounded(s, s.capacity)
    ensures Bounded(Flushed(s, user, order), s.capacity)
    decreases |order|
  {
    if order != [] {
      var pair := Pair(user, order[0]);
      FlushedBounded(SentBoth(s.(log := s.log + multiset{Evicted(pair)}), pair), user, order[1..]);
    }
  }

  lemma {:induction false} RunBounded(s: System, trace: seq<Action>)
    requires Bounded(s, s.capacity) && Run(s, trace).Some?
    ensures Bounded(Run(s, trace).value, s.capacity)
    decreases |trace|
  {
    if trace != [] {
      if trace[0].Evict? {
        FlushedBounded(s.(cached := s.cached - {trace[0].user}), trace[0].user, trace[0].order);
      }
      RunBounded(Fire(s, trace[0]).value, trace[1..]);
    }
  }

  lemma {:induction false} FlushedWins(s: System, user: string, order: seq<CampaignId>, p: Pair)
    ensures Flushed(s, user, order).log[Won(p)] == s.log[Won(p)]
    decreases |order|
  {
    if order != [] {
      var q := Pair(user, order[0]);
      FlushedWins(SentBoth(s.(log := s.log + multiset{Evicted(q)}), q), user, order[1..], p);
    }
  }

  /** A win is entered exactly when the notice names a user. */
  lemma FireWins(s: System, a: Action, p: Pair)
    requires Fire(s, a).Some?
    ensures Fire(s, a).value.log[Won(p)] == s.log[Won(p)] + if a == WinNotice(p) && p.user != "" then 1 else 0
  {
    match a
    case Evict(user, order) => FlushedWins(s.(cached := s.cached - {user}), user, order, p);
    case Eval(op, reply) => LoggedCounts(s.log, op, reply, Won(p));
    case _ =>
  }

  ghost function NamedWins(trace: seq<Action>, p: Pair): nat {
    if trace == [] then 0 else (if trace[0] == WinNotice(p) && p.user != "" then 1 else 0) + NamedWins(trace[1..], p)
  }

  /** Over every run the wins entered are the win notices of named users; anonymous ones never are. */
  lemma {:induction false} WinsEntered(s: System, trace: seq<Action>, p: Pair)
    requires Run(s, trace).Some?
    ensures Run(s, trace).value.log[Won(p)] == s.log[Won(p)] + NamedWins(trace, p)
    decreases |trace|
  {
    if trace != [] {
      FireWins(s, trace[0], p);
      WinsEntered(Fire(s, trace[0]).value, trace[1..], p);
    }
  }

  /** Redis counts exactly the impressions, less those in transit or lost, if and only
      if no cache entry holding the campaign was evicted. */
  lemma CountsImpressionsIff(capacity: nat, trace: seq<Action>, pair: Pair, w: CapWindow)
    requires w != Week && Run(Start(capacity), trace).Some?
    ensures var s := Run(Start(capacity), trace).value;
      s.increments[FcKey(pair.user, "c", pair.campaign, w)] + InTransit(s, pair, w) + Lost(s, pair, w)
        == s.log[Recorded(pair)] + s.log[Won(pair)] + s.log[ReplyLost(pair, w)]
      <==> Evicted(pair) !in s.log
  {
    EveryImpressionAccounted(capacity, trace, pair, w);
  }

  /** An entry that was only read through and then evicted sends an impression to
      Redis for a user who saw none. */
  lemma EvictionCountsPhantom()
    ensures var p := Pair("u", 7);
      var end := Run(Start(2), [WarmCache(p), Evict("u", [7])]);
      && end.Some? && Recorded(p) !in end.value.log && Won(p) !in end.value.log
      && end.value.queue == [Op(p, Day), Op(p, Hour)]
  {
    var p := Pair("u", 7);
    var trace := [WarmCache(p), Evict("u", [7])];
    var s1 := Fire(Start(2), trace[0]).value;
    assert multiset([7 as CampaignId]) == multiset(s1.cached["u"]);
    assert [7 as CampaignId][1..] == [];
    var s2 := Fire(s1, trace[1]).value;
    assert trace[1..] == [Evict("u", [7])] && trace[1..][1..] == [];
    assert Run(s1, trace[1..]) == Some(s2);
  }

  /** The cache, the write-behind channel and the drain as objects with state. */
  class ImpressionBuffer {
    const capacity: nat
    var cached: map<string, set<CampaignId>>
    var queue: seq<Op>
    var recorder: seq<Pair>
    ghost var log: multiset<Event>

    ghost function State(): System
      reads this
    {
      System(capacity, cached, queue, recorder, multiset{}, multiset{}, log)
    }

    constructor (writeBufferSize: nat)
      ensures State() == Start(writeBufferSize)
    {
      capacity, cached, queue, recorder, log := writeBufferSize, map[], [], [], multiset{};
    }

    method TrySend(op: Op) returns (ok: bool)
      modifies this`queue, this`log
      ensures State() == Sent(old(State()), op) && ok == (old(|queue|) < capacity)
    {
      ok := |queue| < capacity;
      if ok {
        queue := queue + [op];
      } else {
        log := if op.window == Day then log + multiset{DayOpDropped(op.pair)} else log;
      }
    }

    method RecordImpression(pair: Pair) returns (ok: bool)
      modifies this
      ensures Some(State()) == Fire(old(State()), Action.RecordImpression(pair))
      ensures ok == (old(|queue|) + 2 <= capacity)
    {
      var campaigns := if pair.user in cached then cached[pair.user] else {};
      cached := cached[pair.user := campaigns + {pair.campaign}];
      log := log + multiset{Recorded(pair)};
      var dayOk := TrySend(Op(pair, Day));
      var hourOk := TrySend(Op(pair, Hour));
      ok := dayOk && hourOk;
    }

    method FlushOne(pair: Pair)
      modifies this`queue, this`log
      ensures State() == SentBoth(old(State()).(log := old(log) + multiset{Evicted(pair)}), pair)
    {
      log := log + multiset{Evicted(pair)};
      var dayOk := TrySend(Op(pair, Day));
      var hourOk := TrySend(Op(pair, Hour));
    }

    /** The listener visits the campaigns of the evicted entry in some order. */
    method OnEvict(user: string, order: seq<CampaignId>)
      requires user in cached && multiset(order) == multiset(cached[user])
      modifies this
      ensures Some(State()) == Fire(old(State()), Evict(user, order))
    {
      cached := cached - {user};
      ghost var start := State();
      for i := 0 to |order|
        invariant Flushed(State(), user, order[i..]) == Flushed(start, user, order)
      {
        assert order[i..][0] == order[i] && order[i..][1..] == order[i + 1..];
        FlushOne(Pair(user, order[i]));
      }
    }

    /** One turn of the drain task. */
    method DrainFirst()
      requires queue != []
      modifies this`queue, this`recorder, this`log
      ensures Some(State()) == Fire(old(State()), DrainOne)
      ensures queue == old(queue)[1..]
      ensures recorder ==
        old(recorder) + if old(queue)[0].window == Day && old(|recorder|) < RECORDER_CAPACITY
          then [old(queue)[0].pair] else []
    {
      var op := queue[0];
      queue := queue[1..];
      if op.window == Day {
        if |recorder| < RECORDER_CAPACITY {
          recorder := recorder + [op.pair];
        } else {
          log := log + multiset{RecorderFull(op.pair)};
        }
      }
    }

    /** The drain empties the channel: day ops become recorder events, in order, until
        the recorder is full; hour ops vanish. */
    method Drain()
      modifies this`queue, this`recorder, this`log
      ensures queue == [] && cached == old(cached)
      ensures recorder == old(recorder) + DayPairs(old(queue))[..Min(|DayPairs(old(queue))|, Room(old(recorder)))]
    {
      ghost var room, due, start := Room(recorder), DayPairs(queue), recorder;
      ghost var sent := 0;
      while queue != []
        invariant sent <= |due| && due[sent..] == DayPairs(queue)
        invariant recorder == start + due[..Min(sent, room)]
        decreases |queue|
      {
        ghost var op, rest := queue[0], queue[1..];
        DrainFirst();
        if op.window == Day {
          NextDue(due, sent, room, op.pair, DayPairs(rest));
          sent := sent + 1;
        }
      }
    }
  }

  lemma NextDue(due: seq<Pair>, sent: nat, room: nat, pair: Pair, rest: seq<Pair>)
    requires sent <= |due| && due[sent..] == [pair] + rest
    ensures sent < |due| && due[sent + 1..] == rest
    ensures due[..Min(sent + 1, room)] == due[..Min(sent, room)] + (if sent < room then [pair] else [])
  {
    assert due[sent] == due[sent..][0] == pair;
    assert due[sent + 1..] == due[sent..][1..];
  }

  /** The pairs of the day ops, in order. */
  ghost function DayPairs(queue: seq<Op>): seq<Pair> {
    if queue == [] then []
    else (if queue[0].window == Day then [queue[0].pair] else []) + DayPairs(queue[1..])
  }

  ghost function Room(recorder: seq<Pair>): nat {
    if |recorder| < RECORDER_CAPACITY then RECORDER_CAPACITY - |recorder| else 0
  }
}
