/** Any number of requests whose pacing and ranking interleave at the atomic steps of the
    shared budget counters (pipeline/stages/budget_pacing.rs, pipeline/stages/ranking.rs,
    pacing/local.rs). No reload happens meanwhile. */
module ConcurrentAuctions {
  import opened Common
  import opened LocalPacer
  import opened Auction

  type Candidates = seq<AdCandidate>

  /** Where a request is. While pacing, `done` and `got` are the granted candidates of the
      earlier impressions and of this one; while ranking, `over` are the impressions settled. */
  datatype Request =
    | Waiting(lists: seq<Candidates>)
    | Pacing(done: seq<Candidates>, got: Candidates, todo: Candidates, rest: seq<Candidates>)
    | Undoing(done: seq<Candidates>, got: Candidates, x: AdCandidate, todo: Candidates, rest: seq<Candidates>)
    | Paced(kept: seq<Candidates>)
    | Cut(kept: seq<Candidates>)  // the deadline struck between pacing and ranking
    | Ranking(over: seq<Candidates>, rest: seq<Candidates>)
    | Releasing(over: seq<Candidates>, cur: Candidates, todo: Candidates, rest: seq<Candidates>)
    | Done(kept: seq<Candidates>)

  datatype System = System(counters: Counters, requests: seq<Request>)

  datatype Action = Step(request: nat) | Deadline(request: nat)

  /** The next impression to pace, if there is one. */
  function Opened(done: seq<Candidates>, lists: seq<Candidates>): Request {
    if lists == [] then Paced(done) else Pacing(done, [], lists[0], lists[1..])
  }

  /** `fetch_sub` for the next candidate, and the branch on the value it returned. */
  function Reserve(counters: Counters, r: Request): (Counters, Request)
    requires r.Pacing? && r.todo != []
  {
    var x, todo := r.todo[0], r.todo[1..];
    var c := x.campaignId;
    if c !in counters then (counters, Pacing(r.done, r.got, todo, r.rest))
    else
      var counters' := counters[c := counters[c] - x.bidPriceCents];
      if counters[c] > 0 then (counters', Pacing(r.done, r.got + [x], todo, r.rest))
      else (counters', Undoing(r.done, r.got, x, todo, r.rest))
  }

  /** The next loser of the impression, released unless it belongs to the winner's campaign. */
  function Release(counters: Counters, r: Request): (Counters, Request)
    requires r.Releasing? && r.cur != [] && r.todo != []
  {
    var x := r.todo[0];
    (if x.campaignId == Winner(r.cur) then counters else Released(counters, x.campaignId, x.bidPriceCents),
     Releasing(r.over, r.cur, r.todo[1..], r.rest))
  }

  function Winner(cs: Candidates): CampaignId
    requires cs != []
  {
    cs[Best(cs)].campaignId
  }

  function Moved(counters: Counters, r: Request): Option<(Counters, Request)> {
    match r
    case Waiting(lists) => Some((counters, Opened([], lists)))
    case Pacing(done, got, todo, rest) =>
      if todo == [] then Some((counters, Opened(done + [got], rest))) else Some(Reserve(counters, r))
    case Undoing(done, got, x, todo, rest) =>
      Some((Released(counters, x.campaignId, x.bidPriceCents), Pacing(done, got, todo, rest)))
    case Paced(kept) => Some((counters, Ranking([], kept)))
    case Ranking(over, rest) =>
      if rest == [] then Some((counters, Done(over)))
      else if rest[0] == [] then Some((counters, Ranking(over + [[]], rest[1..])))
      else Some((counters, Releasing(over, rest[0], rest[0], rest[1..])))
    case Releasing(over, cur, todo, rest) =>
      if todo == [] then Some((counters, Ranking(over + [cur], rest)))
      else if cur == [] then None
      else Some(Release(counters, r))
    case Cut(_) => None
    case Done(_) => None
  }

  function Fire(s: System, a: Action): Option<System> {
    if a.request >= |s.requests| then None
    else
      var r := s.requests[a.request];
      match a
      case Deadline(i) => if r.Paced? then Some(s.(requests := s.requests[i := Cut(r.kept)])) else None
      case Step(i) =>
        match Moved(s.counters, r)
        case None => None
        case Some((counters, r')) => Some(System(counters, s.requests[i := r']))
  }

  function Run(s: System, trace: seq<Action>): Option<System>
    decreases |trace|
  {
    if trace == [] then Some(s)
    else
      match Fire(s, trace[0])
      case None => None
      case Some(s') => Run(s', trace[1..])
  }

  function Start(counters: Counters, offered: seq<seq<Candidates>>): System {
    System(counters, seq(|offered|, i requires 0 <= i < |offered| => Waiting(offered[i])))
  }

  // What each request holds.

  /** What the winner's campaign keeps of an impression. */
  ghost function WonIn(cs: Candidates, c: CampaignId): int {
    if cs != [] && c == Winner(cs) then Held(cs, c) else 0
  }

  ghost function WonInFor(c: CampaignId): Candidates -> int { (cs: Candidates) => WonIn(cs, c) }

  ghost function WonAll(lists: seq<Candidates>, c: CampaignId): int { Total(lists, WonInFor(c)) }

  ghost function Holding(r: Request, c: CampaignId): int {
    match r
    case Waiting(_) => 0
    case Pacing(done, got, _, _) => HeldAll(done, c) + Held(got, c)
    case Undoing(done, got, x, _, _) => HeldAll(done, c) + Held(got, c) + PriceFor(c)(x)
    case Paced(kept) => HeldAll(kept, c)
    case Cut(kept) => HeldAll(kept, c)
    case Ranking(over, rest) => WonAll(over, c) + HeldAll(rest, c)
    case Releasing(over, cur, todo, rest) => WonAll(over, c) + InRelease(cur, todo, c) + HeldAll(rest, c)
    case Done(kept) => WonAll(kept, c)
  }

  /** The winner's campaign keeps its bids; of the others, those still to be released. */
  ghost function InRelease(cur: Candidates, todo: Candidates, c: CampaignId): int {
    if cur != [] && c == Winner(cur) then Held(cur, c) else Held(todo, c)
  }

  ghost function HoldingOf(c: CampaignId): Request -> int { (r: Request) => Holding(r, c) }

  // Every request only holds candidates of known campaigns, each campaign once an impression.

  ghost predicate Known(keys: set<CampaignId>, cs: Candidates) { forall x :: x in cs ==> x.campaignId in keys }

  ghost predicate Sound(keys: set<CampaignId>, cs: Candidates) { Known(keys, cs) && DistinctIds(cs) }

  ghost predicate AllSound(keys: set<CampaignId>, lists: seq<Candidates>) {
    forall i :: 0 <= i < |lists| ==> Sound(keys, lists[i])
  }

  ghost predicate RequestOk(keys: set<CampaignId>, r: Request) {
    match r
    case Waiting(lists) => AllDistinct(lists)
    case Pacing(done, got, todo, rest) =>
      AllSound(keys, done) && Known(keys, got) && DistinctIds(got + todo) && AllDistinct(rest)
    case Undoing(done, got, x, todo, rest) =>
      AllSound(keys, done) && Known(keys, got) && x.campaignId in keys && DistinctIds(got + todo) && AllDistinct(rest)
    case Paced(kept) => AllSound(keys, kept)
    case Cut(kept) => AllSound(keys, kept)
    case Ranking(over, rest) => AllSound(keys, over) && AllSound(keys, rest)
    case Releasing(over, cur, todo, rest) =>
      AllSound(keys, over) && Sound(keys, cur) && cur != [] && Known(keys, todo) && AllSound(keys, rest)
    case Done(kept) => AllSound(keys, kept)
  }

  lemma HeldFirst(cs: Candidates, c: CampaignId)
    requires cs != []
    ensures Held(cs, c) == PriceFor(c)(cs[0]) + Held(cs[1..], c)
  {
  }

  lemma DropOne(got: Candidates, todo: Candidates)
    requires todo != [] && DistinctIds(got + todo)
    ensures DistinctIds(got + todo[1..]) && DistinctIds((got + [todo[0]]) + todo[1..])
  {
    assert (got + [todo[0]]) + todo[1..] == got + todo;
    var all, less := got + todo, got + todo[1..];
    forall i, j | 0 <= i < j < |less| ensures less[i].campaignId != less[j].campaignId {
      var i', j' := if i < |got| then i else i + 1, if j < |got| then j else j + 1;
      assert all[i'] == less[i] && all[j'] == less[j];
    }
  }

  /** A move changes a counter by just what it changes the request's holding. */
  ghost predicate Balanced(counters: Counters, r: Request, counters': Counters, r': Request, c: CampaignId) {
    && counters'.Keys == counters.Keys
    && At(counters', c) + Holding(r', c) == At(counters, c) + Holding(r, c)
  }

  lemma OpenedBalanced(counters: Counters, done: seq<Candidates>, got: Candidates, rest: seq<Candidates>, c: CampaignId)
    requires AllSound(counters.Keys, done) && Sound(counters.Keys, got) && AllDistinct(rest)
    ensures Holding(Opened(done + [got], rest), c) == HeldAll(done, c) + Held(got, c)
    ensures RequestOk(counters.Keys, Opened(done + [got], rest))
  {
    HeldAllAppend(done, got, c);
    if rest != [] {
      assert [] + rest[0] == rest[0];
    }
  }

  lemma ReserveBalanced(counters: Counters, r: Request, c: CampaignId)
    requires r.Pacing? && r.todo != [] && RequestOk(counters.Keys, r)
    ensures var (counters', r') := Reserve(counters, r);
      Balanced(counters, r, counters', r', c) && RequestOk(counters.Keys, r')
  {
    DropOne(r.got, r.todo);
    HeldAppend(r.got, r.todo[0], c);
  }

  lemma UndoBalanced(counters: Counters, r: Request, c: CampaignId)
    requires r.Undoing? && RequestOk(counters.Keys, r)
    ensures var (counters', r') := Moved(counters, r).value;
      Balanced(counters, r, counters', r', c) && RequestOk(counters.Keys, r')
  {
  }

  lemma {:induction false} WonAllAppend(lists: seq<Candidates>, cs: Candidates, c: CampaignId)
    ensures WonAll(lists + [cs], c) == WonAll(lists, c) + WonIn(cs, c)
  {
    TotalConcat(lists, [cs], WonInFor(c));
    TotalOne(cs, WonInFor(c));
  }

  lemma HeldAllFirst(lists: seq<Candidates>, c: CampaignId)
    requires lists != []
    ensures HeldAll(lists, c) == Held(lists[0], c) + HeldAll(lists[1..], c)
  {
  }

  lemma RankingBalanced(counters: Counters, r: Request, c: CampaignId)
    requires r.Ranking? && RequestOk(counters.Keys, r)
    ensures var (counters', r') := Moved(counters, r).value;
      Balanced(counters, r, counters', r', c) && RequestOk(counters.Keys, r')
  {
    if r.rest != [] {
      HeldAllFirst(r.rest, c);
      WonAllAppend(r.over, [], c);
    }
  }

  lemma ReleaseBalanced(counters: Counters, r: Request, c: CampaignId)
    requires r.Releasing? && RequestOk(counters.Keys, r)
    ensures Moved(counters, r).Some?
    ensures var (counters', r') := Moved(counters, r).value;
      Balanced(counters, r, counters', r', c) && RequestOk(counters.Keys, r')
  {
    if r.todo == [] {
      WonAllAppend(r.over, r.cur, c);
    } else {
      HeldFirst(r.todo, c);
      assert r.todo[0] in r.todo;
    }
  }

  lemma MoveBalanced(counters: Counters, r: Request, c: CampaignId)
    requires RequestOk(counters.Keys, r) && Moved(counters, r).Some?
    ensures var (counters', r') := Moved(counters, r).value;
      Balanced(counters, r, counters', r', c) && RequestOk(counters.Keys, r')
  {
    match r
    case Waiting(lists) =>
      if lists != [] {
        assert [] + lists[0] == lists[0];
      }
    case Pacing(done, got, todo, rest) =>
      if todo == [] {
        assert got + todo == got;
        OpenedBalanced(counters, done, got, rest, c);
      } else {
        ReserveBalanced(counters, r, c);
      }
    case Undoing(_, _, _, _, _) => UndoBalanced(counters, r, c);
    case Paced(_) =>
    case Ranking(_, _) => RankingBalanced(counters, r, c);
    case Releasing(_, _, _, _) => ReleaseBalanced(counters, r, c);
  }

  /** Every counter and what the requests hold of it together are what it began with. */
  ghost predicate Inv(s: System, before: Counters) {
    && s.counters.Keys == before.Keys
    && (forall r :: r in s.requests ==> RequestOk(before.Keys, r))
    && forall c: CampaignId :: At(s.counters, c) + Total(s.requests, HoldingOf(c)) == At(before, c)
  }

  lemma FireKeepsInv(s: System, a: Action, before: Counters)
    requires Inv(s, before) && Fire(s, a).Some?
    ensures Inv(Fire(s, a).value, before)
  {
    var s' := Fire(s, a).value;
    var i := a.request;
    var r, r' := s.requests[i], s'.requests[i];
    assert r in s.requests;
    forall c: CampaignId ensures At(s'.counters, c) + Total(s'.requests, HoldingOf(c)) == At(before, c) {
      TotalUpdate(s.requests, i, r', HoldingOf(c));
      if a.Step? {
        MoveBalanced(s.counters, r, c);
      }
    }
    KeepsSound(s, a, before);
  }

  lemma KeepsSound(s: System, a: Action, before: Counters)
    requires s.counters.Keys == before.Keys && Fire(s, a).Some?
      && forall r :: r in s.requests ==> RequestOk(before.Keys, r)
    ensures Fire(s, a).value.counters.Keys == before.Keys
    ensures forall r :: r in Fire(s, a).value.requests ==> RequestOk(before.Keys, r)
  {
    var s' := Fire(s, a).value;
    var r := s.requests[a.request];
    assert r in s.requests;
    if a.Step? {
      MoveSound(s.counters, r);
    }
    assert forall x :: x in s'.requests ==> x in s.requests || x == s'.requests[a.request];
  }

  lemma MoveSound(counters: Counters, r: Request)
    requires RequestOk(counters.Keys, r) && Moved(counters, r).Some?
    ensures Moved(counters, r).value.0.Keys == counters.Keys && RequestOk(counters.Keys, Moved(counters, r).value.1)
  {
    MoveBalanced(counters, r, 0);
  }

  lemma {:induction false} RunKeepsInv(s: System, trace: seq<Action>, before: Counters)
    requires Inv(s, before) && Run(s, trace).Some?
    ensures Inv(Run(s, trace).value, before)
    decreases |trace|
  {
    if trace != [] {
      FireKeepsInv(s, trace[0], before);
      RunKeepsInv(Fire(s, trace[0]).value, trace[1..], before);
    }
  }

  /** With one candidate per campaign, what the winner's campaign keeps is the winner's bid. */
  lemma WonInIsBid(cs: Candidates, c: CampaignId)
    requires DistinctIds(cs)
    ensures WonIn(cs, c) == if cs == [] then 0 else PriceFor(c)(cs[Best(cs)])
  {
    if cs != [] {
      HeldByOne(cs, Best(cs));
    }
  }

  lemma SpentAppend(imps: seq<string>, lists: seq<Candidates>, cs: Candidates, c: CampaignId)
    ensures Spent(WinnersOf(imps, lists + [cs]), c)
         == Spent(WinnersOf(imps, lists), c) + if cs == [] then 0 else PriceFor(c)(cs[Best(cs)])
  {
    assert (lists + [cs])[..|lists|] == lists;
    if cs == [] {
      assert WinnersOf(imps, lists) + [] == WinnersOf(imps, lists);
    } else {
      var won := WinnerFor(ImpIdOf(imps, |lists|), cs[Best(cs)]);
      TotalConcat(WinnersOf(imps, lists), [won], PriceWon(c));
      TotalOne(won, PriceWon(c));
    }
  }

  lemma {:induction false} WonAllIsSpent(imps: seq<string>, lists: seq<Candidates>, c: CampaignId)
    requires AllDistinct(lists)
    ensures WonAll(lists, c) == Spent(WinnersOf(imps, lists), c)
  {
    if lists != [] {
      var n := |lists| - 1;
      WonAllIsSpent(imps, lists[..n], c);
      assert lists == lists[..n] + [lists[n]];
      WonAllAppend(lists[..n], lists[n], c);
      SpentAppend(imps, lists[..n], lists[n], c);
      WonInIsBid(lists[n], c);
    }
  }

  /** No step of the request is under way. */
  predicate AtRest(r: Request) { r.Waiting? || r.Cut? || r.Done? }

  /** What a request at rest has cost the campaign: its winners' bids, or all survivors' if the
      deadline struck before ranking. */
  ghost function Cost(r: Request, c: CampaignId): int {
    match r
    case Cut(kept) => HeldAll(kept, c)
    case Done(kept) => Spent(WinnersOf([], kept), c)
    case _ => 0
  }

  ghost function CostOf(c: CampaignId): Request -> int { (r: Request) => Cost(r, c) }

  lemma {:induction false} RestingHoldsCost(keys: set<CampaignId>, requests: seq<Request>, c: CampaignId)
    requires forall r :: r in requests ==> AtRest(r) && RequestOk(keys, r)
    ensures Total(requests, HoldingOf(c)) == Total(requests, CostOf(c))
  {
    if requests != [] {
      var r := requests[0];
      assert r in requests;
      if r.Done? {
        assert forall i :: 0 <= i < |r.kept| ==> Sound(keys, r.kept[i]);
        WonAllIsSpent([], r.kept, c);
      }
      RestingHoldsCost(keys, requests[1..], c);
    }
  }

  // No impression is lost and no candidate invented on the way.

  /** One list for each impression, of candidates offered for it. */
  ghost predicate KeptFrom(offered: seq<Candidates>, kept: seq<Candidates>) {
    |kept| == |offered| && forall i, x :: 0 <= i < |kept| && x in kept[i] ==> x in offered[i]
  }

  ghost predicate PartFrom(offered: seq<Candidates>, done: seq<Candidates>, got: Candidates, todo: Candidates,
                           rest: seq<Candidates>) {
    && |done| < |offered| && rest == offered[|done| + 1..]
    && (forall x :: x in got || x in todo ==> x in offered[|done|])
    && forall i, x :: 0 <= i < |done| && x in done[i] ==> x in offered[i]
  }

  ghost predicate Tracks(offered: seq<Candidates>, r: Request) {
    match r
    case Waiting(lists) => lists == offered
    case Pacing(done, got, todo, rest) => PartFrom(offered, done, got, todo, rest)
    case Undoing(done, got, x, todo, rest) => PartFrom(offered, done, got, todo, rest) && x in offered[|done|]
    case Paced(kept) => KeptFrom(offered, kept)
    case Cut(kept) => KeptFrom(offered, kept)
    case Ranking(over, rest) => KeptFrom(offered, over + rest)
    case Releasing(over, cur, todo, rest) =>
      KeptFrom(offered, over + [cur] + rest) && forall x :: x in todo ==> x in cur
    case Done(kept) => KeptFrom(offered, kept)
  }

  lemma OpenedTracks(offered: seq<Candidates>, done: seq<Candidates>, got: Candidates)
    requires |done| < |offered| && PartFrom(offered, done, got, [], offered[|done| + 1..])
    ensures Tracks(offered, Opened(done + [got], offered[|done| + 1..]))
  {
    var next, rest := done + [got], offered[|done| + 1..];
    assert forall i, x :: 0 <= i < |next| && x in next[i] ==> x in offered[i];
    if rest != [] {
      assert rest[0] == offered[|next|] && rest[1..] == offered[|next| + 1..];
    }
  }

  lemma MoveTracks(offered: seq<Candidates>, counters: Counters, r: Request)
    requires Tracks(offered, r) && Moved(counters, r).Some?
    ensures Tracks(offered, Moved(counters, r).value.1)
  {
    match r
    case Waiting(lists) =>
      if lists != [] {
        assert lists[1..] == offered[0 + 1..];
      }
    case Pacing(done, got, todo, rest) =>
      if todo == [] {
        OpenedTracks(offered, done, got);
      } else {
        assert todo[0] in todo;
      }
    case Undoing(_, _, _, _, _) =>
    case Paced(kept) => assert [] + kept == kept;
    case Ranking(over, rest) =>
      if rest == [] {
        assert over + rest == over;
      } else {
        assert over + [rest[0]] + rest[1..] == over + rest;
      }
    case Releasing(over, cur, todo, rest) =>
  }

  ghost predicate AllTrack(offered: seq<seq<Candidates>>, s: System) {
    |s.requests| == |offered| && forall i :: 0 <= i < |offered| ==> Tracks(offered[i], s.requests[i])
  }

  lemma FireTracks(offered: seq<seq<Candidates>>, s: System, a: Action)
    requires AllTrack(offered, s) && Fire(s, a).Some?
    ensures AllTrack(offered, Fire(s, a).value)
  {
    if a.Step? {
      MoveTracks(offered[a.request], s.counters, s.requests[a.request]);
    }
  }

  lemma {:induction false} RunTracks(offered: seq<seq<Candidates>>, s: System, trace: seq<Action>)
    requires AllTrack(offered, s) && Run(s, trace).Some?
    ensures AllTrack(offered, Run(s, trace).value)
    decreases |trace|
  {
    if trace != [] {
      FireTracks(offered, s, trace[0]);
      RunTracks(offered, Fire(s, trace[0]).value, trace[1..]);
    }
  }

  lemma {:induction false} CutStays(s: System, trace: seq<Action>, i: nat)
    requires i < |s.requests| && s.requests[i].Cut? && Run(s, trace).Some?
    ensures i < |Run(s, trace).value.requests| && Run(s, trace).value.requests[i] == s.requests[i]
    decreases |trace|
  {
    if trace != [] {
      CutStays(Fire(s, trace[0]).value, trace[1..], i);
    }
  }

  /** A request cut before ranking keeps its survivors' reservations through every continuation. */
  lemma CutForGood(s: System, i: nat, trace: seq<Action>, c: CampaignId)
    requires Fire(s, Deadline(i)).Some? && Run(Fire(s, Deadline(i)).value, trace).Some?
    ensures var end := Run(Fire(s, Deadline(i)).value, trace).value;
      i < |end.requests| && end.requests[i].Cut? && Holding(end.requests[i], c) == Holding(s.requests[i], c)
  {
    CutStays(Fire(s, Deadline(i)).value, trace, i);
  }

  /** However the requests interleave: once none is midway, every counter is what it began with
      less the winners' bids of the requests that finished and the survivors' bids of those the
      deadline cut before ranking; the survivors are offered candidates, list by list. */
  lemma AuctionsCostWinners(before: Counters, offered: seq<seq<Candidates>>, trace: seq<Action>, c: CampaignId)
    requires forall i :: 0 <= i < |offered| ==> AllDistinct(offered[i])
    requires Run(Start(before, offered), trace).Some?
    requires forall r :: r in Run(Start(before, offered), trace).value.requests ==> AtRest(r)
    ensures var s := Run(Start(before, offered), trace).value;
      && s.counters.Keys == before.Keys && At(s.counters, c) == At(before, c) - Total(s.requests, CostOf(c))
      && AllTrack(offered, s)
  {
    var s0 := Start(before, offered);
    forall d: CampaignId ensures Total(s0.requests, HoldingOf(d)) == 0 {
      TotalZero(s0.requests, HoldingOf(d));
    }
    RunKeepsInv(s0, trace, before);
    RunTracks(offered, s0, trace);
    RestingHoldsCost(before.Keys, Run(s0, trace).value.requests, c);
  }

  // Who is granted.

  /** The next candidate is kept exactly when its counter is positive; otherwise its subtraction,
      if there was one, is to be undone. */
  lemma ReserveGrants(counters: Counters, r: Request)
    requires r.Pacing? && r.todo != []
    ensures var x := r.todo[0];
      var (counters', r') := Reserve(counters, r);
      && (Grants(counters, x.campaignId) ==> r' == Pacing(r.done, r.got + [x], r.todo[1..], r.rest))
      && (!Grants(counters, x.campaignId) && x.campaignId in counters ==>
            r' == Undoing(r.done, r.got, x, r.todo[1..], r.rest))
      && (x.campaignId !in counters ==> counters' == counters && r' == Pacing(r.done, r.got, r.todo[1..], r.rest))
  {
  }

  // A request alone.

  /** The request gets from one state to the other by its own steps. */
  ghost predicate Reaches(s: System, s': System) {
    exists trace :: (forall a :: a in trace ==> a == Step(0)) && Run(s, trace) == Some(s')
  }

  lemma ReachesSelf(s: System)
    ensures Reaches(s, s)
  {
    assert Run(s, []) == Some(s);
  }

  lemma {:induction false} RunOn(s: System, first: seq<Action>, second: seq<Action>)
    requires Run(s, first).Some?
    ensures Run(s, first + second) == Run(Run(s, first).value, second)
    decreases |first|
  {
    if first == [] {
      assert first + second == second;
    } else {
      assert (first + second)[1..] == first[1..] + second;
      RunOn(Fire(s, first[0]).value, first[1..], second);
    }
  }

  lemma ReachesTrans(s: System, s': System, s'': System)
    requires Reaches(s, s') && Reaches(s', s'')
    ensures Reaches(s, s'')
  {
    var t :| (forall a :: a in t ==> a == Step(0)) && Run(s, t) == Some(s');
    var u :| (forall a :: a in u ==> a == Step(0)) && Run(s', u) == Some(s'');
    RunOn(s, t, u);
    assert Run(s, t + u) == Some(s'');
  }

  function Alone(counters: Counters, r: Request): System { System(counters, [r]) }

  lemma StepReaches(counters: Counters, r: Request, counters': Counters, r': Request)
    requires Moved(counters, r) == Some((counters', r'))
    ensures Reaches(Alone(counters, r), Alone(counters', r'))
  {
    var s := Alone(counters, r);
    assert [r][0 := r'] == [r'];
    assert Fire(s, Step(0)) == Some(Alone(counters', r'));
    assert [Step(0)][1..] == [];
    assert Run(Alone(counters', r'), []) == Some(Alone(counters', r'));
    assert Run(s, [Step(0)]) == Some(Alone(counters', r'));
  }

  /** Pacing one candidate takes one step, or two when it is refused. */
  lemma PaceOneReaches(counters: Counters, done: seq<Candidates>, got: Candidates, x: AdCandidate, todo: Candidates,
                       rest: seq<Candidates>)
    ensures var next := Reserved(counters, x.campaignId, x.bidPriceCents);
      var got' := got + if Grants(counters, x.campaignId) then [x] else [];
      Reaches(Alone(counters, Pacing(done, got, [x] + todo, rest)), Alone(next, Pacing(done, got', todo, rest)))
  {
    var c, r := x.campaignId, Pacing(done, got, [x] + todo, rest);
    assert ([x] + todo)[1..] == todo && got + [] == got;
    var (counters', r') := Reserve(counters, r);
    StepReaches(counters, r, counters', r');
    if r'.Undoing? {
      assert Released(counters', c, x.bidPriceCents) == counters;
      StepReaches(counters', r', counters, Pacing(done, got, todo, rest));
      ReachesTrans(Alone(counters, r), Alone(counters', r'), Alone(counters, Pacing(done, got, todo, rest)));
    }
  }

  lemma {:induction false} PaceListReaches(counters: Counters, done: seq<Candidates>, cs: Candidates,
                                           rest: seq<Candidates>, j: nat)
    requires j <= |cs|
    ensures Reaches(Alone(counters, Pacing(done, [], cs, rest)),
                    Alone(AfterReserving(counters, cs[..j]), Pacing(done, Granted(counters, cs[..j]), cs[j..], rest)))
  {
    if j == 0 {
      assert cs[0..] == cs;
      ReachesSelf(Alone(counters, Pacing(done, [], cs, rest)));
    } else {
      var before := cs[..j - 1];
      PaceListReaches(counters, done, cs, rest, j - 1);
      assert cs[j - 1..] == [cs[j - 1]] + cs[j..] && cs[..j][..j - 1] == before;
      var mid := AfterReserving(counters, before);
      PaceOneReaches(mid, done, Granted(counters, before), cs[j - 1], cs[j..], rest);
      ReachesTrans(Alone(counters, Pacing(done, [], cs, rest)),
                   Alone(mid, Pacing(done, Granted(counters, before), cs[j - 1..], rest)),
                   Alone(AfterReserving(counters, cs[..j]), Pacing(done, Granted(counters, cs[..j]), cs[j..], rest)));
    }
  }

  /** With one candidate per campaign the survivors of pacing are the granted ones, in order. */
  lemma {:induction false} GrantedIsPaced(counters: Counters, cs: Candidates)
    requires DistinctIds(cs)
    ensures Granted(counters, cs) == Auction.Paced(counters, cs)
  {
    GrantedIsWithout(counters, cs, cs);
  }

  lemma {:induction false} GrantedIsWithout(counters: Counters, cs: Candidates, all: Candidates)
    requires DistinctIds(all) && cs <= all
    ensures Granted(counters, cs) == Without(cs, Refused(counters, all))
  {
    if cs != [] {
      var n := |cs| - 1;
      GrantedIsWithout(counters, cs[..n], all);
      RefusedAt(counters, all, n);
      assert all[..n] == cs[..n] && all[n] == cs[n];
    }
  }

  /** Whether a campaign is refused is decided at its one candidate. */
  lemma {:induction false} RefusedAt(counters: Counters, all: Candidates, i: nat)
    requires DistinctIds(all) && i < |all|
    ensures all[i].campaignId in Refused(counters, all)
      <==> !Grants(AfterReserving(counters, all[..i]), all[i].campaignId)
    decreases |all|
  {
    var n := |all| - 1;
    if i < n {
      RefusedAt(counters, all[..n], i);
      assert all[..n][..i] == all[..i];
    } else {
      assert all[..n] == all[..i];
      if all[n].campaignId in Refused(counters, all[..n]) {
        RefusedMembers(counters, all[..n], all[n].campaignId);
        LastIsNew(all);
        assert false;
      }
    }
  }

  lemma {:induction false} PaceAllReaches(counters: Counters, lists: seq<Candidates>, i: nat)
    requires AllDistinct(lists) && i <= |lists|
    ensures Reaches(Alone(counters, Waiting(lists)),
                    Alone(AfterPacing(counters, lists[..i]), Opened(PacedAll(counters, lists[..i]), lists[i..])))
  {
    if i == 0 {
      assert lists[0..] == lists;
      StepReaches(counters, Waiting(lists), counters, Opened([], lists));
    } else {
      var done, cs, rest := PacedAll(counters, lists[..i - 1]), lists[i - 1], lists[i..];
      PaceAllReaches(counters, lists, i - 1);
      assert lists[i - 1..][0] == cs && lists[i - 1..][1..] == rest && lists[..i][..i - 1] == lists[..i - 1];
      PaceImpReaches(AfterPacing(counters, lists[..i - 1]), done, cs, rest);
      ReachesTrans(Alone(counters, Waiting(lists)),
                   Alone(AfterPacing(counters, lists[..i - 1]), Pacing(done, [], cs, rest)),
                   Alone(AfterPacing(counters, lists[..i]), Opened(PacedAll(counters, lists[..i]), rest)));
    }
  }

  lemma PaceImpReaches(counters: Counters, done: seq<Candidates>, cs: Candidates, rest: seq<Candidates>)
    requires DistinctIds(cs)
    ensures Reaches(Alone(counters, Pacing(done, [], cs, rest)),
                    Alone(AfterReserving(counters, cs), Opened(done + [Auction.Paced(counters, cs)], rest)))
  {
    PaceListReaches(counters, done, cs, rest, |cs|);
    GrantedIsPaced(counters, cs);
    assert cs[..|cs|] == cs && cs[|cs|..] == [];
    var after, got := AfterReserving(counters, cs), Granted(counters, cs);
    StepReaches(after, Pacing(done, got, [], rest), after, Opened(done + [got], rest));
    ReachesTrans(Alone(counters, Pacing(done, [], cs, rest)), Alone(after, Pacing(done, got, [], rest)),
                 Alone(after, Opened(done + [got], rest)));
  }

  lemma {:induction false} ReleaseReaches(counters: Counters, over: seq<Candidates>, cur: Candidates,
                                          rest: seq<Candidates>, j: nat)
    requires cur != [] && j <= |cur|
    ensures Reaches(Alone(counters, Releasing(over, cur, cur, rest)),
                    Alone(AfterReleasing(counters, cur[..j], Winner(cur)), Releasing(over, cur, cur[j..], rest)))
  {
    if j == 0 {
      assert cur[0..] == cur;
      ReachesSelf(Alone(counters, Releasing(over, cur, cur, rest)));
    } else {
      ReleaseReaches(counters, over, cur, rest, j - 1);
      var mid := AfterReleasing(counters, cur[..j - 1], Winner(cur));
      var after := AfterReleasing(counters, cur[..j], Winner(cur));
      assert cur[j - 1..][0] == cur[j - 1] && cur[j - 1..][1..] == cur[j..] && cur[..j][..j - 1] == cur[..j - 1];
      StepReaches(mid, Releasing(over, cur, cur[j - 1..], rest), after, Releasing(over, cur, cur[j..], rest));
      ReachesTrans(Alone(counters, Releasing(over, cur, cur, rest)),
                   Alone(mid, Releasing(over, cur, cur[j - 1..], rest)),
                   Alone(after, Releasing(over, cur, cur[j..], rest)));
    }
  }

  /** Ranking one impression. */
  lemma RankImpReaches(counters: Counters, over: seq<Candidates>, cs: Candidates, rest: seq<Candidates>)
    ensures var after := if cs == [] then counters else AfterReleasing(counters, cs, Winner(cs));
      Reaches(Alone(counters, Ranking(over, [cs] + rest)), Alone(after, Ranking(over + [cs], rest)))
  {
    var from := Ranking(over, [cs] + rest);
    assert ([cs] + rest)[1..] == rest;
    if cs == [] {
      StepReaches(counters, from, counters, Ranking(over + [cs], rest));
    } else {
      var after := AfterReleasing(counters, cs, Winner(cs));
      assert cs[..|cs|] == cs && cs[|cs|..] == [];
      StepReaches(counters, from, counters, Releasing(over, cs, cs, rest));
      ReleaseReaches(counters, over, cs, rest, |cs|);
      StepReaches(after, Releasing(over, cs, [], rest), after, Ranking(over + [cs], rest));
      ReachesTrans(Alone(counters, from), Alone(counters, Releasing(over, cs, cs, rest)),
                   Alone(after, Releasing(over, cs, [], rest)));
      ReachesTrans(Alone(counters, from), Alone(after, Releasing(over, cs, [], rest)),
                   Alone(after, Ranking(over + [cs], rest)));
    }
  }

  lemma {:induction false} RankAllReaches(counters: Counters, kept: seq<Candidates>, i: nat)
    requires i <= |kept|
    ensures Reaches(Alone(counters, Ranking([], kept)),
                    Alone(AfterRanking(counters, kept[..i]), Ranking(kept[..i], kept[i..])))
  {
    if i == 0 {
      assert kept[0..] == kept;
      ReachesSelf(Alone(counters, Ranking([], kept)));
    } else {
      RankAllReaches(counters, kept, i - 1);
      var mid := AfterRanking(counters, kept[..i - 1]);
      assert kept[i - 1..] == [kept[i - 1]] + kept[i..] && kept[..i] == kept[..i - 1] + [kept[i - 1]];
      assert kept[..i][..i - 1] == kept[..i - 1];
      RankImpReaches(mid, kept[..i - 1], kept[i - 1], kept[i..]);
      ReachesTrans(Alone(counters, Ranking([], kept)), Alone(mid, Ranking(kept[..i - 1], kept[i - 1..])),
                   Alone(AfterRanking(counters, kept[..i]), Ranking(kept[..i], kept[i..])));
    }
  }

  lemma AlonePaced(before: Counters, lists: seq<Candidates>)
    requires AllDistinct(lists)
    ensures Reaches(Alone(before, Waiting(lists)), Alone(AfterPacing(before, lists), Paced(PacedAll(before, lists))))
  {
    PaceAllReaches(before, lists, |lists|);
    assert lists[..|lists|] == lists && lists[|lists|..] == [];
  }

  lemma AloneRanked(counters: Counters, kept: seq<Candidates>)
    ensures Reaches(Alone(counters, Paced(kept)), Alone(AfterRanking(counters, kept), Done(kept)))
  {
    var start, after := Alone(counters, Paced(kept)), AfterRanking(counters, kept);
    var ranked := Alone(after, Ranking(kept, []));
    StepReaches(counters, Paced(kept), counters, Ranking([], kept));
    RankAllReaches(counters, kept, |kept|);
    assert kept[..|kept|] == kept && kept[|kept|..] == [];
    ReachesTrans(start, Alone(counters, Ranking([], kept)), ranked);
    StepReaches(after, Ranking(kept, []), after, Done(kept));
    ReachesTrans(start, ranked, Alone(after, Done(kept)));
  }

  /** A request alone is paced and ranked exactly as in sequence: the same survivors, and the
      same counters after pacing and after ranking. */
  lemma AloneIsSequential(before: Counters, lists: seq<Candidates>)
    requires AllDistinct(lists)
    ensures var kept, paced := PacedAll(before, lists), AfterPacing(before, lists);
      && Reaches(Alone(before, Waiting(lists)), Alone(paced, Paced(kept)))
      && Reaches(Alone(paced, Paced(kept)), Alone(AfterRanking(paced, kept), Done(kept)))
  {
    AlonePaced(before, lists);
    AloneRanked(AfterPacing(before, lists), PacedAll(before, lists));
  }

  // How far the requests together can overshoot a budget.

  ghost function Owing(r: Request, c: CampaignId): int {
    if r.Undoing? then PriceFor(c)(r.x) else 0
  }

  /** What the request holds apart from a subtraction it is about to undo. */
  ghost function Firm(r: Request, c: CampaignId): int { Holding(r, c) - Owing(r, c) }

  ghost function OwingOf(c: CampaignId): Request -> int { (r: Request) => Owing(r, c) }

  ghost function FirmOf(c: CampaignId): Request -> int { (r: Request) => Firm(r, c) }

  ghost predicate BidsWithin(offered: seq<Candidates>, maxBid: nat) {
    forall i, x :: 0 <= i < |offered| && x in offered[i] ==> 0 <= x.bidPriceCents <= maxBid
  }

  lemma OwingNonNegative(offered: seq<Candidates>, r: Request, c: CampaignId, maxBid: nat)
    requires Tracks(offered, r) && BidsWithin(offered, maxBid)
    ensures Owing(r, c) >= 0
  {
  }

  /** A step firms up at most one bid more, and only of a campaign whose counter is positive. */
  lemma FirmStep(counters: Counters, offered: seq<Candidates>, r: Request, c: CampaignId, maxBid: nat)
    requires RequestOk(counters.Keys, r) && Tracks(offered, r) && BidsWithin(offered, maxBid)
    requires Moved(counters, r).Some?
    ensures var r' := Moved(counters, r).value.1;
      Firm(r', c) <= Firm(r, c) || (At(counters, c) > 0 && Firm(r', c) <= Firm(r, c) + maxBid)
  {
    MoveBalanced(counters, r, c);
    if r.Pacing? && r.todo != [] {
      assert r.todo[0] in r.todo;
      HeldAppend(r.got, r.todo[0], c);
    } else if r.Releasing? && r.todo != [] {
      ReleasedBid(offered, r, maxBid);
    }
  }

  lemma ReleasedBid(offered: seq<Candidates>, r: Request, maxBid: nat)
    requires r.Releasing? && r.todo != [] && Tracks(offered, r) && BidsWithin(offered, maxBid)
    ensures r.todo[0].bidPriceCents >= 0
  {
    var kept := r.over + [r.cur] + r.rest;
    assert kept[|r.over|] == r.cur && r.todo[0] in r.cur;
  }

  ghost predicate Within(s: System, before: Counters, c: CampaignId, maxBid: nat) {
    var firm := Total(s.requests, FirmOf(c));
    firm <= 0 || firm < At(before, c) + maxBid
  }

  lemma {:induction false} FirmAndOwing(requests: seq<Request>, c: CampaignId)
    ensures Total(requests, HoldingOf(c)) == Total(requests, FirmOf(c)) + Total(requests, OwingOf(c))
  {
    if requests != [] {
      FirmAndOwing(requests[1..], c);
    }
  }

  lemma {:induction false} OwingTotal(offered: seq<seq<Candidates>>, requests: seq<Request>, c: CampaignId, maxBid: nat)
    requires |requests| == |offered| && forall i :: 0 <= i < |offered| ==> Tracks(offered[i], requests[i])
    requires forall i :: 0 <= i < |offered| ==> BidsWithin(offered[i], maxBid)
    ensures Total(requests, OwingOf(c)) >= 0
  {
    if requests != [] {
      OwingNonNegative(offered[0], requests[0], c, maxBid);
      OwingTotal(offered[1..], requests[1..], c, maxBid);
    }
  }

  lemma FireWithin(offered: seq<seq<Candidates>>, s: System, a: Action, before: Counters, c: CampaignId, maxBid: nat)
    requires Inv(s, before) && AllTrack(offered, s) && Within(s, before, c, maxBid) && Fire(s, a).Some?
    requires forall i :: 0 <= i < |offered| ==> BidsWithin(offered[i], maxBid)
    ensures Within(Fire(s, a).value, before, c, maxBid)
  {
    var i, s' := a.request, Fire(s, a).value;
    var r := s.requests[i];
    assert r in s.requests;
    TotalUpdate(s.requests, i, s'.requests[i], FirmOf(c));
    if a.Step? {
      FirmStep(s.counters, offered[i], r, c, maxBid);
      FirmAndOwing(s.requests, c);
      OwingTotal(offered, s.requests, c, maxBid);
    }
  }

  lemma {:induction false} RunWithin(offered: seq<seq<Candidates>>, s: System, trace: seq<Action>, before: Counters,
                                     c: CampaignId, maxBid: nat)
    requires Inv(s, before) && AllTrack(offered, s) && Within(s, before, c, maxBid) && Run(s, trace).Some?
    requires forall i :: 0 <= i < |offered| ==> BidsWithin(offered[i], maxBid)
    ensures Within(Run(s, trace).value, before, c, maxBid)
    decreases |trace|
  {
    if trace != [] {
      FireWithin(offered, s, trace[0], before, c, maxBid);
      FireKeepsInv(s, trace[0], before);
      FireTracks(offered, s, trace[0]);
      RunWithin(offered, Fire(s, trace[0]).value, trace[1..], before, c, maxBid);
    }
  }

  /** At every point of every run: what all requests together hold of a budget, apart from the
      subtractions about to be undone, overshoots it by less than one bid. */
  lemma HeldWithinBudget(before: Counters, offered: seq<seq<Candidates>>, trace: seq<Action>, c: CampaignId,
                         maxBid: nat)
    requires forall i :: 0 <= i < |offered| ==> AllDistinct(offered[i]) && BidsWithin(offered[i], maxBid)
    requires Run(Start(before, offered), trace).Some?
    ensures Within(Run(Start(before, offered), trace).value, before, c, maxBid)
  {
    var s0 := Start(before, offered);
    forall d: CampaignId ensures Total(s0.requests, HoldingOf(d)) == 0 {
      TotalZero(s0.requests, HoldingOf(d));
    }
    TotalZero(s0.requests, FirmOf(c));
    RunWithin(offered, s0, trace, before, c, maxBid);
  }
}
