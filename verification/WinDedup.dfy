/** The win path over a store with SET NX EX: many handlers, commands that may land
    late or lose their reply, and the side effects that follow an accept
    (bidder-server/src/win_notice.rs:166-215, server/handlers.rs:202-263). */
module WinDedup {
  import opened Common

  datatype Notice = Notice(requestId: string, impId: string)

  function DedupKey(n: Notice): string {
    "v1:winx:" + n.requestId + ":" + n.impId
  }

  /** The time to live of a dedup key, at least one second. */
  function Ttl(dedupTtlSecs: nat): nat {
    if dedupTtlSecs < 1 then 1 else dedupTtlSecs
  }

  /** The configured time, or one second if none is configured. */
  lemma TtlIs(dedupTtlSecs: nat)
    ensures Ttl(dedupTtlSecs) >= 1 && (dedupTtlSecs >= 1 ==> Ttl(dedupTtlSecs) == dedupTtlSecs) && Ttl(0) == 1
  {
  }

  /** A SET that took effect at the store. */
  datatype Written = Written(key: string, at: nat)

  /** What a landed SET answered: it wrote entry `index` of the history, or the key was there. */
  datatype Answer = Wrote(index: nat) | Exists

  datatype Handler =
    | Idle
    | Waiting(notice: Notice, landed: Option<Answer>)  // SET sent; landed but reply unread if `Some`
    | Accepted(notice: Notice, index: nat)             // gate passed, side effects still to run

  /** One run of the side effects: impression record and event publish. */
  datatype Effect = Effect(notice: Notice, index: nat, at: nat)

  datatype System = System(
    ttl: nat, clock: nat,
    expiry: map<string, nat>,      // live keys of the store
    orphans: multiset<string>,     // SETs whose handler gave up before they landed
    handlers: seq<Handler>,
    writes: seq<Written>, effects: seq<Effect>)

  datatype Action =
    | Arrive(handler: nat, notice: Notice, tokenOk: bool, at: nat)
    | Land(handler: nat, at: nat)
    | ReadReply(handler: nat, at: nat)
    | GiveUp(handler: nat, at: nat)  // timeout or error: fail closed
    | LandOrphan(key: string, at: nat)
    | RunEffects(handler: nat, at: nat)

  /** Whether SET NX finds the key free; a key whose time has come is gone. */
  predicate Free(s: System, key: string, at: nat) {
    key !in s.expiry || s.expiry[key] <= at
  }

  /** SET NX EX on the store. */
  function SetNx(s: System, key: string, at: nat): System {
    if Free(s, key, at) then s.(expiry := s.expiry[key := at + s.ttl], writes := s.writes + [Written(key, at)]) else s
  }

  function Fire(s: System, a: Action): Option<System> {
    if a.at < s.clock then None
    else
      var s' := s.(clock := a.at);
      if a.LandOrphan? then
        if a.key in s.orphans then Some(SetNx(s'.(orphans := s.orphans - multiset{a.key}), a.key, a.at)) else None
      else if a.handler < |s.handlers| then FireHandler(s', a, s.handlers[a.handler])
      else None
  }

  function FireHandler(s: System, a: Action, h: Handler): Option<System>
    requires !a.LandOrphan? && a.handler < |s.handlers|
  {
    match (a, h)
    case (Arrive(i, n, tokenOk, _), Idle) =>
      if tokenOk then Some(s.(handlers := s.handlers[i := Waiting(n, None)])) else Some(s)
    case (Land(i, at), Waiting(n, None)) =>
      var answer := if Free(s, DedupKey(n), at) then Wrote(|s.writes|) else Exists;
      Some(SetNx(s, DedupKey(n), at).(handlers := s.handlers[i := Waiting(n, Some(answer))]))
    case (ReadReply(i, _), Waiting(n, Some(answer))) =>
      Some(s.(handlers := s.handlers[i := if answer.Wrote? then Accepted(n, answer.index) else Idle]))
    case (GiveUp(i, _), Waiting(n, landed)) =>
      Some(s.(handlers := s.handlers[i := Idle],
              orphans := if landed.None? then s.orphans + multiset{DedupKey(n)} else s.orphans))
    case (RunEffects(i, at), Accepted(n, index)) =>
      Some(s.(handlers := s.handlers[i := Idle], effects := s.effects + [Effect(n, index, at)]))
    case _ => None
  }

  function Run(s: System, trace: seq<Action>): Option<System>
    decreases |trace|
  {
    if trace == [] then Some(s)
    else
      match Fire(s, trace[0])
      case None => None
      case Some(s') => Run(s', trace[1..])
  }

  function Start(dedupTtlSecs: nat, handlerCount: nat): System {
    System(Ttl(dedupTtlSecs), 0, map[], multiset{}, seq(handlerCount, _ => Idle), [], [])
  }

  /** The store never accepts one key twice within the time to live. */
  ghost predicate StoreOk(s: System) {
    && (forall i :: 0 <= i < |s.writes| ==>
          && s.writes[i].at <= s.clock && s.writes[i].key in s.expiry
          && s.expiry[s.writes[i].key] >= s.writes[i].at + s.ttl)
    && (forall i, j :: 0 <= i < j < |s.writes| && s.writes[i].key == s.writes[j].key ==>
          s.writes[i].at + s.ttl <= s.writes[j].at)
  }

  /** The write a handler owns: it has been told, or will be, that its SET succeeded. */
  function Owned(h: Handler): Option<nat> {
    match h
    case Waiting(_, Some(Wrote(k))) => Some(k)
    case Accepted(_, k) => Some(k)
    case _ => None
  }

  ghost predicate OwnersOk(s: System) {
    && (forall i :: 0 <= i < |s.handlers| && Owned(s.handlers[i]).Some? ==>
          var k := Owned(s.handlers[i]).value;
          k < |s.writes| && s.writes[k].key == DedupKey(s.handlers[i].notice))
    && (forall i, j :: 0 <= i < j < |s.handlers| && Owned(s.handlers[i]).Some? ==>
          Owned(s.handlers[i]) != Owned(s.handlers[j]))
  }

  ghost predicate EffectsOk(s: System) {
    && (forall e :: 0 <= e < |s.effects| ==>
          var x := s.effects[e];
          x.index < |s.writes| && s.writes[x.index].key == DedupKey(x.notice) && s.writes[x.index].at <= x.at)
    && (forall e, i :: 0 <= e < |s.effects| && 0 <= i < |s.handlers| ==>
          Owned(s.handlers[i]) != Some(s.effects[e].index))
    && (forall e, f :: 0 <= e < f < |s.effects| ==> s.effects[e].index != s.effects[f].index)
  }

  ghost predicate Inv(s: System) { StoreOk(s) && OwnersOk(s) && EffectsOk(s) }

  lemma SetNxKeeps(s: System, key: string, at: nat)
    requires StoreOk(s) && s.clock <= at
    ensures StoreOk(SetNx(s, key, at).(clock := at))
  {
  }

  /** A step that may write, and gives a new write to handler `i` at most. */
  lemma HandlerStepKeeps(s: System, s': System, i: nat)
    requires Inv(s) && StoreOk(s') && i < |s.handlers| == |s'.handlers|
    requires s'.handlers == s.handlers[i := s'.handlers[i]] && s.writes <= s'.writes && s'.effects == s.effects
    requires Owned(s'.handlers[i]).Some? ==>
      var k := Owned(s'.handlers[i]).value;
      && k < |s'.writes| && s'.writes[k].key == DedupKey(s'.handlers[i].notice)
      && (Owned(s.handlers[i]) == Some(k) || k >= |s.writes|)
    ensures Inv(s')
  {
  }

  lemma EffectsStepKeeps(s: System, i: nat, at: nat)
    requires Inv(s) && i < |s.handlers| && s.handlers[i].Accepted? && s.clock <= at
    ensures var h := s.handlers[i];
      Inv(s.(clock := at, handlers := s.handlers[i := Idle], effects := s.effects + [Effect(h.notice, h.index, at)]))
  {
    assert Owned(s.handlers[i]) == Some(s.handlers[i].index);
  }

  lemma OrphanStepKeeps(s: System, key: string, at: nat)
    requires Inv(s) && Fire(s, LandOrphan(key, at)).Some?
    ensures Inv(Fire(s, LandOrphan(key, at)).value)
  {
    SetNxKeeps(s, key, at);
  }

  lemma LandStepKeeps(s: System, i: nat, at: nat)
    requires Inv(s) && Fire(s, Land(i, at)).Some?
    ensures Inv(Fire(s, Land(i, at)).value)
  {
    var s' := Fire(s, Land(i, at)).value;
    SetNxKeeps(s, DedupKey(s.handlers[i].notice), at);
    assert StoreOk(s');
    HandlerStepKeeps(s, s', i);
  }

  lemma QuietStepKeeps(s: System, a: Action)
    requires Inv(s) && Fire(s, a).Some? && (a.Arrive? || a.ReadReply? || a.GiveUp?)
    ensures Inv(Fire(s, a).value)
  {
    HandlerStepKeeps(s, Fire(s, a).value, a.handler);
  }

  lemma FireKeepsInv(s: System, a: Action)
    requires Inv(s) && Fire(s, a).Some?
    ensures Inv(Fire(s, a).value)
  {
    match a
    case LandOrphan(key, at) => OrphanStepKeeps(s, key, at);
    case RunEffects(i, at) => EffectsStepKeeps(s, i, at);
    case Land(i, at) => LandStepKeeps(s, i, at);
    case _ => QuietStepKeeps(s, a);
  }

  lemma {:induction false} RunKeepsInv(s: System, trace: seq<Action>)
    requires Inv(s) && Run(s, trace).Some?
    ensures Inv(Run(s, trace).value) && Run(s, trace).value.ttl == s.ttl
    decreases |trace|
  {
    if trace != [] {
      FireKeepsInv(s, trace[0]);
      RunKeepsInv(Fire(s, trace[0]).value, trace[1..]);
    }
  }

  /** In every run, two side effects for one notice stem from two SETs that took effect
      at least one time to live apart, each before its side effects; the effects
      themselves are that far apart less the delay of the earlier handler. */
  lemma EffectsAreApart(dedupTtlSecs: nat, handlerCount: nat, trace: seq<Action>, e: nat, f: nat)
    requires Run(Start(dedupTtlSecs, handlerCount), trace).Some?
    requires var s := Run(Start(dedupTtlSecs, handlerCount), trace).value;
      e < |s.effects| && f < |s.effects| && e != f && DedupKey(s.effects[e].notice) == DedupKey(s.effects[f].notice)
    ensures var s := Run(Start(dedupTtlSecs, handlerCount), trace).value;
      var x, y := s.effects[e], s.effects[f];
      && x.index < |s.writes| && y.index < |s.writes| && x.index != y.index
      && s.writes[x.index].key == s.writes[y.index].key == DedupKey(x.notice)
      && s.writes[x.index].at <= x.at && s.writes[y.index].at <= y.at
      && (x.index < y.index ==>
            && s.writes[x.index].at + Ttl(dedupTtlSecs) <= s.writes[y.index].at
            && x.at + Ttl(dedupTtlSecs) <= y.at + (x.at - s.writes[x.index].at))
  {
    var start := Start(dedupTtlSecs, handlerCount);
    RunKeepsInv(start, trace);
    var s := Run(start, trace).value;
    assert s.effects[e].index != s.effects[f].index;
  }

  /** Every run of the side effects follows its SET within `delay`. */
  ghost predicate Prompt(s: System, delay: nat) {
    forall e :: 0 <= e < |s.effects| && s.effects[e].index < |s.writes| ==>
      s.effects[e].at <= s.writes[s.effects[e].index].at + delay
  }

  /** Side effects for one notice are a time to live apart. */
  ghost predicate Apart(s: System) {
    forall e, f :: 0 <= e < |s.effects| && 0 <= f < |s.effects| && e != f ==>
      s.effects[e].notice == s.effects[f].notice ==>
      s.effects[e].at + s.ttl <= s.effects[f].at || s.effects[f].at + s.ttl <= s.effects[e].at
  }

  ghost predicate Reached(dedupTtlSecs: nat, s: System) {
    exists handlerCount, trace :: Run(Start(dedupTtlSecs, handlerCount), trace) == Some(s)
  }

  ghost predicate AlwaysApart(dedupTtlSecs: nat, delay: nat) {
    forall s :: Reached(dedupTtlSecs, s) && Prompt(s, delay) ==> Apart(s)
  }

  lemma {:induction false} RunThen(s: System, trace: seq<Action>, a: Action)
    requires Run(s, trace).Some?
    ensures Run(s, trace + [a]) == Fire(Run(s, trace).value, a)
    decreases |trace|
  {
    if trace == [] {
      assert (trace + [a])[1..] == [];
    } else {
      assert (trace + [a])[1..] == trace[1..] + [a];
      RunThen(Fire(s, trace[0]).value, trace[1..], a);
    }
  }

  lemma ReachedThen(dedupTtlSecs: nat, s: System, a: Action) returns (s': System)
    requires Reached(dedupTtlSecs, s) && Fire(s, a).Some?
    ensures Reached(dedupTtlSecs, s') && s' == Fire(s, a).value
  {
    var handlerCount, trace :| Run(Start(dedupTtlSecs, handlerCount), trace) == Some(s);
    RunThen(Start(dedupTtlSecs, handlerCount), trace, a);
    s' := Fire(s, a).value;
    assert Run(Start(dedupTtlSecs, handlerCount), trace + [a]) == Some(s');
  }

  /** A handler sends a SET that finds the key free. */
  lemma OneLanded(dedupTtlSecs: nat, s: System, n: Notice, at: nat) returns (s': System)
    requires Reached(dedupTtlSecs, s) && s.handlers == [Idle] && Free(s, DedupKey(n), at) && s.clock <= at
    ensures Reached(dedupTtlSecs, s')
    ensures s' == s.(clock := at, handlers := [Waiting(n, Some(Wrote(|s.writes|)))],
                     expiry := s.expiry[DedupKey(n) := at + s.ttl], writes := s.writes + [Written(DedupKey(n), at)])
  {
    s' := ReachedThen(dedupTtlSecs, s, Arrive(0, n, true, at));
    assert s' == s.(clock := at, handlers := [Waiting(n, None)]);
    s' := ReachedThen(dedupTtlSecs, s', Land(0, at));
  }

  /** It reads the reply and runs the side effects at `later`. */
  lemma OneWin(dedupTtlSecs: nat, s: System, n: Notice, at: nat, later: nat) returns (s': System)
    requires Reached(dedupTtlSecs, s) && s.handlers == [Idle] && Free(s, DedupKey(n), at) && s.clock <= at <= later
    ensures Reached(dedupTtlSecs, s')
    ensures s' == s.(clock := later, expiry := s.expiry[DedupKey(n) := at + s.ttl],
                     writes := s.writes + [Written(DedupKey(n), at)],
                     effects := s.effects + [Effect(n, |s.writes|, later)])
  {
    var landed := OneLanded(dedupTtlSecs, s, n, at);
    var accepted := ReachedThen(dedupTtlSecs, landed, ReadReply(0, at));
    assert accepted == landed.(handlers := [Accepted(n, |s.writes|)]);
    s' := ReachedThen(dedupTtlSecs, accepted, RunEffects(0, later));
    assert s'.handlers == [Idle];
  }

  /** A handler that is one second late brings two side effects too close together. */
  lemma LateHandlerTooClose(dedupTtlSecs: nat, n: Notice) returns (s: System)
    ensures Reached(dedupTtlSecs, s) && Prompt(s, 1) && !Apart(s)
  {
    s := Start(dedupTtlSecs, 1);
    assert Run(s, []) == Some(s);
    s := OneWin(dedupTtlSecs, s, n, 0, 1);
    s := OneWin(dedupTtlSecs, s, n, Ttl(dedupTtlSecs), Ttl(dedupTtlSecs));
    assert s.effects == [Effect(n, 0, 1), Effect(n, 1, Ttl(dedupTtlSecs))];
    assert s.effects[0].notice == s.effects[1].notice;
  }

  /** Side effects for one notice are always a time to live apart exactly when no handler
      delays them: what the store spaces out is the SETs. */
  lemma ApartIff(dedupTtlSecs: nat, delay: nat)
    ensures AlwaysApart(dedupTtlSecs, delay) <==> delay == 0
  {
    if delay == 0 {
      forall s | Reached(dedupTtlSecs, s) && Prompt(s, 0) ensures Apart(s) {
        PromptApart(dedupTtlSecs, s);
      }
    } else {
      var s := LateHandlerTooClose(dedupTtlSecs, Notice("r", "i"));
      assert Prompt(s, delay);
    }
  }

  lemma PromptApart(dedupTtlSecs: nat, s: System)
    requires Reached(dedupTtlSecs, s) && Prompt(s, 0)
    ensures Apart(s)
  {
    var handlerCount, trace :| Run(Start(dedupTtlSecs, handlerCount), trace) == Some(s);
    RunKeepsInv(Start(dedupTtlSecs, handlerCount), trace);
    forall e, f | 0 <= e < |s.effects| && 0 <= f < |s.effects| && e != f && s.effects[e].notice == s.effects[f].notice
      ensures s.effects[e].at + s.ttl <= s.effects[f].at || s.effects[f].at + s.ttl <= s.effects[e].at
    {
      assert s.effects[e].index != s.effects[f].index;
    }
  }

  // Authentication.

  /** The notices that arrived with a valid token. */
  ghost function Genuine(trace: seq<Action>): set<Notice> {
    if trace == [] then {} else Genuine(trace[1..]) + GenuineIn(trace[0])
  }

  ghost function GenuineIn(a: Action): set<Notice> { if a.Arrive? && a.tokenOk then {a.notice} else {} }

  lemma {:induction false} GenuineIs(trace: seq<Action>, n: Notice)
    ensures n in Genuine(trace) <==>
      exists k :: 0 <= k < |trace| && trace[k].Arrive? && trace[k].tokenOk && trace[k].notice == n
  {
    if trace != [] {
      GenuineIs(trace[1..], n);
      assert forall k :: 0 <= k < |trace| - 1 ==> trace[1..][k] == trace[k + 1];
      if n in Genuine(trace[1..]) {
        var k :| 0 <= k < |trace| - 1 && trace[1..][k].Arrive? && trace[1..][k].tokenOk && trace[1..][k].notice == n;
        assert trace[k + 1].Arrive?;
      }
    }
  }

  ghost predicate KeyOfOne(key: string, genuine: set<Notice>) { exists n :: n in genuine && key == DedupKey(n) }

  /** Every handler at work and every side effect belongs to one of the notices. */
  ghost predicate WorkAuthentic(s: System, genuine: set<Notice>) {
    && (forall i :: 0 <= i < |s.handlers| && !s.handlers[i].Idle? ==> s.handlers[i].notice in genuine)
    && (forall e :: 0 <= e < |s.effects| ==> s.effects[e].notice in genuine)
  }

  /** So does every key written or still to be written. */
  ghost predicate KeysAuthentic(s: System, genuine: set<Notice>) {
    && (forall w :: 0 <= w < |s.writes| ==> KeyOfOne(s.writes[w].key, genuine))
    && (forall key :: key in s.orphans ==> KeyOfOne(key, genuine))
    && (forall key :: key in s.expiry ==> KeyOfOne(key, genuine))
  }

  ghost predicate Authentic(s: System, genuine: set<Notice>) {
    WorkAuthentic(s, genuine) && KeysAuthentic(s, genuine)
  }

  lemma MoreGenuine(genuine: set<Notice>, more: set<Notice>)
    requires genuine <= more
    ensures forall key :: KeyOfOne(key, genuine) ==> KeyOfOne(key, more)
  {
    forall key | KeyOfOne(key, genuine) ensures KeyOfOne(key, more) {
      var n :| n in genuine && key == DedupKey(n);
      assert n in more;
    }
  }

  lemma SetNxAuthentic(s: System, key: string, at: nat, genuine: set<Notice>)
    requires KeysAuthentic(s, genuine) && KeyOfOne(key, genuine)
    ensures KeysAuthentic(SetNx(s, key, at), genuine)
  {
  }

  lemma FireWorkAuthentic(s: System, a: Action, genuine: set<Notice>)
    requires WorkAuthentic(s, genuine) && Fire(s, a).Some?
    ensures WorkAuthentic(Fire(s, a).value, genuine + GenuineIn(a))
  {
  }

  lemma FireKeysAuthentic(s: System, a: Action, genuine: set<Notice>)
    requires Authentic(s, genuine) && Fire(s, a).Some?
    ensures KeysAuthentic(Fire(s, a).value, genuine)
  {
    if a.LandOrphan? {
      SetNxAuthentic(s.(orphans := s.orphans - multiset{a.key}), a.key, a.at, genuine);
    } else if a.Land? || a.GiveUp? {
      var n := s.handlers[a.handler].notice;
      assert KeyOfOne(DedupKey(n), genuine);
      SetNxAuthentic(s, DedupKey(n), a.at, genuine);
    }
  }

  lemma FireAuthentic(s: System, a: Action, genuine: set<Notice>)
    requires Authentic(s, genuine) && Fire(s, a).Some?
    ensures Authentic(Fire(s, a).value, genuine + GenuineIn(a))
  {
    FireWorkAuthentic(s, a, genuine);
    FireKeysAuthentic(s, a, genuine);
    MoreGenuine(genuine, genuine + GenuineIn(a));
  }

  lemma {:induction false} RunAuthentic(s: System, trace: seq<Action>, genuine: set<Notice>)
    requires Authentic(s, genuine) && Run(s, trace).Some?
    ensures Authentic(Run(s, trace).value, genuine + Genuine(trace))
    decreases |trace|
  {
    if trace != [] {
      FireAuthentic(s, trace[0], genuine);
      RunAuthentic(Fire(s, trace[0]).value, trace[1..], genuine + GenuineIn(trace[0]));
      assert genuine + GenuineIn(trace[0]) + Genuine(trace[1..]) == genuine + Genuine(trace);
    } else {
      assert genuine + Genuine(trace) == genuine;
    }
  }

  /** In every run every side effect, every handler at work and every key ever written belongs
      to a notice that arrived with a valid token. */
  lemma OnlyGenuine(dedupTtlSecs: nat, handlerCount: nat, trace: seq<Action>)
    requires Run(Start(dedupTtlSecs, handlerCount), trace).Some?
    ensures Authentic(Run(Start(dedupTtlSecs, handlerCount), trace).value, Genuine(trace))
  {
    RunAuthentic(Start(dedupTtlSecs, handlerCount), trace, {});
    assert {} + Genuine(trace) == Genuine(trace);
  }

  /** A notice with a bad token leaves no trace. */
  lemma ForgedIgnored(s: System, i: nat, n: Notice, at: nat)
    requires Fire(s, Arrive(i, n, false, at)).Some?
    ensures Fire(s, Arrive(i, n, false, at)).value == s.(clock := at)
  {
  }

  // Every SET that is sent lands at most once, whatever becomes of its handler.

  ghost function Sending(key: string): Handler -> int {
    (h: Handler) => if h.Waiting? && h.landed.None? && DedupKey(h.notice) == key then 1 else 0
  }

  /** SETs of the key that may still land. */
  ghost function Outstanding(s: System, key: string): int {
    s.orphans[key] + Total(s.handlers, Sending(key))
  }

  ghost function Sends(a: Action, key: string): nat {
    if a.Arrive? && a.tokenOk && DedupKey(a.notice) == key then 1 else 0
  }

  ghost function Lands(s: System, a: Action, key: string): nat {
    match a
    case Land(i, _) => if i < |s.handlers| && Sending(key)(s.handlers[i]) == 1 then 1 else 0
    case LandOrphan(k, _) => if k == key then 1 else 0
    case _ => 0
  }

  lemma FireSends(s: System, a: Action, key: string)
    requires Fire(s, a).Some?
    ensures Outstanding(Fire(s, a).value, key) == Outstanding(s, key) + Sends(a, key) - Lands(s, a, key)
  {
    if !a.LandOrphan? {
      var handlers := Fire(s, a).value.handlers;
      assert handlers == s.handlers[a.handler := handlers[a.handler]];
      TotalUpdate(s.handlers, a.handler, handlers[a.handler], Sending(key));
    }
  }

  ghost function Sent(trace: seq<Action>, key: string): nat {
    if trace == [] then 0 else Sends(trace[0], key) + Sent(trace[1..], key)
  }

  ghost function Landed(s: System, trace: seq<Action>, key: string): nat
    requires Run(s, trace).Some?
    decreases |trace|
  {
    if trace == [] then 0 else Lands(s, trace[0], key) + Landed(Fire(s, trace[0]).value, trace[1..], key)
  }

  lemma {:induction false} RunSends(s: System, trace: seq<Action>, key: string)
    requires Run(s, trace).Some?
    ensures Outstanding(Run(s, trace).value, key) + Landed(s, trace, key) == Outstanding(s, key) + Sent(trace, key)
    decreases |trace|
  {
    if trace != [] {
      FireSends(s, trace[0], key);
      RunSends(Fire(s, trace[0]).value, trace[1..], key);
    }
  }

  /** In every run the SETs of a key that landed and those that still may are the valid notices
      of that key; so none lands twice, whether or not its handler gave up. */
  lemma EverySetOnce(dedupTtlSecs: nat, handlerCount: nat, trace: seq<Action>, key: string)
    requires Run(Start(dedupTtlSecs, handlerCount), trace).Some?
    ensures var s := Start(dedupTtlSecs, handlerCount);
      Landed(s, trace, key) + Outstanding(Run(s, trace).value, key) == Sent(trace, key)
    ensures Outstanding(Run(Start(dedupTtlSecs, handlerCount), trace).value, key) >= 0
  {
    var s := Start(dedupTtlSecs, handlerCount);
    RunSends(s, trace, key);
    TotalZero(s.handlers, Sending(key));
    TotalNonNegative(Run(s, trace).value.handlers, Sending(key));
  }

  function Ids(n: Notice): string { n.requestId + ":" + n.impId }

  lemma SameKey(n: Notice, m: Notice)
    ensures DedupKey(n) == DedupKey(m) <==> Ids(n) == Ids(m)
  {
    assert DedupKey(n) == "v1:winx:" + Ids(n) && DedupKey(m) == "v1:winx:" + Ids(m);
    assert ("v1:winx:" + Ids(n))[8..] == Ids(n) && ("v1:winx:" + Ids(m))[8..] == Ids(m);
  }

  /** The request id of `m` runs over a colon into the impression id of `n`. */
  ghost predicate Overlaps(n: Notice, m: Notice) {
    exists x :: m.requestId == n.requestId + ":" + x && n.impId == x + ":" + m.impId
  }

  lemma OverlapShares(n: Notice, m: Notice)
    requires Overlaps(n, m)
    ensures Ids(n) == Ids(m) && n != m
  {
    var x :| m.requestId == n.requestId + ":" + x && n.impId == x + ":" + m.impId;
    assert n.requestId + ":" + (x + ":" + m.impId) == (n.requestId + ":" + x) + ":" + m.impId;
  }

  lemma SharedOverlaps(n: Notice, m: Notice)
    requires Ids(n) == Ids(m) && |n.requestId| < |m.requestId|
    ensures Overlaps(n, m)
  {
    var s, k := Ids(n), |m.requestId|;
    var x := m.requestId[|n.requestId| + 1..];
    assert m.requestId == s[..k] && m.impId == s[k + 1..] && s[k] == ':';
    assert n.requestId == s[..|n.requestId|] && n.impId == s[|n.requestId| + 1..];
    assert m.requestId == n.requestId + ":" + x;
    assert n.impId == x + ":" + m.impId;
  }

  /** The dedup key does not separate every two notices: two different notices share a
      key exactly when one request id runs over a colon into the other's impression id. */
  lemma SharedKeyIff(n: Notice, m: Notice)
    ensures DedupKey(n) == DedupKey(m) && n != m <==> Overlaps(n, m) || Overlaps(m, n)
  {
    SameKey(n, m);
    if Overlaps(n, m) {
      OverlapShares(n, m);
    } else if Overlaps(m, n) {
      OverlapShares(m, n);
    } else if Ids(n) == Ids(m) {
      if |n.requestId| < |m.requestId| {
        SharedOverlaps(n, m);
      } else if |m.requestId| < |n.requestId| {
        SharedOverlaps(m, n);
      } else {
        assert Ids(n)[..|n.requestId|] == n.requestId && Ids(m)[..|n.requestId|] == m.requestId;
        assert Ids(n)[|n.requestId| + 1..] == n.impId && Ids(m)[|n.requestId| + 1..] == m.impId;
      }
    }
  }
}
