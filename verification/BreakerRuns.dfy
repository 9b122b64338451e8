/** Many callers of one breaker, one step per lock acquisition. The window counts a
    report carries are arbitrary, which covers every interleaving of the counters
    that callers update before they take the lock (breaker/mod.rs:141-243). */
module BreakerRuns {
  import opened Common
  import opened CircuitBreaker

  /** Who asks: a Redis call site that reports its outcome; the in-process
      frequency check, which does not; or the Redis fallback inside that check. */
  datatype Asker = RedisCall | InProcessCheck | Fallback

  datatype Caller =
    | Idle
    | Waiting(asker: Asker)  // fell through the read lock, wants the write lock
    | Calling                // admitted, will report an outcome unless it is dropped
    | Screening              // in-process check that passed its gate

  datatype System = System(cfg: Config, inner: Inner, clock: nat, callers: seq<Caller>)

  datatype Action =
    | Ask(caller: nat, asker: Asker, at: nat)
    | TakeLock(caller: nat, at: nat)
    | FinishWarm(caller: nat, at: nat)  // every candidate was cached
    | Report(caller: nat, error: bool, slow: bool, calls: nat, errors: nat, slows: nat, at: nat)
    | Drop(caller: nat, at: nat)        // the request is cancelled before it reports

  function Admitted(asker: Asker): Caller {
    if asker == InProcessCheck then Screening else Calling
  }

  /** An in-process check consults the fallback only after its own gate. */
  predicate MayAsk(c: Caller, asker: Asker) {
    if asker == Fallback then c == Screening else c == Idle
  }

  /** What a step does to the record and to the caller, before the clock moves. */
  function Fire(s: System, a: Action): Option<System> {
    if a.caller >= |s.callers| || a.at < s.clock then None
    else
      match Effect(s, a)
      case None => None
      case Some((inner, c)) => Some(System(s.cfg, inner, a.at, s.callers[a.caller := c]))
  }

  function Effect(s: System, a: Action): Option<(Inner, Caller)>
    requires a.caller < |s.callers|
  {
    var c := s.callers[a.caller];
    match a
    case Ask(_, asker, at) =>
      if !MayAsk(c, asker) then None
      else
        (match ReadGate(s.cfg, s.inner, at)
         case Admit => Some((s.inner, Admitted(asker)))
         case Refuse => Some((s.inner, Idle))
         case FallThrough => Some((s.inner, Waiting(asker))))
    case TakeLock(_, at) =>
      if !c.Waiting? then None
      else
        var (inner, allowed) := WriteGate(s.cfg, s.inner, at);
        Some((inner, if allowed then Admitted(c.asker) else Idle))
    case FinishWarm(_, _) => if c == Screening then Some((s.inner, Idle)) else None
    case Report(_, error, slow, calls, errors, slows, at) =>
      if c == Calling then Some((Settle(s.cfg, s.inner, error, slow, calls, errors, slows, at), Idle)) else None
    case Drop(_, _) => if c == Idle then None else Some((s.inner, Idle))
  }

  /** The step lets a call through. */
  predicate Admits(s: System, a: Action) {
    && a.caller < |s.callers| && a.at >= s.clock
    && match a
       case Ask(i, asker, at) => MayAsk(s.callers[i], asker) && ReadGate(s.cfg, s.inner, at) == Admit
       case TakeLock(i, at) => s.callers[i].Waiting? && WriteGate(s.cfg, s.inner, at).1
       case _ => false
  }

  function Run(s: System, trace: seq<Action>): Option<System>
    decreases |trace|
  {
    if trace == [] then Some(s)
    else
      match Fire(s, trace[0])
      case None => None
      case Some(s') => Run(s', trace[1..])
  }

  /** How many calls the run lets through. */
  function Admissions(s: System, trace: seq<Action>): nat
    requires Run(s, trace).Some?
    decreases |trace|
  {
    if trace == [] then 0
    else (if Admits(s, trace[0]) then 1 else 0) + Admissions(Fire(s, trace[0]).value, trace[1..])
  }

  /** The run stays half-open after its first step. */
  predicate StaysHalfOpen(s: System, trace: seq<Action>)
    requires Run(s, trace).Some?
    decreases |trace|
  {
    trace == [] ||
    var s' := Fire(s, trace[0]).value;
    s'.inner.state == HalfOpen && StaysHalfOpen(s', trace[1..])
  }

  function Start(cfg: Config, callerCount: nat): System {
    System(cfg, Inner(Closed, None, false), 0, seq(callerCount, _ => Idle))
  }

  /** Outside the lock the probe slot is taken exactly in the half-open state. */
  ghost predicate Inv(s: System) {
    && (s.inner.probeInFlight <==> s.inner.state == HalfOpen)
    && (s.inner.state == Open ==> s.inner.openedAt.Some? && s.inner.openedAt.value <= s.clock)
  }

  lemma {:induction false} RunKeepsInv(s: System, trace: seq<Action>)
    requires Inv(s) && Run(s, trace).Some?
    ensures Inv(Run(s, trace).value)
    decreases |trace|
  {
    if trace != [] {
      RunKeepsInv(Fire(s, trace[0]).value, trace[1..]);
    }
  }

  /** In every state of every run. */
  lemma ProbeFlagIsHalfOpen(cfg: Config, callerCount: nat, trace: seq<Action>)
    requires Run(Start(cfg, callerCount), trace).Some?
    ensures var inner := Run(Start(cfg, callerCount), trace).value.inner;
      inner.probeInFlight <==> inner.state == HalfOpen
  {
    RunKeepsInv(Start(cfg, callerCount), trace);
  }

  /** The breaker opened at `since` or later, or its open period is over. */
  ghost predicate Quiet(s: System, since: nat) {
    || (s.inner.state == Open && s.inner.openedAt.Some? && s.inner.openedAt.value >= since)
    || s.clock >= since + s.cfg.openDuration
  }

  /** After an opening at `since`, no run lets a call through before the open period
      has passed, whatever the other callers do. */
  lemma {:induction false} NoAdmissionWhileOpen(s: System, since: nat, trace: seq<Action>, a: Action)
    requires Inv(s) && Quiet(s, since) && Run(s, trace).Some?
    ensures Admits(Run(s, trace).value, a) ==> a.at >= since + s.cfg.openDuration
    decreases |trace|
  {
    if trace != [] {
      NoAdmissionWhileOpen(Fire(s, trace[0]).value, since, trace[1..], a);
    }
  }

  /** The step that opens the breaker starts such a period at its own time. */
  lemma OpeningStartsQuiet(s: System, a: Action)
    requires Inv(s) && Fire(s, a).Some? && s.inner.state != Open && Fire(s, a).value.inner.state == Open
    ensures a.Report? && Quiet(Fire(s, a).value, a.at) && Inv(Fire(s, a).value)
  {
  }

  /** The protocol of a caller: what it may do next, and that only the write lock and a report
      touch the record. */
  lemma CallerProtocol(s: System, a: Action)
    ensures Fire(s, a).Some? <==>
      && a.caller < |s.callers| && a.at >= s.clock
      && match s.callers[a.caller]
         case Idle => a.Ask? && a.asker != Fallback
         case Screening => a.Drop? || a.FinishWarm? || (a.Ask? && a.asker == Fallback)
         case Waiting(_) => a.Drop? || a.TakeLock?
         case Calling => a.Drop? || a.Report?
    ensures Fire(s, a).Some? && !a.TakeLock? && !a.Report? ==> Fire(s, a).value.inner == s.inner
    ensures Fire(s, a).Some? && !a.TakeLock? && !a.Ask? ==> Fire(s, a).value.callers[a.caller] == Idle
  {
  }

  /** A report in the half-open state settles it: with an error or a slow call a new open period
      starts at its own time; a good one lets the next caller in at once. */
  lemma ProbeResolves(s: System, a: Action, j: nat)
    requires Inv(s) && s.inner.state == HalfOpen && a.Report? && Fire(s, a).Some? && j < |s.callers|
    ensures var s' := Fire(s, a).value;
      && (a.error || a.slow ==> s'.inner == Inner(Open, Some(a.at), false) && Quiet(s', a.at))
      && (!a.error && !a.slow ==> s'.inner.state == Closed)
      && (!a.error && !a.slow && s'.callers[j] == Idle ==> Admits(s', Ask(j, RedisCall, a.at)))
  {
  }

  lemma {:induction false} NoAdmissionInHalfOpen(s: System, trace: seq<Action>)
    requires Inv(s) && s.inner.state == HalfOpen && Run(s, trace).Some? && StaysHalfOpen(s, trace)
    ensures Admissions(s, trace) == 0
    decreases |trace|
  {
    if trace != [] {
      NoAdmissionInHalfOpen(Fire(s, trace[0]).value, trace[1..]);
    }
  }

  /** From the step that enters the half-open state until one leaves it, exactly one
      call is let through, under every interleaving of the two lock paths. */
  lemma OneProbePerEpisode(s: System, trace: seq<Action>)
    requires Inv(s) && s.inner.state != HalfOpen && trace != []
    requires Run(s, trace).Some? && StaysHalfOpen(s, trace)
    ensures Admissions(s, trace) == 1
  {
    NoAdmissionInHalfOpen(Fire(s, trace[0]).value, trace[1..]);
  }

  /** Half-open, with no admitted call left that could report. */
  ghost predicate Wedged(s: System) {
    s.inner.state == HalfOpen && s.inner.probeInFlight && Calling !in s.callers
  }

  lemma FireKeepsWedged(s: System, a: Action)
    requires Wedged(s) && Fire(s, a).Some?
    ensures Wedged(Fire(s, a).value) && !Admits(s, a)
  {
    var s' := Fire(s, a).value;
    assert s.callers[a.caller] in s.callers;
    forall c | c in s'.callers ensures c != Calling {
      assert c in s.callers || c == s'.callers[a.caller];
    }
  }

  /** Then every continuation refuses every request. */
  lemma {:induction false} WedgedForGood(s: System, trace: seq<Action>)
    requires Wedged(s) && Run(s, trace).Some?
    ensures Wedged(Run(s, trace).value) && Admissions(s, trace) == 0
    decreases |trace|
  {
    if trace != [] {
      FireKeepsWedged(s, trace[0]);
      WedgedForGood(Fire(s, trace[0]).value, trace[1..]);
    }
  }

  /** An in-process check that takes the probe slot while no call is outstanding
      wedges the breaker: neither its warm path nor its fallback ever reports. */
  lemma InProcessProbeWedges(s: System, i: nat, at: nat, trace: seq<Action>)
    requires Inv(s) && Calling !in s.callers
    requires i < |s.callers| && s.callers[i] == Waiting(InProcessCheck) && at >= s.clock
    requires Enters(s.cfg, s.inner, at)
    requires Run(s, [TakeLock(i, at)] + trace).Some?
    ensures Run(s, [TakeLock(i, at)] + trace).value.inner.state == HalfOpen
    ensures Admissions(s, [TakeLock(i, at)] + trace) == 1
  {
    var s' := Fire(s, TakeLock(i, at)).value;
    assert ([TakeLock(i, at)] + trace)[1..] == trace;
    assert Wedged(s') by {
      forall c | c in s'.callers ensures c != Calling {
        assert c in s.callers || c == Screening;
      }
    }
    WedgedForGood(s', trace);
  }

  /** `k` calls in a row that fail, each reported with the counts of the failures so far. */
  ghost function Failures(k: nat): seq<Action> {
    if k == 0 then []
    else Failures(k - 1) + [Ask(0, RedisCall, 0), Report(0, true, false, k, k, 0, 0)]
  }

  /** The window of a fresh closed breaker after `k` failed calls. */
  ghost function WindowAfter(cfg: Config, k: nat): seq<Outcome> {
    if k == 0 then [] else ClosedHistory(cfg, WindowAfter(cfg, k - 1) + [Outcome(true, false)])
  }

  /** The next failure finds the counts that `Failures` reports. */
  ghost predicate Truthful(cfg: Config, k: nat) {
    var h := WindowAfter(cfg, k) + [Outcome(true, false)];
    |h| == k + 1 && ErrorsIn(h) == k + 1 && SlowsIn(h) == 0
  }

  /** Below `min_calls` a window that can hold them is never reset. */
  lemma {:induction false} WindowFills(cfg: Config, k: nat)
    requires cfg.minCalls <= cfg.windowSize && (k == 0 || k < cfg.minCalls)
    ensures WindowAfter(cfg, k) == AllErrors(k) && Truthful(cfg, k)
  {
    if k > 0 {
      WindowFills(cfg, k - 1);
    }
    AllErrorsCount(k + 1);
    assert AllErrors(k + 1) == AllErrors(k) + [Outcome(true, false)];
  }

  lemma {:induction false} RunThenTwo(s: System, trace: seq<Action>, a: Action, b: Action)
    requires Run(s, trace).Some? && Fire(Run(s, trace).value, a).Some?
    ensures Run(s, trace + [a, b]) == Fire(Fire(Run(s, trace).value, a).value, b)
    decreases |trace|
  {
    if trace == [] {
      assert (trace + [a, b])[1..] == [b] && [b][1..] == [];
      assert Run(Fire(s, a).value, [b]) == Fire(Fire(s, a).value, b);
    } else {
      assert (trace + [a, b])[1..] == trace[1..] + [a, b];
      RunThenTwo(Fire(s, trace[0]).value, trace[1..], a, b);
    }
  }

  /** A closed breaker stays closed below `min_calls` and opens at them. */
  lemma {:induction false} FailuresRun(cfg: Config, k: nat)
    requires cfg.errorRateThreshold <= 1.0 && (k <= 1 || k <= cfg.minCalls)
    ensures Run(Start(cfg, 1), Failures(k)) == Some(
      if k >= 1 && k >= cfg.minCalls then System(cfg, Inner(Open, Some(0), false), 0, [Idle]) else Start(cfg, 1))
  {
    if k > 0 {
      FailuresRun(cfg, k - 1);
      var s := Start(cfg, 1);
      assert s.callers == [Idle];
      var asked := Fire(s, Ask(0, RedisCall, 0)).value;
      assert asked == System(cfg, s.inner, 0, [Calling]);
      RunThenTwo(s, Failures(k - 1), Ask(0, RedisCall, 0), Report(0, true, false, k, k, 0, 0));
      if k >= cfg.minCalls {
        ErrorsTrip(cfg, k, 0);
      }
      assert Fire(asked, Report(0, true, false, k, k, 0, 0)).value.callers == [Idle];
    }
  }

  /** From a fresh breaker that can open at all, `min_calls` failures in a row, reported as its
      window counts them, and then one in-process check after the open period wedge it. */
  lemma StartReachesWedge(cfg: Config)
    requires cfg.minCalls <= cfg.windowSize && cfg.errorRateThreshold <= 1.0
    ensures var k := if cfg.minCalls == 0 then 1 else cfg.minCalls;
      var check := [Ask(0, InProcessCheck, cfg.openDuration), TakeLock(0, cfg.openDuration)];
      var end := Run(Start(cfg, 1), Failures(k) + check);
      end.Some? && Wedged(end.value) && forall j :: 0 <= j < k ==> Truthful(cfg, j)
  {
    var k := if cfg.minCalls == 0 then 1 else cfg.minCalls;
    WedgeRun(cfg, k);
    forall j | 0 <= j < k ensures Truthful(cfg, j) {
      WindowFills(cfg, j);
    }
  }

  lemma WedgeRun(cfg: Config, k: nat)
    requires cfg.errorRateThreshold <= 1.0 && k == if cfg.minCalls == 0 then 1 else cfg.minCalls
    ensures var check := [Ask(0, InProcessCheck, cfg.openDuration), TakeLock(0, cfg.openDuration)];
      var end := Run(Start(cfg, 1), Failures(k) + check);
      end.Some? && Wedged(end.value)
  {
    FailuresRun(cfg, k);
    var s := System(cfg, Inner(Open, Some(0), false), 0, [Idle]);
    var waiting := Fire(s, Ask(0, InProcessCheck, cfg.openDuration)).value;
    assert waiting == System(cfg, s.inner, cfg.openDuration, [Waiting(InProcessCheck)]);
    RunThenTwo(Start(cfg, 1), Failures(k), Ask(0, InProcessCheck, cfg.openDuration), TakeLock(0, cfg.openDuration));
    assert Fire(waiting, TakeLock(0, cfg.openDuration)).value.callers == [Screening];
  }

  lemma ReportLeaves(s: System, i: nat)
    requires Inv(s) && s.inner.state == HalfOpen && i < |s.callers| && s.callers[i] == Calling
    ensures exists trace :: Run(s, trace).Some? && Run(s, trace).value.inner.state != HalfOpen
  {
    var a := Report(i, false, false, 1, 0, 0, s.clock);
    var s' := Fire(s, a).value;
    assert s'.inner.state != HalfOpen;
    assert [a][1..] == [] && Run(s', []) == Some(s');
    assert Run(s, [a]) == Some(s');
  }

  /** The half-open state can be left exactly when some admitted call is outstanding,
      whether or not that call is the probe. */
  lemma LeavesHalfOpenIff(s: System)
    requires Inv(s) && s.inner.state == HalfOpen
    ensures (exists trace :: Run(s, trace).Some? && Run(s, trace).value.inner.state != HalfOpen)
       <==> Calling in s.callers
  {
    if Calling in s.callers {
      var i :| 0 <= i < |s.callers| && s.callers[i] == Calling;
      ReportLeaves(s, i);
    } else {
      forall trace | Run(s, trace).Some? ensures Run(s, trace).value.inner.state == HalfOpen {
        WedgedForGood(s, trace);
      }
    }
  }
}
