/** The circuit breaker: its transition rules as functions on the locked record,
    and the breaker object used by one caller at a time (breaker/mod.rs). */
module CircuitBreaker {
  import opened Common

  datatype BreakerState = Closed | Open | HalfOpen

  datatype Config = Config(
    minCalls: nat,
    errorRateThreshold: real,
    slowCallRatioThreshold: real,
    slowCallDuration: nat,
    openDuration: nat,
    windowSize: nat)

  /** The record behind the lock. */
  datatype Inner = Inner(state: BreakerState, openedAt: Option<nat>, probeInFlight: bool)

  datatype Gate = Admit | Refuse | FallThrough

  /** Time since the breaker opened; zero if it never did. */
  function Elapsed(inner: Inner, now: nat): nat {
    match inner.openedAt
    case Some(t) => if t <= now then now - t else 0
    case None => 0
  }

  /** `allow_request` under the read lock. */
  function ReadGate(cfg: Config, inner: Inner, now: nat): Gate {
    match inner.state
    case Closed => Admit
    case Open => if Elapsed(inner, now) < cfg.openDuration then Refuse else FallThrough
    case HalfOpen => FallThrough
  }

  /** Whether `try_enter_half_open` moves Open to HalfOpen. */
  predicate Enters(cfg: Config, inner: Inner, now: nat) {
    inner.state == Open && Elapsed(inner, now) >= cfg.openDuration
  }

  /** `try_enter_half_open` under the write lock: the new record and the verdict. */
  function WriteGate(cfg: Config, inner: Inner, now: nat): (Inner, bool) {
    var entered := if Enters(cfg, inner, now) then inner.(state := HalfOpen, probeInFlight := false) else inner;
    if entered.state == HalfOpen && !entered.probeInFlight then (entered.(probeInFlight := true), true)
    else (entered, false)
  }

  /** The thresholds, inclusive, once enough calls were seen. */
  predicate Trips(cfg: Config, calls: nat, errors: nat, slows: nat) {
    && calls >= cfg.minCalls
    && (|| errors as real >= cfg.errorRateThreshold * calls as real
        || slows as real >= cfg.slowCallRatioThreshold * calls as real)
  }

  /** `Trips` in terms of the error rate and the slow-call ratio. */
  lemma TripsByRatio(cfg: Config, calls: nat, errors: nat, slows: nat)
    requires calls > 0
    ensures Trips(cfg, calls, errors, slows) <==>
      && calls >= cfg.minCalls
      && (|| errors as real / calls as real >= cfg.errorRateThreshold
          || slows as real / calls as real >= cfg.slowCallRatioThreshold)
  {
    QuotientAbove(errors as real, calls as real, cfg.errorRateThreshold);
    QuotientAbove(slows as real, calls as real, cfg.slowCallRatioThreshold);
  }

  /** The locked part of `record_outcome`, given the window counts read before it. */
  function Settle(cfg: Config, inner: Inner, error: bool, slow: bool,
                  calls: nat, errors: nat, slows: nat, now: nat): Inner {
    match inner.state
    case Closed =>
      if Trips(cfg, calls, errors, slows) then inner.(state := Open, openedAt := Some(now)) else inner
    case HalfOpen =>
      if error || slow then Inner(Open, Some(now), false) else inner.(state := Closed, probeInFlight := false)
    case Open => inner
  }

  /** One recorded call. */
  datatype Outcome = Outcome(error: bool, slow: bool)

  ghost function ErrorsIn(h: seq<Outcome>): nat {
    if h == [] then 0 else ErrorsIn(h[..|h| - 1]) + if h[|h| - 1].error then 1 else 0
  }

  ghost function SlowsIn(h: seq<Outcome>): nat {
    if h == [] then 0 else SlowsIn(h[..|h| - 1]) + if h[|h| - 1].slow then 1 else 0
  }

  lemma Appended(h: seq<Outcome>, o: Outcome)
    ensures ErrorsIn(h + [o]) == ErrorsIn(h) + if o.error then 1 else 0
    ensures SlowsIn(h + [o]) == SlowsIn(h) + if o.slow then 1 else 0
  {
    assert (h + [o])[..|h|] == h;
  }

  /** What the window holds after one more outcome is recorded in the Closed state. */
  ghost function ClosedHistory(cfg: Config, h: seq<Outcome>): seq<Outcome> {
    if |h| >= cfg.windowSize || Trips(cfg, |h|, ErrorsIn(h), SlowsIn(h)) then [] else h
  }

  class Breaker {
    const cfg: Config
    var inner: Inner
    var calls: nat
    var errors: nat
    var slowCalls: nat
    /** The outcomes recorded since the window was last reset. */
    ghost var history: seq<Outcome>
    /** How many outcomes were ever reported. */
    ghost var reports: nat

    ghost predicate Valid()
      reads this
    {
      && calls == |history| && errors == ErrorsIn(history) && slowCalls == SlowsIn(history)
      && (inner.state == Closed ==> calls == 0 || calls < cfg.windowSize)
      && (inner.state == HalfOpen <==> inner.probeInFlight)
    }

    constructor (config: Config)
      ensures Valid() && cfg == config && inner == Inner(Closed, None, false) && history == [] && reports == 0
    {
      cfg, inner := config, Inner(Closed, None, false);
      calls, errors, slowCalls, history, reports := 0, 0, 0, [], 0;
    }

    method ResetWindow()
      modifies this`calls, this`errors, this`slowCalls, this`history
      ensures calls == errors == slowCalls == 0 && history == []
    {
      calls, errors, slowCalls, history := 0, 0, 0, [];
    }

    /** Closed admits; Open admits nobody until `openDuration` has passed and then
        exactly the caller that takes the probe slot; HalfOpen admits nobody. */
    method AllowRequest(now: nat) returns (allowed: bool)
      requires Valid()
      modifies this
      ensures Valid() && reports == old(reports)
      ensures allowed <==> old(inner.state) == Closed || Enters(cfg, old(inner), now)
      ensures !Enters(cfg, old(inner), now) ==> inner == old(inner) && history == old(history)
      ensures Enters(cfg, old(inner), now) ==>
        inner == old(inner).(state := HalfOpen, probeInFlight := true) && history == []
    {
      if inner.state == Closed {
        return true;
      }
      if inner.state == Open {
        if Elapsed(inner, now) < cfg.openDuration {
          return false;
        }
      }
      allowed := TryEnterHalfOpen(now);
    }

    method TryEnterHalfOpen(now: nat) returns (allowed: bool)
      requires Valid()
      modifies this
      ensures Valid() && reports == old(reports)
      ensures (inner, allowed) == WriteGate(cfg, old(inner), now)
      ensures history == if Enters(cfg, old(inner), now) then [] else old(history)
    {
      if inner.state == Open {
        if Elapsed(inner, now) >= cfg.openDuration {
          inner := inner.(state := HalfOpen, probeInFlight := false);
          ResetWindow();
        }
      }
      if inner.state == HalfOpen && !inner.probeInFlight {
        inner := inner.(probeInFlight := true);
        return true;
      }
      return false;
    }

    /** `Window::record`. */
    method RecordInWindow(o: Outcome)
      requires calls == |history| && errors == ErrorsIn(history) && slowCalls == SlowsIn(history)
      modifies this`calls, this`errors, this`slowCalls, this`history
      ensures history == old(history) + [o]
      ensures calls == |history| && errors == ErrorsIn(history) && slowCalls == SlowsIn(history)
    {
      Appended(history, o);
      calls := calls + 1;
      if o.error {
        errors := errors + 1;
      }
      if o.slow {
        slowCalls := slowCalls + 1;
      }
      history := history + [o];
    }

    /** Closed opens exactly when the outcomes since the last reset, this one
        included, reach a threshold; HalfOpen resolves on this outcome alone. */
    method RecordOutcome(error: bool, duration: nat, now: nat)
      requires Valid()
      modifies this
      ensures Valid() && reports == old(reports) + 1
      ensures var slow := duration >= cfg.slowCallDuration;
        var h := old(history) + [Outcome(error, slow)];
        && inner == Settle(cfg, old(inner), error, slow, |h|, ErrorsIn(h), SlowsIn(h), now)
        && (old(inner.state) == Closed ==>
              inner == if Trips(cfg, |h|, ErrorsIn(h), SlowsIn(h)) then Inner(Open, Some(now), false) else old(inner))
        && history == match old(inner.state) case Closed => ClosedHistory(cfg, h) case HalfOpen => [] case Open => h
      // A failed or slow probe opens the breaker again, at its own time; a good one closes it.
      ensures old(inner.state) == HalfOpen && (error || duration >= cfg.slowCallDuration) ==>
        inner == Inner(Open, Some(now), false)
      ensures old(inner.state) == HalfOpen && !error && duration < cfg.slowCallDuration ==>
        inner.state == Closed && !inner.probeInFlight
      ensures old(inner.state) == Open ==> inner == old(inner)
    {
      var slow := duration >= cfg.slowCallDuration;
      RecordInWindow(Outcome(error, slow));
      reports := reports + 1;
      var seenCalls, seenErrors, seenSlows := calls, errors, slowCalls;
      match inner.state {
        case Closed =>
          if seenCalls >= cfg.windowSize {
            ResetWindow();
          }
          if Trips(cfg, seenCalls, seenErrors, seenSlows) {
            inner := inner.(state := Open, openedAt := Some(now));
            ResetWindow();
          }
        case HalfOpen =>
          inner := inner.(probeInFlight := false);
          if error || slow {
            inner := inner.(state := Open, openedAt := Some(now));
            ResetWindow();
          } else {
            inner := inner.(state := Closed);
            ResetWindow();
          }
        case Open =>
      }
    }
  }

  /** The outcomes fed one after the other to a closed breaker, with its window. */
  ghost function Feed(cfg: Config, h: seq<Outcome>, outcomes: seq<Outcome>): Option<seq<Outcome>>
    decreases |outcomes|
  {
    if outcomes == [] then Some(h)
    else
      var h' := h + [outcomes[0]];
      if Trips(cfg, |h'|, ErrorsIn(h'), SlowsIn(h')) then None  // opened
      else Feed(cfg, ClosedHistory(cfg, h'), outcomes[1..])
  }

  /** With a window smaller than `min_calls` the breaker never opens, whatever it sees. */
  lemma {:induction false} SmallWindowNeverOpens(cfg: Config, h: seq<Outcome>, outcomes: seq<Outcome>)
    requires 1 <= cfg.windowSize < cfg.minCalls && |h| < cfg.windowSize
    ensures Feed(cfg, h, outcomes).Some?
    decreases |outcomes|
  {
    if outcomes != [] {
      SmallWindowNeverOpens(cfg, ClosedHistory(cfg, h + [outcomes[0]]), outcomes[1..]);
    }
  }

  ghost function AllErrors(k: nat): (h: seq<Outcome>)
    ensures |h| == k
  {
    if k == 0 then [] else AllErrors(k - 1) + [Outcome(true, false)]
  }

  lemma {:induction false} AllErrorsCount(k: nat)
    ensures ErrorsIn(AllErrors(k)) == k && SlowsIn(AllErrors(k)) == 0
    ensures forall o :: o in AllErrors(k) ==> o == Outcome(true, false)
  {
    if k > 0 {
      AllErrorsCount(k - 1);
      Appended(AllErrors(k - 1), Outcome(true, false));
    }
  }

  lemma ErrorsTrip(cfg: Config, calls: nat, slows: nat)
    requires calls >= cfg.minCalls && cfg.errorRateThreshold <= 1.0
    ensures Trips(cfg, calls, calls, slows)
  {
    var t, n := cfg.errorRateThreshold, calls as real;
    assert t * n <= n;
  }

  /** One more error after `k` of them. */
  lemma OneMoreError(k: nat, left: nat)
    requires left >= 1
    ensures AllErrors(k) + [AllErrors(left)[0]] == AllErrors(k + 1) && AllErrors(left)[1..] == AllErrors(left - 1)
    ensures ErrorsIn(AllErrors(k + 1)) == k + 1
  {
    AllErrorsCount(left);
    AllErrorsCount(k + 1);
    AllErrorsTail(left);
    assert AllErrors(left)[0] in AllErrors(left);
  }

  /** A closed breaker with a large enough window opens after at most `left` more errors. */
  lemma {:induction false} ErrorsOpen(cfg: Config, k: nat, left: nat)
    requires cfg.minCalls <= cfg.windowSize && cfg.errorRateThreshold <= 1.0
    requires left >= 1 && k + left >= cfg.minCalls && (k == 0 || k < cfg.minCalls)
    ensures Feed(cfg, AllErrors(k), AllErrors(left)).None?
    decreases left
  {
    var h := AllErrors(k + 1);
    OneMoreError(k, left);
    if k + 1 >= cfg.minCalls {
      ErrorsTrip(cfg, k + 1, SlowsIn(h));
    } else {
      ErrorsOpen(cfg, k + 1, left - 1);
    }
  }

  lemma {:induction false} AllErrorsTail(k: nat)
    requires k >= 1
    ensures AllErrors(k)[1..] == AllErrors(k - 1)
  {
    if k > 1 {
      AllErrorsTail(k - 1);
      assert AllErrors(k)[1..] == AllErrors(k - 1)[1..] + [Outcome(true, false)];
    }
  }

  /** Some sequence of outcomes opens a fresh breaker exactly when its window is no smaller
      than `min_calls`: a smaller one is reset before enough calls were seen. */
  lemma OpensIff(cfg: Config)
    requires cfg.windowSize >= 1 && cfg.errorRateThreshold <= 1.0
    ensures (exists outcomes :: Feed(cfg, [], outcomes).None?) <==> cfg.minCalls <= cfg.windowSize
  {
    if cfg.minCalls <= cfg.windowSize {
      ErrorsOpen(cfg, 0, cfg.minCalls + 1);
      assert AllErrors(0) == [];
    } else {
      forall outcomes ensures Feed(cfg, [], outcomes).Some? {
        SmallWindowNeverOpens(cfg, [], outcomes);
      }
    }
  }
}
