/** The Kafka drop policy: the publisher's sampling and drop accounting, and the
    monitor that flips the policy from the rates it causes itself
    (kafka_incident.rs, bidder-server/src/kafka.rs). */
module KafkaIncident {
  import opened Common

  datatype DropPolicy = BaseNewest | BaseOldest | BaseRandomSample | IncidentMode

  datatype Policy = Newest | Oldest | RandomSample

  /** Where a configured policy starts; incident mode starts like `Newest`. */
  function PolicyOf(p: DropPolicy): Policy {
    match p
    case BaseNewest => Newest
    case BaseOldest => Oldest
    case BaseRandomSample => RandomSample
    case IncidentMode => Newest
  }

  datatype Config = Config(base: DropPolicy, dwell: nat, threshold: real)

  const RANDOM_SAMPLE_DENOMINATOR: nat := 10
  const U32_MAX: nat := 0xFFFF_FFFF

  /** The monitor's loop variables; `samples`, `ticks` and `flips` are its history. */
  datatype Monitor = Monitor(
    lastPublished: nat, lastDropped: nat, overCount: nat, underCount: nat, inIncident: bool,
    samples: seq<bool>, ticks: nat, flips: nat)

  /** What became of the calls to `publish`. */
  datatype Fates = Fates(calls: nat, sampledOut: nat, refused: nat, delivered: nat, failed: nat, queued: nat)

  datatype System = System(
    cfg: Config, effective: Policy, published: nat, dropped: nat, sampleCounter: nat,
    monitor: Monitor, fates: Fates)

  datatype Action =
    | Publish(enqueued: bool)    // whether librdkafka takes the message if it gets that far
    | Deliver(acked: bool)       // delivery callback for one queued message
    | Tick

  function Start(cfg: Config): System {
    System(cfg, PolicyOf(cfg.base), 0, 0, 0, Monitor(0, 0, 0, 0, false, [], 0, 0), Fates(0, 0, 0, 0, 0, 0))
  }

  function Rate(published: nat, dropped: nat): real {
    if published + dropped == 0 then 0.0 else dropped as real / (published + dropped) as real
  }

  function SaturatingAdd(n: nat): nat {
    if n < U32_MAX then n + 1 else n
  }

  function Published(s: System, enqueued: bool): System {
    var f := s.fates.(calls := s.fates.calls + 1);
    if s.effective == RandomSample && s.sampleCounter % RANDOM_SAMPLE_DENOMINATOR != 0 then
      s.(sampleCounter := s.sampleCounter + 1, dropped := s.dropped + 1, fates := f.(sampledOut := f.sampledOut + 1))
    else
      var s' := if s.effective == RandomSample then s.(sampleCounter := s.sampleCounter + 1) else s;
      if enqueued then s'.(fates := f.(queued := f.queued + 1))
      else s'.(dropped := s.dropped + 1, fates := f.(refused := f.refused + 1))
  }

  /** The counts and the flip decision for one sample. */
  function Judged(m: Monitor, dwell: nat, over: bool): Monitor {
    var m' := m.(
      overCount := if over then SaturatingAdd(m.overCount) else 0,
      underCount := if over then 0 else SaturatingAdd(m.underCount),
      samples := m.samples + [over], ticks := m.ticks + 1);
    if !m.inIncident && m'.overCount >= dwell then m'.(inIncident := true, flips := m.flips + 1)
    else if m.inIncident && m'.underCount >= dwell then m'.(inIncident := false, flips := m.flips + 1)
    else m'
  }

  /** One pass of the monitor loop. */
  function Ticked(s: System): System {
    var m := s.monitor;
    var published := if s.published >= m.lastPublished then s.published - m.lastPublished else 0;
    var dropped := if s.dropped >= m.lastDropped then s.dropped - m.lastDropped else 0;
    var m1 := m.(lastPublished := s.published, lastDropped := s.dropped);
    if s.cfg.base != IncidentMode then s.(monitor := m1.(ticks := m.ticks + 1))
    else
      var m2 := Judged(m1, s.cfg.dwell, Rate(published, dropped) > s.cfg.threshold);
      s.(monitor := m2,
         effective := if m2.inIncident == m.inIncident then s.effective
                      else if m2.inIncident then RandomSample else PolicyOf(s.cfg.base))
  }

  function Fire(s: System, a: Action): Option<System> {
    match a
    case Publish(enqueued) => Some(Published(s, enqueued))
    case Deliver(acked) =>
      var f := s.fates;
      if f.queued == 0 then None
      else if acked then
        Some(s.(published := s.published + 1, fates := f.(queued := f.queued - 1, delivered := f.delivered + 1)))
      else Some(s.(dropped := s.dropped + 1, fates := f.(queued := f.queued - 1, failed := f.failed + 1)))
    case Tick => Some(Ticked(s))
  }

  function Run(s: System, trace: seq<Action>): Option<System>
    decreases |trace|
  {
    if trace == [] then Some(s)
    else
      match Fire(s, trace[0])
      case None => None
      case Some(s') => Run(s', trace[1..])
  }

  ghost predicate Accounted(s: System) {
    var f := s.fates;
    && f.calls == f.sampledOut + f.refused + f.delivered + f.failed + f.queued
    && s.published == f.delivered
    && s.dropped == f.sampledOut + f.refused + f.failed
  }

  /** The last `n` samples all say `over`. */
  ghost predicate LastAll(samples: seq<bool>, n: nat, over: bool) {
    n <= |samples| && forall i :: |samples| - n <= i < |samples| ==> samples[i] == over
  }

  /** How many samples in a row, up to the last, say `over`. */
  ghost function RunLength(samples: seq<bool>, over: bool): (n: nat)
    ensures n <= |samples|
  {
    if samples == [] || samples[|samples| - 1] != over then 0 else 1 + RunLength(samples[..|samples| - 1], over)
  }

  lemma {:induction false} RunLengthIs(samples: seq<bool>, n: nat, over: bool)
    ensures LastAll(samples, n, over) <==> n <= RunLength(samples, over)
  {
    if samples != [] && n > 0 {
      var init := samples[..|samples| - 1];
      RunLengthIs(init, n - 1, over);
      assert forall i :: 0 <= i < |init| ==> init[i] == samples[i];
      if LastAll(init, n - 1, over) && samples[|samples| - 1] == over {
        assert LastAll(samples, n, over);
      }
    }
  }

  lemma RunLengthAppend(samples: seq<bool>, o: bool, over: bool)
    ensures RunLength(samples + [o], over) == if o == over then 1 + RunLength(samples, over) else 0
  {
    assert (samples + [o])[..|samples|] == samples;
  }

  /** The two counts are the lengths of the current runs, as far as they can count. */
  ghost predicate CountsOk(m: Monitor, dwell: nat) {
    && |m.samples| <= m.ticks
    && m.overCount == Min(RunLength(m.samples, true), U32_MAX)
    && m.underCount == Min(RunLength(m.samples, false), U32_MAX)
    && m.flips * dwell + (if m.inIncident then m.underCount else m.overCount) <= m.ticks
  }

  ghost predicate Inv(s: System) {
    var m := s.monitor;
    && Accounted(s)
    && m.lastPublished <= s.published && m.lastDropped <= s.dropped
    && CountsOk(m, s.cfg.dwell)
    && (s.cfg.base == IncidentMode ==> (s.effective == RandomSample <==> m.inIncident))
    && (s.cfg.base != IncidentMode ==> s.effective == PolicyOf(s.cfg.base) && !m.inIncident && m.flips == 0)
  }

  lemma JudgedKeepsCounts(m: Monitor, dwell: nat, over: bool)
    requires CountsOk(m, dwell)
    ensures CountsOk(Judged(m, dwell, over), dwell)
  {
    RunLengthAppend(m.samples, over, true);
    RunLengthAppend(m.samples, over, false);
    OneMoreFlip(m.flips, dwell);
  }

  lemma OneMoreFlip(flips: nat, dwell: nat)
    ensures (flips + 1) * dwell == flips * dwell + dwell
    ensures dwell == 0 ==> flips * dwell == 0
  {
  }

  lemma TickKeepsInv(s: System)
    requires Inv(s)
    ensures Inv(Ticked(s))
  {
    var m := s.monitor.(lastPublished := s.published, lastDropped := s.dropped);
    JudgedKeepsCounts(m, s.cfg.dwell, true);
    JudgedKeepsCounts(m, s.cfg.dwell, false);
  }

  lemma {:induction false} RunKeepsInv(s: System, trace: seq<Action>)
    requires Inv(s) && Run(s, trace).Some?
    ensures Inv(Run(s, trace).value)
    decreases |trace|
  {
    if trace != [] {
      if trace[0].Tick? {
        TickKeepsInv(s);
      }
      RunKeepsInv(Fire(s, trace[0]).value, trace[1..]);
    }
  }

  /** Every call to `publish` is counted exactly once, and the counters the monitor
      reads are the acknowledged calls and the lost ones. */
  lemma PublishesAccounted(cfg: Config, trace: seq<Action>)
    requires Run(Start(cfg), trace).Some?
    ensures var s := Run(Start(cfg), trace).value; var f := s.fates;
      && f.calls == f.sampledOut + f.refused + f.delivered + f.failed + f.queued
      && s.published == f.delivered && s.dropped == f.sampledOut + f.refused + f.failed
  {
    RunKeepsInv(Start(cfg), trace);
  }

  /** The policy is sampling exactly during an incident, and flips are rare. */
  lemma FlipsAreRare(cfg: Config, trace: seq<Action>)
    requires cfg.base == IncidentMode && Run(Start(cfg), trace).Some?
    ensures var s := Run(Start(cfg), trace).value;
      && (s.effective == RandomSample <==> s.monitor.inIncident)
      && s.monitor.flips * cfg.dwell <= s.monitor.ticks
  {
    RunKeepsInv(Start(cfg), trace);
    ConfigStays(Start(cfg), trace);
  }

  lemma {:induction false} ConfigStays(s: System, trace: seq<Action>)
    requires Run(s, trace).Some?
    ensures Run(s, trace).value.cfg == s.cfg
    decreases |trace|
  {
    if trace != [] {
      ConfigStays(Fire(s, trace[0]).value, trace[1..]);
    }
  }

  /** One sample flips the policy exactly when it ends `dwell` samples in a row of the other
      kind. */
  lemma JudgedFlipsIff(m: Monitor, dwell: nat, over: bool)
    requires CountsOk(m, dwell) && dwell <= U32_MAX
    ensures var m' := Judged(m, dwell, over);
      m'.inIncident != m.inIncident <==> LastAll(m'.samples, dwell, !m.inIncident)
  {
    var samples := m.samples + [over];
    RunLengthAppend(m.samples, over, !m.inIncident);
    RunLengthIs(samples, dwell, !m.inIncident);
  }

  /** What one pass of the monitor does to a state of any run. */
  lemma TickedFacts(s: System)
    requires Inv(s) && s.cfg.dwell <= U32_MAX
    ensures var s' := Ticked(s);
      && Inv(s') && s'.cfg == s.cfg && s'.fates == s.fates && s'.monitor.ticks == s.monitor.ticks + 1
      && s'.monitor.flips * s.cfg.dwell <= s'.monitor.ticks
      && (s.cfg.base != IncidentMode ==> s'.effective == s.effective && s'.monitor.samples == s.monitor.samples)
      && (s.cfg.base == IncidentMode ==>
            && s'.monitor.samples == s.monitor.samples
               + [Rate(s.published - s.monitor.lastPublished, s.dropped - s.monitor.lastDropped) > s.cfg.threshold]
            && (s'.monitor.inIncident != s.monitor.inIncident
                <==> LastAll(s'.monitor.samples, s.cfg.dwell, !s.monitor.inIncident))
            && (s'.effective == RandomSample <==> s'.monitor.inIncident))
  {
    TickKeepsInv(s);
    var m := s.monitor.(lastPublished := s.published, lastDropped := s.dropped);
    JudgedFlipsIff(m, s.cfg.dwell, true);
    JudgedFlipsIff(m, s.cfg.dwell, false);
  }

  /** In every run an incident begins at a tick exactly when the last `dwell` samples are all
      over, and ends exactly when they are all under. */
  lemma FlipIff(cfg: Config, trace: seq<Action>)
    requires cfg.base == IncidentMode && cfg.dwell <= U32_MAX && Run(Start(cfg), trace).Some?
    ensures var s := Run(Start(cfg), trace).value; var s' := Ticked(s);
      s'.monitor.inIncident != s.monitor.inIncident <==> LastAll(s'.monitor.samples, cfg.dwell, !s.monitor.inIncident)
  {
    RunKeepsInv(Start(cfg), trace);
    ConfigStays(Start(cfg), trace);
    TickedFacts(Run(Start(cfg), trace).value);
  }

  /** Without incident mode the policy never moves. */
  lemma StaticPolicyStays(cfg: Config, trace: seq<Action>)
    requires cfg.base != IncidentMode && Run(Start(cfg), trace).Some?
    ensures Run(Start(cfg), trace).value.effective ==
      match cfg.base case BaseNewest => Newest case BaseOldest => Oldest case _ => RandomSample
  {
    RunKeepsInv(Start(cfg), trace);
    ConfigStays(Start(cfg), trace);
  }

  // What sampling does to the rate the monitor sees.

  /** Number of multiples of ten among `n` successive counter values from `from`. */
  ghost function Kept(from: nat, n: nat): nat
    decreases n
  {
    if n == 0 then 0 else (if from % RANDOM_SAMPLE_DENOMINATOR == 0 then 1 else 0) + Kept(from + 1, n - 1)
  }

  lemma TenthStep(from: nat)
    ensures (from + 10) / 10 == (from + 9) / 10 + (if from % 10 == 0 then 1 else 0)
  {
    var q, r := from / 10, from % 10;
    assert from == 10 * q + r;
    assert (from + 10) / 10 == q + 1;
    assert (from + 9) / 10 == if r == 0 then q else q + 1;
  }

  lemma {:induction false} KeptIs(from: nat, n: nat)
    ensures Kept(from, n) == (from + n + 9) / 10 - (from + 9) / 10
    decreases n
  {
    if n != 0 {
      KeptIs(from + 1, n - 1);
      TenthStep(from);
    }
  }

  lemma KeptAtMost(from: nat, n: nat)
    ensures Kept(from, n) <= (n + 9) / 10 <= n
  {
    KeptIs(from, n);
  }

  ghost function Calls(trace: seq<Action>): nat {
    if trace == [] then 0 else (if trace[0].Publish? then 1 else 0) + Calls(trace[1..])
  }

  ghost function Acks(trace: seq<Action>): nat {
    if trace == [] then 0 else (if trace[0] == Deliver(true) then 1 else 0) + Acks(trace[1..])
  }

  /** The calls and deliveries of a window that are lost while sampling is on, when the
      sampler starts at `counter`. */
  ghost function DroppedIn(counter: nat, window: seq<Action>): nat
    decreases |window|
  {
    if window == [] then 0
    else
      match window[0]
      case Publish(enqueued) =>
        (if counter % RANDOM_SAMPLE_DENOMINATOR != 0 || !enqueued then 1 else 0) + DroppedIn(counter + 1, window[1..])
      case Deliver(acked) => (if acked then 0 else 1) + DroppedIn(counter, window[1..])
      case Tick => DroppedIn(counter, window[1..])
  }

  /** The broker takes every message and acknowledges every delivery. */
  ghost predicate Healthy(window: seq<Action>) { Publish(false) !in window && Deliver(false) !in window }

  /** The sampler alone loses all but every tenth call; that is all when the broker is healthy. */
  lemma {:induction false} DroppedInIs(counter: nat, window: seq<Action>)
    ensures DroppedIn(counter, window) >= Calls(window) - Kept(counter, Calls(window))
    ensures Healthy(window) ==> DroppedIn(counter, window) == Calls(window) - Kept(counter, Calls(window))
    decreases |window|
  {
    if window != [] {
      assert window[0] in window;
      assert Healthy(window) ==> Healthy(window[1..]);
      DroppedInIs(if window[0].Publish? then counter + 1 else counter, window[1..]);
    }
  }

  /** Between two ticks of an incident. */
  lemma {:induction false} SampledInWindow(s: System, window: seq<Action>)
    requires s.effective == RandomSample && Tick !in window && Run(s, window).Some?
    ensures var s' := Run(s, window).value;
      && s'.effective == RandomSample && s'.monitor == s.monitor && s'.cfg == s.cfg
      && s'.published == s.published + Acks(window)
      && s'.dropped == s.dropped + DroppedIn(s.sampleCounter, window)
    decreases |window|
  {
    if window != [] {
      SampledInWindow(Fire(s, window[0]).value, window[1..]);
    }
  }

  lemma OnePercentIff(published: nat, dropped: nat)
    ensures Rate(published, dropped) > 0.01 <==> published < 99 * dropped
  {
    if published + dropped > 0 {
      QuotientAbove(dropped as real, (published + dropped) as real, 0.01);
    }
  }

  /** In an incident, right after a tick. */
  ghost predicate AfterTick(s: System) {
    && Inv(s) && s.cfg.base == IncidentMode && s.monitor.inIncident
    && s.monitor.lastPublished == s.published && s.monitor.lastDropped == s.dropped
  }

  /** Exactly when a window of an incident counts as over the threshold: when what the sampler
      and the broker lose of it is too large a share of that and the acknowledgements. */
  lemma WindowOverIff(s: System, window: seq<Action>)
    requires s.cfg.base == IncidentMode && s.effective == RandomSample && Tick !in window && Run(s, window).Some?
    requires s.monitor.lastPublished == s.published && s.monitor.lastDropped == s.dropped
    ensures Ticked(Run(s, window).value).monitor.samples
      == s.monitor.samples + [Rate(Acks(window), DroppedIn(s.sampleCounter, window)) > s.cfg.threshold]
  {
    SampledInWindow(s, window);
  }

  /** With a healthy broker and a 1% threshold, in whole numbers. */
  lemma HealthyWindowOverIff(s: System, window: seq<Action>)
    requires AfterTick(s) && s.cfg.threshold == 0.01 && Healthy(window) && Tick !in window && Run(s, window).Some?
    ensures Ticked(Run(s, window).value).monitor.samples
      == s.monitor.samples + [Acks(window) < 99 * (Calls(window) - Kept(s.sampleCounter, Calls(window)))]
  {
    WindowOverIff(s, window);
    DroppedInIs(s.sampleCounter, window);
    OnePercentIff(Acks(window), DroppedIn(s.sampleCounter, window));
  }

  /** The calls and the acknowledgements of one window keep it over a 1% threshold. */
  ghost predicate Busy(window: seq<Action>) {
    && Tick !in window && Calls(window) >= 2
    && Acks(window) < 99 * (Calls(window) - (Calls(window) + 9) / 10)
  }

  /** In an incident every busy window counts as over the threshold, wherever the sampler is. */
  lemma BusyWindowIsOver(s: System, window: seq<Action>)
    requires AfterTick(s) && s.cfg.threshold == 0.01 && Busy(window) && Run(s, window).Some?
    ensures Ticked(Run(s, window).value).monitor.samples == s.monitor.samples + [true]
  {
    WindowOverIff(s, window);
    DroppedInIs(s.sampleCounter, window);
    KeptAtMost(s.sampleCounter, Calls(window));
    OnePercentIff(Acks(window), DroppedIn(s.sampleCounter, window));
  }

  /** An over sample in an incident leaves it on. */
  lemma OverStays(s: System, window: seq<Action>)
    requires AfterTick(s) && s.cfg.dwell >= 1 && Tick !in window && Run(s, window).Some?
    requires Ticked(Run(s, window).value).monitor.samples == s.monitor.samples + [true]
    ensures var s' := Ticked(Run(s, window).value);
      AfterTick(s') && s'.cfg == s.cfg && s'.monitor.flips == s.monitor.flips
  {
    SampledInWindow(s, window);
    RunKeepsInv(s, window);
    var s1 := Run(s, window).value;
    TickKeepsInv(s1);
    assert (s.monitor.samples + [true])[|s.monitor.samples|];
  }

  /** Each window followed by its tick. */
  function RunWindows(s: System, windows: seq<seq<Action>>): Option<System>
    decreases |windows|
  {
    if windows == [] then Some(s)
    else
      match Run(s, windows[0])
      case None => None
      case Some(s') => RunWindows(Ticked(s'), windows[1..])
  }

  /** An incident feeds itself: as long as every window is busy it never ends, however
      healthy the broker is, because the sampled-out calls count as drops. */
  lemma {:induction false} IncidentFeedsItself(s: System, windows: seq<seq<Action>>)
    requires AfterTick(s) && s.cfg.threshold == 0.01 && s.cfg.dwell >= 1
    requires forall w :: w in windows ==> Busy(w)
    ensures RunWindows(s, windows).Some? ==>
      RunWindows(s, windows).value.monitor.inIncident && RunWindows(s, windows).value.monitor.flips == s.monitor.flips
    decreases |windows|
  {
    if windows != [] && Run(s, windows[0]).Some? {
      assert windows[0] in windows;
      BusyWindowIsOver(s, windows[0]);
      OverStays(s, windows[0]);
      IncidentFeedsItself(Ticked(Run(s, windows[0]).value), windows[1..]);
    }
  }

  // What a healthy broker can do about it.

  /** In a healthy window every kept call is queued and every acknowledgement takes one out. */
  lemma {:induction false} QueuedInWindow(s: System, window: seq<Action>)
    requires s.effective == RandomSample && Healthy(window) && Tick !in window && Run(s, window).Some?
    ensures Run(s, window).value.fates.queued + Acks(window) == s.fates.queued + Kept(s.sampleCounter, Calls(window))
    ensures Run(s, window).value.sampleCounter == s.sampleCounter + Calls(window)
    decreases |window|
  {
    if window != [] {
      assert window[0] in window;
      assert Healthy(window[1..]) && Tick !in window[1..];
      QueuedInWindow(Fire(s, window[0]).value, window[1..]);
    }
  }

  /** Healthy windows of two or more calls, none of which starts with more than 97 messages
      still to be acknowledged. */
  ghost predicate ShortQueues(s: System, windows: seq<seq<Action>>)
    decreases |windows|
  {
    windows == [] ||
    (&& Healthy(windows[0]) && Tick !in windows[0] && Calls(windows[0]) >= 2 && s.fates.queued <= 97
     && (Run(s, windows[0]).Some? ==> ShortQueues(Ticked(Run(s, windows[0]).value), windows[1..])))
  }

  /** No sequence of such windows ends an incident. */
  lemma {:induction false} HealthyWindowsKeepIt(s: System, windows: seq<seq<Action>>)
    requires AfterTick(s) && s.cfg.threshold == 0.01 && s.cfg.dwell >= 1 && ShortQueues(s, windows)
    ensures RunWindows(s, windows).Some? ==>
      RunWindows(s, windows).value.monitor.inIncident && RunWindows(s, windows).value.monitor.flips == s.monitor.flips
    decreases |windows|
  {
    if windows != [] && Run(s, windows[0]).Some? {
      var w := windows[0];
      QueuedInWindow(s, w);
      KeptAtMost(s.sampleCounter, Calls(w));
      BusyWindowIsOver(s, w);
      OverStays(s, w);
      HealthyWindowsKeepIt(Ticked(Run(s, w).value), windows[1..]);
    }
  }

  function Delivers(n: nat): seq<Action> { if n == 0 then [] else [Deliver(true)] + Delivers(n - 1) }

  lemma {:induction false} DeliversAre(n: nat)
    ensures Calls(Delivers(n)) == 0 && Acks(Delivers(n)) == n && forall a :: a in Delivers(n) ==> a == Deliver(true)
  {
    if n > 0 {
      DeliversAre(n - 1);
      assert Delivers(n)[1..] == Delivers(n - 1);
    }
  }

  lemma {:induction false} DeliversRun(s: System, n: nat)
    requires s.fates.queued >= n
    ensures Run(s, Delivers(n)).Some?
    decreases n
  {
    if n > 0 {
      assert Delivers(n)[1..] == Delivers(n - 1);
      DeliversRun(Fire(s, Deliver(true)).value, n - 1);
    }
  }

  lemma KeptAtLeast(from: nat, n: nat)
    ensures Kept(from, n) >= n / 10
  {
    KeptIs(from, n);
  }

  /** Calls that are all taken, then acknowledgements. */
  function Batch(calls: nat, acks: nat): seq<Action> { Pubs(calls, Delivers(acks)) }

  lemma BatchIs(calls: nat, acks: nat)
    ensures Calls(Batch(calls, acks)) == calls && Acks(Batch(calls, acks)) == acks
    ensures Healthy(Batch(calls, acks)) && Tick !in Batch(calls, acks)
  {
    PubsAre(calls, Delivers(acks));
    DeliversAre(acks);
  }

  lemma BatchRuns(s: System, calls: nat, acks: nat)
    requires s.effective == RandomSample && s.fates.queued + Kept(s.sampleCounter, calls) >= acks
    ensures Run(s, Batch(calls, acks)).Some?
  {
    var s' := PubsRun(s, calls, Delivers(acks));
    DeliversRun(s', acks);
  }

  /** A window of calls that are not acknowledged in it builds up a backlog. */
  lemma BacklogBuilds(s: System, calls: nat)
    requires AfterTick(s) && s.cfg.threshold == 0.01 && s.cfg.dwell >= 1 && calls >= 2
    ensures Run(s, Batch(calls, 0)).Some?
    ensures var s' := Ticked(Run(s, Batch(calls, 0)).value);
      AfterTick(s') && s'.cfg == s.cfg && s'.fates.queued >= calls / 10
  {
    BatchIs(calls, 0);
    BatchRuns(s, calls, 0);
    QueuedInWindow(s, Batch(calls, 0));
    KeptAtLeast(s.sampleCounter, calls);
    KeptAtMost(s.sampleCounter, calls);
    BusyWindowIsOver(s, Batch(calls, 0));
    OverStays(s, Batch(calls, 0));
  }

  /** Enough acknowledgements of a backlog in one window are under the threshold. */
  lemma BacklogDrains(s: System, calls: nat, acks: nat)
    requires AfterTick(s) && s.cfg.threshold == 0.01 && s.cfg.dwell == 1
    requires s.fates.queued >= acks && acks >= 99 * calls
    ensures Run(s, Batch(calls, acks)).Some? && !Ticked(Run(s, Batch(calls, acks)).value).monitor.inIncident
  {
    BatchIs(calls, acks);
    BatchRuns(s, calls, acks);
    var w := Batch(calls, acks);
    HealthyWindowOverIff(s, w);
    RunKeepsInv(s, w);
    SampledInWindow(s, w);
    TickedFacts(Run(s, w).value);
    assert (s.monitor.samples + [false])[|s.monitor.samples|] == false;
  }

  /** The bound on the queue is needed: from every incident with dwell 1, a window that leaves a
      large backlog and one that acknowledges it end the incident, the broker being healthy. */
  lemma BacklogEndsIt(s: System, first: nat, second: nat, acks: nat)
    requires AfterTick(s) && s.cfg.threshold == 0.01 && s.cfg.dwell == 1
    requires acks >= 99 * second && first >= 10 * acks + 10
    ensures var end := RunWindows(s, [Batch(first, 0), Batch(second, acks)]);
      end.Some? && !end.value.monitor.inIncident
    ensures Healthy(Batch(first, 0)) && Healthy(Batch(second, acks))
  {
    BatchIs(first, 0);
    BatchIs(second, acks);
    BacklogBuilds(s, first);
    var s1 := Ticked(Run(s, Batch(first, 0)).value);
    BacklogDrains(s1, second, acks);
    var windows := [Batch(first, 0), Batch(second, acks)];
    assert windows[1..] == [Batch(second, acks)] && windows[1..][1..] == [];
    assert RunWindows(s1, windows[1..]) == Some(Ticked(Run(s1, Batch(second, acks)).value));
  }

  function Repeat(w: seq<Action>, n: nat): seq<seq<Action>> { if n == 0 then [] else [w] + Repeat(w, n - 1) }

  function Pubs(n: nat, rest: seq<Action>): seq<Action> { if n == 0 then rest else [Publish(true)] + Pubs(n - 1, rest) }

  /** Calls that the broker takes, and an acknowledgement of one that gets there. */
  function HealthyCalls(calls: nat): seq<Action> { Pubs(calls, [Deliver(true)]) }

  lemma {:induction false} PubsAre(n: nat, rest: seq<Action>)
    ensures Calls(Pubs(n, rest)) == n + Calls(rest) && Acks(Pubs(n, rest)) == Acks(rest)
    ensures forall a :: a in Pubs(n, rest) ==> a == Publish(true) || a in rest
  {
    if n > 0 {
      PubsAre(n - 1, rest);
      assert Pubs(n, rest)[1..] == Pubs(n - 1, rest);
    }
  }

  lemma HealthyCallsBusy(calls: nat)
    requires calls >= 2
    ensures Busy(HealthyCalls(calls)) && Healthy(HealthyCalls(calls))
  {
    PubsAre(calls, [Deliver(true)]);
    assert [Deliver(true)][1..] == [];
    assert Calls([Deliver(true)]) == 0 && Acks([Deliver(true)]) == 1;
  }

  lemma {:induction false} PubsRun(s: System, n: nat, rest: seq<Action>) returns (s': System)
    requires s.effective == RandomSample
    ensures Run(s, Pubs(n, rest)) == Run(s', rest)
    ensures s'.fates.queued == s.fates.queued + Kept(s.sampleCounter, n)
    decreases n
  {
    s' := s;
    if n > 0 {
      assert Pubs(n, rest)[1..] == Pubs(n - 1, rest);
      s' := PubsRun(Published(s, true), n - 1, rest);
    }
  }

  lemma HealthyCallsRun(s: System, calls: nat)
    requires s.effective == RandomSample && calls >= 10
    ensures Run(s, HealthyCalls(calls)).Some?
  {
    var s' := PubsRun(s, calls, [Deliver(true)]);
    KeptIs(s.sampleCounter, calls);
    assert [Deliver(true)][1..] == [];
  }

  lemma {:induction false} HealthyWindowsRun(s: System, calls: nat, n: nat)
    requires AfterTick(s) && s.cfg.threshold == 0.01 && s.cfg.dwell >= 1 && calls >= 10
    ensures RunWindows(s, Repeat(HealthyCalls(calls), n)).Some?
    decreases n
  {
    if n > 0 {
      var w := HealthyCalls(calls);
      HealthyCallsRun(s, calls);
      HealthyCallsBusy(calls);
      BusyWindowIsOver(s, w);
      OverStays(s, w);
      assert Repeat(w, n)[1..] == Repeat(w, n - 1);
      HealthyWindowsRun(Ticked(Run(s, w).value), calls, n - 1);
    }
  }

  /** Before an incident, right after a tick, with `left` samples to go. */
  ghost predicate Nearing(s: System, left: nat) {
    && Inv(s) && s.cfg.base == IncidentMode && s.cfg.threshold == 0.01 && 1 <= s.cfg.dwell <= U32_MAX
    && !s.monitor.inIncident && s.monitor.overCount + left == s.cfg.dwell
    && s.monitor.lastPublished == s.published && s.monitor.lastDropped == s.dropped
  }

  /** One refused call in the window is a drop rate of one. */
  lemma RefusedCallIsOver(s: System, left: nat)
    requires Nearing(s, left) && left >= 1
    ensures Run(s, [Publish(false)]).Some?
    ensures var s' := Ticked(Run(s, [Publish(false)]).value);
      if left == 1 then AfterTick(s') && s'.cfg == s.cfg else Nearing(s', left - 1) && s'.cfg == s.cfg
  {
    var w := [Publish(false)];
    assert w[1..] == [];
    var s1 := Published(s, false);
    assert Run(s, w) == Some(s1);
    RunKeepsInv(s, w);
    TickKeepsInv(s1);
    OnePercentIff(0, 1);
  }

  lemma {:induction false} OutageRuns(s: System, left: nat)
    requires Nearing(s, left) && left >= 1
    ensures var e := RunWindows(s, Repeat([Publish(false)], left));
      e.Some? && AfterTick(e.value) && e.value.cfg == s.cfg
    decreases left
  {
    RefusedCallIsOver(s, left);
    var w := [Publish(false)];
    assert Repeat(w, left)[1..] == Repeat(w, left - 1);
    if left > 1 {
      OutageRuns(Ticked(Run(s, w).value), left - 1);
    }
  }

  /** Runs from the start: for every dwell, that many windows with nothing but a refused call
      start an incident, and any number of windows of ten or more accepted calls and one
      acknowledgement each leave it on. */
  lemma HealthyRunOutlived(dwell: nat, calls: nat, n: nat)
    requires 1 <= dwell <= U32_MAX && calls >= 10
    ensures var outage := RunWindows(Start(Config(IncidentMode, dwell, 0.01)), Repeat([Publish(false)], dwell));
      && outage.Some? && Healthy(HealthyCalls(calls))
      && var end := RunWindows(outage.value, Repeat(HealthyCalls(calls), n));
         end.Some? && end.value.monitor.inIncident
  {
    var s := Start(Config(IncidentMode, dwell, 0.01));
    OutageRuns(s, dwell);
    var s1 := RunWindows(s, Repeat([Publish(false)], dwell)).value;
    HealthyCallsBusy(calls);
    HealthyWindowsRun(s1, calls, n);
    RepeatMembers(HealthyCalls(calls), n);
    IncidentFeedsItself(s1, Repeat(HealthyCalls(calls), n));
  }

  lemma {:induction false} RepeatMembers(w: seq<Action>, n: nat)
    ensures forall x :: x in Repeat(w, n) ==> x == w
  {
    if n > 0 {
      RepeatMembers(w, n - 1);
    }
  }

  /** The publisher, its incident counters and the monitor's variables as one object. What it
      keeps is the invariant of every run: each call has one fate, the counters the monitor
      reads are exact, and flips are rare. */
  class KafkaEventPublisher {
    const cfg: Config
    var effective: Policy
    var published: nat
    var dropped: nat
    var sampleCounter: nat
    var lastPublished: nat
    var lastDropped: nat
    var overCount: nat
    var underCount: nat
    var inIncident: bool
    ghost var samples: seq<bool>
    ghost var ticks: nat
    ghost var flips: nat
    ghost var fates: Fates

    ghost function State(): System
      reads this
    {
      System(cfg, effective, published, dropped, sampleCounter, MonitorState(), fates)
    }

    ghost function MonitorState(): Monitor
      reads this
    {
      Monitor(lastPublished, lastDropped, overCount, underCount, inIncident, samples, ticks, flips)
    }

    ghost predicate Valid()
      reads this
    {
      Inv(State())
    }

    constructor (config: Config)
      ensures Valid() && cfg == config && fates == Fates(0, 0, 0, 0, 0, 0) && !inIncident && samples == []
    {
      cfg, effective := config, PolicyOf(config.base);
      published, dropped, sampleCounter := 0, 0, 0;
      lastPublished, lastDropped, overCount, underCount, inIncident := 0, 0, 0, 0, false;
      samples, ticks, flips, fates := [], 0, 0, Fates(0, 0, 0, 0, 0, 0);
    }

    /** Every call gets one fate at once: while sampling, all but every tenth are sampled out;
        the rest are queued if the producer takes them and refused if not. What is lost here is
        counted as dropped; what is queued is not counted yet. */
    method Publish(enqueued: bool)
      requires Valid()
      modifies `sampleCounter, `dropped, `fates
      ensures Valid()
      ensures var keep := old(effective) != RandomSample || old(sampleCounter) % RANDOM_SAMPLE_DENOMINATOR == 0;
        var f := old(fates).(calls := old(fates.calls) + 1);
        fates == if !keep then f.(sampledOut := f.sampledOut + 1)
                 else if enqueued then f.(queued := f.queued + 1) else f.(refused := f.refused + 1)
      ensures fates.calls == fates.sampledOut + fates.refused + fates.delivered + fates.failed + fates.queued
      ensures dropped == fates.sampledOut + fates.refused + fates.failed && published == fates.delivered
      ensures Some(State()) == Fire(old(State()), Action.Publish(enqueued))
    {
      fates := fates.(calls := fates.calls + 1);
      if effective == RandomSample {
        var n := sampleCounter;
        sampleCounter := sampleCounter + 1;
        if n % RANDOM_SAMPLE_DENOMINATOR != 0 {
          dropped := dropped + 1;
          fates := fates.(sampledOut := fates.sampledOut + 1);
          return;
        }
      }
      if enqueued {
        fates := fates.(queued := fates.queued + 1);
      } else {
        dropped := dropped + 1;
        fates := fates.(refused := fates.refused + 1);
      }
    }

    /** A queued call becomes delivered or failed; no call is lost or counted twice. */
    method Delivery(acked: bool)
      requires Valid() && fates.queued > 0
      modifies `published, `dropped, `fates
      ensures Valid() && fates.calls == old(fates.calls) && fates.queued == old(fates.queued) - 1
      ensures fates.delivered + fates.failed == old(fates.delivered) + old(fates.failed) + 1
      ensures acked <==> fates.delivered == old(fates.delivered) + 1
      ensures dropped == fates.sampledOut + fates.refused + fates.failed && published == fates.delivered
      ensures Some(State()) == Fire(old(State()), Deliver(acked))
    {
      fates := fates.(queued := fates.queued - 1);
      if acked {
        published := published + 1;
        fates := fates.(delivered := fates.delivered + 1);
      } else {
        dropped := dropped + 1;
        fates := fates.(failed := fates.failed + 1);
      }
    }

    /** One sample: the counts stay the lengths of the current runs, and the policy flips
        exactly when the sample ends `dwell` in a row of the other kind. */
    method Judge(over: bool)
      requires cfg.base == IncidentMode && cfg.dwell <= U32_MAX && CountsOk(MonitorState(), cfg.dwell)
      modifies `overCount, `underCount, `inIncident, `effective, `samples, `ticks, `flips
      ensures MonitorState() == Judged(old(MonitorState()), cfg.dwell, over)
      ensures CountsOk(MonitorState(), cfg.dwell) && samples == old(samples) + [over]
      ensures inIncident != old(inIncident) <==> LastAll(samples, cfg.dwell, !old(inIncident))
      ensures effective == if inIncident == old(inIncident) then old(effective)
                           else if inIncident then RandomSample else PolicyOf(cfg.base)
    {
      JudgedKeepsCounts(MonitorState(), cfg.dwell, over);
      JudgedFlipsIff(MonitorState(), cfg.dwell, over);
      samples, ticks := samples + [over], ticks + 1;
      if over {
        overCount, underCount := SaturatingAdd(overCount), 0;
      } else {
        underCount, overCount := SaturatingAdd(underCount), 0;
      }
      if !inIncident && overCount >= cfg.dwell {
        effective, inIncident, flips := RandomSample, true, flips + 1;
      } else if inIncident && underCount >= cfg.dwell {
        effective, inIncident, flips := PolicyOf(cfg.base), false, flips + 1;
      }
    }

    /** One pass of the monitor loop: the sample says whether the calls lost since the last
        pass exceed the threshold; sampling is on exactly in an incident; flips stay rare. */
    method MonitorTick()
      requires Valid() && cfg.dwell <= U32_MAX
      modifies this
      ensures Valid() && fates == old(fates) && ticks == old(ticks) + 1 && flips * cfg.dwell <= ticks
      ensures cfg.base != IncidentMode ==> effective == old(effective) && samples == old(samples)
      ensures cfg.base == IncidentMode ==>
        && samples == old(samples) + [Rate(published - old(lastPublished), dropped - old(lastDropped)) > cfg.threshold]
        && (inIncident != old(inIncident) <==> LastAll(samples, cfg.dwell, !old(inIncident)))
        && (effective == RandomSample <==> inIncident)
      ensures Some(State()) == Fire(old(State()), Tick)
    {
      TickedFacts(State());
      Advance();
    }

    method Advance()
      requires Valid() && cfg.dwell <= U32_MAX
      modifies this
      ensures State() == Ticked(old(State()))
    {
      var publishedDelta := if published >= lastPublished then published - lastPublished else 0;
      var droppedDelta := if dropped >= lastDropped then dropped - lastDropped else 0;
      lastPublished, lastDropped := published, dropped;
      if cfg.base != IncidentMode {
        ticks := ticks + 1;
        return;
      }
      Judge(Rate(publishedDelta, droppedDelta) > cfg.threshold);
    }
  }
}
