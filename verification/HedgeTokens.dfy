/** The hedge token bucket as a system of concurrent tasks, one step per atomic
    operation (hedge.rs). One feedback task writes the capacity
    (hedge_feedback.rs:170); any number of request tasks consume and restore. */
module HedgeTokens {
  import opened Common

  datatype Task =
    | Idle
    | Loaded(current: nat)  // in `try_consume`, with the level it last read
    | InFlight              // token taken, the hedge races the original call
    | Added(level: nat)     // in `restore`, with the level its `fetch_add` produced
    | Clamping(cap: nat)    // in `restore`, about to `fetch_min` the capacity it read

  datatype Writer =
    | Resting
    | Stored(cap: nat)      // in `set_load_shed_rate`, capacity stored, tokens not yet clamped

  /** `cancelled` and `trimmed` count the tokens lost to dropped calls and to clamps. */
  datatype Bucket = Bucket(
    nominal: nat, tokens: nat, effectiveCap: nat,
    tasks: seq<Task>, writer: Writer,
    cancelled: nat, trimmed: nat)

  datatype Action =
    | Load(task: nat)
    | CompareExchange(task: nat, spurious: bool)  // the weak form may fail for no reason
    | Refuse(task: nat)
    | FinishCall(task: nat)                       // first step of `restore`
    | CancelCall(task: nat)                       // an outer timeout drops the call
    | ReadCap(task: nat)
    | Clamp(task: nat)
    | StoreCap(rate: real)
    | ClampToStored

  /** Capacity for a load-shed rate: none above 5%, a fifth above 1%. */
  function EffectiveFor(nominal: nat, rate: real): nat {
    if rate > 0.05 then 0 else if rate > 0.01 then nominal / 5 else nominal
  }

  /** Above five percent nothing, above one percent a fifth rounded down, else everything; so the
      capacity only falls as the rate rises. */
  lemma EffectiveForIs(nominal: nat, rate: real, higher: real)
    ensures rate > 0.05 ==> EffectiveFor(nominal, rate) == 0
    ensures 0.01 < rate <= 0.05 ==>
      5 * EffectiveFor(nominal, rate) <= nominal <= 5 * EffectiveFor(nominal, rate) + 4
    ensures rate <= 0.01 ==> EffectiveFor(nominal, rate) == nominal
    ensures rate <= higher ==> EffectiveFor(nominal, higher) <= EffectiveFor(nominal, rate)
  {
  }

  /** `fetch_min`. */
  function Clamped(s: Bucket, cap: nat): Bucket {
    if s.tokens <= cap then s else s.(tokens := cap, trimmed := s.trimmed + s.tokens - cap)
  }

  function Fire(s: Bucket, a: Action): Option<Bucket> {
    match a
    case StoreCap(rate) =>
      var cap := EffectiveFor(s.nominal, rate);
      if s.writer.Resting? then Some(s.(effectiveCap := cap, writer := Stored(cap))) else None
    case ClampToStored =>
      if s.writer.Stored? then Some(Clamped(s, s.writer.cap).(writer := Resting)) else None
    case _ =>
      if a.task < |s.tasks| then FireTask(s, a, s.tasks[a.task]) else None
  }

  function FireTask(s: Bucket, a: Action, t: Task): Option<Bucket>
    requires !a.StoreCap? && !a.ClampToStored? && a.task < |s.tasks|
  {
    var i := a.task;
    match (a, t)
    case (Load(_), Idle) => Some(s.(tasks := s.tasks[i := Loaded(s.tokens)]))
    case (Refuse(_), Loaded(n)) => if n == 0 then Some(s.(tasks := s.tasks[i := Idle])) else None
    case (CompareExchange(_, spurious), Loaded(n)) =>
      if n == 0 then None
      else if s.tokens == n && !spurious then Some(s.(tokens := n - 1, tasks := s.tasks[i := InFlight]))
      else Some(s.(tasks := s.tasks[i := Loaded(s.tokens)]))
    case (FinishCall(_), InFlight) =>
      Some(s.(tokens := s.tokens + 1, tasks := s.tasks[i := Added(s.tokens + 1)]))
    case (CancelCall(_), InFlight) =>
      Some(s.(tasks := s.tasks[i := Idle], cancelled := s.cancelled + 1))
    case (ReadCap(_), Added(n)) =>
      Some(s.(tasks := s.tasks[i := if n > s.effectiveCap then Clamping(s.effectiveCap) else Idle]))
    case (Clamp(_), Clamping(cap)) => Some(Clamped(s, cap).(tasks := s.tasks[i := Idle]))
    case _ => None
  }

  function Run(s: Bucket, trace: seq<Action>): Option<Bucket>
    decreases |trace|
  {
    if trace == [] then Some(s)
    else
      match Fire(s, trace[0])
      case None => None
      case Some(s') => Run(s', trace[1..])
  }

  function Start(nominal: nat, taskCount: nat): Bucket {
    Bucket(nominal, nominal, nominal, seq(taskCount, _ => Idle), Resting, 0, 0)
  }

  /** Number of hedges in flight. */
  ghost function Hedges(s: Bucket): int { Total(s.tasks, Holds()) }

  ghost function Holds(): Task -> int { (t: Task) => if t.InFlight? then 1 else 0 }

  /** Number of `restore` calls between their first and last step. */
  ghost function Restores(s: Bucket): int { Total(s.tasks, Restoring()) }

  ghost function Restoring(): Task -> int { (t: Task) => if t.Added? || t.Clamping? then 1 else 0 }

  /** A restore that is bound to clamp the tokens to at most `cap`: it raised the
      level above `cap`, or it has read a capacity no larger. */
  ghost function Correcting(cap: nat): Task -> int {
    (t: Task) => if (t.Added? && t.level > cap) || (t.Clamping? && t.cap <= cap) then 1 else 0
  }

  /** Each token above the capacity has its own pending correction, unless the
      writer is about to clamp; and no token is minted. */
  ghost predicate Inv(s: Bucket) {
    && s.effectiveCap <= s.nominal
    && (s.writer.Stored? ==> s.writer.cap == s.effectiveCap)
    && (s.writer.Resting? ==> s.tokens <= s.effectiveCap + Total(s.tasks, Correcting(s.effectiveCap)))
    && s.tokens + Hedges(s) + s.cancelled + s.trimmed == s.nominal
  }

  lemma CountsNonNegative(s: Bucket)
    ensures Hedges(s) >= 0 && Restores(s) >= 0 && Total(s.tasks, Correcting(s.effectiveCap)) >= 0
  {
    TotalNonNegative(s.tasks, Holds());
    TotalNonNegative(s.tasks, Restoring());
    TotalNonNegative(s.tasks, Correcting(s.effectiveCap));
  }

  lemma StartInv(nominal: nat, taskCount: nat)
    ensures Inv(Start(nominal, taskCount))
  {
    var s := Start(nominal, taskCount);
    TotalZero(s.tasks, Holds());
    CountsNonNegative(s);
  }

  lemma TaskKeepsInv(s: Bucket, a: Action)
    requires Inv(s) && !a.StoreCap? && !a.ClampToStored? && Fire(s, a).Some?
    ensures Inv(Fire(s, a).value)
  {
    var s' := Fire(s, a).value;
    var before, after := s.tasks[a.task], s'.tasks[a.task];
    assert s'.tasks == s.tasks[a.task := after] && s'.effectiveCap == s.effectiveCap && s'.writer == s.writer;
    TotalUpdate(s.tasks, a.task, after, Holds());
    TotalUpdate(s.tasks, a.task, after, Correcting(s.effectiveCap));
    TotalNonNegative(s'.tasks, Correcting(s.effectiveCap));
  }

  lemma FireKeepsInv(s: Bucket, a: Action)
    requires Inv(s) && Fire(s, a).Some?
    ensures Inv(Fire(s, a).value)
  {
    if a.StoreCap? || a.ClampToStored? {
      CountsNonNegative(Fire(s, a).value);
    } else {
      TaskKeepsInv(s, a);
    }
  }

  /** One step never adds to the tokens held or in flight. */
  lemma FireMintsNothing(s: Bucket, a: Action)
    requires Inv(s) && Fire(s, a).Some?
    ensures Fire(s, a).value.tokens + Hedges(Fire(s, a).value) <= s.tokens + Hedges(s)
    ensures Fire(s, a).value.nominal == s.nominal
  {
    FireKeepsInv(s, a);
  }

  /** Over any run tokens plus hedges in flight only fall; raising the capacity
      mints nothing. */
  lemma {:induction false} NothingMinted(s: Bucket, trace: seq<Action>)
    requires Inv(s) && Run(s, trace).Some?
    ensures var s' := Run(s, trace).value;
      Inv(s') && s'.nominal == s.nominal && s'.tokens + Hedges(s') <= s.tokens + Hedges(s)
    decreases |trace|
  {
    if trace != [] {
      FireKeepsInv(s, trace[0]);
      FireMintsNothing(s, trace[0]);
      NothingMinted(Fire(s, trace[0]).value, trace[1..]);
    }
  }

  ghost predicate Reachable(s: Bucket, nominal: nat, taskCount: nat, trace: seq<Action>) {
    Run(Start(nominal, taskCount), trace) == Some(s)
  }

  lemma ReachableInv(s: Bucket, nominal: nat, taskCount: nat, trace: seq<Action>)
    requires Reachable(s, nominal, taskCount, trace)
    ensures Inv(s) && s.nominal == nominal
  {
    StartInv(nominal, taskCount);
    NothingMinted(Start(nominal, taskCount), trace);
  }

  lemma {:induction false} CorrectingAreRestores(tasks: seq<Task>, cap: nat)
    ensures Total(tasks, Correcting(cap)) <= Total(tasks, Restoring())
  {
    if tasks != [] {
      CorrectingAreRestores(tasks[1..], cap);
    }
  }

  /** While the writer rests, the tokens exceed the capacity by at most one for each
      `restore` under way; when none is under way they do not exceed it at all. */
  lemma OvershootWithinRestores(s: Bucket, nominal: nat, taskCount: nat, trace: seq<Action>)
    requires Reachable(s, nominal, taskCount, trace) && s.writer.Resting?
    ensures s.tokens <= s.effectiveCap + Restores(s)
    ensures (forall t :: t in s.tasks ==> !t.Added? && !t.Clamping?) ==> s.tokens <= s.effectiveCap
  {
    ReachableInv(s, nominal, taskCount, trace);
    CorrectingAreRestores(s.tasks, s.effectiveCap);
    if forall t :: t in s.tasks ==> !t.Added? && !t.Clamping? {
      TotalZero(s.tasks, Restoring());
    }
  }

  /** Every token of the nominal capacity is in the bucket, in flight, lost to a
      cancelled call or trimmed away; so hedges in flight never exceed the nominal
      capacity. */
  lemma TokensConserved(s: Bucket, nominal: nat, taskCount: nat, trace: seq<Action>)
    requires Reachable(s, nominal, taskCount, trace)
    ensures s.tokens + Hedges(s) + s.cancelled + s.trimmed == nominal
    ensures 0 <= Hedges(s) <= nominal
  {
    ReachableInv(s, nominal, taskCount, trace);
    CountsNonNegative(s);
  }

  /** Hedging that is drained stays off: with no token left and none in flight, no
      later state of any run has either, whatever the load-shed rate becomes. */
  lemma DrainedForGood(s: Bucket, trace: seq<Action>)
    requires Inv(s) && s.tokens + Hedges(s) == 0 && Run(s, trace).Some?
    ensures Run(s, trace).value.tokens == 0
    ensures forall t :: t in Run(s, trace).value.tasks ==> !t.InFlight?
  {
    NothingMinted(s, trace);
    var s' := Run(s, trace).value;
    CountsNonNegative(s');
    TotalNonNegative(s'.tasks, Holds());
    assert forall t :: t in s'.tasks ==> Holds()(t) <= 0;
  }

  // Whether the bucket can ever hedge again.

  /** Some task is about to take a token. */
  ghost predicate Ready(s: Bucket) {
    s.tokens > 0 && exists i :: 0 <= i < |s.tasks| && s.tasks[i] == Loaded(s.tokens)
  }

  /** Some run leads to another successful `try_consume`. */
  ghost predicate CanHedge(s: Bucket) {
    exists trace :: Run(s, trace).Some? && Ready(Run(s, trace).value)
  }

  lemma ReadyCan(s: Bucket)
    requires Ready(s)
    ensures CanHedge(s)
  {
    assert Run(s, []) == Some(s);
  }

  lemma StepCan(s: Bucket, a: Action)
    requires Fire(s, a).Some? && CanHedge(Fire(s, a).value)
    ensures CanHedge(s)
  {
    var trace :| Run(Fire(s, a).value, trace).Some? && Ready(Run(Fire(s, a).value, trace).value);
    assert ([a] + trace)[1..] == trace;
    assert Run(s, [a] + trace) == Run(Fire(s, a).value, trace);
  }

  /** The task can come to take a token without wiping the bucket on its way. */
  ghost predicate Able(s: Bucket, t: Task) {
    match t
    case Idle => true
    case Loaded(_) => true
    case InFlight => true
    case Added(level) => level <= s.effectiveCap || s.effectiveCap > 0 || s.writer.Resting?
    case Clamping(cap) => cap > 0
  }

  lemma IdleCan(s: Bucket, i: nat)
    requires i < |s.tasks| && s.tasks[i] == Idle && s.tokens > 0
    ensures CanHedge(s)
  {
    var s' := Fire(s, Load(i)).value;
    assert s'.tasks[i] == Loaded(s'.tokens);
    ReadyCan(s');
    StepCan(s, Load(i));
  }

  lemma LoadedCan(s: Bucket, i: nat, n: nat)
    requires i < |s.tasks| && s.tasks[i] == Loaded(n) && s.tokens > 0
    ensures CanHedge(s)
  {
    if n == 0 {
      IdleCan(Fire(s, Refuse(i)).value, i);
      StepCan(s, Refuse(i));
    } else {
      var s' := Fire(s, CompareExchange(i, true)).value;
      assert s'.tasks[i] == Loaded(s'.tokens);
      ReadyCan(s');
      StepCan(s, CompareExchange(i, true));
    }
  }

  lemma ClampingCan(s: Bucket, i: nat, cap: nat)
    requires i < |s.tasks| && s.tasks[i] == Clamping(cap) && s.tokens > 0 && cap > 0
    ensures CanHedge(s)
  {
    IdleCan(Fire(s, Clamp(i)).value, i);
    StepCan(s, Clamp(i));
  }

  lemma AddedCan(s: Bucket, i: nat, level: nat)
    requires i < |s.tasks| && s.tasks[i] == Added(level) && s.tokens > 0
    requires level <= s.effectiveCap || s.effectiveCap > 0
    ensures CanHedge(s)
  {
    var s' := Fire(s, ReadCap(i)).value;
    if level > s.effectiveCap {
      ClampingCan(s', i, s.effectiveCap);
    } else {
      IdleCan(s', i);
    }
    StepCan(s, ReadCap(i));
  }

  lemma AbleCan(s: Bucket, i: nat)
    requires Inv(s) && i < |s.tasks| && s.tokens > 0 && Able(s, s.tasks[i])
    ensures CanHedge(s)
  {
    CountsNonNegative(s);
    match s.tasks[i]
    case Idle => IdleCan(s, i);
    case Loaded(n) => LoadedCan(s, i, n);
    case InFlight =>
      IdleCan(Fire(s, CancelCall(i)).value, i);
      StepCan(s, CancelCall(i));
    case Clamping(cap) => ClampingCan(s, i, cap);
    case Added(level) =>
      if level <= s.effectiveCap || s.effectiveCap > 0 {
        AddedCan(s, i, level);
      } else {
        AddedCan(Fire(s, StoreCap(0.0)).value, i, level);
        StepCan(s, StoreCap(0.0));
      }
  }

  /** With the capacity raised, a hedge in flight gives its token back to the next one. */
  lemma InFlightCan(s: Bucket, i: nat)
    requires i < |s.tasks| && s.tasks[i] == InFlight && s.tokens == 0 && s.nominal > 0
    ensures CanHedge(s)
  {
    if s.writer.Stored? {
      var s1 := Fire(s, ClampToStored).value;
      RaisedCan(s1, i);
      StepCan(s, ClampToStored);
    } else {
      RaisedCan(s, i);
    }
  }

  lemma RaisedCan(s: Bucket, i: nat)
    requires i < |s.tasks| && s.tasks[i] == InFlight && s.tokens == 0 && s.nominal > 0 && s.writer.Resting?
    ensures CanHedge(s)
  {
    var s1 := Fire(s, StoreCap(0.0)).value;
    var s2 := Fire(s1, FinishCall(i)).value;
    AddedCan(s2, i, 1);
    StepCan(s1, FinishCall(i));
    StepCan(s, StoreCap(0.0));
  }

  lemma {:induction false} HolderExists(tasks: seq<Task>) returns (i: nat)
    requires Total(tasks, Holds()) > 0
    ensures i < |tasks| && tasks[i] == InFlight
  {
    if Holds()(tasks[0]) > 0 {
      i := 0;
    } else {
      i := HolderExists(tasks[1..]);
      i := i + 1;
    }
  }

  /** No task will take a token: none is left or in flight, or those left are about to be
      clamped away by every task that could act. */
  ghost predicate Spent(s: Bucket) {
    || s.tokens + Hedges(s) == 0
    || (s.tokens > 0 && NoneAble(s))
  }

  ghost predicate NoneAble(s: Bucket) { forall t :: t in s.tasks ==> !Able(s, t) }

  lemma NoneHolds(s: Bucket)
    requires forall t :: t in s.tasks ==> !t.InFlight?
    ensures Hedges(s) == 0
  {
    TotalZero(s.tasks, Holds());
  }

  /** The writer's steps wipe the bucket, or leave it to tasks that will. */
  lemma WriterStaysSpent(s: Bucket, a: Action)
    requires Inv(s) && NoneAble(s) && (a.StoreCap? || a.ClampToStored?) && Fire(s, a).Some?
    ensures Spent(Fire(s, a).value)
  {
    var s' := Fire(s, a).value;
    NoneHolds(s);
    NoneHolds(s');
    if s'.tokens > 0 {
      forall t | t in s'.tasks ensures !Able(s', t) {
        assert !Able(s, t);
      }
    }
  }

  lemma TaskStaysSpent(s: Bucket, a: Action)
    requires Inv(s) && NoneAble(s) && !a.StoreCap? && !a.ClampToStored? && Fire(s, a).Some?
    ensures Spent(Fire(s, a).value)
  {
    var s' := Fire(s, a).value;
    assert s.tasks[a.task] in s.tasks;
    forall t | t in s'.tasks ensures !t.InFlight? && (s'.tokens > 0 ==> !Able(s', t)) {
      assert t in s.tasks || t == s'.tasks[a.task];
    }
    NoneHolds(s');
  }

  lemma FireStaysSpent(s: Bucket, a: Action)
    requires Inv(s) && Spent(s) && Fire(s, a).Some?
    ensures Spent(Fire(s, a).value) && Inv(Fire(s, a).value)
  {
    FireKeepsInv(s, a);
    if s.tokens + Hedges(s) == 0 {
      FireMintsNothing(s, a);
      CountsNonNegative(Fire(s, a).value);
    } else if a.StoreCap? || a.ClampToStored? {
      WriterStaysSpent(s, a);
    } else {
      TaskStaysSpent(s, a);
    }
  }

  lemma {:induction false} SpentForGood(s: Bucket, trace: seq<Action>)
    requires Inv(s) && Spent(s) && Run(s, trace).Some?
    ensures !Ready(Run(s, trace).value)
    decreases |trace|
  {
    if trace == [] {
      CountsNonNegative(s);
      assert forall i :: 0 <= i < |s.tasks| ==> s.tasks[i] in s.tasks;
    } else {
      FireStaysSpent(s, trace[0]);
      SpentForGood(Fire(s, trace[0]).value, trace[1..]);
    }
  }

  /** In every state of every run: another hedge is possible exactly when one is in flight, or
      a token is left and some task can come to it without wiping the bucket. */
  lemma CanHedgeIff(s: Bucket)
    requires Inv(s)
    ensures CanHedge(s) <==> Hedges(s) > 0 || (s.tokens > 0 && !NoneAble(s))
  {
    CountsNonNegative(s);
    if Hedges(s) > 0 {
      var i := HolderExists(s.tasks);
      if s.tokens > 0 {
        AbleCan(s, i);
      } else {
        InFlightCan(s, i);
      }
    } else if s.tokens > 0 && !NoneAble(s) {
      var t :| t in s.tasks && Able(s, t);
      var i :| 0 <= i < |s.tasks| && s.tasks[i] == t;
      AbleCan(s, i);
    } else {
      forall trace | Run(s, trace).Some? ensures !Ready(Run(s, trace).value) {
        SpentForGood(s, trace);
      }
    }
  }

  lemma TwoSteps(s: Bucket, a: Action, s1: Bucket, b: Action, s2: Bucket, rest: seq<Action>)
    requires Fire(s, a) == Some(s1) && Fire(s1, b) == Some(s2)
    ensures Run(s, [a, b] + rest) == Run(s2, rest)
  {
    var trace := [a, b] + rest;
    assert trace[1..] == [b] + rest && trace[1..][1..] == rest;
    assert Run(s1, trace[1..]) == Run(s2, rest);
  }

  /** The only task takes the only token. */
  lemma TakenRun(rest: seq<Action>)
    ensures Run(Start(1, 1), [Load(0), CompareExchange(0, false)] + rest)
         == Run(Bucket(1, 0, 1, [InFlight], Resting, 0, 0), rest)
  {
    var s := Start(1, 1);
    var s1, s2 := Fire(s, Load(0)).value, Bucket(1, 0, 1, [InFlight], Resting, 0, 0);
    assert s.tasks == [Idle] && s1.tasks == [Loaded(1)];
    assert Fire(s1, CompareExchange(0, false)).value.tasks == s2.tasks;
    TwoSteps(s, Load(0), s1, CompareExchange(0, false), s2, rest);
  }

  /** Heavy shedding takes the capacity away. */
  lemma ShedRun(rest: seq<Action>)
    ensures Run(Bucket(1, 0, 1, [InFlight], Resting, 0, 0), [StoreCap(0.06), ClampToStored] + rest)
         == Run(Bucket(1, 0, 0, [InFlight], Resting, 0, 0), rest)
  {
    var s, s1 := Bucket(1, 0, 1, [InFlight], Resting, 0, 0), Bucket(1, 0, 0, [InFlight], Stored(0), 0, 0);
    TwoSteps(s, StoreCap(0.06), s1, ClampToStored, Bucket(1, 0, 0, [InFlight], Resting, 0, 0), rest);
  }

  /** The call finishes and finds the token it gives back over the capacity. */
  lemma GivenBackRun()
    ensures Run(Bucket(1, 0, 0, [InFlight], Resting, 0, 0), [FinishCall(0), ReadCap(0)] + [])
         == Some(Bucket(1, 1, 0, [Clamping(0)], Resting, 0, 0))
  {
    var s := Bucket(1, 0, 0, [InFlight], Resting, 0, 0);
    var s1, s2 := Fire(s, FinishCall(0)).value, Bucket(1, 1, 0, [Clamping(0)], Resting, 0, 0);
    assert s1.tasks == [Added(1)];
    assert Fire(s1, ReadCap(0)).value.tasks == s2.tasks;
    TwoSteps(s, FinishCall(0), s1, ReadCap(0), s2, []);
  }

  lemma LeftReachable(back: seq<Action>, shed: seq<Action>, trace: seq<Action>)
    requires back == [FinishCall(0), ReadCap(0)] + [] && shed == [StoreCap(0.06), ClampToStored] + back
    requires trace == [Load(0), CompareExchange(0, false)] + shed
    ensures Reachable(Bucket(1, 1, 0, [Clamping(0)], Resting, 0, 0), 1, 1, trace)
  {
    TakenRun(shed);
    ShedRun(back);
    GivenBackRun();
  }

  /** Tokens left are not enough: a run from the start in which one is left, and the only task
      is about to clamp it away. */
  lemma TokenLeftButSpent() returns (s: Bucket, trace: seq<Action>)
    ensures Reachable(s, 1, 1, trace) && s.tokens + Hedges(s) == 1 && !CanHedge(s)
  {
    s := Bucket(1, 1, 0, [Clamping(0)], Resting, 0, 0);
    var back := [FinishCall(0), ReadCap(0)] + [];
    var shed := [StoreCap(0.06), ClampToStored] + back;
    trace := [Load(0), CompareExchange(0, false)] + shed;
    LeftReachable(back, shed, trace);
    ClampingSpent(s, trace);
  }

  lemma ClampingSpent(s: Bucket, trace: seq<Action>)
    requires Reachable(s, 1, 1, trace) && s.tasks == [Clamping(0)]
    ensures Hedges(s) == 0 && !CanHedge(s)
  {
    ReachableInv(s, 1, 1, trace);
    NoneHolds(s);
    CanHedgeIff(s);
  }

  /** With no restore and no rate change under way: exactly when a token is left or in flight. */
  lemma HedgesAgainIff(s: Bucket)
    requires Inv(s) && s.writer.Resting? && s.tasks != []
    requires forall t :: t in s.tasks ==> !t.Added? && !t.Clamping?
    ensures CanHedge(s) <==> s.tokens + Hedges(s) > 0
  {
    CanHedgeIff(s);
    CountsNonNegative(s);
    assert s.tasks[0] in s.tasks && Able(s, s.tasks[0]);
  }

  /** With nothing in flight the bucket is full exactly when no token was ever lost. */
  lemma FullIff(s: Bucket, nominal: nat, taskCount: nat, trace: seq<Action>)
    requires Reachable(s, nominal, taskCount, trace) && Hedges(s) == 0
    ensures s.tokens == nominal <==> s.cancelled == 0 && s.trimmed == 0
  {
    ReachableInv(s, nominal, taskCount, trace);
  }

  /** One second of heavy shedding drains the bucket: the capacity comes back with
      the next healthy reading, the tokens do not. */
  lemma ShedOnceThenHealthy(nominal: nat, taskCount: nat)
    ensures var trace := [StoreCap(0.06), ClampToStored, StoreCap(0.0), ClampToStored];
      var end := Run(Start(nominal, taskCount), trace);
      end.Some? && end.value.effectiveCap == nominal && end.value.tokens + Hedges(end.value) == 0
  {
    var trace := [StoreCap(0.06), ClampToStored, StoreCap(0.0), ClampToStored];
    assert trace[1..] == [ClampToStored, StoreCap(0.0), ClampToStored];
    assert trace[1..][1..] == [StoreCap(0.0), ClampToStored];
    assert trace[1..][1..][1..] == [ClampToStored] && trace[1..][1..][1..][1..] == [];
    var s0 := Start(nominal, taskCount);
    var s1 := Fire(s0, trace[0]).value;
    var s2 := Fire(s1, trace[1]).value;
    var s3 := Fire(s2, trace[2]).value;
    var s4 := Fire(s3, trace[3]).value;
    assert Run(s3, [ClampToStored]) == Some(s4);
    assert Run(s2, [StoreCap(0.0), ClampToStored]) == Some(s4);
    assert Run(s1, trace[1..]) == Some(s4);
    TotalZero(s4.tasks, Holds());
  }

  /** The bucket as the object one task at a time uses. */
  class HedgeBudget {
    var tokens: nat
    const nominal: nat
    var effectiveCap: nat

    ghost predicate Valid()
      reads this
    {
      tokens <= effectiveCap <= nominal
    }

    constructor (capacity: nat)
      ensures Valid() && nominal == tokens == effectiveCap == capacity
    {
      tokens, nominal, effectiveCap := capacity, capacity, capacity;
    }

    /** The compare-exchange loop; the weak form may fail up to `spurious` times. */
    method TryConsume(spurious: nat) returns (allowed: bool)
      requires Valid()
      modifies this`tokens
      ensures Valid() && allowed == (old(tokens) > 0)
      ensures tokens == if allowed then old(tokens) - 1 else 0
    {
      var current, failures := tokens, spurious;
      while current != 0
        invariant current == tokens == old(tokens)
        decreases failures
      {
        if failures == 0 {
          tokens := current - 1;
          return true;
        }
        current, failures := tokens, failures - 1;
      }
      return false;
    }

    method Restore()
      requires Valid()
      modifies this`tokens
      ensures Valid()
      ensures tokens == Min(old(tokens) + 1, effectiveCap)
    {
      tokens := tokens + 1;
      var level, cap := tokens, effectiveCap;
      if level > cap {
        tokens := Min(tokens, cap);
      }
    }

    method SetLoadShedRate(rate: real)
      requires Valid()
      modifies this`tokens, this`effectiveCap
      ensures Valid() && effectiveCap == EffectiveFor(nominal, rate)
      ensures tokens == Min(old(tokens), effectiveCap)
    {
      effectiveCap := if rate > 0.05 then 0 else if rate > 0.01 then nominal / 5 else nominal;
      tokens := Min(tokens, effectiveCap);
    }
  }
}
