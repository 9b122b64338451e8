/** The in-process budget pacer as a system of concurrent tasks, one step per
    atomic operation (pacing/local.rs). A task that is not `Idle` holds the read
    guard of the counter map; `reload` needs the write guard, so it fires only
    when every task is idle. */
module BudgetLedger {
  import opened Common

  /** One campaign: the atomic counter, and what happened since its last reload. */
  datatype Account = Account(
    counter: int, budget: int, granted: int,
    released: int,  // all amounts given back
    carried: int)   // those of them that were reserved before the reload
  {
    function Net(): int { granted - released }

    /** What the reservations made since the reload still hold. */
    function OwnNet(): int { granted - (released - carried) }
  }

  datatype Task =
    | Idle
    | Reserving(campaign: CampaignId, bid: int)  // guard taken, nothing subtracted yet
    | Undoing(campaign: CampaignId, bid: int)    // subtracted from an exhausted counter
    | Releasing(campaign: CampaignId, bid: int, earlier: bool)  // guard taken, nothing added yet

  datatype Ledger = Ledger(accounts: map<CampaignId, Account>, tasks: seq<Task>)

  datatype Action =
    | BeginReserve(task: nat, campaign: CampaignId, bid: int)
    | Subtract(task: nat)
    | AddBack(task: nat)
    | BeginRelease(task: nat, campaign: CampaignId, bid: int, earlier: bool)  // whether reserved before the reload
    | Add(task: nat)
    | Reload(budgets: seq<(CampaignId, int)>)

  /** The store loop of `reload`; later rows for one campaign win. */
  function Reloaded(accounts: map<CampaignId, Account>, budgets: seq<(CampaignId, int)>): map<CampaignId, Account>
    decreases |budgets|
  {
    if budgets == [] then accounts
    else
      var (c, b) := budgets[0];
      Reloaded(accounts[c := Account(b, b, 0, 0, 0)], budgets[1..])
  }

  /** One atomic step; `None` when the action is not enabled. */
  function Fire(s: Ledger, a: Action): Option<Ledger> {
    match a
    case Reload(budgets) =>
      if forall t :: t in s.tasks ==> t.Idle? then Some(s.(accounts := Reloaded(s.accounts, budgets))) else None
    case BeginReserve(i, c, bid) =>
      if i < |s.tasks| && s.tasks[i].Idle? then Some(s.(tasks := s.tasks[i := Reserving(c, bid)])) else None
    case BeginRelease(i, c, bid, earlier) =>
      if i < |s.tasks| && s.tasks[i].Idle? then Some(s.(tasks := s.tasks[i := Releasing(c, bid, earlier)])) else None
    case Subtract(i) =>
      if i < |s.tasks| && s.tasks[i].Reserving? then Some(Subtracted(s, i)) else None
    case AddBack(i) =>
      if i < |s.tasks| && s.tasks[i].Undoing? && s.tasks[i].campaign in s.accounts then
        var Undoing(c, bid) := s.tasks[i];
        var acc := s.accounts[c];
        Some(Ledger(s.accounts[c := acc.(counter := acc.counter + bid)], s.tasks[i := Idle]))
      else None
    case Add(i) =>
      if i < |s.tasks| && s.tasks[i].Releasing? then
        var Releasing(c, bid, earlier) := s.tasks[i];
        Some(Ledger(
          if c in s.accounts then
            var acc := s.accounts[c];
            s.accounts[c := acc.(
              counter := acc.counter + bid, released := acc.released + bid,
              carried := if earlier then acc.carried + bid else acc.carried)]
          else s.accounts,
          s.tasks[i := Idle]))
      else None
  }

  /** `fetch_sub`, and the branch on the value it returned. */
  function Subtracted(s: Ledger, i: nat): Ledger
    requires i < |s.tasks| && s.tasks[i].Reserving?
  {
    var Reserving(c, bid) := s.tasks[i];
    if c !in s.accounts then s.(tasks := s.tasks[i := Idle])
    else
      var acc := s.accounts[c];
      if acc.counter <= 0 then
        Ledger(s.accounts[c := acc.(counter := acc.counter - bid)], s.tasks[i := Undoing(c, bid)])
      else
        Ledger(s.accounts[c := acc.(counter := acc.counter - bid, granted := acc.granted + bid)], s.tasks[i := Idle])
  }

  function Run(s: Ledger, trace: seq<Action>): Option<Ledger>
    decreases |trace|
  {
    if trace == [] then Some(s)
    else
      match Fire(s, trace[0])
      case None => None
      case Some(s') => Run(s', trace[1..])
  }

  /** `LocalBudgetPacer::new` with any number of tasks. */
  function Start(taskCount: nat): Ledger {
    Ledger(map[], seq(taskCount, _ => Idle))
  }

  /** Every amount reserved or released lies in `0..=maxBid`. */
  ghost predicate BidsWithin(trace: seq<Action>, maxBid: nat) {
    forall a :: a in trace && (a.BeginReserve? || a.BeginRelease?) ==> 0 <= a.bid <= maxBid
  }

  /** What a task has subtracted from the counter of `c` and has yet to add back. */
  ghost function Owed(c: CampaignId): Task -> int {
    (t: Task) => if t.Undoing? && t.campaign == c then t.bid else 0
  }

  ghost function Pending(s: Ledger, c: CampaignId): int {
    Total(s.tasks, Owed(c))
  }

  ghost predicate AccountOk(s: Ledger, c: CampaignId, maxBid: nat)
    requires c in s.accounts
  {
    var acc := s.accounts[c];
    && acc.counter + Pending(s, c) == acc.budget - acc.Net()
    && (acc.Net() <= 0 || acc.Net() < acc.budget + maxBid)
  }

  ghost predicate TasksOk(s: Ledger, maxBid: nat) {
    forall t :: t in s.tasks && !t.Idle? ==> 0 <= t.bid <= maxBid && (t.Undoing? ==> t.campaign in s.accounts)
  }

  ghost predicate Inv(s: Ledger, maxBid: nat) {
    TasksOk(s, maxBid) && forall c :: c in s.accounts ==> AccountOk(s, c, maxBid)
  }

  lemma PendingNonNegative(s: Ledger, c: CampaignId, maxBid: nat)
    requires TasksOk(s, maxBid)
    ensures Pending(s, c) >= 0
  {
    TotalNonNegative(s.tasks, Owed(c));
  }

  lemma PendingIdle(s: Ledger, c: CampaignId)
    requires forall t :: t in s.tasks ==> t.Idle?
    ensures Pending(s, c) == 0
  {
    TotalZero(s.tasks, Owed(c));
  }

  lemma {:induction false} ReloadedAccounts(accounts: map<CampaignId, Account>, budgets: seq<(CampaignId, int)>)
    ensures accounts.Keys <= Reloaded(accounts, budgets).Keys
    ensures forall c :: c in Reloaded(accounts, budgets) ==>
      var acc := Reloaded(accounts, budgets)[c];
      acc == Account(acc.budget, acc.budget, 0, 0, 0) || (c in accounts && acc == accounts[c])
    decreases |budgets|
  {
    if budgets != [] {
      var (c, b) := budgets[0];
      ReloadedAccounts(accounts[c := Account(b, b, 0, 0, 0)], budgets[1..]);
    }
  }

  lemma TaskReplaced(s: Ledger, i: nat, t: Task)
    requires i < |s.tasks|
    ensures forall x :: x in s.tasks[i := t] ==> x == t || x in s.tasks
    ensures forall c :: Total(s.tasks[i := t], Owed(c)) == Pending(s, c) - Owed(c)(s.tasks[i]) + Owed(c)(t)
  {
    forall c: CampaignId {
      TotalUpdate(s.tasks, i, t, Owed(c));
    }
  }

  lemma ReloadKeepsInv(s: Ledger, budgets: seq<(CampaignId, int)>, maxBid: nat)
    requires Inv(s, maxBid) && forall t :: t in s.tasks ==> t.Idle?
    ensures Inv(s.(accounts := Reloaded(s.accounts, budgets)), maxBid)
  {
    ReloadedAccounts(s.accounts, budgets);
    var s' := s.(accounts := Reloaded(s.accounts, budgets));
    forall c | c in s'.accounts ensures AccountOk(s', c, maxBid) {
      PendingIdle(s, c);
    }
  }

  /** A step that changes only what task `i` does and the account of its campaign `c`. */
  lemma TaskStepKeepsInv(s: Ledger, s': Ledger, i: nat, c: CampaignId, maxBid: nat)
    requires Inv(s, maxBid) && i < |s.tasks| == |s'.tasks| && s.accounts.Keys == s'.accounts.Keys
    requires s'.tasks == s.tasks[i := s'.tasks[i]]
    requires s.tasks[i].Idle? || s.tasks[i].campaign == c
    requires var t := s'.tasks[i];
      t.Idle? || (t.campaign == c && 0 <= t.bid <= maxBid && (t.Undoing? ==> c in s.accounts))
    requires forall d :: d in s.accounts && d != c ==> s'.accounts[d] == s.accounts[d]
    requires c in s.accounts ==>
      var acc, acc' := s.accounts[c], s'.accounts[c];
      && acc'.counter - acc.counter + acc'.Net() - acc.Net() + Owed(c)(s'.tasks[i]) == Owed(c)(s.tasks[i])
      && acc'.budget == acc.budget
      && (acc'.Net() <= acc.Net() || (acc.counter > 0 && acc'.Net() <= acc.Net() + maxBid))
    ensures Inv(s', maxBid)
  {
    TaskReplaced(s, i, s'.tasks[i]);
    forall d | d in s'.accounts ensures AccountOk(s', d, maxBid) {
      assert AccountOk(s, d, maxBid);
      PendingNonNegative(s, d, maxBid);
    }
  }

  lemma FireKeepsInv(s: Ledger, a: Action, maxBid: nat)
    requires Inv(s, maxBid) && BidsWithin([a], maxBid)
    ensures Fire(s, a).Some? ==> Inv(Fire(s, a).value, maxBid)
  {
    assert a in [a];
    if Fire(s, a).Some? {
      if a.Reload? {
        ReloadKeepsInv(s, a.budgets, maxBid);
      } else {
        assert s.tasks[a.task] in s.tasks;
        var c := if a.BeginReserve? || a.BeginRelease? then a.campaign else s.tasks[a.task].campaign;
        TaskStepKeepsInv(s, Fire(s, a).value, a.task, c, maxBid);
      }
    }
  }

  lemma {:induction false} RunKeepsInv(s: Ledger, trace: seq<Action>, maxBid: nat)
    requires Inv(s, maxBid) && BidsWithin(trace, maxBid)
    ensures Run(s, trace).Some? ==> Inv(Run(s, trace).value, maxBid)
    decreases |trace|
  {
    if trace != [] && Fire(s, trace[0]).Some? {
      assert trace[0] in trace;
      FireKeepsInv(s, trace[0], maxBid);
      RunKeepsInv(Fire(s, trace[0]).value, trace[1..], maxBid);
    }
  }

  ghost predicate Reachable(s: Ledger, taskCount: nat, trace: seq<Action>, maxBid: nat) {
    BidsWithin(trace, maxBid) && Run(Start(taskCount), trace) == Some(s)
  }

  lemma ReachableInv(s: Ledger, taskCount: nat, trace: seq<Action>, maxBid: nat)
    requires Reachable(s, taskCount, trace, maxBid)
    ensures Inv(s, maxBid)
  {
    RunKeepsInv(Start(taskCount), trace, maxBid);
  }

  /** Under every interleaving, what was granted minus what was released since the
      last reload overshoots the budget by less than one bid. */
  lemma OvershootBounded(s: Ledger, taskCount: nat, trace: seq<Action>, maxBid: nat, c: CampaignId)
    requires Reachable(s, taskCount, trace, maxBid) && c in s.accounts
    ensures s.accounts[c].Net() <= 0 || s.accounts[c].Net() < s.accounts[c].budget + maxBid
  {
    ReachableInv(s, taskCount, trace, maxBid);
  }

  lemma ReloadOne(accounts: map<CampaignId, Account>, c: CampaignId, budget: int)
    ensures Reloaded(accounts, [(c, budget)]) == accounts[c := Account(budget, budget, 0, 0, 0)]
  {
    assert [(c, budget)][1..] == [];
    var after := accounts[c := Account(budget, budget, 0, 0, 0)];
    assert Reloaded(after, []) == after;
  }

  /** The state in which `RefusedWithBudgetLeft` finds the ledger. */
  ghost function Crowded(): Ledger {
    Ledger(map[7 := Account(0, 10, 10, 10, 0)], [Idle, Undoing(7, 10), Reserving(7, 1)])
  }

  lemma {:induction false} RunThen(s: Ledger, trace: seq<Action>, a: Action)
    requires Run(s, trace).Some?
    ensures Run(s, trace + [a]) == Fire(Run(s, trace).value, a)
    decreases |trace|
  {
    if trace == [] {
      assert (trace + [a])[1..] == [];
    } else {
      assert (trace + [a])[1..] == trace[1..] + [a];
      RunThen(Fire(s, trace[0]).value, trace[1..], a);
    }
  }

  ghost predicate Reached(s: Ledger, taskCount: nat, maxBid: nat) {
    exists trace :: Reachable(s, taskCount, trace, maxBid)
  }

  /** One more step of a run. */
  lemma ReachedThen(s: Ledger, taskCount: nat, maxBid: nat, a: Action) returns (s': Ledger)
    requires Reached(s, taskCount, maxBid) && Fire(s, a).Some? && BidsWithin([a], maxBid)
    ensures Reached(s', taskCount, maxBid) && s' == Fire(s, a).value
  {
    var trace :| Reachable(s, taskCount, trace, maxBid);
    s' := Fire(s, a).value;
    RunThen(Start(taskCount), trace, a);
    assert a in [a];
    assert Reachable(s', taskCount, trace + [a], maxBid);
  }

  /** The bound is attained, for every largest bid. */
  lemma OvershootAttained(maxBid: nat)
    requires maxBid >= 1
    ensures exists s ::
      Reached(s, 1, maxBid) && 7 in s.accounts && s.accounts[7].Net() == s.accounts[7].budget + maxBid - 1
  {
    ReloadOne(map[], 7, 1);
    assert Reachable(Start(1), 1, [], maxBid);
    var s := ReachedThen(Start(1), 1, maxBid, Reload([(7, 1)]));
    s := ReachedThen(s, 1, maxBid, BeginReserve(0, 7, maxBid));
    s := ReachedThen(s, 1, maxBid, Subtract(0));
    assert s.accounts[7].Net() == s.accounts[7].budget + maxBid - 1;
  }

  /** The first task holds the whole budget. */
  lemma OneGranted() returns (s: Ledger)
    ensures Reached(s, 3, 10) && s == Ledger(map[7 := Account(0, 10, 10, 0, 0)], [Idle, Idle, Idle])
  {
    ReloadOne(map[], 7, 10);
    assert Reachable(Start(3), 3, [], 10);
    s := ReachedThen(Start(3), 3, 10, Reload([(7, 10)]));
    s := ReachedThen(s, 3, 10, BeginReserve(0, 7, 10));
    s := ReachedThen(s, 3, 10, Subtract(0));
  }

  /** The second is refused and has yet to undo its subtraction. */
  lemma OneUndoing() returns (s: Ledger)
    ensures Reached(s, 3, 10) && s == Ledger(map[7 := Account(-10, 10, 10, 0, 0)], [Idle, Undoing(7, 10), Idle])
  {
    s := OneGranted();
    s := ReachedThen(s, 3, 10, BeginReserve(1, 7, 10));
    s := ReachedThen(s, 3, 10, Subtract(1));
  }

  /** The first gives everything back. */
  lemma OneReleased() returns (s: Ledger)
    ensures Reached(s, 3, 10) && s == Ledger(map[7 := Account(0, 10, 10, 10, 0)], [Idle, Undoing(7, 10), Idle])
  {
    s := OneUndoing();
    s := ReachedThen(s, 3, 10, BeginRelease(0, 7, 10, false));
    s := ReachedThen(s, 3, 10, Add(0));
  }

  /** A task can be refused although the whole budget is left: another task's
      subtraction is not yet undone when a release makes room. `GrantedIff` says
      exactly when this happens. */
  lemma RefusedWithBudgetLeft()
    ensures Reached(Crowded(), 3, 10)
    ensures Crowded().accounts[7].budget - Crowded().accounts[7].Net() == 10
    ensures Fire(Crowded(), Subtract(2)).value.tasks[2].Undoing?
  {
    var s := OneReleased();
    s := ReachedThen(s, 3, 10, BeginReserve(2, 7, 1));
    assert s == Crowded();
  }

  /** What an epoch's own reservations hold can exceed that bound, by what earlier epochs give
      back in it and by no more. */
  lemma OwnSpendBounded(s: Ledger, taskCount: nat, trace: seq<Action>, maxBid: nat, c: CampaignId)
    requires Reachable(s, taskCount, trace, maxBid) && c in s.accounts
    ensures var acc := s.accounts[c];
      acc.OwnNet() <= acc.carried || acc.OwnNet() < acc.budget + maxBid + acc.carried
  {
    ReachableInv(s, taskCount, trace, maxBid);
  }

  /** A task grabs the guard and reserves a bid the counter covers. */
  lemma Reserve(s: Ledger, maxBid: nat, bid: nat) returns (s': Ledger)
    requires Reached(s, 1, maxBid) && bid <= maxBid && s.tasks == [Idle]
    requires 7 in s.accounts && s.accounts[7].counter > 0
    ensures Reached(s', 1, maxBid) && s'.tasks == [Idle]
    ensures var acc := s.accounts[7];
      s'.accounts == s.accounts[7 := acc.(counter := acc.counter - bid, granted := acc.granted + bid)]
  {
    s' := ReachedThen(s, 1, maxBid, BeginReserve(0, 7, bid));
    s' := ReachedThen(s', 1, maxBid, Subtract(0));
  }

  /** A reload while nobody holds the guard. */
  lemma Refill(s: Ledger, maxBid: nat, budget: int) returns (s': Ledger)
    requires Reached(s, 1, maxBid) && s.tasks == [Idle]
    ensures Reached(s', 1, maxBid) && s'.tasks == [Idle]
    ensures s'.accounts == s.accounts[7 := Account(budget, budget, 0, 0, 0)]
  {
    ReloadOne(s.accounts, 7, budget);
    s' := ReachedThen(s, 1, maxBid, Reload([(7, budget)]));
  }

  /** A task gives back what was reserved before the reload. */
  lemma GiveBack(s: Ledger, maxBid: nat) returns (s': Ledger)
    requires Reached(s, 1, maxBid) && s.tasks == [Idle] && 7 in s.accounts
    ensures Reached(s', 1, maxBid) && s'.tasks == [Idle]
    ensures var acc := s.accounts[7];
      s'.accounts == s.accounts[7 := acc.(
        counter := acc.counter + maxBid, released := acc.released + maxBid, carried := acc.carried + maxBid)]
  {
    s' := ReachedThen(s, 1, maxBid, BeginRelease(0, 7, maxBid, true));
    s' := ReachedThen(s', 1, maxBid, Add(0));
  }

  ghost predicate HoldsMost(acc: Account, maxBid: nat) {
    acc.OwnNet() == acc.budget + maxBid + acc.carried - 1 && acc.OwnNet() > acc.budget + maxBid
  }

  /** That bound is attained, for every largest bid: an epoch with a budget of one largest bid
      comes to hold almost three of them. */
  lemma OwnSpendAttained(maxBid: nat)
    requires maxBid >= 2
    ensures exists s :: Reached(s, 1, maxBid) && 7 in s.accounts && HoldsMost(s.accounts[7], maxBid)
  {
    assert Reachable(Start(1), 1, [], maxBid) && Start(1).tasks == [Idle];
    var s := Refill(Start(1), maxBid, maxBid);
    s := Reserve(s, maxBid, maxBid);
    s := Refill(s, maxBid, maxBid);
    s := GiveBack(s, maxBid);
    s := Reserve(s, maxBid, maxBid);
    s := Reserve(s, maxBid, maxBid - 1);
    s := Reserve(s, maxBid, maxBid);
    assert HoldsMost(s.accounts[7], maxBid);
  }

  /** At rest the counter is the budget less the net grants: nothing is lost or minted. */
  lemma CounterConserved(s: Ledger, taskCount: nat, trace: seq<Action>, maxBid: nat, c: CampaignId)
    requires Reachable(s, taskCount, trace, maxBid) && c in s.accounts
    requires forall t :: t in s.tasks ==> !t.Undoing?
    ensures s.accounts[c].counter == s.accounts[c].budget - s.accounts[c].Net()
  {
    ReachableInv(s, taskCount, trace, maxBid);
    TotalZero(s.tasks, Owed(c));
  }

  /** A reservation is granted exactly when what is left of the budget exceeds the
      subtractions that other tasks have yet to undo. */
  lemma GrantedIff(s: Ledger, taskCount: nat, trace: seq<Action>, maxBid: nat, i: nat)
    requires Reachable(s, taskCount, trace, maxBid)
    requires i < |s.tasks| && s.tasks[i].Reserving? && s.tasks[i].campaign in s.accounts
    ensures
      var c := s.tasks[i].campaign;
      var granted := Fire(s, Subtract(i)).value.tasks[i].Idle?;
      granted <==> s.accounts[c].budget - s.accounts[c].Net() > Pending(s, c)
  {
    ReachableInv(s, taskCount, trace, maxBid);
    assert AccountOk(s, s.tasks[i].campaign, maxBid);
  }
}
