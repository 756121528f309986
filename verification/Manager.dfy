/** Dispatching one signal over every customer, executor and account (v2/src/execution-core/manager.ts). */
module Manager {
  import opened Common
  import opened ExecutionTypes
  import opened StoreModel
  import opened Repository
  import opened Queue
  import opened Planner

  /** The random id and the clock reading of one planning step. */
  datatype Draw = Draw(id: string, now: int)

  /** The duplicate test handed to the planner. */
  predicate Known(s: Store, key: string) {
    (exists i | 0 <= i < |s.commands| :: s.commands[i].idempotencyKey == key) || HasDispatched(s, key)
  }

  function DuplicateTest(s: Store): string -> bool {
    (key: string) => Known(s, key)
  }

  function SlotsOfExecutor(c: Customer, e: Executor, accounts: seq<Account>): seq<Slot> {
    if accounts == [] then []
    else SlotsOfExecutor(c, e, accounts[..|accounts| - 1]) + [Slot(c, e, accounts[|accounts| - 1])]
  }

  function SlotsOfCustomer(c: Customer, executors: seq<Executor>): seq<Slot> {
    if executors == [] then []
    else
      var e := executors[|executors| - 1];
      SlotsOfCustomer(c, executors[..|executors| - 1]) + SlotsOfExecutor(c, e, e.accounts)
  }

  /** Every (customer, executor, account) of the profiles, in loop order. */
  function Slots(profiles: seq<Customer>): seq<Slot> {
    if profiles == [] then []
    else
      var c := profiles[|profiles| - 1];
      Slots(profiles[..|profiles| - 1]) + SlotsOfCustomer(c, c.executors)
  }

  function PlanEvent(p: Plan): EventType {
    match p.status
    case APPROVED => ExecutionPlanApproved
    case DEFERRED => ExecutionPlanDeferred
    case REJECTED => ExecutionPlanRejected
  }

  /** Enqueue one command and announce what became of it. */
  function Announced(s: Store, c: Command, now: int): Store {
    if !Reserved(s, c.idempotencyKey, now) && Insertable(s, c)
    then Publish(Enqueued(s, c, now), CommandQueued, now)
    else Publish(Enqueued(s, c, now), CommandDuplicatePrevented, now)
  }

  function QueueAll(s: Store, cs: seq<Command>, now: int): Store {
    if cs == [] then s
    else Announced(QueueAll(s, cs[..|cs| - 1], now), cs[|cs| - 1], now)
  }

  function SettlePlan(s: Store, p: Plan, now: int): Store {
    QueueAll(Publish(s, PlanEvent(p), now), p.commands, now)
  }

  datatype Progress = Progress(store: Store, plans: seq<Plan>)

  /** One slot: plan it against the store as it is now, then settle the plan. */
  function DispatchSlot(at: Progress, signal: Signal, caps: Planner.Registry, slot: Slot, draw: Draw): Progress {
    var p := MakePlan(signal, slot, caps, DuplicateTest(at.store), draw.id, draw.now);
    Progress(SettlePlan(at.store, p, draw.now), at.plans + [p])
  }

  function DispatchSlots(s: Store, signal: Signal, caps: Planner.Registry, slots: seq<Slot>, draws: nat -> Draw): Progress {
    if slots == [] then Progress(s, [])
    else
      var n := |slots| - 1;
      DispatchSlot(DispatchSlots(s, signal, caps, slots[..n], draws), signal, caps, slots[n], draws(n))
  }

  function Recovered(s: Store, now: int): Store {
    if StrandedCount(s.commands, now) != 0 then Publish(Recover(s, now), ExecutionRecovered, now) else Recover(s, now)
  }

  function CountStatus(plans: seq<Plan>, status: PlanStatus): nat {
    Count(plans, (p: Plan) => p.status == status)
  }

  function QueuedCommands(plans: seq<Plan>): nat {
    if plans == [] then 0 else QueuedCommands(plans[..|plans| - 1]) + |plans[|plans| - 1].commands|
  }

  lemma SlotsOfExecutorMore(c: Customer, e: Executor, k: nat)
    requires k < |e.accounts|
    ensures SlotsOfExecutor(c, e, e.accounts[..k + 1]) == SlotsOfExecutor(c, e, e.accounts[..k]) + [Slot(c, e, e.accounts[k])]
  {
    assert e.accounts[..k + 1][..k] == e.accounts[..k];
  }

  lemma SlotsOfCustomerMore(c: Customer, j: nat)
    requires j < |c.executors|
    ensures SlotsOfCustomer(c, c.executors[..j + 1])
         == SlotsOfCustomer(c, c.executors[..j]) + SlotsOfExecutor(c, c.executors[j], c.executors[j].accounts)
  {
    assert c.executors[..j + 1][..j] == c.executors[..j];
  }

  lemma SlotsMore(profiles: seq<Customer>, i: nat)
    requires i < |profiles|
    ensures Slots(profiles[..i + 1]) == Slots(profiles[..i]) + SlotsOfCustomer(profiles[i], profiles[i].executors)
  {
    assert profiles[..i + 1][..i] == profiles[..i];
  }

  lemma DispatchMore(s: Store, signal: Signal, caps: Planner.Registry, slots: seq<Slot>, slot: Slot, draws: nat -> Draw)
    ensures DispatchSlots(s, signal, caps, slots + [slot], draws)
         == DispatchSlot(DispatchSlots(s, signal, caps, slots, draws), signal, caps, slot, draws(|slots|))
  {
    assert (slots + [slot])[..|slots|] == slots;
  }

  ghost predicate Dispatched(
    start: Store, signal: Signal, caps: Planner.Registry, done: seq<Slot>, draws: nat -> Draw, store: Store, plans: seq<Plan>)
  {
    Progress(store, plans) == DispatchSlots(start, signal, caps, done, draws) && |plans| == |done|
  }

  /** A whole dispatch: recover leases, plan every slot in turn, and frame it with events. */
  function DispatchAll(s: Store, signal: Signal, caps: Planner.Registry, profiles: seq<Customer>, draws: nat -> Draw, now: int): Progress {
    var start := Publish(Recovered(s, now), ExecutionPlanningStarted, now);
    var end := DispatchSlots(start, signal, caps, Slots(profiles), draws);
    end.(store := Publish(end.store, ExecutionPlanningCompleted, now))
  }

  datatype Report = Report(plans: seq<Plan>, queuedCommands: nat, rejected: nat, deferred: nat, approved: nat)

  function ReportOf(plans: seq<Plan>): Report {
    Report(plans, QueuedCommands(plans), CountStatus(plans, REJECTED), CountStatus(plans, DEFERRED), CountStatus(plans, APPROVED))
  }

  class ExecutionManager {
    const repo: ExecutionRepository
    const queue: CommandQueue
    const caps: Planner.Registry
    var profiles: seq<Customer>

    constructor (repo: ExecutionRepository, queue: CommandQueue, caps: Planner.Registry, profiles: seq<Customer>)
      requires queue.repo == repo
      ensures this.repo == repo && this.queue == queue && this.caps == caps && this.profiles == profiles
    {
      this.repo, this.queue, this.caps, this.profiles := repo, queue, caps, profiles;
    }

    method RecoverLeases(now: int) returns (recovered: nat)
      modifies repo
      ensures repo.Snapshot() == Recovered(old(repo.Snapshot()), now)
      ensures recovered == StrandedCount(old(repo.commands), now)
    {
      recovered := repo.RecoverStranded(now);
      if recovered != 0 {
        repo.PublishEvent(ExecutionRecovered, now);
      }
    }

    method Announce(command: Command, now: int)
      requires queue.repo == repo
      modifies repo
      ensures repo.Snapshot() == Announced(old(repo.Snapshot()), command, now)
    {
      var enqueued, _ := queue.Enqueue(command, now);
      repo.PublishEvent(if enqueued then CommandQueued else CommandDuplicatePrevented, now);
    }

    method Settle(plan: Plan, now: int)
      requires queue.repo == repo
      modifies repo
      ensures repo.Snapshot() == SettlePlan(old(repo.Snapshot()), plan, now)
    {
      repo.PublishEvent(PlanEvent(plan), now);
      ghost var start := repo.Snapshot();
      for i := 0 to |plan.commands|
        invariant repo.Snapshot() == QueueAll(start, plan.commands[..i], now)
      {
        Announce(plan.commands[i], now);
        assert plan.commands[..i + 1][..i] == plan.commands[..i];
      }
      assert plan.commands[..|plan.commands|] == plan.commands;
    }

    method PlanAccount(signal: Signal, slot: Slot, draw: Draw, plans: seq<Plan>) returns (more: seq<Plan>)
      requires queue.repo == repo
      modifies repo
      ensures Progress(repo.Snapshot(), more) == DispatchSlot(Progress(old(repo.Snapshot()), plans), signal, caps, slot, draw)
      ensures |more| == |plans| + 1
    {
      var plan := MakePlan(signal, slot, caps, DuplicateTest(repo.Snapshot()), draw.id, draw.now);
      more := plans + [plan];
      Settle(plan, draw.now);
    }

    /** One executor's accounts, given what the slots before it led to. */
    method DispatchExecutor(
      signal: Signal, c: Customer, e: Executor, draws: nat -> Draw, ghost start: Store, ghost done: seq<Slot>, plans: seq<Plan>)
      returns (more: seq<Plan>)
      requires queue.repo == repo && Dispatched(start, signal, caps, done, draws, repo.Snapshot(), plans)
      modifies repo
      ensures Dispatched(start, signal, caps, done + SlotsOfExecutor(c, e, e.accounts), draws, repo.Snapshot(), more)
    {
      more := plans;
      ghost var sofar := done;
      for k := 0 to |e.accounts|
        invariant sofar == done + SlotsOfExecutor(c, e, e.accounts[..k])
        invariant Dispatched(start, signal, caps, sofar, draws, repo.Snapshot(), more)
      {
        var slot := Slot(c, e, e.accounts[k]);
        SlotsOfExecutorMore(c, e, k);
        DispatchMore(start, signal, caps, sofar, slot, draws);
        more := PlanAccount(signal, slot, draws(|more|), more);
        sofar := sofar + [slot];
      }
      assert e.accounts[..|e.accounts|] == e.accounts;
    }

    method DispatchCustomer(
      signal: Signal, c: Customer, draws: nat -> Draw, ghost start: Store, ghost done: seq<Slot>, plans: seq<Plan>)
      returns (more: seq<Plan>)
      requires queue.repo == repo && Dispatched(start, signal, caps, done, draws, repo.Snapshot(), plans)
      modifies repo
      ensures Dispatched(start, signal, caps, done + SlotsOfCustomer(c, c.executors), draws, repo.Snapshot(), more)
    {
      more := plans;
      ghost var sofar := done;
      for j := 0 to |c.executors|
        invariant sofar == done + SlotsOfCustomer(c, c.executors[..j])
        invariant Dispatched(start, signal, caps, sofar, draws, repo.Snapshot(), more)
      {
        more := DispatchExecutor(signal, c, c.executors[j], draws, start, sofar, more);
        SlotsOfCustomerMore(c, j);
        sofar := sofar + SlotsOfExecutor(c, c.executors[j], c.executors[j].accounts);
      }
      assert c.executors[..|c.executors|] == c.executors;
    }

    method Dispatch(signal: Signal, draws: nat -> Draw, now: int) returns (report: Report)
      requires queue.repo == repo
      modifies repo
      ensures repo.Snapshot() == DispatchAll(old(repo.Snapshot()), signal, caps, profiles, draws, now).store
      ensures report == ReportOf(DispatchAll(old(repo.Snapshot()), signal, caps, profiles, draws, now).plans)
    {
      var _ := RecoverLeases(now);
      repo.PublishEvent(ExecutionPlanningStarted, now);
      ghost var start := repo.Snapshot();
      var plans: seq<Plan> := [];
      ghost var done: seq<Slot> := [];
      for i := 0 to |profiles|
        invariant done == Slots(profiles[..i])
        invariant Dispatched(start, signal, caps, done, draws, repo.Snapshot(), plans)
      {
        plans := DispatchCustomer(signal, profiles[i], draws, start, done, plans);
        SlotsMore(profiles, i);
        done := done + SlotsOfCustomer(profiles[i], profiles[i].executors);
      }
      assert profiles[..|profiles|] == profiles;
      repo.PublishEvent(ExecutionPlanningCompleted, now);
      report := ReportOf(plans);
    }
  }
}
