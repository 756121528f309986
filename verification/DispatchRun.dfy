/** A dispatch is a run of the protocol, so everything proved of all runs holds of what dispatchers do (v2/src/execution-core/manager.ts). */
module DispatchRun {
  import opened Common
  import opened ExecutionTypes
  import opened StoreModel
  import opened QueueModel
  import opened Queue
  import opened QueueProperties
  import opened Planner
  import opened Manager
  import opened ManagerProperties
  import opened Protocol
  import opened Worker

  lemma EnqueueSame(s: Store, t: Store, c: Command, now: int)
    requires SameQueue(s, t)
    ensures SameQueue(Enqueued(s, c, now), Enqueued(t, c, now))
  {
  }

  lemma AnnounceSame(s: Store, t: Store, c: Command, now: int)
    requires SameQueue(s, t)
    ensures SameQueue(Enqueued(s, c, now), Announced(t, c, now))
  {
    EnqueueSame(s, t, c, now);
    PublishSame(Enqueued(s, c, now), Enqueued(t, c, now), CommandQueued, now);
    PublishSame(Enqueued(s, c, now), Enqueued(t, c, now), CommandDuplicatePrevented, now);
  }

  /** Where a run stands when the dispatcher's store is `store`: same queue, nobody's reservations touched. */
  ghost predicate InStep(from: State, s: State, store: Store) {
    SameQueue(s.store, store) && s.pending == from.pending
  }

  /** Settling the plan of one slot is a run: the clock moves to the draw, then an approved command is queued. */
  lemma SlotRun(cfg: QueueConfig, from: State, s: State, store: Store, signal: Signal, caps: Planner.Registry, slot: Slot, draw: Draw)
    returns (steps: seq<Step>, t: State)
    requires InStep(from, s, store) && s.now <= draw.now && draw.id !in s.usedIds
    ensures Run(cfg, AnyStep, s, steps) == Some(t) && t.now == draw.now && t.usedIds <= s.usedIds + {draw.id}
    ensures InStep(from, t, SettlePlan(store, MakePlan(signal, slot, caps, DuplicateTest(store), draw.id, draw.now), draw.now))
  {
    var p := MakePlan(signal, slot, caps, DuplicateTest(store), draw.id, draw.now);
    var u, announced := Apply(cfg, s, Tick(draw.now)), Publish(store, PlanEvent(p), draw.now);
    ApprovedIff(signal, slot, caps, DuplicateTest(store), draw.id, draw.now);
    PublishSame(u.store, store, PlanEvent(p), draw.now);
    if p.status == APPROVED {
      var c := p.commands[0];
      assert p.commands == [c];
      QueueOne(announced, c, draw.now);
      t := EnqueueIsAProtocolRun(cfg, u, c);
      AnnounceSame(u.store, announced, c, draw.now);
      steps := [Tick(draw.now)] + EnqueueSteps(u, c);
      RunCons(cfg, AnyStep, s, Tick(draw.now), EnqueueSteps(u, c));
    } else {
      assert p.commands == [];
      steps, t := [Tick(draw.now)], u;
      RunOne(cfg, AnyStep, s, Tick(draw.now));
    }
  }

  ghost predicate ClockMoves(draws: nat -> Draw) {
    forall i: nat, j: nat | i <= j :: draws(i).now <= draws(j).now
  }

  ghost predicate UnusedFrom(used: set<string>, draws: nat -> Draw, n: nat) {
    forall i: nat | i >= n :: draws(i).id !in used
  }

  lemma {:induction false} SlotsRun(
    cfg: QueueConfig, s: State, store: Store, signal: Signal, caps: Planner.Registry, slots: seq<Slot>, draws: nat -> Draw)
    returns (steps: seq<Step>, t: State)
    requires SameQueue(s.store, store) && s.now <= draws(0).now && ClockMoves(draws)
    requires DistinctDraws(draws) && UnusedFrom(s.usedIds, draws, 0)
    ensures Run(cfg, AnyStep, s, steps) == Some(t) && t.now <= draws(|slots|).now && UnusedFrom(t.usedIds, draws, |slots|)
    ensures InStep(s, t, DispatchSlots(store, signal, caps, slots, draws).store)
  {
    if slots == [] {
      steps, t := [], s;
    } else {
      var n := |slots| - 1;
      var before := DispatchSlots(store, signal, caps, slots[..n], draws).store;
      var first, u := SlotsRun(cfg, s, store, signal, caps, slots[..n], draws);
      var last, v := SlotRun(cfg, s, u, before, signal, caps, slots[n], draws(n));
      steps, t := first + last, v;
      RunAppend(cfg, AnyStep, s, first, last);
      assert draws(n).now <= draws(n + 1).now;
    }
  }

  lemma RecoverSame(s: Store, t: Store, now: int)
    requires SameQueue(s, t)
    ensures SameQueue(Recover(s, now), Recovered(t, now))
  {
    PublishSame(Recover(s, now), Recover(t, now), ExecutionRecovered, now);
  }

  /**
   A whole dispatch, from any state of the protocol and with fresh ids and a clock that does not run backwards, is a run:
   it leads to a state with the queue the dispatch leaves behind, and touches no reservation of another dispatcher.
   */
  lemma DispatchIsAProtocolRun(
    cfg: QueueConfig, s: State, store: Store, signal: Signal, caps: Planner.Registry, profiles: seq<Customer>,
    draws: nat -> Draw, now: int)
    returns (steps: seq<Step>, t: State)
    requires SameQueue(s.store, store) && s.now <= now <= draws(0).now && ClockMoves(draws)
    requires DistinctDraws(draws) && UnusedFrom(s.usedIds, draws, 0)
    ensures Run(cfg, AnyStep, s, steps) == Some(t)
    ensures InStep(s, t, DispatchAll(store, signal, caps, profiles, draws, now).store)
  {
    var opening := [Tick(now)] + [RecoverExpired];
    var u := Apply(cfg, s, Tick(now));
    var v := Apply(cfg, u, RecoverExpired);
    RunCons(cfg, AnyStep, s, Tick(now), [RecoverExpired]);
    RunOne(cfg, AnyStep, u, RecoverExpired);
    RecoverSame(u.store, store, now);
    PublishSame(v.store, Recovered(store, now), ExecutionPlanningStarted, now);
    var start := Publish(Recovered(store, now), ExecutionPlanningStarted, now);
    var rest, w := SlotsRun(cfg, v, start, signal, caps, Slots(profiles), draws);
    steps, t := opening + rest, w;
    RunAppend(cfg, AnyStep, s, opening, rest);
    PublishSame(w.store, DispatchSlots(start, signal, caps, Slots(profiles), draws).store, ExecutionPlanningCompleted, now);
  }
}
