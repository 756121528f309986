/** Dispatch accounting, and what dispatching the same signal again does. */
module ManagerProperties {
  import opened Common
  import opened ExecutionTypes
  import opened Idempotency
  import opened StoreModel
  import opened Planner
  import opened Queue
  import opened Manager

  /** Command ids are drawn fresh: different from each other and from every queued command. */
  ghost predicate FreshDraws(s: Store, draws: nat -> Draw) {
    DistinctDraws(draws) && UndrawnFrom(s.commands, draws, 0)
  }

  ghost predicate DistinctDraws(draws: nat -> Draw) {
    forall i: nat, j: nat :: i != j ==> draws(i).id != draws(j).id
  }

  /** No command has an id that is drawn at n or later. */
  ghost predicate UndrawnFrom(cs: seq<Command>, draws: nat -> Draw, n: nat) {
    forall i: nat, k | i >= n && 0 <= k < |cs| :: cs[k].commandId != draws(i).id
  }

  lemma UndrawnNext(cs: seq<Command>, more: seq<Command>, draws: nat -> Draw, n: nat)
    requires DistinctDraws(draws) && UndrawnFrom(cs, draws, n)
    requires forall c | c in more :: c.commandId == draws(n).id
    ensures UndrawnFrom(cs + more, draws, n + 1)
  {
    var all := cs + more;
    forall i: nat, k | i >= n + 1 && 0 <= k < |all|
      ensures all[k].commandId != draws(i).id
    {
      if k < |cs| {
        assert all[k] == cs[k];
      } else {
        assert all[k] in more;
      }
    }
  }

  /** The key the planner would give this slot. */
  function KeyFor(signal: Signal, slot: Slot): string {
    EntryKey(EntryFor(signal, slot))
  }

  function PlannedCommands(plans: seq<Plan>): seq<Command> {
    if plans == [] then [] else PlannedCommands(plans[..|plans| - 1]) + plans[|plans| - 1].commands
  }

  lemma EnqueueNew(s: Store, c: Command, now: int)
    requires !Known(s, c.idempotencyKey) && forall k | 0 <= k < |s.commands| :: s.commands[k].commandId != c.commandId
    ensures var t := Announced(s, c, now);
            t.commands == s.commands + [c] && t.deadLetters == s.deadLetters
            && t.duplicatePreventionCount == s.duplicatePreventionCount
            && t.dispatchHistory == s.dispatchHistory + [c.idempotencyKey]
            && t.idempotencyRecords.Keys == s.idempotencyRecords.Keys + {c.idempotencyKey}
  {
    assert Insertable(s, c);
  }

  lemma QueueOne(s: Store, c: Command, now: int)
    ensures QueueAll(s, [c], now) == Announced(s, c, now)
  {
    assert [c][..0] == [];
  }

  /** Settling one slot: an approved plan appends its command and makes its key known; any other plan touches no command. */
  lemma SlotStep(s: Store, signal: Signal, caps: Planner.Registry, slot: Slot, draw: Draw)
    requires forall k | 0 <= k < |s.commands| :: s.commands[k].commandId != draw.id
    ensures var p := MakePlan(signal, slot, caps, DuplicateTest(s), draw.id, draw.now);
            var t := SettlePlan(s, p, draw.now);
      && t.commands == s.commands + p.commands && t.deadLetters == s.deadLetters
      && t.duplicatePreventionCount == s.duplicatePreventionCount
      && (forall key :: Known(t, key) <==> Known(s, key) || (p.status == APPROVED && key == KeyFor(signal, slot)))
  {
    var p := MakePlan(signal, slot, caps, DuplicateTest(s), draw.id, draw.now);
    ApprovedIff(signal, slot, caps, DuplicateTest(s), draw.id, draw.now);
    var u := Publish(s, PlanEvent(p), draw.now);
    if p.status == APPROVED {
      var c := p.commands[0];
      assert p.commands == [c];
      QueueOne(u, c, draw.now);
      assert !Known(s, c.idempotencyKey);
      EnqueueNew(u, c, draw.now);
      var t := SettlePlan(s, p, draw.now);
      assert t == Announced(u, c, draw.now);
      KnownAfterNew(s, t, c);
    } else {
      assert p.commands == [];
    }
  }

  lemma KnownAfterNew(s: Store, t: Store, c: Command)
    requires t.commands == s.commands + [c] && t.dispatchHistory == s.dispatchHistory + [c.idempotencyKey]
    requires t.idempotencyRecords.Keys == s.idempotencyRecords.Keys + {c.idempotencyKey}
    ensures forall key :: Known(t, key) <==> Known(s, key) || key == c.idempotencyKey
  {
    forall key
      ensures Known(t, key) <==> Known(s, key) || key == c.idempotencyKey
    {
      if i :| 0 <= i < |s.commands| && s.commands[i].idempotencyKey == key {
        assert t.commands[i].idempotencyKey == key;
      }
    }
  }

  ghost predicate OneCommandIfApproved(plans: seq<Plan>) {
    forall k | 0 <= k < |plans| :: |plans[k].commands| == if plans[k].status == APPROVED then 1 else 0
  }

  lemma {:induction false} PlanCounts(plans: seq<Plan>)
    requires OneCommandIfApproved(plans)
    ensures QueuedCommands(plans) == CountStatus(plans, APPROVED) == |PlannedCommands(plans)|
    ensures CountStatus(plans, APPROVED) + CountStatus(plans, REJECTED) + CountStatus(plans, DEFERRED) == |plans|
  {
    if plans != [] {
      PlanCounts(plans[..|plans| - 1]);
    }
  }

  /** What a dispatch of some slots has done so far. */
  ghost predicate SoFar(s: Store, at: Progress, draws: nat -> Draw, n: nat) {
    && |at.plans| == n && OneCommandIfApproved(at.plans)
    && at.store.commands == s.commands + PlannedCommands(at.plans)
    && at.store.deadLetters == s.deadLetters && at.store.duplicatePreventionCount == s.duplicatePreventionCount
    && UndrawnFrom(at.store.commands, draws, n)
  }

  /** Each slot was planned against the store its predecessors left, and every queued id is an old or a drawn one. */
  lemma {:induction false} DispatchFacts(s: Store, signal: Signal, caps: Planner.Registry, slots: seq<Slot>, draws: nat -> Draw)
    requires FreshDraws(s, draws)
    ensures SoFar(s, DispatchSlots(s, signal, caps, slots, draws), draws, |slots|)
  {
    if slots != [] {
      var n := |slots| - 1;
      DispatchFacts(s, signal, caps, slots[..n], draws);
      SoFarNext(s, DispatchSlots(s, signal, caps, slots[..n], draws), signal, caps, slots[n], draws, n);
    }
  }

  lemma SoFarNext(s: Store, before: Progress, signal: Signal, caps: Planner.Registry, slot: Slot, draws: nat -> Draw, n: nat)
    requires DistinctDraws(draws) && SoFar(s, before, draws, n)
    ensures SoFar(s, DispatchSlot(before, signal, caps, slot, draws(n)), draws, n + 1)
  {
    DispatchFactsStep(before, signal, caps, slot, draws(n));
    var p := MakePlan(signal, slot, caps, DuplicateTest(before.store), draws(n).id, draws(n).now);
    UndrawnNext(before.store.commands, p.commands, draws, n);
  }

  lemma DispatchFactsStep(before: Progress, signal: Signal, caps: Planner.Registry, slot: Slot, draw: Draw)
    requires OneCommandIfApproved(before.plans)
    requires forall k | 0 <= k < |before.store.commands| :: before.store.commands[k].commandId != draw.id
    ensures var at := DispatchSlot(before, signal, caps, slot, draw);
            var p := MakePlan(signal, slot, caps, DuplicateTest(before.store), draw.id, draw.now);
      && at.plans == before.plans + [p] && OneCommandIfApproved(at.plans)
      && at.store.commands == before.store.commands + p.commands
      && PlannedCommands(at.plans) == PlannedCommands(before.plans) + p.commands
      && at.store.deadLetters == before.store.deadLetters
      && at.store.duplicatePreventionCount == before.store.duplicatePreventionCount
      && (forall c | c in p.commands :: c.commandId == draw.id)
  {
    SlotStep(before.store, signal, caps, slot, draw);
    ApprovedIff(signal, slot, caps, DuplicateTest(before.store), draw.id, draw.now);
    var p := MakePlan(signal, slot, caps, DuplicateTest(before.store), draw.id, draw.now);
    assert (before.plans + [p])[..|before.plans|] == before.plans;
  }

  /**
   Accounting is exact: every slot is approved, rejected or deferred, the approved ones are the queued commands,
   and they are what the dispatch appended to the queue, in order, after recovering leases.
   */
  lemma DispatchAccounting(
    s: Store, signal: Signal, caps: Planner.Registry, profiles: seq<Customer>, draws: nat -> Draw, now: int)
    requires FreshDraws(s, draws)
    ensures var end := DispatchAll(s, signal, caps, profiles, draws, now);
            var r := ReportOf(end.plans);
      && r.approved + r.rejected + r.deferred == |r.plans| == |Slots(profiles)|
      && r.approved == |Places(r.plans, APPROVED)|
      && r.rejected == |Places(r.plans, REJECTED)|
      && r.deferred == |Places(r.plans, DEFERRED)|
      && r.queuedCommands == r.approved == |end.store.commands| - |s.commands|
      && end.store.commands == RecoverAll(s.commands, now) + PlannedCommands(r.plans)
      && end.store.deadLetters == s.deadLetters && end.store.duplicatePreventionCount == s.duplicatePreventionCount
  {
    var start := Publish(Recovered(s, now), ExecutionPlanningStarted, now);
    RecoverKeepsFresh(s, draws, now);
    DispatchFacts(start, signal, caps, Slots(profiles), draws);
    var plans := DispatchSlots(start, signal, caps, Slots(profiles), draws).plans;
    PlanCounts(plans);
    CountsArePlaces(plans, APPROVED);
    CountsArePlaces(plans, REJECTED);
    CountsArePlaces(plans, DEFERRED);
  }

  /** The places at which a list of plans has this status. */
  function Places(plans: seq<Plan>, status: PlanStatus): set<int> {
    set k | 0 <= k < |plans| && plans[k].status == status
  }

  lemma PlacesPush(plans: seq<Plan>, p: Plan, status: PlanStatus)
    ensures Places(plans + [p], status) == Places(plans, status) + if p.status == status then {|plans|} else {}
    ensures |Places(plans + [p], status)| == |Places(plans, status)| + if p.status == status then 1 else 0
  {
    assert |plans| !in Places(plans, status);
    assert Places(plans + [p], status) == Places(plans, status) + if p.status == status then {|plans|} else {};
  }

  lemma {:induction false} CountsArePlaces(plans: seq<Plan>, status: PlanStatus)
    ensures CountStatus(plans, status) == |Places(plans, status)|
  {
    if plans != [] {
      var front, last := plans[..|plans| - 1], plans[|plans| - 1];
      CountsArePlaces(front, status);
      PlacesPush(front, last, status);
      assert plans == front + [last];
    }
  }

  lemma RecoverKeepsFresh(s: Store, draws: nat -> Draw, now: int)
    requires FreshDraws(s, draws)
    ensures FreshDraws(Publish(Recovered(s, now), ExecutionPlanningStarted, now), draws)
    ensures Publish(Recovered(s, now), ExecutionPlanningStarted, now).commands == RecoverAll(s.commands, now)
    ensures forall key :: Known(Publish(Recovered(s, now), ExecutionPlanningStarted, now), key) <==> Known(s, key)
  {
    var t := Publish(Recovered(s, now), ExecutionPlanningStarted, now);
    forall k | 0 <= k < |s.commands|
      ensures t.commands[k].commandId == s.commands[k].commandId && t.commands[k].idempotencyKey == s.commands[k].idempotencyKey
    {
      assert t.commands[k] == RecoverOne(s.commands[k], now);
    }
    forall key
      ensures Known(t, key) <==> Known(s, key)
    {
      if i :| 0 <= i < |s.commands| && s.commands[i].idempotencyKey == key {
        assert t.commands[i].idempotencyKey == key;
      }
      if i :| 0 <= i < |t.commands| && t.commands[i].idempotencyKey == key {
        assert s.commands[i].idempotencyKey == key;
      }
    }
  }

  predicate GatesOpen(signal: Signal, caps: Planner.Registry, slot: Slot, now: int) {
    Gate(signal, slot, caps, now).None?
  }

  /** Keys become known exactly for the slots whose gates were open; nothing known is forgotten. */
  lemma {:induction false} DispatchMakesKnown(
    s: Store, signal: Signal, caps: Planner.Registry, slots: seq<Slot>, draws: nat -> Draw, key: string)
    requires FreshDraws(s, draws)
    ensures Known(DispatchSlots(s, signal, caps, slots, draws).store, key)
       <==> Known(s, key) || exists k :: 0 <= k < |slots| && GatesOpen(signal, caps, slots[k], draws(k).now) && KeyFor(signal, slots[k]) == key
  {
    if slots != [] {
      var n := |slots| - 1;
      DispatchFacts(s, signal, caps, slots[..n], draws);
      DispatchMakesKnown(s, signal, caps, slots[..n], draws, key);
      var before := DispatchSlots(s, signal, caps, slots[..n], draws);
      SlotStep(before.store, signal, caps, slots[n], draws(n));
      ApprovedIff(signal, slots[n], caps, DuplicateTest(before.store), draws(n).id, draws(n).now);
      if k :| 0 <= k < n && GatesOpen(signal, caps, slots[..n][k], draws(k).now) && KeyFor(signal, slots[..n][k]) == key {
        assert slots[k] == slots[..n][k];
      }
      if k :| 0 <= k < |slots| && GatesOpen(signal, caps, slots[k], draws(k).now) && KeyFor(signal, slots[k]) == key {
        assert k < n ==> slots[..n][k] == slots[k];
      }
    }
  }

  ghost predicate AllShutOrKnown(s: Store, signal: Signal, caps: Planner.Registry, slots: seq<Slot>, draws: nat -> Draw) {
    forall k | 0 <= k < |slots| :: GatesOpen(signal, caps, slots[k], draws(k).now) ==> Known(s, KeyFor(signal, slots[k]))
  }

  /** A dispatch approves nothing iff beforehand every slot is refused by a gate or its key is already known. */
  lemma {:induction false} NothingApprovedIff(s: Store, signal: Signal, caps: Planner.Registry, slots: seq<Slot>, draws: nat -> Draw)
    requires FreshDraws(s, draws)
    ensures CountStatus(DispatchSlots(s, signal, caps, slots, draws).plans, APPROVED) == 0
       <==> AllShutOrKnown(s, signal, caps, slots, draws)
    ensures AllShutOrKnown(s, signal, caps, slots, draws) ==> DispatchSlots(s, signal, caps, slots, draws).store.commands == s.commands
  {
    DispatchFacts(s, signal, caps, slots, draws);
    if slots != [] {
      var n := |slots| - 1;
      NothingApprovedIff(s, signal, caps, slots[..n], draws);
      var before := DispatchSlots(s, signal, caps, slots[..n], draws);
      ApprovedIff(signal, slots[n], caps, DuplicateTest(before.store), draws(n).id, draws(n).now);
      DispatchMakesKnown(s, signal, caps, slots[..n], draws, KeyFor(signal, slots[n]));
      var p := MakePlan(signal, slots[n], caps, DuplicateTest(before.store), draws(n).id, draws(n).now);
      assert (before.plans + [p])[..n] == before.plans;
      ShutOrKnownSplit(s, signal, caps, slots, draws);
      assert CountStatus(before.plans + [p], APPROVED) == CountStatus(before.plans, APPROVED) + if p.status == APPROVED then 1 else 0;
    }
  }

  lemma ShutOrKnownSplit(s: Store, signal: Signal, caps: Planner.Registry, slots: seq<Slot>, draws: nat -> Draw)
    requires slots != []
    ensures AllShutOrKnown(s, signal, caps, slots, draws)
       <==> AllShutOrKnown(s, signal, caps, slots[..|slots| - 1], draws)
            && (GatesOpen(signal, caps, slots[|slots| - 1], draws(|slots| - 1).now) ==> Known(s, KeyFor(signal, slots[|slots| - 1])))
  {
    var n := |slots| - 1;
    assert forall k | 0 <= k < n :: slots[..n][k] == slots[k];
    if AllShutOrKnown(s, signal, caps, slots, draws) {
      forall k | 0 <= k < n
        ensures GatesOpen(signal, caps, slots[..n][k], draws(k).now) ==> Known(s, KeyFor(signal, slots[..n][k]))
      {
        assert slots[k] == slots[..n][k];
      }
    }
  }

  /**
   Dispatching the same signal again, from any later store that forgot no key, at clock readings that open no gate the
   first dispatch found shut: nothing is approved and no command is added.
   */
  lemma SecondDispatchApprovesNothing(
    s: Store, t: Store, signal: Signal, caps: Planner.Registry, profiles: seq<Customer>,
    draws: nat -> Draw, now: int, again: nat -> Draw, later: int)
    requires FreshDraws(s, draws) && FreshDraws(t, again)
    requires forall key :: Known(DispatchAll(s, signal, caps, profiles, draws, now).store, key) ==> Known(t, key)
    requires forall k | 0 <= k < |Slots(profiles)| ::
               GatesOpen(signal, caps, Slots(profiles)[k], again(k).now) ==> GatesOpen(signal, caps, Slots(profiles)[k], draws(k).now)
    ensures var end := DispatchAll(t, signal, caps, profiles, again, later);
            ReportOf(end.plans).approved == 0 && ReportOf(end.plans).queuedCommands == 0
            && end.store.commands == RecoverAll(t.commands, later)
  {
    var slots := Slots(profiles);
    var start1 := Publish(Recovered(s, now), ExecutionPlanningStarted, now);
    var start2 := Publish(Recovered(t, later), ExecutionPlanningStarted, later);
    var first := DispatchSlots(start1, signal, caps, slots, draws).store;
    RecoverKeepsFresh(s, draws, now);
    RecoverKeepsFresh(t, again, later);
    forall k | 0 <= k < |slots| && GatesOpen(signal, caps, slots[k], again(k).now)
      ensures Known(start2, KeyFor(signal, slots[k]))
    {
      var key := KeyFor(signal, slots[k]);
      DispatchMakesKnown(start1, signal, caps, slots, draws, key);
      assert Known(first, key);
      assert Known(DispatchAll(s, signal, caps, profiles, draws, now).store, key);
    }
    NothingApprovedIff(start2, signal, caps, slots, again);
    DispatchFacts(start2, signal, caps, slots, again);
    PlanCounts(DispatchSlots(start2, signal, caps, slots, again).plans);
  }

  // ---- Known keys, triples and announcements --------------------------------------------------------------------

  /** A key is a duplicate iff a live command has it, it was dispatched before, or it is on record. */
  lemma KnownIff(s: Store, key: string)
    ensures DuplicateTest(s)(key) <==> key in Keys(s.commands) || key in s.dispatchHistory || key in s.idempotencyRecords.Keys
  {
    var keys := Keys(s.commands);
    assert forall i | 0 <= i < |s.commands| :: keys[i] == s.commands[i].idempotencyKey;
    if i :| 0 <= i < |s.commands| && s.commands[i].idempotencyKey == key {
      assert keys[i] in keys;
    }
  }

  lemma {:induction false} AccountSlots(c: Customer, e: Executor, accounts: seq<Account>)
    ensures |SlotsOfExecutor(c, e, accounts)| == |accounts|
    ensures forall k | 0 <= k < |accounts| :: SlotsOfExecutor(c, e, accounts)[k] == Slot(c, e, accounts[k])
  {
    if accounts != [] {
      AccountSlots(c, e, accounts[..|accounts| - 1]);
    }
  }

  lemma {:induction false} ExecutorSlots(c: Customer, executors: seq<Executor>, slot: Slot)
    ensures slot in SlotsOfCustomer(c, executors)
       <==> slot.customer == c && exists j :: 0 <= j < |executors| && slot.executor == executors[j] && slot.account in executors[j].accounts
  {
    if executors != [] {
      var n := |executors| - 1;
      ExecutorSlots(c, executors[..n], slot);
      AccountSlots(c, executors[n], executors[n].accounts);
      assert forall j | 0 <= j < n :: executors[..n][j] == executors[j];
      if j :| 0 <= j < |executors| && slot.executor == executors[j] && slot.account in executors[j].accounts && slot.customer == c {
        if j == n {
          var k :| 0 <= k < |executors[n].accounts| && executors[n].accounts[k] == slot.account;
          assert SlotsOfExecutor(c, executors[n], executors[n].accounts)[k] == slot;
        } else {
          assert executors[..n][j] == executors[j];
        }
      }
    }
  }

  /** The slots are the accounts of the executors of the customers, each with its own executor and customer. */
  lemma {:induction false} SlotsAreTheAccounts(profiles: seq<Customer>, slot: Slot)
    ensures slot in Slots(profiles)
       <==> slot.customer in profiles && slot.executor in slot.customer.executors && slot.account in slot.executor.accounts
  {
    if profiles != [] {
      var n := |profiles| - 1;
      SlotsAreTheAccounts(profiles[..n], slot);
      ExecutorSlots(profiles[n], profiles[n].executors, slot);
      assert profiles == profiles[..n] + [profiles[n]];
    }
  }

  /** What settling a plan announces: its verdict, and for an approved one whether its command was queued. */
  lemma SettleAnnounces(s: Store, signal: Signal, caps: Planner.Registry, slot: Slot, draw: Draw, p: Plan)
    requires p == MakePlan(signal, slot, caps, DuplicateTest(s), draw.id, draw.now)
    ensures Kinds(SettlePlan(s, p, draw.now))
         == Kinds(s) + match p.status
                       case REJECTED => [ExecutionPlanRejected]
                       case DEFERRED => [ExecutionPlanDeferred]
                       case APPROVED =>
                         if draw.id in Ids(s.commands) then [ExecutionPlanApproved, CommandDuplicatePrevented]
                         else [ExecutionPlanApproved, CommandQueued]
  {
    ApprovedIff(signal, slot, caps, DuplicateTest(s), draw.id, draw.now);
    var u := Publish(s, PlanEvent(p), draw.now);
    if p.status == APPROVED {
      var c := p.commands[0];
      assert p.commands == [c];
      QueueOne(u, c, draw.now);
      assert !Known(s, c.idempotencyKey);
      ApprovedIsQueuedIff(u, c, draw.now);
    } else {
      assert p.commands == [];
    }
  }

  lemma ApprovedIsQueuedIff(s: Store, c: Command, now: int)
    requires !Known(s, c.idempotencyKey)
    ensures Kinds(Announced(s, c, now)) == Kinds(s) + [if c.commandId in Ids(s.commands) then CommandDuplicatePrevented else CommandQueued]
  {
    var ids := Ids(s.commands);
    assert forall i | 0 <= i < |s.commands| :: ids[i] == s.commands[i].commandId;
    if i :| 0 <= i < |s.commands| && s.commands[i].commandId == c.commandId {
      assert ids[i] in ids;
    }
  }

  lemma AnnouncedAddsOne(s: Store, c: Command, now: int)
    ensures exists k :: Kinds(Announced(s, c, now)) == Kinds(s) + [k]
  {
    var t := Enqueued(s, c, now);
    assert t.events == s.events;
    PublishAnnounces(t, CommandQueued, now);
    PublishAnnounces(t, CommandDuplicatePrevented, now);
  }

  lemma QueueingKeepsHistory(s: Store, cs: seq<Command>, now: int)
    ensures Kinds(s) <= Kinds(QueueAll(s, cs, now))
  {
    if cs != [] {
      QueueingKeepsHistory(s, cs[..|cs| - 1], now);
      AnnouncedAddsOne(QueueAll(s, cs[..|cs| - 1], now), cs[|cs| - 1], now);
    }
  }

  lemma {:induction false} SlotsKeepHistory(s: Store, signal: Signal, caps: Planner.Registry, slots: seq<Slot>, draws: nat -> Draw)
    ensures Kinds(s) <= Kinds(DispatchSlots(s, signal, caps, slots, draws).store)
  {
    if slots != [] {
      var n := |slots| - 1;
      SlotsKeepHistory(s, signal, caps, slots[..n], draws);
      var at := DispatchSlots(s, signal, caps, slots[..n], draws);
      var p := MakePlan(signal, slots[n], caps, DuplicateTest(at.store), draws(n).id, draws(n).now);
      PublishAnnounces(at.store, PlanEvent(p), draws(n).now);
      QueueingKeepsHistory(Publish(at.store, PlanEvent(p), draws(n).now), p.commands, draws(n).now);
    }
  }

  /** A dispatch announces a recovery only when there was one, then its start, and its completion last. */
  lemma {:induction false} DispatchIsFramed(
    s: Store, signal: Signal, caps: Planner.Registry, profiles: seq<Customer>, draws: nat -> Draw, now: int)
    ensures var before := Kinds(s) + (if StrandedCount(s.commands, now) == 0 then [] else [ExecutionRecovered]) + [ExecutionPlanningStarted];
            var after := Kinds(DispatchAll(s, signal, caps, profiles, draws, now).store);
            |before| < |after| && before <= after && after[|after| - 1] == ExecutionPlanningCompleted
  {
    assert Recover(s, now).events == s.events;
    PublishAnnounces(Recover(s, now), ExecutionRecovered, now);
    PublishAnnounces(Recovered(s, now), ExecutionPlanningStarted, now);
    var start := Publish(Recovered(s, now), ExecutionPlanningStarted, now);
    var end := DispatchSlots(start, signal, caps, Slots(profiles), draws).store;
    SlotsKeepHistory(start, signal, caps, Slots(profiles), draws);
    PublishAnnounces(end, ExecutionPlanningCompleted, now);
  }
}
