/**
 Runs without lease discipline, for any planned order: worker w1 is still in its adapter call when its lease runs out and
 w2 takes the command over. Both are then in flight at once. If w2 completes it and w1's call fails afterwards, the
 completed command is rescheduled, leased again and sent to its adapter once more.
 */
module ProtocolStaleWorker {
  import opened Common
  import opened ExecutionTypes
  import opened StoreModel
  import opened QueueModel
  import opened Protocol
  import opened ProtocolSafety
  import opened ProtocolDiscipline

  const CONFIG := QueueConfig(30000, 5)

  /** States of the run: the order stands as `c`, the workers remember `jobs`. */
  function Single(order: Command, now: int, c: Command, jobs: seq<Job>, h: map<string, Tally>, recoveries: nat): State {
    State(now,
          Store([c], [], [order.idempotencyKey], [],
                map[order.idempotencyKey := IdempotencyRecord(order.commandId, 0, None)], recoveries, 0),
          [], {order.commandId}, [order], jobs, h)
  }

  function At(c: Command, now: int, status: Status): Command {
    c.(status := status, updatedAt := now)
  }

  function HeldBy(c: Command, worker: string, now: int): Command {
    c.(status := Leased, updatedAt := now, leasedBy := Some(worker), leaseExpiration := Some(now + 30000))
  }

  predicate OwnLease(now: int, c: Command, g: Tally, job: Job) {
    c.leasedBy == Some(job.worker) && c.leaseExpiration.Some? && now < c.leaseExpiration.value && job.grant == g.grants
  }

  /** Extending a run by one more step. */
  lemma Extend(rule: Rule, steps: seq<Step>, s: State, step: Step)
    requires Reachable(CONFIG, rule, steps, s) && Allowed(rule, s, step)
    ensures Reachable(CONFIG, rule, steps + [step], Apply(CONFIG, s, step))
  {
    RunAppend(CONFIG, rule, INIT, steps, [step]);
    RunOne(CONFIG, rule, s, step);
  }

  lemma Accepts(rule: Rule, order: Command) returns (steps: seq<Step>)
    requires Planned(order)
    ensures Reachable(CONFIG, rule, steps, Single(order, 0, order, [], map[], 0))
  {
    Extend(rule, [], INIT, Reserve(order));
    var s := Apply(CONFIG, INIT, Reserve(order));
    Extend(rule, [] + [Reserve(order)], s, Insert(0));
    steps := [] + [Reserve(order)] + [Insert(0)];
    var t := Apply(CONFIG, s, Insert(0));
    assert t.pending == [] && t.store.commands == [order];
    assert t.accepted == [order] && t.usedIds == {order.commandId};
    assert t.store.dispatchHistory == [order.idempotencyKey];
    assert t == Single(order, 0, order, [], map[], 0);
  }

  lemma Leases(rule: Rule, order: Command, now: int, c: Command, jobs: seq<Job>, h: map<string, Tally>, n: nat, w: string, steps: seq<Step>)
    requires c.commandId == order.commandId && IsDue(c, now)
    requires Reachable(CONFIG, rule, steps, Single(order, now, c, jobs, h, n))
    ensures var g := TallyOf(Single(order, now, c, jobs, h, n), c.commandId);
            Reachable(CONFIG, rule, steps + [Grant(w, c.commandId)],
              Single(order, now, HeldBy(c, w, now), jobs + [Job(w, c.commandId, g.grants + 1, Granted)],
                     h[c.commandId := g.(grants := g.grants + 1)], n))
  {
    var s := Single(order, now, c, jobs, h, n);
    Extend(rule, steps, s, Grant(w, c.commandId));
    assert Apply(CONFIG, s, Grant(w, c.commandId)).store.commands == [HeldBy(c, w, now)];
  }

  /** The status a working step writes and the phase it leads to. */
  function Marked(step: Step): (Status, Phase)
    requires step.Begin? || step.Send? || step.Answer? || step.Verify?
  {
    match step
    case Begin(_) => (Started, Begun)
    case Send(_) => (Sent, Executing)
    case Answer(_, _) => (Acknowledged, Answered)
    case _ => (Verified, Checked)
  }

  lemma Works(rule: Rule, order: Command, now: int, c: Command, jobs: seq<Job>, h: map<string, Tally>, n: nat, step: Step, steps: seq<Step>)
    requires c.commandId == order.commandId && (forall job | job in jobs :: job.commandId == c.commandId)
    requires step.Begin? || step.Send? || (step.Answer? && step.acknowledged) || step.Verify?
    requires Enabled(Single(order, now, c, jobs, h, n), step)
    requires !rule.AnyStep? ==> OwnLease(now, c, TallyOf(Single(order, now, c, jobs, h, n), c.commandId), jobs[JobIndex(step)])
    requires Reachable(CONFIG, rule, steps, Single(order, now, c, jobs, h, n))
    ensures var j := JobIndex(step);
            (var g := TallyOf(Single(order, now, c, jobs, h, n), c.commandId);
             Reachable(CONFIG, rule, steps + [step],
               Single(order, now, At(c, now, Marked(step).0), jobs[j := jobs[j].(phase := Marked(step).1)],
                      if step.Send? then h[c.commandId := g.(executions := g.executions + 1)] else h, n)))
  {
    assert jobs[JobIndex(step)] in jobs;
    var s := Single(order, now, c, jobs, h, n);
    Extend(rule, steps, s, step);
    assert Apply(CONFIG, s, step).store.commands == [At(c, now, Marked(step).0)];
  }

  lemma Finishes(order: Command, now: int, c: Command, jobs: seq<Job>, h: map<string, Tally>, n: nat, j: nat, steps: seq<Step>)
    requires c.commandId == order.commandId && j < |jobs| && jobs[j].commandId == c.commandId && jobs[j].phase.Checked?
    requires Reachable(CONFIG, AnyStep, steps, Single(order, now, c, jobs, h, n))
    ensures Reachable(CONFIG, AnyStep, steps + [Complete(j)],
              Single(order, now, At(c, now, Completed), RemoveAt(jobs, j), h, n))
  {
    var s := Single(order, now, c, jobs, h, n);
    Extend(AnyStep, steps, s, Complete(j));
    assert Apply(CONFIG, s, Complete(j)).store.commands == [At(c, now, Completed)];
  }

  lemma Recovers(rule: Rule, order: Command, c: Command, jobs: seq<Job>, g: Tally, steps: seq<Step>)
    requires !rule.CheckLeaseInTime? && c.commandId == order.commandId && c.status.Sent? && c.leaseExpiration == Some(30000)
    requires Reachable(CONFIG, rule, steps, Single(order, 0, c, jobs, map[c.commandId := g], 0))
    ensures Reachable(CONFIG, rule, steps + [Tick(30000)] + [RecoverExpired],
              Single(order, 30000, Requeue(c), jobs, map[c.commandId := g.(recoveries := g.recoveries + 1)], 1))
  {
    Extend(rule, steps, Single(order, 0, c, jobs, map[c.commandId := g], 0), Tick(30000));
    var s := Single(order, 30000, c, jobs, map[c.commandId := g], 0);
    Extend(rule, steps + [Tick(30000)], s, RecoverExpired);
    assert StrandedIds([c], 30000) == {c.commandId} by {
      assert [c][0].commandId == c.commandId;
    }
    assert RecoverAll([c], 30000) == [Requeue(c)];
    assert StrandedCount([c], 30000) == 1 by {
      CountSingle(c, (d: Command) => Stranded(d, 30000));
    }
    assert CountRecoveries(map[c.commandId := g], {c.commandId}) == map[c.commandId := g.(recoveries := g.recoveries + 1)];
  }

  lemma FailApplied(order: Command, c: Command, jobs: seq<Job>, h: map<string, Tally>)
    requires c.commandId == order.commandId && c.retryCount == 0 && |jobs| >= 1 && jobs[0].commandId == c.commandId
    ensures Apply(CONFIG, Single(order, 30000, c, jobs, h, 1), Fail(0, None, Network))
         == Single(order, 30000, ApplyPatch(c, RetryPatch(1, 31000, None, Network), 30000), RemoveAt(jobs, 0), h, 1)
  {
    var s := Single(order, 30000, c, jobs, h, 1);
    assert Has([c], c.commandId) && Get([c], c.commandId) == c;
    assert !GivesUp(c, Network, CONFIG);
    var p := RetryPatch(1, 31000, None, Network);
    assert ScheduleRetry(s.store, c.commandId, None, None, Network, CONFIG, 30000) == UpdateCommand(s.store, c.commandId, p, 30000);
    assert UpdateCommands([c], c.commandId, p, 30000) == [ApplyPatch(c, p, 30000)];
  }

  lemma FailsLate(order: Command, c: Command, jobs: seq<Job>, h: map<string, Tally>, steps: seq<Step>)
    requires c.commandId == order.commandId && c.retryCount == 0 && |jobs| >= 1 && jobs[0].commandId == c.commandId
    requires Reachable(CONFIG, AnyStep, steps, Single(order, 30000, c, jobs, h, 1))
    ensures Reachable(CONFIG, AnyStep, steps + [Fail(0, None, Network)] + [Tick(31000)],
              Single(order, 31000, ApplyPatch(c, RetryPatch(1, 31000, None, Network), 30000), RemoveAt(jobs, 0), h, 1))
  {
    FailApplied(order, c, jobs, h);
    var d := ApplyPatch(c, RetryPatch(1, 31000, None, Network), 30000);
    Extend(AnyStep, steps, Single(order, 30000, c, jobs, h, 1), Fail(0, None, Network));
    Extend(AnyStep, steps + [Fail(0, None, Network)], Single(order, 30000, d, RemoveAt(jobs, 0), h, 1), Tick(31000));
  }

  /** A worker alone with its lease begins and calls the adapter. */
  lemma Sends(rule: Rule, order: Command, now: int, c: Command, job: Job, g: Tally, n: nat, before: seq<Step>) returns (d: Command)
    requires c.commandId == order.commandId && job.commandId == c.commandId && job.phase.Granted? && OwnLease(now, c, g, job)
    requires Reachable(CONFIG, rule, before, Single(order, now, c, [job], map[c.commandId := g], n))
    ensures d == At(At(c, now, Started), now, Sent)
    ensures Reachable(CONFIG, rule, before + [Begin(0)] + [Send(0)],
              Single(order, now, d, [job.(phase := Executing)], map[c.commandId := g.(executions := g.executions + 1)], n))
  {
    d := WorksTo(rule, order, now, c, [job], g, n, Begin(0), before);
    assert [job][0 := job.(phase := Begun)] == [job.(phase := Begun)];
    d := WorksTo(rule, order, now, d, [job.(phase := Begun)], g, n, Send(0), before + [Begin(0)]);
    assert [job.(phase := Begun)][0 := job.(phase := Executing)] == [job.(phase := Executing)];
  }

  /** With no other job around, a worker leases the command and calls the adapter. */
  lemma LeasesAndSends(rule: Rule, order: Command, now: int, c: Command, h: map<string, Tally>, n: nat, w: string, before: seq<Step>)
    returns (steps: seq<Step>, d: Command)
    requires c.commandId == order.commandId && IsDue(c, now) && h.Keys <= {c.commandId}
    requires Reachable(CONFIG, rule, before, Single(order, now, c, [], h, n))
    ensures steps == before + [Grant(w, c.commandId), Begin(0), Send(0)]
    ensures d == At(At(HeldBy(c, w, now), now, Started), now, Sent)
    ensures var g := TallyOf(Single(order, now, c, [], h, n), c.commandId);
            Reachable(CONFIG, rule, steps,
              Single(order, now, d, [Job(w, c.commandId, g.grants + 1, Executing)],
                     map[c.commandId := g.(grants := g.grants + 1, executions := g.executions + 1)], n))
  {
    var id, g := c.commandId, TallyOf(Single(order, now, c, [], h, n), c.commandId);
    var leased := g.(grants := g.grants + 1);
    var job := Job(w, id, leased.grants, Granted);
    Leases(rule, order, now, c, [], h, n, w, before);
    assert [] + [job] == [job] && h[id := leased] == map[id := leased];
    d := Sends(rule, order, now, HeldBy(c, w, now), job, leased, n, before + [Grant(w, id)]);
    steps := before + [Grant(w, id)] + [Begin(0)] + [Send(0)];
    assert steps == before + [Grant(w, id), Begin(0), Send(0)];
  }

  /** w1 leases the order and is in its adapter call when the lease runs out and the command is recovered. */
  lemma FirstWorkerStalls(rule: Rule, order: Command) returns (steps: seq<Step>, c: Command)
    requires !rule.CheckLeaseInTime? && Planned(order)
    ensures c == Requeue(At(At(HeldBy(order, "w1", 0), 0, Started), 0, Sent))
    ensures Reachable(CONFIG, rule, steps,
              Single(order, 30000, c, [Job("w1", order.commandId, 1, Executing)], map[order.commandId := Tally(1, 1, 1, 0)], 1))
  {
    steps := Accepts(rule, order);
    steps, c := LeasesAndSends(rule, order, 0, order, map[], 0, "w1", steps);
    Recovers(rule, order, c, [Job("w1", order.commandId, 1, Executing)], Tally(1, 1, 0, 0), steps);
    steps := steps + [Tick(30000)] + [RecoverExpired];
    c := Requeue(c);
  }

  /** First half: w1's lease expires in its adapter call, w2 calls the adapter again and completes the command. */
  lemma CompletedByTheSecondWorker(order: Command) returns (steps: seq<Step>, c: Command)
    requires Planned(order)
    ensures c.commandId == order.commandId && c.status.Completed? && c.retryCount == 0
    ensures Reachable(CONFIG, AnyStep, steps,
              Single(order, 30000, c, [Job("w1", order.commandId, 1, Executing)], map[order.commandId := Tally(2, 2, 1, 0)], 1))
  {
    var id := order.commandId;
    var first, w2 := Job("w1", id, 1, Executing), Job("w2", id, 2, Granted);
    steps, c := FirstWorkerStalls(AnyStep, order);
    Leases(AnyStep, order, 30000, c, [first], map[id := Tally(1, 1, 1, 0)], 1, "w2", steps);
    steps := steps + [Grant("w2", id)];
    assert map[id := Tally(1, 1, 1, 0)][id := Tally(2, 1, 1, 0)] == map[id := Tally(2, 1, 1, 0)];
    steps, c := SecondWorkerWorks(order, HeldBy(c, "w2", 30000), first, w2, steps);
  }

  /**
   The second worker begins while the first one is still in its adapter call: two jobs act on one command,
   although both checked their lease before every step.
   */
  lemma TwoWorkersInFlight(order: Command) returns (steps: seq<Step>, s: State)
    requires Planned(order)
    ensures Reachable(CONFIG, CheckLease, steps, s) && |s.jobs| == 2 && s.jobs[0].worker != s.jobs[1].worker
    ensures Acting(s.jobs[0]) && Acting(s.jobs[1]) && s.jobs[0].commandId == s.jobs[1].commandId == order.commandId
  {
    var id := order.commandId;
    var first, w2 := Job("w1", id, 1, Executing), Job("w2", id, 2, Granted);
    var c: Command;
    steps, c := FirstWorkerStalls(CheckLease, order);
    Leases(CheckLease, order, 30000, c, [first], map[id := Tally(1, 1, 1, 0)], 1, "w2", steps);
    steps := steps + [Grant("w2", id)];
    assert map[id := Tally(1, 1, 1, 0)][id := Tally(2, 1, 1, 0)] == map[id := Tally(2, 1, 1, 0)];
    var jobs := [first] + [w2];
    c := WorksTo(CheckLease, order, 30000, HeldBy(c, "w2", 30000), jobs, Tally(2, 1, 1, 0), 1, Begin(1), steps);
    steps := steps + [Begin(1)];
    s := Single(order, 30000, c, jobs[1 := jobs[1].(phase := Begun)], map[id := Tally(2, 1, 1, 0)], 1);
  }

  lemma WorksTo(rule: Rule, order: Command, now: int, c: Command, jobs: seq<Job>, g: Tally, n: nat, step: Step, steps: seq<Step>) returns (d: Command)
    requires c.commandId == order.commandId && (forall job | job in jobs :: job.commandId == c.commandId)
    requires step.Begin? || step.Send? || (step.Answer? && step.acknowledged) || step.Verify?
    requires Enabled(Single(order, now, c, jobs, map[c.commandId := g], n), step)
    requires !rule.AnyStep? ==> OwnLease(now, c, g, jobs[JobIndex(step)])
    requires Reachable(CONFIG, rule, steps, Single(order, now, c, jobs, map[c.commandId := g], n))
    ensures d == At(c, now, Marked(step).0)
    ensures Reachable(CONFIG, rule, steps + [step],
              Single(order, now, d, jobs[JobIndex(step) := jobs[JobIndex(step)].(phase := Marked(step).1)],
                     map[c.commandId := if step.Send? then g.(executions := g.executions + 1) else g], n))
  {
    d := At(c, now, Marked(step).0);
    Works(rule, order, now, c, jobs, map[c.commandId := g], n, step, steps);
    assert map[c.commandId := g][c.commandId := g.(executions := g.executions + 1)] == map[c.commandId := g.(executions := g.executions + 1)];
  }

  lemma SecondWorkerWorks(order: Command, c0: Command, first: Job, w2: Job, steps0: seq<Step>) returns (steps: seq<Step>, c: Command)
    requires c0.commandId == order.commandId && first.commandId == order.commandId && c0.retryCount == 0
    requires w2 == Job("w2", order.commandId, 2, Granted)
    requires Reachable(CONFIG, AnyStep, steps0, Single(order, 30000, c0, [first] + [w2], map[order.commandId := Tally(2, 1, 1, 0)], 1))
    ensures c.commandId == order.commandId && c.status.Completed? && c.retryCount == 0
    ensures Reachable(CONFIG, AnyStep, steps, Single(order, 30000, c, [first], map[order.commandId := Tally(2, 2, 1, 0)], 1))
  {
    var now := 30000;
    steps, c := steps0, c0;
    var jobs := [first] + [w2];
    c := WorksTo(AnyStep, order, now, c, jobs, Tally(2, 1, 1, 0), 1, Begin(1), steps);
    steps, jobs := steps + [Begin(1)], jobs[1 := jobs[1].(phase := Begun)];
    c := WorksTo(AnyStep, order, now, c, jobs, Tally(2, 1, 1, 0), 1, Send(1), steps);
    steps, jobs := steps + [Send(1)], jobs[1 := jobs[1].(phase := Executing)];
    c := WorksTo(AnyStep, order, now, c, jobs, Tally(2, 2, 1, 0), 1, Answer(1, true), steps);
    steps, jobs := steps + [Answer(1, true)], jobs[1 := jobs[1].(phase := Answered)];
    c := WorksTo(AnyStep, order, now, c, jobs, Tally(2, 2, 1, 0), 1, Verify(1), steps);
    steps, jobs := steps + [Verify(1)], jobs[1 := jobs[1].(phase := Checked)];
    Finishes(order, now, c, jobs, map[order.commandId := Tally(2, 2, 1, 0)], 1, 1, steps);
    steps, c := steps + [Complete(1)], At(c, now, Completed);
    assert RemoveAt(jobs, 1) == [first];
  }

  /** For any planned order: a reachable state in which it is completed, and a continuation that calls the adapter again. */
  lemma StaleWorkerReopensCompleted(order: Command)
    returns (before: seq<Step>, s: State, after: seq<Step>, t: State)
    requires Planned(order)
    ensures Reachable(CONFIG, AnyStep, before, s) && Done(s, order.commandId)
    ensures Reachable(CONFIG, AnyStep, before + after, t) && !Done(t, order.commandId)
    ensures TallyOf(t, order.commandId).executions == TallyOf(s, order.commandId).executions + 1
  {
    var id := order.commandId;
    var c: Command;
    before, c := CompletedByTheSecondWorker(order);
    var jobs := [Job("w1", id, 1, Executing)];
    s := Single(order, 30000, c, jobs, map[id := Tally(2, 2, 1, 0)], 1);
    FailsLate(order, c, jobs, map[id := Tally(2, 2, 1, 0)], before);
    var d := ApplyPatch(c, RetryPatch(1, 31000, None, Network), 30000);
    assert RemoveAt(jobs, 0) == [];
    var late := [Fail(0, None, Network)] + [Tick(31000)];
    assert before + [Fail(0, None, Network)] + [Tick(31000)] == before + late;
    var steps, e := LeasesAndSends(AnyStep, order, 31000, d, map[id := Tally(2, 2, 1, 0)], 1, "w1", before + late);
    t := Single(order, 31000, e, [Job("w1", id, 3, Executing)], map[id := Tally(3, 3, 1, 0)], 1);
    after := late + [Grant("w1", id), Begin(0), Send(0)];
    assert steps == before + after;
  }
}
