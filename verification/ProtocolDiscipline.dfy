/**
 What lease discipline buys. Checking the lease before every working step makes completion final, however late a worker
 comes back. If work also never outlives its lease, at most one worker is in flight per command.
 The last part says exactly which single steps break either property without discipline.
 */
module ProtocolDiscipline {
  import opened Common
  import opened ExecutionTypes
  import opened StoreModel
  import opened QueueModel
  import opened Protocol
  import opened ProtocolInvariants
  import opened ProtocolBudget
  import opened ProtocolSafety

  // ---- What the store shows of one command ---------------------------------------------------------------------

  function View(cs: seq<Command>, id: string): Option<Command> {
    if Has(cs, id) then Some(Get(cs, id)) else None
  }

  lemma ViewAfterUpdate(cs: seq<Command>, id: string, p: Patch, now: int, other: string)
    ensures View(UpdateCommands(cs, id, p, now), other)
         == if other == id && Has(cs, id) then Some(ApplyPatch(Get(cs, id), p, now)) else View(cs, other)
  {
    var u := UpdateCommands(cs, id, p, now);
    forall k | 0 <= k < |cs|
      ensures u[k].commandId == cs[k].commandId
    {
      assert Core(u[k]).commandId == Core(cs[k]).commandId;
    }
    SameIdsSameIndex(cs, u, other);
  }

  lemma SameIdsSameIndex(cs: seq<Command>, ds: seq<Command>, id: string)
    requires |cs| == |ds| && forall k | 0 <= k < |cs| :: cs[k].commandId == ds[k].commandId
    ensures IndexOf(cs, id) == IndexOf(ds, id)
  {
    var i, j := IndexOf(cs, id), IndexOf(ds, id);
    assert i < |cs| ==> ds[i].commandId == id;
    assert j < |ds| ==> cs[j].commandId == id;
  }

  lemma {:induction false} FirstIndex(cs: seq<Command>, id: string, k: nat)
    requires k <= |cs| && (k < |cs| ==> cs[k].commandId == id)
    requires forall m | 0 <= m < k :: cs[m].commandId != id
    ensures IndexOf(cs, id) == k
  {
  }

  lemma RemovedAt(cs: seq<Command>, i: nat, m: nat)
    requires i < |cs| && m < |cs| - 1
    ensures RemoveAt(cs, i)[m] == if m < i then cs[m] else cs[m + 1]
  {
  }

  lemma {:induction false} BuriedIsGone(cs: seq<Command>, id: string)
    requires UniqueIds(cs) && Has(cs, id)
    ensures View(RemoveAt(cs, IndexOf(cs, id)), id) == None
  {
    var i := IndexOf(cs, id);
    var r := RemoveAt(cs, i);
    forall m | 0 <= m < |r|
      ensures r[m].commandId != id
    {
      RemovedAt(cs, i, m);
    }
    FirstIndex(r, id, |r|);
  }

  lemma {:induction false} OthersStay(cs: seq<Command>, i: nat, other: string)
    requires i < |cs| && cs[i].commandId != other
    ensures View(RemoveAt(cs, i), other) == View(cs, other)
  {
    var r, n := RemoveAt(cs, i), IndexOf(cs, other);
    var k := if n < i then n else n - 1;
    forall m | 0 <= m < |r|
      ensures r[m] == if m < i then cs[m] else cs[m + 1]
    {
      RemovedAt(cs, i, m);
    }
    FirstIndex(r, other, k);
  }

  lemma {:induction false} ViewAfterBury(s: Store, id: string, other: string)
    requires UniqueIds(s.commands) && Has(s.commands, id)
    ensures View(MoveToDeadLetter(s, id).commands, other) == if other == id then None else View(s.commands, other)
  {
    if other == id {
      BuriedIsGone(s.commands, id);
    } else {
      OthersStay(s.commands, IndexOf(s.commands, id), other);
    }
  }

  lemma ViewAfterInsert(cs: seq<Command>, c: Command, other: string)
    requires other != c.commandId
    ensures View(cs + [c], other) == View(cs, other)
  {
    var k := IndexOf(cs + [c], other);
    var n := IndexOf(cs, other);
    if n < |cs| {
      assert (cs + [c])[n].commandId == other;
    }
  }

  lemma ViewAfterRecover(cs: seq<Command>, now: int, id: string)
    ensures View(RecoverAll(cs, now), id)
         == match View(cs, id) case None => None case Some(c) => Some(RecoverOne(c, now))
  {
    var r := RecoverAll(cs, now);
    assert forall k | 0 <= k < |cs| :: r[k] == RecoverOne(cs[k], now);
    SameIdsSameIndex(cs, r, id);
  }

  // ---- Which command a step is about ---------------------------------------------------------------------------

  /** The command a step reads, patches, or works for; recovery and the clock concern all of them. */
  function Subject(s: State, step: Step): Option<string>
    requires Enabled(s, step)
  {
    match step
    case Insert(i) => Some(s.pending[i].commandId)
    case Grant(_, id) => Some(id)
    case Renew(_, id) => Some(id)
    case Release(_, id) => Some(id)
    case Begin(j) => Some(s.jobs[j].commandId)
    case Send(j) => Some(s.jobs[j].commandId)
    case Answer(j, _) => Some(s.jobs[j].commandId)
    case Verify(j) => Some(s.jobs[j].commandId)
    case Complete(j) => Some(s.jobs[j].commandId)
    case Fail(j, _, _) => Some(s.jobs[j].commandId)
    case CrashJob(j) => Some(s.jobs[j].commandId)
    case _ => None
  }

  /** What a failure leaves of the commands: the one it hits is rescheduled without a holder, or gone. */
  lemma FailView(cfg: QueueConfig, s: State, step: Step, id: string)
    requires Registry(s) && step.Fail? && Enabled(s, step)
    ensures var hit := s.jobs[step.j].commandId;
            var v := View(Apply(cfg, s, step).store.commands, id);
            if id != hit then v == View(s.store.commands, id)
            else v.None? || (v.value.leasedBy.None? && v.value.status.RetryScheduled?)
  {
    var hit := s.jobs[step.j].commandId;
    if Has(s.store.commands, hit) {
      HeldDistinct(s);
      var c := Get(s.store.commands, hit);
      var p := FailPatch(cfg, c, step.reason, step.category, s.now);
      var u := UpdateCommand(s.store, hit, p, s.now);
      FailShape(cfg, s.store, hit, step.reason, step.category, s.now);
      ViewAfterUpdate(s.store.commands, hit, p, s.now, id);
      if GivesUp(c, step.category, cfg) {
        PatchKeepsUnique(s.store.commands, hit, p, s.now);
        PatchHitsSameIndex(s.store.commands, hit, p, s.now);
        ViewAfterBury(u, hit, id);
      }
    }
  }

  lemma QuietUnseen(cfg: QueueConfig, s: State, step: Step, id: string)
    requires Enabled(s, step) && Quiet(step) && !step.RecoverExpired? && Subject(s, step) != Some(id)
    ensures View(Apply(cfg, s, step).store.commands, id) == View(s.store.commands, id)
  {
    QuietPatches(cfg, s, step);
    if TargetOf(s, step) != id {
      ViewAfterUpdate(s.store.commands, TargetOf(s, step), PatchOf(cfg, s, step), s.now, id);
    }
  }

  lemma InsertUnseen(cfg: QueueConfig, s: State, i: nat, id: string)
    requires i < |s.pending| && s.pending[i].commandId != id
    ensures View(Apply(cfg, s, Insert(i)).store.commands, id) == View(s.store.commands, id)
  {
    ViewAfterInsert(s.store.commands, s.pending[i], id);
  }

  /** A step does not show in the other commands. */
  lemma OthersUnseen(cfg: QueueConfig, s: State, step: Step, id: string)
    requires Registry(s) && Enabled(s, step) && !step.RecoverExpired? && Subject(s, step) != Some(id)
    ensures View(Apply(cfg, s, step).store.commands, id) == View(s.store.commands, id)
  {
    if step.Fail? {
      FailView(cfg, s, step, id);
    } else if step.Insert? {
      InsertUnseen(cfg, s, step.i, id);
    } else if Quiet(step) {
      QuietUnseen(cfg, s, step, id);
    }
  }

  lemma PatchKeepsUnique(cs: seq<Command>, id: string, p: Patch, now: int)
    requires UniqueIds(cs)
    ensures UniqueIds(UpdateCommands(cs, id, p, now))
  {
    var u := UpdateCommands(cs, id, p, now);
    assert forall k | 0 <= k < |cs| :: Core(u[k]).commandId == Core(cs[k]).commandId;
    forall i, j | 0 <= i < j < |u|
      ensures u[i].commandId != u[j].commandId
    {
      assert u[i].commandId == cs[i].commandId && u[j].commandId == cs[j].commandId;
    }
  }

  // ---- The invariant of disciplined runs -----------------------------------------------------------------------

  predicate PhaseFits(status: Status, phase: Phase) {
    match phase
    case Granted => status.Leased?
    case Begun => status.Started?
    case Executing => status.Sent?
    case Answered => status.Sent? || status.Acknowledged?
    case Checked => status.Verified?
  }

  /** The job's own lease is the one the command carries. */
  predicate OwnsLease(view: Option<Command>, grants: nat, job: Job) {
    view.Some? && view.value.leasedBy.Some? && job.grant == grants
  }

  /** A job whose lease stands agrees with the store; if work is in time, a job that is acting has a lease that is running. */
  predicate JobOk(rule: Rule, now: int, view: Option<Command>, grants: nat, job: Job) {
    && job.grant <= grants
    && (OwnsLease(view, grants, job) ==> view.value.leasedBy == Some(job.worker) && PhaseFits(view.value.status, job.phase))
    && (rule.CheckLeaseInTime? && Acting(job) ==>
          OwnsLease(view, grants, job) && view.value.leaseExpiration.Some? && now < view.value.leaseExpiration.value)
  }

  predicate JobOkIn(rule: Rule, s: State, job: Job) {
    JobOk(rule, s.now, View(s.store.commands, job.commandId), TallyOf(s, job.commandId).grants, job)
  }

  /** The timeout matters only to a discipline that keeps time. */
  predicate Timely(rule: Rule, cfg: QueueConfig) {
    !rule.AnyStep? && (rule.CheckLeaseInTime? ==> cfg.visibilityTimeoutMs > 0)
  }

  ghost predicate DistinctGrants(jobs: seq<Job>) {
    forall i, j | 0 <= i < j < |jobs| :: jobs[i].commandId == jobs[j].commandId ==> jobs[i].grant != jobs[j].grant
  }

  ghost predicate Orderly(rule: Rule, s: State) {
    DistinctGrants(s.jobs) && forall job | job in s.jobs :: JobOkIn(rule, s, job)
  }

  lemma GrantsKeepDistinct(rule: Rule, cfg: QueueConfig, s: State, step: Step)
    requires Orderly(rule, s) && Enabled(s, step)
    ensures DistinctGrants(Apply(cfg, s, step).jobs)
  {
    JobsStep(cfg, s, step);
    var jobs := JobsAfter(s, step);
    if step.Grant? {
      forall k | 0 <= k < |s.jobs| && s.jobs[k].commandId == step.id
        ensures s.jobs[k].grant <= TallyOf(s, step.id).grants
      {
        assert JobOkIn(rule, s, s.jobs[k]);
      }
    }
  }

  /** Jobs of other commands are not disturbed. */
  lemma OtherJobsOk(rule: Rule, cfg: QueueConfig, s: State, step: Step, job: Job)
    requires Registry(s) && Enabled(s, step) && !step.RecoverExpired? && !step.Tick?
    requires Subject(s, step) != Some(job.commandId) && JobOkIn(rule, s, job)
    ensures JobOkIn(rule, Apply(cfg, s, step), job)
  {
    OthersUnseen(cfg, s, step, job.commandId);
    TallyStep(cfg, s, step, job.commandId);
    ClockStep(cfg, s, step);
  }

  lemma ClockStep(cfg: QueueConfig, s: State, step: Step)
    requires Enabled(s, step) && !step.Tick?
    ensures Apply(cfg, s, step).now == s.now
  {
  }

  lemma TickJobOk(rule: Rule, cfg: QueueConfig, s: State, step: Step, k: nat)
    requires step.Tick? && Allowed(rule, s, step) && k < |s.jobs| && JobOkIn(rule, s, s.jobs[k])
    ensures JobOkIn(rule, Apply(cfg, s, step), s.jobs[k])
  {
  }

  lemma RecoverJobOk(rule: Rule, cfg: QueueConfig, s: State, job: Job)
    requires JobOkIn(rule, s, job)
    ensures JobOkIn(rule, Apply(cfg, s, RecoverExpired), job)
  {
    ViewAfterRecover(s.store.commands, s.now, job.commandId);
    TallyStep(cfg, s, RecoverExpired, job.commandId);
  }

  lemma GrantJobOk(rule: Rule, cfg: QueueConfig, s: State, step: Step, job: Job)
    requires CommandsOk(cfg, s) && Orderly(rule, s) && step.Grant? && Enabled(s, step) && Timely(rule, cfg)
    requires job in Apply(cfg, s, step).jobs && job.commandId == step.id
    ensures JobOkIn(rule, Apply(cfg, s, step), job)
  {
    var c := Get(s.store.commands, step.id);
    assert CommandOk(cfg, c, s.now);
    ViewAfterUpdate(s.store.commands, step.id, LeasePatch(step.worker, s.now + cfg.visibilityTimeoutMs), s.now, step.id);
    TallyStep(cfg, s, step, step.id);
    if job in s.jobs {
      assert JobOkIn(rule, s, job);
    }
  }

  /** Renewing and releasing: the holder's own business. */
  lemma HolderJobOk(rule: Rule, cfg: QueueConfig, s: State, step: Step, k: nat)
    requires Orderly(rule, s) && (step.Renew? || step.Release?) && Allowed(rule, s, step) && Timely(rule, cfg)
    requires k < |s.jobs| && s.jobs[k].commandId == step.id
    ensures JobOkIn(rule, Apply(cfg, s, step), s.jobs[k])
  {
    var job := s.jobs[k];
    assert JobOkIn(rule, s, job);
    QuietPatches(cfg, s, step);
    ViewAfterUpdate(s.store.commands, step.id, PatchOf(cfg, s, step), s.now, step.id);
    TallyStep(cfg, s, step, step.id);
  }

  predicate WorkStep(step: Step) {
    step.Begin? || step.Send? || step.Answer? || step.Verify? || step.Complete? || step.Fail?
  }

  function JobIndex(step: Step): nat
    requires WorkStep(step)
  {
    match step
    case Begin(j) => j
    case Send(j) => j
    case Answer(j, _) => j
    case Verify(j) => j
    case Complete(j) => j
    case Fail(j, _, _) => j
    case _ => 0
  }

  /** While one job works under its lease, any other job on that command is idle and holds an older lease. */
  lemma RivalIsStale(rule: Rule, s: State, step: Step, k: nat)
    requires Orderly(rule, s) && WorkStep(step) && !rule.AnyStep? && Allowed(rule, s, step)
    requires k < |s.jobs| && k != JobIndex(step) && s.jobs[k].commandId == s.jobs[JobIndex(step)].commandId
    ensures (rule.CheckLeaseInTime? ==> !Acting(s.jobs[k])) && s.jobs[k].grant < TallyOf(s, s.jobs[k].commandId).grants
  {
    assert JobOkIn(rule, s, s.jobs[k]) && JobOkIn(rule, s, s.jobs[JobIndex(step)]);
    assert HoldsLease(s, s.jobs[JobIndex(step)]);
  }

  lemma StaleJobOk(rule: Rule, cfg: QueueConfig, s: State, step: Step, job: Job)
    requires Enabled(s, step) && (rule.CheckLeaseInTime? ==> !Acting(job)) && job.grant < TallyOf(s, job.commandId).grants
    ensures JobOkIn(rule, Apply(cfg, s, step), job)
  {
    TallyStep(cfg, s, step, job.commandId);
  }

  /** The working job stays in step with the store. */
  lemma WorkerJobOk(rule: Rule, cfg: QueueConfig, s: State, step: Step)
    requires Orderly(rule, s) && WorkStep(step) && !step.Complete? && !step.Fail? && !rule.AnyStep? && Allowed(rule, s, step)
    ensures JobOkIn(rule, Apply(cfg, s, step), Apply(cfg, s, step).jobs[JobIndex(step)])
  {
    var j := JobIndex(step);
    var id := s.jobs[j].commandId;
    assert JobOkIn(rule, s, s.jobs[j]) && HoldsLease(s, s.jobs[j]);
    QuietPatches(cfg, s, step);
    ViewAfterUpdate(s.store.commands, id, PatchOf(cfg, s, step), s.now, id);
    TallyStep(cfg, s, step, id);
  }

  lemma WorkJobsOk(rule: Rule, cfg: QueueConfig, s: State, step: Step, k: nat)
    requires Registry(s) && Orderly(rule, s) && WorkStep(step) && !rule.AnyStep? && Allowed(rule, s, step)
    requires k < |s.jobs|
    ensures k != JobIndex(step) ==> JobOkIn(rule, Apply(cfg, s, step), s.jobs[k])
  {
    if k != JobIndex(step) {
      assert JobOkIn(rule, s, s.jobs[k]);
      if s.jobs[k].commandId == s.jobs[JobIndex(step)].commandId {
        RivalIsStale(rule, s, step, k);
        StaleJobOk(rule, cfg, s, step, s.jobs[k]);
      } else {
        OtherJobsOk(rule, cfg, s, step, s.jobs[k]);
      }
    }
  }

  lemma RemovedOne<T>(s: seq<T>, i: nat, x: T)
    requires i < |s| && x in RemoveAt(s, i)
    ensures exists k :: 0 <= k < |s| && k != i && s[k] == x
  {
    var r := RemoveAt(s, i);
    var k :| 0 <= k < |r| && r[k] == x;
    assert s[if k < i then k else k + 1] == x;
  }

  lemma LeavingStepJobOk(rule: Rule, cfg: QueueConfig, s: State, step: Step, job: Job)
    requires Registry(s) && Orderly(rule, s) && (step.Complete? || step.Fail?) && !rule.AnyStep? && Allowed(rule, s, step)
    requires job in RemoveAt(s.jobs, JobIndex(step))
    ensures JobOkIn(rule, Apply(cfg, s, step), job)
  {
    RemovedOne(s.jobs, JobIndex(step), job);
    var k :| 0 <= k < |s.jobs| && k != JobIndex(step) && s.jobs[k] == job;
    WorkJobsOk(rule, cfg, s, step, k);
  }

  lemma StayingStepJobOk(rule: Rule, cfg: QueueConfig, s: State, step: Step, k: nat)
    requires Registry(s) && Orderly(rule, s) && WorkStep(step) && !step.Complete? && !step.Fail? && !rule.AnyStep? && Allowed(rule, s, step)
    requires k < |s.jobs|
    ensures |Apply(cfg, s, step).jobs| == |s.jobs| && JobOkIn(rule, Apply(cfg, s, step), Apply(cfg, s, step).jobs[k])
  {
    JobsStep(cfg, s, step);
    if k == JobIndex(step) {
      WorkerJobOk(rule, cfg, s, step);
    } else {
      WorkJobsOk(rule, cfg, s, step, k);
    }
  }

  lemma WorkStepOrderly(rule: Rule, cfg: QueueConfig, s: State, step: Step)
    requires Registry(s) && Orderly(rule, s) && WorkStep(step) && !rule.AnyStep? && Allowed(rule, s, step)
    ensures Orderly(rule, Apply(cfg, s, step))
  {
    var t := Apply(cfg, s, step);
    GrantsKeepDistinct(rule, cfg, s, step);
    if step.Complete? || step.Fail? {
      JobsStep(cfg, s, step);
      forall job | job in t.jobs
        ensures JobOkIn(rule, t, job)
      {
        LeavingStepJobOk(rule, cfg, s, step, job);
      }
    } else {
      forall k | 0 <= k < |s.jobs|
        ensures |t.jobs| == |s.jobs| && JobOkIn(rule, t, t.jobs[k])
      {
        StayingStepJobOk(rule, cfg, s, step, k);
      }
      JobsStep(cfg, s, step);
    }
  }

  lemma UnknownIdHasNoJob(s: State, i: nat)
    requires Registry(s) && KnownIds(s) && i < |s.pending|
    ensures forall job | job in s.jobs :: job.commandId != s.pending[i].commandId
  {
    MemberMapped(IdOf, s.pending, s.pending[i]);
    assert Claimed(IdOf, s)[s.pending[i].commandId] <= 1;
  }

  lemma OrderlyStep(rule: Rule, cfg: QueueConfig, s: State, step: Step)
    requires Timely(rule, cfg) && Inv(cfg, s) && Orderly(rule, s) && Allowed(rule, s, step)
    ensures Orderly(rule, Apply(cfg, s, step))
  {
    if WorkStep(step) {
      WorkStepOrderly(rule, cfg, s, step);
    } else {
      var t := Apply(cfg, s, step);
      GrantsKeepDistinct(rule, cfg, s, step);
      JobsStep(cfg, s, step);
      if step.Insert? {
        UnknownIdHasNoJob(s, step.i);
      }
      if step.CrashJob? {
        RemoveAtMembers(s.jobs, step.j);
      }
      forall job | job in t.jobs
        ensures JobOkIn(rule, t, job)
      {
        IdleStepJobOk(rule, cfg, s, step, job);
      }
    }
  }

  lemma CrashJobOk(rule: Rule, cfg: QueueConfig, s: State, j: nat, job: Job)
    requires j < |s.jobs| && JobOkIn(rule, s, job)
    ensures JobOkIn(rule, Apply(cfg, s, CrashJob(j)), job)
  {
  }

  /** A job of the command a holder renews or releases, or of any other command. */
  lemma BystanderJobOk(rule: Rule, cfg: QueueConfig, s: State, step: Step, k: nat)
    requires Timely(rule, cfg) && Registry(s) && Orderly(rule, s)
    requires Allowed(rule, s, step) && !WorkStep(step) && !step.Tick? && !step.RecoverExpired? && !step.CrashJob?
    requires k < |s.jobs| && (step.Grant? ==> s.jobs[k].commandId != step.id)
    requires step.Insert? ==> s.jobs[k].commandId != s.pending[step.i].commandId
    ensures JobOkIn(rule, Apply(cfg, s, step), s.jobs[k])
  {
    assert JobOkIn(rule, s, s.jobs[k]);
    if (step.Renew? || step.Release?) && s.jobs[k].commandId == step.id {
      HolderJobOk(rule, cfg, s, step, k);
    } else {
      OtherJobsOk(rule, cfg, s, step, s.jobs[k]);
    }
  }

  lemma SweepingStepJobOk(rule: Rule, cfg: QueueConfig, s: State, step: Step, k: nat)
    requires Orderly(rule, s) && Allowed(rule, s, step) && (step.Tick? || step.RecoverExpired? || step.CrashJob?)
    requires k < |s.jobs|
    ensures JobOkIn(rule, Apply(cfg, s, step), s.jobs[k])
  {
    assert JobOkIn(rule, s, s.jobs[k]);
    if step.Tick? {
      TickJobOk(rule, cfg, s, step, k);
    } else if step.RecoverExpired? {
      RecoverJobOk(rule, cfg, s, s.jobs[k]);
    } else {
      CrashJobOk(rule, cfg, s, step.j, s.jobs[k]);
    }
  }

  lemma IdleStepJobOk(rule: Rule, cfg: QueueConfig, s: State, step: Step, job: Job)
    requires Timely(rule, cfg) && Registry(s) && CommandsOk(cfg, s) && Orderly(rule, s)
    requires Allowed(rule, s, step) && !WorkStep(step)
    requires job in JobsAfter(s, step)
    requires step.Insert? ==> job.commandId != s.pending[step.i].commandId
    requires step.CrashJob? ==> job in s.jobs
    ensures JobOkIn(rule, Apply(cfg, s, step), job)
  {
    if step.Grant? && job.commandId == step.id {
      JobsStep(cfg, s, step);
      GrantJobOk(rule, cfg, s, step, job);
    } else {
      assert job in s.jobs;
      var k :| 0 <= k < |s.jobs| && s.jobs[k] == job;
      if step.Tick? || step.RecoverExpired? || step.CrashJob? {
        SweepingStepJobOk(rule, cfg, s, step, k);
      } else {
        BystanderJobOk(rule, cfg, s, step, k);
      }
    }
  }

  lemma {:induction false} OrderlyRun(rule: Rule, cfg: QueueConfig, s: State, steps: seq<Step>)
    requires Timely(rule, cfg) && Inv(cfg, s) && Orderly(rule, s) && Run(cfg, rule, s, steps).Some?
    ensures Inv(cfg, Run(cfg, rule, s, steps).value) && Orderly(rule, Run(cfg, rule, s, steps).value)
    decreases |steps|
  {
    if steps != [] {
      InvStep(cfg, s, steps[0]);
      OrderlyStep(rule, cfg, s, steps[0]);
      OrderlyRun(rule, cfg, Apply(cfg, s, steps[0]), steps[1..]);
    }
  }

  // ---- What one step can do to a completed command ---------------------------------------------------------------

  predicate Done(s: State, id: string) {
    Has(s.store.commands, id) && Get(s.store.commands, id).status.Completed?
  }

  predicate DoneIn(view: Option<Command>) {
    view.Some? && view.value.status.Completed?
  }

  lemma DoneIsViewed(s: State, id: string)
    ensures Done(s, id) <==> DoneIn(View(s.store.commands, id))
  {
  }

  /** The steps that overwrite a completed command: a worker's marks and failures, and its own holder's release. */
  predicate Overwrites(s: State, step: Step, id: string)
    requires Enabled(s, step)
  {
    match step
    case Begin(j) => s.jobs[j].commandId == id
    case Send(j) => s.jobs[j].commandId == id
    case Answer(j, acknowledged) => acknowledged && s.jobs[j].commandId == id
    case Verify(j) => s.jobs[j].commandId == id
    case Fail(j, _, _) => s.jobs[j].commandId == id
    case Release(w, x) => x == id && CasSucceeds(s.store, id, ExpectHolder(w))
    case _ => false
  }

  lemma RecoverKeepsCompleted(cfg: QueueConfig, s: State, id: string)
    requires Done(s, id)
    ensures Done(Apply(cfg, s, RecoverExpired), id)
  {
    ViewAfterRecover(s.store.commands, s.now, id);
  }

  lemma InsertKeepsCompleted(cfg: QueueConfig, s: State, i: nat, id: string)
    requires Registry(s) && Done(s, id) && i < |s.pending|
    ensures Done(Apply(cfg, s, Insert(i)), id)
  {
    ReservedIsInsertable(s, i);
    assert Get(s.store.commands, id) in s.store.commands;
    ViewAfterInsert(s.store.commands, s.pending[i], id);
    assert View(s.store.commands, id).Some?;
  }

  lemma FailOverwrites(cfg: QueueConfig, s: State, step: Step, id: string)
    requires Registry(s) && step.Fail? && Enabled(s, step) && Done(s, id)
    ensures Done(Apply(cfg, s, step), id) <==> s.jobs[step.j].commandId != id
  {
    FailView(cfg, s, step, id);
    DoneIsViewed(s, id);
    DoneIsViewed(Apply(cfg, s, step), id);
  }

  lemma PatchedDone(s: State, t: State, target: string, p: Patch, id: string)
    requires Done(s, id) && t.store.commands == UpdateCommands(s.store.commands, target, p, s.now)
    ensures Done(t, id) <==> target != id || Pick(p.status, Completed).Completed?
  {
    ViewAfterUpdate(s.store.commands, target, p, s.now, id);
    DoneIsViewed(s, id);
    DoneIsViewed(t, id);
  }

  predicate Marks(step: Step) {
    step.Begin? || step.Send? || (step.Answer? && step.acknowledged) || step.Verify? || step.Complete?
  }

  lemma MarkOverwrites(cfg: QueueConfig, s: State, step: Step, id: string)
    requires Enabled(s, step) && Done(s, id) && Marks(step)
    ensures Done(Apply(cfg, s, step), id) <==> !Overwrites(s, step, id)
  {
    PatchedDone(s, Apply(cfg, s, step), TargetOf(s, step), PatchOf(cfg, s, step), id);
  }

  lemma HolderOverwrites(cfg: QueueConfig, s: State, step: Step, id: string)
    requires Enabled(s, step) && Done(s, id) && (step.Grant? || step.Renew? || step.Release?)
    ensures Done(Apply(cfg, s, step), id) <==> !Overwrites(s, step, id)
  {
    if Apply(cfg, s, step).store != s.store {
      PatchedDone(s, Apply(cfg, s, step), TargetOf(s, step), PatchOf(cfg, s, step), id);
    } else if step.Release? && CasSucceeds(s.store, step.id, ExpectHolder(step.worker)) {
      PatchedDone(s, Apply(cfg, s, step), step.id, RELEASE_PATCH, id);
    }
  }

  lemma UnstoredKeepsCompleted(cfg: QueueConfig, s: State, step: Step)
    requires Enabled(s, step) && (step.Tick? || step.CrashJob? || (step.Answer? && !step.acknowledged))
    ensures Apply(cfg, s, step).store == s.store
  {
  }

  lemma QuietOverwrites(cfg: QueueConfig, s: State, step: Step, id: string)
    requires Enabled(s, step) && Done(s, id) && Quiet(step) && !step.RecoverExpired?
    ensures Done(Apply(cfg, s, step), id) <==> !Overwrites(s, step, id)
  {
    if Marks(step) {
      MarkOverwrites(cfg, s, step, id);
    } else if step.Grant? || step.Renew? || step.Release? {
      HolderOverwrites(cfg, s, step, id);
    } else {
      UnstoredKeepsCompleted(cfg, s, step);
    }
  }

  lemma ReservingKeepsCommands(cfg: QueueConfig, s: State, step: Step)
    requires Enabled(s, step) && (step.Reserve? || step.CrashBeforeInsert?)
    ensures Apply(cfg, s, step).store.commands == s.store.commands
  {
  }

  /**
   Workers may be stale: any state the protocol keeps, any enabled step. A completed command stays completed
   if and only if the step is not one of its overwriting steps, which a caller can tell before taking it.
   */
  lemma CompletedSurvivesIff(cfg: QueueConfig, s: State, step: Step, id: string)
    requires Registry(s) && Enabled(s, step) && Done(s, id)
    ensures Done(Apply(cfg, s, step), id) <==> !Overwrites(s, step, id)
  {
    if step.Fail? {
      FailOverwrites(cfg, s, step, id);
    } else if Quiet(step) && !step.RecoverExpired? {
      QuietOverwrites(cfg, s, step, id);
    } else if step.RecoverExpired? {
      RecoverKeepsCompleted(cfg, s, id);
    } else if step.Insert? {
      InsertKeepsCompleted(cfg, s, step.i, id);
    } else {
      ReservingKeepsCommands(cfg, s, step);
    }
  }

  // ---- Completion is final if leases are checked ------------------------------------------------------------------

  /** A worker that checks its lease cannot be working on a completed command. */
  lemma NoWorkOnCompleted(rule: Rule, s: State, step: Step, id: string)
    requires Orderly(rule, s) && WorkStep(step) && !rule.AnyStep? && Allowed(rule, s, step) && Done(s, id)
    ensures s.jobs[JobIndex(step)].commandId != id
  {
    var job := s.jobs[JobIndex(step)];
    assert JobOkIn(rule, s, job) && HoldsLease(s, job);
  }

  lemma CompletedStep(rule: Rule, cfg: QueueConfig, s: State, step: Step, id: string)
    requires Registry(s) && Orderly(rule, s) && !rule.AnyStep? && Allowed(rule, s, step) && Done(s, id)
    ensures var t := Apply(cfg, s, step);
            Done(t, id) && TallyOf(t, id).executions == TallyOf(s, id).executions && TallyOf(t, id).grants == TallyOf(s, id).grants
  {
    if WorkStep(step) {
      NoWorkOnCompleted(rule, s, step, id);
    }
    CompletedSurvivesIff(cfg, s, step, id);
    TallyStep(cfg, s, step, id);
  }

  lemma {:induction false} CompletedRun(rule: Rule, cfg: QueueConfig, s: State, after: seq<Step>, id: string)
    requires Timely(rule, cfg) && Inv(cfg, s) && Orderly(rule, s) && Run(cfg, rule, s, after).Some? && Done(s, id)
    ensures var t := Run(cfg, rule, s, after).value;
            Done(t, id) && TallyOf(t, id).executions == TallyOf(s, id).executions && TallyOf(t, id).grants == TallyOf(s, id).grants
    decreases |after|
  {
    if after != [] {
      CompletedStep(rule, cfg, s, after[0], id);
      InvStep(cfg, s, after[0]);
      OrderlyStep(rule, cfg, s, after[0]);
      CompletedRun(rule, cfg, Apply(cfg, s, after[0]), after[1..], id);
    }
  }

  /** Whoever also keeps time checks the lease. */
  lemma {:induction false} InTimeIsChecked(rule: Rule, cfg: QueueConfig, s: State, steps: seq<Step>)
    requires !rule.AnyStep? && Run(cfg, rule, s, steps).Some?
    ensures Run(cfg, CheckLease, s, steps) == Run(cfg, rule, s, steps)
    decreases |steps|
  {
    if steps != [] {
      InTimeIsChecked(rule, cfg, Apply(cfg, s, steps[0]), steps[1..]);
    }
  }

  /**
   If workers check their lease before every working step, completion is final: the command stays completed, is never
   leased and never sent again. Adapter calls may outlast their lease, the clock is free, and so is the timeout.
   */
  lemma CompletedIsFinal(rule: Rule, cfg: QueueConfig, before: seq<Step>, s: State, after: seq<Step>, t: State, id: string)
    requires !rule.AnyStep?
    requires Reachable(cfg, rule, before, s) && Done(s, id) && Run(cfg, rule, s, after) == Some(t)
    ensures Done(t, id) && TallyOf(t, id).executions == TallyOf(s, id).executions && TallyOf(t, id).grants == TallyOf(s, id).grants
  {
    InitInv(cfg);
    InTimeIsChecked(rule, cfg, INIT, before);
    InTimeIsChecked(rule, cfg, s, after);
    OrderlyRun(CheckLease, cfg, INIT, before);
    CompletedRun(CheckLease, cfg, s, after, id);
  }

  // ---- One worker in flight if work is in time --------------------------------------------------------------------

  /** At most one job per command is in flight, and it belongs to the worker the store names, under a live lease. */
  lemma AtMostOneInFlight(cfg: QueueConfig, steps: seq<Step>, s: State, i: nat, j: nat)
    requires cfg.visibilityTimeoutMs > 0 && Reachable(cfg, CheckLeaseInTime, steps, s)
    requires i < |s.jobs| && j < |s.jobs| && Acting(s.jobs[i]) && Acting(s.jobs[j])
    ensures s.jobs[i].commandId == s.jobs[j].commandId ==> i == j
    ensures HoldsLease(s, s.jobs[i]) && PhaseFits(Get(s.store.commands, s.jobs[i].commandId).status, s.jobs[i].phase)
  {
    InitInv(cfg);
    OrderlyRun(CheckLeaseInTime, cfg, INIT, steps);
    assert JobOkIn(CheckLeaseInTime, s, s.jobs[i]) && JobOkIn(CheckLeaseInTime, s, s.jobs[j]);
  }

  ghost predicate OneActing(jobs: seq<Job>) {
    forall i, j | 0 <= i < j < |jobs| && Acting(jobs[i]) && Acting(jobs[j]) :: jobs[i].commandId != jobs[j].commandId
  }

  ghost predicate JoinsAnother(s: State, step: Step)
    requires Enabled(s, step)
  {
    step.Begin? && exists k :: 0 <= k < |s.jobs| && k != step.j && Acting(s.jobs[k]) && s.jobs[k].commandId == s.jobs[step.j].commandId
  }

  lemma AdvanceKeepsOneActing(jobs: seq<Job>, j: nat, phase: Phase)
    requires OneActing(jobs) && j < |jobs| && Acting(jobs[j])
    ensures OneActing(jobs[j := jobs[j].(phase := phase)])
  {
  }

  lemma RemoveKeepsOneActing(jobs: seq<Job>, j: nat)
    requires OneActing(jobs) && j < |jobs|
    ensures OneActing(RemoveAt(jobs, j))
  {
    var r := RemoveAt(jobs, j);
    assert forall k | 0 <= k < |r| :: r[k] == jobs[if k < j then k else k + 1];
  }

  lemma BeginKeepsOneActingIff(s: State, j: nat)
    requires OneActing(s.jobs) && Enabled(s, Begin(j))
    ensures OneActing(s.jobs[j := s.jobs[j].(phase := Begun)]) <==> !JoinsAnother(s, Begin(j))
  {
    var jobs := s.jobs[j := s.jobs[j].(phase := Begun)];
    if k :| 0 <= k < |s.jobs| && k != j && Acting(s.jobs[k]) && s.jobs[k].commandId == s.jobs[j].commandId {
      assert Acting(jobs[k]) && Acting(jobs[j]) && jobs[k].commandId == jobs[j].commandId;
    }
  }

  /**
   Any state, any enabled step, no discipline: at most one job acting per command stays so if and only if the step is not
   a worker beginning a command that another job is still acting on.
   */
  lemma OneActingSurvivesIff(cfg: QueueConfig, s: State, step: Step)
    requires OneActing(s.jobs) && Enabled(s, step)
    ensures OneActing(Apply(cfg, s, step).jobs) <==> !JoinsAnother(s, step)
  {
    JobsStep(cfg, s, step);
    match step {
      case Begin(j) => BeginKeepsOneActingIff(s, j);
      case Send(j) => AdvanceKeepsOneActing(s.jobs, j, Executing);
      case Answer(j, _) => AdvanceKeepsOneActing(s.jobs, j, Answered);
      case Verify(j) => AdvanceKeepsOneActing(s.jobs, j, Checked);
      case Complete(j) => RemoveKeepsOneActing(s.jobs, j);
      case Fail(j, _, _) => RemoveKeepsOneActing(s.jobs, j);
      case CrashJob(j) => RemoveKeepsOneActing(s.jobs, j);
      case _ =>
    }
  }
}
