/**
 The execution core as a state machine over single store calls: any number of dispatchers, workers and recoverers
 interleave, workers crash, and a dispatcher may die between reserving a key and inserting the command.
 A job is a worker's private record of a lease it was granted; it outlives the lease, so a job may be stale.
 */
module Protocol {
  import opened Common
  import opened ExecutionTypes
  import opened Idempotency
  import opened StoreModel
  import opened QueueModel

  /** Where a worker stands in processing a command; from Begun on it is acting on it. */
  datatype Phase = Granted | Begun | Executing | Answered | Checked

  /** `grant` numbers the lease grants of a command; it tells a job's lease from later ones. */
  datatype Job = Job(worker: string, commandId: string, grant: nat, phase: Phase)

  /** The history of one command. */
  datatype Tally = Tally(grants: nat, executions: nat, recoveries: nat, releases: nat)

  const NO_HISTORY := Tally(0, 0, 0, 0)

  datatype State = State(
    now: int, store: Store, pending: seq<Command>, usedIds: set<string>, accepted: seq<Command>,
    jobs: seq<Job>, tally: map<string, Tally>)

  const INIT := State(0, EMPTY, [], {}, [], [], map[])

  datatype Step =
    | Tick(to: int)
    | Reserve(cmd: Command)
    | Insert(i: nat)
    | CrashBeforeInsert(i: nat)
    | Grant(worker: string, id: string)
    | Renew(worker: string, id: string)
    | Release(worker: string, id: string)
    | Begin(j: nat)
    | Send(j: nat)
    | Answer(j: nat, acknowledged: bool)
    | Verify(j: nat)
    | Complete(j: nat)
    | Fail(j: nat, reason: Option<string>, category: Category)
    | CrashJob(j: nat)
    | RecoverExpired

  function TallyOf(s: State, id: string): Tally {
    if id in s.tally then s.tally[id] else NO_HISTORY
  }

  /** A command as the planner makes it. */
  predicate Planned(c: Command) {
    && c.idempotencyKey == EntryKey(EntryOf(c)) && c.action == OpenPosition && c.purpose == INITIAL_ENTRY
    && c.status == Queued && c.retryCount == 0 && c.leasedBy == None && c.leaseExpiration == None && c.retryAt == None
  }

  function EntryOf(c: Command): Entry {
    Entry(c.signalId, c.customerId, c.executorId, c.accountId, c.adapterType)
  }

  predicate Enabled(s: State, step: Step) {
    match step
    case Tick(to) => s.now <= to
    case Reserve(cmd) => Planned(cmd) && cmd.commandId !in s.usedIds
    case Insert(i) => i < |s.pending|
    case CrashBeforeInsert(i) => i < |s.pending|
    case Grant(_, id) => Has(s.store.commands, id) && IsDue(Get(s.store.commands, id), s.now)
    case Renew(_, _) => true
    case Release(_, _) => true
    case Begin(j) => j < |s.jobs| && s.jobs[j].phase.Granted?
    case Send(j) => j < |s.jobs| && s.jobs[j].phase.Begun?
    case Answer(j, _) => j < |s.jobs| && s.jobs[j].phase.Executing?
    case Verify(j) => j < |s.jobs| && s.jobs[j].phase.Answered?
    case Complete(j) => j < |s.jobs| && s.jobs[j].phase.Checked?
    case Fail(j, _, _) => j < |s.jobs|
    case CrashJob(j) => j < |s.jobs|
    case RecoverExpired => true
  }

  function StrandedIds(cs: seq<Command>, now: int): set<string> {
    set i | 0 <= i < |cs| && Stranded(cs[i], now) :: cs[i].commandId
  }

  function CountRecoveries(tally: map<string, Tally>, ids: set<string>): map<string, Tally> {
    map id | id in tally.Keys + ids ::
      var t := if id in tally then tally[id] else NO_HISTORY;
      if id in ids then t.(recoveries := t.recoveries + 1) else t
  }

  function MarkJob(s: State, j: nat, status: Status, phase: Phase): State
    requires j < |s.jobs|
  {
    s.(store := Mark(s.store, s.jobs[j].commandId, status, s.now), jobs := s.jobs[j := s.jobs[j].(phase := phase)])
  }

  function Apply(cfg: QueueConfig, s: State, step: Step): State
    requires Enabled(s, step)
  {
    match step
    case Tick(to) => s.(now := to)
    case Reserve(cmd) =>
      s.(store := ReserveIdempotency(s.store, cmd.idempotencyKey, cmd.commandId, None, s.now),
         usedIds := s.usedIds + {cmd.commandId},
         pending := if Reserved(s.store, cmd.idempotencyKey, s.now) then s.pending else s.pending + [cmd])
    case Insert(i) =>
      s.(store := InsertCommand(s.store, s.pending[i]),
         pending := RemoveAt(s.pending, i),
         accepted := if Insertable(s.store, s.pending[i]) then s.accepted + [s.pending[i]] else s.accepted)
    case CrashBeforeInsert(i) => s.(pending := RemoveAt(s.pending, i))
    case Grant(w, id) =>
      var t := TallyOf(s, id);
      s.(store := GrantLease(s.store, id, Get(s.store.commands, id).status, w, cfg, s.now),
         jobs := s.jobs + [Job(w, id, t.grants + 1, Granted)],
         tally := s.tally[id := t.(grants := t.grants + 1)])
    case Renew(w, id) => s.(store := RenewLease(s.store, id, w, cfg, s.now))
    case Release(w, id) =>
      var t := TallyOf(s, id);
      s.(store := ReleaseLease(s.store, id, w, s.now),
         tally := if CasSucceeds(s.store, id, ExpectHolder(w)) then s.tally[id := t.(releases := t.releases + 1)] else s.tally)
    case Begin(j) => MarkJob(s, j, Started, Begun)
    case Send(j) =>
      var t := TallyOf(s, s.jobs[j].commandId);
      MarkJob(s, j, Sent, Executing).(tally := s.tally[s.jobs[j].commandId := t.(executions := t.executions + 1)])
    case Answer(j, acknowledged) =>
      if acknowledged then MarkJob(s, j, Acknowledged, Answered)
      else s.(jobs := s.jobs[j := s.jobs[j].(phase := Answered)])
    case Verify(j) => MarkJob(s, j, Verified, Checked)
    case Complete(j) =>
      s.(store := Mark(s.store, s.jobs[j].commandId, Completed, s.now), jobs := RemoveAt(s.jobs, j))
    case Fail(j, reason, category) =>
      s.(store := ScheduleRetry(s.store, s.jobs[j].commandId, None, reason, category, cfg, s.now), jobs := RemoveAt(s.jobs, j))
    case CrashJob(j) => s.(jobs := RemoveAt(s.jobs, j))
    case RecoverExpired =>
      s.(store := StoreModel.Recover(s.store, s.now),
         tally := CountRecoveries(s.tally, StrandedIds(s.store.commands, s.now)))
  }

  // ---- Runs ----------------------------------------------------------------------------------------------------

  /** The lease a job was granted is still the command's lease, and it has not run out. */
  predicate HoldsLease(s: State, job: Job) {
    Has(s.store.commands, job.commandId)
    && var c := Get(s.store.commands, job.commandId);
       c.leasedBy == Some(job.worker) && c.leaseExpiration.Some? && s.now < c.leaseExpiration.value
       && job.grant == TallyOf(s, job.commandId).grants
  }

  predicate Acting(job: Job) {
    !job.phase.Granted?
  }

  /** A worker checks its lease before it acts, and no holder releases a completed command. */
  ghost predicate LeaseChecked(s: State, step: Step) {
    match step
    case Begin(j) => j < |s.jobs| ==> HoldsLease(s, s.jobs[j])
    case Send(j) => j < |s.jobs| ==> HoldsLease(s, s.jobs[j])
    case Answer(j, _) => j < |s.jobs| ==> HoldsLease(s, s.jobs[j])
    case Verify(j) => j < |s.jobs| ==> HoldsLease(s, s.jobs[j])
    case Complete(j) => j < |s.jobs| ==> HoldsLease(s, s.jobs[j])
    case Fail(j, _, _) => j < |s.jobs| ==> HoldsLease(s, s.jobs[j])
    case Release(_, id) => Has(s.store.commands, id) ==> !Get(s.store.commands, id).status.Completed?
    case _ => true
  }

  /** Work is done, or the worker has crashed, before its lease runs out; a command being worked on is not released. */
  ghost predicate InTime(s: State, step: Step) {
    match step
    case Tick(to) =>
      forall j | 0 <= j < |s.jobs| && Acting(s.jobs[j]) && Has(s.store.commands, s.jobs[j].commandId) ::
        var c := Get(s.store.commands, s.jobs[j].commandId);
        c.leaseExpiration.Some? ==> to < c.leaseExpiration.value
    case Release(_, id) => forall j | 0 <= j < |s.jobs| :: s.jobs[j].commandId == id ==> !Acting(s.jobs[j])
    case _ => true
  }

  /** How far the actors restrain themselves: not at all, by checking their lease, or by never outliving it either. */
  datatype Rule = AnyStep | CheckLease | CheckLeaseInTime

  ghost predicate Allowed(rule: Rule, s: State, step: Step) {
    && Enabled(s, step)
    && (!rule.AnyStep? ==> LeaseChecked(s, step))
    && (rule.CheckLeaseInTime? ==> InTime(s, step))
  }

  /** The state a list of steps leads to, if every step is allowed where it is taken. */
  ghost function Run(cfg: QueueConfig, rule: Rule, s: State, steps: seq<Step>): Option<State>
    decreases |steps|
  {
    if steps == [] then Some(s)
    else if Allowed(rule, s, steps[0]) then Run(cfg, rule, Apply(cfg, s, steps[0]), steps[1..])
    else None
  }

  lemma RunOne(cfg: QueueConfig, rule: Rule, s: State, a: Step)
    requires Allowed(rule, s, a)
    ensures Run(cfg, rule, s, [a]) == Some(Apply(cfg, s, a))
  {
    assert [a][1..] == [];
  }

  lemma RunCons(cfg: QueueConfig, rule: Rule, s: State, a: Step, rest: seq<Step>)
    requires Allowed(rule, s, a)
    ensures Run(cfg, rule, s, [a] + rest) == Run(cfg, rule, Apply(cfg, s, a), rest)
  {
    assert ([a] + rest)[1..] == rest;
  }

  lemma {:induction false} RunAppend(cfg: QueueConfig, rule: Rule, s: State, first: seq<Step>, rest: seq<Step>)
    requires Run(cfg, rule, s, first).Some?
    ensures Run(cfg, rule, s, first + rest) == Run(cfg, rule, Run(cfg, rule, s, first).value, rest)
    decreases |first|
  {
    if first == [] {
      assert first + rest == rest;
    } else {
      assert first + rest == [first[0]] + (first[1..] + rest);
      RunCons(cfg, rule, s, first[0], first[1..] + rest);
      RunAppend(cfg, rule, Apply(cfg, s, first[0]), first[1..], rest);
    }
  }
}
