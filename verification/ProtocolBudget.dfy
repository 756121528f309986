/** The retry budget: how often a command can be leased and sent to its adapter, however stale the workers are. */
module ProtocolBudget {
  import opened Common
  import opened ExecutionTypes
  import opened StoreModel
  import opened QueueModel
  import opened Protocol
  import opened ProtocolInvariants

  // ---- History belongs to accepted commands --------------------------------------------------------------------

  lemma StrandedIdsAreHeld(s: Store, now: int)
    ensures forall id | id in StrandedIds(s.commands, now) :: id in Held(IdOf, s)
  {
    forall id | id in StrandedIds(s.commands, now)
      ensures id in Held(IdOf, s)
    {
      var i :| 0 <= i < |s.commands| && Stranded(s.commands[i], now) && s.commands[i].commandId == id;
      MemberMapped(IdOf, s.commands, s.commands[i]);
    }
  }

  lemma GetIsHeld(s: Store, id: string)
    requires Has(s.commands, id)
    ensures id in Held(IdOf, s)
  {
    MemberMapped(IdOf, s.commands, Get(s.commands, id));
  }

  lemma FailKeepsHeldIds(cfg: QueueConfig, s: State, step: Step)
    requires step.Fail? && Enabled(s, step)
    ensures Held(IdOf, Apply(cfg, s, step).store) == Held(IdOf, s.store)
  {
    FailKeepsHoldings(cfg, s.store, s.jobs[step.j].commandId, step.reason, step.category, s.now);
  }

  lemma InsertKeepsHeldIds(cfg: QueueConfig, s: State, i: nat)
    requires Registry(s) && i < |s.pending|
    ensures Held(IdOf, s.store) <= Held(IdOf, Apply(cfg, s, Insert(i)).store)
  {
    ReservedIsInsertable(s, i);
    InsertMovesClaim(IdOf, s, i);
  }

  /** No step makes an accepted id disappear. */
  lemma HeldIdsStay(cfg: QueueConfig, s: State, step: Step)
    requires Registry(s) && Enabled(s, step)
    ensures Held(IdOf, s.store) <= Held(IdOf, Apply(cfg, s, step).store)
  {
    if Quiet(step) {
      QuietKeepsIdentity(cfg, s, step);
    } else if step.Insert? {
      InsertKeepsHeldIds(cfg, s, step.i);
    } else if step.Fail? {
      FailKeepsHeldIds(cfg, s, step);
    }
  }

  lemma RemoveAtMembers<T>(s: seq<T>, i: nat)
    requires i < |s|
    ensures forall x | x in RemoveAt(s, i) :: x in s
  {
    forall x | x in RemoveAt(s, i)
      ensures x in s
    {
      assert x in multiset(RemoveAt(s, i));
    }
  }

  // ---- Adapter calls -------------------------------------------------------------------------------------------

  predicate Grants(step: Step, id: string) {
    step.Grant? && step.id == id
  }

  predicate Sends(s: State, step: Step, id: string) {
    step.Send? && step.j < |s.jobs| && s.jobs[step.j].commandId == id
  }

  lemma TallyStep(cfg: QueueConfig, s: State, step: Step, id: string)
    requires Enabled(s, step)
    ensures TallyOf(Apply(cfg, s, step), id).grants == TallyOf(s, id).grants + if Grants(step, id) then 1 else 0
    ensures TallyOf(Apply(cfg, s, step), id).executions == TallyOf(s, id).executions + if Sends(s, step, id) then 1 else 0
  {
  }

  /** The workers' private records after a step. */
  function JobsAfter(s: State, step: Step): seq<Job>
    requires Enabled(s, step)
  {
    match step
    case Grant(w, id) => s.jobs + [Job(w, id, TallyOf(s, id).grants + 1, Granted)]
    case Begin(j) => s.jobs[j := s.jobs[j].(phase := Begun)]
    case Send(j) => s.jobs[j := s.jobs[j].(phase := Executing)]
    case Answer(j, _) => s.jobs[j := s.jobs[j].(phase := Answered)]
    case Verify(j) => s.jobs[j := s.jobs[j].(phase := Checked)]
    case Complete(j) => RemoveAt(s.jobs, j)
    case Fail(j, _, _) => RemoveAt(s.jobs, j)
    case CrashJob(j) => RemoveAt(s.jobs, j)
    case _ => s.jobs
  }

  lemma JobsStep(cfg: QueueConfig, s: State, step: Step)
    requires Enabled(s, step)
    ensures Apply(cfg, s, step).jobs == JobsAfter(s, step)
  {
  }

  lemma UnsentStep(s: State, step: Step, id: string)
    requires Enabled(s, step)
    ensures Count(JobsAfter(s, step), Unsent(id)) + (if Sends(s, step, id) then 1 else 0)
         <= Count(s.jobs, Unsent(id)) + (if Grants(step, id) then 1 else 0)
  {
    match step {
      case Grant(w, g) =>
        var job := Job(w, g, TallyOf(s, g).grants + 1, Granted);
        CountConcat(s.jobs, [job], Unsent(id));
        CountSingle(job, Unsent(id));
      case Begin(j) => CountReplace(s.jobs, j, s.jobs[j].(phase := Begun), Unsent(id));
      case Send(j) => CountReplace(s.jobs, j, s.jobs[j].(phase := Executing), Unsent(id));
      case Answer(j, _) => CountReplace(s.jobs, j, s.jobs[j].(phase := Answered), Unsent(id));
      case Verify(j) => CountReplace(s.jobs, j, s.jobs[j].(phase := Checked), Unsent(id));
      case Complete(j) => CountRemove(s.jobs, j, Unsent(id));
      case Fail(j, _, _) => CountRemove(s.jobs, j, Unsent(id));
      case CrashJob(j) => CountRemove(s.jobs, j, Unsent(id));
      case _ =>
    }
  }

  lemma CallBudgetStep(cfg: QueueConfig, s: State, step: Step)
    requires CallBudget(s) && Enabled(s, step)
    ensures CallBudget(Apply(cfg, s, step))
  {
    var t := Apply(cfg, s, step);
    JobsStep(cfg, s, step);
    forall id
      ensures TallyOf(t, id).executions + Count(t.jobs, Unsent(id)) <= TallyOf(t, id).grants
    {
      assert TallyOf(s, id).executions + Count(s.jobs, Unsent(id)) <= TallyOf(s, id).grants;
      TallyStep(cfg, s, step, id);
      UnsentStep(s, step, id);
    }
  }

  lemma TallyKeysHeld(cfg: QueueConfig, s: State, step: Step)
    requires KnownIds(s) && Enabled(s, step)
    ensures forall id | id in Apply(cfg, s, step).tally :: id in Held(IdOf, s.store)
    ensures forall id | id in s.tally :: id in Apply(cfg, s, step).tally
    ensures step.Grant? ==> step.id in Apply(cfg, s, step).tally
  {
    match step {
      case Grant(_, id) => GetIsHeld(s.store, id);
      case Release(_, id) =>
        if Has(s.store.commands, id) {
          GetIsHeld(s.store, id);
        }
      case RecoverExpired => StrandedIdsAreHeld(s.store, s.now);
      case _ =>
    }
  }

  lemma JobIdsKnown(s: State, step: Step)
    requires Enabled(s, step)
    ensures forall job | job in JobsAfter(s, step) ::
              Grants(step, job.commandId) || exists was :: was in s.jobs && was.commandId == job.commandId
  {
    match step {
      case Complete(j) => RemoveAtMembers(s.jobs, j);
      case Fail(j, _, _) => RemoveAtMembers(s.jobs, j);
      case CrashJob(j) => RemoveAtMembers(s.jobs, j);
      case _ =>
    }
  }

  lemma KnownIdsStep(cfg: QueueConfig, s: State, step: Step)
    requires Registry(s) && KnownIds(s) && Enabled(s, step)
    ensures KnownIds(Apply(cfg, s, step))
  {
    HeldIdsStay(cfg, s, step);
    TallyKeysHeld(cfg, s, step);
    JobsStep(cfg, s, step);
    JobIdsKnown(s, step);
  }

  // ---- Grants --------------------------------------------------------------------------------------------------

  /** A fresh command has no history. */
  lemma PendingHasNoHistory(s: State, i: nat)
    requires Registry(s) && KnownIds(s) && i < |s.pending|
    ensures TallyOf(s, s.pending[i].commandId) == NO_HISTORY
  {
    MemberMapped(IdOf, s.pending, s.pending[i]);
    assert Claimed(IdOf, s)[s.pending[i].commandId] <= 1;
  }

  lemma GrantsPaidByRecovery(s: State)
    requires GrantBudget(s)
    ensures forall c | c in s.store.commands :: GrantsPaid(RecoverOne(c, s.now),
              TallyOf(s.(tally := CountRecoveries(s.tally, StrandedIds(s.store.commands, s.now))), c.commandId))
  {
    forall c | c in s.store.commands
      ensures GrantsPaid(RecoverOne(c, s.now),
                TallyOf(s.(tally := CountRecoveries(s.tally, StrandedIds(s.store.commands, s.now))), c.commandId))
    {
      assert GrantsPaid(c, TallyOf(s, c.commandId));
      var i :| 0 <= i < |s.store.commands| && s.store.commands[i] == c;
      assert Stranded(c, s.now) ==> c.commandId in StrandedIds(s.store.commands, s.now);
    }
  }

  lemma RecoverGrantBudget(cfg: QueueConfig, s: State)
    requires GrantBudget(s)
    ensures GrantBudget(Apply(cfg, s, RecoverExpired))
  {
    GrantsPaidByRecovery(s);
    RecoveredMembers(s.store.commands, s.now);
    var t := Apply(cfg, s, RecoverExpired);
    forall c | c in t.store.commands
      ensures GrantsPaid(c, TallyOf(t, c.commandId))
    {
      var d :| d in s.store.commands && c == RecoverOne(d, s.now);
      assert GrantsPaid(c, TallyOf(t, d.commandId));
    }
    forall c | c in s.store.deadLetters
      ensures DeadGrantsPaid(c, TallyOf(t, c.commandId))
    {
      assert DeadGrantsPaid(c, TallyOf(s, c.commandId));
    }
  }

  lemma FailGrantBudget(cfg: QueueConfig, s: State, id: string, reason: Option<string>, category: Category)
    requires GrantBudget(s) && Has(s.store.commands, id)
    ensures GrantBudget(s.(store := ScheduleRetry(s.store, id, None, reason, category, cfg, s.now)))
  {
    FailedMembers(cfg, s.store, id, reason, category, s.now);
    var c := Get(s.store.commands, id);
    assert GrantsPaid(c, TallyOf(s, c.commandId));
    FailPays(cfg, c, TallyOf(s, id), reason, category, s.now);
  }

  /** The retry a failure counts pays for the lease that may follow. */
  lemma FailPays(cfg: QueueConfig, c: Command, h: Tally, reason: Option<string>, category: Category, now: int)
    requires GrantsPaid(c, h)
    ensures var hit := ApplyPatch(c, FailPatch(cfg, c, reason, category, now), now);
            hit.commandId == c.commandId
            && if GivesUp(c, category, cfg) then DeadGrantsPaid(hit, h) else GrantsPaid(hit, h)
  {
  }

  predicate Releases(s: State, step: Step, id: string) {
    step.Release? && step.id == id && CasSucceeds(s.store, id, ExpectHolder(step.worker))
  }

  lemma QuietHistory(cfg: QueueConfig, s: State, step: Step, id: string)
    requires Enabled(s, step) && Quiet(step) && !step.RecoverExpired?
    ensures var h, g := TallyOf(s, id), TallyOf(Apply(cfg, s, step), id);
      && g.grants == h.grants + (if Grants(step, id) then 1 else 0)
      && g.releases == h.releases + (if Releases(s, step, id) then 1 else 0)
      && g.recoveries == h.recoveries
  {
  }

  /** A quiet patch keeps the retry count, and makes a command leasable only by releasing it. */
  lemma QuietPatchFacts(cfg: QueueConfig, s: State, step: Step, c: Command)
    requires Enabled(s, step) && Quiet(step) && !step.RecoverExpired?
    ensures var hit := ApplyPatch(c, PatchOf(cfg, s, step), s.now);
      && hit.retryCount == c.retryCount && hit.commandId == c.commandId
      && (Leasable(hit) && !Leasable(c) ==> step.Release?)
      && (step.Grant? ==> !Leasable(hit))
  {
  }

  /** The one command a quiet step may patch. */
  lemma QuietHitPaid(cfg: QueueConfig, s: State, step: Step)
    requires GrantBudget(s) && Enabled(s, step) && Quiet(step) && !step.RecoverExpired?
    requires Apply(cfg, s, step).store != s.store
    ensures Has(s.store.commands, TargetOf(s, step))
    ensures var hit := ApplyPatch(Get(s.store.commands, TargetOf(s, step)), PatchOf(cfg, s, step), s.now);
            GrantsPaid(hit, TallyOf(Apply(cfg, s, step), hit.commandId))
  {
    var id := TargetOf(s, step);
    if Has(s.store.commands, id) {
      var c := Get(s.store.commands, id);
      assert GrantsPaid(c, TallyOf(s, id));
      QuietPatchFacts(cfg, s, step, c);
      QuietHistory(cfg, s, step, id);
    }
  }

  /** A command the step did not patch: its history changed only if it was the one leased. */
  lemma QuietOtherPaid(cfg: QueueConfig, s: State, step: Step, c: Command)
    requires UniqueIds(s.store.commands) && GrantBudget(s)
    requires Enabled(s, step) && Quiet(step) && !step.RecoverExpired?
    requires c in s.store.commands && !Grants(step, c.commandId)
    ensures GrantsPaid(c, TallyOf(Apply(cfg, s, step), c.commandId))
  {
    assert GrantsPaid(c, TallyOf(s, c.commandId));
    QuietHistory(cfg, s, step, c.commandId);
  }

  lemma QuietGrantBudget(cfg: QueueConfig, s: State, step: Step)
    requires AtMostOnce(Claimed(IdOf, s)) && GrantBudget(s)
    requires Enabled(s, step) && Quiet(step) && !step.RecoverExpired?
    ensures GrantBudget(Apply(cfg, s, step))
  {
    var t := Apply(cfg, s, step);
    var id := TargetOf(s, step);
    QuietPatches(cfg, s, step);
    HeldDistinct(s);
    forall c | c in s.store.deadLetters
      ensures DeadGrantsPaid(c, TallyOf(t, c.commandId))
    {
      assert DeadGrantsPaid(c, TallyOf(s, c.commandId));
      QuietHistory(cfg, s, step, c.commandId);
      if step.Grant? {
        assert Get(s.store.commands, id) in s.store.commands;
      }
    }
    forall i | 0 <= i < |t.store.commands|
      ensures GrantsPaid(t.store.commands[i], TallyOf(t, t.store.commands[i].commandId))
    {
      if t.store != s.store && i == IndexOf(s.store.commands, id) {
        QuietHitPaid(cfg, s, step);
      } else {
        assert t.store.commands[i] == s.store.commands[i];
        if Grants(step, s.store.commands[i].commandId) {
          IndexOfUnique(s.store.commands, i);
          GrantAlwaysPatches(cfg, s, step);
        } else {
          QuietOtherPaid(cfg, s, step, s.store.commands[i]);
        }
      }
    }
  }

  lemma GrantAlwaysPatches(cfg: QueueConfig, s: State, step: Step)
    requires Enabled(s, step) && step.Grant?
    ensures Apply(cfg, s, step).store != s.store
  {
    var c := Get(s.store.commands, step.id);
    var t := Apply(cfg, s, step);
    assert t.store.commands[IndexOf(s.store.commands, step.id)].status == Leased;
  }

  lemma InsertGrantBudget(cfg: QueueConfig, s: State, i: nat)
    requires Registry(s) && KnownIds(s) && GrantBudget(s) && i < |s.pending|
    ensures GrantBudget(Apply(cfg, s, Insert(i)))
  {
    PendingHasNoHistory(s, i);
    var t := Apply(cfg, s, Insert(i));
    assert t.tally == s.tally;
    forall c | c in t.store.commands
      ensures GrantsPaid(c, TallyOf(t, c.commandId))
    {
      assert c in s.store.commands || c == s.pending[i];
    }
  }

  lemma FailStepGrantBudget(cfg: QueueConfig, s: State, step: Step)
    requires GrantBudget(s) && step.Fail? && Enabled(s, step)
    ensures GrantBudget(Apply(cfg, s, step))
  {
    var id := s.jobs[step.j].commandId;
    var u := s.(store := ScheduleRetry(s.store, id, None, step.reason, step.category, cfg, s.now));
    if Has(s.store.commands, id) {
      FailGrantBudget(cfg, s, id, step.reason, step.category);
    }
    assert GrantBudget(u);
    assert Apply(cfg, s, step).store == u.store && Apply(cfg, s, step).tally == u.tally;
    SameBudget(u, Apply(cfg, s, step));
  }

  lemma SameBudget(s: State, t: State)
    requires t.store.commands == s.store.commands && t.store.deadLetters == s.store.deadLetters && t.tally == s.tally
    requires GrantBudget(s)
    ensures GrantBudget(t)
  {
    forall c | c in t.store.commands
      ensures GrantsPaid(c, TallyOf(t, c.commandId))
    {
      assert GrantsPaid(c, TallyOf(s, c.commandId));
    }
    forall c | c in t.store.deadLetters
      ensures DeadGrantsPaid(c, TallyOf(t, c.commandId))
    {
      assert DeadGrantsPaid(c, TallyOf(s, c.commandId));
    }
  }

  lemma GrantBudgetStep(cfg: QueueConfig, s: State, step: Step)
    requires Registry(s) && KnownIds(s) && GrantBudget(s) && Enabled(s, step)
    ensures GrantBudget(Apply(cfg, s, step))
  {
    if step.RecoverExpired? {
      RecoverGrantBudget(cfg, s);
    } else if step.Fail? {
      FailStepGrantBudget(cfg, s, step);
    } else if step.Insert? {
      InsertGrantBudget(cfg, s, step.i);
    } else if step.Reserve? || step.CrashBeforeInsert? {
      SameBudget(s, Apply(cfg, s, step));
    } else {
      QuietGrantBudget(cfg, s, step);
    }
  }

  // ---- Every run -----------------------------------------------------------------------------------------------

  lemma InitInv(cfg: QueueConfig)
    ensures Inv(cfg, INIT)
  {
    assert Claimed(IdOf, INIT) == multiset{} && Claimed(KeyOf, INIT) == multiset{};
  }

  lemma InvStep(cfg: QueueConfig, s: State, step: Step)
    requires Inv(cfg, s) && Enabled(s, step)
    ensures Inv(cfg, Apply(cfg, s, step))
  {
    RegistryStep(cfg, s, step);
    OriginStep(cfg, s, step);
    CommandsOkStep(cfg, s, step);
    KnownIdsStep(cfg, s, step);
    GrantBudgetStep(cfg, s, step);
    CallBudgetStep(cfg, s, step);
  }

  lemma {:induction false} InvRun(cfg: QueueConfig, rule: Rule, s: State, steps: seq<Step>)
    requires Inv(cfg, s) && Run(cfg, rule, s, steps).Some?
    ensures Inv(cfg, Run(cfg, rule, s, steps).value)
    decreases |steps|
  {
    if steps != [] {
      InvStep(cfg, s, steps[0]);
      InvRun(cfg, rule, Apply(cfg, s, steps[0]), steps[1..]);
    }
  }
}
