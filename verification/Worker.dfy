/**
 A worker processing one leased command (v2/src/execution-core/worker.ts), cut in two at the only place where other
 code can run in between: the call to the adapter.
 */
module Worker {
  import opened Common
  import opened ExecutionTypes
  import opened StoreModel
  import opened QueueModel
  import opened Repository
  import opened Queue
  import opened Protocol
  import opened ProtocolInvariants
  import opened QueueProperties

  /** What the adapter call may come to. */
  datatype AdapterResult =
    | Answered(acknowledged: Option<bool>, verified: Option<bool>, reason: Option<string>)
    | Threw(category: Category, message: string)

  predicate Acknowledges(r: AdapterResult) {
    r.Answered? && r.acknowledged != Some(false)
  }

  predicate Succeeds(r: AdapterResult) {
    r.Answered? && r.verified != Some(false)
  }

  function FailureCategory(r: AdapterResult): Category {
    if r.Threw? then r.category else VerificationFailed
  }

  function FailureReason(r: AdapterResult): string {
    if r.Threw? then r.message else r.reason.GetOr("verification_failed")
  }

  class ExecutionWorker {
    const workerId: string
    const queue: CommandQueue
    const repo: ExecutionRepository

    constructor (workerId: string, queue: CommandQueue, repo: ExecutionRepository)
      requires queue.repo == repo
      ensures this.workerId == workerId && this.queue == queue && this.repo == repo
    {
      this.workerId, this.queue, this.repo := workerId, queue, repo;
    }

    method FailCommand(id: string, reason: string, category: Category, now: int)
      requires queue.repo == repo
      modifies repo
      ensures repo.Snapshot() == FailedStore(old(repo.Snapshot()), id, reason, category, queue.cfg, now)
    {
      repo.PublishEvent(CommandFailed, now);
      queue.RetryLater(id, None, Some(reason), category, now);
      repo.PublishEvent(CommandRetried, now);
    }

    /** Up to the adapter call; false if no adapter serves the command. */
    method BeginProcess(id: string, adapterFound: bool, now: int) returns (calling: bool)
      requires queue.repo == repo
      modifies repo
      ensures repo.Snapshot() == BegunStore(old(repo.Snapshot()), id, adapterFound, queue.cfg, now)
      ensures calling == adapterFound
    {
      repo.PublishEvent(CommandLeased, now);
      queue.MarkStatus(id, Started, now);
      repo.PublishEvent(CommandStarted, now);
      repo.PublishEvent(ExecutionStarted, now);
      if !adapterFound {
        FailCommand(id, "adapter_unavailable", Transient, now);
        return false;
      }
      queue.MarkStatus(id, Sent, now);
      repo.PublishEvent(CommandSent, now);
      return true;
    }

    /** From the adapter's answer on. */
    method FinishProcess(id: string, result: AdapterResult, now: int)
      requires queue.repo == repo
      modifies repo
      ensures repo.Snapshot() == FinishedStore(old(repo.Snapshot()), id, result, queue.cfg, now)
    {
      if result.Threw? {
        FailCommand(id, result.message, result.category, now);
        return;
      }
      if result.acknowledged != Some(false) {
        queue.MarkStatus(id, Acknowledged, now);
        repo.PublishEvent(CommandAcknowledged, now);
      }
      if result.verified == Some(false) {
        FailCommand(id, result.reason.GetOr("verification_failed"), VerificationFailed, now);
        return;
      }
      queue.MarkStatus(id, Verified, now);
      repo.PublishEvent(CommandVerified, now);
      queue.MarkStatus(id, Completed, now);
      repo.PublishEvent(CommandCompleted, now);
      repo.PublishEvent(ExecutionCompleted, now);
    }
  }

  function FailedStore(s: Store, id: string, reason: string, category: Category, cfg: QueueConfig, now: int): Store {
    Publish(ScheduleRetry(Publish(s, CommandFailed, now), id, None, Some(reason), category, cfg, now), CommandRetried, now)
  }

  function BegunStore(s: Store, id: string, adapterFound: bool, cfg: QueueConfig, now: int): Store {
    var started := Mark(Publish(s, CommandLeased, now), id, Started, now);
    var announced := Publish(Publish(started, CommandStarted, now), ExecutionStarted, now);
    if adapterFound then Publish(Mark(announced, id, Sent, now), CommandSent, now)
    else FailedStore(announced, id, "adapter_unavailable", Transient, cfg, now)
  }

  function AfterAnswer(s: Store, id: string, result: AdapterResult, now: int): Store {
    if Acknowledges(result) then Publish(Mark(s, id, Acknowledged, now), CommandAcknowledged, now) else s
  }

  function FinishedStore(s: Store, id: string, result: AdapterResult, cfg: QueueConfig, now: int): Store {
    var t := AfterAnswer(s, id, result, now);
    if !Succeeds(result) then FailedStore(t, id, FailureReason(result), FailureCategory(result), cfg, now)
    else
      var verified := Publish(Mark(t, id, Verified, now), CommandVerified, now);
      Publish(Publish(Mark(verified, id, Completed, now), CommandCompleted, now), ExecutionCompleted, now)
  }

  // ---- The worker is the protocol's job ------------------------------------------------------------------------

  /** The commands of a store, without the event log. */
  ghost predicate SameQueue(s: Store, t: Store) {
    s.commands == t.commands && s.deadLetters == t.deadLetters
    && s.idempotencyRecords == t.idempotencyRecords && s.dispatchHistory == t.dispatchHistory
  }

  /** The protocol steps job `j` takes up to and including the adapter call. */
  function BeginSteps(j: nat, adapterFound: bool): seq<Step> {
    if adapterFound then [Begin(j), Send(j)]
    else [Begin(j), Fail(j, Some("adapter_unavailable"), Transient)]
  }

  /** The protocol steps from the answer on. */
  function FinishSteps(j: nat, result: AdapterResult): seq<Step> {
    (if result.Answered? then [Answer(j, Acknowledges(result))] else [])
    + if Succeeds(result) then [Verify(j), Complete(j)]
      else [Fail(j, Some(FailureReason(result)), FailureCategory(result))]
  }

  lemma PublishSame(s: Store, t: Store, kind: EventType, now: int)
    requires SameQueue(s, t)
    ensures SameQueue(s, Publish(t, kind, now))
  {
  }

  lemma MarkSame(s: Store, t: Store, id: string, status: Status, now: int)
    requires SameQueue(s, t)
    ensures SameQueue(Mark(s, id, status, now), Mark(t, id, status, now))
  {
  }

  lemma PatchSame(s: Store, t: Store, id: string, p: Patch, now: int)
    requires SameQueue(s, t)
    ensures SameQueue(UpdateCommand(s, id, p, now), UpdateCommand(t, id, p, now))
    ensures SameQueue(MoveToDeadLetter(UpdateCommand(s, id, p, now), id), MoveToDeadLetter(UpdateCommand(t, id, p, now), id))
  {
  }

  lemma RetrySame(s: Store, t: Store, id: string, reason: Option<string>, category: Category, cfg: QueueConfig, now: int)
    requires SameQueue(s, t)
    ensures SameQueue(ScheduleRetry(s, id, None, reason, category, cfg, now), ScheduleRetry(t, id, None, reason, category, cfg, now))
  {
    if Has(s.commands, id) {
      FailShape(cfg, s, id, reason, category, now);
      FailShape(cfg, t, id, reason, category, now);
      PatchSame(s, t, id, FailPatch(cfg, Get(s.commands, id), reason, category, now), now);
    }
  }

  lemma FailSame(s: Store, t: Store, id: string, reason: string, category: Category, cfg: QueueConfig, now: int)
    requires SameQueue(s, t)
    ensures SameQueue(ScheduleRetry(s, id, None, Some(reason), category, cfg, now), FailedStore(t, id, reason, category, cfg, now))
  {
    PublishSame(s, t, CommandFailed, now);
    var u := Publish(t, CommandFailed, now);
    RetrySame(s, u, id, Some(reason), category, cfg, now);
    PublishSame(ScheduleRetry(s, id, None, Some(reason), category, cfg, now),
                ScheduleRetry(u, id, None, Some(reason), category, cfg, now), CommandRetried, now);
  }

  lemma MarkPublishSame(s: Store, t: Store, id: string, status: Status, kind: EventType, now: int)
    requires SameQueue(s, t)
    ensures SameQueue(Mark(s, id, status, now), Publish(Mark(t, id, status, now), kind, now))
  {
    MarkSame(s, t, id, status, now);
    PublishSame(Mark(s, id, status, now), Mark(t, id, status, now), kind, now);
  }

  /** What a working step does to the store, and that the job is ready for the next one. */
  lemma WorkEffect(cfg: QueueConfig, s: State, step: Step, j: nat)
    requires Enabled(s, step) && (step == Begin(j) || step == Send(j) || step == Verify(j) || step == Complete(j))
    ensures var t := Apply(cfg, s, step);
      && t.store == Mark(s.store, s.jobs[j].commandId,
                         match step case Begin(_) => Started case Send(_) => Sent case Verify(_) => Verified case _ => Completed, s.now)
      && t.now == s.now
      && (!step.Complete? ==> t.jobs == s.jobs[j := s.jobs[j].(phase := match step case Begin(_) => Begun case Send(_) => Executing case _ => Checked)])
  {
  }

  lemma AnswerEffect(cfg: QueueConfig, s: State, j: nat, result: AdapterResult)
    requires Enabled(s, Answer(j, Acknowledges(result)))
    ensures var t := Apply(cfg, s, Answer(j, Acknowledges(result)));
      && SameQueue(t.store, AfterAnswer(s.store, s.jobs[j].commandId, result, s.now))
      && t.now == s.now && t.jobs == s.jobs[j := s.jobs[j].(phase := Phase.Answered)]
  {
  }

  lemma FailEffect(cfg: QueueConfig, s: State, j: nat, reason: string, category: Category, t: Store)
    requires j < |s.jobs| && SameQueue(s.store, t)
    ensures SameQueue(Apply(cfg, s, Fail(j, Some(reason), category)).store,
                      FailedStore(t, s.jobs[j].commandId, reason, category, cfg, s.now))
  {
    FailSame(s.store, t, s.jobs[j].commandId, reason, category, cfg, s.now);
  }

  /** What the worker does before the adapter call is a run of its job. */
  lemma BeginIsAProtocolRun(cfg: QueueConfig, s: State, j: nat, adapterFound: bool)
    requires j < |s.jobs| && s.jobs[j].phase.Granted?
    ensures var t := Run(cfg, AnyStep, s, BeginSteps(j, adapterFound));
            t.Some? && SameQueue(t.value.store, BegunStore(s.store, s.jobs[j].commandId, adapterFound, cfg, s.now))
  {
    var id, now := s.jobs[j].commandId, s.now;
    var s1 := Apply(cfg, s, Begin(j));
    WorkEffect(cfg, s, Begin(j), j);
    PublishSame(s.store, s.store, CommandLeased, now);
    MarkPublishSame(s.store, Publish(s.store, CommandLeased, now), id, Started, CommandStarted, now);
    var started := Publish(Mark(Publish(s.store, CommandLeased, now), id, Started, now), CommandStarted, now);
    PublishSame(s1.store, started, ExecutionStarted, now);
    var announced := Publish(started, ExecutionStarted, now);
    if adapterFound {
      RunCons(cfg, AnyStep, s, Begin(j), [Send(j)]);
      RunOne(cfg, AnyStep, s1, Send(j));
      WorkEffect(cfg, s1, Send(j), j);
      MarkPublishSame(s1.store, announced, id, Sent, CommandSent, now);
      assert [Begin(j)] + [Send(j)] == BeginSteps(j, true);
    } else {
      var failing := Fail(j, Some("adapter_unavailable"), Transient);
      RunCons(cfg, AnyStep, s, Begin(j), [failing]);
      RunOne(cfg, AnyStep, s1, failing);
      FailEffect(cfg, s1, j, "adapter_unavailable", Transient, announced);
      assert [Begin(j)] + [failing] == BeginSteps(j, false);
    }
  }

  lemma SucceedingRun(cfg: QueueConfig, s: State, j: nat, u: Store)
    requires j < |s.jobs| && s.jobs[j].phase.Answered? && SameQueue(s.store, u)
    ensures var id, now := s.jobs[j].commandId, s.now;
            var verified := Publish(Mark(u, id, Verified, now), CommandVerified, now);
            var done := Publish(Publish(Mark(verified, id, Completed, now), CommandCompleted, now), ExecutionCompleted, now);
            var t := Run(cfg, AnyStep, s, [Verify(j), Complete(j)]);
            t.Some? && SameQueue(t.value.store, done)
  {
    var id, now := s.jobs[j].commandId, s.now;
    var s1 := Apply(cfg, s, Verify(j));
    WorkEffect(cfg, s, Verify(j), j);
    WorkEffect(cfg, s1, Complete(j), j);
    MarkPublishSame(s.store, u, id, Verified, CommandVerified, now);
    var verified := Publish(Mark(u, id, Verified, now), CommandVerified, now);
    MarkPublishSame(s1.store, verified, id, Completed, CommandCompleted, now);
    PublishSame(Apply(cfg, s1, Complete(j)).store, Publish(Mark(verified, id, Completed, now), CommandCompleted, now), ExecutionCompleted, now);
    RunCons(cfg, AnyStep, s, Verify(j), [Complete(j)]);
    RunOne(cfg, AnyStep, s1, Complete(j));
    assert [Verify(j)] + [Complete(j)] == [Verify(j), Complete(j)];
  }

  /** What the worker does after the adapter call is a run of its job, whatever the call came to. */
  lemma FinishIsAProtocolRun(cfg: QueueConfig, s: State, j: nat, result: AdapterResult)
    requires j < |s.jobs| && s.jobs[j].phase.Executing?
    ensures var t := Run(cfg, AnyStep, s, FinishSteps(j, result));
            t.Some? && SameQueue(t.value.store, FinishedStore(s.store, s.jobs[j].commandId, result, cfg, s.now))
  {
    var reason, category := FailureReason(result), FailureCategory(result);
    var failing := Fail(j, Some(reason), category);
    if result.Threw? {
      assert FinishSteps(j, result) == [failing];
      RunOne(cfg, AnyStep, s, failing);
      FailEffect(cfg, s, j, reason, category, s.store);
    } else {
      var answering := Answer(j, Acknowledges(result));
      var s1 := Apply(cfg, s, answering);
      var u := AfterAnswer(s.store, s.jobs[j].commandId, result, s.now);
      AnswerEffect(cfg, s, j, result);
      if Succeeds(result) {
        assert FinishSteps(j, result) == [answering] + [Verify(j), Complete(j)];
        RunCons(cfg, AnyStep, s, answering, [Verify(j), Complete(j)]);
        SucceedingRun(cfg, s1, j, u);
      } else {
        assert FinishSteps(j, result) == [answering] + [failing];
        RunCons(cfg, AnyStep, s, answering, [failing]);
        RunOne(cfg, AnyStep, s1, failing);
        FailEffect(cfg, s1, j, reason, category, u);
      }
    }
  }

  /** What a failure makes of a command. */
  function AfterFailure(c: Command, reason: string, category: Category, cfg: QueueConfig, now: int): Command {
    var failed := WithFailure(c, Some(reason), category, now);
    if failed.retryCount > cfg.maxRetries || category in FINAL_CATEGORIES then failed.(status := DeadLettered)
    else Retried(failed, None, now)
  }

  /** What the adapter's call makes of it: an answer completes it unless the order could not be verified. */
  function AfterCall(c: Command, result: AdapterResult, cfg: QueueConfig, now: int): Command {
    match result
    case Threw(category, message) => AfterFailure(c, message, category, cfg, now)
    case Answered(_, verified, reason) =>
      if verified == Some(false) then
        AfterFailure(c, if reason.Some? then reason.value else "verification_failed", VerificationFailed, cfg, now)
      else c.(status := Completed, updatedAt := now)
  }

  /** The store is the same but for the command at the place of `id`, which is `c`. */
  ghost predicate Replaced(s: Store, id: string, c: Command, t: Store)
    requires Has(s.commands, id)
  {
    && t.commands == s.commands[IndexOf(s.commands, id) := c] && t.deadLetters == s.deadLetters
    && t.idempotencyRecords == s.idempotencyRecords && t.dispatchHistory == s.dispatchHistory
  }

  lemma ReplacedPatched(s: Store, id: string, c: Command, t: Store, p: Patch, now: int)
    requires Has(s.commands, id) && Replaced(s, id, c, t) && c.commandId == id
    ensures IndexOf(t.commands, id) == IndexOf(s.commands, id) && Get(t.commands, id) == c
    ensures Replaced(s, id, ApplyPatch(c, p, now), UpdateCommand(t, id, p, now))
    ensures ApplyPatch(c, p, now).commandId == id
  {
    var i := IndexOf(s.commands, id);
    SamePrefixSameIndex(s.commands, t.commands, id);
    assert t.commands[i := ApplyPatch(c, p, now)] == s.commands[i := ApplyPatch(c, p, now)];
    assert Core(ApplyPatch(c, p, now)).commandId == Core(c).commandId;
  }

  lemma SamePrefixSameIndex(cs: seq<Command>, ds: seq<Command>, id: string)
    requires Has(cs, id) && |ds| == |cs| && ds[IndexOf(cs, id)].commandId == id
    requires forall k | 0 <= k < IndexOf(cs, id) :: ds[k] == cs[k]
    ensures IndexOf(ds, id) == IndexOf(cs, id)
  {
    var i, j := IndexOf(cs, id), IndexOf(ds, id);
    assert j < |ds| ==> ds[j].commandId == id;
  }

  lemma ReplacedMarked(s: Store, id: string, c: Command, t: Store, status: Status, now: int)
    requires Has(s.commands, id) && Replaced(s, id, c, t) && c.commandId == id
    ensures Replaced(s, id, c.(status := status, updatedAt := now), Mark(t, id, status, now))
  {
    ReplacedPatched(s, id, c, t, NO_CHANGE.(status := Set(status)), now);
  }

  lemma AnswerReplaces(s: Store, id: string, result: AdapterResult, now: int) returns (c: Command)
    requires Has(s.commands, id)
    ensures Replaced(s, id, c, AfterAnswer(s, id, result, now)) && c.commandId == id
    ensures c == Get(s.commands, id) || c == Get(s.commands, id).(status := Acknowledged, updatedAt := now)
  {
    c := Get(s.commands, id);
    if Acknowledges(result) {
      ReplacedMarked(s, id, c, s, Acknowledged, now);
      c := c.(status := Acknowledged, updatedAt := now);
    }
  }

  lemma SuccessReplaces(s: Store, id: string, c: Command, t: Store, now: int)
    requires Has(s.commands, id) && Replaced(s, id, c, t) && c.commandId == id
    ensures var verified := Publish(Mark(t, id, Verified, now), CommandVerified, now);
            Replaced(s, id, c.(status := Completed, updatedAt := now),
                     Publish(Publish(Mark(verified, id, Completed, now), CommandCompleted, now), ExecutionCompleted, now))
  {
    ReplacedMarked(s, id, c, t, Verified, now);
    var verified := Publish(Mark(t, id, Verified, now), CommandVerified, now);
    ReplacedMarked(s, id, c.(status := Verified, updatedAt := now), verified, Completed, now);
  }

  lemma FailureReplaces(
    s: Store, id: string, c: Command, t: Store, reason: string, category: Category, cfg: QueueConfig, now: int)
    returns (patched: Store)
    requires Has(s.commands, id) && Replaced(s, id, c, t) && c.commandId == id
    ensures Replaced(s, id, ApplyPatch(c, FailPatch(cfg, c, Some(reason), category, now), now), patched)
    ensures IndexOf(patched.commands, id) == IndexOf(s.commands, id)
    ensures var f := FailedStore(t, id, reason, category, cfg, now);
            var stored := if GivesUp(c, category, cfg) then MoveToDeadLetter(patched, id) else patched;
            SameQueue(f, stored)
  {
    var u := Publish(t, CommandFailed, now);
    var p := FailPatch(cfg, c, Some(reason), category, now);
    ReplacedPatched(s, id, c, u, p, now);
    FailShape(cfg, u, id, Some(reason), category, now);
    patched := UpdateCommand(u, id, p, now);
    ReplacedPatched(s, id, ApplyPatch(c, p, now), patched, NO_CHANGE, now);
  }

  /** A failure overwrites whatever the acknowledgement wrote. */
  lemma FailureSettles(before: Command, c: Command, reason: string, category: Category, cfg: QueueConfig, now: int)
    requires c == before || c == before.(status := Acknowledged, updatedAt := now) || c == before.(status := Started, updatedAt := now)
    ensures GivesUp(c, category, cfg) <==> AfterFailure(before, reason, category, cfg, now).status.DeadLettered?
    ensures ApplyPatch(c, FailPatch(cfg, c, Some(reason), category, now), now) == AfterFailure(before, reason, category, cfg, now)
  {
    FatalIsFinal(category);
  }

  /** The command became `c`: in its place, or at the end of the dead letters if that is its status. */
  ghost predicate Became(s: Store, id: string, c: Command, t: Store)
    requires Has(s.commands, id)
  {
    if c.status.DeadLettered? then
      t.commands == RemoveAt(s.commands, IndexOf(s.commands, id)) && t.deadLetters == s.deadLetters + [c]
      && t.idempotencyRecords == s.idempotencyRecords && t.dispatchHistory == s.dispatchHistory
    else Replaced(s, id, c, t)
  }

  lemma {:induction false} FailureBecomes(
    s: Store, id: string, c: Command, t: Store, reason: string, category: Category, cfg: QueueConfig, now: int)
    requires Has(s.commands, id) && Replaced(s, id, c, t) && c.commandId == id
    requires var before := Get(s.commands, id);
             c == before || c == before.(status := Acknowledged, updatedAt := now) || c == before.(status := Started, updatedAt := now)
    ensures Became(s, id, AfterFailure(Get(s.commands, id), reason, category, cfg, now), FailedStore(t, id, reason, category, cfg, now))
  {
    FailureSettles(Get(s.commands, id), c, reason, category, cfg, now);
    var patched := FailureReplaces(s, id, c, t, reason, category, cfg, now);
    RemovedAfterReplace(s.commands, IndexOf(s.commands, id), AfterFailure(Get(s.commands, id), reason, category, cfg, now));
  }

  /** Up to the adapter call the command is sent; without an adapter it fails as a transient failure. */
  lemma {:induction false} BeginOutcome(s: Store, id: string, adapterFound: bool, cfg: QueueConfig, now: int)
    requires Has(s.commands, id)
    ensures var c, t := Get(s.commands, id), BegunStore(s, id, adapterFound, cfg, now);
            Became(s, id, if adapterFound then c.(status := Sent, updatedAt := now)
                          else AfterFailure(c, "adapter_unavailable", Transient, cfg, now), t)
  {
    var c, leased := Get(s.commands, id), Publish(s, CommandLeased, now);
    ReplacedMarked(s, id, c, leased, Started, now);
    var begun := c.(status := Started, updatedAt := now);
    var announced := Publish(Publish(Mark(leased, id, Started, now), CommandStarted, now), ExecutionStarted, now);
    assert Replaced(s, id, begun, announced);
    if adapterFound {
      ReplacedMarked(s, id, begun, announced, Sent, now);
    } else {
      FailureBecomes(s, id, begun, announced, "adapter_unavailable", Transient, cfg, now);
    }
  }

  /**
   Undisturbed, the command becomes what the adapter's own answer says. It is completed iff the call answered and did not
   say that the order is unverified; a failure carries the thrown or the verification category and message. No other
   command and no key record changes.
   */
  lemma {:induction false} FinishOutcome(s: Store, id: string, result: AdapterResult, cfg: QueueConfig, now: int)
    requires Has(s.commands, id)
    ensures Became(s, id, AfterCall(Get(s.commands, id), result, cfg, now), FinishedStore(s, id, result, cfg, now))
    ensures AfterCall(Get(s.commands, id), result, cfg, now).status.Completed? <==> result.Answered? && result.verified != Some(false)
  {
    var u := AfterAnswer(s, id, result, now);
    var c := AnswerReplaces(s, id, result, now);
    if result.Answered? && result.verified != Some(false) {
      SuccessReplaces(s, id, c, u, now);
    } else {
      FailureBecomes(s, id, c, u, FailureReason(result), FailureCategory(result), cfg, now);
    }
  }

  lemma RemovedAfterReplace<T>(s: seq<T>, i: nat, x: T)
    requires i < |s|
    ensures RemoveAt(s[i := x], i) == RemoveAt(s, i) && s[i := x][i] == x
  {
  }

  // ---- What is announced ----------------------------------------------------------------------------------------

  lemma FailureAnnounces(s: Store, id: string, reason: string, category: Category, cfg: QueueConfig, now: int)
    ensures Kinds(FailedStore(s, id, reason, category, cfg, now)) == Kinds(s) + [CommandFailed, CommandRetried]
  {
    var failed := Publish(s, CommandFailed, now);
    PublishAnnounces(s, CommandFailed, now);
    var retried := ScheduleRetry(failed, id, None, Some(reason), category, cfg, now);
    assert retried.events == failed.events;
    PublishAnnounces(retried, CommandRetried, now);
  }

  /** The events before the adapter call. */
  lemma BeginAnnounces(s: Store, id: string, adapterFound: bool, cfg: QueueConfig, now: int)
    ensures Kinds(BegunStore(s, id, adapterFound, cfg, now))
         == Kinds(s) + [CommandLeased, CommandStarted, ExecutionStarted] + if adapterFound then [CommandSent] else [CommandFailed, CommandRetried]
  {
    var leased := Publish(s, CommandLeased, now);
    PublishAnnounces(s, CommandLeased, now);
    var started := Mark(leased, id, Started, now);
    PublishAnnounces(started, CommandStarted, now);
    PublishAnnounces(Publish(started, CommandStarted, now), ExecutionStarted, now);
    var announced := Publish(Publish(started, CommandStarted, now), ExecutionStarted, now);
    if adapterFound {
      PublishAnnounces(Mark(announced, id, Sent, now), CommandSent, now);
    } else {
      FailureAnnounces(announced, id, "adapter_unavailable", Transient, cfg, now);
    }
  }

  /** The events after it: acknowledged unless the adapter denied it, then verified and completed, or failed. */
  lemma FinishAnnounces(s: Store, id: string, result: AdapterResult, cfg: QueueConfig, now: int)
    ensures Kinds(FinishedStore(s, id, result, cfg, now))
         == Kinds(s)
            + (if result.Answered? && result.acknowledged != Some(false) then [CommandAcknowledged] else [])
            + (if result.Answered? && result.verified != Some(false) then [CommandVerified, CommandCompleted, ExecutionCompleted]
               else [CommandFailed, CommandRetried])
  {
    var t := AfterAnswer(s, id, result, now);
    PublishAnnounces(Mark(s, id, Acknowledged, now), CommandAcknowledged, now);
    if result.Answered? && result.verified != Some(false) {
      PublishAnnounces(Mark(t, id, Verified, now), CommandVerified, now);
      var verified := Publish(Mark(t, id, Verified, now), CommandVerified, now);
      var completed := Mark(verified, id, Completed, now);
      PublishAnnounces(completed, CommandCompleted, now);
      PublishAnnounces(Publish(completed, CommandCompleted, now), ExecutionCompleted, now);
    } else {
      FailureAnnounces(t, id, FailureReason(result), FailureCategory(result), cfg, now);
    }
  }
}
