/** The durable command queue as functions on the store (v2/src/execution-core/queue.ts). */
module QueueModel {
  import opened Common
  import opened Ordering
  import opened ExecutionTypes
  import opened StoreModel

  /** The visibility timeout of a lease and the retry budget of a command. */
  datatype QueueConfig = QueueConfig(visibilityTimeoutMs: int, maxRetries: nat)

  predicate IsDue(c: Command, now: int) {
    (c.status.Queued? || c.status.RetryScheduled?) && (c.retryAt.None? || c.retryAt.value <= now)
  }

  /** Higher priority first, then older first. */
  predicate RankedBefore(a: Command, b: Command) {
    a.priority > b.priority || (a.priority == b.priority && a.createdAt <= b.createdAt)
  }

  function DueCommands(cs: seq<Command>, now: int): seq<Command> {
    Filter(cs, (c: Command) => IsDue(c, now))
  }

  function RankedDue(cs: seq<Command>, now: int): seq<Command> {
    StableSort(DueCommands(cs, now), RankedBefore)
  }

  /** The commands one lease call takes. */
  function Chosen(cs: seq<Command>, batch: nat, now: int): seq<Command> {
    var due := RankedDue(cs, now);
    if batch < |due| then due[..batch] else due
  }

  function LeasePatch(worker: string, until: int): Patch {
    NO_CHANGE.(status := Set(Leased), leasedBy := Set(Some(worker)), leaseExpiration := Set(Some(until)))
  }

  function GrantLease(s: Store, id: string, seen: Status, worker: string, cfg: QueueConfig, now: int): Store {
    CompareAndSet(s, id, ExpectStatus(seen), LeasePatch(worker, now + cfg.visibilityTimeoutMs), now)
  }

  function RenewLease(s: Store, id: string, worker: string, cfg: QueueConfig, now: int): Store {
    CompareAndSet(s, id, ExpectHolder(worker),
                  NO_CHANGE.(leaseExpiration := Set(Some(now + cfg.visibilityTimeoutMs))), now)
  }

  const RELEASE_PATCH := NO_CHANGE.(status := Set(Queued), leasedBy := Set(None), leaseExpiration := Set(None))

  function ReleaseLease(s: Store, id: string, worker: string, now: int): Store {
    CompareAndSet(s, id, ExpectHolder(worker), RELEASE_PATCH, now)
  }

  function Mark(s: Store, id: string, status: Status, now: int): Store {
    UpdateCommand(s, id, NO_CHANGE.(status := Set(status)), now)
  }

  /** Categories that are never retried. */
  predicate Fatal(category: Category) {
    category.Permanent? || category.Authentication? || category.ManualInterventionRequired? || category.Duplicate?
  }

  function DeadPatch(retryCount: nat, reason: Option<string>, category: Category): Patch {
    NO_CHANGE.(status := Set(DeadLettered), retryCount := Set(retryCount),
               failureReason := Set(reason), failureCategory := Set(Some(category)))
  }

  function RetryPatch(retryCount: nat, retryAt: int, reason: Option<string>, category: Category): Patch {
    NO_CHANGE.(status := Set(RetryScheduled), retryCount := Set(retryCount), retryAt := Set(Some(retryAt)),
               failureReason := Set(reason), failureCategory := Set(Some(category)),
               leasedBy := Set(None), leaseExpiration := Set(None))
  }

  predicate GivesUp(c: Command, category: Category, cfg: QueueConfig) {
    c.retryCount + 1 > cfg.maxRetries || Fatal(category)
  }

  function ScheduleRetry(
    s: Store, id: string, retryAt: Option<int>, reason: Option<string>, category: Category, cfg: QueueConfig, now: int): Store
  {
    if !Has(s.commands, id) then s
    else
      var c := Get(s.commands, id);
      var n := c.retryCount + 1;
      if GivesUp(c, category, cfg)
      then MoveToDeadLetter(UpdateCommand(s, id, DeadPatch(n, reason, category), now), id)
      else UpdateCommand(s, id, RetryPatch(n, retryAt.GetOr(now + n * 1000), reason, category), now)
  }
}
