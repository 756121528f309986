/** What a lease call promises, and that it is a run of single grants in the protocol. */
module QueueProperties {
  import opened Common
  import opened Ordering
  import opened ExecutionTypes
  import opened StoreModel
  import opened QueueModel
  import opened Queue
  import opened Protocol
  import opened ProtocolInvariants

  /** Waiting, and not told to wait any longer. */
  predicate Waiting(c: Command, now: int) {
    match c.status
    case Queued => c.retryAt.GetOr(now) <= now
    case RetryScheduled => c.retryAt.GetOr(now) <= now
    case _ => false
  }

  /** Neither more urgent nor, at the same priority, older. */
  predicate Yields(c: Command, d: Command) {
    if c.priority == d.priority then d.createdAt <= c.createdAt else c.priority < d.priority
  }

  /**
   The lease takes at most a batch of waiting commands, the most urgent first and among equals the oldest first.
   It leaves a waiting command behind only if the batch is full, and none that is left is more urgent or, at the same
   priority, older than a taken one.
   */
  lemma LeaseTakesTheBest(cs: seq<Command>, batch: nat, now: int)
    requires UniqueIds(cs)
    ensures var chosen := Chosen(cs, batch, now);
      && |chosen| <= batch
      && (forall c | c in chosen :: c in cs && Waiting(c, now))
      && (forall i, j | 0 <= i < j < |chosen| :: Yields(chosen[j], chosen[i]))
      && (forall c, d | c in chosen && d in cs && Waiting(d, now) && d !in chosen :: Yields(d, c))
      && (|chosen| < batch ==> forall d | d in cs && Waiting(d, now) :: d in chosen)
  {
    var due, ranked := DueCommands(cs, now), RankedDue(cs, now);
    var chosen := Chosen(cs, batch, now);
    RankIsTotal();
    SortSorts(due, RankedBefore);
    SameMembers(ranked, due);
    ChosenFacts(cs, batch, now);
    assert forall c :: IsDue(c, now) <==> Waiting(c, now);
    assert forall c, d :: RankedBefore(c, d) <==> Yields(d, c);
    forall d | d in cs && Waiting(d, now) && d !in chosen
      ensures |chosen| == batch && forall c | c in chosen :: Yields(d, c)
    {
      assert d in ranked;
      var j :| 0 <= j < |ranked| && ranked[j] == d;
      forall c | c in chosen
        ensures Yields(d, c)
      {
        var i :| 0 <= i < |chosen| && chosen[i] == c;
        assert j >= |chosen| && RankedBefore(ranked[i], ranked[j]);
      }
    }
    forall i, j | 0 <= i < j < |chosen|
      ensures Yields(chosen[j], chosen[i])
    {
      assert RankedBefore(ranked[i], ranked[j]);
    }
  }

  /** Commands that rank equal are leased in the order they are queued. */
  lemma TiesKeepQueueOrder(cs: seq<Command>, now: int, pivot: Command)
    ensures Filter(RankedDue(cs, now), TiedWith(RankedBefore, pivot)) == Filter(DueCommands(cs, now), TiedWith(RankedBefore, pivot))
  {
    RankIsTotal();
    SortIsStable(DueCommands(cs, now), RankedBefore, pivot);
  }

  /** A lease touches the taken commands and no other; each is held by the worker until now + timeout. */
  lemma LeaseTouchesOnlyChosen(cs: seq<Command>, batch: nat, worker: string, cfg: QueueConfig, now: int, i: nat)
    requires UniqueIds(cs) && i < |cs|
    ensures var r := LeaseIds(cs, Ids(Chosen(cs, batch, now)), worker, cfg, now);
            if cs[i] in Chosen(cs, batch, now)
            then r[i] == cs[i].(status := Leased, leasedBy := Some(worker),
                                leaseExpiration := Some(now + cfg.visibilityTimeoutMs), updatedAt := now)
            else r[i] == cs[i]
  {
    var chosen := Chosen(cs, batch, now);
    LeaseAt(cs, Ids(chosen), i, worker, cfg, now);
    ChosenFacts(cs, batch, now);
    if cs[i] in chosen {
      MemberMapped(IdOf, chosen, cs[i]);
    }
    forall k | 0 <= k < |chosen|
      ensures chosen[k].commandId == cs[i].commandId ==> chosen[k] == cs[i]
    {
      assert chosen[k] in chosen;
    }
  }

  function GrantSteps(chosen: seq<Command>, worker: string): seq<Step> {
    Map((c: Command) => Grant(worker, c.commandId), chosen)
  }

  lemma {:induction false} GrantsFrom(cfg: QueueConfig, s: State, cs: seq<Command>, chosen: seq<Command>, k: nat, worker: string)
    requires UniqueIds(cs) && UniqueIds(chosen) && k <= |chosen|
    requires forall c | c in chosen :: c in cs && IsDue(c, s.now)
    requires s.store.commands == LeaseIds(cs, Ids(chosen[..k]), worker, cfg, s.now)
    ensures var t := Run(cfg, AnyStep, s, GrantSteps(chosen[k..], worker));
            t.Some? && t.value.store == s.store.(commands := LeaseIds(cs, Ids(chosen), worker, cfg, s.now))
    decreases |chosen| - k
  {
    var steps := GrantSteps(chosen[k..], worker);
    if k == |chosen| {
      assert chosen[..k] == chosen;
    } else {
      var c := chosen[k];
      LeaseOneMore(cs, chosen, k, worker, cfg, s.now);
      assert steps[0] == Grant(worker, c.commandId);
      assert c in chosen;
      var t := Apply(cfg, s, steps[0]);
      assert t.store == s.store.(commands := LeaseIds(cs, Ids(chosen[..k + 1]), worker, cfg, s.now));
      GrantsFrom(cfg, t, cs, chosen, k + 1, worker);
      assert steps[1..] == GrantSteps(chosen[k + 1..], worker);
    }
  }

  /** A whole lease call is a run of the protocol: one grant per taken command, in rank order. */
  lemma LeaseIsAProtocolRun(cfg: QueueConfig, s: State, worker: string, batch: nat)
    requires UniqueIds(s.store.commands)
    ensures var chosen := Chosen(s.store.commands, batch, s.now);
            var t := Run(cfg, AnyStep, s, GrantSteps(chosen, worker));
            t.Some? && t.value.store == s.store.(commands := LeaseIds(s.store.commands, Ids(chosen), worker, cfg, s.now))
  {
    var chosen := Chosen(s.store.commands, batch, s.now);
    ChosenFacts(s.store.commands, batch, s.now);
    LeaseNone(s.store.commands, worker, cfg, s.now);
    assert chosen[..0] == [] && chosen[0..] == chosen;
    GrantsFrom(cfg, s, s.store.commands, chosen, 0, worker);
  }

  /** Keys reserved by the queue never expire, so offering a key again at any later time only counts a duplicate. */
  lemma EnqueueTwice(s: Store, c: Command, d: Command, now: int, later: int)
    requires forall k | k in s.idempotencyRecords :: s.idempotencyRecords[k].expiresAt.None?
    requires d.idempotencyKey == c.idempotencyKey
    ensures var t := Enqueued(s, c, now);
            Enqueued(t, d, later) == t.(duplicatePreventionCount := t.duplicatePreventionCount + 1)
  {
  }

  function EnqueueSteps(s: State, c: Command): seq<Step> {
    if Reserved(s.store, c.idempotencyKey, s.now) then [Reserve(c)] else [Reserve(c), Insert(|s.pending|)]
  }

  lemma ReserveEffect(cfg: QueueConfig, s: State, c: Command)
    requires Planned(c) && c.commandId !in s.usedIds
    ensures var u := Apply(cfg, s, Reserve(c));
            u.store == ReserveIdempotency(s.store, c.idempotencyKey, c.commandId, None, s.now) && u.now == s.now
            && u.usedIds == s.usedIds + {c.commandId}
            && u.pending == if Reserved(s.store, c.idempotencyKey, s.now) then s.pending else s.pending + [c]
  {
  }

  lemma InsertLastEffect(cfg: QueueConfig, s: State, pending: seq<Command>, c: Command)
    requires s.pending == pending + [c]
    ensures var t := Apply(cfg, s, Insert(|pending|));
            t.store == InsertCommand(s.store, c) && t.now == s.now && t.usedIds == s.usedIds && t.pending == pending
  {
    assert RemoveAt(s.pending, |pending|) == pending;
  }

  /** Queueing is the protocol's reservation followed by its insertion, whatever others have reserved meanwhile. */
  lemma EnqueueIsAProtocolRun(cfg: QueueConfig, s: State, c: Command) returns (t: State)
    requires Planned(c) && c.commandId !in s.usedIds
    ensures Run(cfg, AnyStep, s, EnqueueSteps(s, c)) == Some(t)
    ensures t.store == Enqueued(s.store, c, s.now)
    ensures t.pending == s.pending && t.now == s.now && t.usedIds == s.usedIds + {c.commandId}
  {
    var u := Apply(cfg, s, Reserve(c));
    ReserveEffect(cfg, s, c);
    if Reserved(s.store, c.idempotencyKey, s.now) {
      t := u;
      RunOne(cfg, AnyStep, s, Reserve(c));
    } else {
      t := Apply(cfg, u, Insert(|s.pending|));
      InsertLastEffect(cfg, u, s.pending, c);
      RunCons(cfg, AnyStep, s, Reserve(c), [Insert(|s.pending|)]);
      RunOne(cfg, AnyStep, u, Insert(|s.pending|));
      assert [Reserve(c)] + [Insert(|s.pending|)] == EnqueueSteps(s, c);
    }
  }

  // ---- The holder's operations, field by field ------------------------------------------------------------------

  /** The queue with another command in the place of the first one with this id. */
  function Put(cs: seq<Command>, id: string, c: Command): seq<Command>
    requires Has(cs, id)
  {
    cs[IndexOf(cs, id) := c]
  }

  /** Renewing and releasing reach the command iff the worker is named as its holder; only the lease, or the lease and status, change. */
  lemma HolderOperations(s: Store, id: string, worker: string, cfg: QueueConfig, now: int)
    ensures var held := Has(s.commands, id) && Get(s.commands, id).leasedBy == Some(worker);
            if held then
              var c := Get(s.commands, id);
              RenewLease(s, id, worker, cfg, now)
              == s.(commands := Put(s.commands, id, c.(leaseExpiration := Some(now + cfg.visibilityTimeoutMs), updatedAt := now)))
              && ReleaseLease(s, id, worker, now)
                 == s.(commands := Put(s.commands, id, c.(status := Queued, leasedBy := None, leaseExpiration := None, updatedAt := now)))
            else RenewLease(s, id, worker, cfg, now) == s && ReleaseLease(s, id, worker, now) == s
  {
  }

  lemma MarkInFields(s: Store, id: string, status: Status, now: int)
    ensures Mark(s, id, status, now)
         == if Has(s.commands, id) then s.(commands := Put(s.commands, id, Get(s.commands, id).(status := status, updatedAt := now)))
            else s
  {
  }

  /** The categories no retry can help with. */
  const FINAL_CATEGORIES: set<Category> := {Permanent, Authentication, ManualInterventionRequired, Duplicate}

  lemma FatalIsFinal(category: Category)
    ensures Fatal(category) <==> category in FINAL_CATEGORIES
  {
  }

  /** The command with one more failure on record. */
  function WithFailure(c: Command, reason: Option<string>, category: Category, now: int): Command {
    c.(retryCount := c.retryCount + 1, failureReason := reason, failureCategory := Some(category), updatedAt := now)
  }

  function Retried(c: Command, retryAt: Option<int>, now: int): Command {
    c.(status := RetryScheduled, leasedBy := None, leaseExpiration := None,
       retryAt := Some(if retryAt.Some? then retryAt.value else now + 1000 * c.retryCount))
  }

  lemma BuriedInFields(s: Store, id: string, reason: Option<string>, category: Category, now: int)
    requires Has(s.commands, id)
    ensures var c := Get(s.commands, id);
            MoveToDeadLetter(UpdateCommand(s, id, DeadPatch(c.retryCount + 1, reason, category), now), id)
            == s.(commands := RemoveAt(s.commands, IndexOf(s.commands, id)),
                  deadLetters := s.deadLetters + [WithFailure(c, reason, category, now).(status := DeadLettered)])
  {
    var c, i := Get(s.commands, id), IndexOf(s.commands, id);
    var p := DeadPatch(c.retryCount + 1, reason, category);
    PatchHitsSameIndex(s.commands, id, p, now);
    PutThenRemove(s.commands, i, ApplyPatch(c, p, now));
  }

  lemma PutThenRemove<T>(s: seq<T>, i: nat, x: T)
    requires i < |s|
    ensures RemoveAt(s[i := x], i) == RemoveAt(s, i)
  {
  }

  lemma RetriedInFields(s: Store, id: string, retryAt: Option<int>, reason: Option<string>, category: Category, now: int)
    requires Has(s.commands, id)
    ensures var c := Get(s.commands, id);
            UpdateCommand(s, id, RetryPatch(c.retryCount + 1, retryAt.GetOr(now + (c.retryCount + 1) * 1000), reason, category), now)
            == s.(commands := Put(s.commands, id, Retried(WithFailure(c, reason, category, now), retryAt, now)))
  {
  }

  /**
   A failure is counted. The command is buried iff the count exceeds the limit or the category is final; otherwise it is
   retried at the given time, by default a second later for every failure so far, with no holder.
   */
  lemma FailureIsCounted(
    s: Store, id: string, retryAt: Option<int>, reason: Option<string>, category: Category, cfg: QueueConfig, now: int)
    requires Has(s.commands, id)
    ensures var failed := WithFailure(Get(s.commands, id), reason, category, now);
            ScheduleRetry(s, id, retryAt, reason, category, cfg, now)
            == if failed.retryCount > cfg.maxRetries || category in FINAL_CATEGORIES then
                 s.(commands := RemoveAt(s.commands, IndexOf(s.commands, id)),
                    deadLetters := s.deadLetters + [failed.(status := DeadLettered)])
               else s.(commands := Put(s.commands, id, Retried(failed, retryAt, now)))
  {
    FatalIsFinal(category);
    RetryShape(s, id, retryAt, reason, category, cfg, now);
    BuriedInFields(s, id, reason, category, now);
    RetriedInFields(s, id, retryAt, reason, category, now);
  }

  /** A reservation holds until its time to live is over, or for good if it has none. */
  lemma ReservationLasts(s: Store, key: string, id: string, ttl: Option<nat>, now: int, later: int)
    requires !Reserved(s, key, now)
    ensures var t := ReserveIdempotency(s, key, id, ttl, now);
      && (Reserved(t, key, later) <==> ttl.None? || ttl.value == 0 || later < now + ttl.value)
      && key in t.idempotencyRecords && t.idempotencyRecords[key].commandId == id && t.idempotencyRecords[key].createdAt == now
      && HasDispatched(t, key) && t.duplicatePreventionCount == s.duplicatePreventionCount
      && (forall k | k != key :: k in t.idempotencyRecords <==> k in s.idempotencyRecords)
  {
  }

  /** A command is taken in iff neither its id nor its key is among the live ones. */
  lemma InsertedIff(s: Store, c: Command)
    ensures var t := InsertCommand(s, c);
            if c.commandId in Ids(s.commands) || c.idempotencyKey in Keys(s.commands) then t == s
            else t == s.(commands := s.commands + [c])
  {
    var ids, keys := Ids(s.commands), Keys(s.commands);
    assert forall i | 0 <= i < |s.commands| :: ids[i] == s.commands[i].commandId && keys[i] == s.commands[i].idempotencyKey;
    if i :| 0 <= i < |s.commands| && s.commands[i].commandId == c.commandId {
      assert ids[i] in ids;
    }
    if i :| 0 <= i < |s.commands| && s.commands[i].idempotencyKey == c.idempotencyKey {
      assert keys[i] in keys;
    }
  }

  /** A refused offer is answered with the first stored command that has the key, if there is one. */
  lemma {:induction false} ExistingIsFirst(cs: seq<Command>, c: Command, k: nat)
    requires k < |cs| && cs[k].idempotencyKey == c.idempotencyKey
    requires forall i | 0 <= i < k :: cs[i].idempotencyKey != c.idempotencyKey
    ensures Existing(cs, c) == cs[k]
  {
    FilterFindsFirst(cs, (d: Command) => d.idempotencyKey == c.idempotencyKey, k);
  }

  lemma {:induction false} FilterFindsFirst<T>(s: seq<T>, p: T -> bool, k: nat)
    requires k < |s| && p(s[k]) && forall i | 0 <= i < k :: !p(s[i])
    ensures Filter(s, p) != [] && Filter(s, p)[0] == s[k]
  {
    if k > 0 {
      FilterFindsFirst(s[1..], p, k - 1);
    }
  }
}
