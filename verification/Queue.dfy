/** The durable command queue over a repository (v2/src/execution-core/queue.ts). */
module Queue {
  import opened Common
  import opened Ordering
  import opened ExecutionTypes
  import opened StoreModel
  import opened QueueModel
  import opened Repository

  function Enqueued(s: Store, c: Command, now: int): Store {
    if Reserved(s, c.idempotencyKey, now) then ReserveIdempotency(s, c.idempotencyKey, c.commandId, None, now)
    else InsertCommand(ReserveIdempotency(s, c.idempotencyKey, c.commandId, None, now), c)
  }

  /** The stored command that already has this key, or the offered one. */
  function Existing(cs: seq<Command>, c: Command): (r: Command)
    ensures r == c || (r in cs && r.idempotencyKey == c.idempotencyKey)
  {
    var same := Filter(cs, (d: Command) => d.idempotencyKey == c.idempotencyKey);
    if same == [] then c
    else
      assert same[0] in same;
      same[0]
  }

  function LeasedForm(c: Command, worker: string, cfg: QueueConfig, now: int): Command {
    ApplyPatch(c, LeasePatch(worker, now + cfg.visibilityTimeoutMs), now)
  }

  /** The queue with the commands of these ids leased and every other command as it was. */
  function LeaseIds(cs: seq<Command>, ids: seq<string>, worker: string, cfg: QueueConfig, now: int): seq<Command> {
    Map((c: Command) => if c.commandId in ids then LeasedForm(c, worker, cfg, now) else c, cs)
  }

  function LeasedForms(cs: seq<Command>, worker: string, cfg: QueueConfig, now: int): seq<Command> {
    Map((c: Command) => LeasedForm(c, worker, cfg, now), cs)
  }

  class CommandQueue {
    const repo: ExecutionRepository
    const cfg: QueueConfig

    constructor (repo: ExecutionRepository, cfg: QueueConfig)
      ensures this.repo == repo && this.cfg == cfg
    {
      this.repo := repo;
      this.cfg := cfg;
    }

    method Enqueue(command: Command, now: int) returns (enqueued: bool, kept: Command)
      modifies repo
      ensures repo.Snapshot() == Enqueued(old(repo.Snapshot()), command, now)
      ensures enqueued <==> !Reserved(old(repo.Snapshot()), command.idempotencyKey, now) && Insertable(old(repo.Snapshot()), command)
      ensures kept == if Reserved(old(repo.Snapshot()), command.idempotencyKey, now)
                      then Existing(old(repo.commands), command) else command
    {
      var reserved := repo.ReserveKey(command.idempotencyKey, command.commandId, None, now);
      if !reserved {
        return false, Existing(repo.commands, command);
      }
      enqueued := repo.Insert(command);
      kept := command;
    }

    /** Reads the due commands once, ranks them, and compare-and-sets the best of them one by one. */
    method Lease(worker: string, batch: nat, now: int) returns (leased: seq<Command>)
      requires UniqueIds(repo.commands)
      modifies repo
      ensures var chosen := Chosen(old(repo.commands), batch, now);
              && repo.Snapshot() == old(repo.Snapshot()).(commands := LeaseIds(old(repo.commands), Ids(chosen), worker, cfg, now))
              && leased == LeasedForms(chosen, worker, cfg, now)
    {
      var due := RankedDue(repo.commands, now);
      var chosen := if batch < |due| then due[..batch] else due;
      ghost var before := repo.commands;
      ChosenFacts(before, batch, now);
      ghost var rest := repo.Snapshot();
      leased := [];
      LeaseNone(before, worker, cfg, now);
      assert chosen[..0] == [];
      for k := 0 to |chosen|
        invariant repo.Snapshot() == rest.(commands := LeaseIds(before, Ids(chosen[..k]), worker, cfg, now))
        invariant leased == LeasedForms(chosen[..k], worker, cfg, now)
      {
        var c := chosen[k];
        LeaseOneMore(before, chosen, k, worker, cfg, now);
        var ok := repo.CompareAndSetCommand(c.commandId, ExpectStatus(c.status), LeasePatch(worker, now + cfg.visibilityTimeoutMs), now);
        if ok {
          var i := repo.Find(c.commandId);
          leased := leased + [repo.commands[i]];
        }
        LeasedOneMore(chosen, k, worker, cfg, now);
      }
      assert chosen[..|chosen|] == chosen;
    }

    method RenewLeaseOf(id: string, worker: string, now: int) returns (ok: bool)
      modifies repo
      ensures repo.Snapshot() == RenewLease(old(repo.Snapshot()), id, worker, cfg, now)
      ensures ok <==> CasSucceeds(old(repo.Snapshot()), id, ExpectHolder(worker))
    {
      ok := repo.CompareAndSetCommand(
        id, ExpectHolder(worker), NO_CHANGE.(leaseExpiration := Set(Some(now + cfg.visibilityTimeoutMs))), now);
    }

    method ReleaseLeaseOf(id: string, worker: string, now: int) returns (ok: bool)
      modifies repo
      ensures repo.Snapshot() == ReleaseLease(old(repo.Snapshot()), id, worker, now)
      ensures ok <==> CasSucceeds(old(repo.Snapshot()), id, ExpectHolder(worker))
    {
      ok := repo.CompareAndSetCommand(id, ExpectHolder(worker), RELEASE_PATCH, now);
    }

    method MarkStatus(id: string, status: Status, now: int)
      modifies repo
      ensures repo.Snapshot() == Mark(old(repo.Snapshot()), id, status, now)
    {
      var _ := repo.Update(id, NO_CHANGE.(status := Set(status)), now);
    }

    method RetryLater(id: string, retryAt: Option<int>, reason: Option<string>, category: Category, now: int)
      modifies repo
      ensures repo.Snapshot() == ScheduleRetry(old(repo.Snapshot()), id, retryAt, reason, category, cfg, now)
    {
      var i := repo.Find(id);
      if i == |repo.commands| {
        return;
      }
      var c := repo.commands[i];
      var retryCount := c.retryCount + 1;
      RetryShape(repo.Snapshot(), id, retryAt, reason, category, cfg, now);
      if retryCount > cfg.maxRetries || Fatal(category) {
        var _ := repo.Update(id, DeadPatch(retryCount, reason, category), now);
        repo.Bury(id);
      } else {
        var at := retryAt.GetOr(now + retryCount * 1000);
        var _ := repo.Update(id, RetryPatch(retryCount, at, reason, category), now);
      }
    }
  }

  lemma RetryShape(
    s: Store, id: string, retryAt: Option<int>, reason: Option<string>, category: Category, cfg: QueueConfig, now: int)
    requires Has(s.commands, id)
    ensures var n := Get(s.commands, id).retryCount + 1;
            (ScheduleRetry(s, id, retryAt, reason, category, cfg, now)
             == if n > cfg.maxRetries || Fatal(category)
                then MoveToDeadLetter(UpdateCommand(s, id, DeadPatch(n, reason, category), now), id)
                else UpdateCommand(s, id, RetryPatch(n, retryAt.GetOr(now + n * 1000), reason, category), now))
  {
  }

  // ---- Lemmas for the lease loop -------------------------------------------------------------------------------

  lemma RankIsTotal()
    ensures TotalPreorder(RankedBefore)
  {
  }

  lemma PermutedUnique(cs: seq<Command>, ds: seq<Command>)
    requires UniqueIds(cs) && multiset(cs) == multiset(ds)
    ensures UniqueIds(ds)
  {
    UniqueIsBag(cs);
    SameMembers(cs, ds);
    forall i, j | 0 <= i < j < |ds|
      ensures ds[i].commandId != ds[j].commandId
    {
      BagDistinct(ds, i, j);
      assert ds[i] in ds && ds[j] in ds;
    }
  }

  lemma RankedFacts(cs: seq<Command>, now: int)
    requires UniqueIds(cs)
    ensures UniqueIds(RankedDue(cs, now))
    ensures forall c | c in RankedDue(cs, now) :: c in DueCommands(cs, now)
  {
    FilterKeepsUnique(cs, (c: Command) => IsDue(c, now));
    PermutedUnique(DueCommands(cs, now), RankedDue(cs, now));
    SameMembers(RankedDue(cs, now), DueCommands(cs, now));
  }

  /** The chosen commands are due, live, and pairwise different. */
  lemma ChosenFacts(cs: seq<Command>, batch: nat, now: int)
    requires UniqueIds(cs)
    ensures UniqueIds(Chosen(cs, batch, now))
    ensures forall c | c in Chosen(cs, batch, now) :: c in cs && IsDue(c, now)
  {
    RankedFacts(cs, now);
    forall c | c in Chosen(cs, batch, now)
      ensures c in cs && IsDue(c, now)
    {
      assert c in RankedDue(cs, now);
    }
  }

  lemma {:induction false} FilterKeepsUnique(cs: seq<Command>, p: Command -> bool)
    requires UniqueIds(cs)
    ensures UniqueIds(Filter(cs, p))
  {
    if cs != [] {
      FilterKeepsUnique(cs[1..], p);
      var rest := Filter(cs[1..], p);
      forall j | 0 <= j < |rest|
        ensures rest[j].commandId != cs[0].commandId
      {
        assert rest[j] in rest;
        assert rest[j] in cs[1..];
      }
    }
  }

  lemma {:induction false} UniqueIsBag(cs: seq<Command>)
    requires UniqueIds(cs)
    ensures forall x :: multiset(cs)[x] <= 1
  {
    if cs != [] {
      UniqueIsBag(cs[1..]);
      assert cs == [cs[0]] + cs[1..];
      assert cs[0] !in cs[1..];
    }
  }

  lemma LeaseNone(cs: seq<Command>, worker: string, cfg: QueueConfig, now: int)
    ensures LeaseIds(cs, [], worker, cfg, now) == cs
    ensures Ids([]) == [] && LeasedForms([], worker, cfg, now) == []
  {
  }

  lemma LeasedOneMore(chosen: seq<Command>, k: nat, worker: string, cfg: QueueConfig, now: int)
    requires k < |chosen|
    ensures LeasedForms(chosen[..k + 1], worker, cfg, now)
         == LeasedForms(chosen[..k], worker, cfg, now) + [LeasedForm(chosen[k], worker, cfg, now)]
  {
    assert chosen[..k + 1] == chosen[..k] + [chosen[k]];
  }

  /** What LeaseIds does at one position, and that positions do not move. */
  lemma LeaseAt(cs: seq<Command>, ids: seq<string>, i: nat, worker: string, cfg: QueueConfig, now: int)
    requires UniqueIds(cs) && i < |cs|
    ensures var r := LeaseIds(cs, ids, worker, cfg, now);
            |r| == |cs| && r[i] == (if cs[i].commandId in ids then LeasedForm(cs[i], worker, cfg, now) else cs[i])
            && Has(r, cs[i].commandId) && IndexOf(r, cs[i].commandId) == i
  {
    LeaseKeepsIds(cs, ids, worker, cfg, now);
    IndexOfUnique(LeaseIds(cs, ids, worker, cfg, now), i);
  }

  lemma LeaseElsewhere(cs: seq<Command>, ids: seq<string>, id: string, i: nat, m: nat, worker: string, cfg: QueueConfig, now: int)
    requires UniqueIds(cs) && i < |cs| && m < |cs| && m != i && cs[i].commandId == id
    ensures LeaseIds(cs, ids, worker, cfg, now)[m] == LeaseIds(cs, ids + [id], worker, cfg, now)[m]
  {
    LeaseAt(cs, ids, m, worker, cfg, now);
    LeaseAt(cs, ids + [id], m, worker, cfg, now);
    assert cs[m].commandId != id;
  }

  /** A compare-and-set on a command that is not leased yet adds its id to the leased ones. */
  lemma LeaseOneId(cs: seq<Command>, ids: seq<string>, i: nat, worker: string, cfg: QueueConfig, now: int)
    requires UniqueIds(cs) && i < |cs| && cs[i].commandId !in ids
    ensures var id := cs[i].commandId;
            var mid, next := LeaseIds(cs, ids, worker, cfg, now), LeaseIds(cs, ids + [id], worker, cfg, now);
      && Has(mid, id) && Get(mid, id) == cs[i]
      && UpdateCommands(mid, id, LeasePatch(worker, now + cfg.visibilityTimeoutMs), now) == next
      && Has(next, id) && Get(next, id) == LeasedForm(cs[i], worker, cfg, now)
  {
    var id := cs[i].commandId;
    LeaseAt(cs, ids, i, worker, cfg, now);
    LeaseAt(cs, ids + [id], i, worker, cfg, now);
    var mid, next := LeaseIds(cs, ids, worker, cfg, now), LeaseIds(cs, ids + [id], worker, cfg, now);
    forall m | 0 <= m < |cs| && m != i
      ensures mid[m] == next[m]
    {
      LeaseElsewhere(cs, ids, id, i, m, worker, cfg, now);
    }
    assert mid[i := LeasedForm(cs[i], worker, cfg, now)] == next;
  }

  /** One compare-and-set of the loop always succeeds and leases exactly the next chosen command. */
  lemma LeaseOneMore(cs: seq<Command>, chosen: seq<Command>, k: nat, worker: string, cfg: QueueConfig, now: int)
    requires UniqueIds(cs) && UniqueIds(chosen) && k < |chosen|
    requires forall c | c in chosen :: c in cs && IsDue(c, now)
    ensures var mid := LeaseIds(cs, Ids(chosen[..k]), worker, cfg, now);
            var next := LeaseIds(cs, Ids(chosen[..k + 1]), worker, cfg, now);
      && Has(mid, chosen[k].commandId) && Get(mid, chosen[k].commandId) == chosen[k]
      && UpdateCommands(mid, chosen[k].commandId, LeasePatch(worker, now + cfg.visibilityTimeoutMs), now) == next
      && Has(next, chosen[k].commandId) && Get(next, chosen[k].commandId) == LeasedForm(chosen[k], worker, cfg, now)
  {
    var c := chosen[k];
    assert c in chosen;
    var i :| 0 <= i < |cs| && cs[i] == c;
    assert c.commandId !in Ids(chosen[..k]);
    assert Ids(chosen[..k + 1]) == Ids(chosen[..k]) + [c.commandId];
    LeaseOneId(cs, Ids(chosen[..k]), i, worker, cfg, now);
  }

  lemma LeaseKeepsIds(cs: seq<Command>, ids: seq<string>, worker: string, cfg: QueueConfig, now: int)
    ensures var r := LeaseIds(cs, ids, worker, cfg, now);
            |r| == |cs| && (forall i | 0 <= i < |cs| :: r[i].commandId == cs[i].commandId)
            && (UniqueIds(cs) ==> UniqueIds(r))
  {
    var r := LeaseIds(cs, ids, worker, cfg, now);
    forall i | 0 <= i < |cs|
      ensures r[i].commandId == cs[i].commandId
    {
      assert Core(LeasedForm(cs[i], worker, cfg, now)) == Core(cs[i]);
      assert Core(LeasedForm(cs[i], worker, cfg, now)).commandId == LeasedForm(cs[i], worker, cfg, now).commandId;
    }
  }
}
