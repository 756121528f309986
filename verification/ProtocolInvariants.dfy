/** What every interleaving keeps, whether or not workers respect their leases. */
module ProtocolInvariants {
  import opened Common
  import opened ExecutionTypes
  import opened StoreModel
  import opened QueueModel
  import opened Protocol

  ghost predicate AtMostOnce<T(!new)>(m: multiset<T>) {
    forall x :: m[x] <= 1
  }

  /** A field of every command that was ever accepted: it is live or dead-lettered. */
  function Held<T>(f: Command -> T, s: Store): multiset<T> {
    multiset(Map(f, s.commands)) + multiset(Map(f, s.deadLetters))
  }

  /** The same over everything that may still be accepted too. */
  function Claimed<T>(f: Command -> T, s: State): multiset<T> {
    Held(f, s.store) + multiset(Map(f, s.pending))
  }

  /** Identity: ids and keys are claimed once, every claim is on record for good, and accepted commands are conserved. */
  ghost predicate Registry(s: State) {
    && AtMostOnce(Claimed(IdOf, s)) && AtMostOnce(Claimed(KeyOf, s))
    && (forall id | id in Claimed(IdOf, s) :: id in s.usedIds)
    && (forall k | k in Claimed(KeyOf, s) :: k in s.store.idempotencyRecords)
    && (forall k | k in s.store.idempotencyRecords :: s.store.idempotencyRecords[k].expiresAt.None? && k in s.store.dispatchHistory)
    && Held(Core, s.store) == multiset(Map(Core, s.accepted))
    && Held(IdOf, s.store) == multiset(Map(IdOf, s.accepted))
  }

  /** Origin: whatever was or may be accepted is as the planner made it. */
  ghost predicate Origin(s: State) {
    (forall c | c in s.pending :: Planned(c)) && (forall c | c in s.accepted :: Planned(c))
  }

  predicate Leasable(c: Command) {
    c.status.Queued? || c.status.RetryScheduled?
  }

  /** A live command: the retry budget holds, holder and expiry come together, and a leased command was due. */
  predicate CommandOk(cfg: QueueConfig, c: Command, now: int) {
    && c.retryCount <= cfg.maxRetries
    && (c.leasedBy.Some? <==> c.leaseExpiration.Some?)
    && (c.leaseExpiration.Some? ==> !Leasable(c) && (c.retryAt.None? || c.retryAt.value <= now))
  }

  predicate DeadOk(cfg: QueueConfig, c: Command) {
    c.retryCount <= cfg.maxRetries + 1 && c.status.DeadLettered?
  }

  ghost predicate CommandsOk(cfg: QueueConfig, s: State) {
    && (forall c | c in s.store.commands :: CommandOk(cfg, c, s.now))
    && (forall c | c in s.store.deadLetters :: DeadOk(cfg, c))
  }

  function Unsent(id: string): Job -> bool {
    (job: Job) => job.commandId == id && (job.phase.Granted? || job.phase.Begun?)
  }

  predicate GrantsPaid(c: Command, h: Tally) {
    h.grants + (if Leasable(c) then 1 else 0) <= 1 + c.retryCount + h.recoveries + h.releases
  }

  predicate DeadGrantsPaid(c: Command, h: Tally) {
    h.grants <= c.retryCount + h.recoveries + h.releases
  }

  /** Grants are paid for by retries, recoveries and releases. */
  ghost predicate GrantBudget(s: State) {
    && (forall c | c in s.store.commands :: GrantsPaid(c, TallyOf(s, c.commandId)))
    && (forall c | c in s.store.deadLetters :: DeadGrantsPaid(c, TallyOf(s, c.commandId)))
  }

  /** Adapter calls, made and still to come, are paid for by grants. */
  ghost predicate CallBudget(s: State) {
    forall id :: TallyOf(s, id).executions + Count(s.jobs, Unsent(id)) <= TallyOf(s, id).grants
  }

  /** Only accepted commands have a history. */
  ghost predicate KnownIds(s: State) {
    && (forall id | id in s.tally :: id in Held(IdOf, s.store))
    && (forall job | job in s.jobs :: job.commandId in s.tally)
  }

  ghost predicate Inv(cfg: QueueConfig, s: State) {
    Registry(s) && Origin(s) && CommandsOk(cfg, s) && KnownIds(s) && GrantBudget(s) && CallBudget(s)
  }

  // ---- Identity ------------------------------------------------------------------------------------------------

  lemma HeldDistinct(s: State)
    requires AtMostOnce(Claimed(IdOf, s))
    ensures UniqueIds(s.store.commands)
    ensures forall c, d | c in s.store.commands && d in s.store.deadLetters :: c.commandId != d.commandId
  {
    var ids := Map(IdOf, s.store.commands);
    forall i, j | 0 <= i < j < |s.store.commands|
      ensures s.store.commands[i].commandId != s.store.commands[j].commandId
    {
      forall x
        ensures multiset(ids)[x] <= 1
      {
        assert multiset(ids)[x] <= Claimed(IdOf, s)[x];
      }
      BagDistinct(ids, i, j);
    }
    forall c, d | c in s.store.commands && d in s.store.deadLetters
      ensures c.commandId != d.commandId
    {
      MemberMapped(IdOf, s.store.commands, c);
      MemberMapped(IdOf, s.store.deadLetters, d);
      assert Claimed(IdOf, s)[c.commandId] <= 1;
    }
  }

  lemma MemberMapped<A, B>(f: A -> B, s: seq<A>, x: A)
    requires x in s
    ensures f(x) in Map(f, s) && multiset(Map(f, s))[f(x)] >= 1
  {
    var i :| 0 <= i < |s| && s[i] == x;
    assert Map(f, s)[i] == f(x);
    assert f(x) in multiset(Map(f, s));
  }

  /** What a step that only patches a command leaves alone. */
  ghost predicate SameIdentity(s: State, t: State) {
    && Ids(t.store.commands) == Ids(s.store.commands)
    && Keys(t.store.commands) == Keys(s.store.commands)
    && Cores(t.store.commands) == Cores(s.store.commands)
    && t.store.deadLetters == s.store.deadLetters && t.pending == s.pending
    && t.accepted == s.accepted && t.usedIds == s.usedIds
    && t.store.idempotencyRecords == s.store.idempotencyRecords && t.store.dispatchHistory == s.store.dispatchHistory
  }

  lemma {:induction false} BuryKeepsHeld<T>(f: Command -> T, s: Store, id: string)
    ensures Held(f, MoveToDeadLetter(s, id)) == Held(f, s)
  {
    if Has(s.commands, id) {
      var i := IndexOf(s.commands, id);
      var c := s.commands[i];
      var t := MoveToDeadLetter(s, id);
      MapRemove(f, s.commands, i);
      MapAppend(f, s.deadLetters, [c]);
      assert Map(f, [c]) == [f(c)];
      assert multiset(Map(f, t.deadLetters)) == multiset(Map(f, s.deadLetters)) + multiset{f(c)};
    }
  }

  /** The registry's view of a store. */
  ghost predicate SameHoldings(s: Store, t: Store) {
    && Held(IdOf, t) == Held(IdOf, s) && Held(KeyOf, t) == Held(KeyOf, s) && Held(Core, t) == Held(Core, s)
    && t.idempotencyRecords == s.idempotencyRecords && t.dispatchHistory == s.dispatchHistory
  }

  lemma UpdateKeepsHoldings(s: Store, id: string, p: Patch, now: int)
    ensures SameHoldings(s, UpdateCommand(s, id, p, now))
  {
    UpdateKeepsCores(s.commands, id, p, now);
  }

  lemma BuryKeepsHoldings(s: Store, id: string)
    ensures SameHoldings(s, MoveToDeadLetter(s, id))
  {
    BuryKeepsHeld(IdOf, s, id);
    BuryKeepsHeld(KeyOf, s, id);
    BuryKeepsHeld(Core, s, id);
  }

  lemma PatchAndBuryKeepsHoldings(s: Store, id: string, p: Patch, now: int)
    ensures SameHoldings(s, MoveToDeadLetter(UpdateCommand(s, id, p, now), id))
  {
    UpdateKeepsHoldings(s, id, p, now);
    BuryKeepsHoldings(UpdateCommand(s, id, p, now), id);
  }

  /** The patch a failure applies to the command it hits. */
  function FailPatch(cfg: QueueConfig, c: Command, reason: Option<string>, category: Category, now: int): Patch {
    if GivesUp(c, category, cfg) then DeadPatch(c.retryCount + 1, reason, category)
    else RetryPatch(c.retryCount + 1, now + (c.retryCount + 1) * 1000, reason, category)
  }

  /** A failure patches the command; if the command is given up, it is then buried. */
  lemma FailShape(cfg: QueueConfig, s: Store, id: string, reason: Option<string>, category: Category, now: int)
    requires Has(s.commands, id)
    ensures var patched := UpdateCommand(s, id, FailPatch(cfg, Get(s.commands, id), reason, category, now), now);
            (ScheduleRetry(s, id, None, reason, category, cfg, now)
             == if GivesUp(Get(s.commands, id), category, cfg) then MoveToDeadLetter(patched, id) else patched)
  {
  }

  lemma FailKeepsHoldings(cfg: QueueConfig, s: Store, id: string, reason: Option<string>, category: Category, now: int)
    ensures SameHoldings(s, ScheduleRetry(s, id, None, reason, category, cfg, now))
  {
    if Has(s.commands, id) {
      FailShape(cfg, s, id, reason, category, now);
      var p := FailPatch(cfg, Get(s.commands, id), reason, category, now);
      PatchAndBuryKeepsHoldings(s, id, p, now);
      UpdateKeepsHoldings(s, id, p, now);
    }
  }

  /** The commands after a patch: one of them patched, or none. */
  ghost predicate PatchedOnly(s: State, t: State, id: string, p: Patch) {
    && (t.store == s.store || t.store == UpdateCommand(s.store, id, p, s.now))
    && t.pending == s.pending && t.accepted == s.accepted && t.usedIds == s.usedIds
  }

  lemma PatchKeepsIdentity(s: State, t: State, id: string, p: Patch)
    requires PatchedOnly(s, t, id, p)
    ensures SameIdentity(s, t)
  {
    UpdateKeepsCores(s.store.commands, id, p, s.now);
  }

  lemma MoveOnePending<T>(f: Command -> T, s: State, i: nat)
    requires i < |s.pending|
    ensures multiset(Map(f, RemoveAt(s.pending, i))) + multiset{f(s.pending[i])} == multiset(Map(f, s.pending))
    ensures multiset(Map(f, s.store.commands + [s.pending[i]])) == multiset(Map(f, s.store.commands)) + multiset{f(s.pending[i])}
    ensures multiset(Map(f, s.accepted + [s.pending[i]])) == multiset(Map(f, s.accepted)) + multiset{f(s.pending[i])}
  {
    MapRemove(f, s.pending, i);
    MapAppend(f, s.store.commands, [s.pending[i]]);
    MapAppend(f, s.accepted, [s.pending[i]]);
    assert Map(f, [s.pending[i]]) == [f(s.pending[i])];
  }

  /** A reserved command is never refused by the insertion that follows, however late it comes. */
  lemma ReservedIsInsertable(s: State, i: nat)
    requires Registry(s) && i < |s.pending|
    ensures Insertable(s.store, s.pending[i])
  {
    var c := s.pending[i];
    MemberMapped(IdOf, s.pending, c);
    MemberMapped(KeyOf, s.pending, c);
    forall k | 0 <= k < |s.store.commands|
      ensures s.store.commands[k].commandId != c.commandId && s.store.commands[k].idempotencyKey != c.idempotencyKey
    {
      MemberMapped(IdOf, s.store.commands, s.store.commands[k]);
      MemberMapped(KeyOf, s.store.commands, s.store.commands[k]);
      assert Claimed(IdOf, s)[c.commandId] <= 1 && Claimed(KeyOf, s)[c.idempotencyKey] <= 1;
    }
  }

  lemma RegistryInsert(cfg: QueueConfig, s: State, i: nat)
    requires Registry(s) && i < |s.pending|
    ensures Registry(Apply(cfg, s, Insert(i)))
  {
    ReservedIsInsertable(s, i);
    var t := Apply(cfg, s, Insert(i));
    InsertMovesClaim(IdOf, s, i);
    InsertMovesClaim(KeyOf, s, i);
    InsertMovesClaim(Core, s, i);
  }

  lemma InsertMovesClaim<T>(f: Command -> T, s: State, i: nat)
    requires i < |s.pending| && Insertable(s.store, s.pending[i])
    ensures var t := s.(store := InsertCommand(s.store, s.pending[i]), pending := RemoveAt(s.pending, i));
            Claimed(f, t) == Claimed(f, s) && Held(f, t.store) == Held(f, s.store) + multiset{f(s.pending[i])}
    ensures multiset(Map(f, s.accepted + [s.pending[i]])) == multiset(Map(f, s.accepted)) + multiset{f(s.pending[i])}
  {
    MoveOnePending(f, s, i);
  }

  lemma DropPending(s: State, i: nat)
    requires i < |s.pending|
    ensures forall c | c in RemoveAt(s.pending, i) :: c in s.pending
  {
    forall c | c in RemoveAt(s.pending, i)
      ensures c in s.pending
    {
      assert c in multiset(RemoveAt(s.pending, i));
    }
  }

  lemma RegistryDrop(cfg: QueueConfig, s: State, i: nat)
    requires Registry(s) && i < |s.pending|
    ensures Registry(Apply(cfg, s, CrashBeforeInsert(i)))
  {
    MoveOnePending(IdOf, s, i);
    MoveOnePending(KeyOf, s, i);
    var t := Apply(cfg, s, CrashBeforeInsert(i));
    assert Claimed(IdOf, t) <= Claimed(IdOf, s);
    assert Claimed(KeyOf, t) <= Claimed(KeyOf, s);
  }

  lemma NewClaim<T(!new)>(m: multiset<T>, x: T)
    requires AtMostOnce(m) && x !in m
    ensures AtMostOnce(m + multiset{x})
  {
  }

  /** The state after a reservation that was granted. */
  function WithReservation(s: State, cmd: Command): State {
    s.(store := ReserveIdempotency(s.store, cmd.idempotencyKey, cmd.commandId, None, s.now),
       usedIds := s.usedIds + {cmd.commandId}, pending := s.pending + [cmd])
  }

  lemma ReserveClaims<T>(f: Command -> T, s: State, cmd: Command)
    ensures Claimed(f, WithReservation(s, cmd)) == Claimed(f, s) + multiset{f(cmd)}
    ensures Held(f, WithReservation(s, cmd).store) == Held(f, s.store)
  {
    AppendClaims(f, s, cmd);
  }

  lemma RegistryRefuse(cfg: QueueConfig, s: State, cmd: Command)
    requires Registry(s) && Enabled(s, Reserve(cmd)) && Reserved(s.store, cmd.idempotencyKey, s.now)
    ensures Registry(Apply(cfg, s, Reserve(cmd)))
  {
    var t := Apply(cfg, s, Reserve(cmd));
    assert Claimed(IdOf, t) == Claimed(IdOf, s) && Claimed(KeyOf, t) == Claimed(KeyOf, s);
  }

  lemma RegistryReserve(s: State, cmd: Command)
    requires Registry(s) && cmd.commandId !in s.usedIds && !Reserved(s.store, cmd.idempotencyKey, s.now)
    ensures Registry(WithReservation(s, cmd))
  {
    ReserveClaims(IdOf, s, cmd);
    ReserveClaims(KeyOf, s, cmd);
    ReserveClaims(Core, s, cmd);
    NewClaim(Claimed(IdOf, s), cmd.commandId);
    NewClaim(Claimed(KeyOf, s), cmd.idempotencyKey);
  }

  lemma AppendClaims<T>(f: Command -> T, s: State, cmd: Command)
    ensures Claimed(f, s.(pending := s.pending + [cmd])) == Claimed(f, s) + multiset{f(cmd)}
  {
    MapAppend(f, s.pending, [cmd]);
    assert Map(f, [cmd]) == [f(cmd)];
  }

  lemma RegistryFail(cfg: QueueConfig, s: State, step: Step)
    requires Registry(s) && Enabled(s, step) && step.Fail?
    ensures Registry(Apply(cfg, s, step))
  {
    FailKeepsHoldings(cfg, s.store, s.jobs[step.j].commandId, step.reason, step.category, s.now);
    var t := Apply(cfg, s, step);
    assert Claimed(IdOf, t) == Claimed(IdOf, s);
    assert Claimed(KeyOf, t) == Claimed(KeyOf, s);
  }

  /** The steps that change nothing but mutable fields, jobs, history and the clock. */
  predicate Quiet(step: Step) {
    !step.Reserve? && !step.Insert? && !step.CrashBeforeInsert? && !step.Fail?
  }

  /** The patch a quiet step may apply, and the command it is aimed at. */
  function TargetOf(s: State, step: Step): string
    requires Enabled(s, step) && Quiet(step)
  {
    match step
    case Grant(_, id) => id
    case Renew(_, id) => id
    case Release(_, id) => id
    case Begin(j) => s.jobs[j].commandId
    case Send(j) => s.jobs[j].commandId
    case Answer(j, _) => s.jobs[j].commandId
    case Verify(j) => s.jobs[j].commandId
    case Complete(j) => s.jobs[j].commandId
    case _ => ""
  }

  function PatchOf(cfg: QueueConfig, s: State, step: Step): Patch
    requires Quiet(step)
  {
    match step
    case Grant(w, _) => LeasePatch(w, s.now + cfg.visibilityTimeoutMs)
    case Renew(_, _) => NO_CHANGE.(leaseExpiration := Set(Some(s.now + cfg.visibilityTimeoutMs)))
    case Release(_, _) => RELEASE_PATCH
    case Begin(_) => NO_CHANGE.(status := Set(Started))
    case Send(_) => NO_CHANGE.(status := Set(Sent))
    case Answer(_, _) => NO_CHANGE.(status := Set(Acknowledged))
    case Verify(_) => NO_CHANGE.(status := Set(Verified))
    case Complete(_) => NO_CHANGE.(status := Set(Completed))
    case _ => NO_CHANGE
  }

  lemma QuietPatches(cfg: QueueConfig, s: State, step: Step)
    requires Enabled(s, step) && Quiet(step) && !step.RecoverExpired?
    ensures PatchedOnly(s, Apply(cfg, s, step), TargetOf(s, step), PatchOf(cfg, s, step))
  {
  }

  lemma RecoverKeepsIdentity(s: Store, now: int)
    ensures Cores(StoreModel.Recover(s, now).commands) == Cores(s.commands)
    ensures Ids(StoreModel.Recover(s, now).commands) == Ids(s.commands)
    ensures Keys(StoreModel.Recover(s, now).commands) == Keys(s.commands)
  {
    var t := StoreModel.Recover(s, now);
    forall i | 0 <= i < |s.commands|
      ensures Core(t.commands[i]) == Core(s.commands[i])
      ensures t.commands[i].commandId == s.commands[i].commandId
      ensures t.commands[i].idempotencyKey == s.commands[i].idempotencyKey
    {
      assert t.commands[i] == RecoverOne(s.commands[i], now);
    }
  }

  lemma QuietKeepsIdentity(cfg: QueueConfig, s: State, step: Step)
    requires Enabled(s, step) && Quiet(step)
    ensures SameIdentity(s, Apply(cfg, s, step))
  {
    if step.RecoverExpired? {
      RecoverKeepsIdentity(s.store, s.now);
    } else {
      QuietPatches(cfg, s, step);
      PatchKeepsIdentity(s, Apply(cfg, s, step), TargetOf(s, step), PatchOf(cfg, s, step));
    }
  }

  lemma RegistryStep(cfg: QueueConfig, s: State, step: Step)
    requires Registry(s) && Enabled(s, step)
    ensures Registry(Apply(cfg, s, step))
  {
    if Quiet(step) {
      QuietKeepsIdentity(cfg, s, step);
      var t := Apply(cfg, s, step);
      assert Claimed(IdOf, t) == Claimed(IdOf, s);
      assert Claimed(KeyOf, t) == Claimed(KeyOf, s);
      assert Held(Core, t.store) == Held(Core, s.store);
    } else {
      match step {
        case Reserve(cmd) =>
          if Reserved(s.store, cmd.idempotencyKey, s.now) {
            RegistryRefuse(cfg, s, cmd);
          } else {
            RegistryReserve(s, cmd);
          }
        case Insert(i) => RegistryInsert(cfg, s, i);
        case CrashBeforeInsert(i) => RegistryDrop(cfg, s, i);
        case Fail(_, _, _) => RegistryFail(cfg, s, step);
      }
    }
  }

  lemma OriginStep(cfg: QueueConfig, s: State, step: Step)
    requires Origin(s) && Enabled(s, step)
    ensures Origin(Apply(cfg, s, step))
  {
    match step {
      case Insert(i) =>
        assert s.pending[i] in s.pending;
        DropPending(s, i);
      case CrashBeforeInsert(i) => DropPending(s, i);
      case _ =>
    }
  }

  // ---- Commands and the retry budget ---------------------------------------------------------------------------

  /** After a patch every command is an old one or the patched one. */
  lemma PatchedMembers(cs: seq<Command>, id: string, p: Patch, now: int)
    ensures forall c | c in UpdateCommands(cs, id, p, now) ::
              c in cs || (Has(cs, id) && c == ApplyPatch(Get(cs, id), p, now))
  {
  }

  lemma RecoveredMembers(cs: seq<Command>, now: int)
    ensures forall c | c in RecoverAll(cs, now) :: exists d :: d in cs && c == RecoverOne(d, now)
  {
    var r := RecoverAll(cs, now);
    forall c | c in r
      ensures exists d :: d in cs && c == RecoverOne(d, now)
    {
      var i :| 0 <= i < |r| && r[i] == c;
      assert r[i] == RecoverOne(cs[i], now) && cs[i] in cs;
    }
  }

  lemma PatchHitsSameIndex(cs: seq<Command>, id: string, p: Patch, now: int)
    requires Has(cs, id)
    ensures IndexOf(UpdateCommands(cs, id, p, now), id) == IndexOf(cs, id)
    ensures Get(UpdateCommands(cs, id, p, now), id) == ApplyPatch(Get(cs, id), p, now)
  {
    var u := UpdateCommands(cs, id, p, now);
    var i := IndexOf(cs, id);
    assert Core(u[i]).commandId == id;
    assert u[i].commandId == id;
  }

  /** Patch and bury: the patched command leaves the queue and ends the dead-letter list. */
  lemma BuriedMembers(s: Store, id: string, p: Patch, now: int)
    requires Has(s.commands, id)
    ensures var t := MoveToDeadLetter(UpdateCommand(s, id, p, now), id);
            (forall c | c in t.commands :: c in s.commands)
            && t.deadLetters == s.deadLetters + [ApplyPatch(Get(s.commands, id), p, now)]
  {
    var u := UpdateCommands(s.commands, id, p, now);
    var i := IndexOf(s.commands, id);
    PatchHitsSameIndex(s.commands, id, p, now);
    var r := RemoveAt(u, i);
    forall d | d in r
      ensures d in s.commands
    {
      var k :| 0 <= k < |r| && r[k] == d;
      assert d == if k < i then u[k] else u[k + 1];
      assert d == if k < i then s.commands[k] else s.commands[k + 1];
    }
  }

  /** After a failure: old commands and perhaps the rescheduled one; old dead letters and perhaps the given-up one. */
  ghost predicate RetriesOrBuries(cfg: QueueConfig, s: Store, t: Store, id: string, p: Patch, gaveUp: bool, now: int)
    requires Has(s.commands, id)
  {
    var hit := ApplyPatch(Get(s.commands, id), p, now);
    && (forall d | d in t.commands :: d in s.commands || (!gaveUp && d == hit))
    && t.deadLetters == if gaveUp then s.deadLetters + [hit] else s.deadLetters
  }

  lemma FailedMembers(cfg: QueueConfig, s: Store, id: string, reason: Option<string>, category: Category, now: int)
    requires Has(s.commands, id)
    ensures RetriesOrBuries(cfg, s, ScheduleRetry(s, id, None, reason, category, cfg, now), id,
              FailPatch(cfg, Get(s.commands, id), reason, category, now), GivesUp(Get(s.commands, id), category, cfg), now)
  {
    FailShape(cfg, s, id, reason, category, now);
    var p := FailPatch(cfg, Get(s.commands, id), reason, category, now);
    if GivesUp(Get(s.commands, id), category, cfg) {
      BuriedMembers(s, id, p, now);
    } else {
      PatchedMembers(s.commands, id, p, now);
    }
  }

  lemma FailPatchOk(cfg: QueueConfig, c: Command, reason: Option<string>, category: Category, now: int)
    requires CommandOk(cfg, c, now)
    ensures var hit := ApplyPatch(c, FailPatch(cfg, c, reason, category, now), now);
            if GivesUp(c, category, cfg) then DeadOk(cfg, hit) else CommandOk(cfg, hit, now)
  {
  }

  lemma FailCommandsOk(cfg: QueueConfig, s: State, id: string, reason: Option<string>, category: Category)
    requires CommandsOk(cfg, s) && Has(s.store.commands, id)
    ensures CommandsOk(cfg, s.(store := ScheduleRetry(s.store, id, None, reason, category, cfg, s.now)))
  {
    FailedMembers(cfg, s.store, id, reason, category, s.now);
    FailPatchOk(cfg, Get(s.store.commands, id), reason, category, s.now);
  }

  /** Whatever a quiet step patches, it patches into an acceptable command. */
  lemma QuietPatchOk(cfg: QueueConfig, s: State, step: Step)
    requires Enabled(s, step) && Quiet(step) && !step.RecoverExpired?
    requires CommandsOk(cfg, s)
    ensures Apply(cfg, s, step).store == s.store
            || (Has(s.store.commands, TargetOf(s, step))
                && CommandOk(cfg, ApplyPatch(Get(s.store.commands, TargetOf(s, step)), PatchOf(cfg, s, step), s.now), s.now))
  {
    var id := TargetOf(s, step);
    if Has(s.store.commands, id) {
      var c := Get(s.store.commands, id);
      assert CommandOk(cfg, c, s.now);
    }
  }

  lemma QuietCommandsOk(cfg: QueueConfig, s: State, step: Step)
    requires Enabled(s, step) && Quiet(step) && !step.RecoverExpired?
    requires CommandsOk(cfg, s)
    ensures CommandsOk(cfg, Apply(cfg, s, step))
  {
    QuietPatches(cfg, s, step);
    QuietPatchOk(cfg, s, step);
    PatchedMembers(s.store.commands, TargetOf(s, step), PatchOf(cfg, s, step), s.now);
  }

  lemma FailStepCommandsOk(cfg: QueueConfig, s: State, step: Step)
    requires CommandsOk(cfg, s) && step.Fail? && Enabled(s, step)
    ensures CommandsOk(cfg, Apply(cfg, s, step))
  {
    var id := s.jobs[step.j].commandId;
    if Has(s.store.commands, id) {
      FailCommandsOk(cfg, s, id, step.reason, step.category);
    }
  }

  lemma RecoverCommandsOk(cfg: QueueConfig, s: State)
    requires CommandsOk(cfg, s)
    ensures CommandsOk(cfg, Apply(cfg, s, RecoverExpired))
  {
    RecoveredMembers(s.store.commands, s.now);
  }

  lemma InsertCommandsOk(cfg: QueueConfig, s: State, i: nat)
    requires CommandsOk(cfg, s) && i < |s.pending| && Planned(s.pending[i])
    ensures CommandsOk(cfg, Apply(cfg, s, Insert(i)))
  {
    assert CommandOk(cfg, s.pending[i], s.now);
  }

  lemma BookkeepingCommandsOk(cfg: QueueConfig, s: State, step: Step)
    requires CommandsOk(cfg, s) && Enabled(s, step) && (step.Reserve? || step.CrashBeforeInsert?)
    ensures CommandsOk(cfg, Apply(cfg, s, step))
  {
  }

  lemma CommandsOkStep(cfg: QueueConfig, s: State, step: Step)
    requires Origin(s) && CommandsOk(cfg, s) && Enabled(s, step)
    ensures CommandsOk(cfg, Apply(cfg, s, step))
  {
    if step.RecoverExpired? {
      RecoverCommandsOk(cfg, s);
    } else if step.Fail? {
      FailStepCommandsOk(cfg, s, step);
    } else if step.Insert? {
      assert s.pending[step.i] in s.pending;
      InsertCommandsOk(cfg, s, step.i);
    } else if Quiet(step) {
      QuietCommandsOk(cfg, s, step);
    } else {
      BookkeepingCommandsOk(cfg, s, step);
    }
  }
}
