/** The durable store as a value, and what each repository call does to it (v2/src/execution-core/repositories.ts). */
module StoreModel {
  import opened Common
  import opened ExecutionTypes

  datatype IdempotencyRecord = IdempotencyRecord(commandId: string, createdAt: int, expiresAt: Option<int>)

  datatype Store = Store(
    commands: seq<Command>, deadLetters: seq<Command>, dispatchHistory: seq<string>, events: seq<Event>,
    idempotencyRecords: map<string, IdempotencyRecord>, recoveryCount: nat, duplicatePreventionCount: nat)

  const EMPTY := Store([], [], [], [], map[], 0, 0)

  function Ids(cs: seq<Command>): seq<string> {
    Map(IdOf, cs)
  }

  function Keys(cs: seq<Command>): seq<string> {
    Map(KeyOf, cs)
  }

  function Cores(cs: seq<Command>): seq<Command> {
    Map(Core, cs)
  }

  ghost predicate UniqueIds(cs: seq<Command>) {
    forall i, j | 0 <= i < j < |cs| :: cs[i].commandId != cs[j].commandId
  }

  function IndexOf(cs: seq<Command>, id: string): (i: nat)
    ensures i <= |cs|
    ensures i < |cs| ==> cs[i].commandId == id
    ensures forall k | 0 <= k < i :: cs[k].commandId != id
  {
    if cs == [] || cs[0].commandId == id then 0 else 1 + IndexOf(cs[1..], id)
  }

  predicate Has(cs: seq<Command>, id: string) {
    IndexOf(cs, id) < |cs|
  }

  function Get(cs: seq<Command>, id: string): (c: Command)
    requires Has(cs, id)
    ensures c in cs && c.commandId == id
  {
    cs[IndexOf(cs, id)]
  }

  lemma IndexOfUnique(cs: seq<Command>, i: nat)
    requires UniqueIds(cs) && i < |cs|
    ensures IndexOf(cs, cs[i].commandId) == i
  {
  }

  /** A partial command: the fields a patch sets and the fields it leaves alone. */
  datatype Field<+T> = Keep | Set(value: T)

  datatype Patch = Patch(
    status: Field<Status>, leasedBy: Field<Option<string>>, leaseExpiration: Field<Option<int>>,
    retryCount: Field<nat>, retryAt: Field<Option<int>>,
    failureReason: Field<Option<string>>, failureCategory: Field<Option<Category>>)

  const NO_CHANGE := Patch(Keep, Keep, Keep, Keep, Keep, Keep, Keep)

  function Pick<T>(f: Field<T>, current: T): T {
    match f
    case Keep => current
    case Set(v) => v
  }

  function ApplyPatch(c: Command, p: Patch, now: int): (r: Command)
    ensures Core(r) == Core(c)
  {
    c.(status := Pick(p.status, c.status), leasedBy := Pick(p.leasedBy, c.leasedBy),
       leaseExpiration := Pick(p.leaseExpiration, c.leaseExpiration), retryCount := Pick(p.retryCount, c.retryCount),
       retryAt := Pick(p.retryAt, c.retryAt), failureReason := Pick(p.failureReason, c.failureReason),
       failureCategory := Pick(p.failureCategory, c.failureCategory), updatedAt := now)
  }

  /** What compare-and-set expects of the stored command: its status, or its lease holder. */
  datatype Expected = ExpectStatus(status: Status) | ExpectHolder(worker: string)

  predicate Meets(c: Command, e: Expected) {
    match e
    case ExpectStatus(st) => c.status == st
    case ExpectHolder(w) => c.leasedBy == Some(w)
  }

  predicate Reserved(s: Store, key: string, now: int) {
    key in s.idempotencyRecords
    && (s.idempotencyRecords[key].expiresAt.None? || s.idempotencyRecords[key].expiresAt.value > now)
  }

  predicate HasDispatched(s: Store, key: string) {
    key in s.dispatchHistory || key in s.idempotencyRecords
  }

  function ReserveIdempotency(s: Store, key: string, id: string, ttl: Option<nat>, now: int): Store {
    if Reserved(s, key, now) then s.(duplicatePreventionCount := s.duplicatePreventionCount + 1)
    else
      var expires := if ttl.Some? && ttl.value != 0 then Some(now + ttl.value) else None;
      s.(idempotencyRecords := s.idempotencyRecords[key := IdempotencyRecord(id, now, expires)],
         dispatchHistory := if key in s.dispatchHistory then s.dispatchHistory else s.dispatchHistory + [key])
  }

  predicate Insertable(s: Store, c: Command) {
    forall i | 0 <= i < |s.commands| ::
      s.commands[i].commandId != c.commandId && s.commands[i].idempotencyKey != c.idempotencyKey
  }

  function InsertCommand(s: Store, c: Command): Store {
    if Insertable(s, c) then s.(commands := s.commands + [c]) else s
  }

  function UpdateCommands(cs: seq<Command>, id: string, p: Patch, now: int): (r: seq<Command>)
    ensures |r| == |cs|
  {
    if Has(cs, id) then cs[IndexOf(cs, id) := ApplyPatch(Get(cs, id), p, now)] else cs
  }

  function UpdateCommand(s: Store, id: string, p: Patch, now: int): Store {
    s.(commands := UpdateCommands(s.commands, id, p, now))
  }

  predicate CasSucceeds(s: Store, id: string, e: Expected) {
    Has(s.commands, id) && Meets(Get(s.commands, id), e)
  }

  function CompareAndSet(s: Store, id: string, e: Expected, p: Patch, now: int): Store {
    if CasSucceeds(s, id, e) then UpdateCommand(s, id, p, now) else s
  }

  function MoveToDeadLetter(s: Store, id: string): Store {
    if Has(s.commands, id) then
      s.(commands := RemoveAt(s.commands, IndexOf(s.commands, id)), deadLetters := s.deadLetters + [Get(s.commands, id)])
    else s
  }

  /** A command whose lease ran out before its work was acknowledged. */
  predicate Stranded(c: Command, now: int) {
    (c.status.Leased? || c.status.Started? || c.status.Sent?)
    && c.leaseExpiration.Some? && c.leaseExpiration.value <= now
  }

  function Requeue(c: Command): Command {
    c.(status := Queued, leasedBy := None, leaseExpiration := None)
  }

  function RecoverOne(c: Command, now: int): Command {
    if Stranded(c, now) then Requeue(c) else c
  }

  function RecoverAll(cs: seq<Command>, now: int): seq<Command> {
    Map((c: Command) => RecoverOne(c, now), cs)
  }

  function StrandedCount(cs: seq<Command>, now: int): nat {
    Count(cs, (c: Command) => Stranded(c, now))
  }

  function Recover(s: Store, now: int): Store {
    s.(commands := RecoverAll(s.commands, now), recoveryCount := s.recoveryCount + StrandedCount(s.commands, now))
  }

  function Publish(s: Store, kind: EventType, now: int): Store {
    s.(events := s.events + [Event(|s.events| + 1, kind, now)])
  }

  function Replay(s: Store, after: int): seq<Event> {
    Filter(s.events, (e: Event) => e.sequence > after)
  }

  function KindOf(e: Event): EventType {
    e.kind
  }

  /** What was announced, in order. */
  function Kinds(s: Store): seq<EventType> {
    Map(KindOf, s.events)
  }

  lemma PublishAnnounces(s: Store, kind: EventType, now: int)
    ensures Kinds(Publish(s, kind, now)) == Kinds(s) + [kind]
  {
    assert KindOf(Event(|s.events| + 1, kind, now)) == kind;
  }

  // ---- What the calls keep -------------------------------------------------------------------------------------

  /** An update reaches one command and nothing but its mutable fields. */
  lemma UpdateKeepsCores(cs: seq<Command>, id: string, p: Patch, now: int)
    ensures Cores(UpdateCommands(cs, id, p, now)) == Cores(cs)
    ensures Ids(UpdateCommands(cs, id, p, now)) == Ids(cs)
    ensures Keys(UpdateCommands(cs, id, p, now)) == Keys(cs)
  {
    var r := UpdateCommands(cs, id, p, now);
    forall i | 0 <= i < |cs|
      ensures Core(r[i]) == Core(cs[i])
    {
    }
    assert forall i | 0 <= i < |cs| :: Core(cs[i]).commandId == cs[i].commandId && Core(r[i]).commandId == r[i].commandId;
    assert forall i | 0 <= i < |cs| :: Core(cs[i]).idempotencyKey == cs[i].idempotencyKey && Core(r[i]).idempotencyKey == r[i].idempotencyKey;
  }

  /** Recovery requeues exactly the commands whose lease ran out while leased, started or sent; order and identity stay. */
  lemma RecoverRequeuesExactlyStranded(s: Store, now: int, i: nat)
    requires i < |s.commands|
    ensures var t, c := Recover(s, now), s.commands[i];
      && |t.commands| == |s.commands|
      && t.commands[i] == (if c.status in {Leased, Started, Sent} && c.leaseExpiration.GetOr(now + 1) <= now
                           then c.(status := Queued, leasedBy := None, leaseExpiration := None) else c)
      && Cores(t.commands) == Cores(s.commands)
      && t == s.(commands := t.commands, recoveryCount := s.recoveryCount + StrandedCount(s.commands, now))
  {
  }

  /** Nothing is stranded right after a recovery, so repeating it at the same instant recovers nothing. */
  lemma RecoverIsIdempotent(s: Store, now: int)
    ensures StrandedCount(Recover(s, now).commands, now) == 0
    ensures Recover(Recover(s, now), now) == Recover(s, now)
  {
    var t := Recover(s, now);
    CountZero(t.commands, (c: Command) => Stranded(c, now));
    assert RecoverAll(t.commands, now) == t.commands;
  }
}
