/** The durable repository: fields in place of the JSON file, one method per locked call (v2/src/execution-core/repositories.ts). */
module Repository {
  import opened Common
  import opened ExecutionTypes
  import opened StoreModel

  lemma CountNext(cs: seq<Command>, i: nat, p: Command -> bool)
    requires i < |cs|
    ensures Count(cs[..i + 1], p) == Count(cs[..i], p) + if p(cs[i]) then 1 else 0
  {
    assert cs[..i + 1][..i] == cs[..i];
  }

  class ExecutionRepository {
    var commands: seq<Command>
    var deadLetters: seq<Command>
    var dispatchHistory: seq<string>
    var events: seq<Event>
    var idempotencyRecords: map<string, IdempotencyRecord>
    var recoveryCount: nat
    var duplicatePreventionCount: nat

    /** The store this object holds. */
    function Snapshot(): Store
      reads this
    {
      Store(commands, deadLetters, dispatchHistory, events, idempotencyRecords, recoveryCount, duplicatePreventionCount)
    }

    constructor ()
      ensures Snapshot() == EMPTY
    {
      commands, deadLetters, dispatchHistory, events := [], [], [], [];
      idempotencyRecords := map[];
      recoveryCount, duplicatePreventionCount := 0, 0;
    }

    method ReserveKey(key: string, id: string, ttl: Option<nat>, now: int) returns (reserved: bool)
      modifies this
      ensures Snapshot() == ReserveIdempotency(old(Snapshot()), key, id, ttl, now)
      ensures reserved <==> !Reserved(old(Snapshot()), key, now)
    {
      if key in idempotencyRecords {
        var rec := idempotencyRecords[key];
        if rec.expiresAt.None? || rec.expiresAt.value > now {
          duplicatePreventionCount := duplicatePreventionCount + 1;
          return false;
        }
      }
      var expires: Option<int> := None;
      if ttl.Some? && ttl.value != 0 {
        expires := Some(now + ttl.value);
      }
      idempotencyRecords := idempotencyRecords[key := IdempotencyRecord(id, now, expires)];
      if key !in dispatchHistory {
        dispatchHistory := dispatchHistory + [key];
      }
      return true;
    }

    method Insert(command: Command) returns (inserted: bool)
      modifies this
      ensures Snapshot() == InsertCommand(old(Snapshot()), command)
      ensures inserted <==> Insertable(old(Snapshot()), command)
    {
      for i := 0 to |commands|
        invariant forall k | 0 <= k < i ::
          commands[k].commandId != command.commandId && commands[k].idempotencyKey != command.idempotencyKey
      {
        if commands[i].commandId == command.commandId || commands[i].idempotencyKey == command.idempotencyKey {
          return false;
        }
      }
      commands := commands + [command];
      return true;
    }

    /** The index of the first command with this id, or the number of commands. */
    method Find(id: string) returns (i: nat)
      ensures i == IndexOf(commands, id)
    {
      i := 0;
      while i < |commands| && commands[i].commandId != id
        invariant i <= |commands|
        invariant forall k | 0 <= k < i :: commands[k].commandId != id
      {
        i := i + 1;
      }
      var j := IndexOf(commands, id);
      assert i < |commands| ==> commands[i].commandId == id;
      assert j < |commands| ==> commands[j].commandId == id;
    }

    method Update(id: string, patch: Patch, now: int) returns (updated: Option<Command>)
      modifies this
      ensures Snapshot() == UpdateCommand(old(Snapshot()), id, patch, now)
      ensures updated == if Has(old(commands), id) then Some(ApplyPatch(Get(old(commands), id), patch, now)) else None
    {
      var i := Find(id);
      if i == |commands| {
        return None;
      }
      var c := ApplyPatch(commands[i], patch, now);
      commands := commands[i := c];
      return Some(c);
    }

    method CompareAndSetCommand(id: string, expected: Expected, patch: Patch, now: int) returns (ok: bool)
      modifies this
      ensures Snapshot() == CompareAndSet(old(Snapshot()), id, expected, patch, now)
      ensures ok <==> CasSucceeds(old(Snapshot()), id, expected)
    {
      var i := Find(id);
      if i == |commands| || !Meets(commands[i], expected) {
        return false;
      }
      commands := commands[i := ApplyPatch(commands[i], patch, now)];
      return true;
    }

    method Bury(id: string)
      modifies this
      ensures Snapshot() == MoveToDeadLetter(old(Snapshot()), id)
    {
      var i := Find(id);
      if i < |commands| {
        deadLetters := deadLetters + [commands[i]];
        commands := RemoveAt(commands, i);
      }
    }

    method RecoverStranded(now: int) returns (n: nat)
      modifies this
      ensures Snapshot() == Recover(old(Snapshot()), now)
      ensures n == StrandedCount(old(commands), now)
    {
      n := 0;
      ghost var before := Snapshot();
      ghost var stranded := (c: Command) => Stranded(c, now);
      for i := 0 to |commands|
        invariant Snapshot() == before.(commands := commands) && |commands| == |before.commands|
        invariant forall k | 0 <= k < i :: commands[k] == RecoverOne(before.commands[k], now)
        invariant forall k | i <= k < |commands| :: commands[k] == before.commands[k]
        invariant n == Count(before.commands[..i], stranded)
      {
        var c := commands[i];
        CountNext(before.commands, i, stranded);
        if (c.status.Leased? || c.status.Started? || c.status.Sent?)
           && c.leaseExpiration.Some? && c.leaseExpiration.value <= now
        {
          commands := commands[i := c.(status := Queued, leasedBy := None, leaseExpiration := None)];
          n := n + 1;
        }
      }
      assert before.commands[..|before.commands|] == before.commands;
      assert commands == RecoverAll(before.commands, now);
      recoveryCount := recoveryCount + n;
    }

    method PublishEvent(kind: EventType, now: int)
      modifies this
      ensures Snapshot() == Publish(old(Snapshot()), kind, now)
    {
      events := events + [Event(|events| + 1, kind, now)];
    }
  }
}
