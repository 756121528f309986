/** The event log: numbering, replay, and what clean-up does to them (v2/src/execution-core/events.ts). */
module Events {
  import opened Common
  import opened ExecutionTypes
  import opened StoreModel

  /** Event number n is the n-th event ever published. */
  ghost predicate Numbered(s: Store) {
    forall i | 0 <= i < |s.events| :: s.events[i].sequence == i + 1
  }

  lemma PublishKeepsNumbering(s: Store, kind: EventType, now: int)
    requires Numbered(s)
    ensures Numbered(Publish(s, kind, now))
    ensures s.events <= Publish(s, kind, now).events
  {
  }

  lemma {:induction false} FilterFrom(events: seq<Event>, base: int, after: int)
    requires forall i | 0 <= i < |events| :: events[i].sequence == base + i + 1
    ensures Filter(events, (e: Event) => e.sequence > after)
         == if after <= base then events else if after >= base + |events| then [] else events[after - base..]
  {
    if events != [] {
      FilterFrom(events[1..], base + 1, after);
      assert events == [events[0]] + events[1..];
    }
  }

  /** A reader that has seen the first `after` events gets exactly the rest, in order. */
  lemma ReplayIsTheRest(s: Store, after: nat)
    requires Numbered(s)
    ensures Replay(s, after) == if after <= |s.events| then s.events[after..] else []
  {
    FilterFrom(s.events, 0, after);
  }

  /** Dropping events older than a cutoff (repositories.ts, `cleanup`); key records of the queue carry no expiry and stay. */
  function CleanUp(s: Store, ttlMs: int, now: int): Store {
    s.(events := Filter(s.events, (e: Event) => e.timestamp >= now - ttlMs),
       idempotencyRecords := map k | k in s.idempotencyRecords
         && !(s.idempotencyRecords[k].expiresAt.Some? && s.idempotencyRecords[k].expiresAt.value < now) :: s.idempotencyRecords[k])
  }

  lemma {:induction false} FilterAllIff<T>(s: seq<T>, p: T -> bool)
    ensures |Filter(s, p)| <= |s|
    ensures |Filter(s, p)| == |s| <==> forall x | x in s :: p(x)
    ensures (forall x | x in s :: p(x)) ==> Filter(s, p) == s
  {
    if s != [] {
      FilterAllIff(s[1..], p);
      assert s == [s[0]] + s[1..];
    }
  }

  /**
   Events are documented as carrying monotonic sequence numbers. After a clean-up they do only if it dropped nothing:
   a reader that is up to date is shown the next event if and only if every event was young enough to be kept.
   */
  lemma NextEventIsSeenIff(s: Store, ttlMs: int, now: int, kind: EventType, later: int)
    requires Numbered(s)
    ensures var t := Publish(CleanUp(s, ttlMs, now), kind, later);
            Replay(t, |s.events|) == [t.events[|t.events| - 1]]
            <==> forall e | e in s.events :: e.timestamp >= now - ttlMs
  {
    var young := (e: Event) => e.timestamp >= now - ttlMs;
    var kept := Filter(s.events, young);
    FilterAllIff(s.events, young);
    var t := Publish(CleanUp(s, ttlMs, now), kind, later);
    var latest := Event(|kept| + 1, kind, later);
    var unseen := (e: Event) => e.sequence > |s.events|;
    assert t.events == kept + [latest];
    FilterConcat(kept, [latest], unseen);
    forall e | e in kept
      ensures !unseen(e)
    {
      assert e in s.events;
    }
    FilterNone(kept, unseen);
    assert [latest][1..] == [];
  }

  /** An event from the day before is dropped, a fresh one is kept: the next event gets number 2 again and is not shown. */
  lemma NextEventCanBeMissed()
    ensures var s := EMPTY.(events := [Event(1, CommandQueued, 0), Event(2, CommandLeased, 90000000)]);
            var t := Publish(CleanUp(s, 86400000, 90000000), CommandStarted, 90000000);
            Numbered(s) && Replay(t, |s.events|) == [] && t.events == [s.events[1], Event(2, CommandStarted, 90000000)]
  {
    var stale, recent := Event(1, CommandQueued, 0), Event(2, CommandLeased, 90000000);
    var young := (e: Event) => e.timestamp >= 90000000 - 86400000;
    var unseen := (e: Event) => e.sequence > 2;
    assert [stale, recent] == [stale] + [recent];
    FilterConcat([stale], [recent], young);
    FilterNone([stale], young);
    FilterAllIff([recent], young);
    FilterNone([recent, Event(2, CommandStarted, 90000000)], unseen);
  }

  lemma {:induction false} FilterNone<T>(s: seq<T>, p: T -> bool)
    requires forall x | x in s :: !p(x)
    ensures Filter(s, p) == []
  {
    if s != [] {
      FilterNone(s[1..], p);
    }
  }

  /** Clean-up forgets exactly the keys whose time to live is over; what the queue reserved has none and stays for good. */
  lemma CleanUpKeepsReservations(s: Store, ttlMs: int, now: int, key: string)
    ensures var t := CleanUp(s, ttlMs, now);
      && (key in t.idempotencyRecords
          <==> key in s.idempotencyRecords && !(s.idempotencyRecords[key].expiresAt.Some? && s.idempotencyRecords[key].expiresAt.value < now))
      && (key in t.idempotencyRecords ==> t.idempotencyRecords[key] == s.idempotencyRecords[key])
      && ((forall k | k in s.idempotencyRecords :: s.idempotencyRecords[k].expiresAt.None?) ==> t.idempotencyRecords == s.idempotencyRecords)
      && t.commands == s.commands && t.deadLetters == s.deadLetters && t.dispatchHistory == s.dispatchHistory
  {
  }
}
