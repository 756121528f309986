/** The safety theorems of the execution core that hold for every interleaving and every behaviour of the workers. */
module ProtocolSafety {
  import opened Common
  import opened ExecutionTypes
  import opened Idempotency
  import opened StoreModel
  import opened QueueModel
  import opened Protocol
  import opened ProtocolInvariants
  import opened ProtocolBudget

  ghost predicate Reachable(cfg: QueueConfig, rule: Rule, steps: seq<Step>, s: State) {
    Run(cfg, rule, INIT, steps) == Some(s)
  }

  lemma ReachableInv(cfg: QueueConfig, rule: Rule, steps: seq<Step>, s: State)
    requires Reachable(cfg, rule, steps, s)
    ensures Inv(cfg, s)
  {
    InitInv(cfg);
    InvRun(cfg, rule, INIT, steps);
  }

  // ---- One command per key and per entry -----------------------------------------------------------------------

  lemma HeldAsList<T>(f: Command -> T, s: Store)
    ensures multiset(Map(f, s.commands + s.deadLetters)) == Held(f, s)
  {
    MapAppend(f, s.commands, s.deadLetters);
  }

  /** Over all runs, no key and no id occurs twice among the live and the dead-lettered commands together. */
  lemma KeysNeverRepeat(cfg: QueueConfig, rule: Rule, steps: seq<Step>, s: State)
    requires Reachable(cfg, rule, steps, s)
    ensures var all := s.store.commands + s.store.deadLetters;
            forall i, j | 0 <= i < j < |all| ::
              all[i].idempotencyKey != all[j].idempotencyKey && all[i].commandId != all[j].commandId
  {
    ReachableInv(cfg, rule, steps, s);
    var all := s.store.commands + s.store.deadLetters;
    HeldAsList(KeyOf, s.store);
    HeldAsList(IdOf, s.store);
    forall x
      ensures multiset(Map(KeyOf, all))[x] <= 1
    {
      assert Claimed(KeyOf, s)[x] <= 1;
    }
    forall x
      ensures multiset(Map(IdOf, all))[x] <= 1
    {
      assert Claimed(IdOf, s)[x] <= 1;
    }
    forall i, j | 0 <= i < j < |all|
      ensures all[i].idempotencyKey != all[j].idempotencyKey && all[i].commandId != all[j].commandId
    {
      BagDistinct(Map(KeyOf, all), i, j);
      BagDistinct(Map(IdOf, all), i, j);
    }
  }

  lemma HeldArePlanned(s: State, c: Command)
    requires Registry(s) && Origin(s)
    requires c in s.store.commands + s.store.deadLetters
    ensures c.idempotencyKey == EntryKey(EntryOf(c)) && c.action == OpenPosition
  {
    HeldAsList(Core, s.store);
    MemberMapped(Core, s.store.commands + s.store.deadLetters, c);
    var cores := Map(Core, s.accepted);
    assert Core(c) in multiset(cores);
    assert Core(c) in cores;
    var i :| 0 <= i < |cores| && cores[i] == Core(c);
    assert Planned(s.accepted[i]) && Core(s.accepted[i]) == Core(c);
    SameCoreSameEntry(c, s.accepted[i]);
  }

  lemma SameCoreSameEntry(c: Command, d: Command)
    requires Core(c) == Core(d)
    ensures c.idempotencyKey == d.idempotencyKey && EntryOf(c) == EntryOf(d) && c.action == d.action
    ensures c.commandId == d.commandId
  {
    assert Core(c).idempotencyKey == c.idempotencyKey && Core(d).idempotencyKey == d.idempotencyKey;
    assert EntryOf(Core(c)) == EntryOf(c) && EntryOf(Core(d)) == EntryOf(d);
    assert Core(c).action == c.action && Core(d).action == d.action;
    assert Core(c).commandId == c.commandId && Core(d).commandId == d.commandId;
  }

  /** Every signal, customer, executor, account and adapter together get at most one OpenPosition command, ever. */
  lemma OneCommandPerEntry(cfg: QueueConfig, rule: Rule, steps: seq<Step>, s: State, i: nat, j: nat)
    requires Reachable(cfg, rule, steps, s)
    requires i < j < |s.store.commands + s.store.deadLetters|
    ensures var all := s.store.commands + s.store.deadLetters;
            EntryOf(all[i]) != EntryOf(all[j])
  {
    KeysNeverRepeat(cfg, rule, steps, s);
    ReachableInv(cfg, rule, steps, s);
    var all := s.store.commands + s.store.deadLetters;
    HeldArePlanned(s, all[i]);
    HeldArePlanned(s, all[j]);
  }

  ghost predicate Tried(steps: seq<Step>, key: string) {
    exists i :: 0 <= i < |steps| && steps[i].Reserve? && steps[i].cmd.idempotencyKey == key
  }

  lemma TriedFirst(steps: seq<Step>, key: string)
    requires steps != []
    ensures Tried(steps, key) <==> (steps[0].Reserve? && steps[0].cmd.idempotencyKey == key) || Tried(steps[1..], key)
  {
    if i :| 0 <= i < |steps[1..]| && steps[1..][i].Reserve? && steps[1..][i].cmd.idempotencyKey == key {
      assert steps[i + 1] == steps[1..][i];
    }
    if i :| 0 < i < |steps| && steps[i].Reserve? && steps[i].cmd.idempotencyKey == key {
      assert steps[1..][i - 1] == steps[i];
    }
  }

  /** The keys on record are those some dispatcher reserved on the way. */
  lemma {:induction false} RecordsAreReservations(cfg: QueueConfig, rule: Rule, s: State, steps: seq<Step>, key: string)
    requires Inv(cfg, s) && Run(cfg, rule, s, steps).Some?
    ensures key in Run(cfg, rule, s, steps).value.store.idempotencyRecords
       <==> key in s.store.idempotencyRecords || Tried(steps, key)
    decreases |steps|
  {
    if steps != [] {
      InvStep(cfg, s, steps[0]);
      RecordsStep(cfg, s, steps[0], key);
      TriedFirst(steps, key);
      RecordsAreReservations(cfg, rule, Apply(cfg, s, steps[0]), steps[1..], key);
    }
  }

  lemma RecordsStep(cfg: QueueConfig, s: State, step: Step, key: string)
    requires Registry(s) && Enabled(s, step)
    ensures key in Apply(cfg, s, step).store.idempotencyRecords
       <==> key in s.store.idempotencyRecords || (step.Reserve? && step.cmd.idempotencyKey == key)
  {
    if Quiet(step) {
      QuietKeepsIdentity(cfg, s, step);
    } else if step.Fail? {
      FailKeepsHoldings(cfg, s.store, s.jobs[step.j].commandId, step.reason, step.category, s.now);
    }
  }

  /**
   No false duplicates: for an entry without bars in its identifiers, a reservation is refused if and only if
   a reservation for that very entry was attempted before.
   */
  lemma RefusedIffTriedBefore(cfg: QueueConfig, rule: Rule, steps: seq<Step>, s: State, cmd: Command)
    requires Reachable(cfg, rule, steps, s) && Planned(cmd) && Clean(EntryOf(cmd))
    ensures Reserved(s.store, cmd.idempotencyKey, s.now)
       <==> exists i :: 0 <= i < |steps| && steps[i].Reserve? && EntryOf(steps[i].cmd) == EntryOf(cmd)
  {
    ReachableInv(cfg, rule, steps, s);
    InitInv(cfg);
    RecordsAreReservations(cfg, rule, INIT, steps, cmd.idempotencyKey);
    forall i | 0 <= i < |steps| && steps[i].Reserve?
      ensures steps[i].cmd.idempotencyKey == cmd.idempotencyKey <==> EntryOf(steps[i].cmd) == EntryOf(cmd)
    {
      StepsWereEnabled(cfg, rule, INIT, steps, i);
      if steps[i].cmd.idempotencyKey == cmd.idempotencyKey {
        KeyOfCleanEntry(EntryOf(cmd), EntryOf(steps[i].cmd));
      }
    }
  }

  lemma {:induction false} StepsWereEnabled(cfg: QueueConfig, rule: Rule, s: State, steps: seq<Step>, i: nat)
    requires Run(cfg, rule, s, steps).Some? && i < |steps| && steps[i].Reserve?
    ensures Planned(steps[i].cmd)
    decreases i
  {
    if i > 0 {
      StepsWereEnabled(cfg, rule, Apply(cfg, s, steps[0]), steps[1..], i - 1);
    }
  }

  // ---- Conservation --------------------------------------------------------------------------------------------

  /** Every accepted command is live or dead-lettered, never both, never changed in what identifies it, and nothing else is. */
  lemma AcceptedAreConserved(cfg: QueueConfig, rule: Rule, steps: seq<Step>, s: State)
    requires Reachable(cfg, rule, steps, s)
    ensures |s.store.commands| + |s.store.deadLetters| == |s.accepted|
    ensures multiset(Cores(s.store.commands)) + multiset(Cores(s.store.deadLetters)) == multiset(Cores(s.accepted))
    ensures forall a | a in s.accepted ::
              (Core(a) in Cores(s.store.commands)) != (Core(a) in Cores(s.store.deadLetters))
  {
    ReachableInv(cfg, rule, steps, s);
    assert |Held(Core, s.store)| == |multiset(Map(Core, s.accepted))|;
    HeldDistinct(s);
    forall c, d | c in s.store.commands && d in s.store.deadLetters
      ensures Core(c) != Core(d)
    {
      if Core(c) == Core(d) {
        SameCoreSameEntry(c, d);
      }
    }
    forall a | a in s.accepted
      ensures (Core(a) in Cores(s.store.commands)) != (Core(a) in Cores(s.store.deadLetters))
    {
      MemberMapped(Core, s.accepted, a);
      assert Core(a) in Held(Core, s.store);
    }
  }

  /** Dead letters and acceptance are append-only; an entry once written is never touched. */
  lemma {:induction false} DeadLettersOnlyGrow(cfg: QueueConfig, rule: Rule, s: State, steps: seq<Step>)
    requires Run(cfg, rule, s, steps).Some?
    ensures var t := Run(cfg, rule, s, steps).value;
            s.store.deadLetters <= t.store.deadLetters && s.accepted <= t.accepted && s.store.recoveryCount <= t.store.recoveryCount
    decreases |steps|
  {
    if steps != [] {
      DeadLettersStep(cfg, s, steps[0]);
      DeadLettersOnlyGrow(cfg, rule, Apply(cfg, s, steps[0]), steps[1..]);
    }
  }

  lemma DeadLettersStep(cfg: QueueConfig, s: State, step: Step)
    requires Enabled(s, step)
    ensures var t := Apply(cfg, s, step);
            s.store.deadLetters <= t.store.deadLetters && s.accepted <= t.accepted && s.store.recoveryCount <= t.store.recoveryCount
  {
    if step.Fail? && Has(s.store.commands, s.jobs[step.j].commandId) {
      FailShape(cfg, s.store, s.jobs[step.j].commandId, step.reason, step.category, s.now);
    } else if Quiet(step) && !step.RecoverExpired? {
      QuietPatches(cfg, s, step);
    }
  }

  // ---- The retry budget ----------------------------------------------------------------------------------------

  /** A live command has been leased at most 1 + retries + recoveries + releases times, and its retries stay in budget. */
  lemma LeasesAreBounded(cfg: QueueConfig, rule: Rule, steps: seq<Step>, s: State, c: Command)
    requires Reachable(cfg, rule, steps, s) && c in s.store.commands
    ensures var h := TallyOf(s, c.commandId);
            h.grants <= 1 + c.retryCount + h.recoveries + h.releases && c.retryCount <= cfg.maxRetries
  {
    ReachableInv(cfg, rule, steps, s);
    assert GrantsPaid(c, TallyOf(s, c.commandId)) && CommandOk(cfg, c, s.now);
  }

  /** Whoever the workers are, the adapter is called at most maxRetries + 1 times plus once per recovery or release. */
  lemma AdapterCallsAreBounded(cfg: QueueConfig, rule: Rule, steps: seq<Step>, s: State, id: string)
    requires Reachable(cfg, rule, steps, s)
    ensures var h := TallyOf(s, id);
            h.executions <= h.grants <= cfg.maxRetries + 1 + h.recoveries + h.releases
  {
    ReachableInv(cfg, rule, steps, s);
    assert TallyOf(s, id).executions + Count(s.jobs, Unsent(id)) <= TallyOf(s, id).grants;
    if id in s.tally {
      HeldAsList(IdOf, s.store);
      var all := s.store.commands + s.store.deadLetters;
      assert id in Map(IdOf, all);
      var i :| 0 <= i < |all| && Map(IdOf, all)[i] == id;
      if i < |s.store.commands| {
        assert all[i] in s.store.commands;
        assert GrantsPaid(all[i], TallyOf(s, id)) && CommandOk(cfg, all[i], s.now);
      } else {
        assert all[i] in s.store.deadLetters;
        assert DeadGrantsPaid(all[i], TallyOf(s, id)) && DeadOk(cfg, all[i]);
      }
    }
  }

  // ---- Recovery ------------------------------------------------------------------------------------------------

  /** In every reachable state a recovered command can be leased at once: its retry time has already passed. */
  lemma RecoveredAreDue(cfg: QueueConfig, rule: Rule, steps: seq<Step>, s: State, i: nat)
    requires Reachable(cfg, rule, steps, s) && i < |s.store.commands| && Stranded(s.store.commands[i], s.now)
    ensures var c := Apply(cfg, s, RecoverExpired).store.commands[i];
            IsDue(c, s.now) && c.commandId == s.store.commands[i].commandId
  {
    ReachableInv(cfg, rule, steps, s);
    var c := s.store.commands[i];
    assert CommandOk(cfg, c, s.now);
    assert Apply(cfg, s, RecoverExpired).store.commands[i] == RecoverOne(c, s.now);
  }
}
