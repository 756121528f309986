/** The table of outcomes over the worker's cycles: creation under the symbol lock, then one tick for each open row. */
module SignalCycle {
  import opened Common
  import opened Ordering
  import opened OutcomeMachine
  import opened OutcomeProperties
  import opened Admission

  /** How many open rows a cycle reads. */
  const PAGE: nat := 500

  function NewOutcome(c: Candidate, now: int): Outcome {
    Outcome(
      c.symbol, c.side, c.entryPrice, c.stopPrice, c.tp1, c.tp2, now, OPEN, 0.0, 0.0, 0,
      None, None, None, None, None, 0.0, None, None)
  }

  function APlusOnly(cs: seq<Candidate>): seq<Candidate> {
    Filter(cs, (c: Candidate) => c.grade.APlus?)
  }

  function ActiveSymbols(rows: seq<Outcome>): set<string> {
    set i | 0 <= i < |rows| && Active(rows[i]) :: ToUpper(rows[i].symbol)
  }

  function Locked(rows: seq<Outcome>, openTrades: seq<string>): set<string> {
    (set i | 0 <= i < |openTrades| :: ToUpper(openTrades[i])) + ActiveSymbols(rows)
  }

  function Created(rows: seq<Outcome>, selected: seq<Candidate>, openTrades: seq<string>, now: int): seq<Outcome> {
    rows + Map((c: Candidate) => NewOutcome(c, now), FirstPerSymbol(ByScore(APlusOnly(selected)), Locked(rows, openTrades)))
  }

  function Quoted(cfg: OutcomeConfig, o: Outcome, prices: map<string, real>, now: int): Outcome {
    if o.symbol in prices then Tick(cfg, o, prices[o.symbol], now) else o
  }

  /** One tick for each of the first `page` open rows whose symbol has a price; every other row is untouched. */
  function Ticked(cfg: OutcomeConfig, rows: seq<Outcome>, page: nat, prices: map<string, real>, now: int): (r: seq<Outcome>)
    ensures |r| == |rows|
  {
    if rows == [] then []
    else if Active(rows[0]) && page > 0 then [Quoted(cfg, rows[0], prices, now)] + Ticked(cfg, rows[1..], page - 1, prices, now)
    else [rows[0]] + Ticked(cfg, rows[1..], page, prices, now)
  }

  class SignalTable {
    const cfg: OutcomeConfig
    var rows: seq<Outcome>  // in order of creation

    constructor (cfg: OutcomeConfig)
      ensures this.cfg == cfg && rows == []
    {
      this.cfg, rows := cfg, [];
    }

    method CreateOutcomes(selected: seq<Candidate>, openTrades: seq<string>, now: int)
      modifies this
      ensures rows == Created(old(rows), selected, openTrades, now)
    {
      var final := APlusOnly(selected);
      var deduped := LockSymbols(final, Locked(rows, openTrades));
      ghost var created := Map((c: Candidate) => NewOutcome(c, now), deduped);
      for i := 0 to |deduped|
        invariant rows == old(rows) + created[..i]
      {
        rows := rows + [NewOutcome(deduped[i], now)];
      }
    }

    method UpdateOutcomes(prices: map<string, real>, now: int)
      modifies this
      ensures rows == Ticked(cfg, old(rows), PAGE, prices, now)
    {
      var page := PAGE;
      ghost var before := rows;
      ghost var goal := Ticked(cfg, before, PAGE, prices, now);
      ghost var rest := goal;
      assert before[0..] == before;
      for i := 0 to |rows|
        invariant |rows| == |before| && page >= 0
        invariant rows[i..] == before[i..]
        invariant rest == Ticked(cfg, before[i..], page, prices, now) && rows[..i] + rest == goal
      {
        ghost var prefix := rows[..i];
        ghost var row, left := TickedStep(cfg, before, i, page, prices, now);
        assert prefix + ([row] + left) == (prefix + [row]) + left;
        if Active(rows[i]) && page > 0 {
          page := page - 1;
          var updated := UpdateRow(cfg, rows[i], prices, now);
          rows := rows[i := updated];
        }
        rest := left;
        assert rows[..i + 1] == prefix + [row];
      }
    }
  }

  method UpdateRow(cfg: OutcomeConfig, row: Outcome, prices: map<string, real>, now: int) returns (updated: Outcome)
    ensures updated == Quoted(cfg, row, prices, now)
  {
    updated := row;
    if row.symbol in prices {
      updated := ProcessTick(cfg, row, prices[row.symbol], now);
    }
  }

  lemma TickedStep(cfg: OutcomeConfig, rows: seq<Outcome>, i: nat, page: nat, prices: map<string, real>, now: int)
    returns (row: Outcome, left: seq<Outcome>)
    requires i < |rows|
    ensures Ticked(cfg, rows[i..], page, prices, now) == [row] + left
    ensures row == if Active(rows[i]) && page > 0 then Quoted(cfg, rows[i], prices, now) else rows[i]
    ensures left == Ticked(cfg, rows[i + 1..], if Active(rows[i]) && page > 0 then page - 1 else page, prices, now)
  {
    assert rows[i..][0] == rows[i] && rows[i..][1..] == rows[i + 1..];
    row := if Active(rows[i]) && page > 0 then Quoted(cfg, rows[i], prices, now) else rows[i];
    left := Ticked(cfg, rows[i + 1..], if Active(rows[i]) && page > 0 then page - 1 else page, prices, now);
  }

  // ---- Every cycle ---------------------------------------------------------------------------------------------

  /** What one cycle is given: the selected candidates, the symbols of open trades, and the latest prices. */
  datatype Cycle = Cycle(selected: seq<Candidate>, openTrades: seq<string>, prices: map<string, real>, now: int)

  function AfterCycle(cfg: OutcomeConfig, rows: seq<Outcome>, c: Cycle): seq<Outcome> {
    Ticked(cfg, Created(rows, c.selected, c.openTrades, c.now), PAGE, c.prices, c.now)
  }

  function AfterCycles(cfg: OutcomeConfig, rows: seq<Outcome>, cycles: seq<Cycle>): seq<Outcome>
    decreases |cycles|
  {
    if cycles == [] then rows else AfterCycles(cfg, AfterCycle(cfg, rows, cycles[0]), cycles[1..])
  }

  ghost predicate OneActivePerSymbol(rows: seq<Outcome>) {
    forall i, j | 0 <= i < j < |rows| && Active(rows[i]) && Active(rows[j]) :: ToUpper(rows[i].symbol) != ToUpper(rows[j].symbol)
  }

  ghost predicate AllBooks(cfg: OutcomeConfig, rows: seq<Outcome>) {
    forall i | 0 <= i < |rows| :: Books(cfg, rows[i])
  }

  function ActiveBefore(rows: seq<Outcome>, i: nat): nat
    requires i <= |rows|
  {
    Count(rows[..i], Active)
  }

  lemma {:induction false} ActiveBeforeCons(rows: seq<Outcome>, i: nat)
    requires 0 < i <= |rows|
    ensures ActiveBefore(rows, i) == (if Active(rows[0]) then 1 else 0) + ActiveBefore(rows[1..], i - 1)
  {
    assert rows[..i] == [rows[0]] + rows[1..][..i - 1];
    CountConcat([rows[0]], rows[1..][..i - 1], Active);
    CountSingle(rows[0], Active);
  }

  /** Exactly the open rows with fewer than `page` open rows before them take their tick. */
  lemma {:induction false} TickedRow(cfg: OutcomeConfig, rows: seq<Outcome>, page: nat, prices: map<string, real>, now: int, i: nat)
    requires i < |rows|
    ensures Ticked(cfg, rows, page, prices, now)[i]
         == if rows[i].status in {OPEN, TP1_HIT} && ActiveBefore(rows, i) < page && rows[i].symbol in prices.Keys
            then Tick(cfg, rows[i], prices[rows[i].symbol], now) else rows[i]
  {
    if i == 0 {
      assert ActiveBefore(rows, 0) == 0;
    } else {
      assert rows[1..][i - 1] == rows[i];
      ActiveBeforeCons(rows, i);
      TickedRow(cfg, rows[1..], if Active(rows[0]) && page > 0 then page - 1 else page, prices, now, i - 1);
    }
  }

  lemma CreatedKeepsOneActive(rows: seq<Outcome>, selected: seq<Candidate>, openTrades: seq<string>, now: int)
    requires OneActivePerSymbol(rows)
    ensures OneActivePerSymbol(Created(rows, selected, openTrades, now))
  {
    var locked := Locked(rows, openTrades);
    var deduped := FirstPerSymbol(ByScore(APlusOnly(selected)), locked);
    WalkIsDistinct(ByScore(APlusOnly(selected)), SymbolKey, locked);
    var all := Created(rows, selected, openTrades, now);
    forall i, j | 0 <= i < j < |all| && Active(all[i]) && Active(all[j])
      ensures ToUpper(all[i].symbol) != ToUpper(all[j].symbol)
    {
      if j >= |rows| {
        var d := deduped[j - |rows|];
        assert all[j] == NewOutcome(d, now) && d in deduped;
        WalkKeepsFree(ByScore(APlusOnly(selected)), SymbolKey, locked, d);
        if i >= |rows| {
          assert all[i] == NewOutcome(deduped[i - |rows|], now);
        } else {
          assert all[i] == rows[i];
          assert ToUpper(rows[i].symbol) in ActiveSymbols(rows);
        }
      }
    }
  }

  lemma TickedKeepsOneActive(cfg: OutcomeConfig, rows: seq<Outcome>, page: nat, prices: map<string, real>, now: int)
    requires OneActivePerSymbol(rows)
    ensures OneActivePerSymbol(Ticked(cfg, rows, page, prices, now))
  {
    var t := Ticked(cfg, rows, page, prices, now);
    forall i | 0 <= i < |rows|
      ensures t[i].symbol == rows[i].symbol && (Active(t[i]) ==> Active(rows[i]))
    {
      TickedRow(cfg, rows, page, prices, now, i);
      if rows[i].symbol in prices {
        TickObserves(cfg, rows[i], prices[rows[i].symbol], now);
      }
    }
  }

  lemma CycleKeepsBooks(cfg: OutcomeConfig, rows: seq<Outcome>, c: Cycle)
    requires cfg.Valid() && AllBooks(cfg, rows)
    ensures AllBooks(cfg, AfterCycle(cfg, rows, c))
  {
    var mid := Created(rows, c.selected, c.openTrades, c.now);
    var t := AfterCycle(cfg, rows, c);
    forall i | 0 <= i < |t|
      ensures Books(cfg, t[i])
    {
      if i >= |rows| {
        var deduped := FirstPerSymbol(ByScore(APlusOnly(c.selected)), Locked(rows, c.openTrades));
        assert mid[i] == NewOutcome(deduped[i - |rows|], c.now);
        NewKeepsBooks(cfg, mid[i]);
      }
      TickedRow(cfg, mid, PAGE, c.prices, c.now, i);
      if t[i] != mid[i] {
        TickKeepsBooks(cfg, mid[i], c.prices[mid[i].symbol], c.now);
      }
    }
  }

  /** Over all cycles, whatever is selected and quoted: at most one active outcome per symbol, and every row's books are in order. */
  lemma {:induction false} CyclesKeepOneActivePerSymbol(cfg: OutcomeConfig, rows: seq<Outcome>, cycles: seq<Cycle>)
    requires cfg.Valid() && OneActivePerSymbol(rows) && AllBooks(cfg, rows)
    ensures OneActivePerSymbol(AfterCycles(cfg, rows, cycles)) && AllBooks(cfg, AfterCycles(cfg, rows, cycles))
    decreases |cycles|
  {
    if cycles != [] {
      var c := cycles[0];
      CreatedKeepsOneActive(rows, c.selected, c.openTrades, c.now);
      TickedKeepsOneActive(cfg, Created(rows, c.selected, c.openTrades, c.now), PAGE, c.prices, c.now);
      CycleKeepsBooks(cfg, rows, c);
      CyclesKeepOneActivePerSymbol(cfg, AfterCycle(cfg, rows, c), cycles[1..]);
    }
  }

  /** A resolved row is never touched again. */
  lemma {:induction false} ResolvedRowsAreFrozen(cfg: OutcomeConfig, rows: seq<Outcome>, cycles: seq<Cycle>, i: nat)
    requires i < |rows| && !Active(rows[i])
    ensures i < |AfterCycles(cfg, rows, cycles)| && AfterCycles(cfg, rows, cycles)[i] == rows[i]
    decreases |cycles|
  {
    if cycles != [] {
      var c := cycles[0];
      TickedRow(cfg, Created(rows, c.selected, c.openTrades, c.now), PAGE, c.prices, c.now, i);
      ResolvedRowsAreFrozen(cfg, AfterCycle(cfg, rows, c), cycles[1..], i);
    }
  }

  /** A row with 500 open rows before it waits for a later cycle. */
  lemma {:induction false} LateRowsWait(cfg: OutcomeConfig, rows: seq<Outcome>, c: Cycle, i: nat)
    requires i < |rows| && ActiveBefore(rows, i) >= 500
    ensures AfterCycle(cfg, rows, c)[i] == rows[i]
  {
    var mid := Created(rows, c.selected, c.openTrades, c.now);
    assert mid[..i] == rows[..i];
    TickedRow(cfg, mid, PAGE, c.prices, c.now, i);
  }

  /** An open row past the maximum age is resolved by the first cycle that reaches it: with a price, among the first 500 open rows. */
  lemma {:induction false} OldRowsAreResolved(cfg: OutcomeConfig, rows: seq<Outcome>, c: Cycle, i: nat)
    requires cfg.Valid() && AllBooks(cfg, rows) && i < |rows| && Active(rows[i]) && ActiveBefore(rows, i) < 500
    requires rows[i].symbol in c.prices && AgeSeconds(rows[i], c.now) > cfg.maxAgeSeconds
    ensures !Active(AfterCycle(cfg, rows, c)[i])
  {
    var mid := Created(rows, c.selected, c.openTrades, c.now);
    assert mid[..i] == rows[..i];
    TickedRow(cfg, mid, PAGE, c.prices, c.now, i);
    TickKeepsBooks(cfg, rows[i], c.prices[rows[i].symbol], c.now);
  }

  /** No trade is open and no row is open or at its first target for the symbol, in whatever case it is written. */
  ghost predicate Free(symbol: string, rows: seq<Outcome>, openTrades: seq<string>) {
    && (forall i | 0 <= i < |openTrades| :: ToUpper(openTrades[i]) != ToUpper(symbol))
    && (forall i | 0 <= i < |rows| && rows[i].status in {OPEN, TP1_HIT} :: ToUpper(rows[i].symbol) != ToUpper(symbol))
  }

  lemma FreeIffUnlocked(c: Candidate, rows: seq<Outcome>, openTrades: seq<string>)
    ensures Free(c.symbol, rows, openTrades) <==> SymbolKey(c) !in Locked(rows, openTrades)
  {
  }

  /** A fresh row carries the candidate's own levels. */
  ghost predicate RowOf(o: Outcome, c: Candidate, now: int) {
    New(o) && o.symbol == c.symbol && o.side == c.side && o.entry == c.entryPrice && o.stop == c.stopPrice
    && o.tp1 == c.tp1 && o.tp2 == c.tp2 && o.createdAt == now && o.durationSeconds == 0
  }

  /** The rows a cycle adds are fresh, and each is some selected A+ candidate whose symbol was free; older rows stay. */
  lemma {:induction false} CreatedAreUnlockedAPlus(rows: seq<Outcome>, selected: seq<Candidate>, openTrades: seq<string>, now: int, i: nat)
    returns (c: Candidate)
    requires |rows| <= i < |Created(rows, selected, openTrades, now)|
    ensures rows <= Created(rows, selected, openTrades, now)
    ensures c in selected && c.grade.APlus? && Free(c.symbol, rows, openTrades)
    ensures RowOf(Created(rows, selected, openTrades, now)[i], c, now)
  {
    var ranked := ByScore(APlusOnly(selected));
    c := FirstPerSymbol(ranked, Locked(rows, openTrades))[i - |rows|];
    WalkKeepsFree(ranked, SymbolKey, Locked(rows, openTrades), c);
    SameMembers(ranked, APlusOnly(selected));
    FreeIffUnlocked(c, rows, openTrades);
  }

  /** The best candidate of a free symbol is among those that get a row. */
  lemma {:induction false} BestIsSelected(rows: seq<Outcome>, selected: seq<Candidate>, openTrades: seq<string>, c: Candidate)
    returns (d: Candidate)
    requires c in selected && c.grade.APlus? && Free(c.symbol, rows, openTrades)
    ensures d in selected && d.grade.APlus? && ToUpper(d.symbol) == ToUpper(c.symbol) && d.score >= c.score
    ensures d in FirstPerSymbol(ByScore(APlusOnly(selected)), Locked(rows, openTrades))
  {
    var locked := Locked(rows, openTrades);
    var aPlus := APlusOnly(selected);
    var ranked := ByScore(aPlus);
    FreeIffUnlocked(c, rows, openTrades);
    SortSorts(aPlus, ScoresAtLeast);
    SameMembers(ranked, aPlus);
    var k := WalkCovers(ranked, SymbolKey, locked, c);
    d := ranked[k];
    WalkKeepsBest(ranked, ScoresAtLeast, SymbolKey, locked, c, d);
  }

  /** Every free symbol with an A+ candidate gets a row, for a candidate that scores at least as high. */
  lemma {:induction false} UnlockedAPlusIsCreated(rows: seq<Outcome>, selected: seq<Candidate>, openTrades: seq<string>, now: int, c: Candidate)
    returns (d: Candidate, i: nat)
    requires c in selected && c.grade.APlus? && Free(c.symbol, rows, openTrades)
    ensures d in selected && d.grade.APlus? && ToUpper(d.symbol) == ToUpper(c.symbol) && d.score >= c.score
    ensures |rows| <= i < |Created(rows, selected, openTrades, now)|
    ensures RowOf(Created(rows, selected, openTrades, now)[i], d, now)
  {
    d := BestIsSelected(rows, selected, openTrades, c);
    var deduped := FirstPerSymbol(ByScore(APlusOnly(selected)), Locked(rows, openTrades));
    var n :| 0 <= n < |deduped| && deduped[n] == d;
    i := |rows| + n;
  }
}
