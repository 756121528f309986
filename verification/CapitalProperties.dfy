/** What the governed simulation guarantees for every list of trades. */
module CapitalProperties {
  import opened Common
  import opened Capital

  // ---- Streaks and drops, said without the loops ----------------------------------------------------------------

  ghost predicate AllLosses(pnls: seq<real>, from: nat, n: nat)
    requires from + n <= |pnls|
  {
    forall k | from <= k < from + n :: pnls[k] < 0.0
  }

  lemma {:induction false} CurrentRunIsTail(pnls: seq<real>, n: nat)
    ensures CurrentRun(pnls) >= n <==> n <= |pnls| && AllLosses(pnls, |pnls| - n, n)
  {
    if n > 0 && pnls != [] {
      var front := pnls[..|pnls| - 1];
      CurrentRunIsTail(front, n - 1);
      if n <= |pnls| {
        assert AllLosses(pnls, |pnls| - n, n) <==> AllLosses(front, |front| - (n - 1), n - 1) && pnls[|pnls| - 1] < 0.0 by {
          assert forall k | |pnls| - n <= k < |pnls| - 1 :: pnls[k] == front[k];
        }
      }
    }
  }

  /** The streak reported is the length of the longest run of consecutive losses. */
  lemma {:induction false} WorstRunIsLongest(pnls: seq<real>, n: nat)
    requires n > 0
    ensures WorstRun(pnls) >= n <==> exists i: nat :: i + n <= |pnls| && AllLosses(pnls, i, n)
  {
    if pnls != [] {
      var front := pnls[..|pnls| - 1];
      WorstRunIsLongest(front, n);
      CurrentRunIsTail(pnls, n);
      if i: nat :| i + n <= |pnls| && AllLosses(pnls, i, n) {
        if i + n < |pnls| {
          assert AllLosses(front, i, n);
        } else {
          assert i == |pnls| - n;
        }
      }
      if WorstRun(front) >= n {
        var i: nat :| i + n <= |front| && AllLosses(front, i, n);
        assert AllLosses(pnls, i, n);
      }
    }
  }

  /** How far point `j` of a curve lies below the peak so far. */
  function DropAt(curve: seq<real>, j: nat): real
    requires j < |curve|
  {
    DropPct(PeakOf(curve[..j + 1]), curve[j])
  }

  lemma DropAtFront(curve: seq<real>, j: nat)
    requires j < |curve|
    ensures j < |curve| - 1 ==> DropAt(curve, j) == DropAt(curve[..|curve| - 1], j)
    ensures j == |curve| - 1 ==> DropAt(curve, j) == DropPct(PeakOf(curve), curve[|curve| - 1])
  {
    if j < |curve| - 1 {
      assert curve[..|curve| - 1][..j + 1] == curve[..j + 1];
    } else {
      assert curve[..j + 1] == curve;
    }
  }

  /** The drawdown reported is the least bound on the drops from the running peak: it bounds them, and one attains it. */
  lemma {:induction false} WorstDropIsLeastBound(curve: seq<real>)
    ensures forall j | 0 <= j < |curve| :: DropAt(curve, j) <= WorstDrop(curve)
    ensures WorstDrop(curve) == 0.0 || exists j | 0 <= j < |curve| :: DropAt(curve, j) == WorstDrop(curve)
  {
    if curve != [] {
      var front := curve[..|curve| - 1];
      WorstDropIsLeastBound(front);
      forall j | 0 <= j < |curve|
        ensures DropAt(curve, j) <= WorstDrop(curve)
      {
        DropAtFront(curve, j);
      }
      DropAtFront(curve, |curve| - 1);
      if WorstDrop(front) == WorstDrop(curve) != 0.0 {
        var j :| 0 <= j < |front| && DropAt(front, j) == WorstDrop(front);
        DropAtFront(curve, j);
      }
    }
  }

  lemma {:induction false} PeakIsMax(curve: seq<real>)
    requires curve != []
    ensures PeakOf(curve) in curve && forall i | 0 <= i < |curve| :: curve[i] <= PeakOf(curve)
  {
    if |curve| > 1 {
      var front, last := curve[..|curve| - 1], curve[|curve| - 1];
      assert curve == front + [last];
      PeakIsMax(front);
    }
  }

  // ---- Books: the ledger of a run -------------------------------------------------------------------------------

  ghost predicate Ledger(s: SimState, startEq: real) {
    && |s.curve| == |s.tradePnls| + 1
    && s.curve[0] == startEq && s.curve[|s.curve| - 1] == s.equity
    && (forall i | 0 <= i < |s.tradePnls| :: s.curve[i + 1] == s.curve[i] + s.tradePnls[i])
    && s.equity - startEq == Sum(s.tradePnls)
    && s.peak == PeakOf(s.curve)
    && s.wins == Count(s.tradePnls, NotLost) && s.losses == |s.tradePnls| - Count(s.tradePnls, NotLost)
  }

  predicate NotLost(pnl: real) {
    pnl >= 0.0
  }

  lemma PeakOfPush(curve: seq<real>, x: real)
    requires curve != []
    ensures PeakOf(curve + [x]) == Max(PeakOf(curve), x)
  {
    assert (curve + [x])[..|curve|] == curve;
  }

  lemma SumPush(s: seq<real>, x: real)
    ensures Sum(s + [x]) == Sum(s) + x
  {
    assert (s + [x])[..|s|] == s;
  }

  lemma RunPush(s: seq<real>, x: real)
    ensures CurrentRun(s + [x]) == if x >= 0.0 then 0 else CurrentRun(s) + 1
    ensures WorstRun(s + [x]) == MaxNat(WorstRun(s), CurrentRun(s + [x]))
  {
    assert (s + [x])[..|s|] == s;
  }

  lemma {:induction false} BookKeepsLedger(s: SimState, startEq: real, t: Trade, pnl: real)
    requires Ledger(s, startEq)
    ensures Ledger(Book(s, t, pnl), startEq)
  {
    PeakOfPush(s.curve, s.equity + pnl);
    SumPush(s.tradePnls, pnl);
    CountConcat(s.tradePnls, [pnl], NotLost);
    CountSingle(pnl, NotLost);
    var curve := s.curve + [s.equity + pnl];
    assert forall i | 0 <= i < |s.curve| :: curve[i] == s.curve[i];
  }

  lemma {:induction false} StepKeepsLedger(g: Option<Governance>, riskFn: RiskFn, s: SimState, startEq: real, t: Trade)
    requires Ledger(s, startEq)
    ensures Ledger(Step(g, riskFn, s, t), startEq)
  {
    BookKeepsLedger(s, startEq, t, Pnl(s.equity, RiskPct(riskFn, s, t), t.rMultiple));
  }

  lemma {:induction false} PlayKeepsLedger(g: Option<Governance>, riskFn: RiskFn, s: SimState, startEq: real, trades: seq<Trade>)
    requires Ledger(s, startEq)
    ensures Ledger(Play(g, riskFn, s, trades), startEq)
    decreases |trades|
  {
    if trades != [] {
      StepKeepsLedger(g, riskFn, s, startEq, trades[0]);
      PlayKeepsLedger(g, riskFn, Step(g, riskFn, s, trades[0]), startEq, trades[1..]);
    }
  }

  /** Money is conserved: the equity gained is the sum of the trades' results, and the peak is the top of the curve. */
  lemma {:induction false} EquityIsConserved(g: Option<Governance>, riskFn: RiskFn, startEq: real, trades: seq<Trade>)
    ensures Ledger(Final(g, riskFn, startEq, trades), startEq)
    ensures var s := Final(g, riskFn, startEq, trades);
            s.peak in s.curve && startEq <= s.peak && forall i | 0 <= i < |s.curve| :: s.curve[i] <= s.peak
  {
    PlayKeepsLedger(g, riskFn, InitialState(startEq), startEq, trades);
    PeakIsMax(Final(g, riskFn, startEq, trades).curve);
  }

  // ---- The reported streak --------------------------------------------------------------------------------------

  /** What a run reports of a streak: without governance all of it, under governance no more than the configured maximum. */
  function Capped(g: Option<Governance>, streak: nat): nat {
    if g.Some? && streak > g.value.maxConsecutiveLosses then g.value.maxConsecutiveLosses else streak
  }

  /** The counter is the current run of losses until some run was as long as the maximum. */
  ghost predicate StreakBooks(g: Option<Governance>, s: SimState) {
    && s.maxLossStreak == Capped(g, WorstRun(s.tradePnls))
    && (g.Some? ==> s.lossStreak <= g.value.maxConsecutiveLosses)
    && (s.lossStreak == CurrentRun(s.tradePnls) || (g.Some? && WorstRun(s.tradePnls) >= g.value.maxConsecutiveLosses))
  }

  lemma RunsWithin(pnls: seq<real>)
    ensures CurrentRun(pnls) <= WorstRun(pnls)
  {
  }

  lemma {:induction false} BookKeepsStreakBooks(g: Option<Governance>, s: SimState, t: Trade, pnl: real)
    requires StreakBooks(g, s) && (g.Some? ==> s.lossStreak < g.value.maxConsecutiveLosses)
    ensures StreakBooks(g, Book(s, t, pnl))
  {
    RunPush(s.tradePnls, pnl);
    RunsWithin(s.tradePnls);
  }

  /** A step books a trade, or leaves the results alone and at most starts the count over, which only a full count allows. */
  lemma {:induction false} StepCounts(g: Option<Governance>, riskFn: RiskFn, s: SimState, t: Trade, pnl: real)
    requires pnl == Pnl(s.equity, RiskPct(riskFn, s, t), t.rMultiple)
    ensures var r := Step(g, riskFn, s, t);
            (r == Book(s, t, pnl) && (g.Some? ==> s.lossStreak < g.value.maxConsecutiveLosses))
            || (r.tradePnls == s.tradePnls && r.maxLossStreak == s.maxLossStreak
                && (r.lossStreak == s.lossStreak || (g.Some? && s.lossStreak >= g.value.maxConsecutiveLosses && r.lossStreak == 0)))
  {
  }

  lemma {:induction false} UnbookedKeepsStreakBooks(g: Option<Governance>, s: SimState, r: SimState)
    requires StreakBooks(g, s) && r.tradePnls == s.tradePnls && r.maxLossStreak == s.maxLossStreak
    requires r.lossStreak == s.lossStreak || (g.Some? && s.lossStreak >= g.value.maxConsecutiveLosses && r.lossStreak == 0)
    ensures StreakBooks(g, r)
  {
    RunsWithin(s.tradePnls);
  }

  lemma {:induction false} StepKeepsStreakBooks(g: Option<Governance>, riskFn: RiskFn, s: SimState, t: Trade)
    requires StreakBooks(g, s)
    ensures StreakBooks(g, Step(g, riskFn, s, t))
  {
    var pnl, r := Pnl(s.equity, RiskPct(riskFn, s, t), t.rMultiple), Step(g, riskFn, s, t);
    StepCounts(g, riskFn, s, t, pnl);
    if r == Book(s, t, pnl) && (g.Some? ==> s.lossStreak < g.value.maxConsecutiveLosses) {
      BookKeepsStreakBooks(g, s, t, pnl);
    } else {
      UnbookedKeepsStreakBooks(g, s, r);
    }
  }

  lemma {:induction false} PlayKeepsStreakBooks(g: Option<Governance>, riskFn: RiskFn, s: SimState, trades: seq<Trade>)
    requires StreakBooks(g, s)
    ensures StreakBooks(g, Play(g, riskFn, s, trades))
    decreases |trades|
  {
    if trades != [] {
      StepKeepsStreakBooks(g, riskFn, s, trades[0]);
      PlayKeepsStreakBooks(g, riskFn, Step(g, riskFn, s, trades[0]), trades[1..]);
    }
  }

  /**
   The reported losing streak is the longest run of losing trades, cut off at the configured maximum. So it is the real one
   if and only if there is no governance or no run of losing trades is longer than that maximum.
   */
  lemma {:induction false} ReportedStreak(g: Option<Governance>, riskFn: RiskFn, startEq: real, trades: seq<Trade>)
    ensures var s := Final(g, riskFn, startEq, trades);
      && s.maxLossStreak == Capped(g, WorstRun(s.tradePnls))
      && (s.maxLossStreak == WorstRun(s.tradePnls) <==> g.None? || WorstRun(s.tradePnls) <= g.value.maxConsecutiveLosses)
  {
    PlayKeepsStreakBooks(g, riskFn, InitialState(startEq), trades);
  }

  /** Under governance no streak the simulation counts is longer than the configured maximum. */
  lemma {:induction false} StreakIsCapped(g: Governance, riskFn: RiskFn, s: SimState, trades: seq<Trade>)
    requires s.lossStreak <= g.maxConsecutiveLosses && s.maxLossStreak <= g.maxConsecutiveLosses
    ensures Play(Some(g), riskFn, s, trades).lossStreak <= g.maxConsecutiveLosses
    ensures Play(Some(g), riskFn, s, trades).maxLossStreak <= g.maxConsecutiveLosses
    decreases |trades|
  {
    if trades != [] {
      StreakIsCapped(g, riskFn, Step(Some(g), riskFn, s, trades[0]), trades[1..]);
    }
  }

  // ---- One trade, field by field --------------------------------------------------------------------------------

  /** The result booked for the day a trade closes on. */
  function Today(s: SimState, t: Trade): real {
    var day := t.exitTime / 86400000;
    if day in s.dailyPnl.Keys then s.dailyPnl[day] else 0.0
  }

  predicate DayIsOver(g: Governance, s: SimState, t: Trade) {
    100.0 * Today(s, t) <= -(s.equity * g.dailyLossLockPct)
  }

  predicate TooDeep(g: Governance, s: SimState) {
    if s.peak > 0.0 then 100.0 * (s.peak - s.equity) >= g.trailingDdLockPct * s.peak else g.trailingDdLockPct <= 0.0
  }

  predicate TooMany(g: Governance, s: SimState) {
    g.maxConsecutiveLosses <= s.lossStreak
  }

  /** The state after a trade that is taken, by what it made. */
  predicate Taken(s: SimState, t: Trade, riskPct: real, pnl: real, r: SimState) {
    var lost := pnl < 0.0;
    && 100.0 * pnl == s.equity * riskPct * t.rMultiple
    && r.equity == s.equity + pnl && r.peak == (if r.equity > s.peak then r.equity else s.peak)
    && r.tradePnls == s.tradePnls + [pnl] && r.curve == s.curve + [s.equity + pnl]
    && r.dailyPnl == s.dailyPnl[t.exitTime / 86400000 := Today(s, t) + pnl]
    && r.wins == s.wins + (if lost then 0 else 1) && r.losses == s.losses + (if lost then 1 else 0)
    && r.lossStreak == (if lost then s.lossStreak + 1 else 0)
    && r.maxLossStreak == (if lost && s.maxLossStreak <= s.lossStreak then s.lossStreak + 1 else s.maxLossStreak)
    && r.lockUntil == s.lockUntil && r.events == s.events
  }

  lemma DropInMoney(peak: real, equity: real, limitPct: real)
    requires peak > 0.0
    ensures DropPct(peak, equity) >= limitPct <==> 100.0 * (peak - equity) >= limitPct * peak
  {
    var drop := (peak - equity) / peak;
    assert Scale(drop, peak) == peak - equity;
    if DropPct(peak, equity) >= limitPct {
      ScaleGrowsWeakly(drop * 100.0, limitPct, peak);
    } else {
      ScaleGrows(limitPct, drop * 100.0, peak);
    }
  }

  lemma LocksInMoney(g: Governance, s: SimState, t: Trade)
    ensures DailyLocked(g, s, t) <==> DayIsOver(g, s, t)
    ensures DrawdownLocked(g, s) <==> TooDeep(g, s)
    ensures DayPnl(s, DayKey(t.exitTime)) == Today(s, t) && DayKey(t.exitTime) == t.exitTime / 86400000
  {
    if s.peak > 0.0 {
      DropInMoney(s.peak, s.equity, g.trailingDdLockPct);
    }
  }

  lemma PnlInMoney(equity: real, riskPct: real, rMultiple: real)
    ensures 100.0 * Pnl(equity, riskPct, rMultiple) == equity * riskPct * rMultiple
  {
  }

  lemma {:induction false} BookIsTaken(s: SimState, t: Trade, riskPct: real, pnl: real)
    requires pnl == Pnl(s.equity, riskPct, t.rMultiple)
    ensures Taken(s, t, riskPct, pnl, Book(s, t, pnl))
  {
    PnlInMoney(s.equity, riskPct, t.rMultiple);
  }

  /** The first lock that applies turns a trade away, counts it and starts a lock period after the trade's own exit. */
  lemma {:induction false} LockedTrade(g: Governance, riskFn: RiskFn, s: SimState, t: Trade)
    requires t.entryTime >= s.lockUntil && (DayIsOver(g, s, t) || TooDeep(g, s) || TooMany(g, s))
    ensures var locked := s.(lockUntil := t.exitTime + g.lockMs);
            Step(Some(g), riskFn, s, t)
            == if DayIsOver(g, s, t) then locked.(events := s.events.(dailyLoss := s.events.dailyLoss + 1))
               else if TooDeep(g, s) then locked.(events := s.events.(trailingDrawdown := s.events.trailingDrawdown + 1))
               else locked.(lossStreak := 0, events := s.events.(maxConsecutiveLoss := s.events.maxConsecutiveLoss + 1))
  {
    LocksInMoney(g, s, t);
  }

  /** Outside a lock period, with no lock that applies, a trade is taken at the risk asked for, or a twentieth of a percent. */
  lemma {:induction false} TradeIsTaken(g: Option<Governance>, riskFn: RiskFn, s: SimState, t: Trade) returns (pnl: real)
    requires t.entryTime >= s.lockUntil
    requires g.Some? ==> !DayIsOver(g.value, s, t) && !TooDeep(g.value, s) && !TooMany(g.value, s)
    ensures Taken(s, t, if riskFn(t, s) < 0.05 then 0.05 else riskFn(t, s), pnl, Step(g, riskFn, s, t))
  {
    pnl := Pnl(s.equity, RiskPct(riskFn, s, t), t.rMultiple);
    BookIsTaken(s, t, RiskPct(riskFn, s, t), pnl);
    if g.Some? {
      LocksInMoney(g.value, s, t);
    }
  }

  /** A trade is turned away by the daily lock iff the day's loss has reached the limit. */
  lemma {:induction false} DailyLockIff(g: Governance, riskFn: RiskFn, s: SimState, t: Trade)
    requires t.entryTime >= s.lockUntil
    ensures Step(Some(g), riskFn, s, t)
         == s.(lockUntil := t.exitTime + g.lockMs, events := s.events.(dailyLoss := s.events.dailyLoss + 1))
       <==> 100.0 * Today(s, t) <= -(s.equity * g.dailyLossLockPct)
  {
    LocksInMoney(g, s, t);
  }

  /** A run starts unlocked at time zero with nothing booked. */
  lemma {:induction false} FirstTrade(g: Option<Governance>, riskFn: RiskFn, startEq: real, t: Trade) returns (pnl: real)
    requires startEq > 0.0
    requires g.Some? ==> g.value.dailyLossLockPct > 0.0 && g.value.trailingDdLockPct > 0.0 && g.value.maxConsecutiveLosses > 0
    ensures var s := Final(g, riskFn, startEq, [t]);
            if t.entryTime < 0 then s.tradePnls == [] && s.equity == startEq
            else s.tradePnls == [pnl] && s.curve == [startEq, startEq + pnl] && s.events == LockEvents(0, 0, 0)
  {
    pnl := 0.0;
    var init := InitialState(startEq);
    assert [t][1..] == [];
    assert Play(g, riskFn, Step(g, riskFn, init, t), []) == Step(g, riskFn, init, t);
    if t.entryTime >= 0 {
      if g.Some? {
        ScaleGrows(g.value.dailyLossLockPct, 0.0, startEq);
        ScaleGrows(g.value.trailingDdLockPct, 0.0, startEq);
      }
      pnl := TradeIsTaken(g, riskFn, init, t);
    }
  }

  // ---- The trailing lock ----------------------------------------------------------------------------------------

  /** Once the drawdown lock holds it never lets go: no later trade is taken. */
  lemma {:induction false} DrawdownLockIsAbsorbing(g: Governance, riskFn: RiskFn, s: SimState, trades: seq<Trade>)
    requires DrawdownLocked(g, s)
    ensures var r := Play(Some(g), riskFn, s, trades);
      && r.equity == s.equity && r.peak == s.peak && r.curve == s.curve && r.tradePnls == s.tradePnls
      && r.dailyPnl == s.dailyPnl && DrawdownLocked(g, r)
    decreases |trades|
  {
    if trades != [] {
      DrawdownLockIsAbsorbing(g, riskFn, Step(Some(g), riskFn, s, trades[0]), trades[1..]);
    }
  }

  // ---- The floor under the equity -------------------------------------------------------------------------------

  function Scale(x: real, y: real): real {
    x * y
  }

  function Left(pct: real): real {
    1.0 - pct / 100.0
  }

  /** What is left of a peak after the deepest admitted drawdown and one more full loss. */
  function Keep(limitPct: real, lossPct: real): real {
    Scale(Left(limitPct), Left(lossPct))
  }

  function LossPct(riskPct: real, rMultiple: real): real {
    riskPct * -rMultiple
  }

  /** No trade loses more than `lossPct` percent of the equity it is taken with. */
  ghost predicate LossCapped(riskFn: RiskFn, trades: seq<Trade>, lossPct: real) {
    forall i, s | 0 <= i < |trades| :: LossPct(RiskPct(riskFn, s, trades[i]), trades[i].rMultiple) <= lossPct
  }

  lemma ScaleGrows(x: real, y: real, z: real)
    requires x > y && z > 0.0
    ensures Scale(x, z) > Scale(y, z)
  {
  }

  lemma ScaleGrowsWeakly(x: real, y: real, z: real)
    requires x >= y && z >= 0.0
    ensures Scale(x, z) >= Scale(y, z)
  {
  }

  lemma ScaleAssociates(x: real, y: real, z: real)
    ensures Scale(Scale(x, y), z) == Scale(x, Scale(y, z))
  {
  }

  lemma ScaleCancels(x: real, y: real, z: real)
    requires z > 0.0 && Scale(x, z) < Scale(y, z)
    ensures x < y
  {
    if x >= y {
      ScaleGrowsWeakly(x, y, z);
    }
  }

  lemma UnlockedEquity(peak: real, equity: real, limitPct: real)
    requires peak > 0.0 && DropPct(peak, equity) < limitPct
    ensures equity > Scale(peak, Left(limitPct))
  {
    var drop := (peak - equity) / peak;
    assert peak - equity == Scale(drop, peak);
    ScaleGrows(limitPct / 100.0, drop, peak);
    assert Scale(limitPct / 100.0, peak) > peak - equity;
  }

  lemma FlooredDrop(peak: real, equity: real, keep: real)
    requires peak > 0.0 && equity > Scale(peak, keep)
    ensures DropPct(peak, equity) < 100.0 * (1.0 - keep)
  {
    var drop := (peak - equity) / peak;
    assert peak - equity == Scale(drop, peak);
    assert Scale(1.0 - keep, peak) == peak - Scale(peak, keep);
    ScaleCancels(drop, 1.0 - keep, peak);
  }

  lemma LossLeaves(equity: real, riskPct: real, rMultiple: real, lossPct: real)
    requires equity > 0.0 && LossPct(riskPct, rMultiple) <= lossPct
    ensures equity + Pnl(equity, riskPct, rMultiple) >= Scale(equity, Left(lossPct))
  {
    assert Pnl(equity, riskPct, rMultiple) == Scale(-LossPct(riskPct, rMultiple) / 100.0, equity);
    ScaleGrowsWeakly(-LossPct(riskPct, rMultiple) / 100.0, -lossPct / 100.0, equity);
    assert Scale(equity, Left(lossPct)) == equity + Scale(-lossPct / 100.0, equity);
  }

  lemma KeepIsFraction(limitPct: real, lossPct: real)
    requires 0.0 < limitPct <= 100.0 && 0.0 <= lossPct < 100.0
    ensures 0.0 <= Keep(limitPct, lossPct) < 1.0
  {
    ScaleGrowsWeakly(1.0, Left(lossPct), Left(limitPct));
    ScaleGrowsWeakly(Left(lossPct), 0.0, Left(limitPct));
  }

  /** Every point of the curve lies above the kept part of the peak so far. */
  ghost predicate AboveFloor(curve: seq<real>, keep: real) {
    curve == [] || (AboveFloor(curve[..|curve| - 1], keep) && curve[|curve| - 1] > Scale(PeakOf(curve), keep))
  }

  ghost predicate Floored(s: SimState, keep: real) {
    s.peak > 0.0 && s.curve != [] && s.peak == PeakOf(s.curve) && AboveFloor(s.curve, keep)
  }

  lemma {:induction false} BookKeepsFloor(s: SimState, t: Trade, pnl: real, keep: real)
    requires Floored(s, keep) && keep < 1.0
    requires s.equity + pnl > Scale(s.peak, keep)
    ensures Floored(Book(s, t, pnl), keep)
  {
    var equity := s.equity + pnl;
    var curve := s.curve + [equity];
    PeakOfPush(s.curve, equity);
    assert curve[..|curve| - 1] == s.curve;
    if equity > s.peak {
      ScaleGrows(1.0, keep, equity);
    }
    assert curve[|curve| - 1] > Scale(PeakOf(curve), keep);
  }

  /** Taken in this state, the trade leaves more than the kept part of the peak. */
  ghost predicate TradeSafe(g: Governance, riskFn: RiskFn, s: SimState, t: Trade, keep: real) {
    s.peak > 0.0 && !DrawdownLocked(g, s) ==>
      s.equity + Pnl(s.equity, RiskPct(riskFn, s, t), t.rMultiple) > Scale(s.peak, keep)
  }

  ghost predicate AllSafe(g: Governance, riskFn: RiskFn, trades: seq<Trade>, keep: real) {
    forall i, s | 0 <= i < |trades| :: TradeSafe(g, riskFn, s, trades[i], keep)
  }

  lemma {:induction false} TradeStaysAboveFloor(s: SimState, limitPct: real, riskPct: real, rMultiple: real, lossPct: real)
    requires s.peak > 0.0 && DropPct(s.peak, s.equity) < limitPct <= 100.0
    requires lossPct < 100.0 && LossPct(riskPct, rMultiple) <= lossPct
    ensures s.equity + Pnl(s.equity, riskPct, rMultiple) > Scale(s.peak, Keep(limitPct, lossPct))
  {
    UnlockedEquity(s.peak, s.equity, limitPct);
    ScaleGrowsWeakly(s.peak, 0.0, Left(limitPct));
    LossLeaves(s.equity, riskPct, rMultiple, lossPct);
    ScaleGrows(s.equity, Scale(s.peak, Left(limitPct)), Left(lossPct));
    ScaleAssociates(s.peak, Left(limitPct), Left(lossPct));
  }

  lemma {:induction false} CappedIsSafe(g: Governance, riskFn: RiskFn, trades: seq<Trade>, lossPct: real)
    requires g.trailingDdLockPct <= 100.0 && lossPct < 100.0 && LossCapped(riskFn, trades, lossPct)
    ensures AllSafe(g, riskFn, trades, Keep(g.trailingDdLockPct, lossPct))
  {
    forall i, s | 0 <= i < |trades|
      ensures TradeSafe(g, riskFn, s, trades[i], Keep(g.trailingDdLockPct, lossPct))
    {
      if s.peak > 0.0 && !DrawdownLocked(g, s) {
        TradeStaysAboveFloor(s, g.trailingDdLockPct, RiskPct(riskFn, s, trades[i]), trades[i].rMultiple, lossPct);
      }
    }
  }

  lemma {:induction false} StepKeepsFloor(g: Governance, riskFn: RiskFn, s: SimState, t: Trade, keep: real)
    requires keep < 1.0 && TradeSafe(g, riskFn, s, t, keep) && Floored(s, keep)
    ensures Floored(Step(Some(g), riskFn, s, t), keep)
  {
    if !DrawdownLocked(g, s) {
      BookKeepsFloor(s, t, Pnl(s.equity, RiskPct(riskFn, s, t), t.rMultiple), keep);
    }
  }

  lemma {:induction false} PlayKeepsFloor(g: Governance, riskFn: RiskFn, s: SimState, trades: seq<Trade>, keep: real)
    requires keep < 1.0 && AllSafe(g, riskFn, trades, keep) && Floored(s, keep)
    ensures Floored(Play(Some(g), riskFn, s, trades), keep)
    decreases |trades|
  {
    if trades != [] {
      assert TradeSafe(g, riskFn, s, trades[0], keep);
      StepKeepsFloor(g, riskFn, s, trades[0], keep);
      assert AllSafe(g, riskFn, trades[1..], keep) by {
        assert forall i | 0 <= i < |trades| - 1 :: trades[1..][i] == trades[i + 1];
      }
      PlayKeepsFloor(g, riskFn, Step(Some(g), riskFn, s, trades[0]), trades[1..], keep);
    }
  }

  lemma {:induction false} FlooredCurveDrops(curve: seq<real>, keep: real)
    requires keep < 1.0 && AboveFloor(curve, keep)
    ensures WorstDrop(curve) < 100.0 * (1.0 - keep)
  {
    if curve != [] {
      FlooredCurveDrops(curve[..|curve| - 1], keep);
      if PeakOf(curve) > 0.0 {
        FlooredDrop(PeakOf(curve), curve[|curve| - 1], keep);
      }
    }
  }

  /** If every trade, in every state it may be taken in, leaves the kept part of the peak, so does the whole run. */
  lemma {:induction false} SafeTradesKeepFloor(g: Governance, riskFn: RiskFn, startEq: real, trades: seq<Trade>, keep: real)
    requires startEq > 0.0 && keep < 1.0 && AllSafe(g, riskFn, trades, keep)
    ensures var s := Final(Some(g), riskFn, startEq, trades);
            AboveFloor(s.curve, keep) && s.equity > Scale(s.peak, keep) && WorstDrop(s.curve) < 100.0 * (1.0 - keep)
  {
    var init := InitialState(startEq);
    ScaleGrows(1.0, keep, startEq);
    assert init.curve[..0] == [];
    PlayKeepsFloor(g, riskFn, init, trades, keep);
    EquityIsConserved(Some(g), riskFn, startEq, trades);
    FlooredCurveDrops(Final(Some(g), riskFn, startEq, trades).curve, keep);
  }

  /**
   At every point of the curve the equity exceeds peak x (1 - limit) x (1 - worst loss of one trade), so the
   reported drawdown stays below the complement, whatever the trades are.
   */
  lemma {:induction false} EquityStaysAboveFloor(g: Governance, riskFn: RiskFn, startEq: real, trades: seq<Trade>, lossPct: real)
    requires startEq > 0.0 && 0.0 < g.trailingDdLockPct <= 100.0 && 0.0 <= lossPct < 100.0
    requires LossCapped(riskFn, trades, lossPct)
    ensures var s, keep := Final(Some(g), riskFn, startEq, trades), Keep(g.trailingDdLockPct, lossPct);
            AboveFloor(s.curve, keep) && s.equity > Scale(s.peak, keep) && WorstDrop(s.curve) < 100.0 * (1.0 - keep)
  {
    KeepIsFraction(g.trailingDdLockPct, lossPct);
    CappedIsSafe(g, riskFn, trades, lossPct);
    SafeTradesKeepFloor(g, riskFn, startEq, trades, Keep(g.trailingDdLockPct, lossPct));
  }

  // ---- The daily lock and the lock period -----------------------------------------------------------------------

  lemma PctGrows(x: real, y: real, pct: real)
    requires x <= y && pct >= 0.0
    ensures PctOf(x, pct) <= PctOf(y, pct)
  {
    ScaleGrowsWeakly(y, x, pct);
  }

  /** No day of the run has lost more than the given part of the peak. */
  ghost predicate DaysBounded(s: SimState, pct: real) {
    s.peak > 0.0 && s.equity <= s.peak && forall d | d in s.dailyPnl :: s.dailyPnl[d] > -PctOf(s.peak, pct)
  }

  lemma {:induction false} DayAfterTrade(g: Governance, s: SimState, t: Trade, riskPct: real, lossPct: real)
    requires s.peak > 0.0 && s.equity <= s.peak && !DailyLocked(g, s, t) && !DrawdownLocked(g, s)
    requires g.trailingDdLockPct <= 100.0 && g.dailyLossLockPct >= 0.0 && lossPct >= 0.0
    requires LossPct(riskPct, t.rMultiple) <= lossPct
    ensures DayPnl(s, DayKey(t.exitTime)) + Pnl(s.equity, riskPct, t.rMultiple) > -PctOf(s.peak, g.dailyLossLockPct + lossPct)
  {
    UnlockedEquity(s.peak, s.equity, g.trailingDdLockPct);
    ScaleGrowsWeakly(s.peak, 0.0, Left(g.trailingDdLockPct));
    LossLeaves(s.equity, riskPct, t.rMultiple, lossPct);
    assert Scale(s.equity, Left(lossPct)) == s.equity - PctOf(s.equity, lossPct);
    assert PctOf(s.equity, g.dailyLossLockPct) + PctOf(s.equity, lossPct) == PctOf(s.equity, g.dailyLossLockPct + lossPct);
    PctGrows(s.equity, s.peak, g.dailyLossLockPct + lossPct);
  }

  lemma {:induction false} BookKeepsDays(s: SimState, t: Trade, pnl: real, pct: real)
    requires DaysBounded(s, pct) && pct >= 0.0 && DayPnl(s, DayKey(t.exitTime)) + pnl > -PctOf(s.peak, pct)
    ensures DaysBounded(Book(s, t, pnl), pct)
  {
    PctGrows(s.peak, Book(s, t, pnl).peak, pct);
  }

  lemma {:induction false} StepKeepsDays(g: Governance, riskFn: RiskFn, s: SimState, t: Trade, lossPct: real)
    requires g.trailingDdLockPct <= 100.0 && g.dailyLossLockPct >= 0.0 && lossPct >= 0.0
    requires LossPct(RiskPct(riskFn, s, t), t.rMultiple) <= lossPct
    requires DaysBounded(s, g.dailyLossLockPct + lossPct)
    ensures DaysBounded(Step(Some(g), riskFn, s, t), g.dailyLossLockPct + lossPct)
  {
    if !DailyLocked(g, s, t) && !DrawdownLocked(g, s) {
      DayAfterTrade(g, s, t, RiskPct(riskFn, s, t), lossPct);
      BookKeepsDays(s, t, Pnl(s.equity, RiskPct(riskFn, s, t), t.rMultiple), g.dailyLossLockPct + lossPct);
    }
  }

  lemma {:induction false} PlayKeepsDays(g: Governance, riskFn: RiskFn, s: SimState, trades: seq<Trade>, lossPct: real)
    requires g.trailingDdLockPct <= 100.0 && g.dailyLossLockPct >= 0.0 && lossPct >= 0.0 && LossCapped(riskFn, trades, lossPct)
    requires DaysBounded(s, g.dailyLossLockPct + lossPct)
    ensures DaysBounded(Play(Some(g), riskFn, s, trades), g.dailyLossLockPct + lossPct)
    decreases |trades|
  {
    if trades != [] {
      StepKeepsDays(g, riskFn, s, trades[0], lossPct);
      assert LossCapped(riskFn, trades[1..], lossPct) by {
        assert forall i | 0 <= i < |trades| - 1 :: trades[1..][i] == trades[i + 1];
      }
      PlayKeepsDays(g, riskFn, Step(Some(g), riskFn, s, trades[0]), trades[1..], lossPct);
    }
  }

  /** Whatever the trades are, no day loses more of the peak than the daily limit and one more full loss. */
  lemma {:induction false} EveryDayIsBounded(g: Governance, riskFn: RiskFn, startEq: real, trades: seq<Trade>, lossPct: real)
    requires startEq > 0.0 && g.trailingDdLockPct <= 100.0 && g.dailyLossLockPct >= 0.0 && lossPct >= 0.0
    requires LossCapped(riskFn, trades, lossPct)
    ensures var s := Final(Some(g), riskFn, startEq, trades);
            forall d | d in s.dailyPnl :: 100.0 * s.dailyPnl[d] > -(s.peak * (g.dailyLossLockPct + lossPct))
  {
    PlayKeepsDays(g, riskFn, InitialState(startEq), trades, lossPct);
  }

  /** While a lock lasts every trade is skipped without a trace; the first one after it is judged by the state the lock left. */
  lemma {:induction false} LockedTradesLeaveNoTrace(g: Option<Governance>, riskFn: RiskFn, s: SimState, locked: seq<Trade>, rest: seq<Trade>)
    requires forall t | t in locked :: t.entryTime < s.lockUntil
    ensures Play(g, riskFn, s, locked + rest) == Play(g, riskFn, s, rest)
    decreases |locked|
  {
    if locked == [] {
      assert locked + rest == rest;
    } else {
      assert locked[0] in locked;
      assert (locked + rest)[1..] == locked[1..] + rest;
      LockedTradesLeaveNoTrace(g, riskFn, s, locked[1..], rest);
    }
  }
}
