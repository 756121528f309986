/** The governed equity simulation (scripts/validate-breakout-capital.ts). Percentages and money are reals. */
module Capital {
  import opened Common

  const DAY_MS: int := 86400000

  datatype Trade = Trade(score: real, rMultiple: real, entryTime: int, exitTime: int)

  datatype Governance = Governance(dailyLossLockPct: real, trailingDdLockPct: real, maxConsecutiveLosses: nat, lockMs: int)

  datatype LockEvents = LockEvents(dailyLoss: nat, trailingDrawdown: nat, maxConsecutiveLoss: nat)

  datatype SimState = SimState(
    equity: real, peak: real, maxLossStreak: nat, lossStreak: nat, tradePnls: seq<real>, wins: nat, losses: nat,
    curve: seq<real>, lockUntil: int, events: LockEvents, dailyPnl: map<int, real>)

  type RiskFn = (Trade, SimState) -> real

  datatype Report = Report(
    trades: nat, wins: nat, netPnL: real, startingEquity: real, endingEquity: real, maxDDPct: real, worstLosingStreak: nat,
    governanceEvents: Option<LockEvents>, survivesFullPeriod: Option<bool>)

  // ---- Sums, peaks, drops and streaks --------------------------------------------------------------------------

  function Sum(s: seq<real>): real {
    if s == [] then 0.0 else Sum(s[..|s| - 1]) + s[|s| - 1]
  }

  function PeakOf(curve: seq<real>): real
    requires curve != []
  {
    if |curve| == 1 then curve[0] else Max(PeakOf(curve[..|curve| - 1]), curve[|curve| - 1])
  }

  function DropPct(peak: real, x: real): real {
    if peak > 0.0 then (peak - x) / peak * 100.0 else 0.0
  }

  function WorstDrop(curve: seq<real>): (worst: real)
    ensures worst >= 0.0
  {
    if curve == [] then 0.0
    else Max(WorstDrop(curve[..|curve| - 1]), DropPct(PeakOf(curve), curve[|curve| - 1]))
  }

  function CurrentRun(pnls: seq<real>): nat {
    if pnls == [] || pnls[|pnls| - 1] >= 0.0 then 0 else CurrentRun(pnls[..|pnls| - 1]) + 1
  }

  function MaxNat(a: nat, b: nat): nat {
    if a >= b then a else b
  }

  function WorstRun(pnls: seq<real>): nat {
    if pnls == [] then 0 else MaxNat(WorstRun(pnls[..|pnls| - 1]), CurrentRun(pnls))
  }

  method MaxDD(curve: seq<real>) returns (worst: real)
    ensures worst == WorstDrop(curve)
  {
    var peak := if curve == [] then 0.0 else curve[0];
    worst := 0.0;
    for i := 0 to |curve|
      invariant worst == WorstDrop(curve[..i])
      invariant curve != [] ==> peak == if i == 0 then curve[0] else PeakOf(curve[..i])
    {
      assert curve[..i + 1][..i] == curve[..i];
      peak := Max(peak, curve[i]);
      if peak > 0.0 {
        worst := Max(worst, (peak - curve[i]) / peak * 100.0);
      }
    }
    assert curve[..|curve|] == curve;
  }

  method Streak(tradePnls: seq<real>) returns (worst: nat)
    ensures worst == WorstRun(tradePnls)
  {
    worst := 0;
    var curr := 0;
    for i := 0 to |tradePnls|
      invariant curr == CurrentRun(tradePnls[..i]) && worst == WorstRun(tradePnls[..i])
    {
      assert tradePnls[..i + 1][..i] == tradePnls[..i];
      if tradePnls[i] < 0.0 {
        curr := curr + 1;
        worst := MaxNat(worst, curr);
      } else {
        curr := 0;
      }
    }
    assert tradePnls[..|tradePnls|] == tradePnls;
  }

  // ---- The simulation ------------------------------------------------------------------------------------------

  function InitialState(startEq: real): SimState {
    SimState(startEq, startEq, 0, 0, [], 0, 0, [startEq], 0, LockEvents(0, 0, 0), map[])
  }

  function DayKey(ts: int): int {
    ts / DAY_MS
  }

  function DayPnl(s: SimState, day: int): real {
    if day in s.dailyPnl then s.dailyPnl[day] else 0.0
  }

  function RiskPct(riskFn: RiskFn, s: SimState, t: Trade): (r: real)
    ensures r >= 0.05 && r >= riskFn(t, s)
  {
    Max(0.05, riskFn(t, s))
  }

  function Pnl(equity: real, riskPct: real, rMultiple: real): real {
    equity * (riskPct / 100.0) * rMultiple
  }

  function PctOf(equity: real, pct: real): real {
    equity * pct / 100.0
  }

  function Book(s: SimState, t: Trade, pnl: real): SimState {
    var equity, day := s.equity + pnl, DayKey(t.exitTime);
    var streak := if pnl >= 0.0 then 0 else s.lossStreak + 1;
    s.(equity := equity, peak := Max(s.peak, equity), tradePnls := s.tradePnls + [pnl], curve := s.curve + [equity],
       dailyPnl := s.dailyPnl[day := DayPnl(s, day) + pnl],
       wins := s.wins + if pnl >= 0.0 then 1 else 0, losses := s.losses + if pnl >= 0.0 then 0 else 1,
       lossStreak := streak, maxLossStreak := if pnl >= 0.0 then s.maxLossStreak else MaxNat(s.maxLossStreak, streak))
  }

  predicate DailyLocked(g: Governance, s: SimState, t: Trade) {
    DayPnl(s, DayKey(t.exitTime)) <= -PctOf(s.equity, g.dailyLossLockPct)
  }

  predicate DrawdownLocked(g: Governance, s: SimState) {
    DropPct(s.peak, s.equity) >= g.trailingDdLockPct
  }

  function Step(governance: Option<Governance>, riskFn: RiskFn, s: SimState, t: Trade): SimState {
    if t.entryTime < s.lockUntil then s
    else if governance.Some? && DailyLocked(governance.value, s, t) then
      s.(lockUntil := t.exitTime + governance.value.lockMs, events := s.events.(dailyLoss := s.events.dailyLoss + 1))
    else if governance.Some? && DrawdownLocked(governance.value, s) then
      s.(lockUntil := t.exitTime + governance.value.lockMs, events := s.events.(trailingDrawdown := s.events.trailingDrawdown + 1))
    else if governance.Some? && s.lossStreak >= governance.value.maxConsecutiveLosses then
      s.(lockUntil := t.exitTime + governance.value.lockMs, lossStreak := 0,
         events := s.events.(maxConsecutiveLoss := s.events.maxConsecutiveLoss + 1))
    else Book(s, t, Pnl(s.equity, RiskPct(riskFn, s, t), t.rMultiple))
  }

  function Play(governance: Option<Governance>, riskFn: RiskFn, s: SimState, trades: seq<Trade>): SimState
    decreases |trades|
  {
    if trades == [] then s else Play(governance, riskFn, Step(governance, riskFn, s, trades[0]), trades[1..])
  }

  function Final(governance: Option<Governance>, riskFn: RiskFn, startEq: real, trades: seq<Trade>): SimState {
    Play(governance, riskFn, InitialState(startEq), trades)
  }

  predicate Survives(startEq: real, s: SimState) {
    s.equity > startEq * 0.85
  }

  /** The bookkeeping of a trade that is taken: the second half of the loop body. */
  method BookTrade(before: SimState, dKey: int, dayPnl: real, pnl: real, ghost t: Trade) returns (state: SimState)
    requires dKey == DayKey(t.exitTime) && dayPnl == DayPnl(before, dKey)
    ensures state == Book(before, t, pnl)
  {
    state := before.(equity := before.equity + pnl);
    state := state.(
      tradePnls := state.tradePnls + [pnl], curve := state.curve + [state.equity], dailyPnl := state.dailyPnl[dKey := dayPnl + pnl]);
    if pnl >= 0.0 {
      state := state.(wins := state.wins + 1, lossStreak := 0);
    } else {
      state := state.(losses := state.losses + 1, lossStreak := state.lossStreak + 1);
      state := state.(maxLossStreak := MaxNat(state.maxLossStreak, state.lossStreak));
    }
    state := state.(peak := Max(state.peak, state.equity));
  }

  method Simulate(trades: seq<Trade>, startEq: real, riskFn: RiskFn, governance: Option<Governance>) returns (report: Report)
    ensures var s := Final(governance, riskFn, startEq, trades);
            report == Report(
              |s.tradePnls|, s.wins, Sum(s.tradePnls), startEq, s.equity, WorstDrop(s.curve), s.maxLossStreak,
              if governance.Some? then Some(s.events) else None,
              if governance.Some? then Some(Survives(startEq, s)) else None)
  {
    var state := InitialState(startEq);
    assert trades[0..] == trades;
    for i := 0 to |trades|
      invariant Play(governance, riskFn, state, trades[i..]) == Final(governance, riskFn, startEq, trades)
    {
      var t := trades[i];
      assert trades[i..][1..] == trades[i + 1..];
      if t.entryTime < state.lockUntil { continue; }
      var ddPct := if state.peak > 0.0 then (state.peak - state.equity) / state.peak * 100.0 else 0.0;
      var dKey := DayKey(t.exitTime);
      var dayPnl := if dKey in state.dailyPnl then state.dailyPnl[dKey] else 0.0;
      if governance.Some? {
        var g := governance.value;
        if dayPnl <= -PctOf(state.equity, g.dailyLossLockPct) {
          state := state.(
            lockUntil := t.exitTime + g.lockMs, events := state.events.(dailyLoss := state.events.dailyLoss + 1));
          continue;
        }
        if ddPct >= g.trailingDdLockPct {
          state := state.(
            lockUntil := t.exitTime + g.lockMs, events := state.events.(trailingDrawdown := state.events.trailingDrawdown + 1));
          continue;
        }
        if state.lossStreak >= g.maxConsecutiveLosses {
          state := state.(
            lockUntil := t.exitTime + g.lockMs, events := state.events.(maxConsecutiveLoss := state.events.maxConsecutiveLoss + 1));
          state := state.(lossStreak := 0);
          continue;
        }
      }
      var riskPct := Max(0.05, riskFn(t, state));
      var pnl := Pnl(state.equity, riskPct, t.rMultiple);
      state := BookTrade(state, dKey, dayPnl, pnl, t);
    }
    var worst := MaxDD(state.curve);
    report := Report(
      |state.tradePnls|, state.wins, Sum(state.tradePnls), startEq, state.equity, worst, state.maxLossStreak,
      if governance.Some? then Some(state.events) else None,
      if governance.Some? then Some(state.equity > startEq * 0.85) else None);
  }
}
