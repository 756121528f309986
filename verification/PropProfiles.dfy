/** The three prop-account profiles run by scripts/validate-breakout-capital.ts. */
module PropProfiles {
  import opened Common
  import opened Capital
  import opened CapitalProperties

  datatype Profile = Baseline | PreservationGovernanceSafe | TighterDefensive

  const START: real := 25000.0
  const A_PLUS_SCORE: real := 70.0
  const HOUR_MS: int := 3600000

  function GovernanceOf(p: Profile): Governance {
    match p
    case Baseline => Governance(1.0, 6.0, 4, 24 * HOUR_MS)
    case PreservationGovernanceSafe => Governance(0.8, 4.5, 3, 36 * HOUR_MS)
    case TighterDefensive => Governance(0.6, 3.5, 2, 48 * HOUR_MS)
  }

  function RiskOf(p: Profile, t: Trade, s: SimState): real {
    var dd, aPlus := DropPct(s.peak, s.equity), t.score >= A_PLUS_SCORE;
    match p
    case Baseline => if aPlus then 0.4 else 0.25
    case PreservationGovernanceSafe =>
      if dd >= 3.0 || s.lossStreak >= 2 then (if aPlus then 0.22 else 0.15) else if aPlus then 0.35 else 0.22
    case TighterDefensive =>
      if dd >= 2.0 || s.lossStreak >= 2 then 0.1 else if aPlus then 0.25 else 0.15
  }

  function RiskFnOf(p: Profile): RiskFn {
    (t: Trade, s: SimState) => RiskOf(p, t, s)
  }

  /** The most the profile risks on one trade, and what it risks at most from its own drawdown edge on. */
  function MaxRisk(p: Profile): real {
    match p
    case Baseline => 0.4
    case PreservationGovernanceSafe => 0.35
    case TighterDefensive => 0.25
  }

  function LateRisk(p: Profile): real {
    match p
    case Baseline => 0.4
    case PreservationGovernanceSafe => 0.22
    case TighterDefensive => 0.1
  }

  /** The drawdown at which the profile lowers its risk; the baseline is locked before it would. */
  function EdgePct(p: Profile): real {
    match p
    case Baseline => 6.0
    case PreservationGovernanceSafe => 3.0
    case TighterDefensive => 2.0
  }

  function FinalOf(p: Profile, trades: seq<Trade>): SimState {
    Final(Some(GovernanceOf(p)), RiskFnOf(p), START, trades)
  }

  ghost predicate NoLossBeyond(trades: seq<Trade>, m: real) {
    forall i | 0 <= i < |trades| :: trades[i].rMultiple >= -m
  }

  /** What a loss of `m` times the highest risk leaves of the peak, taken just before the edge. */
  function EdgeKeep(p: Profile, m: real): real {
    Keep(EdgePct(p), MaxRisk(p) * m)
  }

  /** What it leaves at the lower risk, taken just before the lock. */
  function LateKeep(p: Profile, m: real): real {
    Keep(GovernanceOf(p).trailingDdLockPct, LateRisk(p) * m)
  }

  function KeepOf(p: Profile, m: real): real {
    Min(EdgeKeep(p, m), LateKeep(p, m))
  }

  lemma LossIsCapped(risk: real, cap: real, rMultiple: real, m: real)
    requires 0.0 < risk <= cap && m >= 0.0 && rMultiple >= -m
    ensures LossPct(risk, rMultiple) <= cap * m
  {
    if rMultiple <= 0.0 {
      ScaleGrowsWeakly(cap, risk, -rMultiple);
      ScaleGrowsWeakly(m, -rMultiple, cap);
    } else {
      ScaleGrowsWeakly(0.0, -rMultiple, risk);
      ScaleGrowsWeakly(m, 0.0, cap);
    }
  }

  lemma {:induction false} EarlyTradeIsSafe(p: Profile, s: SimState, t: Trade, m: real)
    requires m >= 0.0 && t.rMultiple >= -m && MaxRisk(p) * m < 100.0
    requires s.peak > 0.0 && DropPct(s.peak, s.equity) < EdgePct(p)
    ensures s.equity + Pnl(s.equity, RiskPct(RiskFnOf(p), s, t), t.rMultiple) > Scale(s.peak, EdgeKeep(p, m))
  {
    var risk := RiskPct(RiskFnOf(p), s, t);
    LossIsCapped(risk, MaxRisk(p), t.rMultiple, m);
    TradeStaysAboveFloor(s, EdgePct(p), risk, t.rMultiple, MaxRisk(p) * m);
  }

  lemma {:induction false} LateTradeIsSafe(p: Profile, s: SimState, t: Trade, m: real)
    requires m >= 0.0 && t.rMultiple >= -m && MaxRisk(p) * m < 100.0
    requires s.peak > 0.0 && EdgePct(p) <= DropPct(s.peak, s.equity) < GovernanceOf(p).trailingDdLockPct
    ensures s.equity + Pnl(s.equity, RiskPct(RiskFnOf(p), s, t), t.rMultiple) > Scale(s.peak, LateKeep(p, m))
  {
    var risk := RiskPct(RiskFnOf(p), s, t);
    LossIsCapped(risk, LateRisk(p), t.rMultiple, m);
    ScaleGrowsWeakly(MaxRisk(p), LateRisk(p), m);
    TradeStaysAboveFloor(s, GovernanceOf(p).trailingDdLockPct, risk, t.rMultiple, LateRisk(p) * m);
  }

  lemma {:induction false} ProfileTradeIsSafe(p: Profile, s: SimState, t: Trade, m: real)
    requires m >= 0.0 && t.rMultiple >= -m && MaxRisk(p) * m < 100.0
    ensures TradeSafe(GovernanceOf(p), RiskFnOf(p), s, t, KeepOf(p, m))
  {
    if s.peak > 0.0 && !DrawdownLocked(GovernanceOf(p), s) {
      if DropPct(s.peak, s.equity) < EdgePct(p) {
        EarlyTradeIsSafe(p, s, t, m);
        ScaleGrowsWeakly(EdgeKeep(p, m), KeepOf(p, m), s.peak);
      } else {
        LateTradeIsSafe(p, s, t, m);
        ScaleGrowsWeakly(LateKeep(p, m), KeepOf(p, m), s.peak);
      }
    }
  }

  /** The loss before the edge decides: if it leaves 85 % of the peak, so does the later one at the lower risk. */
  lemma EdgeDecides(p: Profile, m: real)
    requires m >= 0.0
    ensures EdgeKeep(p, m) >= 0.85 <==> KeepOf(p, m) >= 0.85
    ensures EdgeKeep(p, m) >= 0.85 ==> MaxRisk(p) * m < 100.0
    ensures KeepOf(p, m) < 1.0
  {
  }

  lemma FloorIsSurvival(startEq: real, s: SimState, keep: real)
    requires s.peak >= startEq > 0.0 && keep >= 0.85 && s.equity > Scale(s.peak, keep)
    ensures Survives(startEq, s)
  {
    ScaleGrowsWeakly(s.peak, startEq, keep);
    ScaleGrowsWeakly(keep, 0.85, startEq);
  }

  /**
   If no trade loses more than `m` times its risk, and the deepest such loss leaves 85 % of the peak,
   the account survives every list of trades, and its reported drawdown is below the same figure.
   */
  lemma {:induction false} ProfileSurvives(p: Profile, trades: seq<Trade>, m: real)
    requires m >= 0.0 && NoLossBeyond(trades, m) && KeepOf(p, m) >= 0.85
    ensures Survives(START, FinalOf(p, trades))
    ensures WorstDrop(FinalOf(p, trades).curve) < 100.0 * (1.0 - KeepOf(p, m))
  {
    EdgeDecides(p, m);
    forall i, s | 0 <= i < |trades|
      ensures TradeSafe(GovernanceOf(p), RiskFnOf(p), s, trades[i], KeepOf(p, m))
    {
      ProfileTradeIsSafe(p, s, trades[i], m);
    }
    SafeTradesKeepFloor(GovernanceOf(p), RiskFnOf(p), START, trades, KeepOf(p, m));
    EquityIsConserved(Some(GovernanceOf(p)), RiskFnOf(p), START, trades);
    FloorIsSurvival(START, FinalOf(p, trades), KeepOf(p, m));
  }

  /** All three profiles survive every list of trades that lose at most their risk, with room to spare: up to 20 times it. */
  lemma {:induction false} AllProfilesSurvive(p: Profile, trades: seq<Trade>)
    requires NoLossBeyond(trades, 20.0)
    ensures Survives(START, FinalOf(p, trades))
  {
    EdgeDecides(p, 20.0);
    ProfileSurvives(p, trades, 20.0);
  }

  // ---- The exact limit of each profile --------------------------------------------------------------------------

  /** First a loss that stops just short of the edge, then the largest loss, on another day. */
  function WorstCase(p: Profile, d: real, m: real): seq<Trade> {
    [Trade(A_PLUS_SCORE, -(100.0 * d / MaxRisk(p)), 0, 0), Trade(A_PLUS_SCORE, -m, 1, DAY_MS)]
  }

  lemma {:induction false} FirstLossTaken(p: Profile, d: real, m: real)
    requires 0.0 <= d < EdgePct(p) / 100.0
    ensures Step(Some(GovernanceOf(p)), RiskFnOf(p), InitialState(START), WorstCase(p, d, m)[0])
         == Book(InitialState(START), WorstCase(p, d, m)[0], -START * d)
  {
    var s0 := InitialState(START);
    assert DropPct(s0.peak, s0.equity) == 0.0;
    assert RiskPct(RiskFnOf(p), s0, WorstCase(p, d, m)[0]) == MaxRisk(p);
    assert Pnl(START, MaxRisk(p), -(100.0 * d / MaxRisk(p))) == -START * d;
    assert PctOf(START, GovernanceOf(p).dailyLossLockPct) > 0.0;
  }

  lemma {:induction false} SecondLossTaken(p: Profile, s: SimState, d: real, m: real)
    requires 0.0 <= d < EdgePct(p) / 100.0 && s == Book(InitialState(START), WorstCase(p, d, m)[0], -START * d)
    ensures Step(Some(GovernanceOf(p)), RiskFnOf(p), s, WorstCase(p, d, m)[1])
         == Book(s, WorstCase(p, d, m)[1], Pnl(s.equity, MaxRisk(p), -m))
  {
    var t := WorstCase(p, d, m)[1];
    assert DropPct(s.peak, s.equity) == 100.0 * d < EdgePct(p) <= GovernanceOf(p).trailingDdLockPct;
    assert s.lossStreak <= 1 && DayPnl(s, DayKey(t.exitTime)) == 0.0;
    assert PctOf(s.equity, GovernanceOf(p).dailyLossLockPct) > 0.0;
    assert RiskPct(RiskFnOf(p), s, t) == MaxRisk(p);
  }

  lemma {:induction false} PlayCons(g: Option<Governance>, riskFn: RiskFn, s: SimState, t: Trade, rest: seq<Trade>)
    ensures Play(g, riskFn, s, [t] + rest) == Play(g, riskFn, Step(g, riskFn, s, t), rest)
  {
    assert ([t] + rest)[1..] == rest;
  }

  lemma LossScales(equity: real, risk: real, m: real)
    ensures equity + Pnl(equity, risk, -m) == Scale(equity, Left(risk * m))
  {
  }

  lemma {:induction false} PlayTwo(g: Option<Governance>, riskFn: RiskFn, s: SimState, a: Trade, b: Trade)
    ensures Play(g, riskFn, s, [a, b]) == Step(g, riskFn, Step(g, riskFn, s, a), b)
  {
    PlayCons(g, riskFn, s, a, [b]);
    PlayCons(g, riskFn, Step(g, riskFn, s, a), b, []);
    assert [a] + [b] == [a, b] && [b] + [] == [b];
  }

  lemma {:induction false} WorstCasePlayed(p: Profile, d: real, m: real, s1: SimState)
    requires 0.0 <= d < EdgePct(p) / 100.0 && s1 == Book(InitialState(START), WorstCase(p, d, m)[0], -START * d)
    ensures FinalOf(p, WorstCase(p, d, m)) == Book(s1, WorstCase(p, d, m)[1], Pnl(s1.equity, MaxRisk(p), -m))
  {
    FirstLossTaken(p, d, m);
    SecondLossTaken(p, s1, d, m);
    PlayTwo(Some(GovernanceOf(p)), RiskFnOf(p), InitialState(START), WorstCase(p, d, m)[0], WorstCase(p, d, m)[1]);
  }

  lemma BookedEquity(s: SimState, t: Trade, pnl: real)
    ensures Book(s, t, pnl).equity == s.equity + pnl
  {
  }

  /** The equity between and after the two losses. */
  lemma {:induction false} WorstCaseEquity(p: Profile, d: real, m: real) returns (between: real, after: real)
    requires 0.0 <= d < EdgePct(p) / 100.0
    ensures between == START * (1.0 - d) && after == between + Pnl(between, MaxRisk(p), -m)
    ensures FinalOf(p, WorstCase(p, d, m)).equity == after
  {
    var s1 := Book(InitialState(START), WorstCase(p, d, m)[0], -START * d);
    BookedEquity(InitialState(START), WorstCase(p, d, m)[0], -START * d);
    WorstCasePlayed(p, d, m, s1);
    BookedEquity(s1, WorstCase(p, d, m)[1], Pnl(s1.equity, MaxRisk(p), -m));
    between, after := s1.equity, s1.equity + Pnl(s1.equity, MaxRisk(p), -m);
  }

  lemma BreaksFloor(x: real, y: real, between: real, after: real)
    requires between == START * x && after == Scale(between, y) && Scale(x, y) <= 0.85
    ensures after <= START * 0.85
  {
    ScaleAssociates(START, x, y);
    ScaleGrowsWeakly(0.85, Scale(x, y), START);
  }

  /** How far the first loss must go so that the second one breaks the floor. */
  lemma FirstLossFor(p: Profile, m: real) returns (d: real)
    requires m >= 0.0 && EdgeKeep(p, m) < 0.85
    ensures 0.0 <= d < EdgePct(p) / 100.0 && Scale(1.0 - d, Left(MaxRisk(p) * m)) <= 0.85
    ensures NoLossBeyond(WorstCase(p, d, m), m)
  {
    var q := Left(MaxRisk(p) * m);
    assert EdgeKeep(p, m) == Scale(Left(EdgePct(p)), q);
    d := if q <= 0.85 then 0.0 else 1.0 - 0.85 / q;
    if q > 0.85 {
      assert Scale(0.85 / q, q) == 0.85;
      ScaleCancels(Left(EdgePct(p)), 0.85 / q, q);
      ScaleCancels(0.85 / q, 1.0, q);
    }
  }

  lemma {:induction false} ProfileCanFail(p: Profile, m: real) returns (trades: seq<Trade>)
    requires m >= 0.0 && EdgeKeep(p, m) < 0.85
    ensures NoLossBeyond(trades, m) && !Survives(START, FinalOf(p, trades))
  {
    var d := FirstLossFor(p, m);
    trades := WorstCase(p, d, m);
    var between, after := WorstCaseEquity(p, d, m);
    LossScales(between, MaxRisk(p), m);
    BreaksFloor(1.0 - d, Left(MaxRisk(p) * m), between, after);
  }

  /**
   Exactly how bad single losses may be: a profile survives all lists of trades with losses up to `m` times the risk iff
   0.94 (1 - 0.004 m), 0.97 (1 - 0.0035 m) or 0.98 (1 - 0.0025 m), in the order of the profiles, is at least 0.85.
   */
  lemma {:induction false} ProfileSurvivesIff(p: Profile, m: real)
    requires m >= 0.0
    ensures (forall trades | NoLossBeyond(trades, m) :: Survives(START, FinalOf(p, trades)))
       <==> (match p
             case Baseline => 0.94 * (1.0 - 0.004 * m)
             case PreservationGovernanceSafe => 0.97 * (1.0 - 0.0035 * m)
             case TighterDefensive => 0.98 * (1.0 - 0.0025 * m)) >= 0.85
  {
    EdgeDecides(p, m);
    if EdgeKeep(p, m) >= 0.85 {
      forall trades | NoLossBeyond(trades, m)
        ensures Survives(START, FinalOf(p, trades))
      {
        ProfileSurvives(p, trades, m);
      }
    } else {
      var trades := ProfileCanFail(p, m);
    }
  }

  // ---- The locks of each profile ---------------------------------------------------------------------------------

  /** The locks in the profiles' own numbers: daily loss and drawdown in percent, losses in a row, and the lock in hours. */
  predicate LocksAt(dailyPct: real, drawdownPct: real, losses: nat, s: SimState, t: Trade) {
    100.0 * Today(s, t) <= -(s.equity * dailyPct)
    || (s.peak > 0.0 && 100.0 * (s.peak - s.equity) >= drawdownPct * s.peak)
    || s.lossStreak >= losses
  }

  /** A profile turns a trade away iff one of its three limits is reached, and then for one, one and a half or two days. */
  lemma {:induction false} ProfileLocksIff(p: Profile, s: SimState, t: Trade)
    requires t.entryTime >= s.lockUntil
    ensures var locked := (match p
              case Baseline => LocksAt(1.0, 6.0, 4, s, t)
              case PreservationGovernanceSafe => LocksAt(0.8, 4.5, 3, s, t)
              case TighterDefensive => LocksAt(0.6, 3.5, 2, s, t));
            var hours := (match p case Baseline => 24 case PreservationGovernanceSafe => 36 case TighterDefensive => 48);
            var r := Step(Some(GovernanceOf(p)), RiskFnOf(p), s, t);
            if locked then r.lockUntil == t.exitTime + hours * 60 * 60 * 1000 && r.tradePnls == s.tradePnls && r.equity == s.equity
            else r.tradePnls == s.tradePnls + [r.equity - s.equity] && r.lockUntil == s.lockUntil
  {
    var g := GovernanceOf(p);
    if DayIsOver(g, s, t) || TooDeep(g, s) || TooMany(g, s) {
      LockedTrade(g, RiskFnOf(p), s, t);
    } else {
      var pnl := TradeIsTaken(Some(g), RiskFnOf(p), s, t);
    }
  }

  // ---- A streak that is reported too short ----------------------------------------------------------------------

  function LosingTrade(entry: int): Trade {
    Trade(A_PLUS_SCORE, -1.0, entry, entry)
  }

  /** Four losing signals, two days apart from each other: the third is locked out, and the count starts over. */
  function FourLosers(): seq<Trade> {
    [LosingTrade(0), LosingTrade(2 * DAY_MS), LosingTrade(4 * DAY_MS), LosingTrade(6 * DAY_MS)]
  }

  lemma {:induction false} LoserIsBooked(s: SimState, n: nat)
    requires s.lockUntil <= 2 * n * DAY_MS && s.lossStreak < 2 && 0.0 < s.peak * 0.98 < s.equity <= s.peak && 2 * n !in s.dailyPnl
    ensures Step(Some(GovernanceOf(TighterDefensive)), RiskFnOf(TighterDefensive), s, LosingTrade(2 * n * DAY_MS))
         == Book(s, LosingTrade(2 * n * DAY_MS), -s.equity * 0.0025)
  {
    assert DropPct(s.peak, s.equity) < 2.0 by {
      UnlockedIf(s.peak, s.equity);
    }
    assert DayKey(2 * n * DAY_MS) == 2 * n;
    assert PctOf(s.equity, 0.6) > 0.0;
    assert Pnl(s.equity, 0.25, -1.0) == -s.equity * 0.0025;
  }

  lemma UnlockedIf(peak: real, equity: real)
    requires 0.0 < peak * 0.98 < equity
    ensures DropPct(peak, equity) < 2.0
  {
    FlooredDrop(peak, equity, 0.98);
  }

  lemma {:induction false} ThirdLoserIsLockedOut(s: SimState)
    requires s.lockUntil == 0 && s.lossStreak == 2 && 0.0 < s.peak * 0.98 < s.equity <= s.peak && 4 !in s.dailyPnl
    ensures Step(Some(GovernanceOf(TighterDefensive)), RiskFnOf(TighterDefensive), s, LosingTrade(4 * DAY_MS))
         == s.(lockUntil := 6 * DAY_MS, lossStreak := 0, events := s.events.(maxConsecutiveLoss := s.events.maxConsecutiveLoss + 1))
  {
    UnlockedIf(s.peak, s.equity);
    assert DayKey(4 * DAY_MS) == 4;
    assert PctOf(s.equity, 0.6) > 0.0;
  }

  lemma {:induction false} PlayFour(g: Option<Governance>, riskFn: RiskFn, s: SimState, a: Trade, b: Trade, c: Trade, d: Trade)
    ensures Play(g, riskFn, s, [a, b, c, d])
         == Step(g, riskFn, Step(g, riskFn, Step(g, riskFn, Step(g, riskFn, s, a), b), c), d)
  {
    var s1 := Step(g, riskFn, s, a);
    var s2 := Step(g, riskFn, s1, b);
    var s3 := Step(g, riskFn, s2, c);
    PlayCons(g, riskFn, s3, d, []);
    PlayCons(g, riskFn, s2, c, [d]);
    PlayCons(g, riskFn, s1, b, [c, d]);
    PlayCons(g, riskFn, s, a, [b, c, d]);
    assert [c] + [d] == [c, d] && [b] + [c, d] == [b, c, d] && [a] + [b, c, d] == [a, b, c, d] && [d] + [] == [d];
  }

  function Lost(s: SimState, n: nat): SimState {
    Book(s, LosingTrade(2 * n * DAY_MS), -s.equity * 0.0025)
  }

  /** The state the four losing signals lead to. */
  lemma {:induction false} FourLosersPlayed() returns (s2: SimState, s4: SimState)
    ensures s2 == Lost(Lost(InitialState(START), 0), 1)
    ensures s4 == Lost(s2.(lockUntil := 6 * DAY_MS, lossStreak := 0, events := LockEvents(0, 0, 1)), 3)
    ensures FinalOf(TighterDefensive, FourLosers()) == s4
  {
    var g, risk, ts := Some(GovernanceOf(TighterDefensive)), RiskFnOf(TighterDefensive), FourLosers();
    var s0 := InitialState(START);
    LoserIsBooked(s0, 0);
    LoserIsBooked(Lost(s0, 0), 1);
    s2 := Lost(Lost(s0, 0), 1);
    ThirdLoserIsLockedOut(s2);
    var s3 := s2.(lockUntil := 6 * DAY_MS, lossStreak := 0, events := LockEvents(0, 0, 1));
    LoserIsBooked(s3, 3);
    s4 := Lost(s3, 3);
    PlayFour(g, risk, s0, ts[0], ts[1], ts[2], ts[3]);
  }

  /** Under the consecutive-loss lock the reported streak can fall short of the trades' real one. */
  lemma {:induction false} ReportedStreakCanFallShort()
    ensures FinalOf(TighterDefensive, FourLosers()).maxLossStreak == 2
    ensures WorstRun(FinalOf(TighterDefensive, FourLosers()).tradePnls) == 3
  {
    var s2, s4 := FourLosersPlayed();
    var p0, p1, p2 := s2.tradePnls[0], s2.tradePnls[1], s4.tradePnls[2];
    assert s2.tradePnls == [] + [p0] + [p1] && s4.tradePnls == s2.tradePnls + [p2];
    RunPush([], p0);
    RunPush([] + [p0], p1);
    RunPush(s2.tradePnls, p2);
    ReportedStreak(Some(GovernanceOf(TighterDefensive)), RiskFnOf(TighterDefensive), START, FourLosers());
  }
}
