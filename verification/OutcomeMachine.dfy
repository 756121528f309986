/**
 The life of a published signal, one price at a time (apps/worker/src/index.ts, outcome loop).
 R is profit in units of the initial risk.
 */
module OutcomeMachine {
  import opened Common

  datatype Side = Long | Short

  datatype Status = OPEN | TP1_HIT | TP2_HIT | STOP_HIT | EXPIRED | PARTIAL_WIN | BE_AFTER_TP1

  datatype ProtectMode = BreakEven | OffsetR

  /** The schema admits partial fractions in [0, 1] and non-negative protection offsets. */
  datatype OutcomeConfig = OutcomeConfig(
    partialEnabled: bool, partialPct: real, protectMode: ProtectMode, protectOffsetR: real, breakevenBufferR: real,
    maxAgeSeconds: int)
  {
    predicate Valid() {
      0.0 <= partialPct <= 1.0 && protectOffsetR >= 0.0 && breakevenBufferR >= 0.0
    }

    function Fraction(): real {
      if partialEnabled then partialPct else 0.0
    }

    function ConfiguredProtectR(): real {
      if protectMode.OffsetR? then protectOffsetR + breakevenBufferR else breakevenBufferR
    }
  }

  datatype Outcome = Outcome(
    symbol: string, side: Side, entry: real, stop: real, tp1: real, tp2: real, createdAt: int,
    status: Status, mfe: real, mae: real, durationSeconds: int,
    resolvedAt: Option<int>, tp1HitAt: Option<int>, tp2HitAt: Option<int>,
    protectedStopArmedAt: Option<int>, protectedStopPrice: Option<real>,
    partialRealizedR: real, realizedR: Option<real>, finalResolvedR: Option<real>)

  predicate Active(o: Outcome) {
    o.status.OPEN? || o.status.TP1_HIT?
  }

  /** The part of a gain that a fraction of the position earns. */
  function Portion(fraction: real, r: real): real {
    fraction * r
  }

  // ---- The pure helpers ----------------------------------------------------------------------------------------

  function Favorable(o: Outcome, price: real): real {
    if o.side.Short? then o.entry - price else price - o.entry
  }

  function Adverse(o: Outcome, price: real): real {
    if o.side.Short? then price - o.entry else o.entry - price
  }

  function OutcomeR(status: Status, entry: real, stop: real, tp1: real, tp2: real): real {
    var risk := Abs(entry - stop);
    if risk <= 0.0 then 0.0
    else match status
      case TP2_HIT => Abs(tp2 - entry) / risk
      case STOP_HIT => -1.0
      case TP1_HIT => Abs(tp1 - entry) / risk
      case _ => 0.0
  }

  function RiskDistance(side: Side, entry: real, stop: real): real {
    if side.Short? then stop - entry else entry - stop
  }

  function PriceForR(side: Side, entry: real, riskDistance: real, r: real): real {
    if side.Short? then entry - riskDistance * r else entry + riskDistance * r
  }

  function ProtectedStop(cfg: OutcomeConfig, o: Outcome): real {
    var risk := Abs(RiskDistance(o.side, o.entry, o.stop));
    if risk > 0.0 then PriceForR(o.side, o.entry, risk, cfg.ConfiguredProtectR()) else o.entry
  }

  // ---- One tick ------------------------------------------------------------------------------------------------

  function StopLevel(cfg: OutcomeConfig, o: Outcome): real {
    if !o.status.TP1_HIT? then o.stop else o.protectedStopPrice.GetOr(ProtectedStop(cfg, o))
  }

  predicate StopHit(cfg: OutcomeConfig, o: Outcome, price: real) {
    if o.side.Short? then price >= StopLevel(cfg, o) else price <= StopLevel(cfg, o)
  }

  predicate Reached(o: Outcome, price: real, target: real) {
    if o.side.Short? then price <= target else price >= target
  }

  function Tp1R(o: Outcome): real {
    OutcomeR(TP1_HIT, o.entry, o.stop, o.tp1, o.tp2)
  }

  function Tp2R(o: Outcome): real {
    OutcomeR(TP2_HIT, o.entry, o.stop, o.tp1, o.tp2)
  }

  /** What the stop in force is worth once the first target was taken. */
  function StopR(cfg: OutcomeConfig, o: Outcome): real {
    if Abs(RiskDistance(o.side, o.entry, o.stop)) > 0.0
    then Max(OutcomeR(TP1_HIT, o.entry, o.stop, StopLevel(cfg, o), o.tp2), 0.0) else 0.0
  }

  function AgeSeconds(o: Outcome, now: int): int {
    (now - o.createdAt) / 1000
  }

  function Observe(o: Outcome, price: real, now: int): Outcome {
    o.(mfe := Max(o.mfe, Favorable(o, price)), mae := Max(o.mae, Adverse(o, price)), durationSeconds := AgeSeconds(o, now))
  }

  function Resolve(o: Outcome, status: Status, r: real, now: int): Outcome {
    o.(status := status, finalResolvedR := Some(r), realizedR := Some(r),
       resolvedAt := if o.resolvedAt.Some? then o.resolvedAt else Some(now))
  }

  /** The stop, then the second target, then the first. */
  function React(cfg: OutcomeConfig, o: Outcome, price: real, now: int): Outcome {
    var rest := 1.0 - cfg.Fraction();
    if StopHit(cfg, o, price) then
      if o.status.TP1_HIT? then
        Resolve(o, if StopR(cfg, o) <= 0.000001 then BE_AFTER_TP1 else PARTIAL_WIN, o.partialRealizedR + Portion(rest, StopR(cfg, o)), now)
      else Resolve(o, STOP_HIT, -1.0, now)
    else if Reached(o, price, o.tp2) then
      Resolve(o.(tp2HitAt := if o.tp2HitAt.Some? then o.tp2HitAt else Some(now)), TP2_HIT, o.partialRealizedR + Portion(rest, Tp2R(o)), now)
    else if Reached(o, price, o.tp1) && o.status.OPEN? then
      o.(status := TP1_HIT, tp1HitAt := if o.tp1HitAt.Some? then o.tp1HitAt else Some(now),
         partialRealizedR := Portion(cfg.Fraction(), Tp1R(o)),
         protectedStopArmedAt := if o.protectedStopArmedAt.Some? then o.protectedStopArmedAt else Some(now),
         protectedStopPrice := Some(ProtectedStop(cfg, o)))
    else o
  }

  function Expire(cfg: OutcomeConfig, o: Outcome, now: int): Outcome {
    if o.resolvedAt.Some? || AgeSeconds(o, now) <= cfg.maxAgeSeconds then o
    else if o.status.TP1_HIT? then Resolve(o, if o.partialRealizedR > 0.0 then PARTIAL_WIN else EXPIRED, o.partialRealizedR, now)
    else Resolve(o, EXPIRED, 0.0, now)
  }

  function Tick(cfg: OutcomeConfig, o: Outcome, price: real, now: int): Outcome {
    Expire(cfg, React(cfg, Observe(o, price, now), price, now), now)
  }

  /** The first half of the loop body: locals follow the price through the stop, the second and the first target. */
  method ReactToPrice(cfg: OutcomeConfig, outcome: Outcome, latestPrice: real, now: int) returns (updated: Outcome)
    ensures updated == React(cfg, outcome, latestPrice, now)
  {
    var nextStatus, resolvedAt := outcome.status, outcome.resolvedAt;
    var tp1HitAt, tp2HitAt := outcome.tp1HitAt, outcome.tp2HitAt;
    var armedAt, protectedStopPrice := outcome.protectedStopArmedAt, outcome.protectedStopPrice;
    var partialRealizedR, finalResolvedR := outcome.partialRealizedR, outcome.finalResolvedR;
    var realizedR := outcome.realizedR;
    var isShort := outcome.side.Short?;
    var riskDistance := Abs(RiskDistance(outcome.side, outcome.entry, outcome.stop));
    var defaultProtectedStop := ProtectedStop(cfg, outcome);
    var effectiveStop := outcome.stop;
    if nextStatus.TP1_HIT? {
      effectiveStop := if protectedStopPrice.Some? then protectedStopPrice.value else defaultProtectedStop;
    }
    var stopHit := if isShort then latestPrice >= effectiveStop else latestPrice <= effectiveStop;
    var tp1Hit := if isShort then latestPrice <= outcome.tp1 else latestPrice >= outcome.tp1;
    var tp2Hit := if isShort then latestPrice <= outcome.tp2 else latestPrice >= outcome.tp2;
    var partialPct := if cfg.partialEnabled then cfg.partialPct else 0.0;
    if stopHit {
      if nextStatus.TP1_HIT? {
        var protectR := 0.0;
        if riskDistance > 0.0 {
          protectR := Max(OutcomeR(TP1_HIT, outcome.entry, outcome.stop, effectiveStop, outcome.tp2), 0.0);
        }
        finalResolvedR := Some(partialRealizedR + Portion(1.0 - partialPct, protectR));
        nextStatus := if protectR <= 0.000001 then BE_AFTER_TP1 else PARTIAL_WIN;
      } else {
        nextStatus := STOP_HIT;
        finalResolvedR := Some(-1.0);
      }
      realizedR := finalResolvedR;
      resolvedAt := if resolvedAt.Some? then resolvedAt else Some(now);
    } else if tp2Hit {
      nextStatus := TP2_HIT;
      tp2HitAt := if tp2HitAt.Some? then tp2HitAt else Some(now);
      finalResolvedR := Some(partialRealizedR + Portion(1.0 - partialPct, Tp2R(outcome)));
      realizedR := finalResolvedR;
      resolvedAt := if resolvedAt.Some? then resolvedAt else Some(now);
    } else if tp1Hit && nextStatus.OPEN? {
      nextStatus := TP1_HIT;
      tp1HitAt := if tp1HitAt.Some? then tp1HitAt else Some(now);
      partialRealizedR := Portion(partialPct, Tp1R(outcome));
      armedAt := if armedAt.Some? then armedAt else Some(now);
      protectedStopPrice := Some(defaultProtectedStop);
    }
    updated := outcome.(
      status := nextStatus, resolvedAt := resolvedAt, tp1HitAt := tp1HitAt, tp2HitAt := tp2HitAt,
      protectedStopArmedAt := armedAt, protectedStopPrice := protectedStopPrice,
      partialRealizedR := partialRealizedR, realizedR := realizedR, finalResolvedR := finalResolvedR);
  }

  /** The loop body: excursions and age, the reaction to the price, then expiry of what is still unresolved. */
  method ProcessTick(cfg: OutcomeConfig, outcome: Outcome, latestPrice: real, now: int) returns (updated: Outcome)
    ensures updated == Tick(cfg, outcome, latestPrice, now)
  {
    var mfe := Max(outcome.mfe, Favorable(outcome, latestPrice));
    var mae := Max(outcome.mae, Adverse(outcome, latestPrice));
    var ageSeconds := (now - outcome.createdAt) / 1000;
    updated := ReactToPrice(cfg, outcome.(mfe := mfe, mae := mae, durationSeconds := ageSeconds), latestPrice, now);
    if updated.resolvedAt.None? && ageSeconds > cfg.maxAgeSeconds {
      var nextStatus, finalResolvedR := EXPIRED, 0.0;
      if updated.status.TP1_HIT? {
        nextStatus := if updated.partialRealizedR > 0.0 then PARTIAL_WIN else EXPIRED;
        finalResolvedR := updated.partialRealizedR;
      }
      updated := updated.(
        status := nextStatus, finalResolvedR := Some(finalResolvedR), realizedR := Some(finalResolvedR), resolvedAt := Some(now));
    }
  }
}
