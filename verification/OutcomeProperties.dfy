/** What holds of every outcome over every price path. */
module OutcomeProperties {
  import opened Common
  import opened OutcomeMachine

  /** A price and the instant it was read. */
  datatype Quote = Quote(price: real, at: int)

  /** A path: a resolved outcome is never picked up again. */
  function Follow(cfg: OutcomeConfig, o: Outcome, path: seq<Quote>): Outcome
    decreases |path|
  {
    if path == [] || !Active(o) then o
    else Follow(cfg, Tick(cfg, o, path[0].price, path[0].at), path[1..])
  }

  /** How many quotes of the path were processed. */
  function Processed(cfg: OutcomeConfig, o: Outcome, path: seq<Quote>): (n: nat)
    ensures n <= |path|
    decreases |path|
  {
    if path == [] || !Active(o) then 0
    else 1 + Processed(cfg, Tick(cfg, o, path[0].price, path[0].at), path[1..])
  }

  /** An outcome as the admission creates it. */
  predicate New(o: Outcome) {
    && o.status.OPEN? && o.mfe == 0.0 && o.mae == 0.0 && o.partialRealizedR == 0.0
    && o.resolvedAt.None? && o.tp1HitAt.None? && o.tp2HitAt.None? && o.protectedStopArmedAt.None? && o.protectedStopPrice.None?
    && o.realizedR.None? && o.finalResolvedR.None?
  }

  /** What the protected stop is worth: the configured protection, or nothing if the signal carried no risk. */
  function ProtectR(cfg: OutcomeConfig, o: Outcome): real {
    if o.entry == o.stop then 0.0 else cfg.ConfiguredProtectR()
  }

  /** The books: what each state says about the other fields. */
  ghost predicate Books(cfg: OutcomeConfig, o: Outcome) {
    var p := cfg.Fraction();
    && (!Active(o) <==> o.resolvedAt.Some?)
    && (o.resolvedAt.Some? <==> o.finalResolvedR.Some?)
    && o.realizedR == o.finalResolvedR
    && (o.tp2HitAt.Some? <==> o.status.TP2_HIT?)
    && (o.tp1HitAt.Some? <==> o.protectedStopPrice.Some?) && (o.tp1HitAt.Some? <==> o.protectedStopArmedAt.Some?)
    && (o.tp1HitAt.Some? ==> o.protectedStopPrice == Some(ProtectedStop(cfg, o)))
    && o.partialRealizedR == (if o.tp1HitAt.Some? then Portion(p, Tp1R(o)) else 0.0)
    && match o.status
       case OPEN => o.tp1HitAt.None?
       case TP1_HIT => o.tp1HitAt.Some?
       case STOP_HIT => o.tp1HitAt.None? && o.finalResolvedR == Some(-1.0)
       case TP2_HIT => o.finalResolvedR == Some(o.partialRealizedR + Portion(1.0 - p, Tp2R(o)))
       case EXPIRED => o.finalResolvedR == Some(0.0) && o.partialRealizedR == 0.0
       case BE_AFTER_TP1 => o.tp1HitAt.Some? && ProtectR(cfg, o) <= 0.000001
                            && o.finalResolvedR == Some(Portion(p, Tp1R(o)) + Portion(1.0 - p, ProtectR(cfg, o)))
       case PARTIAL_WIN => o.tp1HitAt.Some?
                           && (o.finalResolvedR == Some(Portion(p, Tp1R(o)) + Portion(1.0 - p, ProtectR(cfg, o)))
                               || (o.finalResolvedR == Some(Portion(p, Tp1R(o))) && Portion(p, Tp1R(o)) > 0.0))
  }

  lemma MulDiv(a: real, b: real)
    requires a > 0.0
    ensures (a * b) / a == b
  {
  }

  /** The stop in force after the first target is worth exactly the configured protection. */
  lemma ProtectedStopIsWorth(cfg: OutcomeConfig, o: Outcome)
    requires cfg.Valid() && o.status.TP1_HIT? && o.protectedStopPrice == Some(ProtectedStop(cfg, o))
    ensures StopR(cfg, o) == ProtectR(cfg, o)
  {
    var risk := Abs(RiskDistance(o.side, o.entry, o.stop));
    var r := cfg.ConfiguredProtectR();
    assert risk == Abs(o.entry - o.stop);
    if risk > 0.0 {
      assert risk * r >= 0.0;
      assert Abs(StopLevel(cfg, o) - o.entry) == risk * r;
      MulDiv(risk, r);
    }
  }

  lemma TargetsAreGains(o: Outcome)
    ensures Tp1R(o) >= 0.0 && Tp2R(o) >= 0.0
  {
    var risk := Abs(o.entry - o.stop);
    if risk > 0.0 {
      assert Abs(o.tp1 - o.entry) / risk >= 0.0;
      assert Abs(o.tp2 - o.entry) / risk >= 0.0;
    }
  }

  lemma ShareOfGain(p: real, r: real)
    requires p >= 0.0 && r >= 0.0
    ensures Portion(p, r) >= 0.0
  {
  }

  lemma ObserveKeepsBooks(cfg: OutcomeConfig, o: Outcome, price: real, now: int)
    requires Books(cfg, o)
    ensures Books(cfg, Observe(o, price, now)) && Observe(o, price, now).status == o.status
  {
    var t := Observe(o, price, now);
    assert Tp1R(t) == Tp1R(o) && Tp2R(t) == Tp2R(o) && ProtectedStop(cfg, t) == ProtectedStop(cfg, o) && ProtectR(cfg, t) == ProtectR(cfg, o);
  }

  lemma StopKeepsBooks(cfg: OutcomeConfig, o: Outcome, price: real, now: int)
    requires cfg.Valid() && Books(cfg, o) && Active(o) && StopHit(cfg, o, price)
    ensures Books(cfg, React(cfg, o, price, now))
  {
    var t := React(cfg, o, price, now);
    assert Tp1R(t) == Tp1R(o) && ProtectedStop(cfg, t) == ProtectedStop(cfg, o) && ProtectR(cfg, t) == ProtectR(cfg, o);
    if o.status.TP1_HIT? {
      ProtectedStopIsWorth(cfg, o);
    }
  }

  lemma TargetKeepsBooks(cfg: OutcomeConfig, o: Outcome, price: real, now: int)
    requires Books(cfg, o) && Active(o) && !StopHit(cfg, o, price)
    ensures Books(cfg, React(cfg, o, price, now))
  {
    var t := React(cfg, o, price, now);
    assert Tp1R(t) == Tp1R(o) && Tp2R(t) == Tp2R(o) && ProtectedStop(cfg, t) == ProtectedStop(cfg, o);
  }

  lemma ExpireKeepsBooks(cfg: OutcomeConfig, o: Outcome, now: int)
    requires cfg.Valid() && Books(cfg, o)
    ensures Books(cfg, Expire(cfg, o, now))
    ensures AgeSeconds(o, now) > cfg.maxAgeSeconds ==> !Active(Expire(cfg, o, now))
  {
    var t := Expire(cfg, o, now);
    assert Tp1R(t) == Tp1R(o) && Tp2R(t) == Tp2R(o) && ProtectedStop(cfg, t) == ProtectedStop(cfg, o) && ProtectR(cfg, t) == ProtectR(cfg, o);
    TargetsAreGains(o);
    ShareOfGain(cfg.Fraction(), Tp1R(o));
  }

  /** One tick keeps the books, and a tick past the maximum age always resolves. */
  lemma TickKeepsBooks(cfg: OutcomeConfig, o: Outcome, price: real, now: int)
    requires cfg.Valid() && Books(cfg, o) && Active(o)
    ensures Books(cfg, Tick(cfg, o, price, now))
    ensures AgeSeconds(o, now) > cfg.maxAgeSeconds ==> !Active(Tick(cfg, o, price, now))
  {
    var seen := Observe(o, price, now);
    ObserveKeepsBooks(cfg, o, price, now);
    if StopHit(cfg, seen, price) {
      StopKeepsBooks(cfg, seen, price, now);
    } else {
      TargetKeepsBooks(cfg, seen, price, now);
    }
    var reacted := React(cfg, seen, price, now);
    assert AgeSeconds(reacted, now) == AgeSeconds(o, now);
    ExpireKeepsBooks(cfg, reacted, now);
  }

  /** A stop after the first target pays exactly the partial share plus the protected rest. */
  lemma StopAfterFirstTargetPays(cfg: OutcomeConfig, o: Outcome, price: real, now: int)
    requires cfg.Valid() && Books(cfg, o) && o.status.TP1_HIT? && StopHit(cfg, o, price)
    ensures var t, p := Tick(cfg, o, price, now), cfg.Fraction();
      && t.finalResolvedR == Some(Portion(p, Tp1R(o)) + Portion(1.0 - p, ProtectR(cfg, o)))
      && t.status == (if ProtectR(cfg, o) <= 0.000001 then BE_AFTER_TP1 else PARTIAL_WIN)
  {
    var seen := Observe(o, price, now);
    assert Tp1R(seen) == Tp1R(o) && ProtectR(cfg, seen) == ProtectR(cfg, o) && ProtectedStop(cfg, seen) == ProtectedStop(cfg, o);
    ProtectedStopIsWorth(cfg, seen);
    assert StopHit(cfg, seen, price);
    assert React(cfg, seen, price, now).resolvedAt.Some?;
  }

  lemma NewKeepsBooks(cfg: OutcomeConfig, o: Outcome)
    requires New(o)
    ensures Books(cfg, o)
  {
  }

  /** Over every price path: terminal iff resolved iff paid, and every payment is the one its state stands for. */
  lemma {:induction false} FollowKeepsBooks(cfg: OutcomeConfig, o: Outcome, path: seq<Quote>)
    requires cfg.Valid() && Books(cfg, o)
    ensures Books(cfg, Follow(cfg, o, path))
    decreases |path|
  {
    if path != [] && Active(o) {
      TickKeepsBooks(cfg, o, path[0].price, path[0].at);
      FollowKeepsBooks(cfg, Tick(cfg, o, path[0].price, path[0].at), path[1..]);
    }
  }

  /** The terms of the signal never change. */
  predicate SameTerms(o: Outcome, t: Outcome) {
    t.symbol == o.symbol && t.side == o.side && t.entry == o.entry && t.stop == o.stop && t.tp1 == o.tp1 && t.tp2 == o.tp2
    && t.createdAt == o.createdAt
  }

  lemma TickKeepsTerms(cfg: OutcomeConfig, o: Outcome, price: real, now: int)
    ensures SameTerms(o, Tick(cfg, o, price, now))
  {
  }

  lemma TermsCarryOver(o: Outcome, t: Outcome, u: Outcome)
    requires SameTerms(o, t) && SameTerms(t, u)
    ensures SameTerms(o, u)
  {
  }

  lemma {:induction false} FollowKeepsTerms(cfg: OutcomeConfig, o: Outcome, path: seq<Quote>)
    ensures SameTerms(o, Follow(cfg, o, path))
    decreases |path|
  {
    if path != [] && Active(o) {
      var t := Tick(cfg, o, path[0].price, path[0].at);
      TickKeepsTerms(cfg, o, path[0].price, path[0].at);
      FollowKeepsTerms(cfg, t, path[1..]);
      TermsCarryOver(o, t, Follow(cfg, t, path[1..]));
    }
  }

  lemma Blend(p: real, a: real, b: real, m: real)
    requires 0.0 <= p <= 1.0 && 0.0 <= a && 0.0 <= b && a <= m && b <= m
    ensures Portion(p, a) <= Portion(p, a) + Portion(1.0 - p, b) <= m && 0.0 <= Portion(p, a)
  {
    assert (1.0 - p) * b >= 0.0;
    assert p * a <= p * m;
    assert (1.0 - p) * b <= (1.0 - p) * m;
    assert p * m + (1.0 - p) * m == m;
  }

  /** The bounds a payment keeps, in terms of the partial fraction and the worth of the exits. */
  predicate PaymentOk(p: real, first: real, second: real, protect: real, afterFirst: bool, loss: bool, r: real) {
    && r >= -1.0 && (r < 0.0 <==> loss)
    && (afterFirst ==> r >= Portion(p, first))
    && r <= Max(Max(first, second), protect)
  }

  lemma BooksPayOk(cfg: OutcomeConfig, o: Outcome)
    requires cfg.Valid() && Books(cfg, o) && o.finalResolvedR.Some?
    ensures PaymentOk(cfg.Fraction(), Tp1R(o), Tp2R(o), ProtectR(cfg, o), o.tp1HitAt.Some?, o.status.STOP_HIT?, o.finalResolvedR.value)
  {
    TargetsAreGains(o);
    var p, a, b, c := cfg.Fraction(), Tp1R(o), Tp2R(o), ProtectR(cfg, o);
    var m := Max(Max(a, b), c);
    match o.status
    case STOP_HIT =>
    case EXPIRED => Blend(p, a, 0.0, m);
    case TP2_HIT =>
      if o.tp1HitAt.Some? {
        Blend(p, a, b, m);
      } else {
        Blend(p, 0.0, b, m);
      }
    case _ =>
      Blend(p, a, c, m);
      Blend(p, a, 0.0, m);
  }

  lemma SameTermsSameWorth(cfg: OutcomeConfig, o: Outcome, t: Outcome)
    requires SameTerms(o, t)
    ensures Tp1R(t) == Tp1R(o) && Tp2R(t) == Tp2R(o) && ProtectR(cfg, t) == ProtectR(cfg, o)
  {
  }

  /** The final R of any resolved outcome: at least -1, a loss only on the initial stop, never beyond the best of its exits. */
  lemma FinalRBounds(cfg: OutcomeConfig, o: Outcome, path: seq<Quote>)
    requires cfg.Valid() && New(o) && Follow(cfg, o, path).finalResolvedR.Some?
    ensures var t := Follow(cfg, o, path);
            PaymentOk(cfg.Fraction(), Tp1R(o), Tp2R(o), ProtectR(cfg, o), t.tp1HitAt.Some?, t.status.STOP_HIT?, t.finalResolvedR.value)
  {
    NewKeepsBooks(cfg, o);
    FollowKeepsBooks(cfg, o, path);
    FollowKeepsTerms(cfg, o, path);
    BooksPayOk(cfg, Follow(cfg, o, path));
    SameTermsSameWorth(cfg, o, Follow(cfg, o, path));
  }

  // ---- Excursions ----------------------------------------------------------------------------------------------

  function MaxFavorable(o: Outcome, path: seq<Quote>): real {
    if path == [] then 0.0 else Max(MaxFavorable(o, path[..|path| - 1]), Favorable(o, path[|path| - 1].price))
  }

  function MaxAdverse(o: Outcome, path: seq<Quote>): real {
    if path == [] then 0.0 else Max(MaxAdverse(o, path[..|path| - 1]), Adverse(o, path[|path| - 1].price))
  }

  lemma TickObserves(cfg: OutcomeConfig, o: Outcome, price: real, now: int)
    ensures var t := Tick(cfg, o, price, now);
            SameTerms(o, t) && t.mfe == Max(o.mfe, Favorable(o, price)) && t.mae == Max(o.mae, Adverse(o, price))
  {
    var seen := Observe(o, price, now);
    var reacted := React(cfg, seen, price, now);
    assert SameTerms(o, reacted) && reacted.mfe == seen.mfe && reacted.mae == seen.mae;
    var t := Expire(cfg, reacted, now);
    assert SameTerms(reacted, t) && t.mfe == reacted.mfe && t.mae == reacted.mae;
  }

  lemma {:induction false} ExcursionsExtend(o: Outcome, next: Outcome, seen: seq<Quote>, q: Quote)
    requires o.mfe == MaxFavorable(o, seen) && o.mae == MaxAdverse(o, seen) && SameTerms(o, next)
    requires next.mfe == Max(o.mfe, Favorable(o, q.price)) && next.mae == Max(o.mae, Adverse(o, q.price))
    ensures next.mfe == MaxFavorable(next, seen + [q]) && next.mae == MaxAdverse(next, seen + [q])
  {
    var more := seen + [q];
    assert more[..|more| - 1] == seen;
    SameTermsSameExcursions(o, next, more);
  }

  /** The first quote of a path: where it leads, and that it was counted in the excursions. */
  lemma {:induction false} FirstQuote(cfg: OutcomeConfig, o: Outcome, seen: seq<Quote>, path: seq<Quote>) returns (next: Outcome)
    requires path != [] && Active(o)
    requires o.mfe == MaxFavorable(o, seen) && o.mae == MaxAdverse(o, seen)
    ensures Follow(cfg, o, path) == Follow(cfg, next, path[1..])
    ensures Processed(cfg, o, path) == 1 + Processed(cfg, next, path[1..])
    ensures SameTerms(o, next)
    ensures next.mfe == MaxFavorable(next, seen + [path[0]]) && next.mae == MaxAdverse(next, seen + [path[0]])
  {
    next := Tick(cfg, o, path[0].price, path[0].at);
    TickObserves(cfg, o, path[0].price, path[0].at);
    ExcursionsExtend(o, next, seen, path[0]);
  }

  lemma PrefixExtends<T>(seen: seq<T>, path: seq<T>, n: nat)
    requires n < |path|
    ensures seen + [path[0]] + path[1..][..n] == seen + path[..n + 1]
  {
  }

  lemma {:induction false} ExcursionsFrom(cfg: OutcomeConfig, o: Outcome, seen: seq<Quote>, path: seq<Quote>)
    requires o.mfe == MaxFavorable(o, seen) && o.mae == MaxAdverse(o, seen)
    ensures var t := Follow(cfg, o, path);
            var all := seen + path[..Processed(cfg, o, path)];
            t.mfe == MaxFavorable(o, all) && t.mae == MaxAdverse(o, all)
    decreases |path|
  {
    if path == [] || !Active(o) {
      assert seen + path[..0] == seen;
    } else {
      var next := FirstQuote(cfg, o, seen, path);
      var n := Processed(cfg, next, path[1..]);
      ExcursionsFrom(cfg, next, seen + [path[0]], path[1..]);
      PrefixExtends(seen, path, n);
      SameTermsSameExcursions(o, next, seen + path[..n + 1]);
    }
  }

  lemma {:induction false} SameTermsSameExcursions(o: Outcome, t: Outcome, path: seq<Quote>)
    requires SameTerms(o, t)
    ensures MaxFavorable(t, path) == MaxFavorable(o, path) && MaxAdverse(t, path) == MaxAdverse(o, path)
  {
    if path != [] {
      SameTermsSameExcursions(o, t, path[..|path| - 1]);
    }
  }

  /** mfe and mae are the largest favourable and adverse excursions of the prices processed, never below zero. */
  lemma ExcursionsAreExtremes(cfg: OutcomeConfig, o: Outcome, path: seq<Quote>)
    requires New(o)
    ensures var t, seen := Follow(cfg, o, path), path[..Processed(cfg, o, path)];
            t.mfe == MaxFavorable(o, seen) && t.mae == MaxAdverse(o, seen)
  {
    ExcursionsFrom(cfg, o, [], path);
    assert [] + path[..Processed(cfg, o, path)] == path[..Processed(cfg, o, path)];
  }

  /** How far a price has moved from the entry in the signal's favour; negative if against it. */
  function Gain(o: Outcome, price: real): real {
    match o.side
    case Long => price - o.entry
    case Short => o.entry - price
  }

  /** The maximum is attained by a processed price or is zero, and bounds them all. */
  lemma {:induction false} MaxFavorableIsMax(o: Outcome, path: seq<Quote>)
    ensures MaxFavorable(o, path) >= 0.0
    ensures forall q | q in path :: Gain(o, q.price) <= MaxFavorable(o, path)
    ensures MaxFavorable(o, path) == 0.0 || exists q :: q in path && Gain(o, q.price) == MaxFavorable(o, path)
  {
    if path != [] {
      var front, last := path[..|path| - 1], path[|path| - 1];
      MaxFavorableIsMax(o, front);
      assert path == front + [last];
      assert Favorable(o, last.price) == Gain(o, last.price);
    }
  }

  lemma {:induction false} MaxAdverseIsMax(o: Outcome, path: seq<Quote>)
    ensures MaxAdverse(o, path) >= 0.0
    ensures forall q | q in path :: -Gain(o, q.price) <= MaxAdverse(o, path)
    ensures MaxAdverse(o, path) == 0.0 || exists q :: q in path && -Gain(o, q.price) == MaxAdverse(o, path)
  {
    if path != [] {
      var front, last := path[..|path| - 1], path[|path| - 1];
      MaxAdverseIsMax(o, front);
      assert path == front + [last];
      assert Adverse(o, last.price) == -Gain(o, last.price);
    }
  }

  // ---- One tick in prices -------------------------------------------------------------------------------------

  /** The price is at `level` or has gone through it downwards, for a long signal; upwards for a short one. */
  predicate Against(side: Side, price: real, level: real) {
    match side
    case Long => price <= level
    case Short => level <= price
  }

  /** The price is at `level` or beyond it in the signal's favour. */
  predicate InFavour(side: Side, price: real, level: real) {
    match side
    case Long => level <= price
    case Short => price <= level
  }

  /** What the configuration protects after the first target, in R. */
  function Protection(cfg: OutcomeConfig): real {
    match cfg.protectMode
    case BreakEven => cfg.breakevenBufferR
    case OffsetR => cfg.protectOffsetR + cfg.breakevenBufferR
  }

  /** The stop in force: the initial one, or from the first target on the protected one, armed or still to be computed. */
  function StopInForce(cfg: OutcomeConfig, o: Outcome): real {
    if o.status.OPEN? then o.stop
    else if o.protectedStopPrice.Some? then o.protectedStopPrice.value
    else
      var gain := Abs(o.entry - o.stop) * Protection(cfg);
      match o.side
      case Long => o.entry + gain
      case Short => o.entry - gain
  }

  predicate TooOld(cfg: OutcomeConfig, o: Outcome, now: int) {
    (now - o.createdAt) / 1000 > cfg.maxAgeSeconds
  }

  lemma StopLevelInPrices(cfg: OutcomeConfig, o: Outcome, price: real)
    requires Active(o)
    ensures StopLevel(cfg, o) == StopInForce(cfg, o)
    ensures StopHit(cfg, o, price) <==> Against(o.side, price, StopInForce(cfg, o))
  {
    assert Abs(RiskDistance(o.side, o.entry, o.stop)) == Abs(o.entry - o.stop);
    if Abs(o.entry - o.stop) == 0.0 {
      assert Abs(o.entry - o.stop) * Protection(cfg) == 0.0;
    }
  }

  /**
   Where one tick leads, by the price and the levels alone. The stop in force comes before the second target, in either
   active status; the second target before the first; age resolves only what no level did.
   */
  lemma TickInPrices(cfg: OutcomeConfig, o: Outcome, price: real, now: int)
    requires Active(o) && o.resolvedAt.None?
    ensures var t := Tick(cfg, o, price, now);
            var stopped, second := Against(o.side, price, StopInForce(cfg, o)), InFavour(o.side, price, o.tp2);
            var first, aged := InFavour(o.side, price, o.tp1), TooOld(cfg, o, now);
      && (t.status.TP2_HIT? <==> second && !stopped)
      && (t.status.STOP_HIT? <==> o.status.OPEN? && stopped)
      && (t.status.OPEN? <==> o.status.OPEN? && !stopped && !second && !first && !aged)
      && (t.status.TP1_HIT? <==> !stopped && !second && !aged && (o.status.TP1_HIT? || first))
      && (stopped && o.status.TP1_HIT? ==> t.status.BE_AFTER_TP1? || t.status.PARTIAL_WIN?)
      && (t.status.BE_AFTER_TP1? ==> stopped && o.status.TP1_HIT?)
      && (t.status.EXPIRED? || (t.status.PARTIAL_WIN? && !stopped) ==> !second && aged)
  {
    StopLevelInPrices(cfg, o, price);
    StopLevelInPrices(cfg, Observe(o, price, now), price);
  }

  /** With the books in order the terminal states after the first target are told apart by the protection and the share. */
  lemma {:induction false} ProtectedTickInPrices(cfg: OutcomeConfig, o: Outcome, price: real, now: int)
    requires cfg.Valid() && Books(cfg, o) && o.status.TP1_HIT?
    ensures var t := Tick(cfg, o, price, now);
            var stopped, second := Against(o.side, price, StopInForce(cfg, o)), InFavour(o.side, price, o.tp2);
            var worth := if o.entry == o.stop then 0.0 else Protection(cfg);
            var expired := !stopped && !second && TooOld(cfg, o, now);
      && (t.status.BE_AFTER_TP1? <==> stopped && worth <= 0.000001)
      && (t.status.PARTIAL_WIN? <==> (stopped && worth > 0.000001) || (expired && o.partialRealizedR > 0.0))
      && (t.status.EXPIRED? <==> expired && o.partialRealizedR <= 0.0)
      && (t.status.TP1_HIT? <==> !stopped && !second && !TooOld(cfg, o, now))
  {
    StopLevelInPrices(cfg, o, price);
    if StopHit(cfg, o, price) {
      StopAfterFirstTargetPays(cfg, o, price, now);
    } else {
      TickInPrices(cfg, o, price, now);
      StopLevelInPrices(cfg, Observe(o, price, now), price);
    }
  }

  /** What a tick writes besides the verdict: age in whole seconds, the time of each first event, the armed stop. */
  lemma TickRecords(cfg: OutcomeConfig, o: Outcome, price: real, now: int)
    requires Active(o) && Books(cfg, o)
    ensures var t := Tick(cfg, o, price, now);
      && t.durationSeconds * 1000 <= now - o.createdAt < t.durationSeconds * 1000 + 1000
      && (!Active(t) ==> t.resolvedAt == Some(now))
      && (t.status.TP2_HIT? ==> t.tp2HitAt == Some(now))
      && (o.tp1HitAt.Some? ==> t.tp1HitAt == o.tp1HitAt && t.protectedStopPrice == o.protectedStopPrice)
      && (o.tp1HitAt.None? && t.tp1HitAt.Some? ==>
            t.tp1HitAt == Some(now) && t.protectedStopArmedAt == Some(now)
            && t.protectedStopPrice == Some(StopInForce(cfg, o.(status := TP1_HIT))))
  {
    var armed := o.(status := TP1_HIT);
    assert o.tp1HitAt.None? ==> o.protectedStopPrice.None?;
    StopLevelInPrices(cfg, armed, price);
  }

  // ---- R in money -----------------------------------------------------------------------------------------------

  function Share(cfg: OutcomeConfig): real {
    if cfg.partialEnabled then cfg.partialPct else 0.0
  }

  /** What a resolved signal made, in any unit: a share at the first target, the rest at the exit; `risk` is what a stop costs. */
  predicate Made(t: Outcome, p: real, risk: real, first: real, second: real, protected: real, made: real) {
    match t.status
    case STOP_HIT => made == -risk
    case TP2_HIT => made == (if t.tp1HitAt.Some? then Portion(p, first) else 0.0) + Portion(1.0 - p, second)
    case BE_AFTER_TP1 => made == Portion(p, first) + Portion(1.0 - p, protected)
    case PARTIAL_WIN => made == Portion(p, first) + Portion(1.0 - p, protected) || made == Portion(p, first)
    case EXPIRED => made == 0.0
    case _ => false
  }

  /** `made` is in units of the risk, and times the risk it is money. */
  function InMoney(made: real, risk: real): real {
    made * risk
  }

  lemma BlendScales(p: real, a: real, b: real, d: real)
    ensures InMoney(Portion(p, a), d) == Portion(p, InMoney(a, d))
    ensures InMoney(Portion(1.0 - p, b), d) == Portion(1.0 - p, InMoney(b, d))
    ensures InMoney(Portion(p, a) + Portion(1.0 - p, b), d) == Portion(p, InMoney(a, d)) + Portion(1.0 - p, InMoney(b, d))
    ensures InMoney(0.0 + Portion(1.0 - p, b), d) == Portion(1.0 - p, InMoney(b, d))
    ensures InMoney(-1.0, d) == -d && InMoney(0.0, d) == 0.0
  {
  }

  lemma MadeScales(t: Outcome, p: real, first: real, second: real, protected: real, made: real, d: real)
    requires Made(t, p, 1.0, first, second, protected, made)
    ensures Made(t, p, d, InMoney(first, d), InMoney(second, d), InMoney(protected, d), InMoney(made, d))
  {
    BlendScales(p, first, second, d);
    BlendScales(p, first, protected, d);
  }

  lemma QuotientInMoney(a: real, b: real)
    requires b > 0.0
    ensures InMoney(a / b, b) == a
  {
  }

  /** What a resolved signal made in R, with each exit's worth in R hidden but for the money it stands for. */
  lemma {:induction false} MadeInR(cfg: OutcomeConfig, t: Outcome, d: real) returns (first: real, second: real, protected: real)
    requires Books(cfg, t) && !Active(t) && d == Abs(t.entry - t.stop) > 0.0
    ensures t.finalResolvedR.Some? && Made(t, Share(cfg), 1.0, first, second, protected, t.finalResolvedR.value)
    ensures InMoney(first, d) == Abs(t.tp1 - t.entry) && InMoney(second, d) == Abs(t.tp2 - t.entry)
    ensures protected == Protection(cfg)
  {
    first, second, protected := Tp1R(t), Tp2R(t), ProtectR(cfg, t);
    QuotientInMoney(Abs(t.tp1 - t.entry), d);
    QuotientInMoney(Abs(t.tp2 - t.entry), d);
  }

  lemma FollowKeepsLevels(cfg: OutcomeConfig, o: Outcome, path: seq<Quote>, t: Outcome)
    requires cfg.Valid() && New(o) && t == Follow(cfg, o, path)
    ensures Books(cfg, t) && t.entry == o.entry && t.stop == o.stop && t.tp1 == o.tp1 && t.tp2 == o.tp2
  {
    NewKeepsBooks(cfg, o);
    FollowKeepsBooks(cfg, o, path);
    FollowKeepsTerms(cfg, o, path);
  }

  lemma {:induction false} BooksInMoney(cfg: OutcomeConfig, t: Outcome, d: real)
    requires Books(cfg, t) && !Active(t) && d == Abs(t.entry - t.stop) > 0.0
    ensures t.finalResolvedR.Some?
    ensures Made(t, Share(cfg), d, Abs(t.tp1 - t.entry), Abs(t.tp2 - t.entry), InMoney(Protection(cfg), d),
                 InMoney(t.finalResolvedR.value, d))
  {
    var first, second, protected := MadeInR(cfg, t, d);
    MadeScales(t, Share(cfg), first, second, protected, t.finalResolvedR.value, d);
  }

  /** Times the initial risk, a final R is the money the levels say, over every price path of a fresh signal. */
  lemma {:induction false} FinalRInMoney(cfg: OutcomeConfig, o: Outcome, path: seq<Quote>, t: Outcome, d: real)
    requires cfg.Valid() && New(o) && t == Follow(cfg, o, path) && !Active(t) && d == Abs(o.entry - o.stop) > 0.0
    ensures t.finalResolvedR.Some?
    ensures Made(t, Share(cfg), d, Abs(o.tp1 - o.entry), Abs(o.tp2 - o.entry), InMoney(Protection(cfg), d),
                 InMoney(t.finalResolvedR.value, d))
  {
    FollowKeepsLevels(cfg, o, path, t);
    BooksInMoney(cfg, t, d);
  }

  // ---- What the first eventful price decides -------------------------------------------------------------------

  /** The price is at or beyond the initial stop. */
  predicate AtStop(o: Outcome, price: real) {
    if o.side.Short? then price >= o.stop else price <= o.stop
  }

  /** A quote at which nothing happens to a fresh signal. */
  predicate Uneventful(cfg: OutcomeConfig, o: Outcome, q: Quote) {
    !AtStop(o, q.price) && !Reached(o, q.price, o.tp1) && !Reached(o, q.price, o.tp2) && AgeSeconds(o, q.at) <= cfg.maxAgeSeconds
  }

  /** The price takes the first target: it is there, but neither at the stop nor at the second target. */
  predicate AtFirstTarget(o: Outcome, price: real) {
    !AtStop(o, price) && !Reached(o, price, o.tp2) && Reached(o, price, o.tp1)
  }

  datatype Event = Stop | FirstTarget

  predicate Happens(o: Outcome, event: Event, q: Quote) {
    if event.Stop? then AtStop(o, q.price) else AtFirstTarget(o, q.price)
  }

  /** The event happens at some quote before which nothing happens. */
  ghost predicate ComesFirst(cfg: OutcomeConfig, o: Outcome, event: Event, path: seq<Quote>) {
    exists k :: 0 <= k < |path| && Happens(o, event, path[k]) && forall i | 0 <= i < k :: Uneventful(cfg, o, path[i])
  }

  lemma ComesFirstSplit(cfg: OutcomeConfig, o: Outcome, event: Event, path: seq<Quote>)
    requires path != []
    ensures ComesFirst(cfg, o, event, path)
       <==> Happens(o, event, path[0]) || (Uneventful(cfg, o, path[0]) && ComesFirst(cfg, o, event, path[1..]))
  {
    if k :| 0 <= k < |path| && Happens(o, event, path[k]) && forall i | 0 <= i < k :: Uneventful(cfg, o, path[i]) {
      if k > 0 {
        assert path[1..][k - 1] == path[k];
        assert forall i | 0 <= i < k - 1 :: path[1..][i] == path[i + 1];
      }
    }
    if Uneventful(cfg, o, path[0]) && ComesFirst(cfg, o, event, path[1..]) {
      var k :| 0 <= k < |path[1..]| && Happens(o, event, path[1..][k]) && forall i | 0 <= i < k :: Uneventful(cfg, o, path[1..][i]);
      assert path[k + 1] == path[1..][k];
      assert forall i | 0 < i < k + 1 :: path[i] == path[1..][i - 1];
    }
  }

  lemma SameTermsSameEvents(cfg: OutcomeConfig, o: Outcome, t: Outcome, event: Event, path: seq<Quote>)
    requires SameTerms(o, t)
    ensures ComesFirst(cfg, o, event, path) <==> ComesFirst(cfg, t, event, path)
  {
    assert forall q: Quote :: Uneventful(cfg, o, q) <==> Uneventful(cfg, t, q);
    assert forall q: Quote :: Happens(o, event, q) <==> Happens(t, event, q);
  }

  /** Once anything happened, no loss on the initial stop is booked any more and the first target is recorded or never will be. */
  lemma {:induction false} SettledByFirstEvent(cfg: OutcomeConfig, o: Outcome, path: seq<Quote>)
    requires !o.status.OPEN?
    ensures Follow(cfg, o, path).status.STOP_HIT? <==> o.status.STOP_HIT?
    ensures Follow(cfg, o, path).tp1HitAt.Some? <==> o.tp1HitAt.Some?
    decreases |path|
  {
    if path != [] && Active(o) {
      SettledByFirstEvent(cfg, Tick(cfg, o, path[0].price, path[0].at), path[1..]);
    }
  }

  /** What the first tick of a fresh signal does. */
  lemma FirstTick(cfg: OutcomeConfig, o: Outcome, q: Quote)
    requires o.status.OPEN? && o.resolvedAt.None?
    ensures var t := Tick(cfg, o, q.price, q.at);
      && SameTerms(o, t)
      && (t.status.STOP_HIT? <==> Happens(o, Stop, q))
      && (t.tp1HitAt.Some? <==> o.tp1HitAt.Some? || Happens(o, FirstTarget, q))
      && (t.status.OPEN? <==> Uneventful(cfg, o, q))
      && (t.status.OPEN? ==> t.resolvedAt.None?)
  {
    TickObserves(cfg, o, q.price, q.at);
  }

  /** A loss is booked iff the stop comes first; the first target is recorded iff it comes first. */
  lemma {:induction false} FirstEventDecides(cfg: OutcomeConfig, o: Outcome, path: seq<Quote>)
    requires o.status.OPEN? && o.resolvedAt.None?
    ensures Follow(cfg, o, path).status.STOP_HIT? <==> ComesFirst(cfg, o, Stop, path)
    ensures Follow(cfg, o, path).tp1HitAt.Some? <==> o.tp1HitAt.Some? || ComesFirst(cfg, o, FirstTarget, path)
    decreases |path|
  {
    if path != [] {
      var t := Tick(cfg, o, path[0].price, path[0].at);
      FirstTick(cfg, o, path[0]);
      ComesFirstSplit(cfg, o, Stop, path);
      ComesFirstSplit(cfg, o, FirstTarget, path);
      if t.status.OPEN? {
        FirstEventDecides(cfg, t, path[1..]);
        SameTermsSameEvents(cfg, o, t, Stop, path[1..]);
        SameTermsSameEvents(cfg, o, t, FirstTarget, path[1..]);
      } else {
        SettledByFirstEvent(cfg, t, path[1..]);
      }
    }
  }

  /** A loss is booked iff the first quote at which anything happens is at or beyond the stop. */
  lemma {:induction false} LossIffStoppedFirst(cfg: OutcomeConfig, o: Outcome, path: seq<Quote>)
    requires o.status.OPEN? && o.resolvedAt.None?
    ensures Follow(cfg, o, path).status.STOP_HIT? <==> ComesFirst(cfg, o, Stop, path)
  {
    FirstEventDecides(cfg, o, path);
  }

  // ---- The second target and the partial share ------------------------------------------------------------------

  /** What reaching both targets is worth: the partial share at the first, the rest at the second. */
  function Blended(cfg: OutcomeConfig, o: Outcome): real {
    Portion(cfg.Fraction(), Tp1R(o)) + Portion(1.0 - cfg.Fraction(), Tp2R(o))
  }

  lemma SecondTargetPays(cfg: OutcomeConfig, t: Outcome)
    requires Books(cfg, t) && t.status.TP2_HIT?
    ensures t.finalResolvedR == Some(Blended(cfg, t)) <==> t.tp1HitAt.Some? || Portion(cfg.Fraction(), Tp1R(t)) == 0.0
  {
    var rest := Portion(1.0 - cfg.Fraction(), Tp2R(t));
    assert t.finalResolvedR == Some(t.partialRealizedR + rest);
  }

  /**
   Reaching the second target pays the blend iff some price took the first target before anything else happened, or the
   partial share is worth nothing. A price that jumps straight past both loses the share.
   */
  lemma {:induction false} SecondTargetPaysBlendIff(cfg: OutcomeConfig, o: Outcome, path: seq<Quote>)
    requires cfg.Valid() && New(o) && Follow(cfg, o, path).status.TP2_HIT?
    ensures Follow(cfg, o, path).finalResolvedR == Some(Blended(cfg, o))
       <==> ComesFirst(cfg, o, FirstTarget, path) || Portion(cfg.Fraction(), Tp1R(o)) == 0.0
  {
    NewKeepsBooks(cfg, o);
    FollowKeepsBooks(cfg, o, path);
    FollowKeepsTerms(cfg, o, path);
    FirstEventDecides(cfg, o, path);
    SecondTargetPays(cfg, Follow(cfg, o, path));
    SameTermsSameWorth(cfg, o, Follow(cfg, o, path));
  }

  const HALF_AT_FIRST := OutcomeConfig(true, 0.5, BreakEven, 0.0, 0.0, 86400)

  /** Long from 100 with one point of risk, the targets one and two points away. */
  const LONG_SIGNAL := Outcome(
    "BTCUSDT", Long, 100.0, 99.0, 101.0, 102.0, 0, OPEN, 0.0, 0.0, 0, None, None, None, None, None, 0.0, None, None)

  /** One price past both targets: half the position at 2 R is paid, where both targets are worth 1.5 R. */
  lemma GapLosesTheShare()
    ensures HALF_AT_FIRST.Valid() && New(LONG_SIGNAL)
    ensures var t := Follow(HALF_AT_FIRST, LONG_SIGNAL, [Quote(103.0, 1000)]);
            t.status.TP2_HIT? && t.finalResolvedR == Some(1.0) && Blended(HALF_AT_FIRST, LONG_SIGNAL) == 1.5
  {
    var path := [Quote(103.0, 1000)];
    var t := Tick(HALF_AT_FIRST, LONG_SIGNAL, 103.0, 1000);
    assert Tp1R(LONG_SIGNAL) == 1.0 && Tp2R(LONG_SIGNAL) == 2.0;
    assert t.status.TP2_HIT? && t.finalResolvedR == Some(1.0);
    assert path[1..] == [];
    assert Follow(HALF_AT_FIRST, t, []) == t;
  }
}
