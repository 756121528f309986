/** Planning one account: ordered gates, sizing, and the command of an approved plan (v2/src/execution-core/planner.ts). */
module Planner {
  import opened Common
  import opened ExecutionTypes
  import opened Idempotency
  import opened Protocol

  datatype Signal = Signal(
    signalId: string, symbol: string, market: Market, direction: Direction,
    entryPrice: real, stopLoss: Option<real>, takeProfit: Option<real>)

  datatype Package = Package(active: bool, subscriptionValid: Option<bool>, signalOnly: bool, allowedMarkets: seq<Market>)

  datatype Permissions = Permissions(allowedMarkets: seq<Market>, allowedSymbols: seq<string>, leverageAllowed: bool)

  datatype Risk = Risk(
    equityUsd: real, riskPerTradePct: real, maxDailyRiskPct: real, usedDailyRiskPct: real,
    maxOpenTrades: int, openTrades: int, maxSameSymbolTrades: int, sameSymbolOpenTrades: map<string, int>,
    maxSameDirectionTrades: Option<int>, sameDirectionOpenTrades: map<Direction, int>,
    maxExposureUsd: Option<real>, currentExposureUsd: Option<real>,
    maxDrawdownPct: Option<real>, currentDrawdownPct: Option<real>,
    cooldownUntil: Option<int>, maxLeverage: real, dailyLossLock: bool, riskAllowed: Option<bool>)

  datatype Health = Healthy | Degraded | Offline
  datatype Account = Account(
    accountId: string, enabled: bool, platform: Platform, adapterId: Option<string>,
    permissions: Permissions, risk: Risk, health: Health)

  datatype Approval = ApprovedExecutor | PendingExecutor | RejectedExecutor
  datatype ExecutorState = Active | Paused | Disabled
  datatype Executor = Executor(executorId: string, approval: Approval, state: ExecutorState, accounts: seq<Account>)

  datatype Customer = Customer(customerId: string, eligible: Option<bool>, pkg: Package, executors: seq<Executor>)

  /** What an adapter can do; a registry may lack a platform. */
  datatype Capability = Capability(
    available: Option<bool>, supportsMarket: seq<Market>, supportsLeverage: bool, maxLeverage: real,
    supportedOrderTypes: seq<Action>)

  type Registry = map<Platform, Capability>

  datatype PlanStatus = APPROVED | REJECTED | DEFERRED

  datatype Reason =
    | CustomerNotEligible | PackageInactive | SubscriptionInvalid | SignalOnlyCustomer | ExecutorNotApproved
    | ExecutorPaused | ExecutorDisabled | AccountDisabled | AccountHealthNotHealthy | UnsupportedPlatform
    | AdapterUnavailable | AdapterCapabilityNotSupported | PlatformMarketNotSupported | MarketNotAllowed
    | SymbolNotAllowed | RiskNotAllowed | DailyLossLockActive | DrawdownLimitExceeded | DailyRiskLimitExceeded
    | MaxOpenTradesExceeded | MaxSameSymbolTradesExceeded | MaxSameDirectionTradesExceeded | CooldownActive
    | LeverageNotSupported | MaxExposureExceeded | DuplicateSignalExecutionPrevented

  datatype Sizing = Sizing(riskPct: real, notionalUsd: real, quantity: real, leverage: real)

  datatype Plan = Plan(status: PlanStatus, reason: Option<Reason>, sizing: Option<Sizing>, commands: seq<Command>)

  /** One account an executor trades for a customer. */
  datatype Slot = Slot(customer: Customer, executor: Executor, account: Account)

  function EntryFor(signal: Signal, slot: Slot): Entry {
    Entry(signal.signalId, slot.customer.customerId, slot.executor.executorId, slot.account.accountId, slot.account.platform)
  }

  function StopDistance(signal: Signal): real {
    Abs(signal.entryPrice - signal.stopLoss.GetOr(signal.entryPrice * 0.99))
  }

  function RiskAmount(r: Risk): real {
    r.equityUsd * (r.riskPerTradePct / 100.0)
  }

  function Quantity(signal: Signal, r: Risk): real {
    if StopDistance(signal) > 0.0 then RiskAmount(r) / StopDistance(signal) else 0.0
  }

  function Leverage(r: Risk, cap: Capability): real {
    Min(r.maxLeverage, cap.maxLeverage)
  }

  function SameSymbol(signal: Signal, r: Risk): int {
    if signal.symbol in r.sameSymbolOpenTrades then r.sameSymbolOpenTrades[signal.symbol] else 0
  }

  function SameDirection(signal: Signal, r: Risk): int {
    if signal.direction in r.sameDirectionOpenTrades then r.sameDirectionOpenTrades[signal.direction] else 0
  }

  predicate OverLimit(value: real, limit: Option<real>) {
    limit.Some? && value > limit.value
  }

  datatype Refusal = Refusal(status: PlanStatus, reason: Reason)

  function Reject(reason: Reason): Option<Refusal> {
    Some(Refusal(REJECTED, reason))
  }

  function Defer(reason: Reason): Option<Refusal> {
    Some(Refusal(DEFERRED, reason))
  }

  /** The gates on customer, executor, account and adapter, in order. */
  function AccessGate(signal: Signal, slot: Slot, caps: Registry): (r: Option<Refusal>)
    ensures r.None? ==> slot.account.platform in caps
  {
    var c, e, a := slot.customer, slot.executor, slot.account;
    if c.eligible == Some(false) then Reject(CustomerNotEligible)
    else if !c.pkg.active then Reject(PackageInactive)
    else if c.pkg.subscriptionValid == Some(false) then Reject(SubscriptionInvalid)
    else if c.pkg.signalOnly then Reject(SignalOnlyCustomer)
    else if !e.approval.ApprovedExecutor? then Reject(ExecutorNotApproved)
    else if e.state.Paused? then Defer(ExecutorPaused)
    else if e.state.Disabled? then Reject(ExecutorDisabled)
    else if !a.enabled then Reject(AccountDisabled)
    else if !a.health.Healthy? then Defer(AccountHealthNotHealthy)
    else if a.platform !in caps then Reject(UnsupportedPlatform)
    else if caps[a.platform].available == Some(false) then Defer(AdapterUnavailable)
    else if OpenPosition !in caps[a.platform].supportedOrderTypes then Reject(AdapterCapabilityNotSupported)
    else if signal.market !in caps[a.platform].supportsMarket then Reject(PlatformMarketNotSupported)
    else if signal.market !in c.pkg.allowedMarkets || signal.market !in a.permissions.allowedMarkets then Reject(MarketNotAllowed)
    else if "*" !in a.permissions.allowedSymbols && signal.symbol !in a.permissions.allowedSymbols then Reject(SymbolNotAllowed)
    else None
  }

  /** The risk gates, in order. */
  function RiskGate(signal: Signal, r: Risk, permissions: Permissions, cap: Capability, now: int): Option<Refusal> {
    if r.riskAllowed == Some(false) then Reject(RiskNotAllowed)
    else if r.dailyLossLock then Reject(DailyLossLockActive)
    else if OverLimit(r.currentDrawdownPct.GetOr(0.0), r.maxDrawdownPct) then Reject(DrawdownLimitExceeded)
    else if r.usedDailyRiskPct + r.riskPerTradePct > r.maxDailyRiskPct then Reject(DailyRiskLimitExceeded)
    else if r.openTrades >= r.maxOpenTrades then Reject(MaxOpenTradesExceeded)
    else if SameSymbol(signal, r) >= r.maxSameSymbolTrades then Reject(MaxSameSymbolTradesExceeded)
    else if r.maxSameDirectionTrades.Some? && SameDirection(signal, r) >= r.maxSameDirectionTrades.value
      then Reject(MaxSameDirectionTradesExceeded)
    else if r.cooldownUntil.Some? && r.cooldownUntil.value > now then Defer(CooldownActive)
    else if Leverage(r, cap) < 1.0 || (!cap.supportsLeverage && r.maxLeverage > 1.0) || !permissions.leverageAllowed
      then Reject(LeverageNotSupported)
    else if OverLimit(r.currentExposureUsd.GetOr(0.0) + Quantity(signal, r) * signal.entryPrice, r.maxExposureUsd)
      then Reject(MaxExposureExceeded)
    else None
  }

  /** All gates before the duplicate test. */
  function Gate(signal: Signal, slot: Slot, caps: Registry, now: int): (r: Option<Refusal>)
    ensures r.None? ==> slot.account.platform in caps
  {
    var access := AccessGate(signal, slot, caps);
    if access.Some? then access
    else RiskGate(signal, slot.account.risk, slot.account.permissions, caps[slot.account.platform], now)
  }

  function PlannedCommand(signal: Signal, slot: Slot, cap: Capability, id: string, now: int): Command {
    var e := EntryFor(signal, slot);
    Command(
      id, signal.signalId, EntryKey(e), e.signalId, e.customerId, e.executorId, e.accountId,
      slot.account.adapterId.GetOr(PlatformName(e.adapterType)), e.adapterType, OpenPosition, INITIAL_ENTRY, Queued,
      Payload(signal.symbol, signal.market, signal.direction, signal.entryPrice, signal.stopLoss, signal.takeProfit,
              Quantity(signal, slot.account.risk), Leverage(slot.account.risk, cap)),
      now, now, 0, 100, None, None, None, None, None)
  }

  function SizingOf(signal: Signal, r: Risk, cap: Capability): Sizing {
    Sizing(r.riskPerTradePct, Quantity(signal, r) * signal.entryPrice, Quantity(signal, r), Leverage(r, cap))
  }

  function ApprovedPlan(signal: Signal, slot: Slot, cap: Capability, id: string, now: int): Plan {
    Plan(APPROVED, None, Some(SizingOf(signal, slot.account.risk, cap)), [PlannedCommand(signal, slot, cap, id, now)])
  }

  function MakePlan(signal: Signal, slot: Slot, caps: Registry, isDuplicate: string -> bool, id: string, now: int): Plan {
    var gate := Gate(signal, slot, caps, now);
    if gate.Some? then Plan(gate.value.status, Some(gate.value.reason), None, [])
    else if isDuplicate(EntryKey(EntryFor(signal, slot))) then
      Plan(REJECTED, Some(DuplicateSignalExecutionPrevented), None, [])
    else ApprovedPlan(signal, slot, caps[slot.account.platform], id, now)
  }

  // ---- What an approval means ----------------------------------------------------------------------------------

  /** A plan is approved iff no gate refuses and the entry is new; exactly then it carries a command, the planned one. */
  lemma ApprovedIff(signal: Signal, slot: Slot, caps: Registry, isDuplicate: string -> bool, id: string, now: int)
    ensures var p := MakePlan(signal, slot, caps, isDuplicate, id, now);
      && (p.status == APPROVED <==> Gate(signal, slot, caps, now).None? && !isDuplicate(EntryKey(EntryFor(signal, slot))))
      && |p.commands| == (if p.status == APPROVED then 1 else 0)
      && (p.status == APPROVED ==> Planned(p.commands[0]) && EntryOf(p.commands[0]) == EntryFor(signal, slot)
                                   && p.commands[0].commandId == id)
      && (p.status == APPROVED <==> p.reason.None?)
  {
  }

  // ---- Sizing and limits on the raw fields -----------------------------------------------------------------------

  /** The order's size by the amount at risk and the distance to the stop; without a stop, that of one percent. */
  function Units(signal: Signal, r: Risk): real {
    var hundredfoldRisk, entry := r.equityUsd * r.riskPerTradePct, signal.entryPrice;
    match signal.stopLoss
    case Some(stop) => if stop == entry then 0.0 else hundredfoldRisk / (100.0 * Abs(entry - stop))
    case None => if entry == 0.0 then 0.0 else hundredfoldRisk / Abs(entry)
  }

  function Times(x: real, y: real): real {
    x * y
  }

  lemma QuotientTimes(a: real, b: real)
    requires b > 0.0
    ensures Times(a / b, b) == a
  {
  }

  lemma TimesHundred(x: real, y: real)
    ensures Times(x, 100.0 * y) == 100.0 * Times(x, y)
  {
  }

  lemma TimesGrows(x: real, y: real, b: real)
    requires b > 0.0
    ensures x > y ==> Times(x, b) > Times(y, b)
  {
  }

  lemma TimesCancels(x: real, y: real, b: real)
    requires b > 0.0 && Times(x, b) == Times(y, b)
    ensures x == y
  {
    TimesGrows(x, y, b);
    TimesGrows(y, x, b);
  }

  lemma StopDistanceInPrices(signal: Signal)
    ensures match signal.stopLoss
            case Some(stop) => StopDistance(signal) == Abs(signal.entryPrice - stop)
            case None => 100.0 * StopDistance(signal) == Abs(signal.entryPrice)
  {
  }

  /** Units times the distance is the risk: both sides a hundredfold. */
  lemma UnitsRiskTheAmount(signal: Signal, r: Risk)
    ensures match signal.stopLoss
            case Some(stop) => stop != signal.entryPrice ==>
              100.0 * Times(Units(signal, r), Abs(signal.entryPrice - stop)) == r.equityUsd * r.riskPerTradePct
            case None => signal.entryPrice != 0.0 ==> Times(Units(signal, r), Abs(signal.entryPrice)) == r.equityUsd * r.riskPerTradePct
  {
    var e, hundredfoldRisk := signal.entryPrice, r.equityUsd * r.riskPerTradePct;
    match signal.stopLoss {
      case Some(stop) =>
        if stop != e {
          QuotientTimes(hundredfoldRisk, 100.0 * Abs(e - stop));
          TimesHundred(Units(signal, r), Abs(e - stop));
        }
      case None =>
        if e != 0.0 {
          QuotientTimes(hundredfoldRisk, Abs(e));
        }
    }
  }

  lemma HundredfoldRisk(r: Risk)
    ensures 100.0 * RiskAmount(r) == r.equityUsd * r.riskPerTradePct
  {
  }

  lemma UnitsByDistance(signal: Signal, r: Risk, d: real)
    requires d == StopDistance(signal) > 0.0
    ensures Times(Units(signal, r), d) == RiskAmount(r)
  {
    StopDistanceInPrices(signal);
    UnitsRiskTheAmount(signal, r);
    HundredfoldRisk(r);
    TimesHundred(Units(signal, r), d);
  }

  lemma QuantityIsUnits(signal: Signal, r: Risk)
    ensures Quantity(signal, r) == Units(signal, r)
  {
    var d := StopDistance(signal);
    StopDistanceInPrices(signal);
    if d > 0.0 {
      QuotientTimes(RiskAmount(r), d);
      UnitsByDistance(signal, r, d);
      TimesCancels(Quantity(signal, r), Units(signal, r), d);
    }
  }

  function OpenIn<K>(open: map<K, int>, k: K): int {
    if k in open.Keys then open[k] else 0
  }

  predicate AtMost(value: real, limit: Option<real>) {
    match limit
    case None => true
    case Some(most) => value <= most
  }

  // The conditions that stand, in the four stretches the passing ones cut them into.

  ghost predicate Entitled(slot: Slot) {
    var c := slot.customer;
    c.eligible != Some(false) && c.pkg.active && c.pkg.subscriptionValid != Some(false) && !c.pkg.signalOnly
    && slot.executor.approval.ApprovedExecutor?
  }

  ghost predicate InService(slot: Slot) {
    !slot.executor.state.Disabled? && slot.account.enabled
  }

  ghost predicate WithinLimits(signal: Signal, slot: Slot, cap: Capability) {
    var c, a, r := slot.customer, slot.account, slot.account.risk;
    && OpenPosition in cap.supportedOrderTypes && signal.market in cap.supportsMarket
    && signal.market in c.pkg.allowedMarkets && signal.market in a.permissions.allowedMarkets
    && ("*" in a.permissions.allowedSymbols || signal.symbol in a.permissions.allowedSymbols)
    && r.riskAllowed != Some(false) && !r.dailyLossLock
    && AtMost(r.currentDrawdownPct.GetOr(0.0), r.maxDrawdownPct)
    && r.usedDailyRiskPct + r.riskPerTradePct <= r.maxDailyRiskPct
    && r.openTrades < r.maxOpenTrades && OpenIn(r.sameSymbolOpenTrades, signal.symbol) < r.maxSameSymbolTrades
    && (r.maxSameDirectionTrades.Some? ==> OpenIn(r.sameDirectionOpenTrades, signal.direction) < r.maxSameDirectionTrades.value)
  }

  ghost predicate Affordable(signal: Signal, slot: Slot, cap: Capability) {
    var a, r := slot.account, slot.account.risk;
    && r.maxLeverage >= 1.0 && cap.maxLeverage >= 1.0 && (cap.supportsLeverage || r.maxLeverage == 1.0) && a.permissions.leverageAllowed
    && AtMost(r.currentExposureUsd.GetOr(0.0) + Units(signal, r) * signal.entryPrice, r.maxExposureUsd)
  }

  /** Nothing but a passing condition can refuse the slot. */
  ghost predicate Eligible(signal: Signal, slot: Slot, caps: Registry) {
    Entitled(slot) && InService(slot) && slot.account.platform in caps
    && WithinLimits(signal, slot, caps[slot.account.platform]) && Affordable(signal, slot, caps[slot.account.platform])
  }

  ghost predicate Cooling(slot: Slot, now: int) {
    slot.account.risk.cooldownUntil.Some? && slot.account.risk.cooldownUntil.value > now
  }

  /** No passing condition stands in the way. */
  ghost predicate Ready(slot: Slot, caps: Registry, now: int) {
    && !slot.executor.state.Paused? && slot.account.health.Healthy? && !Cooling(slot, now)
    && (slot.account.platform in caps ==> caps[slot.account.platform].available != Some(false))
  }

  /** A passing condition stands in the way before any other one does. */
  ghost predicate MustWait(signal: Signal, slot: Slot, caps: Registry, now: int) {
    && Entitled(slot)
    && (slot.executor.state.Paused?
        || (InService(slot)
            && (!slot.account.health.Healthy?
                || (slot.account.platform in caps
                    && (caps[slot.account.platform].available == Some(false)
                        || (WithinLimits(signal, slot, caps[slot.account.platform]) && Cooling(slot, now)))))))
  }

  lemma NotionalAlike(x: real, y: real, price: real)
    requires x == y
    ensures x * price == y * price
  {
  }

  /** All three verdicts: approved iff eligible, ready and new; deferred iff a passing condition comes first; else rejected. */
  lemma VerdictIff(signal: Signal, slot: Slot, caps: Registry, isDuplicate: string -> bool, id: string, now: int)
    ensures var p := MakePlan(signal, slot, caps, isDuplicate, id, now);
            var duplicate := isDuplicate(EntryKey(EntryFor(signal, slot)));
      && (p.status == APPROVED <==> Eligible(signal, slot, caps) && Ready(slot, caps, now) && !duplicate)
      && (p.status == DEFERRED <==> MustWait(signal, slot, caps, now))
      && (p.reason == Some(DuplicateSignalExecutionPrevented) <==> Eligible(signal, slot, caps) && Ready(slot, caps, now) && duplicate)
    ensures MustWait(signal, slot, caps, now) ==> !Ready(slot, caps, now)
    ensures Eligible(signal, slot, caps) && !Ready(slot, caps, now) ==> MustWait(signal, slot, caps, now)
  {
    QuantityIsUnits(signal, slot.account.risk);
    NotionalAlike(Quantity(signal, slot.account.risk), Units(signal, slot.account.risk), signal.entryPrice);
  }

  /** When a reason applies, whatever else may apply too. */
  ghost predicate Applies(reason: Reason, signal: Signal, slot: Slot, caps: Registry, isDuplicate: string -> bool, now: int) {
    var c, e, a, r := slot.customer, slot.executor, slot.account, slot.account.risk;
    var known := a.platform in caps;
    match reason
    case CustomerNotEligible => c.eligible == Some(false)
    case PackageInactive => !c.pkg.active
    case SubscriptionInvalid => c.pkg.subscriptionValid == Some(false)
    case SignalOnlyCustomer => c.pkg.signalOnly
    case ExecutorNotApproved => !e.approval.ApprovedExecutor?
    case ExecutorPaused => e.state.Paused?
    case ExecutorDisabled => e.state.Disabled?
    case AccountDisabled => !a.enabled
    case AccountHealthNotHealthy => !a.health.Healthy?
    case UnsupportedPlatform => !known
    case AdapterUnavailable => known && caps[a.platform].available == Some(false)
    case AdapterCapabilityNotSupported => known && OpenPosition !in caps[a.platform].supportedOrderTypes
    case PlatformMarketNotSupported => known && signal.market !in caps[a.platform].supportsMarket
    case MarketNotAllowed => !(signal.market in c.pkg.allowedMarkets && signal.market in a.permissions.allowedMarkets)
    case SymbolNotAllowed => !("*" in a.permissions.allowedSymbols || signal.symbol in a.permissions.allowedSymbols)
    case RiskNotAllowed => r.riskAllowed == Some(false)
    case DailyLossLockActive => r.dailyLossLock
    case DrawdownLimitExceeded => OverLimit(r.currentDrawdownPct.GetOr(0.0), r.maxDrawdownPct)
    case DailyRiskLimitExceeded => r.maxDailyRiskPct < r.usedDailyRiskPct + r.riskPerTradePct
    case MaxOpenTradesExceeded => r.maxOpenTrades <= r.openTrades
    case MaxSameSymbolTradesExceeded => r.maxSameSymbolTrades <= SameSymbol(signal, r)
    case MaxSameDirectionTradesExceeded => r.maxSameDirectionTrades.Some? && r.maxSameDirectionTrades.value <= SameDirection(signal, r)
    case CooldownActive => Cooling(slot, now)
    case LeverageNotSupported =>
      known && (r.maxLeverage < 1.0 || caps[a.platform].maxLeverage < 1.0 || !a.permissions.leverageAllowed
                || (!caps[a.platform].supportsLeverage && r.maxLeverage > 1.0))
    case MaxExposureExceeded => OverLimit(r.currentExposureUsd.GetOr(0.0) + Quantity(signal, r) * signal.entryPrice, r.maxExposureUsd)
    case DuplicateSignalExecutionPrevented => isDuplicate(EntryKey(EntryFor(signal, slot)))
  }

  /** The order in which reasons are given. */
  function Rank(reason: Reason): nat {
    match reason
    case CustomerNotEligible => 0
    case PackageInactive => 1
    case SubscriptionInvalid => 2
    case SignalOnlyCustomer => 3
    case ExecutorNotApproved => 4
    case ExecutorPaused => 5
    case ExecutorDisabled => 6
    case AccountDisabled => 7
    case AccountHealthNotHealthy => 8
    case UnsupportedPlatform => 9
    case AdapterUnavailable => 10
    case AdapterCapabilityNotSupported => 11
    case PlatformMarketNotSupported => 12
    case MarketNotAllowed => 13
    case SymbolNotAllowed => 14
    case RiskNotAllowed => 15
    case DailyLossLockActive => 16
    case DrawdownLimitExceeded => 17
    case DailyRiskLimitExceeded => 18
    case MaxOpenTradesExceeded => 19
    case MaxSameSymbolTradesExceeded => 20
    case MaxSameDirectionTradesExceeded => 21
    case CooldownActive => 22
    case LeverageNotSupported => 23
    case MaxExposureExceeded => 24
    case DuplicateSignalExecutionPrevented => 25
  }

  predicate Passes(reason: Reason) {
    reason.ExecutorPaused? || reason.AccountHealthNotHealthy? || reason.AdapterUnavailable? || reason.CooldownActive?
  }

  /** The refusal is for a reason that applies, with the verdict that goes with it. */
  ghost predicate Justified(f: Refusal, signal: Signal, slot: Slot, caps: Registry, isDuplicate: string -> bool, now: int) {
    Applies(f.reason, signal, slot, caps, isDuplicate, now) && f.status == if Passes(f.reason) then DEFERRED else REJECTED
  }

  lemma AccessIsJustified(signal: Signal, slot: Slot, caps: Registry, isDuplicate: string -> bool, now: int)
    ensures var f := AccessGate(signal, slot, caps);
            f.Some? ==> Rank(f.value.reason) < 15 && Justified(f.value, signal, slot, caps, isDuplicate, now)
  {
  }

  lemma RiskIsJustified(signal: Signal, slot: Slot, caps: Registry, isDuplicate: string -> bool, now: int)
    requires slot.account.platform in caps
    ensures var f := RiskGate(signal, slot.account.risk, slot.account.permissions, caps[slot.account.platform], now);
            f.Some? ==> 15 <= Rank(f.value.reason) < 25 && Justified(f.value, signal, slot, caps, isDuplicate, now)
  {
  }

  /** A reason that applies is the one given, unless an earlier one is. */
  lemma AccessRefuses(signal: Signal, slot: Slot, caps: Registry, isDuplicate: string -> bool, now: int, other: Reason)
    requires Rank(other) < 15 && Applies(other, signal, slot, caps, isDuplicate, now)
    ensures AccessGate(signal, slot, caps).Some? && Rank(AccessGate(signal, slot, caps).value.reason) <= Rank(other)
  {
  }

  lemma RiskRefuses(signal: Signal, slot: Slot, caps: Registry, isDuplicate: string -> bool, now: int, other: Reason)
    requires slot.account.platform in caps && 15 <= Rank(other) < 25 && Applies(other, signal, slot, caps, isDuplicate, now)
    ensures var f := RiskGate(signal, slot.account.risk, slot.account.permissions, caps[slot.account.platform], now);
            f.Some? && Rank(f.value.reason) <= Rank(other)
  {
  }

  lemma GateIsJustified(signal: Signal, slot: Slot, caps: Registry, isDuplicate: string -> bool, now: int)
    ensures var f := Gate(signal, slot, caps, now);
            f.Some? ==> Rank(f.value.reason) < 25 && Justified(f.value, signal, slot, caps, isDuplicate, now)
  {
    AccessIsJustified(signal, slot, caps, isDuplicate, now);
    if AccessGate(signal, slot, caps).None? {
      RiskIsJustified(signal, slot, caps, isDuplicate, now);
    }
  }

  lemma GateRefuses(signal: Signal, slot: Slot, caps: Registry, isDuplicate: string -> bool, now: int, other: Reason)
    requires Rank(other) < 25 && Applies(other, signal, slot, caps, isDuplicate, now)
    ensures Gate(signal, slot, caps, now).Some? && Rank(Gate(signal, slot, caps, now).value.reason) <= Rank(other)
  {
    AccessIsJustified(signal, slot, caps, isDuplicate, now);
    if Rank(other) < 15 {
      AccessRefuses(signal, slot, caps, isDuplicate, now, other);
    } else if AccessGate(signal, slot, caps).None? {
      RiskRefuses(signal, slot, caps, isDuplicate, now, other);
    }
  }

  /** The reason given applies and goes with the verdict: deferred iff the reason passes. */
  lemma ReasonIsJustified(signal: Signal, slot: Slot, caps: Registry, isDuplicate: string -> bool, id: string, now: int)
    ensures var p := MakePlan(signal, slot, caps, isDuplicate, id, now);
            p.reason.Some? ==> Justified(Refusal(p.status, p.reason.value), signal, slot, caps, isDuplicate, now)
  {
    GateIsJustified(signal, slot, caps, isDuplicate, now);
  }

  lemma OnlyDuplicateRanksLast(reason: Reason)
    ensures Rank(reason) < 25 || (reason == DuplicateSignalExecutionPrevented && Rank(reason) == 25)
  {
  }

  /** If any reason applies the plan is refused, for that reason or for one that ranks before it. */
  lemma ReasonIsFirst(signal: Signal, slot: Slot, caps: Registry, isDuplicate: string -> bool, id: string, now: int, other: Reason)
    requires Applies(other, signal, slot, caps, isDuplicate, now)
    ensures var p := MakePlan(signal, slot, caps, isDuplicate, id, now);
            p.status != APPROVED && p.reason.Some? && Rank(p.reason.value) <= Rank(other)
  {
    OnlyDuplicateRanksLast(other);
    GateIsJustified(signal, slot, caps, isDuplicate, now);
    if Rank(other) < 25 {
      GateRefuses(signal, slot, caps, isDuplicate, now, other);
    }
  }

  /** An approved plan respects every limit, risks the configured amount, and its command carries the sized order. */
  lemma {:induction false} ApprovedPlanIsSafe(
    signal: Signal, slot: Slot, caps: Registry, isDuplicate: string -> bool, id: string, now: int, p: Plan)
    requires p == MakePlan(signal, slot, caps, isDuplicate, id, now) && p.status == APPROVED
    ensures slot.account.platform in caps && p.sizing.Some? && |p.commands| == 1
    ensures var r, z, cap := slot.account.risk, p.sizing.value, caps[slot.account.platform];
      && 1.0 <= z.leverage <= r.maxLeverage && z.leverage <= cap.maxLeverage && z.leverage in {r.maxLeverage, cap.maxLeverage}
      && AtMost(r.currentExposureUsd.GetOr(0.0) + z.notionalUsd, r.maxExposureUsd)
      && z.quantity == Units(signal, r) && z.notionalUsd == z.quantity * signal.entryPrice
      && z.riskPct == r.riskPerTradePct && r.usedDailyRiskPct + z.riskPct <= r.maxDailyRiskPct
      && r.openTrades < r.maxOpenTrades && OpenIn(r.sameSymbolOpenTrades, signal.symbol) < r.maxSameSymbolTrades
      && (r.maxSameDirectionTrades.Some? ==> OpenIn(r.sameDirectionOpenTrades, signal.direction) < r.maxSameDirectionTrades.value)
      && AtMost(r.currentDrawdownPct.GetOr(0.0), r.maxDrawdownPct)
      && (r.cooldownUntil.Some? ==> r.cooldownUntil.value <= now)
    ensures p.commands[0].payload
         == Payload(signal.symbol, signal.market, signal.direction, signal.entryPrice, signal.stopLoss, signal.takeProfit,
                    p.sizing.value.quantity, p.sizing.value.leverage)
  {
    QuantityIsUnits(signal, slot.account.risk);
  }

  /** In money: a hundred times size times distance to the stop is equity times risk percent, and with no distance there is no size. */
  lemma {:induction false} ApprovedPlanRisksTheAmount(
    signal: Signal, slot: Slot, caps: Registry, isDuplicate: string -> bool, id: string, now: int, p: Plan)
    requires p == MakePlan(signal, slot, caps, isDuplicate, id, now) && p.status == APPROVED
    ensures p.sizing.Some?
    ensures var q, entry := p.sizing.value.quantity, signal.entryPrice;
            var hundredfoldRisk := slot.account.risk.equityUsd * slot.account.risk.riskPerTradePct;
            match signal.stopLoss
            case Some(stop) => if stop == entry then q == 0.0 else 100.0 * Times(q, Abs(entry - stop)) == hundredfoldRisk
            case None => if entry == 0.0 then q == 0.0 else Times(q, Abs(entry)) == hundredfoldRisk
  {
    ApprovedPlanIsSafe(signal, slot, caps, isDuplicate, id, now, p);
    UnitsRiskTheAmount(signal, slot.account.risk);
  }

  /** Who the command is for, where it goes, and when it was made. */
  lemma CommandIsAddressed(signal: Signal, slot: Slot, caps: Registry, isDuplicate: string -> bool, id: string, now: int)
    requires MakePlan(signal, slot, caps, isDuplicate, id, now).status == APPROVED
    ensures |MakePlan(signal, slot, caps, isDuplicate, id, now).commands| == 1
    ensures var c, a := MakePlan(signal, slot, caps, isDuplicate, id, now).commands[0], slot.account;
      && c.commandId == id && c.correlationId == c.signalId == signal.signalId
      && c.customerId == slot.customer.customerId && c.executorId == slot.executor.executorId && c.accountId == a.accountId
      && c.adapterType == a.platform && c.adapterId == (if a.adapterId.Some? then a.adapterId.value else PlatformName(a.platform))
      && c.action == OpenPosition && c.purpose == "initial_signal_entry" && c.status == Queued
      && c.createdAt == c.updatedAt == now && c.retryCount == 0 && c.priority == 100
      && c.leasedBy == None && c.leaseExpiration == None && c.retryAt == None && c.failureReason == None && c.failureCategory == None
  {
  }

  // ---- Limits are monotone -------------------------------------------------------------------------------------

  predicate LimitAtMost(a: Option<real>, b: Option<real>) {
    b.None? || (a.Some? && a.value <= b.value)
  }

  /** `tight` is `loose` with some of the six limits lowered; a missing limit counts as infinite. */
  ghost predicate Tightened(tight: Risk, loose: Risk) {
    && tight == loose.(maxDailyRiskPct := tight.maxDailyRiskPct, maxOpenTrades := tight.maxOpenTrades,
                       maxSameSymbolTrades := tight.maxSameSymbolTrades, maxSameDirectionTrades := tight.maxSameDirectionTrades,
                       maxExposureUsd := tight.maxExposureUsd, maxDrawdownPct := tight.maxDrawdownPct)
    && tight.maxDailyRiskPct <= loose.maxDailyRiskPct
    && tight.maxOpenTrades <= loose.maxOpenTrades
    && tight.maxSameSymbolTrades <= loose.maxSameSymbolTrades
    && (loose.maxSameDirectionTrades.None?
        || (tight.maxSameDirectionTrades.Some? && tight.maxSameDirectionTrades.value <= loose.maxSameDirectionTrades.value))
    && LimitAtMost(tight.maxExposureUsd, loose.maxExposureUsd)
    && LimitAtMost(tight.maxDrawdownPct, loose.maxDrawdownPct)
  }

  lemma TighterRiskGate(signal: Signal, tight: Risk, loose: Risk, permissions: Permissions, cap: Capability, now: int)
    requires Tightened(tight, loose) && RiskGate(signal, tight, permissions, cap, now).None?
    ensures RiskGate(signal, loose, permissions, cap, now).None?
  {
  }

  lemma SameStakeSameSizing(signal: Signal, r: Risk, q: Risk, cap: Capability)
    requires r.equityUsd == q.equityUsd && r.riskPerTradePct == q.riskPerTradePct && r.maxLeverage == q.maxLeverage
    ensures Quantity(signal, r) == Quantity(signal, q) && SizingOf(signal, r, cap) == SizingOf(signal, q, cap)
  {
    assert RiskAmount(r) == RiskAmount(q);
    var a, b := Quantity(signal, r), Quantity(signal, q);
    assert a == b;
    assert a * signal.entryPrice == b * signal.entryPrice;
  }

  /** Lowering limits never turns a refused plan into an approved one, and never changes a plan that stays approved. */
  lemma LoweringLimitsNeverApproves(
    signal: Signal, slot: Slot, tight: Risk, caps: Registry, isDuplicate: string -> bool, id: string, now: int)
    requires Tightened(tight, slot.account.risk)
    ensures var before := MakePlan(signal, slot, caps, isDuplicate, id, now);
            var after := MakePlan(signal, slot.(account := slot.account.(risk := tight)), caps, isDuplicate, id, now);
            after.status == APPROVED ==> before.status == APPROVED && after == before
  {
    var s := slot.(account := slot.account.(risk := tight));
    assert AccessGate(signal, s, caps) == AccessGate(signal, slot, caps);
    if Gate(signal, s, caps, now).None? {
      TighterRiskGate(signal, tight, slot.account.risk, slot.account.permissions, caps[slot.account.platform], now);
      var loose := slot.account.risk;
      assert tight.equityUsd == loose.equityUsd && tight.riskPerTradePct == loose.riskPerTradePct && tight.maxLeverage == loose.maxLeverage;
      assert EntryFor(signal, s) == EntryFor(signal, slot);
      var cap := caps[slot.account.platform];
      SameStakeSameSizing(signal, tight, loose, cap);
      assert PlannedCommand(signal, s, cap, id, now) == PlannedCommand(signal, slot, cap, id, now);
    }
  }
}
