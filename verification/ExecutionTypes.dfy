/** The records of the v2 execution core (v2/src/execution-core/types.ts). Instants are integer milliseconds. */
module ExecutionTypes {
  import opened Common

  datatype Platform = Binance | Bybit | MT5 | Mock
  datatype Market = Crypto | Forex | Indices | Commodities
  datatype Direction = LONG | SHORT

  datatype Action =
    OpenPosition | MoveStopLoss | MoveTakeProfit | Synchronize | PartialClose | StartTrailing | RepairProtection | SafeClose

  datatype Status =
    Queued | Leased | Started | Sent | Acknowledged | Completed | Verified | Failed | RetryScheduled | DeadLettered | Expired

  datatype Category =
    Transient | Permanent | Authentication | RateLimit | Network | ExchangeRejected | Duplicate
    | VerificationFailed | ProtectionFailed | ManualInterventionRequired

  datatype Payload = Payload(
    symbol: string, market: Market, direction: Direction, entryPrice: real,
    stopLoss: Option<real>, takeProfit: Option<real>, quantity: real, leverage: real)

  datatype Command = Command(
    commandId: string, correlationId: string, idempotencyKey: string,
    signalId: string, customerId: string, executorId: string, accountId: string,
    adapterId: string, adapterType: Platform, action: Action, purpose: string,
    status: Status, payload: Payload, createdAt: int, updatedAt: int, retryCount: nat, priority: int,
    leaseExpiration: Option<int>, leasedBy: Option<string>, retryAt: Option<int>,
    failureReason: Option<string>, failureCategory: Option<Category>)

  /** The part of a command that no queue operation may ever touch. */
  function Core(c: Command): Command {
    c.(status := Queued, updatedAt := 0, retryCount := 0, leaseExpiration := None, leasedBy := None,
       retryAt := None, failureReason := None, failureCategory := None)
  }

  function IdOf(c: Command): string {
    c.commandId
  }

  function KeyOf(c: Command): string {
    c.idempotencyKey
  }

  datatype EventType =
    ExecutionPlanningStarted | ExecutionPlanningCompleted | ExecutionPlanApproved | ExecutionPlanDeferred
    | ExecutionPlanRejected | CommandQueued | CommandLeased | CommandStarted | CommandSent | CommandAcknowledged
    | CommandVerified | CommandCompleted | CommandFailed | CommandRetried | CommandExpired
    | CommandDuplicatePrevented | ExecutionStarted | ExecutionCompleted | ExecutionRecovered

  datatype Event = Event(sequence: int, kind: EventType, timestamp: int)
}
