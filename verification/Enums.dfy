/** The vocabulary shared by every layer: statuses, sides, modes and lifecycle states. */
module Enums {

  datatype Option<+T> = None | Some(value: T) {
    function GetOr(default: T): T {
      match this
      case Some(v) => v
      case None => default
    }
  }

  datatype TradingMode = Disabled | Mock | Paper | Live {
    predicate UsesIbkr() { Paper? || Live? }
  }

  datatype AccountType = Unknown | Simulated | PaperAccount | LiveAccount

  datatype ConnectionState = Disconnected | Connecting | Connected | Reconnecting | Failed

  datatype AppState = Starting | Offline | Dialing | Reconciling | Safe | Ready | Halted | Faulted

  datatype OrderSide = Buy | Sell {
    function Sign(): int { if Buy? then 1 else -1 }
  }

  datatype OrderType = Market | Limit | Stop | StopLimit | Bracket {
    predicate Transmittable() { Market? || Limit? }
  }

  datatype OrderStatus =
    | New | Blocked | PendingSubmit | Submitted | Acknowledged | PartiallyFilled | Filled
    | CancelPending | Cancelled | Rejected | Error
  {
    predicate IsOpen() {
      PendingSubmit? || Submitted? || Acknowledged? || PartiallyFilled? || CancelPending?
    }

    predicate IsTerminal() { Blocked? || Filled? || Cancelled? || Rejected? || Error? }

    predicate ReachedBroker() { !New? && !Blocked? }
  }

  /** The status an IBKR status string is stored as; an unmapped string is an error. */
  function FromIbStatus(status: string): OrderStatus {
    if status == "PendingSubmit" then PendingSubmit
    else if status == "PendingCancel" then CancelPending
    else if status == "PreSubmitted" then Submitted
    else if status == "Submitted" then Acknowledged
    else if status == "ApiCancelled" || status == "Cancelled" then Cancelled
    else if status == "Filled" then Filled
    else if status == "Inactive" then Rejected
    else Error
  }

  /** Every status is New, open or terminal, and never two of the three. */
  lemma StatusPartition(s: OrderStatus)
    ensures s.New? || s.IsOpen() || s.IsTerminal()
    ensures !(s.IsOpen() && s.IsTerminal()) && !(s.New? && (s.IsOpen() || s.IsTerminal()))
    ensures s.IsOpen() ==> s.ReachedBroker()
  {}

  /** Which statuses are open, which are over, and which mean that the broker was never asked. */
  lemma StatusesAre(s: OrderStatus)
    ensures s.IsOpen() <==> s in {PendingSubmit, Submitted, Acknowledged, PartiallyFilled, CancelPending}
    ensures s.IsTerminal() <==> s in {Blocked, Filled, Cancelled, Rejected, Error}
    ensures !s.ReachedBroker() <==> s in {New, Blocked}
  {}

  /** What each status string of the broker is stored as, and that any other is an error. */
  lemma StatusStringsAre(text: string)
    ensures FromIbStatus("PendingSubmit") == PendingSubmit && FromIbStatus("PendingCancel") == CancelPending
    ensures FromIbStatus("PreSubmitted") == Submitted && FromIbStatus("Submitted") == Acknowledged
    ensures FromIbStatus("ApiCancelled") == FromIbStatus("Cancelled") == Cancelled
    ensures FromIbStatus("Filled") == Filled && FromIbStatus("Inactive") == Rejected
    ensures FromIbStatus(text) == Error <==>
              text !in ["PendingSubmit", "PendingCancel", "PreSubmitted", "Submitted", "ApiCancelled", "Cancelled", "Filled", "Inactive"]
  {
    assert "PreSubmitted"[2] == 'e' && "PendingSubmit"[3] == 'd' && "PendingCancel"[7] == 'C' && "PendingSubmit"[7] == 'S';
  }

  /** Why an approver refused; one per reason string of the source. */
  datatype Reason =
    | MaxOrderSizeNotConfigured | MaxOrderSizeExceeded | MaxPositionContractsNotConfigured
    | MaxPositionContractsExceeded | MaxDailyLossUsdNotConfigured | MaxDailyLossUsdExceeded
    | MaxOrdersPerHourNotConfigured | MaxOrdersPerHourExceeded | MaxOpenOrdersNotConfigured
    | MaxOpenOrdersExceeded | MaxNotionalExposureUsdNotConfigured | NotionalExposureNotComputable
    | MaxNotionalExposureUsdExceeded | KillSwitchEngaged | OrderTransmitNotAllowed | TradingModeDisabled
    | StrategyDisabled | ApplicationNotReady | BrokerNotConnected | PositionsNotReconciled
    | OpenOrdersNotReconciled | AccountDataUnavailable | BrokerAccountTypeUnknown
    | TradingModeAccountTypeMismatch | ContractNotQualified | MarketDataMaxAgeNotConfigured
    | MarketDataUnavailable | MarketDataTimestampInFuture | MarketDataStale | SolFuturesPermissionNotReady
    | TradingPermissionUnavailableAtBroker | DuplicateOrderForSignal | OrderQuantityInvalid
    | LiveTradingNotEnabled | AccountTypeMismatchExpectedLive | AccountTypeMismatchExpectedPaper
    | AccountTypeMismatchExpectedSimulated | ContractIsContinuousFuture | MarketDataIsDelayed
    | SolFuturesPermissionNotConfiguredReady | RiskChecksNotPassed | SignalSymbolNotSupported
    | SignalSymbolNotConfiguredInstrument | SignalFromUnknownStrategy | SignalTimestampInFuture
    | SignalTimestampStale | SignalRequestedPositionUnreasonable | DuplicateSignal | OrderTypeNotTransmitted
}
