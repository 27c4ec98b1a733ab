/** Configuration and the few external facts the approvers judge. Decimal and float are `real`. */
module Configuration {
  import opened Enums

  /** Hard numeric ceilings; zero means "not configured", which never permits. */
  datatype RiskLimits = RiskLimits(
    maxPosition: int, maxOrderSize: int, maxDailyLoss: real,
    maxOrdersPerHour: int, maxOpenOrders: int, maxNotional: real)

  datatype Config = Config(
    mode: TradingMode, allowTransmit: bool, liveEnabled: bool, killSwitch: bool, permissionReady: bool,
    symbol: string, strategy: string, strategyEnabled: bool, limits: RiskLimits, maxQuoteAge: real)

  /** A resolved contract. Only dated futures become one, so asking whether it is continuous always says no. */
  datatype QualifiedContract = QualifiedContract(conId: int, symbol: string, localSymbol: string, multiplier: real) {
    /** What the type of a confirmed contract answers; the approvers ask all the same. */
    predicate IsContinuous() { false }

    function Notional(quantity: int, price: real): real {
      (if quantity < 0 then -quantity else quantity) as real * multiplier * price
    }
  }

  function ExpectedAccount(mode: TradingMode): Option<AccountType> {
    match mode
    case Mock => Some(Simulated)
    case Paper => Some(PaperAccount)
    case Live => Some(LiveAccount)
    case Disabled => None
  }

  /** The account a mode may trade on: the simulated one, a paper one or a live one, and none in disabled mode. */
  ghost predicate AccountFits(mode: TradingMode, account: AccountType) {
    || (mode.Mock? && account.Simulated?)
    || (mode.Paper? && account.PaperAccount?)
    || (mode.Live? && account.LiveAccount?)
  }

  function When(b: bool, reason: Reason): seq<Reason> { if b then [reason] else [] }
}
