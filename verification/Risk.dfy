/** The risk manager: every control is checked, every failing one is reported. */
module Risk {
  import opened Enums
  import opened Configuration

  /** Everything the risk manager needs to know about one proposed order. */
  datatype RiskContext = RiskContext(
    side: OrderSide, quantity: int, currentPosition: int,
    contract: Option<QualifiedContract>, referencePrice: Option<real>, quoteAge: Option<real>,
    dailyPnl: real, openOrders: int, ordersLastHour: int,
    appState: AppState, connection: ConnectionState, account: AccountType,
    accountAvailable: bool, positionsReconciled: bool, ordersReconciled: bool,
    permissionReady: bool, strategyEnabled: bool, killSwitch: bool, duplicate: bool)
  {
    function ProjectedPosition(): int { currentPosition + quantity * side.Sign() }
  }

  datatype Decision = Decision(approved: bool, reasons: seq<Reason>)

  // ----- numeric limits -----

  function CheckOrderSize(l: RiskLimits, quantity: int): Option<Reason> {
    if l.maxOrderSize <= 0 then Some(MaxOrderSizeNotConfigured)
    else if (if quantity < 0 then -quantity else quantity) > l.maxOrderSize then Some(MaxOrderSizeExceeded)
    else None
  }

  function CheckPosition(l: RiskLimits, projected: int): Option<Reason> {
    if l.maxPosition <= 0 then Some(MaxPositionContractsNotConfigured)
    else if (if projected < 0 then -projected else projected) > l.maxPosition then Some(MaxPositionContractsExceeded)
    else None
  }

  function CheckDailyLoss(l: RiskLimits, pnl: real): Option<Reason> {
    if l.maxDailyLoss <= 0.0 then Some(MaxDailyLossUsdNotConfigured)
    else if pnl <= -l.maxDailyLoss then Some(MaxDailyLossUsdExceeded)
    else None
  }

  function CheckOrdersPerHour(l: RiskLimits, lastHour: int): Option<Reason> {
    if l.maxOrdersPerHour <= 0 then Some(MaxOrdersPerHourNotConfigured)
    else if lastHour >= l.maxOrdersPerHour then Some(MaxOrdersPerHourExceeded)
    else None
  }

  function CheckOpenOrders(l: RiskLimits, open: int): Option<Reason> {
    if l.maxOpenOrders <= 0 then Some(MaxOpenOrdersNotConfigured)
    else if open >= l.maxOpenOrders then Some(MaxOpenOrdersExceeded)
    else None
  }

  function CheckNotional(l: RiskLimits, contract: Option<QualifiedContract>, projected: int, price: Option<real>): Option<Reason> {
    if l.maxNotional <= 0.0 then Some(MaxNotionalExposureUsdNotConfigured)
    else if contract.None? || price.None? || price.value <= 0.0 then Some(NotionalExposureNotComputable)
    else if contract.value.Notional(projected, price.value) > l.maxNotional then Some(MaxNotionalExposureUsdExceeded)
    else None
  }

  /** What approval means: every limit is configured and respected. */
  ghost predicate WithinLimits(l: RiskLimits, c: RiskContext) {
    && c.quantity > 0
    && 0 < l.maxOrderSize && c.quantity <= l.maxOrderSize
    && 0 < l.maxPosition && -l.maxPosition <= c.ProjectedPosition() <= l.maxPosition
    && c.ProjectedPosition() == c.currentPosition + (if c.side.Buy? then c.quantity else -c.quantity)
    && 0.0 < l.maxDailyLoss && -l.maxDailyLoss < c.dailyPnl
    && 0 < l.maxOrdersPerHour && c.ordersLastHour < l.maxOrdersPerHour
    && 0 < l.maxOpenOrders && c.openOrders < l.maxOpenOrders
    && 0.0 < l.maxNotional && c.contract.Some? && c.referencePrice.Some? && 0.0 < c.referencePrice.value
    && (if c.ProjectedPosition() < 0 then -c.ProjectedPosition() else c.ProjectedPosition()) as real
         * c.contract.value.multiplier * c.referencePrice.value <= l.maxNotional
  }

  /** What approval means: the switches are on and nothing about the system is in doubt. */
  ghost predicate SystemInOrder(config: Config, c: RiskContext) {
    && !c.killSwitch && !config.killSwitch && config.allowTransmit && !config.mode.Disabled?
    && config.strategyEnabled && c.strategyEnabled
    && c.appState.Ready? && c.connection.Connected? && c.positionsReconciled && c.ordersReconciled
    && c.accountAvailable && AccountFits(config.mode, c.account)
    && c.contract.Some? && c.contract.value.conId > 0 && !c.contract.value.IsContinuous()
    && config.maxQuoteAge > 0.0 && c.quoteAge.Some? && 0.0 <= c.quoteAge.value <= config.maxQuoteAge
    && (config.mode.UsesIbkr() ==> config.permissionReady) && c.permissionReady
    && !c.duplicate
  }

  // ----- the reasons each control contributes, in the order they are checked -----

  function MasterReasons(config: Config, c: RiskContext): seq<Reason> {
    When(c.killSwitch || config.killSwitch, KillSwitchEngaged)
    + When(!config.allowTransmit, OrderTransmitNotAllowed)
    + When(config.mode.Disabled?, TradingModeDisabled)
    + When(!(config.strategyEnabled && c.strategyEnabled), StrategyDisabled)
  }

  function SystemReasons(c: RiskContext): seq<Reason> {
    When(!c.appState.Ready?, ApplicationNotReady)
    + When(!c.connection.Connected?, BrokerNotConnected)
    + When(!c.positionsReconciled, PositionsNotReconciled)
    + When(!c.ordersReconciled, OpenOrdersNotReconciled)
  }

  function AccountReasons(config: Config, c: RiskContext): seq<Reason> {
    When(!c.accountAvailable, AccountDataUnavailable)
    + if c.account.Unknown? then [BrokerAccountTypeUnknown]
      else
        var expected := ExpectedAccount(config.mode);
        When(expected.Some? && c.account != expected.value, TradingModeAccountTypeMismatch)
  }

  function ContractReasons(c: RiskContext): seq<Reason> {
    match c.contract
    case None => [ContractNotQualified]
    case Some(contract) =>
      When(contract.IsContinuous(), ContractIsContinuousFuture) + When(contract.conId <= 0, ContractNotQualified)
  }

  function MarketDataReasons(config: Config, c: RiskContext): seq<Reason> {
    When(config.maxQuoteAge <= 0.0, MarketDataMaxAgeNotConfigured)
    + if c.quoteAge.None? then [MarketDataUnavailable]
      else if c.quoteAge.value < 0.0 then [MarketDataTimestampInFuture]
      else When(config.maxQuoteAge > 0.0 && c.quoteAge.value > config.maxQuoteAge, MarketDataStale)
  }

  function PermissionReasons(config: Config, c: RiskContext): seq<Reason> {
    When(config.mode.UsesIbkr() && !config.permissionReady, SolFuturesPermissionNotReady)
    + When(!c.permissionReady, TradingPermissionUnavailableAtBroker)
  }

  function DuplicateReasons(c: RiskContext): seq<Reason> { When(c.duplicate, DuplicateOrderForSignal) }

  function Limits(l: RiskLimits, c: RiskContext): seq<Option<Reason>> {
    [ CheckOrderSize(l, c.quantity),
      CheckPosition(l, c.ProjectedPosition()),
      CheckDailyLoss(l, c.dailyPnl),
      CheckOrdersPerHour(l, c.ordersLastHour),
      CheckOpenOrders(l, c.openOrders),
      CheckNotional(l, c.contract, c.ProjectedPosition(), c.referencePrice) ]
  }

  function Found(checks: seq<Option<Reason>>): seq<Reason> {
    if checks == [] then []
    else Found(checks[..|checks| - 1])
         + if checks[|checks| - 1].Some? then [checks[|checks| - 1].value] else []
  }

  function LimitReasons(config: Config, c: RiskContext): seq<Reason> {
    When(c.quantity <= 0, OrderQuantityInvalid) + Found(Limits(config.limits, c))
  }

  function ControlReasons(config: Config, c: RiskContext): seq<Reason> {
    MasterReasons(config, c) + SystemReasons(c) + AccountReasons(config, c) + ContractReasons(c)
    + MarketDataReasons(config, c) + PermissionReasons(config, c) + DuplicateReasons(c)
  }

  function RiskReasons(config: Config, c: RiskContext): seq<Reason> {
    ControlReasons(config, c) + LimitReasons(config, c)
  }

  lemma {:induction false} FoundNothing(checks: seq<Option<Reason>>)
    ensures Found(checks) == [] <==> forall i :: 0 <= i < |checks| ==> checks[i].None?
  {
    if checks != [] {
      var init, last := checks[..|checks| - 1], checks[|checks| - 1];
      FoundNothing(init);
      assert checks == init + [last];
      assert Found(checks) == [] <==> Found(init) == [] && last.None?;
    }
  }

  lemma NoLimitReasons(config: Config, c: RiskContext)
    ensures LimitReasons(config, c) == [] <==> WithinLimits(config.limits, c)
  {
    var checks := Limits(config.limits, c);
    FoundNothing(checks);
    assert (forall i :: 0 <= i < |checks| ==> checks[i].None?) <==>
      checks[0].None? && checks[1].None? && checks[2].None? && checks[3].None? && checks[4].None? && checks[5].None?;
  }

  /** Risk approves exactly when the system is in order and every limit is configured and respected. */
  lemma RiskApprovesExactly(config: Config, c: RiskContext)
    ensures RiskReasons(config, c) == [] <==> SystemInOrder(config, c) && WithinLimits(config.limits, c)
  {
    NoLimitReasons(config, c);
    assert ControlReasons(config, c) == [] <==>
      && MasterReasons(config, c) == [] && SystemReasons(c) == [] && AccountReasons(config, c) == []
      && ContractReasons(c) == [] && MarketDataReasons(config, c) == [] && PermissionReasons(config, c) == []
      && DuplicateReasons(c) == [];
  }

  /** What the reason of each control means. */
  ghost predicate FailsControl(config: Config, c: RiskContext, r: Reason) {
    match r
    case KillSwitchEngaged => c.killSwitch || config.killSwitch
    case OrderTransmitNotAllowed => !config.allowTransmit
    case TradingModeDisabled => config.mode.Disabled?
    case StrategyDisabled => !config.strategyEnabled || !c.strategyEnabled
    case ApplicationNotReady => !c.appState.Ready?
    case BrokerNotConnected => !c.connection.Connected?
    case PositionsNotReconciled => !c.positionsReconciled
    case OpenOrdersNotReconciled => !c.ordersReconciled
    case AccountDataUnavailable => !c.accountAvailable
    case BrokerAccountTypeUnknown => c.account.Unknown?
    case TradingModeAccountTypeMismatch =>
      !c.account.Unknown? && !config.mode.Disabled? && !AccountFits(config.mode, c.account)
    case ContractNotQualified => c.contract.None? || c.contract.value.conId <= 0
    case MarketDataMaxAgeNotConfigured => config.maxQuoteAge <= 0.0
    case MarketDataUnavailable => c.quoteAge.None?
    case MarketDataTimestampInFuture => c.quoteAge.Some? && c.quoteAge.value < 0.0
    case MarketDataStale => c.quoteAge.Some? && 0.0 < config.maxQuoteAge < c.quoteAge.value
    case SolFuturesPermissionNotReady => (config.mode.Paper? || config.mode.Live?) && !config.permissionReady
    case TradingPermissionUnavailableAtBroker => !c.permissionReady
    case DuplicateOrderForSignal => c.duplicate
    case _ => false
  }

  /** What the reason of each limit means, for an order that would take the position to `projected`. */
  ghost predicate FailsLimit(l: RiskLimits, c: RiskContext, r: Reason) {
    var projected := c.currentPosition + (if c.side.Buy? then c.quantity else -c.quantity);
    match r
    case OrderQuantityInvalid => c.quantity <= 0
    case MaxOrderSizeNotConfigured => l.maxOrderSize <= 0
    case MaxOrderSizeExceeded => l.maxOrderSize > 0 && !(-l.maxOrderSize <= c.quantity <= l.maxOrderSize)
    case MaxPositionContractsNotConfigured => l.maxPosition <= 0
    case MaxPositionContractsExceeded => l.maxPosition > 0 && !(-l.maxPosition <= projected <= l.maxPosition)
    case MaxDailyLossUsdNotConfigured => l.maxDailyLoss <= 0.0
    case MaxDailyLossUsdExceeded => l.maxDailyLoss > 0.0 && c.dailyPnl <= -l.maxDailyLoss
    case MaxOrdersPerHourNotConfigured => l.maxOrdersPerHour <= 0
    case MaxOrdersPerHourExceeded => 0 < l.maxOrdersPerHour <= c.ordersLastHour
    case MaxOpenOrdersNotConfigured => l.maxOpenOrders <= 0
    case MaxOpenOrdersExceeded => 0 < l.maxOpenOrders <= c.openOrders
    case MaxNotionalExposureUsdNotConfigured => l.maxNotional <= 0.0
    case NotionalExposureNotComputable =>
      l.maxNotional > 0.0 && (c.contract.None? || c.referencePrice.None? || c.referencePrice.value <= 0.0)
    case MaxNotionalExposureUsdExceeded =>
      && l.maxNotional > 0.0 && c.contract.Some? && c.referencePrice.Some? && c.referencePrice.value > 0.0
      && (if projected < 0 then -projected else projected) as real
         * c.contract.value.multiplier * c.referencePrice.value > l.maxNotional
    case _ => false
  }

  lemma {:induction false} FoundAre(checks: seq<Option<Reason>>, r: Reason)
    ensures r in Found(checks) <==> Some(r) in checks
  {
    if checks != [] {
      FoundAre(checks[..|checks| - 1], r);
      assert checks == checks[..|checks| - 1] + [checks[|checks| - 1]];
    }
  }

  lemma SystemLists(config: Config, c: RiskContext, r: Reason)
    ensures r in MasterReasons(config, c) <==>
              || (r.KillSwitchEngaged? && (c.killSwitch || config.killSwitch)) || (r.OrderTransmitNotAllowed? && !config.allowTransmit)
              || (r.TradingModeDisabled? && config.mode.Disabled?)
              || (r.StrategyDisabled? && (!config.strategyEnabled || !c.strategyEnabled))
    ensures r in SystemReasons(c) <==>
              || (r.ApplicationNotReady? && !c.appState.Ready?) || (r.BrokerNotConnected? && !c.connection.Connected?)
              || (r.PositionsNotReconciled? && !c.positionsReconciled) || (r.OpenOrdersNotReconciled? && !c.ordersReconciled)
  {}

  lemma AccountLists(config: Config, c: RiskContext, r: Reason)
    ensures r in AccountReasons(config, c) <==>
              || (r.AccountDataUnavailable? && !c.accountAvailable) || (r.BrokerAccountTypeUnknown? && c.account.Unknown?)
              || (r.TradingModeAccountTypeMismatch? && !c.account.Unknown? && !config.mode.Disabled? && !AccountFits(config.mode, c.account))
    ensures r in ContractReasons(c) <==> r.ContractNotQualified? && (c.contract.None? || c.contract.value.conId <= 0)
  {}

  lemma EvidenceLists(config: Config, c: RiskContext, r: Reason)
    ensures r in MarketDataReasons(config, c) <==>
              || (r.MarketDataMaxAgeNotConfigured? && config.maxQuoteAge <= 0.0) || (r.MarketDataUnavailable? && c.quoteAge.None?)
              || (r.MarketDataTimestampInFuture? && c.quoteAge.Some? && c.quoteAge.value < 0.0)
              || (r.MarketDataStale? && c.quoteAge.Some? && 0.0 < config.maxQuoteAge < c.quoteAge.value)
    ensures r in PermissionReasons(config, c) <==>
              || (r.SolFuturesPermissionNotReady? && (config.mode.Paper? || config.mode.Live?) && !config.permissionReady)
              || (r.TradingPermissionUnavailableAtBroker? && !c.permissionReady)
    ensures r in DuplicateReasons(c) <==> r.DuplicateOrderForSignal? && c.duplicate
  {}

  lemma LimitsList(config: Config, c: RiskContext, r: Reason)
    ensures r in LimitReasons(config, c) <==>
              || (c.quantity <= 0 && r == OrderQuantityInvalid)
              || Some(r) == CheckOrderSize(config.limits, c.quantity) || Some(r) == CheckPosition(config.limits, c.ProjectedPosition())
              || Some(r) == CheckDailyLoss(config.limits, c.dailyPnl) || Some(r) == CheckOrdersPerHour(config.limits, c.ordersLastHour)
              || Some(r) == CheckOpenOrders(config.limits, c.openOrders)
              || Some(r) == CheckNotional(config.limits, c.contract, c.ProjectedPosition(), c.referencePrice)
  {
    hide CheckOrderSize, CheckPosition, CheckDailyLoss, CheckOrdersPerHour, CheckOpenOrders, CheckNotional, RiskContext.ProjectedPosition;
    FoundAre(Limits(config.limits, c), r);
  }

  lemma ControlParts(config: Config, c: RiskContext, r: Reason)
    ensures r in ControlReasons(config, c) <==>
              || r in MasterReasons(config, c) || r in SystemReasons(c) || r in AccountReasons(config, c) || r in ContractReasons(c)
              || r in MarketDataReasons(config, c) || r in PermissionReasons(config, c) || r in DuplicateReasons(c)
  {
    hide MasterReasons, SystemReasons, AccountReasons, ContractReasons, MarketDataReasons, PermissionReasons, DuplicateReasons;
  }

  lemma ControlListed(config: Config, c: RiskContext, r: Reason)
    ensures r in ControlReasons(config, c) <==> FailsControl(config, c, r)
  {
    hide MasterReasons, SystemReasons, AccountReasons, ContractReasons, MarketDataReasons, PermissionReasons, DuplicateReasons;
    hide ControlReasons, AccountFits;
    ControlParts(config, c, r);
    SystemLists(config, c, r);
    AccountLists(config, c, r);
    EvidenceLists(config, c, r);
  }

  lemma SizesCheck(l: RiskLimits, quantity: int, projected: int, r: Reason)
    ensures Some(r) == CheckOrderSize(l, quantity) <==>
              || (r.MaxOrderSizeNotConfigured? && l.maxOrderSize <= 0)
              || (r.MaxOrderSizeExceeded? && l.maxOrderSize > 0 && !(-l.maxOrderSize <= quantity <= l.maxOrderSize))
    ensures Some(r) == CheckPosition(l, projected) <==>
              || (r.MaxPositionContractsNotConfigured? && l.maxPosition <= 0)
              || (r.MaxPositionContractsExceeded? && l.maxPosition > 0 && !(-l.maxPosition <= projected <= l.maxPosition))
  {}

  lemma CountsCheck(l: RiskLimits, pnl: real, lastHour: int, open: int, r: Reason)
    ensures Some(r) == CheckDailyLoss(l, pnl) <==>
              || (r.MaxDailyLossUsdNotConfigured? && l.maxDailyLoss <= 0.0)
              || (r.MaxDailyLossUsdExceeded? && l.maxDailyLoss > 0.0 && pnl <= -l.maxDailyLoss)
    ensures Some(r) == CheckOrdersPerHour(l, lastHour) <==>
              || (r.MaxOrdersPerHourNotConfigured? && l.maxOrdersPerHour <= 0)
              || (r.MaxOrdersPerHourExceeded? && 0 < l.maxOrdersPerHour <= lastHour)
    ensures Some(r) == CheckOpenOrders(l, open) <==>
              || (r.MaxOpenOrdersNotConfigured? && l.maxOpenOrders <= 0)
              || (r.MaxOpenOrdersExceeded? && 0 < l.maxOpenOrders <= open)
  {}

  lemma NotionalChecks(l: RiskLimits, contract: Option<QualifiedContract>, projected: int, price: Option<real>, r: Reason)
    ensures Some(r) == CheckNotional(l, contract, projected, price) <==>
              || (r.MaxNotionalExposureUsdNotConfigured? && l.maxNotional <= 0.0)
              || (r.NotionalExposureNotComputable? && l.maxNotional > 0.0
                  && (contract.None? || price.None? || price.value <= 0.0))
              || (r.MaxNotionalExposureUsdExceeded? && l.maxNotional > 0.0 && contract.Some? && price.Some? && price.value > 0.0
                  && (if projected < 0 then -projected else projected) as real * contract.value.multiplier * price.value > l.maxNotional)
  {}

  lemma LimitListed(config: Config, c: RiskContext, r: Reason)
    ensures r in LimitReasons(config, c) <==> FailsLimit(config.limits, c, r)
  {
    hide LimitReasons, CheckOrderSize, CheckPosition, CheckDailyLoss, CheckOrdersPerHour, CheckOpenOrders, CheckNotional;
    var l := config.limits;
    LimitsList(config, c, r);
    SizesCheck(l, c.quantity, c.ProjectedPosition(), r);
    CountsCheck(l, c.dailyPnl, c.ordersLastHour, c.openOrders, r);
    NotionalChecks(l, c.contract, c.ProjectedPosition(), c.referencePrice, r);
  }

  /** A refusal lists the reason of each control and each limit that fails, and no other. */
  lemma RiskListsExactly(config: Config, c: RiskContext, r: Reason)
    ensures r in RiskReasons(config, c) <==> FailsControl(config, c, r) || FailsLimit(config.limits, c, r)
  {
    hide ControlReasons, LimitReasons, FailsControl, FailsLimit;
    ControlListed(config, c, r);
    LimitListed(config, c, r);
  }

  class RiskManager {
    const config: Config

    constructor (config: Config)
      ensures this.config == config
    {
      this.config := config;
    }

    /**
     * Approves exactly when the system is in order and every limit is configured and respected; a
     * refusal lists every reason found.
     */
    method Evaluate(c: RiskContext) returns (d: Decision)
      ensures d.approved <==> SystemInOrder(config, c) && WithinLimits(config.limits, c)
      ensures d.approved <==> d.reasons == []
      ensures d.reasons == RiskReasons(config, c)
    {
      var reasons := ControlReasons(config, c);
      var numeric := CheckNumericLimits(c);
      reasons := reasons + numeric;
      RiskApprovesExactly(config, c);
      d := Decision(reasons == [], reasons);
    }

    method CheckNumericLimits(c: RiskContext) returns (reasons: seq<Reason>)
      ensures reasons == LimitReasons(config, c)
      ensures reasons == [] <==> WithinLimits(config.limits, c)
    {
      var checks := Limits(config.limits, c);
      reasons := When(c.quantity <= 0, OrderQuantityInvalid);
      for i := 0 to |checks|
        invariant reasons == When(c.quantity <= 0, OrderQuantityInvalid) + Found(checks[..i])
      {
        assert checks[..i + 1][..i] == checks[..i];
        if checks[i].Some? {
          reasons := reasons + [checks[i].value];
        }
      }
      assert checks[..|checks|] == checks;
      NoLimitReasons(config, c);
    }
  }
}
