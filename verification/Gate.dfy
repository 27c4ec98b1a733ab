/** The transmit gate: it opens exactly when every interlock of its own holds, whatever risk has decided. */
module Gate {
  import opened Enums
  import opened Configuration

  datatype GateContext = GateContext(
    appState: AppState, connection: ConnectionState, account: AccountType,
    contractQualified: bool, contractContinuous: bool, accountAvailable: bool,
    positionsReconciled: bool, ordersReconciled: bool,
    quoteAge: Option<real>, quoteDelayed: bool,
    permissionReady: bool, strategyEnabled: bool, riskApproved: bool)

  datatype Decision = Decision(allowed: bool, reasons: seq<Reason>)

  /** Switches on, mode permitted, the observed account the expected one, session and contract usable. */
  ghost predicate IdentityInOrder(config: Config, c: GateContext) {
    && !config.killSwitch && config.allowTransmit && !config.mode.Disabled?
    && (config.mode.Live? ==> config.liveEnabled)
    && AccountFits(config.mode, c.account)
    && c.appState.Ready? && c.connection.Connected? && c.accountAvailable
    && c.contractQualified && !c.contractContinuous
  }

  /** Reconciled, on a fresh live quote, permitted, and approved by risk. */
  ghost predicate EvidenceInOrder(config: Config, c: GateContext) {
    && c.positionsReconciled && c.ordersReconciled
    && config.maxQuoteAge > 0.0 && !c.quoteDelayed
    && c.quoteAge.Some? && 0.0 <= c.quoteAge.value <= config.maxQuoteAge
    && (config.mode.UsesIbkr() ==> config.permissionReady) && c.permissionReady
    && config.strategyEnabled && c.strategyEnabled && c.riskApproved
  }

  /** What the gate demands before anything may be sent. */
  ghost predicate Passable(config: Config, c: GateContext) {
    IdentityInOrder(config, c) && EvidenceInOrder(config, c)
  }

  function SwitchReasons(config: Config): seq<Reason> {
    When(config.killSwitch, KillSwitchEngaged) + When(!config.allowTransmit, OrderTransmitNotAllowed)
  }

  function ModeReasons(config: Config): seq<Reason> {
    if config.mode.Disabled? then [TradingModeDisabled]
    else When(config.mode.Live? && !config.liveEnabled, LiveTradingNotEnabled)
  }

  function MismatchReason(expected: AccountType): Reason {
    match expected
    case LiveAccount => AccountTypeMismatchExpectedLive
    case PaperAccount => AccountTypeMismatchExpectedPaper
    case _ => AccountTypeMismatchExpectedSimulated
  }

  function AccountReasons(config: Config, c: GateContext): seq<Reason> {
    if c.account.Unknown? then [BrokerAccountTypeUnknown]
    else
      var expected := ExpectedAccount(config.mode);
      if expected.Some? && c.account != expected.value then [MismatchReason(expected.value)] else []
  }

  function ReadinessReasons(c: GateContext): seq<Reason> {
    When(!c.appState.Ready?, ApplicationNotReady)
    + When(!c.connection.Connected?, BrokerNotConnected)
    + When(!c.accountAvailable, AccountDataUnavailable)
  }

  function ContractReasons(c: GateContext): seq<Reason> {
    When(!c.contractQualified, ContractNotQualified) + When(c.contractContinuous, ContractIsContinuousFuture)
  }

  function ReconciliationReasons(c: GateContext): seq<Reason> {
    When(!c.positionsReconciled, PositionsNotReconciled) + When(!c.ordersReconciled, OpenOrdersNotReconciled)
  }

  function MarketDataReasons(config: Config, c: GateContext): seq<Reason> {
    When(config.maxQuoteAge <= 0.0, MarketDataMaxAgeNotConfigured)
    + When(c.quoteDelayed, MarketDataIsDelayed)
    + if c.quoteAge.None? then [MarketDataUnavailable]
      else if c.quoteAge.value < 0.0 then [MarketDataTimestampInFuture]
      else When(config.maxQuoteAge > 0.0 && c.quoteAge.value > config.maxQuoteAge, MarketDataStale)
  }

  function PermissionReasons(config: Config, c: GateContext): seq<Reason> {
    When(config.mode.UsesIbkr() && !config.permissionReady, SolFuturesPermissionNotConfiguredReady)
    + When(!c.permissionReady, TradingPermissionUnavailableAtBroker)
  }

  function ApprovalReasons(config: Config, c: GateContext): seq<Reason> {
    When(!(config.strategyEnabled && c.strategyEnabled), StrategyDisabled)
    + When(!c.riskApproved, RiskChecksNotPassed)
  }

  function IdentityReasons(config: Config, c: GateContext): seq<Reason> {
    SwitchReasons(config) + ModeReasons(config) + AccountReasons(config, c) + ReadinessReasons(c) + ContractReasons(c)
  }

  function EvidenceReasons(config: Config, c: GateContext): seq<Reason> {
    ReconciliationReasons(c) + MarketDataReasons(config, c) + PermissionReasons(config, c) + ApprovalReasons(config, c)
  }

  function GateReasons(config: Config, c: GateContext): seq<Reason> {
    IdentityReasons(config, c) + EvidenceReasons(config, c)
  }

  lemma IdentityExactly(config: Config, c: GateContext)
    ensures IdentityReasons(config, c) == [] <==> IdentityInOrder(config, c)
  {
    assert IdentityReasons(config, c) == [] <==>
      && SwitchReasons(config) == [] && ModeReasons(config) == [] && AccountReasons(config, c) == []
      && ReadinessReasons(c) == [] && ContractReasons(c) == [];
  }

  lemma EvidenceExactly(config: Config, c: GateContext)
    ensures EvidenceReasons(config, c) == [] <==> EvidenceInOrder(config, c)
  {
    assert EvidenceReasons(config, c) == [] <==>
      && ReconciliationReasons(c) == [] && MarketDataReasons(config, c) == []
      && PermissionReasons(config, c) == [] && ApprovalReasons(config, c) == [];
  }

  /** The gate opens exactly when every interlock holds positively. */
  lemma GateOpensExactly(config: Config, c: GateContext)
    ensures GateReasons(config, c) == [] <==> Passable(config, c)
  {
    IdentityExactly(config, c);
    EvidenceExactly(config, c);
  }

  /** What each reason about switches, mode, account, session and contract means. */
  ghost predicate FailsIdentity(config: Config, c: GateContext, r: Reason) {
    match r
    case KillSwitchEngaged => config.killSwitch
    case OrderTransmitNotAllowed => !config.allowTransmit
    case TradingModeDisabled => config.mode.Disabled?
    case LiveTradingNotEnabled => config.mode.Live? && !config.liveEnabled
    case BrokerAccountTypeUnknown => c.account.Unknown?
    case AccountTypeMismatchExpectedLive => config.mode.Live? && (c.account.PaperAccount? || c.account.Simulated?)
    case AccountTypeMismatchExpectedPaper => config.mode.Paper? && (c.account.LiveAccount? || c.account.Simulated?)
    case AccountTypeMismatchExpectedSimulated => config.mode.Mock? && (c.account.LiveAccount? || c.account.PaperAccount?)
    case ApplicationNotReady => !c.appState.Ready?
    case BrokerNotConnected => !c.connection.Connected?
    case AccountDataUnavailable => !c.accountAvailable
    case ContractNotQualified => !c.contractQualified
    case ContractIsContinuousFuture => c.contractContinuous
    case _ => false
  }

  /** What each reason about reconciliation, market data, permission and approval means. */
  ghost predicate FailsEvidence(config: Config, c: GateContext, r: Reason) {
    match r
    case PositionsNotReconciled => !c.positionsReconciled
    case OpenOrdersNotReconciled => !c.ordersReconciled
    case MarketDataMaxAgeNotConfigured => config.maxQuoteAge <= 0.0
    case MarketDataIsDelayed => c.quoteDelayed
    case MarketDataUnavailable => c.quoteAge.None?
    case MarketDataTimestampInFuture => c.quoteAge.Some? && c.quoteAge.value < 0.0
    case MarketDataStale => c.quoteAge.Some? && 0.0 < config.maxQuoteAge < c.quoteAge.value
    case SolFuturesPermissionNotConfiguredReady => (config.mode.Paper? || config.mode.Live?) && !config.permissionReady
    case TradingPermissionUnavailableAtBroker => !c.permissionReady
    case StrategyDisabled => !config.strategyEnabled || !c.strategyEnabled
    case RiskChecksNotPassed => !c.riskApproved
    case _ => false
  }

  lemma IdentityLists(config: Config, c: GateContext, r: Reason)
    ensures r in SwitchReasons(config) <==> (r.KillSwitchEngaged? && config.killSwitch) || (r.OrderTransmitNotAllowed? && !config.allowTransmit)
    ensures r in ModeReasons(config) <==>
              (r.TradingModeDisabled? && config.mode.Disabled?) || (r.LiveTradingNotEnabled? && config.mode.Live? && !config.liveEnabled)
  {}

  lemma SessionLists(c: GateContext, r: Reason)
    ensures r in ReadinessReasons(c) <==>
              || (r.ApplicationNotReady? && !c.appState.Ready?) || (r.BrokerNotConnected? && !c.connection.Connected?)
              || (r.AccountDataUnavailable? && !c.accountAvailable)
    ensures r in ContractReasons(c) <==>
              (r.ContractNotQualified? && !c.contractQualified) || (r.ContractIsContinuousFuture? && c.contractContinuous)
  {}

  lemma AccountLists(config: Config, c: GateContext, r: Reason)
    ensures r in AccountReasons(config, c) <==>
              || (r.BrokerAccountTypeUnknown? && c.account.Unknown?)
              || (r.AccountTypeMismatchExpectedLive? && config.mode.Live? && (c.account.PaperAccount? || c.account.Simulated?))
              || (r.AccountTypeMismatchExpectedPaper? && config.mode.Paper? && (c.account.LiveAccount? || c.account.Simulated?))
              || (r.AccountTypeMismatchExpectedSimulated? && config.mode.Mock? && (c.account.LiveAccount? || c.account.PaperAccount?))
  {}

  lemma EvidenceLists(config: Config, c: GateContext, r: Reason)
    ensures r in ReconciliationReasons(c) <==>
              (r.PositionsNotReconciled? && !c.positionsReconciled) || (r.OpenOrdersNotReconciled? && !c.ordersReconciled)
    ensures r in PermissionReasons(config, c) <==>
              || (r.SolFuturesPermissionNotConfiguredReady? && (config.mode.Paper? || config.mode.Live?) && !config.permissionReady)
              || (r.TradingPermissionUnavailableAtBroker? && !c.permissionReady)
    ensures r in ApprovalReasons(config, c) <==>
              (r.StrategyDisabled? && (!config.strategyEnabled || !c.strategyEnabled)) || (r.RiskChecksNotPassed? && !c.riskApproved)
  {}

  lemma MarketDataLists(config: Config, c: GateContext, r: Reason)
    ensures r in MarketDataReasons(config, c) <==>
              || (r.MarketDataMaxAgeNotConfigured? && config.maxQuoteAge <= 0.0) || (r.MarketDataIsDelayed? && c.quoteDelayed)
              || (r.MarketDataUnavailable? && c.quoteAge.None?)
              || (r.MarketDataTimestampInFuture? && c.quoteAge.Some? && c.quoteAge.value < 0.0)
              || (r.MarketDataStale? && c.quoteAge.Some? && 0.0 < config.maxQuoteAge < c.quoteAge.value)
  {}

  lemma IdentityParts(config: Config, c: GateContext, r: Reason)
    ensures r in IdentityReasons(config, c) <==>
              || r in SwitchReasons(config) || r in ModeReasons(config) || r in AccountReasons(config, c)
              || r in ReadinessReasons(c) || r in ContractReasons(c)
  {
    hide SwitchReasons, ModeReasons, AccountReasons, ReadinessReasons, ContractReasons;
  }

  lemma EvidenceParts(config: Config, c: GateContext, r: Reason)
    ensures r in EvidenceReasons(config, c) <==>
              || r in ReconciliationReasons(c) || r in MarketDataReasons(config, c)
              || r in PermissionReasons(config, c) || r in ApprovalReasons(config, c)
  {
    hide ReconciliationReasons, MarketDataReasons, PermissionReasons, ApprovalReasons;
  }

  lemma IdentityListed(config: Config, c: GateContext, r: Reason)
    ensures r in IdentityReasons(config, c) <==> FailsIdentity(config, c, r)
  {
    hide IdentityReasons, SwitchReasons, ModeReasons, AccountReasons, ReadinessReasons, ContractReasons;
    IdentityParts(config, c, r);
    IdentityLists(config, c, r);
    SessionLists(c, r);
    AccountLists(config, c, r);
  }

  lemma EvidenceListed(config: Config, c: GateContext, r: Reason)
    ensures r in EvidenceReasons(config, c) <==> FailsEvidence(config, c, r)
  {
    hide EvidenceReasons, ReconciliationReasons, MarketDataReasons, PermissionReasons, ApprovalReasons;
    EvidenceParts(config, c, r);
    EvidenceLists(config, c, r);
    MarketDataLists(config, c, r);
  }

  /** A refusal lists the reason of each interlock that fails, and no other. */
  lemma GateListsExactly(config: Config, c: GateContext, r: Reason)
    ensures r in GateReasons(config, c) <==> FailsIdentity(config, c, r) || FailsEvidence(config, c, r)
  {
    hide IdentityReasons, EvidenceReasons, FailsIdentity, FailsEvidence;
    IdentityListed(config, c, r);
    EvidenceListed(config, c, r);
  }

  class TransmitGate {
    const config: Config

    constructor (config: Config)
      ensures this.config == config
    {
      this.config := config;
    }

    /** Allows exactly when every interlock holds; a refusal lists every interlock that failed. */
    method Evaluate(c: GateContext) returns (d: Decision)
      ensures d.allowed <==> Passable(config, c)
      ensures d.allowed <==> d.reasons == []
      ensures d.reasons == GateReasons(config, c)
    {
      var reasons := IdentityReasons(config, c);
      reasons := reasons + EvidenceReasons(config, c);
      GateOpensExactly(config, c);
      d := Decision(reasons == [], reasons);
    }
  }
}
