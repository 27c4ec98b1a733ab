/**
 * The running system as a machine: one process at a time over the durable tables.
 *
 * Each event is one uninterrupted stretch of the program, together with everything the outside world
 * says during it. It yields the process's next state and the durable effects in order; a crash keeps
 * a prefix of the effects and loses the process.
 */
module Machine {
  import opened Enums
  import opened Configuration
  import opened Orders
  import opened OrderTable
  import opened Positions
  import opened Durable
  import opened Signals
  import opened Reconciliation
  import opened Ingestion
  import opened OrderManagement
  import Risk
  import Gate

  /** The only account fact the approvers use: whether the broker reports futures permission. */
  datatype Account = Account(futuresPermission: Option<bool>)

  datatype Quote = Quote(mid: Option<real>, receivedAt: int, delayed: bool)

  /** A running process. `start` is the book it was seeded with, kept so that runs can be judged. */
  datatype Process = Process(
    config: Config, runId: string, admin: bool, known: set<string>,
    state: AppState, recon: Result, account: Option<Account>, contract: Option<QualifiedContract>,
    book: Book, seen: set<string>, inTick: bool, start: Book)

  // ----- durable switches -----

  const LATCH_KEY := "kill_switch_latched"
  const REASON_KEY := "kill_switch_reason"
  const ENGAGED_AT_KEY := "kill_switch_engaged_at"
  const LAST_STATE_KEY := "last_application_state"
  const LAST_RUN_KEY := "last_run_id"
  const LAST_SHUTDOWN_KEY := "last_shutdown_at"

  predicate Latched(state: map<string, string>) { LATCH_KEY in state && state[LATCH_KEY] == "true" }

  /** Engaged by configuration or by the latch; a store that cannot be read counts as engaged. */
  predicate Engaged(config: Config, state: map<string, string>, readable: bool) {
    config.killSwitch || !readable || Latched(state)
  }

  // ----- reconciliation -----

  datatype BrokerView = BrokerView(positions: seq<Position>, working: seq<Working>, fills: seq<BrokerFill>)

  /** What the broker answered: None where the call raised. */
  datatype Answers = Answers(account: Option<Account>, view: Option<BrokerView>)

  const READ_FAILED := NOTHING_RECONCILED.(errors := ["could not read broker state"])

  function KnownExecutions(fills: seq<FillRow>): set<string> { set r | r in fills :: r.fill.executionId }

  function LocalOpens(open: Rows): seq<LocalOpen> {
    seq(|open|, i requires 0 <= i < |open| => LocalOpen(open[i].internalId, open[i].brokerOrderId, open[i].symbol))
  }

  function RowOfFill(f: BrokerFill, orders: Rows, runId: string): FillRow {
    var order := FindBroker(orders, f.brokerOrderId);
    FillRow(f, if order.Some? then order.value.internalId else "", runId)
  }

  function FillEffects(fs: seq<BrokerFill>, orders: Rows, runId: string): seq<Effect> {
    seq(|fs|, i requires 0 <= i < |fs| => RecordFill(RowOfFill(fs[i], orders, runId)))
  }

  datatype Reaction = Reaction(process: Option<Process>, effects: seq<Effect>)

  /** The result of comparing after ingestion. */
  function Comparison(p: Process, t: Tables, account: bool, v: BrokerView): Result {
    var applied := NewFills(v.fills, KnownExecutions(t.fills));
    Compare(AfterFills(p.book, applied), v.positions, v.working, LocalOpens(OpenRows(t.orders)), |v.fills|, account)
  }

  /**
   * Reads the broker, ingests fills, compares, and adopts on success. Adoption is one transaction on
   * a primary key, so a broker that lists a contract twice ends the process there.
   */
  function Reconciled(p: Process, t: Tables, answers: Answers): Reaction {
    var p1 := p.(state := Reconciling, account := answers.account, inTick := false);
    match answers.view
    case None => Reaction(Some(p1.(recon := READ_FAILED)), [])
    case Some(v) =>
      var applied := NewFills(v.fills, KnownExecutions(t.fills));
      var recorded := FillEffects(applied, t.orders, p.runId);
      var result := Comparison(p, t, answers.account.Some?, v);
      if !result.Succeeded() then
        Reaction(Some(p1.(recon := result, book := AfterFills(p.book, applied))), recorded)
      else if !DistinctContracts(v.positions) then Reaction(None, recorded)
      else Reaction(Some(p1.(recon := result, book := FromPositions(v.positions))), recorded + [ReplacePositions(v.positions)])
  }

  function ReadyState(config: Config, recon: Result, state: map<string, string>, readable: bool): AppState {
    if !recon.Succeeded() then Safe
    else if Engaged(config, state, readable) then Halted
    else if config.mode.Disabled? then Safe
    else if !config.allowTransmit then Safe
    else Ready
  }

  function Settled(r: Reaction, t: Tables, readable: bool, resolved: Option<Option<QualifiedContract>>): Reaction {
    if r.process.None? then r
    else
      var p := r.process.value;
      if !p.recon.Succeeded() then r.(process := Some(p.(state := Safe)))
      else r.(process := Some(p.(
        contract := if resolved.Some? then resolved.value else p.contract,
        state := ReadyState(p.config, p.recon, t.state, readable))))
  }

  // ----- intents -----

  /** The clock readings taken while an intent is handled, each no earlier than the one before. */
  datatype Times = Times(validated: int, counted: int, gated: int, stamped: int, replied: int) {
    predicate Ordered() { validated <= counted <= gated <= stamped <= replied }
  }

  /** An intent and what is observed while it is handled. */
  datatype Handling = Handling(
    intent: Intent, orderType: OrderType, limitPrice: Option<real>, freshId: string, times: Times,
    quote: Option<Quote>, connection: ConnectionState, account: AccountType, pnl: real,
    strategyEnabled: bool, readable: bool, reply: Reply)

  const HOUR := 3_600_000_000

  function AgeSeconds(quote: Option<Quote>, now: int): Option<real> {
    if quote.None? then None else Some((now - quote.value.receivedAt) as real / 1_000_000.0)
  }

  /** What the broker observed wins; the operator's declaration counts only where it observed nothing. */
  predicate PermissionReady(account: Option<Account>, config: Config) {
    account.Some? && account.value.futuresPermission.GetOr(config.permissionReady)
  }

  function SideAndQuantity(current: int, requested: int): (OrderSide, int) {
    if requested == current then (Buy, 0)
    else if requested > current then (Buy, requested - current)
    else (Sell, current - requested)
  }

  function RiskContextOf(p: Process, t: Tables, h: Handling, c: QualifiedContract): Risk.RiskContext {
    var (side, quantity) := SideAndQuantity(Quantity(p.book, c.conId), h.intent.requestedPosition);
    Risk.RiskContext(
      side, quantity, Quantity(p.book, c.conId), Some(c),
      if h.quote.Some? then h.quote.value.mid else None, AgeSeconds(h.quote, h.times.counted),
      h.pnl, |OpenRows(t.orders)|, CountSince(t.orders, h.times.counted - HOUR),
      p.state, h.connection, h.account, p.account.Some?, p.recon.positionsReconciled, p.recon.ordersReconciled,
      PermissionReady(p.account, p.config), h.strategyEnabled, Engaged(p.config, t.state, h.readable), false)
  }

  function GateContextOf(p: Process, h: Handling, c: QualifiedContract): Gate.GateContext {
    Gate.GateContext(
      p.state, h.connection, h.account, c.conId > 0, c.IsContinuous(), p.account.Some?,
      p.recon.positionsReconciled, p.recon.ordersReconciled,
      AgeSeconds(h.quote, h.times.gated), if h.quote.Some? then h.quote.value.delayed else true,
      PermissionReady(p.account, p.config), h.strategyEnabled, true)
  }

  function SubmissionOf(p: Process, t: Tables, h: Handling, c: QualifiedContract): Submission {
    Submission(h.intent, c, RiskContextOf(p, t, h, c), GateContextOf(p, h, c),
               h.orderType, h.limitPrice, h.freshId, h.times.stamped, h.reply, h.times.replied)
  }

  predicate Acceptable(p: Process, h: Handling) {
    SignalReasons(Upper(p.config.symbol), p.known, p.seen, h.intent, h.times.validated) == []
  }

  function SignalOf(h: Handling): Effect { RecordSignal(Signal(h.intent.intentId, h.intent.createdAt)) }

  /** Whether an intent gets as far as the order manager. */
  predicate Submits(p: Process, t: Tables, h: Handling) {
    && Acceptable(p, h) && p.contract.Some?
    && SubmissionOf(p, t, h, p.contract.value).risk.quantity != 0
  }

  function SubmissionEffects(p: Process, t: Tables, h: Handling): seq<Effect> {
    if !Submits(p, t, h) then []
    else
      var s := SubmissionOf(p, t, h, p.contract.value);
      Submit(ApprovalsOf(p.config, s), t.orders, s).effects
  }

  /** The signal record, then the submission if there is anything to submit. */
  function Handled(p: Process, t: Tables, h: Handling): Reaction {
    Reaction(Some(if Acceptable(p, h) then p.(seen := p.seen + {h.intent.intentId}) else p),
             [SignalOf(h)] + SubmissionEffects(p, t, h))
  }

  // ----- the other writers of orders -----

  /** What the operator command learns of its order: (status string, filled, average price). */
  datatype StatusUpdate = StatusUpdate(brokerOrderId: string, ibStatus: string, filled: int, average: Option<real>, at: int)

  function StatusEffects(rows: Rows, u: StatusUpdate): seq<Effect> {
    match FindBroker(rows, u.brokerOrderId)
    case None => []
    case Some(r) =>
      [UpdateOrder(r.(status := FromIbStatus(u.ibStatus), filledQuantity := u.filled, averageFillPrice := u.average,
                      updatedAt := u.at))]
  }

  // ----- events -----

  datatype Event =
    /** A process starts on the tables; `seed` is the result of the bounded query for known intents. */
    | Startup(config: Config, runId: string, admin: bool, seed: set<string>)
    | ConnectFailed(permission: bool)
    /** The session comes up: reconcile, resolve the contract, settle. */
    | Connected(answers: Answers, resolved: Option<QualifiedContract>, readable: bool)
    /** The periodic re-check. */
    | Rechecked(answers: Answers, readable: bool)
    /** The operator command re-reconciles after a fill, and settles nothing. */
    | OperatorRechecked(answers: Answers)
    | DisconnectSeen
    /** A connected tick reaches the kill-switch check. */
    | Ticked(readable: bool)
    | IntentHandled(handling: Handling)
    | StatusLearned(update: StatusUpdate)
    | CancelAll(at: int)
    /** The operator latches the kill switch from another process. */
    | KillSwitchLatched(reason: string, engagedAt: string)
    /** A write of one of the bookkeeping keys, which nothing reads. */
    | Bookkept(stateKey: string, value: string)
    | Stopped

  predicate ExternalEvent(e: Event) { e.KillSwitchLatched? || e.Bookkept? }

  function Started(t: Tables, config: Config, runId: string, admin: bool, seed: set<string>): Process {
    var book := FromPositions(t.positions);
    Process(config, runId, admin, LowerAll({config.strategy} + (if admin then {OPERATOR_STRATEGY} else {})),
            if config.mode.Disabled? then Safe else Starting,
            NOTHING_RECONCILED, None, None, book, seed, false, book)
  }

  function Dropped(p: Process): Process {
    p.(state := Safe, recon := NOTHING_RECONCILED, account := None, contract := None, inTick := false)
  }

  function TickedOn(p: Process, t: Tables, readable: bool): Process {
    if p.contract.None? then p.(inTick := false)
    else if Engaged(p.config, t.state, readable) then p.(state := Halted, inTick := false)
    else p.(inTick := true)
  }

  /** What a process does with an event; in disabled mode there is no broker and the loop only sleeps. */
  function React(p: Process, t: Tables, e: Event): Reaction {
    var still := Reaction(Some(p), []);
    if p.config.mode.Disabled? && !e.Stopped? then still
    else match e
      case Startup(_, _, _, _) => still
      case ConnectFailed(permission) => Reaction(Some(p.(state := if permission then Safe else Offline, inTick := false)), [])
      case Connected(answers, resolved, readable) => Settled(Reconciled(p, t, answers), t, readable, Some(resolved))
      case Rechecked(answers, readable) => Settled(Reconciled(p, t, answers), t, readable, None)
      case OperatorRechecked(answers) => if p.admin then Reconciled(p, t, answers) else still
      case DisconnectSeen => Reaction(Some(Dropped(p)), [])
      case Ticked(readable) => Reaction(Some(TickedOn(p, t, readable)), [])
      case IntentHandled(h) => if p.inTick || p.admin then Handled(p, t, h) else still
      case StatusLearned(u) => if p.admin then Reaction(Some(p), StatusEffects(t.orders, u)) else still
      case CancelAll(at) => Reaction(Some(p), CancelEffects(OpenRows(t.orders), at))
      case KillSwitchLatched(_, _) => still
      case Bookkept(_, _) => still
      case Stopped => Reaction(None, [])
  }

  datatype System = System(process: Option<Process>, tables: Tables)

  function ReactionOf(s: System, e: Event): Reaction {
    match e
    case Startup(config, runId, admin, seed) =>
      Reaction(Some(Started(s.tables, config, runId, admin, seed)), [PutState(LAST_RUN_KEY, runId)])
    case KillSwitchLatched(reason, at) =>
      Reaction(s.process, [PutState(LATCH_KEY, "true"), PutState(REASON_KEY, reason), PutState(ENGAGED_AT_KEY, at)])
    case Bookkept(key, value) => Reaction(s.process, [PutState(key, value)])
    case _ => if s.process.None? then Reaction(None, []) else React(s.process.value, s.tables, e)
  }

  /** One event, cut short after `survives` effects when it is. */
  datatype Step = Step(event: Event, survives: Option<nat>)

  function Kept(effects: seq<Effect>, survives: Option<nat>): seq<Effect> {
    if survives.Some? && survives.value < |effects| then effects[..survives.value] else effects
  }

  function Next(s: System, step: Step): System {
    var r := ReactionOf(s, step.event);
    System(if step.survives.None? || ExternalEvent(step.event) then r.process else None,
           ApplyAll(s.tables, Kept(r.effects, step.survives)))
  }

  function Run(s: System, steps: seq<Step>): System {
    if steps == [] then s else Next(Run(s, steps[..|steps| - 1]), steps[|steps| - 1])
  }

  // ----- what the outside world promises -----

  /** A query bounded at 10,000: everything while there is no more than that. */
  ghost predicate SeedOk(signals: seq<Signal>, seed: set<string>) {
    |signals| <= 10_000 ==> forall i :: 0 <= i < |signals| ==> signals[i].intentId in seed
  }

  /** Identifiers are fresh, and only bookkeeping keys are written besides the latch. */
  ghost predicate Allowed(s: System, e: Event) {
    match e
    case Startup(_, runId, _, seed) =>
      (forall i :: 0 <= i < |s.tables.fills| ==> s.tables.fills[i].runId != runId) && SeedOk(s.tables.signals, seed)
    case IntentHandled(h) =>
      h.intent.Consistent() && h.times.Ordered()
      && forall i :: 0 <= i < |s.tables.orders| ==> s.tables.orders[i].internalId != h.freshId
    case Bookkept(key, _) => key in {LAST_STATE_KEY, LAST_RUN_KEY, LAST_SHUTDOWN_KEY}
    case _ => true
  }

  ghost predicate AllowedRun(s: System, steps: seq<Step>) {
    forall n :: 0 <= n < |steps| ==> Allowed(Run(s, steps[..n]), steps[n].event)
  }

  lemma RunPrefix(s: System, steps: seq<Step>)
    requires steps != [] && AllowedRun(s, steps)
    ensures AllowedRun(s, steps[..|steps| - 1])
    ensures Allowed(Run(s, steps[..|steps| - 1]), steps[|steps| - 1].event)
  {
    var init := steps[..|steps| - 1];
    forall n | 0 <= n < |init| ensures Allowed(Run(s, init[..n]), init[n].event) {
      assert init[..n] == steps[..n];
    }
  }
}
