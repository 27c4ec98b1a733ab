/** The machine is not idle: READY is reached and orders are sent, exactly when everything is in order. */
module Reachability {
  import opened Enums
  import opened Configuration
  import opened Orders
  import opened OrderTable
  import opened Positions
  import opened Durable
  import opened Signals
  import opened Reconciliation
  import opened Ingestion
  import opened OrderManagement
  import opened OrderSafety
  import opened AtMostOnce
  import opened OrdersOverRuns
  import opened Machine
  import opened Lifecycle
  import opened IntentSafety
  import Risk
  import Gate

  /** Everything an intent needs for its order to be sent. */
  ghost predicate Sendable(p: Process, t: Tables, h: Handling) {
    && Acceptable(p, h) && p.contract.Some?
    && var s := SubmissionOf(p, t, h, p.contract.value);
    && Quantity(p.book, p.contract.value.conId) != h.intent.requestedPosition
    && NewRow(s).Fault().None? && h.orderType.Transmittable()
    && Risk.SystemInOrder(p.config, s.risk) && Risk.WithinLimits(p.config.limits, s.risk)
    && Gate.Passable(p.config, s.gate)
  }

  lemma ApprovedExactly(p: Process, t: Tables, h: Handling, c: QualifiedContract)
    ensures var s := SubmissionOf(p, t, h, c);
            ApprovalsOf(p.config, s) == Approvals([], []) <==>
              && Risk.SystemInOrder(p.config, s.risk) && Risk.WithinLimits(p.config.limits, s.risk)
              && Gate.Passable(p.config, s.gate)
  {
    hide Risk.RiskReasons, Risk.SystemInOrder, Risk.WithinLimits, Gate.GateReasons, Gate.Passable, SubmissionOf;
    Risk.RiskApprovesExactly(p.config, SubmissionOf(p, t, h, c).risk);
    Gate.GateOpensExactly(p.config, SubmissionOf(p, t, h, c).gate);
  }

  lemma FreshProceeds(rows: Rows, s: Submission)
    requires WorkingRow(rows, s) == NewRow(s)
    ensures Proceeds(rows, s) <==> s.risk.quantity > 0 && NewRow(s).Fault().None?
    ensures WorkingRow(rows, s).orderType == s.orderType
  {}

  lemma QuantityOf(p: Process, t: Tables, h: Handling, c: QualifiedContract)
    ensures var s := SubmissionOf(p, t, h, c);
            && s.risk.quantity >= 0 && s.orderType == h.orderType && s.intent == h.intent
            && (s.risk.quantity == 0 <==> Quantity(p.book, c.conId) == h.intent.requestedPosition)
  {
    DeltaIsExact(Quantity(p.book, c.conId), h.intent.requestedPosition);
  }

  /**
   * In any reachable state an intent's order leaves if and only if the intent is acceptable, a contract is
   * resolved, the target differs from the position, the order is well formed and of a transmitted type,
   * and both approvers' conditions hold.
   */
  lemma SentExactlyWhenInOrder(p: Process, t: Tables, h: Handling)
    requires Sound(t.orders, t.sent) && OrdersAreSeen(p, t)
    ensures (exists q :: Send(q) in SubmissionEffects(p, t, h)) <==> Sendable(p, t, h)
  {
    hide ApprovalsOf, Submit, Acceptable, WorkingRow, Proceeds, Risk.SystemInOrder, Risk.WithinLimits, Gate.Passable, Backed;
    if Acceptable(p, h) && p.contract.Some? {
      var c := p.contract.value;
      var s := SubmissionOf(p, t, h, c);
      var a := ApprovalsOf(p.config, s);
      AcceptedIsUnsent(p, t, h);
      QuantityOf(p, t, h, c);
      ApprovedExactly(p, t, h, c);
      hide SubmissionOf;
      UnseenIsNew(t.orders, s);
      FreshProceeds(t.orders, s);
      SendsExactlyWhen(a, t.orders, s);
      assert a == Approvals([], []) <==> a.risk == [] && a.gate == [];
    }
  }

  /** A sendable intent's order is built for it, passes both approvers and is worked on. */
  lemma SendableProceeds(p: Process, t: Tables, h: Handling)
    requires OrdersAreSeen(p, t) && Sendable(p, t, h)
    ensures var s := SubmissionOf(p, t, h, p.contract.value);
            && Submits(p, t, h) && ApprovalsOf(p.config, s) == Approvals([], [])
            && FindKey(t.orders, NewRow(s).key).None? && Proceeds(t.orders, s) && s.orderType.Transmittable()
  {
    hide Acceptable, Risk.SystemInOrder, Risk.WithinLimits, Gate.Passable, ApprovalsOf;
    var c := p.contract.value;
    var s := SubmissionOf(p, t, h, c);
    QuantityOf(p, t, h, c);
    ApprovedExactly(p, t, h, c);
    AcceptedIsUnseen(p, h);
    hide SubmissionOf;
    UnseenIsNew(t.orders, s);
    FreshProceeds(t.orders, s);
  }

  // ----- a run that reaches READY and sends -----

  const CONTRACT := QualifiedContract(900_000_001, "SOL", "SOLH6", 25.0)

  const CONFIG := Config(Mock, true, false, false, false, "SOL", "demo", true,
                         RiskLimits(10, 10, 500.0, 5, 1, 1_000_000.0), 5.0)

  const OPEN_SESSION := Event.Connected(Answers(Some(Account(Some(true))), Some(BrokerView([], [], []))), Some(CONTRACT), true)

  const PURCHASE := Handling(
    Intent("intent-1", "demo", "SOL", Long, 2, 1_000_000), Market, None, "order-1",
    Times(2_000_000, 2_000_000, 2_000_000, 2_000_000, 2_000_000),
    Some(Quote(Some(150.0), 1_500_000, false)), ConnectionState.Connected, Simulated, 0.0, true, true,
    Replied(true, Some("mock-000001"), OrderStatus.Filled, None))

  function Started1(admin: bool): Process { Started(EMPTY, CONFIG, "run-1", admin, {}) }

  function Tables1(): Tables { EMPTY.(state := map[LAST_RUN_KEY := "run-1"]) }

  function Ready1(admin: bool): Process {
    Started1(admin).(state := Ready, account := Some(Account(Some(true))), contract := Some(CONTRACT), book := map[],
                recon := Result(true, true, true, [], [], 0, [], []))
  }

  lemma StartupRuns(admin: bool)
    ensures Next(FRESH_SYSTEM, Step(Startup(CONFIG, "run-1", admin, {}), None)) == System(Some(Started1(admin)), Tables1())
  {
    var e := PutState(LAST_RUN_KEY, "run-1");
    ApplyOne(EMPTY, e);
    assert Kept([e], None) == [e];
    hide Started;
  }

  lemma NothingToCompare(admin: bool)
    ensures Comparison(Started1(admin), Tables1(), true, BrokerView([], [], [])) == Result(true, true, true, [], [], 0, [], [])
  {
    ComparisonIsExact(map[], []);
    OrderComparisonIsExact([], []);
    assert LocalOpens([]) == [];
  }

  lemma SessionOpens(admin: bool)
    ensures Next(System(Some(Started1(admin)), Tables1()), Step(OPEN_SESSION, None)) == System(Some(Ready1(admin)), Tables1())
  {
    NothingToCompare(admin);
    hide Comparison, Handled, StatusEffects;
    var r := Reconciled(Started1(admin), Tables1(), OPEN_SESSION.answers);
    assert FillEffects([], [], "run-1") == [];
    assert r.effects == [ReplacePositions([])];
    ApplyOne(Tables1(), ReplacePositions([]));
    assert !Latched(Tables1().state);
  }

  lemma TickRuns()
    ensures Next(System(Some(Ready1(false)), Tables1()), Step(Ticked(true), None))
         == System(Some(Ready1(false).(inTick := true)), Tables1())
  {
    hide Comparison, Handled, StatusEffects, Reconciled, Started1, Started;
    assert LATCH_KEY[0] != LAST_RUN_KEY[0];
    assert !Engaged(CONFIG, Tables1().state, true);
    ReadyOne(false);
    assert TickedOn(Ready1(false), Tables1(), true) == Ready1(false).(inTick := true);
  }

  lemma ReadyOne(admin: bool)
    ensures Ready1(admin).config == CONFIG && Ready1(admin).contract == Some(CONTRACT) && Ready1(admin).state == Ready
    ensures Ready1(admin).book == map[] && Ready1(admin).seen == {} && "demo" in Ready1(admin).known
    ensures Ready1(admin).admin == admin && !Ready1(admin).inTick && Ready1(admin).runId == "run-1"
    ensures Ready1(admin).account == Some(Account(Some(true)))
    ensures Ready1(admin).recon == Result(true, true, true, [], [], 0, [], [])
  {
    assert Lower("demo") == "demo";
    assert "demo" in {"demo"} + (if admin then {OPERATOR_STRATEGY} else {});
  }

  lemma PurchaseIsAcceptable()
    ensures Acceptable(Ready1(false).(inTick := true), PURCHASE)
  {
    ReadyOne(false);
    assert Upper("SOL") == "SOL" && "SOL" in SUPPORTED_SYMBOLS && Lower("demo") == "demo";
  }

  lemma PurchaseIsSendable()
    ensures Sendable(Ready1(false).(inTick := true), Tables1(), PURCHASE)
  {
    PurchaseIsAcceptable();
    ReadyOne(false);
    assert !Engaged(CONFIG, Tables1().state, true) by { assert LATCH_KEY[0] != LAST_RUN_KEY[0]; }
    hide Acceptable, Started1, Ready1, Tables1, Engaged;
    var p, t := Ready1(false).(inTick := true), Tables1();
    assert SideAndQuantity(0, 2) == (Buy, 2);
  }

  function Demo(): seq<Step> {
    [Step(Startup(CONFIG, "run-1", false, {}), None), Step(OPEN_SESSION, None), Step(Ticked(true), None)]
  }

  lemma DemoRuns()
    ensures Run(FRESH_SYSTEM, Demo()) == System(Some(Ready1(false).(inTick := true)), Tables1())
    ensures KnownRun(FRESH_SYSTEM, Demo())
  {
    StartupRuns(false);
    SessionOpens(false);
    TickRuns();
    hide Next, Ready1, Started1, Tables1;
    var steps := Demo();
    assert steps[..3] == steps && steps[..2][..1] == steps[..1] && steps[..1][..0] == [] && steps[..0] == [];
    assert Run(FRESH_SYSTEM, steps[..1]) == Next(FRESH_SYSTEM, steps[0]);
    assert Run(FRESH_SYSTEM, steps[..2]) == Next(Run(FRESH_SYSTEM, steps[..1]), steps[1]);
    assert Run(FRESH_SYSTEM, steps) == Next(Run(FRESH_SYSTEM, steps[..2]), steps[2]);
  }

  /** From an empty database, three events make the system READY and a fourth hands an order to the broker. */
  lemma AnOrderCanBeSent()
    ensures KnownRun(FRESH_SYSTEM, Demo())
    ensures Run(FRESH_SYSTEM, Demo()).process.Some? && Run(FRESH_SYSTEM, Demo()).process.value.state.Ready?
    ensures exists q :: Send(q) in ReactionOf(Run(FRESH_SYSTEM, Demo()), IntentHandled(PURCHASE)).effects
  {
    DemoRuns();
    ReadyOne(false);
    PurchaseIsSendable();
    hide Next, Sendable, Ready1, Started1, Tables1, Demo;
    RunsAreInOrder(Demo());
    var s := Run(FRESH_SYSTEM, Demo());
    SentExactlyWhenInOrder(s.process.value, s.tables, PURCHASE);
    HandledSends(s, PURCHASE);
  }

  lemma HandledSends(s: System, h: Handling)
    requires s.process.Some? && HasBroker(s.process.value) && s.process.value.inTick
    requires exists q :: Send(q) in SubmissionEffects(s.process.value, s.tables, h)
    ensures exists q :: Send(q) in ReactionOf(s, IntentHandled(h)).effects
  {
    hide SubmissionEffects, StatusEffects, Comparison, Reconciled, Started;
    var q :| Send(q) in SubmissionEffects(s.process.value, s.tables, h);
    assert Send(q) in ReactionOf(s, IntentHandled(h)).effects;
  }
}
