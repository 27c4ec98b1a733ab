/** Concrete inputs at which the program does not do what is said of it; the exact conditions are proved elsewhere. */
module Witnesses {
  import opened Enums
  import opened Configuration
  import opened Orders
  import opened OrderTable
  import opened Positions
  import opened Durable
  import opened Signals
  import opened Reconciliation
  import opened Ingestion
  import opened OrderManagement
  import opened OrderSafety
  import opened AtMostOnce
  import opened OrdersOverRuns
  import opened Machine
  import opened Lifecycle
  import opened Conservation
  import opened Restarts
  import opened Caps
  import opened IntentSafety
  import opened Reachability
  import opened Fleet
  import Risk
  import Gate

  // ----- runs, one step at a time -----

  lemma OneStepMore(s: System, steps: seq<Step>, step: Step)
    ensures Run(s, steps + [step]) == Next(Run(s, steps), step)
    ensures Mark(s, steps + [step]) == NextMark(Run(s, steps), step, Mark(s, steps))
    ensures Reopened(s, steps + [step]) == Reopened(s, steps) + ReopenedBy(Run(s, steps).tables.orders, step.event)
  {
    hide Next, Replaces;
    assert (steps + [step])[..|steps|] == steps;
  }

  lemma OneMoreAllowed(s: System, steps: seq<Step>, step: Step, limits: RiskLimits)
    requires CapRun(s, steps, limits) && CapStep(Run(s, steps), step.event, limits)
    ensures CapRun(s, steps + [step], limits) && AllowedRun(s, steps + [step])
  {
    hide Next, Allowed, Run;
    var more := steps + [step];
    forall n | 0 <= n < |more| ensures CapStep(Run(s, more[..n]), more[n].event, limits) {
      assert n < |steps| ==> more[..n] == steps[..n];
      assert n == |steps| ==> more[..n] == steps;
    }
  }

  function Opening(admin: bool): seq<Step> { [Step(Startup(CONFIG, "run-1", admin, {}), None)] }

  lemma Opened(admin: bool)
    ensures Run(FRESH_SYSTEM, Opening(admin)) == System(Some(Started1(admin)), Tables1())
    ensures CapRun(FRESH_SYSTEM, Opening(admin), CONFIG.limits) && AllowedRun(FRESH_SYSTEM, Opening(admin))
    ensures Mark(FRESH_SYSTEM, Opening(admin)) == 0 && Reopened(FRESH_SYSTEM, Opening(admin)) == 0
  {
    var step := Opening(admin)[0];
    hide Next, Started1, Replaces, Run, Allowed, CapRun, Mark, Reopened, CapStep, NoLooser;
    StartupRuns(admin);
    NeutralNeverReplaces(FRESH_SYSTEM, step);
    StartupIsAllowed(admin);
    NothingYet();
    FirstStep(step);
  }

  lemma FirstStep(step: Step)
    requires CapStep(FRESH_SYSTEM, step.event, CONFIG.limits) && !step.event.StatusLearned?
    ensures Run(FRESH_SYSTEM, [step]) == Next(FRESH_SYSTEM, step)
    ensures CapRun(FRESH_SYSTEM, [step], CONFIG.limits) && AllowedRun(FRESH_SYSTEM, [step])
    ensures Mark(FRESH_SYSTEM, [step]) == NextMark(FRESH_SYSTEM, step, 0) && Reopened(FRESH_SYSTEM, [step]) == 0
  {
    hide Next, Replaces, Run, Mark, Reopened, CapRun, CapStep;
    NothingYet();
    assert [] + [step] == [step];
    OneStepMore(FRESH_SYSTEM, [], step);
    OneMoreAllowed(FRESH_SYSTEM, [], step, CONFIG.limits);
  }

  lemma StartupIsAllowed(admin: bool)
    ensures CapStep(FRESH_SYSTEM, Startup(CONFIG, "run-1", admin, {}), CONFIG.limits)
  {}

  lemma NothingYet()
    ensures Run(FRESH_SYSTEM, []) == FRESH_SYSTEM && CapRun(FRESH_SYSTEM, [], CONFIG.limits)
    ensures Mark(FRESH_SYSTEM, []) == 0 && Reopened(FRESH_SYSTEM, []) == 0
  {}

  // ----- fills that a restart does not see -----

  const FILL := BrokerFill("exec-1", "7", CONTRACT.conId, "SOL", Buy, 2, 150.0, 1_000_000)

  /** A broker that made one fill and holds it. */
  function Holding(working: seq<Working>): BrokerView {
    BrokerView([Position(CONTRACT.conId, "SOL", 2, 150.0)], working, [FILL])
  }

  function Stranding(working: seq<Working>, survives: Option<nat>): seq<Step> {
    Opening(false) + [Reads(working, survives)]
  }

  lemma NewAtFirst(working: seq<Working>)
    ensures NewFills(Holding(working).fills, {}) == [FILL] && KnownExecutions([]) == {}
  {
    var fills := Holding(working).fills;
    assert fills[..0] == [] && NewFills([], {}) == [];
  }

  lemma HeldIsExplained(working: seq<Working>)
    ensures Explained(Tables1(), 0, Holding(working))
  {
    NewAtFirst(working);
    var held := Holding(working).positions;
    assert held[..0] == [];
    hide NewFills, KnownExecutions;
    assert FromPositions([]) == map[] && Since([], 0) == [] && BrokerFills([]) == [];
    assert [FILL][..0] == [] && FILL.Delta() == 2;
    forall c ensures Quantity(ById(held), c) == Net([FILL], c) && Net([], c) == 0 && Quantity(map[], c) == 0 {}
  }

  lemma WorkingIsUnknown(p: Process, t: Tables, account: bool, v: BrokerView)
    requires t.orders == [] && v.working != []
    ensures !Comparison(p, t, account, v).Succeeded()
  {
    ClearsExactlyWhenExplained(p, t, account, v);
    hide Comparison;
    assert v.working[0].brokerOrderId in WorkingIds(v.working);
    assert OpenRows(t.orders) == [];
  }

  lemma UnknownNeverAdopts(p: Process, t: Tables, answers: Answers)
    requires t.orders == [] && answers.view.Some? && answers.view.value.working != []
    ensures !Adopts(p, t, answers)
  {
    WorkingIsUnknown(p, t, answers.account.Some?, answers.view.value);
  }

  lemma FillIsApplied(working: seq<Working>, account: Option<Account>)
    ensures Applied(Tables1(), Answers(account, Some(Holding(working)))) == [FILL]
  {
    NewAtFirst(working);
  }

  /** The run dies right after recording the fill, or goes on and fails on an order it does not know. */
  predicate Strands(working: seq<Working>, survives: Option<nat>) {
    if working == [] then survives == Some(1) else survives.None?
  }

  lemma OneFillKept(p: Process, t: Tables, answers: Answers, survives: Option<nat>)
    requires |Applied(t, answers)| == 1 && (survives == Some(1) || (survives.None? && !Adopts(p, t, answers)))
    ensures var es := Reconciled(p, t, answers).effects;
            |es| >= 1 && Kept(es, survives) == es[..1] && es[0].RecordFill?
  {
    ReconciledEffects(p, t, answers);
    hide Reconciled, Applied, Adopts;
    var es := Reconciled(p, t, answers).effects;
    assert |es| == 1 ==> es[..1] == es;
  }

  function Reads(working: seq<Working>, survives: Option<nat>): Step {
    Step(Event.Connected(Answers(Some(Account(Some(true))), Some(Holding(working))), Some(CONTRACT), true), survives)
  }

  lemma StarterReads(working: seq<Working>, survives: Option<nat>)
    ensures Acts(Started1(false), Reads(working, survives).event) && Started1(false).runId == "run-1"
  {}

  lemma OneFillRead(p: Process, working: seq<Working>, survives: Option<nat>)
    requires Strands(working, survives) && p.runId == "run-1"
    ensures var es := Reconciled(p, Tables1(), Reads(working, survives).event.answers).effects;
            && |es| >= 1 && Kept(es, survives) == es[..1] && es[0].RecordFill?
            && ApplyAll(Tables1(), es[..1]) == Tables1().(fills := FillRows([FILL], [], "run-1"))
  {
    var t, answers := Tables1(), Reads(working, survives).event.answers;
    hide Reconciled, FillRows, Kept, Adopts;
    FillIsApplied(working, answers.account);
    hide Applied;
    if working != [] { UnknownNeverAdopts(p, t, answers); }
    OneFillKept(p, t, answers, survives);
    ReconciledCut(p, t, answers, 1);
    assert [FILL][..1] == [FILL];
    assert t.fills + FillRows([FILL], [], "run-1") == FillRows([FILL], [], "run-1");
  }

  lemma StrandingStep(working: seq<Working>, survives: Option<nat>)
    requires Strands(working, survives)
    ensures var s, step := System(Some(Started1(false)), Tables1()), Reads(working, survives);
            && !Replaces(s, step)
            && Next(s, step).tables == Tables1().(fills := FillRows([FILL], [], "run-1"))
  {
    var s, step := System(Some(Started1(false)), Tables1()), Reads(working, survives);
    hide Next, Started1, Tables1, Reconciled, FillRows, ReactionOf, ReconcilingReaction, Kept, Acts;
    StarterReads(working, survives);
    OneFillRead(Started1(false), working, survives);
    ReconcilingStep(s, step);
    ActedEffects(s, step.event);
  }

  lemma OneUnadopted(t: Tables)
    requires t.fills == FillRows([FILL], [], "run-1")
    ensures Unadopted(t, 0) == [FILL]
  {
    assert [FILL][..0] == [] && FillRows([], [], "run-1") == [];
    var row := RowOfFill(FILL, [], "run-1");
    assert t.fills == [row] && [row][0..] == [row];
    assert [row][..0] == [] && BrokerFills([]) == [];
  }

  lemma StrandingLeaves(working: seq<Working>, survives: Option<nat>)
    requires Strands(working, survives)
    ensures AllowedRun(FRESH_SYSTEM, Stranding(working, survives))
    ensures var t, mark := Run(FRESH_SYSTEM, Stranding(working, survives)).tables, Mark(FRESH_SYSTEM, Stranding(working, survives));
            && t.positions == [] && Unadopted(t, mark) == [FILL] && Explained(t, mark, Holding(working))
  {
    var s, step := System(Some(Started1(false)), Tables1()), Reads(working, survives);
    Opened(false);
    HeldIsExplained(working);
    assert Acts(Started1(false), step.event);
    hide Next, Started1, Explained, Replaces, Run, Mark, Reopened, Unadopted;
    StrandingStep(working, survives);
    ReadingKeepsExplained(s, step, 0);
    OneUnadopted(Next(s, step).tables);
    OneStepMore(FRESH_SYSTEM, Opening(false), step);
    OneMoreAllowed(FRESH_SYSTEM, Opening(false), step, CONFIG.limits);
  }

  /**
   * A restart that does not see a fill: the process died between recording it and storing positions, or - with
   * no crash at all - its reconciliation failed on an order it does not know. The next process, loading the
   * stored positions, takes the fill for one its book has, and finds the whole of it as a discrepancy, whatever
   * the broker then works.
   */
  lemma RestartMissesAFill(working: seq<Working>, survives: Option<nat>, q: Process, account: bool, again: seq<Working>)
    requires Strands(working, survives)
    requires q.book == FromPositions(Run(FRESH_SYSTEM, Stranding(working, survives)).tables.positions)
    ensures AllowedRun(FRESH_SYSTEM, Stranding(working, survives))
    ensures var r := Comparison(q, Run(FRESH_SYSTEM, Stranding(working, survives)).tables, account, Holding(again));
            && r.positionDiscrepancies != []
            && forall d :: d in r.positionDiscrepancies ==> d.conId == CONTRACT.conId && d.Delta() == 2
  {
    hide Next, Comparison, Stranding, Run, Mark, Unadopted;
    StrandingLeaves(working, survives);
    assert Explained(Run(FRESH_SYSTEM, Stranding(working, survives)).tables, Mark(FRESH_SYSTEM, Stranding(working, survives)), Holding(again));
    RestartClearsExactlyWhen(Stranding(working, survives), q, account, Holding(again));
    NetOfFill();
    var r := Comparison(q, Run(FRESH_SYSTEM, Stranding(working, survives)).tables, account, Holding(again));
    ClearsExactlyWhenExplained(q, Run(FRESH_SYSTEM, Stranding(working, survives)).tables, account, Holding(again));
    assert Net([FILL], CONTRACT.conId) == 2;
  }

  lemma NetOfFill()
    ensures forall c :: Net([FILL], c) == if c == CONTRACT.conId then 2 else 0
  {
    assert [FILL][..0] == [] && FILL.Delta() == 2;
  }

  // ----- a submission that goes through -----

  function SentRow(s: Submission): OrderRow { AfterReply(NewRow(s).AsPendingSubmit(s.now), s.reply, s.repliedAt) }

  lemma SubmissionAddsRow(t: Tables, s: Submission)
    requires Distinct(t.orders) && FreshId(t.orders, s.freshId) && FindKey(t.orders, NewRow(s).key).None?
    requires Proceeds(t.orders, s) && s.orderType.Transmittable()
    ensures var t' := ApplyAll(t, Submit(Approvals([], []), t.orders, s).effects);
            && t'.orders == t.orders + [SentRow(s)] && SameElsewhere(t, t')
            && t'.sent == t.sent + [RequestOf(NewRow(s).AsPendingSubmit(s.now))]
  {
    var a := Approvals([], []);
    var es, c := Submit(a, t.orders, s).effects, CourseOf(a, t.orders, s);
    SubmissionDiesAtAStage(a, t, s, |es|);
    EffectsFollowCourse(a, t.orders, s);
    hide Submit, AfterReply, NewRow;
    assert es[..|es|] == es;
    assert c.table == t.orders + [c.order] && c.slot == |t.orders| && c.refusal == [];
    assert |c.Closing()| == 3 && |es| == |c.Insertion()| + 4;
    assert c.StageAfter(|es|) == Answered;
    assert (t.orders + [c.order])[|t.orders| := c.answer] == t.orders + [c.answer];
  }

  // ----- a replay that sends another size than the one assessed -----

  const TARGET := Intent("intent-1", "demo", "SOL", Long, 5, 1_000_000)

  /** The order for a target of 5 from a position of `held`, assessed and sent with everything in order. */
  function Towards(held: int, orderId: string): Submission {
    Submission(
      TARGET, CONTRACT,
      Risk.RiskContext(Buy, 5 - held, held, Some(CONTRACT), Some(150.0), Some(0.5), 0.0, 0, 0, Ready,
                       ConnectionState.Connected, Simulated, true, true, true, true, true, false, false),
      Gate.GateContext(Ready, ConnectionState.Connected, Simulated, true, false, true, true, true, Some(0.5), false, true, true, true),
      Market, None, orderId, 2_000_000, Replied(true, Some("mock-000001"), OrderStatus.Filled, None), 2_000_000)
  }

  /** A first attempt from a flat position dies once its order is stored; a second, two units later, goes through. */
  function Replay(): seq<Attempt> {
    [Attempt(ApprovalsOf(CONFIG, Towards(0, "order-1")), Towards(0, "order-1"), 1),
     Attempt(ApprovalsOf(CONFIG, Towards(2, "order-2")), Towards(2, "order-2"), 6)]
  }

  lemma BothApprove()
    ensures ApprovalsOf(CONFIG, Towards(2, "order-2")) == Approvals([], [])
  {
    hide Risk.RiskReasons, Gate.GateReasons;
    var s := Towards(2, "order-2");
    Risk.RiskApprovesExactly(CONFIG, s.risk);
    Gate.GateOpensExactly(CONFIG, s.gate);
  }

  lemma FirstAttempt(a: Approvals)
    ensures Try(EMPTY, Attempt(a, Towards(0, "order-1"), 1)) == EMPTY.(orders := [NewRow(Towards(0, "order-1"))])
  {
    var s := Towards(0, "order-1");
    hide Judge, Closing, DecisionOf;
    var es := Submit(a, [], s).effects;
    assert es[..1] == [InsertOrder(NewRow(s))];
    ApplyOne(EMPTY, InsertOrder(NewRow(s)));
  }

  lemma SecondAttempt(t: Tables)
    requires t == EMPTY.(orders := [NewRow(Towards(0, "order-1"))])
    ensures Try(t, Attempt(Approvals([], []), Towards(2, "order-2"), 6)).sent
         == [RequestOf(NewRow(Towards(0, "order-1")).AsPendingSubmit(2_000_000))]
  {
    var a, s, row := Approvals([], []), Towards(2, "order-2"), NewRow(Towards(0, "order-1"));
    assert FindKey(t.orders, NewRow(s).key) == Some(row);
    var es := Submit(a, t.orders, s).effects;
    assert |es| == 4 && es[..4] == es;
    SubmissionDiesAtAStage(a, t, s, 4);
  }

  /**
   * Both approvers assess the 3 units that take the position of 2 to its target of 5; the order that is sent
   * is the stored one, of 5.
   */
  lemma ReplaySendsStoredSize()
    ensures IdsFresh(EMPTY, Replay()) && Replay()[1].approvals == Approvals([], [])
    ensures Replay()[1].submission.risk.quantity == 3 && Replay()[1].submission.risk.ProjectedPosition() == 5
    ensures |TryAll(EMPTY, Replay()).sent| == 1 && TryAll(EMPTY, Replay()).sent[0].quantity == 5
  {
    hide Try, ApprovalsOf, Submit, RequestOf, NewRow;
    var run, s := Replay(), Towards(0, "order-1");
    BothApprove();
    FirstAttempt(run[0].approvals);
    var t := EMPTY.(orders := [NewRow(s)]);
    SecondAttempt(t);
    TwoAttempts(EMPTY, run[0], run[1]);
    SentTerms(s);
    assert run == [run[0], run[1]];
    assert run[..0] == [] && run[..1] == [run[0]];
  }

  lemma SentTerms(s: Submission)
    ensures NewRow(s).internalId == s.freshId
    ensures RequestOf(NewRow(s).AsPendingSubmit(2_000_000)).quantity == s.risk.quantity
  {}

  lemma TwoAttempts(t: Tables, a: Attempt, b: Attempt)
    ensures TryAll(t, [a]) == Try(t, a) && TryAll(t, [a, b]) == Try(Try(t, a), b)
  {
    hide Try;
    assert [a][..0] == [] && [a, b][..1] == [a];
  }

  // ----- an acceptance that comes with NEW -----

  /** A sent order stored as if it never was, were a broker to accept it with NEW. */
  lemma ImpoliteAnswerMisreports()
    ensures var s := Towards(0, "order-1").(reply := Replied(true, Some("7"), New, None));
            var t := ApplyAll(EMPTY, Submit(Approvals([], []), [], s).effects);
            && |t.sent| == 1 && |t.orders| == 1 && t.orders[0].status == New && t.orders[0].WasTransmitted()
            && !Strict(t.orders[0])
  {
    var s := Towards(0, "order-1").(reply := Replied(true, Some("7"), New, None));
    SubmissionAddsRow(EMPTY, s);
  }

  // ----- an operator's reading that the trading process misses -----

  const TRADER: nat := 0
  const OPERATOR: nat := 1

  const READING := Step(OperatorRechecked(Answers(Some(Account(Some(true))), Some(Holding([])))), None)
  const RECHECK := Step(Rechecked(Answers(Some(Account(Some(true))), Some(Holding([]))), true), None)

  /** The trading process is up; the operator command starts and connects beside it. */
  function Beside(): seq<Turn> {
    [Turn(TRADER, Step(Startup(CONFIG, "run-1", false, {}), None))]
    + [Turn(TRADER, Step(OPEN_SESSION, None))]
    + [Turn(OPERATOR, Step(Startup(CONFIG, "run-2", true, {}), None))]
    + [Turn(OPERATOR, Step(OPEN_SESSION, None))]
  }

  function Starter(): Process { Commanding("run-2", {}) }

  function OperatorProcess(): Process { Commanded("run-2", {}) }

  function BesideTables(): Tables { Tables1().(state := map[LAST_RUN_KEY := "run-2"]) }

  lemma OperatorStarts()
    ensures Next(System(None, Tables1()), Step(Startup(CONFIG, "run-2", true, {}), None)) == System(Some(Starter()), BesideTables())
  {
    var e := PutState(LAST_RUN_KEY, "run-2");
    ApplyOne(Tables1(), e);
    assert Kept([e], None) == [e];
    hide Started;
  }

  /** An operator command just started, over tables without positions; and once it is READY. */
  function Commanding(runId: string, seed: set<string>): Process { Started(EMPTY, CONFIG, runId, true, seed) }

  function Commanded(runId: string, seed: set<string>): Process { Ready1(true).(runId := runId, seen := seed) }

  /** Over tables with no fill, no position and no open row there is nothing to compare with a broker at rest. */
  lemma RestAdopted(t: Tables, runId: string, seed: set<string>)
    requires t.fills == [] && t.positions == [] && OpenRows(t.orders) == []
    ensures Reconciled(Commanding(runId, seed), t, OPEN_SESSION.answers)
         == Reaction(Some(Commanded(runId, seed).(state := Reconciling, contract := None)), [ReplacePositions([])])
  {
    NothingToCompare(true);
    SameComparison(Commanding(runId, seed), Started1(true), t, Tables1(), OPEN_SESSION.answers.view.value);
    hide Comparison;
    assert FillEffects([], t.orders, runId) == [];
  }

  lemma OperatorConnects(t: Tables, runId: string, seed: set<string>)
    requires t.fills == [] && t.positions == [] && OpenRows(t.orders) == [] && !Latched(t.state)
    ensures Next(System(Some(Commanding(runId, seed)), t), Step(OPEN_SESSION, None)) == System(Some(Commanded(runId, seed)), t)
  {
    var s, step := System(Some(Commanding(runId, seed)), t), Step(OPEN_SESSION, None);
    RestAdopted(t, runId, seed);
    assert Acts(Commanding(runId, seed), OPEN_SESSION);
    ReconcilingStep(s, step);
    hide Next, Reconciled, OpenRows, Latched;
    ApplyOne(t, ReplacePositions([]));
  }

  /** A comparison looks at the book, the open rows and the known executions. */
  lemma SameComparison(p: Process, p': Process, t: Tables, t': Tables, v: BrokerView)
    requires p'.book == p.book && OpenRows(t'.orders) == OpenRows(t.orders) && t'.fills == t.fills
    ensures Comparison(p', t', true, v) == Comparison(p, t, true, v)
  {}

  lemma OneTurnMore(f: Fleet, turns: seq<Turn>, turn: Turn)
    requires AllowedPlay(f, turns) && TurnAllowed(Play(f, turns), turn)
    ensures AllowedPlay(f, turns + [turn]) && Play(f, turns + [turn]) == After(Play(f, turns), turn)
  {
    hide After, TurnAllowed;
    var more := turns + [turn];
    assert more[..|turns|] == turns;
    forall n | 0 <= n < |more| ensures TurnAllowed(Play(f, more[..n]), more[n]) {
      assert n < |turns| ==> more[..n] == turns[..n];
    }
  }

  lemma TurnFacts()
    ensures Allowed(FRESH_SYSTEM, Startup(CONFIG, "run-1", false, {}))
    ensures Allowed(System(Some(Started1(false)), Tables1()), OPEN_SESSION)
    ensures Allowed(System(None, Tables1()), Startup(CONFIG, "run-2", true, {})) && Ready1(false).runId != "run-2"
  {
    ReadyOne(false);
    assert "run-1"[4] != "run-2"[4];
  }

  lemma NoTurns()
    ensures Play(FRESH_FLEET, []) == FRESH_FLEET && AllowedPlay(FRESH_FLEET, [])
  {}

  lemma TraderComesUp()
    ensures var turns := Beside()[..2];
            AllowedPlay(FRESH_FLEET, turns) && Play(FRESH_FLEET, turns) == Fleet(map[TRADER := Ready1(false)], Tables1())
  {
    StartupRuns(false);
    SessionOpens(false);
    TurnFacts();
    hide Next, Ready1, Started1, Tables1, Allowed, Play, AllowedPlay;
    NoTurns();
    var one := [Beside()[0]];
    assert [] + one == one && one + [Beside()[1]] == Beside()[..2];
    OneTurnMore(FRESH_FLEET, [], one[0]);
    assert Play(FRESH_FLEET, one) == Fleet(map[TRADER := Started1(false)], Tables1());
    OneTurnMore(FRESH_FLEET, one, Beside()[1]);
  }

  lemma OperatorJoins()
    ensures var turns := Beside()[..3];
            && AllowedPlay(FRESH_FLEET, turns)
            && Play(FRESH_FLEET, turns) == Fleet(map[TRADER := Ready1(false), OPERATOR := Starter()], BesideTables())
  {
    TraderComesUp();
    OperatorStarts();
    TurnFacts();
    hide Next, Ready1, Started1, Tables1, Allowed, BesideTables, Starter, Play, AllowedPlay;
    assert Beside()[..2] + [Beside()[2]] == Beside()[..3];
    OneTurnMore(FRESH_FLEET, Beside()[..2], Beside()[2]);
  }

  lemma CommandConnects()
    ensures Next(System(Some(Starter()), BesideTables()), Step(OPEN_SESSION, None)) == System(Some(OperatorProcess()), BesideTables())
  {
    hide Next;
    assert LATCH_KEY[0] != LAST_RUN_KEY[0];
    OperatorConnects(BesideTables(), "run-2", {});
  }

  lemma BesideGoes()
    ensures AllowedPlay(FRESH_FLEET, Beside())
    ensures Play(FRESH_FLEET, Beside()) == Fleet(map[TRADER := Ready1(false), OPERATOR := OperatorProcess()], BesideTables())
  {
    OperatorJoins();
    CommandConnects();
    hide Next, Ready1, BesideTables, Starter, OperatorProcess, Play, AllowedPlay;
    assert Beside()[..3] + [Beside()[3]] == Beside();
    OneTurnMore(FRESH_FLEET, Beside()[..3], Beside()[3]);
  }

  /** A re-check that finds a position discrepancy leaves a process SAFE. */
  lemma DisagreeingIsSafe(s: System, step: Step)
    requires s.process.Some? && HasBroker(s.process.value) && step.event.Rechecked? && step.survives.None?
    requires step.event.answers.view.Some?
    requires Comparison(s.process.value, s.tables, step.event.answers.account.Some?, step.event.answers.view.value).positionDiscrepancies != []
    ensures Next(s, step).process.Some? && Next(s, step).process.value.state == Safe
  {
    ReconcilingStep(s, step);
    hide Next, Comparison, ReadyState, FillEffects;
  }

  lemma CleanBefore(account: bool)
    ensures Comparison(Ready1(false), BesideTables(), account, Holding([])).positionDiscrepancies == []
  {
    ReadyOne(false);
    HeldIsExplained([]);
    NewAtFirst([]);
    NetOfFill();
    ClearsExactlyWhenExplained(Ready1(false), BesideTables(), account, Holding([]));
    assert FromPositions([]) == map[] && Since([], 0) == [] && BrokerFills([]) == [];
    hide Comparison, Ready1, ById, NewFills, KnownExecutions, FromPositions, Since, BrokerFills;
  }

  lemma OperatorReads()
    ensures Acts(OperatorProcess(), READING.event) && OperatorProcess().runId == "run-2"
    ensures BesideTables().fills == [] && BesideTables().orders == []
    ensures Applied(BesideTables(), READING.event.answers) == [FILL]
  {
    ReadyOne(true);
    NewAtFirst([]);
  }

  lemma OperatorTakes()
    ensures Acts(OperatorProcess(), READING.event)
    ensures Next(System(Some(OperatorProcess()), BesideTables()), READING).tables.fills == FillRows([FILL], [], "run-2")
  {
    var s := System(Some(OperatorProcess()), BesideTables());
    var p, t, answers := OperatorProcess(), BesideTables(), READING.event.answers;
    hide Next, Ready1, BesideTables, OperatorProcess, Reconciled, FillRows, ReactionOf, Adopts, Applied, Replaces, Acts;
    OperatorReads();
    var k := ReconcilingEffects(s, READING);
    UncutLength(p, t, answers);
    ReconciledTables(p, t, answers);
    var es := Reconciled(p, t, answers).effects;
    assert es[..k] == es;
    assert t.fills + FillRows([FILL], [], "run-2") == FillRows([FILL], [], "run-2");
  }

  lemma OthersStay(f: Fleet, who: nat, turn: Turn)
    requires who in f.live && who != turn.who
    ensures who in After(f, turn).live && After(f, turn).live[who] == f.live[who]
    ensures After(f, turn).tables == Next(SystemOf(f, turn.who), turn.step).tables
  {
    hide Next;
  }

  lemma TheTraderDisagrees()
    ensures var f := Fleet(map[TRADER := Ready1(false), OPERATOR := OperatorProcess()], BesideTables());
            Comparison(Ready1(false), After(f, Turn(OPERATOR, READING)).tables, true, Holding([])).positionDiscrepancies != []
  {
    var f := Fleet(map[TRADER := Ready1(false), OPERATOR := OperatorProcess()], BesideTables());
    assert BesideTables().fills == [];
    hide Next, Comparison, Ready1, OperatorProcess, BesideTables, Since, BrokerFills, FillRows, After, Acts;
    CleanBefore(true);
    OperatorTakes();
    OthersStay(f, TRADER, Turn(OPERATOR, READING));
    ForeignReadingIsMissed(f, TRADER, OPERATOR, READING, true);
    TakenAre([], [FILL], [], "run-2");
    assert [] + FillRows([FILL], [], "run-2") == FillRows([FILL], [], "run-2");
    NetOfFill();
    assert Net([FILL], CONTRACT.conId) == 2;
  }

  /**
   * The operator command re-reconciles after its fill so that the fill is recorded and not reported as a
   * discrepancy. But the process that is live beside it is READY and would have taken the fill from these very
   * answers; now the fill is known to the tables and not to its book, and its next re-check takes it to SAFE.
   */
  lemma OperatorReadingStopsTheTrader()
    ensures AllowedPlay(FRESH_FLEET, Beside() + [Turn(OPERATOR, READING)] + [Turn(TRADER, RECHECK)])
    ensures var before := Play(FRESH_FLEET, Beside());
            && TRADER in before.live && before.live[TRADER].state.Ready?
            && Comparison(before.live[TRADER], before.tables, true, Holding([])).positionDiscrepancies == []
    ensures var after := Play(FRESH_FLEET, Beside() + [Turn(OPERATOR, READING)] + [Turn(TRADER, RECHECK)]);
            TRADER in after.live && after.live[TRADER].state == Safe
  {
    hide Next, Comparison, Ready1, OperatorProcess, BesideTables, Play, AllowedPlay;
    BesideGoes();
    ReadyOne(false);
    CleanBefore(true);
    TheTraderDisagrees();
    var f := Fleet(map[TRADER := Ready1(false), OPERATOR := OperatorProcess()], BesideTables());
    var read := After(f, Turn(OPERATOR, READING));
    OneTurnMore(FRESH_FLEET, Beside(), Turn(OPERATOR, READING));
    OneTurnMore(FRESH_FLEET, Beside() + [Turn(OPERATOR, READING)], Turn(TRADER, RECHECK));
    assert SystemOf(read, TRADER) == System(Some(Ready1(false)), read.tables);
    DisagreeingIsSafe(SystemOf(read, TRADER), RECHECK);
  }
}
