/** Concrete runs in which an order is sent and the status poll, or its absence, goes wrong. */
module OrderWitnesses {
  import opened Enums
  import opened Configuration
  import opened Orders
  import opened OrderTable
  import opened Positions
  import opened Durable
  import opened Signals
  import opened Reconciliation
  import opened Ingestion
  import opened OrderManagement
  import opened OrderSafety
  import opened AtMostOnce
  import opened OrdersOverRuns
  import opened Machine
  import opened Lifecycle
  import opened Caps
  import opened IntentSafety
  import opened Reachability
  import opened StuckOrders
  import opened Witnesses
  import Risk
  import Gate

  // ----- a live process that sends -----

  function Buying(intentId: string, orderId: string): Handling {
    PURCHASE.(intent := PURCHASE.intent.(intentId := intentId), freshId := orderId,
              reply := Replied(true, Some("7"), PendingSubmit, None))
  }

  /** A READY process that has seen `seen`: an operator command, or a trading process in a tick. */
  function Live(admin: bool, runId: string, seen: set<string>): Process {
    Ready1(admin).(runId := runId, seen := seen, inTick := !admin)
  }

  lemma LiveOne(admin: bool, runId: string, seen: set<string>)
    ensures var p := Live(admin, runId, seen);
            && p.config == CONFIG && p.contract == Some(CONTRACT) && HasBroker(p) && (p.inTick || p.admin) && p.admin == admin
            && p.seen == seen && p.runId == runId && p.state == Ready && p.book == map[]
  {
    ReadyOne(admin);
  }

  lemma LiveSends(admin: bool, runId: string, seen: set<string>, t: Tables, intentId: string, orderId: string)
    requires intentId !in seen && !Latched(t.state) && OpenRows(t.orders) == [] && |t.orders| <= 1
    ensures Sendable(Live(admin, runId, seen), t, Buying(intentId, orderId))
  {
    var h := Buying(intentId, orderId);
    ReadyOne(admin);
    LiveAccepts(admin, runId, seen, h, intentId, orderId);
    hide Acceptable, Started1, Ready1, OpenRows, Latched;
    assert SideAndQuantity(0, 2) == (Buy, 2);
    assert CountSince(t.orders, h.times.counted - HOUR) <= 1;
  }

  lemma LiveAccepts(admin: bool, runId: string, seen: set<string>, h: Handling, intentId: string, orderId: string)
    requires h == Buying(intentId, orderId) && intentId !in seen
    ensures Acceptable(Live(admin, runId, seen), h)
  {
    ReadyOne(admin);
    assert Upper("SOL") == "SOL" && "SOL" in SUPPORTED_SYMBOLS && Lower("demo") == "demo";
  }

  lemma HandledAddsRow(p: Process, t: Tables, h: Handling)
    requires Distinct(t.orders) && FreshId(t.orders, h.freshId) && OrdersAreSeen(p, t) && Sendable(p, t, h)
    ensures var t' := ApplyAll(t, Handled(p, t, h).effects);
            && t'.orders == t.orders + [SentRow(SubmissionOf(p, t, h, p.contract.value))]
            && SameElsewhere(Apply(t, SignalOf(h)), t')
    ensures Handled(p, t, h).process == Some(p.(seen := p.seen + {h.intent.intentId}))
  {
    hide Acceptable, Submit, Proceeds, Submits, Distinct, FindKey, ApprovalsOf, SentRow, SubmissionOf, OrdersAreSeen;
    var s := SubmissionOf(p, t, h, p.contract.value);
    SendableProceeds(p, t, h);
    SubmissionTakes(p, t, h, p.contract.value);
    hide Sendable;
    var es := Handled(p, t, h).effects;
    HandledLength(p, t, h);
    HandledCut(p, t, h, |es|);
    SubmissionAddsRow(Apply(t, SignalOf(h)), s);
    var work := SubmissionEffects(p, t, h);
    assert es[..|es|] == es && work[..|work|] == work;
  }

  lemma BuyingRow(p: Process, t: Tables, intentId: string, orderId: string)
    ensures var r := SentRow(SubmissionOf(p, t, Buying(intentId, orderId), CONTRACT));
            r.internalId == orderId && r.key.intentId == intentId && r.brokerOrderId == Some("7") && r.IsOpen()
  {}

  /** Nothing was filled, nothing is held, no switch is latched, and the intents recorded are those seen. */
  ghost predicate Quiescent(t: Tables, seen: set<string>) {
    && t.fills == [] && t.positions == [] && !Latched(t.state)
    && forall i :: 0 <= i < |t.signals| ==> t.signals[i].intentId in seen
  }

  lemma LiveBuys(s: System, admin: bool, runId: string, seen: set<string>, intentId: string, orderId: string) returns (r: OrderRow)
    requires s.process == Some(Live(admin, runId, seen)) && Quiescent(s.tables, seen) && Distinct(s.tables.orders)
    requires forall i :: 0 <= i < |s.tables.orders| ==> s.tables.orders[i].key.intentId in seen
    requires intentId !in seen && FreshId(s.tables.orders, orderId)
    requires OpenRows(s.tables.orders) == [] && |s.tables.orders| <= 1
    ensures var s' := Next(s, Step(IntentHandled(Buying(intentId, orderId)), None));
            && s'.process == Some(Live(admin, runId, seen + {intentId})) && Quiescent(s'.tables, seen + {intentId})
            && s'.tables.orders == s.tables.orders + [r]
    ensures r.internalId == orderId && r.key.intentId == intentId && r.brokerOrderId == Some("7") && r.IsOpen()
  {
    hide Next, Sendable, Handled, SubmissionOf, Latched, OpenRows, Distinct;
    var h := Buying(intentId, orderId);
    var p := Live(admin, runId, seen);
    LiveOne(admin, runId, seen);
    assert p.(seen := seen + {intentId}) == Live(admin, runId, seen + {intentId});
    hide Ready1, Started1, Live;
    LiveSends(admin, runId, seen, s.tables, intentId, orderId);
    r := SentRow(SubmissionOf(p, s.tables, h, CONTRACT));
    BuyingRow(p, s.tables, intentId, orderId);
    hide SentRow;
    HandledAddsRow(p, s.tables, h);
    HandledIsNext(s, h);
  }

  // ----- runs of such processes -----

  lemma Goes(steps: seq<Step>, step: Step)
    requires CapRun(FRESH_SYSTEM, steps, CONFIG.limits) && CapStep(Run(FRESH_SYSTEM, steps), step.event, CONFIG.limits)
    ensures CapRun(FRESH_SYSTEM, steps + [step], CONFIG.limits)
    ensures Run(FRESH_SYSTEM, steps + [step]) == Next(Run(FRESH_SYSTEM, steps), step)
    ensures Reopened(FRESH_SYSTEM, steps + [step])
         == Reopened(FRESH_SYSTEM, steps) + ReopenedBy(Run(FRESH_SYSTEM, steps).tables.orders, step.event)
  {
    OneStepMore(FRESH_SYSTEM, steps, step);
    OneMoreAllowed(FRESH_SYSTEM, steps, step, CONFIG.limits);
  }

  /** The run ends with this process, over quiescent tables with these rows, having reopened so many of them. */
  ghost predicate Ends(steps: seq<Step>, process: Option<Process>, seen: set<string>, rows: Rows, reopened: int) {
    && CapRun(FRESH_SYSTEM, steps, CONFIG.limits) && Reopened(FRESH_SYSTEM, steps) == reopened
    && Run(FRESH_SYSTEM, steps).process == process
    && Run(FRESH_SYSTEM, steps).tables.orders == rows && Quiescent(Run(FRESH_SYSTEM, steps).tables, seen)
  }

  ghost predicate Leaves(steps: seq<Step>, p: Process, rows: Rows, reopened: int) {
    Ends(steps, Some(p), p.seen, rows, reopened)
  }

  function Session(): seq<Step> { Opening(true) + [Step(OPEN_SESSION, None)] }

  function Trading(): seq<Step> { Opening(false) + [Step(OPEN_SESSION, None)] + [Step(Ticked(true), None)] }

  lemma FirstTables()
    ensures Quiescent(Tables1(), {}) && Tables1().orders == []
  {
    assert LATCH_KEY[0] != LAST_RUN_KEY[0];
  }

  lemma OperatorConnects()
    ensures Leaves(Session(), Live(true, "run-1", {}), [], 0)
  {
    Witnesses.Opened(true);
    SessionOpens(true);
    ReadyOne(true);
    FirstTables();
    assert Ready1(true) == Live(true, "run-1", {});
    hide Next, Run, Started1, Ready1, Live, CapRun, Reopened, Quiescent;
    Goes(Opening(true), Step(OPEN_SESSION, None));
    LiveOne(true, "run-1", {});
  }

  lemma TraderTicks()
    ensures Leaves(Trading(), Live(false, "run-1", {}), [], 0)
  {
    Witnesses.Opened(false);
    SessionOpens(false);
    TickRuns();
    ReadyOne(false);
    FirstTables();
    assert Ready1(false).(inTick := true) == Live(false, "run-1", {});
    hide Next, Run, Started1, Ready1, Live, CapRun, Reopened, Quiescent;
    Goes(Opening(false), Step(OPEN_SESSION, None));
    Goes(Opening(false) + [Step(OPEN_SESSION, None)], Step(Ticked(true), None));
    LiveOne(false, "run-1", {});
  }

  lemma BuyGoes(steps: seq<Step>, admin: bool, runId: string, seen: set<string>, rows: Rows, intentId: string, orderId: string)
    returns (r: OrderRow)
    requires Leaves(steps, Live(admin, runId, seen), rows, 0) && OpenRows(rows) == [] && |rows| <= 1 && Distinct(rows)
    requires intentId !in seen && FreshId(rows, orderId) && forall i :: 0 <= i < |rows| ==> rows[i].key.intentId in seen
    ensures Leaves(steps + [Step(IntentHandled(Buying(intentId, orderId)), None)], Live(admin, runId, seen + {intentId}), rows + [r], 0)
    ensures r.internalId == orderId && r.key.intentId == intentId && r.brokerOrderId == Some("7") && r.IsOpen()
  {
    LiveOne(admin, runId, seen);
    LiveOne(admin, runId, seen + {intentId});
    hide Next, Live, CapRun, Reopened, Run, Quiescent;
    var h := Buying(intentId, orderId);
    r := LiveBuys(Run(FRESH_SYSTEM, steps), admin, runId, seen, intentId, orderId);
    assert h.intent.Consistent() && h.times.Ordered();
    Goes(steps, Step(IntentHandled(h), None));
  }

  // ----- a status poll that takes the open count past its limit -----

  /** What an operator command learns of broker order 7, which is never filled. */
  function Learns(ibStatus: string, at: int): Event { StatusLearned(StatusUpdate("7", ibStatus, 0, None, at)) }

  function Learnt(r: OrderRow, ibStatus: string, at: int): OrderRow {
    r.(status := FromIbStatus(ibStatus), filledQuantity := 0, averageFillPrice := None, updatedAt := at)
  }

  /** The poll reaches the first row with the broker id. */
  lemma PollReachesFirst(s: System, r: OrderRow, rest: Rows, ibStatus: string, at: int)
    requires s.process.Some? && s.process.value.admin && HasBroker(s.process.value)
    requires s.tables.orders == [r] + rest && Distinct(s.tables.orders) && r.brokerOrderId == Some("7")
    ensures Next(s, Step(Learns(ibStatus, at), None))
         == System(s.process, s.tables.(orders := [Learnt(r, ibStatus, at)] + rest))
  {
    hide Comparison, Reconciled, Started, Handled, FromIbStatus;
    var u := Learns(ibStatus, at).update;
    FirstIsFound(r, rest, "7");
    var e := UpdateOrder(Learnt(r, ibStatus, at));
    assert ReactionOf(s, Learns(ibStatus, at)).effects == [e];
    ApplyOne(s.tables, e);
    UpdateAt(s.tables.orders, e.row, 0);
  }

  lemma {:induction false} FirstIsFound(r: OrderRow, rest: Rows, id: string)
    requires r.brokerOrderId == Some(id)
    ensures FindBroker([r] + rest, id) == Some(r)
  {
    var rows := [r] + rest;
    if rest == [] {
      assert rows[..0] == [] && rows == [r];
    } else {
      assert rows[..|rows| - 1] == [r] + rest[..|rest| - 1];
      FirstIsFound(r, rest[..|rest| - 1], id);
    }
  }

  lemma PollGoes(steps: seq<Step>, runId: string, seen: set<string>, r: OrderRow, rest: Rows, ibStatus: string, at: int)
    requires Leaves(steps, Live(true, runId, seen), [r] + rest, 0) && Distinct([r] + rest) && r.brokerOrderId == Some("7")
    ensures Leaves(steps + [Step(Learns(ibStatus, at), None)], Live(true, runId, seen), [Learnt(r, ibStatus, at)] + rest,
                   One(!r.IsOpen() && FromIbStatus(ibStatus).IsOpen()))
  {
    LiveOne(true, runId, seen);
    hide Next, CapRun, Reopened, Run, Learnt, FromIbStatus, Live, Latched;
    PollReachesFirst(Run(FRESH_SYSTEM, steps), r, rest, ibStatus, at);
    FirstIsFound(r, rest, "7");
    Goes(steps, Step(Learns(ibStatus, at), None));
  }

  const BUY_ONE := Step(IntentHandled(Buying("intent-1", "order-1")), None)
  const CANCELLED := Step(Learns("Cancelled", 3_000_000), None)
  const STOP := Step(Stopped, None)
  const START_TWO := Step(Startup(CONFIG, "run-2", true, {"intent-1"}), None)
  const BUY_TWO := Step(IntentHandled(Buying("intent-2", "order-2")), None)
  const WORKING := Step(Learns("Submitted", 4_000_000), None)

  function FirstCommand(): seq<Step> { Session() + [BUY_ONE] + [CANCELLED] }

  function SecondCommand(): seq<Step> { FirstCommand() + [STOP] + [START_TWO] + [Step(OPEN_SESSION, None)] }

  /**
   * Two operator commands, each a process of its own under a client id of its own: the first sends an order that
   * the broker cancels; the second sends another, which its client's ids also make number 7, and asks for its status.
   */
  function Polling(): seq<Step> { SecondCommand() + [BUY_TWO] + [WORKING] }

  lemma OneRow(r: OrderRow)
    ensures OpenRows([r]) == if r.IsOpen() then [r] else []
  {
    assert [r][..0] == [];
  }

  lemma BothOpen(r: OrderRow, r': OrderRow)
    requires r.IsOpen() && r'.IsOpen()
    ensures |OpenRows([r, r'])| == 2
  {
    OneRow(r);
    assert [r, r'][..1] == [r];
  }

  lemma FirstGoes() returns (r: OrderRow)
    ensures Leaves(FirstCommand(), Live(true, "run-1", {"intent-1"}), [r], 0)
    ensures r.internalId == "order-1" && r.key.intentId == "intent-1" && r.brokerOrderId == Some("7") && r.status == Cancelled
  {
    hide Leaves, Session, Live;
    OperatorConnects();
    var one := BuyGoes(Session(), true, "run-1", {}, [], "intent-1", "order-1");
    assert [] + [one] == [one] + [] && {} + {"intent-1"} == {"intent-1"};
    PollGoes(Session() + [BUY_ONE], "run-1", {"intent-1"}, one, [], "Cancelled", 3_000_000);
    r := Learnt(one, "Cancelled", 3_000_000);
    assert [r] + [] == [r];
  }

  lemma Stops(p: Process, t: Tables)
    ensures Next(System(Some(p), t), STOP) == System(None, t)
  {
    hide Comparison, Reconciled, Handled, StatusEffects, Started;
  }

  function Begun(): Process { Commanding("run-2", {"intent-1"}) }

  lemma SecondStarts(t: Tables)
    requires Quiescent(t, {"intent-1"})
    ensures Next(System(None, t), START_TWO) == System(Some(Begun()), t.(state := t.state[LAST_RUN_KEY := "run-2"]))
    ensures CapStep(System(None, t), START_TWO.event, CONFIG.limits)
    ensures Quiescent(t.(state := t.state[LAST_RUN_KEY := "run-2"]), {"intent-1"})
  {
    var e := PutState(LAST_RUN_KEY, "run-2");
    ApplyOne(t, e);
    assert Kept([e], None) == [e];
    assert LATCH_KEY[0] != LAST_RUN_KEY[0];
  }

  lemma SecondConnects(t: Tables)
    requires Quiescent(t, {"intent-1"}) && OpenRows(t.orders) == []
    ensures Next(System(Some(Begun()), t), Step(OPEN_SESSION, None)) == System(Some(Live(true, "run-2", {"intent-1"})), t)
  {
    Witnesses.OperatorConnects(t, "run-2", {"intent-1"});
    ReadyOne(true);
    hide Next;
  }

  lemma StopGoes(steps: seq<Step>, p: Process, rows: Rows)
    requires Leaves(steps, p, rows, 0)
    ensures Ends(steps + [STOP], None, p.seen, rows, 0)
  {
    hide Next, CapRun, Reopened, Run, Quiescent;
    Stops(p, Run(FRESH_SYSTEM, steps).tables);
    Goes(steps, STOP);
  }

  lemma StartGoes(steps: seq<Step>, rows: Rows)
    requires Ends(steps, None, {"intent-1"}, rows, 0)
    ensures Ends(steps + [START_TWO], Some(Begun()), {"intent-1"}, rows, 0)
  {
    hide Next, CapRun, Reopened, Run, Quiescent, CapStep, Begun;
    SecondStarts(Run(FRESH_SYSTEM, steps).tables);
    Goes(steps, START_TWO);
  }

  lemma ConnectGoes(steps: seq<Step>, rows: Rows)
    requires Ends(steps, Some(Begun()), {"intent-1"}, rows, 0) && OpenRows(rows) == []
    ensures Leaves(steps + [Step(OPEN_SESSION, None)], Live(true, "run-2", {"intent-1"}), rows, 0)
  {
    hide Next, CapRun, Reopened, Run, Quiescent, Begun, Live, OpenRows;
    SecondConnects(Run(FRESH_SYSTEM, steps).tables);
    LiveOne(true, "run-2", {"intent-1"});
    Goes(steps, Step(OPEN_SESSION, None));
  }

  lemma SecondGoes() returns (r: OrderRow)
    ensures Leaves(SecondCommand(), Live(true, "run-2", {"intent-1"}), [r], 0)
    ensures r.internalId == "order-1" && r.key.intentId == "intent-1" && r.brokerOrderId == Some("7") && r.status == Cancelled
  {
    hide Leaves, Ends, FirstCommand, Live, Begun;
    r := FirstGoes();
    OneRow(r);
    LiveOne(true, "run-1", {"intent-1"});
    StopGoes(FirstCommand(), Live(true, "run-1", {"intent-1"}), [r]);
    StartGoes(FirstCommand() + [STOP], [r]);
    ConnectGoes(FirstCommand() + [STOP] + [START_TWO], [r]);
  }

  /**
   * With an open-order limit of 1, obeyed by every approval, a status poll leaves two open rows: the poll for the
   * second command's order reopens the first command's, which the broker cancelled. The bound of
   * `Caps.LimitsHoldOverRuns` is attained.
   */
  lemma PollPassesTheLimit()
    ensures CapRun(FRESH_SYSTEM, Polling(), CONFIG.limits) && CONFIG.limits.maxOpenOrders == 1
    ensures |OpenRows(Run(FRESH_SYSTEM, Polling()).tables.orders)| == 2 && Reopened(FRESH_SYSTEM, Polling()) == 1
  {
    hide Next, CapRun, Reopened, Run, Live, SecondCommand;
    var first := SecondGoes();
    OneRow(first);
    var second := BuyGoes(SecondCommand(), true, "run-2", {"intent-1"}, [first], "intent-2", "order-2");
    assert [first] + [second] == [first, second];
    PollGoes(SecondCommand() + [BUY_TWO], "run-2", {"intent-1"} + {"intent-2"}, first, [second], "Submitted", 4_000_000);
    BothOpen(Learnt(first, "Submitted", 4_000_000), second);
    assert [Learnt(first, "Submitted", 4_000_000)] + [second] == [Learnt(first, "Submitted", 4_000_000), second];
  }

  // ----- an order that is over, and a row that stays open -----

  /** The trading process sends an order, which the broker acknowledges as number 7 and then cancels, unfilled. */
  function Sending(): seq<Step> { Trading() + [BUY_ONE] }

  /** The broker works nothing, holds nothing and made no fill. */
  const AT_REST := Answers(Some(Account(Some(true))), Some(BrokerView([], [], [])))

  lemma UnadoptedIsUnready(s: System, step: Step)
    requires s.process.Some? && step.event.Rechecked? && HasBroker(s.process.value) && step.survives.None?
    requires !Adopts(s.process.value, s.tables, step.event.answers)
    ensures !IsReady(Next(s, step))
  {
    hide Next, Adopts, ReconcilingReaction;
    ReconcilingStep(s, step);
    ReadyOutcome(s.process.value, s.tables, step.event);
  }

  lemma SendingLeaves() returns (r: OrderRow)
    ensures Leaves(Sending(), Live(false, "run-1", {"intent-1"}), [r], 0)
    ensures r.brokerOrderId == Some("7") && r.IsOpen()
  {
    hide Leaves, Trading, Live;
    TraderTicks();
    r := BuyGoes(Trading(), false, "run-1", {}, [], "intent-1", "order-1");
    assert [] + [r] == [r] && {} + {"intent-1"} == {"intent-1"};
  }

  /**
   * One order is enough: the trading process is READY, its row says open, and the broker is at rest. The next
   * re-check ends READY although nothing is wrong, and in no later run - of this or any later process - is there
   * READY or an order, unless a poll learns a closed status for number 7 or some answer shows a working number 7.
   */
  lemma OneFinishedOrderStopsTrading(later: seq<Step>)
    requires var checked := Next(Run(FRESH_SYSTEM, Sending()), Step(Rechecked(AT_REST, true), None));
             AllowedRun(checked, later) && RunLeavesIt(later, Some("7"))
    ensures AllowedRun(FRESH_SYSTEM, Sending()) && IsReady(Run(FRESH_SYSTEM, Sending()))
    ensures var checked := Next(Run(FRESH_SYSTEM, Sending()), Step(Rechecked(AT_REST, true), None));
            && !IsReady(checked) && !IsReady(Run(checked, later))
            && Run(checked, later).tables.sent == checked.tables.sent
  {
    var s, step := Run(FRESH_SYSTEM, Sending()), Step(Rechecked(AT_REST, true), None);
    hide Next, Run, Live, Adopts, RunLeavesIt, Allowed, CapRun, Reopened, Sending, Quiescent;
    var r := SendingLeaves();
    LiveOne(false, "run-1", {"intent-1"});
    CappedIsAllowed(Sending());
    RunKeepsSound(FRESH_SYSTEM, Sending());
    assert Holds(s.tables.orders[0], Some("7"));
    hide Sound, AllowedRun;
    RestIsAllowed(s);
    StuckNeverAdopts(s.process.value, s.tables, AT_REST, Some("7"));
    UnadoptedIsUnready(s, step);
    StepKeepsSound(s, step);
    StepStaysStuck(s, step, Some("7"));
    hide Stuck, IsReady, Holds;
    assert later[..0] == [];
    NoStepsYet(Next(s, step));
    UnreadyToTheEnd(Next(s, step), later, 0, Some("7"));
  }

  lemma CappedIsAllowed(steps: seq<Step>)
    requires CapRun(FRESH_SYSTEM, steps, CONFIG.limits)
    ensures AllowedRun(FRESH_SYSTEM, steps)
  {
    hide Next, Allowed, Run;
    forall n | 0 <= n < |steps| ensures Allowed(Run(FRESH_SYSTEM, steps[..n]), steps[n].event) {
      assert CapStep(Run(FRESH_SYSTEM, steps[..n]), steps[n].event, CONFIG.limits);
    }
  }

  lemma RestIsAllowed(s: System)
    ensures Allowed(s, Rechecked(AT_REST, true)) && LeavesIt(Rechecked(AT_REST, true), Some("7")) && Unworked(AT_REST, Some("7"))
  {}
}
