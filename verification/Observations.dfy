/** What the approvers are shown of an intent, and what is written down around it, column by column. */
module Observations {
  import opened Enums
  import opened Configuration
  import opened Orders
  import opened OrderTable
  import opened Positions
  import opened Durable
  import opened Signals
  import opened Reconciliation
  import opened Ingestion
  import opened OrderManagement
  import opened OrderSafety
  import opened AtMostOnce
  import opened OrdersOverRuns
  import opened Machine
  import opened Lifecycle
  import opened IntentSafety
  import opened KillSwitches
  import opened Outcomes
  import Risk
  import Gate

  // ----- what the approvers are shown -----

  /** An age in seconds is the distance from the quote's arrival, and absent without a quote. */
  ghost predicate Ages(age: Option<real>, quote: Option<Quote>, now: int) {
    && (quote.None? <==> age.None?)
    && (quote.Some? ==> age.value * 1_000_000.0 == (now - quote.value.receivedAt) as real)
  }

  /** The broker's word on permission wins; the operator's declaration counts only where the broker is silent. */
  ghost predicate Permits(account: Option<Account>, declared: bool) {
    account.Some? && (account.value.futuresPermission == Some(true) || (account.value.futuresPermission.None? && declared))
  }

  /**
   * Risk is shown the order that closes the distance to the target, the position and the quote it was computed from,
   * the profit, the open rows and the stamps of the last 3600 seconds; and the state of the system as it is.
   */
  lemma RiskIsShown(p: Process, t: Tables, h: Handling, c: QualifiedContract)
    ensures var r, held := SubmissionOf(p, t, h, c).risk, Quantity(p.book, c.conId);
            && r.currentPosition == held && held + (if r.side.Buy? then r.quantity else -r.quantity) == h.intent.requestedPosition
            && r.quantity >= 0 && r.contract == Some(c)
            && r.referencePrice == (if h.quote.Some? then h.quote.value.mid else None)
            && Ages(r.quoteAge, h.quote, h.times.counted)
            && r.dailyPnl == h.pnl && r.openOrders == |OpenRows(t.orders)|
            && r.ordersLastHour == CountSince(t.orders, h.times.counted - 3600 * 1_000_000)
            && r.appState == p.state && r.connection == h.connection && r.account == h.account
            && (r.accountAvailable <==> p.account.Some?)
            && (r.positionsReconciled <==> p.recon.positionsReconciled) && (r.ordersReconciled <==> p.recon.ordersReconciled)
            && (r.permissionReady <==> Permits(p.account, p.config.permissionReady))
            && (r.strategyEnabled <==> h.strategyEnabled) && (r.killSwitch <==> SwitchedOff(p, t, h.readable)) && !r.duplicate
  {}

  /** The gate is shown the same system a moment later; a missing quote counts as delayed, and risk has approved. */
  lemma GateIsShown(p: Process, t: Tables, h: Handling, c: QualifiedContract)
    ensures var g := SubmissionOf(p, t, h, c).gate;
            && g.appState == p.state && g.connection == h.connection && g.account == h.account
            && (g.contractQualified <==> c.conId > 0) && !g.contractContinuous && (g.accountAvailable <==> p.account.Some?)
            && (g.positionsReconciled <==> p.recon.positionsReconciled) && (g.ordersReconciled <==> p.recon.ordersReconciled)
            && Ages(g.quoteAge, h.quote, h.times.gated)
            && (g.quoteDelayed <==> h.quote.None? || h.quote.value.delayed)
            && (g.permissionReady <==> Permits(p.account, p.config.permissionReady))
            && (g.strategyEnabled <==> h.strategyEnabled) && g.riskApproved
  {}

  /** And the submission carries the intent's own order, the contract, the times and the broker's answer. */
  lemma SubmissionCarries(p: Process, t: Tables, h: Handling, c: QualifiedContract)
    ensures var s := SubmissionOf(p, t, h, c);
            && s.intent == h.intent && s.contract == c && s.orderType == h.orderType && s.limitPrice == h.limitPrice
            && s.freshId == h.freshId && s.now == h.times.stamped && s.reply == h.reply && s.repliedAt == h.times.replied
  {}

  /** A comparison's result carries how many fills were read, whether the account was, the broker's own list, and no error. */
  lemma ResultCarries(p: Process, t: Tables, account: bool, v: BrokerView)
    ensures var r := Comparison(p, t, account, v);
            && r.fillsSeen == |v.fills| && r.accountAvailable == account && r.brokerPositions == v.positions && r.errors == []
            && (r.positionsReconciled <==> r.positionDiscrepancies == []) && (r.ordersReconciled <==> r.orderDiscrepancies == [])
  {}

  /** A read that raised compares nothing and says so: nothing counts as reconciled. */
  lemma FailedReadIs(p: Process, t: Tables, account: Option<Account>)
    ensures var r := Reconciled(p, t, Answers(account, None));
            && r.effects == [] && r.process.Some? && r.process.value.account == account
            && !r.process.value.recon.Succeeded() && r.process.value.recon.errors != []
            && !r.process.value.recon.positionsReconciled && !r.process.value.recon.ordersReconciled
            && r.process.value.book == p.book
  {}

  /** The local open orders a comparison is given are the open rows, in order, by their ids and symbol. */
  lemma OpensAreGiven(open: Rows)
    ensures |LocalOpens(open)| == |open|
    ensures forall i :: 0 <= i < |open| ==>
              && LocalOpens(open)[i].internalId == open[i].internalId
              && LocalOpens(open)[i].brokerOrderId == open[i].brokerOrderId && LocalOpens(open)[i].symbol == open[i].symbol
  {}

  // ----- what is written down -----

  /** A fill is stored as reported, under this run, for the first order with its broker id, or for none. */
  lemma FillIsRecordedAs(f: BrokerFill, orders: Rows, runId: string)
    ensures var row := RowOfFill(f, orders, runId);
            && row.fill == f && row.runId == runId
            && (FindBroker(orders, f.brokerOrderId).None? ==> row.internalId == "")
            && (FindBroker(orders, f.brokerOrderId).Some? ==>
                  exists i :: 0 <= i < |orders| && orders[i].brokerOrderId == Some(f.brokerOrderId) && orders[i].internalId == row.internalId)
  {
    FindBrokerSound(orders, f.brokerOrderId);
  }

  /** Handling an intent appends its signal once, under its id and with its own time, whatever becomes of it. */
  lemma SignalIsRecorded(p: Process, t: Tables, h: Handling)
    requires Distinct(t.orders) && FreshId(t.orders, h.freshId)
    ensures ApplyAll(t, Handled(p, t, h).effects).signals
         == if exists i :: 0 <= i < |t.signals| && t.signals[i].intentId == h.intent.intentId then t.signals
            else t.signals + [Signal(h.intent.intentId, h.intent.createdAt)]
  {
    hide Handled, Submits, SubmissionEffects, Apply, ApplyAll, FreshId, Distinct;
    HandledLength(p, t, h);
    var es := Handled(p, t, h).effects;
    HandledAddsItsIntent(p, t, h, |es|);
    assert es[..|es|] == es;
    FirstRecordStays(t, SignalOf(h).signal);
  }

  lemma FirstRecordStays(t: Tables, s: Signal)
    ensures Apply(t, RecordSignal(s)).signals
         == if exists i :: 0 <= i < |t.signals| && t.signals[i].intentId == s.intentId then t.signals else t.signals + [s]
  {}

  lemma {:induction false} OnlyDecisionsDecide(t: Tables, es: seq<Effect>)
    requires forall i :: 0 <= i < |es| ==> !es[i].RecordDecision?
    ensures ApplyAll(t, es).decisions == t.decisions
  {
    if es != [] { OnlyDecisionsDecide(t, es[..|es| - 1]); }
  }

  /** A submission that gets as far as risk appends risk's decision with all its reasons, and no other does. */
  lemma DecisionIsRecorded(a: Approvals, t: Tables, s: Submission)
    ensures ApplyAll(t, Submit(a, t.orders, s).effects).decisions
         == if Proceeds(t.orders, s) then t.decisions + [RiskRecord(s.intent.intentId, a.risk == [], a.risk)] else t.decisions
  {
    EffectsFollowCourse(a, t.orders, s);
    if Proceeds(t.orders, s) {
      var c := CourseOf(a, t.orders, s);
      PartsDecideNothing(c);
      hide CourseOf, Submit, Proceeds, Course.Insertion, Course.Closing;
      DecidesOnce(t, c.Insertion(), DecisionOf(a, s), c.Closing());
    }
  }

  lemma PartsDecideNothing(c: Course)
    ensures forall i :: 0 <= i < |c.Insertion()| ==> !c.Insertion()[i].RecordDecision?
    ensures forall i :: 0 <= i < |c.Closing()| ==> !c.Closing()[i].RecordDecision?
  {}

  lemma DecidesOnce(t: Tables, first: seq<Effect>, d: Effect, last: seq<Effect>)
    requires d.RecordDecision? && forall i :: 0 <= i < |first| ==> !first[i].RecordDecision?
    requires forall i :: 0 <= i < |last| ==> !last[i].RecordDecision?
    ensures ApplyAll(t, first + ([d] + last)).decisions == t.decisions + [d.decision]
  {
    OnlyDecisionsDecide(t, first);
    ApplyConcat(t, first, [d] + last);
    ApplyConcat(ApplyAll(t, first), [d], last);
    ApplyOne(ApplyAll(t, first), d);
    OnlyDecisionsDecide(Apply(ApplyAll(t, first), d), last);
    hide ApplyAll;
  }

  /** A process starts with the stored positions as its book, the seeded ids, and the strategies it may hear, in lower case. */
  lemma StartsWith(s: System, config: Config, runId: string, admin: bool, seed: set<string>)
    ensures var after := Next(s, Step(Startup(config, runId, admin, seed), None));
            && after.process.Some? && after.tables == s.tables.(state := s.tables.state["last_run_id" := runId])
            && var p := after.process.value;
            && p.config == config && p.runId == runId && p.admin == admin && p.seen == seed
            && p.known == (if admin then {Lower(config.strategy), "operator"} else {Lower(config.strategy)})
            && p.state == (if config.mode.Disabled? then Safe else Starting) && !p.recon.Succeeded()
            && p.account.None? && p.contract.None? && p.book == FromPositions(s.tables.positions) == p.start && !p.inTick
  {
    hide FromPositions;
    var e := PutState(LAST_RUN_KEY, runId);
    ApplyOne(s.tables, e);
    assert Kept([e], None) == [e];
    LowerOperator();
    assert LowerAll({config.strategy}) == {Lower(config.strategy)};
    assert LowerAll({config.strategy, "operator"}) == {Lower(config.strategy), Lower("operator")};
  }

  lemma LowerOperator()
    ensures Lower("operator") == "operator"
  {
    assert |Lower("operator")| == |"operator"|;
  }

  /** A connection attempt that fails leaves a process SAFE for want of permission, and OFFLINE for any other reason. */
  lemma FailedConnectionIs(s: System, permission: bool)
    requires s.process.Some? && HasBroker(s.process.value)
    ensures Next(s, Step(ConnectFailed(permission), None))
         == s.(process := Some(s.process.value.(state := if permission then Safe else Offline, inTick := false)))
  {
    hide Comparison, Handled, StatusEffects, Reconciled, Started;
  }
}
