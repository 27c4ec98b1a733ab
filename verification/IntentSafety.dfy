/** What every order that leaves the system was: one intent's exact move, inside every limit, once. */
module IntentSafety {
  import opened Enums
  import opened Configuration
  import opened Orders
  import opened OrderTable
  import opened Positions
  import opened Durable
  import opened Signals
  import opened OrderManagement
  import opened OrderSafety
  import opened AtMostOnce
  import opened OrdersOverRuns
  import opened Machine
  import opened Lifecycle
  import Risk
  import Gate

  // ----- every stored order belongs to a recorded intent the process knows -----

  ghost predicate OrdersHaveSignals(t: Tables) {
    forall i :: 0 <= i < |t.orders| ==> HasSignal(t.signals, t.orders[i].key.intentId)
  }

  ghost predicate Unstored(rows: Rows, intentId: string) {
    forall i :: 0 <= i < |rows| ==> rows[i].key.intentId != intentId
  }

  ghost predicate OrdersAreSeen(p: Process, t: Tables) {
    forall i :: 0 <= i < |t.orders| ==> t.orders[i].key.intentId in p.seen
  }

  ghost predicate Known(s: System) {
    OrdersHaveSignals(s.tables) && (s.process.Some? ==> OrdersAreSeen(s.process.value, s.tables))
  }

  /** Every row's intent was there before, or is the one named. */
  ghost predicate OnlyAdds(rows: Rows, rows': Rows, intentId: string) {
    forall i :: 0 <= i < |rows'| ==> rows'[i].key.intentId == intentId || (i < |rows| && rows'[i].key == rows[i].key)
  }

  lemma SubmissionAddsItsIntent(a: Approvals, t: Tables, s: Submission, k: nat)
    requires Distinct(t.orders) && FreshId(t.orders, s.freshId) && k <= |Submit(a, t.orders, s).effects|
    ensures OnlyAdds(t.orders, ApplyAll(t, Submit(a, t.orders, s).effects[..k]).orders, s.intent.intentId)
    ensures ApplyAll(t, Submit(a, t.orders, s).effects[..k]).signals == t.signals
  {
    hide Submit;
    SubmissionDiesAtAStage(a, t, s, k);
    CourseIsOk(a, t.orders, s);
  }

  lemma RecordedIsThere(t: Tables, signal: Signal)
    ensures HasSignal(Apply(t, RecordSignal(signal)).signals, signal.intentId)
    ensures forall id :: HasSignal(t.signals, id) ==> HasSignal(Apply(t, RecordSignal(signal)).signals, id)
  {
    var after := Apply(t, RecordSignal(signal)).signals;
    forall id | HasSignal(t.signals, id) ensures HasSignal(after, id) {
      var i :| 0 <= i < |t.signals| && t.signals[i].intentId == id;
      assert after[i] == t.signals[i];
    }
    if !HasSignal(t.signals, signal.intentId) { assert after[|t.signals|] == signal; }
  }

  /** Rows added for a recorded intent keep every row's intent recorded. */
  lemma AddingKeepsSignals(t: Tables, t': Tables, signal: Signal)
    requires OrdersHaveSignals(t) && t'.signals == Apply(t, RecordSignal(signal)).signals
    requires OnlyAdds(t.orders, t'.orders, signal.intentId)
    ensures OrdersHaveSignals(t')
  {
    hide HasSignal, Apply;
    RecordedIsThere(t, signal);
    forall i | 0 <= i < |t'.orders| ensures HasSignal(t'.signals, t'.orders[i].key.intentId) {
      if t'.orders[i].key.intentId != signal.intentId {
        assert HasSignal(t.signals, t.orders[i].key.intentId);
      }
    }
  }

  lemma HandledAddsItsIntent(p: Process, t: Tables, h: Handling, n: nat)
    requires Distinct(t.orders) && FreshId(t.orders, h.freshId) && 0 < n <= |Handled(p, t, h).effects|
    ensures var t' := ApplyAll(t, Handled(p, t, h).effects[..n]);
            && OnlyAdds(t.orders, t'.orders, h.intent.intentId)
            && t'.signals == Apply(t, SignalOf(h)).signals
            && (!Acceptable(p, h) ==> t'.orders == t.orders)
  {
    hide ApprovalsOf, Acceptable, Submit, HasSignal;
    HandledCut(p, t, h, n);
    if Submits(p, t, h) {
      var s := SubmissionOf(p, t, h, p.contract.value);
      SubmissionAddsItsIntent(ApprovalsOf(p.config, s), Apply(t, SignalOf(h)), s, n - 1);
    }
  }

  lemma HandledKeepsSignals(p: Process, t: Tables, h: Handling, n: nat)
    requires Distinct(t.orders) && FreshId(t.orders, h.freshId) && OrdersHaveSignals(t)
    requires n <= |Handled(p, t, h).effects|
    ensures OrdersHaveSignals(ApplyAll(t, Handled(p, t, h).effects[..n]))
    ensures OnlyAdds(t.orders, ApplyAll(t, Handled(p, t, h).effects[..n]).orders, h.intent.intentId)
    ensures !Acceptable(p, h) ==> ApplyAll(t, Handled(p, t, h).effects[..n]).orders == t.orders
  {
    hide Handled, Acceptable, OrdersHaveSignals, Apply;
    if n > 0 {
      HandledAddsItsIntent(p, t, h, n);
      AddingKeepsSignals(t, ApplyAll(t, Handled(p, t, h).effects[..n]), Signal(h.intent.intentId, h.intent.createdAt));
    }
  }

  /** The other writers of orders touch no key. */
  ghost predicate SameKeys(rows: Rows, rows': Rows) {
    |rows'| == |rows| && forall i :: 0 <= i < |rows| ==> rows'[i].key == rows[i].key
  }

  lemma StatusKeepsKeys(t: Tables, u: StatusUpdate, k: nat)
    requires k <= |StatusEffects(t.orders, u)|
    ensures var t' := ApplyAll(t, StatusEffects(t.orders, u)[..k]); SameKeys(t.orders, t'.orders) && t'.signals == t.signals
  {
    var es := StatusEffects(t.orders, u);
    if k > 0 {
      assert es[..k] == [es[0]];
      ApplyOne(t, es[0]);
      UpdateShape(t.orders, es[0].row);
    }
  }

  lemma {:induction false} CancelKeepsSignals(t: Tables, open: Rows, at: int, k: nat)
    requires k <= |open|
    ensures ApplyAll(t, CancelEffects(open, at)[..k]).signals == t.signals
  {
    if k > 0 {
      CancelKeepsSignals(t, open, at, k - 1);
      OneMoreCancel(t, open, at, k);
    }
  }

  lemma CancelKeepsKeys(t: Tables, at: int, k: nat)
    requires Distinct(t.orders) && k <= |OpenRows(t.orders)|
    ensures var t' := ApplyAll(t, CancelEffects(OpenRows(t.orders), at)[..k]); SameKeys(t.orders, t'.orders) && t'.signals == t.signals
  {
    CancelPrefix(t, at, k);
    CancelKeepsSignals(t, OpenRows(t.orders), at, k);
  }

  /** What an order-writing event leaves known. */
  lemma WorkKeepsSignals(p: Process, t: Tables, e: Event, k: nat)
    requires Distinct(t.orders) && OrdersHaveSignals(t) && k <= |OrderWork(p, t, e)|
    requires e.IntentHandled? ==> FreshId(t.orders, e.handling.freshId)
    ensures var t' := ApplyAll(t, OrderWork(p, t, e)[..k]);
            && OrdersHaveSignals(t')
            && (if e.IntentHandled? && (p.inTick || p.admin) && Acceptable(p, e.handling)
                then OnlyAdds(t.orders, t'.orders, e.handling.intent.intentId)
                else SameKeys(t.orders, t'.orders))
  {
    hide Handled, StatusEffects, HasSignal, Acceptable;
    if OrderWork(p, t, e) != [] {
      match e
      case IntentHandled(h) => HandledKeepsSignals(p, t, h, k);
      case StatusLearned(u) => StatusKeepsKeys(t, u, k);
      case CancelAll(at) => CancelKeepsKeys(t, at, k);
    }
  }

  // ----- the other events -----

  predicate SignalNeutral(e: Effect) { !e.RecordSignal? }

  lemma {:induction false} NeutralKeepsSignals(t: Tables, es: seq<Effect>)
    requires forall i :: 0 <= i < |es| ==> SignalNeutral(es[i])
    ensures ApplyAll(t, es).signals == t.signals
  {
    if es != [] { NeutralKeepsSignals(t, es[..|es| - 1]); }
  }

  lemma OthersKeepSignals(s: System, step: Step)
    requires !WritesOrders(s, step.event)
    ensures Next(s, step).tables.signals == s.tables.signals
  {
    hide ReactionOf, WritesOrders;
    var es := ReactionOf(s, step.event).effects;
    OthersAreSignalNeutral(s, step.event);
    KeptIsPrefix(es, step.survives);
    NeutralKeepsSignals(s.tables, Kept(es, step.survives));
  }

  lemma OthersAreSignalNeutral(s: System, e: Event)
    requires !WritesOrders(s, e)
    ensures forall x :: x in ReactionOf(s, e).effects ==> SignalNeutral(x)
  {
    hide Comparison, Handled, StatusEffects, Started;
    if s.process.Some? && Reconciles(e) { ReconcilingTouchesNoSignal(s.process.value, s.tables, e.answers); }
  }

  lemma ReconcilingTouchesNoSignal(p: Process, t: Tables, answers: Answers)
    ensures forall e :: e in Reconciled(p, t, answers).effects ==> SignalNeutral(e)
  {
    hide Comparison;
  }

  lemma ReconcilingKeepsSeen(p: Process, t: Tables, e: Event)
    requires Reconciles(e) && ReconcilingReaction(p, t, e).process.Some?
    ensures ReconcilingReaction(p, t, e).process.value.seen == p.seen
  {
    hide Comparison;
  }

  /** The ids a process has seen only grow, by exactly the intent it accepts. */
  lemma SeenOnlyGrows(s: System, step: Step)
    requires Next(s, step).process.Some? && !step.event.Startup?
    ensures s.process.Some?
    ensures var p, e := s.process.value, step.event;
            Next(s, step).process.value.seen ==
              if HasBroker(p) && e.IntentHandled? && (p.inTick || p.admin) && Acceptable(p, e.handling)
              then p.seen + {e.handling.intent.intentId} else p.seen
  {
    hide SubmissionEffects, Acceptable, StatusEffects, CancelEffects, Reconciled, Started;
    assert s.process.Some?;
    if Reconciles(step.event) {
      hide Next, ReconcilingReaction;
      ReconcilingStep(s, step);
      if Acts(s.process.value, step.event) { ReconcilingKeepsSeen(s.process.value, s.tables, step.event); }
    }
  }

  // ----- over runs -----

  /** The run is allowed, and every startup can still read all intents ever recorded. */
  ghost predicate KnownStep(s: System, e: Event) {
    Allowed(s, e) && (e.Startup? ==> |s.tables.signals| <= 10_000)
  }

  ghost predicate KnownRun(s: System, steps: seq<Step>) {
    forall n :: 0 <= n < |steps| ==> KnownStep(Run(s, steps[..n]), steps[n].event)
  }

  lemma KnownPrefix(s: System, steps: seq<Step>)
    requires steps != [] && KnownRun(s, steps)
    ensures KnownRun(s, steps[..|steps| - 1]) && AllowedRun(s, steps)
    ensures KnownStep(Run(s, steps[..|steps| - 1]), steps[|steps| - 1].event)
  {
    hide Next, Allowed;
    var init := steps[..|steps| - 1];
    forall n | 0 <= n < |init| ensures KnownStep(Run(s, init[..n]), init[n].event) {
      assert init[..n] == steps[..n];
    }
  }

  lemma StartupSeesAll(s: System, step: Step)
    requires OrdersHaveSignals(s.tables) && step.event.Startup? && KnownStep(s, step.event)
    ensures Next(s, step).process.Some? ==> OrdersAreSeen(Next(s, step).process.value, s.tables)
  {
    if Next(s, step).process.Some? { StartsUnready(s, step); }
    hide Next;
    forall i | 0 <= i < |s.tables.orders| ensures s.tables.orders[i].key.intentId in step.event.seed {
      assert HasSignal(s.tables.signals, s.tables.orders[i].key.intentId);
    }
  }

  lemma StepKeepsKnown(s: System, step: Step)
    requires Distinct(s.tables.orders) && Known(s) && KnownStep(s, step.event)
    ensures Known(Next(s, step))
  {
    hide Next, OrderWork, Acceptable;
    if !WritesOrders(s, step.event) {
      hide HasSignal;
      OthersTouchNoOrder(s, step);
      OthersKeepSignals(s, step);
      if Next(s, step).process.Some? {
        if step.event.Startup? { StartupSeesAll(s, step); } else { SeenOnlyGrows(s, step); }
      }
    } else {
      WritersKeepKnown(s, step);
    }
  }

  lemma WritersKeepKnown(s: System, step: Step)
    requires Distinct(s.tables.orders) && Known(s) && Allowed(s, step.event) && WritesOrders(s, step.event)
    ensures Known(Next(s, step))
  {
    hide Next, OrderWork, Acceptable, OrdersHaveSignals;
    var p, t, e := s.process.value, s.tables, step.event;
    WritersCut(s, step);
    var k: nat :| k <= |OrderWork(p, t, e)| && Next(s, step).tables == ApplyAll(t, OrderWork(p, t, e)[..k]);
    WorkKeepsSignals(p, t, e, k);
    if Next(s, step).process.Some? { SeenOnlyGrows(s, step); }
  }

  lemma {:induction false} RunKeepsKnown(s: System, steps: seq<Step>)
    requires Sound(s.tables.orders, s.tables.sent) && Known(s) && KnownRun(s, steps)
    ensures Known(Run(s, steps))
  {
    hide Next, Known, Allowed, Backed, SentOnce;
    if steps != [] {
      var init := steps[..|steps| - 1];
      KnownPrefix(s, steps);
      RunPrefix(s, steps);
      RunKeepsKnown(s, init);
      RunKeepsSound(s, init);
      StepKeepsKnown(Run(s, init), steps[|steps| - 1]);
    }
  }

  // ----- each intent at most once -----

  /** No two orders handed to the broker carry the same intent. */
  ghost predicate OncePerIntent(sent: seq<Request>) {
    forall i, j :: 0 <= i < j < |sent| ==> sent[i].key.intentId != sent[j].key.intentId
  }

  /** What an event adds to the broker's inbox: nothing, or the one order of an intent just accepted. */
  ghost predicate SendsAtMost(sent: seq<Request>, sent': seq<Request>, p: Process, e: Event) {
    sent' == sent ||
    (e.IntentHandled? && Acceptable(p, e.handling)
     && p.contract.Some?
     && exists q: Request :: sent' == sent + [q] && q.key == e.handling.intent.IdempotencyKey(p.contract.value.conId))
  }

  lemma SubmissionSendsOne(a: Approvals, t: Tables, s: Submission, k: nat)
    requires Distinct(t.orders) && FreshId(t.orders, s.freshId) && k <= |Submit(a, t.orders, s).effects|
    ensures var sent' := ApplyAll(t, Submit(a, t.orders, s).effects[..k]).sent;
            sent' == t.sent || exists q: Request :: sent' == t.sent + [q] && q.key == NewRow(s).key
  {
    hide Submit;
    SubmissionDiesAtAStage(a, t, s, k);
    CourseIsOk(a, t.orders, s);
    var c := CourseOf(a, t.orders, s);
    assert RequestOf(c.pending).key == NewRow(s).key;
    assert t.sent + [] == t.sent;
  }

  lemma HandledSendsOne(p: Process, t: Tables, h: Handling, n: nat)
    requires Distinct(t.orders) && FreshId(t.orders, h.freshId) && n <= |Handled(p, t, h).effects|
    ensures SendsAtMost(t.sent, ApplyAll(t, Handled(p, t, h).effects[..n]).sent, p, IntentHandled(h))
  {
    hide ApprovalsOf, Acceptable, Submit, Handled, SubmissionOf;
    HandledLength(p, t, h);
    HandledCut(p, t, h, n);
    if n > 0 && Submits(p, t, h) {
      var s := SubmissionOf(p, t, h, p.contract.value);
      SubmissionTakes(p, t, h, p.contract.value);
      SubmissionSendsOne(ApprovalsOf(p.config, s), Apply(t, SignalOf(h)), s, n - 1);
    }
  }

  lemma WorkSendsOne(p: Process, t: Tables, e: Event, k: nat)
    requires Sound(t.orders, t.sent) && k <= |OrderWork(p, t, e)|
    requires e.IntentHandled? ==> FreshId(t.orders, e.handling.freshId)
    ensures SendsAtMost(t.sent, ApplyAll(t, OrderWork(p, t, e)[..k]).sent, p, e)
  {
    hide Handled, StatusEffects, Acceptable, Backed, SentOnce;
    if OrderWork(p, t, e) != [] {
      match e
      case IntentHandled(h) => HandledSendsOne(p, t, h, k);
      case StatusLearned(u) => StatusKeepsSound(t, u, k);
      case CancelAll(at) => CancelPrefix(t, at, k);
    }
  }

  /** An accepted intent was never sent before: its id is new to the process, and every sent id is not. */
  lemma AcceptedIsUnsent(p: Process, t: Tables, h: Handling)
    requires Sound(t.orders, t.sent) && OrdersAreSeen(p, t) && Acceptable(p, h)
    ensures forall i :: 0 <= i < |t.sent| ==> t.sent[i].key.intentId != h.intent.intentId
    ensures forall i :: 0 <= i < |t.orders| ==> t.orders[i].key.intentId != h.intent.intentId
  {
    AcceptedIsUnseen(p, h);
    hide Acceptable;
    forall i | 0 <= i < |t.sent| ensures t.sent[i].key.intentId in p.seen {
      var j :| 0 <= j < |t.orders| && Backs(t.orders[j], t.sent[i]);
    }
  }

  lemma AcceptedIsUnseen(p: Process, h: Handling)
    ensures Acceptable(p, h) ==>
              && h.intent.intentId !in p.seen && Lower(h.intent.strategy) in p.known
              && 0 <= h.times.validated - h.intent.createdAt <= MAX_SIGNAL_AGE
              && Sane(h.intent.requestedPosition)
  {}

  lemma StepSendsOncePerIntent(s: System, step: Step)
    requires Sound(s.tables.orders, s.tables.sent) && Known(s) && Allowed(s, step.event) && OncePerIntent(s.tables.sent)
    ensures OncePerIntent(Next(s, step).tables.sent)
  {
    hide Next, OrderWork, Acceptable, Backed, SentOnce;
    if !WritesOrders(s, step.event) {
      OthersTouchNoOrder(s, step);
    } else {
      var p, t, e := s.process.value, s.tables, step.event;
      WritersCut(s, step);
      var k: nat :| k <= |OrderWork(p, t, e)| && Next(s, step).tables == ApplyAll(t, OrderWork(p, t, e)[..k]);
      WorkSendsOne(p, t, e, k);
      if e.IntentHandled? && Acceptable(p, e.handling) { AcceptedIsUnsent(p, t, e.handling); }
    }
  }

  lemma {:induction false} RunSendsOncePerIntent(s: System, steps: seq<Step>)
    requires Sound(s.tables.orders, s.tables.sent) && Known(s) && OncePerIntent(s.tables.sent) && KnownRun(s, steps)
    ensures OncePerIntent(Run(s, steps).tables.sent)
  {
    hide Next, Known, Allowed, Sound, OncePerIntent;
    if steps != [] {
      var init := steps[..|steps| - 1];
      KnownPrefix(s, steps);
      RunPrefix(s, steps);
      RunSendsOncePerIntent(s, init);
      RunKeepsSound(s, init);
      RunKeepsKnown(s, init);
      StepSendsOncePerIntent(Run(s, init), steps[|steps| - 1]);
    }
  }

  /**
   * Across restarts and crashes, while the signals table holds no more than 10,000 intents at each
   * startup, no intent is ever submitted to the broker twice - not even under another key.
   */
  lemma EachIntentIsSentAtMostOnce(steps: seq<Step>)
    requires KnownRun(FRESH_SYSTEM, steps)
    ensures OncePerIntent(Run(FRESH_SYSTEM, steps).tables.sent)
  {
    hide Next, Allowed;
    RunSendsOncePerIntent(FRESH_SYSTEM, steps);
  }

  // ----- what every order sent is -----

  /** The order moves the book from what it is to the intent's target: no more, no less, no other way. */
  ghost predicate ExactMove(p: Process, h: Handling, c: QualifiedContract, q: Request) {
    && q.conId == c.conId && q.quantity > 0
    && Quantity(p.book, c.conId) + (if q.side.Buy? then q.quantity else -q.quantity) == h.intent.requestedPosition
    && q.key == h.intent.IdempotencyKey(c.conId)
  }

  /** Size, target and notional are inside configured, positive limits. */
  ghost predicate InsideLimits(l: RiskLimits, h: Handling, c: QualifiedContract, q: Request) {
    && q.quantity <= l.maxOrderSize
    && 0 < l.maxPosition && -l.maxPosition <= h.intent.requestedPosition <= l.maxPosition
    && h.quote.Some? && h.quote.value.mid.Some? && 0.0 < h.quote.value.mid.value
    && 0.0 < l.maxNotional && (if h.intent.requestedPosition < 0 then -h.intent.requestedPosition else h.intent.requestedPosition) as real
         * c.multiplier * h.quote.value.mid.value <= l.maxNotional
    && 0.0 < l.maxDailyLoss && -l.maxDailyLoss < h.pnl
  }

  /** The system is READY and reconciled on the expected account, and no switch is engaged. */
  ghost predicate InGoodOrder(p: Process, t: Tables, h: Handling) {
    && p.state.Ready? && p.recon.positionsReconciled && p.recon.ordersReconciled && p.account.Some?
    && h.connection.Connected? && AccountFits(p.config.mode, h.account)
    && p.config.allowTransmit && (p.config.mode.Live? ==> p.config.liveEnabled)
    && (p.account.value.futuresPermission == Some(true)
        || (p.account.value.futuresPermission.None? && p.config.permissionReady))
    && (p.config.mode.Paper? || p.config.mode.Live? ==> p.config.permissionReady)
    && h.strategyEnabled && p.config.strategyEnabled
    && !Engaged(p.config, t.state, h.readable)
  }

  /** `now` is no earlier than the quote and at most the configured number of seconds after it. */
  ghost predicate FreshAt(q: Quote, now: int, maxAge: real) {
    0 <= now - q.receivedAt && (now - q.receivedAt) as real <= maxAge * 1_000_000.0
  }

  /** The quote is live and fresh at both readings. */
  ghost predicate OnFreshQuote(config: Config, h: Handling) {
    && h.quote.Some? && !h.quote.value.delayed && config.maxQuoteAge > 0.0
    && FreshAt(h.quote.value, h.times.counted, config.maxQuoteAge)
    && FreshAt(h.quote.value, h.times.gated, config.maxQuoteAge)
  }

  lemma DeltaIsExact(current: int, requested: int)
    ensures var (side, quantity) := SideAndQuantity(current, requested);
            && current + (if side.Buy? then quantity else -quantity) == requested
            && quantity >= 0 && (quantity == 0 <==> requested == current)
  {}

  lemma RiskSays(p: Process, t: Tables, h: Handling, c: QualifiedContract)
    requires ApprovalsOf(p.config, SubmissionOf(p, t, h, c)).risk == []
    ensures var s := SubmissionOf(p, t, h, c);
            Risk.SystemInOrder(p.config, s.risk) && Risk.WithinLimits(p.config.limits, s.risk)
  {
    hide Risk.RiskReasons, Risk.SystemInOrder, Risk.WithinLimits;
    Risk.RiskApprovesExactly(p.config, SubmissionOf(p, t, h, c).risk);
  }

  lemma GateSays(p: Process, t: Tables, h: Handling, c: QualifiedContract)
    requires ApprovalsOf(p.config, SubmissionOf(p, t, h, c)).gate == []
    ensures Gate.Passable(p.config, SubmissionOf(p, t, h, c).gate)
  {
    hide Gate.GateReasons, Gate.Passable;
    Gate.GateOpensExactly(p.config, SubmissionOf(p, t, h, c).gate);
  }

  lemma ApprovedMeans(p: Process, t: Tables, h: Handling, c: QualifiedContract, q: Request)
    requires ApprovalsOf(p.config, SubmissionOf(p, t, h, c)) == Approvals([], [])
    requires var s := SubmissionOf(p, t, h, c); q == RequestOf(NewRow(s).AsPendingSubmit(s.now))
    ensures ExactMove(p, h, c, q) && InsideLimits(p.config.limits, h, c, q)
    ensures InGoodOrder(p, t, h) && OnFreshQuote(p.config, h)
  {
    RiskSays(p, t, h, c);
    GateSays(p, t, h, c);
    DeltaIsExact(Quantity(p.book, c.conId), h.intent.requestedPosition);
    hide Risk.RiskReasons, Gate.GateReasons;
  }

  /** A key whose intent no stored order carries is new, so the order worked on is the one just built. */
  lemma UnseenIsNew(rows: Rows, s: Submission)
    requires Unstored(rows, s.intent.intentId)
    ensures FindKey(rows, NewRow(s).key).None? && WorkingRow(rows, s) == NewRow(s)
  {
    FindKeySound(rows, NewRow(s).key);
  }

  /** Only handling an intent sends, and only through a submission. */
  lemma SendersHandle(s: System, e: Event, q: Request)
    requires Send(q) in ReactionOf(s, e).effects
    ensures e.IntentHandled? && s.process.Some?
    ensures Send(q) in SubmissionEffects(s.process.value, s.tables, e.handling)
  {
    hide StatusEffects, Started, Comparison, SubmissionEffects, ApprovalsOf;
    if !WritesOrders(s, e) {
      OthersAreBystanders(s, e);
    } else if e.StatusLearned? {
      StatusKinds(s.tables.orders, e.update);
    }
  }

  /** The order worked on has the side, size and contract that were assessed. */
  predicate AsAssessed(rows: Rows, s: Submission) {
    var order := WorkingRow(rows, s);
    order.side == s.risk.side && order.quantity == s.risk.quantity && order.conId == s.contract.conId
  }

  /** Of two orders under one key, one of them an exact move, the other is one exactly when it is the same. */
  lemma SameMove(p: Process, h: Handling, c: QualifiedContract, q: Request, q': Request)
    requires ExactMove(p, h, c, q) && q'.key == q.key
    ensures ExactMove(p, h, c, q') <==> q'.side == q.side && q'.quantity == q.quantity && q'.conId == q.conId
  {}

  lemma RequestTerms(a: Approvals, rows: Rows, s: Submission, q: Request)
    requires Send(q) in Submit(a, rows, s).effects
    ensures a == Approvals([], []) && q.key == NewRow(s).key
    ensures var built := RequestOf(NewRow(s).AsPendingSubmit(s.now));
            AsAssessed(rows, s) <==> q.side == built.side && q.quantity == built.quantity && q.conId == built.conId
  {
    hide Submit;
    SendsWorkingRow(a, rows, s, q);
    FindKeySound(rows, NewRow(s).key);
  }

  /**
   * Whatever the tables hold, an order that leaves does so from READY, reconciled and unswitched, on a fresh live
   * quote; and it moves the book exactly to the target if and only if the order worked on is the one assessed,
   * and is then inside the limits.
   */
  lemma SubmittedMeans(p: Process, t: Tables, h: Handling, q: Request)
    requires Send(q) in SubmissionEffects(p, t, h)
    ensures Acceptable(p, h) && p.contract.Some?
    ensures InGoodOrder(p, t, h) && OnFreshQuote(p.config, h)
    ensures var c := p.contract.value;
            && (ExactMove(p, h, c, q) <==> AsAssessed(t.orders, SubmissionOf(p, t, h, c)))
            && (ExactMove(p, h, c, q) ==> InsideLimits(p.config.limits, h, c, q))
  {
    hide ApprovalsOf, Submit, Acceptable, ExactMove, InsideLimits, InGoodOrder, OnFreshQuote, AsAssessed;
    assert Submits(p, t, h);
    var c := p.contract.value;
    var s := SubmissionOf(p, t, h, c);
    var built := RequestOf(NewRow(s).AsPendingSubmit(s.now));
    RequestTerms(ApprovalsOf(p.config, s), t.orders, s, q);
    ApprovedMeans(p, t, h, c, built);
    SameMove(p, h, c, built, q);
    SameSize(p.config.limits, h, c, built, q);
  }

  lemma SameSize(l: RiskLimits, h: Handling, c: QualifiedContract, q: Request, q': Request)
    requires InsideLimits(l, h, c, q)
    ensures q'.quantity == q.quantity ==> InsideLimits(l, h, c, q')
  {}

  /**
   * Every order that leaves, in any run from an empty database: it moves the book exactly to its
   * intent's target, which is the projected position assessed; target, size and notional are inside
   * the configured limits; the system is READY, reconciled and unswitched; the quote is live and fresh;
   * and neither the intent nor its key was ever sent before.
   */
  lemma EverySendIsSafe(steps: seq<Step>, e: Event, q: Request)
    requires KnownRun(FRESH_SYSTEM, steps) && Send(q) in ReactionOf(Run(FRESH_SYSTEM, steps), e).effects
    ensures var s := Run(FRESH_SYSTEM, steps);
            && e.IntentHandled? && s.process.Some? && s.process.value.contract.Some?
            && var p, h := s.process.value, e.handling;
               var c := p.contract.value;
            && ExactMove(p, h, c, q) && InsideLimits(p.config.limits, h, c, q)
            && InGoodOrder(p, s.tables, h) && OnFreshQuote(p.config, h)
            && p.recon.Succeeded()
            && (forall i :: 0 <= i < |s.tables.sent| ==> s.tables.sent[i].key.intentId != q.key.intentId)
  {
    var s := Run(FRESH_SYSTEM, steps);
    SendersHandle(s, e, q);
    hide Next, ReactionOf, Allowed, Run, SubmissionEffects, Acceptable;
    RunsAreInOrder(steps);
    var p, h := s.process.value, e.handling;
    SubmittedMeans(p, s.tables, h, q);
    AcceptedIsUnsent(p, s.tables, h);
    UnstoredIsAsAssessed(p, s.tables, h);
  }

  lemma UnstoredIsAsAssessed(p: Process, t: Tables, h: Handling)
    requires p.contract.Some? && Unstored(t.orders, h.intent.intentId)
    ensures AsAssessed(t.orders, SubmissionOf(p, t, h, p.contract.value))
  {
    UnseenIsNew(t.orders, SubmissionOf(p, t, h, p.contract.value));
  }

  lemma RunsAreInOrder(steps: seq<Step>)
    requires KnownRun(FRESH_SYSTEM, steps)
    ensures var s := Run(FRESH_SYSTEM, steps);
            Sound(s.tables.orders, s.tables.sent) && Known(s) && ReadyInvariant(s)
  {
    hide Next, Allowed;
    assert AllowedRun(FRESH_SYSTEM, steps) by {
      forall n | 0 <= n < |steps| ensures Allowed(Run(FRESH_SYSTEM, steps[..n]), steps[n].event) {
        assert KnownStep(Run(FRESH_SYSTEM, steps[..n]), steps[n].event);
      }
    }
    RunKeepsSound(FRESH_SYSTEM, steps);
    RunKeepsKnown(FRESH_SYSTEM, steps);
    ReadyAlways(FRESH_SYSTEM, steps);
  }
}
