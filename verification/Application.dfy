/** The running application: the object whose methods are the machine's events. */
module Application {
  import opened Enums
  import opened Configuration
  import opened Orders
  import opened OrderTable
  import opened Positions
  import opened Durable
  import opened Signals
  import opened Reconciliation
  import opened Ingestion
  import opened OrderManagement
  import opened Machine
  import opened OrdersOverRuns
  import opened KillSwitches
  import Risk
  import Gate

  lemma OneMoreApplied(book: Book, fs: seq<BrokerFill>, f: BrokerFill)
    ensures AfterFills(book, fs + [f]) == AfterFill(AfterFills(book, fs), f)
  {
    hide AfterFill;
    assert (fs + [f])[..|fs|] == fs;
  }

  lemma NothingNew(known: set<string>, book: Book)
    ensures NewFills([], known) == [] && AfterFills(book, []) == book && IdsOf([]) == {}
  {}

  lemma OneMoreRecord(fs: seq<BrokerFill>, f: BrokerFill, orders: Rows, runId: string)
    ensures FillEffects(fs + [f], orders, runId) == FillEffects(fs, orders, runId) + [RecordFill(RowOfFill(f, orders, runId))]
  {}

  lemma NoRecords(orders: Rows, runId: string)
    ensures FillEffects([], orders, runId) == []
  {}

  lemma OneMoreFill(fills: seq<BrokerFill>, i: nat, known: set<string>)
    requires i < |fills|
    ensures IdsOf(fills[..i + 1]) == IdsOf(fills[..i]) + {fills[i].executionId}
    ensures NewFills(fills[..i + 1], known) ==
              if fills[i].executionId in known + IdsOf(fills[..i]) then NewFills(fills[..i], known)
              else NewFills(fills[..i], known) + [fills[i]]
  {
    assert fills[..i + 1][..i] == fills[..i] && fills[..i] + [fills[i]] == fills[..i + 1];
    IdsOfSnoc(fills[..i], fills[i]);
  }

  /** What an intent that was accepted leads to. */
  ghost function OrderEffects(p: Process, t: Tables, h: Handling): seq<Effect> {
    if p.contract.None? || SubmissionOf(p, t, h, p.contract.value).risk.quantity == 0 then []
    else
      var s := SubmissionOf(p, t, h, p.contract.value);
      Submit(ApprovalsOf(p.config, s), t.orders, s).effects
  }

  lemma HandledBySteps(p: Process, t: Tables, h: Handling)
    ensures Acceptable(p, h) ==>
              && Handled(p, t, h).process == Some(p.(seen := p.seen + {h.intent.intentId}))
              && Handled(p, t, h).effects == [SignalOf(h)] + OrderEffects(p, t, h)
    ensures !Acceptable(p, h) ==> Handled(p, t, h).process == Some(p) && Handled(p, t, h).effects == [SignalOf(h)]
  {
    hide Acceptable, ApprovalsOf, Submit;
  }

  /** Neither the ids seen nor the signals recorded enter the contexts the approvers judge. */
  lemma OnlyTheSessionMatters(p: Process, p': Process, t: Tables, t': Tables, h: Handling)
    requires p' == p.(seen := p'.seen) && t' == t.(signals := t'.signals)
    ensures OrderEffects(p', t', h) == OrderEffects(p, t, h)
  {
    hide ApprovalsOf, Submit;
  }

  class TradingApplication {
    const config: Config
    const runId: string
    const admin: bool
    const store: Store
    const book: PositionBook
    const validator: SignalValidator
    const orderManager: OrderManager
    const killSwitch: KillSwitch
    var state: AppState
    var reconciliation: Reconciliation.Result
    var account: Option<Account>
    var contract: Option<QualifiedContract>
    /** The deadline of the next periodic re-check, once one was scheduled. */
    var nextReconcileAt: Option<real>
    /** True from where a tick hands quotes to the strategy until control leaves that part of the loop. */
    ghost var inTick: bool
    ghost var start: Book

    ghost predicate Valid()
      reads this
    {
      && orderManager.Valid() && orderManager.config == config && orderManager.store == store
      && killSwitch.configEngaged == config.killSwitch && killSwitch.store == store
      && validator.symbol == Upper(config.symbol)
    }

    /** The machine's view of this object. */
    ghost function Snapshot(): Process
      reads this, book, validator
    {
      Process(config, runId, admin, validator.known, state, reconciliation, account, contract,
              book.positions, validator.seen, inTick, start)
    }

    ghost function Here(): System
      reads this, book, validator, store
    {
      System(Some(Snapshot()), store.Contents())
    }

    constructor (config: Config, runId: string, admin: bool, store: Store)
      ensures Valid() && this.store == store && fresh(book) && fresh(validator)
      ensures this.config == config && this.runId == runId && this.admin == admin
      ensures validator.seen == {} && validator.known == LowerAll({config.strategy} + (if admin then {OPERATOR_STRATEGY} else {}))
      ensures state == Starting && reconciliation == NOTHING_RECONCILED && account.None? && contract.None? && !inTick
    {
      var risk := new Risk.RiskManager(config);
      var gate := new Gate.TransmitGate(config);
      this.config, this.runId, this.admin, this.store := config, runId, admin, store;
      orderManager := new OrderManager(config, store, risk, gate);
      killSwitch := new KillSwitch(config.killSwitch, store);
      validator := new SignalValidator(config.symbol, {config.strategy} + (if admin then {OPERATOR_STRATEGY} else {}));
      book := new PositionBook();
      state, reconciliation, account, contract := Starting, NOTHING_RECONCILED, None, None;
      nextReconcileAt, inTick := None, false;
    }

    /** Loads the book and the known intents from the tables found; in disabled mode there is no more to do. */
    method Startup(seed: set<string>)
      requires Valid() && store.Consistent() && validator.seen == {}
      requires validator.known == LowerAll({config.strategy} + (if admin then {OPERATOR_STRATEGY} else {}))
      requires state == Starting && reconciliation == NOTHING_RECONCILED && account.None? && contract.None? && !inTick
      modifies this, store, book, validator
      ensures Valid() && store.Consistent()
      ensures Snapshot() == Started(old(store.Contents()), config, runId, admin, seed)
      ensures store.log == old(store.log) + [PutState(LAST_RUN_KEY, runId)]
    {
      store.PutState(LAST_RUN_KEY, runId);
      validator.SeedSeen(seed);
      book.ReplaceAll(store.positions);
      start := book.positions;
      if config.mode.Disabled? {
        state := Safe;
      }
    }

    /** Records one fill if its execution is new, and then applies it to the book. */
    method IngestFill(f: BrokerFill) returns (recorded: bool)
      requires store.Consistent()
      modifies store, book
      ensures store.Consistent() && store.orders == old(store.orders) && store.state == old(store.state)
      ensures recorded <==> f.executionId !in KnownExecutions(old(store.fills))
      ensures KnownExecutions(store.fills) == KnownExecutions(old(store.fills)) + {f.executionId}
      ensures recorded ==> store.log == old(store.log) + [RecordFill(RowOfFill(f, store.orders, runId))]
      ensures recorded ==> book.positions == AfterFill(old(book.positions), f)
      ensures !recorded ==> store.log == old(store.log) && book.positions == old(book.positions)
    {
      var order := FindBroker(store.orders, f.brokerOrderId);
      var row := FillRow(f, if order.Some? then order.value.internalId else "", runId);
      RecordedIffUnknown(store.fills, f.executionId);
      KnownSnoc(store.fills, row);
      recorded := store.RecordFill(row);
      if !recorded {
        return;  // not new to the table: the book is left alone
      }
      var left := book.ApplyFill(f);
    }

    /** Records the fills not seen before and applies only those to the book. */
    method IngestFills(fills: seq<BrokerFill>) returns (applied: seq<BrokerFill>)
      requires store.Consistent()
      modifies store, book
      ensures store.Consistent() && store.orders == old(store.orders) && store.state == old(store.state)
      ensures applied == NewFills(fills, KnownExecutions(old(store.fills)))
      ensures store.log == old(store.log) + FillEffects(applied, old(store.orders), runId)
      ensures book.positions == AfterFills(old(book.positions), applied)
    {
      hide KnownExecutions, FillEffects, AfterFill, AfterFills, RowOfFill, ApplyAll, NewFills;
      applied := [];
      NothingNew(KnownExecutions(store.fills), book.positions);
      NoRecords(store.orders, runId);
      for i := 0 to |fills|
        invariant store.Consistent() && store.orders == old(store.orders) && store.state == old(store.state)
        invariant applied == NewFills(fills[..i], KnownExecutions(old(store.fills)))
        invariant KnownExecutions(store.fills) == KnownExecutions(old(store.fills)) + IdsOf(fills[..i])
        invariant store.log == old(store.log) + FillEffects(applied, store.orders, runId)
        invariant book.positions == AfterFills(old(book.positions), applied)
      {
        var f := fills[i];
        OneMoreFill(fills, i, KnownExecutions(old(store.fills)));
        var recorded := IngestFill(f);
        if recorded {
          OneMoreApplied(old(book.positions), applied, f);
          OneMoreRecord(applied, f, store.orders, runId);
          applied := applied + [f];
        }
      }
      assert fills[..|fills|] == fills;
    }

    /**
     * Reads the broker, ingests fills, compares, and adopts on success. False where adopting a list that
     * names a contract twice raises, which ends the process.
     */
    method Reconcile(answers: Answers) returns (survived: bool)
      requires Valid() && store.Consistent()
      modifies this, store, book
      ensures Valid() && store.Consistent() && store.state == old(store.state) && nextReconcileAt == old(nextReconcileAt)
      ensures var r := Reconciled(old(Snapshot()), old(store.Contents()), answers);
              && survived == r.process.Some?
              && (survived ==> Snapshot() == r.process.value)
              && store.log == old(store.log) + r.effects
    {
      state, account := Reconciling, answers.account;
      inTick := false;
      if answers.view.None? {
        reconciliation := READ_FAILED;
        return true;
      }
      survived := Adopt(answers.view.value);
    }

    /** The part of a reconciliation that has the broker's answers in hand. */
    method Adopt(v: BrokerView) returns (survived: bool)
      requires store.Consistent()
      modifies this, store, book
      ensures store.Consistent() && store.state == old(store.state)
      ensures unchanged(this`nextReconcileAt)
      ensures unchanged(this`state) && unchanged(this`account) && unchanged(this`contract)
      ensures unchanged(this`inTick) && unchanged(this`start)
      ensures var applied := NewFills(v.fills, KnownExecutions(old(store.fills)));
              var recorded := FillEffects(applied, old(store.orders), runId);
              var compared := Compare(AfterFills(old(book.positions), applied), v.positions, v.working,
                                      LocalOpens(OpenRows(old(store.orders))), |v.fills|, account.Some?);
              && reconciliation == compared
              && (if !compared.Succeeded() then
                    survived && book.positions == AfterFills(old(book.positions), applied) && store.log == old(store.log) + recorded
                  else
                    && survived == DistinctContracts(v.positions)
                    && book.positions == FromPositions(v.positions)
                    && store.log == old(store.log) + if survived then recorded + [ReplacePositions(v.positions)] else recorded)
    {
      var applied := IngestFills(v.fills);
      reconciliation := Reconciliation.Reconcile(book.positions, v.positions, v.working, LocalOpens(OpenRows(store.orders)),
                                                 |v.fills|, account.Some?);
      survived := true;
      if reconciliation.Succeeded() {
        book.ReplaceAll(v.positions);
        survived := store.ReplacePositions(v.positions);
        Associate(old(store.log), FillEffects(applied, old(store.orders), runId), [ReplacePositions(v.positions)]);
      }
    }

    /** SAFE without a standing reconciliation, else HALTED under a switch, else SAFE without mode or permission, else READY. */
    method ComputeReadyState(readable: bool) returns (next: AppState)
      requires Valid()
      ensures next == ReadyState(config, reconciliation, store.state, readable)
    {
      if !reconciliation.Succeeded() {
        return Safe;
      }
      var engaged := killSwitch.Engaged(readable);
      if engaged {
        return Halted;
      }
      if config.mode.Disabled? || !config.allowTransmit {
        return Safe;
      }
      next := Ready;
    }

    /** The session is up: reconcile, resolve the contract, settle. */
    method AfterConnect(answers: Answers, resolved: Option<QualifiedContract>, readable: bool) returns (survived: bool)
      requires Valid() && store.Consistent()
      modifies this, store, book
      ensures Valid() && store.Consistent()
      ensures var t := old(store.Contents());
              var r := Settled(Reconciled(old(Snapshot()), t, answers), t, readable, Some(resolved));
              && survived == r.process.Some?
              && (survived ==> Snapshot() == r.process.value)
              && store.log == old(store.log) + r.effects
    {
      survived := Reconcile(answers);
      if !survived {
        return;
      }
      if !reconciliation.Succeeded() {
        state := Safe;
        return;
      }
      contract := resolved;
      state := ComputeReadyState(readable);
    }

    /** Re-checks on a timer; the first call only schedules, and a non-positive interval switches it off. */
    method MaybeReconcile(now: real, interval: real, answers: Answers, readable: bool) returns (survived: bool)
      requires Valid() && store.Consistent()
      modifies this, store, book
      ensures Valid() && store.Consistent()
      ensures var due := interval > 0.0 && old(nextReconcileAt).Some? && now >= old(nextReconcileAt).value;
              && nextReconcileAt == (if due || (interval > 0.0 && old(nextReconcileAt).None?) then Some(now + interval)
                                     else old(nextReconcileAt))
              && (!due ==> survived && Snapshot() == old(Snapshot()) && store.log == old(store.log))
              && (due ==>
                    var t := old(store.Contents());
                    var r := Settled(Reconciled(old(Snapshot()), t, answers), t, readable, None);
                    && survived == r.process.Some?
                    && (survived ==> Snapshot() == r.process.value)
                    && store.log == old(store.log) + r.effects)
    {
      survived := true;
      if interval <= 0.0 {
        return;
      }
      if nextReconcileAt.None? {
        nextReconcileAt := Some(now + interval);
        return;
      }
      if now < nextReconcileAt.value {
        return;
      }
      nextReconcileAt := Some(now + interval);
      survived := Recheck(answers, readable);
    }

    method Recheck(answers: Answers, readable: bool) returns (survived: bool)
      requires Valid() && store.Consistent()
      modifies this, store, book
      ensures Valid() && store.Consistent() && nextReconcileAt == old(nextReconcileAt)
      ensures var t := old(store.Contents());
              var r := Settled(Reconciled(old(Snapshot()), t, answers), t, readable, None);
              && survived == r.process.Some?
              && (survived ==> Snapshot() == r.process.value)
              && store.log == old(store.log) + r.effects
    {
      survived := Reconcile(answers);
      if survived {
        if !reconciliation.Succeeded() {
          state := Safe;
        } else {
          state := ComputeReadyState(readable);
        }
      }
    }

    /** Drops to SAFE and forgets everything learned from the session. */
    method HandleDisconnect()
      modifies this
      ensures unchanged(this`nextReconcileAt) && unchanged(this`start)
      ensures Snapshot() == Dropped(old(Snapshot()))
    {
      state, reconciliation, account, contract := Safe, NOTHING_RECONCILED, None, None;
      inTick := false;
    }

    method BuildRiskContext(h: Handling, c: QualifiedContract, side: OrderSide, quantity: int) returns (r: Risk.RiskContext)
      requires Valid() && (side, quantity) == SideAndQuantity(Quantity(book.positions, c.conId), h.intent.requestedPosition)
      ensures r == RiskContextOf(Snapshot(), store.Contents(), h, c)
    {
      var engaged := killSwitch.Engaged(h.readable);
      r := Risk.RiskContext(
        side, quantity, Quantity(book.positions, c.conId), Some(c),
        if h.quote.Some? then h.quote.value.mid else None, AgeSeconds(h.quote, h.times.counted),
        h.pnl, |OpenRows(store.orders)|, CountSince(store.orders, h.times.counted - HOUR),
        state, h.connection, h.account, account.Some?, reconciliation.positionsReconciled, reconciliation.ordersReconciled,
        PermissionReady(account, config), h.strategyEnabled, engaged, false);
    }

    method BuildGateContext(h: Handling, c: QualifiedContract) returns (g: Gate.GateContext)
      ensures g == GateContextOf(Snapshot(), h, c)
    {
      g := Gate.GateContext(
        state, h.connection, h.account, c.conId > 0, c.IsContinuous(), account.Some?,
        reconciliation.positionsReconciled, reconciliation.ordersReconciled,
        AgeSeconds(h.quote, h.times.gated), if h.quote.Some? then h.quote.value.delayed else true,
        PermissionReady(account, config), h.strategyEnabled, true);
    }

    /** Validates an intent and records it, accepted or not. */
    method Admit(h: Handling) returns (accepted: bool)
      requires Valid() && store.Consistent()
      modifies store, validator
      ensures store.Consistent()
      ensures accepted <==> Acceptable(old(Snapshot()), h)
      ensures Snapshot() == old(Snapshot()).(seen := validator.seen)
      ensures validator.seen == if accepted then old(validator.seen) + {h.intent.intentId} else old(validator.seen)
      ensures store.log == old(store.log) + [SignalOf(h)]
      ensures store.Contents() == old(store.Contents()).(signals := store.signals)
    {
      var reasons := validator.Validate(h.intent, h.times.validated);
      store.RecordSignal(Signal(h.intent.intentId, h.intent.createdAt));
      accepted := reasons == [];
    }

    /** Handles one intent as the machine does: process, tables and log end as `Handled` says. */
    method HandleIntent(h: Handling)
      requires Valid() && store.Consistent()
      modifies store, validator
      ensures store.Consistent()
      ensures var r := Handled(old(Snapshot()), old(store.Contents()), h);
              && store.log == old(store.log) + r.effects
              && Here() == System(r.process, ApplyAll(old(store.Contents()), r.effects))
    {
      hide Acceptable, OrderEffects, Handled;
      ghost var p, t := Snapshot(), store.Contents();
      var accepted := Admit(h);
      HandledBySteps(p, t, h);
      if accepted {
        OnlyTheSessionMatters(p, Snapshot(), t, store.Contents(), h);
        SubmitFor(h);
        Associate(old(store.log), [SignalOf(h)], OrderEffects(p, t, h));
      }
      store.TablesFollowLog(Handled(p, t, h).effects);
    }

    /** Turns an accepted intent into the order it needs, if it needs one. */
    method SubmitFor(h: Handling)
      requires Valid() && store.Consistent()
      modifies store
      ensures store.Consistent()
      ensures store.log == old(store.log) + OrderEffects(Snapshot(), old(store.Contents()), h)
    {
      if contract.None? {
        return;
      }
      var c := contract.value;
      var (side, quantity) := SideAndQuantity(Quantity(book.positions, c.conId), h.intent.requestedPosition);
      if quantity == 0 {
        return;
      }
      var risk := BuildRiskContext(h, c, side, quantity);
      var gate := BuildGateContext(h, c);
      var outcome := orderManager.SubmitIntent(
        Submission(h.intent, c, risk, gate, h.orderType, h.limitPrice, h.freshId, h.times.stamped, h.reply, h.times.replied));
    }

    /** Writes down what the broker did with an operator's order, if its row can be found. */
    method LearnStatus(u: StatusUpdate)
      requires store.Consistent()
      modifies store
      ensures store.Consistent()
      ensures store.log == old(store.log) + StatusEffects(old(store.orders), u)
    {
      var stored := FindBroker(store.orders, u.brokerOrderId);
      if stored.Some? {
        var order := new Order.FromRow(stored.value.(status := FromIbStatus(u.ibStatus), filledQuantity := u.filled,
                                                     averageFillPrice := u.average, updatedAt := u.at));
        store.UpdateOrder(order);
      }
    }

    /** One pass of the loop over market data: a disconnect is noticed, or quotes reach the strategy. */
    method Tick(connected: bool, readable: bool, handlings: seq<Handling>)
      requires Valid() && store.Consistent() && !admin && !config.mode.Disabled?
      modifies this, store, validator
      ensures Valid() && store.Consistent()
      ensures Here() == Run(old(Here()), TickSteps(connected, readable, handlings))
    {
      ghost var s, steps := Here(), TickSteps(connected, readable, handlings);
      hide Run, Next, TickSteps, Handled;
      TickOpens(s, connected, readable, handlings);
      IdleTick(s, connected, readable, handlings);
      if !connected {
        HandleDisconnect();
        return;
      }
      if contract.None? {
        inTick := false;
        return;
      }
      var engaged := killSwitch.Engaged(readable);
      inTick := !engaged;
      if engaged {
        state := Halted;
        return;
      }
      HandleAll(s, connected, readable, handlings);
    }

    /** Hands each intent of the tick through the pipeline, in order. */
    method HandleAll(ghost s: System, connected: bool, readable: bool, handlings: seq<Handling>)
      requires Valid() && store.Consistent() && inTick && !config.mode.Disabled?
      requires Here() == Run(s, TickSteps(connected, readable, handlings)[..1])
      modifies store, validator
      ensures store.Consistent()
      ensures Here() == Run(s, TickSteps(connected, readable, handlings))
    {
      hide Run, Next, TickSteps, Handled;
      ghost var steps := TickSteps(connected, readable, handlings);
      TickLength(connected, readable, handlings);
      for i := 0 to |handlings|
        invariant store.Consistent()
        invariant Here() == Run(s, steps[..i + 1])
      {
        HandleIntent(handlings[i]);
        OneIntent(s, connected, readable, handlings, i);
      }
      assert steps[..|steps|] == steps;
    }
  }

  /** A tick as steps of the machine. */
  function TickSteps(connected: bool, readable: bool, handlings: seq<Handling>): seq<Step> {
    [Step(if connected then Ticked(readable) else DisconnectSeen, None)]
    + seq(|handlings|, i requires 0 <= i < |handlings| => Step(IntentHandled(handlings[i]), None))
  }

  lemma TickLength(connected: bool, readable: bool, handlings: seq<Handling>)
    ensures |TickSteps(connected, readable, handlings)| == 1 + |handlings|
  {}

  /** The first step of a tick. */
  lemma TickOpens(s: System, connected: bool, readable: bool, handlings: seq<Handling>)
    requires s.process.Some? && !s.process.value.config.mode.Disabled?
    ensures var p := s.process.value;
            Run(s, TickSteps(connected, readable, handlings)[..1])
            == System(Some(if connected then TickedOn(p, s.tables, readable) else Dropped(p)), s.tables)
  {
    var first := Step(if connected then Ticked(readable) else DisconnectSeen, None);
    assert TickSteps(connected, readable, handlings)[..1] == [first];
    assert [first][..0] == [];
    hide Comparison, Handled, Reconciled, StatusEffects, Started;
    assert Run(s, [first]) == Next(s, first);
  }

  /** An intent outside the part of a tick that hands out quotes is no event at all for this process. */
  lemma {:induction false} IdleTick(s: System, connected: bool, readable: bool, handlings: seq<Handling>)
    requires s.process.Some? && !s.process.value.admin
    ensures var after := Run(s, TickSteps(connected, readable, handlings)[..1]);
            after.process.Some? && !after.process.value.admin && !after.process.value.inTick ==>
              Run(s, TickSteps(connected, readable, handlings)) == after
  {
    hide Next;
    var steps := TickSteps(connected, readable, handlings);
    if handlings == [] {
      assert steps[..1] == steps;
    } else {
      var init := handlings[..|handlings| - 1];
      IdleTick(s, connected, readable, init);
      assert TickSteps(connected, readable, init)[..1] == steps[..1];
      assert TickSteps(connected, readable, init) == steps[..|steps| - 1];
      Ignored(Run(s, steps[..1]), handlings[|handlings| - 1]);
    }
  }

  lemma OneIntent(s: System, connected: bool, readable: bool, handlings: seq<Handling>, i: nat)
    requires i < |handlings|
    requires var before := Run(s, TickSteps(connected, readable, handlings)[..i + 1]);
             before.process.Some? && before.process.value.inTick && !before.process.value.config.mode.Disabled?
    ensures var steps := TickSteps(connected, readable, handlings);
            var before := Run(s, steps[..i + 1]);
            var r := Handled(before.process.value, before.tables, handlings[i]);
            Run(s, steps[..i + 2]) == System(r.process, ApplyAll(before.tables, r.effects))
  {
    hide Next, Handled;
    var steps := TickSteps(connected, readable, handlings);
    assert steps[..i + 2][..i + 1] == steps[..i + 1] && steps[i + 1] == Step(IntentHandled(handlings[i]), None);
    HandledIsNext(Run(s, steps[..i + 1]), handlings[i]);
  }

  lemma RecordedIffUnknown(rows: seq<FillRow>, id: string)
    ensures id in KnownExecutions(rows) <==> exists i :: 0 <= i < |rows| && rows[i].fill.executionId == id
  {
    if exists i :: 0 <= i < |rows| && rows[i].fill.executionId == id {
      var i :| 0 <= i < |rows| && rows[i].fill.executionId == id;
      assert rows[i] in rows;
    }
  }

  lemma KnownSnoc(rows: seq<FillRow>, r: FillRow)
    ensures KnownExecutions(rows + [r]) == KnownExecutions(rows) + {r.fill.executionId}
  {
    assert forall x :: x in rows + [r] <==> x in rows || x == r;
  }
}
