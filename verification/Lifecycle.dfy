/**
 * The lifecycle over every run: READY means reconciled, the book moves by recorded fills alone, and a
 * crash never makes a reconciliation clear that should not.
 */
module Lifecycle {
  import opened Enums
  import opened Configuration
  import opened OrderTable
  import opened Positions
  import opened Durable
  import opened Reconciliation
  import opened Ingestion
  import opened OrderManagement
  import opened OrderSafety
  import opened OrdersOverRuns
  import opened Machine

  // ----- fills recorded by one process -----

  function FillsOf(rows: seq<FillRow>, runId: string): seq<BrokerFill> {
    if rows == [] then []
    else
      var earlier := FillsOf(rows[..|rows| - 1], runId);
      if rows[|rows| - 1].runId == runId then earlier + [rows[|rows| - 1].fill] else earlier
  }

  function FillRows(fs: seq<BrokerFill>, orders: Rows, runId: string): seq<FillRow> {
    if fs == [] then [] else FillRows(fs[..|fs| - 1], orders, runId) + [RowOfFill(fs[|fs| - 1], orders, runId)]
  }

  /** However many of a batch's records survive, those and only those are in the table. */
  lemma {:induction false} RecordsApplied(t: Tables, fs: seq<BrokerFill>, orders: Rows, runId: string, k: nat)
    requires k <= |fs|
    ensures ApplyAll(t, FillEffects(fs, orders, runId)[..k]) == t.(fills := t.fills + FillRows(fs[..k], orders, runId))
  {
    if k == 0 {
      assert t.fills + [] == t.fills;
    } else {
      var es := FillEffects(fs, orders, runId);
      RecordsApplied(t, fs, orders, runId, k - 1);
      assert es[..k] == es[..k - 1] + [RecordFill(RowOfFill(fs[k - 1], orders, runId))];
      ApplyOneMore(t, es[..k - 1], es[k - 1]);
      assert fs[..k][..k - 1] == fs[..k - 1];
    }
  }

  lemma FillsOfOneMore(rows: seq<FillRow>, r: FillRow, runId: string)
    ensures FillsOf(rows + [r], runId) == if r.runId == runId then FillsOf(rows, runId) + [r.fill] else FillsOf(rows, runId)
  {
    assert (rows + [r])[..|rows|] == rows;
  }

  lemma OneMoreFillRow(fs: seq<BrokerFill>, orders: Rows, runId: string)
    requires fs != []
    ensures FillRows(fs, orders, runId) == FillRows(fs[..|fs| - 1], orders, runId) + [RowOfFill(fs[|fs| - 1], orders, runId)]
    ensures RowOfFill(fs[|fs| - 1], orders, runId).runId == runId && RowOfFill(fs[|fs| - 1], orders, runId).fill == fs[|fs| - 1]
  {}

  lemma NoFillRows(orders: Rows, runId: string)
    ensures FillRows([], orders, runId) == []
  {}

  /** Rows recorded by one run add its fills to that run's, and nothing to any other's. */
  lemma {:induction false} FillsOfMore(rows: seq<FillRow>, fs: seq<BrokerFill>, orders: Rows, runId: string, other: string)
    ensures FillsOf(rows + FillRows(fs, orders, runId), other)
         == if other == runId then FillsOf(rows, other) + fs else FillsOf(rows, other)
  {
    hide RowOfFill, FillRows, FillsOf;
    if fs == [] {
      NoFillRows(orders, runId);
      assert rows + [] == rows && FillsOf(rows, other) + fs == FillsOf(rows, other);
    } else {
      var init, last := fs[..|fs| - 1], fs[|fs| - 1];
      var before, row := rows + FillRows(init, orders, runId), RowOfFill(last, orders, runId);
      FillsOfMore(rows, init, orders, runId, other);
      OneMoreFillRow(fs, orders, runId);
      FillsOfOneMore(before, row, other);
      Snoc(rows, FillRows(init, orders, runId), row);
      Snoc(FillsOf(rows, other), init, last);
      assert init + [last] == fs;
    }
  }

  lemma Snoc<T>(a: seq<T>, b: seq<T>, x: T)
    ensures a + (b + [x]) == (a + b) + [x]
  {}

  lemma {:induction false} NoFillsOf(rows: seq<FillRow>, runId: string)
    requires forall i :: 0 <= i < |rows| ==> rows[i].runId != runId
    ensures FillsOf(rows, runId) == []
  {
    if rows != [] { NoFillsOf(rows[..|rows| - 1], runId); }
  }

  // ----- what a reconciliation does to book and tables -----

  function Applied(t: Tables, answers: Answers): seq<BrokerFill> {
    if answers.view.None? then [] else NewFills(answers.view.value.fills, KnownExecutions(t.fills))
  }

  /** The reconciliation adopts: the comparison succeeded and every contract is listed once. */
  predicate Adopts(p: Process, t: Tables, answers: Answers) {
    && answers.view.Some?
    && Comparison(p, t, answers.account.Some?, answers.view.value).Succeeded()
    && DistinctContracts(answers.view.value.positions)
  }

  lemma AllRecordsApplied(t: Tables, fs: seq<BrokerFill>, runId: string)
    ensures ApplyAll(t, FillEffects(fs, t.orders, runId)) == t.(fills := t.fills + FillRows(fs, t.orders, runId))
  {
    var es := FillEffects(fs, t.orders, runId);
    RecordsApplied(t, fs, t.orders, runId, |fs|);
    assert es[..|fs|] == es && fs[..|fs|] == fs;
  }

  /** What an uncut reconciliation leaves behind. */
  lemma ReconciledTables(p: Process, t: Tables, answers: Answers)
    ensures ApplyAll(t, Reconciled(p, t, answers).effects) ==
              t.(fills := t.fills + FillRows(Applied(t, answers), t.orders, p.runId),
                 positions := if Adopts(p, t, answers) then answers.view.value.positions else t.positions)
  {
    hide Reconciled, Applied, FillEffects, FillRows, Comparison;
    var fs := Applied(t, answers);
    AllRecordsApplied(t, fs, p.runId);
    ReconciledEffects(p, t, answers);
    if Adopts(p, t, answers) {
      ApplyOneMore(t, FillEffects(fs, t.orders, p.runId), ReplacePositions(answers.view.value.positions));
    }
  }

  lemma ReconciledEffects(p: Process, t: Tables, answers: Answers)
    ensures var recorded := FillEffects(Applied(t, answers), t.orders, p.runId);
            Reconciled(p, t, answers).effects ==
              if Adopts(p, t, answers) then recorded + [ReplacePositions(answers.view.value.positions)] else recorded
  {
    hide Comparison;
  }

  /**
   * A reconciliation finds no position discrepancy exactly when, for every contract, the broker holds
   * what the book held plus the net of the fills recorded just now; and no order discrepancy exactly
   * when every open row has a broker id and those ids are the broker's working ids.
   */
  lemma ClearsExactlyWhenExplained(p: Process, t: Tables, account: bool, v: BrokerView)
    ensures var r := Comparison(p, t, account, v);
            var fs := NewFills(v.fills, KnownExecutions(t.fills));
            && (r.positionDiscrepancies == [] <==>
                  forall c :: Quantity(ById(v.positions), c) == Quantity(p.book, c) + Net(fs, c))
            && (r.orderDiscrepancies == [] <==>
                  && (forall o :: o in OpenRows(t.orders) ==> o.brokerOrderId.Some?)
                  && WorkingIds(v.working) == (set o | o in OpenRows(t.orders) && o.brokerOrderId.Some? :: o.brokerOrderId.value))
            && (r.Succeeded() <==> account && r.positionDiscrepancies == [] && r.orderDiscrepancies == [])
            && (forall d :: d in r.positionDiscrepancies ==>
                  d.Delta() == Quantity(ById(v.positions), d.conId) - Quantity(p.book, d.conId) - Net(fs, d.conId) != 0)
  {
    var fs := NewFills(v.fills, KnownExecutions(t.fills));
    FillsConserve(p.book, fs);
    ComparisonIsExact(AfterFills(p.book, fs), v.positions);
    OpensAreRows(OpenRows(t.orders));
    OrderComparisonIsExact(v.working, LocalOpens(OpenRows(t.orders)));
  }

  lemma OpensAreRows(open: Rows)
    ensures (forall l :: l in LocalOpens(open) ==> l.brokerOrderId.Some?) <==> (forall o :: o in open ==> o.brokerOrderId.Some?)
    ensures LocalIds(LocalOpens(open)) == set o | o in open && o.brokerOrderId.Some? :: o.brokerOrderId.value
  {
    var ls := LocalOpens(open);
    forall o | o in open ensures exists l :: l in ls && l.brokerOrderId == o.brokerOrderId {
      var i :| 0 <= i < |open| && open[i] == o;
      assert ls[i] in ls;
    }
    forall l | l in ls ensures exists o :: o in open && l.brokerOrderId == o.brokerOrderId {
      var i :| 0 <= i < |ls| && ls[i] == l;
      assert open[i] in open;
    }
  }

  // ----- READY means reconciled -----

  /** While the last reconciliation stands, account, book, durable positions and broker snapshot agree. */
  ghost predicate Grounded(p: Process, t: Tables) {
    p.recon.Succeeded() ==>
      && p.account.Some?
      && t.positions == p.recon.brokerPositions
      && p.book == FromPositions(t.positions)
      && DistinctContracts(t.positions)
  }

  ghost predicate Permitted(p: Process) {
    p.state.Ready? ==> p.recon.Succeeded() && p.config.allowTransmit && !p.config.mode.Disabled?
  }

  ghost predicate ReadyInvariant(s: System) {
    s.process.Some? ==> Grounded(s.process.value, s.tables) && Permitted(s.process.value)
  }

  lemma ReconcilingGrounds(p: Process, t: Tables, answers: Answers)
    ensures var r := Reconciled(p, t, answers);
            r.process.Some? ==>
              && Grounded(r.process.value, ApplyAll(t, r.effects))
              && r.process.value.state == Reconciling && r.process.value.config == p.config
              && (r.process.value.recon.Succeeded() <==> Adopts(p, t, answers))
  {
    hide AfterFills, OpenRows, NewFills;
    ReconciledTables(p, t, answers);
  }

  lemma SettlingPermits(r: Reaction, t: Tables, t': Tables, readable: bool, resolved: Option<Option<QualifiedContract>>)
    requires r.process.Some? ==> Grounded(r.process.value, t') && r.process.value.state == Reconciling
    ensures var s := Settled(r, t, readable, resolved);
            && s.effects == r.effects && (s.process.Some? <==> r.process.Some?)
            && (s.process.Some? ==>
                  && Grounded(s.process.value, t') && Permitted(s.process.value)
                  && (s.process.value.state.Ready? <==>
                        && r.process.value.recon.Succeeded() && r.process.value.config.allowTransmit
                        && !r.process.value.config.mode.Disabled? && !Engaged(r.process.value.config, t.state, readable)))
  {}

  /** Effects that leave the durable positions and fills alone. */
  predicate PositionNeutral(e: Effect) { !e.ReplacePositions? && !e.RecordFill? }

  lemma {:induction false} NeutralKeepsPositions(t: Tables, es: seq<Effect>)
    requires forall i :: 0 <= i < |es| ==> PositionNeutral(es[i])
    ensures ApplyAll(t, es).positions == t.positions && ApplyAll(t, es).fills == t.fills
  {
    if es != [] { NeutralKeepsPositions(t, es[..|es| - 1]); }
  }

  predicate Reconciles(e: Event) { e.Connected? || e.Rechecked? || e.OperatorRechecked? }

  predicate HasBroker(p: Process) { !p.config.mode.Disabled? }

  lemma NeutralEvents(s: System, e: Event)
    requires !Reconciles(e)
    ensures forall x :: x in ReactionOf(s, e).effects ==> PositionNeutral(x)
  {
    hide Started, Handled, StatusEffects;
    if s.process.Some? {
      var p := s.process.value;
      match e
      case IntentHandled(h) => HandledKinds(p, s.tables, h);
      case StatusLearned(u) => StatusKinds(s.tables.orders, u);
      case _ =>
    }
  }

  lemma NeutralSteps(s: System, step: Step)
    requires !Reconciles(step.event)
    ensures Next(s, step).tables.positions == s.tables.positions && Next(s, step).tables.fills == s.tables.fills
  {
    hide ReactionOf;
    NeutralEvents(s, step.event);
    var es := ReactionOf(s, step.event).effects;
    KeptIsPrefix(es, step.survives);
    NeutralKeepsPositions(s.tables, Kept(es, step.survives));
  }

  predicate SameIdentity(p: Process, p': Process) {
    p'.config == p.config && p'.runId == p.runId && p'.start == p.start && p'.admin == p.admin
  }

  /** Outside reconciliation a process keeps its book; READY and the last result are kept or dropped. */
  ghost predicate Quiet(p: Process, p': Process) {
    && SameIdentity(p, p') && p'.book == p.book
    && (p'.state.Ready? ==> p.state.Ready?)
    && ((p'.recon == p.recon && p'.account == p.account) || (!p'.recon.Succeeded() && !p'.state.Ready?))
  }

  lemma QuietEvents(s: System, e: Event)
    requires !Reconciles(e) && !e.Startup? && s.process.Some?
    ensures ReactionOf(s, e).process.Some? ==> Quiet(s.process.value, ReactionOf(s, e).process.value)
  {
    hide StatusEffects, CancelEffects, SubmissionEffects, Acceptable, Reconciled, Started;
  }

  /** A reconciling event that the process acts on, and what it leaves. */
  function ReconcilingReaction(p: Process, t: Tables, e: Event): Reaction
    requires Reconciles(e)
  {
    match e
    case Connected(answers, resolved, readable) => Settled(Reconciled(p, t, answers), t, readable, Some(resolved))
    case Rechecked(answers, readable) => Settled(Reconciled(p, t, answers), t, readable, None)
    case OperatorRechecked(answers) => Reconciled(p, t, answers)
  }

  predicate Acts(p: Process, e: Event) { HasBroker(p) && Reconciles(e) && (e.OperatorRechecked? ==> p.admin) }

  lemma ReconcilingStep(s: System, step: Step)
    requires s.process.Some? && Reconciles(step.event)
    ensures !Acts(s.process.value, step.event) ==>
              Next(s, step) == System(if step.survives.None? then s.process else None, s.tables)
    ensures Acts(s.process.value, step.event) ==>
              && Next(s, step).process
                 == (if step.survives.None? then ReconcilingReaction(s.process.value, s.tables, step.event).process else None)
              && Next(s, step).tables
                 == ApplyAll(s.tables, Kept(ReconcilingReaction(s.process.value, s.tables, step.event).effects, step.survives))
  {
    hide Reconciled, Settled;
  }

  lemma ReconcilingKeepsIdentity(p: Process, t: Tables, e: Event)
    requires Reconciles(e) && ReconcilingReaction(p, t, e).process.Some?
    ensures SameIdentity(p, ReconcilingReaction(p, t, e).process.value)
  {
    ReconciledKeepsIdentity(p, t, e.answers);
    hide Reconciled;
  }

  lemma ReconciledKeepsIdentity(p: Process, t: Tables, answers: Answers)
    ensures Reconciled(p, t, answers).process.Some? ==> SameIdentity(p, Reconciled(p, t, answers).process.value)
  {
    hide Comparison;
  }

  /** Only a startup brings a configuration and an identity. */
  lemma IdentityIsFixed(s: System, step: Step)
    requires !step.event.Startup? && Next(s, step).process.Some?
    ensures s.process.Some? && SameIdentity(s.process.value, Next(s, step).process.value)
  {
    if s.process.Some? && Reconciles(step.event) {
      hide Next, ReconcilingReaction;
      ReconcilingStep(s, step);
      if Acts(s.process.value, step.event) { ReconcilingKeepsIdentity(s.process.value, s.tables, step.event); }
    } else if !Reconciles(step.event) {
      hide Next;
      QuietStep(s, step);
    }
  }

  lemma StepKeepsReady(s: System, step: Step)
    requires ReadyInvariant(s)
    ensures ReadyInvariant(Next(s, step))
  {
    hide Grounded, Permitted;
    var e := step.event;
    if Next(s, step).process.Some? {
      if e.Startup? {
        StartsUnready(s, step);
      } else if s.process.Some? && Reconciles(e) {
        hide Next, ReconcilingReaction;
        ReconcilingStep(s, step);
        if Acts(s.process.value, e) { OutcomeIsReady(s.process.value, s.tables, e); }
      } else {
        QuietKeepsReady(s, step);
      }
    }
  }

  lemma StartsUnready(s: System, step: Step)
    requires step.event.Startup? && Next(s, step).process.Some?
    ensures ReadyInvariant(Next(s, step))
    ensures Next(s, step).process.value == Started(s.tables, step.event.config, step.event.runId, step.event.admin, step.event.seed)
    ensures Next(s, step).tables.fills == s.tables.fills
  {
    NeutralSteps(s, step);
  }

  lemma QuietStep(s: System, step: Step)
    requires !Reconciles(step.event) && !step.event.Startup? && Next(s, step).process.Some?
    ensures s.process.Some? && Quiet(s.process.value, Next(s, step).process.value)
  {
    hide React;
    assert s.process.Some?;
    QuietEvents(s, step.event);
  }

  lemma QuietKeepsReady(s: System, step: Step)
    requires ReadyInvariant(s) && !Reconciles(step.event) && !step.event.Startup? && Next(s, step).process.Some?
    ensures ReadyInvariant(Next(s, step))
  {
    hide Next;
    QuietStep(s, step);
    NeutralSteps(s, step);
  }

  lemma OutcomeIsReady(p: Process, t: Tables, e: Event)
    requires Reconciles(e)
    ensures var r := ReconcilingReaction(p, t, e);
            r.process.Some? ==> Grounded(r.process.value, ApplyAll(t, r.effects)) && Permitted(r.process.value)
  {
    hide Reconciled, Settled, Grounded, Adopts;
    match e
    case Connected(answers, resolved, readable) =>
      ReconcilingGrounds(p, t, answers);
      SettlingPermits(Reconciled(p, t, answers), t, ApplyAll(t, Reconciled(p, t, answers).effects), readable, Some(resolved));
    case Rechecked(answers, readable) =>
      ReconcilingGrounds(p, t, answers);
      SettlingPermits(Reconciled(p, t, answers), t, ApplyAll(t, Reconciled(p, t, answers).effects), readable, None);
    case OperatorRechecked(answers) =>
      ReconcilingGrounds(p, t, answers);
  }

  lemma {:induction false} ReadyAlways(s: System, steps: seq<Step>)
    requires ReadyInvariant(s)
    ensures ReadyInvariant(Run(s, steps))
  {
    hide Next, ReadyInvariant;
    if steps != [] {
      ReadyAlways(s, steps[..|steps| - 1]);
      StepKeepsReady(Run(s, steps[..|steps| - 1]), steps[|steps| - 1]);
    }
  }

  /**
   * In every state of every run - disconnects, failed reads, crashes and restarts included - READY
   * means: the last reconciliation succeeded, the account is present, transmission is allowed, the mode
   * is not disabled, and book, durable positions and that reconciliation's broker snapshot hold the
   * same quantity of every contract.
   */
  lemma ReadyMeansReconciled(steps: seq<Step>, c: int)
    requires Run(FRESH_SYSTEM, steps).process.Some? && Run(FRESH_SYSTEM, steps).process.value.state.Ready?
    ensures var s := Run(FRESH_SYSTEM, steps);
            var p := s.process.value;
            && p.recon.Succeeded() && p.account.Some? && p.config.allowTransmit && !p.config.mode.Disabled?
            && Quantity(p.book, c) == Quantity(FromPositions(s.tables.positions), c) == Quantity(ById(p.recon.brokerPositions), c)
  {
    hide Next;
    ReadyAlways(FRESH_SYSTEM, steps);
    AdoptionKeepsQuantities(Run(FRESH_SYSTEM, steps).tables.positions);
  }

  /** Which outcomes of a reconciling event are READY. */
  lemma ReadyOutcome(p: Process, t: Tables, e: Event)
    requires Reconciles(e)
    ensures var r := ReconcilingReaction(p, t, e);
            r.process.Some? && r.process.value.state.Ready? <==>
              && !e.OperatorRechecked? && Adopts(p, t, e.answers)
              && HasBroker(p) && p.config.allowTransmit && !Engaged(p.config, t.state, e.readable)
  {
    hide Reconciled, Settled, Adopts, Grounded, Permitted;
    ReconcilingGrounds(p, t, e.answers);
    AdoptersSurvive(p, t, e.answers);
    var r := Reconciled(p, t, e.answers);
    match e
    case Connected(_, resolved, readable) => SettlingPermits(r, t, ApplyAll(t, r.effects), readable, Some(resolved));
    case Rechecked(_, readable) => SettlingPermits(r, t, ApplyAll(t, r.effects), readable, None);
    case OperatorRechecked(_) =>
  }

  lemma AdoptersSurvive(p: Process, t: Tables, answers: Answers)
    ensures Adopts(p, t, answers) ==> Reconciled(p, t, answers).process.Some?
  {
    hide Comparison;
  }

  /**
   * READY is entered in exactly one way: a connect or a periodic re-check whose own comparison
   * succeeded on a broker list without repeats, with no switch engaged and transmission permitted.
   */
  lemma ReadyIsEnteredExactlyBy(s: System, step: Step)
    requires s.process.Some? && !s.process.value.state.Ready? && step.survives.None?
    ensures Next(s, step).process.Some? && Next(s, step).process.value.state.Ready? <==>
              var p, e := s.process.value, step.event;
              && (e.Connected? || e.Rechecked?)
              && HasBroker(p) && Adopts(p, s.tables, e.answers)
              && p.config.allowTransmit && !Engaged(p.config, s.tables.state, e.readable)
  {
    if Reconciles(step.event) {
      hide Next, ReconcilingReaction, Adopts;
      ReconcilingStep(s, step);
      ReadyOutcome(s.process.value, s.tables, step.event);
    } else if step.event.Startup? {
      if Next(s, step).process.Some? { StartsUnready(s, step); }
    } else if Next(s, step).process.Some? {
      hide Next;
      QuietStep(s, step);
    }
  }

  ghost predicate IsReady(s: System) { s.process.Some? && s.process.value.state.Ready? }

  /** The step is a connect or re-check that this process ran to its end, that compared, succeeded and adopted. */
  ghost predicate Earns(s: System, step: Step) {
    && s.process.Some? && step.survives.None?
    && (step.event.Connected? || step.event.Rechecked?)
    && HasBroker(s.process.value) && Adopts(s.process.value, s.tables, step.event.answers)
    && s.process.value.config.allowTransmit && !Engaged(s.process.value.config, s.tables.state, step.event.readable)
  }

  lemma EarnedOrKept(s: System, step: Step)
    requires IsReady(Next(s, step)) && !IsReady(s)
    ensures Earns(s, step)
  {
    if s.process.None? {
      if step.event.Startup? { StartsUnready(s, step); } else { QuietFromNothing(s, step); }
    } else if step.survives.None? {
      hide Next, Adopts;
      ReadyIsEnteredExactlyBy(s, step);
    } else {
      CutsAreUnready(s, step);
    }
  }

  lemma QuietFromNothing(s: System, step: Step)
    requires s.process.None? && !step.event.Startup?
    ensures Next(s, step).process.None?
  {
    hide React, Started;
  }

  /** A step cut short ends the process, unless it was not the process's own. */
  lemma CutsAreUnready(s: System, step: Step)
    requires step.survives.Some?
    ensures Next(s, step).process.None? || Next(s, step).process == s.process
  {
    hide React, Started;
  }

  /**
   * From any state that is not READY - after a disconnect seen in a tick, a failed connection attempt, a
   * failed check, a restart, a crash - and over any number of later events, READY is back only if some
   * connect or re-check since then itself compared, succeeded and adopted; and READY has stood ever since
   * the last of these.
   */
  lemma {:induction false} ReadyReturnsOnlyByReconciling(s: System, steps: seq<Step>)
    requires !IsReady(s) && IsReady(Run(s, steps))
    ensures exists n :: 0 <= n < |steps| && Earns(Run(s, steps[..n]), steps[n]) && ReadySince(s, steps, n + 1)
  {
    hide Next, Earns, IsReady;
    var init, last := steps[..|steps| - 1], steps[|steps| - 1];
    assert steps[..|steps|] == steps;
    if IsReady(Run(s, init)) {
      ReadyReturnsOnlyByReconciling(s, init);
      var n :| 0 <= n < |init| && Earns(Run(s, init[..n]), init[n]) && ReadySince(s, init, n + 1);
      assert init[..n] == steps[..n];
      forall m | n + 1 <= m <= |steps| ensures IsReady(Run(s, steps[..m])) {
        if m <= |init| { assert init[..m] == steps[..m]; }
      }
      assert ReadySince(s, steps, n + 1);
    } else {
      EarnedOrKept(Run(s, init), last);
      assert ReadySince(s, steps, |init| + 1);
    }
  }

  ghost predicate ReadySince(s: System, steps: seq<Step>, n: nat) {
    forall m :: n <= m <= |steps| ==> IsReady(Run(s, steps[..m]))
  }

  predicate Disconnects(e: Event) { e.DisconnectSeen? || e.ConnectFailed? }

  lemma DisconnectDrops(s: System, e: Event)
    requires s.process.Some? && HasBroker(s.process.value) && Disconnects(e)
    ensures var dropped := Next(s, Step(e, None));
            && dropped.process.Some? && !IsReady(dropped) && dropped.tables == s.tables
            && (e.DisconnectSeen? ==> dropped.process == Some(Dropped(s.process.value)))
  {
    hide Comparison, Handled, StatusEffects, Reconciled, Started;
  }

  /**
   * A disconnect seen by a tick forgets the reconciliation, the account and the contract; one seen by the
   * connect loop leaves them standing. After either the process is not READY, and over any number of later
   * events READY returns only through a reconciliation after the disconnect.
   */
  lemma DisconnectForgets(s: System, e: Event, later: seq<Step>)
    requires s.process.Some? && HasBroker(s.process.value) && Disconnects(e)
    ensures var dropped := Next(s, Step(e, None));
            && dropped.process.Some? && !IsReady(dropped) && dropped.tables == s.tables
            && (e.DisconnectSeen? ==>
                  && dropped.process.value.state == Safe && !dropped.process.value.recon.Succeeded()
                  && dropped.process.value.account.None? && dropped.process.value.contract.None?)
            && (IsReady(Run(dropped, later)) ==>
                  exists n :: 0 <= n < |later| && Earns(Run(dropped, later[..n]), later[n]) && ReadySince(dropped, later, n + 1))
  {
    DisconnectDrops(s, e);
    hide Next, Earns, ReadySince;
    var dropped := Next(s, Step(e, None));
    if IsReady(Run(dropped, later)) { ReadyReturnsOnlyByReconciling(dropped, later); }
  }
}
