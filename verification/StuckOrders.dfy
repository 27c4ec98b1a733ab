/**
 * Open rows that nothing will close. A row with no broker id, or one whose order the broker has finished with,
 * is an order discrepancy in every reconciliation until something tells the table otherwise; and in the
 * program only the status poll of the operator command, and only for its own order, ever does.
 */
module StuckOrders {
  import opened Enums
  import opened Configuration
  import opened Orders
  import opened OrderTable
  import opened Durable
  import opened Reconciliation
  import opened OrderManagement
  import opened OrderSafety
  import opened AtMostOnce
  import opened OrdersOverRuns
  import opened Machine
  import opened Lifecycle
  import Gate

  /** An open row under a broker id, or under none. */
  predicate Holds(r: OrderRow, id: Option<string>) { r.IsOpen() && r.brokerOrderId == id }

  ghost predicate Stuck(rows: Rows, id: Option<string>) { exists i :: 0 <= i < |rows| && Holds(rows[i], id) }

  /** The broker's answers show no order working under the id; without an id that is always so. */
  predicate Unworked(answers: Answers, id: Option<string>) {
    answers.view.Some? && id.Some? ==> id.value !in WorkingIds(answers.view.value.working)
  }

  /** The event neither learns a closed status for the id nor shows the broker working it. */
  predicate LeavesIt(e: Event, id: Option<string>) {
    && (e.StatusLearned? && id == Some(e.update.brokerOrderId) ==> FromIbStatus(e.update.ibStatus).IsOpen())
    && (Reconciles(e) ==> Unworked(e.answers, id))
  }

  // ----- no writer of orders closes it -----

  lemma UnreadyIsRefused(config: Config, s: Submission)
    requires !s.gate.appState.Ready?
    ensures ApprovalsOf(config, s).gate != []
  {
    hide Gate.GateReasons;
    Gate.GateOpensExactly(config, s.gate);
  }

  lemma StageKeepsStuck(t: Tables, t': Tables, c: Course, stage: Stage, id: Option<string>)
    requires c.Ok() && t.orders == c.found && IsAt(t, t', c, stage) && Stuck(t.orders, id)
    requires !stage.Untouched? ==> !c.order.WasTransmitted()
    ensures Stuck(t'.orders, id)
    ensures c.refusal != [] ==> t'.sent == t.sent
  {
    var i :| 0 <= i < |t.orders| && Holds(t.orders[i], id);
    assert t'.orders[i] == t.orders[i];
  }

  /** A submission leaves every open row as it was, and one the gate refuses sends nothing. */
  lemma SubmissionKeepsStuck(a: Approvals, t: Tables, s: Submission, k: nat, id: Option<string>)
    requires Distinct(t.orders) && FreshId(t.orders, s.freshId) && Stuck(t.orders, id)
    requires k <= |Submit(a, t.orders, s).effects|
    ensures var t' := ApplyAll(t, Submit(a, t.orders, s).effects[..k]);
            Stuck(t'.orders, id) && (a.gate != [] ==> t'.sent == t.sent)
  {
    SubmissionDiesAtAStage(a, t, s, k);
    if k > 0 {
      var c := CourseOf(a, t.orders, s);
      assert !c.order.WasTransmitted() && (a.gate != [] ==> c.refusal != []);
      hide CourseOf, Submit, FreshId;
      StageKeepsStuck(t, ApplyAll(t, Submit(a, t.orders, s).effects[..k]), c, c.StageAfter(k), id);
    }
  }

  lemma HandledKeepsStuck(p: Process, t: Tables, h: Handling, n: nat, id: Option<string>)
    requires Distinct(t.orders) && FreshId(t.orders, h.freshId) && Stuck(t.orders, id)
    requires n <= |Handled(p, t, h).effects|
    ensures var t' := ApplyAll(t, Handled(p, t, h).effects[..n]);
            Stuck(t'.orders, id) && (!p.state.Ready? ==> t'.sent == t.sent)
  {
    hide ApprovalsOf, Acceptable, Submit, Stuck, Handled;
    HandledLength(p, t, h);
    HandledCut(p, t, h, n);
    if n > 0 && Submits(p, t, h) {
      var s := SubmissionOf(p, t, h, p.contract.value);
      if !p.state.Ready? { UnreadyIsRefused(p.config, s); }
      SubmissionKeepsStuck(ApprovalsOf(p.config, s), Apply(t, SignalOf(h)), s, n - 1, id);
    }
  }

  lemma StatusKeepsStuck(t: Tables, u: StatusUpdate, k: nat, id: Option<string>)
    requires Distinct(t.orders) && Stuck(t.orders, id) && LeavesIt(StatusLearned(u), id)
    requires k <= |StatusEffects(t.orders, u)|
    ensures var t' := ApplyAll(t, StatusEffects(t.orders, u)[..k]); Stuck(t'.orders, id) && t'.sent == t.sent
  {
    var es := StatusEffects(t.orders, u);
    if k > 0 {
      FindBrokerSound(t.orders, u.brokerOrderId);
      assert es[..k] == [es[0]];
      ApplyOne(t, es[0]);
      var j :| 0 <= j < |t.orders| && t.orders[j] == FindBroker(t.orders, u.brokerOrderId).value;
      UpdateAt(t.orders, es[0].row, j);
      hide FromIbStatus;
      var i :| 0 <= i < |t.orders| && Holds(t.orders[i], id);
      assert Holds(Update(t.orders, es[0].row)[i], id);
    }
  }

  lemma CancelKeepsStuck(t: Tables, at: int, k: nat, id: Option<string>)
    requires Distinct(t.orders) && Stuck(t.orders, id) && k <= |OpenRows(t.orders)|
    ensures var t' := ApplyAll(t, CancelEffects(OpenRows(t.orders), at)[..k]); Stuck(t'.orders, id) && t'.sent == t.sent
  {
    CancelPrefix(t, at, k);
    var i :| 0 <= i < |t.orders| && Holds(t.orders[i], id);
    assert Holds(ApplyAll(t, CancelEffects(OpenRows(t.orders), at)[..k]).orders[i], id);
  }

  lemma WorkKeepsStuck(p: Process, t: Tables, e: Event, k: nat, id: Option<string>)
    requires Distinct(t.orders) && Stuck(t.orders, id) && LeavesIt(e, id) && k <= |OrderWork(p, t, e)|
    requires e.IntentHandled? ==> FreshId(t.orders, e.handling.freshId)
    ensures var t' := ApplyAll(t, OrderWork(p, t, e)[..k]);
            Stuck(t'.orders, id) && (!p.state.Ready? ==> t'.sent == t.sent)
  {
    hide Handled, StatusEffects, Stuck, LeavesIt;
    if OrderWork(p, t, e) != [] {
      match e
      case IntentHandled(h) => HandledKeepsStuck(p, t, h, k, id);
      case StatusLearned(u) => StatusKeepsStuck(t, u, k, id);
      case CancelAll(at) => CancelKeepsStuck(t, at, k, id);
    }
  }

  /** Over a stuck row no reconciliation succeeds whose answers do not show its order working. */
  lemma StuckNeverAdopts(p: Process, t: Tables, answers: Answers, id: Option<string>)
    requires Stuck(t.orders, id) && Unworked(answers, id)
    ensures !Adopts(p, t, answers)
  {
    if answers.view.Some? {
      hide Comparison;
      ClearsExactlyWhenExplained(p, t, answers.account.Some?, answers.view.value);
      OpenRowsAre(t.orders);
      var i :| 0 <= i < |t.orders| && Holds(t.orders[i], id);
      assert t.orders[i] in OpenRows(t.orders);
    }
  }

  // ----- over runs -----

  lemma StaysUnready(s: System, step: Step, id: Option<string>)
    requires Stuck(s.tables.orders, id) && LeavesIt(step.event, id) && !IsReady(s)
    ensures !IsReady(Next(s, step))
  {
    hide Next, Earns, Stuck, LeavesIt;
    if IsReady(Next(s, step)) {
      EarnedOrKept(s, step);
      EarningNeedsAdoption(s, step, id);
    }
  }

  lemma EarningNeedsAdoption(s: System, step: Step, id: Option<string>)
    requires Stuck(s.tables.orders, id) && LeavesIt(step.event, id)
    ensures !Earns(s, step)
  {
    hide Adopts, Engaged, Stuck, Unworked;
    if Earns(s, step) { StuckNeverAdopts(s.process.value, s.tables, step.event.answers, id); }
  }

  lemma StepStaysStuck(s: System, step: Step, id: Option<string>)
    requires Sound(s.tables.orders, s.tables.sent) && Stuck(s.tables.orders, id)
    requires Allowed(s, step.event) && LeavesIt(step.event, id)
    ensures Stuck(Next(s, step).tables.orders, id)
    ensures !IsReady(s) ==> Next(s, step).tables.sent == s.tables.sent
  {
    hide Next, OrderWork, Stuck, LeavesIt, Backed, SentOnce;
    if !WritesOrders(s, step.event) {
      OthersTouchNoOrder(s, step);
    } else {
      var p, t, e := s.process.value, s.tables, step.event;
      WritersCutExactly(s, step);
      WorkKeepsStuck(p, t, e, KeptCount(OrderWork(p, t, e), step.survives), id);
    }
  }

  /** No step of the run learns a closed status for the id or shows the broker working it. */
  ghost predicate RunLeavesIt(steps: seq<Step>, id: Option<string>) {
    forall n :: 0 <= n < |steps| ==> LeavesIt(steps[n].event, id)
  }

  /** At step `n` of the run a live process reconciles and adopts. */
  ghost predicate AdoptsAt(s: System, steps: seq<Step>, n: nat)
    requires n < |steps|
  {
    && Reconciles(steps[n].event) && Run(s, steps[..n]).process.Some?
    && Adopts(Run(s, steps[..n]).process.value, Run(s, steps[..n]).tables, steps[n].event.answers)
  }

  lemma {:induction false} StaysStuck(s: System, steps: seq<Step>, id: Option<string>)
    requires Sound(s.tables.orders, s.tables.sent) && Stuck(s.tables.orders, id)
    requires AllowedRun(s, steps) && RunLeavesIt(steps, id)
    ensures Stuck(Run(s, steps).tables.orders, id)
  {
    hide Next, Allowed, Stuck, LeavesIt, Sound;
    if steps != [] {
      var init := steps[..|steps| - 1];
      RunPrefix(s, steps);
      StaysStuck(s, init, id);
      RunKeepsSound(s, init);
      StepStaysStuck(Run(s, init), steps[|init|], id);
    }
  }

  lemma {:induction false} UnreadyToTheEnd(s: System, steps: seq<Step>, m: nat, id: Option<string>)
    requires Sound(s.tables.orders, s.tables.sent) && Stuck(s.tables.orders, id)
    requires AllowedRun(s, steps) && RunLeavesIt(steps, id)
    requires m <= |steps| && !IsReady(Run(s, steps[..m]))
    ensures !IsReady(Run(s, steps)) && Run(s, steps).tables.sent == Run(s, steps[..m]).tables.sent
    decreases |steps|
  {
    hide Next, Allowed, Stuck, LeavesIt, Sound, IsReady, Run;
    if m == |steps| {
      assert steps[..m] == steps;
    } else {
      var init, last := steps[..|steps| - 1], steps[|steps| - 1];
      RunPrefix(s, steps);
      assert init[..m] == steps[..m];
      UnreadyToTheEnd(s, init, m, id);
      StaysStuck(s, init, id);
      RunKeepsSound(s, init);
      StepStaysStuck(Run(s, init), last, id);
      StaysUnready(Run(s, init), last, id);
      LastStep(s, steps);
    }
  }

  lemma LastStep(s: System, steps: seq<Step>)
    requires steps != []
    ensures Run(s, steps) == Next(Run(s, steps[..|steps| - 1]), steps[|steps| - 1])
  {
    hide Next;
  }

  lemma NoStepsYet(s: System)
    ensures Run(s, []) == s
  {}

  /**
   * While no step of a run learns a closed status for the id of an open row and no answer shows the broker
   * working it - which for a row without an id is every run - no reconciliation adopts, in this or any later
   * process; and from the first state on that is not READY the run is never READY and sends nothing.
   */
  lemma StuckForever(s: System, steps: seq<Step>, id: Option<string>)
    requires Sound(s.tables.orders, s.tables.sent) && Stuck(s.tables.orders, id)
    requires AllowedRun(s, steps) && RunLeavesIt(steps, id)
    ensures forall n: nat :: n < |steps| ==> !AdoptsAt(s, steps, n)
    ensures forall m: nat :: m <= |steps| && !IsReady(Run(s, steps[..m])) ==>
              !IsReady(Run(s, steps)) && Run(s, steps).tables.sent == Run(s, steps[..m]).tables.sent
  {
    hide Next, Allowed, Stuck, LeavesIt, Sound, IsReady, Run, AdoptsAt;
    forall n: nat | n < |steps| ensures !AdoptsAt(s, steps, n) { NeverAdoptsAt(s, steps, n, id); }
    forall m: nat | m <= |steps| && !IsReady(Run(s, steps[..m]))
      ensures !IsReady(Run(s, steps)) && Run(s, steps).tables.sent == Run(s, steps[..m]).tables.sent
    {
      UnreadyToTheEnd(s, steps, m, id);
    }
  }

  lemma NeverAdoptsAt(s: System, steps: seq<Step>, n: nat, id: Option<string>)
    requires Sound(s.tables.orders, s.tables.sent) && Stuck(s.tables.orders, id) && n < |steps|
    requires AllowedRun(s, steps) && RunLeavesIt(steps, id)
    ensures !AdoptsAt(s, steps, n)
  {
    hide Next, Allowed, Stuck, Sound, Run, Adopts, Unworked;
    var before := steps[..n];
    forall m | 0 <= m < |before| ensures Allowed(Run(s, before[..m]), before[m].event) { assert before[..m] == steps[..m]; }
    StaysStuck(s, before, id);
    if AdoptsAt(s, steps, n) {
      assert LeavesIt(steps[n].event, id);
      StuckNeverAdopts(Run(s, before).process.value, Run(s, before).tables, steps[n].event.answers, id);
    }
  }

  // ----- what ends it -----

  /** A status poll ends it exactly when it learns a closed status for that very id. */
  lemma PollEndsItExactlyWhen(t: Tables, u: StatusUpdate, id: string)
    requires Distinct(t.orders) && Stuck(t.orders, Some(id))
    requires forall i, j :: 0 <= i < j < |t.orders| && t.orders[i].brokerOrderId == Some(id) ==> t.orders[j].brokerOrderId != Some(id)
    ensures Stuck(ApplyAll(t, StatusEffects(t.orders, u)).orders, Some(id))
            <==> u.brokerOrderId != id || FromIbStatus(u.ibStatus).IsOpen()
  {
    hide FromIbStatus;
    var es := StatusEffects(t.orders, u);
    assert es[..|es|] == es;
    if u.brokerOrderId != id || FromIbStatus(u.ibStatus).IsOpen() {
      StatusKeepsStuck(t, u, |es|, Some(id));
    } else {
      FindBrokerSound(t.orders, id);
      var i :| 0 <= i < |t.orders| && Holds(t.orders[i], Some(id));
      var j :| 0 <= j < |t.orders| && t.orders[j] == FindBroker(t.orders, id).value;
      assert es == [es[0]];
      ApplyOne(t, es[0]);
      UpdateAt(t.orders, es[0].row, j);
    }
  }
}
