/**
 * The window between the PENDING_SUBMIT write and the record of the broker's answer. A process that
 * dies there leaves an open row with no broker id, and nothing the program does ever trades past it.
 */
module CrashLock {
  import opened Enums
  import opened Configuration
  import opened Orders
  import opened OrderTable
  import opened Durable
  import opened Reconciliation
  import opened OrderManagement
  import opened OrderSafety
  import opened AtMostOnce
  import opened OrdersOverRuns
  import opened Machine
  import opened Lifecycle
  import opened StuckOrders

  /** An open row the broker never acknowledged, as far as the table knows. */
  predicate Orphan(r: OrderRow) { Holds(r, None) }

  ghost predicate Locked(rows: Rows) { Stuck(rows, None) }

  // ----- which crashes create the lock -----

  lemma OneSlotLocks(rows: Rows, i: nat, r: OrderRow)
    requires i < |rows| && !Locked(rows)
    ensures Locked(rows[i := r]) <==> Orphan(r)
  {
    if Orphan(r) { assert Orphan(rows[i := r][i]); }
  }

  lemma StageLocks(t: Tables, t': Tables, c: Course, stage: Stage)
    requires c.Ok() && t.orders == c.found && IsAt(t, t', c, stage) && !Locked(t.orders)
    requires !Orphan(c.order) && !Orphan(c.blocked) && Orphan(c.pending) && !Orphan(c.answer)
    ensures Locked(t'.orders) <==> stage.Primed? || stage.Handed?
  {
    assert !Locked(c.table);
    match stage
    case Untouched =>
    case Opened =>
    case Refused => OneSlotLocks(c.table, c.slot, c.blocked);
    case Answered => OneSlotLocks(c.table, c.slot, c.answer);
    case _ => OneSlotLocks(c.table, c.slot, c.pending);
  }

  lemma CourseOrphans(a: Approvals, rows: Rows, s: Submission)
    requires Proceeds(rows, s)
    ensures var c := CourseOf(a, rows, s);
            !Orphan(c.order) && !Orphan(c.blocked) && Orphan(c.pending) && !Orphan(c.answer)
  {}

  /**
   * A submission that dies after `k` of its effects locks the table exactly when it dies after its row
   * is on disk as PENDING_SUBMIT and before the broker's answer is: whether or not the order itself
   * left in between.
   */
  lemma CutLocksExactly(a: Approvals, t: Tables, s: Submission, k: nat)
    requires Distinct(t.orders) && FreshId(t.orders, s.freshId) && !Locked(t.orders)
    requires k <= |Submit(a, t.orders, s).effects|
    ensures Locked(ApplyAll(t, Submit(a, t.orders, s).effects[..k]).orders)
            <==> k > 0 && (CourseOf(a, t.orders, s).StageAfter(k).Primed? || CourseOf(a, t.orders, s).StageAfter(k).Handed?)
  {
    SubmissionDiesAtAStage(a, t, s, k);
    if k > 0 {
      var c := CourseOf(a, t.orders, s);
      CourseOrphans(a, t.orders, s);
      StageLocks(t, ApplyAll(t, Submit(a, t.orders, s).effects[..k]), c, c.StageAfter(k));
    }
  }

  // ----- the lock holds -----

  /** An orphan is an order discrepancy, so a reconciliation over a locked table never succeeds. */
  lemma LockedNeverAdopts(p: Process, t: Tables, answers: Answers)
    requires Locked(t.orders)
    ensures !Adopts(p, t, answers)
  {
    hide Adopts, Stuck;
    StuckNeverAdopts(p, t, answers, None);
  }

  /** After `n` effects of its submission the process has written PENDING_SUBMIT and not the answer. */
  predicate InWindow(p: Process, t: Tables, h: Handling, n: nat) {
    && Submits(p, t, h) && 0 < n < |SubmissionEffects(p, t, h)|
    && var s := SubmissionOf(p, t, h, p.contract.value);
       var stage := CourseOf(ApprovalsOf(p.config, s), t.orders, s).StageAfter(n);
       stage.Primed? || stage.Handed?
  }

  lemma WindowLocks(p: Process, t: Tables, h: Handling, n: nat)
    requires Distinct(t.orders) && FreshId(t.orders, h.freshId) && InWindow(p, t, h, n)
    ensures Locked(ApplyAll(t, Handled(p, t, h).effects[..n + 1]).orders)
  {
    hide Submit, ApprovalsOf, Acceptable, CourseOf, Course.StageAfter, Locked;
    HandledCut(p, t, h, n + 1);
    var s := SubmissionOf(p, t, h, p.contract.value);
    PrimedIsLocked(ApprovalsOf(p.config, s), Apply(t, SignalOf(h)), s, n);
  }

  lemma PrimedIsLocked(a: Approvals, t: Tables, s: Submission, n: nat)
    requires Distinct(t.orders) && FreshId(t.orders, s.freshId) && 0 < n <= |Submit(a, t.orders, s).effects|
    requires CourseOf(a, t.orders, s).StageAfter(n).Primed? || CourseOf(a, t.orders, s).StageAfter(n).Handed?
    ensures Locked(ApplyAll(t, Submit(a, t.orders, s).effects[..n]).orders)
  {
    SubmissionDiesAtAStage(a, t, s, n);
    CourseOrphans(a, t.orders, s);
    var c := CourseOf(a, t.orders, s);
    assert Orphan(ApplyAll(t, Submit(a, t.orders, s).effects[..n]).orders[c.slot]);
  }

  lemma CrashBars(s: System, h: Handling, n: nat)
    requires Distinct(s.tables.orders) && s.process.Some? && HasBroker(s.process.value)
    requires FreshId(s.tables.orders, h.freshId) && (s.process.value.inTick || s.process.value.admin)
    requires InWindow(s.process.value, s.tables, h, n)
    ensures var crashed := Next(s, Step(IntentHandled(h), Some(n + 1)));
            crashed.process.None? && Locked(crashed.tables.orders)
  {
    hide Locked, Handled, CourseOf, Course.StageAfter, ApprovalsOf, Submit, Reconciled, Settled, StatusEffects, CancelEffects;
    WindowLocks(s.process.value, s.tables, h, n);
    HandledLength(s.process.value, s.tables, h);
  }

  /**
   * Once a process dies in the window, no later sequence of the program's own steps, in any number of
   * later processes, enters READY or hands the broker another order.
   */
  lemma CrashLocksForever(s: System, h: Handling, n: nat, later: seq<Step>)
    requires Sound(s.tables.orders, s.tables.sent) && s.process.Some? && HasBroker(s.process.value)
    requires Allowed(s, IntentHandled(h)) && (s.process.value.inTick || s.process.value.admin)
    requires InWindow(s.process.value, s.tables, h, n)
    requires AllowedRun(Next(s, Step(IntentHandled(h), Some(n + 1))), later)
    ensures var crashed := Next(s, Step(IntentHandled(h), Some(n + 1)));
            && crashed.process.None?
            && Run(crashed, later).tables.sent == crashed.tables.sent
            && (Run(crashed, later).process.Some? ==> !Run(crashed, later).process.value.state.Ready?)
  {
    hide Next, InWindow, Run, AllowedRun;
    assert FreshId(s.tables.orders, h.freshId) && Distinct(s.tables.orders);
    hide Sound, Allowed, FreshId;
    var crash := Step(IntentHandled(h), Some(n + 1));
    CrashBars(s, h, n);
    StepKeepsSound(s, crash);
    NothingAddressesIt(later);
    StuckForever(Next(s, crash), later, None);
    assert later[..0] == [];
    NoStepsYet(Next(s, crash));
  }

  /** No event speaks of an order without an id. */
  lemma NothingAddressesIt(steps: seq<Step>)
    ensures RunLeavesIt(steps, None)
  {}
}
