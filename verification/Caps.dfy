/** The per-hour and open-order limits, as bounds on whole runs rather than on single checks. */
module Caps {
  import opened Enums
  import opened Configuration
  import opened Orders
  import opened OrderTable
  import opened Durable
  import opened OrderManagement
  import opened OrderSafety
  import opened AtMostOnce
  import opened OrdersOverRuns
  import opened Machine
  import opened Lifecycle
  import Risk

  // ----- what is bounded -----

  /** No closed window of one hour holds more than `cap` transmission stamps. */
  ghost predicate HourlyWithin(rows: Rows, cap: int) {
    forall lo, hi :: hi - lo <= HOUR ==> StampsWithin(rows, lo, hi) <= cap
  }

  ghost predicate Capped(rows: Rows, limits: RiskLimits) {
    HourlyWithin(rows, limits.maxOrdersPerHour) && |OpenRows(rows)| <= limits.maxOpenOrders
  }

  /** Two rows the counters cannot tell apart. */
  predicate CountAlike(r: OrderRow, r': OrderRow) { r.transmittedAt == r'.transmittedAt && r.IsOpen() == r'.IsOpen() }

  lemma {:induction false} AlikeTables(rows: Rows, rows': Rows, lo: int, hi: int)
    requires |rows| == |rows'| && forall i :: 0 <= i < |rows| ==> CountAlike(rows[i], rows'[i])
    ensures StampsWithin(rows, lo, hi) == StampsWithin(rows', lo, hi) && |OpenRows(rows)| == |OpenRows(rows')|
  {
    if rows != [] {
      var init, init' := rows[..|rows| - 1], rows'[..|rows| - 1];
      assert forall i :: 0 <= i < |init| ==> CountAlike(init[i], init'[i]);
      AlikeTables(init, init', lo, hi);
    }
  }

  lemma AlikeKeepsCaps(rows: Rows, rows': Rows, limits: RiskLimits)
    requires Capped(rows, limits)
    requires |rows| == |rows'| && forall i :: 0 <= i < |rows| ==> CountAlike(rows[i], rows'[i])
    ensures Capped(rows', limits)
  {
    AlikeTables(rows, rows', 0, 0);
    forall lo, hi | hi - lo <= HOUR ensures StampsWithin(rows', lo, hi) <= limits.maxOrdersPerHour {
      AlikeTables(rows, rows', lo, hi);
    }
  }

  // ----- submissions -----

  predicate Uncounted(r: OrderRow) { r.transmittedAt.None? && !r.IsOpen() }

  lemma OpenedKeepsCaps(c: Course, limits: RiskLimits)
    requires c.Ok() && Capped(c.found, limits) && Uncounted(c.order)
    ensures Capped(c.table, limits)
  {
    if c.table != c.found {
      assert c.table[..|c.found|] == c.found;
      forall lo, hi | hi - lo <= HOUR ensures StampsWithin(c.table, lo, hi) <= limits.maxOrdersPerHour {
        assert StampsWithin(c.found, lo, hi) <= limits.maxOrdersPerHour;
      }
    }
  }

  /** An uncounted row replaced by one stamped now, when the last hour and the open rows left room. */
  lemma StampedKeepsCaps(rows: Rows, i: nat, r: OrderRow, limits: RiskLimits, since: int, now: int)
    requires Capped(rows, limits) && i < |rows| && Uncounted(rows[i])
    requires r.transmittedAt == Some(now) && since + HOUR <= now
    requires CountSince(rows, since) < limits.maxOrdersPerHour && |OpenRows(rows)| < limits.maxOpenOrders
    ensures Capped(rows[i := r], limits)
  {
    OpenCountReplaced(rows, i, r);
    var rows' := rows[i := r];
    forall lo, hi | hi - lo <= HOUR ensures StampsWithin(rows', lo, hi) <= limits.maxOrdersPerHour {
      StampsReplaced(rows, i, r, lo, hi);
      if StampIn(r, lo, hi) { WindowBelowCount(rows, since, lo, hi); }
    }
  }

  lemma CountsOfTable(c: Course, since: int)
    requires c.Ok() && Uncounted(c.order)
    ensures CountSince(c.table, since) == CountSince(c.found, since) && |OpenRows(c.table)| == |OpenRows(c.found)|
  {
    if c.table != c.found { assert c.table[..|c.found|] == c.found; }
  }

  lemma StageKeepsCaps(t: Tables, t': Tables, c: Course, stage: Stage, limits: RiskLimits, since: int, now: int)
    requires c.Ok() && t.orders == c.found && IsAt(t, t', c, stage) && Capped(t.orders, limits)
    requires !stage.Untouched? ==> Uncounted(c.order) && Uncounted(c.blocked)
    requires c.pending.transmittedAt == Some(now) == c.answer.transmittedAt && since + HOUR <= now
    requires c.refusal == [] ==> CountSince(t.orders, since) < limits.maxOrdersPerHour && |OpenRows(t.orders)| < limits.maxOpenOrders
    ensures Capped(t'.orders, limits)
  {
    hide Capped;
    if !stage.Untouched? {
      OpenedKeepsCaps(c, limits);
      CountsOfTable(c, since);
      match stage
      case Opened =>
      case Refused => AlikeKeepsCaps(c.table, c.table[c.slot := c.blocked], limits);
      case Answered => StampedKeepsCaps(c.table, c.slot, c.answer, limits, since, now);
      case _ => StampedKeepsCaps(c.table, c.slot, c.pending, limits, since, now);
    }
  }

  lemma CourseCounts(a: Approvals, rows: Rows, s: Submission)
    requires (forall i :: 0 <= i < |rows| ==> Stamped(rows[i])) && Proceeds(rows, s)
    ensures var c := CourseOf(a, rows, s);
            Uncounted(c.order) && Uncounted(c.blocked)
  {
    FindKeySound(rows, NewRow(s).key);
  }

  lemma CourseStamps(a: Approvals, rows: Rows, s: Submission)
    ensures CourseOf(a, rows, s).pending.transmittedAt == Some(s.now) == CourseOf(a, rows, s).answer.transmittedAt
    ensures CourseOf(a, rows, s).refusal == [] ==> a.risk == []
  {}

  lemma SubmissionKeepsCaps(a: Approvals, t: Tables, s: Submission, k: nat, limits: RiskLimits, since: int)
    requires Sound(t.orders, t.sent) && FreshId(t.orders, s.freshId) && Capped(t.orders, limits)
    requires k <= |Submit(a, t.orders, s).effects| && since + HOUR <= s.now
    requires a.risk == [] ==> CountSince(t.orders, since) < limits.maxOrdersPerHour && |OpenRows(t.orders)| < limits.maxOpenOrders
    ensures Capped(ApplyAll(t, Submit(a, t.orders, s).effects[..k]).orders, limits)
  {
    hide Capped, Submit;
    SubmissionDiesAtAStage(a, t, s, k);
    CourseStamps(a, t.orders, s);
    if k > 0 {
      CourseCounts(a, t.orders, s);
      hide CourseOf, Course.StageAfter, IsAt;
      var c := CourseOf(a, t.orders, s);
      StageKeepsCaps(t, ApplyAll(t, Submit(a, t.orders, s).effects[..k]), c, c.StageAfter(k), limits, since, s.now);
    }
  }

  /** What risk approval says about the two counters, which are read off the table itself. */
  lemma ApprovalLeavesRoom(p: Process, t: Tables, h: Handling, c: QualifiedContract)
    ensures var s := SubmissionOf(p, t, h, c);
            ApprovalsOf(p.config, s).risk == [] ==>
              && CountSince(t.orders, h.times.counted - HOUR) < p.config.limits.maxOrdersPerHour
              && |OpenRows(t.orders)| < p.config.limits.maxOpenOrders
  {
    hide Risk.RiskReasons;
    Risk.RiskApprovesExactly(p.config, SubmissionOf(p, t, h, c).risk);
  }

  /** Limits no looser than the given ones in the two counts that are bounded. */
  predicate NoLooser(l: RiskLimits, limits: RiskLimits) {
    l.maxOrdersPerHour <= limits.maxOrdersPerHour && l.maxOpenOrders <= limits.maxOpenOrders
  }

  lemma HandledKeepsCaps(p: Process, t: Tables, h: Handling, n: nat, limits: RiskLimits)
    requires Sound(t.orders, t.sent) && FreshId(t.orders, h.freshId) && h.times.Ordered()
    requires Capped(t.orders, limits) && NoLooser(p.config.limits, limits) && n <= |Handled(p, t, h).effects|
    ensures Capped(ApplyAll(t, Handled(p, t, h).effects[..n]).orders, limits)
  {
    hide ApprovalsOf, Acceptable, Submit, Capped;
    HandledCut(p, t, h, n);
    if n > 0 && Submits(p, t, h) {
      var c := p.contract.value;
      var s := SubmissionOf(p, t, h, c);
      ApprovalLeavesRoom(p, t, h, c);
      SubmissionKeepsCaps(ApprovalsOf(p.config, s), Apply(t, SignalOf(h)), s, n - 1, limits, h.times.counted - HOUR);
    }
  }

  // ----- the other writers -----

  lemma CancelKeepsCaps(t: Tables, at: int, k: nat, limits: RiskLimits)
    requires Distinct(t.orders) && Capped(t.orders, limits) && k <= |OpenRows(t.orders)|
    ensures Capped(ApplyAll(t, CancelEffects(OpenRows(t.orders), at)[..k]).orders, limits)
  {
    CancelPrefix(t, at, k);
    AlikeKeepsCaps(t.orders, ApplyAll(t, CancelEffects(OpenRows(t.orders), at)[..k]).orders, limits);
  }

  /**
   * A status poll moves the open count by exactly the difference between the status it learned and the
   * one stored. So it can only raise the count by reopening a row that was closed.
   */
  lemma StatusMovesOpenCount(t: Tables, u: StatusUpdate)
    requires Distinct(t.orders) && FindBroker(t.orders, u.brokerOrderId).Some?
    ensures |OpenRows(ApplyAll(t, StatusEffects(t.orders, u)).orders)|
         == |OpenRows(t.orders)| - One(FindBroker(t.orders, u.brokerOrderId).value.IsOpen()) + One(FromIbStatus(u.ibStatus).IsOpen())
    ensures forall lo, hi :: StampsWithin(ApplyAll(t, StatusEffects(t.orders, u)).orders, lo, hi) == StampsWithin(t.orders, lo, hi)
  {
    FindBrokerSound(t.orders, u.brokerOrderId);
    var i :| 0 <= i < |t.orders| && t.orders[i] == FindBroker(t.orders, u.brokerOrderId).value;
    var e := StatusEffects(t.orders, u)[0];
    assert StatusEffects(t.orders, u) == [e];
    ApplyOne(t, e);
    UpdateAt(t.orders, e.row, i);
    OpenCountReplaced(t.orders, i, Merge(t.orders[i], e.row));
    forall lo, hi ensures StampsWithin(t.orders[i := Merge(t.orders[i], e.row)], lo, hi) == StampsWithin(t.orders, lo, hi) {
      StampsReplaced(t.orders, i, Merge(t.orders[i], e.row), lo, hi);
    }
  }

  /** The poll opens a row that was closed. */
  predicate Reopens(rows: Rows, u: StatusUpdate) {
    var row := FindBroker(rows, u.brokerOrderId);
    row.Some? && !row.value.IsOpen() && FromIbStatus(u.ibStatus).IsOpen()
  }

  /** A poll takes the open count past its limit exactly when it reopens a row and the limit is used up already. */
  lemma PollExceedsExactlyWhen(t: Tables, u: StatusUpdate, limits: RiskLimits)
    requires Distinct(t.orders) && |OpenRows(t.orders)| <= limits.maxOpenOrders
    ensures |OpenRows(ApplyAll(t, StatusEffects(t.orders, u)).orders)| > limits.maxOpenOrders
            <==> Reopens(t.orders, u) && |OpenRows(t.orders)| == limits.maxOpenOrders
  {
    if FindBroker(t.orders, u.brokerOrderId).Some? { StatusMovesOpenCount(t, u); }
    hide FromIbStatus;
  }

  /** The limits with room for `n` more open rows. */
  function Allowance(limits: RiskLimits, n: nat): RiskLimits { limits.(maxOpenOrders := limits.maxOpenOrders + n) }

  lemma StatusKeepsCaps(t: Tables, u: StatusUpdate, k: nat, limits: RiskLimits)
    requires Distinct(t.orders) && Capped(t.orders, limits) && k <= |StatusEffects(t.orders, u)|
    ensures Capped(ApplyAll(t, StatusEffects(t.orders, u)[..k]).orders,
                   Allowance(limits, if Reopens(t.orders, u) then 1 else 0))
  {
    if k > 0 {
      StatusMovesOpenCount(t, u);
      hide FromIbStatus;
      assert StatusEffects(t.orders, u)[..k] == StatusEffects(t.orders, u);
    }
  }

  // ----- runs -----

  /** Every configuration a process starts with has limits no looser than the given ones. */
  ghost predicate CapStep(s: System, e: Event, limits: RiskLimits) {
    Allowed(s, e) && (e.Startup? ==> NoLooser(e.config.limits, limits))
  }

  ghost predicate CapRun(s: System, steps: seq<Step>, limits: RiskLimits) {
    forall n :: 0 <= n < |steps| ==> CapStep(Run(s, steps[..n]), steps[n].event, limits)
  }

  ghost predicate Governed(s: System, limits: RiskLimits) {
    s.process.Some? ==> NoLooser(s.process.value.config.limits, limits)
  }

  lemma CapPrefix(s: System, steps: seq<Step>, limits: RiskLimits)
    requires steps != [] && CapRun(s, steps, limits)
    ensures CapRun(s, steps[..|steps| - 1], limits) && AllowedRun(s, steps)
    ensures CapStep(Run(s, steps[..|steps| - 1]), steps[|steps| - 1].event, limits)
  {
    hide Next, Allowed;
    var init := steps[..|steps| - 1];
    forall n | 0 <= n < |init| ensures CapStep(Run(s, init[..n]), init[n].event, limits) {
      assert init[..n] == steps[..n];
    }
  }

  /** One more reopened row at most, and only for a status poll that reopens one. */
  function ReopenedBy(rows: Rows, e: Event): nat { if e.StatusLearned? && Reopens(rows, e.update) then 1 else 0 }

  /** How many status polls of a run reopened a closed row. */
  function Reopened(s: System, steps: seq<Step>): nat {
    if steps == [] then 0
    else
      var init := steps[..|steps| - 1];
      Reopened(s, init) + ReopenedBy(Run(s, init).tables.orders, steps[|steps| - 1].event)
  }

  lemma MoreRoom(rows: Rows, limits: RiskLimits, n: nat)
    requires Capped(rows, limits)
    ensures Capped(rows, Allowance(limits, n)) && Allowance(limits, 0) == limits
  {}

  lemma WorkKeepsCaps(p: Process, t: Tables, e: Event, k: nat, limits: RiskLimits)
    requires Sound(t.orders, t.sent) && Capped(t.orders, limits) && NoLooser(p.config.limits, limits)
    requires k <= |OrderWork(p, t, e)|
    requires e.IntentHandled? ==> FreshId(t.orders, e.handling.freshId) && e.handling.times.Ordered()
    ensures Capped(ApplyAll(t, OrderWork(p, t, e)[..k]).orders, Allowance(limits, ReopenedBy(t.orders, e)))
  {
    hide Handled, StatusEffects, Capped, NoLooser, Reopens;
    MoreRoom(t.orders, limits, ReopenedBy(t.orders, e));
    if OrderWork(p, t, e) != [] {
      match e
      case IntentHandled(h) => HandledKeepsCaps(p, t, h, k, limits);
      case StatusLearned(u) => StatusKeepsCaps(t, u, k, limits);
      case CancelAll(at) => CancelKeepsCaps(t, at, k, limits);
    }
  }

  lemma StepKeepsCaps(s: System, step: Step, limits: RiskLimits)
    requires Sound(s.tables.orders, s.tables.sent) && Governed(s, limits) && Capped(s.tables.orders, limits)
    requires CapStep(s, step.event, limits)
    ensures Capped(Next(s, step).tables.orders, Allowance(limits, ReopenedBy(s.tables.orders, step.event)))
  {
    hide Next, OrderWork, Capped, Sound, NoLooser, Reopens;
    if !WritesOrders(s, step.event) {
      OthersTouchNoOrder(s, step);
      MoreRoom(s.tables.orders, limits, ReopenedBy(s.tables.orders, step.event));
    } else {
      var p, t, e := s.process.value, s.tables, step.event;
      WritersCut(s, step);
      var k: nat :| k <= |OrderWork(p, t, e)| && Next(s, step).tables == ApplyAll(t, OrderWork(p, t, e)[..k]);
      WorkKeepsCaps(p, t, e, k, limits);
    }
  }

  lemma StaysGoverned(s: System, step: Step, limits: RiskLimits)
    requires Governed(s, limits) && CapStep(s, step.event, limits)
    ensures Governed(Next(s, step), limits)
  {
    hide Next, Allowed, NoLooser;
    if Next(s, step).process.Some? {
      if step.event.Startup? { StartsUnready(s, step); } else { IdentityIsFixed(s, step); }
    }
  }

  lemma {:induction false} RunKeepsCaps(s: System, steps: seq<Step>, limits: RiskLimits)
    requires Sound(s.tables.orders, s.tables.sent) && Governed(s, limits) && Capped(s.tables.orders, limits)
    requires CapRun(s, steps, limits)
    ensures Governed(Run(s, steps), limits)
    ensures Capped(Run(s, steps).tables.orders, Allowance(limits, Reopened(s, steps)))
  {
    if steps == [] {
      MoreRoom(s.tables.orders, limits, 0);
    } else {
      hide Next, Capped, Sound, Allowed, Distinct, NoLooser, ReopenedBy;
      var init, last := steps[..|steps| - 1], steps[|steps| - 1];
      CapPrefix(s, steps, limits);
      RunPrefix(s, steps);
      RunKeepsCaps(s, init, limits);
      RunKeepsSound(s, init);
      StepWithAllowance(Run(s, init), last, limits, Reopened(s, init));
      StaysGoverned(Run(s, init), last, limits);
    }
  }

  lemma StepWithAllowance(s: System, step: Step, limits: RiskLimits, n: nat)
    requires Sound(s.tables.orders, s.tables.sent) && Governed(s, limits) && CapStep(s, step.event, limits)
    requires Capped(s.tables.orders, Allowance(limits, n))
    ensures Capped(Next(s, step).tables.orders, Allowance(limits, n + ReopenedBy(s.tables.orders, step.event)))
  {
    hide Next, Capped, Sound, Allowed, ReopenedBy;
    StepKeepsCaps(s, step, Allowance(limits, n));
  }

  /**
   * In every run from an empty database - across restarts, crashes, rejected and cancelled orders, and any
   * status polls - whose configurations have limits no looser than the given ones: every closed window of one
   * hour holds at most the hourly limit of transmissions, and never more rows are open than the open-order
   * limit and the number of closed rows that status polls reopened.
   */
  lemma LimitsHoldOverRuns(steps: seq<Step>, limits: RiskLimits, lo: int, hi: int)
    requires limits.maxOrdersPerHour >= 0 && limits.maxOpenOrders >= 0
    requires CapRun(FRESH_SYSTEM, steps, limits) && hi - lo <= 3600 * 1_000_000
    ensures StampsWithin(Run(FRESH_SYSTEM, steps).tables.orders, lo, hi) <= limits.maxOrdersPerHour
    ensures |OpenRows(Run(FRESH_SYSTEM, steps).tables.orders)| <= limits.maxOpenOrders + Reopened(FRESH_SYSTEM, steps)
  {
    hide Next;
    RunKeepsCaps(FRESH_SYSTEM, steps, limits);
  }
}
