/** The order table over every run of the whole system: submissions, cancels, status polls, crashes. */
module OrdersOverRuns {
  import opened Enums
  import opened Configuration
  import opened Orders
  import opened OrderTable
  import opened Durable
  import opened OrderManagement
  import opened OrderSafety
  import opened AtMostOnce
  import opened Machine
  import opened Positions

  // ----- the shapes an event's surviving effects take -----

  predicate Bystander(e: Effect) { !e.InsertOrder? && !e.UpdateOrder? && !e.Send? }

  lemma {:induction false} BystandersTouchNoOrder(t: Tables, es: seq<Effect>)
    requires forall i :: 0 <= i < |es| ==> Bystander(es[i])
    ensures ApplyAll(t, es).orders == t.orders && ApplyAll(t, es).sent == t.sent
  {
    if es != [] { BystandersTouchNoOrder(t, es[..|es| - 1]); }
  }

  lemma KeptIsPrefix(es: seq<Effect>, survives: Option<nat>)
    ensures exists k: nat :: k <= |es| && Kept(es, survives) == es[..k]
  {
    assert es[..|es|] == es;
    if survives.Some? && survives.value < |es| { assert Kept(es, survives) == es[..survives.value]; }
  }

  /** Handling an intent records the signal and touches orders, decisions and the broker. */
  lemma HandledKinds(p: Process, t: Tables, h: Handling)
    ensures forall e :: e in Handled(p, t, h).effects ==> e.RecordSignal? || OrderEffect(e)
  {
    hide ApprovalsOf, Acceptable, Submit;
    if Submits(p, t, h) {
      var s := SubmissionOf(p, t, h, p.contract.value);
      SubmitKinds(ApprovalsOf(p.config, s), t.orders, s);
    }
  }

  lemma StatusKinds(rows: Rows, u: StatusUpdate)
    ensures forall e :: e in StatusEffects(rows, u) ==> e.UpdateOrder?
  {}

  /** An uncut intent is one step: the process it leaves and the effects it has. */
  lemma HandledIsNext(s: System, h: Handling)
    requires s.process.Some? && !s.process.value.config.mode.Disabled?
    requires s.process.value.inTick || s.process.value.admin
    ensures var r := Handled(s.process.value, s.tables, h);
            Next(s, Step(IntentHandled(h), None)) == System(r.process, ApplyAll(s.tables, r.effects))
  {
    hide Comparison, Handled, Reconciled, StatusEffects, Started;
  }

  /** An intent outside the part of a tick that hands out quotes is no event for a process that is not the operator's. */
  lemma Ignored(s: System, h: Handling)
    ensures s.process.Some? && !s.process.value.admin && !s.process.value.inTick ==>
              Next(s, Step(IntentHandled(h), None)) == s
  {
    hide Comparison, Handled, Reconciled, StatusEffects, Started;
  }

  lemma SubmissionTakes(p: Process, t: Tables, h: Handling, c: QualifiedContract)
    ensures var s := SubmissionOf(p, t, h, c); s.freshId == h.freshId && s.intent == h.intent && s.contract == c
  {}

  lemma HandledLength(p: Process, t: Tables, h: Handling)
    ensures |Handled(p, t, h).effects| == 1 + |SubmissionEffects(p, t, h)|
  {}

  /** What survives of handling an intent: nothing, or the signal record and a prefix of the submission. */
  lemma HandledCut(p: Process, t: Tables, h: Handling, n: nat)
    requires n <= 1 + |SubmissionEffects(p, t, h)|
    ensures var es := Handled(p, t, h).effects;
            ApplyAll(t, es[..n]) ==
              if n == 0 then t else ApplyAll(Apply(t, SignalOf(h)), SubmissionEffects(p, t, h)[..n - 1])
  {
    var es := Handled(p, t, h).effects;
    if n > 0 {
      assert es[..n] == [SignalOf(h)] + SubmissionEffects(p, t, h)[..n - 1];
      ApplyConcat(t, [SignalOf(h)], SubmissionEffects(p, t, h)[..n - 1]);
      ApplyOne(t, SignalOf(h));
    }
  }

  /** Cancelling writes CANCEL_PENDING over open rows and over nothing else. */
  ghost predicate PartlyCancelled(rows: Rows, rows': Rows, at: int) {
    && |rows'| == |rows|
    && forall i :: 0 <= i < |rows| ==>
         rows'[i] == rows[i] || (rows[i].IsOpen() && rows'[i] == rows[i].WithStatus(CancelPending, at))
  }

  lemma CancelStep(rows: Rows, rows': Rows, r: OrderRow, at: int)
    requires Distinct(rows) && PartlyCancelled(rows, rows', at) && r in rows && r.IsOpen()
    ensures var next := Update(rows', r.WithStatus(CancelPending, at));
            && PartlyCancelled(rows, next, at)
            && forall i :: 0 <= i < |rows| ==> next[i] == if rows[i] == r then r.WithStatus(CancelPending, at) else rows'[i]
  {
    UpdateShape(rows', r.WithStatus(CancelPending, at));
    var j :| 0 <= j < |rows| && rows[j] == r;
  }

  lemma OneMoreCancel(t: Tables, open: Rows, at: int, k: nat)
    requires 0 < k <= |open|
    ensures ApplyAll(t, CancelEffects(open, at)[..k])
         == Apply(ApplyAll(t, CancelEffects(open, at)[..k - 1]), UpdateOrder(open[k - 1].WithStatus(CancelPending, at)))
  {
    var es, e := CancelEffects(open, at), UpdateOrder(open[k - 1].WithStatus(CancelPending, at));
    assert es[..k] == es[..k - 1] + [e];
    ApplyOneMore(t, es[..k - 1], e);
  }

  /** Of the rows a cancel has reached, each is CANCEL_PENDING. */
  ghost predicate Reached(rows: Rows, rows': Rows, open: Rows, at: int)
    requires |rows| == |rows'|
  {
    forall i :: 0 <= i < |rows| && rows[i] in open ==> rows'[i] == rows[i].WithStatus(CancelPending, at)
  }

  lemma {:induction false} CancelPrefix(t: Tables, at: int, k: nat)
    requires Distinct(t.orders) && k <= |OpenRows(t.orders)|
    ensures var t' := ApplyAll(t, CancelEffects(OpenRows(t.orders), at)[..k]);
            && t'.sent == t.sent
            && PartlyCancelled(t.orders, t'.orders, at)
            && Reached(t.orders, t'.orders, OpenRows(t.orders)[..k], at)
  {
    if k > 0 {
      var open := OpenRows(t.orders);
      var before := ApplyAll(t, CancelEffects(open, at)[..k - 1]);
      CancelPrefix(t, at, k - 1);
      OneMoreCancel(t, open, at, k);
      OpenRowsAre(t.orders);
      NextReached(t.orders, before.orders, open, k, at);
    }
  }

  lemma NextReached(rows: Rows, rows': Rows, open: Rows, k: nat, at: int)
    requires Distinct(rows) && PartlyCancelled(rows, rows', at) && 0 < k <= |open|
    requires forall r :: r in open ==> r in rows && r.IsOpen()
    requires Reached(rows, rows', open[..k - 1], at)
    ensures var next := Update(rows', open[k - 1].WithStatus(CancelPending, at));
            PartlyCancelled(rows, next, at) && Reached(rows, next, open[..k], at)
  {
    CancelStep(rows, rows', open[k - 1], at);
    assert open[..k] == open[..k - 1] + [open[k - 1]];
  }

  /** A complete cancel-all leaves exactly the open rows CANCEL_PENDING and every other row alone. */
  lemma CancelAllIsExact(t: Tables, at: int)
    requires Distinct(t.orders)
    ensures var rows' := ApplyAll(t, CancelEffects(OpenRows(t.orders), at)).orders;
            && |rows'| == |t.orders|
            && forall i :: 0 <= i < |rows'| ==>
                 rows'[i] == if t.orders[i].IsOpen() then t.orders[i].(status := CancelPending, updatedAt := at) else t.orders[i]
  {
    var open := OpenRows(t.orders);
    var es := CancelEffects(open, at);
    assert es[..|open|] == es && open[..|open|] == open;
    CancelPrefix(t, at, |open|);
    OpenRowsAre(t.orders);
  }

  // ----- at most once, over the whole system -----

  lemma UpdateKeepsSound(rows: Rows, sent: seq<Request>, r: OrderRow)
    requires Sound(rows, sent) && Stamped(r) && r.WasTransmitted()
    ensures Sound(Update(rows, r), sent)
  {
    UpdateShape(rows, r);
    var rows' := Update(rows, r);
    forall n | 0 <= n < |sent| ensures HasBacking(rows', sent[n]) {
      var j :| 0 <= j < |rows| && Backs(rows[j], sent[n]);
      assert Backs(rows'[j], sent[n]);
    }
  }

  lemma CancelKeepsSound(rows: Rows, rows': Rows, sent: seq<Request>, at: int)
    requires Sound(rows, sent) && PartlyCancelled(rows, rows', at)
    ensures Sound(rows', sent)
  {
    forall n | 0 <= n < |sent| ensures HasBacking(rows', sent[n]) {
      var j :| 0 <= j < |rows| && Backs(rows[j], sent[n]);
      assert Backs(rows'[j], sent[n]);
    }
  }

  lemma CancelSoundly(t: Tables, at: int, k: nat)
    requires Sound(t.orders, t.sent) && k <= |OpenRows(t.orders)|
    ensures var t' := ApplyAll(t, CancelEffects(OpenRows(t.orders), at)[..k]); Sound(t'.orders, t'.sent)
  {
    CancelPrefix(t, at, k);
    CancelKeepsSound(t.orders, ApplyAll(t, CancelEffects(OpenRows(t.orders), at)[..k]).orders, t.sent, at);
  }

  lemma StatusKeepsSound(t: Tables, u: StatusUpdate, k: nat)
    requires Sound(t.orders, t.sent) && k <= |StatusEffects(t.orders, u)|
    ensures var t' := ApplyAll(t, StatusEffects(t.orders, u)[..k]); Sound(t'.orders, t'.sent) && t'.sent == t.sent
  {
    var es := StatusEffects(t.orders, u);
    if k > 0 {
      FindBrokerSound(t.orders, u.brokerOrderId);
      assert es[..k] == [es[0]];
      ApplyOne(t, es[0]);
      UpdateKeepsSound(t.orders, t.sent, es[0].row);
    }
  }

  lemma HandledKeepsSound(p: Process, t: Tables, h: Handling, n: nat)
    requires Sound(t.orders, t.sent) && FreshId(t.orders, h.freshId) && n <= |Handled(p, t, h).effects|
    ensures var t' := ApplyAll(t, Handled(p, t, h).effects[..n]); Sound(t'.orders, t'.sent)
  {
    hide ApprovalsOf, Acceptable, Submit, Handled, SubmissionOf, Sound;
    HandledLength(p, t, h);
    HandledCut(p, t, h, n);
    if n > 0 && Submits(p, t, h) {
      var s := SubmissionOf(p, t, h, p.contract.value);
      SubmissionTakes(p, t, h, p.contract.value);
      SubmissionIsSound(ApprovalsOf(p.config, s), Apply(t, SignalOf(h)), s, n - 1);
    }
  }

  /** Only three events write orders at all, and only one of them sends. */
  predicate WritesOrders(s: System, e: Event) {
    && s.process.Some? && !s.process.value.config.mode.Disabled?
    && (e.IntentHandled? || e.StatusLearned? || e.CancelAll?)
  }

  lemma ReconcilingTouchesNoOrder(p: Process, t: Tables, answers: Answers)
    ensures forall e :: e in Reconciled(p, t, answers).effects ==> Bystander(e)
  {
    hide Comparison;
  }

  lemma OthersAreBystanders(s: System, e: Event)
    requires !WritesOrders(s, e)
    ensures forall x :: x in ReactionOf(s, e).effects ==> Bystander(x)
  {
    hide Comparison, Handled, StatusEffects, Started, FromPositions;
    if s.process.Some? {
      var p := s.process.value;
      match e
      case Connected(answers, _, _) => ReconcilingTouchesNoOrder(p, s.tables, answers);
      case Rechecked(answers, _) => ReconcilingTouchesNoOrder(p, s.tables, answers);
      case OperatorRechecked(answers) => ReconcilingTouchesNoOrder(p, s.tables, answers);
      case _ =>
    }
  }

  lemma OthersTouchNoOrder(s: System, step: Step)
    requires !WritesOrders(s, step.event)
    ensures Next(s, step).tables.orders == s.tables.orders && Next(s, step).tables.sent == s.tables.sent
  {
    hide ReactionOf, WritesOrders;
    var es := ReactionOf(s, step.event).effects;
    OthersAreBystanders(s, step.event);
    KeptIsPrefix(es, step.survives);
    BystandersTouchNoOrder(s.tables, Kept(es, step.survives));
  }

  /** The order work an event does, as effects: one of three kinds, or none. */
  function OrderWork(p: Process, t: Tables, e: Event): seq<Effect> {
    match e
    case IntentHandled(h) => if p.inTick || p.admin then Handled(p, t, h).effects else []
    case StatusLearned(u) => if p.admin then StatusEffects(t.orders, u) else []
    case CancelAll(at) => CancelEffects(OpenRows(t.orders), at)
    case _ => []
  }

  lemma WritersCut(s: System, step: Step)
    requires WritesOrders(s, step.event)
    ensures exists k: nat :: k <= |OrderWork(s.process.value, s.tables, step.event)|
              && Next(s, step).tables == ApplyAll(s.tables, OrderWork(s.process.value, s.tables, step.event)[..k])
  {
    hide Handled, StatusEffects, CancelEffects, Comparison, Started;
    var es := OrderWork(s.process.value, s.tables, step.event);
    assert ReactionOf(s, step.event).effects == es;
    KeptIsPrefix(es, step.survives);
    var k: nat :| k <= |es| && Kept(es, step.survives) == es[..k];
    assert Next(s, step).tables == ApplyAll(s.tables, es[..k]);
  }

  lemma WorkKeepsSound(p: Process, t: Tables, e: Event, k: nat)
    requires Sound(t.orders, t.sent) && k <= |OrderWork(p, t, e)|
    requires e.IntentHandled? ==> FreshId(t.orders, e.handling.freshId)
    ensures var t' := ApplyAll(t, OrderWork(p, t, e)[..k]); Sound(t'.orders, t'.sent)
  {
    hide Handled, StatusEffects, Sound;
    if OrderWork(p, t, e) != [] {
      match e
      case IntentHandled(h) => HandledKeepsSound(p, t, h, k);
      case StatusLearned(u) => StatusKeepsSound(t, u, k);
      case CancelAll(at) => CancelSoundly(t, at, k);
    }
  }

  lemma StepKeepsSound(s: System, step: Step)
    requires Sound(s.tables.orders, s.tables.sent) && Allowed(s, step.event)
    ensures Sound(Next(s, step).tables.orders, Next(s, step).tables.sent)
  {
    if !WritesOrders(s, step.event) {
      OthersTouchNoOrder(s, step);
    } else {
      hide Next, OrderWork, Sound;
      var p, t, e := s.process.value, s.tables, step.event;
      WritersCut(s, step);
      var k: nat :| k <= |OrderWork(p, t, e)| && Next(s, step).tables == ApplyAll(t, OrderWork(p, t, e)[..k]);
      WorkKeepsSound(p, t, e, k);
    }
  }

  lemma {:induction false} RunKeepsSound(s: System, steps: seq<Step>)
    requires Sound(s.tables.orders, s.tables.sent) && AllowedRun(s, steps)
    ensures Sound(Run(s, steps).tables.orders, Run(s, steps).tables.sent)
  {
    hide Next, Allowed;
    if steps != [] {
      RunPrefix(s, steps);
      RunKeepsSound(s, steps[..|steps| - 1]);
      StepKeepsSound(Run(s, steps[..|steps| - 1]), steps[|steps| - 1]);
    }
  }

  const FRESH_SYSTEM := System(None, EMPTY)

  /**
   * Over every run of the whole system from an empty database - restarts, crashes between any two
   * writes, cancels, operator status polls, arbitrary broker answers - no idempotency key is handed
   * to the broker twice, and every order handed over is backed by a durable row stamped as sent.
   */
  lemma WholeSystemSendsAtMostOnce(steps: seq<Step>, key: Key)
    requires AllowedRun(FRESH_SYSTEM, steps)
    ensures var t := Run(FRESH_SYSTEM, steps).tables;
            && TimesSent(t.sent, key) <= 1
            && Backed(t.orders, t.sent)
            && (forall i :: 0 <= i < |t.orders| ==> Stamped(t.orders[i]))
  {
    RunKeepsSound(FRESH_SYSTEM, steps);
    OnceCounted(Run(FRESH_SYSTEM, steps).tables.sent, key);
  }

  // ----- statuses only move forward -----

  lemma StatusNeverGoesBack(t: Tables, u: StatusUpdate, k: nat)
    requires Distinct(t.orders) && k <= |StatusEffects(t.orders, u)|
    ensures var rows' := ApplyAll(t, StatusEffects(t.orders, u)[..k]).orders;
            NeverBack(t.orders, rows') && (AllStrict(t.orders) ==> AllStrict(rows'))
  {
    if k > 0 {
      FindBrokerSound(t.orders, u.brokerOrderId);
      var e := StatusEffects(t.orders, u)[0];
      var i :| 0 <= i < |t.orders| && t.orders[i] == FindBroker(t.orders, u.brokerOrderId).value
               && t.orders[i].brokerOrderId == Some(u.brokerOrderId);
      assert StatusEffects(t.orders, u)[..k] == [e];
      ApplyOne(t, e);
      UpdateAt(t.orders, e.row, i);
      PolledNeverGoesBack(t.orders, i, u);
    }
  }

  /** A row whose status is replaced by one the broker reports. */
  lemma PolledNeverGoesBack(rows: Rows, i: nat, u: StatusUpdate)
    requires i < |rows| && rows[i].brokerOrderId.Some?
    ensures var r := rows[i].(status := FromIbStatus(u.ibStatus), filledQuantity := u.filled,
                              averageFillPrice := u.average, updatedAt := u.at);
            && Merge(rows[i], r) == r
            && NeverBack(rows, rows[i := r]) && (AllStrict(rows) ==> AllStrict(rows[i := r]))
  {}

  lemma CancelNeverGoesBack(t: Tables, at: int, k: nat)
    requires Distinct(t.orders) && k <= |OpenRows(t.orders)|
    ensures var rows' := ApplyAll(t, CancelEffects(OpenRows(t.orders), at)[..k]).orders;
            NeverBack(t.orders, rows') && (AllStrict(t.orders) ==> AllStrict(rows'))
  {
    CancelPrefix(t, at, k);
  }

  /** Of `n` effects of handling an intent, the last one records the broker's answer to an order sent. */
  predicate RecordsAnswer(p: Process, t: Tables, h: Handling, n: nat) {
    && n > 0 && Submits(p, t, h)
    && var s := SubmissionOf(p, t, h, p.contract.value);
       CourseOf(ApprovalsOf(p.config, s), t.orders, s).StageAfter(n - 1).Answered?
  }

  lemma HandledNeverGoesBack(p: Process, t: Tables, h: Handling, n: nat)
    requires Distinct(t.orders) && FreshId(t.orders, h.freshId) && n <= |Handled(p, t, h).effects|
    ensures var rows' := ApplyAll(t, Handled(p, t, h).effects[..n]).orders;
            && NeverBack(t.orders, rows')
            && (AllStrict(t.orders) ==> (AllStrict(rows') <==> Polite(h.reply) || !RecordsAnswer(p, t, h, n)))
  {
    hide ApprovalsOf, Acceptable, Submit, Handled, CourseOf, Course.StageAfter, AllStrict;
    if n == 0 {
      NothingGoesBack(t.orders);
      assert Handled(p, t, h).effects[..0] == [];
    } else {
      HandledLength(p, t, h);
      HandledCut(p, t, h, n);
      if Submits(p, t, h) {
        var s := SubmissionOf(p, t, h, p.contract.value);
        SubmissionKeepsStatuses(ApprovalsOf(p.config, s), Apply(t, SignalOf(h)), s, n - 1);
      } else {
        NothingGoesBack(t.orders);
      }
    }
  }

  lemma NothingGoesBack(rows: Rows)
    ensures NeverBack(rows, rows)
  {}

  function KeptCount(es: seq<Effect>, survives: Option<nat>): (k: nat)
    ensures k <= |es| && Kept(es, survives) == es[..k]
  {
    assert es[..|es|] == es;
    if survives.Some? && survives.value < |es| then survives.value else |es|
  }

  lemma WritersCutExactly(s: System, step: Step)
    requires WritesOrders(s, step.event)
    ensures var es := OrderWork(s.process.value, s.tables, step.event);
            Next(s, step).tables == ApplyAll(s.tables, es[..KeptCount(es, step.survives)])
  {
    hide Handled, StatusEffects, CancelEffects, Comparison, Started, Kept;
    assert ReactionOf(s, step.event).effects == OrderWork(s.process.value, s.tables, step.event);
  }

  /** The step records an acceptance that came with NEW or BLOCKED. */
  predicate RecordsImpoliteness(s: System, step: Step) {
    && WritesOrders(s, step.event) && step.event.IntentHandled?
    && (s.process.value.inTick || s.process.value.admin)
    && !Polite(step.event.handling.reply)
    && RecordsAnswer(s.process.value, s.tables, step.event.handling,
                KeptCount(Handled(s.process.value, s.tables, step.event.handling).effects, step.survives))
  }

  lemma WorkNeverGoesBack(p: Process, t: Tables, e: Event, k: nat)
    requires Distinct(t.orders) && k <= |OrderWork(p, t, e)|
    requires e.IntentHandled? ==> FreshId(t.orders, e.handling.freshId)
    ensures var rows' := ApplyAll(t, OrderWork(p, t, e)[..k]).orders;
            && NeverBack(t.orders, rows')
            && (AllStrict(t.orders) ==>
                  (AllStrict(rows') <==>
                     !(e.IntentHandled? && (p.inTick || p.admin) && !Polite(e.handling.reply) && RecordsAnswer(p, t, e.handling, k))))
  {
    hide Handled, StatusEffects, AllStrict, Distinct, RecordsAnswer, NeverBack, Polite;
    if e.IntentHandled? && (p.inTick || p.admin) {
      HandledNeverGoesBack(p, t, e.handling, k);
    } else if OrderWork(p, t, e) == [] {
      NothingGoesBack(t.orders);
      assert OrderWork(p, t, e)[..k] == [];
    } else if e.StatusLearned? {
      StatusNeverGoesBack(t, e.update, k);
    } else {
      CancelNeverGoesBack(t, e.at, k);
    }
  }

  /**
   * In every step of the whole system - submission, cancel-all, operator status poll, cut short or not, and
   * whatever the broker answers - no row that reached the broker returns to NEW or BLOCKED and no stamp moves.
   * And if NEW and BLOCKED rows carried neither stamp nor broker id before, they still do, if and only if the
   * step did not record an acceptance that came with NEW or BLOCKED.
   */
  lemma StepNeverGoesBack(s: System, step: Step)
    requires Distinct(s.tables.orders) && Allowed(s, step.event)
    ensures NeverBack(s.tables.orders, Next(s, step).tables.orders)
    ensures AllStrict(s.tables.orders) ==> (AllStrict(Next(s, step).tables.orders) <==> !RecordsImpoliteness(s, step))
  {
    hide Next, OrderWork, AllStrict, NeverBack, RecordsAnswer, Handled, Polite;
    if !WritesOrders(s, step.event) {
      OthersTouchNoOrder(s, step);
      NothingGoesBack(s.tables.orders);
    } else {
      var p, t, e := s.process.value, s.tables, step.event;
      WritersCutExactly(s, step);
      WorkNeverGoesBack(p, t, e, KeptCount(OrderWork(p, t, e), step.survives));
      if e.IntentHandled? && (p.inTick || p.admin) { WorkIsHandling(p, t, e.handling); }
    }
  }

  lemma WorkIsHandling(p: Process, t: Tables, h: Handling)
    requires p.inTick || p.admin
    ensures OrderWork(p, t, IntentHandled(h)) == Handled(p, t, h).effects
  {}

  lemma {:induction false} RunNeverGoesBack(s: System, steps: seq<Step>)
    requires Sound(s.tables.orders, s.tables.sent) && AllowedRun(s, steps)
    ensures NeverBack(s.tables.orders, Run(s, steps).tables.orders)
  {
    hide Next, Allowed, Backed, SentOnce;
    if steps != [] {
      var init := steps[..|steps| - 1];
      RunPrefix(s, steps);
      RunNeverGoesBack(s, init);
      RunKeepsSound(s, init);
      StepNeverGoesBack(Run(s, init), steps[|steps| - 1]);
    }
  }

  /** No step of the run recorded an acceptance that came with NEW or BLOCKED. */
  ghost predicate PoliteRun(s: System, steps: seq<Step>) {
    forall n :: 0 <= n < |steps| ==> !RecordsImpoliteness(Run(s, steps[..n]), steps[n])
  }

  lemma {:induction false} PoliteRunsStayStrict(s: System, steps: seq<Step>)
    requires Sound(s.tables.orders, s.tables.sent) && AllStrict(s.tables.orders) && AllowedRun(s, steps) && PoliteRun(s, steps)
    ensures AllStrict(Run(s, steps).tables.orders)
  {
    hide Next, Allowed, Backed, SentOnce, RecordsImpoliteness, AllStrict;
    if steps != [] {
      var init := steps[..|steps| - 1];
      RunPrefix(s, steps);
      forall n | 0 <= n < |init| ensures !RecordsImpoliteness(Run(s, init[..n]), init[n]) { assert init[..n] == steps[..n]; }
      PoliteRunsStayStrict(s, init);
      RunKeepsSound(s, init);
      StepNeverGoesBack(Run(s, init), steps[|steps| - 1]);
    }
  }

  /**
   * Write-ahead at every reachable point: each order handed to the broker has a durable row with its
   * transmission stamp set and either a status that reached the broker or the broker's own id; and always the
   * former unless some acceptance was recorded with NEW or BLOCKED.
   */
  lemma WriteAhead(steps: seq<Step>, q: Request)
    requires AllowedRun(FRESH_SYSTEM, steps) && q in Run(FRESH_SYSTEM, steps).tables.sent
    ensures exists r :: r in Run(FRESH_SYSTEM, steps).tables.orders
                        && r.internalId == q.internalId && r.key == q.key && r.transmittedAt.Some?
                        && (r.status.ReachedBroker() || r.brokerOrderId.Some?)
                        && (PoliteRun(FRESH_SYSTEM, steps) ==> r.status.ReachedBroker())
  {
    hide Next, Allowed, PoliteRun;
    RunKeepsSound(FRESH_SYSTEM, steps);
    if PoliteRun(FRESH_SYSTEM, steps) { PoliteRunsStayStrict(FRESH_SYSTEM, steps); }
    hide Run;
    var t := Run(FRESH_SYSTEM, steps).tables;
    var i :| 0 <= i < |t.sent| && t.sent[i] == q;
    var j :| 0 <= j < |t.orders| && Backs(t.orders[j], t.sent[i]);
    assert t.orders[j] in t.orders && Stamped(t.orders[j]);
  }
}
