/**
 * Crash-safe submission: what is true of the order table and of the broker's inbox at every point
 * of every run, wherever the process dies.
 */
module OrderSafety {
  import opened Enums
  import opened Orders
  import opened OrderTable
  import opened Durable
  import opened OrderManagement

  // ----- the points a submission can die at -----

  /**
   * The course a submission takes: the table it found, the table once its order is in it, the order's
   * slot, and the rows it may write there.
   */
  datatype Course = Course(found: Rows, table: Rows, slot: nat, order: OrderRow, refusal: seq<Reason>,
                           blocked: OrderRow, pending: OrderRow, answer: OrderRow)
  {
    ghost predicate Ok() {
      && Distinct(table) && slot < |table| && table[slot] == order
      && (table == found || table == found + [order])
      && Merge(order, blocked) == blocked && Merge(order, pending) == pending && Merge(pending, answer) == answer
    }

    function Insertion(): seq<Effect> { if table == found then [] else [InsertOrder(order)] }

    function Closing(): seq<Effect> {
      if refusal != [] then [UpdateOrder(blocked)]
      else [UpdateOrder(pending), Send(RequestOf(pending)), UpdateOrder(answer)]
    }

    /** The order table at a stage: at most one row differs from the table the submission found. */
    function RowsAt(stage: Stage): Rows
      requires slot < |table|
    {
      match stage
      case Untouched => found
      case Opened => table
      case Refused => table[slot := blocked]
      case Primed => table[slot := pending]
      case Handed => table[slot := pending]
      case Answered => table[slot := answer]
    }

    function SentAt(stage: Stage): seq<Request> {
      if stage.Handed? || stage.Answered? then [RequestOf(pending)] else []
    }

    /** The stage the course has reached once `k` of its effects have happened. */
    function StageAfter(k: nat): Stage {
      var opening := |Insertion()| + 1;
      if k == 0 then Untouched
      else if k <= opening then Opened
      else if refusal != [] then Refused
      else if k == opening + 1 then Primed
      else if k == opening + 2 then Handed
      else Answered
    }

    predicate Reaches(stage: Stage) {
      && (stage.Refused? ==> refusal != [])
      && (stage.Primed? || stage.Handed? || stage.Answered? ==> refusal == [])
    }
  }

  datatype Stage = Untouched | Opened | Refused | Primed | Handed | Answered

  ghost predicate SameElsewhere(t: Tables, t': Tables) {
    t'.fills == t.fills && t'.positions == t.positions && t'.signals == t.signals && t'.state == t.state
  }

  ghost predicate IsAt(t: Tables, t': Tables, c: Course, stage: Stage)
    requires c.slot < |c.table|
  {
    c.Reaches(stage) && t'.orders == c.RowsAt(stage) && t'.sent == t.sent + c.SentAt(stage) && SameElsewhere(t, t')
  }

  lemma WriteAt(t: Tables, i: nat, r: OrderRow)
    requires Distinct(t.orders) && i < |t.orders| && Merge(t.orders[i], r) == r
    ensures Apply(t, UpdateOrder(r)) == t.(orders := t.orders[i := r])
  {
    UpdateAt(t.orders, r, i);
  }

  lemma ApplyOne(t: Tables, e: Effect)
    ensures ApplyAll(t, [e]) == Apply(t, e)
  {
    assert [] + [e] == [e];
    ApplyOneMore(t, [], e);
  }

  lemma OpeningStages(t: Tables, c: Course, decision: Effect)
    requires c.Ok() && t.orders == c.found && decision.RecordDecision?
    ensures IsAt(t, ApplyAll(t, c.Insertion()), c, Opened)
    ensures IsAt(t, ApplyAll(t, c.Insertion() + [decision]), c, Opened)
  {
    if c.table != c.found { ApplyOne(t, InsertOrder(c.order)); }
    ApplyOneMore(t, c.Insertion(), decision);
  }

  lemma PrimeStep(t: Tables, t1: Tables, c: Course)
    requires c.Ok() && c.refusal == [] && IsAt(t, t1, c, Opened)
    ensures IsAt(t, Apply(t1, UpdateOrder(c.pending)), c, Primed)
  {
    WriteAt(t1, c.slot, c.pending);
  }

  lemma HandStep(t: Tables, t1: Tables, c: Course)
    requires c.Ok() && IsAt(t, t1, c, Primed)
    ensures IsAt(t, Apply(t1, Send(RequestOf(c.pending))), c, Handed)
  {}

  lemma RecordStep(t: Tables, t1: Tables, c: Course)
    requires c.Ok() && IsAt(t, t1, c, Handed)
    ensures IsAt(t, Apply(t1, UpdateOrder(c.answer)), c, Answered)
  {
    WriteAt(t1, c.slot, c.answer);
    assert c.table[c.slot := c.pending][c.slot := c.answer] == c.table[c.slot := c.answer];
  }

  lemma SendingStages(t: Tables, t1: Tables, c: Course)
    requires c.Ok() && c.refusal == [] && IsAt(t, t1, c, Opened)
    ensures var prime, hand, record := UpdateOrder(c.pending), Send(RequestOf(c.pending)), UpdateOrder(c.answer);
            && IsAt(t, ApplyAll(t1, [prime]), c, Primed)
            && IsAt(t, ApplyAll(t1, [prime, hand]), c, Handed)
            && IsAt(t, ApplyAll(t1, [prime, hand, record]), c, Answered)
  {
    var prime, hand, record := UpdateOrder(c.pending), Send(RequestOf(c.pending)), UpdateOrder(c.answer);
    PrimeStep(t, t1, c);
    ApplyOne(t1, prime);
    var t2 := Apply(t1, prime);
    HandStep(t, t2, c);
    assert [prime] + [hand] == [prime, hand];
    ApplyOneMore(t1, [prime], hand);
    RecordStep(t, Apply(t2, hand), c);
    assert [prime, hand] + [record] == [prime, hand, record];
    ApplyOneMore(t1, [prime, hand], record);
  }

  lemma ClosingStage(t: Tables, t1: Tables, c: Course, n: nat)
    requires c.Ok() && IsAt(t, t1, c, Opened) && 0 < n <= |c.Closing()|
    ensures IsAt(t, ApplyAll(t1, c.Closing()[..n]), c, c.StageAfter(|c.Insertion()| + 1 + n))
  {
    if c.refusal != [] {
      WriteAt(t1, c.slot, c.blocked);
      ApplyOne(t1, UpdateOrder(c.blocked));
      assert c.Closing()[..n] == [UpdateOrder(c.blocked)];
      assert IsAt(t, ApplyAll(t1, [UpdateOrder(c.blocked)]), c, Refused);
    } else {
      SendingStages(t, t1, c);
      var prime, hand, record := UpdateOrder(c.pending), Send(RequestOf(c.pending)), UpdateOrder(c.answer);
      assert c.Closing()[..n] == if n == 1 then [prime] else if n == 2 then [prime, hand] else [prime, hand, record];
    }
  }

  lemma StageOf(t: Tables, c: Course, decision: Effect, k: nat)
    requires c.Ok() && t.orders == c.found && decision.RecordDecision?
    requires k <= |c.Insertion() + ([decision] + c.Closing())|
    ensures IsAt(t, ApplyAll(t, (c.Insertion() + ([decision] + c.Closing()))[..k]), c, c.StageAfter(k))
  {
    var first, closing := c.Insertion(), c.Closing();
    var opening := first + [decision];
    var es := first + ([decision] + closing);
    assert es == opening + closing;
    OpeningStages(t, c, decision);
    if k == 0 {
      assert IsAt(t, ApplyAll(t, es[..k]), c, Untouched);
    } else if k <= |opening| {
      assert es[..k] == first || es[..k] == opening;
    } else {
      var n := k - |opening|;
      assert es[..k] == opening + closing[..n];
      ApplyConcat(t, opening, closing[..n]);
      ClosingStage(t, ApplyAll(t, opening), c, n);
    }
  }

  // ----- the course of an actual submission -----

  /** Where the row with a key sits, or the length of the table. */
  function Slot(rows: Rows, key: Key): (i: nat)
    ensures i <= |rows|
    ensures i < |rows| ==> rows[i].key == key && FindKey(rows, key) == Some(rows[i])
    ensures i == |rows| ==> FindKey(rows, key).None?
  {
    if rows == [] then 0
    else
      var i := Slot(rows[..|rows| - 1], key);
      if i < |rows| - 1 then i else if rows[|rows| - 1].key == key then |rows| - 1 else |rows|
  }

  function CourseOf(a: Approvals, rows: Rows, s: Submission): Course {
    var i := Slot(rows, NewRow(s).key);
    var order := WorkingRow(rows, s);
    var refusal := Judge(a, order, s).reasons;
    var pending := order.AsPendingSubmit(s.now);
    Course(rows, if i < |rows| then rows else rows + [order], i, order, refusal,
           order.AsBlocked(refusal, s.now), pending, AfterReply(pending, s.reply, s.repliedAt))
  }

  ghost predicate FreshId(rows: Rows, id: string) {
    forall i :: 0 <= i < |rows| ==> rows[i].internalId != id
  }

  lemma CourseIsOk(a: Approvals, rows: Rows, s: Submission)
    requires Distinct(rows) && FreshId(rows, s.freshId)
    ensures CourseOf(a, rows, s).Ok()
    ensures CourseOf(a, rows, s).order.key == NewRow(s).key
  {
    FindKeySound(rows, NewRow(s).key);
    RowsMerge(a, rows, s);
    hide Judge, FindKey, Course.Closing, AfterReply;
  }

  /** What a submission writes over a row differs from it in the columns an UPDATE writes, and in no other. */
  lemma RowsMerge(a: Approvals, rows: Rows, s: Submission)
    ensures var c := CourseOf(a, rows, s);
            Merge(c.order, c.blocked) == c.blocked && Merge(c.order, c.pending) == c.pending && Merge(c.pending, c.answer) == c.answer
  {
    hide Judge, FindKey, NewRow;
  }

  /** Whether a submission gets as far as writing anything. */
  predicate Proceeds(rows: Rows, s: Submission) {
    s.risk.quantity > 0 && NewRow(s).Fault().None? && !WorkingRow(rows, s).WasTransmitted()
  }

  lemma EffectsFollowCourse(a: Approvals, rows: Rows, s: Submission)
    ensures Submit(a, rows, s).effects ==
              if !Proceeds(rows, s) then []
              else CourseOf(a, rows, s).Insertion() + ([DecisionOf(a, s)] + CourseOf(a, rows, s).Closing())
  {}

  /** A submission touches orders, decisions and the broker, and nothing else. */
  predicate OrderEffect(e: Effect) { e.InsertOrder? || e.UpdateOrder? || e.Send? || e.RecordDecision? }

  lemma SubmitKinds(a: Approvals, rows: Rows, s: Submission)
    ensures forall e :: e in Submit(a, rows, s).effects ==> OrderEffect(e)
  {}

  /**
   * However few of a submission's effects happen, the tables are exactly those of the stage reached;
   * in particular the row is PENDING_SUBMIT on disk before the broker is handed anything, and nothing
   * is written at all for a key that was already transmitted.
   */
  lemma SubmissionDiesAtAStage(a: Approvals, t: Tables, s: Submission, k: nat)
    requires Distinct(t.orders) && FreshId(t.orders, s.freshId)
    requires k <= |Submit(a, t.orders, s).effects|
    ensures CourseOf(a, t.orders, s).Ok()
    ensures IsAt(t, ApplyAll(t, Submit(a, t.orders, s).effects[..k]), CourseOf(a, t.orders, s),
                 CourseOf(a, t.orders, s).StageAfter(k))
    ensures k > 0 ==> Proceeds(t.orders, s)
  {
    CourseIsOk(a, t.orders, s);
    EffectsFollowCourse(a, t.orders, s);
    if k > 0 { StageOf(t, CourseOf(a, t.orders, s), DecisionOf(a, s), k); }
  }
}
