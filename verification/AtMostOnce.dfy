/**
 * Whole runs of serial submissions with crashes between any two writes and arbitrary broker replies:
 * no key is ever sent twice, nothing is sent before it is on disk, and nothing is forgotten.
 */
module AtMostOnce {
  import opened Enums
  import opened Orders
  import opened OrderTable
  import opened Durable
  import opened OrderManagement
  import opened OrderSafety

  // ----- the invariant -----

  /** A row carries a transmission stamp exactly when it may have reached the broker. */
  ghost predicate Stamped(r: OrderRow) { r.WasTransmitted() <==> r.transmittedAt.Some? }

  ghost predicate Backs(r: OrderRow, q: Request) {
    r.internalId == q.internalId && r.key == q.key && r.WasTransmitted()
  }

  ghost predicate HasBacking(rows: Rows, q: Request) { exists j :: 0 <= j < |rows| && Backs(rows[j], q) }

  /** Every order handed to the broker is backed by a row that says so. */
  ghost predicate Backed(rows: Rows, sent: seq<Request>) {
    forall i :: 0 <= i < |sent| ==> HasBacking(rows, sent[i])
  }

  /** No key was handed to the broker twice. */
  ghost predicate SentOnce(sent: seq<Request>) {
    forall i, j :: 0 <= i < j < |sent| ==> sent[i].key != sent[j].key
  }

  ghost predicate Sound(rows: Rows, sent: seq<Request>) {
    && Distinct(rows)
    && (forall i :: 0 <= i < |rows| ==> Stamped(rows[i]))
    && Backed(rows, sent)
    && SentOnce(sent)
  }

  lemma AppendKeepsSound(rows: Rows, sent: seq<Request>, r: OrderRow)
    requires Sound(rows, sent) && Distinct(rows + [r]) && Stamped(r)
    ensures Sound(rows + [r], sent)
  {
    forall i | 0 <= i < |sent| ensures HasBacking(rows + [r], sent[i]) {
      var j :| 0 <= j < |rows| && Backs(rows[j], sent[i]);
      assert (rows + [r])[j] == rows[j];
    }
  }

  lemma ReplaceKeepsSound(rows: Rows, sent: seq<Request>, i: nat, r: OrderRow)
    requires Sound(rows, sent) && i < |rows| && Stamped(r)
    requires r.internalId == rows[i].internalId && r.key == rows[i].key
    requires rows[i].WasTransmitted() ==> r.WasTransmitted()
    ensures Sound(rows[i := r], sent)
  {
    var rows' := rows[i := r];
    forall n | 0 <= n < |sent| ensures HasBacking(rows', sent[n]) {
      var j :| 0 <= j < |rows| && Backs(rows[j], sent[n]);
      assert Backs(rows'[j], sent[n]);
    }
  }

  /** A key whose row never reached the broker was never sent. */
  lemma UntransmittedIsUnsent(rows: Rows, sent: seq<Request>, i: nat)
    requires Sound(rows, sent) && i < |rows| && !rows[i].WasTransmitted()
    ensures forall n :: 0 <= n < |sent| ==> sent[n].key != rows[i].key
  {
    forall n | 0 <= n < |sent| ensures sent[n].key != rows[i].key {
      var j :| 0 <= j < |rows| && Backs(rows[j], sent[n]);
    }
  }

  lemma SendKeepsSound(rows: Rows, sent: seq<Request>, i: nat, q: Request)
    requires Sound(rows, sent) && i < |rows| && Backs(rows[i], q)
    requires forall n :: 0 <= n < |sent| ==> sent[n].key != q.key
    ensures Sound(rows, sent + [q])
  {
    forall n | 0 <= n < |sent + [q]| ensures HasBacking(rows, (sent + [q])[n]) {
      if n < |sent| {
        var j :| 0 <= j < |rows| && Backs(rows[j], sent[n]);
      } else {
        assert Backs(rows[i], q);
      }
    }
  }

  /** The invariant holds at every stage of a submission. */
  lemma StageIsSound(t: Tables, t': Tables, c: Course, stage: Stage)
    requires Sound(t.orders, t.sent) && t.orders == c.found && c.Ok() && IsAt(t, t', c, stage)
    requires !stage.Untouched? ==> !c.order.WasTransmitted()
    requires Stamped(c.order) && Stamped(c.blocked) && Stamped(c.pending) && Stamped(c.answer)
    requires c.pending.WasTransmitted() && c.answer.WasTransmitted()
    ensures Sound(t'.orders, t'.sent)
  {
    if !stage.Untouched? {
      var i := c.slot;
      if c.table != c.found { AppendKeepsSound(t.orders, t.sent, c.order); }
      if stage.Refused? {
        ReplaceKeepsSound(c.table, t.sent, i, c.blocked);
      } else if !stage.Opened? {
        UntransmittedIsUnsent(c.table, t.sent, i);
        ReplaceKeepsSound(c.table, t.sent, i, c.pending);
        var primed := c.table[i := c.pending];
        if !stage.Primed? {
          SendKeepsSound(primed, t.sent, i, RequestOf(c.pending));
          if stage.Answered? {
            ReplaceKeepsSound(primed, t.sent + [RequestOf(c.pending)], i, c.answer);
            assert primed[i := c.answer] == c.table[i := c.answer];
          }
        }
      }
    }
  }

  lemma CourseIsStamped(a: Approvals, rows: Rows, s: Submission)
    requires forall i :: 0 <= i < |rows| ==> Stamped(rows[i])
    ensures var c := CourseOf(a, rows, s);
            && Stamped(c.order) && Stamped(c.pending) && Stamped(c.answer)
            && c.pending.WasTransmitted() && c.answer.WasTransmitted()
            && (!c.order.WasTransmitted() ==> Stamped(c.blocked))
  {
    FindKeySound(rows, NewRow(s).key);
  }

  /** However much of a submission happens, the invariant survives it. */
  lemma SubmissionIsSound(a: Approvals, t: Tables, s: Submission, k: nat)
    requires Sound(t.orders, t.sent) && FreshId(t.orders, s.freshId)
    requires k <= |Submit(a, t.orders, s).effects|
    ensures var t' := ApplyAll(t, Submit(a, t.orders, s).effects[..k]);
            Sound(t'.orders, t'.sent) && SameElsewhere(t, t')
  {
    SubmissionDiesAtAStage(a, t, s, k);
    CourseIsStamped(a, t.orders, s);
    var c := CourseOf(a, t.orders, s);
    var t' := ApplyAll(t, Submit(a, t.orders, s).effects[..k]);
    var stage := c.StageAfter(k);
    if !stage.Untouched? { StageIsSound(t, t', c, stage); }
  }

  // ----- whole runs -----

  /** One submission and how many of its effects happen before the process dies, if it does. */
  datatype Attempt = Attempt(approvals: Approvals, submission: Submission, survives: nat)

  function Try(t: Tables, a: Attempt): Tables {
    var es := Submit(a.approvals, t.orders, a.submission).effects;
    ApplyAll(t, if a.survives < |es| then es[..a.survives] else es)
  }

  function TryAll(t: Tables, run: seq<Attempt>): Tables {
    if run == [] then t else Try(TryAll(t, run[..|run| - 1]), run[|run| - 1])
  }

  /** Internal order ids are never issued twice. */
  ghost predicate IdsFresh(t: Tables, run: seq<Attempt>) {
    forall n :: 0 <= n < |run| ==> FreshId(TryAll(t, run[..n]).orders, run[n].submission.freshId)
  }

  lemma FreshPrefix(t: Tables, run: seq<Attempt>)
    requires run != [] && IdsFresh(t, run)
    ensures IdsFresh(t, run[..|run| - 1]) && FreshId(TryAll(t, run[..|run| - 1]).orders, run[|run| - 1].submission.freshId)
  {
    var init := run[..|run| - 1];
    forall n | 0 <= n < |init| ensures FreshId(TryAll(t, init[..n]).orders, init[n].submission.freshId) {
      assert init[..n] == run[..n];
    }
  }

  lemma TryIsSound(t: Tables, a: Attempt)
    requires Sound(t.orders, t.sent) && FreshId(t.orders, a.submission.freshId)
    ensures Sound(Try(t, a).orders, Try(t, a).sent)
  {
    var es := Submit(a.approvals, t.orders, a.submission).effects;
    var k := if a.survives < |es| then a.survives else |es|;
    assert es[..|es|] == es;
    SubmissionIsSound(a.approvals, t, a.submission, k);
  }

  function TimesSent(sent: seq<Request>, key: Key): nat {
    if sent == [] then 0
    else TimesSent(sent[..|sent| - 1], key) + if sent[|sent| - 1].key == key then 1 else 0
  }

  lemma {:induction false} OnceCounted(sent: seq<Request>, key: Key)
    requires SentOnce(sent)
    ensures TimesSent(sent, key) <= 1
    ensures TimesSent(sent, key) > 0 ==> exists i :: 0 <= i < |sent| && sent[i].key == key
  {
    if sent != [] {
      var init := sent[..|sent| - 1];
      OnceCounted(init, key);
      if TimesSent(init, key) > 0 {
        var i :| 0 <= i < |init| && init[i].key == key;
        assert sent[i].key == key;
      } else if sent[|sent| - 1].key == key {
        assert sent[|sent| - 1].key == key;
      }
    }
  }

  lemma {:induction false} RunIsSound(t: Tables, run: seq<Attempt>)
    requires Sound(t.orders, t.sent) && IdsFresh(t, run)
    ensures Sound(TryAll(t, run).orders, TryAll(t, run).sent)
  {
    if run != [] {
      FreshPrefix(t, run);
      RunIsSound(t, run[..|run| - 1]);
      TryIsSound(TryAll(t, run[..|run| - 1]), run[|run| - 1]);
    }
  }

  /**
   * Whatever the approvers and the broker answer, wherever each submission is cut short, and however
   * often the process restarts on the same tables: an order is handed to the broker at most once per
   * idempotency key, and always behind a row stamped as transmitted.
   */
  lemma SentAtMostOncePerKey(run: seq<Attempt>, key: Key)
    requires IdsFresh(EMPTY, run)
    ensures TimesSent(TryAll(EMPTY, run).sent, key) <= 1
    ensures forall q :: q in TryAll(EMPTY, run).sent ==>
              exists r :: r in TryAll(EMPTY, run).orders && Backs(r, q) && r.transmittedAt.Some?
  {
    RunIsSound(EMPTY, run);
    var t := TryAll(EMPTY, run);
    OnceCounted(t.sent, key);
    forall q | q in t.sent ensures exists r :: r in t.orders && Backs(r, q) && r.transmittedAt.Some? {
      var i :| 0 <= i < |t.sent| && t.sent[i] == q;
      var j :| 0 <= j < |t.orders| && Backs(t.orders[j], t.sent[i]);
      assert t.orders[j] in t.orders && Stamped(t.orders[j]);
    }
  }

  // ----- what the second attempt at a key does -----

  lemma OnlySend(c: Course, decision: Effect, q: Request)
    requires decision.RecordDecision?
    ensures Send(q) in c.Insertion() + ([decision] + c.Closing()) <==> c.refusal == [] && q == RequestOf(c.pending)
  {
    var es := c.Insertion() + ([decision] + c.Closing());
    assert forall e :: e in es <==> e in c.Insertion() || e == decision || e in c.Closing();
  }

  /** The one order a submission can send is the pending form of its working row. */
  lemma SendsWorkingRow(a: Approvals, rows: Rows, s: Submission, q: Request)
    ensures Send(q) in Submit(a, rows, s).effects <==>
              && Proceeds(rows, s) && a.risk == [] && a.gate == [] && WorkingRow(rows, s).orderType.Transmittable()
              && q == RequestOf(WorkingRow(rows, s).AsPendingSubmit(s.now))
  {
    EffectsFollowCourse(a, rows, s);
    OnlySend(CourseOf(a, rows, s), DecisionOf(a, s), q);
  }

  /**
   * A submission of a key that may have reached the broker is suppressed without a single write; any
   * other is handed over exactly when it is well formed, both approvers agree and the working order is
   * of a type that is transmitted.
   */
  lemma SendsExactlyWhen(a: Approvals, rows: Rows, s: Submission)
    ensures WorkingRow(rows, s).WasTransmitted() ==> Submit(a, rows, s).effects == []
    ensures (exists q :: Send(q) in Submit(a, rows, s).effects) <==>
              && Proceeds(rows, s) && a.risk == [] && a.gate == [] && WorkingRow(rows, s).orderType.Transmittable()
  {
    var q := RequestOf(WorkingRow(rows, s).AsPendingSubmit(s.now));
    SendsWorkingRow(a, rows, s, q);
    forall x | Send(x) in Submit(a, rows, s).effects ensures x == q { SendsWorkingRow(a, rows, s, x); }
    EffectsFollowCourse(a, rows, s);
  }

  /**
   * A replay of a stored, never-sent order sends the stored terms. So the order sent is the order
   * assessed if and only if the key was new or the stored side and size are those assessed.
   */
  lemma SentIsAssessedExactlyWhen(a: Approvals, rows: Rows, s: Submission, q: Request)
    requires Send(q) in Submit(a, rows, s).effects
    ensures q.side == s.risk.side && q.quantity == s.risk.quantity
            <==> (FindKey(rows, NewRow(s).key).None?
                  || (WorkingRow(rows, s).side == s.risk.side && WorkingRow(rows, s).quantity == s.risk.quantity))
  {
    SendsWorkingRow(a, rows, s, q);
  }

  // ----- statuses -----

  /** The broker never answers an acceptance with a status that means "never transmitted". */
  predicate Polite(reply: Reply) { reply.Acknowledges() ==> reply.status.ReachedBroker() }

  /** NEW and BLOCKED rows carry no stamp and no broker id; every other row is stamped. */
  ghost predicate Strict(r: OrderRow) {
    && (r.status.ReachedBroker() <==> r.transmittedAt.Some?)
    && (r.brokerOrderId.Some? ==> r.status.ReachedBroker())
  }

  ghost predicate AllStrict(rows: Rows) { forall i :: 0 <= i < |rows| ==> Strict(rows[i]) }

  /** A row that reached the broker has not gone back to NEW or BLOCKED, nor its stamp moved. */
  ghost predicate Forward(r: OrderRow, r': OrderRow) {
    && r'.internalId == r.internalId && r'.key == r.key
    && (r.status.ReachedBroker() ==> r'.status.ReachedBroker() && r'.transmittedAt == r.transmittedAt)
  }

  ghost predicate NeverBack(rows: Rows, rows': Rows) {
    |rows| <= |rows'| && forall i :: 0 <= i < |rows| ==> Forward(rows[i], rows'[i])
  }

  /**
   * The row a transmission ends with tells the truth about itself if and only if the broker did not
   * answer an acceptance with NEW or BLOCKED; either way its key is never sent again.
   */
  lemma StrictExactlyWhenPolite(order: OrderRow, reply: Reply, now: int, at: int)
    requires Strict(order) && !order.WasTransmitted()
    ensures Strict(AfterReply(order.AsPendingSubmit(now), reply, at)) <==> Polite(reply)
    ensures AfterReply(order.AsPendingSubmit(now), reply, at).WasTransmitted()
  {}

  /** At no stage has a row that reached the broker gone back. */
  lemma StageNeverGoesBack(t: Tables, t': Tables, c: Course, stage: Stage)
    requires c.Ok() && t.orders == c.found && IsAt(t, t', c, stage)
    requires !stage.Untouched? ==> !c.order.WasTransmitted()
    ensures NeverBack(t.orders, t'.orders)
  {}

  lemma OneSlotStrict(rows: Rows, i: nat, r: OrderRow)
    requires i < |rows| && AllStrict(rows)
    ensures AllStrict(rows[i := r]) <==> Strict(r)
  {
    if !Strict(r) { assert rows[i := r][i] == r; }
  }

  lemma StageKeepsStatuses(t: Tables, t': Tables, c: Course, stage: Stage)
    requires c.Ok() && t.orders == c.found && IsAt(t, t', c, stage) && AllStrict(t.orders)
    requires Strict(c.order) && Strict(c.pending)
    requires !stage.Untouched? ==> Strict(c.blocked)
    ensures AllStrict(t'.orders) <==> Strict(c.answer) || !stage.Answered?
  {
    hide Strict;
    assert AllStrict(c.table);
    if stage.Refused? {
      OneSlotStrict(c.table, c.slot, c.blocked);
    } else if stage.Answered? {
      OneSlotStrict(c.table, c.slot, c.answer);
    } else if !stage.Untouched? && !stage.Opened? {
      OneSlotStrict(c.table, c.slot, c.pending);
    }
  }

  /**
   * However much of a submission happens and whatever the broker answers, no row that reached the broker goes
   * back or has its stamp moved; and every row still tells the truth about transmission if and only if the
   * broker's answer is polite or was not recorded.
   */
  lemma SubmissionKeepsStatuses(a: Approvals, t: Tables, s: Submission, k: nat)
    requires Distinct(t.orders) && FreshId(t.orders, s.freshId)
    requires k <= |Submit(a, t.orders, s).effects|
    ensures var rows' := ApplyAll(t, Submit(a, t.orders, s).effects[..k]).orders;
            && NeverBack(t.orders, rows')
            && (AllStrict(t.orders) ==>
                  (AllStrict(rows') <==> Polite(s.reply) || !CourseOf(a, t.orders, s).StageAfter(k).Answered?))
  {
    SubmissionDiesAtAStage(a, t, s, k);
    var c := CourseOf(a, t.orders, s);
    var t' := ApplyAll(t, Submit(a, t.orders, s).effects[..k]);
    var stage := c.StageAfter(k);
    if k > 0 {
      StageNeverGoesBack(t, t', c, stage);
      if AllStrict(t.orders) {
        CourseIsStrict(a, t.orders, s);
        StrictExactlyWhenPolite(c.order, s.reply, s.now, s.repliedAt);
        hide CourseOf, Submit, Course.StageAfter, Strict;
        StageKeepsStatuses(t, t', c, stage);
      }
    }
  }

  lemma CourseIsStrict(a: Approvals, rows: Rows, s: Submission)
    requires AllStrict(rows)
    ensures var c := CourseOf(a, rows, s);
            && Strict(c.order) && (!c.order.WasTransmitted() ==> Strict(c.pending))
            && (!c.order.WasTransmitted() ==> Strict(c.blocked))
  {
    FindKeySound(rows, NewRow(s).key);
  }
}
