/** What a submission leaves on disk and hands over, case by case, in the columns of the row itself. */
module Outcomes {
  import opened Enums
  import opened Configuration
  import opened Orders
  import opened OrderTable
  import opened Durable
  import opened Signals
  import opened OrderManagement
  import opened OrderSafety
  import opened AtMostOnce
  import opened Machine
  import opened OrdersOverRuns

  function KeyOf(s: Submission): Key {
    Key(s.intent.intentId, s.intent.strategy, s.contract.conId, s.intent.requestedPosition)
  }

  /** An order built from the submission itself, neither sent nor filled. */
  ghost predicate BuiltFrom(r: OrderRow, s: Submission) {
    && r.internalId == s.freshId && r.key == KeyOf(s) && r.symbol == s.contract.symbol && r.conId == s.contract.conId
    && r.side == s.risk.side && r.quantity == s.risk.quantity && r.orderType == s.orderType
    && r.limitPrice == s.limitPrice && r.stopPrice.None?
    && r.status.New? && r.brokerOrderId.None? && r.filledQuantity == 0 && r.averageFillPrice.None?
    && r.errorCode.None? && r.blockReasons == [] && r.transmittedAt.None?
  }

  /** A price that is there and positive. */
  predicate Priced(price: Option<real>) { price.Some? && price.value > 0.0 }

  /** An order is well formed exactly with a size, a contract, a symbol and the prices of its type and no others. */
  lemma WellFormedExactlyWhen(r: OrderRow)
    ensures r.Fault().None? <==>
              && r.quantity > 0 && r.conId > 0 && r.symbol != ""
              && (r.orderType.Market? ==> r.limitPrice.None? && r.stopPrice.None?)
              && (r.orderType.Limit? ==> Priced(r.limitPrice) && r.stopPrice.None?)
              && (r.orderType.Stop? ==> r.limitPrice.None? && Priced(r.stopPrice))
              && (r.orderType.StopLimit? ==> Priced(r.limitPrice) && Priced(r.stopPrice))
              && !r.orderType.Bracket?
  {}

  /** The order a submission works on: the stored one of its key, or one built from the submission. */
  lemma WorkedOn(rows: Rows, s: Submission)
    ensures NewRow(s).key == KeyOf(s) && BuiltFrom(NewRow(s), s)
    ensures WorkingRow(rows, s).key == KeyOf(s)
    ensures FindKey(rows, KeyOf(s)) == None ==> BuiltFrom(WorkingRow(rows, s), s)
    ensures FindKey(rows, KeyOf(s)).Some? ==> WorkingRow(rows, s) == FindKey(rows, KeyOf(s)).value
  {
    FindKeySound(rows, KeyOf(s));
  }

  /** A size of zero or less, a malformed order and one that may have reached the broker leave everything as it was. */
  lemma NothingIsStored(a: Approvals, t: Tables, s: Submission)
    requires s.risk.quantity <= 0 || NewRow(s).Fault().Some? || WorkingRow(t.orders, s).WasTransmitted()
    ensures ApplyAll(t, Submit(a, t.orders, s).effects) == t
    ensures Submit(a, t.orders, s).outcome ==
              if s.risk.quantity <= 0 then NoChange else if NewRow(s).Fault().Some? then Invalid else Duplicate
  {
    hide OrderRow.Fault;
  }

  lemma Completed(a: Approvals, t: Tables, s: Submission)
    requires Distinct(t.orders) && FreshId(t.orders, s.freshId) && Proceeds(t.orders, s)
    ensures var t' := ApplyAll(t, Submit(a, t.orders, s).effects);
            var c := CourseOf(a, t.orders, s);
            && c.Ok() && c.order == WorkingRow(t.orders, s)
            && t'.orders == (if c.refusal != [] then c.table[c.slot := c.blocked] else c.table[c.slot := c.answer])
            && t'.sent == t.sent + (if c.refusal != [] then [] else [RequestOf(c.pending)])
  {
    var es, c := Submit(a, t.orders, s).effects, CourseOf(a, t.orders, s);
    SubmissionDiesAtAStage(a, t, s, |es|);
    EffectsFollowCourse(a, t.orders, s);
    hide Submit, AfterReply, NewRow, Judge, WorkingRow;
    assert es[..|es|] == es;
    assert |es| == |c.Insertion()| + 1 + |c.Closing()|;
  }

  lemma SlotIsFound(rows: Rows, i: nat, r: OrderRow)
    requires Distinct(rows) && i < |rows| && r.key == rows[i].key && r.internalId == rows[i].internalId
    ensures FindKey(rows[i := r], r.key) == Some(r)
  {
    FindKeyAt(rows[i := r], i);
  }

  /**
   * After a complete submission that risk, the gate or the order's type refuses: the key's row is the order worked
   * on, BLOCKED now with exactly the refuser's reasons, nothing is handed over, and the outcome names the refuser.
   */
  lemma RefusalIsStored(a: Approvals, t: Tables, s: Submission) returns (row: OrderRow)
    requires Distinct(t.orders) && FreshId(t.orders, s.freshId) && Proceeds(t.orders, s)
    requires a.risk != [] || a.gate != [] || !(WorkingRow(t.orders, s).orderType in {Market, Limit})
    ensures var t' := ApplyAll(t, Submit(a, t.orders, s).effects);
            FindKey(t'.orders, KeyOf(s)) == Some(row) && t'.sent == t.sent
    ensures SameOrder(WorkingRow(t.orders, s), row) && row.status.Blocked? && row.updatedAt == s.now
    ensures row.transmittedAt == WorkingRow(t.orders, s).transmittedAt && row.brokerOrderId.None?
    ensures row.blockReasons == if a.risk != [] then a.risk else if a.gate != [] then a.gate else [OrderTypeNotTransmitted]
    ensures Submit(a, t.orders, s).outcome ==
              if a.risk != [] then RiskRejected else if a.gate != [] then GateRejected else Invalid
  {
    var c := CourseOf(a, t.orders, s);
    Completed(a, t, s);
    WorkedOn(t.orders, s);
    row := c.blocked;
    assert c.refusal == if a.risk != [] then a.risk else if a.gate != [] then a.gate else [OrderTypeNotTransmitted];
    assert row.key == c.order.key == KeyOf(s);
    assert SameOrder(c.order, row);
    hide Submit, AfterReply, NewRow, WorkingRow, CourseOf;
    SlotIsFound(c.table, c.slot, row);
  }

  /**
   * After a complete submission that is refused nowhere: the key's row is the order worked on, stamped with the time it
   * was sent and updated with the answer. A permission error ends REJECTED with PERMISSION_DENIED, any other raised
   * error ends ERROR with its own code, an answer that does not accept or has no id ends REJECTED with the answer's
   * code, and an acceptance leaves the answered id and status. Exactly that order was handed over, term by term, and
   * the outcome is a transmission only for an acceptance with an id.
   */
  lemma AnswerIsStored(t: Tables, s: Submission) returns (row: OrderRow)
    requires Distinct(t.orders) && FreshId(t.orders, s.freshId) && Proceeds(t.orders, s)
    requires WorkingRow(t.orders, s).orderType in {Market, Limit}
    ensures var r := Submit(Approvals([], []), t.orders, s);
            var t' := ApplyAll(t, r.effects);
            && FindKey(t'.orders, KeyOf(s)) == Some(row)
            && t'.sent == t.sent + [Request(row.internalId, KeyOf(s), row.conId, row.side, row.quantity,
                                            row.orderType, row.limitPrice, row.stopPrice)]
            && r.outcome == (if s.reply.Replied? && s.reply.accepted && s.reply.brokerOrderId.Some? then Transmitted else BrokerFailed)
    ensures SameOrder(WorkingRow(t.orders, s), row) && Records(WorkingRow(t.orders, s), row, s.reply) && WorkingRow(t.orders, s).brokerOrderId.None?
    ensures row.transmittedAt == Some(s.now) && row.updatedAt == s.repliedAt
    ensures row.filledQuantity == WorkingRow(t.orders, s).filledQuantity && row.blockReasons == WorkingRow(t.orders, s).blockReasons
  {
    hide Submit, AfterReply, NewRow, WorkingRow, Records, FindKey, OrderRow.Fault, RequestOf;
    var a := Approvals([], []);
    var c := CourseOf(a, t.orders, s);
    Completed(a, t, s);
    WorkedOn(t.orders, s);
    OutcomeOfReply(t.orders, s);
    AnswerRecords(c.order, s);
    hide CourseOf;
    row := c.answer;
    SlotIsFound(c.table, c.slot, row);
  }

  lemma OutcomeOfReply(rows: Rows, s: Submission)
    requires Proceeds(rows, s) && WorkingRow(rows, s).orderType in {Market, Limit}
    ensures Submit(Approvals([], []), rows, s).outcome
         == if s.reply.Replied? && s.reply.accepted && s.reply.brokerOrderId.Some? then Transmitted else BrokerFailed
    ensures CourseOf(Approvals([], []), rows, s).refusal == []
  {
    hide FindKey, OrderRow.Fault;
  }

  lemma AnswerRecords(order: OrderRow, s: Submission)
    ensures var pending := order.AsPendingSubmit(s.now);
            var row := AfterReply(pending, s.reply, s.repliedAt);
            && SameOrder(order, row) && Records(order, row, s.reply)
            && row.transmittedAt == Some(s.now) && row.updatedAt == s.repliedAt
            && row.filledQuantity == order.filledQuantity && row.blockReasons == order.blockReasons
            && RequestOf(pending) == Request(row.internalId, row.key, row.conId, row.side, row.quantity,
                                             row.orderType, row.limitPrice, row.stopPrice)
  {}

  /** In the whole machine: the row an operator's poll finds takes what was learned, and no other row or column moves. */
  lemma StatusIsLearned(t: Tables, u: StatusUpdate) returns (i: nat)
    requires Distinct(t.orders) && FindBroker(t.orders, u.brokerOrderId).Some?
    ensures var rows' := ApplyAll(t, StatusEffects(t.orders, u)).orders;
            && i < |t.orders| == |rows'| && t.orders[i].brokerOrderId == Some(u.brokerOrderId)
            && (forall j :: 0 <= j < i ==> t.orders[j].brokerOrderId != Some(u.brokerOrderId))
            && (forall j :: 0 <= j < |t.orders| && j != i ==> rows'[j] == t.orders[j])
            && SameOrder(t.orders[i], rows'[i])
            && rows'[i].status == FromIbStatus(u.ibStatus) && rows'[i].filledQuantity == u.filled
            && rows'[i].averageFillPrice == u.average && rows'[i].updatedAt == u.at
            && rows'[i].brokerOrderId == t.orders[i].brokerOrderId && rows'[i].transmittedAt == t.orders[i].transmittedAt
            && rows'[i].errorCode == t.orders[i].errorCode && rows'[i].blockReasons == t.orders[i].blockReasons
  {
    hide FromIbStatus;
    i := FirstOf(t.orders, u.brokerOrderId);
    var e := StatusEffects(t.orders, u)[0];
    assert StatusEffects(t.orders, u) == [e];
    ApplyOne(t, e);
    UpdateAt(t.orders, e.row, i);
  }

  lemma {:induction false} FirstOf(rows: Rows, id: string) returns (i: nat)
    requires FindBroker(rows, id).Some?
    ensures i < |rows| && FindBroker(rows, id) == Some(rows[i]) && rows[i].brokerOrderId == Some(id)
    ensures forall j :: 0 <= j < i ==> rows[j].brokerOrderId != Some(id)
  {
    if FindBroker(rows[..|rows| - 1], id).Some? {
      i := FirstOf(rows[..|rows| - 1], id);
    } else {
      i := |rows| - 1;
      FindBrokerSound(rows[..|rows| - 1], id);
    }
  }
}
