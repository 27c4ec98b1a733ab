/** Submissions: what one call writes and sends, in order, and the class whose methods do exactly that. */
module OrderManagement {
  import opened Enums
  import opened Configuration
  import opened Orders
  import opened OrderTable
  import opened Durable
  import opened Signals
  import Risk
  import Gate

  /** What `place_order` did: raised one of the broker's errors, or returned a result. */
  datatype Reply =
    | Raised(permission: bool, error: string)
    | Replied(accepted: bool, brokerOrderId: Option<string>, status: OrderStatus, errorCode: Option<string>)
  {
    predicate Acknowledges() { Replied? && accepted && brokerOrderId.Some? }
  }

  /** One call of `submit_intent`, with everything the outside world supplies during it. */
  datatype Submission = Submission(
    intent: Intent, contract: QualifiedContract, risk: Risk.RiskContext, gate: Gate.GateContext,
    orderType: OrderType, limitPrice: Option<real>, freshId: string, now: int, reply: Reply, repliedAt: int)

  datatype Outcome =
    | NoChange | Invalid | Duplicate | RiskRejected | GateRejected | BrokerFailed | Transmitted

  datatype Report = Report(outcome: Outcome, effects: seq<Effect>)

  function NewRow(s: Submission): OrderRow {
    OrderRow(s.freshId, s.intent.IdempotencyKey(s.contract.conId), s.contract.symbol, s.contract.conId,
             s.risk.side, s.risk.quantity, s.orderType, s.limitPrice, None,
             New, None, 0, None, None, [], s.now, None)
  }

  /** The row a submission works on: the stored one when its key exists, a new one otherwise. */
  function WorkingRow(rows: Rows, s: Submission): OrderRow {
    FindKey(rows, NewRow(s).key).GetOr(NewRow(s))
  }

  function RequestOf(r: OrderRow): Request {
    Request(r.internalId, r.key, r.conId, r.side, r.quantity, r.orderType, r.limitPrice, r.stopPrice)
  }

  function AfterReply(pending: OrderRow, reply: Reply, at: int): OrderRow {
    match reply
    case Raised(permission, error) =>
      if permission then pending.AsFailed(Rejected, Some("PERMISSION_DENIED"), at)
      else pending.AsFailed(Error, Some(error), at)
    case Replied(accepted, id, status, code) =>
      if !accepted || id.None? then pending.AsFailed(Rejected, code, at)
      else if status.Submitted? then pending.AsSubmitted(id.value, at)
      else pending.AsSubmitted(id.value, at).WithStatus(status, at)
  }

  /** The same order: identity and terms. */
  ghost predicate SameOrder(r: OrderRow, r': OrderRow) {
    && r'.internalId == r.internalId && r'.key == r.key && r'.symbol == r.symbol && r'.conId == r.conId
    && r'.side == r.side && r'.quantity == r.quantity && r'.orderType == r.orderType
    && r'.limitPrice == r.limitPrice && r'.stopPrice == r.stopPrice
  }

  /** What the row of a sent order holds once the broker's answer is in, in its own columns. */
  ghost predicate Records(before: OrderRow, row: OrderRow, reply: Reply) {
    match reply
    case Raised(permission, error) =>
      && row.brokerOrderId == before.brokerOrderId
      && if permission then row.status.Rejected? && row.errorCode == Some("PERMISSION_DENIED")
         else row.status.Error? && row.errorCode == Some(error)
    case Replied(accepted, id, status, code) =>
      if accepted && id.Some? then row.status == status && row.brokerOrderId == id && row.errorCode == before.errorCode
      else row.status.Rejected? && row.errorCode == code && row.brokerOrderId == before.brokerOrderId
  }

  /** What the two approvers answered; an empty list is an approval. */
  datatype Approvals = Approvals(risk: seq<Reason>, gate: seq<Reason>)

  function ApprovalsOf(config: Config, s: Submission): Approvals {
    Approvals(Risk.RiskReasons(config, s.risk), Gate.GateReasons(config, s.gate))
  }

  /** How a submission ends, and why it is refused if it is. */
  datatype Verdict = Verdict(outcome: Outcome, reasons: seq<Reason>)

  function Judge(a: Approvals, order: OrderRow, s: Submission): Verdict {
    if a.risk != [] then Verdict(RiskRejected, a.risk)
    else if a.gate != [] then Verdict(GateRejected, a.gate)
    else if !order.orderType.Transmittable() then Verdict(Invalid, [OrderTypeNotTransmitted])
    else Verdict(if s.reply.Acknowledges() then Transmitted else BrokerFailed, [])
  }

  function DecisionOf(a: Approvals, s: Submission): Effect {
    RecordDecision(RiskRecord(s.intent.intentId, a.risk == [], a.risk))
  }

  /** What a submission does once risk has been asked: refuse the order, or send it. */
  function Closing(order: OrderRow, verdict: Verdict, s: Submission): seq<Effect> {
    if verdict.reasons != [] then [UpdateOrder(order.AsBlocked(verdict.reasons, s.now))]
    else
      var pending := order.AsPendingSubmit(s.now);
      [UpdateOrder(pending), Send(RequestOf(pending)), UpdateOrder(AfterReply(pending, s.reply, s.repliedAt))]
  }

  function Insertion(rows: Rows, s: Submission): seq<Effect> {
    if FindKey(rows, NewRow(s).key).Some? then [] else [InsertOrder(NewRow(s))]
  }

  /** The writes and the transmission of one submission, in order. */
  function Submit(a: Approvals, rows: Rows, s: Submission): Report {
    if s.risk.quantity <= 0 then Report(NoChange, [])
    else if NewRow(s).Fault().Some? then Report(Invalid, [])
    else if FindKey(rows, NewRow(s).key).Some? && WorkingRow(rows, s).WasTransmitted() then Report(Duplicate, [])
    else
      var order := WorkingRow(rows, s);
      var verdict := Judge(a, order, s);
      Report(verdict.outcome, Insertion(rows, s) + ([DecisionOf(a, s)] + Closing(order, verdict, s)))
  }

  /** CANCEL_PENDING written over each open row in turn. */
  function CancelEffects(open: Rows, at: int): seq<Effect> {
    seq(|open|, i requires 0 <= i < |open| => UpdateOrder(open[i].WithStatus(CancelPending, at)))
  }

  lemma Associate<T>(a: seq<T>, b: seq<T>, c: seq<T>)
    ensures (a + b) + c == a + (b + c)
  {}

  lemma OneMoreOf<T>(ts: seq<T>, i: nat)
    requires i < |ts|
    ensures ts[..i] + [ts[i]] == ts[..i + 1]
  {}

  class OrderManager {
    const config: Config
    const store: Store
    const risk: Risk.RiskManager
    const gate: Gate.TransmitGate

    constructor (config: Config, store: Store, risk: Risk.RiskManager, gate: Gate.TransmitGate)
      requires risk.config == config && gate.config == config
      ensures Valid() && this.config == config && this.store == store
    {
      this.config, this.store, this.risk, this.gate := config, store, risk, gate;
    }

    ghost predicate Valid() { risk.config == config && gate.config == config }

    /** Outcome, log and tables are those of `Submit` over the rows found and both approvers' reasons. */
    method SubmitIntent(s: Submission) returns (outcome: Outcome)
      requires Valid() && store.Consistent()
      modifies store
      ensures store.Consistent()
      ensures outcome == Submit(ApprovalsOf(config, s), old(store.orders), s).outcome
      ensures store.log == old(store.log) + Submit(ApprovalsOf(config, s), old(store.orders), s).effects
      ensures store.Contents() == ApplyAll(old(store.Contents()), Submit(ApprovalsOf(config, s), old(store.orders), s).effects)
    {
      ghost var report := Submit(ApprovalsOf(config, s), store.orders, s);
      outcome := Run(s);
      store.TablesFollowLog(report.effects);
    }

    method Run(s: Submission) returns (outcome: Outcome)
      requires Valid() && store.Consistent()
      modifies store
      ensures store.Consistent()
      ensures outcome == Submit(ApprovalsOf(config, s), old(store.orders), s).outcome
      ensures store.log == old(store.log) + Submit(ApprovalsOf(config, s), old(store.orders), s).effects
    {
      if s.risk.quantity <= 0 {
        return NoChange;
      }
      if NewRow(s).Fault().Some? {
        return Invalid;
      }
      var built := new Order.FromRow(NewRow(s));
      var order, created := store.InsertIfAbsent(built);
      if !created && order.Row().WasTransmitted() {
        return Duplicate;
      }
      assert order.Row() == WorkingRow(old(store.orders), s);
      ghost var first := Insertion(old(store.orders), s);
      assert store.log == old(store.log) + first;
      ghost var a := ApprovalsOf(config, s);
      ghost var rest := [DecisionOf(a, s)] + Closing(order.Row(), Judge(a, order.Row(), s), s);
      outcome := Assess(order, s);
      Associate(old(store.log), first, rest);
    }

    /** Asks risk, writes its decision down, and acts on it. */
    method Assess(order: Order, s: Submission) returns (outcome: Outcome)
      requires Valid() && store.Consistent()
      modifies store, order
      ensures store.Consistent()
      ensures var verdict := Judge(ApprovalsOf(config, s), old(order.Row()), s);
              && outcome == verdict.outcome
              && store.log == old(store.log) + ([DecisionOf(ApprovalsOf(config, s), s)] + Closing(old(order.Row()), verdict, s))
    {
      var decision := risk.Evaluate(s.risk);
      store.RecordDecision(RiskRecord(s.intent.intentId, decision.approved, decision.reasons));
      ghost var closing := Closing(order.Row(), Judge(ApprovalsOf(config, s), order.Row(), s), s);
      outcome := Conclude(order, decision, s);
      Associate(old(store.log), [DecisionOf(ApprovalsOf(config, s), s)], closing);
    }

    /** Refuses the order, auditably, or transmits it. */
    method Conclude(order: Order, decision: Risk.Decision, s: Submission) returns (outcome: Outcome)
      requires Valid() && store.Consistent()
      requires decision.reasons == Risk.RiskReasons(config, s.risk) && (decision.approved <==> decision.reasons == [])
      modifies store, order
      ensures store.Consistent()
      ensures var verdict := Judge(ApprovalsOf(config, s), old(order.Row()), s);
              && outcome == verdict.outcome
              && store.log == old(store.log) + Closing(old(order.Row()), verdict, s)
    {
      if !decision.approved {
        order.MarkBlocked(decision.reasons, s.now);
        store.UpdateOrder(order);
        return RiskRejected;
      }
      var passage := gate.Evaluate(s.gate);
      if !passage.allowed {
        order.MarkBlocked(passage.reasons, s.now);
        store.UpdateOrder(order);
        return GateRejected;
      }
      if !order.orderType.Transmittable() {
        order.MarkBlocked([OrderTypeNotTransmitted], s.now);
        store.UpdateOrder(order);
        return Invalid;
      }
      outcome := Transmit(order, s);
    }

    /** Writes PENDING_SUBMIT, sends, and writes down what came back: in that order, always. */
    method Transmit(order: Order, s: Submission) returns (outcome: Outcome)
      requires store.Consistent()
      modifies store, order
      ensures store.Consistent()
      ensures outcome == if s.reply.Acknowledges() then Transmitted else BrokerFailed
      ensures var pending := old(order.Row()).AsPendingSubmit(s.now);
              store.log == old(store.log)
                + [UpdateOrder(pending), Send(RequestOf(pending)), UpdateOrder(AfterReply(pending, s.reply, s.repliedAt))]
    {
      order.MarkPendingSubmit(s.now);
      store.UpdateOrder(order);
      store.Send(Request(order.internalId, order.key, order.conId, order.side, order.quantity,
                         order.orderType, order.limitPrice, order.stopPrice));
      outcome := RecordReply(order, s);
      store.UpdateOrder(order);
    }

    method RecordReply(order: Order, s: Submission) returns (outcome: Outcome)
      modifies order
      ensures Records(old(order.Row()), order.Row(), s.reply) && SameOrder(old(order.Row()), order.Row())
      ensures order.updatedAt == s.repliedAt && order.transmittedAt == old(order.transmittedAt)
      ensures order.Row() == AfterReply(old(order.Row()), s.reply, s.repliedAt)
      ensures outcome == if s.reply.Acknowledges() then Transmitted else BrokerFailed
    {
      outcome := BrokerFailed;
      match s.reply {
        case Raised(permission, error) =>
          if permission {
            order.MarkRejected(Some("PERMISSION_DENIED"), s.repliedAt);
          } else {
            order.MarkError(Some(error), s.repliedAt);
          }
        case Replied(accepted, id, status, code) =>
          if !accepted || id.None? {
            order.MarkRejected(code, s.repliedAt);
            return;
          }
          order.MarkSubmitted(id.value, s.repliedAt);
          if !status.Submitted? {
            order.MarkStatus(status, s.repliedAt);
          }
          outcome := Transmitted;
      }
    }

    /**
     * Asks the broker to cancel everything and, where it answers, marks every open order CANCEL_PENDING and
     * hands on the broker's count. Where it raises (None) nothing is written. Positions are not touched.
     */
    method CancelAllOrders(broker: Option<nat>, at: int) returns (cancelled: Option<nat>)
      requires store.Consistent()
      modifies store
      ensures store.Consistent() && cancelled == broker
      ensures var es := if broker.Some? then CancelEffects(OpenRows(old(store.orders)), at) else [];
              && store.log == old(store.log) + es
              && store.Contents() == ApplyAll(old(store.Contents()), es)
    {
      cancelled := broker;
      if broker.None? {
        return;
      }
      var open := OpenRows(store.orders);
      ghost var es := CancelEffects(open, at);
      hide Apply, ApplyAll;
      for i := 0 to |open|
        invariant store.Consistent() && store.log == old(store.log) + es[..i]
      {
        var order := new Order.FromRow(open[i]);
        order.MarkStatus(CancelPending, at);
        store.UpdateOrder(order);
        Associate(old(store.log), es[..i], [es[i]]);
        OneMoreOf(es, i);
      }
      assert es[..|open|] == es;
      store.TablesFollowLog(es);
    }
  }
}
