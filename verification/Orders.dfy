/** One order: its identity, its terms, and the transitions of its lifecycle. */
module Orders {
  import opened Enums

  /** The economic content an idempotency key is a digest of; the digest is taken to be injective. */
  datatype Key = Key(intentId: string, strategy: string, conId: int, target: int)

  /** One row of the `orders` table, which is also the content of an in-memory order. */
  datatype OrderRow = OrderRow(
    internalId: string,
    key: Key,
    symbol: string,
    conId: int,
    side: OrderSide,
    quantity: int,
    orderType: OrderType,
    limitPrice: Option<real>,
    stopPrice: Option<real>,
    status: OrderStatus,
    brokerOrderId: Option<string>,
    filledQuantity: int,
    averageFillPrice: Option<real>,
    errorCode: Option<string>,
    blockReasons: seq<Reason>,
    updatedAt: int,
    transmittedAt: Option<int>)
  {
    predicate IsOpen() { status.IsOpen() }

    /** The row cannot rule out that the broker has the order: by its status, or by carrying a broker id. */
    predicate WasTransmitted() { status.ReachedBroker() || brokerOrderId.Some? }

    function AsBlocked(reasons: seq<Reason>, at: int): OrderRow {
      this.(status := Blocked, blockReasons := reasons, updatedAt := at)
    }

    function AsPendingSubmit(at: int): OrderRow {
      this.(status := PendingSubmit, transmittedAt := Some(at), updatedAt := at)
    }

    function AsSubmitted(brokerId: string, at: int): OrderRow {
      this.(brokerOrderId := Some(brokerId), status := Submitted, updatedAt := at)
    }

    function WithStatus(s: OrderStatus, at: int): OrderRow {
      this.(status := s, updatedAt := at)
    }

    function AsFailed(s: OrderStatus, code: Option<string>, at: int): OrderRow {
      this.(status := s, errorCode := code, updatedAt := at)
    }

    /** Why the order is structurally invalid, or None. */
    function Fault(): Option<string> {
      if quantity <= 0 then Some("quantity must be positive")
      else if conId <= 0 then Some("order requires a qualified contract")
      else if symbol == "" then Some("order requires a symbol")
      else match orderType
        case Market =>
          if limitPrice.Some? || stopPrice.Some? then Some("a market order carries no price") else None
        case Limit =>
          if !Positive(limitPrice) then Some("limit order requires a positive limit price")
          else if stopPrice.Some? then Some("a limit order must not carry a stop price") else None
        case Stop =>
          if !Positive(stopPrice) then Some("stop order requires a positive stop price")
          else if limitPrice.Some? then Some("a stop order must not carry a limit price") else None
        case StopLimit =>
          if !Positive(stopPrice) then Some("stop-limit order requires a positive stop price")
          else if !Positive(limitPrice) then Some("stop-limit order requires a positive limit price") else None
        case Bracket => Some("a bracket is submitted as a BracketOrder")
    }

    static predicate Positive(price: Option<real>) { price.Some? && price.value > 0.0 }

    /** The row after an execution, or None where the source raises and leaves the order alone. */
    function AfterFill(e: Execution, at: int): Option<OrderRow> {
      var filled := filledQuantity + e.quantity;
      var first := averageFillPrice.None? || filledQuantity == 0;
      if filled > quantity || (!first && filled == 0) then None
      else
        var average :=
          if first then e.price else Blend(averageFillPrice.value, filledQuantity, e.price, e.quantity);
        Some(this.(filledQuantity := filled, averageFillPrice := Some(average), updatedAt := at,
                   status := if filled == quantity then Filled else PartiallyFilled))
    }
  }

  datatype Execution = Execution(quantity: int, price: real)

  /** The average of `m` units at `average` and `q` more at `price`. */
  function Blend(average: real, m: int, price: real, q: int): (r: real)
    requires m + q != 0
  {
    (average * m as real + price * q as real) / (m + q) as real
  }

  /** An in-memory order. Its identity and terms never change; its lifecycle fields do. */
  class Order {
    const internalId: string
    const key: Key
    const symbol: string
    const conId: int
    const side: OrderSide
    const quantity: int
    const orderType: OrderType
    const limitPrice: Option<real>
    const stopPrice: Option<real>
    var status: OrderStatus
    var brokerOrderId: Option<string>
    var filledQuantity: int
    var averageFillPrice: Option<real>
    var errorCode: Option<string>
    var blockReasons: seq<Reason>
    var updatedAt: int
    var transmittedAt: Option<int>

    constructor FromRow(row: OrderRow)
      ensures Row() == row
    {
      internalId, key, symbol, conId := row.internalId, row.key, row.symbol, row.conId;
      side, quantity, orderType := row.side, row.quantity, row.orderType;
      limitPrice, stopPrice := row.limitPrice, row.stopPrice;
      status, brokerOrderId := row.status, row.brokerOrderId;
      filledQuantity, averageFillPrice := row.filledQuantity, row.averageFillPrice;
      errorCode, blockReasons := row.errorCode, row.blockReasons;
      updatedAt, transmittedAt := row.updatedAt, row.transmittedAt;
    }

    function Row(): OrderRow
      reads this
    {
      OrderRow(internalId, key, symbol, conId, side, quantity, orderType, limitPrice, stopPrice,
               status, brokerOrderId, filledQuantity, averageFillPrice, errorCode, blockReasons,
               updatedAt, transmittedAt)
    }

    method MarkBlocked(reasons: seq<Reason>, at: int)
      modifies this
      ensures Row() == old(Row()).AsBlocked(reasons, at)
    {
      status := Blocked;
      blockReasons := reasons;
      updatedAt := at;
    }

    method MarkPendingSubmit(at: int)
      modifies this
      ensures Row() == old(Row()).AsPendingSubmit(at)
    {
      status := PendingSubmit;
      transmittedAt := Some(at);
      updatedAt := at;
    }

    method MarkSubmitted(brokerId: string, at: int)
      modifies this
      ensures Row() == old(Row()).AsSubmitted(brokerId, at)
    {
      brokerOrderId := Some(brokerId);
      status := Submitted;
      updatedAt := at;
    }

    method MarkStatus(s: OrderStatus, at: int)
      modifies this
      ensures Row() == old(Row()).WithStatus(s, at)
    {
      status := s;
      updatedAt := at;
    }

    method MarkRejected(code: Option<string>, at: int)
      modifies this
      ensures Row() == old(Row()).AsFailed(Rejected, code, at)
    {
      status := Rejected;
      errorCode := code;
      updatedAt := at;
    }

    method MarkError(code: Option<string>, at: int)
      modifies this
      ensures Row() == old(Row()).AsFailed(Error, code, at)
    {
      status := Error;
      errorCode := code;
      updatedAt := at;
    }

    /** Applies one execution; a refused one changes nothing. */
    method ApplyFill(e: Execution, at: int) returns (applied: bool)
      modifies this
      ensures applied <==> old(Row()).AfterFill(e, at).Some?
      ensures Row() == old(Row()).AfterFill(e, at).GetOr(old(Row()))
    {
      var previous := filledQuantity;
      var filled := previous + e.quantity;
      if filled > quantity {
        return false;
      }
      if averageFillPrice.None? || previous == 0 {
        averageFillPrice := Some(e.price);
      } else if filled == 0 {
        return false;  // a division by zero raises before anything is assigned
      } else {
        averageFillPrice := Some(Blend(averageFillPrice.value, previous, e.price, e.quantity));
      }
      filledQuantity := filled;
      status := if filled == quantity then Filled else PartiallyFilled;
      updatedAt := at;
      applied := true;
    }
  }

  // ----- price arithmetic over whole runs of executions -----

  /** The order after a run of executions, each applied or refused in turn. */
  function FillRun(row: OrderRow, es: seq<Execution>, at: int): OrderRow {
    if es == [] then row
    else
      var before := FillRun(row, es[..|es| - 1], at);
      before.AfterFill(es[|es| - 1], at).GetOr(before)
  }

  /** The executions of a run that the order accepted. */
  function Accepted(row: OrderRow, es: seq<Execution>, at: int): seq<Execution> {
    if es == [] then []
    else
      var earlier := Accepted(row, es[..|es| - 1], at);
      if FillRun(row, es[..|es| - 1], at).AfterFill(es[|es| - 1], at).Some?
      then earlier + [es[|es| - 1]] else earlier
  }

  function Volume(es: seq<Execution>): int {
    if es == [] then 0 else Volume(es[..|es| - 1]) + es[|es| - 1].quantity
  }

  function Turnover(es: seq<Execution>): real {
    if es == [] then 0.0
    else Turnover(es[..|es| - 1]) + es[|es| - 1].price * es[|es| - 1].quantity as real
  }

  lemma BlendKeepsTurnover(average: real, m: int, price: real, q: int)
    requires m + q != 0
    ensures Blend(average, m, price, q) * (m + q) as real == average * m as real + price * q as real
  {
    QuotientTimes(average * m as real + price * q as real, (m + q) as real);
  }

  lemma QuotientTimes(x: real, n: real)
    requires n != 0.0
    ensures x / n * n == x
  {}

  /** Volumes and status agree with the executions taken; FILLED holds exactly at equality. */
  ghost predicate VolumesAgree(row: OrderRow, after: OrderRow, taken: seq<Execution>) {
    && 0 <= after.filledQuantity == Volume(taken) <= row.quantity == after.quantity
    && (taken == [] <==> after.filledQuantity == 0)
    && (taken != [] ==> after.averageFillPrice.Some?)
    && (after.status.Filled? <==> after.filledQuantity == row.quantity)
  }

  lemma {:induction false} FillVolumes(row: OrderRow, es: seq<Execution>, at: int)
    requires row.filledQuantity == 0 && row.averageFillPrice.None? && row.quantity > 0 && !row.status.Filled?
    requires forall e :: e in es ==> e.quantity > 0
    ensures VolumesAgree(row, FillRun(row, es, at), Accepted(row, es, at))
  {
    if es != [] {
      var init, e := es[..|es| - 1], es[|es| - 1];
      FillVolumes(row, init, at);
      assert e in es;
      if FillRun(row, init, at).AfterFill(e, at).Some? {
        assert (Accepted(row, init, at) + [e])[..|Accepted(row, init, at)|] == Accepted(row, init, at);
      }
    }
  }

  /** Average times filled is exactly the turnover of the executions taken. */
  ghost predicate TurnoverAgrees(after: OrderRow, taken: seq<Execution>) {
    taken != [] ==>
      && after.averageFillPrice.Some?
      && after.averageFillPrice.value * after.filledQuantity as real == Turnover(taken)
  }

  lemma {:induction false} FillTurnover(row: OrderRow, es: seq<Execution>, at: int)
    requires row.filledQuantity == 0 && row.averageFillPrice.None? && row.quantity > 0 && !row.status.Filled?
    requires forall e :: e in es ==> e.quantity > 0
    ensures TurnoverAgrees(FillRun(row, es, at), Accepted(row, es, at))
  {
    if es != [] {
      var init, e := es[..|es| - 1], es[|es| - 1];
      FillTurnover(row, init, at);
      FillVolumes(row, init, at);
      assert e in es;
      if FillRun(row, init, at).AfterFill(e, at).Some? {
        TurnoverStep(FillRun(row, init, at), Accepted(row, init, at), e, at);
      }
    }
  }

  lemma TurnoverStep(before: OrderRow, earlier: seq<Execution>, e: Execution, at: int)
    requires before.AfterFill(e, at).Some? && e.quantity > 0 && before.filledQuantity >= 0
    requires earlier == [] <==> before.filledQuantity == 0
    requires TurnoverAgrees(before, earlier)
    ensures TurnoverAgrees(before.AfterFill(e, at).value, earlier + [e])
  {
    assert (earlier + [e])[..|earlier|] == earlier;
    if earlier != [] {
      BlendKeepsTurnover(before.averageFillPrice.value, before.filledQuantity, e.price, e.quantity);
    }
  }

  /**
   * After any run of positive executions, refused ones included: the filled quantity is the volume
   * accepted and never exceeds the order, average times filled is exactly the accepted turnover, the
   * order is FILLED exactly when nothing remains, and the next execution is refused exactly when
   * accepting it would over-fill.
   */
  lemma FillAccounting(row: OrderRow, es: seq<Execution>, next: Execution, at: int)
    requires row.filledQuantity == 0 && row.averageFillPrice.None? && row.quantity > 0 && !row.status.Filled?
    requires forall e :: e in es ==> e.quantity > 0
    requires next.quantity > 0
    ensures VolumesAgree(row, FillRun(row, es, at), Accepted(row, es, at))
    ensures TurnoverAgrees(FillRun(row, es, at), Accepted(row, es, at))
    ensures FillRun(row, es, at).AfterFill(next, at).None?
            <==> FillRun(row, es, at).filledQuantity + next.quantity > row.quantity
  {
    FillVolumes(row, es, at);
    FillTurnover(row, es, at);
    RefusedIffOverFills(FillRun(row, es, at), next, at);
  }

  lemma RefusedIffOverFills(row: OrderRow, next: Execution, at: int)
    requires row.filledQuantity >= 0 && next.quantity > 0
    ensures row.AfterFill(next, at).None? <==> row.filledQuantity + next.quantity > row.quantity
  {}
}
