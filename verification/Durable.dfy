/**
 * What survives the process: the SQLite tables and what the broker has been handed.
 *
 * Every write is one atomic effect. A run of the program is a sequence of effects; a crash is a
 * prefix of one. SQL text and locking are not modelled.
 */
module Durable {
  import opened Enums
  import opened Orders
  import opened OrderTable
  import opened Positions

  /** An order handed to the broker; `key` is that of the row it was built from. */
  datatype Request = Request(internalId: string, key: Key, conId: int, side: OrderSide, quantity: int,
                             orderType: OrderType, limitPrice: Option<real>, stopPrice: Option<real>)

  datatype FillRow = FillRow(fill: BrokerFill, internalId: string, runId: string)

  datatype Signal = Signal(intentId: string, createdAt: int)

  datatype RiskRecord = RiskRecord(intentId: string, approved: bool, reasons: seq<Reason>)

  datatype Tables = Tables(
    orders: Rows,
    fills: seq<FillRow>,
    positions: seq<Position>,
    signals: seq<Signal>,
    decisions: seq<RiskRecord>,
    state: map<string, string>,
    sent: seq<Request>)

  const EMPTY := Tables([], [], [], [], [], map[], [])

  datatype Effect =
    | InsertOrder(row: OrderRow)
    | UpdateOrder(row: OrderRow)
    | RecordFill(fill: FillRow)
    | ReplacePositions(positions: seq<Position>)
    | RecordSignal(signal: Signal)
    | RecordDecision(decision: RiskRecord)
    | PutState(stateKey: string, value: string)
    | Send(request: Request)

  predicate HasSignal(signals: seq<Signal>, id: string) {
    exists i :: 0 <= i < |signals| && signals[i].intentId == id
  }

  function Apply(t: Tables, e: Effect): Tables {
    match e
    case InsertOrder(row) => t.(orders := t.orders + [row])
    case UpdateOrder(row) => t.(orders := Update(t.orders, row))
    case RecordFill(f) => t.(fills := t.fills + [f])
    case ReplacePositions(ps) => t.(positions := ps)
    case RecordSignal(s) => if HasSignal(t.signals, s.intentId) then t else t.(signals := t.signals + [s])
    case RecordDecision(d) => t.(decisions := t.decisions + [d])
    case PutState(k, v) => t.(state := t.state[k := v])
    case Send(r) => t.(sent := t.sent + [r])
  }

  function ApplyAll(t: Tables, es: seq<Effect>): Tables {
    if es == [] then t else Apply(ApplyAll(t, es[..|es| - 1]), es[|es| - 1])
  }

  lemma ApplyOneMore(t: Tables, es: seq<Effect>, e: Effect)
    ensures ApplyAll(t, es + [e]) == Apply(ApplyAll(t, es), e)
  {
    assert (es + [e])[..|es|] == es;
  }

  lemma {:induction false} ApplyConcat(t: Tables, a: seq<Effect>, b: seq<Effect>)
    ensures ApplyAll(t, a + b) == ApplyAll(ApplyAll(t, a), b)
  {
    if b == [] {
      assert a + b == a;
    } else {
      assert (a + b)[..|a + b| - 1] == a + b[..|b| - 1];
      ApplyConcat(t, a, b[..|b| - 1]);
    }
  }

  /** The repositories over one database, and the broker's inbox. */
  class Store {
    var orders: Rows
    var fills: seq<FillRow>
    var positions: seq<Position>
    var signals: seq<Signal>
    var decisions: seq<RiskRecord>
    var state: map<string, string>
    var sent: seq<Request>
    ghost const origin: Tables
    ghost var log: seq<Effect>

    constructor (t: Tables)
      ensures Consistent() && origin == t && log == []
    {
      origin := t;
      orders, fills, positions, signals := t.orders, t.fills, t.positions, t.signals;
      decisions, state, sent := t.decisions, t.state, t.sent;
      log := [];
    }

    function Contents(): Tables
      reads this
    {
      Tables(orders, fills, positions, signals, decisions, state, sent)
    }

    /** The tables are what the effects logged so far make of the tables found at the start. */
    ghost predicate Consistent()
      reads this
    {
      Contents() == ApplyAll(origin, log)
    }

    /** Whatever a stretch of work appended to the log is what happened to the tables. */
    twostate lemma TablesFollowLog(effects: seq<Effect>)
      requires old(Consistent()) && Consistent() && log == old(log) + effects
      ensures Contents() == ApplyAll(old(Contents()), effects)
    {
      ApplyConcat(origin, old(log), effects);
    }

    /** One effect happened: it is in the tables and at the end of the log. */
    twostate predicate Did(e: Effect)
      reads this
    {
      Consistent() && Contents() == Apply(old(Contents()), e) && log == old(log) + [e]
    }

    /** A new key becomes one inserted row; for a known one nothing is written and the stored row is handed back. */
    method InsertIfAbsent(order: Order) returns (stored: Order, created: bool)
      requires Consistent()
      modifies this
      ensures created <==> FindKey(old(orders), order.key).None?
      ensures created ==> stored == order && Did(InsertOrder(order.Row()))
      ensures !created ==>
                && fresh(stored) && stored.Row() == FindKey(old(orders), order.key).value
                && Consistent() && Contents() == old(Contents()) && log == old(log)
      ensures order.Row() == old(order.Row())
    {
      var existing := FindKey(orders, order.key);
      if existing.Some? {
        stored := new Order.FromRow(existing.value);
        return stored, false;
      }
      orders := orders + [order.Row()];
      ApplyOneMore(origin, log, InsertOrder(order.Row()));
      log := log + [InsertOrder(order.Row())];
      return order, true;
    }

    method UpdateOrder(order: Order)
      requires Consistent()
      modifies this
      ensures Did(Effect.UpdateOrder(order.Row()))
    {
      orders := Update(orders, order.Row());
      ApplyOneMore(origin, log, Effect.UpdateOrder(order.Row()));
      log := log + [Effect.UpdateOrder(order.Row())];
    }

    /** Inserts a fill; false when its execution id is already stored. */
    method RecordFill(f: FillRow) returns (recorded: bool)
      requires Consistent()
      modifies this
      ensures recorded <==> forall i :: 0 <= i < |old(fills)| ==> old(fills)[i].fill.executionId != f.fill.executionId
      ensures recorded ==> Did(Effect.RecordFill(f))
      ensures !recorded ==> Consistent() && Contents() == old(Contents()) && log == old(log)
    {
      if exists i :: 0 <= i < |fills| && fills[i].fill.executionId == f.fill.executionId {
        return false;
      }
      fills := fills + [f];
      ApplyOneMore(origin, log, Effect.RecordFill(f));
      log := log + [Effect.RecordFill(f)];
      recorded := true;
    }

    /** Adopts a set of positions in one transaction, which a contract listed twice rolls back. */
    method ReplacePositions(ps: seq<Position>) returns (adopted: bool)
      requires Consistent()
      modifies this
      ensures adopted <==> DistinctContracts(ps)
      ensures adopted ==> Did(Effect.ReplacePositions(ps))
      ensures !adopted ==> Consistent() && Contents() == old(Contents()) && log == old(log)
    {
      if !DistinctContracts(ps) {
        return false;
      }
      positions := ps;
      ApplyOneMore(origin, log, Effect.ReplacePositions(ps));
      log := log + [Effect.ReplacePositions(ps)];
      adopted := true;
    }

    method RecordSignal(s: Signal)
      requires Consistent()
      modifies this
      ensures Did(Effect.RecordSignal(s))
    {
      if !HasSignal(signals, s.intentId) {
        signals := signals + [s];
      }
      ApplyOneMore(origin, log, Effect.RecordSignal(s));
      log := log + [Effect.RecordSignal(s)];
    }

    method RecordDecision(d: RiskRecord)
      requires Consistent()
      modifies this
      ensures Did(Effect.RecordDecision(d))
    {
      decisions := decisions + [d];
      ApplyOneMore(origin, log, Effect.RecordDecision(d));
      log := log + [Effect.RecordDecision(d)];
    }

    method PutState(key: string, value: string)
      requires Consistent()
      modifies this
      ensures Did(Effect.PutState(key, value))
    {
      state := state[key := value];
      ApplyOneMore(origin, log, Effect.PutState(key, value));
      log := log + [Effect.PutState(key, value)];
    }

    /** The order leaves for the broker; what the broker answers is the caller's business. */
    method Send(r: Request)
      requires Consistent()
      modifies this
      ensures Did(Effect.Send(r))
    {
      sent := sent + [r];
      ApplyOneMore(origin, log, Effect.Send(r));
      log := log + [Effect.Send(r)];
    }
  }
}
