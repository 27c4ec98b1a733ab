/** The in-process broker: a deterministic partner that fills market orders at once and rests limit orders. */
module SimulatedBroker {
  import opened Enums
  import opened Configuration
  import opened Positions
  import opened Durable
  import opened Sorting
  import opened Reconciliation
  import opened OrderManagement
  import opened Numerals

  /** What the broker holds. Working orders are in placement order; positions are a dictionary. */
  datatype Sim = Sim(
    connected: bool, denied: bool, fillsMarket: bool,
    positions: Book, working: seq<Working>, fills: seq<BrokerFill>, orders: nat, executions: nat)

  function OrderName(n: nat): string { "mock-" + Padded(n, 6) }

  function ExecutionName(n: nat): string { "mockexec-" + Padded(n, 6) }

  lemma NamesAreDistinct(m: nat, n: nat)
    ensures OrderName(m) == OrderName(n) ==> m == n
    ensures ExecutionName(m) == ExecutionName(n) ==> m == n
  {
    if OrderName(m) == OrderName(n) {
      assert OrderName(m)[5..] == Padded(m, 6) && OrderName(n)[5..] == Padded(n, 6);
      PaddedIsInjective(m, n, 6);
    }
    if ExecutionName(m) == ExecutionName(n) {
      assert ExecutionName(m)[9..] == Padded(m, 6) && ExecutionName(n)[9..] == Padded(n, 6);
      PaddedIsInjective(m, n, 6);
    }
  }

  /** The working orders without one id. */
  function Without(working: seq<Working>, id: string): seq<Working> {
    if working == [] then []
    else Without(working[..|working| - 1], id)
         + if working[|working| - 1].brokerOrderId == id then [] else [working[|working| - 1]]
  }

  function CostOf(price: real, multiplier: real): real { price * multiplier }

  /** A position moved by a fill; its cost is the last price times the multiplier. */
  function Moved(positions: Book, f: BrokerFill, multiplier: real): Book {
    var quantity := Quantity(positions, f.conId) + f.Delta();
    if quantity == 0 then positions - {f.conId}
    else positions[f.conId := Position(f.conId, f.symbol, quantity, CostOf(f.price, multiplier))]
  }

  function FillFor(b: Sim, id: string, q: Request, symbol: string, price: real, at: int): BrokerFill {
    BrokerFill(ExecutionName(b.executions + 1), id, q.conId, symbol, q.side, q.quantity, price, at)
  }

  function Executed(b: Sim, f: BrokerFill, multiplier: real): Sim {
    b.(executions := b.executions + 1, fills := b.fills + [f],
       working := Without(b.working, f.brokerOrderId), positions := Moved(b.positions, f, multiplier))
  }

  /** The fill is the whole of the order: its contract, side and size, under its id, at the price and instant given. */
  ghost predicate Fulfils(f: BrokerFill, q: Request, id: string, price: real, at: int) {
    && f.brokerOrderId == id && f.conId == q.conId && f.side == q.side && f.quantity == q.quantity
    && f.price == price && f.executedAt == at
  }

  /** The order's contract has moved by its size, up for a purchase and down for a sale, and no other has. */
  ghost predicate MovedBy(before: Book, after: Book, q: Request) {
    forall c :: Quantity(after, c)
                == Quantity(before, c) + if c != q.conId then 0 else if q.side.Buy? then q.quantity else -q.quantity
  }

  datatype Placement = Placement(broker: Sim, reply: Reply)

  /** What `place_order` does, at whatever price the tick it takes happens to show. */
  function Placed(b: Sim, q: Request, c: QualifiedContract, price: real, at: int): Placement {
    if !b.connected then Placement(b, Raised(false, "BrokerConnectionError"))
    else if b.denied then Placement(b, Raised(true, "BrokerPermissionError"))
    else if !q.orderType.Transmittable() then Placement(b, Raised(false, "BrokerOrderRejectedError"))
    else
      var id := OrderName(b.orders + 1);
      var resting := b.(orders := b.orders + 1, working := Without(b.working, id) + [Working(id, c.symbol)]);
      if q.orderType.Market? && b.fillsMarket then
        Placement(Executed(resting, FillFor(resting, id, q, c.symbol, price, at), c.multiplier),
                  Replied(true, Some(id), OrderStatus.Filled, None))
      else Placement(resting, Replied(true, Some(id), Submitted, None))
  }

  /** The fills a read returns: those executed no earlier than the cutoff. */
  function Recent(fills: seq<BrokerFill>, cutoff: int): seq<BrokerFill> {
    if fills == [] then []
    else Recent(fills[..|fills| - 1], cutoff) + if fills[|fills| - 1].executedAt >= cutoff then [fills[|fills| - 1]] else []
  }

  /** The positions a read returns: every entry of the dictionary once. */
  function Listing(positions: Book): seq<Position> {
    ListingOf(positions, Sorted(positions.Keys))
  }

  function ListingOf(positions: Book, ids: seq<int>): seq<Position> {
    if ids == [] then []
    else ListingOf(positions, ids[..|ids| - 1])
         + if ids[|ids| - 1] in positions then [positions[ids[|ids| - 1]]] else []
  }

  class MockBroker {
    var connected: bool
    var denied: bool
    const fillsMarket: bool
    var positions: Book
    var working: seq<Working>
    var fills: seq<BrokerFill>
    var orders: nat
    var executions: nat

    constructor (fillsMarket: bool)
      ensures View() == Sim(false, false, fillsMarket, map[], [], [], 0, 0)
    {
      this.fillsMarket := fillsMarket;
      connected, denied, positions, working, fills, orders, executions := false, false, map[], [], [], 0, 0;
    }

    function View(): Sim
      reads this
    {
      Sim(connected, denied, fillsMarket, positions, working, fills, orders, executions)
    }

    /** Refuses without a session, without permission or for an exotic type; otherwise fills or rests. */
    method PlaceOrder(q: Request, c: QualifiedContract, price: real, at: int) returns (reply: Reply)
      modifies this
      ensures Placement(View(), reply) == Placed(old(View()), q, c, price, at)
      ensures connected && !denied && q.orderType.Market? && fillsMarket ==>
                && reply.Replied? && reply.accepted && reply.brokerOrderId.Some? && reply.status.Filled?
                && |fills| == |old(fills)| + 1 && fills[..|old(fills)|] == old(fills)
                && Fulfils(fills[|old(fills)|], q, reply.brokerOrderId.value, price, at)
                && MovedBy(old(positions), positions, q)
      ensures !(connected && !denied && q.orderType.Market? && fillsMarket) ==> fills == old(fills) && positions == old(positions)
    {
      if !connected {
        return Raised(false, "BrokerConnectionError");
      }
      if denied {
        return Raised(true, "BrokerPermissionError");
      }
      if !q.orderType.Transmittable() {
        return Raised(false, "BrokerOrderRejectedError");
      }
      orders := orders + 1;
      var id := OrderName(orders);
      working := Without(working, id) + [Working(id, c.symbol)];
      if q.orderType.Market? && fillsMarket {
        SimulateFill(id, q, c, price, at);
        return Replied(true, Some(id), OrderStatus.Filled, None);
      }
      reply := Replied(true, Some(id), Submitted, None);
    }

    method SimulateFill(id: string, q: Request, c: QualifiedContract, price: real, at: int)
      modifies this
      ensures View() == Executed(old(View()), FillFor(old(View()), id, q, c.symbol, price, at), c.multiplier)
      ensures |fills| == |old(fills)| + 1 && Fulfils(fills[|old(fills)|], q, id, price, at) && MovedBy(old(positions), positions, q)
    {
      executions := executions + 1;
      var f := BrokerFill(ExecutionName(executions), id, q.conId, c.symbol, q.side, q.quantity, price, at);
      fills := fills + [f];
      working := Without(working, id);
      ApplyFillToPositions(f, c.multiplier);
    }

    method ApplyFillToPositions(f: BrokerFill, multiplier: real)
      modifies this`positions
      ensures positions == Moved(old(positions), f, multiplier)
    {
      var held := if f.conId in positions then positions[f.conId].quantity else 0;
      var quantity := held + f.Delta();
      if quantity == 0 {
        positions := positions - {f.conId};
        return;
      }
      positions := positions[f.conId := Position(f.conId, f.symbol, quantity, CostOf(f.price, multiplier))];
    }

    method GetFills(cutoff: int) returns (recent: Option<seq<BrokerFill>>)
      ensures recent == if connected then Some(Recent(fills, cutoff)) else None
    {
      if !connected {
        return None;
      }
      var found: seq<BrokerFill> := [];
      for i := 0 to |fills|
        invariant found == Recent(fills[..i], cutoff)
      {
        assert fills[..i + 1][..i] == fills[..i];
        if fills[i].executedAt >= cutoff {
          found := found + [fills[i]];
        }
      }
      assert fills[..|fills|] == fills;
      recent := Some(found);
    }

    /** Drops every working order; None without a session. Positions are not touched. */
    method CancelAllOrders() returns (cancelled: Option<nat>)
      modifies this`working
      ensures old(connected) ==> cancelled == Some(|old(working)|) && working == []
      ensures !old(connected) ==> cancelled.None? && working == old(working)
    {
      if !connected {
        return None;
      }
      cancelled := Some(|working|);
      working := [];
    }
  }

  // ----- what a placement does -----

  /**
   * A market order over a live session with permission is filled at once where the broker fills such orders: one
   * fill more, which is the whole of the order, and the position moved by it; nothing rests.
   */
  lemma FilledAtOnce(b: Sim, q: Request, c: QualifiedContract, price: real, at: int)
    requires b.connected && !b.denied && q.orderType.Market? && b.fillsMarket
    ensures var r := Placed(b, q, c, price, at);
            && r.reply.Replied? && r.reply.accepted && r.reply.brokerOrderId.Some? && r.reply.status.Filled?
            && |r.broker.fills| == |b.fills| + 1 && r.broker.fills[..|b.fills|] == b.fills
            && Fulfils(r.broker.fills[|b.fills|], q, r.reply.brokerOrderId.value, price, at)
            && MovedBy(b.positions, r.broker.positions, q)
            && (forall w :: w in r.broker.working ==> w in b.working)
            && (q.conId in r.broker.positions ==>
                  var p := r.broker.positions[q.conId];
                  p.averageCost == price * c.multiplier && p.conId == q.conId && p.symbol == c.symbol)
  {
    hide OrderName, ExecutionName, Without, Moved;
    var id := OrderName(b.orders + 1);
    RestsNoMore(b.working, id, c.symbol);
    MovedMeans(b.positions, FillFor(b, id, q, c.symbol, price, at), c.multiplier, q);
  }

  lemma RestsNoMore(working: seq<Working>, id: string, symbol: string)
    ensures forall w :: w in Without(Without(working, id) + [Working(id, symbol)], id) ==> w in working
  {
    WithoutIs(working, id);
    WithoutIs(Without(working, id) + [Working(id, symbol)], id);
    hide Without;
  }

  lemma MovedMeans(positions: Book, f: BrokerFill, multiplier: real, q: Request)
    requires f.conId == q.conId && f.side == q.side && f.quantity == q.quantity
    ensures MovedBy(positions, Moved(positions, f, multiplier), q)
    ensures f.conId in Moved(positions, f, multiplier) ==>
              var p := Moved(positions, f, multiplier)[f.conId];
              p.averageCost == f.price * multiplier && p.conId == f.conId && p.symbol == f.symbol
  {}

  /** Any other placement fills nothing: it is refused, for one of three reasons, or rests under a fresh id. */
  lemma NotFilledAtOnce(b: Sim, q: Request, c: QualifiedContract, price: real, at: int)
    ensures var r := Placed(b, q, c, price, at);
            && (!(b.connected && !b.denied && q.orderType.Market? && b.fillsMarket) ==>
                  r.broker.fills == b.fills && r.broker.positions == b.positions && r.broker.executions == b.executions)
            && (!b.connected ==> r == Placement(b, Raised(false, "BrokerConnectionError")))
            && (b.connected && b.denied ==> r == Placement(b, Raised(true, "BrokerPermissionError")))
            && (b.connected && !b.denied && q.orderType !in {Market, Limit} ==>
                  r == Placement(b, Raised(false, "BrokerOrderRejectedError")))
            && (b.connected && !b.denied && (q.orderType.Limit? || (q.orderType.Market? && !b.fillsMarket)) ==>
                  && r.reply.Replied? && r.reply.accepted && r.reply.brokerOrderId.Some? && r.reply.status.Submitted?
                  && Working(r.reply.brokerOrderId.value, c.symbol) in r.broker.working)
  {
    hide OrderName, Without;
  }

  // ----- what the broker keeps true of itself -----

  /** The broker's positions are the net of its fills, and its names are never used twice. */
  ghost predicate Honest(b: Sim) {
    && BookOk(b.positions)
    && (forall c :: Quantity(b.positions, c) == Net(b.fills, c))
    && b.executions == |b.fills|
    && (forall i :: 0 <= i < |b.fills| ==> b.fills[i].executionId == ExecutionName(i + 1))
    && (forall i :: 0 <= i < |b.working| ==> UsedName(b.working[i].brokerOrderId, b.orders))
  }

  ghost predicate UsedName(id: string, orders: nat) { exists n: nat :: 1 <= n <= orders && id == OrderName(n) }

  lemma NextNameIsUnused(orders: nat)
    ensures !UsedName(OrderName(orders + 1), orders)
  {
    if UsedName(OrderName(orders + 1), orders) {
      var n: nat :| 1 <= n <= orders && OrderName(orders + 1) == OrderName(n);
      NamesAreDistinct(orders + 1, n);
    }
  }

  lemma {:induction false} WithoutIs(working: seq<Working>, id: string)
    ensures forall w :: w in Without(working, id) <==> w in working && w.brokerOrderId != id
    ensures (forall i :: 0 <= i < |working| ==> working[i].brokerOrderId != id) ==> Without(working, id) == working
  {
    if working != [] {
      var init := working[..|working| - 1];
      WithoutIs(init, id);
      assert working == init + [working[|working| - 1]];
    }
  }

  lemma IdsWithout(working: seq<Working>, id: string)
    ensures WorkingIds(Without(working, id)) == WorkingIds(working) - {id}
  {
    WithoutIs(working, id);
  }

  lemma IdsWithOneMore(working: seq<Working>, w: Working)
    ensures WorkingIds(working + [w]) == WorkingIds(working) + {w.brokerOrderId}
  {
    assert forall x :: x in working + [w] <==> x in working || x == w;
  }

  /** The working ids after a placement: one more if the order rests, the same if it fills or is refused. */
  lemma PlacementOnWorking(b: Sim, q: Request, c: QualifiedContract, price: real, at: int)
    requires Honest(b)
    ensures var r := Placed(b, q, c, price, at);
            WorkingIds(r.broker.working) ==
              if r.reply.Replied? && r.reply.status.Submitted? then WorkingIds(b.working) + {OrderName(b.orders + 1)}
              else WorkingIds(b.working)
  {
    var id := OrderName(b.orders + 1);
    UnusedIsIdle(b);
    var rested := Without(b.working, id) + [Working(id, c.symbol)];
    hide Honest, Without, OrderName, WorkingIds;
    IdsWithout(b.working, id);
    IdsWithOneMore(Without(b.working, id), Working(id, c.symbol));
    IdsWithout(rested, id);
    assert WorkingIds(rested) == WorkingIds(b.working) + {id};
    assert WorkingIds(Without(rested, id)) == WorkingIds(b.working);
    hide Moved;
  }

  lemma UnusedIsIdle(b: Sim)
    requires Honest(b)
    ensures OrderName(b.orders + 1) !in WorkingIds(b.working)
  {
    NextNameIsUnused(b.orders);
  }

  lemma MovedQuantities(positions: Book, f: BrokerFill, multiplier: real)
    ensures forall c :: Quantity(Moved(positions, f, multiplier), c)
                        == Quantity(positions, c) + if c == f.conId then f.Delta() else 0
    ensures BookOk(positions) ==> BookOk(Moved(positions, f, multiplier))
  {}

  lemma UsedStaysUsed(id: string, m: nat, n: nat)
    requires UsedName(id, m) && m <= n
    ensures UsedName(id, n)
  {}

  lemma RestingStaysHonest(b: Sim, symbol: string)
    requires Honest(b)
    ensures var id := OrderName(b.orders + 1);
            Honest(b.(orders := b.orders + 1, working := Without(b.working, id) + [Working(id, symbol)]))
  {
    var id := OrderName(b.orders + 1);
    NextNameIsUnused(b.orders);
    WithoutIs(b.working, id);
    forall i | 0 <= i < |b.working| ensures UsedName(b.working[i].brokerOrderId, b.orders + 1) {
      UsedStaysUsed(b.working[i].brokerOrderId, b.orders, b.orders + 1);
    }
    assert UsedName(id, b.orders + 1);
  }

  lemma FillingStaysHonest(b: Sim, f: BrokerFill, multiplier: real)
    requires Honest(b) && f.executionId == ExecutionName(b.executions + 1)
    ensures Honest(Executed(b, f, multiplier))
  {
    MovedQuantities(b.positions, f, multiplier);
    assert (b.fills + [f])[..|b.fills|] == b.fills;
    WithoutIs(b.working, f.brokerOrderId);
    var kept := Without(b.working, f.brokerOrderId);
    forall i | 0 <= i < |kept| ensures UsedName(kept[i].brokerOrderId, b.orders) {
      assert kept[i] in b.working;
    }
  }

  /** Whatever is placed, accepted or refused, the broker's positions stay the net of its fills. */
  lemma PlacingStaysHonest(b: Sim, q: Request, c: QualifiedContract, price: real, at: int)
    requires Honest(b)
    ensures Honest(Placed(b, q, c, price, at).broker)
  {
    hide Honest;
    if b.connected && !b.denied && q.orderType.Transmittable() {
      var id := OrderName(b.orders + 1);
      var resting := b.(orders := b.orders + 1, working := Without(b.working, id) + [Working(id, c.symbol)]);
      RestingStaysHonest(b, c.symbol);
      FillingStaysHonest(resting, FillFor(resting, id, q, c.symbol, price, at), c.multiplier);
    }
  }

  // ----- reading positions -----

  lemma OneMoreListed(earlier: seq<Position>, p: Position)
    requires DistinctContracts(earlier) && forall x :: x in earlier ==> x.conId != p.conId
    ensures DistinctContracts(earlier + [p])
    ensures forall c :: Quantity(ById(earlier + [p]), c) == if c == p.conId then p.quantity else Quantity(ById(earlier), c)
  {
    assert (earlier + [p])[..|earlier|] == earlier;
    forall i | 0 <= i < |earlier| ensures earlier[i].conId != p.conId { assert earlier[i] in earlier; }
  }

  ghost predicate Lists(ps: seq<Position>, positions: Book, ids: seq<int>) {
    && DistinctContracts(ps)
    && (forall p :: p in ps ==> p.conId in ids)
    && (forall c :: Quantity(ById(ps), c) == if c in ids then Quantity(positions, c) else 0)
  }

  lemma ListsNothing(positions: Book)
    ensures Lists([], positions, [])
  {}

  lemma ListsOneMore(earlier: seq<Position>, positions: Book, init: seq<int>, last: int)
    requires BookOk(positions) && Lists(earlier, positions, init) && last !in init
    ensures Lists(if last in positions then earlier + [positions[last]] else earlier, positions, init + [last])
  {
    if last in positions {
      hide ById, DistinctContracts;
      OneMoreListed(earlier, positions[last]);
    }
  }

  lemma {:induction false} ListingOfIs(positions: Book, ids: seq<int>)
    requires BookOk(positions) && forall i, j :: 0 <= i < j < |ids| ==> ids[i] < ids[j]
    ensures Lists(ListingOf(positions, ids), positions, ids)
  {
    hide Lists;
    if ids == [] {
      ListsNothing(positions);
    } else {
      var init, last := ids[..|ids| - 1], ids[|ids| - 1];
      ListingOfIs(positions, init);
      assert init + [last] == ids;
      ListsOneMore(ListingOf(positions, init), positions, init, last);
      assert ListingOf(positions, ids)
          == if last in positions then ListingOf(positions, init) + [positions[last]] else ListingOf(positions, init);
    }
  }

  /** A read of the positions lists every contract once, with its quantity. */
  lemma ListingIsExact(positions: Book)
    requires BookOk(positions)
    ensures DistinctContracts(Listing(positions))
    ensures forall c :: Quantity(ById(Listing(positions)), c) == Quantity(positions, c)
  {
    ListingOfIs(positions, Sorted(positions.Keys));
  }
}
