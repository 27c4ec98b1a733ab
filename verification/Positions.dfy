/** The in-memory position book, and what executions do to it. */
module Positions {
  import opened Enums

  /** A held position, signed. */
  datatype Position = Position(conId: int, symbol: string, quantity: int, averageCost: real) {
    predicate IsFlat() { quantity == 0 }
  }

  /** A single execution as the broker reports it. */
  datatype BrokerFill = BrokerFill(
    executionId: string, brokerOrderId: string, conId: int, symbol: string,
    side: OrderSide, quantity: int, price: real, executedAt: int)
  {
    function Delta(): int { quantity * side.Sign() }
  }

  type Book = map<int, Position>

  /** Signed position size; zero when nothing is held. */
  function Quantity(book: Book, conId: int): int {
    if conId in book then book[conId].quantity else 0
  }

  function Abs(x: int): nat { if x < 0 then -x else x }

  /** Size-weighted average of `a` at `x` and `b` at `y`. */
  function Weighted(x: real, a: nat, y: real, b: nat): real
    requires a + b > 0
  {
    (x * a as real + y * b as real) / (a + b) as real
  }

  /** The average cost of a position that was `held` and moved by `delta` at `price`. */
  function NextCost(held: Option<Position>, delta: int, price: real): real {
    if held.None? || held.value.quantity == 0 then price
    else if (held.value.quantity > 0) == (delta > 0) then
      Weighted(held.value.averageCost, Abs(held.value.quantity), price, Abs(delta))
    else held.value.averageCost
  }

  function Held(book: Book, conId: int): Option<Position> {
    if conId in book then Some(book[conId]) else None
  }

  function AfterFill(book: Book, f: BrokerFill): Book {
    var quantity := Quantity(book, f.conId) + f.Delta();
    if quantity == 0 then book - {f.conId}
    else book[f.conId := Position(f.conId, f.symbol, quantity, NextCost(Held(book, f.conId), f.Delta(), f.price))]
  }

  /** {p.con_id: p for p in positions if not p.is_flat}: a later entry for a contract wins. */
  function FromPositions(ps: seq<Position>): Book {
    if ps == [] then map[]
    else
      var p := ps[|ps| - 1];
      var earlier := FromPositions(ps[..|ps| - 1]);
      if p.IsFlat() then earlier else earlier[p.conId := p]
  }

  /** Entry `i` is the last of its contract that is not flat. */
  ghost predicate LastHeld(ps: seq<Position>, i: nat) {
    i < |ps| && ps[i].quantity != 0 && forall j :: i < j < |ps| ==> ps[j].conId != ps[i].conId || ps[j].quantity == 0
  }

  /** The entry a book takes for a contract from a list is its last one that is not flat. */
  lemma {:induction false} LastHeldWins(ps: seq<Position>, c: int)
    ensures c in FromPositions(ps) <==> exists i: nat :: LastHeld(ps, i) && ps[i].conId == c
    ensures c in FromPositions(ps) ==> exists i: nat :: LastHeld(ps, i) && ps[i].conId == c && FromPositions(ps)[c] == ps[i]
  {
    if ps != [] {
      var init, last := ps[..|ps| - 1], |ps| - 1;
      LastHeldWins(init, c);
      if ps[last].quantity != 0 && ps[last].conId == c {
        assert LastHeld(ps, last);
      } else {
        forall i: nat | LastHeld(ps, i) && ps[i].conId == c ensures LastHeld(init, i) {}
        if i: nat :| LastHeld(init, i) && init[i].conId == c && (c in FromPositions(init) ==> FromPositions(init)[c] == init[i]) {
          assert LastHeld(ps, i);
        }
      }
    }
  }

  /** The primary key of the positions table. */
  predicate DistinctContracts(ps: seq<Position>) {
    forall i, j :: 0 <= i < j < |ps| ==> ps[i].conId != ps[j].conId
  }

  /** Entries sit under their own contract id and none is flat. */
  ghost predicate BookOk(book: Book) {
    forall c :: c in book ==> book[c].conId == c && book[c].quantity != 0
  }

  /**
   * What a fill leaves of its contract: nothing when flat; otherwise the signed sum, at the fill's price when it opened
   * the position, at a cost that spreads both turnovers over the size when it added to it, and at the old cost when
   * it reduced or reversed it.
   */
  ghost predicate Costs(before: Book, f: BrokerFill, left: Option<Position>) {
    var delta := if f.side.Buy? then f.quantity else -f.quantity;
    var held := if f.conId in before then before[f.conId].quantity else 0;
    if held + delta == 0 then left.None?
    else
      && left.Some? && left.value.conId == f.conId && left.value.symbol == f.symbol && left.value.quantity == held + delta
      && (held == 0 ==> left.value.averageCost == f.price)
      && (held != 0 && (held > 0) == (delta > 0) ==>
            left.value.averageCost * Abs(held + delta) as real
            == before[f.conId].averageCost * Abs(held) as real + f.price * Abs(delta) as real)
      && (held != 0 && (held > 0) != (delta > 0) ==> left.value.averageCost == before[f.conId].averageCost)
  }

  lemma CostIsExact(before: Book, f: BrokerFill)
    ensures Costs(before, f, Held(AfterFill(before, f), f.conId))
  {
    var delta, held := f.Delta(), Quantity(before, f.conId);
    if held != 0 && (held > 0) == (delta > 0) {
      assert Abs(held + delta) == Abs(held) + Abs(delta);
      WeightedIs(before[f.conId].averageCost, Abs(held), f.price, Abs(delta));
    }
  }

  lemma WeightedIs(x: real, a: nat, y: real, b: nat)
    requires a + b > 0
    ensures Weighted(x, a, y, b) * (a + b) as real == x * a as real + y * b as real
  {
    var t, n := x * a as real + y * b as real, (a + b) as real;
    assert t / n * n == t;
  }

  class PositionBook {
    var positions: Book

    constructor ()
      ensures positions == map[]
    {
      positions := map[];
    }

    /** Adopts a set of positions wholesale. */
    method ReplaceAll(ps: seq<Position>)
      modifies this
      ensures positions == FromPositions(ps)
    {
      var next: Book := map[];
      for i := 0 to |ps|
        invariant next == FromPositions(ps[..i])
      {
        assert ps[..i + 1][..i] == ps[..i];
        if !ps[i].IsFlat() {
          next := next[ps[i].conId := ps[i]];
        }
      }
      assert ps[..|ps|] == ps;
      positions := next;
    }

    method Upsert(p: Position)
      modifies this
      ensures forall c :: Quantity(positions, c) == if c == p.conId then p.quantity else Quantity(old(positions), c)
      ensures BookOk(old(positions)) ==> BookOk(positions)
    {
      if p.IsFlat() {
        positions := positions - {p.conId};
        return;
      }
      positions := positions[p.conId := p];
    }

    /** Applies one execution; the result is the position left, or None when it is flat. */
    method ApplyFill(f: BrokerFill) returns (left: Option<Position>)
      modifies this
      ensures Costs(old(positions), f, left)
      ensures forall c :: c != f.conId ==> (c in positions <==> c in old(positions)) && (c in positions ==> positions[c] == old(positions)[c])
      ensures positions == AfterFill(old(positions), f)
      ensures left == Held(positions, f.conId)
    {
      var delta := f.quantity * f.side.Sign();
      var existing := Held(positions, f.conId);
      var previous := if existing.Some? then existing.value.quantity else 0;
      if previous + delta == 0 {
        positions := positions - {f.conId};
        return None;
      }
      var cost: real;
      if existing.None? || previous == 0 {
        cost := f.price;
      } else if (previous > 0) == (delta > 0) {
        cost := Weighted(existing.value.averageCost, Abs(previous), f.price, Abs(delta));
      } else {
        cost := existing.value.averageCost;
      }
      CostIsExact(positions, f);
      var updated := Position(f.conId, f.symbol, previous + delta, cost);
      positions := positions[f.conId := updated];
      left := Some(updated);
    }
  }

  // ----- quantities -----

  function AfterFills(book: Book, fs: seq<BrokerFill>): Book {
    if fs == [] then book else AfterFill(AfterFills(book, fs[..|fs| - 1]), fs[|fs| - 1])
  }

  /** Signed sum of a contract's fills. */
  function Net(fs: seq<BrokerFill>, conId: int): int {
    if fs == [] then 0
    else Net(fs[..|fs| - 1], conId) + if fs[|fs| - 1].conId == conId then fs[|fs| - 1].Delta() else 0
  }

  /** Fills move every contract by exactly their signed sum, whatever their order or direction. */
  lemma {:induction false} FillsConserve(book: Book, fs: seq<BrokerFill>)
    ensures forall c :: Quantity(AfterFills(book, fs), c) == Quantity(book, c) + Net(fs, c)
    ensures BookOk(book) ==> BookOk(AfterFills(book, fs))
  {
    if fs != [] { FillsConserve(book, fs[..|fs| - 1]); }
  }

  lemma {:induction false} NetConcat(a: seq<BrokerFill>, b: seq<BrokerFill>, conId: int)
    ensures Net(a + b, conId) == Net(a, conId) + Net(b, conId)
  {
    if b == [] {
      assert a + b == a;
    } else {
      assert (a + b)[..|a + b| - 1] == a + b[..|b| - 1];
      NetConcat(a, b[..|b| - 1], conId);
    }
  }

  /** Net quantity per contract of a list of fills, as a dictionary built in one pass. */
  method FillsToPositionDeltas(fs: seq<BrokerFill>) returns (deltas: map<int, int>)
    ensures forall c :: c in deltas <==> exists i :: 0 <= i < |fs| && fs[i].conId == c
    ensures forall c :: c in deltas ==> deltas[c] == Net(fs, c)
    ensures forall c :: c !in deltas ==> Net(fs, c) == 0
  {
    deltas := map[];
    for n := 0 to |fs|
      invariant forall c :: c in deltas <==> exists i :: 0 <= i < n && fs[i].conId == c
      invariant forall c :: (if c in deltas then deltas[c] else 0) == Net(fs[..n], c)
    {
      var f := fs[n];
      assert fs[..n + 1][..n] == fs[..n];
      deltas := deltas[f.conId := (if f.conId in deltas then deltas[f.conId] else 0) + f.quantity * f.side.Sign()];
    }
    assert fs[..|fs|] == fs;
  }

  // ----- average cost -----

  /** Every cost of the contract in the book lies in [lo, hi]. */
  predicate CostWithin(book: Book, conId: int, lo: real, hi: real) {
    conId in book ==> lo <= book[conId].averageCost <= hi
  }

  lemma WeightedWithin(x: real, a: nat, y: real, b: nat, lo: real, hi: real)
    requires a + b > 0 && lo <= x <= hi && lo <= y <= hi
    ensures lo <= Weighted(x, a, y, b) <= hi
  {
    MixWithin(x, a as real, y, b as real, lo, hi);
    QuotientBounds(x * a as real + y * b as real, (a + b) as real, lo, hi);
  }

  lemma MixWithin(x: real, a: real, y: real, b: real, lo: real, hi: real)
    requires a >= 0.0 && b >= 0.0 && lo <= x <= hi && lo <= y <= hi
    ensures lo * (a + b) <= x * a + y * b <= hi * (a + b)
  {
    MixMonotone(lo, x, a, lo, y, b);
    MixMonotone(x, hi, a, y, hi, b);
    Distributes(lo, a, b);
    Distributes(hi, a, b);
  }

  lemma MixMonotone(x: real, x': real, a: real, y: real, y': real, b: real)
    requires a >= 0.0 && b >= 0.0 && x <= x' && y <= y'
    ensures x * a + y * b <= x' * a + y' * b
  {
    Scaled(x, x', a);
    Scaled(y, y', b);
  }

  lemma Distributes(k: real, a: real, b: real)
    ensures k * (a + b) == k * a + k * b
  {}

  lemma Scaled(x: real, y: real, k: real)
    requires x <= y && k >= 0.0
    ensures x * k <= y * k
  {}

  lemma QuotientBounds(t: real, n: real, lo: real, hi: real)
    requires n > 0.0 && lo * n <= t <= hi * n
    ensures lo <= t / n <= hi
  {
    assert t / n * n == t;
  }

  /**
   * Through additions, reductions and reversals alike, a contract's average cost never leaves the
   * range spanned by what it was seeded with and the prices it traded at.
   */
  lemma {:induction false} CostStaysWithinPrices(book: Book, fs: seq<BrokerFill>, conId: int, lo: real, hi: real)
    requires CostWithin(book, conId, lo, hi)
    requires forall f :: f in fs && f.conId == conId ==> lo <= f.price <= hi
    ensures CostWithin(AfterFills(book, fs), conId, lo, hi)
  {
    if fs != [] {
      var f := fs[|fs| - 1];
      var before := AfterFills(book, fs[..|fs| - 1]);
      CostStaysWithinPrices(book, fs[..|fs| - 1], conId, lo, hi);
      assert f in fs;
      if f.conId == conId { CostStep(before, f, lo, hi); }
    }
  }

  lemma CostStep(book: Book, f: BrokerFill, lo: real, hi: real)
    requires CostWithin(book, f.conId, lo, hi) && lo <= f.price <= hi
    ensures CostWithin(AfterFill(book, f), f.conId, lo, hi)
  {
    if f.conId in book && book[f.conId].quantity != 0 {
      var p := book[f.conId];
      WeightedWithin(p.averageCost, Abs(p.quantity), f.price, Abs(f.Delta()), lo, hi);
    }
  }

  // ----- turnover -----

  /** What a run of fills traded of a contract, in money. */
  function Turnover(fs: seq<BrokerFill>, conId: int): real {
    if fs == [] then 0.0
    else Turnover(fs[..|fs| - 1], conId)
         + if fs[|fs| - 1].conId == conId then fs[|fs| - 1].price * fs[|fs| - 1].quantity as real else 0.0
  }

  /** Every fill of the contract is of this side and of a positive size. */
  ghost predicate OneWay(fs: seq<BrokerFill>, conId: int, side: OrderSide) {
    forall f :: f in fs && f.conId == conId ==> f.side == side && f.quantity > 0
  }

  /** The contract is held on this side at a total cost, or not at all and the total is zero. */
  ghost predicate Carries(book: Book, conId: int, side: OrderSide, total: real) {
    if conId in book then
      && book[conId].averageCost * Abs(book[conId].quantity) as real == total
      && (if side.Buy? then book[conId].quantity > 0 else book[conId].quantity < 0)
    else total == 0.0
  }

  lemma AdditionCarries(book: Book, f: BrokerFill, total: real)
    requires Carries(book, f.conId, f.side, total) && f.quantity > 0
    ensures Carries(AfterFill(book, f), f.conId, f.side, total + f.price * f.quantity as real)
  {
    CostIsExact(book, f);
    assert Abs(f.Delta()) == f.quantity;
    hide NextCost, Weighted;
  }

  lemma OtherCarries(book: Book, f: BrokerFill, conId: int, side: OrderSide, total: real)
    requires Carries(book, conId, side, total) && f.conId != conId
    ensures Carries(AfterFill(book, f), conId, side, total)
  {
    hide NextCost;
  }

  /** Over any run of additions from flat, a contract's average cost times its size is exactly what was traded of it. */
  lemma {:induction false} AdditionsCostTheirTurnover(book: Book, fs: seq<BrokerFill>, conId: int, side: OrderSide)
    requires conId !in book && OneWay(fs, conId, side)
    ensures Carries(AfterFills(book, fs), conId, side, Turnover(fs, conId))
  {
    if fs != [] {
      hide AfterFill, Carries;
      var init, f := fs[..|fs| - 1], fs[|fs| - 1];
      assert f in fs && forall g :: g in init ==> g in fs;
      AdditionsCostTheirTurnover(book, init, conId, side);
      if f.conId == conId {
        AdditionCarries(AfterFills(book, init), f, Turnover(init, conId));
      } else {
        OtherCarries(AfterFills(book, init), f, conId, side, Turnover(init, conId));
      }
    } else {
      hide AfterFill;
    }
  }
}
