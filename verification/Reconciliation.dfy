/** Comparing what the broker holds with what this system believes it holds. */
module Reconciliation {
  import opened Enums
  import opened Positions
  import opened Sorting

  datatype PositionDiscrepancy = PositionDiscrepancy(conId: int, symbol: string, local: int, broker: int) {
    function Delta(): int { broker - local }
  }

  datatype Kind = UnknownLocally | UnknownAtBroker

  datatype OrderDiscrepancy = OrderDiscrepancy(id: string, symbol: string, kind: Kind)

  /** One entry of the list of working orders the broker answers with. */
  datatype Working = Working(brokerOrderId: string, symbol: string)

  /** A local open order, as (internal id, broker id, symbol). */
  datatype LocalOpen = LocalOpen(internalId: string, brokerOrderId: Option<string>, symbol: string)

  datatype Result = Result(
    positionsReconciled: bool,
    ordersReconciled: bool,
    accountAvailable: bool,
    positionDiscrepancies: seq<PositionDiscrepancy>,
    orderDiscrepancies: seq<OrderDiscrepancy>,
    fillsSeen: nat,
    errors: seq<string>,
    brokerPositions: seq<Position>)
  {
    predicate Succeeded() {
      positionsReconciled && ordersReconciled && accountAvailable && errors == []
    }
  }

  /** The result before any reconciliation, and after a disconnect. */
  const NOTHING_RECONCILED := Result(false, false, false, [], [], 0, [], [])

  // ----- positions -----

  /** {p.con_id: p for p in positions}: a later entry for a contract wins, flat ones included. */
  function ById(ps: seq<Position>): Book {
    if ps == [] then map[] else ById(ps[..|ps| - 1])[ps[|ps| - 1].conId := ps[|ps| - 1]]
  }

  function Disagreement(conId: int, broker: Book, local: Book): PositionDiscrepancy {
    PositionDiscrepancy(
      conId,
      if conId in broker then broker[conId].symbol else if conId in local then local[conId].symbol else "?",
      Quantity(local, conId),
      Quantity(broker, conId))
  }

  function Disagreements(ids: seq<int>, broker: Book, local: Book): seq<PositionDiscrepancy> {
    if ids == [] then []
    else
      var c := ids[|ids| - 1];
      Disagreements(ids[..|ids| - 1], broker, local)
      + if Quantity(broker, c) != Quantity(local, c) then [Disagreement(c, broker, local)] else []
  }

  function PositionDiscrepancies(book: Book, ps: seq<Position>): seq<PositionDiscrepancy> {
    Disagreements(Sorted(ById(ps).Keys + book.Keys), ById(ps), book)
  }

  /** Entry `i` is the last of its contract. */
  ghost predicate LastListed(ps: seq<Position>, i: nat) {
    i < |ps| && forall j :: i < j < |ps| ==> ps[j].conId != ps[i].conId
  }

  /** The entry a list has for a contract is its last one, flat or not. */
  lemma {:induction false} LastListedWins(ps: seq<Position>, c: int)
    ensures c in ById(ps) <==> exists i: nat :: LastListed(ps, i) && ps[i].conId == c
    ensures c in ById(ps) ==> exists i: nat :: LastListed(ps, i) && ps[i].conId == c && ById(ps)[c] == ps[i]
  {
    if ps != [] {
      var init, last := ps[..|ps| - 1], |ps| - 1;
      LastListedWins(init, c);
      if ps[last].conId == c {
        assert LastListed(ps, last);
      } else {
        forall i: nat | LastListed(ps, i) && ps[i].conId == c ensures LastListed(init, i) {}
        if i: nat :| LastListed(init, i) && init[i].conId == c && (c in ById(init) ==> ById(init)[c] == init[i]) {
          assert LastListed(ps, i);
        }
      }
    }
  }

  method IndexById(ps: seq<Position>) returns (byId: Book)
    ensures byId == ById(ps)
  {
    byId := map[];
    for i := 0 to |ps|
      invariant byId == ById(ps[..i])
    {
      assert ps[..i + 1][..i] == ps[..i];
      byId := byId[ps[i].conId := ps[i]];
    }
    assert ps[..|ps|] == ps;
  }

  method CompareOver(ids: seq<int>, broker: Book, local: Book) returns (discrepancies: seq<PositionDiscrepancy>)
    ensures discrepancies == Disagreements(ids, broker, local)
  {
    discrepancies := [];
    for i := 0 to |ids|
      invariant discrepancies == Disagreements(ids[..i], broker, local)
    {
      assert ids[..i + 1][..i] == ids[..i];
      var c := ids[i];
      var brokerQuantity := if c in broker then broker[c].quantity else 0;
      var localQuantity := if c in local then local[c].quantity else 0;
      if brokerQuantity != localQuantity {
        var symbol := if c in broker then broker[c].symbol else if c in local then local[c].symbol else "?";
        discrepancies := discrepancies + [PositionDiscrepancy(c, symbol, localQuantity, brokerQuantity)];
      }
    }
    assert ids[..|ids|] == ids;
  }

  method ComparePositions(book: Book, ps: seq<Position>) returns (discrepancies: seq<PositionDiscrepancy>)
    ensures discrepancies == PositionDiscrepancies(book, ps)
  {
    var brokerById := IndexById(ps);
    discrepancies := CompareOver(Sorted(brokerById.Keys + book.Keys), brokerById, book);
  }

  /** The report of a comparison over `ids`: one entry for each disagreeing contract, in order. */
  ghost predicate ReportsExactly(ds: seq<PositionDiscrepancy>, ids: seq<int>, broker: Book, local: Book) {
    && (forall i, j :: 0 <= i < j < |ds| ==> ds[i].conId < ds[j].conId)
    && (forall d :: d in ds ==>
          && d.conId in ids
          && d.local == Quantity(local, d.conId) != Quantity(broker, d.conId) == d.broker)
    && (forall c :: c in ids && Quantity(broker, c) != Quantity(local, c) ==> exists d :: d in ds && d.conId == c)
  }

  lemma {:induction false} DisagreementsAreExact(ids: seq<int>, broker: Book, local: Book)
    requires forall i, j :: 0 <= i < j < |ids| ==> ids[i] < ids[j]
    ensures ReportsExactly(Disagreements(ids, broker, local), ids, broker, local)
  {
    if ids != [] {
      var init, c := ids[..|ids| - 1], ids[|ids| - 1];
      DisagreementsAreExact(init, broker, local);
      var before, ds := Disagreements(init, broker, local), Disagreements(ids, broker, local);
      assert forall x :: x in ids <==> x in init || x == c;
      forall d | d in before ensures d in ds && d.conId < c { assert d.conId in init; }
      forall x | x in ids && Quantity(broker, x) != Quantity(local, x) ensures exists d :: d in ds && d.conId == x {
        if x == c {
          assert Disagreement(c, broker, local) in ds;
        } else {
          var d :| d in before && d.conId == x;
          assert d in ds;
        }
      }
    }
  }

  /**
   * A position comparison reports, in contract order, exactly one discrepancy for every contract on
   * which broker and book differ, with both quantities; so it is clean exactly when they agree on
   * every contract there is.
   */
  lemma ComparisonIsExact(book: Book, ps: seq<Position>)
    ensures var ds := PositionDiscrepancies(book, ps);
            && (forall i, j :: 0 <= i < j < |ds| ==> ds[i].conId < ds[j].conId)
            && (forall d :: d in ds ==> d.Delta() == Quantity(ById(ps), d.conId) - Quantity(book, d.conId) != 0)
            && (forall c :: Quantity(ById(ps), c) != Quantity(book, c) ==> exists d :: d in ds && d.conId == c)
    ensures PositionDiscrepancies(book, ps) == [] <==> forall c :: Quantity(ById(ps), c) == Quantity(book, c)
  {
    var ids := Sorted(ById(ps).Keys + book.Keys);
    DisagreementsAreExact(ids, ById(ps), book);
    var ds := PositionDiscrepancies(book, ps);
    forall c | Quantity(ById(ps), c) != Quantity(book, c) ensures exists d :: d in ds && d.conId == c {
      assert c in ById(ps).Keys + book.Keys;
    }
    if ds != [] { assert ds[0] in ds; }
  }

  /** Each entry gives both quantities, and the broker's name for the contract where it has one, the book's where not. */
  ghost predicate SaysWhat(d: PositionDiscrepancy, broker: Book, local: Book) {
    && d.local == Quantity(local, d.conId) && d.broker == Quantity(broker, d.conId)
    && (d.conId in broker ==> d.symbol == broker[d.conId].symbol)
    && (d.conId !in broker && d.conId in local ==> d.symbol == local[d.conId].symbol)
  }

  lemma {:induction false} DisagreementsSayWhat(ids: seq<int>, broker: Book, local: Book)
    ensures forall d :: d in Disagreements(ids, broker, local) ==> SaysWhat(d, broker, local)
  {
    if ids != [] { DisagreementsSayWhat(ids[..|ids| - 1], broker, local); }
  }

  // ----- orders -----

  function WorkingIds(working: seq<Working>): set<string> { set w | w in working :: w.brokerOrderId }

  function LocalIds(local: seq<LocalOpen>): set<string> {
    set l | l in local && l.brokerOrderId.Some? :: l.brokerOrderId.value
  }

  function Unknown(working: seq<Working>, localIds: set<string>): seq<OrderDiscrepancy> {
    if working == [] then []
    else
      var w := working[|working| - 1];
      Unknown(working[..|working| - 1], localIds)
      + if w.brokerOrderId !in localIds then [OrderDiscrepancy(w.brokerOrderId, w.symbol, UnknownLocally)] else []
  }

  function Missing(local: seq<LocalOpen>, brokerIds: set<string>): seq<OrderDiscrepancy> {
    if local == [] then []
    else
      var l := local[|local| - 1];
      Missing(local[..|local| - 1], brokerIds)
      + if l.brokerOrderId.None? then [OrderDiscrepancy(l.internalId, l.symbol, UnknownAtBroker)]
        else if l.brokerOrderId.value !in brokerIds then [OrderDiscrepancy(l.brokerOrderId.value, l.symbol, UnknownAtBroker)]
        else []
  }

  function OrderDiscrepancies(working: seq<Working>, local: seq<LocalOpen>): seq<OrderDiscrepancy> {
    Unknown(working, LocalIds(local)) + Missing(local, WorkingIds(working))
  }

  method CompareOrders(working: seq<Working>, local: seq<LocalOpen>) returns (discrepancies: seq<OrderDiscrepancy>)
    ensures discrepancies == OrderDiscrepancies(working, local)
  {
    var brokerIds, localIds := WorkingIds(working), LocalIds(local);
    discrepancies := [];
    for i := 0 to |working|
      invariant discrepancies == Unknown(working[..i], localIds)
    {
      assert working[..i + 1][..i] == working[..i];
      if working[i].brokerOrderId !in localIds {
        discrepancies := discrepancies + [OrderDiscrepancy(working[i].brokerOrderId, working[i].symbol, UnknownLocally)];
      }
    }
    assert working[..|working|] == working;
    for i := 0 to |local|
      invariant discrepancies == Unknown(working, localIds) + Missing(local[..i], brokerIds)
    {
      assert local[..i + 1][..i] == local[..i];
      var l := local[i];
      if l.brokerOrderId.None? {
        discrepancies := discrepancies + [OrderDiscrepancy(l.internalId, l.symbol, UnknownAtBroker)];
      } else if l.brokerOrderId.value !in brokerIds {
        discrepancies := discrepancies + [OrderDiscrepancy(l.brokerOrderId.value, l.symbol, UnknownAtBroker)];
      }
    }
    assert local[..|local|] == local;
  }

  lemma {:induction false} UnknownIsExact(working: seq<Working>, localIds: set<string>)
    ensures forall d :: d in Unknown(working, localIds) ==>
              d.kind == UnknownLocally && d.id in WorkingIds(working) && d.id !in localIds
    ensures forall w :: w in working && w.brokerOrderId !in localIds ==>
              OrderDiscrepancy(w.brokerOrderId, w.symbol, UnknownLocally) in Unknown(working, localIds)
  {
    if working != [] {
      var init, w := working[..|working| - 1], working[|working| - 1];
      UnknownIsExact(init, localIds);
      assert working == init + [w];
      assert w in working && WorkingIds(init) <= WorkingIds(working);
    }
  }

  lemma {:induction false} MissingIsExact(local: seq<LocalOpen>, brokerIds: set<string>)
    ensures Missing(local, brokerIds) == []
            <==> forall l :: l in local ==> l.brokerOrderId.Some? && l.brokerOrderId.value in brokerIds
    ensures forall d :: d in Missing(local, brokerIds) ==> d.kind == UnknownAtBroker
  {
    if local != [] {
      var init, l := local[..|local| - 1], local[|local| - 1];
      MissingIsExact(init, brokerIds);
      assert local == init + [l];
    }
  }

  /** The local order is missing at the broker: without an id, or under one the broker does not work. */
  predicate Absent(l: LocalOpen, brokerIds: set<string>) { l.brokerOrderId.None? || l.brokerOrderId.value !in brokerIds }

  /** The local orders that are missing, in order. */
  function Absentees(local: seq<LocalOpen>, brokerIds: set<string>): seq<LocalOpen> {
    if local == [] then []
    else Absentees(local[..|local| - 1], brokerIds)
         + if Absent(local[|local| - 1], brokerIds) then [local[|local| - 1]] else []
  }

  /** The working orders that are not known here, in order. */
  function Strangers(working: seq<Working>, localIds: set<string>): seq<Working> {
    if working == [] then []
    else Strangers(working[..|working| - 1], localIds)
         + if working[|working| - 1].brokerOrderId !in localIds then [working[|working| - 1]] else []
  }

  /**
   * One entry per missing order, in order, with its symbol: under the broker's id where there is one, under the internal
   * id where there is none; and one entry per unknown working order, in order, under its id.
   */
  lemma {:induction false} EachIsReportedOnce(local: seq<LocalOpen>, working: seq<Working>, brokerIds: set<string>, localIds: set<string>)
    ensures var ms, ls := Missing(local, brokerIds), Absentees(local, brokerIds);
            |ms| == |ls| && forall i :: 0 <= i < |ms| ==>
              && ms[i].kind == UnknownAtBroker && ms[i].symbol == ls[i].symbol
              && ms[i].id == if ls[i].brokerOrderId.Some? then ls[i].brokerOrderId.value else ls[i].internalId
    ensures var us, ws := Unknown(working, localIds), Strangers(working, localIds);
            |us| == |ws| && forall i :: 0 <= i < |us| ==>
              us[i].kind == UnknownLocally && us[i].symbol == ws[i].symbol && us[i].id == ws[i].brokerOrderId
    decreases |local| + |working|
  {
    if local != [] {
      EachIsReportedOnce(local[..|local| - 1], working, brokerIds, localIds);
    } else if working != [] {
      EachIsReportedOnce(local, working[..|working| - 1], brokerIds, localIds);
    }
  }

  lemma Inhabited<T>(ts: seq<T>)
    ensures ts == [] <==> forall t :: t !in ts
  {
    if ts != [] { assert ts[0] in ts; }
  }

  /**
   * An order comparison is clean exactly when every local open order has a broker id and the two id
   * sets are equal; an id is reported as unknown locally exactly when only the broker has it.
   */
  lemma OrderComparisonIsExact(working: seq<Working>, local: seq<LocalOpen>)
    ensures OrderDiscrepancies(working, local) == []
            <==> (forall l :: l in local ==> l.brokerOrderId.Some?) && WorkingIds(working) == LocalIds(local)
    ensures forall x :: x in WorkingIds(working) - LocalIds(local)
                        <==> exists d :: d in OrderDiscrepancies(working, local) && d.kind == UnknownLocally && d.id == x
  {
    var brokerIds, localIds := WorkingIds(working), LocalIds(local);
    UnknownIsExact(working, localIds);
    MissingIsExact(local, brokerIds);
    var us, ms := Unknown(working, localIds), Missing(local, brokerIds);
    var all := OrderDiscrepancies(working, local);
    assert forall d :: d in all <==> d in us || d in ms;
    forall x | x in brokerIds - localIds ensures exists d :: d in all && d.kind == UnknownLocally && d.id == x {
      var w :| w in working && w.brokerOrderId == x;
      assert OrderDiscrepancy(w.brokerOrderId, w.symbol, UnknownLocally) in all;
    }
    Inhabited(us);
    if all == [] {
      assert brokerIds - localIds == {};
      assert localIds <= brokerIds;
    }
    if brokerIds == localIds && forall l :: l in local ==> l.brokerOrderId.Some? {
      forall l | l in local ensures l.brokerOrderId.value in brokerIds { assert l.brokerOrderId.value in localIds; }
    }
  }

  // ----- the whole comparison -----

  function Compare(book: Book, ps: seq<Position>, working: seq<Working>, local: seq<LocalOpen>,
                   fillsSeen: nat, accountAvailable: bool): Result
  {
    var pd, od := PositionDiscrepancies(book, ps), OrderDiscrepancies(working, local);
    Result(pd == [], od == [], accountAvailable, pd, od, fillsSeen, [], ps)
  }

  method Reconcile(book: Book, ps: seq<Position>, working: seq<Working>, local: seq<LocalOpen>,
                   fillsSeen: nat, accountAvailable: bool) returns (result: Result)
    ensures result == Compare(book, ps, working, local, fillsSeen, accountAvailable)
    ensures result.Succeeded() <==>
              && accountAvailable
              && (forall c :: Quantity(ById(ps), c) == Quantity(book, c))
              && (forall l :: l in local ==> l.brokerOrderId.Some?)
              && WorkingIds(working) == LocalIds(local)
  {
    var positionDiscrepancies := ComparePositions(book, ps);
    var orderDiscrepancies := CompareOrders(working, local);
    result := Result(positionDiscrepancies == [], orderDiscrepancies == [], accountAvailable,
                     positionDiscrepancies, orderDiscrepancies, fillsSeen, [], ps);
    ComparisonIsExact(book, ps);
    OrderComparisonIsExact(working, local);
  }

  // ----- adoption -----

  /** With one entry per contract, adopting a list gives every contract the quantity compared. */
  lemma {:induction false} AdoptionKeepsQuantities(ps: seq<Position>)
    requires DistinctContracts(ps)
    ensures forall c :: Quantity(FromPositions(ps), c) == Quantity(ById(ps), c)
    ensures forall c :: c in FromPositions(ps) ==> exists i :: 0 <= i < |ps| && ps[i].conId == c
    ensures BookOk(FromPositions(ps))
  {
    if ps != [] {
      var init, p := ps[..|ps| - 1], ps[|ps| - 1];
      AdoptionKeepsQuantities(init);
      assert p.conId !in FromPositions(init);
      forall c ensures Quantity(FromPositions(ps), c) == Quantity(ById(ps), c) {
        if c != p.conId { assert Quantity(FromPositions(init), c) == Quantity(ById(init), c); }
      }
      forall c | c in FromPositions(ps) ensures exists i :: 0 <= i < |ps| && ps[i].conId == c {
        if c in FromPositions(init) {
          var i :| 0 <= i < |init| && init[i].conId == c;
          assert ps[i].conId == c;
        } else {
          assert ps[|ps| - 1].conId == c;
        }
      }
    }
  }
}
