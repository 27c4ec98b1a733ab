/** The `orders` table as rows in insertion order, and the queries the order repository runs on it. */
module OrderTable {
  import opened Enums
  import opened Orders

  type Rows = seq<OrderRow>

  // ----- statements -----

  /** The columns an UPDATE writes; identity and terms are never rewritten. */
  function Merge(stored: OrderRow, r: OrderRow): OrderRow {
    stored.(updatedAt := r.updatedAt, transmittedAt := r.transmittedAt, status := r.status,
            brokerOrderId := r.brokerOrderId, filledQuantity := r.filledQuantity,
            averageFillPrice := r.averageFillPrice, errorCode := r.errorCode, blockReasons := r.blockReasons)
  }

  /** UPDATE orders SET ... WHERE internal_order_id = r.internalId */
  function Update(rows: Rows, r: OrderRow): Rows {
    if rows == [] then []
    else Update(rows[..|rows| - 1], r)
         + [if rows[|rows| - 1].internalId == r.internalId then Merge(rows[|rows| - 1], r) else rows[|rows| - 1]]
  }

  // ----- queries -----

  function FindKey(rows: Rows, key: Key): Option<OrderRow> {
    if rows == [] then None
    else match FindKey(rows[..|rows| - 1], key)
      case Some(r) => Some(r)
      case None => if rows[|rows| - 1].key == key then Some(rows[|rows| - 1]) else None
  }

  function FindBroker(rows: Rows, brokerId: string): Option<OrderRow> {
    if rows == [] then None
    else match FindBroker(rows[..|rows| - 1], brokerId)
      case Some(r) => Some(r)
      case None => if rows[|rows| - 1].brokerOrderId == Some(brokerId) then Some(rows[|rows| - 1]) else None
  }

  /** SELECT * FROM orders WHERE status IN (the five open statuses) */
  function OpenRows(rows: Rows): Rows {
    if rows == [] then []
    else OpenRows(rows[..|rows| - 1]) + if rows[|rows| - 1].IsOpen() then [rows[|rows| - 1]] else []
  }

  /** SELECT COUNT(*) FROM orders WHERE transmitted_at IS NOT NULL AND transmitted_at >= since */
  function CountSince(rows: Rows, since: int): nat {
    if rows == [] then 0
    else CountSince(rows[..|rows| - 1], since)
         + if rows[|rows| - 1].transmittedAt.Some? && rows[|rows| - 1].transmittedAt.value >= since then 1 else 0
  }

  /** How many transmission stamps lie in the closed window [lo, hi]. */
  function StampsWithin(rows: Rows, lo: int, hi: int): nat {
    if rows == [] then 0
    else StampsWithin(rows[..|rows| - 1], lo, hi)
         + if rows[|rows| - 1].transmittedAt.Some? && lo <= rows[|rows| - 1].transmittedAt.value <= hi then 1 else 0
  }

  // ----- what the unique index and the primary key guarantee -----

  ghost predicate Distinct(rows: Rows) {
    forall i, j :: 0 <= i < j < |rows| ==> rows[i].internalId != rows[j].internalId && rows[i].key != rows[j].key
  }

  /** An UPDATE of a row that is present rewrites exactly that row. */
  lemma {:induction false} UpdateAt(rows: Rows, r: OrderRow, i: nat)
    requires Distinct(rows) && i < |rows| && rows[i].internalId == r.internalId
    ensures Update(rows, r) == rows[i := Merge(rows[i], r)]
  {
    var n := |rows| - 1;
    if i == n {
      UpdateAbsent(rows[..n], r);
    } else {
      UpdateAt(rows[..n], r, i);
    }
  }

  lemma {:induction false} UpdateAbsent(rows: Rows, r: OrderRow)
    requires forall j :: 0 <= j < |rows| ==> rows[j].internalId != r.internalId
    ensures Update(rows, r) == rows
  {
    if rows != [] { UpdateAbsent(rows[..|rows| - 1], r); }
  }

  lemma {:induction false} UpdateShape(rows: Rows, r: OrderRow)
    ensures |Update(rows, r)| == |rows|
    ensures forall i :: 0 <= i < |rows| ==>
              Update(rows, r)[i] == if rows[i].internalId == r.internalId then Merge(rows[i], r) else rows[i]
  {
    if rows != [] { UpdateShape(rows[..|rows| - 1], r); }
  }

  /** FindKey finds a row exactly when one carries the key. */
  lemma {:induction false} FindKeySound(rows: Rows, key: Key)
    ensures FindKey(rows, key).Some? ==> exists i :: 0 <= i < |rows| && rows[i] == FindKey(rows, key).value && rows[i].key == key
    ensures FindKey(rows, key).None? ==> forall i :: 0 <= i < |rows| ==> rows[i].key != key
  {
    if rows != [] {
      var init := rows[..|rows| - 1];
      FindKeySound(init, key);
      if FindKey(init, key).Some? {
        var i :| 0 <= i < |init| && init[i] == FindKey(init, key).value && init[i].key == key;
        assert rows[i] == FindKey(rows, key).value;
      }
    }
  }

  lemma {:induction false} FindKeyAt(rows: Rows, i: nat)
    requires Distinct(rows) && i < |rows|
    ensures FindKey(rows, rows[i].key) == Some(rows[i])
  {
    FindKeySound(rows, rows[i].key);
  }

  lemma {:induction false} FindBrokerSound(rows: Rows, id: string)
    ensures FindBroker(rows, id).Some? ==>
              exists i :: 0 <= i < |rows| && rows[i] == FindBroker(rows, id).value && rows[i].brokerOrderId == Some(id)
    ensures FindBroker(rows, id).None? ==> forall i :: 0 <= i < |rows| ==> rows[i].brokerOrderId != Some(id)
  {
    if rows != [] {
      var init := rows[..|rows| - 1];
      FindBrokerSound(init, id);
      if FindBroker(init, id).Some? {
        var i :| 0 <= i < |init| && init[i] == FindBroker(init, id).value && init[i].brokerOrderId == Some(id);
        assert rows[i] == FindBroker(rows, id).value;
      }
    }
  }

  lemma {:induction false} OpenRowsAre(rows: Rows)
    ensures forall r :: r in OpenRows(rows) <==> r in rows && r.IsOpen()
  {
    if rows != [] {
      OpenRowsAre(rows[..|rows| - 1]);
      assert rows == rows[..|rows| - 1] + [rows[|rows| - 1]];
    }
  }

  // ----- how the counters move -----

  function One(b: bool): int { if b then 1 else 0 }

  lemma {:induction false} OpenCountReplaced(rows: Rows, i: nat, r: OrderRow)
    requires i < |rows|
    ensures |OpenRows(rows[i := r])| == |OpenRows(rows)| - One(rows[i].IsOpen()) + One(r.IsOpen())
  {
    var n := |rows| - 1;
    assert rows[i := r][..n] == if i == n then rows[..n] else rows[..n][i := r];
    if i < n { OpenCountReplaced(rows[..n], i, r); }
  }

  predicate StampIn(r: OrderRow, lo: int, hi: int) {
    r.transmittedAt.Some? && lo <= r.transmittedAt.value <= hi
  }

  lemma {:induction false} StampsReplaced(rows: Rows, i: nat, r: OrderRow, lo: int, hi: int)
    requires i < |rows|
    ensures StampsWithin(rows[i := r], lo, hi)
         == StampsWithin(rows, lo, hi) - One(StampIn(rows[i], lo, hi)) + One(StampIn(r, lo, hi))
  {
    var n := |rows| - 1;
    assert rows[i := r][..n] == if i == n then rows[..n] else rows[..n][i := r];
    if i < n { StampsReplaced(rows[..n], i, r, lo, hi); }
  }

  /** The repository's count from an instant on bounds the stamps of every window that starts later. */
  lemma {:induction false} WindowBelowCount(rows: Rows, since: int, lo: int, hi: int)
    requires since <= lo
    ensures StampsWithin(rows, lo, hi) <= CountSince(rows, since)
  {
    if rows != [] { WindowBelowCount(rows[..|rows| - 1], since, lo, hi); }
  }
}
