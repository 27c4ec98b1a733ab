/** Which of a batch of broker fills are new, and why re-reading them is harmless. */
module Ingestion {
  import opened Enums
  import opened Positions

  function IdsOf(fs: seq<BrokerFill>): set<string> { set f | f in fs :: f.executionId }

  /** The fills of a batch that are recorded: the first of each execution id not known before. */
  function NewFills(batch: seq<BrokerFill>, known: set<string>): seq<BrokerFill> {
    if batch == [] then []
    else
      var f := batch[|batch| - 1];
      var earlier := NewFills(batch[..|batch| - 1], known);
      if f.executionId in known || f.executionId in IdsOf(batch[..|batch| - 1]) then earlier else earlier + [f]
  }

  lemma IdsOfSnoc(fs: seq<BrokerFill>, f: BrokerFill)
    ensures IdsOf(fs + [f]) == IdsOf(fs) + {f.executionId}
  {
    assert forall g :: g in fs + [f] <==> g in fs || g == f;
  }

  /** A pass leaves known exactly what was known before and what the batch carried. */
  lemma {:induction false} NewFillsIds(batch: seq<BrokerFill>, known: set<string>)
    ensures IdsOf(NewFills(batch, known)) == IdsOf(batch) - known
    ensures forall f :: f in NewFills(batch, known) ==> f in batch
  {
    if batch != [] {
      var init, f := batch[..|batch| - 1], batch[|batch| - 1];
      NewFillsIds(init, known);
      IdsOfSnoc(init, f);
      IdsOfSnoc(NewFills(init, known), f);
      assert init + [f] == batch;
    }
  }

  /** Two passes find what one pass over both batches finds: overlap is not counted twice. */
  lemma {:induction false} PassesCompose(a: seq<BrokerFill>, b: seq<BrokerFill>, known: set<string>)
    ensures NewFills(a + b, known) == NewFills(a, known) + NewFills(b, known + IdsOf(a))
  {
    if b == [] {
      assert a + b == a;
    } else {
      var init, f := b[..|b| - 1], b[|b| - 1];
      assert (a + b)[..|a + b| - 1] == a + init;
      PassesCompose(a, init, known);
      assert IdsOf(a + init) == IdsOf(a) + IdsOf(init) by {
        assert forall g :: g in a + init <==> g in a || g in init;
      }
    }
  }

  /** Reading a batch again finds nothing. */
  lemma RereadIsEmpty(batch: seq<BrokerFill>, known: set<string>)
    requires IdsOf(batch) <= known
    ensures NewFills(batch, known) == []
  {
    NewFillsIds(batch, known);
    var news := NewFills(batch, known);
    assert news == [] || news[0].executionId in IdsOf(news);
  }

  // ----- the order of a batch does not matter -----

  /** The same execution id always means the same fill. */
  ghost predicate Functional(fs: set<BrokerFill>) {
    forall f, g :: f in fs && g in fs && f.executionId == g.executionId ==> f == g
  }

  ghost predicate NoRepeats(fs: seq<BrokerFill>) {
    forall i, j :: 0 <= i < j < |fs| ==> fs[i] != fs[j]
  }

  function SetOf(fs: seq<BrokerFill>): set<BrokerFill> { set f | f in fs }

  lemma {:induction false} NewFillsNoRepeats(batch: seq<BrokerFill>, known: set<string>)
    ensures NoRepeats(NewFills(batch, known))
  {
    if batch != [] {
      var init := batch[..|batch| - 1];
      NewFillsNoRepeats(init, known);
      NewFillsIds(init, known);
      var earlier := NewFills(init, known);
      forall i | 0 <= i < |earlier| ensures earlier[i].executionId in IdsOf(init) { assert earlier[i] in init; }
    }
  }

  lemma {:induction false} NetWithout(fs: seq<BrokerFill>, i: nat, conId: int)
    requires i < |fs|
    ensures Net(fs, conId) == Net(fs[..i] + fs[i + 1..], conId) + if fs[i].conId == conId then fs[i].Delta() else 0
  {
    assert fs == fs[..i] + [fs[i]] + fs[i + 1..];
    NetConcat(fs[..i] + [fs[i]], fs[i + 1..], conId);
    NetConcat(fs[..i], [fs[i]], conId);
    NetConcat(fs[..i], fs[i + 1..], conId);
    assert [fs[i]][..0] == [];
  }

  lemma SetWithoutLast(a: seq<BrokerFill>)
    requires NoRepeats(a) && a != []
    ensures SetOf(a[..|a| - 1]) == SetOf(a) - {a[|a| - 1]} && NoRepeats(a[..|a| - 1])
  {
    assert a == a[..|a| - 1] + [a[|a| - 1]];
  }

  lemma SetWithout(b: seq<BrokerFill>, i: nat)
    requires NoRepeats(b) && i < |b|
    ensures SetOf(b[..i] + b[i + 1..]) == SetOf(b) - {b[i]} && NoRepeats(b[..i] + b[i + 1..])
  {
    var b' := b[..i] + b[i + 1..];
    forall g | g in SetOf(b) && g != b[i] ensures g in b' {
      var j :| 0 <= j < |b| && b[j] == g;
      assert g == b'[if j < i then j else j - 1];
    }
  }

  /** Two lists without repeats and with the same members net to the same quantity. */
  lemma {:induction false} NetOfSameMembers(a: seq<BrokerFill>, b: seq<BrokerFill>, conId: int)
    requires NoRepeats(a) && NoRepeats(b) && SetOf(a) == SetOf(b)
    ensures Net(a, conId) == Net(b, conId)
    decreases |a|
  {
    assert b == [] || b[0] in SetOf(b);
    if a != [] {
      assert a[|a| - 1] in SetOf(b);
      var i :| 0 <= i < |b| && b[i] == a[|a| - 1];
      hide NoRepeats, SetOf;
      NetWithout(b, i, conId);
      SetWithoutLast(a);
      SetWithout(b, i);
      NetOfSameMembers(a[..|a| - 1], b[..i] + b[i + 1..], conId);
    }
  }

  /**
   * However two processes read the same fills - repeated, overlapping, in any order - every contract
   * moves by the same quantity.
   */
  lemma OrderOfReadingIsIrrelevant(a: seq<BrokerFill>, b: seq<BrokerFill>, known: set<string>, book: Book, conId: int)
    requires SetOf(a) == SetOf(b) && Functional(SetOf(a))
    ensures Quantity(AfterFills(book, NewFills(a, known)), conId) == Quantity(AfterFills(book, NewFills(b, known)), conId)
  {
    SameNewFills(a, b, known);
    SameNewFills(b, a, known);
    NewFillsNoRepeats(a, known);
    NewFillsNoRepeats(b, known);
    NetOfSameMembers(NewFills(a, known), NewFills(b, known), conId);
    FillsConserve(book, NewFills(a, known));
    FillsConserve(book, NewFills(b, known));
  }

  lemma SameNewFills(a: seq<BrokerFill>, b: seq<BrokerFill>, known: set<string>)
    requires SetOf(a) == SetOf(b) && Functional(SetOf(a))
    ensures SetOf(NewFills(a, known)) <= SetOf(NewFills(b, known))
  {
    NewFillsIds(a, known);
    NewFillsIds(b, known);
    forall f | f in NewFills(a, known) ensures f in NewFills(b, known) {
      assert f in SetOf(b);
      assert f.executionId in IdsOf(NewFills(b, known));
      var g :| g in NewFills(b, known) && g.executionId == f.executionId;
      assert g in SetOf(a);
    }
  }
}
