/** The position book moves by recorded fills and by nothing else; what a crash does to that. */
module Conservation {
  import opened Enums
  import opened OrderTable
  import opened Positions
  import opened Durable
  import opened Reconciliation
  import opened Ingestion
  import opened OrderSafety
  import opened OrdersOverRuns
  import opened Machine
  import opened Lifecycle

  /** The book is the book the process started with, moved by the fills this process recorded. */
  ghost predicate Conserved(p: Process, t: Tables) {
    forall c :: Quantity(p.book, c) == Quantity(p.start, c) + Net(FillsOf(t.fills, p.runId), c)
  }

  ghost predicate ConservedIn(s: System) { s.process.Some? ==> Conserved(s.process.value, s.tables) }

  lemma BookAfterReconciling(p: Process, t: Tables, answers: Answers)
    ensures var r := Reconciled(p, t, answers);
            r.process.Some? ==>
              && r.process.value.runId == p.runId && r.process.value.start == p.start
              && forall c :: Quantity(r.process.value.book, c) == Quantity(p.book, c) + Net(Applied(t, answers), c)
  {
    if answers.view.Some? {
      var v := answers.view.value;
      ClearsExactlyWhenExplained(p, t, answers.account.Some?, v);
      FillsConserve(p.book, Applied(t, answers));
      if DistinctContracts(v.positions) { AdoptionKeepsQuantities(v.positions); }
      hide Comparison;
    }
  }

  lemma ReconcilingConserves(p: Process, t: Tables, answers: Answers)
    requires Conserved(p, t)
    ensures var r := Reconciled(p, t, answers);
            r.process.Some? ==> Conserved(r.process.value, ApplyAll(t, r.effects))
  {
    var fs := Applied(t, answers);
    var r := Reconciled(p, t, answers);
    BookAfterReconciling(p, t, answers);
    ReconciledTables(p, t, answers);
    FillsOfMore(t.fills, fs, t.orders, p.runId, p.runId);
    hide Reconciled, Adopts, Applied, FillRows;
    if r.process.Some? {
      forall c ensures Net(FillsOf(ApplyAll(t, r.effects).fills, p.runId), c) == Net(FillsOf(t.fills, p.runId), c) + Net(fs, c) {
        NetConcat(FillsOf(t.fills, p.runId), fs, c);
      }
    }
  }

  /** Settling decides the state and the contract; book and identity are the reconciliation's. */
  lemma OutcomeConserves(p: Process, t: Tables, e: Event)
    requires Reconciles(e) && Conserved(p, t)
    ensures var r := ReconcilingReaction(p, t, e); r.process.Some? ==> Conserved(r.process.value, ApplyAll(t, r.effects))
  {
    hide Reconciled, Conserved;
    ReconcilingConserves(p, t, e.answers);
    var r := Reconciled(p, t, e.answers);
    if r.process.Some? && !e.OperatorRechecked? {
      SameBook(r.process.value, ReconcilingReaction(p, t, e).process.value, ApplyAll(t, r.effects));
    }
  }

  lemma SameBook(p: Process, p': Process, t: Tables)
    requires Conserved(p, t) && p'.book == p.book && p'.start == p.start && p'.runId == p.runId
    ensures Conserved(p', t)
  {}

  lemma StepConserves(s: System, step: Step)
    requires ConservedIn(s) && Allowed(s, step.event)
    ensures ConservedIn(Next(s, step))
  {
    var e := step.event;
    if Next(s, step).process.Some? {
      if e.Startup? {
        StartsUnready(s, step);
        NoFillsOf(s.tables.fills, e.runId);
      } else if s.process.Some? && Reconciles(e) {
        hide Next, ReconcilingReaction, Conserved, Allowed;
        ReconcilingStep(s, step);
        if Acts(s.process.value, e) { OutcomeConserves(s.process.value, s.tables, e); }
      } else {
        hide Next, Allowed;
        QuietStep(s, step);
        NeutralSteps(s, step);
      }
    }
  }

  lemma {:induction false} RunConserves(s: System, steps: seq<Step>)
    requires ConservedIn(s) && AllowedRun(s, steps)
    ensures ConservedIn(Run(s, steps))
  {
    hide Next, ConservedIn, Allowed;
    if steps != [] {
      RunPrefix(s, steps);
      RunConserves(s, steps[..|steps| - 1]);
      StepConserves(Run(s, steps[..|steps| - 1]), steps[|steps| - 1]);
    }
  }

  /**
   * However often fills are re-read, in whatever batches, with whatever adoptions and failures between:
   * each contract's quantity is what this process started with plus the signed sum of the fills this
   * process was first to record.
   */
  lemma BookIsStartPlusRecordedFills(steps: seq<Step>, c: int)
    requires AllowedRun(FRESH_SYSTEM, steps) && Run(FRESH_SYSTEM, steps).process.Some?
    ensures var s := Run(FRESH_SYSTEM, steps);
            Quantity(s.process.value.book, c)
            == Quantity(s.process.value.start, c) + Net(FillsOf(s.tables.fills, s.process.value.runId), c)
  {
    hide Next, Allowed;
    RunConserves(FRESH_SYSTEM, steps);
  }

  // ----- crashes inside a reconciliation -----

  /** What a reconciliation cut after `k` effects leaves: some fills, and the adoption only at the end. */
  lemma ReconciledCut(p: Process, t: Tables, answers: Answers, k: nat)
    requires k <= |Reconciled(p, t, answers).effects|
    ensures var fs := Applied(t, answers);
            var t' := ApplyAll(t, Reconciled(p, t, answers).effects[..k]);
            && t'.orders == t.orders
            && (if k <= |fs| then t' == t.(fills := t.fills + FillRows(fs[..k], t.orders, p.runId))
                else Adopts(p, t, answers)
                     && t' == t.(fills := t.fills + FillRows(fs, t.orders, p.runId), positions := answers.view.value.positions))
  {
    hide Reconciled, Adopts, Applied, FillRows, RowOfFill;
    var fs := Applied(t, answers);
    var recorded := FillEffects(fs, t.orders, p.runId);
    var es := Reconciled(p, t, answers).effects;
    ReconciledEffects(p, t, answers);
    if k <= |fs| {
      assert es[..k] == recorded[..k];
      RecordsApplied(t, fs, t.orders, p.runId, k);
    } else {
      assert es[..k] == es;
      ReconciledTables(p, t, answers);
    }
  }

  ghost predicate FillsDistinct(rows: seq<FillRow>) {
    forall i, j :: 0 <= i < j < |rows| ==> rows[i].fill.executionId != rows[j].fill.executionId
  }

  lemma {:induction false} FillRowsAre(fs: seq<BrokerFill>, orders: Rows, runId: string)
    ensures |FillRows(fs, orders, runId)| == |fs|
    ensures forall i :: 0 <= i < |fs| ==> FillRows(fs, orders, runId)[i].fill == fs[i]
  {
    if fs != [] { FillRowsAre(fs[..|fs| - 1], orders, runId); }
  }

  lemma {:induction false} NewFillsDistinct(batch: seq<BrokerFill>, known: set<string>)
    ensures var fs := NewFills(batch, known);
            && (forall i, j :: 0 <= i < j < |fs| ==> fs[i].executionId != fs[j].executionId)
            && (forall i :: 0 <= i < |fs| ==> fs[i].executionId !in known)
  {
    if batch != [] {
      var init := batch[..|batch| - 1];
      NewFillsDistinct(init, known);
      NewFillsIds(init, known);
      var earlier := NewFills(init, known);
      forall i | 0 <= i < |earlier| ensures earlier[i].executionId in IdsOf(init) { assert earlier[i] in init; }
    }
  }

  lemma RecordingKeepsDistinct(rows: seq<FillRow>, batch: seq<BrokerFill>, orders: Rows, runId: string, k: nat)
    requires FillsDistinct(rows) && k <= |NewFills(batch, KnownExecutions(rows))|
    ensures FillsDistinct(rows + FillRows(NewFills(batch, KnownExecutions(rows))[..k], orders, runId))
  {
    var fs := NewFills(batch, KnownExecutions(rows));
    NewFillsDistinct(batch, KnownExecutions(rows));
    FillRowsAre(fs[..k], orders, runId);
    forall i | 0 <= i < |rows| ensures rows[i].fill.executionId in KnownExecutions(rows) { assert rows[i] in rows; }
  }

  lemma StepKeepsFillsDistinct(s: System, step: Step)
    requires FillsDistinct(s.tables.fills)
    ensures FillsDistinct(Next(s, step).tables.fills)
  {
    var e := step.event;
    if !Reconciles(e) {
      hide Next;
      NeutralSteps(s, step);
    } else if s.process.Some? {
      hide Next, Reconciled;
      var p, t := s.process.value, s.tables;
      ReconcilingStep(s, step);
      if Acts(p, e) {
        assert ReconcilingReaction(p, t, e).effects == Reconciled(p, t, e.answers).effects;
        KeptIsPrefix(Reconciled(p, t, e.answers).effects, step.survives);
        var k: nat :| k <= |Reconciled(p, t, e.answers).effects|
                      && Kept(Reconciled(p, t, e.answers).effects, step.survives) == Reconciled(p, t, e.answers).effects[..k];
        CutKeepsFillsDistinct(p, t, e.answers, k);
      }
    }
  }

  lemma CutKeepsFillsDistinct(p: Process, t: Tables, answers: Answers, k: nat)
    requires FillsDistinct(t.fills) && k <= |Reconciled(p, t, answers).effects|
    ensures FillsDistinct(ApplyAll(t, Reconciled(p, t, answers).effects[..k]).fills)
  {
    hide Reconciled, Adopts, FillRows;
    ReconciledCut(p, t, answers, k);
    var fs := Applied(t, answers);
    var n := if k <= |fs| then k else |fs|;
    assert fs[..|fs|] == fs;
    if answers.view.Some? {
      RecordingKeepsDistinct(t.fills, answers.view.value.fills, t.orders, p.runId, n);
    } else {
      FillRowsAre([], t.orders, p.runId);
      assert t.fills + FillRows([], t.orders, p.runId) == t.fills;
    }
  }

  /** No execution is ever recorded twice, wherever runs are cut. */
  lemma {:induction false} ExecutionsRecordedOnce(s: System, steps: seq<Step>)
    requires FillsDistinct(s.tables.fills)
    ensures FillsDistinct(Run(s, steps).tables.fills)
  {
    hide Next, FillsDistinct;
    if steps != [] {
      ExecutionsRecordedOnce(s, steps[..|steps| - 1]);
      StepKeepsFillsDistinct(Run(s, steps[..|steps| - 1]), steps[|steps| - 1]);
    }
  }

  // ----- restarts -----

  lemma {:induction false} KnowingOthersChangesNothing(batch: seq<BrokerFill>, known: set<string>, id: string)
    requires id !in IdsOf(batch)
    ensures NewFills(batch, known + {id}) == NewFills(batch, known)
  {
    if batch != [] {
      var init, f := batch[..|batch| - 1], batch[|batch| - 1];
      IdsOfSnoc(init, f);
      assert init + [f] == batch;
      KnowingOthersChangesNothing(init, known, id);
    }
  }

  /** Once the first `k` new fills of a batch are recorded, the others are exactly what is new. */
  lemma {:induction false} RemainingFills(batch: seq<BrokerFill>, known: set<string>, k: nat)
    requires k <= |NewFills(batch, known)|
    ensures NewFills(batch, known + IdsOf(NewFills(batch, known)[..k])) == NewFills(batch, known)[k..]
  {
    var fs := NewFills(batch, known);
    if batch != [] {
      var init, f := batch[..|batch| - 1], batch[|batch| - 1];
      var earlier := NewFills(init, known);
      NewFillsIds(init, known);
      if k <= |earlier| {
        RemainingFills(init, known, k);
        assert fs[..k] == earlier[..k];
        forall x | x in IdsOf(fs[..k]) ensures x in IdsOf(init) { assert x in IdsOf(earlier); }
      } else {
        RemainingFills(init, known, |earlier|);
        assert earlier[..|earlier|] == earlier && fs[..k] == earlier + [f];
        IdsOfSnoc(earlier, f);
        var both := known + IdsOf(earlier);
        assert known + IdsOf(fs[..k]) == both + {f.executionId};
        KnowingOthersChangesNothing(init, both, f.executionId);
      }
    }
  }

  lemma KnownAfterRecording(rows: seq<FillRow>, fs: seq<BrokerFill>, orders: Rows, runId: string)
    ensures KnownExecutions(rows + FillRows(fs, orders, runId)) == KnownExecutions(rows) + IdsOf(fs)
  {
    var more := FillRows(fs, orders, runId);
    FillRowsAre(fs, orders, runId);
    assert forall r :: r in rows + more <==> r in rows || r in more;
    forall x ensures x in KnownExecutions(more) <==> x in IdsOf(fs) {
      if x in IdsOf(fs) {
        var i :| 0 <= i < |fs| && fs[i].executionId == x;
        assert more[i] in more;
      }
      if x in KnownExecutions(more) {
        var i :| 0 <= i < |more| && more[i].fill.executionId == x;
        assert fs[i] in fs;
      }
    }
  }

  lemma NetSplit(fs: seq<BrokerFill>, k: nat, c: int)
    requires k <= |fs|
    ensures Net(fs, c) == Net(fs[..k], c) + Net(fs[k..], c)
  {
    assert fs == fs[..k] + fs[k..];
    NetConcat(fs[..k], fs[k..], c);
  }

  /** After a cut, what is still new, and which positions a restart loads. */
  lemma CutFacts(p: Process, t: Tables, answers: Answers, k: nat)
    requires answers.view.Some? && k <= |Reconciled(p, t, answers).effects|
    ensures var t' := ApplyAll(t, Reconciled(p, t, answers).effects[..k]);
            var fs := Applied(t, answers);
            && NewFills(answers.view.value.fills, KnownExecutions(t'.fills)) == (if k <= |fs| then fs[k..] else [])
            && t'.positions == if k <= |fs| then t.positions else answers.view.value.positions
  {
    var fs, v := Applied(t, answers), answers.view.value;
    ReconciledCut(p, t, answers, k);
    var n := if k <= |fs| then k else |fs|;
    assert fs[..|fs|] == fs;
    KnownAfterRecording(t.fills, fs[..n], t.orders, p.runId);
    RemainingFills(v.fills, KnownExecutions(t.fills), n);
    hide Comparison, Reconciled;
  }

  /** The fills cancel out on every contract. */
  ghost predicate NetsToZero(fs: seq<BrokerFill>) { forall c :: Net(fs, c) == 0 }

  lemma Stranded(broker: Book, local: Book, news: seq<BrokerFill>, gone: seq<BrokerFill>)
    requires forall c :: Quantity(broker, c) == Quantity(local, c) + Net(gone, c) + Net(news, c)
    ensures (forall c :: Quantity(broker, c) == Quantity(local, c) + Net(news, c)) <==> NetsToZero(gone)
  {
    if forall c :: Quantity(broker, c) == Quantity(local, c) + Net(news, c) {
      forall c ensures Net(gone, c) == 0 { assert Quantity(broker, c) == Quantity(local, c) + Net(news, c); }
    } else {
      var c :| Quantity(broker, c) != Quantity(local, c) + Net(news, c);
      assert Net(gone, c) != 0;
    }
  }
}
