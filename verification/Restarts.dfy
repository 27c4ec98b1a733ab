/**
 * What the stored positions reflect. Fills are recorded one by one and positions adopted only by a
 * reconciliation that succeeds, so at any time some recorded fills may not be in the stored positions:
 * after a crash, but just as well after a reconciliation that failed for another reason.
 */
module Restarts {
  import opened Enums
  import opened Configuration
  import opened OrderTable
  import opened Positions
  import opened Durable
  import opened Reconciliation
  import opened Ingestion
  import opened OrderSafety
  import opened OrdersOverRuns
  import opened Machine
  import opened Lifecycle
  import opened Conservation

  // ----- fills since the last adoption -----

  /** The step stored a new list of positions. */
  predicate Replaces(s: System, step: Step) {
    var kept := Kept(ReactionOf(s, step.event).effects, step.survives);
    kept != [] && kept[|kept| - 1].ReplacePositions?
  }

  /** How many fills were recorded when the positions were last stored. */
  function Mark(s: System, steps: seq<Step>): nat {
    if steps == [] then |s.tables.fills|
    else
      var before := Run(s, steps[..|steps| - 1]);
      if Replaces(before, steps[|steps| - 1]) then |Run(s, steps).tables.fills| else Mark(s, steps[..|steps| - 1])
  }

  function BrokerFills(rows: seq<FillRow>): seq<BrokerFill> {
    if rows == [] then [] else BrokerFills(rows[..|rows| - 1]) + [rows[|rows| - 1].fill]
  }

  /** The fills of every run but one. */
  function ForeignFills(rows: seq<FillRow>, runId: string): seq<BrokerFill> {
    if rows == [] then []
    else
      var earlier := ForeignFills(rows[..|rows| - 1], runId);
      if rows[|rows| - 1].runId != runId then earlier + [rows[|rows| - 1].fill] else earlier
  }

  function Since(rows: seq<FillRow>, mark: nat): seq<FillRow> { if mark <= |rows| then rows[mark..] else [] }

  /** Recorded fills that no stored position reflects. */
  function Unadopted(t: Tables, mark: nat): seq<BrokerFill> { BrokerFills(Since(t.fills, mark)) }

  lemma NetOfOneMore(fs: seq<BrokerFill>, f: BrokerFill, c: int)
    ensures Net(fs + [f], c) == Net(fs, c) + if f.conId == c then f.Delta() else 0
  {
    assert (fs + [f])[..|fs|] == fs;
  }

  lemma {:induction false} OwnAndForeign(rows: seq<FillRow>, runId: string, c: int)
    ensures Net(BrokerFills(rows), c) == Net(FillsOf(rows, runId), c) + Net(ForeignFills(rows, runId), c)
  {
    if rows != [] {
      var init, f := rows[..|rows| - 1], rows[|rows| - 1].fill;
      OwnAndForeign(init, runId, c);
      NetOfOneMore(BrokerFills(init), f, c);
      NetOfOneMore(FillsOf(init, runId), f, c);
      NetOfOneMore(ForeignFills(init, runId), f, c);
      hide Net;
    }
  }

  lemma {:induction false} BrokerFillsMore(rows: seq<FillRow>, fs: seq<BrokerFill>, orders: Rows, runId: string)
    ensures BrokerFills(rows + FillRows(fs, orders, runId)) == BrokerFills(rows) + fs
  {
    hide FillRows, RowOfFill, BrokerFills;
    if fs == [] {
      NoFillRows(orders, runId);
      assert rows + [] == rows && BrokerFills(rows) + fs == BrokerFills(rows);
    } else {
      var init, last := fs[..|fs| - 1], fs[|fs| - 1];
      BrokerFillsMore(rows, init, orders, runId);
      OneMoreFillRow(fs, orders, runId);
      Snoc(rows, FillRows(init, orders, runId), RowOfFill(last, orders, runId));
      BrokerFillsSnoc(rows + FillRows(init, orders, runId), RowOfFill(last, orders, runId));
      Snoc(BrokerFills(rows), init, last);
      assert init + [last] == fs;
    }
  }

  lemma BrokerFillsSnoc(rows: seq<FillRow>, r: FillRow)
    ensures BrokerFills(rows + [r]) == BrokerFills(rows) + [r.fill]
  {
    assert (rows + [r])[..|rows|] == rows;
  }

  lemma SinceMore(rows: seq<FillRow>, more: seq<FillRow>, mark: nat)
    requires mark <= |rows|
    ensures Since(rows + more, mark) == Since(rows, mark) + more
    ensures Since(rows, |rows|) == []
  {}

  // ----- a live book is the stored positions moved by its own unadopted fills -----

  ghost predicate Reflects(p: Process, t: Tables, mark: nat) {
    forall c :: Quantity(p.book, c)
                == Quantity(FromPositions(t.positions), c) + Net(FillsOf(Since(t.fills, mark), p.runId), c)
  }

  ghost predicate Marked(s: System, mark: nat) {
    mark <= |s.tables.fills| && (s.process.Some? ==> Reflects(s.process.value, s.tables, mark))
  }

  function NextMark(s: System, step: Step, mark: nat): nat {
    if Replaces(s, step) then |Next(s, step).tables.fills| else mark
  }

  lemma NeutralNeverReplaces(s: System, step: Step)
    requires !Reconciles(step.event)
    ensures !Replaces(s, step)
  {
    hide ReactionOf;
    NeutralEvents(s, step.event);
    KeptIsPrefix(ReactionOf(s, step.event).effects, step.survives);
    var es := ReactionOf(s, step.event).effects;
    var kept := Kept(es, step.survives);
    assert kept != [] ==> kept[|kept| - 1] == es[|kept| - 1];
    assert kept != [] ==> es[|kept| - 1] in es;
  }

  /** What a reconciliation that is acted on leaves of the tables, cut or not, and whether it stored positions. */
  lemma ReconcilingEffects(s: System, step: Step) returns (k: nat)
    requires s.process.Some? && Reconciles(step.event) && Acts(s.process.value, step.event)
    ensures var p, t, answers := s.process.value, s.tables, step.event.answers;
            && k <= |Reconciled(p, t, answers).effects|
            && Next(s, step).tables == ApplyAll(t, Reconciled(p, t, answers).effects[..k])
            && (Replaces(s, step) <==> k > |Applied(t, answers)|)
            && (step.survives.None? ==> k == |Reconciled(p, t, answers).effects|)
  {
    hide Next, Reconciled, ReconcilingReaction;
    var p, t, e := s.process.value, s.tables, step.event;
    var es := Reconciled(p, t, e.answers).effects;
    ReconcilingStep(s, step);
    ActedEffects(s, e);
    assert es[..|es|] == es;
    k := if step.survives.Some? && step.survives.value < |es| then step.survives.value else |es|;
    ReconciledEffects(p, t, e.answers);
    assert Kept(es, step.survives) == es[..k];
    hide Applied, Adopts;
    assert k > 0 ==> es[..k][|es[..k]| - 1] == es[k - 1];
  }

  lemma ActedEffects(s: System, e: Event)
    requires s.process.Some? && Reconciles(e) && Acts(s.process.value, e)
    ensures ReactionOf(s, e).effects == Reconciled(s.process.value, s.tables, e.answers).effects
    ensures ReconcilingReaction(s.process.value, s.tables, e).effects == Reconciled(s.process.value, s.tables, e.answers).effects
  {
    hide Reconciled, Handled, StatusEffects, Started;
  }

  lemma IdleNeverReplaces(s: System, step: Step)
    requires Reconciles(step.event) && (s.process.None? || !Acts(s.process.value, step.event))
    ensures !Replaces(s, step) && Next(s, step).tables == s.tables
    ensures Next(s, step).process == s.process || Next(s, step).process.None?
  {
    hide Reconciled, Handled, StatusEffects, Started;
  }

  lemma CutMarks(p: Process, t: Tables, answers: Answers, k: nat)
    requires k <= |Reconciled(p, t, answers).effects|
    ensures |ApplyAll(t, Reconciled(p, t, answers).effects[..k]).fills| >= |t.fills|
  {
    hide Reconciled, Adopts, Applied, FillRows;
    ReconciledCut(p, t, answers, k);
  }

  /** An uncut reconciliation keeps the live book tied to the stored positions. */
  lemma ReconciledReflects(p: Process, t: Tables, answers: Answers, mark: nat)
    requires mark <= |t.fills| && Reflects(p, t, mark) && Reconciled(p, t, answers).process.Some?
    ensures var r := Reconciled(p, t, answers);
            var t' := ApplyAll(t, r.effects);
            Reflects(r.process.value, t', if Adopts(p, t, answers) then |t'.fills| else mark)
  {
    var fs := Applied(t, answers);
    var r := Reconciled(p, t, answers);
    var t' := ApplyAll(t, r.effects);
    ReconciledTables(p, t, answers);
    BookAfterReconciling(p, t, answers);
    if Adopts(p, t, answers) {
      AdoptedBook(p, t, answers);
      SinceMore(t'.fills, [], |t'.fills|);
    } else {
      hide Reconciled, Adopts, Applied, FillRows, FromPositions;
      SinceMore(t.fills, FillRows(fs, t.orders, p.runId), mark);
      FillsOfMore(Since(t.fills, mark), fs, t.orders, p.runId, p.runId);
      forall c ensures Net(FillsOf(Since(t'.fills, mark), p.runId), c) == Net(FillsOf(Since(t.fills, mark), p.runId), c) + Net(fs, c) {
        NetConcat(FillsOf(Since(t.fills, mark), p.runId), fs, c);
      }
    }
  }

  lemma AdoptedBook(p: Process, t: Tables, answers: Answers)
    requires Adopts(p, t, answers) && Reconciled(p, t, answers).process.Some?
    ensures Reconciled(p, t, answers).process.value.book == FromPositions(answers.view.value.positions)
  {
    hide Comparison;
  }

  lemma SameReflection(p: Process, p': Process, t: Tables, t': Tables, mark: nat)
    requires Reflects(p, t, mark) && p'.book == p.book && p'.runId == p.runId
    requires t'.positions == t.positions && t'.fills == t.fills
    ensures Reflects(p', t', mark)
  {}

  lemma FreshReflection(p: Process, t: Tables, mark: nat)
    requires p.book == FromPositions(t.positions) && forall i :: 0 <= i < |t.fills| ==> t.fills[i].runId != p.runId
    ensures Reflects(p, t, mark)
  {
    NoFillsOf(Since(t.fills, mark), p.runId);
  }

  lemma QuietMarks(s: System, step: Step, mark: nat)
    requires Marked(s, mark) && Allowed(s, step.event) && !Reconciles(step.event)
    ensures Marked(Next(s, step), NextMark(s, step, mark))
  {
    NeutralNeverReplaces(s, step);
    NeutralSteps(s, step);
    if Next(s, step).process.Some? {
      var p' := Next(s, step).process.value;
      if step.event.Startup? {
        StartsUnready(s, step);
        FreshReflection(p', Next(s, step).tables, mark);
      } else {
        QuietStep(s, step);
        SameReflection(s.process.value, p', s.tables, Next(s, step).tables, mark);
      }
    }
    hide Next, Reflects, Replaces;
  }

  lemma SettlingKeepsBook(p: Process, t: Tables, e: Event)
    requires Reconciles(e)
    ensures var a, b := ReconcilingReaction(p, t, e), Reconciled(p, t, e.answers);
            && (a.process.Some? <==> b.process.Some?)
            && (a.process.Some? ==> a.process.value.book == b.process.value.book && a.process.value.runId == b.process.value.runId)
  {
    hide Reconciled;
  }

  lemma UncutLength(p: Process, t: Tables, answers: Answers)
    ensures |Reconciled(p, t, answers).effects| > |Applied(t, answers)| <==> Adopts(p, t, answers)
  {
    ReconciledEffects(p, t, answers);
    hide Reconciled, Adopts, Applied;
  }

  lemma ReconcilingMarks(s: System, step: Step, mark: nat)
    requires Marked(s, mark) && s.process.Some? && Reconciles(step.event) && Acts(s.process.value, step.event)
    ensures Marked(Next(s, step), NextMark(s, step, mark))
  {
    hide Next, Replaces, Reflects, Reconciled, ReconcilingReaction, Adopts, Applied;
    var p, t, e := s.process.value, s.tables, step.event;
    var k := ReconcilingEffects(s, step);
    CutMarks(p, t, e.answers, k);
    ReconcilingStep(s, step);
    if Next(s, step).process.Some? {
      var es := Reconciled(p, t, e.answers).effects;
      assert es[..|es|] == es;
      SettlingKeepsBook(p, t, e);
      UncutLength(p, t, e.answers);
      ReconciledReflects(p, t, e.answers, mark);
      var mark' := if Adopts(p, t, e.answers) then |Next(s, step).tables.fills| else mark;
      SameReflection(Reconciled(p, t, e.answers).process.value, Next(s, step).process.value,
                     ApplyAll(t, es), Next(s, step).tables, mark');
    }
  }

  lemma StepMarks(s: System, step: Step, mark: nat)
    requires Marked(s, mark) && Allowed(s, step.event)
    ensures Marked(Next(s, step), NextMark(s, step, mark))
  {
    hide Next, Replaces, Reflects, Allowed;
    if !Reconciles(step.event) {
      QuietMarks(s, step, mark);
    } else if s.process.Some? && Acts(s.process.value, step.event) {
      ReconcilingMarks(s, step, mark);
    } else {
      IdleNeverReplaces(s, step);
    }
  }

  /**
   * In every state of every run the live book holds, of every contract, what is stored plus the net of the
   * fills this process recorded since positions were last stored.
   */
  lemma {:induction false} BookIsStoredPlusUnadopted(s: System, steps: seq<Step>)
    requires Marked(s, |s.tables.fills|) && AllowedRun(s, steps)
    ensures Marked(Run(s, steps), Mark(s, steps))
  {
    hide Next, Replaces, Reflects, Allowed;
    if steps != [] {
      var init, last := steps[..|steps| - 1], steps[|steps| - 1];
      RunPrefix(s, steps);
      BookIsStoredPlusUnadopted(s, init);
      StepMarks(Run(s, init), last, Mark(s, init));
    }
  }

  // ----- brokers that can be explained -----

  /** The broker holds what is stored, moved by the recorded fills since and by the fills it newly reports. */
  ghost predicate Explained(t: Tables, mark: nat, v: BrokerView) {
    forall c :: Quantity(ById(v.positions), c)
                == Quantity(FromPositions(t.positions), c) + Net(Unadopted(t, mark), c)
                   + Net(NewFills(v.fills, KnownExecutions(t.fills)), c)
  }

  lemma NetPrefix(fs: seq<BrokerFill>, k: nat, us: seq<BrokerFill>, c: int)
    requires k <= |fs|
    ensures Net(us + fs[..k], c) + Net(fs[k..], c) == Net(us, c) + Net(fs, c)
  {
    NetSplit(fs, k, c);
    NetConcat(us, fs[..k], c);
  }

  /** A reconciliation of an explained broker leaves it explained, wherever it is cut and however it ends. */
  lemma ReadingKeepsExplained(s: System, step: Step, mark: nat)
    requires mark <= |s.tables.fills| && s.process.Some? && Reconciles(step.event) && Acts(s.process.value, step.event)
    requires step.event.answers.view.Some? && Explained(s.tables, mark, step.event.answers.view.value)
    ensures Explained(Next(s, step).tables, NextMark(s, step, mark), step.event.answers.view.value)
  {
    hide Next, Replaces, Explained;
    var p, t, answers := s.process.value, s.tables, step.event.answers;
    var k := ReconcilingEffects(s, step);
    CutKeepsExplained(p, t, answers, k, mark);
  }

  lemma CutKeepsExplained(p: Process, t: Tables, answers: Answers, k: nat, mark: nat)
    requires mark <= |t.fills| && k <= |Reconciled(p, t, answers).effects|
    requires answers.view.Some? && Explained(t, mark, answers.view.value)
    ensures var t' := ApplyAll(t, Reconciled(p, t, answers).effects[..k]);
            Explained(t', if k > |Applied(t, answers)| then |t'.fills| else mark, answers.view.value)
  {
    hide Reconciled, ById, FromPositions, FillRows;
    var fs, v := Applied(t, answers), answers.view.value;
    var t' := ApplyAll(t, Reconciled(p, t, answers).effects[..k]);
    ReconciledCut(p, t, answers, k);
    CutFacts(p, t, answers, k);
    if k > |fs| {
      SinceMore(t'.fills, [], |t'.fills|);
      assert Unadopted(t', |t'.fills|) == [];
      AdoptionKeepsQuantities(v.positions);
      hide Adopts;
    } else {
      hide Adopts;
      SinceMore(t.fills, FillRows(fs[..k], t.orders, p.runId), mark);
      BrokerFillsMore(Since(t.fills, mark), fs[..k], t.orders, p.runId);
      hide Applied, NewFills, KnownExecutions, Since, BrokerFills;
      forall c ensures Quantity(ById(v.positions), c)
                       == Quantity(FromPositions(t'.positions), c) + Net(Unadopted(t', mark), c)
                          + Net(NewFills(v.fills, KnownExecutions(t'.fills)), c)
      {
        NetPrefix(fs, k, Unadopted(t, mark), c);
      }
    }
  }

  // ----- restarts and re-checks over runs -----

  /** A comparison of an explained broker with a book that lacks `gone` of what explains it. */
  lemma LackingIsFound(p: Process, t: Tables, account: bool, v: BrokerView, gone: seq<BrokerFill>)
    requires forall c :: Quantity(ById(v.positions), c)
                         == Quantity(p.book, c) + Net(gone, c) + Net(NewFills(v.fills, KnownExecutions(t.fills)), c)
    ensures var r := Comparison(p, t, account, v);
            && (r.positionDiscrepancies == [] <==> NetsToZero(gone))
            && (forall d :: d in r.positionDiscrepancies ==> d.Delta() == Net(gone, d.conId))
  {
    ClearsExactlyWhenExplained(p, t, account, v);
    hide Comparison, NewFills, OpenRows, ById;
    Stranded(ById(v.positions), p.book, NewFills(v.fills, KnownExecutions(t.fills)), gone);
  }

  /**
   * In every reachable state - after crashes, failed and successful reconciliations, in any order - a process
   * restarted on the tables and facing a broker that the records explain finds no position discrepancy if and
   * only if the fills recorded since positions were last stored net to zero on every contract; otherwise each
   * discrepancy is exactly their net. So a restart re-reads fills its book reflects exactly when nothing
   * recorded was left unadopted, up to cancelling out.
   */
  lemma RestartClearsExactlyWhen(steps: seq<Step>, q: Process, account: bool, v: BrokerView)
    requires AllowedRun(FRESH_SYSTEM, steps)
    requires Explained(Run(FRESH_SYSTEM, steps).tables, Mark(FRESH_SYSTEM, steps), v)
    requires q.book == FromPositions(Run(FRESH_SYSTEM, steps).tables.positions)
    ensures var t := Run(FRESH_SYSTEM, steps).tables;
            var stranded := Unadopted(t, Mark(FRESH_SYSTEM, steps));
            var r := Comparison(q, t, account, v);
            && (r.positionDiscrepancies == [] <==> NetsToZero(stranded))
            && (forall d :: d in r.positionDiscrepancies ==> d.Delta() == Net(stranded, d.conId))
  {
    hide Next, Allowed, Comparison, FromPositions, ById, NewFills, Unadopted;
    var t := Run(FRESH_SYSTEM, steps).tables;
    LackingIsFound(q, t, account, v, Unadopted(t, Mark(FRESH_SYSTEM, steps)));
  }

  /**
   * In every reachable state the live process facing such a broker finds no position discrepancy if and only
   * if the unadopted fills of earlier processes net to zero; its own it has in its book.
   */
  lemma RecheckClearsExactlyWhen(steps: seq<Step>, account: bool, v: BrokerView)
    requires AllowedRun(FRESH_SYSTEM, steps) && Run(FRESH_SYSTEM, steps).process.Some?
    requires Explained(Run(FRESH_SYSTEM, steps).tables, Mark(FRESH_SYSTEM, steps), v)
    ensures var s := Run(FRESH_SYSTEM, steps);
            var foreign := ForeignFills(Since(s.tables.fills, Mark(FRESH_SYSTEM, steps)), s.process.value.runId);
            var r := Comparison(s.process.value, s.tables, account, v);
            && (r.positionDiscrepancies == [] <==> NetsToZero(foreign))
            && (forall d :: d in r.positionDiscrepancies ==> d.Delta() == Net(foreign, d.conId))
  {
    hide Next, Allowed, Comparison, FromPositions, ById, NewFills;
    var s, mark := Run(FRESH_SYSTEM, steps), Mark(FRESH_SYSTEM, steps);
    var p, rows := s.process.value, Since(s.tables.fills, mark);
    BookIsStoredPlusUnadopted(FRESH_SYSTEM, steps);
    hide Run, Mark, Since, ForeignFills, FillsOf, BrokerFills;
    forall c ensures Quantity(ById(v.positions), c)
                     == Quantity(p.book, c) + Net(ForeignFills(rows, p.runId), c)
                        + Net(NewFills(v.fills, KnownExecutions(s.tables.fills)), c)
    {
      OwnAndForeign(rows, p.runId, c);
    }
    LackingIsFound(p, s.tables, account, v, ForeignFills(rows, p.runId));
  }

  /**
   * A broker is explained exactly when a live process with nothing foreign unadopted finds it clean: the
   * hypothesis of the two results above is what such a process checks.
   */
  lemma ExplainedIsWhatIsChecked(steps: seq<Step>, account: bool, v: BrokerView)
    requires AllowedRun(FRESH_SYSTEM, steps) && Run(FRESH_SYSTEM, steps).process.Some?
    requires var s := Run(FRESH_SYSTEM, steps);
             NetsToZero(ForeignFills(Since(s.tables.fills, Mark(FRESH_SYSTEM, steps)), s.process.value.runId))
    ensures var s := Run(FRESH_SYSTEM, steps);
            Comparison(s.process.value, s.tables, account, v).positionDiscrepancies == []
            <==> Explained(s.tables, Mark(FRESH_SYSTEM, steps), v)
  {
    hide Next, Allowed, Comparison, FromPositions, ById, NewFills;
    var s, mark := Run(FRESH_SYSTEM, steps), Mark(FRESH_SYSTEM, steps);
    var p, rows := s.process.value, Since(s.tables.fills, mark);
    BookIsStoredPlusUnadopted(FRESH_SYSTEM, steps);
    ClearsExactlyWhenExplained(p, s.tables, account, v);
    hide Run, Mark, Since, ForeignFills, FillsOf, BrokerFills, OpenRows;
    forall c ensures Quantity(p.book, c) == Quantity(FromPositions(s.tables.positions), c) + Net(Unadopted(s.tables, mark), c) {
      OwnAndForeign(rows, p.runId, c);
      assert Net(ForeignFills(rows, p.runId), c) == 0;
    }
  }
}
