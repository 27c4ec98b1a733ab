/**
 * A whole simulated session: the application and the in-process broker, driven together. What the
 * broker answers is no longer arbitrary, so the three views of the account can be related exactly.
 */
module Simulation {
  import opened Enums
  import opened Configuration
  import opened Orders
  import opened OrderTable
  import opened Positions
  import opened Durable
  import opened Reconciliation
  import opened Ingestion
  import opened OrderManagement
  import opened OrderSafety
  import opened AtMostOnce
  import opened OrdersOverRuns
  import opened Machine
  import opened Lifecycle
  import opened Conservation
  import opened Restarts
  import opened SimulatedBroker
  import Risk
  import Gate

  // ----- one process and its broker -----

  datatype Session = Session(process: Process, tables: Tables, broker: Sim)

  datatype Act =
    /** An intent is handled; the broker fills, if it does, at this price and instant. */
    | Handle(handling: Handling, price: real, at: int)
    /** A reconciliation that reads fills no older than the cutoff; with `resolved` it is a reconnection. */
    | Check(cutoff: int, resolved: Option<Option<QualifiedContract>>, readable: bool)
    | Tock(readable: bool)
    | SeeDisconnect
    | CancelWorking(at: int)
    | SetSession(connected: bool)
    | SetDenied(denied: bool)

  /** The order an intent would send, whatever the broker then answers. */
  function Intended(p: Process, t: Tables, h: Handling): Option<Request> {
    if !(HasBroker(p) && (p.inTick || p.admin) && Submits(p, t, h)) then None
    else
      var s := SubmissionOf(p, t, h, p.contract.value);
      if Proceeds(t.orders, s) && ApprovalsOf(p.config, s) == Approvals([], []) && WorkingRow(t.orders, s).orderType.Transmittable()
      then Some(RequestOf(WorkingRow(t.orders, s).AsPendingSubmit(s.now))) else None
  }

  function AnswersOf(b: Sim, cutoff: int): Answers {
    if !b.connected then Answers(None, None)
    else Answers(Some(Account(Some(!b.denied))), Some(BrokerView(Listing(b.positions), b.working, Recent(b.fills, cutoff))))
  }

  function PlacementOf(z: Session, h: Handling, price: real, at: int): Placement {
    match Intended(z.process, z.tables, h)
    case None => Placement(z.broker, h.reply)
    case Some(q) =>
      if z.process.contract.Some? then Placed(z.broker, q, z.process.contract.value, price, at)
      else Placement(z.broker, h.reply)
  }

  /** The machine's event for an act, with the broker's own answers in it. */
  function EventOf(z: Session, a: Act): Event {
    match a
    case Handle(h, price, at) => IntentHandled(h.(reply := PlacementOf(z, h, price, at).reply))
    case Check(cutoff, resolved, readable) =>
      if resolved.Some? then Event.Connected(AnswersOf(z.broker, cutoff), resolved.value, readable)
      else Rechecked(AnswersOf(z.broker, cutoff), readable)
    case Tock(readable) => Ticked(readable)
    case SeeDisconnect => DisconnectSeen
    case CancelWorking(at) => if z.broker.connected then CancelAll(at) else ConnectFailed(false)
    case _ => ConnectFailed(false)
  }

  function BrokerAfter(z: Session, a: Act): Sim {
    match a
    case Handle(h, price, at) => PlacementOf(z, h, price, at).broker
    case CancelWorking(_) => if z.broker.connected then z.broker.(working := []) else z.broker
    case SetSession(up) => z.broker.(connected := up)
    case SetDenied(denied) => z.broker.(denied := denied)
    case _ => z.broker
  }

  predicate TouchesApplication(z: Session, a: Act) {
    !a.SetSession? && !a.SetDenied? && (a.CancelWorking? ==> z.broker.connected)
  }

  /** The next session; the process never dies in one, so a death is read as standing still. */
  function Onward(z: Session, a: Act): Session {
    var broker := BrokerAfter(z, a);
    if !TouchesApplication(z, a) then z.(broker := broker)
    else
      var next := Next(System(Some(z.process), z.tables), Step(EventOf(z, a), None));
      Session(if next.process.Some? then next.process.value else z.process, next.tables, broker)
  }

  function Play(z: Session, acts: seq<Act>): Session {
    if acts == [] then z else Onward(Play(z, acts[..|acts| - 1]), acts[|acts| - 1])
  }

  /** What a reading of a live broker says: its permission, every held contract once, its working orders, the fills in the window. */
  lemma ReadingsSay(b: Sim, cutoff: int)
    requires b.connected && BookOk(b.positions)
    ensures var answers := AnswersOf(b, cutoff);
            && answers.account == Some(Account(Some(!b.denied))) && answers.view.Some?
            && var v := answers.view.value;
            && DistinctContracts(v.positions) && v.working == b.working
            && (forall c :: Quantity(ById(v.positions), c) == Quantity(b.positions, c))
            && (forall f :: f in v.fills <==> f in b.fills && f.executedAt >= cutoff)
  {
    ListingIsExact(b.positions);
    RecentAre(b.fills, cutoff);
    hide Listing, Recent, ById;
  }

  lemma {:induction false} RecentAre(fs: seq<BrokerFill>, cutoff: int)
    ensures forall f :: f in Recent(fs, cutoff) <==> f in fs && f.executedAt >= cutoff
  {
    if fs != [] {
      RecentAre(fs[..|fs| - 1], cutoff);
      assert fs == fs[..|fs| - 1] + [fs[|fs| - 1]];
    }
  }

  // ----- fills: recorded, newly read, and missed -----

  function Recorded(fs: seq<BrokerFill>, known: set<string>): seq<BrokerFill> {
    if fs == [] then []
    else Recorded(fs[..|fs| - 1], known) + if fs[|fs| - 1].executionId in known then [fs[|fs| - 1]] else []
  }

  /** Unread fills that have already left the window a read covers. */
  function Missed(fs: seq<BrokerFill>, known: set<string>, cutoff: int): seq<BrokerFill> {
    if fs == [] then []
    else Missed(fs[..|fs| - 1], known, cutoff)
         + if fs[|fs| - 1].executionId !in known && fs[|fs| - 1].executedAt < cutoff then [fs[|fs| - 1]] else []
  }

  ghost predicate ExecutionsDistinct(fs: seq<BrokerFill>) {
    forall i, j :: 0 <= i < j < |fs| ==> fs[i].executionId != fs[j].executionId
  }

  lemma {:induction false} RecentIds(fs: seq<BrokerFill>, cutoff: int)
    ensures forall f :: f in Recent(fs, cutoff) ==> f in fs
  {
    if fs != [] {
      RecentIds(fs[..|fs| - 1], cutoff);
      assert fs == fs[..|fs| - 1] + [fs[|fs| - 1]];
    }
  }

  lemma LastIsNew(fs: seq<BrokerFill>, cutoff: int)
    requires fs != [] && ExecutionsDistinct(fs)
    ensures fs[|fs| - 1].executionId !in IdsOf(Recent(fs[..|fs| - 1], cutoff))
    ensures ExecutionsDistinct(fs[..|fs| - 1])
  {
    RecentIds(fs[..|fs| - 1], cutoff);
  }

  lemma NetSnoc(fs: seq<BrokerFill>, f: BrokerFill, c: int)
    ensures Net(fs + [f], c) == Net(fs, c) + if f.conId == c then f.Delta() else 0
  {
    assert (fs + [f])[..|fs|] == fs;
  }

  lemma NewFillsSnoc(fs: seq<BrokerFill>, f: BrokerFill, known: set<string>)
    requires f.executionId !in IdsOf(fs)
    ensures NewFills(fs + [f], known) == if f.executionId in known then NewFills(fs, known) else NewFills(fs, known) + [f]
  {
    assert (fs + [f])[..|fs|] == fs;
  }

  lemma NoFills(known: set<string>, cutoff: int, c: int)
    ensures Net([], c) == 0
    ensures Recorded([], known) == NewFills(Recent([], cutoff), known) == Missed([], known, cutoff) == []
  {}

  lemma OneMoreBrokerFill(init: seq<BrokerFill>, f: BrokerFill, known: set<string>, cutoff: int)
    requires f.executionId !in IdsOf(Recent(init, cutoff))
    ensures Recorded(init + [f], known) == if f.executionId in known then Recorded(init, known) + [f] else Recorded(init, known)
    ensures NewFills(Recent(init + [f], cutoff), known) ==
              if f.executionId !in known && f.executedAt >= cutoff then NewFills(Recent(init, cutoff), known) + [f]
              else NewFills(Recent(init, cutoff), known)
    ensures Missed(init + [f], known, cutoff) ==
              if f.executionId !in known && f.executedAt < cutoff then Missed(init, known, cutoff) + [f]
              else Missed(init, known, cutoff)
  {
    assert (init + [f])[..|init|] == init;
    NewFillsSnoc(Recent(init, cutoff), f, known);
    assert Recent(init + [f], cutoff) == if f.executedAt >= cutoff then Recent(init, cutoff) + [f] else Recent(init, cutoff);
    hide NewFills;
  }

  /** Every fill of the broker is recorded, read as new by this read, or missed by it: exactly one of the three. */
  lemma {:induction false} FillsPartition(fs: seq<BrokerFill>, known: set<string>, cutoff: int, c: int)
    requires ExecutionsDistinct(fs)
    ensures Net(fs, c) == Net(Recorded(fs, known), c) + Net(NewFills(Recent(fs, cutoff), known), c) + Net(Missed(fs, known, cutoff), c)
  {
    hide Net, NewFills, Recorded, Missed, Recent;
    if fs == [] {
      NoFills(known, cutoff, c);
    } else {
      var init, f := fs[..|fs| - 1], fs[|fs| - 1];
      assert init + [f] == fs;
      LastIsNew(fs, cutoff);
      FillsPartition(init, known, cutoff, c);
      OneMoreBrokerFill(init, f, known, cutoff);
      NetSnoc(init, f, c);
      NetSnoc(Recorded(init, known), f, c);
      NetSnoc(NewFills(Recent(init, cutoff), known), f, c);
      NetSnoc(Missed(init, known, cutoff), f, c);
    }
  }

  // ----- what the application recorded is what the broker executed -----

  ghost predicate FillsAgree(p: Process, t: Tables, b: Sim) {
    && FillsDistinct(t.fills)
    && forall i :: 0 <= i < |t.fills| ==> t.fills[i].runId == p.runId && t.fills[i].fill in b.fills
  }

  lemma {:induction false} AllOfOneRun(rows: seq<FillRow>, runId: string)
    requires forall i :: 0 <= i < |rows| ==> rows[i].runId == runId
    ensures |FillsOf(rows, runId)| == |rows| && forall i :: 0 <= i < |rows| ==> FillsOf(rows, runId)[i] == rows[i].fill
  {
    if rows != [] { AllOfOneRun(rows[..|rows| - 1], runId); }
  }

  lemma {:induction false} RecordedIs(fs: seq<BrokerFill>, known: set<string>)
    requires ExecutionsDistinct(fs)
    ensures forall f :: f in Recorded(fs, known) <==> f in fs && f.executionId in known
    ensures NoRepeats(Recorded(fs, known))
  {
    if fs != [] {
      var init, f := fs[..|fs| - 1], fs[|fs| - 1];
      RecordedIs(init, known);
      assert fs == init + [f];
      var earlier := Recorded(init, known);
      forall i | 0 <= i < |earlier| ensures earlier[i] != f {
        assert earlier[i] in init;
        var j :| 0 <= j < |init| && init[j] == earlier[i];
        assert fs[j].executionId != fs[|fs| - 1].executionId;
      }
    }
  }

  /** The fills this process recorded net to the recorded part of the broker's fills. */
  lemma RecordedFillsNet(p: Process, t: Tables, b: Sim, c: int)
    requires FillsAgree(p, t, b) && ExecutionsDistinct(b.fills)
    ensures Net(FillsOf(t.fills, p.runId), c) == Net(Recorded(b.fills, KnownExecutions(t.fills)), c)
  {
    var mine, theirs := FillsOf(t.fills, p.runId), Recorded(b.fills, KnownExecutions(t.fills));
    AllOfOneRun(t.fills, p.runId);
    RecordedIs(b.fills, KnownExecutions(t.fills));
    forall f ensures f in mine <==> f in theirs {
      if f in mine {
        var i :| 0 <= i < |mine| && mine[i] == f;
        assert t.fills[i] in t.fills;
      }
      if f in theirs {
        var r :| r in t.fills && r.fill.executionId == f.executionId;
        var i :| 0 <= i < |t.fills| && t.fills[i] == r;
        SameExecution(b.fills, r.fill, f);
        assert mine[i] == f;
      }
    }
    NetOfSameMembers(mine, theirs, c);
  }

  lemma SameExecution(fs: seq<BrokerFill>, f: BrokerFill, g: BrokerFill)
    requires ExecutionsDistinct(fs) && f in fs && g in fs && f.executionId == g.executionId
    ensures f == g
  {
    var i :| 0 <= i < |fs| && fs[i] == f;
    var j :| 0 <= j < |fs| && fs[j] == g;
  }

  lemma HonestIsDistinct(b: Sim)
    requires Honest(b)
    ensures ExecutionsDistinct(b.fills)
  {
    forall i, j | 0 <= i < j < |b.fills| ensures b.fills[i].executionId != b.fills[j].executionId {
      NamesAreDistinct(i + 1, j + 1);
    }
  }

  // ----- open rows and working orders -----

  /** A row the broker still works: open, and not marked for cancellation. */
  predicate Resting(r: OrderRow) { r.IsOpen() && !r.status.CancelPending? }

  function RestingIds(rows: Rows): set<string> {
    set i | 0 <= i < |rows| && Resting(rows[i]) && rows[i].brokerOrderId.Some? :: rows[i].brokerOrderId.value
  }

  /** The rows the broker works are its working orders; broker ids are the broker's names, each on one row. */
  ghost predicate OrdersAgree(rows: Rows, b: Sim) {
    && (forall i :: 0 <= i < |rows| && rows[i].IsOpen() ==> rows[i].brokerOrderId.Some?)
    && WorkingIds(b.working) == RestingIds(rows)
    && (forall i :: 0 <= i < |rows| && rows[i].brokerOrderId.Some? ==> UsedName(rows[i].brokerOrderId.value, b.orders))
    && (forall i, j :: 0 <= i < j < |rows| && rows[i].brokerOrderId.Some? ==> rows[i].brokerOrderId != rows[j].brokerOrderId)
  }

  predicate Cancelling(rows: Rows) { exists i :: 0 <= i < |rows| && rows[i].status.CancelPending? }

  /** The order comparison is clean exactly when no row is waiting for a cancellation. */
  lemma OrdersClearExactly(rows: Rows, b: Sim)
    requires OrdersAgree(rows, b)
    ensures var open := OpenRows(rows);
            (forall o :: o in open ==> o.brokerOrderId.Some?)
            && WorkingIds(b.working) == (set o | o in open && o.brokerOrderId.Some? :: o.brokerOrderId.value)
            <==> !Cancelling(rows)
  {
    var open := OpenRows(rows);
    var ids := set o | o in open && o.brokerOrderId.Some? :: o.brokerOrderId.value;
    OpenRowsAre(rows);
    if Cancelling(rows) {
      var i :| 0 <= i < |rows| && rows[i].status.CancelPending?;
      assert rows[i] in rows && rows[i] in open;
      assert rows[i].brokerOrderId.value in ids;
      assert rows[i].brokerOrderId.value !in RestingIds(rows);
    } else {
      forall x ensures x in ids <==> x in RestingIds(rows) {
        if x in ids {
          var o :| o in open && o.brokerOrderId == Some(x);
          var i :| 0 <= i < |rows| && rows[i] == o;
          assert Resting(rows[i]);
        }
        if x in RestingIds(rows) {
          var i :| 0 <= i < |rows| && Resting(rows[i]) && rows[i].brokerOrderId == Some(x);
          assert rows[i] in rows && rows[i] in open;
        }
      }
    }
  }

  // ----- the coupling -----

  ghost predicate Coupled(z: Session) {
    && HasBroker(z.process) && z.process.start == map[]
    && Conserved(z.process, z.tables)
    && FillsAgree(z.process, z.tables, z.broker)
    && Honest(z.broker)
    && Sound(z.tables.orders, z.tables.sent)
    && OrdersAgree(z.tables.orders, z.broker)
  }

  /** Broker position = book + newly read fills + missed fills, contract by contract. */
  lemma BrokerIsExplained(z: Session, cutoff: int)
    requires Coupled(z) && z.broker.connected
    ensures var v := AnswersOf(z.broker, cutoff).view.value;
            var known := KnownExecutions(z.tables.fills);
            && DistinctContracts(v.positions)
            && forall c :: Quantity(ById(v.positions), c)
                           == Quantity(z.process.book, c)
                              + Net(Missed(z.broker.fills, known, cutoff), c) + Net(NewFills(v.fills, known), c)
  {
    var p, t, b := z.process, z.tables, z.broker;
    var v, known := AnswersOf(b, cutoff).view.value, KnownExecutions(t.fills);
    ListingIsExact(b.positions);
    HonestIsDistinct(b);
    hide NewFills, Missed, Recorded, Listing, Recent;
    forall c ensures Quantity(ById(v.positions), c)
                     == Quantity(p.book, c) + Net(Missed(b.fills, known, cutoff), c) + Net(NewFills(v.fills, known), c)
    {
      FillsPartition(b.fills, known, cutoff, c);
      RecordedFillsNet(p, t, b, c);
    }
  }

  lemma WaitingIsFound(p: Process, t: Tables, b: Sim, v: BrokerView)
    requires OrdersAgree(t.orders, b) && v.working == b.working
    ensures Comparison(p, t, true, v).orderDiscrepancies == [] <==> !Cancelling(t.orders)
  {
    ClearsExactlyWhenExplained(p, t, true, v);
    OrdersClearExactly(t.orders, b);
    hide Comparison, OpenRows, OrdersAgree;
  }

  /**
   * Over a coupled session a reconciliation finds exactly two things: fills that were executed and left
   * the read window before any read saw them, contract by contract, and rows waiting for a cancel.
   */
  lemma CoupledComparison(z: Session, cutoff: int)
    requires Coupled(z) && z.broker.connected
    ensures var v := AnswersOf(z.broker, cutoff).view.value;
            var r := Comparison(z.process, z.tables, true, v);
            var missed := Missed(z.broker.fills, KnownExecutions(z.tables.fills), cutoff);
            && (r.positionDiscrepancies == [] <==> NetsToZero(missed))
            && (forall d :: d in r.positionDiscrepancies ==> d.Delta() == Net(missed, d.conId))
            && (r.orderDiscrepancies == [] <==> !Cancelling(z.tables.orders))
            && DistinctContracts(v.positions)
  {
    hide Comparison, NewFills, Missed, Listing, Recent, Honest, Sound, FillsAgree, Conserved, OrdersAgree, ById, Cancelling;
    var v := AnswersOf(z.broker, cutoff).view.value;
    BrokerIsExplained(z, cutoff);
    LackingIsFound(z.process, z.tables, true, v, Missed(z.broker.fills, KnownExecutions(z.tables.fills), cutoff));
    WaitingIsFound(z.process, z.tables, z.broker, v);
  }

  // ----- handling an intent against this broker -----

  function Put(rows: Rows, i: nat, x: OrderRow): Rows { if i < |rows| then rows[i := x] else rows + [x] }

  /** A row that means nothing to the broker: not open, and without a broker id. */
  predicate Idle(r: OrderRow) { !r.IsOpen() && r.brokerOrderId.None? }

  lemma SubmissionIgnoresReply(p: Process, t: Tables, h: Handling, reply: Reply, c: QualifiedContract)
    ensures SubmissionOf(p, t, h.(reply := reply), c) == SubmissionOf(p, t, h, c).(reply := reply)
  {}

  lemma JudgingIgnoresReply(config: Config, rows: Rows, s: Submission, reply: Reply)
    ensures ApprovalsOf(config, s.(reply := reply)) == ApprovalsOf(config, s)
    ensures WorkingRow(rows, s.(reply := reply)) == WorkingRow(rows, s)
    ensures Proceeds(rows, s.(reply := reply)) == Proceeds(rows, s)
  {
    hide Risk.RiskReasons, Gate.GateReasons;
  }

  lemma IntendedIgnoresReply(p: Process, t: Tables, h: Handling, reply: Reply)
    ensures Intended(p, t, h.(reply := reply)) == Intended(p, t, h)
  {
    assert Acceptable(p, h.(reply := reply)) == Acceptable(p, h);
    if p.contract.Some? {
      SubmissionIgnoresReply(p, t, h, reply, p.contract.value);
      JudgingIgnoresReply(p.config, t.orders, SubmissionOf(p, t, h, p.contract.value), reply);
    }
    hide Acceptable, ApprovalsOf, WorkingRow, Proceeds, SubmissionOf;
  }

  /** How an uncut submission leaves the order table. */
  lemma SubmissionEnds(a: Approvals, t: Tables, s: Submission)
    requires Distinct(t.orders) && FreshId(t.orders, s.freshId)
    ensures var c := CourseOf(a, t.orders, s);
            var rows' := ApplyAll(t, Submit(a, t.orders, s).effects).orders;
            && c.Ok()
            && rows' == if !Proceeds(t.orders, s) then t.orders
                        else c.table[c.slot := if c.refusal != [] then c.blocked else c.answer]
  {
    var es := Submit(a, t.orders, s).effects;
    assert es[..|es|] == es;
    SubmissionDiesAtAStage(a, t, s, |es|);
    EffectsFollowCourse(a, t.orders, s);
    hide Submit;
  }

  lemma SubmissionPuts(a: Approvals, t: Tables, s: Submission) returns (i: nat, x: OrderRow)
    requires Distinct(t.orders) && FreshId(t.orders, s.freshId)
    ensures var rows' := ApplyAll(t, Submit(a, t.orders, s).effects).orders;
            && i <= |t.orders|
            && (!Proceeds(t.orders, s) ==> rows' == t.orders)
            && (Proceeds(t.orders, s) ==> rows' == Put(t.orders, i, x) && (i < |t.orders| ==> !t.orders[i].WasTransmitted()))
            && (Proceeds(t.orders, s) && CourseOf(a, t.orders, s).refusal != [] ==> Idle(x))
            && (Proceeds(t.orders, s) && CourseOf(a, t.orders, s).refusal == [] ==>
                  x == AfterReply(WorkingRow(t.orders, s).AsPendingSubmit(s.now), s.reply, s.repliedAt)
                  && WorkingRow(t.orders, s).brokerOrderId.None?)
  {
    SubmissionEnds(a, t, s);
    var c := CourseOf(a, t.orders, s);
    i, x := c.slot, if c.refusal != [] then c.blocked else c.answer;
    hide Submit;
    assert c.table == t.orders + [c.order] ==> c.slot == |t.orders| || c.slot < |t.orders|;
    assert Put(t.orders, i, x) == c.table[c.slot := x];
  }

  lemma HandledUncut(p: Process, t: Tables, h: Handling)
    ensures ApplyAll(t, Handled(p, t, h).effects) == ApplyAll(Apply(t, SignalOf(h)), SubmissionEffects(p, t, h))
  {
    var es, sub := Handled(p, t, h).effects, SubmissionEffects(p, t, h);
    assert es[..|es|] == es && sub[..|es| - 1] == sub;
    hide SubmissionEffects;
    HandledCut(p, t, h, |es|);
  }

  lemma IntendedIs(p: Process, t: Tables, h: Handling)
    requires HasBroker(p) && (p.inTick || p.admin) && Submits(p, t, h)
    ensures var s := SubmissionOf(p, t, h, p.contract.value);
            Intended(p, t, h) ==
              if Proceeds(t.orders, s) && CourseOf(ApprovalsOf(p.config, s), t.orders, s).refusal == []
              then Some(RequestOf(WorkingRow(t.orders, s).AsPendingSubmit(s.now))) else None
  {
    var s := SubmissionOf(p, t, h, p.contract.value);
    RefusedUnlessApproved(ApprovalsOf(p.config, s), t.orders, s);
    hide ApprovalsOf, Acceptable, CourseOf, Proceeds, WorkingRow, SubmissionOf;
  }

  /** Handling an intent puts at most one row: the answered one exactly when there was an order to send. */
  lemma HandledPuts(p: Process, t: Tables, h: Handling) returns (i: nat, x: OrderRow, pending: OrderRow)
    requires Distinct(t.orders) && FreshId(t.orders, h.freshId) && HasBroker(p) && (p.inTick || p.admin)
    requires Submits(p, t, h)
    ensures var rows' := ApplyAll(t, Handled(p, t, h).effects).orders;
            && i <= |t.orders|
            && (rows' == t.orders || (rows' == Put(t.orders, i, x) && (i < |t.orders| ==> !t.orders[i].WasTransmitted())))
            && (Intended(p, t, h).None? ==> rows' == t.orders || Idle(x))
            && (Intended(p, t, h).Some? ==>
                  && rows' == Put(t.orders, i, x) && (i < |t.orders| ==> !t.orders[i].WasTransmitted())
                  && x == AfterReply(pending, h.reply, h.times.replied)
                  && pending.brokerOrderId.None? && Intended(p, t, h) == Some(RequestOf(pending)))
  {
    hide ApprovalsOf, Acceptable, Submit, CourseOf, Proceeds, WorkingRow, Intended, Put, Handled;
    var s := SubmissionOf(p, t, h, p.contract.value);
    HandledUncut(p, t, h);
    IntendedIs(p, t, h);
    i, x := SubmissionPuts(ApprovalsOf(p.config, s), Apply(t, SignalOf(h)), s);
    pending := WorkingRow(t.orders, s).AsPendingSubmit(s.now);
  }

  lemma RefusedUnlessApproved(a: Approvals, rows: Rows, s: Submission)
    ensures CourseOf(a, rows, s).refusal == [] <==> a == Approvals([], []) && WorkingRow(rows, s).orderType.Transmittable()
  {}

  lemma RestingAfterPut(rows: Rows, i: nat, x: OrderRow)
    requires i <= |rows| && (i < |rows| ==> !rows[i].WasTransmitted())
    ensures RestingIds(Put(rows, i, x))
         == RestingIds(rows) + if Resting(x) && x.brokerOrderId.Some? then {x.brokerOrderId.value} else {}
  {
    var rows' := Put(rows, i, x);
    forall id ensures id in RestingIds(rows') <==>
                        id in RestingIds(rows) || (Resting(x) && x.brokerOrderId == Some(id))
    {
      if id in RestingIds(rows) {
        var j :| 0 <= j < |rows| && Resting(rows[j]) && rows[j].brokerOrderId == Some(id);
        assert rows'[j] == rows[j];
      }
      if Resting(x) && x.brokerOrderId == Some(id) { assert rows'[i] == x; }
    }
  }

  /** Putting a row the broker knows nothing of changes nothing between them. */
  lemma IdlePutAgrees(rows: Rows, i: nat, x: OrderRow, b: Sim)
    requires OrdersAgree(rows, b) && i <= |rows| && (i < |rows| ==> !rows[i].WasTransmitted()) && Idle(x)
    ensures OrdersAgree(Put(rows, i, x), b)
  {
    RestingAfterPut(rows, i, x);
  }

  /** Putting a row under the broker's newest name keeps both sides in step if the order rests or is done. */
  lemma NamedPutAgrees(rows: Rows, i: nat, x: OrderRow, b: Sim, b': Sim)
    requires OrdersAgree(rows, b) && i <= |rows| && (i < |rows| ==> !rows[i].WasTransmitted())
    requires b'.orders == b.orders + 1 && x.brokerOrderId == Some(OrderName(b'.orders)) && !x.status.CancelPending?
    requires WorkingIds(b'.working) == WorkingIds(b.working) + if x.IsOpen() then {OrderName(b'.orders)} else {}
    ensures OrdersAgree(Put(rows, i, x), b')
  {
    RestingAfterPut(rows, i, x);
    NextNameIsUnused(b.orders);
    var rows' := Put(rows, i, x);
    assert UsedName(OrderName(b'.orders), b'.orders);
    forall j | 0 <= j < |rows'| && j != i && rows'[j].brokerOrderId.Some?
      ensures UsedName(rows'[j].brokerOrderId.value, b'.orders) && rows'[j].brokerOrderId != x.brokerOrderId
    {
      assert rows'[j] == rows[j];
      UsedStaysUsed(rows[j].brokerOrderId.value, b.orders, b'.orders);
    }
  }

  lemma PlacementNames(b: Sim, q: Request, c: QualifiedContract, price: real, at: int)
    ensures var r := Placed(b, q, c, price, at);
            if r.reply.Raised? then r.broker == b
            else r.broker.orders == b.orders + 1 && r.reply.accepted && r.reply.brokerOrderId == Some(OrderName(b.orders + 1))
                 && (r.reply.status.Submitted? || r.reply.status.Filled?)
  {}

  /** An order placed and answered keeps rows and working orders in step, whatever the answer was. */
  lemma AnsweredPutAgrees(rows: Rows, i: nat, pending: OrderRow, b: Sim, q: Request, c: QualifiedContract,
                          price: real, at: int, repliedAt: int)
    requires OrdersAgree(rows, b) && Honest(b) && i <= |rows| && (i < |rows| ==> !rows[i].WasTransmitted())
    requires pending.brokerOrderId.None?
    ensures var r := Placed(b, q, c, price, at);
            OrdersAgree(Put(rows, i, AfterReply(pending, r.reply, repliedAt)), r.broker)
  {
    PlacementNames(b, q, c, price, at);
    PlacementOnWorking(b, q, c, price, at);
    hide Placed, OrdersAgree, Honest;
    var r := Placed(b, q, c, price, at);
    var x := AfterReply(pending, r.reply, repliedAt);
    if r.reply.Raised? { IdlePutAgrees(rows, i, x, b); } else { NamedPutAgrees(rows, i, x, b, r.broker); }
  }

  // ----- every act keeps the coupling -----

  ghost predicate AllowedAct(z: Session, a: Act) {
    Allowed(System(Some(z.process), z.tables), EventOf(z, a))
  }

  lemma HandleAgrees(z: Session, h: Handling, price: real, at: int)
    requires Sound(z.tables.orders, z.tables.sent) && OrdersAgree(z.tables.orders, z.broker) && Honest(z.broker)
    requires HasBroker(z.process) && FreshId(z.tables.orders, h.freshId)
    ensures var next := Next(System(Some(z.process), z.tables), Step(EventOf(z, Handle(h, price, at)), None));
            OrdersAgree(next.tables.orders, BrokerAfter(z, Handle(h, price, at)))
  {
    hide Next, Intended, Placed, OrdersAgree, Honest, Handled, Backed, Put, Idle, AfterReply;
    var p, t := z.process, z.tables;
    var h' := h.(reply := PlacementOf(z, h, price, at).reply);
    IntendedIgnoresReply(p, t, h, h'.reply);
    if p.inTick || p.admin {
      HandledIsNext(System(Some(p), t), h');
      if Submits(p, t, h') {
        hide Submits;
        var i, x, pending := HandledPuts(p, t, h');
        if Intended(p, t, h).Some? {
          SubmitsNeedContract(p, t, h');
          AnsweredPutAgrees(t.orders, i, pending, z.broker, RequestOf(pending), p.contract.value, price, at, h'.times.replied);
        } else if ApplyAll(t, Handled(p, t, h').effects).orders != t.orders {
          IdlePutAgrees(t.orders, i, x, z.broker);
        }
      } else {
        hide Submits;
        Unsubmitted(p, t, h');
      }
    } else {
      Ignored(System(Some(p), t), h');
      NotIntended(p, t, h);
    }
  }

  lemma NotIntended(p: Process, t: Tables, h: Handling)
    requires !(p.inTick || p.admin)
    ensures Intended(p, t, h).None?
  {}

  lemma SubmitsNeedContract(p: Process, t: Tables, h: Handling)
    requires Submits(p, t, h)
    ensures p.contract.Some?
  {}

  lemma Unsubmitted(p: Process, t: Tables, h: Handling)
    requires !Submits(p, t, h)
    ensures ApplyAll(t, Handled(p, t, h).effects).orders == t.orders && Intended(p, t, h).None?
  {
    HandledUncut(p, t, h);
    hide Handled, Acceptable;
  }

  lemma NothingRestsAfterCancel(rows: Rows, rows': Rows, at: int, b: Sim)
    requires OrdersAgree(rows, b) && |rows'| == |rows|
    requires forall i :: 0 <= i < |rows'| ==> rows'[i] == if rows[i].IsOpen() then rows[i].WithStatus(CancelPending, at) else rows[i]
    ensures OrdersAgree(rows', b.(working := []))
  {
    assert RestingIds(rows') == {} == WorkingIds([]);
  }

  lemma CancelAgrees(z: Session, at: int)
    requires Sound(z.tables.orders, z.tables.sent) && OrdersAgree(z.tables.orders, z.broker)
    ensures OrdersAgree(ApplyAll(z.tables, CancelEffects(OpenRows(z.tables.orders), at)).orders, z.broker.(working := []))
  {
    hide CancelEffects, Backed, OrdersAgree;
    CancelAllIsExact(z.tables, at);
    NothingRestsAfterCancel(z.tables.orders, ApplyAll(z.tables, CancelEffects(OpenRows(z.tables.orders), at)).orders, at, z.broker);
  }

  lemma CancelIsNext(s: System, at: int)
    requires s.process.Some? && HasBroker(s.process.value)
    ensures Next(s, Step(CancelAll(at), None)) == System(s.process, ApplyAll(s.tables, CancelEffects(OpenRows(s.tables.orders), at)))
  {
    hide Comparison, Handled, Reconciled, StatusEffects, Started, CancelEffects;
  }

  lemma OrdersStayAgreed(z: Session, a: Act)
    requires Sound(z.tables.orders, z.tables.sent) && OrdersAgree(z.tables.orders, z.broker) && Honest(z.broker)
    requires HasBroker(z.process) && AllowedAct(z, a)
    ensures OrdersAgree(Onward(z, a).tables.orders, Onward(z, a).broker)
  {
    var s, step := System(Some(z.process), z.tables), Step(EventOf(z, a), None);
    hide Next, Honest, Backed;
    match a {
      case Handle(h, price, at) => HandleAgrees(z, h, price, at);
      case CancelWorking(at) => if z.broker.connected { CancelIsNext(s, at); CancelAgrees(z, at); }
      case SetSession(_) =>
      case SetDenied(_) =>
      case _ => OthersTouchNoOrder(s, step);
    }
  }

  lemma BrokerStaysHonest(z: Session, a: Act)
    requires Honest(z.broker)
    ensures Honest(BrokerAfter(z, a)) && z.broker.fills <= BrokerAfter(z, a).fills
  {
    hide Intended;
    if a.Handle? {
      var q := Intended(z.process, z.tables, a.handling);
      if q.Some? && z.process.contract.Some? {
        PlacingStaysHonest(z.broker, q.value, z.process.contract.value, a.price, a.at);
        PlacingKeepsFills(z.broker, q.value, z.process.contract.value, a.price, a.at);
      }
    }
  }

  lemma PlacingKeepsFills(b: Sim, q: Request, c: QualifiedContract, price: real, at: int)
    ensures b.fills <= Placed(b, q, c, price, at).broker.fills
  {}

  /** A reconciliation never ends the process: the broker lists every contract once. */
  lemma CheckSurvives(p: Process, t: Tables, b: Sim, cutoff: int)
    requires BookOk(b.positions)
    ensures Reconciled(p, t, AnswersOf(b, cutoff)).process.Some?
  {
    ListingIsExact(b.positions);
    hide Comparison, DistinctContracts, Listing, Recent;
  }

  lemma ProcessSurvives(z: Session, a: Act)
    requires Honest(z.broker) && HasBroker(z.process)
    ensures Next(System(Some(z.process), z.tables), Step(EventOf(z, a), None)).process.Some?
  {
    if a.Check? {
      hide Reconciled, Listing, Handled, StatusEffects, Started;
      CheckSurvives(z.process, z.tables, z.broker, a.cutoff);
    } else {
      hide Reconciled, SubmissionEffects, StatusEffects, Started, Acceptable, PlacementOf;
    }
  }

  lemma RecordingAgrees(p: Process, t: Tables, b: Sim, cutoff: int)
    requires FillsAgree(p, t, b)
    ensures FillsAgree(p, ApplyAll(t, Reconciled(p, t, AnswersOf(b, cutoff)).effects), b)
  {
    var answers := AnswersOf(b, cutoff);
    ReconciledTables(p, t, answers);
    var fs := Applied(t, answers);
    hide Reconciled, Adopts;
    if b.connected {
      RecordingKeepsDistinct(t.fills, Recent(b.fills, cutoff), t.orders, p.runId, |fs|);
      assert fs[..|fs|] == fs;
      NewFillsIds(Recent(b.fills, cutoff), KnownExecutions(t.fills));
      RecentIds(b.fills, cutoff);
    }
    FillRowsBelong(fs, t.orders, p.runId);
  }

  lemma {:induction false} FillRowsBelong(fs: seq<BrokerFill>, orders: Rows, runId: string)
    ensures forall i :: 0 <= i < |FillRows(fs, orders, runId)| ==>
              FillRows(fs, orders, runId)[i].runId == runId && FillRows(fs, orders, runId)[i].fill in fs
  {
    if fs != [] {
      FillRowsBelong(fs[..|fs| - 1], orders, runId);
      assert fs == fs[..|fs| - 1] + [fs[|fs| - 1]];
    }
  }

  lemma MoreFillsAgree(p: Process, p': Process, t: Tables, t': Tables, b: Sim, b': Sim)
    requires FillsAgree(p, t, b) && t'.fills == t.fills && b.fills <= b'.fills && p'.runId == p.runId
    ensures FillsAgree(p', t', b')
  {
    forall i | 0 <= i < |t.fills| ensures t.fills[i].fill in b'.fills {
      var j :| 0 <= j < |b.fills| && b.fills[j] == t.fills[i].fill;
      assert b'.fills[j] == b.fills[j];
    }
  }

  lemma FillsStayAgreed(z: Session, a: Act)
    requires FillsAgree(z.process, z.tables, z.broker) && Honest(z.broker) && HasBroker(z.process)
    ensures FillsAgree(Onward(z, a).process, Onward(z, a).tables, Onward(z, a).broker)
  {
    hide Next, FillsAgree, Honest, ReconcilingReaction;
    var s, step := System(Some(z.process), z.tables), Step(EventOf(z, a), None);
    BrokerStaysHonest(z, a);
    if !TouchesApplication(z, a) {
      MoreFillsAgree(z.process, z.process, z.tables, z.tables, z.broker, BrokerAfter(z, a));
    } else {
      ProcessSurvives(z, a);
      IdentityIsFixed(s, step);
      if a.Check? {
        ReconcilingStep(s, step);
        CheckEffects(z.process, z.tables, EventOf(z, a));
        RecordingAgrees(z.process, z.tables, z.broker, a.cutoff);
        MoreFillsAgree(z.process, Onward(z, a).process, Onward(z, a).tables, Onward(z, a).tables, z.broker, z.broker);
      } else {
        NeutralSteps(s, step);
        MoreFillsAgree(z.process, Onward(z, a).process, z.tables, Onward(z, a).tables, z.broker, BrokerAfter(z, a));
      }
    }
  }

  lemma CheckEffects(p: Process, t: Tables, e: Event)
    requires Reconciles(e)
    ensures ReconcilingReaction(p, t, e).effects == Reconciled(p, t, e.answers).effects
  {
    hide Reconciled;
  }

  lemma ActKeepsCoupling(z: Session, a: Act)
    requires Coupled(z) && AllowedAct(z, a)
    ensures Coupled(Onward(z, a))
  {
    hide Next, FillsAgree, Honest, OrdersAgree, Sound, Conserved, Allowed;
    var s, step := System(Some(z.process), z.tables), Step(EventOf(z, a), None);
    BrokerStaysHonest(z, a);
    FillsStayAgreed(z, a);
    OrdersStayAgreed(z, a);
    if TouchesApplication(z, a) {
      ProcessSurvives(z, a);
      IdentityIsFixed(s, step);
      StepConserves(s, step);
      StepKeepsSound(s, step);
    }
  }

  ghost predicate AllowedPlay(z: Session, acts: seq<Act>) {
    forall n :: 0 <= n < |acts| ==> AllowedAct(Play(z, acts[..n]), acts[n])
  }

  lemma {:induction false} PlayKeepsCoupling(z: Session, acts: seq<Act>)
    requires Coupled(z) && AllowedPlay(z, acts)
    ensures Coupled(Play(z, acts))
  {
    hide Onward, Coupled, AllowedAct;
    if acts != [] {
      var init := acts[..|acts| - 1];
      forall n | 0 <= n < |init| ensures AllowedAct(Play(z, init[..n]), init[n]) { assert init[..n] == acts[..n]; }
      PlayKeepsCoupling(z, init);
      ActKeepsCoupling(Play(z, init), acts[|init|]);
    }
  }

  /** A process just started on empty tables, beside a flat broker. */
  function Opening(config: Config, runId: string, fillsMarket: bool): Session {
    Session(Started(EMPTY, config, runId, false, {}), EMPTY.(state := map[LAST_RUN_KEY := runId]),
            Sim(false, false, fillsMarket, map[], [], [], 0, 0))
  }

  lemma OpeningIsCoupled(config: Config, runId: string, fillsMarket: bool)
    requires !config.mode.Disabled?
    ensures Coupled(Opening(config, runId, fillsMarket))
  {
    var z := Opening(config, runId, fillsMarket);
    assert z.broker.working == [] && WorkingIds(z.broker.working) == {} == RestingIds(z.tables.orders);
  }

  /**
   * Simulated-session coupling: after any sequence of submissions - filling, resting, refused for want of a
   * session or of permission - reconciliations, disconnects and cancel-alls in one process, a
   * reconciliation over a live session succeeds exactly when no fill slipped past every read with a net
   * effect and no row waits for a cancel; each discrepancy is the net of the fills missed; and after
   * success with nothing missed the book is the net of every fill the broker ever made.
   */
  lemma SimulatedReconciliation(config: Config, runId: string, fillsMarket: bool, acts: seq<Act>, cutoff: int)
    requires !config.mode.Disabled? && AllowedPlay(Opening(config, runId, fillsMarket), acts)
    ensures var z := Play(Opening(config, runId, fillsMarket), acts);
            var missed := Missed(z.broker.fills, KnownExecutions(z.tables.fills), cutoff);
            z.broker.connected ==>
              var answers := AnswersOf(z.broker, cutoff);
              var r := Comparison(z.process, z.tables, true, answers.view.value);
              var after := Reconciled(z.process, z.tables, answers);
              && (r.Succeeded() <==> NetsToZero(missed) && !Cancelling(z.tables.orders))
              && (forall d :: d in r.positionDiscrepancies ==> d.Delta() == Net(missed, d.conId))
              && after.process.Some?
              && (NetsToZero(missed) ==> forall c :: Quantity(after.process.value.book, c) == Net(z.broker.fills, c))
  {
    hide Onward, Coupled, AllowedAct, Comparison, Missed;
    var z := Play(Opening(config, runId, fillsMarket), acts);
    OpeningIsCoupled(config, runId, fillsMarket);
    PlayKeepsCoupling(Opening(config, runId, fillsMarket), acts);
    if z.broker.connected {
      CoupledComparison(z, cutoff);
      CoupledResult(z, cutoff);
      ClearsExactlyWhenExplained(z.process, z.tables, true, AnswersOf(z.broker, cutoff).view.value);
    }
  }

  lemma CoupledResult(z: Session, cutoff: int)
    requires Coupled(z) && z.broker.connected
    ensures var missed := Missed(z.broker.fills, KnownExecutions(z.tables.fills), cutoff);
            var after := Reconciled(z.process, z.tables, AnswersOf(z.broker, cutoff));
            && after.process.Some?
            && (NetsToZero(missed) ==> forall c :: Quantity(after.process.value.book, c) == Net(z.broker.fills, c))
  {
    CheckSurvives(z.process, z.tables, z.broker, cutoff);
    BrokerIsExplained(z, cutoff);
    ListingIsExact(z.broker.positions);
    BookAfterReconciling(z.process, z.tables, AnswersOf(z.broker, cutoff));
    hide Reconciled, NewFills, Missed, ById, Listing, Recent;
  }

  // ----- what a cancel-all costs -----

  lemma HandleKeepsCancelling(z: Session, h: Handling, price: real, at: int)
    requires Coupled(z) && FreshId(z.tables.orders, h.freshId) && Cancelling(z.tables.orders)
    ensures Cancelling(Next(System(Some(z.process), z.tables), Step(EventOf(z, Handle(h, price, at)), None)).tables.orders)
  {
    hide Next, Honest, OrdersAgree, Conserved, FillsAgree, Handled, Intended, PlacementOf, Backed;
    var p, t := z.process, z.tables;
    var h' := h.(reply := PlacementOf(z, h, price, at).reply);
    if p.inTick || p.admin {
      HandledIsNext(System(Some(p), t), h');
      if Submits(p, t, h') {
        hide Submits;
        var i, x, pending := HandledPuts(p, t, h');
        if ApplyAll(t, Handled(p, t, h').effects).orders != t.orders { PutKeepsCancelling(t.orders, i, x); }
      } else {
        Unsubmitted(p, t, h');
        hide Submits;
      }
    } else {
      Ignored(System(Some(p), t), h');
    }
  }

  lemma PutKeepsCancelling(rows: Rows, i: nat, x: OrderRow)
    requires i <= |rows| && (i < |rows| ==> !rows[i].WasTransmitted()) && Cancelling(rows)
    ensures Cancelling(Put(rows, i, x))
  {
    var j :| 0 <= j < |rows| && rows[j].status.CancelPending?;
    assert Put(rows, i, x)[j] == rows[j];
  }

  lemma CancellingAll(t: Tables, at: int)
    requires Distinct(t.orders)
    ensures Cancelling(ApplyAll(t, CancelEffects(OpenRows(t.orders), at)).orders)
            <==> exists i :: 0 <= i < |t.orders| && t.orders[i].IsOpen()
  {
    CancelAllIsExact(t, at);
    hide CancelEffects;
    var rows' := ApplyAll(t, CancelEffects(OpenRows(t.orders), at)).orders;
    if i :| 0 <= i < |t.orders| && t.orders[i].IsOpen() { assert rows'[i].status.CancelPending?; }
  }

  /**
   * A cancel-all on a live session leaves rows waiting exactly when something was open, that is, when the
   * broker was working an order or a row was waiting already.
   */
  lemma CancelWaitsExactly(z: Session, at: int)
    requires Coupled(z) && z.broker.connected
    ensures Cancelling(Onward(z, CancelWorking(at)).tables.orders)
            <==> Cancelling(z.tables.orders) || z.broker.working != []
  {
    hide Next, Honest, Conserved, FillsAgree, CancelEffects, Backed;
    CancelIsNext(System(Some(z.process), z.tables), at);
    CancellingAll(z.tables, at);
    OpenIsRestingOrWaiting(z.tables.orders, z.broker);
  }

  lemma OpenIsRestingOrWaiting(rows: Rows, b: Sim)
    requires OrdersAgree(rows, b)
    ensures (exists i :: 0 <= i < |rows| && rows[i].IsOpen()) <==> Cancelling(rows) || b.working != []
  {
    if b.working != [] {
      assert b.working[0].brokerOrderId in WorkingIds(b.working);
      var i :| 0 <= i < |rows| && Resting(rows[i]);
    }
    if i :| 0 <= i < |rows| && rows[i].IsOpen() {
      if Resting(rows[i]) { assert rows[i].brokerOrderId.value in RestingIds(rows); }
    }
  }

  lemma ActKeepsCancelling(z: Session, a: Act)
    requires Coupled(z) && AllowedAct(z, a) && Cancelling(z.tables.orders)
    ensures Cancelling(Onward(z, a).tables.orders)
  {
    hide Next, Cancelling, Honest, OrdersAgree, Conserved, FillsAgree, Backed;
    match a {
      case Handle(h, price, at) => HandleKeepsCancelling(z, h, price, at);
      case CancelWorking(at) => if z.broker.connected { CancelWaitsExactly(z, at); }
      case SetSession(_) =>
      case SetDenied(_) =>
      case _ => OthersTouchNoOrder(System(Some(z.process), z.tables), Step(EventOf(z, a), None));
    }
  }

  /** In a simulated session nothing ever completes a cancel, so once a row waits no reconciliation succeeds again. */
  lemma {:induction false} WaitingForever(z: Session, acts: seq<Act>, cutoff: int)
    requires Coupled(z) && Cancelling(z.tables.orders) && AllowedPlay(z, acts)
    ensures var z' := Play(z, acts);
            && Coupled(z') && Cancelling(z'.tables.orders)
            && !Adopts(z'.process, z'.tables, AnswersOf(z'.broker, cutoff))
  {
    hide Onward, Coupled, AllowedAct, Cancelling;
    if acts != [] {
      var init := acts[..|acts| - 1];
      forall n | 0 <= n < |init| ensures AllowedAct(Play(z, init[..n]), init[n]) { assert init[..n] == acts[..n]; }
      WaitingForever(z, init, cutoff);
      ActKeepsCoupling(Play(z, init), acts[|init|]);
      ActKeepsCancelling(Play(z, init), acts[|init|]);
    }
    NeverWhileWaiting(Play(z, acts), cutoff);
  }

  lemma NeverWhileWaiting(z: Session, cutoff: int)
    requires Coupled(z) && Cancelling(z.tables.orders)
    ensures !Adopts(z.process, z.tables, AnswersOf(z.broker, cutoff))
  {
    hide Comparison, Coupled, Missed, Listing, Recent;
    if z.broker.connected {
      CoupledComparison(z, cutoff);
      ClearsExactlyWhenExplained(z.process, z.tables, true, AnswersOf(z.broker, cutoff).view.value);
    }
  }

  // ----- sessions without a cancel-all -----

  lemma PutWaits(rows: Rows, i: nat, x: OrderRow)
    requires Cancelling(Put(rows, i, x)) && !x.status.CancelPending?
    ensures Cancelling(rows)
  {
    var rows' := Put(rows, i, x);
    var j :| 0 <= j < |rows'| && rows'[j].status.CancelPending?;
    assert rows'[j] == rows[j];
  }

  lemma AnswersNeverWait(pending: OrderRow, b: Sim, q: Request, c: QualifiedContract, price: real, at: int, repliedAt: int)
    ensures !AfterReply(pending, Placed(b, q, c, price, at).reply, repliedAt).status.CancelPending?
  {
    PlacementNames(b, q, c, price, at);
    hide Placed;
  }

  lemma HandleNeverWaits(z: Session, h: Handling, price: real, at: int)
    requires Coupled(z) && FreshId(z.tables.orders, h.freshId)
    requires Cancelling(Next(System(Some(z.process), z.tables), Step(EventOf(z, Handle(h, price, at)), None)).tables.orders)
    ensures Cancelling(z.tables.orders)
  {
    hide Next, Honest, OrdersAgree, Conserved, FillsAgree, Handled, Intended, Placed, Backed, Put, Cancelling, AfterReply;
    var p, t := z.process, z.tables;
    var h' := h.(reply := PlacementOf(z, h, price, at).reply);
    IntendedIgnoresReply(p, t, h, h'.reply);
    if p.inTick || p.admin {
      HandledIsNext(System(Some(p), t), h');
      if Submits(p, t, h') {
        SubmitsNeedContract(p, t, h');
        hide Submits;
        var i, x, pending := HandledPuts(p, t, h');
        if Intended(p, t, h).Some? {
          AnswersNeverWait(pending, z.broker, RequestOf(pending), p.contract.value, price, at, h'.times.replied);
        }
        if ApplyAll(t, Handled(p, t, h').effects).orders != t.orders { PutWaits(t.orders, i, x); }
      } else {
        Unsubmitted(p, t, h');
        hide Submits;
      }
    } else {
      Ignored(System(Some(p), t), h');
    }
  }

  /** Only a cancel-all makes a row wait. */
  lemma OnlyCancelsMakeWait(z: Session, a: Act)
    requires Coupled(z) && AllowedAct(z, a) && Cancelling(Onward(z, a).tables.orders)
    ensures Cancelling(z.tables.orders) || a.CancelWorking?
  {
    hide Next, Cancelling, Honest, OrdersAgree, Conserved, FillsAgree, Backed;
    match a {
      case Handle(h, price, at) => HandleNeverWaits(z, h, price, at);
      case CancelWorking(_) =>
      case SetSession(_) =>
      case SetDenied(_) =>
      case _ => OthersTouchNoOrder(System(Some(z.process), z.tables), Step(EventOf(z, a), None));
    }
  }

  predicate CancelFree(acts: seq<Act>) { forall n :: 0 <= n < |acts| ==> !acts[n].CancelWorking? }

  lemma {:induction false} NothingWaits(z: Session, acts: seq<Act>)
    requires Coupled(z) && !Cancelling(z.tables.orders) && AllowedPlay(z, acts) && CancelFree(acts)
    ensures Coupled(Play(z, acts)) && !Cancelling(Play(z, acts).tables.orders)
  {
    hide Onward, Coupled, AllowedAct, Cancelling;
    if acts != [] {
      var init := acts[..|acts| - 1];
      forall n | 0 <= n < |init| ensures AllowedAct(Play(z, init[..n]), init[n]) { assert init[..n] == acts[..n]; }
      NothingWaits(z, init);
      ActKeepsCoupling(Play(z, init), acts[|init|]);
      if Cancelling(Play(z, acts).tables.orders) { OnlyCancelsMakeWait(Play(z, init), acts[|init|]); }
    }
  }

  lemma {:induction false} NothingMissed(fs: seq<BrokerFill>, known: set<string>, cutoff: int)
    requires forall f :: f in fs ==> f.executionId in known || f.executedAt >= cutoff
    ensures Missed(fs, known, cutoff) == []
  {
    if fs != [] {
      assert fs[|fs| - 1] in fs;
      NothingMissed(fs[..|fs| - 1], known, cutoff);
    }
  }

  lemma NoFillsNetToZero()
    ensures NetsToZero([])
  {}

  /** The ids of all open rows. */
  function OpenIds(rows: Rows): set<string> {
    set o | o in OpenRows(rows) && o.brokerOrderId.Some? :: o.brokerOrderId.value
  }

  /**
   * The plain result: in one process, from empty tables and a flat broker, after any submissions - filling,
   * resting or refused - reconciliations and disconnects, with no cancel-all and every unread fill still
   * inside the read window, a reconciliation over a live session always succeeds, the broker's working ids
   * are the ids of the open rows, and the book becomes the net of every fill the broker ever made.
   */
  lemma UncancelledSessionsReconcile(config: Config, runId: string, fillsMarket: bool, acts: seq<Act>, cutoff: int)
    requires !config.mode.Disabled? && AllowedPlay(Opening(config, runId, fillsMarket), acts) && CancelFree(acts)
    requires var z := Play(Opening(config, runId, fillsMarket), acts);
             z.broker.connected
             && forall f :: f in z.broker.fills ==> f.executionId in KnownExecutions(z.tables.fills) || f.executedAt >= cutoff
    ensures var z := Play(Opening(config, runId, fillsMarket), acts);
            var answers := AnswersOf(z.broker, cutoff);
            var after := Reconciled(z.process, z.tables, answers);
            && Comparison(z.process, z.tables, true, answers.view.value).Succeeded()
            && WorkingIds(z.broker.working) == OpenIds(z.tables.orders)
            && after.process.Some?
            && forall c :: Quantity(after.process.value.book, c) == Net(z.broker.fills, c)
  {
    hide Onward, Coupled, AllowedAct, Comparison, Missed, Reconciled, Cancelling, NetsToZero;
    var z := Play(Opening(config, runId, fillsMarket), acts);
    OpeningIsCoupled(config, runId, fillsMarket);
    OpeningWaitsForNothing(config, runId, fillsMarket);
    NothingWaits(Opening(config, runId, fillsMarket), acts);
    NothingMissed(z.broker.fills, KnownExecutions(z.tables.fills), cutoff);
    NoFillsNetToZero();
    SimulatedReconciliation(config, runId, fillsMarket, acts, cutoff);
    WorkingAreOpen(z);
  }

  lemma OpeningWaitsForNothing(config: Config, runId: string, fillsMarket: bool)
    ensures !Cancelling(Opening(config, runId, fillsMarket).tables.orders)
  {}

  lemma WorkingAreOpen(z: Session)
    requires Coupled(z) && !Cancelling(z.tables.orders)
    ensures WorkingIds(z.broker.working) == OpenIds(z.tables.orders)
  {
    OrdersClearExactly(z.tables.orders, z.broker);
  }
}
