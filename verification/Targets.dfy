/** What a simulated session is for: a market intent that may be sent takes broker and book to its target. */
module Targets {
  import opened Enums
  import opened Configuration
  import opened Orders
  import opened OrderTable
  import opened Positions
  import opened Durable
  import opened Reconciliation
  import opened OrderManagement
  import opened OrderSafety
  import opened AtMostOnce
  import opened OrdersOverRuns
  import opened Machine
  import opened Lifecycle
  import opened Conservation
  import opened IntentSafety
  import opened Reachability
  import opened SimulatedBroker
  import opened Simulation

  /** The broker is live, permits orders and fills market orders at once. */
  predicate FillsNow(b: Sim) { b.connected && !b.denied && b.fillsMarket }

  /** A market order for a target away from the current position: bought or sold, the difference is the target's. */
  ghost predicate Bridges(q: Request, conId: int, current: int, target: int) {
    q.conId == conId && q.quantity > 0 && current + (if q.side.Buy? then q.quantity else -q.quantity) == target
  }

  /** What a sendable intent's order is, whatever the broker then answers. */
  lemma IntendedBridges(z: Session, h: Handling) returns (q: Request)
    requires HasBroker(z.process) && (z.process.inTick || z.process.admin)
    requires OrdersAreSeen(z.process, z.tables) && Sendable(z.process, z.tables, h)
    ensures Intended(z.process, z.tables, h) == Some(q) && q.orderType == h.orderType
    ensures var c := z.process.contract.value.conId; Bridges(q, c, Quantity(z.process.book, c), h.intent.requestedPosition)
  {
    hide Acceptable, ApprovalsOf, Submits, Proceeds, Sendable;
    var p, t := z.process, z.tables;
    SendableProceeds(p, t, h);
    SendableHas(p, t, h);
    var c := p.contract.value;
    var s := SubmissionOf(p, t, h, c);
    q := RequestOf(NewRow(s).AsPendingSubmit(s.now));
    DeltaIsExact(Quantity(p.book, c.conId), h.intent.requestedPosition);
  }

  lemma SendableHas(p: Process, t: Tables, h: Handling)
    requires Sendable(p, t, h)
    ensures p.contract.Some? && h.orderType.Transmittable()
    ensures Quantity(p.book, p.contract.value.conId) != h.intent.requestedPosition
  {}

  lemma HandleFills(z: Session, h: Handling, price: real, at: int, q: Request)
    requires FillsNow(z.broker) && q.orderType.Market? && z.process.contract.Some? && Intended(z.process, z.tables, h) == Some(q)
    ensures MovedBy(z.broker.positions, Onward(z, Handle(h, price, at)).broker.positions, q)
    ensures Onward(z, Handle(h, price, at)).broker.connected
    ensures Onward(z, Handle(h, price, at)).broker.fills == z.broker.fills
              + [BrokerFill(ExecutionName(z.broker.executions + 1), OrderName(z.broker.orders + 1), q.conId,
                            z.process.contract.value.symbol, q.side, q.quantity, price, at)]
  {
    hide Next, Intended;
    FilledAtOnce(z.broker, q, z.process.contract.value, price, at);
  }

  /**
   * A market intent that may be sent, handled over a live broker that agrees with the book on its contract: the broker
   * then holds the intent's target and every other contract as before; and the book holds it too after the next
   * reconciliation whose window misses nothing, and every contract as the broker does.
   */
  lemma HandledReachesTarget(z: Session, h: Handling, price: real, at: int, cutoff: int)
    requires Coupled(z) && AllowedAct(z, Handle(h, price, at)) && OrdersAreSeen(z.process, z.tables)
    requires (z.process.inTick || z.process.admin) && Sendable(z.process, z.tables, h) && h.orderType.Market?
    requires FillsNow(z.broker)
    requires var c := z.process.contract.value.conId; Quantity(z.process.book, c) == Quantity(z.broker.positions, c)
    ensures var c, target := z.process.contract.value.conId, h.intent.requestedPosition;
            var z' := Onward(z, Handle(h, price, at));
            var after := Reconciled(z'.process, z'.tables, AnswersOf(z'.broker, cutoff));
            && Quantity(z'.broker.positions, c) == target
            && (forall other :: other != c ==> Quantity(z'.broker.positions, other) == Quantity(z.broker.positions, other))
            && after.process.Some?
            && (NetsToZero(Missed(z'.broker.fills, KnownExecutions(z'.tables.fills), cutoff)) ==>
                  && Quantity(after.process.value.book, c) == target
                  && forall k :: Quantity(after.process.value.book, k) == Quantity(z'.broker.positions, k))
  {
    hide Onward, Sendable, AllowedAct, Reconciled, AnswersOf, Missed, Intended, FillsAgree, OrdersAgree, Sound, Conserved;
    SendableHas(z.process, z.tables, h);
    var q := IntendedBridges(z, h);
    HandleFills(z, h, price, at, q);
    ActKeepsCoupling(z, Handle(h, price, at));
    CoupledResult(Onward(z, Handle(h, price, at)), cutoff);
  }

  // ----- over whole sessions -----

  lemma ActKeepsKnown(z: Session, a: Act)
    requires Coupled(z) && AllowedAct(z, a) && Known(System(Some(z.process), z.tables))
    ensures Known(System(Some(Onward(z, a).process), Onward(z, a).tables))
  {
    hide Next, Allowed, Known, FillsAgree, OrdersAgree, Backed, SentOnce, Conserved;
    if TouchesApplication(z, a) {
      ProcessSurvives(z, a);
      StepKeepsKnown(System(Some(z.process), z.tables), Step(EventOf(z, a), None));
    }
  }

  lemma {:induction false} PlayKeepsKnown(z: Session, acts: seq<Act>)
    requires Coupled(z) && AllowedPlay(z, acts) && Known(System(Some(z.process), z.tables))
    ensures Known(System(Some(Play(z, acts).process), Play(z, acts).tables))
  {
    hide Onward, Coupled, AllowedAct, Known;
    if acts != [] {
      var init := acts[..|acts| - 1];
      forall n | 0 <= n < |init| ensures AllowedAct(Play(z, init[..n]), init[n]) { assert init[..n] == acts[..n]; }
      PlayKeepsKnown(z, init);
      PlayKeepsCoupling(z, init);
      ActKeepsKnown(Play(z, init), acts[|init|]);
    }
  }

  /**
   * After any acts of a session that began on empty tables beside a flat broker: a market intent that may be sent
   * takes the broker to its target, and the next reconciliation that misses nothing takes the book there too.
   */
  lemma SessionsReachTargets(config: Config, runId: string, acts: seq<Act>, h: Handling, price: real, at: int, cutoff: int)
    requires !config.mode.Disabled? && AllowedPlay(Opening(config, runId, true), acts)
    requires var z := Play(Opening(config, runId, true), acts);
             && AllowedAct(z, Handle(h, price, at)) && z.process.inTick && Sendable(z.process, z.tables, h) && h.orderType.Market?
             && FillsNow(z.broker)
             && Quantity(z.process.book, z.process.contract.value.conId) == Quantity(z.broker.positions, z.process.contract.value.conId)
    ensures var z := Play(Opening(config, runId, true), acts);
            var c, target := z.process.contract.value.conId, h.intent.requestedPosition;
            var z' := Onward(z, Handle(h, price, at));
            && Quantity(z'.broker.positions, c) == target
            && (NetsToZero(Missed(z'.broker.fills, KnownExecutions(z'.tables.fills), cutoff)) ==>
                  var after := Reconciled(z'.process, z'.tables, AnswersOf(z'.broker, cutoff)).process;
                  after.Some? && Quantity(after.value.book, c) == target)
  {
    hide Onward, Sendable, AllowedAct, Reconciled, AnswersOf, Missed, FillsAgree, OrdersAgree, Sound, Conserved, Play, FillsNow;
    OpeningIsCoupled(config, runId, true);
    PlayKeepsCoupling(Opening(config, runId, true), acts);
    PlayKeepsKnown(Opening(config, runId, true), acts);
    HandledReachesTarget(Play(Opening(config, runId, true), acts), h, price, at, cutoff);
  }
}
