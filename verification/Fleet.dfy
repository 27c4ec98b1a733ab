/**
 * Several live processes over the same tables - the trading process and operator commands - taking turns. A
 * turn is one event of one of them, uninterrupted by the others; each turn may be cut short.
 */
module Fleet {
  import opened Enums
  import opened Configuration
  import opened Orders
  import opened OrderTable
  import opened Positions
  import opened Durable
  import opened Reconciliation
  import opened Ingestion
  import opened OrderSafety
  import opened AtMostOnce
  import opened OrdersOverRuns
  import opened Machine
  import opened Lifecycle
  import opened Conservation
  import opened Restarts
  import opened Caps
  import opened KillSwitches

  datatype Fleet = Fleet(live: map<nat, Process>, tables: Tables)

  /** One event of the process in slot `who`; a startup puts a process there. */
  datatype Turn = Turn(who: nat, step: Step)

  const FRESH_FLEET := Fleet(map[], EMPTY)

  /** What one process sees of the fleet. */
  function SystemOf(f: Fleet, who: nat): System {
    System(if who in f.live then Some(f.live[who]) else None, f.tables)
  }

  function After(f: Fleet, turn: Turn): Fleet {
    var s := Next(SystemOf(f, turn.who), turn.step);
    Fleet(if s.process.Some? then f.live[turn.who := s.process.value] else f.live - {turn.who}, s.tables)
  }

  function Play(f: Fleet, turns: seq<Turn>): Fleet {
    if turns == [] then f else After(Play(f, turns[..|turns| - 1]), turns[|turns| - 1])
  }

  /** The event is allowed, and a starting process takes a run id that no other live process has. */
  ghost predicate TurnAllowed(f: Fleet, turn: Turn) {
    && Allowed(SystemOf(f, turn.who), turn.step.event)
    && (turn.step.event.Startup? ==>
          forall w :: w in f.live && w != turn.who ==> f.live[w].runId != turn.step.event.runId)
  }

  ghost predicate AllowedPlay(f: Fleet, turns: seq<Turn>) {
    forall n :: 0 <= n < |turns| ==> TurnAllowed(Play(f, turns[..n]), turns[n])
  }

  lemma PlayPrefix(f: Fleet, turns: seq<Turn>)
    requires turns != [] && AllowedPlay(f, turns)
    ensures AllowedPlay(f, turns[..|turns| - 1])
    ensures TurnAllowed(Play(f, turns[..|turns| - 1]), turns[|turns| - 1])
  {
    hide After, TurnAllowed;
    var init := turns[..|turns| - 1];
    forall n | 0 <= n < |init| ensures TurnAllowed(Play(f, init[..n]), init[n]) {
      assert init[..n] == turns[..n];
    }
  }

  // ----- orders -----

  lemma {:induction false} FleetKeepsSound(f: Fleet, turns: seq<Turn>)
    requires Sound(f.tables.orders, f.tables.sent) && AllowedPlay(f, turns)
    ensures Sound(Play(f, turns).tables.orders, Play(f, turns).tables.sent)
  {
    hide Next, Allowed, Sound;
    if turns != [] {
      var before, turn := Play(f, turns[..|turns| - 1]), turns[|turns| - 1];
      PlayPrefix(f, turns);
      FleetKeepsSound(f, turns[..|turns| - 1]);
      StepKeepsSound(SystemOf(before, turn.who), turn.step);
    }
  }

  /**
   * However many processes take turns on the tables, and wherever each turn is cut: no key is handed to the
   * broker twice, and every order handed over is backed by a row stamped as sent.
   */
  lemma FleetSendsAtMostOnce(turns: seq<Turn>, key: Key)
    requires AllowedPlay(FRESH_FLEET, turns)
    ensures var t := Play(FRESH_FLEET, turns).tables;
            TimesSent(t.sent, key) <= 1 && Backed(t.orders, t.sent)
  {
    hide After, TurnAllowed;
    FleetKeepsSound(FRESH_FLEET, turns);
    OnceCounted(Play(FRESH_FLEET, turns).tables.sent, key);
  }

  ghost predicate LimitedTurn(f: Fleet, turn: Turn, limits: RiskLimits) {
    TurnAllowed(f, turn) && CapStep(SystemOf(f, turn.who), turn.step.event, limits)
  }

  ghost predicate LimitedPlay(f: Fleet, turns: seq<Turn>, limits: RiskLimits) {
    forall n :: 0 <= n < |turns| ==> LimitedTurn(Play(f, turns[..n]), turns[n], limits)
  }

  ghost predicate AllGoverned(f: Fleet, limits: RiskLimits) { forall w :: w in f.live ==> Governed(SystemOf(f, w), limits) }

  /** How many status polls reopened a closed row. */
  function FleetReopened(f: Fleet, turns: seq<Turn>): nat {
    if turns == [] then 0
    else
      var init := turns[..|turns| - 1];
      FleetReopened(f, init) + ReopenedBy(Play(f, init).tables.orders, turns[|turns| - 1].step.event)
  }

  lemma LimitedPrefix(f: Fleet, turns: seq<Turn>, limits: RiskLimits)
    requires turns != [] && LimitedPlay(f, turns, limits)
    ensures LimitedPlay(f, turns[..|turns| - 1], limits) && AllowedPlay(f, turns)
    ensures LimitedTurn(Play(f, turns[..|turns| - 1]), turns[|turns| - 1], limits)
  {
    hide After, TurnAllowed, CapStep;
    var init := turns[..|turns| - 1];
    forall n | 0 <= n < |init| ensures LimitedTurn(Play(f, init[..n]), init[n], limits) {
      assert init[..n] == turns[..n];
    }
  }

  lemma TurnStaysGoverned(f: Fleet, turn: Turn, limits: RiskLimits)
    requires AllGoverned(f, limits) && LimitedTurn(f, turn, limits)
    ensures AllGoverned(After(f, turn), limits)
  {
    hide Next, CapStep, NoLooser, Allowed;
    assert Governed(SystemOf(f, turn.who), limits);
    StaysGoverned(SystemOf(f, turn.who), turn.step, limits);
    forall w | w in After(f, turn).live ensures Governed(SystemOf(After(f, turn), w), limits) {
      if w != turn.who { assert Governed(SystemOf(f, w), limits); }
    }
  }

  lemma {:induction false} FleetKeepsCaps(f: Fleet, turns: seq<Turn>, limits: RiskLimits)
    requires Sound(f.tables.orders, f.tables.sent) && AllGoverned(f, limits) && Capped(f.tables.orders, limits)
    requires LimitedPlay(f, turns, limits)
    ensures AllGoverned(Play(f, turns), limits)
    ensures Capped(Play(f, turns).tables.orders, Allowance(limits, FleetReopened(f, turns)))
  {
    if turns == [] {
      MoreRoom(f.tables.orders, limits, 0);
    } else {
      hide Next, Capped, Sound, TurnAllowed, CapStep, Governed, ReopenedBy;
      var init, turn := turns[..|turns| - 1], turns[|turns| - 1];
      var before := Play(f, init);
      LimitedPrefix(f, turns, limits);
      PlayPrefix(f, turns);
      FleetKeepsCaps(f, init, limits);
      FleetKeepsSound(f, init);
      if turn.who in before.live { assert Governed(SystemOf(before, turn.who), limits); } else { NobodyIsGoverned(before, turn.who, limits); }
      StepWithAllowance(SystemOf(before, turn.who), turn.step, limits, FleetReopened(f, init));
      TurnStaysGoverned(before, turn, limits);
    }
  }

  lemma NobodyIsGoverned(f: Fleet, who: nat, limits: RiskLimits)
    requires who !in f.live
    ensures Governed(SystemOf(f, who), limits)
  {}

  /** The hourly and the open-order limit bound all processes together, as each reads the counts off the tables. */
  lemma FleetKeepsLimits(turns: seq<Turn>, limits: RiskLimits, lo: int, hi: int)
    requires limits.maxOrdersPerHour >= 0 && limits.maxOpenOrders >= 0
    requires LimitedPlay(FRESH_FLEET, turns, limits) && hi - lo <= 3600 * 1_000_000
    ensures StampsWithin(Play(FRESH_FLEET, turns).tables.orders, lo, hi) <= limits.maxOrdersPerHour
    ensures |OpenRows(Play(FRESH_FLEET, turns).tables.orders)| <= limits.maxOpenOrders + FleetReopened(FRESH_FLEET, turns)
  {
    hide After, LimitedTurn;
    FleetKeepsCaps(FRESH_FLEET, turns, limits);
  }

  // ----- the kill switch -----

  /** Once latched, the switch holds all live processes: the latch stays and none of them hands over an order. */
  lemma {:induction false} LatchHoldsTheFleet(f: Fleet, turns: seq<Turn>)
    requires Sound(f.tables.orders, f.tables.sent) && Latched(f.tables.state) && AllowedPlay(f, turns)
    ensures Latched(Play(f, turns).tables.state) && Play(f, turns).tables.sent == f.tables.sent
  {
    hide Next, Allowed, Sound, Latched;
    if turns != [] {
      var init, turn := turns[..|turns| - 1], turns[|turns| - 1];
      var before := SystemOf(Play(f, init), turn.who);
      PlayPrefix(f, turns);
      LatchHoldsTheFleet(f, init);
      FleetKeepsSound(f, init);
      StepKeepsLatch(before, turn.step);
      StepSendsNothing(before, turn.step);
    }
  }

  /** And at each turn a process is READY or handing out quotes only where it already was. */
  lemma LatchedTurnsOnlyKeep(f: Fleet, turn: Turn)
    requires Latched(f.tables.state)
    ensures OnlyKeeps(SystemOf(f, turn.who), turn.step.event, SystemOf(After(f, turn), turn.who))
    ensures forall w :: w in f.live && w != turn.who ==> SystemOf(After(f, turn), w).process == SystemOf(f, w).process
  {
    hide Next, OnlyKeeps;
    StepOnlyKeeps(SystemOf(f, turn.who), turn.step);
    assert SystemOf(After(f, turn), turn.who) == Next(SystemOf(f, turn.who), turn.step);
  }

  // ----- each book, and the fills the others recorded -----

  ghost predicate RunIdsDiffer(f: Fleet) {
    forall w, x :: w in f.live && x in f.live && w != x ==> f.live[w].runId != f.live[x].runId
  }

  ghost predicate AllConserved(f: Fleet) { forall w :: w in f.live ==> Conserved(f.live[w], f.tables) }

  /** A step records fills under the run id of the process that takes it, and under no other. */
  lemma OthersFillsStay(s: System, step: Step, other: string)
    requires s.process.Some? && Reconciles(step.event) ==> s.process.value.runId != other
    ensures FillsOf(Next(s, step).tables.fills, other) == FillsOf(s.tables.fills, other)
  {
    hide Next, FillsOf, Replaces;
    if !Reconciles(step.event) {
      NeutralSteps(s, step);
    } else if s.process.None? || !Acts(s.process.value, step.event) {
      IdleNeverReplaces(s, step);
    } else {
      var p, t, answers := s.process.value, s.tables, step.event.answers;
      var k := ReconcilingEffects(s, step);
      hide Reconciled, Adopts, Applied, FillRows;
      ReconciledCut(p, t, answers, k);
      var fs := Applied(t, answers);
      FillsOfMore(t.fills, if k <= |fs| then fs[..k] else fs, t.orders, p.runId, other);
    }
  }

  lemma TurnKeepsIds(f: Fleet, turn: Turn)
    requires RunIdsDiffer(f) && TurnAllowed(f, turn)
    ensures RunIdsDiffer(After(f, turn))
    ensures turn.who in After(f, turn).live && !turn.step.event.Startup? ==>
              turn.who in f.live && After(f, turn).live[turn.who].runId == f.live[turn.who].runId
  {
    hide Next, Allowed;
    var s := SystemOf(f, turn.who);
    if Next(s, turn.step).process.Some? {
      if turn.step.event.Startup? { StartsUnready(s, turn.step); } else { IdentityIsFixed(s, turn.step); }
    }
  }

  lemma TurnConserves(f: Fleet, turn: Turn)
    requires RunIdsDiffer(f) && AllConserved(f) && TurnAllowed(f, turn)
    ensures RunIdsDiffer(After(f, turn)) && AllConserved(After(f, turn))
  {
    hide Next, Allowed, Conserved;
    TurnKeepsIds(f, turn);
    var s, f' := SystemOf(f, turn.who), After(f, turn);
    StepConserves(s, turn.step);
    forall w | w in f'.live ensures Conserved(f'.live[w], f'.tables) {
      if w != turn.who {
        OthersFillsStay(s, turn.step, f.live[w].runId);
        StaysConserved(f.live[w], f.tables, f'.tables);
      }
    }
  }

  lemma StaysConserved(p: Process, t: Tables, t': Tables)
    requires Conserved(p, t) && FillsOf(t'.fills, p.runId) == FillsOf(t.fills, p.runId)
    ensures Conserved(p, t')
  {}

  /** In every fleet each live process's book is what it started with plus the net of the fills it recorded itself. */
  lemma {:induction false} EachBookIsItsOwn(f: Fleet, turns: seq<Turn>)
    requires RunIdsDiffer(f) && AllConserved(f) && AllowedPlay(f, turns)
    ensures RunIdsDiffer(Play(f, turns)) && AllConserved(Play(f, turns))
  {
    hide After, TurnAllowed, RunIdsDiffer, AllConserved;
    if turns != [] {
      PlayPrefix(f, turns);
      EachBookIsItsOwn(f, turns[..|turns| - 1]);
      TurnConserves(Play(f, turns[..|turns| - 1]), turns[|turns| - 1]);
    }
  }

  /**
   * A process compares with a broker that holds what the process started with, moved by every fill recorded
   * from `mark` on - by whomever - and by those newly reported, where nothing before `mark` is its own. It
   * finds no position discrepancy if and only if the fills that the other processes recorded since net to zero
   * on every contract; otherwise each discrepancy is exactly their net.
   */
  lemma FleetRecheckClearsExactlyWhen(turns: seq<Turn>, who: nat, mark: nat, account: bool, v: BrokerView)
    requires AllowedPlay(FRESH_FLEET, turns) && who in Play(FRESH_FLEET, turns).live
    requires var f := Play(FRESH_FLEET, turns);
             var p := f.live[who];
             && mark <= |f.tables.fills| && (forall i :: 0 <= i < mark ==> f.tables.fills[i].runId != p.runId)
             && forall c :: Quantity(ById(v.positions), c)
                            == Quantity(p.start, c) + Net(BrokerFills(f.tables.fills[mark..]), c)
                               + Net(NewFills(v.fills, KnownExecutions(f.tables.fills)), c)
    ensures var f := Play(FRESH_FLEET, turns);
            var foreign := ForeignFills(f.tables.fills[mark..], f.live[who].runId);
            var r := Comparison(f.live[who], f.tables, account, v);
            && (r.positionDiscrepancies == [] <==> NetsToZero(foreign))
            && (forall d :: d in r.positionDiscrepancies ==> d.Delta() == Net(foreign, d.conId))
  {
    hide After, TurnAllowed, Comparison, ById, NewFills;
    EachBookIsItsOwn(FRESH_FLEET, turns);
    var f := Play(FRESH_FLEET, turns);
    hide Play, ForeignFills, FillsOf, BrokerFills;
    var p, rows := f.live[who], f.tables.fills[mark..];
    OwnSince(f.tables.fills, mark, p.runId);
    forall c ensures Quantity(ById(v.positions), c)
                     == Quantity(p.book, c) + Net(ForeignFills(rows, p.runId), c)
                        + Net(NewFills(v.fills, KnownExecutions(f.tables.fills)), c)
    {
      OwnAndForeign(rows, p.runId, c);
    }
    LackingIsFound(p, f.tables, account, v, ForeignFills(rows, p.runId));
  }

  lemma {:induction false} OwnSince(rows: seq<FillRow>, mark: nat, runId: string)
    requires mark <= |rows| && forall i :: 0 <= i < mark ==> rows[i].runId != runId
    ensures FillsOf(rows, runId) == FillsOf(rows[mark..], runId)
  {
    if mark == |rows| {
      NoFillsOf(rows, runId);
    } else {
      var init := rows[..|rows| - 1];
      OwnSince(init, mark, runId);
      assert rows[mark..][..|rows[mark..]| - 1] == init[mark..];
    }
  }

  /**
   * The operator command reads the broker while the trading process is live. A re-check of the trading process
   * that would have found no position discrepancy in these answers still finds none if and only if the fills
   * the other process recorded from them - all, or those before it was cut - net to zero; otherwise each
   * discrepancy is exactly their net.
   */
  lemma ForeignReadingIsMissed(f: Fleet, trader: nat, other: nat, step: Step, account: bool)
    requires trader in f.live && other in f.live && trader != other
    requires Reconciles(step.event) && Acts(f.live[other], step.event) && step.event.answers.view.Some?
    requires Comparison(f.live[trader], f.tables, account, step.event.answers.view.value).positionDiscrepancies == []
    ensures var f' := After(f, Turn(other, step));
            var taken := BrokerFills(Since(f'.tables.fills, |f.tables.fills|));
            var r := Comparison(f'.live[trader], f'.tables, account, step.event.answers.view.value);
            && (r.positionDiscrepancies == [] <==> NetsToZero(taken))
            && (forall d :: d in r.positionDiscrepancies ==> d.Delta() == Net(taken, d.conId))
  {
    hide Next, Replaces, Comparison, ById, Since, BrokerFills, NewFills, KnownExecutions, Reconciled;
    var v, p, t := step.event.answers.view.value, f.live[trader], f.tables;
    var k := ReconcilingEffects(SystemOf(f, other), step);
    ReadingTakes(f.live[other], t, step.event.answers, k);
    var t' := After(f, Turn(other, step)).tables;
    StillLacks(p, t, t', account, v, BrokerFills(Since(t'.fills, |t.fills|)));
  }

  /** A book that explained the broker, once some of what was new is recorded without it. */
  lemma StillLacks(p: Process, t: Tables, t': Tables, account: bool, v: BrokerView, taken: seq<BrokerFill>)
    requires Comparison(p, t, account, v).positionDiscrepancies == []
    requires forall c :: Net(NewFills(v.fills, KnownExecutions(t.fills)), c)
                         == Net(taken, c) + Net(NewFills(v.fills, KnownExecutions(t'.fills)), c)
    ensures var r := Comparison(p, t', account, v);
            && (r.positionDiscrepancies == [] <==> NetsToZero(taken))
            && (forall d :: d in r.positionDiscrepancies ==> d.Delta() == Net(taken, d.conId))
  {
    hide Comparison, ById, NewFills, KnownExecutions, OpenRows;
    ClearsExactlyWhenExplained(p, t, account, v);
    LackingIsFound(p, t', account, v, taken);
  }

  lemma ReadingTakes(p: Process, t: Tables, answers: Answers, k: nat)
    requires answers.view.Some? && k <= |Reconciled(p, t, answers).effects|
    ensures var t' := ApplyAll(t, Reconciled(p, t, answers).effects[..k]);
            var taken := BrokerFills(Since(t'.fills, |t.fills|));
            forall c :: Net(NewFills(answers.view.value.fills, KnownExecutions(t.fills)), c)
                        == Net(taken, c) + Net(NewFills(answers.view.value.fills, KnownExecutions(t'.fills)), c)
  {
    hide Reconciled, Adopts, FillRows, NewFills, KnownExecutions, Since, BrokerFills, Net;
    var fs := Applied(t, answers);
    var n := if k <= |fs| then k else |fs|;
    ReconciledCut(p, t, answers, k);
    CutFacts(p, t, answers, k);
    assert fs[..|fs|] == fs && fs[|fs|..] == [];
    TakenAre(t.fills, fs[..n], t.orders, p.runId);
    forall c ensures Net(fs, c) == Net(fs[..n], c) + Net(fs[n..], c) { NetSplit(fs, n, c); }
  }

  lemma TakenAre(rows: seq<FillRow>, fs: seq<BrokerFill>, orders: Rows, runId: string)
    ensures BrokerFills(Since(rows + FillRows(fs, orders, runId), |rows|)) == fs
  {
    hide FillRows, Since, BrokerFills;
    var more := FillRows(fs, orders, runId);
    SinceMore(rows, more, |rows|);
    BrokerFillsMore(Since(rows, |rows|), fs, orders, runId);
    NoBrokerFills();
    assert BrokerFills([]) + fs == fs;
  }

  lemma NoBrokerFills()
    ensures BrokerFills([]) == []
  {}
}
