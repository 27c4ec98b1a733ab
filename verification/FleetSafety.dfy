/** What READY, a sent order and an intent id mean when several processes are live over the same tables. */
module FleetSafety {
  import opened Enums
  import opened Configuration
  import opened Orders
  import opened OrderTable
  import opened Positions
  import opened Durable
  import opened Signals
  import opened Reconciliation
  import opened OrderManagement
  import opened OrderSafety
  import opened AtMostOnce
  import opened OrdersOverRuns
  import opened Machine
  import opened Lifecycle
  import opened Conservation
  import opened Restarts
  import opened IntentSafety
  import opened Fleet

  // ----- READY over a fleet -----

  /** While the last reconciliation stands, the account is there and the book is the broker snapshot it adopted. */
  ghost predicate OwnGround(p: Process) {
    p.recon.Succeeded() ==>
      && p.account.Some? && p.book == FromPositions(p.recon.brokerPositions)
      && DistinctContracts(p.recon.brokerPositions)
  }

  /** The positions another process stored since this one last stored its own, if one did; the latest of them. */
  function StoredByOthers(f: Fleet, turns: seq<Turn>, who: nat): Option<seq<Position>> {
    if turns == [] then None
    else
      var init, turn := turns[..|turns| - 1], turns[|turns| - 1];
      if !Replaces(SystemOf(Play(f, init), turn.who), turn.step) then StoredByOthers(f, init, who)
      else if turn.who == who then None
      else Some(Play(f, turns).tables.positions)
  }

  /** While it stands, the stored positions are that snapshot, or what another process stored over it. */
  ghost predicate StoredAs(p: Process, t: Tables, foreign: Option<seq<Position>>) {
    p.recon.Succeeded() ==> t.positions == foreign.GetOr(p.recon.brokerPositions)
  }

  ghost predicate InItsPlace(s: System, foreign: Option<seq<Position>>) {
    s.process.Some? ==>
      OwnGround(s.process.value) && Permitted(s.process.value) && StoredAs(s.process.value, s.tables, foreign)
  }

  lemma UnreplacedStay(s: System, step: Step)
    ensures !Replaces(s, step) ==> Next(s, step).tables.positions == s.tables.positions
  {
    hide Next, Replaces;
    if !Reconciles(step.event) {
      NeutralSteps(s, step);
    } else if s.process.None? || !Acts(s.process.value, step.event) {
      IdleNeverReplaces(s, step);
    } else {
      hide Reconciled, Adopts, Applied, FillRows;
      var k := ReconcilingEffects(s, step);
      ReconciledCut(s.process.value, s.tables, step.event.answers, k);
    }
  }

  lemma SettlingKeepsResult(p: Process, t: Tables, e: Event)
    requires Reconciles(e)
    ensures var a, b := ReconcilingReaction(p, t, e), Reconciled(p, t, e.answers);
            (a.process.Some? <==> b.process.Some?) && (a.process.Some? ==> a.process.value.recon == b.process.value.recon)
  {
    hide Reconciled;
  }

  lemma ActedInPlace(s: System, step: Step)
    requires s.process.Some? && Reconciles(step.event) && Acts(s.process.value, step.event) && step.survives.None?
    requires Next(s, step).process.Some?
    ensures ReadyInvariant(Next(s, step))
    ensures Next(s, step).process.value.recon.Succeeded() <==> Replaces(s, step)
  {
    hide Next, Replaces, Reconciled, ReconcilingReaction, Adopts, Grounded, Permitted, Applied;
    var p, t, e := s.process.value, s.tables, step.event;
    var k := ReconcilingEffects(s, step);
    var es := Reconciled(p, t, e.answers).effects;
    assert es[..k] == es;
    ReconcilingStep(s, step);
    ActedEffects(s, e);
    OutcomeIsReady(p, t, e);
    SettlingKeepsResult(p, t, e);
    ReconcilingGrounds(p, t, e.answers);
    UncutLength(p, t, e.answers);
  }

  /** The process that takes a step stays in its place; storing positions itself makes them its own. */
  lemma OwnStep(s: System, step: Step, foreign: Option<seq<Position>>)
    requires InItsPlace(s, foreign)
    ensures InItsPlace(Next(s, step), if Replaces(s, step) then None else foreign)
  {
    hide Next, Replaces;
    if Next(s, step).process.Some? {
      if step.event.Startup? {
        StartsUnready(s, step);
      } else if !Reconciles(step.event) {
        QuietStep(s, step);
        NeutralNeverReplaces(s, step);
        NeutralSteps(s, step);
      } else if s.process.Some? && Acts(s.process.value, step.event) {
        CutsAreOver(s, step);
        ActedInPlace(s, step);
        UnreplacedStay(s, step);
      } else {
        IdleNeverReplaces(s, step);
      }
    }
  }

  lemma CutsAreOver(s: System, step: Step)
    requires s.process.Some? && Reconciles(step.event) && Next(s, step).process.Some?
    ensures step.survives.None?
  {
    hide ReactionOf;
  }

  lemma {:induction false} AllInPlace(f: Fleet, turns: seq<Turn>, who: nat)
    requires InItsPlace(SystemOf(f, who), None)
    ensures InItsPlace(SystemOf(Play(f, turns), who), StoredByOthers(f, turns, who))
  {
    if turns != [] {
      hide Next, Replaces, InItsPlace;
      var init, turn := turns[..|turns| - 1], turns[|turns| - 1];
      var before := Play(f, init);
      AllInPlace(f, init, who);
      if turn.who == who {
        OwnStep(SystemOf(before, who), turn.step, StoredByOthers(f, init, who));
        assert SystemOf(Play(f, turns), who) == Next(SystemOf(before, who), turn.step);
      } else {
        UnreplacedStay(SystemOf(before, turn.who), turn.step);
        OtherStays(SystemOf(before, who), SystemOf(Play(f, turns), who),
                   StoredByOthers(f, init, who), StoredByOthers(f, turns, who));
      }
    }
  }

  lemma OtherStays(s: System, s': System, foreign: Option<seq<Position>>, foreign': Option<seq<Position>>)
    requires InItsPlace(s, foreign) && s'.process == s.process
    requires foreign' == Some(s'.tables.positions) || (foreign' == foreign && s'.tables.positions == s.tables.positions)
    ensures InItsPlace(s', foreign')
  {}

  /**
   * In every fleet a READY process is reconciled, has the account and permission, and its book is the broker
   * snapshot it adopted, whatever the others do. The stored positions agree with its book if and only if no
   * other process stored positions since, or the last that did stored equal quantities.
   */
  lemma FleetReadyMeansReconciled(turns: seq<Turn>, who: nat)
    requires who in Play(FRESH_FLEET, turns).live && Play(FRESH_FLEET, turns).live[who].state.Ready?
    ensures var f := Play(FRESH_FLEET, turns);
            var p, foreign := f.live[who], StoredByOthers(FRESH_FLEET, turns, who);
            && p.recon.Succeeded() && p.account.Some? && p.config.allowTransmit && !p.config.mode.Disabled?
            && (forall c :: Quantity(p.book, c) == Quantity(ById(p.recon.brokerPositions), c))
            && ((forall c :: Quantity(p.book, c) == Quantity(FromPositions(f.tables.positions), c))
                <==> foreign.None?
                     || forall c :: Quantity(FromPositions(foreign.value), c) == Quantity(ById(p.recon.brokerPositions), c))
  {
    hide After, Replaces, StoredByOthers, FromPositions, ById;
    AllInPlace(FRESH_FLEET, turns, who);
    AdoptionKeepsQuantities(Play(FRESH_FLEET, turns).live[who].recon.brokerPositions);
  }

  // ----- what every order sent is -----

  /**
   * Every order that any process of a fleet sends leaves from READY, reconciled and unswitched, on a fresh live
   * quote. It moves that process's book exactly to its intent's target, inside the limits, if and only if the
   * order worked on is the one assessed; and it is whenever no stored order carries the intent's id yet.
   */
  lemma FleetEverySendIsSafe(turns: seq<Turn>, who: nat, e: Event, q: Request)
    requires Send(q) in ReactionOf(SystemOf(Play(FRESH_FLEET, turns), who), e).effects
    ensures var f := Play(FRESH_FLEET, turns);
            && e.IntentHandled? && who in f.live && f.live[who].contract.Some?
            && var p, h := f.live[who], e.handling;
               var c := p.contract.value;
            && InGoodOrder(p, f.tables, h) && OnFreshQuote(p.config, h) && p.recon.Succeeded()
            && (ExactMove(p, h, c, q) <==> AsAssessed(f.tables.orders, SubmissionOf(p, f.tables, h, c)))
            && (ExactMove(p, h, c, q) ==> InsideLimits(p.config.limits, h, c, q))
            && (Unstored(f.tables.orders, h.intent.intentId) ==> ExactMove(p, h, c, q))
  {
    hide After, ReactionOf, Play, SubmissionEffects, Acceptable, ExactMove, InsideLimits, OnFreshQuote, AsAssessed, SubmissionOf;
    var f := Play(FRESH_FLEET, turns);
    SendersHandle(SystemOf(f, who), e, q);
    var p, h := f.live[who], e.handling;
    SubmittedMeans(p, f.tables, h, q);
    FleetReadyMeansReconciled(turns, who);
    if Unstored(f.tables.orders, h.intent.intentId) { UnstoredIsAsAssessed(p, f.tables, h); }
  }

  // ----- intent ids -----

  /** A process that starts once an intent is recorded, while the query returns every record, refuses its id. */
  lemma LateStartersRefuse(f: Fleet, turn: Turn, h: Handling)
    requires TurnAllowed(f, turn) && turn.step.event.Startup? && turn.who in After(f, turn).live
    requires HasSignal(f.tables.signals, h.intent.intentId) && |f.tables.signals| <= 10_000
    ensures !Acceptable(After(f, turn).live[turn.who], h)
  {
    StartsUnready(SystemOf(f, turn.who), turn.step);
    hide Next, Acceptable;
    AcceptedIsUnseen(After(f, turn).live[turn.who], h);
  }

  /** The intent is acceptable but for what was seen. */
  predicate SoundIntent(p: Process, h: Handling) {
    SignalReasons(Upper(p.config.symbol), p.known, {}, h.intent, h.times.validated) == []
  }

  lemma AcceptableExactly(p: Process, h: Handling)
    ensures Acceptable(p, h) <==> SoundIntent(p, h) && h.intent.intentId !in p.seen
  {}

  predicate Trades(p: Process) { HasBroker(p) && (p.inTick || p.admin) }

  /**
   * Two live processes both accept one intent id if and only if it is sound to each and neither had seen it:
   * seen sets are each process's own, so the first acceptance, though recorded, does not reach the second.
   */
  lemma BothAcceptExactlyWhen(f: Fleet, a: nat, b: nat, h: Handling, h': Handling)
    requires a in f.live && b in f.live && a != b && Trades(f.live[a]) && h'.intent.intentId == h.intent.intentId
    ensures var f' := After(f, Turn(a, Step(IntentHandled(h), None)));
            && b in f'.live
            && (Acceptable(f.live[a], h) && Acceptable(f'.live[b], h')
                <==> && SoundIntent(f.live[a], h) && SoundIntent(f.live[b], h')
                     && h.intent.intentId !in f.live[a].seen && h.intent.intentId !in f.live[b].seen)
  {
    hide SoundIntent, Acceptable;
    AcceptableExactly(f.live[a], h);
    AcceptableExactly(f.live[b], h');
    hide Next;
    IntentKeepsProcess(SystemOf(f, a), h);
  }

  lemma IntentKeepsProcess(s: System, h: Handling)
    requires s.process.Some? && Trades(s.process.value)
    ensures Next(s, Step(IntentHandled(h), None)).process.Some?
  {
    hide SubmissionEffects, Acceptable, StatusEffects, Reconciled, Started;
  }

  /** Who starts after that refuses: an intent handled to its end is recorded, whether or not it was accepted. */
  lemma HandlingIsRecorded(f: Fleet, who: nat, h: Handling)
    requires Distinct(f.tables.orders) && TurnAllowed(f, Turn(who, Step(IntentHandled(h), None)))
    requires who in f.live && Trades(f.live[who])
    ensures HasSignal(After(f, Turn(who, Step(IntentHandled(h), None))).tables.signals, h.intent.intentId)
  {
    hide Next, Handled, HasSignal, Apply, Acceptable;
    var p, t := f.live[who], f.tables;
    HandledIsNext(SystemOf(f, who), h);
    var es := Handled(p, t, h).effects;
    HandledLength(p, t, h);
    HandledAddsItsIntent(p, t, h, |es|);
    assert es[..|es|] == es;
    RecordedIsThere(t, Signal(h.intent.intentId, h.intent.createdAt));
  }

  /** Handled intents are named: wherever an id is presented, it is for the same strategy, target and contract. */
  ghost predicate Named(f: Fleet, turn: Turn, keys: map<string, Key>) {
    turn.step.event.IntentHandled? && turn.who in f.live && f.live[turn.who].contract.Some? ==>
      var intent := turn.step.event.handling.intent;
      intent.intentId in keys && keys[intent.intentId] == intent.IdempotencyKey(f.live[turn.who].contract.value.conId)
  }

  ghost predicate NamedPlay(f: Fleet, turns: seq<Turn>, keys: map<string, Key>) {
    forall n :: 0 <= n < |turns| ==> Named(Play(f, turns[..n]), turns[n], keys)
  }

  ghost predicate SentNamed(sent: seq<Request>, keys: map<string, Key>) {
    forall i :: 0 <= i < |sent| ==> sent[i].key.intentId in keys && keys[sent[i].key.intentId] == sent[i].key
  }

  lemma StepSendsAtMost(s: System, step: Step)
    requires Sound(s.tables.orders, s.tables.sent) && Allowed(s, step.event)
    ensures s.process.None? ==> Next(s, step).tables.sent == s.tables.sent
    ensures s.process.Some? ==> SendsAtMost(s.tables.sent, Next(s, step).tables.sent, s.process.value, step.event)
  {
    hide Next, OrderWork, Acceptable, Backed, SentOnce;
    if !WritesOrders(s, step.event) {
      OthersTouchNoOrder(s, step);
    } else {
      var p, t, e := s.process.value, s.tables, step.event;
      WritersCutExactly(s, step);
      WorkSendsOne(p, t, e, KeptCount(OrderWork(p, t, e), step.survives));
    }
  }

  lemma TurnKeepsNamed(f: Fleet, turn: Turn, keys: map<string, Key>)
    requires Sound(f.tables.orders, f.tables.sent) && TurnAllowed(f, turn)
    requires SentNamed(f.tables.sent, keys) && Named(f, turn, keys)
    ensures SentNamed(After(f, turn).tables.sent, keys)
  {
    hide Next, Sound, Allowed, Acceptable;
    StepSendsAtMost(SystemOf(f, turn.who), turn.step);
  }

  lemma {:induction false} PlayKeepsNamed(f: Fleet, turns: seq<Turn>, keys: map<string, Key>)
    requires Sound(f.tables.orders, f.tables.sent) && SentNamed(f.tables.sent, keys)
    requires AllowedPlay(f, turns) && NamedPlay(f, turns, keys)
    ensures SentNamed(Play(f, turns).tables.sent, keys)
  {
    hide After, TurnAllowed, Sound, Named, SentNamed;
    if turns != [] {
      var init := turns[..|turns| - 1];
      PlayPrefix(f, turns);
      forall n | 0 <= n < |init| ensures Named(Play(f, init[..n]), init[n], keys) { assert init[..n] == turns[..n]; }
      PlayKeepsNamed(f, init, keys);
      FleetKeepsSound(f, init);
      TurnKeepsNamed(Play(f, init), turns[|init|], keys);
    }
  }

  /**
   * Over any fleet in which an id always names one strategy, target and contract, no two orders handed over
   * carry the same id - whatever each validator has seen, and however many accept it: what the seen sets do not
   * share, the key does. So an id is handed over twice only if it was presented under two keys.
   */
  lemma FleetSendsEachIntentOnce(turns: seq<Turn>, keys: map<string, Key>)
    requires AllowedPlay(FRESH_FLEET, turns) && NamedPlay(FRESH_FLEET, turns, keys)
    ensures OncePerIntent(Play(FRESH_FLEET, turns).tables.sent)
  {
    hide After, TurnAllowed, Named, Play;
    FleetKeepsSound(FRESH_FLEET, turns);
    PlayKeepsNamed(FRESH_FLEET, turns, keys);
    hide NamedPlay, AllowedPlay;
  }

  // ----- ids under several keys -----

  /** Whoever is handed an id that was sent already has seen it, or refuses it otherwise. */
  ghost predicate Informed(f: Fleet, turn: Turn) {
    turn.step.event.IntentHandled? && turn.who in f.live && Acceptable(f.live[turn.who], turn.step.event.handling) ==>
      forall i :: 0 <= i < |f.tables.sent| ==> f.tables.sent[i].key.intentId != turn.step.event.handling.intent.intentId
  }

  ghost predicate InformedPlay(f: Fleet, turns: seq<Turn>) {
    forall n :: 0 <= n < |turns| ==> Informed(Play(f, turns[..n]), turns[n])
  }

  lemma TurnSendsOncePerIntent(f: Fleet, turn: Turn)
    requires Sound(f.tables.orders, f.tables.sent) && TurnAllowed(f, turn)
    requires OncePerIntent(f.tables.sent) && Informed(f, turn)
    ensures OncePerIntent(After(f, turn).tables.sent)
  {
    hide Next, Sound, Allowed, Acceptable;
    StepSendsAtMost(SystemOf(f, turn.who), turn.step);
  }

  /** Even under several keys no id is handed over twice, while every live process it is handed to had seen or refuses it. */
  lemma {:induction false} InformedFleetSendsOnce(f: Fleet, turns: seq<Turn>)
    requires Sound(f.tables.orders, f.tables.sent) && OncePerIntent(f.tables.sent)
    requires AllowedPlay(f, turns) && InformedPlay(f, turns)
    ensures OncePerIntent(Play(f, turns).tables.sent)
  {
    hide After, TurnAllowed, Sound, Informed, OncePerIntent;
    if turns != [] {
      var init := turns[..|turns| - 1];
      PlayPrefix(f, turns);
      forall n | 0 <= n < |init| ensures Informed(Play(f, init[..n]), init[n]) { assert init[..n] == turns[..n]; }
      InformedFleetSendsOnce(f, init);
      FleetKeepsSound(f, init);
      TurnSendsOncePerIntent(Play(f, init), turns[|init|]);
    }
  }
}
