/** The durable kill switch: once latched by any process it is never released, and nothing gets past it. */
module KillSwitches {
  import opened Enums
  import opened Configuration
  import opened OrderTable
  import opened Durable
  import opened OrderManagement
  import opened OrderSafety
  import opened AtMostOnce
  import opened OrdersOverRuns
  import opened Machine
  import opened Lifecycle
  import Risk

  /** The three writes of the latch, the latch itself first. */
  function LatchEffects(reason: string, engagedAt: string): seq<Effect> {
    [PutState(LATCH_KEY, "true"), PutState(REASON_KEY, reason), PutState(ENGAGED_AT_KEY, engagedAt)]
  }

  /** The configured switch together with the durable latch; a switch may have no store at all. */
  class KillSwitch {
    const configEngaged: bool
    const store: Store?

    constructor (configEngaged: bool, store: Store?)
      ensures this.configEngaged == configEngaged && this.store == store
    {
      this.configEngaged, this.store := configEngaged, store;
    }

    /** The latch, where the store can be read; None where reading raises. */
    method ReadLatch(readable: bool) returns (latched: Option<bool>)
      ensures store == null ==> latched == Some(false)
      ensures store != null ==> latched == if readable then Some(Latched(store.state)) else None
    {
      if store == null {
        return Some(false);
      }
      if !readable {
        return None;
      }
      var value := if LATCH_KEY in store.state then Some(store.state[LATCH_KEY]) else None;
      latched := Some(value == Some("true"));
    }

    /** Engaged by either source, and never disengaged by an error. */
    method Engaged(readable: bool) returns (engaged: bool)
      ensures store == null ==> engaged == configEngaged
      ensures store != null ==> (engaged <==> configEngaged || !readable || Latched(store.state))
    {
      if configEngaged {
        return true;
      }
      var latched := ReadLatch(readable);
      engaged := latched.GetOr(true);
    }

    /** Latches durably; refuses only where there is no store to latch in. There is no way back. */
    method Engage(reason: string, engagedAt: string) returns (engaged: bool)
      requires store != null ==> store.Consistent()
      modifies store
      ensures engaged <==> store != null
      ensures store != null ==>
                && store.Consistent()
                && store.log == old(store.log) + LatchEffects(reason, engagedAt)
                && store.Contents() == ApplyAll(old(store.Contents()), LatchEffects(reason, engagedAt))
                && store.state == old(store.state)["kill_switch_latched" := "true"]["kill_switch_reason" := reason]
                                                  ["kill_switch_engaged_at" := engagedAt]
    {
      if store == null {
        return false;
      }
      store.PutState(LATCH_KEY, "true");
      store.PutState(REASON_KEY, reason);
      store.PutState(ENGAGED_AT_KEY, engagedAt);
      store.TablesFollowLog(LatchEffects(reason, engagedAt));
      engaged := true;
    }
  }

  // ----- the latch is never released -----

  /** The effect does not write anything but "true" over the latch. */
  predicate Respects(e: Effect) { e.PutState? && e.stateKey == LATCH_KEY ==> e.value == "true" }

  lemma {:induction false} RespectKeepsLatch(t: Tables, es: seq<Effect>)
    requires Latched(t.state) && forall i :: 0 <= i < |es| ==> Respects(es[i])
    ensures Latched(ApplyAll(t, es).state)
  {
    if es != [] { RespectKeepsLatch(t, es[..|es| - 1]); }
  }

  /** However the latching is cut short, the switch is latched once anything at all was written. */
  lemma LatchComesFirst(t: Tables, reason: string, engagedAt: string, k: nat)
    requires k <= |LatchEffects(reason, engagedAt)|
    ensures Latched(ApplyAll(t, LatchEffects(reason, engagedAt)[..k]).state) <==> k > 0 || Latched(t.state)
  {
    var es := LatchEffects(reason, engagedAt);
    if k > 0 {
      assert es[..k] == [es[0]] + es[1..k];
      ApplyConcat(t, [es[0]], es[1..k]);
      ApplyOne(t, es[0]);
      RespectKeepsLatch(Apply(t, es[0]), es[1..k]);
    }
  }

  lemma AllEventsRespect(s: System, e: Event)
    requires Allowed(s, e)
    ensures forall x :: x in ReactionOf(s, e).effects ==> Respects(x)
  {
    hide Comparison, Handled, StatusEffects, Started;
    if s.process.Some? {
      var p := s.process.value;
      if e.IntentHandled? {
        HandledKinds(p, s.tables, e.handling);
      } else if e.StatusLearned? {
        StatusKinds(s.tables.orders, e.update);
      } else if Reconciles(e) {
        ReconcilingWritesNoState(p, s.tables, e.answers);
      }
    }
  }

  lemma ReconcilingWritesNoState(p: Process, t: Tables, answers: Answers)
    ensures forall e :: e in Reconciled(p, t, answers).effects ==> !e.PutState?
  {
    hide Comparison;
  }

  lemma StepKeepsLatch(s: System, step: Step)
    requires Latched(s.tables.state) && Allowed(s, step.event)
    ensures Latched(Next(s, step).tables.state)
  {
    hide ReactionOf, Allowed;
    var es := ReactionOf(s, step.event).effects;
    AllEventsRespect(s, step.event);
    KeptIsPrefix(es, step.survives);
    RespectKeepsLatch(s.tables, Kept(es, step.survives));
  }

  // ----- nothing is sent, nothing becomes READY, no tick hands out a quote -----

  lemma RefusedByRisk(p: Process, t: Tables, h: Handling, c: QualifiedContract)
    requires Engaged(p.config, t.state, h.readable)
    ensures ApprovalsOf(p.config, SubmissionOf(p, t, h, c)).risk != []
  {
    hide Risk.RiskReasons;
    Risk.RiskApprovesExactly(p.config, SubmissionOf(p, t, h, c).risk);
  }

  lemma RefusalSendsNothing(a: Approvals, t: Tables, s: Submission, k: nat)
    requires Distinct(t.orders) && FreshId(t.orders, s.freshId) && a.risk != []
    requires k <= |Submit(a, t.orders, s).effects|
    ensures ApplyAll(t, Submit(a, t.orders, s).effects[..k]).sent == t.sent
  {
    SubmissionDiesAtAStage(a, t, s, k);
    assert CourseOf(a, t.orders, s).refusal != [];
  }

  lemma HandledSendsNothing(p: Process, t: Tables, h: Handling, n: nat)
    requires Distinct(t.orders) && FreshId(t.orders, h.freshId) && Latched(t.state) && n <= |Handled(p, t, h).effects|
    ensures ApplyAll(t, Handled(p, t, h).effects[..n]).sent == t.sent
  {
    assert Engaged(p.config, t.state, h.readable);
    hide ApprovalsOf, Acceptable, Submit, Engaged, Latched, Handled, SubmissionOf;
    if n > 0 {
      HandledCut(p, t, h, n);
      if Submits(p, t, h) {
        var s := SubmissionOf(p, t, h, p.contract.value);
        RefusedByRisk(p, t, h, p.contract.value);
        SubmissionIsHandlings(p, t, h, p.contract.value);
        RefusalSendsNothing(ApprovalsOf(p.config, s), Apply(t, SignalOf(h)), s, n - 1);
      }
    }
  }

  lemma SubmissionIsHandlings(p: Process, t: Tables, h: Handling, c: QualifiedContract)
    ensures SubmissionOf(p, t, h, c).freshId == h.freshId
  {}

  lemma StepSendsNothing(s: System, step: Step)
    requires Sound(s.tables.orders, s.tables.sent) && Latched(s.tables.state) && Allowed(s, step.event)
    ensures Next(s, step).tables.sent == s.tables.sent
  {
    hide Next, Handled, StatusEffects, Latched, Backed;
    if !WritesOrders(s, step.event) {
      OthersTouchNoOrder(s, step);
    } else {
      var p, t, e := s.process.value, s.tables, step.event;
      WritersCut(s, step);
      var k: nat :| k <= |OrderWork(p, t, e)| && Next(s, step).tables == ApplyAll(t, OrderWork(p, t, e)[..k]);
      if OrderWork(p, t, e) != [] {
        match e
        case IntentHandled(h) => HandledSendsNothing(p, t, h, k);
        case StatusLearned(u) => StatusKeepsSound(t, u, k);
        case CancelAll(at) => CancelPrefix(t, at, k);
      }
    }
  }

  /**
   * Under the latch READY and the part of a tick that hands out quotes are only ever kept from before: no
   * startup, no reconciliation and no tick brings either of them about.
   */
  ghost predicate OnlyKeeps(s: System, e: Event, s': System) {
    s'.process.Some? ==>
      && (s'.process.value.state.Ready? ==>
            && s.process.Some? && s.process.value.state.Ready?
            && !e.Startup? && !(Reconciles(e) && Acts(s.process.value, e)))
      && (s'.process.value.inTick ==>
            && s.process.Some? && s.process.value.inTick
            && !e.Startup? && !(e.Ticked? && HasBroker(s.process.value)))
  }

  lemma QuietTick(s: System, step: Step)
    requires Latched(s.tables.state) && !Reconciles(step.event) && Next(s, step).process.Some?
    ensures Next(s, step).process.value.inTick ==>
              && s.process.Some? && s.process.value.inTick
              && !step.event.Startup? && !(step.event.Ticked? && HasBroker(s.process.value))
  {
    hide SubmissionEffects, StatusEffects, CancelEffects, Acceptable, Reconciled;
  }

  lemma ReconcilingStopsTick(p: Process, t: Tables, e: Event)
    requires Reconciles(e) && ReconcilingReaction(p, t, e).process.Some?
    ensures !ReconcilingReaction(p, t, e).process.value.inTick
  {
    hide Comparison;
  }

  lemma StepOnlyKeeps(s: System, step: Step)
    requires Latched(s.tables.state)
    ensures OnlyKeeps(s, step.event, Next(s, step))
  {
    if Next(s, step).process.Some? {
      if Reconciles(step.event) {
        assert s.process.Some?;
        hide Next, ReconcilingReaction, Adopts;
        ReconcilingStep(s, step);
        if Acts(s.process.value, step.event) {
          ReadyOutcome(s.process.value, s.tables, step.event);
          ReconcilingStopsTick(s.process.value, s.tables, step.event);
        }
      } else {
        hide Next, Latched;
        QuietTick(s, step);
        if step.event.Startup? { StartsUnready(s, step); } else { QuietStep(s, step); }
      }
    }
  }

  /** Step `n` of a run only keeps. */
  ghost predicate KeepsAt(s: System, steps: seq<Step>, n: nat)
    requires n < |steps|
  {
    OnlyKeeps(Run(s, steps[..n]), steps[n].event, Run(s, steps[..n + 1]))
  }

  /** Every step of a run only keeps. */
  ghost predicate AlwaysOnlyKeeps(s: System, steps: seq<Step>) {
    forall n: nat :: n < |steps| ==> KeepsAt(s, steps, n)
  }

  lemma SameInPrefix(s: System, steps: seq<Step>, n: nat)
    requires n < |steps| - 1
    ensures KeepsAt(s, steps, n) <==> KeepsAt(s, steps[..|steps| - 1], n)
  {
    hide OnlyKeeps, Run;
    var init := steps[..|steps| - 1];
    assert init[..n] == steps[..n] && init[..n + 1] == steps[..n + 1];
  }

  lemma {:induction false} RunUnderLatch(s: System, steps: seq<Step>)
    requires Sound(s.tables.orders, s.tables.sent) && Latched(s.tables.state) && AllowedRun(s, steps)
    ensures Latched(Run(s, steps).tables.state) && Run(s, steps).tables.sent == s.tables.sent
  {
    hide Next, Latched, Allowed, Sound;
    if steps != [] {
      var init, last := steps[..|steps| - 1], steps[|steps| - 1];
      RunPrefix(s, steps);
      RunUnderLatch(s, init);
      RunKeepsSound(s, init);
      StepKeepsLatch(Run(s, init), last);
      StepSendsNothing(Run(s, init), last);
    }
  }

  lemma {:induction false} KeptUnderLatch(s: System, steps: seq<Step>, n: nat)
    requires Sound(s.tables.orders, s.tables.sent) && Latched(s.tables.state) && AllowedRun(s, steps) && n < |steps|
    ensures KeepsAt(s, steps, n)
    decreases |steps|
  {
    hide Next, Latched, Allowed, Sound, OnlyKeeps;
    var init := steps[..|steps| - 1];
    RunPrefix(s, steps);
    if n < |init| {
      KeptUnderLatch(s, init, n);
      SameInPrefix(s, steps, n);
    } else {
      RunUnderLatch(s, init);
      RunKeepsSound(s, init);
      StepOnlyKeeps(Run(s, init), steps[n]);
      assert steps[..n] == init && steps[..n + 1] == steps;
    }
  }

  /** A process that started within the steps is, and stays, neither READY nor handing out quotes. */
  lemma {:induction false} LaterProcessesNeverTrade(s: System, steps: seq<Step>, n: nat)
    requires n < |steps| && steps[n].event.Startup? && AlwaysOnlyKeeps(s, steps)
    ensures var p := Run(s, steps).process; p.Some? ==> !p.value.state.Ready? && !p.value.inTick
    decreases |steps|
  {
    hide Run;
    var init := steps[..|steps| - 1];
    assert KeepsAt(s, steps, |steps| - 1);
    assert steps[..|steps| - 1 + 1] == steps;
    if n < |init| {
      KeptInPrefix(s, steps);
      LaterProcessesNeverTrade(s, init, n);
    }
  }

  lemma KeptInPrefix(s: System, steps: seq<Step>)
    requires steps != [] && AlwaysOnlyKeeps(s, steps)
    ensures AlwaysOnlyKeeps(s, steps[..|steps| - 1])
  {
    hide KeepsAt, Run;
    var init := steps[..|steps| - 1];
    forall m: nat | m < |init| ensures KeepsAt(s, init, m) {
      SameInPrefix(s, steps, m);
      assert KeepsAt(s, steps, m);
    }
  }

  /**
   * Once any process has written the latch - even if it died before writing the reason - then in every
   * later run, over any number of processes: the latch stays, no order is handed to the broker, no step
   * assigns READY, no tick reaches the strategy with a quote, and no process started since is ever READY.
   */
  lemma LatchedForever(s: System, reason: string, engagedAt: string, k: nat, later: seq<Step>)
    requires Sound(s.tables.orders, s.tables.sent) && 0 < k
    requires AllowedRun(Next(s, Step(KillSwitchLatched(reason, engagedAt), Some(k))), later)
    ensures var latched := Next(s, Step(KillSwitchLatched(reason, engagedAt), Some(k)));
            var s' := Run(latched, later);
            && Latched(s'.tables.state) && s'.tables.sent == s.tables.sent
            && AlwaysOnlyKeeps(latched, later)
            && ((exists n :: 0 <= n < |later| && later[n].event.Startup?) && s'.process.Some? ==>
                  !s'.process.value.state.Ready? && !s'.process.value.inTick)
  {
    hide Next, Allowed, Latched, Sound, Run, KeepsAt;
    var latched := Next(s, Step(KillSwitchLatched(reason, engagedAt), Some(k)));
    LatchTakes(s, reason, engagedAt, k);
    RunUnderLatch(latched, later);
    forall n: nat | n < |later| ensures KeepsAt(latched, later, n) {
      KeptUnderLatch(latched, later, n);
      assert KeepsAt(latched, later, n);
    }
    hide AlwaysOnlyKeeps;
    if n :| 0 <= n < |later| && later[n].event.Startup? { LaterProcessesNeverTrade(latched, later, n); }
  }

  lemma LatchTakes(s: System, reason: string, engagedAt: string, k: nat)
    requires 0 < k
    ensures var latched := Next(s, Step(KillSwitchLatched(reason, engagedAt), Some(k)));
            && Latched(latched.tables.state)
            && latched.tables.orders == s.tables.orders && latched.tables.sent == s.tables.sent
  {
    var step := Step(KillSwitchLatched(reason, engagedAt), Some(k));
    var n := if k < 3 then k else 3;
    assert LatchEffects(reason, engagedAt)[..3] == LatchEffects(reason, engagedAt);
    assert Next(s, step) == System(s.process, ApplyAll(s.tables, LatchEffects(reason, engagedAt)[..n]));
    LatchComesFirst(s.tables, reason, engagedAt, n);
    OthersTouchNoOrder(s, step);
  }

  // ----- what an engaged switch does to a live process -----

  /** Configured, latched, or not readable: any of them engages the switch. */
  ghost predicate SwitchedOff(p: Process, t: Tables, readable: bool) {
    || p.config.killSwitch || !readable
    || ("kill_switch_latched" in t.state && t.state["kill_switch_latched"] == "true")
  }

  /**
   * Where a connect or a re-check leaves a process, in full: SAFE unless it adopted; having adopted, HALTED under an
   * engaged switch, whatever the permission to transmit; else SAFE without that permission; else READY.
   */
  lemma CheckedStateIs(s: System, step: Step)
    requires s.process.Some? && HasBroker(s.process.value) && step.survives.None?
    requires step.event.Connected? || step.event.Rechecked?
    ensures Next(s, step).process.Some? ==>
              var p, e, state := s.process.value, step.event, Next(s, step).process.value.state;
              && (state.Halted? <==> Adopts(p, s.tables, e.answers) && SwitchedOff(p, s.tables, e.readable))
              && (state.Ready? <==> Adopts(p, s.tables, e.answers) && !SwitchedOff(p, s.tables, e.readable) && p.config.allowTransmit)
              && (!state.Halted? && !state.Ready? ==> state.Safe?)
  {
    hide Next, Reconciled, Adopts, Grounded;
    ReconcilingStep(s, step);
    ReconcilingGrounds(s.process.value, s.tables, step.event.answers);
  }

  /**
   * A tick that has a contract ends HALTED and hands out no quote exactly under an engaged switch; otherwise it keeps
   * the state and hands out quotes. Without a contract it does neither.
   */
  lemma TickHaltsExactlyWhen(s: System, readable: bool)
    requires s.process.Some? && HasBroker(s.process.value)
    ensures var p, after := s.process.value, Next(s, Step(Ticked(readable), None));
            && after.process.Some? && after.tables == s.tables
            && var p' := after.process.value;
               if p.contract.None? then p' == p.(inTick := false)
               else if SwitchedOff(p, s.tables, readable) then p' == p.(state := Halted, inTick := false)
               else p' == p.(inTick := true)
  {
    hide Comparison, Handled, StatusEffects, Reconciled, Started;
  }
}
