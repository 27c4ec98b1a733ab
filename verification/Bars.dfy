/** Historical bars: what makes one possible, and the exact accounting of the ones that are missing. */
module Bars {
  import opened Enums

  /** One candle. Instants are integer microseconds. */
  datatype Bar = Bar(source: string, symbol: string, interval: string, openedAt: int,
                     open: real, high: real, low: real, close: real, volume: real)
  {
    /** Structurally possible; a bar that is not cannot be constructed. */
    predicate Possible() {
      && !Blank(source) && IntervalSeconds(interval).Some?
      && low <= high && low <= open <= high && low <= close <= high
      && volume >= 0.0
    }
  }

  predicate Blank(s: string) { forall i :: 0 <= i < |s| ==> s[i] in {' ', '\t', '\n', '\r'} }

  function IntervalSeconds(interval: string): (seconds: Option<nat>)
    ensures seconds.Some? ==> seconds.value > 0
  {
    if interval == "1m" then Some(60)
    else if interval == "5m" then Some(300)
    else if interval == "15m" then Some(900)
    else if interval == "1h" then Some(3600)
    else if interval == "1d" then Some(86400)
    else None
  }

  /** The five intervals a bar can have, in seconds, and no other. */
  lemma IntervalsAre(interval: string)
    ensures IntervalSeconds("1m") == Some(60) && IntervalSeconds("5m") == Some(5 * 60) && IntervalSeconds("15m") == Some(15 * 60)
    ensures IntervalSeconds("1h") == Some(60 * 60) && IntervalSeconds("1d") == Some(24 * 60 * 60)
    ensures IntervalSeconds(interval).None? <==> interval !in ["1m", "5m", "15m", "1h", "1d"]
  {
    assert "5m"[0] == '5' && "1h"[1] == 'h' && "1d"[1] == 'd' && |"15m"| == 3;
  }

  /** The length of an interval in microseconds. */
  function Step(interval: string): (step: int)
    requires IntervalSeconds(interval).Some?
    ensures step > 0
  {
    IntervalSeconds(interval).value * 1_000_000
  }

  /** How many steps fit in a stretch of time. */
  function Slots(d: int, step: int): int
    requires step > 0
  {
    d / step
  }

  /** A stretch of time made of whole steps. */
  predicate Whole(d: int, step: int)
    requires step > 0
  {
    d % step == 0
  }

  /** A stretch of missing bars, between two present ones. */
  datatype BarGap = BarGap(after: int, before: int, missing: int)

  function GapsAt(bars: seq<Bar>, step: int): seq<BarGap>
    requires step > 0
  {
    if |bars| < 2 then []
    else
      var a, b := bars[|bars| - 2].openedAt, bars[|bars| - 1].openedAt;
      var earlier := GapsAt(bars[..|bars| - 1], step);
      if b - a > step then earlier + [BarGap(a, b, Slots(b - a, step) - 1)] else earlier
  }

  /** Every discontinuity in a series, reported and never filled. */
  method FindGaps(bars: seq<Bar>) returns (gaps: seq<BarGap>)
    requires forall i :: 0 <= i < |bars| ==> bars[i].Possible()
    ensures |bars| < 2 ==> gaps == []
    ensures |bars| >= 2 ==> bars[0].Possible() && gaps == GapsAt(bars, Step(bars[0].interval))
  {
    gaps := [];
    if |bars| < 2 {
      return;
    }
    var step := Step(bars[0].interval);
    for i := 1 to |bars|
      invariant gaps == GapsAt(bars[..i], step)
    {
      assert bars[..i + 1][..i] == bars[..i];
      var elapsed := bars[i].openedAt - bars[i - 1].openedAt;
      if elapsed > step {
        gaps := gaps + [BarGap(bars[i - 1].openedAt, bars[i].openedAt, Slots(elapsed, step) - 1)];
      }
    }
    assert bars[..|bars|] == bars;
  }

  // ----- accounting -----

  ghost predicate Increasing(bars: seq<Bar>) {
    forall i, j :: 0 <= i < j < |bars| ==> bars[i].openedAt < bars[j].openedAt
  }

  /** Every bar opens a whole number of steps after the first. */
  ghost predicate OnGrid(bars: seq<Bar>, step: int)
    requires step > 0
  {
    forall i :: 0 <= i < |bars| ==> Whole(bars[i].openedAt - bars[0].openedAt, step)
  }

  function Missing(gaps: seq<BarGap>): int {
    if gaps == [] then 0 else Missing(gaps[..|gaps| - 1]) + gaps[|gaps| - 1].missing
  }

  lemma Times(k: int, step: int)
    requires step > 0
    ensures k >= 1 ==> k * step >= step
    ensures k >= 2 ==> k * step >= 2 * step
    ensures k <= 0 ==> k * step <= 0
    ensures k <= -1 ==> k * step <= -step
  {
    if k >= 2 { AtLeast(k - 2, step); } else if k <= -1 { AtLeast(-1 - k, step); }
  }

  lemma AtLeast(n: nat, step: int)
    requires step > 0
    ensures n * step >= 0
    ensures (n + 2) * step == n * step + 2 * step
    ensures (-1 - n) * step == -step - n * step
  {}

  lemma QuotientIs(x: int, k: int, step: int)
    requires step > 0 && x == k * step
    ensures x / step == k && x % step == 0
  {
    var q, r := x / step, x % step;
    assert x == q * step + r && 0 <= r < step;
    assert (k - q) * step == r;
    Times(k - q, step);
  }

  lemma WholeSteps(a: int, b: int, step: int)
    requires step > 0 && Whole(a, step) && Whole(b, step)
    ensures Whole(b - a, step) && Slots(b, step) == Slots(a, step) + Slots(b - a, step)
  {
    var m, n := a / step, b / step;
    assert a == m * step && b == n * step;
    assert b - a == (n - m) * step;
    QuotientIs(b - a, n - m, step);
  }

  lemma AtLeastAStep(d: int, step: int)
    requires step > 0 && d > 0 && Whole(d, step)
    ensures d >= step && Slots(d, step) >= 1
    ensures d > step <==> Slots(d, step) > 1
  {
    var k := d / step;
    assert d == k * step;
    Times(k, step);
  }

  lemma NoSlots(step: int)
    requires step > 0
    ensures Slots(0, step) == 0
  {}

  lemma MissingSnoc(gaps: seq<BarGap>, g: BarGap)
    ensures Missing(gaps + [g]) == Missing(gaps) + g.missing
  {
    assert (gaps + [g])[..|gaps|] == gaps;
  }

  /** From one bar of the grid to the next, the slots passed are the bar itself and those its gap reports. */
  lemma OneMoreSlot(a: int, b: int, step: int)
    requires step > 0 && Whole(a, step) && Whole(b, step) && a < b
    ensures Slots(b, step) == Slots(a, step) + 1 + if b - a > step then Slots(b - a, step) - 1 else 0
  {
    hide Slots, Whole;
    WholeSteps(a, b, step);
    AtLeastAStep(b - a, step);
  }

  /** Bars present and bars reported missing make up every slot from the first bar to the last. */
  lemma {:induction false} GapsAccountForEverySlot(bars: seq<Bar>, step: int)
    requires step > 0 && bars != [] && Increasing(bars) && OnGrid(bars, step)
    ensures |bars| + Missing(GapsAt(bars, step)) == Slots(bars[|bars| - 1].openedAt - bars[0].openedAt, step) + 1
  {
    hide Slots, Whole;
    if |bars| == 1 {
      NoSlots(step);
    } else {
      var init := bars[..|bars| - 1];
      var first, a, b := bars[0].openedAt, bars[|bars| - 2].openedAt, bars[|bars| - 1].openedAt;
      GapsAccountForEverySlot(init, step);
      OneMoreSlot(a - first, b - first, step);
      MissingSnoc(GapsAt(init, step), BarGap(a, b, Slots(b - a, step) - 1));
    }
  }

  // ----- where the missing slots are -----

  /** A gap between two neighbouring bars. */
  ghost predicate Between(bars: seq<Bar>, g: BarGap) {
    exists i :: 0 <= i < |bars| - 1 && g.after == bars[i].openedAt && g.before == bars[i + 1].openedAt
  }

  lemma StaysBetween(bars: seq<Bar>, g: BarGap)
    requires |bars| >= 1 && Between(bars[..|bars| - 1], g)
    ensures Between(bars, g)
  {
    var init := bars[..|bars| - 1];
    var i :| 0 <= i < |init| - 1 && g.after == init[i].openedAt && g.before == init[i + 1].openedAt;
    assert g.after == bars[i].openedAt && g.before == bars[i + 1].openedAt;
  }

  lemma {:induction false} GapsAreBetween(bars: seq<Bar>, step: int)
    requires step > 0
    ensures forall g :: g in GapsAt(bars, step) ==> Between(bars, g)
  {
    hide Slots;
    if |bars| >= 2 {
      var init := bars[..|bars| - 1];
      GapsAreBetween(init, step);
      forall g | g in GapsAt(init, step) ensures Between(bars, g) { StaysBetween(bars, g); }
      assert bars[|bars| - 2 + 1] == bars[|bars| - 1];
    }
  }

  lemma BetweenIsBounded(bars: seq<Bar>, g: BarGap)
    requires Increasing(bars) && Between(bars, g)
    ensures bars != [] && bars[0].openedAt <= g.after < g.before <= bars[|bars| - 1].openedAt
  {
    var i :| 0 <= i < |bars| - 1 && g.after == bars[i].openedAt && g.before == bars[i + 1].openedAt;
  }

  ghost predicate InOrder(gaps: seq<BarGap>) {
    forall i, j :: 0 <= i < j < |gaps| ==> gaps[i].before <= gaps[j].after
  }

  /** Gaps are reported in order and never overlap. */
  lemma {:induction false} GapsAreOrdered(bars: seq<Bar>, step: int)
    requires step > 0 && Increasing(bars)
    ensures InOrder(GapsAt(bars, step))
  {
    hide Slots;
    if |bars| >= 2 {
      var init := bars[..|bars| - 1];
      var earlier := GapsAt(init, step);
      GapsAreOrdered(init, step);
      GapsAreBetween(init, step);
      forall i | 0 <= i < |earlier| ensures earlier[i].before <= bars[|bars| - 2].openedAt {
        assert earlier[i] in earlier;
        BetweenIsBounded(init, earlier[i]);
      }
    }
  }

  lemma {:induction false} WideStepsAreGaps(bars: seq<Bar>, step: int, i: nat)
    requires step > 0 && i + 1 < |bars| && bars[i + 1].openedAt - bars[i].openedAt > step
    ensures exists g :: g in GapsAt(bars, step) && g.after == bars[i].openedAt && g.before == bars[i + 1].openedAt
  {
    hide Slots;
    if i + 2 == |bars| {
      var g := BarGap(bars[i].openedAt, bars[i + 1].openedAt, Slots(bars[i + 1].openedAt - bars[i].openedAt, step) - 1);
      assert g in GapsAt(bars, step);
    } else {
      var init := bars[..|bars| - 1];
      WideStepsAreGaps(init, step, i);
      var g :| g in GapsAt(init, step) && g.after == init[i].openedAt && g.before == init[i + 1].openedAt;
      assert g in GapsAt(bars, step);
    }
  }

  /** The bar before an instant that no bar opens at. */
  lemma {:induction false} Neighbour(bars: seq<Bar>, t: int) returns (i: nat)
    requires Increasing(bars) && |bars| >= 2 && bars[0].openedAt < t < bars[|bars| - 1].openedAt
    requires forall k :: 0 <= k < |bars| ==> bars[k].openedAt != t
    ensures i + 1 < |bars| && bars[i].openedAt < t < bars[i + 1].openedAt
  {
    if bars[|bars| - 2].openedAt < t {
      i := |bars| - 2;
    } else {
      i := Neighbour(bars[..|bars| - 1], t);
    }
  }

  predicate Covers(g: BarGap, t: int) { g.after < t < g.before }

  lemma CoveredIsMissing(bars: seq<Bar>, g: BarGap, t: int, k: nat)
    requires Increasing(bars) && Between(bars, g) && Covers(g, t) && k < |bars|
    ensures bars[k].openedAt != t
  {
    var i :| 0 <= i < |bars| - 1 && g.after == bars[i].openedAt && g.before == bars[i + 1].openedAt;
    assert k <= i || i + 1 <= k;
  }

  lemma MissingIsCovered(bars: seq<Bar>, step: int, t: int) returns (g: BarGap)
    requires step > 0 && |bars| >= 2 && Increasing(bars) && OnGrid(bars, step)
    requires bars[0].openedAt <= t <= bars[|bars| - 1].openedAt && Whole(t - bars[0].openedAt, step)
    requires forall k :: 0 <= k < |bars| ==> bars[k].openedAt != t
    ensures g in GapsAt(bars, step) && Covers(g, t)
  {
    hide Slots, Whole;
    var i := Neighbour(bars, t);
    var first := bars[0].openedAt;
    WholeSteps(bars[i].openedAt - first, t - first, step);
    WholeSteps(t - first, bars[i + 1].openedAt - first, step);
    AtLeastAStep(t - bars[i].openedAt, step);
    AtLeastAStep(bars[i + 1].openedAt - t, step);
    WideStepsAreGaps(bars, step, i);
    g :| g in GapsAt(bars, step) && g.after == bars[i].openedAt && g.before == bars[i + 1].openedAt;
  }

  /**
   * A slot of the grid between the first bar and the last is missing if and only if some gap covers it,
   * and never do two gaps cover one slot.
   */
  lemma EachMissingSlotIsInOneGap(bars: seq<Bar>, step: int, t: int)
    requires step > 0 && |bars| >= 2 && Increasing(bars) && OnGrid(bars, step)
    requires bars[0].openedAt <= t <= bars[|bars| - 1].openedAt && Whole(t - bars[0].openedAt, step)
    ensures (exists g :: g in GapsAt(bars, step) && Covers(g, t)) <==> forall k :: 0 <= k < |bars| ==> bars[k].openedAt != t
    ensures var gaps := GapsAt(bars, step);
            forall i, j :: 0 <= i < j < |gaps| ==> !(Covers(gaps[i], t) && Covers(gaps[j], t))
  {
    hide Slots, Whole, GapsAt;
    GapsAreOrdered(bars, step);
    GapsAreBetween(bars, step);
    if forall k :: 0 <= k < |bars| ==> bars[k].openedAt != t {
      var g := MissingIsCovered(bars, step, t);
    } else {
      var k :| 0 <= k < |bars| && bars[k].openedAt == t;
      forall g | g in GapsAt(bars, step) ensures !Covers(g, t) {
        if Covers(g, t) { CoveredIsMissing(bars, g, t, k); }
      }
    }
  }
}
