/** Paginated download of historical bars, against any server and against an honest one. */
module BinanceFetch {
  import opened Enums
  import opened Bars

  const MAX_PAGES := 2000
  const PAGE_LIMIT := 1000

  /** One row of a reply: five usable numbers behind an opening time in milliseconds, or something else. */
  datatype Kline =
    | Kline(openMs: int, open: real, high: real, low: real, close: real, volume: real)
    | Malformed

  datatype Query = Query(symbol: string, interval: string, end: int) {
    predicate Ok() { IntervalSeconds(interval).Some? }
  }

  /** What a server answers to its n-th request for [startMs, endMs]; None is a transport or format error. */
  type Server = (nat, int, int) -> Option<seq<Kline>>

  datatype Ending = Done | TooManyPages | Unreachable | BadKline

  datatype Fetched = Fetched(bars: seq<Bar>, ending: Ending, requests: nat)

  /** int(timestamp * 1000): milliseconds, truncated toward zero. */
  function TruncMs(t: int): int { if t >= 0 then t / 1000 else -((-t) / 1000) }

  /** The bar a row stands for, or None where building it raises. */
  function BarOf(k: Kline, q: Query): Option<Bar> {
    match k
    case Malformed => None
    case Kline(ms, o, h, l, c, v) =>
      var bar := Bar("binance", q.symbol, q.interval, ms * 1000, o, h, l, c, v);
      if bar.Possible() then Some(bar) else None
  }

  /** The bar says what the row says: its numbers, its instant, and whose bar it is. */
  ghost predicate Tells(b: Bar, k: Kline, q: Query) {
    && k.Kline? && b.source == "binance" && b.symbol == q.symbol && b.interval == q.interval
    && b.openedAt == k.openMs * 1000
    && b.open == k.open && b.high == k.high && b.low == k.low && b.close == k.close && b.volume == k.volume
  }

  /** A row of numbers that a bar can have: opened and closed between its extremes, on a volume that is not negative. */
  ghost predicate Sensible(k: Kline) {
    k.Kline? && k.low <= k.open <= k.high && k.low <= k.close <= k.high && k.volume >= 0.0
  }

  /** Exactly the sensible rows make a bar, and it tells the row. */
  lemma BarsTell(k: Kline, q: Query)
    requires q.Ok()
    ensures BarOf(k, q).Some? <==> Sensible(k)
    ensures BarOf(k, q).Some? ==> Tells(BarOf(k, q).value, k, q)
  {
    assert "binance"[0] == 'b';
  }

  /** How far a page gets: all of it, up to the end of the range, or up to a row that raises. */
  datatype Progress = All | ReachedEnd | Broke

  datatype PageResult = PageResult(bars: seq<Bar>, progress: Progress)

  function ReadPage(rows: seq<Kline>, q: Query): PageResult {
    if rows == [] then PageResult([], All)
    else
      var earlier := ReadPage(rows[..|rows| - 1], q);
      if !earlier.progress.All? then earlier
      else match BarOf(rows[|rows| - 1], q)
        case None => PageResult(earlier.bars, Broke)
        case Some(b) => if b.openedAt >= q.end then PageResult(earlier.bars, ReachedEnd) else PageResult(earlier.bars + [b], All)
  }

  lemma {:induction false} ReadPageIs(rows: seq<Kline>, q: Query)
    ensures var r := ReadPage(rows, q);
            && (forall i :: 0 <= i < |r.bars| ==> r.bars[i].openedAt < q.end)
            && (r.progress.All? ==> |r.bars| == |rows|
                                    && forall i :: 0 <= i < |rows| ==> rows[i].Kline? && BarOf(rows[i], q) == Some(r.bars[i]))
  {
    if rows != [] { ReadPageIs(rows[..|rows| - 1], q); }
  }

  /**
   * What a page yields tells its first rows, one bar each, all opening before the end; it stops at the first row that is
   * not sensible or that opens at the end or later, and at no other.
   */
  ghost predicate PageTells(r: PageResult, rows: seq<Kline>, q: Query) {
    && |r.bars| <= |rows|
    && (forall i :: 0 <= i < |r.bars| ==> Sensible(rows[i]) && rows[i].openMs * 1000 < q.end && Tells(r.bars[i], rows[i], q))
    && (r.progress.All? <==> |r.bars| == |rows|)
    && (r.progress.Broke? ==> !Sensible(rows[|r.bars|]))
    && (r.progress.ReachedEnd? ==> Sensible(rows[|r.bars|]) && rows[|r.bars|].openMs * 1000 >= q.end)
  }

  lemma {:induction false} PagesTell(rows: seq<Kline>, q: Query)
    requires q.Ok()
    ensures PageTells(ReadPage(rows, q), rows, q)
  {
    if rows != [] {
      PagesTell(rows[..|rows| - 1], q);
      BarsTell(rows[|rows| - 1], q);
      hide BarOf, Tells, Sensible, Query.Ok;
    }
  }

  function LastOpen(rows: seq<Kline>): int
    requires rows != []
  {
    if rows[|rows| - 1].Kline? then rows[|rows| - 1].openMs * 1000 else 0
  }

  function Later(a: int, b: int): int { if a >= b then a else b }

  /** Everything a download does from a cursor on, having made `pages` requests already. */
  function FetchFrom(server: Server, q: Query, cursor: int, pages: nat): Fetched
    requires q.Ok()
    decreases q.end - cursor
  {
    if cursor >= q.end then Fetched([], Done, pages)
    else if pages + 1 > MAX_PAGES then Fetched([], TooManyPages, pages)
    else match server(pages + 1, TruncMs(cursor), TruncMs(q.end))
      case None => Fetched([], Unreachable, pages + 1)
      case Some(rows) =>
        if rows == [] then Fetched([], Done, pages + 1)
        else
          var page := ReadPage(rows, q);
          match page.progress
          case ReachedEnd => Fetched(page.bars, Done, pages + 1)
          case Broke => Fetched(page.bars, BadKline, pages + 1)
          case All =>
            var next := Later(LastOpen(rows) + Step(q.interval), cursor + Step(q.interval));
            var rest := FetchFrom(server, q, next, pages + 1);
            Fetched(page.bars + rest.bars, rest.ending, rest.requests)
  }

  class BinanceBarSource {
    const server: Server

    constructor (server: Server)
      ensures this.server == server
    {
      this.server := server;
    }

    /** Yields the rows of a page as bars until one is past the end or does not make a bar. */
    method TakePage(rows: seq<Kline>, q: Query) returns (page: PageResult)
      ensures page == ReadPage(rows, q)
      ensures q.Ok() ==> PageTells(page, rows, q)
    {
      if q.Ok() { PagesTell(rows, q); }
      var bars: seq<Bar> := [];
      for i := 0 to |rows|
        invariant ReadPage(rows[..i], q) == PageResult(bars, All)
      {
        assert rows[..i + 1][..i] == rows[..i];
        var bar := BarOf(rows[i], q);
        if bar.None? {
          StopsAt(rows, q, i + 1);
          return PageResult(bars, Broke);
        }
        if bar.value.openedAt >= q.end {
          StopsAt(rows, q, i + 1);
          return PageResult(bars, ReachedEnd);
        }
        bars := bars + [bar.value];
      }
      assert rows[..|rows|] == rows;
      return PageResult(bars, All);
    }

    /** Pages through [start, end): what was yielded, how it ended, and the requests it took. */
    method Fetch(q: Query, start: int) returns (result: Fetched)
      requires q.Ok()
      ensures result == FetchFrom(server, q, start, 0)
    {
      hide Step, IntervalSeconds, ReadPage, TruncMs, LastOpen;
      var step := Step(q.interval);
      var bars: seq<Bar> := [];
      var cursor, pages := start, 0;
      while cursor < q.end
        invariant var rest := FetchFrom(server, q, cursor, pages);
                  FetchFrom(server, q, start, 0) == Fetched(bars + rest.bars, rest.ending, rest.requests)
      {
        if pages + 1 > MAX_PAGES {
          return Fetched(bars + [], TooManyPages, pages);
        }
        pages := pages + 1;
        var rows := server(pages, TruncMs(cursor), TruncMs(q.end));
        if rows.None? {
          return Fetched(bars + [], Unreachable, pages);
        }
        if rows.value == [] {
          return Fetched(bars + [], Done, pages);
        }
        var page := TakePage(rows.value, q);
        if page.progress.ReachedEnd? {
          return Fetched(bars + page.bars, Done, pages);
        }
        if page.progress.Broke? {
          return Fetched(bars + page.bars, BadKline, pages);
        }
        cursor := Later(LastOpen(rows.value) + step, cursor + step);
        Reassociate(bars, page.bars, FetchFrom(server, q, cursor, pages).bars);
        bars := bars + page.bars;
      }
      return Fetched(bars + [], Done, pages);
    }
  }

  lemma Reassociate<T>(a: seq<T>, b: seq<T>, c: seq<T>)
    ensures (a + b) + c == a + (b + c)
  {}

  /** Once a page stops it stays stopped. */
  lemma {:induction false} StopsAt(rows: seq<Kline>, q: Query, i: nat)
    requires i <= |rows| && !ReadPage(rows[..i], q).progress.All?
    ensures ReadPage(rows, q) == ReadPage(rows[..i], q)
  {
    if i == |rows| {
      assert rows[..i] == rows;
    } else {
      var init := rows[..|rows| - 1];
      assert init[..i] == rows[..i];
      StopsAt(init, q, i);
    }
  }

  // ----- any server -----

  /** How many steps it takes to cover a stretch, rounding up. */
  function StepsToCover(d: int, step: int): nat
    requires step > 0
  {
    if d <= 0 then 0 else 1 + StepsToCover(d - step, step)
  }

  lemma {:induction false} CoverIsMonotone(a: int, b: int, step: int)
    requires step > 0 && a <= b
    ensures StepsToCover(a, step) <= StepsToCover(b, step)
    decreases b
  {
    if b > 0 { CoverIsMonotone(a - step, b - step, step); }
  }

  /** Rounding up is what it is: the least number of steps that covers the stretch. */
  lemma {:induction false} CoverIsCeiling(d: int, step: int)
    requires step > 0 && d > 0
    ensures (StepsToCover(d, step) - 1) * step < d <= StepsToCover(d, step) * step
  {
    if d > step {
      CoverIsCeiling(d - step, step);
    }
  }

  /**
   * Against any server at all - repeating rows, going backwards, returning pages of any size - a download
   * makes at most 2000 requests and at most one per step of the range, and never yields a bar at or past
   * the end.
   */
  lemma {:induction false} AnyServerIsBounded(server: Server, q: Query, cursor: int, pages: nat)
    requires q.Ok() && pages <= MAX_PAGES
    ensures var r := FetchFrom(server, q, cursor, pages);
            && pages <= r.requests <= MAX_PAGES
            && (r.ending.TooManyPages? ==> r.requests == MAX_PAGES)
            && r.requests <= pages + StepsToCover(q.end - cursor, Step(q.interval))
            && forall i :: 0 <= i < |r.bars| ==> r.bars[i].openedAt < q.end
    decreases q.end - cursor
  {
    hide Step, IntervalSeconds, ReadPage, TruncMs, LastOpen;
    if cursor < q.end && pages + 1 <= MAX_PAGES {
      var reply := server(pages + 1, TruncMs(cursor), TruncMs(q.end));
      var step := Step(q.interval);
      if reply.Some? && reply.value != [] {
        var page := ReadPage(reply.value, q);
        ReadPageIs(reply.value, q);
        if page.progress.All? {
          var next := Later(LastOpen(reply.value) + step, cursor + step);
          AnyServerIsBounded(server, q, next, pages + 1);
          CoverIsMonotone(q.end - next, q.end - cursor - step, step);
        }
      }
    }
  }

  /** The bound for a whole download. */
  lemma FetchIsBounded(server: Server, q: Query, start: int)
    requires q.Ok() && start < q.end
    ensures var r := FetchFrom(server, q, start, 0);
            && r.requests <= 2000 && (r.ending.TooManyPages? ==> r.requests == 2000)
            && (r.requests - 1) * Step(q.interval) < q.end - start
            && forall i :: 0 <= i < |r.bars| ==> r.bars[i].openedAt < q.end
  {
    var step, r := Step(q.interval), FetchFrom(server, q, start, 0);
    AnyServerIsBounded(server, q, start, 0);
    CoverIsCeiling(q.end - start, step);
    Fewer(r.requests, StepsToCover(q.end - start, step), step);
  }

  lemma Fewer(a: int, b: int, step: int)
    requires a <= b && step > 0
    ensures (a - 1) * step <= (b - 1) * step
  {}

  // ----- an honest server -----

  function StepMs(interval: string): (ms: int)
    requires IntervalSeconds(interval).Some?
    ensures ms > 0 && Step(interval) == ms * 1000
  {
    IntervalSeconds(interval).value * 1000
  }

  /** Well-formed rows, in order, opening at least one step apart. */
  ghost predicate Spaced(all: seq<Kline>, stepMs: int) {
    && (forall i :: 0 <= i < |all| ==> all[i].Kline?)
    && (forall i, j :: 0 <= i < j < |all| ==> all[i].openMs + stepMs <= all[j].openMs)
  }

  /** The first row that opens at `s` or later. */
  function FirstFrom(all: seq<Kline>, s: int): (i: nat)
    ensures i <= |all|
  {
    if all == [] then 0
    else if all[|all| - 1].Kline? && all[|all| - 1].openMs < s then |all|
    else FirstFrom(all[..|all| - 1], s)
  }

  /** The first row that opens after `e`. */
  function FirstAfter(all: seq<Kline>, e: int): nat { FirstFrom(all, e + 1) }

  /** The first thousand rows that open within [s, e]. */
  function HonestPage(all: seq<Kline>, s: int, e: int): seq<Kline> {
    var i, n := FirstFrom(all, s), FirstAfter(all, e);
    var j := if n < i + PAGE_LIMIT then n else i + PAGE_LIMIT;
    if j <= i then [] else all[i..j]
  }

  /** A page is as many rows of the window as there are, up to a thousand, from its first on. */
  lemma PageIsFirstThousand(all: seq<Kline>, s: int, e: int)
    ensures var page, i, n := HonestPage(all, s, e), FirstFrom(all, s), FirstFrom(all, e + 1);
            if n <= i then page == [] else |page| == (if n - i <= 1000 then n - i else 1000) && page == all[i..i + |page|]
  {}

  ghost predicate Honest(server: Server, all: seq<Kline>, q: Query)
    requires q.Ok()
  {
    && Spaced(all, StepMs(q.interval))
    && forall n, s, e :: server(n, s, e) == Some(HonestPage(all, s, e))
  }

  lemma {:induction false} FirstFromIs(all: seq<Kline>, stepMs: int, s: int)
    requires stepMs > 0 && Spaced(all, stepMs)
    ensures forall k :: 0 <= k < |all| ==> (k < FirstFrom(all, s) <==> all[k].openMs < s)
  {
    if all != [] { FirstFromIs(all[..|all| - 1], stepMs, s); }
  }

  /** The valid bars among rows that open before the end of the range. */
  function Scan(rows: seq<Kline>, q: Query): seq<Bar> {
    if rows == [] then []
    else
      var earlier, bar := Scan(rows[..|rows| - 1], q), BarOf(rows[|rows| - 1], q);
      if bar.Some? && bar.value.openedAt < q.end then earlier + [bar.value] else earlier
  }

  lemma {:induction false} ScanConcat(a: seq<Kline>, b: seq<Kline>, q: Query)
    ensures Scan(a + b, q) == Scan(a, q) + Scan(b, q)
  {
    hide BarOf;
    if b == [] {
      assert a + b == a;
    } else {
      assert (a + b)[..|a + b| - 1] == a + b[..|b| - 1];
      ScanConcat(a, b[..|b| - 1], q);
    }
  }

  predicate Opens(k: Kline, q: Query) { k.Kline? && k.openMs * 1000 < q.end }

  lemma OpensAsBar(k: Kline, q: Query)
    ensures BarOf(k, q).Some? ==> k.Kline? && BarOf(k, q).value.openedAt == k.openMs * 1000
  {}

  lemma {:induction false} NothingToScan(rows: seq<Kline>, q: Query)
    requires forall i :: 0 <= i < |rows| ==> !Opens(rows[i], q)
    ensures Scan(rows, q) == []
  {
    if rows != [] {
      OpensAsBar(rows[|rows| - 1], q);
      hide BarOf;
      NothingToScan(rows[..|rows| - 1], q);
    }
  }

  /** A page read to its end is a scan of it; a page that met the end of the range scanned up to there. */
  lemma {:induction false} PageIsScan(rows: seq<Kline>, stepMs: int, q: Query)
    requires stepMs > 0 && Spaced(rows, stepMs) && !ReadPage(rows, q).progress.Broke?
    ensures ReadPage(rows, q).bars == Scan(rows, q)
    ensures ReadPage(rows, q).progress.ReachedEnd? ==> rows != [] && !Opens(rows[|rows| - 1], q)
  {
    hide BarOf;
    if rows != [] {
      var init, last := rows[..|rows| - 1], rows[|rows| - 1];
      PageIsScan(init, stepMs, q);
      OpensAsBar(last, q);
    }
  }

  // ----- exactness -----

  /** A cursor before which nothing can be requested. */
  predicate Sharp(t: int) { t <= TruncMs(t) * 1000 }

  lemma TruncOf(t: int)
    ensures t < TruncMs(t) * 1000 + 1000
    ensures Sharp(t) <==> t < 0 || t % 1000 == 0
    ensures TruncMs(t * 1000) == t
  {
    if t < 0 { assert -(-t) == t; }
  }

  lemma ExtremesOf(end: int, ms: int)
    ensures ms > TruncMs(end) ==> ms * 1000 >= end
  {
    TruncOf(end);
  }

  lemma SharpRows(cursor: int, ms: int)
    requires Sharp(cursor)
    ensures ms >= TruncMs(cursor) <==> ms * 1000 >= cursor
  {
    TruncOf(cursor);
  }

  /** The first row at least a step after one row is the next row. */
  lemma NextRow(all: seq<Kline>, stepMs: int, j: nat)
    requires stepMs > 0 && Spaced(all, stepMs) && 0 < j <= |all|
    ensures FirstFrom(all, all[j - 1].openMs + stepMs) == j
  {
    var s := all[j - 1].openMs + stepMs;
    FirstFromIs(all, stepMs, s);
    assert all[j - 1].openMs < s && (j < |all| ==> all[j].openMs >= s);
  }

  lemma LaterMs(last: int, cursor: int, stepMs: int)
    requires Sharp(cursor) && last >= TruncMs(cursor)
    ensures Later(last * 1000 + stepMs * 1000, cursor + stepMs * 1000) == (last + stepMs) * 1000
    ensures Sharp((last + stepMs) * 1000) && TruncMs((last + stepMs) * 1000) == last + stepMs
  {
    SharpRows(cursor, last);
    TruncOf(last + stepMs);
  }

  /** From a sharp cursor the next one is just past the last row, and the next request starts after it. */
  lemma NextCursor(all: seq<Kline>, q: Query, cursor: int, i: nat, j: nat)
    requires q.Ok() && Spaced(all, StepMs(q.interval)) && Sharp(cursor)
    requires i < j <= |all| && i == FirstFrom(all, TruncMs(cursor))
    ensures var next := Later(LastOpen(all[i..j]) + Step(q.interval), cursor + Step(q.interval));
            Sharp(next) && FirstFrom(all, TruncMs(next)) == j
  {
    hide Step, StepMs, IntervalSeconds, TruncMs, Sharp, FirstFrom;
    var stepMs := StepMs(q.interval);
    FirstFromIs(all, stepMs, TruncMs(cursor));
    var last := all[j - 1].openMs;
    assert all[i..j][|all[i..j]| - 1] == all[j - 1];
    assert last >= TruncMs(cursor);
    LaterMs(last, cursor, stepMs);
    NextRow(all, stepMs, j);
  }

  lemma SpacedPart(all: seq<Kline>, stepMs: int, i: nat, j: nat)
    requires Spaced(all, stepMs) && i <= j <= |all|
    ensures Spaced(all[i..j], stepMs)
  {}

  /** An empty page means every later row is past the end. */
  lemma EmptyPage(all: seq<Kline>, q: Query, s: int)
    requires q.Ok() && Spaced(all, StepMs(q.interval)) && HonestPage(all, s, TruncMs(q.end)) == []
    ensures Scan(all[FirstFrom(all, s)..], q) == []
  {
    hide Step, IntervalSeconds;
    var i, e := FirstFrom(all, s), TruncMs(q.end);
    FirstFromIs(all, StepMs(q.interval), s);
    FirstFromIs(all, StepMs(q.interval), e + 1);
    forall k | 0 <= k < |all[i..]| ensures !Opens(all[i..][k], q) {
      assert all[i..][k] == all[i + k];
      ExtremesOf(q.end, all[i + k].openMs);
    }
    NothingToScan(all[i..], q);
  }

  /** A page that met the end of the range leaves nothing to scan behind it. */
  lemma LastPage(all: seq<Kline>, q: Query, i: nat, j: nat)
    requires q.Ok() && Spaced(all, StepMs(q.interval)) && i < j <= |all| && !Opens(all[j - 1], q)
    ensures Scan(all[j..], q) == []
  {
    hide Step, IntervalSeconds;
    forall k | 0 <= k < |all[j..]| ensures !Opens(all[j..][k], q) {
      assert all[j..][k] == all[j + k] && all[j - 1].openMs + StepMs(q.interval) <= all[j + k].openMs;
    }
    NothingToScan(all[j..], q);
  }

  lemma PastTheEnd(all: seq<Kline>, q: Query, cursor: int)
    requires q.Ok() && Spaced(all, StepMs(q.interval)) && Sharp(cursor) && cursor >= q.end
    ensures Scan(all[FirstFrom(all, TruncMs(cursor))..], q) == []
  {
    hide Step, IntervalSeconds;
    var i := FirstFrom(all, TruncMs(cursor));
    FirstFromIs(all, StepMs(q.interval), TruncMs(cursor));
    forall k | 0 <= k < |all[i..]| ensures !Opens(all[i..][k], q) {
      assert all[i..][k] == all[i + k];
      SharpRows(cursor, all[i + k].openMs);
    }
    NothingToScan(all[i..], q);
  }

  lemma ScanSplits(all: seq<Kline>, q: Query, i: nat, j: nat)
    requires i <= j <= |all|
    ensures Scan(all[i..], q) == Scan(all[i..j], q) + Scan(all[j..], q)
  {
    assert all[i..] == all[i..j] + all[j..];
    ScanConcat(all[i..j], all[j..], q);
  }

  /** Against an honest server, pagination from a sharp cursor is a scan of the rows from there on. */
  lemma {:induction false} PaginationIsScan(server: Server, all: seq<Kline>, q: Query, cursor: int, pages: nat)
    requires q.Ok() && Honest(server, all, q) && Sharp(cursor)
    requires FetchFrom(server, q, cursor, pages).ending.Done?
    ensures FetchFrom(server, q, cursor, pages).bars == Scan(all[FirstFrom(all, TruncMs(cursor))..], q)
    decreases q.end - cursor
  {
    hide Step, StepMs, IntervalSeconds, ReadPage, Scan, TruncMs, LastOpen, Sharp, FirstFrom;
    var s, e := TruncMs(cursor), TruncMs(q.end);
    if cursor >= q.end {
      PastTheEnd(all, q, cursor);
    } else {
      var rows := HonestPage(all, s, e);
      assert server(pages + 1, s, e) == Some(rows);
      if rows == [] {
        EmptyPage(all, q, s);
      } else {
        var i := FirstFrom(all, s);
        var j := i + |rows|;
        assert rows == all[i..j];
        SpacedPart(all, StepMs(q.interval), i, j);
        PageIsScan(rows, StepMs(q.interval), q);
        ScanSplits(all, q, i, j);
        if ReadPage(rows, q).progress.ReachedEnd? {
          assert rows[|rows| - 1] == all[j - 1];
          LastPage(all, q, i, j);
        } else {
          NextCursor(all, q, cursor, i, j);
          PaginationIsScan(server, all, q, Later(LastOpen(rows) + Step(q.interval), cursor + Step(q.interval)), pages + 1);
        }
      }
    }
  }

  /** The valid bars among rows that open in [start, end). */
  function InRange(rows: seq<Kline>, q: Query, start: int): seq<Bar> {
    if rows == [] then []
    else
      var earlier, bar := InRange(rows[..|rows| - 1], q, start), BarOf(rows[|rows| - 1], q);
      if bar.Some? && start <= bar.value.openedAt < q.end then earlier + [bar.value] else earlier
  }

  lemma {:induction false} RangeIsScan(all: seq<Kline>, q: Query, start: int, i: nat)
    requires i <= |all| && forall k :: 0 <= k < |all| ==> all[k].Kline? && (k < i <==> all[k].openMs * 1000 < start)
    ensures InRange(all, q, start) == Scan(all[i..], q)
  {
    hide BarOf;
    if all == [] {
      assert all[i..] == [];
    } else {
      var init, last := all[..|all| - 1], all[|all| - 1];
      OpensAsBar(last, q);
      if i == |all| {
        RangeIsScan(init, q, start, i - 1);
        assert init[i - 1..] == all[i..] == [];
      } else {
        RangeIsScan(init, q, start, i);
        assert all[i..] == init[i..] + [last];
        assert all[i..][..|all[i..]| - 1] == init[i..];
      }
    }
  }

  /**
   * Against a server that holds well-formed rows at least a step apart and returns the first thousand in
   * the window asked for, a download from a whole millisecond that ends without an error yields exactly
   * the server's bars in [start, end), once each and in order.
   */
  lemma AlignedFetchIsExact(server: Server, all: seq<Kline>, q: Query, start: int)
    requires q.Ok() && Honest(server, all, q) && (start % 1000 == 0 || start < 0)
    requires FetchFrom(server, q, start, 0).ending.Done?
    ensures FetchFrom(server, q, start, 0).bars == InRange(all, q, start)
  {
    hide Step, IntervalSeconds, Scan, FetchFrom, InRange;
    TruncOf(start);
    PaginationIsScan(server, all, q, start, 0);
    FirstFromIs(all, StepMs(q.interval), TruncMs(start));
    forall k | 0 <= k < |all|
      ensures all[k].Kline? && (k < FirstFrom(all, TruncMs(start)) <==> all[k].openMs * 1000 < start)
    {
      SharpRows(start, all[k].openMs);
    }
    RangeIsScan(all, q, start, FirstFrom(all, TruncMs(start)));
  }

  // ----- the rows themselves -----

  /** The rows that open in [start, end). */
  function RowsIn(rows: seq<Kline>, start: int, end: int): seq<Kline> {
    if rows == [] then []
    else
      var k := rows[|rows| - 1];
      RowsIn(rows[..|rows| - 1], start, end) + if k.Kline? && start <= k.openMs * 1000 < end then [k] else []
  }

  ghost predicate AllTell(bars: seq<Bar>, rows: seq<Kline>, q: Query) {
    |bars| == |rows| && forall i :: 0 <= i < |rows| ==> Sensible(rows[i]) && Tells(bars[i], rows[i], q)
  }

  /** Every row that opens before the end is sensible. */
  ghost predicate SensibleTo(rows: seq<Kline>, q: Query) {
    forall i :: 0 <= i < |rows| && Opens(rows[i], q) ==> Sensible(rows[i])
  }

  lemma {:induction false} RangeTells(all: seq<Kline>, q: Query, start: int)
    requires q.Ok() && forall i :: 0 <= i < |all| && Opens(all[i], q) && start <= all[i].openMs * 1000 ==> Sensible(all[i])
    ensures AllTell(InRange(all, q, start), RowsIn(all, start, q.end), q)
  {
    if all != [] {
      RangeTells(all[..|all| - 1], q, start);
      BarsTell(all[|all| - 1], q);
      hide BarOf, Tells, Query.Ok;
    }
  }

  lemma PageIsSensible(rows: seq<Kline>, stepMs: int, q: Query)
    requires q.Ok() && stepMs > 0 && Spaced(rows, stepMs) && !ReadPage(rows, q).progress.Broke?
    ensures SensibleTo(rows, q)
  {
    hide ReadPage, Sensible, Tells, Query.Ok;
    PagesTell(rows, q);
  }

  lemma SensibleInTwo(all: seq<Kline>, q: Query, i: nat, j: nat)
    requires i <= j <= |all| && SensibleTo(all[i..j], q) && SensibleTo(all[j..], q)
    ensures SensibleTo(all[i..], q)
  {
    hide Sensible;
    assert all[i..] == all[i..j] + all[j..];
  }

  lemma NothingOpens(all: seq<Kline>, q: Query, j: nat)
    requires q.Ok() && Spaced(all, StepMs(q.interval)) && 0 < j <= |all| && !Opens(all[j - 1], q)
    ensures SensibleTo(all[j..], q)
  {
    forall k | 0 <= k < |all[j..]| ensures !Opens(all[j..][k], q) {
      assert all[j..][k] == all[j + k] && all[j - 1].openMs + StepMs(q.interval) <= all[j + k].openMs;
    }
  }

  lemma NoneOpen(all: seq<Kline>, q: Query, s: int)
    requires q.Ok() && Spaced(all, StepMs(q.interval))
    requires HonestPage(all, s, TruncMs(q.end)) == [] || (exists cursor :: Sharp(cursor) && cursor >= q.end && s == TruncMs(cursor))
    ensures SensibleTo(all[FirstFrom(all, s)..], q)
  {
    hide Step, IntervalSeconds;
    var i, e := FirstFrom(all, s), TruncMs(q.end);
    FirstFromIs(all, StepMs(q.interval), s);
    FirstFromIs(all, StepMs(q.interval), e + 1);
    forall k | 0 <= k < |all[i..]| ensures !Opens(all[i..][k], q) {
      assert all[i..][k] == all[i + k];
      if HonestPage(all, s, e) == [] {
        ExtremesOf(q.end, all[i + k].openMs);
      } else {
        var cursor :| Sharp(cursor) && cursor >= q.end && s == TruncMs(cursor);
        SharpRows(cursor, all[i + k].openMs);
      }
    }
  }

  /** A download that ends without an error met no row that makes no bar. */
  lemma {:induction false} DoneIsSensible(server: Server, all: seq<Kline>, q: Query, cursor: int, pages: nat)
    requires q.Ok() && Honest(server, all, q) && Sharp(cursor)
    requires FetchFrom(server, q, cursor, pages).ending.Done?
    ensures SensibleTo(all[FirstFrom(all, TruncMs(cursor))..], q)
    decreases q.end - cursor
  {
    hide Step, StepMs, IntervalSeconds, ReadPage, TruncMs, LastOpen, Sharp, FirstFrom, SensibleTo, Opens;
    var s, e := TruncMs(cursor), TruncMs(q.end);
    if cursor >= q.end {
      NoneOpen(all, q, s);
    } else {
      var rows := HonestPage(all, s, e);
      assert server(pages + 1, s, e) == Some(rows);
      if rows == [] {
        NoneOpen(all, q, s);
      } else {
        var i := FirstFrom(all, s);
        var j := i + |rows|;
        assert rows == all[i..j];
        SpacedPart(all, StepMs(q.interval), i, j);
        PageIsSensible(rows, StepMs(q.interval), q);
        if ReadPage(rows, q).progress.ReachedEnd? {
          PageIsScan(rows, StepMs(q.interval), q);
          assert rows[|rows| - 1] == all[j - 1];
          NothingOpens(all, q, j);
        } else {
          NextCursor(all, q, cursor, i, j);
          DoneIsSensible(server, all, q, Later(LastOpen(rows) + Step(q.interval), cursor + Step(q.interval)), pages + 1);
        }
        SensibleInTwo(all, q, i, j);
      }
    }
  }

  /**
   * The same, row by row: against an honest server a download from a whole millisecond that ends without an error yields
   * one bar for each row that opens in [start, end), in order, and the i-th bar has the i-th row's open, high, low, close
   * and volume, opens at its millisecond, and bears the source, the symbol and the interval. Every such row is sensible:
   * a row that is not ends the download with an error.
   */
  lemma AlignedFetchTellsRows(server: Server, all: seq<Kline>, q: Query, start: int)
    requires q.Ok() && Honest(server, all, q) && (start % 1000 == 0 || start < 0)
    requires FetchFrom(server, q, start, 0).ending.Done?
    ensures AllTell(FetchFrom(server, q, start, 0).bars, RowsIn(all, start, q.end), q)
  {
    hide Step, IntervalSeconds, FetchFrom, InRange, RowsIn;
    TruncOf(start);
    AlignedFetchIsExact(server, all, q, start);
    DoneIsSensible(server, all, q, start, 0);
    FirstFromIs(all, StepMs(q.interval), TruncMs(start));
    var i := FirstFrom(all, TruncMs(start));
    forall k | 0 <= k < |all| && Opens(all[k], q) && start <= all[k].openMs * 1000 ensures Sensible(all[k]) {
      SharpRows(start, all[k].openMs);
      assert all[i..][k - i] == all[k];
    }
    RangeTells(all, q, start);
  }

  // ----- a start that is not a whole millisecond -----

  /** A flat bar, which is valid whatever the query. */
  function FlatRow(ms: int): Kline { Kline(ms, 1.0, 1.0, 1.0, 1.0, 0.0) }

  function OneRowServer(k: Kline): Server { (n, s, e) => Some(HonestPage([k], s, e)) }

  lemma FlatRowIsABar(ms: int, q: Query)
    requires q.Ok()
    ensures BarOf(FlatRow(ms), q).Some? && BarOf(FlatRow(ms), q).value.openedAt == ms * 1000
  {
    assert "binance"[0] == 'b';
  }

  lemma OneRowPage(k: Kline, s: int, e: int)
    requires k.Kline?
    ensures HonestPage([k], s, e) == if s <= k.openMs <= e then [k] else []
  {
    assert [k][..0] == [];
  }

  lemma ReadOneRow(k: Kline, q: Query)
    requires Opens(k, q) && BarOf(k, q).Some?
    ensures ReadPage([k], q) == PageResult([BarOf(k, q).value], All)
    ensures forall start :: start > k.openMs * 1000 ==> InRange([k], q, start) == []
  {
    OpensAsBar(k, q);
    hide BarOf;
    assert [k][..0] == [];
    assert ReadPage([k][..0], q) == PageResult([], All);
  }

  /** From the millisecond before an unaligned start, the download takes a bar that opened before the start. */
  lemma UnalignedFetchTakesTooMuch(q: Query, start: int)
    requires q.Ok() && 0 <= start < q.end && start % 1000 != 0
    ensures var k := FlatRow(TruncMs(start));
            && Honest(OneRowServer(k), [k], q)
            && FetchFrom(OneRowServer(k), q, start, 0).ending.Done?
            && FetchFrom(OneRowServer(k), q, start, 0).bars != InRange([k], q, start)
  {
    hide Step, IntervalSeconds;
    var ms, step := TruncMs(start), Step(q.interval);
    var k := FlatRow(ms);
    var server := OneRowServer(k);
    TruncOf(start);
    ExtremesOf(q.end, ms);
    FlatRowIsABar(ms, q);
    ReadOneRow(k, q);
    OneRowPage(k, ms, TruncMs(q.end));
    var next := start + step;
    assert StepMs(q.interval) * 1000 == step;
    TruncOf(next);
    OneRowPage(k, TruncMs(next), TruncMs(q.end));
    hide BarOf, ReadPage, HonestPage, InRange;
    assert server(1, ms, TruncMs(q.end)) == Some([k]);
    assert next < q.end ==> server(2, TruncMs(next), TruncMs(q.end)) == Some([]);
    assert LastOpen([k]) == ms * 1000 && Later(ms * 1000 + step, start + step) == next;
    assert FetchFrom(server, q, next, 1).bars == [] && FetchFrom(server, q, next, 1).ending.Done?;
  }

  /** Downloads from here are exact against every honest server. */
  ghost predicate AlwaysExact(q: Query, start: int)
    requires q.Ok()
  {
    forall server: Server, all ::
      Honest(server, all, q) && FetchFrom(server, q, start, 0).ending.Done? ==>
        FetchFrom(server, q, start, 0).bars == InRange(all, q, start)
  }

  /**
   * The request truncates its start to a millisecond. So a download that ends without an error is exact
   * against every honest server if and only if its start is a whole millisecond (or before 1970, where
   * truncation rounds up).
   */
  lemma ExactExactlyWhenAligned(q: Query, start: int)
    requires q.Ok() && start < q.end
    ensures AlwaysExact(q, start) <==> start % 1000 == 0 || start < 0
  {
    hide Honest, FetchFrom, InRange;
    if start % 1000 == 0 || start < 0 {
      forall server: Server, all | Honest(server, all, q) && FetchFrom(server, q, start, 0).ending.Done?
        ensures FetchFrom(server, q, start, 0).bars == InRange(all, q, start)
      {
        AlignedFetchIsExact(server, all, q, start);
      }
    } else {
      UnalignedFetchTakesTooMuch(q, start);
    }
  }
}
