/** The stored bars: first writer wins, and a series loads in strictly increasing time. */
module BarStore {
  import opened Enums
  import opened Sorting
  import opened Bars

  /** The primary key of the bars table. */
  datatype BarKey = BarKey(source: string, symbol: string, interval: string, openedAt: int)

  function KeyOf(b: Bar): BarKey { BarKey(b.source, b.symbol, b.interval, b.openedAt) }

  function KeysOf(bars: seq<Bar>): set<BarKey> { set b | b in bars :: KeyOf(b) }

  /** INSERT OR IGNORE of each bar in turn. */
  function Inserted(table: seq<Bar>, bars: seq<Bar>): seq<Bar> {
    if bars == [] then table
    else
      var before := Inserted(table, bars[..|bars| - 1]);
      if KeyOf(bars[|bars| - 1]) in KeysOf(before) then before else before + [bars[|bars| - 1]]
  }

  ghost predicate KeysDistinct(table: seq<Bar>) {
    forall i, j :: 0 <= i < j < |table| ==> KeyOf(table[i]) != KeyOf(table[j])
  }

  /** A half-open range of one series; an open end is None. */
  datatype Range = Range(source: string, symbol: string, interval: string, start: Option<int>, end: Option<int>) {
    predicate Has(b: Bar) {
      && b.source == source && b.symbol == symbol && b.interval == interval
      && (start.Some? ==> b.openedAt >= start.value)
      && (end.Some? ==> b.openedAt < end.value)
    }

    function Instants(table: seq<Bar>): set<int> { set b | b in table && Has(b) :: b.openedAt }

    function Key(t: int): BarKey { BarKey(source, symbol, interval, t) }
  }

  function FindBar(table: seq<Bar>, key: BarKey): Option<Bar> {
    if table == [] then None
    else match FindBar(table[..|table| - 1], key)
      case Some(b) => Some(b)
      case None => if KeyOf(table[|table| - 1]) == key then Some(table[|table| - 1]) else None
  }

  function Found(table: seq<Bar>, r: Range, instants: seq<int>): seq<Bar> {
    if instants == [] then []
    else
      var earlier := Found(table, r, instants[..|instants| - 1]);
      match FindBar(table, r.Key(instants[|instants| - 1]))
      case Some(b) => earlier + [b]
      case None => earlier
  }

  /** SELECT ... ORDER BY opened_at. */
  function Loaded(table: seq<Bar>, r: Range): seq<Bar> { Found(table, r, Sorted(r.Instants(table))) }

  class BarRepository {
    var bars: seq<Bar>

    /** The primary key holds. */
    ghost predicate Valid()
      reads this
    {
      KeysDistinct(bars)
    }

    constructor ()
      ensures Valid() && bars == []
    {
      bars := [];
    }

    /** Stores bars, ignoring those already present; the result is how many keys were new. */
    method InsertMany(news: seq<Bar>) returns (added: nat)
      requires Valid()
      modifies this
      ensures Valid() && bars == Inserted(old(bars), news)
      ensures old(bars) <= bars && KeysOf(bars) == KeysOf(old(bars)) + KeysOf(news)
      ensures added == |bars| - |old(bars)| == |KeysOf(news) - KeysOf(old(bars))|
    {
      added := 0;
      for i := 0 to |news|
        invariant bars == Inserted(old(bars), news[..i])
        invariant added == |bars| - |old(bars)|
      {
        assert news[..i + 1][..i] == news[..i];
        if KeyOf(news[i]) !in KeysOf(bars) {
          bars := bars + [news[i]];
          added := added + 1;
        }
      }
      assert news[..|news|] == news;
      InsertingKeeps(old(bars), news);
      AddedAreTheNewKeys(old(bars), news);
    }

    /** One series over a half-open range: exactly the stored bars that fall in it, strictly increasing in time. */
    method Load(r: Range) returns (series: seq<Bar>)
      requires Valid()
      ensures series == Loaded(bars, r)
      ensures Increasing(series)
      ensures forall b :: b in series <==>
                && b in bars && b.source == r.source && b.symbol == r.symbol && b.interval == r.interval
                && (r.start.Some? ==> r.start.value <= b.openedAt) && (r.end.Some? ==> b.openedAt < r.end.value)
    {
      series := Loaded(bars, r);
      LoadIsExact(bars, r);
    }
  }

  // ----- importing -----

  lemma KeysSnoc(bars: seq<Bar>, b: Bar)
    ensures KeysOf(bars + [b]) == KeysOf(bars) + {KeyOf(b)}
  {
    assert forall x :: x in bars + [b] <==> x in bars || x == b;
  }

  lemma KeysAreListed(bars: seq<Bar>)
    ensures forall i :: 0 <= i < |bars| ==> KeyOf(bars[i]) in KeysOf(bars)
  {
    forall i | 0 <= i < |bars| ensures KeyOf(bars[i]) in KeysOf(bars) { assert bars[i] in bars; }
  }

  /** Keys accumulate; what was stored stays where it was, unchanged, and keys stay distinct. */
  lemma {:induction false} InsertingKeeps(table: seq<Bar>, bars: seq<Bar>)
    ensures table <= Inserted(table, bars)
    ensures KeysOf(Inserted(table, bars)) == KeysOf(table) + KeysOf(bars)
    ensures KeysDistinct(table) ==> KeysDistinct(Inserted(table, bars))
  {
    if bars != [] {
      hide KeyOf;
      var init, b := bars[..|bars| - 1], bars[|bars| - 1];
      InsertingKeeps(table, init);
      assert init + [b] == bars;
      KeysSnoc(init, b);
      var before := Inserted(table, init);
      KeysSnoc(before, b);
      KeysAreListed(before);
      hide KeysOf;
    }
  }

  lemma OneMoreKey(stored: set<BarKey>, seen: set<BarKey>, key: BarKey)
    ensures |(seen + {key}) - stored| == |seen - stored| + if key in stored + seen then 0 else 1
  {
    if key in stored + seen {
      assert (seen + {key}) - stored == seen - stored;
    } else {
      assert (seen + {key}) - stored == (seen - stored) + {key};
    }
  }

  /** The number of bars added is the number of keys that were new. */
  lemma {:induction false} AddedAreTheNewKeys(table: seq<Bar>, bars: seq<Bar>)
    ensures |Inserted(table, bars)| - |table| == |KeysOf(bars) - KeysOf(table)|
  {
    hide KeysOf, KeyOf;
    if bars == [] {
      NoKeys();
      assert {} - KeysOf(table) == {};
    } else {
      var init, b := bars[..|bars| - 1], bars[|bars| - 1];
      AddedAreTheNewKeys(table, init);
      InsertingKeeps(table, init);
      assert init + [b] == bars;
      KeysSnoc(init, b);
      OneMoreKey(KeysOf(table), KeysOf(init), KeyOf(b));
    }
  }

  lemma NoKeys()
    ensures KeysOf([]) == {}
  {}

  /** Inserting bars whose keys are all stored changes nothing. */
  lemma {:induction false} KnownBarsAreIgnored(table: seq<Bar>, bars: seq<Bar>)
    requires KeysOf(bars) <= KeysOf(table)
    ensures Inserted(table, bars) == table
  {
    if bars != [] {
      var init, b := bars[..|bars| - 1], bars[|bars| - 1];
      assert init + [b] == bars;
      KeysSnoc(init, b);
      KnownBarsAreIgnored(table, init);
    }
  }

  lemma {:induction false} InsertingInParts(table: seq<Bar>, a: seq<Bar>, b: seq<Bar>)
    ensures Inserted(table, a + b) == Inserted(Inserted(table, a), b)
  {
    if b == [] {
      assert a + b == a;
    } else {
      assert (a + b)[..|a + b| - 1] == a + b[..|b| - 1];
      InsertingInParts(table, a, b[..|b| - 1]);
    }
  }

  /**
   * An import that died anywhere and is run again from the start leaves exactly the table one
   * uninterrupted import would have left.
   */
  lemma InterruptedImportIsHarmless(table: seq<Bar>, bars: seq<Bar>, k: nat)
    requires k <= |bars|
    ensures Inserted(Inserted(table, bars[..k]), bars) == Inserted(table, bars)
  {
    var partial := Inserted(table, bars[..k]);
    assert bars == bars[..k] + bars[k..];
    InsertingInParts(partial, bars[..k], bars[k..]);
    InsertingKeeps(table, bars[..k]);
    KnownBarsAreIgnored(partial, bars[..k]);
    InsertingInParts(table, bars[..k], bars[k..]);
  }

  /** Whatever is imported later, in whatever order, what was stored under a key stays as it was. */
  lemma StoredBarsNeverChange(table: seq<Bar>, bars: seq<Bar>, key: BarKey)
    requires FindBar(table, key).Some?
    ensures FindBar(Inserted(table, bars), key) == FindBar(table, key)
  {
    InsertingKeeps(table, bars);
    FindInPrefix(table, Inserted(table, bars), key);
  }

  lemma {:induction false} FindInPrefix(table: seq<Bar>, longer: seq<Bar>, key: BarKey)
    requires table <= longer && FindBar(table, key).Some?
    ensures FindBar(longer, key) == FindBar(table, key)
  {
    if |longer| == |table| {
      assert longer == table;
    } else {
      FindInPrefix(table, longer[..|longer| - 1], key);
    }
  }

  // ----- loading -----

  lemma {:induction false} FindBarIs(table: seq<Bar>, key: BarKey)
    ensures FindBar(table, key).Some? ==> FindBar(table, key).value in table && KeyOf(FindBar(table, key).value) == key
    ensures FindBar(table, key).None? ==> key !in KeysOf(table)
  {
    if table != [] {
      var init := table[..|table| - 1];
      FindBarIs(init, key);
      assert init + [table[|table| - 1]] == table;
      KeysSnoc(init, table[|table| - 1]);
    }
  }

  lemma DistinctKeysFind(table: seq<Bar>, b: Bar)
    requires KeysDistinct(table) && b in table
    ensures FindBar(table, KeyOf(b)) == Some(b)
  {
    FindBarIs(table, KeyOf(b));
    var f := FindBar(table, KeyOf(b)).value;
    var i :| 0 <= i < |table| && table[i] == b;
    var j :| 0 <= j < |table| && table[j] == f;
  }

  lemma {:induction false} FoundAre(table: seq<Bar>, r: Range, instants: seq<int>)
    requires forall i, j :: 0 <= i < j < |instants| ==> instants[i] < instants[j]
    requires forall t :: t in instants ==> r.Key(t) in KeysOf(table)
    ensures var found := Found(table, r, instants);
            && |found| == |instants|
            && forall i :: 0 <= i < |found| ==>
                 found[i].openedAt == instants[i] && FindBar(table, r.Key(instants[i])) == Some(found[i])
  {
    if instants != [] {
      var init := instants[..|instants| - 1];
      FoundAre(table, r, init);
      assert instants[|instants| - 1] in instants;
      FindBarIs(table, r.Key(instants[|instants| - 1]));
    }
  }

  lemma InstantsAreStored(table: seq<Bar>, r: Range)
    ensures forall t :: t in Sorted(r.Instants(table)) ==> r.Key(t) in KeysOf(table)
  {
    forall t | t in Sorted(r.Instants(table)) ensures r.Key(t) in KeysOf(table) {
      var b :| b in table && r.Has(b) && b.openedAt == t;
      assert KeyOf(b) == r.Key(t);
    }
  }

  lemma StoredIsLoaded(table: seq<Bar>, r: Range, b: Bar)
    requires KeysDistinct(table) && b in table && r.Has(b)
    ensures b in Loaded(table, r)
  {
    var instants := Sorted(r.Instants(table));
    InstantsAreStored(table, r);
    FoundAre(table, r, instants);
    DistinctKeysFind(table, b);
    assert b.openedAt in instants;
    var i :| 0 <= i < |instants| && instants[i] == b.openedAt;
    assert Loaded(table, r)[i] == b;
  }

  lemma LoadedIsStored(table: seq<Bar>, r: Range, i: nat)
    requires KeysDistinct(table) && i < |Loaded(table, r)|
    ensures Loaded(table, r)[i] in table && r.Has(Loaded(table, r)[i])
  {
    var instants := Sorted(r.Instants(table));
    InstantsAreStored(table, r);
    FoundAre(table, r, instants);
    assert instants[i] in r.Instants(table);
    var x :| x in table && r.Has(x) && x.openedAt == instants[i];
    DistinctKeysFind(table, x);
  }

  /** A load returns exactly the stored bars of the range, strictly increasing in time. */
  lemma LoadIsExact(table: seq<Bar>, r: Range)
    requires KeysDistinct(table)
    ensures Increasing(Loaded(table, r))
    ensures forall b :: b in Loaded(table, r) <==> b in table && r.Has(b)
  {
    InstantsAreStored(table, r);
    FoundAre(table, r, Sorted(r.Instants(table)));
    forall b ensures b in Loaded(table, r) <==> b in table && r.Has(b) {
      hide Loaded, KeysDistinct, Range.Has;
      if b in table && r.Has(b) { StoredIsLoaded(table, r, b); }
      if b in Loaded(table, r) {
        var i :| 0 <= i < |Loaded(table, r)| && Loaded(table, r)[i] == b;
        LoadedIsStored(table, r, i);
      }
    }
  }

  /** What a series is reported as: its length, its ends and its gaps, all of what a load returns. */
  lemma SeriesAccounts(table: seq<Bar>, r: Range, step: int)
    requires KeysDistinct(table) && step > 0 && Loaded(table, r) != [] && OnGrid(Loaded(table, r), step)
    ensures var s := Loaded(table, r);
            |s| + Missing(GapsAt(s, step)) == Slots(s[|s| - 1].openedAt - s[0].openedAt, step) + 1
  {
    hide Slots, Whole, GapsAt, Missing, Loaded;
    LoadIsExact(table, r);
    GapsAccountForEverySlot(Loaded(table, r), step);
  }
}
