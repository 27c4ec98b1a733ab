/**
 * Stored instants are text, and the queries compare text. The fraction of a second is six digits or
 * absent, so `+` (no fraction) meets `.` (a fraction) and the order needs its own argument.
 */
module IsoTime {
  import opened Enums
  import opened Numerals

  // ----- calendar instants -----

  /** A UTC datetime by its fields, in the proleptic Gregorian calendar. */
  datatype Civil = Civil(year: nat, month: nat, day: nat, hour: nat, minute: nat, second: nat, micro: nat) {
    predicate Ok() {
      && 1 <= year <= 9999 && 1 <= month <= 12 && 1 <= day <= DaysIn(year, month)
      && hour < 24 && minute < 60 && second < 60 && micro < 1_000_000
    }
  }

  predicate Leap(y: nat) { y % 4 == 0 && (y % 100 != 0 || y % 400 == 0) }

  function DaysIn(y: nat, m: nat): nat
    requires 1 <= m <= 12
  {
    if m == 2 then (if Leap(y) then 29 else 28)
    else if m == 4 || m == 6 || m == 9 || m == 11 then 30
    else 31
  }

  function DaysBeforeYear(y: nat): nat
    requires y >= 1
  {
    (y - 1) * 365 + (y - 1) / 4 - (y - 1) / 100 + (y - 1) / 400
  }

  function DaysBeforeMonth(y: nat, m: nat): nat
    requires 1 <= m <= 13
  {
    if m == 1 then 0 else DaysBeforeMonth(y, m - 1) + DaysIn(y, m - 1)
  }

  function Ordinal(c: Civil): nat
    requires c.Ok()
  {
    DaysBeforeYear(c.year) + DaysBeforeMonth(c.year, c.month) + c.day
  }

  /** Microseconds on the time line, from the day before year 1. */
  function Micros(c: Civil): nat
    requires c.Ok()
  {
    ((Ordinal(c) * 24 + c.hour) * 60 + c.minute) * 60_000_000 + c.second * 1_000_000 + c.micro
  }

  /** The lengths of the months, and the day on which the clocks of the system start counting. */
  lemma CalendarIs(y: nat)
    ensures DaysIn(y, 4) == DaysIn(y, 6) == DaysIn(y, 9) == DaysIn(y, 11) == 30
    ensures DaysIn(y, 1) == DaysIn(y, 3) == DaysIn(y, 5) == DaysIn(y, 7) == DaysIn(y, 8) == DaysIn(y, 10) == DaysIn(y, 12) == 31
    ensures DaysIn(2024, 2) == DaysIn(2000, 2) == 29 && DaysIn(2023, 2) == DaysIn(1900, 2) == 28
    ensures Ordinal(Civil(1970, 1, 1, 0, 0, 0, 0)) == 719_163
  {}

  // ----- text -----

  /** The order SQL gives to text: the first difference decides, and a prefix comes first. */
  predicate TextLess(a: string, b: string) {
    if b == "" then false
    else if a == "" then true
    else a[0] < b[0] || (a[0] == b[0] && TextLess(a[1..], b[1..]))
  }

  function Fraction(micro: nat): string { if micro == 0 then "+00:00" else "." + (Padded(micro, 6) + "+00:00") }

  /** What follows each field, so that the whole is read from the left. */
  function FromSecond(c: Civil): string { Padded(c.second, 2) + Fraction(c.micro) }
  function FromMinute(c: Civil): string { Padded(c.minute, 2) + (":" + FromSecond(c)) }
  function FromHour(c: Civil): string { Padded(c.hour, 2) + (":" + FromMinute(c)) }
  function FromDay(c: Civil): string { Padded(c.day, 2) + ("T" + FromHour(c)) }
  function FromMonth(c: Civil): string { Padded(c.month, 2) + ("-" + FromDay(c)) }

  /** YYYY-MM-DDTHH:MM:SS[.ffffff]+00:00 */
  function ToIso(c: Civil): string { Padded(c.year, 4) + ("-" + FromMonth(c)) }

  // ----- numerals as text -----

  predicate Fits(n: nat, width: nat) { if width == 0 then n == 0 else Fits(n / 10, width - 1) }

  lemma TwoDigits(n: nat)
    requires n < 100
    ensures Fits(n, 2)
  {}

  lemma TwoMoreDigits(n: nat, width: nat)
    requires Fits(n / 100, width)
    ensures Fits(n, width + 2)
  {
    assert n / 10 / 10 == n / 100;
  }

  lemma FourDigits(n: nat)
    requires n < 10_000
    ensures Fits(n, 4)
  {
    TwoDigits(n / 100);
    TwoMoreDigits(n, 2);
  }

  lemma SixDigits(n: nat)
    requires n < 1_000_000
    ensures Fits(n, 6)
  {
    FourDigits(n / 100);
    TwoMoreDigits(n, 4);
  }

  lemma {:induction false} PaddedLength(n: nat, width: nat)
    requires Fits(n, width)
    ensures |Padded(n, width)| == width
  {
    if width > 0 { PaddedLength(n / 10, width - 1); }
  }

  /** For texts of equal length followed by more text, the prefix decides unless it is the same. */
  lemma {:induction false} PrefixDecides(a: string, b: string, x: string, y: string)
    requires |a| == |b|
    ensures TextLess(a + x, b + y) <==> TextLess(a, b) || (a == b && TextLess(x, y))
  {
    if a == "" {
      assert b == "" && a + x == x && b + y == y;
    } else {
      assert (a + x)[1..] == a[1..] + x && (b + y)[1..] == b[1..] + y;
      PrefixDecides(a[1..], b[1..], x, y);
      assert a == [a[0]] + a[1..] && b == [b[0]] + b[1..];
    }
  }

  lemma OneChar(a: char, b: char)
    ensures TextLess([a], [b]) <==> a < b
  {}

  /** Numerals of one width compare as their numbers do. */
  lemma {:induction false} NumeralsCompare(m: nat, n: nat, width: nat)
    requires Fits(m, width) && Fits(n, width)
    ensures TextLess(Padded(m, width), Padded(n, width)) <==> m < n
    ensures Padded(m, width) == Padded(n, width) <==> m == n
  {
    if width > 0 {
      NumeralsCompare(m / 10, n / 10, width - 1);
      PaddedLength(m / 10, width - 1);
      PaddedLength(n / 10, width - 1);
      PrefixDecides(Padded(m / 10, width - 1), Padded(n / 10, width - 1), [Digit(m % 10)], [Digit(n % 10)]);
      OneChar(Digit(m % 10), Digit(n % 10));
      if Padded(m, width) == Padded(n, width) { PaddedIsInjective(m, n, width); }
    }
  }

  /** One field and what follows it: the field decides unless it is the same. */
  lemma FieldDecides(m: nat, n: nat, width: nat, x: string, y: string)
    requires Fits(m, width) && Fits(n, width)
    ensures TextLess(Padded(m, width) + x, Padded(n, width) + y) <==> m < n || (m == n && TextLess(x, y))
  {
    NumeralsCompare(m, n, width);
    PaddedLength(m, width);
    PaddedLength(n, width);
    PrefixDecides(Padded(m, width), Padded(n, width), x, y);
  }

  /** The same separator on both sides decides nothing. */
  lemma Separated(sep: char, x: string, y: string)
    ensures TextLess([sep] + x, [sep] + y) <==> TextLess(x, y)
  {
    PrefixDecides([sep], [sep], x, y);
    OneChar(sep, sep);
  }

  /** The optional fraction: an absent one is zero, and sorts before every present one because '+' < '.'. */
  lemma FractionsCompare(m: nat, n: nat)
    requires m < 1_000_000 && n < 1_000_000
    ensures TextLess(Fraction(m), Fraction(n)) <==> m < n
  {
    SixDigits(m);
    SixDigits(n);
    if m == 0 && n == 0 {
      Irreflexive("+00:00");
    } else if m == 0 || n == 0 {
      assert Fraction(m)[0] != Fraction(n)[0];
    } else {
      Irreflexive("+00:00");
      FieldDecides(m, n, 6, "+00:00", "+00:00");
      Separated('.', Padded(m, 6) + "+00:00", Padded(n, 6) + "+00:00");
    }
  }

  lemma {:induction false} Irreflexive(s: string)
    ensures !TextLess(s, s)
  {
    if s != "" { Irreflexive(s[1..]); }
  }

  // ----- text order is field order -----

  predicate ClockLess(c: Civil, d: Civil) {
    || c.hour < d.hour
    || (c.hour == d.hour && (c.minute < d.minute
        || (c.minute == d.minute && (c.second < d.second || (c.second == d.second && c.micro < d.micro)))))
  }

  predicate DateLess(c: Civil, d: Civil) {
    c.year < d.year || (c.year == d.year && (c.month < d.month || (c.month == d.month && c.day < d.day)))
  }

  predicate SameDate(c: Civil, d: Civil) { c.year == d.year && c.month == d.month && c.day == d.day }

  lemma ClocksCompare(c: Civil, d: Civil)
    requires c.Ok() && d.Ok()
    ensures TextLess(FromHour(c), FromHour(d)) <==> ClockLess(c, d)
  {
    FractionsCompare(c.micro, d.micro);
    FieldDecides(c.second, d.second, 2, Fraction(c.micro), Fraction(d.micro));
    Separated(':', FromSecond(c), FromSecond(d));
    FieldDecides(c.minute, d.minute, 2, ":" + FromSecond(c), ":" + FromSecond(d));
    Separated(':', FromMinute(c), FromMinute(d));
    FieldDecides(c.hour, d.hour, 2, ":" + FromMinute(c), ":" + FromMinute(d));
  }

  lemma TextsCompare(c: Civil, d: Civil)
    requires c.Ok() && d.Ok()
    ensures TextLess(ToIso(c), ToIso(d)) <==> DateLess(c, d) || (SameDate(c, d) && ClockLess(c, d))
  {
    hide TextLess, Padded, FromHour, Fits;
    ClocksCompare(c, d);
    TwoDigits(c.day);
    TwoDigits(d.day);
    TwoDigits(c.month);
    TwoDigits(d.month);
    FourDigits(c.year);
    FourDigits(d.year);
    Separated('T', FromHour(c), FromHour(d));
    FieldDecides(c.day, d.day, 2, "T" + FromHour(c), "T" + FromHour(d));
    Separated('-', FromDay(c), FromDay(d));
    FieldDecides(c.month, d.month, 2, "-" + FromDay(c), "-" + FromDay(d));
    Separated('-', FromMonth(c), FromMonth(d));
    FieldDecides(c.year, d.year, 4, "-" + FromMonth(c), "-" + FromMonth(d));
  }

  // ----- field order is time order -----

  lemma {:induction false} MonthsAddUp(y: nat, m: nat)
    requires 1 <= m <= 13
    ensures DaysBeforeMonth(y, m) <= DaysBeforeMonth(y, 13) == if Leap(y) then 366 else 365
    decreases 13 - m
  {
    if m == 13 {
      Unrolled(y);
    } else {
      MonthsAddUp(y, m + 1);
    }
  }

  lemma Unrolled(y: nat)
    ensures DaysBeforeMonth(y, 13) == if Leap(y) then 366 else 365
  {
    assert DaysBeforeMonth(y, 2) == 31 && DaysBeforeMonth(y, 3) == 31 + DaysIn(y, 2);
    assert DaysBeforeMonth(y, 4) == 62 + DaysIn(y, 2) && DaysBeforeMonth(y, 5) == 92 + DaysIn(y, 2);
    assert DaysBeforeMonth(y, 6) == 123 + DaysIn(y, 2) && DaysBeforeMonth(y, 7) == 153 + DaysIn(y, 2);
    assert DaysBeforeMonth(y, 8) == 184 + DaysIn(y, 2) && DaysBeforeMonth(y, 9) == 215 + DaysIn(y, 2);
    assert DaysBeforeMonth(y, 10) == 245 + DaysIn(y, 2) && DaysBeforeMonth(y, 11) == 276 + DaysIn(y, 2);
    assert DaysBeforeMonth(y, 12) == 306 + DaysIn(y, 2) && DaysBeforeMonth(y, 13) == 337 + DaysIn(y, 2);
  }

  lemma {:induction false} LaterMonth(y: nat, m: nat, n: nat)
    requires 1 <= m < n <= 13
    ensures DaysBeforeMonth(y, m) + DaysIn(y, m) <= DaysBeforeMonth(y, n)
    decreases n
  {
    if n > m + 1 { LaterMonth(y, m, n - 1); }
  }

  lemma YearLength(y: nat)
    requires y >= 1
    ensures DaysBeforeYear(y + 1) == DaysBeforeYear(y) + if Leap(y) then 366 else 365
  {
    Quarters(y, 4);
    Quarters(y, 100);
    Quarters(y, 400);
    Divides(y);
  }

  /** The quotient goes up exactly where the divisor divides. */
  lemma Quarters(y: nat, k: nat)
    requires y >= 1 && (k == 4 || k == 100 || k == 400)
    ensures y / k == (y - 1) / k + if y % k == 0 then 1 else 0
  {}

  lemma Divides(y: nat)
    ensures y % 400 == 0 ==> y % 100 == 0
    ensures y % 100 == 0 ==> y % 4 == 0
  {
    if y % 400 == 0 { OfHundred(y, y / 400 * 4); }
    if y % 100 == 0 { OfFour(y, y / 100 * 25); }
  }

  lemma OfHundred(y: nat, k: nat)
    requires y == k * 100
    ensures y % 100 == 0
  {}

  lemma OfFour(y: nat, k: nat)
    requires y == k * 4
    ensures y % 4 == 0
  {}

  lemma {:induction false} LaterYear(y: nat, z: nat)
    requires 1 <= y < z
    ensures DaysBeforeYear(y) + (if Leap(y) then 366 else 365) <= DaysBeforeYear(z)
    decreases z
  {
    if z == y + 1 {
      YearLength(y);
    } else {
      LaterYear(y, z - 1);
      YearLength(z - 1);
    }
  }

  lemma DatesCompare(c: Civil, d: Civil)
    requires c.Ok() && d.Ok() && DateLess(c, d)
    ensures Ordinal(c) < Ordinal(d)
  {
    if c.year < d.year {
      LaterYear(c.year, d.year);
      LaterMonth(c.year, c.month, c.month + 1);
      MonthsAddUp(c.year, c.month + 1);
    } else if c.month < d.month {
      LaterMonth(c.year, c.month, d.month);
    }
  }

  lemma InstantsFollow(c: Civil, d: Civil)
    requires c.Ok() && d.Ok() && (DateLess(c, d) || (SameDate(c, d) && ClockLess(c, d)))
    ensures Micros(c) < Micros(d)
  {
    if DateLess(c, d) { DatesCompare(c, d); }
    hide Ordinal, DaysIn;
    if SameDate(c, d) { SameOrdinal(c, d); }
  }

  lemma SameOrdinal(c: Civil, d: Civil)
    requires c.Ok() && d.Ok() && SameDate(c, d)
    ensures Ordinal(c) == Ordinal(d)
  {}

  /** Stored instants compare as text exactly as they compare in time. */
  lemma TextOrderIsTimeOrder(c: Civil, d: Civil)
    requires c.Ok() && d.Ok()
    ensures TextLess(ToIso(c), ToIso(d)) <==> Micros(c) < Micros(d)
    ensures ToIso(c) == ToIso(d) <==> Micros(c) == Micros(d)
  {
    TextsCompare(c, d);
    hide Micros, ToIso, DaysIn;
    if DateLess(c, d) || (SameDate(c, d) && ClockLess(c, d)) {
      InstantsFollow(c, d);
    } else if c != d {
      InstantsFollow(d, c);
    }
    if ToIso(c) == ToIso(d) { Irreflexive(ToIso(c)); TextsCompare(d, c); }
  }

  // ----- reading back -----

  datatype Field = Field(value: nat, rest: string)

  /** A field of fixed width and the separator after it. */
  function ReadField(s: string, width: nat, sep: char): Option<Field> {
    if |s| <= width || s[width] != sep || Value(s[..width]).None? then None
    else Some(Field(Value(s[..width]).value, s[width + 1..]))
  }

  function ReadFraction(s: string): Option<nat> {
    if s == "+00:00" then Some(0)
    else if |s| == 13 && s[0] == '.' && s[7..] == "+00:00" then Value(s[1..7])
    else None
  }

  function ReadSecond(s: string): Option<(nat, nat)> {
    if |s| < 2 || Value(s[..2]).None? || ReadFraction(s[2..]).None? then None
    else Some((Value(s[..2]).value, ReadFraction(s[2..]).value))
  }

  function ReadClock(date: (nat, nat, nat), s: string): Option<Civil> {
    match ReadField(s, 2, ':')
    case None => None
    case Some(hour) =>
      match ReadField(hour.rest, 2, ':')
      case None => None
      case Some(minute) =>
        match ReadSecond(minute.rest)
        case None => None
        case Some((second, micro)) =>
          var c := Civil(date.0, date.1, date.2, hour.value, minute.value, second, micro);
          if c.Ok() then Some(c) else None
  }

  /** Reads the texts that ToIso writes; None where parsing raises. */
  function FromIso(s: string): Option<Civil> {
    match ReadField(s, 4, '-')
    case None => None
    case Some(year) =>
      match ReadField(year.rest, 2, '-')
      case None => None
      case Some(month) =>
        match ReadField(month.rest, 2, 'T')
        case None => None
        case Some(day) => ReadClock((year.value, month.value, day.value), day.rest)
  }

  lemma ReadBack(n: nat, width: nat, sep: char, rest: string)
    requires Fits(n, width)
    ensures ReadField(Padded(n, width) + ([sep] + rest), width, sep) == Some(Field(n, rest))
  {
    var s := Padded(n, width) + ([sep] + rest);
    PaddedLength(n, width);
    ValueOfPadded(n, width);
    assert s[..width] == Padded(n, width) && s[width + 1..] == rest;
  }

  lemma FractionReadsBack(micro: nat)
    requires micro < 1_000_000
    ensures ReadFraction(Fraction(micro)) == Some(micro)
  {
    if micro != 0 {
      SixDigits(micro);
      PaddedLength(micro, 6);
      ValueOfPadded(micro, 6);
      var s := Fraction(micro);
      assert s[0] == '.' && s[1..7] == Padded(micro, 6) && s[7..] == "+00:00";
    }
  }

  lemma SecondReadsBack(c: Civil)
    requires c.Ok()
    ensures ReadSecond(FromSecond(c)) == Some((c.second, c.micro))
  {
    FractionReadsBack(c.micro);
    TwoDigits(c.second);
    PaddedLength(c.second, 2);
    ValueOfPadded(c.second, 2);
    assert FromSecond(c)[..2] == Padded(c.second, 2) && FromSecond(c)[2..] == Fraction(c.micro);
  }

  lemma ClockReadsBack(c: Civil)
    requires c.Ok()
    ensures ReadClock((c.year, c.month, c.day), FromHour(c)) == Some(c)
  {
    hide FromSecond, ReadField, ReadSecond, Padded, Fits, DaysIn;
    SecondReadsBack(c);
    TwoDigits(c.minute);
    ReadBack(c.minute, 2, ':', FromSecond(c));
    TwoDigits(c.hour);
    ReadBack(c.hour, 2, ':', FromMinute(c));
  }

  /** Every stored instant reads back as itself, fraction or no fraction. */
  lemma IsoRoundTrip(c: Civil)
    requires c.Ok()
    ensures FromIso(ToIso(c)) == Some(c)
  {
    TwoDigits(c.day);
    hide FromHour, ReadField, ReadClock, Padded, Fits, DaysIn;
    ClockReadsBack(c);
    ReadBack(c.day, 2, 'T', FromHour(c));
    TwoDigits(c.month);
    ReadBack(c.month, 2, '-', FromDay(c));
    FourDigits(c.year);
    ReadBack(c.year, 4, '-', FromMonth(c));
  }

  /** Separators stand between the fields, and the offset ends the text. */
  lemma TextIs(c: Civil)
    ensures ToIso(c) == Padded(c.year, 4) + "-" + Padded(c.month, 2) + "-" + Padded(c.day, 2) + "T"
                        + Padded(c.hour, 2) + ":" + Padded(c.minute, 2) + ":" + Padded(c.second, 2)
                        + (if c.micro == 0 then "" else "." + Padded(c.micro, 6)) + "+00:00"
  {
    hide Padded;
  }

  /** A field of two digits is its tens and its units. */
  lemma TwoDigitField(n: nat)
    requires n < 100
    ensures Padded(n, 2) == ["0123456789"[n / 10], "0123456789"[n % 10]]
  {
    assert forall d: nat :: d < 10 ==> "0123456789"[d] == Digit(d);
    assert Padded(n / 10, 1) == [Digit(n / 10)];
  }

  // ----- what the queries rest on -----

  function CountFrom(stamps: seq<Civil>, since: string): nat {
    if stamps == [] then 0
    else CountFrom(stamps[..|stamps| - 1], since) + if TextLess(ToIso(stamps[|stamps| - 1]), since) then 0 else 1
  }

  function CountSinceInstant(stamps: seq<Civil>, since: int): nat
    requires forall i :: 0 <= i < |stamps| ==> stamps[i].Ok()
  {
    if stamps == [] then 0
    else CountSinceInstant(stamps[..|stamps| - 1], since) + if Micros(stamps[|stamps| - 1]) < since then 0 else 1
  }

  /** Counting stamps that are textually at or after an instant counts those that are at or after it. */
  lemma {:induction false} TextCountIsTimeCount(stamps: seq<Civil>, since: Civil)
    requires since.Ok() && forall i :: 0 <= i < |stamps| ==> stamps[i].Ok()
    ensures CountFrom(stamps, ToIso(since)) == CountSinceInstant(stamps, Micros(since))
  {
    hide ToIso, Micros;
    if stamps != [] {
      TextCountIsTimeCount(stamps[..|stamps| - 1], since);
      TextOrderIsTimeOrder(stamps[|stamps| - 1], since);
    }
  }

  predicate TextIn(stamp: string, lo: Option<Civil>, hi: Option<Civil>) {
    && (lo.Some? ==> !TextLess(stamp, ToIso(lo.value)))
    && (hi.Some? ==> TextLess(stamp, ToIso(hi.value)))
  }

  predicate InstantIn(c: Civil, lo: Option<Civil>, hi: Option<Civil>)
    requires c.Ok() && (lo.Some? ==> lo.value.Ok()) && (hi.Some? ==> hi.value.Ok())
  {
    (lo.Some? ==> Micros(lo.value) <= Micros(c)) && (hi.Some? ==> Micros(c) < Micros(hi.value))
  }

  ghost predicate AllOk(stamps: seq<Civil>) { forall i :: 0 <= i < |stamps| ==> stamps[i].Ok() }

  /** The stamps a query with a textual half-open range selects; an open end is None. */
  function SelectText(stamps: seq<Civil>, lo: Option<Civil>, hi: Option<Civil>): seq<Civil> {
    if stamps == [] then []
    else
      var last := stamps[|stamps| - 1];
      SelectText(stamps[..|stamps| - 1], lo, hi) + if TextIn(ToIso(last), lo, hi) then [last] else []
  }

  ghost predicate TextAscends(stamps: seq<Civil>) {
    forall i, j :: 0 <= i < j < |stamps| ==> TextLess(ToIso(stamps[i]), ToIso(stamps[j]))
  }

  ghost predicate TimeAscends(stamps: seq<Civil>)
    requires AllOk(stamps)
  {
    forall i, j :: 0 <= i < j < |stamps| ==> Micros(stamps[i]) < Micros(stamps[j])
  }

  lemma InTextIsInTime(c: Civil, lo: Option<Civil>, hi: Option<Civil>)
    requires c.Ok() && (lo.Some? ==> lo.value.Ok()) && (hi.Some? ==> hi.value.Ok())
    ensures TextIn(ToIso(c), lo, hi) <==> InstantIn(c, lo, hi)
  {
    hide ToIso, Micros;
    if lo.Some? { TextOrderIsTimeOrder(c, lo.value); }
    if hi.Some? { TextOrderIsTimeOrder(c, hi.value); }
  }

  /** A textual half-open range selects exactly the stamps whose instants lie in it, as often as they occur. */
  lemma {:induction false} TextRangeIsTimeRange(stamps: seq<Civil>, lo: Option<Civil>, hi: Option<Civil>, c: Civil)
    requires AllOk(stamps) && c.Ok() && (lo.Some? ==> lo.value.Ok()) && (hi.Some? ==> hi.value.Ok())
    ensures multiset(SelectText(stamps, lo, hi))[c] == if InstantIn(c, lo, hi) then multiset(stamps)[c] else 0
  {
    hide ToIso, Micros, TextIn, InstantIn, DaysIn, Civil.Ok;
    if stamps != [] {
      var init, last := stamps[..|stamps| - 1], stamps[|stamps| - 1];
      TextRangeIsTimeRange(init, lo, hi, c);
      InTextIsInTime(last, lo, hi);
      assert stamps == init + [last];
    }
  }

  /** Sorting stamps as text sorts them in time. */
  lemma TextSortIsTimeSort(stamps: seq<Civil>)
    requires AllOk(stamps)
    ensures TextAscends(stamps) <==> TimeAscends(stamps)
  {
    hide ToIso, Micros;
    forall i, j | 0 <= i < j < |stamps|
      ensures TextLess(ToIso(stamps[i]), ToIso(stamps[j])) <==> Micros(stamps[i]) < Micros(stamps[j])
    {
      TextOrderIsTimeOrder(stamps[i], stamps[j]);
    }
  }
}
