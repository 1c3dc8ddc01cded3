/**
  Event times as SQLite compares them: a fixed-width UTC text per instant, in the format of section 5.1
  of RFC 3339, whose order as text is the order of the instants.
 */
module EventTime {
  import opened Prelude

  // A UTC instant by its calendar fields, with nanoseconds.
  datatype Civil = Civil(year: nat, month: nat, day: nat, hour: nat, minute: nat, second: nat, nanos: nat)

  predicate Leap(year: nat) {
    year % 4 == 0 && (year % 100 != 0 || year % 400 == 0)
  }

  function DaysIn(year: nat, month: nat): nat {
    if month == 2 then (if Leap(year) then 29 else 28)
    else if month == 4 || month == 6 || month == 9 || month == 11 then 30 else 31
  }

  predicate Valid(c: Civil) {
    && c.year <= 9999 && 1 <= c.month <= 12 && 1 <= c.day <= DaysIn(c.year, c.month)
    && c.hour < 24 && c.minute < 60 && c.second < 60 && c.nanos < 1_000_000_000
  }

  // ---------------------------------------------------------------------------------------------
  // Instants
  // ---------------------------------------------------------------------------------------------

  function DaysBeforeYear(year: nat): nat {
    if year == 0 then 0 else DaysBeforeYear(year - 1) + if Leap(year - 1) then 366 else 365
  }

  function DaysBeforeMonth(year: nat, month: nat): nat {
    if month <= 1 then 0 else DaysBeforeMonth(year, month - 1) + DaysIn(year, month - 1)
  }

  // Days since the first day of year 0.
  function DayNumber(c: Civil): int {
    DaysBeforeYear(c.year) + DaysBeforeMonth(c.year, c.month) + c.day - 1
  }

  // Nanoseconds since the start of year 0.
  function Instant(c: Civil): int {
    (((DayNumber(c) * 24 + c.hour) * 60 + c.minute) * 60 + c.second) * 1_000_000_000 + c.nanos
  }

  // ---------------------------------------------------------------------------------------------
  // The fixed-width text
  // ---------------------------------------------------------------------------------------------

  function Digit(d: nat): char
    requires d < 10
  {
    '0' + d as char
  }

  // A number padded with zeros to a width.
  function Pad(n: nat, width: nat): string
    decreases width
  {
    if width == 0 then "" else Pad(n / 10, width - 1) + [Digit(n % 10)]
  }

  // Byte-wise order of text.
  predicate Below(a: string, b: string) {
    b != [] && (a == [] || a[0] < b[0] || (a[0] == b[0] && Below(a[1..], b[1..])))
  }

  // ---------------------------------------------------------------------------------------------
  // Text order of padded numbers
  // ---------------------------------------------------------------------------------------------

  function Power(width: nat): nat {
    if width == 0 then 1 else 10 * Power(width - 1)
  }

  lemma {:induction false} PadLength(n: nat, width: nat)
    ensures |Pad(n, width)| == width
    decreases width
  {
    if width > 0 {
      PadLength(n / 10, width - 1);
    }
  }

  lemma {:induction false} BelowSelf(a: string)
    ensures !Below(a, a)
    decreases |a|
  {
    if a != [] {
      BelowSelf(a[1..]);
    }
  }

  // Texts of equal length are compared piece by piece.
  lemma {:induction false} BelowPieces(a: string, b: string, c: string, d: string)
    requires |a| == |b|
    ensures Below(a + c, b + d) <==> Below(a, b) || (a == b && Below(c, d))
    decreases |a|
  {
    if a == [] {
      assert a + c == c && b + d == d;
    } else {
      assert (a + c)[1..] == a[1..] + c && (b + d)[1..] == b[1..] + d;
      assert (a + c)[0] == a[0] && (b + d)[0] == b[0];
      BelowPieces(a[1..], b[1..], c, d);
      assert a == [a[0]] + a[1..] && b == [b[0]] + b[1..];
    }
  }

  lemma {:induction false} BelowDigit(m: nat, n: nat)
    requires m < 10 && n < 10
    ensures Below([Digit(m)], [Digit(n)]) <==> m < n
    ensures [Digit(m)] == [Digit(n)] <==> m == n
  {
    assert [Digit(m)][1..] == [] && [Digit(n)][1..] == [];
    assert !Below([], []);
    assert [Digit(m)][0] == Digit(m) && [Digit(n)][0] == Digit(n);
  }

  /** Numbers of one width are ordered as their texts. */
  lemma {:induction false} PadOrder(m: nat, n: nat, width: nat)
    requires m < Power(width) && n < Power(width)
    ensures (Below(Pad(m, width), Pad(n, width)) <==> m < n) && (Pad(m, width) == Pad(n, width) <==> m == n)
    decreases width
  {
    if width == 0 {
      assert !Below("", "");
    } else {
      PadOrder(m / 10, n / 10, width - 1);
      PadLength(m / 10, width - 1);
      PadLength(n / 10, width - 1);
      BelowPieces(Pad(m / 10, width - 1), Pad(n / 10, width - 1), [Digit(m % 10)], [Digit(n % 10)]);
      BelowDigit(m % 10, n % 10);
      LastDigit(Pad(m / 10, width - 1), Pad(n / 10, width - 1), Digit(m % 10), Digit(n % 10));
    }
  }

  lemma {:induction false} LastDigit(a: string, b: string, c: char, d: char)
    ensures a + [c] == b + [d] <==> a == b && c == d
  {
    if a + [c] == b + [d] {
      assert (a + [c])[..|a|] == a && (b + [d])[..|b|] == b;
      assert (a + [c])[|a|] == c && (b + [d])[|b|] == d;
    }
  }

  // ---------------------------------------------------------------------------------------------
  // Text order of times
  // ---------------------------------------------------------------------------------------------

  // The fields, most significant first.
  function Fields(c: Civil): seq<nat> {
    [c.year, c.month, c.day, c.hour, c.minute, c.second, c.nanos]
  }

  predicate Earlier(a: seq<nat>, b: seq<nat>) {
    b != [] && (a == [] || a[0] < b[0] || (a[0] == b[0] && Earlier(a[1..], b[1..])))
  }

  const WIDTHS := [4, 2, 2, 2, 2, 2, 9]
  const MARKS := ["-", "-", "T", ":", ":", ".", "Z"]

  // Each field padded to its width and followed by its mark.
  function Text(fields: seq<nat>, widths: seq<nat>, marks: seq<string>): string
    requires |fields| == |widths| == |marks|
  {
    if fields == [] then "" else Pad(fields[0], widths[0]) + marks[0] + Text(fields[1..], widths[1..], marks[1..])
  }

  // The layout 2006-01-02T15:04:05.000000000Z
  function Format(c: Civil): string {
    Text(Fields(c), WIDTHS, MARKS)
  }

  predicate Fit(fields: seq<nat>, widths: seq<nat>) {
    |fields| == |widths| && forall i | 0 <= i < |fields| :: fields[i] < Power(widths[i])
  }

  lemma {:induction false} TextOrder(a: seq<nat>, b: seq<nat>, widths: seq<nat>, marks: seq<string>)
    requires Fit(a, widths) && Fit(b, widths) && |marks| == |widths|
    ensures Below(Text(a, widths, marks), Text(b, widths, marks)) <==> Earlier(a, b)
    decreases |a|
  {
    hide Pad, Power;
    if a != [] {
      var w := widths[0];
      PadOrder(a[0], b[0], w);
      PadLength(a[0], w);
      PadLength(b[0], w);
      assert Fit(a[1..], widths[1..]) && Fit(b[1..], widths[1..]);
      TextOrder(a[1..], b[1..], widths[1..], marks[1..]);
      var c, d := Text(a[1..], widths[1..], marks[1..]), Text(b[1..], widths[1..], marks[1..]);
      BelowPieces(Pad(a[0], w), Pad(b[0], w), marks[0] + c, marks[0] + d);
      BelowPieces(marks[0], marks[0], c, d);
      BelowSelf(marks[0]);
      assert Pad(a[0], w) + marks[0] + c == Pad(a[0], w) + (marks[0] + c);
      assert Pad(b[0], w) + marks[0] + d == Pad(b[0], w) + (marks[0] + d);
    }
  }

  lemma Powers()
    ensures Power(2) == 100 && Power(4) == 10_000 && Power(9) == 1_000_000_000
  {
    assert Power(3) == 1000;
    assert Power(6) == 1_000_000;
  }

  lemma ValidFits(c: Civil)
    requires Valid(c)
    ensures Fit(Fields(c), WIDTHS)
  {
    Powers();
    hide Power;
    assert DaysIn(c.year, c.month) <= 31;
  }

  // ---------------------------------------------------------------------------------------------
  // Field order is time order
  // ---------------------------------------------------------------------------------------------

  lemma {:induction false} YearsGrow(a: nat, b: nat)
    requires a < b
    ensures DaysBeforeYear(a) + (if Leap(a) then 366 else 365) <= DaysBeforeYear(b)
    decreases b
  {
    if a < b - 1 {
      YearsGrow(a, b - 1);
    }
  }

  lemma {:induction false} MonthsGrow(year: nat, a: nat, b: nat)
    requires 1 <= a < b
    ensures DaysBeforeMonth(year, a) + DaysIn(year, a) <= DaysBeforeMonth(year, b)
    decreases b
  {
    if a < b - 1 {
      MonthsGrow(year, a, b - 1);
    }
  }

  lemma YearLength(year: nat)
    ensures DaysBeforeMonth(year, 12) + DaysIn(year, 12) == if Leap(year) then 366 else 365
  {
    assert DaysBeforeMonth(year, 2) == DaysBeforeMonth(year, 1) + 31;
    assert DaysBeforeMonth(year, 3) == DaysBeforeMonth(year, 2) + DaysIn(year, 2);
    assert DaysBeforeMonth(year, 4) == DaysBeforeMonth(year, 3) + 31;
    assert DaysBeforeMonth(year, 5) == DaysBeforeMonth(year, 4) + 30;
    assert DaysBeforeMonth(year, 6) == DaysBeforeMonth(year, 5) + 31;
    assert DaysBeforeMonth(year, 7) == DaysBeforeMonth(year, 6) + 30;
    assert DaysBeforeMonth(year, 8) == DaysBeforeMonth(year, 7) + 31;
    assert DaysBeforeMonth(year, 9) == DaysBeforeMonth(year, 8) + 31;
    assert DaysBeforeMonth(year, 10) == DaysBeforeMonth(year, 9) + 30;
    assert DaysBeforeMonth(year, 11) == DaysBeforeMonth(year, 10) + 31;
    assert DaysBeforeMonth(year, 12) == DaysBeforeMonth(year, 11) + 30;
  }

  lemma {:induction false} DayInYear(c: Civil)
    requires Valid(c)
    ensures 0 <= DaysBeforeMonth(c.year, c.month) + c.day - 1 < if Leap(c.year) then 366 else 365
  {
    YearLength(c.year);
    if c.month < 12 {
      MonthsGrow(c.year, c.month, 12);
    }
  }

  predicate EarlierDay(a: Civil, b: Civil) {
    a.year < b.year || (a.year == b.year && (a.month < b.month || (a.month == b.month && a.day < b.day)))
  }

  lemma {:induction false} DaysGrow(a: Civil, b: Civil)
    requires Valid(a) && Valid(b) && EarlierDay(a, b)
    ensures DayNumber(a) < DayNumber(b)
  {
    hide DaysBeforeYear, DaysBeforeMonth, DaysIn, Leap;
    if a.year < b.year {
      YearsGrow(a.year, b.year);
      DayInYear(a);
      DayInYear(b);
    } else if a.month < b.month {
      MonthsGrow(a.year, a.month, b.month);
    }
  }

  // Nanoseconds within a day.
  function Clock(c: Civil): int {
    ((c.hour * 60 + c.minute) * 60 + c.second) * 1_000_000_000 + c.nanos
  }

  const DAY := 86_400_000_000_000

  lemma InstantSplit(c: Civil)
    requires Valid(c)
    ensures Instant(c) == DayNumber(c) * DAY + Clock(c) && 0 <= Clock(c) < DAY
  {
    hide DayNumber;
  }

  predicate EarlierClock(a: Civil, b: Civil) {
    a.hour < b.hour || (a.hour == b.hour && (a.minute < b.minute || (a.minute == b.minute
      && (a.second < b.second || (a.second == b.second && a.nanos < b.nanos)))))
  }

  lemma ClockGrows(a: Civil, b: Civil)
    requires Valid(a) && Valid(b) && EarlierClock(a, b)
    ensures Clock(a) < Clock(b)
  {
    hide DaysIn;
  }

  predicate SameDay(a: Civil, b: Civil) {
    a.year == b.year && a.month == b.month && a.day == b.day
  }

  lemma EarlierFields(a: Civil, b: Civil)
    ensures Earlier(Fields(a), Fields(b)) <==> EarlierDay(a, b) || (SameDay(a, b) && EarlierClock(a, b))
  {
    var f, g := Fields(a), Fields(b);
    assert f[6..][1..] == [] && g[6..][1..] == [] && !Earlier([], []);
    assert f[5..][1..] == f[6..] && g[5..][1..] == g[6..] && f[4..][1..] == f[5..] && g[4..][1..] == g[5..];
    assert f[3..][1..] == f[4..] && g[3..][1..] == g[4..] && f[2..][1..] == f[3..] && g[2..][1..] == g[3..];
    assert f[1..][1..] == f[2..] && g[1..][1..] == g[2..];
    assert Earlier(f[6..], g[6..]) <==> a.nanos < b.nanos;
    assert Earlier(f[5..], g[5..]) <==> a.second < b.second || (a.second == b.second && Earlier(f[6..], g[6..]));
    assert Earlier(f[4..], g[4..]) <==> a.minute < b.minute || (a.minute == b.minute && Earlier(f[5..], g[5..]));
    assert Earlier(f[3..], g[3..]) <==> a.hour < b.hour || (a.hour == b.hour && Earlier(f[4..], g[4..]));
    assert Earlier(f[2..], g[2..]) <==> a.day < b.day || (a.day == b.day && Earlier(f[3..], g[3..]));
    assert Earlier(f[1..], g[1..]) <==> a.month < b.month || (a.month == b.month && Earlier(f[2..], g[2..]));
  }

  lemma {:induction false} DayOrder(a: Civil, b: Civil)
    requires Valid(a) && Valid(b)
    ensures DayNumber(a) < DayNumber(b) <==> EarlierDay(a, b)
    ensures DayNumber(a) == DayNumber(b) <==> SameDay(a, b)
  {
    hide DayNumber;
    if EarlierDay(a, b) {
      DaysGrow(a, b);
    } else if EarlierDay(b, a) {
      DaysGrow(b, a);
    } else {
      assert DayNumber(a) == DayNumber(b) by { SameDayNumber(a, b); }
    }
  }

  lemma SameDayNumber(a: Civil, b: Civil)
    requires SameDay(a, b)
    ensures DayNumber(a) == DayNumber(b)
  {
  }

  lemma {:induction false} InstantOrder(a: Civil, b: Civil)
    requires Valid(a) && Valid(b)
    ensures Instant(a) < Instant(b) <==> EarlierDay(a, b) || (SameDay(a, b) && EarlierClock(a, b))
  {
    hide Instant, DayNumber, Clock, Valid;
    InstantSplit(a);
    InstantSplit(b);
    DayOrder(a, b);
    if SameDay(a, b) {
      ClockOrder(a, b);
    } else {
      Spread(DayNumber(a), DayNumber(b), Clock(a), Clock(b));
    }
  }

  lemma ClockOrder(a: Civil, b: Civil)
    requires Valid(a) && Valid(b)
    ensures Clock(a) < Clock(b) <==> EarlierClock(a, b)
  {
    hide Clock, Valid;
    if EarlierClock(a, b) {
      ClockGrows(a, b);
    } else if EarlierClock(b, a) {
      ClockGrows(b, a);
    } else {
      assert Clock(a) == Clock(b) by { SameClock(a, b); }
    }
  }

  lemma SameClock(a: Civil, b: Civil)
    requires a.hour == b.hour && a.minute == b.minute && a.second == b.second && a.nanos == b.nanos
    ensures Clock(a) == Clock(b)
  {
  }

  lemma Spread(m: int, n: int, x: int, y: int)
    requires m != n && 0 <= x < DAY && 0 <= y < DAY
    ensures m * DAY + x < n * DAY + y <==> m < n
  {
  }

  /** The text of an instant sorts before the text of another exactly when the instant is earlier. */
  lemma {:induction false} TextOrderIsTimeOrder(a: Civil, b: Civil)
    requires Valid(a) && Valid(b)
    ensures Below(Format(a), Format(b)) <==> Instant(a) < Instant(b)
  {
    hide Instant, Below, Text, Earlier;
    ValidFits(a);
    ValidFits(b);
    TextOrder(Fields(a), Fields(b), WIDTHS, MARKS);
    EarlierFields(a, b);
    InstantOrder(a, b);
  }

  // ---------------------------------------------------------------------------------------------
  // The trimmed layout
  // ---------------------------------------------------------------------------------------------

  /** Without the fixed width the order is wrong: a whole second sorts after its own first half. */
  lemma TrimmedOrderIsWrong()
    ensures Below("00.5Z", "00Z") && !Below("00Z", "00.5Z")
  {
    var a, b := "00.5Z", "00Z";
    assert a[1..] == "0.5Z" && b[1..] == "0Z";
    assert "0.5Z"[1..] == ".5Z" && "0Z"[1..] == "Z";
    assert Below(".5Z", "Z") && !Below("Z", ".5Z");
    assert Below("0.5Z", "0Z") && !Below("0Z", "0.5Z");
  }
}
