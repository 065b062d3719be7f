/** The service's time stamps, and why their text order is their time order. */
module Clock {
  import opened ByteStrings
  import opened JsonText
  import opened Models
  import opened Datetime
  import opened PolicyEngine

  /** A UTC `datetime`. */
  datatype Civil = Civil(year: int, month: int, day: int, hour: int, minute: int, second: int, micro: int)

  predicate IsLeap(year: int) {
    year % 4 == 0 && (year % 100 != 0 || year % 400 == 0)
  }

  function DaysIn(year: int, month: int): (n: int)
    ensures 28 <= n <= 31
  {
    if month == 2 then if IsLeap(year) then 29 else 28
    else if month == 4 || month == 6 || month == 9 || month == 11 then 30
    else 31
  }

  /** The fields of a `datetime`. */
  predicate IsCivil(t: Civil) {
    && 1 <= t.year <= 9999 && 1 <= t.month <= 12 && 1 <= t.day <= DaysIn(t.year, t.month)
    && 0 <= t.hour < 24 && 0 <= t.minute < 60 && 0 <= t.second < 60 && 0 <= t.micro < 1000000
  }

  /** The dates `strftime` writes with four-digit years. */
  predicate InRange(t: Civil) {
    1000 <= t.year && IsCivil(t)
  }

  function DaysBeforeYear(year: int): int {
    (year - 1) * 365 + (year - 1) / 4 - (year - 1) / 100 + (year - 1) / 400
  }

  function DaysBeforeMonth(year: int, month: int): int
    decreases month
  {
    if month <= 1 then 0 else DaysBeforeMonth(year, month - 1) + DaysIn(year, month - 1)
  }

  /** Days since 31 December of the year 0, in the proleptic Gregorian calendar. */
  function Ordinal(t: Civil): int {
    DaysBeforeYear(t.year) + DaysBeforeMonth(t.year, t.month) + t.day
  }

  function Seconds(t: Civil): int {
    Ordinal(t) * 86400 + t.hour * 3600 + t.minute * 60 + t.second
  }

  /** Milliseconds since the same day, rounded down. */
  function Millis(t: Civil): int {
    Seconds(t) * 1000 + t.micro / 1000
  }

  // ------------------------------------------------------------------ the text

  function Power10(w: nat): (p: nat)
    ensures p > 0
  {
    if w == 0 then 1 else 10 * Power10(w - 1)
  }

  /** `n` in exactly `w` digits. */
  function Padded(n: nat, w: nat): (s: string)
    ensures |s| == w
  {
    if w == 0 then "" else Padded(n / 10, w - 1) + [Digit(n % 10)]
  }

  /** `to_rfc3339`: the format with six-digit microseconds, its last three characters cut, and `Z`. */
  function ToRfc3339(t: Civil): string
    requires InRange(t)
  {
    var text := Padded(t.year, 4) + "-" + Padded(t.month, 2) + "-" + Padded(t.day, 2) + "T"
                + Padded(t.hour, 2) + ":" + Padded(t.minute, 2) + ":" + Padded(t.second, 2) + "."
                + Padded(t.micro, 6);
    text[..|text| - 3] + "Z"
  }

  datatype Field = Field(value: nat, width: nat, mark: char)

  /** The stamp again, as fixed-width fields each followed by its separator. */
  function Render(fields: seq<Field>): string {
    if fields == [] then "" else Padded(fields[0].value, fields[0].width) + [fields[0].mark] + Render(fields[1..])
  }

  function FieldsOf(t: Civil): seq<Field>
    requires InRange(t)
  {
    [Field(t.year, 4, '-'), Field(t.month, 2, '-'), Field(t.day, 2, 'T'), Field(t.hour, 2, ':'),
     Field(t.minute, 2, ':'), Field(t.second, 2, '.'), Field(t.micro / 1000, 3, 'Z')]
  }

  lemma CutPadded(n: nat)
    ensures Padded(n, 6)[..3] == Padded(n / 1000, 3)
  {
    assert Padded(n, 6)[..5] == Padded(n / 10, 5);
    assert Padded(n / 10, 5)[..4] == Padded(n / 10 / 10, 4);
    assert Padded(n / 10 / 10, 4)[..3] == Padded(n / 10 / 10 / 10, 3);
    assert n / 10 / 10 / 10 == n / 1000;
    assert Padded(n, 6)[..3] == Padded(n, 6)[..5][..4][..3];
  }

  lemma StampIsRendered(t: Civil)
    requires InRange(t)
    ensures ToRfc3339(t) == Render(FieldsOf(t))
  {
    hide Padded, Render, InRange;
    var f := FieldsOf(t);
    RenderTail(f, 6);
    RenderTail(f, 5);
    RenderTail(f, 4);
    RenderTail(f, 3);
    RenderTail(f, 2);
    RenderTail(f, 1);
    RenderTail(f, 0);
    RenderNone();
    assert f[7..] == [] && f[0..] == f;
    CutPadded(t.micro);
    var text := Padded(t.year, 4) + "-" + Padded(t.month, 2) + "-" + Padded(t.day, 2) + "T"
                + Padded(t.hour, 2) + ":" + Padded(t.minute, 2) + ":" + Padded(t.second, 2) + "."
                + Padded(t.micro, 6);
    assert text[..|text| - 3] == Padded(t.year, 4) + "-" + Padded(t.month, 2) + "-" + Padded(t.day, 2) + "T"
                + Padded(t.hour, 2) + ":" + Padded(t.minute, 2) + ":" + Padded(t.second, 2) + "."
                + Padded(t.micro, 6)[..3];
  }

  lemma RenderTail(f: seq<Field>, i: nat)
    requires i < |f|
    ensures Render(f[i..]) == Padded(f[i].value, f[i].width) + [f[i].mark] + Render(f[i + 1..])
  {
    assert f[i..][0] == f[i] && f[i..][1..] == f[i + 1..];
  }

  lemma RenderNone()
    ensures Render([]) == ""
  {
  }

  // ----------------------------------------------------------------- the order

  lemma {:induction false} StrLeAppend(a: string, b: string, x: string, y: string)
    requires |a| == |b|
    ensures StrLe(a + x, b + y) <==> if a == b then StrLe(x, y) else StrLe(a, b)
  {
    if a == "" {
      assert a + x == x && b + y == y;
    } else {
      assert (a + x)[1..] == a[1..] + x && (b + y)[1..] == b[1..] + y;
      StrLeAppend(a[1..], b[1..], x, y);
      assert a == [a[0]] + a[1..] && b == [b[0]] + b[1..];
    }
  }

  lemma OneChar(c: char, d: char)
    ensures StrLe([c], [d]) <==> c <= d
  {
  }

  /** Among numbers of one width, text order is numeric order. */
  lemma {:induction false} PaddedOrder(m: nat, n: nat, w: nat)
    requires m < Power10(w) && n < Power10(w)
    ensures StrLe(Padded(m, w), Padded(n, w)) <==> m <= n
    ensures Padded(m, w) == Padded(n, w) <==> m == n
  {
    hide StrLe;
    if w == 0 {
      StrLeTotal("", "");
    } else {
      PaddedOrder(m / 10, n / 10, w - 1);
      StrLeAppend(Padded(m / 10, w - 1), Padded(n / 10, w - 1), [Digit(m % 10)], [Digit(n % 10)]);
      OneChar(Digit(m % 10), Digit(n % 10));
      assert Padded(m, w)[..w - 1] == Padded(m / 10, w - 1) && Padded(n, w)[..w - 1] == Padded(n / 10, w - 1);
      assert Padded(m, w)[w - 1] == Digit(m % 10) && Padded(n, w)[w - 1] == Digit(n % 10);
    }
  }

  predicate Alike(x: seq<Field>, y: seq<Field>) {
    && |x| == |y|
    && forall i :: 0 <= i < |x| ==>
         && x[i].width == y[i].width && x[i].mark == y[i].mark
         && x[i].value < Power10(x[i].width) && y[i].value < Power10(y[i].width)
  }

  /** The first fields that differ decide. */
  predicate LexLe(x: seq<Field>, y: seq<Field>)
    requires |x| == |y|
  {
    x == [] || (if x[0].value == y[0].value then LexLe(x[1..], y[1..]) else x[0].value < y[0].value)
  }

  lemma {:induction false} RenderOrder(x: seq<Field>, y: seq<Field>)
    requires Alike(x, y)
    ensures StrLe(Render(x), Render(y)) <==> LexLe(x, y)
  {
    hide StrLe, Padded, Power10;
    if x == [] {
      StrLeTotal("", "");
    } else {
      var f, g := x[0], y[0];
      assert Alike(x[1..], y[1..]);
      RenderOrder(x[1..], y[1..]);
      PaddedOrder(f.value, g.value, f.width);
      assert Render(x) == Padded(f.value, f.width) + ([f.mark] + Render(x[1..]));
      assert Render(y) == Padded(g.value, g.width) + ([g.mark] + Render(y[1..]));
      StrLeAppend(Padded(f.value, f.width), Padded(g.value, g.width), [f.mark] + Render(x[1..]), [g.mark] + Render(y[1..]));
      StrLeAppend([f.mark], [g.mark], Render(x[1..]), Render(y[1..]));
    }
  }

  lemma YearLength(year: int)
    ensures DaysBeforeYear(year + 1) == DaysBeforeYear(year) + DaysBeforeMonth(year, 12) + DaysIn(year, 12)
  {
    assert year / 4 == (year - 1) / 4 + if year % 4 == 0 then 1 else 0;
    assert year / 100 == (year - 1) / 100 + if year % 100 == 0 then 1 else 0;
    assert year / 400 == (year - 1) / 400 + if year % 400 == 0 then 1 else 0;
    MonthsBefore(year);
  }

  lemma MonthsBefore(year: int)
    ensures DaysBeforeMonth(year, 12) == 334 + if IsLeap(year) then 1 else 0
  {
    assert DaysBeforeMonth(year, 4) == 90 + if IsLeap(year) then 1 else 0;
    assert DaysBeforeMonth(year, 8) == DaysBeforeMonth(year, 4) + 122;
    assert DaysBeforeMonth(year, 12) == DaysBeforeMonth(year, 8) + 122;
  }

  lemma {:induction false} YearsGrow(y: int, z: int)
    requires y <= z
    ensures DaysBeforeYear(y) <= DaysBeforeYear(z)
    decreases z - y
  {
    if y < z {
      YearsGrow(y, z - 1);
      YearLength(z - 1);
      MonthsBefore(z - 1);
    }
  }

  lemma {:induction false} MonthsGrow(year: int, m: int, n: int)
    requires 1 <= m <= n
    ensures DaysBeforeMonth(year, m) <= DaysBeforeMonth(year, n)
    decreases n - m
  {
    if m < n {
      MonthsGrow(year, m, n - 1);
    }
  }

  /** An earlier date has a smaller ordinal. */
  lemma OrdinalOrder(s: Civil, t: Civil)
    requires InRange(s) && InRange(t)
    requires s.year < t.year || (s.year == t.year && (s.month < t.month || (s.month == t.month && s.day < t.day)))
    ensures Ordinal(s) < Ordinal(t)
  {
    hide DaysBeforeYear, DaysBeforeMonth, DaysIn;
    if s.year < t.year {
      YearsGrow(s.year + 1, t.year);
      YearLength(s.year);
      DayFits(s);
      MonthsGrow(t.year, 1, t.month);
      JanuaryFirst(t.year);
    } else if s.month < t.month {
      MonthsGrow(s.year, s.month + 1, t.month);
      NextMonth(s.year, s.month);
    }
  }

  lemma JanuaryFirst(year: int)
    ensures DaysBeforeMonth(year, 1) == 0
  {
  }

  lemma NextMonth(year: int, month: int)
    requires month >= 1
    ensures DaysBeforeMonth(year, month + 1) == DaysBeforeMonth(year, month) + DaysIn(year, month)
  {
  }

  lemma DayFits(s: Civil)
    requires IsCivil(s)
    ensures DaysBeforeMonth(s.year, s.month) + s.day <= DaysBeforeMonth(s.year, 12) + DaysIn(s.year, 12)
  {
    hide DaysBeforeMonth, DaysIn;
    if s.month < 12 {
      MonthsGrow(s.year, s.month + 1, 12);
      NextMonth(s.year, s.month);
      assert DaysIn(s.year, 12) >= 28;
    }
  }

  lemma FieldsOrder(s: Civil, t: Civil)
    requires InRange(s) && InRange(t)
    ensures LexLe(FieldsOf(s), FieldsOf(t)) <==> Millis(s) <= Millis(t)
  {
    hide Ordinal, InRange;
    LexUnfolds(s, t);
    DateOrder(s, t);
    ClockRange(s);
    ClockRange(t);
    if s.year == t.year && s.month == t.month && s.day == t.day {
      assert Ordinal(s) == Ordinal(t) by {
        SameDate(s, t);
      }
    }
  }

  lemma ClockRange(t: Civil)
    requires InRange(t)
    ensures 0 <= t.hour < 24 && 0 <= t.minute < 60 && 0 <= t.second < 60 && 0 <= t.micro / 1000 < 1000
  {
    hide DaysIn;
  }

  lemma SameDate(s: Civil, t: Civil)
    requires s.year == t.year && s.month == t.month && s.day == t.day
    ensures Ordinal(s) == Ordinal(t)
  {
  }

  predicate DateBefore(s: Civil, t: Civil) {
    s.year < t.year || (s.year == t.year && (s.month < t.month || (s.month == t.month && s.day < t.day)))
  }

  lemma DateOrder(s: Civil, t: Civil)
    requires InRange(s) && InRange(t)
    ensures DateBefore(s, t) ==> Ordinal(s) < Ordinal(t)
    ensures DateBefore(t, s) ==> Ordinal(t) < Ordinal(s)
  {
    hide InRange, Ordinal;
    if DateBefore(s, t) {
      OrdinalOrder(s, t);
    }
    if DateBefore(t, s) {
      OrdinalOrder(t, s);
    }
  }

  function ClockKey(t: Civil): int {
    t.hour * 3600000 + t.minute * 60000 + t.second * 1000 + t.micro / 1000
  }

  lemma LexUnfolds(s: Civil, t: Civil)
    requires InRange(s) && InRange(t)
    ensures LexLe(FieldsOf(s), FieldsOf(t))
       <==> DateBefore(s, t) || (!DateBefore(t, s) && ClockKey(s) <= ClockKey(t))
  {
    hide InRange, LexLe;
    ClockRange(s);
    ClockRange(t);
    var x, y := FieldsOf(s), FieldsOf(t);
    LexStep(x, y, 0);
    LexStep(x, y, 1);
    LexStep(x, y, 2);
    LexStep(x, y, 3);
    LexStep(x, y, 4);
    LexStep(x, y, 5);
    LexStep(x, y, 6);
    LexStep(x, y, 7);
    assert x[0..] == x && y[0..] == y;
  }

  lemma LexStep(x: seq<Field>, y: seq<Field>, i: nat)
    requires |x| == |y| && i <= |x|
    ensures i == |x| ==> LexLe(x[i..], y[i..])
    ensures i < |x| ==>
              (LexLe(x[i..], y[i..])
               <==> if x[i].value == y[i].value then LexLe(x[i + 1..], y[i + 1..]) else x[i].value < y[i].value)
  {
    if i < |x| {
      assert x[i..][1..] == x[i + 1..] && y[i..][1..] == y[i + 1..];
    }
  }

  /** For stamps the service writes, string order is time order to the millisecond. */
  lemma TextOrderIsTimeOrder(s: Civil, t: Civil)
    requires InRange(s) && InRange(t)
    ensures StrLe(ToRfc3339(s), ToRfc3339(t)) <==> Millis(s) <= Millis(t)
  {
    hide Render, LexLe, StrLe, Millis, ToRfc3339;
    StampIsRendered(s);
    StampIsRendered(t);
    FieldsFit(s, t);
    RenderOrder(FieldsOf(s), FieldsOf(t));
    FieldsOrder(s, t);
  }

  lemma FieldsFit(s: Civil, t: Civil)
    requires InRange(s) && InRange(t)
    ensures Alike(FieldsOf(s), FieldsOf(t))
  {
    assert Power10(2) == 100 && Power10(3) == 1000 && Power10(4) == 10000;
  }

  // ------------------------------------------------------------------- reading

  /** Microseconds from midnight of 1 January of the year 1. */
  function Wall(t: Civil): int {
    (Seconds(t) - 86400) * 1000000 + t.micro
  }

  lemma WallFits(t: Civil)
    requires IsCivil(t)
    ensures 0 <= Wall(t) < WALL_END
  {
    hide DaysBeforeYear, DaysBeforeMonth, DaysIn;
    OrdinalFits(t);
    ClockFits(t);
  }

  lemma ClockFits(t: Civil)
    requires IsCivil(t)
    ensures 0 <= t.hour * 3600 + t.minute * 60 + t.second < 86400 && 0 <= t.micro < 1000000
  {
    hide DaysIn;
  }

  lemma OrdinalFits(t: Civil)
    requires IsCivil(t)
    ensures 1 <= Ordinal(t) <= 3652059
  {
    hide DaysBeforeYear, DaysBeforeMonth, DaysIn;
    YearEnds();
    YearsGrow(1, t.year);
    YearsGrow(t.year + 1, 10000);
    YearLength(t.year);
    DayFits(t);
    MonthsGrow(t.year, 1, t.month);
    JanuaryFirst(t.year);
  }

  lemma YearEnds()
    ensures DaysBeforeYear(1) == 0 && DaysBeforeYear(10000) == 3652059
  {
  }

  function Number(s: string): Option<nat> {
    if forall i :: 0 <= i < |s| ==> IsDigit(s[i]) then Some(DecimalValue(s)) else None
  }

  /** `width` digits and then `mark`: the number, and the text after. */
  function ReadField(s: string, width: nat, mark: char): Option<(nat, string)> {
    if |s| <= width || s[width] != mark then None
    else
      var n :- Number(s[..width]);
      Some((n, s[width + 1..]))
  }

  function DateTimeOf(t: Civil, offset: Option<int>): Option<DateTime> {
    if IsCivil(t) then
      WallFits(t);
      Some(Reading(Wall(t), offset))
    else None
  }

  /** What `fromisoformat` makes of three shapes: a date alone, which is naive, and a date and time in
      UTC to the second or to the millisecond. */
  function ReadTime(s: string): Option<DateTime> {
    var (year, s1) :- ReadField(s, 4, '-');
    var (month, s2) :- ReadField(s1, 2, '-');
    if |s2| == 2 then
      var day :- Number(s2);
      DateTimeOf(Civil(year, month, day, 0, 0, 0, 0), None)
    else
      var (day, s3) :- ReadField(s2, 2, 'T');
      var (hour, s4) :- ReadField(s3, 2, ':');
      var (minute, s5) :- ReadField(s4, 2, ':');
      if |s5| == 3 then
        var (second, s6) :- ReadField(s5, 2, 'Z');
        DateTimeOf(Civil(year, month, day, hour, minute, second, 0), Some(0))
      else
        var (second, s6) :- ReadField(s5, 2, '.');
        var (milli, s7) :- ReadField(s6, 3, 'Z');
        if s7 != "" then None
        else DateTimeOf(Civil(year, month, day, hour, minute, second, milli * 1000), Some(0))
  }

  lemma {:induction false} PaddedReads(n: nat, w: nat)
    requires n < Power10(w)
    ensures Number(Padded(n, w)) == Some(n)
  {
    if w > 0 {
      PaddedReads(n / 10, w - 1);
      var s := Padded(n, w);
      assert s[..w - 1] == Padded(n / 10, w - 1) && s[w - 1] == Digit(n % 10);
      assert forall i :: 0 <= i < w - 1 ==> s[i] == Padded(n / 10, w - 1)[i];
    }
  }

  lemma FieldReads(n: nat, w: nat, mark: char, rest: string)
    requires n < Power10(w)
    ensures ReadField(Padded(n, w) + [mark] + rest, w, mark) == Some((n, rest))
  {
    hide Number, Padded;
    PaddedReads(n, w);
    var s := Padded(n, w) + [mark] + rest;
    assert s[..w] == Padded(n, w) && s[w] == mark && s[w + 1..] == rest;
  }

  lemma FieldAt(f: seq<Field>, i: nat)
    requires i < |f| && f[i].value < Power10(f[i].width)
    ensures ReadField(Render(f[i..]), f[i].width, f[i].mark) == Some((f[i].value, Render(f[i + 1..])))
  {
    hide Padded, Power10, ReadField, Render;
    RenderTail(f, i);
    FieldReads(f[i].value, f[i].width, f[i].mark, Render(f[i + 1..]));
  }

  /** Which of the three shapes a stamp has can be told by how much text is left. */
  lemma SecondsLeft(t: Civil)
    requires InRange(t)
    ensures |Render(FieldsOf(t)[2..])| == 16 && |Render(FieldsOf(t)[5..])| == 7
  {
    hide Padded, Render, IsCivil;
    var f := FieldsOf(t);
    RenderTail(f, 2);
    RenderTail(f, 3);
    RenderTail(f, 4);
    RenderTail(f, 5);
    RenderTail(f, 6);
    RenderNone();
    assert f[7..] == [];
  }

  /** The millisecond a stamp stands for. */
  function Stamped(t: Civil): (r: DateTime)
    requires InRange(t)
    ensures Aware(r) && Instant(r) == (Millis(t) - 86400000) * 1000
  {
    WallFits(t.(micro := t.micro / 1000 * 1000));
    Reading(Wall(t.(micro := t.micro / 1000 * 1000)), Some(0))
  }

  /** The reader reads back what the service's clock writes, to the millisecond. */
  lemma ReadsBack(t: Civil)
    requires InRange(t)
    ensures ReadTime(ToRfc3339(t)) == Some(Stamped(t))
  {
    hide Padded, Render, ReadField, IsCivil, Wall, ToRfc3339;
    var f := FieldsOf(t);
    FieldsFit(t, t);
    StampIsRendered(t);
    assert f[0..] == f && f[7..] == [];
    FieldAt(f, 0);
    FieldAt(f, 1);
    FieldAt(f, 2);
    FieldAt(f, 3);
    FieldAt(f, 4);
    FieldAt(f, 5);
    FieldAt(f, 6);
    SecondsLeft(t);
    RenderNone();
    MillisAreCivil(t);
  }

  lemma MillisAreCivil(t: Civil)
    requires InRange(t)
    ensures IsCivil(t.(micro := t.micro / 1000 * 1000))
  {
    hide DaysIn;
  }

  // --------------------------------------------- the latest decision is the latest

  /** Reading a stamp back gives the millisecond it was written in. */
  ghost predicate ReadsStamps(parse: Parse) {
    forall t :: InRange(t) ==> parse(ToRfc3339(t)) == Some(Stamped(t))
  }

  /** Some reader does. */
  lemma ReaderReadsStamps()
    ensures ReadsStamps(ReadTime)
  {
    hide InRange, ToRfc3339, ReadTime, Stamped;
    forall t | InRange(t)
      ensures ReadTime(ToRfc3339(t)) == Some(Stamped(t))
    {
      ReadsBack(t);
    }
  }

  ghost predicate IsStamped(d: Decision) {
    exists t :: InRange(t) && d.decidedAt == ToRfc3339(t)
  }

  /** Among decisions stamped by the service, the one that speaks for an approver is the
      chronologically latest that counts, and of equally late ones the last recorded. */
  lemma VoiceIsChronologicallyLatest(c: Case, ds: seq<Decision>, i: nat, j: nat)
    requires ReadsStamps(c.parse) && forall d :: d in ds ==> IsStamped(d)
    requires i < |ds| && j < |ds| && i != j && ds[i].approverId == ds[j].approverId
    requires Speaks(c, ds, i) && Counts(c, ds[j])
    ensures Decided(c, ds[j]).Some? && Decided(c, ds[i]).Some?
    ensures Decided(c, ds[j]).value < Decided(c, ds[i]).value
         || (Decided(c, ds[j]).value == Decided(c, ds[i]).value && j < i)
  {
    hide InRange, ToRfc3339, Millis, StrLe, Admissible, Stamped;
    assert Superseded(ds, j, i);
    assert ds[i] in ds && ds[j] in ds;
    var s :| InRange(s) && ds[i].decidedAt == ToRfc3339(s);
    var t :| InRange(t) && ds[j].decidedAt == ToRfc3339(t);
    TextOrderIsTimeOrder(t, s);
    TextOrderIsTimeOrder(s, t);
    assert c.parse(ToRfc3339(s)) == Some(Stamped(s)) && c.parse(ToRfc3339(t)) == Some(Stamped(t));
    if Millis(s) == Millis(t) {
      StrLeAntisymmetric(ds[i].decidedAt, ds[j].decidedAt);
    }
  }
}
