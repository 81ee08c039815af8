/**
 * Schedule dates: `oschedule.date`, which reads a `yymmddHHMM` string in
 * two-character slices and clamps some fields, and `dt.sched`, which
 * renders a date back as ten digits. The `datetime` constructor that
 * `date` ends with rejects days past the end of the month and negative
 * hours or minutes, and `int` rejects a slice that is not a number; both
 * raise in the source and are errors here.
 */
module Dates {
  import opened Wrappers

  datatype Date = Date(year: int, month: int, day: int, hour: int, minute: int)

  datatype DateError = NotANumber | NoSuchDate

  predicate Leap(y: int)
  {
    y % 4 == 0 && (y % 100 != 0 || y % 400 == 0)
  }

  function DaysInMonth(y: int, m: int): (n: int)
    requires 1 <= m <= 12
    ensures 28 <= n <= 31
  {
    if m == 2 then (if Leap(y) then 29 else 28)
    else if m == 4 || m == 6 || m == 9 || m == 11 then 30
    else 31
  }

  /** What a `datetime` object (with zero seconds) can hold. */
  predicate Valid(d: Date)
  {
    1 <= d.year <= 9999 && 1 <= d.month <= 12 && 1 <= d.day <= DaysInMonth(d.year, d.month)
    && 0 <= d.hour <= 23 && 0 <= d.minute <= 59
  }

  /** A date that exists on the calendar, which is all `date` ever returns. */
  type CalendarDate = d: Date | Valid(d) witness Date(2000, 1, 1, 0, 0)

  /** Python's `s[i:j]` for `0 <= i <= j`: bounds past the end are cut back. */
  function Slice(s: string, i: nat, j: nat): (t: string)
    requires i <= j
    ensures |t| <= j - i
  {
    if i >= |s| then [] else s[i..if j <= |s| then j else |s|]
  }

  predicate IsDigit(c: char)
  {
    '0' <= c <= '9'
  }

  predicate AllDigits(s: string)
  {
    forall i :: 0 <= i < |s| ==> IsDigit(s[i])
  }

  /** The decimal value of a digit string. */
  function DecimalValue(s: string): (n: nat)
    requires AllDigits(s)
    decreases |s|
  {
    if s == [] then 0 else DecimalValue(s[..|s| - 1]) * 10 + (s[|s| - 1] as int - '0' as int)
  }

  /** The ASCII characters `str.strip` removes. */
  predicate IsSpace(c: char)
  {
    c == ' ' || c == '\t' || c == '\n' || c == '\r' || c == '\U{000B}' || c == '\U{000C}'
    || c == '\U{001C}' || c == '\U{001D}' || c == '\U{001E}' || c == '\U{001F}'
  }

  function Strip(s: string): (t: string)
    ensures |t| <= |s|
    decreases |s|
  {
    if s == [] then []
    else if IsSpace(s[0]) then Strip(s[1..])
    else if IsSpace(s[|s| - 1]) then Strip(s[..|s| - 1])
    else s
  }

  /** `int(t)` on the short strings a date slice can be, restricted to
      ASCII: surrounding ASCII white space, an optional sign and at least
      one ASCII digit `0`-`9`. Other decimal digits and white space that
      Python's `int` also accepts are read as no number here. */
  function IntOf(t: string): (r: Option<int>)
    ensures AllDigits(t) && t != [] ==> r == Some(DecimalValue(t))
  {
    var u := Strip(t);
    if u != [] && (u[0] == '+' || u[0] == '-') then
      (if u[1..] != [] && AllDigits(u[1..]) then
         Some(if u[0] == '-' then -(DecimalValue(u[1..]) as int) else DecimalValue(u[1..]))
       else None)
    else if u != [] && AllDigits(u) then Some(DecimalValue(u))
    else None
  }

  /** One two-character field: the default when the slice is empty. */
  function Field(s: string, i: nat, default: int): (r: Result<int, DateError>)
    ensures Slice(s, i, i + 2) == [] ==> r == Ok(default)
  {
    var t := Slice(s, i, i + 2);
    if t == [] then Ok(default)
    else match IntOf(t)
      case None => Err(NotANumber)
      case Some(n) => Ok(n)
  }

  function Clamp(n: int, lo: int, hi: int): (c: int)
    requires lo <= hi
    ensures lo <= c <= hi
    ensures lo <= n <= hi ==> c == n
  {
    if n > hi then hi else if n < lo then lo else n
  }

  /** The `datetime` the fields make, after clamping month and day and
      capping hour and minute: an error when the calendar has no such date. */
  function Build(yy: int, mm: int, dd: int, hh: int, mi: int): (r: Result<Option<Date>, DateError>)
    requires -9 <= yy <= 99
    ensures r.Ok? ==> r.value.Some? && Valid(r.value.value) && 1991 <= r.value.value.year <= 2099
  {
    var d := Date(yy + 2000, Clamp(mm, 1, 12), Clamp(dd, 1, 31),
                  if hh > 23 then 23 else hh, if mi > 59 then 59 else mi);
    if Valid(d) then Ok(Some(d)) else Err(NoSuchDate)
  }

  /** `oschedule.date` on a string: `None` for the empty string, otherwise a
      date whose year is the first slice plus 2000, with month and day
      clamped and hour and minute capped from above only. */
  function ParseDate(s: string): (r: Result<Option<Date>, DateError>)
    ensures s == [] <==> r == Ok(None)
    ensures r.Ok? && r.value.Some? ==> Valid(r.value.value) && 1991 <= r.value.value.year <= 2099
  {
    if s == [] then Ok(None)
    else match Field(s, 0, 0)
      case Err(e) => Err(e)
      case Ok(yy) => match Field(s, 2, 1)
        case Err(e) => Err(e)
        case Ok(mm) => match Field(s, 4, 1)
          case Err(e) => Err(e)
          case Ok(dd) => match Field(s, 6, 0)
            case Err(e) => Err(e)
            case Ok(hh) => match Field(s, 8, 0)
              case Err(e) => Err(e)
              case Ok(mi) =>
                FieldRange(s, 0, 0);
                Build(yy, mm, dd, hh, mi)
  }

  lemma {:induction false} DecimalBound(s: string)
    requires AllDigits(s)
    ensures |s| <= 2 ==> DecimalValue(s) <= 99
    ensures |s| <= 1 ==> DecimalValue(s) <= 9
    decreases |s|
  {
    if s != [] {
      DecimalBound(s[..|s| - 1]);
    }
  }

  /** A slice of at most two characters reads as a number between -9 and 99. */
  lemma FieldRange(s: string, i: nat, default: int)
    requires -9 <= default <= 99
    requires Field(s, i, default).Ok?
    ensures -9 <= Field(s, i, default).value <= 99
  {
    var t := Slice(s, i, i + 2);
    if t != [] {
      var u := Strip(t);
      if u[0] == '+' || u[0] == '-' {
        DecimalBound(u[1..]);
      } else {
        DecimalBound(u);
      }
    }
  }

  /** Two decimal digits, as `%m`, `%d`, `%H`, `%M` and `%y` print them. */
  function Dec2(n: nat): (s: string)
    requires n < 100
    ensures |s| == 2 && AllDigits(s) && DecimalValue(s) == n
  {
    var s := [('0' as int + n / 10) as char, ('0' as int + n % 10) as char];
    assert s[..1] == [s[0]] && s[..1][..0] == [];
    assert DecimalValue(s[..1]) == n / 10;
    s
  }

  /** `dt.sched`: `strftime("%y%m%d%H%M")`. */
  function Render(d: Date): (s: string)
    requires Valid(d)
    ensures |s| == 10
  {
    Dec2(d.year % 100) + Dec2(d.month) + Dec2(d.day) + Dec2(d.hour) + Dec2(d.minute)
  }

  /** A rendered date is exactly ten digits. */
  lemma RenderShape(d: Date)
    requires Valid(d)
    ensures |Render(d)| == 10 && AllDigits(Render(d))
  {
  }

  /** Where the two-character slices of five two-character fields are. */
  lemma FiveSlices(a: string, b: string, c: string, d: string, e: string)
    requires |a| == |b| == |c| == |d| == |e| == 2
    ensures var s := a + b + c + d + e;
      Slice(s, 0, 2) == a && Slice(s, 2, 4) == b && Slice(s, 4, 6) == c
      && Slice(s, 6, 8) == d && Slice(s, 8, 10) == e
  {
  }

  /** The five fields of five two-digit numbers read back as those numbers. */
  lemma FiveFields(a: nat, b: nat, c: nat, d: nat, e: nat)
    requires a < 100 && b < 100 && c < 100 && d < 100 && e < 100
    ensures var s := Dec2(a) + Dec2(b) + Dec2(c) + Dec2(d) + Dec2(e);
      Field(s, 0, 0) == Ok(a) && Field(s, 2, 1) == Ok(b) && Field(s, 4, 1) == Ok(c)
      && Field(s, 6, 0) == Ok(d) && Field(s, 8, 0) == Ok(e)
  {
    var s := Dec2(a) + Dec2(b) + Dec2(c) + Dec2(d) + Dec2(e);
    FiveSlices(Dec2(a), Dec2(b), Dec2(c), Dec2(d), Dec2(e));
    FieldOfDigits(s, 0, 0, a);
    FieldOfDigits(s, 2, 1, b);
    FieldOfDigits(s, 4, 1, c);
    FieldOfDigits(s, 6, 0, d);
    FieldOfDigits(s, 8, 0, e);
  }

  /** Reading ten digits builds the date of their five fields. */
  lemma ParseFive(a: nat, b: nat, c: nat, d: nat, e: nat)
    requires a < 100 && b < 100 && c < 100 && d < 100 && e < 100
    ensures ParseDate(Dec2(a) + Dec2(b) + Dec2(c) + Dec2(d) + Dec2(e)) == Build(a, b, c, d, e)
  {
    FiveFields(a, b, c, d, e);
    ParseOfFields(Dec2(a) + Dec2(b) + Dec2(c) + Dec2(d) + Dec2(e), a, b, c, d, e);
  }

  /** Rendering a date of this century and reading it back gives the date. */
  lemma ParseRender(d: Date)
    requires Valid(d) && 2000 <= d.year <= 2099
    ensures ParseDate(Render(d)) == Ok(Some(d))
  {
    var yy := d.year % 100;
    CenturyYear(d.year);
    ParseFive(yy, d.month, d.day, d.hour, d.minute);
    BuildValid(d, yy);
  }

  /** A valid date's own fields build it back: nothing is clamped or capped. */
  lemma BuildValid(d: Date, yy: int)
    requires Valid(d) && -9 <= yy <= 99 && d.year == yy + 2000
    ensures Build(yy, d.month, d.day, d.hour, d.minute) == Ok(Some(d))
  {
    assert Date(yy + 2000, Clamp(d.month, 1, 12), Clamp(d.day, 1, 31), d.hour, d.minute) == d;
  }

  /** The two-digit year of this century gives the year back. */
  lemma CenturyYear(y: int)
    requires 2000 <= y <= 2099
    ensures y % 100 + 2000 == y
  {
    assert y == 20 * 100 + (y - 2000);
  }

  /** Reading normalises: a date read from any string reads back unchanged
      from its rendering, when it falls in this century. */
  lemma ParseNormalises(s: string)
    requires ParseDate(s).Ok? && ParseDate(s).value.Some?
    requires ParseDate(s).value.value.year >= 2000
    ensures ParseDate(Render(ParseDate(s).value.value)) == ParseDate(s)
  {
    ParseRender(ParseDate(s).value.value);
  }

  /** The defaults of `oschedule()`: from 2000-01-01 00:00 to 2099-01-01 00:00. */
  lemma DefaultRange()
    ensures ParseDate("00") == Ok(Some(Date(2000, 1, 1, 0, 0)))
    ensures ParseDate("99") == Ok(Some(Date(2099, 1, 1, 0, 0)))
  {
    assert Slice("00", 0, 2) == "00" == Dec2(0) && Slice("99", 0, 2) == "99" == Dec2(99);
  }

  lemma FieldOfDigits(s: string, i: nat, default: int, n: nat)
    requires n < 100 && Slice(s, i, i + 2) == Dec2(n)
    ensures Field(s, i, default) == Ok(n)
  {
  }

  /** `ParseDate` once each field has been read. */
  lemma ParseOfFields(s: string, yy: int, mm: int, dd: int, hh: int, mi: int)
    requires s != [] && Field(s, 0, 0) == Ok(yy) && Field(s, 2, 1) == Ok(mm) && Field(s, 4, 1) == Ok(dd)
    requires Field(s, 6, 0) == Ok(hh) && Field(s, 8, 0) == Ok(mi)
    requires -9 <= yy <= 99
    ensures ParseDate(s) == Build(yy, mm, dd, hh, mi)
  {
  }

  /** Month and day are clamped, minute is capped. */
  lemma ParseClamps()
    ensures ParseDate("2513450799") == Ok(Some(Date(2025, 12, 31, 7, 59)))
  {
    assert "2513450799" == Dec2(25) + Dec2(13) + Dec2(45) + Dec2(7) + Dec2(99);
    ParseFive(25, 13, 45, 7, 99);
  }

  /** Clamping stops at 31: a day the month does not have is an error. */
  lemma ParseNoSuchDay()
    ensures ParseDate("2502300000") == Err(NoSuchDate)
  {
    assert "2502300000" == Dec2(25) + Dec2(2) + Dec2(30) + Dec2(0) + Dec2(0);
    ParseFive(25, 2, 30, 0, 0);
  }

  /** A slice that is not a number is an error. */
  lemma ParseNotANumber()
    ensures ParseDate("25x1") == Err(NotANumber)
  {
    var s := "25x1";
    assert Slice(s, 0, 2) == Dec2(25) && Slice(s, 2, 4) == "x1";
    FieldOfDigits(s, 0, 0, 25);
    assert Strip("x1") == "x1";
  }
}
