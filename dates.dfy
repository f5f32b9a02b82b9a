/** Calendar dates as `datetime.strptime(value, "%Y-%m-%d")` reads them and
    `strftime("%Y-%m-%d")` writes them: the extended calendar-date form of
    ISO 8601 (section 5.2.1.1, `YYYY-MM-DD`), read leniently. */
module Dates {
  import opened Wrappers
  import opened Text
  import opened Values

  datatype Date = Date(year: int, month: int, day: int)

  predicate IsLeapYear(y: int) {
    y % 4 == 0 && (y % 100 != 0 || y % 400 == 0)
  }

  function DaysInMonth(year: int, month: int): (n: int)
    requires 1 <= month <= 12
    ensures 28 <= n <= 31
  {
    if month == 2 then (if IsLeapYear(year) then 29 else 28)
    else if month == 4 || month == 6 || month == 9 || month == 11 then 30
    else 31
  }

  /** A date of the proleptic Gregorian calendar that Python's `datetime`
      can hold (years 1 to 9999). */
  predicate IsRealDate(d: Date) {
    1 <= d.year <= 9999 && 1 <= d.month <= 12 && 1 <= d.day <= DaysInMonth(d.year, d.month)
  }

  /** What one alternative of a directive's regular expression matched: the
      number `int()` reads from the matched text, and the text's width. */
  datatype Group = Group(value: int, width: nat)

  predicate CharIn(s: string, i: int, lo: char, hi: char) {
    0 <= i < |s| && lo <= s[i] <= hi
  }

  function DigitOf(c: char): int {
    (c as int) - ('0' as int)
  }

  /** The alternatives of `%m`, `1[0-2]|0[1-9]|[1-9]`, that match at `i`, in
      the order the regular expression tries them. */
  function MonthGroups(s: string, i: nat): (gs: seq<Group>)
    ensures forall g :: g in gs ==> 1 <= g.value <= 12 && 1 <= g.width <= 2 && i + g.width <= |s|
  {
    (if CharIn(s, i, '1', '1') && CharIn(s, i + 1, '0', '2') then [Group(10 + DigitOf(s[i + 1]), 2)] else [])
    + (if CharIn(s, i, '0', '0') && CharIn(s, i + 1, '1', '9') then [Group(DigitOf(s[i + 1]), 2)] else [])
    + (if CharIn(s, i, '1', '9') then [Group(DigitOf(s[i]), 1)] else [])
  }

  /** The alternatives of `%d`, `3[01]|[12]\d|0[1-9]|[1-9]| [1-9]`, that match
      at `i`, in the order the regular expression tries them. */
  function DayGroups(s: string, i: nat): (gs: seq<Group>)
    ensures forall g :: g in gs ==> 1 <= g.value <= 31 && 1 <= g.width <= 2 && i + g.width <= |s|
  {
    (if CharIn(s, i, '3', '3') && CharIn(s, i + 1, '0', '1') then [Group(30 + DigitOf(s[i + 1]), 2)] else [])
    + (if CharIn(s, i, '1', '2') && CharIn(s, i + 1, '0', '9') then [Group(10 * DigitOf(s[i]) + DigitOf(s[i + 1]), 2)] else [])
    + (if CharIn(s, i, '0', '0') && CharIn(s, i + 1, '1', '9') then [Group(DigitOf(s[i + 1]), 2)] else [])
    + (if CharIn(s, i, '1', '9') then [Group(DigitOf(s[i]), 1)] else [])
    + (if CharIn(s, i, ' ', ' ') && CharIn(s, i + 1, '1', '9') then [Group(DigitOf(s[i + 1]), 2)] else [])
  }

  /** Backtracking over the month alternatives: the first one after which `-`
      and some day alternative follow. Its result is (month, day, end of match). */
  function MatchMonthDay(s: string, months: seq<Group>): (r: Option<(int, int, nat)>)
    requires forall g :: g in months ==> 1 <= g.value <= 12
    ensures r.Some? ==> 1 <= r.value.0 <= 12 && 1 <= r.value.1 <= 31 && r.value.2 <= |s|
  {
    if months == [] then None
    else
      var m := months[0];
      var dash := 5 + m.width;
      if dash < |s| && s[dash] == '-' && DayGroups(s, dash + 1) != [] then
        var d := DayGroups(s, dash + 1)[0];
        assert d in DayGroups(s, dash + 1);
        Some((m.value, d.value, dash + 1 + d.width))
      else MatchMonthDay(s, months[1..])
  }

  /** `re.match` of the pattern `(\d\d\d\d)-(%m)-(%d)` at the start of `s`:
      the date it reads and where the match ends. */
  function MatchPattern(s: string): (r: Option<(Date, nat)>)
    ensures r.Some? ==> r.value.1 <= |s| && 1 <= r.value.0.month <= 12 && 1 <= r.value.0.day <= 31
    ensures r.Some? ==> 0 <= r.value.0.year <= 9999
  {
    if |s| >= 5 && AllDigits(s[..4]) && s[4] == '-' then
      var y := DigitsValue(s[..4]);
      assert y < 10000 by { DigitsBound(s[..4]); }
      match MatchMonthDay(s, MonthGroups(s, 5))
      case Some((m, d, end)) => Some((Date(y, m, d), end))
      case None => None
    else None
  }

  lemma {:induction false} DigitsBound(s: string)
    requires AllDigits(s)
    ensures DigitsValue(s) < Pow10(|s|)
  {
    if s != [] {
      DigitsBound(s[..|s| - 1]);
    }
  }

  /** `datetime.strptime(s, "%Y-%m-%d")`: the pattern must match, leave no
      text unconsumed, and name a real date. */
  function Strptime(s: string): (r: Result<Date, PyError>)
    ensures r.Ok? ==> IsRealDate(r.value)
  {
    match MatchPattern(s)
    case None => Err(ValueError("time data does not match format '%Y-%m-%d'"))
    case Some((d, end)) =>
      if end != |s| then Err(ValueError("unconverted data remains"))
      else if !IsRealDate(d) then Err(ValueError("day is out of range for month"))
      else Ok(d)
  }

  /** `d.strftime("%Y-%m-%d")`: four-digit year, two-digit month and day. */
  function Strftime(d: Date): (r: string)
    requires IsRealDate(d)
    ensures |r| == 10 && r[4] == '-' && r[7] == '-'
    ensures AllDigits(r[..4]) && AllDigits(r[5..7]) && AllDigits(r[8..])
  {
    var r := FixedDigits(d.year, 4) + "-" + FixedDigits(d.month, 2) + "-" + FixedDigits(d.day, 2);
    assert r[..4] == FixedDigits(d.year, 4);
    assert r[5..7] == FixedDigits(d.month, 2);
    assert r[8..] == FixedDigits(d.day, 2);
    r
  }

  /** The validator on `GroceryItem.purchase_date` and `expiration_date`:
      a string naming a real date comes back in the form `YYYY-MM-DD`; a
      string that does not raises ValueError; a non-string makes `strptime`
      raise TypeError, which the validator does not catch. */
  function ValidateAndFormatDate(v: Value): (r: Result<string, PyError>)
    ensures !v.Str? ==> r == Err(TypeError)
    ensures v.Str? ==> (r.Ok? <==> Strptime(v.s).Ok?)
    ensures r.Ok? ==> Strptime(r.value) == Strptime(v.s)
    ensures r.Err? && v.Str? ==>
              r.error == ValueError("Invalid date format: " + v.s + ". Expected format: YYYY-MM-DD.")
  {
    match v
    case Str(s) =>
      (match Strptime(s)
       case Ok(d) =>
         StrptimeOfStrftime(d);
         Ok(Strftime(d))
       case Err(_) => Err(ValueError("Invalid date format: " + s + ". Expected format: YYYY-MM-DD.")))
    case _ => Err(TypeError)
  }

  lemma TwoDigitGroup(s: string, i: nat, n: int)
    requires 1 <= n <= 99 && i + 2 <= |s| && s[i..i + 2] == FixedDigits(n, 2)
    ensures DigitOf(s[i]) == n / 10 && DigitOf(s[i + 1]) == n % 10
  {
    assert FixedDigits(n, 2) == [DigitChar(n / 10 % 10), DigitChar(n % 10)];
  }

  /** Reading back what strftime wrote gives the same date. */
  lemma {:induction false} StrptimeOfStrftime(d: Date)
    requires IsRealDate(d)
    ensures Strptime(Strftime(d)) == Ok(d)
  {
    var s := Strftime(d);
    assert s[..4] == FixedDigits(d.year, 4);
    FixedDigitsValue(d.year, 4);
    assert s[5..7] == FixedDigits(d.month, 2);
    assert s[8..10] == FixedDigits(d.day, 2);
    MonthFirst(s, d.month);
    DayFirst(s, d.day);
    assert MatchMonthDay(s, MonthGroups(s, 5)) == Some((d.month, d.day, 10));
  }

  /** A two-digit month is what `%m` tries first. */
  lemma MonthFirst(s: string, m: int)
    requires 1 <= m <= 12 && 7 <= |s| && s[5..7] == FixedDigits(m, 2)
    ensures MonthGroups(s, 5) != [] && MonthGroups(s, 5)[0] == Group(m, 2)
  {
    TwoDigitGroup(s, 5, m);
  }

  /** A two-digit day is what `%d` tries first. */
  lemma DayFirst(s: string, d: int)
    requires 1 <= d <= 31 && 10 <= |s| && s[8..10] == FixedDigits(d, 2)
    ensures DayGroups(s, 8) != [] && DayGroups(s, 8)[0] == Group(d, 2)
  {
    TwoDigitGroup(s, 8, d);
  }

  /** Normalising is idempotent: a normalised date validates to itself. */
  /** A real date in its `YYYY-MM-DD` form passes the pre-validator unchanged. */
  lemma FormattedDateValidates(d: Date)
    requires IsRealDate(d)
    ensures ValidateAndFormatDate(Str(Strftime(d))) == Ok(Strftime(d))
  {
    StrptimeOfStrftime(d);
  }

  lemma NormalisedDateIsFixedPoint(v: Value)
    requires ValidateAndFormatDate(v).Ok?
    ensures ValidateAndFormatDate(Str(ValidateAndFormatDate(v).value)) == ValidateAndFormatDate(v)
  {
    var d := Strptime(v.s).value;
    StrptimeOfStrftime(d);
  }
}
