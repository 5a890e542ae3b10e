/**
 * Calendar and clock values, and the two fixed-field layouts the parsers read
 * timestamps in: `%d-%m-%Y %H:%M:%S` (delivery notifications) and
 * `%Y-%m-%d %H:%M:%S` (incoming replies).  Parsing is strict: two digits for
 * day, month, hour, minute and second, four for the year, and the fields must
 * name a real instant of the proleptic Gregorian calendar.
 */
module Calendar {
  import opened Wrappers

  datatype DateTime = DateTime(year: int, month: int, day: int, hour: int, minute: int, second: int)

  /** A wall-clock reading together with the name of the zone it is read in. */
  datatype ZonedTime = ZonedTime(zone: string, local: DateTime)

  /** The two strptime/strftime patterns the core uses. */
  datatype Layout =
    | DayFirst   // '%d-%m-%Y %H:%M:%S'
    | YearFirst  // '%Y-%m-%d %H:%M:%S'

  predicate LeapYear(y: int)
  {
    y % 4 == 0 && (y % 100 != 0 || y % 400 == 0)
  }

  function DaysInMonth(y: int, m: int): int
  {
    if m == 2 then (if LeapYear(y) then 29 else 28)
    else if m == 4 || m == 6 || m == 9 || m == 11 then 30
    else 31
  }

  /** The fields name a real date and time that a four-digit year can write. */
  predicate ValidDateTime(dt: DateTime)
  {
    && 0 <= dt.year <= 9999
    && 1 <= dt.month <= 12
    && 1 <= dt.day <= DaysInMonth(dt.year, dt.month)
    && 0 <= dt.hour <= 23
    && 0 <= dt.minute <= 59
    && 0 <= dt.second <= 59
  }

  predicate IsDigit(c: char)
  {
    '0' <= c <= '9'
  }

  function DigitValue(c: char): int
  {
    c as int - '0' as int
  }

  function DigitChar(n: int): char
    requires 0 <= n < 10
  {
    ('0' as int + n) as char
  }

  /** `n` in two decimal digits, with a leading zero (strftime's %d, %m, %H, %M, %S). */
  function Two(n: int): string
    requires 0 <= n < 100
  {
    [DigitChar(n / 10), DigitChar(n % 10)]
  }

  /** `n` in four decimal digits, with leading zeros (strftime's %Y for years 0 to 9999). */
  function Four(n: int): string
    requires 0 <= n < 10000
  {
    Two(n / 100) + Two(n % 100)
  }

  /** The two digits at `s[i]`, `s[i + 1]`, if they are digits. */
  function ReadTwo(s: string, i: nat): Option<int>
    requires i + 2 <= |s|
  {
    if IsDigit(s[i]) && IsDigit(s[i + 1])
    then Some(10 * DigitValue(s[i]) + DigitValue(s[i + 1]))
    else None
  }

  /** The four digits from `s[i]` on, if they are digits. */
  function ReadFour(s: string, i: nat): Option<int>
    requires i + 4 <= |s|
  {
    match (ReadTwo(s, i), ReadTwo(s, i + 2))
    case (Some(high), Some(low)) => Some(100 * high + low)
    case _ => None
  }

  /** strftime with the layout's pattern. */
  function Strftime(dt: DateTime, layout: Layout): string
    requires ValidDateTime(dt)
  {
    var date := match layout
      case DayFirst => Two(dt.day) + "-" + Two(dt.month) + "-" + Four(dt.year)
      case YearFirst => Four(dt.year) + "-" + Two(dt.month) + "-" + Two(dt.day);
    date + " " + Two(dt.hour) + ":" + Two(dt.minute) + ":" + Two(dt.second)
  }

  /** Where the day, month and year fields start in a layout. */
  function DayAt(layout: Layout): nat { if layout.DayFirst? then 0 else 8 }
  function MonthAt(layout: Layout): nat { if layout.DayFirst? then 3 else 5 }
  function YearAt(layout: Layout): nat { if layout.DayFirst? then 6 else 0 }

  /** The literal characters of the layout's pattern stand where the pattern puts them. */
  predicate SeparatorsAt(s: string, layout: Layout)
    requires |s| == 19
  {
    && (if layout.DayFirst? then s[2] == '-' && s[5] == '-' else s[4] == '-' && s[7] == '-')
    && s[10] == ' ' && s[13] == ':' && s[16] == ':'
  }

  /**
   * DateTime.strptime with the layout's pattern: None when the text does not
   * have the pattern's shape or does not name a valid date and time.
   */
  function Strptime(s: string, layout: Layout): Option<DateTime>
  {
    if |s| != 19 || !SeparatorsAt(s, layout) then None
    else
      var day, month, year := ReadTwo(s, DayAt(layout)), ReadTwo(s, MonthAt(layout)), ReadFour(s, YearAt(layout));
      var hour, minute, second := ReadTwo(s, 11), ReadTwo(s, 14), ReadTwo(s, 17);
      if !(day.Some? && month.Some? && year.Some? && hour.Some? && minute.Some? && second.Some?)
      then None
      else
        var dt := DateTime(year.value, month.value, day.value, hour.value, minute.value, second.value);
        if ValidDateTime(dt) then Some(dt) else None
  }

  /**
   * The parse is exact: a text parses to `dt` exactly when `dt` is a valid
   * date and time and the layout's pattern writes `dt` as that text.
   */
  lemma StrptimeIsInverseOfStrftime(s: string, layout: Layout, dt: DateTime)
    ensures Strptime(s, layout) == Some(dt) <==> ValidDateTime(dt) && Strftime(dt, layout) == s
  {
    if Strptime(s, layout) == Some(dt) {
      ParsedTextIsWritten(s, layout);
    }
    if ValidDateTime(dt) && Strftime(dt, layout) == s {
      WrittenTextParses(dt, layout);
    }
  }

  lemma ReadWrittenTwo(s: string, i: nat, n: int)
    requires 0 <= n < 100 && i + 2 <= |s|
    requires s[i..i + 2] == Two(n)
    ensures ReadTwo(s, i) == Some(n)
  {
    assert s[i] == s[i..i + 2][0] && s[i + 1] == s[i..i + 2][1];
  }

  lemma ReadWrittenFour(s: string, i: nat, n: int)
    requires 0 <= n < 10000 && i + 4 <= |s|
    requires s[i..i + 4] == Four(n)
    ensures ReadFour(s, i) == Some(n)
  {
    assert s[i..i + 2] == s[i..i + 4][0..2] && s[i + 2..i + 4] == s[i..i + 4][2..4];
    ReadWrittenTwo(s, i, n / 100);
    ReadWrittenTwo(s, i + 2, n % 100);
  }

  /** Where the layout's pattern puts each written field. */
  lemma StrftimeLaysOutFields(dt: DateTime, layout: Layout)
    requires ValidDateTime(dt)
    ensures |Strftime(dt, layout)| == 19 && SeparatorsAt(Strftime(dt, layout), layout)
    ensures Strftime(dt, layout)[DayAt(layout)..DayAt(layout) + 2] == Two(dt.day)
    ensures Strftime(dt, layout)[MonthAt(layout)..MonthAt(layout) + 2] == Two(dt.month)
    ensures Strftime(dt, layout)[YearAt(layout)..YearAt(layout) + 4] == Four(dt.year)
    ensures Strftime(dt, layout)[11..13] == Two(dt.hour)
    ensures Strftime(dt, layout)[14..16] == Two(dt.minute)
    ensures Strftime(dt, layout)[17..19] == Two(dt.second)
  {
    var date := match layout
      case DayFirst => Two(dt.day) + "-" + Two(dt.month) + "-" + Four(dt.year)
      case YearFirst => Four(dt.year) + "-" + Two(dt.month) + "-" + Two(dt.day);
    var time := Two(dt.hour) + ":" + Two(dt.minute) + ":" + Two(dt.second);
    assert Strftime(dt, layout) == date + " " + time;
    assert time[0..2] == Two(dt.hour) && time[3..5] == Two(dt.minute) && time[6..8] == Two(dt.second);
  }

  lemma WrittenTextParses(dt: DateTime, layout: Layout)
    requires ValidDateTime(dt)
    ensures Strptime(Strftime(dt, layout), layout) == Some(dt)
  {
    var s := Strftime(dt, layout);
    StrftimeLaysOutFields(dt, layout);
    ReadWrittenTwo(s, DayAt(layout), dt.day);
    ReadWrittenTwo(s, MonthAt(layout), dt.month);
    ReadWrittenFour(s, YearAt(layout), dt.year);
    ReadWrittenTwo(s, 11, dt.hour);
    ReadWrittenTwo(s, 14, dt.minute);
    ReadWrittenTwo(s, 17, dt.second);
  }

  lemma WriteReadTwo(s: string, i: nat)
    requires i + 2 <= |s| && ReadTwo(s, i).Some?
    ensures 0 <= ReadTwo(s, i).value < 100
    ensures Two(ReadTwo(s, i).value) == s[i..i + 2]
  {
  }

  lemma WriteReadFour(s: string, i: nat)
    requires i + 4 <= |s| && ReadFour(s, i).Some?
    ensures 0 <= ReadFour(s, i).value < 10000
    ensures Four(ReadFour(s, i).value) == s[i..i + 4]
  {
    WriteReadTwo(s, i);
    WriteReadTwo(s, i + 2);
    var high, low := ReadTwo(s, i).value, ReadTwo(s, i + 2).value;
    assert (100 * high + low) / 100 == high && (100 * high + low) % 100 == low;
    assert s[i..i + 4] == s[i..i + 2] + s[i + 2..i + 4];
  }

  lemma ParsedTextIsWritten(s: string, layout: Layout)
    requires Strptime(s, layout).Some?
    ensures ValidDateTime(Strptime(s, layout).value)
    ensures Strftime(Strptime(s, layout).value, layout) == s
  {
    var dt := Strptime(s, layout).value;
    WriteReadTwo(s, DayAt(layout));
    WriteReadTwo(s, MonthAt(layout));
    WriteReadFour(s, YearAt(layout));
    WriteReadTwo(s, 11);
    WriteReadTwo(s, 14);
    WriteReadTwo(s, 17);
    match layout
    case DayFirst =>
      assert s == s[0..2] + "-" + s[3..5] + "-" + s[6..10] + " " + s[11..13] + ":" + s[14..16] + ":" + s[17..19];
    case YearFirst =>
      assert s == s[0..4] + "-" + s[5..7] + "-" + s[8..10] + " " + s[11..13] + ":" + s[14..16] + ":" + s[17..19];
  }
}
