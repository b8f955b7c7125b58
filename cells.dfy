/** The values a query returns and how one of them is placed in a cell: the
    fixed-precedence type dispatch of the data loop, which picks a cell
    format and the width the value contributes to its column. */
module Cells {
  import opened PyStr

  datatype CalendarDate = CalendarDate(year: int, month: int, day: int)
  datatype ClockTime = ClockTime(hour: int, minute: int, second: int, microsecond: int)

  /** A value of a result row, tagged by the Python type the database client
      hands back. `Other` stands for every remaining type (float, Decimal,
      bytes, ...) and carries its `str()` rendering. */
  datatype Value =
    | Null
    | Text(text: string)
    | Int(number: int)
    | Bool(truth: bool)
    | Date(date: CalendarDate)
    | Time(time: ClockTime)
    | Timestamp(date: CalendarDate, time: ClockTime)
    | Other(rendering: string)

  /** The cell formats of the workbook; `PlainFormat` is a write without one. */
  datatype Format = HeaderFormat | DateTimeFormat | TimeFormat | DateFormat | PlainFormat

  /** The display patterns of the three temporal formats. */
  const DateTimePattern: string := "MM.DD.YYYY HH:MM:SS"
  const TimePattern: string := "HH:MM:SS"
  const DatePattern: string := "MM.DD.YYYY"

  /** `isinstance(v, datetime.datetime)`. */
  predicate IsDatetimeInstance(v: Value) { v.Timestamp? }

  /** `isinstance(v, datetime.time)`. */
  predicate IsTimeInstance(v: Value) { v.Time? }

  /** `isinstance(v, datetime.date)`: `datetime.datetime` is a subclass of
      `datetime.date`, so a timestamp passes this test as well. */
  predicate IsDateInstance(v: Value) { v.Date? || v.Timestamp? }

  predicate IsTemporal(v: Value) { IsDatetimeInstance(v) || IsTimeInstance(v) || IsDateInstance(v) }

  /** Python's `str(v)` for the values that reach the default branch. */
  function Rendering(v: Value): (s: string)
    requires !IsTemporal(v)
  {
    match v
    case Null => "None"
    case Text(t) => t
    case Int(n) => IntToString(n)
    case Bool(b) => if b then "True" else "False"
    case Other(r) => r
  }

  /** The format a value is written with and the width it contributes. */
  datatype Placement = Placement(format: Format, width: nat)

  /** The dispatch of the data loop: the datetime test first, then time, then
      date, then the default write with the width of `str(value)`. */
  function Classify(v: Value): (p: Placement)
    ensures v.Timestamp? ==> p == Placement(DateTimeFormat, 19)
    ensures v.Time? ==> p == Placement(TimeFormat, 8)
    ensures v.Date? ==> p == Placement(DateFormat, 10)
    ensures v.Null? ==> p == Placement(PlainFormat, 4)
    ensures v.Bool? ==> p == Placement(PlainFormat, if v.truth then 4 else 5)
    ensures v.Text? ==> p == Placement(PlainFormat, |v.text|)
    ensures v.Int? ==> p == Placement(PlainFormat, |IntToString(v.number)|)
    ensures v.Other? ==> p == Placement(PlainFormat, |v.rendering|)
    ensures p.format != HeaderFormat
    ensures p.format == DateFormat ==> !v.Timestamp?
  {
    if IsDatetimeInstance(v) then Placement(DateTimeFormat, |DateTimePattern|)
    else if IsTimeInstance(v) then Placement(TimeFormat, |TimePattern|)
    else if IsDateInstance(v) then Placement(DateFormat, |DatePattern|)
    else Placement(PlainFormat, |Rendering(v)|)
  }

  /** An integer cell contributes the number of its decimal digits, plus one
      for a minus sign. */
  lemma IntWidth(n: int)
    ensures var w := Classify(Int(n)).width;
            var m := if n < 0 then -n else n;
            w == |Digits(m)| + (if n < 0 then 1 else 0) &&
            m < Pow10(w - (if n < 0 then 1 else 0))
  {
    var m: nat := if n < 0 then -n else n;
    var d := Digits(m);
    DigitsLength(m);
    assert IntToString(n) == (if n < 0 then "-" + d else d);
    assert Classify(Int(n)).width == |IntToString(n)|;
  }
}
