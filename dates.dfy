/** `parseDateField`: coercing a spreadsheet date cell to a `Date` or null. */
module Dates {
  import opened Wrappers
  import opened ImportTypes

  const MsPerDay: int := 86400000

  /** Days from 1970-01-01 to the given proleptic Gregorian date. */
  function DaysFromCivil(y: int, m: int, d: int): int
    requires 1 <= m <= 12 && 1 <= d <= 31
  {
    var y' := if m <= 2 then y - 1 else y;
    var era := y' / 400;
    var yoe := y' - era * 400;
    var doy := (153 * (if m > 2 then m - 3 else m + 9) + 2) / 5 + d - 1;
    var doe := yoe * 365 + yoe / 4 - yoe / 100 + doy;
    era * 146097 + doe - 719468
  }

  /** `new Date(1900, 0, 1).getTime()`, read in UTC. */
  const ExcelEpochMs: int := -2208988800000

  lemma ExcelEpochIsFirstOf1900()
    ensures ExcelEpochMs == DaysFromCivil(1900, 1, 1) * MsPerDay
  {
  }

  /** Rounding toward zero, as `ToIntegerOrInfinity` does. */
  function Truncate(t: real): (r: int)
    ensures t >= 0.0 ==> r as real <= t < r as real + 1.0
    ensures t < 0.0 ==> r as real - 1.0 < t <= r as real
  {
    if t >= 0.0 then t.Floor else -((-t).Floor)
  }

  /** `new Date(t)` for a time value t: `TimeClip` refuses magnitudes above 8.64e15 and truncates the rest. */
  function TimeClip(t: real): (d: JsDate)
    ensures d.ValidDate? <==> -(MaxTimeMs as real) <= t <= MaxTimeMs as real
  {
    if t < -(MaxTimeMs as real) || t > MaxTimeMs as real then InvalidDate else ValidDate(Truncate(t))
  }

  /** An Excel serial number read as days from 1900-01-01 minus two. */
  function SerialToDate(n: real): (r: JsDate)
    ensures n == n.Floor as real && r.ValidDate? ==> r.ms == ExcelEpochMs + (n.Floor - 2) * MsPerDay
  {
    TimeClip(ExcelEpochMs as real + (n - 2.0) * MsPerDay as real)
  }

  /**
   * `parseDateField(value)`: undefined, "" and 0 give null, a date object is
   * returned as is, a number is a serial date, and a string goes through the
   * engine's date parser (`parseDate`), an invalid result giving null. The
   * only truthy boolean, `true`, reaches `new Date(true)`, which converts it
   * to the time value 1.
   */
  function ParseDateField(v: Option<Cell>, parseDate: string -> JsDate): (r: Option<JsDate>)
    ensures !Truthy(v) ==> r == None
    ensures Truthy(v) && v.value.DateCell? ==> r == Some(v.value.date)
    ensures Truthy(v) && v.value.Num? ==> r == Some(SerialToDate(v.value.value))
    ensures v.Some? && v.value.Text? && v.value.s != "" ==>
      r == if parseDate(v.value.s).ValidDate? then Some(parseDate(v.value.s)) else None
    ensures Truthy(v) && v.value.Bool? ==> r == Some(ValidDate(1))
  {
    if !Truthy(v) then None
    else match v.value
      case DateCell(d, _) => Some(d)
      case Num(n, _) => Some(SerialToDate(n))
      case Text(s) => if parseDate(s).ValidDate? then Some(parseDate(s)) else None
      case Bool(_) => Some(ValidDate(1))
  }

  /** The serial number of the day a valid time value falls on, inverse to `SerialToDate` on whole days. */
  function DateToSerial(ms: int): int
  {
    (ms - ExcelEpochMs) / MsPerDay + 2
  }

  /** Whole serial numbers round-trip: reading the date back as a serial number gives the serial. */
  lemma SerialRoundTrip(n: int)
    requires SerialToDate(n as real).ValidDate?
    ensures SerialToDate(n as real) == ValidDate(ExcelEpochMs + (n - 2) * MsPerDay)
    ensures DateToSerial(SerialToDate(n as real).ms) == n
  {
    var t := ExcelEpochMs + (n - 2) * MsPerDay;
    assert ExcelEpochMs as real + (n as real - 2.0) * MsPerDay as real == t as real;
    assert Truncate(t as real) == t;
    assert (t - ExcelEpochMs) / MsPerDay == n - 2;
  }

  /** Consecutive whole serial numbers are exactly one day apart. */
  lemma SerialsOneDayApart(n: int)
    requires SerialToDate(n as real).ValidDate? && SerialToDate((n + 1) as real).ValidDate?
    ensures SerialToDate((n + 1) as real).ms == SerialToDate(n as real).ms + MsPerDay
  {
    SerialRoundTrip(n);
    SerialRoundTrip(n + 1);
  }

  /** Serial 1 is 1899-12-31: the count starts two days before 1900-01-01. */
  lemma SerialOneIsLastDayOf1899(parseDate: string -> JsDate)
    ensures ParseDateField(Some(Num(1.0, "1")), parseDate) == Some(ValidDate(DaysFromCivil(1899, 12, 31) * MsPerDay))
  {
    SerialRoundTrip(1);
  }

  /** Serial 61 is 1900-03-01, where spreadsheet serials agree with the calendar again after the phantom 1900-02-29. */
  lemma SerialSixtyOneIsFirstOfMarch1900(parseDate: string -> JsDate)
    ensures ParseDateField(Some(Num(61.0, "61")), parseDate) == Some(ValidDate(DaysFromCivil(1900, 3, 1) * MsPerDay))
  {
    SerialRoundTrip(61);
  }

  /** Serial 0 and the empty string are falsy and give null. */
  lemma FalsyDatesAreNull(parseDate: string -> JsDate)
    ensures ParseDateField(Some(Num(0.0, "0")), parseDate) == None
    ensures ParseDateField(Some(Text("")), parseDate) == None
    ensures ParseDateField(None, parseDate) == None
    ensures ParseDateField(Some(Bool(false)), parseDate) == None
  {
  }
}
