/**
 * The shared date helpers: a date shown as `MM/YYYY` and a start/end range
 * built from two such dates. Parsing `YYYY-MM-DDT00:00:00` into a calendar
 * date is the browser's `Date`; it is a parameter here.
 */
module DateUtils {
  import opened Wrappers
  import opened Text
  import opened Browser

  /** What `new Date(…)` yields once parsed: a zero-based month and a full year. */
  datatype CalendarDate = CalendarDate(month0: int, year: int)

  /** The browser's date parser; `None` is an invalid date, whose getters give `NaN`. */
  type DateParser = string -> Option<CalendarDate>

  /** `padStart(2, '0')`. */
  function PadStart2(s: string): (r: string)
    ensures |r| == if |s| < 2 then 2 else |s|
    ensures r[|r| - |s|..] == s
  {
    if |s| == 0 then "00" else if |s| == 1 then "0" + s else s
  }

  /** The two-digit month and the year are read back from a displayed date. */
  lemma PaddedMonth(m: nat)
    requires 1 <= m <= 12
    ensures var p := PadStart2(NatToString(m));
      |p| == 2 && (forall i :: 0 <= i < 2 ==> IsDigit(p[i])) && ParseDigits(p) == m
  {
    var s := NatToString(m);
    ParseNatToString(m);
    if m < 10 {
      assert s == [DigitChar(m)];
      var p := "0" + s;
      assert p[..1] == "0";
      assert ParseDigits(p[..1]) == ParseDigits([]) * 10 + 0;
    } else {
      assert |s| == 2 by {
        assert NatToString(m / 10) == [DigitChar(m / 10)];
      }
    }
  }

  /** The text shown for a parsed date: the month, one-based and padded to two digits, a slash and the year. */
  function MonthYear(d: CalendarDate): string
  {
    PadStart2(IntToString(d.month0 + 1)) + "/" + IntToString(d.year)
  }

  /** For an in-range month and a non-negative year, the month and the year can be read back from the text. */
  lemma MonthYearReadsBack(d: CalendarDate)
    requires 0 <= d.month0 < 12 && d.year >= 0
    ensures var r := MonthYear(d);
      |r| >= 4 && r[2] == '/' && (forall i :: 0 <= i < |r| && i != 2 ==> IsDigit(r[i]))
      && ParseDigits(r[..2]) == d.month0 + 1 && ParseDigits(r[3..]) == d.year
  {
    var r := MonthYear(d);
    PaddedMonth(d.month0 + 1);
    ParseNatToString(d.year);
    assert r[..2] == PadStart2(NatToString(d.month0 + 1));
    assert r[3..] == NatToString(d.year);
  }

  /**
   * `formatDateForDisplay`: empty for a missing or empty date; otherwise
   * `MM/YYYY` from the parsed date. An unparseable date does not throw, so
   * it shows as "NaN/NaN" rather than falling back to the input.
   */
  function FormatDateForDisplay(date: Option<string>, parse: DateParser): (r: string)
    ensures !Truthy(date) ==> r == ""
    ensures Truthy(date) && parse(date.value + "T00:00:00").None? ==> r == "NaN/NaN"
    ensures Truthy(date) && parse(date.value + "T00:00:00").Some? ==> r == MonthYear(parse(date.value + "T00:00:00").value)
    ensures Truthy(date) ==> r != ""
  {
    if !Truthy(date) then ""
    else match parse(date.value + "T00:00:00")
      case None => "NaN/NaN"
      case Some(d) => MonthYear(d)
  }

  /**
   * `formatRange`: "Unknown period" without a start; the start and "Present"
   * for a current entry, whatever its end; the start alone without an end;
   * otherwise the start and the end, separated by " - ".
   */
  function FormatRange(startDate: Option<string>, endDate: Option<string>, current: bool, parse: DateParser): (r: string)
    ensures !Truthy(startDate) ==> r == "Unknown period"
    ensures Truthy(startDate) && current ==> r == FormatDateForDisplay(startDate, parse) + " - Present"
    ensures Truthy(startDate) && !current && !Truthy(endDate) ==> r == FormatDateForDisplay(startDate, parse)
    ensures Truthy(startDate) && !current && Truthy(endDate) ==>
      r == FormatDateForDisplay(startDate, parse) + " - " + FormatDateForDisplay(endDate, parse)
    ensures r != ""
  {
    if !Truthy(startDate) then "Unknown period"
    else
      var start := FormatDateForDisplay(startDate, parse);
      if current then start + " - Present"
      else if !Truthy(endDate) then start
      else start + " - " + FormatDateForDisplay(endDate, parse)
  }

  /** A current entry's range does not depend on its end date. */
  lemma CurrentIgnoresEnd(startDate: Option<string>, end1: Option<string>, end2: Option<string>, parse: DateParser)
    ensures FormatRange(startDate, end1, true, parse) == FormatRange(startDate, end2, true, parse)
  {
  }

  /** Without a start, neither the end nor the current flag is shown. */
  lemma NoStartHidesRest(endDate: Option<string>, current: bool, parse: DateParser)
    ensures FormatRange(None, endDate, current, parse) == FormatRange(Some(""), None, false, parse)
  {
  }
}
