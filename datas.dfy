/**
 * Dates as the controllers use them: JavaScript's `new Date(year, monthIndex)`,
 * date-fns `max` and date-fns `format(date, "ddMMyyyy")`. Only the calendar
 * date is modelled; times of day and time zones are not.
 */
module Datas {
  import opened Wrappers
  import opened Texto

  datatype Date = Date(year: int, month: nat, day: nat)

  /** Chronological order: `a` is not later than `b`. */
  predicate NotAfter(a: Date, b: Date) {
    a.year < b.year || (a.year == b.year && (a.month < b.month || (a.month == b.month && a.day <= b.day)))
  }

  /**
   * `new Date(year, monthIndex)`: a year from 0 to 99 means 1900 to 1999, a
   * month index outside 0..11 carries into the year, and the day is the 1st.
   */
  function MonthStart(year: int, monthIndex: int): (d: Date)
    ensures 1 <= d.month <= 12 && d.day == 1
  {
    var y := if 0 <= year <= 99 then 1900 + year else year;
    Date(y + monthIndex / 12, monthIndex % 12 + 1, 1)
  }

  /** For a four-digit year and a month from 1 to 12, `new Date(year, month - 1)` is the 1st of that month. */
  lemma MonthStartOfCompetency(year: int, month: int)
    requires 100 <= year && 1 <= month <= 12
    ensures MonthStart(year, month - 1) == Date(year, month, 1)
  {
  }

  /** date-fns `max`: the latest of the dates, none for an empty list. */
  function Latest(ds: seq<Date>): (r: Option<Date>)
    ensures r.None? <==> ds == []
    ensures r.Some? ==> r.value in ds && forall d :: d in ds ==> NotAfter(d, r.value)
    decreases |ds|
  {
    if ds == [] then None
    else
      var prev := Latest(ds[..|ds| - 1]);
      var last := ds[|ds| - 1];
      assert ds == ds[..|ds| - 1] + [last];
      if prev.None? || NotAfter(prev.value, last) then Some(last) else prev
  }

  /** The year that the `yyyy` token prints: the year of the era, so year 0 is 1 BC. */
  function EraYear(year: int): nat {
    if year > 0 then year else 1 - year
  }

  /** date-fns `format(d, "ddMMyyyy")`: day and month on two digits, the year on at least four. */
  function FormatDdMMyyyy(d: Date): string {
    PadLeft(NatToString(d.day), 2) + PadLeft(NatToString(d.month), 2) + PadLeft(NatToString(EraYear(d.year)), 4)
  }

  /** Reads back an eight-digit `ddMMyyyy` field. */
  function ParseDdMMyyyy(s: string): Option<Date> {
    if |s| == 8 && AllDigits(s) then
      Some(Date(DigitsValue(s[4..]), DigitsValue(s[2..4]), DigitsValue(s[..2])))
    else None
  }

  lemma NatToStringWidth(n: nat, w: nat)
    requires w >= 1 && n < Pow10(w)
    ensures |NatToString(n)| <= w
  {
    NatToStringDigits(n);
  }

  /** Every date of years 1 to 9999 is printed as eight digits that read back as the same date. */
  lemma FormatParseRoundTrip(d: Date)
    requires 1 <= d.year <= 9999 && d.month <= 99 && d.day <= 99
    ensures |FormatDdMMyyyy(d)| == 8
    ensures ParseDdMMyyyy(FormatDdMMyyyy(d)) == Some(d)
  {
    var dd := NatToString(d.day);
    var mm := NatToString(d.month);
    var yy := NatToString(d.year);
    assert Pow10(2) == 100 && Pow10(4) == 10000;
    NatToStringWidth(d.day, 2);
    NatToStringWidth(d.month, 2);
    NatToStringWidth(d.year, 4);
    NatToStringDigits(d.day);
    NatToStringDigits(d.month);
    NatToStringDigits(d.year);
    PadLeftValue(dd, 2);
    PadLeftValue(mm, 2);
    PadLeftValue(yy, 4);
    var s := FormatDdMMyyyy(d);
    assert s == PadLeft(dd, 2) + PadLeft(mm, 2) + PadLeft(yy, 4);
    assert s[..2] == PadLeft(dd, 2);
    assert s[2..4] == PadLeft(mm, 2);
    assert s[4..] == PadLeft(yy, 4);
  }

  /** A competency of June 2024 is printed as `01062024`. */
  lemma FormatJune2024()
    ensures FormatDdMMyyyy(MonthStart(2024, 5)) == "01062024"
  {
    assert MonthStart(2024, 5) == Date(2024, 6, 1);
    assert EraYear(2024) == 2024;
    assert NatToString(2024) == "2024" by {
      assert NatToString(202) == "202" by {
        assert NatToString(20) == "20";
      }
    }
    assert PadLeft(NatToString(1), 2) == "01";
    assert PadLeft(NatToString(6), 2) == "06";
    assert PadLeft("2024", 4) == "2024";
  }
}
