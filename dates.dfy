/**
 * The receipt date stored with every logged message: the calendar date
 * rendered as strftime("%d.%m.%Y") renders it.
 */
module Dates {
  import opened Optional
  import opened Strings

  datatype Date = Date(day: nat, month: nat, year: nat)

  /** A calendar date with a four-digit year. */
  predicate ValidDate(d: Date) {
    1 <= d.day <= 31 && 1 <= d.month <= 12 && 1000 <= d.year <= 9999
  }

  /** "DD.MM.YYYY" */
  function FormatDate(d: Date): (s: string)
    requires ValidDate(d)
    ensures |s| == 10 && s[2] == '.' && s[5] == '.'
  {
    Pad(d.day, 2) + "." + Pad(d.month, 2) + "." + Pad(d.year, 4)
  }

  /** Reads a "DD.MM.YYYY" string back; None for any other shape. */
  function ParseDate(s: string): Option<Date> {
    if |s| == 10 && s[2] == '.' && s[5] == '.'
       && AllDigits(s[..2]) && AllDigits(s[3..5]) && AllDigits(s[6..])
    then Some(Date(ParseNat(s[..2]), ParseNat(s[3..5]), ParseNat(s[6..])))
    else None
  }

  /** The stored day string determines the date it was made from. */
  lemma DateRoundTrip(d: Date)
    requires ValidDate(d)
    ensures ParseDate(FormatDate(d)) == Some(d)
  {
    var s := FormatDate(d);
    assert s[..2] == Pad(d.day, 2);
    assert s[3..5] == Pad(d.month, 2);
    assert s[6..] == Pad(d.year, 4);
    assert Pow10(2) == 100 && Pow10(4) == 10000;
    ParsePad(d.day, 2);
    ParsePad(d.month, 2);
    ParsePad(d.year, 4);
  }

  /** Different dates are stored as different day strings. */
  lemma FormatDateInjective(d1: Date, d2: Date)
    requires ValidDate(d1) && ValidDate(d2) && FormatDate(d1) == FormatDate(d2)
    ensures d1 == d2
  {
    DateRoundTrip(d1);
    DateRoundTrip(d2);
  }
}
