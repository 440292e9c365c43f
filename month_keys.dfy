/** The month key under which both stores file their records:
    `${year}-${String(month + 1).padStart(2, "0")}`. */
module MonthKeys {
  import opened Wrappers
  import opened Strings

  /** `Date.getMonth()`: 0 for January up to 11 for December. */
  type MonthIndex = m: nat | m < 12

  /** One reading of the clock: the local year and month, and the ISO-8601
      timestamp written into records. */
  datatype Instant = Instant(year: nat, monthIndex: MonthIndex, iso: string)

  /** `getCurrentMonth()` at the given reading of the clock. */
  function MonthKey(year: nat, monthIndex: MonthIndex): (key: string)
    ensures |key| >= 4 && key[|key| - 3] == '-'
    ensures key[|key| - 2..] in {"01", "02", "03", "04", "05", "06", "07", "08", "09", "10", "11", "12"}
  {
    var mm := Pad2(monthIndex + 1);
    Pad2Digits(monthIndex + 1);
    NatToString(year) + "-" + mm
  }

  function CurrentMonth(at: Instant): string
  {
    MonthKey(at.year, at.monthIndex)
  }

  predicate AllDigits(s: string)
  {
    forall i :: 0 <= i < |s| ==> IsDigit(s[i])
  }

  /** Reads a month key back into its year and month index. */
  function ParseMonthKey(key: string): Option<(nat, MonthIndex)>
  {
    if |key| >= 4 && key[|key| - 3] == '-' && AllDigits(key[..|key| - 3]) && AllDigits(key[|key| - 2..])
       && 1 <= ParseNat(key[|key| - 2..]) <= 12
    then Some((ParseNat(key[..|key| - 3]), ParseNat(key[|key| - 2..]) - 1))
    else None
  }

  /** The key determines the year and month it was made from. */
  lemma MonthKeyRoundTrip(year: nat, monthIndex: MonthIndex)
    ensures ParseMonthKey(MonthKey(year, monthIndex)) == Some((year, monthIndex))
  {
    var key := MonthKey(year, monthIndex);
    var y := NatToString(year);
    assert key[..|key| - 3] == y;
    assert key[|key| - 2..] == Pad2(monthIndex + 1);
    ParseNatToString(year);
    ParsePad2(monthIndex + 1);
  }

  /** Different months never share a key, so no two months share a file. */
  lemma MonthKeyInjective(y1: nat, m1: MonthIndex, y2: nat, m2: MonthIndex)
    requires MonthKey(y1, m1) == MonthKey(y2, m2)
    ensures y1 == y2 && m1 == m2
  {
    MonthKeyRoundTrip(y1, m1);
    MonthKeyRoundTrip(y2, m2);
  }

  lemma FourDigitYear(year: nat)
    requires 1000 <= year <= 9999
    ensures |NatToString(year)| == 4
  {
    assert NatToString(year) == NatToString(year / 10) + [DigitChar(year % 10)];
    assert NatToString(year / 10) == NatToString(year / 100) + [DigitChar(year / 10 % 10)];
    assert NatToString(year / 100) == NatToString(year / 1000) + [DigitChar(year / 100 % 10)];
  }

  /** For four-digit years the string order of the keys is the calendar
      order of the months, so sorting keys descending lists newest first. */
  lemma MonthKeyChronological(y1: nat, m1: MonthIndex, y2: nat, m2: MonthIndex)
    requires 1000 <= y1 <= 9999 && 1000 <= y2 <= 9999
    ensures LexLe(MonthKey(y1, m1), MonthKey(y2, m2)) <==> y1 < y2 || (y1 == y2 && m1 <= m2)
  {
    var s1, s2 := NatToString(y1), NatToString(y2);
    var t1, t2 := "-" + Pad2(m1 + 1), "-" + Pad2(m2 + 1);
    assert MonthKey(y1, m1) == s1 + t1;
    assert MonthKey(y2, m2) == s2 + t2;
    FourDigitYear(y1);
    FourDigitYear(y2);
    LexLeConcat(s1, t1, s2, t2);
    NatToStringOrder(y1, y2);
    if s1 == s2 {
      NatToStringInjective(y1, y2);
    }
    LexLeConcat("-", Pad2(m1 + 1), "-", Pad2(m2 + 1));
    Pad2Order(m1 + 1, m2 + 1);
  }
}
