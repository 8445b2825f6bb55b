/** Rendering calendar days as text, the way Go's `Time.Format` does it for the
    layouts "2006-01-02" (the `full-date` of section 5.6 of RFC 3339 for years
    0 to 9999) and "02/01/2006", together with an inverse parse. */
module DateFormat {
  import opened Wrappers
  import opened Calendar

  predicate IsDigit(c: char) {
    '0' <= c <= '9'
  }

  predicate AllDigits(s: string) {
    forall i :: 0 <= i < |s| ==> IsDigit(s[i])
  }

  function DigitChar(n: int): (c: char)
    requires 0 <= n < 10
    ensures IsDigit(c) && c as int - '0' as int == n
  {
    ('0' as int + n) as char
  }

  /** The numeral `s` denotes, read most significant digit first. */
  function ValueOf(s: string): nat
    requires AllDigits(s)
  {
    if s == [] then 0 else ValueOf(s[..|s| - 1]) * 10 + (s[|s| - 1] as int - '0' as int)
  }

  /** The shortest decimal numeral of `n`, as `strconv.Itoa` writes it. */
  function Decimal(n: nat): (s: string)
    ensures 1 <= |s| && AllDigits(s)
    ensures n < 10 ==> |s| == 1
    ensures n < 100 ==> |s| <= 2
    ensures n < 1000 ==> |s| <= 3
    ensures n < 10000 ==> |s| <= 4
  {
    if n < 10 then [DigitChar(n)] else Decimal(n / 10) + [DigitChar(n % 10)]
  }

  lemma {:induction false} ValueOfDecimal(n: nat)
    ensures ValueOf(Decimal(n)) == n
  {
    if n >= 10 {
      var s := Decimal(n);
      assert s[..|s| - 1] == Decimal(n / 10);
      ValueOfDecimal(n / 10);
    }
  }

  function Zeros(k: nat): (s: string)
    ensures |s| == k && AllDigits(s)
  {
    if k == 0 then "" else Zeros(k - 1) + "0"
  }

  lemma {:induction false} ZerosValue(k: nat)
    ensures ValueOf(Zeros(k)) == 0
  {
    if k > 0 {
      assert Zeros(k)[..k - 1] == Zeros(k - 1);
      ZerosValue(k - 1);
    }
  }

  /** Leading zeros do not change the value of a numeral. */
  lemma {:induction false} ValueOfZeros(k: nat, s: string)
    requires AllDigits(s)
    ensures ValueOf(Zeros(k) + s) == ValueOf(s)
    decreases |s|
  {
    var t := Zeros(k) + s;
    if s == [] {
      assert t == Zeros(k);
      ZerosValue(k);
    } else {
      assert t[..|t| - 1] == Zeros(k) + s[..|s| - 1];
      assert t[|t| - 1] == s[|s| - 1];
      ValueOfZeros(k, s[..|s| - 1]);
    }
  }

  /** `s` left-padded with zeros to at least `width` characters. */
  function PadLeft(s: string, width: nat): (r: string)
    requires AllDigits(s)
    ensures AllDigits(r) && ValueOf(r) == ValueOf(s)
    ensures |r| == if |s| < width then width else |s|
  {
    ValueOfZeros(if |s| < width then width - |s| else 0, s);
    Zeros(if |s| < width then width - |s| else 0) + s
  }

  /** A number padded to `width` digits reads back as itself. */
  lemma PaddedValue(n: nat, width: nat)
    ensures ValueOf(PadLeft(Decimal(n), width)) == n
  {
    ValueOfDecimal(n);
  }

  /** Go's "2006" element: a minus sign for years before year 0, then at least
      four digits. */
  function YearText(y: int): (s: string)
    ensures 0 <= y <= 9999 ==> |s| == 4 && AllDigits(s)
  {
    (if y < 0 then "-" else "") + PadLeft(Decimal(if y < 0 then -y else y), 4)
  }

  /** Go's "01" and "02" elements: two digits, zero-padded. */
  function TwoDigits(n: nat): (s: string)
    requires n < 100
    ensures |s| == 2 && AllDigits(s) && ValueOf(s) == n
  {
    PaddedValue(n, 2);
    PadLeft(Decimal(n), 2)
  }

  /** The shape of an RFC 3339 `full-date`: `YYYY-MM-DD`, all digits but the two dashes. */
  predicate IsFullDate(s: string) {
    && |s| == 10
    && s[4] == '-' && s[7] == '-'
    && AllDigits(s[..4]) && AllDigits(s[5..7]) && AllDigits(s[8..])
  }

  /** `date.Format("2006-01-02")`. */
  function FormatISODate(d: Date): (s: string)
    ensures 0 <= d.year <= 9999 ==> IsFullDate(s)
  {
    var s := YearText(d.year) + "-" + TwoDigits(d.month) + "-" + TwoDigits(d.day);
    assert 0 <= d.year <= 9999 ==>
      s[..4] == YearText(d.year) && s[5..7] == TwoDigits(d.month) && s[8..] == TwoDigits(d.day);
    s
  }

  /** `date.Format("02/01/2006")`, the form the reminder messages show. */
  function FormatDayMonthYear(d: Date): (s: string)
    ensures 0 <= d.year <= 9999 ==> |s| == 10
    ensures |s| >= 6 && s[2] == '/' && s[5] == '/'
    ensures AllDigits(s[..2]) && AllDigits(s[3..5])
    ensures ValueOf(s[..2]) == d.day && ValueOf(s[3..5]) == d.month && ParseYear(s[6..]) == Some(d.year)
  {
    var dd, mm, yyyy := TwoDigits(d.day), TwoDigits(d.month), YearText(d.year);
    var s := dd + "/" + mm + "/" + yyyy;
    assert s[..2] == dd;
    assert s[3..5] == mm;
    assert s[6..] == yyyy;
    YearTextRoundTrip(d.year);
    s
  }

  function ParseYear(s: string): Option<int> {
    if |s| >= 2 && s[0] == '-' && AllDigits(s[1..]) then Some(0 - ValueOf(s[1..]))
    else if |s| >= 1 && AllDigits(s) then Some(ValueOf(s))
    else None
  }

  /** Reads back what `FormatISODate` writes; `None` for anything that is not
      a year, two-digit month and two-digit day of a real calendar day. */
  function ParseISODate(s: string): Option<Date> {
    if |s| < 7 then None
    else
      var n := |s|;
      var mm, dd := s[n - 5..n - 3], s[n - 2..];
      if s[n - 6] != '-' || s[n - 3] != '-' || !AllDigits(mm) || !AllDigits(dd) then None
      else match ParseYear(s[..n - 6])
        case None => None
        case Some(y) =>
          var c := CivilDate(y, ValueOf(mm), ValueOf(dd));
          if c.Valid() then Some(c) else None
  }

  lemma {:induction false} YearTextRoundTrip(y: int)
    ensures ParseYear(YearText(y)) == Some(y)
  {
    var digits := PadLeft(Decimal(if y < 0 then -y else y), 4);
    PaddedValue(if y < 0 then -y else y, 4);
    if y < 0 {
      assert YearText(y)[1..] == digits;
    } else {
      assert YearText(y) == digits;
    }
  }

  /** `ParseISODate` reads a year, a dash, two digits, a dash and two digits
      as the date they spell, when that is a calendar day. */
  lemma ParseParts(year: string, mm: string, dd: string, y: int)
    requires ParseYear(year) == Some(y)
    requires |mm| == 2 && |dd| == 2 && AllDigits(mm) && AllDigits(dd)
    requires CivilDate(y, ValueOf(mm), ValueOf(dd)).Valid()
    ensures ParseISODate(year + "-" + mm + "-" + dd) == Some(CivilDate(y, ValueOf(mm), ValueOf(dd)))
  {
    var s := year + "-" + mm + "-" + dd;
    var k := |year|;
    assert |s| == k + 6;
    assert s[..k] == year;
    assert s[k] == '-' && s[k + 3] == '-';
    assert s[k + 1..k + 3] == mm;
    assert s[k + 4..] == dd;
  }

  /** The rendered date determines the date: parsing it gives it back. */
  lemma ISODateRoundTrip(d: Date)
    ensures ParseISODate(FormatISODate(d)) == Some(d)
  {
    var year, mm, dd := YearText(d.year), TwoDigits(d.month), TwoDigits(d.day);
    assert FormatISODate(d) == year + "-" + mm + "-" + dd;
    YearTextRoundTrip(d.year);
    ParseParts(year, mm, dd, d.year);
  }
}
