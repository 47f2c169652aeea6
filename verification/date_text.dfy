/** Reading the `%Y-%m-%d` date field of a row, and writing a date back in the same form. */
module DateText {
  import opened Results
  import opened Calendar

  predicate IsDigit(c: char) {
    '0' <= c <= '9'
  }

  predicate AllDigits(s: string) {
    forall i :: 0 <= i < |s| ==> IsDigit(s[i])
  }

  function Pow10(n: nat): nat {
    if n == 0 then 1 else 10 * Pow10(n - 1)
  }

  /** Decimal value of a digit string, most significant digit first. */
  function DigitsValue(s: string): nat
    requires AllDigits(s)
  {
    if |s| == 0 then 0
    else DigitsValue(s[..|s| - 1]) * 10 + (s[|s| - 1] as int - '0' as int)
  }

  /** `n` written with exactly `width` digits, zero-padded on the left. */
  function Digits(n: nat, width: nat): string
    requires n < Pow10(width)
  {
    if width == 0 then []
    else Digits(n / 10, width - 1) + [('0' as int + n % 10) as char]
  }

  /** Writing a number and reading it back gives the number. */
  lemma {:induction false} DigitsRoundTrip(n: nat, width: nat)
    requires n < Pow10(width)
    ensures |Digits(n, width)| == width
    ensures AllDigits(Digits(n, width))
    ensures DigitsValue(Digits(n, width)) == n
  {
    if width > 0 {
      DigitsRoundTrip(n / 10, width - 1);
      var s := Digits(n, width);
      assert s[..|s| - 1] == Digits(n / 10, width - 1);
    }
  }

  /** Reading a digit string and writing it back at the same width gives the string. */
  lemma {:induction false} ValueRoundTrip(s: string)
    requires AllDigits(s)
    ensures DigitsValue(s) < Pow10(|s|)
    ensures Digits(DigitsValue(s), |s|) == s
  {
    if |s| > 0 {
      var init := s[..|s| - 1];
      ValueRoundTrip(init);
      var v := DigitsValue(s);
      assert v / 10 == DigitsValue(init);
      assert s == init + [s[|s| - 1]];
    }
  }

  /** Why a date field was rejected. */
  datatype DateError =
    | NotDateShaped   // not four digits, '-', two digits, '-', two digits
    | NoSuchDay       // shaped correctly but not a day Boost can represent

  /** `iss >> ptimed` under the `%Y-%m-%d` facet, for a field holding exactly a date. */
  function ParseDate(s: string): (r: Result<Date, DateError>)
    ensures r.Ok? ==> ValidDate(r.value)
  {
    if |s| == 10 && s[4] == '-' && s[7] == '-'
       && AllDigits(s[0..4]) && AllDigits(s[5..7]) && AllDigits(s[8..10])
    then
      var d := Date(DigitsValue(s[0..4]), DigitsValue(s[5..7]), DigitsValue(s[8..10]));
      if ValidDate(d) then Ok(d) else Err(NoSuchDay)
    else Err(NotDateShaped)
  }

  /** `d` as `YYYY-MM-DD`. */
  function FormatDate(d: Date): (s: string)
    requires ValidDate(d)
  {
    Digits(d.year, 4) + "-" + Digits(d.month, 2) + "-" + Digits(d.day, 2)
  }

  /** Every valid date survives formatting and parsing. */
  lemma ParseFormat(d: Date)
    requires ValidDate(d)
    ensures ParseDate(FormatDate(d)) == Ok(d)
  {
    assert Pow10(2) == 100 && Pow10(4) == 10000;
    var ys, ms, ds := Digits(d.year, 4), Digits(d.month, 2), Digits(d.day, 2);
    DigitsRoundTrip(d.year, 4);
    DigitsRoundTrip(d.month, 2);
    DigitsRoundTrip(d.day, 2);
    var s := FormatDate(d);
    assert s == ys + "-" + ms + "-" + ds;
    assert s[0..4] == ys;
    assert s[5..7] == ms;
    assert s[8..10] == ds;
    assert |s| == 10 && s[4] == '-' && s[7] == '-';
  }

  /** Every accepted field is the canonical spelling of the date it denotes, so
      normalising a field, formatting the date and parsing again changes nothing. */
  lemma FormatParse(s: string)
    requires ParseDate(s).Ok?
    ensures FormatDate(ParseDate(s).value) == s
  {
    ValueRoundTrip(s[0..4]);
    ValueRoundTrip(s[5..7]);
    ValueRoundTrip(s[8..10]);
    assert s == s[0..4] + "-" + s[5..7] + "-" + s[8..10];
  }
}
