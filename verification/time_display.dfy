/**
 * The time label of the main window: seconds shown as "<m>m <s>s", or as
 * "<s>s" when the minute field is zero. Division and remainder are those of
 * C++ (truncating toward zero), and whole hours are dropped from the minutes.
 *
 * ParseTimeDisplay reads a label back into its two fields; the round-trip
 * lemma shows that the label carries exactly the minute and second fields.
 */
module TimeDisplay {

  datatype Option<T> = None | Some(value: T)

  /** C++ integer division: the quotient truncated toward zero. */
  function TruncDiv(a: int, d: int): (q: int)
    requires d > 0
    ensures a >= 0 ==> q >= 0
    ensures a < 0 ==> q <= 0
  {
    if a >= 0 then a / d else -((-a) / d)
  }

  /** C++ remainder: what TruncDiv leaves, with the sign of the dividend. */
  function TruncRem(a: int, d: int): (r: int)
    requires d > 0
    ensures a == d * TruncDiv(a, d) + r
    ensures a >= 0 ==> 0 <= r < d
    ensures a < 0 ==> -d < r <= 0
  {
    a - d * TruncDiv(a, d)
  }

  predicate IsDigit(c: char)
  {
    '0' <= c <= '9'
  }

  predicate AllDigits(s: string)
  {
    forall i :: 0 <= i < |s| ==> IsDigit(s[i])
  }

  function DigitChar(d: int): (c: char)
    requires 0 <= d < 10
    ensures IsDigit(c) && c as int - '0' as int == d
  {
    ('0' as int + d) as char
  }

  /** Decimal digits of a natural number, without leading zeros. */
  function NatToString(n: nat): (s: string)
    ensures |s| >= 1 && AllDigits(s)
    decreases n
  {
    if n < 10 then [DigitChar(n)] else NatToString(n / 10) + [DigitChar(n % 10)]
  }

  /** The value of a string of decimal digits. */
  function ParseNat(s: string): nat
    requires AllDigits(s)
    decreases |s|
  {
    if s == [] then 0 else ParseNat(s[..|s| - 1]) * 10 + (s[|s| - 1] as int - '0' as int)
  }

  lemma {:induction false} ParseNatToString(n: nat)
    ensures ParseNat(NatToString(n)) == n
    decreases n
  {
    if n >= 10 {
      var s := NatToString(n);
      assert s[..|s| - 1] == NatToString(n / 10);
      ParseNatToString(n / 10);
    }
  }

  /** Only a single digit can be a zero at the front. */
  lemma {:induction false} NoLeadingZero(n: nat)
    ensures n >= 10 ==> NatToString(n)[0] != '0'
    decreases n
  {
    if n >= 10 {
      NoLeadingZero(n / 10);
      assert NatToString(n)[0] == NatToString(n / 10)[0];
    }
  }

  /**
   * QString::arg of an int: decimal without leading zeros, with a minus sign
   * when negative.
   */
  function IntToString(n: int): (s: string)
    ensures n >= 0 ==> |s| >= 1 && (|s| > 1 ==> s[0] != '0') && AllDigits(s) && ParseNat(s) == n
    ensures n < 0 ==> |s| >= 2 && s[0] == '-' && (|s| > 2 ==> s[1] != '0')
                      && AllDigits(s[1..]) && ParseNat(s[1..]) == -n
  {
    if n < 0 then
      var s := "-" + NatToString(-n);
      ParseNatToString(-n);
      NoLeadingZero(-n);
      assert s[1..] == NatToString(-n);
      s
    else
      ParseNatToString(n);
      NoLeadingZero(n);
      NatToString(n)
  }

  /** The minute field shown: whole minutes, with whole hours dropped. */
  function MinuteField(seconds: int): int
  {
    TruncRem(TruncDiv(seconds, 60), 60)
  }

  /** The second field shown. */
  function SecondField(seconds: int): int
  {
    TruncRem(seconds, 60)
  }

  /** formatTimeDisplay: the text the time label is set to. */
  function FormatTimeDisplay(seconds: int): (text: string)
    ensures |text| >= 2 && text[|text| - 1] == 's'
  {
    var minutes := TruncDiv(seconds, 60);
    var remainingSeconds := TruncRem(seconds, 60);
    var shownMinutes := TruncRem(minutes, 60);
    if shownMinutes > 0 then IntToString(shownMinutes) + "m " + IntToString(remainingSeconds) + "s"
    else IntToString(remainingSeconds) + "s"
  }

  /** For non-negative seconds the fields are (seconds / 60) % 60 and seconds % 60, both in [0, 59]. */
  lemma FieldsOfNonNegative(seconds: int)
    requires seconds >= 0
    ensures MinuteField(seconds) == (seconds / 60) % 60 && 0 <= MinuteField(seconds) <= 59
    ensures SecondField(seconds) == seconds % 60 && 0 <= SecondField(seconds) <= 59
  {
  }

  /** The two shapes of the label. */
  lemma FormatShape(seconds: int)
    requires seconds >= 0
    ensures MinuteField(seconds) > 0 ==>
      FormatTimeDisplay(seconds) == NatToString(MinuteField(seconds)) + "m " + NatToString(SecondField(seconds)) + "s"
    ensures MinuteField(seconds) == 0 ==>
      FormatTimeDisplay(seconds) == NatToString(SecondField(seconds)) + "s"
  {
  }

  /** Whole hours are not shown: a time and the same time an hour later look the same. */
  lemma HoursDiscarded(seconds: int)
    requires seconds >= 0
    ensures FormatTimeDisplay(seconds + 3600) == FormatTimeDisplay(seconds)
  {
    var later := seconds + 3600;
    FieldsOfNonNegative(seconds);
    FieldsOfNonNegative(later);
    assert later / 60 == seconds / 60 + 60;
    assert MinuteField(later) == MinuteField(seconds);
    assert SecondField(later) == SecondField(seconds);
    FormatShape(seconds);
    FormatShape(later);
  }

  /** The default 25 minutes, and the hour lost from 3600 s and 3660 s. */
  lemma FormatExamples()
    ensures FormatTimeDisplay(1500) == "25m 0s"
    ensures FormatTimeDisplay(3600) == "0s"
    ensures FormatTimeDisplay(3660) == "1m 0s"
  {
    assert IntToString(25) == "25" by {
      assert NatToString(2) == "2" && NatToString(25) == NatToString(2) + ['5'];
    }
    assert IntToString(0) == "0" && IntToString(1) == "1";
  }

  /** The length of the run of digits a string starts with. */
  function DigitRun(s: string): (n: nat)
    ensures n <= |s|
    ensures AllDigits(s[..n])
    ensures n < |s| ==> !IsDigit(s[n])
    decreases |s|
  {
    if s == [] || !IsDigit(s[0]) then 0
    else
      var n := 1 + DigitRun(s[1..]);
      assert s[..n] == [s[0]] + s[1..][..n - 1];
      n
  }

  /** Reads a label back into its minute and second fields. */
  function ParseTimeDisplay(text: string): Option<(int, int)>
  {
    if |text| == 0 || text[|text| - 1] != 's' then None
    else
      var body := text[..|text| - 1];
      var i := DigitRun(body);
      if i == 0 then None
      else if i == |body| then Some((0, ParseNat(body)))
      else if i + 2 < |body| && body[i] == 'm' && body[i + 1] == ' '
              && DigitRun(body[i + 2..]) == |body| - (i + 2) then
        assert body[i + 2..][..|body| - (i + 2)] == body[i + 2..];
        Some((ParseNat(body[..i]), ParseNat(body[i + 2..])))
      else None
  }

  lemma {:induction false} DigitRunOf(digits: string, rest: string)
    requires AllDigits(digits)
    requires rest == [] || !IsDigit(rest[0])
    ensures DigitRun(digits + rest) == |digits|
    decreases |digits|
  {
    if digits != [] {
      assert (digits + rest)[1..] == digits[1..] + rest;
      DigitRunOf(digits[1..], rest);
    } else {
      assert digits + rest == rest;
    }
  }

  /** The label of a non-negative time reads back as exactly its minute and second fields. */
  lemma FormatParseRoundTrip(seconds: int)
    requires seconds >= 0
    ensures ParseTimeDisplay(FormatTimeDisplay(seconds)) == Some((MinuteField(seconds), SecondField(seconds)))
  {
    var m := MinuteField(seconds);
    var sec := SecondField(seconds);
    var ss := NatToString(sec);
    var text := FormatTimeDisplay(seconds);
    ParseNatToString(sec);
    if m > 0 {
      var ms := NatToString(m);
      var body := ms + "m " + ss;
      assert text == body + "s";
      assert text[..|text| - 1] == body;
      DigitRunOf(ms, "m " + ss);
      assert body == ms + ("m " + ss);
      assert body[..|ms|] == ms;
      assert body[|ms| + 2..] == ss;
      DigitRunOf(ss, []);
      assert ss + [] == ss;
      ParseNatToString(m);
    } else {
      assert text == ss + "s";
      assert text[..|text| - 1] == ss;
      DigitRunOf(ss, []);
      assert ss + [] == ss;
    }
  }

  /** Within the first hour, different times give different labels. */
  lemma DistinctWithinHour(a: int, b: int)
    requires 0 <= a < 3600 && 0 <= b < 3600 && a != b
    ensures FormatTimeDisplay(a) != FormatTimeDisplay(b)
  {
    FormatParseRoundTrip(a);
    FormatParseRoundTrip(b);
    FieldsWithinHour(a);
    FieldsWithinHour(b);
  }

  /** Below an hour, the two fields determine the time. */
  lemma FieldsWithinHour(seconds: int)
    requires 0 <= seconds < 3600
    ensures seconds == 60 * MinuteField(seconds) + SecondField(seconds)
  {
    FieldsOfNonNegative(seconds);
    assert seconds / 60 < 60;
    assert MinuteField(seconds) == seconds / 60;
  }
}
