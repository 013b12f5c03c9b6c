/**
 * The timer text of the recorder widget: `formatTime` turns a number of
 * milliseconds into zero-padded `MM:SS`, with minutes that never roll over
 * into hours. `ParseDecimal` reads the digits back, so the text can be shown
 * to carry exactly the whole seconds of its input.
 */
module TimeFormat {

  predicate IsDigit(c: char) {
    '0' <= c <= '9'
  }

  predicate AllDigits(s: string) {
    forall i :: 0 <= i < |s| ==> IsDigit(s[i])
  }

  /** The character of the decimal digit `d`. */
  function DigitChar(d: nat): (c: char)
    requires d < 10
    ensures IsDigit(c) && c as int - '0' as int == d
  {
    ('0' as int + d) as char
  }

  /** `String(n)` for a non-negative integer: its decimal digits, no leading zero. */
  function Decimal(n: nat): (s: string)
    ensures 1 <= |s| && AllDigits(s)
    ensures n < 10 ==> |s| == 1
    ensures n < 100 ==> |s| <= 2
    ensures n >= 10 ==> |s| >= 2
    ensures n >= 100 ==> |s| >= 3
    ensures |s| > 1 ==> s[0] != '0'
  {
    if n < 10 then [DigitChar(n)] else Decimal(n / 10) + [DigitChar(n % 10)]
  }

  /** The value of a string of decimal digits (the empty string reads as 0). */
  function ParseDecimal(s: string): nat
    requires AllDigits(s)
  {
    if s == [] then 0 else ParseDecimal(s[..|s| - 1]) * 10 + (s[|s| - 1] as int - '0' as int)
  }

  lemma {:induction false} ParseDecimalOfDecimal(n: nat)
    ensures ParseDecimal(Decimal(n)) == n
  {
    if n >= 10 {
      var s := Decimal(n);
      assert s[..|s| - 1] == Decimal(n / 10);
      ParseDecimalOfDecimal(n / 10);
    }
  }

  function Zeros(k: nat): (z: string)
    ensures |z| == k && AllDigits(z)
  {
    seq(k, _ => '0')
  }

  lemma {:induction false} ParseZeros(k: nat)
    ensures ParseDecimal(Zeros(k)) == 0
  {
    if k > 0 {
      assert Zeros(k)[..k - 1] == Zeros(k - 1);
      ParseZeros(k - 1);
    }
  }

  /** Leading zeros do not change the value read. */
  lemma {:induction false} ParseLeadingZeros(k: nat, s: string)
    requires AllDigits(s)
    ensures AllDigits(Zeros(k) + s)
    ensures ParseDecimal(Zeros(k) + s) == ParseDecimal(s)
    decreases |s|
  {
    var t := Zeros(k) + s;
    assert AllDigits(t) by {
      forall i | 0 <= i < |t| ensures IsDigit(t[i]) {
        if i < k { assert t[i] == Zeros(k)[i]; } else { assert t[i] == s[i - k]; }
      }
    }
    if s == [] {
      assert t == Zeros(k);
      ParseZeros(k);
    } else {
      assert t[..|t| - 1] == Zeros(k) + s[..|s| - 1];
      assert t[|t| - 1] == s[|s| - 1];
      ParseLeadingZeros(k, s[..|s| - 1]);
    }
  }

  /** `padStart(2, '0')`: prefix zeros up to length two; longer strings are kept whole. */
  function PadStart2(s: string): (r: string)
    ensures |r| == if |s| >= 2 then |s| else 2
    ensures r[|r| - |s|..] == s
    ensures forall i :: 0 <= i < |r| - |s| ==> r[i] == '0'
  {
    if |s| >= 2 then s else Zeros(2 - |s|) + s
  }

  lemma PadStart2Parse(s: string)
    requires AllDigits(s)
    ensures AllDigits(PadStart2(s)) && ParseDecimal(PadStart2(s)) == ParseDecimal(s)
  {
    if |s| < 2 {
      ParseLeadingZeros(2 - |s|, s);
    }
  }

  /** The text is `<digits>:<two digits>` with at least two digits of minutes. */
  predicate IsClockText(r: string) {
    |r| >= 5 && r[|r| - 3] == ':' && AllDigits(r[..|r| - 3]) && AllDigits(r[|r| - 2..])
  }

  function MinutesPart(r: string): string
    requires IsClockText(r)
  {
    r[..|r| - 3]
  }

  function SecondsPart(r: string): string
    requires IsClockText(r)
  {
    r[|r| - 2..]
  }

  /** The whole number of seconds a clock text stands for. */
  function SecondsShown(r: string): nat
    requires IsClockText(r)
  {
    ParseDecimal(MinutesPart(r)) * 60 + ParseDecimal(SecondsPart(r))
  }

  /** Joining two padded digit strings with ':' gives a clock text with those parts. */
  lemma ClockTextOf(m: string, sec: string)
    requires AllDigits(m) && AllDigits(sec) && |sec| <= 2
    ensures var r := PadStart2(m) + ":" + PadStart2(sec);
      IsClockText(r) && MinutesPart(r) == PadStart2(m) && SecondsPart(r) == PadStart2(sec)
  {
    var pm, ps := PadStart2(m), PadStart2(sec);
    PadStart2Parse(m);
    PadStart2Parse(sec);
    var r := pm + ":" + ps;
    assert |ps| == 2 && |r| == |pm| + 3;
    assert r[..|r| - 3] == pm;
    assert r[|r| - 2..] == ps;
  }

  /**
   * `formatTime(milliseconds)`: whole seconds split into minutes (unbounded)
   * and seconds (below 60), each padded to two digits.
   */
  function FormatTime(ms: nat): string
  {
    var total := ms / 1000;
    PadStart2(Decimal(total / 60)) + ":" + PadStart2(Decimal(total % 60))
  }

  /** The minutes and the seconds are exactly the zero-padded decimals, with no padding beyond two digits. */
  lemma FormatTimeDigits(ms: nat)
    ensures IsClockText(FormatTime(ms))
    ensures MinutesPart(FormatTime(ms)) == PadStart2(Decimal(ms / 1000 / 60))
    ensures SecondsPart(FormatTime(ms)) == PadStart2(Decimal(ms / 1000 % 60))
  {
    var total := ms / 1000;
    ClockTextOf(Decimal(total / 60), Decimal(total % 60));
  }

  /**
   * The text is a clock text whose minutes read back as the whole minutes of
   * the input and whose seconds read back as the seconds below 60; it is
   * exactly five characters long when there are fewer than 100 minutes.
   */
  lemma FormatTimeParts(ms: nat)
    ensures IsClockText(FormatTime(ms))
    ensures ParseDecimal(MinutesPart(FormatTime(ms))) == ms / 1000 / 60
    ensures ParseDecimal(SecondsPart(FormatTime(ms))) == ms / 1000 % 60
    ensures |FormatTime(ms)| == 5 <==> ms / 1000 / 60 < 100
  {
    var total := ms / 1000;
    var m := Decimal(total / 60);
    var sec := Decimal(total % 60);
    ClockTextOf(m, sec);
    PadStart2Parse(m);
    PadStart2Parse(sec);
    ParseDecimalOfDecimal(total / 60);
    ParseDecimalOfDecimal(total % 60);
  }

  /** The text carries exactly the whole seconds of the input: only the milliseconds are lost. */
  lemma FormatTimeRoundTrip(ms: nat)
    ensures IsClockText(FormatTime(ms)) && SecondsShown(FormatTime(ms)) == ms / 1000
  {
    FormatTimeParts(ms);
  }

  /** A later time never shows fewer seconds. */
  lemma FormatTimeMonotone(a: nat, b: nat)
    requires a <= b
    ensures IsClockText(FormatTime(a)) && IsClockText(FormatTime(b))
    ensures SecondsShown(FormatTime(a)) <= SecondsShown(FormatTime(b))
  {
    FormatTimeRoundTrip(a);
    FormatTimeRoundTrip(b);
  }

  lemma PadSingleDigit(d: nat)
    requires d < 10
    ensures PadStart2(Decimal(d)) == ['0', DigitChar(d)]
  {
    assert Zeros(1) == ['0'];
  }

  /** Under ten minutes and with fewer than ten seconds past the minute: `0m:0s`. */
  lemma FormatTimeSingleDigits(ms: nat, m: nat, sec: nat)
    requires ms / 1000 / 60 == m < 10 && ms / 1000 % 60 == sec < 10
    ensures FormatTime(ms) == ['0', DigitChar(m), ':', '0', DigitChar(sec)]
  {
    PadSingleDigit(m);
    PadSingleDigit(sec);
  }

  /** 0 ms shows "00:00". */
  lemma FormatTimeZero()
    ensures FormatTime(0) == "00:00"
  {
    FormatTimeSingleDigits(0, 0, 0);
  }

  /** 61000 ms shows "01:01". */
  lemma FormatTimeOneMinuteOneSecond()
    ensures FormatTime(61000) == "01:01"
  {
    FormatTimeSingleDigits(61000, 1, 1);
  }

  /** 3600000 ms shows "60:00": there is no rollover into hours. */
  lemma FormatTimeOneHour()
    ensures FormatTime(3600000) == "60:00"
  {
    PadSingleDigit(0);
    assert 3600000 / 1000 / 60 == 60 && 3600000 / 1000 % 60 == 0;
    assert Decimal(6) == ['6'] && DigitChar(0) == '0';
    assert Decimal(60) == "60";
    assert PadStart2("60") == "60";
  }

  /** 5000 ms shows "00:05". */
  lemma FormatTimeFiveSeconds()
    ensures FormatTime(5000) == "00:05"
  {
    FormatTimeSingleDigits(5000, 0, 5);
  }
}
