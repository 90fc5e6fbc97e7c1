/**
 * The countdown label of TimerViewController: `totalTime` seconds split into
 * hours, minutes and seconds and rendered with the C format "%02d:%02d:%02d".
 * ParseHms reads such a label back and is the partner that shows the
 * rendering loses nothing.
 */
module Format {
  import opened Optional

  predicate IsDigit(c: char) {
    '0' <= c <= '9'
  }

  predicate AllDigits(s: string) {
    forall i :: 0 <= i < |s| ==> IsDigit(s[i])
  }

  function DigitChar(d: nat): (c: char)
    requires d < 10
    ensures IsDigit(c)
  {
    ('0' as int + d) as char
  }

  function DigitValue(c: char): (d: nat)
    requires IsDigit(c)
    ensures d < 10
  {
    c as int - '0' as int
  }

  /** The decimal digits of `n`, without leading zeros (what "%d" prints for n >= 0). */
  function Decimal(n: nat): (s: string)
    ensures AllDigits(s)
    ensures n < 10 <==> |s| == 1
    ensures n < 100 <==> |s| <= 2
    decreases n
  {
    if n < 10 then [DigitChar(n)] else Decimal(n / 10) + [DigitChar(n % 10)]
  }

  /** The number a string of decimal digits denotes (0 for the empty string). */
  function ValueOf(s: string): nat
    requires AllDigits(s)
    decreases |s|
  {
    if s == [] then 0 else ValueOf(s[..|s| - 1]) * 10 + DigitValue(s[|s| - 1])
  }

  lemma {:induction false} DecimalValue(n: nat)
    ensures ValueOf(Decimal(n)) == n
    decreases n
  {
    if n >= 10 {
      DecimalValue(n / 10);
      var s := Decimal(n);
      assert s[..|s| - 1] == Decimal(n / 10);
    }
  }

  /** "%02d" of a non-negative integer: its digits, left-padded with '0' to width two. */
  function Pad2(n: nat): (s: string)
    ensures AllDigits(s) && |s| >= 2
    ensures n < 100 <==> |s| == 2
  {
    if n < 10 then ['0'] + Decimal(n) else Decimal(n)
  }

  lemma Pad2Value(n: nat)
    ensures ValueOf(Pad2(n)) == n
  {
    DecimalValue(n);
    if n < 10 {
      var s := Pad2(n);
      assert s[..|s| - 1] == ['0'];
    }
  }

  /**
   * The split at TimerViewController.swift:111-113: hours = t / 3600,
   * minutes = (t % 3600) / 60, seconds = t % 60.
   */
  function Hms(t: nat): (r: (nat, nat, nat))
    ensures r.1 < 60 && r.2 < 60
    ensures r.0 * 3600 + r.1 * 60 + r.2 == t
  {
    (t / 3600, (t % 3600) / 60, t % 60)
  }

  /** The split is the only one with minutes and seconds below 60. */
  lemma HmsUnique(t: nat, h: nat, m: nat, s: nat)
    requires m < 60 && s < 60
    requires h * 3600 + m * 60 + s == t
    ensures Hms(t) == (h, m, s)
  {
  }

  /** The countdown label for `t` seconds left ("%02d:%02d:%02d"). */
  function FormatHms(t: nat): (text: string)
    ensures |text| >= 8
    ensures t < 360000 <==> |text| == 8
    ensures text[|text| - 6] == ':' && text[|text| - 3] == ':'
  {
    var (h, m, s) := Hms(t);
    Pad2(h) + ":" + Pad2(m) + ":" + Pad2(s)
  }

  /**
   * Reads a label of the form H..H:MM:SS (two or more hour digits, two minute
   * and two second digits, minutes and seconds below 60) back into seconds.
   */
  function ParseHms(text: string): (r: Option<nat>)
    ensures r.Some? ==> |text| >= 8
  {
    var n := |text|;
    if n < 8 || text[n - 6] != ':' || text[n - 3] != ':' then None
    else
      var hh, mm, ss := text[..n - 6], text[n - 5..n - 3], text[n - 2..];
      if !(AllDigits(hh) && AllDigits(mm) && AllDigits(ss)) then None
      else if ValueOf(mm) >= 60 || ValueOf(ss) >= 60 then None
      else if hh[0] == '0' && |hh| > 2 then None
      else Some(ValueOf(hh) * 3600 + ValueOf(mm) * 60 + ValueOf(ss))
  }

  lemma ParseFormat(t: nat)
    ensures ParseHms(FormatHms(t)) == Some(t)
  {
    var (h, m, s) := Hms(t);
    var hh, mm, ss := Pad2(h), Pad2(m), Pad2(s);
    var text := FormatHms(t);
    var n := |text|;
    assert text == hh + ":" + mm + ":" + ss;
    assert text[..n - 6] == hh;
    assert text[n - 5..n - 3] == mm;
    assert text[n - 2..] == ss;
    Pad2Value(h);
    Pad2Value(m);
    Pad2Value(s);
    if |hh| > 2 {
      assert hh == Decimal(h);
      DecimalLeading(h);
    }
  }

  /** A decimal rendering longer than one digit does not start with '0'. */
  lemma {:induction false} DecimalLeading(n: nat)
    ensures n >= 10 ==> Decimal(n)[0] != '0'
    decreases n
  {
    if n >= 10 {
      DecimalLeading(n / 10);
      if n / 10 < 10 {
        assert Decimal(n / 10) == [DigitChar(n / 10)];
      }
    }
  }

  /** Different remaining times always give different labels. */
  lemma FormatInjective(a: nat, b: nat)
    ensures FormatHms(a) == FormatHms(b) ==> a == b
  {
    ParseFormat(a);
    ParseFormat(b);
  }

  lemma FormatExamples()
    ensures FormatHms(3661) == "01:01:01"
    ensures FormatHms(59) == "00:00:59"
    ensures FormatHms(0) == "00:00:00"
  {
    assert Hms(3661) == (1, 1, 1);
    assert Hms(59) == (0, 0, 59);
    assert Decimal(59) == ['5', '9'];
  }
}
