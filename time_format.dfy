/**
 * The time label of the video player: `FormatTime` writes a non-negative
 * number of seconds as minutes and seconds, each with the custom numeric
 * format "00" (at least two digits, zero-padded), separated by ':'.
 * `ParseClock` reads such a label back, so that the format is pinned down
 * by a round trip rather than by its own definition.
 */
module TimeFormat {
  import opened Runtime

  predicate IsDigit(c: char) {
    '0' <= c <= '9'
  }

  predicate AllDigits(s: string) {
    forall i :: 0 <= i < |s| ==> IsDigit(s[i])
  }

  function DigitChar(d: nat): (c: char)
    requires d < 10
    ensures IsDigit(c) && c as int - '0' as int == d
  {
    ('0' as int + d) as char
  }

  /** The number a string of decimal digits denotes (most significant first). */
  function DigitsValue(s: string): nat
    requires AllDigits(s)
  {
    if s == [] then 0 else 10 * DigitsValue(s[..|s| - 1]) + (s[|s| - 1] as int - '0' as int)
  }

  /** `n.ToString()`: the shortest decimal numeral of `n`. */
  function Decimal(n: nat): (s: string)
    ensures 1 <= |s| && AllDigits(s)
    ensures |s| == 1 <==> n < 10
    ensures n < 100 ==> |s| <= 2
    ensures s[0] == '0' <==> n == 0
  {
    if n < 10 then [DigitChar(n)] else Decimal(n / 10) + [DigitChar(n % 10)]
  }

  lemma {:induction false} DecimalValue(n: nat)
    ensures DigitsValue(Decimal(n)) == n
  {
    if n >= 10 {
      var s := Decimal(n);
      assert s[..|s| - 1] == Decimal(n / 10);
      DecimalValue(n / 10);
    }
  }

  /** A leading zero does not change the value of a numeral. */
  lemma {:induction false} LeadingZeroValue(s: string)
    requires AllDigits(s)
    ensures AllDigits("0" + s) && DigitsValue("0" + s) == DigitsValue(s)
  {
    if s != [] {
      var z := "0" + s;
      assert z[..|z| - 1] == "0" + s[..|s| - 1];
      LeadingZeroValue(s[..|s| - 1]);
    }
  }

  /**
   * `n.ToString("00")`: a numeral of `n` at least two digits wide, with a
   * zero in front only when `n` has a single digit.
   */
  function Pad2(n: nat): (s: string)
    ensures AllDigits(s) && |s| >= 2
    ensures n < 100 ==> |s| == 2
    ensures |s| > 2 ==> s[0] != '0'
  {
    var d := Decimal(n);
    if |d| < 2 then "0" + d else d
  }

  /** The "00" numeral of `n` denotes `n`. */
  lemma Pad2Value(n: nat)
    ensures DigitsValue(Pad2(n)) == n
  {
    DecimalValue(n);
    LeadingZeroValue(Decimal(n));
  }

  /** "MM:SS" of a whole number of seconds. */
  function FormatSeconds(total: nat): string {
    Pad2(total / 60) + ":" + Pad2(total % 60)
  }

  /**
   * Reads a label back: at least two minute digits, ':', exactly two second
   * digits denoting less than 60.  `None` for anything else.
   */
  function ParseClock(clock: string): (r: Option<nat>)
    ensures r.Some? ==> (&& |clock| >= 5 && clock[|clock| - 3] == ':'
                         && AllDigits(clock[..|clock| - 3]) && AllDigits(clock[|clock| - 2..])
                         && DigitsValue(clock[|clock| - 2..]) < 60)
  {
    if |clock| >= 5 && clock[|clock| - 3] == ':'
       && AllDigits(clock[..|clock| - 3]) && AllDigits(clock[|clock| - 2..])
       && DigitsValue(clock[|clock| - 2..]) < 60
    then Some(60 * DigitsValue(clock[..|clock| - 3]) + DigitsValue(clock[|clock| - 2..]))
    else None
  }

  /**
   * The label of `total` seconds is two second digits worth `total % 60`
   * (always below 60) after a ':' and the minutes `total / 60`, and reading
   * it back gives `total`.
   */
  lemma FormatSecondsRoundTrip(total: nat)
    ensures var clock := FormatSeconds(total);
      && |clock| >= 5 && clock[|clock| - 3] == ':'
      && AllDigits(clock[..|clock| - 3]) && DigitsValue(clock[..|clock| - 3]) == total / 60
      && AllDigits(clock[|clock| - 2..]) && DigitsValue(clock[|clock| - 2..]) == total % 60
      && ParseClock(clock) == Some(total)
  {
    var clock := FormatSeconds(total);
    var minutes, seconds := Pad2(total / 60), Pad2(total % 60);
    Pad2Value(total / 60);
    Pad2Value(total % 60);
    assert clock[..|clock| - 3] == minutes;
    assert clock[|clock| - 2..] == seconds;
  }

  /** `Mathf.FloorToInt` of a non-negative value. */
  function FloorNat(x: real): (n: nat)
    requires x >= 0.0
    ensures n as real <= x < n as real + 1.0
  {
    x.Floor
  }

  /** A value between n and n + 1 has floor n. */
  lemma FloorIs(x: real, n: int)
    requires n as real <= x < n as real + 1.0
    ensures x.Floor == n
  {
  }

  /**
   * C#'s `%` on floating-point values: the remainder of the quotient
   * rounded toward zero.
   */
  function FloatRemainder(x: real, y: real): real
    requires y != 0.0
  {
    var q := x / y;
    var truncated := if q >= 0.0 then q.Floor else -((-q).Floor);
    x - y * truncated as real
  }

  /**
   * The remainder differs from the dividend by a whole multiple of the
   * divisor; for a positive divisor (the player only divides by 60) it also
   * has the sign of the dividend and is smaller than the divisor in size.
   */
  lemma FloatRemainderBounds(x: real, y: real)
    requires y != 0.0
    ensures var r := FloatRemainder(x, y);
      && ((x - r) / y).Floor as real == (x - r) / y
      && (0.0 <= x && 0.0 < y ==> 0.0 <= r < y)
      && (x < 0.0 && 0.0 < y ==> -y < r <= 0.0)
  {
    var q := x / y;
    var n := if q >= 0.0 then q.Floor else -((-q).Floor);
    var t := n as real;
    var r := x - y * t;
    assert FloatRemainder(x, y) == r;
    assert x - r == y * t;
    CancelFactor(y, t, x - r);
    assert t.Floor == n;
    if 0.0 < y {
      if q >= 0.0 {
        assert t <= q < t + 1.0;
      } else {
        assert t - 1.0 < q <= t;
      }
      RemainderBounds(x, y, q, t);
    }
  }

  /** The remainder left by a quotient within one unit of the exact one. */
  lemma RemainderBounds(x: real, y: real, q: real, t: real)
    requires 0.0 < y && q == x / y
    ensures 0.0 <= q && t <= q < t + 1.0 ==> 0.0 <= x - y * t < y
    ensures q < 0.0 && t - 1.0 < q <= t ==> -y < x - y * t <= 0.0
  {
    var p := y * (q - t);
    assert x - y * t == p by {
      assert x == y * q;
    }
    if 0.0 <= q && t <= q < t + 1.0 {
      ScaledFraction(y, q - t, p);
    } else if q < 0.0 && t - 1.0 < q <= t {
      ScaledFraction(y, t - q, -p);
    }
  }

  /** Dividing a multiple of `y` by `y` gives back the factor. */
  lemma CancelFactor(y: real, t: real, p: real)
    requires y != 0.0 && p == y * t
    ensures p / y == t
  {
  }

  /** A fraction in [0, 1) of a positive amount lies in [0, amount). */
  lemma ScaledFraction(y: real, d: real, p: real)
    requires 0.0 < y && 0.0 <= d < 1.0 && p == y * d
    ensures 0.0 <= p < y
  {
    assert y - p == y * (1.0 - d);
    assert 0.0 < y * (1.0 - d);
  }

  /**
   * `FormatTime(timeInSeconds)`: minutes `FloorToInt(t / 60)` and seconds
   * `FloorToInt(t % 60)`, both formatted "00" around a ':', so five
   * characters below 100 minutes.  Negative times are outside what the
   * player reports.
   */
  function FormatTime(timeInSeconds: real): (clock: string)
    requires timeInSeconds >= 0.0
    ensures 5 <= |clock| && clock[|clock| - 3] == ':'
    ensures timeInSeconds < 6000.0 ==> |clock| == 5
  {
    var minutes := FloorNat(timeInSeconds / 60.0);
    var seconds := FloorNat(FloatRemainder(timeInSeconds, 60.0));
    Pad2(minutes) + ":" + Pad2(seconds)
  }

  /** The label depends only on the whole seconds elapsed. */
  lemma FormatTimeWholeSeconds(t: real)
    requires t >= 0.0
    ensures FormatTime(t) == FormatSeconds(t.Floor)
  {
    var s := FloorNat(t);
    var q, rem := s / 60, s % 60;
    assert s == 60 * q + rem;
    FloorIs(t / 60.0, q);
    assert FloatRemainder(t, 60.0) == t - 60.0 * q as real;
    FloorIs(t - 60.0 * q as real, rem);
  }

  /** Reading the label of any non-negative time gives back its whole seconds. */
  lemma FormatTimeRoundTrip(t: real)
    requires t >= 0.0
    ensures ParseClock(FormatTime(t)) == Some(t.Floor)
  {
    FormatTimeWholeSeconds(t);
    FormatSecondsRoundTrip(t.Floor);
  }

  lemma FormatTimeExample125()
    ensures FormatTime(125.0) == "02:05"
  {
    FormatTimeWholeSeconds(125.0);
    FloorIs(125.0, 125);
    assert Decimal(2) == "2" && Decimal(5) == "5";
  }

  lemma FormatTimeExampleBelowMinute()
    ensures FormatTime(59.999) == "00:59"
  {
    FormatTimeWholeSeconds(59.999);
    FloorIs(59.999, 59);
    assert Decimal(0) == "0";
    assert Decimal(5) == "5" && Decimal(59) == "59";
  }

  /** Minutes are not wrapped into hours; a third digit appears instead. */
  lemma FormatSecondsExampleHundredMinutes()
    ensures FormatSeconds(6000) == "100:00"
  {
    assert Decimal(1) == "1";
    assert Decimal(10) == Decimal(1) + "0";
    assert Decimal(100) == Decimal(10) + "0";
    assert Pad2(100) == "100";
    assert Pad2(0) == "00";
  }
}
