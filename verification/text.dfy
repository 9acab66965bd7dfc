/** The text lines of the display: the status line, the battery line and the
    remaining-runtime line, with Python's `str` of an integer and its
    `round` of the runtime in minutes. */
module Text {
  import opened Wrappers
  import Classify

  predicate IsDigit(c: char)
  {
    '0' <= c <= '9'
  }

  predicate AllDigits(s: string)
  {
    forall i :: 0 <= i < |s| ==> IsDigit(s[i])
  }

  function DigitChar(d: nat): (c: char)
    requires d < 10
    ensures IsDigit(c) && c as int - '0' as int == d
  {
    ('0' as int + d) as char
  }

  /** Decimal digits of a natural number, most significant first, without
      leading zeros. */
  function NatToString(n: nat): (s: string)
    ensures |s| >= 1 && AllDigits(s)
    ensures s[0] == '0' ==> n == 0 && |s| == 1
    decreases n
  {
    if n < 10 then [DigitChar(n)] else NatToString(n / 10) + [DigitChar(n % 10)]
  }

  /** The number a string of decimal digits denotes. */
  function DigitsValue(s: string): nat
    requires AllDigits(s)
    decreases |s|
  {
    if |s| == 0 then 0
    else 10 * DigitsValue(s[..|s| - 1]) + (s[|s| - 1] as int - '0' as int)
  }

  /** Reading back the digits of `n` gives `n`. */
  lemma {:induction false} NatToStringRoundTrip(n: nat)
    ensures DigitsValue(NatToString(n)) == n
  {
    var s := NatToString(n);
    if n >= 10 {
      NatToStringRoundTrip(n / 10);
      assert s[..|s| - 1] == NatToString(n / 10);
    }
  }

  /** A decimal integer with an optional leading minus sign. */
  function ParseInt(s: string): Option<int>
  {
    if |s| > 1 && s[0] == '-' && AllDigits(s[1..]) then Some(-(DigitsValue(s[1..]) as int))
    else if |s| > 0 && AllDigits(s) then Some(DigitsValue(s))
    else None
  }

  /** An integer written the one way Python writes it: decimal digits with
      no leading zero (bar "0" itself), after a minus sign when negative,
      and never "-0". */
  predicate Canonical(s: string)
  {
    if |s| > 0 && s[0] == '-' then |s| > 1 && AllDigits(s[1..]) && s[1] != '0'
    else |s| > 0 && AllDigits(s) && (s[0] == '0' ==> |s| == 1)
  }

  /** Python's `str` of an integer: the decimal digits, after a minus sign
      when negative. The string is canonical and reads back as `n`. */
  function IntToString(n: int): (s: string)
    ensures Canonical(s) && ParseInt(s) == Some(n)
    ensures |s| >= 1 && (IsDigit(s[0]) <==> n >= 0)
  {
    if n < 0 then
      NatToStringRoundTrip(-n);
      var s := "-" + NatToString(-n);
      assert s[1..] == NatToString(-n);
      s
    else
      NatToStringRoundTrip(n);
      NatToString(n)
  }

  /** Digits that start with a non-zero digit denote a positive number. */
  lemma {:induction false} LeadingDigitPositive(s: string)
    requires |s| >= 1 && AllDigits(s) && s[0] != '0'
    ensures DigitsValue(s) >= 1
  {
    if |s| > 1 {
      var p := s[..|s| - 1];
      assert p[0] == s[0];
      LeadingDigitPositive(p);
    }
  }

  /** Digits without a leading zero are exactly what `NatToString` writes
      for the number they denote. */
  lemma {:induction false} NatToStringOfDigits(s: string)
    requires |s| >= 1 && AllDigits(s) && (s[0] == '0' ==> |s| == 1)
    ensures NatToString(DigitsValue(s)) == s
  {
    var d := s[|s| - 1] as int - '0' as int;
    if |s| == 1 {
      assert DigitChar(d) as int == s[0] as int;
    } else {
      var p := s[..|s| - 1];
      assert p[0] == s[0];
      NatToStringOfDigits(p);
      LeadingDigitPositive(p);
      var n := DigitsValue(s);
      assert n / 10 == DigitsValue(p) && n % 10 == d;
      assert DigitChar(d) as int == s[|s| - 1] as int;
      assert s == p + [s[|s| - 1]];
    }
  }

  /** Every canonical integer string is what `IntToString` writes for the
      number it denotes. */
  lemma CanonicalIsIntToString(s: string)
    requires Canonical(s)
    ensures ParseInt(s).Some? && IntToString(ParseInt(s).value) == s
  {
    if s[0] == '-' {
      var digits := s[1..];
      NatToStringOfDigits(digits);
      LeadingDigitPositive(digits);
      assert s == "-" + digits;
    } else {
      NatToStringOfDigits(s);
    }
  }

  /** Two canonical strings that denote the same integer are the same
      string, so a canonical string can be compared to `IntToString` by
      its value alone. */
  lemma CanonicalUnique(a: string, b: string)
    requires Canonical(a) && Canonical(b) && ParseInt(a) == ParseInt(b)
    ensures a == b
  {
    CanonicalIsIntToString(a);
    CanonicalIsIntToString(b);
  }

  /** `round(seconds / 60)` with Python's round-half-to-even: the minute
      count nearest to `seconds`, the even one when two are equally near. */
  function RoundMinutes(seconds: int): (m: int)
    ensures -30 <= 60 * m - seconds <= 30
    ensures (60 * m - seconds == 30 || 60 * m - seconds == -30) ==> m % 2 == 0
  {
    var q, r := seconds / 60, seconds % 60;
    if r < 30 then q
    else if r > 30 then q + 1
    else if q % 2 == 0 then q
    else q + 1
  }

  /** The two properties above single out the result: no other minute count
      is as near, or equally near and even. */
  lemma RoundMinutesUnique(seconds: int, m: int)
    requires -30 <= 60 * m - seconds <= 30
    requires (60 * m - seconds == 30 || 60 * m - seconds == -30) ==> m % 2 == 0
    ensures m == RoundMinutes(seconds)
  {
  }

  /** More runtime never shows fewer minutes, and a non-negative runtime
      never shows a negative one. */
  lemma RoundMinutesMonotone(s1: int, s2: int)
    requires s1 <= s2
    ensures RoundMinutes(s1) <= RoundMinutes(s2)
    ensures s1 >= 0 ==> RoundMinutes(s1) >= 0
  {
  }

  /** The tie cases: 90 s and 150 s are both one and a half and two and a
      half minutes away from a whole minute and both show 2. */
  lemma RoundMinutesExamples()
    ensures RoundMinutes(90) == 2
    ensures RoundMinutes(150) == 2
    ensures RoundMinutes(125) == 2
    ensures RoundMinutes(210) == 4
    ensures RoundMinutes(30) == 0
    ensures RoundMinutes(1800) == 30
  {
  }

  /** The status line: "Online", "Offline" or "Unknown" for the online
      facet, then " (Low Voltage)" or " (Low Battery)" when the other facet
      names a condition. */
  function StatusText(online: Classify.OnlineStatus, other: Classify.OtherStatus): (t: string)
    ensures |t| == (if online == Classify.Online then 6 else 7)
                 + (if other == Classify.NoCondition then 0 else 14)
    ensures online == Classify.Online <==> t[..6] == "Online"
    ensures online == Classify.Offline <==> |t| >= 7 && t[..7] == "Offline"
    ensures online == Classify.Unknown <==> |t| >= 7 && t[..7] == "Unknown"
    ensures other == Classify.LowVoltage <==> |t| >= 14 && t[|t| - 14..] == " (Low Voltage)"
    ensures other == Classify.LowBattery <==> |t| >= 14 && t[|t| - 14..] == " (Low Battery)"
    ensures other == Classify.NoCondition <==> t[|t| - 1] != ')'
  {
    var head := match online
      case Online => "Online"
      case Offline => "Offline"
      case Unknown => "Unknown";
    var note := match other
      case LowVoltage => " (Low Voltage)"
      case LowBattery => " (Low Battery)"
      case NoCondition => "";
    var t := head + note;
    assert t[..|head|] == head && t[..6] == head[..6];
    assert t[0] == head[0] && t[1] == head[1];
    assert t[|head|..] == note;
    t
  }

  /** Different facets never show the same status line, so the line tells
      both facets apart. */
  lemma StatusTextInjective(o1: Classify.OnlineStatus, x1: Classify.OtherStatus,
                            o2: Classify.OnlineStatus, x2: Classify.OtherStatus)
    ensures StatusText(o1, x1) == StatusText(o2, x2) ==> o1 == o2 && x1 == x2
  {
  }

  /** A UPS on line power with no other condition reads "Online". */
  lemma StatusTextExample()
    ensures StatusText(Classify.Online, Classify.NoCondition) == "Online"
    ensures StatusText(Classify.Offline, Classify.LowBattery) == "Offline (Low Battery)"
  {
  }

  /** The battery line: the charge string as reported, a percent sign, and
      " Charging" or " Discharging" for those charge facets. */
  function BatteryText(chargeText: string, charge: Classify.ChargeStatus): (t: string)
    ensures |t| > |chargeText| && t[..|chargeText|] == chargeText
    ensures charge == Classify.Charging <==> t[|chargeText|..] == "% Charging"
    ensures charge == Classify.Discharging <==> t[|chargeText|..] == "% Discharging"
    ensures charge == Classify.NotCharging <==> t[|chargeText|..] == "%"
  {
    var tail := match charge
      case Charging => "% Charging"
      case Discharging => "% Discharging"
      case NotCharging => "%";
    var t := chargeText + tail;
    assert t[|chargeText|..] == tail;
    t
  }

  /** For a given charge string, the battery line tells the charge facets
      apart. */
  lemma BatteryTextInjective(chargeText: string, c1: Classify.ChargeStatus, c2: Classify.ChargeStatus)
    ensures BatteryText(chargeText, c1) == BatteryText(chargeText, c2) ==> c1 == c2
  {
  }

  /** A charge of "75" with no charge facet reads "75%", and "98" while
      charging reads "98% Charging". */
  lemma BatteryTextExample()
    ensures BatteryText("75", Classify.NotCharging) == "75%"
    ensures BatteryText("98", Classify.Charging) == "98% Charging"
  {
  }

  /** The remaining-runtime line, "Remaining: <minutes> mins"; the minutes
      between the two fixed parts are written canonically and read back as
      the rounded runtime. */
  function RemainingText(seconds: int): (t: string)
    ensures |t| > 16 && t[..11] == "Remaining: " && t[|t| - 5..] == " mins"
    ensures Canonical(t[11..|t| - 5])
    ensures ParseInt(t[11..|t| - 5]) == Some(RoundMinutes(seconds))
  {
    var digits := IntToString(RoundMinutes(seconds));
    var t := "Remaining: " + digits + " mins";
    assert t[11..|t| - 5] == digits;
    t
  }

  /** Half an hour of runtime reads "Remaining: 30 mins". */
  lemma RemainingTextExample()
    ensures RemainingText(1800) == "Remaining: 30 mins"
  {
    var digits := IntToString(30);
    assert digits == "30";
  }
}
