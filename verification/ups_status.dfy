/** The UPS status codes the display understands, and the conversion from the
    raw `ups.status` string reported by the NUT daemon (the Python enum
    `UPSStatus` and the call `UPSStatus(code)`). */
module Status {
  import opened Wrappers

  /** One member per enum member, in declaration order. */
  datatype UpsStatus =
    | Online
    | OnlineLowBattery
    | OnlineLowVoltage
    | OnlineCharge
    | OnlineChargeLowBattery
    | OnlineDischarge
    | OnlineDischargeLowBattery
    | BatteryDischarge
    | BatteryDischargeLowBattery
    | BatteryLowBattery
    | ReplaceBattery
    | Bypass

  /** The exception `UPSStatus(code)` raises for a string that is not the
      value of any member. */
  datatype Error = ValueError(code: string)

  /** The member's `.value`: the NUT status string it stands for. */
  function Value(s: UpsStatus): string
  {
    match s
    case Online => "OL"
    case OnlineLowBattery => "OL LB"
    case OnlineLowVoltage => "OL BOOST"
    case OnlineCharge => "OL CHRG"
    case OnlineChargeLowBattery => "OL CHRG LB"
    case OnlineDischarge => "OL DISCHRG"
    case OnlineDischargeLowBattery => "OL DISCHRG LB"
    case BatteryDischarge => "OB DISCHRG"
    case BatteryDischargeLowBattery => "OB DISCHRG LB"
    case BatteryLowBattery => "OB LB"
    case ReplaceBattery => "RB"
    case Bypass => "BYPASS"
  }

  /** The members in declaration order, as the enum iterates them. */
  const Members: seq<UpsStatus> :=
    [Online, OnlineLowBattery, OnlineLowVoltage, OnlineCharge, OnlineChargeLowBattery,
     OnlineDischarge, OnlineDischargeLowBattery, BatteryDischarge,
     BatteryDischargeLowBattery, BatteryLowBattery, ReplaceBattery, Bypass]

  /** Every member appears in `Members`, exactly once. */
  lemma MembersComplete(s: UpsStatus)
    ensures s in Members
    ensures |Members| == 12
    ensures forall i, j :: 0 <= i < j < |Members| ==> Members[i] != Members[j]
  {
  }

  /** Two members with the same value are the same member: the enum has no
      aliases, so the value identifies the member. */
  lemma ValueInjective(s: UpsStatus, t: UpsStatus)
    ensures Value(s) == Value(t) ==> s == t
  {
    if s != t {
      var a, b := Value(s), Value(t);
      if |a| == |b| {
        // Values of equal length already differ in one of these places.
        assert a[0] != b[0] || a[1] != b[1] || (|a| > 3 && a[3] != b[3]);
      }
    }
  }

  /** Every value starts with `O`, `R` or `B`. */
  lemma ValueFirstChar(s: UpsStatus)
    ensures |Value(s)| >= 2
    ensures Value(s)[0] in {'O', 'R', 'B'}
  {
  }

  /** Value lookup over a list of members: the first member whose value is
      `code`, if any. */
  function Lookup(members: seq<UpsStatus>, code: string): (r: Option<UpsStatus>)
    ensures r.Some? ==> r.value in members && Value(r.value) == code
    ensures r.None? ==> forall i :: 0 <= i < |members| ==> Value(members[i]) != code
  {
    if |members| == 0 then None
    else if Value(members[0]) == code then Some(members[0])
    else
      var r := Lookup(members[1..], code);
      assert forall i :: 1 <= i < |members| ==> members[i] == members[1..][i - 1];
      r
  }

  /** `UPSStatus(code)`: the member whose value is `code`, or `ValueError`. */
  function Parse(code: string): (r: Result<UpsStatus, Error>)
    ensures r.Success? ==> Value(r.value) == code
    ensures r.Failure? <==> forall s: UpsStatus :: Value(s) != code
    ensures r.Failure? ==> r.error == ValueError(code)
  {
    match Lookup(Members, code)
    case Some(s) => Success(s)
    case None =>
      assert forall s: UpsStatus :: Value(s) != code by {
        forall s: UpsStatus ensures Value(s) != code {
          MembersComplete(s);
        }
      }
      Failure(ValueError(code))
  }

  /** Parsing a member's value gives back that member. */
  lemma ParseValue(s: UpsStatus)
    ensures Parse(Value(s)) == Success(s)
  {
    var r := Parse(Value(s));
    assert r.Success?;
    ValueInjective(r.value, s);
  }

  /** The space-separated words of a status string. NUT reports the status as
      a list of flags separated by single spaces (`OL`, `OB`, `LB`, `CHRG`,
      `DISCHRG`, `BOOST`, `RB`, `BYPASS`, ...). */
  function Words(code: string): (ws: seq<string>)
    ensures |ws| >= 1
  {
    if |code| == 0 then [""]
    else
      var rest := Words(code[1..]);
      if code[0] == ' ' then [""] + rest else [[code[0]] + rest[0]] + rest[1..]
  }

  /** A string without a space is a single word. */
  lemma {:induction false} WordsOfWord(w: string)
    requires ' ' !in w
    ensures Words(w) == [w]
  {
    if |w| > 0 {
      WordsOfWord(w[1..]);
      assert [w[0]] + w[1..] == w;
    }
  }

  /** A word followed by a space contributes exactly that word. */
  lemma {:induction false} WordsSplit(w: string, rest: string)
    requires ' ' !in w
    ensures Words(w + " " + rest) == [w] + Words(rest)
  {
    var s := w + " " + rest;
    if |w| == 0 {
      assert s[1..] == rest;
    } else {
      assert s[1..] == w[1..] + " " + rest;
      WordsSplit(w[1..], rest);
      assert [w[0]] + w[1..] == w;
    }
  }

  /** The NUT flags each member's value is made of. */
  lemma ValueWords(s: UpsStatus)
    ensures Words(Value(s)) ==
      match s
      case Online => ["OL"]
      case OnlineLowBattery => ["OL", "LB"]
      case OnlineLowVoltage => ["OL", "BOOST"]
      case OnlineCharge => ["OL", "CHRG"]
      case OnlineChargeLowBattery => ["OL", "CHRG", "LB"]
      case OnlineDischarge => ["OL", "DISCHRG"]
      case OnlineDischargeLowBattery => ["OL", "DISCHRG", "LB"]
      case BatteryDischarge => ["OB", "DISCHRG"]
      case BatteryDischargeLowBattery => ["OB", "DISCHRG", "LB"]
      case BatteryLowBattery => ["OB", "LB"]
      case ReplaceBattery => ["RB"]
      case Bypass => ["BYPASS"]
  {
    // The words are bound to variables so that the solver reasons through
    // the lemmas above instead of unfolding `Words` on literals.
    var ol, ob, lb, boost, chrg, dischrg := "OL", "OB", "LB", "BOOST", "CHRG", "DISCHRG";
    match s
    case Online => var w := ol; WordsOfWord(w);
    case OnlineLowBattery => TwoWords(s, ol, lb);
    case OnlineLowVoltage => TwoWords(s, ol, boost);
    case OnlineCharge => TwoWords(s, ol, chrg);
    case OnlineChargeLowBattery => ThreeWords(s, ol, chrg, lb);
    case OnlineDischarge => TwoWords(s, ol, dischrg);
    case OnlineDischargeLowBattery => ThreeWords(s, ol, dischrg, lb);
    case BatteryDischarge => TwoWords(s, ob, dischrg);
    case BatteryDischargeLowBattery => ThreeWords(s, ob, dischrg, lb);
    case BatteryLowBattery => TwoWords(s, ob, lb);
    case ReplaceBattery => var w := "RB"; WordsOfWord(w);
    case Bypass => var w := "BYPASS"; WordsOfWord(w);
  }

  /** A two-flag value splits into its two flags. */
  lemma TwoWords(s: UpsStatus, a: string, b: string)
    requires ' ' !in a && ' ' !in b
    requires Value(s) == a + " " + b
    ensures Words(Value(s)) == [a, b]
  {
    WordsSplit(a, b);
    WordsOfWord(b);
  }

  /** A three-flag value splits into its three flags. */
  lemma ThreeWords(s: UpsStatus, a: string, b: string, c: string)
    requires ' ' !in a && ' ' !in b && ' ' !in c
    requires Value(s) == a + " " + (b + " " + c)
    ensures Words(Value(s)) == [a, b, c]
  {
    WordsSplit(a, b + " " + c);
    WordsSplit(b, c);
    WordsOfWord(c);
  }
}
