/** The three independent facets the display derives from a status member:
    `ups_online_status`, `ups_charge_status` and `ups_other_status`. Each is a
    membership test against a fixed list of members; the contracts state what
    the lists mean in terms of the NUT flags of the status string. */
module Classify {
  import Status
  import Wrappers

  datatype OnlineStatus = Online | Offline | Unknown
  datatype ChargeStatus = Charging | Discharging | NotCharging
  datatype OtherStatus = LowBattery | LowVoltage | NoCondition

  /** The three facets of one status. */
  datatype Facets = Facets(online: OnlineStatus, charge: ChargeStatus, other: OtherStatus)

  const OnlineMembers: seq<Status.UpsStatus> :=
    [Status.Online, Status.OnlineLowBattery, Status.OnlineLowVoltage, Status.OnlineCharge,
     Status.OnlineChargeLowBattery, Status.OnlineDischarge, Status.OnlineDischargeLowBattery]
  const OfflineMembers: seq<Status.UpsStatus> :=
    [Status.BatteryDischarge, Status.BatteryDischargeLowBattery, Status.BatteryLowBattery]
  const ChargingMembers: seq<Status.UpsStatus> :=
    [Status.OnlineCharge, Status.OnlineChargeLowBattery]
  const DischargingMembers: seq<Status.UpsStatus> :=
    [Status.BatteryDischarge, Status.BatteryDischargeLowBattery, Status.OnlineDischarge,
     Status.OnlineDischargeLowBattery]
  const LowBatteryMembers: seq<Status.UpsStatus> :=
    [Status.OnlineLowBattery, Status.OnlineChargeLowBattery, Status.OnlineDischargeLowBattery,
     Status.BatteryDischargeLowBattery, Status.BatteryLowBattery]

  /** `ups_online_status`: online when the UPS reports line power (`OL`),
      offline when it runs on battery (`OB`), unknown for the rest. */
  function OnlineStatusOf(s: Status.UpsStatus): (r: OnlineStatus)
    ensures r == Online <==> Status.Words(Status.Value(s))[0] == "OL"
    ensures r == Offline <==> Status.Words(Status.Value(s))[0] == "OB"
  {
    Status.ValueWords(s);
    if s in OnlineMembers then Online
    else if s in OfflineMembers then Offline
    else Unknown
  }

  /** `ups_charge_status`: charging exactly for a `CHRG` flag, discharging
      exactly for a `DISCHRG` flag. */
  function ChargeStatusOf(s: Status.UpsStatus): (r: ChargeStatus)
    ensures r == Charging <==> "CHRG" in Status.Words(Status.Value(s))
    ensures r == Discharging <==> "DISCHRG" in Status.Words(Status.Value(s))
  {
    Status.ValueWords(s);
    if s in ChargingMembers then Charging
    else if s in DischargingMembers then Discharging
    else NotCharging
  }

  /** `ups_other_status`: low voltage exactly for a `BOOST` flag, low battery
      exactly for an `LB` flag. The `BOOST` test comes first, but no member
      carries both flags. */
  function OtherStatusOf(s: Status.UpsStatus): (r: OtherStatus)
    ensures r == LowVoltage <==> "BOOST" in Status.Words(Status.Value(s))
    ensures r == LowBattery <==> "LB" in Status.Words(Status.Value(s))
  {
    Status.ValueWords(s);
    if s == Status.OnlineLowVoltage then LowVoltage
    else if s in LowBatteryMembers then LowBattery
    else NoCondition
  }

  /** All three facets, each computed on its own and each read off the NUT
      flags of the status string: line power or battery from the first
      flag, the charge facet from `CHRG` or `DISCHRG`, the other facet from
      `BOOST` or `LB`. */
  function Classify(s: Status.UpsStatus): (f: Facets)
    ensures var flags := Status.Words(Status.Value(s));
      && (f.online == Online <==> flags[0] == "OL")
      && (f.online == Offline <==> flags[0] == "OB")
      && (f.charge == Charging <==> "CHRG" in flags)
      && (f.charge == Discharging <==> "DISCHRG" in flags)
      && (f.other == LowVoltage <==> "BOOST" in flags)
      && (f.other == LowBattery <==> "LB" in flags)
  {
    Facets(OnlineStatusOf(s), ChargeStatusOf(s), OtherStatusOf(s))
  }

  /** The online facet, member by member: seven online members, three
      offline members, and `RB` and `BYPASS` unknown. */
  lemma OnlineTable(s: Status.UpsStatus)
    ensures OnlineStatusOf(s) == Online <==>
      s in {Status.Online, Status.OnlineLowBattery, Status.OnlineLowVoltage, Status.OnlineCharge,
            Status.OnlineChargeLowBattery, Status.OnlineDischarge, Status.OnlineDischargeLowBattery}
    ensures OnlineStatusOf(s) == Offline <==>
      s in {Status.BatteryDischarge, Status.BatteryDischargeLowBattery, Status.BatteryLowBattery}
    ensures OnlineStatusOf(s) == Unknown <==> s in {Status.ReplaceBattery, Status.Bypass}
  {
  }

  /** The charge facet, member by member. */
  lemma ChargeTable(s: Status.UpsStatus)
    ensures ChargeStatusOf(s) == Charging <==>
      s in {Status.OnlineCharge, Status.OnlineChargeLowBattery}
    ensures ChargeStatusOf(s) == Discharging <==>
      s in {Status.BatteryDischarge, Status.BatteryDischargeLowBattery, Status.OnlineDischarge,
            Status.OnlineDischargeLowBattery}
  {
  }

  /** The other facet, member by member. */
  lemma OtherTable(s: Status.UpsStatus)
    ensures OtherStatusOf(s) == LowVoltage <==> s == Status.OnlineLowVoltage
    ensures OtherStatusOf(s) == LowBattery <==>
      s in {Status.OnlineLowBattery, Status.OnlineChargeLowBattery, Status.OnlineDischargeLowBattery,
            Status.BatteryDischargeLowBattery, Status.BatteryLowBattery}
  {
  }

  /** A charging UPS is on line power; a UPS on battery is discharging. */
  lemma ChargingImpliesOnline(s: Status.UpsStatus)
    ensures ChargeStatusOf(s) == Charging ==> OnlineStatusOf(s) == Online
    ensures OnlineStatusOf(s) == Offline ==> ChargeStatusOf(s) != Charging
    ensures OnlineStatusOf(s) == Offline && OtherStatusOf(s) != LowBattery ==>
              ChargeStatusOf(s) == Discharging
  {
    Status.ValueWords(s);
  }

  /** The facets are independent: the status string `OL DISCHRG LB` is on
      line power, discharging and low on battery at once. */
  lemma FacetsOfStatusString(code: string)
    requires code == "OL DISCHRG LB"
    ensures Status.Parse(code) == Wrappers.Success(Status.OnlineDischargeLowBattery)
    ensures Classify(Status.Parse(code).value) == Facets(Online, Discharging, LowBattery)
  {
    assert code == Status.Value(Status.OnlineDischargeLowBattery);
    Status.ParseValue(Status.OnlineDischargeLowBattery);
  }
}
