/** The smart-device figures of the SolarWise dashboard: the fixed table of devices the
    device dialog shows, the totals over the enabled ones, and the device count on the
    "Smart Home Setup" card. Icons, tips and the peak-hour and frequency texts of the
    table are display strings and are not modelled. */
module SmartDeviceStats {

  /** The user's smart-device answers: four yes/no devices and a free-text list of others. */
  datatype SmartDevices = SmartDevices(thermostat: bool, washingMachine: bool, dishwasher: bool, evCharger: bool, other: string)

  /** One row of the device table: monthly usage in kWh and monthly cost in rupees. */
  datatype Device = Device(name: string, enabled: bool, energyPerUse: real, monthlyUsage: int, costPerMonth: int)

  /** `devicesList`: the four known devices, each enabled by the user's answer. Each
      device has a different name, a positive monthly usage, and costs 8 rupees per kWh. */
  function DevicesList(sd: SmartDevices): (t: seq<Device>)
    ensures |t| == 4
    ensures forall i, j :: 0 <= i < j < |t| ==> t[i].name != t[j].name
    ensures forall i :: 0 <= i < |t| ==> t[i].monthlyUsage > 0 && t[i].costPerMonth == 8 * t[i].monthlyUsage
  {
    [
      Device("Thermostat", sd.thermostat, 1.5, 36, 288),
      Device("Washing Machine", sd.washingMachine, 2.0, 20, 160),
      Device("Dishwasher", sd.dishwasher, 1.2, 18, 144),
      Device("EV Charger", sd.evCharger, 10.0, 120, 960)
    ]
  }

  /** The devices whose `enabled` flag is set, in table order. */
  function EnabledOnly(ds: seq<Device>): (r: seq<Device>)
    ensures |r| <= |ds|
    ensures forall d :: d in r ==> d in ds && d.enabled
  {
    if |ds| == 0 then []
    else (if ds[0].enabled then [ds[0]] else []) + EnabledOnly(ds[1..])
  }

  /** Filtering distributes over concatenation, so it keeps the table's order. */
  lemma {:induction false} EnabledOnlyConcat(a: seq<Device>, b: seq<Device>)
    ensures EnabledOnly(a + b) == EnabledOnly(a) + EnabledOnly(b)
    decreases |a|
  {
    if |a| == 0 {
      assert a + b == b;
    } else {
      assert (a + b)[1..] == a[1..] + b;
      EnabledOnlyConcat(a[1..], b);
    }
  }

  /** Every enabled device of the input is kept. */
  lemma {:induction false} EnabledOnlyKeepsEnabled(ds: seq<Device>, i: nat)
    requires i < |ds| && ds[i].enabled
    ensures ds[i] in EnabledOnly(ds)
    decreases |ds|
  {
    if i > 0 {
      EnabledOnlyKeepsEnabled(ds[1..], i - 1);
    }
  }

  /** `enabledDevices`: exactly the table's devices whose answer is yes. */
  function EnabledDevices(sd: SmartDevices): (r: seq<Device>)
    ensures forall d :: d in r <==> d in DevicesList(sd) && d.enabled
  {
    var t := DevicesList(sd);
    assert forall i :: 0 <= i < |t| && t[i].enabled ==> t[i] in EnabledOnly(t) by {
      forall i | 0 <= i < |t| && t[i].enabled
        ensures t[i] in EnabledOnly(t)
      {
        EnabledOnlyKeepsEnabled(t, i);
      }
    }
    EnabledOnly(t)
  }

  function SumUsage(ds: seq<Device>): int {
    if |ds| == 0 then 0 else ds[0].monthlyUsage + SumUsage(ds[1..])
  }

  function SumCost(ds: seq<Device>): int {
    if |ds| == 0 then 0 else ds[0].costPerMonth + SumCost(ds[1..])
  }

  /** A device's contribution to the totals, from its flag alone. */
  function Share(enabled: bool, amount: int): int {
    if enabled then amount else 0
  }

  /** The number of the four device answers that are `true`. */
  function TrueFlags(sd: SmartDevices): (n: nat)
    ensures n <= 4
  {
    (if sd.thermostat then 1 else 0) + (if sd.washingMachine then 1 else 0)
      + (if sd.dishwasher then 1 else 0) + (if sd.evCharger then 1 else 0)
  }

  /** The device as a one-element list when its flag is set, else the empty list. */
  function Keep(flag: bool, d: Device): seq<Device> {
    if flag then [d] else []
  }

  /** Filtering the table keeps exactly the devices whose answer is yes, in table order. */
  lemma EnabledDevicesByFlag(sd: SmartDevices)
    ensures EnabledDevices(sd) ==
      Keep(sd.thermostat, DevicesList(sd)[0]) + Keep(sd.washingMachine, DevicesList(sd)[1])
      + Keep(sd.dishwasher, DevicesList(sd)[2]) + Keep(sd.evCharger, DevicesList(sd)[3])
  {
    var t := DevicesList(sd);
    var a, b, c, d := [t[0]], [t[1]], [t[2]], [t[3]];
    assert t == a + (b + (c + d));
    EnabledOnlySingleton(t[0]);
    EnabledOnlySingleton(t[1]);
    EnabledOnlySingleton(t[2]);
    EnabledOnlySingleton(t[3]);
    var p0, p1, p2, p3 := EnabledOnly(a), EnabledOnly(b), EnabledOnly(c), EnabledOnly(d);
    calc {
      EnabledDevices(sd);
      EnabledOnly(a + (b + (c + d)));
      { EnabledOnlyConcat(a, b + (c + d)); }
      p0 + EnabledOnly(b + (c + d));
      { EnabledOnlyConcat(b, c + d); }
      p0 + (p1 + EnabledOnly(c + d));
      { EnabledOnlyConcat(c, d); }
      p0 + (p1 + (p2 + p3));
      p0 + p1 + p2 + p3;
    }
  }

  lemma EnabledOnlySingleton(d: Device)
    ensures EnabledOnly([d]) == Keep(d.enabled, d)
  {
    assert [d][1..] == [];
  }

  /** "Active Devices": the number of enabled entries is the number of yes answers. */
  lemma ActiveDeviceCount(sd: SmartDevices)
    ensures |EnabledDevices(sd)| == TrueFlags(sd) <= 4
  {
    EnabledDevicesByFlag(sd);
  }

  lemma {:induction false} SumUsageConcat(a: seq<Device>, b: seq<Device>)
    ensures SumUsage(a + b) == SumUsage(a) + SumUsage(b)
    ensures SumCost(a + b) == SumCost(a) + SumCost(b)
    decreases |a|
  {
    if |a| == 0 {
      assert a + b == b;
    } else {
      assert (a + b)[1..] == a[1..] + b;
      SumUsageConcat(a[1..], b);
    }
  }

  /** `totalMonthlyUsage`: the usage of the enabled devices only, so between 0 and
      36 + 20 + 18 + 120 = 194 kWh. */
  function TotalMonthlyUsage(sd: SmartDevices): (u: int)
    ensures u == Share(sd.thermostat, 36) + Share(sd.washingMachine, 20) + Share(sd.dishwasher, 18) + Share(sd.evCharger, 120)
    ensures 0 <= u <= 194
  {
    TotalsByFlag(sd);
    SumUsage(EnabledDevices(sd))
  }

  /** `totalMonthlyCost`: the cost of the enabled devices only. */
  function TotalMonthlyCost(sd: SmartDevices): (c: int)
    ensures c == Share(sd.thermostat, 288) + Share(sd.washingMachine, 160) + Share(sd.dishwasher, 144) + Share(sd.evCharger, 960)
    ensures c == 8 * TotalMonthlyUsage(sd)
  {
    TotalsByFlag(sd);
    SumCost(EnabledDevices(sd))
  }

  /** The sums over the filtered table, device by device. */
  lemma TotalsByFlag(sd: SmartDevices)
    ensures SumUsage(EnabledDevices(sd)) == Share(sd.thermostat, 36) + Share(sd.washingMachine, 20) + Share(sd.dishwasher, 18) + Share(sd.evCharger, 120)
    ensures SumCost(EnabledDevices(sd)) == Share(sd.thermostat, 288) + Share(sd.washingMachine, 160) + Share(sd.dishwasher, 144) + Share(sd.evCharger, 960)
  {
    var t := DevicesList(sd);
    EnabledDevicesByFlag(sd);
    var p0 := Keep(sd.thermostat, t[0]);
    var p1 := Keep(sd.washingMachine, t[1]);
    var p2 := Keep(sd.dishwasher, t[2]);
    var p3 := Keep(sd.evCharger, t[3]);
    SumUsageConcat(p0 + p1 + p2, p3);
    SumUsageConcat(p0 + p1, p2);
    SumUsageConcat(p0, p1);
    assert SumUsage(p0) == Share(sd.thermostat, 36) && SumCost(p0) == Share(sd.thermostat, 288);
    assert SumUsage(p1) == Share(sd.washingMachine, 20) && SumCost(p1) == Share(sd.washingMachine, 160);
    assert SumUsage(p2) == Share(sd.dishwasher, 18) && SumCost(p2) == Share(sd.dishwasher, 144);
    assert SumUsage(p3) == Share(sd.evCharger, 120) && SumCost(p3) == Share(sd.evCharger, 960);
  }

  /** `averageDaily`: the monthly usage spread over 30 days, at most 194/30 kWh. */
  function AverageDaily(sd: SmartDevices): (a: real)
    ensures a * 30.0 == TotalMonthlyUsage(sd) as real
    ensures 0.0 <= a <= 194.0 / 30.0
  {
    TotalMonthlyUsage(sd) as real / 30.0
  }

  /** The number of occurrences of `sep` in `s`. */
  function Occurrences(s: string, sep: char): nat {
    if |s| == 0 then 0 else (if s[0] == sep then 1 else 0) + Occurrences(s[1..], sep)
  }

  /** `String.prototype.split` with a one-character separator: the pieces between
      separators, including empty ones. */
  function Split(s: string, sep: char): (parts: seq<string>)
    ensures |parts| == Occurrences(s, sep) + 1
    ensures forall i :: 0 <= i < |parts| ==> sep !in parts[i]
    decreases |s|
  {
    if |s| == 0 then [""]
    else
      var rest := Split(s[1..], sep);
      if s[0] == sep then [""] + rest
      else [[s[0]] + rest[0]] + rest[1..]
  }

  /** Joins pieces with a separator between neighbours. */
  function Join(parts: seq<string>, sep: char): string
    requires |parts| > 0
  {
    if |parts| == 1 then parts[0] else parts[0] + [sep] + Join(parts[1..], sep)
  }

  /** Splitting loses nothing: joining the pieces back gives the original text. */
  lemma {:induction false} JoinSplit(s: string, sep: char)
    ensures Join(Split(s, sep), sep) == s
    decreases |s|
  {
    if |s| > 0 {
      var rest := Split(s[1..], sep);
      JoinSplit(s[1..], sep);
      if s[0] == sep {
        assert ([""] + rest)[1..] == rest;
        assert s == [sep] + s[1..];
      } else {
        var parts := [[s[0]] + rest[0]] + rest[1..];
        if |rest| == 1 {
          assert s == [s[0]] + s[1..];
        } else {
          assert parts[1..] == rest[1..];
          assert Join(rest, sep) == rest[0] + [sep] + Join(rest[1..], sep);
          assert s == [s[0]] + s[1..];
        }
      }
    }
  }

  /** The "Smart Home Setup" figure: the `true` answers (the `other` text is never
      `true`), plus, when `other` is non-empty, the number of comma-separated entries. */
  function SmartHomeDeviceCount(sd: SmartDevices): (n: nat)
    ensures n == TrueFlags(sd) + (if sd.other != "" then Occurrences(sd.other, ',') + 1 else 0)
  {
    TrueFlags(sd) + (if sd.other != "" then |Split(sd.other, ',')| else 0)
  }

  /** The card's figure is the dialog's active-device count plus the other entries. */
  lemma CardCountAgreesWithDialog(sd: SmartDevices)
    ensures SmartHomeDeviceCount(sd) == |EnabledDevices(sd)| + (if sd.other != "" then |Split(sd.other, ',')| else 0)
  {
    ActiveDeviceCount(sd);
  }
}
