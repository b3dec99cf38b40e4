/** The climate entity of `fujitsu_general_heatpump.py`: six lookup tables
    between Home Assistant's climate vocabulary and the FGLair vendor
    vocabulary, the getters that decode the mirrored device state, and the
    setters that encode a host label into a device command. */
module FujitsuGeneralHeatpump {
  import opened Dicts
  import opened FglConstants
  import opened HaClimate
  import opened SplitAc

  // Swing labels shown to the host; the first stands for "swing enabled".
  const VerticalSwing: string := "Vertical Swing"
  const VerticalHighest: string := "Highest"
  const VerticalHigh: string := "High"
  const VerticalCenterHigh: string := "Center High"
  const VerticalCenterLow: string := "Center Low"
  const VerticalLow: string := "Low"
  const VerticalLowest: string := "Lowest"

  /** The one fan label the host framework does not define. */
  const FanQuiet: string := "Quiet"

  const HaStateToFujitsu: map<string, OperationMode> := map[
    HvacFanOnly := OperationMode.Fan,
    HvacDry := OperationMode.Dry,
    HvacCool := OperationMode.Cool,
    HvacHeat := OperationMode.Heat,
    HvacAuto := OperationMode.Auto,
    HvacOff := OperationMode.Off,
    HvacHeatCool := OperationMode.On]

  const FujitsuToHaState: map<OperationModeDescriptor, string> := map[
    OperationModeDescriptor.Fan := HvacFanOnly,
    OperationModeDescriptor.Dry := HvacDry,
    OperationModeDescriptor.Cool := HvacCool,
    OperationModeDescriptor.Heat := HvacHeat,
    OperationModeDescriptor.Auto := HvacAuto,
    OperationModeDescriptor.Off := HvacOff,
    OperationModeDescriptor.On := HvacHeatCool]

  const HaSwingToFujitsu: map<string, VerticalSwingPosition> := map[
    VerticalHighest := VerticalSwingPosition.Highest,
    VerticalHigh := VerticalSwingPosition.High,
    VerticalCenterHigh := VerticalSwingPosition.CenterHigh,
    VerticalCenterLow := VerticalSwingPosition.CenterLow,
    VerticalLow := VerticalSwingPosition.Low,
    VerticalLowest := VerticalSwingPosition.Lowest]

  const FujitsuSwingToHa: map<VerticalPositionDescriptor, string> := map[
    VerticalPositionDescriptor.Highest := VerticalHighest,
    VerticalPositionDescriptor.High := VerticalHigh,
    VerticalPositionDescriptor.CenterHigh := VerticalCenterHigh,
    VerticalPositionDescriptor.CenterLow := VerticalCenterLow,
    VerticalPositionDescriptor.Low := VerticalLow,
    VerticalPositionDescriptor.Lowest := VerticalLowest]

  const FujitsuFanToHa: map<FanSpeedDescriptor, string> := map[
    FanSpeedDescriptor.Quiet := FanQuiet,
    FanSpeedDescriptor.Low := FanLow,
    FanSpeedDescriptor.Medium := FanMedium,
    FanSpeedDescriptor.High := FanHigh,
    FanSpeedDescriptor.Auto := FanAuto]

  const HaFanToFujitsu: map<string, FanSpeed> := map[
    FanQuiet := FanSpeed.Quiet,
    FanLow := FanSpeed.Low,
    FanMedium := FanSpeed.Medium,
    FanHigh := FanSpeed.High,
    FanAuto := FanSpeed.Auto]

  /** `toVendor` and `toHost` undo each other once a setter value is read back
      as the descriptor of the same name. */
  ghost predicate MutualInverses<H, V, D>(toVendor: map<H, V>, toHost: map<D, H>, describe: V -> D)
  {
    && (forall h :: h in toVendor ==> describe(toVendor[h]) in toHost && toHost[describe(toVendor[h])] == h)
    && (forall d :: d in toHost ==> toHost[d] in toVendor && describe(toVendor[toHost[d]]) == d)
  }

  ghost predicate Injective<K, V>(m: map<K, V>)
  {
    forall k, k' :: k in m && k' in m && k != k' ==> m[k] != m[k']
  }

  lemma InversesAreInjective<H, V, D>(toVendor: map<H, V>, toHost: map<D, H>, describe: V -> D)
    requires MutualInverses(toVendor, toHost, describe)
    ensures Injective(toVendor) && Injective(toHost)
  {
  }

  // ---------------------------------------------------------------------
  // The tables

  /** The operating-mode tables undo each other under the name correspondence. */
  lemma ModeTablesInverse()
    ensures MutualInverses(HaStateToFujitsu, FujitsuToHaState, DescribeOperationMode)
    ensures HaStateToFujitsu[HvacHeatCool] == OperationMode.On
    ensures FujitsuToHaState[OperationModeDescriptor.On] == HvacHeatCool
  {
  }

  /** Both operating-mode tables have 7 entries. */
  lemma ModeTablesSize()
    ensures |HaStateToFujitsu| == 7 && |FujitsuToHaState| == 7
  {
  }

  /** Neither operating-mode table maps two keys to one value. */
  lemma ModeTablesInjective()
    ensures Injective(HaStateToFujitsu) && Injective(FujitsuToHaState)
  {
    ModeTablesInverse();
    InversesAreInjective(HaStateToFujitsu, FujitsuToHaState, DescribeOperationMode);
  }

  /** Every value the device can report is a key of the decoding table. */
  lemma ModeTableTotal()
    ensures forall d: OperationModeDescriptor :: d in FujitsuToHaState
  {
    forall d: OperationModeDescriptor
      ensures d in FujitsuToHaState
    {
      match d
      case Off =>
      case On =>
      case Auto =>
      case Cool =>
      case Dry =>
      case Fan =>
      case Heat =>
    }
  }

  /** The fan-speed tables undo each other under the name correspondence. */
  lemma FanTablesInverse()
    ensures MutualInverses(HaFanToFujitsu, FujitsuFanToHa, DescribeFanSpeed)
  {
  }

  /** Both fan-speed tables have 5 entries. */
  lemma FanTablesSize()
    ensures |HaFanToFujitsu| == 5 && |FujitsuFanToHa| == 5
  {
  }

  /** Neither fan-speed table maps two keys to one value. */
  lemma FanTablesInjective()
    ensures Injective(HaFanToFujitsu) && Injective(FujitsuFanToHa)
  {
    FanTablesInverse();
    InversesAreInjective(HaFanToFujitsu, FujitsuFanToHa, DescribeFanSpeed);
  }

  /** Every value the device can report is a key of the decoding table. */
  lemma FanTableTotal()
    ensures forall d: FanSpeedDescriptor :: d in FujitsuFanToHa
  {
    forall d: FanSpeedDescriptor
      ensures d in FujitsuFanToHa
    {
      match d
      case Quiet =>
      case Low =>
      case Medium =>
      case High =>
      case Auto =>
    }
  }

  /** The vertical-position tables undo each other under the name correspondence. */
  lemma SwingTablesInverse()
    ensures MutualInverses(HaSwingToFujitsu, FujitsuSwingToHa, DescribePosition)
    ensures VerticalSwing !in HaSwingToFujitsu
    ensures forall d :: d in FujitsuSwingToHa ==> FujitsuSwingToHa[d] != VerticalSwing
  {
  }

  /** Both vertical-position tables have 6 entries. */
  lemma SwingTablesSize()
    ensures |HaSwingToFujitsu| == 6 && |FujitsuSwingToHa| == 6
  {
  }

  /** Neither vertical-position table maps two keys to one value. */
  lemma SwingTablesInjective()
    ensures Injective(HaSwingToFujitsu) && Injective(FujitsuSwingToHa)
  {
    SwingTablesInverse();
    InversesAreInjective(HaSwingToFujitsu, FujitsuSwingToHa, DescribePosition);
  }

  /** Every value the device can report is a key of the decoding table. */
  lemma SwingTableTotal()
    ensures forall d: VerticalPositionDescriptor :: d in FujitsuSwingToHa
  {
    forall d: VerticalPositionDescriptor
      ensures d in FujitsuSwingToHa
    {
      match d
      case Highest =>
      case High =>
      case CenterHigh =>
      case CenterLow =>
      case Low =>
      case Lowest =>
    }
  }
  // ---------------------------------------------------------------------
  // Getters: decode the mirrored device state into host labels

  /** `hvac_mode`: the reported operating mode through FUJITSU_TO_HA_STATE.
      The label it returns commands the reported mode back. */
  function HvacModeOf(s: DeviceState): (r: Result<string, OperationModeDescriptor>)
    ensures r.Ok?
    ensures r.value in HaStateToFujitsu && DescribeOperationMode(HaStateToFujitsu[r.value]) == s.mode
  {
    ModeTablesInverse();
    ModeTableTotal();
    Subscript(FujitsuToHaState, s.mode)
  }

  /** `fan_mode`: the reported fan speed through FUJITSU_FAN_TO_HA. */
  function FanModeOf(s: DeviceState): (r: Result<string, FanSpeedDescriptor>)
    ensures r.Ok?
    ensures r.value in HaFanToFujitsu && DescribeFanSpeed(HaFanToFujitsu[r.value]) == s.fan
  {
    FanTablesInverse();
    FanTableTotal();
    Subscript(FujitsuFanToHa, s.fan)
  }

  /** `swing_mode`: "Vertical Swing" while the swing flag is on, whatever the
      position; otherwise the position's label through FUJITSU_SWING_TO_HA. */
  function SwingModeOf(s: DeviceState): (r: Result<string, VerticalPositionDescriptor>)
    ensures r.Ok?
    ensures r.value == VerticalSwing <==> s.verticalSwing == BooleanDescriptor.On
    ensures s.verticalSwing != BooleanDescriptor.On ==>
              r.value in HaSwingToFujitsu && DescribePosition(HaSwingToFujitsu[r.value]) == s.verticalDirection
  {
    SwingTablesInverse();
    SwingTableTotal();
    if s.verticalSwing == BooleanDescriptor.On then
      Ok(VerticalSwing)
    else
      Subscript(FujitsuSwingToHa, s.verticalDirection)
  }

  /** `is_aux_heat`: the powerful-mode flag stands in for auxiliary heat. */
  function IsAuxHeatOf(s: DeviceState): (on: bool)
    ensures on <==> s.powerful == DescribeBoolean(BooleanProperty.On)
  {
    s.powerful == BooleanDescriptor.On
  }

  /** `is_aux_heat` reflects the last value given to the powerful-mode setter. */
  lemma AuxHeatReadsLastSet(s: DeviceState, b: BooleanProperty)
    ensures IsAuxHeatOf(s.(powerful := DescribeBoolean(b))) <==> b == BooleanProperty.On
  {
  }

  // ---------------------------------------------------------------------
  // Setters: the device state after a host command, or the KeyError it raises

  /** `set_hvac_mode`: look the label up in HA_STATE_TO_FUJITSU, then set the
      operating mode. A label that is not a key changes nothing. */
  function AfterSetHvacMode(s: DeviceState, hvacMode: string): (r: Result<DeviceState, string>)
    ensures r.Ok? <==> hvacMode in HaStateToFujitsu
    ensures r.KeyError? ==> r.key == hvacMode
    ensures r.Ok? ==> r.value.(mode := s.mode) == s
    ensures r.Ok? ==> HvacModeOf(r.value) == Ok(hvacMode)
  {
    ModeTablesInverse();
    var m :- Subscript(HaStateToFujitsu, hvacMode);
    Ok(s.(mode := DescribeOperationMode(m)))
  }

  /** `set_fan_mode`: look the label up in HA_FAN_TO_FUJITSU, then set the
      fan speed. A label that is not a key changes nothing. */
  function AfterSetFanMode(s: DeviceState, fanMode: string): (r: Result<DeviceState, string>)
    ensures r.Ok? <==> fanMode in HaFanToFujitsu
    ensures r.KeyError? ==> r.key == fanMode
    ensures r.Ok? ==> r.value.(fan := s.fan) == s
    ensures r.Ok? ==> FanModeOf(r.value) == Ok(fanMode)
  {
    FanTablesInverse();
    var f :- Subscript(HaFanToFujitsu, fanMode);
    Ok(s.(fan := DescribeFanSpeed(f)))
  }

  /** `set_swing_mode`: "Vertical Swing" turns the swing flag on and leaves the
      position alone; any other label is looked up in HA_SWING_TO_FUJITSU and
      sets the position, leaving the swing flag alone (it is not cleared). */
  function AfterSetSwingMode(s: DeviceState, swingMode: string): (r: Result<DeviceState, string>)
    ensures r.Ok? <==> swingMode == VerticalSwing || swingMode in HaSwingToFujitsu
    ensures r.KeyError? ==> r.key == swingMode
    ensures swingMode == VerticalSwing ==>
              r.value.verticalSwing == BooleanDescriptor.On && r.value.(verticalSwing := s.verticalSwing) == s
    ensures swingMode != VerticalSwing && r.Ok? ==>
              r.value.(verticalDirection := s.verticalDirection) == s
              && r.value.verticalDirection in FujitsuSwingToHa
              && FujitsuSwingToHa[r.value.verticalDirection] == swingMode
  {
    SwingTablesInverse();
    if swingMode == VerticalSwing then
      Ok(s.(verticalSwing := DescribeBoolean(BooleanProperty.On)))
    else
      var p :- Subscript(HaSwingToFujitsu, swingMode);
      Ok(s.(verticalDirection := DescribePosition(p)))
  }

  // ---------------------------------------------------------------------
  // Properties of the getters and setters together

  /** Decoding, encoding and decoding again gives the first decoding. */
  lemma HvacModeStable(s: DeviceState)
    ensures AfterSetHvacMode(s, HvacModeOf(s).value).Ok?
    ensures HvacModeOf(AfterSetHvacMode(s, HvacModeOf(s).value).value) == HvacModeOf(s)
    ensures AfterSetHvacMode(s, HvacModeOf(s).value).value == s
  {
  }

  lemma FanModeStable(s: DeviceState)
    ensures AfterSetFanMode(s, FanModeOf(s).value).Ok?
    ensures AfterSetFanMode(s, FanModeOf(s).value).value == s
  {
  }

  /** The swing flag hides the position: changing the position while the flag
      is on does not change what `swing_mode` reports. */
  lemma SwingFlagMasksPosition(s: DeviceState, p: VerticalPositionDescriptor)
    requires s.verticalSwing == BooleanDescriptor.On
    ensures SwingModeOf(s.(verticalDirection := p)) == SwingModeOf(s) == Ok(VerticalSwing)
  {
  }

  /** Setting a swing label and reading it back gives that label, provided the
      label is "Vertical Swing" or the swing flag was already off. */
  lemma SwingRoundTrip(s: DeviceState, swingMode: string)
    requires swingMode == VerticalSwing || swingMode in HaSwingToFujitsu
    requires swingMode == VerticalSwing || s.verticalSwing == BooleanDescriptor.Off
    ensures SwingModeOf(AfterSetSwingMode(s, swingMode).value) == Ok(swingMode)
  {
  }

  /** While the swing flag is on, setting a position label is accepted but
      `swing_mode` still reports "Vertical Swing": the setter does not clear
      the flag. */
  lemma PositionHiddenWhileSwinging(s: DeviceState, swingMode: string)
    requires s.verticalSwing == BooleanDescriptor.On
    requires swingMode in HaSwingToFujitsu
    ensures AfterSetSwingMode(s, swingMode).Ok?
    ensures SwingModeOf(AfterSetSwingMode(s, swingMode).value) == Ok(VerticalSwing)
    ensures swingMode != VerticalSwing
  {
  }

  /** A device reporting HEAT, fan AUTO, swing off and position HIGH shows as
      "heat", "auto" and "High". */
  lemma ReportedHeatAutoHigh(t: Option<real>)
    ensures var s := DeviceState(OperationModeDescriptor.Heat, FanSpeedDescriptor.Auto, BooleanDescriptor.Off,
                                 VerticalPositionDescriptor.High, BooleanDescriptor.Off, t);
            HvacModeOf(s) == Ok(HvacHeat) && FanModeOf(s) == Ok(FanAuto) && SwingModeOf(s) == Ok(VerticalHigh)
  {
  }

  /** A method's outcome against its specification: on success the device is
      in the specified state; on a KeyError the error propagates and the
      device is untouched. */
  ghost predicate Follows(spec: Result<DeviceState, string>, before: DeviceState, after: DeviceState, r: Result<(), string>)
  {
    match spec
    case Ok(s) => r == Ok(()) && after == s
    case KeyError(k) => r == KeyError(k) && after == before
  }

  // ---------------------------------------------------------------------
  // The entity

  /** `FujitsuClimate`: one entity per device, holding the device adapter and
      the lists of modes it advertises to the host. */
  class FujitsuClimate {
    const device: SplitAC

    const fanModes: seq<string> := [FanQuiet, FanLow, FanMedium, FanHigh, FanAuto]

    const hvacModes: seq<string> := [
      FujitsuToHaState[OperationModeDescriptor.Heat],
      FujitsuToHaState[OperationModeDescriptor.Cool],
      FujitsuToHaState[OperationModeDescriptor.Auto],
      FujitsuToHaState[OperationModeDescriptor.Dry],
      FujitsuToHaState[OperationModeDescriptor.Fan],
      FujitsuToHaState[OperationModeDescriptor.Off],
      FujitsuToHaState[OperationModeDescriptor.On]]

    const swingModes: seq<string> := [VerticalSwing, VerticalHighest, VerticalHigh, VerticalCenterHigh,
                                      VerticalCenterLow, VerticalLow, VerticalLowest]

    const maxTemp: int := 30
    const minTemp: int := 16

    constructor (device: SplitAC)
      ensures this.device == device
    {
      this.device := device;
    }

    function HvacMode(): Result<string, OperationModeDescriptor>
      reads device
    {
      HvacModeOf(device.State())
    }

    function FanMode(): Result<string, FanSpeedDescriptor>
      reads device
    {
      FanModeOf(device.State())
    }

    function SwingMode(): Result<string, VerticalPositionDescriptor>
      reads device
    {
      SwingModeOf(device.State())
    }

    function IsAuxHeat(): bool
      reads device
    {
      IsAuxHeatOf(device.State())
    }

    function TargetTemperature(): (t: Option<real>)
      reads device
      ensures t == device.targetTemperature
    {
      device.State().targetTemperature
    }

    method SetHvacMode(hvacMode: string) returns (r: Result<(), string>)
      modifies device
      ensures Follows(AfterSetHvacMode(old(device.State()), hvacMode), old(device.State()), device.State(), r)
    {
      var m :- Subscript(HaStateToFujitsu, hvacMode);
      device.SetOperationMode(m);
      r := Ok(());
    }

    method SetFanMode(fanMode: string) returns (r: Result<(), string>)
      modifies device
      ensures Follows(AfterSetFanMode(old(device.State()), fanMode), old(device.State()), device.State(), r)
    {
      var f :- Subscript(HaFanToFujitsu, fanMode);
      device.SetFanSpeed(f);
      r := Ok(());
    }

    method SetSwingMode(swingMode: string) returns (r: Result<(), string>)
      modifies device
      ensures Follows(AfterSetSwingMode(old(device.State()), swingMode), old(device.State()), device.State(), r)
    {
      if swingMode == VerticalSwing {
        device.SetVerticalSwing(BooleanProperty.On);
      } else {
        var p :- Subscript(HaSwingToFujitsu, swingMode);
        device.SetVerticalDirection(p);
      }
      r := Ok(());
    }

    method TurnAuxHeatOn()
      modifies device
      ensures IsAuxHeat()
      ensures device.State() == old(device.State()).(powerful := BooleanDescriptor.On)
    {
      device.SetPowerfulMode(BooleanProperty.On);
    }

    method TurnAuxHeatOff()
      modifies device
      ensures !IsAuxHeat()
      ensures device.State() == old(device.State()).(powerful := BooleanDescriptor.Off)
    {
      device.SetPowerfulMode(BooleanProperty.Off);
    }

    /** `set_temperature`: passes `kwargs.get(ATTR_TEMPERATURE)` to the device
        as it is, None included, with no check against minTemp..maxTemp. */
    method SetTemperature(kwargs: map<string, real>)
      modifies device
      ensures TargetTemperature() == Get(kwargs, AttrTemperature)
      ensures device.State() == old(device.State()).(targetTemperature := Get(kwargs, AttrTemperature))
    {
      device.SetTargetTemperature(Get(kwargs, AttrTemperature));
    }
  }

  /** Every mode the entity advertises is accepted by its setter, and every
      label a getter can report is advertised. */
  lemma AdvertisedModesAccepted(c: FujitsuClimate, s: DeviceState)
    ensures forall h :: h in c.hvacModes <==> h in HaStateToFujitsu
    ensures forall f :: f in c.fanModes <==> f in HaFanToFujitsu
    ensures forall w :: w in c.swingModes <==> w == VerticalSwing || w in HaSwingToFujitsu
    ensures forall h :: h in c.hvacModes ==> AfterSetHvacMode(s, h).Ok?
    ensures forall f :: f in c.fanModes ==> AfterSetFanMode(s, f).Ok?
    ensures forall w :: w in c.swingModes ==> AfterSetSwingMode(s, w).Ok?
    ensures HvacModeOf(s).value in c.hvacModes
    ensures FanModeOf(s).value in c.fanModes
    ensures SwingModeOf(s).value in c.swingModes
  {
  }
}
