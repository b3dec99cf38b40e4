/** The device adapter `splitAC.SplitAC` as the climate entity sees it. The
    library is not part of this model; the model assumes that the adapter
    mirrors the device's properties in local fields, that each `set_*` call
    overwrites exactly the matching field with the descriptor of the value it
    was given, and that the matching `get_*` reads that field back. */
module SplitAc {
  import opened Dicts
  import opened FglConstants

  /** A snapshot of the mirrored properties, one per `get_*` the entity uses. */
  datatype DeviceState = DeviceState(
    mode: OperationModeDescriptor,           // get_operating_mode
    fan: FanSpeedDescriptor,                 // get_fan_speed
    verticalSwing: BooleanDescriptor,        // get_vertical_swing
    verticalDirection: VerticalPositionDescriptor, // get_vertical_direction
    powerful: BooleanDescriptor,             // get_powerful_mode
    targetTemperature: Option<real>)         // get_target_temperature

  class SplitAC {
    var operationMode: OperationModeDescriptor
    var fanSpeed: FanSpeedDescriptor
    var verticalSwing: BooleanDescriptor
    var verticalDirection: VerticalPositionDescriptor
    var powerfulMode: BooleanDescriptor
    var targetTemperature: Option<real>

    /** The properties the device reported when the adapter was created. */
    constructor (reported: DeviceState)
      ensures State() == reported
    {
      operationMode := reported.mode;
      fanSpeed := reported.fan;
      verticalSwing := reported.verticalSwing;
      verticalDirection := reported.verticalDirection;
      powerfulMode := reported.powerful;
      targetTemperature := reported.targetTemperature;
    }

    function State(): DeviceState
      reads this
    {
      DeviceState(operationMode, fanSpeed, verticalSwing, verticalDirection, powerfulMode, targetTemperature)
    }

    method SetOperationMode(m: OperationMode)
      modifies this`operationMode
      ensures State() == old(State()).(mode := DescribeOperationMode(m))
    {
      operationMode := DescribeOperationMode(m);
    }

    method SetFanSpeed(f: FanSpeed)
      modifies this`fanSpeed
      ensures State() == old(State()).(fan := DescribeFanSpeed(f))
    {
      fanSpeed := DescribeFanSpeed(f);
    }

    method SetVerticalSwing(b: BooleanProperty)
      modifies this`verticalSwing
      ensures State() == old(State()).(verticalSwing := DescribeBoolean(b))
    {
      verticalSwing := DescribeBoolean(b);
    }

    method SetVerticalDirection(p: VerticalSwingPosition)
      modifies this`verticalDirection
      ensures State() == old(State()).(verticalDirection := DescribePosition(p))
    {
      verticalDirection := DescribePosition(p);
    }

    method SetPowerfulMode(b: BooleanProperty)
      modifies this`powerfulMode
      ensures State() == old(State()).(powerful := DescribeBoolean(b))
    {
      powerfulMode := DescribeBoolean(b);
    }

    method SetTargetTemperature(t: Option<real>)
      modifies this`targetTemperature
      ensures State() == old(State()).(targetTemperature := t)
    {
      targetTemperature := t;
    }
  }
}
