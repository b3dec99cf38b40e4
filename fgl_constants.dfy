/** The vendor vocabulary of the FGLair client library (`pyfgl.constants`).
    The library itself is not part of this model. It has two families of
    constants: the values the device setters accept (OperationMode, FanSpeed,
    VerticalSwingPosition, BooleanProperty) and the values the device getters
    report (OperationModeDescriptors, FanSpeedDescriptors,
    VerticalPositionDescriptors, BooleanDescriptors). Only the member names are
    visible from the climate entity, so the model assumes that a setter
    constant and the descriptor of the same name denote the same device
    setting; the Describe functions below are that assumption. */
module FglConstants {

  /** Setter constants `constants.OperationMode`. */
  datatype OperationMode = Off | On | Auto | Cool | Dry | Fan | Heat

  /** Reported values `constants.OperationModeDescriptors`. */
  datatype OperationModeDescriptor = Off | On | Auto | Cool | Dry | Fan | Heat

  /** Setter constants `constants.FanSpeed`. */
  datatype FanSpeed = Quiet | Low | Medium | High | Auto

  /** Reported values `constants.FanSpeedDescriptors`. */
  datatype FanSpeedDescriptor = Quiet | Low | Medium | High | Auto

  /** Setter constants `constants.VerticalSwingPosition`. */
  datatype VerticalSwingPosition = Highest | High | CenterHigh | CenterLow | Low | Lowest

  /** Reported values `constants.VerticalPositionDescriptors`. */
  datatype VerticalPositionDescriptor = Highest | High | CenterHigh | CenterLow | Low | Lowest

  /** Setter constants `constants.BooleanProperty`. */
  datatype BooleanProperty = Off | On

  /** Reported values `constants.BooleanDescriptors`. */
  datatype BooleanDescriptor = Off | On

  /** The descriptor a device reports after being set to `m` (same name). */
  function DescribeOperationMode(m: OperationMode): OperationModeDescriptor
  {
    match m
    case Off => OperationModeDescriptor.Off
    case On => OperationModeDescriptor.On
    case Auto => OperationModeDescriptor.Auto
    case Cool => OperationModeDescriptor.Cool
    case Dry => OperationModeDescriptor.Dry
    case Fan => OperationModeDescriptor.Fan
    case Heat => OperationModeDescriptor.Heat
  }

  function DescribeFanSpeed(f: FanSpeed): FanSpeedDescriptor
  {
    match f
    case Quiet => FanSpeedDescriptor.Quiet
    case Low => FanSpeedDescriptor.Low
    case Medium => FanSpeedDescriptor.Medium
    case High => FanSpeedDescriptor.High
    case Auto => FanSpeedDescriptor.Auto
  }

  function DescribePosition(p: VerticalSwingPosition): VerticalPositionDescriptor
  {
    match p
    case Highest => VerticalPositionDescriptor.Highest
    case High => VerticalPositionDescriptor.High
    case CenterHigh => VerticalPositionDescriptor.CenterHigh
    case CenterLow => VerticalPositionDescriptor.CenterLow
    case Low => VerticalPositionDescriptor.Low
    case Lowest => VerticalPositionDescriptor.Lowest
  }

  function DescribeBoolean(b: BooleanProperty): BooleanDescriptor
  {
    match b
    case Off => BooleanDescriptor.Off
    case On => BooleanDescriptor.On
  }
}
