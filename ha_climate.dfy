/** The Home Assistant constants the climate entity uses. They are defined by
    Home Assistant, not by this repository; the values are Home Assistant's
    own (`HVACMode` is a string enumeration, the `FAN_*` names are strings). */
module HaClimate {

  // HVACMode members
  const HvacOff: string := "off"
  const HvacHeat: string := "heat"
  const HvacCool: string := "cool"
  const HvacHeatCool: string := "heat_cool"
  const HvacAuto: string := "auto"
  const HvacDry: string := "dry"
  const HvacFanOnly: string := "fan_only"

  // fan mode names
  const FanLow: string := "low"
  const FanMedium: string := "medium"
  const FanHigh: string := "high"
  const FanAuto: string := "auto"

  /** The service-call keyword carrying the new target temperature. */
  const AttrTemperature: string := "temperature"
}
