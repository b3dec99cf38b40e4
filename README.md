# Fujitsu General (FGLair) heat pump climate entity — Dafny model

This project models the translation layer of the Home Assistant climate
platform `fujitsu_general_heatpump.py`. The platform shows one Fujitsu
General heat pump as a climate entity. It translates between Home
Assistant's climate vocabulary (HVAC mode strings, fan-mode strings, swing
labels, the "aux heat" flag, the target temperature) and the vocabulary of
the FGLair client library (`pyfgl.constants`, `splitAC.SplitAC`).

What is modelled:

- the six lookup tables HA_STATE_TO_FUJITSU / FUJITSU_TO_HA_STATE,
  HA_FAN_TO_FUJITSU / FUJITSU_FAN_TO_HA and HA_SWING_TO_FUJITSU /
  FUJITSU_SWING_TO_HA, as Dafny `map` constants;
- the getters `hvac_mode`, `fan_mode`, `swing_mode` and `is_aux_heat`, as
  pure functions of a snapshot of the device state (`HvacModeOf`,
  `FanModeOf`, `SwingModeOf`, `IsAuxHeatOf`);
- the setters `set_hvac_mode`, `set_fan_mode`, `set_swing_mode`,
  `turn_aux_heat_on`, `turn_aux_heat_off` and `set_temperature`, as methods
  of the class `FujitsuClimate` that change the device adapter it holds.
  Each label setter is proved against a pure function (`AfterSetHvacMode`,
  `AfterSetFanMode`, `AfterSetSwingMode`) giving the new device state or the
  KeyError;
- the advertised mode lists `_attr_hvac_modes`, `_attr_fan_modes`,
  `_attr_swing_modes` and the temperature bounds, as constant fields of
  `FujitsuClimate`.

Files and modules:

- `dicts.dfy` (`Dicts`): Python `d[k]` (raises KeyError, modelled as the
  `KeyError` case of `Result`) and `d.get(k)` (yields `None`).
- `fgl_constants.dfy` (`FglConstants`): the vendor constants.
- `split_ac.dfy` (`SplitAc`): the device adapter as the entity sees it.
- `ha_climate.dfy` (`HaClimate`): the Home Assistant constants used.
- `fujitsu_general_heatpump.dfy` (`FujitsuGeneralHeatpump`): the tables,
  getters, setters, the entity class and the lemmas.

Modelling assumptions about the vendor library, which is not part of this
model:

1. The setter constants (`OperationMode`, `FanSpeed`,
   `VerticalSwingPosition`, `BooleanProperty`) and the descriptor constants
   the getters report (`OperationModeDescriptors`, `FanSpeedDescriptors`,
   `VerticalPositionDescriptors`, `BooleanDescriptors`) correspond by
   member name. `FglConstants.Describe*` are this correspondence.
2. Each `set_*` call on the adapter overwrites exactly the matching field of
   a mirrored device state with the descriptor of the value it was given.
   The matching `get_*` reads that field back. `SplitAc.SplitAC` is this
   mirror. Its setters have a frame of one field each.
3. The device reports only the members of the four descriptor families:
   7 operating modes, 5 fan speeds, 6 vertical positions and 2 boolean
   values. The `FglConstants` datatypes have exactly these members, so a
   mirrored field cannot hold any other value. "Never raises" in the rows
   for `HvacModeOf`, `FanModeOf` and `SwingModeOf` rests on this
   assumption together with `ModeTableTotal`, `FanTableTotal` and
   `SwingTableTotal`.

Home Assistant's constants are not defined in this repository. The model
uses Home Assistant's values: the HVACMode members are "off", "heat",
"cool", "heat_cool", "auto", "dry" and "fan_only"; ATTR_TEMPERATURE is
"temperature". Home Assistant's fan constants are lower case ("low",
"medium", "high", "auto"); only FAN_QUIET ("Quiet", line 57) is
capitalised.

Setting a position label does not clear the swing flag (lines 207-210), so
a position set while the flag is on reads back as "Vertical Swing"
(`PositionHiddenWhileSwinging`). Reading back a position label is
guaranteed only when the flag was already off (`SwingRoundTrip`).

Both mode tables map HEAT_COOL to ON and back (lines 35, 45), and ON's
label is advertised (line 128).

## Model

| member | source | states |
|---|---|---|
| FujitsuGeneralHeatpump.ModeTablesInverse | fujitsu_general_heatpump.py:28-46 | The two mode tables undo each other under the name correspondence, in both directions; heat_cool maps to ON and ON maps back to heat_cool. |
| FujitsuGeneralHeatpump.ModeTablesSize | fujitsu_general_heatpump.py:28-46 | Both operating-mode tables have exactly 7 entries. |
| FujitsuGeneralHeatpump.ModeTablesInjective | fujitsu_general_heatpump.py:28-46 | Neither operating-mode table maps two keys to the same value. |
| FujitsuGeneralHeatpump.ModeTableTotal | fujitsu_general_heatpump.py:38-46 | Every operating-mode descriptor the device can report is a key of FUJITSU_TO_HA_STATE. |
| FujitsuGeneralHeatpump.FanTablesInverse | fujitsu_general_heatpump.py:77-91 | The two fan tables undo each other over the five fan labels, in both directions. |
| FujitsuGeneralHeatpump.FanTablesSize | fujitsu_general_heatpump.py:77-91 | Both fan tables have exactly 5 entries. |
| FujitsuGeneralHeatpump.FanTablesInjective | fujitsu_general_heatpump.py:77-91 | Neither fan table maps two keys to the same value. |
| FujitsuGeneralHeatpump.FanTableTotal | fujitsu_general_heatpump.py:77-83 | Every fan-speed descriptor is a key of FUJITSU_FAN_TO_HA. |
| FujitsuGeneralHeatpump.SwingTablesInverse | fujitsu_general_heatpump.py:48-75 | The two position tables undo each other over the six position labels; "Vertical Swing" is a key of neither and a value of neither. |
| FujitsuGeneralHeatpump.SwingTablesSize | fujitsu_general_heatpump.py:59-75 | Both position tables have exactly 6 entries. |
| FujitsuGeneralHeatpump.SwingTablesInjective | fujitsu_general_heatpump.py:59-75 | Neither position table maps two keys to the same value. |
| FujitsuGeneralHeatpump.SwingTableTotal | fujitsu_general_heatpump.py:68-75 | Every vertical-position descriptor is a key of FUJITSU_SWING_TO_HA. |
| FujitsuGeneralHeatpump.HvacModeOf | fujitsu_general_heatpump.py:149-152 | `hvac_mode` never raises on a reported mode, and the label it returns is a key of HA_STATE_TO_FUJITSU that commands the reported mode back. |
| FujitsuGeneralHeatpump.FanModeOf | fujitsu_general_heatpump.py:182-188 | `fan_mode` never raises, and its label is a key of HA_FAN_TO_FUJITSU that commands the reported speed back. |
| FujitsuGeneralHeatpump.SwingModeOf | fujitsu_general_heatpump.py:194-203 | `swing_mode` is "Vertical Swing" exactly when the swing flag is ON; otherwise it is the label that commands the reported position back. |
| FujitsuGeneralHeatpump.IsAuxHeatOf | fujitsu_general_heatpump.py:212-215 | `is_aux_heat` is true exactly when the reported powerful-mode flag is the descriptor of the setter constant ON. |
| FujitsuGeneralHeatpump.AuxHeatReadsLastSet | fujitsu_general_heatpump.py:212-223 | After the powerful-mode flag is set to ON, `is_aux_heat` is true; after OFF, false. |
| FujitsuGeneralHeatpump.AfterSetHvacMode | fujitsu_general_heatpump.py:154-156 | `set_hvac_mode` succeeds exactly on the keys of HA_STATE_TO_FUJITSU, changes only the mode, and `hvac_mode` then reads back the label; any other label raises KeyError with that label. |
| FujitsuGeneralHeatpump.AfterSetFanMode | fujitsu_general_heatpump.py:190-192 | `set_fan_mode` succeeds exactly on the keys of HA_FAN_TO_FUJITSU, changes only the fan speed, and `fan_mode` then reads back the label; any other label raises KeyError. |
| FujitsuGeneralHeatpump.AfterSetSwingMode | fujitsu_general_heatpump.py:205-210 | "Vertical Swing" sets only the swing flag to ON; another known label sets only the position, to the one whose label it is, leaving the flag; an unknown label raises KeyError. |
| FujitsuGeneralHeatpump.HvacModeStable | fujitsu_general_heatpump.py:150-156 | Setting the mode `hvac_mode` reports is accepted, leaves the device state as it was, and reads back the same label. |
| FujitsuGeneralHeatpump.FanModeStable | fujitsu_general_heatpump.py:183-192 | Setting the fan mode `fan_mode` reports is accepted and leaves the device state as it was. |
| FujitsuGeneralHeatpump.SwingFlagMasksPosition | fujitsu_general_heatpump.py:200-203 | While the swing flag is ON, `swing_mode` is "Vertical Swing" whatever the position is. |
| FujitsuGeneralHeatpump.SwingRoundTrip | fujitsu_general_heatpump.py:200-210 | Setting a swing label reads it back when the label is "Vertical Swing" or the swing flag was off. |
| FujitsuGeneralHeatpump.PositionHiddenWhileSwinging | fujitsu_general_heatpump.py:205-210 | While the flag is ON, setting a position label is accepted but `swing_mode` still reads "Vertical Swing": the flag is not cleared. |
| FujitsuGeneralHeatpump.ReportedHeatAutoHigh | fujitsu_general_heatpump.py:150-203 | A device reporting HEAT, fan AUTO, swing OFF and position HIGH shows as "heat", "auto" and "High". |
| FujitsuGeneralHeatpump.AdvertisedModesAccepted | fujitsu_general_heatpump.py:117-135 | The advertised HVAC modes are exactly the keys of HA_STATE_TO_FUJITSU, the fan modes exactly the keys of HA_FAN_TO_FUJITSU, the swing modes exactly "Vertical Swing" plus the keys of HA_SWING_TO_FUJITSU; every advertised value is accepted by its setter and every value a getter reports is advertised. |
| FujitsuGeneralHeatpump.FujitsuClimate.constructor | fujitsu_general_heatpump.py:112-115 | The entity holds the device adapter it was given. |
| FujitsuGeneralHeatpump.FujitsuClimate.SetHvacMode | fujitsu_general_heatpump.py:154-156 | On a known label the device reaches the state AfterSetHvacMode gives; on an unknown label the KeyError propagates and the device state is unchanged. |
| FujitsuGeneralHeatpump.FujitsuClimate.SetFanMode | fujitsu_general_heatpump.py:190-192 | As SetHvacMode, against AfterSetFanMode. |
| FujitsuGeneralHeatpump.FujitsuClimate.SetSwingMode | fujitsu_general_heatpump.py:205-210 | As SetHvacMode, against AfterSetSwingMode; the KeyError is raised before any device setter runs. |
| FujitsuGeneralHeatpump.FujitsuClimate.TurnAuxHeatOn | fujitsu_general_heatpump.py:212-219 | `is_aux_heat` becomes true; only the powerful-mode field changes. |
| FujitsuGeneralHeatpump.FujitsuClimate.TurnAuxHeatOff | fujitsu_general_heatpump.py:212-223 | `is_aux_heat` becomes false; only the powerful-mode field changes. |
| FujitsuGeneralHeatpump.FujitsuClimate.SetTemperature | fujitsu_general_heatpump.py:168-175 | `target_temperature` becomes `kwargs.get(ATTR_TEMPERATURE)` exactly, None included and without clamping to 16..30; nothing else changes. |
| FujitsuGeneralHeatpump.FujitsuClimate.TargetTemperature | fujitsu_general_heatpump.py:168-171 | `target_temperature` is the value held in the adapter's target-temperature field, unchanged. |
| Dicts.Subscript | fujitsu_general_heatpump.py:152-156 | Python's `d[k]`: the stored value when `k` is a key, otherwise KeyError carrying `k`; no default is ever substituted. Used for the lookups at lines 152, 156, 188, 192, 203 and 210. |
| Dicts.Get | fujitsu_general_heatpump.py:173-175 | Python's `d.get(k)`: the stored value when `k` is a key, otherwise None. |
| SplitAc.SplitAC.constructor | fujitsu_general_heatpump.py:115 | The adapter starts from the properties the device reported. |
| SplitAc.SplitAC.SetOperationMode | fujitsu_general_heatpump.py:156 | Only the operating mode changes, to the descriptor of the value set. |
| SplitAc.SplitAC.SetFanSpeed | fujitsu_general_heatpump.py:192 | Only the fan speed changes, to the descriptor of the value set. |
| SplitAc.SplitAC.SetVerticalSwing | fujitsu_general_heatpump.py:208 | Only the swing flag changes. |
| SplitAc.SplitAC.SetVerticalDirection | fujitsu_general_heatpump.py:210 | Only the vertical position changes. |
| SplitAc.SplitAC.SetPowerfulMode | fujitsu_general_heatpump.py:219-223 | Only the powerful-mode flag changes. |
| SplitAc.SplitAC.SetTargetTemperature | fujitsu_general_heatpump.py:175 | Only the target temperature changes, to the value passed. |

## Left out

- `setup_platform` (lines 94-106): authentication with the vendor cloud, device discovery and logging are network I/O inside the vendor library.
- `update` and `async_update` (lines 233-239): a network refresh run on Home Assistant's executor. Because refresh is not modelled, the mirrored fields only ever hold vendor enumeration values, so the KeyError branches of the three getters cannot be taken in the model; a device reporting a value outside the enumerations is not represented.
- `activate`, `deactivate` and the `turn_on`/`turn_off` rebinding (lines 141-142, 225-231): bare forwards to the library's on/off commands, whose effect on the device state is not visible.
- `name` and `_attr_name` (lines 116, 145-147) and `current_temperature` (lines 163-166): read-only library calls that no setter of the entity writes.
- `PLATFORM_SCHEMA` (lines 23-26): configuration validation by the framework.
- `supported_features`, `temperature_unit` and `target_temperature_step` (lines 138-139, 158-161, 177-180): framework constants with no behaviour.
- The API handle and the device serial number passed to `SplitAC` (lines 113-115): the adapter is given to the constructor already built.
- SetTemperature: the temperature is a Dafny `real` rather than a Python float, and no arithmetic is done on it; the 0.5 step is not modelled.
- The internals of `pyfgl.constants` and `splitAC.SplitAC` are not part of this model; they enter only through the two assumptions above.
