# BuildTrack fan entity, modelled in Dafny

This project models `BuildTrackFanEntity`, the Home Assistant fan entity of the
BuildTrack integration. The entity translates host-platform calls (turn on, turn
off, set a percentage, step the speed, pick a preset) into requests to the
BuildTrack hub client. It also fires a `buildtrack_fan_state_change` event on the
host's bus, and it maps the speed the hub reports back to one of five presets.

- `wrappers.dfy`: the `Option` datatype.
- `presets.dfy` (module `FanPresets`): the pure logic.
  - The preset list `["Very Low", "Low", "Medium", "High", "Very High"]` and Python's `list.index` over it.
  - The write table (preset index to percentage 8, 20, 50, 80, 95).
  - The read bands (0,10], (11,30], (31,70], (71,90], (90,∞), stated twice: as the source's if/elif chain (`BandIndex`) and as a bound table (`InBand`).
  - The display name `room_name + " " + fan_name`.
- `fan.dfy` (module `BuildTrackFan`): the class `FanEntity`.
  - Its mutable field is `selectedPresetMode` (initially `"Low"`).
  - A ghost `trace` records, in order, every hub command (`ListenDeviceState`, `SwitchOn(id, percentage?)`, `SwitchOff`) and every bus event (event type, integration, entity name, state label) the entity issues. Hub queries (`get_device_state`, `is_device_on`) are not recorded.
  - The speed the hub reports (`get_device_state(id)["speed"]`) is a parameter of each operation that reads it. The model therefore assumes nothing about how the hub reacts to the requests it receives.

Behaviour kept exactly as the code has it:
- The read bands leave gaps. A speed ≤ 0, or exactly 11, 31 or 71, fires no branch, and the getter returns the previously cached preset.
- The Very High band has no upper bound: any speed above 90 reads as Very High.
- The decrease guard tests `current + step < 0`, not the difference. A decrease can therefore request a negative speed (`DecreaseCanGoNegative`).
- The direction constant is `"Clockwise"`, capitalised as in the code.

## Model

| member | source | states |
|---|---|---|
| FanPresets.IndexOf | custom_components/buildtrack/fan.py:151 | `list.index`: None exactly when the name is absent (the ValueError case); otherwise a valid position holding the name, with no earlier occurrence |
| FanPresets.PresetModesDistinct | custom_components/buildtrack/fan.py:53 | no two entries of the preset list are equal |
| FanPresets.IndexOfPreset | custom_components/buildtrack/fan.py:151 | looking up the preset at position i yields exactly i |
| FanPresets.WritePercentage | custom_components/buildtrack/fan.py:152-161 | the dispatch requests a percentage exactly for indices 0..4, and every requested value lies in (0,100] |
| FanPresets.PresetPercentage | custom_components/buildtrack/fan.py:150-161 | a percentage is requested exactly when the name is one of the five presets, and it lies in (0,100] |
| FanPresets.PresetPercentageTable | custom_components/buildtrack/fan.py:150-161 | Very Low, Low, Medium, High and Very High request 8, 20, 50, 80 and 95 respectively |
| FanPresets.BandIndex | custom_components/buildtrack/fan.py:165-174 | the getter's chain selects index i exactly when the speed lies in band i of the bound table; no branch fires exactly when the speed is ≤ 0 or is 11, 31 or 71 |
| FanPresets.BandIndexMonotone | custom_components/buildtrack/fan.py:165-174 | a higher speed never selects a lower preset |
| FanPresets.PresetModeFor | custom_components/buildtrack/fan.py:163-175 | a speed in band i of the bound table yields preset i; in a gap the result is the cached value unchanged; the result is always one of the presets when the cache held one |
| FanPresets.PresetModeNames | custom_components/buildtrack/fan.py:165-174 | speeds in (0,10], (11,30], (31,70], (71,90] and above 90 read as "Very Low", "Low", "Medium", "High" and "Very High" |
| FanPresets.WriteLandsInBand | custom_components/buildtrack/fan.py:152-174 | each write value falls into the read band of its own index |
| FanPresets.PresetRoundTrip | custom_components/buildtrack/fan.py:150-175 | for every preset name, the percentage `async_set_preset_mode` requests reads back as that same name, whatever the cache held |
| FanPresets.EntityName | custom_components/buildtrack/fan.py:69-71 | the name is the room name, one space, then the fan name |
| BuildTrackFan.IncreaseTarget | custom_components/buildtrack/fan.py:101-106 | no request exactly when current + step > 100; otherwise the request is current + step, hence ≤ 100 |
| BuildTrackFan.DecreaseTarget | custom_components/buildtrack/fan.py:108-113 | no request exactly when current + step < 0; otherwise the request is current − step |
| BuildTrackFan.DecreaseCanGoNegative | custom_components/buildtrack/fan.py:108-113 | a step larger than a non-negative current speed passes the guard and requests a negative speed |
| BuildTrackFan.FanEntity.constructor | custom_components/buildtrack/fan.py:52-65 | keeps the device record's fields, starts the cache at "Low", and issues exactly one `listen_device_state(id)` |
| BuildTrackFan.FanEntity.GetPresetMode | custom_components/buildtrack/fan.py:163-175 | the cache becomes the band's preset, or stays as it was in a gap; the getter returns the new cache, which stays a preset |
| BuildTrackFan.FanEntity.SetPercentage | custom_components/buildtrack/fan.py:115-124 | appends exactly `switch_on(id, p)` and then one event with the entity name and state "percentage" |
| BuildTrackFan.FanEntity.TurnOn | custom_components/buildtrack/fan.py:126-136 | appends exactly `switch_on(id)` with no percentage and then one event with state "on" |
| BuildTrackFan.FanEntity.TurnOff | custom_components/buildtrack/fan.py:138-148 | appends exactly `switch_off(id)` and then one event with state "off" |
| BuildTrackFan.FanEntity.SetPresetMode | custom_components/buildtrack/fan.py:150-161 | an unknown name fails with ValueError and issues nothing; a preset issues exactly its table percentage and one "percentage" event |
| BuildTrackFan.FanEntity.IncreaseSpeed | custom_components/buildtrack/fan.py:101-106 | issues nothing when the guard fires; otherwise exactly one switch-on at current + step |
| BuildTrackFan.FanEntity.DecreaseSpeed | custom_components/buildtrack/fan.py:108-113 | issues nothing when the guard fires; otherwise exactly one switch-on at current − step |

## Left out

- `async_setup_entry` (entity registration through the host's executor) is host-platform plumbing and is not modelled.
- The hub client `BuildTrackAPI` is not part of this model; its source is not available. Each command sent to it (`listen_device_state`, `switch_on`, `switch_off`) is recorded as a `HubCommand` in the trace. Its queries are not, and nothing is assumed about its effect.
- Failures raised by the hub client propagate unhandled in the code; they are not modelled.
- `is_on` and `percentage` only forward a hub query. `percentage` appears as the `speed`/`currentSpeed` parameter of the operations that read it; `is_on` is not modelled.
- GetPresetMode: the code queries the hub once for each comparison. The model takes one reading per call, so it assumes all those queries agree.
- The host's event bus is not modelled; fired events are only recorded in the ghost trace.
- Async scheduling is not modelled, nor the race between concurrent increase and decrease calls (read, then write).
- IncreaseSpeed, DecreaseSpeed: both step methods `await` the integer speed reading, which would raise TypeError at run time; the model has no await and does not model that error. The write goes through the inherited synchronous `set_percentage`, not `async_set_percentage`. It is modelled as one switch-on request with no bus event.
- `supported_features` is modelled as the set {SetSpeed, PresetMode}. The host platform's numeric flag values are not part of the model.
- The constant getters `current_direction`, `oscillating`, `speed_count` and `should_poll` are plain constants; nothing about them is proved.
- The class attribute `percentage: int = 0` is shadowed by the property and is not modelled. The same goes for logging and the unused `pread` import.
