/** The BuildTrack fan entity: one vendor fan device seen through the host
    platform's fan abstraction. The hub and the host's event bus are not
    modelled; every command the entity sends to the hub and every event it
    fires is recorded, in order, in a ghost trace. Hub queries are not.
    The speed the hub reports is a parameter of each operation that
    reads it. */
module BuildTrackFan {
  import opened Wrappers
  import opened FanPresets

  type DeviceId = string

  /** A request the entity makes of the hub client. */
  datatype HubCommand =
    | ListenDeviceState(deviceId: DeviceId)
    | SwitchOn(deviceId: DeviceId, percentage: Option<int>)
    | SwitchOff(deviceId: DeviceId)

  /** The payload of a `buildtrack_fan_state_change` event on the host's bus. */
  datatype StateChange = StateChange(eventType: string, integration: string, entityName: string, state: string)

  /** One observable effect of the entity, in the order it happens. */
  datatype Effect = HubCall(command: HubCommand) | BusFire(event: StateChange)

  /** The error `list.index` raises for a name that is not a preset. */
  datatype Error = ValueError(name: string)

  datatype Outcome = Pass | Fail(error: Error)

  /** Capabilities the entity reports through `supported_features`. */
  datatype Feature = SetSpeed | PresetMode

  const EventType: string := "buildtrack_fan_state_change"
  const Integration: string := "buildtrack"
  const CurrentDirection: string := "Clockwise"
  const Oscillating: bool := false
  const SpeedCount: nat := 100
  const ShouldPoll: bool := true
  const SupportedFeatures: set<Feature> := {SetSpeed, PresetMode}

  /** The target `async_increase_speed` requests, or None when the guard
      `current + step > 100` returns early. */
  function IncreaseTarget(current: int, step: int): (r: Option<int>)
    ensures r.None? <==> current + step > 100
    ensures r.Some? ==> r.value == current + step && r.value <= 100
  {
    if current + step > 100 then None else Some(current + step)
  }

  /** The target `async_decrease_speed` requests, or None when the guard
      `current + step < 0` returns early. The guard tests the sum, so the
      target itself may be negative. */
  function DecreaseTarget(current: int, step: int): (r: Option<int>)
    ensures r.None? <==> current + step < 0
    ensures r.Some? ==> r.value == current - step
  {
    if current + step < 0 then None else Some(current - step)
  }

  /** A decrease by more than the current speed still passes the guard and
      requests a negative speed. */
  lemma DecreaseCanGoNegative(current: int, step: int)
    requires 0 <= current < step
    ensures DecreaseTarget(current, step).Some? && DecreaseTarget(current, step).value < 0
  {
  }

  class FanEntity {
    const roomName: string
    const roomId: string
    const id: DeviceId
    const fanName: string
    const fanPinType: string

    /** The preset last selected by the `preset_mode` getter. */
    var selectedPresetMode: string

    /** Hub commands and bus events issued by this entity, oldest first. */
    ghost var trace: seq<Effect>

    ghost predicate Valid()
      reads this
    {
      selectedPresetMode in PresetModes
    }

    /** Builds the entity from a hub device record and registers for its state. */
    constructor (roomName: string, roomId: string, id: DeviceId, fanLabel: string, pinType: string)
      ensures Valid()
      ensures this.roomName == roomName && this.roomId == roomId && this.id == id
      ensures this.fanName == fanLabel && this.fanPinType == pinType
      ensures selectedPresetMode == InitialPresetMode
      ensures trace == [HubCall(ListenDeviceState(id))]
    {
      this.roomName := roomName;
      this.roomId := roomId;
      this.id := id;
      this.fanName := fanLabel;
      this.fanPinType := pinType;
      selectedPresetMode := InitialPresetMode;
      trace := [HubCall(ListenDeviceState(id))];
    }

    function Name(): string
    {
      EntityName(roomName, fanName)
    }

    /** The state-change event a command fires with the given state label. */
    function Notice(state: string): StateChange
    {
      StateChange(EventType, Integration, Name(), state)
    }

    /** The `preset_mode` getter, given the speed the hub reports: updates the
        cached preset when the speed falls in a band and returns the cache. */
    method GetPresetMode(speed: int) returns (mode: string)
      requires Valid()
      modifies this`selectedPresetMode
      ensures Valid()
      ensures mode == selectedPresetMode
      ensures selectedPresetMode == PresetModeFor(speed, old(selectedPresetMode))
    {
      if speed > 0 && speed <= 10 {
        selectedPresetMode := PresetModes[0];
      } else if speed > 11 && speed <= 30 {
        selectedPresetMode := PresetModes[1];
      } else if speed > 31 && speed <= 70 {
        selectedPresetMode := PresetModes[2];
      } else if speed > 71 && speed <= 90 {
        selectedPresetMode := PresetModes[3];
      } else if speed > 90 {
        selectedPresetMode := PresetModes[4];
      }
      mode := selectedPresetMode;
    }

    /** `async_set_percentage`: one switch-on at the given speed, then one event. */
    method SetPercentage(percentage: int)
      modifies this`trace
      ensures trace == old(trace) + [HubCall(SwitchOn(id, Some(percentage))), BusFire(Notice("percentage"))]
    {
      trace := trace + [HubCall(SwitchOn(id, Some(percentage)))];
      trace := trace + [BusFire(Notice("percentage"))];
    }

    /** `async_turn_on`: one switch-on without a speed, then one event. */
    method TurnOn()
      modifies this`trace
      ensures trace == old(trace) + [HubCall(SwitchOn(id, None)), BusFire(Notice("on"))]
    {
      trace := trace + [HubCall(SwitchOn(id, None))];
      trace := trace + [BusFire(Notice("on"))];
    }

    /** `async_turn_off`: one switch-off, then one event. */
    method TurnOff()
      modifies this`trace
      ensures trace == old(trace) + [HubCall(SwitchOff(id)), BusFire(Notice("off"))]
    {
      trace := trace + [HubCall(SwitchOff(id))];
      trace := trace + [BusFire(Notice("off"))];
    }

    /** `async_set_preset_mode`: looks the name up in the preset list and
        requests the percentage of its slot; an unknown name fails before any
        hub command or event. */
    method SetPresetMode(presetMode: string) returns (outcome: Outcome)
      modifies this`trace
      ensures presetMode !in PresetModes ==> outcome == Fail(ValueError(presetMode)) && trace == old(trace)
      ensures presetMode in PresetModes ==> outcome == Pass
      ensures presetMode in PresetModes ==>
        trace == old(trace) + [HubCall(SwitchOn(id, PresetPercentage(presetMode))), BusFire(Notice("percentage"))]
    {
      var index := IndexOf(PresetModes, presetMode);
      if index.None? {
        return Fail(ValueError(presetMode));
      }
      if index.value == 0 {
        SetPercentage(8);
      } else if index.value == 1 {
        SetPercentage(20);
      } else if index.value == 2 {
        SetPercentage(50);
      } else if index.value == 3 {
        SetPercentage(80);
      } else if index.value == 4 {
        SetPercentage(95);
      }
      outcome := Pass;
    }

    /** `async_increase_speed`, given the speed the hub reports: nothing when
        the sum passes 100, otherwise one switch-on at the sum. */
    method IncreaseSpeed(currentSpeed: int, percentageStep: int)
      modifies this`trace
      ensures IncreaseTarget(currentSpeed, percentageStep).None? ==> trace == old(trace)
      ensures IncreaseTarget(currentSpeed, percentageStep).Some? ==>
        trace == old(trace) + [HubCall(SwitchOn(id, IncreaseTarget(currentSpeed, percentageStep)))]
    {
      if currentSpeed + percentageStep > 100 {
        return;
      }
      trace := trace + [HubCall(SwitchOn(id, Some(currentSpeed + percentageStep)))];
    }

    /** `async_decrease_speed`, given the speed the hub reports: nothing when
        the sum is negative, otherwise one switch-on at the difference. */
    method DecreaseSpeed(currentSpeed: int, percentageStep: int)
      modifies this`trace
      ensures DecreaseTarget(currentSpeed, percentageStep).None? ==> trace == old(trace)
      ensures DecreaseTarget(currentSpeed, percentageStep).Some? ==>
        trace == old(trace) + [HubCall(SwitchOn(id, DecreaseTarget(currentSpeed, percentageStep)))]
    {
      if currentSpeed + percentageStep < 0 {
        return;
      }
      trace := trace + [HubCall(SwitchOn(id, Some(currentSpeed - percentageStep)))];
    }
  }
}
