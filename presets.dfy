/** The pure part of the BuildTrack fan entity: the five preset names, the
    preset-to-percentage write table, the percentage-to-preset read bands and
    the entity's display name. */
module FanPresets {
  import opened Wrappers

  /** The ordered preset list of the entity (`preset_modes`). */
  const PresetModes: seq<string> := ["Very Low", "Low", "Medium", "High", "Very High"]

  /** The value `selected_preset_mode` holds before any read assigns it. */
  const InitialPresetMode: string := "Low"

  /** Exclusive lower bound of each read band, by preset index. */
  const BandFloor: seq<int> := [0, 11, 31, 71, 90]

  /** Inclusive upper bound of the first four read bands; the fifth has none. */
  const BandCeiling: seq<int> := [10, 30, 70, 90]

  /** Reference statement of the read bands as a table:
      band i is (BandFloor[i], BandCeiling[i]], the last one unbounded above. */
  predicate InBand(speed: int, i: nat)
    requires i < |PresetModes|
  {
    BandFloor[i] < speed && (i == |PresetModes| - 1 || speed <= BandCeiling[i])
  }

  /** Python's `list.index`: the position of the first element equal to `x`,
      or None where Python raises ValueError. */
  function IndexOf<T(==)>(s: seq<T>, x: T): (r: Option<nat>)
    ensures r.None? <==> x !in s
    ensures r.Some? ==> r.value < |s| && s[r.value] == x
    ensures r.Some? ==> forall j :: 0 <= j < r.value ==> s[j] != x
  {
    if s == [] then None
    else if s[0] == x then Some(0)
    else match IndexOf(s[1..], x)
      case None => None
      case Some(k) => Some(k + 1)
  }

  /** The if/elif dispatch of `async_set_preset_mode` from a preset index to
      the percentage it requests; an index past the chain requests nothing. */
  function WritePercentage(index: nat): (r: Option<int>)
    ensures r.Some? <==> index < |PresetModes|
    ensures r.Some? ==> 0 < r.value <= 100
  {
    if index == 0 then Some(8)
    else if index == 1 then Some(20)
    else if index == 2 then Some(50)
    else if index == 3 then Some(80)
    else if index == 4 then Some(95)
    else None
  }

  /** The if/elif chain of the `preset_mode` getter: which preset index a
      reported speed selects, or None when no branch fires. */
  function BandIndex(speed: int): (r: Option<nat>)
    ensures forall i :: 0 <= i < |PresetModes| ==> (r == Some(i) <==> InBand(speed, i))
    ensures r.Some? ==> r.value < |PresetModes|
    ensures r.None? <==> speed <= 0 || speed == 11 || speed == 31 || speed == 71
  {
    if speed > 0 && speed <= 10 then Some(0)
    else if speed > 11 && speed <= 30 then Some(1)
    else if speed > 31 && speed <= 70 then Some(2)
    else if speed > 71 && speed <= 90 then Some(3)
    else if speed > 90 then Some(4)
    else None
  }

  /** The value `selected_preset_mode` holds after the getter has seen `speed`,
      given the value it held before. */
  function PresetModeFor(speed: int, cached: string): (r: string)
    ensures forall i :: 0 <= i < |PresetModes| && InBand(speed, i) ==> r == PresetModes[i]
    ensures cached in PresetModes ==> r in PresetModes
    ensures BandIndex(speed).None? ==> r == cached
  {
    match BandIndex(speed)
    case Some(i) => PresetModes[i]
    case None => cached
  }

  /** The percentage `async_set_preset_mode(name)` requests, or None where the
      list lookup raises ValueError. */
  function PresetPercentage(name: string): (r: Option<int>)
    ensures r.Some? <==> name in PresetModes
    ensures r.Some? ==> 0 < r.value <= 100
  {
    match IndexOf(PresetModes, name)
    case None => None
    case Some(i) => WritePercentage(i)
  }

  /** The entity's display name, `f"{room_name} {fan_name}"`. */
  function EntityName(roomName: string, fanName: string): (r: string)
    ensures |r| == |roomName| + 1 + |fanName|
    ensures r[..|roomName|] == roomName && r[|roomName|] == ' ' && r[|roomName| + 1..] == fanName
  {
    roomName + " " + fanName
  }

  /** Every preset name sits at exactly one position of the list. */
  lemma PresetModesDistinct()
    ensures forall i, j :: 0 <= i < j < |PresetModes| ==> PresetModes[i] != PresetModes[j]
  {
  }

  /** Looking up the name at position i finds position i. */
  lemma IndexOfPreset(i: nat)
    requires i < |PresetModes|
    ensures IndexOf(PresetModes, PresetModes[i]) == Some(i)
  {
  }

  /** The write table, preset by preset: 8, 20, 50, 80 and 95. */
  lemma PresetPercentageTable()
    ensures PresetPercentage("Very Low") == Some(8)
    ensures PresetPercentage("Low") == Some(20)
    ensures PresetPercentage("Medium") == Some(50)
    ensures PresetPercentage("High") == Some(80)
    ensures PresetPercentage("Very High") == Some(95)
  {
  }

  /** Each write value falls into the read band of its own index. */
  lemma WriteLandsInBand(i: nat)
    requires i < |PresetModes|
    ensures WritePercentage(i).Some? && BandIndex(WritePercentage(i).value) == Some(i)
  {
  }

  /** Round trip: the percentage requested for a preset is read back as that
      preset, whatever the cache held before. */
  lemma PresetRoundTrip(name: string, cached: string)
    requires name in PresetModes
    ensures PresetPercentage(name).Some?
    ensures PresetModeFor(PresetPercentage(name).value, cached) == name
  {
  }

  /** The getter's result by name, band by band. */
  lemma PresetModeNames(speed: int, cached: string)
    ensures 0 < speed <= 10 ==> PresetModeFor(speed, cached) == "Very Low"
    ensures 11 < speed <= 30 ==> PresetModeFor(speed, cached) == "Low"
    ensures 31 < speed <= 70 ==> PresetModeFor(speed, cached) == "Medium"
    ensures 71 < speed <= 90 ==> PresetModeFor(speed, cached) == "High"
    ensures 90 < speed ==> PresetModeFor(speed, cached) == "Very High"
  {
  }

  /** A faster fan never reads as a slower preset. */
  lemma BandIndexMonotone(s1: int, s2: int)
    requires s1 <= s2 && BandIndex(s1).Some? && BandIndex(s2).Some?
    ensures BandIndex(s1).value <= BandIndex(s2).value
  {
  }
}
