/**
 * Device handlers (ClaudeMCP_Remote/tools/devices_core.py): listing devices
 * and parameters, writing a parameter by index or by name, switching a
 * device, deleting it, and randomizing its free parameters.
 */
module DevicesCore {
  import opened Base
  import opened LiveSet

  /** The error a device without an `is_active` attribute raises when it is read. */
  const MissingIsActive: string := "object has no attribute 'is_active'"

  /** Track index, device index, then parameter index. */
  function ParamCheck(tracks: seq<Track>, t: int, d: int, p: int): (r: Option<string>)
    ensures r.None? <==> ValidParameter(tracks, t, d, p)
    ensures DeviceCheck(tracks, t, d).Some? ==> r == DeviceCheck(tracks, t, d)
    ensures ValidDevice(tracks, t, d) && !ValidParameter(tracks, t, d, p) ==> r == Some(InvalidParameter)
  {
    var e := DeviceCheck(tracks, t, d);
    if e.Some? then e
    else if !(0 <= p < |tracks[t].devices[d].parameters|) then Some(InvalidParameter)
    else None
  }

  // ---------------------------------------------------------------------------
  // Listing
  // ---------------------------------------------------------------------------

  /** One entry of `get_track_devices`. */
  datatype DeviceEntry = DeviceEntry(name: string, className: string, isActive: bool, numParameters: nat)

  datatype TrackDevices = TrackDevices(trackIndex: int, devices: seq<DeviceEntry>, count: nat)

  /**
   * `get_track_devices`: one entry per device, in order. Reading `is_active`
   * of a device that lacks it raises, and the handler reports the error.
   */
  method GetTrackDevices(song: Song, trackIndex: int) returns (r: Reply<TrackDevices>)
    ensures !ValidTrack(song.tracks, trackIndex) ==> r == Fail(InvalidTrack)
    ensures ValidTrack(song.tracks, trackIndex) ==>
      var ds := song.tracks[trackIndex].devices;
      if exists i :: 0 <= i < |ds| && ds[i].isActive.None? then r == Fail(MissingIsActive)
      else (
        && r.Ok? && r.value.trackIndex == trackIndex
        && |r.value.devices| == |ds| && r.value.count == |ds|
        && forall i :: 0 <= i < |ds| ==>
             r.value.devices[i] == DeviceEntry(ds[i].name, ds[i].className, ds[i].isActive.value, |ds[i].parameters|))
  {
    if trackIndex < 0 || trackIndex >= |song.tracks| {
      return Fail(InvalidTrack);
    }
    var ds := song.tracks[trackIndex].devices;
    var entries: seq<DeviceEntry> := [];
    var i := 0;
    while i < |ds|
      invariant i <= |ds| && |entries| == i
      invariant forall j :: 0 <= j < i ==> (ds[j].isActive.Some?
        && entries[j] == DeviceEntry(ds[j].name, ds[j].className, ds[j].isActive.value, |ds[j].parameters|))
    {
      var device := ds[i];
      if device.isActive.None? {
        return Fail(MissingIsActive);
      }
      entries := entries + [DeviceEntry(device.name, device.className, device.isActive.value, |device.parameters|)];
      i := i + 1;
    }
    return Ok(TrackDevices(trackIndex, entries, |entries|));
  }

  /** One entry of `get_device_parameters`; `is_enabled` reads true when the attribute is absent. */
  datatype ParamEntry = ParamEntry(index: nat, name: string, value: real, min: real, max: real,
                                   isQuantized: bool, isEnabled: bool)

  datatype DeviceParameters = DeviceParameters(trackIndex: int, deviceIndex: int, parameters: seq<ParamEntry>, count: nat)

  /** `get_device_parameters`: one entry per parameter with its position as `index`. */
  method GetDeviceParameters(song: Song, trackIndex: int, deviceIndex: int) returns (r: Reply<DeviceParameters>)
    ensures var e := DeviceCheck(song.tracks, trackIndex, deviceIndex);
      if e.Some? then r == Fail(e.value)
      else (
        var ps := song.tracks[trackIndex].devices[deviceIndex].parameters;
        && r.Ok? && r.value.trackIndex == trackIndex && r.value.deviceIndex == deviceIndex
        && |r.value.parameters| == |ps| && r.value.count == |ps|
        && forall i :: 0 <= i < |ps| ==>
             var entry := r.value.parameters[i];
             && entry.index == i && entry.name == ps[i].name && entry.value == ps[i].value
             && entry.min == ps[i].min && entry.max == ps[i].max && entry.isQuantized == ps[i].isQuantized
             && entry.isEnabled == (ps[i].isEnabled != Some(false)))
  {
    if trackIndex < 0 || trackIndex >= |song.tracks| {
      return Fail(InvalidTrack);
    }
    var track := song.tracks[trackIndex];
    if deviceIndex < 0 || deviceIndex >= |track.devices| {
      return Fail(InvalidDevice);
    }
    var ps := track.devices[deviceIndex].parameters;
    var entries: seq<ParamEntry> := [];
    var i := 0;
    while i < |ps|
      invariant i <= |ps| && |entries| == i
      invariant forall j :: 0 <= j < i ==>
        entries[j] == ParamEntry(j, ps[j].name, ps[j].value, ps[j].min, ps[j].max, ps[j].isQuantized,
                                 if ps[j].isEnabled.Some? then ps[j].isEnabled.value else true)
    {
      var p := ps[i];
      var enabled := if p.isEnabled.Some? then p.isEnabled.value else true;
      entries := entries + [ParamEntry(i, p.name, p.value, p.min, p.max, p.isQuantized, enabled)];
      i := i + 1;
    }
    return Ok(DeviceParameters(trackIndex, deviceIndex, entries, |entries|));
  }

  // ---------------------------------------------------------------------------
  // Writing a parameter
  // ---------------------------------------------------------------------------

  /** The set with parameter `(t, d, p)` holding `v`. */
  function SetParamValue(tracks: seq<Track>, t: nat, d: nat, p: nat, v: real): seq<Track>
    requires ValidParameter(tracks, t, d, p)
  {
    var dev := tracks[t].devices[d];
    SetDevice(tracks, t, d, dev.(parameters := dev.parameters[p := dev.parameters[p].(value := v)]))
  }

  /** Writing one parameter's value changes that value and nothing else in the set. */
  lemma SetParamValueFrame(tracks: seq<Track>, t: nat, d: nat, p: nat, v: real)
    requires ValidParameter(tracks, t, d, p)
    ensures var r := SetParamValue(tracks, t, d, p, v);
      && SameShape(tracks, r)
      && r[t].devices[d] == tracks[t].devices[d].(parameters := r[t].devices[d].parameters)
      && |r[t].devices[d].parameters| == |tracks[t].devices[d].parameters|
      && r[t].devices[d].parameters[p] == tracks[t].devices[d].parameters[p].(value := v)
      && (forall q :: 0 <= q < |r[t].devices[d].parameters| && q != p ==>
            r[t].devices[d].parameters[q] == tracks[t].devices[d].parameters[q])
      && (forall u, e :: 0 <= u < |r| && 0 <= e < |r[u].devices| && (u, e) != (t, d) ==> r[u].devices[e] == tracks[u].devices[e])
      && (forall u :: 0 <= u < |r| ==> r[u].slots == tracks[u].slots)
  {
    var dev := tracks[t].devices[d];
    SetDeviceFrame(tracks, t, d, dev.(parameters := dev.parameters[p := dev.parameters[p].(value := v)]));
  }

  /** `set_device_param`: writes the addressed parameter and reports its new value. */
  method SetDeviceParam(song: Song, trackIndex: int, deviceIndex: int, paramIndex: int, value: real) returns (r: Reply<real>)
    modifies song
    ensures song.calls == old(song.calls)
    ensures var e := ParamCheck(old(song.tracks), trackIndex, deviceIndex, paramIndex);
      if e.Some? then r == Fail(e.value) && song.tracks == old(song.tracks)
      else r == Ok(value) && song.tracks == SetParamValue(old(song.tracks), trackIndex, deviceIndex, paramIndex, value)
  {
    if trackIndex < 0 || trackIndex >= |song.tracks| {
      return Fail(InvalidTrack);
    }
    var track := song.tracks[trackIndex];
    if deviceIndex < 0 || deviceIndex >= |track.devices| {
      return Fail(InvalidDevice);
    }
    var device := track.devices[deviceIndex];
    if paramIndex < 0 || paramIndex >= |device.parameters| {
      return Fail(InvalidParameter);
    }
    song.tracks := SetParamValue(song.tracks, trackIndex, deviceIndex, paramIndex, value);
    return Ok(song.tracks[trackIndex].devices[deviceIndex].parameters[paramIndex].value);
  }

  /** `set_device_on_off`: switches a device that has `is_active`, and refuses one that has not. */
  method SetDeviceOnOff(song: Song, trackIndex: int, deviceIndex: int, enabled: bool) returns (r: Reply<bool>)
    modifies song
    ensures song.calls == old(song.calls)
    ensures var tracks := old(song.tracks); var e := DeviceCheck(tracks, trackIndex, deviceIndex);
      if e.Some? then r == Fail(e.value) && song.tracks == tracks
      else (
        var dev := tracks[trackIndex].devices[deviceIndex];
        if dev.isActive.None? then r == Fail("Device does not support on/off") && song.tracks == tracks
        else r == Ok(enabled) && song.tracks == SetDevice(tracks, trackIndex, deviceIndex, dev.(isActive := Some(enabled))))
  {
    if trackIndex < 0 || trackIndex >= |song.tracks| {
      return Fail(InvalidTrack);
    }
    var track := song.tracks[trackIndex];
    if deviceIndex < 0 || deviceIndex >= |track.devices| {
      return Fail(InvalidDevice);
    }
    var device := track.devices[deviceIndex];
    if device.isActive.Some? {
      song.tracks := SetDevice(song.tracks, trackIndex, deviceIndex, device.(isActive := Some(enabled)));
      return Ok(enabled);
    } else {
      return Fail("Device does not support on/off");
    }
  }

  // ---------------------------------------------------------------------------
  // By name
  // ---------------------------------------------------------------------------

  /** The error both by-name handlers return when no parameter matches. */
  function NotFound(name: string): string
  {
    "Parameter '" + name + "' not found"
  }

  /** The position of the first parameter called `name`, if any. */
  function FirstNamed(ps: seq<Parameter>, name: string): (k: Option<nat>)
    ensures k.Some? ==> (k.value < |ps| && ps[k.value].name == name
      && forall j :: 0 <= j < k.value ==> ps[j].name != name)
    ensures k.None? ==> forall j :: 0 <= j < |ps| ==> ps[j].name != name
  {
    FirstNamedFrom(ps, name, 0)
  }

  function FirstNamedFrom(ps: seq<Parameter>, name: string, from: nat): (k: Option<nat>)
    requires forall j :: 0 <= j < from && j < |ps| ==> ps[j].name != name
    ensures k.Some? ==> (from <= k.value < |ps| && ps[k.value].name == name
      && forall j :: 0 <= j < k.value ==> ps[j].name != name)
    ensures k.None? ==> forall j :: 0 <= j < |ps| ==> ps[j].name != name
    decreases |ps| - from
  {
    if from >= |ps| then None
    else if ps[from].name == name then Some(from)
    else FirstNamedFrom(ps, name, from + 1)
  }

  /** The `for ... in enumerate(device.parameters)` search that returns on the first match. */
  method FindParameter(ps: seq<Parameter>, name: string) returns (k: Option<nat>)
    ensures k == FirstNamed(ps, name)
  {
    var i := 0;
    while i < |ps|
      invariant i <= |ps|
      invariant forall j :: 0 <= j < i ==> ps[j].name != name
    {
      if ps[i].name == name {
        return Some(i);
      }
      i := i + 1;
    }
    return None;
  }

  /** What `get_device_parameter_by_name` reports about the match. */
  datatype NamedParameter = NamedParameter(index: nat, name: string, value: real, min: real, max: real)

  /** `get_device_parameter_by_name`: the first parameter with that name, with its position. */
  method GetDeviceParameterByName(song: Song, trackIndex: int, deviceIndex: int, name: string) returns (r: Reply<NamedParameter>)
    ensures var e := DeviceCheck(song.tracks, trackIndex, deviceIndex);
      if e.Some? then r == Fail(e.value)
      else (
        var ps := song.tracks[trackIndex].devices[deviceIndex].parameters;
        var k := FirstNamed(ps, name);
        if k.None? then r == Fail(NotFound(name))
        else r == Ok(NamedParameter(k.value, name, ps[k.value].value, ps[k.value].min, ps[k.value].max)))
  {
    if trackIndex < 0 || trackIndex >= |song.tracks| {
      return Fail(InvalidTrack);
    }
    var track := song.tracks[trackIndex];
    if deviceIndex < 0 || deviceIndex >= |track.devices| {
      return Fail(InvalidDevice);
    }
    var ps := track.devices[deviceIndex].parameters;
    var k := FindParameter(ps, name);
    if k.None? {
      return Fail(NotFound(name));
    }
    var p := ps[k.value];
    return Ok(NamedParameter(k.value, p.name, p.value, p.min, p.max));
  }

  /** What `set_device_parameter_by_name` reports: the parameter's name and new value. */
  datatype NamedValue = NamedValue(name: string, value: real)

  /** The outcome of setting a parameter by name, shared by both handlers that do it. */
  ghost predicate SetByNameOutcome(before: seq<Track>, after: seq<Track>, t: int, d: int, name: string, value: real,
                                   r: Reply<NamedValue>)
  {
    var e := DeviceCheck(before, t, d);
    if e.Some? then r == Fail(e.value) && after == before
    else
      var k := FirstNamed(before[t].devices[d].parameters, name);
      if k.None? then r == Fail(NotFound(name)) && after == before
      else r == Ok(NamedValue(name, value)) && after == SetParamValue(before, t, d, k.value, value)
  }

  /** `set_device_parameter_by_name`: writes the first parameter with that name. */
  method SetDeviceParameterByName(song: Song, trackIndex: int, deviceIndex: int, name: string, value: real)
    returns (r: Reply<NamedValue>)
    modifies song
    ensures song.calls == old(song.calls)
    ensures SetByNameOutcome(old(song.tracks), song.tracks, trackIndex, deviceIndex, name, value, r)
  {
    if trackIndex < 0 || trackIndex >= |song.tracks| {
      return Fail(InvalidTrack);
    }
    var track := song.tracks[trackIndex];
    if deviceIndex < 0 || deviceIndex >= |track.devices| {
      return Fail(InvalidDevice);
    }
    var ps := track.devices[deviceIndex].parameters;
    var k := FindParameter(ps, name);
    if k.None? {
      return Fail(NotFound(name));
    }
    song.tracks := SetParamValue(song.tracks, trackIndex, deviceIndex, k.value, value);
    return Ok(NamedValue(ps[k.value].name, value));
  }

  /** Setting by name then getting by name reads back the value, at the same position. */
  lemma SetThenGetByName(tracks: seq<Track>, t: nat, d: nat, name: string, value: real)
    requires ValidDevice(tracks, t, d) && FirstNamed(tracks[t].devices[d].parameters, name).Some?
    ensures var k := FirstNamed(tracks[t].devices[d].parameters, name).value;
      var after := SetParamValue(tracks, t, d, k, value);
      && FirstNamed(after[t].devices[d].parameters, name) == Some(k)
      && after[t].devices[d].parameters[k].value == value
  {
    var k := FirstNamed(tracks[t].devices[d].parameters, name).value;
    SetParamValueFrame(tracks, t, d, k, value);
    var after := SetParamValue(tracks, t, d, k, value);
    var ps := after[t].devices[d].parameters;
    assert ps[k].name == name;
    assert forall j :: 0 <= j < k ==> ps[j] == tracks[t].devices[d].parameters[j];
  }

  // ---------------------------------------------------------------------------
  // Deleting
  // ---------------------------------------------------------------------------

  /** The set with device `(t, d)` removed from its chain, what the host's `delete_device` does. */
  function WithoutDevice(tracks: seq<Track>, t: nat, d: nat): seq<Track>
    requires ValidDevice(tracks, t, d)
  {
    var devs := tracks[t].devices;
    tracks[t := tracks[t].(devices := devs[..d] + devs[d + 1..])]
  }

  /** After a delete the later devices move down one place, and nothing else changes. */
  lemma WithoutDeviceShifts(tracks: seq<Track>, t: nat, d: nat)
    requires ValidDevice(tracks, t, d)
    ensures var r := WithoutDevice(tracks, t, d); var devs := tracks[t].devices;
      && |r| == |tracks|
      && |r[t].devices| == |devs| - 1
      && (forall i :: 0 <= i < d ==> r[t].devices[i] == devs[i])
      && (forall i :: d <= i < |devs| - 1 ==> r[t].devices[i] == devs[i + 1])
      && r[t].slots == tracks[t].slots && r[t].name == tracks[t].name
      && (forall u :: 0 <= u < |r| && u != t ==> r[u] == tracks[u])
  {
  }

  /** `delete_device`: removes the addressed device from the track. */
  method DeleteDevice(song: Song, trackIndex: int, deviceIndex: int) returns (r: Reply<()>)
    modifies song
    ensures song.calls == old(song.calls)
    ensures var e := DeviceCheck(old(song.tracks), trackIndex, deviceIndex);
      if e.Some? then r == Fail(e.value) && song.tracks == old(song.tracks)
      else r == Ok(()) && song.tracks == WithoutDevice(old(song.tracks), trackIndex, deviceIndex)
  {
    if trackIndex < 0 || trackIndex >= |song.tracks| {
      return Fail(InvalidTrack);
    }
    var track := song.tracks[trackIndex];
    if deviceIndex < 0 || deviceIndex >= |track.devices| {
      return Fail(InvalidDevice);
    }
    song.tracks := WithoutDevice(song.tracks, trackIndex, deviceIndex);
    return Ok(());
  }

  // ---------------------------------------------------------------------------
  // Randomizing
  // ---------------------------------------------------------------------------

  /** A parameter `randomize_device` touches: `is_enabled` present and true, and not quantized. */
  predicate Eligible(p: Parameter)
  {
    p.isEnabled == Some(true) && !p.isQuantized
  }

  /** `random.uniform(a, b)` lies between its bounds, in either order. */
  predicate Between(v: real, a: real, b: real)
  {
    a <= v <= b || b <= v <= a
  }

  function CountEligible(ps: seq<Parameter>): (n: nat)
    ensures n <= |ps|
  {
    if ps == [] then 0
    else CountEligible(ps[..|ps| - 1]) + (if Eligible(ps[|ps| - 1]) then 1 else 0)
  }

  /** There is nothing to randomize exactly when no parameter is eligible. */
  lemma {:induction false} CountEligibleZero(ps: seq<Parameter>)
    ensures CountEligible(ps) == 0 <==> forall i :: 0 <= i < |ps| ==> !Eligible(ps[i])
  {
    if ps != [] {
      var init := ps[..|ps| - 1];
      CountEligibleZero(init);
      assert forall i :: 0 <= i < |init| ==> init[i] == ps[i];
    }
  }

  /** An eligible parameter gets a value between its bounds and keeps every other field; the rest stay as they were. */
  predicate RandomizedAt(before: Parameter, after: Parameter)
  {
    if Eligible(before) then after == before.(value := after.value) && Between(after.value, before.min, before.max)
    else after == before
  }

  /** What `randomize_device` reports. */
  datatype Randomized = Randomized(trackIndex: int, deviceIndex: int, deviceName: string, randomizedParameters: nat)

  /** The outcome of randomizing a device, shared by both handlers that do it. */
  ghost predicate RandomizeOutcome(before: seq<Track>, after: seq<Track>, t: int, d: int, r: Reply<Randomized>)
  {
    var e := DeviceCheck(before, t, d);
    if e.Some? then r == Fail(e.value) && after == before
    else
      var dev := before[t].devices[d];
      && ValidDevice(after, t, d)
      && var ps := after[t].devices[d].parameters;
      && after == SetDevice(before, t, d, dev.(parameters := ps))
      && |ps| == |dev.parameters|
      && (forall i :: 0 <= i < |ps| ==> RandomizedAt(dev.parameters[i], ps[i]))
      && r == Ok(Randomized(t, d, dev.name, CountEligible(dev.parameters)))
  }

  /** One draw of `random.uniform(lo, hi)`. */
  method Uniform(lo: real, hi: real) returns (v: real)
    ensures Between(v, lo, hi)
  {
    assert Between(lo, lo, hi);
    v :| Between(v, lo, hi);
  }

  /**
   * `randomize_device`: walks the parameters, writes a fresh value into each
   * eligible one and counts the writes.
   */
  method RandomizeDevice(song: Song, trackIndex: int, deviceIndex: int) returns (r: Reply<Randomized>)
    modifies song
    ensures song.calls == old(song.calls)
    ensures RandomizeOutcome(old(song.tracks), song.tracks, trackIndex, deviceIndex, r)
  {
    if trackIndex < 0 || trackIndex >= |song.tracks| {
      return Fail(InvalidTrack);
    }
    var track := song.tracks[trackIndex];
    if deviceIndex < 0 || deviceIndex >= |track.devices| {
      return Fail(InvalidDevice);
    }
    var tracks := song.tracks;
    var device := track.devices[deviceIndex];
    var original := device.parameters;
    var ps := original;
    var count := 0;
    SetDeviceSame(tracks, trackIndex, deviceIndex);
    var i := 0;
    while i < |original|
      invariant i <= |original| && |ps| == |original|
      invariant forall j :: 0 <= j < i ==> RandomizedAt(original[j], ps[j])
      invariant forall j :: i <= j < |original| ==> ps[j] == original[j]
      invariant count == CountEligible(original[..i])
      invariant song.tracks == SetDevice(tracks, trackIndex, deviceIndex, device.(parameters := ps))
      invariant song.calls == old(song.calls)
    {
      var p := ps[i];
      assert original[..i + 1][..i] == original[..i];
      if Eligible(p) {
        var v := Uniform(p.min, p.max);
        ps := ps[i := p.(value := v)];
        song.tracks := SetDevice(tracks, trackIndex, deviceIndex, device.(parameters := ps));
        count := count + 1;
      }
      i := i + 1;
    }
    assert original[..|original|] == original;
    RandomizedDevice(tracks, trackIndex, deviceIndex, ps);
    return Ok(Randomized(trackIndex, deviceIndex, device.name, count));
  }

  /** Writing back a parameter list that is randomized entry by entry gives a randomize outcome. */
  lemma RandomizedDevice(tracks: seq<Track>, t: nat, d: nat, ps: seq<Parameter>)
    requires ValidDevice(tracks, t, d)
    requires var original := tracks[t].devices[d].parameters;
      |ps| == |original| && forall j :: 0 <= j < |ps| ==> RandomizedAt(original[j], ps[j])
    ensures var dev := tracks[t].devices[d];
      RandomizeOutcome(tracks, SetDevice(tracks, t, d, dev.(parameters := ps)), t, d,
                       Ok(Randomized(t, d, dev.name, CountEligible(dev.parameters))))
  {
    var dev := tracks[t].devices[d];
    SetDeviceFrame(tracks, t, d, dev.(parameters := ps));
  }

  /** `randomize_device_parameters`: delegates to `randomize_device`. */
  method RandomizeDeviceParameters(song: Song, trackIndex: int, deviceIndex: int) returns (r: Reply<Randomized>)
    modifies song
    ensures song.calls == old(song.calls)
    ensures RandomizeOutcome(old(song.tracks), song.tracks, trackIndex, deviceIndex, r)
  {
    r := RandomizeDevice(song, trackIndex, deviceIndex);
  }

  /** A device with nothing eligible is left exactly as it was, and the count is zero. */
  lemma RandomizeNothingEligible(before: seq<Track>, after: seq<Track>, t: nat, d: nat, r: Reply<Randomized>)
    requires ValidDevice(before, t, d)
    requires forall i :: 0 <= i < |before[t].devices[d].parameters| ==> !Eligible(before[t].devices[d].parameters[i])
    requires RandomizeOutcome(before, after, t, d, r)
    ensures after == before
    ensures r.Ok? && r.value.randomizedParameters == 0
  {
    var dev := before[t].devices[d];
    var ps := after[t].devices[d].parameters;
    assert ps == dev.parameters;
    assert dev.(parameters := ps) == dev;
    SetDeviceSame(before, t, d);
    CountEligibleZero(dev.parameters);
  }
}
