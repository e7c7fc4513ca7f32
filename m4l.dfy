/**
 * Max for Live handlers (ClaudeMCP_Remote/tools/m4l_devices.py): recognising
 * Max devices by class name, listing them and CV Tools devices, and reading
 * or writing a parameter by name.
 */
module M4lDevices {
  import opened Base
  import opened LiveSet
  import DevicesCore

  /** The three class names Live gives Max for Live devices. */
  const M4lClasses: seq<string> := ["MxDeviceAudioEffect", "MxDeviceMidiEffect", "MxDeviceInstrument"]

  predicate IsM4lClass(className: string)
  {
    className in M4lClasses
  }

  /** `_get_m4l_type`: the kind of Max device a class name stands for. */
  function M4lType(className: string): (kind: string)
    ensures kind == "audio_effect" <==> className == "MxDeviceAudioEffect"
    ensures kind == "midi_effect" <==> className == "MxDeviceMidiEffect"
    ensures kind == "instrument" <==> className == "MxDeviceInstrument"
    ensures kind == "unknown" <==> !IsM4lClass(className)
  {
    if className == "MxDeviceAudioEffect" then "audio_effect"
    else if className == "MxDeviceMidiEffect" then "midi_effect"
    else if className == "MxDeviceInstrument" then "instrument"
    else "unknown"
  }

  /** What `is_max_device` reports. */
  datatype MaxDeviceInfo = MaxDeviceInfo(isM4l: bool, className: string, classDisplayName: string, deviceName: string)

  /** `is_max_device`: whether the addressed device is a Max device; the display name falls back to the class name. */
  function IsMaxDevice(tracks: seq<Track>, trackIndex: int, deviceIndex: int): (r: Reply<MaxDeviceInfo>)
    ensures r.Fail? <==> DeviceCheck(tracks, trackIndex, deviceIndex).Some?
    ensures r.Fail? ==> r.error == DeviceCheck(tracks, trackIndex, deviceIndex).value
    ensures r.Ok? ==>
      var dev := tracks[trackIndex].devices[deviceIndex];
      && (r.value.isM4l <==> IsM4lClass(dev.className))
      && r.value.className == dev.className && r.value.deviceName == dev.name
      && (dev.classDisplayName.Some? ==> r.value.classDisplayName == dev.classDisplayName.value)
      && (dev.classDisplayName.None? ==> r.value.classDisplayName == dev.className)
  {
    var e := DeviceCheck(tracks, trackIndex, deviceIndex);
    if e.Some? then Fail(e.value)
    else
      var dev := tracks[trackIndex].devices[deviceIndex];
      var display := if dev.classDisplayName.Some? then dev.classDisplayName.value else dev.className;
      Ok(MaxDeviceInfo(dev.className in M4lClasses, dev.className, display, dev.name))
  }

  // ---------------------------------------------------------------------------
  // Selecting devices of a track
  // ---------------------------------------------------------------------------

  /** ASCII case folding, as `str.lower` does on ASCII letters. */
  function LowerChar(c: char): char
  {
    if 'A' <= c <= 'Z' then (c as int + 32) as char else c
  }

  /** `str.lower()` on ASCII: no capital is left, and exactly the capitals change. */
  function Lower(s: string): (r: string)
    ensures |r| == |s|
    ensures forall i :: 0 <= i < |s| ==> r[i] == LowerChar(s[i])
    ensures forall i :: 0 <= i < |r| ==> !('A' <= r[i] <= 'Z')
    ensures forall i :: 0 <= i < |s| ==> (r[i] != s[i] <==> 'A' <= s[i] <= 'Z')
  {
    seq(|s|, i requires 0 <= i < |s| => LowerChar(s[i]))
  }

  /** The two selections the listing handlers make. */
  datatype Selection = MaxDevices | CvTools

  /** `get_cv_tools_devices` keeps a device whose name contains "CV" or whose lower-cased name contains "cv". */
  predicate IsCvName(name: string)
  {
    Contains(name, "CV") || Contains(Lower(name), "cv")
  }

  predicate Selects(sel: Selection, dev: Device)
  {
    match sel
    case MaxDevices => IsM4lClass(dev.className)
    case CvTools => IsCvName(dev.name)
  }

  /** The test on "CV" adds nothing: the lower-cased test alone selects the same names. */
  lemma CvIsLowerCv(name: string)
    ensures IsCvName(name) <==> Contains(Lower(name), "cv")
  {
    if Contains(name, "CV") {
      var i :| 0 <= i <= |name| && OccursAt("CV", name, i);
      assert name[i] == name[i..i + 2][0] == 'C';
      assert name[i + 1] == name[i..i + 2][1] == 'V';
      var low := Lower(name);
      assert low[i..i + 2] == "cv";
      assert OccursAt("cv", low, i);
    }
  }

  /** The CV selection looks only at the name: it can pick a device that is not a Max device. */
  lemma CvToolNeedNotBeMax()
    ensures var dev := Device("CV Shaper", "Compressor2", None, Some(true), []);
      Selects(CvTools, dev) && !Selects(MaxDevices, dev)
  {
    var name := "CV Shaper";
    assert OccursAt("CV", name, 0);
  }

  /** The positions of the selected devices, in device-chain order. */
  function Positions(ds: seq<Device>, sel: Selection): (r: seq<nat>)
    ensures forall k :: 0 <= k < |r| ==> r[k] < |ds|
  {
    if ds == [] then []
    else Positions(ds[..|ds| - 1], sel) + (if Selects(sel, ds[|ds| - 1]) then [|ds| - 1] else [])
  }

  /** The positions are increasing and name exactly the selected devices. */
  lemma {:induction false} PositionsExact(ds: seq<Device>, sel: Selection)
    ensures var r := Positions(ds, sel);
      && (forall k :: 0 <= k < |r| ==> r[k] < |ds| && Selects(sel, ds[r[k]]))
      && (forall k, l :: 0 <= k < l < |r| ==> r[k] < r[l])
      && (forall i :: 0 <= i < |ds| && Selects(sel, ds[i]) ==> i in r)
  {
    if ds != [] {
      var init := ds[..|ds| - 1];
      PositionsExact(init, sel);
      assert forall i :: 0 <= i < |init| ==> init[i] == ds[i];
      var r0, r, n := Positions(init, sel), Positions(ds, sel), |init|;
      if Selects(sel, ds[n]) {
        assert r == r0 + [n];
      } else {
        assert r == r0;
      }
    }
  }

  /**
   * One entry of `get_m4l_devices` or `get_cv_tools_devices`. Only the Max
   * listing has a `type` key, so `kind` is `None` in the CV listing.
   */
  datatype Listed = Listed(index: nat, name: string, className: string, kind: Option<string>,
                           isActive: bool, numParameters: nat)

  /** The entry built for the device at position `i`. */
  function EntryAt(sel: Selection, ds: seq<Device>, i: nat): Listed
    requires i < |ds| && ds[i].isActive.Some?
  {
    var d := ds[i];
    Listed(i, d.name, d.className, if sel == MaxDevices then Some(M4lType(d.className)) else None,
           d.isActive.value, |d.parameters|)
  }

  /** Some selected device lacks `is_active`, whose read then raises. */
  predicate SelectedLacksIsActive(ds: seq<Device>, sel: Selection)
  {
    exists i :: 0 <= i < |ds| && Selects(sel, ds[i]) && ds[i].isActive.None?
  }

  /** The listing loop over a device chain, device by device. */
  function Listing(ds: seq<Device>, sel: Selection): Reply<seq<Listed>>
  {
    if ds == [] then Ok([])
    else
      var prev := Listing(ds[..|ds| - 1], sel);
      var d := ds[|ds| - 1];
      if prev.Fail? || !Selects(sel, d) then prev
      else if d.isActive.None? then Fail(DevicesCore.MissingIsActive)
      else Ok(prev.value + [EntryAt(sel, ds, |ds| - 1)])
  }

  /** The listing fails exactly when a selected device lacks `is_active`, and then with that error. */
  lemma {:induction false} ListingFails(ds: seq<Device>, sel: Selection)
    ensures Listing(ds, sel).Fail? <==> SelectedLacksIsActive(ds, sel)
    ensures Listing(ds, sel).Fail? ==> Listing(ds, sel).error == DevicesCore.MissingIsActive
  {
    if ds != [] {
      var init := ds[..|ds| - 1];
      ListingFails(init, sel);
      assert forall i :: 0 <= i < |init| ==> init[i] == ds[i];
      if SelectedLacksIsActive(ds, sel) && !Selects(sel, ds[|ds| - 1]) {
        var i :| 0 <= i < |ds| && Selects(sel, ds[i]) && ds[i].isActive.None?;
        assert i < |init|;
      }
      if SelectedLacksIsActive(ds, sel) && ds[|ds| - 1].isActive.Some? {
        var i :| 0 <= i < |ds| && Selects(sel, ds[i]) && ds[i].isActive.None?;
        assert i < |init|;
      }
    }
  }

  /** A successful listing has one entry per selected device, in chain order, each at its own index. */
  lemma {:induction false} ListingEntries(ds: seq<Device>, sel: Selection)
    requires Listing(ds, sel).Ok?
    ensures var es := Listing(ds, sel).value; var pos := Positions(ds, sel);
      && |es| == |pos|
      && forall k :: 0 <= k < |pos| ==> ds[pos[k]].isActive.Some? && es[k] == EntryAt(sel, ds, pos[k])
  {
    if ds != [] {
      var init := ds[..|ds| - 1];
      ListingEntries(init, sel);
      assert forall i :: 0 <= i < |init| ==> init[i] == ds[i];
      var es0, pos0 := Listing(init, sel).value, Positions(init, sel);
      var es, pos := Listing(ds, sel).value, Positions(ds, sel);
      var n := |init|;
      if Selects(sel, ds[n]) {
        assert es == es0 + [EntryAt(sel, ds, n)] && pos == pos0 + [n];
        forall k | 0 <= k < |pos| ensures ds[pos[k]].isActive.Some? && es[k] == EntryAt(sel, ds, pos[k]) {
          if k < |pos0| {
            assert pos[k] == pos0[k] && es[k] == es0[k];
          }
        }
      } else {
        assert es == es0 && pos == pos0;
      }
    }
  }

  /** The listing loop: walks the chain and returns at the first selected device it cannot read. */
  method ListSelected(ds: seq<Device>, sel: Selection) returns (r: Reply<seq<Listed>>)
    ensures r == Listing(ds, sel)
  {
    var entries: seq<Listed> := [];
    var i := 0;
    while i < |ds|
      invariant i <= |ds|
      invariant Listing(ds[..i], sel) == Ok(entries)
    {
      assert ds[..i + 1][..i] == ds[..i];
      var device := ds[i];
      if Selects(sel, device) {
        if device.isActive.None? {
          assert Listing(ds[..i + 1], sel).Fail?;
          ListingStaysFailed(ds, i + 1, sel);
          return Fail(DevicesCore.MissingIsActive);
        }
        entries := entries + [EntryAt(sel, ds, i)];
      }
      i := i + 1;
    }
    assert ds[..|ds|] == ds;
    return Ok(entries);
  }

  /** Once the listing of a prefix fails, the listing of the whole chain fails the same way. */
  lemma {:induction false} ListingStaysFailed(ds: seq<Device>, n: nat, sel: Selection)
    requires n <= |ds| && Listing(ds[..n], sel) == Fail(DevicesCore.MissingIsActive)
    ensures Listing(ds, sel) == Fail(DevicesCore.MissingIsActive)
    decreases |ds| - n
  {
    if n < |ds| {
      assert ds[..n + 1][..n] == ds[..n];
      ListingStaysFailed(ds, n + 1, sel);
    } else {
      assert ds[..n] == ds;
    }
  }

  /** What both listing handlers report; `listKey` is the payload key of the list ("devices" or "cv_devices"). */
  datatype TrackListing = TrackListing(trackIndex: int, trackName: string, listKey: string, devices: seq<Listed>, count: nat)

  /** `get_m4l_devices`: the Max devices of the track, each with its index in the chain and its kind. */
  method GetM4lDevices(song: Song, trackIndex: int) returns (r: Reply<TrackListing>)
    ensures !ValidTrack(song.tracks, trackIndex) ==> r == Fail(InvalidTrack)
    ensures ValidTrack(song.tracks, trackIndex) ==>
      var track := song.tracks[trackIndex]; var l := Listing(track.devices, MaxDevices);
      if l.Fail? then r == Fail(l.error)
      else r == Ok(TrackListing(trackIndex, track.name, "devices", l.value, |l.value|))
  {
    if trackIndex < 0 || trackIndex >= |song.tracks| {
      return Fail(InvalidTrack);
    }
    var track := song.tracks[trackIndex];
    var l := ListSelected(track.devices, MaxDevices);
    if l.Fail? {
      return Fail(l.error);
    }
    return Ok(TrackListing(trackIndex, track.name, "devices", l.value, |l.value|));
  }

  /** `get_cv_tools_devices`: the devices whose name marks them as CV Tools, each with its index in the chain. */
  method GetCvToolsDevices(song: Song, trackIndex: int) returns (r: Reply<TrackListing>)
    ensures !ValidTrack(song.tracks, trackIndex) ==> r == Fail(InvalidTrack)
    ensures ValidTrack(song.tracks, trackIndex) ==>
      var track := song.tracks[trackIndex]; var l := Listing(track.devices, CvTools);
      if l.Fail? then r == Fail(l.error)
      else r == Ok(TrackListing(trackIndex, track.name, "cv_devices", l.value, |l.value|))
  {
    if trackIndex < 0 || trackIndex >= |song.tracks| {
      return Fail(InvalidTrack);
    }
    var track := song.tracks[trackIndex];
    var l := ListSelected(track.devices, CvTools);
    if l.Fail? {
      return Fail(l.error);
    }
    return Ok(TrackListing(trackIndex, track.name, "cv_devices", l.value, |l.value|));
  }

  // ---------------------------------------------------------------------------
  // Parameters by name
  // ---------------------------------------------------------------------------

  /** What `get_m4l_param_by_name` reports; `is_enabled` reads true when the attribute is absent. */
  datatype MaxParameter = MaxParameter(paramIndex: nat, name: string, value: real, min: real, max: real, isEnabled: bool)

  /** `get_m4l_param_by_name`: the first parameter with that name, with its position. */
  method GetM4lParamByName(song: Song, trackIndex: int, deviceIndex: int, name: string) returns (r: Reply<MaxParameter>)
    ensures var e := DeviceCheck(song.tracks, trackIndex, deviceIndex);
      if e.Some? then r == Fail(e.value)
      else (
        var ps := song.tracks[trackIndex].devices[deviceIndex].parameters;
        var k := DevicesCore.FirstNamed(ps, name);
        if k.None? then r == Fail(DevicesCore.NotFound(name))
        else (
          var p := ps[k.value];
          r == Ok(MaxParameter(k.value, name, p.value, p.min, p.max, p.isEnabled != Some(false)))))
  {
    if trackIndex < 0 || trackIndex >= |song.tracks| {
      return Fail(InvalidTrack);
    }
    var track := song.tracks[trackIndex];
    if deviceIndex < 0 || deviceIndex >= |track.devices| {
      return Fail(InvalidDevice);
    }
    var ps := track.devices[deviceIndex].parameters;
    var k := DevicesCore.FindParameter(ps, name);
    if k.None? {
      return Fail(DevicesCore.NotFound(name));
    }
    var p := ps[k.value];
    var enabled := if p.isEnabled.Some? then p.isEnabled.value else true;
    return Ok(MaxParameter(k.value, p.name, p.value, p.min, p.max, enabled));
  }

  /** `set_device_param_by_name`: delegates to `set_device_parameter_by_name`. */
  method SetDeviceParamByName(song: Song, trackIndex: int, deviceIndex: int, name: string, value: real)
    returns (r: Reply<DevicesCore.NamedValue>)
    modifies song
    ensures song.calls == old(song.calls)
    ensures DevicesCore.SetByNameOutcome(old(song.tracks), song.tracks, trackIndex, deviceIndex, name, value, r)
  {
    r := DevicesCore.SetDeviceParameterByName(song, trackIndex, deviceIndex, name, value);
  }
}
