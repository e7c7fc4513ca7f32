/**
 * The Live set as the tool handlers see it through `self.song`: tracks with
 * clip slots and devices, devices with parameters. The handlers read this
 * structure and change it in place, so the song is an object whose `tracks`
 * field the handler methods reassign. Host calls whose effect is Live's own
 * business (firing a clip, selecting notes) are recorded in `calls`.
 */
module LiveSet {
  import opened Base

  /** A MIDI note as the host exchanges it: `(pitch, start, duration, velocity, muted)`. */
  datatype Note = Note(pitch: int, start: real, duration: real, velocity: int, muted: bool)

  datatype Clip = Clip(
    name: string,
    length: real,
    loopStart: real,
    loopEnd: real,
    isMidi: bool,
    isAudio: bool,
    isPlaying: bool,
    muted: bool,
    color: Option<int>,   // None: the clip has no `color` attribute
    notes: seq<Note>)

  datatype Slot = Slot(clip: Option<Clip>)
  {
    predicate HasClip() { clip.Some? }
  }

  datatype Parameter = Parameter(
    name: string,
    value: real,
    min: real,
    max: real,
    isQuantized: bool,
    isEnabled: Option<bool>)   // None: the parameter has no `is_enabled` attribute

  datatype Device = Device(
    name: string,
    className: string,
    classDisplayName: Option<string>,   // None: no `class_display_name` attribute
    isActive: Option<bool>,             // None: no `is_active` attribute
    parameters: seq<Parameter>)

  datatype Track = Track(name: string, hasMidiInput: bool, slots: seq<Slot>, devices: seq<Device>)

  /** Host calls the handlers forward without the model giving them an effect on the set. */
  datatype HostCall =
    | Fire(track: nat, slot: nat)
    | StopSlot(track: nat, slot: nat)
    | SelectAllNotes(track: nat, slot: nat)
    | DeselectAllNotes(track: nat, slot: nat)
    | ReplaceSelectedNotes(track: nat, slot: nat, notes: seq<Note>)

  class Song {
    var tracks: seq<Track>
    var calls: seq<HostCall>

    constructor (tracks: seq<Track>)
      ensures this.tracks == tracks && calls == []
    {
      this.tracks := tracks;
      calls := [];
    }
  }

  // ---------------------------------------------------------------------------
  // Index guards
  // ---------------------------------------------------------------------------

  /** `track_index < 0 or track_index >= len(self.song.tracks)` fails. */
  predicate ValidTrack(tracks: seq<Track>, t: int)
  {
    0 <= t < |tracks|
  }

  predicate ValidSlot(tracks: seq<Track>, t: int, s: int)
  {
    ValidTrack(tracks, t) && 0 <= s < |tracks[t].slots|
  }

  predicate ValidDevice(tracks: seq<Track>, t: int, d: int)
  {
    ValidTrack(tracks, t) && 0 <= d < |tracks[t].devices|
  }

  predicate ValidParameter(tracks: seq<Track>, t: int, d: int, p: int)
  {
    ValidDevice(tracks, t, d) && 0 <= p < |tracks[t].devices[d].parameters|
  }

  const InvalidTrack: string := "Invalid track index"
  const InvalidDevice: string := "Invalid device index"
  const InvalidParameter: string := "Invalid parameter index"

  /**
   * The first failing guard of the track-then-slot chain, with the slot
   * message the handler uses (the files word it differently).
   */
  function SlotCheck(tracks: seq<Track>, t: int, s: int, slotMessage: string): (r: Option<string>)
    ensures r.None? <==> ValidSlot(tracks, t, s)
    ensures !ValidTrack(tracks, t) ==> r == Some(InvalidTrack)
    ensures ValidTrack(tracks, t) && !ValidSlot(tracks, t, s) ==> r == Some(slotMessage)
  {
    if !ValidTrack(tracks, t) then Some(InvalidTrack)
    else if !(0 <= s < |tracks[t].slots|) then Some(slotMessage)
    else None
  }

  /** The first failing guard of the track-then-device chain. */
  function DeviceCheck(tracks: seq<Track>, t: int, d: int): (r: Option<string>)
    ensures r.None? <==> ValidDevice(tracks, t, d)
    ensures !ValidTrack(tracks, t) ==> r == Some(InvalidTrack)
    ensures ValidTrack(tracks, t) && !ValidDevice(tracks, t, d) ==> r == Some(InvalidDevice)
  {
    if !ValidTrack(tracks, t) then Some(InvalidTrack)
    else if !(0 <= d < |tracks[t].devices|) then Some(InvalidDevice)
    else None
  }

  // ---------------------------------------------------------------------------
  // In-place updates
  // ---------------------------------------------------------------------------

  /** The set with slot `(t, s)` replaced. */
  function SetSlot(tracks: seq<Track>, t: nat, s: nat, slot: Slot): seq<Track>
    requires t < |tracks| && s < |tracks[t].slots|
  {
    tracks[t := tracks[t].(slots := tracks[t].slots[s := slot])]
  }

  /** The set with device `(t, d)` replaced. */
  function SetDevice(tracks: seq<Track>, t: nat, d: nat, device: Device): seq<Track>
    requires t < |tracks| && d < |tracks[t].devices|
  {
    tracks[t := tracks[t].(devices := tracks[t].devices[d := device])]
  }

  /** Every track keeps its name, MIDI input, number of slots and devices. */
  predicate SameShape(a: seq<Track>, b: seq<Track>)
  {
    && |a| == |b|
    && forall t :: 0 <= t < |a| ==>
         a[t].name == b[t].name && a[t].hasMidiInput == b[t].hasMidiInput
         && |a[t].slots| == |b[t].slots| && |a[t].devices| == |b[t].devices|
  }

  /** Writing one slot changes that slot and nothing else. */
  lemma SetSlotFrame(tracks: seq<Track>, t: nat, s: nat, slot: Slot)
    requires t < |tracks| && s < |tracks[t].slots|
    ensures var r := SetSlot(tracks, t, s, slot);
      && SameShape(tracks, r)
      && r[t].slots[s] == slot
      && (forall u, v :: 0 <= u < |r| && 0 <= v < |r[u].slots| && (u, v) != (t, s) ==> r[u].slots[v] == tracks[u].slots[v])
      && (forall u :: 0 <= u < |r| ==> r[u].devices == tracks[u].devices)
  {
  }

  /** Writing a slot back unchanged leaves the set as it was. */
  lemma SetSlotSame(tracks: seq<Track>, t: nat, s: nat)
    requires t < |tracks| && s < |tracks[t].slots|
    ensures SetSlot(tracks, t, s, tracks[t].slots[s]) == tracks
  {
    assert tracks[t].slots[s := tracks[t].slots[s]] == tracks[t].slots;
  }

  /** Writing a device back unchanged leaves the set as it was. */
  lemma SetDeviceSame(tracks: seq<Track>, t: nat, d: nat)
    requires t < |tracks| && d < |tracks[t].devices|
    ensures SetDevice(tracks, t, d, tracks[t].devices[d]) == tracks
  {
    assert tracks[t].devices[d := tracks[t].devices[d]] == tracks[t].devices;
  }

  /** Writing one device changes that device and nothing else. */
  lemma SetDeviceFrame(tracks: seq<Track>, t: nat, d: nat, device: Device)
    requires t < |tracks| && d < |tracks[t].devices|
    ensures var r := SetDevice(tracks, t, d, device);
      && SameShape(tracks, r)
      && r[t].devices[d] == device
      && (forall u, v :: 0 <= u < |r| && 0 <= v < |r[u].devices| && (u, v) != (t, d) ==> r[u].devices[v] == tracks[u].devices[v])
      && (forall u :: 0 <= u < |r| ==> r[u].slots == tracks[u].slots)
  {
  }
}
