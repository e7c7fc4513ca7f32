/**
 * Clip-slot handlers (ClaudeMCP_Remote/tools/clips_core.py). Each runs a
 * chain of guards over the set, in a fixed order, and returns the message of
 * the first that fails; otherwise it acts on the addressed slot alone.
 */
module ClipsCore {
  import opened Base
  import opened LiveSet

  const InvalidScene: string := "Invalid scene index"
  const NoClip: string := "No clip in slot"

  /** What `create_midi_clip` reports: the slot it filled and the length asked for. */
  datatype ClipCreated = ClipCreated(trackIndex: int, clipIndex: int, length: real)

  /** What `duplicate_clip` reports. */
  datatype Duplicated = Duplicated(sourceClipIndex: int, destinationClipIndex: nat)

  /** The fields `get_clip_info` reports (everything but the notes). */
  datatype ClipInfo = ClipInfo(
    name: string, length: real, loopStart: real, loopEnd: real,
    isMidi: bool, isAudio: bool, isPlaying: bool, muted: bool, color: Option<int>)

  /** The clip Live's `create_clip(length)` puts into an empty slot: an empty MIDI clip of that length. */
  function NewMidiClip(length: real): (c: Clip)
    ensures c.isMidi && c.length == length && c.notes == []
  {
    Clip("", length, 0.0, length, true, false, false, false, None, [])
  }

  /** Track index, then slot index, then a clip in the slot. */
  function ClipCheck(tracks: seq<Track>, t: int, s: int): (r: Option<string>)
    ensures r.None? <==> ValidSlot(tracks, t, s) && tracks[t].slots[s].HasClip()
    ensures SlotCheck(tracks, t, s, InvalidScene).Some? ==> r == SlotCheck(tracks, t, s, InvalidScene)
    ensures ValidSlot(tracks, t, s) && !tracks[t].slots[s].HasClip() ==> r == Some(NoClip)
  {
    var e := SlotCheck(tracks, t, s, InvalidScene);
    if e.Some? then e
    else if !tracks[t].slots[s].HasClip() then Some(NoClip)
    else None
  }

  /** `create_midi_clip`'s chain: track, slot, MIDI input, then an empty slot. */
  function CreateCheck(tracks: seq<Track>, t: int, s: int): (r: Option<string>)
    ensures r.None? <==> ValidSlot(tracks, t, s) && tracks[t].hasMidiInput && !tracks[t].slots[s].HasClip()
    ensures SlotCheck(tracks, t, s, InvalidScene).Some? ==> r == SlotCheck(tracks, t, s, InvalidScene)
    ensures ValidSlot(tracks, t, s) && !tracks[t].hasMidiInput ==> r == Some("Track is not a MIDI track")
    ensures ValidSlot(tracks, t, s) && tracks[t].hasMidiInput && tracks[t].slots[s].HasClip() ==> r == Some("Clip slot already has a clip")
  {
    var e := SlotCheck(tracks, t, s, InvalidScene);
    if e.Some? then e
    else if !tracks[t].hasMidiInput then Some("Track is not a MIDI track")
    else if tracks[t].slots[s].HasClip() then Some("Clip slot already has a clip")
    else None
  }

  /** The length `create_midi_clip` uses when none is given, in beats. */
  const DefaultClipLength: real := 4.0

  /**
   * `create_midi_clip`: a new MIDI clip of the given length (4 beats when
   * none is given) in an empty slot of a MIDI track.
   */
  method CreateMidiClip(song: Song, trackIndex: int, clipIndex: int, length: Option<real>) returns (r: Reply<ClipCreated>)
    modifies song
    ensures var e := CreateCheck(old(song.tracks), trackIndex, clipIndex);
      var len := Or(length, DefaultClipLength);
      if e.Some? then r == Fail(e.value) && song.tracks == old(song.tracks)
      else (r == Ok(ClipCreated(trackIndex, clipIndex, len))
        && song.tracks == SetSlot(old(song.tracks), trackIndex, clipIndex, Slot(Some(NewMidiClip(len)))))
    ensures song.calls == old(song.calls)
  {
    if trackIndex < 0 || trackIndex >= |song.tracks| {
      return Fail(InvalidTrack);
    }
    var track := song.tracks[trackIndex];
    if clipIndex < 0 || clipIndex >= |track.slots| {
      return Fail(InvalidScene);
    }
    if !track.hasMidiInput {
      return Fail("Track is not a MIDI track");
    }
    if track.slots[clipIndex].HasClip() {
      return Fail("Clip slot already has a clip");
    }
    var len := Or(length, DefaultClipLength);
    song.tracks := SetSlot(song.tracks, trackIndex, clipIndex, Slot(Some(NewMidiClip(len))));
    return Ok(ClipCreated(trackIndex, clipIndex, len));
  }

  /** `delete_clip`: empties an occupied slot. */
  method DeleteClip(song: Song, trackIndex: int, clipIndex: int) returns (r: Reply<()>)
    modifies song
    ensures var e := ClipCheck(old(song.tracks), trackIndex, clipIndex);
      if e.Some? then r == Fail(e.value) && song.tracks == old(song.tracks)
      else r == Ok(()) && song.tracks == SetSlot(old(song.tracks), trackIndex, clipIndex, Slot(None))
    ensures song.calls == old(song.calls)
  {
    if trackIndex < 0 || trackIndex >= |song.tracks| {
      return Fail(InvalidTrack);
    }
    var track := song.tracks[trackIndex];
    if clipIndex < 0 || clipIndex >= |track.slots| {
      return Fail(InvalidScene);
    }
    if !track.slots[clipIndex].HasClip() {
      return Fail(NoClip);
    }
    song.tracks := SetSlot(song.tracks, trackIndex, clipIndex, Slot(None));
    return Ok(());
  }

  /** The first empty slot after `source`, the destination `duplicate_clip` picks. */
  function FirstEmptyAfter(slots: seq<Slot>, source: int): (d: Option<nat>)
    ensures d.Some? ==> (source < d.value < |slots| && !slots[d.value].HasClip()
      && forall i :: 0 <= i && source < i < d.value ==> slots[i].HasClip())
    ensures d.None? ==> forall i :: 0 <= i && source < i < |slots| ==> slots[i].HasClip()
  {
    FirstEmptyFrom(slots, source, if source < 0 then 0 else source + 1)
  }

  function FirstEmptyFrom(slots: seq<Slot>, source: int, from: nat): (d: Option<nat>)
    requires source < from
    requires forall i :: 0 <= i && source < i < from && i < |slots| ==> slots[i].HasClip()
    ensures d.Some? ==> (from <= d.value < |slots| && !slots[d.value].HasClip()
      && forall i :: 0 <= i && source < i < d.value ==> slots[i].HasClip())
    ensures d.None? ==> forall i :: 0 <= i && source < i < |slots| ==> slots[i].HasClip()
    decreases |slots| - from
  {
    if from >= |slots| then None
    else if !slots[from].HasClip() then Some(from)
    else FirstEmptyFrom(slots, source, from + 1)
  }

  /**
   * The `for i, slot in enumerate(...)` search of `duplicate_clip`: the first
   * index after the source whose slot is empty.
   */
  method FindDestination(slots: seq<Slot>, source: int) returns (dest: Option<nat>)
    ensures dest == FirstEmptyAfter(slots, source)
  {
    dest := None;
    var i := 0;
    while i < |slots|
      invariant i <= |slots|
      invariant forall j :: 0 <= j && source < j < i ==> slots[j].HasClip()
    {
      if i > source && !slots[i].HasClip() {
        dest := Some(i);
        break;
      }
      i := i + 1;
    }
  }

  /** `duplicate_clip`: copies the clip to the first empty slot after it on the same track. */
  method DuplicateClip(song: Song, trackIndex: int, clipIndex: int) returns (r: Reply<Duplicated>)
    modifies song
    ensures var tracks := old(song.tracks); var e := ClipCheck(tracks, trackIndex, clipIndex);
      if e.Some? then r == Fail(e.value) && song.tracks == tracks
      else (
        var dest := FirstEmptyAfter(tracks[trackIndex].slots, clipIndex);
        if dest.None? then r == Fail("No empty slot available after source slot") && song.tracks == tracks
        else (r == Ok(Duplicated(clipIndex, dest.value))
          && song.tracks == SetSlot(tracks, trackIndex, dest.value, tracks[trackIndex].slots[clipIndex])))
    ensures song.calls == old(song.calls)
  {
    if trackIndex < 0 || trackIndex >= |song.tracks| {
      return Fail(InvalidTrack);
    }
    var track := song.tracks[trackIndex];
    if clipIndex < 0 || clipIndex >= |track.slots| {
      return Fail(InvalidScene);
    }
    if !track.slots[clipIndex].HasClip() {
      return Fail(NoClip);
    }
    var dest := FindDestination(track.slots, clipIndex);
    if dest.None? {
      return Fail("No empty slot available after source slot");
    }
    song.tracks := SetSlot(song.tracks, trackIndex, dest.value, track.slots[clipIndex]);
    return Ok(Duplicated(clipIndex, dest.value));
  }

  /** `launch_clip`: fires an occupied slot. */
  method LaunchClip(song: Song, trackIndex: int, clipIndex: int) returns (r: Reply<()>)
    modifies song
    ensures song.tracks == old(song.tracks)
    ensures var e := ClipCheck(old(song.tracks), trackIndex, clipIndex);
      if e.Some? then r == Fail(e.value) && song.calls == old(song.calls)
      else r == Ok(()) && song.calls == old(song.calls) + [Fire(trackIndex, clipIndex)]
  {
    if trackIndex < 0 || trackIndex >= |song.tracks| {
      return Fail(InvalidTrack);
    }
    var track := song.tracks[trackIndex];
    if clipIndex < 0 || clipIndex >= |track.slots| {
      return Fail(InvalidScene);
    }
    if !track.slots[clipIndex].HasClip() {
      return Fail(NoClip);
    }
    song.calls := song.calls + [Fire(trackIndex, clipIndex)];
    return Ok(());
  }

  /** `stop_clip`: stops a slot; unlike the others it does not require a clip there. */
  method StopClip(song: Song, trackIndex: int, clipIndex: int) returns (r: Reply<()>)
    modifies song
    ensures song.tracks == old(song.tracks)
    ensures var e := SlotCheck(old(song.tracks), trackIndex, clipIndex, InvalidScene);
      if e.Some? then r == Fail(e.value) && song.calls == old(song.calls)
      else r == Ok(()) && song.calls == old(song.calls) + [StopSlot(trackIndex, clipIndex)]
  {
    if trackIndex < 0 || trackIndex >= |song.tracks| {
      return Fail(InvalidTrack);
    }
    var track := song.tracks[trackIndex];
    if clipIndex < 0 || clipIndex >= |track.slots| {
      return Fail(InvalidScene);
    }
    song.calls := song.calls + [StopSlot(trackIndex, clipIndex)];
    return Ok(());
  }

  /** `stop_clip` succeeds on an empty slot, where `launch_clip` fails. */
  lemma StopNeedsNoClip(tracks: seq<Track>, t: int, s: int)
    requires ValidSlot(tracks, t, s) && !tracks[t].slots[s].HasClip()
    ensures SlotCheck(tracks, t, s, InvalidScene).None?
    ensures ClipCheck(tracks, t, s) == Some(NoClip)
  {
  }

  /** `get_clip_info`: the clip's fields, or the first failing guard. */
  function GetClipInfo(tracks: seq<Track>, trackIndex: int, clipIndex: int): (r: Reply<ClipInfo>)
    ensures ClipCheck(tracks, trackIndex, clipIndex).Some? <==> r.Fail?
    ensures r.Fail? ==> r.error == ClipCheck(tracks, trackIndex, clipIndex).value
    ensures r.Ok? ==>
      var c := tracks[trackIndex].slots[clipIndex].clip.value;
      && r.value.name == c.name && r.value.length == c.length
      && r.value.loopStart == c.loopStart && r.value.loopEnd == c.loopEnd
      && r.value.isMidi == c.isMidi && r.value.isAudio == c.isAudio
      && r.value.isPlaying == c.isPlaying && r.value.muted == c.muted && r.value.color == c.color
  {
    var e := ClipCheck(tracks, trackIndex, clipIndex);
    if e.Some? then Fail(e.value)
    else
      var c := tracks[trackIndex].slots[clipIndex].clip.value;
      Ok(ClipInfo(c.name, c.length, c.loopStart, c.loopEnd, c.isMidi, c.isAudio, c.isPlaying, c.muted, c.color))
  }

  /** `set_clip_name`: renames an existing clip and echoes the name. */
  method SetClipName(song: Song, trackIndex: int, clipIndex: int, name: string) returns (r: Reply<string>)
    modifies song
    ensures var tracks := old(song.tracks); var e := ClipCheck(tracks, trackIndex, clipIndex);
      if e.Some? then r == Fail(e.value) && song.tracks == tracks
      else (
        var slot := tracks[trackIndex].slots[clipIndex];
        r == Ok(name) && song.tracks == SetSlot(tracks, trackIndex, clipIndex, Slot(Some(slot.clip.value.(name := name)))))
    ensures song.calls == old(song.calls)
  {
    if trackIndex < 0 || trackIndex >= |song.tracks| {
      return Fail(InvalidTrack);
    }
    var track := song.tracks[trackIndex];
    if clipIndex < 0 || clipIndex >= |track.slots| {
      return Fail(InvalidScene);
    }
    var slot := track.slots[clipIndex];
    if !slot.HasClip() {
      return Fail(NoClip);
    }
    song.tracks := SetSlot(song.tracks, trackIndex, clipIndex, Slot(Some(slot.clip.value.(name := name))));
    return Ok(name);
  }

  /** A rename leaves the clip's notes and every other field alone, and then reads back the new name. */
  lemma RenameReadsBack(tracks: seq<Track>, t: nat, s: nat, name: string)
    requires ValidSlot(tracks, t, s) && tracks[t].slots[s].HasClip()
    ensures var c := tracks[t].slots[s].clip.value;
      var after := SetSlot(tracks, t, s, Slot(Some(c.(name := name))));
      && GetClipInfo(after, t, s) == Ok(ClipInfo(name, c.length, c.loopStart, c.loopEnd, c.isMidi, c.isAudio, c.isPlaying, c.muted, c.color))
      && after[t].slots[s].clip.value.notes == c.notes
  {
    var c := tracks[t].slots[s].clip.value;
    SetSlotFrame(tracks, t, s, Slot(Some(c.(name := name))));
  }

  /** After a successful delete the slot is empty, so a second delete fails with "No clip in slot". */
  lemma DeleteTwiceFails(tracks: seq<Track>, t: nat, s: nat)
    requires ValidSlot(tracks, t, s) && tracks[t].slots[s].HasClip()
    ensures ClipCheck(SetSlot(tracks, t, s, Slot(None)), t, s) == Some(NoClip)
  {
    SetSlotFrame(tracks, t, s, Slot(None));
  }

  /** After a successful create the slot holds a clip, so creating again fails. */
  lemma CreateTwiceFails(tracks: seq<Track>, t: nat, s: nat, length: real)
    requires CreateCheck(tracks, t, s).None?
    ensures CreateCheck(SetSlot(tracks, t, s, Slot(Some(NewMidiClip(length)))), t, s) == Some("Clip slot already has a clip")
  {
    SetSlotFrame(tracks, t, s, Slot(Some(NewMidiClip(length))));
  }

  /** A duplicate fills its destination with a copy of the source, and the source keeps its clip. */
  lemma DuplicateCopies(tracks: seq<Track>, t: nat, s: nat)
    requires ClipCheck(tracks, t, s).None? && FirstEmptyAfter(tracks[t].slots, s).Some?
    ensures var d := FirstEmptyAfter(tracks[t].slots, s).value;
      var after := SetSlot(tracks, t, d, tracks[t].slots[s]);
      && d != s
      && after[t].slots[d] == tracks[t].slots[s]
      && after[t].slots[s] == tracks[t].slots[s]
      && SameShape(tracks, after)
  {
    var d := FirstEmptyAfter(tracks[t].slots, s).value;
    SetSlotFrame(tracks, t, d, tracks[t].slots[s]);
  }
}
