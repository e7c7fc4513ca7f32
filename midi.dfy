/**
 * MIDI note handlers (ClaudeMCP_Remote/tools/midi_notes.py). Live's note
 * queries and removals address a rectangle of the piano roll: a start time
 * and a time span, a lowest pitch and a pitch span, both spans half-open.
 */
module MidiNotes {
  import opened Base
  import opened LiveSet

  const NotMidiTrack: string := "Track is not a MIDI track"
  const NoClip: string := "No clip in slot"
  const NotMidiClip: string := "Clip is not a MIDI clip"
  const NoMidiClip: string := "No MIDI clip in slot"
  const InvalidClip: string := "Invalid clip index"

  // ---------------------------------------------------------------------------
  // Guards
  // ---------------------------------------------------------------------------

  predicate HoldsMidiClip(tracks: seq<Track>, t: int, s: int)
  {
    ValidSlot(tracks, t, s)
    && tracks[t].slots[s].HasClip() && tracks[t].slots[s].clip.value.isMidi
  }

  /**
   * The chain of `add_notes` and `get_clip_notes`: track index, MIDI input,
   * slot index (with the handler's own message), a clip, a MIDI clip.
   */
  function TrackClipCheck(tracks: seq<Track>, t: int, s: int, slotMessage: string): (r: Option<string>)
    ensures r.None? <==> HoldsMidiClip(tracks, t, s) && tracks[t].hasMidiInput
    ensures !ValidTrack(tracks, t) ==> r == Some(InvalidTrack)
    ensures ValidTrack(tracks, t) && !tracks[t].hasMidiInput ==> r == Some(NotMidiTrack)
    ensures ValidTrack(tracks, t) && tracks[t].hasMidiInput && !ValidSlot(tracks, t, s) ==> r == Some(slotMessage)
    ensures ValidSlot(tracks, t, s) && tracks[t].hasMidiInput && !tracks[t].slots[s].HasClip() ==> r == Some(NoClip)
    ensures (ValidSlot(tracks, t, s) && tracks[t].hasMidiInput && tracks[t].slots[s].HasClip()
      && !tracks[t].slots[s].clip.value.isMidi) ==> r == Some(NotMidiClip)
  {
    if !ValidTrack(tracks, t) then Some(InvalidTrack)
    else if !tracks[t].hasMidiInput then Some(NotMidiTrack)
    else if !(0 <= s < |tracks[t].slots|) then Some(slotMessage)
    else if !tracks[t].slots[s].HasClip() then Some(NoClip)
    else if !tracks[t].slots[s].clip.value.isMidi then Some(NotMidiClip)
    else None
  }

  /**
   * The chain of the remove, select, deselect, replace and extended
   * operations: track index, slot index, then one check for a MIDI clip.
   */
  function MidiClipCheck(tracks: seq<Track>, t: int, s: int): (r: Option<string>)
    ensures r.None? <==> HoldsMidiClip(tracks, t, s)
    ensures SlotCheck(tracks, t, s, InvalidClip).Some? ==> r == SlotCheck(tracks, t, s, InvalidClip)
    ensures ValidSlot(tracks, t, s) && !HoldsMidiClip(tracks, t, s) ==> r == Some(NoMidiClip)
  {
    var e := SlotCheck(tracks, t, s, InvalidClip);
    if e.Some? then e
    else if !tracks[t].slots[s].HasClip() || !tracks[t].slots[s].clip.value.isMidi then Some(NoMidiClip)
    else None
  }

  /** The second chain does not look at the track's MIDI input, so it admits more than the first. */
  lemma MidiChainsDiffer()
    ensures var clip := Clip("", 4.0, 0.0, 4.0, true, false, false, false, None, []);
      var tracks := [Track("Audio", false, [Slot(Some(clip))], [])];
      && MidiClipCheck(tracks, 0, 0).None?
      && TrackClipCheck(tracks, 0, 0, InvalidClip) == Some(NotMidiTrack)
  {
  }

  // ---------------------------------------------------------------------------
  // Note input: dicts with optional keys
  // ---------------------------------------------------------------------------

  /** A note dict as the client sends it; a missing key is `None`. */
  datatype NoteSpec = NoteSpec(pitch: Option<int>, start: Option<real>, duration: Option<real>,
                               velocity: Option<int>, muted: Option<bool>)

  /** A note dict with `note.get`'s defaults filled in: pitch 60, start 0.0, duration 1.0, velocity 100, unmuted. */
  function Resolve(spec: NoteSpec): Note
  {
    Note(Or(spec.pitch, 60), Or(spec.start, 0.0), Or(spec.duration, 1.0), Or(spec.velocity, 100), Or(spec.muted, false))
  }

  /** The note `add_notes` would write for a dict: its `muted` key is ignored. */
  function Written(spec: NoteSpec): (n: Note)
    ensures !n.muted
    ensures n == Resolve(spec).(muted := false)
  {
    Note(Or(spec.pitch, 60), Or(spec.start, 0.0), Or(spec.duration, 1.0), Or(spec.velocity, 100), false)
  }

  /** The skip rules of `add_notes`: pitch and velocity in 0..127, positive duration. */
  predicate Playable(n: Note)
  {
    0 <= n.pitch <= 127 && 0 <= n.velocity <= 127 && n.duration > 0.0
  }

  /** The notes `add_notes` writes, in input order. */
  function Accepted(specs: seq<NoteSpec>): (r: seq<Note>)
    ensures |r| <= |specs|
    ensures forall k :: 0 <= k < |r| ==> Playable(r[k]) && !r[k].muted
  {
    if specs == [] then []
    else
      var last := Written(specs[|specs| - 1]);
      Accepted(specs[..|specs| - 1]) + (if Playable(last) then [last] else [])
  }

  /** A note is written iff some input dict yields it and it passes the skip rules. */
  lemma {:induction false} AcceptedIff(specs: seq<NoteSpec>, n: Note)
    ensures n in Accepted(specs) <==> Playable(n) && exists i :: 0 <= i < |specs| && Written(specs[i]) == n
  {
    if specs != [] {
      var init := specs[..|specs| - 1];
      AcceptedIff(init, n);
      if Playable(n) && (exists i :: 0 <= i < |specs| && Written(specs[i]) == n) {
        var i :| 0 <= i < |specs| && Written(specs[i]) == n;
        if i < |specs| - 1 {
          assert init[i] == specs[i];
        }
      }
      if exists i :: 0 <= i < |init| && Written(init[i]) == n {
        var i :| 0 <= i < |init| && Written(init[i]) == n;
        assert specs[i] == init[i];
      }
    }
  }

  /** Every dict is written exactly when every dict passes the skip rules. */
  lemma {:induction false} AcceptedAll(specs: seq<NoteSpec>)
    ensures |Accepted(specs)| == |specs| <==> forall i :: 0 <= i < |specs| ==> Playable(Written(specs[i]))
  {
    if specs != [] {
      var init := specs[..|specs| - 1];
      AcceptedAll(init);
      if forall i :: 0 <= i < |specs| ==> Playable(Written(specs[i])) {
        assert forall i :: 0 <= i < |init| ==> init[i] == specs[i];
      }
      if |Accepted(specs)| == |specs| {
        assert Playable(Written(specs[|specs| - 1]));
        assert |Accepted(init)| == |init|;
        assert forall i :: 0 <= i < |init| ==> init[i] == specs[i];
      }
    }
  }

  /** The same payload the handler reports. */
  datatype NotesAdded = NotesAdded(trackIndex: int, clipIndex: int, noteCount: nat)

  /**
   * `add_notes`: writes each playable note into the clip, one write per note,
   * and reports the length of the input, skipped notes included.
   */
  method AddNotes(song: Song, trackIndex: int, clipIndex: int, specs: seq<NoteSpec>) returns (r: Reply<NotesAdded>)
    modifies song
    ensures song.calls == old(song.calls)
    ensures var tracks := old(song.tracks); var e := TrackClipCheck(tracks, trackIndex, clipIndex, "Invalid scene/clip index");
      if e.Some? then r == Fail(e.value) && song.tracks == tracks
      else (
        var c := tracks[trackIndex].slots[clipIndex].clip.value;
        r == Ok(NotesAdded(trackIndex, clipIndex, |specs|))
        && song.tracks == SetSlot(tracks, trackIndex, clipIndex, Slot(Some(c.(notes := c.notes + Accepted(specs))))))
  {
    if trackIndex < 0 || trackIndex >= |song.tracks| {
      return Fail(InvalidTrack);
    }
    var track := song.tracks[trackIndex];
    if !track.hasMidiInput {
      return Fail(NotMidiTrack);
    }
    if clipIndex < 0 || clipIndex >= |track.slots| {
      return Fail("Invalid scene/clip index");
    }
    var slot := track.slots[clipIndex];
    if !slot.HasClip() {
      return Fail(NoClip);
    }
    var clip := slot.clip.value;
    if !clip.isMidi {
      return Fail(NotMidiClip);
    }
    var tracks := song.tracks;
    ghost var original := clip;
    SetSlotSame(tracks, trackIndex, clipIndex);
    var i := 0;
    while i < |specs|
      invariant i <= |specs|
      invariant clip == original.(notes := original.notes + Accepted(specs[..i]))
      invariant song.tracks == SetSlot(tracks, trackIndex, clipIndex, Slot(Some(clip)))
      invariant song.calls == old(song.calls)
    {
      var note := Written(specs[i]);
      assert specs[..i + 1][..i] == specs[..i];
      if Playable(note) {
        clip := clip.(notes := clip.notes + [note]);
        song.tracks := SetSlot(tracks, trackIndex, clipIndex, Slot(Some(clip)));
      }
      i := i + 1;
    }
    assert specs[..|specs|] == specs;
    return Ok(NotesAdded(trackIndex, clipIndex, |specs|));
  }

  /** `note_count` is the number of dicts sent, not the number written. */
  lemma NoteCountIncludesSkipped()
    ensures var specs := [NoteSpec(Some(128), None, None, None, None)];
      Accepted(specs) == [] && |specs| == 1
  {
    var specs := [NoteSpec(Some(128), None, None, None, None)];
    assert specs[..0] == [];
  }

  // ---------------------------------------------------------------------------
  // Piano-roll areas
  // ---------------------------------------------------------------------------

  /** The `(from_time, from_pitch, time_span, pitch_span)` argument of Live's note calls. */
  datatype Area = Area(fromTime: real, fromPitch: int, timeSpan: real, pitchSpan: int)

  predicate InArea(n: Note, a: Area)
  {
    a.fromTime <= n.start < a.fromTime + a.timeSpan && a.fromPitch <= n.pitch < a.fromPitch + a.pitchSpan
  }

  /** The clip's notes inside the area, in clip order: what the host's `get_notes` returns. */
  function Select(notes: seq<Note>, a: Area): (r: seq<Note>)
    ensures forall n :: n in r <==> n in notes && InArea(n, a)
    ensures |r| <= |notes|
  {
    if notes == [] then []
    else (if InArea(notes[0], a) then [notes[0]] else []) + Select(notes[1..], a)
  }

  /** The clip's notes outside the area, in clip order: what the host's `remove_notes` leaves. */
  function Remove(notes: seq<Note>, a: Area): (r: seq<Note>)
    ensures forall n :: n in r <==> n in notes && !InArea(n, a)
    ensures |r| <= |notes|
  {
    if notes == [] then []
    else (if InArea(notes[0], a) then [] else [notes[0]]) + Remove(notes[1..], a)
  }

  /** Selecting and removing one area split the notes between them, duplicates included. */
  lemma {:induction false} SelectRemovePartition(notes: seq<Note>, a: Area)
    ensures multiset(Select(notes, a)) + multiset(Remove(notes, a)) == multiset(notes)
  {
    if notes != [] {
      var h, t := notes[0], notes[1..];
      SelectRemovePartition(t, a);
      assert notes == [h] + t;
      assert multiset(notes) == multiset([h]) + multiset(t);
      if InArea(h, a) {
        assert Select(notes, a) == [h] + Select(t, a);
        assert Remove(notes, a) == Remove(t, a);
      } else {
        assert Select(notes, a) == Select(t, a);
        assert Remove(notes, a) == [h] + Remove(t, a);
      }
    }
  }

  /** After a removal, a query of the same area finds nothing. */
  lemma {:induction false} RemovedAreaIsEmpty(notes: seq<Note>, a: Area)
    ensures Select(Remove(notes, a), a) == []
  {
    if notes != [] {
      var h, t := notes[0], notes[1..];
      RemovedAreaIsEmpty(t, a);
      if InArea(h, a) {
        assert Remove(notes, a) == [] + Remove(t, a) == Remove(t, a);
      } else {
        var rest := Remove(t, a);
        assert Remove(notes, a) == [h] + rest;
        assert ([h] + rest)[0] == h && ([h] + rest)[1..] == rest;
      }
    }
  }

  /** The area `get_clip_notes` asks for: the whole clip length and all 128 pitches. */
  function WholeClip(c: Clip): (a: Area)
    ensures forall n :: InArea(n, a) <==> 0.0 <= n.start < c.length && 0 <= n.pitch <= 127
  {
    Area(0.0, 0, c.length, 128)
  }

  /** The loop that turns each host tuple into a note dict, in order. */
  method CopyNotes(data: seq<Note>) returns (notes: seq<Note>)
    ensures notes == data
  {
    notes := [];
    var i := 0;
    while i < |data|
      invariant i <= |data|
      invariant notes == data[..i]
    {
      notes := notes + [data[i]];
      i := i + 1;
    }
    assert data[..|data|] == data;
  }

  datatype ClipNotes = ClipNotes(trackIndex: int, clipIndex: int, notes: seq<Note>, count: nat)

  /** `get_clip_notes`: every note of the clip that starts within its length, with the count. */
  method GetClipNotes(song: Song, trackIndex: int, clipIndex: int) returns (r: Reply<ClipNotes>)
    ensures var e := TrackClipCheck(song.tracks, trackIndex, clipIndex, InvalidClip);
      if e.Some? then r == Fail(e.value)
      else (
        var c := song.tracks[trackIndex].slots[clipIndex].clip.value;
        && r.Ok? && r.value.trackIndex == trackIndex && r.value.clipIndex == clipIndex
        && r.value.notes == Select(c.notes, WholeClip(c))
        && r.value.count == |r.value.notes|
        && forall n :: n in r.value.notes <==> n in c.notes && 0.0 <= n.start < c.length && 0 <= n.pitch <= 127)
  {
    if trackIndex < 0 || trackIndex >= |song.tracks| {
      return Fail(InvalidTrack);
    }
    var track := song.tracks[trackIndex];
    if !track.hasMidiInput {
      return Fail(NotMidiTrack);
    }
    if clipIndex < 0 || clipIndex >= |track.slots| {
      return Fail(InvalidClip);
    }
    var slot := track.slots[clipIndex];
    if !slot.HasClip() {
      return Fail(NoClip);
    }
    var clip := slot.clip.value;
    if !clip.isMidi {
      return Fail(NotMidiClip);
    }
    var notes := CopyNotes(Select(clip.notes, WholeClip(clip)));
    return Ok(ClipNotes(trackIndex, clipIndex, notes, |notes|));
  }

  datatype ExtendedNotes = ExtendedNotes(notes: seq<Note>, count: nat)

  /** `get_notes_extended`: the notes of an explicit area, with the count. */
  method GetNotesExtended(song: Song, trackIndex: int, clipIndex: int, startTime: real, timeSpan: real,
                          startPitch: int, pitchSpan: int) returns (r: Reply<ExtendedNotes>)
    ensures var e := MidiClipCheck(song.tracks, trackIndex, clipIndex);
      if e.Some? then r == Fail(e.value)
      else (
        var c := song.tracks[trackIndex].slots[clipIndex].clip.value;
        && r.Ok? && r.value.notes == Select(c.notes, Area(startTime, startPitch, timeSpan, pitchSpan))
        && r.value.count == |r.value.notes|
        && forall n :: n in r.value.notes <==> (n in c.notes && startTime <= n.start < startTime + timeSpan
             && startPitch <= n.pitch < startPitch + pitchSpan))
  {
    if trackIndex < 0 || trackIndex >= |song.tracks| {
      return Fail(InvalidTrack);
    }
    var track := song.tracks[trackIndex];
    if clipIndex < 0 || clipIndex >= |track.slots| {
      return Fail(InvalidClip);
    }
    var slot := track.slots[clipIndex];
    if !slot.HasClip() || !slot.clip.value.isMidi {
      return Fail(NoMidiClip);
    }
    var notes := CopyNotes(Select(slot.clip.value.notes, Area(startTime, startPitch, timeSpan, pitchSpan)));
    return Ok(ExtendedNotes(notes, |notes|));
  }

  // ---------------------------------------------------------------------------
  // remove_notes
  // ---------------------------------------------------------------------------

  const DefaultPitchFrom: int := 0
  const DefaultPitchTo: int := 127
  const DefaultTimeFrom: real := 0.0
  const DefaultTimeTo: real := 999.0

  /** The area `remove_notes` passes as written: pitch span `pitch_to - pitch_from`. */
  function AsWrittenRemoveArea(pitchFrom: int, pitchTo: int, timeFrom: real, timeTo: real): (a: Area)
    ensures forall n :: InArea(n, a) <==> pitchFrom <= n.pitch < pitchTo && timeFrom <= n.start < timeTo
  {
    Area(timeFrom, pitchFrom, timeTo - timeFrom, pitchTo - pitchFrom)
  }

  /** With the default bounds the written area stops below pitch 127, so a top-pitch note survives. */
  lemma DefaultRemoveSparesTopPitch()
    ensures var top := Note(127, 0.0, 1.0, 100, false);
      var a := AsWrittenRemoveArea(DefaultPitchFrom, DefaultPitchTo, DefaultTimeFrom, DefaultTimeTo);
      !InArea(top, a) && Remove([top], a) == [top]
  {
  }

  /** The intended area: every pitch from `pitch_from` to `pitch_to` inclusive. */
  function RemoveArea(pitchFrom: int, pitchTo: int, timeFrom: real, timeTo: real): (a: Area)
    ensures forall n :: InArea(n, a) <==> pitchFrom <= n.pitch <= pitchTo && timeFrom <= n.start < timeTo
  {
    Area(timeFrom, pitchFrom, timeTo - timeFrom, pitchTo - pitchFrom + 1)
  }

  /** With the default bounds the intended area takes every note that starts before beat 999. */
  lemma DefaultRemoveClearsPitches(notes: seq<Note>)
    requires forall k :: 0 <= k < |notes| ==> 0 <= notes[k].pitch <= 127 && 0.0 <= notes[k].start < 999.0
    ensures Remove(notes, RemoveArea(DefaultPitchFrom, DefaultPitchTo, DefaultTimeFrom, DefaultTimeTo)) == []
  {
  }

  /** The guards of `remove_notes`, then the clip's notes inside `area` dropped. */
  method RemoveInArea(song: Song, trackIndex: int, clipIndex: int, area: Area) returns (r: Reply<()>)
    modifies song
    ensures song.calls == old(song.calls)
    ensures var tracks := old(song.tracks); var e := MidiClipCheck(tracks, trackIndex, clipIndex);
      if e.Some? then r == Fail(e.value) && song.tracks == tracks
      else (
        var c := tracks[trackIndex].slots[clipIndex].clip.value;
        r == Ok(())
        && song.tracks == SetSlot(tracks, trackIndex, clipIndex, Slot(Some(c.(notes := Remove(c.notes, area))))))
  {
    if trackIndex < 0 || trackIndex >= |song.tracks| {
      return Fail(InvalidTrack);
    }
    var track := song.tracks[trackIndex];
    if clipIndex < 0 || clipIndex >= |track.slots| {
      return Fail(InvalidClip);
    }
    var slot := track.slots[clipIndex];
    if !slot.HasClip() || !slot.clip.value.isMidi {
      return Fail(NoMidiClip);
    }
    var clip := slot.clip.value;
    song.tracks := SetSlot(song.tracks, trackIndex, clipIndex, Slot(Some(clip.(notes := Remove(clip.notes, area)))));
    return Ok(());
  }

  /**
   * `remove_notes` as written: a missing bound takes its default, and the
   * clip loses its notes in the area with pitch span `pitch_to - pitch_from`.
   */
  method RemoveNotes(song: Song, trackIndex: int, clipIndex: int,
                     pitchFrom: Option<int>, pitchTo: Option<int>,
                     timeFrom: Option<real>, timeTo: Option<real>) returns (r: Reply<()>)
    modifies song
    ensures song.calls == old(song.calls)
    ensures var tracks := old(song.tracks); var e := MidiClipCheck(tracks, trackIndex, clipIndex);
      if e.Some? then r == Fail(e.value) && song.tracks == tracks
      else (
        var c := tracks[trackIndex].slots[clipIndex].clip.value;
        var area := AsWrittenRemoveArea(Or(pitchFrom, DefaultPitchFrom), Or(pitchTo, DefaultPitchTo),
                                        Or(timeFrom, DefaultTimeFrom), Or(timeTo, DefaultTimeTo));
        r == Ok(())
        && song.tracks == SetSlot(tracks, trackIndex, clipIndex, Slot(Some(c.(notes := Remove(c.notes, area))))))
  {
    r := RemoveInArea(song, trackIndex, clipIndex,
                      AsWrittenRemoveArea(Or(pitchFrom, DefaultPitchFrom), Or(pitchTo, DefaultPitchTo),
                                          Or(timeFrom, DefaultTimeFrom), Or(timeTo, DefaultTimeTo)));
  }

  /** `remove_notes` as evidently intended: the same, with `pitch_to` itself removed. */
  method RemoveNotesIntended(song: Song, trackIndex: int, clipIndex: int,
                             pitchFrom: Option<int>, pitchTo: Option<int>,
                             timeFrom: Option<real>, timeTo: Option<real>) returns (r: Reply<()>)
    modifies song
    ensures song.calls == old(song.calls)
    ensures var tracks := old(song.tracks); var e := MidiClipCheck(tracks, trackIndex, clipIndex);
      if e.Some? then r == Fail(e.value) && song.tracks == tracks
      else (
        var c := tracks[trackIndex].slots[clipIndex].clip.value;
        var area := RemoveArea(Or(pitchFrom, DefaultPitchFrom), Or(pitchTo, DefaultPitchTo),
                               Or(timeFrom, DefaultTimeFrom), Or(timeTo, DefaultTimeTo));
        r == Ok(())
        && song.tracks == SetSlot(tracks, trackIndex, clipIndex, Slot(Some(c.(notes := Remove(c.notes, area))))))
  {
    r := RemoveInArea(song, trackIndex, clipIndex,
                      RemoveArea(Or(pitchFrom, DefaultPitchFrom), Or(pitchTo, DefaultPitchTo),
                                 Or(timeFrom, DefaultTimeFrom), Or(timeTo, DefaultTimeTo)));
  }

  // ---------------------------------------------------------------------------
  // Selection
  // ---------------------------------------------------------------------------

  /** `select_all_notes`: forwards the selection to the clip. */
  method SelectAll(song: Song, trackIndex: int, clipIndex: int) returns (r: Reply<()>)
    modifies song
    ensures song.tracks == old(song.tracks)
    ensures var e := MidiClipCheck(old(song.tracks), trackIndex, clipIndex);
      if e.Some? then r == Fail(e.value) && song.calls == old(song.calls)
      else r == Ok(()) && song.calls == old(song.calls) + [SelectAllNotes(trackIndex, clipIndex)]
  {
    if trackIndex < 0 || trackIndex >= |song.tracks| {
      return Fail(InvalidTrack);
    }
    var track := song.tracks[trackIndex];
    if clipIndex < 0 || clipIndex >= |track.slots| {
      return Fail(InvalidClip);
    }
    var slot := track.slots[clipIndex];
    if !slot.HasClip() || !slot.clip.value.isMidi {
      return Fail(NoMidiClip);
    }
    song.calls := song.calls + [SelectAllNotes(trackIndex, clipIndex)];
    return Ok(());
  }

  /** `deselect_all_notes`: forwards the deselection to the clip. */
  method DeselectAll(song: Song, trackIndex: int, clipIndex: int) returns (r: Reply<()>)
    modifies song
    ensures song.tracks == old(song.tracks)
    ensures var e := MidiClipCheck(old(song.tracks), trackIndex, clipIndex);
      if e.Some? then r == Fail(e.value) && song.calls == old(song.calls)
      else r == Ok(()) && song.calls == old(song.calls) + [DeselectAllNotes(trackIndex, clipIndex)]
  {
    if trackIndex < 0 || trackIndex >= |song.tracks| {
      return Fail(InvalidTrack);
    }
    var track := song.tracks[trackIndex];
    if clipIndex < 0 || clipIndex >= |track.slots| {
      return Fail(InvalidClip);
    }
    var slot := track.slots[clipIndex];
    if !slot.HasClip() || !slot.clip.value.isMidi {
      return Fail(NoMidiClip);
    }
    song.calls := song.calls + [DeselectAllNotes(trackIndex, clipIndex)];
    return Ok(());
  }

  /** The tuples `replace_selected_notes` builds: one per dict, defaults filled, nothing skipped. */
  method ResolveAll(specs: seq<NoteSpec>) returns (notes: seq<Note>)
    ensures |notes| == |specs|
    ensures forall i :: 0 <= i < |specs| ==> notes[i] == Resolve(specs[i])
  {
    notes := [];
    var i := 0;
    while i < |specs|
      invariant i <= |specs|
      invariant |notes| == i
      invariant forall k :: 0 <= k < i ==> notes[k] == Resolve(specs[k])
    {
      notes := notes + [Resolve(specs[i])];
      i := i + 1;
    }
  }

  /** `replace_selected_notes`: hands every resolved note to the clip and reports how many it sent. */
  method ReplaceSelected(song: Song, trackIndex: int, clipIndex: int, specs: seq<NoteSpec>) returns (r: Reply<nat>)
    modifies song
    ensures song.tracks == old(song.tracks)
    ensures var e := MidiClipCheck(old(song.tracks), trackIndex, clipIndex);
      if e.Some? then r == Fail(e.value) && song.calls == old(song.calls)
      else (
        && r == Ok(|specs|)
        && |song.calls| == |old(song.calls)| + 1 && song.calls[..|old(song.calls)|] == old(song.calls)
        && var call := song.calls[|old(song.calls)|];
           && call.ReplaceSelectedNotes? && call.track == trackIndex && call.slot == clipIndex
           && |call.notes| == |specs|
           && forall i :: 0 <= i < |specs| ==> call.notes[i] == Resolve(specs[i]))
  {
    if trackIndex < 0 || trackIndex >= |song.tracks| {
      return Fail(InvalidTrack);
    }
    var track := song.tracks[trackIndex];
    if clipIndex < 0 || clipIndex >= |track.slots| {
      return Fail(InvalidClip);
    }
    var slot := track.slots[clipIndex];
    if !slot.HasClip() || !slot.clip.value.isMidi {
      return Fail(NoMidiClip);
    }
    var notes := ResolveAll(specs);
    song.calls := song.calls + [ReplaceSelectedNotes(trackIndex, clipIndex, notes)];
    return Ok(|specs|);
  }
}
