# ALiveMCP remote script, modelled in Dafny

ALiveMCP is an Ableton Live remote script that lets TCP clients drive Live.
Clients send newline-delimited JSON commands to a socket thread. Each
command gets a request id and an empty response slot in a registry, and it
is put on a command queue. On every display tick, Live's main thread drains
at most five queued commands. For each one it runs the built-in `ping` /
`health_check` or a tool handler looked up by action name, and puts the
result into the request's slot if that slot still exists. The socket
thread waits for the result, removes the slot and writes one reply line.

The tool handlers work on Live's song: tracks with clip slots and devices,
and devices with parameters. Each handler is a chain of index guards,
followed by a read or an in-place change. This project models:

- **Relay** (`relay.dfy`, module `Relay`): the parameter alias table and the
  command processor, both pure functions. It also has the tick drain, as a
  specification function over the shared state, and the script object
  `RemoteScript`. That object is a class whose fields are the command queue,
  the response registry, the request counter and the running flag;
  `UpdateDisplay`, `HandleNext` and `Disconnect` change them.
- **Session** (`session.dfy`, module `Session`): the per-connection loop of
  the socket thread.
  - Framing a text buffer into lines.
  - Skipping blank lines, allocating ids and slots, enqueueing, and choosing
    the reply.
  - The exit rules of the connection loop and of the accept loop.

  Each of these is a specification function, implemented by an imperative
  method on the script object.
- **LiveSet** (`liveset.dfy`): the song as datatypes. It has a `Song` class
  whose `tracks` field the handlers reassign, and which logs the host calls
  the model gives no effect (`fire`, `stop`, note selection).
- **ClipsCore**, **MidiNotes**, **DevicesCore**, **M4lDevices**
  (`clips.dfy`, `midi.dfy`, `devices.dfy`, `m4l.dfy`): the clip, MIDI-note,
  device and Max for Live handlers. Each is a method over a `Song`, tied to
  guard functions and to the specification functions of its searches and
  filters.

JSON values (`json.dfy`) keep an object's members as they appear in the
text, repeated keys included. `Json.Items` gives the dict that `json.loads`
builds from them: each key once, at the place where it first appears, with
the value of its last occurrence. The keyword arguments are built from that
dict, in its order. This models the alias collision: when a request carries
both `scene_index` and `clip_index`, `clip_index` gets the value of the
spelling that comes later in the dict. `base.dfy` holds `Option` with `Or`
for optional arguments, `Reply` (`Ok(value)` / `Fail(error)`) and substring
search.

Where the code and its comments or tests disagree, the model follows the
code:

- A malformed line consumes a request id and leaves its slot in the
  registry.
- The drain breaks on an unexpected error; it does not continue.
- Only the socket thread removes registry slots.
- `randomize_device` reports `randomized_parameters`. A test expects
  `randomized_count`, but the code does not use that key.

## Model

| member | source | states |
|---|---|---|
| Json.ErrorReply | ClaudeMCP_Remote/socket_server.py:110 | the error dict reads back `ok == false` and `error == message` |
| Json.ToMapLastWins | ALiveMCP_Remote/__init__.py:122-124 | a key that no later member repeats maps to that member's value: the last spelling of a key wins |
| Json.Assign | ClaudeMCP_Remote/socket_server.py:90 | the definition of one dict assignment `d[key] = value` while `json.loads` builds an object: a present key keeps its place and takes the new value, a new key goes last; its properties are stated by `AssignPresent` and `AssignAbsent` |
| Json.AssignPresent | ClaudeMCP_Remote/socket_server.py:90 | assigning a key the dict already holds replaces that item in place |
| Json.AssignAbsent | ClaudeMCP_Remote/socket_server.py:90 | assigning a new key appends it as the last item |
| Json.Items | ClaudeMCP_Remote/socket_server.py:90 | the definition of the dict `json.loads` builds from an object's members in text order, one assignment per member; its properties are stated by `ItemsAreDict`, `ItemsInFirstOrder` and `ItemsOfDistinct` |
| Json.ItemsAreDict | ClaudeMCP_Remote/socket_server.py:90 | the decoded dict has no repeated key, and exactly the object's keys, each with the value of its last occurrence |
| Json.ItemsInFirstOrder | ClaudeMCP_Remote/socket_server.py:90 | the dict's items come in the order in which their keys first appear in the object's text |
| Json.ItemsOfDistinct | ClaudeMCP_Remote/socket_server.py:90 | an object without repeated keys decodes to its own members, in order |
| Relay.AliasRenamesOnlySceneIndex | ALiveMCP_Remote/__init__.py:33-42 | a key is renamed iff it is `scene_index` and the action is one of the eight clip-slot actions, and then it becomes `clip_index` |
| Relay.Kwargs | ALiveMCP_Remote/__init__.py:122-124 | the definition of the keyword arguments: the decoded dict without `action`, its keys renamed, assigned in order; its properties are stated by `KwargsPassThrough`, `KwargsAliasSceneIndex` and `BothSpellingsLaterWins` |
| Relay.Process | ALiveMCP_Remote/__init__.py:85-130 | the definition of `_process_command`, case by case; its properties are stated by `PingIsBuiltIn`, `UnknownActionRunsNoHandler`, `DispatchResult` and `ProcessAlwaysReportsOk` |
| Relay.UnknownActionReply | ALiveMCP_Remote/__init__.py:115-120 | the reply reads `ok == false` and `error == "Unknown action: " + action` |
| Relay.FaultReply | ALiveMCP_Remote/__init__.py:127-130 | a fault becomes `ok == false` with the exception's text as `error` and its traceback |
| Relay.PingIsBuiltIn | ALiveMCP_Remote/__init__.py:96-102 | `ping` yields the pong payload (`ok` true, the version) whatever the dispatch table holds, even a handler named `ping` |
| Relay.UnknownActionRunsNoHandler | ALiveMCP_Remote/__init__.py:94-120 | an action outside the table, a missing one being `""`, yields the unknown-action error whatever the handlers would do |
| Relay.DispatchResult | ALiveMCP_Remote/__init__.py:114-130 | a dispatched handler's result is returned verbatim; one that raises becomes `{ok: false, error, traceback}` |
| Relay.HealthReplyOk | ALiveMCP_Remote/__init__.py:104-112 | the health reply reports `ok` true and the queue size it was given |
| Relay.ProcessAlwaysReportsOk | ALiveMCP_Remote/__init__.py:93-130 | every reply the processor builds itself carries a boolean `ok`: no fault escapes `_process_command` |
| Relay.ToMapWithoutAction | ALiveMCP_Remote/__init__.py:122 | dropping `action` members gives the command's dict minus the `action` key |
| Relay.WithoutActionKeys | ALiveMCP_Remote/__init__.py:122 | the keys left are exactly the command's keys minus `action` |
| Relay.ToMapRenamedIdentity | ALiveMCP_Remote/__init__.py:123-124 | when no key has an alias, renaming leaves the dict unchanged |
| Relay.ToMapRenamedClipSlot | ALiveMCP_Remote/__init__.py:123-124 | for a clip-slot action, renaming moves `scene_index`'s value to `clip_index` and keeps every other entry |
| Relay.KwargsPassThrough | ALiveMCP_Remote/__init__.py:122-125 | for unlisted actions (such as `launch_scene`), or a command without `scene_index`, the handler gets exactly the command's entries minus `action` |
| Relay.KwargsAliasSceneIndex | ALiveMCP_Remote/__init__.py:122-125 | for a clip-slot action, the handler gets the command's entries minus `action`, with `scene_index` delivered as `clip_index` |
| Relay.DeleteClipLegacySpelling | ALiveMCP_Remote/__init__.py:35 | for any track and index values, `delete_clip` with `scene_index` reaches the handler exactly as with `clip_index` |
| Relay.ToMapRenamedSpellings | ALiveMCP_Remote/__init__.py:123-124 | for a clip-slot action, renaming keeps every other entry, drops `scene_index`, and binds `clip_index` to whichever spelling was assigned last |
| Relay.RenamedKeys | ALiveMCP_Remote/__init__.py:123-124 | the keys after the renaming comprehension are exactly the alias image of the keys before |
| Relay.LastSpellingWithoutAction | ALiveMCP_Remote/__init__.py:122 | dropping `action` does not change which spelling comes last |
| Relay.BothSpellingsLaterWins | ALiveMCP_Remote/__init__.py:122-124 | for every clip-slot command with both spellings, in either order and with repeats: the handler sees the other entries minus `action` and `scene_index`, and `clip_index` holds the value of the spelling whose key first appears later in the text |
| Relay.RepeatedKeyKeepsFirstPlace | ALiveMCP_Remote/__init__.py:122-124 | `{"action": "delete_clip", "clip_index": v1, "scene_index": v2, "clip_index": v3}` reaches the handler as `{clip_index: v2}`, for any values |
| Relay.Drain | ALiveMCP_Remote/__init__.py:139-155 | the definition of the drain loop from a given point; its properties are stated by `DrainShape`, `DrainDelivers`, `DrainLeaves`, `DrainEffect`, the fault lemmas, and `DrainKeepsValid` |
| Relay.Tick | ALiveMCP_Remote/__init__.py:132-155 | the definition of one `update_display` call: the drain with budget five; its properties are stated by `TickEffect`, `SixQueuedLeaveOne` and `TickBreaksOnFault` |
| Relay.Deliver | ALiveMCP_Remote/__init__.py:146-147 | the definition of the guarded `put`: the result is appended to its slot when the slot exists, and dropped otherwise; its properties are stated by `DrainDelivers` and `DrainLeaves` |
| Relay.Step | ALiveMCP_Remote/__init__.py:143-147 | the definition of one fault-free pass of the loop body: pop the front item, process it with the queue size after the pop, deliver the result; its properties are stated by `ResponseAtIsProcess`, `DrainDelivers`, `DrainLeaves` and `RemoteScript.HandleNext` |
| Relay.ResponseAtIsProcess | ALiveMCP_Remote/__init__.py:143-144 | the result the tick computes for a queued item is the processor's answer to its command |
| Relay.DrainShape | ALiveMCP_Remote/__init__.py:139-152 | without a fault, the drain pops `min(budget, n)` items from the front, keeps the registry's keys, and leaves the counter and the running flag alone |
| Relay.DrainLeaves | ALiveMCP_Remote/__init__.py:146-147 | a slot that no popped item addresses keeps its contents |
| Relay.DrainDelivers | ALiveMCP_Remote/__init__.py:143-147 | the j-th popped item's result is appended to its slot when the slot exists |
| Relay.DrainEffect | ALiveMCP_Remote/__init__.py:139-152 | the drain's whole effect: the queue suffix left, the keys kept, one delivery per popped item with a slot, other slots untouched |
| Relay.TickEffect | ALiveMCP_Remote/__init__.py:139-152 | one tick pops `min(n, 5)` items in FIFO order, delivers each result only to an existing slot, and never adds or removes registry keys |
| Relay.SixQueuedLeaveOne | ALiveMCP_Remote/__init__.py:141 | with six queued commands, one tick leaves exactly the sixth |
| Relay.DrainFaultQueue | ALiveMCP_Remote/__init__.py:153-155 | a fault on an item of the drain leaves the queue just behind that item |
| Relay.DrainFaultSlot | ALiveMCP_Remote/__init__.py:153-155 | the faulting item's slot receives nothing |
| Relay.TickBreaksOnFault | ALiveMCP_Remote/__init__.py:153-155 | an unexpected error on the k-th item ends the tick: that item is consumed without delivery, and the rest stay queued with the registry keys unchanged |
| Relay.DrainKeepsValid | ALiveMCP_Remote/__init__.py:139-155 | the drain keeps every registry and queue id below the counter and the queue ids pairwise distinct |
| Relay.RemoteScript.constructor | ALiveMCP_Remote/__init__.py:67-76 | the script starts valid, with an empty queue and registry, counter 0 and (once the server starts) running |
| Relay.RemoteScript.UpdateDisplay | ALiveMCP_Remote/__init__.py:132-155 | the loop's final state is the tick specification applied to the old state |
| Relay.RemoteScript.HandleNext | ALiveMCP_Remote/__init__.py:142-155 | one pass pops the front item; without a fault it delivers the result to an existing slot, and with one it loses the result and stops |
| Relay.RemoteScript.Disconnect | ALiveMCP_Remote/__init__.py:173-182 | `running` becomes false and nothing else changes |
| Session.TrimStart | ClaudeMCP_Remote/socket_server.py:81 | the result is the suffix of the line left once its leading whitespace is dropped |
| Session.TrimEnd | ClaudeMCP_Remote/socket_server.py:81 | the result is the prefix of the line left once its trailing whitespace is dropped |
| Session.Strip | ClaudeMCP_Remote/socket_server.py:81 | the definition of `str.strip` as leading, then trailing, whitespace dropped; its properties are stated by `TrimStart`, `TrimEnd` and `StripEmptyIff` |
| Session.StripEmptyIff | ClaudeMCP_Remote/socket_server.py:81-83 | a stripped line is empty iff the line is all whitespace |
| Session.FirstNewline | ClaudeMCP_Remote/socket_server.py:80 | the split point is the first `\n` of the buffer |
| Session.Lines | ClaudeMCP_Remote/socket_server.py:79-80 | the definition of framing: the complete lines of a buffer and the remainder; its properties are stated by `FramingRoundTrip` and `FramesHaveNoNewline` |
| Session.FramingRoundTrip | ClaudeMCP_Remote/socket_server.py:79-80 | the lines, each followed by `\n`, then the remainder, reproduce the buffer |
| Session.FramesHaveNoNewline | ClaudeMCP_Remote/socket_server.py:79-80 | neither the lines nor the remainder contain `\n` |
| Session.RemoveSlotIdempotent | ClaudeMCP_Remote/socket_server.py:103-105 | the guarded delete removes exactly that id, and deleting twice is deleting once |
| Session.Submit | ClaudeMCP_Remote/socket_server.py:84-116 | the definition of submitting a non-blank message; its properties are stated by `FreshId`, `MalformedLeaksSlot`, `ParsedIsEnqueued`, `SubmitKeepsValid` and `SubmitEffect` |
| Session.HandleLine | ClaudeMCP_Remote/socket_server.py:81-116 | the definition of handling one line; its properties are stated by `BlankLineIgnored`, `LineEffect` and `LineKeepsRunning` |
| Session.BlankLineIgnored | ClaudeMCP_Remote/socket_server.py:81-83 | a whitespace-only line allocates no id, sends nothing and touches no queue |
| Session.FreshId | ClaudeMCP_Remote/socket_server.py:84-87 | the next id is no live registry key and exceeds every queued id |
| Session.MalformedLeaksSlot | ClaudeMCP_Remote/socket_server.py:84-116 | a line that does not parse consumes an id, leaves its empty slot behind, enqueues nothing and answers `{ok: false, error}` |
| Session.ParsedIsEnqueued | ClaudeMCP_Remote/socket_server.py:84-107 | a parsed command is appended under a fresh id and its slot is removed afterwards; the reply is the response, or the timeout error |
| Session.SubmitKeepsValid | ClaudeMCP_Remote/socket_server.py:84-91 | taking a line keeps ids below the counter and queue ids pairwise distinct |
| Session.InterleavedPutsStayValid | ClaudeMCP_Remote/socket_server.py:84-91 | two connections that take ids `n` and `n + 1` under the lock and put their commands outside it in the opposite order leave a valid state, so the drain lemmas cover out-of-order queues |
| Session.LineEffect | ClaudeMCP_Remote/socket_server.py:81-116 | one line yields a reply exactly when it is not blank, advances the counter by one exactly then, keeps every live slot and queued command, and leaves `running` alone |
| Session.SubmitEffect | ClaudeMCP_Remote/socket_server.py:84-116 | a submitted message advances the counter by one, keeps every live slot and queued command, and keeps the state valid |
| Session.LineKeepsRunning | ClaudeMCP_Remote/socket_server.py:79-116 | handling a line never changes `running` |
| Session.HandleLines | ClaudeMCP_Remote/socket_server.py:81-116 | the definition of handling a batch of lines in order, each from the state the previous one left; its properties are stated by `HandleLinesEffect`, `HandleLinesSplit` and `FrameIsLines` |
| Session.HandleLinesEffect | ClaudeMCP_Remote/socket_server.py:79-116 | a batch of lines yields exactly one reply per non-blank line, with the counter advanced by the same number, every live slot and queued command kept, and the state valid |
| Session.HandleLinesSplit | ClaudeMCP_Remote/socket_server.py:79-116 | replies keep line order: a batch split in two yields the replies to the first part, then those to the second, handled from the state the first part leaves |
| Session.HandleNonBlankLine | ClaudeMCP_Remote/socket_server.py:81-116 | a non-blank line is stripped, submitted, and its reply sent |
| Session.HandleOneLine | ClaudeMCP_Remote/socket_server.py:81-116 | a non-blank line handled alone gives exactly its submission's state and reply |
| Session.FrameIsLines | ClaudeMCP_Remote/socket_server.py:79-83 | the inner loop handles exactly the lines framing finds and keeps the remainder as the buffer |
| Session.Frame | ClaudeMCP_Remote/socket_server.py:79-116 | the definition of the inner `while "\n" in buffer` loop: split at the first newline, handle the line, append its reply, repeat on the rest; its properties are stated by `FrameIsLines`, `FrameKeepsRunning` and `TakeLines` |
| Session.TwoMessagesOneChunk | ClaudeMCP_Remote/socket_server.py:79-107 | two messages in one chunk produce exactly the first message's reply and then the second's, use two ids, and leave an empty buffer |
| Session.Run | ClaudeMCP_Remote/socket_server.py:59-130 | the definition of the connection loop over a trace of receive events; its properties are stated by `RunEndsAtFirstTerminator` and `StoppedSendsNothing` |
| Session.FirstTerminator | ClaudeMCP_Remote/socket_server.py:71-75 | the index found is the first event that ends the connection |
| Session.FrameKeepsRunning | ClaudeMCP_Remote/socket_server.py:79-116 | the line loop never changes `running` |
| Session.RunEndsAtFirstTerminator | ClaudeMCP_Remote/socket_server.py:71-122 | the connection ends at the first empty chunk, receive error or stop, with the matching exit; timeouts continue, and later events have no effect |
| Session.StoppedSendsNothing | ClaudeMCP_Remote/socket_server.py:71 | a script that is not running answers nothing and changes nothing |
| Session.SubmitMessage | ClaudeMCP_Remote/socket_server.py:84-116 | the locked allocation, parse, enqueue, wait and removal change the script exactly as the submit specification says |
| Session.TakeLine | ClaudeMCP_Remote/socket_server.py:81-83 | stripping and submitting one line matches the line specification |
| Session.TakeLines | ClaudeMCP_Remote/socket_server.py:79-83 | the inner `while` loop matches the framing specification: its state, remainder and replies |
| Session.HandleClient | ClaudeMCP_Remote/socket_server.py:59-130 | the connection loop's state, replies and exit match the run specification |
| Session.Listen | ClaudeMCP_Remote/socket_server.py:43-57 | the definition of the accept loop over a trace of accept events; its properties are stated by `ListenEffect` |
| Session.BeforeClose | ClaudeMCP_Remote/socket_server.py:43-45 | the accept events before the server closes: a prefix holding no close |
| Session.ListenEffect | ClaudeMCP_Remote/socket_server.py:43-57 | while running, every client before the close gets a thread in order and every accept error is logged; the close ends the loop with nothing logged |
| Session.SocketListener | ClaudeMCP_Remote/socket_server.py:43-57 | the accept loop's threads, error count and state match the listen specification |
| LiveSet.Song.constructor | ALiveMCP_Remote/__init__.py:63 | the song holds the given tracks and no host calls yet |
| LiveSet.SlotCheck | ClaudeMCP_Remote/tools/clips_core.py:14-19 | track first, then slot: passes iff both indices are in range, with each failure's message |
| LiveSet.DeviceCheck | ClaudeMCP_Remote/tools/devices_core.py:58-63 | track first, then device: passes iff both indices are in range, with each failure's message |
| LiveSet.SetSlotFrame | ClaudeMCP_Remote/tools/clips_core.py:55 | writing a slot changes that slot only: every other slot, every device and the shape of the set stay |
| LiveSet.SetDeviceFrame | ClaudeMCP_Remote/tools/devices_core.py:91-93 | writing a device changes that device only |
| ClipsCore.NewMidiClip | ClaudeMCP_Remote/tools/clips_core.py:29 | the new clip is a MIDI clip of the requested length with no notes |
| ClipsCore.ClipCheck | ClaudeMCP_Remote/tools/clips_core.py:41-53 | passes iff the slot exists and holds a clip; index errors come first, then "No clip in slot" |
| ClipsCore.CreateCheck | ClaudeMCP_Remote/tools/clips_core.py:14-27 | passes iff the slot exists on a MIDI track and is empty; the guards fail in the source's order and with its messages |
| ClipsCore.CreateMidiClip | ClaudeMCP_Remote/tools/clips_core.py:11-37 | on success the slot holds a fresh MIDI clip of the given length, or 4 beats when none is given, and the reply echoes the indices and that length; on failure nothing changes |
| ClipsCore.DeleteClip | ClaudeMCP_Remote/tools/clips_core.py:41-56 | on success only the addressed slot is emptied; on failure nothing changes |
| ClipsCore.FirstEmptyAfter | ClaudeMCP_Remote/tools/clips_core.py:74-81 | the destination is the smallest empty slot after the source, or none when every later slot is taken |
| ClipsCore.FindDestination | ClaudeMCP_Remote/tools/clips_core.py:74-78 | the search loop finds exactly that destination |
| ClipsCore.DuplicateClip | ClaudeMCP_Remote/tools/clips_core.py:60-89 | copies the source clip into the first empty later slot, or fails with "No empty slot available after source slot" and changes nothing |
| ClipsCore.LaunchClip | ClaudeMCP_Remote/tools/clips_core.py:93-108 | fires the slot only when it holds a clip; otherwise fails and calls nothing |
| ClipsCore.StopClip | ClaudeMCP_Remote/tools/clips_core.py:112-123 | stops any slot that exists, with or without a clip |
| ClipsCore.StopNeedsNoClip | ClaudeMCP_Remote/tools/clips_core.py:112-125 | on an empty slot `stop_clip` passes its guards where the other slot operations report "No clip in slot" |
| ClipsCore.GetClipInfo | ClaudeMCP_Remote/tools/clips_core.py:135-161 | fails iff the clip guards fail; otherwise reports every field of the clip |
| ClipsCore.SetClipName | ClaudeMCP_Remote/tools/clips_core.py:165-180 | renames only the addressed clip and echoes the name |
| ClipsCore.RenameReadsBack | ClaudeMCP_Remote/tools/clips_core.py:179-180 | after a rename, the clip info reads back the new name with every other field and the notes unchanged |
| ClipsCore.DeleteTwiceFails | ClaudeMCP_Remote/tools/clips_core.py:51-55 | after a delete, deleting again reports "No clip in slot" |
| ClipsCore.CreateTwiceFails | ClaudeMCP_Remote/tools/clips_core.py:24-29 | after a create, creating again reports "Clip slot already has a clip" |
| ClipsCore.DuplicateCopies | ClaudeMCP_Remote/tools/clips_core.py:83 | the destination differs from the source, holds its copy, and the source keeps its clip |
| MidiNotes.TrackClipCheck | ClaudeMCP_Remote/tools/midi_notes.py:25-41 | passes iff the track is a MIDI track and the slot holds a MIDI clip; guard order is track, MIDI track, slot, has clip, MIDI clip |
| MidiNotes.MidiClipCheck | ClaudeMCP_Remote/tools/midi_notes.py:124-133 | passes iff the slot holds a MIDI clip; otherwise "No MIDI clip in slot" after the index errors |
| MidiNotes.MidiChainsDiffer | ClaudeMCP_Remote/tools/midi_notes.py:124-133 | a MIDI clip on an audio track passes this chain but fails `get_clip_notes`' chain |
| MidiNotes.Resolve | ClaudeMCP_Remote/tools/midi_notes.py:43-56 | the definition of a note dict's `get` defaults (pitch 60, start 0.0, duration 1.0, velocity 100, unmuted); its properties are stated by `Written`, `AcceptedIff` and `ResolveAll` |
| MidiNotes.Written | ClaudeMCP_Remote/tools/midi_notes.py:43-56 | a written note takes the given fields or the defaults 60 / 0.0 / 1.0 / 100 and is never muted |
| MidiNotes.Accepted | ClaudeMCP_Remote/tools/midi_notes.py:43-56 | every note written is playable and unmuted, and there are at most as many as were sent |
| MidiNotes.AcceptedIff | ClaudeMCP_Remote/tools/midi_notes.py:43-56 | a note is written iff some input resolves to it and it has pitch and velocity in 0..127 and a positive duration |
| MidiNotes.AcceptedAll | ClaudeMCP_Remote/tools/midi_notes.py:43-56 | every input is written iff every input is playable |
| MidiNotes.AddNotes | ClaudeMCP_Remote/tools/midi_notes.py:11-64 | appends the playable notes to the clip in input order, one write per note, reports the input length, and fails without change on a guard |
| MidiNotes.NoteCountIncludesSkipped | ClaudeMCP_Remote/tools/midi_notes.py:58-64 | a skipped note still counts in `note_count` |
| MidiNotes.Select | ClaudeMCP_Remote/tools/midi_notes.py:95 | a note is returned iff the clip has it and it lies in the area |
| MidiNotes.Remove | ClaudeMCP_Remote/tools/midi_notes.py:136-141 | a note stays iff the clip has it and it lies outside the area |
| MidiNotes.SelectRemovePartition | ClaudeMCP_Remote/tools/midi_notes.py:136-141 | the notes in an area and the notes left after removing it together make up the clip's notes, as a multiset |
| MidiNotes.RemovedAreaIsEmpty | ClaudeMCP_Remote/tools/midi_notes.py:136-141 | after removing an area, nothing in it remains |
| MidiNotes.WholeClip | ClaudeMCP_Remote/tools/midi_notes.py:95 | the area `get_clip_notes` asks for holds the notes starting within the clip's length at pitches 0..127 |
| MidiNotes.CopyNotes | ClaudeMCP_Remote/tools/midi_notes.py:97-107 | the dict list has one entry per host note, in the same order |
| MidiNotes.GetClipNotes | ClaudeMCP_Remote/tools/midi_notes.py:68-115 | returns exactly the clip's notes in the whole-clip area, with `count` their number, or the guard's error |
| MidiNotes.GetNotesExtended | ClaudeMCP_Remote/tools/midi_notes.py:220-256 | returns exactly the clip's notes in the requested area, with `count` their number, or the guard's error |
| MidiNotes.AsWrittenRemoveArea | ClaudeMCP_Remote/tools/midi_notes.py:136-141 | as written, the area covers pitches `pitch_from <= p < pitch_to` and times `time_from <= t < time_to` |
| MidiNotes.DefaultRemoveSparesTopPitch | ClaudeMCP_Remote/tools/midi_notes.py:119-141 | with the default bounds, a note at pitch 127 survives the removal |
| MidiNotes.RemoveArea | ClaudeMCP_Remote/tools/midi_notes.py:136-141 | the intended area covers pitches `pitch_from <= p <= pitch_to` |
| MidiNotes.DefaultRemoveClearsPitches | ClaudeMCP_Remote/tools/midi_notes.py:119-141 | with the default bounds, the intended area clears every note starting before beat 999 |
| MidiNotes.RemoveInArea | ClaudeMCP_Remote/tools/midi_notes.py:124-142 | after the guards, drops exactly the clip's notes inside the given area, or fails without change |
| MidiNotes.RemoveNotes | ClaudeMCP_Remote/tools/midi_notes.py:119-142 | as written: missing bounds take the defaults 0, 127, 0.0 and 999.0; drops exactly the clip's notes with `pitch_from <= p < pitch_to` and `time_from <= t < time_to`, or fails without change |
| MidiNotes.RemoveNotesIntended | ClaudeMCP_Remote/tools/midi_notes.py:119-142 | as evidently intended: the same with `pitch_to` removed too |
| MidiNotes.SelectAll | ClaudeMCP_Remote/tools/midi_notes.py:150-166 | selects the clip's notes when the slot holds a MIDI clip, and otherwise fails and calls nothing |
| MidiNotes.DeselectAll | ClaudeMCP_Remote/tools/midi_notes.py:170-186 | deselects the clip's notes under the same guard |
| MidiNotes.ResolveAll | ClaudeMCP_Remote/tools/midi_notes.py:206-213 | one tuple per input note, defaults filled in, nothing skipped |
| MidiNotes.ReplaceSelected | ClaudeMCP_Remote/tools/midi_notes.py:190-216 | hands every resolved note to the clip in one call and reports `note_count` as the input length |
| DevicesCore.ParamCheck | ClaudeMCP_Remote/tools/devices_core.py:58-67 | passes iff track, device and parameter indices are in range, failing in that order with those messages |
| DevicesCore.GetTrackDevices | ClaudeMCP_Remote/tools/devices_core.py:27-53 | one entry per device in order, with `count` the number of devices; a device without `is_active` makes the handler report the error |
| DevicesCore.GetDeviceParameters | ClaudeMCP_Remote/tools/devices_core.py:99-131 | one entry per parameter at its own position, `is_enabled` true when absent, with `count` the number of parameters |
| DevicesCore.SetParamValue | ClaudeMCP_Remote/tools/devices_core.py:69-70 | the definition of writing one parameter's value; its properties are stated by `SetParamValueFrame` |
| DevicesCore.SetParamValueFrame | ClaudeMCP_Remote/tools/devices_core.py:69-70 | writing a parameter changes its value only, and nothing else in the set |
| DevicesCore.SetDeviceParam | ClaudeMCP_Remote/tools/devices_core.py:55-72 | writes only the addressed parameter and returns its new value, or fails without change |
| DevicesCore.SetDeviceOnOff | ClaudeMCP_Remote/tools/devices_core.py:80-95 | sets `is_active` to `enabled` on a device that has it; otherwise "Device does not support on/off" and no change |
| DevicesCore.FirstNamed | ClaudeMCP_Remote/tools/devices_core.py:147-158 | the first parameter with that name, or none when no parameter has it |
| DevicesCore.FindParameter | ClaudeMCP_Remote/tools/devices_core.py:147-156 | the search loop finds exactly that parameter |
| DevicesCore.GetDeviceParameterByName | ClaudeMCP_Remote/tools/devices_core.py:135-158 | reports the first match with its index, or "Parameter '<name>' not found" |
| DevicesCore.SetDeviceParameterByName | ClaudeMCP_Remote/tools/devices_core.py:162-179 | writes only the first match and echoes the name and value, or reports not found without change |
| DevicesCore.SetThenGetByName | ClaudeMCP_Remote/tools/devices_core.py:135-179 | after a set by name, a get by name finds the same position and reads back the value |
| DevicesCore.WithoutDevice | ClaudeMCP_Remote/tools/devices_core.py:193 | the definition of deleting one device from a track's chain; its properties are stated by `WithoutDeviceShifts` |
| DevicesCore.WithoutDeviceShifts | ClaudeMCP_Remote/tools/devices_core.py:193 | deleting a device keeps the devices before it and shifts those after it down by one |
| DevicesCore.DeleteDevice | ClaudeMCP_Remote/tools/devices_core.py:183-194 | removes exactly the addressed device, or fails without change |
| DevicesCore.CountEligible | ClaudeMCP_Remote/tools/devices_core.py:251-257 | the count of eligible parameters is bounded by the number of parameters |
| DevicesCore.CountEligibleZero | ClaudeMCP_Remote/tools/devices_core.py:251-257 | the count is zero iff no parameter is enabled and unquantized |
| DevicesCore.Uniform | ClaudeMCP_Remote/tools/devices_core.py:254 | a drawn value lies between the parameter's bounds |
| DevicesCore.RandomizeDevice | ClaudeMCP_Remote/tools/devices_core.py:238-265 | gives each enabled unquantized parameter a value within its bounds, leaves every other parameter and device as it was, and reports the number changed |
| DevicesCore.RandomizedDevice | ClaudeMCP_Remote/tools/devices_core.py:251-265 | writing back a parameter list randomized entry by entry is a randomize outcome with that count |
| DevicesCore.RandomizeDeviceParameters | ClaudeMCP_Remote/tools/devices_core.py:234-236 | has the same outcome as `randomize_device` |
| DevicesCore.RandomizeNothingEligible | ClaudeMCP_Remote/tools/devices_core.py:251-265 | with no eligible parameter, randomizing changes nothing and reports zero |
| M4lDevices.M4lType | ClaudeMCP_Remote/tools/m4l_devices.py:72-79 | each of the three Max class names maps to its kind, and every other name maps to "unknown" |
| M4lDevices.IsMaxDevice | ClaudeMCP_Remote/tools/m4l_devices.py:11-34 | after the index guards, `is_m4l` holds iff the class is a Max class; the display name falls back to the class name |
| M4lDevices.Lower | ClaudeMCP_Remote/tools/m4l_devices.py:124 | lower-casing keeps the length, leaves no ASCII capital, and changes exactly the capitals |
| M4lDevices.CvIsLowerCv | ClaudeMCP_Remote/tools/m4l_devices.py:124 | "CV in name or cv in lower(name)" holds iff the lower-cased name contains "cv" |
| M4lDevices.CvToolNeedNotBeMax | ClaudeMCP_Remote/tools/m4l_devices.py:122-124 | the CV listing picks devices by name alone, including ones that are not Max devices |
| M4lDevices.Positions | ClaudeMCP_Remote/tools/m4l_devices.py:48-49 | every selected position lies within the device chain |
| M4lDevices.PositionsExact | ClaudeMCP_Remote/tools/m4l_devices.py:48-49 | the positions are increasing and name exactly the selected devices |
| M4lDevices.Listing | ClaudeMCP_Remote/tools/m4l_devices.py:48-60 | the definition of the listing loop over a device chain; its properties are stated by `ListingFails`, `ListingEntries` and `ListingStaysFailed` |
| M4lDevices.ListingFails | ClaudeMCP_Remote/tools/m4l_devices.py:48-60 | the listing fails iff a selected device lacks `is_active`, and then with that error |
| M4lDevices.ListingEntries | ClaudeMCP_Remote/tools/m4l_devices.py:48-60 | a successful listing has one entry per selected device, in chain order, carrying its original index |
| M4lDevices.ListSelected | ClaudeMCP_Remote/tools/m4l_devices.py:48-60 | the enumerate loop matches the listing specification |
| M4lDevices.ListingStaysFailed | ClaudeMCP_Remote/tools/m4l_devices.py:48-60 | once the loop has failed on a prefix, the whole listing fails (the early return is sound) |
| M4lDevices.GetM4lDevices | ClaudeMCP_Remote/tools/m4l_devices.py:38-68 | the Max devices of the track under the key `devices`, with index, kind and `count`, or the guard's error |
| M4lDevices.GetCvToolsDevices | ClaudeMCP_Remote/tools/m4l_devices.py:113-141 | the devices whose lower-cased name contains "cv", under the key `cv_devices`, with index and `count`, or the guard's error |
| M4lDevices.GetM4lParamByName | ClaudeMCP_Remote/tools/m4l_devices.py:85-109 | the first parameter with that name, with its index and `is_enabled` true when absent, or not found |
| M4lDevices.SetDeviceParamByName | ClaudeMCP_Remote/tools/m4l_devices.py:81-83 | has the same outcome as `set_device_parameter_by_name` |

## Left out

- Sockets, threads and locks are not modelled: creating, binding and listening on the server socket, `settimeout`, accept, thread start, `sendall`, and `close` failures. Each locked block is one atomic step, and the queue invariant asks only that queued ids be distinct, since puts from different connections can arrive in either order. The blocking `get(timeout=…)` is an oracle `wait: nat -> Option<Value>`, where `None` is the timeout.
- Concurrency is not modelled. The socket threads and the tick are separate operations on one state, and the model proves nothing about their interleavings. The one interleaving it does model is `disconnect` running during a blocking `recv` or `accept` (the `Shutdown` / `ServerClosed` events).
- Bytes are not modelled: JSON text, the tokenising part of `json.loads`, `json.dumps` and UTF-8 decoding. Parsing is an oracle that returns an object's members in text order (repeats included), or the error text; `Json.Items` models the dict-building step of `json.loads` on those members (first position, last value). A decode error counts as a receive error, and replies are abstract values.
- The host's major version, which the health check reads, is a parameter of the host. Its fault is modelled as a handler fault.
- Traceback text, logging and the version string are kept abstract: they are formatting.
- `get_available_tools` is opaque: the tools object is the set of names `getattr` resolves, the list it reports, and a fixed `invoke` oracle.
- Relay.RemoteScript.UpdateDisplay: the `queue.Empty` break is folded into the loop condition, and the method does not itself promise `Valid()`. `Relay.DrainKeepsValid` proves that the tick keeps it.
- Session.Submit: socket_server.py:84-105 is one step for a single connection, although the parse and `put` at :90-91 and the wait at :97-101 run outside `request_lock`. How other connections interleave within one message is not modelled; `InterleavedPutsStayValid` shows that the invariant admits the orders such interleaving produces.
- Session.HandleClient: runs until the given events run out (`TraceEnded`). A real connection never ends that way. Closing the client socket in the `finally` block is not modelled.
- Python's conversions (`int()`, `float()`, `str()`, `bool()`) are not modelled, nor the exceptions they raise. Values arrive already typed. `str(name)` is the string itself.
- Exceptions raised by Live's API are not modelled, apart from reading a missing `is_active`. Their `str(e)` in an `{ok: false, error}` reply is not modelled either. That error's text is abstract (`MissingIsActive`); Python prefixes it with the class name.
- DevicesCore.RandomizeDevice: does not model the `except Exception: pass` around one assignment. A parameter that refuses its value would keep it and not be counted.
- DevicesCore.Uniform: `random.uniform` is a nondeterministic choice between the bounds. Floating-point rounding is not modelled, and times and values are `real`.
- M4lDevices.Lower: folds ASCII letters only. Python's `lower()` also folds other scripts.
- The handlers' constant `message` strings ("Clip deleted", "Notes removed", …) are not carried in the success payloads. Success is `Ok` with the data fields.
- Live's own behaviour is assumed as follows:
  - `set_notes` appends notes;
  - note areas are half-open in time and pitch;
  - `create_clip` makes an empty MIDI clip;
  - `duplicate_clip_to` copies the slot;
  - `delete_device` removes that index;
  - parameter writes are not clamped.
- `fire`, `stop`, note selection and `replace_selected_notes` have no effect on the modelled song. They are recorded in `Song.calls`.
- `add_device`, `get_device_presets`, `set_device_preset` and `stop_all_clips` are not modelled. They are outside the modelled core, and each is a single guarded host call.
- Other parts of the repository are not part of this model: the tracks, scenes, mixing, arrangement, automation and Live 12 handlers, and `get_available_tools`.

## Findings

| source | as written | input that shows it | evidently intended | confidence | as-written member | corrected member |
|---|---|---|---|---|---|---|
| ClaudeMCP_Remote/tools/midi_notes.py:120-141 | the pitch span passed is `pitch_to - pitch_from`, so the area stops below `pitch_to`; with the defaults 0 and 127, pitch 127 is never removed (`MidiNotes.RemoveNotes` models this) | `remove_notes` with default bounds on a clip holding a note at pitch 127, start 0.0 | `pitch_to` inclusive (span `pitch_to - pitch_from + 1`), so the defaults clear every pitch; `get_clip_notes` asks for span 128 (`MidiNotes.RemoveNotesIntended` models this) | not executed | MidiNotes.DefaultRemoveSparesTopPitch | MidiNotes.DefaultRemoveClearsPitches |
