/**
 * The host-thread half of the relay (ALiveMCP_Remote/__init__.py): the
 * legacy parameter aliases, the command processor, the per-tick drain of the
 * command queue and the script object whose fields the socket threads and
 * the tick share.
 */
module Relay {
  import opened Base
  import opened Json

  const Version: string := "1.2.1"
  const ScriptName: string := "ALiveMCP_Remote"

  /** MAX_COMMANDS_PER_TICK: at most this many queued commands run per tick. */
  const MaxCommandsPerTick: nat := 5

  // ---------------------------------------------------------------------------
  // Parameter aliases
  // ---------------------------------------------------------------------------

  /** PARAM_ALIASES: per action, legacy key -> canonical key. */
  const ParamAliases: map<string, map<string, string>> := map[
    "create_midi_clip" := map["scene_index" := "clip_index"],
    "delete_clip" := map["scene_index" := "clip_index"],
    "duplicate_clip" := map["scene_index" := "clip_index"],
    "launch_clip" := map["scene_index" := "clip_index"],
    "stop_clip" := map["scene_index" := "clip_index"],
    "get_clip_info" := map["scene_index" := "clip_index"],
    "set_clip_name" := map["scene_index" := "clip_index"],
    "add_notes" := map["scene_index" := "clip_index"]
  ]

  /** The clip-slot actions that accept `scene_index` as a legacy name of `clip_index`. */
  const ClipSlotActions: set<string> := {
    "create_midi_clip", "delete_clip", "duplicate_clip", "launch_clip",
    "stop_clip", "get_clip_info", "set_clip_name", "add_notes"
  }

  /** `PARAM_ALIASES.get(action, {}).get(key, key)`. */
  function AliasOf(action: string, key: string): string
  {
    if action in ParamAliases && key in ParamAliases[action] then ParamAliases[action][key] else key
  }

  /** Aliasing renames exactly `scene_index`, to `clip_index`, and only for the clip-slot actions. */
  lemma AliasRenamesOnlySceneIndex(action: string, key: string)
    ensures AliasOf(action, key) != key <==> key == "scene_index" && action in ClipSlotActions
    ensures AliasOf(action, key) != key ==> AliasOf(action, key) == "clip_index"
  {
    assert ParamAliases.Keys == ClipSlotActions;
  }

  /** `[(k, v) for k, v in command.items() if k != "action"]`, in order. */
  function WithoutAction(members: seq<Member>): (r: seq<Member>)
  {
    if members == [] then []
    else
      var init, last := members[..|members| - 1], members[|members| - 1];
      WithoutAction(init) + (if last.key != "action" then [last] else [])
  }

  /** Every member with its key passed through the alias table of `action`. */
  function Renamed(action: string, members: seq<Member>): seq<Member>
  {
    seq(|members|, i requires 0 <= i < |members| => Member(AliasOf(action, members[i].key), members[i].value))
  }

  /** The keys after renaming are the alias image of the keys before. */
  lemma RenamedKeys(action: string, members: seq<Member>)
    ensures KeySet(Renamed(action, members)) == set k | k in KeySet(members) :: AliasOf(action, k)
  {
    var r := Renamed(action, members);
    forall k | k in KeySet(r) ensures k in set k | k in KeySet(members) :: AliasOf(action, k) {
      var i :| 0 <= i < |r| && r[i].key == k;
      assert members[i].key in KeySet(members);
    }
    forall k | k in KeySet(members) ensures AliasOf(action, k) in KeySet(r) {
      var i :| 0 <= i < |members| && members[i].key == k;
      assert r[i].key == AliasOf(action, k);
    }
  }

  /**
   * The keyword arguments the handler of `action` is invoked with: the
   * decoded dict's items without `action`, renamed, and assigned in the
   * dict's order (so when two items rename to the same key the later one wins).
   */
  function Kwargs(action: string, members: seq<Member>): map<string, Value>
  {
    ToMap(Renamed(action, WithoutAction(Items(members))))
  }

  // ---------------------------------------------------------------------------
  // The dispatch table and the host, as seen by the processor
  // ---------------------------------------------------------------------------

  /** A Python exception: its `str(e)` and the traceback text logged with it. */
  datatype Exc = Exc(message: string, trace: string)

  /** What invoking a handler does: return a result or raise. */
  datatype Outcome = Returned(result: Value) | Raised(fault: Exc)

  /**
   * The tools object: `names` are the actions `getattr` resolves, `available`
   * is what `get_available_tools()` lists, and `invoke` runs a handler.
   */
  datatype Tools = Tools(names: set<string>, available: seq<string>, invoke: (string, map<string, Value>) -> Outcome)

  /** The host's answer to `get_major_version()`. */
  datatype HostAnswer = Answered(text: string) | Failed(fault: Exc)

  /** What the processor asks of the host: its version, and the traceback text of a fault raised in the processor itself. */
  datatype Host = Host(majorVersion: HostAnswer, trace: string)

  // ---------------------------------------------------------------------------
  // Replies of the command processor
  // ---------------------------------------------------------------------------

  function PongReply(): Value
  {
    Obj([Member("ok", Bool(true)), Member("message", Str("pong (queue-based, thread-safe)")),
         Member("script", Str(ScriptName)), Member("version", Str(Version))])
  }

  function HealthReply(toolCount: nat, abletonVersion: string, queueSize: nat): Value
  {
    Obj([Member("ok", Bool(true)), Member("message", Str("ALiveMCP Remote Script running (thread-safe)")),
         Member("version", Str(Version)), Member("tool_count", Int(toolCount)),
         Member("ableton_version", Str(abletonVersion)), Member("queue_size", Int(queueSize))])
  }

  function UnknownActionReply(action: string, available: seq<string>): (r: Value)
    ensures Get(r, "ok") == Some(Bool(false)) && Get(r, "error") == Some(Str("Unknown action: " + action))
  {
    var ms := [Member("ok", Bool(false)), Member("error", Str("Unknown action: " + action)),
               Member("available_actions", Arr(seq(|available|, i requires 0 <= i < |available| => Str(available[i]))))];
    ToMapOfThree(ms[0], ms[1], ms[2]);
    Obj(ms)
  }

  function FaultReply(e: Exc): (r: Value)
    ensures Get(r, "ok") == Some(Bool(false)) && Get(r, "error") == Some(Str(e.message))
    ensures Get(r, "traceback") == Some(Str(e.trace))
  {
    var ms := [Member("ok", Bool(false)), Member("error", Str(e.message)), Member("traceback", Str(e.trace))];
    ToMapOfThree(ms[0], ms[1], ms[2]);
    Obj(ms)
  }

  // ---------------------------------------------------------------------------
  // The command processor
  // ---------------------------------------------------------------------------

  /** `command.get("action", "")`. */
  function ActionOf(command: Value): Value
    requires command.Obj?
  {
    match Get(command, "action")
    case Some(a) => a
    case None => Str("")
  }

  /**
   * `_process_command`: the built-ins first, then the dispatch table; every
   * fault on the way (a command that is not an object, an action that is not
   * a string, a failing host, a raising handler) becomes `{ok: false, error,
   * traceback}`.
   */
  function Process(command: Value, tools: Tools, host: Host, queueSize: nat): Value
  {
    if !command.Obj? then
      FaultReply(Exc("'" + TypeName(command) + "' object has no attribute 'get'", host.trace))
    else
      var action := ActionOf(command);
      if action == Str("ping") then PongReply()
      else if action == Str("health_check") then
        match host.majorVersion
        case Answered(v) => HealthReply(|tools.available|, v, queueSize)
        case Failed(e) => FaultReply(e)
      else if !action.Str? then
        FaultReply(Exc("attribute name must be string, not '" + TypeName(action) + "'", host.trace))
      else if action.s !in tools.names then UnknownActionReply(action.s, tools.available)
      else
        match tools.invoke(action.s, Kwargs(action.s, command.members))
        case Returned(v) => v
        case Raised(e) => FaultReply(e)
  }

  /** `ping` answers the fixed pong payload whatever the table holds, even a handler named `ping`. */
  lemma PingIsBuiltIn(command: Value, tools: Tools, other: Tools, host: Host, queueSize: nat)
    requires command.Obj? && Get(command, "action") == Some(Str("ping"))
    ensures Process(command, tools, host, queueSize) == PongReply()
    ensures Process(command, tools, host, queueSize) == Process(command, other, host, queueSize)
    ensures Get(PongReply(), "ok") == Some(Bool(true))
    ensures Get(PongReply(), "version") == Some(Str(Version))
  {
    var ms := PongReply().members;
    ToMapOfFour(ms[0], ms[1], ms[2], ms[3]);
  }

  /**
   * An action that is neither built-in nor in the table (a missing action is
   * `""`) yields the unknown-action error, whatever the handlers would do.
   */
  lemma UnknownActionRunsNoHandler(command: Value, tools: Tools, other: Tools, host: Host, queueSize: nat)
    requires command.Obj?
    requires var a := ActionOf(command); a.Str? && a.s != "ping" && a.s != "health_check" && a.s !in tools.names
    requires other.names == tools.names && other.available == tools.available
    ensures var a := ActionOf(command).s;
      && Process(command, tools, host, queueSize) == UnknownActionReply(a, tools.available)
      && Process(command, other, host, queueSize) == Process(command, tools, host, queueSize)
      && Get(Process(command, tools, host, queueSize), "error") == Some(Str("Unknown action: " + a))
    ensures "action" !in KeySet(command.members) ==> ActionOf(command) == Str("")
  {
    ToMapKeys(command.members);
  }

  /** The command reaches the dispatch table: an object whose action is a string naming a handler other than the built-ins. */
  predicate Dispatches(command: Value, tools: Tools)
  {
    command.Obj? && var a := ActionOf(command); a.Str? && a.s != "ping" && a.s != "health_check" && a.s in tools.names
  }

  /** A dispatched handler's result is returned verbatim; a handler that raises becomes `ok: false`. */
  lemma DispatchResult(command: Value, tools: Tools, host: Host, queueSize: nat)
    requires Dispatches(command, tools)
    ensures var a := ActionOf(command).s;
      match tools.invoke(a, Kwargs(a, command.members))
      case Returned(v) => Process(command, tools, host, queueSize) == v
      case Raised(e) =>
        && Get(Process(command, tools, host, queueSize), "ok") == Some(Bool(false))
        && Get(Process(command, tools, host, queueSize), "error") == Some(Str(e.message))
        && Get(Process(command, tools, host, queueSize), "traceback") == Some(Str(e.trace))
  {
  }

  lemma HealthReplyOk(toolCount: nat, abletonVersion: string, queueSize: nat)
    ensures Get(HealthReply(toolCount, abletonVersion, queueSize), "ok") == Some(Bool(true))
    ensures Get(HealthReply(toolCount, abletonVersion, queueSize), "queue_size") == Some(Int(queueSize))
  {
    var h := HealthReply(toolCount, abletonVersion, queueSize).members;
    ToMapOfFour(h[0], h[1], h[2], h[3]); ToMapOfSix(h[0], h[1], h[2], h[3], h[4], h[5]);
  }

  /** Every reply the processor builds itself carries a boolean `ok`: nothing escapes as a raised fault. */
  lemma ProcessAlwaysReportsOk(command: Value, tools: Tools, host: Host, queueSize: nat)
    requires !Dispatches(command, tools)
    ensures var r := Process(command, tools, host, queueSize);
      Get(r, "ok") == Some(Bool(true)) || Get(r, "ok") == Some(Bool(false))
  {
    if command.Obj? {
      var action := ActionOf(command);
      if action == Str("ping") {
        var p := PongReply().members;
        ToMapOfFour(p[0], p[1], p[2], p[3]);
      } else if action == Str("health_check") && host.majorVersion.Answered? {
        HealthReplyOk(|tools.available|, host.majorVersion.text, queueSize);
      }
    }
  }

  // ---------------------------------------------------------------------------
  // Keyword arguments
  // ---------------------------------------------------------------------------

  lemma WithoutActionSnoc(init: seq<Member>, last: Member)
    ensures WithoutAction(init + [last]) == WithoutAction(init) + (if last.key != "action" then [last] else [])
  {
    assert (init + [last])[..|init|] == init;
  }

  lemma RemoveAfterUpdate(m: map<string, Value>, k: string, v: Value, r: string)
    ensures m[k := v] - {r} == if k == r then m - {r} else (m - {r})[k := v]
  {
  }

  lemma ToMapWithoutActionStep(init: seq<Member>, last: Member)
    requires ToMap(WithoutAction(init)) == ToMap(init) - {"action"}
    ensures ToMap(WithoutAction(init + [last])) == ToMap(init + [last]) - {"action"}
  {
    WithoutActionSnoc(init, last);
    ToMapSnoc(init, last);
    RemoveAfterUpdate(ToMap(init), last.key, last.value, "action");
    var w := WithoutAction(init);
    if last.key != "action" {
      ToMapSnoc(w, last);
    } else {
      assert w + [] == w;
    }
  }

  lemma {:induction false} ToMapWithoutAction(members: seq<Member>)
    ensures ToMap(WithoutAction(members)) == ToMap(members) - {"action"}
  {
    if members != [] {
      var init, last := members[..|members| - 1], members[|members| - 1];
      ToMapWithoutAction(init);
      ToMapWithoutActionStep(init, last);
      assert members == init + [last];
    }
  }

  lemma RemoveAfterAdd(keys: set<string>, k: string, r: string)
    ensures (keys + {k}) - {r} == if k == r then keys - {r} else (keys - {r}) + {k}
  {
  }

  lemma WithoutActionKeysStep(init: seq<Member>, last: Member)
    requires KeySet(WithoutAction(init)) == KeySet(init) - {"action"}
    ensures KeySet(WithoutAction(init + [last])) == KeySet(init + [last]) - {"action"}
  {
    WithoutActionSnoc(init, last);
    KeySetSnoc(init, last);
    RemoveAfterAdd(KeySet(init), last.key, "action");
    var w := WithoutAction(init);
    if last.key != "action" {
      KeySetSnoc(w, last);
    } else {
      assert w + [] == w;
    }
  }

  lemma {:induction false} WithoutActionKeys(members: seq<Member>)
    ensures KeySet(WithoutAction(members)) == KeySet(members) - {"action"}
  {
    if members != [] {
      var init, last := members[..|members| - 1], members[|members| - 1];
      WithoutActionKeys(init);
      WithoutActionKeysStep(init, last);
      assert members == init + [last];
    }
  }

  lemma {:induction false} ToMapRenamedIdentity(action: string, members: seq<Member>)
    requires forall i :: 0 <= i < |members| ==> AliasOf(action, members[i].key) == members[i].key
    ensures ToMap(Renamed(action, members)) == ToMap(members)
  {
    assert Renamed(action, members) == members;
  }

  /** `scene_index` moved to `clip_index` in a dict. */
  function Rekeyed(m: map<string, Value>): map<string, Value>
  {
    if "scene_index" in m then (m - {"scene_index"})["clip_index" := m["scene_index"]] else m
  }

  lemma RenamedSnoc(action: string, init: seq<Member>, last: Member)
    ensures Renamed(action, init + [last]) == Renamed(action, init) + [Member(AliasOf(action, last.key), last.value)]
  {
  }

  lemma RekeyedUpdate(m: map<string, Value>, k: string, v: Value)
    requires k != "clip_index"
    ensures Rekeyed(m[k := v]) == if k == "scene_index" then Rekeyed(m)["clip_index" := v] else Rekeyed(m)[k := v]
  {
  }

  lemma ToMapRenamedClipSlotStep(action: string, init: seq<Member>, last: Member)
    requires action in ClipSlotActions
    requires last.key != "clip_index"
    requires ToMap(Renamed(action, init)) == Rekeyed(ToMap(init))
    ensures ToMap(Renamed(action, init + [last])) == Rekeyed(ToMap(init + [last]))
  {
    AliasRenamesOnlySceneIndex(action, last.key);
    var renamed := Member(AliasOf(action, last.key), last.value);
    RenamedSnoc(action, init, last);
    ToMapSnoc(Renamed(action, init), renamed);
    ToMapSnoc(init, last);
    RekeyedUpdate(ToMap(init), last.key, last.value);
  }

  lemma {:induction false} ToMapRenamedClipSlot(action: string, members: seq<Member>)
    requires action in ClipSlotActions
    requires "clip_index" !in KeySet(members)
    ensures ToMap(Renamed(action, members)) == Rekeyed(ToMap(members))
  {
    if members != [] {
      var init, last := members[..|members| - 1], members[|members| - 1];
      assert members == init + [last];
      KeySetSnoc(init, last);
      ToMapRenamedClipSlot(action, init);
      ToMapRenamedClipSlotStep(action, init, last);
    }
  }

  /**
   * The handler receives exactly the command's keys other than `action`,
   * with their values, for every action outside the clip-slot list (such as
   * `launch_scene`) and for any command without `scene_index`.
   */
  lemma KwargsPassThrough(action: string, members: seq<Member>)
    requires action !in ClipSlotActions || "scene_index" !in KeySet(members)
    ensures Kwargs(action, members) == ToMap(members) - {"action"}
  {
    var d := Items(members);
    ItemsAreDict(members);
    ToMapWithoutAction(d);
    WithoutActionKeys(d);
    var w := WithoutAction(d);
    forall i | 0 <= i < |w| ensures AliasOf(action, w[i].key) == w[i].key {
      assert w[i].key in KeySet(w);
      AliasRenamesOnlySceneIndex(action, w[i].key);
    }
    ToMapRenamedIdentity(action, w);
  }

  /** For a clip-slot action, a legacy `scene_index` reaches the handler as `clip_index`. */
  lemma KwargsAliasSceneIndex(action: string, members: seq<Member>)
    requires action in ClipSlotActions
    requires "clip_index" !in KeySet(members)
    ensures Kwargs(action, members) == Rekeyed(ToMap(members) - {"action"})
  {
    var d := Items(members);
    ItemsAreDict(members);
    ToMapWithoutAction(d);
    WithoutActionKeys(d);
    ToMapRenamedClipSlot(action, WithoutAction(d));
  }

  lemma LegacySpellingKwargs(a: Member, t: Member, s: Member)
    requires a.key == "action" && t.key == "track_index" && s.key == "scene_index"
    ensures Kwargs("delete_clip", [a, t, s]) == map["track_index" := t.value, "clip_index" := s.value]
  {
    var m := map["track_index" := t.value, "scene_index" := s.value];
    assert ToMap([a, t, s]) - {"action"} == m && "clip_index" !in KeySet([a, t, s]) by {
      ToMapOfThree(a, t, s);
      ToMapKeys([a, t, s]);
    }
    assert Rekeyed(m) == map["track_index" := t.value, "clip_index" := s.value];
    KwargsAliasSceneIndex("delete_clip", [a, t, s]);
  }

  lemma CanonicalSpellingKwargs(a: Member, t: Member, c: Member)
    requires a.key == "action" && t.key == "track_index" && c.key == "clip_index"
    ensures Kwargs("delete_clip", [a, t, c]) == map["track_index" := t.value, "clip_index" := c.value]
  {
    assert ToMap([a, t, c]) - {"action"} == map["track_index" := t.value, "clip_index" := c.value]
        && "scene_index" !in KeySet([a, t, c]) by {
      ToMapOfThree(a, t, c);
      ToMapKeys([a, t, c]);
    }
    KwargsPassThrough("delete_clip", [a, t, c]);
  }

  /** The two spellings of a `delete_clip` request reach the handler identically, whatever the values. */
  lemma DeleteClipLegacySpelling(track: Value, index: Value)
    ensures Kwargs("delete_clip", [Member("action", Str("delete_clip")), Member("track_index", track), Member("scene_index", index)])
         == Kwargs("delete_clip", [Member("action", Str("delete_clip")), Member("track_index", track), Member("clip_index", index)])
  {
    var a, t := Member("action", Str("delete_clip")), Member("track_index", track);
    LegacySpellingKwargs(a, t, Member("scene_index", index));
    CanonicalSpellingKwargs(a, t, Member("clip_index", index));
  }

  /** The value of the last member spelled `clip_index` or `scene_index`, if any. */
  function LastSpelling(members: seq<Member>): Option<Value>
  {
    if members == [] then None
    else
      var last := members[|members| - 1];
      if last.key == "clip_index" || last.key == "scene_index" then Some(last.value)
      else LastSpelling(members[..|members| - 1])
  }

  /** A dict with both spellings gone and `clip_index` bound to `v`, when there is one. */
  function Spelled(m: map<string, Value>, v: Option<Value>): map<string, Value>
  {
    var rest := m - {"clip_index", "scene_index"};
    if v.Some? then rest["clip_index" := v.value] else rest
  }

  lemma LastSpellingSnoc(init: seq<Member>, last: Member)
    ensures LastSpelling(init + [last]) ==
      if last.key == "clip_index" || last.key == "scene_index" then Some(last.value) else LastSpelling(init)
  {
    assert (init + [last])[..|init|] == init;
  }

  lemma ToMapRenamedSpellingsStep(action: string, init: seq<Member>, last: Member)
    requires action in ClipSlotActions
    requires ToMap(Renamed(action, init)) == Spelled(ToMap(init), LastSpelling(init))
    ensures ToMap(Renamed(action, init + [last])) == Spelled(ToMap(init + [last]), LastSpelling(init + [last]))
  {
    AliasRenamesOnlySceneIndex(action, last.key);
    var renamed := Member(AliasOf(action, last.key), last.value);
    RenamedSnoc(action, init, last);
    ToMapSnoc(Renamed(action, init), renamed);
    ToMapSnoc(init, last);
    LastSpellingSnoc(init, last);
  }

  /**
   * For a clip-slot action, renaming leaves every key but the two spellings
   * alone and binds `clip_index` to whichever spelling was assigned last.
   */
  lemma {:induction false} ToMapRenamedSpellings(action: string, members: seq<Member>)
    requires action in ClipSlotActions
    ensures ToMap(Renamed(action, members)) == Spelled(ToMap(members), LastSpelling(members))
  {
    if members != [] {
      var init, last := members[..|members| - 1], members[|members| - 1];
      assert members == init + [last];
      ToMapRenamedSpellings(action, init);
      ToMapRenamedSpellingsStep(action, init, last);
    }
  }

  lemma {:induction false} LastSpellingWithoutAction(members: seq<Member>)
    ensures LastSpelling(WithoutAction(members)) == LastSpelling(members)
  {
    if members != [] {
      var init, last := members[..|members| - 1], members[|members| - 1];
      assert members == init + [last];
      LastSpellingWithoutAction(init);
      WithoutActionSnoc(init, last);
      LastSpellingSnoc(init, last);
      var w := WithoutAction(init);
      if last.key != "action" {
        LastSpellingSnoc(w, last);
      } else {
        assert w + [] == w;
      }
    }
  }

  lemma {:induction false} LastSpellingAt(members: seq<Member>, p: nat)
    requires p < |members| && (members[p].key == "clip_index" || members[p].key == "scene_index")
    requires forall q :: p < q < |members| ==> members[q].key != "clip_index" && members[q].key != "scene_index"
    ensures LastSpelling(members) == Some(members[p].value)
  {
    if p < |members| - 1 {
      var init := members[..|members| - 1];
      assert init[p] == members[p];
      LastSpellingAt(init, p);
    }
  }

  /** In a dict holding both spellings, the last one assigned is the one placed later. */
  lemma DictLastSpelling(d: seq<Member>, i: nat, j: nat)
    requires DistinctKeys(d) && i < |d| && j < |d| && d[i].key == "clip_index" && d[j].key == "scene_index"
    ensures LastSpelling(d) == Some(d[if i < j then j else i].value)
  {
    LastSpellingAt(d, if i < j then j else i);
  }

  lemma SpelledWithoutAction(m: map<string, Value>, v: Value)
    ensures Spelled(m - {"action"}, Some(v)) == (m - {"action", "scene_index"})["clip_index" := v]
  {
  }

  /**
   * When a clip-slot request carries both spellings, `clip_index` gets the
   * value of the spelling that comes later in the decoded dict, which is the
   * one whose key first appears later in the object's text; `scene_index`
   * itself never reaches the handler.
   */
  lemma BothSpellingsLaterWins(action: string, members: seq<Member>)
    requires action in ClipSlotActions
    requires "clip_index" in ToMap(members) && "scene_index" in ToMap(members)
    ensures Kwargs(action, members) == (ToMap(members) - {"action", "scene_index"})["clip_index" :=
      if FirstAt(members, "clip_index") < FirstAt(members, "scene_index") then ToMap(members)["scene_index"]
      else ToMap(members)["clip_index"]]
  {
    var d := Items(members);
    ItemsAreDict(members);
    ToMapKeys(members);
    assert "clip_index" in KeySet(d) && "scene_index" in KeySet(d);
    var i :| 0 <= i < |d| && d[i].key == "clip_index";
    var j :| 0 <= j < |d| && d[j].key == "scene_index";
    ToMapLastWins(d, i);
    ToMapLastWins(d, j);
    ItemsInFirstOrder(members);
    assert i < j <==> FirstAt(members, "clip_index") < FirstAt(members, "scene_index") by {
      if i < j {
        assert FirstAt(members, d[i].key) < FirstAt(members, d[j].key);
      } else {
        assert FirstAt(members, d[j].key) < FirstAt(members, d[i].key);
      }
    }
    DictLastSpelling(d, i, j);
    var w := WithoutAction(d);
    ToMapWithoutAction(d);
    LastSpellingWithoutAction(d);
    ToMapRenamedSpellings(action, w);
    SpelledWithoutAction(ToMap(members), d[if i < j then j else i].value);
  }

  /**
   * A repeated key keeps the place where it first appears: in
   * `{"action": "delete_clip", "clip_index": 1, "scene_index": 2, "clip_index": 3}`,
   * or any values in those places, the dict holds `clip_index` before
   * `scene_index`, so the legacy value wins over both `clip_index` values.
   */
  lemma RepeatedKeyKeepsFirstPlace(v1: Value, v2: Value, v3: Value)
    ensures Kwargs("delete_clip", [Member("action", Str("delete_clip")), Member("clip_index", v1),
                                   Member("scene_index", v2), Member("clip_index", v3)])
         == map["clip_index" := v2]
  {
    var a, c1, s, c3 := Member("action", Str("delete_clip")), Member("clip_index", v1), Member("scene_index", v2), Member("clip_index", v3);
    var ms := [a, c1, s, c3];
    assert ToMap(ms) == map["action" := Str("delete_clip"), "clip_index" := v3, "scene_index" := v2] by {
      ToMapOfFour(a, c1, s, c3);
    }
    assert FirstAt(ms, "clip_index") == 1 && FirstAt(ms, "scene_index") == 2 by {
      assert FirstFrom(ms, "clip_index", 0) == FirstFrom(ms, "clip_index", 1) == 1;
      assert FirstFrom(ms, "scene_index", 0) == FirstFrom(ms, "scene_index", 1) == FirstFrom(ms, "scene_index", 2) == 2;
    }
    BothSpellingsLaterWins("delete_clip", ms);
  }

  // ---------------------------------------------------------------------------
  // Shared state and the tick drain
  // ---------------------------------------------------------------------------

  /** One entry of `command_queue`: `(request_id, command)`. */
  datatype Queued = Queued(id: nat, command: Value)

  /** The relay's shared state: command queue, response registry, id counter, running flag. */
  datatype Core = Core(queue: seq<Queued>, registry: map<nat, seq<Value>>, counter: nat, running: bool)

  /**
   * No id is queued twice. Each id is allocated once under `request_lock` and
   * put once, but the put happens outside the lock, so two connections can
   * put their commands in either order: ids are distinct, not sorted.
   */
  ghost predicate DistinctIds(queue: seq<Queued>)
  {
    forall i, j :: 0 <= i < j < |queue| ==> queue[i].id != queue[j].id
  }

  /** The invariant the script keeps: registry and queue ids were all allocated, and queue ids are pairwise distinct. */
  ghost predicate CoreValid(c: Core)
  {
    && (forall id :: id in c.registry ==> id < c.counter)
    && (forall i :: 0 <= i < |c.queue| ==> c.queue[i].id < c.counter)
    && DistinctIds(c.queue)
  }

  /** Registry after delivering `response` to `id`: appended if the slot exists, dropped otherwise. */
  function Deliver(registry: map<nat, seq<Value>>, id: nat, response: Value): (r: map<nat, seq<Value>>)
  {
    if id in registry then registry[id := registry[id] + [response]] else registry
  }

  /** Pop the front command, process it and deliver its result. */
  function Step(c: Core, respond: (Value, nat) -> Value): Core
    requires c.queue != []
  {
    var item := c.queue[0];
    c.(queue := c.queue[1..], registry := Deliver(c.registry, item.id, respond(item.command, |c.queue| - 1)))
  }

  /**
   * The drain loop from the point where `done` commands of this tick have run
   * and `budget` remain. `fault == Some(k)` is an unexpected error while
   * handling the k-th item of the tick (the item is already popped and its
   * result is lost): the loop breaks.
   */
  function Drain(c: Core, budget: nat, done: nat, fault: Option<nat>, respond: (Value, nat) -> Value): Core
    decreases budget
  {
    if budget == 0 || c.queue == [] then c
    else if fault == Some(done) then c.(queue := c.queue[1..])
    else Drain(Step(c, respond), budget - 1, done + 1, fault, respond)
  }

  lemma DrainAfterStep(c: Core, budget: nat, done: nat, fault: Option<nat>, respond: (Value, nat) -> Value)
    requires budget > 0 && c.queue != [] && fault != Some(done)
    ensures Drain(c, budget, done, fault, respond) == Drain(Step(c, respond), budget - 1, done + 1, fault, respond)
  {
  }

  lemma DrainFaultStep(c: Core, budget: nat, done: nat, fault: Option<nat>, respond: (Value, nat) -> Value)
    requires budget > 0 && c.queue != [] && fault == Some(done)
    ensures Drain(c, budget, done, fault, respond) == c.(queue := c.queue[1..])
  {
  }

  lemma DrainStops(c: Core, budget: nat, done: nat, fault: Option<nat>, respond: (Value, nat) -> Value)
    requires budget == 0 || c.queue == []
    ensures Drain(c, budget, done, fault, respond) == c
  {
  }

  /** The processor as the drain calls it: a command and the queue size after popping it. */
  function Responder(tools: Tools, host: Host): (Value, nat) -> Value
  {
    (command: Value, queueSize: nat) => Process(command, tools, host, queueSize)
  }

  /** One call of `update_display`. */
  function Tick(c: Core, fault: Option<nat>, respond: (Value, nat) -> Value): Core
  {
    Drain(c, MaxCommandsPerTick, 0, fault, respond)
  }

  function Min(a: nat, b: nat): nat { if a <= b then a else b }

  /** The result `update_display` computes for the item at position `j` of the queue it started from. */
  function ResponseAt(queue: seq<Queued>, j: nat, respond: (Value, nat) -> Value): Value
    requires j < |queue|
  {
    respond(queue[j].command, |queue| - 1 - j)
  }

  /** The drain's j-th result is the processor's answer to that command, given the queue size behind it. */
  lemma ResponseAtIsProcess(queue: seq<Queued>, j: nat, tools: Tools, host: Host)
    requires j < |queue|
    ensures ResponseAt(queue, j, Responder(tools, host)) == Process(queue[j].command, tools, host, |queue| - 1 - j)
  {
  }

  /** No fault occurs among the first `n` items handled from position `done` on. */
  predicate NoFaultWithin(fault: Option<nat>, done: nat, n: nat)
  {
    fault.None? || fault.value < done || fault.value >= done + n
  }

  lemma {:induction false} DrainShape(c: Core, budget: nat, done: nat, fault: Option<nat>, respond: (Value, nat) -> Value)
    requires NoFaultWithin(fault, done, Min(budget, |c.queue|))
    ensures var d := Drain(c, budget, done, fault, respond);
      && d.queue == c.queue[Min(budget, |c.queue|)..]
      && d.registry.Keys == c.registry.Keys
      && d.counter == c.counter && d.running == c.running
    decreases budget
  {
    if budget == 0 || c.queue == [] {
      DrainStops(c, budget, done, fault, respond);
    } else {
      DrainAfterStep(c, budget, done, fault, respond);
      var c1 := Step(c, respond);
      DrainShape(c1, budget - 1, done + 1, fault, respond);
      assert c.queue[Min(budget, |c.queue|)..] == c1.queue[Min(budget - 1, |c1.queue|)..];
    }
  }

  /** A slot none of the first `min(budget, n)` items addresses is left alone. */
  lemma {:induction false} DrainLeaves(c: Core, budget: nat, done: nat, fault: Option<nat>, respond: (Value, nat) -> Value, id: nat)
    requires id in c.registry
    requires forall j :: 0 <= j < Min(budget, |c.queue|) ==> c.queue[j].id != id
    ensures var d := Drain(c, budget, done, fault, respond);
      id in d.registry && d.registry[id] == c.registry[id]
    decreases budget
  {
    if budget == 0 || c.queue == [] {
      DrainStops(c, budget, done, fault, respond);
    } else if fault == Some(done) {
      DrainFaultStep(c, budget, done, fault, respond);
    } else {
      DrainAfterStep(c, budget, done, fault, respond);
      var c1 := Step(c, respond);
      assert c.queue[0].id != id;
      forall j | 0 <= j < Min(budget - 1, |c1.queue|) ensures c1.queue[j].id != id {
        assert c1.queue[j] == c.queue[j + 1];
      }
      DrainLeaves(c1, budget - 1, done + 1, fault, respond, id);
    }
  }

  /** The tail of a queue with distinct ids has distinct ids, none of them the head's. */
  lemma DistinctTail(queue: seq<Queued>)
    requires DistinctIds(queue) && queue != []
    ensures DistinctIds(queue[1..])
    ensures forall i :: 0 <= i < |queue| - 1 ==> queue[1..][i].id != queue[0].id
  {
    forall i | 0 <= i < |queue| - 1 ensures queue[1..][i].id != queue[0].id {
      assert queue[1..][i] == queue[i + 1];
    }
  }

  /** The first popped item's result lands in its slot and stays there. */
  lemma DrainDeliversHead(c: Core, budget: nat, done: nat, fault: Option<nat>, respond: (Value, nat) -> Value)
    requires DistinctIds(c.queue) && budget > 0 && c.queue != [] && fault != Some(done)
    requires c.queue[0].id in c.registry
    ensures var d := Drain(c, budget, done, fault, respond); var id := c.queue[0].id;
      id in d.registry && d.registry[id] == c.registry[id] + [ResponseAt(c.queue, 0, respond)]
  {
    DrainAfterStep(c, budget, done, fault, respond);
    var c1 := Step(c, respond);
    DistinctTail(c.queue);
    DrainLeaves(c1, budget - 1, done + 1, fault, respond, c.queue[0].id);
  }

  /** The j-th popped item's result is appended to its slot. */
  lemma {:induction false} DrainDelivers(c: Core, budget: nat, done: nat, fault: Option<nat>, respond: (Value, nat) -> Value, j: nat)
    requires DistinctIds(c.queue)
    requires NoFaultWithin(fault, done, Min(budget, |c.queue|))
    requires j < Min(budget, |c.queue|) && c.queue[j].id in c.registry
    ensures var d := Drain(c, budget, done, fault, respond); var id := c.queue[j].id;
      id in d.registry && d.registry[id] == c.registry[id] + [ResponseAt(c.queue, j, respond)]
    decreases budget
  {
    if j == 0 {
      DrainDeliversHead(c, budget, done, fault, respond);
    } else {
      DrainAfterStep(c, budget, done, fault, respond);
      var c1 := Step(c, respond);
      DistinctTail(c.queue);
      assert c1.queue[j - 1] == c.queue[j];
      assert ResponseAt(c1.queue, j - 1, respond) == ResponseAt(c.queue, j, respond);
      DrainDelivers(c1, budget - 1, done + 1, fault, respond, j - 1);
    }
  }

  lemma DrainEffect(c: Core, budget: nat, done: nat, fault: Option<nat>, respond: (Value, nat) -> Value)
    requires DistinctIds(c.queue)
    requires NoFaultWithin(fault, done, Min(budget, |c.queue|))
    ensures var n := Min(budget, |c.queue|); var d := Drain(c, budget, done, fault, respond);
      && d.queue == c.queue[n..]
      && d.registry.Keys == c.registry.Keys
      && d.counter == c.counter && d.running == c.running
      && (forall j :: 0 <= j < n && c.queue[j].id in c.registry ==>
            d.registry[c.queue[j].id] == c.registry[c.queue[j].id] + [ResponseAt(c.queue, j, respond)])
      && (forall id :: id in c.registry && (forall j :: 0 <= j < n ==> c.queue[j].id != id) ==>
            d.registry[id] == c.registry[id])
  {
    var n := Min(budget, |c.queue|);
    DrainShape(c, budget, done, fault, respond);
    forall j | 0 <= j < n && c.queue[j].id in c.registry
      ensures Drain(c, budget, done, fault, respond).registry[c.queue[j].id] == c.registry[c.queue[j].id] + [ResponseAt(c.queue, j, respond)]
    {
      DrainDelivers(c, budget, done, fault, respond, j);
    }
    forall id | id in c.registry && (forall j :: 0 <= j < n ==> c.queue[j].id != id)
      ensures Drain(c, budget, done, fault, respond).registry[id] == c.registry[id]
    {
      DrainLeaves(c, budget, done, fault, respond, id);
    }
  }

  /**
   * One tick pops `min(n, 5)` commands from the front, keeps the registry's
   * keys, appends each popped command's result to its slot when the slot
   * exists (dropping it otherwise), and leaves every other slot alone.
   */
  lemma TickEffect(c: Core, respond: (Value, nat) -> Value)
    requires DistinctIds(c.queue)
    ensures var n := Min(MaxCommandsPerTick, |c.queue|); var t := Tick(c, None, respond);
      && t.queue == c.queue[n..]
      && t.registry.Keys == c.registry.Keys
      && t.counter == c.counter && t.running == c.running
      && (forall j :: 0 <= j < n && c.queue[j].id in c.registry ==>
            t.registry[c.queue[j].id] == c.registry[c.queue[j].id] + [ResponseAt(c.queue, j, respond)])
      && (forall id :: id in c.registry && (forall j :: 0 <= j < n ==> c.queue[j].id != id) ==>
            t.registry[id] == c.registry[id])
  {
    DrainEffect(c, MaxCommandsPerTick, 0, None, respond);
  }

  /** With six commands queued, one tick leaves exactly one. */
  lemma SixQueuedLeaveOne(c: Core, respond: (Value, nat) -> Value)
    requires |c.queue| == 6
    ensures Tick(c, None, respond).queue == [c.queue[5]]
  {
    DrainShape(c, MaxCommandsPerTick, 0, None, respond);
  }

  lemma {:induction false} DrainFaultQueue(c: Core, budget: nat, done: nat, k: nat, respond: (Value, nat) -> Value)
    requires done <= k < done + Min(budget, |c.queue|)
    ensures var d := Drain(c, budget, done, Some(k), respond);
      d.queue == c.queue[k - done + 1..] && d.registry.Keys == c.registry.Keys
    decreases budget
  {
    if k == done {
      DrainFaultStep(c, budget, done, Some(k), respond);
    } else {
      DrainAfterStep(c, budget, done, Some(k), respond);
      var c1 := Step(c, respond);
      DrainFaultQueue(c1, budget - 1, done + 1, k, respond);
      assert c.queue[k - done + 1..] == c1.queue[k - (done + 1) + 1..];
    }
  }

  lemma {:induction false} DrainFaultSlot(c: Core, budget: nat, done: nat, k: nat, respond: (Value, nat) -> Value)
    requires DistinctIds(c.queue)
    requires done <= k < done + Min(budget, |c.queue|)
    requires c.queue[k - done].id in c.registry
    ensures var d := Drain(c, budget, done, Some(k), respond); var id := c.queue[k - done].id;
      id in d.registry && d.registry[id] == c.registry[id]
    decreases budget
  {
    if k == done {
      DrainFaultStep(c, budget, done, Some(k), respond);
    } else {
      DrainAfterStep(c, budget, done, Some(k), respond);
      var c1 := Step(c, respond);
      DistinctTail(c.queue);
      assert c1.queue[k - (done + 1)] == c.queue[k - done];
      DrainFaultSlot(c1, budget - 1, done + 1, k, respond);
    }
  }

  /**
   * An unexpected error on the k-th item of a tick ends the tick: that item
   * is gone from the queue without a delivery, and everything behind it stays
   * queued for the next tick.
   */
  lemma TickBreaksOnFault(c: Core, k: nat, respond: (Value, nat) -> Value)
    requires DistinctIds(c.queue)
    requires k < Min(MaxCommandsPerTick, |c.queue|)
    ensures var t := Tick(c, Some(k), respond);
      && t.queue == c.queue[k + 1..]
      && t.registry.Keys == c.registry.Keys
      && (c.queue[k].id in c.registry ==> t.registry[c.queue[k].id] == c.registry[c.queue[k].id])
  {
    DrainFaultQueue(c, MaxCommandsPerTick, 0, k, respond);
    if c.queue[k].id in c.registry {
      DrainFaultSlot(c, MaxCommandsPerTick, 0, k, respond);
    }
  }

  lemma {:induction false} DrainKeepsValid(c: Core, budget: nat, done: nat, fault: Option<nat>, respond: (Value, nat) -> Value)
    requires CoreValid(c)
    ensures var d := Drain(c, budget, done, fault, respond);
      CoreValid(d) && d.counter == c.counter && d.running == c.running && d.registry.Keys == c.registry.Keys
    decreases budget
  {
    if budget == 0 || c.queue == [] {
      DrainStops(c, budget, done, fault, respond);
    } else if fault == Some(done) {
      DrainFaultStep(c, budget, done, fault, respond);
      DistinctTail(c.queue);
    } else {
      DrainAfterStep(c, budget, done, fault, respond);
      DistinctTail(c.queue);
      DrainKeepsValid(Step(c, respond), budget - 1, done + 1, fault, respond);
    }
  }

  // ---------------------------------------------------------------------------
  // The script object
  // ---------------------------------------------------------------------------

  /**
   * The remote script: `command_queue`, `response_queues` (id -> the items
   * put into that id's queue), `request_counter` and `running`. The tools
   * object is fixed at construction.
   */
  class RemoteScript {
    const tools: Tools
    /** The Live application as the processor sees it. */
    const host: Host
    /** `self._process_command`, given a command and the queue size a health check reports. */
    const respond: (Value, nat) -> Value
    var commandQueue: seq<Queued>
    var responseQueues: map<nat, seq<Value>>
    var requestCounter: nat
    var running: bool

    function State(): Core
      reads this
    {
      Core(commandQueue, responseQueues, requestCounter, running)
    }

    ghost predicate Valid()
      reads this
    {
      CoreValid(State())
    }

    /** `__init__`: empty queue and registry, counter 0; `start_socket_server` sets `running` before it binds. */
    constructor (tools: Tools, host: Host)
      ensures Valid() && this.tools == tools && this.host == host
      ensures respond == Responder(tools, host)
      ensures State() == Core([], map[], 0, true)
    {
      this.tools := tools;
      this.host := host;
      respond := Responder(tools, host);
      commandQueue := [];
      responseQueues := map[];
      requestCounter := 0;
      running := true;
    }

    /**
     * `update_display`: one tick of the drain loop. `fault == Some(k)` is an
     * unexpected error while handling the k-th command of this tick. That
     * the tick keeps `Valid()` is `DrainKeepsValid`.
     */
    method UpdateDisplay(fault: Option<nat>)
      modifies this
      ensures State() == Tick(old(State()), fault, respond)
    {
      ghost var start := State();
      ghost var goal := Tick(start, fault, respond);
      var processed: nat := 0;
      while processed < MaxCommandsPerTick && commandQueue != []
        invariant processed <= MaxCommandsPerTick
        invariant goal == Drain(State(), MaxCommandsPerTick - processed, processed, fault, respond)
        decreases MaxCommandsPerTick - processed
      {
        ghost var before := State();
        var stop := HandleNext(fault == Some(processed));
        if stop {
          DrainFaultStep(before, MaxCommandsPerTick - processed, processed, fault, respond);
          break;
        }
        DrainAfterStep(before, MaxCommandsPerTick - processed, processed, fault, respond);
        processed := processed + 1;
      }
      if processed == MaxCommandsPerTick || commandQueue == [] {
        DrainStops(State(), MaxCommandsPerTick - processed, processed, fault, respond);
      }
    }

    /**
     * One pass of the drain loop's body: `get_nowait`, `_process_command`,
     * and the `put` into the request's response queue when that queue still
     * exists. `faulty` is an unexpected error raised in between, which loses
     * the popped command's result and stops the tick.
     */
    method HandleNext(faulty: bool) returns (stop: bool)
      requires commandQueue != []
      modifies this
      ensures stop == faulty
      ensures State() == if faulty then old(State()).(queue := old(commandQueue)[1..]) else Step(old(State()), respond)
    {
      var item := commandQueue[0];
      commandQueue := commandQueue[1..];
      var response := respond(item.command, |commandQueue|);
      if faulty {
        return true;
      }
      if item.id in responseQueues {
        responseQueues := responseQueues[item.id := responseQueues[item.id] + [response]];
      }
      return false;
    }

    /** `disconnect`: clears `running`; closing the server socket (and any error it raises) is not modelled. */
    method Disconnect()
      modifies this
      ensures State() == old(State()).(running := false)
    {
      running := false;
    }
  }
}
