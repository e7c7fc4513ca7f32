/**
 * The socket-thread half of the relay (ClaudeMCP_Remote/socket_server.py):
 * the per-connection line protocol of `_handle_client` and the accept loop
 * of `_socket_listener`. The methods take the script object, the `self` of
 * the mixin, and change its shared fields as the source does; JSON parsing
 * and the blocking wait for a response are oracles passed in.
 */
module Session {
  import opened Base
  import opened Json
  import opened Relay

  // ---------------------------------------------------------------------------
  // str.strip
  // ---------------------------------------------------------------------------

  /** The characters Python's `str.isspace` accepts, which `str.strip()` removes. */
  predicate IsSpace(ch: char)
  {
    || ch == ' ' || ('\t' <= ch <= '\r') || ('\U{001C}' <= ch <= '\U{001F}')
    || ch == '\U{0085}' || ch == '\U{00A0}' || ch == '\U{1680}' || ('\U{2000}' <= ch <= '\U{200A}')
    || ch == '\U{2028}' || ch == '\U{2029}' || ch == '\U{202F}' || ch == '\U{205F}' || ch == '\U{3000}'
  }

  predicate AllSpace(s: string)
  {
    forall i :: 0 <= i < |s| ==> IsSpace(s[i])
  }

  /** `s.lstrip()`: drops the leading whitespace, keeping a suffix of `s`. */
  function TrimStart(s: string): (r: string)
    ensures |r| <= |s| && r == s[|s| - |r|..]
    ensures r == [] || !IsSpace(r[0])
    ensures AllSpace(s[..|s| - |r|])
  {
    if s != [] && IsSpace(s[0]) then
      var r := TrimStart(s[1..]);
      assert s[1..][..|s| - 1 - |r|] == s[1..|s| - |r|];
      assert forall i :: 0 < i < |s| - |r| ==> s[i] == s[1..|s| - |r|][i - 1];
      r
    else
      assert s[..0] == [] && s[0..] == s;
      s
  }

  /** `s.rstrip()`: drops the trailing whitespace, keeping a prefix of `s`. */
  function TrimEnd(s: string): (r: string)
    ensures |r| <= |s| && r == s[..|r|]
    ensures r == [] || !IsSpace(r[|r| - 1])
    ensures AllSpace(s[|r|..])
  {
    if s != [] && IsSpace(s[|s| - 1]) then
      var r := TrimEnd(s[..|s| - 1]);
      assert s[..|s| - 1][..|r|] == s[..|r|];
      assert forall i :: |r| <= i < |s| - 1 ==> s[i] == s[..|s| - 1][|r|..][i - |r|];
      r
    else
      assert s[..|s|] == s && s[|s|..] == [];
      s
  }

  /** `s.strip()`. */
  function Strip(s: string): string
  {
    TrimEnd(TrimStart(s))
  }

  /** A line is skipped exactly when it is all whitespace. */
  lemma StripEmptyIff(s: string)
    ensures Strip(s) == "" <==> AllSpace(s)
  {
  }

  // ---------------------------------------------------------------------------
  // Framing
  // ---------------------------------------------------------------------------

  /** The position of the first newline, where `buffer.split("\n", 1)` cuts. */
  function FirstNewline(s: string): (k: nat)
    requires '\n' in s
    ensures k < |s| && s[k] == '\n' && '\n' !in s[..k]
  {
    if s[0] == '\n' then 0
    else
      var k := FirstNewline(s[1..]);
      assert s[..k + 1] == [s[0]] + s[1..][..k];
      k + 1
  }

  /** The complete lines of a buffer, in order, and the partial line left over. */
  function Lines(buffer: string): (string, seq<string>)
    decreases |buffer|
  {
    if '\n' !in buffer then (buffer, [])
    else
      var k := FirstNewline(buffer);
      var (rest, lines) := Lines(buffer[k + 1..]);
      (rest, [buffer[..k]] + lines)
  }

  /** Each line followed by a newline. */
  function Joined(lines: seq<string>): string
  {
    if lines == [] then "" else lines[0] + "\n" + Joined(lines[1..])
  }

  /**
   * Framing loses nothing and invents nothing: the lines, each with its
   * newline, then the remainder give back the buffer.
   */
  lemma {:induction false} FramingRoundTrip(buffer: string)
    ensures Joined(Lines(buffer).1) + Lines(buffer).0 == buffer
    decreases |buffer|
  {
    if '\n' in buffer {
      var k := FirstNewline(buffer);
      var tail := buffer[k + 1..];
      FramingRoundTrip(tail);
      var head := buffer[..k];
      LinesUnfold(buffer);
      JoinedCons(head, Lines(tail).1);
      ConcatAround(head, Joined(Lines(tail).1), Lines(tail).0, tail);
      SplitAtNewline(buffer, k);
    }
  }

  lemma SplitAtNewline(buffer: string, k: nat)
    requires k < |buffer| && buffer[k] == '\n'
    ensures buffer == buffer[..k] + "\n" + buffer[k + 1..]
  {
    assert buffer == buffer[..k] + buffer[k..];
    assert buffer[k..] == "\n" + buffer[k + 1..];
  }

  lemma LinesUnfold(buffer: string)
    requires '\n' in buffer
    ensures var k := FirstNewline(buffer);
      Lines(buffer) == (Lines(buffer[k + 1..]).0, [buffer[..k]] + Lines(buffer[k + 1..]).1)
  {
  }

  lemma JoinedCons(line: string, lines: seq<string>)
    ensures Joined([line] + lines) == line + "\n" + Joined(lines)
  {
    assert ([line] + lines)[1..] == lines;
  }

  lemma ConcatAround(head: string, middle: string, rest: string, tail: string)
    requires middle + rest == tail
    ensures head + "\n" + middle + rest == head + "\n" + tail
  {
  }

  /** No framed line and not the remainder contains a newline. */
  lemma {:induction false} FramesHaveNoNewline(buffer: string)
    ensures '\n' !in Lines(buffer).0
    ensures forall i :: 0 <= i < |Lines(buffer).1| ==> '\n' !in Lines(buffer).1[i]
    decreases |buffer|
  {
    if '\n' in buffer {
      var k := FirstNewline(buffer);
      var tail := buffer[k + 1..];
      FramesHaveNoNewline(tail);
      var lines := Lines(tail).1;
      var all := [buffer[..k]] + lines;
      assert Lines(buffer) == (Lines(tail).0, all);
      forall i | 0 <= i < |all| ensures '\n' !in all[i] {
        if i > 0 {
          assert all[i] == lines[i - 1];
        }
      }
    }
  }

  // ---------------------------------------------------------------------------
  // One line
  // ---------------------------------------------------------------------------

  /** What `json.loads` makes of a message: a command, or the text of the error it raised. */
  datatype Parsed = Parsed(command: Value) | Malformed(message: string)

  const TimeoutMessage: string := "Command processing timeout - main thread may be busy"

  /** `del self.response_queues[request_id]` guarded by `in`. */
  function RemoveSlot(registry: map<nat, seq<Value>>, id: nat): (r: map<nat, seq<Value>>)
  {
    if id in registry then registry - {id} else registry
  }

  /** Removing a slot twice is removing it once. */
  lemma RemoveSlotIdempotent(registry: map<nat, seq<Value>>, id: nat)
    ensures RemoveSlot(RemoveSlot(registry, id), id) == RemoveSlot(registry, id)
    ensures id !in RemoveSlot(registry, id)
    ensures forall other :: other != id ==> (other in RemoveSlot(registry, id) <==> other in registry)
  {
  }

  /**
   * A non-blank message: take the next id, open its slot, then either enqueue
   * the command and answer with what the wait yields (removing the slot), or
   * answer with the parse error (leaving the slot behind).
   */
  function Submit(c: Core, message: string, parse: string -> Parsed, wait: nat -> Option<Value>): (Core, Value)
  {
    var id := c.counter;
    var withSlot := c.(counter := id + 1, registry := c.registry[id := []]);
    match parse(message)
    case Malformed(e) => (withSlot, ErrorReply(e))
    case Parsed(command) =>
      var response := match wait(id) case Some(v) => v case None => ErrorReply(TimeoutMessage);
      (withSlot.(queue := c.queue + [Queued(id, command)], registry := RemoveSlot(withSlot.registry, id)), response)
  }

  /** One line of the buffer: blank lines are skipped; others yield exactly one reply. */
  function HandleLine(c: Core, line: string, parse: string -> Parsed, wait: nat -> Option<Value>): (Core, Option<Value>)
  {
    var message := Strip(line);
    if message == "" then (c, None)
    else
      var (c', reply) := Submit(c, message, parse, wait);
      (c', Some(reply))
  }

  /** A blank line allocates no id, sends nothing and touches no queue. */
  lemma BlankLineIgnored(c: Core, line: string, parse: string -> Parsed, wait: nat -> Option<Value>)
    requires AllSpace(line)
    ensures HandleLine(c, line, parse, wait) == (c, None)
  {
    StripEmptyIff(line);
  }

  /** A fresh id never names a live slot, and differs from every queued id. */
  lemma FreshId(c: Core)
    requires CoreValid(c)
    ensures c.counter !in c.registry
    ensures forall i :: 0 <= i < |c.queue| ==> c.queue[i].id < c.counter
  {
  }

  /**
   * A malformed message consumes an id and leaves an empty slot behind,
   * enqueues nothing, and answers `{ok: false, error}` with the parser's text.
   */
  lemma MalformedLeaksSlot(c: Core, message: string, parse: string -> Parsed, wait: nat -> Option<Value>)
    requires parse(message).Malformed?
    ensures var (c', reply) := Submit(c, message, parse, wait);
      && c'.counter == c.counter + 1
      && c'.queue == c.queue
      && c'.registry == c.registry[c.counter := []]
      && c'.running == c.running
      && Get(reply, "ok") == Some(Bool(false)) && Get(reply, "error") == Some(Str(parse(message).message))
  {
  }

  /**
   * A parsed command is appended to the queue under a fresh id; the slot
   * opened for it is removed after the wait, so the registry ends as it was.
   * The reply is what the wait yielded, or the timeout error.
   */
  lemma ParsedIsEnqueued(c: Core, message: string, parse: string -> Parsed, wait: nat -> Option<Value>)
    requires c.counter !in c.registry && parse(message).Parsed?
    ensures var (c', reply) := Submit(c, message, parse, wait);
      && c'.counter == c.counter + 1
      && c'.queue == c.queue + [Queued(c.counter, parse(message).command)]
      && c'.registry == c.registry
      && c'.running == c.running
      && (wait(c.counter).Some? ==> reply == wait(c.counter).value)
      && (wait(c.counter).None? ==> Get(reply, "ok") == Some(Bool(false)) && Get(reply, "error") == Some(Str(TimeoutMessage)))
  {
    assert c.registry[c.counter := []] - {c.counter} == c.registry;
  }

  lemma SubmitKeepsValid(c: Core, message: string, parse: string -> Parsed, wait: nat -> Option<Value>)
    requires CoreValid(c)
    ensures CoreValid(Submit(c, message, parse, wait).0)
  {
    FreshId(c);
    var c' := Submit(c, message, parse, wait).0;
    if parse(message).Parsed? {
      var q := c.queue + [Queued(c.counter, parse(message).command)];
      forall i, j | 0 <= i < j < |q| ensures q[i].id != q[j].id {
        if j == |c.queue| {
          assert q[i] == c.queue[i];
        } else {
          assert q[i] == c.queue[i] && q[j] == c.queue[j];
        }
      }
    }
  }

  /**
   * Two connections allocate ids `n` and `n + 1` under the lock, then put
   * their commands outside it in the opposite order: the queue holds `n + 1`
   * before `n`, and the invariant still holds.
   */
  lemma InterleavedPutsStayValid(c: Core, first: Value, second: Value)
    requires CoreValid(c)
    ensures var n := c.counter;
      CoreValid(c.(queue := c.queue + [Queued(n + 1, second), Queued(n, first)],
                   registry := c.registry[n := []][n + 1 := []],
                   counter := n + 2))
  {
    var n := c.counter;
    var q := c.queue + [Queued(n + 1, second), Queued(n, first)];
    forall i, j | 0 <= i < j < |q| ensures q[i].id != q[j].id {
      if j < |c.queue| {
        assert q[i] == c.queue[i] && q[j] == c.queue[j];
      } else if i < |c.queue| {
        assert q[i] == c.queue[i];
      }
    }
  }

  // ---------------------------------------------------------------------------
  // All complete lines of a buffer
  // ---------------------------------------------------------------------------

  /** What handling one line does to the script, and the reply it sends if any. */
  type LineHandler = (Core, string) -> (Core, Option<Value>)

  /** The handler `_handle_client` applies to each line, given the parser and the wait. */
  function Handler(parse: string -> Parsed, wait: nat -> Option<Value>): LineHandler
  {
    (c: Core, line: string) => HandleLine(c, line, parse, wait)
  }

  /**
   * One line, as far as the bookkeeping goes: a reply exactly when the line
   * is not blank, the counter advancing by one exactly then, every live slot
   * kept with its contents, the queue only growing, `running` untouched and
   * the script valid.
   */
  lemma LineEffect(c: Core, line: string, parse: string -> Parsed, wait: nat -> Option<Value>)
    requires CoreValid(c)
    ensures var (c', reply) := HandleLine(c, line, parse, wait);
      && (reply.Some? <==> !AllSpace(line))
      && c'.counter == c.counter + (if AllSpace(line) then 0 else 1)
      && c'.running == c.running
      && c.registry.Keys <= c'.registry.Keys
      && (forall id :: id in c.registry ==> c'.registry[id] == c.registry[id])
      && c.queue <= c'.queue
      && CoreValid(c')
  {
    StripEmptyIff(line);
    if AllSpace(line) {
      assert HandleLine(c, line, parse, wait) == (c, None);
    } else {
      SubmitEffect(c, Strip(line), parse, wait);
      var (c', reply) := Submit(c, Strip(line), parse, wait);
      assert HandleLine(c, line, parse, wait) == (c', Some(reply));
    }
  }

  /** `Submit` as far as the bookkeeping goes; see `LineEffect`. */
  lemma SubmitEffect(c: Core, message: string, parse: string -> Parsed, wait: nat -> Option<Value>)
    requires CoreValid(c)
    ensures var c' := Submit(c, message, parse, wait).0;
      && c'.counter == c.counter + 1
      && c'.running == c.running
      && c.registry.Keys <= c'.registry.Keys
      && (forall id :: id in c.registry ==> c'.registry[id] == c.registry[id])
      && c.queue <= c'.queue
      && CoreValid(c')
  {
    SubmitKeepsValid(c, message, parse, wait);
    FreshId(c);
    if parse(message).Parsed? {
      ParsedIsEnqueued(c, message, parse, wait);
    } else {
      MalformedLeaksSlot(c, message, parse, wait);
    }
  }

  /** No line changes `running`, valid script or not. */
  lemma LineKeepsRunning(c: Core, line: string, parse: string -> Parsed, wait: nat -> Option<Value>)
    ensures HandleLine(c, line, parse, wait).0.running == c.running
  {
  }

  /** The effect of a sequence of lines: final state and replies, in line order. */
  function HandleLines(c: Core, lines: seq<string>, handle: LineHandler): (Core, seq<Value>)
    decreases |lines|
  {
    if lines == [] then (c, [])
    else
      var (c1, reply) := handle(c, lines[0]);
      var (c2, replies) := HandleLines(c1, lines[1..], handle);
      (c2, Sent(reply) + replies)
  }

  /** The number of lines that are not all whitespace. */
  function CountNonBlank(lines: seq<string>): nat
  {
    if lines == [] then 0 else (if AllSpace(lines[0]) then 0 else 1) + CountNonBlank(lines[1..])
  }

  /**
   * Exactly one reply per non-blank line; the counter advances by the same
   * number; every live slot survives with its contents; the queue keeps its
   * old contents as a prefix; the script stays valid.
   */
  lemma {:induction false} HandleLinesEffect(c: Core, lines: seq<string>, parse: string -> Parsed, wait: nat -> Option<Value>)
    requires CoreValid(c)
    ensures var (c', replies) := HandleLines(c, lines, Handler(parse, wait));
      && |replies| == CountNonBlank(lines)
      && c'.counter == c.counter + CountNonBlank(lines)
      && c'.running == c.running
      && c.registry.Keys <= c'.registry.Keys
      && (forall id :: id in c.registry ==> c'.registry[id] == c.registry[id])
      && c.queue <= c'.queue
      && CoreValid(c')
    decreases |lines|
  {
    if lines != [] {
      var (c1, reply) := Handler(parse, wait)(c, lines[0]);
      assert Handler(parse, wait)(c, lines[0]) == HandleLine(c, lines[0], parse, wait);
      LineEffect(c, lines[0], parse, wait);
      HandleLinesEffect(c1, lines[1..], parse, wait);
    }
  }

  /**
   * The inner `while "\n" in buffer` loop from a given point: handle the
   * complete lines, keep the partial one, and append each reply to `sent`.
   */
  function Frame(c: Core, buffer: string, sent: seq<Value>, handle: LineHandler): (Core, string, seq<Value>)
    decreases |buffer|
  {
    if '\n' !in buffer then (c, buffer, sent)
    else
      var k := FirstNewline(buffer);
      var (c1, reply) := handle(c, buffer[..k]);
      Frame(c1, buffer[k + 1..], sent + Sent(reply), handle)
  }

  /** The line loop handles exactly the lines framing finds, and leaves the remainder. */
  lemma {:induction false} FrameIsLines(c: Core, buffer: string, sent: seq<Value>, handle: LineHandler)
    ensures var (rest, lines) := Lines(buffer); var (c', replies) := HandleLines(c, lines, handle);
      Frame(c, buffer, sent, handle) == (c', rest, sent + replies)
    decreases |buffer|
  {
    if '\n' in buffer {
      var k := FirstNewline(buffer);
      var c1 := handle(c, buffer[..k]).0;
      var out := Sent(handle(c, buffer[..k]).1);
      FrameIsLines(c1, buffer[k + 1..], sent + out, handle);
      LinesUnfold(buffer);
      HandleLinesCons(c, buffer[..k], Lines(buffer[k + 1..]).1, handle);
      AppendAssoc(sent, out, HandleLines(c1, Lines(buffer[k + 1..]).1, handle).1);
    } else {
      assert sent + [] == sent;
    }
  }

  /** The replies a handled line contributes. */
  function Sent(reply: Option<Value>): seq<Value>
  {
    if reply.Some? then [reply.value] else []
  }

  lemma HandleLinesCons(c: Core, line: string, lines: seq<string>, handle: LineHandler)
    ensures var (c1, reply) := handle(c, line);
      HandleLines(c, [line] + lines, handle) == (HandleLines(c1, lines, handle).0, Sent(reply) + HandleLines(c1, lines, handle).1)
  {
    assert ([line] + lines)[0] == line && ([line] + lines)[1..] == lines;
  }

  lemma AppendAssoc(a: seq<Value>, b: seq<Value>, c: seq<Value>)
    ensures a + b + c == a + (b + c)
  {
  }

  /** A newline-free line followed by a newline frames as that one line. */
  lemma {:induction false} LinesCons(line: string, rest: string)
    requires '\n' !in line
    ensures Lines(line + "\n" + rest) == (Lines(rest).0, [line] + Lines(rest).1)
  {
    var buffer := line + "\n" + rest;
    FirstNewlineAt(line, rest);
    assert buffer[..|line|] == line && buffer[|line| + 1..] == rest;
  }

  lemma {:induction false} FirstNewlineAt(line: string, rest: string)
    requires '\n' !in line
    ensures '\n' in line + "\n" + rest && FirstNewline(line + "\n" + rest) == |line|
  {
    var buffer := line + "\n" + rest;
    assert buffer[|line|] == '\n';
    if line != [] {
      FirstNewlineAt(line[1..], rest);
      assert buffer[1..] == line[1..] + "\n" + rest;
    }
  }

  /**
   * A batch split in two: the replies to the first part come first, then
   * those to the second part, handled from the state the first part leaves.
   */
  lemma {:induction false} HandleLinesSplit(c: Core, a: seq<string>, b: seq<string>, handle: LineHandler)
    ensures var (c1, r1) := HandleLines(c, a, handle); var (c2, r2) := HandleLines(c1, b, handle);
      HandleLines(c, a + b, handle) == (c2, r1 + r2)
    decreases |a|
  {
    if a == [] {
      assert a + b == b;
      assert HandleLines(c, a, handle) == (c, []);
      assert [] + HandleLines(c, b, handle).1 == HandleLines(c, b, handle).1;
    } else {
      var (c1, reply) := handle(c, a[0]);
      assert a + b == [a[0]] + (a[1..] + b);
      assert a == [a[0]] + a[1..];
      HandleLinesCons(c, a[0], a[1..] + b, handle);
      HandleLinesCons(c, a[0], a[1..], handle);
      HandleLinesSplit(c1, a[1..], b, handle);
      var r1 := HandleLines(c1, a[1..], handle).1;
      var r2 := HandleLines(HandleLines(c1, a[1..], handle).0, b, handle).1;
      AppendAssoc(Sent(reply), r1, r2);
    }
  }

  /** A non-blank line is submitted, stripped, and its reply sent. */
  lemma HandleNonBlankLine(c: Core, line: string, parse: string -> Parsed, wait: nat -> Option<Value>)
    requires !AllSpace(line)
    ensures var (c1, reply) := Submit(c, Strip(line), parse, wait);
      Handler(parse, wait)(c, line) == (c1, Some(reply))
  {
    StripEmptyIff(line);
    assert Handler(parse, wait)(c, line) == HandleLine(c, line, parse, wait);
  }

  /** A non-blank line handled alone is one submission and one reply. */
  lemma HandleOneLine(c: Core, line: string, parse: string -> Parsed, wait: nat -> Option<Value>)
    requires !AllSpace(line)
    ensures var (c1, reply) := Submit(c, Strip(line), parse, wait);
      HandleLines(c, [line], Handler(parse, wait)) == (c1, [reply])
  {
    var handle := Handler(parse, wait);
    HandleNonBlankLine(c, line, parse, wait);
    var (c1, reply) := handle(c, line);
    HandleLinesCons(c, line, [], handle);
    assert [line] + [] == [line];
    assert HandleLines(c1, [], handle) == (c1, []);
    assert Sent(reply) + [] == [reply.value];
  }

  /** Two non-blank lines are two submissions, and their replies come in line order. */
  lemma HandleTwoLines(c: Core, first: string, second: string, parse: string -> Parsed, wait: nat -> Option<Value>)
    requires !AllSpace(first) && !AllSpace(second)
    ensures var (c1, r1) := Submit(c, Strip(first), parse, wait); var (c2, r2) := Submit(c1, Strip(second), parse, wait);
      HandleLines(c, [first, second], Handler(parse, wait)) == (c2, [r1, r2])
  {
    var h := Handler(parse, wait);
    var (c1, r1) := Submit(c, Strip(first), parse, wait);
    var (c2, r2) := Submit(c1, Strip(second), parse, wait);
    HandleOneLine(c, first, parse, wait);
    HandleOneLine(c1, second, parse, wait);
    HandleLinesSplit(c, [first], [second], h);
    assert [first] + [second] == [first, second];
    assert [r1] + [r2] == [r1, r2];
  }

  /** Two newline-terminated lines frame as those two lines and nothing left over. */
  lemma TwoLinesFrame(first: string, second: string)
    requires '\n' !in first && '\n' !in second
    ensures Lines(first + "\n" + second + "\n") == ("", [first, second])
  {
    var chunk := first + "\n" + second + "\n";
    assert chunk == first + "\n" + (second + "\n" + "");
    LinesCons(first, second + "\n" + "");
    LinesCons(second, "");
    assert Lines("") == ("", []);
    assert [first] + ([second] + []) == [first, second];
  }

  /**
   * Two messages arriving in one chunk produce exactly two replies, the
   * first message's first, take two ids and leave nothing in the buffer.
   */
  lemma TwoMessagesOneChunk(c: Core, first: string, second: string, parse: string -> Parsed, wait: nat -> Option<Value>)
    requires '\n' !in first && '\n' !in second && !AllSpace(first) && !AllSpace(second)
    ensures var (c', rest, sent) := Frame(c, first + "\n" + second + "\n", [], Handler(parse, wait));
      && rest == "" && c'.counter == c.counter + 2
      && var (c1, r1) := Submit(c, Strip(first), parse, wait);
        sent == [r1, Submit(c1, Strip(second), parse, wait).1]
  {
    TwoLinesFrame(first, second);
    HandleTwoLines(c, first, second, parse, wait);
    FrameIsLines(c, first + "\n" + second + "\n", [], Handler(parse, wait));
    assert [] + HandleLines(c, [first, second], Handler(parse, wait)).1 == HandleLines(c, [first, second], Handler(parse, wait)).1;
  }

  // ---------------------------------------------------------------------------
  // The connection loop
  // ---------------------------------------------------------------------------

  /**
   * What happens around one `recv`: a chunk of text (an empty one is the peer
   * closing), the socket timeout, any other receive error (a failed UTF-8
   * decode among them), or the script's `disconnect` running on the host
   * thread before the next check of `running`.
   */
  datatype RecvEvent = Data(text: string) | RecvTimeout | RecvFailed | Shutdown

  /** Why `_handle_client` returned. */
  datatype Exit = PeerClosed | ReceiveError | Stopped | TraceEnded

  /**
   * `_handle_client` from a given point: `running` is checked before each
   * receive; a timeout continues; an empty chunk or a receive error ends the
   * connection; a chunk is appended to the buffer and its lines handled.
   * `TraceEnded` says only that the events given ran out.
   */
  function Run(c: Core, buffer: string, events: seq<RecvEvent>, sent: seq<Value>, handle: LineHandler): (Core, seq<Value>, Exit)
    decreases |events|
  {
    if !c.running then (c, sent, Stopped)
    else if events == [] then (c, sent, TraceEnded)
    else
      match events[0]
      case Data(text) =>
        if text == "" then (c, sent, PeerClosed)
        else
          var (c1, rest, sent1) := Frame(c, buffer + text, sent, handle);
          Run(c1, rest, events[1..], sent1, handle)
      case RecvTimeout => Run(c, buffer, events[1..], sent, handle)
      case RecvFailed => (c, sent, ReceiveError)
      case Shutdown => Run(c.(running := false), buffer, events[1..], sent, handle)
  }

  /** An event that ends the connection. */
  predicate Terminates(e: RecvEvent)
  {
    e == Data("") || e == RecvFailed || e == Shutdown
  }

  function ExitFor(e: RecvEvent): Exit
    requires Terminates(e)
  {
    if e == Data("") then PeerClosed else if e == RecvFailed then ReceiveError else Stopped
  }

  predicate HasTerminator(events: seq<RecvEvent>)
  {
    exists i :: 0 <= i < |events| && Terminates(events[i])
  }

  /** The index of the first terminating event. */
  function FirstTerminator(events: seq<RecvEvent>): (i: nat)
    requires HasTerminator(events)
    ensures i < |events| && Terminates(events[i])
    ensures forall j :: 0 <= j < i ==> !Terminates(events[j])
  {
    if Terminates(events[0]) then 0
    else
      ShiftTerminators(events);
      1 + FirstTerminator(events[1..])
  }

  lemma ShiftTerminators(events: seq<RecvEvent>)
    requires events != [] && !Terminates(events[0])
    ensures HasTerminator(events) <==> HasTerminator(events[1..])
  {
    if HasTerminator(events) {
      var i :| 0 <= i < |events| && Terminates(events[i]);
      assert events[1..][i - 1] == events[i];
    }
    if HasTerminator(events[1..]) {
      var i :| 0 <= i < |events| - 1 && Terminates(events[1..][i]);
      assert events[i + 1] == events[1..][i];
    }
  }

  /** The line loop never touches `running`. */
  lemma {:induction false} FrameKeepsRunning(c: Core, buffer: string, sent: seq<Value>, parse: string -> Parsed, wait: nat -> Option<Value>)
    ensures Frame(c, buffer, sent, Handler(parse, wait)).0.running == c.running
    decreases |buffer|
  {
    if '\n' in buffer {
      var k := FirstNewline(buffer);
      var (c1, reply) := Handler(parse, wait)(c, buffer[..k]);
      assert Handler(parse, wait)(c, buffer[..k]) == HandleLine(c, buffer[..k], parse, wait);
      LineKeepsRunning(c, buffer[..k], parse, wait);
      FrameKeepsRunning(c1, buffer[k + 1..], sent + Sent(reply), parse, wait);
    }
  }

  /**
   * The connection ends at the first terminating event, with the matching
   * exit, and nothing after that event has any effect; if none occurs the
   * events simply run out.
   */
  lemma {:induction false} RunEndsAtFirstTerminator(c: Core, buffer: string, events: seq<RecvEvent>, later: seq<RecvEvent>, sent: seq<Value>, parse: string -> Parsed, wait: nat -> Option<Value>)
    requires c.running
    ensures var handle := Handler(parse, wait); var r := Run(c, buffer, events, sent, handle);
      && (HasTerminator(events) ==>
            Run(c, buffer, events + later, sent, handle) == r && r.2 == ExitFor(events[FirstTerminator(events)]))
      && (!HasTerminator(events) ==> r.2 == TraceEnded)
    decreases |events|
  {
    var handle := Handler(parse, wait);
    if events == [] {
    } else {
      var all := events + later;
      assert all[0] == events[0] && all[1..] == events[1..] + later;
      if !Terminates(events[0]) {
        ShiftTerminators(events);
        match events[0]
        case Data(text) =>
          var (c1, rest, sent1) := Frame(c, buffer + text, sent, handle);
          FrameKeepsRunning(c, buffer + text, sent, parse, wait);
          RunEndsAtFirstTerminator(c1, rest, events[1..], later, sent1, parse, wait);
        case RecvTimeout =>
          RunEndsAtFirstTerminator(c, buffer, events[1..], later, sent, parse, wait);
      } else {
        assert FirstTerminator(events) == 0;
        assert HasTerminator(events);
      }
    }
  }

  /** A script that is no longer running answers nothing and changes nothing. */
  lemma StoppedSendsNothing(c: Core, buffer: string, events: seq<RecvEvent>, handle: LineHandler)
    requires !c.running
    ensures Run(c, buffer, events, [], handle) == (c, [], Stopped)
  {
  }

  // ---------------------------------------------------------------------------
  // The socket thread, imperatively
  // ---------------------------------------------------------------------------

  /**
   * The body of `if message:` in `_handle_client`: under the lock take the
   * next id and open its slot; parse; on success enqueue, wait, and remove
   * the slot if it is still there; on a parse error answer with the error.
   */
  method SubmitMessage(script: RemoteScript, message: string, parse: string -> Parsed, wait: nat -> Option<Value>)
    returns (reply: Value)
    modifies script
    ensures (script.State(), reply) == Submit(old(script.State()), message, parse, wait)
  {
    var id := script.requestCounter;
    script.requestCounter := script.requestCounter + 1;
    script.responseQueues := script.responseQueues[id := []];
    match parse(message)
    case Malformed(e) =>
      reply := ErrorReply(e);
    case Parsed(command) =>
      script.commandQueue := script.commandQueue + [Queued(id, command)];
      match wait(id) {
        case Some(v) => reply := v;
        case None => reply := ErrorReply(TimeoutMessage);
      }
      if id in script.responseQueues {
        script.responseQueues := script.responseQueues - {id};
      }
  }

  /** One pass of the inner loop after the split: strip the line and, unless it is blank, submit it. */
  method TakeLine(script: RemoteScript, line: string, parse: string -> Parsed, wait: nat -> Option<Value>)
    returns (reply: Option<Value>)
    modifies script
    ensures (script.State(), reply) == HandleLine(old(script.State()), line, parse, wait)
  {
    var message := Strip(line);
    if message != "" {
      var answer := SubmitMessage(script, message, parse, wait);
      reply := Some(answer);
    } else {
      reply := None;
    }
  }

  /** `Frame` one line at a time, with the handler `_handle_client` uses. */
  lemma FrameStep(c: Core, buffer: string, sent: seq<Value>, parse: string -> Parsed, wait: nat -> Option<Value>)
    requires '\n' in buffer
    ensures var k := FirstNewline(buffer); var (c1, reply) := HandleLine(c, buffer[..k], parse, wait);
      Frame(c, buffer, sent, Handler(parse, wait))
        == Frame(c1, buffer[k + 1..], sent + Sent(reply), Handler(parse, wait))
  {
    var k := FirstNewline(buffer);
    assert Handler(parse, wait)(c, buffer[..k]) == HandleLine(c, buffer[..k], parse, wait);
  }

  /** The inner loop `while "\n" in buffer`: handles each complete line and returns the partial one. */
  method TakeLines(script: RemoteScript, buffer: string, sent: seq<Value>, parse: string -> Parsed, wait: nat -> Option<Value>)
    returns (rest: string, sentAfter: seq<Value>)
    modifies script
    ensures (script.State(), rest, sentAfter) == Frame(old(script.State()), buffer, sent, Handler(parse, wait))
  {
    ghost var handle := Handler(parse, wait);
    ghost var goal := Frame(script.State(), buffer, sent, handle);
    rest, sentAfter := buffer, sent;
    while '\n' in rest
      invariant goal == Frame(script.State(), rest, sentAfter, handle)
      decreases |rest|
    {
      ghost var before := script.State();
      ghost var whole := rest;
      ghost var previous := sentAfter;
      var k := FirstNewline(rest);
      var reply := TakeLine(script, rest[..k], parse, wait);
      FrameStep(before, whole, previous, parse, wait);
      rest := rest[k + 1..];
      sentAfter := sentAfter + Sent(reply);
    }
  }

  /**
   * `_handle_client`: receives until the peer closes, a receive fails or the
   * script stops, handling every complete line as it arrives.
   */
  method HandleClient(script: RemoteScript, events: seq<RecvEvent>, parse: string -> Parsed, wait: nat -> Option<Value>)
    returns (sent: seq<Value>, exit: Exit)
    modifies script
    ensures (script.State(), sent, exit) == Run(old(script.State()), "", events, [], Handler(parse, wait))
  {
    ghost var handle := Handler(parse, wait);
    ghost var goal := Run(script.State(), "", events, [], handle);
    var buffer := "";
    var k := 0;
    sent, exit := [], Stopped;
    while script.running
      invariant k <= |events|
      invariant goal == Run(script.State(), buffer, events[k..], sent, handle)
      decreases |events| - k
    {
      if k == |events| {
        exit := TraceEnded;
        break;
      }
      var event := events[k];
      assert events[k..][1..] == events[k + 1..];
      k := k + 1;
      match event
      case Data(text) =>
        if text == "" {
          exit := PeerClosed;
          break;
        }
        buffer, sent := TakeLines(script, buffer + text, sent, parse, wait);
      case RecvTimeout =>
      case RecvFailed =>
        exit := ReceiveError;
        break;
      case Shutdown =>
        script.Disconnect();
    }
  }

  /**
   * What happens around one `accept`: a client connects, accept raises while
   * the server is up, or `disconnect` closes the server socket, which makes
   * the pending accept raise once `running` is already false.
   */
  datatype AcceptEvent = Connected(client: nat) | AcceptFailed | ServerClosed

  /**
   * `_socket_listener` from a given point: the clients handed a thread of
   * their own, in order, the number of accept errors logged, and the state.
   */
  function Listen(c: Core, events: seq<AcceptEvent>, spawned: seq<nat>, logged: nat): (seq<nat>, nat, Core)
    decreases |events|
  {
    if !c.running || events == [] then (spawned, logged, c)
    else
      match events[0]
      case Connected(client) => Listen(c, events[1..], spawned + [client], logged)
      case AcceptFailed => Listen(c, events[1..], spawned, logged + 1)
      case ServerClosed => (spawned, logged, c.(running := false))
  }

  /** The clients that connect, in order. */
  function Clients(events: seq<AcceptEvent>): seq<nat>
  {
    if events == [] then []
    else (if events[0].Connected? then [events[0].client] else []) + Clients(events[1..])
  }

  /** The accept errors. */
  function Failures(events: seq<AcceptEvent>): nat
  {
    if events == [] then 0 else (if events[0] == AcceptFailed then 1 else 0) + Failures(events[1..])
  }

  /** The events before the server socket is closed. */
  function BeforeClose(events: seq<AcceptEvent>): (r: seq<AcceptEvent>)
    ensures r <= events && ServerClosed !in r
  {
    if events == [] || events[0] == ServerClosed then []
    else [events[0]] + BeforeClose(events[1..])
  }

  /**
   * While the script runs, every client before the close gets its own
   * handler thread, in order, and every accept error before it is logged;
   * the close stops the loop with nothing logged for the accept it breaks.
   */
  lemma {:induction false} ListenEffect(c: Core, events: seq<AcceptEvent>, spawned: seq<nat>, logged: nat)
    requires c.running
    ensures Listen(c, events, spawned, logged) ==
      (spawned + Clients(BeforeClose(events)), logged + Failures(BeforeClose(events)),
       c.(running := ServerClosed !in events))
    decreases |events|
  {
    if events == [] {
      assert spawned + [] == spawned;
      assert c.(running := true) == c;
    } else if events[0] == ServerClosed {
      assert spawned + [] == spawned;
    } else {
      var e := events[0];
      var b := BeforeClose(events);
      assert b == [e] + BeforeClose(events[1..]);
      assert b[0] == e && b[1..] == BeforeClose(events[1..]);
      assert ServerClosed in events <==> ServerClosed in events[1..] by {
        assert events == [e] + events[1..];
      }
      match e
      case Connected(client) =>
        ListenEffect(c, events[1..], spawned + [client], logged);
        assert spawned + [client] + Clients(BeforeClose(events[1..])) == spawned + Clients(b);
      case AcceptFailed =>
        ListenEffect(c, events[1..], spawned, logged + 1);
        assert spawned + Clients(BeforeClose(events[1..])) == spawned + ([] + Clients(BeforeClose(events[1..])));
    }
  }

  /** `_socket_listener`: accept until `running` is false, one handler thread per client. */
  method SocketListener(script: RemoteScript, events: seq<AcceptEvent>) returns (spawned: seq<nat>, logged: nat)
    modifies script
    ensures (spawned, logged, script.State()) == Listen(old(script.State()), events, [], 0)
  {
    ghost var goal := Listen(script.State(), events, [], 0);
    spawned, logged := [], 0;
    var k := 0;
    while script.running && k < |events|
      invariant k <= |events|
      invariant goal == Listen(script.State(), events[k..], spawned, logged)
      decreases |events| - k
    {
      var event := events[k];
      assert events[k..][1..] == events[k + 1..];
      k := k + 1;
      match event
      case Connected(client) =>
        spawned := spawned + [client];
      case AcceptFailed =>
        if script.running {
          logged := logged + 1;
        }
      case ServerClosed =>
        script.Disconnect();
    }
  }
}
