/** tmux-control/src/protocol/codec.rs, message.rs and fields.rs: a byte stream
    as lines, and each line as one message, routed by whether a reply block is
    open. How the stream is cut into chunks makes no difference. */
module Framing {
  import opened Wrappers

  const LF: Byte := 10
  const CR: Byte := 13
  const SPACE: Byte := 32
  const PERCENT: Byte := 37
  const BEGIN: Text := [98, 101, 103, 105, 110]
  const END: Text := [101, 110, 100]
  const ERROR: Text := [101, 114, 114, 111, 114]
  const U32_MAX: nat := 0xFFFF_FFFF
  const I64_MAX: nat := 0x7FFF_FFFF_FFFF_FFFF

  datatype Guard = Guard(timestamp: nat, number: nat, flags: nat)

  /** A notification as its own parser made it. */
  datatype Notice = PaneOutput(pane: nat, data: seq<Byte>) | Other(word: Text, args: Text)

  /** The parsers of the notifications, one word and its arguments at a time. */
  type Notify = (Text, Text) -> Option<Notice>

  datatype Message =
    | GuardBegin(guard: Guard)
    | GuardEnd(guard: Guard)
    | GuardError(guard: Guard)
    | CommandOutput(number: nat, line: Text)
    | ProtocolError(number: nat, line: Text)
    | Notification(notice: Notice)
    | Unknown(line: Text)

  // ---- Fields ----

  function SpaceAt(s: Text): (i: nat)
    ensures i <= |s| && SPACE !in s[..i] && (i < |s| ==> s[i] == SPACE)
  {
    if |s| == 0 || s[0] == SPACE then 0
    else
      var i := 1 + SpaceAt(s[1..]);
      assert s[..i] == [s[0]] + s[1..][..i - 1];
      i
  }

  /** Cut at every space. */
  function Split(s: Text): (parts: seq<Text>)
    ensures |parts| > 0
    decreases |s|
  {
    var i := SpaceAt(s);
    if i == |s| then [s] else [s[..i]] + Split(s[i + 1..])
  }

  predicate IsDigit(b: Byte) { 48 <= b <= 57 }

  predicate AllDigits(s: Text) { forall i :: 0 <= i < |s| ==> IsDigit(s[i]) }

  function DigitsValue(s: Text): nat
    requires AllDigits(s)
  {
    if |s| == 0 then 0 else DigitsValue(s[..|s| - 1]) * 10 + (s[|s| - 1] - 48)
  }

  /** A non-empty run of digits, in range. */
  function ParseDecimal(s: Text, max: nat): (r: Option<nat>)
    ensures r.Some? ==> r.value <= max
  {
    if |s| > 0 && AllDigits(s) && DigitsValue(s) <= max then Some(DigitsValue(s)) else None
  }

  function ParseGuard(args: Text): (r: Option<Guard>) {
    var parts := Split(args);
    if |parts| < 3 then None else
    match ParseDecimal(parts[0], I64_MAX)
    case None => None
    case Some(timestamp) =>
      match ParseDecimal(parts[1], U32_MAX)
      case None => None
      case Some(number) =>
        match ParseDecimal(parts[2], U32_MAX)
        case None => None
        case Some(flags) => Some(Guard(timestamp, number, flags))
  }

  function Parse(notify: Notify, word: Text, args: Text): (r: Option<Message>) {
    if word == BEGIN then match ParseGuard(args) case None => None case Some(g) => Some(GuardBegin(g))
    else if word == END then match ParseGuard(args) case None => None case Some(g) => Some(GuardEnd(g))
    else if word == ERROR then match ParseGuard(args) case None => None case Some(g) => Some(GuardError(g))
    else if word == [] then None
    else match notify(word, args) case None => None case Some(notice) => Some(Notification(notice))
  }

  // ---- One line ----

  /** The type word and arguments of a `%` line; both empty for any other. */
  function Words(line: Text): (Text, Text) {
    if |line| == 0 || line[0] != PERCENT then ([], [])
    else
      var i := SpaceAt(line[1..]);
      if i == |line| - 1 then (line[1..], []) else (line[1..1 + i], line[2 + i..])
  }

  predicate IsTerminator(line: Text) { Words(line).0 == END || Words(line).0 == ERROR }

  /** What one line is, and the block open after it. */
  function Processed(notify: Notify, active: Option<nat>, line: Text): (r: (Option<nat>, Message)) {
    if active.Some? && !IsTerminator(line) then (active, CommandOutput(active.value, line))
    else match Parse(notify, Words(line).0, Words(line).1)
         case Some(GuardBegin(g)) => (Some(g.number), GuardBegin(g))
         case Some(GuardEnd(g)) => (None, GuardEnd(g))
         case Some(GuardError(g)) => (None, GuardError(g))
         case Some(message) => (active, message)
         case None => (None, if active.Some? then ProtocolError(active.value, line) else Unknown(line))
  }

  // ---- The stream as lines ----

  function LfAt(s: Text): (i: nat)
    ensures i <= |s| && LF !in s[..i] && (i < |s| ==> s[i] == LF)
  {
    if |s| == 0 || s[0] == LF then 0
    else
      var i := 1 + LfAt(s[1..]);
      assert s[..i] == [s[0]] + s[1..][..i - 1];
      i
  }

  /** The complete lines, and the start of the next. */
  function Lines(s: Text): (r: (seq<Text>, Text))
    decreases |s|
  {
    var i := LfAt(s);
    if i == |s| then ([], s)
    else
      var (lines, rest) := Lines(s[i + 1..]);
      ([s[..i]] + lines, rest)
  }

  /** A line without the one CR a transport may have put before its LF. */
  function Chomped(line: Text): Text {
    if |line| > 0 && line[|line| - 1] == CR then line[..|line| - 1] else line
  }

  /** One message per line, in order, and the block open at the end. */
  function Messages(notify: Notify, active: Option<nat>, lines: seq<Text>): (r: (Option<nat>, seq<Message>))
    ensures |r.1| == |lines|
    decreases |lines|
  {
    if |lines| == 0 then (active, [])
    else
      var (then_, message) := Processed(notify, active, Chomped(lines[0]));
      var (last, messages) := Messages(notify, then_, lines[1..]);
      (last, [message] + messages)
  }

  /** A codec between reads: the partial line it holds and the block open. */
  datatype State = State(buffer: Text, active: Option<nat>)

  function Fed(notify: Notify, s: State, bytes: Text): (r: (State, seq<Message>)) {
    var (lines, rest) := Lines(s.buffer + bytes);
    var (active, messages) := Messages(notify, s.active, lines);
    (State(rest, active), messages)
  }

  function FedAll(notify: Notify, s: State, chunks: seq<Text>): (r: (State, seq<Message>))
    decreases |chunks|
  {
    if |chunks| == 0 then (s, [])
    else
      var (t, first) := Fed(notify, s, chunks[0]);
      var (last, more) := FedAll(notify, t, chunks[1..]);
      (last, first + more)
  }

  // ---- The codec ----

  class Codec {
    var buffer: Text
    var active: Option<nat>
    const notify: Notify

    constructor (notify: Notify)
      ensures this.notify == notify && AsState() == State([], None)
    {
      this.notify := notify;
      buffer, active := [], None;
    }

    function AsState(): State
      reads this
    {
      State(buffer, active)
    }

    /** Takes a chunk and returns every message it completes: a cursor runs over
        the lines, and what it passed is dropped once at the end. */
    method Feed(bytes: Text) returns (out: seq<Message>)
      modifies this
      ensures (AsState(), out) == Fed(notify, old(AsState()), bytes)
    {
      hide Processed, LfAt, Lines, Messages, Chomped;
      buffer := buffer + bytes;
      ghost var all := Messages(notify, active, Lines(buffer).0);
      out := [];
      var start := 0;
      assert buffer[0..] == buffer;
      var newline := LfAt(buffer);
      while newline < |buffer|
        invariant start <= newline <= |buffer|
        invariant newline == start + LfAt(buffer[start..])
        invariant buffer == old(buffer) + bytes
        invariant all.0 == Messages(notify, active, Lines(buffer[start..]).0).0
        invariant all.1 == out + Messages(notify, active, Lines(buffer[start..]).0).1
        invariant Lines(buffer).1 == Lines(buffer[start..]).1
        decreases |buffer| - newline
      {
        var end := if newline > start && buffer[newline - 1] == CR then newline - 1 else newline;
        var line := buffer[start..end];
        NextLine(buffer, start, newline, end);
        NextMessage(notify, active, buffer[start..newline], Lines(buffer[newline + 1..]).0);
        ghost var before := out;
        var message := ProcessLine(line);
        out := out + [message];
        start := newline + 1;
        assert before + ([message] + Messages(notify, active, Lines(buffer[start..]).0).1)
            == out + Messages(notify, active, Lines(buffer[start..]).0).1;
        newline := start + LfAt(buffer[start..]);
      }
      LastLine(buffer[start..]);
      NoMessages(notify, active);
      assert out + [] == out;
      buffer := buffer[start..];
    }

    method ProcessLine(line: Text) returns (message: Message)
      modifies this`active
      ensures (active, message) == Processed(notify, old(active), line)
    {
      hide Parse;
      var words := Words(line);
      var terminator := words.0 == END || words.0 == ERROR;
      if active.Some? && !terminator {
        return CommandOutput(active.value, line);
      }
      var parsed := Parse(notify, words.0, words.1);
      if parsed.Some? {
        match parsed.value {
          case GuardBegin(g) => active := Some(g.number);
          case GuardEnd(_) => active := None;
          case GuardError(_) => active := None;
          case _ =>
        }
        return parsed.value;
      }
      // The open block's terminator, malformed: close it, or every later line
      // would be output of a command that never settles.
      message := if active.Some? then ProtocolError(active.value, line) else Unknown(line);
      active := None;
    }

    method Reset()
      modifies this
      ensures AsState() == State([], None)
    {
      buffer, active := [], None;
    }
  }

  lemma NextMessage(notify: Notify, active: Option<nat>, line: Text, more: seq<Text>)
    ensures var (then_, message) := Processed(notify, active, Chomped(line));
            var (last, messages) := Messages(notify, then_, more);
            Messages(notify, active, [line] + more) == (last, [message] + messages)
  {
    hide Processed, Chomped;
    assert ([line] + more)[1..] == more;
  }

  lemma LastLine(s: Text)
    requires LfAt(s) == |s|
    ensures Lines(s) == ([], s)
  {
    hide LfAt;
  }

  lemma NextLine(s: Text, start: nat, newline: nat, end: nat)
    requires start <= newline < |s| && newline == start + LfAt(s[start..])
    requires end == if newline > start && s[newline - 1] == CR then newline - 1 else newline
    ensures Lines(s[start..]) == ([s[start..newline]] + Lines(s[newline + 1..]).0, Lines(s[newline + 1..]).1)
    ensures Chomped(s[start..newline]) == s[start..end]
  {
    hide LfAt;
    var i := LfAt(s[start..]);
    assert s[start..][..i] == s[start..newline];
    assert s[start..][i + 1..] == s[newline + 1..];
  }

  // ---- Cutting the stream makes no difference ----

  lemma {:induction false} FirstLf(a: Text, b: Text)
    ensures LfAt(a) < |a| ==> LfAt(a + b) == LfAt(a)
    ensures LfAt(a) == |a| ==> LfAt(a + b) == |a| + LfAt(b)
  {
    if |a| == 0 {
      assert a + b == b;
    } else {
      assert (a + b)[1..] == a[1..] + b;
      if a[0] != LF {
        FirstLf(a[1..], b);
      }
    }
  }

  lemma {:induction false} LinesJoin(a: Text, b: Text)
    ensures Lines(a + b) == (Lines(a).0 + Lines(Lines(a).1 + b).0, Lines(Lines(a).1 + b).1)
    decreases |a|
  {
    hide LfAt;
    var i := LfAt(a);
    FirstLf(a, b);
    if i < |a| {
      assert (a + b)[..i] == a[..i];
      assert (a + b)[i + 1..] == a[i + 1..] + b;
      LinesJoin(a[i + 1..], b);
      var (lines, rest) := Lines(a[i + 1..]);
      assert [a[..i]] + (lines + Lines(rest + b).0) == [a[..i]] + lines + Lines(rest + b).0;
    } else {
      assert [] + Lines(a + b).0 == Lines(a + b).0;
    }
  }

  lemma {:induction false} MessagesJoin(notify: Notify, active: Option<nat>, a: seq<Text>, b: seq<Text>)
    ensures var (mid, first) := Messages(notify, active, a);
            var (last, more) := Messages(notify, mid, b);
            Messages(notify, active, a + b) == (last, first + more)
    decreases |a|
  {
    hide Processed;
    if |a| == 0 {
      assert a + b == b;
      assert [] + Messages(notify, active, b).1 == Messages(notify, active, b).1;
    } else {
      assert (a + b)[1..] == a[1..] + b && (a + b)[0] == a[0];
      var (then_, message) := Processed(notify, active, Chomped(a[0]));
      MessagesJoin(notify, then_, a[1..], b);
      var (mid, first) := Messages(notify, then_, a[1..]);
      assert [message] + (first + Messages(notify, mid, b).1) == [message] + first + Messages(notify, mid, b).1;
    }
  }

  lemma FedJoin(notify: Notify, s: State, a: Text, b: Text)
    ensures var (t, first) := Fed(notify, s, a);
            var (u, more) := Fed(notify, t, b);
            Fed(notify, s, a + b) == (u, first + more)
  {
    hide Lines, Messages;
    assert s.buffer + (a + b) == s.buffer + a + b;
    LinesJoin(s.buffer + a, b);
    MessagesJoin(notify, s.active, Lines(s.buffer + a).0, Lines(Lines(s.buffer + a).1 + b).0);
  }

  function Flat(chunks: seq<Text>): Text {
    if |chunks| == 0 then [] else chunks[0] + Flat(chunks[1..])
  }

  lemma NoLines(s: Text)
    requires LF !in s
    ensures LfAt(s) == |s| && Lines(s) == ([], s)
  {
    hide LfAt;
  }

  lemma {:induction false} RestIsPartial(s: Text)
    ensures LF !in Lines(s).1
    decreases |s|
  {
    hide LfAt;
    var i := LfAt(s);
    if i < |s| {
      RestIsPartial(s[i + 1..]);
    } else {
      assert s[..i] == s;
    }
  }

  /** However the stream is cut into chunks, the messages together and the state
      after are those of the whole fed at once. */
  lemma {:induction false} ChunksMakeNoDifference(notify: Notify, s: State, chunks: seq<Text>)
    requires LF !in s.buffer
    ensures FedAll(notify, s, chunks) == Fed(notify, s, Flat(chunks))
    ensures LF !in FedAll(notify, s, chunks).0.buffer
    decreases |chunks|
  {
    hide Lines, Messages;
    if |chunks| == 0 {
      assert s.buffer + [] == s.buffer;
      NoLines(s.buffer);
      NoMessages(notify, s.active);
    } else {
      var (t, first) := Fed(notify, s, chunks[0]);
      RestIsPartial(s.buffer + chunks[0]);
      ChunksMakeNoDifference(notify, t, chunks[1..]);
      FedJoin(notify, s, chunks[0], Flat(chunks[1..]));
    }
  }

  lemma NoMessages(notify: Notify, active: Option<nat>)
    ensures Messages(notify, active, []) == (active, [])
  {}

  // ---- One message per line feed ----

  lemma {:induction false} LinesCount(s: Text)
    ensures |Lines(s).0| == multiset(s)[LF]
    decreases |s|
  {
    hide LfAt;
    var i := LfAt(s);
    if i < |s| {
      LinesCount(s[i + 1..]);
      assert s == s[..i] + [LF] + s[i + 1..];
      assert multiset(s) == multiset(s[..i]) + multiset{LF} + multiset(s[i + 1..]);
    } else {
      assert s[..i] == s;
    }
  }

  /** Feeding any chunk gives exactly one message for each LF in it. */
  lemma OneMessagePerLf(notify: Notify, s: State, bytes: Text)
    requires LF !in s.buffer
    ensures |Fed(notify, s, bytes).1| == multiset(bytes)[LF]
  {
    LinesCount(s.buffer + bytes);
    assert multiset(s.buffer + bytes) == multiset(s.buffer) + multiset(bytes);
  }

  /** The lines with an LF after each. */
  function Unlines(lines: seq<Text>): Text {
    if |lines| == 0 then [] else lines[0] + [LF] + Unlines(lines[1..])
  }

  ghost predicate LfFree(lines: seq<Text>) {
    forall i :: 0 <= i < |lines| ==> LF !in lines[i]
  }

  /** The line reader is the one way to cut a stream at its line feeds. */
  lemma {:induction false} LinesOfUnlines(lines: seq<Text>, rest: Text)
    requires LfFree(lines) && LF !in rest
    ensures Lines(Unlines(lines) + rest) == (lines, rest)
    decreases |lines|
  {
    if |lines| == 0 {
      assert Unlines(lines) + rest == rest;
      NoLines(rest);
    } else {
      var more := Unlines(lines[1..]) + rest;
      var s := lines[0] + ([LF] + more);
      assert Unlines(lines) + rest == s;
      FirstLf(lines[0], [LF] + more);
      NoLines(lines[0]);
      assert LfAt(lines[0]) == |lines[0]|;
      assert s[..|lines[0]|] == lines[0] && s[|lines[0]| + 1..] == more;
      LinesOfUnlines(lines[1..], rest);
      assert [lines[0]] + lines[1..] == lines;
    }
  }

  // ---- Inside a block there is only output ----

  /** Messages in an order a stream of blocks and notifications can have: an open
      block holds output under its own number and nothing else, until it settles. */
  predicate Framed(open: Option<nat>, messages: seq<Message>)
    decreases |messages|
  {
    |messages| == 0 ||
    match messages[0]
    case GuardBegin(g) => open.None? && Framed(Some(g.number), messages[1..])
    case CommandOutput(number, line) => open == Some(number) && Framed(open, messages[1..])
    case ProtocolError(number, line) => open == Some(number) && Framed(None, messages[1..])
    case GuardEnd(_) => Framed(None, messages[1..])
    case GuardError(_) => Framed(None, messages[1..])
    case Notification(_) => open.None? && Framed(None, messages[1..])
    case Unknown(_) => open.None? && Framed(None, messages[1..])
  }

  /** For arbitrary bytes. */
  lemma {:induction false} BlocksArePure(notify: Notify, active: Option<nat>, lines: seq<Text>)
    ensures Framed(active, Messages(notify, active, lines).1)
    decreases |lines|
  {
    hide Processed;
    if |lines| > 0 {
      var line := Chomped(lines[0]);
      var (then_, message) := Processed(notify, active, line);
      BlocksArePure(notify, then_, lines[1..]);
      assert lines == [lines[0]] + lines[1..];
      NextMessage(notify, active, lines[0], lines[1..]);
      OneIsFramed(notify, active, line, Messages(notify, then_, lines[1..]).1);
    }
  }

  lemma OneIsFramed(notify: Notify, active: Option<nat>, line: Text, more: seq<Message>)
    requires Framed(Processed(notify, active, line).0, more)
    ensures Framed(active, [Processed(notify, active, line).1] + more)
  {
    hide ParseGuard, Words;
    assert ([Processed(notify, active, line).1] + more)[1..] == more;
  }

  /** An open block closes on exactly the lines that look like its terminator,
      well-formed or not. */
  lemma TerminatorCloses(notify: Notify, number: nat, line: Text)
    ensures Processed(notify, Some(number), line).0.None? <==> IsTerminator(line)
    ensures !IsTerminator(line) ==> Processed(notify, Some(number), line) == (Some(number), CommandOutput(number, line))
  {
    hide ParseGuard;
  }
}
