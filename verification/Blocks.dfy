/** tmux-control/src/client/demux.rs: messages assembled into replies, with
    notifications and pane output let through; and the whole way from the bytes
    tmux writes for a run of replies to those replies. */
module Blocks {
  import opened Wrappers
  import opened Framing

  /** How a reply block settled. */
  datatype Settled =
    | Done(guard: Guard, lines: seq<Text>)
    | Failed(guard: Guard, lines: seq<Text>)
    | Malformed(number: nat, line: Text)

  datatype Routed = Reply(settled: Settled) | Note(message: Message) | PaneBytes(pane: nat, data: seq<Byte>)

  /** What one message turns out to be, given the open block's lines so far. */
  function RouteOne(lines: seq<Text>, m: Message): (r: (seq<Text>, Option<Routed>)) {
    match m
    case GuardBegin(_) => (lines, None)
    case CommandOutput(_, line) => (lines + [line], None)
    case GuardEnd(guard) => ([], Some(Reply(Done(guard, lines))))
    case GuardError(guard) => ([], Some(Reply(Failed(guard, lines))))
    case ProtocolError(number, line) => ([], Some(Reply(Malformed(number, line))))
    case Notification(PaneOutput(pane, data)) => (lines, Some(PaneBytes(pane, data)))
    case Notification(_) => (lines, Some(Note(m)))
    case Unknown(_) => (lines, Some(Note(m)))
  }

  function Only(r: Option<Routed>): seq<Routed> { if r.Some? then [r.value] else [] }

  function RouteAll(lines: seq<Text>, messages: seq<Message>): (r: (seq<Text>, seq<Routed>))
    decreases |messages|
  {
    if |messages| == 0 then (lines, [])
    else
      var (next, first) := RouteOne(lines, messages[0]);
      var (last, more) := RouteAll(next, messages[1..]);
      (last, Only(first) + more)
  }

  class Demux {
    var lines: seq<Text>

    constructor ()
      ensures lines == []
    {
      lines := [];
    }

    /** What one message comes to, if anything: the lines of a block wait here until
        its end. */
    method Route(m: Message) returns (routed: Option<Routed>)
      modifies this
      ensures (lines, routed) == RouteOne(old(lines), m)
    {
      routed := None;
      match m {
        case GuardBegin(_) =>
        case CommandOutput(_, line) =>
          lines := lines + [line];
        case GuardEnd(guard) =>
          routed := Some(Reply(Done(guard, lines)));
          lines := [];
        case GuardError(guard) =>
          routed := Some(Reply(Failed(guard, lines)));
          lines := [];
        case ProtocolError(number, line) =>
          lines := [];
          routed := Some(Reply(Malformed(number, line)));
        case Notification(PaneOutput(pane, data)) => routed := Some(PaneBytes(pane, data));
        case _ => routed := Some(Note(m));
      }
    }
  }

  lemma {:induction false} RouteJoin(lines: seq<Text>, a: seq<Message>, b: seq<Message>)
    ensures var (mid, first) := RouteAll(lines, a);
            var (last, more) := RouteAll(mid, b);
            RouteAll(lines, a + b) == (last, first + more)
    decreases |a|
  {
    hide RouteOne, Only;
    if |a| == 0 {
      assert a + b == b;
      assert [] + RouteAll(lines, b).1 == RouteAll(lines, b).1;
    } else {
      assert (a + b)[1..] == a[1..] + b && (a + b)[0] == a[0];
      var (next, first) := RouteOne(lines, a[0]);
      RouteJoin(next, a[1..], b);
      var (mid, more) := RouteAll(next, a[1..]);
      assert Only(first) + (more + RouteAll(mid, b).1) == Only(first) + more + RouteAll(mid, b).1;
    }
  }

  // ---- What tmux writes ----

  function Decimal(n: nat): (s: Text)
    ensures |s| > 0 && AllDigits(s)
  {
    if n < 10 then [48 + n] else Decimal(n / 10) + [48 + n % 10]
  }

  lemma {:induction false} DecimalIsParsed(n: nat)
    ensures DigitsValue(Decimal(n)) == n
  {
    if n < 10 {
      assert Decimal(n)[..0] == [];
    } else {
      DecimalIsParsed(n / 10);
      assert Decimal(n)[..|Decimal(n)| - 1] == Decimal(n / 10);
    }
  }

  predicate GuardFits(g: Guard) { g.timestamp <= I64_MAX && g.number <= U32_MAX && g.flags <= U32_MAX }

  function GuardArgs(g: Guard): Text {
    Decimal(g.timestamp) + ([SPACE] + (Decimal(g.number) + ([SPACE] + Decimal(g.flags))))
  }

  function GuardLine(word: Text, g: Guard): Text { [PERCENT] + (word + ([SPACE] + GuardArgs(g))) }

  /** A reply block, its body lines between its guards; or one other line. */
  datatype Item = Block(begin: Guard, body: seq<Text>, ok: bool, end: Guard) | Line(line: Text)

  function ItemLines(item: Item): seq<Text> {
    match item
    case Block(begin, body, ok, end) =>
      [GuardLine(BEGIN, begin)] + (body + [GuardLine(if ok then END else ERROR, end)])
    case Line(line) => [line]
  }

  function AllLines(items: seq<Item>): seq<Text> {
    if |items| == 0 then [] else ItemLines(items[0]) + AllLines(items[1..])
  }

  function Rendered(items: seq<Item>): Text { Unlines(AllLines(items)) }

  predicate Plain(line: Text) { LF !in line && (|line| > 0 ==> line[|line| - 1] != CR) }

  /** A block's body holds no terminator of its own; a line outside is no guard. */
  predicate Writable(item: Item) {
    match item
    case Block(begin, body, ok, end) =>
      && GuardFits(begin) && GuardFits(end)
      && forall i :: 0 <= i < |body| ==> Plain(body[i]) && !IsTerminator(body[i])
    case Line(line) => Plain(line) && !IsTerminator(line) && Words(line).0 != BEGIN
  }

  function Expected(notify: Notify, item: Item): Option<Routed> {
    match item
    case Block(begin, body, ok, end) => Some(Reply(if ok then Done(end, body) else Failed(end, body)))
    case Line(line) => RouteOne([], Processed(notify, None, line).1).1
  }

  function AllExpected(notify: Notify, items: seq<Item>): seq<Routed> {
    if |items| == 0 then [] else Only(Expected(notify, items[0])) + AllExpected(notify, items[1..])
  }

  // ---- Guards are read back ----

  lemma {:induction false} FirstSpace(a: Text, b: Text)
    requires SPACE !in a
    ensures SpaceAt(a) == |a| && SpaceAt(a + ([SPACE] + b)) == |a|
  {
    hide SpaceAt;
    var s := a + ([SPACE] + b);
    SpaceAtSteps(s);
    SpaceAtSteps(a);
    if |a| > 0 {
      assert a[0] in a;
      assert s[1..] == a[1..] + ([SPACE] + b);
      FirstSpace(a[1..], b);
    }
  }

  lemma {:induction false} SpaceAtSteps(s: Text)
    ensures SpaceAt(s) == if |s| == 0 || s[0] == SPACE then 0 else 1 + SpaceAt(s[1..])
  {}

  lemma DigitsHaveNoSpace(s: Text)
    requires AllDigits(s)
    ensures SPACE !in s && LF !in s
  {}

  lemma {:induction false} SplitFirst(a: Text, b: Text)
    requires SPACE !in a
    ensures Split(a) == [a] && Split(a + ([SPACE] + b)) == [a] + Split(b)
  {
    FirstSpace(a, b);
    var s := a + ([SPACE] + b);
    assert s[..|a|] == a && s[|a| + 1..] == b;
  }

  lemma GuardArgsAreParsed(g: Guard)
    requires GuardFits(g)
    ensures ParseGuard(GuardArgs(g)) == Some(g)
  {
    hide Decimal, Split, DigitsValue, AllDigits;
    var (t, n, f) := (Decimal(g.timestamp), Decimal(g.number), Decimal(g.flags));
    DigitsHaveNoSpace(t);
    DigitsHaveNoSpace(n);
    DigitsHaveNoSpace(f);
    SplitFirst(t, n + ([SPACE] + f));
    SplitFirst(n, f);
    SplitFirst(f, []);
    assert Split(GuardArgs(g)) == [t, n, f];
    DecimalIsParsed(g.timestamp);
    DecimalIsParsed(g.number);
    DecimalIsParsed(g.flags);
  }

  lemma GuardLineIsRead(word: Text, g: Guard)
    requires word == BEGIN || word == END || word == ERROR
    ensures Words(GuardLine(word, g)) == (word, GuardArgs(g))
    ensures LF !in GuardLine(word, g) && Chomped(GuardLine(word, g)) == GuardLine(word, g)
  {
    hide GuardArgs, SpaceAt, Chomped;
    GuardLineIsPlain(word, g);
    var (line, args) := (GuardLine(word, g), GuardArgs(g));
    assert line[1..] == word + ([SPACE] + args);
    FirstSpace(word, args);
    assert line[1..1 + |word|] == word && line[2 + |word|..] == args;
  }

  lemma GuardLineIsPlain(word: Text, g: Guard)
    requires word == BEGIN || word == END || word == ERROR
    ensures LF !in GuardLine(word, g) && Chomped(GuardLine(word, g)) == GuardLine(word, g)
  {
    hide GuardArgs;
    GuardArgsArePlain(g);
    var (line, args) := (GuardLine(word, g), GuardArgs(g));
    assert line[|line| - 1] == args[|args| - 1];
  }

  lemma GuardArgsArePlain(g: Guard)
    ensures var args := GuardArgs(g); |args| > 0 && LF !in args && args[|args| - 1] != CR
  {
    hide Decimal, AllDigits;
    DigitsHaveNoSpace(Decimal(g.timestamp));
    DigitsHaveNoSpace(Decimal(g.number));
    DigitsHaveNoSpace(Decimal(g.flags));
    LastDigit(Decimal(g.flags));
    assert GuardArgs(g)[|GuardArgs(g)| - 1] == Decimal(g.flags)[|Decimal(g.flags)| - 1];
  }

  lemma LastDigit(s: Text)
    requires AllDigits(s) && |s| > 0
    ensures s[|s| - 1] != CR
  {}

  // ---- An item comes back ----

  function Outputs(number: nat, body: seq<Text>): seq<Message> {
    seq(|body|, i requires 0 <= i < |body| => CommandOutput(number, body[i]))
  }

  lemma {:induction false} BodyIsOutput(notify: Notify, number: nat, body: seq<Text>)
    requires forall i :: 0 <= i < |body| ==> Plain(body[i]) && !IsTerminator(body[i])
    ensures Messages(notify, Some(number), body) == (Some(number), Outputs(number, body))
    decreases |body|
  {
    hide Parse, IsTerminator;
    if |body| > 0 {
      assert Chomped(body[0]) == body[0];
      BodyIsOutput(notify, number, body[1..]);
      assert Outputs(number, body) == [CommandOutput(number, body[0])] + Outputs(number, body[1..]);
    }
  }

  lemma {:induction false} OutputsAreKept(lines: seq<Text>, number: nat, body: seq<Text>)
    ensures RouteAll(lines, Outputs(number, body)) == (lines + body, [])
    decreases |body|
  {
    if |body| == 0 {
      assert lines + body == lines;
    } else {
      assert Outputs(number, body)[1..] == Outputs(number, body[1..]);
      OutputsAreKept(lines + [body[0]], number, body[1..]);
      assert lines + [body[0]] + body[1..] == lines + body;
      assert Outputs(number, body)[0] == CommandOutput(number, body[0]);
      var more := RouteAll(lines + [body[0]], Outputs(number, body[1..])).1;
      assert Only(None) + more == more;
    }
  }

  lemma GuardIsProcessed(notify: Notify, active: Option<nat>, word: Text, g: Guard)
    requires GuardFits(g)
    requires if active.None? then word == BEGIN else word == END || word == ERROR
    ensures Processed(notify, active, Chomped(GuardLine(word, g)))
         == if word == BEGIN then (Some(g.number), GuardBegin(g))
            else (None, if word == END then GuardEnd(g) else GuardError(g))
  {
    hide ParseGuard, GuardLine, GuardArgs;
    GuardLineIsRead(word, g);
    GuardArgsAreParsed(g);
  }

  lemma BlockComesBack(notify: Notify, item: Item)
    requires item.Block? && Writable(item)
    ensures var (active, messages) := Messages(notify, None, ItemLines(item));
            active.None? && RouteAll([], messages) == ([], Only(Expected(notify, item)))
  {
    hide Processed, GuardLine, Plain, Outputs, Chomped;
    var word := if item.ok then END else ERROR;
    var (first, last) := (GuardLine(BEGIN, item.begin), GuardLine(word, item.end));
    var number := item.begin.number;
    GuardIsProcessed(notify, None, BEGIN, item.begin);
    GuardIsProcessed(notify, Some(number), word, item.end);
    BodyIsOutput(notify, number, item.body);
    MessagesJoin(notify, Some(number), item.body, [last]);
    NextMessage(notify, None, first, item.body + [last]);
    NextMessage(notify, Some(number), last, []);
    NoMessages(notify, None);
    assert [last] + [] == [last];
    var end := if item.ok then GuardEnd(item.end) else GuardError(item.end);
    var outputs := Outputs(number, item.body);
    assert Messages(notify, None, ItemLines(item)).1 == [GuardBegin(item.begin)] + (outputs + [end]);
    BlockIsRouted(item.begin, outputs, number, item.body, end);
  }

  lemma BlockIsRouted(begin: Guard, outputs: seq<Message>, number: nat, body: seq<Text>, end: Message)
    requires outputs == Outputs(number, body) && (end.GuardEnd? || end.GuardError?)
    ensures RouteAll([], [GuardBegin(begin)] + (outputs + [end]))
         == ([], [Reply(if end.GuardEnd? then Done(end.guard, body) else Failed(end.guard, body))])
  {
    hide Outputs;
    OutputsAreKept([], number, body);
    assert [] + body == body;
    RouteJoin([], outputs, [end]);
    RouteOnly(body, end);
    var last := RouteAll(body, [end]).1;
    assert [] + last == last;
    assert ([GuardBegin(begin)] + (outputs + [end]))[1..] == outputs + [end];
    var routed := RouteAll([], outputs + [end]).1;
    assert Only(None) + routed == routed;
  }

  lemma RouteOnly(lines: seq<Text>, m: Message)
    ensures RouteAll(lines, [m]) == (RouteOne(lines, m).0, Only(RouteOne(lines, m).1))
  {
    hide RouteOne;
    assert [m][1..] == [];
    assert Only(RouteOne(lines, m).1) + [] == Only(RouteOne(lines, m).1);
  }

  lemma LineComesBack(notify: Notify, item: Item)
    requires item.Line? && Writable(item)
    ensures var (active, messages) := Messages(notify, None, ItemLines(item));
            active.None? && RouteAll([], messages) == ([], Only(Expected(notify, item)))
  {
    hide ParseGuard, SpaceAt;
    assert Chomped(item.line) == item.line;
    NextMessage(notify, None, item.line, []);
    assert [item.line] + [] == [item.line];
    var message := Processed(notify, None, item.line).1;
    NoMessages(notify, None);
    assert [message] + [] == [message];
    RouteOnly([], message);
  }

  lemma {:induction false} ItemsComeBack(notify: Notify, items: seq<Item>)
    requires forall i :: 0 <= i < |items| ==> Writable(items[i])
    ensures var (active, messages) := Messages(notify, None, AllLines(items));
            active.None? && RouteAll([], messages) == ([], AllExpected(notify, items))
    decreases |items|
  {
    hide Writable, ItemLines, Expected, Messages, RouteAll, Only;
    if |items| == 0 {
      NoMessages(notify, None);
      NothingRouted();
    } else {
      if items[0].Block? {
        BlockComesBack(notify, items[0]);
      } else {
        LineComesBack(notify, items[0]);
      }
      ItemsComeBack(notify, items[1..]);
      MessagesJoin(notify, None, ItemLines(items[0]), AllLines(items[1..]));
      RouteJoin([], Messages(notify, None, ItemLines(items[0])).1, Messages(notify, None, AllLines(items[1..])).1);
    }
  }

  lemma NothingRouted()
    ensures RouteAll([], []) == ([], [])
  {}

  lemma {:induction false} AllLinesLfFree(items: seq<Item>)
    requires forall i :: 0 <= i < |items| ==> Writable(items[i])
    ensures LfFree(AllLines(items))
    decreases |items|
  {
    hide GuardLine;
    if |items| > 0 {
      match items[0]
      case Block(begin, body, ok, end) =>
        GuardLineIsRead(BEGIN, begin);
        GuardLineIsRead(if ok then END else ERROR, end);
      case Line(_) =>
    }
    if |items| > 0 {
      AllLinesLfFree(items[1..]);
    }
  }

  /** A stream of blocks and notifications comes back whole: however the bytes are
      cut, the codec and the demultiplexer give the same replies with the same
      lines, and the same notifications, in order, and end between blocks. */
  lemma StreamComesBack(notify: Notify, items: seq<Item>, chunks: seq<Text>)
    requires forall i :: 0 <= i < |items| ==> Writable(items[i])
    requires Flat(chunks) == Rendered(items)
    ensures var (state, messages) := FedAll(notify, State([], None), chunks);
            state == State([], None) && RouteAll([], messages) == ([], AllExpected(notify, items))
  {
    hide Writable, Messages, RouteAll, AllLines, Lines, Unlines;
    ChunksMakeNoDifference(notify, State([], None), chunks);
    AllLinesLfFree(items);
    LinesOfUnlines(AllLines(items), []);
    assert [] + Rendered(items) == Rendered(items) == Unlines(AllLines(items)) + [];
    ItemsComeBack(notify, items);
  }

  /** A transport that ends its lines CR LF parses like one that ends them LF. */
  lemma {:induction false} CrlfMakesNoDifference(notify: Notify, active: Option<nat>, lines: seq<Text>, crlf: seq<Text>)
    requires |lines| == |crlf|
    requires forall i :: 0 <= i < |lines| ==> Plain(lines[i]) && (crlf[i] == lines[i] || crlf[i] == lines[i] + [CR])
    ensures Messages(notify, active, crlf) == Messages(notify, active, lines)
    decreases |lines|
  {
    hide Processed;
    if |lines| > 0 {
      assert (lines[0] + [CR])[..|lines[0]|] == lines[0];
      assert Chomped(crlf[0]) == lines[0] == Chomped(lines[0]);
      CrlfMakesNoDifference(notify, Processed(notify, active, lines[0]).0, lines[1..], crlf[1..]);
    }
  }
}
