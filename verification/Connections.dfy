/** tmux-control/src/client/connection.rs and connection_state.rs: a connection
    that one thread reads and another calls. The reader's deliveries, the caller's
    calls and an abort from anywhere interleave freely, one effect at a time. */
module Connections {
  import opened Wrappers
  import opened Framing
  import opened Blocks

  datatype CloseReason = Exit | TransportError | Protocol | DisposedHere

  datatype ConnectionState = Connecting | Ready | Reconnecting(attempt: nat) | Closed(reason: CloseReason) {
    /** The one way into `Closed`: the first close wins. */
    function ClosedBy(reason: CloseReason): ConnectionState {
      if Closed? then this else Closed(reason)
    }
  }

  datatype ReadEnd = Eof | ReadFailed | Disposed {
    function Reason(): CloseReason {
      match this
      case Eof => Exit
      case ReadFailed => TransportError
      case Disposed => DisposedHere
    }
  }

  /** What the reply channel carries, and what the sink is given. */
  datatype Item = Answer(settled: Settled) | Ended(end: ReadEnd)
  datatype Event = Notified(message: Message) | Output(pane: nat, data: seq<Byte>) | Over(reason: CloseReason)

  // ---- The greeting ----

  datatype ReadResult = Chunk(bytes: Text) | End(end: ReadEnd)

  function FirstReply(routed: seq<Routed>): (at: nat)
    ensures at <= |routed| && (at < |routed| ==> routed[at].Reply?)
    ensures forall i :: 0 <= i < at ==> !routed[i].Reply?
  {
    if |routed| == 0 || routed[0].Reply? then 0 else 1 + FirstReply(routed[1..])
  }

  /** Everything but the first reply, which is the greeting. */
  function WithoutGreeting(routed: seq<Routed>): seq<Routed> {
    var at := FirstReply(routed);
    if at == |routed| then routed else routed[..at] + routed[at + 1..]
  }

  /** What reading goes on from once the greeting is over. */
  datatype Link = Link(codec: State, lines: seq<Text>, behind: seq<Routed>, rest: seq<ReadResult>)

  datatype Greeting = Greeted(link: Link) | NoSessions | Refused(settled: Settled) | Lost(end: ReadEnd)

  const NO_SESSIONS: Text := Ascii("no sessions")

  function GreetingOf(settled: Settled, link: Link): Greeting {
    match settled
    case Done(_, _) => Greeted(link)
    case Failed(_, lines) => if lines == [NO_SESSIONS] then NoSessions else Refused(settled)
    case Malformed(_, _) => Refused(settled)
  }

  /** An attach that is answered is a greeting; the one failure that means tmux has no
      session to give is the single line it says that in; any other is refused. */
  lemma GreetingExactly(settled: Settled, link: Link)
    ensures settled.Done? ==> GreetingOf(settled, link) == Greeted(link)
    ensures GreetingOf(settled, link).NoSessions? <==>
              settled.Failed? && settled.lines == [[110, 111, 32, 115, 101, 115, 115, 105, 111, 110, 115]]
    ensures !settled.Done? && !GreetingOf(settled, link).NoSessions? ==> GreetingOf(settled, link) == Refused(settled)
  {
    assert NO_SESSIONS == [110, 111, 32, 115, 101, 115, 115, 105, 111, 110, 115];
  }

  /** Reads up to the first reply, keeping whatever else the same reads held. */
  function Greet(notify: Notify, s: State, lines: seq<Text>, routed: seq<Routed>, input: seq<ReadResult>): (g: Greeting)
    decreases |input|
  {
    if |input| == 0 then Lost(Eof) else
    match input[0]
    case End(end) => Lost(end)
    case Chunk(bytes) =>
      var (t, messages) := Fed(notify, s, bytes);
      var (left, more) := RouteAll(lines, messages);
      var all := routed + more;
      var at := FirstReply(all);
      if at < |all| then GreetingOf(all[at].settled, Link(t, left, WithoutGreeting(all), input[1..]))
      else Greet(notify, t, left, all, input[1..])
  }

  /** What the bytes of one read come to. */
  method ReadRouted(codec: Codec, demux: Demux, bytes: Text) returns (routed: seq<Routed>)
    modifies codec, demux
    ensures var (t, messages) := Fed(codec.notify, old(codec.AsState()), bytes);
            codec.AsState() == t && (demux.lines, routed) == RouteAll(old(demux.lines), messages)
  {
    hide Fed, RouteOne;
    var messages := codec.Feed(bytes);
    routed := [];
    assert messages[0..] == messages;
    assert [] + RouteAll(demux.lines, messages).1 == RouteAll(demux.lines, messages).1;
    for i := 0 to |messages|
      invariant codec.AsState() == Fed(codec.notify, old(codec.AsState()), bytes).0
      invariant RouteAll(old(demux.lines), messages)
             == (RouteAll(demux.lines, messages[i..]).0, routed + RouteAll(demux.lines, messages[i..]).1)
    {
      ghost var (lines, before) := (demux.lines, routed);
      assert messages[i..][1..] == messages[i + 1..];
      var one := demux.Route(messages[i]);
      if one.Some? {
        routed := routed + [one.value];
      }
      ghost var more := RouteAll(demux.lines, messages[i + 1..]).1;
      assert before + (Only(one) + more) == routed + more;
    }
    assert routed + [] == routed;
  }

  method GreetLink(codec: Codec, demux: Demux, input: seq<ReadResult>) returns (g: Greeting)
    modifies codec, demux
    ensures g == Greet(codec.notify, old(codec.AsState()), old(demux.lines), [], input)
  {
    hide Fed, RouteAll, FirstReply, WithoutGreeting, Ascii;
    var routed: seq<Routed> := [];
    assert input[0..] == input;
    for i := 0 to |input|
      invariant Greet(codec.notify, old(codec.AsState()), old(demux.lines), [], input)
             == Greet(codec.notify, codec.AsState(), demux.lines, routed, input[i..])
    {
      assert input[i..][1..] == input[i + 1..];
      match input[i] {
        case End(end) => return Lost(end);
        case Chunk(bytes) =>
          var more := ReadRouted(codec, demux, bytes);
          routed := routed + more;
          var at := FirstReply(routed);
          if at < |routed| {
            return GreetingOf(routed[at].settled,
                              Link(codec.AsState(), demux.lines, WithoutGreeting(routed), input[i + 1..]));
          }
      }
    }
    return Lost(Eof);
  }

  // ---- The connection ----

  datatype Reader = Reading | Reported(end: ReadEnd) | Gone(end: ReadEnd)

  /** Where the calling thread is: between calls; past the idle check; after a
      write; after a failed one; or joining the reader. */
  datatype Caller = Free | Checked | Awaiting | Failing | Joining

  /** `pending` is routed but not delivered. From `heard` on is history: every
      message routed after the greeting and how many bytes it came from, what was
      delivered, sent, taken off the channel, given the sink, written, answered. */
  datatype Connection = Connection(
    codec: State, lines: seq<Text>, pending: seq<Routed>, reader: Reader,
    channel: seq<Item>, disposed: bool, open_: bool, state: ConnectionState, caller: Caller,
    heard: seq<Routed>, stream: Text, delivered: seq<Routed>, sent: seq<Item>, taken: seq<Item>, sunk: seq<Event>,
    written: nat, answers: seq<Settled>)

  function Start(link: Link): Connection {
    Connection(link.codec, link.lines, link.behind, Reading, [], false, true, Ready, Free,
               link.behind, [], [], [], [], [], 0, [])
  }

  datatype Step =
    | Deliver
    | ReadChunk(bytes: Text)
    | ReadEnds(end: ReadEnd)
    | ReportClosed
    | Abort
    | Call
    | Write(ok: bool)
    | Receive
    | Close
    | Join

  predicate Enabled(c: Connection, step: Step) {
    match step
    case Deliver => c.reader.Reading? && c.pending != []
    case ReadChunk(bytes) => c.reader.Reading? && c.pending == []
    case ReadEnds(end) => c.reader.Reading? && c.pending == [] && end != Disposed
    case ReportClosed => c.reader.Reported?
    case Abort => true
    case Call => c.caller.Free?
    case Write(ok) => c.caller.Checked?
    case Receive => (c.caller.Awaiting? || c.caller.Failing?) && (c.channel != [] || c.reader.Gone?)
    case Close => c.caller.Free?
    case Join => c.caller.Joining? && c.reader.Gone?
  }

  function Delivering(c: Connection): Connection
    requires c.pending != []
  {
    var next := c.(pending := c.pending[1..], delivered := c.delivered + [c.pending[0]]);
    match c.pending[0]
    case Reply(settled) => next.(channel := c.channel + [Answer(settled)], sent := c.sent + [Answer(settled)])
    case Note(message) => next.(sunk := c.sunk + [Notified(message)])
    case PaneBytes(pane, data) => next.(sunk := c.sunk + [Output(pane, data)])
  }

  function ReadingChunk(notify: Notify, c: Connection, bytes: Text): Connection {
    var (t, messages) := Fed(notify, c.codec, bytes);
    var (left, more) := RouteAll(c.lines, messages);
    c.(codec := t, lines := left, pending := more, heard := c.heard + more, stream := c.stream + bytes)
  }

  function Taking(c: Connection): Connection
    requires c.channel != []
  {
    c.(channel := c.channel[1..], taken := c.taken + [c.channel[0]])
  }

  /** A block with nothing in flight closes the connection; an ending closes it
      with its reason. */
  function Unexpected(state: ConnectionState, item: Item): ConnectionState {
    match item
    case Answer(_) => state.ClosedBy(Protocol)
    case Ended(end) => state.ClosedBy(end.Reason())
  }

  function Drained(state: ConnectionState, items: seq<Item>): ConnectionState
    decreases |items|
  {
    if |items| == 0 then state else Drained(Unexpected(state, items[0]), items[1..])
  }

  function Calling(c: Connection): Connection {
    if c.state != Ready then c
    else if c.channel != [] then Taking(c).(state := Unexpected(c.state, c.channel[0]))
    else if c.reader.Gone? then c.(state := c.state.ClosedBy(TransportError))
    else c.(caller := Checked)
  }

  function Receiving(c: Connection): Connection {
    if c.channel == [] then c.(state := c.state.ClosedBy(TransportError), caller := Free)
    else
      var next := Taking(c).(caller := Free);
      if c.caller.Awaiting? && c.channel[0].Answer? then next.(answers := c.answers + [c.channel[0].settled])
      else next.(state := Unexpected(c.state, c.channel[0]))
  }

  function Closing(c: Connection): Connection {
    if !c.open_ then c.(state := c.state.ClosedBy(DisposedHere))
    else c.(state := Drained(c.state, c.channel), channel := [], taken := c.taken + c.channel,
            disposed := true, open_ := false, caller := Joining)
  }

  function Next(notify: Notify, c: Connection, step: Step): Connection
    requires Enabled(c, step)
  {
    match step
    case Deliver => Delivering(c)
    case ReadChunk(bytes) => ReadingChunk(notify, c, bytes)
    case ReadEnds(end) =>
      var how := if c.disposed then Disposed else end;
      c.(reader := Reported(how), channel := c.channel + [Ended(how)], sent := c.sent + [Ended(how)])
    case ReportClosed => c.(reader := Gone(c.reader.end), sunk := c.sunk + [Over(c.reader.end.Reason())])
    case Abort => c.(disposed := true)
    case Call => Calling(c)
    case Write(ok) =>
      if !c.open_ then c.(caller := Free)
      else if ok then c.(caller := Awaiting, written := c.written + 1)
      else c.(caller := Failing)
    case Receive => Receiving(c)
    case Close => Closing(c)
    case Join => c.(state := c.state.ClosedBy(DisposedHere), caller := Free)
  }

  ghost predicate Runs(notify: Notify, c: Connection, steps: seq<Step>)
    decreases |steps|
  {
    |steps| == 0 || (Enabled(c, steps[0]) && Runs(notify, Next(notify, c, steps[0]), steps[1..]))
  }

  ghost function After(notify: Notify, c: Connection, steps: seq<Step>): Connection
    requires Runs(notify, c, steps)
    decreases |steps|
  {
    if |steps| == 0 then c else After(notify, Next(notify, c, steps[0]), steps[1..])
  }

  // ---- What every state keeps ----

  function AnswersOf(routed: seq<Routed>): seq<Item> {
    if |routed| == 0 then [] else
    var last := routed[|routed| - 1];
    AnswersOf(routed[..|routed| - 1]) + if last.Reply? then [Answer(last.settled)] else []
  }

  function EventsOf(routed: seq<Routed>): seq<Event> {
    if |routed| == 0 then [] else
    EventsOf(routed[..|routed| - 1]) + EventOf(routed[|routed| - 1])
  }

  function EventOf(r: Routed): seq<Event> {
    match r
    case Reply(_) => []
    case Note(message) => [Notified(message)]
    case PaneBytes(pane, data) => [Output(pane, data)]
  }

  function EndItem(r: Reader): seq<Item> { if r.Reading? then [] else [Ended(r.end)] }
  function EndEvent(r: Reader): seq<Event> { if r.Gone? then [Over(r.end.Reason())] else [] }

  function Items(answers: seq<Settled>): seq<Item> {
    seq(|answers|, i requires 0 <= i < |answers| => Answer(answers[i]))
  }

  /** The reader's side: everything heard is delivered in order or pending, each
      kind to its place, and the ending is last in both. */
  ghost predicate ReaderOk(c: Connection) {
    && c.heard == c.delivered + c.pending
    && c.sent == AnswersOf(c.delivered) + EndItem(c.reader)
    && c.sunk == EventsOf(c.delivered) + EndEvent(c.reader)
    && (!c.reader.Reading? ==> c.pending == [])
    && c.sent == c.taken + c.channel
  }

  /** The caller's side: while the connection is up, all it has taken are the
      answers to its own commands. */
  ghost predicate CallerOk(c: Connection) {
    && (c.state == Ready || c.state.Closed?)
    && (c.state == Ready && c.caller != Joining ==> c.open_ && c.taken == Items(c.answers))
    && (c.state.Closed? ==> c.caller.Free? || c.caller.Joining?)
    && (c.caller.Joining? ==> !c.open_)
    && Items(c.answers) <= c.taken
    && (c.caller.Joining? && c.state == Ready ==> c.taken == Items(c.answers))
  }

  ghost predicate Inv(c: Connection) { ReaderOk(c) && CallerOk(c) }

  lemma AnswersPush(routed: seq<Routed>, r: Routed)
    ensures AnswersOf(routed + [r]) == AnswersOf(routed) + if r.Reply? then [Answer(r.settled)] else []
    ensures EventsOf(routed + [r]) == EventsOf(routed) + EventOf(r)
  {
    assert (routed + [r])[..|routed|] == routed;
  }

  lemma DeliverKeeps(c: Connection)
    requires ReaderOk(c) && Enabled(c, Deliver)
    ensures ReaderOk(Delivering(c))
  {
    hide AnswersOf, EventsOf;
    var r := c.pending[0];
    AnswersPush(c.delivered, r);
    assert c.delivered + c.pending == c.delivered + [r] + c.pending[1..];
    assert AnswersOf(c.delivered) + [] == AnswersOf(c.delivered);
    assert EventsOf(c.delivered) + [] == EventsOf(c.delivered);
    if r.Reply? {
      assert c.taken + (c.channel + [Answer(r.settled)]) == c.sent + [Answer(r.settled)];
    }
  }

  lemma ReadKeeps(notify: Notify, c: Connection, bytes: Text)
    requires ReaderOk(c) && Enabled(c, ReadChunk(bytes))
    ensures ReaderOk(ReadingChunk(notify, c, bytes))
  {
    hide AnswersOf, EventsOf, Fed, RouteAll;
    assert c.delivered + [] == c.delivered;
  }

  lemma TakeKeeps(c: Connection)
    requires ReaderOk(c) && c.channel != []
    ensures ReaderOk(Taking(c))
  {
    hide AnswersOf, EventsOf;
    assert c.taken + c.channel == c.taken + [c.channel[0]] + c.channel[1..];
  }

  lemma EndKeeps(notify: Notify, c: Connection, step: Step)
    requires ReaderOk(c) && Enabled(c, step) && (step.ReadEnds? || step.ReportClosed?)
    ensures ReaderOk(Next(notify, c, step))
  {
    hide AnswersOf, EventsOf;
    assert AnswersOf(c.delivered) + [] == AnswersOf(c.delivered);
    assert EventsOf(c.delivered) + [] == EventsOf(c.delivered);
    if step.ReadEnds? {
      var how := if c.disposed then Disposed else step.end;
      assert c.taken + (c.channel + [Ended(how)]) == c.sent + [Ended(how)];
    }
  }

  lemma ReaderKeeps(notify: Notify, c: Connection, step: Step)
    requires ReaderOk(c) && Enabled(c, step)
    ensures ReaderOk(Next(notify, c, step))
  {
    hide AnswersOf, EventsOf, ReadingChunk, Delivering;
    match step
    case Deliver => DeliverKeeps(c);
    case ReadChunk(bytes) => ReadKeeps(notify, c, bytes);
    case ReadEnds(_) => EndKeeps(notify, c, step);
    case ReportClosed => EndKeeps(notify, c, step);
    case Call => if c.state == Ready && c.channel != [] { TakeKeeps(c); }
    case Receive => if c.channel != [] { TakeKeeps(c); }
    case Close => assert c.taken + c.channel + [] == c.taken + c.channel;
    case _ =>
  }

  lemma ItemsPush(answers: seq<Settled>, settled: Settled)
    ensures Items(answers + [settled]) == Items(answers) + [Answer(settled)]
  {}

  /** A connection that is up has not taken its reader's ending, so one that has
      ended is still waiting on the channel: no call finds the reader vanished. */
  lemma EndingWaits(c: Connection)
    requires Inv(c) && c.state == Ready && !c.reader.Reading?
    ensures c.channel != []
  {
    hide AnswersOf, EventsOf;
    assert c.sent[|c.sent| - 1] == Ended(c.reader.end);
    assert forall i :: 0 <= i < |c.taken| ==> c.taken[i].Answer?;
  }

  lemma ReceiveKeeps(c: Connection)
    requires Inv(c) && Enabled(c, Receive)
    ensures CallerOk(Receiving(c))
  {
    hide ReaderOk;
    if c.channel != [] && c.caller.Awaiting? && c.channel[0].Answer? {
      ItemsPush(c.answers, c.channel[0].settled);
    }
  }

  lemma {:induction false} DrainedIsClosedOrSame(state: ConnectionState, items: seq<Item>)
    ensures Drained(state, items) == if |items| == 0 then state else Unexpected(state, items[0])
    decreases |items|
  {
    if |items| > 0 {
      DrainedIsClosedOrSame(Unexpected(state, items[0]), items[1..]);
    }
  }

  lemma CloseKeeps(c: Connection)
    requires Inv(c) && Enabled(c, Close)
    ensures CallerOk(Closing(c))
  {
    hide ReaderOk;
    DrainedIsClosedOrSame(c.state, c.channel);
    assert c.taken + [] == c.taken;
  }

  lemma CallerKeeps(notify: Notify, c: Connection, step: Step)
    requires Inv(c) && Enabled(c, step)
    ensures CallerOk(Next(notify, c, step))
  {
    hide ReaderOk, ReadingChunk, Receiving, Closing, Fed, RouteAll;
    match step
    case ReadChunk(bytes) => ReadingLeavesCaller(notify, c, bytes);
    case Receive => ReceiveKeeps(c);
    case Close => CloseKeeps(c);
    case _ =>
  }

  lemma ReadingLeavesCaller(notify: Notify, c: Connection, bytes: Text)
    requires CallerOk(c)
    ensures CallerOk(ReadingChunk(notify, c, bytes))
  {
    hide Fed, RouteAll;
  }

  lemma StartIsOk(link: Link)
    ensures Inv(Start(link))
  {
    assert [] + link.behind == link.behind;
  }

  lemma {:induction false} RunKeeps(notify: Notify, c: Connection, steps: seq<Step>)
    requires Inv(c) && Runs(notify, c, steps)
    ensures Inv(After(notify, c, steps))
    decreases |steps|
  {
    hide ReaderOk, CallerOk, Next, Enabled;
    if |steps| > 0 {
      ReaderKeeps(notify, c, steps[0]);
      CallerKeeps(notify, c, steps[0]);
      RunKeeps(notify, Next(notify, c, steps[0]), steps[1..]);
    }
  }

  // ---- Delivery ----

  /** What the reader has decoded is what the bytes since the greeting say. */
  ghost predicate HeardOk(notify: Notify, link: Link, c: Connection) {
    var (t, messages) := Fed(notify, link.codec, c.stream);
    var (left, more) := RouteAll(link.lines, messages);
    c.codec == t && c.lines == left && c.heard == link.behind + more
  }

  lemma HeardKeeps(notify: Notify, link: Link, c: Connection, step: Step)
    requires HeardOk(notify, link, c) && Enabled(c, step)
    ensures HeardOk(notify, link, Next(notify, c, step))
  {
    hide Fed, RouteAll, Drained, Unexpected;
    if step.ReadChunk? {
      FedJoin(notify, link.codec, c.stream, step.bytes);
      RouteJoin(link.lines, Fed(notify, link.codec, c.stream).1, Fed(notify, c.codec, step.bytes).1);
      var more := RouteAll(link.lines, Fed(notify, link.codec, c.stream).1).1;
      var last := RouteAll(c.lines, Fed(notify, c.codec, step.bytes).1).1;
      assert link.behind + more + last == link.behind + (more + last);
    }
  }

  lemma {:induction false} HeardThroughout(notify: Notify, link: Link, c: Connection, steps: seq<Step>)
    requires HeardOk(notify, link, c) && Runs(notify, c, steps)
    ensures HeardOk(notify, link, After(notify, c, steps))
    decreases |steps|
  {
    hide HeardOk, Next, Enabled;
    if |steps| > 0 {
      HeardKeeps(notify, link, c, steps[0]);
      HeardThroughout(notify, link, Next(notify, c, steps[0]), steps[1..]);
    }
  }

  lemma FirstReplyJoin(a: seq<Routed>, b: seq<Routed>)
    requires FirstReply(a) < |a|
    ensures FirstReply(a + b) == FirstReply(a) && WithoutGreeting(a + b) == WithoutGreeting(a) + b
  {
    hide FirstReply;
    FirstReplyAt(a, b);
    var at := FirstReply(a);
    assert (a + b)[..at] == a[..at] && (a + b)[at + 1..] == a[at + 1..] + b;
  }

  lemma FirstReplyAt(a: seq<Routed>, b: seq<Routed>)
    requires FirstReply(a) < |a|
    ensures FirstReply(a + b) == FirstReply(a)
  {
    if !a[0].Reply? {
      assert (a + b)[1..] == a[1..] + b;
      FirstReplyAt(a[1..], b);
    }
  }

  function BytesOf(input: seq<ReadResult>): Text {
    if |input| == 0 then [] else (if input[0].Chunk? then input[0].bytes else []) + BytesOf(input[1..])
  }

  /** The bytes of the reads the greeting took. */
  function GreetingBytes(input: seq<ReadResult>, link: Link): Text {
    BytesOf(if |link.rest| <= |input| then input[..|input| - |link.rest|] else [])
  }

  lemma BytesStep(input: seq<ReadResult>, link: Link)
    requires |link.rest| < |input| && input[0].Chunk?
    ensures GreetingBytes(input, link) == input[0].bytes + GreetingBytes(input[1..], link)
    ensures |link.rest| == |input| - 1 ==> GreetingBytes(input, link) == input[0].bytes
  {
    var n := |input| - |link.rest|;
    assert input[..n][1..] == input[1..][..n - 1] && input[..n][0] == input[0];
    assert |link.rest| == |input| - 1 ==> input[1..][..n - 1] == [];
    assert input[0].bytes + [] == input[0].bytes;
  }

  lemma GreetStep(notify: Notify, s: State, lines: seq<Text>, routed: seq<Routed>, input: seq<ReadResult>)
    requires Greet(notify, s, lines, routed, input).Greeted?
    ensures |input| > 0 && input[0].Chunk?
    ensures var (t, messages) := Fed(notify, s, input[0].bytes);
            var (left, more) := RouteAll(lines, messages);
            var all := routed + more;
            if FirstReply(all) < |all| then
              Greet(notify, s, lines, routed, input).link == Link(t, left, WithoutGreeting(all), input[1..])
            else Greet(notify, s, lines, routed, input) == Greet(notify, t, left, all, input[1..])
  {
    hide Fed, RouteAll, FirstReply, WithoutGreeting, Ascii;
  }

  /** What a greeted link holds, from the bytes its greeting took. */
  lemma {:induction false} GreetedFrom(notify: Notify, s: State, lines: seq<Text>, routed: seq<Routed>,
                                       input: seq<ReadResult>)
    requires Greet(notify, s, lines, routed, input).Greeted? && FirstReply(routed) == |routed|
    ensures var link := Greet(notify, s, lines, routed, input).link;
            var (t, messages) := Fed(notify, s, GreetingBytes(input, link));
            var (left, more) := RouteAll(lines, messages);
            && |link.rest| < |input| && link.codec == t && link.lines == left
            && FirstReply(routed + more) < |routed + more| && link.behind == WithoutGreeting(routed + more)
    decreases |input|
  {
    hide Greet, GreetingBytes, Fed, RouteAll, FirstReply, WithoutGreeting;
    GreetStep(notify, s, lines, routed, input);
    var bytes := input[0].bytes;
    var (t, messages) := Fed(notify, s, bytes);
    var (left, more) := RouteAll(lines, messages);
    var all := routed + more;
    var link := Greet(notify, s, lines, routed, input).link;
    if FirstReply(all) == |all| {
      GreetedFrom(notify, t, left, all, input[1..]);
      var later := GreetingBytes(input[1..], link);
      FedJoin(notify, s, bytes, later);
      RouteJoin(lines, messages, Fed(notify, t, later).1);
      var last := RouteAll(left, Fed(notify, t, later).1).1;
      assert all + last == routed + (more + last);
    }
    BytesStep(input, link);
  }

  // ---- Which read greets ----

  ghost predicate NoReply(routed: seq<Routed>) {
    forall i :: 0 <= i < |routed| ==> !routed[i].Reply?
  }

  /** What a stream comes to, from a codec and a block as they stand. */
  function Heard(notify: Notify, s: State, lines: seq<Text>, stream: Text): (r: (State, seq<Text>, seq<Routed>)) {
    var (t, messages) := Fed(notify, s, stream);
    var (left, routed) := RouteAll(lines, messages);
    (t, left, routed)
  }

  lemma HeardJoin(notify: Notify, s: State, lines: seq<Text>, a: Text, b: Text)
    ensures var (t, left, first) := Heard(notify, s, lines, a);
            var (u, last, more) := Heard(notify, t, left, b);
            Heard(notify, s, lines, a + b) == (u, last, first + more)
  {
    hide Fed, RouteAll;
    FedJoin(notify, s, a, b);
    var (t, messages) := Fed(notify, s, a);
    RouteJoin(lines, messages, Fed(notify, t, b).1);
  }

  lemma NoneFirst(routed: seq<Routed>)
    ensures NoReply(routed) <==> FirstReply(routed) == |routed|
  {}

  lemma HeardNothing(notify: Notify, s: State, lines: seq<Text>)
    requires LF !in s.buffer
    ensures Heard(notify, s, lines, []) == (s, lines, [])
  {
    assert s.buffer + [] == s.buffer;
    NoLines(s.buffer);
  }

  /** Reads that bring no reply are gone through. */
  lemma {:induction false} ReadsOn(notify: Notify, s: State, lines: seq<Text>, routed: seq<Routed>, input: seq<ReadResult>, n: nat)
    requires LF !in s.buffer && n <= |input| && forall i :: 0 <= i < n ==> input[i].Chunk?
    requires NoReply(routed + Heard(notify, s, lines, BytesOf(input[..n])).2)
    ensures var (t, left, more) := Heard(notify, s, lines, BytesOf(input[..n]));
            Greet(notify, s, lines, routed, input) == Greet(notify, t, left, routed + more, input[n..])
    decreases n
  {
    hide Greet, Fed, RouteAll, Heard, FirstReply;
    if n == 0 {
      HeardNothing(notify, s, lines);
      assert BytesOf(input[..0]) == [] && routed + [] == routed && input[0..] == input;
    } else {
      var bytes := input[0].bytes;
      var later := input[1..];
      var (t, left, more) := Heard(notify, s, lines, bytes);
      assert input[..n][1..] == later[..n - 1] && input[..n][0] == input[0];
      assert BytesOf(input[..n]) == bytes + BytesOf(later[..n - 1]);
      HeardJoin(notify, s, lines, bytes, BytesOf(later[..n - 1]));
      var rest := Heard(notify, t, left, BytesOf(later[..n - 1])).2;
      assert routed + (more + rest) == (routed + more) + rest;
      NoReplyPrefix(routed + more, rest);
      HeardLeavesPartial(notify, s, lines, bytes);
      ReadsOn(notify, t, left, routed + more, later, n - 1);
      assert later[n - 1..] == input[n..];
      NoneFirst(routed + more);
      OneRead(notify, s, lines, routed, input);
    }
  }

  lemma NoReplyPrefix(a: seq<Routed>, b: seq<Routed>)
    requires NoReply(a + b)
    ensures NoReply(a)
  {
    assert forall i :: 0 <= i < |a| ==> (a + b)[i] == a[i];
  }

  lemma HeardLeavesPartial(notify: Notify, s: State, lines: seq<Text>, bytes: Text)
    ensures LF !in Heard(notify, s, lines, bytes).0.buffer
  {
    FedLeavesPartial(notify, s, bytes);
  }

  lemma OneRead(notify: Notify, s: State, lines: seq<Text>, routed: seq<Routed>, input: seq<ReadResult>)
    requires |input| > 0 && input[0].Chunk?
    ensures var (t, left, more) := Heard(notify, s, lines, input[0].bytes);
            var all := routed + more;
            var at := FirstReply(all);
            Greet(notify, s, lines, routed, input)
            == if at < |all| then GreetingOf(all[at].settled, Link(t, left, all[..at] + all[at + 1..], input[1..]))
               else Greet(notify, t, left, all, input[1..])
  {
    hide Fed, RouteAll, FirstReply, GreetingOf;
  }

  /** The greeting is the first reply the reads bring: the one that brings it is the
      last gone through, and everything else any of them brought is kept, in order. */
  lemma GreetsOnFirstReply(notify: Notify, input: seq<ReadResult>, n: nat)
    requires n < |input| && forall i :: 0 <= i <= n ==> input[i].Chunk?
    requires NoReply(Heard(notify, State([], None), [], BytesOf(input[..n])).2)
    requires !NoReply(Heard(notify, State([], None), [], BytesOf(input[..n + 1])).2)
    ensures var (t, left, routed) := Heard(notify, State([], None), [], BytesOf(input[..n + 1]));
            var at := FirstReply(routed);
            && at < |routed| && routed[at].Reply?
            && Greet(notify, State([], None), [], [], input)
               == GreetingOf(routed[at].settled, Link(t, left, routed[..at] + routed[at + 1..], input[n + 1..]))
  {
    hide Greet, Heard, FirstReply, GreetingOf, BytesOf, NoReply;
    var zero := State([], None);
    var before := Heard(notify, zero, [], BytesOf(input[..n]));
    NoneBefore(before.2);
    ReadsOn(notify, zero, [], [], input, n);
    BytesPush(input, n);
    HeardJoin(notify, zero, [], BytesOf(input[..n]), input[n].bytes);
    assert input[n..][1..] == input[n + 1..];
    ReadGreets(notify, before.0, before.1, before.2, input[n..]);
  }

  lemma NoneBefore(routed: seq<Routed>)
    ensures [] + routed == routed
  {}

  lemma ReadGreets(notify: Notify, s: State, lines: seq<Text>, routed: seq<Routed>, input: seq<ReadResult>)
    requires |input| > 0 && input[0].Chunk?
    requires !NoReply(routed + Heard(notify, s, lines, input[0].bytes).2)
    ensures var (t, left, more) := Heard(notify, s, lines, input[0].bytes);
            var all := routed + more;
            var at := FirstReply(all);
            && at < |all| && all[at].Reply?
            && Greet(notify, s, lines, routed, input)
               == GreetingOf(all[at].settled, Link(t, left, all[..at] + all[at + 1..], input[1..]))
  {
    hide Greet, Heard, FirstReply, GreetingOf;
    OneRead(notify, s, lines, routed, input);
    NoneFirst(routed + Heard(notify, s, lines, input[0].bytes).2);
  }

  lemma {:induction false} BytesPush(input: seq<ReadResult>, n: nat)
    requires n < |input|
    ensures BytesOf(input[..n + 1]) == BytesOf(input[..n]) + if input[n].Chunk? then input[n].bytes else []
    decreases n
  {
    var longer := input[..n + 1];
    if n == 0 {
      assert longer[1..] == [];
      assert BytesOf(longer) == (if input[0].Chunk? then input[0].bytes else []) + [];
    } else {
      var later := input[1..];
      BytesPush(later, n - 1);
      assert longer[1..] == later[..n] && input[..n][1..] == later[..n - 1];
    }
  }

  /** Reads that end with no reply among them lose the connection, however they end. */
  lemma LostBeforeReply(notify: Notify, input: seq<ReadResult>, n: nat)
    requires n <= |input| && (forall i :: 0 <= i < n ==> input[i].Chunk?) && (n < |input| ==> input[n].End?)
    requires NoReply(Heard(notify, State([], None), [], BytesOf(input[..n])).2)
    ensures Greet(notify, State([], None), [], [], input) == Lost(if n < |input| then input[n].end else Eof)
  {
    hide Heard, FirstReply, GreetingOf;
    var (t, left, before) := Heard(notify, State([], None), [], BytesOf(input[..n]));
    assert [] + before == before;
    ReadsOn(notify, State([], None), [], [], input, n);
  }

  /** Delivery, for every split of the stream into reads and every interleaving:
      the messages of the bytes read for the greeting and then since, less the
      greeting, are what the sink and the channel have been given, in order; and
      once the reader is gone that is all of them, with the ending last in each. */
  lemma DeliveredExactly(notify: Notify, input: seq<ReadResult>, steps: seq<Step>)
    requires Greet(notify, State([], None), [], [], input).Greeted?
    requires Runs(notify, Start(Greet(notify, State([], None), [], [], input).link), steps)
    ensures var link := Greet(notify, State([], None), [], [], input).link;
            var c := After(notify, Start(link), steps);
            var stream := GreetingBytes(input, link) + c.stream;
            var routed := RouteAll([], Fed(notify, State([], None), stream).1).1;
            var at := FirstReply(routed);
            && at < |routed|
            && var all := routed[..at] + routed[at + 1..];
            && all == c.delivered + c.pending
            && c.sent == AnswersOf(c.delivered) + EndItem(c.reader)
            && c.sunk == EventsOf(c.delivered) + EndEvent(c.reader)
            && c.sent == c.taken + c.channel
            && (c.reader.Gone? ==>
                  (c.sent == AnswersOf(all) + [Ended(c.reader.end)]
                   && c.sunk == EventsOf(all) + [Over(match c.reader.end
                                                      case Eof => Exit
                                                      case ReadFailed => TransportError
                                                      case Disposed => DisposedHere)]))
  {
    hide Greet, Fed, RouteAll, FirstReply, Runs, After, AnswersOf, EventsOf, CallerOk;
    var zero := State([], None);
    var link := Greet(notify, zero, [], [], input).link;
    GreetedFrom(notify, zero, [], [], input);
    var read := GreetingBytes(input, link);
    StartIsOk(link);
    RunKeeps(notify, Start(link), steps);
    FedLeavesPartial(notify, zero, read);
    StartHeard(notify, link);
    HeardThroughout(notify, link, Start(link), steps);
    var c := After(notify, Start(link), steps);
    FedJoin(notify, zero, read, c.stream);
    var (t, messages) := Fed(notify, zero, read);
    RouteJoin([], messages, Fed(notify, t, c.stream).1);
    var (left, more) := RouteAll([], messages);
    assert [] + more == more;
    FirstReplyJoin(more, RouteAll(left, Fed(notify, t, c.stream).1).1);
    assert c.delivered + [] == c.delivered;
  }

  lemma FedLeavesPartial(notify: Notify, s: State, bytes: Text)
    ensures LF !in Fed(notify, s, bytes).0.buffer
  {
    hide Lines, Messages;
    RestIsPartial(s.buffer + bytes);
  }

  lemma StartHeard(notify: Notify, link: Link)
    requires LF !in link.codec.buffer
    ensures HeardOk(notify, link, Start(link))
  {
    assert link.codec.buffer + [] == link.codec.buffer;
    NoLines(link.codec.buffer);
    assert link.behind + [] == link.behind;
  }

  // ---- Correlation ----

  lemma AnswersFit(c: Connection, i: nat)
    requires Inv(c) && i < |c.answers|
    ensures i < |AnswersOf(c.delivered)| && AnswersOf(c.delivered)[i] == Answer(c.answers[i])
  {
    hide AnswersOf, EventsOf;
    assert Items(c.answers)[i] == c.taken[i] == c.sent[i];
  }

  /** Whatever the server does, the nth call answered is answered by the nth block
      after the greeting. */
  lemma AnsweredInOrder(notify: Notify, link: Link, steps: seq<Step>, i: nat)
    requires Runs(notify, Start(link), steps) && i < |After(notify, Start(link), steps).answers|
    ensures var c := After(notify, Start(link), steps);
            i < |AnswersOf(c.delivered)| && AnswersOf(c.delivered)[i] == Answer(c.answers[i])
  {
    hide Runs, After, Inv, AnswersOf;
    StartIsOk(link);
    RunKeeps(notify, Start(link), steps);
    AnswersFit(After(notify, Start(link), steps), i);
  }

  /** tmux has not settled more blocks since the greeting than it was sent
      commands. */
  predicate Answering(c: Connection) { |AnswersOf(c.heard)| <= c.written }

  ghost predicate AnsweredRun(notify: Notify, c: Connection, steps: seq<Step>)
    requires Runs(notify, c, steps)
    decreases |steps|
  {
    Answering(c) && (|steps| == 0 || AnsweredRun(notify, Next(notify, c, steps[0]), steps[1..]))
  }

  /** Every command written is answered or waiting; nothing was unsolicited. */
  ghost predicate InStep(c: Connection) {
    && c.state != Closed(Protocol)
    && (c.state == Ready ==> c.written == |c.answers| + if c.caller.Awaiting? then 1 else 0)
  }

  lemma {:induction false} AnswersGrow(a: seq<Routed>, b: seq<Routed>)
    ensures |AnswersOf(a)| <= |AnswersOf(a + b)|
    decreases |b|
  {
    if |b| == 0 {
      assert a + b == a;
    } else {
      assert a + b == a + b[..|b| - 1] + [b[|b| - 1]];
      AnswersPush(a + b[..|b| - 1], b[|b| - 1]);
      AnswersGrow(a, b[..|b| - 1]);
    }
  }

  /** With nothing in flight the channel holds at most the ending. */
  lemma IdleChannel(c: Connection)
    requires Inv(c) && Answering(c) && InStep(c) && c.state == Ready && !c.caller.Awaiting?
    ensures forall i :: 0 <= i < |c.channel| ==> c.channel[i].Ended?
  {
    hide AnswersOf, EventsOf;
    AnswersGrow(c.delivered, c.pending);
    forall i | 0 <= i < |c.channel| ensures c.channel[i].Ended? {
      assert c.channel[i] == c.sent[|c.taken| + i];
      assert |c.taken| == |c.answers|;
    }
  }

  lemma {:induction false} DrainedOfEndings(state: ConnectionState, items: seq<Item>)
    requires forall i :: 0 <= i < |items| ==> items[i].Ended?
    requires state != Closed(Protocol)
    ensures Drained(state, items) != Closed(Protocol)
    decreases |items|
  {
    if |items| > 0 {
      DrainedOfEndings(Unexpected(state, items[0]), items[1..]);
    }
  }

  lemma StepStaysInStep(notify: Notify, c: Connection, step: Step)
    requires Inv(c) && Answering(c) && InStep(c) && Enabled(c, step)
    ensures InStep(Next(notify, c, step))
  {
    hide ReaderOk, Fed, RouteAll, Answering;
    match step
    case Call =>
      if c.state == Ready {
        IdleChannel(c);
      }
    case Receive =>
      if c.caller.Failing? {
        IdleChannel(c);
      }
    case Close =>
      if c.state == Ready {
        IdleChannel(c);
        DrainedOfEndings(c.state, c.channel);
      } else {
        DrainedIsClosedOrSame(c.state, c.channel);
      }
    case _ =>
  }

  lemma {:induction false} StaysInStep(notify: Notify, c: Connection, steps: seq<Step>)
    requires Inv(c) && InStep(c) && Runs(notify, c, steps) && AnsweredRun(notify, c, steps)
    ensures InStep(After(notify, c, steps))
    decreases |steps|
  {
    hide ReaderOk, CallerOk, InStep, Answering, Next, Enabled;
    if |steps| > 0 {
      ReaderKeeps(notify, c, steps[0]);
      CallerKeeps(notify, c, steps[0]);
      StepStaysInStep(notify, c, steps[0]);
      StaysInStep(notify, Next(notify, c, steps[0]), steps[1..]);
    }
  }

  /** Why a connection closes. What it takes off the channel out of turn says: a block
      no command asked for is a protocol failure, and an ending is how the read ended.
      With nothing there, it is closed because it was asked to be or because the reader
      is gone. */
  lemma CloseSays(notify: Notify, c: Connection, step: Step)
    requires Inv(c) && Enabled(c, step) && c.state == Ready && Next(notify, c, step).state.Closed?
    ensures var reason := Next(notify, c, step).state.reason;
            if step.Join? || c.channel == [] then
              reason == if step.Join? || step.Close? then DisposedHere else TransportError
            else
              reason == match c.channel[0]
                        case Answer(_) => Protocol
                        case Ended(Eof) => Exit
                        case Ended(ReadFailed) => TransportError
                        case Ended(Disposed) => DisposedHere
  {
    hide ReaderOk, Fed, RouteAll;
    if step.Close? && c.channel != [] {
      DrainedIsClosed(Unexpected(c.state, c.channel[0]), c.channel[1..]);
    }
  }

  lemma {:induction false} DrainedIsClosed(state: ConnectionState, items: seq<Item>)
    requires state.Closed?
    ensures Drained(state, items) == state
    decreases |items|
  {
    if |items| > 0 {
      DrainedIsClosed(state, items[1..]);
    }
  }

  /** When the server settles one block per command, no call ever closes the
      connection as out of step, and while it is up every command written but the
      one in flight has been answered. */
  lemma CommandsAreAnswered(notify: Notify, link: Link, steps: seq<Step>)
    requires Runs(notify, Start(link), steps) && AnsweredRun(notify, Start(link), steps)
    ensures var c := After(notify, Start(link), steps);
            && c.state != Closed(Protocol)
            && (c.state == Ready ==> c.written == |c.answers| + if c.caller.Awaiting? then 1 else 0)
  {
    hide Runs, After, ReaderOk, CallerOk, AnsweredRun;
    StartIsOk(link);
    StaysInStep(notify, Start(link), steps);
  }

  // ---- The first close wins ----

  lemma {:induction false} CloseIsFinal(notify: Notify, c: Connection, steps: seq<Step>)
    requires Inv(c) && Runs(notify, c, steps) && c.state.Closed?
    ensures After(notify, c, steps).state == c.state
    decreases |steps|
  {
    hide ReaderOk, CallerOk, Enabled, Fed, RouteAll;
    if |steps| > 0 {
      ReaderKeeps(notify, c, steps[0]);
      CallerKeeps(notify, c, steps[0]);
      ClosedStays(notify, c, steps[0]);
      CloseIsFinal(notify, Next(notify, c, steps[0]), steps[1..]);
    }
  }

  lemma ClosedStays(notify: Notify, c: Connection, step: Step)
    requires Inv(c) && Enabled(c, step) && c.state.Closed?
    ensures Next(notify, c, step).state == c.state
  {
    hide ReaderOk, Fed, RouteAll;
    DrainedIsClosedOrSame(c.state, c.channel);
  }

  /** A caller left waiting always has something to receive once the reader has
      ended, and a call never finds the reader vanished. */
  lemma NeverVanished(notify: Notify, link: Link, steps: seq<Step>)
    requires Runs(notify, Start(link), steps)
    requires var c := After(notify, Start(link), steps); c.state == Ready && !c.reader.Reading?
    ensures After(notify, Start(link), steps).channel != []
  {
    hide Runs, After, ReaderOk, CallerOk;
    StartIsOk(link);
    RunKeeps(notify, Start(link), steps);
    EndingWaits(After(notify, Start(link), steps));
  }
}
