/** Pane output the whole way: tmux escapes a pane's bytes into one line, and the
    codec, the message parser, the octal decoder and the demultiplexer give them
    back (tmux-control/src/protocol/message.rs and ids.rs). */
module Outputs {
  import opened Wrappers
  import opened Framing
  import opened Blocks
  import opened Octal

  const OUTPUT: Text := [111, 117, 116, 112, 117, 116]

  /** `%N`, as the wire names a pane. */
  function ParsePane(s: Text): (r: Option<nat>) {
    if |s| == 0 || s[0] != PERCENT then None else ParseDecimal(s[1..], U32_MAX)
  }

  function ParseOutput(args: Text): (r: Option<Notice>) {
    var i := SpaceAt(args);
    if i == |args| then None else
    match ParsePane(args[..i])
    case None => None
    case Some(pane) => Some(PaneOutput(pane, Decoded(args[i + 1..])))
  }

  function OutputArgs(pane: nat, wire: Text): Text { [PERCENT] + Decimal(pane) + ([Framing.SPACE] + wire) }

  function OutputLine(pane: nat, wire: Text): Text {
    [PERCENT] + (OUTPUT + ([Framing.SPACE] + OutputArgs(pane, wire)))
  }

  lemma OutputIsParsed(pane: nat, wire: Text)
    requires pane <= U32_MAX
    ensures ParseOutput(OutputArgs(pane, wire)) == Some(PaneOutput(pane, Decoded(wire)))
  {
    hide Decimal, SpaceAt, Decoded;
    var name := [PERCENT] + Decimal(pane);
    var args := OutputArgs(pane, wire);
    DigitsHaveNoSpace(Decimal(pane));
    FirstSpace(name, wire);
    assert args[..|name|] == name && args[|name| + 1..] == wire && name[1..] == Decimal(pane);
    DecimalIsParsed(pane);
  }

  lemma OutputIsRead(pane: nat, wire: Text)
    ensures Words(OutputLine(pane, wire)) == (OUTPUT, OutputArgs(pane, wire))
  {
    hide OutputArgs, SpaceAt;
    var line, args := OutputLine(pane, wire), OutputArgs(pane, wire);
    assert line[1..] == OUTPUT + ([Framing.SPACE] + args);
    FirstSpace(OUTPUT, args);
    assert line[1..1 + |OUTPUT|] == OUTPUT && line[2 + |OUTPUT|..] == args;
  }

  lemma {:induction false} EscapedIsPlain(data: Text)
    ensures LF !in WireEscaped(data) && Framing.CR !in WireEscaped(data)
  {
    if |data| > 0 {
      EscapedIsPlain(data[1..]);
    }
  }

  lemma OutputIsPlain(pane: nat, wire: Text)
    requires LF !in wire && Framing.CR !in wire
    ensures Plain(OutputLine(pane, wire))
  {
    hide Decimal;
    DigitsHaveNoSpace(Decimal(pane));
    var line := OutputLine(pane, wire);
    assert Framing.CR !in line;
    assert |line| > 0 ==> line[|line| - 1] in line;
  }

  lemma OutputIsRouted(notify: Notify, pane: nat, data: Text)
    requires pane <= U32_MAX && notify(OUTPUT, OutputArgs(pane, WireEscaped(data))) == ParseOutput(OutputArgs(pane, WireEscaped(data)))
    ensures var line := OutputLine(pane, WireEscaped(data));
            Writable(Line(line)) && Expected(notify, Line(line)) == Some(PaneBytes(pane, data))
  {
    hide ParseOutput, OutputLine, OutputArgs, Words, Plain, Decoded, WireEscaped;
    var wire := WireEscaped(data);
    EscapedIsPlain(data);
    OutputIsPlain(pane, wire);
    OutputIsRead(pane, wire);
    OutputIsParsed(pane, wire);
    DecodeUndoesEscape(data);
  }

  /** Whatever bytes a pane writes, and however the stream is cut, they are what
      the demultiplexer hands on for that pane, and nothing else is. */
  lemma PaneBytesArrive(notify: Notify, pane: nat, data: Text, chunks: seq<Text>)
    requires forall args :: notify(OUTPUT, args) == ParseOutput(args)
    requires pane <= U32_MAX && Flat(chunks) == OutputLine(pane, WireEscaped(data)) + [LF]
    ensures var (state, messages) := FedAll(notify, State([], None), chunks);
            state == State([], None) && RouteAll([], messages) == ([], [PaneBytes(pane, data)])
  {
    hide OutputLine, WireEscaped, FedAll, RouteAll, Writable, Expected, Flat;
    var line := OutputLine(pane, WireEscaped(data));
    OutputIsRouted(notify, pane, data);
    OneLine(line);
    OneExpected(notify, line);
    StreamComesBack(notify, [Line(line)], chunks);
    assert Only(Some(PaneBytes(pane, data))) == [PaneBytes(pane, data)];
  }

  lemma OneLine(line: Text)
    ensures Rendered([Line(line)]) == line + [LF]
  {
    assert [Line(line)][1..] == [] && AllLines([Line(line)]) == [line] + [] == [line];
    assert [line][1..] == [] && Unlines([line]) == line + [LF] + [];
    assert line + [LF] + [] == line + [LF];
  }

  lemma OneExpected(notify: Notify, line: Text)
    ensures AllExpected(notify, [Line(line)]) == Only(Expected(notify, Line(line)))
  {
    hide Expected;
    assert [Line(line)][1..] == [];
    assert Only(Expected(notify, Line(line))) + [] == Only(Expected(notify, Line(line)));
  }
}
