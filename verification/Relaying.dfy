/** phoenix-restore/src/apply.rs as the words that pass: each step sent as the commands
    it comes to, each reply read for what it reports. Whatever the server, it does to it
    just what the step means. */
module Relaying {
  import opened Wrappers
  import opened Snapshots
  import opened Steps
  import opened Applying
  import opened Sending
  import opened Obeying
  import Blocks
  import C = CommandLines
  import F = Framing
  import P = Planner
  import T = Tmux

  // ---- Sending a step ----

  /** Every reference the step uses stands for something by now. */
  predicate Resolves(b: Bound, step: Step) {
    match step
    case MoveWindow(window, _, _) => window in b.windows
    case LinkWindow(source, _, _, _) => source.Built? ==> source.ref in b.windows
    case SplitPane(from, _, _) => from in b.panes
    case SelectLayout(window, _) => window in b.windows
    case ReplayContent(pane, _) => pane in b.panes
    case Relaunch(pane, _) => pane in b.panes
    case SelectPane(pane) => pane in b.panes
    case SetOption(setting) => setting.WindowMark? ==> setting.ref in b.windows
    case _ => true
  }

  function EnvOf(b: Bound, file: Text, clients: seq<Text>): Env {
    Env(r => if r in b.windows then b.windows[r] else 0, r => if r in b.panes then b.panes[r] else 0, clients, file)
  }

  function IdAt(sigil: Byte, part: Text): Option<Id> { if |part| > 0 && part[0] == sigil then Number(part[1..]) else None }

  /** What a reply binds: the ids on its one line, each where its format puts it. */
  function Learned(b: Bound, step: Step, lines: seq<Text>): Option<Bound> {
    if !step.CreateSession? && !step.NewWindow? && !step.SplitPane? then Some(b)
    else if |lines| != 1 then None
    else
      var parts := F.Split(lines[0]);
      match step
      case CreateSession(_, _, _, window, pane) =>
        if |parts| != 3 || IdAt(DOLLAR, parts[0]).None? || IdAt(AT, parts[1]).None? || IdAt(F.PERCENT, parts[2]).None? then None
        else Some(Bound(b.windows[window := IdAt(AT, parts[1]).value], b.panes[pane := IdAt(F.PERCENT, parts[2]).value]))
      case NewWindow(_, _, _, _, window, pane) =>
        if |parts| != 2 || IdAt(AT, parts[0]).None? || IdAt(F.PERCENT, parts[1]).None? then None
        else Some(Bound(b.windows[window := IdAt(AT, parts[0]).value], b.panes[pane := IdAt(F.PERCENT, parts[1]).value]))
      case SplitPane(_, _, pane) =>
        if |parts| != 1 || IdAt(F.PERCENT, parts[0]).None? then None
        else Some(b.(panes := b.panes[pane := IdAt(F.PERCENT, parts[0]).value]))
      case _ => Some(b)
  }

  /** The commands one after another, for as long as none is refused. */
  function ObeyedAll(a: Around, s: T.Server, commands: seq<seq<Text>>): Option<T.Server>
    decreases |commands|
  {
    if |commands| == 0 then Some(s) else
    match Obeyed(a, s, commands[0])
    case None => None
    case Some(answer) => ObeyedAll(a, answer.server, commands[1..])
  }

  /** What is around while a step is sent: its own file is there to be read. */
  function Beside(a: Around, file: Text, step: Step): Around {
    if step.ReplayContent? then a.(disk := a.disk[file := step.lines]) else a
  }

  /** The step as sent: its first command, then those its reply gives rise to. */
  function Sent(a: Around, file: Text, m: Machine, step: Step): Outcome {
    if !Resolves(m.bound, step) then Unbound else
    var beside := Beside(a, file, step);
    match Obeyed(beside, m.server, Commands(EnvOf(m.bound, file, []), step)[0])
    case None => Refused
    case Some(first) =>
      match ObeyedAll(beside, first.server, Commands(EnvOf(m.bound, file, first.lines), step)[1..])
      case None => Refused
      case Some(server) =>
        match Learned(m.bound, step, first.lines)
        case None => Refused
        case Some(bound) => Ran(Machine(server, bound))
  }

  /** Steps sent one after another, for as long as none fails. */
  function SentAll(a: Around, file: Text, m: Machine, steps: seq<Step>): Outcome {
    if |steps| == 0 then Ran(m)
    else
      match SentAll(a, file, m, steps[..|steps| - 1])
      case Ran(before) => Sent(a, file, before, steps[|steps| - 1])
      case Refused => Refused
      case Unbound => Unbound
  }

  // ---- When a step can be said ----

  /** The sessions it names can be addressed, and a layout is not taken for a flag. */
  predicate Sayable(step: Step) {
    match step
    case MoveWindow(_, session, _) => P.Addressable(session)
    case NewWindow(session, _, _, _, _, _) => P.Addressable(session)
    case LinkWindow(_, into, _, _) => P.Addressable(into)
    case SelectLayout(_, layout) => !Dashed(layout)
    case SelectWindow(session, _) => P.Addressable(session)
    case SetOption(setting) => setting.SessionMark? ==> P.Addressable(setting.session)
    case SwitchClients(leaving, onto) => P.Addressable(leaving) && P.Addressable(onto)
    case KillSession(name) => P.Addressable(name)
    case _ => true
  }

  /** Each client once. */
  ghost predicate Orders(order: seq<Text>, clients: map<Text, Text>) {
    Distinct(order) && forall c :: c in order <==> c in clients
  }

  // ---- One lemma a command ----

  lemma ReportReads(shape: Shape, format: string)
    requires forall i :: 0 <= i < |format| ==> 0 < format[i] as int < 128
    requires 'P' in shape.bare && 'F' in shape.valued && 'F' !in shape.bare
    ensures OptionsOf(shape, [Fixed("-P"), Fixed("-F"), Fixed(format)])
            == Some(Options({'P'}, map['F' := Fixed(format)], []))
  {
    hide OptionsOf;
    FlagIs("-P");
    FlagIs("-F");
    RestReads(shape, []);
    ValuedReads(shape, 'F', Fixed(format), []);
    assert [Dash('F'), Fixed(format)] + [] == [Dash('F'), Fixed(format)];
    BareReads(shape, 'P', [Dash('F'), Fixed(format)]);
    assert [Dash('P')] + [Dash('F'), Fixed(format)] == [Fixed("-P"), Fixed("-F"), Fixed(format)];
    var none: map<char, Text> := map[];
    assert none['F' := Fixed(format)] == map['F' := Fixed(format)];
    assert {} + {'P'} == {'P'};
  }

  /** The flags of what makes a session, a window or a pane, the last of them to ask
      for a report. */
  ghost predicate Made(o: Options, title: Option<Text>, cwd: Option<Text>, format: string)
    requires forall i :: 0 <= i < |format| ==> 0 < format[i] as int < 128
  {
    && o.flags == {'d', 'P'} && o.rest == []
    && ValueOf(o, 'n') == title && ValueOf(o, 'c') == cwd && ValueOf(o, 'F') == Some(Fixed(format))
  }

  /** A named flag, then a title and a directory if there are any, then the report. */
  lemma MakingReads(shape: Shape, c: char, value: Text, title: Option<Text>, cwd: Option<Text>, format: string)
    returns (more: seq<Text>, o: Options)
    requires forall i :: 0 <= i < |format| ==> 0 < format[i] as int < 128
    requires shape.bare == {'d', 'P'} && {c, 'c', 'F'} <= shape.valued && (title.Some? ==> 'n' in shape.valued)
    requires 0 < c as int < 128 && c !in {'d', 'P', 'n', 'c', 'F'}
    ensures more == [Fixed("-d"), Dash(c), value] + Flag(Fixed("-n"), title) + Flag(Fixed("-c"), cwd)
                    + [Fixed("-P"), Fixed("-F"), Fixed(format)]
    ensures OptionsOf(shape, more) == Some(o) && Made(o, title, cwd, format) && ValueOf(o, c) == Some(value)
  {
    hide OptionsOf, Fixed, Flag;
    var tail := [Fixed("-P"), Fixed("-F"), Fixed(format)];
    ReportReads(shape, format);
    FlagIs("-d");
    FlagIs("-n");
    FlagIs("-c");
    IfGivenReads(shape, 'c', cwd, tail);
    var placed := Flag(Dash('c'), cwd) + tail;
    if title.None? {
      NoFlag(Dash('n'), title, placed);
    } else {
      IfGivenReads(shape, 'n', title, placed);
    }
    var given := Flag(Dash('n'), title) + placed;
    ValuedReads(shape, c, value, given);
    BareReads(shape, 'd', [Dash(c), value] + given);
    more := [Dash('d')] + ([Dash(c), value] + given);
    o := OptionsOf(shape, more).value;
    assert more == [Fixed("-d"), Dash(c), value] + Flag(Fixed("-n"), title) + Flag(Fixed("-c"), cwd) + tail;
  }

  lemma NoFlag(flag: Text, value: Option<Text>, rest: seq<Text>)
    requires value.None?
    ensures Flag(flag, value) + rest == rest
  {}

  lemma CreateObeyed(a: Around, s: T.Server, name: Text, title: Option<Text>, cwd: Option<Text>)
    ensures Obeyed(a, s, Create(name, title, cwd))
            == match T.NewSession(s, name, title, cwd)
               case None => None
               case Some(c) => Some(Answer(c.server, [SessionLine(a.session, c.window, c.pane)]))
  {
    hide OptionsOf, Fixed, CommandOf, Flag, T.NewSession, SessionLine, Spelt;
    var format := "#{session_id} #{window_id} #{pane_id}";
    var more, o := MakingReads(ShapeOf(NewSessionCommand), 's', name, title, cwd, format);
    FlagIs("-s");
    NewSessionReads();
    SpeltBack(format);
    assert Create(name, title, cwd) == [Fixed("new-session")] + more;
    ObeyedIs(a, s, Create(name, title, cwd), Fixed("new-session"), NewSessionCommand, more, o);
  }

  lemma OpenObeyed(a: Around, s: T.Server, session: Text, index: Index, title: Text, cwd: Option<Text>)
    ensures Obeyed(a, s, Open(session, index, title, cwd))
            == if !P.Addressable(session) then None
               else match T.NewWindow(s, session, index, title, cwd)
                    case None => None
                    case Some(c) => Some(Answer(c.server, [WindowLine(c.window, c.pane)]))
  {
    hide OptionsOf, Fixed, CommandOf, Flag, T.NewWindow, WindowLine, Spelt, AtIndex, TargetOf, P.Addressable;
    var format := "#{window_id} #{pane_id}";
    var more, o := MakingReads(ShapeOf(NewWindowCommand), 't', AtIndex(session, index), Some(title), cwd, format);
    FlagIs("-t");
    NewWindowReads();
    SpeltBack(format);
    IndexReads(session, index);
    assert Open(session, index, title, cwd) == [Fixed("new-window")] + more;
    ObeyedIs(a, s, Open(session, index, title, cwd), Fixed("new-window"), NewWindowCommand, more, o);
  }

  lemma SplitObeyed(a: Around, s: T.Server, from: Id, cwd: Option<Text>)
    ensures Obeyed(a, s, Split(from, cwd))
            == match T.SplitWindow(s, from, cwd)
               case None => None
               case Some((after, p)) => Some(Answer(after, [AtPane(p)]))
  {
    hide OptionsOf, Fixed, CommandOf, Flag, T.SplitWindow, Spelt, AtPane, TargetOf;
    var format := "#{pane_id}";
    var more, o := MakingReads(ShapeOf(SplitWindowCommand), 't', AtPane(from), None, cwd, format);
    FlagIs("-t");
    SplitWindowReads();
    SpeltBack(format);
    PaneReads(from);
    NoFlag(Fixed("-n"), None, Flag(Fixed("-c"), cwd) + [Fixed("-P"), Fixed("-F"), Fixed(format)]);
    assert Split(from, cwd) == [Fixed("split-window")] + more;
    ObeyedIs(a, s, Split(from, cwd), Fixed("split-window"), SplitWindowCommand, more, o);
  }

  /** A target, and then words that are no flags. */
  lemma TargetReads(shape: Shape, target: Text, rest: seq<Text>)
    requires 't' in shape.valued && 't' !in shape.bare && (|rest| > 0 ==> !Dashed(rest[0]))
    ensures OptionsOf(shape, [Fixed("-t"), target] + rest) == Some(Options({}, map['t' := target], rest))
  {
    hide OptionsOf;
    FlagIs("-t");
    RestReads(shape, rest);
    ValuedReads(shape, 't', target, rest);
    var none: map<char, Text> := map[];
    assert none['t' := target] == map['t' := target];
  }

  /** A window moved or linked: where from, then where to. */
  lemma FromToReads(shape: Shape, source: Text, target: Text, kill: bool) returns (more: seq<Text>, o: Options)
    requires shape.valued == {'s', 't'} && 'd' in shape.bare && shape.bare <= {'d', 'k'} && (kill ==> 'k' in shape.bare)
    ensures more == (if kill then [Fixed("-k")] else []) + [Fixed("-d"), Fixed("-s"), source, Fixed("-t"), target]
    ensures OptionsOf(shape, more) == Some(o)
    ensures 'd' in o.flags && (kill <==> 'k' in o.flags) && o.rest == []
    ensures ValueOf(o, 's') == Some(source) && ValueOf(o, 't') == Some(target)
  {
    hide OptionsOf, Fixed;
    FlagIs("-k");
    FlagIs("-d");
    FlagIs("-s");
    TargetReads(shape, target, []);
    var at := [Fixed("-t"), target] + [];
    ValuedReads(shape, 's', source, at);
    BareReads(shape, 'd', [Dash('s'), source] + at);
    more := [Dash('d')] + ([Dash('s'), source] + at);
    if kill {
      BareReads(shape, 'k', more);
      more := [Dash('k')] + more;
    }
    o := OptionsOf(shape, more).value;
  }

  lemma MoveObeyed(a: Around, s: T.Server, v: Id, session: Text, to: Index)
    ensures Obeyed(a, s, [Fixed("move-window"), Fixed("-d"), Fixed("-s"), AtWindow(v), Fixed("-t"), AtIndex(session, to)])
            == if P.Addressable(session) then Quietly(T.MoveWindow(s, v, session, to)) else None
  {
    hide OptionsOf, Fixed, CommandOf, T.MoveWindow, Spelt, AtIndex, AtWindow, TargetOf, P.Addressable;
    var words := [Fixed("move-window"), Fixed("-d"), Fixed("-s"), AtWindow(v), Fixed("-t"), AtIndex(session, to)];
    var more, o := FromToReads(ShapeOf(MoveWindowCommand), AtWindow(v), AtIndex(session, to), false);
    MoveWindowReads();
    WindowReads(v);
    IndexReads(session, to);
    assert words == [Fixed("move-window")] + more;
    ObeyedIs(a, s, words, Fixed("move-window"), MoveWindowCommand, more, o);
  }

  lemma LinkObeyed(a: Around, s: T.Server, v: Id, into: Text, index: Index, kill: bool)
    ensures Obeyed(a, s, Link(v, into, index, kill))
            == if P.Addressable(into) then Quietly(T.LinkWindow(s, v, into, index, kill)) else None
  {
    hide OptionsOf, Fixed, CommandOf, T.LinkWindow, Spelt, AtIndex, AtWindow, TargetOf, P.Addressable;
    var more, o := FromToReads(ShapeOf(LinkWindowCommand), AtWindow(v), AtIndex(into, index), kill);
    LinkWindowReads();
    WindowReads(v);
    IndexReads(into, index);
    assert Link(v, into, index, kill) == [Fixed("link-window")] + more;
    ObeyedIs(a, s, Link(v, into, index, kill), Fixed("link-window"), LinkWindowCommand, more, o);
  }

  lemma DashedReads(layout: Text, target: Text)
    requires Dashed(layout)
    ensures OptionsOf(ShapeOf(SelectLayoutCommand), [Dash('t'), target, layout]) == None
  {
    var shape := ShapeOf(SelectLayoutCommand);
    LetterOf('t');
    var words := [Dash('t'), target, layout];
    assert words[2..] == [layout];
    assert [layout][1..] == [];
    assert OptionsOf(shape, [layout]) == None;
  }

  /** A layout that begins as a flag does is taken for one. */
  lemma LayoutObeyed(a: Around, s: T.Server, v: Id, layout: Text)
    ensures Obeyed(a, s, [Fixed("select-layout"), Fixed("-t"), AtWindow(v), layout])
            == if Dashed(layout) then None else Quietly(T.SelectLayout(s, v, layout))
  {
    hide OptionsOf, Fixed, CommandOf, T.SelectLayout, Spelt, AtWindow, TargetOf;
    var words := [Fixed("select-layout"), Fixed("-t"), AtWindow(v), layout];
    SelectLayoutReads();
    if Dashed(layout) {
      FlagIs("-t");
      DashedReads(layout, AtWindow(v));
      assert words[1..] == [Dash('t'), AtWindow(v), layout];
    } else {
      TargetReads(ShapeOf(SelectLayoutCommand), AtWindow(v), [layout]);
      WindowReads(v);
      assert words == [Fixed("select-layout")] + ([Fixed("-t"), AtWindow(v)] + [layout]);
      ObeyedIs(a, s, words, Fixed("select-layout"), SelectLayoutCommand, [Fixed("-t"), AtWindow(v)] + [layout],
               Options({}, map['t' := AtWindow(v)], [layout]));
    }
  }

  lemma KeysObeyed(a: Around, s: T.Server, p: Id, line: Text)
    requires Literal(line) && !Dashed(line)
    ensures Obeyed(a, s, C.TypeLine(AtPane(p), line)) == Quietly(T.TypeInto(s, p, Obeying.Ran(a.disk, line)))
  {
    hide OptionsOf, Fixed, CommandOf, T.TypeInto, Spelt, AtPane, TargetOf, Obeying.Ran, Literal;
    var words := [Fixed("send-keys"), Fixed("-t"), AtPane(p), line, Fixed("Enter")];
    TypeLineIs(AtPane(p), line);
    TargetReads(ShapeOf(SendKeysCommand), AtPane(p), [line, Fixed("Enter")]);
    SendKeysReads();
    SpeltBack("Enter");
    PaneReads(p);
    assert words == [Fixed("send-keys")] + ([Fixed("-t"), AtPane(p)] + [line, Fixed("Enter")]);
    ObeyedIs(a, s, words, Fixed("send-keys"), SendKeysCommand, [Fixed("-t"), AtPane(p)] + [line, Fixed("Enter")],
             Options({}, map['t' := AtPane(p)], [line, Fixed("Enter")]));
  }

  lemma TypeLineIs(pane: Text, line: Text)
    ensures C.TypeLine(pane, line) == [Fixed("send-keys"), Fixed("-t"), pane, line, Fixed("Enter")]
  {}

  lemma PaneObeyed(a: Around, s: T.Server, p: Id)
    ensures Obeyed(a, s, [Fixed("select-pane"), Fixed("-t"), AtPane(p)]) == Quietly(T.SelectPane(s, p))
  {
    hide OptionsOf, Fixed, CommandOf, T.SelectPane, Spelt, AtPane, TargetOf;
    var words := [Fixed("select-pane"), Fixed("-t"), AtPane(p)];
    TargetReads(ShapeOf(SelectPaneCommand), AtPane(p), []);
    SelectPaneReads();
    PaneReads(p);
    assert words == [Fixed("select-pane")] + ([Fixed("-t"), AtPane(p)] + []);
    ObeyedIs(a, s, words, Fixed("select-pane"), SelectPaneCommand, [Fixed("-t"), AtPane(p)] + [],
             Options({}, map['t' := AtPane(p)], []));
  }

  lemma ShowObeyed(a: Around, s: T.Server, session: Text, index: Index)
    ensures Obeyed(a, s, [Fixed("select-window"), Fixed("-t"), AtIndex(session, index)])
            == if P.Addressable(session) then Quietly(T.SelectWindow(s, session, index)) else None
  {
    hide OptionsOf, Fixed, CommandOf, T.SelectWindow, Spelt, AtIndex, TargetOf, P.Addressable;
    var words := [Fixed("select-window"), Fixed("-t"), AtIndex(session, index)];
    TargetReads(ShapeOf(SelectWindowCommand), AtIndex(session, index), []);
    SelectWindowReads();
    IndexReads(session, index);
    assert words == [Fixed("select-window")] + ([Fixed("-t"), AtIndex(session, index)] + []);
    ObeyedIs(a, s, words, Fixed("select-window"), SelectWindowCommand, [Fixed("-t"), AtIndex(session, index)] + [],
             Options({}, map['t' := AtIndex(session, index)], []));
  }

  lemma KillObeyed(a: Around, s: T.Server, name: Text)
    ensures Obeyed(a, s, [Fixed("kill-session"), Fixed("-t"), AtSession(name)])
            == if P.Addressable(name) then Quietly(T.KillSession(s, name)) else None
  {
    hide OptionsOf, Fixed, CommandOf, T.KillSession, Spelt, AtSession, TargetOf, P.Addressable;
    var words := [Fixed("kill-session"), Fixed("-t"), AtSession(name)];
    TargetReads(ShapeOf(KillSessionCommand), AtSession(name), []);
    KillSessionReads();
    SessionReads(name);
    assert words == [Fixed("kill-session")] + ([Fixed("-t"), AtSession(name)] + []);
    ObeyedIs(a, s, words, Fixed("kill-session"), KillSessionCommand, [Fixed("-t"), AtSession(name)] + [],
             Options({}, map['t' := AtSession(name)], []));
  }

  // ---- Options set ----

  lemma OptionReads(words: seq<Text>, more: seq<Text>, a: Around, s: T.Server, o: Options)
    requires words == [Fixed("set-option")] + more && OptionsOf(ShapeOf(SetOptionCommand), more) == Some(o)
    ensures Obeyed(a, s, words) == Quietly(SettingOption(s, o))
  {
    hide OptionsOf, Fixed, CommandOf, Spelt, SettingOption;
    SetOptionReads();
    ObeyedIs(a, s, words, Fixed("set-option"), SetOptionCommand, more, o);
  }

  lemma AtWordIsNoFlag(key: string)
    requires |key| > 0 && key[0] == '@' && forall i :: 0 <= i < |key| ==> 0 < key[i] as int < 128
    ensures !Dashed(Fixed(key))
  {
    assert Fixed(key)[0] == AT;
  }

  lemma ServerMarkObeyed(a: Around, s: T.Server, g: Generation)
    ensures Obeyed(a, s, [Fixed("set-option"), Fixed("-s"), Fixed("@phoenix-generation"), Signed(g)])
            == Quietly(T.MarkServer(s, g))
  {
    hide OptionsOf, Fixed, Spelt, Signed, SignedNumber, Dashed;
    var shape := ShapeOf(SetOptionCommand);
    var rest := [Fixed("@phoenix-generation"), Signed(g)];
    FlagIs("-s");
    AtWordIsNoFlag("@phoenix-generation");
    RestReads(shape, rest);
    BareReads(shape, 's', rest);
    SpeltBack("@phoenix-generation");
    SignedReads(g);
    var words := [Fixed("set-option"), Fixed("-s"), Fixed("@phoenix-generation"), Signed(g)];
    assert {} + {'s'} == {'s'};
    assert words == [Fixed("set-option")] + ([Dash('s')] + rest);
    OptionReads(words, [Dash('s')] + rest, a, s, Options({'s'}, map[], rest));
  }

  lemma SessionMarkObeyed(a: Around, s: T.Server, session: Text, g: Generation)
    ensures Obeyed(a, s, [Fixed("set-option"), Fixed("-t"), AtSession(session), Fixed("@phoenix-restored"), Signed(g)])
            == if P.Addressable(session) then Quietly(T.MarkSession(s, session, g)) else None
  {
    hide OptionsOf, Fixed, Spelt, Signed, SignedNumber, Dashed, AtSession, TargetOf, T.MarkSession, P.Addressable;
    var rest := [Fixed("@phoenix-restored"), Signed(g)];
    AtWordIsNoFlag("@phoenix-restored");
    TargetReads(ShapeOf(SetOptionCommand), AtSession(session), rest);
    SpeltBack("@phoenix-restored");
    SessionReads(session);
    SignedReads(g);
    var words := [Fixed("set-option"), Fixed("-t"), AtSession(session), Fixed("@phoenix-restored"), Signed(g)];
    assert words == [Fixed("set-option")] + ([Fixed("-t"), AtSession(session)] + rest);
    OptionReads(words, [Fixed("-t"), AtSession(session)] + rest, a, s, Options({}, map['t' := AtSession(session)], rest));
  }

  lemma WindowMarkObeyed(a: Around, s: T.Server, v: Id, g: Generation, saved: Id)
    ensures Obeyed(a, s, [Fixed("set-option"), Fixed("-w"), Fixed("-t"), AtWindow(v), Fixed("@phoenix-window"),
                          Signed(g) + Fixed(":@") + Decimal(saved)])
            == Quietly(T.MarkWindow(s, v, g, saved))
  {
    hide OptionsOf, Fixed, Spelt, Signed, MarkOf, Dashed, AtWindow, TargetOf, T.MarkWindow, Decimal;
    var shape := ShapeOf(SetOptionCommand);
    var value := Signed(g) + Fixed(":@") + Decimal(saved);
    var rest := [Fixed("@phoenix-window"), value];
    AtWordIsNoFlag("@phoenix-window");
    FlagIs("-w");
    TargetReads(shape, AtWindow(v), rest);
    var more := [Fixed("-t"), AtWindow(v)] + rest;
    BareReads(shape, 'w', more);
    SpeltBack("@phoenix-window");
    WindowReads(v);
    MarkReads(g, saved);
    var words := [Fixed("set-option"), Fixed("-w"), Fixed("-t"), AtWindow(v), Fixed("@phoenix-window"), value];
    assert {} + {'w'} == {'w'};
    assert words == [Fixed("set-option")] + ([Dash('w')] + more);
    OptionReads(words, [Dash('w')] + more, a, s, Options({'w'}, map['t' := AtWindow(v)], rest));
  }

  /** A window's mark is read back as the generation and the saved window. */
  lemma MarkReads(g: Generation, saved: Id)
    ensures MarkOf(Signed(g) + Fixed(":@") + Decimal(saved)) == Some((g, saved))
  {
    hide Signed, SignedNumber, Decimal, TargetOf, ColonAt;
    var tail := [COLON] + AtWindow(saved);
    assert Fixed(":@") == [COLON, AT] && Fixed("@") == [AT];
    assert Signed(g) + Fixed(":@") + Decimal(saved) == Signed(g) + tail;
    SignedHasNoColon(g);
    NameIsCut(Signed(g), tail);
    assert tail[1..] == AtWindow(saved);
    SignedReads(g);
    WindowReads(saved);
  }

  lemma SignedHasNoColon(g: int)
    ensures COLON !in Signed(g)
  {
    var digits := Blocks.Decimal(if g < 0 then -g else g);
    assert forall i :: 0 <= i < |digits| ==> F.IsDigit(digits[i]);
    assert Fixed("-") == [MINUS];
  }

  // ---- Clients ----

  lemma ListingObeyed(a: Around, s: T.Server, leaving: Text)
    ensures Obeyed(a, s, Listing(leaving))
            == if P.Addressable(leaving) && leaving in s.sessions
               then Some(Answer(s, Among(s.clients, a.listing(s.clients), leaving))) else None
  {
    hide OptionsOf, Fixed, CommandOf, Spelt, AtSession, TargetOf, P.Addressable, Among;
    var shape := ShapeOf(ListClientsCommand);
    FlagIs("-t");
    FlagIs("-F");
    RestReads(shape, []);
    ValuedReads(shape, 'F', Fixed("#{client_name}"), []);
    var format := [Dash('F'), Fixed("#{client_name}")] + [];
    ValuedReads(shape, 't', AtSession(leaving), format);
    var more := [Dash('t'), AtSession(leaving)] + format;
    var o := OptionsOf(shape, more).value;
    ListClientsReads();
    SpeltBack("#{client_name}");
    SessionReads(leaving);
    assert Listing(leaving) == [Fixed("list-clients")] + more;
    ObeyedIs(a, s, Listing(leaving), Fixed("list-clients"), ListClientsCommand, more, o);
  }

  lemma SwitchObeyed(a: Around, s: T.Server, client: Text, onto: Text)
    requires P.Addressable(onto)
    ensures Obeyed(a, s, Switch(client, onto)) == Quietly(SwitchClient(s, client, onto))
  {
    hide OptionsOf, Fixed, CommandOf, Spelt, AtSession, TargetOf, P.Addressable, SwitchClient;
    var shape := ShapeOf(SwitchClientCommand);
    FlagIs("-c");
    TargetReads(shape, AtSession(onto), []);
    var at := [Fixed("-t"), AtSession(onto)] + [];
    ValuedReads(shape, 'c', client, at);
    var more := [Dash('c'), client] + at;
    var o := OptionsOf(shape, more).value;
    SwitchClientReads();
    SessionReads(onto);
    assert Switch(client, onto) == [Fixed("switch-client")] + more;
    ObeyedIs(a, s, Switch(client, onto), Fixed("switch-client"), SwitchClientCommand, more, o);
  }

  // ---- Lines typed ----

  /** A quote closed over, escaped and reopened is one quote. */
  lemma QuotedQuote(acc: Text, more: Text)
    ensures Lexed(true, true, acc, [QUOTE, BACKSLASH, QUOTE, QUOTE] + more) == Lexed(true, true, acc + [QUOTE], more)
  {
    var all := [QUOTE, BACKSLASH, QUOTE, QUOTE] + more;
    assert all[1..] == [BACKSLASH, QUOTE, QUOTE] + more;
    assert all[1..][2..] == [QUOTE] + more;
    assert ([QUOTE] + more)[1..] == more;
    assert Lexed(true, true, acc, all) == Lexed(false, true, acc, all[1..]) == Lexed(false, true, acc + [QUOTE], [QUOTE] + more);
  }

  lemma {:induction false} InnerReads(acc: Text, s: Text, rest: Text)
    ensures Lexed(true, true, acc, QuoteInner(s) + [QUOTE] + rest) == Lexed(false, true, acc + s, rest)
    decreases |s|
  {
    var all := QuoteInner(s) + [QUOTE] + rest;
    if |s| == 0 {
      assert all[1..] == rest && acc + s == acc;
    } else {
      var more := QuoteInner(s[1..]) + [QUOTE] + rest;
      InnerReads(acc + [s[0]], s[1..], rest);
      assert acc + [s[0]] + s[1..] == acc + s;
      if s[0] == QUOTE {
        assert all == [QUOTE, BACKSLASH, QUOTE, QUOTE] + more;
        QuotedQuote(acc, more);
      } else {
        assert all[1..] == more;
      }
    }
  }

  lemma QuoteLexes(s: Text, rest: Text)
    ensures Lexed(false, false, [], ShellQuote(s) + rest) == Lexed(false, true, s, rest)
  {
    var all := ShellQuote(s) + rest;
    assert all[1..] == QuoteInner(s) + [QUOTE] + rest;
    InnerReads([], s, rest);
    assert [] + s == s;
  }

  lemma {:induction false} PlainLexes(acc: Text, w: Text, rest: Text)
    requires |w| > 0 && forall i :: 0 <= i < |w| ==> IsPlain(w[i])
    ensures Lexed(false, acc != [], acc, w + rest) == Lexed(false, true, acc + w, rest)
    decreases |w|
  {
    var all := w + rest;
    assert all[1..] == w[1..] + rest;
    assert IsPlain(w[0]);
    if |w| == 1 {
      assert w[1..] + rest == rest && w == [w[0]];
    } else {
      PlainLexes(acc + [w[0]], w[1..], rest);
      assert acc + [w[0]] + w[1..] == acc + w;
    }
  }

  lemma BreakLexes(acc: Text, b: Byte, rest: Text)
    requires b == SPACE || b == SEMICOLON
    requires Lexed(false, false, [], rest).Some?
    ensures Lexed(false, true, acc, [b] + rest)
            == Some([Word(acc)] + (if b == SEMICOLON then [Semi] else []) + Lexed(false, false, [], rest).value)
    ensures Lexed(false, false, [], [b] + rest)
            == Some((if b == SEMICOLON then [Semi] else []) + Lexed(false, false, [], rest).value)
  {
    assert ([b] + rest)[1..] == rest;
    var (sep, more) := (if b == SEMICOLON then [Semi] else [], Lexed(false, false, [], rest).value);
    assert [] + sep + more == sep + more;
  }

  lemma WordLexes(w: Text, rest: Text)
    requires |w| > 0 && forall i :: 0 <= i < |w| ==> IsPlain(w[i])
    ensures Lexed(false, false, [], w + rest) == Lexed(false, true, w, rest)
  {
    PlainLexes([], w, rest);
    assert [] + w == w;
  }

  /** A relaunch line is the saved arguments, one word each, and one command. */
  lemma {:induction false} RelaunchLexes(argv: seq<Text>)
    requires |argv| > 0
    ensures Lexed(false, false, [], RelaunchLine(argv)) == Some(seq(|argv|, i requires 0 <= i < |argv| => Word(argv[i])))
    decreases |argv|
  {
    hide Lexed, ShellQuote;
    if |argv| == 1 {
      QuoteLexes(argv[0], []);
      assert ShellQuote(argv[0]) + [] == ShellQuote(argv[0]);
      WordEnds(argv[0]);
      assert [Word(argv[0])] == seq(|argv|, i requires 0 <= i < |argv| => Word(argv[i]));
    } else {
      var more := RelaunchLine(argv[1..]);
      RelaunchLexes(argv[1..]);
      QuoteLexes(argv[0], [SPACE] + more);
      BreakLexes(argv[0], SPACE, more);
      assert RelaunchLine(argv) == ShellQuote(argv[0]) + ([SPACE] + more);
      var rest := argv[1..];
      assert [Word(argv[0])] + [] + seq(|rest|, i requires 0 <= i < |rest| => Word(rest[i]))
          == seq(|argv|, i requires 0 <= i < |argv| => Word(argv[i]));
    }
  }

  lemma WordEnds(acc: Text)
    ensures Lexed(false, true, acc, []) == Some([Word(acc)])
  {}

  lemma RelaunchIsTyped(disk: map<Text, seq<Text>>, argv: seq<Text>)
    ensures Obeying.Ran(disk, RelaunchLine(argv)) == T.Line(RelaunchLine(argv))
    ensures Literal(RelaunchLine(argv)) && !Dashed(RelaunchLine(argv))
  {
    hide Lexed;
    if |argv| > 0 {
      RelaunchLexes(argv);
      assert RelaunchLine(argv)[0] == QUOTE;
    } else {
      NothingLexes();
    }
  }

  lemma NothingLexes()
    ensures Lexed(false, false, [], []) == Some([])
  {}

  function Removing(file: Text): Text { Fixed("rm") + ([SPACE] + (Fixed("-f") + ([SPACE] + ShellQuote(file)))) }

  lemma ReplayParts(file: Text)
    ensures Replaying(file) == Fixed("cat") + ([SPACE] + (ShellQuote(file) + ([SEMICOLON] + ([SPACE] + Removing(file)))))
  {
    hide ShellQuote;
    var q := ShellQuote(file);
    assert Fixed("cat ") == Fixed("cat") + [SPACE];
    assert Fixed("; rm -f ") == [SEMICOLON] + ([SPACE] + (Fixed("rm") + ([SPACE] + (Fixed("-f") + [SPACE]))));
  }

  lemma PlainWords()
    ensures forall i :: 0 <= i < |Fixed("cat")| ==> IsPlain(Fixed("cat")[i])
    ensures forall i :: 0 <= i < |Fixed("rm")| ==> IsPlain(Fixed("rm")[i])
    ensures forall i :: 0 <= i < |Fixed("-f")| ==> IsPlain(Fixed("-f")[i])
    ensures |Fixed("cat")| == 3 && |Fixed("rm")| == 2 && |Fixed("-f")| == 2
  {}

  lemma RemovingLexes(file: Text)
    ensures Lexed(false, false, [], Removing(file)) == Some([Word(Fixed("rm")), Word(Fixed("-f")), Word(file)])
  {
    hide Lexed, ShellQuote, Fixed, IsPlain;
    PlainWords();
    var last := ShellQuote(file);
    QuoteLexes(file, []);
    assert last + [] == last;
    WordEnds(file);
    BreakLexes(Fixed("-f"), SPACE, last);
    WordLexes(Fixed("-f"), [SPACE] + last);
    var force := Fixed("-f") + ([SPACE] + last);
    assert [Word(Fixed("-f"))] + [] + [Word(file)] == [Word(Fixed("-f")), Word(file)];
    BreakLexes(Fixed("rm"), SPACE, force);
    WordLexes(Fixed("rm"), [SPACE] + force);
    assert [Word(Fixed("rm"))] + [] + [Word(Fixed("-f")), Word(file)] == [Word(Fixed("rm")), Word(Fixed("-f")), Word(file)];
  }

  /** The line that replays a file is two commands on the file it was given: it is
      printed, and then it is removed. */
  lemma ReplayLexes(file: Text)
    ensures Lexed(false, false, [], Replaying(file))
            == Some([Word(Fixed("cat")), Word(file), Semi, Word(Fixed("rm")), Word(Fixed("-f")), Word(file)])
  {
    hide Lexed, ShellQuote, Fixed, IsPlain, Replaying, Removing;
    PlainWords();
    ReplayParts(file);
    RemovingLexes(file);
    BreakLexes([], SPACE, Removing(file));
    var after := [SPACE] + Removing(file);
    var removed := [Word(Fixed("rm")), Word(Fixed("-f")), Word(file)];
    assert [] + removed == removed;
    BreakLexes(file, SEMICOLON, after);
    assert [Word(file)] + [Semi] + removed == [Word(file), Semi] + removed;
    QuoteLexes(file, [SEMICOLON] + after);
    var shown := ShellQuote(file) + ([SEMICOLON] + after);
    BreakLexes(Fixed("cat"), SPACE, shown);
    WordLexes(Fixed("cat"), [SPACE] + shown);
    assert [Word(Fixed("cat"))] + [] + ([Word(file), Semi] + removed)
        == [Word(Fixed("cat")), Word(file), Semi, Word(Fixed("rm")), Word(Fixed("-f")), Word(file)];
  }

  lemma ReplayIsShown(disk: map<Text, seq<Text>>, file: Text)
    requires file in disk
    ensures Obeying.Ran(disk, Replaying(file)) == T.Replayed(disk[file])
    ensures Literal(Replaying(file)) && !Dashed(Replaying(file))
  {
    hide Lexed, ShellQuote, Spelt, Fixed;
    ReplayLexes(file);
    SpeltBack("cat");
    SpeltBack("rm");
    SpeltBack("-f");
    ReplayStarts(file);
  }

  lemma ReplayStarts(file: Text)
    ensures Literal(Replaying(file)) && !Dashed(Replaying(file))
  {
    hide ShellQuote;
    assert Replaying(file)[0] == 99 && Replaying(file)[3] == SPACE;
  }

  // ---- What a reply binds ----

  lemma IdReads(sigil: Byte, id: Id)
    ensures IdAt(sigil, [sigil] + Decimal(id)) == Some(id)
  {
    DecimalReads(id);
    assert ([sigil] + Decimal(id))[1..] == Decimal(id);
  }

  lemma NoSpace(sigil: Byte, id: Id)
    requires sigil != SPACE
    ensures SPACE !in [sigil] + Decimal(id)
  {
    Blocks.DigitsHaveNoSpace(Decimal(id));
  }

  lemma SigilsAre(v: Id)
    ensures AtWindow(v) == [AT] + Decimal(v) && AtPane(v) == [F.PERCENT] + Decimal(v)
  {
    assert Fixed("@") == [AT] && Fixed("%") == [F.PERCENT];
  }

  lemma PaneIsLearned(p: Id)
    ensures F.Split(AtPane(p)) == [AtPane(p)] && IdAt(F.PERCENT, AtPane(p)) == Some(p)
  {
    hide F.Split, IdAt, Decimal;
    SigilsAre(p);
    NoSpace(F.PERCENT, p);
    Blocks.SplitFirst(AtPane(p), []);
    IdReads(F.PERCENT, p);
  }

  lemma WindowIsLearned(v: Id, p: Id)
    ensures F.Split(WindowLine(v, p)) == [AtWindow(v), AtPane(p)]
    ensures IdAt(AT, AtWindow(v)) == Some(v) && IdAt(F.PERCENT, AtPane(p)) == Some(p)
  {
    hide F.Split, IdAt, Decimal;
    SigilsAre(v);
    NoSpace(AT, v);
    PaneIsLearned(p);
    Blocks.SplitFirst(AtWindow(v), AtPane(p));
    IdReads(AT, v);
  }

  lemma SessionIsLearned(n: nat, v: Id, p: Id)
    ensures F.Split(SessionLine(n, v, p)) == [[DOLLAR] + Decimal(n), AtWindow(v), AtPane(p)]
    ensures IdAt(DOLLAR, [DOLLAR] + Decimal(n)) == Some(n)
    ensures IdAt(AT, AtWindow(v)) == Some(v) && IdAt(F.PERCENT, AtPane(p)) == Some(p)
  {
    hide F.Split, IdAt, Decimal, WindowLine;
    NoSpace(DOLLAR, n);
    WindowIsLearned(v, p);
    Blocks.SplitFirst([DOLLAR] + Decimal(n), WindowLine(v, p));
    IdReads(DOLLAR, n);
  }

  // ---- Clients moved ----

  function Switches(clients: seq<Text>, onto: Text): seq<seq<Text>> {
    seq(|clients|, i requires 0 <= i < |clients| => Switch(clients[i], onto))
  }

  function MovedTo(clients: map<Text, Text>, listed: seq<Text>, onto: Text): map<Text, Text> {
    map c | c in clients :: if c in listed then onto else clients[c]
  }

  lemma {:induction false} AllSwitched(a: Around, s: T.Server, listed: seq<Text>, onto: Text)
    requires P.Addressable(onto) && forall c :: c in listed ==> c in s.clients
    ensures ObeyedAll(a, s, Switches(listed, onto))
            == if listed == [] then Some(s)
               else if onto !in s.sessions then None
               else Some(s.(clients := MovedTo(s.clients, listed, onto)))
    decreases |listed|
  {
    hide Obeyed, Switch, P.Addressable;
    if |listed| > 0 {
      SwitchObeyed(a, s, listed[0], onto);
      assert Switches(listed, onto)[1..] == Switches(listed[1..], onto);
      if onto in s.sessions {
        var t := s.(clients := s.clients[listed[0] := onto]);
        AllSwitched(a, t, listed[1..], onto);
        assert forall c :: c in listed <==> c == listed[0] || c in listed[1..];
        assert MovedTo(t.clients, listed[1..], onto) == MovedTo(s.clients, listed, onto);
        if listed[1..] == [] { assert t.clients == MovedTo(s.clients, listed, onto); }
      }
    }
  }

  lemma {:induction false} AmongAre(clients: map<Text, Text>, order: seq<Text>, session: Text)
    ensures forall c :: c in Among(clients, order, session) <==> c in order && c in clients && clients[c] == session
    decreases |order|
  {
    if |order| > 0 {
      AmongAre(clients, order[1..], session);
      assert forall c :: c in order <==> c == order[0] || c in order[1..];
    }
  }

  /** The clients listed, each then switched, are the clients the step means to move. */
  lemma SwitchingIs(a: Around, s: T.Server, leaving: Text, onto: Text)
    requires P.Addressable(onto) && leaving in s.sessions && Orders(a.listing(s.clients), s.clients)
    ensures ObeyedAll(a, s, Switches(Among(s.clients, a.listing(s.clients), leaving), onto)) == T.SwitchClients(s, leaving, onto)
  {
    hide P.Addressable, ObeyedAll, Among;
    var listed := Among(s.clients, a.listing(s.clients), leaving);
    AmongAre(s.clients, a.listing(s.clients), leaving);
    AllSwitched(a, s, listed, onto);
    if listed == [] {
      assert forall c :: c in s.clients ==> s.clients[c] != leaving;
      assert (map c | c in s.clients :: if s.clients[c] == leaving then onto else s.clients[c]) == s.clients;
    } else {
      assert listed[0] in listed;
      assert MovedTo(s.clients, listed, onto) == map c | c in s.clients :: if s.clients[c] == leaving then onto else s.clients[c];
    }
  }

  // ---- A step sent is the step run ----

  /** A step of one command. */
  lemma OneSent(a: Around, file: Text, m: Machine, step: Step, words: seq<Text>)
    requires Resolves(m.bound, step) && !step.SwitchClients?
    requires Commands(EnvOf(m.bound, file, []), step) == [words]
    ensures Sent(a, file, m, step)
            == match Obeyed(Beside(a, file, step), m.server, words)
               case None => Refused
               case Some(answer) =>
                 match Learned(m.bound, step, answer.lines)
                 case None => Refused
                 case Some(bound) => Ran(Machine(answer.server, bound))
  {
    hide Obeyed, Learned, Beside, Create, Open, Split, Link, Mark, C.TypeLine, AtIndex, AtWindow, AtPane, AtSession, Fixed;
    var beside := Beside(a, file, step);
    if Obeyed(beside, m.server, words).Some? {
      var first := Obeyed(beside, m.server, words).value;
      OneCommandAlways(m.bound, file, first.lines, step);
      var rest := Commands(EnvOf(m.bound, file, first.lines), step)[1..];
      assert rest == [];
      assert ObeyedAll(beside, first.server, rest) == Some(first.server);
    }
  }

  lemma OneCommandAlways(b: Bound, file: Text, clients: seq<Text>, step: Step)
    requires !step.SwitchClients?
    ensures Commands(EnvOf(b, file, clients), step) == Commands(EnvOf(b, file, []), step)
  {
    hide Create, Open, Split, Link, C.TypeLine, AtIndex, AtWindow, AtPane, AtSession, Fixed, Replaying, RelaunchLine;
  }

  /** A step of one command that reports nothing. */
  lemma QuietSent(a: Around, file: Text, m: Machine, step: Step, words: seq<Text>, left: Option<T.Server>)
    requires Resolves(m.bound, step) && !step.SwitchClients? && !step.CreateSession? && !step.NewWindow? && !step.SplitPane?
    requires Commands(EnvOf(m.bound, file, []), step) == [words]
    requires Obeyed(Beside(a, file, step), m.server, words) == Quietly(left)
    ensures Sent(a, file, m, step) == Left(m, left)
  {
    hide Obeyed, Commands, Beside, Sent;
    OneSent(a, file, m, step, words);
  }

  lemma CreateSent(a: Around, file: Text, m: Machine, step: Step)
    requires step.CreateSession?
    ensures Sent(a, file, m, step) == RunStep(m, step)
  {
    hide Obeyed, Create, T.NewSession, Sent, F.Split, IdAt, SessionLine;
    OneSent(a, file, m, step, Create(step.name, step.windowName, step.cwd));
    CreateObeyed(Beside(a, file, step), m.server, step.name, step.windowName, step.cwd);
    var made := T.NewSession(m.server, step.name, step.windowName, step.cwd);
    if made.Some? { SessionIsLearned(a.session, made.value.window, made.value.pane); }
  }

  lemma OpenSent(a: Around, file: Text, m: Machine, step: Step)
    requires step.NewWindow? && Sayable(step)
    ensures Sent(a, file, m, step) == RunStep(m, step)
  {
    hide Obeyed, Open, T.NewWindow, Sent, F.Split, IdAt, WindowLine, P.Addressable;
    OneSent(a, file, m, step, Open(step.session, step.index, step.title, step.cwd));
    OpenObeyed(Beside(a, file, step), m.server, step.session, step.index, step.title, step.cwd);
    var made := T.NewWindow(m.server, step.session, step.index, step.title, step.cwd);
    if made.Some? { WindowIsLearned(made.value.window, made.value.pane); }
  }

  lemma SplitSent(a: Around, file: Text, m: Machine, step: Step)
    requires step.SplitPane?
    ensures Sent(a, file, m, step) == RunStep(m, step)
  {
    hide Obeyed, Split, T.SplitWindow, F.Split, IdAt, AtPane;
    if step.from in m.bound.panes {
      hide Sent;
      OneSent(a, file, m, step, Split(m.bound.panes[step.from], step.cwd));
      SplitObeyed(Beside(a, file, step), m.server, m.bound.panes[step.from], step.cwd);
      var made := T.SplitWindow(m.server, m.bound.panes[step.from], step.cwd);
      if made.Some? { PaneIsLearned(made.value.1); }
    }
  }

  lemma SwitchSent(a: Around, file: Text, m: Machine, step: Step)
    requires step.SwitchClients? && Sayable(step) && Orders(a.listing(m.server.clients), m.server.clients)
    ensures Sent(a, file, m, step) == RunStep(m, step)
  {
    hide Obeyed, Listing, Switch, T.SwitchClients, Among, P.Addressable, ObeyedAll;
    var (s, leaving, onto) := (m.server, step.leaving, step.onto);
    var listed := Among(s.clients, a.listing(s.clients), leaving);
    assert Commands(EnvOf(m.bound, file, []), step)[0] == Listing(leaving);
    assert Commands(EnvOf(m.bound, file, listed), step)[1..] == Switches(listed, onto);
    ListingObeyed(a, s, leaving);
    if leaving in s.sessions {
      SwitchingIs(a, s, leaving, onto);
    } else {
      NoneLeaving(s, leaving, onto);
    }
  }

  lemma NoneLeaving(s: T.Server, leaving: Text, onto: Text)
    requires leaving !in s.sessions
    ensures T.SwitchClients(s, leaving, onto) == None
  {}

  lemma TypedSent(a: Around, file: Text, m: Machine, step: Step)
    requires step.ReplayContent? || step.Relaunch?
    ensures Sent(a, file, m, step) == RunStep(m, step)
  {
    hide Obeyed, T.TypeInto, C.TypeLine, AtPane, Replaying, RelaunchLine, Obeying.Ran, Literal;
    if step.pane in m.bound.panes {
      hide Sent;
      var p := m.bound.panes[step.pane];
      var beside := Beside(a, file, step);
      match step
      case ReplayContent(pane, lines) =>
        ReplayIsShown(beside.disk, file);
        KeysObeyed(beside, m.server, p, Replaying(file));
        QuietSent(a, file, m, step, C.TypeLine(AtPane(p), Replaying(file)), T.TypeInto(m.server, p, T.Replayed(lines)));
      case Relaunch(pane, argv) =>
        RelaunchIsTyped(beside.disk, argv);
        KeysObeyed(beside, m.server, p, RelaunchLine(argv));
        QuietSent(a, file, m, step, C.TypeLine(AtPane(p), RelaunchLine(argv)), T.TypeInto(m.server, p, T.Line(RelaunchLine(argv))));
    }
  }

  lemma MarkSent(a: Around, file: Text, m: Machine, step: Step)
    requires step.SetOption? && Sayable(step)
    ensures Sent(a, file, m, step) == RunStep(m, step)
  {
    hide Obeyed, T.MarkWindow, T.MarkSession, Fixed, Signed, Decimal, AtSession, AtWindow, P.Addressable;
    var (s, b) := (m.server, m.bound);
    match step.setting
    case ServerMark(g) =>
      ServerMarkObeyed(a, s, g);
      QuietSent(a, file, m, step, Mark(EnvOf(b, file, []), step.setting), T.MarkServer(s, g));
    case SessionMark(session, g) =>
      SessionMarkObeyed(a, s, session, g);
      QuietSent(a, file, m, step, Mark(EnvOf(b, file, []), step.setting), T.MarkSession(s, session, g));
    case WindowMark(ref, g, saved) =>
      if ref in b.windows {
        WindowMarkObeyed(a, s, b.windows[ref], g, saved);
        QuietSent(a, file, m, step, Mark(EnvOf(b, file, []), step.setting), T.MarkWindow(s, b.windows[ref], g, saved));
      }
  }

  lemma PlacedSent(a: Around, file: Text, m: Machine, step: Step)
    requires (step.MoveWindow? || step.LinkWindow?) && Sayable(step)
    ensures Sent(a, file, m, step) == RunStep(m, step)
  {
    hide Obeyed, T.MoveWindow, T.LinkWindow, Fixed, AtIndex, AtWindow, P.Addressable, Link;
    if Resolves(m.bound, step) {
      hide Sent;
      match step
      case MoveWindow(window, session, to) =>
        var v := m.bound.windows[window];
        MoveObeyed(a, m.server, v, session, to);
        QuietSent(a, file, m, step,
                  [Fixed("move-window"), Fixed("-d"), Fixed("-s"), AtWindow(v), Fixed("-t"), AtIndex(session, to)],
                  T.MoveWindow(m.server, v, session, to));
      case LinkWindow(source, into, index, replacing) =>
        var v := match source case Built(w) => m.bound.windows[w] case Live(id) => id;
        LinkObeyed(a, m.server, v, into, index, replacing.Some?);
        QuietSent(a, file, m, step, Link(v, into, index, replacing.Some?),
                  T.LinkWindow(m.server, v, into, index, replacing.Some?));
    }
  }

  lemma SelectedSent(a: Around, file: Text, m: Machine, step: Step)
    requires (step.SelectLayout? || step.SelectPane? || step.SelectWindow? || step.KillSession?) && Sayable(step)
    ensures Sent(a, file, m, step) == RunStep(m, step)
  {
    hide Obeyed, T.SelectLayout, T.SelectPane, T.SelectWindow, T.KillSession, Fixed, AtIndex, AtWindow, AtPane, AtSession,
         P.Addressable, Dashed;
    if Resolves(m.bound, step) {
      hide Sent;
      var (s, b) := (m.server, m.bound);
      match step
      case SelectLayout(window, layout) =>
        LayoutObeyed(a, s, b.windows[window], layout);
        QuietSent(a, file, m, step, [Fixed("select-layout"), Fixed("-t"), AtWindow(b.windows[window]), layout],
                  T.SelectLayout(s, b.windows[window], layout));
      case SelectPane(pane) =>
        PaneObeyed(a, s, b.panes[pane]);
        QuietSent(a, file, m, step, [Fixed("select-pane"), Fixed("-t"), AtPane(b.panes[pane])], T.SelectPane(s, b.panes[pane]));
      case SelectWindow(session, index) =>
        ShowObeyed(a, s, session, index);
        QuietSent(a, file, m, step, [Fixed("select-window"), Fixed("-t"), AtIndex(session, index)],
                  T.SelectWindow(s, session, index));
      case KillSession(name) =>
        KillObeyed(a, s, name);
        QuietSent(a, file, m, step, [Fixed("kill-session"), Fixed("-t"), AtSession(name)], T.KillSession(s, name));
    }
  }

  /** Sending a step does to the server, and binds, exactly what the step means; and
      what tmux refuses, it refuses. */
  lemma SentIsRun(a: Around, file: Text, m: Machine, step: Step)
    requires Sayable(step) && Orders(a.listing(m.server.clients), m.server.clients)
    ensures Sent(a, file, m, step) == RunStep(m, step)
  {
    hide Sent, RunStep, Sayable, Orders;
    match step
    case CreateSession(_, _, _, _, _) => CreateSent(a, file, m, step);
    case NewWindow(_, _, _, _, _, _) => OpenSent(a, file, m, step);
    case SplitPane(_, _, _) => SplitSent(a, file, m, step);
    case SwitchClients(_, _) => SwitchSent(a, file, m, step);
    case ReplayContent(_, _) => TypedSent(a, file, m, step);
    case Relaunch(_, _) => TypedSent(a, file, m, step);
    case SetOption(_) => MarkSent(a, file, m, step);
    case MoveWindow(_, _, _) => PlacedSent(a, file, m, step);
    case LinkWindow(_, _, _, _) => PlacedSent(a, file, m, step);
    case _ => SelectedSent(a, file, m, step);
  }

  /** And a step that cannot be said is refused, whatever the server: the condition
      above is the exact one, but for a switch of no client to a session no target
      names, which sends nothing that names it. */
  lemma UnsayableIsRefused(a: Around, file: Text, m: Machine, step: Step)
    requires Resolves(m.bound, step) && !Sayable(step) && (step.SwitchClients? ==> !P.Addressable(step.leaving))
    ensures Sent(a, file, m, step) == Refused
  {
    hide Obeyed, Fixed, AtIndex, AtWindow, AtPane, AtSession, P.Addressable, Dashed, Open, Link, Listing, Signed,
         T.NewWindow, T.MoveWindow, T.LinkWindow, T.SelectLayout, T.SelectWindow, T.MarkSession, T.KillSession;
    match step
    case NewWindow(session, index, title, cwd, _, _) => OpenObeyed(a, m.server, session, index, title, cwd);
    case SwitchClients(leaving, _) => ListingObeyed(a, m.server, leaving);
    case SetOption(SessionMark(session, g)) => SessionMarkObeyed(a, m.server, session, g);
    case MoveWindow(window, session, to) => MoveObeyed(a, m.server, m.bound.windows[window], session, to);
    case LinkWindow(source, into, index, replacing) =>
      LinkObeyed(a, m.server, match source case Built(w) => m.bound.windows[w] case Live(id) => id, into, index, replacing.Some?);
    case SelectLayout(window, layout) => LayoutObeyed(a, m.server, m.bound.windows[window], layout);
    case SelectWindow(session, index) => ShowObeyed(a, m.server, session, index);
    case KillSession(name) => KillObeyed(a, m.server, name);
  }

  /** With no NUL to say, each command of a step is one line, and tmux's lexer reads
      it back as the very words it was made of. */
  lemma LinesSayTheirWords(env: Env, step: Step, i: nat)
    requires Clean(env.file) && AllOf(env.clients) && CleanAsSent(env, step) && i < |Commands(env, step)|
    ensures |Commands(env, step)[i]| > 0 && C.Line(Commands(env, step)[i]).Ok?
    ensures C.Words(C.Line(Commands(env, step)[i]).value) == Some(Commands(env, step)[i])
  {
    hide Commands, C.Line, C.Words, CleanAsSent;
    StepIsAccepted(env, step);
    var words := Commands(env, step)[i];
    assert Sendable(words);
    C.LineRefuses(words);
    C.LineReads(words);
  }

  // ---- A run sent is the run ----

  /** Whichever clients there are, they are listed each once. */
  ghost predicate ListsAll(a: Around) {
    forall clients :: Orders(a.listing(clients), clients)
  }

  lemma {:induction false} SentAllIsRun(a: Around, file: Text, m: Machine, steps: seq<Step>)
    requires ListsAll(a) && forall i :: 0 <= i < |steps| ==> Sayable(steps[i])
    ensures SentAll(a, file, m, steps) == Exec(m, steps)
    decreases |steps|
  {
    hide Sent, RunStep, Sayable, Orders;
    if |steps| > 0 {
      SentAllIsRun(a, file, m, steps[..|steps| - 1]);
      match Exec(m, steps[..|steps| - 1])
      case Ran(before) => SentIsRun(a, file, before, steps[|steps| - 1]);
      case _ =>
    }
  }
}
