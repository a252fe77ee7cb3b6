/** The command lines phoenix-restore/src/apply.rs and tmux-control/src/commands
    make of each step, and when they can be made: a command line refuses a NUL, so
    a plan can be sent exactly when nothing it has to say holds one. */
module Sending {
  import opened Wrappers
  import opened Snapshots
  import opened Steps
  import Blocks
  import C = CommandLines

  /** What is known only on the way: the ids behind the references, the clients
      listed, and the path of a replay file. */
  datatype Env = Env(window: WindowRef -> Id, pane: PaneRef -> Id, clients: seq<Text>, file: Text)

  // ---- The words of a command ----

  predicate Clean(s: Text) { C.NUL !in s }

  /** A word the code spells out. */
  function Fixed(s: string): (w: Text)
    requires forall i :: 0 <= i < |s| ==> 0 < s[i] as int < 128
    ensures Clean(w)
  {
    Ascii(s)
  }

  function Decimal(n: nat): (w: Text)
    ensures Clean(w)
  {
    Blocks.Decimal(n)
  }

  function Signed(n: int): (w: Text)
    ensures Clean(w)
  {
    if n < 0 then Fixed("-") + Decimal(-n) else Decimal(n)
  }

  function AtSession(name: Text): Text { Fixed("=") + name + Fixed(":") }

  function AtIndex(name: Text, index: Index): Text { Fixed("=") + name + Fixed(":=") + Decimal(index) }

  function AtWindow(v: Id): (w: Text)
    ensures Clean(w)
  {
    Fixed("@") + Decimal(v)
  }

  function AtPane(p: Id): (w: Text)
    ensures Clean(w)
  {
    Fixed("%") + Decimal(p)
  }

  function Flag(flag: Text, value: Option<Text>): seq<Text> {
    match value case None => [] case Some(v) => [flag, v]
  }

  function Source(env: Env, source: LinkSource): Id {
    match source case Built(ref) => env.window(ref) case Live(id) => id
  }

  function Create(name: Text, title: Option<Text>, cwd: Option<Text>): seq<Text> {
    [Fixed("new-session"), Fixed("-d"), Fixed("-s"), name] + Flag(Fixed("-n"), title) + Flag(Fixed("-c"), cwd)
    + [Fixed("-P"), Fixed("-F"), Fixed("#{session_id} #{window_id} #{pane_id}")]
  }

  function Open(session: Text, index: Index, title: Text, cwd: Option<Text>): seq<Text> {
    [Fixed("new-window"), Fixed("-d"), Fixed("-t"), AtIndex(session, index)] + Flag(Fixed("-n"), Some(title))
    + Flag(Fixed("-c"), cwd) + [Fixed("-P"), Fixed("-F"), Fixed("#{window_id} #{pane_id}")]
  }

  function Split(from: Id, cwd: Option<Text>): seq<Text> {
    [Fixed("split-window"), Fixed("-d"), Fixed("-t"), AtPane(from)] + Flag(Fixed("-c"), cwd)
    + [Fixed("-P"), Fixed("-F"), Fixed("#{pane_id}")]
  }

  function Link(v: Id, into: Text, index: Index, kill: bool): seq<Text> {
    [Fixed("link-window")] + (if kill then [Fixed("-k")] else [])
    + [Fixed("-d"), Fixed("-s"), AtWindow(v), Fixed("-t"), AtIndex(into, index)]
  }

  function Replaying(file: Text): Text {
    Fixed("cat ") + ShellQuote(file) + Fixed("; rm -f ") + ShellQuote(file)
  }

  function Mark(env: Env, setting: Setting): seq<Text> {
    match setting
    case ServerMark(g) => [Fixed("set-option"), Fixed("-s"), Fixed("@phoenix-generation"), Signed(g)]
    case SessionMark(session, g) =>
      [Fixed("set-option"), Fixed("-t"), AtSession(session), Fixed("@phoenix-restored"), Signed(g)]
    case WindowMark(ref, g, saved) =>
      [Fixed("set-option"), Fixed("-w"), Fixed("-t"), AtWindow(env.window(ref)), Fixed("@phoenix-window"),
       Signed(g) + Fixed(":@") + Decimal(saved)]
  }

  function Switch(client: Text, onto: Text): seq<Text> {
    [Fixed("switch-client"), Fixed("-c"), client, Fixed("-t"), AtSession(onto)]
  }

  function Listing(leaving: Text): seq<Text> {
    [Fixed("list-clients"), Fixed("-t"), AtSession(leaving), Fixed("-F"), Fixed("#{client_name}")]
  }

  /** The commands of one step, in order, each as its words. */
  function Commands(env: Env, step: Step): (words: seq<seq<Text>>)
    ensures |words| > 0
  {
    match step
    case CreateSession(name, title, cwd, _, _) => [Create(name, title, cwd)]
    case MoveWindow(window, session, to) =>
      [[Fixed("move-window"), Fixed("-d"), Fixed("-s"), AtWindow(env.window(window)), Fixed("-t"), AtIndex(session, to)]]
    case NewWindow(session, index, title, cwd, _, _) => [Open(session, index, title, cwd)]
    case LinkWindow(source, into, index, replacing) => [Link(Source(env, source), into, index, replacing.Some?)]
    case SplitPane(from, cwd, _) => [Split(env.pane(from), cwd)]
    case SelectLayout(window, layout) => [[Fixed("select-layout"), Fixed("-t"), AtWindow(env.window(window)), layout]]
    case ReplayContent(pane, _) => [C.TypeLine(AtPane(env.pane(pane)), Replaying(env.file))]
    case Relaunch(pane, argv) => [C.TypeLine(AtPane(env.pane(pane)), RelaunchLine(argv))]
    case SelectPane(pane) => [[Fixed("select-pane"), Fixed("-t"), AtPane(env.pane(pane))]]
    case SelectWindow(session, index) => [[Fixed("select-window"), Fixed("-t"), AtIndex(session, index)]]
    case SetOption(setting) => [Mark(env, setting)]
    case SwitchClients(leaving, onto) =>
      [Listing(leaving)] + seq(|env.clients|, i requires 0 <= i < |env.clients| => Switch(env.clients[i], onto))
    case KillSession(name) => [[Fixed("kill-session"), Fixed("-t"), AtSession(name)]]
  }

  /** Every command line of the step can be made. */
  ghost predicate Accepted(env: Env, step: Step) {
    forall i :: 0 <= i < |Commands(env, step)| ==> Sendable(Commands(env, step)[i])
  }

  predicate Sendable(words: seq<Text>) { |words| > 0 && C.Line(words).Ok? }

  // ---- What a step has to say ----

  predicate CleanIfAny(s: Option<Text>) { s.Some? ==> Clean(s.value) }

  predicate AllOf(words: seq<Text>) { forall i :: 0 <= i < |words| ==> Clean(words[i]) }

  predicate CleanStep(step: Step) {
    match step
    case CreateSession(name, title, cwd, _, _) => Clean(name) && CleanIfAny(title) && CleanIfAny(cwd)
    case MoveWindow(_, session, _) => Clean(session)
    case NewWindow(session, _, title, cwd, _, _) => Clean(session) && Clean(title) && CleanIfAny(cwd)
    case LinkWindow(_, into, _, _) => Clean(into)
    case SplitPane(_, cwd, _) => CleanIfAny(cwd)
    case SelectLayout(_, layout) => Clean(layout)
    case Relaunch(_, argv) => AllOf(argv)
    case SelectWindow(session, _) => Clean(session)
    case SetOption(setting) => setting.SessionMark? ==> Clean(setting.session)
    case SwitchClients(leaving, onto) => Clean(leaving) && Clean(onto)
    case KillSession(name) => Clean(name)
    case _ => true
  }

  lemma SendableIsClean(words: seq<Text>)
    requires |words| > 0
    ensures Sendable(words) <==> AllOf(words)
  {
    C.LineRefuses(words);
    hide C.Line;
  }

  lemma OneCommand(env: Env, step: Step, words: seq<Text>)
    requires Commands(env, step) == [words] && |words| > 0
    ensures Accepted(env, step) <==> AllOf(words)
  {
    hide Commands, Sendable, AllOf;
    SendableIsClean(words);
    assert Commands(env, step)[0] == words;
  }

  lemma AllOfConcat(a: seq<Text>, b: seq<Text>)
    ensures AllOf(a + b) <==> AllOf(a) && AllOf(b)
  {
    if AllOf(a + b) {
      forall i | 0 <= i < |a| ensures Clean(a[i]) { assert (a + b)[i] == a[i]; }
      forall i | 0 <= i < |b| ensures Clean(b[i]) { assert (a + b)[|a| + i] == b[i]; }
    }
  }

  lemma CleanConcat(a: Text, b: Text)
    ensures Clean(a + b) <==> Clean(a) && Clean(b)
  {}

  lemma AtIsClean(name: Text, index: Index)
    ensures Clean(AtSession(name)) <==> Clean(name)
    ensures Clean(AtIndex(name, index)) <==> Clean(name)
  {
    hide Fixed, Decimal, Clean;
    CleanConcat(Fixed("=") + name, Fixed(":"));
    CleanConcat(Fixed("="), name);
    CleanConcat(Fixed("=") + name + Fixed(":="), Decimal(index));
    CleanConcat(Fixed("=") + name, Fixed(":="));
  }

  lemma FlagIsClean(flag: Text, value: Option<Text>)
    requires Clean(flag)
    ensures AllOf(Flag(flag, value)) <==> CleanIfAny(value)
  {
    if value.Some? { assert Flag(flag, value)[1] == value.value; }
  }

  /** A command of one varying word, the one at `at`. */
  lemma OneWord(words: seq<Text>, at: nat)
    requires at < |words| && forall i :: 0 <= i < |words| && i != at ==> Clean(words[i])
    ensures AllOf(words) <==> Clean(words[at])
  {}

  lemma CreateIsClean(name: Text, title: Option<Text>, cwd: Option<Text>)
    ensures |Create(name, title, cwd)| > 0
    ensures AllOf(Create(name, title, cwd)) <==> Clean(name) && CleanIfAny(title) && CleanIfAny(cwd)
  {
    hide Fixed, Clean, AllOf, CleanIfAny;
    var (a, n, c) := ([Fixed("new-session"), Fixed("-d"), Fixed("-s"), name], Flag(Fixed("-n"), title), Flag(Fixed("-c"), cwd));
    var z := [Fixed("-P"), Fixed("-F"), Fixed("#{session_id} #{window_id} #{pane_id}")];
    OneWord(a, 3);
    OneWord(z, 0);
    FlagIsClean(Fixed("-n"), title);
    FlagIsClean(Fixed("-c"), cwd);
    AllOfConcat(a + n + c, z);
    AllOfConcat(a + n, c);
    AllOfConcat(a, n);
  }

  lemma OpenIsClean(session: Text, index: Index, title: Text, cwd: Option<Text>)
    ensures |Open(session, index, title, cwd)| > 0
    ensures AllOf(Open(session, index, title, cwd)) <==> Clean(session) && Clean(title) && CleanIfAny(cwd)
  {
    hide Fixed, Clean, AllOf, AtIndex;
    var a := [Fixed("new-window"), Fixed("-d"), Fixed("-t"), AtIndex(session, index)];
    var (n, c) := (Flag(Fixed("-n"), Some(title)), Flag(Fixed("-c"), cwd));
    var z := [Fixed("-P"), Fixed("-F"), Fixed("#{window_id} #{pane_id}")];
    AtIsClean(session, index);
    OneWord(a, 3);
    OneWord(z, 0);
    FlagIsClean(Fixed("-n"), Some(title));
    FlagIsClean(Fixed("-c"), cwd);
    AllOfConcat(a + n + c, z);
    AllOfConcat(a + n, c);
    AllOfConcat(a, n);
  }

  lemma SplitIsClean(from: Id, cwd: Option<Text>)
    ensures |Split(from, cwd)| > 0
    ensures AllOf(Split(from, cwd)) <==> CleanIfAny(cwd)
  {
    hide Fixed, Clean, AllOf, AtPane;
    var a := [Fixed("split-window"), Fixed("-d"), Fixed("-t"), AtPane(from)];
    var c := Flag(Fixed("-c"), cwd);
    var z := [Fixed("-P"), Fixed("-F"), Fixed("#{pane_id}")];
    OneWord(a, 3);
    OneWord(z, 0);
    FlagIsClean(Fixed("-c"), cwd);
    AllOfConcat(a + c, z);
    AllOfConcat(a, c);
  }

  lemma LinkIsClean(v: Id, into: Text, index: Index, kill: bool)
    ensures |Link(v, into, index, kill)| > 0
    ensures AllOf(Link(v, into, index, kill)) <==> Clean(into)
  {
    hide Fixed, Clean, AllOf, AtIndex, AtWindow;
    var (a, k) := ([Fixed("link-window")], if kill then [Fixed("-k")] else []);
    var z := [Fixed("-d"), Fixed("-s"), AtWindow(v), Fixed("-t"), AtIndex(into, index)];
    AtIsClean(into, index);
    OneWord(a, 0);
    OneWord(z, 4);
    AllOfConcat(a + k, z);
    AllOfConcat(a, k);
    assert AllOf(k) by { if kill { OneWord(k, 0); } else { NoWords(); } }
  }

  lemma NoWords()
    ensures AllOf([])
  {}

  lemma MarkIsClean(env: Env, setting: Setting)
    ensures |Mark(env, setting)| > 0
    ensures AllOf(Mark(env, setting)) <==> (setting.SessionMark? ==> Clean(setting.session))
  {
    hide Fixed, Clean, AllOf, AtSession, AtWindow, Signed, Decimal;
    match setting
    case ServerMark(g) => OneWord(Mark(env, setting), 0);
    case SessionMark(session, g) =>
      AtIsClean(session, 0);
      OneWord(Mark(env, setting), 2);
    case WindowMark(ref, g, saved) =>
      CleanConcat(Signed(g) + Fixed(":@"), Decimal(saved));
      CleanConcat(Signed(g), Fixed(":@"));
      OneWord(Mark(env, setting), 0);
  }

  lemma SwitchIsClean(client: Text, onto: Text)
    requires Clean(client)
    ensures Sendable(Switch(client, onto)) <==> Clean(onto)
  {
    hide Fixed, Clean, AtSession, Sendable, AllOf;
    AtIsClean(onto, 0);
    OneWord(Switch(client, onto), 4);
    SendableIsClean(Switch(client, onto));
  }

  lemma ListingIsClean(leaving: Text)
    ensures Sendable(Listing(leaving)) <==> Clean(leaving)
  {
    hide Fixed, Clean, AtSession, Sendable, AllOf;
    AtIsClean(leaving, 0);
    OneWord(Listing(leaving), 2);
    SendableIsClean(Listing(leaving));
  }

  lemma SwitchingIsClean(env: Env, leaving: Text, onto: Text)
    requires AllOf(env.clients)
    ensures Accepted(env, SwitchClients(leaving, onto)) <==> Clean(leaving) && (env.clients != [] ==> Clean(onto))
  {
    hide Clean, Sendable, Listing, Switch;
    var commands := Commands(env, SwitchClients(leaving, onto));
    assert commands[0] == Listing(leaving);
    ListingIsClean(leaving);
    forall i | 0 <= i < |env.clients|
      ensures commands[i + 1] == Switch(env.clients[i], onto) && (Sendable(commands[i + 1]) <==> Clean(onto))
    {
      assert Clean(env.clients[i]);
      SwitchIsClean(env.clients[i], onto);
    }
    assert forall i :: 1 <= i < |commands| ==> commands[i] == commands[(i - 1) + 1];
    if Accepted(env, SwitchClients(leaving, onto)) && env.clients != [] {
      assert Sendable(commands[0 + 1]);
    }
  }

  lemma {:induction false} QuoteKeepsNul(s: Text)
    ensures Clean(QuoteInner(s)) <==> Clean(s)
  {
    if |s| > 0 { QuoteKeepsNul(s[1..]); }
  }

  lemma {:induction false} RelaunchKeepsNul(argv: seq<Text>)
    ensures Clean(RelaunchLine(argv)) <==> AllOf(argv)
    decreases |argv|
  {
    if |argv| > 0 {
      QuoteKeepsNul(argv[0]);
      RelaunchKeepsNul(argv[1..]);
      assert AllOf(argv) <==> Clean(argv[0]) && AllOf(argv[1..]);
    }
  }

  lemma ReplayingIsClean(file: Text)
    requires Clean(file)
    ensures Clean(Replaying(file))
  {
    QuoteKeepsNul(file);
  }

  lemma TypeLineIsClean(pane: Text, line: Text)
    requires Clean(pane)
    ensures |C.TypeLine(pane, line)| > 0 && (AllOf(C.TypeLine(pane, line)) <==> Clean(line))
  {
    if Clean(line) { C.TypeLineHasNoNul(pane, line); }
    assert C.TypeLine(pane, line)[3] == line;
  }

  /** What is said of it even when no client is listed to be switched. */
  predicate CleanAsSent(env: Env, step: Step) {
    if step.SwitchClients? then Clean(step.leaving) && (env.clients != [] ==> Clean(step.onto)) else CleanStep(step)
  }

  /** With a path and clients the system names without a NUL, a step's command lines
      can all be made exactly when the step has no NUL to say. */
  lemma StepIsAccepted(env: Env, step: Step)
    requires Clean(env.file) && AllOf(env.clients)
    ensures Accepted(env, step) <==> CleanAsSent(env, step)
  {
    hide Fixed, Accepted, Clean, AllOf, CleanIfAny, AtIndex, AtSession, AtWindow, AtPane, Create, Open, Split, Link, Mark,
         C.TypeLine, Replaying, RelaunchLine;
    match step
    case CreateSession(name, title, cwd, _, _) =>
      CreateIsClean(name, title, cwd);
      OneCommand(env, step, Create(name, title, cwd));
    case MoveWindow(window, session, to) =>
      var words := Commands(env, step)[0];
      AtIsClean(session, to);
      OneWord(words, 5);
      OneCommand(env, step, words);
    case NewWindow(session, index, title, cwd, _, _) =>
      OpenIsClean(session, index, title, cwd);
      OneCommand(env, step, Open(session, index, title, cwd));
    case LinkWindow(source, into, index, replacing) =>
      LinkIsClean(Source(env, source), into, index, replacing.Some?);
      OneCommand(env, step, Link(Source(env, source), into, index, replacing.Some?));
    case SplitPane(from, cwd, _) =>
      SplitIsClean(env.pane(from), cwd);
      OneCommand(env, step, Split(env.pane(from), cwd));
    case SelectLayout(window, layout) =>
      OneWord(Commands(env, step)[0], 3);
      OneCommand(env, step, Commands(env, step)[0]);
    case ReplayContent(pane, _) =>
      ReplayingIsClean(env.file);
      TypeLineIsClean(AtPane(env.pane(pane)), Replaying(env.file));
      OneCommand(env, step, C.TypeLine(AtPane(env.pane(pane)), Replaying(env.file)));
    case Relaunch(pane, argv) =>
      RelaunchKeepsNul(argv);
      TypeLineIsClean(AtPane(env.pane(pane)), RelaunchLine(argv));
      OneCommand(env, step, C.TypeLine(AtPane(env.pane(pane)), RelaunchLine(argv)));
    case SelectPane(pane) =>
      OneWord(Commands(env, step)[0], 0);
      OneCommand(env, step, Commands(env, step)[0]);
    case SelectWindow(session, index) =>
      AtIsClean(session, index);
      OneWord(Commands(env, step)[0], 2);
      OneCommand(env, step, Commands(env, step)[0]);
    case SetOption(setting) =>
      MarkIsClean(env, setting);
      OneCommand(env, step, Mark(env, setting));
    case SwitchClients(leaving, onto) => SwitchingIsClean(env, leaving, onto);
    case KillSession(name) =>
      AtIsClean(name, 0);
      OneWord(Commands(env, step)[0], 2);
      OneCommand(env, step, Commands(env, step)[0]);
  }
}
