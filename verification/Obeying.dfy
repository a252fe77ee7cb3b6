/** What tmux makes of the words it is sent: the flags and targets they spell, the
    command they come to, and what it reports. A restore sent word by word, each
    reply read for the ids it binds, is the restore Applying.dfy describes. */
module Obeying {
  import opened Wrappers
  import opened Snapshots
  import opened Steps
  import opened Applying
  import opened Sending
  import Blocks
  import F = Framing
  import P = Planner
  import T = Tmux

  // ---- Numbers and targets ----

  const AT: Byte := 64
  const EQUALS: Byte := 61
  const MINUS: Byte := 45
  const COLON: Byte := 58
  const DOLLAR: Byte := 36

  function Number(s: Text): (n: Option<nat>) {
    if |s| > 0 && F.AllDigits(s) then Some(F.DigitsValue(s)) else None
  }

  function SignedNumber(s: Text): (n: Option<int>) {
    if |s| > 0 && s[0] == MINUS then match Number(s[1..]) case None => None case Some(n) => var m: int := n; Some(-m)
    else match Number(s) case None => None case Some(n) => Some(n)
  }

  function ColonAt(s: Text): (i: nat)
    ensures i <= |s| && COLON !in s[..i] && (i < |s| ==> s[i] == COLON)
  {
    if |s| == 0 || s[0] == COLON then 0
    else
      var i := 1 + ColonAt(s[1..]);
      assert s[..i] == [s[0]] + s[1..][..i - 1];
      i
  }

  /** `Loose` is any target tmux would resolve by something other than an exact name
      or an id. */
  datatype Target = OfSession(name: Text) | OfIndex(name: Text, index: Index) | OfWindow(id: Id) | OfPane(id: Id) | Loose

  /** `@` and `%` name an id. `=` asks for exact names; the first colon ends the
      session's, without one the name is a window's, and a `$` makes it an id. */
  function TargetOf(t: Text): Target {
    if |t| == 0 then Loose
    else if t[0] == AT then match Number(t[1..]) case None => Loose case Some(v) => OfWindow(v)
    else if t[0] == F.PERCENT then match Number(t[1..]) case None => Loose case Some(p) => OfPane(p)
    else if t[0] != EQUALS then Loose
    else
      var rest := t[1..];
      var i := ColonAt(rest);
      if i == |rest| || i == 0 || rest[0] == DOLLAR then Loose
      else if i + 1 == |rest| then OfSession(rest[..i])
      else if rest[i + 1] != EQUALS then Loose
      else match Number(rest[i + 2..]) case None => Loose case Some(index) => OfIndex(rest[..i], index)
  }

  lemma DecimalReads(n: nat)
    ensures Number(Decimal(n)) == Some(n) && Decimal(n)[0] != MINUS
  {
    Blocks.DecimalIsParsed(n);
    assert F.IsDigit(Decimal(n)[0]);
  }

  lemma SignedReads(n: int)
    ensures SignedNumber(Signed(n)) == Some(n)
  {
    if n < 0 {
      DecimalReads(-n);
      assert Fixed("-") == [MINUS];
      assert Signed(n)[1..] == Decimal(-n);
    } else {
      DecimalReads(n);
    }
  }

  lemma WindowReads(v: Id)
    ensures TargetOf(AtWindow(v)) == OfWindow(v)
  {
    hide Number;
    DecimalReads(v);
    assert Fixed("@") == [AT];
    assert AtWindow(v)[1..] == Decimal(v);
  }

  lemma PaneReads(p: Id)
    ensures TargetOf(AtPane(p)) == OfPane(p)
  {
    hide Number;
    DecimalReads(p);
    assert Fixed("%") == [F.PERCENT];
    assert AtPane(p)[1..] == Decimal(p);
  }

  /** The first colon is the first part's own, or the one after it. */
  lemma {:induction false} ColonAtJoins(a: Text, b: Text)
    requires |b| > 0 && b[0] == COLON
    ensures ColonAt(a + b) == if COLON in a then ColonAt(a) else |a|
    ensures COLON in a ==> ColonAt(a) < |a|
  {
    if |a| == 0 {
      assert a + b == b;
    } else {
      assert (a + b)[1..] == a[1..] + b;
      if a[0] != COLON {
        ColonAtJoins(a[1..], b);
      }
    }
  }

  /** What a name and the rest of its target are cut into: itself, unless it has a
      colon of its own, and then nothing a target can be. */
  lemma NameIsCut(name: Text, tail: Text)
    requires |tail| > 0 && tail[0] == COLON
    ensures var (rest, i) := (name + tail, ColonAt(name + tail));
            if COLON !in name then i == |name| && rest[..i] == name && rest[i + 1..] == tail[1..]
            else i + 1 < |rest| && (rest[i + 1] == EQUALS ==> i + 2 <= |rest| && Number(rest[i + 2..]).None?)
  {
    hide Number;
    ColonAtJoins(name, tail);
    var rest := name + tail;
    var i := ColonAt(rest);
    if COLON in name {
      assert rest[|name|] == COLON;
      if rest[i + 1] == EQUALS {
        assert i + 2 <= |name|;
        assert rest[i + 2..][|name| - (i + 2)] == COLON;
        ColonIsNoNumber(rest[i + 2..]);
      }
    }
  }

  lemma ColonIsNoNumber(s: Text)
    ensures COLON in s ==> Number(s).None?
  {
    if COLON in s {
      var i :| 0 <= i < |s| && s[i] == COLON;
      assert !F.IsDigit(s[i]);
    }
  }

  /** A session's target names that session exactly when its name is one a target
      can address; any other name resolves to something else. */
  lemma SessionReads(name: Text)
    ensures TargetOf(AtSession(name)) == if P.Addressable(name) then OfSession(name) else Loose
  {
    hide Number, ColonAt;
    assert Fixed("=") == [EQUALS] && Fixed(":") == [COLON];
    var rest := name + [COLON];
    assert AtSession(name) == [EQUALS] + rest && AtSession(name)[1..] == rest;
    NameIsCut(name, [COLON]);
  }

  lemma IndexReads(name: Text, index: Index)
    ensures TargetOf(AtIndex(name, index)) == if P.Addressable(name) then OfIndex(name, index) else Loose
  {
    hide Number, ColonAt, AtIndex, TargetOf, Decimal;
    var tail := [COLON, EQUALS] + Decimal(index);
    IndexSpelt(name, index);
    NameIsCut(name, tail);
    if COLON in name {
      LooseTarget(name + tail);
    } else {
      assert tail[1..] == [EQUALS] + Decimal(index);
      DecimalReads(index);
      IndexTarget(name, name + tail, index);
    }
  }

  lemma LooseTarget(rest: Text)
    requires var i := ColonAt(rest);
             i + 1 < |rest| && (rest[i + 1] == EQUALS ==> Number(rest[i + 2..]).None?)
    ensures TargetOf([EQUALS] + rest) == Loose
  {
    hide Number, ColonAt;
    assert ([EQUALS] + rest)[1..] == rest;
  }

  lemma IndexTarget(name: Text, rest: Text, index: Index)
    requires ColonAt(rest) == |name| < |rest| && rest[..|name|] == name
    requires rest[|name| + 1..] == [EQUALS] + Decimal(index) && Number(Decimal(index)) == Some(index)
    ensures TargetOf([EQUALS] + rest) == if |name| == 0 || name[0] == DOLLAR then Loose else OfIndex(name, index)
  {
    hide Number, ColonAt, Decimal;
    assert ([EQUALS] + rest)[1..] == rest;
    assert rest[|name| + 2..] == rest[|name| + 1..][1..] == Decimal(index);
  }

  lemma IndexSpelt(name: Text, index: Index)
    ensures AtIndex(name, index) == [EQUALS] + (name + ([COLON, EQUALS] + Decimal(index)))
    ensures AtIndex(name, index)[1..] == name + ([COLON, EQUALS] + Decimal(index))
  {
    hide Decimal;
    assert Fixed("=") == [EQUALS] && Fixed(":=") == [COLON, EQUALS];
  }

  // ---- Flags ----

  /** A word the option parser takes for a flag. */
  predicate Dashed(w: Text) { |w| > 1 && w[0] == MINUS }

  /** Which of a command's flags stand alone and which take the word after them. */
  datatype Shape = Shape(bare: set<char>, valued: set<char>)

  /** The flags given, the values given with them, and the words left. */
  datatype Options = Options(flags: set<char>, values: map<char, Text>, rest: seq<Text>)

  /** The letter of a flag of one letter. */
  function Letter(w: Text): char { if |w| == 2 then w[1] as char else '-' }

  /** Flags come first; the first word that is none ends them. */
  function OptionsOf(shape: Shape, words: seq<Text>): (o: Option<Options>)
    decreases |words|
  {
    if |words| == 0 || !Dashed(words[0]) then Some(Options({}, map[], words))
    else
      var c := Letter(words[0]);
      if c in shape.bare then
        match OptionsOf(shape, words[1..])
        case None => None
        case Some(o) => Some(o.(flags := o.flags + {c}))
      else if c in shape.valued && |words| > 1 then
        match OptionsOf(shape, words[2..])
        case None => None
        case Some(o) => Some(o.(values := o.values[c := words[1]]))
      else None
  }

  /** The word of a one-letter flag. */
  function Dash(c: char): (w: Text)
    requires 0 < c as int < 128
  {
    [MINUS, c as int]
  }

  lemma FlagIs(flag: string)
    requires |flag| == 2 && flag[0] == '-' && 0 < flag[1] as int < 128
    ensures Fixed(flag) == Dash(flag[1])
  {
    assert Fixed(flag)[0] == MINUS && Fixed(flag)[1] == flag[1] as int;
  }

  lemma LetterOf(c: char)
    requires 0 < c as int < 128
    ensures Dashed(Dash(c)) && Letter(Dash(c)) == c
  {}

  lemma BareReads(shape: Shape, c: char, rest: seq<Text>)
    requires 0 < c as int < 128 && c in shape.bare && OptionsOf(shape, rest).Some?
    ensures OptionsOf(shape, [Dash(c)] + rest).Some?
    ensures var o := OptionsOf(shape, rest).value;
            OptionsOf(shape, [Dash(c)] + rest) == Some(o.(flags := o.flags + {c}))
  {
    LetterOf(c);
    assert ([Dash(c)] + rest)[1..] == rest;
  }

  lemma ValuedReads(shape: Shape, c: char, value: Text, rest: seq<Text>)
    requires 0 < c as int < 128 && c !in shape.bare && c in shape.valued && OptionsOf(shape, rest).Some?
    ensures OptionsOf(shape, [Dash(c), value] + rest).Some?
    ensures var o := OptionsOf(shape, rest).value;
            OptionsOf(shape, [Dash(c), value] + rest) == Some(o.(values := o.values[c := value]))
  {
    LetterOf(c);
    assert ([Dash(c), value] + rest)[2..] == rest;
  }

  /** An optional flag with its value, when there is one. */
  lemma IfGivenReads(shape: Shape, c: char, value: Option<Text>, rest: seq<Text>)
    requires 0 < c as int < 128 && c !in shape.bare && c in shape.valued && OptionsOf(shape, rest).Some?
    ensures OptionsOf(shape, Flag(Dash(c), value) + rest).Some?
    ensures var o := OptionsOf(shape, rest).value;
            OptionsOf(shape, Flag(Dash(c), value) + rest)
            == Some(if value.None? then o else o.(values := o.values[c := value.value]))
  {
    hide OptionsOf;
    match value
    case None => assert Flag(Dash(c), value) + rest == rest;
    case Some(v) => ValuedReads(shape, c, v, rest);
  }

  lemma RestReads(shape: Shape, rest: seq<Text>)
    requires |rest| > 0 ==> !Dashed(rest[0])
    ensures OptionsOf(shape, rest) == Some(Options({}, map[], rest))
  {}

  // ---- Commands ----

  datatype Command =
    | NewSessionCommand | NewWindowCommand | SplitWindowCommand | MoveWindowCommand | LinkWindowCommand
    | SelectLayoutCommand | SendKeysCommand | SelectPaneCommand | SelectWindowCommand | SetOptionCommand
    | ListClientsCommand | SwitchClientCommand | KillSessionCommand

  /** A word of one-byte characters, as they read. */
  function Spelt(word: Text): string { seq(|word|, i requires 0 <= i < |word| => word[i] as char) }

  lemma SpeltBack(s: string)
    requires forall i :: 0 <= i < |s| ==> 0 < s[i] as int < 128
    ensures Spelt(Fixed(s)) == s
  {}

  function CommandOf(name: string): Option<Command> {
    if name == "new-session" then Some(NewSessionCommand)
    else if name == "new-window" then Some(NewWindowCommand)
    else if name == "split-window" then Some(SplitWindowCommand)
    else if name == "move-window" then Some(MoveWindowCommand)
    else if name == "link-window" then Some(LinkWindowCommand)
    else if name == "select-layout" then Some(SelectLayoutCommand)
    else if name == "send-keys" then Some(SendKeysCommand)
    else if name == "select-pane" then Some(SelectPaneCommand)
    else if name == "select-window" then Some(SelectWindowCommand)
    else if name == "set-option" then Some(SetOptionCommand)
    else if name == "list-clients" then Some(ListClientsCommand)
    else if name == "switch-client" then Some(SwitchClientCommand)
    else if name == "kill-session" then Some(KillSessionCommand)
    else None
  }

  /** The flags of each command that a restore relies on. */
  function ShapeOf(command: Command): Shape {
    match command
    case NewSessionCommand => Shape({'d', 'P'}, {'s', 'n', 'c', 'F'})
    case NewWindowCommand => Shape({'d', 'P'}, {'t', 'n', 'c', 'F'})
    case SplitWindowCommand => Shape({'d', 'P'}, {'t', 'c', 'F'})
    case MoveWindowCommand => Shape({'d'}, {'s', 't'})
    case LinkWindowCommand => Shape({'d', 'k'}, {'s', 't'})
    case SelectLayoutCommand => Shape({}, {'t'})
    case SendKeysCommand => Shape({}, {'t'})
    case SelectPaneCommand => Shape({}, {'t'})
    case SelectWindowCommand => Shape({}, {'t'})
    case SetOptionCommand => Shape({'s', 'w'}, {'t'})
    case ListClientsCommand => Shape({}, {'t', 'F'})
    case SwitchClientCommand => Shape({}, {'c', 't'})
    case KillSessionCommand => Shape({}, {'t'})
  }

  /** The word of a command's name names it. */
  lemma NewSessionReads()
    ensures CommandOf(Spelt(Fixed("new-session"))) == Some(NewSessionCommand)
  {
    SpeltBack("new-session");
  }

  lemma NewWindowReads()
    ensures CommandOf(Spelt(Fixed("new-window"))) == Some(NewWindowCommand)
  {
    SpeltBack("new-window");
  }

  lemma SplitWindowReads()
    ensures CommandOf(Spelt(Fixed("split-window"))) == Some(SplitWindowCommand)
  {
    SpeltBack("split-window");
  }

  lemma MoveWindowReads()
    ensures CommandOf(Spelt(Fixed("move-window"))) == Some(MoveWindowCommand)
  {
    SpeltBack("move-window");
    assert "move-window"[0] != "new-session"[0];
  }

  lemma LinkWindowReads()
    ensures CommandOf(Spelt(Fixed("link-window"))) == Some(LinkWindowCommand)
  {
    SpeltBack("link-window");
    assert "link-window"[0] != "new-session"[0] && "link-window"[0] != "move-window"[0];
  }

  lemma SelectLayoutReads()
    ensures CommandOf(Spelt(Fixed("select-layout"))) == Some(SelectLayoutCommand)
  {
    SpeltBack("select-layout");
  }

  lemma SendKeysReads()
    ensures CommandOf(Spelt(Fixed("send-keys"))) == Some(SendKeysCommand)
  {
    SpeltBack("send-keys");
  }

  lemma SelectPaneReads()
    ensures CommandOf(Spelt(Fixed("select-pane"))) == Some(SelectPaneCommand)
  {
    SpeltBack("select-pane");
    assert "select-pane"[0] != "new-session"[0] && "select-pane"[0] != "move-window"[0] && "select-pane"[0] != "link-window"[0];
  }

  lemma SelectWindowReads()
    ensures CommandOf(Spelt(Fixed("select-window"))) == Some(SelectWindowCommand)
  {
    SpeltBack("select-window");
    assert "select-window"[7] != "select-layout"[7];
  }

  lemma SetOptionReads()
    ensures CommandOf(Spelt(Fixed("set-option"))) == Some(SetOptionCommand)
  {
    SpeltBack("set-option");
    assert "set-option"[0] != "new-window"[0];
  }

  lemma ListClientsReads()
    ensures CommandOf(Spelt(Fixed("list-clients"))) == Some(ListClientsCommand)
  {
    SpeltBack("list-clients");
    assert "list-clients"[0] != "split-window"[0];
  }

  lemma SwitchClientReads()
    ensures CommandOf(Spelt(Fixed("switch-client"))) == Some(SwitchClientCommand)
  {
    SpeltBack("switch-client");
    assert "switch-client"[1] != "select-layout"[1] && "switch-client"[1] != "select-window"[1];
  }

  lemma KillSessionReads()
    ensures CommandOf(Spelt(Fixed("kill-session"))) == Some(KillSessionCommand)
  {
    SpeltBack("kill-session");
    assert "kill-session"[0] != "split-window"[0] && "kill-session"[0] != "list-clients"[0];
  }

  // ---- What is typed ----

  const SEMICOLON: Byte := 59
  const NEWLINE: Byte := 10

  predicate IsLetter(b: Byte) { 65 <= b <= 90 || 97 <= b <= 122 }

  /** A character the shell takes as it is, wherever it stands. */
  predicate IsPlain(b: Byte) { IsLetter(b) || F.IsDigit(b) || b == MINUS }

  datatype Lexeme = Word(text: Text) | Semi

  function Ending(begun: bool, acc: Text): seq<Lexeme> { if begun then [Word(acc)] else [] }

  /** A line as the shell cuts it (sections 2.2.1, 2.2.2 and 2.9.3 of the POSIX Shell
      Command Language): into words, and the semicolons that end a command. None when
      something in it is not read as itself. */
  function Lexed(quoted: bool, begun: bool, acc: Text, s: Text): (r: Option<seq<Lexeme>>)
    decreases |s|
  {
    if |s| == 0 then if quoted then None else Some(Ending(begun, acc))
    else if quoted then
      if s[0] == QUOTE then Lexed(false, true, acc, s[1..]) else Lexed(true, true, acc + [s[0]], s[1..])
    else if s[0] == QUOTE then Lexed(true, true, acc, s[1..])
    else if s[0] == SPACE || s[0] == SEMICOLON then
      match Lexed(false, false, [], s[1..])
      case None => None
      case Some(more) => Some(Ending(begun, acc) + (if s[0] == SEMICOLON then [Semi] else []) + more)
    else if s[0] == BACKSLASH && |s| > 1 && s[1] != NEWLINE then Lexed(false, true, acc + [s[1]], s[2..])
    else if IsPlain(s[0]) then Lexed(false, true, acc + [s[0]], s[1..])
    else None
  }

  /** What running a line comes to: a file printed and removed shows its lines;
      anything else is the line itself. */
  function Ran(disk: map<Text, seq<Text>>, line: Text): T.Typed {
    match Lexed(false, false, [], line)
    case Some(l) =>
      if && |l| == 6 && l[0].Word? && l[1].Word? && l[2].Semi? && l[3].Word? && l[4].Word? && l[5].Word?
         && Spelt(l[0].text) == "cat" && Spelt(l[3].text) == "rm" && Spelt(l[4].text) == "-f"
         && l[1] == l[5] && l[1].text in disk
      then T.Replayed(disk[l[1].text])
      else T.Line(line)
    case None => T.Line(line)
  }

  /** An argument of `send-keys` no key is named by, and so typed as it stands. */
  predicate Literal(w: Text) { w == [] || SPACE in w || !IsLetter(w[0]) }

  // ---- What a command does, and answers ----

  /** What a server's answers depend on besides its state: the number a session made
      gets, the order its clients are listed in, and the files its shells can read. */
  datatype Around = Around(session: nat, listing: map<Text, Text> -> seq<Text>, disk: map<Text, seq<Text>>)

  datatype Answer = Answer(server: T.Server, lines: seq<Text>)

  function ValueOf(o: Options, c: char): Option<Text> { if c in o.values then Some(o.values[c]) else None }

  function TargetIn(o: Options, c: char): Target { if c in o.values then TargetOf(o.values[c]) else Loose }

  /** Ids on one line, a space between them. */
  function SessionLine(session: nat, v: Id, p: Id): Text { ([DOLLAR] + Decimal(session)) + ([SPACE] + WindowLine(v, p)) }

  function WindowLine(v: Id, p: Id): Text { AtWindow(v) + ([SPACE] + AtPane(p)) }

  /** What `-P -F` reports of what was made. */
  function Report(o: Options, a: Around, v: Id, p: Id): seq<Text> {
    if 'P' !in o.flags || 'F' !in o.values then [] else
    var format := Spelt(o.values['F']);
    if format == "#{session_id} #{window_id} #{pane_id}" then [SessionLine(a.session, v, p)]
    else if format == "#{window_id} #{pane_id}" then [WindowLine(v, p)]
    else if format == "#{pane_id}" then [AtPane(p)]
    else []
  }

  function Quietly(server: Option<T.Server>): Option<Answer> {
    match server case None => None case Some(s) => Some(Answer(s, []))
  }

  function Making(o: Options, a: Around, made: Option<T.Created>): Option<Answer> {
    match made case None => None case Some(c) => Some(Answer(c.server, Report(o, a, c.window, c.pane)))
  }

  /** A window's mark: the generation, a colon, the saved window's id. */
  function MarkOf(value: Text): Option<(Generation, Id)> {
    var i := ColonAt(value);
    if i == |value| then None else
    match SignedNumber(value[..i])
    case None => None
    case Some(g) => match TargetOf(value[i + 1..]) case OfWindow(v) => Some((g, v)) case _ => None
  }

  function SettingOption(s: T.Server, o: Options): Option<T.Server> {
    if |o.rest| != 2 then None else
    var key, value := Spelt(o.rest[0]), o.rest[1];
    if o.flags == {'s'} && 't' !in o.values && key == "@phoenix-generation" then
      match SignedNumber(value) case None => None case Some(g) => T.MarkServer(s, g)
    else if o.flags == {} && TargetIn(o, 't').OfSession? && key == "@phoenix-restored" then
      match SignedNumber(value) case None => None case Some(g) => T.MarkSession(s, TargetIn(o, 't').name, g)
    else if o.flags == {'w'} && TargetIn(o, 't').OfWindow? && key == "@phoenix-window" then
      match MarkOf(value) case None => None case Some((g, saved)) => T.MarkWindow(s, TargetIn(o, 't').id, g, saved)
    else None
  }

  /** The clients on a session, in the order given. */
  function Among(clients: map<Text, Text>, order: seq<Text>, session: Text): (on: seq<Text>) {
    if |order| == 0 then []
    else (if order[0] in clients && clients[order[0]] == session then [order[0]] else []) + Among(clients, order[1..], session)
  }

  /** A client gone before it could be moved is an answer, as an index a window is at
      already is. */
  function SwitchClient(s: T.Server, client: Text, onto: Text): Option<T.Server> {
    if onto !in s.sessions then None
    else if client !in s.clients then Some(s)
    else Some(s.(clients := s.clients[client := onto]))
  }

  /** One command with its flags read; none is `%error`, and so is anything a restore
      has no use for. Everything made is made detached. */
  function Heeded(a: Around, s: T.Server, command: Command, o: Options): Option<Answer> {
    var (at, source) := (TargetIn(o, 't'), TargetIn(o, 's'));
    match command
    case NewSessionCommand =>
      if 'd' !in o.flags || 's' !in o.values || o.rest != [] then None
      else Making(o, a, T.NewSession(s, o.values['s'], ValueOf(o, 'n'), ValueOf(o, 'c')))
    case NewWindowCommand =>
      if 'd' !in o.flags || !at.OfIndex? || 'n' !in o.values || o.rest != [] then None
      else Making(o, a, T.NewWindow(s, at.name, at.index, o.values['n'], ValueOf(o, 'c')))
    case SplitWindowCommand =>
      if 'd' !in o.flags || !at.OfPane? || o.rest != [] then None
      else (match T.SplitWindow(s, at.id, ValueOf(o, 'c'))
            case None => None
            case Some((after, p)) => Some(Answer(after, Report(o, a, 0, p))))
    case MoveWindowCommand =>
      if 'd' !in o.flags || !source.OfWindow? || !at.OfIndex? || o.rest != [] then None
      else Quietly(T.MoveWindow(s, source.id, at.name, at.index))
    case LinkWindowCommand =>
      if 'd' !in o.flags || !source.OfWindow? || !at.OfIndex? || o.rest != [] then None
      else Quietly(T.LinkWindow(s, source.id, at.name, at.index, 'k' in o.flags))
    case SelectLayoutCommand =>
      if !at.OfWindow? || |o.rest| != 1 then None else Quietly(T.SelectLayout(s, at.id, o.rest[0]))
    case SendKeysCommand =>
      if !at.OfPane? || |o.rest| != 2 || !Literal(o.rest[0]) || Spelt(o.rest[1]) != "Enter" then None
      else Quietly(T.TypeInto(s, at.id, Ran(a.disk, o.rest[0])))
    case SelectPaneCommand =>
      if !at.OfPane? || o.rest != [] then None else Quietly(T.SelectPane(s, at.id))
    case SelectWindowCommand =>
      if !at.OfIndex? || o.rest != [] then None else Quietly(T.SelectWindow(s, at.name, at.index))
    case SetOptionCommand => Quietly(SettingOption(s, o))
    case ListClientsCommand =>
      if !at.OfSession? || at.name !in s.sessions || o.rest != [] then None
      else if 'F' !in o.values || Spelt(o.values['F']) != "#{client_name}" then None
      else Some(Answer(s, Among(s.clients, a.listing(s.clients), at.name)))
    case SwitchClientCommand =>
      if !at.OfSession? || 'c' !in o.values || o.rest != [] then None
      else Quietly(SwitchClient(s, o.values['c'], at.name))
    case KillSessionCommand =>
      if !at.OfSession? || o.rest != [] then None else Quietly(T.KillSession(s, at.name))
  }

  /** A command's words, read and run. */
  function Obeyed(a: Around, s: T.Server, words: seq<Text>): Option<Answer> {
    if |words| == 0 then None else
    match CommandOf(Spelt(words[0]))
    case None => None
    case Some(command) =>
      match OptionsOf(ShapeOf(command), words[1..])
      case None => None
      case Some(o) => Heeded(a, s, command, o)
  }

  lemma ObeyedIs(a: Around, s: T.Server, words: seq<Text>, name: Text, command: Command, more: seq<Text>, o: Options)
    requires words == [name] + more && CommandOf(Spelt(name)) == Some(command)
    requires OptionsOf(ShapeOf(command), more) == Some(o)
    ensures Obeyed(a, s, words) == Heeded(a, s, command, o)
  {
    hide CommandOf, OptionsOf, Heeded, ShapeOf;
    assert words[1..] == more;
  }
}
