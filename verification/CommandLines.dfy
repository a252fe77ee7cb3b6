/** tmux-control/src/protocol/encode.rs: a command as one line tmux's lexer reads
    back as exactly its arguments; and, through it, the line a relaunch types as
    the shell reads that back. */
module CommandLines {
  import opened Wrappers
  import Steps

  const NUL: Byte := 0
  const NEWLINE: Byte := 10
  const SPACE: Byte := 32
  const DOUBLE: Byte := 34
  const HASH: Byte := 35
  const DOLLAR: Byte := 36
  const PERCENT: Byte := 37
  const SINGLE: Byte := 39
  const SEMICOLON: Byte := 59
  const BACKSLASH: Byte := 92
  const OPEN: Byte := 123
  const CLOSE: Byte := 125
  const TILDE: Byte := 126

  // ---- Encoding ----

  predicate NeedsQuotes(c: Byte) {
    c in [SPACE, HASH, SINGLE, SEMICOLON, DOLLAR, OPEN, CLOSE, PERCENT, DOUBLE]
  }

  function Octal(c: Byte): Text
    requires c < 128
  {
    [BACKSLASH, 48 + c / 64, 48 + c / 8 % 8, 48 + c % 8]
  }

  /** How a byte is spelt inside a token. */
  function Pushed(c: Byte): Text {
    if c == BACKSLASH || c == DOUBLE || c == DOLLAR then [BACKSLASH, c]
    else if c == 10 then [BACKSLASH, 110]
    else if c == 13 then [BACKSLASH, 114]
    else if c == 9 then [BACKSLASH, 116]
    else if c == 7 then [BACKSLASH, 97]
    else if c == 8 then [BACKSLASH, 98]
    else if c == 11 then [BACKSLASH, 118]
    else if c == 12 then [BACKSLASH, 102]
    else if 32 <= c <= 126 || c >= 128 then [c]
    else Octal(c)
  }

  function PushedAll(s: Text): Text {
    if |s| == 0 then [] else Pushed(s[0]) + PushedAll(s[1..])
  }

  predicate Quoted(arg: Text) { exists i :: 0 <= i < |arg| && NeedsQuotes(arg[i]) }

  /** `arg` as one token; none when it holds a NUL, which no token can. */
  function Token(arg: Text): (r: Option<Text>) {
    if NUL in arg then None
    else if arg == [] then Some([SINGLE, SINGLE])
    else if |arg| == 1 && arg[0] != SPACE && (Quoted(arg) || arg[0] == TILDE) then Some([BACKSLASH, arg[0]])
    else
      var quote := if Quoted(arg) then [DOUBLE] else [];
      var tilde := if arg[0] == TILDE then [BACKSLASH] else [];
      Some(quote + (tilde + (PushedAll(arg) + quote)))
  }

  /** The tokens of the words, a space between them and a newline after. */
  function Line(words: seq<Text>): (r: Result<Text, Text>)
    requires |words| > 0
  {
    match Token(words[0])
    case None => Err(words[0])
    case Some(token) =>
      if |words| == 1 then Ok(token + [NEWLINE])
      else match Line(words[1..])
           case Err(argument) => Err(argument)
           case Ok(rest) => Ok(token + ([SPACE] + rest))
  }

  method Escape(arg: Text) returns (r: Option<Text>)
    ensures r == Token(arg)
  {
    hide Pushed, NeedsQuotes;
    if NUL in arg {
      return None;
    }
    var quoted := Quoted(arg);
    if |arg| == 0 {
      return Some([SINGLE, SINGLE]);
    }
    if |arg| == 1 && arg[0] != SPACE && (quoted || arg[0] == TILDE) {
      return Some([BACKSLASH, arg[0]]);
    }
    var quote := if quoted then [DOUBLE] else [];
    var token := quote + (if arg[0] == TILDE then [BACKSLASH] else []);
    ghost var start := token;
    for i := 0 to |arg|
      invariant start + PushedAll(arg) == token + PushedAll(arg[i..])
    {
      assert arg[i..][1..] == arg[i + 1..];
      token := token + Pushed(arg[i]);
    }
    assert token + PushedAll(arg[|arg|..]) == token;
    token := token + quote;
    ghost var tilde: Text := if arg[0] == TILDE then [BACKSLASH] else [];
    assert token == quote + (tilde + (PushedAll(arg) + quote));
    return Some(token);
  }

  function Onto(line: Text, rest: Result<Text, Text>): Result<Text, Text> {
    match rest
    case Ok(more) => Ok(line + more)
    case Err(argument) => Err(argument)
  }

  /** The command line, or the first argument that holds a NUL. */
  method New(name: Text, args: seq<Text>) returns (r: Result<Text, Text>)
    ensures r == Line([name] + args)
  {
    hide Token;
    var words := [name] + args;
    var line: Text := [];
    OntoNothing(Line(words));
    assert words[0..] == words;
    for i := 0 to |words|
      invariant i < |words| ==> Line(words) == Onto(line, Line(words[i..]))
      invariant i == |words| ==> Line(words) == Ok(line)
    {
      var token := Escape(words[i]);
      if token.None? {
        return Err(words[i]);
      }
      assert words[i..][1..] == words[i + 1..];
      if i + 1 == |words| {
        assert line + (token.value + [NEWLINE]) == line + token.value + [NEWLINE];
        line := line + token.value + [NEWLINE];
      } else {
        OntoJoins(line, token.value, Line(words[i + 1..]));
        line := line + token.value + [SPACE];
      }
    }
    return Ok(line);
  }

  lemma OntoNothing(rest: Result<Text, Text>)
    ensures Onto([], rest) == rest
  {
    if rest.Ok? {
      assert [] + rest.value == rest.value;
    }
  }

  lemma OntoJoins(line: Text, token: Text, rest: Result<Text, Text>)
    ensures rest.Ok? ==> line + (token + ([SPACE] + rest.value)) == (line + token + [SPACE]) + rest.value
  {}

  // ---- tmux's lexer, as far as the encoder relies on it ----

  /** What follows a backslash, bare or in double quotes. */
  function Unescaped(s: Text): (r: Option<(Byte, Text)>)
    ensures r.Some? ==> |r.value.1| < |s|
  {
    if |s| == 0 then None
    else if 48 <= s[0] <= 55 then
      if s[0] <= 51 && |s| >= 3 && 48 <= s[1] <= 55 && 48 <= s[2] <= 55
      then Some(((s[0] - 48) * 64 + (s[1] - 48) * 8 + (s[2] - 48), s[3..])) else None
    else if s[0] == 10 || s[0] == 117 || s[0] == 85 then None
    else
      var c: Byte := match s[0]
        case 97 => 7
        case 98 => 8
        case 101 => 27
        case 102 => 12
        case 110 => 10
        case 114 => 13
        case 115 => 32
        case 116 => 9
        case 118 => 11
        case _ => s[0];
      Some((c, s[1..]))
  }

  datatype Mode = Bare | InDouble | InSingle

  /** One word from here: its text and what follows it. None when anything fires
      that is not a plain character: a variable, a home directory, a comment, a
      condition, a block, a second command, or a newline inside quotes. `first`
      holds at the start of a word and of each quoted or bare run in it. */
  function Word(mode: Mode, first: bool, acc: Text, s: Text): (r: Option<(Text, Text)>)
    ensures r.Some? ==> |r.value.1| <= |s|
    ensures r.Some? && |s| > 0 && s[0] != SPACE && s[0] != NEWLINE ==> |r.value.1| < |s|
    decreases |s|
  {
    if |s| == 0 then None
    else if s[0] == NEWLINE then if mode.Bare? then Some((acc, s)) else None
    else if mode.InSingle? then
      if s[0] == SINGLE then Word(Bare, true, acc, s[1..]) else Word(InSingle, false, acc + [s[0]], s[1..])
    else if s[0] == BACKSLASH then
      match Unescaped(s[1..])
      case None => None
      case Some((c, rest)) => Word(mode, false, acc + [c], rest)
    else if s[0] == DOLLAR || (s[0] == TILDE && first) then None
    else if mode.InDouble? then
      if s[0] == DOUBLE then Word(Bare, true, acc, s[1..]) else Word(InDouble, false, acc + [s[0]], s[1..])
    else if s[0] == SPACE then Some((acc, s))
    else if s[0] in [9, HASH, SEMICOLON, OPEN, CLOSE, PERCENT] then None
    else if s[0] == SINGLE then Word(InSingle, true, acc, s[1..])
    else if s[0] == DOUBLE then Word(InDouble, true, acc, s[1..])
    else Word(Bare, false, acc + [s[0]], s[1..])
  }

  /** The words of one line, which its newline ends. */
  function Words(s: Text): (r: Option<seq<Text>>)
    decreases |s|
  {
    if |s| == 0 then None
    else if s[0] == NEWLINE then if |s| == 1 then Some([]) else None
    else if s[0] == SPACE then Words(s[1..])
    else match Word(Bare, true, [], s)
         case None => None
         case Some((word, rest)) =>
           match Words(rest)
           case None => None
           case Some(words) => Some([word] + words)
  }

  // ---- The lexer reads back what was encoded ----

  lemma OctalReads(c: Byte, rest: Text)
    requires c < 128
    ensures Unescaped(Octal(c)[1..] + rest) == Some((c, rest))
  {
    var s := Octal(c)[1..] + rest;
    assert s[3..] == rest;
    assert c / 64 * 64 + c / 8 % 8 * 8 + c % 8 == c by { assert c / 8 / 8 == c / 64; }
  }

  /** One pushed byte is read as itself, in a mode it was pushed for. */
  lemma PushedReads(mode: Mode, first: bool, acc: Text, c: Byte, rest: Text)
    requires !mode.InSingle? && c != NUL && (first ==> c != TILDE) && (mode.Bare? ==> !NeedsQuotes(c))
    ensures Word(mode, first, acc, Pushed(c) + rest) == Word(mode, false, acc + [c], rest)
  {
    var s := Pushed(c) + rest;
    if |Pushed(c)| == 1 {
      assert s[1..] == rest;
    } else if |Pushed(c)| == 2 {
      assert s[1..] == [Pushed(c)[1]] + rest;
      assert s[1..][1..] == rest;
      assert Unescaped(s[1..]) == Some((c, rest));
    } else {
      assert s[1..] == Octal(c)[1..] + rest;
      OctalReads(c, rest);
    }
  }

  lemma {:induction false} PushedAllReads(mode: Mode, first: bool, acc: Text, arg: Text, rest: Text)
    requires !mode.InSingle? && NUL !in arg && arg != [] && (first ==> arg[0] != TILDE)
    requires mode.Bare? ==> !Quoted(arg)
    ensures Word(mode, first, acc, PushedAll(arg) + rest) == Word(mode, false, acc + arg, rest)
    decreases |arg|
  {
    hide Word, Pushed, NeedsQuotes;
    var more := PushedAll(arg[1..]) + rest;
    assert PushedAll(arg) + rest == Pushed(arg[0]) + more;
    PushedReads(mode, first, acc, arg[0], more);
    if |arg| == 1 {
      assert more == rest && arg == [arg[0]];
    } else {
      assert mode.Bare? ==> !Quoted(arg[1..]);
      PushedAllReads(mode, false, acc + [arg[0]], arg[1..], rest);
      assert acc + [arg[0]] + arg[1..] == acc + arg;
    }
  }

  lemma TildeReads(mode: Mode, more: Text)
    requires !mode.InSingle?
    ensures Word(mode, true, [], [BACKSLASH, TILDE] + more) == Word(mode, false, [TILDE], more)
  {
    LoneEscape(TILDE, more);
    assert ([BACKSLASH, TILDE] + more)[1..] == [TILDE] + more;
    assert [] + [TILDE] == [TILDE];
  }

  /** A special character after a backslash is itself. */
  lemma LoneEscape(c: Byte, more: Text)
    requires NeedsQuotes(c) || c == TILDE
    ensures Unescaped([c] + more) == Some((c, more))
  {
    assert ([c] + more)[1..] == more;
  }

  /** The characters after a token's opening quote, if any. */
  lemma BodyReads(mode: Mode, arg: Text, rest: Text)
    requires !mode.InSingle? && NUL !in arg && arg != [] && (mode.Bare? ==> !Quoted(arg))
    ensures var tilde := if arg[0] == TILDE then [BACKSLASH] else [];
            Word(mode, true, [], tilde + PushedAll(arg) + rest) == Word(mode, false, arg, rest)
  {
    hide Word, NeedsQuotes;
    if arg[0] == TILDE {
      var more := PushedAll(arg[1..]) + rest;
      assert Pushed(TILDE) == [TILDE];
      assert [BACKSLASH] + PushedAll(arg) + rest == [BACKSLASH, TILDE] + more;
      TildeReads(mode, more);
      if |arg| > 1 {
        assert mode.Bare? ==> !Quoted(arg[1..]);
        PushedAllReads(mode, false, [TILDE], arg[1..], rest);
        assert [TILDE] + arg[1..] == arg;
      } else {
        assert arg == [TILDE] && more == rest;
      }
    } else {
      PushedAllReads(mode, true, [], arg, rest);
      assert [] + PushedAll(arg) + rest == PushedAll(arg) + rest;
      assert [] + arg == arg;
    }
  }

  lemma EmptyReads(rest: Text)
    requires |rest| > 0 && (rest[0] == SPACE || rest[0] == NEWLINE)
    ensures Word(Bare, true, [], [SINGLE, SINGLE] + rest) == Some(([], rest))
  {
    var s := [SINGLE, SINGLE] + rest;
    assert s[1..] == [SINGLE] + rest && s[1..][1..] == rest;
    assert Word(InSingle, true, [], s[1..]) == Word(Bare, true, [], rest) == Some(([], rest));
  }

  lemma LoneReads(c: Byte, rest: Text)
    requires NeedsQuotes(c) || c == TILDE
    requires |rest| > 0 && (rest[0] == SPACE || rest[0] == NEWLINE)
    ensures Word(Bare, true, [], [BACKSLASH, c] + rest) == Some(([c], rest))
  {
    hide Unescaped, NeedsQuotes;
    LoneEscape(c, rest);
    assert ([BACKSLASH, c] + rest)[1..] == [c] + rest;
    assert [] + [c] == [c];
    assert Word(Bare, false, [c], rest) == Some(([c], rest));
  }

  /** A token is one word, read as the argument it encodes. */
  lemma TokenReads(arg: Text, rest: Text)
    requires NUL !in arg && |rest| > 0 && (rest[0] == SPACE || rest[0] == NEWLINE)
    ensures Token(arg).Some? && |Token(arg).value| > 0
    ensures Token(arg).value[0] != SPACE && Token(arg).value[0] != NEWLINE
    ensures Word(Bare, true, [], Token(arg).value + rest) == Some((arg, rest))
  {
    hide Word, PushedAll, NeedsQuotes;
    if arg == [] {
      EmptyReads(rest);
    } else if |arg| == 1 && arg[0] != SPACE && (Quoted(arg) || arg[0] == TILDE) {
      LoneReads(arg[0], rest);
      assert arg == [arg[0]];
    } else {
      var tilde := if arg[0] == TILDE then [BACKSLASH] else [];
      if Quoted(arg) {
        QuotedReads(arg, tilde, rest);
      } else {
        assert Token(arg).value == tilde + PushedAll(arg);
        BodyReads(Bare, arg, rest);
        FirstIsPlain(arg, tilde);
        Ends(arg, rest);
      }
    }
  }

  lemma Ends(acc: Text, rest: Text)
    requires |rest| > 0 && (rest[0] == SPACE || rest[0] == NEWLINE)
    ensures Word(Bare, false, acc, rest) == Some((acc, rest))
  {}

  lemma OpenQuote(more: Text)
    ensures Word(Bare, true, [], [DOUBLE] + more) == Word(InDouble, true, [], more)
  {
    assert ([DOUBLE] + more)[1..] == more;
  }

  lemma CloseQuote(acc: Text, rest: Text)
    requires |rest| > 0 && (rest[0] == SPACE || rest[0] == NEWLINE)
    ensures Word(InDouble, false, acc, [DOUBLE] + rest) == Some((acc, rest))
  {
    assert ([DOUBLE] + rest)[1..] == rest;
    assert Word(InDouble, false, acc, [DOUBLE] + rest) == Word(Bare, true, acc, rest);
  }

  lemma QuotedReads(arg: Text, tilde: Text, rest: Text)
    requires NUL !in arg && arg != [] && tilde == if arg[0] == TILDE then [BACKSLASH] else []
    requires |rest| > 0 && (rest[0] == SPACE || rest[0] == NEWLINE)
    ensures Word(Bare, true, [], [DOUBLE] + (tilde + (PushedAll(arg) + [DOUBLE])) + rest) == Some((arg, rest))
  {
    hide PushedAll, Word, Quoted;
    var more := tilde + PushedAll(arg) + ([DOUBLE] + rest);
    assert [DOUBLE] + (tilde + (PushedAll(arg) + [DOUBLE])) + rest == [DOUBLE] + more;
    OpenQuote(more);
    BodyReads(InDouble, arg, [DOUBLE] + rest);
    CloseQuote(arg, rest);
  }

  lemma FirstIsPlain(arg: Text, tilde: Text)
    requires NUL !in arg && arg != [] && !Quoted(arg) && tilde == if arg[0] == TILDE then [BACKSLASH] else []
    ensures |tilde + PushedAll(arg)| > 0
    ensures (tilde + PushedAll(arg))[0] != SPACE && (tilde + PushedAll(arg))[0] != NEWLINE
  {
    assert !NeedsQuotes(arg[0]);
    assert |Pushed(arg[0])| > 0 && PushedAll(arg)[0] == Pushed(arg[0])[0];
  }

  ghost predicate NoNul(words: seq<Text>) {
    forall i :: 0 <= i < |words| ==> NUL !in words[i]
  }

  /** For all NUL-free words, tmux's lexer reads the line back as exactly them,
      with nothing expanded and no second command. */
  lemma {:induction false} LineReads(words: seq<Text>)
    requires |words| > 0 && NoNul(words)
    ensures Line(words).Ok? && Words(Line(words).value) == Some(words)
    decreases |words|
  {
    hide Word, Token;
    var end: Text := [NEWLINE];
    if |words| == 1 {
      TokenReads(words[0], end);
      assert Words(end) == Some([]);
      assert (Token(words[0]).value + end)[0] == Token(words[0]).value[0];
      assert words == [words[0]] + [];
    } else {
      LineReads(words[1..]);
      var rest := [SPACE] + Line(words[1..]).value;
      TokenReads(words[0], rest);
      assert rest[1..] == Line(words[1..]).value;
      assert Words(rest) == Some(words[1..]);
      assert (Token(words[0]).value + rest)[0] == Token(words[0]).value[0];
      assert words == [words[0]] + words[1..];
    }
  }

  /** A line is refused exactly when some word holds a NUL, and names the first. */
  lemma {:induction false} LineRefuses(words: seq<Text>)
    requires |words| > 0
    ensures Line(words).Err? <==> !NoNul(words)
    ensures Line(words).Err? ==>
              exists i :: 0 <= i < |words| && Line(words).error == words[i] && NUL in words[i] && NoNul(words[..i])
    decreases |words|
  {
    hide Token;
    TokenRefuses(words[0]);
    if NUL in words[0] {
      assert NoNul(words[..0]);
    } else if |words| > 1 {
      LineRefuses(words[1..]);
      if Line(words[1..]).Err? {
        var i :| 0 <= i < |words[1..]| && Line(words[1..]).error == words[1..][i] && NUL in words[1..][i] && NoNul(words[1..][..i]);
        assert words[i + 1] == words[1..][i];
        assert forall k :: 1 <= k <= i ==> words[k] == words[1..][..i][k - 1];
        assert NoNul(words[..i + 1]);
      }
    }
  }

  lemma TokenRefuses(arg: Text)
    ensures Token(arg).None? <==> NUL in arg
  {}

  /** A wire line has exactly one newline, its last byte. */
  lemma {:induction false} LineIsOneLine(words: seq<Text>)
    requires |words| > 0 && Line(words).Ok?
    ensures var line := Line(words).value;
            |line| > 0 && line[|line| - 1] == NEWLINE && NEWLINE !in line[..|line| - 1]
    decreases |words|
  {
    hide Token;
    var token := Token(words[0]).value;
    TokenIsOneLine(words[0]);
    if |words| == 1 {
      assert (token + [NEWLINE])[..|token|] == token;
    } else {
      LineIsOneLine(words[1..]);
      var rest := Line(words[1..]).value;
      var line := token + ([SPACE] + rest);
      assert line[..|line| - 1] == token + ([SPACE] + rest[..|rest| - 1]);
    }
  }

  lemma TokenIsOneLine(arg: Text)
    requires Token(arg).Some?
    ensures NEWLINE !in Token(arg).value
  {
    PushedHasNoNewline(arg);
    if |arg| == 1 && Quoted(arg) {
      assert NeedsQuotes(arg[0]);
    }
  }

  lemma {:induction false} PushedHasNoNewline(arg: Text)
    ensures NEWLINE !in PushedAll(arg)
  {
    if |arg| > 0 {
      PushedHasNoNewline(arg[1..]);
    }
  }

  // ---- The shell reads back what is relaunched ----

  /** One shell word (sections 2.2.1 and 2.2.2 of the POSIX Shell Command
      Language): single quotes keep everything, a backslash outside them keeps
      the next character, a space ends the word. None for anything else bare. */
  function ShellWord(quoted: bool, acc: Text, s: Text): (r: Option<(Text, Text)>)
    ensures r.Some? ==> |r.value.1| <= |s|
    decreases |s|
  {
    if |s| == 0 then if quoted then None else Some((acc, s))
    else if quoted then
      if s[0] == SINGLE then ShellWord(false, acc, s[1..]) else ShellWord(true, acc + [s[0]], s[1..])
    else if s[0] == SINGLE then ShellWord(true, acc, s[1..])
    else if s[0] == SPACE then Some((acc, s))
    else if s[0] == BACKSLASH && |s| > 1 && s[1] != NEWLINE then ShellWord(false, acc + [s[1]], s[2..])
    else None
  }

  function ShellWords(s: Text): (r: Option<seq<Text>>)
    decreases |s|
  {
    match ShellWord(false, [], s)
    case None => None
    case Some((word, rest)) =>
      if |rest| == 0 then Some([word])
      else match ShellWords(rest[1..])
           case None => None
           case Some(words) => Some([word] + words)
  }

  /** A quote closed over, escaped and reopened is one quote. */
  lemma QuotedQuote(acc: Text, more: Text)
    ensures ShellWord(true, acc, [SINGLE, BACKSLASH, SINGLE, SINGLE] + more) == ShellWord(true, acc + [SINGLE], more)
  {
    var all := [SINGLE, BACKSLASH, SINGLE, SINGLE] + more;
    assert all[1..] == [BACKSLASH, SINGLE, SINGLE] + more;
    assert all[1..][2..] == [SINGLE] + more;
    assert ([SINGLE] + more)[1..] == more;
    assert ShellWord(true, acc, all) == ShellWord(false, acc, all[1..]) == ShellWord(false, acc + [SINGLE], [SINGLE] + more);
  }

  lemma {:induction false} QuoteReads(acc: Text, s: Text, rest: Text)
    ensures ShellWord(true, acc, Steps.QuoteInner(s) + [SINGLE] + rest) == ShellWord(false, acc + s, rest)
    decreases |s|
  {
    var all := Steps.QuoteInner(s) + [SINGLE] + rest;
    if |s| == 0 {
      assert all[1..] == rest && acc + s == acc;
    } else {
      var more := Steps.QuoteInner(s[1..]) + [SINGLE] + rest;
      QuoteReads(acc + [s[0]], s[1..], rest);
      assert acc + [s[0]] + s[1..] == acc + s;
      if s[0] == SINGLE {
        assert all == [SINGLE, BACKSLASH, SINGLE, SINGLE] + more;
        QuotedQuote(acc, more);
      } else {
        assert all[1..] == more;
      }
    }
  }

  lemma ShellQuoteReads(s: Text, rest: Text)
    ensures ShellWord(false, [], Steps.ShellQuote(s) + rest) == ShellWord(false, s, rest)
  {
    var all := Steps.ShellQuote(s) + rest;
    assert all[1..] == Steps.QuoteInner(s) + [SINGLE] + rest;
    QuoteReads([], s, rest);
    assert [] + s == s;
  }

  lemma {:induction false} RelaunchReads(argv: seq<Text>)
    requires |argv| > 0
    ensures ShellWords(Steps.RelaunchLine(argv)) == Some(argv)
    decreases |argv|
  {
    if |argv| == 1 {
      ShellQuoteReads(argv[0], []);
      assert Steps.ShellQuote(argv[0]) + [] == Steps.ShellQuote(argv[0]);
      assert argv == [argv[0]];
    } else {
      var rest := [SPACE] + Steps.RelaunchLine(argv[1..]);
      ShellQuoteReads(argv[0], rest);
      assert Steps.ShellQuote(argv[0]) + [SPACE] + Steps.RelaunchLine(argv[1..]) == Steps.ShellQuote(argv[0]) + rest;
      assert rest[1..] == Steps.RelaunchLine(argv[1..]);
      RelaunchReads(argv[1..]);
      assert argv == [argv[0]] + argv[1..];
    }
  }

  /** What `type_line` sends to run a saved program. */
  function TypeLine(pane: Text, line: Text): seq<Text> {
    [Ascii("send-keys"), Ascii("-t"), pane, line, Ascii("Enter")]
  }

  /** A relaunched program gets its saved arguments unchanged: the command line
      is one line, tmux types the relaunch line as it was built, and the shell
      splits that into the very words that were saved. */
  lemma RelaunchArrives(pane: Text, argv: seq<Text>)
    requires |argv| > 0 && NUL !in pane && NoNul(argv)
    ensures var words := TypeLine(pane, Steps.RelaunchLine(argv));
            && Line(words).Ok?
            && Words(Line(words).value) == Some(words)
            && ShellWords(words[3]) == Some(argv)
  {
    hide Words, Line, ShellWords, Steps.RelaunchLine, TypeLine, Ascii;
    RelaunchHasNoNul(argv);
    TypeLineHasNoNul(pane, Steps.RelaunchLine(argv));
    LineReads(TypeLine(pane, Steps.RelaunchLine(argv)));
    RelaunchReads(argv);
  }

  lemma TypeLineHasNoNul(pane: Text, line: Text)
    requires NUL !in pane && NUL !in line
    ensures NoNul(TypeLine(pane, line)) && |TypeLine(pane, line)| == 5 && TypeLine(pane, line)[3] == line
  {}

  lemma {:induction false} QuoteHasNoNul(s: Text)
    requires NUL !in s
    ensures NUL !in Steps.QuoteInner(s)
  {
    if |s| > 0 {
      QuoteHasNoNul(s[1..]);
    }
  }

  lemma {:induction false} RelaunchHasNoNul(argv: seq<Text>)
    requires NoNul(argv)
    ensures NUL !in Steps.RelaunchLine(argv)
    decreases |argv|
  {
    if |argv| > 0 {
      QuoteHasNoNul(argv[0]);
      RelaunchHasNoNul(argv[1..]);
    }
  }
}
