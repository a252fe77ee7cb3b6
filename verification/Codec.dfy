/** phoenix-store/src/codec.rs: a snapshot's body, as the bytes written for it
    and the value read back, part by part. Each part has what it puts, what it
    gets, what it can hold, and two lemmas: `…Rounds`, that it gets back what it
    put; and `…Backs`, that whatever it accepts is what it would have put. */
module Codec {
  import opened Wrappers
  import opened Snapshots
  import opened Bytes
  import opened Checksum

  lemma Join(a: seq<Byte>, b: seq<Byte>, rest: seq<Byte>)
    ensures (a + b) + rest == a + (b + rest)
  {}

  // ---- Names and options ----

  predicate IsName(s: Text) { IsStr(s) && s != [] }

  function GetName(b: seq<Byte>): (r: Read<Text>) {
    var (s, rest) :- GetStr(b);
    if s == [] then Bad(InvalidName) else Got(s, rest)
  }

  lemma NamesRound()
    ensures Rounds(IsName, PutBytes, GetName) && Backs(IsName, PutBytes, GetName)
  {
    forall s: Text, rest: seq<Byte> | IsName(s) ensures GetName(PutBytes(s) + rest) == Got(s, rest) {
      StrRounds(s, rest);
    }
    forall b: seq<Byte> | GetName(b).Got?
      ensures IsName(GetName(b).value) && b == PutBytes(GetName(b).value) + GetName(b).rest
    {
      StrBacks(b);
    }
  }

  lemma StrsRound()
    ensures Rounds(IsStr, PutBytes, GetStr) && Backs(IsStr, PutBytes, GetStr)
  {
    forall s: Text, rest: seq<Byte> | IsStr(s) ensures GetStr(PutBytes(s) + rest) == Got(s, rest) {
      StrRounds(s, rest);
    }
    forall b: seq<Byte> | GetStr(b).Got?
      ensures IsStr(GetStr(b).value) && b == PutBytes(GetStr(b).value) + GetStr(b).rest
    {
      StrBacks(b);
    }
  }

  lemma U32sRound()
    ensures Rounds(IsU32, PutU32, GetU32) && Backs(IsU32, PutU32, GetU32)
  {
    forall v: nat, rest: seq<Byte> | IsU32(v) ensures GetU32(PutU32(v) + rest) == Got(v, rest) {
      U32Rounds(v, rest);
    }
    forall b: seq<Byte> | GetU32(b).Got?
      ensures IsU32(GetU32(b).value) && b == PutU32(GetU32(b).value) + GetU32(b).rest
    {
      U32Backs(b);
    }
  }

  function PutOption<T>(o: Option<T>, put: T -> seq<Byte>): seq<Byte> {
    match o
    case None => [0]
    case Some(v) => [1] + put(v)
  }

  function GetOption<T>(get: seq<Byte> -> Read<T>, b: seq<Byte>): (r: Read<Option<T>>) {
    var (tag, rest) :- GetU8(b);
    match tag
    case 0 => Got(None, rest)
    case 1 => var (v, rest) :- get(rest); Got(Some(v), rest)
    case _ => Bad(InvalidTag("option", tag))
  }

  predicate OptionOk<T>(o: Option<T>, ok: T -> bool) { o.Some? ==> ok(o.value) }

  lemma OptionRounds<T(!new)>(o: Option<T>, ok: T -> bool, put: T -> seq<Byte>, get: seq<Byte> -> Read<T>, rest: seq<Byte>)
    requires Rounds(ok, put, get) && OptionOk(o, ok)
    ensures GetOption(get, PutOption(o, put) + rest) == Got(o, rest)
  {
    match o
    case None => U8Rounds(0, rest);
    case Some(v) =>
      Join([1], put(v), rest);
      U8Rounds(1, put(v) + rest);
  }

  lemma OptionBacks<T(!new)>(ok: T -> bool, put: T -> seq<Byte>, get: seq<Byte> -> Read<T>, b: seq<Byte>)
    requires Backs(ok, put, get) && GetOption(get, b).Got?
    ensures OptionOk(GetOption(get, b).value, ok)
    ensures b == PutOption(GetOption(get, b).value, put) + GetOption(get, b).rest
  {
    U8Backs(b);
    var tag := GetU8(b);
    if tag.value == 1 {
      assert get(tag.rest).Got?;
      Join([1], put(get(tag.rest).value), get(tag.rest).rest);
    }
  }

  lemma U8Backs(b: seq<Byte>)
    requires GetU8(b).Got?
    ensures b == [GetU8(b).value] + GetU8(b).rest
  {}

  // ---- Reasons ----

  function PutRecoveryFailure(f: RecoveryFailure): seq<Byte> {
    match f
    case ShellGone => [0]
    case NoTerminal => [1]
    case LeaderGone => [2]
    case Os(message) => [3] + PutBytes(message)
    case ForegroundNotRecorded => [4]
  }

  function GetRecoveryFailure(b: seq<Byte>): (r: Read<RecoveryFailure>) {
    var (tag, rest) :- GetU8(b);
    match tag
    case 0 => Got(ShellGone, rest)
    case 1 => Got(NoTerminal, rest)
    case 2 => Got(LeaderGone, rest)
    case 3 => var (message, rest) :- GetStr(rest); Got(Os(message), rest)
    case 4 => Got(ForegroundNotRecorded, rest)
    case _ => Bad(InvalidTag("RecoveryFailure", tag))
  }

  predicate RecoveryFailureOk(f: RecoveryFailure) { f.Os? ==> IsStr(f.message) }

  lemma RecoveryFailureRounds(f: RecoveryFailure, rest: seq<Byte>)
    requires RecoveryFailureOk(f)
    ensures GetRecoveryFailure(PutRecoveryFailure(f) + rest) == Got(f, rest)
  {
    match f
    case ShellGone => U8Rounds(0, rest);
    case NoTerminal => U8Rounds(1, rest);
    case LeaderGone => U8Rounds(2, rest);
    case Os(message) =>
      Join([3], PutBytes(message), rest);
      U8Rounds(3, PutBytes(message) + rest);
      StrRounds(message, rest);
    case ForegroundNotRecorded => U8Rounds(4, rest);
  }

  lemma RecoveryFailureBacks(b: seq<Byte>)
    requires GetRecoveryFailure(b).Got?
    ensures RecoveryFailureOk(GetRecoveryFailure(b).value)
    ensures b == PutRecoveryFailure(GetRecoveryFailure(b).value) + GetRecoveryFailure(b).rest
  {
    U8Backs(b);
    var tag := GetU8(b);
    if tag.value == 3 {
      StrBacks(tag.rest);
      Join([3], PutBytes(GetStr(tag.rest).value), GetStr(tag.rest).rest);
    }
  }

  function PutContentFailure(f: ContentFailure): seq<Byte> {
    match f
    case CapturePane(message) => [0] + PutBytes(message)
    case ContentNotRecorded => [1]
  }

  function GetContentFailure(b: seq<Byte>): (r: Read<ContentFailure>) {
    var (tag, rest) :- GetU8(b);
    match tag
    case 0 => var (message, rest) :- GetStr(rest); Got(CapturePane(message), rest)
    case 1 => Got(ContentNotRecorded, rest)
    case _ => Bad(InvalidTag("ContentFailure", tag))
  }

  predicate ContentFailureOk(f: ContentFailure) { f.CapturePane? ==> IsStr(f.message) }

  lemma ContentFailureRounds(f: ContentFailure, rest: seq<Byte>)
    requires ContentFailureOk(f)
    ensures GetContentFailure(PutContentFailure(f) + rest) == Got(f, rest)
  {
    match f
    case CapturePane(message) =>
      Join([0], PutBytes(message), rest);
      U8Rounds(0, PutBytes(message) + rest);
      StrRounds(message, rest);
    case ContentNotRecorded => U8Rounds(1, rest);
  }

  lemma ContentFailureBacks(b: seq<Byte>)
    requires GetContentFailure(b).Got?
    ensures ContentFailureOk(GetContentFailure(b).value)
    ensures b == PutContentFailure(GetContentFailure(b).value) + GetContentFailure(b).rest
  {
    U8Backs(b);
    var tag := GetU8(b);
    if tag.value == 0 {
      StrBacks(tag.rest);
      Join([0], PutBytes(GetStr(tag.rest).value), GetStr(tag.rest).rest);
    }
  }

  // ---- Lines, by the key of their blob ----

  function PutLines(lines: seq<Text>): seq<Byte> { PutVec(lines, PutBytes) }

  function GetLines(b: seq<Byte>): (r: Read<seq<Text>>) {
    var (lines, rest) :- GetVec(GetStr, b);
    if rest == [] then Got(lines, []) else Bad(Truncated)
  }

  predicate LinesOk(lines: seq<Text>) { AllOk(lines, IsStr) && IsU32(|lines|) }

  lemma LinesRound(lines: seq<Text>)
    requires LinesOk(lines)
    ensures GetLines(PutLines(lines)) == Got(lines, [])
  {
    StrsRound();
    VecRounds(lines, IsStr, PutBytes, GetStr, []);
    assert PutLines(lines) + [] == PutLines(lines);
  }

  lemma LinesBack(b: seq<Byte>)
    requires GetLines(b).Got?
    ensures LinesOk(GetLines(b).value) && b == PutLines(GetLines(b).value)
  {
    StrsRound();
    VecBacks(IsStr, PutBytes, GetStr, b);
    assert PutLines(GetLines(b).value) + [] == PutLines(GetLines(b).value);
  }

  function GetHash(b: seq<Byte>): (r: Read<Hash>) {
    var (h, rest) :- GetBytes(b);
    if |h| == 16 then Got(h, rest) else Bad(Truncated)
  }

  function Fetch(blobs: Blobs, h: Hash): (r: Read<seq<Byte>>) {
    if h in blobs then Got(blobs[h], []) else Bad(BlobNotFound)
  }

  function PutBlob(lines: seq<Text>): seq<Byte> { PutBytes(ContentHash(PutLines(lines))) }

  function GetBlob(blobs: Blobs, b: seq<Byte>): (r: Read<seq<Text>>) {
    var (h, rest) :- GetHash(b);
    var (content, _) :- Fetch(blobs, h);
    var (lines, _) :- GetLines(content);
    Got(lines, rest)
  }

  /** The lines fit their encoding, and `blobs` gives it back. */
  ghost predicate BlobOk(blobs: Blobs, lines: seq<Text>) {
    LinesOk(lines) && Keeps(blobs, PutLines(lines))
  }

  lemma BlobRounds(blobs: Blobs, lines: seq<Text>, rest: seq<Byte>)
    requires BlobOk(blobs, lines)
    ensures GetBlob(blobs, PutBlob(lines) + rest) == Got(lines, rest)
  {
    hide ContentHash, GetBytes, PutBytes, GetLines;
    BytesRounds(ContentHash(PutLines(lines)), rest);
    LinesRound(lines);
  }

  lemma BlobBacks(blobs: Blobs, b: seq<Byte>)
    requires Sound(blobs) && GetBlob(blobs, b).Got?
    ensures BlobOk(blobs, GetBlob(blobs, b).value)
    ensures b == PutBlob(GetBlob(blobs, b).value) + GetBlob(blobs, b).rest
  {
    hide ContentHash, GetBytes, PutBytes, GetLines;
    BytesBacks(b);
    LinesBack(blobs[GetHash(b).value]);
  }

  // ---- A pane ----

  function PutForeground(f: Foreground): seq<Byte> {
    match f
    case Shell => [0]
    case Program(argv) => [1] + PutVec(argv, PutBytes)
    case Unrecovered(why) => [2] + PutRecoveryFailure(why)
  }

  function GetForeground(b: seq<Byte>): (r: Read<Foreground>) {
    var (tag, rest) :- GetU8(b);
    match tag
    case 0 => Got(Shell, rest)
    case 1 => var (argv, rest) :- GetNonEmpty(GetStr, rest); Got(Program(argv), rest)
    case 2 => var (why, rest) :- GetRecoveryFailure(rest); Got(Unrecovered(why), rest)
    case _ => Bad(InvalidTag("Foreground", tag))
  }

  predicate ForegroundOk(f: Foreground) {
    match f
    case Shell => true
    case Program(argv) => argv != [] && LinesOk(argv)
    case Unrecovered(why) => RecoveryFailureOk(why)
  }

  lemma ForegroundRounds(f: Foreground, rest: seq<Byte>)
    requires ForegroundOk(f)
    ensures GetForeground(PutForeground(f) + rest) == Got(f, rest)
  {
    match f
    case Shell => U8Rounds(0, rest);
    case Program(argv) =>
      Join([1], PutVec(argv, PutBytes), rest);
      U8Rounds(1, PutVec(argv, PutBytes) + rest);
      StrsRound();
      VecRounds(argv, IsStr, PutBytes, GetStr, rest);
    case Unrecovered(why) =>
      Join([2], PutRecoveryFailure(why), rest);
      U8Rounds(2, PutRecoveryFailure(why) + rest);
      RecoveryFailureRounds(why, rest);
  }

  lemma ForegroundBacks(b: seq<Byte>)
    requires GetForeground(b).Got?
    ensures ForegroundOk(GetForeground(b).value)
    ensures b == PutForeground(GetForeground(b).value) + GetForeground(b).rest
  {
    U8Backs(b);
    var tag := GetU8(b);
    if tag.value == 1 {
      StrsRound();
      VecBacks(IsStr, PutBytes, GetStr, tag.rest);
      var argv := GetNonEmpty(GetStr, tag.rest);
      Join([1], PutVec(argv.value, PutBytes), argv.rest);
    } else if tag.value == 2 {
      RecoveryFailureBacks(tag.rest);
      var why := GetRecoveryFailure(tag.rest);
      Join([2], PutRecoveryFailure(why.value), why.rest);
    }
  }

  function PutContent(c: Content): seq<Byte> {
    match c
    case NotCaptured(reason) => [0] + PutContentFailure(reason)
    case Captured(indicator, scrollback, visible) => [1] + PutCapture(indicator, scrollback, visible)
  }

  function PutCapture(indicator: Indicator, scrollback: seq<Text>, visible: seq<Text>): seq<Byte> {
    PutU64(indicator.historySize) + (PutU64(indicator.historyBytes) + (PutBlob(scrollback) + PutBlob(visible)))
  }

  function GetCapture(blobs: Blobs, b: seq<Byte>): (r: Read<Content>) {
    var (size, rest) :- GetU64(b);
    var (bytes, rest) :- GetU64(rest);
    var (scrollback, rest) :- GetBlob(blobs, rest);
    var (visible, rest) :- GetBlob(blobs, rest);
    Got(Captured(Indicator(size, bytes), scrollback, visible), rest)
  }

  function GetContent(blobs: Blobs, b: seq<Byte>): (r: Read<Content>) {
    var (tag, rest) :- GetU8(b);
    match tag
    case 0 => var (reason, rest) :- GetContentFailure(rest); Got(NotCaptured(reason), rest)
    case 1 => GetCapture(blobs, rest)
    case _ => Bad(InvalidTag("Content", tag))
  }

  ghost predicate ContentOk(blobs: Blobs, c: Content) {
    match c
    case NotCaptured(reason) => ContentFailureOk(reason)
    case Captured(indicator, scrollback, visible) =>
      && IsU64(indicator.historySize) && IsU64(indicator.historyBytes)
      && BlobOk(blobs, scrollback) && BlobOk(blobs, visible)
  }

  lemma CaptureRounds(blobs: Blobs, c: Content, rest: seq<Byte>)
    requires c.Captured? && ContentOk(blobs, c)
    ensures GetCapture(blobs, PutCapture(c.indicator, c.scrollback, c.visible) + rest) == Got(c, rest)
  {
    hide GetU64, PutU64, GetBlob, PutBlob, BlobOk;
    var (size, bytes) := (PutU64(c.indicator.historySize), PutU64(c.indicator.historyBytes));
    var (scrollback, visible) := (PutBlob(c.scrollback), PutBlob(c.visible));
    Join(size, bytes + (scrollback + visible), rest);
    Join(bytes, scrollback + visible, rest);
    Join(scrollback, visible, rest);
    U64Rounds(c.indicator.historySize, bytes + (scrollback + (visible + rest)));
    U64Rounds(c.indicator.historyBytes, scrollback + (visible + rest));
    BlobRounds(blobs, c.scrollback, visible + rest);
    BlobRounds(blobs, c.visible, rest);
  }

  lemma CaptureBacks(blobs: Blobs, b: seq<Byte>)
    requires Sound(blobs) && GetCapture(blobs, b).Got?
    ensures var c := GetCapture(blobs, b).value;
            c.Captured? && ContentOk(blobs, c)
            && b == PutCapture(c.indicator, c.scrollback, c.visible) + GetCapture(blobs, b).rest
  {
    hide GetU64, PutU64, GetBlob, PutBlob, BlobOk, Sound;
    var size := GetU64(b);
    var bytes := GetU64(size.rest);
    var scrollback := GetBlob(blobs, bytes.rest);
    var visible := GetBlob(blobs, scrollback.rest);
    U64Backs(b);
    U64Backs(size.rest);
    BlobBacks(blobs, bytes.rest);
    BlobBacks(blobs, scrollback.rest);
    var (p, q) := (PutU64(size.value), PutU64(bytes.value));
    var (r, s) := (PutBlob(scrollback.value), PutBlob(visible.value));
    Join(p, q + (r + s), visible.rest);
    Join(q, r + s, visible.rest);
    Join(r, s, visible.rest);
  }

  lemma ContentRounds(blobs: Blobs, c: Content, rest: seq<Byte>)
    requires ContentOk(blobs, c)
    ensures GetContent(blobs, PutContent(c) + rest) == Got(c, rest)
  {
    hide GetU8, GetCapture, PutCapture, GetContentFailure, PutContentFailure;
    match c
    case NotCaptured(reason) =>
      Join([0], PutContentFailure(reason), rest);
      U8Rounds(0, PutContentFailure(reason) + rest);
      ContentFailureRounds(reason, rest);
    case Captured(indicator, scrollback, visible) =>
      var put := PutCapture(indicator, scrollback, visible);
      Join([1], put, rest);
      U8Rounds(1, put + rest);
      CaptureRounds(blobs, c, rest);
  }

  lemma ContentBacks(blobs: Blobs, b: seq<Byte>)
    requires Sound(blobs) && GetContent(blobs, b).Got?
    ensures ContentOk(blobs, GetContent(blobs, b).value)
    ensures b == PutContent(GetContent(blobs, b).value) + GetContent(blobs, b).rest
  {
    hide GetU8, GetCapture, PutCapture, GetContentFailure, PutContentFailure, Sound;
    U8Backs(b);
    var tag := GetU8(b);
    var c := GetContent(blobs, b);
    if tag.value == 0 {
      ContentFailureBacks(tag.rest);
      Join([0], PutContentFailure(c.value.reason), c.rest);
    } else {
      CaptureBacks(blobs, tag.rest);
      Join([1], PutCapture(c.value.indicator, c.value.scrollback, c.value.visible), c.rest);
    }
  }

  function CwdOption(c: Cwd): Option<Text> {
    if c.Known? then Some(c.path) else None
  }

  function PutPane(p: Pane): seq<Byte> {
    PutU32(p.id) + (PutU32(p.index) + (PutOption(CwdOption(p.cwd), PutBytes)
      + (PutForeground(p.foreground) + PutContent(p.content))))
  }

  function GetPane(blobs: Blobs, b: seq<Byte>): (r: Read<Pane>) {
    var (id, rest) :- GetU32(b);
    var (index, rest) :- GetU32(rest);
    var (cwd, rest) :- GetOption(GetName, rest);
    var (foreground, rest) :- GetForeground(rest);
    var (content, rest) :- GetContent(blobs, rest);
    Got(Pane(id, index, if cwd.Some? then Known(cwd.value) else Unreadable, foreground, content), rest)
  }

  ghost predicate PaneOk(blobs: Blobs, p: Pane) {
    && IsU32(p.id) && IsU32(p.index)
    && OptionOk(CwdOption(p.cwd), IsName)
    && ForegroundOk(p.foreground)
    && ContentOk(blobs, p.content)
  }

  lemma PaneRounds(blobs: Blobs, p: Pane, rest: seq<Byte>)
    requires PaneOk(blobs, p)
    ensures GetPane(blobs, PutPane(p) + rest) == Got(p, rest)
  {
    hide GetU32, PutU32, GetOption, PutOption, GetForeground, PutForeground, GetContent, PutContent, OptionOk, ForegroundOk, ContentOk;
    var (id, index, cwd) := (PutU32(p.id), PutU32(p.index), PutOption(CwdOption(p.cwd), PutBytes));
    var (foreground, content) := (PutForeground(p.foreground), PutContent(p.content));
    Join(id, index + (cwd + (foreground + content)), rest);
    Join(index, cwd + (foreground + content), rest);
    Join(cwd, foreground + content, rest);
    Join(foreground, content, rest);
    U32Rounds(p.id, index + (cwd + (foreground + (content + rest))));
    U32Rounds(p.index, cwd + (foreground + (content + rest)));
    NamesRound();
    OptionRounds(CwdOption(p.cwd), IsName, PutBytes, GetName, foreground + (content + rest));
    ForegroundRounds(p.foreground, content + rest);
    ContentRounds(blobs, p.content, rest);
  }

  lemma PaneBacks(blobs: Blobs, b: seq<Byte>)
    requires Sound(blobs) && GetPane(blobs, b).Got?
    ensures PaneOk(blobs, GetPane(blobs, b).value)
    ensures b == PutPane(GetPane(blobs, b).value) + GetPane(blobs, b).rest
  {
    hide GetU32, PutU32, GetOption, PutOption, GetForeground, PutForeground, GetContent, PutContent, OptionOk, ForegroundOk, ContentOk, Sound;
    var id := GetU32(b);
    var index := GetU32(id.rest);
    var cwd := GetOption(GetName, index.rest);
    var foreground := GetForeground(cwd.rest);
    var content := GetContent(blobs, foreground.rest);
    U32Backs(b);
    U32Backs(id.rest);
    NamesRound();
    OptionBacks(IsName, PutBytes, GetName, index.rest);
    ForegroundBacks(cwd.rest);
    ContentBacks(blobs, foreground.rest);
    var p := GetPane(blobs, b).value;
    assert CwdOption(p.cwd) == cwd.value;
    var (i, j, k) := (PutU32(p.id), PutU32(p.index), PutOption(cwd.value, PutBytes));
    var (f, c) := (PutForeground(p.foreground), PutContent(p.content));
    Join(i, j + (k + (f + c)), content.rest);
    Join(j, k + (f + c), content.rest);
    Join(k, f + c, content.rest);
    Join(f, c, content.rest);
  }
}
