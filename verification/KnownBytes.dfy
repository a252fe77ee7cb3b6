/** What a generation's file holds, byte by byte: each kind of record that
    phoenix-store/src/codec.rs and header.rs write, with every field where it is. */
module KnownBytes {
  import opened Wrappers
  import opened Snapshots
  import opened Bytes
  import opened Checksum
  import opened Codec
  import opened Body
  import opened Header

  // ---- Numbers and texts ----

  /** A number that one byte holds comes first, and zeros fill what is left. */
  lemma SmallNumbers(n: Byte)
    ensures PutU32(n) == [n, 0, 0, 0]
    ensures PutU64(n) == PutI64(n) == [n, 0, 0, 0, 0, 0, 0, 0]
  {
    assert n as int / 256 == 0 && n as int % 256 == n;
    Zeros(3);
    Zeros(7);
    assert Le(n, 4) == [n] + Le(0, 3) && Le(n, 8) == [n] + Le(0, 7);
    assert Unsigned(n) == n;
  }

  lemma {:induction false} Zeros(n: nat)
    ensures Le(0, n) == seq(n, i => 0)
  {
    if n > 0 {
      Zeros(n - 1);
      assert Le(0, n) == [0] + Le(0, n - 1);
    }
  }

  /** The number before zero is all ones: signed numbers are two's complement. */
  lemma MinusOne()
    ensures PutI64(-1) == [255, 255, 255, 255, 255, 255, 255, 255]
  {
    var ones: seq<Byte> := [255, 255, 255, 255, 255, 255, 255, 255];
    EightBytes(ones);
    LeOfValue(ones);
  }

  lemma ShortText(t: Text)
    requires |t| < 256
    ensures PutBytes(t) == [|t|, 0, 0, 0] + t
  {
    SmallNumbers(|t|);
  }

  lemma OneItem<T>(item: T, put: T -> seq<Byte>)
    ensures PutVec([item], put) == [1, 0, 0, 0] + put(item)
  {
    SmallNumbers(1);
    var none: seq<T> := [];
    assert PutAll(none, put) == [];
    assert [item][..0] == [] && [item][1..] == [];
    assert PutAll([item], put) == put(item);
  }

  lemma NoItems<T>(put: T -> seq<Byte>)
    ensures PutVec([], put) == [0, 0, 0, 0]
  {
    SmallNumbers(0);
  }

  lemma TwoItems<T>(a: T, b: T, put: T -> seq<Byte>)
    ensures PutVec([a, b], put) == [2, 0, 0, 0] + put(a) + put(b)
  {
    SmallNumbers(2);
    OneItem(a, put);
    OneItem(b, put);
    assert [a, b][..1] == [a] && [a, b][1..] == [b] && [b][1..] == [] && [a][..0] == [];
    assert PutAll([a, b], put) == put(a) + put(b);
  }

  lemma Flat(a: seq<Byte>, b: seq<Byte>, c: seq<Byte>, d: seq<Byte>, e: seq<Byte>, f: seq<Byte>, g: seq<Byte>)
    ensures a + (b + (c + (d + (e + (f + g))))) == a + b + c + d + e + f + g
    ensures a + (b + (c + (d + (e + f)))) == a + b + c + d + e + f
    ensures a + (b + (c + (d + e))) == a + b + c + d + e
  {}

  // ---- A pane ----

  /** Why a program or a text was not to be had, as one byte, and the message of the
      two reasons that have one. */
  lemma ReasonsWritten(message: Text)
    requires |message| < 256
    ensures PutRecoveryFailure(ShellGone) == [0] && PutRecoveryFailure(NoTerminal) == [1]
    ensures PutRecoveryFailure(LeaderGone) == [2] && PutRecoveryFailure(ForegroundNotRecorded) == [4]
    ensures PutRecoveryFailure(Os(message)) == [3, |message|, 0, 0, 0] + message
    ensures PutContentFailure(CapturePane(message)) == [0, |message|, 0, 0, 0] + message
    ensures PutContentFailure(ContentNotRecorded) == [1]
  {
    hide PutBytes;
    ShortText(message);
  }

  /** A pane: its id and index, its directory, what ran in it, and its content. */
  lemma PaneWritten(id: Byte, index: Byte, path: Text, word: Text)
    requires |path| < 256 && |word| < 256
    ensures PutPane(Pane(id, index, Known(path), Program([word]), NotCaptured(ContentNotRecorded)))
            == [id, 0, 0, 0] + [index, 0, 0, 0] + ([1, |path|, 0, 0, 0] + path)
               + ([1, 1, 0, 0, 0, |word|, 0, 0, 0] + word) + [0, 1]
  {
    hide PutU32, PutOption, PutForeground, PutContent;
    SmallNumbers(id);
    SmallNumbers(index);
    SomeWritten(path);
    ProgramWritten(word);
    NothingWritten();
    Flat([id, 0, 0, 0], [index, 0, 0, 0], [1, |path|, 0, 0, 0] + path, [1, 1, 0, 0, 0, |word|, 0, 0, 0] + word, [0, 1], [], []);
  }

  lemma SomeWritten(path: Text)
    requires |path| < 256
    ensures PutOption(Some(path), PutBytes) == [1, |path|, 0, 0, 0] + path
  {
    hide PutBytes;
    ShortText(path);
  }

  lemma ProgramWritten(word: Text)
    requires |word| < 256
    ensures PutForeground(Program([word])) == [1, 1, 0, 0, 0, |word|, 0, 0, 0] + word
  {
    hide PutBytes, PutVec;
    ShortText(word);
    OneItem(word, PutBytes);
  }

  lemma NothingWritten()
    ensures PutContent(NotCaptured(ContentNotRecorded)) == [0, 1]
  {}

  /** The same with none of these known. */
  lemma BarePaneWritten(id: Byte, index: Byte)
    ensures PutPane(Pane(id, index, Unreadable, Shell, NotCaptured(ContentNotRecorded)))
            == [id, 0, 0, 0] + [index, 0, 0, 0] + [0] + [0] + [0, 1]
    ensures PutPane(Pane(id, index, Unreadable, Unrecovered(NoTerminal), NotCaptured(ContentNotRecorded)))
            == [id, 0, 0, 0] + [index, 0, 0, 0] + [0] + [2, 1] + [0, 1]
  {
    hide PutU32, PutContent;
    SmallNumbers(id);
    SmallNumbers(index);
    NothingWritten();
    assert [2] + [1] == [2, 1];
    Flat([id, 0, 0, 0], [index, 0, 0, 0], [0], [0], [0, 1], [], []);
    Flat([id, 0, 0, 0], [index, 0, 0, 0], [0], [2, 1], [0, 1], [], []);
  }

  /** Content captured: how much history there was, and the keys of the scrollback's
      text and of the screen's. */
  lemma CaptureWritten(size: Byte, bytes: Byte, scrollback: seq<Text>, visible: seq<Text>)
    ensures PutContent(Captured(Indicator(size, bytes), scrollback, visible))
            == [1] + [size, 0, 0, 0, 0, 0, 0, 0] + [bytes, 0, 0, 0, 0, 0, 0, 0]
               + ([16, 0, 0, 0] + ContentHash(PutLines(scrollback))) + ([16, 0, 0, 0] + ContentHash(PutLines(visible)))
  {
    hide PutU64, PutLines, ContentHash, PutBytes;
    SmallNumbers(size);
    SmallNumbers(bytes);
    var (x, y) := (ContentHash(PutLines(scrollback)), ContentHash(PutLines(visible)));
    ShortText(x);
    ShortText(y);
    Flat([1], [size, 0, 0, 0, 0, 0, 0, 0], [bytes, 0, 0, 0, 0, 0, 0, 0], PutBytes(x), PutBytes(y), [], []);
  }

  /** A text: how many lines, and each line. */
  lemma LinesWritten(a: Text, b: Text)
    requires |a| < 256 && |b| < 256
    ensures PutLines([a, b]) == [2, 0, 0, 0, |a|, 0, 0, 0] + a + [|b|, 0, 0, 0] + b
  {
    hide PutBytes, PutVec;
    ShortText(a);
    ShortText(b);
    TwoItems(a, b, PutBytes);
  }

  // ---- Windows, sessions, the body ----

  /** A window: its id, who made it, its name, layout and zoom, its panes, and which
      of them is active. */
  lemma WindowWritten(id: Byte, made: Made, name: Text, layout: Text, zoomed: bool, pane: Pane, active: Byte)
    requires |name| < 256 && |layout| < 256
    ensures PutWindow(Window(id, made, name, layout, zoomed, [pane], active))
            == [id, 0, 0, 0] + PutMade(made) + ([|name|, 0, 0, 0] + name) + ([|layout|, 0, 0, 0] + layout)
               + (if zoomed then [1] else [0]) + ([1, 0, 0, 0] + PutPane(pane)) + [active, 0, 0, 0]
  {
    hide PutU32, PutMade, PutBytes, PutVec, PutPane;
    SmallNumbers(id);
    SmallNumbers(active);
    ShortText(name);
    ShortText(layout);
    OneItem(pane, PanePutter());
    assert PanePutter()(pane) == PutPane(pane);
    Flat([id, 0, 0, 0], PutMade(made), PutBytes(name), PutBytes(layout), if zoomed then [1] else [0],
         [1, 0, 0, 0] + PutPane(pane), [active, 0, 0, 0]);
  }

  /** Nobody's window, and one a restore made: of which generation, and which window. */
  lemma MadeWritten(generation: Byte, saved: Byte)
    ensures PutMade(NotByPhoenix) == [0]
    ensures PutMade(ByPhoenix(generation, saved)) == [1, generation, 0, 0, 0, 0, 0, 0, 0, saved, 0, 0, 0]
  {
    hide PutU32, PutI64;
    SmallNumbers(generation);
    SmallNumbers(saved);
  }

  /** A session: its name and group, its links, the index it shows and the last. */
  lemma SessionWritten(name: Text, group: Text, i: Byte, v: Byte, j: Byte, u: Byte, active: Byte, last: Byte)
    requires |name| < 256 && |group| < 256
    ensures PutSession(Session(name, Some(group), [WinLink(i, v), WinLink(j, u)], active, Some(last)))
            == ([|name|, 0, 0, 0] + name) + ([1, |group|, 0, 0, 0] + group)
               + ([2, 0, 0, 0] + [i, 0, 0, 0, v, 0, 0, 0] + [j, 0, 0, 0, u, 0, 0, 0]) + [active, 0, 0, 0] + [1, last, 0, 0, 0]
    ensures PutSession(Session(name, None, [WinLink(i, v)], active, None))
            == ([|name|, 0, 0, 0] + name) + [0] + ([1, 0, 0, 0] + [i, 0, 0, 0, v, 0, 0, 0]) + [active, 0, 0, 0] + [0]
  {
    hide PutU32, PutBytes, PutVec, PutLink;
    SmallNumbers(active);
    LinkWritten(i, v);
    LinkWritten(j, u);
    ShortText(name);
    SomeWritten(group);
    SmallNumbers(last);
    assert [1] + [last, 0, 0, 0] == [1, last, 0, 0, 0];
    TwoItems(WinLink(i, v), WinLink(j, u), PutLink);
    OneItem(WinLink(i, v), PutLink);
    Flat(PutBytes(name), [1, |group|, 0, 0, 0] + group, PutVec([WinLink(i, v), WinLink(j, u)], PutLink),
         [active, 0, 0, 0], [1, last, 0, 0, 0], [], []);
    Flat(PutBytes(name), [0], PutVec([WinLink(i, v)], PutLink), [active, 0, 0, 0], [0], [], []);
  }

  lemma LinkWritten(i: Byte, v: Byte)
    ensures PutLink(WinLink(i, v)) == [i, 0, 0, 0, v, 0, 0, 0]
  {
    hide PutU32;
    SmallNumbers(i);
    SmallNumbers(v);
  }

  /** The body: the version of tmux, what had touched the server, the windows, the
      sessions, and the clients, each a name and the session it was on. */
  lemma BodyWritten(s: Snapshot, major: Byte, minor: Byte, w: Window, session: Session, client: Text, on: Text)
    requires s.version == Version(major, minor) && s.windows == [w] && s.sessions == [session]
    requires s.clients == [Client(client, on)] && |client| < 256 && |on| < 256
    ensures PutBody(s)
            == [major, 0, 0, 0] + [minor, 0, 0, 0] + PutTouched(s.touched) + ([1, 0, 0, 0] + PutWindow(w))
               + ([1, 0, 0, 0] + PutSession(session)) + ([1, 0, 0, 0] + (([|client|, 0, 0, 0] + client) + ([|on|, 0, 0, 0] + on)))
  {
    hide PutU32, PutTouched, PutBytes, PutVec, PutWindow, PutSession;
    SmallNumbers(major);
    SmallNumbers(minor);
    ShortText(client);
    ShortText(on);
    OneItem(w, WindowPutter());
    OneItem(session, PutSession);
    OneItem(Client(client, on), PutClient);
    assert WindowPutter()(w) == PutWindow(w);
    Flat([major, 0, 0, 0], [minor, 0, 0, 0], PutTouched(s.touched), [1, 0, 0, 0] + PutWindow(w),
         [1, 0, 0, 0] + PutSession(session), [1, 0, 0, 0] + (PutBytes(client) + PutBytes(on)), []);
  }

  /** A server nothing had touched, and one a save or a restore of a generation had. */
  lemma TouchedWritten(generation: Byte)
    ensures PutTouched(Never) == [0]
    ensures PutTouched(By(generation)) == [1, generation, 0, 0, 0, 0, 0, 0, 0]
  {
    hide PutI64;
    SmallNumbers(generation);
  }

  // ---- The file ----

  /** The file: its magic and version, the header's own length, where and when the
      capture was made, its tag, the body's length and checksum, and the body. */
  lemma FileWritten(s: Snapshot, pid: Byte, started: Byte, at: Byte, tag: Text)
    requires s.origin == Recorded(pid, started) && s.capturedAt == at && |tag| < 200
    ensures PutFile(s, Some(tag))
            == [0x50, 0x48, 0x4e, 0x58] + [2, 0, 0, 0] + [42 + |tag|, 0, 0, 0]
               + ([1, pid, 0, 0, 0, started, 0, 0, 0, 0, 0, 0, 0] + [at, 0, 0, 0, 0, 0, 0, 0] + ([1, |tag|, 0, 0, 0] + tag)
                  + PutU64(|PutBody(s)|) + PutU64(Fnv(PutBody(s))))
               + PutBody(s)
  {
    hide PutU32, PutOption, PutI64, PutU64, PutBody, Fnv, PutOrigin, HeaderLength;
    HeaderLengthIs(s, Some(tag));
    TaggedLength(s.origin, tag);
    SmallNumbers(CURRENT);
    SmallNumbers(42 + |tag|);
    SmallNumbers(at);
    SomeWritten(tag);
    OriginWritten(pid, started);
    Flat(PutOrigin(s.origin), [at, 0, 0, 0, 0, 0, 0, 0], [1, |tag|, 0, 0, 0] + tag, PutU64(|PutBody(s)|),
         PutU64(Fnv(PutBody(s))), [], []);
    Flat(MAGIC, [2, 0, 0, 0], [42 + |tag|, 0, 0, 0], PutHeader(s, Some(tag)), PutBody(s), [], []);
  }

  lemma TaggedLength(o: Origin, tag: Text)
    requires o.Recorded?
    ensures HeaderLength(o, Some(tag)) == 42 + |tag|
  {}

  lemma OriginWritten(pid: Byte, started: Byte)
    ensures PutOrigin(Recorded(pid, started)) == [1, pid, 0, 0, 0, started, 0, 0, 0, 0, 0, 0, 0]
  {
    hide PutU32, PutI64;
    SmallNumbers(pid);
    SmallNumbers(started);
  }

  /** The same of an old capture, saved under no tag. */
  lemma UntaggedFileWritten(s: Snapshot, at: Byte)
    requires s.origin == BeforeOriginWasRecorded && s.capturedAt == at
    ensures PutFile(s, None)
            == [0x50, 0x48, 0x4e, 0x58] + [2, 0, 0, 0] + [26, 0, 0, 0]
               + ([0] + [at, 0, 0, 0, 0, 0, 0, 0] + [0] + PutU64(|PutBody(s)|) + PutU64(Fnv(PutBody(s))))
               + PutBody(s)
  {
    hide PutU32, PutI64, PutU64, PutBody, Fnv;
    HeaderLengthIs(s, None);
    SmallNumbers(CURRENT);
    SmallNumbers(26);
    SmallNumbers(at);
    Flat([0], [at, 0, 0, 0, 0, 0, 0, 0], [0], PutU64(|PutBody(s)|), PutU64(Fnv(PutBody(s))), [], []);
    Flat(MAGIC, [2, 0, 0, 0], [26, 0, 0, 0], PutHeader(s, None), PutBody(s), [], []);
  }

  // ---- The checksum ----

  /** The published values of 64-bit FNV-1a for no bytes and for the letter `a`. */
  lemma KnownSums()
    ensures Fnv([]) == 0xcbf29ce484222325
    ensures Fnv([97]) == 0xaf63dc4c8601ec8c
  {
    hide Step, Xor, XorByte;
    assert FnvFrom(FNV_OFFSET_BASIS, []) == FNV_OFFSET_BASIS;
    assert [97][..0] == [];
    assert Fnv([97]) == Step(FNV_OFFSET_BASIS, 97);
    OneStep();
  }

  lemma OneStep()
    ensures Step(0xcbf29ce484222325, 97) == 0xaf63dc4c8601ec8c
  {
    hide Xor;
    Xors();
    assert XorByte(0xcbf29ce484222325, 97) == 0xcbf29ce484222344;
  }

  /** `0x25 ^ 0x61`, bit by bit. */
  lemma Xors()
    ensures Xor(0x25, 0x61, 8) == 0x44
  {
    assert Xor(0x2, 0x6, 4) == 4;
    assert Xor(0x4, 0xc, 5) == 8;
    assert Xor(0x9, 0x18, 6) == 0x11;
  }

  /** A text's key: its checksum, and its checksum after the salt. */
  lemma KeyWritten(content: seq<Byte>)
    ensures ContentHash(content)
            == PutU64(Fnv(content))
               + PutU64(Fnv([116, 109, 117, 120, 45, 112, 104, 111, 101, 110, 105, 120, 45, 99, 111, 110, 116, 101, 110, 116,
                             45, 104, 97, 115, 104, 45, 118, 49] + content))
  {
    hide Fnv;
    assert SALT == [116, 109, 117, 120, 45, 112, 104, 111, 101, 110, 105, 120, 45, 99, 111, 110, 116, 101, 110, 116,
                    45, 104, 97, 115, 104, 45, 118, 49];
  }

  // ---- What is refused, and as what ----

  /** A tag no kind of record has is refused by the name of what it would have been. */
  lemma UnknownTags<T>(t: Byte, rest: seq<Byte>, get: seq<Byte> -> Read<T>, blobs: Blobs)
    ensures t > 1 ==> GetOption(get, [t] + rest) == Bad(InvalidTag("option", t))
    ensures t > 1 ==> GetOrigin([t] + rest) == Bad(InvalidTag("Origin", t))
    ensures t > 1 ==> GetTouched([t] + rest) == Bad(InvalidTag("Touched", t))
    ensures t > 1 ==> GetMade([t] + rest) == Bad(InvalidTag("Made", t))
    ensures t > 1 ==> GetContent(blobs, [t] + rest) == Bad(InvalidTag("Content", t))
    ensures t > 1 ==> GetContentFailure([t] + rest) == Bad(InvalidTag("ContentFailure", t))
    ensures t > 2 ==> GetForeground([t] + rest) == Bad(InvalidTag("Foreground", t))
    ensures t > 4 ==> GetRecoveryFailure([t] + rest) == Bad(InvalidTag("RecoveryFailure", t))
  {
    hide GetU8;
    U8Rounds(t, rest);
  }

  /** Too few bytes for a number, or for the length that one gives, are a cut. */
  lemma CutShort(b: seq<Byte>, n: Byte)
    ensures |b| < 4 ==> GetU32(b) == Bad(Truncated)
    ensures |b| < 8 ==> GetU64(b) == Bad(Truncated) && GetI64(b) == Bad(Truncated)
    ensures |b| < n ==> GetBytes([n, 0, 0, 0] + b) == Bad(Truncated)
  {
    SmallNumbers(n);
    U32Rounds(n, b);
  }

  /** A text that is not UTF-8, a name that is empty, a list that must not be, a key of
      the wrong length, and a key with no text under it. */
  lemma BadParts<T>(t: Text, rest: seq<Byte>, get: seq<Byte> -> Read<T>, blobs: Blobs)
    requires |t| < 256
    ensures !Utf8(t) ==> GetStr([|t|, 0, 0, 0] + t + rest) == Bad(InvalidUtf8)
    ensures GetName([0, 0, 0, 0] + rest) == Bad(InvalidName)
    ensures GetNonEmpty(get, [0, 0, 0, 0] + rest) == Bad(EmptyCollection)
    ensures |t| != 16 ==> GetBlob(blobs, [|t|, 0, 0, 0] + t + rest) == Bad(Truncated)
    ensures |t| == 16 && t !in blobs ==> GetBlob(blobs, [16, 0, 0, 0] + t + rest) == Bad(BlobNotFound)
  {
    hide PutBytes, PutU32, GetBytes, GetU32, Utf8;
    ShortText(t);
    BytesRounds(t, rest);
    EmptyText(rest);
    SmallNumbers(0);
    U32Rounds(0, rest);
  }

  lemma EmptyText(rest: seq<Byte>)
    ensures GetStr([0, 0, 0, 0] + rest) == Got([], rest)
  {
    ShortText([]);
    assert IsStr([]);
    StrRounds([], rest);
    assert [0, 0, 0, 0] + [] == [0, 0, 0, 0];
  }
}
