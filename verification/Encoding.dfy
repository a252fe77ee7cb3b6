/** phoenix-store/src/blob_store.rs, codec.rs and header.rs as they run: encoders
    append to a writer and put blobs in the store as they go, decoders advance a
    reader. Each is proved against what Codec, Body and Header say of the bytes. */
module Encoding {
  import opened Wrappers
  import opened Snapshots
  import opened Bytes
  import opened Checksum
  import opened Codec
  import opened Body
  import opened Stored
  import opened Header

  class BlobStore {
    var blobs: Blobs

    constructor (blobs: Blobs)
      ensures this.blobs == blobs
    {
      this.blobs := blobs;
    }

    /** Keeps what is already stored under the content's key, if anything is. */
    method Add(content: seq<Byte>) returns (hash: Hash)
      modifies this
      ensures hash == ContentHash(content) && blobs == Put(old(blobs), content)
    {
      hide ContentHash;
      var digest := HashContent(content);
      hash := digest[..];
      if hash in blobs {
        return;
      }
      blobs := blobs[hash := content];
    }

    method Get(hash: Hash) returns (r: Read<seq<Byte>>)
      ensures r == Fetch(blobs, hash)
    {
      if hash in blobs {
        r := Got(blobs[hash], []);
      } else {
        r := Bad(BlobNotFound);
      }
    }
  }

  // ---- Encoding ----

  lemma {:induction false} PutBlobsJoin(blobs: Blobs, a: seq<seq<Byte>>, b: seq<seq<Byte>>)
    ensures PutBlobs(PutBlobs(blobs, a), b) == PutBlobs(blobs, a + b)
  {
    hide Put;
    if |b| == 0 {
      assert a + b == a;
    } else {
      PutBlobsJoin(blobs, a, b[..|b| - 1]);
      assert (a + b)[..|a + b| - 1] == a + b[..|b| - 1];
    }
  }

  method WriteOption<T>(w: Writer, value: Option<T>, put: T -> seq<Byte>)
    modifies w
    ensures w.buf == old(w.buf) + PutOption(value, put)
  {
    match value {
      case None => w.WriteU8(0);
      case Some(v) =>
        w.WriteU8(1);
        w.buf := w.buf + put(v);
    }
  }

  method EncodeLinesBlob(lines: seq<Text>) returns (bytes: seq<Byte>)
    ensures bytes == PutLines(lines)
  {
    var w := new Writer();
    w.WriteVec(lines, PutBytes);
    assert [] + PutVec(lines, PutBytes) == PutVec(lines, PutBytes);
    bytes := w.buf;
  }

  method EncodeContent(w: Writer, content: Content, store: BlobStore)
    modifies w, store
    ensures w.buf == old(w.buf) + PutContent(content)
    ensures store.blobs == PutBlobs(old(store.blobs), ContentBlobs(content))
  {
    hide PutBytes, PutU64, Put, PutContentFailure;
    match content {
      case NotCaptured(reason) =>
        w.WriteU8(0);
        w.buf := w.buf + PutContentFailure(reason);
      case Captured(indicator, scrollback, visible) =>
        w.WriteU8(1);
        w.WriteU64(indicator.historySize);
        w.WriteU64(indicator.historyBytes);
        var lines := EncodeLinesBlob(scrollback);
        ghost var first := store.blobs;
        var hash := store.Add(lines);
        w.WriteBytes(hash);
        var screen := EncodeLinesBlob(visible);
        hash := store.Add(screen);
        w.WriteBytes(hash);
        CapturePut(old(w.buf), indicator, scrollback, visible);
        PutTwo(first, lines, screen);
    }
  }

  lemma PutTwo(blobs: Blobs, a: seq<Byte>, b: seq<Byte>)
    ensures PutBlobs(blobs, [a, b]) == Put(Put(blobs, a), b)
  {
    hide Put;
    assert [a, b][..1] == [a] && [a][..0] == [];
    assert PutBlobs(blobs, []) == blobs;
    assert PutBlobs(blobs, [a]) == Put(blobs, a);
  }

  lemma CapturePut(buf: seq<Byte>, indicator: Indicator, scrollback: seq<Text>, visible: seq<Text>)
    ensures buf + [1] + PutU64(indicator.historySize) + PutU64(indicator.historyBytes) + PutBlob(scrollback)
              + PutBlob(visible)
         == buf + PutContent(Captured(indicator, scrollback, visible))
  {
    hide PutU64, PutBlob;
    var (s, b) := (PutU64(indicator.historySize), PutU64(indicator.historyBytes));
    var (p, q) := (PutBlob(scrollback), PutBlob(visible));
    Join(buf + [1] + s + b, p, q);
    Join(buf + [1] + s, b, p + q);
    Join(buf + [1], s, b + (p + q));
    Join(buf, [1], s + (b + (p + q)));
  }

  method EncodePane(w: Writer, p: Pane, store: BlobStore)
    modifies w, store
    ensures w.buf == old(w.buf) + PutPane(p)
    ensures store.blobs == PutBlobs(old(store.blobs), ContentBlobs(p.content))
  {
    hide PutU32, PutOption, PutForeground, PutContent, PutBlobs;
    w.WriteU32(p.id);
    w.WriteU32(p.index);
    WriteOption(w, CwdOption(p.cwd), PutBytes);
    w.buf := w.buf + PutForeground(p.foreground);
    EncodeContent(w, p.content, store);
    ghost var (id, index, cwd) := (PutU32(p.id), PutU32(p.index), PutOption(CwdOption(p.cwd), PutBytes));
    ghost var (foreground, content) := (PutForeground(p.foreground), PutContent(p.content));
    Join(old(w.buf) + id + index + cwd, foreground, content);
    Join(old(w.buf) + id + index, cwd, foreground + content);
    Join(old(w.buf) + id, index, cwd + (foreground + content));
    Join(old(w.buf), id, index + (cwd + (foreground + content)));
  }

  method EncodePanes(w: Writer, panes: seq<Pane>, store: BlobStore)
    modifies w, store
    ensures w.buf == old(w.buf) + PutVec(panes, PanePutter())
    ensures store.blobs == PutBlobs(old(store.blobs), PaneBlobs(panes))
  {
    hide PutU32, PutPane, PutBlobs;
    w.WriteU32(|panes|);
    ghost var start := w.buf;
    PutNone(store.blobs);
    for i := 0 to |panes|
      invariant start + PutAll(panes, PanePutter()) == w.buf + PutAll(panes[i..], PanePutter())
      invariant store.blobs == PutBlobs(old(store.blobs), PaneBlobs(panes[..i]))
    {
      assert panes[i..][1..] == panes[i + 1..];
      assert panes[..i + 1][..i] == panes[..i];
      Join(w.buf, PutPane(panes[i]), PutAll(panes[i + 1..], PanePutter()));
      EncodePane(w, panes[i], store);
      PutBlobsJoin(old(store.blobs), PaneBlobs(panes[..i]), ContentBlobs(panes[i].content));
    }
    assert panes[..|panes|] == panes;
    assert w.buf + PutAll(panes[|panes|..], PanePutter()) == w.buf;
    Join(old(w.buf), PutU32(|panes|), PutAll(panes, PanePutter()));
  }

  lemma PutNone(blobs: Blobs)
    ensures PutBlobs(blobs, []) == blobs
  {}

  method EncodeWindow(w: Writer, window: Window, store: BlobStore)
    modifies w, store
    ensures w.buf == old(w.buf) + PutWindow(window)
    ensures store.blobs == PutBlobs(old(store.blobs), PaneBlobs(window.panes))
  {
    hide PutU32, PutMade, PutBytes, PutFlag, PutVec, PutBlobs;
    w.WriteU32(window.id);
    w.buf := w.buf + PutMade(window.made);
    w.WriteBytes(window.name);
    w.WriteBytes(window.layout);
    w.buf := w.buf + PutFlag(window.zoomed);
    EncodePanes(w, window.panes, store);
    w.WriteU32(window.active);
    ghost var (id, made, name) := (PutU32(window.id), PutMade(window.made), PutBytes(window.name));
    ghost var (layout, zoomed) := (PutBytes(window.layout), PutFlag(window.zoomed));
    ghost var (panes, active) := (PutVec(window.panes, PanePutter()), PutU32(window.active));
    ghost var buf := old(w.buf);
    Join(buf + id + made + name + layout + zoomed, panes, active);
    Join(buf + id + made + name + layout, zoomed, panes + active);
    Join(buf + id + made + name, layout, zoomed + (panes + active));
    Join(buf + id + made, name, layout + (zoomed + (panes + active)));
    Join(buf + id, made, name + (layout + (zoomed + (panes + active))));
    Join(buf, id, made + (name + (layout + (zoomed + (panes + active)))));
  }

  method EncodeWindows(w: Writer, windows: seq<Window>, store: BlobStore)
    modifies w, store
    ensures w.buf == old(w.buf) + PutVec(windows, WindowPutter())
    ensures store.blobs == PutBlobs(old(store.blobs), WindowBlobs(windows))
  {
    hide PutU32, PutWindow, PutBlobs, PaneBlobs;
    w.WriteU32(|windows|);
    ghost var start := w.buf;
    PutNone(store.blobs);
    for i := 0 to |windows|
      invariant start + PutAll(windows, WindowPutter()) == w.buf + PutAll(windows[i..], WindowPutter())
      invariant store.blobs == PutBlobs(old(store.blobs), WindowBlobs(windows[..i]))
    {
      assert windows[i..][1..] == windows[i + 1..];
      assert windows[..i + 1][..i] == windows[..i];
      Join(w.buf, PutWindow(windows[i]), PutAll(windows[i + 1..], WindowPutter()));
      EncodeWindow(w, windows[i], store);
      PutBlobsJoin(old(store.blobs), WindowBlobs(windows[..i]), PaneBlobs(windows[i].panes));
    }
    assert windows[..|windows|] == windows;
    assert w.buf + PutAll(windows[|windows|..], WindowPutter()) == w.buf;
    Join(old(w.buf), PutU32(|windows|), PutAll(windows, WindowPutter()));
  }

  method EncodeSession(w: Writer, s: Session)
    modifies w
    ensures w.buf == old(w.buf) + PutSession(s)
  {
    hide PutU32, PutBytes, PutOption, PutVec;
    w.WriteBytes(s.name);
    WriteOption(w, s.group, PutBytes);
    w.WriteVec(s.windows, PutLink);
    w.WriteU32(s.active);
    WriteOption(w, s.last, PutU32);
    ghost var (name, group) := (PutBytes(s.name), PutOption(s.group, PutBytes));
    ghost var (links, active, last) := (PutVec(s.windows, PutLink), PutU32(s.active), PutOption(s.last, PutU32));
    ghost var buf := old(w.buf);
    Join(buf + name + group + links, active, last);
    Join(buf + name + group, links, active + last);
    Join(buf + name, group, links + (active + last));
    Join(buf, name, group + (links + (active + last)));
  }

  method EncodeSessions(w: Writer, sessions: seq<Session>)
    modifies w
    ensures w.buf == old(w.buf) + PutVec(sessions, PutSession)
  {
    hide PutU32, PutSession;
    w.WriteU32(|sessions|);
    ghost var start := w.buf;
    for i := 0 to |sessions|
      invariant start + PutAll(sessions, PutSession) == w.buf + PutAll(sessions[i..], PutSession)
    {
      assert sessions[i..][1..] == sessions[i + 1..];
      Join(w.buf, PutSession(sessions[i]), PutAll(sessions[i + 1..], PutSession));
      EncodeSession(w, sessions[i]);
    }
    assert w.buf + PutAll(sessions[|sessions|..], PutSession) == w.buf;
    Join(old(w.buf), PutU32(|sessions|), PutAll(sessions, PutSession));
  }

  method EncodeBody(s: Snapshot, store: BlobStore) returns (bytes: seq<Byte>)
    modifies store
    ensures bytes == PutBody(s)
    ensures store.blobs == PutBlobs(old(store.blobs), WindowBlobs(s.windows))
  {
    hide PutU32, PutTouched, PutVec, PutBlobs, WindowBlobs;
    var w := new Writer();
    w.WriteU32(s.version.major);
    w.WriteU32(s.version.minor);
    w.buf := w.buf + PutTouched(s.touched);
    EncodeWindows(w, s.windows, store);
    EncodeSessions(w, s.sessions);
    w.WriteVec(s.clients, PutClient);
    ghost var (major, minor, touched) := (PutU32(s.version.major), PutU32(s.version.minor), PutTouched(s.touched));
    ghost var (windows, sessions) := (PutVec(s.windows, WindowPutter()), PutVec(s.sessions, PutSession));
    ghost var clients := PutVec(s.clients, PutClient);
    assert [] + major == major;
    Join(major + minor + touched + windows, sessions, clients);
    Join(major + minor + touched, windows, sessions + clients);
    Join(major + minor, touched, windows + (sessions + clients));
    Join(major, minor, touched + (windows + (sessions + clients)));
    bytes := w.buf;
  }

  /** The whole file, and what writing it leaves in the blob store. */
  method EncodeFile(s: Snapshot, tag: Option<Text>, store: BlobStore) returns (out: seq<Byte>)
    modifies store
    ensures out == PutFile(s, tag)
    ensures store.blobs == PutBlobs(old(store.blobs), WindowBlobs(s.windows))
  {
    hide PutBody, PutOrigin, PutI64, PutU64, PutU32, PutOption, PutBlobs, WindowBlobs, Fnv;
    var body := EncodeBody(s, store);
    var w := new Writer();
    w.buf := w.buf + PutOrigin(s.origin);
    w.WriteI64(s.capturedAt);
    WriteOption(w, tag, PutBytes);
    w.WriteU64(|body|);
    var checksum := Fnv1a64(body);
    w.WriteU64(checksum);
    var header := w.buf;
    ghost var (origin, at, name) := (PutOrigin(s.origin), PutI64(s.capturedAt), PutOption(tag, PutBytes));
    ghost var (n, sum) := (PutU64(|body|), PutU64(checksum));
    assert [] + origin == origin;
    Join(origin + at + name, n, sum);
    Join(origin + at, name, n + sum);
    Join(origin, at, name + (n + sum));
    out := MAGIC;
    out := out + PutU32(CURRENT);
    out := out + PutU32(|header|);
    out := out + header;
    out := out + body;
    Join(MAGIC + PutU32(CURRENT) + PutU32(|header|), header, body);
    Join(MAGIC + PutU32(CURRENT), PutU32(|header|), header + body);
    Join(MAGIC, PutU32(CURRENT), PutU32(|header|) + (header + body));
  }
}
