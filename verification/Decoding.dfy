/** The decoders of phoenix-store/src/codec.rs and header.rs as they run, each
    advancing one reader and stopping at the first thing it cannot read. */
module Decoding {
  import opened Wrappers
  import opened Snapshots
  import opened Bytes
  import opened Codec
  import opened Body
  import opened Header
  import opened Encoding

  method ReadName(r: Reader) returns (out: Read<Text>)
    requires r.Valid()
    modifies r
    ensures r.Follows(GetName(old(r.Remaining())), out)
  {
    var s :- r.ReadStr();
    out := if s.0 == [] then Bad(InvalidName) else Got(s.0, s.1);
  }

  method ReadStrs(r: Reader) returns (out: Read<seq<Text>>)
    requires r.Valid()
    modifies r
    ensures r.Follows(GetVec(GetStr, old(r.Remaining())), out)
  {
    hide GetStr, GetU32;
    var n :- r.ReadU32();
    ghost var from := r.Remaining();
    var items: seq<Text> := [];
    for i := 0 to n.0
      invariant r.Valid() && GetAll([], n.0, GetStr, from) == GetAll(items, n.0 - i, GetStr, r.Remaining())
    {
      var item :- r.ReadStr();
      items := items + [item.0];
    }
    out := Got(items, r.Remaining());
  }

  method ReadOptionalName(r: Reader) returns (out: Read<Option<Text>>)
    requires r.Valid()
    modifies r
    ensures r.Follows(GetOption(GetName, old(r.Remaining())), out)
  {
    hide GetName, GetU8;
    var tag :- r.ReadU8();
    match tag.0 {
      case 0 => out := Got(None, tag.1);
      case 1 =>
        var name :- ReadName(r);
        out := Got(Some(name.0), name.1);
      case _ => out := Bad(InvalidTag("option", tag.0));
    }
  }

  method DecodeRecoveryFailure(r: Reader) returns (out: Read<RecoveryFailure>)
    requires r.Valid()
    modifies r
    ensures r.Follows(GetRecoveryFailure(old(r.Remaining())), out)
  {
    hide GetStr, GetU8;
    var tag :- r.ReadU8();
    match tag.0 {
      case 0 => out := Got(ShellGone, tag.1);
      case 1 => out := Got(NoTerminal, tag.1);
      case 2 => out := Got(LeaderGone, tag.1);
      case 3 =>
        var message :- r.ReadStr();
        out := Got(Os(message.0), message.1);
      case 4 => out := Got(ForegroundNotRecorded, tag.1);
      case _ => out := Bad(InvalidTag("RecoveryFailure", tag.0));
    }
  }

  method DecodeContentFailure(r: Reader) returns (out: Read<ContentFailure>)
    requires r.Valid()
    modifies r
    ensures r.Follows(GetContentFailure(old(r.Remaining())), out)
  {
    hide GetStr, GetU8;
    var tag :- r.ReadU8();
    match tag.0 {
      case 0 =>
        var message :- r.ReadStr();
        out := Got(CapturePane(message.0), message.1);
      case 1 => out := Got(ContentNotRecorded, tag.1);
      case _ => out := Bad(InvalidTag("ContentFailure", tag.0));
    }
  }

  method DecodeLinesBlob(bytes: seq<Byte>) returns (out: Read<seq<Text>>)
    ensures out == GetLines(bytes)
  {
    hide GetVec;
    var r := new Reader(bytes);
    var lines :- ReadStrs(r);
    out := if lines.1 == [] then Got(lines.0, []) else Bad(Truncated);
  }

  /** A blob's key, then its lines from the store. */
  method ReadBlob(r: Reader, store: BlobStore) returns (out: Read<seq<Text>>)
    requires r.Valid()
    modifies r
    ensures r.Follows(GetBlob(store.blobs, old(r.Remaining())), out)
  {
    hide GetBytes, GetLines;
    var hash :- r.ReadBytes();
    if |hash.0| != 16 {
      out := Bad(Truncated);
      return;
    }
    var content :- store.Get(hash.0);
    var lines :- DecodeLinesBlob(content.0);
    out := Got(lines.0, r.Remaining());
  }

  method DecodeForeground(r: Reader) returns (out: Read<Foreground>)
    requires r.Valid()
    modifies r
    ensures r.Follows(GetForeground(old(r.Remaining())), out)
  {
    hide GetVec, GetRecoveryFailure, GetU8;
    var tag :- r.ReadU8();
    match tag.0 {
      case 0 => out := Got(Shell, tag.1);
      case 1 =>
        var argv :- ReadStrs(r);
        out := if argv.0 == [] then Bad(EmptyCollection) else Got(Program(argv.0), argv.1);
      case 2 =>
        var why :- DecodeRecoveryFailure(r);
        out := Got(Unrecovered(why.0), why.1);
      case _ => out := Bad(InvalidTag("Foreground", tag.0));
    }
  }

  method DecodeContent(r: Reader, store: BlobStore) returns (out: Read<Content>)
    requires r.Valid()
    modifies r
    ensures r.Follows(GetContent(store.blobs, old(r.Remaining())), out)
  {
    hide GetU64, GetBlob, GetContentFailure, GetU8;
    var tag :- r.ReadU8();
    match tag.0 {
      case 0 =>
        var reason :- DecodeContentFailure(r);
        out := Got(NotCaptured(reason.0), reason.1);
      case 1 =>
        var size :- r.ReadU64();
        var bytes :- r.ReadU64();
        var scrollback :- ReadBlob(r, store);
        var visible :- ReadBlob(r, store);
        out := Got(Captured(Indicator(size.0, bytes.0), scrollback.0, visible.0), visible.1);
      case _ => out := Bad(InvalidTag("Content", tag.0));
    }
  }

  method DecodePane(r: Reader, store: BlobStore) returns (out: Read<Pane>)
    requires r.Valid()
    modifies r
    ensures r.Follows(GetPane(store.blobs, old(r.Remaining())), out)
  {
    hide GetU32, GetOption, GetForeground, GetContent;
    var id :- r.ReadU32();
    var index :- r.ReadU32();
    var cwd :- ReadOptionalName(r);
    var foreground :- DecodeForeground(r);
    var content :- DecodeContent(r, store);
    var path := if cwd.0.Some? then Known(cwd.0.value) else Unreadable;
    out := Got(Pane(id.0, index.0, path, foreground.0, content.0), content.1);
  }

  method ReadPanes(r: Reader, store: BlobStore) returns (out: Read<seq<Pane>>)
    requires r.Valid()
    modifies r
    ensures r.Follows(GetNonEmpty(PaneGetter(store.blobs), old(r.Remaining())), out)
  {
    hide GetPane, GetU32;
    var n :- r.ReadU32();
    ghost var from, get := r.Remaining(), PaneGetter(store.blobs);
    var items: seq<Pane> := [];
    for i := 0 to n.0
      invariant r.Valid() && GetAll([], n.0, get, from) == GetAll(items, n.0 - i, get, r.Remaining())
    {
      var item :- DecodePane(r, store);
      items := items + [item.0];
    }
    out := if items == [] then Bad(EmptyCollection) else Got(items, r.Remaining());
  }

  method DecodeMade(r: Reader) returns (out: Read<Made>)
    requires r.Valid()
    modifies r
    ensures r.Follows(GetMade(old(r.Remaining())), out)
  {
    hide GetI64, GetU32, GetU8;
    var tag :- r.ReadU8();
    match tag.0 {
      case 0 => out := Got(NotByPhoenix, tag.1);
      case 1 =>
        var generation :- r.ReadI64();
        var saved :- r.ReadU32();
        out := Got(ByPhoenix(generation.0, saved.0), saved.1);
      case _ => out := Bad(InvalidTag("Made", tag.0));
    }
  }

  method ReadFlag(r: Reader, what: string) returns (out: Read<bool>)
    requires r.Valid()
    modifies r
    ensures r.Follows(GetFlag(what, old(r.Remaining())), out)
  {
    hide GetU8;
    var tag :- r.ReadU8();
    match tag.0 {
      case 0 => out := Got(false, tag.1);
      case 1 => out := Got(true, tag.1);
      case _ => out := Bad(InvalidTag(what, tag.0));
    }
  }

  method DecodeWindow(r: Reader, store: BlobStore) returns (out: Read<Window>)
    requires r.Valid()
    modifies r
    ensures r.Follows(GetWindow(store.blobs, old(r.Remaining())), out)
  {
    hide GetU32, GetMade, GetName, GetFlag, GetNonEmpty, WindowNew, PaneGetter;
    var id :- r.ReadU32();
    var made :- DecodeMade(r);
    var name :- ReadName(r);
    var layout :- ReadName(r);
    var zoomed :- ReadFlag(r, "zoomed");
    var panes :- ReadPanes(r, store);
    var active :- r.ReadU32();
    out := Admit(WindowNew(Window(id.0, made.0, name.0, layout.0, zoomed.0, panes.0, active.0)), active.1);
  }

  method ReadWindows(r: Reader, store: BlobStore) returns (out: Read<seq<Window>>)
    requires r.Valid()
    modifies r
    ensures r.Follows(GetNonEmpty(WindowGetter(store.blobs), old(r.Remaining())), out)
  {
    hide GetWindow, GetU32;
    var n :- r.ReadU32();
    ghost var from, get := r.Remaining(), WindowGetter(store.blobs);
    var items: seq<Window> := [];
    for i := 0 to n.0
      invariant r.Valid() && GetAll([], n.0, get, from) == GetAll(items, n.0 - i, get, r.Remaining())
    {
      var item :- DecodeWindow(r, store);
      items := items + [item.0];
    }
    out := if items == [] then Bad(EmptyCollection) else Got(items, r.Remaining());
  }

  method ReadLinks(r: Reader) returns (out: Read<seq<WinLink>>)
    requires r.Valid()
    modifies r
    ensures r.Follows(GetNonEmpty(GetLink, old(r.Remaining())), out)
  {
    hide GetU32;
    var n :- r.ReadU32();
    ghost var from := r.Remaining();
    var items: seq<WinLink> := [];
    for i := 0 to n.0
      invariant r.Valid() && GetAll([], n.0, GetLink, from) == GetAll(items, n.0 - i, GetLink, r.Remaining())
    {
      var index :- r.ReadU32();
      var window :- r.ReadU32();
      items := items + [WinLink(index.0, window.0)];
    }
    out := if items == [] then Bad(EmptyCollection) else Got(items, r.Remaining());
  }

  method DecodeSession(r: Reader) returns (out: Read<Session>)
    requires r.Valid()
    modifies r
    ensures r.Follows(GetSession(old(r.Remaining())), out)
  {
    hide GetU32, GetName, GetNonEmpty, SessionNew, GetU8;
    var name :- ReadName(r);
    var group :- ReadOptionalName(r);
    var links :- ReadLinks(r);
    var active :- r.ReadU32();
    var tag :- r.ReadU8();
    var last: Option<Index> := None;
    match tag.0 {
      case 0 =>
      case 1 =>
        var index :- r.ReadU32();
        last := Some(index.0);
      case _ => return Bad(InvalidTag("option", tag.0));
    }
    out := Admit(SessionNew(Session(name.0, group.0, links.0, active.0, last)), r.Remaining());
  }

  method ReadSessions(r: Reader) returns (out: Read<seq<Session>>)
    requires r.Valid()
    modifies r
    ensures r.Follows(GetNonEmpty(GetSession, old(r.Remaining())), out)
  {
    hide GetSession, GetU32;
    var n :- r.ReadU32();
    ghost var from := r.Remaining();
    var items: seq<Session> := [];
    for i := 0 to n.0
      invariant r.Valid() && GetAll([], n.0, GetSession, from) == GetAll(items, n.0 - i, GetSession, r.Remaining())
    {
      var item :- DecodeSession(r);
      items := items + [item.0];
    }
    out := if items == [] then Bad(EmptyCollection) else Got(items, r.Remaining());
  }

  method ReadClients(r: Reader) returns (out: Read<seq<Client>>)
    requires r.Valid()
    modifies r
    ensures r.Follows(GetVec(GetClient, old(r.Remaining())), out)
  {
    hide GetName, GetU32;
    var n :- r.ReadU32();
    ghost var from := r.Remaining();
    var items: seq<Client> := [];
    for i := 0 to n.0
      invariant r.Valid() && GetAll([], n.0, GetClient, from) == GetAll(items, n.0 - i, GetClient, r.Remaining())
    {
      var name :- ReadName(r);
      var session :- ReadName(r);
      items := items + [Client(name.0, session.0)];
    }
    out := Got(items, r.Remaining());
  }

  method DecodeTouched(r: Reader) returns (out: Read<Touched>)
    requires r.Valid()
    modifies r
    ensures r.Follows(GetTouched(old(r.Remaining())), out)
  {
    hide GetI64, GetU8;
    var tag :- r.ReadU8();
    match tag.0 {
      case 0 => out := Got(Never, tag.1);
      case 1 =>
        var generation :- r.ReadI64();
        out := Got(By(generation.0), generation.1);
      case _ => out := Bad(InvalidTag("Touched", tag.0));
    }
  }

  method DecodeBody(bytes: seq<Byte>, origin: Origin, capturedAt: int, store: BlobStore) returns (out: Read<Snapshot>)
    ensures out == GetBody(store.blobs, origin, capturedAt, bytes)
  {
    hide GetU32, GetTouched, GetNonEmpty, GetVec, SnapshotNew, WindowGetter;
    var r := new Reader(bytes);
    var major :- r.ReadU32();
    var minor :- r.ReadU32();
    var touched :- DecodeTouched(r);
    var windows :- ReadWindows(r, store);
    var sessions :- ReadSessions(r);
    var clients :- ReadClients(r);
    if r.Remaining() != [] {
      return Bad(Truncated);
    }
    var version := Version(major.0, minor.0);
    out := Admit(SnapshotNew(Snapshot(origin, touched.0, capturedAt, version, windows.0, sessions.0, clients.0)), []);
  }

  method DecodeOrigin(r: Reader) returns (out: Read<Origin>)
    requires r.Valid()
    modifies r
    ensures r.Follows(GetOrigin(old(r.Remaining())), out)
  {
    hide GetU32, GetI64, GetU8;
    var tag :- r.ReadU8();
    match tag.0 {
      case 0 => out := Got(BeforeOriginWasRecorded, tag.1);
      case 1 =>
        var pid :- r.ReadU32();
        var startTime :- r.ReadI64();
        out := Got(Recorded(pid.0, startTime.0), startTime.1);
      case _ => out := Bad(InvalidTag("Origin", tag.0));
    }
  }

  method ReadHeader(bodyStart: nat, bytes: seq<Byte>) returns (out: Read<Header>)
    ensures out == GetHeader(bodyStart, bytes)
  {
    hide GetOrigin, GetI64, GetOption, GetU64;
    var r := new Reader(bytes);
    var origin :- DecodeOrigin(r);
    var capturedAt :- r.ReadI64();
    var tag :- ReadOptionalName(r);
    var bodyLen :- r.ReadU64();
    var checksum :- r.ReadU64();
    if r.Remaining() != [] {
      return Bad(Truncated);
    }
    out := Got(Header(CURRENT, origin.0, capturedAt.0, tag.0, bodyLen.0, checksum.0, bodyStart), []);
  }
}
