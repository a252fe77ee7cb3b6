/** Which snapshots the format can hold, and what the blob store must keep for
    one: phoenix-store/src/codec.rs writes a pane's two texts as blobs. */
module Stored {
  import opened Wrappers
  import opened Snapshots
  import opened Bytes
  import opened Checksum
  import opened Codec
  import opened Body

  // ---- The bounds: integer widths, UTF-8, and lengths a `u32` counts ----

  predicate ContentFits(c: Content) {
    match c
    case NotCaptured(reason) => ContentFailureOk(reason)
    case Captured(indicator, scrollback, visible) =>
      IsU64(indicator.historySize) && IsU64(indicator.historyBytes) && LinesOk(scrollback) && LinesOk(visible)
  }

  predicate PaneFits(p: Pane) {
    && IsU32(p.id) && IsU32(p.index)
    && (p.cwd.Known? ==> IsName(p.cwd.path))
    && ForegroundOk(p.foreground) && ContentFits(p.content)
  }

  predicate WindowFits(w: Window) {
    && IsU32(w.id) && MadeOk(w.made) && IsName(w.name) && IsName(w.layout) && IsU32(w.active)
    && IsU32(|w.panes|) && forall i :: 0 <= i < |w.panes| ==> PaneFits(w.panes[i])
  }

  predicate SessionFits(s: Session) {
    && IsName(s.name) && OptionOk(s.group, IsName)
    && IsU32(|s.windows|) && AllOk(s.windows, LinkOk)
    && IsU32(s.active) && OptionOk(s.last, IsU32)
  }

  predicate Fits(s: Snapshot) {
    && IsU32(s.version.major) && IsU32(s.version.minor) && TouchedOk(s.touched)
    && IsU32(|s.windows|) && (forall i :: 0 <= i < |s.windows| ==> WindowFits(s.windows[i]))
    && IsU32(|s.sessions|) && (forall i :: 0 <= i < |s.sessions| ==> SessionFits(s.sessions[i]))
    && IsU32(|s.clients|) && AllOk(s.clients, IsClient)
  }

  // ---- The blobs ----

  /** What encoding a pane puts in the blob store, in order. */
  function ContentBlobs(c: Content): seq<seq<Byte>> {
    if c.Captured? then [PutLines(c.scrollback), PutLines(c.visible)] else []
  }

  function PaneBlobs(panes: seq<Pane>): seq<seq<Byte>> {
    if |panes| == 0 then [] else PaneBlobs(panes[..|panes| - 1]) + ContentBlobs(panes[|panes| - 1].content)
  }

  function WindowBlobs(windows: seq<Window>): seq<seq<Byte>> {
    if |windows| == 0 then [] else WindowBlobs(windows[..|windows| - 1]) + PaneBlobs(windows[|windows| - 1].panes)
  }

  function PutBlobs(blobs: Blobs, contents: seq<seq<Byte>>): Blobs {
    if |contents| == 0 then blobs
    else Put(PutBlobs(blobs, contents[..|contents| - 1]), contents[|contents| - 1])
  }

  ghost predicate Kept(blobs: Blobs, contents: seq<seq<Byte>>) {
    forall i :: 0 <= i < |contents| ==> Keeps(blobs, contents[i])
  }

  /** `later` still holds everything `blobs` did. */
  ghost predicate Later(blobs: Blobs, later: Blobs) {
    forall h :: h in blobs ==> h in later && later[h] == blobs[h]
  }

  /** No two of these contents share a key, nor one of them with a stored one. */
  ghost predicate NoClash(blobs: Blobs, contents: seq<seq<Byte>>) {
    && (forall i :: 0 <= i < |contents| ==> NoCollision(blobs, contents[i]))
    && forall i, j :: 0 <= i < j < |contents| && ContentHash(contents[i]) == ContentHash(contents[j])
         ==> contents[i] == contents[j]
  }

  lemma {:induction false} PutBlobsGrows(blobs: Blobs, contents: seq<seq<Byte>>)
    ensures Later(blobs, PutBlobs(blobs, contents))
    ensures Sound(blobs) ==> Sound(PutBlobs(blobs, contents))
  {
    hide Put, Sound, ContentHash, NoCollision, Keeps;
    if |contents| > 0 {
      PutBlobsGrows(blobs, contents[..|contents| - 1]);
      PutKeeps(PutBlobs(blobs, contents[..|contents| - 1]), contents[|contents| - 1]);
    }
  }

  /** What was put can be got back exactly when no two keys collide. */
  lemma {:induction false} PutBlobsKeeps(blobs: Blobs, contents: seq<seq<Byte>>)
    ensures Kept(PutBlobs(blobs, contents), contents) <==> NoClash(blobs, contents)
  {
    hide ContentHash, PutBlobs, Kept, NoClash;
    if NoClash(blobs, contents) {
      NoClashKeeps(blobs, contents, |contents|);
      assert contents[..|contents|] == contents;
    }
    PutBlobsGrows(blobs, contents);
    if Kept(PutBlobs(blobs, contents), contents) {
      KeptNoClash(blobs, PutBlobs(blobs, contents), contents);
    }
  }

  lemma KeptNoClash(blobs: Blobs, later: Blobs, contents: seq<seq<Byte>>)
    requires Later(blobs, later) && Kept(later, contents)
    ensures NoClash(blobs, contents)
  {
    hide ContentHash;
    assert forall i :: 0 <= i < |contents| ==> Keeps(later, contents[i]);
  }

  lemma {:induction false} StaysFree(blobs: Blobs, contents: seq<seq<Byte>>, content: seq<Byte>)
    requires NoCollision(blobs, content)
    requires forall i :: 0 <= i < |contents| && ContentHash(contents[i]) == ContentHash(content) ==> contents[i] == content
    ensures NoCollision(PutBlobs(blobs, contents), content)
  {
    hide ContentHash;
    if |contents| > 0 {
      StaysFree(blobs, contents[..|contents| - 1], content);
    }
  }

  lemma {:induction false} NoClashKeeps(blobs: Blobs, contents: seq<seq<Byte>>, n: nat)
    requires NoClash(blobs, contents) && n <= |contents|
    ensures Kept(PutBlobs(blobs, contents[..n]), contents[..n])
  {
    hide ContentHash, Put, NoCollision;
    if n > 0 {
      var init, last := contents[..n - 1], contents[n - 1];
      NoClashKeeps(blobs, contents, n - 1);
      assert contents[..n][..n - 1] == init && contents[..n][n - 1] == last;
      StaysFree(blobs, init, last);
      PutKeeps(PutBlobs(blobs, init), last);
      assert contents[..n] == init + [last];
    }
  }

  lemma KeptLater(blobs: Blobs, later: Blobs, contents: seq<seq<Byte>>)
    requires Later(blobs, later) && Kept(blobs, contents)
    ensures Kept(later, contents)
  {
    hide ContentHash;
  }

  lemma KeptSplits(blobs: Blobs, a: seq<seq<Byte>>, b: seq<seq<Byte>>)
    ensures Kept(blobs, a + b) <==> Kept(blobs, a) && Kept(blobs, b)
  {
    hide Keeps;
    if Kept(blobs, a + b) {
      assert forall i :: 0 <= i < |a| ==> a[i] == (a + b)[i];
      assert forall i :: 0 <= i < |b| ==> b[i] == (a + b)[|a| + i];
    }
  }

  // ---- The decoder's condition is: in bounds, valid, and its blobs kept ----

  lemma ContentOkIs(blobs: Blobs, c: Content)
    ensures ContentOk(blobs, c) <==> ContentFits(c) && Kept(blobs, ContentBlobs(c))
  {
    hide Keeps, LinesOk, PutLines;
    if c.Captured? {
      assert ContentBlobs(c)[0] == PutLines(c.scrollback) && ContentBlobs(c)[1] == PutLines(c.visible);
    }
  }

  lemma {:induction false} PanesOkAre(blobs: Blobs, panes: seq<Pane>)
    ensures AllOk(panes, PaneTest(blobs))
       <==> (forall i :: 0 <= i < |panes| ==> PaneFits(panes[i])) && Kept(blobs, PaneBlobs(panes))
  {
    hide AllOk, PaneOk, PaneFits, ContentBlobs, Kept;
    if |panes| == 0 {
      KeptNone(blobs);
      NoneOk(PaneTest(blobs));
    } else {
      var init, last := panes[..|panes| - 1], panes[|panes| - 1];
      PanesOkAre(blobs, init);
      KeptSplits(blobs, PaneBlobs(init), ContentBlobs(last.content));
      PaneOkIs(blobs, last);
      LastOk(panes, PaneTest(blobs));
    }
  }

  lemma PaneOkIs(blobs: Blobs, pane: Pane)
    ensures PaneOk(blobs, pane) <==> PaneFits(pane) && Kept(blobs, ContentBlobs(pane.content))
  {
    hide ContentOk, ContentFits, ForegroundOk, IsName, Kept, ContentBlobs;
    ContentOkIs(blobs, pane.content);
  }

  lemma NoneOk<T>(ok: T -> bool)
    ensures AllOk([], ok)
  {}

  lemma LastOk<T>(items: seq<T>, ok: T -> bool)
    requires |items| > 0
    ensures AllOk(items, ok) <==> AllOk(items[..|items| - 1], ok) && ok(items[|items| - 1])
  {}

  lemma KeptNone(blobs: Blobs)
    ensures Kept(blobs, [])
  {}

  lemma WindowOkIs(blobs: Blobs, w: Window)
    ensures WindowOk(blobs, w) <==> WindowFits(w) && ValidWindow(w) && Kept(blobs, PaneBlobs(w.panes))
  {
    hide PaneFits, MadeOk, IsName, Kept, AllOk;
    PanesOkAre(blobs, w.panes);
  }

  lemma {:induction false} WindowsOkAre(blobs: Blobs, windows: seq<Window>)
    ensures AllOk(windows, WindowTest(blobs))
       <==> (forall i :: 0 <= i < |windows| ==> WindowFits(windows[i]) && ValidWindow(windows[i]))
            && Kept(blobs, WindowBlobs(windows))
  {
    hide AllOk, WindowOk, WindowFits, ValidWindow, Kept, PaneBlobs;
    if |windows| == 0 {
      KeptNone(blobs);
      NoneOk(WindowTest(blobs));
    } else {
      var init, last := windows[..|windows| - 1], windows[|windows| - 1];
      WindowsOkAre(blobs, init);
      LastOk(windows, WindowTest(blobs));
      KeptSplits(blobs, WindowBlobs(init), PaneBlobs(last.panes));
      WindowOkIs(blobs, last);
    }
  }

  /** A body can be decoded exactly for a valid snapshot in bounds whose blobs
      are kept. */
  lemma BodyOkIs(blobs: Blobs, s: Snapshot)
    ensures BodyOk(blobs, s) <==> Fits(s) && ValidSnapshot(s) && Kept(blobs, WindowBlobs(s.windows))
  {
    hide WindowFits, ValidWindow, Kept, WindowTest, IsClient, TouchedOk, ValidSession, LinkOk, IsName;
    WindowsOkAre(blobs, s.windows);
    forall i | 0 <= i < |s.sessions|
      ensures SessionTest()(s.sessions[i]) <==> SessionFits(s.sessions[i]) && ValidSession(s.sessions[i])
    {
      ValidSessionLinks(s.sessions[i]);
    }
  }

  lemma ValidSessionLinks(s: Session)
    ensures ValidSession(s) ==> s.windows != []
  {}
}
