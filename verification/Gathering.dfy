/** phoenix-capture/src/fold.rs, the whole fold: what its counting test finds,
    and what can still be wrong with a graph it accepts. */
module Gathering {
  import opened Wrappers
  import opened Snapshots
  import opened Folding

  // ---- A torn window is found by counting ----

  /** No pane is listed twice under one link. */
  predicate NoRepeats(rows: seq<Row>) {
    forall i, j :: 0 <= i < j < |rows| ==> LinkOf(rows[i]) != LinkOf(rows[j]) || rows[i].paneId != rows[j].paneId
  }

  ghost predicate ListsPane(rows: seq<Row>, link: (Text, Index), pane: Id) {
    exists i :: 0 <= i < |rows| && LinkOf(rows[i]) == link && rows[i].paneId == pane
  }

  /** Every link lists the same panes. */
  ghost predicate SameUnderEach(rows: seq<Row>) {
    forall v, w, pane :: v in Keys(rows, LinkOf) && w in Keys(rows, LinkOf) && ListsPane(rows, v, pane)
      ==> ListsPane(rows, w, pane)
  }

  /** The links that list a pane, and all the links. */
  ghost function LinksListing(rows: seq<Row>, pane: Id): set<(Text, Index)> {
    if |rows| == 0 then {} else
    var last := rows[|rows| - 1];
    LinksListing(rows[..|rows| - 1], pane) + if last.paneId == pane then {LinkOf(last)} else {}
  }

  ghost function AllLinks(rows: seq<Row>): set<(Text, Index)> {
    if |rows| == 0 then {} else AllLinks(rows[..|rows| - 1]) + {LinkOf(rows[|rows| - 1])}
  }

  lemma {:induction false} LinksListingIs(rows: seq<Row>, pane: Id)
    ensures forall link :: link in LinksListing(rows, pane) <==> ListsPane(rows, link, pane)
  {
    if |rows| > 0 {
      var init, last := rows[..|rows| - 1], rows[|rows| - 1];
      LinksListingIs(init, pane);
      forall link ensures link in LinksListing(rows, pane) <==> ListsPane(rows, link, pane) {
        if ListsPane(init, link, pane) {
          var i :| 0 <= i < |init| && LinkOf(init[i]) == link && init[i].paneId == pane;
          assert rows[i] == init[i];
        }
        if ListsPane(rows, link, pane) {
          var i :| 0 <= i < |rows| && LinkOf(rows[i]) == link && rows[i].paneId == pane;
          assert i < |rows| - 1 ==> init[i] == rows[i];
        }
      }
    }
  }

  lemma {:induction false} ListingCounts(rows: seq<Row>, pane: Id)
    requires NoRepeats(rows)
    ensures |LinksListing(rows, pane)| == |OnlyOf(rows, PaneOf, pane)|
  {
    if |rows| > 0 {
      var init, last := rows[..|rows| - 1], rows[|rows| - 1];
      ListingCounts(init, pane);
      LinksListingIs(init, pane);
      if last.paneId == pane {
        assert !ListsPane(init, LinkOf(last), pane);
      }
    }
  }

  lemma {:induction false} AllLinksCounts(rows: seq<Row>)
    ensures |AllLinks(rows)| == |Keys(rows, LinkOf)|
    ensures forall link :: link in AllLinks(rows) <==> link in Keys(rows, LinkOf)
  {
    if |rows| > 0 {
      AllLinksCounts(rows[..|rows| - 1]);
    }
  }

  lemma {:induction false} ListingIsPart(rows: seq<Row>, pane: Id)
    ensures LinksListing(rows, pane) <= AllLinks(rows)
  {
    if |rows| > 0 {
      ListingIsPart(rows[..|rows| - 1], pane);
    }
  }

  lemma SameSize<T>(a: set<T>, b: set<T>)
    requires a <= b
    ensures |a| == |b| <==> a == b
  {
    assert b == a + (b - a);
    if a != b {
      assert b - a != {};
      assert |b| == |a| + |b - a|;
    }
  }

  ghost predicate AllList(rows: seq<Row>, pane: Id) {
    forall link :: link in Keys(rows, LinkOf) ==> ListsPane(rows, link, pane)
  }

  /** One pane is counted under every link exactly when every link lists it. */
  lemma PaneCounted(rows: seq<Row>, pane: Id)
    requires NoRepeats(rows)
    ensures |OnlyOf(rows, PaneOf, pane)| == |Keys(rows, LinkOf)| <==> AllList(rows, pane)
  {
    hide Keys, OnlyOf, ListsPane;
    ListingCounts(rows, pane);
    AllLinksCounts(rows);
    ListingIsPart(rows, pane);
    SameSize(LinksListing(rows, pane), AllLinks(rows));
    LinksListingIs(rows, pane);
    if AllList(rows, pane) {
      assert forall link :: link in AllLinks(rows) ==> link in LinksListing(rows, pane);
      assert LinksListing(rows, pane) == AllLinks(rows);
    }
  }

  lemma ListedPaneIsKey(rows: seq<Row>, link: (Text, Index), pane: Id)
    requires ListsPane(rows, link, pane)
    ensures exists k :: 0 <= k < |Keys(rows, PaneOf)| && Keys(rows, PaneOf)[k] == pane
  {
    hide Keys;
    KeysAre(rows, PaneOf);
    var i :| 0 <= i < |rows| && LinkOf(rows[i]) == link && rows[i].paneId == pane;
    assert PaneOf(rows[i]) in Keys(rows, PaneOf);
  }

  lemma KeyIsListed(rows: seq<Row>, k: nat) returns (link: (Text, Index))
    requires k < |Keys(rows, PaneOf)|
    ensures link in Keys(rows, LinkOf) && ListsPane(rows, link, Keys(rows, PaneOf)[k])
  {
    hide Keys;
    KeysAre(rows, PaneOf);
    KeysAre(rows, LinkOf);
    assert Keys(rows, PaneOf)[k] in Keys(rows, PaneOf);
    var i :| 0 <= i < |rows| && PaneOf(rows[i]) == Keys(rows, PaneOf)[k];
    link := LinkOf(rows[i]);
  }

  /** The counting test passes exactly when every link lists the same panes. */
  lemma CountingFindsTorn(rows: seq<Row>)
    requires NoRepeats(rows)
    ensures EachListed(rows) <==> SameUnderEach(rows)
  {
    hide Keys, OnlyOf, ListsPane, NoRepeats;
    var panes := Keys(rows, PaneOf);
    if EachListed(rows) {
      forall v, w, pane | v in Keys(rows, LinkOf) && w in Keys(rows, LinkOf) && ListsPane(rows, v, pane)
        ensures ListsPane(rows, w, pane)
      {
        ListedPaneIsKey(rows, v, pane);
        PaneCounted(rows, pane);
      }
    }
    if SameUnderEach(rows) {
      forall k | 0 <= k < |panes| ensures |OnlyOf(rows, PaneOf, panes[k])| == |Keys(rows, LinkOf)| {
        var link := KeyIsListed(rows, k);
        assert AllList(rows, panes[k]);
        PaneCounted(rows, panes[k]);
      }
    }
  }

  // ---- The whole fold ----

  datatype Folded = Folded(windows: seq<Window>, sessions: seq<Session>)

  function FoldedSessions(rows: seq<Row>, names: seq<Text>): (r: Result<seq<Session>, FoldError>)
    requires forall i :: 0 <= i < |names| ==> names[i] in Keys(rows, SessionOf)
    ensures r.Ok? ==> |r.value| == |names|
    decreases |names|
  {
    if |names| == 0 then Ok([]) else
    match FoldedSessions(rows, names[..|names| - 1])
    case Err(e) => Err(e)
    case Ok(before) =>
      OnlyOfIs(rows, SessionOf, names[|names| - 1]);
      match FoldedSession(OnlyOf(rows, SessionOf, names[|names| - 1]))
      case Err(e) => Err(e)
      case Ok(session) => Ok(before + [session])
  }

  function FoldedWindows(rows: seq<Row>, ids: seq<Id>, read: Reading): (r: Result<seq<Window>, FoldError>)
    requires forall i :: 0 <= i < |ids| ==> ids[i] in Keys(rows, WindowOf)
    ensures r.Ok? ==> |r.value| == |ids|
    decreases |ids|
  {
    if |ids| == 0 then Ok([]) else
    match FoldedWindows(rows, ids[..|ids| - 1], read)
    case Err(e) => Err(e)
    case Ok(before) =>
      OnlyOfIs(rows, WindowOf, ids[|ids| - 1]);
      match FoldedWindow(OnlyOf(rows, WindowOf, ids[|ids| - 1]), read)
      case Err(e) => Err(e)
      case Ok(window) => Ok(before + [window])
  }

  function Fold(rows: seq<Row>, read: Reading): (r: Result<Folded, FoldError>) {
    match FoldedSessions(rows, Keys(rows, SessionOf))
    case Err(e) => Err(e)
    case Ok(sessions) =>
      if sessions == [] then Err(NoSessions) else
      match FoldedWindows(rows, Keys(rows, WindowOf), read)
      case Err(e) => Err(e)
      case Ok(windows) => Ok(Folded(windows, sessions))
  }

  // ---- What each part of a fold is ----

  /** A session is named by its group, and links the first window at each index. */
  lemma {:induction false} SessionsAre(rows: seq<Row>, names: seq<Text>)
    requires forall i :: 0 <= i < |names| ==> names[i] in Keys(rows, SessionOf)
    requires FoldedSessions(rows, names).Ok?
    ensures forall i :: 0 <= i < |names| ==> SessionIs(FoldedSessions(rows, names).value[i], OnlyOf(rows, SessionOf, names[i]), names[i])
    decreases |names|
  {
    hide Keys, OnlyOf, FoldedSession, SessionIs;
    if |names| > 0 {
      SessionsAre(rows, names[..|names| - 1]);
      var name := names[|names| - 1];
      OnlyOfIs(rows, SessionOf, name);
      FoldedSessionIs(OnlyOf(rows, SessionOf, name), name);
    }
  }

  ghost predicate SessionIs(s: Session, rows: seq<Row>, name: Text) {
    && s.name == name && ValidSession(s)
    && |s.windows| == |Keys(rows, IndexOf)|
    && forall i :: 0 <= i < |s.windows| ==> LeadsAt(rows, Keys(rows, IndexOf)[i], s.windows[i].window)
  }

  /** The first row at this index is of this window. */
  ghost predicate LeadsAt(rows: seq<Row>, index: Index, window: Id) {
    |OnlyOf(rows, IndexOf, index)| > 0 && OnlyOf(rows, IndexOf, index)[0].windowId == window
  }

  lemma FoldedSessionIs(rows: seq<Row>, name: Text)
    requires |rows| > 0 && FoldedSession(rows).Ok? && forall row :: row in rows ==> row.session == name
    ensures SessionIs(FoldedSession(rows).value, rows, name)
  {
    hide Keys, OnlyOf, ValidSession, SessionNew, LastFlagged;
    var s := FoldedSession(rows).value;
    KeysAre(rows, IndexOf);
    SessionNewAdmits(Session(rows[0].session, rows[0].group, LinksAt(rows, Keys(rows, IndexOf)), s.active, s.last));
    SessionNewSame(Session(rows[0].session, rows[0].group, LinksAt(rows, Keys(rows, IndexOf)),
                           LastFlagged(rows, Keys(rows, IndexOf), IsActive).value,
                           LastFlagged(rows, Keys(rows, IndexOf), IsLast)));
    assert rows[0] in rows;
    forall i | 0 <= i < |s.windows| ensures LeadsAt(rows, Keys(rows, IndexOf)[i], s.windows[i].window) {
      OnlyOfIs(rows, IndexOf, Keys(rows, IndexOf)[i]);
    }
  }

  lemma SessionNewSame(s: Session)
    requires |s.windows| > 0 && SessionNew(s).Ok?
    ensures SessionNew(s) == Ok(s)
  {
    SessionNewAdmits(s);
  }

  lemma {:induction false} WindowsAre(rows: seq<Row>, ids: seq<Id>, read: Reading)
    requires forall i :: 0 <= i < |ids| ==> ids[i] in Keys(rows, WindowOf)
    requires FoldedWindows(rows, ids, read).Ok?
    ensures forall i :: 0 <= i < |ids| ==>
              FoldedWindows(rows, ids, read).value[i].id == ids[i] && ValidWindow(FoldedWindows(rows, ids, read).value[i])
    decreases |ids|
  {
    hide Keys, OnlyOf, FoldedWindow, ValidWindow;
    if |ids| > 0 {
      WindowsAre(rows, ids[..|ids| - 1], read);
      var id := ids[|ids| - 1];
      OnlyOfIs(rows, WindowOf, id);
      FoldedWindowIs(OnlyOf(rows, WindowOf, id), id, read);
    }
  }

  lemma FoldedWindowIs(rows: seq<Row>, id: Id, read: Reading)
    requires |rows| > 0 && FoldedWindow(rows, read).Ok? && forall row :: row in rows ==> row.windowId == id
    ensures FoldedWindow(rows, read).value.id == id && ValidWindow(FoldedWindow(rows, read).value)
  {
    hide Keys, OnlyOf, ValidWindow, WindowNew, EachListed, PanesRead, ActivePane;
    var ids := Keys(rows, PaneOf);
    KeysAre(rows, PaneOf);
    assert PaneOf(rows[0]) in ids;
    var first := FirstRow(rows, ids[0]);
    assert rows[0] in rows;
    WindowNewAdmits(Window(rows[0].windowId, first.made, first.windowName, first.windowLayout, first.windowZoomed,
                           PanesRead(rows, ids, read).value, ActivePane(rows, ids).value));
  }

  // ---- What a folded graph can still be refused for ----

  function Captured(f: Folded, origin: Origin, touched: Touched, capturedAt: int, version: Version): Snapshot {
    Snapshot(origin, touched, capturedAt, version, f.windows, f.sessions, [])
  }

  /** Some link's first row is of this window. */
  ghost predicate Leads(rows: seq<Row>, window: Id) {
    exists name, index :: name in Keys(rows, SessionOf) && LeadsAt(OnlyOf(rows, SessionOf, name), index, window)
  }

  ghost predicate EveryWindowLeads(rows: seq<Row>) {
    forall window :: window in Keys(rows, WindowOf) ==> Leads(rows, window)
  }

  lemma FoldIsCoherent(rows: seq<Row>, read: Reading)
    requires Fold(rows, read).Ok?
    ensures var f := Fold(rows, read).value;
            && f.windows != [] && f.sessions != []
            && DistinctIds(f.windows) && DistinctNames(f.sessions)
            && (forall i :: 0 <= i < |f.windows| ==> ValidWindow(f.windows[i]))
            && (forall i :: 0 <= i < |f.sessions| ==> ValidSession(f.sessions[i]))
            && forall i :: 0 <= i < |f.sessions| ==> LinksResolve(f.windows, f.sessions[i])
  {
    hide Keys, OnlyOf, FoldedSessions, FoldedWindows, ValidWindow, ValidSession, LeadsAt, HoldsWindow;
    var f := Fold(rows, read).value;
    var (names, ids) := (Keys(rows, SessionOf), Keys(rows, WindowOf));
    KeysAreDistinct(rows, SessionOf);
    KeysAreDistinct(rows, WindowOf);
    SessionsAre(rows, names);
    WindowsAre(rows, ids, read);
    forall i, k | 0 <= i < |f.sessions| && 0 <= k < |f.sessions[i].windows|
      ensures HoldsWindow(f.windows, f.sessions[i].windows[k].window)
    {
      LinkResolves(rows, names[i], f.sessions[i], k, f.windows);
    }
    SomeWindow(rows);
  }

  lemma SomeWindow(rows: seq<Row>)
    ensures |Keys(rows, SessionOf)| > 0 ==> |Keys(rows, WindowOf)| > 0
  {
    if |rows| > 0 {
      KeysAre(rows, WindowOf);
    }
  }

  lemma LinkResolves(rows: seq<Row>, name: Text, s: Session, k: nat, windows: seq<Window>)
    requires SessionIs(s, OnlyOf(rows, SessionOf, name), name) && k < |s.windows|
    requires |windows| == |Keys(rows, WindowOf)|
    requires forall i :: 0 <= i < |windows| ==> windows[i].id == Keys(rows, WindowOf)[i]
    ensures HoldsWindow(windows, s.windows[k].window)
  {
    hide Keys, OnlyOf, ValidSession;
    var mine := OnlyOf(rows, SessionOf, name);
    var index := Keys(mine, IndexOf)[k];
    OnlyOfIs(rows, SessionOf, name);
    OnlyOfIs(mine, IndexOf, index);
    var first := OnlyOf(mine, IndexOf, index)[0];
    assert first in OnlyOf(mine, IndexOf, index);
    KeysAre(rows, WindowOf);
    var at :| 0 <= at < |rows| && rows[at] == first;
    assert WindowOf(rows[at]) in Keys(rows, WindowOf);
    var i :| 0 <= i < |windows| && Keys(rows, WindowOf)[i] == first.windowId;
  }

  lemma LinkedIs(rows: seq<Row>, read: Reading, window: Id)
    requires Fold(rows, read).Ok?
    ensures Linked(Fold(rows, read).value.sessions, window) <==> Leads(rows, window)
  {
    hide Keys, OnlyOf, FoldedSessions, FoldedWindows, SessionIs, LeadsAt, Links;
    var f := Fold(rows, read).value;
    var names := Keys(rows, SessionOf);
    SessionsAre(rows, names);
    if Linked(f.sessions, window) {
      var i :| 0 <= i < |f.sessions| && Links(f.sessions[i], window);
      LinksLead(rows, f.sessions[i], names[i], window);
    }
    if Leads(rows, window) {
      var name, index :| name in names && LeadsAt(OnlyOf(rows, SessionOf, name), index, window);
      var i :| 0 <= i < |names| && names[i] == name;
      LeadLinks(rows, f.sessions[i], name, index, window);
    }
  }

  lemma LinksLead(rows: seq<Row>, s: Session, name: Text, window: Id)
    requires SessionIs(s, OnlyOf(rows, SessionOf, name), name) && Links(s, window) && name in Keys(rows, SessionOf)
    ensures Leads(rows, window)
  {
    hide Keys, OnlyOf, ValidSession, LeadsAt;
    var k :| 0 <= k < |s.windows| && s.windows[k].window == window;
    assert LeadsAt(OnlyOf(rows, SessionOf, name), Keys(OnlyOf(rows, SessionOf, name), IndexOf)[k], window);
  }

  lemma LeadLinks(rows: seq<Row>, s: Session, name: Text, index: Index, window: Id)
    requires SessionIs(s, OnlyOf(rows, SessionOf, name), name) && LeadsAt(OnlyOf(rows, SessionOf, name), index, window)
    ensures Links(s, window)
  {
    hide Keys, OnlyOf, ValidSession;
    var mine := OnlyOf(rows, SessionOf, name);
    IndexIsKey(mine, index);
    var k :| 0 <= k < |Keys(mine, IndexOf)| && Keys(mine, IndexOf)[k] == index;
    assert s.windows[k].window == window;
  }

  lemma IndexIsKey(rows: seq<Row>, index: Index)
    requires |OnlyOf(rows, IndexOf, index)| > 0
    ensures index in Keys(rows, IndexOf)
  {
    hide Keys, OnlyOf;
    if index !in Keys(rows, IndexOf) {
      OnlyOfNone(rows, IndexOf, index);
    }
  }

  /** With no clients listed, the only thing `Snapshot::new` can refuse in a graph
      the fold made is a window no link leads to; and it accepts exactly when
      every window is some link's. */
  lemma OnlyOrphansAreRefused(rows: seq<Row>, read: Reading, origin: Origin, touched: Touched, capturedAt: int, version: Version)
    requires Fold(rows, read).Ok?
    ensures var s := Captured(Fold(rows, read).value, origin, touched, capturedAt, version);
            && s.windows != [] && s.sessions != []
            && (SnapshotNew(s).Err? ==> SnapshotNew(s).error.OrphanWindow?)
            && (SnapshotNew(s) == Ok(s) <==> EveryWindowLeads(rows))
  {
    hide Fold, Keys, OnlyOf, ValidWindow, ValidSession, DistinctIds, DistinctNames, LinksResolve, Linked, Leads, IsLinked;
    var s := Captured(Fold(rows, read).value, origin, touched, capturedAt, version);
    FoldIsCoherent(rows, read);
    IdsDistinct(s.windows);
    NamesDistinct(s.sessions);
    OrphansAreUnlinked(s.windows, s.sessions);
    StraysAreUnknown(s.clients, s.sessions);
    SnapshotNewAdmits(s);
    WindowKeys(rows, read);
    forall i | 0 <= i < |s.windows| ensures Linked(s.sessions, s.windows[i].id) <==> Leads(rows, s.windows[i].id) {
      LinkedIs(rows, read, s.windows[i].id);
    }
    if forall i :: 0 <= i < |s.windows| ==> Linked(s.sessions, s.windows[i].id) {
      forall window | window in Keys(rows, WindowOf) ensures Leads(rows, window) {
        var i :| 0 <= i < |s.windows| && s.windows[i].id == window;
      }
    }
  }

  lemma WindowKeys(rows: seq<Row>, read: Reading)
    requires Fold(rows, read).Ok?
    ensures var windows := Fold(rows, read).value.windows;
            && |windows| == |Keys(rows, WindowOf)|
            && (forall i :: 0 <= i < |windows| ==> windows[i].id == Keys(rows, WindowOf)[i] && windows[i].id in Keys(rows, WindowOf))
            && forall id :: id in Keys(rows, WindowOf) ==> exists i :: 0 <= i < |windows| && windows[i].id == id
  {
    hide Keys, FoldedSessions, FoldedWindows, ValidWindow;
    WindowsAre(rows, Keys(rows, WindowOf), read);
    var windows := Fold(rows, read).value.windows;
    forall id | id in Keys(rows, WindowOf) ensures exists i :: 0 <= i < |windows| && windows[i].id == id {
      var i :| 0 <= i < |Keys(rows, WindowOf)| && Keys(rows, WindowOf)[i] == id;
      assert windows[i].id == id;
    }
  }

  /** Rows at one index of one session agree on the window there. */
  predicate Agree(rows: seq<Row>) {
    forall i, j :: 0 <= i < |rows| && 0 <= j < |rows| && LinkOf(rows[i]) == LinkOf(rows[j])
      ==> rows[i].windowId == rows[j].windowId
  }

  /** A listing taken at one instant makes a snapshot `Snapshot::new` accepts. */
  lemma AgreedRowsAreAccepted(rows: seq<Row>, read: Reading, origin: Origin, touched: Touched, capturedAt: int, version: Version)
    requires Fold(rows, read).Ok? && Agree(rows)
    ensures var s := Captured(Fold(rows, read).value, origin, touched, capturedAt, version);
            s.windows != [] && s.sessions != [] && SnapshotNew(s) == Ok(s)
  {
    hide Fold, Keys, OnlyOf, SnapshotNew;
    forall window | window in Keys(rows, WindowOf) ensures Leads(rows, window) {
      AgreedLeads(rows, window);
    }
    OnlyOrphansAreRefused(rows, read, origin, touched, capturedAt, version);
  }

  lemma AgreedLeads(rows: seq<Row>, window: Id)
    requires Agree(rows) && window in Keys(rows, WindowOf)
    ensures Leads(rows, window)
  {
    hide Keys, OnlyOf, LeadsAt;
    var at := KeyHasItem(rows, WindowOf, window);
    KeyIsThere(rows, SessionOf, at);
    var i := FirstAtLink(rows, at);
    assert LinkOf(rows[i]) == LinkOf(rows[at]);
    assert LeadsAt(OnlyOf(rows, SessionOf, rows[at].session), rows[at].windowIndex, window);
  }

  /** Where the first row at a row's link is. */
  lemma FirstAtLink(rows: seq<Row>, at: nat) returns (i: nat)
    requires at < |rows|
    ensures i < |rows| && LinkOf(rows[i]) == LinkOf(rows[at])
    ensures LeadsAt(OnlyOf(rows, SessionOf, rows[at].session), rows[at].windowIndex, rows[i].windowId)
  {
    hide Keys, OnlyOf;
    var r := rows[at];
    var mine := OnlyOf(rows, SessionOf, r.session);
    OnlyOfIs(rows, SessionOf, r.session);
    OnlyOfIs(mine, IndexOf, r.windowIndex);
    assert r in rows && r in mine && r in OnlyOf(mine, IndexOf, r.windowIndex);
    var first := OnlyOf(mine, IndexOf, r.windowIndex)[0];
    assert first in OnlyOf(mine, IndexOf, r.windowIndex);
    i :| 0 <= i < |rows| && rows[i] == first;
  }
}
