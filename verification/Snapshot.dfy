/** phoenix-core/src/snapshot.rs: the saved graph and its validating
    constructors. */
module Snapshots {
  import opened Wrappers

  type Index = nat
  type Id = nat
  type Generation = int

  datatype Origin = Recorded(pid: nat, startTime: int) | BeforeOriginWasRecorded
  datatype Touched = Never | By(generation: Generation)
  datatype Made = NotByPhoenix | ByPhoenix(generation: Generation, saved: Id)

  datatype Cwd = Known(path: Text) | Unreadable
  datatype RecoveryFailure = ShellGone | NoTerminal | LeaderGone | Os(message: Text) | ForegroundNotRecorded
  datatype Foreground = Shell | Program(argv: seq<Text>) | Unrecovered(why: RecoveryFailure)
  datatype ContentFailure = CapturePane(message: Text) | ContentNotRecorded
  datatype Indicator = Indicator(historySize: nat, historyBytes: nat)
  datatype Content =
    | Captured(indicator: Indicator, scrollback: seq<Text>, visible: seq<Text>)
    | NotCaptured(reason: ContentFailure)

  datatype Pane = Pane(id: Id, index: Index, cwd: Cwd, foreground: Foreground, content: Content)
  datatype Window = Window(id: Id, made: Made, name: Text, layout: Text, zoomed: bool,
                           panes: seq<Pane>, active: Index)
  datatype WinLink = WinLink(index: Index, window: Id)
  datatype Session = Session(name: Text, group: Option<Text>, windows: seq<WinLink>,
                             active: Index, last: Option<Index>)
  datatype Client = Client(name: Text, session: Text)
  datatype Version = Version(major: nat, minor: nat)
  datatype Snapshot = Snapshot(origin: Origin, touched: Touched, capturedAt: int, version: Version,
                               windows: seq<Window>, sessions: seq<Session>, clients: seq<Client>)

  datatype SnapshotError =
    | ActiveWindowNotFound(session: Text, active: Index)
    | LastWindowNotFound(session: Text, last: Index)
    | ActivePaneNotFound(window: Id, active: Index)
    | DuplicateWindowIndex(session: Text, index: Index)
    | DuplicatePaneIndex(window: Id, index: Index)
    | DuplicateWindowId(id: Id)
    | DuplicateSessionName(name: Text)
    | UnlinkedWindowRef(session: Text, window: Id)
    | OrphanWindow(id: Id)
    | UnknownClientSession(client: Text, session: Text)

  // ---- What the constructors admit, stated without their scans ----

  ghost predicate ValidWindow(w: Window) {
    && |w.panes| > 0
    && (forall i, j :: 0 <= i < j < |w.panes| ==> w.panes[i].index != w.panes[j].index)
    && exists i :: 0 <= i < |w.panes| && w.panes[i].index == w.active
  }

  ghost predicate HasIndex(links: seq<WinLink>, index: Index) {
    exists i :: 0 <= i < |links| && links[i].index == index
  }

  ghost predicate DistinctIndices(links: seq<WinLink>) {
    forall i, j :: 0 <= i < j < |links| ==> links[i].index != links[j].index
  }

  ghost predicate ValidSession(s: Session) {
    && |s.windows| > 0
    && DistinctIndices(s.windows)
    && HasIndex(s.windows, s.active)
    && (s.last.Some? ==> HasIndex(s.windows, s.last.value))
  }

  ghost predicate HoldsWindow(windows: seq<Window>, id: Id) {
    exists i :: 0 <= i < |windows| && windows[i].id == id
  }

  ghost predicate HoldsSession(sessions: seq<Session>, name: Text) {
    exists i :: 0 <= i < |sessions| && sessions[i].name == name
  }

  ghost predicate Links(s: Session, id: Id) {
    exists i :: 0 <= i < |s.windows| && s.windows[i].window == id
  }

  ghost predicate Linked(sessions: seq<Session>, id: Id) {
    exists i :: 0 <= i < |sessions| && Links(sessions[i], id)
  }

  ghost predicate DistinctIds(windows: seq<Window>) {
    forall i, j :: 0 <= i < j < |windows| ==> windows[i].id != windows[j].id
  }

  ghost predicate DistinctNames(sessions: seq<Session>) {
    forall i, j :: 0 <= i < j < |sessions| ==> sessions[i].name != sessions[j].name
  }

  ghost predicate LinksResolve(windows: seq<Window>, s: Session) {
    forall i :: 0 <= i < |s.windows| ==> HoldsWindow(windows, s.windows[i].window)
  }

  /** The cross-field half: what `Snapshot::new` itself checks. */
  ghost predicate CrossValid(s: Snapshot) {
    && DistinctIds(s.windows)
    && DistinctNames(s.sessions)
    && (forall i :: 0 <= i < |s.sessions| ==> LinksResolve(s.windows, s.sessions[i]))
    && NoOrphans(s)
    && (forall i :: 0 <= i < |s.clients| ==> HoldsSession(s.sessions, s.clients[i].session))
  }

  ghost predicate NoOrphans(s: Snapshot) {
    forall i :: 0 <= i < |s.windows| ==> Linked(s.sessions, s.windows[i].id)
  }

  /** What a plan relies on: windows and sessions valid and distinct, and every
      link resolving. */
  ghost predicate Coherent(s: Snapshot) {
    && (forall i :: 0 <= i < |s.windows| ==> ValidWindow(s.windows[i]))
    && (forall i :: 0 <= i < |s.sessions| ==> ValidSession(s.sessions[i]))
    && DistinctIds(s.windows)
    && DistinctNames(s.sessions)
    && forall i :: 0 <= i < |s.sessions| ==> LinksResolve(s.windows, s.sessions[i])
  }

  ghost predicate ValidSnapshot(s: Snapshot) {
    && |s.windows| > 0 && |s.sessions| > 0
    && Coherent(s)
    && CrossValid(s)
  }

  // ---- The constructors, with their scans in their order ----

  /** The position of the first item `pick` accepts. */
  function Find<T>(items: seq<T>, pick: T -> bool): (at: Option<nat>)
    ensures at.Some? ==> at.value < |items| && pick(items[at.value])
                         && forall i :: 0 <= i < at.value ==> !pick(items[i])
    ensures at.None? ==> forall i :: 0 <= i < |items| ==> !pick(items[i])
    decreases |items|
  {
    if |items| == 0 then None
    else if pick(items[0]) then Some(0)
    else match Find(items[1..], pick)
         case None => assert forall i :: 1 <= i < |items| ==> items[i] == items[1..][i - 1]; None
         case Some(at) => Some(at + 1)
  }

  lemma {:induction false} FindSame<X>(items: seq<X>, p: X -> bool, q: X -> bool)
    requires forall x :: x in items ==> p(x) == q(x)
    ensures Find(items, p) == Find(items, q)
    decreases |items|
  {
    if |items| > 0 {
      assert items[0] in items;
      FindSame(items[1..], p, q);
    }
  }

  function DuplicateFrom<T(==)>(items: seq<T>, i: nat): (r: Option<T>)
    requires i <= |items|
    decreases |items| - i
  {
    if i == |items| then None
    else if items[i] in items[..i] then Some(items[i])
    else DuplicateFrom(items, i + 1)
  }

  /** Some repeated value, the one whose repetition is met soonest. */
  function Duplicate<T(==)>(items: seq<T>): (r: Option<T>) {
    DuplicateFrom(items, 0)
  }

  lemma {:induction false} DuplicateFromFinds<T>(items: seq<T>, i: nat)
    requires i <= |items| && Distinct(items[..i])
    ensures DuplicateFrom(items, i).None? <==> Distinct(items)
    decreases |items| - i
  {
    if i == |items| {
      assert items[..i] == items;
    } else if items[i] in items[..i] {
      var j :| 0 <= j < i && items[j] == items[i];
    } else {
      assert items[..i + 1] == items[..i] + [items[i]];
      DuplicateFromFinds(items, i + 1);
    }
  }

  function PaneIndices(panes: seq<Pane>): seq<Index> {
    seq(|panes|, i requires 0 <= i < |panes| => panes[i].index)
  }

  function LinkIndices(links: seq<WinLink>): seq<Index> {
    seq(|links|, i requires 0 <= i < |links| => links[i].index)
  }

  function WindowIds(windows: seq<Window>): seq<Id> {
    seq(|windows|, i requires 0 <= i < |windows| => windows[i].id)
  }

  function SessionNames(sessions: seq<Session>): seq<Text> {
    seq(|sessions|, i requires 0 <= i < |sessions| => sessions[i].name)
  }

  function WindowNew(w: Window): (r: Result<Window, SnapshotError>)
    requires |w.panes| > 0
  {
    var dup := Duplicate(PaneIndices(w.panes));
    if dup.Some? then Err(DuplicatePaneIndex(w.id, dup.value))
    else if Find(w.panes, (p: Pane) => p.index == w.active).None? then Err(ActivePaneNotFound(w.id, w.active))
    else Ok(w)
  }

  function SessionNew(s: Session): (r: Result<Session, SnapshotError>)
    requires |s.windows| > 0
  {
    var dup := Duplicate(LinkIndices(s.windows));
    if dup.Some? then Err(DuplicateWindowIndex(s.name, dup.value))
    else if Find(s.windows, (l: WinLink) => l.index == s.active).None? then Err(ActiveWindowNotFound(s.name, s.active))
    else if s.last.Some? && Find(s.windows, (l: WinLink) => l.index == s.last.value).None? then
      Err(LastWindowNotFound(s.name, s.last.value))
    else Ok(s)
  }

  predicate IsHeld(windows: seq<Window>, id: Id) {
    Find(windows, (w: Window) => w.id == id).Some?
  }

  predicate IsLinked(sessions: seq<Session>, id: Id) {
    Find(sessions, (s: Session) => Find(s.windows, (l: WinLink) => l.window == id).Some?).Some?
  }

  predicate IsSession(sessions: seq<Session>, name: Text) {
    Find(sessions, (s: Session) => s.name == name).Some?
  }

  /** The first link, in session order, that names no window. */
  function Dangling(windows: seq<Window>, sessions: seq<Session>): (r: Option<SnapshotError>)
    ensures r.None? <==> forall i :: 0 <= i < |sessions| ==> LinksResolve(windows, sessions[i])
    decreases |sessions|
  {
    if |sessions| == 0 then None
    else
      var s := sessions[0];
      match Find(s.windows, (l: WinLink) => !IsHeld(windows, l.window))
      case Some(at) =>
        assert !LinksResolve(windows, s) by { assert !HoldsWindow(windows, s.windows[at].window); }
        Some(UnlinkedWindowRef(s.name, s.windows[at].window))
      case None =>
        assert LinksResolve(windows, s) by {
          forall i | 0 <= i < |s.windows| ensures HoldsWindow(windows, s.windows[i].window) {
            assert IsHeld(windows, s.windows[i].window);
          }
        }
        assert forall i :: 1 <= i < |sessions| ==> sessions[i] == sessions[1..][i - 1];
        Dangling(windows, sessions[1..])
  }

  function SnapshotNew(s: Snapshot): (r: Result<Snapshot, SnapshotError>)
    requires |s.windows| > 0 && |s.sessions| > 0
  {
    var dupId := Duplicate(WindowIds(s.windows));
    if dupId.Some? then Err(DuplicateWindowId(dupId.value)) else
    var dupName := Duplicate(SessionNames(s.sessions));
    if dupName.Some? then Err(DuplicateSessionName(dupName.value)) else
    var dangling := Dangling(s.windows, s.sessions);
    if dangling.Some? then Err(dangling.value) else
    var orphan := Find(s.windows, (w: Window) => !IsLinked(s.sessions, w.id));
    if orphan.Some? then Err(OrphanWindow(s.windows[orphan.value].id)) else
    var stray := Find(s.clients, (c: Client) => !IsSession(s.sessions, c.session));
    if stray.Some? then
      Err(UnknownClientSession(s.clients[stray.value].name, s.clients[stray.value].session))
    else Ok(s)
  }

  // ---- The constructors admit exactly the valid graphs ----

  lemma WindowNewAdmits(w: Window)
    requires |w.panes| > 0
    ensures WindowNew(w) == Ok(w) <==> ValidWindow(w)
    ensures WindowNew(w).Ok? ==> WindowNew(w) == Ok(w)
  {
    DuplicateFromFinds(PaneIndices(w.panes), 0);
    assert Distinct(PaneIndices(w.panes)) <==>
      (forall i, j :: 0 <= i < j < |w.panes| ==> w.panes[i].index != w.panes[j].index) by {
      assert forall i :: 0 <= i < |w.panes| ==> PaneIndices(w.panes)[i] == w.panes[i].index;
    }
  }

  lemma SessionNewAdmits(s: Session)
    requires |s.windows| > 0
    ensures SessionNew(s) == Ok(s) <==> ValidSession(s)
    ensures SessionNew(s).Ok? ==> SessionNew(s) == Ok(s)
  {
    DuplicateFromFinds(LinkIndices(s.windows), 0);
    assert Distinct(LinkIndices(s.windows)) <==> DistinctIndices(s.windows) by {
      assert forall i :: 0 <= i < |s.windows| ==> LinkIndices(s.windows)[i] == s.windows[i].index;
    }
  }

  lemma IdsDistinct(windows: seq<Window>)
    ensures Duplicate(WindowIds(windows)).None? <==> DistinctIds(windows)
  {
    DuplicateFromFinds(WindowIds(windows), 0);
    assert forall i :: 0 <= i < |windows| ==> WindowIds(windows)[i] == windows[i].id;
  }

  lemma NamesDistinct(sessions: seq<Session>)
    ensures Duplicate(SessionNames(sessions)).None? <==> DistinctNames(sessions)
  {
    DuplicateFromFinds(SessionNames(sessions), 0);
    assert forall i :: 0 <= i < |sessions| ==> SessionNames(sessions)[i] == sessions[i].name;
  }

  lemma OrphansAreUnlinked(windows: seq<Window>, sessions: seq<Session>)
    ensures Find(windows, (w: Window) => !IsLinked(sessions, w.id)).None?
       <==> forall i :: 0 <= i < |windows| ==> Linked(sessions, windows[i].id)
  {
    forall id ensures IsLinked(sessions, id) <==> Linked(sessions, id) {
      forall i | 0 <= i < |sessions|
        ensures Find(sessions[i].windows, (l: WinLink) => l.window == id).Some? <==> Links(sessions[i], id)
      {}
    }
  }

  lemma StraysAreUnknown(clients: seq<Client>, sessions: seq<Session>)
    ensures Find(clients, (c: Client) => !IsSession(sessions, c.session)).None?
       <==> forall i :: 0 <= i < |clients| ==> HoldsSession(sessions, clients[i].session)
  {
    forall name ensures IsSession(sessions, name) <==> HoldsSession(sessions, name) {}
  }

  lemma SnapshotNewAdmits(s: Snapshot)
    requires |s.windows| > 0 && |s.sessions| > 0
    ensures SnapshotNew(s) == Ok(s) <==> CrossValid(s)
    ensures SnapshotNew(s).Ok? ==> SnapshotNew(s) == Ok(s)
  {
    IdsDistinct(s.windows);
    NamesDistinct(s.sessions);
    OrphansAreUnlinked(s.windows, s.sessions);
    StraysAreUnknown(s.clients, s.sessions);
  }
}
