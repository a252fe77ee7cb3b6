/** phoenix-core/src/snapshot.rs, what its constructors refuse a graph for: the first
    fault in the order they look, named by where it is. */
module Refusing {
  import opened Wrappers
  import opened Snapshots

  /** This value is repeated, and nothing is before its repetition at `b`. */
  ghost predicate RepeatedFirst<T>(items: seq<T>, value: T, b: nat) {
    && b < |items| && items[b] == value && value in items[..b]
    && forall i, j :: 0 <= i < j < b ==> items[i] != items[j]
  }

  lemma {:induction false} DuplicateFromIs<T>(items: seq<T>, i: nat)
    requires i <= |items| && Distinct(items[..i])
    ensures DuplicateFrom(items, i).Some? ==> exists b: nat :: RepeatedFirst(items, DuplicateFrom(items, i).value, b)
    decreases |items| - i
  {
    if i < |items| {
      if items[i] in items[..i] {
        assert RepeatedFirst(items, items[i], i) by {
          forall a, b | 0 <= a < b < i ensures items[a] != items[b] { assert items[..i][a] != items[..i][b]; }
        }
      } else {
        assert items[..i + 1] == items[..i] + [items[i]];
        DuplicateFromIs(items, i + 1);
      }
    }
  }

  lemma DuplicateIs<T>(items: seq<T>)
    ensures Duplicate(items).None? <==> Distinct(items)
    ensures Duplicate(items).Some? ==> exists b: nat :: RepeatedFirst(items, Duplicate(items).value, b)
  {
    DuplicateFromFinds(items, 0);
    DuplicateFromIs(items, 0);
  }

  /** A window refused has two panes at one index, and the first repeated is named; or,
      short of that, none at the index it says is active. */
  lemma WindowRefused(w: Window)
    requires |w.panes| > 0 && WindowNew(w).Err?
    ensures match WindowNew(w).error
            case DuplicatePaneIndex(window, index) =>
              window == w.id && exists b: nat :: RepeatedFirst(PaneIndices(w.panes), index, b)
            case ActivePaneNotFound(window, active) =>
              && window == w.id && active == w.active
              && (forall i, j :: 0 <= i < j < |w.panes| ==> w.panes[i].index != w.panes[j].index)
              && forall i :: 0 <= i < |w.panes| ==> w.panes[i].index != w.active
            case _ => false
  {
    DuplicateIs(PaneIndices(w.panes));
    assert forall i :: 0 <= i < |w.panes| ==> PaneIndices(w.panes)[i] == w.panes[i].index;
  }

  /** A session refused has two links at one index, and the first repeated is named; or
      none at the index it shows; or none at the index it showed before that. */
  lemma SessionRefused(s: Session)
    requires |s.windows| > 0 && SessionNew(s).Err?
    ensures match SessionNew(s).error
            case DuplicateWindowIndex(session, index) =>
              session == s.name && exists b: nat :: RepeatedFirst(LinkIndices(s.windows), index, b)
            case ActiveWindowNotFound(session, active) =>
              session == s.name && active == s.active && DistinctIndices(s.windows) && !HasIndex(s.windows, s.active)
            case LastWindowNotFound(session, last) =>
              && session == s.name && s.last == Some(last)
              && DistinctIndices(s.windows) && HasIndex(s.windows, s.active) && !HasIndex(s.windows, last)
            case _ => false
  {
    DuplicateIs(LinkIndices(s.windows));
    assert forall i :: 0 <= i < |s.windows| ==> LinkIndices(s.windows)[i] == s.windows[i].index;
  }

  /** Link `k` of session `i` is the first, in order, to name no window. */
  ghost predicate DanglesFirst(windows: seq<Window>, sessions: seq<Session>, i: nat, k: nat) {
    && i < |sessions| && k < |sessions[i].windows| && !HoldsWindow(windows, sessions[i].windows[k].window)
    && (forall j :: 0 <= j < k ==> HoldsWindow(windows, sessions[i].windows[j].window))
    && forall h :: 0 <= h < i ==> LinksResolve(windows, sessions[h])
  }

  ghost predicate Names(sessions: seq<Session>, i: nat, k: nat, why: SnapshotError) {
    i < |sessions| && k < |sessions[i].windows| && why == UnlinkedWindowRef(sessions[i].name, sessions[i].windows[k].window)
  }

  lemma {:induction false} DanglingIs(windows: seq<Window>, sessions: seq<Session>) returns (i: nat, k: nat)
    requires Dangling(windows, sessions).Some?
    ensures DanglesFirst(windows, sessions, i, k) && Names(sessions, i, k, Dangling(windows, sessions).value)
    decreases |sessions|
  {
    var s := sessions[0];
    match Find(s.windows, (l: WinLink) => !IsHeld(windows, l.window))
    case Some(at) =>
      i, k := 0, at;
      forall j | 0 <= j <= at ensures IsHeld(windows, s.windows[j].window) <==> HoldsWindow(windows, s.windows[j].window) {}
    case None =>
      i, k := DanglingIs(windows, sessions[1..]);
      FirstResolves(windows, s);
      DanglesLater(windows, sessions, i, k);
      i := i + 1;
  }

  lemma DanglesLater(windows: seq<Window>, sessions: seq<Session>, i: nat, k: nat)
    requires |sessions| > 0 && LinksResolve(windows, sessions[0]) && DanglesFirst(windows, sessions[1..], i, k)
    ensures DanglesFirst(windows, sessions, i + 1, k)
  {
    hide LinksResolve, HoldsWindow;
    assert sessions[1..][i] == sessions[i + 1];
    forall h | 0 <= h < i + 1 ensures LinksResolve(windows, sessions[h]) {
      if h > 0 { assert sessions[1..][h - 1] == sessions[h]; }
    }
  }

  lemma FirstResolves(windows: seq<Window>, s: Session)
    requires Find(s.windows, (l: WinLink) => !IsHeld(windows, l.window)).None?
    ensures LinksResolve(windows, s)
  {
    forall i | 0 <= i < |s.windows| ensures HoldsWindow(windows, s.windows[i].window) {
      assert IsHeld(windows, s.windows[i].window);
    }
  }

  /** A graph refused repeats a window id, then a session's name; or some link, the
      first in order, names no window; or some window is no link's; or some client is
      on no session. Each is looked for only when none before it is found. */
  lemma SnapshotRefused(s: Snapshot)
    requires |s.windows| > 0 && |s.sessions| > 0 && SnapshotNew(s).Err?
    ensures match SnapshotNew(s).error
            case DuplicateWindowId(id) => exists b: nat :: RepeatedFirst(WindowIds(s.windows), id, b)
            case DuplicateSessionName(name) =>
              DistinctIds(s.windows) && exists b: nat :: RepeatedFirst(SessionNames(s.sessions), name, b)
            case UnlinkedWindowRef(session, window) =>
              && DistinctIds(s.windows) && DistinctNames(s.sessions)
              && exists i: nat, k: nat :: DanglesFirst(s.windows, s.sessions, i, k) && Names(s.sessions, i, k, SnapshotNew(s).error)
            case OrphanWindow(id) =>
              && DistinctIds(s.windows) && DistinctNames(s.sessions)
              && (forall i :: 0 <= i < |s.sessions| ==> LinksResolve(s.windows, s.sessions[i]))
              && exists i :: && 0 <= i < |s.windows| && s.windows[i].id == id && !Linked(s.sessions, id)
                             && forall h :: 0 <= h < i ==> Linked(s.sessions, s.windows[h].id)
            case UnknownClientSession(client, session) =>
              && DistinctIds(s.windows) && DistinctNames(s.sessions) && NoOrphans(s)
              && (forall i :: 0 <= i < |s.sessions| ==> LinksResolve(s.windows, s.sessions[i]))
              && exists i :: && 0 <= i < |s.clients| && s.clients[i] == Client(client, session) && !HoldsSession(s.sessions, session)
                             && forall h :: 0 <= h < i ==> HoldsSession(s.sessions, s.clients[h].session)
            case _ => false
  {
    hide Duplicate, Dangling, Linked, HoldsSession, LinksResolve, IsLinked, IsSession;
    DuplicateIs(WindowIds(s.windows));
    DuplicateIs(SessionNames(s.sessions));
    IdsDistinct(s.windows);
    NamesDistinct(s.sessions);
    OrphansAreUnlinked(s.windows, s.sessions);
    if Dangling(s.windows, s.sessions).Some? {
      var i, k := DanglingIs(s.windows, s.sessions);
    } else {
      forall id: Id ensures IsLinked(s.sessions, id) <==> Linked(s.sessions, id) { LinkedIs(s.sessions, id); }
      forall name: Text ensures IsSession(s.sessions, name) <==> HoldsSession(s.sessions, name) { SessionIs(s.sessions, name); }
    }
  }

  lemma LinkedIs(sessions: seq<Session>, id: Id)
    ensures IsLinked(sessions, id) <==> Linked(sessions, id)
  {
    forall i | 0 <= i < |sessions|
      ensures Find(sessions[i].windows, (l: WinLink) => l.window == id).Some? <==> Links(sessions[i], id)
    {}
  }

  lemma SessionIs(sessions: seq<Session>, name: Text)
    ensures IsSession(sessions, name) <==> HoldsSession(sessions, name)
  {}
}
