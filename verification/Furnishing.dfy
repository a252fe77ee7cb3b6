/** Running the steps of one window's group: however far it gets the server is
    safe, and the group ends with the window stamped and whole. */
module Furnishing {
  import opened Wrappers
  import opened Snapshots
  import opened Steps
  import opened Planner
  import opened Applying
  import opened Safety
  import T = Tmux

  ghost predicate SafeAfter(w: World, steps: seq<Step>) {
    match Exec(Start(w.start), steps)
    case Ran(m) => Safe(w, m.server)
    case Refused => false
    case Unbound => false
  }

  /** What a step may take: a free index, its own place, or the place of the
      window the plan made for it to replace; clients of the scratch; and no
      session but the scratch, with no client on it. */
  ghost predicate Polite(w: World, m: Machine, step: Step) {
    match step
    case MoveWindow(window, session, to) =>
      T.Slot(session, to) in m.server.links ==>
        window in m.bound.windows && m.server.links[T.Slot(session, to)] == m.bound.windows[window]
    case NewWindow(session, index, _, _, _, _) => T.Slot(session, index) !in m.server.links
    case LinkWindow(_, into, index, replacing) =>
      T.Slot(into, index) in m.server.links ==>
        && replacing.Some? && replacing.value in m.bound.windows
        && m.server.links[T.Slot(into, index)] == m.bound.windows[replacing.value]
        && New(w, m.server, m.bound.windows[replacing.value])
        && m.server.windows[m.bound.windows[replacing.value]].made.NotByPhoenix?
    case SwitchClients(leaving, _) => Some(leaving) == w.scratch
    case KillSession(name) => Some(name) == w.scratch && forall k :: k in m.server.clients ==> m.server.clients[k] != name
    case _ => true
  }

  ghost predicate PoliteAt(w: World, steps: seq<Step>, k: nat)
    requires k < |steps|
  {
    match Exec(Start(w.start), steps[..k])
    case Ran(m) => Polite(w, m, steps[k])
    case Refused => false
    case Unbound => false
  }

  /** `steps` run from the start to `m`, each taking only what it may, and
      every prefix of them runs and leaves the server safe. */
  ghost predicate Runs(w: World, steps: seq<Step>, m: Machine) {
    && Exec(Start(w.start), steps) == Ran(m)
    && (forall k :: 0 <= k <= |steps| ==> SafeAfter(w, steps[..k]))
    && (forall k :: 0 <= k < |steps| ==> PoliteAt(w, steps, k))
  }

  lemma Push(w: World, steps: seq<Step>, m: Machine, step: Step, after: Machine)
    requires Runs(w, steps, m) && Polite(w, m, step) && RunStep(m, step) == Ran(after) && Safe(w, after.server)
    ensures Runs(w, steps + [step], after)
  {
    hide Safe, Polite;
    var longer := steps + [step];
    assert longer[..|longer| - 1] == steps;
    forall k | 0 <= k <= |longer| ensures SafeAfter(w, longer[..k]) {
      if k <= |steps| {
        assert longer[..k] == steps[..k];
      } else {
        assert longer[..k] == longer;
      }
    }
    forall k | 0 <= k < |longer| ensures PoliteAt(w, longer, k) {
      assert longer[..k] == steps[..k];
      if k < |steps| {
        assert PoliteAt(w, steps, k);
      } else {
        assert steps[..k] == steps;
      }
    }
  }

  lemma RunsToSafe(w: World, steps: seq<Step>, m: Machine)
    requires Runs(w, steps, m)
    ensures Safe(w, m.server)
  {
    hide Safe;
    assert steps[..|steps|] == steps;
    assert SafeAfter(w, steps[..|steps|]);
  }

  /** `ref` is bound to window `v`, made by this restore and not stamped. */
  ghost predicate Building(w: World, m: Machine, ref: WindowRef, v: Id) {
    && ref in m.bound.windows && m.bound.windows[ref] == v
    && New(w, m.server, v) && m.server.windows[v].made.NotByPhoenix?
  }

  /** `n` is `m` but for the inside of window `v` and for panes newly bound. */
  ghost predicate OnlyInside(m: Machine, n: Machine, v: Id, refs: nat) {
    && v in m.server.windows && v in n.server.windows
    && n.server == T.PutWindow(m.server, v, n.server.windows[v]).(home := n.server.home, nextPane := n.server.nextPane)
    && m.server.nextPane <= n.server.nextPane
    && n.bound.windows == m.bound.windows
    && (forall k :: k in m.bound.panes ==> k in n.bound.panes && n.bound.panes[k] == m.bound.panes[k])
    && (forall k :: k in n.bound.panes ==> k in m.bound.panes || k < refs)
  }

  /** The window has the first `n` saved panes, each bound and at home, and the
      first `k` have had everything typed into them. */
  ghost predicate Furnished(m: Machine, v: Id, saved: Window, first: PaneRef, refs: nat, n: nat, k: nat) {
    && v in m.server.windows && n <= |saved.panes|
    && var win := m.server.windows[v];
    && win.name == Some(saved.name)
    && |win.panes| == n
    && (forall i :: 0 <= i < n ==>
          && PaneOf(first, refs, i) in m.bound.panes
          && m.bound.panes[PaneOf(first, refs, i)] == win.panes[i].id
          && win.panes[i].id in m.server.home && m.server.home[win.panes[i].id] == v)
    && (forall i :: 0 <= i < n ==>
          && win.panes[i].cwd == KnownCwd(saved.panes[i].cwd)
          && win.panes[i].typed == (if i < k then Expected(saved.panes[i], saved.layout) else []))
    && (forall i, j :: 0 <= i < j < n ==> win.panes[i].id != win.panes[j].id)
    && (forall i :: 0 <= i < n ==> win.panes[i].id < m.server.nextPane)
  }

  lemma InsideChains(m: Machine, n: Machine, o: Machine, v: Id, a: nat, b: nat)
    requires OnlyInside(m, n, v, a) && OnlyInside(n, o, v, b) && a <= b
    ensures OnlyInside(m, o, v, b)
  {}

  lemma LayoutKeepsFurnished(m: Machine, n: Machine, v: Id, saved: Window, first: PaneRef, refs: nat, k: nat, typed: nat, layout: Option<Text>)
    requires Furnished(m, v, saved, first, refs, k, typed)
    requires n == m.(server := T.PutWindow(m.server, v, m.server.windows[v].(layout := layout)))
    ensures Furnished(n, v, saved, first, refs, k, typed)
  {}

  ghost predicate RoomIn(m: Machine, v: Id) { v in m.server.windows && T.HasRoom(m.server.windows[v]) }

  lemma OnePaneHasRoom(m: Machine, v: Id, saved: Window, first: PaneRef, refs: nat)
    requires Furnished(m, v, saved, first, refs, 1, 0)
    ensures RoomIn(m, v)
  {}

  lemma SplitRuns(w: World, steps: seq<Step>, m: Machine, window: WindowRef, v: Id,
                  saved: Window, first: PaneRef, refs: nat, n: nat) returns (after: Machine)
    requires Runs(w, steps, m) && Building(w, m, window, v)
    requires 1 < n <= |saved.panes| && first < refs && Furnished(m, v, saved, first, refs, n - 1, 0)
    requires RoomIn(m, v)
    requires forall k :: k in m.bound.panes ==> k < refs + n - 2
    ensures Runs(w, steps + [SplitPane(PaneOf(first, refs, n - 2), KnownCwd(saved.panes[n - 1].cwd), PaneOf(first, refs, n - 1))], after)
    ensures Building(w, after, window, v) && OnlyInside(m, after, v, refs + n - 1)
    ensures Furnished(after, v, saved, first, refs, n, 0)
  {
    hide Safe, Runs, RunStep, Exec, Furnished, PaneOf;
    after := SplitStep(m, v, saved, first, refs, n);
    RunsToSafe(w, steps, m);
    EditKeeps(w, m.server, v, after.server.windows[v], after.server);
    Push(w, steps, m, SplitPane(PaneOf(first, refs, n - 2), KnownCwd(saved.panes[n - 1].cwd), PaneOf(first, refs, n - 1)), after);
  }

  /** A split of the last pane adds the next one after it. */
  lemma SplitStep(m: Machine, v: Id, saved: Window, first: PaneRef, refs: nat, n: nat) returns (after: Machine)
    requires 1 < n <= |saved.panes| && first < refs && Furnished(m, v, saved, first, refs, n - 1, 0)
    requires RoomIn(m, v)
    requires forall k :: k in m.bound.panes ==> k < refs + n - 2
    ensures RunStep(m, SplitPane(PaneOf(first, refs, n - 2), KnownCwd(saved.panes[n - 1].cwd), PaneOf(first, refs, n - 1)))
         == Ran(after)
    ensures OnlyInside(m, after, v, refs + n - 1) && after.server.windows[v].made == m.server.windows[v].made
    ensures Furnished(after, v, saved, first, refs, n, 0)
  {
    hide Furnished, T.SplitWindow;
    var ref := PaneOf(first, refs, n - 1);
    LastIsFurnished(m, v, saved, first, refs, n - 1);
    var from := m.bound.panes[PaneOf(first, refs, n - 2)];
    var cwd := KnownCwd(saved.panes[n - 1].cwd);
    SplitIs(m.server, v, from, cwd);
    after := Machine(Split(m.server, v, cwd), m.bound.(panes := m.bound.panes[ref := m.server.nextPane]));
    SplitFurnishes(m, v, saved, first, refs, n, after);
  }

  /** The server once window `v` has one pane more, at its end. */
  function Split(s: Server, v: Id, cwd: Option<Text>): Server
    requires v in s.windows
  {
    var (win, p) := (s.windows[v], s.nextPane);
    T.PutWindow(s, v, win.(panes := win.panes + [T.LivePane(p, cwd, [])], layout := None)).(home := s.home[p := v], nextPane := p + 1)
  }

  lemma LastIsFurnished(m: Machine, v: Id, saved: Window, first: PaneRef, refs: nat, n: nat)
    requires 0 < n && Furnished(m, v, saved, first, refs, n, 0)
    ensures v in m.server.windows && PaneOf(first, refs, n - 1) in m.bound.panes
    ensures var (from, panes) := (m.bound.panes[PaneOf(first, refs, n - 1)], m.server.windows[v].panes);
            && |panes| == n && panes[n - 1].id == from && T.PaneAt(panes, from) == Some(n - 1)
            && from in m.server.home && m.server.home[from] == v
  {}

  lemma SplitIs(s: Server, v: Id, from: Id, cwd: Option<Text>)
    requires v in s.windows && from in s.home && s.home[from] == v && |s.windows[v].panes| > 0
    requires T.PaneAt(s.windows[v].panes, from) == Some(|s.windows[v].panes| - 1) && T.HasRoom(s.windows[v])
    ensures T.SplitWindow(s, from, cwd) == Some((Split(s, v, cwd), s.nextPane))
  {
    var panes := s.windows[v].panes;
    var made := T.LivePane(s.nextPane, cwd, []);
    assert panes[..|panes|] + [made] + panes[|panes|..] == panes + [made];
  }

  lemma SplitFurnishes(m: Machine, v: Id, saved: Window, first: PaneRef, refs: nat, n: nat, after: Machine)
    requires 1 < n <= |saved.panes| && first < refs && Furnished(m, v, saved, first, refs, n - 1, 0)
    requires forall k :: k in m.bound.panes ==> k < refs + n - 2
    requires after == Machine(Split(m.server, v, KnownCwd(saved.panes[n - 1].cwd)),
                              m.bound.(panes := m.bound.panes[PaneOf(first, refs, n - 1) := m.server.nextPane]))
    ensures Furnished(after, v, saved, first, refs, n, 0)
  {
    assert after.server.windows[v].panes[n - 1] == T.LivePane(m.server.nextPane, KnownCwd(saved.panes[n - 1].cwd), []);
    forall i | 0 <= i < n - 1 ensures after.server.windows[v].panes[i] == m.server.windows[v].panes[i] {}
  }

  /** Any edit of the window that keeps its panes. */
  lemma EditRuns(w: World, steps: seq<Step>, m: Machine, step: Step, window: WindowRef, v: Id, win: T.Win, refs: nat)
    returns (after: Machine)
    requires Runs(w, steps, m) && Building(w, m, window, v) && win.made.NotByPhoenix? && !step.SwitchClients?
    requires RunStep(m, step) == Ran(m.(server := T.PutWindow(m.server, v, win)))
    ensures after == m.(server := T.PutWindow(m.server, v, win))
    ensures Runs(w, steps + [step], after) && Building(w, after, window, v) && OnlyInside(m, after, v, refs)
  {
    hide Safe, Runs;
    after := m.(server := T.PutWindow(m.server, v, win));
    RunsToSafe(w, steps, m);
    EditKeeps(w, m.server, v, win, after.server);
    Push(w, steps, m, step, after);
  }

  /** The layout that makes room for the next split. */
  lemma TileRuns(w: World, steps: seq<Step>, m: Machine, window: WindowRef, v: Id,
                 saved: Window, first: PaneRef, refs: nat, n: nat, top: nat) returns (after: Machine)
    requires Runs(w, steps, m) && Building(w, m, window, v) && Furnished(m, v, saved, first, refs, n, 0)
    ensures Runs(w, steps + [SelectLayout(window, TILED)], after)
    ensures Building(w, after, window, v) && OnlyInside(m, after, v, top)
    ensures Furnished(after, v, saved, first, refs, n, 0) && RoomIn(after, v)
  {
    hide Safe, Runs, Furnished, OnlyInside;
    after := EditRuns(w, steps, m, SelectLayout(window, TILED), window, v,
                      m.server.windows[v].(layout := Some(TILED)), top);
    LayoutKeepsFurnished(m, after, v, saved, first, refs, n, 0, Some(TILED));
  }

  lemma InsideNothing(w: World, m: Machine, window: WindowRef, v: Id, refs: nat)
    requires Building(w, m, window, v)
    ensures OnlyInside(m, m, v, refs)
  {
    assert m.server.windows[v := m.server.windows[v]] == m.server.windows;
  }

  lemma StillBelow(m: Machine, n: Machine, v: Id, refs: nat)
    requires OnlyInside(m, n, v, refs) && forall k :: k in m.bound.panes ==> k < refs
    ensures forall k :: k in n.bound.panes ==> k < refs
  {}

  lemma {:induction false} SplitsRun(w: World, steps: seq<Step>, m: Machine, window: WindowRef, v: Id,
                                     saved: Window, first: PaneRef, refs: nat, n: nat) returns (after: Machine)
    requires Runs(w, steps, m) && Building(w, m, window, v)
    requires 1 <= n <= |saved.panes| && first < refs && Furnished(m, v, saved, first, refs, 1, 0)
    requires forall k :: k in m.bound.panes ==> k < refs
    ensures Runs(w, steps + Splits(saved, window, first, refs, n), after)
    ensures Building(w, after, window, v) && OnlyInside(m, after, v, refs + n - 1)
    ensures Furnished(after, v, saved, first, refs, n, 0) && RoomIn(after, v)
    decreases n
  {
    hide Safe, Runs, Building, Furnished, OnlyInside, RoomIn;
    if n == 1 {
      OnePaneHasRoom(m, v, saved, first, refs);
      assert steps + Splits(saved, window, first, refs, n) == steps;
      after := m;
      InsideNothing(w, m, window, v, refs);
    } else {
      hide Splits;
      var before := SplitsRun(w, steps, m, window, v, saved, first, refs, n - 1);
      StillBelow(m, before, v, refs + n - 2);
      var done := steps + Splits(saved, window, first, refs, n - 1);
      var split := SplitRuns(w, done, before, window, v, saved, first, refs, n);
      var step := SplitPane(PaneOf(first, refs, n - 2), KnownCwd(saved.panes[n - 1].cwd), PaneOf(first, refs, n - 1));
      after := TileRuns(w, done + [step], split, window, v, saved, first, refs, n, refs + n - 1);
      InsideChains(m, before, split, v, refs + n - 2, refs + n - 1);
      InsideChains(m, split, after, v, refs + n - 1, refs + n - 1);
      assert done + [step] + [SelectLayout(window, TILED)] == steps + Splits(saved, window, first, refs, n);
    }
  }

  /** `m` with `typed` as all that was typed into pane `k` of window `v`. */
  function WithTyped(m: Machine, v: Id, k: nat, typed: seq<T.Typing>): Machine
    requires v in m.server.windows && k < |m.server.windows[v].panes|
  {
    var win := m.server.windows[v];
    m.(server := T.PutWindow(m.server, v, win.(panes := win.panes[k := win.panes[k].(typed := typed)])))
  }

  lemma TypedAgain(m: Machine, v: Id, k: nat, a: seq<T.Typing>, b: seq<T.Typing>)
    requires v in m.server.windows && k < |m.server.windows[v].panes|
    ensures WithTyped(WithTyped(m, v, k, a), v, k, b) == WithTyped(m, v, k, b)
    ensures WithTyped(m, v, k, m.server.windows[v].panes[k].typed) == m
  {
    var win := m.server.windows[v];
    assert win.panes[k := win.panes[k]] == win.panes;
    assert m.server.windows[v := win] == m.server.windows;
    var once := WithTyped(m, v, k, a).server.windows[v];
    assert once.panes[k := win.panes[k].(typed := b)] == win.panes[k := win.panes[k].(typed := b)];
    var twice := WithTyped(WithTyped(m, v, k, a), v, k, b);
    assert twice.server.windows == WithTyped(m, v, k, b).server.windows;
  }

  /** Window `v` has `n` panes with the saved layout, and pane `k` is bound. */
  ghost predicate Typable(m: Machine, v: Id, ref: PaneRef, k: nat, layout: Text) {
    && v in m.server.windows && k < |m.server.windows[v].panes| && m.server.windows[v].layout == Some(layout)
    && ref in m.bound.panes && m.bound.panes[ref] in m.server.home && m.server.home[m.bound.panes[ref]] == v
    && T.PaneAt(m.server.windows[v].panes, m.bound.panes[ref]) == Some(k)
  }

  lemma TypeRuns(w: World, steps: seq<Step>, m: Machine, step: Step, what: T.Typed, window: WindowRef, v: Id,
                 ref: PaneRef, k: nat, layout: Text, refs: nat) returns (after: Machine)
    requires Runs(w, steps, m) && Building(w, m, window, v) && Typable(m, v, ref, k, layout) && !step.SwitchClients?
    requires RunStep(m, step) == Left(m, T.TypeInto(m.server, m.bound.panes[ref], what))
    ensures Runs(w, steps + [step], after) && Building(w, after, window, v) && OnlyInside(m, after, v, refs)
    ensures after == WithTyped(m, v, k, m.server.windows[v].panes[k].typed + [T.Typing(Some(layout), what)])
    ensures Typable(after, v, ref, k, layout)
  {
    hide Safe, Runs;
    after := WithTyped(m, v, k, m.server.windows[v].panes[k].typed + [T.Typing(Some(layout), what)]);
    var edited := EditRuns(w, steps, m, step, window, v, after.server.windows[v], refs);
    forall i | 0 <= i < |after.server.windows[v].panes|
      ensures after.server.windows[v].panes[i].id == m.server.windows[v].panes[i].id {}
  }

  lemma PaneIsTypable(m: Machine, v: Id, saved: Window, first: PaneRef, refs: nat, n: nat, k: nat)
    requires Furnished(m, v, saved, first, refs, n, k) && k < n && m.server.windows[v].layout == Some(saved.layout)
    ensures Typable(m, v, PaneOf(first, refs, k), k, saved.layout) && m.server.windows[v].panes[k].typed == []
  {}

  lemma PaneIsDone(m: Machine, v: Id, saved: Window, first: PaneRef, refs: nat, n: nat, k: nat)
    requires Furnished(m, v, saved, first, refs, n, k) && k < n
    ensures var after := WithTyped(m, v, k, Expected(saved.panes[k], saved.layout));
            && Furnished(after, v, saved, first, refs, n, k + 1)
            && after.server.windows[v].layout == m.server.windows[v].layout
  {}

  lemma ReplayRuns(w: World, steps: seq<Step>, m: Machine, window: WindowRef, v: Id,
                   ref: PaneRef, k: nat, pane: Pane, layout: Text, refs: nat) returns (after: Machine)
    requires Runs(w, steps, m) && Building(w, m, window, v) && Typable(m, v, ref, k, layout)
    ensures Runs(w, steps + Replay(pane, ref), after)
    ensures Building(w, after, window, v) && OnlyInside(m, after, v, refs) && Typable(after, v, ref, k, layout)
    ensures after == WithTyped(m, v, k, m.server.windows[v].panes[k].typed + Scrolled(pane, layout))
  {
    hide Safe, Runs;
    match pane.content
    case Captured(_, scrollback, _) =>
      after := TypeRuns(w, steps, m, ReplayContent(ref, scrollback), T.Replayed(scrollback), window, v, ref, k, layout, refs);
    case NotCaptured(_) =>
      assert steps + Replay(pane, ref) == steps;
      after := m;
      TypedAgain(m, v, k, [], []);
      assert m.server.windows[v].panes[k].typed + Scrolled(pane, layout) == m.server.windows[v].panes[k].typed;
  }

  lemma LaunchRuns(w: World, steps: seq<Step>, m: Machine, window: WindowRef, v: Id,
                   ref: PaneRef, k: nat, pane: Pane, layout: Text, refs: nat) returns (after: Machine)
    requires Runs(w, steps, m) && Building(w, m, window, v) && Typable(m, v, ref, k, layout)
    ensures Runs(w, steps + Launch(pane, ref), after)
    ensures Building(w, after, window, v) && OnlyInside(m, after, v, refs)
    ensures after == WithTyped(m, v, k, m.server.windows[v].panes[k].typed + Launched(pane, layout))
  {
    hide Safe, Runs;
    if pane.foreground.Program? {
      var argv := pane.foreground.argv;
      after := TypeRuns(w, steps, m, Relaunch(ref, argv), T.Line(RelaunchLine(argv)), window, v, ref, k, layout, refs);
    } else {
      assert steps + Launch(pane, ref) == steps;
      after := m;
      TypedAgain(m, v, k, [], []);
      assert m.server.windows[v].panes[k].typed + Launched(pane, layout) == m.server.windows[v].panes[k].typed;
    }
  }

  /** Everything typed into pane `k`: its scrollback, then its program. */
  lemma PaneRuns(w: World, steps: seq<Step>, m: Machine, window: WindowRef, v: Id,
                 ref: PaneRef, k: nat, pane: Pane, layout: Text, refs: nat) returns (after: Machine)
    requires Runs(w, steps, m) && Building(w, m, window, v) && Typable(m, v, ref, k, layout)
    requires m.server.windows[v].panes[k].typed == []
    ensures Runs(w, steps + Replay(pane, ref) + Launch(pane, ref), after)
    ensures Building(w, after, window, v) && OnlyInside(m, after, v, refs)
    ensures after == WithTyped(m, v, k, Expected(pane, layout))
  {
    hide Safe, Runs, OnlyInside, Building;
    var middle := ReplayRuns(w, steps, m, window, v, ref, k, pane, layout, refs);
    assert m.server.windows[v].panes[k].typed + Scrolled(pane, layout) == Scrolled(pane, layout);
    assert middle.server.windows[v].panes[k].typed == Scrolled(pane, layout);
    after := LaunchRuns(w, steps + Replay(pane, ref), middle, window, v, ref, k, pane, layout, refs);
    TypedAgain(m, v, k, Scrolled(pane, layout), Expected(pane, layout));
    InsideChains(m, middle, after, v, refs, refs);
  }

  /** The window after the first `k` panes' contents, ready for the next. */
  ghost predicate Filling(w: World, m: Machine, window: WindowRef, v: Id, saved: Window, first: PaneRef, refs: nat, k: nat) {
    && Building(w, m, window, v)
    && Furnished(m, v, saved, first, refs, |saved.panes|, k)
    && m.server.windows[v].layout == Some(saved.layout)
  }

  lemma ContentRuns(w: World, steps: seq<Step>, m: Machine, window: WindowRef, v: Id,
                    saved: Window, first: PaneRef, refs: nat, k: nat) returns (after: Machine)
    requires Runs(w, steps, m) && k < |saved.panes| && Filling(w, m, window, v, saved, first, refs, k)
    ensures var ref := PaneOf(first, refs, k);
            Runs(w, steps + Replay(saved.panes[k], ref) + Launch(saved.panes[k], ref), after)
    ensures Filling(w, after, window, v, saved, first, refs, k + 1) && OnlyInside(m, after, v, refs)
  {
    hide Safe, Runs, Furnished, OnlyInside, WithTyped, Building, Typable;
    PaneIsTypable(m, v, saved, first, refs, |saved.panes|, k);
    PaneIsDone(m, v, saved, first, refs, |saved.panes|, k);
    after := PaneRuns(w, steps, m, window, v, PaneOf(first, refs, k), k, saved.panes[k], saved.layout, refs);
  }

  lemma InsideSelf(w: World, m: Machine, window: WindowRef, v: Id, saved: Window, first: PaneRef, refs: nat)
    requires Filling(w, m, window, v, saved, first, refs, 0)
    ensures OnlyInside(m, m, v, refs)
  {
    assert m.server.windows[v := m.server.windows[v]] == m.server.windows;
  }

  lemma {:induction false} ContentsRun(w: World, steps: seq<Step>, m: Machine, window: WindowRef, v: Id,
                                       saved: Window, first: PaneRef, refs: nat, n: nat) returns (after: Machine)
    requires Runs(w, steps, m) && n <= |saved.panes| && Filling(w, m, window, v, saved, first, refs, 0)
    ensures Runs(w, steps + Contents(saved, first, refs, n), after)
    ensures Filling(w, after, window, v, saved, first, refs, n) && OnlyInside(m, after, v, refs)
    decreases n
  {
    hide Safe, Runs, Filling, OnlyInside;
    if n == 0 {
      assert steps + Contents(saved, first, refs, n) == steps;
      InsideSelf(w, m, window, v, saved, first, refs);
      after := m;
    } else {
      var before := ContentsRun(w, steps, m, window, v, saved, first, refs, n - 1);
      var done := steps + Contents(saved, first, refs, n - 1);
      var ref := PaneOf(first, refs, n - 1);
      after := ContentRuns(w, done, before, window, v, saved, first, refs, n - 1);
      InsideChains(m, before, after, v, refs, refs);
      assert done + Replay(saved.panes[n - 1], ref) + Launch(saved.panes[n - 1], ref)
          == steps + Contents(saved, first, refs, n);
    }
  }

  /** What a window's group needs before it starts: the window as created, and
      no stamp for the saved one anywhere. */
  ghost predicate Furnishable(w: World, m: Machine, window: WindowRef, v: Id, saved: Window, first: PaneRef, refs: nat) {
    && Building(w, m, window, v) && Furnished(m, v, saved, first, refs, 1, 0)
    && first < refs && (forall k :: k in m.bound.panes ==> k < refs)
    && ValidWindow(saved) && Saved(w.c.snapshot, saved.id) && WindowOf(w.c.snapshot, saved.id) == saved
    && Present(w.c, saved.id).None?
    && forall u :: New(w, m.server, u) ==> m.server.windows[u].made != ByPhoenix(w.c.generation, saved.id)
  }

  lemma ShapeRuns(w: World, steps: seq<Step>, m: Machine, window: WindowRef, v: Id,
                  saved: Window, first: PaneRef, refs: nat) returns (after: Machine)
    requires Runs(w, steps, m) && Furnishable(w, m, window, v, saved, first, refs)
    ensures Runs(w, steps + Splits(saved, window, first, refs, |saved.panes|) + [SelectLayout(window, saved.layout)], after)
    ensures Filling(w, after, window, v, saved, first, refs, 0)
    ensures OnlyInside(m, after, v, refs + |saved.panes| - 1)
  {
    hide Safe, Runs, Furnished, OnlyInside;
    var n := |saved.panes|;
    var split := SplitsRun(w, steps, m, window, v, saved, first, refs, n);
    var done := steps + Splits(saved, window, first, refs, n);
    after := EditRuns(w, done, split, SelectLayout(window, saved.layout), window, v,
                      split.server.windows[v].(layout := Some(saved.layout)), refs + n - 1);
    LayoutKeepsFurnished(split, after, v, saved, first, refs, n, 0, Some(saved.layout));
    InsideChains(m, split, after, v, refs + n - 1, refs + n - 1);
  }

  lemma ActivateRuns(w: World, steps: seq<Step>, m: Machine, window: WindowRef, v: Id,
                     saved: Window, first: PaneRef, refs: nat) returns (after: Machine)
    requires Runs(w, steps, m) && ValidWindow(saved) && Filling(w, m, window, v, saved, first, refs, |saved.panes|)
    ensures Runs(w, steps + [SelectPane(PaneOf(first, refs, ActivePane(saved)))], after)
    ensures Building(w, after, window, v) && Whole(after.server.windows[v], saved)
    ensures OnlyInside(m, after, v, refs)
  {
    hide Safe, Runs, Whole, Furnished;
    var a := ActivePane(saved);
    ActiveIsWhole(m, v, saved, first, refs);
    var p := m.bound.panes[PaneOf(first, refs, a)];
    after := EditRuns(w, steps, m, SelectPane(PaneOf(first, refs, a)), window, v, m.server.windows[v].(active := p), refs);
  }

  lemma ActiveIsWhole(m: Machine, v: Id, saved: Window, first: PaneRef, refs: nat)
    requires ValidWindow(saved) && Furnished(m, v, saved, first, refs, |saved.panes|, |saved.panes|)
    requires m.server.windows[v].layout == Some(saved.layout)
    ensures PaneOf(first, refs, ActivePane(saved)) in m.bound.panes
    ensures var p := m.bound.panes[PaneOf(first, refs, ActivePane(saved))];
            && T.HoldsPane(m.server, p) && m.server.home[p] == v
            && Whole(m.server.windows[v].(active := p), saved)
  {
    var a := ActivePane(saved);
    assert m.server.windows[v].panes[a].id == m.bound.panes[PaneOf(first, refs, a)];
  }

  lemma StampRuns(w: World, steps: seq<Step>, m: Machine, window: WindowRef, v: Id, saved: Window, refs: nat)
    returns (after: Machine)
    requires Runs(w, steps, m) && Building(w, m, window, v) && Whole(m.server.windows[v], saved)
    requires Saved(w.c.snapshot, saved.id) && WindowOf(w.c.snapshot, saved.id) == saved && Present(w.c, saved.id).None?
    requires forall u :: New(w, m.server, u) ==> m.server.windows[u].made != ByPhoenix(w.c.generation, saved.id)
    ensures Runs(w, steps + [SetOption(WindowMark(window, w.c.generation, saved.id))], after)
    ensures OnlyInside(m, after, v, refs)
    ensures after.server.windows[v].made == ByPhoenix(w.c.generation, saved.id)
  {
    hide Safe, Runs, Whole, RunStep, Exec, Present, WindowOf;
    var win := m.server.windows[v].(made := ByPhoenix(w.c.generation, saved.id));
    RunsToSafe(w, steps, m);
    StampIsNoPart(m.server.windows[v], win, saved);
    StampKeeps(w, m.server, v, win);
    after := m.(server := T.PutWindow(m.server, v, win));
    StampIsRun(m, window, w.c.generation, saved.id);
    Push(w, steps, m, SetOption(WindowMark(window, w.c.generation, saved.id)), after);
  }

  lemma StampIsNoPart(win: T.Win, stamped: T.Win, saved: Window)
    requires Whole(win, saved) && stamped == win.(made := stamped.made)
    ensures Whole(stamped, saved)
  {
    var a :| 0 <= a < |saved.panes| && saved.panes[a].index == saved.active && win.panes[a].id == win.active;
    assert stamped.panes[a].id == stamped.active;
  }

  lemma StampIsRun(m: Machine, window: WindowRef, g: Generation, id: Id)
    requires window in m.bound.windows
    ensures RunStep(m, SetOption(WindowMark(window, g, id))) == Left(m, T.MarkWindow(m.server, m.bound.windows[window], g, id))
  {}

  lemma InsideKeepsStamps(w: World, m: Machine, n: Machine, v: Id, refs: nat, made: Made)
    requires OnlyInside(m, n, v, refs) && n.server.windows[v].made != made
    requires forall u :: New(w, m.server, u) ==> m.server.windows[u].made != made
    ensures forall u :: New(w, n.server, u) ==> n.server.windows[u].made != made
  {}

  /** A window's whole group. */
  lemma FurnishRuns(w: World, steps: seq<Step>, m: Machine, window: WindowRef, v: Id,
                    saved: Window, first: PaneRef, refs: nat) returns (after: Machine)
    requires Runs(w, steps, m) && Furnishable(w, m, window, v, saved, first, refs)
    ensures Runs(w, steps + FurnishSteps(w.c.generation, saved, window, first, refs), after)
    ensures OnlyInside(m, after, v, refs + |saved.panes| - 1)
    ensures after.server.windows[v].made == ByPhoenix(w.c.generation, saved.id)
  {
    hide Safe, Runs, Furnished, OnlyInside, Whole, Filling, Splits, Contents, FurnishSteps;
    FurnishStepsAre(w.c.generation, saved, window, first, refs);
    var n := |saved.panes|;
    var made := ByPhoenix(w.c.generation, saved.id);
    var shaped := ShapeRuns(w, steps, m, window, v, saved, first, refs);
    var a := steps + Splits(saved, window, first, refs, n) + [SelectLayout(window, saved.layout)];
    var filled := ContentsRun(w, a, shaped, window, v, saved, first, refs, n);
    var b := a + Contents(saved, first, refs, n);
    var active := ActivateRuns(w, b, filled, window, v, saved, first, refs);
    var activate := SelectPane(PaneOf(first, refs, ActivePane(saved)));
    InsideChains(m, shaped, filled, v, refs + n - 1, refs + n - 1) by { Widen(shaped, filled, v, refs, refs + n - 1); }
    InsideChains(m, filled, active, v, refs + n - 1, refs + n - 1) by { Widen(filled, active, v, refs, refs + n - 1); }
    InsideKeepsStamps(w, m, active, v, refs + n - 1, made);
    after := StampRuns(w, b + [activate], active, window, v, saved, refs + n - 1);
    InsideChains(m, active, after, v, refs + n - 1, refs + n - 1);
    assert b + [activate] + [SetOption(WindowMark(window, w.c.generation, saved.id))]
        == steps + FurnishSteps(w.c.generation, saved, window, first, refs);
  }

  lemma FurnishStepsAre(generation: Generation, saved: Window, window: WindowRef, first: PaneRef, refs: nat)
    requires ValidWindow(saved)
    ensures FurnishSteps(generation, saved, window, first, refs)
         == Splits(saved, window, first, refs, |saved.panes|) + [SelectLayout(window, saved.layout)]
            + Contents(saved, first, refs, |saved.panes|)
            + [SelectPane(PaneOf(first, refs, ActivePane(saved)))]
            + [SetOption(WindowMark(window, generation, saved.id))]
  {
    hide Splits, Contents;
  }

  lemma Widen(m: Machine, n: Machine, v: Id, a: nat, b: nat)
    requires OnlyInside(m, n, v, a) && a <= b
    ensures OnlyInside(m, n, v, b)
  {}
}
