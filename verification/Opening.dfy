/** Running the two steps that bring a new session about, and the two that end the
    scratch. */
module Opening {
  import opened Wrappers
  import opened Snapshots
  import opened Steps
  import opened Planner
  import opened Applying
  import opened Safety
  import opened Furnishing
  import opened Sessions
  import T = Tmux

  /** `n` is `m` with a session `name` whose one window, `v`, made for it, sits
      at `index` and is bound to `ref`. */
  ghost predicate Opens(w: World, m: Machine, n: Machine, name: Text, index: Index, v: Id, ref: WindowRef) {
    && n.server.sessions == m.server.sessions + {name}
    && n.server.links == m.server.links[T.Slot(name, index) := v]
    && v !in m.server.windows && v in n.server.windows
    && n.server.windows == m.server.windows[v := n.server.windows[v]]
    && Building(w, n, ref, v)
    && Elsewhere(w, m.server, n.server, name)
  }

  ghost predicate Unopened(s: Server, name: Text) {
    name !in s.sessions && forall at: T.Slot :: at.session == name ==> at !in s.links
  }

  lemma OpenStep(w: World, m: Machine, name: Text, title: Option<Text>, cwd: Option<Text>, ref: nat) returns (n: Machine)
    requires Safe(w, m.server) && Unopened(m.server, name) && name !in w.start.sessions
    ensures RunStep(m, CreateSession(name, title, cwd, ref, ref)) == Ran(n)
    ensures Safe(w, n.server)
    ensures Opens(w, m, n, name, m.server.baseIndex, m.server.nextWindow, ref)
    ensures Fresh(m, n, title, cwd, ref)
  {
    hide Safe, Opens, Fresh, T.NewSession;
    NextIsFresh(w, m.server);
    NewSessionKeeps(w, m.server, name, title, cwd);
    var c := T.NewSession(m.server, name, title, cwd).value;
    n := Machine(c.server, Bound(m.bound.windows[ref := c.window], m.bound.panes[ref := c.pane]));
    MadeOpens(w, m, name, title, cwd, ref, c);
  }

  lemma MadeOpens(w: World, m: Machine, name: Text, title: Option<Text>, cwd: Option<Text>, ref: nat, c: T.Created)
    requires m.server.nextWindow !in m.server.windows && w.start.nextWindow <= m.server.nextWindow
    requires Unopened(m.server, name) && T.NewSession(m.server, name, title, cwd) == Some(c)
    ensures var n := Machine(c.server, Bound(m.bound.windows[ref := c.window], m.bound.panes[ref := c.pane]));
            Opens(w, m, n, name, m.server.baseIndex, m.server.nextWindow, ref) && Fresh(m, n, title, cwd, ref)
  {}

  lemma MovedLinks(w: World, m: Machine, n: Machine, name: Text, base: Index, v: Id, ref: nat, to: Index, links: map<T.Slot, Id>)
    requires Opens(w, m, n, name, base, v, ref) && Unopened(m.server, name)
    requires links == (n.server.links - {T.Slot(name, base)})[T.Slot(name, to) := v]
    ensures links == m.server.links[T.Slot(name, to) := v]
    ensures OnlyLink(n.server, T.Slot(name, base))
  {}

  lemma MoveStep(w: World, m: Machine, n: Machine, name: Text, base: Index, v: Id, ref: nat, to: Index) returns (o: Machine)
    requires Safe(w, n.server) && Unopened(m.server, name) && name !in w.start.sessions && T.WellFormed(w.start)
    requires Opens(w, m, n, name, base, v, ref)
    ensures RunStep(n, MoveWindow(ref, name, to)) == Ran(o)
    ensures Safe(w, o.server) && Opens(w, m, o, name, to, v, ref)
    ensures o.bound == n.bound
    ensures o.server == n.server.(links := o.server.links, shown := o.server.shown)
  {
    hide Safe, T.WellFormed, Opens, Unopened, T.MoveWindow, OnlyLink, RunStep;
    var from := T.Slot(name, base);
    OpensBuilds(w, m, n, name, base, v, ref);
    MovedLinks(w, m, n, name, base, v, ref, to, (n.server.links - {from})[T.Slot(name, to) := v]);
    MoveIsExact(n.server, from, to);
    MoveKeeps(w, n.server, from, to);
    o := n.(server := T.MoveWindow(n.server, v, name, to).value);
    MoveIsRun(n, ref, name, to);
    MovedOpens(w, m, n, o, name, base, v, ref, to);
  }

  lemma MoveIsRun(n: Machine, ref: WindowRef, name: Text, to: Index)
    requires ref in n.bound.windows
    ensures RunStep(n, MoveWindow(ref, name, to)) == Left(n, T.MoveWindow(n.server, n.bound.windows[ref], name, to))
  {}

  lemma OpensBuilds(w: World, m: Machine, n: Machine, name: Text, base: Index, v: Id, ref: WindowRef)
    requires Opens(w, m, n, name, base, v, ref)
    ensures ref in n.bound.windows && n.bound.windows[ref] == v
    ensures T.Slot(name, base) in n.server.links && n.server.links[T.Slot(name, base)] == v
  {}

  lemma MovedOpens(w: World, m: Machine, n: Machine, o: Machine, name: Text, base: Index, v: Id, ref: WindowRef, to: Index)
    requires Opens(w, m, n, name, base, v, ref) && o.bound == n.bound
    requires o.server == n.server.(links := m.server.links[T.Slot(name, to) := v], shown := o.server.shown)
    requires forall k :: k in n.server.shown && k != name ==> k in o.server.shown && o.server.shown[k] == n.server.shown[k]
    ensures Opens(w, m, o, name, to, v, ref)
  {}

  lemma OpenedBooks(w: World, d: Draft, m: Machine, e: Draft, n: Machine, name: Text, index: Index, v: Id)
    requires Bookkeeping(w, d, m) && Opens(w, m, n, name, index, v, d.refs) && Some(name) != w.scratch
    requires n.bound.windows == m.bound.windows[d.refs := v] && n.bound.panes.Keys <= m.bound.panes.Keys + {d.refs}
    requires e == d.(steps := e.steps, refs := d.refs + 1)
    ensures Bookkeeping(w, e, n)
  {
    BooksGrow(w, d, m, e, n, v);
  }

  lemma OpenedIsPolite(w: World, m: Machine, n: Machine, name: Text, index: Index, v: Id, ref: WindowRef, to: Index)
    requires Unopened(m.server, name) && Opens(w, m, n, name, index, v, ref)
    ensures Polite(w, n, MoveWindow(ref, name, to))
  {}

  /** Both steps, for whichever window the session is made with. */
  lemma OpenRuns(w: World, d: Draft, m: Machine, name: Text, title: Option<Text>, cwd: Option<Text>, to: Index)
    returns (n: Machine)
    requires Follows(w, d, m) && T.WellFormed(w.start) && name !in w.start.sessions && Unopened(m.server, name)
    requires Some(name) != w.scratch
    ensures var e := d.(steps := d.steps + [CreateSession(name, title, cwd, d.refs, d.refs), MoveWindow(d.refs, name, to)],
                        refs := d.refs + 1);
            Follows(w, e, n)
    ensures Opens(w, m, n, name, to, m.server.nextWindow, d.refs)
    ensures Fresh(m, n, title, cwd, d.refs)
  {
    hide Safe, Runs, Bookkeeping, Opens, Unopened, RunStep, T.WellFormed, Exec, Fresh;
    RunsToSafe(w, d.steps, m);
    var v := m.server.nextWindow;
    var made := OpenStep(w, m, name, title, cwd, d.refs);
    Push(w, d.steps, m, CreateSession(name, title, cwd, d.refs, d.refs), made);
    n := MoveStep(w, m, made, name, m.server.baseIndex, v, d.refs, to);
    var steps := d.steps + [CreateSession(name, title, cwd, d.refs, d.refs)];
    OpenedIsPolite(w, m, made, name, m.server.baseIndex, v, d.refs, to);
    Push(w, steps, made, MoveWindow(d.refs, name, to), n);
    assert steps + [MoveWindow(d.refs, name, to)]
        == d.steps + [CreateSession(name, title, cwd, d.refs, d.refs), MoveWindow(d.refs, name, to)];
    FreshMoved(m, made, n, title, cwd, d.refs);
    OpenedBooks(w, d, m, d.(steps := d.steps + [CreateSession(name, title, cwd, d.refs, d.refs), MoveWindow(d.refs, name, to)],
                            refs := d.refs + 1), n, name, to, v);
  }

  /** The new window is as `new-session` leaves one, its pane bound to `ref`. */
  ghost predicate Fresh(m: Machine, n: Machine, title: Option<Text>, cwd: Option<Text>, ref: nat) {
    var v, p := m.server.nextWindow, m.server.nextPane;
    && v in n.server.windows
    && n.server.windows[v] == T.Win(NotByPhoenix, title, None, [T.LivePane(p, cwd, [])], p)
    && n.server.home == m.server.home[p := v] && n.server.nextPane == p + 1
    && n.bound.windows == m.bound.windows[ref := v] && n.bound.panes == m.bound.panes[ref := p]
  }

  lemma FreshMoved(m: Machine, n: Machine, o: Machine, title: Option<Text>, cwd: Option<Text>, ref: nat)
    requires Fresh(m, n, title, cwd, ref) && o.bound == n.bound
    requires o.server == n.server.(links := o.server.links, shown := o.server.shown)
    ensures Fresh(m, o, title, cwd, ref)
  {}

  // ---- Removing the scratch ----

  /** What the scratch's removal leaves: everything linked elsewhere. */
  ghost predicate Closes(m: Machine, n: Machine, scratch: Text) {
    && n.bound == m.bound && n.server.home == m.server.home && n.server.nextPane == m.server.nextPane
    && n.server.sessions == m.server.sessions - {scratch}
    && (forall at :: at in n.server.links <==> at in m.server.links && at.session != scratch)
    && (forall at :: at in n.server.links ==> n.server.links[at] == m.server.links[at])
    && (forall v :: v in n.server.windows ==> v in m.server.windows && n.server.windows[v] == m.server.windows[v])
    && (forall at :: at in n.server.links && n.server.links[at] in m.server.windows ==> n.server.links[at] in n.server.windows)
  }

  lemma KilledCloses(m: Machine, t: Server, scratch: Text)
    requires T.KillSession(m.server, scratch) == Some(t)
    ensures Closes(m, m.(server := t), scratch)
  {
    forall at | at in t.links ensures T.LinkedIn(t.links, t.links[at]) {}
  }

  lemma KilledElsewhere(w: World, s: Server, t: Server, scratch: Text, name: Text)
    requires w.scratch == Some(scratch) && T.KillSession(s, scratch) == Some(t)
    ensures Elsewhere(w, s, t, name)
  {}

  lemma SwitchStep(w: World, m: Machine, scratch: Text, to: Text) returns (n: Machine)
    requires Safe(w, m.server) && w.scratch == Some(scratch) && scratch in m.server.sessions && to in m.server.sessions
    requires to != scratch
    ensures RunStep(m, SwitchClients(scratch, to)) == Ran(n) && Safe(w, n.server)
    ensures n == m.(server := m.server.(clients := n.server.clients))
    ensures forall k :: k in n.server.clients ==> n.server.clients[k] != scratch
  {
    var t := T.SwitchClients(m.server, scratch, to).value;
    n := m.(server := t);
    hide Safe;
    assert t == m.server.(shown := t.shown, restored := t.restored, clients := t.clients);
    FieldsKeep(w, m.server, t);
  }

  lemma ClosedBooks(w: World, d: Draft, m: Machine, n: Machine, e: Draft)
    requires Bookkeeping(w, d, m) && d.scratch.Some? && Closes(m, n, d.scratch.value)
    requires e == d.(steps := e.steps, scratch := None)
    ensures Bookkeeping(w, e, n)
  {}

  lemma KillStep(w: World, m: Machine, scratch: Text) returns (n: Machine)
    requires Safe(w, m.server) && w.scratch == Some(scratch) && scratch in m.server.sessions
    requires forall k :: k in m.server.clients ==> m.server.clients[k] != scratch
    ensures RunStep(m, KillSession(scratch)) == Ran(n) && Safe(w, n.server)
    ensures Closes(m, n, scratch) && forall name :: Elsewhere(w, m.server, n.server, name)
  {
    hide Safe, Closes, Elsewhere;
    var t := T.KillSession(m.server, scratch).value;
    n := m.(server := t);
    KilledCloses(m, t, scratch);
    KillScratchKeeps(w, m.server, scratch, t);
    forall name ensures Elsewhere(w, m.server, n.server, name) { KilledElsewhere(w, m.server, t, scratch, name); }
  }

  ghost predicate MaybeCloses(d: Draft, m: Machine, n: Machine) {
    match d.scratch case None => n == m case Some(scratch) => Closes(m, n, scratch)
  }

  lemma ClientsAreNotClosed(m: Machine, n: Machine, o: Machine, scratch: Text)
    requires n == m.(server := m.server.(clients := n.server.clients)) && Closes(n, o, scratch)
    ensures Closes(m, o, scratch)
  {}

  lemma ClientsAreNotElsewhere(w: World, m: Machine, n: Machine, o: Machine, name: Text)
    requires n == m.(server := m.server.(clients := n.server.clients)) && Elsewhere(w, n.server, o.server, name)
    ensures Elsewhere(w, m.server, o.server, name)
  {}

  lemma ScratchIsKnown(w: World, d: Draft, m: Machine)
    requires Bookkeeping(w, d, m) && d.scratch.Some?
    ensures w.scratch == d.scratch && d.scratch.value in m.server.sessions
  {}

  lemma ElsewhereSame(w: World, s: Server, name: Text)
    ensures Elsewhere(w, s, s, name)
  {}

  lemma CloseRuns(w: World, d: Draft, m: Machine, to: Text) returns (n: Machine)
    requires Follows(w, d, m) && to in m.server.sessions && Some(to) != w.scratch
    ensures Follows(w, CloseScratch(d, to), n)
    ensures MaybeCloses(d, m, n) && forall name :: Elsewhere(w, m.server, n.server, name)
  {
    hide Safe, Runs, Bookkeeping, Closes, Elsewhere, RunStep, Exec;
    match d.scratch
    case None =>
      n := m;
      forall name { ElsewhereSame(w, m.server, name); }
    case Some(scratch) =>
      RunsToSafe(w, d.steps, m);
      ScratchIsKnown(w, d, m);
      var switched := SwitchStep(w, m, scratch, to);
      Push(w, d.steps, m, SwitchClients(scratch, to), switched);
      n := KillStep(w, switched, scratch);
      var steps := d.steps + [SwitchClients(scratch, to)];
      Push(w, steps, switched, KillSession(scratch), n);
      assert steps + [KillSession(scratch)] == d.steps + [SwitchClients(scratch, to), KillSession(scratch)];
      ClientsAreNotClosed(m, switched, n, scratch);
      ClosedBooks(w, d, m, n, CloseScratch(d, to));
      forall name ensures Elsewhere(w, m.server, n.server, name) { ClientsAreNotElsewhere(w, m, switched, n, name); }
  }
}
