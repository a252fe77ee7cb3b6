/** What holds after every step of a restore, and that each kind of step keeps
    it: nothing live is lost, and a stamp means a whole window. */
module Safety {
  import opened Wrappers
  import opened Snapshots
  import opened Steps
  import opened Planner
  import T = Tmux

  type Server = T.Server
  type Win = T.Win

  /** A restore under way: what its plan is drawn from, the server it began on, and
      its connection's own session, if it needed one. */
  datatype World = World(c: Context, start: Server, scratch: Option<Text>)

  // ---- Which live window is which saved window ----

  ghost predicate Saved(snapshot: Snapshot, id: Id) {
    HoldsWindow(snapshot.windows, id)
  }

  /** Live window `v` is saved window `id`, on either ground the plan admits. */
  ghost predicate Answers(g: Generation, snapshot: Snapshot, s: Server, v: Id, id: Id) {
    v in s.windows && (s.windows[v].made == ByPhoenix(g, id) || (snapshot.origin.Recorded? && snapshot.origin == s.origin && v == id))
  }

  ghost predicate Unambiguous(g: Generation, snapshot: Snapshot, s: Server) {
    && (forall u, v, id :: Saved(snapshot, id) && Answers(g, snapshot, s, u, id) && Answers(g, snapshot, s, v, id) ==> u == v)
    && (forall v, a, b :: Saved(snapshot, a) && Saved(snapshot, b) && Answers(g, snapshot, s, v, a) && Answers(g, snapshot, s, v, b) ==> a == b)
  }

  /** A server a restore of generation `g` can start on. If it is the very one
      the snapshot was taken of, no saved id is still to be given out. */
  ghost predicate Ready(g: Generation, snapshot: Snapshot, s: Server) {
    && T.WellFormed(s)
    && Unambiguous(g, snapshot, s)
    && (snapshot.origin.Recorded? && snapshot.origin == s.origin ==>
          forall k :: 0 <= k < |snapshot.windows| ==> snapshot.windows[k].id < s.nextWindow)
  }

  /** `scratch` is nobody's: no saved session has its name, and no window in it is
      a saved window. */
  ghost predicate OwnScratch(g: Generation, snapshot: Snapshot, s: Server, scratch: Text) {
    && scratch in s.sessions
    && !HoldsSession(snapshot.sessions, scratch)
    && forall at, id :: at in s.links && at.session == scratch && Saved(snapshot, id) ==> !Answers(g, snapshot, s, s.links[at], id)
  }

  ghost predicate WorldOk(w: World) {
    && Coherent(w.c.snapshot)
    && Ready(w.c.generation, w.c.snapshot, w.start)
    && (w.scratch.Some? ==> OwnScratch(w.c.generation, w.c.snapshot, w.start, w.scratch.value))
    && w.c.live.Some? && T.Captures(w.c.live.value, w.start)
  }

  // ---- A window built whole ----

  function Scrolled(pane: Pane, layout: Text): seq<T.Typing> {
    match pane.content
    case Captured(_, scrollback, _) => [T.Typing(Some(layout), T.Replayed(scrollback))]
    case NotCaptured(_) => []
  }

  function Launched(pane: Pane, layout: Text): seq<T.Typing> {
    match pane.foreground
    case Program(argv) => [T.Typing(Some(layout), T.Line(RelaunchLine(argv)))]
    case Shell => []
    case Unrecovered(_) => []
  }

  /** What a restored pane has had typed into it. */
  function Expected(pane: Pane, layout: Text): seq<T.Typing> {
    Scrolled(pane, layout) + Launched(pane, layout)
  }

  /** Every saved pane in saved order, each where it was, its scrollback and
      then its program typed under the saved layout, the saved pane active. */
  ghost predicate Whole(win: Win, saved: Window) {
    && win.name == Some(saved.name)
    && win.layout == Some(saved.layout)
    && |win.panes| == |saved.panes|
    && (forall i :: 0 <= i < |saved.panes| ==>
          && (match saved.panes[i].cwd
              case Known(path) => win.panes[i].cwd == Some(path)
              case Unreadable => win.panes[i].cwd == None)
          && win.panes[i].typed == Expected(saved.panes[i], saved.layout))
    && (forall i, j :: 0 <= i < j < |win.panes| ==> win.panes[i].id != win.panes[j].id)
    && exists a :: 0 <= a < |saved.panes| && saved.panes[a].index == saved.active && win.panes[a].id == win.active
  }

  // ---- What every reachable state keeps ----

  /** Windows from before the restore are there exactly as they were. */
  ghost predicate OldUntouched(start: Server, s: Server) {
    forall v :: v in s.windows && v < start.nextWindow ==> v in start.windows && s.windows[v] == start.windows[v]
  }

  /** Every session but the scratch holds each of its links, shows what it
      showed, and no client is detached. */
  ghost predicate NothingLost(w: World, s: Server) {
    && (forall n :: n in w.start.sessions && Some(n) != w.scratch ==> n in s.sessions)
    && (forall at :: at in w.start.links && Some(at.session) != w.scratch ==> at in s.links && s.links[at] == w.start.links[at])
    && (forall n :: n in w.start.sessions && Some(n) != w.scratch && n in w.start.shown ==>
          n in s.shown && s.shown[n] == w.start.shown[n])
    && (forall k :: k in w.start.clients ==> k in s.clients)
    && (forall k :: k in w.start.clients && Some(w.start.clients[k]) != w.scratch ==> s.clients[k] == w.start.clients[k])
  }

  /** A window this restore made. */
  predicate New(w: World, s: Server, v: Id) {
    v in s.windows && w.start.nextWindow <= v
  }

  ghost predicate IsWhole(w: World, win: Win) {
    && win.made.ByPhoenix? && win.made.generation == w.c.generation
    && Saved(w.c.snapshot, win.made.saved)
    && Present(w.c, win.made.saved).None?
    && Whole(win, WindowOf(w.c.snapshot, win.made.saved))
  }

  /** A stamp this restore set names a saved window that was absent, and is on
      a window whole as that one; no two carry the same one. */
  ghost predicate StampsWhole(w: World, s: Server) {
    && (forall v :: New(w, s, v) && s.windows[v].made.ByPhoenix? ==> IsWhole(w, s.windows[v]))
    && (forall u, v :: New(w, s, u) && New(w, s, v) && s.windows[u].made.ByPhoenix? && s.windows[u].made == s.windows[v].made ==> u == v)
  }

  ghost predicate Safe(w: World, s: Server) {
    && T.WellFormed(s)
    && s.origin == w.start.origin && s.mark == w.start.mark && w.start.nextWindow <= s.nextWindow
    && OldUntouched(w.start, s)
    && NothingLost(w, s)
    && StampsWhole(w, s)
  }

  lemma StartIsSafe(w: World)
    requires WorldOk(w)
    ensures Safe(w, w.start)
  {}

  // ---- Each part of it, over a change from `s` to `t` ----

  /** What loses nothing: every session of the start but the scratch keeps its
      links and what it shows, and no client is detached. */
  ghost predicate Continues(w: World, s: Server, t: Server) {
    && (forall n :: n in w.start.sessions && Some(n) != w.scratch && n in s.sessions ==> n in t.sessions)
    && (forall at :: at in w.start.links && Some(at.session) != w.scratch && at in s.links ==> at in t.links && t.links[at] == s.links[at])
    && (forall n :: n in w.start.sessions && Some(n) != w.scratch && n in s.shown ==> n in t.shown && t.shown[n] == s.shown[n])
    && (forall k :: k in s.clients ==> k in t.clients && (Some(s.clients[k]) != w.scratch ==> t.clients[k] == s.clients[k]))
  }

  /** What is left to show when a step touches no stamp. */
  ghost predicate Plain(w: World, s: Server, t: Server) {
    && t.origin == s.origin && t.mark == s.mark && s.nextWindow <= t.nextWindow
    && (forall v :: v in t.windows && v < w.start.nextWindow ==> v in s.windows && t.windows[v] == s.windows[v])
    && (forall v :: New(w, t, v) && t.windows[v].made.ByPhoenix? ==> v in s.windows && s.windows[v] == t.windows[v])
  }

  lemma PlainKeeps(w: World, s: Server, t: Server)
    requires Safe(w, s) && T.WellFormed(t) && Continues(w, s, t) && Plain(w, s, t)
    ensures Safe(w, t)
  {
  }

  // ---- Well-formedness, command by command ----

  lemma LinkedStays(a: map<T.Slot, Id>, b: map<T.Slot, Id>, u: Id)
    requires T.LinkedIn(a, u)
    requires forall at :: at in a && a[at] == u ==> at in b && b[at] == u
    ensures T.LinkedIn(b, u)
  {
    var at :| at in a && a[at] == u;
    assert at in b && b[at] == u;
  }

  lemma AddedLink(links: map<T.Slot, Id>, at: T.Slot, v: Id)
    requires at !in links
    ensures forall u :: T.LinkedIn(links, u) || u == v ==> T.LinkedIn(links[at := v], u)
  {
    var after := links[at := v];
    assert at in after && after[at] == v;
    forall u | T.LinkedIn(links, u) ensures T.LinkedIn(after, u) { LinkedStays(links, after, u); }
  }

  lemma LinkIsKnown(s: Server, at: T.Slot)
    requires T.WellFormed(s)
    ensures at in s.links ==> at.session in s.sessions
  {}

  lemma LinkIsWellFormed(s: Server, v: Id, at: T.Slot, t: Server)
    requires T.WellFormed(s) && v in s.windows && at.session in s.sessions && at !in s.links
    requires t == s.(links := s.links[at := v])
    ensures T.WellFormed(t) && T.Reap(t.links, s.windows) == s.windows
  {
    AddedLink(s.links, at, v);
  }

  lemma NewWindowIsWellFormed(s: Server, at: T.Slot, win: Win, t: Server)
    requires T.WellFormed(s) && at !in s.links
    requires t.origin == s.origin && t.sessions == s.sessions + {at.session} && t.links == s.links[at := s.nextWindow]
    requires t.windows == s.windows[s.nextWindow := win] && t.nextWindow == s.nextWindow + 1
    ensures T.WellFormed(t)
  {
    AddedLink(s.links, at, s.nextWindow);
  }

  /** Slot `from` alone becomes slot `to` of the same session. */
  lemma MoveIsWellFormed(s: Server, from: T.Slot, to: T.Slot, t: Server)
    requires T.WellFormed(s) && from in s.links && from.session == to.session && (to == from || to !in s.links)
    requires t == s.(links := (s.links - {from})[to := s.links[from]], shown := t.shown)
    ensures T.WellFormed(t)
  {
    assert to in t.links;
    forall u | u in t.windows ensures T.LinkedIn(t.links, u) {
      if u != s.links[from] { LinkedStays(s.links, t.links, u); }
    }
  }

  lemma ReplaceIsWellFormed(s: Server, v: Id, at: T.Slot, t: Server)
    requires T.WellFormed(s) && v in s.windows && at in s.links && s.links[at] != v
    requires forall a :: a in s.links && s.links[a] == s.links[at] ==> a == at
    requires t == s.(links := s.links[at := v], windows := s.windows - {s.links[at]})
    ensures T.WellFormed(t) && T.Reap(t.links, s.windows) == t.windows
  {
    hide T.LinkedIn;
    forall u | u in s.windows ensures T.LinkedIn(t.links, u) <==> u != s.links[at] {
      ReplacedIsLinked(s.links, v, at, u);
    }
    assert forall u :: u in t.windows <==> u in s.windows && u != s.links[at];
  }

  lemma ReplacedIsLinked(links: map<T.Slot, Id>, v: Id, at: T.Slot, u: Id)
    requires at in links && links[at] != v && T.LinkedIn(links, u)
    requires forall a :: a in links && links[a] == links[at] ==> a == at
    ensures T.LinkedIn(links[at := v], u) <==> u != links[at]
  {
    var after := links[at := v];
    assert after[at] == v;
    if u != v && u != links[at] { LinkedStays(links, after, u); }
  }

  lemma KillIsWellFormed(s: Server, name: Text, t: Server)
    requires T.WellFormed(s) && T.KillSession(s, name) == Some(t)
    ensures T.WellFormed(t)
  {
    forall at | at in t.links ensures t.links[at] in t.windows {
      assert T.LinkedIn(t.links, t.links[at]);
    }
  }

  // ---- Each kind of change keeps it ----

  /** A change inside one window this restore made and has not stamped. */
  lemma EditKeeps(w: World, s: Server, v: Id, win: Win, t: Server)
    requires Safe(w, s) && New(w, s, v)
    requires s.windows[v].made.NotByPhoenix? && win.made.NotByPhoenix?
    requires t == T.PutWindow(s, v, win).(home := t.home, nextPane := t.nextPane)
    ensures Safe(w, t)
  {
    hide StampsWhole;
    PlainKeeps(w, s, t);
  }

  lemma StampKeeps(w: World, s: Server, v: Id, win: Win)
    requires Safe(w, s) && New(w, s, v)
    requires s.windows[v].made.NotByPhoenix? && IsWhole(w, win)
    requires forall u :: New(w, s, u) ==> s.windows[u].made != win.made
    ensures Safe(w, T.PutWindow(s, v, win))
  {
    hide StampsWhole, IsWhole;
    StampsGrow(w, s, v, win);
  }

  lemma StampsGrow(w: World, s: Server, v: Id, win: Win)
    requires StampsWhole(w, s) && New(w, s, v) && IsWhole(w, win)
    requires forall u :: New(w, s, u) ==> s.windows[u].made != win.made
    ensures StampsWhole(w, T.PutWindow(s, v, win))
  {
    hide IsWhole;
    assert win.made.ByPhoenix? by { WholeIsStamped(w, win); }
  }

  lemma WholeIsStamped(w: World, win: Win)
    requires IsWhole(w, win)
    ensures win.made.ByPhoenix?
  {}

  /** A change of nothing but session marks, what a session this restore made
      shows, and which session clients of the scratch are on. */
  lemma FieldsKeep(w: World, s: Server, t: Server)
    requires Safe(w, s) && Continues(w, s, t)
    requires t == s.(shown := t.shown, restored := t.restored, clients := t.clients)
    ensures Safe(w, t)
  {
    hide StampsWhole, OldUntouched, NothingLost;
    PlainKeeps(w, s, t);
  }

  lemma LinkKeeps(w: World, s: Server, v: Id, at: T.Slot, kill: bool)
    requires Safe(w, s) && v in s.windows && at.session in s.sessions && at !in s.links
    ensures var t := s.(links := s.links[at := v]);
            T.LinkWindow(s, v, at.session, at.index, kill) == Some(t) && Safe(w, t)
  {
    hide StampsWhole, OldUntouched, NothingLost;
    var t := s.(links := s.links[at := v]);
    LinkIsWellFormed(s, v, at, t);
    PlainKeeps(w, s, t);
  }

  lemma NewWindowKeeps(w: World, s: Server, at: T.Slot, title: Text, cwd: Option<Text>)
    requires Safe(w, s) && at.session in s.sessions && at !in s.links
    ensures T.NewWindow(s, at.session, at.index, title, cwd).Some?
    ensures Safe(w, T.NewWindow(s, at.session, at.index, title, cwd).value.server)
  {
    hide StampsWhole, OldUntouched, NothingLost, T.WellFormed;
    var t := T.NewWindow(s, at.session, at.index, title, cwd).value.server;
    assert t.sessions == s.sessions + {at.session};
    NewWindowIsWellFormed(s, at, t.windows[s.nextWindow], t);
    PlainKeeps(w, s, t);
  }

  lemma NewSessionKeeps(w: World, s: Server, n: Text, title: Option<Text>, cwd: Option<Text>)
    requires Safe(w, s) && n !in s.sessions && n !in w.start.sessions
    ensures T.NewSession(s, n, title, cwd).Some?
    ensures Safe(w, T.NewSession(s, n, title, cwd).value.server)
  {
    hide StampsWhole, OldUntouched, NothingLost, T.WellFormed;
    var t := T.NewSession(s, n, title, cwd).value.server;
    LinkIsKnown(s, T.Slot(n, s.baseIndex));
    NewWindowIsWellFormed(s, T.Slot(n, s.baseIndex), t.windows[s.nextWindow], t);
    PlainKeeps(w, s, t);
  }

  /** `from` is the one link of session `from.session`. */
  ghost predicate OnlyLink(s: Server, from: T.Slot) {
    from in s.links && forall at :: at in s.links && at.session == from.session ==> at == from
  }

  lemma MoveIsExact(s: Server, from: T.Slot, to: Index)
    requires OnlyLink(s, from)
    ensures T.MoveWindow(s, s.links[from], from.session, to).Some?
    ensures var t := T.MoveWindow(s, s.links[from], from.session, to).value;
            && t == s.(links := (s.links - {from})[T.Slot(from.session, to) := s.links[from]], shown := t.shown)
            && (forall k :: k in s.shown && k != from.session ==> k in t.shown && t.shown[k] == s.shown[k])
  {
    var v := s.links[from];
    assert (set at | at in s.links && at.session == from.session && s.links[at] == v) == {from};
    if from.index == to {
      assert (s.links - {from})[from := v] == s.links;
    }
  }

  /** Moving a window that is alone in a session this restore made. */
  lemma MoveKeeps(w: World, s: Server, from: T.Slot, to: Index)
    requires Safe(w, s) && OnlyLink(s, from) && from.session !in w.start.sessions && T.WellFormed(w.start)
    ensures T.MoveWindow(s, s.links[from], from.session, to).Some?
    ensures Safe(w, T.MoveWindow(s, s.links[from], from.session, to).value)
  {
    hide StampsWhole, OldUntouched, NothingLost;
    MoveIsExact(s, from, to);
    var t := T.MoveWindow(s, s.links[from], from.session, to).value;
    MoveIsWellFormed(s, from, T.Slot(from.session, to), t);
    PlainKeeps(w, s, t);
  }

  /** `-k` onto the placeholder, the only link of a window this restore made
      so the session could exist: that window alone goes. */
  lemma ReplaceKeeps(w: World, s: Server, v: Id, at: T.Slot)
    requires Safe(w, s) && v in s.windows && at in s.links && at !in w.start.links && s.links[at] != v
    requires New(w, s, s.links[at]) && s.windows[s.links[at]].made.NotByPhoenix?
    requires forall a :: a in s.links && s.links[a] == s.links[at] ==> a == at
    ensures Replaced(s, v, at).links == s.links[at := v]
    ensures T.LinkWindow(s, v, at.session, at.index, true) == Some(Replaced(s, v, at)) && Safe(w, Replaced(s, v, at))
  {
    hide StampsWhole, OldUntouched, NothingLost, T.WellFormed;
    var t := Replaced(s, v, at);
    LinkIsKnown(s, at);
    ReplaceIsWellFormed(s, v, at, t);
    PlainKeeps(w, s, t);
  }

  function Replaced(s: Server, v: Id, at: T.Slot): Server
    requires at in s.links
  {
    s.(links := s.links[at := v], windows := s.windows - {s.links[at]})
  }

  /** Removing the scratch once no client is on it. */
  lemma KillScratchKeeps(w: World, s: Server, scratch: Text, t: Server)
    requires Safe(w, s) && w.scratch == Some(scratch) && T.KillSession(s, scratch) == Some(t)
    requires forall k :: k in s.clients ==> s.clients[k] != scratch
    ensures Safe(w, t)
  {
    hide StampsWhole, OldUntouched, NothingLost;
    KillIsWellFormed(s, scratch, t);
    PlainKeeps(w, s, t);
  }
}
