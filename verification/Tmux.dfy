/** The tmux server a restore acts on, as far as phoenix-restore and
    tmux-control/src/commands say how it behaves. Each command answers with the
    server it leaves, or refuses and changes nothing. */
module Tmux {
  import opened Wrappers
  import opened Snapshots

  datatype Typed = Replayed(lines: seq<Text>) | Line(line: Text)

  /** What was typed into a pane, and the layout it was typed under: `None`
      while a split has left the geometry unspoken for. */
  datatype Typing = Typing(under: Option<Text>, what: Typed)

  datatype LivePane = LivePane(id: Id, cwd: Option<Text>, typed: seq<Typing>)
  datatype Win = Win(made: Made, name: Option<Text>, layout: Option<Text>, panes: seq<LivePane>, active: Id)

  /** A place a window can be linked at. */
  datatype Slot = Slot(session: Text, index: Index)

  datatype Server = Server(
    origin: Origin,
    baseIndex: Index,                 // where `new-session` puts its window
    mark: Touched,                    // `@phoenix-generation`
    sessions: set<Text>,
    links: map<Slot, Id>,             // the window linked at each place
    shown: map<Text, Index>,          // the index each session shows
    restored: map<Text, Generation>,  // `@phoenix-restored`
    windows: map<Id, Win>,
    home: map<Id, Id>,                // the window each pane was made in
    clients: map<Text, Text>,         // the session each client is on
    nextWindow: Id,                   // ids are never reused
    nextPane: Id)

  datatype Created = Created(server: Server, window: Id, pane: Id)

  predicate LinkedIn(links: map<Slot, Id>, v: Id) {
    exists at :: at in links && links[at] == v
  }

  /** A window with no link left is destroyed. */
  function Reap(links: map<Slot, Id>, windows: map<Id, Win>): map<Id, Win> {
    map v | v in windows && LinkedIn(links, v) :: windows[v]
  }

  /** `new-session -d -s name`: one window holding one pane, at the base index. */
  function NewSession(s: Server, name: Text, windowName: Option<Text>, cwd: Option<Text>): Option<Created> {
    if name in s.sessions then None
    else
      var v, p := s.nextWindow, s.nextPane;
      var win := Win(NotByPhoenix, windowName, None, [LivePane(p, cwd, [])], p);
      Some(Created(
             s.(sessions := s.sessions + {name},
                links := s.links[Slot(name, s.baseIndex) := v],
                shown := s.shown[name := s.baseIndex],
                windows := s.windows[v := win],
                home := s.home[p := v],
                nextWindow := v + 1, nextPane := p + 1),
             v, p))
  }

  /** `move-window -d`: refused onto an index another window holds; "same
      index" is the answer that it is there already. */
  function MoveWindow(s: Server, v: Id, session: Text, to: Index): Option<Server> {
    var from := set at | at in s.links && at.session == session && s.links[at] == v;
    if from == {} then None
    else if Slot(session, to) in from then Some(s)
    else if Slot(session, to) in s.links then None
    else
      Some(s.(links := (s.links - from)[Slot(session, to) := v],
              shown := if session in s.shown && Slot(session, s.shown[session]) !in from then s.shown
                       else s.shown[session := to]))
  }

  /** `new-window -d`: refused at an occupied index. */
  function NewWindow(s: Server, session: Text, index: Index, name: Text, cwd: Option<Text>): Option<Created> {
    if session !in s.sessions || Slot(session, index) in s.links then None
    else
      var v, p := s.nextWindow, s.nextPane;
      var win := Win(NotByPhoenix, Some(name), None, [LivePane(p, cwd, [])], p);
      Some(Created(
             s.(links := s.links[Slot(session, index) := v],
                windows := s.windows[v := win],
                home := s.home[p := v],
                nextWindow := v + 1, nextPane := p + 1),
             v, p))
  }

  /** `link-window -d`, and with `-k` when `kill`: only `-k` takes an occupied
      index, and the window it lands on loses that link. */
  function LinkWindow(s: Server, v: Id, into: Text, index: Index, kill: bool): Option<Server> {
    var at := Slot(into, index);
    if v !in s.windows || into !in s.sessions then None
    else if at in s.links && (!kill || s.links[at] == v) then None
    else
      var links := s.links[at := v];
      Some(s.(links := links, windows := Reap(links, s.windows)))
  }

  function PaneAt(panes: seq<LivePane>, p: Id): (at: Option<nat>)
    ensures at.Some? ==> at.value < |panes| && panes[at.value].id == p
    ensures at.None? ==> forall i :: 0 <= i < |panes| ==> panes[i].id != p
  {
    Find(panes, (pane: LivePane) => pane.id == p)
  }

  /** The window holding pane `p`, and where in it. */
  predicate HoldsPane(s: Server, p: Id) {
    p in s.home && s.home[p] in s.windows && PaneAt(s.windows[s.home[p]].panes, p).Some?
  }

  function PutWindow(s: Server, v: Id, win: Win): Server {
    s.(windows := s.windows[v := win])
  }

  /** A split halves a pane and is refused when the pane is too small. A window has
      room while it is one pane, or once its panes have been spread; any other is
      taken to have none. */
  predicate HasRoom(win: Win) { |win.panes| <= 1 || win.layout == Some(Ascii("tiled")) }

  /** `split-window -d`: the new pane follows the one it splits. */
  function SplitWindow(s: Server, from: Id, cwd: Option<Text>): Option<(Server, Id)> {
    if !HoldsPane(s, from) || !HasRoom(s.windows[s.home[from]]) then None
    else
      var v, p := s.home[from], s.nextPane;
      var win := s.windows[v];
      var at := PaneAt(win.panes, from).value + 1;
      var panes := win.panes[..at] + [LivePane(p, cwd, [])] + win.panes[at..];
      Some((PutWindow(s, v, win.(panes := panes, layout := None)).(home := s.home[p := v], nextPane := p + 1), p))
  }

  function SelectLayout(s: Server, v: Id, layout: Text): Option<Server> {
    if v !in s.windows then None else Some(PutWindow(s, v, s.windows[v].(layout := Some(layout))))
  }

  function TypeInto(s: Server, p: Id, what: Typed): Option<Server> {
    if !HoldsPane(s, p) then None
    else
      var win := s.windows[s.home[p]];
      var at := PaneAt(win.panes, p).value;
      var pane := win.panes[at];
      var after := pane.(typed := pane.typed + [Typing(win.layout, what)]);
      Some(PutWindow(s, s.home[p], win.(panes := win.panes[at := after])))
  }

  function SelectPane(s: Server, p: Id): Option<Server> {
    if !HoldsPane(s, p) then None else Some(PutWindow(s, s.home[p], s.windows[s.home[p]].(active := p)))
  }

  function SelectWindow(s: Server, session: Text, index: Index): Option<Server> {
    if session !in s.sessions || Slot(session, index) !in s.links then None
    else Some(s.(shown := s.shown[session := index]))
  }

  function MarkServer(s: Server, g: Generation): Option<Server> {
    Some(s.(mark := By(g)))
  }

  function MarkSession(s: Server, session: Text, g: Generation): Option<Server> {
    if session !in s.sessions then None else Some(s.(restored := s.restored[session := g]))
  }

  function MarkWindow(s: Server, v: Id, g: Generation, saved: Id): Option<Server> {
    if v !in s.windows then None else Some(PutWindow(s, v, s.windows[v].(made := ByPhoenix(g, saved))))
  }

  /** Every client `list-clients` reports on `source`, moved to `to`: with none to
      move, nothing asks whether `to` is there. */
  function SwitchClients(s: Server, source: Text, to: Text): Option<Server> {
    if source !in s.sessions || (to !in s.sessions && exists c :: c in s.clients && s.clients[c] == source) then None
    else Some(s.(clients := map c | c in s.clients :: if s.clients[c] == source then to else s.clients[c]))
  }

  /** `kill-session`: its links go, and with them every client on it. */
  function KillSession(s: Server, name: Text): Option<Server> {
    if name !in s.sessions then None
    else
      var links := map at | at in s.links && at.session != name :: s.links[at];
      Some(s.(sessions := s.sessions - {name},
              links := links,
              shown := s.shown - {name},
              restored := s.restored - {name},
              windows := Reap(links, s.windows),
              clients := map c | c in s.clients && s.clients[c] != name :: s.clients[c]))
  }

  // ---- What every reachable server is ----

  /** Every link resolves, every window is linked, and no id in use is yet to
      be given out. */
  ghost predicate WellFormed(s: Server) {
    && s.origin.Recorded?
    && (forall at :: at in s.links ==> at.session in s.sessions && s.links[at] in s.windows)
    && (forall v :: v in s.windows ==> v < s.nextWindow && LinkedIn(s.links, v))
  }

  /** `listed` holds each link of session `n` once. */
  ghost predicate Lists(listed: seq<WinLink>, links: map<Slot, Id>, n: Text) {
    && DistinctIndices(listed)
    && (forall k :: 0 <= k < |listed| ==> Slot(n, listed[k].index) in links && links[Slot(n, listed[k].index)] == listed[k].window)
    && (forall i :: Slot(n, i) in links ==> HasIndex(listed, i))
  }

  /** `live` is a capture of `s`: what the plan reads of it, in any order. */
  ghost predicate Captures(live: Snapshot, s: Server) {
    && live.origin == s.origin
    && live.touched == s.mark
    && DistinctIds(live.windows) && DistinctNames(live.sessions)
    && (forall k :: 0 <= k < |live.windows| ==>
          live.windows[k].id in s.windows && live.windows[k].made == s.windows[live.windows[k].id].made)
    && (forall v :: v in s.windows ==> HoldsWindow(live.windows, v))
    && (forall k :: 0 <= k < |live.sessions| ==>
          live.sessions[k].name in s.sessions && Lists(live.sessions[k].windows, s.links, live.sessions[k].name))
    && (forall n :: n in s.sessions ==> HoldsSession(live.sessions, n))
  }
}
