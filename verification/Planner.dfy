/** phoenix-restore/src/plan.rs as values: what `plan` computes. The class in
    Drafting.dfy computes the same step by step; the theorems are about this. */
module Planner {
  import opened Wrappers
  import opened Snapshots
  import opened Steps
  import opened Matching

  datatype Onto =
    | OntoServer(live: Snapshot)
    | OntoScratch(scratch: Text, live: Snapshot)
    | OntoNoServer(scratch: Text)
  {
    function Capture(): Option<Snapshot> {
      match this
      case OntoServer(live) => Some(live)
      case OntoScratch(_, live) => Some(live)
      case OntoNoServer(_) => None
    }

    function Scratch(): Option<Text> {
      match this
      case OntoServer(_) => None
      case OntoScratch(scratch, _) => Some(scratch)
      case OntoNoServer(scratch) => Some(scratch)
    }
  }

  datatype Note =
    | SessionPresent(session: Text)
    | WindowPresent(session: Text, index: Index)
    | Relocation(session: Text, saved: Index, landed: Index)
    | NotFromSnapshot(session: Text, index: Index)
    | Unaddressable(name: Text)

  datatype Plan = Plan(steps: seq<Step>, notes: seq<Note>)

  /** What a plan is drawn from. */
  datatype Context = Context(generation: Generation, snapshot: Snapshot, live: Option<Snapshot>)

  datatype Draft = Draft(steps: seq<Step>, notes: seq<Note>, built: map<Id, WindowRef>, refs: nat,
                         scratch: Option<Text>)

  /** A link the server lacks: where it lands, and the saved window it links. */
  datatype Lack = Lack(index: Index, window: Id)

  const COLON: Byte := 58
  const DOLLAR: Byte := 36

  /** `tmux_control::SessionName::parse`: a name a `-t` argument can address. */
  predicate Addressable(name: Text) {
    |name| > 0 && COLON !in name && name[0] != DOLLAR
  }

  /** No restore of this generation has run to its end on this server. */
  predicate Unfinished(c: Context) {
    (match c.live case None => Never case Some(live) => live.touched) != By(c.generation)
  }

  predicate SameServer(saved: Origin, live: Origin) {
    saved.Recorded? && saved == live
  }

  /** Which live window saved window `id` is, if any is. */
  function Present(c: Context, id: Id): (v: Option<Id>) {
    match c.live
    case None => None
    case Some(live) =>
      var stamp := ByPhoenix(c.generation, id);
      var same := SameServer(c.snapshot.origin, live.origin);
      match Find(live.windows, (w: Window) => w.made == stamp || (same && w.id == id))
      case None => None
      case Some(at) => Some(live.windows[at].id)
  }

  /** A saved window is taken for a live one only on one of two grounds, the stamp a
      restore of this generation set, or its own id on the very server incarnation
      that was recorded; and it is absent only when no live window has either. */
  lemma PresentExactly(c: Context, id: Id)
    ensures Present(c, id).Some? ==>
              && c.live.Some?
              && exists k :: 0 <= k < |c.live.value.windows| && c.live.value.windows[k].id == Present(c, id).value
                       && (c.live.value.windows[k].made == ByPhoenix(c.generation, id)
                           || (&& c.snapshot.origin.Recorded? && c.snapshot.origin == c.live.value.origin
                               && c.live.value.windows[k].id == id))
    ensures Present(c, id).None? && c.live.Some? ==>
              forall k :: 0 <= k < |c.live.value.windows| ==>
                && c.live.value.windows[k].made != ByPhoenix(c.generation, id)
                && (c.snapshot.origin.Recorded? && c.snapshot.origin == c.live.value.origin ==> c.live.value.windows[k].id != id)
  {
    if c.live.Some? {
      var windows := c.live.value.windows;
      var same := SameServer(c.snapshot.origin, c.live.value.origin);
      var at := Find(windows, (w: Window) => w.made == ByPhoenix(c.generation, id) || (same && w.id == id));
      if at.Some? {
        assert windows[at.value].id == Present(c, id).value;
      }
    }
  }

  function Existing(c: Context, d: Draft, id: Id): Option<LinkSource> {
    if id in d.built then Some(Built(d.built[id]))
    else match Present(c, id)
         case None => None
         case Some(v) => Some(Live(v))
  }

  /** `Snapshot::window`. */
  function WindowOf(s: Snapshot, id: Id): (w: Window)
    requires HoldsWindow(s.windows, id)
    ensures w in s.windows && w.id == id
  {
    s.windows[Find(s.windows, (w: Window) => w.id == id).value]
  }

  function Wanted(c: Context, saved: Session): (wanted: seq<Want>)
    ensures |wanted| == |saved.windows|
  {
    seq(|saved.windows|, i requires 0 <= i < |saved.windows| =>
      Want(saved.windows[i].index, Present(c, saved.windows[i].window)))
  }

  function LackAt(saved: Session, m: Landed): Lack
    requires m.at < |saved.windows|
  {
    Lack(m.index, saved.windows[m.at].window)
  }

  /** `lacking`: the unanswered links, and the index each is given. */
  function Lacking(c: Context, saved: Session, links: seq<WinLink>): (missing: seq<Lack>) {
    var missing := Missing(Wanted(c, saved), links);
    seq(|missing|, k requires 0 <= k < |missing| =>
      if missing[k].at < |saved.windows| then LackAt(saved, missing[k]) else Lack(0, 0))
  }

  function PresentNotes(name: Text, saved: Session, linked: seq<bool>, n: nat): seq<Note>
    requires n <= |saved.windows| == |linked|
  {
    if n == 0 then []
    else PresentNotes(name, saved, linked, n - 1)
         + (if linked[n - 1] then [WindowPresent(name, saved.windows[n - 1].index)] else [])
  }

  function ForeignNotes(name: Text, unpaired: seq<WinLink>): seq<Note> {
    seq(|unpaired|, i requires 0 <= i < |unpaired| => NotFromSnapshot(name, unpaired[i].index))
  }

  function RelocationNotes(name: Text, wanted: seq<Want>, live: set<Index>, missing: seq<Landed>): seq<Note> {
    if |missing| == 0 then []
    else
      var m := missing[|missing| - 1];
      RelocationNotes(name, wanted, live, missing[..|missing| - 1])
      + (if m.at < |wanted| && wanted[m.at].index in live then [Relocation(name, wanted[m.at].index, m.index)] else [])
  }

  function LackingNotes(c: Context, name: Text, saved: Session, links: seq<WinLink>): seq<Note> {
    var wanted := Wanted(c, saved);
    var pairing := Pair(wanted, links);
    PresentNotes(name, saved, pairing.linked, |saved.windows|)
    + ForeignNotes(name, pairing.unpaired)
    + RelocationNotes(name, wanted, LiveIndices(links), Missing(wanted, links))
  }

  // ---- Furnishing a window just created ----

  function KnownCwd(cwd: Cwd): Option<Text> {
    match cwd case Known(path) => Some(path) case Unreadable => None
  }

  const TILED: Text := Ascii("tiled")

  /** The reference of pane `i` of a window whose first pane is `first` and
      whose other panes draw from `refs` on. */
  function PaneOf(first: PaneRef, refs: nat, i: nat): PaneRef {
    if i == 0 then first else refs + i - 1
  }

  /** The splits that bring a one-pane window to `n` panes. */
  function Splits(saved: Window, window: WindowRef, first: PaneRef, refs: nat, n: nat): seq<Step>
    requires n <= |saved.panes|
  {
    if n <= 1 then []
    else Splits(saved, window, first, refs, n - 1)
         + [SplitPane(PaneOf(first, refs, n - 2), KnownCwd(saved.panes[n - 1].cwd), PaneOf(first, refs, n - 1)),
            SelectLayout(window, TILED)]
  }

  function Replay(pane: Pane, ref: PaneRef): seq<Step> {
    match pane.content
    case Captured(_, scrollback, _) => [ReplayContent(ref, scrollback)]
    case NotCaptured(_) => []
  }

  function Launch(pane: Pane, ref: PaneRef): seq<Step> {
    match pane.foreground
    case Program(argv) => [Relaunch(ref, argv)]
    case Shell => []
    case Unrecovered(_) => []
  }

  function Contents(saved: Window, first: PaneRef, refs: nat, n: nat): seq<Step>
    requires n <= |saved.panes|
  {
    if n == 0 then []
    else
      var ref := PaneOf(first, refs, n - 1);
      Contents(saved, first, refs, n - 1) + Replay(saved.panes[n - 1], ref) + Launch(saved.panes[n - 1], ref)
  }

  function ActivePane(saved: Window): (at: nat)
    requires ValidWindow(saved)
    ensures at < |saved.panes| && saved.panes[at].index == saved.active
  {
    Find(saved.panes, (p: Pane) => p.index == saved.active).value
  }

  function FurnishSteps(g: Generation, saved: Window, window: WindowRef, first: PaneRef, refs: nat): seq<Step>
    requires ValidWindow(saved)
  {
    Splits(saved, window, first, refs, |saved.panes|)
    + [SelectLayout(window, saved.layout)]
    + Contents(saved, first, refs, |saved.panes|)
    + [SelectPane(PaneOf(first, refs, ActivePane(saved))), SetOption(WindowMark(window, g, saved.id))]
  }

  function Furnish(c: Context, d: Draft, saved: Window, window: WindowRef, first: PaneRef): Draft
    requires ValidWindow(saved)
  {
    d.(steps := d.steps + FurnishSteps(c.generation, saved, window, first, d.refs),
       refs := d.refs + |saved.panes| - 1,
       built := d.built[saved.id := window])
  }

  // ---- One saved session ----

  function CloseScratch(d: Draft, to: Text): Draft {
    match d.scratch
    case None => d
    case Some(scratch) =>
      d.(steps := d.steps + [SwitchClients(scratch, to), KillSession(scratch)], scratch := None)
  }

  ghost predicate AllHeld(s: Snapshot, missing: seq<Lack>) {
    forall k :: 0 <= k < |missing| ==> HoldsWindow(s.windows, missing[k].window)
  }

  /** A session just made: with saved window `seed` in it, or a stand-in. */
  datatype Opened = Opened(draft: Draft, window: WindowRef, pane: PaneRef, seed: Option<Id>, missing: seq<Lack>)

  function OpenSession(c: Context, d: Draft, name: Text, missing: seq<Lack>): (o: Opened)
    requires |missing| > 0 && Coherent(c.snapshot) && AllHeld(c.snapshot, missing)
    ensures AllHeld(c.snapshot, o.missing)
    ensures o.seed.Some? ==> HoldsWindow(c.snapshot.windows, o.seed.value)
  {
    var ref := d.refs;
    var seed := Find(missing, (m: Lack) => Existing(c, d, m.window).None?);
    match seed
    case None =>
      Opened(d.(steps := d.steps + [CreateSession(name, None, None, ref, ref), MoveWindow(ref, name, missing[0].index)],
                refs := ref + 1),
             ref, ref, None, missing)
    case Some(at) =>
      var w := WindowOf(c.snapshot, missing[at].window);
      assert ValidWindow(w);
      Opened(d.(steps := d.steps + [CreateSession(name, Some(w.name), KnownCwd(w.panes[0].cwd), ref, ref),
                                    MoveWindow(ref, name, missing[at].index)],
                refs := ref + 1),
             ref, ref, Some(missing[at].window), missing[..at] + missing[at + 1..])
  }

  /** The draft while a session's missing links are added, and the window the
      next link to an existing one replaces. */
  datatype Linking = Linking(draft: Draft, placeholder: Option<WindowRef>)

  function AddLink(c: Context, l: Linking, name: Text, lack: Lack): (r: Linking)
    requires Coherent(c.snapshot) && HoldsWindow(c.snapshot.windows, lack.window)
  {
    var d := l.draft;
    match Existing(c, d, lack.window)
    case Some(source) =>
      Linking(d.(steps := d.steps + [LinkWindow(source, name, lack.index, l.placeholder)]), None)
    case None =>
      var w := WindowOf(c.snapshot, lack.window);
      assert ValidWindow(w);
      var made := d.(steps := d.steps + [NewWindow(name, lack.index, w.name, KnownCwd(w.panes[0].cwd), d.refs, d.refs)],
                     refs := d.refs + 1);
      Linking(Furnish(c, made, w, d.refs, d.refs), l.placeholder)
  }

  function AddLinks(c: Context, l: Linking, name: Text, missing: seq<Lack>): (r: Linking)
    requires Coherent(c.snapshot) && AllHeld(c.snapshot, missing)
    decreases |missing|
  {
    if |missing| == 0 then l
    else
      assert forall k :: 1 <= k < |missing| ==> missing[1..][k - 1] == missing[k];
      AddLinks(c, AddLink(c, l, name, missing[0]), name, missing[1..])
  }

  function LiveSession(c: Context, name: Text): (s: Option<Session>)
    ensures s.Some? ==> s.value.name == name && c.live.Some? && s.value in c.live.value.sessions
  {
    match c.live
    case None => None
    case Some(live) =>
      match Find(live.sessions, (s: Session) => s.name == name)
      case None => None
      case Some(at) => Some(live.sessions[at])
  }

  function LiveLinks(c: Context, name: Text): seq<WinLink> {
    match LiveSession(c, name) case None => [] case Some(s) => s.windows
  }

  lemma LackingIsKnown(c: Context, saved: Session, links: seq<WinLink>)
    requires Coherent(c.snapshot) && saved in c.snapshot.sessions
    ensures AllHeld(c.snapshot, Lacking(c, saved, links))
    ensures var missing := Missing(Wanted(c, saved), links);
            forall k :: 0 <= k < |missing| ==> missing[k].at < |saved.windows|
    ensures links == [] ==> |Lacking(c, saved, links)| > 0
  {
    var wanted := Wanted(c, saved);
    var linked := Pair(wanted, links).linked;
    LandListsUnanswered(wanted, linked, LiveIndices(links), |wanted|);
    assert LinksResolve(c.snapshot.windows, saved);
    if links == [] {
      PairConserves(wanted, links);
      assert ValidSession(saved);
      if linked[0] {
        var v := wanted[0].live.value;
        AnsweredBounded(wanted, linked, v, |wanted|);
        GreedyIsOptimal(wanted, links, v);
        NothingAnswered(wanted, linked, v, 0, |wanted|);
        assert false;
      }
      assert ListedAt(Missing(wanted, links), 0);
    }
  }

  lemma {:induction false} NothingAnswered(wanted: seq<Want>, linked: seq<bool>, v: Id, i: nat, n: nat)
    requires i < n <= |wanted| == |linked| && wanted[i].live == Some(v) && linked[i]
    ensures Answered(wanted, linked, v, n) > 0
  {
    if i < n - 1 {
      NothingAnswered(wanted, linked, v, i, n - 1);
    }
  }

  /** Every step between opening a session and its closing steps. */
  function FillSession(c: Context, d: Draft, name: Text, missing: seq<Lack>): Draft
    requires Coherent(c.snapshot) && AllHeld(c.snapshot, missing)
    requires LiveSession(c, name).None? ==> |missing| > 0
  {
    if LiveSession(c, name).Some? then AddLinks(c, Linking(CloseScratch(d, name), None), name, missing).draft
    else
      var o := OpenSession(c, d, name, missing);
      var closed := CloseScratch(o.draft, name);
      match o.seed
      case None => AddLinks(c, Linking(closed, Some(o.window)), name, o.missing).draft
      case Some(id) =>
        assert ValidWindow(WindowOf(c.snapshot, id));
        AddLinks(c, Linking(Furnish(c, closed, WindowOf(c.snapshot, id), o.window, o.pane), None), name, o.missing).draft
  }

  /** A session made by the plan is turned to the window it was saved showing; one
      found live is left as its user had it. */
  function Shown(c: Context, d: Draft, saved: Session): Draft {
    if LiveSession(c, saved.name).None? then d.(steps := d.steps + [SelectWindow(saved.name, saved.active)]) else d
  }

  function FinishSession(c: Context, d: Draft, saved: Session, before: nat): Draft {
    var shown := Shown(c, d, saved);
    if Unfinished(c) || |shown.steps| > before then
      shown.(steps := shown.steps + [SetOption(SessionMark(saved.name, c.generation))])
    else shown
  }

  function DraftSession(c: Context, d: Draft, saved: Session): Draft
    requires Coherent(c.snapshot) && saved in c.snapshot.sessions
  {
    if !Addressable(saved.name) then d.(notes := d.notes + [Unaddressable(saved.name)])
    else
      var live := LiveSession(c, saved.name);
      var links := LiveLinks(c, saved.name);
      var greeted := if live.Some? then d.notes + [SessionPresent(saved.name)] else d.notes;
      var noted := d.(notes := greeted + LackingNotes(c, saved.name, saved, links));
      LackingIsKnown(c, saved, links);
      FinishSession(c, FillSession(c, noted, saved.name, Lacking(c, saved, links)), saved, |d.steps|)
  }

  /** The draft after the first `n` saved sessions. */
  function DraftSessions(c: Context, d: Draft, n: nat): Draft
    requires Coherent(c.snapshot) && n <= |c.snapshot.sessions|
  {
    if n == 0 then d else DraftSession(c, DraftSessions(c, d, n - 1), c.snapshot.sessions[n - 1])
  }

  function ContextOf(g: Generation, snapshot: Snapshot, onto: Onto): Context {
    Context(g, snapshot, onto.Capture())
  }

  function Blank(onto: Onto): Draft {
    Draft([], [], map[], 0, onto.Scratch())
  }

  /** The steps that mark the server, last of all. */
  function Closing(c: Context): seq<Step> {
    if Unfinished(c) then [SetOption(ServerMark(c.generation))] else []
  }

  function PlanOf(g: Generation, snapshot: Snapshot, onto: Onto): Plan
    requires Coherent(snapshot)
  {
    var c := ContextOf(g, snapshot, onto);
    var d := DraftSessions(c, Blank(onto), |snapshot.sessions|);
    Plan(d.steps + Closing(c), d.notes)
  }
}
