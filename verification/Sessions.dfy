/** Running one saved session's steps: the draft's own bookkeeping stays true of
    the server, every link lands, and nothing elsewhere changes. */
module Sessions {
  import opened Wrappers
  import opened Snapshots
  import opened Steps
  import opened Planner
  import opened Applying
  import opened Safety
  import opened Furnishing
  import T = Tmux

  /** What the draft believes of the server its steps lead to. */
  ghost predicate Bookkeeping(w: World, d: Draft, m: Machine) {
    && (forall r :: r in m.bound.windows ==> r < d.refs)
    && (forall r :: r in m.bound.panes ==> r < d.refs)
    && (forall id :: id in d.built ==>
          && d.built[id] in m.bound.windows
          && New(w, m.server, m.bound.windows[d.built[id]])
          && m.server.windows[m.bound.windows[d.built[id]]].made == ByPhoenix(w.c.generation, id))
    && (forall v :: New(w, m.server, v) && m.server.windows[v].made.ByPhoenix? ==>
          && m.server.windows[v].made.saved in d.built
          && m.bound.windows[d.built[m.server.windows[v].made.saved]] == v)
    && (d.scratch.Some? ==> d.scratch == w.scratch && d.scratch.value in m.server.sessions && d.built == map[])
    && (w.scratch.Some? && d.scratch.None? ==> w.scratch.value !in m.server.sessions)
  }

  ghost predicate Follows(w: World, d: Draft, m: Machine) {
    Runs(w, d.steps, m) && Bookkeeping(w, d, m)
  }

  /** Nothing of a session other than `name` and the scratch has changed, and
      every stamp that was set is as it was. */
  ghost predicate Elsewhere(w: World, s: Server, t: Server, name: Text) {
    && t.origin == s.origin && s.nextWindow <= t.nextWindow
    && (forall v :: v in t.windows ==> v in s.windows || s.nextWindow <= v)
    && (forall n :: n != name && Some(n) != w.scratch ==> (n in s.sessions <==> n in t.sessions))
    && (forall at: T.Slot :: at.session != name && Some(at.session) != w.scratch ==>
          (at in s.links <==> at in t.links) && (at in s.links ==> t.links[at] == s.links[at]))
    && (forall n :: n != name && Some(n) != w.scratch ==>
          (n in s.restored <==> n in t.restored) && (n in s.restored ==> t.restored[n] == s.restored[n]))
    && (forall n :: n != name && Some(n) != w.scratch && n in s.shown ==> n in t.shown && t.shown[n] == s.shown[n])
    && (forall v :: v in s.windows && v in t.windows && s.windows[v].made.ByPhoenix? ==> t.windows[v].made == s.windows[v].made)
  }

  lemma ElsewhereChains(w: World, s: Server, t: Server, u: Server, name: Text)
    requires Elsewhere(w, s, t, name) && Elsewhere(w, t, u, name)
    requires T.WellFormed(s)
    ensures Elsewhere(w, s, u, name)
  {}

  lemma StartIsWellFormed(w: World)
    requires WorldOk(w)
    ensures T.WellFormed(w.start)
  {}

  // ---- What the plan read of the live server is true of it ----

  lemma PresentAnswers(w: World, id: Id)
    requires WorldOk(w) && Saved(w.c.snapshot, id)
    ensures Present(w.c, id).Some? ==> Answers(w.c.generation, w.c.snapshot, w.start, Present(w.c, id).value, id)
    ensures Present(w.c, id).None? ==> forall v :: !Answers(w.c.generation, w.c.snapshot, w.start, v, id)
  {
    hide Unambiguous, Coherent, OwnScratch, T.WellFormed;
    var live := w.c.live.value;
    if Present(w.c, id).None? {
      forall v ensures !Answers(w.c.generation, w.c.snapshot, w.start, v, id) {
        if v in w.start.windows {
          assert HoldsWindow(live.windows, v);
          var k :| 0 <= k < |live.windows| && live.windows[k].id == v;
          assert live.windows[k].made == w.start.windows[v].made;
        }
      }
    }
  }

  /** A live window that is a saved one outlives every step. */
  lemma LiveStays(w: World, s: Server, id: Id)
    requires WorldOk(w) && Safe(w, s) && Saved(w.c.snapshot, id) && Present(w.c, id).Some?
    ensures Answers(w.c.generation, w.c.snapshot, s, Present(w.c, id).value, id)
    ensures Present(w.c, id).value < w.start.nextWindow
  {
    hide StampsWhole;
    PresentAnswers(w, id);
    var v := Present(w.c, id).value;
    assert T.LinkedIn(w.start.links, v);
    var at :| at in w.start.links && w.start.links[at] == v;
    assert Some(at.session) != w.scratch;
    assert at in s.links && s.links[at] == v;
  }

  lemma PresentIsInjective(w: World, a: Id, b: Id)
    requires WorldOk(w) && Saved(w.c.snapshot, a) && Saved(w.c.snapshot, b)
    requires Present(w.c, a).Some? && Present(w.c, a) == Present(w.c, b)
    ensures a == b
  {
    PresentAnswers(w, a);
    PresentAnswers(w, b);
  }

  // ---- One missing link ----

  /** `after` has `v`, which is saved window `id`, at `at`, and every other link
      as `m` has it. */
  ghost predicate Landed(w: World, m: Machine, after: Machine, at: T.Slot, id: Id) {
    && at in after.server.links
    && after.server.links == m.server.links[at := after.server.links[at]]
    && after.server.sessions == m.server.sessions
    && Answers(w.c.generation, w.c.snapshot, after.server, after.server.links[at], id)
  }

  /** Where an existing window is linked from: bound or live, it is there. */
  lemma SourceAnswers(w: World, d: Draft, m: Machine, id: Id)
    requires WorldOk(w) && Safe(w, m.server) && Bookkeeping(w, d, m) && Saved(w.c.snapshot, id) && Existing(w.c, d, id).Some?
    ensures var source := Existing(w.c, d, id).value;
            && (source.Built? ==> source.ref in m.bound.windows)
            && Answers(w.c.generation, w.c.snapshot, m.server, SourceOf(m, source), id)
  {
    hide Safe, WorldOk;
    if id !in d.built {
      LiveStays(w, m.server, id);
    }
  }

  function SourceOf(m: Machine, source: LinkSource): Id {
    match source
    case Built(ref) => if ref in m.bound.windows then m.bound.windows[ref] else 0
    case Live(id) => id
  }

  /** Steps that change no window keep the books. */
  lemma BooksKeep(w: World, d: Draft, m: Machine, e: Draft, n: Machine)
    requires Bookkeeping(w, d, m) && n.bound == m.bound && n.server.windows == m.server.windows
    requires e.built == d.built && e.refs == d.refs && e.scratch == d.scratch && n.server.sessions == m.server.sessions
    ensures Bookkeeping(w, e, n)
  {}

  lemma ShareStep(w: World, d: Draft, m: Machine, name: Text, lack: Lack) returns (after: Machine)
    requires WorldOk(w) && Safe(w, m.server) && Bookkeeping(w, d, m)
    requires Saved(w.c.snapshot, lack.window) && Existing(w.c, d, lack.window).Some?
    requires name in m.server.sessions && T.Slot(name, lack.index) !in m.server.links
    ensures RunStep(m, LinkWindow(Existing(w.c, d, lack.window).value, name, lack.index, None)) == Ran(after)
    ensures Safe(w, after.server) && after.bound == m.bound && after.server.windows == m.server.windows
    ensures Landed(w, m, after, T.Slot(name, lack.index), lack.window) && Elsewhere(w, m.server, after.server, name)
  {
    hide Safe, Bookkeeping, WorldOk;
    SourceAnswers(w, d, m, lack.window);
    var v := SourceOf(m, Existing(w.c, d, lack.window).value);
    var at := T.Slot(name, lack.index);
    LinkKeeps(w, m.server, v, at, false);
    after := m.(server := m.server.(links := m.server.links[at := v]));
  }

  lemma ShareRuns(w: World, d: Draft, m: Machine, name: Text, lack: Lack) returns (after: Machine)
    requires WorldOk(w) && Follows(w, d, m)
    requires Coherent(w.c.snapshot) && Saved(w.c.snapshot, lack.window) && Existing(w.c, d, lack.window).Some?
    requires name in m.server.sessions && T.Slot(name, lack.index) !in m.server.links
    ensures Follows(w, AddLink(w.c, Linking(d, None), name, lack).draft, after)
    ensures Landed(w, m, after, T.Slot(name, lack.index), lack.window) && Elsewhere(w, m.server, after.server, name)
    ensures m.server.windows.Keys <= after.server.windows.Keys
  {
    hide Safe, Runs, Bookkeeping, Landed, Elsewhere, WorldOk, Existing, RunStep, Coherent;
    RunsToSafe(w, d.steps, m);
    after := ShareStep(w, d, m, name, lack);
    Push(w, d.steps, m, LinkWindow(Existing(w.c, d, lack.window).value, name, lack.index, None), after);
    BooksKeep(w, d, m, AddLink(w.c, Linking(d, None), name, lack).draft, after) by { SameSessions(w, m, after, name, lack); }
  }

  lemma SameSessions(w: World, m: Machine, after: Machine, name: Text, lack: Lack)
    requires Landed(w, m, after, T.Slot(name, lack.index), lack.window)
    ensures after.server.sessions == m.server.sessions
  {}

  // ---- One missing window ----

  lemma BooksGrow(w: World, d: Draft, m: Machine, e: Draft, n: Machine, v: Id)
    requires Bookkeeping(w, d, m) && e == d.(steps := e.steps, refs := d.refs + 1)
    requires n.bound.windows == m.bound.windows[d.refs := v] && n.bound.panes.Keys <= m.bound.panes.Keys + {d.refs}
    requires v !in m.server.windows && v in n.server.windows
    requires n.server.windows == m.server.windows[v := n.server.windows[v]] && n.server.windows[v].made.NotByPhoenix?
    requires m.server.sessions <= n.server.sessions
    requires w.scratch.Some? && w.scratch.value !in m.server.sessions ==> w.scratch.value !in n.server.sessions
    ensures Bookkeeping(w, e, n)
  {}

  /** The state once a window for `saved` has been created at `at`. */
  ghost predicate Created(w: World, m: Machine, after: Machine, at: T.Slot, v: Id, saved: Window, ref: nat) {
    && v !in m.server.windows && v in after.server.windows
    && after.server.windows == m.server.windows[v := after.server.windows[v]]
    && after.server.links == m.server.links[at := v]
    && after.server.sessions == m.server.sessions
    && Furnishable(w, after, ref, v, saved, ref, ref + 1)
  }

  lemma CreatedShape(w: World, d: Draft, m: Machine, at: T.Slot, saved: Window, c: T.Created)
    requires m.server.nextWindow !in m.server.windows && w.start.nextWindow <= m.server.nextWindow
    requires forall r :: r in m.bound.panes ==> r < d.refs
    requires forall u :: New(w, m.server, u) ==> m.server.windows[u].made != ByPhoenix(w.c.generation, saved.id)
    requires ValidWindow(saved) && Saved(w.c.snapshot, saved.id) && WindowOf(w.c.snapshot, saved.id) == saved
    requires Present(w.c, saved.id).None?
    requires T.NewWindow(m.server, at.session, at.index, saved.name, KnownCwd(saved.panes[0].cwd)) == Some(c)
    ensures Created(w, m, Machine(c.server, Bound(m.bound.windows[d.refs := c.window], m.bound.panes[d.refs := c.pane])),
                    at, c.window, saved, d.refs)
  {
    hide Present, WindowOf, Saved;
  }

  lemma CreatedElsewhere(w: World, s: Server, at: T.Slot, title: Text, cwd: Option<Text>, c: T.Created)
    requires T.NewWindow(s, at.session, at.index, title, cwd) == Some(c) && s.nextWindow !in s.windows
    ensures Elsewhere(w, s, c.server, at.session)
  {}

  lemma CreateStep(w: World, d: Draft, m: Machine, at: T.Slot, saved: Window) returns (after: Machine)
    requires Safe(w, m.server) && Bookkeeping(w, d, m)
    requires ValidWindow(saved) && Saved(w.c.snapshot, saved.id) && WindowOf(w.c.snapshot, saved.id) == saved
    requires Existing(w.c, d, saved.id).None?
    requires at.session in m.server.sessions && at !in m.server.links
    ensures RunStep(m, NewWindow(at.session, at.index, saved.name, KnownCwd(saved.panes[0].cwd), d.refs, d.refs)) == Ran(after)
    ensures Safe(w, after.server) && Elsewhere(w, m.server, after.server, at.session)
    ensures Created(w, m, after, at, m.server.nextWindow, saved, d.refs)
    ensures Bookkeeping(w, d.(refs := d.refs + 1), after)
  {
    hide Safe, Elsewhere, Created;
    NextIsFresh(w, m.server);
    var cwd := KnownCwd(saved.panes[0].cwd);
    NewWindowKeeps(w, m.server, at, saved.name, cwd);
    var c := T.NewWindow(m.server, at.session, at.index, saved.name, cwd).value;
    after := Machine(c.server, Bound(m.bound.windows[d.refs := c.window], m.bound.panes[d.refs := c.pane]));
    CreatedShape(w, d, m, at, saved, c);
    CreatedElsewhere(w, m.server, at, saved.name, cwd, c);
    BooksGrow(w, d, m, d.(refs := d.refs + 1), after, c.window);
  }

  lemma NextIsFresh(w: World, s: Server)
    requires Safe(w, s)
    ensures s.nextWindow !in s.windows && w.start.nextWindow <= s.nextWindow
  {}

  lemma BooksFurnished(w: World, d: Draft, m: Machine, saved: Window, window: WindowRef, v: Id, n: Machine)
    requires Bookkeeping(w, d, m) && ValidWindow(saved) && d.scratch.None? && saved.id !in d.built
    requires Building(w, m, window, v) && OnlyInside(m, n, v, d.refs + |saved.panes| - 1)
    requires n.server.windows[v].made == ByPhoenix(w.c.generation, saved.id)
    ensures Bookkeeping(w, Furnish(w.c, d, saved, window, window), n)
  {
    hide FurnishSteps;
  }

  lemma InsideIsElsewhere(w: World, m: Machine, n: Machine, v: Id, refs: nat, name: Text)
    requires OnlyInside(m, n, v, refs) && m.server.windows[v].made.NotByPhoenix?
    ensures Elsewhere(w, m.server, n.server, name)
  {}

  lemma FurnishedLands(w: World, m: Machine, n: Machine, o: Machine, at: T.Slot, v: Id, saved: Window, ref: nat, refs: nat)
    requires Created(w, m, n, at, v, saved, ref) && OnlyInside(n, o, v, refs)
    requires o.server.windows[v].made == ByPhoenix(w.c.generation, saved.id)
    ensures Landed(w, m, o, at, saved.id) && m.server.windows.Keys <= o.server.windows.Keys
  {}

  /** A window just created, through the rest of its group. */
  lemma FurnishFollows(w: World, d: Draft, made: Machine, v: Id, saved: Window) returns (after: Machine)
    requires Follows(w, d, made) && d.scratch.None? && d.refs > 0 && saved.id !in d.built
    requires Furnishable(w, made, d.refs - 1, v, saved, d.refs - 1, d.refs)
    ensures Follows(w, Furnish(w.c, d, saved, d.refs - 1, d.refs - 1), after)
    ensures OnlyInside(made, after, v, d.refs + |saved.panes| - 1)
    ensures after.server.windows[v].made == ByPhoenix(w.c.generation, saved.id)
  {
    hide Safe, Runs, Exec, Bookkeeping, OnlyInside, Furnishable, Building, ValidWindow;
    var ref := d.refs - 1;
    FurnishableBuilds(w, made, ref, v, saved);
    after := FurnishRuns(w, d.steps, made, ref, v, saved, ref, d.refs);
    BooksFurnished(w, d, made, saved, ref, v, after);
  }

  lemma FurnishableBuilds(w: World, m: Machine, ref: nat, v: Id, saved: Window)
    requires Furnishable(w, m, ref, v, saved, ref, ref + 1)
    ensures Building(w, m, ref, v) && ValidWindow(saved)
    ensures v in m.server.windows && m.server.windows[v].made.NotByPhoenix?
  {}

  lemma GroupRuns(w: World, d: Draft, m: Machine, made: Machine, at: T.Slot, v: Id, saved: Window) returns (after: Machine)
    requires Follows(w, d, made) && d.scratch.None? && d.refs > 0 && saved.id !in d.built
    requires Created(w, m, made, at, v, saved, d.refs - 1) && Elsewhere(w, m.server, made.server, at.session)
    requires ValidWindow(saved) && T.WellFormed(m.server)
    ensures Follows(w, Furnish(w.c, d, saved, d.refs - 1, d.refs - 1), after)
    ensures Landed(w, m, after, at, saved.id) && Elsewhere(w, m.server, after.server, at.session)
    ensures m.server.windows.Keys <= after.server.windows.Keys
  {
    hide Follows, Landed, Elsewhere, OnlyInside, Created, Furnishable, Building, T.WellFormed, ValidWindow;
    var ref := d.refs - 1;
    CreatedBuilds(w, m, made, at, v, saved, ref);
    after := FurnishFollows(w, d, made, v, saved);
    FurnishedLands(w, m, made, after, at, v, saved, ref, d.refs + |saved.panes| - 1);
    InsideIsElsewhere(w, made, after, v, d.refs + |saved.panes| - 1, at.session);
    ElsewhereChains(w, m.server, made.server, after.server, at.session);
  }

  lemma CreatedBuilds(w: World, m: Machine, n: Machine, at: T.Slot, v: Id, saved: Window, ref: nat)
    requires Created(w, m, n, at, v, saved, ref)
    ensures Furnishable(w, n, ref, v, saved, ref, ref + 1) && Building(w, n, ref, v)
    ensures v in n.server.windows && n.server.windows[v].made.NotByPhoenix?
  {}

  lemma SafeIsWellFormed(w: World, s: Server)
    requires Safe(w, s)
    ensures T.WellFormed(s)
  {}

  lemma SavedIsValid(c: Context, d: Draft, id: Id)
    requires Coherent(c.snapshot) && Saved(c.snapshot, id)
    ensures ValidWindow(WindowOf(c.snapshot, id))
    ensures Existing(c, d, id).None? ==> id !in d.built && Present(c, id).None?
  {}

  lemma BuildRuns(w: World, d: Draft, m: Machine, name: Text, lack: Lack, ph: Option<WindowRef>) returns (after: Machine)
    requires Follows(w, d, m) && d.scratch.None?
    requires Coherent(w.c.snapshot) && Saved(w.c.snapshot, lack.window) && Existing(w.c, d, lack.window).None?
    requires name in m.server.sessions && T.Slot(name, lack.index) !in m.server.links
    ensures Follows(w, AddLink(w.c, Linking(d, ph), name, lack).draft, after)
    ensures Landed(w, m, after, T.Slot(name, lack.index), lack.window) && Elsewhere(w, m.server, after.server, name)
    ensures m.server.windows.Keys <= after.server.windows.Keys
  {
    hide Safe, Runs, Exec, Bookkeeping, Landed, Elsewhere, Created, RunStep, Coherent, Existing, T.WellFormed;
    var saved := WindowOf(w.c.snapshot, lack.window);
    SavedIsValid(w.c, d, lack.window);
    RunsToSafe(w, d.steps, m);
    SafeIsWellFormed(w, m.server);
    var at := T.Slot(name, lack.index);
    var made := CreateStep(w, d, m, at, saved);
    var step := NewWindow(name, lack.index, saved.name, KnownCwd(saved.panes[0].cwd), d.refs, d.refs);
    Push(w, d.steps, m, step, made);
    var e := d.(steps := d.steps + [step], refs := d.refs + 1);
    StepsAreNotBooks(w, d.(refs := d.refs + 1), e, made);
    after := GroupRuns(w, e, m, made, at, m.server.nextWindow, saved);
  }

  lemma StepsAreNotBooks(w: World, d: Draft, e: Draft, m: Machine)
    requires Bookkeeping(w, d, m) && e == d.(steps := e.steps, notes := e.notes)
    ensures Bookkeeping(w, e, m)
  {}

  // ---- Every missing link ----

  /** The places of session `name` that hold saved window `id`. */
  ghost function Places(g: Generation, snapshot: Snapshot, s: Server, name: Text, id: Id): set<T.Slot> {
    set at | at in s.links && at.session == name && Answers(g, snapshot, s, s.links[at], id)
  }

  ghost function Held(w: World, s: Server, name: Text, id: Id): set<T.Slot> {
    Places(w.c.generation, w.c.snapshot, s, name, id)
  }

  function LackCount(missing: seq<Lack>, id: Id): nat {
    if |missing| == 0 then 0 else (if missing[0].window == id then 1 else 0) + LackCount(missing[1..], id)
  }

  /** A link that lands is one more place, and no place is lost. */
  lemma LandedCounts(w: World, m: Machine, after: Machine, at: T.Slot, landed: Id, id: Id)
    requires Landed(w, m, after, at, landed) && Elsewhere(w, m.server, after.server, at.session)
    requires T.WellFormed(after.server) && at !in m.server.links
    ensures |Held(w, after.server, at.session, id)| >= |Held(w, m.server, at.session, id)| + (if id == landed then 1 else 0)
  {
    var a, b := Held(w, m.server, at.session, id), Held(w, after.server, at.session, id);
    assert a <= b;
    Subset(a, b);
    if id == landed {
      Subset(a, b - {at});
    }
  }

  lemma {:induction false} Subset<X>(a: set<X>, b: set<X>)
    requires a <= b
    ensures |a| <= |b|
  {
    if a != {} {
      var x :| x in a;
      Subset(a - {x}, b - {x});
    }
  }

  /** The missing links land apart, on places nothing holds. */
  ghost predicate Free(s: Server, name: Text, missing: seq<Lack>) {
    && (forall k :: 0 <= k < |missing| ==> T.Slot(name, missing[k].index) !in s.links)
    && (forall j, k :: 0 <= j < k < |missing| ==> missing[j].index != missing[k].index)
  }

  lemma AddLinkRuns(w: World, d: Draft, m: Machine, name: Text, lack: Lack) returns (after: Machine)
    requires WorldOk(w) && Follows(w, d, m) && d.scratch.None?
    requires Coherent(w.c.snapshot) && Saved(w.c.snapshot, lack.window)
    requires name in m.server.sessions && T.Slot(name, lack.index) !in m.server.links
    ensures var l := AddLink(w.c, Linking(d, None), name, lack);
            Follows(w, l.draft, after) && l.placeholder.None? && l.draft.scratch.None? && |l.draft.steps| > |d.steps|
    ensures Landed(w, m, after, T.Slot(name, lack.index), lack.window) && Elsewhere(w, m.server, after.server, name)
  {
    hide WorldOk, Follows, Coherent, Landed, Elsewhere, Existing;
    if Existing(w.c, d, lack.window).Some? {
      after := ShareRuns(w, d, m, name, lack);
    } else {
      after := BuildRuns(w, d, m, name, lack, None);
    }
  }

  /** The saved window `lack` is for is linked where `lack` says it lands. */
  ghost predicate LandedAt(w: World, s: Server, name: Text, lack: Lack) {
    var at := T.Slot(name, lack.index);
    at in s.links && Answers(w.c.generation, w.c.snapshot, s, s.links[at], lack.window)
  }

  predicate LandsAt(missing: seq<Lack>, i: Index) {
    exists k :: 0 <= k < |missing| && missing[k].index == i
  }

  /** Session `name` gained no link but at the indices of `missing`. */
  ghost predicate GainsOnly(s: Server, t: Server, name: Text, missing: seq<Lack>) {
    forall at: T.Slot :: at.session == name && at in t.links ==> at in s.links || LandsAt(missing, at.index)
  }

  /** What adding `missing` to session `name` comes to. */
  ghost predicate Added(w: World, m: Machine, after: Machine, name: Text, missing: seq<Lack>) {
    && Elsewhere(w, m.server, after.server, name)
    && after.server.sessions == m.server.sessions
    && (forall at :: at in m.server.links ==> at in after.server.links && after.server.links[at] == m.server.links[at])
    && (forall k :: 0 <= k < |missing| ==> LandedAt(w, after.server, name, missing[k]))
    && GainsOnly(m.server, after.server, name, missing)
    && (forall id :: Saved(w.c.snapshot, id) ==>
          |Held(w, after.server, name, id)| >= |Held(w, m.server, name, id)| + LackCount(missing, id))
  }

  lemma NothingAdded(w: World, m: Machine, name: Text)
    ensures Added(w, m, m, name, [])
  {}

  /** A link that is kept goes on holding what it held. */
  lemma LandedStays(w: World, s: Server, t: Server, name: Text, lack: Lack)
    requires LandedAt(w, s, name, lack) && Elsewhere(w, s, t, name) && T.WellFormed(s) && T.WellFormed(t)
    requires var at := T.Slot(name, lack.index); at in t.links && t.links[at] == s.links[at]
    ensures LandedAt(w, t, name, lack)
  {}

  lemma GainsFirst(s: Server, t: Server, u: Server, name: Text, missing: seq<Lack>)
    requires |missing| > 0 && GainsOnly(t, u, name, missing[1..])
    requires forall at :: at in t.links ==> at in s.links || at == T.Slot(name, missing[0].index)
    ensures GainsOnly(s, u, name, missing)
  {
    forall at: T.Slot | at.session == name && at in u.links && at !in s.links ensures LandsAt(missing, at.index) {
      if at !in t.links {
        var k :| 0 <= k < |missing[1..]| && missing[1..][k].index == at.index;
        assert missing[k + 1].index == at.index;
      } else {
        assert missing[0].index == at.index;
      }
    }
  }

  lemma LandedKeeps(w: World, m: Machine, n: Machine, name: Text, lack: Lack)
    requires var at := T.Slot(name, lack.index); Landed(w, m, n, at, lack.window) && at !in m.server.links
    ensures LandedAt(w, n.server, name, lack) && n.server.sessions == m.server.sessions
    ensures forall at :: at in m.server.links ==> at in n.server.links && n.server.links[at] == m.server.links[at]
    ensures forall at :: at in n.server.links ==> at in m.server.links || at == T.Slot(name, lack.index)
  {}

  lemma LandedFirst(w: World, s: Server, t: Server, name: Text, missing: seq<Lack>)
    requires |missing| > 0 && Elsewhere(w, s, t, name) && T.WellFormed(s) && T.WellFormed(t)
    requires LandedAt(w, s, name, missing[0]) && forall at :: at in s.links ==> at in t.links && t.links[at] == s.links[at]
    requires forall k :: 0 <= k < |missing[1..]| ==> LandedAt(w, t, name, missing[1..][k])
    ensures forall k :: 0 <= k < |missing| ==> LandedAt(w, t, name, missing[k])
  {
    LandedStays(w, s, t, name, missing[0]);
    hide LandedAt, Elsewhere, T.WellFormed;
    forall k | 0 <= k < |missing| ensures LandedAt(w, t, name, missing[k]) {
      if k > 0 { assert missing[k] == missing[1..][k - 1]; }
    }
  }

  lemma AddedMore(w: World, m: Machine, n: Machine, o: Machine, name: Text, missing: seq<Lack>)
    requires |missing| > 0 && T.WellFormed(m.server) && T.WellFormed(n.server) && T.WellFormed(o.server)
    requires var at := T.Slot(name, missing[0].index); Landed(w, m, n, at, missing[0].window) && at !in m.server.links
    requires Elsewhere(w, m.server, n.server, name) && Added(w, n, o, name, missing[1..])
    ensures Added(w, m, o, name, missing)
  {
    hide Elsewhere, Landed, LandedAt, GainsOnly, T.WellFormed, Held;
    ElsewhereChains(w, m.server, n.server, o.server, name);
    LandedKeeps(w, m, n, name, missing[0]);
    GainsFirst(m.server, n.server, o.server, name, missing);
    LandedFirst(w, n.server, o.server, name, missing);
    forall id | Saved(w.c.snapshot, id) ensures |Held(w, o.server, name, id)| >= |Held(w, m.server, name, id)| + LackCount(missing, id) {
      LandedCounts(w, m, n, T.Slot(name, missing[0].index), missing[0].window, id);
    }
  }

  lemma StillFree(w: World, m: Machine, n: Machine, name: Text, missing: seq<Lack>)
    requires |missing| > 0 && Free(m.server, name, missing)
    requires Landed(w, m, n, T.Slot(name, missing[0].index), missing[0].window)
    ensures Free(n.server, name, missing[1..]) && n.server.sessions == m.server.sessions
  {
    forall k | 0 <= k < |missing[1..]| ensures T.Slot(name, missing[1..][k].index) !in n.server.links {
      assert missing[1..][k] == missing[k + 1];
    }
  }

  lemma {:induction false} AddLinksRun(w: World, d: Draft, m: Machine, name: Text, missing: seq<Lack>) returns (after: Machine)
    requires WorldOk(w) && Follows(w, d, m) && d.scratch.None?
    requires Coherent(w.c.snapshot) && AllHeld(w.c.snapshot, missing)
    requires name in m.server.sessions && Free(m.server, name, missing)
    ensures Follows(w, AddLinks(w.c, Linking(d, None), name, missing).draft, after)
    ensures AddLinks(w.c, Linking(d, None), name, missing).draft.scratch.None?
    ensures |AddLinks(w.c, Linking(d, None), name, missing).draft.steps| >= |d.steps| + (if |missing| > 0 then 1 else 0)
    ensures Added(w, m, after, name, missing)
    decreases |missing|
  {
    hide WorldOk, Follows, Coherent, Landed, Elsewhere, Added, AddLink, Free, T.WellFormed;
    if |missing| == 0 {
      NothingAdded(w, m, name);
      assert missing == [];
      after := m;
    } else {
      FirstIsFree(w, m.server, name, missing);
      var l := AddLink(w.c, Linking(d, None), name, missing[0]);
      var n := AddLinkRuns(w, d, m, name, missing[0]);
      StillFree(w, m, n, name, missing);
      after := AddLinksRun(w, l.draft, n, name, missing[1..]);
      FollowsIsWellFormed(w, d, m);
      FollowsIsWellFormed(w, l.draft, n);
      FollowsIsWellFormed(w, AddLinks(w.c, l, name, missing[1..]).draft, after);
      AddedMore(w, m, n, after, name, missing);
    }
  }

  lemma FirstIsFree(w: World, s: Server, name: Text, missing: seq<Lack>)
    requires |missing| > 0 && Free(s, name, missing)
    ensures T.Slot(name, missing[0].index) !in s.links
  {}

  lemma FollowsIsWellFormed(w: World, d: Draft, m: Machine)
    requires Follows(w, d, m)
    ensures Safe(w, m.server) && T.WellFormed(m.server)
  {
    hide Runs, Bookkeeping;
    RunsToSafe(w, d.steps, m);
  }
}
