/** A whole restore: every prefix of a plan leaves the server safe, and the
    whole of it leaves every addressable saved session answered. */
module Restoring {
  import opened Wrappers
  import opened Snapshots
  import opened Steps
  import opened Planner
  import opened Applying
  import opened Safety
  import opened Furnishing
  import opened Sessions
  import opened Opening
  import opened Filling
  import opened Counting
  import M = Matching
  import T = Tmux

  // ---- One session's steps, from its first to its closing ones ----

  /** What session `name` is in a server whose restore has not reached it. */
  ghost predicate Untouched(w: World, s: Server, name: Text) {
    && (name in s.sessions <==> name in w.start.sessions)
    && (name in s.restored <==> name in w.start.restored)
    && (name in s.restored ==> s.restored[name] == w.start.restored[name])
    && forall at: T.Slot :: at.session == name && at in s.links ==> at in w.start.links
  }

  function Seed(c: Context, d: Draft, missing: seq<Lack>): Option<nat> {
    Find(missing, (m: Lack) => Existing(c, d, m.window).None?)
  }

  ghost predicate Lacked(w: World, d: Draft, m: Machine, name: Text, missing: seq<Lack>) {
    && WorldOk(w) && Follows(w, d, m) && Coherent(w.c.snapshot) && AllHeld(w.c.snapshot, missing) && Apart(missing)
    && Some(name) != w.scratch && d.scratch != Some(name)
    && LiveSession(w.c, name).None? && |missing| > 0
    && Unopened(m.server, name) && name !in w.start.sessions
  }

  lemma PlaceholderFills(w: World, d: Draft, m: Machine, name: Text, missing: seq<Lack>) returns (after: Machine)
    requires Lacked(w, d, m, name, missing) && Coherent(w.c.snapshot) && AllHeld(w.c.snapshot, missing)
    requires LiveSession(w.c, name).None? && |missing| > 0 && Seed(w.c, d, missing).None?
    ensures Follows(w, FillSession(w.c, d, name, missing), after) && Filled(w, m, after, name, missing)
    ensures FillSession(w.c, d, name, missing).scratch.None? && |FillSession(w.c, d, name, missing).steps| > |d.steps|
  {
    hide WorldOk, Follows, Coherent, Apart, Filled, Started, Unopened, T.WellFormed, AddLinks, Existing, AddLink, AllHeld,
         CloseScratch, FillSession, Seed, Except;
    FollowsIsWellFormed(w, d, m);
    HeldParts(w.c.snapshot, missing, 0);
    PlantedIsFill(w.c, d, name, missing);
    var n := PlaceholderRuns(w, d, m, name, missing[0]);
    after := StartedRuns(w, Planted(w.c, d, name, missing[0]).draft, m, n, name, missing, 0);
  }

  /** The draft once session `name` has been made with a placeholder and
      `first` has taken its place. */
  function Planted(c: Context, d: Draft, name: Text, first: Lack): Linking
    requires Coherent(c.snapshot) && HoldsWindow(c.snapshot.windows, first.window)
  {
    var begun := d.(steps := d.steps + [CreateSession(name, None, None, d.refs, d.refs), MoveWindow(d.refs, name, first.index)],
                    refs := d.refs + 1);
    AddLink(c, Linking(CloseScratch(begun, name), Some(d.refs)), name, first)
  }

  lemma PlantedIsFill(c: Context, d: Draft, name: Text, missing: seq<Lack>)
    requires Coherent(c.snapshot) && AllHeld(c.snapshot, missing) && |missing| > 0
    requires LiveSession(c, name).None? && Seed(c, d, missing).None?
    ensures HoldsWindow(c.snapshot.windows, missing[0].window) && AllHeld(c.snapshot, Except(missing, 0))
    ensures Existing(c, d, missing[0].window).Some?
    ensures FillSession(c, d, name, missing)
         == AddLinks(c, Linking(Planted(c, d, name, missing[0]).draft, None), name, Except(missing, 0)).draft
  {
    HeldParts(c.snapshot, missing, 0);
    ExceptFirst(missing);
    var o := OpenSession(c, d, name, missing);
    AddLinksStep(c, Linking(CloseScratch(o.draft, name), Some(o.window)), name, missing);
    var l := Planted(c, d, name, missing[0]);
    assert Existing(c, CloseScratch(o.draft, name), missing[0].window) == Existing(c, d, missing[0].window);
    assert l == Linking(l.draft, None);
  }

  lemma SeedFills(w: World, d: Draft, m: Machine, name: Text, missing: seq<Lack>) returns (after: Machine)
    requires Lacked(w, d, m, name, missing) && Coherent(w.c.snapshot) && AllHeld(w.c.snapshot, missing)
    requires LiveSession(w.c, name).None? && |missing| > 0 && Seed(w.c, d, missing).Some?
    ensures Follows(w, FillSession(w.c, d, name, missing), after) && Filled(w, m, after, name, missing)
    ensures FillSession(w.c, d, name, missing).scratch.None? && |FillSession(w.c, d, name, missing).steps| > |d.steps|
  {
    hide WorldOk, Follows, Coherent, Apart, Filled, Started, Unopened, T.WellFormed, AddLinks, Existing, AllHeld, Furnish,
         FillSession, CloseScratch, Begun, ValidWindow, WindowOf, Except;
    var at := Seed(w.c, d, missing).value;
    FollowsIsWellFormed(w, d, m);
    SeededIsFill(w.c, d, name, missing);
    var saved := WindowOf(w.c.snapshot, missing[at].window);
    var n := SeedRuns(w, d, m, name, missing[at], saved);
    after := StartedRuns(w, Seeded(w.c, d, name, saved, missing[at].index), m, n, name, missing, at);
  }

  /** The draft once session `name` has been made around `saved`, and `saved` is
      whole. */
  function Seeded(c: Context, d: Draft, name: Text, saved: Window, index: Index): Draft
    requires ValidWindow(saved) && |saved.panes| > 0
  {
    Furnish(c, CloseScratch(Begun(d, name, saved, index), name), saved, d.refs, d.refs)
  }

  lemma SeededIsFill(c: Context, d: Draft, name: Text, missing: seq<Lack>)
    requires Coherent(c.snapshot) && AllHeld(c.snapshot, missing)
    requires LiveSession(c, name).None? && |missing| > 0 && Seed(c, d, missing).Some?
    ensures var at := Seed(c, d, missing).value;
            && Existing(c, d, missing[at].window).None? && AllHeld(c.snapshot, Except(missing, at))
            && HoldsWindow(c.snapshot.windows, missing[at].window)
            && var saved := WindowOf(c.snapshot, missing[at].window);
            && ValidWindow(saved) && |saved.panes| > 0
            && FillSession(c, d, name, missing)
               == AddLinks(c, Linking(Seeded(c, d, name, saved, missing[at].index), None), name, Except(missing, at)).draft
  {
    var at := Seed(c, d, missing).value;
    assert Existing(c, d, missing[at].window).None?;
    hide Coherent, Existing, AddLinks, AllHeld, Furnish;
    HeldParts(c.snapshot, missing, at);
    SavedIsValid(c, d, missing[at].window);
    assert |WindowOf(c.snapshot, missing[at].window).panes| > 0;
  }

  lemma HeldParts(s: Snapshot, missing: seq<Lack>, at: nat)
    requires AllHeld(s, missing) && at < |missing|
    ensures HoldsWindow(s.windows, missing[at].window) && AllHeld(s, Except(missing, at))
  {
    forall k | 0 <= k < |missing| - 1 ensures HoldsWindow(s.windows, Except(missing, at)[k].window) {
      assert Except(missing, at)[k] == if k < at then missing[k] else missing[k + 1];
    }
  }

  lemma ExceptFirst(missing: seq<Lack>)
    requires |missing| > 0
    ensures Except(missing, 0) == missing[1..]
  {}

  lemma AddLinksStep(c: Context, l: Linking, name: Text, missing: seq<Lack>)
    requires Coherent(c.snapshot) && AllHeld(c.snapshot, missing) && |missing| > 0
    ensures HoldsWindow(c.snapshot.windows, missing[0].window) && AllHeld(c.snapshot, missing[1..])
    ensures AddLinks(c, l, name, missing) == AddLinks(c, AddLink(c, l, name, missing[0]), name, missing[1..])
  {
    HeldParts(c.snapshot, missing, 0);
    ExceptFirst(missing);
  }

  lemma LackRuns(w: World, d: Draft, m: Machine, name: Text, missing: seq<Lack>) returns (after: Machine)
    requires Lacked(w, d, m, name, missing) && Coherent(w.c.snapshot) && AllHeld(w.c.snapshot, missing)
    requires LiveSession(w.c, name).None? && |missing| > 0
    ensures Follows(w, FillSession(w.c, d, name, missing), after) && Filled(w, m, after, name, missing)
    ensures FillSession(w.c, d, name, missing).scratch.None? && |FillSession(w.c, d, name, missing).steps| > |d.steps|
  {
    hide *;
    if Seed(w.c, d, missing).Some? {
      after := SeedFills(w, d, m, name, missing);
    } else {
      after := PlaceholderFills(w, d, m, name, missing);
    }
  }

  /** Either way the session ends up linking everything it lacked. */
  lemma FillRuns(w: World, d: Draft, m: Machine, name: Text, missing: seq<Lack>) returns (after: Machine)
    requires WorldOk(w) && Follows(w, d, m) && Coherent(w.c.snapshot) && AllHeld(w.c.snapshot, missing) && Apart(missing)
    requires Some(name) != w.scratch && d.scratch != Some(name)
    requires LiveSession(w.c, name).None? ==> |missing| > 0 && Unopened(m.server, name) && name !in w.start.sessions
    requires LiveSession(w.c, name).Some? ==> name in m.server.sessions && Free(m.server, name, missing)
    ensures var e := FillSession(w.c, d, name, missing);
            && Follows(w, e, after) && e.scratch.None? && |e.steps| >= |d.steps| + (if |missing| > 0 then 1 else 0)
    ensures Filled(w, m, after, name, missing)
  {
    hide WorldOk, Follows, Coherent, Apart, Filled, Free, Unopened, AddLinks, AllHeld;
    if LiveSession(w.c, name).Some? {
      after := ExtendRuns(w, d, m, name, missing);
    } else {
      after := LackRuns(w, d, m, name, missing);
    }
  }

  // ---- A session's closing steps ----

  /** Only what the session shows and its mark differ. */
  ghost predicate Finishes(w: World, m: Machine, n: Machine, saved: Session) {
    && n.bound == m.bound
    && n.server == m.server.(shown := n.server.shown, restored := n.server.restored)
    && (forall k :: k in m.server.shown && k != saved.name ==> k in n.server.shown && n.server.shown[k] == m.server.shown[k])
    && (forall k :: k != saved.name ==> (k in n.server.restored <==> k in m.server.restored)
                                        && (k in m.server.restored ==> n.server.restored[k] == m.server.restored[k]))
  }

  lemma ShowStep(w: World, m: Machine, saved: Session) returns (n: Machine)
    requires Safe(w, m.server) && saved.name !in w.start.sessions
    requires saved.name in m.server.sessions && T.Slot(saved.name, saved.active) in m.server.links
    ensures RunStep(m, SelectWindow(saved.name, saved.active)) == Ran(n) && Safe(w, n.server) && Finishes(w, m, n, saved)
    ensures saved.name in n.server.shown && n.server.shown[saved.name] == saved.active
    ensures n.server.restored == m.server.restored
  {
    var t := m.server.(shown := m.server.shown[saved.name := saved.active]);
    n := m.(server := t);
    hide Safe;
    FieldsKeep(w, m.server, t);
  }

  lemma MarkStep(w: World, m: Machine, saved: Session, g: Generation) returns (n: Machine)
    requires Safe(w, m.server) && saved.name in m.server.sessions
    ensures RunStep(m, SetOption(SessionMark(saved.name, g))) == Ran(n) && Safe(w, n.server) && Finishes(w, m, n, saved)
    ensures saved.name in n.server.restored && n.server.restored[saved.name] == g
    ensures n.server.shown == m.server.shown
  {
    var t := m.server.(restored := m.server.restored[saved.name := g]);
    n := m.(server := t);
    hide Safe;
    FieldsKeep(w, m.server, t);
  }

  lemma FinishBooks(w: World, d: Draft, m: Machine, e: Draft, n: Machine, saved: Session)
    requires Bookkeeping(w, d, m) && Finishes(w, m, n, saved) && e == d.(steps := e.steps)
    ensures Bookkeeping(w, e, n)
  {}

  lemma ShowRuns(w: World, d: Draft, m: Machine, saved: Session) returns (n: Machine)
    requires Follows(w, d, m) && saved.name in m.server.sessions
    requires LiveSession(w.c, saved.name).None? ==>
               saved.name !in w.start.sessions && T.Slot(saved.name, saved.active) in m.server.links
    ensures Follows(w, Shown(w.c, d, saved), n) && Finishes(w, m, n, saved)
    ensures LiveSession(w.c, saved.name).None? ==> saved.name in n.server.shown && n.server.shown[saved.name] == saved.active
    ensures n.server.restored == m.server.restored
  {
    hide Safe, Runs, Bookkeeping, RunStep, Exec, Finishes;
    if LiveSession(w.c, saved.name).None? {
      RunsToSafe(w, d.steps, m);
      n := ShowStep(w, m, saved);
      Push(w, d.steps, m, SelectWindow(saved.name, saved.active), n);
      FinishBooks(w, d, m, Shown(w.c, d, saved), n, saved);
    } else {
      n := m;
      FinishesSelf(w, m, saved);
    }
  }

  lemma FinishesSelf(w: World, m: Machine, saved: Session)
    ensures Finishes(w, m, m, saved)
  {}

  lemma FinishesChain(w: World, m: Machine, n: Machine, o: Machine, saved: Session)
    requires Finishes(w, m, n, saved) && Finishes(w, n, o, saved)
    ensures Finishes(w, m, o, saved)
  {}

  lemma FinishRuns(w: World, d: Draft, m: Machine, saved: Session, before: nat) returns (n: Machine)
    requires Follows(w, d, m) && saved.name in m.server.sessions
    requires LiveSession(w.c, saved.name).None? ==>
               saved.name !in w.start.sessions && T.Slot(saved.name, saved.active) in m.server.links
    ensures Follows(w, FinishSession(w.c, d, saved, before), n) && Finishes(w, m, n, saved)
    ensures LiveSession(w.c, saved.name).None? ==> saved.name in n.server.shown && n.server.shown[saved.name] == saved.active
    ensures Unfinished(w.c) || |Shown(w.c, d, saved).steps| > before ==>
              saved.name in n.server.restored && n.server.restored[saved.name] == w.c.generation
    ensures !(Unfinished(w.c) || |Shown(w.c, d, saved).steps| > before) ==> n.server.restored == m.server.restored
  {
    hide Safe, Runs, Bookkeeping, RunStep, Exec, Finishes;
    var o := ShowRuns(w, d, m, saved);
    var shown := Shown(w.c, d, saved);
    n := o;
    if Unfinished(w.c) || |shown.steps| > before {
      RunsToSafe(w, shown.steps, o);
      FinishesKeepsName(w, m, o, saved);
      n := MarkStep(w, o, saved, w.c.generation);
      Push(w, shown.steps, o, SetOption(SessionMark(saved.name, w.c.generation)), n);
      FinishBooks(w, shown, o, FinishSession(w.c, d, saved, before), n, saved);
      FinishesChain(w, m, o, n, saved);
    }
  }

  lemma FinishesKeepsName(w: World, m: Machine, n: Machine, saved: Session)
    requires Finishes(w, m, n, saved)
    ensures n.server.sessions == m.server.sessions
  {}

  // ---- How many steps a session takes ----

  lemma {:induction false} AddLinksGrow(c: Context, l: Linking, name: Text, missing: seq<Lack>)
    requires Coherent(c.snapshot) && AllHeld(c.snapshot, missing)
    ensures |AddLinks(c, l, name, missing).draft.steps| >= |l.draft.steps| + |missing|
    decreases |missing|
  {
    if |missing| > 0 {
      AddLinksStep(c, l, name, missing);
      AddLinksGrow(c, AddLink(c, l, name, missing[0]), name, missing[1..]);
    }
  }

  lemma FillSteps(c: Context, d: Draft, name: Text, missing: seq<Lack>)
    requires Coherent(c.snapshot) && AllHeld(c.snapshot, missing) && d.scratch.None?
    requires LiveSession(c, name).None? ==> |missing| > 0
    ensures var e := FillSession(c, d, name, missing);
            && e.scratch.None? && |e.steps| >= |d.steps| + |missing|
            && (LiveSession(c, name).Some? && missing == [] ==> e.steps == d.steps)
  {
    hide Coherent;
    if LiveSession(c, name).Some? {
      AddLinksGrow(c, Linking(d, None), name, missing);
      AddLinksScratch(c, Linking(d, None), name, missing);
    } else {
      var o := OpenSession(c, d, name, missing);
      match o.seed
      case None =>
        AddLinksGrow(c, Linking(o.draft, Some(o.window)), name, o.missing);
        AddLinksScratch(c, Linking(o.draft, Some(o.window)), name, o.missing);
      case Some(id) =>
        SavedIsValid(c, d, id);
        var e := Furnish(c, o.draft, WindowOf(c.snapshot, id), o.window, o.pane);
        AddLinksGrow(c, Linking(e, None), name, o.missing);
        AddLinksScratch(c, Linking(e, None), name, o.missing);
    }
  }

  lemma {:induction false} AddLinksScratch(c: Context, l: Linking, name: Text, missing: seq<Lack>)
    requires Coherent(c.snapshot) && AllHeld(c.snapshot, missing)
    ensures AddLinks(c, l, name, missing).draft.scratch == l.draft.scratch
    decreases |missing|
  {
    if |missing| > 0 {
      AddLinksStep(c, l, name, missing);
      AddLinksScratch(c, AddLink(c, l, name, missing[0]), name, missing[1..]);
    }
  }

  // ---- One whole session ----

  lemma LackingIsApart(c: Context, saved: Session, links: seq<WinLink>)
    requires ValidSession(saved)
    ensures Apart(Lacking(c, saved, links))
    ensures forall k, n :: 0 <= k < |Lacking(c, saved, links)| && 0 <= n < |links|
                           ==> Lacking(c, saved, links)[k].index != links[n].index
  {
    var wanted := Wanted(c, saved);
    assert M.DistinctWants(wanted);
    M.LandingsAreFree(wanted, links);
  }

  lemma LackingIsFree(w: World, s: Server, saved: Session)
    requires WorldOk(w) && ValidSession(saved) && Untouched(w, s, saved.name)
    ensures Free(s, saved.name, Lacking(w.c, saved, LiveLinks(w.c, saved.name)))
  {
    hide WorldOk;
    var links := LiveLinks(w.c, saved.name);
    LackingIsApart(w.c, saved, links);
    LiveLinksListed(w, saved.name);
    ListedElsewhereIsFree(w, s, saved.name, links, Lacking(w.c, saved, links));
  }

  lemma ListedElsewhereIsFree(w: World, s: Server, name: Text, links: seq<WinLink>, missing: seq<Lack>)
    requires T.Lists(links, w.start.links, name) && Untouched(w, s, name) && Apart(missing)
    requires forall k, n :: 0 <= k < |missing| && 0 <= n < |links| ==> missing[k].index != links[n].index
    ensures Free(s, name, missing)
  {
    forall k | 0 <= k < |missing| ensures T.Slot(name, missing[k].index) !in s.links {
      if HasIndex(links, missing[k].index) { assert false; }
    }
  }

  lemma StartIsHeld(w: World, s: Server, name: Text, id: Id)
    requires Safe(w, s) && T.WellFormed(w.start) && Some(name) != w.scratch
    ensures Held(w, w.start, name, id) <= Held(w, s, name, id)
    ensures |Held(w, w.start, name, id)| <= |Held(w, s, name, id)|
  {
    hide StampsWhole;
    Subset(Held(w, w.start, name, id), Held(w, s, name, id));
  }

  /** Every link the snapshot gave the session is there once it is filled. */
  lemma FilledIsDone(w: World, m: Machine, after: Machine, saved: Session)
    requires WorldOk(w) && Safe(w, m.server) && LinksResolve(w.c.snapshot.windows, saved) && Some(saved.name) != w.scratch
    requires Filled(w, m, after, saved.name, Lacking(w.c, saved, LiveLinks(w.c, saved.name)))
    ensures Done(w, after.server, saved)
  {
    StartIsWellFormed(w);
    hide WorldOk, Safe, Elsewhere, Held, T.WellFormed;
    forall id | Saved(w.c.snapshot, id)
      ensures M.LinksTo(saved.windows, id) <= |Places(w.c.generation, w.c.snapshot, after.server, saved.name, id)|
    {
      LacksMakeUp(w, saved, id);
      StartIsHeld(w, m.server, saved.name, id);
    }
  }

  lemma FinishedIsDone(w: World, m: Machine, n: Machine, saved: Session)
    requires Finishes(w, m, n, saved) && Done(w, m.server, saved)
    ensures Done(w, n.server, saved)
    ensures Placed(w, m.server, saved) ==> Placed(w, n.server, saved)
  {
    if Placed(w, m.server, saved) { PlacedStays(w, m.server, n.server, saved); }
    hide Placed;
    forall id ensures Places(w.c.generation, w.c.snapshot, n.server, saved.name, id)
                   == Places(w.c.generation, w.c.snapshot, m.server, saved.name, id) {}
  }

  lemma FinishedElsewhere(w: World, m: Machine, n: Machine, o: Machine, saved: Session)
    requires Elsewhere(w, m.server, n.server, saved.name) && Finishes(w, n, o, saved)
    ensures Elsewhere(w, m.server, o.server, saved.name)
  {}

  /** Whether a plan owes this session any step, and so its mark. */
  predicate Owed(c: Context, saved: Session) {
    Unfinished(c) || LiveSession(c, saved.name).None? || Lacking(c, saved, LiveLinks(c, saved.name)) != []
  }

  /** Each link the session lacked is where it was to land and holds its saved
      window, and every other link of the session was there at the start. */
  ghost predicate Placed(w: World, s: Server, saved: Session) {
    var missing := Lacking(w.c, saved, LiveLinks(w.c, saved.name));
    && (forall k :: 0 <= k < |missing| ==> LandedAt(w, s, saved.name, missing[k]))
    && GainsOnly(w.start, s, saved.name, missing)
  }

  lemma FilledIsPlaced(w: World, m: Machine, after: Machine, saved: Session)
    requires Untouched(w, m.server, saved.name)
    requires Filled(w, m, after, saved.name, Lacking(w.c, saved, LiveLinks(w.c, saved.name)))
    ensures Placed(w, after.server, saved)
  {
    hide Lacking, LiveLinks, Elsewhere, Held, LandedAt, LandsAt;
  }

  /** A session is placed as long as its links and its windows' stamps are kept. */
  lemma PlacedStays(w: World, s: Server, t: Server, saved: Session)
    requires Placed(w, s, saved) && t.origin == s.origin
    requires forall at: T.Slot :: at.session == saved.name ==> (at in s.links <==> at in t.links)
    requires forall at: T.Slot :: at.session == saved.name && at in s.links ==>
               t.links[at] == s.links[at]
               && (s.links[at] in s.windows && s.windows[s.links[at]].made.ByPhoenix? ==>
                     s.links[at] in t.windows && t.windows[s.links[at]].made == s.windows[s.links[at]].made)
               && (s.links[at] in s.windows ==> s.links[at] in t.windows)
    ensures Placed(w, t, saved)
  {
    hide Lacking, LiveLinks, LandsAt;
    var missing := Lacking(w.c, saved, LiveLinks(w.c, saved.name));
    forall k | 0 <= k < |missing| ensures LandedAt(w, t, saved.name, missing[k]) {
      assert LandedAt(w, s, saved.name, missing[k]);
    }
  }

  /** The first saved session a plan can target. */
  predicate Leads(snapshot: Snapshot, saved: Session) {
    var at := Find(snapshot.sessions, (x: Session) => Addressable(x.name));
    at.Some? && snapshot.sessions[at.value] == saved
  }

  /** The session the scratch's clients are moved onto. */
  predicate ClosesScratch(w: World, saved: Session) {
    w.scratch.Some? && Leads(w.c.snapshot, saved)
  }

  /** How one session is left: complete, placed, showing what it was saved
      showing if the plan made it, and marked exactly when a step was owed it. */
  ghost predicate Settled(w: World, s: Server, saved: Session) {
    && Done(w, s, saved)
    && Placed(w, s, saved)
    && (LiveSession(w.c, saved.name).None? ==> saved.name in s.shown && s.shown[saved.name] == saved.active)
    && (Owed(w.c, saved) || ClosesScratch(w, saved) ==> saved.name in s.restored && s.restored[saved.name] == w.c.generation)
    && (!Owed(w.c, saved) && !ClosesScratch(w, saved) ==>
          (saved.name in s.restored <==> saved.name in w.start.restored)
          && (saved.name in s.restored ==> s.restored[saved.name] == w.start.restored[saved.name]))
  }

  ghost predicate Reachable(w: World, d: Draft, m: Machine, saved: Session) {
    && WorldOk(w) && Follows(w, d, m) && Untouched(w, m.server, saved.name)
    && saved in w.c.snapshot.sessions && Addressable(saved.name)
  }

  lemma UntouchedIsUnopened(w: World, s: Server, name: Text)
    requires WorldOk(w) && Untouched(w, s, name) && LiveSession(w.c, name).None?
    ensures Unopened(s, name) && name !in w.start.sessions
  {
    LiveLinksListed(w, name);
  }

  lemma UntouchedIsLive(w: World, s: Server, name: Text)
    requires WorldOk(w) && Untouched(w, s, name) && LiveSession(w.c, name).Some?
    ensures name in s.sessions
  {
    LiveLinksListed(w, name);
  }

  lemma SavedIsNotScratch(w: World, d: Draft, m: Machine, saved: Session)
    requires WorldOk(w) && saved in w.c.snapshot.sessions && Bookkeeping(w, d, m)
    ensures Some(saved.name) != w.scratch && d.scratch != Some(saved.name)
    ensures ValidSession(saved) && LinksResolve(w.c.snapshot.windows, saved) && Coherent(w.c.snapshot)
  {
    hide Ready, T.Captures, ValidWindow;
    var k :| 0 <= k < |w.c.snapshot.sessions| && w.c.snapshot.sessions[k] == saved;
    assert HoldsSession(w.c.snapshot.sessions, saved.name);
  }

  /** The draft of `saved` before its closing steps. */
  function Noted(c: Context, d: Draft, saved: Session): Draft {
    var greeted := if LiveSession(c, saved.name).Some? then d.notes + [SessionPresent(saved.name)] else d.notes;
    d.(notes := greeted + LackingNotes(c, saved.name, saved, LiveLinks(c, saved.name)))
  }

  lemma FillPhase(w: World, d: Draft, m: Machine, saved: Session) returns (n: Machine)
    requires Reachable(w, d, m, saved) && Coherent(w.c.snapshot)
    ensures var missing := Lacking(w.c, saved, LiveLinks(w.c, saved.name));
            && AllHeld(w.c.snapshot, missing) && (LiveSession(w.c, saved.name).None? ==> |missing| > 0)
            && var e := FillSession(w.c, Noted(w.c, d, saved), saved.name, missing);
            && Follows(w, e, n) && e.scratch.None? && Filled(w, m, n, saved.name, missing)
            && |e.steps| >= |d.steps| + (if |missing| > 0 then 1 else 0)
  {
    hide WorldOk, Safe, Runs, Bookkeeping, Untouched, Filled, Free, Unopened, Coherent, Apart;
    var links := LiveLinks(w.c, saved.name);
    var missing := Lacking(w.c, saved, links);
    SavedIsNotScratch(w, d, m, saved);
    LackingIsKnown(w.c, saved, links);
    LackingIsApart(w.c, saved, links);
    LackingIsFree(w, m.server, saved);
    StepsAreNotBooks(w, d, Noted(w.c, d, saved), m);
    if LiveSession(w.c, saved.name).None? {
      UntouchedIsUnopened(w, m.server, saved.name);
    } else {
      UntouchedIsLive(w, m.server, saved.name);
    }
    n := FillRuns(w, Noted(w.c, d, saved), m, saved.name, missing);
  }

  lemma ActiveLands(w: World, n: Machine, m: Machine, saved: Session)
    requires ValidSession(saved) && LiveSession(w.c, saved.name).None?
    requires Filled(w, m, n, saved.name, Lacking(w.c, saved, LiveLinks(w.c, saved.name)))
    ensures T.Slot(saved.name, saved.active) in n.server.links
  {
    hide Elsewhere, Held, Lacking;
    var i :| 0 <= i < |saved.windows| && saved.windows[i].index == saved.active;
    LacksItAll(w.c, saved);
    assert LandedAt(w, n.server, saved.name, Lacking(w.c, saved, [])[i]);
  }

  /** A session nothing of which is live lacks each of its links, each at the
      index it was saved at, in the order saved. */
  lemma LacksItAll(c: Context, saved: Session)
    ensures Lacking(c, saved, []) == seq(|saved.windows|, i requires 0 <= i < |saved.windows| =>
              Lack(saved.windows[i].index, saved.windows[i].window))
  {
    var wanted := Wanted(c, saved);
    var linked := M.Pair(wanted, []).linked;
    forall i: nat | i < |wanted| ensures !linked[i] { NothingLiveAllMissing(wanted, i); }
    assert M.LiveIndices([]) == {};
    AllLandAtTheirOwn(wanted, linked, |wanted|);
  }

  lemma {:induction false} AllLandAtTheirOwn(wanted: seq<M.Want>, linked: seq<bool>, n: nat)
    requires n <= |wanted| == |linked| && forall i :: 0 <= i < n ==> !linked[i]
    ensures M.LandAll(wanted, linked, {}, n).missing
         == seq(n, i requires 0 <= i < n => M.Landed(i, wanted[i].index))
  {
    if n > 0 { AllLandAtTheirOwn(wanted, linked, n - 1); }
  }

  lemma NothingLiveAllMissing(wanted: seq<M.Want>, i: nat)
    requires i < |wanted|
    ensures !M.Pair(wanted, []).linked[i]
  {
    M.PairConserves(wanted, []);
    if M.Pair(wanted, []).linked[i] {
      var v := wanted[i].live.value;
      NothingAnswered(wanted, M.Pair(wanted, []).linked, v, i, |wanted|);
      assert M.LinksTo([], v) == 0;
    }
  }

  /** Moving the scratch's clients is a step too. */
  lemma ScratchTakesSteps(c: Context, d: Draft, name: Text, missing: seq<Lack>)
    requires Coherent(c.snapshot) && AllHeld(c.snapshot, missing) && d.scratch.Some? && LiveSession(c, name).Some?
    ensures |FillSession(c, d, name, missing).steps| > |d.steps|
  {
    hide Coherent, AddLinks;
    AddLinksGrow(c, Linking(CloseScratch(d, name), None), name, missing);
  }

  lemma MustMark(c: Context, d: Draft, saved: Session, missing: seq<Lack>, e: Draft)
    requires Coherent(c.snapshot) && AllHeld(c.snapshot, missing) && (LiveSession(c, saved.name).None? ==> |missing| > 0)
    requires missing == Lacking(c, saved, LiveLinks(c, saved.name))
    requires e == FillSession(c, Noted(c, d, saved), saved.name, missing)
    requires |e.steps| >= |d.steps| + (if |missing| > 0 then 1 else 0)
    requires Owed(c, saved) || d.scratch.Some?
    ensures Unfinished(c) || |Shown(c, e, saved).steps| > |d.steps|
  {
    hide Coherent, FillSession, Lacking, LiveLinks, Unfinished;
    if d.scratch.Some? && LiveSession(c, saved.name).Some? {
      ScratchTakesSteps(c, Noted(c, d, saved), saved.name, missing);
    }
  }

  lemma SessionRuns(w: World, d: Draft, m: Machine, saved: Session) returns (n: Machine)
    requires Reachable(w, d, m, saved) && Coherent(w.c.snapshot) && saved in w.c.snapshot.sessions
    requires d.scratch.Some? <==> ClosesScratch(w, saved)
    ensures var e := DraftSession(w.c, d, saved);
            Follows(w, e, n) && e.scratch.None? && Elsewhere(w, m.server, n.server, saved.name)
    ensures Settled(w, n.server, saved)
  {
    hide WorldOk, Safe, Follows, Reachable, Filled, Coherent, FillSession, Settled, Elsewhere, ClosesScratch, DraftSession,
         FinishSession, Lacking, LiveLinks, LiveSession, Noted;
    var o := FillPhase(w, d, m, saved);
    n := FinishPhase(w, d, m, saved, o);
    ReachableIsKnown(w, d, m, saved);
    DraftIsFinished(w.c, d, saved);
  }

  lemma ReachableIsKnown(w: World, d: Draft, m: Machine, saved: Session)
    requires Reachable(w, d, m, saved)
    ensures WorldOk(w) && Follows(w, d, m) && Addressable(saved.name) && saved in w.c.snapshot.sessions
  {}

  lemma DraftIsFinished(c: Context, d: Draft, saved: Session)
    requires Coherent(c.snapshot) && saved in c.snapshot.sessions && Addressable(saved.name)
    requires var missing := Lacking(c, saved, LiveLinks(c, saved.name));
             AllHeld(c.snapshot, missing) && (LiveSession(c, saved.name).None? ==> |missing| > 0)
    ensures DraftSession(c, d, saved)
         == FinishSession(c, FillSession(c, Noted(c, d, saved), saved.name, Lacking(c, saved, LiveLinks(c, saved.name))),
                          saved, |d.steps|)
  {
    hide Coherent, FillSession, Lacking, LackingNotes, FinishSession, AllHeld;
  }

  /** The closing steps of a session that is filled. */
  lemma FinishPhase(w: World, d: Draft, m: Machine, saved: Session, o: Machine) returns (n: Machine)
    requires Reachable(w, d, m, saved) && Coherent(w.c.snapshot)
    requires d.scratch.Some? <==> ClosesScratch(w, saved)
    requires var missing := Lacking(w.c, saved, LiveLinks(w.c, saved.name));
             && AllHeld(w.c.snapshot, missing) && (LiveSession(w.c, saved.name).None? ==> |missing| > 0)
             && var e := FillSession(w.c, Noted(w.c, d, saved), saved.name, missing);
             && Follows(w, e, o) && e.scratch.None? && Filled(w, m, o, saved.name, missing)
             && |e.steps| >= |d.steps| + (if |missing| > 0 then 1 else 0)
    ensures var e := FillSession(w.c, Noted(w.c, d, saved), saved.name, Lacking(w.c, saved, LiveLinks(w.c, saved.name)));
            var f := FinishSession(w.c, e, saved, |d.steps|);
            Follows(w, f, n) && f.scratch.None? && Elsewhere(w, m.server, n.server, saved.name)
    ensures Settled(w, n.server, saved)
  {
    hide WorldOk, Safe, Follows, Reachable, Filled, Coherent, Finishes, FillSession, Done, Placed, Untouched, Elsewhere,
         Owed, ClosesScratch, Lacking, LiveLinks, LiveSession, Noted, Unfinished;
    var missing := Lacking(w.c, saved, LiveLinks(w.c, saved.name));
    var e := FillSession(w.c, Noted(w.c, d, saved), saved.name, missing);
    FilledPhase(w, d, m, saved, o);
    n := FinishRuns(w, e, o, saved, |d.steps|);
    FinishedIsDone(w, o, n, saved);
    FinishedElsewhere(w, m, o, n, saved);
    if Owed(w.c, saved) || d.scratch.Some? {
      MustMark(w.c, d, saved, missing, e);
    } else {
      OwesNothing(w.c, saved);
      NothingOwed(w, d, m, e, o, saved);
    }
  }

  /** What filling a session comes to. */
  lemma FilledPhase(w: World, d: Draft, m: Machine, saved: Session, o: Machine)
    requires Reachable(w, d, m, saved)
    requires Filled(w, m, o, saved.name, Lacking(w.c, saved, LiveLinks(w.c, saved.name)))
    ensures Done(w, o.server, saved) && Placed(w, o.server, saved) && saved.name in o.server.sessions
    ensures Elsewhere(w, m.server, o.server, saved.name)
    ensures LiveSession(w.c, saved.name).None? ==>
              saved.name !in w.start.sessions && T.Slot(saved.name, saved.active) in o.server.links
  {
    hide WorldOk, Safe, Follows, Done, Placed, Untouched, Elsewhere, Lacking, LiveLinks, LiveSession, Held, LandedAt, GainsOnly;
    FollowsIsWellFormed(w, d, m);
    FollowsBooks(w, d, m);
    SavedIsNotScratch(w, d, m, saved);
    FilledIsDone(w, m, o, saved);
    FilledIsPlaced(w, m, o, saved);
    if LiveSession(w.c, saved.name).None? {
      ActiveLands(w, o, m, saved);
      ReachableIsUnopened(w, d, m, saved);
    }
  }

  lemma OwesNothing(c: Context, saved: Session)
    requires !Owed(c, saved)
    ensures Lacking(c, saved, LiveLinks(c, saved.name)) == []
  {}

  lemma NothingOwed(w: World, d: Draft, m: Machine, e: Draft, o: Machine, saved: Session)
    requires Reachable(w, d, m, saved) && Follows(w, e, o) && Coherent(w.c.snapshot) && d.scratch.None? && !Owed(w.c, saved)
    requires AllHeld(w.c.snapshot, Lacking(w.c, saved, LiveLinks(w.c, saved.name)))
    requires e == FillSession(w.c, Noted(w.c, d, saved), saved.name, [])
    ensures e.steps == d.steps && !Unfinished(w.c) && |Shown(w.c, e, saved).steps| == |d.steps|
    ensures (saved.name in o.server.restored <==> saved.name in w.start.restored)
            && (saved.name in o.server.restored ==> o.server.restored[saved.name] == w.start.restored[saved.name])
  {
    hide WorldOk, Safe, Coherent, Exec, SafeAfter;
    FillSteps(w.c, Noted(w.c, d, saved), saved.name, []);
    assert o == m;
  }

  lemma FollowsBooks(w: World, d: Draft, m: Machine)
    requires Follows(w, d, m)
    ensures Bookkeeping(w, d, m)
  {}

  lemma ReachableIsUnopened(w: World, d: Draft, m: Machine, saved: Session)
    requires Reachable(w, d, m, saved) && LiveSession(w.c, saved.name).None?
    ensures saved.name !in w.start.sessions
  {
    hide Follows;
    UntouchedIsUnopened(w, m.server, saved.name);
  }
}
