/** Running every step between a saved session's first and its closing ones. */
module Filling {
  import opened Wrappers
  import opened Snapshots
  import opened Steps
  import opened Planner
  import opened Applying
  import opened Safety
  import opened Furnishing
  import opened Sessions
  import opened Opening
  import T = Tmux

  /** What adding `missing` to session `name`, there or not, comes to. */
  ghost predicate Filled(w: World, m: Machine, after: Machine, name: Text, missing: seq<Lack>) {
    && Elsewhere(w, m.server, after.server, name)
    && name in after.server.sessions
    && (forall k :: 0 <= k < |missing| ==> LandedAt(w, after.server, name, missing[k]))
    && GainsOnly(m.server, after.server, name, missing)
    && (forall id :: Saved(w.c.snapshot, id) ==>
          |Held(w, after.server, name, id)| >= |Held(w, m.server, name, id)| + LackCount(missing, id))
  }

  lemma ClosingKeepsHeld(w: World, d: Draft, m: Machine, n: Machine, name: Text, id: Id)
    requires MaybeCloses(d, m, n) && d.scratch != Some(name) && T.WellFormed(m.server) && n.server.origin == m.server.origin
    ensures Held(w, n.server, name, id) == Held(w, m.server, name, id)
    ensures forall at: T.Slot :: at.session == name ==> (at in n.server.links <==> at in m.server.links)
    ensures name in m.server.sessions ==> name in n.server.sessions
  {}

  // ---- Into a session the server holds ----

  lemma AddedFills(w: World, d: Draft, m: Machine, n: Machine, after: Machine, name: Text, missing: seq<Lack>)
    requires MaybeCloses(d, m, n) && d.scratch != Some(name) && T.WellFormed(m.server) && name in m.server.sessions
    requires Elsewhere(w, m.server, n.server, name) && Added(w, n, after, name, missing)
    ensures Filled(w, m, after, name, missing)
  {
    ElsewhereChains(w, m.server, n.server, after.server, name);
    assert n.server.origin == m.server.origin;
    hide Elsewhere;
    forall id { ClosingKeepsHeld(w, d, m, n, name, id); }
  }

  lemma StaysFree(d: Draft, m: Machine, n: Machine, name: Text, missing: seq<Lack>)
    requires MaybeCloses(d, m, n) && Free(m.server, name, missing)
    ensures Free(n.server, name, missing)
  {}

  lemma ExtendRuns(w: World, d: Draft, m: Machine, name: Text, missing: seq<Lack>) returns (after: Machine)
    requires WorldOk(w) && Follows(w, d, m) && Coherent(w.c.snapshot) && AllHeld(w.c.snapshot, missing)
    requires d.scratch != Some(name) && Some(name) != w.scratch
    requires name in m.server.sessions && Free(m.server, name, missing)
    ensures var e := AddLinks(w.c, Linking(CloseScratch(d, name), None), name, missing).draft;
            Follows(w, e, after) && e.scratch.None? && |e.steps| >= |d.steps| + (if |missing| > 0 then 1 else 0)
    ensures Filled(w, m, after, name, missing)
  {
    hide WorldOk, Follows, Coherent, Free, Filled, Added, Elsewhere, MaybeCloses, T.WellFormed, AddLinks;
    FollowsIsWellFormed(w, d, m);
    var n := CloseRuns(w, d, m, name);
    StaysFree(d, m, n, name, missing);
    ClosingKeepsName(w, d, m, n, name);
    after := AddLinksRun(w, CloseScratch(d, name), n, name, missing);
    AddedFills(w, d, m, n, after, name, missing);
  }

  lemma ClosingKeepsName(w: World, d: Draft, m: Machine, n: Machine, name: Text)
    requires MaybeCloses(d, m, n) && d.scratch != Some(name) && name in m.server.sessions
    ensures name in n.server.sessions
  {}

  // ---- Into a session the server lacks ----

  /** Session `name` is there with one link: the saved window `first` wants. */
  ghost predicate Started(w: World, m: Machine, n: Machine, name: Text, first: Lack) {
    && name in n.server.sessions
    && T.Slot(name, first.index) in n.server.links
    && (forall at :: at in n.server.links && at.session == name ==> at.index == first.index)
    && Answers(w.c.generation, w.c.snapshot, n.server, n.server.links[T.Slot(name, first.index)], first.window)
    && Elsewhere(w, m.server, n.server, name)
  }

  ghost predicate Apart(missing: seq<Lack>) {
    forall j, k :: 0 <= j < k < |missing| ==> missing[j].index != missing[k].index
  }

  function Except(missing: seq<Lack>, at: nat): seq<Lack>
    requires at < |missing|
  {
    missing[..at] + missing[at + 1..]
  }

  lemma {:induction false} CountExcept(missing: seq<Lack>, at: nat, id: Id)
    requires at < |missing|
    ensures LackCount(missing, id) == LackCount(Except(missing, at), id) + (if missing[at].window == id then 1 else 0)
  {
    if at == 0 {
      assert Except(missing, 0) == missing[1..];
    } else {
      CountExcept(missing[1..], at - 1, id);
      assert Except(missing, at)[1..] == Except(missing[1..], at - 1);
      assert Except(missing, at)[0] == missing[0];
    }
  }

  lemma StartedIsFree(w: World, m: Machine, n: Machine, name: Text, missing: seq<Lack>, at: nat)
    requires at < |missing| && Started(w, m, n, name, missing[at]) && Apart(missing)
    ensures Free(n.server, name, Except(missing, at))
  {
    var rest := Except(missing, at);
    forall k | 0 <= k < |rest| ensures T.Slot(name, rest[k].index) !in n.server.links {
      assert rest[k] == if k < at then missing[k] else missing[k + 1];
    }
    forall j, k | 0 <= j < k < |rest| ensures rest[j].index != rest[k].index {
      assert rest[k] == if k < at then missing[k] else missing[k + 1];
      assert rest[j] == if j < at then missing[j] else missing[j + 1];
    }
  }

  lemma StartedGains(w: World, m: Machine, n: Machine, after: Machine, name: Text, missing: seq<Lack>, at: nat)
    requires at < |missing| && Started(w, m, n, name, missing[at])
    requires GainsOnly(n.server, after.server, name, Except(missing, at))
    ensures GainsOnly(m.server, after.server, name, missing)
  {
    var rest := Except(missing, at);
    forall a: T.Slot | a.session == name && a in after.server.links ensures LandsAt(missing, a.index) {
      if a in n.server.links {
        assert missing[at].index == a.index;
      } else {
        var k :| 0 <= k < |rest| && rest[k].index == a.index;
        assert rest[k] == if k < at then missing[k] else missing[k + 1];
      }
    }
  }

  lemma StartedFills(w: World, m: Machine, n: Machine, after: Machine, name: Text, missing: seq<Lack>, at: nat)
    requires at < |missing| && Started(w, m, n, name, missing[at]) && Unopened(m.server, name)
    requires T.WellFormed(m.server) && T.WellFormed(n.server) && T.WellFormed(after.server)
    requires Added(w, n, after, name, Except(missing, at))
    ensures Filled(w, m, after, name, missing)
  {
    StartedGains(w, m, n, after, name, missing, at);
    StartedLands(w, m, n, after, name, missing, at);
    ElsewhereChains(w, m.server, n.server, after.server, name);
    hide Elsewhere, Answers, LandedAt, GainsOnly, Except, Started, Unopened, Held;
    forall id | Saved(w.c.snapshot, id)
      ensures |Held(w, after.server, name, id)| >= |Held(w, m.server, name, id)| + LackCount(missing, id)
    {
      CountExcept(missing, at, id);
      StartedHolds(w, m, n, name, missing[at], id);
    }
  }

  lemma StartedIsLanded(w: World, m: Machine, n: Machine, name: Text, first: Lack)
    requires Started(w, m, n, name, first)
    ensures LandedAt(w, n.server, name, first)
  {}

  lemma LandedIsLinked(w: World, s: Server, name: Text, lack: Lack)
    requires LandedAt(w, s, name, lack)
    ensures T.Slot(name, lack.index) in s.links
  {}

  lemma AddedKeeps(w: World, m: Machine, after: Machine, name: Text, missing: seq<Lack>)
    requires Added(w, m, after, name, missing)
    ensures forall at :: at in m.server.links ==> at in after.server.links && after.server.links[at] == m.server.links[at]
    ensures forall k :: 0 <= k < |missing| ==> LandedAt(w, after.server, name, missing[k])
    ensures Elsewhere(w, m.server, after.server, name)
  {
    hide Elsewhere, LandedAt, GainsOnly, Held, LackCount;
  }

  lemma StartedLands(w: World, m: Machine, n: Machine, after: Machine, name: Text, missing: seq<Lack>, at: nat)
    requires at < |missing| && Started(w, m, n, name, missing[at]) && Added(w, n, after, name, Except(missing, at))
    requires T.WellFormed(n.server) && T.WellFormed(after.server)
    ensures forall k :: 0 <= k < |missing| ==> LandedAt(w, after.server, name, missing[k])
  {
    hide Elsewhere, LandedAt, GainsOnly, Started, Held, T.WellFormed, Answers, Added, Saved, LackCount;
    var rest := Except(missing, at);
    StartedIsLanded(w, m, n, name, missing[at]);
    AddedKeeps(w, n, after, name, rest);
    LandedIsLinked(w, n.server, name, missing[at]);
    LandedStays(w, n.server, after.server, name, missing[at]);
    forall k | 0 <= k < |missing| ensures LandedAt(w, after.server, name, missing[k]) {
      if k < at { assert rest[k] == missing[k]; }
      if k > at { assert rest[k - 1] == missing[k]; }
    }
  }

  lemma StartedHolds(w: World, m: Machine, n: Machine, name: Text, first: Lack, id: Id)
    requires Started(w, m, n, name, first) && Unopened(m.server, name)
    ensures |Held(w, n.server, name, id)| >= |Held(w, m.server, name, id)| + (if id == first.window then 1 else 0)
  {
    hide Elsewhere, Answers;
    assert Held(w, m.server, name, id) == {};
    if id == first.window {
      Subset({T.Slot(name, first.index)}, Held(w, n.server, name, id));
    }
  }

  lemma StartedRuns(w: World, d: Draft, m: Machine, n: Machine, name: Text, missing: seq<Lack>, at: nat) returns (after: Machine)
    requires WorldOk(w) && Follows(w, d, n) && d.scratch.None? && Coherent(w.c.snapshot)
    requires T.WellFormed(m.server) && Unopened(m.server, name)
    requires at < |missing| && Apart(missing) && Started(w, m, n, name, missing[at]) && AllHeld(w.c.snapshot, Except(missing, at))
    ensures Follows(w, AddLinks(w.c, Linking(d, None), name, Except(missing, at)).draft, after)
    ensures AddLinks(w.c, Linking(d, None), name, Except(missing, at)).draft.scratch.None?
    ensures |AddLinks(w.c, Linking(d, None), name, Except(missing, at)).draft.steps| >= |d.steps|
    ensures Filled(w, m, after, name, missing)
  {
    StartedHasName(w, m, n, name, missing[at]);
    hide WorldOk, Follows, Coherent, Free, Filled, Added, Started, Unopened, T.WellFormed, AddLinks, Except, Apart;
    StartedIsFree(w, m, n, name, missing, at);
    after := AddLinksRun(w, d, n, name, Except(missing, at));
    FollowsIsWellFormed(w, d, n);
    FollowsIsWellFormed(w, AddLinks(w.c, Linking(d, None), name, Except(missing, at)).draft, after);
    StartedFills(w, m, n, after, name, missing, at);
  }

  lemma StartedHasName(w: World, m: Machine, n: Machine, name: Text, first: Lack)
    requires Started(w, m, n, name, first)
    ensures name in n.server.sessions
  {}

  // ---- Made with a window to build ----

  lemma OpenedIsFurnishable(w: World, d: Draft, m: Machine, n: Machine, name: Text, index: Index, saved: Window)
    requires ValidWindow(saved) && Opens(w, m, n, name, index, m.server.nextWindow, d.refs)
    requires Fresh(m, n, Some(saved.name), KnownCwd(saved.panes[0].cwd), d.refs)
    requires forall r :: r in m.bound.panes ==> r < d.refs
    requires forall u :: New(w, m.server, u) ==> m.server.windows[u].made != ByPhoenix(w.c.generation, saved.id)
    requires Saved(w.c.snapshot, saved.id) && WindowOf(w.c.snapshot, saved.id) == saved
    requires Present(w.c, saved.id).None?
    ensures Furnishable(w, n, d.refs, m.server.nextWindow, saved, d.refs, d.refs + 1)
  {}

  lemma ClosingKeepsFurnishable(w: World, d: Draft, n: Machine, o: Machine, at: T.Slot, v: Id, saved: Window, ref: nat)
    requires MaybeCloses(d, n, o) && d.scratch != Some(at.session)
    requires at in n.server.links && n.server.links[at] == v && v in n.server.windows
    requires Furnishable(w, n, ref, v, saved, ref, ref + 1)
    ensures Furnishable(w, o, ref, v, saved, ref, ref + 1)
  {}

  lemma FurnishedStarts(w: World, d: Draft, m: Machine, n: Machine, o: Machine, p: Machine, name: Text, v: Id, first: Lack, ref: nat, refs: nat)
    requires Unopened(m.server, name) && Opens(w, m, n, name, first.index, v, ref) && MaybeCloses(d, n, o) && d.scratch != Some(name)
    requires Elsewhere(w, n.server, o.server, name) && OnlyInside(o, p, v, refs) && Building(w, o, ref, v)
    requires p.server.windows[v].made == ByPhoenix(w.c.generation, first.window)
    requires T.WellFormed(m.server) && T.WellFormed(n.server) && T.WellFormed(o.server)
    ensures Started(w, m, p, name, first)
  {
    InsideIsElsewhere(w, o, p, v, refs, name);
    ElsewhereChains(w, n.server, o.server, p.server, name);
    ElsewhereChains(w, m.server, n.server, p.server, name);
  }

  /** The draft once session `name` has been made around `saved`. */
  function Begun(d: Draft, name: Text, saved: Window, index: Index): Draft
    requires |saved.panes| > 0
  {
    d.(steps := d.steps + [CreateSession(name, Some(saved.name), KnownCwd(saved.panes[0].cwd), d.refs, d.refs),
                           MoveWindow(d.refs, name, index)],
       refs := d.refs + 1)
  }

  lemma SeedOpens(w: World, d: Draft, m: Machine, name: Text, index: Index, saved: Window) returns (n: Machine, o: Machine)
    requires T.WellFormed(w.start) && Follows(w, d, m) && Some(name) != w.scratch && d.scratch != Some(name)
    requires Unopened(m.server, name) && name !in w.start.sessions
    requires ValidWindow(saved) && Saved(w.c.snapshot, saved.id) && WindowOf(w.c.snapshot, saved.id) == saved
    requires Existing(w.c, d, saved.id).None?
    ensures Opens(w, m, n, name, index, m.server.nextWindow, d.refs) && T.WellFormed(n.server)
    ensures MaybeCloses(Begun(d, name, saved, index), n, o) && Elsewhere(w, n.server, o.server, name)
    ensures Follows(w, CloseScratch(Begun(d, name, saved, index), name), o)
    ensures Furnishable(w, o, d.refs, m.server.nextWindow, saved, d.refs, d.refs + 1) && saved.id !in d.built
  {
    hide Follows, Unopened, Elsewhere, Opens, Fresh, MaybeCloses, T.WellFormed, Furnishable, Existing;
    n := OpenRuns(w, d, m, name, Some(saved.name), KnownCwd(saved.panes[0].cwd), index);
    var begun := Begun(d, name, saved, index);
    FollowsIsWellFormed(w, begun, n);
    SeedIsFurnishable(w, d, m, n, name, index, saved);
    OpensLinks(w, m, n, name, index, m.server.nextWindow, d.refs);
    o := CloseRuns(w, begun, n, name);
    ClosingKeepsFurnishable(w, begun, n, o, T.Slot(name, index), m.server.nextWindow, saved, d.refs);
  }

  lemma SeedRuns(w: World, d: Draft, m: Machine, name: Text, first: Lack, saved: Window) returns (after: Machine)
    requires WorldOk(w) && Follows(w, d, m)
    requires Some(name) != w.scratch && d.scratch != Some(name) && Unopened(m.server, name) && name !in w.start.sessions
    requires ValidWindow(saved) && Saved(w.c.snapshot, saved.id) && WindowOf(w.c.snapshot, saved.id) == saved
    requires first.window == saved.id && Existing(w.c, d, saved.id).None? && |saved.panes| > 0
    ensures var e := Furnish(w.c, CloseScratch(Begun(d, name, saved, first.index), name), saved, d.refs, d.refs);
            Follows(w, e, after) && e.scratch.None? && |e.steps| > |d.steps|
    ensures Started(w, m, after, name, first)
  {
    hide WorldOk, Follows, Started, Unopened, Elsewhere, Opens, MaybeCloses, T.WellFormed, Furnishable, Building,
         OnlyInside, ValidWindow, Existing, WindowOf, FurnishSteps;
    StartIsWellFormed(w);
    var n, o := SeedOpens(w, d, m, name, first.index, saved);
    var begun := Begun(d, name, saved, first.index);
    var closed := CloseScratch(begun, name);
    after := FurnishFollows(w, closed, o, m.server.nextWindow, saved);
    FurnishableBuilds(w, o, d.refs, m.server.nextWindow, saved);
    FollowsIsWellFormed(w, d, m);
    FollowsIsWellFormed(w, closed, o);
    FurnishedStarts(w, begun, m, n, o, after, name, m.server.nextWindow, first, d.refs, closed.refs + |saved.panes| - 1);
  }

  lemma OpensLinks(w: World, m: Machine, n: Machine, name: Text, index: Index, v: Id, ref: nat)
    requires Opens(w, m, n, name, index, v, ref)
    ensures T.Slot(name, index) in n.server.links && n.server.links[T.Slot(name, index)] == v && v in n.server.windows
    ensures name in n.server.sessions
  {}

  lemma SeedIsFurnishable(w: World, d: Draft, m: Machine, n: Machine, name: Text, index: Index, saved: Window)
    requires Follows(w, d, m) && ValidWindow(saved) && Saved(w.c.snapshot, saved.id)
    requires WindowOf(w.c.snapshot, saved.id) == saved && Existing(w.c, d, saved.id).None?
    requires Opens(w, m, n, name, index, m.server.nextWindow, d.refs)
    requires Fresh(m, n, Some(saved.name), KnownCwd(saved.panes[0].cwd), d.refs)
    ensures Furnishable(w, n, d.refs, m.server.nextWindow, saved, d.refs, d.refs + 1)
    ensures saved.id !in d.built
  {
    hide Runs, Furnishable, Opens, Fresh, ValidWindow;
    OpenedIsFurnishable(w, d, m, n, name, index, saved);
  }

  // ---- Made with a placeholder its first link replaces ----

  /** A new session holds just `v`, which no saved window is. */
  ghost predicate Placeheld(w: World, m: Machine, o: Machine, name: Text, index: Index, v: Id, ref: WindowRef) {
    var at := T.Slot(name, index);
    && name in o.server.sessions && at in o.server.links && o.server.links[at] == v
    && (forall a :: a in o.server.links && (a.session == name || o.server.links[a] == v) ==> a == at)
    && Building(w, o, ref, v)
    && Elsewhere(w, m.server, o.server, name)
  }

  lemma OpenedIsPlaceheld(w: World, d: Draft, m: Machine, n: Machine, o: Machine, name: Text, index: Index, v: Id, ref: WindowRef)
    requires Unopened(m.server, name) && T.WellFormed(m.server) && Opens(w, m, n, name, index, v, ref)
    requires MaybeCloses(d, n, o) && d.scratch != Some(name) && Elsewhere(w, n.server, o.server, name)
    ensures Placeheld(w, m, o, name, index, v, ref)
  {
    ElsewhereChains(w, m.server, n.server, o.server, name);
  }

  lemma PlaceholderOpens(w: World, d: Draft, m: Machine, name: Text, index: Index) returns (o: Machine)
    requires T.WellFormed(w.start) && Follows(w, d, m) && Some(name) != w.scratch && d.scratch != Some(name)
    requires Unopened(m.server, name) && name !in w.start.sessions
    ensures var begun := d.(steps := d.steps + [CreateSession(name, None, None, d.refs, d.refs), MoveWindow(d.refs, name, index)],
                            refs := d.refs + 1);
            Follows(w, CloseScratch(begun, name), o)
    ensures Placeheld(w, m, o, name, index, m.server.nextWindow, d.refs)
  {
    hide Follows, Unopened, Elsewhere, Opens, Fresh, MaybeCloses, T.WellFormed, Placeheld;
    FollowsIsWellFormed(w, d, m);
    var n := OpenRuns(w, d, m, name, None, None, index);
    var begun := d.(steps := d.steps + [CreateSession(name, None, None, d.refs, d.refs), MoveWindow(d.refs, name, index)],
                    refs := d.refs + 1);
    OpensLinks(w, m, n, name, index, m.server.nextWindow, d.refs);
    o := CloseRuns(w, begun, n, name);
    OpenedIsPlaceheld(w, begun, m, n, o, name, index, m.server.nextWindow, d.refs);
  }

  /** Nothing saved is the placeholder. */
  lemma PlaceholderAnswersNothing(w: World, o: Machine, v: Id, id: Id)
    requires WorldOk(w) && Safe(w, o.server) && New(w, o.server, v) && o.server.windows[v].made.NotByPhoenix?
    requires Saved(w.c.snapshot, id)
    ensures !Answers(w.c.generation, w.c.snapshot, o.server, v, id)
  {
    hide Unambiguous, OwnScratch, Coherent, T.Captures, T.WellFormed, OldUntouched, NothingLost, StampsWhole;
    var k :| 0 <= k < |w.c.snapshot.windows| && w.c.snapshot.windows[k].id == id;
  }

  lemma ReplacedBooks(w: World, d: Draft, m: Machine, e: Draft, n: Machine, v: Id, at: T.Slot)
    requires Bookkeeping(w, d, m) && e == d.(steps := e.steps) && at in m.server.links
    requires m.server.links[at] in m.server.windows && m.server.windows[m.server.links[at]].made.NotByPhoenix?
    requires n == m.(server := Replaced(m.server, v, at))
    ensures Bookkeeping(w, e, n)
  {}

  lemma ReplacedStarts(w: World, m: Machine, o: Machine, n: Machine, name: Text, first: Lack, v: Id, held: Id, ref: WindowRef)
    requires Placeheld(w, m, o, name, first.index, held, ref) && T.WellFormed(m.server)
    requires n == o.(server := Replaced(o.server, v, T.Slot(name, first.index)))
    requires Answers(w.c.generation, w.c.snapshot, o.server, v, first.window) && v != held
    ensures Started(w, m, n, name, first)
  {
    ElsewhereChains(w, m.server, o.server, n.server, name);
  }

  lemma ReplaceServer(w: World, m: Machine, o: Machine, name: Text, first: Lack, v: Id, held: Id, ref: WindowRef)
    requires WorldOk(w) && Safe(w, o.server) && name !in w.start.sessions && T.WellFormed(m.server)
    requires Placeheld(w, m, o, name, first.index, held, ref) && T.Slot(name, first.index) in o.server.links
    requires Saved(w.c.snapshot, first.window) && Answers(w.c.generation, w.c.snapshot, o.server, v, first.window)
    ensures var t := Replaced(o.server, v, T.Slot(name, first.index));
            && T.LinkWindow(o.server, v, name, first.index, true) == Some(t)
            && Safe(w, t) && Started(w, m, o.(server := t), name, first)
  {
    hide Safe, WorldOk, Placeheld, Started, T.WellFormed, Replaced, Elsewhere, T.LinkWindow;
    PlaceholderIsLinked(w, m, o, name, first.index, held, ref);
    PlaceholderAnswersNothing(w, o, held, first.window);
    StartLacks(w, T.Slot(name, first.index));
    ReplaceKeeps(w, o.server, v, T.Slot(name, first.index));
    ReplacedStarts(w, m, o, o.(server := Replaced(o.server, v, T.Slot(name, first.index))), name, first, v, held, ref);
  }

  lemma LinkIsRun(m: Machine, source: LinkSource, name: Text, index: Index, replacing: Option<WindowRef>)
    requires source.Built? ==> source.ref in m.bound.windows
    ensures RunStep(m, LinkWindow(source, name, index, replacing))
         == Left(m, T.LinkWindow(m.server, SourceOf(m, source), name, index, replacing.Some?))
  {}

  lemma ReplaceStep(w: World, d: Draft, m: Machine, o: Machine, name: Text, first: Lack, held: Id, ref: WindowRef)
    returns (n: Machine)
    requires WorldOk(w) && Safe(w, o.server) && Bookkeeping(w, d, o) && name !in w.start.sessions && T.WellFormed(m.server)
    requires Placeheld(w, m, o, name, first.index, held, ref)
    requires Saved(w.c.snapshot, first.window) && Existing(w.c, d, first.window).Some?
    ensures RunStep(o, LinkWindow(Existing(w.c, d, first.window).value, name, first.index, Some(ref))) == Ran(n)
    ensures Safe(w, n.server) && Bookkeeping(w, d, n) && Started(w, m, n, name, first)
  {
    hide Safe, Bookkeeping, WorldOk, Placeheld, Started, Existing, T.WellFormed, Replaced, Elsewhere, SourceOf, RunStep, T.LinkWindow;
    PlaceholderIsLinked(w, m, o, name, first.index, held, ref);
    SourceAnswers(w, d, o, first.window);
    var source := Existing(w.c, d, first.window).value;
    var v := SourceOf(o, source);
    ReplaceServer(w, m, o, name, first, v, held, ref);
    LinkIsRun(o, source, name, first.index, Some(ref));
    n := o.(server := Replaced(o.server, v, T.Slot(name, first.index)));
    ReplacedBooks(w, d, o, d, n, v, T.Slot(name, first.index));
  }

  lemma StartLacks(w: World, at: T.Slot)
    requires WorldOk(w) && at.session !in w.start.sessions
    ensures at !in w.start.links
  {}

  lemma PlaceholderIsLinked(w: World, m: Machine, o: Machine, name: Text, index: Index, v: Id, ref: WindowRef)
    requires Placeheld(w, m, o, name, index, v, ref)
    ensures var at := T.Slot(name, index);
            && at in o.server.links && o.server.links[at] == v
            && (forall a :: a in o.server.links && o.server.links[a] == v ==> a == at)
            && New(w, o.server, v) && o.server.windows[v].made.NotByPhoenix?
  {}

  lemma PlaceheldIsPolite(w: World, m: Machine, o: Machine, name: Text, index: Index, v: Id, ref: WindowRef, step: Step)
    requires Placeheld(w, m, o, name, index, v, ref)
    requires step.LinkWindow? && step.into == name && step.index == index && step.replacing == Some(ref)
    ensures Polite(w, o, step)
  {}

  lemma ClosingIsNoBuilding(c: Context, d: Draft, e: Draft, name: Text, id: Id)
    requires e.built == d.built
    ensures Existing(c, CloseScratch(e, name), id) == Existing(c, d, id)
  {}

  lemma PlaceholderRuns(w: World, d: Draft, m: Machine, name: Text, first: Lack) returns (n: Machine)
    requires WorldOk(w) && Follows(w, d, m) && Some(name) != w.scratch && d.scratch != Some(name)
    requires Unopened(m.server, name) && name !in w.start.sessions && Coherent(w.c.snapshot)
    requires Saved(w.c.snapshot, first.window) && Existing(w.c, d, first.window).Some?
    ensures var begun := d.(steps := d.steps + [CreateSession(name, None, None, d.refs, d.refs), MoveWindow(d.refs, name, first.index)],
                            refs := d.refs + 1);
            var l := AddLink(w.c, Linking(CloseScratch(begun, name), Some(d.refs)), name, first);
            && Follows(w, l.draft, n) && l.placeholder.None? && l.draft.scratch.None? && |l.draft.steps| > |d.steps|
    ensures Started(w, m, n, name, first)
  {
    hide Safe, Runs, Bookkeeping, WorldOk, Unopened, Started, Existing, T.WellFormed, Placeheld, RunStep, Exec, Coherent, Polite;
    var begun := d.(steps := d.steps + [CreateSession(name, None, None, d.refs, d.refs), MoveWindow(d.refs, name, first.index)],
                    refs := d.refs + 1);
    var closed := CloseScratch(begun, name);
    ClosingIsNoBuilding(w.c, d, begun, name, first.window);
    FollowsIsWellFormed(w, d, m);
    StartIsWellFormed(w);
    var o := PlaceholderOpens(w, d, m, name, first.index);
    FollowsIsWellFormed(w, closed, o);
    n := ReplaceStep(w, closed, m, o, name, first, m.server.nextWindow, d.refs);
    var step := LinkWindow(Existing(w.c, closed, first.window).value, name, first.index, Some(d.refs));
    PlaceheldIsPolite(w, m, o, name, first.index, m.server.nextWindow, d.refs, step);
    Push(w, closed.steps, o, step, n);
    StepsAreNotBooks(w, closed, closed.(steps := closed.steps + [step]), n);
  }
}
