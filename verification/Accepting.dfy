/** Whether a whole plan can be sent: exactly when no session it acts on, and no
    window it builds, has a NUL in anything the plan must say of it. */
module Accepting {
  import opened Wrappers
  import opened Snapshots
  import opened Steps
  import opened Planner
  import opened Sessions
  import opened Filling
  import opened Restoring
  import opened Convergence
  import opened Targeting
  import opened Sending
  import M = Matching
  import S = Scratch

  // ---- What building a window has to say ----

  predicate CleanCwd(pane: Pane) { CleanIfAny(KnownCwd(pane.cwd)) }

  predicate CleanForeground(pane: Pane) { pane.foreground.Program? ==> AllOf(pane.foreground.argv) }

  /** Its name, its layout, where its panes are and what they run. */
  predicate CleanWindow(w: Window) {
    Clean(w.name) && Clean(w.layout) && forall i :: 0 <= i < |w.panes| ==> CleanCwd(w.panes[i]) && CleanForeground(w.panes[i])
  }

  ghost predicate AllClean(steps: seq<Step>) {
    forall i :: 0 <= i < |steps| ==> CleanStep(steps[i])
  }

  lemma AllCleanConcat(a: seq<Step>, b: seq<Step>)
    ensures AllClean(a + b) <==> AllClean(a) && AllClean(b)
  {
    hide CleanStep;
    if AllClean(a + b) {
      forall i | 0 <= i < |a| ensures CleanStep(a[i]) { assert (a + b)[i] == a[i]; }
      forall i | 0 <= i < |b| ensures CleanStep(b[i]) { assert (a + b)[|a| + i] == b[i]; }
    }
  }

  lemma AllCleanPush(steps: seq<Step>, step: Step)
    ensures AllClean(steps + [step]) <==> AllClean(steps) && CleanStep(step)
  {
    hide CleanStep;
    AllCleanConcat(steps, [step]);
    assert [step][0] == step;
  }

  lemma {:induction false} SplitsClean(saved: Window, window: WindowRef, first: PaneRef, refs: nat, n: nat)
    requires n <= |saved.panes|
    ensures AllClean(Splits(saved, window, first, refs, n)) <==> forall i :: 1 <= i < n ==> CleanCwd(saved.panes[i])
  {
    if n > 1 {
      SplitsClean(saved, window, first, refs, n - 1);
      var before := Splits(saved, window, first, refs, n - 1);
      var split := SplitPane(PaneOf(first, refs, n - 2), KnownCwd(saved.panes[n - 1].cwd), PaneOf(first, refs, n - 1));
      hide AllClean, Splits;
      assert CleanStep(SelectLayout(window, TILED)) by { TiledIsClean(); }
      assert before + [split, SelectLayout(window, TILED)] == before + [split] + [SelectLayout(window, TILED)];
      SplitsMore(saved, window, first, refs, n);
      AllCleanPush(before, split);
      AllCleanPush(before + [split], SelectLayout(window, TILED));
    }
  }

  lemma SplitsMore(saved: Window, window: WindowRef, first: PaneRef, refs: nat, n: nat)
    requires 1 < n <= |saved.panes|
    ensures Splits(saved, window, first, refs, n)
         == Splits(saved, window, first, refs, n - 1)
            + [SplitPane(PaneOf(first, refs, n - 2), KnownCwd(saved.panes[n - 1].cwd), PaneOf(first, refs, n - 1)),
               SelectLayout(window, TILED)]
  {}

  lemma TiledIsClean()
    ensures Clean(TILED)
  {
    assert Fixed("tiled") == TILED;
  }

  lemma {:induction false} ContentsClean(saved: Window, first: PaneRef, refs: nat, n: nat)
    requires n <= |saved.panes|
    ensures AllClean(Contents(saved, first, refs, n)) <==> forall i :: 0 <= i < n ==> CleanForeground(saved.panes[i])
  {
    if n > 0 {
      ContentsClean(saved, first, refs, n - 1);
      var (ref, pane) := (PaneOf(first, refs, n - 1), saved.panes[n - 1]);
      var before := Contents(saved, first, refs, n - 1);
      assert AllClean(Replay(pane, ref)) && (AllClean(Launch(pane, ref)) <==> CleanForeground(pane)) by { PaneClean(pane, ref); }
      hide AllClean, Replay, Launch, CleanForeground;
      AllCleanConcat(before + Replay(pane, ref), Launch(pane, ref));
      AllCleanConcat(before, Replay(pane, ref));
    }
  }

  lemma PaneClean(pane: Pane, ref: PaneRef)
    ensures AllClean(Replay(pane, ref))
    ensures AllClean(Launch(pane, ref)) <==> CleanForeground(pane)
  {
    if pane.foreground.Program? { assert Launch(pane, ref)[0] == Relaunch(ref, pane.foreground.argv); }
  }

  /** All that a window's group has to say, but for its name and first pane. */
  predicate CleanInside(w: Window) {
    && Clean(w.layout)
    && (forall i :: 1 <= i < |w.panes| ==> CleanCwd(w.panes[i]))
    && forall i :: 0 <= i < |w.panes| ==> CleanForeground(w.panes[i])
  }

  lemma FurnishClean(g: Generation, saved: Window, window: WindowRef, first: PaneRef, refs: nat)
    requires ValidWindow(saved)
    ensures AllClean(FurnishSteps(g, saved, window, first, refs)) <==> CleanInside(saved)
  {
    hide AllClean, Splits, Contents, ValidWindow, ActivePane, CleanCwd, CleanForeground, Clean;
    var n := |saved.panes|;
    var (a, b, c) := (Splits(saved, window, first, refs, n), [SelectLayout(window, saved.layout)], Contents(saved, first, refs, n));
    var select := SelectPane(PaneOf(first, refs, ActivePane(saved)));
    var stamp := SetOption(WindowMark(window, g, saved.id));
    SplitsClean(saved, window, first, refs, n);
    ContentsClean(saved, first, refs, n);
    assert FurnishSteps(g, saved, window, first, refs) == a + b + c + [select] + [stamp];
    AllCleanPush(a + b + c + [select], stamp);
    AllCleanPush(a + b + c, select);
    AllCleanConcat(a + b, c);
    AllCleanPush(a, SelectLayout(window, saved.layout));
  }

  lemma WindowParts(w: Window)
    requires ValidWindow(w)
    ensures |w.panes| > 0 && (CleanWindow(w) <==> Clean(w.name) && CleanCwd(w.panes[0]) && CleanInside(w))
  {
    hide Clean, CleanCwd, CleanForeground;
  }

  // ---- One link ----

  /** Every window the draft has built had nothing unsayable, if its steps have not. */
  ghost predicate BuiltClean(c: Context, d: Draft) {
    forall id :: id in d.built ==>
      HoldsWindow(c.snapshot.windows, id) && (AllClean(d.steps) ==> CleanWindow(WindowOf(c.snapshot, id)))
  }

  /** If saved window `id` has to be built, it can be. */
  ghost predicate Buildable(c: Context, id: Id)
    requires HoldsWindow(c.snapshot.windows, id)
  {
    Present(c, id).None? ==> CleanWindow(WindowOf(c.snapshot, id))
  }

  lemma StepsClean(c: Context, d: Draft, e: Draft)
    requires BuiltClean(c, d) && e.built == d.built && (AllClean(e.steps) ==> AllClean(d.steps))
    ensures BuiltClean(c, e)
  {
    hide CleanWindow, WindowOf, AllClean;
  }

  /** A window's group, after the step that creates it. */
  lemma BuildClean(c: Context, d: Draft, saved: Window, window: WindowRef, first: PaneRef)
    requires BuiltClean(c, d) && ValidWindow(saved) && HoldsWindow(c.snapshot.windows, saved.id) && WindowOf(c.snapshot, saved.id) == saved
    requires AllClean(d.steps) ==> Clean(saved.name) && |saved.panes| > 0 && CleanCwd(saved.panes[0])
    ensures AllClean(Furnish(c, d, saved, window, first).steps) <==> AllClean(d.steps) && CleanInside(saved)
    ensures BuiltClean(c, Furnish(c, d, saved, window, first))
  {
    hide AllClean, FurnishSteps, ValidWindow, CleanWindow, CleanInside, CleanCwd, Clean, WindowOf, HoldsWindow;
    FurnishClean(c.generation, saved, window, first, d.refs);
    AllCleanConcat(d.steps, FurnishSteps(c.generation, saved, window, first, d.refs));
    WindowParts(saved);
  }

  lemma AddLinkClean(c: Context, l: Linking, name: Text, lack: Lack)
    requires Coherent(c.snapshot) && HoldsWindow(c.snapshot.windows, lack.window) && BuiltClean(c, l.draft)
    ensures var r := AddLink(c, l, name, lack);
            && (AllClean(r.draft.steps) <==> AllClean(l.draft.steps) && Clean(name) && Buildable(c, lack.window))
            && BuiltClean(c, r.draft)
  {
    hide Coherent, AllClean, CleanWindow, CleanInside, CleanCwd, Clean, WindowOf, ValidWindow, Present, Furnish, HoldsWindow;
    var d := l.draft;
    SavedIsValid(c, d, lack.window);
    if Existing(c, d, lack.window).Some? {
      var step := LinkWindow(Existing(c, d, lack.window).value, name, lack.index, l.placeholder);
      AllCleanPush(d.steps, step);
      StepsClean(c, d, AddLink(c, l, name, lack).draft);
    } else {
      var saved := WindowOf(c.snapshot, lack.window);
      WindowParts(saved);
      var step := NewWindow(name, lack.index, saved.name, KnownCwd(saved.panes[0].cwd), d.refs, d.refs);
      var made := d.(steps := d.steps + [step], refs := d.refs + 1);
      AllCleanPush(d.steps, step);
      CleanMaking(saved, name, step);
      StepsClean(c, d, made);
      BuildClean(c, made, saved, d.refs, d.refs);
    }
  }

  lemma CleanMaking(saved: Window, name: Text, step: Step)
    requires |saved.panes| > 0
    requires (step.NewWindow? && step.session == name && step.title == saved.name && step.cwd == KnownCwd(saved.panes[0].cwd))
             || (step.CreateSession? && step.name == name && step.windowName == Some(saved.name)
                 && step.cwd == KnownCwd(saved.panes[0].cwd))
    ensures CleanStep(step) <==> Clean(name) && Clean(saved.name) && CleanCwd(saved.panes[0])
  {}

  ghost predicate AllBuildable(c: Context, missing: seq<Lack>)
    requires AllHeld(c.snapshot, missing)
  {
    forall k :: 0 <= k < |missing| ==> Buildable(c, missing[k].window)
  }

  lemma {:induction false} AddLinksClean(c: Context, l: Linking, name: Text, missing: seq<Lack>)
    requires Coherent(c.snapshot) && AllHeld(c.snapshot, missing) && BuiltClean(c, l.draft)
    ensures var e := AddLinks(c, l, name, missing).draft;
            && (AllClean(e.steps) <==> AllClean(l.draft.steps) && (missing == [] || Clean(name)) && AllBuildable(c, missing))
            && BuiltClean(c, e)
    decreases |missing|
  {
    hide Coherent, AllClean, BuiltClean, Buildable, AddLink, Clean;
    if |missing| > 0 {
      AddLinksStep(c, l, name, missing);
      AddLinkClean(c, l, name, missing[0]);
      AddLinksClean(c, AddLink(c, l, name, missing[0]), name, missing[1..]);
      AllBuildableFirst(c, missing);
    }
  }

  lemma AllBuildableFirst(c: Context, missing: seq<Lack>)
    requires AllHeld(c.snapshot, missing) && |missing| > 0 && AllHeld(c.snapshot, missing[1..])
    ensures AllBuildable(c, missing) <==> Buildable(c, missing[0].window) && AllBuildable(c, missing[1..])
  {
    hide Buildable;
    if AllBuildable(c, missing[1..]) && Buildable(c, missing[0].window) {
      forall k | 0 <= k < |missing| ensures Buildable(c, missing[k].window) {
        if k > 0 { assert missing[1..][k - 1] == missing[k]; }
      }
    }
  }

  // ---- One session ----

  lemma CloseClean(c: Context, d: Draft, name: Text)
    requires BuiltClean(c, d)
    ensures var e := CloseScratch(d, name);
            && (AllClean(e.steps) <==>
                  AllClean(d.steps) && (d.scratch.Some? ==> Clean(name) && Clean(d.scratch.value)))
            && BuiltClean(c, e)
  {
    hide AllClean, BuiltClean, Clean;
    if d.scratch.Some? {
      var (switch, kill) := (SwitchClients(d.scratch.value, name), KillSession(d.scratch.value));
      assert d.steps + [switch, kill] == d.steps + [switch] + [kill];
      AllCleanPush(d.steps, switch);
      AllCleanPush(d.steps + [switch], kill);
    }
    StepsClean(c, d, CloseScratch(d, name));
  }

  /** A session made by a step that says `title` and `cwd`, and moved into place. */
  lemma BeginClean(c: Context, d: Draft, e: Draft, create: Step, move: Step)
    requires BuiltClean(c, d) && e == d.(steps := d.steps + [create, move], refs := e.refs)
    requires move.MoveWindow? && (CleanStep(create) ==> Clean(move.session))
    ensures (AllClean(e.steps) <==> AllClean(d.steps) && CleanStep(create)) && BuiltClean(c, e)
  {
    hide AllClean, BuiltClean, Clean;
    assert d.steps + [create, move] == d.steps + [create] + [move];
    AllCleanPush(d.steps, create);
    AllCleanPush(d.steps + [create], move);
    StepsClean(c, d, e);
  }

  /** When all the steps that fill a session can be sent. */
  ghost predicate Fillable(c: Context, d: Draft, name: Text, missing: seq<Lack>)
    requires AllHeld(c.snapshot, missing)
  {
    && AllClean(d.steps) && (missing != [] || d.scratch.Some? ==> Clean(name))
    && (d.scratch.Some? ==> Clean(d.scratch.value)) && AllBuildable(c, missing)
  }

  lemma BuildableExcept(c: Context, missing: seq<Lack>, at: nat)
    requires at < |missing| && AllHeld(c.snapshot, missing) && AllHeld(c.snapshot, Except(missing, at))
    ensures AllBuildable(c, missing) <==> Buildable(c, missing[at].window) && AllBuildable(c, Except(missing, at))
  {
    hide Buildable;
    var rest := Except(missing, at);
    assert forall k :: 0 <= k < |rest| ==> rest[k] == if k < at then missing[k] else missing[k + 1];
    if AllBuildable(c, rest) && Buildable(c, missing[at].window) {
      forall k | 0 <= k < |missing| ensures Buildable(c, missing[k].window) {
        if k < at { assert rest[k] == missing[k]; }
        if k > at { assert rest[k - 1] == missing[k]; }
      }
    }
  }

  lemma SeededClean(c: Context, d: Draft, name: Text, saved: Window, index: Index)
    requires BuiltClean(c, d) && ValidWindow(saved) && |saved.panes| > 0
    requires HoldsWindow(c.snapshot.windows, saved.id) && WindowOf(c.snapshot, saved.id) == saved
    ensures var e := Seeded(c, d, name, saved, index);
            && (AllClean(e.steps) <==> AllClean(d.steps) && Clean(name) && (d.scratch.Some? ==> Clean(d.scratch.value)) && CleanWindow(saved))
            && BuiltClean(c, e)
  {
    hide AllClean, BuiltClean, Clean, CleanCwd, CleanInside, CleanWindow, ValidWindow, WindowOf, HoldsWindow, Furnish, CloseScratch;
    var begun := Begun(d, name, saved, index);
    var create := CreateSession(name, Some(saved.name), KnownCwd(saved.panes[0].cwd), d.refs, d.refs);
    WindowParts(saved);
    CleanMaking(saved, name, create);
    BeginClean(c, d, begun, create, MoveWindow(d.refs, name, index));
    CloseClean(c, begun, name);
    BuildClean(c, CloseScratch(begun, name), saved, d.refs, d.refs);
  }

  lemma PlantedClean(c: Context, d: Draft, name: Text, first: Lack)
    requires Coherent(c.snapshot) && HoldsWindow(c.snapshot.windows, first.window) && BuiltClean(c, d)
    ensures var e := Planted(c, d, name, first).draft;
            && (AllClean(e.steps) <==>
                  AllClean(d.steps) && Clean(name) && (d.scratch.Some? ==> Clean(d.scratch.value)) && Buildable(c, first.window))
            && BuiltClean(c, e)
  {
    hide Coherent, AllClean, BuiltClean, Clean, Buildable, HoldsWindow, AddLink, CloseScratch;
    var begun := d.(steps := d.steps + [CreateSession(name, None, None, d.refs, d.refs), MoveWindow(d.refs, name, first.index)],
                    refs := d.refs + 1);
    BeginClean(c, d, begun, CreateSession(name, None, None, d.refs, d.refs), MoveWindow(d.refs, name, first.index));
    CloseClean(c, begun, name);
    AddLinkClean(c, Linking(CloseScratch(begun, name), Some(d.refs)), name, first);
  }

  lemma FillClean(c: Context, d: Draft, name: Text, missing: seq<Lack>)
    requires Coherent(c.snapshot) && AllHeld(c.snapshot, missing) && BuiltClean(c, d)
    requires LiveSession(c, name).None? ==> |missing| > 0
    ensures var e := FillSession(c, d, name, missing);
            (AllClean(e.steps) <==> Fillable(c, d, name, missing)) && BuiltClean(c, e)
  {
    hide Coherent, AllClean, BuiltClean, Clean, AllBuildable, Buildable, CleanWindow, AddLinks, Except, Existing, CloseScratch,
         FillSession, Planted, Seeded, ValidWindow, WindowOf, AllHeld, LiveSession;
    if LiveSession(c, name).Some? {
      LiveIsFill(c, d, name, missing);
      CloseClean(c, d, name);
      AddLinksClean(c, Linking(CloseScratch(d, name), None), name, missing);
    } else if Seed(c, d, missing).Some? {
      var at := Seed(c, d, missing).value;
      SeededIsFill(c, d, name, missing);
      var saved := WindowOf(c.snapshot, missing[at].window);
      SeededClean(c, d, name, saved, missing[at].index);
      AddLinksClean(c, Linking(Seeded(c, d, name, saved, missing[at].index), None), name, Except(missing, at));
      BuildableExcept(c, missing, at);
      SeedIsAbsent(c, d, missing[at].window);
    } else {
      PlantedIsFill(c, d, name, missing);
      PlantedClean(c, d, name, missing[0]);
      AddLinksClean(c, Linking(Planted(c, d, name, missing[0]).draft, None), name, Except(missing, 0));
      BuildableExcept(c, missing, 0);
    }
  }

  lemma LiveIsFill(c: Context, d: Draft, name: Text, missing: seq<Lack>)
    requires Coherent(c.snapshot) && AllHeld(c.snapshot, missing) && LiveSession(c, name).Some?
    ensures FillSession(c, d, name, missing) == AddLinks(c, Linking(CloseScratch(d, name), None), name, missing).draft
  {
    hide Coherent, AllHeld, AddLinks, LiveSession;
  }

  lemma SeedIsAbsent(c: Context, d: Draft, id: Id)
    requires HoldsWindow(c.snapshot.windows, id) && Existing(c, d, id).None?
    ensures Buildable(c, id) <==> CleanWindow(WindowOf(c.snapshot, id))
  {}

  // ---- Session after session ----

  lemma FillGrows(c: Context, d: Draft, name: Text, missing: seq<Lack>)
    requires Coherent(c.snapshot) && AllHeld(c.snapshot, missing)
    requires LiveSession(c, name).None? ==> |missing| > 0
    ensures var e := FillSession(c, d, name, missing);
            && e.scratch.None? && |e.steps| >= |d.steps| + (if |missing| > 0 then 1 else 0)
            && (LiveSession(c, name).Some? && missing == [] && d.scratch.None? ==> e.steps == d.steps)
  {
    hide Coherent, AllHeld, AddLinks, Except, Existing, Furnish, FillSession, Planted, Seeded, ValidWindow, WindowOf, LiveSession;
    if LiveSession(c, name).Some? {
      LiveIsFill(c, d, name, missing);
      var l := Linking(CloseScratch(d, name), None);
      AddLinksGrow(c, l, name, missing);
      AddLinksScratch(c, l, name, missing);
      if missing == [] { AddNothing(c, l, name); }
    } else if Seed(c, d, missing).Some? {
      var at := Seed(c, d, missing).value;
      SeededIsFill(c, d, name, missing);
      var e := Seeded(c, d, name, WindowOf(c.snapshot, missing[at].window), missing[at].index);
      SeededGrows(c, d, name, WindowOf(c.snapshot, missing[at].window), missing[at].index);
      AddLinksGrow(c, Linking(e, None), name, Except(missing, at));
      AddLinksScratch(c, Linking(e, None), name, Except(missing, at));
    } else {
      PlantedIsFill(c, d, name, missing);
      var e := Planted(c, d, name, missing[0]).draft;
      PlantedGrows(c, d, name, missing[0]);
      AddLinksGrow(c, Linking(e, None), name, Except(missing, 0));
      AddLinksScratch(c, Linking(e, None), name, Except(missing, 0));
    }
  }

  lemma AddNothing(c: Context, l: Linking, name: Text)
    requires Coherent(c.snapshot)
    ensures AddLinks(c, l, name, []) == l
  {
    hide Coherent;
  }

  lemma SeededGrows(c: Context, d: Draft, name: Text, saved: Window, index: Index)
    requires ValidWindow(saved) && |saved.panes| > 0
    ensures Seeded(c, d, name, saved, index).scratch.None? && |Seeded(c, d, name, saved, index).steps| > |d.steps|
  {
    hide FurnishSteps, ValidWindow;
  }

  lemma PlantedGrows(c: Context, d: Draft, name: Text, first: Lack)
    requires Coherent(c.snapshot) && HoldsWindow(c.snapshot.windows, first.window)
    ensures Planted(c, d, name, first).draft.scratch.None? && |Planted(c, d, name, first).draft.steps| > |d.steps|
  {
    hide Coherent, Existing, FurnishSteps, HoldsWindow;
  }

  /** Whether the draft comes to say the session's name. */
  predicate Named(c: Context, d: Draft, saved: Session) { Owed(c, saved) || d.scratch.Some? }

  /** The closing steps say its name, exactly when there are any. */
  lemma FinishClean(c: Context, d: Draft, e: Draft, saved: Session)
    requires BuiltClean(c, e) && |e.steps| >= |d.steps|
    requires if Named(c, d, saved) then Unfinished(c) || |Shown(c, e, saved).steps| > |d.steps|
             else !Unfinished(c) && LiveSession(c, saved.name).Some? && e.steps == d.steps
    ensures var f := FinishSession(c, e, saved, |d.steps|);
            && (AllClean(f.steps) <==> AllClean(e.steps) && (Named(c, d, saved) ==> Clean(saved.name)))
            && BuiltClean(c, f) && f.scratch == e.scratch
  {
    hide AllClean, BuiltClean, Clean, Named, Unfinished, LiveSession;
    var shown := Shown(c, e, saved);
    AllCleanPush(e.steps, SelectWindow(saved.name, saved.active));
    AllCleanPush(shown.steps, SetOption(SessionMark(saved.name, c.generation)));
    StepsClean(c, e, shown);
    StepsClean(c, shown, FinishSession(c, e, saved, |d.steps|));
  }

  /** When one session's steps can be sent, after those before it. */
  ghost predicate Speakable(c: Context, d: Draft, saved: Session)
    requires Coherent(c.snapshot) && saved in c.snapshot.sessions
  {
    Addressable(saved.name) ==>
      && (Named(c, d, saved) ==> Clean(saved.name))
      && (d.scratch.Some? ==> Clean(d.scratch.value))
      && LinksBuildable(c, saved)
  }

  /** Each saved window the session links is live, or can be built. */
  ghost predicate LinksBuildable(c: Context, saved: Session)
    requires Coherent(c.snapshot) && saved in c.snapshot.sessions
  {
    SavedResolve(c.snapshot, saved);
    forall i :: 0 <= i < |saved.windows| ==> Buildable(c, saved.windows[i].window)
  }

  lemma SavedResolve(snapshot: Snapshot, saved: Session)
    requires Coherent(snapshot) && saved in snapshot.sessions
    ensures LinksResolve(snapshot.windows, saved)
  {
    hide ValidWindow, ValidSession, LinksResolve;
    var k :| 0 <= k < |snapshot.sessions| && snapshot.sessions[k] == saved;
    assert LinksResolve(snapshot.windows, snapshot.sessions[k]);
  }

  /** A window not live is lacking wherever it is linked. */
  lemma LackingBuildable(c: Context, saved: Session, links: seq<WinLink>)
    requires Coherent(c.snapshot) && saved in c.snapshot.sessions && AllHeld(c.snapshot, Lacking(c, saved, links))
    ensures AllBuildable(c, Lacking(c, saved, links)) <==> LinksBuildable(c, saved)
  {
    hide Coherent, CleanWindow, WindowOf, Present;
    SavedResolve(c.snapshot, saved);
    var wanted := Wanted(c, saved);
    var linked := M.Pair(wanted, links).linked;
    var missing := M.Missing(wanted, links);
    M.LandListsUnanswered(wanted, linked, M.LiveIndices(links), |wanted|);
    M.PairConserves(wanted, links);
    hide M.Pair, M.LandAll, M.Missing;
    if AllBuildable(c, Lacking(c, saved, links)) {
      forall i | 0 <= i < |saved.windows| ensures Buildable(c, saved.windows[i].window) {
        if Present(c, saved.windows[i].window).None? {
          assert !linked[i] && M.ListedAt(missing, i);
          var k :| 0 <= k < |missing| && missing[k].at == i;
          assert Lacking(c, saved, links)[k].window == saved.windows[i].window;
        }
      }
    }
    if LinksBuildable(c, saved) {
      forall k | 0 <= k < |Lacking(c, saved, links)| ensures Buildable(c, Lacking(c, saved, links)[k].window) {
        assert Lacking(c, saved, links)[k].window == saved.windows[missing[k].at].window;
      }
    }
  }

  lemma SessionClean(c: Context, d: Draft, saved: Session)
    requires Coherent(c.snapshot) && saved in c.snapshot.sessions && BuiltClean(c, d)
    ensures var e := DraftSession(c, d, saved);
            && (AllClean(e.steps) <==> AllClean(d.steps) && Speakable(c, d, saved))
            && BuiltClean(c, e) && e.scratch == if Addressable(saved.name) then None else d.scratch
  {
    hide Coherent, AllClean, BuiltClean, Clean, AllBuildable, LinksBuildable, FillSession, FinishSession, Lacking, LackingNotes,
         LiveLinks, LiveSession, Unfinished, Shown;
    if Addressable(saved.name) {
      var missing := Lacking(c, saved, LiveLinks(c, saved.name));
      var noted := Noted(c, d, saved);
      KnownLacking(c, saved);
      StepsClean(c, d, noted);
      FillClean(c, noted, saved.name, missing);
      FillGrows(c, noted, saved.name, missing);
      LackingBuildable(c, saved, LiveLinks(c, saved.name));
      var e := FillSession(c, noted, saved.name, missing);
      if Named(c, d, saved) { MustMark(c, d, saved, missing, e); } else { NothingIsOwed(c, saved); }
      FinishClean(c, d, e, saved);
      DraftIsFinished(c, d, saved);
      if missing != [] { MissingIsOwed(c, saved); }
    } else {
      StepsClean(c, d, DraftSession(c, d, saved));
    }
  }

  lemma KnownLacking(c: Context, saved: Session)
    requires Coherent(c.snapshot) && saved in c.snapshot.sessions
    ensures AllHeld(c.snapshot, Lacking(c, saved, LiveLinks(c, saved.name)))
    ensures LiveSession(c, saved.name).None? ==> |Lacking(c, saved, LiveLinks(c, saved.name))| > 0
  {
    hide Coherent, Lacking, LiveSession;
    LackingIsKnown(c, saved, LiveLinks(c, saved.name));
  }

  lemma NothingIsOwed(c: Context, saved: Session)
    requires !Owed(c, saved)
    ensures Lacking(c, saved, LiveLinks(c, saved.name)) == [] && !Unfinished(c) && LiveSession(c, saved.name).Some?
  {
    hide Lacking, LiveLinks, LiveSession, Unfinished;
  }

  lemma MissingIsOwed(c: Context, saved: Session)
    requires Lacking(c, saved, LiveLinks(c, saved.name)) != []
    ensures Owed(c, saved)
  {
    hide Lacking, LiveLinks, LiveSession, Unfinished;
  }

  /** When the steps of saved session `k` can be sent. */
  ghost predicate SpeaksOf(c: Context, scratch: Option<Text>, k: nat)
    requires Coherent(c.snapshot) && k < |c.snapshot.sessions|
  {
    var saved := c.snapshot.sessions[k];
    Addressable(saved.name) ==>
      && (Owed(c, saved) || (scratch.Some? && Leads(c.snapshot, saved)) ==> Clean(saved.name))
      && (scratch.Some? && Leads(c.snapshot, saved) ==> Clean(scratch.value))
      && LinksBuildable(c, saved)
  }

  lemma {:induction false} SessionsClean(c: Context, d: Draft, n: nat)
    requires Coherent(c.snapshot) && n <= |c.snapshot.sessions| && BuiltClean(c, d)
    ensures var e := DraftSessions(c, d, n);
            && (AllClean(e.steps) <==> AllClean(d.steps) && forall k :: 0 <= k < n ==> SpeaksOf(c, d.scratch, k))
            && BuiltClean(c, e) && e.scratch == if AnyAddressable(c.snapshot, n) then None else d.scratch
    decreases n
  {
    hide Coherent, AllClean, BuiltClean, SpeaksOf, Speakable, DraftSession, Addressable;
    if n > 0 {
      SessionsClean(c, d, n - 1);
      var e := DraftSessions(c, d, n - 1);
      SessionClean(c, e, c.snapshot.sessions[n - 1]);
      if Addressable(c.snapshot.sessions[n - 1].name) { LeadsWhenNoneBefore(c.snapshot, n - 1); }
      SpeakableIs(c, d, e, n - 1);
    }
  }

  lemma SpeakableIs(c: Context, d: Draft, e: Draft, k: nat)
    requires Coherent(c.snapshot) && k < |c.snapshot.sessions|
    requires e.scratch == if AnyAddressable(c.snapshot, k) then None else d.scratch
    requires Addressable(c.snapshot.sessions[k].name) ==>
               (Leads(c.snapshot, c.snapshot.sessions[k]) <==> !AnyAddressable(c.snapshot, k))
    ensures Speakable(c, e, c.snapshot.sessions[k]) <==> SpeaksOf(c, d.scratch, k)
  {
    hide Coherent, Owed, Leads, Clean, Addressable, LinksBuildable, AnyAddressable;
  }

  /** What a caller can see before sending anything: each session the plan acts on,
      the scratch if it is to be closed, and each window to be built can be spoken of
      without a NUL. */
  ghost predicate Sayable(c: Context, scratch: Option<Text>)
    requires Coherent(c.snapshot)
  {
    forall k :: 0 <= k < |c.snapshot.sessions| ==> SpeaksOf(c, scratch, k)
  }

  lemma PlanIsClean(g: Generation, snapshot: Snapshot, onto: Onto)
    requires Coherent(snapshot)
    ensures AllClean(PlanOf(g, snapshot, onto).steps) <==> Sayable(ContextOf(g, snapshot, onto), onto.Scratch())
  {
    hide Coherent, AllClean, PlanOf, SpeaksOf, Unfinished;
    var c := ContextOf(g, snapshot, onto);
    NothingBuilt(c, onto);
    SessionsClean(c, Blank(onto), |snapshot.sessions|);
    PlanIsBody(g, snapshot, onto);
    AllCleanConcat(Body(g, snapshot, onto).steps, Closing(c));
    ClosingIsClean(c);
  }

  lemma NothingBuilt(c: Context, onto: Onto)
    ensures BuiltClean(c, Blank(onto)) && AllClean(Blank(onto).steps)
  {}

  lemma ClosingIsClean(c: Context)
    ensures AllClean(Closing(c))
  {
    hide Unfinished;
  }

  // ---- Clients are moved onto no session the plan does not also mark ----

  ghost predicate MarkedIn(steps: seq<Step>, g: Generation, name: Text) {
    exists j :: 0 <= j < |steps| && steps[j] == SetOption(SessionMark(name, g))
  }

  ghost predicate SwitchesMarked(steps: seq<Step>, g: Generation) {
    forall i :: 0 <= i < |steps| && steps[i].SwitchClients? ==> MarkedIn(steps, g, steps[i].onto)
  }

  lemma FinishMarks(c: Context, d: Draft, e: Draft, saved: Session)
    requires SwitchesMarked(d.steps, c.generation) && GoesOn(d.steps, e.steps, saved.name)
    ensures SwitchesMarked(FinishSession(c, e, saved, |d.steps|).steps, c.generation)
  {
    hide LiveSession, Unfinished;
    var f := FinishSession(c, e, saved, |d.steps|).steps;
    assert e.steps <= f && (|f| > |d.steps| ==> f[|f| - 1] == SetOption(SessionMark(saved.name, c.generation)));
    forall i | 0 <= i < |f| && f[i].SwitchClients? ensures MarkedIn(f, c.generation, f[i].onto) {
      if i < |d.steps| {
        assert d.steps[i] == e.steps[i] == f[i];
        var j :| 0 <= j < |d.steps| && d.steps[j] == SetOption(SessionMark(f[i].onto, c.generation));
        assert e.steps[j] == d.steps[j] && f[j] == e.steps[j];
      } else if i < |e.steps| {
        assert f[i] == e.steps[i] && Fills(e.steps[i], saved.name);
      }
    }
  }

  lemma {:induction false} SessionsMark(c: Context, d: Draft, n: nat)
    requires Coherent(c.snapshot) && n <= |c.snapshot.sessions| && SwitchesMarked(d.steps, c.generation)
    ensures SwitchesMarked(DraftSessions(c, d, n).steps, c.generation)
    decreases n
  {
    hide Coherent, SwitchesMarked, DraftSession, Addressable, FinishSession, GoesOn;
    if n > 0 {
      SessionsMark(c, d, n - 1);
      var (before, saved) := (DraftSessions(c, d, n - 1), c.snapshot.sessions[n - 1]);
      if Addressable(saved.name) {
        var e := DraftIs(c, before, saved);
        FinishMarks(c, before, e, saved);
      } else {
        UnaddressableSteps(c, before, saved);
      }
    }
  }

  lemma PlanMarks(g: Generation, snapshot: Snapshot, onto: Onto)
    requires Coherent(snapshot)
    ensures SwitchesMarked(PlanOf(g, snapshot, onto).steps, g)
  {
    hide Coherent, PlanOf, DraftSessions, Unfinished;
    var c := ContextOf(g, snapshot, onto);
    SessionsMark(c, Blank(onto), |snapshot.sessions|);
    PlanIsBody(g, snapshot, onto);
    var (body, steps) := (Body(g, snapshot, onto).steps, PlanOf(g, snapshot, onto).steps);
    forall i | 0 <= i < |steps| && steps[i].SwitchClients? ensures MarkedIn(steps, g, steps[i].onto) {
      assert i < |body| && body[i] == steps[i];
      var j :| 0 <= j < |body| && body[j] == SetOption(SessionMark(steps[i].onto, g));
      assert steps[j] == body[j];
    }
  }

  // ---- The theorems ----

  /** Every command line of a plan can be made exactly when the plan is sayable,
      whatever ids, clients and path each step finds. */
  lemma PlanIsAccepted(g: Generation, snapshot: Snapshot, onto: Onto, envs: seq<Env>)
    requires Coherent(snapshot) && |envs| == |PlanOf(g, snapshot, onto).steps|
    requires forall i :: 0 <= i < |envs| ==> Clean(envs[i].file) && AllOf(envs[i].clients)
    ensures (forall i :: 0 <= i < |envs| ==> Accepted(envs[i], PlanOf(g, snapshot, onto).steps[i]))
       <==> Sayable(ContextOf(g, snapshot, onto), onto.Scratch())
  {
    hide Coherent, PlanOf, Accepted, Sayable, Clean, AllOf;
    var steps := PlanOf(g, snapshot, onto).steps;
    PlanIsClean(g, snapshot, onto);
    PlanMarks(g, snapshot, onto);
    forall i | 0 <= i < |envs| ensures Accepted(envs[i], steps[i]) <==> CleanAsSent(envs[i], steps[i]) {
      StepIsAccepted(envs[i], steps[i]);
    }
    SentIsClean(envs, steps, g);
  }

  lemma SentIsClean(envs: seq<Env>, steps: seq<Step>, g: Generation)
    requires |envs| == |steps| && SwitchesMarked(steps, g)
    ensures (forall i :: 0 <= i < |envs| ==> CleanAsSent(envs[i], steps[i])) <==> AllClean(steps)
  {
    hide Clean, CleanIfAny, AllOf;
    if forall i :: 0 <= i < |envs| ==> CleanAsSent(envs[i], steps[i]) {
      forall i | 0 <= i < |steps| ensures CleanStep(steps[i]) {
        assert CleanAsSent(envs[i], steps[i]);
        if steps[i].SwitchClients? {
          var j :| 0 <= j < |steps| && steps[j] == SetOption(SessionMark(steps[i].onto, g));
          assert CleanAsSent(envs[j], steps[j]);
        }
      }
    }
    if AllClean(steps) {
      forall i | 0 <= i < |envs| ensures CleanAsSent(envs[i], steps[i]) { assert CleanStep(steps[i]); }
    }
  }

  /** No text in the snapshot that a plan could say holds a NUL, as none does that
      was read off a terminal. */
  ghost predicate CleanSnapshot(snapshot: Snapshot) {
    && (forall k :: 0 <= k < |snapshot.sessions| ==> Clean(snapshot.sessions[k].name))
    && forall k :: 0 <= k < |snapshot.windows| ==> CleanWindow(snapshot.windows[k])
  }

  /** A clean snapshot is sayable onto anything, under the scratch name chosen for
      it. */
  lemma CleanIsSayable(g: Generation, snapshot: Snapshot, onto: Onto)
    requires Coherent(snapshot) && CleanSnapshot(snapshot)
    requires onto.Scratch().Some? ==> onto.Scratch().value == S.ScratchName(snapshot)
    ensures Sayable(ContextOf(g, snapshot, onto), onto.Scratch())
  {
    var c := ContextOf(g, snapshot, onto);
    ScratchNameIsClean(snapshot);
    hide Coherent, CleanWindow, Clean, S.ScratchName, Owed, Leads, Present, Addressable;
    forall k | 0 <= k < |snapshot.sessions| ensures SpeaksOf(c, onto.Scratch(), k) {
      var saved := snapshot.sessions[k];
      SavedResolve(snapshot, saved);
      forall i | 0 <= i < |saved.windows| ensures Buildable(c, saved.windows[i].window) {
        var w := WindowOf(snapshot, saved.windows[i].window);
        var j :| 0 <= j < |snapshot.windows| && snapshot.windows[j] == w;
        assert CleanWindow(snapshot.windows[j]);
      }
    }
  }

  lemma ScratchNameIsClean(snapshot: Snapshot)
    ensures Clean(S.ScratchName(snapshot))
  {
    hide S.FirstFree, S.Names;
    assert Fixed("phoenix-scratch-") == S.PREFIX;
    var n := S.FirstFree(S.Names(snapshot.sessions), 0);
    assert S.ScratchName(snapshot) == S.PREFIX + Decimal(n);
  }

  /** A snapshot like any other, but for a NUL in its one window's name. */
  function NulNamed(): Snapshot {
    var s := OneSession();
    s.(windows := [s.windows[0].(name := [0])])
  }

  /** It can be planned, and its plan cannot be sent. */
  lemma ANulCannotBeSent(g: Generation, scratch: Text)
    ensures Coherent(NulNamed())
    ensures !Sayable(ContextOf(g, NulNamed(), OntoNoServer(scratch)), Some(scratch))
  {
    var s := NulNamed();
    assert s.windows[0].panes[0].index == 0;
    assert s.sessions[0].windows[0].index == 0;
    assert s.windows[0].id == 3;
    var c := ContextOf(g, s, OntoNoServer(scratch));
    assert WindowOf(s, 3) == s.windows[0] && 0 in s.windows[0].name;
    assert !Buildable(c, s.sessions[0].windows[0].window);
    hide Coherent;
    SavedResolve(s, s.sessions[0]);
    assert !LinksBuildable(c, s.sessions[0]);
    assert !SpeaksOf(c, Some(scratch), 0);
  }
}
