/** Every plan is a well-scoped program: each reference is defined by exactly one
    step and used only by later ones, so looking one up never fails, whatever
    tmux answers. */
module Scoping {
  import opened Wrappers
  import opened Snapshots
  import opened Steps
  import opened Planner
  import opened Applying
  import opened Restoring
  import T = Tmux

  datatype Scope = Scope(windows: set<WindowRef>, panes: set<PaneRef>)

  function Defines(step: Step): Scope {
    match step
    case CreateSession(_, _, _, window, pane) => Scope({window}, {pane})
    case NewWindow(_, _, _, _, window, pane) => Scope({window}, {pane})
    case SplitPane(_, _, pane) => Scope({}, {pane})
    case _ => Scope({}, {})
  }

  function Uses(step: Step): Scope {
    match step
    case MoveWindow(window, _, _) => Scope({window}, {})
    case LinkWindow(source, _, _, replacing) =>
      Scope((if source.Built? then {source.ref} else {}) + (if replacing.Some? then {replacing.value} else {}), {})
    case SplitPane(from, _, _) => Scope({}, {from})
    case SelectLayout(window, _) => Scope({window}, {})
    case ReplayContent(pane, _) => Scope({}, {pane})
    case Relaunch(pane, _) => Scope({}, {pane})
    case SelectPane(pane) => Scope({}, {pane})
    case SetOption(WindowMark(window, _, _)) => Scope({window}, {})
    case _ => Scope({}, {})
  }

  function Union(a: Scope, b: Scope): Scope { Scope(a.windows + b.windows, a.panes + b.panes) }

  predicate Within(a: Scope, b: Scope) { a.windows <= b.windows && a.panes <= b.panes }

  predicate Disjoint(a: Scope, b: Scope) { a.windows !! b.windows && a.panes !! b.panes }

  /** What `steps` define. */
  function Defined(steps: seq<Step>): Scope {
    if |steps| == 0 then Scope({}, {}) else Union(Defined(steps[..|steps| - 1]), Defines(steps[|steps| - 1]))
  }

  /** Each step uses only what earlier ones define, and defines only what none
      of them did. */
  predicate WellScoped(steps: seq<Step>) {
    |steps| == 0 ||
    (var before, step := steps[..|steps| - 1], steps[|steps| - 1];
     WellScoped(before) && Within(Uses(step), Defined(before)) && Disjoint(Defines(step), Defined(before)))
  }

  /** The draft's references are the ones its steps define, all below `refs`. */
  ghost predicate Scoped(d: Draft) {
    && WellScoped(d.steps)
    && (forall r :: r in Defined(d.steps).windows ==> r < d.refs)
    && (forall r :: r in Defined(d.steps).panes ==> r < d.refs)
    && (forall id :: id in d.built ==> d.built[id] in Defined(d.steps).windows)
  }

  lemma Append(steps: seq<Step>, step: Step)
    ensures Defined(steps + [step]) == Union(Defined(steps), Defines(step))
    ensures WellScoped(steps + [step]) <==>
      WellScoped(steps) && Within(Uses(step), Defined(steps)) && Disjoint(Defines(step), Defined(steps))
  {
    assert (steps + [step])[..|steps|] == steps;
  }

  /** Adding a step that uses what is defined and defines nothing. */
  lemma Use(d: Draft, step: Step)
    requires Scoped(d) && Within(Uses(step), Defined(d.steps)) && Defines(step) == Scope({}, {})
    ensures Scoped(d.(steps := d.steps + [step])) && Defined(d.steps + [step]) == Defined(d.steps)
  {
    Append(d.steps, step);
  }

  /** Adding a step that defines fresh references. */
  lemma Define(d: Draft, step: Step, refs: nat)
    requires Scoped(d) && Within(Uses(step), Defined(d.steps)) && d.refs <= refs
    requires forall r :: r in Defines(step).windows || r in Defines(step).panes ==> d.refs <= r < refs
    ensures Scoped(d.(steps := d.steps + [step], refs := refs))
    ensures Defined(d.steps + [step]) == Union(Defined(d.steps), Defines(step))
  {
    Append(d.steps, step);
  }

  /** What is built is built in a defined window; the scratch defines nothing. */
  lemma BuiltIsScoped(d: Draft, id: Id, window: WindowRef)
    requires Scoped(d) && window in Defined(d.steps).windows
    ensures Scoped(d.(built := d.built[id := window]))
  {}

  lemma ScratchIsAside(d: Draft, scratch: Option<Text>)
    requires Scoped(d)
    ensures Scoped(d.(scratch := scratch))
  {}

  // ---- One window's group ----

  /** Panes `0..n` of a window are defined, and the window itself. */
  ghost predicate Has(d: Draft, window: WindowRef, first: PaneRef, refs: nat, n: nat) {
    && window in Defined(d.steps).windows
    && forall i :: 0 <= i < n ==> PaneOf(first, refs, i) in Defined(d.steps).panes
  }

  lemma {:induction false} SplitsScoped(d: Draft, saved: Window, window: WindowRef, first: PaneRef, refs: nat, n: nat)
    requires Scoped(d) && 1 <= n <= |saved.panes| && d.refs == refs && Has(d, window, first, refs, 1)
    ensures var e := d.(steps := d.steps + Splits(saved, window, first, refs, n), refs := refs + n - 1);
            Scoped(e) && Has(e, window, first, refs, n)
  {
    hide Scoped, WellScoped, Defined;
    if n == 1 {
      assert d.steps + Splits(saved, window, first, refs, n) == d.steps;
    } else {
      SplitsScoped(d, saved, window, first, refs, n - 1);
      var before := d.(steps := d.steps + Splits(saved, window, first, refs, n - 1), refs := refs + n - 2);
      var split := SplitPane(PaneOf(first, refs, n - 2), KnownCwd(saved.panes[n - 1].cwd), PaneOf(first, refs, n - 1));
      Define(before, split, refs + n - 1);
      var after := before.(steps := before.steps + [split], refs := refs + n - 1);
      Use(after, SelectLayout(window, TILED));
      assert after.steps + [SelectLayout(window, TILED)] == d.steps + Splits(saved, window, first, refs, n);
    }
  }

  lemma {:induction false} ContentsScoped(d: Draft, saved: Window, window: WindowRef, first: PaneRef, refs: nat, n: nat)
    requires Scoped(d) && n <= |saved.panes| && Has(d, window, first, refs, |saved.panes|)
    ensures var e := d.(steps := d.steps + Contents(saved, first, refs, n));
            Scoped(e) && Has(e, window, first, refs, |saved.panes|)
  {
    hide Scoped, WellScoped, Defined;
    if n == 0 {
      assert d.steps + Contents(saved, first, refs, n) == d.steps;
    } else {
      ContentsScoped(d, saved, window, first, refs, n - 1);
      var before := d.(steps := d.steps + Contents(saved, first, refs, n - 1));
      var ref := PaneOf(first, refs, n - 1);
      PaneScoped(before, saved.panes[n - 1], ref);
      assert before.steps + Replay(saved.panes[n - 1], ref) + Launch(saved.panes[n - 1], ref)
          == d.steps + Contents(saved, first, refs, n);
    }
  }

  lemma PaneScoped(d: Draft, pane: Pane, ref: PaneRef)
    requires Scoped(d) && ref in Defined(d.steps).panes
    ensures var e := d.(steps := d.steps + Replay(pane, ref) + Launch(pane, ref));
            Scoped(e) && Defined(e.steps) == Defined(d.steps)
  {
    hide Scoped, WellScoped, Defined;
    var replayed := d.(steps := d.steps + Replay(pane, ref));
    if pane.content.Captured? {
      Use(d, ReplayContent(ref, pane.content.scrollback));
    } else {
      assert replayed == d;
    }
    if pane.foreground.Program? {
      Use(replayed, Relaunch(ref, pane.foreground.argv));
    } else {
      assert replayed.steps + Launch(pane, ref) == replayed.steps;
    }
  }

  lemma FurnishScoped(c: Context, d: Draft, saved: Window, window: WindowRef, first: PaneRef)
    requires Scoped(d) && ValidWindow(saved) && window in Defined(d.steps).windows && first in Defined(d.steps).panes
    ensures Scoped(Furnish(c, d, saved, window, first))
  {
    hide Scoped, WellScoped, Defined, Splits, Contents;
    var n := |saved.panes|;
    SplitsScoped(d, saved, window, first, d.refs, n);
    var split := d.(steps := d.steps + Splits(saved, window, first, d.refs, n), refs := d.refs + n - 1);
    Use(split, SelectLayout(window, saved.layout));
    var shaped := split.(steps := split.steps + [SelectLayout(window, saved.layout)]);
    ContentsScoped(shaped, saved, window, first, d.refs, n);
    var filled := shaped.(steps := shaped.steps + Contents(saved, first, d.refs, n));
    var select := SelectPane(PaneOf(first, d.refs, ActivePane(saved)));
    Use(filled, select);
    var active := filled.(steps := filled.steps + [select]);
    Use(active, SetOption(WindowMark(window, c.generation, saved.id)));
    var stamped := active.(steps := active.steps + [SetOption(WindowMark(window, c.generation, saved.id))]);
    assert stamped.steps == Furnish(c, d, saved, window, first).steps;
    BuiltIsScoped(stamped, saved.id, window);
  }

  // ---- One session ----

  ghost predicate LinkingScoped(l: Linking) {
    Scoped(l.draft) && (l.placeholder.Some? ==> l.placeholder.value in Defined(l.draft.steps).windows)
  }

  lemma AddLinkScoped(c: Context, l: Linking, name: Text, lack: Lack)
    requires Coherent(c.snapshot) && HoldsWindow(c.snapshot.windows, lack.window) && LinkingScoped(l)
    requires l.placeholder.Some? ==> Existing(c, l.draft, lack.window).Some?
    ensures LinkingScoped(AddLink(c, l, name, lack)) && AddLink(c, l, name, lack).placeholder.None?
  {
    var d := l.draft;
    match Existing(c, d, lack.window)
    case Some(source) => Use(d, LinkWindow(source, name, lack.index, l.placeholder));
    case None =>
      var saved := WindowOf(c.snapshot, lack.window);
      assert ValidWindow(saved);
      hide Coherent;
      var step := NewWindow(name, lack.index, saved.name, KnownCwd(saved.panes[0].cwd), d.refs, d.refs);
      Define(d, step, d.refs + 1);
      FurnishScoped(c, d.(steps := d.steps + [step], refs := d.refs + 1), saved, d.refs, d.refs);
  }

  lemma {:induction false} AddLinksScoped(c: Context, l: Linking, name: Text, missing: seq<Lack>)
    requires Coherent(c.snapshot) && AllHeld(c.snapshot, missing) && LinkingScoped(l)
    requires l.placeholder.Some? ==> |missing| > 0 && Existing(c, l.draft, missing[0].window).Some?
    ensures Scoped(AddLinks(c, l, name, missing).draft)
    decreases |missing|
  {
    hide Coherent, LinkingScoped, AddLink, Existing;
    if |missing| > 0 {
      AddLinksStep(c, l, name, missing);
      AddLinkScoped(c, l, name, missing[0]);
      AddLinksScoped(c, AddLink(c, l, name, missing[0]), name, missing[1..]);
    } else {
      LinkingIsScoped(l);
    }
  }

  lemma LinkingIsScoped(l: Linking)
    requires LinkingScoped(l)
    ensures Scoped(l.draft)
  {}

  lemma CloseScoped(d: Draft, to: Text)
    requires Scoped(d)
    ensures Scoped(CloseScratch(d, to)) && Defined(CloseScratch(d, to).steps) == Defined(d.steps)
  {
    hide Scoped, WellScoped, Defined;
    match d.scratch
    case None =>
    case Some(scratch) =>
      Use(d, SwitchClients(scratch, to));
      var switched := d.(steps := d.steps + [SwitchClients(scratch, to)]);
      Use(switched, KillSession(scratch));
      assert switched.steps + [KillSession(scratch)] == CloseScratch(d, to).steps;
      ScratchIsAside(switched.(steps := switched.steps + [KillSession(scratch)]), None);
  }

  /** The two steps that make a session, around whichever window. */
  lemma MadeScoped(d: Draft, name: Text, title: Option<Text>, cwd: Option<Text>, to: Index)
    requires Scoped(d)
    ensures var e := d.(steps := d.steps + [CreateSession(name, title, cwd, d.refs, d.refs), MoveWindow(d.refs, name, to)],
                        refs := d.refs + 1);
            Scoped(e) && d.refs in Defined(e.steps).windows && d.refs in Defined(e.steps).panes
  {
    var create := CreateSession(name, title, cwd, d.refs, d.refs);
    Define(d, create, d.refs + 1);
    var made := d.(steps := d.steps + [create], refs := d.refs + 1);
    Use(made, MoveWindow(d.refs, name, to));
    assert made.steps + [MoveWindow(d.refs, name, to)] == d.steps + [create, MoveWindow(d.refs, name, to)];
  }

  lemma FillScoped(c: Context, d: Draft, name: Text, missing: seq<Lack>)
    requires Coherent(c.snapshot) && AllHeld(c.snapshot, missing) && Scoped(d)
    requires LiveSession(c, name).None? ==> |missing| > 0
    ensures Scoped(FillSession(c, d, name, missing))
  {
    hide Coherent, Scoped;
    if LiveSession(c, name).Some? {
      CloseScoped(d, name);
      AddLinksScoped(c, Linking(CloseScratch(d, name), None), name, missing);
    } else {
      var o := OpenSession(c, d, name, missing);
      var closed := CloseScratch(o.draft, name);
      match o.seed
      case None =>
        MadeScoped(d, name, None, None, missing[0].index);
        CloseScoped(o.draft, name);
        PlantedIsFill(c, d, name, missing);
        assert Existing(c, closed, missing[0].window) == Existing(c, d, missing[0].window);
        AddLinksScoped(c, Linking(closed, Some(o.window)), name, o.missing);
      case Some(id) =>
        SeedScoped(c, d, name, missing);
        var saved := WindowOf(c.snapshot, id);
        CloseScoped(o.draft, name);
        HeldIsValid(c, id);
        FurnishScoped(c, closed, saved, o.window, o.pane);
        var e := Furnish(c, closed, saved, o.window, o.pane);
        AddLinksScoped(c, Linking(e, None), name, o.missing);
    }
  }

  lemma SeedScoped(c: Context, d: Draft, name: Text, missing: seq<Lack>)
    requires Coherent(c.snapshot) && AllHeld(c.snapshot, missing) && |missing| > 0 && Scoped(d)
    requires OpenSession(c, d, name, missing).seed.Some?
    ensures var o := OpenSession(c, d, name, missing);
            Scoped(o.draft) && o.window in Defined(o.draft.steps).windows && o.pane in Defined(o.draft.steps).panes
  {
    var at := Seed(c, d, missing).value;
    var saved := WindowOf(c.snapshot, missing[at].window);
    MadeScoped(d, name, Some(saved.name), KnownCwd(saved.panes[0].cwd), missing[at].index);
  }

  lemma HeldIsValid(c: Context, id: Id)
    requires Coherent(c.snapshot) && HoldsWindow(c.snapshot.windows, id)
    ensures ValidWindow(WindowOf(c.snapshot, id))
  {}

  lemma FinishScoped(c: Context, d: Draft, saved: Session, before: nat)
    requires Scoped(d)
    ensures Scoped(FinishSession(c, d, saved, before))
  {
    hide Scoped, Defined, LiveSession, Unfinished;
    if LiveSession(c, saved.name).None? {
      UseNothing(d, SelectWindow(saved.name, saved.active));
    }
    UseNothing(Shown(c, d, saved), SetOption(SessionMark(saved.name, c.generation)));
  }

  /** A step that names no reference. */
  lemma UseNothing(d: Draft, step: Step)
    requires Scoped(d) && Uses(step) == Scope({}, {}) && Defines(step) == Scope({}, {})
    ensures Scoped(d.(steps := d.steps + [step]))
  {
    hide Scoped, Defined;
    Use(d, step);
  }

  lemma SessionScoped(c: Context, d: Draft, saved: Session)
    requires Coherent(c.snapshot) && saved in c.snapshot.sessions && Scoped(d)
    ensures Scoped(DraftSession(c, d, saved))
  {
    hide Coherent, FillSession, FinishSession, Lacking, LackingNotes, LiveSession, WellScoped, Defined;
    if Addressable(saved.name) {
      var missing := Lacking(c, saved, LiveLinks(c, saved.name));
      LackingIsKnown(c, saved, LiveLinks(c, saved.name));
      FillScoped(c, Noted(c, d, saved), saved.name, missing);
      FinishScoped(c, FillSession(c, Noted(c, d, saved), saved.name, missing), saved, |d.steps|);
      DraftIsFinished(c, d, saved);
    }
  }

  lemma {:induction false} SessionsScoped(c: Context, d: Draft, n: nat)
    requires Coherent(c.snapshot) && n <= |c.snapshot.sessions| && Scoped(d)
    ensures Scoped(DraftSessions(c, d, n))
  {
    hide Coherent, Scoped, DraftSession;
    if n > 0 {
      SessionsScoped(c, d, n - 1);
      SessionScoped(c, DraftSessions(c, d, n - 1), c.snapshot.sessions[n - 1]);
    }
  }

  /** Every plan, for whatever the server held, is a well-scoped program. */
  lemma PlanIsWellScoped(g: Generation, snapshot: Snapshot, onto: Onto)
    requires Coherent(snapshot)
    ensures WellScoped(PlanOf(g, snapshot, onto).steps)
  {
    hide Coherent, Scoped, WellScoped, Defined, DraftSessions;
    var c := ContextOf(g, snapshot, onto);
    BlankIsScoped(onto);
    SessionsScoped(c, Blank(onto), |snapshot.sessions|);
    var d := DraftSessions(c, Blank(onto), |snapshot.sessions|);
    if Unfinished(c) {
      Use(d, SetOption(ServerMark(g)));
      ScopedIsWellScoped(d.(steps := d.steps + [SetOption(ServerMark(g))]));
    } else {
      assert d.steps + Closing(c) == d.steps;
      ScopedIsWellScoped(d);
    }
  }

  lemma BlankIsScoped(onto: Onto)
    ensures Scoped(Blank(onto))
  {}

  lemma ScopedIsWellScoped(d: Draft)
    requires Scoped(d)
    ensures WellScoped(d.steps)
  {}

  // ---- A well-scoped program never looks up what is not bound ----

  ghost predicate Binds(m: Machine, scope: Scope) {
    scope.windows <= m.bound.windows.Keys && scope.panes <= m.bound.panes.Keys
  }

  lemma StepBinds(m: Machine, step: Step, before: Scope)
    requires Binds(m, before) && Within(Uses(step), before)
    ensures RunStep(m, step) != Unbound
    ensures RunStep(m, step).Ran? ==> Binds(RunStep(m, step).m, Union(before, Defines(step)))
  {}

  lemma {:induction false} ScopedNeverUnbound(s: T.Server, steps: seq<Step>)
    requires WellScoped(steps)
    ensures Exec(Start(s), steps) != Unbound
    ensures Exec(Start(s), steps).Ran? ==> Binds(Exec(Start(s), steps).m, Defined(steps))
  {
    hide RunStep;
    if |steps| > 0 {
      ScopedNeverUnbound(s, steps[..|steps| - 1]);
      var before := Exec(Start(s), steps[..|steps| - 1]);
      if before.Ran? {
        StepBinds(before.m, steps[|steps| - 1], Defined(steps[..|steps| - 1]));
      }
    }
  }

  /** Whatever server a plan is applied to, and wherever it stops, `apply` never
      looks up a reference no step has bound. */
  lemma LookupsNeverFail(g: Generation, snapshot: Snapshot, onto: Onto, s: T.Server, k: nat)
    requires Coherent(snapshot) && k <= |PlanOf(g, snapshot, onto).steps|
    ensures Exec(Start(s), PlanOf(g, snapshot, onto).steps[..k]) != Unbound
  {
    hide Coherent, PlanOf;
    PlanIsWellScoped(g, snapshot, onto);
    PrefixScoped(PlanOf(g, snapshot, onto).steps, k);
    ScopedNeverUnbound(s, PlanOf(g, snapshot, onto).steps[..k]);
  }

  lemma {:induction false} PrefixScoped(steps: seq<Step>, k: nat)
    requires WellScoped(steps) && k <= |steps|
    ensures WellScoped(steps[..k])
  {
    if k == |steps| {
      assert steps[..k] == steps;
    } else {
      PrefixScoped(steps[..|steps| - 1], k);
      assert steps[..|steps| - 1][..k] == steps[..k];
    }
  }
}
