/** Which sessions a plan's steps act on: each saved session's steps act on it
    alone. So a scratch that outlives a restore cut short is still nobody's, and a
    restore stopped before a session's mark leaves it finished and unmarked. */
module Targeting {
  import opened Wrappers
  import opened Snapshots
  import opened Steps
  import opened Planner
  import opened Applying
  import opened Safety
  import opened Sessions
  import opened Counting
  import opened Restoring
  import opened Convergence
  import opened Resuming
  import opened Previewing
  import T = Tmux

  // ---- What one step acts on ----

  /** A step that fills session `name`: it links and moves clients into no other, and
      sets no mark but a window's. */
  predicate Fills(step: Step, name: Text) {
    match step
    case CreateSession(n, _, _, _, _) => n == name
    case MoveWindow(_, session, _) => session == name
    case NewWindow(session, _, _, _, _, _) => session == name
    case LinkWindow(_, into, _, _) => into == name
    case SelectWindow(_, _) => false
    case SetOption(setting) => setting.WindowMark?
    case SwitchClients(_, to) => to == name
    case _ => true
  }

  /** A step that links nothing into session `n` and does not mark it. */
  predicate Avoids(step: Step, n: Text) {
    match step
    case CreateSession(name, _, _, _, _) => name != n
    case MoveWindow(_, session, _) => session != n
    case NewWindow(session, _, _, _, _, _) => session != n
    case LinkWindow(_, into, _, _) => into != n
    case SetOption(setting) => !setting.SessionMark? || setting.session != n
    case _ => true
  }

  predicate MarksNot(step: Step, n: Text) {
    step.SetOption? && step.setting.SessionMark? ==> step.setting.session != n
  }

  /** `after` goes on from `before` with steps that fill `name`. */
  ghost predicate GoesOn(before: seq<Step>, after: seq<Step>, name: Text) {
    before <= after && forall i :: |before| <= i < |after| ==> Fills(after[i], name)
  }

  // ---- The steps of a plan ----

  lemma {:induction false} SplitsFill(saved: Window, window: WindowRef, first: PaneRef, refs: nat, n: nat, name: Text)
    requires n <= |saved.panes|
    ensures forall step :: step in Splits(saved, window, first, refs, n) ==> Fills(step, name)
  {
    if n > 1 { SplitsFill(saved, window, first, refs, n - 1, name); }
  }

  lemma {:induction false} ContentsFill(saved: Window, first: PaneRef, refs: nat, n: nat, name: Text)
    requires n <= |saved.panes|
    ensures forall step :: step in Contents(saved, first, refs, n) ==> Fills(step, name)
  {
    if n > 0 { ContentsFill(saved, first, refs, n - 1, name); }
  }

  lemma FurnishFills(c: Context, d: Draft, saved: Window, window: WindowRef, first: PaneRef, name: Text)
    requires ValidWindow(saved)
    ensures GoesOn(d.steps, Furnish(c, d, saved, window, first).steps, name)
  {
    SplitsFill(saved, window, first, d.refs, |saved.panes|, name);
    ContentsFill(saved, first, d.refs, |saved.panes|, name);
    var more := FurnishSteps(c.generation, saved, window, first, d.refs);
    assert forall step :: step in more ==> Fills(step, name);
    var after := d.steps + more;
    forall i | |d.steps| <= i < |after| ensures Fills(after[i], name) { assert after[i] in more; }
  }

  lemma GoesOnChains(a: seq<Step>, b: seq<Step>, c: seq<Step>, name: Text)
    requires GoesOn(a, b, name) && GoesOn(b, c, name)
    ensures GoesOn(a, c, name)
  {
    forall i | |a| <= i < |c| ensures Fills(c[i], name) {
      if i < |b| { assert c[i] == b[i]; }
    }
  }

  lemma ValidHasPanes(saved: Window)
    requires ValidWindow(saved)
    ensures |saved.panes| > 0
  {}

  lemma AddLinkFills(c: Context, l: Linking, name: Text, lack: Lack)
    requires Coherent(c.snapshot) && HoldsWindow(c.snapshot.windows, lack.window)
    ensures GoesOn(l.draft.steps, AddLink(c, l, name, lack).draft.steps, name)
  {
    hide Coherent, Furnish, ValidWindow, WindowOf, Present;
    SavedIsValid(c, l.draft, lack.window);
    ValidHasPanes(WindowOf(c.snapshot, lack.window));
    var d := l.draft;
    if Existing(c, d, lack.window).None? {
      var w := WindowOf(c.snapshot, lack.window);
      var made := d.(steps := d.steps + [NewWindow(name, lack.index, w.name, KnownCwd(w.panes[0].cwd), d.refs, d.refs)],
                     refs := d.refs + 1);
      FurnishFills(c, made, w, d.refs, d.refs, name);
      GoesOnChains(d.steps, made.steps, Furnish(c, made, w, d.refs, d.refs).steps, name);
    }
  }

  lemma {:induction false} AddLinksFill(c: Context, l: Linking, name: Text, missing: seq<Lack>)
    requires Coherent(c.snapshot) && AllHeld(c.snapshot, missing)
    ensures GoesOn(l.draft.steps, AddLinks(c, l, name, missing).draft.steps, name)
    decreases |missing|
  {
    hide Coherent, GoesOn, AddLink;
    if |missing| == 0 {
      GoesNowhere(l.draft.steps, name);
    } else {
      AddLinksStep(c, l, name, missing);
      var next := AddLink(c, l, name, missing[0]);
      AddLinkFills(c, l, name, missing[0]);
      AddLinksFill(c, next, name, missing[1..]);
      GoesOnChains(l.draft.steps, next.draft.steps, AddLinks(c, l, name, missing).draft.steps, name);
    }
  }

  lemma GoesNowhere(steps: seq<Step>, name: Text)
    ensures GoesOn(steps, steps, name)
  {}

  lemma SessionFills(c: Context, d: Draft, name: Text, missing: seq<Lack>)
    requires Coherent(c.snapshot) && AllHeld(c.snapshot, missing)
    requires LiveSession(c, name).None? ==> |missing| > 0
    ensures GoesOn(d.steps, FillSession(c, d, name, missing).steps, name)
  {
    hide Coherent, AddLinks, Furnish, Existing;
    if LiveSession(c, name).Some? {
      AddLinksFill(c, Linking(CloseScratch(d, name), None), name, missing);
      GoesOnChains(d.steps, CloseScratch(d, name).steps, FillSession(c, d, name, missing).steps, name);
    } else {
      var o := OpenSession(c, d, name, missing);
      var closed := CloseScratch(o.draft, name);
      GoesOnChains(d.steps, o.draft.steps, closed.steps, name);
      match o.seed
      case None =>
        AddLinksFill(c, Linking(closed, Some(o.window)), name, o.missing);
        GoesOnChains(d.steps, closed.steps, FillSession(c, d, name, missing).steps, name);
      case Some(id) =>
        SavedIsValid(c, d, id);
        var e := Furnish(c, closed, WindowOf(c.snapshot, id), o.window, o.pane);
        FurnishFills(c, closed, WindowOf(c.snapshot, id), o.window, o.pane, name);
        GoesOnChains(d.steps, closed.steps, e.steps, name);
        AddLinksFill(c, Linking(e, None), name, o.missing);
        GoesOnChains(d.steps, e.steps, FillSession(c, d, name, missing).steps, name);
    }
  }

  ghost predicate AllAvoid(steps: seq<Step>, n: Text) {
    forall i :: 0 <= i < |steps| ==> Avoids(steps[i], n)
  }

  lemma GoesOnAvoids(before: seq<Step>, after: seq<Step>, name: Text, n: Text)
    requires GoesOn(before, after, name) && AllAvoid(before, n) && name != n
    ensures AllAvoid(after, n)
  {
    forall i | 0 <= i < |after| ensures Avoids(after[i], n) {
      if i < |before| { assert after[i] == before[i]; }
    }
  }

  lemma FinishAvoids(c: Context, e: Draft, saved: Session, before: nat, n: Text)
    requires AllAvoid(e.steps, n) && saved.name != n
    ensures AllAvoid(FinishSession(c, e, saved, before).steps, n)
  {
    hide LiveSession, Unfinished;
  }

  /** The draft of one session: what fills it, then what finishes it. */
  lemma DraftIs(c: Context, d: Draft, saved: Session) returns (e: Draft)
    requires Coherent(c.snapshot) && saved in c.snapshot.sessions && Addressable(saved.name)
    ensures GoesOn(d.steps, e.steps, saved.name)
    ensures DraftSession(c, d, saved) == FinishSession(c, e, saved, |d.steps|)
  {
    var missing := Lacking(c, saved, LiveLinks(c, saved.name));
    LackingIsKnown(c, saved, LiveLinks(c, saved.name));
    SessionFills(c, Noted(c, d, saved), saved.name, missing);
    hide Coherent, FillSession, Lacking, LiveLinks, FinishSession, GoesOn;
    e := FillSession(c, Noted(c, d, saved), saved.name, missing);
  }

  lemma DraftAvoids(c: Context, d: Draft, saved: Session, n: Text)
    requires Coherent(c.snapshot) && saved in c.snapshot.sessions && saved.name != n && AllAvoid(d.steps, n)
    ensures AllAvoid(DraftSession(c, d, saved).steps, n)
  {
    if Addressable(saved.name) {
      hide Coherent, DraftSession, FinishSession, GoesOn, AllAvoid;
      var e := DraftIs(c, d, saved);
      GoesOnAvoids(d.steps, e.steps, saved.name, n);
      FinishAvoids(c, e, saved, |d.steps|, n);
    }
  }

  /** No step for any of the first `k` sessions touches one of another name. */
  lemma {:induction false} DraftsAvoid(c: Context, d: Draft, k: nat, n: Text)
    requires Coherent(c.snapshot) && k <= |c.snapshot.sessions| && AllAvoid(d.steps, n)
    requires forall j :: 0 <= j < k ==> c.snapshot.sessions[j].name != n
    ensures AllAvoid(DraftSessions(c, d, k).steps, n)
  {
    hide Coherent, DraftSession, AllAvoid;
    if k > 0 {
      DraftsAvoid(c, d, k - 1, n);
      DraftAvoids(c, DraftSessions(c, d, k - 1), c.snapshot.sessions[k - 1], n);
    }
  }

  // ---- What such steps leave alone ----

  /** Session `n` has no link in `t` but those it has in `s`. */
  ghost predicate NoNewLinks(s: Server, t: Server, n: Text) {
    forall at: T.Slot :: at.session == n && at in t.links ==> at in s.links && t.links[at] == s.links[at]
  }

  /** The steps that link or unlink. */
  predicate Relinks(step: Step) {
    step.CreateSession? || step.MoveWindow? || step.NewWindow? || step.LinkWindow? || step.KillSession?
  }

  lemma OthersKeepLinks(m: Machine, step: Step)
    requires !Relinks(step) && RunStep(m, step).Ran?
    ensures RunStep(m, step).m.server.links == m.server.links
    ensures forall n :: MarksNot(step, n) && n !in m.server.restored ==> n !in RunStep(m, step).m.server.restored
  {
    hide RunStep;
    if step.SplitPane? {
      SplitKeepsLinks(m, step);
    } else if step.ReplayContent? || step.Relaunch? {
      TypingKeepsLinks(m, step);
    } else if step.SetOption? {
      MarkingKeepsLinks(m, step);
    } else {
      SettingKeepsLinks(m, step);
    }
  }

  lemma SplitKeepsLinks(m: Machine, step: Step)
    requires step.SplitPane? && RunStep(m, step).Ran?
    ensures RunStep(m, step).m.server.links == m.server.links && RunStep(m, step).m.server.restored == m.server.restored
  {}

  lemma TypingKeepsLinks(m: Machine, step: Step)
    requires (step.ReplayContent? || step.Relaunch?) && RunStep(m, step).Ran?
    ensures RunStep(m, step).m.server.links == m.server.links && RunStep(m, step).m.server.restored == m.server.restored
  {}

  lemma MarkingKeepsLinks(m: Machine, step: Step)
    requires step.SetOption? && RunStep(m, step).Ran?
    ensures RunStep(m, step).m.server.links == m.server.links
    ensures forall n :: MarksNot(step, n) && n !in m.server.restored ==> n !in RunStep(m, step).m.server.restored
  {
    match step.setting
    case ServerMark(g) => assert RunStep(m, step) == Left(m, T.MarkServer(m.server, g));
    case SessionMark(session, g) => assert RunStep(m, step) == Left(m, T.MarkSession(m.server, session, g));
    case WindowMark(window, g, saved) =>
      assert RunStep(m, step) == Left(m, T.MarkWindow(m.server, m.bound.windows[window], g, saved));
  }

  lemma SettingKeepsLinks(m: Machine, step: Step)
    requires step.SelectLayout? || step.SelectPane? || step.SelectWindow? || step.SwitchClients?
    requires RunStep(m, step).Ran?
    ensures RunStep(m, step).m.server.links == m.server.links && RunStep(m, step).m.server.restored == m.server.restored
  {}

  lemma MovedNoNewLinks(s: Server, v: Id, session: Text, to: Index, n: Text)
    requires session != n && T.MoveWindow(s, v, session, to).Some?
    ensures NoNewLinks(s, T.MoveWindow(s, v, session, to).value, n)
  {}

  lemma LinkedNoNewLinks(s: Server, v: Id, into: Text, index: Index, kill: bool, n: Text)
    requires into != n && T.LinkWindow(s, v, into, index, kill).Some?
    ensures NoNewLinks(s, T.LinkWindow(s, v, into, index, kill).value, n)
  {}

  lemma AvoidedStep(m: Machine, step: Step, n: Text)
    requires Avoids(step, n) && RunStep(m, step).Ran?
    ensures NoNewLinks(m.server, RunStep(m, step).m.server, n)
  {
    if !Relinks(step) {
      OthersKeepLinks(m, step);
    } else {
      hide T.MoveWindow, T.LinkWindow;
      match step
      case MoveWindow(window, session, to) => MovedNoNewLinks(m.server, m.bound.windows[window], session, to, n);
      case LinkWindow(source, into, index, replacing) =>
        LinkedNoNewLinks(m.server, SourceOf(m, source), into, index, replacing.Some?, n);
      case _ =>
    }
  }

  lemma {:induction false} AvoidedRun(m: Machine, steps: seq<Step>, n: Text)
    requires AllAvoid(steps, n) && Exec(m, steps).Ran?
    ensures NoNewLinks(m.server, Exec(m, steps).m.server, n)
    decreases |steps|
  {
    hide RunStep, Avoids;
    if |steps| > 0 {
      AvoidedRun(m, steps[..|steps| - 1], n);
      AvoidedStep(Exec(m, steps[..|steps| - 1]).m, steps[|steps| - 1], n);
    }
  }

  lemma UnmarkedStep(m: Machine, step: Step, n: Text)
    requires MarksNot(step, n) && RunStep(m, step).Ran? && n !in m.server.restored
    ensures n !in RunStep(m, step).m.server.restored
  {
    hide RunStep;
    if !Relinks(step) {
      OthersKeepLinks(m, step);
    } else {
      RelinksUnmarked(m, step);
    }
  }

  lemma RelinksUnmarked(m: Machine, step: Step)
    requires Relinks(step) && RunStep(m, step).Ran?
    ensures RunStep(m, step).m.server.restored.Keys <= m.server.restored.Keys
  {
    hide T.Reap;
  }

  lemma {:induction false} UnmarkedRun(m: Machine, steps: seq<Step>, n: Text)
    requires (forall i :: 0 <= i < |steps| ==> MarksNot(steps[i], n)) && Exec(m, steps).Ran? && n !in m.server.restored
    ensures n !in Exec(m, steps).m.server.restored
    decreases |steps|
  {
    hide RunStep, MarksNot;
    if |steps| > 0 {
      UnmarkedRun(m, steps[..|steps| - 1], n);
      UnmarkedStep(Exec(m, steps[..|steps| - 1]).m, steps[|steps| - 1], n);
    }
  }

  // ---- A scratch that is still there is still nobody's ----

  lemma ScratchIsAvoided(g: Generation, snapshot: Snapshot, onto: Onto, n: Text)
    requires Coherent(snapshot) && !HoldsSession(snapshot.sessions, n)
    ensures AllAvoid(PlanOf(g, snapshot, onto).steps, n)
  {
    hide Coherent, PlanOf, DraftSessions, Unfinished;
    var c := ContextOf(g, snapshot, onto);
    DraftsAvoid(c, Blank(onto), |snapshot.sessions|, n);
    PlanIsBody(g, snapshot, onto);
  }

  /** Wherever a restore stops with its scratch still there, the scratch is still
      a session no snapshot has, holding no window that is a saved one. */
  lemma ScratchStaysOwn(g: Generation, snapshot: Snapshot, onto: Onto, s: Server, k: nat, t: Server)
    requires CutShort(g, snapshot, onto, s, k, t) && onto.OntoScratch? && onto.scratch in t.sessions
    ensures OwnScratch(g, snapshot, t, onto.scratch)
  {
    var n := onto.scratch;
    CutShortIsReady(g, snapshot, onto, s, k, t);
    CutShortIsSafe(g, snapshot, onto, s, k, t);
    OldIsUnchanged(g, snapshot, onto, s, k, t);
    ScratchIsAvoided(g, snapshot, onto, n);
    hide Coherent, PlanOf, Exec, T.Captures, Unambiguous, Avoids;
    AvoidedRun(Start(s), PlanOf(g, snapshot, onto).steps[..k], n);
    assert NoNewLinks(s, t, n);
    assert t.origin == s.origin;
  }

  // ---- A session finished and never marked ----

  /** Every step that does not mark the last saved session leaves it unmarked. */
  lemma LastIsMarkedLast(g: Generation, snapshot: Snapshot, live: Snapshot, saved: Session)
    requires Coherent(snapshot) && |snapshot.sessions| > 0 && saved == snapshot.sessions[|snapshot.sessions| - 1]
    requires Addressable(saved.name) && live.touched == By(g)
    requires forall k :: 0 <= k < |live.sessions| ==> live.sessions[k].name != saved.name
    ensures var steps := PlanOf(g, snapshot, OntoServer(live)).steps;
            && |steps| > 0 && steps[|steps| - 1] == SetOption(SessionMark(saved.name, g))
            && forall i :: 0 <= i < |steps| - 1 ==> MarksNot(steps[i], saved.name)
  {
    hide Coherent, DraftSession, LiveSession, PlanOf, DraftSessions, FinishSession, AllAvoid, GoesOn, MarksNot;
    var onto := OntoServer(live);
    var c := ContextOf(g, snapshot, onto);
    var k := |snapshot.sessions| - 1;
    var d := DraftSessions(c, Blank(onto), k);
    OthersAreNamedApart(snapshot);
    NotLive(c, saved.name);
    BlankAvoids(onto, saved.name);
    DraftsAvoid(c, Blank(onto), k, saved.name);
    var e := DraftIs(c, d, saved);
    PlanEndsWithTheLast(g, snapshot, live);
    FinishedMarksLast(c, d, e, saved);
  }

  lemma OthersAreNamedApart(snapshot: Snapshot)
    requires Coherent(snapshot) && |snapshot.sessions| > 0
    ensures var last := |snapshot.sessions| - 1;
            forall j :: 0 <= j < last ==> snapshot.sessions[j].name != snapshot.sessions[last].name
  {
    hide ValidWindow, ValidSession, LinksResolve;
  }

  lemma NotLive(c: Context, name: Text)
    requires c.live.Some? && forall k :: 0 <= k < |c.live.value.sessions| ==> c.live.value.sessions[k].name != name
    ensures LiveSession(c, name).None?
  {}

  lemma BlankAvoids(onto: Onto, n: Text)
    ensures AllAvoid(Blank(onto).steps, n)
  {}

  lemma PlanEndsWithTheLast(g: Generation, snapshot: Snapshot, live: Snapshot)
    requires Coherent(snapshot) && |snapshot.sessions| > 0 && live.touched == By(g)
    ensures var c := ContextOf(g, snapshot, OntoServer(live));
            var k := |snapshot.sessions| - 1;
            PlanOf(g, snapshot, OntoServer(live)).steps
            == DraftSession(c, DraftSessions(c, Blank(OntoServer(live)), k), snapshot.sessions[k]).steps
  {
    hide Coherent, DraftSession;
  }

  lemma FinishedMarksLast(c: Context, d: Draft, e: Draft, saved: Session)
    requires AllAvoid(d.steps, saved.name) && GoesOn(d.steps, e.steps, saved.name) && LiveSession(c, saved.name).None?
    ensures var steps := FinishSession(c, e, saved, |d.steps|).steps;
            && |steps| > 0 && steps[|steps| - 1] == SetOption(SessionMark(saved.name, c.generation))
            && forall i :: 0 <= i < |steps| - 1 ==> MarksNot(steps[i], saved.name)
  {
    hide LiveSession, Unfinished;
    var steps := FinishSession(c, e, saved, |d.steps|).steps;
    assert steps == e.steps + [SelectWindow(saved.name, saved.active), SetOption(SessionMark(saved.name, c.generation))];
    forall i | 0 <= i < |steps| - 1 ensures MarksNot(steps[i], saved.name) {
      if i < |d.steps| { assert steps[i] == d.steps[i] && Avoids(d.steps[i], saved.name); }
      else if i < |e.steps| { assert steps[i] == e.steps[i]; }
    }
  }

  /** Only marks differ, so what is finished stays so. */
  lemma MarkingFinishes(g: Generation, snapshot: Snapshot, t: Server, u: Server)
    requires Finished(g, snapshot, u) && t == u.(restored := t.restored)
    ensures Finished(g, snapshot, t)
  {
    forall k | 0 <= k < |snapshot.sessions| && Addressable(snapshot.sessions[k].name)
      ensures Complete(g, snapshot, t, snapshot.sessions[k])
    {
      forall id ensures Places(g, snapshot, t, snapshot.sessions[k].name, id)
                     == Places(g, snapshot, u, snapshot.sessions[k].name, id) {}
    }
  }

  /** A program that ends by marking a session differs from its beginning only by
      that mark. */
  lemma LastStepMarks(m: Machine, steps: seq<Step>, n: Text, g: Generation)
    requires |steps| > 0 && steps[|steps| - 1] == SetOption(SessionMark(n, g)) && Exec(m, steps).Ran?
    ensures var before := Exec(m, steps[..|steps| - 1]);
            before.Ran? && before.m.server == Exec(m, steps).m.server.(restored := before.m.server.restored)
  {
    hide T.NewSession, T.NewWindow, T.MoveWindow, T.LinkWindow, T.SplitWindow, T.TypeInto, T.KillSession;
  }

  /** A restore onto a server that already carries the generation's mark, of which
      it has lost the last saved session, stopped one step short: the session is
      complete, the plan after it is empty, and the mark never comes. */
  lemma StoppedBeforeItsMark(g: Generation, snapshot: Snapshot, live: Snapshot, s: Server, k: nat, t: Server, after: Snapshot, saved: Session)
    requires Coherent(snapshot) && |snapshot.sessions| > 0 && saved == snapshot.sessions[|snapshot.sessions| - 1]
    requires Addressable(saved.name) && saved.name !in s.sessions && saved.name !in s.restored && s.mark == By(g)
    requires k + 1 == |PlanOf(g, snapshot, OntoServer(live)).steps| && CutShort(g, snapshot, OntoServer(live), s, k, t)
    requires T.Captures(after, t)
    ensures Complete(g, snapshot, t, saved) && saved.name !in t.restored
    ensures PlanOf(g, snapshot, OntoServer(after)).steps == []
  {
    hide Coherent, PlanOf, T.Captures, Ready, MarksNot, Complete, Finished, Launches, Exec, RunStep, Addressable;
    var onto := OntoServer(live);
    CapturesLacks(live, s, saved.name) by { LaunchesAt(g, snapshot, onto, s); LaunchesCaptures(g, snapshot, onto, s); }
    LastIsMarkedLast(g, snapshot, live, saved);
    CutShortIsReady(g, snapshot, onto, s, k, t);
    var steps := PlanOf(g, snapshot, onto).steps;
    UnmarkedRun(Start(s), steps[..k], saved.name);
    NoStepIsRefused(g, snapshot, onto, s, |steps|);
    assert steps[..|steps|] == steps;
    var u := Exec(Start(s), steps).m.server;
    LastStepMarks(Start(s), steps, saved.name, g);
    RestoreFinishes(g, snapshot, onto, s, u);
    MarkingFinishes(g, snapshot, t, u);
    FinishedIsComplete(g, snapshot, t, |snapshot.sessions| - 1);
    PlanIsEmptyWhenFinished(g, snapshot, after, t);
  }

  lemma FinishedIsComplete(g: Generation, snapshot: Snapshot, t: Server, k: nat)
    requires Finished(g, snapshot, t) && k < |snapshot.sessions| && Addressable(snapshot.sessions[k].name)
    ensures Complete(g, snapshot, t, snapshot.sessions[k])
  {
    hide Complete, Addressable;
  }

  lemma LaunchesCaptures(g: Generation, snapshot: Snapshot, onto: Onto, s: Server)
    requires Launches(g, snapshot, onto, s)
    ensures !onto.OntoNoServer? && T.Captures(onto.live, s)
  {
    hide Coherent, Ready, T.Captures;
  }

  lemma CapturesLacks(live: Snapshot, s: Server, name: Text)
    requires T.Captures(live, s) && name !in s.sessions
    ensures live.touched == s.mark && forall k :: 0 <= k < |live.sessions| ==> live.sessions[k].name != name
  {}

  const NAME: Text := [97]

  function OneSession(): Snapshot {
    Snapshot(BeforeOriginWasRecorded, Never, 0, Version(3, 7),
             [Window(3, NotByPhoenix, NAME, NAME, false, [Pane(0, 0, Unreadable, Shell, NotCaptured(ContentNotRecorded))], 0)],
             [Session(NAME, None, [WinLink(0, 3)], 0, None)], [])
  }

  lemma OneSessionIsCoherent()
    ensures Coherent(OneSession())
  {
    var s := OneSession();
    assert s.windows[0].panes[0].index == 0;
    assert s.sessions[0].windows[0].index == 0;
    assert s.windows[0].id == 3;
  }

  const OTHER: Text := [98]

  /** A server that carries generation 7's mark and has lost its one session. */
  function Lost(): Server {
    T.Server(Recorded(1, 1), 0, By(7), {OTHER}, map[T.Slot(OTHER, 0) := 10], map[OTHER := 0], map[],
             map[10 := T.Win(NotByPhoenix, None, None, [T.LivePane(4, None, [])], 4)],
             map[4 := 10], map[], 11, 5)
  }

  lemma LostIsReady()
    ensures Ready(7, OneSession(), Lost())
  {
    var s := Lost();
    assert s.links[T.Slot(OTHER, 0)] == 10;
    assert T.LinkedIn(s.links, 10);
    UnstampedIsReady(7, OneSession(), s);
  }

  lemma LostLaunches(live: Snapshot)
    requires T.Captures(live, Lost())
    ensures Coherent(OneSession()) && Launches(7, OneSession(), OntoServer(live), Lost())
    ensures live.touched == By(7) && forall j :: 0 <= j < |live.sessions| ==> live.sessions[j].name != NAME
  {
    LostIsReady();
    OneSessionIsCoherent();
    hide Ready, Coherent;
    assert forall j :: 0 <= j < |live.sessions| ==> live.sessions[j].name in Lost().sessions;
  }

  /** So a session can be finished and never marked: here is a restore
      cut short that leaves its one session complete and unmarked, with an empty
      plan ever after. */
  lemma AFinishedSessionCanStayUnmarked() returns (live: Snapshot, k: nat, t: Server)
    ensures Coherent(OneSession()) && CutShort(7, OneSession(), OntoServer(live), Lost(), k, t)
    ensures Complete(7, OneSession(), t, OneSession().sessions[0]) && NAME !in t.restored
    ensures forall after :: T.Captures(after, t) ==> PlanOf(7, OneSession(), OntoServer(after)).steps == []
  {
    var (s, snapshot) := (Lost(), OneSession());
    hide T.Captures, Ready, Coherent, PlanOf, Launches, Exec, Complete;
    live := CaptureExists(s);
    LostLaunches(live);
    LastIsMarkedLast(7, snapshot, live, snapshot.sessions[0]);
    k := |PlanOf(7, snapshot, OntoServer(live)).steps| - 1;
    NoStepIsRefused(7, snapshot, OntoServer(live), s, k);
    t := Exec(Start(s), PlanOf(7, snapshot, OntoServer(live)).steps[..k]).m.server;
    var one := CaptureExists(t);
    StoppedBeforeItsMark(7, snapshot, live, s, k, t, one, snapshot.sessions[0]);
    forall after | T.Captures(after, t) ensures PlanOf(7, snapshot, OntoServer(after)).steps == [] {
      StoppedBeforeItsMark(7, snapshot, live, s, k, t, after, snapshot.sessions[0]);
    }
  }
}
