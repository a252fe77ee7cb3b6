/** A whole restore as the words it sends: every step of a plan can be said, so sending
    the plan is running it, and tmux refuses none of its commands. */
module Conveying {
  import opened Wrappers
  import opened Snapshots
  import opened Steps
  import opened Planner
  import opened Applying
  import opened Obeying
  import opened Relaying
  import Convergence
  import S = Scratch
  import T = Tmux

  // ---- Every step of a plan can be said ----

  ghost predicate AllSayable(steps: seq<Step>) { forall step :: step in steps ==> Sayable(step) }

  /** No window's layout is one tmux would take for a flag. */
  predicate Undashed(snapshot: Snapshot) {
    forall i :: 0 <= i < |snapshot.windows| ==> !Dashed(snapshot.windows[i].layout)
  }

  /** The scratch, while there is one, can be addressed. */
  predicate ScratchOk(d: Draft) { d.scratch.Some? ==> Addressable(d.scratch.value) }

  ghost predicate DraftOk(d: Draft) { AllSayable(d.steps) && ScratchOk(d) }

  lemma SayableConcat(a: seq<Step>, b: seq<Step>)
    requires AllSayable(a) && AllSayable(b)
    ensures AllSayable(a + b)
  {
    hide Sayable;
  }

  lemma {:induction false} SplitsSayable(saved: Window, window: WindowRef, first: PaneRef, refs: nat, n: nat)
    requires n <= |saved.panes|
    ensures AllSayable(Splits(saved, window, first, refs, n))
  {
    if n > 1 {
      SplitsSayable(saved, window, first, refs, n - 1);
      assert TILED[0] == 116;
      SayableConcat(Splits(saved, window, first, refs, n - 1),
                    [SplitPane(PaneOf(first, refs, n - 2), KnownCwd(saved.panes[n - 1].cwd), PaneOf(first, refs, n - 1)),
                     SelectLayout(window, TILED)]);
    }
  }

  lemma {:induction false} ContentsSayable(saved: Window, first: PaneRef, refs: nat, n: nat)
    requires n <= |saved.panes|
    ensures AllSayable(Contents(saved, first, refs, n))
  {
    if n > 0 {
      ContentsSayable(saved, first, refs, n - 1);
      var (pane, ref) := (saved.panes[n - 1], PaneOf(first, refs, n - 1));
      SayableConcat(Contents(saved, first, refs, n - 1), Replay(pane, ref));
      SayableConcat(Contents(saved, first, refs, n - 1) + Replay(pane, ref), Launch(pane, ref));
    }
  }

  lemma FurnishSayable(g: Generation, saved: Window, window: WindowRef, first: PaneRef, refs: nat)
    requires ValidWindow(saved) && !Dashed(saved.layout)
    ensures AllSayable(FurnishSteps(g, saved, window, first, refs))
  {
    hide Splits, Contents, ActivePane, Dashed, AllSayable;
    var n := |saved.panes|;
    SplitsSayable(saved, window, first, refs, n);
    ContentsSayable(saved, first, refs, n);
    var layout := SelectLayout(window, saved.layout);
    var (select, stamp) := (SelectPane(PaneOf(first, refs, ActivePane(saved))), SetOption(WindowMark(window, g, saved.id)));
    assert AllSayable([layout]) && AllSayable([select, stamp]) by { OneSayable(layout); TwoSayable(select, stamp); }
    SayableConcat(Splits(saved, window, first, refs, n), [layout]);
    SayableConcat(Splits(saved, window, first, refs, n) + [layout], Contents(saved, first, refs, n));
    SayableConcat(Splits(saved, window, first, refs, n) + [layout] + Contents(saved, first, refs, n), [select, stamp]);
  }

  lemma OneSayable(step: Step)
    requires Sayable(step)
    ensures AllSayable([step])
  {}

  lemma TwoSayable(a: Step, b: Step)
    requires Sayable(a) && Sayable(b)
    ensures AllSayable([a, b])
  {}

  lemma FurnishOk(c: Context, d: Draft, id: Id, window: WindowRef, first: PaneRef)
    requires DraftOk(d) && Undashed(c.snapshot) && HoldsWindow(c.snapshot.windows, id)
    requires ValidWindow(WindowOf(c.snapshot, id))
    ensures DraftOk(Furnish(c, d, WindowOf(c.snapshot, id), window, first))
  {
    hide AllSayable, FurnishSteps, Dashed, ValidWindow;
    var w := WindowOf(c.snapshot, id);
    assert w in c.snapshot.windows;
    FurnishSayable(c.generation, w, window, first, d.refs);
    SayableConcat(d.steps, FurnishSteps(c.generation, w, window, first, d.refs));
  }

  lemma CloseOk(d: Draft, to: Text)
    requires DraftOk(d) && Addressable(to)
    ensures DraftOk(CloseScratch(d, to))
  {
    hide AllSayable, Addressable;
    if d.scratch.Some? {
      TwoSayable(SwitchClients(d.scratch.value, to), KillSession(d.scratch.value));
      SayableConcat(d.steps, [SwitchClients(d.scratch.value, to), KillSession(d.scratch.value)]);
    }
  }

  lemma AddOk(c: Context, l: Linking, name: Text, lack: Lack)
    requires Coherent(c.snapshot) && HoldsWindow(c.snapshot.windows, lack.window)
    requires DraftOk(l.draft) && Undashed(c.snapshot) && Addressable(name)
    ensures DraftOk(AddLink(c, l, name, lack).draft)
  {
    hide AllSayable, Addressable, Furnish, Existing, Undashed, WindowOf, HoldsWindow;
    var d := l.draft;
    match Existing(c, d, lack.window)
    case Some(source) =>
      OneSayable(LinkWindow(source, name, lack.index, l.placeholder));
      SayableConcat(d.steps, [LinkWindow(source, name, lack.index, l.placeholder)]);
    case None =>
      var w := WindowOf(c.snapshot, lack.window);
      assert ValidWindow(w);
      var step := NewWindow(name, lack.index, w.name, KnownCwd(w.panes[0].cwd), d.refs, d.refs);
      OneSayable(step);
      SayableConcat(d.steps, [step]);
      FurnishOk(c, d.(steps := d.steps + [step], refs := d.refs + 1), lack.window, d.refs, d.refs);
  }

  lemma {:induction false} AddAllOk(c: Context, l: Linking, name: Text, missing: seq<Lack>)
    requires Coherent(c.snapshot) && AllHeld(c.snapshot, missing)
    requires DraftOk(l.draft) && Undashed(c.snapshot) && Addressable(name)
    ensures DraftOk(AddLinks(c, l, name, missing).draft)
    decreases |missing|
  {
    hide DraftOk, Addressable, AddLink, Undashed, Coherent, HoldsWindow;
    if |missing| > 0 {
      assert HoldsWindow(c.snapshot.windows, missing[0].window);
      AddOk(c, l, name, missing[0]);
      assert forall k :: 1 <= k < |missing| ==> missing[1..][k - 1] == missing[k];
      AddAllOk(c, AddLink(c, l, name, missing[0]), name, missing[1..]);
    }
  }

  lemma OpenOk(c: Context, d: Draft, name: Text, missing: seq<Lack>)
    requires |missing| > 0 && Coherent(c.snapshot) && AllHeld(c.snapshot, missing)
    requires DraftOk(d) && Addressable(name)
    ensures DraftOk(OpenSession(c, d, name, missing).draft)
  {
    hide AllSayable, Addressable, Existing, WindowOf, HoldsWindow;
    var steps := OpenSession(c, d, name, missing).draft.steps;
    var (create, move) := (steps[|d.steps|], steps[|d.steps| + 1]);
    TwoSayable(create, move);
    SayableConcat(d.steps, [create, move]);
    assert steps == d.steps + [create, move];
  }

  lemma FillOk(c: Context, d: Draft, name: Text, missing: seq<Lack>)
    requires Coherent(c.snapshot) && AllHeld(c.snapshot, missing)
    requires LiveSession(c, name).None? ==> |missing| > 0
    requires DraftOk(d) && Undashed(c.snapshot) && Addressable(name)
    ensures DraftOk(FillSession(c, d, name, missing))
  {
    hide DraftOk, Addressable, AddLinks, Undashed, OpenSession, CloseScratch, Furnish, LiveSession, HoldsWindow;
    if LiveSession(c, name).Some? {
      CloseOk(d, name);
      AddAllOk(c, Linking(CloseScratch(d, name), None), name, missing);
    } else {
      var o := OpenSession(c, d, name, missing);
      OpenOk(c, d, name, missing);
      CloseOk(o.draft, name);
      var closed := CloseScratch(o.draft, name);
      match o.seed
      case None => AddAllOk(c, Linking(closed, Some(o.window)), name, o.missing);
      case Some(id) =>
        assert ValidWindow(WindowOf(c.snapshot, id));
        FurnishOk(c, closed, id, o.window, o.pane);
        AddAllOk(c, Linking(Furnish(c, closed, WindowOf(c.snapshot, id), o.window, o.pane), None), name, o.missing);
    }
  }

  lemma FinishOk(c: Context, d: Draft, saved: Session, before: nat)
    requires DraftOk(d) && Addressable(saved.name)
    ensures DraftOk(FinishSession(c, d, saved, before))
  {
    hide AllSayable, Addressable, Unfinished, LiveSession;
    var (show, mark) := (SelectWindow(saved.name, saved.active), SetOption(SessionMark(saved.name, c.generation)));
    OneSayable(show);
    OneSayable(mark);
    SayableConcat(d.steps, [show]);
    SayableConcat(Shown(c, d, saved).steps, [mark]);
  }

  lemma SessionOk(c: Context, d: Draft, saved: Session)
    requires Coherent(c.snapshot) && saved in c.snapshot.sessions
    requires DraftOk(d) && Undashed(c.snapshot)
    ensures DraftOk(DraftSession(c, d, saved))
  {
    hide AllSayable, Addressable, Undashed, FillSession, FinishSession, LackingNotes, Lacking, LiveLinks, LiveSession;
    if Addressable(saved.name) {
      var links := LiveLinks(c, saved.name);
      var greeted := if LiveSession(c, saved.name).Some? then d.notes + [SessionPresent(saved.name)] else d.notes;
      var noted := d.(notes := greeted + LackingNotes(c, saved.name, saved, links));
      LackingIsKnown(c, saved, links);
      NoneLive(c, saved);
      FillOk(c, noted, saved.name, Lacking(c, saved, links));
      FinishOk(c, FillSession(c, noted, saved.name, Lacking(c, saved, links)), saved, |d.steps|);
    }
  }

  lemma NoneLive(c: Context, saved: Session)
    ensures LiveSession(c, saved.name).None? ==> LiveLinks(c, saved.name) == []
  {}

  lemma {:induction false} SessionsOk(c: Context, d: Draft, n: nat)
    requires Coherent(c.snapshot) && n <= |c.snapshot.sessions|
    requires DraftOk(d) && Undashed(c.snapshot)
    ensures DraftOk(DraftSessions(c, d, n))
  {
    hide DraftOk, Undashed, DraftSession, Coherent;
    if n > 0 {
      SessionsOk(c, d, n - 1);
      SessionOk(c, DraftSessions(c, d, n - 1), c.snapshot.sessions[n - 1]);
    }
  }

  /** Every step of a plan can be said, whatever the snapshot's sessions are called:
      those no target can name are left out of it. */
  lemma PlanIsSayable(g: Generation, snapshot: Snapshot, onto: Onto)
    requires Coherent(snapshot) && Undashed(snapshot)
    requires onto.Scratch().Some? ==> Addressable(onto.Scratch().value)
    ensures forall i :: 0 <= i < |PlanOf(g, snapshot, onto).steps| ==> Sayable(PlanOf(g, snapshot, onto).steps[i])
  {
    hide Sayable, DraftSessions, Coherent, Undashed, Addressable, Unfinished;
    var c := ContextOf(g, snapshot, onto);
    SessionsOk(c, Blank(onto), |snapshot.sessions|);
    MarkSayable(g);
    SayableConcat(DraftSessions(c, Blank(onto), |snapshot.sessions|).steps, Closing(c));
  }

  lemma MarkSayable(g: Generation)
    ensures Sayable(SetOption(ServerMark(g)))
  {}

  /** The session a restore makes to attach by is one it can address. */
  lemma ScratchIsAddressable(snapshot: Snapshot)
    ensures Addressable(S.ScratchName(snapshot))
  {
    var n := S.FirstFree(S.Names(snapshot.sessions), 0);
    var digits := Obeying.Blocks.Decimal(n);
    assert forall i :: 0 <= i < |digits| ==> Obeying.F.IsDigit(digits[i]);
    assert S.PREFIX[0] == 112 && Planner.COLON !in S.PREFIX;
  }

  // ---- Sending a plan is running it ----

  /** A restore sent command by command, each reply read for what it binds, leaves any
      server, at every step, exactly as the plan says. */
  lemma SendingIsRunning(a: Around, file: Text, g: Generation, snapshot: Snapshot, onto: Onto, s: T.Server, k: nat)
    requires Coherent(snapshot) && Undashed(snapshot) && ListsAll(a)
    requires onto.Scratch().Some? ==> Addressable(onto.Scratch().value)
    requires k <= |PlanOf(g, snapshot, onto).steps|
    ensures SentAll(a, file, Start(s), PlanOf(g, snapshot, onto).steps[..k])
            == Exec(Start(s), PlanOf(g, snapshot, onto).steps[..k])
  {
    hide Sayable, PlanOf, Coherent, Undashed, Addressable, ListsAll, SentAll, Exec;
    PlanIsSayable(g, snapshot, onto);
    var steps := PlanOf(g, snapshot, onto).steps[..k];
    assert forall i :: 0 <= i < |steps| ==> steps[i] == PlanOf(g, snapshot, onto).steps[i];
    SentAllIsRun(a, file, Start(s), steps);
  }

  /** tmux refuses no command a restore sends, and by its last the server is finished. */
  lemma SentPlanFinishes(a: Around, file: Text, g: Generation, snapshot: Snapshot, onto: Onto, s: T.Server)
    requires Coherent(snapshot) && Undashed(snapshot) && ListsAll(a) && Convergence.Launches(g, snapshot, onto, s)
    requires onto.Scratch().Some? ==> Addressable(onto.Scratch().value)
    ensures forall k :: 0 <= k <= |PlanOf(g, snapshot, onto).steps| ==>
              SentAll(a, file, Start(s), PlanOf(g, snapshot, onto).steps[..k]).Ran?
    ensures var sent := SentAll(a, file, Start(s), PlanOf(g, snapshot, onto).steps);
            sent.Ran? && Convergence.Finished(g, snapshot, sent.m.server)
  {
    hide PlanOf, Coherent, Undashed, Addressable, ListsAll, SentAll, Exec, Convergence.Launches, Convergence.Finished;
    var steps := PlanOf(g, snapshot, onto).steps;
    forall k | 0 <= k <= |steps| ensures SentAll(a, file, Start(s), steps[..k]).Ran? {
      SendingIsRunning(a, file, g, snapshot, onto, s, k);
      Convergence.NoStepIsRefused(g, snapshot, onto, s, k);
    }
    SendingIsRunning(a, file, g, snapshot, onto, s, |steps|);
    assert steps[..|steps|] == steps;
    Convergence.NoStepIsRefused(g, snapshot, onto, s, |steps|);
    Convergence.RestoreFinishes(g, snapshot, onto, s, Exec(Start(s), steps).m.server);
  }
}
