/** Around the convergence of restores: when a server is one a restore can start
    on, that it can be captured, that a dry run shows the plan, and exactly which
    sessions a restore marks as finished. */
module Previewing {
  import opened Wrappers
  import opened Snapshots
  import opened Planner
  import opened Applying
  import opened Safety
  import opened Sessions
  import opened Counting
  import opened Restoring
  import opened Convergence
  import opened Resuming
  import M = Matching
  import T = Tmux

  // ---- When a restore can start ----

  /** A server no window of which carries this generation's stamp is one a
      restore can start on: one never restored onto, whichever incarnation. */
  lemma UnstampedIsReady(g: Generation, snapshot: Snapshot, s: Server)
    requires T.WellFormed(s)
    requires forall v :: v in s.windows ==> !StampedBy(g, s.windows[v])
    requires snapshot.origin.Recorded? && snapshot.origin == s.origin ==>
               forall k :: 0 <= k < |snapshot.windows| ==> snapshot.windows[k].id < s.nextWindow
    ensures Ready(g, snapshot, s)
  {}

  // ---- Every server can be captured ----

  lemma {:induction false} Enumerate<X>(items: set<X>) returns (listed: seq<X>)
    ensures Distinct(listed) && |listed| == |items|
    ensures forall x :: x in listed <==> x in items
  {
    if items == {} {
      listed := [];
    } else {
      var x :| x in items;
      var rest := Enumerate(items - {x});
      listed := [x] + rest;
    }
  }

  lemma ListSession(s: Server, n: Text) returns (links: seq<WinLink>)
    ensures T.Lists(links, s.links, n)
  {
    var indices := Enumerate(set at | at in s.links && at.session == n :: at.index);
    assert forall i :: i in indices ==> T.Slot(n, i) in s.links;
    links := seq(|indices|, k requires 0 <= k < |indices| =>
      assert indices[k] in indices; WinLink(indices[k], s.links[T.Slot(n, indices[k])]));
    forall i | T.Slot(n, i) in s.links ensures HasIndex(links, i) {
      assert T.Slot(n, i).index in (set at | at in s.links && at.session == n :: at.index);
      assert i in indices;
      var k :| 0 <= k < |indices| && indices[k] == i;
      assert links[k].index == i;
    }
  }

  lemma {:induction false} ListSessions(s: Server, names: seq<Text>) returns (sessions: seq<Session>)
    requires Distinct(names) && forall n :: n in names ==> n in s.sessions
    ensures |sessions| == |names| && DistinctNames(sessions)
    ensures forall k :: 0 <= k < |names| ==> sessions[k].name == names[k] && T.Lists(sessions[k].windows, s.links, names[k])
  {
    if |names| == 0 {
      sessions := [];
    } else {
      var rest := ListSessions(s, names[..|names| - 1]);
      var n := names[|names| - 1];
      var links := ListSession(s, n);
      sessions := rest + [Session(n, None, links, 0, None)];
    }
  }

  lemma {:induction false} ListWindows(s: Server, ids: seq<Id>) returns (windows: seq<Window>)
    requires Distinct(ids) && forall v :: v in ids ==> v in s.windows
    ensures |windows| == |ids| && DistinctIds(windows)
    ensures forall k :: 0 <= k < |ids| ==> windows[k].id == ids[k] && windows[k].made == s.windows[ids[k]].made
  {
    if |ids| == 0 {
      windows := [];
    } else {
      var rest := ListWindows(s, ids[..|ids| - 1]);
      var v := ids[|ids| - 1];
      windows := rest + [Window(v, s.windows[v].made, [], [], false, [], 0)];
    }
  }

  lemma CaptureExists(s: Server) returns (live: Snapshot)
    ensures T.Captures(live, s)
  {
    var names := Enumerate(s.sessions);
    var sessions := ListSessions(s, names);
    var ids := Enumerate(s.windows.Keys);
    var windows := ListWindows(s, ids);
    live := Snapshot(s.origin, s.mark, 0, Version(0, 0), windows, sessions, []);
    forall v | v in s.windows ensures HoldsWindow(windows, v) {
      assert v in ids;
      var k :| 0 <= k < |ids| && ids[k] == v;
      assert windows[k].id == v;
    }
    forall n | n in s.sessions ensures HoldsSession(sessions, n) {
      assert n in names;
      var k :| 0 <= k < |names| && names[k] == n;
      assert sessions[k].name == n;
    }
  }

  /** The same claim from a server never restored onto: with nothing assumed of
      any server after it, there is a capture to plan from, the plan runs in
      full, and the plan from any capture of what it leaves is empty. */
  lemma ConvergesFromUnstamped(g: Generation, snapshot: Snapshot, trace: seq<Server>) returns (live: Snapshot, t: Server, after: Snapshot)
    requires Coherent(snapshot) && Interrupted(g, snapshot, trace) && T.WellFormed(trace[0])
    requires forall v :: v in trace[0].windows ==> !StampedBy(g, trace[0].windows[v])
    requires snapshot.origin.Recorded? && snapshot.origin == trace[0].origin ==>
               forall k :: 0 <= k < |snapshot.windows| ==> snapshot.windows[k].id < trace[0].nextWindow
    ensures T.Captures(live, trace[|trace| - 1]) && T.Captures(after, t)
    ensures var steps := PlanOf(g, snapshot, OntoServer(live)).steps;
            Exec(Start(trace[|trace| - 1]), steps).Ran? && t == Exec(Start(trace[|trace| - 1]), steps).m.server
    ensures Finished(g, snapshot, t) && AllStampsWhole(g, snapshot, t)
    ensures forall later :: T.Captures(later, t) ==> PlanOf(g, snapshot, OntoServer(later)).steps == []
  {
    UnstampedIsReady(g, snapshot, trace[0]);
    InterruptionsKeepReady(g, snapshot, trace);
    StampsStayWhole(g, snapshot, trace);
    var s := trace[|trace| - 1];
    live := CaptureExists(s);
    hide Coherent, Interrupted, T.Captures, Ready, T.WellFormed, PlanOf, Exec, Finished, AllStampsWhole;
    var onto := OntoServer(live);
    OpenedIsReady(g, snapshot, onto, s, s);
    var steps := PlanOf(g, snapshot, onto).steps;
    assert steps[..|steps|] == steps;
    NoStepIsRefused(g, snapshot, onto, s, |steps|);
    t := Exec(Start(s), steps).m.server;
    after := CaptureExists(t);
    forall later | T.Captures(later, t) ensures PlanOf(g, snapshot, OntoServer(later)).steps == [] {
      Converges(g, snapshot, trace, onto, s, t, later);
    }
    RestoreFinishes(g, snapshot, onto, s, t);
    CutShortStampsWhole(g, snapshot, onto, s, |steps|, t);
  }

  // ---- A dry run shows the plan ----

  /** Two contexts in which the plan finds the same things. */
  ghost predicate SameView(a: Context, b: Context) {
    && a.generation == b.generation && a.snapshot == b.snapshot
    && (Unfinished(a) <==> Unfinished(b))
    && (forall id :: Saved(a.snapshot, id) ==> Present(a, id) == Present(b, id))
    && (forall k :: 0 <= k < |a.snapshot.sessions| ==>
          LiveSession(a, a.snapshot.sessions[k].name) == LiveSession(b, a.snapshot.sessions[k].name))
  }

  lemma LackingSame(a: Context, b: Context, saved: Session)
    requires SameView(a, b) && Coherent(a.snapshot) && saved in a.snapshot.sessions
    ensures LiveSession(a, saved.name) == LiveSession(b, saved.name)
    ensures Wanted(a, saved) == Wanted(b, saved)
  {
    var k :| 0 <= k < |a.snapshot.sessions| && a.snapshot.sessions[k] == saved;
    assert LinksResolve(a.snapshot.windows, saved);
    forall i | 0 <= i < |saved.windows| ensures Wanted(a, saved)[i] == Wanted(b, saved)[i] {
      assert Saved(a.snapshot, saved.windows[i].window);
    }
  }

  lemma {:induction false} AddLinksSame(a: Context, b: Context, l: Linking, name: Text, missing: seq<Lack>)
    requires SameView(a, b) && Coherent(a.snapshot) && AllHeld(a.snapshot, missing)
    ensures AddLinks(a, l, name, missing) == AddLinks(b, l, name, missing)
    decreases |missing|
  {
    hide Coherent;
    if |missing| > 0 {
      AddLinksStep(a, l, name, missing);
      AddLinksStep(b, l, name, missing);
      assert AddLink(a, l, name, missing[0]) == AddLink(b, l, name, missing[0]);
      AddLinksSame(a, b, AddLink(a, l, name, missing[0]), name, missing[1..]);
    }
  }

  lemma OpenSame(a: Context, b: Context, d: Draft, name: Text, missing: seq<Lack>)
    requires SameView(a, b) && Coherent(a.snapshot) && AllHeld(a.snapshot, missing) && |missing| > 0
    ensures OpenSession(a, d, name, missing) == OpenSession(b, d, name, missing)
  {
    forall m | m in missing ensures Existing(a, d, m.window) == Existing(b, d, m.window) {
      var k :| 0 <= k < |missing| && missing[k] == m;
    }
    FindSame(missing, (m: Lack) => Existing(a, d, m.window).None?, (m: Lack) => Existing(b, d, m.window).None?);
  }

  lemma FillSame(a: Context, b: Context, d: Draft, name: Text, missing: seq<Lack>)
    requires SameView(a, b) && Coherent(a.snapshot) && AllHeld(a.snapshot, missing)
    requires LiveSession(a, name) == LiveSession(b, name) && (LiveSession(a, name).None? ==> |missing| > 0)
    ensures FillSession(a, d, name, missing) == FillSession(b, d, name, missing)
  {
    hide Coherent, AddLinks, OpenSession, SameView, Existing;
    if LiveSession(a, name).Some? {
      AddLinksSame(a, b, Linking(CloseScratch(d, name), None), name, missing);
    } else {
      OpenSame(a, b, d, name, missing);
      var o := OpenSession(a, d, name, missing);
      var closed := CloseScratch(o.draft, name);
      SameGround(a, b);
      match o.seed
      case None => AddLinksSame(a, b, Linking(closed, Some(o.window)), name, o.missing);
      case Some(id) =>
        SavedIsValid(a, d, id);
        AddLinksSame(a, b, Linking(Furnish(a, closed, WindowOf(a.snapshot, id), o.window, o.pane), None), name, o.missing);
    }
  }

  lemma SameGround(a: Context, b: Context)
    requires SameView(a, b)
    ensures a.generation == b.generation && a.snapshot == b.snapshot && (Unfinished(a) <==> Unfinished(b))
  {}

  lemma SessionSame(a: Context, b: Context, d: Draft, saved: Session)
    requires SameView(a, b) && Coherent(a.snapshot) && saved in a.snapshot.sessions
    ensures a.snapshot == b.snapshot && DraftSession(a, d, saved) == DraftSession(b, d, saved)
  {
    hide Coherent, SameView, FillSession, FinishSession, Noted, Lacking, LiveSession;
    SameGround(a, b);
    if Addressable(saved.name) {
      ViewSame(a, b, d, saved);
      var missing := Lacking(a, saved, LiveLinks(a, saved.name));
      LackingIsKnown(a, saved, LiveLinks(a, saved.name));
      FillSame(a, b, Noted(a, d, saved), saved.name, missing);
      DraftIsFinished(a, d, saved);
      DraftIsFinished(b, d, saved);
      FinishSame(a, b, FillSession(a, Noted(a, d, saved), saved.name, missing), saved, |d.steps|);
    }
  }

  lemma ViewSame(a: Context, b: Context, d: Draft, saved: Session)
    requires SameView(a, b) && Coherent(a.snapshot) && saved in a.snapshot.sessions
    ensures LiveSession(a, saved.name) == LiveSession(b, saved.name) && LiveLinks(a, saved.name) == LiveLinks(b, saved.name)
    ensures Noted(a, d, saved) == Noted(b, d, saved)
    ensures Lacking(a, saved, LiveLinks(a, saved.name)) == Lacking(b, saved, LiveLinks(b, saved.name))
  {
    LackingSame(a, b, saved);
    hide Coherent, SameView, LiveSession, M.Missing, M.Pair, PresentNotes, RelocationNotes, ForeignNotes;
  }

  lemma FinishSame(a: Context, b: Context, e: Draft, saved: Session, before: nat)
    requires LiveSession(a, saved.name) == LiveSession(b, saved.name)
    requires a.generation == b.generation && (Unfinished(a) <==> Unfinished(b))
    ensures FinishSession(a, e, saved, before) == FinishSession(b, e, saved, before)
  {
    hide LiveSession, Unfinished;
  }

  lemma {:induction false} SessionsSame(a: Context, b: Context, d: Draft, n: nat)
    requires SameView(a, b) && Coherent(a.snapshot) && n <= |a.snapshot.sessions|
    ensures a.snapshot == b.snapshot && DraftSessions(a, d, n) == DraftSessions(b, d, n)
  {
    hide Coherent, DraftSession;
    if n > 0 {
      SessionsSame(a, b, d, n - 1);
      SessionSame(a, b, DraftSessions(a, d, n - 1), a.snapshot.sessions[n - 1]);
    }
  }

  /** A dry run shows the very plan that would be applied: onto no server, the
      steps and notes are those of a plan onto the server the connection would
      open, holding the scratch and nothing of the snapshot. */
  lemma PreviewIsThePlan(g: Generation, snapshot: Snapshot, scratch: Text, live: Snapshot)
    requires Coherent(snapshot) && !HoldsSession(snapshot.sessions, scratch) && live.touched != By(g)
    requires forall k :: 0 <= k < |live.sessions| ==> live.sessions[k].name == scratch
    requires forall id :: Saved(snapshot, id) ==> Present(Context(g, snapshot, Some(live)), id).None?
    ensures PlanOf(g, snapshot, OntoNoServer(scratch)) == PlanOf(g, snapshot, OntoScratch(scratch, live))
  {
    var a := ContextOf(g, snapshot, OntoNoServer(scratch));
    var b := ContextOf(g, snapshot, OntoScratch(scratch, live));
    forall k | 0 <= k < |snapshot.sessions| ensures LiveSession(b, snapshot.sessions[k].name).None? {
      assert HoldsSession(snapshot.sessions, snapshot.sessions[k].name);
    }
    hide Coherent;
    SessionsSame(a, b, Blank(OntoNoServer(scratch)), |snapshot.sessions|);
  }

  // ---- Which sessions a restore marks ----

  /** Once a plan has been applied in full, a session carries the mark of a
      finished restore exactly when a step was owed it, the scratch's clients were
      moved onto it, or it carried the mark before. */
  lemma SessionMarkExactly(g: Generation, snapshot: Snapshot, onto: Onto, s: Server, t: Server, saved: Session)
    requires Coherent(snapshot) && CutShort(g, snapshot, onto, s, |PlanOf(g, snapshot, onto).steps|, t)
    requires saved in snapshot.sessions && Addressable(saved.name)
    ensures (saved.name in t.restored && t.restored[saved.name] == g)
       <==> s.mark != By(g) || !Complete(g, snapshot, s, saved)
            || (onto.OntoScratch? && Leads(snapshot, saved))
            || (saved.name in s.restored && s.restored[saved.name] == g)
  {
    hide Launches, Coherent, SafeButMark, PlanOf, Exec, WorldOk, Complete, Progress, Settled, Owed, Addressable;
    var w := WorldOf(g, snapshot, onto, s);
    LaunchesIsOk(g, snapshot, onto, s);
    var m := PrefixRuns(g, snapshot, onto, s, |PlanOf(g, snapshot, onto).steps|);
    SettledAtTheEnd(w, t, saved);
    OwedIsIncomplete(w, saved);
    LaunchesAt(g, snapshot, onto, s);
    SettledIsMarked(w, t, saved);
  }

  lemma SettledAtTheEnd(w: World, t: Server, saved: Session)
    requires Progress(w, t, |w.c.snapshot.sessions|) && saved in w.c.snapshot.sessions && Addressable(saved.name)
    ensures Settled(w, t, saved)
  {
    hide Settled;
    var k :| 0 <= k < |w.c.snapshot.sessions| && w.c.snapshot.sessions[k] == saved;
  }

  lemma OwedIsIncomplete(w: World, saved: Session)
    requires WorldOk(w) && saved in w.c.snapshot.sessions
    ensures Owed(w.c, saved) <==> Unfinished(w.c) || !Complete(w.c.generation, w.c.snapshot, w.start, saved)
  {
    hide WorldOk, Complete, Lacking, LiveSession, Unfinished;
    LacksNothingWhenComplete(w, saved);
  }

  lemma SettledIsMarked(w: World, t: Server, saved: Session)
    requires Settled(w, t, saved)
    ensures saved.name in t.restored && t.restored[saved.name] == w.c.generation
       <==> Owed(w.c, saved) || ClosesScratch(w, saved)
            || (saved.name in w.start.restored && w.start.restored[saved.name] == w.c.generation)
  {
    hide Done, Placed, Owed, ClosesScratch, LiveSession;
  }
}
