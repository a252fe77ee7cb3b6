/** phoenix-restore/src/plan.rs as it runs: a draft whose methods push steps and
    notes, bump `refs`, insert into `built` and take the scratch. Each method is
    the function of Planner.dfy that bears its name. */
module Drafting {
  import opened Wrappers
  import opened Snapshots
  import opened Steps
  import P = Planner
  import M = Matching

  /** Searches upwards from `from` for an index not in `taken`, and adds it. */
  method FreeFrom(from: Index, taken: set<Index>) returns (free: Index, now: set<Index>)
    ensures from <= free && free !in taken && forall i :: from <= i < free ==> i in taken
    ensures free == M.FreeFrom(from, taken) && now == taken + {free}
  {
    free := from;
    while free in taken
      invariant from <= free <= M.FreeFrom(from, taken)
      decreases M.FreeFrom(from, taken) - free
    {
      free := free + 1;
    }
    now := taken + {free};
  }

  /** Takes out of `links` whichever comes first of those the want accepts. */
  method Claim(links: seq<WinLink>, want: M.Want, exact: bool) returns (rest: seq<WinLink>, found: bool)
    ensures found <==> exists i :: 0 <= i < |links| && M.Accepts(want, exact, links[i])
    ensures found ==> exists i :: 0 <= i < |links| && M.Accepts(want, exact, links[i]) && rest == M.Without(links, i)
                                  && forall j :: 0 <= j < i ==> !M.Accepts(want, exact, links[j])
    ensures !found ==> rest == links
    ensures forall p: M.Pairing, at: nat :: at < |p.linked| && !p.linked[at] && p.unpaired == links ==>
              M.Offer(p, want, at, exact) == M.Pairing(rest, p.linked[at := found])
  {
    var at := Find(links, (l: WinLink) => M.Accepts(want, exact, l));
    match at
    case None =>
      rest, found := links, false;
      forall p: M.Pairing, k: nat | k < |p.linked| && !p.linked[k] && p.unpaired == links
        ensures M.Offer(p, want, k, exact) == M.Pairing(rest, p.linked[k := found])
      {
        assert p.linked[k := false] == p.linked;
      }
    case Some(i) => rest, found := M.Without(links, i), true;
  }

  class Drafter {
    const generation: Generation
    const snapshot: Snapshot
    const live: Option<Snapshot>
    const unfinished: bool
    var scratch: Option<Text>
    var steps: seq<Step>
    var notes: seq<P.Note>
    var built: map<Id, WindowRef>
    var refs: nat

    /** What has been drafted so far. */
    function Drafted(): P.Draft
      reads this
    {
      P.Draft(steps, notes, built, refs, scratch)
    }

    function Context(): P.Context {
      P.Context(generation, snapshot, live)
    }

    ghost predicate Valid() {
      Coherent(snapshot) && (unfinished <==> P.Unfinished(Context()))
    }

    constructor (generation: Generation, snapshot: Snapshot, onto: P.Onto)
      requires Coherent(snapshot)
      ensures Valid() && Context() == P.ContextOf(generation, snapshot, onto) && Drafted() == P.Blank(onto)
    {
      this.generation := generation;
      this.snapshot := snapshot;
      this.live := onto.Capture();
      this.unfinished := (match onto.Capture() case None => Never case Some(live) => live.touched) != By(generation);
      this.scratch := onto.Scratch();
      steps, notes, built, refs := [], [], map[], 0;
    }

    /** The next reference; windows take theirs from the same count. */
    method FreshPane() returns (pane: PaneRef)
      modifies this`refs
      ensures pane == old(refs) && refs == old(refs) + 1
    {
      pane := refs;
      refs := refs + 1;
    }

    method Fresh() returns (window: WindowRef, pane: PaneRef)
      modifies this`refs
      ensures window == pane == old(refs) && refs == old(refs) + 1
    {
      window := refs;
      pane := FreshPane();
    }

    method Push(step: Step)
      modifies this`steps
      ensures steps == old(steps) + [step]
    {
      steps := steps + [step];
    }

    /** The two passes: exact indices first, then any. */
    method PairUp(wanted: seq<M.Want>, links: seq<WinLink>) returns (unpaired: seq<WinLink>, linked: seq<bool>)
      ensures M.Pairing(unpaired, linked) == M.Pair(wanted, links)
    {
      unpaired, linked := links, seq(|wanted|, _ => false);
      var exact := true;
      ghost var before := M.Pairing(unpaired, linked);
      for pass := 0 to 2
        invariant exact <==> pass == 0
        invariant |linked| == |wanted|
        invariant pass == 0 ==> M.Pairing(unpaired, linked) == M.Unclaimed(links, |wanted|)
        invariant pass == 1 ==> M.Pairing(unpaired, linked) == M.Pass(M.Unclaimed(links, |wanted|), wanted, true, |wanted|)
        invariant pass == 2 ==> M.Pairing(unpaired, linked) == M.Pair(wanted, links)
      {
        before := M.Pairing(unpaired, linked);
        for at := 0 to |wanted|
          invariant |linked| == |wanted|
          invariant M.Pairing(unpaired, linked) == M.Pass(before, wanted, exact, at)
        {
          if !linked[at] {
            var rest, found := Claim(unpaired, wanted[at], exact);
            assert M.Offer(M.Pairing(unpaired, linked), wanted[at], at, exact) == M.Pairing(rest, linked[at := found]);
            unpaired, linked := rest, linked[at := found];
          }
        }
        exact := false;
      }
    }

    method NotePresent(name: Text, saved: Session, linked: seq<bool>) returns (present: seq<P.Note>)
      requires |linked| == |saved.windows|
      ensures present == P.PresentNotes(name, saved, linked, |linked|)
    {
      present := [];
      for i := 0 to |linked|
        invariant present == P.PresentNotes(name, saved, linked, i)
      {
        if linked[i] {
          present := present + [P.WindowPresent(name, saved.windows[i].index)];
        }
      }
    }

    /** Finds a place for every unanswered want: where it was saved when that is
        free on the server, and otherwise further up, clear of everything live,
        wanted or already given out. */
    method LandMissing(name: Text, wanted: seq<M.Want>, linked: seq<bool>, held: set<Index>)
      returns (missing: seq<M.Landed>, relocated: seq<P.Note>)
      requires |linked| == |wanted|
      ensures missing == M.LandAll(wanted, linked, held, |wanted|).missing
      ensures relocated == P.RelocationNotes(name, wanted, held, missing)
    {
      var taken := held + M.Indices(wanted);
      missing, relocated := [], [];
      for at := 0 to |wanted|
        invariant M.Landing(taken, missing) == M.LandAll(wanted, linked, held, at)
        invariant relocated == P.RelocationNotes(name, wanted, held, missing)
      {
        if !linked[at] {
          var index := wanted[at].index;
          ghost var before := missing;
          if index in held {
            index, taken := FreeFrom(index, taken);
            relocated := relocated + [P.Relocation(name, wanted[at].index, index)];
          }
          missing := missing + [M.Landed(at, index)];
          assert missing[..|missing| - 1] == before;
        }
      }
    }

    /** The links of `saved` still to be made, with their places, noting all that
        was found along the way. */
    method Lacking(name: Text, saved: Session, links: seq<WinLink>) returns (missing: seq<P.Lack>)
      modifies this`notes
      ensures missing == P.Lacking(Context(), saved, links)
      ensures notes == old(notes) + P.LackingNotes(Context(), name, saved, links)
    {
      hide M.Pair, M.LandAll, P.PresentNotes, P.RelocationNotes, P.ForeignNotes, P.Present, M.LiveIndices;
      var wanted := P.Wanted(Context(), saved);
      var unpaired, linked := PairUp(wanted, links);
      assert unpaired == M.Pair(wanted, links).unpaired && linked == M.Pair(wanted, links).linked;
      var present := NotePresent(name, saved, linked);
      var landed, relocated := LandMissing(name, wanted, linked, M.LiveIndices(links));
      missing := seq(|landed|, k requires 0 <= k < |landed| =>
        if landed[k].at < |saved.windows| then P.LackAt(saved, landed[k]) else P.Lack(0, 0));
      notes := notes + (present + P.ForeignNotes(name, unpaired) + relocated);
    }

    /** Ends the scratch, if it has not ended yet: its clients go to `to` first. */
    method CloseScratch(to: Text)
      modifies this`steps, this`scratch
      ensures Drafted() == P.CloseScratch(old(Drafted()), to)
    {
      if scratch.Some? {
        steps := steps + [SwitchClients(scratch.value, to), KillSession(scratch.value)];
        scratch := None;
      }
    }

    /** Splits a one-pane window until it has as many panes as were saved, always at
        its last pane. */
    method SplitPanes(saved: Window, window: WindowRef, first: PaneRef) returns (panes: seq<PaneRef>)
      requires |saved.panes| > 0
      modifies this`steps, this`refs
      ensures |panes| == |saved.panes| && forall i :: 0 <= i < |panes| ==> panes[i] == P.PaneOf(first, old(refs), i)
      ensures steps == old(steps) + P.Splits(saved, window, first, old(refs), |saved.panes|)
      ensures refs == old(refs) + |saved.panes| - 1
    {
      panes := [first];
      for n := 1 to |saved.panes|
        invariant |panes| == n && forall i :: 0 <= i < n ==> panes[i] == P.PaneOf(first, old(refs), i)
        invariant refs == old(refs) + n - 1 && steps == old(steps) + P.Splits(saved, window, first, old(refs), n)
      {
        var from := panes[n - 1];
        ghost var before := steps;
        var made := FreshPane();
        Push(SplitPane(from, P.KnownCwd(saved.panes[n].cwd), made));
        panes := panes + [made];
        Push(SelectLayout(window, P.TILED));
        assert steps == before + [SplitPane(from, P.KnownCwd(saved.panes[n].cwd), made), SelectLayout(window, P.TILED)];
      }
    }

    /** Each pane's scrollback, then its program. */
    method FillPanes(saved: Window, panes: seq<PaneRef>, first: PaneRef, ghost from: nat)
      requires |panes| == |saved.panes| && forall i :: 0 <= i < |panes| ==> panes[i] == P.PaneOf(first, from, i)
      modifies this`steps
      ensures steps == old(steps) + P.Contents(saved, first, from, |saved.panes|)
    {
      for n := 0 to |saved.panes|
        invariant steps == old(steps) + P.Contents(saved, first, from, n)
      {
        FillPane(saved.panes[n], panes[n]);
      }
    }

    method FillPane(pane: Pane, ref: PaneRef)
      modifies this`steps
      ensures steps == old(steps) + P.Replay(pane, ref) + P.Launch(pane, ref)
    {
      match pane.content {
        case Captured(_, scrollback, _) => Push(ReplayContent(ref, scrollback));
        case NotCaptured(_) =>
      }
      match pane.foreground {
        case Program(argv) => Push(Relaunch(ref, argv));
        case Shell =>
        case Unrecovered(_) =>
      }
    }

    /** Fills in a window that so far has one bare pane. */
    method Furnish(saved: Window, window: WindowRef, first: PaneRef)
      requires ValidWindow(saved)
      modifies this
      ensures Drafted() == P.Furnish(Context(), old(Drafted()), saved, window, first)
    {
      hide P.Splits, P.Contents;
      ghost var from := refs;
      ghost var before := steps;
      var panes := SplitPanes(saved, window, first);
      Push(SelectLayout(window, saved.layout));
      FillPanes(saved, panes, first, from);
      Push(SelectPane(panes[P.ActivePane(saved)]));
      Push(SetOption(WindowMark(window, generation, saved.id)));
      built := built[saved.id := window];
      assert steps == before + P.FurnishSteps(generation, saved, window, first, from);
    }

    /** One missing link: to an existing window, in the placeholder's place when
        there is one, or to a window built for it. */
    method AddLink(name: Text, lack: P.Lack, placeholder: Option<WindowRef>) returns (left: Option<WindowRef>)
      requires Valid() && HoldsWindow(snapshot.windows, lack.window)
      modifies this
      ensures P.Linking(Drafted(), left) == P.AddLink(Context(), P.Linking(old(Drafted()), placeholder), name, lack)
    {
      left := placeholder;
      match P.Existing(Context(), Drafted(), lack.window) {
        case Some(source) =>
          Push(LinkWindow(source, name, lack.index, placeholder));
          left := None;
        case None =>
          var saved := P.WindowOf(snapshot, lack.window);
          assert ValidWindow(saved);
          var window, pane := Fresh();
          Push(NewWindow(name, lack.index, saved.name, P.KnownCwd(saved.panes[0].cwd), window, pane));
          Furnish(saved, window, pane);
      }
    }

    /** Every missing link, in order. */
    method AddLinks(name: Text, missing: seq<P.Lack>, held: Option<WindowRef>)
      requires Valid() && P.AllHeld(snapshot, missing)
      modifies this
      ensures Drafted() == P.AddLinks(Context(), P.Linking(old(Drafted()), held), name, missing).draft
    {
      hide P.AddLink, Coherent;
      var placeholder := held;
      ghost var start := P.Linking(Drafted(), held);
      for i := 0 to |missing|
        invariant P.AllHeld(snapshot, missing[i..])
        invariant P.AddLinks(Context(), start, name, missing)
               == P.AddLinks(Context(), P.Linking(Drafted(), placeholder), name, missing[i..])
      {
        assert missing[i..][0] == missing[i] && missing[i..][1..] == missing[i + 1..];
        assert HoldsWindow(snapshot.windows, missing[i].window);
        placeholder := AddLink(name, missing[i], placeholder);
      }
      assert missing[|missing|..] == [];
    }

    /** All that one saved session adds to the draft. */
    method Session(saved: Session)
      requires Valid() && saved in snapshot.sessions
      modifies this
      ensures Drafted() == P.DraftSession(Context(), old(Drafted()), saved)
    {
      hide P.FillSession, P.Lacking, P.LackingNotes;
      if !P.Addressable(saved.name) {
        notes := notes + [P.Unaddressable(saved.name)];
        return;
      }
      var name := saved.name;
      var firstStep := |steps|;
      ghost var before := Drafted();
      var liveSession := P.LiveSession(Context(), name);
      var links := P.LiveLinks(Context(), name);
      if liveSession.Some? {
        notes := notes + [P.SessionPresent(name)];
      }
      var missing := Lacking(name, saved, links);
      P.LackingIsKnown(Context(), saved, links);
      FillSession(name, missing);
      if liveSession.None? {
        Push(SelectWindow(name, saved.active));
      }
      if unfinished || |steps| > firstStep {
        Push(SetOption(SessionMark(name, generation)));
      }
    }

    /** What makes the session if it must be made, closes the scratch, and adds
        the links it lacks. */
    method FillSession(name: Text, missing: seq<P.Lack>)
      requires Valid() && P.AllHeld(snapshot, missing)
      requires P.LiveSession(Context(), name).None? ==> |missing| > 0
      modifies this
      ensures Drafted() == P.FillSession(Context(), old(Drafted()), name, missing)
    {
      hide P.CloseScratch, P.AddLinks, P.Furnish, P.Existing, P.LiveSession;
      if P.LiveSession(Context(), name).Some? {
        CloseScratch(name);
        AddLinks(name, missing, None);
        return;
      }
      ghost var o := P.OpenSession(Context(), Drafted(), name, missing);
      var rest := missing;
      var c, d := Context(), Drafted();
      var seed := Find(missing, (m: P.Lack) => P.Existing(c, d, m.window).None?);
      FindSame(missing, (m: P.Lack) => P.Existing(c, d, m.window).None?, (m: P.Lack) => P.Existing(c, d, m.window).None?);
      var window, pane := Fresh();
      match seed {
        case None =>
          steps := steps + [CreateSession(name, None, None, window, pane), MoveWindow(window, name, missing[0].index)];
          assert Drafted() == o.draft;
          CloseScratch(name);
          AddLinks(name, missing, Some(window));
        case Some(at) =>
          var saved := P.WindowOf(snapshot, missing[at].window);
          assert ValidWindow(saved);
          rest := missing[..at] + missing[at + 1..];
          steps := steps + [CreateSession(name, Some(saved.name), P.KnownCwd(saved.panes[0].cwd), window, pane),
                            MoveWindow(window, name, missing[at].index)];
          assert Drafted() == o.draft && rest == o.missing;
          CloseScratch(name);
          Furnish(saved, window, pane);
          AddLinks(name, rest, None);
      }
    }
  }

  /** The whole plan, session by session, and the server's mark at its end. */
  method Plan(generation: Generation, snapshot: Snapshot, onto: P.Onto) returns (plan: P.Plan)
    requires Coherent(snapshot)
    ensures plan == P.PlanOf(generation, snapshot, onto)
  {
    hide P.DraftSession, Coherent;
    var draft := new Drafter(generation, snapshot, onto);
    for n := 0 to |snapshot.sessions|
      invariant draft.Valid() && draft.Context() == P.ContextOf(generation, snapshot, onto) && fresh(draft)
      invariant draft.Drafted() == P.DraftSessions(draft.Context(), P.Blank(onto), n)
    {
      draft.Session(snapshot.sessions[n]);
    }
    if draft.unfinished {
      draft.Push(SetOption(ServerMark(generation)));
    }
    plan := P.Plan(draft.steps, draft.notes);
  }
}
