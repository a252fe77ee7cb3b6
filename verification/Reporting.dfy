/** What a plan reports accounts for every link, saved or live: each saved link
    of a session it can target is noted once as present or lands once, noted as
    relocated exactly when it lands elsewhere than it was saved; and each live link
    no saved one claimed is noted once as not from the snapshot. */
module Reporting {
  import opened Wrappers
  import opened Snapshots
  import opened Sessions
  import opened Planner
  import opened Matching
  import opened Restoring

  function Linked(linked: seq<bool>, n: nat): nat
    requires n <= |linked|
  {
    if n == 0 then 0 else Linked(linked, n - 1) + (if linked[n - 1] then 1 else 0)
  }

  lemma {:induction false} LinkedSet(linked: seq<bool>, at: nat, n: nat)
    requires at < |linked| && !linked[at] && n <= |linked|
    ensures Linked(linked[at := true], n) == Linked(linked, n) + (if at < n then 1 else 0)
  {
    if n > 0 { LinkedSet(linked, at, n - 1); }
  }

  /** A pass claims a live link for each want it answers. */
  lemma {:induction false} PassClaims(p: Pairing, wanted: seq<Want>, exact: bool, n: nat)
    requires n <= |wanted| == |p.linked|
    ensures var q := Pass(p, wanted, exact, n);
            |q.unpaired| + Linked(q.linked, |wanted|) == |p.unpaired| + Linked(p.linked, |wanted|)
  {
    if n > 0 {
      PassClaims(p, wanted, exact, n - 1);
      var before := Pass(p, wanted, exact, n - 1);
      if !before.linked[n - 1] { LinkedSet(before.linked, n - 1, |wanted|); }
    }
  }

  lemma {:induction false} NoneLinked(linked: seq<bool>, n: nat)
    requires n <= |linked| && forall i :: 0 <= i < |linked| ==> !linked[i]
    ensures Linked(linked, n) == 0
  {
    if n > 0 { NoneLinked(linked, n - 1); }
  }

  lemma PairClaims(wanted: seq<Want>, links: seq<WinLink>)
    ensures var q := Pair(wanted, links); |q.unpaired| + Linked(q.linked, |wanted|) == |links|
  {
    var start := Unclaimed(links, |wanted|);
    NoneLinked(start.linked, |wanted|);
    PassClaims(start, wanted, true, |wanted|);
    PassClaims(Pass(start, wanted, true, |wanted|), wanted, false, |wanted|);
  }

  lemma {:induction false} PresentCount(name: Text, saved: Session, linked: seq<bool>, n: nat)
    requires n <= |saved.windows| == |linked|
    ensures |PresentNotes(name, saved, linked, n)| == Linked(linked, n)
  {
    if n > 0 { PresentCount(name, saved, linked, n - 1); }
  }

  // ---- How often one note is in a session's notes ----

  function Times(notes: seq<Note>, note: Note): nat { multiset(notes)[note] }

  lemma TimesConcat(a: seq<Note>, b: seq<Note>, note: Note)
    ensures Times(a + b, note) == Times(a, note) + Times(b, note)
  {}

  /** One more note, when there is one more. */
  lemma TimesPush(notes: seq<Note>, more: bool, last: Note, note: Note)
    ensures Times(notes + (if more then [last] else []), note) == Times(notes, note) + (if more && last == note then 1 else 0)
  {
    assert notes + [] == notes;
  }

  /** A saved link is noted present once, if it is answered. */
  lemma {:induction false} PresentTimes(name: Text, saved: Session, linked: seq<bool>, k: nat, n: nat)
    requires n <= |saved.windows| == |linked| && k < |saved.windows| && DistinctIndices(saved.windows)
    ensures Times(PresentNotes(name, saved, linked, n), WindowPresent(name, saved.windows[k].index))
         == if k < n && linked[k] then 1 else 0
  {
    hide Times;
    var note := WindowPresent(name, saved.windows[k].index);
    if n == 0 {
      NotThere([], note);
    } else {
      PresentTimes(name, saved, linked, k, n - 1);
      TimesPush(PresentNotes(name, saved, linked, n - 1), linked[n - 1], WindowPresent(name, saved.windows[n - 1].index), note);
      DistinctAt(saved.windows, k, n - 1);
    }
  }

  lemma DistinctAt(links: seq<WinLink>, i: nat, j: nat)
    requires DistinctIndices(links) && i < |links| && j < |links|
    ensures links[i].index == links[j].index ==> i == j
  {}

  lemma {:induction false} ForeignTimes(name: Text, unpaired: seq<WinLink>, i: Index)
    requires DistinctIndices(unpaired)
    ensures Times(ForeignNotes(name, unpaired), NotFromSnapshot(name, i)) == if HasIndex(unpaired, i) then 1 else 0
  {
    if |unpaired| > 0 {
      var (before, last) := (unpaired[..|unpaired| - 1], unpaired[|unpaired| - 1]);
      ForeignTimes(name, before, i);
      assert ForeignNotes(name, unpaired) == ForeignNotes(name, before) + [NotFromSnapshot(name, last.index)];
      if k :| 0 <= k < |unpaired| && unpaired[k].index == i {
        if k < |before| { assert before[k].index == i; }
      }
      if k :| 0 <= k < |before| && before[k].index == i {
        assert unpaired[k].index == i;
      }
    }
  }

  ghost predicate Ascending(missing: seq<Landed>) {
    forall j, k :: 0 <= j < k < |missing| ==> missing[j].at < missing[k].at
  }

  predicate Relocates(wanted: seq<Want>, live: set<Index>, m: Landed, k: nat, landed: Index)
    requires m.at < |wanted|
  {
    m.at == k && wanted[m.at].index in live && m.index == landed
  }

  ghost predicate AnyRelocates(wanted: seq<Want>, live: set<Index>, missing: seq<Landed>, k: nat, landed: Index) {
    exists j :: 0 <= j < |missing| && missing[j].at < |wanted| && Relocates(wanted, live, missing[j], k, landed)
  }

  lemma {:induction false} RelocationTimes(name: Text, wanted: seq<Want>, live: set<Index>, missing: seq<Landed>, k: nat, landed: Index)
    requires DistinctWants(wanted) && Ascending(missing) && k < |wanted|
    requires forall j :: 0 <= j < |missing| ==> missing[j].at < |wanted|
    ensures Times(RelocationNotes(name, wanted, live, missing), Relocation(name, wanted[k].index, landed))
         == if AnyRelocates(wanted, live, missing, k, landed) then 1 else 0
  {
    hide Times, AnyRelocates, Ascending;
    var note := Relocation(name, wanted[k].index, landed);
    if |missing| == 0 {
      NotThere([], note);
      NoneRelocates(wanted, live, k, landed);
    } else {
      var (before, m) := (missing[..|missing| - 1], missing[|missing| - 1]);
      LastRelocates(wanted, live, missing, k, landed);
      RelocationTimes(name, wanted, live, before, k, landed);
      TimesPush(RelocationNotes(name, wanted, live, before), wanted[m.at].index in live,
                Relocation(name, wanted[m.at].index, m.index), note);
      assert wanted[m.at].index == wanted[k].index ==> m.at == k;
    }
  }

  lemma NoneRelocates(wanted: seq<Want>, live: set<Index>, k: nat, landed: Index)
    ensures !AnyRelocates(wanted, live, [], k, landed)
  {}

  lemma LastRelocates(wanted: seq<Want>, live: set<Index>, missing: seq<Landed>, k: nat, landed: Index)
    requires |missing| > 0 && Ascending(missing)
    requires forall j :: 0 <= j < |missing| ==> missing[j].at < |wanted|
    ensures var (before, m) := (missing[..|missing| - 1], missing[|missing| - 1]);
            && Ascending(before)
            && (AnyRelocates(wanted, live, missing, k, landed)
                <==> AnyRelocates(wanted, live, before, k, landed) || Relocates(wanted, live, m, k, landed))
            && (Relocates(wanted, live, m, k, landed) ==> !AnyRelocates(wanted, live, before, k, landed))
  {
    var (before, m) := (missing[..|missing| - 1], missing[|missing| - 1]);
    assert forall j :: 0 <= j < |before| ==> before[j] == missing[j] && before[j].at < m.at;
    if j :| 0 <= j < |before| && before[j].at < |wanted| && Relocates(wanted, live, before[j], k, landed) {
      assert Relocates(wanted, live, missing[j], k, landed);
    }
  }

  // ---- Only its own kind, and only its own session's ----

  /** The session a note is about. */
  function About(note: Note): Text {
    if note.Unaddressable? then note.name else note.session
  }

  lemma {:induction false} PresentKind(name: Text, saved: Session, linked: seq<bool>, n: nat)
    requires n <= |saved.windows| == |linked|
    ensures forall note :: note in PresentNotes(name, saved, linked, n) ==> note.WindowPresent? && note.session == name
  {
    if n > 0 { PresentKind(name, saved, linked, n - 1); }
  }

  lemma {:induction false} RelocationKind(name: Text, wanted: seq<Want>, live: set<Index>, missing: seq<Landed>)
    ensures forall note :: note in RelocationNotes(name, wanted, live, missing) ==> note.Relocation? && note.session == name
  {
    if |missing| > 0 { RelocationKind(name, wanted, live, missing[..|missing| - 1]); }
  }

  lemma NotThere(notes: seq<Note>, note: Note)
    requires note !in notes
    ensures Times(notes, note) == 0
  {}

  /** Each kind of note is counted where its kind is drawn up. */
  lemma LackingTimes(c: Context, saved: Session, links: seq<WinLink>, note: Note)
    ensures var (name, wanted) := (saved.name, Wanted(c, saved));
            var q := Pair(wanted, links);
            var times := Times(LackingNotes(c, name, saved, links), note);
            && (note.WindowPresent? ==> times == Times(PresentNotes(name, saved, q.linked, |saved.windows|), note))
            && (note.NotFromSnapshot? ==> times == Times(ForeignNotes(name, q.unpaired), note))
            && (note.Relocation? ==>
                  times == Times(RelocationNotes(name, wanted, LiveIndices(links), Missing(wanted, links)), note))
            && (About(note) != name || note.Unaddressable? || note.SessionPresent? ==> times == 0)
  {
    var (name, wanted) := (saved.name, Wanted(c, saved));
    var q := Pair(wanted, links);
    var present := PresentNotes(name, saved, q.linked, |saved.windows|);
    var foreign := ForeignNotes(name, q.unpaired);
    var moved := RelocationNotes(name, wanted, LiveIndices(links), Missing(wanted, links));
    PresentKind(name, saved, q.linked, |saved.windows|);
    RelocationKind(name, wanted, LiveIndices(links), Missing(wanted, links));
    hide PresentNotes, RelocationNotes, Pair, Missing, Wanted, Times;
    TimesConcat(present + foreign, moved, note);
    TimesConcat(present, foreign, note);
    if note !in present { NotThere(present, note); }
    if note !in foreign { NotThere(foreign, note); }
    if note !in moved { NotThere(moved, note); }
  }

  // ---- In the plan's own notes ----

  lemma {:induction false} AddLinksNotes(c: Context, l: Linking, name: Text, missing: seq<Lack>)
    requires Coherent(c.snapshot) && AllHeld(c.snapshot, missing)
    ensures AddLinks(c, l, name, missing).draft.notes == l.draft.notes
    decreases |missing|
  {
    hide Coherent;
    if |missing| > 0 {
      AddLinksStep(c, l, name, missing);
      AddLinksNotes(c, AddLink(c, l, name, missing[0]), name, missing[1..]);
    }
  }

  lemma FillNotes(c: Context, d: Draft, name: Text, missing: seq<Lack>)
    requires Coherent(c.snapshot) && AllHeld(c.snapshot, missing)
    requires LiveSession(c, name).None? ==> |missing| > 0
    ensures FillSession(c, d, name, missing).notes == d.notes
  {
    hide Coherent, AddLinks, FurnishSteps;
    if LiveSession(c, name).Some? {
      AddLinksNotes(c, Linking(CloseScratch(d, name), None), name, missing);
    } else {
      var o := OpenSession(c, d, name, missing);
      var closed := CloseScratch(o.draft, name);
      match o.seed
      case None => AddLinksNotes(c, Linking(closed, Some(o.window)), name, o.missing);
      case Some(id) =>
        SavedIsValid(c, d, id);
        AddLinksNotes(c, Linking(Furnish(c, closed, WindowOf(c.snapshot, id), o.window, o.pane), None), name, o.missing);
    }
  }

  /** What one session's draft adds to the notes. */
  function SessionNotes(c: Context, saved: Session): seq<Note> {
    if !Addressable(saved.name) then [Unaddressable(saved.name)]
    else (if LiveSession(c, saved.name).Some? then [SessionPresent(saved.name)] else [])
         + LackingNotes(c, saved.name, saved, LiveLinks(c, saved.name))
  }

  lemma DraftNotes(c: Context, d: Draft, saved: Session)
    requires Coherent(c.snapshot) && saved in c.snapshot.sessions
    ensures DraftSession(c, d, saved).notes == d.notes + SessionNotes(c, saved)
  {
    if Addressable(saved.name) {
      hide Coherent, FillSession, Lacking, LackingNotes, LiveLinks, LiveSession, FinishSession, Noted;
      var links := LiveLinks(c, saved.name);
      LackingIsKnown(c, saved, links);
      NotedIs(c, d, saved);
      FillNotes(c, Noted(c, d, saved), saved.name, Lacking(c, saved, links));
      DraftIsFinished(c, d, saved);
      FinishNotes(c, FillSession(c, Noted(c, d, saved), saved.name, Lacking(c, saved, links)), saved, |d.steps|);
    }
  }

  lemma NotedIs(c: Context, d: Draft, saved: Session)
    requires Addressable(saved.name)
    ensures Noted(c, d, saved).notes == d.notes + SessionNotes(c, saved)
  {
    hide LackingNotes, LiveLinks, LiveSession;
  }

  lemma FinishNotes(c: Context, e: Draft, saved: Session, before: nat)
    ensures FinishSession(c, e, saved, before).notes == e.notes
  {}

  lemma SessionTimes(c: Context, saved: Session, note: Note)
    requires note.WindowPresent? || note.NotFromSnapshot? || note.Relocation?
    ensures About(note) != saved.name ==> Times(SessionNotes(c, saved), note) == 0
    ensures Addressable(saved.name) ==>
              Times(SessionNotes(c, saved), note) == Times(LackingNotes(c, saved.name, saved, LiveLinks(c, saved.name)), note)
  {
    var lacking := LackingNotes(c, saved.name, saved, LiveLinks(c, saved.name));
    LackingTimes(c, saved, LiveLinks(c, saved.name), note);
    hide LackingNotes, LiveLinks, LiveSession;
    TimesConcat(if LiveSession(c, saved.name).Some? then [SessionPresent(saved.name)] else [], lacking, note);
  }

  lemma {:induction false} DraftTimes(c: Context, d: Draft, n: nat, at: nat, note: Note)
    requires Coherent(c.snapshot) && n <= |c.snapshot.sessions| && at < |c.snapshot.sessions|
    requires note.WindowPresent? || note.NotFromSnapshot? || note.Relocation?
    requires About(note) == c.snapshot.sessions[at].name && Addressable(About(note))
    ensures var saved := c.snapshot.sessions[at];
            Times(DraftSessions(c, d, n).notes, note)
            == Times(d.notes, note)
               + if at < n then Times(LackingNotes(c, saved.name, saved, LiveLinks(c, saved.name)), note) else 0
  {
    hide DraftSession, LackingNotes, LiveLinks, Times, Addressable, SessionNotes, ValidWindow, ValidSession, LinksResolve;
    if n > 0 {
      var saved := c.snapshot.sessions[n - 1];
      DraftTimes(c, d, n - 1, at, note);
      DraftNotes(c, DraftSessions(c, d, n - 1), saved);
      TimesConcat(DraftSessions(c, d, n - 1).notes, SessionNotes(c, saved), note);
      SessionTimes(c, saved, note);
      assert n - 1 != at ==> saved.name != c.snapshot.sessions[at].name;
    }
  }

  /** A plan's notes say of a session's links what its own draft does, no more. */
  lemma PlanTimes(g: Generation, snapshot: Snapshot, onto: Onto, saved: Session, note: Note)
    requires Coherent(snapshot) && saved in snapshot.sessions && Addressable(saved.name) && About(note) == saved.name
    requires note.WindowPresent? || note.NotFromSnapshot? || note.Relocation?
    ensures var c := ContextOf(g, snapshot, onto);
            Times(PlanOf(g, snapshot, onto).notes, note)
            == Times(LackingNotes(c, saved.name, saved, LiveLinks(c, saved.name)), note)
  {
    var at :| 0 <= at < |snapshot.sessions| && snapshot.sessions[at] == saved;
    hide Coherent, LackingNotes, LiveLinks, DraftSessions, Addressable;
    DraftTimes(ContextOf(g, snapshot, onto), Blank(onto), |snapshot.sessions|, at, note);
    NotThere(Blank(onto).notes, note);
  }

  // ---- The theorems ----

  /** Saved link `k` of an addressable session is noted present once, or is not
      and lands once, noted as relocated once exactly when it lands elsewhere than
      it was saved. */
  lemma EachSavedLinkOnce(g: Generation, snapshot: Snapshot, onto: Onto, saved: Session, k: nat)
    requires Coherent(snapshot) && saved in snapshot.sessions && Addressable(saved.name) && k < |saved.windows|
    ensures var c := ContextOf(g, snapshot, onto);
            var missing := Missing(Wanted(c, saved), LiveLinks(c, saved.name));
            var notes := PlanOf(g, snapshot, onto).notes;
            var i := saved.windows[k].index;
            && Times(notes, WindowPresent(saved.name, i)) == (if ListedAt(missing, k) then 0 else 1)
            && (forall j, m :: 0 <= j < m < |missing| ==> missing[j].at != missing[m].at)
            && (forall j :: 0 <= j < |missing| && missing[j].at == k ==>
                  Times(notes, Relocation(saved.name, i, missing[j].index)) == if missing[j].index != i then 1 else 0)
  {
    var c := ContextOf(g, snapshot, onto);
    var links := LiveLinks(c, saved.name);
    var (wanted, live) := (Wanted(c, saved), LiveIndices(links));
    var (q, missing) := (Pair(wanted, links), Missing(wanted, links));
    var i := saved.windows[k].index;
    SavedIsDistinct(snapshot, saved);
    LandListsUnanswered(wanted, q.linked, live, |wanted|);
    PlanTimes(g, snapshot, onto, saved, WindowPresent(saved.name, i));
    LackingTimes(c, saved, links, WindowPresent(saved.name, i));
    PresentTimes(saved.name, saved, q.linked, k, |saved.windows|);
    assert ListedAt(missing, k) <==> !q.linked[k];
    forall j | 0 <= j < |missing| && missing[j].at == k
      ensures Times(PlanOf(g, snapshot, onto).notes, Relocation(saved.name, i, missing[j].index))
           == if missing[j].index != i then 1 else 0
    {
      RelocatedOnce(g, snapshot, onto, saved, k, j);
    }
  }

  lemma SavedIsDistinct(snapshot: Snapshot, saved: Session)
    requires Coherent(snapshot) && saved in snapshot.sessions
    ensures DistinctIndices(saved.windows)
  {
    var at :| 0 <= at < |snapshot.sessions| && snapshot.sessions[at] == saved;
    assert ValidSession(saved);
  }

  lemma RelocatedOnce(g: Generation, snapshot: Snapshot, onto: Onto, saved: Session, k: nat, j: nat)
    requires Coherent(snapshot) && saved in snapshot.sessions && Addressable(saved.name) && k < |saved.windows|
    requires var c := ContextOf(g, snapshot, onto);
             var missing := Missing(Wanted(c, saved), LiveLinks(c, saved.name));
             j < |missing| && missing[j].at == k
    ensures var c := ContextOf(g, snapshot, onto);
            var m := Missing(Wanted(c, saved), LiveLinks(c, saved.name))[j];
            var i := saved.windows[k].index;
            Times(PlanOf(g, snapshot, onto).notes, Relocation(saved.name, i, m.index)) == if m.index != i then 1 else 0
  {
    hide Coherent, LackingNotes, LiveLinks, PlanOf, Pair, Missing, RelocationNotes, PresentNotes, ForeignNotes, Times,
         AnyRelocates, Ascending, Addressable, Wanted, DistinctIndices, DistinctWants, LiveIndices;
    var c := ContextOf(g, snapshot, onto);
    var links := LiveLinks(c, saved.name);
    var (wanted, live) := (Wanted(c, saved), LiveIndices(links));
    var missing := Missing(wanted, links);
    var (m, note) := (missing[j], Relocation(saved.name, saved.windows[k].index, missing[j].index));
    SavedIsDistinct(snapshot, saved);
    WantedIsSaved(c, saved, k);
    PlanTimes(g, snapshot, onto, saved, note);
    LackingTimes(c, saved, links, note);
    LandsElsewhere(wanted, links, j);
    RelocationTimes(saved.name, wanted, live, missing, k, m.index);
  }

  lemma WantedIsSaved(c: Context, saved: Session, k: nat)
    requires DistinctIndices(saved.windows) && k < |saved.windows|
    ensures DistinctWants(Wanted(c, saved)) && Wanted(c, saved)[k].index == saved.windows[k].index
  {}

  /** A landing is a relocation exactly when its index is not the saved one. */
  lemma LandsElsewhere(wanted: seq<Want>, links: seq<WinLink>, j: nat)
    requires j < |Missing(wanted, links)|
    ensures var missing := Missing(wanted, links);
            && Ascending(missing) && (forall i :: 0 <= i < |missing| ==> missing[i].at < |wanted|)
            && (AnyRelocates(wanted, LiveIndices(links), missing, missing[j].at, missing[j].index)
                <==> missing[j].index != wanted[missing[j].at].index)
  {
    var live := LiveIndices(links);
    var missing := Missing(wanted, links);
    var linked := Pair(wanted, links).linked;
    LandListsUnanswered(wanted, linked, live, |wanted|);
    LandLandsWell(wanted, linked, live, |wanted|);
    hide Pair, LandAll, LiveIndices;
    assert LandsWell(wanted, live, missing, j);
    if wanted[missing[j].at].index in live {
      assert Relocates(wanted, live, missing[j], missing[j].at, missing[j].index);
    }
  }

  lemma WithoutIsDistinct(links: seq<WinLink>, at: nat)
    requires DistinctIndices(links) && at < |links|
    ensures DistinctIndices(Without(links, at))
  {}

  lemma {:induction false} PassStaysDistinct(p: Pairing, wanted: seq<Want>, exact: bool, n: nat)
    requires n <= |wanted| == |p.linked| && DistinctIndices(p.unpaired)
    ensures DistinctIndices(Pass(p, wanted, exact, n).unpaired)
  {
    if n > 0 {
      PassStaysDistinct(p, wanted, exact, n - 1);
      var before := Pass(p, wanted, exact, n - 1);
      var found := Find(before.unpaired, (l: WinLink) => Accepts(wanted[n - 1], exact, l));
      if !before.linked[n - 1] && found.Some? { WithoutIsDistinct(before.unpaired, found.value); }
    }
  }

  /** A live link of an addressable session is noted as not from the snapshot
      once, exactly when no saved link claimed it; and as many saved links are
      noted present as live ones were claimed. */
  lemma EachLiveLinkOnce(g: Generation, snapshot: Snapshot, onto: Onto, saved: Session, l: WinLink)
    requires Coherent(snapshot) && saved in snapshot.sessions && Addressable(saved.name)
    requires var links := LiveLinks(ContextOf(g, snapshot, onto), saved.name); DistinctIndices(links) && l in links
    ensures var c := ContextOf(g, snapshot, onto);
            var links := LiveLinks(c, saved.name);
            var q := Pair(Wanted(c, saved), links);
            && Times(PlanOf(g, snapshot, onto).notes, NotFromSnapshot(saved.name, l.index)) == (if l in q.unpaired then 1 else 0)
            && |q.unpaired| + |PresentNotes(saved.name, saved, q.linked, |saved.windows|)| == |links|
  {
    var c := ContextOf(g, snapshot, onto);
    var links := LiveLinks(c, saved.name);
    var wanted := Wanted(c, saved);
    var q := Pair(wanted, links);
    var note := NotFromSnapshot(saved.name, l.index);
    PairClaims(wanted, links);
    PresentCount(saved.name, saved, q.linked, |saved.windows|);
    PairStaysDistinct(wanted, links);
    PlanTimes(g, snapshot, onto, saved, note);
    LackingTimes(c, saved, links, note);
    ForeignTimes(saved.name, q.unpaired, l.index);
    hide Pair, Wanted, LiveLinks, PlanOf, LackingNotes, Coherent, Times;
    IndexIsLink(links, q.unpaired, l);
  }

  lemma PairStaysDistinct(wanted: seq<Want>, links: seq<WinLink>)
    requires DistinctIndices(links)
    ensures DistinctIndices(Pair(wanted, links).unpaired)
    ensures forall l :: l in Pair(wanted, links).unpaired ==> l in links
  {
    var start := Unclaimed(links, |wanted|);
    var middle := Pass(start, wanted, true, |wanted|);
    PassStaysDistinct(start, wanted, true, |wanted|);
    PassStaysDistinct(middle, wanted, false, |wanted|);
    PassShrinks(start, wanted, true, 0, |wanted|);
    PassShrinks(middle, wanted, false, 0, |wanted|);
  }

  lemma IndexIsLink(links: seq<WinLink>, some: seq<WinLink>, l: WinLink)
    requires DistinctIndices(links) && l in links && forall x :: x in some ==> x in links
    ensures HasIndex(some, l.index) <==> l in some
  {
    if k :| 0 <= k < |some| && some[k].index == l.index {
      assert some[k] in links;
    }
  }

  // ---- What is said of whole sessions ----

  lemma OthersSayNothing(c: Context, saved: Session, note: Note)
    requires About(note) != saved.name
    ensures Times(SessionNotes(c, saved), note) == 0
  {
    var lacking := LackingNotes(c, saved.name, saved, LiveLinks(c, saved.name));
    LackingTimes(c, saved, LiveLinks(c, saved.name), note);
    hide LackingNotes, LiveLinks, LiveSession;
    TimesConcat(if LiveSession(c, saved.name).Some? then [SessionPresent(saved.name)] else [], lacking, note);
  }

  lemma {:induction false} DraftSays(c: Context, d: Draft, n: nat, at: nat, note: Note)
    requires Coherent(c.snapshot) && n <= |c.snapshot.sessions| && at < |c.snapshot.sessions|
    requires About(note) == c.snapshot.sessions[at].name
    ensures Times(DraftSessions(c, d, n).notes, note)
            == Times(d.notes, note) + if at < n then Times(SessionNotes(c, c.snapshot.sessions[at]), note) else 0
  {
    hide DraftSession, Times, SessionNotes, ValidWindow, ValidSession, LinksResolve;
    if n > 0 {
      var saved := c.snapshot.sessions[n - 1];
      DraftSays(c, d, n - 1, at, note);
      DraftNotes(c, DraftSessions(c, d, n - 1), saved);
      TimesConcat(DraftSessions(c, d, n - 1).notes, SessionNotes(c, saved), note);
      if n - 1 != at {
        assert saved.name != c.snapshot.sessions[at].name;
        OthersSayNothing(c, saved, note);
      }
    }
  }

  /** A saved session is noted unaddressable once, exactly when its name is empty,
      holds a colon or starts with a dollar; otherwise it is noted present once,
      exactly when the server has a session of that name. */
  lemma EachSessionOnce(g: Generation, snapshot: Snapshot, onto: Onto, saved: Session)
    requires Coherent(snapshot) && saved in snapshot.sessions
    ensures var notes := PlanOf(g, snapshot, onto).notes;
            var named := saved.name != [] && 58 !in saved.name && saved.name[0] != 36;
            && Times(notes, Unaddressable(saved.name)) == (if named then 0 else 1)
            && Times(notes, SessionPresent(saved.name))
               == if named && onto.Capture().Some? && HoldsSession(onto.Capture().value.sessions, saved.name) then 1 else 0
  {
    hide DraftSessions, SessionNotes, Times, HoldsSession, Unfinished, PlanOf, ValidWindow, ValidSession, LinksResolve;
    var at :| 0 <= at < |snapshot.sessions| && snapshot.sessions[at] == saved;
    var c := ContextOf(g, snapshot, onto);
    SaysOfSession(c, saved);
    DraftSays(c, Blank(onto), |snapshot.sessions|, at, Unaddressable(saved.name));
    DraftSays(c, Blank(onto), |snapshot.sessions|, at, SessionPresent(saved.name));
    NotThere(Blank(onto).notes, Unaddressable(saved.name));
    NotThere(Blank(onto).notes, SessionPresent(saved.name));
    PlanNotes(g, snapshot, onto);
  }

  lemma PlanNotes(g: Generation, snapshot: Snapshot, onto: Onto)
    requires Coherent(snapshot)
    ensures PlanOf(g, snapshot, onto).notes
         == DraftSessions(ContextOf(g, snapshot, onto), Blank(onto), |snapshot.sessions|).notes
  {}

  lemma SaysOfSession(c: Context, saved: Session)
    ensures var named := saved.name != [] && 58 !in saved.name && saved.name[0] != 36;
            && Times(SessionNotes(c, saved), Unaddressable(saved.name)) == (if named then 0 else 1)
            && Times(SessionNotes(c, saved), SessionPresent(saved.name))
               == if named && c.live.Some? && HoldsSession(c.live.value.sessions, saved.name) then 1 else 0
  {
    var links := LiveLinks(c, saved.name);
    LackingTimes(c, saved, links, Unaddressable(saved.name));
    LackingTimes(c, saved, links, SessionPresent(saved.name));
    LiveIsHeld(c, saved.name);
    hide LackingNotes, LiveLinks, LiveSession, HoldsSession;
    var (greeting, lacking) := (if LiveSession(c, saved.name).Some? then [SessionPresent(saved.name)] else [],
                                LackingNotes(c, saved.name, saved, links));
    TimesConcat(greeting, lacking, Unaddressable(saved.name));
    TimesConcat(greeting, lacking, SessionPresent(saved.name));
  }

  lemma LiveIsHeld(c: Context, name: Text)
    ensures LiveSession(c, name).Some? <==> c.live.Some? && HoldsSession(c.live.value.sessions, name)
  {}
}
