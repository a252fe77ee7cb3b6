/** What a full restore brings back, place by place: each link a session lacked
    is where it was to land and holds the window it was saved with, whole; no
    session gains another; and a session that was gone is back as it was saved. */
module Fidelity {
  import opened Wrappers
  import opened Snapshots
  import opened Planner
  import opened Applying
  import opened Safety
  import opened Sessions
  import opened Counting
  import opened Restoring
  import opened Convergence
  import T = Tmux

  /** The server a plan applied in full leaves. */
  ghost predicate Restores(g: Generation, snapshot: Snapshot, onto: Onto, s: Server, t: Server) {
    Coherent(snapshot) && CutShort(g, snapshot, onto, s, |PlanOf(g, snapshot, onto).steps|, t)
  }

  /** Place `at` of `t` holds saved window `id`: one live since before the
      restore from `s`, or one the restore built whole. */
  ghost predicate Holds(g: Generation, snapshot: Snapshot, s: Server, t: Server, at: T.Slot, id: Id)
    requires Saved(snapshot, id)
  {
    && at in t.links && Answers(g, snapshot, t, t.links[at], id)
    && if t.links[at] in s.windows then t.windows[t.links[at]] == s.windows[t.links[at]]
       else t.windows[t.links[at]].made == ByPhoenix(g, id) && Whole(t.windows[t.links[at]], WindowOf(snapshot, id))
  }

  lemma RestoresSettles(g: Generation, snapshot: Snapshot, onto: Onto, s: Server, t: Server, saved: Session)
    requires Restores(g, snapshot, onto, s, t) && saved in snapshot.sessions && Addressable(saved.name)
    ensures var w := WorldOf(g, snapshot, onto, s);
            Settled(w, t, saved) && WorldOk(w) && Safe(w, t.(mark := s.mark))
  {
    hide Launches, Coherent, Safe, Settled, Untouched, PlanOf, Exec;
    var m := PrefixRuns(g, snapshot, onto, s, |PlanOf(g, snapshot, onto).steps|);
    LaunchesIsOk(g, snapshot, onto, s);
    var k :| 0 <= k < |snapshot.sessions| && snapshot.sessions[k] == saved;
  }

  lemma AnswersIsHeld(w: World, t: Server, at: T.Slot, id: Id)
    requires WorldOk(w) && Safe(w, t.(mark := w.start.mark)) && Saved(w.c.snapshot, id)
    requires at in t.links && Answers(w.c.generation, w.c.snapshot, t, t.links[at], id)
    ensures Holds(w.c.generation, w.c.snapshot, w.start, t, at, id)
  {
    hide WorldOk, Whole, NothingLost;
    var u := t.(mark := w.start.mark);
    StartIsWellFormed(w);
    AnswersNow(w, u, u.links[at], id);
  }

  lemma RestoresIsCoherent(g: Generation, snapshot: Snapshot, onto: Onto, s: Server, t: Server)
    requires Restores(g, snapshot, onto, s, t)
    ensures Coherent(snapshot)
  {}

  lemma LandedAnswers(w: World, t: Server, name: Text, lack: Lack)
    requires LandedAt(w, t, name, lack)
    ensures var at := T.Slot(name, lack.index);
            at in t.links && Answers(w.c.generation, w.c.snapshot, t, t.links[at], lack.window)
  {}

  lemma SettledIsPlaced(w: World, t: Server, saved: Session)
    requires Settled(w, t, saved)
    ensures var missing := Lacking(w.c, saved, LiveLinks(w.c, saved.name));
            && (forall k :: 0 <= k < |missing| ==> LandedAt(w, t, saved.name, missing[k]))
            && GainsOnly(w.start, t, saved.name, missing)
  {
    hide Lacking, LiveLinks, LandedAt, GainsOnly, Done, Owed, ClosesScratch, LiveSession;
  }

  /** Nothing is where a lacking link is to land. */
  lemma StartIsFree(w: World, saved: Session)
    requires WorldOk(w) && saved in w.c.snapshot.sessions
    ensures var missing := Lacking(w.c, saved, LiveLinks(w.c, saved.name));
            forall k :: 0 <= k < |missing| ==> T.Slot(saved.name, missing[k].index) !in w.start.links
  {
    var k :| 0 <= k < |w.c.snapshot.sessions| && w.c.snapshot.sessions[k] == saved;
    assert ValidSession(saved);
    hide WorldOk, Lacking, LiveLinks, ValidSession;
    LackingIsFree(w, w.start, saved);
  }

  /** Every link an addressable saved session lacked lands, after a full
      restore, at the index the plan gave it, a place nothing held, and holds
      its saved window; the session gained no other link. */
  lemma LinksLand(g: Generation, snapshot: Snapshot, onto: Onto, s: Server, t: Server, saved: Session)
    requires Restores(g, snapshot, onto, s, t) && saved in snapshot.sessions && Addressable(saved.name)
    ensures var c := ContextOf(g, snapshot, onto);
            var missing := Lacking(c, saved, LiveLinks(c, saved.name));
            && AllHeld(snapshot, missing)
            && (forall k :: 0 <= k < |missing| ==>
                  && T.Slot(saved.name, missing[k].index) !in s.links
                  && Holds(g, snapshot, s, t, T.Slot(saved.name, missing[k].index), missing[k].window))
            && GainsOnly(s, t, saved.name, missing)
  {
    hide WorldOk, Safe, Restores, Lacking, LiveLinks, Holds, Answers, Coherent, Settled, Placed, Addressable, Free, LandedAt;
    var w := WorldOf(g, snapshot, onto, s);
    RestoresSettles(g, snapshot, onto, s, t, saved);
    var links := LiveLinks(w.c, saved.name);
    var missing := Lacking(w.c, saved, links);
    RestoresIsCoherent(g, snapshot, onto, s, t);
    LackingIsKnown(w.c, saved, links);
    SettledIsPlaced(w, t, saved);
    StartIsFree(w, saved);
    forall k | 0 <= k < |missing| ensures Holds(g, snapshot, s, t, T.Slot(saved.name, missing[k].index), missing[k].window) {
      LandedAnswers(w, t, saved.name, missing[k]);
      AnswersIsHeld(w, t, T.Slot(saved.name, missing[k].index), missing[k].window);
    }
  }

  /** A saved session the server had lost comes back as it was saved: the same
      indices and no others, each holding the window saved there, showing the
      window it showed, and marked. */
  lemma ALostSessionComesBack(g: Generation, snapshot: Snapshot, onto: Onto, s: Server, t: Server, saved: Session)
    requires Restores(g, snapshot, onto, s, t) && saved in snapshot.sessions && Addressable(saved.name)
    requires saved.name !in s.sessions
    ensures forall i :: T.Slot(saved.name, i) in t.links <==> HasIndex(saved.windows, i)
    ensures forall k :: 0 <= k < |saved.windows| ==>
              Saved(snapshot, saved.windows[k].window)
              && Holds(g, snapshot, s, t, T.Slot(saved.name, saved.windows[k].index), saved.windows[k].window)
    ensures saved.name in t.sessions && saved.name in t.shown && t.shown[saved.name] == saved.active
    ensures saved.name in t.restored && t.restored[saved.name] == g
  {
    hide WorldOk, Safe, Restores, Lacking, Holds, Settled, LiveSession, Coherent, Addressable, GainsOnly;
    var w := WorldOf(g, snapshot, onto, s);
    RestoresSettles(g, snapshot, onto, s, t, saved);
    LiveLinksListed(w, saved.name);
    LostIsMarked(w, t, saved);
    LinksLand(g, snapshot, onto, s, t, saved);
    LacksItAll(w.c, saved);
    StartLacks(w, saved.name);
    var missing := Lacking(w.c, saved, []);
    forall k | 0 <= k < |saved.windows|
      ensures Saved(snapshot, saved.windows[k].window)
              && Holds(g, snapshot, s, t, T.Slot(saved.name, saved.windows[k].index), saved.windows[k].window)
              && T.Slot(saved.name, saved.windows[k].index) in t.links
    {
      assert missing[k] == Lack(saved.windows[k].index, saved.windows[k].window);
      HoldsIsLinked(g, snapshot, s, t, T.Slot(saved.name, saved.windows[k].index), saved.windows[k].window);
    }
    LinkedAtSaved(s, t, saved, missing);
  }

  lemma HoldsIsLinked(g: Generation, snapshot: Snapshot, s: Server, t: Server, at: T.Slot, id: Id)
    requires Saved(snapshot, id) && Holds(g, snapshot, s, t, at, id)
    ensures at in t.links
  {}

  /** A session that gained its saved links and no other has its saved indices. */
  lemma LinkedAtSaved(s: Server, t: Server, saved: Session, missing: seq<Lack>)
    requires |missing| == |saved.windows| && forall k :: 0 <= k < |missing| ==> missing[k].index == saved.windows[k].index
    requires forall k :: 0 <= k < |saved.windows| ==> T.Slot(saved.name, saved.windows[k].index) in t.links
    requires GainsOnly(s, t, saved.name, missing) && forall i :: T.Slot(saved.name, i) !in s.links
    ensures forall i :: T.Slot(saved.name, i) in t.links <==> HasIndex(saved.windows, i)
  {
    forall i | T.Slot(saved.name, i) in t.links ensures HasIndex(saved.windows, i) {
      var at := T.Slot(saved.name, i);
      assert at !in s.links && LandsAt(missing, at.index);
      var k :| 0 <= k < |missing| && missing[k].index == i;
      assert saved.windows[k].index == i;
    }
  }

  lemma LostIsMarked(w: World, t: Server, saved: Session)
    requires Settled(w, t, saved) && LiveSession(w.c, saved.name).None?
    ensures saved.name in t.sessions && saved.name in t.shown && t.shown[saved.name] == saved.active
    ensures saved.name in t.restored && t.restored[saved.name] == w.c.generation
    ensures LiveLinks(w.c, saved.name) == []
  {
    hide Lacking, Placed, LiveSession;
  }

  lemma StartLacks(w: World, name: Text)
    requires WorldOk(w) && name !in w.start.sessions
    ensures forall i :: T.Slot(name, i) !in w.start.links
  {}
}
