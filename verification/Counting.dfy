/** Why a session that gains the links it lacked has as many links to each saved
    window as the snapshot gave it, and why one that has them lacks none. */
module Counting {
  import opened Wrappers
  import opened Snapshots
  import opened Planner
  import opened Safety
  import opened Sessions
  import opened Matching
  import T = Tmux

  /** How many of the first `n` saved links to `id` are answered, and not. */
  function AnsweredOf(windows: seq<WinLink>, linked: seq<bool>, id: Id, n: nat): nat
    requires n <= |windows| == |linked|
  {
    if n == 0 then 0 else AnsweredOf(windows, linked, id, n - 1) + (if windows[n - 1].window == id && linked[n - 1] then 1 else 0)
  }

  function UnansweredOf(windows: seq<WinLink>, linked: seq<bool>, id: Id, n: nat): nat
    requires n <= |windows| == |linked|
  {
    if n == 0 then 0
    else UnansweredOf(windows, linked, id, n - 1) + (if windows[n - 1].window == id && !linked[n - 1] then 1 else 0)
  }

  lemma {:induction false} EitherWay(windows: seq<WinLink>, linked: seq<bool>, id: Id, n: nat)
    requires n <= |windows| == |linked|
    ensures LinksTo(windows[..n], id) == AnsweredOf(windows, linked, id, n) + UnansweredOf(windows, linked, id, n)
  {
    if n > 0 {
      EitherWay(windows, linked, id, n - 1);
      assert windows[..n][..n - 1] == windows[..n - 1];
    }
  }

  function Lacks(saved: Session, missing: seq<Landed>): seq<Lack> {
    seq(|missing|, k requires 0 <= k < |missing| =>
      if missing[k].at < |saved.windows| then LackAt(saved, missing[k]) else Lack(0, 0))
  }

  lemma {:induction false} LackCountAppend(missing: seq<Lack>, m: Lack, id: Id)
    ensures LackCount(missing + [m], id) == LackCount(missing, id) + (if m.window == id then 1 else 0)
  {
    if |missing| == 0 {
      assert missing + [m] == [m];
      assert [m][1..] == [];
    } else {
      assert (missing + [m])[1..] == missing[1..] + [m];
      LackCountAppend(missing[1..], m, id);
    }
  }

  lemma {:induction false} LacksAreUnanswered(saved: Session, wanted: seq<Want>, linked: seq<bool>, live: set<Index>, id: Id, n: nat)
    requires n <= |wanted| == |linked| == |saved.windows|
    ensures LackCount(Lacks(saved, LandAll(wanted, linked, live, n).missing), id) == UnansweredOf(saved.windows, linked, id, n)
  {
    if n > 0 {
      LacksAreUnanswered(saved, wanted, linked, live, id, n - 1);
      var before := LandAll(wanted, linked, live, n - 1).missing;
      var after := LandAll(wanted, linked, live, n).missing;
      if !linked[n - 1] {
        assert Lacks(saved, after) == Lacks(saved, before) + [LackAt(saved, after[|before|])];
        LackCountAppend(Lacks(saved, before), LackAt(saved, after[|before|]), id);
      }
    }
  }

  lemma LackingCounts(c: Context, saved: Session, links: seq<WinLink>, id: Id)
    ensures LackCount(Lacking(c, saved, links), id)
         == UnansweredOf(saved.windows, Pair(Wanted(c, saved), links).linked, id, |saved.windows|)
  {
    var wanted := Wanted(c, saved);
    LacksAreUnanswered(saved, wanted, Pair(wanted, links).linked, LiveIndices(links), id, |wanted|);
    assert Lacking(c, saved, links) == Lacks(saved, Missing(wanted, links));
  }

  /** A saved window and the live window that is it are answered together. */
  lemma {:induction false} AnsweredTogether(w: World, saved: Session, linked: seq<bool>, id: Id, v: Id, n: nat)
    requires WorldOk(w) && LinksResolve(w.c.snapshot.windows, saved) && Saved(w.c.snapshot, id)
    requires n <= |saved.windows| == |linked| && Present(w.c, id) == Some(v)
    ensures AnsweredOf(saved.windows, linked, id, n) == Answered(Wanted(w.c, saved), linked, v, n)
    ensures LinksTo(saved.windows[..n], id) == WantsOf(Wanted(w.c, saved), v, n)
  {
    hide WorldOk, Wanted, Present, LinksResolve, Saved;
    if n > 0 {
      AnsweredTogether(w, saved, linked, id, v, n - 1);
      assert saved.windows[..n][..n - 1] == saved.windows[..n - 1];
      WantedIs(w, saved, id, v, n - 1);
    }
  }

  /** A saved link wants the live window that is its own saved one. */
  lemma WantedIs(w: World, saved: Session, id: Id, v: Id, i: nat)
    requires WorldOk(w) && LinksResolve(w.c.snapshot.windows, saved) && Saved(w.c.snapshot, id)
    requires i < |saved.windows| && Present(w.c, id) == Some(v)
    ensures Wanted(w.c, saved)[i].live == Some(v) <==> saved.windows[i].window == id
  {
    hide WorldOk, Present;
    if Present(w.c, saved.windows[i].window) == Some(v) {
      PresentIsInjective(w, saved.windows[i].window, id);
    }
  }

  lemma {:induction false} AbsentIsUnanswered(c: Context, saved: Session, links: seq<WinLink>, id: Id, n: nat)
    requires n <= |saved.windows| && Present(c, id).None?
    ensures AnsweredOf(saved.windows, Pair(Wanted(c, saved), links).linked, id, n) == 0
  {
    if n > 0 {
      AbsentIsUnanswered(c, saved, links, id, n - 1);
      PairConserves(Wanted(c, saved), links);
    }
  }

  // ---- A capture counts a session's links as the server holds them ----

  function SlotsTo(listed: seq<WinLink>, name: Text, v: Id): set<T.Slot> {
    set k | 0 <= k < |listed| && listed[k].window == v :: T.Slot(name, listed[k].index)
  }

  lemma SlotsPush(listed: seq<WinLink>, name: Text, v: Id)
    requires |listed| > 0
    ensures var last := listed[|listed| - 1];
            SlotsTo(listed, name, v)
            == SlotsTo(listed[..|listed| - 1], name, v) + if last.window == v then {T.Slot(name, last.index)} else {}
  {
    var last, before := listed[|listed| - 1], listed[..|listed| - 1];
    assert forall k :: 0 <= k < |before| ==> before[k] == listed[k];
  }

  lemma {:induction false} ListedCount(listed: seq<WinLink>, name: Text, v: Id)
    requires DistinctIndices(listed)
    ensures |SlotsTo(listed, name, v)| == LinksTo(listed, v)
  {
    if |listed| > 0 {
      var last := listed[|listed| - 1];
      var before := listed[..|listed| - 1];
      ListedCount(before, name, v);
      SlotsPush(listed, name, v);
    }
  }

  /** The live links to the window that is `id`, and the places that hold it. */
  lemma LiveLinksAreHeld(w: World, name: Text, id: Id)
    requires WorldOk(w) && Saved(w.c.snapshot, id)
    ensures forall v :: Present(w.c, id) == Some(v) ==>
              LinksTo(LiveLinks(w.c, name), v) == |Held(w, w.start, name, id)|
    ensures Present(w.c, id).None? ==> Held(w, w.start, name, id) == {}
  {
    PresentAnswers(w, id);
    var links := LiveLinks(w.c, name);
    LiveLinksListed(w, name);
    if Present(w.c, id).Some? {
      var v := Present(w.c, id).value;
      ListedCount(links, name, v);
      hide WorldOk;
      HeldIsSlots(w, name, id, v, links);
    }
  }

  lemma LiveLinksListed(w: World, name: Text)
    requires WorldOk(w)
    ensures T.Lists(LiveLinks(w.c, name), w.start.links, name)
    ensures LiveSession(w.c, name).Some? <==> name in w.start.sessions
  {
    hide Unambiguous, OwnScratch, Coherent;
    if LiveSession(w.c, name).None? {
      forall i ensures T.Slot(name, i) !in w.start.links {}
    }
  }

  lemma HeldIsSlots(w: World, name: Text, id: Id, v: Id, links: seq<WinLink>)
    requires T.Lists(links, w.start.links, name)
    requires Answers(w.c.generation, w.c.snapshot, w.start, v, id)
    requires Ready(w.c.generation, w.c.snapshot, w.start) && Saved(w.c.snapshot, id)
    ensures Held(w, w.start, name, id) == SlotsTo(links, name, v)
  {
    forall at | at in Held(w, w.start, name, id) ensures at in SlotsTo(links, name, v) {
      assert w.start.links[at] == v;
      assert at == T.Slot(name, at.index);
      assert HasIndex(links, at.index);
    }
  }

  // ---- The two halves ----

  /** Session `saved` has, for each saved window, at least as many links to the
      window that is it as the snapshot gave it. */
  ghost predicate Complete(g: Generation, snapshot: Snapshot, s: Server, saved: Session) {
    && saved.name in s.sessions
    && forall id :: Saved(snapshot, id) ==> LinksTo(saved.windows, id) <= |Places(g, snapshot, s, saved.name, id)|
  }

  ghost predicate Done(w: World, s: Server, saved: Session) {
    Complete(w.c.generation, w.c.snapshot, s, saved)
  }

  /** What a session holds and what it lacks make up what was saved. */
  lemma LacksMakeUp(w: World, saved: Session, id: Id)
    requires WorldOk(w) && LinksResolve(w.c.snapshot.windows, saved) && Saved(w.c.snapshot, id)
    ensures LinksTo(saved.windows, id)
         <= |Held(w, w.start, saved.name, id)| + LackCount(Lacking(w.c, saved, LiveLinks(w.c, saved.name)), id)
  {
    hide WorldOk;
    var links := LiveLinks(w.c, saved.name);
    var wanted := Wanted(w.c, saved);
    var linked := Pair(wanted, links).linked;
    var n := |saved.windows|;
    EitherWay(saved.windows, linked, id, n);
    assert saved.windows[..n] == saved.windows;
    LackingCounts(w.c, saved, links, id);
    match Present(w.c, id)
    case None => AbsentIsUnanswered(w.c, saved, links, id, n);
    case Some(v) =>
      AnsweredTogether(w, saved, linked, id, v, n);
      PairConserves(wanted, links);
      LiveLinksAreHeld(w, saved.name, id);
  }

  /** A session that has all it was saved with lacks nothing. */
  lemma DoneLacksNothing(w: World, saved: Session)
    requires WorldOk(w) && LinksResolve(w.c.snapshot.windows, saved) && Done(w, w.start, saved)
    ensures Lacking(w.c, saved, LiveLinks(w.c, saved.name)) == []
  {
    hide WorldOk, Done;
    var links := LiveLinks(w.c, saved.name);
    var wanted := Wanted(w.c, saved);
    var linked := Pair(wanted, links).linked;
    var n := |saved.windows|;
    forall i | 0 <= i < n ensures linked[i] {
      DoneIsAnswered(w, saved, i);
    }
    LandListsUnanswered(wanted, linked, LiveIndices(links), n);
    FullyLinked(linked, n, Missing(wanted, links));
  }

  lemma FullyLinked(linked: seq<bool>, n: nat, missing: seq<Landed>)
    requires n <= |linked| && ListsUnanswered(linked, n, missing) && forall i :: 0 <= i < n ==> linked[i]
    ensures missing == []
  {
    if |missing| > 0 { NotFullyLinked(linked, n, missing); }
  }

  lemma NotFullyLinked(linked: seq<bool>, n: nat, missing: seq<Landed>)
    requires n <= |linked| && ListsUnanswered(linked, n, missing) && |missing| > 0
    ensures exists i :: 0 <= i < n && !linked[i]
  {
    assert !linked[missing[0].at];
  }

  lemma DoneIsAnswered(w: World, saved: Session, i: nat)
    requires WorldOk(w) && LinksResolve(w.c.snapshot.windows, saved) && Done(w, w.start, saved)
    requires i < |saved.windows|
    ensures Pair(Wanted(w.c, saved), LiveLinks(w.c, saved.name)).linked[i]
  {
    var id := saved.windows[i].window;
    var n := |saved.windows|;
    assert Saved(w.c.snapshot, id);
    assert LinksTo(saved.windows, id) <= |Places(w.c.generation, w.c.snapshot, w.start, saved.name, id)|;
    assert LinksTo(saved.windows, id) <= |Held(w, w.start, saved.name, id)|;
    hide WorldOk, Done, Complete, Held, Places;
    var links := LiveLinks(w.c, saved.name);
    var wanted := Wanted(w.c, saved);
    var linked := Pair(wanted, links).linked;
    assert saved.windows[..n] == saved.windows;
    LinksToZero(saved.windows, id);
    LiveLinksAreHeld(w, saved.name, id);
    match Present(w.c, id)
    case None => assert false;
    case Some(v) =>
      AnsweredTogether(w, saved, linked, id, v, n);
      GreedyIsOptimal(wanted, links, v);
      AnsweredBounded(wanted, linked, v, n);
      assert wanted[i].live == Some(v);
  }
}
