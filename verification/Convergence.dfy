/** Theorems about one restore, complete or stopped at any step: what was live
    survives it, a stamped window is whole, a marked server is finished, a stopped
    one can be restored onto again, and a finished one needs no step. */
module Convergence {
  import opened Wrappers
  import opened Snapshots
  import opened Steps
  import opened Planner
  import opened Applying
  import opened Safety
  import opened Furnishing
  import opened Sessions
  import opened Counting
  import opened Restoring
  import M = Matching
  import T = Tmux

  /** The restore of `snapshot` onto a server, whose capture `onto` carries. */
  ghost predicate Launches(g: Generation, snapshot: Snapshot, onto: Onto, s: Server) {
    && Coherent(snapshot) && Ready(g, snapshot, s)
    && !onto.OntoNoServer? && T.Captures(onto.live, s)
    && (onto.OntoScratch? ==> OwnScratch(g, snapshot, s, onto.scratch))
  }

  function WorldOf(g: Generation, snapshot: Snapshot, onto: Onto, s: Server): World {
    World(ContextOf(g, snapshot, onto), s, onto.Scratch())
  }

  // ---- Session after session ----

  /** After `n` sessions: the first ones settled, the rest untouched. */
  ghost predicate Progress(w: World, s: Server, n: nat) {
    var sessions := w.c.snapshot.sessions;
    && n <= |sessions|
    && (forall k :: 0 <= k < n && Addressable(sessions[k].name) ==> Settled(w, s, sessions[k]))
    && (forall k :: n <= k < |sessions| ==> Untouched(w, s, sessions[k].name))
  }

  lemma SettledStays(w: World, s: Server, t: Server, name: Text, saved: Session)
    requires Settled(w, s, saved) && Elsewhere(w, s, t, name) && T.WellFormed(t)
    requires T.WellFormed(s) && saved.name != name && Some(saved.name) != w.scratch
    ensures Settled(w, t, saved)
  {
    PlacedStays(w, s, t, saved);
    hide Placed;
    forall id | Saved(w.c.snapshot, id)
      ensures |Places(w.c.generation, w.c.snapshot, s, saved.name, id)| <= |Places(w.c.generation, w.c.snapshot, t, saved.name, id)|
    {
      PlacesStay(w, s, t, name, saved.name, id);
    }
  }

  lemma PlacesStay(w: World, s: Server, t: Server, name: Text, other: Text, id: Id)
    requires Elsewhere(w, s, t, name) && T.WellFormed(t) && other != name && Some(other) != w.scratch
    ensures var g, snap := w.c.generation, w.c.snapshot;
            |Places(g, snap, s, other, id)| <= |Places(g, snap, t, other, id)|
  {
    Subset(Places(w.c.generation, w.c.snapshot, s, other, id), Places(w.c.generation, w.c.snapshot, t, other, id));
  }

  lemma ProgressGrows(w: World, s: Server, t: Server, n: nat)
    requires WorldOk(w) && Progress(w, s, n) && n < |w.c.snapshot.sessions| && T.WellFormed(s) && T.WellFormed(t)
    requires Elsewhere(w, s, t, w.c.snapshot.sessions[n].name) && Settled(w, t, w.c.snapshot.sessions[n])
    ensures Progress(w, t, n + 1)
  {
    var sessions := w.c.snapshot.sessions;
    hide WorldOk, Settled, Untouched, Elsewhere, T.WellFormed, Addressable;
    NamesApart(w, n);
    forall k | 0 <= k < n && Addressable(sessions[k].name) ensures Settled(w, t, sessions[k]) {
      SettledStays(w, s, t, sessions[n].name, sessions[k]);
    }
    forall k | n < k < |sessions| ensures Untouched(w, t, sessions[k].name) {
      UntouchedStays(w, s, t, sessions[n].name, sessions[k].name);
    }
  }

  lemma UntouchedStays(w: World, s: Server, t: Server, name: Text, other: Text)
    requires Untouched(w, s, other) && Elsewhere(w, s, t, name) && other != name && Some(other) != w.scratch
    ensures Untouched(w, t, other)
  {}

  lemma NamesApart(w: World, n: nat)
    requires WorldOk(w) && n < |w.c.snapshot.sessions|
    ensures var sessions := w.c.snapshot.sessions;
            forall k :: 0 <= k < |sessions| ==> Some(sessions[k].name) != w.scratch && (k != n ==> sessions[k].name != sessions[n].name)
  {
    hide Ready, T.Captures, ValidWindow, ValidSession, LinksResolve;
    forall k | 0 <= k < |w.c.snapshot.sessions| ensures Some(w.c.snapshot.sessions[k].name) != w.scratch {
      assert HoldsSession(w.c.snapshot.sessions, w.c.snapshot.sessions[k].name);
    }
  }

  lemma ProgressSkips(w: World, s: Server, n: nat)
    requires Progress(w, s, n) && n < |w.c.snapshot.sessions| && !Addressable(w.c.snapshot.sessions[n].name)
    ensures Progress(w, s, n + 1)
  {}

  lemma ProgressNext(w: World, s: Server, n: nat)
    requires Progress(w, s, n) && n < |w.c.snapshot.sessions|
    ensures Untouched(w, s, w.c.snapshot.sessions[n].name)
  {}

  ghost predicate AnyAddressable(snapshot: Snapshot, n: nat) {
    exists k :: 0 <= k < n && k < |snapshot.sessions| && Addressable(snapshot.sessions[k].name)
  }

  lemma {:induction false} SessionsRun(w: World, d: Draft, m: Machine, n: nat) returns (after: Machine)
    requires WorldOk(w) && Coherent(w.c.snapshot) && n <= |w.c.snapshot.sessions|
    requires Follows(w, d, m) && Progress(w, m.server, 0) && d.scratch == w.scratch
    ensures Follows(w, DraftSessions(w.c, d, n), after) && Progress(w, after.server, n)
    ensures DraftSessions(w.c, d, n).scratch == if AnyAddressable(w.c.snapshot, n) then None else w.scratch
    decreases n
  {
    hide WorldOk, Coherent, Follows, Progress, Settled, Untouched, Elsewhere, DraftSession, T.WellFormed;
    if n == 0 {
      after := m;
    } else {
      var before := SessionsRun(w, d, m, n - 1);
      var e := DraftSessions(w.c, d, n - 1);
      var saved := w.c.snapshot.sessions[n - 1];
      if Addressable(saved.name) {
        ProgressNext(w, before.server, n - 1);
        LeadsWhenNoneBefore(w.c.snapshot, n - 1);
        after := SessionRuns(w, e, before, saved);
        FollowsIsWellFormed(w, e, before);
        FollowsIsWellFormed(w, DraftSession(w.c, e, saved), after);
        ProgressGrows(w, before.server, after.server, n - 1);
      } else {
        after := before;
        SkippedFollows(w, e, before, saved);
        ProgressSkips(w, before.server, n - 1);
      }
    }
  }

  lemma LeadsWhenNoneBefore(snapshot: Snapshot, k: nat)
    requires Coherent(snapshot) && k < |snapshot.sessions| && Addressable(snapshot.sessions[k].name)
    ensures Leads(snapshot, snapshot.sessions[k]) <==> !AnyAddressable(snapshot, k)
  {
    hide ValidWindow, ValidSession, LinksResolve, Addressable;
    var at := Find(snapshot.sessions, (x: Session) => Addressable(x.name)).value;
    assert DistinctNames(snapshot.sessions);
    if at < k { assert AnyAddressable(snapshot, k); }
  }

  lemma SkippedFollows(w: World, d: Draft, m: Machine, saved: Session)
    requires Coherent(w.c.snapshot) && Follows(w, d, m) && saved in w.c.snapshot.sessions && !Addressable(saved.name)
    ensures Follows(w, DraftSession(w.c, d, saved), m) && DraftSession(w.c, d, saved).scratch == d.scratch
  {
    hide Runs, Bookkeeping;
    StepsAreNotBooks(w, d, DraftSession(w.c, d, saved), m);
  }

  lemma BlankFollows(w: World, onto: Onto)
    requires WorldOk(w) && w.scratch == onto.Scratch()
    ensures Follows(w, Blank(onto), Start(w.start)) && Progress(w, w.start, 0)
  {
    hide WorldOk, Safe, Bookkeeping, Progress, Runs;
    StartIsSafe(w);
    NothingRuns(w);
    BlankBooks(w, onto);
    NoProgressYet(w);
  }

  lemma NothingRuns(w: World)
    requires Safe(w, w.start)
    ensures Runs(w, [], Start(w.start))
  {
    hide Safe, RunStep;
    var steps: seq<Step> := [];
    forall k | 0 <= k <= |steps| ensures SafeAfter(w, steps[..k]) {
      assert steps[..k] == [];
    }
  }

  lemma NoProgressYet(w: World)
    ensures Progress(w, w.start, 0)
  {
    hide Settled;
  }

  lemma BlankBooks(w: World, onto: Onto)
    requires WorldOk(w) && w.scratch == onto.Scratch()
    ensures Bookkeeping(w, Blank(onto), Start(w.start))
  {
    hide Coherent, T.Captures, Unambiguous;
    StartIsWellFormed(w);
  }

  // ---- Every prefix of a plan ----

  lemma LaunchesIsOk(g: Generation, snapshot: Snapshot, onto: Onto, s: Server)
    requires Launches(g, snapshot, onto, s)
    ensures WorldOk(WorldOf(g, snapshot, onto, s)) && WorldOf(g, snapshot, onto, s).scratch == onto.Scratch()
  {}

  /** The steps of every saved session, without the server's mark. */
  function Body(g: Generation, snapshot: Snapshot, onto: Onto): Draft
    requires Coherent(snapshot)
  {
    DraftSessions(ContextOf(g, snapshot, onto), Blank(onto), |snapshot.sessions|)
  }

  lemma PlanIsBody(g: Generation, snapshot: Snapshot, onto: Onto)
    requires Coherent(snapshot)
    ensures PlanOf(g, snapshot, onto).steps == Body(g, snapshot, onto).steps + Closing(ContextOf(g, snapshot, onto))
  {
    hide Coherent, DraftSessions;
  }

  lemma BodyRuns(g: Generation, snapshot: Snapshot, onto: Onto, s: Server) returns (m: Machine)
    requires Launches(g, snapshot, onto, s) && Coherent(snapshot)
    ensures var w := WorldOf(g, snapshot, onto, s);
            Follows(w, Body(g, snapshot, onto), m) && Progress(w, m.server, |snapshot.sessions|)
    ensures AnyAddressable(snapshot, |snapshot.sessions|) ==> Body(g, snapshot, onto).scratch.None?
  {
    hide Launches, Coherent, WorldOk, Follows, Progress, DraftSessions;
    var w := WorldOf(g, snapshot, onto, s);
    LaunchesIsOk(g, snapshot, onto, s);
    BlankFollows(w, onto);
    m := SessionsRun(w, Blank(onto), Start(s), |snapshot.sessions|);
  }

  /** Safe but for the server's mark, which only the last step sets. */
  ghost predicate SafeButMark(w: World, s: Server) {
    Safe(w, s.(mark := w.start.mark)) && (s.mark == w.start.mark || s.mark == By(w.c.generation))
  }

  ghost predicate Prefix(g: Generation, snapshot: Snapshot, onto: Onto, s: Server, k: nat, m: Machine)
    requires Coherent(snapshot)
  {
    && k <= |PlanOf(g, snapshot, onto).steps|
    && Exec(Start(s), PlanOf(g, snapshot, onto).steps[..k]) == Ran(m)
  }

  /** However far a plan gets, no step is refused and the server is safe; only
      the whole of it sets the mark. */
  lemma PrefixRuns(g: Generation, snapshot: Snapshot, onto: Onto, s: Server, k: nat) returns (m: Machine)
    requires Launches(g, snapshot, onto, s) && Coherent(snapshot) && k <= |PlanOf(g, snapshot, onto).steps|
    ensures Prefix(g, snapshot, onto, s, k, m) && SafeButMark(WorldOf(g, snapshot, onto, s), m.server)
    ensures k < |PlanOf(g, snapshot, onto).steps| ==> m.server.mark == s.mark
    ensures k == |PlanOf(g, snapshot, onto).steps| ==>
              m.server.mark == By(g) && Progress(WorldOf(g, snapshot, onto, s), m.server, |snapshot.sessions|)
    ensures k == |PlanOf(g, snapshot, onto).steps| && onto.OntoScratch? && AnyAddressable(snapshot, |snapshot.sessions|) ==>
              onto.scratch !in m.server.sessions
  {
    hide Launches, Coherent, Safe, SafeButMark, Progress, Follows, Runs, Bookkeeping, Exec, RunStep, PlanOf, Body;
    var w := WorldOf(g, snapshot, onto, s);
    var d := Body(g, snapshot, onto);
    var steps := PlanOf(g, snapshot, onto).steps;
    PlanIsBody(g, snapshot, onto);
    var last := BodyRuns(g, snapshot, onto, s);
    if k <= |d.steps| {
      assert steps[..k] == d.steps[..k];
      m := BodyPrefix(w, d, last, k);
      if k == |steps| {
        ScratchIsClosed(w, d, last);
        assert w.c.live.value.touched == s.mark by { LaunchesAt(g, snapshot, onto, s); }
      }
    } else {
      assert steps[..k] == d.steps + [SetOption(ServerMark(g))];
      m := BodyThenMark(w, d, last);
      ScratchIsClosed(w, d, last);
      ProgressMarks(w, last.server, g, |snapshot.sessions|);
    }
  }

  lemma LaunchesAt(g: Generation, snapshot: Snapshot, onto: Onto, s: Server)
    requires Launches(g, snapshot, onto, s)
    ensures ContextOf(g, snapshot, onto).live == Some(onto.live) && onto.live.touched == s.mark
  {}

  /** A prefix of steps that run and follow. */
  lemma BodyPrefix(w: World, d: Draft, last: Machine, k: nat) returns (m: Machine)
    requires Follows(w, d, last) && k <= |d.steps|
    ensures Exec(Start(w.start), d.steps[..k]) == Ran(m) && SafeButMark(w, m.server) && m.server.mark == w.start.mark
    ensures k == |d.steps| ==> m == last
  {
    hide Bookkeeping, RunStep, T.WellFormed, OldUntouched, NothingLost, StampsWhole;
    assert SafeAfter(w, d.steps[..k]);
    m := Exec(Start(w.start), d.steps[..k]).m;
    assert m.server.(mark := w.start.mark) == m.server;
    assert k == |d.steps| ==> d.steps[..k] == d.steps;
  }

  lemma BodyThenMark(w: World, d: Draft, last: Machine) returns (m: Machine)
    requires Follows(w, d, last)
    ensures m == last.(server := last.server.(mark := By(w.c.generation)))
    ensures Exec(Start(w.start), d.steps + [SetOption(ServerMark(w.c.generation))]) == Ran(m)
    ensures SafeButMark(w, m.server)
  {
    hide Bookkeeping, RunStep, Safe, SafeButMark, SafeAfter;
    var steps := d.steps + [SetOption(ServerMark(w.c.generation))];
    assert steps[..|steps| - 1] == d.steps;
    m := last.(server := last.server.(mark := By(w.c.generation)));
    RunsToSafe(w, d.steps, last);
    MarkIsAside(w, last.server, w.c.generation);
    MarkRuns(last, w.c.generation);
  }

  lemma ScratchIsClosed(w: World, d: Draft, m: Machine)
    requires Follows(w, d, m)
    ensures d.scratch.None? && w.scratch.Some? ==> w.scratch.value !in m.server.sessions
  {
    hide Runs;
  }

  lemma MarkRuns(m: Machine, g: Generation)
    ensures RunStep(m, SetOption(ServerMark(g))) == Ran(m.(server := m.server.(mark := By(g))))
  {}

  lemma MarkIsAside(w: World, s: Server, g: Generation)
    requires Safe(w, s) && w.c.generation == g
    ensures SafeButMark(w, s.(mark := By(g)))
  {
    hide StampsWhole, NothingLost, OldUntouched, T.WellFormed;
    assert s.(mark := By(g)).(mark := w.start.mark) == s;
  }

  lemma ProgressMarks(w: World, s: Server, g: Generation, n: nat)
    requires Progress(w, s, n)
    ensures Progress(w, s.(mark := By(g)), n)
  {
    hide Settled, Addressable;
    var t := s.(mark := By(g));
    var sessions := w.c.snapshot.sessions;
    forall k | 0 <= k < n && Addressable(sessions[k].name) ensures Settled(w, t, sessions[k]) {
      SettledMarks(w, s, g, sessions[k]);
    }
  }

  lemma SettledMarks(w: World, s: Server, g: Generation, saved: Session)
    requires Settled(w, s, saved)
    ensures Settled(w, s.(mark := By(g)), saved)
  {
    var t := s.(mark := By(g));
    PlacedStays(w, s, t, saved);
    hide Placed, Owed, ClosesScratch;
    forall id ensures Places(w.c.generation, w.c.snapshot, t, saved.name, id)
                   == Places(w.c.generation, w.c.snapshot, s, saved.name, id) {}
  }

  // ---- What the prose promises ----

  /** The first `k` steps of the plan, run from `s`, leave `t`. */
  ghost predicate Stopped(g: Generation, snapshot: Snapshot, onto: Onto, s: Server, k: nat, t: Server)
    requires Coherent(snapshot)
  {
    && k <= |PlanOf(g, snapshot, onto).steps|
    && Exec(Start(s), PlanOf(g, snapshot, onto).steps[..k]).Ran?
    && t == Exec(Start(s), PlanOf(g, snapshot, onto).steps[..k]).m.server
  }

  /** The server a prefix of the plan leaves. */
  ghost predicate CutShort(g: Generation, snapshot: Snapshot, onto: Onto, s: Server, k: nat, t: Server) {
    Launches(g, snapshot, onto, s) && Coherent(snapshot) && Stopped(g, snapshot, onto, s, k, t)
  }

  /** No step of a plan is ever refused, and none uses a reference before a step
      binds it. */
  lemma NoStepIsRefused(g: Generation, snapshot: Snapshot, onto: Onto, s: Server, k: nat)
    requires Launches(g, snapshot, onto, s) && Coherent(snapshot) && k <= |PlanOf(g, snapshot, onto).steps|
    ensures Exec(Start(s), PlanOf(g, snapshot, onto).steps[..k]).Ran?
  {
    hide Launches, Coherent, SafeButMark, Progress, PlanOf;
    var m := PrefixRuns(g, snapshot, onto, s, k);
  }

  /** No step lands on an index another window holds, save a link that replaces
      the placeholder the plan itself made, still unstamped; and no session is
      killed but the scratch, once no client is on it. */
  lemma StepsTakeOnlyTheirOwn(g: Generation, snapshot: Snapshot, onto: Onto, s: Server, k: nat)
    requires Launches(g, snapshot, onto, s) && Coherent(snapshot) && k < |PlanOf(g, snapshot, onto).steps|
    ensures var steps := PlanOf(g, snapshot, onto).steps;
            Exec(Start(s), steps[..k]).Ran? && Polite(WorldOf(g, snapshot, onto, s), Exec(Start(s), steps[..k]).m, steps[k])
  {
    hide Launches, Coherent, Safe, Progress, Follows, PlanOf, Body, Exec, RunStep, Polite;
    var w := WorldOf(g, snapshot, onto, s);
    var d := Body(g, snapshot, onto);
    var steps := PlanOf(g, snapshot, onto).steps;
    PlanIsBody(g, snapshot, onto);
    var last := BodyRuns(g, snapshot, onto, s);
    if k < |d.steps| {
      assert steps[..k] == d.steps[..k];
      BodyIsPolite(w, d, last, k);
    } else {
      assert steps[..k] == d.steps;
      FollowsRan(w, d, last);
      MarkIsPolite(w, last, g);
    }
  }

  lemma BodyIsPolite(w: World, d: Draft, last: Machine, k: nat)
    requires Follows(w, d, last) && k < |d.steps|
    ensures Exec(Start(w.start), d.steps[..k]).Ran? && Polite(w, Exec(Start(w.start), d.steps[..k]).m, d.steps[k])
  {
    hide Bookkeeping, Exec, RunStep, SafeAfter, Polite;
    assert PoliteAt(w, d.steps, k);
  }

  lemma FollowsRan(w: World, d: Draft, m: Machine)
    requires Follows(w, d, m)
    ensures Exec(Start(w.start), d.steps) == Ran(m)
  {
    hide Bookkeeping, Exec, SafeAfter, PoliteAt;
  }

  lemma MarkIsPolite(w: World, m: Machine, g: Generation)
    ensures Polite(w, m, SetOption(ServerMark(g)))
  {}

  lemma CutShortIsSafe(g: Generation, snapshot: Snapshot, onto: Onto, s: Server, k: nat, t: Server)
    requires CutShort(g, snapshot, onto, s, k, t)
    ensures SafeButMark(WorldOf(g, snapshot, onto, s), t)
    ensures k < |PlanOf(g, snapshot, onto).steps| ==> t.mark == s.mark
  {
    hide Launches, Coherent, SafeButMark, Progress, PlanOf, Exec;
    var m := PrefixRuns(g, snapshot, onto, s, k);
  }

  /** Nothing live is lost: wherever a restore stops, every session that was
      there, bar the scratch, holds each of its links at the same index to the
      same window, that window is exactly as it was, the session shows what it
      showed, and no client has been detached. */
  lemma NothingLiveIsLost(g: Generation, snapshot: Snapshot, onto: Onto, s: Server, k: nat, t: Server)
    requires CutShort(g, snapshot, onto, s, k, t)
    ensures forall n :: n in s.sessions && Some(n) != onto.Scratch() ==> n in t.sessions
    ensures forall at :: at in s.links && Some(at.session) != onto.Scratch() ==>
              at in t.links && t.links[at] == s.links[at]
              && s.links[at] in t.windows && t.windows[s.links[at]] == s.windows[s.links[at]]
    ensures forall n :: n in s.sessions && n in s.shown && Some(n) != onto.Scratch() ==> n in t.shown && t.shown[n] == s.shown[n]
    ensures forall c :: c in s.clients ==> c in t.clients
    ensures forall c :: c in s.clients && Some(s.clients[c]) != onto.Scratch() ==> t.clients[c] == s.clients[c]
  {
    CutShortIsSafe(g, snapshot, onto, s, k, t);
    var w := WorldOf(g, snapshot, onto, s);
    LaunchesIsOk(g, snapshot, onto, s);
    StartIsWellFormed(w);
    hide CutShort, WorldOk, StampsWhole;
    forall at | at in s.links && Some(at.session) != onto.Scratch()
      ensures at in t.links && t.links[at] == s.links[at]
              && s.links[at] in t.windows && t.windows[s.links[at]] == s.windows[s.links[at]]
    {
      assert w.start.links[at] in w.start.windows;
    }
  }

  /** A stamp means whole: wherever a restore stops, a window it stamped is the
      whole of one saved window, which no window was when it started, and no two
      carry the same stamp. */
  lemma StampMeansWhole(g: Generation, snapshot: Snapshot, onto: Onto, s: Server, k: nat, t: Server, v: Id)
    requires CutShort(g, snapshot, onto, s, k, t)
    requires v in t.windows && v !in s.windows && t.windows[v].made.ByPhoenix?
    ensures var made := t.windows[v].made;
            && made.generation == g && Saved(snapshot, made.saved)
            && Whole(t.windows[v], WindowOf(snapshot, made.saved))
            && (forall u :: !Answers(g, snapshot, s, u, made.saved))
            && (forall u :: u in t.windows && t.windows[u].made == made ==> u == v)
  {
    hide Launches, Coherent, WorldOk, PlanOf, Exec, Safe, IsWhole, Answers, Present;
    var w := WorldOf(g, snapshot, onto, s);
    CutShortIsSafe(g, snapshot, onto, s, k, t);
    LaunchesIsOk(g, snapshot, onto, s);
    var u := t.(mark := s.mark);
    NewIsWhole(w, u, v);
    WholeIs(w, t.windows[v]);
    PresentAnswers(w, t.windows[v].made.saved);
    NewIsOnly(w, u, v);
  }

  lemma WholeIs(w: World, win: T.Win)
    requires IsWhole(w, win)
    ensures win.made.ByPhoenix? && win.made.generation == w.c.generation && Saved(w.c.snapshot, win.made.saved)
    ensures Whole(win, WindowOf(w.c.snapshot, win.made.saved)) && Present(w.c, win.made.saved).None?
  {
    hide Whole, Present, WindowOf;
  }

  lemma NewIsWhole(w: World, s: Server, v: Id)
    requires Safe(w, s) && v in s.windows && v !in w.start.windows && s.windows[v].made.ByPhoenix?
    ensures New(w, s, v) && IsWhole(w, s.windows[v])
  {
    hide T.WellFormed, NothingLost, IsWhole;
  }

  lemma NewIsOnly(w: World, s: Server, v: Id)
    requires WorldOk(w) && Safe(w, s) && New(w, s, v) && IsWhole(w, s.windows[v])
    requires forall u :: !Answers(w.c.generation, w.c.snapshot, w.start, u, s.windows[v].made.saved)
    ensures forall u :: u in s.windows && s.windows[u].made == s.windows[v].made ==> u == v
  {
    WholeIs(w, s.windows[v]);
    hide WorldOk, T.WellFormed, NothingLost, IsWhole, Whole;
    forall u | u in s.windows && s.windows[u].made == s.windows[v].made ensures u == v {
      if u < w.start.nextWindow {
        assert false;
      }
      assert New(w, s, u);
    }
  }

  /** A server a restore has been cut short on is one a restore can start on. */
  lemma CutShortIsReady(g: Generation, snapshot: Snapshot, onto: Onto, s: Server, k: nat, t: Server)
    requires CutShort(g, snapshot, onto, s, k, t)
    ensures Ready(g, snapshot, t)
  {
    CutShortIsSafe(g, snapshot, onto, s, k, t);
    var w := WorldOf(g, snapshot, onto, s);
    LaunchesIsOk(g, snapshot, onto, s);
    hide CutShort;
    SafeIsReady(w, t.(mark := s.mark));
    ReadyWhateverTheMark(g, snapshot, t.(mark := s.mark), t);
  }

  lemma ReadyWhateverTheMark(g: Generation, snapshot: Snapshot, s: Server, t: Server)
    requires Ready(g, snapshot, s) && t == s.(mark := t.mark)
    ensures Ready(g, snapshot, t)
  {
    forall v, id ensures Answers(g, snapshot, t, v, id) <==> Answers(g, snapshot, s, v, id) {}
  }

  /** What answers a saved window now: an old window that did, or a new one
      stamped for a saved window nothing was. */
  lemma AnswersNow(w: World, s: Server, v: Id, id: Id)
    requires WorldOk(w) && Safe(w, s) && Saved(w.c.snapshot, id) && Answers(w.c.generation, w.c.snapshot, s, v, id)
    ensures v < w.start.nextWindow ==> Answers(w.c.generation, w.c.snapshot, w.start, v, id)
    ensures v >= w.start.nextWindow ==>
              New(w, s, v) && s.windows[v].made == ByPhoenix(w.c.generation, id) && Present(w.c, id).None?
  {
    hide Coherent, T.Captures, OwnScratch, Unambiguous, NothingLost, T.WellFormed, Whole;
    var k :| 0 <= k < |w.c.snapshot.windows| && w.c.snapshot.windows[k].id == id;
  }

  lemma SafeIsReady(w: World, s: Server)
    requires WorldOk(w) && Safe(w, s)
    ensures Ready(w.c.generation, w.c.snapshot, s)
  {
    var g, snapshot := w.c.generation, w.c.snapshot;
    assert Ready(g, snapshot, w.start);
    SafeIsWellFormed(w, s);
    assert s.origin == w.start.origin && w.start.nextWindow <= s.nextWindow;
    assert StampsWhole(w, s);
    hide WorldOk, Safe, T.WellFormed, Answers, IsWhole;
    forall u, v, id | Saved(snapshot, id) && Answers(g, snapshot, s, u, id) && Answers(g, snapshot, s, v, id) ensures u == v {
      AnswersNow(w, s, u, id);
      AnswersNow(w, s, v, id);
      PresentAnswers(w, id);
    }
    forall v, a, b | Saved(snapshot, a) && Saved(snapshot, b) && Answers(g, snapshot, s, v, a) && Answers(g, snapshot, s, v, b)
      ensures a == b
    {
      AnswersNow(w, s, v, a);
      AnswersNow(w, s, v, b);
    }
  }

  /** What a finished restore leaves: the mark, and every addressable saved
      session complete. */
  ghost predicate Finished(g: Generation, snapshot: Snapshot, s: Server) {
    && s.mark == By(g)
    && forall k :: 0 <= k < |snapshot.sessions| && Addressable(snapshot.sessions[k].name) ==>
         Complete(g, snapshot, s, snapshot.sessions[k])
  }

  lemma ProgressIsFinished(w: World, s: Server)
    requires Progress(w, s, |w.c.snapshot.sessions|) && s.mark == By(w.c.generation)
    ensures Finished(w.c.generation, w.c.snapshot, s)
  {
    hide Complete;
    forall k | 0 <= k < |w.c.snapshot.sessions| && Addressable(w.c.snapshot.sessions[k].name)
      ensures Complete(w.c.generation, w.c.snapshot, s, w.c.snapshot.sessions[k])
    {
      assert Settled(w, s, w.c.snapshot.sessions[k]);
    }
  }

  /** Nothing is left to do after a whole plan, and the scratch goes with it when
      any saved session could take its clients. */
  lemma RestoreFinishes(g: Generation, snapshot: Snapshot, onto: Onto, s: Server, t: Server)
    requires Coherent(snapshot) && CutShort(g, snapshot, onto, s, |PlanOf(g, snapshot, onto).steps|, t)
    ensures Finished(g, snapshot, t)
    ensures onto.OntoScratch? && AnyAddressable(snapshot, |snapshot.sessions|) ==> onto.scratch !in t.sessions
  {
    hide Launches, Coherent, SafeButMark, Progress, PlanOf, Exec, Finished;
    var m := PrefixRuns(g, snapshot, onto, s, |PlanOf(g, snapshot, onto).steps|);
    ProgressIsFinished(WorldOf(g, snapshot, onto, s), t);
  }

  /** The mark means finished: a restore that starts without this generation's
      mark leaves it, wherever it stops, only on a server it has finished. */
  lemma MarkMeansFinished(g: Generation, snapshot: Snapshot, onto: Onto, s: Server, k: nat, t: Server)
    requires CutShort(g, snapshot, onto, s, k, t) && s.mark != By(g) && t.mark == By(g)
    ensures Finished(g, snapshot, t)
  {
    hide Finished, SafeButMark, Launches, Coherent, PlanOf, Exec;
    CutShortIsSafe(g, snapshot, onto, s, k, t);
    RestoreFinishes(g, snapshot, onto, s, t);
  }

  // ---- Restoring twice ----

  /** A session's steps are none exactly when the plan has nothing to say of it:
      it is live and lacks nothing, and nothing else is owed. */
  lemma SessionSteps(c: Context, d: Draft, saved: Session)
    requires Coherent(c.snapshot) && saved in c.snapshot.sessions
    requires Addressable(saved.name) && d.scratch.None? && !Unfinished(c)
    ensures var e := DraftSession(c, d, saved);
            && e.scratch.None? && |e.steps| >= |d.steps|
            && (e.steps == d.steps <==> LiveSession(c, saved.name).Some? && Lacking(c, saved, LiveLinks(c, saved.name)) == [])
  {
    var missing := Lacking(c, saved, LiveLinks(c, saved.name));
    LackingIsKnown(c, saved, LiveLinks(c, saved.name));
    var noted := Noted(c, d, saved);
    FillSteps(c, noted, saved.name, missing);
    hide Coherent, FillSession, Lacking;
    var e := FillSession(c, noted, saved.name, missing);
    assert DraftSession(c, d, saved) == FinishSession(c, e, saved, |d.steps|);
  }

  /** Which of the first `n` sessions a plan leaves alone. */
  ghost predicate LeavesAlone(c: Context, n: nat)
    requires n <= |c.snapshot.sessions|
  {
    forall k :: 0 <= k < n && Addressable(c.snapshot.sessions[k].name) ==>
      && LiveSession(c, c.snapshot.sessions[k].name).Some?
      && Lacking(c, c.snapshot.sessions[k], LiveLinks(c, c.snapshot.sessions[k].name)) == []
  }

  lemma {:induction false} SessionsSteps(c: Context, d: Draft, n: nat)
    requires Coherent(c.snapshot) && n <= |c.snapshot.sessions| && d.scratch.None? && d.steps == [] && !Unfinished(c)
    ensures DraftSessions(c, d, n).scratch.None?
    ensures DraftSessions(c, d, n).steps == [] <==> LeavesAlone(c, n)
  {
    hide DraftSession, Coherent, Lacking, LiveLinks, LiveSession, Unfinished;
    if n > 0 {
      var saved := c.snapshot.sessions[n - 1];
      SessionsSteps(c, d, n - 1);
      if Addressable(saved.name) {
        SessionSteps(c, DraftSessions(c, d, n - 1), saved);
      } else {
        UnaddressableSteps(c, DraftSessions(c, d, n - 1), saved);
      }
    }
  }

  lemma UnaddressableSteps(c: Context, d: Draft, saved: Session)
    requires Coherent(c.snapshot) && saved in c.snapshot.sessions && !Addressable(saved.name)
    ensures DraftSession(c, d, saved).steps == d.steps && DraftSession(c, d, saved).scratch == d.scratch
  {
    hide Coherent;
  }

  /** Restoring twice does nothing, and only restoring twice: a plan onto a
      server is empty exactly when the server is already finished. */
  lemma PlanIsEmptyWhenFinished(g: Generation, snapshot: Snapshot, live: Snapshot, s: Server)
    requires Coherent(snapshot) && Ready(g, snapshot, s) && T.Captures(live, s)
    ensures PlanOf(g, snapshot, OntoServer(live)).steps == [] <==> Finished(g, snapshot, s)
  {
    var onto := OntoServer(live);
    var w := WorldOf(g, snapshot, onto, s);
    LaunchesIsOk(g, snapshot, onto, s);
    if s.mark == By(g) {
      SessionsSteps(w.c, Blank(onto), |snapshot.sessions|);
      forall k | 0 <= k < |snapshot.sessions| && Addressable(snapshot.sessions[k].name)
        ensures LiveSession(w.c, snapshot.sessions[k].name).Some?
                && Lacking(w.c, snapshot.sessions[k], LiveLinks(w.c, snapshot.sessions[k].name)) == []
            <==> Complete(g, snapshot, s, snapshot.sessions[k])
      {
        LacksNothingWhenComplete(w, snapshot.sessions[k]);
      }
    }
  }

  lemma LacksNothingWhenComplete(w: World, saved: Session)
    requires WorldOk(w) && saved in w.c.snapshot.sessions
    ensures LiveSession(w.c, saved.name).Some? && Lacking(w.c, saved, LiveLinks(w.c, saved.name)) == []
       <==> Complete(w.c.generation, w.c.snapshot, w.start, saved)
  {
    assert LinksResolve(w.c.snapshot.windows, saved);
    LiveLinksListed(w, saved.name);
    hide WorldOk, LiveSession, Lacking, LiveLinks, Places;
    if Complete(w.c.generation, w.c.snapshot, w.start, saved) {
      DoneLacksNothing(w, saved);
    }
    if LiveSession(w.c, saved.name).Some? && Lacking(w.c, saved, LiveLinks(w.c, saved.name)) == [] {
      forall id | Saved(w.c.snapshot, id)
        ensures M.LinksTo(saved.windows, id) <= |Places(w.c.generation, w.c.snapshot, w.start, saved.name, id)|
      {
        LacksMakeUp(w, saved, id);
      }
    }
  }
}
