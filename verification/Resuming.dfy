/** Restores over and over: any number of them, each cut short at any step and
    begun again by a new connection, keep what a restore assumes; one more run in
    full finishes, and the plan after it is empty. Nothing is assumed of the
    servers on the way but what the first one was. */
module Resuming {
  import opened Wrappers
  import opened Snapshots
  import opened Steps
  import opened Planner
  import opened Applying
  import opened Safety
  import opened Furnishing
  import opened Sessions
  import opened Convergence
  import T = Tmux

  // ---- Opening a connection ----

  /** `Connection::open`: attached to a session of `s`, or to a scratch session
      made for it, of a name no saved session has. Whichever clients have come and
      gone since the last connection is left open. */
  ghost predicate Opens(snapshot: Snapshot, onto: Onto, s: Server, u: Server) {
    match onto
    case OntoServer(_) => u == s.(clients := u.clients)
    case OntoScratch(scratch, _) => !HoldsSession(snapshot.sessions, scratch) && Makes(s, scratch, u)
    case OntoNoServer(_) => false
  }

  ghost predicate Makes(s: Server, name: Text, u: Server) {
    exists title, cwd :: T.NewSession(s, name, title, cwd).Some?
                         && u == T.NewSession(s, name, title, cwd).value.server.(clients := u.clients)
  }

  /** The one window a connection made is new to the server and unstamped. */
  lemma MadeIsNew(s: Server, name: Text, u: Server)
    requires T.WellFormed(s) && Makes(s, name, u)
    ensures T.WellFormed(u) && u.origin == s.origin && u.nextWindow == s.nextWindow + 1 && name in u.sessions
    ensures s.nextWindow !in s.windows && s.nextWindow in u.windows && u.windows[s.nextWindow].made.NotByPhoenix?
    ensures u.windows == s.windows[s.nextWindow := u.windows[s.nextWindow]]
    ensures forall at :: at in u.links && at.session == name ==> u.links[at] == s.nextWindow
  {
    var title, cwd :| T.NewSession(s, name, title, cwd).Some?
                      && u == T.NewSession(s, name, title, cwd).value.server.(clients := u.clients);
    NewWindowIsWellFormed(s, T.Slot(name, s.baseIndex), u.windows[s.nextWindow], u);
  }

  /** The window a connection made is no saved window, and no other has changed. */
  lemma MadeAnswersSame(g: Generation, snapshot: Snapshot, s: Server, name: Text, u: Server, v: Id, id: Id)
    requires Ready(g, snapshot, s) && Makes(s, name, u) && Saved(snapshot, id)
    ensures Answers(g, snapshot, u, v, id) <==> Answers(g, snapshot, s, v, id)
    ensures !Answers(g, snapshot, u, s.nextWindow, id)
  {
    MadeIsNew(s, name, u);
    hide Makes, Unambiguous, T.WellFormed;
    var k :| 0 <= k < |snapshot.windows| && snapshot.windows[k].id == id;
  }

  lemma MadeIsReady(g: Generation, snapshot: Snapshot, s: Server, name: Text, u: Server)
    requires Ready(g, snapshot, s) && Makes(s, name, u) && !HoldsSession(snapshot.sessions, name)
    ensures Ready(g, snapshot, u) && OwnScratch(g, snapshot, u, name)
  {
    MadeIsNew(s, name, u);
    hide Makes, T.WellFormed, Answers, T.NewSession;
    forall v, id | Saved(snapshot, id)
      ensures Answers(g, snapshot, u, v, id) <==> Answers(g, snapshot, s, v, id)
      ensures !Answers(g, snapshot, u, s.nextWindow, id)
    {
      MadeAnswersSame(g, snapshot, s, name, u, v, id);
    }
  }

  lemma ReadyWhateverTheClients(g: Generation, snapshot: Snapshot, b: Server, t: Server)
    requires Ready(g, snapshot, b) && t == b.(clients := t.clients)
    ensures Ready(g, snapshot, t)
  {
    forall v, id ensures Answers(g, snapshot, t, v, id) <==> Answers(g, snapshot, b, v, id) {}
  }

  /** Whatever opening made, a restore can start on it, and a scratch it made is
      nobody's. */
  lemma OpenedIsReady(g: Generation, snapshot: Snapshot, onto: Onto, s: Server, u: Server)
    requires Coherent(snapshot) && Ready(g, snapshot, s) && Opens(snapshot, onto, s, u) && T.Captures(onto.live, u)
    ensures Launches(g, snapshot, onto, u)
  {
    hide Coherent, Ready, OwnScratch, T.Captures, Makes;
    if onto.OntoScratch? {
      MadeIsReady(g, snapshot, s, onto.scratch, u);
    } else {
      ReadyWhateverTheClients(g, snapshot, s, u);
    }
  }

  // ---- Attempt after attempt ----

  /** Some of the clients of `leaving` have been moved to `onto`, and not others. */
  ghost predicate PartlySwitched(s: Server, t: Server, leaving: Text, onto: Text) {
    && t == s.(clients := t.clients) && t.clients.Keys == s.clients.Keys
    && forall c :: c in s.clients ==> t.clients[c] == s.clients[c] || (s.clients[c] == leaving && t.clients[c] == onto)
  }

  /** `b` is what the first `k` steps leave, and `t` is `b` or, when the step after
      them switches clients one by one, `b` with only some of them switched. */
  ghost predicate StoppedAt(steps: seq<Step>, k: nat, b: Server, t: Server) {
    t == b || (k < |steps| && steps[k].SwitchClients? && PartlySwitched(b, t, steps[k].leaving, steps[k].onto))
  }

  /** A connection opened on `s` leads, through the first `k` steps of the plan
      for what it captured and perhaps into the next, to `t`. */
  ghost predicate Attempt(g: Generation, snapshot: Snapshot, s: Server, onto: Onto, u: Server, k: nat, b: Server, t: Server) {
    && Coherent(snapshot) && Opens(snapshot, onto, s, u) && T.Captures(onto.live, u)
    && Stopped(g, snapshot, onto, u, k, b) && StoppedAt(PlanOf(g, snapshot, onto).steps, k, b, t)
  }

  ghost predicate Restarted(g: Generation, snapshot: Snapshot, s: Server, t: Server) {
    exists onto, u, k, b :: Attempt(g, snapshot, s, onto, u, k, b, t)
  }

  /** Each server in `trace` was left by some attempt on the one before it. */
  ghost predicate Interrupted(g: Generation, snapshot: Snapshot, trace: seq<Server>) {
    && |trace| > 0
    && forall i :: 0 <= i < |trace| - 1 ==> Restarted(g, snapshot, trace[i], trace[i + 1])
  }

  /** An attempt on a server that was ready is a restore cut short, but for which
      clients are where. */
  lemma AttemptIsCutShort(g: Generation, snapshot: Snapshot, s: Server, t: Server)
    returns (onto: Onto, u: Server, k: nat, b: Server)
    requires Ready(g, snapshot, s) && Restarted(g, snapshot, s, t)
    ensures Opens(snapshot, onto, s, u) && CutShort(g, snapshot, onto, u, k, b) && t == b.(clients := t.clients)
  {
    hide Ready, Coherent, T.Captures, Stopped, Opens, Launches, PlanOf;
    onto, u, k, b :| Attempt(g, snapshot, s, onto, u, k, b, t);
    OpenedIsReady(g, snapshot, onto, s, u);
  }

  /** Stopped between one client and the next, a restore has detached no client
      and moved none but the scratch's. */
  lemma SwitchingLosesNoClient(g: Generation, snapshot: Snapshot, onto: Onto, s: Server, k: nat, b: Server, t: Server)
    requires CutShort(g, snapshot, onto, s, k, b) && StoppedAt(PlanOf(g, snapshot, onto).steps, k, b, t)
    ensures forall c :: c in s.clients ==> c in t.clients
    ensures forall c :: c in s.clients && Some(s.clients[c]) != onto.Scratch() ==> t.clients[c] == s.clients[c]
    ensures t == b.(clients := t.clients)
  {
    hide Launches, Coherent, PlanOf, Exec, Polite;
    NothingLiveIsLost(g, snapshot, onto, s, k, b);
    if t != b {
      StepsTakeOnlyTheirOwn(g, snapshot, onto, s, k);
      SwitchesTheScratch(WorldOf(g, snapshot, onto, s), Exec(Start(s), PlanOf(g, snapshot, onto).steps[..k]).m,
                         PlanOf(g, snapshot, onto).steps[k]);
    }
  }

  lemma SwitchesTheScratch(w: World, m: Machine, step: Step)
    requires step.SwitchClients? && Polite(w, m, step)
    ensures w.scratch == Some(step.leaving)
  {}

  /** Every server of the trace is one a restore can start on, when the first is. */
  lemma {:induction false} InterruptionsKeepReady(g: Generation, snapshot: Snapshot, trace: seq<Server>)
    requires Interrupted(g, snapshot, trace) && Ready(g, snapshot, trace[0])
    ensures forall i :: 0 <= i < |trace| ==> Ready(g, snapshot, trace[i])
  {
    hide Ready, CutShort, Restarted, Opens;
    var last := |trace| - 1;
    if last > 0 {
      InterruptionsKeepReady(g, snapshot, trace[..last]);
      assert trace[..last][last - 1] == trace[last - 1];
      var onto, u, k, b := AttemptIsCutShort(g, snapshot, trace[last - 1], trace[last]);
      CutShortIsReady(g, snapshot, onto, u, k, b);
      ReadyWhateverTheClients(g, snapshot, b, trace[last]);
    }
  }

  /** However many restores were cut short, wherever each stopped, one more run
      in full, over a connection to any session or to a scratch of its own, is
      never refused and finishes, and the plan after that has no steps at all. */
  lemma Converges(g: Generation, snapshot: Snapshot, trace: seq<Server>, onto: Onto, u: Server, t: Server, after: Snapshot)
    requires Coherent(snapshot) && Interrupted(g, snapshot, trace) && Ready(g, snapshot, trace[0])
    requires Opens(snapshot, onto, trace[|trace| - 1], u) && T.Captures(onto.live, u)
    requires var steps := PlanOf(g, snapshot, onto).steps;
             Exec(Start(u), steps).Ran? ==> t == Exec(Start(u), steps).m.server
    requires T.Captures(after, t)
    ensures Exec(Start(u), PlanOf(g, snapshot, onto).steps).Ran?
    ensures Finished(g, snapshot, t)
    ensures onto.OntoScratch? && AnyAddressable(snapshot, |snapshot.sessions|) ==> onto.scratch !in t.sessions
    ensures PlanOf(g, snapshot, OntoServer(after)).steps == []
  {
    InterruptionsKeepReady(g, snapshot, trace);
    OpenedIsReady(g, snapshot, onto, trace[|trace| - 1], u);
    hide Launches, Coherent, Ready, T.Captures, PlanOf, Exec, Interrupted, Finished, Opens;
    var steps := PlanOf(g, snapshot, onto).steps;
    NoStepIsRefused(g, snapshot, onto, u, |steps|);
    assert steps[..|steps|] == steps;
    RestoreFinishes(g, snapshot, onto, u, t);
    CutShortIsReady(g, snapshot, onto, u, |steps|, t);
    PlanIsEmptyWhenFinished(g, snapshot, after, t);
  }

  // ---- A stamp means whole, over all of it ----

  /** Every window stamped for `g` is the whole of the saved window it names, and
      no two name one. */
  ghost predicate AllStampsWhole(g: Generation, snapshot: Snapshot, s: Server) {
    && (forall v :: v in s.windows && StampedBy(g, s.windows[v]) ==>
          Saved(snapshot, s.windows[v].made.saved) && Whole(s.windows[v], WindowOf(snapshot, s.windows[v].made.saved)))
    && (forall u, v :: u in s.windows && v in s.windows && StampedBy(g, s.windows[u]) && s.windows[u].made == s.windows[v].made ==> u == v)
  }

  predicate StampedBy(g: Generation, win: Win) {
    win.made.ByPhoenix? && win.made.generation == g
  }

  /** A window that was there before is as it was. */
  lemma OldIsUnchanged(g: Generation, snapshot: Snapshot, onto: Onto, s: Server, k: nat, t: Server)
    requires CutShort(g, snapshot, onto, s, k, t)
    ensures forall v :: v in t.windows && v in s.windows ==> t.windows[v] == s.windows[v]
  {
    CutShortIsSafe(g, snapshot, onto, s, k, t);
    LaunchesIsOk(g, snapshot, onto, s);
    StartIsWellFormed(WorldOf(g, snapshot, onto, s));
    hide CutShort, WorldOk, NothingLost, StampsWhole;
  }

  lemma CutShortStampsWhole(g: Generation, snapshot: Snapshot, onto: Onto, s: Server, k: nat, t: Server)
    requires CutShort(g, snapshot, onto, s, k, t) && AllStampsWhole(g, snapshot, s)
    ensures AllStampsWhole(g, snapshot, t)
  {
    hide CutShort, Whole, Answers;
    OldIsUnchanged(g, snapshot, onto, s, k, t);
    forall v | v in t.windows && v !in s.windows && t.windows[v].made.ByPhoenix?
      ensures Saved(snapshot, t.windows[v].made.saved) && Whole(t.windows[v], WindowOf(snapshot, t.windows[v].made.saved))
      ensures forall u :: u in t.windows && t.windows[u].made == t.windows[v].made ==> u == v
    {
      StampMeansWhole(g, snapshot, onto, s, k, t, v);
    }
  }

  /** From a server no window of which carried the stamp, however many restores
      were cut short: every stamped window is whole, and each saved window has
      been built at most once. */
  lemma {:induction false} StampsStayWhole(g: Generation, snapshot: Snapshot, trace: seq<Server>)
    requires Interrupted(g, snapshot, trace) && Ready(g, snapshot, trace[0])
    requires forall v :: v in trace[0].windows ==> !StampedBy(g, trace[0].windows[v])
    ensures AllStampsWhole(g, snapshot, trace[|trace| - 1])
  {
    hide Ready, CutShort, Restarted, Opens, Makes, Whole;
    var last := |trace| - 1;
    if last > 0 {
      InterruptionsKeepReady(g, snapshot, trace);
      StampsStayWhole(g, snapshot, trace[..last]);
      var s, t := trace[last - 1], trace[last];
      var onto, u, k, b := AttemptIsCutShort(g, snapshot, s, t);
      OpenedStampsWhole(g, snapshot, onto, s, u);
      CutShortStampsWhole(g, snapshot, onto, u, k, b);
    }
  }

  lemma OpenedStampsWhole(g: Generation, snapshot: Snapshot, onto: Onto, s: Server, u: Server)
    requires Ready(g, snapshot, s) && Opens(snapshot, onto, s, u) && AllStampsWhole(g, snapshot, s)
    ensures AllStampsWhole(g, snapshot, u)
  {
    hide Whole, Makes, Unambiguous;
    if onto.OntoScratch? { MadeIsNew(s, onto.scratch, u); }
  }
}
