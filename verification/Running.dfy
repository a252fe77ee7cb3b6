/** phoenix-restore/src/apply.rs as it runs, on fields: the server, and what each
    reference is bound to. Each method is the function of Applying.dfy that bears its name. */
module Running {
  import opened Wrappers
  import opened Snapshots
  import opened Steps
  import A = Applying
  import S = Scoping
  import T = Tmux

  /** The position of the step that failed. All those before it took effect. */
  datatype ApplyError = ApplyError(step: nat)

  /** The clients `list-clients` reports on `session`. */
  function On(clients: map<Text, Text>, session: Text): set<Text> {
    set c | c in clients && clients[c] == session
  }

  /** The clients once all on `leaving` but `listed` have been moved. */
  function Moved(clients: map<Text, Text>, leaving: Text, onto: Text, listed: set<Text>): map<Text, Text> {
    map c | c in clients :: if clients[c] == leaving && c !in listed then onto else clients[c]
  }

  lemma SwitchedIs(s: T.Server, leaving: Text, onto: Text)
    ensures T.SwitchClients(s, leaving, onto)
            == if leaving in s.sessions && (onto in s.sessions || On(s.clients, leaving) == {})
               then Some(s.(clients := Moved(s.clients, leaving, onto, {}))) else None
  {
    var moved := map c | c in s.clients :: if s.clients[c] == leaving then onto else s.clients[c];
    assert moved == Moved(s.clients, leaving, onto, {});
    if c :| c in s.clients && s.clients[c] == leaving {
      assert c in On(s.clients, leaving);
    } else {
      assert On(s.clients, leaving) == {};
    }
  }

  lemma NoneMoved(clients: map<Text, Text>, leaving: Text, onto: Text)
    ensures Moved(clients, leaving, onto, On(clients, leaving)) == clients
  {}

  lemma OneMoved(clients: map<Text, Text>, leaving: Text, onto: Text, listed: set<Text>, client: Text)
    requires listed <= On(clients, leaving) && client in listed
    ensures Moved(clients, leaving, onto, listed)[client := onto] == Moved(clients, leaving, onto, listed - {client})
  {}

  class Applier {
    var server: T.Server
    var windows: map<WindowRef, Id>
    var panes: map<PaneRef, Id>

    function Machine(): A.Machine
      reads this
    {
      A.Machine(server, A.Bound(windows, panes))
    }

    constructor (server: T.Server)
      ensures Machine() == A.Start(server)
    {
      this.server := server;
      windows, panes := map[], map[];
    }

    /** Takes the server a command left, saying whether it was refused. */
    method Took(left: Option<T.Server>) returns (ok: bool)
      modifies this`server
      ensures ok == left.Some? && server == if left.Some? then left.value else old(server)
    {
      ok := left.Some?;
      if ok {
        server := left.value;
      }
    }

    /** Every client listed on `leaving`, one after another. */
    method SwitchAll(leaving: Text, onto: Text) returns (ok: bool)
      modifies this`server
      ensures ok == T.SwitchClients(old(server), leaving, onto).Some?
      ensures server == if ok then T.SwitchClients(old(server), leaving, onto).value else old(server)
    {
      hide T.SwitchClients;
      var listed := On(server.clients, leaving);
      ok := leaving in server.sessions && (onto in server.sessions || listed == {});
      SwitchedIs(server, leaving, onto);
      if ok {
        NoneMoved(server.clients, leaving, onto);
        while listed != {}
          invariant listed <= On(old(server).clients, leaving)
          invariant server == old(server).(clients := Moved(old(server).clients, leaving, onto, listed))
          decreases |listed|
        {
          var client :| client in listed;
          OneMoved(old(server).clients, leaving, onto, listed, client);
          server := server.(clients := server.clients[client := onto]);
          listed := listed - {client};
        }
      }
    }

    /** Binds what a creating command reports. */
    method Bind(made: Option<T.Created>, window: WindowRef, pane: PaneRef) returns (ok: bool)
      modifies this
      ensures ok == made.Some?
      ensures !ok ==> Machine() == old(Machine())
      ensures ok ==> A.Ran(Machine()) == A.Made(old(Machine()), made, window, pane)
    {
      ok := made.Some?;
      if ok {
        server := made.value.server;
        windows := windows[window := made.value.window];
        panes := panes[pane := made.value.pane];
      }
    }

    method Run(step: Step) returns (ok: bool)
      requires A.RunStep(Machine(), step) != A.Unbound
      modifies this
      ensures ok ==> A.RunStep(old(Machine()), step) == A.Ran(Machine())
      ensures !ok ==> A.RunStep(old(Machine()), step) == A.Refused && Machine() == old(Machine())
    {
      hide T.NewSession, T.NewWindow, T.MoveWindow, T.LinkWindow, T.SplitWindow, T.SelectLayout, T.TypeInto, T.SelectPane,
           T.SelectWindow, T.MarkServer, T.MarkSession, T.MarkWindow, T.SwitchClients, T.KillSession, RelaunchLine;
      match step
      case CreateSession(name, windowName, cwd, window, pane) =>
        ok := Bind(T.NewSession(server, name, windowName, cwd), window, pane);
      case MoveWindow(window, session, to) =>
        ok := Took(T.MoveWindow(server, windows[window], session, to));
      case NewWindow(session, index, title, cwd, window, pane) =>
        ok := Bind(T.NewWindow(server, session, index, title, cwd), window, pane);
      case LinkWindow(source, into, index, replacing) =>
        var id := match source case Built(ref) => windows[ref] case Live(id) => id;
        ok := Took(T.LinkWindow(server, id, into, index, replacing.Some?));
      case SplitPane(from, cwd, pane) =>
        var split := T.SplitWindow(server, panes[from], cwd);
        ok := split.Some?;
        if ok {
          server := split.value.0;
          panes := panes[pane := split.value.1];
        }
      case SelectLayout(window, layout) => ok := Took(T.SelectLayout(server, windows[window], layout));
      case ReplayContent(pane, lines) => ok := Took(T.TypeInto(server, panes[pane], T.Replayed(lines)));
      case Relaunch(pane, argv) => ok := Took(T.TypeInto(server, panes[pane], T.Line(RelaunchLine(argv))));
      case SelectPane(pane) => ok := Took(T.SelectPane(server, panes[pane]));
      case SelectWindow(session, index) => ok := Took(T.SelectWindow(server, session, index));
      case SetOption(ServerMark(g)) => ok := Took(T.MarkServer(server, g));
      case SetOption(SessionMark(session, g)) => ok := Took(T.MarkSession(server, session, g));
      case SetOption(WindowMark(window, g, saved)) => ok := Took(T.MarkWindow(server, windows[window], g, saved));
      case SwitchClients(leaving, onto) => ok := SwitchAll(leaving, onto);
      case KillSession(name) => ok := Took(T.KillSession(server, name));
    }

    /** Runs every step in order, stopping at the first tmux refuses. Only
        `plan` builds a plan, so every reference is bound before it is used. */
    method Apply(steps: seq<Step>) returns (failed: Option<ApplyError>)
      requires S.WellScoped(steps) && Machine() == A.Start(server)
      modifies this
      ensures failed.None? ==> A.Exec(A.Start(old(server)), steps) == A.Ran(Machine())
      ensures failed.Some? ==>
                && failed.value.step < |steps|
                && A.Exec(A.Start(old(server)), steps[..failed.value.step]) == A.Ran(Machine())
                && A.RunStep(Machine(), steps[failed.value.step]) == A.Refused
                && A.Exec(A.Start(old(server)), steps) == A.Refused
    {
      hide A.RunStep, S.WellScoped;
      for at := 0 to |steps|
        invariant A.Exec(A.Start(old(server)), steps[..at]) == A.Ran(Machine())
      {
        assert steps[..at + 1][..at] == steps[..at];
        S.PrefixScoped(steps, at + 1);
        S.ScopedNeverUnbound(old(server), steps[..at + 1]);
        var ok := Run(steps[at]);
        if !ok {
          RefusedStops(A.Start(old(server)), steps, at + 1);
          return Some(ApplyError(at));
        }
      }
      assert steps[..|steps|] == steps;
      return None;
    }
  }

  /** A refusal is the end of it. */
  lemma {:induction false} RefusedStops(m: A.Machine, steps: seq<Step>, k: nat)
    requires k <= |steps| && A.Exec(m, steps[..k]) == A.Refused
    ensures A.Exec(m, steps) == A.Refused
  {
    if k < |steps| {
      assert steps[..|steps| - 1][..k] == steps[..k];
      RefusedStops(m, steps[..|steps| - 1], k);
    } else {
      assert steps[..k] == steps;
    }
  }
}
