/** phoenix-restore/src/apply.rs as values: what each step does to the server,
    and to the ids bound so far. */
module Applying {
  import opened Wrappers
  import opened Snapshots
  import opened Steps
  import Tmux

  /** Which window and which pane each reference stands for by now. */
  datatype Bound = Bound(windows: map<WindowRef, Id>, panes: map<PaneRef, Id>)

  datatype Machine = Machine(server: Tmux.Server, bound: Bound)

  /** `Unbound` is the panic of looking up a reference no step has defined. */
  datatype Outcome = Ran(m: Machine) | Refused | Unbound

  function Made(m: Machine, made: Option<Tmux.Created>, window: WindowRef, pane: PaneRef): Outcome {
    match made
    case None => Refused
    case Some(c) => Ran(Machine(c.server, Bound(m.bound.windows[window := c.window], m.bound.panes[pane := c.pane])))
  }

  function Left(m: Machine, server: Option<Tmux.Server>): Outcome {
    match server case None => Refused case Some(s) => Ran(m.(server := s))
  }

  function RunStep(m: Machine, step: Step): Outcome {
    var s := m.server;
    match step
    case CreateSession(name, windowName, cwd, window, pane) =>
      Made(m, Tmux.NewSession(s, name, windowName, cwd), window, pane)
    case MoveWindow(window, session, to) =>
      if window !in m.bound.windows then Unbound else Left(m, Tmux.MoveWindow(s, m.bound.windows[window], session, to))
    case NewWindow(session, index, title, cwd, window, pane) =>
      Made(m, Tmux.NewWindow(s, session, index, title, cwd), window, pane)
    case LinkWindow(source, into, index, replacing) =>
      (match source
       case Built(w) =>
         if w !in m.bound.windows then Unbound
         else Left(m, Tmux.LinkWindow(s, m.bound.windows[w], into, index, replacing.Some?))
       case Live(id) => Left(m, Tmux.LinkWindow(s, id, into, index, replacing.Some?)))
    case SplitPane(from, cwd, pane) =>
      if from !in m.bound.panes then Unbound
      else (match Tmux.SplitWindow(s, m.bound.panes[from], cwd)
            case None => Refused
            case Some((after, made)) => Ran(Machine(after, m.bound.(panes := m.bound.panes[pane := made]))))
    case SelectLayout(window, layout) =>
      if window !in m.bound.windows then Unbound else Left(m, Tmux.SelectLayout(s, m.bound.windows[window], layout))
    case ReplayContent(pane, lines) =>
      if pane !in m.bound.panes then Unbound else Left(m, Tmux.TypeInto(s, m.bound.panes[pane], Tmux.Replayed(lines)))
    case Relaunch(pane, argv) =>
      if pane !in m.bound.panes then Unbound
      else Left(m, Tmux.TypeInto(s, m.bound.panes[pane], Tmux.Line(RelaunchLine(argv))))
    case SelectPane(pane) =>
      if pane !in m.bound.panes then Unbound else Left(m, Tmux.SelectPane(s, m.bound.panes[pane]))
    case SelectWindow(session, index) => Left(m, Tmux.SelectWindow(s, session, index))
    case SetOption(ServerMark(g)) => Left(m, Tmux.MarkServer(s, g))
    case SetOption(SessionMark(session, g)) => Left(m, Tmux.MarkSession(s, session, g))
    case SetOption(WindowMark(window, g, saved)) =>
      if window !in m.bound.windows then Unbound else Left(m, Tmux.MarkWindow(s, m.bound.windows[window], g, saved))
    case SwitchClients(leaving, onto) => Left(m, Tmux.SwitchClients(s, leaving, onto))
    case KillSession(name) => Left(m, Tmux.KillSession(s, name))
  }

  /** The steps one after another, for as long as none fails. */
  function Exec(m: Machine, steps: seq<Step>): Outcome {
    if |steps| == 0 then Ran(m)
    else
      match Exec(m, steps[..|steps| - 1])
      case Ran(before) => RunStep(before, steps[|steps| - 1])
      case Refused => Refused
      case Unbound => Unbound
  }

  function Start(s: Tmux.Server): Machine {
    Machine(s, Bound(map[], map[]))
  }
}
