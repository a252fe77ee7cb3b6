/** phoenix-restore/src/step.rs: the plan's vocabulary, and the one line a
    relaunch types. Windows and panes a plan makes are named by reference. */
module Steps {
  import opened Wrappers
  import opened Snapshots

  type WindowRef = nat
  type PaneRef = nat

  datatype LinkSource = Built(ref: WindowRef) | Live(id: Id)

  /** What a `SetOption` writes, and where. */
  datatype Setting =
    | ServerMark(generation: Generation)
    | SessionMark(session: Text, generation: Generation)
    | WindowMark(ref: WindowRef, generation: Generation, saved: Id)

  datatype Step =
    | CreateSession(name: Text, windowName: Option<Text>, cwd: Option<Text>, window: WindowRef, pane: PaneRef)
    | MoveWindow(window: WindowRef, session: Text, to: Index)
    | NewWindow(session: Text, index: Index, title: Text, cwd: Option<Text>, window: WindowRef, pane: PaneRef)
    | LinkWindow(source: LinkSource, into: Text, index: Index, replacing: Option<WindowRef>)
    | SplitPane(from: PaneRef, cwd: Option<Text>, pane: PaneRef)
    | SelectLayout(window: WindowRef, layout: Text)
    | ReplayContent(pane: PaneRef, lines: seq<Text>)
    | Relaunch(pane: PaneRef, argv: seq<Text>)
    | SelectPane(pane: PaneRef)
    | SelectWindow(session: Text, index: Index)
    | SetOption(setting: Setting)
    | SwitchClients(leaving: Text, onto: Text)
    | KillSession(name: Text)

  const QUOTE: Byte := 39
  const BACKSLASH: Byte := 92
  const SPACE: Byte := 32

  /** `s` with each quote closed over, escaped and reopened. */
  function QuoteInner(s: Text): Text {
    if |s| == 0 then []
    else (if s[0] == QUOTE then [QUOTE, BACKSLASH, QUOTE, QUOTE] else [s[0]]) + QuoteInner(s[1..])
  }

  function ShellQuote(s: Text): Text {
    [QUOTE] + QuoteInner(s) + [QUOTE]
  }

  function RelaunchLine(argv: seq<Text>): Text {
    if |argv| == 0 then []
    else if |argv| == 1 then ShellQuote(argv[0])
    else ShellQuote(argv[0]) + [SPACE] + RelaunchLine(argv[1..])
  }
}
