/** tmux-control/src/client/connection.rs: what a call, an abort and a close do to a
    connection over a whole run, told by the steps that were taken. */
module Disposing {
  import opened Framing
  import opened Blocks
  import opened Connections

  /** The commands the steps wrote before any of them closed the input. */
  function Written(steps: seq<Step>): nat {
    if |steps| == 0 || steps[0].Close? then 0
    else (if steps[0] == Write(true) then 1 else 0) + Written(steps[1..])
  }

  lemma WriteStep(notify: Notify, c: Connection, step: Step)
    requires (c.caller.Checked? ==> c.open_) && Enabled(c, step)
    ensures var next := Next(notify, c, step);
            && next.open_ == (c.open_ && !step.Close?)
            && next.written == c.written + if c.open_ && step == Write(true) then 1 else 0
  {
    hide Drained, Unexpected, Fed, RouteAll;
  }

  lemma OpenWhenChecked(c: Connection)
    requires CallerOk(c) && c.caller.Checked?
    ensures c.open_
  {
  }

  lemma {:induction false} WritesFrom(notify: Notify, c: Connection, steps: seq<Step>)
    requires Inv(c) && Runs(notify, c, steps)
    ensures After(notify, c, steps).written == c.written + if c.open_ then Written(steps) else 0
    decreases |steps|
  {
    hide ReaderOk, CallerOk, Next, Enabled;
    if |steps| > 0 {
      if c.caller.Checked? { OpenWhenChecked(c); }
      ReaderKeeps(notify, c, steps[0]);
      CallerKeeps(notify, c, steps[0]);
      WriteStep(notify, c, steps[0]);
      WritesFrom(notify, Next(notify, c, steps[0]), steps[1..]);
    }
  }

  /** A command is written by each write tmux took before the input was closed, and
      none after. */
  lemma WritesExactly(notify: Notify, link: Link, steps: seq<Step>)
    requires Runs(notify, Start(link), steps)
    ensures After(notify, Start(link), steps).written == Written(steps)
  {
    hide Runs, After, ReaderOk, CallerOk;
    StartIsOk(link);
    WritesFrom(notify, Start(link), steps);
  }

  /** One of the steps asked the link to end. */
  predicate Asked(steps: seq<Step>) {
    Abort in steps || Close in steps
  }

  lemma EndStep(notify: Notify, c: Connection, step: Step)
    requires Enabled(c, step) && (c.open_ || c.disposed)
    ensures var next := Next(notify, c, step);
            && (next.open_ || next.disposed)
            && next.disposed == (c.disposed || step.Abort? || step.Close?)
            && (!c.reader.Reading? ==> !next.reader.Reading? && next.reader.end == c.reader.end)
            && (c.reader.Reading? ==> next.reader.Reading? == !step.ReadEnds?)
            && (step.ReadEnds? ==> next.reader.end == if c.disposed then Disposed else step.end)
  {
    hide Drained, Unexpected, Fed, RouteAll;
  }

  lemma {:induction false} EndKept(notify: Notify, c: Connection, steps: seq<Step>)
    requires Runs(notify, c, steps) && !c.reader.Reading? && (c.open_ || c.disposed)
    ensures !After(notify, c, steps).reader.Reading? && After(notify, c, steps).reader.end == c.reader.end
    decreases |steps|
  {
    hide Next, Enabled;
    if |steps| > 0 {
      EndStep(notify, c, steps[0]);
      EndKept(notify, Next(notify, c, steps[0]), steps[1..]);
    }
  }

  /** How the read is said to have ended: at the first step that ended it, which nothing
      later changes, and as asked for if an abort or a close came before. */
  lemma {:induction false} EndsFrom(notify: Notify, c: Connection, steps: seq<Step>, k: nat)
    requires Runs(notify, c, steps) && c.reader.Reading? && (c.open_ || c.disposed)
    requires k < |steps| && steps[k].ReadEnds? && forall j :: 0 <= j < k ==> !steps[j].ReadEnds?
    ensures var end := After(notify, c, steps).reader;
            && !end.Reading?
            && end.end == if c.disposed || Asked(steps[..k]) then Disposed else steps[k].end
    decreases |steps|
  {
    hide Next, Enabled;
    var next := Next(notify, c, steps[0]);
    EndStep(notify, c, steps[0]);
    if k == 0 {
      EndKept(notify, next, steps[1..]);
    } else {
      assert steps[..k] == [steps[0]] + steps[1..][..k - 1];
      EndsFrom(notify, next, steps[1..], k - 1);
    }
  }

  lemma EndsExactly(notify: Notify, link: Link, steps: seq<Step>, k: nat)
    requires Runs(notify, Start(link), steps)
    requires k < |steps| && steps[k].ReadEnds? && forall j :: 0 <= j < k ==> !steps[j].ReadEnds?
    ensures var end := After(notify, Start(link), steps).reader;
            && !end.Reading?
            && end.end == if Abort in steps[..k] || Close in steps[..k] then Disposed else steps[k].end
  {
    hide Runs, After;
    EndsFrom(notify, Start(link), steps, k);
  }

  /** A call finds the way clear exactly when nothing waits for it: then the command may
      be written, whatever the reader is doing; and otherwise nothing is written and the
      connection closes. */
  lemma CallsExactly(notify: Notify, link: Link, steps: seq<Step>)
    requires Runs(notify, Start(link), steps)
    requires var c := After(notify, Start(link), steps); c.state == Ready && c.caller.Free?
    ensures var c := After(notify, Start(link), steps);
            var next := Next(notify, c, Call);
            && next.caller.Checked? == (c.channel == [])
            && next.state.Closed? == (c.channel != [])
            && (c.channel == [] ==> c.reader.Reading?)
  {
    hide Runs, After, ReaderOk;
    StartIsOk(link);
    RunKeeps(notify, Start(link), steps);
    if !After(notify, Start(link), steps).reader.Reading? {
      NeverVanished(notify, link, steps);
    }
  }
}
