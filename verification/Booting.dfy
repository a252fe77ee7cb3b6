/** phoenix-daemon/src/boot.rs and daemon.rs: what the daemon decides about a
    server when it connects, what its run does to that decision, and what it
    carries from one connection to the next. */
module Booting {
  import opened Wrappers
  import opened Snapshots

  // ---- What a server holds ----

  /** A session with a single pane, in which nothing but a shell runs. */
  predicate IsBootstrap(live: Snapshot, s: Session) {
    && |s.windows| == 1
    && var at := Find(live.windows, (w: Window) => w.id == s.windows[0].window);
       && at.Some? && |live.windows[at.value].panes| == 1
       && live.windows[at.value].panes[0].foreground.Shell?
  }

  predicate IsBootstrapOnly(live: Snapshot) {
    forall i :: 0 <= i < |live.sessions| ==> IsBootstrap(live, live.sessions[i])
  }

  /** A server counts as holding bootstrap sessions only when each has one link, to a
      window of one pane, that a shell sits in. */
  lemma BootstrapOnlyExactly(live: Snapshot)
    requires DistinctIds(live.windows)
    ensures IsBootstrapOnly(live) <==>
              forall i :: 0 <= i < |live.sessions| ==>
                && |live.sessions[i].windows| == 1
                && exists k :: && 0 <= k < |live.windows| && live.windows[k].id == live.sessions[i].windows[0].window
                               && |live.windows[k].panes| == 1 && live.windows[k].panes[0].foreground == Shell
  {
    forall i | 0 <= i < |live.sessions|
      ensures IsBootstrap(live, live.sessions[i]) <==>
                && |live.sessions[i].windows| == 1
                && exists k :: && 0 <= k < |live.windows| && live.windows[k].id == live.sessions[i].windows[0].window
                               && |live.windows[k].panes| == 1 && live.windows[k].panes[0].foreground == Shell
    {
      BootstrapExactly(live, live.sessions[i]);
    }
  }

  lemma BootstrapExactly(live: Snapshot, s: Session)
    requires DistinctIds(live.windows)
    ensures IsBootstrap(live, s) <==>
              && |s.windows| == 1
              && exists k :: && 0 <= k < |live.windows| && live.windows[k].id == s.windows[0].window
                             && |live.windows[k].panes| == 1 && live.windows[k].panes[0].foreground == Shell
  {
    if |s.windows| == 1 {
      var at := Find(live.windows, (w: Window) => w.id == s.windows[0].window);
      if at.Some? {
        assert live.windows[at.value].id == s.windows[0].window;
      }
    }
  }

  /** The names of the sessions the user built, in order. */
  function BuiltNames(live: Snapshot, sessions: seq<Session>): (names: seq<Text>) {
    if |sessions| == 0 then [] else
    (if IsBootstrap(live, sessions[0]) then [] else [sessions[0].name]) + BuiltNames(live, sessions[1..])
  }

  datatype ServerState = BootstrapOnly(names: seq<Text>) | Built(names: seq<Text>)

  function StateOf(live: Snapshot): ServerState {
    var built := BuiltNames(live, live.sessions);
    if built != [] then Built(built) else BootstrapOnly(SessionNames(live.sessions))
  }

  ghost predicate IsBuilt(live: Snapshot, sessions: seq<Session>, name: Text) {
    exists i :: 0 <= i < |sessions| && sessions[i].name == name && !IsBootstrap(live, sessions[i])
  }

  lemma {:induction false} BuiltNamesAre(live: Snapshot, sessions: seq<Session>)
    ensures forall name :: name in BuiltNames(live, sessions) <==> IsBuilt(live, sessions, name)
  {
    hide IsBootstrap;
    if |sessions| > 0 {
      BuiltNamesAre(live, sessions[1..]);
      forall name ensures name in BuiltNames(live, sessions) <==> IsBuilt(live, sessions, name) {
        if i :| 0 <= i < |sessions| && sessions[i].name == name && !IsBootstrap(live, sessions[i]) {
          assert i > 0 ==> sessions[1..][i - 1] == sessions[i];
        }
        if i :| 0 <= i < |sessions[1..]| && sessions[1..][i].name == name && !IsBootstrap(live, sessions[1..][i]) {
          assert sessions[i + 1] == sessions[1..][i];
        }
      }
    }
  }

  /** A server counts as built exactly when some session is not a bootstrap one,
      and then it names exactly those. */
  lemma StateOfIs(live: Snapshot)
    ensures StateOf(live).Built? <==> !IsBootstrapOnly(live)
    ensures StateOf(live).Built? ==>
              forall name :: name in StateOf(live).names <==> IsBuilt(live, live.sessions, name)
    ensures StateOf(live).BootstrapOnly? ==>
              && |StateOf(live).names| == |live.sessions|
              && forall i :: 0 <= i < |live.sessions| ==> StateOf(live).names[i] == live.sessions[i].name
  {
    hide IsBootstrap;
    BuiltNamesAre(live, live.sessions);
    var built := BuiltNames(live, live.sessions);
    if built != [] {
      assert built[0] in built;
    }
    if !IsBootstrapOnly(live) {
      var i :| 0 <= i < |live.sessions| && !IsBootstrap(live, live.sessions[i]);
      assert live.sessions[i].name in built;
    }
  }

  // ---- A run, and the decision it advances ----

  datatype Boot = Settled | Declined(built: seq<Text>)

  function Named(sessions: seq<Session>, name: Text): bool {
    Find(sessions, (s: Session) => s.name == name).Some?
  }

  /** All the sessions that made boot decline are in `refused`, which no store takes. */
  predicate Misread(boot: Boot, refused: Snapshot) {
    boot.Declined? && forall i :: 0 <= i < |boot.built| ==> Named(refused.sessions, boot.built[i])
  }

  /** One poll: the link found dead, nothing due, a capture that failed, or one
      taken, and whether the store would save it. */
  datatype Cycle = Dead | Quiet | CaptureFailed | Captured(live: Snapshot, saves: bool)

  datatype Ending = Finished | Misreading | Lost

  function Polled(boot: Boot, cycle: Cycle): (r: (Boot, Option<Ending>)) {
    match cycle
    case Dead => (boot, Some(Lost))
    case Quiet => (boot, None)
    case CaptureFailed => (boot, None)
    case Captured(live, saves) =>
      if IsBootstrapOnly(live) then
        if Misread(boot, live) then (boot, Some(Misreading)) else (Settled, None)
      else if saves then (Settled, None)
      else (boot, None)
  }

  function RunOf(boot: Boot, cycles: seq<Cycle>): (r: (Boot, Ending))
    decreases |cycles|
  {
    if |cycles| == 0 then (boot, Finished) else
    var (next, ending) := Polled(boot, cycles[0]);
    if ending.Some? then (next, ending.value) else RunOf(next, cycles[1..])
  }

  /** The run's loop, advancing the boot decision in place. */
  method Run(boot: Boot, cycles: seq<Cycle>) returns (now: Boot, ending: Ending)
    ensures (now, ending) == RunOf(boot, cycles)
  {
    hide IsBootstrapOnly, Misread;
    now := boot;
    assert cycles[0..] == cycles;
    for i := 0 to |cycles|
      invariant RunOf(boot, cycles) == RunOf(now, cycles[i..])
    {
      assert cycles[i..][1..] == cycles[i + 1..];
      match cycles[i] {
        case Dead => return now, Lost;
        case Quiet =>
        case CaptureFailed =>
        case Captured(live, saves) =>
          if IsBootstrapOnly(live) {
            if Misread(now, live) {
              return now, Misreading;
            }
            now := Settled;
          } else if saves {
            now := Settled;
          }
      }
    }
    return now, Finished;
  }

  /** Settled is final. */
  lemma {:induction false} SettledStays(cycles: seq<Cycle>)
    ensures RunOf(Settled, cycles).0 == Settled && RunOf(Settled, cycles).1 != Misreading
    decreases |cycles|
  {
    hide IsBootstrapOnly;
    if |cycles| > 0 && Polled(Settled, cycles[0]).1.None? {
      SettledStays(cycles[1..]);
    }
  }

  /** A poll after which a declined boot is no longer open: the link found dead, or
      a capture refused as bootstrap-only or saved. */
  predicate Decides(cycle: Cycle) {
    cycle.Dead? || (cycle.Captured? && (IsBootstrapOnly(cycle.live) || cycle.saves))
  }

  /** The nth poll is the first to decide anything. */
  predicate DecidesFirst(cycles: seq<Cycle>, n: nat) {
    n < |cycles| && Decides(cycles[n]) && forall k :: 0 <= k < n ==> !Decides(cycles[k])
  }

  ghost predicate DiesBy(cycles: seq<Cycle>, from: nat) {
    exists k :: from <= k < |cycles| && cycles[k].Dead?
  }

  /** A settled run stays settled, and is lost exactly when the link is found dead. */
  lemma {:induction false} SettledExactly(cycles: seq<Cycle>)
    ensures RunOf(Settled, cycles) == (Settled, if DiesBy(cycles, 0) then Lost else Finished)
    decreases |cycles|
  {
    hide IsBootstrapOnly;
    if |cycles| > 0 {
      SettledExactly(cycles[1..]);
      DiesLater(cycles, 0);
    }
  }

  lemma DiesLater(cycles: seq<Cycle>, n: nat)
    requires n < |cycles|
    ensures DiesBy(cycles, n) <==> cycles[n].Dead? || DiesBy(cycles, n + 1)
    ensures DiesBy(cycles[n + 1..], 0) <==> DiesBy(cycles, n + 1)
  {
    var rest := cycles[n + 1..];
    if k :| 0 <= k < |rest| && rest[k].Dead? {
      assert cycles[n + 1 + k].Dead?;
    }
    if k :| n + 1 <= k < |cycles| && cycles[k].Dead? {
      assert rest[k - (n + 1)].Dead?;
    }
  }

  /** How a run that boot declined comes out, by the first poll that decides it. With
      none, it is still declined. A dead link leaves it so. A refusal is a misreading
      when every session boot named is in what was refused, and keeps the decision for
      boot to make again. Any other refusal, and any save, settles it. */
  lemma {:induction false} DeclinedExactly(built: seq<Text>, cycles: seq<Cycle>)
    ensures (forall k :: 0 <= k < |cycles| ==> !Decides(cycles[k])) ==>
              RunOf(Declined(built), cycles) == (Declined(built), Finished)
    ensures forall n: nat :: DecidesFirst(cycles, n) ==>
              RunOf(Declined(built), cycles)
              == if cycles[n].Dead? then (Declined(built), Lost)
                 else if IsBootstrapOnly(cycles[n].live)
                         && forall i :: 0 <= i < |built| ==> HoldsSession(cycles[n].live.sessions, built[i])
                 then (Declined(built), Misreading)
                 else (Settled, if DiesBy(cycles, n + 1) then Lost else Finished)
    decreases |cycles|
  {
    hide IsBootstrapOnly;
    if |cycles| > 0 {
      assert cycles[0..] == cycles;
      if Decides(cycles[0]) {
        DecidesNow(built, cycles);
      } else {
        DeclinedExactly(built, cycles[1..]);
        forall n: nat | DecidesFirst(cycles, n)
          ensures 0 < n && DecidesFirst(cycles[1..], n - 1) && (DiesBy(cycles, n + 1) <==> DiesBy(cycles[1..], n))
        {
          DiesShift(cycles, n);
        }
      }
    }
  }

  lemma DiesShift(cycles: seq<Cycle>, n: nat)
    requires |cycles| > 0
    ensures DiesBy(cycles, n + 1) <==> DiesBy(cycles[1..], n)
  {
    var rest := cycles[1..];
    if k :| n <= k < |rest| && rest[k].Dead? { assert cycles[k + 1].Dead?; }
    if k :| n + 1 <= k < |cycles| && cycles[k].Dead? { assert rest[k - 1].Dead?; }
  }

  lemma NamedIs(sessions: seq<Session>, name: Text)
    ensures Named(sessions, name) <==> HoldsSession(sessions, name)
  {}

  /** The first poll decides. */
  lemma DecidesNow(built: seq<Text>, cycles: seq<Cycle>)
    requires |cycles| > 0 && Decides(cycles[0])
    ensures RunOf(Declined(built), cycles)
            == if cycles[0].Dead? then (Declined(built), Lost)
               else if IsBootstrapOnly(cycles[0].live)
                       && forall i :: 0 <= i < |built| ==> HoldsSession(cycles[0].live.sessions, built[i])
               then (Declined(built), Misreading)
               else (Settled, if DiesBy(cycles, 1) then Lost else Finished)
    ensures forall n: nat :: DecidesFirst(cycles, n) ==> n == 0
  {
    hide IsBootstrapOnly, Named;
    SettledExactly(cycles[1..]);
    DiesLater(cycles, 0);
    if cycles[0].Captured? {
      forall i | 0 <= i < |built| ensures Named(cycles[0].live.sessions, built[i]) <==> HoldsSession(cycles[0].live.sessions, built[i]) {
        NamedIs(cycles[0].live.sessions, built[i]);
      }
    }
  }

  lemma SomeDecidesFirst(cycles: seq<Cycle>, k: nat) returns (n: nat)
    requires k < |cycles| && Decides(cycles[k])
    ensures n <= k && DecidesFirst(cycles, n)
  {
    hide Decides;
    n := 0;
    while !Decides(cycles[n])
      invariant n <= k && forall i :: 0 <= i < n ==> !Decides(cycles[i])
      decreases k - n
    {
      n := n + 1;
    }
  }

  /** One save is enough. If some poll captured a server with something built on it
      and saved it, with no dead link and no refusal before, the run ends settled. */
  lemma ASaveSettles(boot: Boot, cycles: seq<Cycle>, n: nat)
    requires n < |cycles| && cycles[n].Captured? && cycles[n].saves && !IsBootstrapOnly(cycles[n].live)
    requires forall k :: 0 <= k < n ==>
               !cycles[k].Dead?
               && !(boot.Declined? && cycles[k].Captured? && IsBootstrapOnly(cycles[k].live)
                    && forall i :: 0 <= i < |boot.built| ==> HoldsSession(cycles[k].live.sessions, boot.built[i]))
    ensures RunOf(boot, cycles).0 == Settled && RunOf(boot, cycles).1 != Misreading
  {
    hide IsBootstrapOnly;
    match boot
    case Settled => SettledExactly(cycles);
    case Declined(built) =>
      var first := SomeDecidesFirst(cycles, n);
      DeclinedExactly(built, cycles);
      assert DecidesFirst(cycles, first);
  }

  /** Nothing before the nth poll decided anything, and the nth is refused as
      bootstrap-only and still holds every session boot had named. */
  ghost predicate ShowsMisread(boot: Boot, cycles: seq<Cycle>, n: nat)
    requires n < |cycles|
  {
    && boot.Declined?
    && (forall k :: 0 <= k < n ==>
          !cycles[k].Dead? && (cycles[k].Captured? ==> !cycles[k].saves && !IsBootstrapOnly(cycles[k].live)))
    && cycles[n].Captured? && IsBootstrapOnly(cycles[n].live)
    && forall i :: 0 <= i < |boot.built| ==> HoldsSession(cycles[n].live.sessions, boot.built[i])
  }

  /** A misreading is reported exactly when boot had declined and, with nothing
      yet settled and the link still up, some capture was refused for holding
      bootstrap sessions alone while every session boot had named was in it. */
  lemma MisreadExactly(boot: Boot, cycles: seq<Cycle>)
    ensures RunOf(boot, cycles).1 == Misreading <==>
              exists n :: 0 <= n < |cycles| && ShowsMisread(boot, cycles, n)
  {
    hide IsBootstrapOnly, HoldsSession;
    match boot
    case Settled => SettledExactly(cycles);
    case Declined(built) =>
      DeclinedExactly(built, cycles);
      if exists k :: 0 <= k < |cycles| && Decides(cycles[k]) {
        var k: nat :| k < |cycles| && Decides(cycles[k]);
        var n := SomeDecidesFirst(cycles, k);
        OnlyTheFirst(boot, cycles, n);
      } else {
        forall n | 0 <= n < |cycles| ensures !ShowsMisread(boot, cycles, n) { assert !Decides(cycles[n]); }
      }
  }

  lemma OnlyTheFirst(boot: Boot, cycles: seq<Cycle>, n: nat)
    requires boot.Declined? && DecidesFirst(cycles, n)
    ensures (exists m :: 0 <= m < |cycles| && ShowsMisread(boot, cycles, m)) <==> ShowsMisread(boot, cycles, n)
  {
    hide IsBootstrapOnly, HoldsSession;
    if m :| 0 <= m < |cycles| && ShowsMisread(boot, cycles, m) {
      assert Decides(cycles[m]) && forall k :: 0 <= k < m ==> !Decides(cycles[k]);
      assert m == n;
    }
    assert forall k :: 0 <= k < n ==> !Decides(cycles[k]);
  }

  // ---- Connecting ----

  datatype Decided = Decided(server: Origin, boot: Boot)

  datatype Survey = Failed | NoSession | Holds(server: Origin, live: Snapshot)
  datatype Latest = Found | NothingSaved | Unreadable

  /** What one turn of the daemon's outer loop meets: what the server holds, what
      is saved, which server a restore ran on if one did and it succeeded, whether
      a client attached and was set up, and the polls of its run. */
  datatype Turn = Turn(survey: Survey, latest: Latest, restored: Option<Origin>, attaches: bool, setsUp: bool,
                       cycles: seq<Cycle>)

  /** What connecting decides, before any restore: keep the last decision, stay
      out, restore, or neither. */
  datatype Choice = Keep(last: Decided) | StayOut(decided: Decided) | Restore | Wait | Refuse

  function Chosen(t: Turn, last: Option<Decided>): Choice {
    if t.survey.Failed? then Refuse
    else if t.survey.Holds? && last.Some? && last.value.server == t.survey.server then Keep(last.value)
    else if t.survey.Holds? && StateOf(t.survey.live).Built? then
      StayOut(Decided(t.survey.server, Declined(StateOf(t.survey.live).names)))
    else match t.latest
         case Found => Restore
         case Unreadable => Refuse
         case NothingSaved =>
           if t.survey.NoSession? then Wait else StayOut(Decided(t.survey.server, Settled))
  }

  /** The decision a run goes on under, if a client attached at all. */
  function Booted(t: Turn, last: Option<Decided>): Option<Decided> {
    if !t.attaches then None else
    match Chosen(t, last)
    case Keep(decided) => Some(decided)
    case StayOut(decided) => Some(decided)
    case Restore => if t.restored.Some? then Some(Decided(t.restored.value, Settled)) else None
    case Wait => None
    case Refuse => None
  }

  /** What is carried to the next turn. */
  function Carried(t: Turn, last: Option<Decided>): Option<Decided> {
    match Booted(t, last)
    case None => last
    case Some(decided) =>
      if !t.setsUp then Some(decided) else
      var (boot, ending) := RunOf(decided.boot, t.cycles);
      if ending.Misreading? then None else Some(Decided(decided.server, boot))
  }

  function CarriedAll(turns: seq<Turn>, last: Option<Decided>): Option<Decided>
    decreases |turns|
  {
    if |turns| == 0 then last else Carried(turns[|turns| - 1], CarriedAll(turns[..|turns| - 1], last))
  }

  /** The outer loop: connect and boot, run, and keep what the run made of it. */
  method RunResilient(turns: seq<Turn>) returns (last: Option<Decided>)
    ensures last == CarriedAll(turns, None)
  {
    hide RunOf, Chosen;
    last := None;
    for i := 0 to |turns|
      invariant last == CarriedAll(turns[..i], None)
    {
      assert turns[..i + 1][..i] == turns[..i];
      var turn := turns[i];
      var booted := Booted(turn, last);
      if booted.Some? {
        if turn.setsUp {
          var boot, ending := Run(booted.value.boot, turn.cycles);
          last := if ending.Misreading? then None else Some(Decided(booted.value.server, boot));
        } else {
          last := booted;
        }
      }
    }
    assert turns[..|turns|] == turns;
  }

  /** No restore goes over a user's work, nor over a server whose boot was decided
      before: a restore runs only where the survey found no session,
      or only bootstrap ones on a server it has decided nothing about. */
  lemma RestoresOnlyTheUnbuilt(t: Turn, last: Option<Decided>)
    ensures Chosen(t, last).Restore? ==>
              t.survey.NoSession?
              || (t.survey.Holds? && IsBootstrapOnly(t.survey.live)
                  && (last.Some? ==> last.value.server != t.survey.server))
  {
    if t.survey.Holds? {
      StateOfIs(t.survey.live);
    }
  }

  /** The server is the one the last decision was made for. */
  predicate Returning(t: Turn, last: Option<Decided>) {
    t.survey.Holds? && last.Some? && last.value.server == t.survey.server
  }

  /** What connecting decides, case by case. A server decided about before keeps its
      decision. Short of that, one with anything built is left alone, with the names
      that were built; else what is saved decides, and what is saved but cannot be
      read is refused rather than taken for nothing. */
  lemma ChosenExactly(t: Turn, last: Option<Decided>)
    ensures Chosen(t, last).Keep? <==> Returning(t, last)
    ensures Chosen(t, last).Keep? ==> Chosen(t, last).last == last.value
    ensures Chosen(t, last).Restore? <==>
              && !t.survey.Failed? && !Returning(t, last) && t.latest.Found?
              && (t.survey.Holds? ==> IsBootstrapOnly(t.survey.live))
    ensures Chosen(t, last).Wait? <==> t.survey.NoSession? && t.latest.NothingSaved?
    ensures Chosen(t, last).Refuse? <==>
              || t.survey.Failed?
              || (&& !Returning(t, last) && t.latest.Unreadable?
                  && (t.survey.Holds? ==> IsBootstrapOnly(t.survey.live)))
    ensures Chosen(t, last).StayOut? ==>
              var d := Chosen(t, last).decided;
              && t.survey.Holds? && d.server == t.survey.server
              && (d.boot.Settled? <==> IsBootstrapOnly(t.survey.live))
              && (d.boot.Declined? ==>
                    forall name :: name in d.boot.built <==> IsBuilt(t.survey.live, t.survey.live.sessions, name))
  {
    hide IsBootstrapOnly, StateOf, IsBuilt;
    if t.survey.Holds? {
      StateOfIs(t.survey.live);
    }
  }

  /** A turn that attaches to nothing changes no decision; one that restored leaves
      the restored server settled; and any other carries on what its run made of the
      decision about the server it found. */
  lemma CarriedExactly(t: Turn, last: Option<Decided>)
    ensures (!t.attaches || Chosen(t, last).Wait? || Chosen(t, last).Refuse?) ==> Carried(t, last) == last
    ensures Chosen(t, last).Restore? && t.restored.None? ==> Carried(t, last) == last
    ensures t.attaches && Chosen(t, last).Restore? && t.restored.Some? ==>
              Carried(t, last) == Some(Decided(t.restored.value, Settled))
    ensures t.attaches && (Chosen(t, last).Keep? || Chosen(t, last).StayOut?) ==>
              var d := if Chosen(t, last).Keep? then Chosen(t, last).last else Chosen(t, last).decided;
              && d.server == t.survey.server
              && (!t.setsUp || d.boot.Settled? ==> Carried(t, last) == Some(d))
              && (t.setsUp && Carried(t, last).Some? ==> Carried(t, last).value == Decided(d.server, RunOf(d.boot, t.cycles).0))
  {
    hide RunOf, StateOf;
    SettledStays(t.cycles);
  }

  /** A decision is forgotten only by a run that showed boot had misread the server. */
  lemma ForgottenOnlyWhenMisread(t: Turn, last: Option<Decided>)
    requires last.Some?
    ensures Carried(t, last).None? <==>
              Booted(t, last).Some? && t.setsUp
              && exists n :: 0 <= n < |t.cycles| && ShowsMisread(Booted(t, last).value.boot, t.cycles, n)
  {
    hide Chosen, RunOf;
    if Booted(t, last).Some? {
      MisreadExactly(Booted(t, last).value.boot, t.cycles);
    }
  }

  // ---- Settled stays settled ----

  /** The server incarnation a turn met: the one its survey found, or with no session
      found, the one it restored onto. */
  function Met(t: Turn): Option<Origin> {
    if t.survey.Holds? then Some(t.survey.server) else t.restored
  }

  /** Once another incarnation has been met, an earlier one never returns. */
  predicate NoneReturns(turns: seq<Turn>) {
    forall i, j, k ::
      (0 <= i < j < k < |turns| && Met(turns[i]).Some? && Met(turns[j]).Some? && Met(turns[k]) == Met(turns[i]))
      ==> Met(turns[j]) == Met(turns[i])
  }

  /** A turn that meets a settled server, or none, leaves it settled. */
  lemma SettledIsCarried(t: Turn, server: Origin)
    requires Met(t).Some? ==> Met(t).value == server
    ensures Carried(t, Some(Decided(server, Settled))) == Some(Decided(server, Settled))
    ensures t.survey.Holds? ==> Chosen(t, Some(Decided(server, Settled))) == Keep(Decided(server, Settled))
  {
    hide RunOf;
    SettledStays(t.cycles);
  }

  lemma {:induction false} SettledAcross(turns: seq<Turn>, i: nat, k: nat, server: Origin)
    requires i < k <= |turns|
    requires forall n :: i < n < k ==> Met(turns[n]).None? || Met(turns[n]) == Some(server)
    requires CarriedAll(turns[..i + 1], None) == Some(Decided(server, Settled))
    ensures CarriedAll(turns[..k], None) == Some(Decided(server, Settled))
    decreases k
  {
    hide Carried;
    if i + 1 < k {
      SettledAcross(turns, i, k - 1, server);
      assert turns[..k][..k - 1] == turns[..k - 1] && turns[..k][k - 1] == turns[k - 1];
      SettledIsCarried(turns[k - 1], server);
    }
  }

  /** Once a run on a server ends settled, no later turn that finds a session on
      that server restores into it: it keeps the decision, and the decision stays. */
  lemma SettledForGood(turns: seq<Turn>, i: nat, k: nat)
    requires i < k < |turns| && NoneReturns(turns)
    requires var decided := CarriedAll(turns[..i + 1], None);
             && decided.Some? && decided.value.boot.Settled? && Met(turns[i]) == Some(decided.value.server)
             && turns[k].survey.Holds? && turns[k].survey.server == decided.value.server
    ensures var decided := CarriedAll(turns[..i + 1], None).value;
            && CarriedAll(turns[..k], None) == Some(decided)
            && Chosen(turns[k], CarriedAll(turns[..k], None)) == Keep(decided)
            && CarriedAll(turns[..k + 1], None) == Some(decided)
  {
    hide Carried, Chosen, CarriedAll;
    var server := CarriedAll(turns[..i + 1], None).value.server;
    forall n | i < n < k ensures Met(turns[n]).None? || Met(turns[n]) == Some(server) {
      assert Met(turns[k]) == Met(turns[i]);
    }
    SettledAcross(turns, i, k, server);
    SettledIsCarried(turns[k], server);
    SettledAcross(turns, i, k + 1, server);
  }
}
