/** phoenix-restore/src/plan.rs: the name of the session a restore makes to
    attach by, chosen against the snapshot. */
module Scratch {
  import opened Wrappers
  import opened Snapshots
  import Blocks

  const PREFIX: Text := Ascii("phoenix-scratch-")

  function Candidate(n: nat): Text { PREFIX + Blocks.Decimal(n) }

  /** The first candidate from `n` on that is not taken. */
  function FirstFree(taken: set<Text>, n: nat): (at: nat)
    ensures at >= n
    decreases |taken|
  {
    if Candidate(n) in taken then FirstFree(taken - {Candidate(n)}, n + 1) else n
  }

  function Names(sessions: seq<Session>): set<Text> { set s | s in sessions :: s.name }

  function ScratchName(snapshot: Snapshot): Text { Candidate(FirstFree(Names(snapshot.sessions), 0)) }

  lemma CandidatesDiffer(m: nat, n: nat)
    requires Candidate(m) == Candidate(n)
    ensures m == n
  {
    hide Blocks.Decimal, PREFIX;
    assert Blocks.Decimal(m) == Candidate(m)[|PREFIX|..];
    assert Blocks.Decimal(n) == Candidate(n)[|PREFIX|..];
    Blocks.DecimalIsParsed(m);
    Blocks.DecimalIsParsed(n);
  }

  lemma {:induction false} FirstFreeIs(taken: set<Text>, n: nat)
    ensures Candidate(FirstFree(taken, n)) !in taken
    ensures forall k :: n <= k < FirstFree(taken, n) ==> Candidate(k) in taken
    decreases |taken|
  {
    hide Candidate;
    if Candidate(n) in taken {
      FirstFreeIs(taken - {Candidate(n)}, n + 1);
      var at := FirstFree(taken - {Candidate(n)}, n + 1);
      if Candidate(at) == Candidate(n) {
        CandidatesDiffer(at, n);
      }
    }
  }

  lemma NamesAreHeld(snapshot: Snapshot, name: Text)
    ensures name in Names(snapshot.sessions) <==> HoldsSession(snapshot.sessions, name)
  {
    if name in Names(snapshot.sessions) {
      var i :| 0 <= i < |snapshot.sessions| && snapshot.sessions[i].name == name;
    }
  }

  /** No saved session has the scratch's name, and every earlier candidate is some
      saved session's: so `Opens` can make it, and no plan restores into it. */
  lemma ScratchIsNotSaved(snapshot: Snapshot)
    ensures !HoldsSession(snapshot.sessions, ScratchName(snapshot))
    ensures exists n: nat :: ScratchName(snapshot) == Candidate(n) && forall k: nat :: 0 <= k < n ==> HoldsSession(snapshot.sessions, Candidate(k))
  {
    hide Candidate, HoldsSession, FirstFree, Names, ScratchName, Ascii, Blocks.Decimal;
    var n := FirstFree(Names(snapshot.sessions), 0);
    ScratchIs(snapshot);
    FirstFreeIs(Names(snapshot.sessions), 0);
    NamesAreHeld(snapshot, Candidate(n));
    forall k | 0 <= k < n ensures HoldsSession(snapshot.sessions, Candidate(k)) {
      NamesAreHeld(snapshot, Candidate(k));
    }
  }

  lemma ScratchIs(snapshot: Snapshot)
    ensures ScratchName(snapshot) == Candidate(FirstFree(Names(snapshot.sessions), 0))
  {
    hide Candidate, FirstFree, Names;
  }
}
