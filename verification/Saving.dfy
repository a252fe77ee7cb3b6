/** phoenix-store/src/store.rs, saves and reads interleaved: any number of
    processes save under one lock and may be cut off at any step; any number
    read with no lock. Proved of every run: no read is torn, ids rise, a save
    leaves exactly what retention keeps, and what was saved is always whole. */
module Saving {
  import opened Wrappers
  import opened Snapshots
  import opened Checksum
  import opened Stored
  import opened Header
  import opened Generations

  type Pid = nat
  type Rid = nat

  datatype Request = Request(snapshot: Snapshot, tag: Option<Text>, keep: nat)

  datatype Phase =
    | Entered
    | Listed(id: int, listed: Files)
    | Encoded(id: int, listed: Files)
    | Pruning(id: int, published: Files, doomed: seq<int>, failed: set<int>)

  /** The save that holds the lock. */
  datatype Turn = Turn(pid: Pid, request: Request, phase: Phase)

  datatype Look = Look(id: int, found: Option<seq<Byte>>)

  /** A read under way: the ids it listed first and the files it has opened.
      `begun` and `steady` are history: the store as it was at that listing, and
      whether it has been that way ever since. */
  datatype Reader = Reader(before: set<int>, looks: seq<Look>, begun: Files, steady: bool)

  /** `saved` is history: every generation a save has published. */
  datatype State = State(files: Files, blobs: Blobs, turn: Option<Turn>, readers: map<Rid, Reader>,
                         saved: map<int, Request>)

  datatype Event =
    | Enter(pid: Pid, request: Request)
    | List(pid: Pid)
    | Encode(pid: Pid)
    | Publish(pid: Pid)
    | Remove(pid: Pid, ok: bool)
    | Leave(pid: Pid)
    | Crash(pid: Pid)
    | AddBlob(content: seq<Byte>)
    | Begin(rid: Rid)
    | Open(rid: Rid, id: int)
    | Again(rid: Rid)

  // ---- The steps ----

  function Lookup(files: Files, id: int): Option<seq<Byte>> {
    if id in files then Some(files[id]) else None
  }

  /** A request the store's types admit. */
  ghost predicate Admitted(r: Request) {
    r.keep > 0 && Fits(r.snapshot) && ValidSnapshot(r.snapshot) && HeaderFits(r.snapshot, r.tag)
  }

  predicate Holds(s: State, pid: Pid) { s.turn.Some? && s.turn.value.pid == pid }

  ghost predicate Enabled(s: State, e: Event) {
    match e
    case Enter(pid, request) => s.turn.None? && Admitted(request)
    case List(pid) => Holds(s, pid) && s.turn.value.phase.Entered?
    // No two contents share a key: the assumption content addressing makes.
    case Encode(pid) =>
      && Holds(s, pid) && s.turn.value.phase.Listed?
      && NoClash(s.blobs, WindowBlobs(s.turn.value.request.snapshot.windows))
    case Publish(pid) => Holds(s, pid) && s.turn.value.phase.Encoded?
    case Remove(pid, ok) => Holds(s, pid) && s.turn.value.phase.Pruning? && s.turn.value.phase.doomed != []
    case Leave(pid) => Holds(s, pid) && s.turn.value.phase.Pruning? && s.turn.value.phase.doomed == []
    case Crash(pid) => Holds(s, pid)
    case AddBlob(content) => true
    case Begin(rid) => true
    case Open(rid, id) => rid in s.readers
    case Again(rid) => rid in s.readers
  }

  function InPhase(s: State, phase: Phase): State
    requires s.turn.Some?
  {
    s.(turn := Some(s.turn.value.(phase := phase)))
  }

  /** Every read under way has seen the files change. */
  function Disturbed(readers: map<Rid, Reader>): map<Rid, Reader> {
    map rid | rid in readers :: readers[rid].(steady := false)
  }

  function Listing(s: State): State
    requires s.turn.Some?
  {
    match NextId(Newest(s.files), s.turn.value.request.snapshot.capturedAt)
    case None => s.(turn := None)
    case Some(id) => InPhase(s, Listed(id, s.files))
  }

  function Publishing(s: State): State
    requires s.turn.Some? && s.turn.value.phase.Encoded?
  {
    var (r, p) := (s.turn.value.request, s.turn.value.phase);
    var bytes := PutFile(r.snapshot, r.tag);
    // What to prune comes from the listing made before publishing.
    var published := p.listed[p.id := bytes];
    InPhase(s, Pruning(p.id, published, Desc(DoomedIds(published, r.keep)), {}))
      .(files := s.files[p.id := bytes], readers := Disturbed(s.readers), saved := s.saved[p.id := r])
  }

  function Removing(s: State, ok: bool): State
    requires s.turn.Some? && s.turn.value.phase.Pruning? && s.turn.value.phase.doomed != []
  {
    var p := s.turn.value.phase;
    var id := p.doomed[0];
    if ok then
      InPhase(s, p.(doomed := p.doomed[1..])).(files := s.files - {id}, readers := Disturbed(s.readers))
    else
      InPhase(s, p.(doomed := p.doomed[1..], failed := p.failed + {id}))
  }

  function Opening(r: Reader, files: Files, id: int): Reader {
    r.(looks := r.looks + [Look(id, Lookup(files, id))])
  }

  function Fresh(files: Files): Reader { Reader(files.Keys, [], files, true) }

  function Next(s: State, e: Event): State
    requires Enabled(s, e)
  {
    match e
    case Enter(pid, request) => s.(turn := Some(Turn(pid, request, Entered)))
    case List(pid) => Listing(s)
    case Encode(pid) =>
      InPhase(s, Encoded(s.turn.value.phase.id, s.turn.value.phase.listed))
        .(blobs := PutBlobs(s.blobs, WindowBlobs(s.turn.value.request.snapshot.windows)))
    case Publish(pid) => Publishing(s)
    case Remove(pid, ok) => Removing(s, ok)
    case Leave(pid) => s.(turn := None)
    case Crash(pid) => s.(turn := None)
    case AddBlob(content) => s.(blobs := Put(s.blobs, content))
    case Begin(rid) => s.(readers := s.readers[rid := Fresh(s.files)])
    case Open(rid, id) => s.(readers := s.readers[rid := Opening(s.readers[rid], s.files, id)])
    // The ids moved: read again. Otherwise the answer stands and the read ends.
    case Again(rid) =>
      if s.files.Keys == s.readers[rid].before then s.(readers := s.readers - {rid})
      else s.(readers := s.readers[rid := Fresh(s.files)])
  }

  ghost predicate Runs(s: State, events: seq<Event>)
    decreases |events|
  {
    |events| == 0 || (Enabled(s, events[0]) && Runs(Next(s, events[0]), events[1..]))
  }

  ghost function After(s: State, events: seq<Event>): State
    requires Runs(s, events)
    decreases |events|
  {
    if |events| == 0 then s else After(Next(s, events[0]), events[1..])
  }

  /** Any store, with no save or read under way. */
  predicate Quiet(s: State) { s.turn.None? && s.readers == map[] && s.saved == map[] }

  // ---- What every state keeps ----

  ghost predicate PhaseOk(s: State, t: Turn) {
    match t.phase
    case Entered => true
    case Listed(id, listed) =>
      listed == s.files && NextId(Newest(s.files), t.request.snapshot.capturedAt) == Some(id)
    case Encoded(id, listed) =>
      && listed == s.files && NextId(Newest(s.files), t.request.snapshot.capturedAt) == Some(id)
      && Kept(s.blobs, WindowBlobs(t.request.snapshot.windows))
    case Pruning(id, published, doomed, failed) =>
      PruneOk(s.files, t.request.keep, id, published, doomed, failed)
  }

  ghost predicate PruneOk(files: Files, keep: nat, id: int, published: Files, doomed: seq<int>, failed: set<int>) {
    var all := DoomedIds(published, keep);
    && Top(published.Keys, id) && id !in all
    && Descending(doomed) && (forall d :: d in doomed ==> d in all)
    && failed <= all && (forall d :: d in doomed ==> d !in failed)
    && files == published - (all - failed - (set d | d in doomed))
  }

  /** A published generation, while it is there, is the whole file of what was
      saved, and the blob store holds its texts; once any has been published, the
      newest in the store is the newest published. */
  ghost predicate SavedOk(s: State) {
    && (forall id :: id in s.saved && id in s.files ==> SavedWhole(s, id))
    && (forall id :: id in s.saved ==> Under(id, s.files))
    && (s.saved != map[] ==> NewestIsSaved(s))
  }

  ghost predicate NewestIsSaved(s: State) {
    Newest(s.files).Some? && Newest(s.files).value in s.saved
  }

  ghost predicate SavedWhole(s: State, id: int)
    requires id in s.saved && id in s.files
  {
    var r := s.saved[id];
    Admitted(r) && s.files[id] == PutFile(r.snapshot, r.tag) && Kept(s.blobs, WindowBlobs(r.snapshot.windows))
  }

  ghost predicate ReaderOk(r: Reader, files: Files) {
    && r.before == r.begun.Keys
    && (forall id :: id in r.before ==> Under(id, files))
    && (Passed(r.before, files) || Shrunk(r, files))
  }

  /** A generation newer than everything the read listed has been published. */
  predicate Passed(before: set<int>, files: Files) {
    Newest(files).Some? && Newest(files).value !in before && forall id :: id in before ==> id < Newest(files).value
  }

  /** Nothing has been published since the read began, and what it opened is
      what was there then, unless it has since been deleted. */
  ghost predicate Shrunk(r: Reader, files: Files) {
    && (forall id :: id in files ==> id in r.begun && r.begun[id] == files[id])
    && (!r.steady ==> files.Keys != r.before)
    && forall i :: 0 <= i < |r.looks| ==> LookOk(r.looks[i], r.begun, files)
  }

  predicate LookOk(look: Look, begun: Files, files: Files) {
    look.found == Lookup(begun, look.id) || (look.found.None? && look.id !in files)
  }

  ghost predicate Inv(s: State) {
    && (s.turn.Some? ==> Admitted(s.turn.value.request) && PhaseOk(s, s.turn.value))
    && SavedOk(s)
    && forall rid :: rid in s.readers ==> ReaderOk(s.readers[rid], s.files)
  }

  lemma QuietIsOk(s: State)
    requires Quiet(s)
    ensures Inv(s)
  {}

  // ---- Publishing raises the newest id; removing leaves it ----

  lemma RemoveLeaves(files: Files, id: int, top: int)
    requires Top(files.Keys, top) && id != top
    ensures Newest(files) == Newest(files - {id}) == Some(top)
  {
    assert Top((files - {id}).Keys, top);
  }

  lemma PruneTop(files: Files, keep: nat, id: int, published: Files, doomed: seq<int>, failed: set<int>)
    requires PruneOk(files, keep, id, published, doomed, failed)
    ensures Top(files.Keys, id)
  {
    hide DoomedIds;
  }

  // ---- Readers ----

  lemma PublishDisturbs(r: Reader, files: Files, capturedAt: int, id: int, bytes: seq<Byte>)
    requires ReaderOk(r, files) && NextId(Newest(files), capturedAt) == Some(id)
    ensures ReaderOk(r.(steady := false), files[id := bytes])
  {
    hide NextId, Shrunk, Newest;
    PublishRaises(files, capturedAt, id, bytes);
  }

  lemma RemoveDisturbs(r: Reader, files: Files, id: int, top: int)
    requires ReaderOk(r, files) && Top(files.Keys, top) && id != top && id in files
    ensures ReaderOk(r.(steady := false), files - {id})
  {
    hide Newest;
    RemoveLeaves(files, id, top);
    if !Passed(r.before, files) {
      assert id in r.begun;
      assert id !in (files - {id}).Keys;
    }
  }

  lemma OpenKeeps(r: Reader, files: Files, id: int)
    requires ReaderOk(r, files)
    ensures ReaderOk(Opening(r, files, id), files)
  {
    hide Newest;
  }

  // ---- Every step keeps it ----

  lemma ListKeeps(s: State)
    requires Inv(s) && s.turn.Some?
    ensures Inv(Listing(s))
  {
    hide Admitted, Newest, NextId, ReaderOk, SavedOk;
    assert SavedOk(Listing(s)) by { SavedSame(s, Listing(s)); }
  }

  /** Neither the store nor what is known of it changed. */
  lemma SavedSame(s: State, t: State)
    requires SavedOk(s) && s.files == t.files && s.blobs == t.blobs && s.saved == t.saved
    ensures SavedOk(t)
  {
    hide Admitted, Newest, Kept, PutFile;
  }

  lemma SavedGrows(s: State, t: State)
    requires SavedOk(s) && s.files == t.files && Later(s.blobs, t.blobs) && s.saved == t.saved
    ensures SavedOk(t)
  {
    hide Admitted, Newest, Kept, PutFile, Later;
    forall id | id in t.saved && id in t.files ensures SavedWhole(t, id) {
      assert SavedWhole(s, id);
      KeptLater(s.blobs, t.blobs, WindowBlobs(s.saved[id].snapshot.windows));
    }
  }

  lemma EncodeKeeps(s: State, pid: Pid)
    requires Inv(s) && Enabled(s, Encode(pid))
    ensures Inv(Next(s, Encode(pid)))
  {
    hide Admitted, Newest, NextId, ReaderOk, SavedOk, Kept, NoClash, Later, PutBlobs, WindowBlobs;
    var t := Next(s, Encode(pid));
    var contents := WindowBlobs(s.turn.value.request.snapshot.windows);
    PutBlobsKeeps(s.blobs, contents);
    PutBlobsGrows(s.blobs, contents);
    SavedGrows(s, t);
  }

  lemma AddBlobKeeps(s: State, content: seq<Byte>)
    requires Inv(s)
    ensures Inv(Next(s, AddBlob(content)))
  {
    hide Admitted, Newest, NextId, ReaderOk, SavedOk, Kept, Put, PruneOk;
    var t := Next(s, AddBlob(content));
    assert Later(s.blobs, t.blobs) by { PutKeeps(s.blobs, content); }
    SavedGrows(s, t);
    if s.turn.Some? && s.turn.value.phase.Encoded? {
      KeptLater(s.blobs, t.blobs, WindowBlobs(s.turn.value.request.snapshot.windows));
    }
  }

  lemma DoomedIsDoomed(published: Files, keep: nat, id: int)
    ensures id in DoomedIds(published, keep) <==> Doomed(published, keep, id)
    ensures DoomedIds(published, keep) <= published.Keys
  {
    hide Plain, Newer;
  }

  lemma PublishStarts(published: Files, keep: nat, id: int)
    requires keep > 0 && Top(published.Keys, id)
    ensures PruneOk(published, keep, id, published, Desc(DoomedIds(published, keep)), {})
  {
    hide Doomed, Desc, DoomedIds, Top;
    NewestIsKept(published, keep, id);
    var all := DoomedIds(published, keep);
    DoomedIsDoomed(published, keep, id);
    assert (set d | d in Desc(all)) == all;
  }

  lemma PublishSaves(s: State, t: State, id: int, r: Request)
    requires SavedOk(s) && Admitted(r) && Kept(s.blobs, WindowBlobs(r.snapshot.windows))
    requires NextId(Newest(s.files), r.snapshot.capturedAt) == Some(id)
    requires t.files == s.files[id := PutFile(r.snapshot, r.tag)] && t.blobs == s.blobs && t.saved == s.saved[id := r]
    ensures SavedOk(t)
  {
    hide Admitted, Newest, NextId, Kept, PutFile;
    PublishRaises(s.files, r.snapshot.capturedAt, id, PutFile(r.snapshot, r.tag));
    forall other | other in t.saved && other in t.files ensures SavedWhole(t, other) {
      if other != id {
        assert SavedWhole(s, other);
      }
    }
  }

  lemma PublishKeeps(s: State, pid: Pid)
    requires Inv(s) && Enabled(s, Publish(pid))
    ensures Inv(Next(s, Publish(pid)))
  {
    hide Newest, NextId, ReaderOk, SavedOk, Kept, PutFile, PruneOk, DoomedIds, Fits, ValidSnapshot, HeaderFits;
    var t := Next(s, Publish(pid));
    var (r, id) := (s.turn.value.request, s.turn.value.phase.id);
    PublishRaises(s.files, r.snapshot.capturedAt, id, PutFile(r.snapshot, r.tag));
    PublishStarts(t.files, r.keep, id);
    PublishSaves(s, t, id, r);
    forall rid | rid in t.readers ensures ReaderOk(t.readers[rid], t.files) {
      PublishDisturbs(s.readers[rid], s.files, r.snapshot.capturedAt, id, PutFile(r.snapshot, r.tag));
    }
  }

  lemma PruneSteps(files: Files, keep: nat, id: int, published: Files, doomed: seq<int>, failed: set<int>)
    requires PruneOk(files, keep, id, published, doomed, failed) && doomed != []
    ensures doomed[0] in files && doomed[0] != id && Doomed(published, keep, doomed[0])
    ensures PruneOk(files - {doomed[0]}, keep, id, published, doomed[1..], failed)
    ensures PruneOk(files, keep, id, published, doomed[1..], failed + {doomed[0]})
  {
    hide Doomed, Top;
    var d := doomed[0];
    assert d in doomed;
    assert d in DoomedIds(published, keep);
    forall other ensures other in doomed[1..] <==> other in doomed && other != d { TailIs(doomed, other); }
    assert (set x | x in doomed[1..]) == (set x | x in doomed) - {d};
  }

  lemma RemoveSaves(s: State, t: State, id: int, top: int)
    requires SavedOk(s) && Top(s.files.Keys, top) && id != top
    requires t.files == s.files - {id} && t.blobs == s.blobs && t.saved == s.saved
    ensures SavedOk(t)
  {
    hide Admitted, Newest, Kept, PutFile;
    RemoveLeaves(s.files, id, top);
    forall other | other in t.saved && other in t.files ensures SavedWhole(t, other) {
      assert SavedWhole(s, other);
    }
  }

  lemma RemoveKeeps(s: State, pid: Pid, ok: bool)
    requires Inv(s) && Enabled(s, Remove(pid, ok))
    ensures Inv(Next(s, Remove(pid, ok)))
  {
    hide Newest, ReaderOk, SavedOk, PruneOk, DoomedIds, Doomed, Admitted;
    var t := Next(s, Remove(pid, ok));
    var (keep, p) := (s.turn.value.request.keep, s.turn.value.phase);
    PruneTop(s.files, keep, p.id, p.published, p.doomed, p.failed);
    PruneSteps(s.files, keep, p.id, p.published, p.doomed, p.failed);
    if ok {
      RemoveSaves(s, t, p.doomed[0], p.id);
      forall rid | rid in t.readers ensures ReaderOk(t.readers[rid], t.files) {
        RemoveDisturbs(s.readers[rid], s.files, p.doomed[0], p.id);
      }
    } else {
      SavedSame(s, t);
    }
  }

  lemma ReadKeeps(s: State, rid: Rid, r: Reader)
    requires Inv(s) && ReaderOk(r, s.files)
    ensures Inv(s.(readers := s.readers[rid := r]))
  {
    hide Newest, ReaderOk, SavedOk, PhaseOk, Admitted;
    var t := s.(readers := s.readers[rid := r]);
    SavedSame(s, t);
    if s.turn.Some? {
      PhaseSame(s, t);
    }
  }

  lemma PhaseSame(s: State, t: State)
    requires s.files == t.files && s.blobs == t.blobs && s.turn == t.turn && t.turn.Some? && PhaseOk(s, s.turn.value)
    ensures PhaseOk(t, t.turn.value)
  {
    hide Newest, NextId, Kept, PruneOk;
  }

  lemma LeaveKeeps(s: State)
    requires Inv(s)
    ensures Inv(s.(turn := None))
  {
    hide ReaderOk, SavedOk;
    SavedSame(s, s.(turn := None));
  }

  lemma EnterKeeps(s: State, pid: Pid, request: Request)
    requires Inv(s) && Admitted(request)
    ensures Inv(s.(turn := Some(Turn(pid, request, Entered))))
  {
    hide ReaderOk, SavedOk, Admitted;
    SavedSame(s, s.(turn := Some(Turn(pid, request, Entered))));
  }

  lemma AgainKeeps(s: State, rid: Rid)
    requires Inv(s)
    ensures Inv(s.(readers := s.readers - {rid}))
  {
    hide ReaderOk, SavedOk, PhaseOk, Admitted;
    var t := s.(readers := s.readers - {rid});
    SavedSame(s, t);
    if s.turn.Some? {
      PhaseSame(s, t);
    }
  }

  lemma NextKeeps(s: State, e: Event)
    requires Inv(s) && Enabled(s, e)
    ensures Inv(Next(s, e))
  {
    hide Inv, Listing, Publishing, Removing, Admitted, NoClash, PutBlobs, Put, WindowBlobs;
    match e
    case Enter(pid, request) => EnterKeeps(s, pid, request);
    case List(pid) => ListKeeps(s);
    case Encode(pid) => EncodeKeeps(s, pid);
    case Publish(pid) => PublishKeeps(s, pid);
    case Remove(pid, ok) => RemoveKeeps(s, pid, ok);
    case Leave(pid) => LeaveKeeps(s);
    case Crash(pid) => LeaveKeeps(s);
    case AddBlob(content) => AddBlobKeeps(s, content);
    case Begin(rid) =>
      ReadKeeps(s, rid, Fresh(s.files));
    case Open(rid, id) =>
      InvReader(s, rid);
      OpenKeeps(s.readers[rid], s.files, id);
      ReadKeeps(s, rid, Opening(s.readers[rid], s.files, id));
    case Again(rid) =>
      AgainKeeps(s, rid);
      ReadKeeps(s, rid, Fresh(s.files));
  }

  lemma InvReader(s: State, rid: Rid)
    requires Inv(s) && rid in s.readers
    ensures ReaderOk(s.readers[rid], s.files)
  {
    hide ReaderOk, SavedOk, PhaseOk, Admitted;
  }

  lemma {:induction false} RunKeeps(s: State, events: seq<Event>)
    requires Inv(s) && Runs(s, events)
    ensures Inv(After(s, events))
    decreases |events|
  {
    hide Inv, Next, Enabled;
    if |events| > 0 {
      NextKeeps(s, events[0]);
      RunKeeps(Next(s, events[0]), events[1..]);
    }
  }

  // ---- What that means, for every run of savers and readers ----

  /** No torn read: in every run, when the ids listed after a read are those
      listed before it, the store never changed in between, and every file the
      read opened is as the store has it. */
  lemma NoTornRead(start: State, events: seq<Event>, rid: Rid)
    requires Quiet(start) && Runs(start, events)
    requires rid in After(start, events).readers
    requires After(start, events).files.Keys == After(start, events).readers[rid].before
    ensures var (r, files) := (After(start, events).readers[rid], After(start, events).files);
            && r.steady && files == r.begun
            && forall i :: 0 <= i < |r.looks| ==> r.looks[i].found == Lookup(files, r.looks[i].id)
  {
    hide Runs, After, Inv, ReaderOk;
    QuietIsOk(start);
    RunKeeps(start, events);
    var t := After(start, events);
    InvReader(t, rid);
    SameIdsSameStore(t.readers[rid], t.files);
  }

  /** A read is over only once it is true of one store: when a step ends one, its
      ids had not moved, and what it opened is what the store holds. */
  lemma ReadsEndTrue(start: State, events: seq<Event>, e: Event, rid: Rid)
    requires Quiet(start) && Runs(start, events) && Enabled(After(start, events), e)
    requires rid in After(start, events).readers && rid !in Next(After(start, events), e).readers
    ensures var (r, files) := (After(start, events).readers[rid], After(start, events).files);
            && e == Again(rid) && r.steady && files == r.begun
            && forall i :: 0 <= i < |r.looks| ==> r.looks[i].found == Lookup(files, r.looks[i].id)
  {
    hide Runs, After;
    EndsUnmoved(After(start, events), e, rid);
    NoTornRead(start, events, rid);
  }

  lemma EndsUnmoved(s: State, e: Event, rid: Rid)
    requires Enabled(s, e) && rid in s.readers && rid !in Next(s, e).readers
    ensures e == Again(rid) && s.files.Keys == s.readers[rid].before
  {
    hide DoomedIds, Desc, NextId, Newest, PutFile, PutBlobs, Put, WindowBlobs, NoClash, Admitted, Fresh, Opening;
  }

  lemma SameIdsSameStore(r: Reader, files: Files)
    requires ReaderOk(r, files) && files.Keys == r.before
    ensures r.steady && files == r.begun
    ensures forall i :: 0 <= i < |r.looks| ==> r.looks[i].found == Lookup(files, r.looks[i].id)
  {
    assert !Passed(r.before, files);
  }

  /** What a read that stands says of the newest generation. If it listed none, the
      store was empty all along; if it listed some, and its `i`th look was at the
      newest of them, that look found it, and it is still the newest. */
  lemma LatestIsOfOneState(start: State, events: seq<Event>, rid: Rid, i: nat)
    requires Quiet(start) && Runs(start, events)
    requires rid in After(start, events).readers
    requires After(start, events).files.Keys == After(start, events).readers[rid].before
    requires var r := After(start, events).readers[rid];
             r.before != {} ==> i < |r.looks| && r.looks[i].id == TopOf(r.before)
    ensures var (r, files) := (After(start, events).readers[rid], After(start, events).files);
            && (r.before == {} ==> r.begun == files == map[] && r.steady)
            && (r.before != {} ==> Newest(files) == Some(r.looks[i].id) && r.looks[i].found == Some(files[r.looks[i].id]))
  {
    hide Runs, After;
    NoTornRead(start, events, rid);
    var (r, files) := (After(start, events).readers[rid], After(start, events).files);
    if r.before != {} {
    }
  }

  /** Ids strictly rise in save order, whatever the processes and their clocks:
      each published id is above every one published before it and every one in
      the store, and no lower than its capture's time. */
  lemma IdsRise(start: State, events: seq<Event>, pid: Pid)
    requires Quiet(start) && Runs(start, events) && Enabled(After(start, events), Publish(pid))
    ensures var t := After(start, events);
            var id := t.turn.value.phase.id;
            && (forall other :: other in t.saved || other in t.files ==> other < id)
            && t.turn.value.request.snapshot.capturedAt <= id
            && id in Next(t, Publish(pid)).files && id in Next(t, Publish(pid)).saved
  {
    hide Runs, After;
    QuietIsOk(start);
    RunKeeps(start, events);
    RisesAbove(After(start, events), pid);
  }

  lemma RisesAbove(t: State, pid: Pid)
    requires Inv(t) && Enabled(t, Publish(pid))
    ensures forall other :: other in t.saved || other in t.files ==> other < t.turn.value.phase.id
    ensures t.turn.value.request.snapshot.capturedAt <= t.turn.value.phase.id
  {
    hide Admitted, Newest, ReaderOk, PutFile, Kept, SavedWhole;
    PublishRaises(t.files, t.turn.value.request.snapshot.capturedAt, t.turn.value.phase.id, []);
    forall other | other in t.files ensures Under(other, t.files) { }
  }

  /** What is published stays published in the record of saves. */
  lemma {:induction false} SavedStays(s: State, events: seq<Event>)
    requires Runs(s, events)
    ensures s.saved.Keys <= After(s, events).saved.Keys
    decreases |events|
  {
    hide Enabled, Next;
    if |events| > 0 {
      NextSaves(s, events[0]);
      SavedStays(Next(s, events[0]), events[1..]);
    }
  }

  lemma NextSaves(s: State, e: Event)
    requires Enabled(s, e)
    ensures s.saved.Keys <= Next(s, e).saved.Keys
  {
    hide DoomedIds, Desc, NextId, Newest, PutFile, PutBlobs, Put, WindowBlobs, NoClash, Admitted, Disturbed, Fresh, Opening;
  }

  lemma NothingDoomed(files: Files, keep: nat, id: int, published: Files, failed: set<int>)
    requires PruneOk(files, keep, id, published, [], failed)
    ensures files == published - (DoomedIds(published, keep) - failed)
    ensures failed == {} ==> files == Retained(published, keep)
  {
    hide DoomedIds, Retained;
    var all := DoomedIds(published, keep);
    RetainedIs(published, keep);
    var none: seq<int> := [];
    assert all - failed - (set d | d in none) == all - failed;
    assert failed == {} ==> all - failed == all;
  }

  /** The save holding the lock is not over until it leaves or dies. */
  predicate Unbroken(events: seq<Event>, pid: Pid) {
    Leave(pid) !in events && Crash(pid) !in events
  }

  /** From `s`, the save holding the lock publishes and, through `later`, comes
      to its end in `t`. */
  ghost predicate SaveRuns(s: State, pid: Pid, later: seq<Event>, t: State) {
    && Enabled(s, Publish(pid)) && Unbroken(later, pid)
    && Runs(Next(s, Publish(pid)), later) && t == After(Next(s, Publish(pid)), later)
    && Enabled(t, Leave(pid))
  }

  /** Whatever others do meanwhile, a save goes on pruning what it published. */
  lemma {:induction false} PruneGoesOn(s: State, events: seq<Event>, pid: Pid)
    requires Runs(s, events) && Unbroken(events, pid) && Holds(s, pid) && s.turn.value.phase.Pruning?
    ensures var (p, t) := (s.turn.value.phase, After(s, events));
            && Holds(t, pid) && t.turn.value.request == s.turn.value.request && t.turn.value.phase.Pruning?
            && t.turn.value.phase.id == p.id && t.turn.value.phase.published == p.published
            && (Remove(pid, false) !in events ==> t.turn.value.phase.failed == p.failed)
    decreases |events|
  {
    hide Next, Enabled;
    if |events| > 0 {
      var e := events[0];
      assert e in events && forall x :: x in events[1..] ==> x in events;
      NextGoesOn(s, e, pid);
      PruneGoesOn(Next(s, e), events[1..], pid);
    }
  }

  lemma NextGoesOn(s: State, e: Event, pid: Pid)
    requires Enabled(s, e) && e != Leave(pid) && e != Crash(pid) && Holds(s, pid) && s.turn.value.phase.Pruning?
    ensures var (p, t) := (s.turn.value.phase, Next(s, e));
            && Holds(t, pid) && t.turn.value.request == s.turn.value.request && t.turn.value.phase.Pruning?
            && t.turn.value.phase.id == p.id && t.turn.value.phase.published == p.published
            && (e != Remove(pid, false) ==> t.turn.value.phase.failed == p.failed)
  {
    hide DoomedIds, Desc, NextId, Newest, PutFile, PutBlobs, Put, WindowBlobs, NoClash, Admitted, Disturbed, Fresh, Opening,
         Listing, Publishing, Removing;
    match e
    case Remove(_, ok) => RemovingGoesOn(s, ok);
    case _ =>
  }

  lemma RemovingGoesOn(s: State, ok: bool)
    requires s.turn.Some? && s.turn.value.phase.Pruning? && s.turn.value.phase.doomed != []
    ensures var (p, t) := (s.turn.value.phase, Removing(s, ok));
            && t.turn.Some? && t.turn.value.pid == s.turn.value.pid && t.turn.value.request == s.turn.value.request
            && t.turn.value.phase.Pruning?
            && t.turn.value.phase.id == p.id && t.turn.value.phase.published == p.published
            && (ok ==> t.turn.value.phase.failed == p.failed)
  {}

  /** `t` is `s` with the save about to publish published, less exactly the doomed
      that could be deleted, which are all of them when `none` failed. */
  ghost predicate LeavesRetained(s: State, t: State, none: bool) {
    && s.turn.Some? && s.turn.value.phase.Encoded? && t.turn.Some? && t.turn.value.phase.Pruning?
    && var (r, id, failed) := (s.turn.value.request, s.turn.value.phase.id, t.turn.value.phase.failed);
    var published := s.files[id := PutFile(r.snapshot, r.tag)];
    && t.files == published - (DoomedIds(published, r.keep) - failed)
    && (none ==> failed == {} && t.files == Retained(published, r.keep))
    && Newest(t.files) == Some(id)
    && (forall id :: id in t.files ==> id in published && t.files[id] == published[id])
    && forall id :: id in published ==>
         (id !in t.files <==>
            && DecodeHeader(published[id]).Ok? && DecodeHeader(published[id]).value.tag.None?
            && r.keep <= |set other | other in published && id < other
                                      && DecodeHeader(published[other]).Ok? && DecodeHeader(published[other]).value.tag.None?|
            && id !in failed)
  }

  /** A save that reaches its end, whatever others do from the moment it publishes
      to then, leaves the store as it was at that moment less exactly the untagged
      generations beyond the newest `keep` that could be deleted; the one it wrote
      is there and is the newest. */
  lemma SaveLeavesRetained(start: State, events: seq<Event>, s: State, pid: Pid, later: seq<Event>, t: State)
    requires Quiet(start) && Runs(start, events) && s == After(start, events)
    requires SaveRuns(s, pid, later, t)
    ensures LeavesRetained(s, t, Remove(pid, false) !in later)
  {
    hide Runs, After, DoomedIds, Newest, Retained, PutFile, Inv, Publishing, Unbroken, DecodeHeader;
    QuietIsOk(start);
    RunKeeps(start, events);
    var u := Next(s, Publish(pid));
    PublishedIs(s, pid);
    NextKeeps(s, Publish(pid));
    RunKeeps(u, later);
    PruneGoesOn(u, later, pid);
    var (keep, p) := (t.turn.value.request.keep, t.turn.value.phase);
    InvPrunes(t);
    PruneTop(t.files, keep, p.id, p.published, p.doomed, p.failed);
    NothingDoomed(t.files, keep, p.id, p.published, p.failed);
    LeftExactly(t.files, keep, p.published, p.failed);
  }

  /** What a save leaves, from the headers alone. */
  lemma LeftExactly(files: Files, keep: nat, published: Files, failed: set<int>)
    requires files == published - (DoomedIds(published, keep) - failed)
    ensures forall id :: id in files ==> id in published && files[id] == published[id]
    ensures forall id :: id in published ==>
              (id !in files <==>
                 && DecodeHeader(published[id]).Ok? && DecodeHeader(published[id]).value.tag.None?
                 && keep <= |set other | other in published && id < other
                                         && DecodeHeader(published[other]).Ok? && DecodeHeader(published[other]).value.tag.None?|
                 && id !in failed)
  {
    hide DecodeHeader, DoomedIds;
    forall id | id in published
      ensures id !in files <==>
                && DecodeHeader(published[id]).Ok? && DecodeHeader(published[id]).value.tag.None?
                && keep <= |set other | other in published && id < other
                                        && DecodeHeader(published[other]).Ok? && DecodeHeader(published[other]).value.tag.None?|
                && id !in failed
    {
      DoomedIffUntagged(published, keep, id);
    }
  }

  /** What publishing records is the store as it leaves it. */
  lemma PublishedIs(s: State, pid: Pid)
    requires Inv(s) && Enabled(s, Publish(pid))
    ensures var (r, p, u) := (s.turn.value.request, s.turn.value.phase, Publishing(s));
            && Holds(u, pid) && u.turn.value.request == r && u.turn.value.phase.Pruning?
            && u.turn.value.phase.id == p.id && u.turn.value.phase.failed == {}
            && u.turn.value.phase.published == s.files[p.id := PutFile(r.snapshot, r.tag)] == u.files
  {
    hide DoomedIds, Newest, PutFile, ReaderOk, SavedOk, Kept, Admitted;
  }

  lemma InvPrunes(t: State)
    requires Inv(t) && t.turn.Some? && t.turn.value.phase.Pruning?
    ensures var p := t.turn.value.phase; PruneOk(t.files, t.turn.value.request.keep, p.id, p.published, p.doomed, p.failed)
  {
    hide PruneOk, ReaderOk, SavedOk, Admitted;
  }

  /** A save cut off anywhere leaves only whole generations: every one ever
      published decodes, while it is there, to the snapshot and tag saved. */
  lemma SavedDecodes(start: State, events: seq<Event>, id: int, older: Older)
    requires Quiet(start) && Runs(start, events)
    requires id in After(start, events).saved && id in After(start, events).files
    ensures var (t, r) := (After(start, events), After(start, events).saved[id]);
            && DecodeFile(older, t.blobs, t.files[id]) == Ok(r.snapshot)
            && DecodeHeader(t.files[id]).Ok? && DecodeHeader(t.files[id]).value.tag == r.tag
  {
    hide Runs, After, Inv, DecodeFile, DecodeHeader, PutFile, Fits, ValidSnapshot, HeaderFits, Kept;
    QuietIsOk(start);
    RunKeeps(start, events);
    var t := After(start, events);
    InvSaved(t, id);
    var r := t.saved[id];
    FileRounds(older, t.blobs, r.snapshot, r.tag);
  }

  lemma InvSaved(t: State, id: int)
    requires Inv(t) && id in t.saved && id in t.files
    ensures SavedWhole(t, id)
  {
    hide SavedWhole, ReaderOk, PhaseOk;
  }

  /** The newest generation a run has published is never pruned: after any run
      that published one, the greatest id published is the newest in the store,
      and what it decodes to is the snapshot and tag saved last. */
  lemma NewestSavedStays(start: State, events: seq<Event>, older: Older)
    requires Quiet(start) && Runs(start, events) && After(start, events).saved != map[]
    ensures var t := After(start, events);
            && t.saved.Keys != {}
            && var top := TopOf(t.saved.Keys);
            && Newest(t.files) == Some(top) && top in t.files
            && DecodeFile(older, t.blobs, t.files[top]) == Ok(t.saved[top].snapshot)
            && DecodeHeader(t.files[top]).Ok? && DecodeHeader(t.files[top]).value.tag == t.saved[top].tag
  {
    hide Runs, After, DecodeFile, DecodeHeader, Inv;
    QuietIsOk(start);
    RunKeeps(start, events);
    var t := After(start, events);
    NewestIsTop(t);
    SavedDecodes(start, events, TopOf(t.saved.Keys), older);
  }

  lemma NewestIsTop(t: State)
    requires Inv(t) && t.saved != map[]
    ensures t.saved.Keys != {} && Newest(t.files) == Some(TopOf(t.saved.Keys)) && TopOf(t.saved.Keys) in t.files
  {
    hide ReaderOk, PhaseOk, SavedWhole;
    var top := Newest(t.files).value;
    assert Under(TopOf(t.saved.Keys), t.files);
  }

  /** No save, finished or cut off, ever removes or rewrites a tagged or an
      unreadable generation. */
  lemma {:induction false} NamedStays(s: State, events: seq<Event>, id: int)
    requires Inv(s) && Runs(s, events) && id in s.files
    requires DecodeHeader(s.files[id]).Err? || DecodeHeader(s.files[id]).value.tag.Some?
    ensures id in After(s, events).files && After(s, events).files[id] == s.files[id]
    decreases |events|
  {
    hide Inv, Next, Enabled, DecodeHeader;
    if |events| > 0 {
      NextKeeps(s, events[0]);
      NextLeavesNamed(s, events[0], id);
      NamedStays(Next(s, events[0]), events[1..], id);
    }
  }

  lemma NextLeavesNamed(s: State, e: Event, id: int)
    requires Inv(s) && Enabled(s, e) && id in s.files
    requires DecodeHeader(s.files[id]).Err? || DecodeHeader(s.files[id]).value.tag.Some?
    ensures id in Next(s, e).files && Next(s, e).files[id] == s.files[id]
  {
    hide ReaderOk, SavedOk, Admitted, DecodeHeader, NextId, Newest, PutFile, PutBlobs, Put, NoClash, WindowBlobs, Desc, Kept;
    match e
    case Publish(pid) =>
      PublishRaises(s.files, s.turn.value.request.snapshot.capturedAt, s.turn.value.phase.id,
                    PutFile(s.turn.value.request.snapshot, s.turn.value.request.tag));
    case Remove(pid, ok) =>
      var (keep, p) := (s.turn.value.request.keep, s.turn.value.phase);
      PruneSteps(s.files, keep, p.id, p.published, p.doomed, p.failed);
      DoomedIsDoomed(p.published, keep, p.doomed[0]);
      DoomedIffUntagged(p.published, keep, p.doomed[0]);
    case _ =>
  }

  /** A generation saved under a tag is there for good. */
  lemma TaggedStays(start: State, events: seq<Event>, id: int, later: seq<Event>)
    requires Quiet(start) && Runs(start, events) && Runs(After(start, events), later)
    requires id in After(start, events).saved && id in After(start, events).files && After(start, events).saved[id].tag.Some?
    ensures var (s, t) := (After(start, events), After(After(start, events), later));
            && id in t.files && t.files[id] == s.files[id] == PutFile(s.saved[id].snapshot, s.saved[id].tag)
  {
    hide Runs, After, Inv, DecodeHeader, DecodeFile, PutFile, HeaderFits, Kept;
    QuietIsOk(start);
    RunKeeps(start, events);
    var s := After(start, events);
    InvSaved(s, id);
    SavedKind(s.saved[id].snapshot, s.saved[id].tag);
    NamedStays(s, later, id);
  }
}
