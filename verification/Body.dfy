/** phoenix-store/src/codec.rs, the graph: windows, sessions, clients and the
    whole body. What a decoder accepts is always a valid snapshot, and always
    the very bytes the encoder writes for it. */
module Body {
  import opened Wrappers
  import opened Snapshots
  import opened Bytes
  import opened Checksum
  import opened Codec

  // ---- A window ----

  function PutMade(m: Made): seq<Byte> {
    match m
    case NotByPhoenix => [0]
    case ByPhoenix(generation, saved) => [1] + (PutI64(generation) + PutU32(saved))
  }

  function GetMade(b: seq<Byte>): (r: Read<Made>) {
    var (tag, rest) :- GetU8(b);
    match tag
    case 0 => Got(NotByPhoenix, rest)
    case 1 =>
      var (generation, rest) :- GetI64(rest);
      var (saved, rest) :- GetU32(rest);
      Got(ByPhoenix(generation, saved), rest)
    case _ => Bad(InvalidTag("Made", tag))
  }

  predicate MadeOk(m: Made) { m.ByPhoenix? ==> IsI64(m.generation) && IsU32(m.saved) }

  lemma MadeRounds(m: Made, rest: seq<Byte>)
    requires MadeOk(m)
    ensures GetMade(PutMade(m) + rest) == Got(m, rest)
  {
    hide GetI64, PutI64, GetU32, PutU32;
    match m
    case NotByPhoenix => U8Rounds(0, rest);
    case ByPhoenix(generation, saved) =>
      var (g, s) := (PutI64(generation), PutU32(saved));
      Join([1], g + s, rest);
      Join(g, s, rest);
      U8Rounds(1, g + (s + rest));
      I64Rounds(generation, s + rest);
      U32Rounds(saved, rest);
  }

  lemma MadeBacks(b: seq<Byte>)
    requires GetMade(b).Got?
    ensures MadeOk(GetMade(b).value) && b == PutMade(GetMade(b).value) + GetMade(b).rest
  {
    hide GetI64, PutI64, GetU32, PutU32;
    U8Backs(b);
    var tag := GetU8(b);
    if tag.value == 1 {
      var generation := GetI64(tag.rest);
      var saved := GetU32(generation.rest);
      I64Backs(tag.rest);
      U32Backs(generation.rest);
      var (g, s) := (PutI64(generation.value), PutU32(saved.value));
      Join([1], g + s, saved.rest);
      Join(g, s, saved.rest);
    }
  }

  function PutFlag(f: bool): seq<Byte> { if f then [1] else [0] }

  function GetFlag(what: string, b: seq<Byte>): (r: Read<bool>) {
    var (tag, rest) :- GetU8(b);
    match tag
    case 0 => Got(false, rest)
    case 1 => Got(true, rest)
    case _ => Bad(InvalidTag(what, tag))
  }

  lemma FlagRounds(f: bool, what: string, rest: seq<Byte>)
    ensures GetFlag(what, PutFlag(f) + rest) == Got(f, rest)
  {
    U8Rounds(if f then 1 else 0, rest);
  }

  lemma FlagBacks(what: string, b: seq<Byte>)
    requires GetFlag(what, b).Got?
    ensures b == PutFlag(GetFlag(what, b).value) + GetFlag(what, b).rest
  {
    U8Backs(b);
  }

  /** What `get` reads, refused unless its constructor admits it. */
  function Admit<T>(made: Result<T, SnapshotError>, rest: seq<Byte>): Read<T> {
    match made
    case Ok(value) => Got(value, rest)
    case Err(why) => Bad(Refused(why))
  }

  function PanePutter(): Pane -> seq<Byte> { p => PutPane(p) }
  function PaneGetter(blobs: Blobs): seq<Byte> -> Read<Pane> { b => GetPane(blobs, b) }
  ghost function PaneTest(blobs: Blobs): Pane -> bool { p => PaneOk(blobs, p) }

  lemma PanesRound(blobs: Blobs)
    ensures Rounds(PaneTest(blobs), PanePutter(), PaneGetter(blobs))
    ensures Sound(blobs) ==> Backs(PaneTest(blobs), PanePutter(), PaneGetter(blobs))
  {
    hide GetPane, PutPane, PaneOk, Sound;
    forall p: Pane, rest: seq<Byte> | PaneOk(blobs, p) ensures GetPane(blobs, PutPane(p) + rest) == Got(p, rest) {
      PaneRounds(blobs, p, rest);
    }
    if Sound(blobs) {
      forall b: seq<Byte> | GetPane(blobs, b).Got?
        ensures PaneOk(blobs, GetPane(blobs, b).value)
             && b == PutPane(GetPane(blobs, b).value) + GetPane(blobs, b).rest
      {
        PaneBacks(blobs, b);
      }
    }
  }

  function PutWindow(w: Window): seq<Byte> {
    PutU32(w.id) + (PutMade(w.made) + (PutBytes(w.name) + (PutBytes(w.layout)
      + (PutFlag(w.zoomed) + (PutVec(w.panes, PanePutter()) + PutU32(w.active))))))
  }

  function GetWindow(blobs: Blobs, b: seq<Byte>): (r: Read<Window>) {
    var (id, rest) :- GetU32(b);
    var (made, rest) :- GetMade(rest);
    var (name, rest) :- GetName(rest);
    var (layout, rest) :- GetName(rest);
    var (zoomed, rest) :- GetFlag("zoomed", rest);
    var (panes, rest) :- GetNonEmpty(PaneGetter(blobs), rest);
    var (active, rest) :- GetU32(rest);
    Admit(WindowNew(Window(id, made, name, layout, zoomed, panes, active)), rest)
  }

  ghost predicate WindowOk(blobs: Blobs, w: Window) {
    && IsU32(w.id) && MadeOk(w.made) && IsName(w.name) && IsName(w.layout) && IsU32(w.active)
    && w.panes != [] && IsU32(|w.panes|) && AllOk(w.panes, PaneTest(blobs))
    && ValidWindow(w)
  }

  lemma NonEmptyRounds<T(!new)>(items: seq<T>, ok: T -> bool, put: T -> seq<Byte>, get: seq<Byte> -> Read<T>, rest: seq<Byte>)
    requires Rounds(ok, put, get) && AllOk(items, ok) && IsU32(|items|) && items != []
    ensures GetNonEmpty(get, PutVec(items, put) + rest) == Got(items, rest)
  {
    VecRounds(items, ok, put, get, rest);
  }

  lemma NonEmptyBacks<T(!new)>(ok: T -> bool, put: T -> seq<Byte>, get: seq<Byte> -> Read<T>, b: seq<Byte>)
    requires Backs(ok, put, get) && GetNonEmpty(get, b).Got?
    ensures var r := GetNonEmpty(get, b);
            AllOk(r.value, ok) && IsU32(|r.value|) && b == PutVec(r.value, put) + r.rest
  {
    VecBacks(ok, put, get, b);
  }

  lemma WindowRounds(blobs: Blobs, w: Window, rest: seq<Byte>)
    requires WindowOk(blobs, w)
    ensures GetWindow(blobs, PutWindow(w) + rest) == Got(w, rest)
  {
    hide GetU32, PutU32, GetMade, PutMade, MadeOk, GetName, PutBytes, GetFlag, PutFlag, GetNonEmpty, PutVec,
         PaneGetter, PanePutter, PaneTest, AllOk, Rounds, Backs, WindowNew, ValidWindow, Sound, IsName;
    var (id, made, name) := (PutU32(w.id), PutMade(w.made), PutBytes(w.name));
    var (layout, zoomed) := (PutBytes(w.layout), PutFlag(w.zoomed));
    var (panes, active) := (PutVec(w.panes, PanePutter()), PutU32(w.active));
    Join(id, made + (name + (layout + (zoomed + (panes + active)))), rest);
    Join(made, name + (layout + (zoomed + (panes + active))), rest);
    Join(name, layout + (zoomed + (panes + active)), rest);
    Join(layout, zoomed + (panes + active), rest);
    Join(zoomed, panes + active, rest);
    Join(panes, active, rest);
    U32Rounds(w.id, made + (name + (layout + (zoomed + (panes + (active + rest))))));
    MadeRounds(w.made, name + (layout + (zoomed + (panes + (active + rest)))));
    NameRounds(w.name, layout + (zoomed + (panes + (active + rest))));
    NameRounds(w.layout, zoomed + (panes + (active + rest)));
    FlagRounds(w.zoomed, "zoomed", panes + (active + rest));
    PanesRound(blobs);
    NonEmptyRounds(w.panes, PaneTest(blobs), PanePutter(), PaneGetter(blobs), active + rest);
    U32Rounds(w.active, rest);
    WindowNewAdmits(w);
  }

  lemma NameRounds(s: Text, rest: seq<Byte>)
    requires IsName(s)
    ensures GetName(PutBytes(s) + rest) == Got(s, rest)
  {
    NamesRound();
  }

  lemma NameBacks(b: seq<Byte>)
    requires GetName(b).Got?
    ensures IsName(GetName(b).value) && b == PutBytes(GetName(b).value) + GetName(b).rest
  {
    NamesRound();
  }

  lemma WindowBacks(blobs: Blobs, b: seq<Byte>)
    requires Sound(blobs) && GetWindow(blobs, b).Got?
    ensures WindowOk(blobs, GetWindow(blobs, b).value)
    ensures b == PutWindow(GetWindow(blobs, b).value) + GetWindow(blobs, b).rest
  {
    hide GetU32, PutU32, GetMade, PutMade, MadeOk, GetName, PutBytes, GetFlag, PutFlag, GetNonEmpty, PutVec,
         PaneGetter, PanePutter, PaneTest, AllOk, Rounds, Backs, WindowNew, ValidWindow, Sound, IsName;
    var id := GetU32(b);
    var made := GetMade(id.rest);
    var name := GetName(made.rest);
    var layout := GetName(name.rest);
    var zoomed := GetFlag("zoomed", layout.rest);
    var panes := GetNonEmpty(PaneGetter(blobs), zoomed.rest);
    var active := GetU32(panes.rest);
    var w := Window(id.value, made.value, name.value, layout.value, zoomed.value, panes.value, active.value);
    WindowNewAdmits(w);
    assert GetWindow(blobs, b) == Got(w, active.rest);
    U32Backs(b);
    MadeBacks(id.rest);
    NameBacks(made.rest);
    NameBacks(name.rest);
    FlagBacks("zoomed", layout.rest);
    PanesRound(blobs);
    NonEmptyBacks(PaneTest(blobs), PanePutter(), PaneGetter(blobs), zoomed.rest);
    U32Backs(panes.rest);
    var (i, m, n) := (PutU32(w.id), PutMade(w.made), PutBytes(w.name));
    var (l, z) := (PutBytes(w.layout), PutFlag(w.zoomed));
    var (p, a) := (PutVec(w.panes, PanePutter()), PutU32(w.active));
    Join(i, m + (n + (l + (z + (p + a)))), active.rest);
    Join(m, n + (l + (z + (p + a))), active.rest);
    Join(n, l + (z + (p + a)), active.rest);
    Join(l, z + (p + a), active.rest);
    Join(z, p + a, active.rest);
    Join(p, a, active.rest);
  }

  // ---- A session ----

  function PutLink(l: WinLink): seq<Byte> { PutU32(l.index) + PutU32(l.window) }

  function GetLink(b: seq<Byte>): (r: Read<WinLink>) {
    var (index, rest) :- GetU32(b);
    var (window, rest) :- GetU32(rest);
    Got(WinLink(index, window), rest)
  }

  predicate LinkOk(l: WinLink) { IsU32(l.index) && IsU32(l.window) }

  lemma LinksRound()
    ensures Rounds(LinkOk, PutLink, GetLink) && Backs(LinkOk, PutLink, GetLink)
  {
    hide GetU32, PutU32;
    forall l: WinLink, rest: seq<Byte> | LinkOk(l) ensures GetLink(PutLink(l) + rest) == Got(l, rest) {
      Join(PutU32(l.index), PutU32(l.window), rest);
      U32Rounds(l.index, PutU32(l.window) + rest);
      U32Rounds(l.window, rest);
    }
    forall b: seq<Byte> | GetLink(b).Got?
      ensures LinkOk(GetLink(b).value) && b == PutLink(GetLink(b).value) + GetLink(b).rest
    {
      U32Backs(b);
      U32Backs(GetU32(b).rest);
      var l := GetLink(b);
      Join(PutU32(l.value.index), PutU32(l.value.window), l.rest);
    }
  }

  function PutSession(s: Session): seq<Byte> {
    PutBytes(s.name) + (PutOption(s.group, PutBytes) + (PutVec(s.windows, PutLink)
      + (PutU32(s.active) + PutOption(s.last, PutU32))))
  }

  function GetSession(b: seq<Byte>): (r: Read<Session>) {
    var (name, rest) :- GetName(b);
    var (group, rest) :- GetOption(GetName, rest);
    var (links, rest) :- GetNonEmpty(GetLink, rest);
    var (active, rest) :- GetU32(rest);
    var (last, rest) :- GetOption(GetU32, rest);
    Admit(SessionNew(Session(name, group, links, active, last)), rest)
  }

  ghost predicate SessionOk(s: Session) {
    && IsName(s.name) && OptionOk(s.group, IsName)
    && s.windows != [] && IsU32(|s.windows|) && AllOk(s.windows, LinkOk)
    && IsU32(s.active) && OptionOk(s.last, IsU32)
    && ValidSession(s)
  }

  lemma SessionRounds(s: Session, rest: seq<Byte>)
    requires SessionOk(s)
    ensures GetSession(PutSession(s) + rest) == Got(s, rest)
  {
    hide GetU32, PutU32, GetName, PutBytes, GetOption, PutOption, OptionOk, GetNonEmpty, PutVec, LinkOk, AllOk,
         Rounds, Backs, SessionNew, ValidSession, IsName;
    var (name, group) := (PutBytes(s.name), PutOption(s.group, PutBytes));
    var (links, active, last) := (PutVec(s.windows, PutLink), PutU32(s.active), PutOption(s.last, PutU32));
    Join(name, group + (links + (active + last)), rest);
    Join(group, links + (active + last), rest);
    Join(links, active + last, rest);
    Join(active, last, rest);
    NameRounds(s.name, group + (links + (active + (last + rest))));
    NamesRound();
    OptionRounds(s.group, IsName, PutBytes, GetName, links + (active + (last + rest)));
    LinksRound();
    NonEmptyRounds(s.windows, LinkOk, PutLink, GetLink, active + (last + rest));
    U32Rounds(s.active, last + rest);
    U32sRound();
    OptionRounds(s.last, IsU32, PutU32, GetU32, rest);
    SessionNewAdmits(s);
  }

  lemma SessionBacks(b: seq<Byte>)
    requires GetSession(b).Got?
    ensures SessionOk(GetSession(b).value)
    ensures b == PutSession(GetSession(b).value) + GetSession(b).rest
  {
    hide GetU32, PutU32, GetName, PutBytes, GetOption, PutOption, OptionOk, GetNonEmpty, PutVec, LinkOk, AllOk,
         Rounds, Backs, SessionNew, ValidSession, IsName;
    var name := GetName(b);
    var group := GetOption(GetName, name.rest);
    var links := GetNonEmpty(GetLink, group.rest);
    var active := GetU32(links.rest);
    var last := GetOption(GetU32, active.rest);
    var s := Session(name.value, group.value, links.value, active.value, last.value);
    SessionNewAdmits(s);
    assert GetSession(b) == Got(s, last.rest);
    NameBacks(b);
    NamesRound();
    OptionBacks(IsName, PutBytes, GetName, name.rest);
    LinksRound();
    NonEmptyBacks(LinkOk, PutLink, GetLink, group.rest);
    U32Backs(links.rest);
    U32sRound();
    OptionBacks(IsU32, PutU32, GetU32, active.rest);
    var (n, g) := (PutBytes(s.name), PutOption(s.group, PutBytes));
    var (w, a, l) := (PutVec(s.windows, PutLink), PutU32(s.active), PutOption(s.last, PutU32));
    Join(n, g + (w + (a + l)), last.rest);
    Join(g, w + (a + l), last.rest);
    Join(w, a + l, last.rest);
    Join(a, l, last.rest);
  }

  predicate IsClient(c: Client) { IsName(c.name) && IsName(c.session) }

  function PutClient(c: Client): seq<Byte> { PutBytes(c.name) + PutBytes(c.session) }

  function GetClient(b: seq<Byte>): (r: Read<Client>) {
    var (name, rest) :- GetName(b);
    var (session, rest) :- GetName(rest);
    Got(Client(name, session), rest)
  }

  lemma ClientsRound()
    ensures Rounds(IsClient, PutClient, GetClient) && Backs(IsClient, PutClient, GetClient)
  {
    hide GetName, PutBytes, IsName;
    forall c: Client, rest: seq<Byte> | IsClient(c) ensures GetClient(PutClient(c) + rest) == Got(c, rest) {
      Join(PutBytes(c.name), PutBytes(c.session), rest);
      NameRounds(c.name, PutBytes(c.session) + rest);
      NameRounds(c.session, rest);
    }
    forall b: seq<Byte> | GetClient(b).Got?
      ensures IsClient(GetClient(b).value) && b == PutClient(GetClient(b).value) + GetClient(b).rest
    {
      NameBacks(b);
      NameBacks(GetName(b).rest);
      var c := GetClient(b);
      Join(PutBytes(c.value.name), PutBytes(c.value.session), c.rest);
    }
  }

  ghost function SessionTest(): Session -> bool { s => SessionOk(s) }

  lemma SessionsRound()
    ensures Rounds(SessionTest(), PutSession, GetSession) && Backs(SessionTest(), PutSession, GetSession)
  {
    hide SessionOk, PutSession, GetSession;
    forall s: Session, rest: seq<Byte> | SessionOk(s) ensures GetSession(PutSession(s) + rest) == Got(s, rest) {
      SessionRounds(s, rest);
    }
    forall b: seq<Byte> | GetSession(b).Got?
      ensures SessionOk(GetSession(b).value) && b == PutSession(GetSession(b).value) + GetSession(b).rest
    {
      SessionBacks(b);
    }
  }

  function WindowPutter(): Window -> seq<Byte> { w => PutWindow(w) }
  function WindowGetter(blobs: Blobs): seq<Byte> -> Read<Window> { b => GetWindow(blobs, b) }
  ghost function WindowTest(blobs: Blobs): Window -> bool { w => WindowOk(blobs, w) }

  lemma WindowsRound(blobs: Blobs)
    ensures Rounds(WindowTest(blobs), WindowPutter(), WindowGetter(blobs))
    ensures Sound(blobs) ==> Backs(WindowTest(blobs), WindowPutter(), WindowGetter(blobs))
  {
    hide WindowOk, PutWindow, GetWindow, Sound;
    forall w: Window, rest: seq<Byte> | WindowOk(blobs, w) ensures GetWindow(blobs, PutWindow(w) + rest) == Got(w, rest) {
      WindowRounds(blobs, w, rest);
    }
    if Sound(blobs) {
      forall b: seq<Byte> | GetWindow(blobs, b).Got?
        ensures WindowOk(blobs, GetWindow(blobs, b).value)
             && b == PutWindow(GetWindow(blobs, b).value) + GetWindow(blobs, b).rest
      {
        WindowBacks(blobs, b);
      }
    }
  }

  function PutTouched(t: Touched): seq<Byte> {
    match t
    case Never => [0]
    case By(generation) => [1] + PutI64(generation)
  }

  function GetTouched(b: seq<Byte>): (r: Read<Touched>) {
    var (tag, rest) :- GetU8(b);
    match tag
    case 0 => Got(Never, rest)
    case 1 => var (generation, rest) :- GetI64(rest); Got(By(generation), rest)
    case _ => Bad(InvalidTag("Touched", tag))
  }

  predicate TouchedOk(t: Touched) { t.By? ==> IsI64(t.generation) }

  lemma TouchedRounds(t: Touched, rest: seq<Byte>)
    requires TouchedOk(t)
    ensures GetTouched(PutTouched(t) + rest) == Got(t, rest)
  {
    hide GetI64, PutI64;
    match t
    case Never => U8Rounds(0, rest);
    case By(generation) =>
      Join([1], PutI64(generation), rest);
      U8Rounds(1, PutI64(generation) + rest);
      I64Rounds(generation, rest);
  }

  lemma TouchedBacks(b: seq<Byte>)
    requires GetTouched(b).Got?
    ensures TouchedOk(GetTouched(b).value) && b == PutTouched(GetTouched(b).value) + GetTouched(b).rest
  {
    hide GetI64, PutI64;
    U8Backs(b);
    var tag := GetU8(b);
    if tag.value == 1 {
      I64Backs(tag.rest);
      Join([1], PutI64(GetI64(tag.rest).value), GetI64(tag.rest).rest);
    }
  }

  function PutBody(s: Snapshot): seq<Byte> {
    PutU32(s.version.major) + (PutU32(s.version.minor) + (PutTouched(s.touched)
      + (PutVec(s.windows, WindowPutter()) + (PutVec(s.sessions, PutSession) + PutVec(s.clients, PutClient)))))
  }

  /** The origin and the capture time come from the header, their one home. */
  function GetBody(blobs: Blobs, origin: Origin, capturedAt: int, b: seq<Byte>): (r: Read<Snapshot>) {
    var (major, rest) :- GetU32(b);
    var (minor, rest) :- GetU32(rest);
    var (touched, rest) :- GetTouched(rest);
    var (windows, rest) :- GetNonEmpty(WindowGetter(blobs), rest);
    var (sessions, rest) :- GetNonEmpty(GetSession, rest);
    var (clients, rest) :- GetVec(GetClient, rest);
    if rest != [] then Bad(Truncated)
    else Admit(SnapshotNew(Snapshot(origin, touched, capturedAt, Version(major, minor), windows, sessions, clients)), [])
  }

  ghost predicate BodyOk(blobs: Blobs, s: Snapshot) {
    && IsU32(s.version.major) && IsU32(s.version.minor) && TouchedOk(s.touched)
    && s.windows != [] && IsU32(|s.windows|) && AllOk(s.windows, WindowTest(blobs))
    && s.sessions != [] && IsU32(|s.sessions|) && AllOk(s.sessions, SessionTest())
    && IsU32(|s.clients|) && AllOk(s.clients, IsClient)
    && CrossValid(s)
  }

  lemma BodyRounds(blobs: Blobs, s: Snapshot)
    requires BodyOk(blobs, s)
    ensures GetBody(blobs, s.origin, s.capturedAt, PutBody(s)) == Got(s, [])
  {
    hide GetU32, PutU32, GetTouched, PutTouched, TouchedOk, GetNonEmpty, GetVec, PutVec, WindowGetter, WindowPutter,
         WindowTest, SessionTest, IsClient, AllOk, Rounds, Backs, SnapshotNew, CrossValid, Sound;
    var (major, minor, touched) := (PutU32(s.version.major), PutU32(s.version.minor), PutTouched(s.touched));
    var (windows, sessions) := (PutVec(s.windows, WindowPutter()), PutVec(s.sessions, PutSession));
    var clients := PutVec(s.clients, PutClient);
    U32Rounds(s.version.major, minor + (touched + (windows + (sessions + clients))));
    U32Rounds(s.version.minor, touched + (windows + (sessions + clients)));
    TouchedRounds(s.touched, windows + (sessions + clients));
    WindowsRound(blobs);
    NonEmptyRounds(s.windows, WindowTest(blobs), WindowPutter(), WindowGetter(blobs), sessions + clients);
    SessionsRound();
    NonEmptyRounds(s.sessions, SessionTest(), PutSession, GetSession, clients);
    ClientsRound();
    VecRounds(s.clients, IsClient, PutClient, GetClient, []);
    assert clients + [] == clients;
    SnapshotNewAdmits(s);
  }

  lemma BodyBacks(blobs: Blobs, origin: Origin, capturedAt: int, b: seq<Byte>)
    requires Sound(blobs) && GetBody(blobs, origin, capturedAt, b).Got?
    ensures var s := GetBody(blobs, origin, capturedAt, b).value;
            BodyOk(blobs, s) && s.origin == origin && s.capturedAt == capturedAt && b == PutBody(s)
  {
    hide GetU32, PutU32, GetTouched, PutTouched, TouchedOk, GetNonEmpty, GetVec, PutVec, WindowGetter, WindowPutter,
         WindowTest, SessionTest, IsClient, AllOk, Rounds, Backs, SnapshotNew, CrossValid, Sound;
    var major := GetU32(b);
    var minor := GetU32(major.rest);
    var touched := GetTouched(minor.rest);
    var windows := GetNonEmpty(WindowGetter(blobs), touched.rest);
    var sessions := GetNonEmpty(GetSession, windows.rest);
    var clients := GetVec(GetClient, sessions.rest);
    var s := Snapshot(origin, touched.value, capturedAt, Version(major.value, minor.value), windows.value,
                      sessions.value, clients.value);
    SnapshotNewAdmits(s);
    assert GetBody(blobs, origin, capturedAt, b) == Got(s, []);
    U32Backs(b);
    U32Backs(major.rest);
    TouchedBacks(minor.rest);
    WindowsRound(blobs);
    NonEmptyBacks(WindowTest(blobs), WindowPutter(), WindowGetter(blobs), touched.rest);
    SessionsRound();
    NonEmptyBacks(SessionTest(), PutSession, GetSession, windows.rest);
    ClientsRound();
    VecBacks(IsClient, PutClient, GetClient, sessions.rest);
    assert PutVec(s.clients, PutClient) + [] == PutVec(s.clients, PutClient);
  }
}
