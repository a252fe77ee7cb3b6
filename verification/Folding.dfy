/** phoenix-capture/src/fold.rs: the flat rows tmux lists, one per pane per link,
    as the graph. */
module Folding {
  import opened Wrappers
  import opened Snapshots

  datatype Row = Row(session: Text, group: Option<Text>, windowIndex: Index, windowId: Id, windowName: Text,
                     windowLayout: Text, windowActive: bool, windowLast: bool, windowZoomed: bool, made: Made,
                     paneIndex: Index, paneId: Id, panePid: nat, cwd: Cwd, paneActive: bool, indicator: Indicator)

  datatype PaneReads = PaneReads(foreground: Foreground, content: Content)

  datatype FoldError =
    | NoSessions
    | NoActiveWindow(session: Text)
    | NoActivePane(window: Id)
    | TornWindow(window: Id)
    | Invalid(why: SnapshotError)
    | ReadFailed(row: Row)

  // ---- Grouping ----

  /** The keys, in the order each was first seen. */
  function Keys<T, K(==)>(items: seq<T>, key: T -> K): (keys: seq<K>) {
    if |items| == 0 then [] else
    var before := Keys(items[..|items| - 1], key);
    var last := key(items[|items| - 1]);
    if last in before then before else before + [last]
  }

  /** The items with this key, in order. */
  function OnlyOf<T, K(==)>(items: seq<T>, key: T -> K, k: K): (group: seq<T>) {
    if |items| == 0 then [] else
    var before := OnlyOf(items[..|items| - 1], key, k);
    if key(items[|items| - 1]) == k then before + [items[|items| - 1]] else before
  }

  /** The keys are distinct, and exactly the ones that occur. */
  lemma {:induction false} KeysAre<T, K>(items: seq<T>, key: T -> K)
    ensures Distinct(Keys(items, key))
    ensures forall i :: 0 <= i < |items| ==> key(items[i]) in Keys(items, key)
    ensures forall k :: k in Keys(items, key) ==> exists i :: 0 <= i < |items| && key(items[i]) == k
  {
    if |items| > 0 {
      KeysAre(items[..|items| - 1], key);
      assert forall i :: 0 <= i < |items| - 1 ==> items[..|items| - 1][i] == items[i];
      var last := key(items[|items| - 1]);
      assert last == key(items[|items| - 1]);
    }
  }

  /** The same, of one item or one key. */
  lemma KeyIsThere<T, K>(items: seq<T>, key: T -> K, i: nat)
    requires i < |items|
    ensures key(items[i]) in Keys(items, key)
  {
    KeysAre(items, key);
  }

  lemma KeyHasItem<T, K>(items: seq<T>, key: T -> K, k: K) returns (i: nat)
    requires k in Keys(items, key)
    ensures i < |items| && key(items[i]) == k
  {
    KeysAre(items, key);
    i :| 0 <= i < |items| && key(items[i]) == k;
  }

  lemma KeysAreDistinct<T, K>(items: seq<T>, key: T -> K)
    ensures Distinct(Keys(items, key))
  {
    KeysAre(items, key);
  }

  /** A group holds exactly the items with its key. */
  lemma {:induction false} OnlyOfIs<T, K>(items: seq<T>, key: T -> K, k: K)
    ensures forall item :: item in OnlyOf(items, key, k) <==> item in items && key(item) == k
    ensures k in Keys(items, key) ==> |OnlyOf(items, key, k)| > 0
  {
    if |items| > 0 {
      OnlyOfIs(items[..|items| - 1], key, k);
      assert items == items[..|items| - 1] + [items[|items| - 1]];
    }
  }

  /** These are the groups of the items, each under its key. */
  ghost predicate Grouped<T, K>(groups: seq<(K, seq<T>)>, items: seq<T>, key: T -> K) {
    && |groups| == |Keys(items, key)|
    && forall i :: 0 <= i < |groups| ==> groups[i] == (Keys(items, key)[i], OnlyOf(items, key, Keys(items, key)[i]))
  }

  /** Items into their groups, one at a time. */
  method GroupBy<T, K(==)>(items: seq<T>, key: T -> K) returns (groups: seq<(K, seq<T>)>)
    ensures Grouped(groups, items, key)
  {
    hide Grouped;
    groups := [];
    GroupedNone(key);
    for n := 0 to |items|
      invariant Grouped(groups, items[..n], key)
    {
      var k := key(items[n]);
      assert items[..n + 1] == items[..n] + [items[n]];
      var at := 0;
      while at < |groups| && groups[at].0 != k
        invariant at <= |groups|
        invariant forall i :: 0 <= i < at ==> groups[i].0 != k
      {
        at := at + 1;
      }
      if at < |groups| {
        GroupedOld(groups, items[..n], items[n], key, at);
        groups := groups[at := (k, groups[at].1 + [items[n]])];
      } else {
        GroupedNew(groups, items[..n], items[n], key);
        groups := groups + [(k, [items[n]])];
      }
    }
    assert items[..|items|] == items;
  }

  lemma GroupedNone<T, K>(key: T -> K)
    ensures Grouped<T, K>([], [], key)
  {}

  lemma GroupedOld<T, K>(groups: seq<(K, seq<T>)>, items: seq<T>, item: T, key: T -> K, at: nat)
    requires Grouped(groups, items, key) && at < |groups| && groups[at].0 == key(item)
    ensures Grouped(groups[at := (key(item), groups[at].1 + [item])], items + [item], key)
  {
    hide Keys, OnlyOf;
    GroupsGrow(items, item, key);
    KeysAre(items, key);
    assert Keys(items, key)[at] == key(item);
  }

  lemma GroupedNew<T, K>(groups: seq<(K, seq<T>)>, items: seq<T>, item: T, key: T -> K)
    requires Grouped(groups, items, key) && forall i :: 0 <= i < |groups| ==> groups[i].0 != key(item)
    ensures Grouped(groups + [(key(item), [item])], items + [item], key)
  {
    hide Keys, OnlyOf;
    GroupsGrow(items, item, key);
    assert forall i :: 0 <= i < |groups| ==> Keys(items, key)[i] == groups[i].0;
    assert key(item) !in Keys(items, key);
    OnlyOfNone(items, key, key(item));
    var now := groups + [(key(item), [item])];
    assert Keys(items + [item], key) == Keys(items, key) + [key(item)];
    forall i | 0 <= i < |now|
      ensures now[i] == (Keys(items + [item], key)[i], OnlyOf(items + [item], key, Keys(items + [item], key)[i]))
    {
      if i == |groups| {
        assert OnlyOf(items + [item], key, key(item)) == [] + [item] == [item];
      } else {
        assert Keys(items + [item], key)[i] == Keys(items, key)[i] == groups[i].0;
      }
    }
  }

  lemma GroupsGrow<T, K>(items: seq<T>, item: T, key: T -> K)
    ensures Keys(items + [item], key) == if key(item) in Keys(items, key) then Keys(items, key) else Keys(items, key) + [key(item)]
    ensures forall k :: OnlyOf(items + [item], key, k)
                     == if key(item) == k then OnlyOf(items, key, k) + [item] else OnlyOf(items, key, k)
  {
    assert (items + [item])[..|items|] == items;
  }

  lemma {:induction false} OnlyOfNone<T, K>(items: seq<T>, key: T -> K, k: K)
    requires k !in Keys(items, key)
    ensures OnlyOf(items, key, k) == []
  {
    if |items| > 0 {
      OnlyOfNone(items[..|items| - 1], key, k);
      KeysAre(items, key);
    }
  }

  // ---- A session ----

  function SessionOf(r: Row): Text { r.session }
  function WindowOf(r: Row): Id { r.windowId }
  function IndexOf(r: Row): Index { r.windowIndex }
  function PaneOf(r: Row): Id { r.paneId }
  function LinkOf(r: Row): (Text, Index) { (r.session, r.windowIndex) }

  /** The link an index's rows make: its first row names the window. */
  function LinkAt(rows: seq<Row>, index: Index): WinLink
    requires index in Keys(rows, IndexOf)
  {
    OnlyOfIs(rows, IndexOf, index);
    WinLink(index, OnlyOf(rows, IndexOf, index)[0].windowId)
  }

  function LinksAt(rows: seq<Row>, indices: seq<Index>): (links: seq<WinLink>)
    requires forall i :: 0 <= i < |indices| ==> indices[i] in Keys(rows, IndexOf)
  {
    seq(|indices|, i requires 0 <= i < |indices| => LinkAt(rows, indices[i]))
  }

  /** The last index whose first row carries the flag. */
  function LastFlagged(rows: seq<Row>, indices: seq<Index>, flag: Row -> bool): (at: Option<Index>)
    requires forall i :: 0 <= i < |indices| ==> indices[i] in Keys(rows, IndexOf)
    ensures at.Some? ==> at.value in indices
    decreases |indices|
  {
    if |indices| == 0 then None else
    var index := indices[|indices| - 1];
    OnlyOfIs(rows, IndexOf, index);
    if flag(OnlyOf(rows, IndexOf, index)[0]) then Some(index) else LastFlagged(rows, indices[..|indices| - 1], flag)
  }

  function IsActive(r: Row): bool { r.windowActive }
  function IsLast(r: Row): bool { r.windowLast }

  function FoldedSession(rows: seq<Row>): (r: Result<Session, FoldError>)
    requires |rows| > 0
  {
    var indices := Keys(rows, IndexOf);
    KeysAre(rows, IndexOf);
    var active := LastFlagged(rows, indices, IsActive);
    if active.None? then Err(NoActiveWindow(rows[0].session)) else
    var s := Session(rows[0].session, rows[0].group, LinksAt(rows, indices), active.value,
                     LastFlagged(rows, indices, IsLast));
    match SessionNew(s)
    case Ok(session) => Ok(session)
    case Err(why) => Err(Invalid(why))
  }

  /** Each index's rows in turn, updating the links and the two flags. */
  method FoldSession(rows: seq<Row>) returns (r: Result<Session, FoldError>)
    requires |rows| > 0
    ensures r == FoldedSession(rows)
  {
    hide Keys, OnlyOf, SessionNew;
    var groups := GroupBy(rows, IndexOf);
    ghost var indices := Keys(rows, IndexOf);
    KeysAre(rows, IndexOf);
    assert indices[..0] == [];
    var links: seq<WinLink> := [];
    var active, last: Option<Index> := None, None;
    for i := 0 to |groups|
      invariant links == LinksAt(rows, indices[..i])
      invariant active == LastFlagged(rows, indices[..i], IsActive)
      invariant last == LastFlagged(rows, indices[..i], IsLast)
    {
      assert indices[..i + 1][..i] == indices[..i];
      var index: Index, group: seq<Row> := groups[i].0, groups[i].1;
      OnlyOfIs(rows, IndexOf, index);
      if group[0].windowActive { active := Some(index); }
      if group[0].windowLast { last := Some(index); }
      links := links + [WinLink(index, group[0].windowId)];
    }
    assert indices[..|indices|] == indices;
    if active.None? {
      return Err(NoActiveWindow(rows[0].session));
    }
    var made := SessionNew(Session(rows[0].session, rows[0].group, links, active.value, last));
    match made {
      case Ok(session) => return Ok(session);
      case Err(why) => return Err(Invalid(why));
    }
  }

  // ---- A window ----

  /** The counting test: every pane is listed as often as there are links. */
  predicate EachListed(rows: seq<Row>) {
    var panes := Keys(rows, PaneOf);
    forall i :: 0 <= i < |panes| ==> |OnlyOf(rows, PaneOf, panes[i])| == |Keys(rows, LinkOf)|
  }

  /** What reading a pane gave, asked of its first row. */
  type Reading = Row -> Result<PaneReads, FoldError>

  function PaneFrom(row: Row, reads_: PaneReads): Pane {
    Pane(row.paneId, row.paneIndex, row.cwd, reads_.foreground, reads_.content)
  }

  function FirstRow(rows: seq<Row>, pane: Id): (row: Row)
    requires pane in Keys(rows, PaneOf)
    ensures row in rows && row.paneId == pane
  {
    OnlyOfIs(rows, PaneOf, pane);
    assert OnlyOf(rows, PaneOf, pane)[0] in OnlyOf(rows, PaneOf, pane);
    OnlyOf(rows, PaneOf, pane)[0]
  }

  /** The panes read in turn, stopping at the first that cannot be. */
  function PanesRead(rows: seq<Row>, ids: seq<Id>, read: Reading): (r: Result<seq<Pane>, FoldError>)
    requires forall i :: 0 <= i < |ids| ==> ids[i] in Keys(rows, PaneOf)
    ensures r.Ok? ==> |r.value| == |ids|
    decreases |ids|
  {
    if |ids| == 0 then Ok([]) else
    match PanesRead(rows, ids[..|ids| - 1], read)
    case Err(e) => Err(e)
    case Ok(panes) =>
      var row := FirstRow(rows, ids[|ids| - 1]);
      match read(row)
      case Err(e) => Err(e)
      case Ok(got) => Ok(panes + [PaneFrom(row, got)])
  }

  /** The pane index of the last pane whose first row is flagged active. */
  function ActivePane(rows: seq<Row>, ids: seq<Id>): Option<Index>
    requires forall i :: 0 <= i < |ids| ==> ids[i] in Keys(rows, PaneOf)
    decreases |ids|
  {
    if |ids| == 0 then None else
    var row := FirstRow(rows, ids[|ids| - 1]);
    if row.paneActive then Some(row.paneIndex) else ActivePane(rows, ids[..|ids| - 1])
  }

  function FoldedWindow(rows: seq<Row>, read: Reading): (r: Result<Window, FoldError>)
    requires |rows| > 0
  {
    var ids := Keys(rows, PaneOf);
    KeysAre(rows, PaneOf);
    assert |ids| > 0 by { assert PaneOf(rows[0]) in ids; }
    if !EachListed(rows) then Err(TornWindow(rows[0].windowId)) else
    match PanesRead(rows, ids, read)
    case Err(e) => Err(e)
    case Ok(panes) =>
      var active := ActivePane(rows, ids);
      if active.None? then Err(NoActivePane(rows[0].windowId)) else
      var first := FirstRow(rows, ids[0]);
      var w := Window(rows[0].windowId, first.made, first.windowName, first.windowLayout, first.windowZoomed, panes,
                      active.value);
      match WindowNew(w)
      case Ok(window) => Ok(window)
      case Err(why) => Err(Invalid(why))
  }

  /** Each pane once, by its first row: `asked` are those rows, in order. */
  method ReadPanes(rows: seq<Row>, groups: seq<(Id, seq<Row>)>, read: Reading)
    returns (panes: Result<seq<Pane>, FoldError>, active: Option<Index>, asked: seq<Row>)
    requires Grouped(groups, rows, PaneOf) && forall i :: 0 <= i < |groups| ==> groups[i].0 in Keys(rows, PaneOf)
    ensures panes == PanesRead(rows, Keys(rows, PaneOf), read)
    ensures panes.Ok? ==> active == ActivePane(rows, Keys(rows, PaneOf)) && |asked| == |groups|
    ensures |asked| <= |groups| && forall i :: 0 <= i < |asked| ==> asked[i] == FirstRow(rows, groups[i].0)
  {
    hide Keys, OnlyOf, PaneFrom, PanesRead, ActivePane;
    NoPanesYet(rows, read);
    ghost var ids := Keys(rows, PaneOf);
    assert forall i :: 0 <= i < |ids| ==> ids[i] == groups[i].0;
    assert ids[..0] == [];
    active, asked := None, [];
    var done: seq<Pane> := [];
    for i := 0 to |groups|
      invariant PanesRead(rows, ids[..i], read) == Ok(done)
      invariant active == ActivePane(rows, ids[..i])
      invariant |asked| == i && forall k :: 0 <= k < i ==> asked[k] == FirstRow(rows, groups[k].0)
    {
      assert ids[..i + 1] == ids[..i] + [ids[i]];
      NextPane(rows, ids[..i], ids[i], read);
      OnlyOfIs(rows, PaneOf, ids[i]);
      var row: Row := groups[i].1[0];
      assert row == FirstRow(rows, ids[i]);
      if row.paneActive { active := Some(row.paneIndex); }
      asked := asked + [row];
      var got := read(row);
      if got.Err? {
        ReadStops(rows, ids, i + 1, read, got.error);
        return Err(got.error), active, asked;
      }
      done := done + [PaneFrom(row, got.value)];
    }
    assert ids[..|ids|] == ids;
    panes := Ok(done);
  }

  lemma NoPanesYet(rows: seq<Row>, read: Reading)
    ensures PanesRead(rows, [], read) == Ok([]) && ActivePane(rows, []) == None
  {}

  lemma NextPane(rows: seq<Row>, ids: seq<Id>, id: Id, read: Reading)
    requires id in Keys(rows, PaneOf) && forall i :: 0 <= i < |ids| ==> ids[i] in Keys(rows, PaneOf)
    requires PanesRead(rows, ids, read).Ok?
    ensures var row := FirstRow(rows, id);
            && PanesRead(rows, ids + [id], read)
               == (match read(row)
                   case Err(e) => Err(e)
                   case Ok(got) => Ok(PanesRead(rows, ids, read).value + [PaneFrom(row, got)]))
            && ActivePane(rows, ids + [id]) == if row.paneActive then Some(row.paneIndex) else ActivePane(rows, ids)
  {
    hide Keys, OnlyOf;
    assert (ids + [id])[..|ids|] == ids;
  }

  method FoldWindow(rows: seq<Row>, read: Reading) returns (r: Result<Window, FoldError>, asked: seq<Row>)
    requires |rows| > 0
    ensures r == FoldedWindow(rows, read)
    ensures |asked| <= |Keys(rows, PaneOf)|
    ensures forall i :: 0 <= i < |asked| ==> asked[i] in rows && asked[i].paneId == Keys(rows, PaneOf)[i]
    ensures r.Ok? ==> |asked| == |Keys(rows, PaneOf)|
  {
    hide Keys, OnlyOf, WindowNew, PanesRead, ActivePane;
    asked := [];
    var id := rows[0].windowId;
    var links := GroupBy(rows, LinkOf);
    var groups := GroupBy(rows, PaneOf);
    KeysAre(rows, PaneOf);
    assert PaneOf(rows[0]) in Keys(rows, PaneOf);
    EachListedIs(rows, groups, |links|);
    if exists i :: 0 <= i < |groups| && |groups[i].1| != |links| {
      return Err(TornWindow(id)), [];
    }
    var panes, active;
    panes, active, asked := ReadPanes(rows, groups, read);
    if panes.Err? {
      return Err(panes.error), asked;
    }
    if active.None? {
      return Err(NoActivePane(id)), asked;
    }
    var first := asked[0];
    var made := WindowNew(Window(id, first.made, first.windowName, first.windowLayout, first.windowZoomed,
                                 panes.value, active.value));
    match made {
      case Ok(window) => r := Ok(window);
      case Err(why) => r := Err(Invalid(why));
    }
  }

  lemma EachListedIs(rows: seq<Row>, groups: seq<(Id, seq<Row>)>, links: nat)
    requires Grouped(groups, rows, PaneOf) && links == |Keys(rows, LinkOf)|
    ensures EachListed(rows) <==> !exists i :: 0 <= i < |groups| && |groups[i].1| != links
  {
    hide Keys, OnlyOf;
    var panes := Keys(rows, PaneOf);
    if EachListed(rows) {
      assert forall i :: 0 <= i < |groups| ==> groups[i].1 == OnlyOf(rows, PaneOf, panes[i]);
    } else {
      var i :| 0 <= i < |panes| && |OnlyOf(rows, PaneOf, panes[i])| != links;
      assert groups[i].1 == OnlyOf(rows, PaneOf, panes[i]);
    }
  }

  lemma {:induction false} ReadStops(rows: seq<Row>, ids: seq<Id>, n: nat, read: Reading, e: FoldError)
    requires n <= |ids| && forall i :: 0 <= i < |ids| ==> ids[i] in Keys(rows, PaneOf)
    requires PanesRead(rows, ids[..n], read) == Err(e)
    ensures PanesRead(rows, ids, read) == Err(e)
    decreases |ids|
  {
    if n < |ids| {
      assert ids[..|ids| - 1][..n] == ids[..n];
      ReadStops(rows, ids[..|ids| - 1], n, read, e);
    } else {
      assert ids[..n] == ids;
    }
  }
}
