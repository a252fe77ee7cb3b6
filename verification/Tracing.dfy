/** phoenix-capture/src/fold.rs, read off the rows alone: which row each part of a
    folded session and of a folded window comes from, and when there is neither. */
module Tracing {
  import opened Wrappers
  import opened Snapshots
  import opened Folding
  import opened Gathering

  // ---- Where the groups are ----

  ghost predicate Increasing(at: seq<nat>) {
    forall i, j :: 0 <= i < j < |at| ==> at[i] < at[j]
  }

  /** Where a group's items stand: every item with its key, in order. */
  lemma {:induction false} GroupStands<T, K>(items: seq<T>, key: T -> K, k: K) returns (at: seq<nat>)
    ensures |at| == |OnlyOf(items, key, k)| && Increasing(at)
    ensures forall j :: 0 <= j < |at| ==> at[j] < |items| && OnlyOf(items, key, k)[j] == items[at[j]]
    ensures forall i: nat :: i < |items| ==> (key(items[i]) == k <==> i in at)
  {
    if |items| == 0 {
      at := [];
    } else {
      at := GroupStands(items[..|items| - 1], key, k);
      forall i: nat | i < |items| - 1 ensures key(items[i]) == k <==> i in at {
        assert items[..|items| - 1][i] == items[i];
      }
      if key(items[|items| - 1]) == k {
        OneMoreStands(at, |items| - 1);
        at := at + [|items| - 1];
      }
    }
  }

  lemma OneMoreStands(at: seq<nat>, last: nat)
    requires Increasing(at) && forall j :: 0 <= j < |at| ==> at[j] < last
    ensures Increasing(at + [last])
    ensures forall i: nat :: i in at + [last] <==> i in at || i == last
  {
  }

  ghost predicate First<T(!new), K(!new)>(items: seq<T>, key: T -> K, p: nat) {
    p < |items| && forall q: nat :: q < p ==> key(items[q]) != key(items[p])
  }

  ghost predicate StandAt<T(!new), K(!new)>(items: seq<T>, key: T -> K, keys: seq<K>, firsts: seq<nat>) {
    && |firsts| == |keys| && Increasing(firsts)
    && (forall j :: 0 <= j < |firsts| ==> First(items, key, firsts[j]) && key(items[firsts[j]]) == keys[j])
    && forall p: nat :: First(items, key, p) ==> p in firsts
  }

  lemma FirstStays<T(!new), K(!new)>(items: seq<T>, item: T, key: T -> K, p: nat)
    requires p < |items|
    ensures First(items + [item], key, p) <==> First(items, key, p)
  {
    var more := items + [item];
    assert more[p] == items[p];
    assert forall q: nat :: q < p ==> more[q] == items[q];
  }

  lemma SeenBefore<T(!new), K(!new)>(items: seq<T>, item: T, key: T -> K, firsts: seq<nat>)
    requires StandAt(items, key, Keys(items, key), firsts) && key(item) in Keys(items, key)
    ensures StandAt(items + [item], key, Keys(items, key), firsts)
  {
    hide First, Keys;
    var i := KeyHasItem(items, key, key(item));
    forall p: nat ensures First(items + [item], key, p) <==> First(items, key, p) {
      if p < |items| { FirstStays(items, item, key, p); }
      else { NotFirst(items + [item], key, i, p); BeyondIsNotFirst(items, key, p); }
    }
    forall j | 0 <= j < |firsts| ensures First(items + [item], key, firsts[j]) && firsts[j] < |items| {
      assert First(items, key, firsts[j]);
      if |items| <= firsts[j] { BeyondIsNotFirst(items, key, firsts[j]); }
    }
  }

  lemma NotFirst<T(!new), K(!new)>(items: seq<T>, key: T -> K, q: nat, p: nat)
    requires q < p && q < |items| && (p < |items| ==> key(items[q]) == key(items[p]))
    ensures !First(items, key, p)
  {}

  lemma BeyondIsNotFirst<T(!new), K(!new)>(items: seq<T>, key: T -> K, p: nat)
    requires |items| <= p
    ensures !First(items, key, p)
  {}

  lemma SeenNow<T(!new), K(!new)>(items: seq<T>, item: T, key: T -> K, firsts: seq<nat>)
    requires StandAt(items, key, Keys(items, key), firsts) && key(item) !in Keys(items, key)
    ensures StandAt(items + [item], key, Keys(items, key) + [key(item)], firsts + [|items|])
  {
    hide First, Keys;
    var now := firsts + [|items|];
    assert First(items + [item], key, |items|) by { IsFirst(items, item, key); }
    forall j | 0 <= j < |firsts| ensures First(items + [item], key, firsts[j]) && firsts[j] < |items| {
      if |items| <= firsts[j] { BeyondIsNotFirst(items, key, firsts[j]); }
      FirstStays(items, item, key, firsts[j]);
    }
    forall p: nat | First(items + [item], key, p) ensures p in now {
      if p < |items| { FirstStays(items, item, key, p); }
      else {
        if |items| < p { BeyondIsNotFirst(items + [item], key, p); }
        assert now[|firsts|] == p;
      }
    }
  }

  lemma IsFirst<T(!new), K(!new)>(items: seq<T>, item: T, key: T -> K)
    requires key(item) !in Keys(items, key)
    ensures First(items + [item], key, |items|)
  {
    KeysAre(items, key);
  }

  /** Where each key was first seen. */
  lemma {:induction false} KeysStand<T(!new), K(!new)>(items: seq<T>, key: T -> K) returns (firsts: seq<nat>)
    ensures StandAt(items, key, Keys(items, key), firsts)
  {
    hide StandAt;
    if |items| == 0 {
      firsts := [];
      NoneStand(items, key);
    } else {
      var init, last := items[..|items| - 1], items[|items| - 1];
      assert items == init + [last];
      firsts := KeysStand(init, key);
      if key(last) in Keys(init, key) {
        SeenBefore(init, last, key, firsts);
      } else {
        SeenNow(init, last, key, firsts);
        firsts := firsts + [|init|];
      }
    }
  }

  lemma NoneStand<T(!new), K(!new)>(items: seq<T>, key: T -> K)
    requires items == []
    ensures StandAt(items, key, [], [])
  {}

  lemma StandWithin<T(!new), K(!new)>(items: seq<T>, key: T -> K, keys: seq<K>, firsts: seq<nat>)
    requires StandAt(items, key, keys, firsts)
    ensures forall j :: 0 <= j < |firsts| ==> firsts[j] < |items|
  {
    forall j | 0 <= j < |firsts| ensures First(items, key, firsts[j]) {}
  }

  /** A group's first item is the first item with its key. */
  lemma GroupLead<T(!new), K(!new)>(items: seq<T>, key: T -> K, p: nat)
    requires First(items, key, p)
    ensures |OnlyOf(items, key, key(items[p]))| > 0 && OnlyOf(items, key, key(items[p]))[0] == items[p]
  {
    var at := GroupStands(items, key, key(items[p]));
    var j :| 0 <= j < |at| && at[j] == p;
    assert at[0] in at;
    assert at[0] <= at[j];
  }

  // ---- A session ----

  /** The first row at its index. */
  ghost predicate Opens(rows: seq<Row>, p: nat) {
    p < |rows| && forall q: nat :: q < p ==> rows[q].windowIndex != rows[p].windowIndex
  }

  /** The last flag set among the first `n` indices' first rows. */
  ghost predicate LatestFlag(rows: seq<Row>, opens: seq<nat>, n: nat, flag: Row -> bool, at: Option<Index>)
    requires n <= |opens| && forall j :: 0 <= j < |opens| ==> opens[j] < |rows|
  {
    match at
    case None => forall j :: 0 <= j < n ==> !flag(rows[opens[j]])
    case Some(index) =>
      exists j :: 0 <= j < n && flag(rows[opens[j]]) && rows[opens[j]].windowIndex == index
                  && forall k :: j < k < n ==> !flag(rows[opens[k]])
  }

  lemma {:induction false} LastFlaggedIs(rows: seq<Row>, indices: seq<Index>, opens: seq<nat>, n: nat, flag: Row -> bool)
    requires n <= |indices| && StandAt(rows, IndexOf, indices, opens)
    requires forall i :: 0 <= i < |indices| ==> indices[i] in Keys(rows, IndexOf)
    ensures LatestFlag(rows, opens, n, flag, LastFlagged(rows, indices[..n], flag))
    decreases n
  {
    hide Keys, OnlyOf, StandAt, LatestFlag;
    StandLeads(rows, indices, opens);
    if n == 0 {
      NoFlagYet(rows, opens, flag);
    } else {
      assert indices[..n][..n - 1] == indices[..n - 1];
      LastFlaggedIs(rows, indices, opens, n - 1, flag);
      NextFlag(rows, opens, n, flag, LastFlagged(rows, indices[..n - 1], flag));
    }
  }

  lemma StandLeads(rows: seq<Row>, indices: seq<Index>, opens: seq<nat>)
    requires StandAt(rows, IndexOf, indices, opens)
    ensures |opens| == |indices|
    ensures forall j :: 0 <= j < |opens| ==>
              && opens[j] < |rows| && |OnlyOf(rows, IndexOf, indices[j])| > 0
              && OnlyOf(rows, IndexOf, indices[j])[0] == rows[opens[j]] && rows[opens[j]].windowIndex == indices[j]
  {
    hide OnlyOf, First;
    forall j | 0 <= j < |opens|
      ensures && opens[j] < |rows| && |OnlyOf(rows, IndexOf, indices[j])| > 0
              && OnlyOf(rows, IndexOf, indices[j])[0] == rows[opens[j]] && rows[opens[j]].windowIndex == indices[j]
    {
      assert First(rows, IndexOf, opens[j]);
      if |rows| <= opens[j] { BeyondIsNotFirst(rows, IndexOf, opens[j]); }
      GroupLead(rows, IndexOf, opens[j]);
    }
  }

  lemma NoFlagYet(rows: seq<Row>, opens: seq<nat>, flag: Row -> bool)
    requires forall j :: 0 <= j < |opens| ==> opens[j] < |rows|
    ensures LatestFlag(rows, opens, 0, flag, None)
  {}

  lemma NextFlag(rows: seq<Row>, opens: seq<nat>, n: nat, flag: Row -> bool, before: Option<Index>)
    requires 0 < n <= |opens| && forall j :: 0 <= j < |opens| ==> opens[j] < |rows|
    requires LatestFlag(rows, opens, n - 1, flag, before)
    ensures var row := rows[opens[n - 1]];
            LatestFlag(rows, opens, n, flag, if flag(row) then Some(row.windowIndex) else before)
  {
    if !flag(rows[opens[n - 1]]) && before.Some? {
      var j :| 0 <= j < n - 1 && flag(rows[opens[j]]) && rows[opens[j]].windowIndex == before.value
               && forall k :: j < k < n - 1 ==> !flag(rows[opens[k]]);
      assert forall k :: j < k < n ==> !flag(rows[opens[k]]);
    }
  }

  /** A fold of a session's rows takes each link from the first row at its index, in
      the order those rows come; its active and last windows are where the latest of
      them is so flagged, and it fails only when none is flagged active. */
  lemma SessionFromRows(rows: seq<Row>) returns (opens: seq<nat>)
    requires |rows| > 0
    ensures Increasing(opens) && forall p: nat :: p in opens <==> Opens(rows, p)
    ensures FoldedSession(rows).Err? ==> FoldedSession(rows) == Err(NoActiveWindow(rows[0].session))
    ensures FoldedSession(rows).Err? <==> forall p: nat :: Opens(rows, p) ==> !rows[p].windowActive
    ensures FoldedSession(rows).Ok? ==>
              var s := FoldedSession(rows).value;
              && s.name == rows[0].session && s.group == rows[0].group
              && |s.windows| == |opens|
              && (forall j :: 0 <= j < |opens| ==>
                    opens[j] < |rows| && s.windows[j] == WinLink(rows[opens[j]].windowIndex, rows[opens[j]].windowId))
              && (exists p: nat :: Opens(rows, p) && rows[p].windowActive && rows[p].windowIndex == s.active
                            && forall q: nat :: Opens(rows, q) && rows[q].windowActive ==> q <= p)
              && (s.last.None? ==> forall p: nat :: Opens(rows, p) ==> !rows[p].windowLast)
              && (s.last.Some? ==>
                    exists p: nat :: Opens(rows, p) && rows[p].windowLast && rows[p].windowIndex == s.last.value
                           && forall q: nat :: Opens(rows, q) && rows[q].windowLast ==> q <= p)
  {
    hide Keys, OnlyOf, StandAt, LatestFlag, LastFlagged, SessionNew, LinkAt, FoldedSession;
    var indices := Keys(rows, IndexOf);
    KeysAre(rows, IndexOf);
    opens := KeysStand(rows, IndexOf);
    OpensAre(rows, indices, opens);
    assert indices[..|indices|] == indices;
    LastFlaggedIs(rows, indices, opens, |indices|, IsActive);
    LastFlaggedIs(rows, indices, opens, |indices|, IsLast);
    var active := LastFlagged(rows, indices, IsActive);
    var last := LastFlagged(rows, indices, IsLast);
    FlaggedActive(rows, opens, active);
    FlaggedLast(rows, opens, last);
    LinksFromRows(rows, indices, opens);
    SessionMade(rows);
  }

  lemma OpensAre(rows: seq<Row>, indices: seq<Index>, opens: seq<nat>)
    requires StandAt(rows, IndexOf, indices, opens)
    ensures Increasing(opens) && forall p: nat :: p in opens <==> Opens(rows, p)
    ensures |opens| == |indices| && forall j :: 0 <= j < |opens| ==> opens[j] < |rows| && rows[opens[j]].windowIndex == indices[j]
  {
    forall p: nat ensures Opens(rows, p) <==> First(rows, IndexOf, p) {}
    forall j | 0 <= j < |opens| ensures First(rows, IndexOf, opens[j]) {}
  }

  lemma LinksFromRows(rows: seq<Row>, indices: seq<Index>, opens: seq<nat>)
    requires StandAt(rows, IndexOf, indices, opens)
    requires forall i :: 0 <= i < |indices| ==> indices[i] in Keys(rows, IndexOf)
    ensures forall j :: 0 <= j < |opens| ==>
              opens[j] < |rows| && LinksAt(rows, indices)[j] == WinLink(rows[opens[j]].windowIndex, rows[opens[j]].windowId)
  {
    hide Keys, OnlyOf, StandAt;
    StandLeads(rows, indices, opens);
  }

  lemma FlaggedActive(rows: seq<Row>, opens: seq<nat>, at: Option<Index>)
    requires Increasing(opens) && forall p: nat :: p in opens <==> Opens(rows, p)
    requires forall j :: 0 <= j < |opens| ==> opens[j] < |rows|
    requires LatestFlag(rows, opens, |opens|, IsActive, at)
    ensures at.None? <==> forall p: nat :: Opens(rows, p) ==> !rows[p].windowActive
    ensures at.Some? ==>
              exists p: nat :: Opens(rows, p) && rows[p].windowActive && rows[p].windowIndex == at.value
                     && forall q: nat :: Opens(rows, q) && rows[q].windowActive ==> q <= p
  {
    if at.Some? {
      var j :| 0 <= j < |opens| && IsActive(rows[opens[j]]) && rows[opens[j]].windowIndex == at.value
               && forall k :: j < k < |opens| ==> !IsActive(rows[opens[k]]);
      assert Opens(rows, opens[j]);
    }
  }

  lemma FlaggedLast(rows: seq<Row>, opens: seq<nat>, at: Option<Index>)
    requires Increasing(opens) && forall p: nat :: p in opens <==> Opens(rows, p)
    requires forall j :: 0 <= j < |opens| ==> opens[j] < |rows|
    requires LatestFlag(rows, opens, |opens|, IsLast, at)
    ensures at.None? <==> forall p: nat :: Opens(rows, p) ==> !rows[p].windowLast
    ensures at.Some? ==>
              exists p: nat :: Opens(rows, p) && rows[p].windowLast && rows[p].windowIndex == at.value
                     && forall q: nat :: Opens(rows, q) && rows[q].windowLast ==> q <= p
  {
    if at.Some? {
      var j :| 0 <= j < |opens| && IsLast(rows[opens[j]]) && rows[opens[j]].windowIndex == at.value
               && forall k :: j < k < |opens| ==> !IsLast(rows[opens[k]]);
      assert Opens(rows, opens[j]);
    }
  }

  /** The session a fold has gathered is one `Session::new` takes as it is. */
  lemma SessionMade(rows: seq<Row>)
    requires |rows| > 0
    ensures forall i :: 0 <= i < |Keys(rows, IndexOf)| ==> Keys(rows, IndexOf)[i] in Keys(rows, IndexOf)
    ensures var indices := Keys(rows, IndexOf);
            var active := LastFlagged(rows, indices, IsActive);
            FoldedSession(rows)
            == if active.None? then Err(NoActiveWindow(rows[0].session))
               else Ok(Session(rows[0].session, rows[0].group, LinksAt(rows, indices), active.value,
                               LastFlagged(rows, indices, IsLast)))
  {
    hide Keys, OnlyOf, LastFlagged, SessionNew;
    var indices := Keys(rows, IndexOf);
    KeysAre(rows, IndexOf);
    assert IndexOf(rows[0]) in indices;
    var active := LastFlagged(rows, indices, IsActive);
    if active.Some? {
      var s := Session(rows[0].session, rows[0].group, LinksAt(rows, indices), active.value, LastFlagged(rows, indices, IsLast));
      forall index | index in indices ensures HasIndex(s.windows, index) {
        var i :| 0 <= i < |indices| && indices[i] == index;
        assert s.windows[i].index == index;
      }
      SessionNewAdmits(s);
    }
  }

  // ---- A window ----

  /** The first row of its pane. */
  ghost predicate Shows(rows: seq<Row>, p: nat) {
    p < |rows| && forall q: nat :: q < p ==> rows[q].paneId != rows[p].paneId
  }

  ghost predicate InRange(rows: seq<Row>, shows: seq<nat>) {
    forall j :: 0 <= j < |shows| ==> shows[j] < |rows|
  }

  /** The pane a row and its reading make. */
  ghost predicate PaneIs(pane: Pane, row: Row, read: Reading) {
    read(row).Ok? && pane == Pane(row.paneId, row.paneIndex, row.cwd, read(row).value.foreground, read(row).value.content)
  }

  /** What reading the first `n` panes in turn comes to. */
  ghost predicate ReadInTurn(rows: seq<Row>, shows: seq<nat>, n: nat, read: Reading, r: Result<seq<Pane>, FoldError>)
    requires n <= |shows| && InRange(rows, shows)
  {
    match r
    case Ok(panes) => |panes| == n && forall j :: 0 <= j < n ==> PaneIs(panes[j], rows[shows[j]], read)
    case Err(e) =>
      exists j :: 0 <= j < n && read(rows[shows[j]]) == Err(e) && forall k :: 0 <= k < j ==> read(rows[shows[k]]).Ok?
  }

  /** The pane index of the last of the first `n` panes flagged active. */
  ghost predicate LatestPane(rows: seq<Row>, shows: seq<nat>, n: nat, at: Option<Index>)
    requires n <= |shows| && InRange(rows, shows)
  {
    match at
    case None => forall j :: 0 <= j < n ==> !rows[shows[j]].paneActive
    case Some(index) =>
      exists j :: 0 <= j < n && rows[shows[j]].paneActive && rows[shows[j]].paneIndex == index
                  && forall k :: j < k < n ==> !rows[shows[k]].paneActive
  }

  lemma ShowsAre(rows: seq<Row>, ids: seq<Id>, shows: seq<nat>)
    requires StandAt(rows, PaneOf, ids, shows)
    requires forall i :: 0 <= i < |ids| ==> ids[i] in Keys(rows, PaneOf)
    ensures Increasing(shows) && (forall p: nat :: p in shows <==> Shows(rows, p))
    ensures |shows| == |ids| && InRange(rows, shows)
    ensures forall j :: 0 <= j < |shows| ==> FirstRow(rows, ids[j]) == rows[shows[j]]
  {
    hide Keys, OnlyOf;
    forall p: nat ensures Shows(rows, p) <==> First(rows, PaneOf, p) {}
    forall j | 0 <= j < |shows| ensures shows[j] < |rows| && FirstRow(rows, ids[j]) == rows[shows[j]] {
      assert First(rows, PaneOf, shows[j]);
      GroupLead(rows, PaneOf, shows[j]);
    }
  }

  lemma {:induction false} PanesReadIs(rows: seq<Row>, ids: seq<Id>, shows: seq<nat>, n: nat, read: Reading)
    requires n <= |ids| == |shows| && InRange(rows, shows)
    requires forall i :: 0 <= i < |ids| ==> ids[i] in Keys(rows, PaneOf)
    requires forall j :: 0 <= j < |shows| ==> FirstRow(rows, ids[j]) == rows[shows[j]]
    ensures ReadInTurn(rows, shows, n, read, PanesRead(rows, ids[..n], read))
    ensures LatestPane(rows, shows, n, ActivePane(rows, ids[..n]))
    decreases n
  {
    hide Keys, OnlyOf, FirstRow, ReadInTurn, LatestPane, InRange;
    if n == 0 {
      NothingRead(rows, shows, read);
    } else {
      assert ids[..n][..n - 1] == ids[..n - 1];
      PanesReadIs(rows, ids, shows, n - 1, read);
      NextRead(rows, shows, n, read, PanesRead(rows, ids[..n - 1], read));
      NextActive(rows, shows, n, ActivePane(rows, ids[..n - 1]));
    }
  }

  lemma NothingRead(rows: seq<Row>, shows: seq<nat>, read: Reading)
    requires InRange(rows, shows)
    ensures ReadInTurn(rows, shows, 0, read, Ok([])) && LatestPane(rows, shows, 0, None)
  {}

  lemma NextRead(rows: seq<Row>, shows: seq<nat>, n: nat, read: Reading, before: Result<seq<Pane>, FoldError>)
    requires 0 < n <= |shows| && InRange(rows, shows) && ReadInTurn(rows, shows, n - 1, read, before)
    ensures var row := rows[shows[n - 1]];
            ReadInTurn(rows, shows, n, read,
                       match before
                       case Err(e) => Err(e)
                       case Ok(panes) =>
                         match read(row)
                         case Err(e) => Err(e)
                         case Ok(got) => Ok(panes + [PaneFrom(row, got)]))
  {}

  lemma NextActive(rows: seq<Row>, shows: seq<nat>, n: nat, before: Option<Index>)
    requires 0 < n <= |shows| && InRange(rows, shows) && LatestPane(rows, shows, n - 1, before)
    ensures var row := rows[shows[n - 1]];
            LatestPane(rows, shows, n, if row.paneActive then Some(row.paneIndex) else before)
  {
    if !rows[shows[n - 1]].paneActive && before.Some? {
      var j :| 0 <= j < n - 1 && rows[shows[j]].paneActive && rows[shows[j]].paneIndex == before.value
               && forall k :: j < k < n - 1 ==> !rows[shows[k]].paneActive;
      assert forall k :: j < k < n ==> !rows[shows[k]].paneActive;
    }
  }

  /** What the fold has in hand when it comes to make the window. */
  ghost predicate InHand(rows: seq<Row>, shows: seq<nat>, read: Reading, panes: Result<seq<Pane>, FoldError>, active: Option<Index>)
    requires |rows| > 0
  {
    && Increasing(shows) && InRange(rows, shows) && (forall p: nat :: p in shows <==> Shows(rows, p))
    && ReadInTurn(rows, shows, |shows|, read, panes) && LatestPane(rows, shows, |shows|, active)
    && (panes.Ok? ==> |panes.value| > 0)
    && FoldedWindow(rows, read)
       == if !EachListed(rows) then Err(TornWindow(rows[0].windowId))
          else if panes.Err? then Err(panes.error)
          else if active.None? then Err(NoActivePane(rows[0].windowId))
          else
            match WindowNew(Made(rows[0], panes.value, active.value))
            case Ok(window) => Ok(window)
            case Err(why) => Err(Invalid(why))
  }

  function Made(row: Row, panes: seq<Pane>, active: Index): Window {
    Window(row.windowId, row.made, row.windowName, row.windowLayout, row.windowZoomed, panes, active)
  }

  lemma Gathered(rows: seq<Row>, read: Reading)
    returns (shows: seq<nat>, panes: Result<seq<Pane>, FoldError>, active: Option<Index>)
    requires |rows| > 0
    ensures InHand(rows, shows, read, panes, active)
  {
    hide Keys, OnlyOf, StandAt, PanesRead, ActivePane, WindowNew, FirstRow, EachListed, FoldedWindow, ReadInTurn, LatestPane,
         InRange, PaneIs, Shows;
    var ids := Keys(rows, PaneOf);
    KeysAre(rows, PaneOf);
    shows := KeysStand(rows, PaneOf);
    ShowsAre(rows, ids, shows);
    PanesReadIs(rows, ids, shows, |ids|, read);
    assert ids[..|ids|] == ids;
    panes, active := PanesRead(rows, ids, read), ActivePane(rows, ids);
    FirstShows(rows, shows);
    WindowMade(rows, shows, read);
  }

  /** Every part of a folded window is its first row's, and every part of its panes
      each pane's first row's and that row's reading, in the order those rows come;
      the active pane is the latest of them so flagged. */
  lemma WindowFromRows(rows: seq<Row>, read: Reading) returns (shows: seq<nat>)
    requires |rows| > 0
    ensures Increasing(shows) && forall p: nat :: p in shows <==> Shows(rows, p)
    ensures FoldedWindow(rows, read).Ok? ==>
              var w := FoldedWindow(rows, read).value;
              && w.id == rows[0].windowId && w.made == rows[0].made && w.name == rows[0].windowName
              && w.layout == rows[0].windowLayout && w.zoomed == rows[0].windowZoomed
              && |w.panes| == |shows|
              && (forall j :: 0 <= j < |shows| ==> shows[j] < |rows| && read(rows[shows[j]]).Ok?)
              && (forall j :: 0 <= j < |shows| ==>
                    var (row, got) := (rows[shows[j]], read(rows[shows[j]]).value);
                    w.panes[j] == Pane(row.paneId, row.paneIndex, row.cwd, got.foreground, got.content))
              && exists p: nat :: p < |rows| && Shows(rows, p) && rows[p].paneActive && rows[p].paneIndex == w.active
                          && forall q: nat :: q < |rows| && Shows(rows, q) && rows[q].paneActive ==> q <= p
  {
    hide InRange, ReadInTurn, LatestPane, EachListed, FoldedWindow, Shows;
    var panes, active;
    shows, panes, active := Gathered(rows, read);
    if FoldedWindow(rows, read).Ok? {
      ReadOrNot(rows, shows, read, panes);
      ActiveOrNot(rows, shows, active);
      hide WindowNew;
      WindowNewAdmits(Made(rows[0], panes.value, active.value));
      forall j | 0 <= j < |shows| ensures shows[j] < |rows| && read(rows[shows[j]]).Ok? {
        assert PaneIs(panes.value[j], rows[shows[j]], read);
      }
    }
  }

  /** A window folds exactly when its listing is not torn, every pane can be read,
      some pane is flagged active, and no two panes are at one pane index. */
  lemma WindowFoldsExactly(rows: seq<Row>, read: Reading)
    requires |rows| > 0
    ensures FoldedWindow(rows, read).Ok? <==>
              && EachListed(rows)
              && (forall p: nat :: Shows(rows, p) ==> p < |rows| && read(rows[p]).Ok?)
              && (exists p: nat :: p < |rows| && Shows(rows, p) && rows[p].paneActive)
              && forall p: nat, q: nat :: p < q && Shows(rows, p) && Shows(rows, q) ==>
                   p < |rows| && q < |rows| && rows[p].paneIndex != rows[q].paneIndex
  {
    hide InRange, ReadInTurn, LatestPane, EachListed, FoldedWindow, Shows, PaneIs;
    var shows, panes, active := Gathered(rows, read);
    ReadOrNot(rows, shows, read, panes);
    ActiveOrNot(rows, shows, active);
    hide WindowNew;
    if panes.Ok? && active.Some? {
      var w := Made(rows[0], panes.value, active.value);
      ShownWindow(rows, shows, read, w);
      WindowNewAdmits(w);
    }
  }

  /** What it fails with, the first of these that holds: torn; the failure of the
      earliest pane that cannot be read; no pane flagged active. */
  lemma WindowFailsWith(rows: seq<Row>, read: Reading)
    requires |rows| > 0
    ensures !EachListed(rows) ==> FoldedWindow(rows, read) == Err(TornWindow(rows[0].windowId))
    ensures EachListed(rows) && (exists p: nat :: p < |rows| && Shows(rows, p) && read(rows[p]).Err?) ==>
              exists p: nat :: p < |rows| && Shows(rows, p) && read(rows[p]).Err?
                     && FoldedWindow(rows, read) == Err(read(rows[p]).error)
                     && forall q: nat :: Shows(rows, q) && q < p ==> q < |rows| && read(rows[q]).Ok?
    ensures && EachListed(rows)
            && (forall p: nat :: Shows(rows, p) ==> p < |rows| && read(rows[p]).Ok? && !rows[p].paneActive)
            ==> FoldedWindow(rows, read) == Err(NoActivePane(rows[0].windowId))
  {
    hide InRange, ReadInTurn, LatestPane, EachListed, FoldedWindow, Shows, PaneIs, WindowNew;
    var shows, panes, active := Gathered(rows, read);
    ReadOrNot(rows, shows, read, panes);
    ActiveOrNot(rows, shows, active);
  }

  lemma ReadOrNot(rows: seq<Row>, shows: seq<nat>, read: Reading, r: Result<seq<Pane>, FoldError>)
    requires Increasing(shows) && InRange(rows, shows) && forall p: nat :: p in shows <==> Shows(rows, p)
    requires ReadInTurn(rows, shows, |shows|, read, r)
    ensures r.Ok? ==> forall p: nat :: Shows(rows, p) ==> p < |rows| && read(rows[p]).Ok?
    ensures r.Err? ==>
              exists p: nat :: p < |rows| && Shows(rows, p) && read(rows[p]).Err? && r.error == read(rows[p]).error
                     && forall q: nat :: Shows(rows, q) && q < p ==> q < |rows| && read(rows[q]).Ok?
    ensures r.Ok? ==>
              |r.value| == |shows| && forall j :: 0 <= j < |shows| ==> shows[j] < |rows| && PaneIs(r.value[j], rows[shows[j]], read)
  {
    match r
    case Ok(panes) =>
      forall p: nat | Shows(rows, p) ensures p < |rows| && read(rows[p]).Ok? {
        var j :| 0 <= j < |shows| && shows[j] == p;
        assert PaneIs(panes[j], rows[shows[j]], read);
      }
    case Err(e) =>
      var j :| 0 <= j < |shows| && read(rows[shows[j]]) == Err(e) && forall k :: 0 <= k < j ==> read(rows[shows[k]]).Ok?;
      assert Shows(rows, shows[j]);
      forall q: nat | Shows(rows, q) && q < shows[j] ensures q < |rows| && read(rows[q]).Ok? {
        var k :| 0 <= k < |shows| && shows[k] == q;
        assert k < j;
      }
  }

  lemma ActiveOrNot(rows: seq<Row>, shows: seq<nat>, at: Option<Index>)
    requires Increasing(shows) && InRange(rows, shows) && forall p: nat :: p in shows <==> Shows(rows, p)
    requires LatestPane(rows, shows, |shows|, at)
    ensures at.None? <==> forall p: nat :: Shows(rows, p) ==> p < |rows| && !rows[p].paneActive
    ensures at.Some? ==>
              exists p: nat :: p < |rows| && Shows(rows, p) && rows[p].paneActive && rows[p].paneIndex == at.value
                     && forall q: nat :: Shows(rows, q) && q < |rows| && rows[q].paneActive ==> q <= p
  {
    if at.Some? {
      var j :| 0 <= j < |shows| && rows[shows[j]].paneActive && rows[shows[j]].paneIndex == at.value
               && forall k :: j < k < |shows| ==> !rows[shows[k]].paneActive;
      assert Shows(rows, shows[j]);
      forall q: nat | Shows(rows, q) && q < |rows| && rows[q].paneActive ensures q <= shows[j] {
        var k :| 0 <= k < |shows| && shows[k] == q;
        assert k <= j;
      }
    }
  }

  /** What `Window::new` is asked: two panes at one index is all it can find wrong. */
  lemma ShownWindow(rows: seq<Row>, shows: seq<nat>, read: Reading, w: Window)
    requires Increasing(shows) && InRange(rows, shows) && forall p: nat :: p in shows <==> Shows(rows, p)
    requires |w.panes| == |shows| && forall j :: 0 <= j < |shows| ==> PaneIs(w.panes[j], rows[shows[j]], read)
    requires exists p: nat :: p < |rows| && Shows(rows, p) && rows[p].paneIndex == w.active
    ensures |w.panes| > 0
    ensures ValidWindow(w) <==>
              forall p: nat, q: nat :: p < q && Shows(rows, p) && Shows(rows, q) ==>
                p < |rows| && q < |rows| && rows[p].paneIndex != rows[q].paneIndex
  {
    hide Shows;
    var at: nat :| at < |rows| && Shows(rows, at) && rows[at].paneIndex == w.active;
    var a :| 0 <= a < |shows| && shows[a] == at;
    assert w.panes[a].index == w.active;
    forall j | 0 <= j < |shows| ensures Shows(rows, shows[j]) && w.panes[j].index == rows[shows[j]].paneIndex {
      assert shows[j] in shows;
    }
    if ValidWindow(w) {
      forall p: nat, q: nat | p < q && Shows(rows, p) && Shows(rows, q)
        ensures p < |rows| && q < |rows| && rows[p].paneIndex != rows[q].paneIndex
      {
        var i :| 0 <= i < |shows| && shows[i] == p;
        var k :| 0 <= k < |shows| && shows[k] == q;
        assert i < k;
      }
    }
  }

  lemma WindowMade(rows: seq<Row>, shows: seq<nat>, read: Reading)
    requires |rows| > 0 && Increasing(shows) && forall p: nat :: p in shows <==> Shows(rows, p)
    requires forall i :: 0 <= i < |Keys(rows, PaneOf)| ==> Keys(rows, PaneOf)[i] in Keys(rows, PaneOf)
    requires |shows| == |Keys(rows, PaneOf)| && InRange(rows, shows)
    requires forall j :: 0 <= j < |shows| ==> FirstRow(rows, Keys(rows, PaneOf)[j]) == rows[shows[j]]
    ensures var (panes, active) := (PanesRead(rows, Keys(rows, PaneOf), read), ActivePane(rows, Keys(rows, PaneOf)));
            && (panes.Ok? ==> |panes.value| > 0)
            && FoldedWindow(rows, read)
               == if !EachListed(rows) then Err(TornWindow(rows[0].windowId))
                  else if panes.Err? then Err(panes.error)
                  else if active.None? then Err(NoActivePane(rows[0].windowId))
                  else
                    match WindowNew(Made(rows[0], panes.value, active.value))
                    case Ok(window) => Ok(window)
                    case Err(why) => Err(Invalid(why))
  {
    hide Keys, OnlyOf, EachListed, PanesRead, ActivePane, WindowNew, FirstRow, Shows;
    FirstShows(rows, shows);
  }

  lemma FirstShows(rows: seq<Row>, shows: seq<nat>)
    requires |rows| > 0 && Increasing(shows) && forall p: nat :: p in shows <==> Shows(rows, p)
    ensures |shows| > 0 && shows[0] == 0
  {
    assert Shows(rows, 0);
    var j :| 0 <= j < |shows| && shows[j] == 0;
    assert shows[0] <= shows[j];
  }

  // ---- A torn listing ----

  /** Row `i`'s link lists row `j`'s pane. */
  ghost predicate AlsoLists(rows: seq<Row>, i: nat, j: nat)
    requires i < |rows| && j < |rows|
  {
    exists k :: && 0 <= k < |rows| && rows[k].session == rows[i].session
                && rows[k].windowIndex == rows[i].windowIndex && rows[k].paneId == rows[j].paneId
  }

  ghost predicate ListsOnce(rows: seq<Row>) {
    forall i, j :: 0 <= i < j < |rows| ==>
      !(rows[i].session == rows[j].session && rows[i].windowIndex == rows[j].windowIndex && rows[i].paneId == rows[j].paneId)
  }

  /** With no pane listed twice under one link, a window's listing counts as torn
      exactly when some link of it misses a pane another lists. */
  lemma TornExactly(rows: seq<Row>)
    requires ListsOnce(rows)
    ensures EachListed(rows) <==> forall i: nat, j: nat :: i < |rows| && j < |rows| ==> AlsoLists(rows, i, j)
  {
    hide EachListed, SameUnderEach, AlsoLists, ListsOnce, NoRepeats;
    OnceIsNoRepeats(rows);
    CountingFindsTorn(rows);
    if SameUnderEach(rows) {
      forall i: nat, j: nat | i < |rows| && j < |rows| ensures AlsoLists(rows, i, j) {
        SameMeans(rows, i, j);
      }
    }
    if forall i: nat, j: nat :: i < |rows| && j < |rows| ==> AlsoLists(rows, i, j) {
      MeansSame(rows);
    }
  }

  lemma OnceIsNoRepeats(rows: seq<Row>)
    requires ListsOnce(rows)
    ensures NoRepeats(rows)
  {}

  lemma SameMeans(rows: seq<Row>, i: nat, j: nat)
    requires SameUnderEach(rows) && i < |rows| && j < |rows|
    ensures AlsoLists(rows, i, j)
  {
    hide Keys;
    KeyIsThere(rows, LinkOf, i);
    KeyIsThere(rows, LinkOf, j);
    assert ListsPane(rows, LinkOf(rows[j]), rows[j].paneId);
    assert ListsPane(rows, LinkOf(rows[i]), rows[j].paneId);
  }

  lemma MeansSame(rows: seq<Row>)
    requires forall i: nat, j: nat :: i < |rows| && j < |rows| ==> AlsoLists(rows, i, j)
    ensures SameUnderEach(rows)
  {
    hide Keys, AlsoLists, ListsPane;
    forall v, w, pane | v in Keys(rows, LinkOf) && w in Keys(rows, LinkOf) && ListsPane(rows, v, pane)
      ensures ListsPane(rows, w, pane)
    {
      var i := KeyHasItem(rows, LinkOf, w);
      AlsoMeans(rows, i, v, pane);
    }
  }

  lemma AlsoMeans(rows: seq<Row>, i: nat, v: (Text, Index), pane: Id)
    requires forall i: nat, j: nat :: i < |rows| && j < |rows| ==> AlsoLists(rows, i, j)
    requires i < |rows| && ListsPane(rows, v, pane)
    ensures ListsPane(rows, LinkOf(rows[i]), pane)
  {
    hide AlsoLists;
    var j :| 0 <= j < |rows| && LinkOf(rows[j]) == v && rows[j].paneId == pane;
    assert AlsoLists(rows, i, j);
    AlsoIs(rows, i, j);
  }

  lemma AlsoIs(rows: seq<Row>, i: nat, j: nat)
    requires i < |rows| && j < |rows| && AlsoLists(rows, i, j)
    ensures ListsPane(rows, LinkOf(rows[i]), rows[j].paneId)
  {}

  // ---- The whole fold ----

  /** These are all the rows of row `p`'s session, in order. */
  ghost predicate SessionRows(rows: seq<Row>, p: nat, mine: seq<Row>)
    requires p < |rows|
  {
    exists at: seq<nat> :: Increasing(at) && |at| == |mine|
      && (forall j :: 0 <= j < |at| ==> at[j] < |rows| && mine[j] == rows[at[j]])
      && forall i: nat :: i < |rows| ==> (rows[i].session == rows[p].session <==> i in at)
  }

  ghost predicate WindowRows(rows: seq<Row>, p: nat, mine: seq<Row>)
    requires p < |rows|
  {
    exists at: seq<nat> :: Increasing(at) && |at| == |mine|
      && (forall j :: 0 <= j < |at| ==> at[j] < |rows| && mine[j] == rows[at[j]])
      && forall i: nat :: i < |rows| ==> (rows[i].windowId == rows[p].windowId <==> i in at)
  }

  lemma {:induction false} EachSession(rows: seq<Row>, names: seq<Text>, j: nat)
    requires forall i :: 0 <= i < |names| ==> names[i] in Keys(rows, SessionOf)
    requires FoldedSessions(rows, names).Ok? && j < |names|
    ensures |OnlyOf(rows, SessionOf, names[j])| > 0
    ensures FoldedSession(OnlyOf(rows, SessionOf, names[j])) == Ok(FoldedSessions(rows, names).value[j])
    decreases |names|
  {
    hide Keys, OnlyOf, FoldedSession;
    OnlyOfIs(rows, SessionOf, names[j]);
    if j < |names| - 1 { EachSession(rows, names[..|names| - 1], j); }
  }

  lemma {:induction false} EachWindow(rows: seq<Row>, ids: seq<Id>, read: Reading, j: nat)
    requires forall i :: 0 <= i < |ids| ==> ids[i] in Keys(rows, WindowOf)
    requires FoldedWindows(rows, ids, read).Ok? && j < |ids|
    ensures |OnlyOf(rows, WindowOf, ids[j])| > 0
    ensures FoldedWindow(OnlyOf(rows, WindowOf, ids[j]), read) == Ok(FoldedWindows(rows, ids, read).value[j])
    decreases |ids|
  {
    hide Keys, OnlyOf, FoldedWindow;
    OnlyOfIs(rows, WindowOf, ids[j]);
    if j < |ids| - 1 { EachWindow(rows, ids[..|ids| - 1], read, j); }
  }

  lemma SessionsFromRows(rows: seq<Row>, names: seq<Text>) returns (at: seq<nat>)
    requires names == Keys(rows, SessionOf) && FoldedSessions(rows, names).Ok?
    ensures Increasing(at) && |FoldedSessions(rows, names).value| == |at|
    ensures forall p: nat :: p in at <==> p < |rows| && forall q: nat :: q < p ==> rows[q].session != rows[p].session
    ensures forall j :: 0 <= j < |at| ==>
              at[j] < |rows|
              && exists mine: seq<Row> :: |mine| > 0 && SessionRows(rows, at[j], mine)
                                         && FoldedSession(mine) == Ok(FoldedSessions(rows, names).value[j])
  {
    hide Keys, OnlyOf, FoldedSessions, FoldedSession;
    at := KeysStand(rows, SessionOf);
    forall p: nat
      ensures First(rows, SessionOf, p) <==> p < |rows| && forall q: nat :: q < p ==> rows[q].session != rows[p].session
    {}
    StandWithin(rows, SessionOf, names, at);
    hide First, SessionRows;
    forall j | 0 <= j < |at|
      ensures at[j] < |rows|
              && exists mine: seq<Row> :: |mine| > 0 && SessionRows(rows, at[j], mine)
                                         && FoldedSession(mine) == Ok(FoldedSessions(rows, names).value[j])
    {
      assert First(rows, SessionOf, at[j]);
      EachSession(rows, names, j);
      SessionGroup(rows, at[j]);
    }
  }

  lemma WindowsFromRows(rows: seq<Row>, ids: seq<Id>, read: Reading) returns (at: seq<nat>)
    requires ids == Keys(rows, WindowOf) && FoldedWindows(rows, ids, read).Ok?
    ensures Increasing(at) && |FoldedWindows(rows, ids, read).value| == |at|
    ensures forall p: nat :: p in at <==> p < |rows| && forall q: nat :: q < p ==> rows[q].windowId != rows[p].windowId
    ensures forall j :: 0 <= j < |at| ==>
              at[j] < |rows|
              && exists mine: seq<Row> :: |mine| > 0 && WindowRows(rows, at[j], mine)
                                         && FoldedWindow(mine, read) == Ok(FoldedWindows(rows, ids, read).value[j])
  {
    hide Keys, OnlyOf, FoldedWindows, FoldedWindow;
    at := KeysStand(rows, WindowOf);
    forall p: nat
      ensures First(rows, WindowOf, p) <==> p < |rows| && forall q: nat :: q < p ==> rows[q].windowId != rows[p].windowId
    {}
    StandWithin(rows, WindowOf, ids, at);
    hide First, WindowRows;
    forall j | 0 <= j < |at|
      ensures at[j] < |rows|
              && exists mine: seq<Row> :: |mine| > 0 && WindowRows(rows, at[j], mine)
                                         && FoldedWindow(mine, read) == Ok(FoldedWindows(rows, ids, read).value[j])
    {
      assert First(rows, WindowOf, at[j]);
      EachWindow(rows, ids, read, j);
      WindowGroup(rows, at[j]);
    }
  }

  /** A fold holds one session for each session the rows name and one window for each
      window, in the order each is first named, each folded from all of its rows. */
  lemma FoldFromRows(rows: seq<Row>, read: Reading) returns (sessions: seq<nat>, windows: seq<nat>)
    requires Fold(rows, read).Ok?
    ensures Increasing(sessions) && Increasing(windows)
    ensures forall p: nat :: p in sessions <==> p < |rows| && forall q: nat :: q < p ==> rows[q].session != rows[p].session
    ensures forall p: nat :: p in windows <==> p < |rows| && forall q: nat :: q < p ==> rows[q].windowId != rows[p].windowId
    ensures var f := Fold(rows, read).value;
            && |f.sessions| == |sessions| && |f.windows| == |windows|
            && (forall j :: 0 <= j < |sessions| ==>
                  sessions[j] < |rows|
                  && exists mine: seq<Row> :: |mine| > 0 && SessionRows(rows, sessions[j], mine)
                                             && FoldedSession(mine) == Ok(f.sessions[j]))
            && forall j :: 0 <= j < |windows| ==>
                 windows[j] < |rows|
                 && exists mine: seq<Row> :: |mine| > 0 && WindowRows(rows, windows[j], mine)
                                            && FoldedWindow(mine, read) == Ok(f.windows[j])
  {
    hide Keys, OnlyOf, FoldedSessions, FoldedWindows, FoldedSession, FoldedWindow, SessionRows, WindowRows;
    sessions := SessionsFromRows(rows, Keys(rows, SessionOf));
    windows := WindowsFromRows(rows, Keys(rows, WindowOf), read);
  }

  lemma SessionGroup(rows: seq<Row>, p: nat)
    requires p < |rows|
    ensures SessionRows(rows, p, OnlyOf(rows, SessionOf, rows[p].session))
  {
    var at := GroupStands(rows, SessionOf, rows[p].session);
  }

  lemma WindowGroup(rows: seq<Row>, p: nat)
    requires p < |rows|
    ensures WindowRows(rows, p, OnlyOf(rows, WindowOf, rows[p].windowId))
  {
    var at := GroupStands(rows, WindowOf, rows[p].windowId);
  }
}
