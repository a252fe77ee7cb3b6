/** The matching inside `Draft::lacking` (phoenix-restore/src/plan.rs): two
    greedy passes pair saved links with live ones, then every unpaired saved
    link is given an index to land at. */
module Matching {
  import opened Wrappers
  import opened Snapshots

  /** A saved link as the matching sees it: its index, and the live window
      that is its window, when the server holds one. */
  datatype Want = Want(index: Index, live: Option<Id>)

  /** The live links nobody has claimed, and which wants are answered. */
  datatype Pairing = Pairing(unpaired: seq<WinLink>, linked: seq<bool>)

  predicate Accepts(want: Want, exact: bool, link: WinLink) {
    Some(link.window) == want.live && (!exact || link.index == want.index)
  }

  function Without(links: seq<WinLink>, at: nat): seq<WinLink>
    requires at < |links|
  {
    links[..at] + links[at + 1..]
  }

  function Offer(p: Pairing, want: Want, at: nat, exact: bool): (q: Pairing)
    requires at < |p.linked|
  {
    if p.linked[at] then p
    else match Find(p.unpaired, (l: WinLink) => Accepts(want, exact, l))
         case None => p
         case Some(i) => Pairing(Without(p.unpaired, i), p.linked[at := true])
  }

  /** One pass, over the first `n` wants. */
  function Pass(p: Pairing, wanted: seq<Want>, exact: bool, n: nat): (q: Pairing)
    requires n <= |wanted| == |p.linked|
    ensures |q.linked| == |p.linked|
  {
    if n == 0 then p else Offer(Pass(p, wanted, exact, n - 1), wanted[n - 1], n - 1, exact)
  }

  function Unclaimed(links: seq<WinLink>, n: nat): Pairing {
    Pairing(links, seq(n, _ => false))
  }

  /** Exact indices first, then any index. */
  function Pair(wanted: seq<Want>, links: seq<WinLink>): (q: Pairing)
    ensures |q.linked| == |wanted|
  {
    Pass(Pass(Unclaimed(links, |wanted|), wanted, true, |wanted|), wanted, false, |wanted|)
  }

  // ---- Counting ----

  /** How many of `links` link window `v`. */
  function LinksTo(links: seq<WinLink>, v: Id): nat {
    if |links| == 0 then 0 else LinksTo(links[..|links| - 1], v) + (if links[|links| - 1].window == v then 1 else 0)
  }

  /** How many of the first `n` wants want `v`. */
  function WantsOf(wanted: seq<Want>, v: Id, n: nat): nat
    requires n <= |wanted|
  {
    if n == 0 then 0 else WantsOf(wanted, v, n - 1) + (if wanted[n - 1].live == Some(v) then 1 else 0)
  }

  /** How many of the first `n` wants that want `v` are answered. */
  function Answered(wanted: seq<Want>, linked: seq<bool>, v: Id, n: nat): nat
    requires n <= |wanted| == |linked|
  {
    if n == 0 then 0
    else Answered(wanted, linked, v, n - 1) + (if wanted[n - 1].live == Some(v) && linked[n - 1] then 1 else 0)
  }

  lemma {:induction false} LinksToConcat(a: seq<WinLink>, b: seq<WinLink>, v: Id)
    ensures LinksTo(a + b, v) == LinksTo(a, v) + LinksTo(b, v)
  {
    if |b| == 0 {
      assert a + b == a;
    } else {
      assert (a + b)[..|a + b| - 1] == a + b[..|b| - 1];
      LinksToConcat(a, b[..|b| - 1], v);
    }
  }

  lemma LinksToWithout(links: seq<WinLink>, at: nat, v: Id)
    requires at < |links|
    ensures LinksTo(links, v) == LinksTo(Without(links, at), v) + (if links[at].window == v then 1 else 0)
  {
    assert links == links[..at] + ([links[at]] + links[at + 1..]);
    LinksToConcat(links[..at], [links[at]] + links[at + 1..], v);
    LinksToConcat([links[at]], links[at + 1..], v);
    LinksToConcat(links[..at], links[at + 1..], v);
    assert [links[at]][..0] == [];
  }

  lemma {:induction false} LinksToZero(links: seq<WinLink>, v: Id)
    ensures LinksTo(links, v) == 0 <==> forall i :: 0 <= i < |links| ==> links[i].window != v
  {
    if |links| > 0 {
      LinksToZero(links[..|links| - 1], v);
      if LinksTo(links[..|links| - 1], v) != 0 {
        var i :| 0 <= i < |links| - 1 && links[..|links| - 1][i].window == v;
        assert links[i].window == v;
      }
    }
  }

  lemma {:induction false} AnsweredSet(wanted: seq<Want>, linked: seq<bool>, v: Id, at: nat, n: nat)
    requires n <= |wanted| == |linked| && at < |linked| && !linked[at]
    ensures Answered(wanted, linked[at := true], v, n)
         == Answered(wanted, linked, v, n) + (if at < n && wanted[at].live == Some(v) then 1 else 0)
  {
    if n > 0 {
      AnsweredSet(wanted, linked, v, at, n - 1);
    }
  }

  lemma {:induction false} AnsweredBounded(wanted: seq<Want>, linked: seq<bool>, v: Id, n: nat)
    requires n <= |wanted| == |linked|
    ensures Answered(wanted, linked, v, n) <= WantsOf(wanted, v, n)
    ensures Answered(wanted, linked, v, n) == WantsOf(wanted, v, n)
       <==> forall i :: 0 <= i < n && wanted[i].live == Some(v) ==> linked[i]
  {
    if n > 0 {
      AnsweredBounded(wanted, linked, v, n - 1);
    }
  }

  // ---- What a pass keeps ----

  /** Every live link is either unpaired or claimed by exactly one want. */
  ghost predicate Conserves(wanted: seq<Want>, links: seq<WinLink>, p: Pairing) {
    && |p.linked| == |wanted|
    && (forall i :: 0 <= i < |wanted| && p.linked[i] ==> wanted[i].live.Some?)
    && forall v :: LinksTo(links, v) == LinksTo(p.unpaired, v) + Answered(wanted, p.linked, v, |wanted|)
  }

  lemma OfferConserves(wanted: seq<Want>, links: seq<WinLink>, p: Pairing, at: nat, exact: bool)
    requires at < |wanted| && Conserves(wanted, links, p)
    ensures Conserves(wanted, links, Offer(p, wanted[at], at, exact))
  {
    var q := Offer(p, wanted[at], at, exact);
    if q != p {
      var i := Find(p.unpaired, (l: WinLink) => Accepts(wanted[at], exact, l)).value;
      forall v ensures LinksTo(links, v) == LinksTo(q.unpaired, v) + Answered(wanted, q.linked, v, |wanted|) {
        LinksToWithout(p.unpaired, i, v);
        AnsweredSet(wanted, p.linked, v, at, |wanted|);
      }
    }
  }

  lemma {:induction false} PassConserves(wanted: seq<Want>, links: seq<WinLink>, p: Pairing, exact: bool, n: nat)
    requires n <= |wanted| && Conserves(wanted, links, p)
    ensures Conserves(wanted, links, Pass(p, wanted, exact, n))
  {
    assert |p.linked| == |wanted|;
    hide Conserves, Offer;
    if n > 0 {
      PassConserves(wanted, links, p, exact, n - 1);
      OfferConserves(wanted, links, Pass(p, wanted, exact, n - 1), n - 1, exact);
    }
  }

  lemma {:induction false} NoneAnswered(wanted: seq<Want>, linked: seq<bool>, v: Id, n: nat)
    requires n <= |wanted| == |linked| && forall i :: 0 <= i < |linked| ==> !linked[i]
    ensures Answered(wanted, linked, v, n) == 0
  {
    if n > 0 {
      NoneAnswered(wanted, linked, v, n - 1);
    }
  }

  lemma PairConserves(wanted: seq<Want>, links: seq<WinLink>)
    ensures Conserves(wanted, links, Pair(wanted, links))
  {
    var start := Unclaimed(links, |wanted|);
    forall v { NoneAnswered(wanted, start.linked, v, |wanted|); }
    PassConserves(wanted, links, start, true, |wanted|);
    PassConserves(wanted, links, Pass(start, wanted, true, |wanted|), false, |wanted|);
  }

  /** The unclaimed links only ever shrink, and an answered want stays answered. */
  ghost predicate Shrinks(p: Pairing, q: Pairing) {
    && |q.linked| == |p.linked|
    && (forall i :: 0 <= i < |p.linked| && p.linked[i] ==> q.linked[i])
    && (forall l :: l in q.unpaired ==> l in p.unpaired)
  }

  lemma {:induction false} PassShrinks(p: Pairing, wanted: seq<Want>, exact: bool, m: nat, n: nat)
    requires m <= n <= |wanted| == |p.linked|
    ensures Shrinks(Pass(p, wanted, exact, m), Pass(p, wanted, exact, n))
  {
    if m < n {
      PassShrinks(p, wanted, exact, m, n - 1);
    }
  }

  /** A want the second pass left unanswered has no unclaimed live link. */
  lemma {:induction false} LooseLeavesNone(p: Pairing, wanted: seq<Want>, i: nat)
    requires i < |wanted| == |p.linked|
    ensures var q := Pass(p, wanted, false, |wanted|);
            !q.linked[i] ==> forall l :: l in q.unpaired ==> Some(l.window) != wanted[i].live
  {
    var before := Pass(p, wanted, false, i);
    var after := Pass(p, wanted, false, i + 1);
    var q := Pass(p, wanted, false, |wanted|);
    PassShrinks(p, wanted, false, i, i + 1);
    PassShrinks(p, wanted, false, i + 1, |wanted|);
    if !q.linked[i] {
      assert after == before;
      forall l | l in q.unpaired ensures Some(l.window) != wanted[i].live {
        var k :| 0 <= k < |before.unpaired| && before.unpaired[k] == l;
        assert !Accepts(wanted[i], false, before.unpaired[k]);
      }
    }
  }

  function Min(a: nat, b: nat): nat { if a < b then a else b }

  /** Greedy is optimal: for each live window, as many wants are answered as
      there are wants for it or live links to it, whichever is fewer, and each
      live link answers at most one want. */
  lemma GreedyIsOptimal(wanted: seq<Want>, links: seq<WinLink>, v: Id)
    ensures var q := Pair(wanted, links);
            && Answered(wanted, q.linked, v, |wanted|) == Min(WantsOf(wanted, v, |wanted|), LinksTo(links, v))
            && LinksTo(q.unpaired, v) == LinksTo(links, v) - Answered(wanted, q.linked, v, |wanted|)
  {
    var q := Pair(wanted, links);
    PairConserves(wanted, links);
    AnsweredBounded(wanted, q.linked, v, |wanted|);
    if i :| 0 <= i < |wanted| && wanted[i].live == Some(v) && !q.linked[i] {
      LooseLeavesNone(Pass(Unclaimed(links, |wanted|), wanted, true, |wanted|), wanted, i);
      LinksToZero(q.unpaired, v);
    }
  }

  ghost predicate DistinctWants(wanted: seq<Want>) {
    forall i, j :: 0 <= i < j < |wanted| ==> wanted[i].index != wanted[j].index
  }

  /** Until the exact pass reaches want `n`, nothing has claimed its own link. */
  lemma {:induction false} ExactLeavesOthers(wanted: seq<Want>, links: seq<WinLink>, link: WinLink, n: nat)
    requires n <= |wanted| && link in links
    requires forall i :: 0 <= i < n ==> wanted[i].index != link.index
    ensures link in Pass(Unclaimed(links, |wanted|), wanted, true, n).unpaired
  {
    if n > 0 {
      ExactLeavesOthers(wanted, links, link, n - 1);
      var p := Pass(Unclaimed(links, |wanted|), wanted, true, n - 1);
      var at := Find(p.unpaired, (l: WinLink) => Accepts(wanted[n - 1], true, l));
      if !p.linked[n - 1] && at.Some? {
        var k :| 0 <= k < |p.unpaired| && p.unpaired[k] == link;
        assert k != at.value;
        assert link in Without(p.unpaired, at.value) by {
          if k < at.value {
            assert Without(p.unpaired, at.value)[k] == link;
          } else {
            assert Without(p.unpaired, at.value)[k - 1] == link;
          }
        }
      }
    }
  }

  /** Every want whose live window sits at its own index is answered. */
  lemma ExactIsMatched(wanted: seq<Want>, links: seq<WinLink>, i: nat)
    requires DistinctWants(wanted) && i < |wanted|
    requires wanted[i].live.Some? && WinLink(wanted[i].index, wanted[i].live.value) in links
    ensures Pair(wanted, links).linked[i]
  {
    var link := WinLink(wanted[i].index, wanted[i].live.value);
    var start := Unclaimed(links, |wanted|);
    ExactLeavesOthers(wanted, links, link, i);
    var before := Pass(start, wanted, true, i);
    var k :| 0 <= k < |before.unpaired| && before.unpaired[k] == link;
    assert Accepts(wanted[i], true, before.unpaired[k]);
    assert Pass(start, wanted, true, i + 1).linked[i];
    PassShrinks(start, wanted, true, i + 1, |wanted|);
    PassShrinks(Pass(start, wanted, true, |wanted|), wanted, false, 0, |wanted|);
  }

  // ---- Where the unanswered wants land ----

  /** The first gap in `taken`, looking upwards from `from`. */
  function FreeFrom(from: Index, taken: set<Index>): (free: Index)
    ensures from <= free && free !in taken
    ensures forall i :: from <= i < free ==> i in taken
    ensures free <= from + |taken|
    decreases |taken|
  {
    if from !in taken then from
    else
      var free := FreeFrom(from + 1, taken - {from});
      assert forall i :: from <= i < free ==> i in taken by {
        forall i | from <= i < free ensures i in taken {
          if i != from { assert i in taken - {from}; }
        }
      }
      free
  }

  /** A tmux index is a `u32`: the search runs out of them exactly when all are taken,
      and never where more are left than `taken` holds. */
  lemma ExhaustsExactly(from: Index, taken: set<Index>)
    requires from <= 0xffff_ffff
    ensures FreeFrom(from, taken) > 0xffff_ffff <==> forall i :: from <= i <= 0xffff_ffff ==> i in taken
    ensures |taken| <= 0xffff_ffff - from ==> FreeFrom(from, taken) <= 0xffff_ffff
  {
    var free := FreeFrom(from, taken);
    assert free !in taken;
  }

  datatype Landed = Landed(at: nat, index: Index)
  datatype Landing = Landing(taken: set<Index>, missing: seq<Landed>)

  function Land(l: Landing, wanted: seq<Want>, linked: seq<bool>, live: set<Index>, at: nat): (r: Landing)
    requires at < |wanted| == |linked|
  {
    if linked[at] then l
    else if wanted[at].index in live then
      var landed := FreeFrom(wanted[at].index, l.taken);
      Landing(l.taken + {landed}, l.missing + [Landed(at, landed)])
    else Landing(l.taken, l.missing + [Landed(at, wanted[at].index)])
  }

  function LandAll(wanted: seq<Want>, linked: seq<bool>, live: set<Index>, n: nat): (r: Landing)
    requires n <= |wanted| == |linked|
  {
    if n == 0 then Landing(live + Indices(wanted), [])
    else Land(LandAll(wanted, linked, live, n - 1), wanted, linked, live, n - 1)
  }

  function Indices(wanted: seq<Want>): (s: set<Index>) {
    set i | 0 <= i < |wanted| :: wanted[i].index
  }

  function LiveIndices(links: seq<WinLink>): (s: set<Index>) {
    set i | 0 <= i < |links| :: links[i].index
  }

  /** The links the server lacks, and where each lands. */
  function Missing(wanted: seq<Want>, links: seq<WinLink>): seq<Landed> {
    LandAll(wanted, Pair(wanted, links).linked, LiveIndices(links), |wanted|).missing
  }

  /** One of the first `j` landings took index `i`. */
  ghost predicate Took(missing: seq<Landed>, j: nat, i: Index)
    requires j <= |missing|
  {
    exists k :: 0 <= k < j && missing[k].index == i
  }

  /** What one landing promises, given the ones before it: its saved index
      when free, else the least index from there up that no live window holds,
      no saved link wants and no earlier landing took. */
  ghost predicate LandsWell(wanted: seq<Want>, live: set<Index>, missing: seq<Landed>, j: nat)
    requires j < |missing| && missing[j].at < |wanted|
  {
    var m := missing[j];
    var saved := wanted[m.at].index;
    if saved !in live then m.index == saved
    else
      && saved < m.index && m.index !in live && m.index !in Indices(wanted) && !Took(missing, j, m.index)
      && forall i :: saved <= i < m.index ==> i in live || i in Indices(wanted) || Took(missing, j, i)
  }

  /** Which of the first `n` wants are missing: the unanswered, in order. */
  ghost predicate ListsUnanswered(linked: seq<bool>, n: nat, missing: seq<Landed>)
    requires n <= |linked|
  {
    && (forall k :: 0 <= k < |missing| ==> missing[k].at < n && !linked[missing[k].at])
    && (forall j, k :: 0 <= j < k < |missing| ==> missing[j].at < missing[k].at)
    && (forall i :: 0 <= i < n && !linked[i] ==> ListedAt(missing, i))
  }

  ghost predicate ListedAt(missing: seq<Landed>, i: nat) {
    exists k :: 0 <= k < |missing| && missing[k].at == i
  }

  ghost predicate AllLandWell(wanted: seq<Want>, live: set<Index>, missing: seq<Landed>) {
    forall k :: 0 <= k < |missing| ==> missing[k].at < |wanted| && LandsWell(wanted, live, missing, k)
  }

  ghost predicate TakenIs(wanted: seq<Want>, live: set<Index>, l: Landing) {
    forall i :: i in l.taken <==> i in live || i in Indices(wanted) || Took(l.missing, |l.missing|, i)
  }

  lemma {:induction false} LandListsUnanswered(wanted: seq<Want>, linked: seq<bool>, live: set<Index>, n: nat)
    requires n <= |wanted| == |linked|
    ensures ListsUnanswered(linked, n, LandAll(wanted, linked, live, n).missing)
  {
    hide ListsUnanswered;
    if n == 0 {
      NoneListed(linked);
    } else {
      LandListsUnanswered(wanted, linked, live, n - 1);
      ListsOneMore(linked, n, LandAll(wanted, linked, live, n - 1).missing, LandAll(wanted, linked, live, n).missing);
    }
  }

  lemma NoneListed(linked: seq<bool>)
    ensures ListsUnanswered(linked, 0, [])
  {}

  lemma ListsOneMore(linked: seq<bool>, n: nat, l: seq<Landed>, r: seq<Landed>)
    requires 0 < n <= |linked| && ListsUnanswered(linked, n - 1, l)
    requires if linked[n - 1] then r == l else |r| == |l| + 1 && r == l + [r[|l|]] && r[|l|].at == n - 1
    ensures ListsUnanswered(linked, n, r)
  {
    hide ListedAt;
    forall i | 0 <= i < n && !linked[i] ensures ListedAt(r, i) {
      StaysListed(l, r, i, n);
    }
  }

  lemma StaysListed(l: seq<Landed>, r: seq<Landed>, i: nat, n: nat)
    requires r == l || (|r| == |l| + 1 && r == l + [r[|l|]])
    requires ListedAt(l, i) || (|r| == |l| + 1 && r[|l|].at == i)
    ensures ListedAt(r, i)
  {
    if ListedAt(l, i) {
      var k :| 0 <= k < |l| && l[k].at == i;
      assert r[k].at == i;
    }
  }

  lemma TookGrows(missing: seq<Landed>, m: Landed, j: nat, i: Index)
    requires j <= |missing|
    ensures Took(missing + [m], j, i) <==> Took(missing, j, i)
    ensures Took(missing + [m], |missing| + 1, i) <==> Took(missing, |missing|, i) || m.index == i
  {
    var r := missing + [m];
    if k :| 0 <= k < j && missing[k].index == i { assert r[k].index == i; }
    if k :| 0 <= k < |missing| && missing[k].index == i { assert r[k].index == i; }
    assert r[|missing|] == m;
  }

  lemma {:induction false} LandLandsWell(wanted: seq<Want>, linked: seq<bool>, live: set<Index>, n: nat)
    requires n <= |wanted| == |linked|
    ensures var l := LandAll(wanted, linked, live, n);
            TakenIs(wanted, live, l) && AllLandWell(wanted, live, l.missing)
  {
    hide AllLandWell, TakenIs;
    if n == 0 {
      NothingLanded(wanted, live);
    } else {
      LandLandsWell(wanted, linked, live, n - 1);
      var l := LandAll(wanted, linked, live, n - 1);
      if !linked[n - 1] { LandsOneMore(wanted, linked, live, n - 1, l); }
    }
  }

  lemma NothingLanded(wanted: seq<Want>, live: set<Index>)
    ensures TakenIs(wanted, live, Landing(live + Indices(wanted), [])) && AllLandWell(wanted, live, [])
  {}

  lemma LandAdds(l: Landing, wanted: seq<Want>, linked: seq<bool>, live: set<Index>, at: nat)
    requires at < |wanted| == |linked| && !linked[at]
    ensures var r := Land(l, wanted, linked, live, at);
            |r.missing| == |l.missing| + 1 && r.missing == l.missing + [r.missing[|l.missing|]] && r.missing[|l.missing|].at == at
  {}

  lemma LandTakes(wanted: seq<Want>, linked: seq<bool>, live: set<Index>, at: nat, l: Landing)
    requires at < |wanted| == |linked| && !linked[at] && TakenIs(wanted, live, l)
    ensures TakenIs(wanted, live, Land(l, wanted, linked, live, at))
  {
    var r := Land(l, wanted, linked, live, at);
    assert wanted[at].index in Indices(wanted);
    forall i { TookGrows(l.missing, r.missing[|l.missing|], 0, i); }
  }

  lemma LandsLast(wanted: seq<Want>, linked: seq<bool>, live: set<Index>, at: nat, l: Landing)
    requires at < |wanted| == |linked| && !linked[at] && TakenIs(wanted, live, l)
    ensures |Land(l, wanted, linked, live, at).missing| == |l.missing| + 1
    ensures LandsWell(wanted, live, Land(l, wanted, linked, live, at).missing, |l.missing|)
  {
    var r := Land(l, wanted, linked, live, at);
    forall i { TookGrows(l.missing, r.missing[|l.missing|], |l.missing|, i); }
  }

  lemma LandsOneMore(wanted: seq<Want>, linked: seq<bool>, live: set<Index>, at: nat, l: Landing)
    requires at < |wanted| == |linked| && !linked[at] && TakenIs(wanted, live, l) && AllLandWell(wanted, live, l.missing)
    ensures var r := Land(l, wanted, linked, live, at); TakenIs(wanted, live, r) && AllLandWell(wanted, live, r.missing)
  {
    var r := Land(l, wanted, linked, live, at);
    var m := r.missing[|l.missing|];
    LandTakes(wanted, linked, live, at, l);
    LandsLast(wanted, linked, live, at, l);
    hide TakenIs, Indices, Land;
    assert r.missing == l.missing + [m] by { LandAdds(l, wanted, linked, live, at); }
    forall k | 0 <= k < |l.missing| ensures r.missing[k].at < |wanted| && LandsWell(wanted, live, r.missing, k) {
      assert LandsWell(wanted, live, l.missing, k);
      forall i { TookGrows(l.missing, m, k, i); }
    }
  }

  /** The landing indices are pairwise distinct and disjoint from the live ones. */
  lemma LandingsAreFree(wanted: seq<Want>, links: seq<WinLink>)
    requires DistinctWants(wanted)
    ensures var missing := Missing(wanted, links);
            && (forall j :: 0 <= j < |missing| ==> missing[j].at < |wanted|)
            && (forall j, k :: 0 <= j < |missing| && 0 <= k < |links| ==> missing[j].index != links[k].index)
            && (forall j, k :: 0 <= j < k < |missing| ==> missing[j].index != missing[k].index)
  {
    var live := LiveIndices(links);
    var linked := Pair(wanted, links).linked;
    var l := LandAll(wanted, linked, live, |wanted|);
    LandListsUnanswered(wanted, linked, live, |wanted|);
    LandLandsWell(wanted, linked, live, |wanted|);
    forall j, k | 0 <= j < |l.missing| && 0 <= k < |links| ensures l.missing[j].index != links[k].index {
      assert LandsWell(wanted, live, l.missing, j) && links[k].index in live;
    }
    forall j, k | 0 <= j < k < |l.missing| ensures l.missing[j].index != l.missing[k].index {
      assert LandsWell(wanted, live, l.missing, j) && LandsWell(wanted, live, l.missing, k);
      assert wanted[l.missing[j].at].index in Indices(wanted) && wanted[l.missing[k].at].index in Indices(wanted);
      assert l.missing[j].index == l.missing[k].index ==> Took(l.missing, k, l.missing[k].index);
    }
  }
}
