/** The matching inside `Draft::lacking` (phoenix-restore/src/plan.rs), where one window
    is linked more than once: which saved link goes unanswered, and which live link
    unclaimed, when there are not enough of the other to go round. */
module Claiming {
  import opened Wrappers
  import opened Snapshots
  import opened Matching

  /** A pass settles each want when it comes to it, and no other. */
  lemma {:induction false} SettledWhenReached(p: Pairing, wanted: seq<Want>, exact: bool, n: nat, k: nat)
    requires n <= |wanted| == |p.linked| && k < |wanted|
    ensures n <= k ==> Pass(p, wanted, exact, n).linked[k] == p.linked[k]
    ensures k < n ==> Pass(p, wanted, exact, n).linked[k] == Pass(p, wanted, exact, k + 1).linked[k]
  {
    if n > 0 {
      SettledWhenReached(p, wanted, exact, n - 1, k);
    }
  }

  /** What the exact pass answers has its own link, at its own index. */
  lemma {:induction false} ExactHasItsLink(wanted: seq<Want>, links: seq<WinLink>, n: nat, j: nat)
    requires n <= |wanted| && j < |wanted| && Pass(Unclaimed(links, |wanted|), wanted, true, n).linked[j]
    ensures wanted[j].live.Some? && WinLink(wanted[j].index, wanted[j].live.value) in links
  {
    var start := Unclaimed(links, |wanted|);
    if n > 0 {
      var before := Pass(start, wanted, true, n - 1);
      if before.linked[j] {
        ExactHasItsLink(wanted, links, n - 1, j);
      } else {
        PassShrinks(start, wanted, true, 0, n - 1);
        var at := Find(before.unpaired, (l: WinLink) => Accepts(wanted[n - 1], true, l));
        assert before.unpaired[at.value] in before.unpaired;
        assert before.unpaired[at.value] == WinLink(wanted[j].index, wanted[j].live.value);
      }
    }
  }

  /** Saved links are answered in the order they were saved: one is passed over for a
      later one only where the later has its own link, at its own index. */
  lemma EarlierIsAnswered(wanted: seq<Want>, links: seq<WinLink>, i: nat, j: nat)
    requires i < j < |wanted| && wanted[i].live == wanted[j].live
    requires !Pair(wanted, links).linked[i] && Pair(wanted, links).linked[j]
    ensures wanted[j].live.Some? && WinLink(wanted[j].index, wanted[j].live.value) in links
  {
    hide Find;
    var middle := Pass(Unclaimed(links, |wanted|), wanted, true, |wanted|);
    if middle.linked[j] {
      ExactHasItsLink(wanted, links, |wanted|, j);
    } else {
      SettledWhenReached(middle, wanted, false, |wanted|, i);
      SettledWhenReached(middle, wanted, false, |wanted|, j);
      SettledWhenReached(middle, wanted, false, j, j);
      SettledWhenReached(middle, wanted, false, i, i);
      PassShrinks(middle, wanted, false, i, j);
      NoneLeft(Pass(middle, wanted, false, i), wanted[i], i);
      NoneFound(Pass(middle, wanted, false, j), wanted[j], j);
      assert false;
    }
  }

  /** Offered in vain, a want has no link left to its window. */
  lemma NoneLeft(p: Pairing, want: Want, at: nat)
    requires at < |p.linked| && !Offer(p, want, at, false).linked[at]
    ensures forall l :: l in p.unpaired ==> Some(l.window) != want.live
  {
    forall l | l in p.unpaired ensures Some(l.window) != want.live {
      var k :| 0 <= k < |p.unpaired| && p.unpaired[k] == l;
      assert !Accepts(want, false, p.unpaired[k]);
    }
  }

  lemma NoneFound(p: Pairing, want: Want, at: nat)
    requires at < |p.linked| && !p.linked[at] && forall l :: l in p.unpaired ==> Some(l.window) != want.live
    ensures !Offer(p, want, at, false).linked[at]
  {
    assert forall k :: 0 <= k < |p.unpaired| ==> p.unpaired[k] in p.unpaired;
  }

  // ---- The live links ----

  /** Where each of some links stands among them all, in order. */
  ghost predicate Stand(part: seq<WinLink>, whole: seq<WinLink>, at: seq<nat>) {
    && |at| == |part|
    && (forall k :: 0 <= k < |at| ==> at[k] < |whole| && part[k] == whole[at[k]])
    && forall k, m :: 0 <= k < m < |at| ==> at[k] < at[m]
  }

  lemma {:induction false} UnpairedStand(p: Pairing, wanted: seq<Want>, exact: bool, n: nat, whole: seq<WinLink>, at: seq<nat>)
    returns (now: seq<nat>)
    requires n <= |wanted| == |p.linked| && Stand(p.unpaired, whole, at)
    ensures Stand(Pass(p, wanted, exact, n).unpaired, whole, now)
  {
    if n == 0 {
      now := at;
    } else {
      var before := UnpairedStand(p, wanted, exact, n - 1, whole, at);
      var q := Pass(p, wanted, exact, n - 1);
      var found := Find(q.unpaired, (l: WinLink) => Accepts(wanted[n - 1], exact, l));
      if q.linked[n - 1] || found.None? {
        now := before;
      } else {
        StandWithout(q.unpaired, whole, before, found.value);
        now := before[..found.value] + before[found.value + 1..];
      }
    }
  }

  lemma StandWithout(part: seq<WinLink>, whole: seq<WinLink>, at: seq<nat>, gone: nat)
    requires Stand(part, whole, at) && gone < |part|
    ensures Stand(Without(part, gone), whole, at[..gone] + at[gone + 1..])
  {
  }

  /** A want offered any link of its window takes the first there is. */
  lemma TakesTheFirst(p: Pairing, want: Want, n: nat, whole: seq<WinLink>, at: seq<nat>, a: nat, b: nat)
    requires n < |p.linked| && Stand(p.unpaired, whole, at) && DistinctIndices(whole)
    requires a < b < |whole| && whole[a].window == whole[b].window
    requires whole[a] in p.unpaired && whole[b] in p.unpaired && whole[a] in Offer(p, want, n, false).unpaired
    ensures whole[b] in Offer(p, want, n, false).unpaired
  {
    var x :| 0 <= x < |p.unpaired| && p.unpaired[x] == whole[a];
    var y :| 0 <= y < |p.unpaired| && p.unpaired[y] == whole[b];
    assert at[x] == a && at[y] == b;
    assert x < y;
    var found := Find(p.unpaired, (l: WinLink) => Accepts(want, false, l));
    if !p.linked[n] && found.Some? {
      assert found.value == y ==> Accepts(want, false, p.unpaired[x]);
      StaysBehind(p.unpaired, found.value, y);
    }
  }

  lemma StaysBehind(links: seq<WinLink>, gone: nat, y: nat)
    requires gone < |links| && y < |links| && y != gone
    ensures links[y] in Without(links, gone)
  {
    var left := Without(links, gone);
    assert links[y] == if y < gone then left[y] else left[y - 1];
  }

  lemma StaysUnlessGone(links: seq<WinLink>, gone: nat, l: WinLink)
    requires gone < |links| && l in links
    ensures l in Without(links, gone) || links[gone] == l
  {
    var y :| 0 <= y < |links| && links[y] == l;
    if y != gone {
      StaysBehind(links, gone, y);
    }
  }

  /** The exact pass claims only a link some want has at that very index. */
  lemma {:induction false} ExactClaims(wanted: seq<Want>, links: seq<WinLink>, n: nat, l: WinLink)
    requires n <= |wanted| && l in links && l !in Pass(Unclaimed(links, |wanted|), wanted, true, n).unpaired
    ensures exists i :: 0 <= i < |wanted| && wanted[i] == Want(l.index, Some(l.window))
  {
    var start := Unclaimed(links, |wanted|);
    if n > 0 {
      var before := Pass(start, wanted, true, n - 1);
      if l in before.unpaired {
        var found := Find(before.unpaired, (x: WinLink) => Accepts(wanted[n - 1], true, x));
        StaysUnlessGone(before.unpaired, found.value, l);
        assert wanted[n - 1] == Want(l.index, Some(l.window));
      } else {
        ExactClaims(wanted, links, n - 1, l);
      }
    }
  }

  lemma {:induction false} LooseClaims(middle: Pairing, wanted: seq<Want>, n: nat, whole: seq<WinLink>, at: seq<nat>, a: nat, b: nat)
    requires n <= |wanted| == |middle.linked| && Stand(middle.unpaired, whole, at) && DistinctIndices(whole)
    requires a < b < |whole| && whole[a].window == whole[b].window && whole[b] in middle.unpaired
    requires whole[a] in Pass(middle, wanted, false, n).unpaired
    ensures whole[b] in Pass(middle, wanted, false, n).unpaired
  {
    if n > 0 {
      PassShrinks(middle, wanted, false, n - 1, n);
      LooseClaims(middle, wanted, n - 1, whole, at, a, b);
      var now := UnpairedStand(middle, wanted, false, n - 1, whole, at);
      TakesTheFirst(Pass(middle, wanted, false, n - 1), wanted[n - 1], n - 1, whole, now, a, b);
    }
  }

  /** Live links are claimed in the order they are listed: one is passed over for a
      later one of its window only where a saved link has the later's very index. */
  lemma EarlierIsClaimed(wanted: seq<Want>, links: seq<WinLink>, a: nat, b: nat)
    requires DistinctIndices(links) && a < b < |links| && links[a].window == links[b].window
    requires links[a] in Pair(wanted, links).unpaired && links[b] !in Pair(wanted, links).unpaired
    ensures exists i :: 0 <= i < |wanted| && wanted[i] == Want(links[b].index, Some(links[b].window))
  {
    hide Find, Offer;
    var start := Unclaimed(links, |wanted|);
    var middle := Pass(start, wanted, true, |wanted|);
    assert links[b] in links;
    if links[b] in middle.unpaired {
      var all := seq(|links|, k => k);
      assert Stand(start.unpaired, links, all);
      var at := UnpairedStand(start, wanted, true, |wanted|, links, all);
      LooseClaims(middle, wanted, |wanted|, links, at, a, b);
      assert false;
    } else {
      ExactClaims(wanted, links, |wanted|, links[b]);
    }
  }
}
