/** phoenix-store/src/store.rs, one save: its id, the file it publishes, and what
    its prune leaves. */
module Generations {
  import opened Wrappers
  import opened Snapshots
  import opened Bytes
  import opened Stored
  import opened Header
  import opened Encoding

  /** The generations in the directory, by the id in their names. */
  type Files = map<int, seq<Byte>>

  // ---- What a header says of a file ----

  predicate Readable(file: seq<Byte>) { DecodeHeader(file).Ok? }

  /** Readable and unnamed: the only kind a prune may delete. */
  predicate Plain(file: seq<Byte>) { Readable(file) && DecodeHeader(file).value.tag.None? }

  lemma SavedKind(s: Snapshot, tag: Option<Text>)
    requires HeaderFits(s, tag)
    ensures Readable(PutFile(s, tag)) && DecodeHeader(PutFile(s, tag)).value.tag == tag
  {
    hide DecodeHeader, PutFile, HeaderFits;
    FileHeader(s, tag);
  }

  // ---- Ids ----

  predicate Descending(ids: seq<int>) {
    forall i, j :: 0 <= i < j < |ids| ==> ids[i] > ids[j]
  }

  ghost predicate Top(ids: set<int>, top: int) {
    top in ids && forall id :: id in ids ==> id <= top
  }

  lemma Pick<T>(s: set<T>) returns (x: T)
    requires s != {}
    ensures x in s
  {
    x :| x in s;
  }

  lemma {:induction false} TopExists(ids: set<int>)
    requires ids != {}
    ensures exists top :: Top(ids, top)
    decreases |ids|
  {
    var one := Pick(ids);
    var rest := ids - {one};
    if rest == {} {
      forall id | id in ids ensures id <= one { assert id == one || id in rest; }
      assert Top(ids, one);
    } else {
      TopExists(rest);
      var top :| Top(rest, top);
      forall id | id in ids ensures id <= one || id <= top { assert id == one || id in rest; }
      assert Top(ids, if one > top then one else top);
    }
  }

  function TopOf(ids: set<int>): (top: int)
    requires ids != {}
    ensures Top(ids, top)
  {
    TopExists(ids);
    assert exists top :: top in ids && forall id :: id in ids ==> id <= top by {
      var top :| Top(ids, top);
    }
    var top :| top in ids && forall id :: id in ids ==> id <= top;
    top
  }

  /** Every id, newest first. */
  function Desc(ids: set<int>): (r: seq<int>)
    ensures Descending(r)
    ensures forall id :: id in r <==> id in ids
    decreases |ids|
  {
    if ids == {} then [] else
    var top := TopOf(ids);
    [top] + Desc(ids - {top})
  }

  lemma {:induction false} DescUnique(a: seq<int>, b: seq<int>)
    requires Descending(a) && Descending(b) && forall id :: id in a <==> id in b
    ensures a == b
    decreases |a|
  {
    if |a| > 0 && |b| > 0 {
      assert a[0] in b && b[0] in a;
      forall id ensures id in a[1..] <==> id in b[1..] {
        TailIs(a, id);
        TailIs(b, id);
      }
      DescUnique(a[1..], b[1..]);
      assert a == [a[0]] + a[1..] && b == [b[0]] + b[1..];
    } else {
      NoneMissing(a, b);
      NoneMissing(b, a);
    }
  }

  lemma NoneMissing(a: seq<int>, b: seq<int>)
    requires forall id :: id in b ==> id in a
    ensures |b| > 0 ==> |a| > 0
  {
    if |b| > 0 {
      var id := b[0];
      assert id in b && id in a;
    }
  }

  lemma Extends(a: seq<int>, id: int)
    requires Descending(a) && forall other :: other in a ==> other > id
    ensures Descending(a + [id])
  {
    forall i | 0 <= i < |a| ensures a[i] > id { assert a[i] in a; }
  }

  lemma TailIs(a: seq<int>, id: int)
    requires Descending(a) && |a| > 0
    ensures id in a[1..] <==> id in a && id != a[0]
  {}

  /** In a descending list, an item's position counts the greater ones. */
  lemma {:induction false} PositionCounts(a: seq<int>, p: nat, greater: set<int>)
    requires Descending(a) && p <= |a|
    requires forall id :: id in greater <==> id in a[..p]
    ensures |greater| == p
  {
    if p == 0 {
      assert forall id :: id !in greater;
      assert greater == {};
    } else {
      var rest := greater - {a[p - 1]};
      assert a[p - 1] == a[..p][p - 1];
      assert a[..p] == a[..p - 1] + [a[p - 1]];
      PositionCounts(a, p - 1, rest);
      assert greater == rest + {a[p - 1]};
    }
  }

  function NextId(newest: Option<int>, capturedAt: int): (r: Option<int>)
    ensures r.Some? && newest.Some? ==> r.value > newest.value
    ensures r.None? <==> newest.Some? && newest.value >= 0x7fff_ffff_ffff_ffff
    ensures r.Some? ==> r.value >= capturedAt
    ensures r.Some? ==> r.value == capturedAt || (newest.Some? && r.value == newest.value + 1)
  {
    match newest
    case None => Some(capturedAt)
    case Some(newest) =>
      if newest >= I64 - 1 then None
      else if capturedAt > newest + 1 then Some(capturedAt)
      else Some(newest + 1)
  }

  function Newest(files: Files): (r: Option<int>)
    ensures r.None? <==> files == map[]
    ensures r.Some? ==> Top(files.Keys, r.value)
  {
    if files.Keys == {} then None else Some(TopOf(files.Keys))
  }

  /** No higher than the newest generation there is. */
  predicate Under(id: int, files: Files) { Newest(files).Some? && id <= Newest(files).value }

  lemma PublishRaises(files: Files, capturedAt: int, id: int, bytes: seq<Byte>)
    requires NextId(Newest(files), capturedAt) == Some(id)
    ensures Top(files[id := bytes].Keys, id) && Newest(files[id := bytes]) == Some(id) && id !in files
    ensures forall other :: Under(other, files) ==> other < id
  {
    assert Top(files[id := bytes].Keys, id) by {
      forall other | other in files ensures other < id {
        assert Newest(files).Some?;
      }
    }
  }

  // ---- Retention, stated without a list ----

  function PlainIds(files: Files): set<int> { set id | id in files && Plain(files[id]) }

  /** The untagged generations newer than this one. */
  function Newer(files: Files, id: int): set<int> { set other | other in PlainIds(files) && other > id }

  /** What a prune may delete: untagged, with `keep` newer untagged ones. */
  predicate Doomed(files: Files, keep: nat, id: int) {
    id in PlainIds(files) && |Newer(files, id)| >= keep
  }

  function DoomedIds(files: Files, keep: nat): set<int> { set id | id in files && Doomed(files, keep, id) }

  /** The store with only what retention keeps. */
  function Retained(files: Files, keep: nat): Files { map id | id in files && !Doomed(files, keep, id) :: files[id] }

  /** Skipping the first `keep` of the untagged list is exactly that. */
  lemma SkippedAreDoomed(files: Files, keep: nat)
    ensures var untagged := Desc(PlainIds(files));
            var skipped := if keep <= |untagged| then untagged[keep..] else [];
            Descending(skipped) && forall id :: id in skipped <==> Doomed(files, keep, id)
  {
    hide Plain;
    var untagged := Desc(PlainIds(files));
    forall p | 0 <= p < |untagged| ensures Doomed(files, keep, untagged[p]) <==> p >= keep {
      PositionCounts(untagged, p, Newer(files, untagged[p]));
    }
    forall id | Doomed(files, keep, id) ensures keep <= |untagged| && id in untagged[keep..] {
      var p :| 0 <= p < |untagged| && untagged[p] == id;
      assert untagged[keep..][p - keep] == id;
    }
  }

  /** The same, from the headers alone: a prune may delete a generation exactly when
      its header can be read and has no tag, and at least `keep` newer ones are so. */
  lemma DoomedIffUntagged(files: Files, keep: nat, id: int)
    ensures id in DoomedIds(files, keep) <==>
              && id in files && DecodeHeader(files[id]).Ok? && DecodeHeader(files[id]).value.tag.None?
              && keep <= |set other | other in files && id < other
                                      && DecodeHeader(files[other]).Ok? && DecodeHeader(files[other]).value.tag.None?|
  {
    hide DecodeHeader;
    var newer := set other | other in files && id < other
                             && DecodeHeader(files[other]).Ok? && DecodeHeader(files[other]).value.tag.None?;
    assert Newer(files, id) == newer;
  }

  lemma DoomedAre(files: Files, keep: nat, skipped: seq<int>)
    requires forall id :: id in skipped <==> Doomed(files, keep, id)
    ensures forall id :: id in skipped <==> id in DoomedIds(files, keep)
  {
    hide Plain, Newer;
  }

  /** A prune with room for one never takes the newest generation. */
  lemma NewestIsKept(files: Files, keep: nat, top: int)
    requires keep > 0 && Top(files.Keys, top)
    ensures !Doomed(files, keep, top)
  {
    assert Newer(files, top) == {};
  }

  lemma RetainedIs(files: Files, keep: nat)
    ensures files - DoomedIds(files, keep) == Retained(files, keep)
  {
    hide Doomed;
  }

  lemma PruneKeepsNewest(published: Files, keep: nat, stuck: set<int>, top: int)
    requires keep > 0 && Top(published.Keys, top)
    ensures Top((published - (DoomedIds(published, keep) - stuck)).Keys, top)
    ensures stuck == {} ==> published - (DoomedIds(published, keep) - stuck) == Retained(published, keep)
  {
    hide Doomed, Retained;
    NewestIsKept(published, keep, top);
    RetainedIs(published, keep);
    assert stuck == {} ==> DoomedIds(published, keep) - stuck == DoomedIds(published, keep);
  }

  // ---- The save ----

  datatype Info = Info(id: int, tag: Option<Text>)

  datatype Outcome = Outcome(generation: int, pruned: seq<int>, failed: seq<int>, unreadable: seq<int>)

  predicate Describes(file: seq<Byte>, tag: Option<Text>) {
    Readable(file) && DecodeHeader(file).value.tag == tag
  }

  ghost predicate Has(infos: seq<Info>, id: int) {
    exists i :: 0 <= i < |infos| && infos[i].id == id
  }

  /** The readable ones among the first `n` ids, newest first, each with its tag. */
  ghost predicate ListsFirst(files: Files, ids: seq<int>, n: nat, infos: seq<Info>)
    requires n <= |ids|
  {
    && (forall i, j :: 0 <= i < j < |infos| ==> infos[i].id > infos[j].id)
    && (forall i :: 0 <= i < |infos| ==>
          infos[i].id in ids[..n] && infos[i].id in files && Describes(files[infos[i].id], infos[i].tag))
    && forall id :: id in ids[..n] && id in files && Readable(files[id]) ==> Has(infos, id)
  }

  /** Every readable generation, newest first, each with its tag. */
  ghost predicate Lists(files: Files, infos: seq<Info>) {
    && (forall i, j :: 0 <= i < j < |infos| ==> infos[i].id > infos[j].id)
    && (forall i :: 0 <= i < |infos| ==> infos[i].id in files && Describes(files[infos[i].id], infos[i].tag))
    && forall id :: id in files && Readable(files[id]) ==> Has(infos, id)
  }

  lemma ListsNothing(files: Files, ids: seq<int>)
    ensures ListsFirst(files, ids, 0, [])
  {}

  lemma ListsSkips(files: Files, ids: seq<int>, n: nat, infos: seq<Info>)
    requires n < |ids| && ListsFirst(files, ids, n, infos) && ids[n] in files && !Readable(files[ids[n]])
    ensures ListsFirst(files, ids, n + 1, infos)
  {
    hide Readable, Has;
    assert ids[..n + 1] == ids[..n] + [ids[n]];
  }

  lemma ListsNext(files: Files, ids: seq<int>, n: nat, infos: seq<Info>, tag: Option<Text>)
    requires n < |ids| && Descending(ids) && ListsFirst(files, ids, n, infos)
    requires ids[n] in files && Describes(files[ids[n]], tag)
    ensures ListsFirst(files, ids, n + 1, infos + [Info(ids[n], tag)])
  {
    hide Readable;
    var longer := infos + [Info(ids[n], tag)];
    assert ids[..n + 1] == ids[..n] + [ids[n]];
    forall i | 0 <= i < |infos| ensures infos[i].id > ids[n] {
      assert infos[i].id in ids[..n];
    }
    assert longer[|infos|].id == ids[n];
    forall id | Has(infos, id) ensures Has(longer, id) {
      var k :| 0 <= k < |infos| && infos[k].id == id;
      assert longer[k].id == id;
    }
  }

  lemma ListsAll(files: Files, ids: seq<int>, infos: seq<Info>)
    requires ListsFirst(files, ids, |ids|, infos) && forall id :: id in files ==> id in ids
    ensures Lists(files, infos)
  {
    hide Readable, Has;
    assert ids[..|ids|] == ids;
  }

  /** Reads each listed generation's header. */
  method Existing(files: Files, ids: seq<int>) returns (existing: seq<Info>, unreadable: seq<int>)
    requires Descending(ids) && forall id :: id in ids <==> id in files
    ensures Lists(files, existing)
    ensures unreadable == Desc(set id | id in files && DecodeHeader(files[id]).Err?)
  {
    hide DecodeHeader, ListsFirst;
    existing, unreadable := [], [];
    ListsNothing(files, ids);
    for i := 0 to |ids|
      invariant ListsFirst(files, ids, i, existing)
      invariant Descending(unreadable)
      invariant forall id :: id in unreadable <==> id in ids[..i] && !Readable(files[id])
    {
      var id := ids[i];
      assert id in ids;
      assert ids[..i + 1] == ids[..i] + [id];
      match DecodeHeader(files[id]) {
        case Ok(header) =>
          ListsNext(files, ids, i, existing, header.tag);
          existing := existing + [Info(id, header.tag)];
        case Err(_) =>
          ListsSkips(files, ids, i, existing);
          Extends(unreadable, id);
          unreadable := unreadable + [id];
      }
    }
    assert ids[..|ids|] == ids;
    ListsAll(files, ids, existing);
    DescUnique(unreadable, Desc(set id | id in files && DecodeHeader(files[id]).Err?));
  }

  lemma PublishedListed(files: Files, generation: int, tag: Option<Text>, bytes: seq<Byte>, existing: seq<Info>)
    requires Lists(files, existing) && Describes(bytes, tag) && forall id :: id in files ==> generation > id
    ensures Lists(files[generation := bytes], [Info(generation, tag)] + existing)
  {
    hide Describes, Readable;
    var infos := [Info(generation, tag)] + existing;
    assert infos[0].id == generation;
    assert forall id :: Has(existing, id) ==> Has(infos, id) by {
      assert forall k :: 0 <= k < |existing| ==> infos[k + 1] == existing[k];
    }
  }

  /** The ids of the listed generations that carry no tag. */
  method Untagged(files: Files, infos: seq<Info>) returns (untagged: seq<int>)
    requires Lists(files, infos)
    ensures untagged == Desc(PlainIds(files))
  {
    hide DecodeHeader;
    untagged := [];
    for i := 0 to |infos|
      invariant Descending(untagged)
      invariant forall id :: id in untagged <==> exists k :: 0 <= k < i && infos[k].id == id && infos[k].tag.None?
    {
      if infos[i].tag.None? {
        Extends(untagged, infos[i].id);
        untagged := untagged + [infos[i].id];
      }
    }
    forall id ensures id in untagged <==> id in PlainIds(files) {}
    DescUnique(untagged, Desc(PlainIds(files)));
  }

  class Store {
    var files: Files
    const blobs: BlobStore

    constructor (files: Files, blobs: BlobStore)
      ensures this.files == files && this.blobs == blobs
    {
      this.files := files;
      this.blobs := blobs;
    }

    /** One save from its listing to its prune. `stuck` are the
        generations the filesystem refuses to delete. */
    method Save(s: Snapshot, tag: Option<Text>, keep: nat, stuck: set<int>) returns (r: Option<Outcome>)
      requires keep > 0 && HeaderFits(s, tag)
      modifies this, blobs
      ensures r.None? <==> NextId(Newest(old(files)), s.capturedAt).None?
      ensures r.None? ==> files == old(files) && blobs.blobs == old(blobs.blobs)
      ensures r.Some? ==>
                var id := NextId(Newest(old(files)), s.capturedAt).value;
                var published := old(files)[id := PutFile(s, tag)];
                && r.value.generation == id
                && files == published - (DoomedIds(published, keep) - stuck)
                && r.value.pruned == Desc(DoomedIds(published, keep) - stuck)
                && r.value.failed == Desc(DoomedIds(published, keep) * stuck)
                && r.value.unreadable == Desc(set id | id in old(files) && DecodeHeader(old(files)[id]).Err?)
                && blobs.blobs == PutBlobs(old(blobs.blobs), WindowBlobs(s.windows))
                && Top(files.Keys, id) && (stuck == {} ==> files == Retained(published, keep))
                && (forall id :: id in files ==> id in published && files[id] == published[id])
                && forall id :: id in published ==>
                     (id !in files <==>
                        && DecodeHeader(published[id]).Ok? && DecodeHeader(published[id]).value.tag.None?
                        && keep <= |set other | other in published && id < other
                                                && DecodeHeader(published[other]).Ok?
                                                && DecodeHeader(published[other]).value.tag.None?|
                        && id !in stuck)
    {
      hide PutFile, PutBlobs, HeaderFits, DecodeHeader, DoomedIds, Retained, WindowBlobs, Lists, Desc, Newest, NextId;
      var ids := Desc(files.Keys);
      var next := NextId(Newest(files), s.capturedAt);
      if next.None? {
        return None;
      }
      var generation := next.value;
      var existing, unreadable := Existing(files, ids);
      var bytes := EncodeFile(s, tag, blobs);
      files := files[generation := bytes];
      ghost var published := files;
      SavedKind(s, tag);
      var infos := [Info(generation, tag)] + existing;
      PublishedListed(old(files), generation, tag, bytes, existing);
      var pruned, failed := Prune(keep, infos, stuck);
      PublishRaises(old(files), s.capturedAt, generation, bytes);
      PruneKeepsNewest(published, keep, stuck, generation);
      r := Some(Outcome(generation, pruned, failed, unreadable));
    }

    /** Removes what retention does not keep, reporting what would not go. */
    method Prune(keep: nat, infos: seq<Info>, stuck: set<int>) returns (pruned: seq<int>, failed: seq<int>)
      requires Lists(files, infos)
      modifies this`files
      ensures files == old(files) - (DoomedIds(old(files), keep) - stuck)
      ensures pruned == Desc(DoomedIds(old(files), keep) - stuck)
      ensures failed == Desc(DoomedIds(old(files), keep) * stuck)
      ensures forall id :: id in files ==> id in old(files) && files[id] == old(files)[id]
      ensures forall id :: id in old(files) ==>
                (id !in files <==>
                   && DecodeHeader(old(files)[id]).Ok? && DecodeHeader(old(files)[id]).value.tag.None?
                   && keep <= |set other | other in old(files) && id < other
                                           && DecodeHeader(old(files)[other]).Ok?
                                           && DecodeHeader(old(files)[other]).value.tag.None?|
                   && id !in stuck)
    {
      hide Plain, Doomed, Lists, DoomedIds, PlainIds, DecodeHeader, Desc;
      forall id ensures id in DoomedIds(files, keep) <==>
                          && id in files && DecodeHeader(files[id]).Ok? && DecodeHeader(files[id]).value.tag.None?
                          && keep <= |set other | other in files && id < other
                                                  && DecodeHeader(files[other]).Ok?
                                                  && DecodeHeader(files[other]).value.tag.None?|
      {
        DoomedIffUntagged(files, keep, id);
      }
      var untagged := Untagged(files, infos);
      SkippedAreDoomed(files, keep);
      if keep < |untagged| {
        DoomedAre(files, keep, untagged[keep..]);
        pruned, failed := Remove(untagged[keep..], stuck, DoomedIds(files, keep));
      } else {
        DoomedAre(files, keep, []);
        pruned, failed := Remove([], stuck, DoomedIds(files, keep));
      }
    }

    /** Deletes these, newest first, noting what would not go. */
    method Remove(doomed: seq<int>, stuck: set<int>, ghost ids: set<int>) returns (pruned: seq<int>, failed: seq<int>)
      requires Descending(doomed) && forall id :: id in doomed <==> id in ids
      modifies this`files
      ensures files == old(files) - (ids - stuck)
      ensures pruned == Desc(ids - stuck) && failed == Desc(ids * stuck)
    {
      pruned, failed := [], [];
      for i := 0 to |doomed|
        invariant forall id :: id in pruned <==> id in doomed[..i] && id !in stuck
        invariant forall id :: id in failed <==> id in doomed[..i] && id in stuck
        invariant Descending(pruned) && Descending(failed)
        invariant files == old(files) - (set id | id in pruned)
      {
        var id := doomed[i];
        assert doomed[..i + 1] == doomed[..i] + [id];
        assert forall other :: other in doomed[..i] ==> other > id;
        if id in stuck {
          Extends(failed, id);
          failed := failed + [id];
        } else {
          Extends(pruned, id);
          files := files - {id};
          pruned := pruned + [id];
        }
      }
      assert doomed[..|doomed|] == doomed;
      assert (set id | id in pruned) == ids - stuck;
      DescUnique(pruned, Desc(ids - stuck));
      DescUnique(failed, Desc(ids * stuck));
    }
  }
}
