/** phoenix-store/src/checksum.rs and blob_store.rs: FNV-1a, which catches every
    change of one byte, and the content-addressed blobs keyed by it. */
module Checksum {
  import opened Wrappers
  import opened Bytes

  const FNV_OFFSET_BASIS: nat := 0xcbf29ce484222325
  const FNV_PRIME: nat := 0x100000001b3

  /** The prime's inverse modulo 2^64. */
  const FNV_INVERSE: nat := 0xce965057aff6957b

  /** Exclusive or of the low `n` bits. */
  function Xor(a: nat, b: nat, n: nat): (r: nat)
    ensures r < Pow2(n)
  {
    if n == 0 then 0 else (if a % 2 == b % 2 then 0 else 1) + 2 * Xor(a / 2, b / 2, n - 1)
  }

  function Pow2(n: nat): nat {
    if n == 0 then 1 else 2 * Pow2(n - 1)
  }

  /** A `u64` with a byte exclusive-ored into it: only its low byte changes. */
  function XorByte(h: nat, b: Byte): (r: nat)
    ensures IsU64(h) ==> IsU64(r)
  {
    assert Pow2(8) == 256 by { assert Pow2(4) == 16; }
    h - h % 256 + Xor(h % 256, b, 8)
  }

  function Step(h: nat, b: Byte): (r: nat)
    ensures IsU64(r)
  {
    XorByte(h, b) * FNV_PRIME % U64
  }

  function FnvFrom(h: nat, bytes: seq<Byte>): (r: nat)
    requires IsU64(h)
    ensures IsU64(r)
  {
    if |bytes| == 0 then h else Step(FnvFrom(h, bytes[..|bytes| - 1]), bytes[|bytes| - 1])
  }

  function Fnv(bytes: seq<Byte>): (r: nat)
    ensures IsU64(r)
  {
    FnvFrom(FNV_OFFSET_BASIS, bytes)
  }

  /** One pass over the bytes, with a running hash. */
  method Fnv1a64(bytes: seq<Byte>) returns (hash: nat)
    ensures hash == Fnv(bytes)
  {
    hash := FNV_OFFSET_BASIS;
    for i := 0 to |bytes|
      invariant IsU64(hash) && hash == Fnv(bytes[..i])
    {
      assert bytes[..i + 1][..i] == bytes[..i];
      hash := XorByte(hash, bytes[i]);
      hash := hash * FNV_PRIME % U64;
    }
    assert bytes[..|bytes|] == bytes;
  }

  // ---- Each step loses nothing ----

  lemma {:induction false} XorInjective(a: nat, b: nat, c: nat, d: nat, n: nat)
    requires a < Pow2(n) && b < Pow2(n) && c < Pow2(n) && d < Pow2(n) && Xor(a, b, n) == Xor(c, d, n)
    ensures a == c <==> b == d
  {
    if n > 0 {
      XorInjective(a / 2, b / 2, c / 2, d / 2, n - 1);
    }
  }

  /** What the exclusive or leaves of the high bytes and of the low one. */
  lemma LowByteSplits(h: nat, b: Byte)
    ensures XorByte(h, b) % 256 == Xor(h % 256, b, 8) && XorByte(h, b) - XorByte(h, b) % 256 == h - h % 256
    ensures Pow2(8) == 256
  {
    hide Xor;
    assert Pow2(8) == 256 by { assert Pow2(4) == 16; }
    var low := Xor(h % 256, b, 8);
    assert XorByte(h, b) == h / 256 * 256 + low;
  }

  lemma XorByteInjective(g: nat, h: nat, a: Byte, b: Byte)
    requires XorByte(g, a) == XorByte(h, b)
    ensures g == h <==> a == b
  {
    hide Xor, Pow2;
    LowByteSplits(g, a);
    LowByteSplits(h, b);
    assert g == g - g % 256 + g % 256 && h == h - h % 256 + h % 256;
    XorInjective(g % 256, a, h % 256, b, 8);
  }

  /** Multiplying by an odd number modulo 2^64 can be undone. */
  lemma PrimeInjective(x: nat, y: nat)
    requires IsU64(x) && IsU64(y) && x * FNV_PRIME % U64 == y * FNV_PRIME % U64
    ensures x == y
  {
    PrimeUndone(x);
    PrimeUndone(y);
  }

  lemma PrimeUndone(x: nat)
    requires IsU64(x)
    ensures (x * FNV_PRIME % U64) * FNV_INVERSE % U64 == x
  {
    var q := x * FNV_PRIME / U64;
    Residue((x * FNV_PRIME % U64) * FNV_INVERSE, x * 887285111055 - q * FNV_INVERSE, x);
  }

  lemma Residue(n: int, k: int, r: nat)
    requires IsU64(r) && n == k * U64 + r
    ensures n % U64 == r
  {}

  lemma StepInjective(g: nat, h: nat, a: Byte, b: Byte)
    requires IsU64(g) && IsU64(h) && Step(g, a) == Step(h, b)
    ensures g == h <==> a == b
  {
    PrimeInjective(XorByte(g, a), XorByte(h, b));
    XorByteInjective(g, h, a, b);
  }

  lemma {:induction false} SuffixInjective(g: nat, h: nat, bytes: seq<Byte>)
    requires IsU64(g) && IsU64(h) && FnvFrom(g, bytes) == FnvFrom(h, bytes)
    ensures g == h
  {
    if |bytes| > 0 {
      var last := |bytes| - 1;
      StepInjective(FnvFrom(g, bytes[..last]), FnvFrom(h, bytes[..last]), bytes[last], bytes[last]);
      SuffixInjective(g, h, bytes[..last]);
    }
  }

  lemma {:induction false} FnvSplits(h: nat, a: seq<Byte>, b: seq<Byte>)
    requires IsU64(h)
    ensures FnvFrom(h, a + b) == FnvFrom(FnvFrom(h, a), b)
  {
    if |b| == 0 {
      assert a + b == a;
    } else {
      assert (a + b)[..|a + b| - 1] == a + b[..|b| - 1];
      FnvSplits(h, a, b[..|b| - 1]);
    }
  }

  /** Changing any single byte always changes the checksum. */
  lemma OneByteIsCaught(bytes: seq<Byte>, at: nat, b: Byte)
    requires at < |bytes| && bytes[at] != b
    ensures Fnv(bytes[at := b]) != Fnv(bytes)
  {
    var before, after := bytes[..at], bytes[at + 1..];
    var h := Fnv(before);
    assert bytes == before + [bytes[at]] + after;
    assert bytes[at := b] == before + [b] + after;
    FnvSplits(FNV_OFFSET_BASIS, before + [bytes[at]], after);
    FnvSplits(FNV_OFFSET_BASIS, before + [b], after);
    assert (before + [b])[..|before|] == before && (before + [bytes[at]])[..|before|] == before;
    if Fnv(bytes[at := b]) == Fnv(bytes) {
      SuffixInjective(Step(h, b), Step(h, bytes[at]), after);
      StepInjective(h, h, b, bytes[at]);
    }
  }

  // ---- Content addressing ----

  const SALT: seq<Byte> := Ascii("tmux-phoenix-content-hash-v1")

  type Hash = seq<Byte>
  type Blobs = map<Hash, seq<Byte>>

  function ContentHash(bytes: seq<Byte>): (h: Hash)
    ensures |h| == 16
  {
    Le(Fnv(bytes), 8) + Le(Fnv(SALT + bytes), 8)
  }

  method CopyInto(out: array<Byte>, at: nat, bytes: seq<Byte>)
    requires at + |bytes| <= out.Length
    modifies out
    ensures out[at..at + |bytes|] == bytes
    ensures forall i :: 0 <= i < out.Length && !(at <= i < at + |bytes|) ==> out[i] == old(out[i])
  {
    forall i | at <= i < at + |bytes| { out[i] := bytes[i - at]; }
  }

  /** Both halves, filled into one array in place. */
  method HashContent(bytes: seq<Byte>) returns (out: array<Byte>)
    ensures fresh(out) && out[..] == ContentHash(bytes)
  {
    hide Fnv, FnvFrom, Le, Ascii;
    var low := Fnv1a64(bytes);
    var high := Fnv1a64(SALT + bytes);
    out := new Byte[16](_ => 0);
    CopyInto(out, 0, Le(low, 8));
    CopyInto(out, 8, Le(high, 8));
    assert out[..] == out[..8] + out[8..16];
  }

  /** `BlobStore::put`: adds the content unless its key is there. */
  function Put(blobs: Blobs, content: seq<Byte>): Blobs {
    var hash := ContentHash(content);
    if hash in blobs then blobs else blobs[hash := content]
  }

  /** Every blob is under its own key. */
  ghost predicate Sound(blobs: Blobs) {
    forall h :: h in blobs ==> ContentHash(blobs[h]) == h
  }

  /** `blobs` gives back `content`: its key is not another content's. */
  ghost predicate Keeps(blobs: Blobs, content: seq<Byte>) {
    ContentHash(content) in blobs && blobs[ContentHash(content)] == content
  }

  /** No stored content shares `content`'s key. */
  ghost predicate NoCollision(blobs: Blobs, content: seq<Byte>) {
    ContentHash(content) in blobs ==> blobs[ContentHash(content)] == content
  }

  /** A put keeps every blob there was, keeps the store sound, and stores the
      content exactly when no stored content collides with it. */
  lemma PutKeeps(blobs: Blobs, content: seq<Byte>)
    ensures forall h :: h in blobs ==> h in Put(blobs, content) && Put(blobs, content)[h] == blobs[h]
    ensures Sound(blobs) ==> Sound(Put(blobs, content))
    ensures Keeps(Put(blobs, content), content) <==> NoCollision(blobs, content)
    ensures Keeps(blobs, content) ==> Put(blobs, content) == blobs
  {
    hide ContentHash;
  }
}
