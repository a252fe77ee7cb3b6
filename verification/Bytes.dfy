/** phoenix-store/src/binary.rs: little-endian integers and length-prefixed
    bytes, written to a growing buffer and read back through a cursor. The
    functions say what a reader finds in the bytes it has left; the classes
    write and read. */
module Bytes {
  import opened Wrappers
  import opened Snapshots

  datatype StoreError =
    | Truncated
    | InvalidUtf8
    | InvalidTag(what: string, found: Byte)
    | InvalidName
    | EmptyCollection
    | BlobNotFound
    | BadMagic
    | UnsupportedFormatVersion(version: nat)
    | ChecksumMismatch
    | Refused(why: SnapshotError)

  /** A value read, and the bytes left after it; or why it could not be. */
  datatype Read<+T> = Got(value: T, rest: seq<Byte>) | Bad(error: StoreError) {
    predicate IsFailure() { Bad? }
    function PropagateFailure<U>(): Read<U>
      requires Bad?
    {
      Bad(error)
    }
    function Extract(): (T, seq<Byte>)
      requires Got?
    {
      (value, rest)
    }
  }

  const U32: nat := 0x1_0000_0000
  const U64: nat := 0x1_0000_0000_0000_0000
  const I64: int := 0x8000_0000_0000_0000

  predicate IsU32(v: nat) { v < U32 }
  predicate IsU64(v: nat) { v < U64 }
  predicate IsI64(v: int) { -I64 <= v < I64 }

  // ---- Little-endian ----

  function Pow256(n: nat): nat {
    if n == 0 then 1 else 256 * Pow256(n - 1)
  }

  /** The low `n` bytes of `v`, least first. */
  function Le(v: nat, n: nat): (b: seq<Byte>)
    ensures |b| == n
  {
    if n == 0 then [] else var low: Byte := v % 256; [low] + Le(v / 256, n - 1)
  }

  function Value(b: seq<Byte>): nat {
    if |b| == 0 then 0 else b[0] + 256 * Value(b[1..])
  }

  lemma {:induction false} ValueOfLe(v: nat, n: nat)
    requires v < Pow256(n)
    ensures Value(Le(v, n)) == v
  {
    if n > 0 {
      ValueOfLe(v / 256, n - 1);
      assert Le(v, n)[1..] == Le(v / 256, n - 1);
    }
  }

  lemma {:induction false} LeOfValue(b: seq<Byte>)
    ensures Le(Value(b), |b|) == b && Value(b) < Pow256(|b|)
  {
    if |b| > 0 {
      LeOfValue(b[1..]);
      assert b == [b[0]] + b[1..];
    }
  }

  /** The bytes of a value read are the bytes it was read from. */
  lemma LeRead(b: seq<Byte>, n: nat)
    requires n <= |b|
    ensures Le(Value(b[..n]), n) == b[..n] && Value(b[..n]) < Pow256(n)
  {
    hide Le, Value, Pow256;
    LeOfValue(b[..n]);
  }

  /** The number four bytes spell, least significant first. */
  function Spelt(p: int, q: int, r: int, s: int): int { p + 0x100 * q + 0x1_0000 * r + 0x100_0000 * s }

  lemma FourBytes(b: seq<Byte>)
    requires |b| == 4
    ensures Value(b) == Spelt(b[0], b[1], b[2], b[3])
  {
    var two := b[2..];
    assert b[1..][1..] == two;
    assert two[1..][1..] == [];
    assert Value(two) == two[0] + 256 * Value(two[1..]) && Value(two[1..]) == two[1];
  }

  lemma EightBytes(b: seq<Byte>)
    requires |b| == 8
    ensures Value(b) == Spelt(b[0], b[1], b[2], b[3]) + 0x1_0000_0000 * Spelt(b[4], b[5], b[6], b[7])
  {
    FourBytes(b[..4]);
    FourBytes(b[4..]);
    ValueJoins(b[..4], b[4..]);
    Widths();
    assert b == b[..4] + b[4..];
  }

  lemma {:induction false} ValueJoins(a: seq<Byte>, b: seq<Byte>)
    ensures Value(a + b) == Value(a) + Pow256(|a|) * Value(b)
  {
    if |a| == 0 {
      assert a + b == b;
    } else {
      ValueJoins(a[1..], b);
      assert (a + b)[1..] == a[1..] + b;
      assert 256 * (Pow256(|a| - 1) * Value(b)) == Pow256(|a|) * Value(b);
    }
  }

  lemma SignedBack(v: nat)
    requires IsU64(v)
    ensures Unsigned(Signed(v)) == v
  {}

  lemma Widths()
    ensures Pow256(4) == U32 && Pow256(8) == U64
  {
    assert Pow256(2) == 65536;
    assert Pow256(4) == U32;
    assert Pow256(6) == 0x1_0000_0000_0000;
  }

  /** A signed integer's two's complement, and back. */
  function Unsigned(v: int): nat {
    v % U64
  }

  function Signed(v: nat): (i: int)
    requires IsU64(v)
    ensures IsI64(i)
  {
    if v < I64 then v else v - U64
  }

  // ---- Writing ----

  function PutU32(v: nat): seq<Byte> { Le(v, 4) }
  function PutU64(v: nat): seq<Byte> { Le(v, 8) }
  function PutI64(v: int): seq<Byte> { Le(Unsigned(v), 8) }

  /** The length as a `u32`, keeping its low 32 bits, then the bytes. */
  function PutBytes(v: seq<Byte>): seq<Byte> { PutU32(|v|) + v }

  // ---- Reading ----

  function Take(b: seq<Byte>, n: nat): (r: Read<seq<Byte>>)
    ensures r.Got? ==> |r.value| == n && b == r.value + r.rest
  {
    if n <= |b| then Got(b[..n], b[n..]) else Bad(Truncated)
  }

  function GetU8(b: seq<Byte>): (r: Read<Byte>) {
    var (v, rest) :- Take(b, 1);
    Got(v[0], rest)
  }

  function GetU32(b: seq<Byte>): (r: Read<nat>) {
    var (v, rest) :- Take(b, 4);
    Got(Value(v), rest)
  }

  function GetU64(b: seq<Byte>): (r: Read<nat>) {
    var (v, rest) :- Take(b, 8);
    Got(Value(v), rest)
  }

  function GetI64(b: seq<Byte>): (r: Read<int>) {
    var (v, rest) :- Take(b, 8);
    LeOfValue(v); Widths();
    Got(Signed(Value(v)), rest)
  }

  function GetBytes(b: seq<Byte>): (r: Read<seq<Byte>>) {
    var (n, rest) :- GetU32(b);
    Take(rest, n)
  }

  lemma TakeBack(v: seq<Byte>, rest: seq<Byte>)
    ensures Take(v + rest, |v|) == Got(v, rest)
  {
    assert (v + rest)[..|v|] == v;
    assert (v + rest)[|v|..] == rest;
  }

  lemma U8Rounds(v: Byte, rest: seq<Byte>)
    ensures GetU8([v] + rest) == Got(v, rest)
  {
    TakeBack([v], rest);
  }

  lemma U32Rounds(v: nat, rest: seq<Byte>)
    requires IsU32(v)
    ensures GetU32(PutU32(v) + rest) == Got(v, rest)
  {
    Widths();
    ValueOfLe(v, 4);
    TakeBack(PutU32(v), rest);
  }

  lemma U32Backs(b: seq<Byte>)
    requires GetU32(b).Got?
    ensures IsU32(GetU32(b).value) && b == PutU32(GetU32(b).value) + GetU32(b).rest
  {
    hide Le, Value, Pow256;
    Widths();
    LeRead(b, 4);
  }

  lemma U64Rounds(v: nat, rest: seq<Byte>)
    requires IsU64(v)
    ensures GetU64(PutU64(v) + rest) == Got(v, rest)
  {
    Widths();
    ValueOfLe(v, 8);
    TakeBack(PutU64(v), rest);
  }

  lemma U64Backs(b: seq<Byte>)
    requires GetU64(b).Got?
    ensures IsU64(GetU64(b).value) && b == PutU64(GetU64(b).value) + GetU64(b).rest
  {
    hide Le, Value, Pow256;
    Widths();
    LeRead(b, 8);
  }

  lemma I64Rounds(v: int, rest: seq<Byte>)
    requires IsI64(v)
    ensures GetI64(PutI64(v) + rest) == Got(v, rest)
  {
    Widths();
    ValueOfLe(Unsigned(v), 8);
    TakeBack(PutI64(v), rest);
  }

  lemma I64Backs(b: seq<Byte>)
    requires GetI64(b).Got?
    ensures IsI64(GetI64(b).value) && b == PutI64(GetI64(b).value) + GetI64(b).rest
  {
    hide Le, Value, Pow256, Signed, Unsigned;
    Widths();
    LeRead(b, 8);
    SignedBack(Value(b[..8]));
  }

  /** A length-prefixed string comes back exactly when its length fits a `u32`:
      a longer one is written under the low 32 bits of its length. */
  lemma BytesRoundExactly(v: seq<Byte>, rest: seq<Byte>)
    ensures GetBytes(PutBytes(v) + rest) == Got(v, rest) <==> IsU32(|v|)
  {
    if IsU32(|v|) {
      BytesRounds(v, rest);
    } else {
      Widths();
      LeOfValue(Le(|v|, 4));
      TakeBack(PutU32(|v|), v + rest);
      assert PutBytes(v) + rest == PutU32(|v|) + (v + rest);
      assert GetU32(PutBytes(v) + rest).value < |v|;
    }
  }

  lemma BytesRounds(v: seq<Byte>, rest: seq<Byte>)
    requires IsU32(|v|)
    ensures GetBytes(PutBytes(v) + rest) == Got(v, rest)
  {
    assert PutBytes(v) + rest == PutU32(|v|) + (v + rest);
    U32Rounds(|v|, v + rest);
    TakeBack(v, rest);
  }

  lemma BytesBacks(b: seq<Byte>)
    requires GetBytes(b).Got?
    ensures IsU32(|GetBytes(b).value|) && b == PutBytes(GetBytes(b).value) + GetBytes(b).rest
  {
    U32Backs(b);
    var n := GetU32(b);
    assert n.rest == GetBytes(b).value + GetBytes(b).rest;
  }

  // ---- UTF-8 (section 4 of RFC 3629) ----

  predicate Tail(b: Byte) { 0x80 <= b <= 0xBF }

  predicate Utf8(s: seq<Byte>) {
    if |s| == 0 then true
    else if s[0] <= 0x7F then Utf8(s[1..])
    else if |s| >= 2 && 0xC2 <= s[0] <= 0xDF && Tail(s[1]) then Utf8(s[2..])
    else if |s| >= 3 && Three(s[0], s[1]) && Tail(s[2]) then Utf8(s[3..])
    else |s| >= 4 && Four(s[0], s[1]) && Tail(s[2]) && Tail(s[3]) && Utf8(s[4..])
  }

  predicate Three(a: Byte, b: Byte) {
    || (a == 0xE0 && 0xA0 <= b <= 0xBF)
    || (0xE1 <= a <= 0xEC && Tail(b))
    || (a == 0xED && 0x80 <= b <= 0x9F)
    || (0xEE <= a <= 0xEF && Tail(b))
  }

  predicate Four(a: Byte, b: Byte) {
    || (a == 0xF0 && 0x90 <= b <= 0xBF)
    || (0xF1 <= a <= 0xF3 && Tail(b))
    || (a == 0xF4 && 0x80 <= b <= 0x8F)
  }

  function GetStr(b: seq<Byte>): (r: Read<Text>) {
    var (s, rest) :- GetBytes(b);
    if Utf8(s) then Got(s, rest) else Bad(InvalidUtf8)
  }

  /** A string its writer can put and its reader gets back. */
  predicate IsStr(s: Text) { IsU32(|s|) && Utf8(s) }

  lemma StrRounds(s: Text, rest: seq<Byte>)
    requires IsStr(s)
    ensures GetStr(PutBytes(s) + rest) == Got(s, rest)
  {
    BytesRounds(s, rest);
  }

  lemma StrBacks(b: seq<Byte>)
    requires GetStr(b).Got?
    ensures IsStr(GetStr(b).value) && b == PutBytes(GetStr(b).value) + GetStr(b).rest
  {
    BytesBacks(b);
  }

  // ---- Counted items ----

  function PutAll<T>(items: seq<T>, put: T -> seq<Byte>): seq<Byte> {
    if |items| == 0 then [] else put(items[0]) + PutAll(items[1..], put)
  }

  function GetAll<T>(acc: seq<T>, n: nat, get: seq<Byte> -> Read<T>, b: seq<Byte>): (r: Read<seq<T>>)
    decreases n
  {
    if n == 0 then Got(acc, b)
    else
      var (item, rest) :- get(b);
      GetAll(acc + [item], n - 1, get, rest)
  }

  function PutVec<T>(items: seq<T>, put: T -> seq<Byte>): seq<Byte> {
    PutU32(|items|) + PutAll(items, put)
  }

  function GetVec<T>(get: seq<Byte> -> Read<T>, b: seq<Byte>): (r: Read<seq<T>>) {
    var (n, rest) :- GetU32(b);
    GetAll([], n, get, rest)
  }

  function GetNonEmpty<T(==)>(get: seq<Byte> -> Read<T>, b: seq<Byte>): (r: Read<seq<T>>)
    ensures r.Got? ==> |r.value| > 0
  {
    var (items, rest) :- GetVec(get, b);
    if items == [] then Bad(EmptyCollection) else Got(items, rest)
  }

  /** Whatever `ok` admits, `get` gets back from what `put` wrote. */
  ghost predicate Rounds<T(!new)>(ok: T -> bool, put: T -> seq<Byte>, get: seq<Byte> -> Read<T>) {
    forall v: T, rest: seq<Byte> :: ok(v) ==> get(put(v) + rest) == Got(v, rest)
  }

  /** Whatever `get` accepts is what `put` writes for the value it got. */
  ghost predicate Backs<T(!new)>(ok: T -> bool, put: T -> seq<Byte>, get: seq<Byte> -> Read<T>) {
    forall b: seq<Byte> :: get(b).Got? ==> ok(get(b).value) && b == put(get(b).value) + get(b).rest
  }

  predicate AllOk<T>(items: seq<T>, ok: T -> bool) {
    forall i :: 0 <= i < |items| ==> ok(items[i])
  }

  lemma {:induction false} AllRounds<T(!new)>(acc: seq<T>, items: seq<T>, ok: T -> bool, put: T -> seq<Byte>,
                                              get: seq<Byte> -> Read<T>, rest: seq<Byte>)
    requires Rounds(ok, put, get) && AllOk(items, ok)
    ensures GetAll(acc, |items|, get, PutAll(items, put) + rest) == Got(acc + items, rest)
    decreases |items|
  {
    if |items| == 0 {
      assert PutAll(items, put) + rest == rest;
      assert acc + items == acc;
    } else {
      var tail := PutAll(items[1..], put) + rest;
      assert PutAll(items, put) + rest == put(items[0]) + tail;
      assert ok(items[0]);
      assert get(put(items[0]) + tail) == Got(items[0], tail);
      AllRounds(acc + [items[0]], items[1..], ok, put, get, rest);
      assert acc + [items[0]] + items[1..] == acc + items;
    }
  }

  lemma {:induction false} AllBacks<T(!new)>(acc: seq<T>, n: nat, ok: T -> bool, put: T -> seq<Byte>,
                                             get: seq<Byte> -> Read<T>, b: seq<Byte>) returns (items: seq<T>)
    requires Backs(ok, put, get) && GetAll(acc, n, get, b).Got?
    ensures GetAll(acc, n, get, b).value == acc + items && |items| == n && AllOk(items, ok)
    ensures b == PutAll(items, put) + GetAll(acc, n, get, b).rest
    decreases n
  {
    if n == 0 {
      items := [];
      assert acc + items == acc;
      assert PutAll(items, put) + b == b;
    } else {
      var first := get(b);
      var more := AllBacks(acc + [first.value], n - 1, ok, put, get, first.rest);
      items := [first.value] + more;
      assert items[1..] == more;
      assert acc + [first.value] + more == acc + items;
    }
  }

  lemma VecRounds<T(!new)>(items: seq<T>, ok: T -> bool, put: T -> seq<Byte>, get: seq<Byte> -> Read<T>, rest: seq<Byte>)
    requires Rounds(ok, put, get) && AllOk(items, ok) && IsU32(|items|)
    ensures GetVec(get, PutVec(items, put) + rest) == Got(items, rest)
  {
    assert PutVec(items, put) + rest == PutU32(|items|) + (PutAll(items, put) + rest);
    U32Rounds(|items|, PutAll(items, put) + rest);
    AllRounds([], items, ok, put, get, rest);
    assert [] + items == items;
  }

  lemma VecBacks<T(!new)>(ok: T -> bool, put: T -> seq<Byte>, get: seq<Byte> -> Read<T>, b: seq<Byte>)
    requires Backs(ok, put, get) && GetVec(get, b).Got?
    ensures AllOk(GetVec(get, b).value, ok) && IsU32(|GetVec(get, b).value|)
    ensures b == PutVec(GetVec(get, b).value, put) + GetVec(get, b).rest
  {
    U32Backs(b);
    var n := GetU32(b);
    var items := AllBacks([], n.value, ok, put, get, n.rest);
    assert [] + items == items;
    assert b == PutU32(n.value) + (PutAll(items, put) + GetVec(get, b).rest);
  }

  // ---- Writing and reading in place ----

  class Writer {
    var buf: seq<Byte>

    constructor ()
      ensures buf == []
    {
      buf := [];
    }

    method WriteU8(v: Byte)
      modifies this
      ensures buf == old(buf) + [v]
    {
      buf := buf + [v];
    }

    method WriteU32(v: nat)
      modifies this
      ensures buf == old(buf) + PutU32(v)
    {
      buf := buf + Le(v, 4);
    }

    method WriteU64(v: nat)
      modifies this
      ensures buf == old(buf) + PutU64(v)
    {
      buf := buf + Le(v, 8);
    }

    method WriteI64(v: int)
      modifies this
      ensures buf == old(buf) + PutI64(v)
    {
      buf := buf + Le(Unsigned(v), 8);
    }

    method WriteBytes(v: seq<Byte>)
      modifies this
      ensures buf == old(buf) + PutBytes(v)
    {
      WriteU32(|v|);
      buf := buf + v;
    }

    method WriteVec<T>(items: seq<T>, put: T -> seq<Byte>)
      modifies this
      ensures buf == old(buf) + PutVec(items, put)
    {
      WriteU32(|items|);
      ghost var start := buf;
      for i := 0 to |items|
        invariant start + PutAll(items, put) == buf + PutAll(items[i..], put)
      {
        assert items[i..][1..] == items[i + 1..];
        buf := buf + put(items[i]);
      }
      assert items[|items|..] == [] && buf + PutAll<T>([], put) == buf;
      assert buf == old(buf) + PutU32(|items|) + PutAll(items, put);
    }
  }

  class Reader {
    const buf: seq<Byte>
    var pos: nat

    ghost predicate Valid()
      reads this
    {
      pos <= |buf|
    }

    constructor (buf: seq<Byte>)
      ensures Valid() && this.buf == buf && Remaining() == buf
    {
      this.buf := buf;
      pos := 0;
    }

    /** The bytes not read yet. */
    function Remaining(): seq<Byte>
      requires Valid()
      reads this
    {
      buf[pos..]
    }

    /** `r` is what `found` says is in the bytes that remained, and the cursor is
        past it; a failed read leaves the cursor in the bytes. */
    ghost predicate Follows<T>(found: Read<T>, r: Read<T>)
      reads this
    {
      && Valid()
      && (r.Got? ==> found.Got? && r.value == found.value && r.rest == found.rest == Remaining())
      && (r.Bad? ==> found == r)
    }

    method TakeBytes(n: nat) returns (r: Read<seq<Byte>>)
      requires Valid()
      modifies this
      ensures Follows(Take(old(Remaining()), n), r)
    {
      if pos + n <= |buf| {
        var slice := buf[pos..pos + n];
        assert slice == Remaining()[..n] && buf[pos + n..] == Remaining()[n..];
        pos := pos + n;
        r := Got(slice, buf[pos..]);
      } else {
        r := Bad(Truncated);
      }
    }

    method ReadU8() returns (r: Read<Byte>)
      requires Valid()
      modifies this
      ensures Follows(GetU8(old(Remaining())), r)
    {
      var taken :- TakeBytes(1);
      r := Got(taken.0[0], taken.1);
    }

    method ReadU32() returns (r: Read<nat>)
      requires Valid()
      modifies this
      ensures Follows(GetU32(old(Remaining())), r)
    {
      var taken :- TakeBytes(4);
      r := Got(Value(taken.0), taken.1);
    }

    method ReadU64() returns (r: Read<nat>)
      requires Valid()
      modifies this
      ensures Follows(GetU64(old(Remaining())), r)
    {
      var taken :- TakeBytes(8);
      r := Got(Value(taken.0), taken.1);
    }

    method ReadI64() returns (r: Read<int>)
      requires Valid()
      modifies this
      ensures Follows(GetI64(old(Remaining())), r)
    {
      var taken :- TakeBytes(8);
      LeOfValue(taken.0);
      Widths();
      r := Got(Signed(Value(taken.0)), taken.1);
    }

    method ReadBytes() returns (r: Read<seq<Byte>>)
      requires Valid()
      modifies this
      ensures Follows(GetBytes(old(Remaining())), r)
    {
      var n :- ReadU32();
      r := TakeBytes(n.0);
    }

    method ReadStr() returns (r: Read<Text>)
      requires Valid()
      modifies this
      ensures Follows(GetStr(old(Remaining())), r)
    {
      var s :- ReadBytes();
      r := if Utf8(s.0) then Got(s.0, s.1) else Bad(InvalidUtf8);
    }
  }
}
