/** tmux-control/src/protocol/decode.rs: the octal decoder for pane output. Its
    one loop steps its index back on a malformed escape. */
module Octal {
  import opened Wrappers

  const SPACE: Byte := 0x20
  const BACKSLASH: Byte := 0x5c
  const CR: Byte := 0x0d
  const QUESTION: Byte := 0x3f
  const ZERO: Byte := 0x30

  predicate IsOctal(b: Byte) { ZERO <= b <= 0x37 }

  function SkipCr(s: seq<Byte>): (r: seq<Byte>)
    ensures |r| <= |s| && (|r| > 0 ==> r[0] != CR)
  {
    if |s| > 0 && s[0] == CR then SkipCr(s[1..]) else s
  }

  /** Reads `n` octal digits onto `value`, skipping any CR before each; the value,
      or none if one is missing, and what is left from the byte that was not one. */
  function Digits(s: seq<Byte>, n: nat, value: nat): (r: (Option<nat>, seq<Byte>))
    ensures |r.1| <= |s|
    decreases n
  {
    if n == 0 then (Some(value), s) else
    var t := SkipCr(s);
    if |t| == 0 || !IsOctal(t[0]) then (None, t)
    else Digits(t[1..], n - 1, value * 8 + (t[0] - ZERO))
  }

  function Escaped(value: Option<nat>): Byte {
    if value.Some? && value.value < 256 then value.value else QUESTION
  }

  /** What the bytes decode to, read from the front. */
  function Decoded(s: seq<Byte>): (r: seq<Byte>)
    decreases |s|
  {
    if |s| == 0 then []
    else if s[0] < SPACE then Decoded(s[1..])
    else if s[0] == BACKSLASH then
      var (value, rest) := Digits(s[1..], 3, 0);
      [Escaped(value)] + Decoded(rest)
    else [s[0]] + Decoded(s[1..])
  }

  /** The escape at `from`: its index steps over up to three digits, and back off
      the byte that was not one. */
  method Escape(input: seq<Byte>, from: nat) returns (c: Byte, i: nat)
    requires from < |input|
    ensures from <= i < |input|
    ensures (c, input[i + 1..]) == (Escaped(Digits(input[from + 1..], 3, 0).0), Digits(input[from + 1..], 3, 0).1)
  {
    hide SkipCr;
    i := from;
    var value: nat := 0;
    for k := 0 to 3
      invariant from <= i < |input|
      invariant Digits(input[from + 1..], 3, 0) == Digits(input[i + 1..], 3 - k, value)
    {
      var at := AfterCrs(input, i + 1);
      if at == |input| || !IsOctal(input[at]) {
        return QUESTION, at - 1;
      }
      assert input[at..][1..] == input[at + 1..];
      value := value * 8 + (input[at] - ZERO);
      i := at;
    }
    c := if value < 256 then value else QUESTION;
  }

  method AfterCrs(input: seq<Byte>, from: nat) returns (i: nat)
    requires from <= |input|
    ensures from <= i <= |input| && SkipCr(input[from..]) == input[i..]
  {
    i := from;
    while i < |input| && input[i] == CR
      invariant from <= i <= |input| && SkipCr(input[from..]) == SkipCr(input[i..])
    {
      assert input[i..][1..] == input[i + 1..];
      i := i + 1;
    }
  }

  /** The decoder: one index over the bytes. */
  method DecodeOctal(input: seq<Byte>) returns (result: seq<Byte>)
    ensures result == Decoded(input)
  {
    hide Digits;
    result := [];
    var i := 0;
    assert input[0..] == input;
    while i < |input|
      invariant 0 <= i <= |input|
      invariant Decoded(input) == result + Decoded(input[i..])
      decreases |input| - i
    {
      var c := input[i];
      assert input[i..][1..] == input[i + 1..];
      if c >= SPACE {
        ghost var before, from := result, i;
        if c == BACKSLASH {
          c, i := Escape(input, i);
        }
        result := result + [c];
        assert Decoded(input[from..]) == [c] + Decoded(input[i + 1..]);
        assert before + ([c] + Decoded(input[i + 1..])) == result + Decoded(input[i + 1..]);
      }
      i := i + 1;
    }
  }

  // ---- It undoes the wire's escaping ----

  /** How tmux writes pane output: every byte below a space and every backslash
      as three octal digits. */
  function WireEscaped(data: seq<Byte>): (r: seq<Byte>) {
    if |data| == 0 then []
    else (if data[0] < SPACE || data[0] == BACKSLASH then OctalEscape(data[0]) else [data[0]]) + WireEscaped(data[1..])
  }

  function OctalEscape(b: Byte): seq<Byte> {
    [BACKSLASH, ZERO + b / 64, ZERO + b / 8 % 8, ZERO + b % 8]
  }

  lemma OctalValue(b: Byte)
    ensures b / 64 * 64 + b / 8 % 8 * 8 + b % 8 == b
  {
    assert b / 8 / 8 == b / 64;
  }

  lemma EscapeDecodes(b: Byte, rest: seq<Byte>)
    ensures Decoded(OctalEscape(b) + rest) == [b] + Decoded(rest)
  {
    var (d, e, f) := (b / 64, b / 8 % 8, b % 8);
    var s := OctalEscape(b) + rest;
    assert s[1..] == [ZERO + d, ZERO + e, ZERO + f] + rest;
    assert ([ZERO + d, ZERO + e, ZERO + f] + rest)[1..] == [ZERO + e, ZERO + f] + rest;
    assert ([ZERO + e, ZERO + f] + rest)[1..] == [ZERO + f] + rest;
    assert ([ZERO + f] + rest)[1..] == rest;
    OctalValue(b);
    assert Digits(s[1..], 3, 0) == (Some(b as nat), rest);
  }

  /** Every byte sequence comes back from its wire form. */
  lemma {:induction false} DecodeUndoesEscape(data: seq<Byte>)
    ensures Decoded(WireEscaped(data)) == data
  {
    hide Decoded, OctalEscape;
    if |data| == 0 {
      NothingDecodes();
    } else {
      DecodeUndoesEscape(data[1..]);
      var rest := WireEscaped(data[1..]);
      if data[0] < SPACE || data[0] == BACKSLASH {
        EscapeDecodes(data[0], rest);
      } else {
        PlainDecodes(data[0], rest);
      }
      assert [data[0]] + data[1..] == data;
    }
  }

  lemma NothingDecodes()
    ensures Decoded([]) == []
  {}

  lemma PlainDecodes(b: Byte, rest: seq<Byte>)
    requires b >= SPACE && b != BACKSLASH
    ensures Decoded([b] + rest) == [b] + Decoded(rest)
  {
    assert ([b] + rest)[1..] == rest;
  }

  // ---- It does not see carriage returns ----

  function WithoutCr(s: seq<Byte>): (r: seq<Byte>)
    ensures CR !in r && |r| <= |s|
  {
    if |s| == 0 then [] else (if s[0] == CR then [] else [s[0]]) + WithoutCr(s[1..])
  }

  lemma {:induction false} WithoutCrSkips(s: seq<Byte>)
    ensures SkipCr(WithoutCr(s)) == WithoutCr(s) == WithoutCr(SkipCr(s))
  {
    if |s| > 0 && s[0] == CR {
      WithoutCrSkips(s[1..]);
    }
  }

  lemma {:induction false} WithoutCrDigits(s: seq<Byte>, n: nat, value: nat)
    ensures Digits(WithoutCr(s), n, value) == (Digits(s, n, value).0, WithoutCr(Digits(s, n, value).1))
    decreases n
  {
    if n > 0 {
      WithoutCrSkips(s);
      var t := SkipCr(s);
      if |t| > 0 {
        assert WithoutCr(t) == [t[0]] + WithoutCr(t[1..]);
        if IsOctal(t[0]) {
          WithoutCrDigits(t[1..], n - 1, value * 8 + (t[0] - ZERO));
        }
      }
    }
  }

  /** Carriage returns a line driver adds anywhere, inside an escape or out,
      change nothing. */
  lemma {:induction false} DecodeIgnoresCr(s: seq<Byte>)
    ensures Decoded(WithoutCr(s)) == Decoded(s)
    decreases |s|
  {
    if |s| > 0 {
      DecodeIgnoresCr(s[1..]);
      if s[0] == BACKSLASH {
        WithoutCrDigits(s[1..], 3, 0);
        DecodeIgnoresCr(Digits(s[1..], 3, 0).1);
        assert WithoutCr(s)[1..] == WithoutCr(s[1..]);
      } else if s[0] == CR {
        assert WithoutCr(s) == WithoutCr(s[1..]);
      } else {
        assert WithoutCr(s)[1..] == WithoutCr(s[1..]);
      }
    }
  }

  /** So pane output survives the wire however carriage returns are added to it. */
  lemma OutputSurvivesCr(data: seq<Byte>, wire: seq<Byte>)
    requires WithoutCr(wire) == WireEscaped(data)
    ensures Decoded(wire) == data
  {
    DecodeIgnoresCr(wire);
    DecodeUndoesEscape(data);
  }
}
