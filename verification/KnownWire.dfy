/** What is on the wire, byte by byte: the lines that open and settle a reply block,
    and what becomes of pane output no escape of tmux's own would make. */
module KnownWire {
  import opened Wrappers
  import opened Framing
  import opened Blocks
  import O = Octal
  import P = Outputs

  // ---- Reply blocks ----

  /** A line settles a block when its word is `%end` or `%error`, whatever follows. */
  lemma TerminatorsAre(line: Text)
    ensures IsTerminator(line) <==>
              || line == [37, 101, 110, 100] || [37, 101, 110, 100, 32] <= line
              || line == [37, 101, 114, 114, 111, 114] || [37, 101, 114, 114, 111, 114, 32] <= line
  {
    hide SpaceAt;
    assert [37, 101, 110, 100, 32] == [37, 101, 110, 100] + [SPACE];
    assert [37, 101, 114, 114, 111, 114, 32] == [37, 101, 114, 114, 111, 114] + [SPACE];
    if |line| > 0 && line[0] == PERCENT {
      MarkAhead(line, END, [37, 101, 110, 100]);
      MarkAhead(line, ERROR, [37, 101, 114, 114, 111, 114]);
    }
  }

  lemma MarkAhead(line: Text, word: Text, mark: Text)
    requires |line| > 0 && line[0] == PERCENT && SPACE !in word && mark == [PERCENT] + word
    ensures line[1..][..SpaceAt(line[1..])] == word <==> line == mark || mark + [SPACE] <= line
  {
    hide SpaceAt;
    WordAhead(line[1..], word);
    assert line == [PERCENT] + line[1..];
    assert mark + [SPACE] == [PERCENT] + (word + [SPACE]);
  }

  /** What is before the first space is this word: alone, or with a space after it. */
  lemma WordAhead(s: Text, word: Text)
    requires SPACE !in word
    ensures s[..SpaceAt(s)] == word <==> s == word || word + [SPACE] <= s
  {
    var i := SpaceAt(s);
    if s[..i] == word {
      assert s == s[..i] + s[i..];
      if i < |s| { assert s[i..] == [SPACE] + s[i + 1..]; }
    }
    if s == word {
      FirstSpace(word, []);
    }
    if word + [SPACE] <= s {
      var more := s[|word| + 1..];
      assert s == word + ([SPACE] + more);
      FirstSpace(word, more);
    }
  }

  function Guarded(word: Text, t: Byte, n: Byte, f: Byte): Text
    requires t < 10 && n < 10 && f < 10
  {
    word + [32, 48 + t, 32, 48 + n, 32, 48 + f, 10]
  }

  lemma GuardSpelt(word: Text, t: Byte, n: Byte, f: Byte)
    requires t < 10 && n < 10 && f < 10
    ensures GuardLine(word, Guard(t, n, f)) + [LF] == Guarded([37] + word, t, n, f)
  {}

  /** A block opened by `%begin` is a reply: one that worked when `%end` settles it,
      and an error when `%error` does; its lines are those between. */
  lemma KnownBlock(notify: Notify, t: Byte, n: Byte, f: Byte, line: Text, ok: bool, chunks: seq<Text>)
    requires t < 10 && n < 10 && f < 10 && Plain(line) && !IsTerminator(line)
    requires Flat(chunks)
          == Guarded([37, 98, 101, 103, 105, 110], t, n, f) + (line + [10])
             + Guarded(if ok then [37, 101, 110, 100] else [37, 101, 114, 114, 111, 114], t, n, f)
    ensures RouteAll([], FedAll(notify, State([], None), chunks).1)
         == ([], [Reply(if ok then Done(Guard(t, n, f), [line]) else Failed(Guard(t, n, f), [line]))])
  {
    hide RouteAll, FedAll, IsTerminator, GuardLine, Plain, Flat;
    var g := Guard(t, n, f);
    var item := Block(g, [line], ok, g);
    GuardSpelt(BEGIN, t, n, f);
    GuardSpelt(if ok then END else ERROR, t, n, f);
    assert [37] + BEGIN == [37, 98, 101, 103, 105, 110] && [37] + END == [37, 101, 110, 100];
    assert [37] + ERROR == [37, 101, 114, 114, 111, 114];
    OneRendered(item);
    StreamComesBack(notify, [item], chunks);
    OneExpected(notify, item);
  }

  lemma OneRendered(item: Item)
    requires item.Block? && |item.body| == 1
    ensures Rendered([item])
         == (GuardLine(BEGIN, item.begin) + [LF]) + (item.body[0] + [LF])
            + (GuardLine(if item.ok then END else ERROR, item.end) + [LF])
  {
    hide GuardLine;
    var (a, b, c) := (GuardLine(BEGIN, item.begin), item.body[0], GuardLine(if item.ok then END else ERROR, item.end));
    assert [item][1..] == [];
    assert AllLines([item]) == [a, b, c] + AllLines([]);
    assert AllLines([item]) == [a, b, c];
    assert [a, b, c][1..] == [b, c] && [b, c][1..] == [c];
    var none: seq<Text> := [];
    assert Unlines(none) == [];
    assert Unlines([c]) == c + [LF];
    assert Unlines([b, c]) == b + [LF] + (c + [LF]);
  }

  lemma OneExpected(notify: Notify, item: Item)
    requires item.Block?
    ensures AllExpected(notify, [item]) == [Expected(notify, item).value]
  {
    assert [item][1..] == [];
    var none: seq<Item> := [];
    assert AllExpected(notify, none) == [];
  }

  /** A line that settles a block but is no guard closes it all the same, as an error
      of the protocol that names the block's command; what had been said is dropped. */
  lemma BadTerminator(notify: Notify, number: nat, lines: seq<Text>, line: Text)
    requires IsTerminator(line) && ParseGuard(Words(line).1).None?
    ensures Processed(notify, Some(number), line) == (None, ProtocolError(number, line))
    ensures RouteOne(lines, ProtocolError(number, line)) == ([], Some(Reply(Malformed(number, line))))
  {
    hide ParseGuard;
  }

  /** A number on the wire is read when its field can hold it. */
  lemma NumbersFit(n: nat)
    ensures ParseDecimal(Decimal(n), U32_MAX) == if n <= 0xffff_ffff then Some(n) else None
    ensures ParseDecimal(Decimal(n), I64_MAX) == if n <= 0x7fff_ffff_ffff_ffff then Some(n) else None
  {
    DecimalIsParsed(n);
  }

  /** Only digits are a number: no sign, no space, nothing after it. */
  lemma OnlyDigits(s: Text, max: nat)
    requires ParseDecimal(s, max).Some?
    ensures |s| > 0 && forall i :: 0 <= i < |s| ==> 48 <= s[i] <= 57
  {
    assert forall i :: 0 <= i < |s| ==> IsDigit(s[i]);
  }

  // ---- Lines outside a block ----

  /** A line that does not begin with a percent sign, or is no more than one with a
      space after it, is nothing the client knows, whatever notifications it reads. */
  lemma PlainIsUnknown(notify: Notify, line: Text)
    requires |line| == 0 || line[0] != 37 || line == [37] || line[..2] == [37, 32]
    ensures Processed(notify, None, line) == (None, Unknown(line))
  {
    assert |line| > 1 && line[..2] == [37, 32] ==> line[1..][0] == 32;
  }

  /** Any other line but a guard is what its word and the rest of it are read as, or
      else unknown. */
  lemma NoticesExactly(notify: Notify, word: Text, args: Text)
    requires |word| > 0 && 32 !in word && word != BEGIN && word != END && word != ERROR
    ensures Processed(notify, None, [37] + word + [32] + args)
         == (None, match notify(word, args)
                   case Some(notice) => Notification(notice)
                   case None => Unknown([37] + word + [32] + args))
  {
    var line := [37] + word + [32] + args;
    assert line[1..] == word + ([SPACE] + args);
    FirstSpace(word, args);
    assert Words(line).0 == word && Words(line).1 == args;
  }

  // ---- Pane output ----

  /** The word of pane output, and how it names a pane. */
  lemma KnownOutput(args: Text, pane: Byte)
    requires pane < 10
    ensures P.OUTPUT == [111, 117, 116, 112, 117, 116]
    ensures P.ParseOutput([37, 48 + pane, 32] + args) == Some(PaneOutput(pane, O.Decoded(args)))
  {
    P.OutputIsParsed(pane, args);
    assert [PERCENT] + Decimal(pane) + ([SPACE] + args) == [37, 48 + pane, 32] + args;
  }

  /** A control byte not escaped is noise, and dropped; any other but a backslash is
      itself. */
  lemma PlainOutput(b: Byte, rest: seq<Byte>)
    requires b != 0x5c
    ensures O.Decoded([b] + rest) == (if b < 0x20 then [] else [b]) + O.Decoded(rest)
  {
    assert ([b] + rest)[1..] == rest;
  }

  /** Three octal digits are a byte, or a question mark beyond the largest. */
  lemma OctalOutput(x: Byte, y: Byte, z: Byte, rest: seq<Byte>)
    requires x < 8 && y < 8 && z < 8
    ensures O.Decoded([0x5c, 48 + x, 48 + y, 48 + z] + rest)
         == (if x < 4 then [64 * x as int + 8 * y as int + z as int] else [0x3f]) + O.Decoded(rest)
  {
    hide O.Decoded;
    var s := [48 + x, 48 + y, 48 + z] + rest;
    assert s[1..] == [48 + y, 48 + z] + rest && s[1..][1..] == [48 + z] + rest && s[1..][1..][1..] == rest;
    assert O.Digits(s, 3, 0) == O.Digits(s[1..], 2, x);
    assert O.Digits(s[1..], 2, x) == O.Digits(s[1..][1..], 1, x as int * 8 + y as int);
    assert O.Digits(s, 3, 0) == (Some(64 * x as int + 8 * y as int + z as int), rest);
    BackslashDecodes(s);
    assert [0x5c, 48 + x, 48 + y, 48 + z] + rest == [0x5c] + s;
  }

  lemma BackslashDecodes(s: seq<Byte>)
    ensures O.Decoded([0x5c] + s) == [O.Escaped(O.Digits(s, 3, 0).0)] + O.Decoded(O.Digits(s, 3, 0).1)
  {
    assert ([0x5c] + s)[1..] == s;
  }

  /** An escape cut short by anything else is a question mark, and the digits it had
      are gone; reading goes on from what cut it. */
  lemma MalformedOutput(digits: seq<Byte>, rest: seq<Byte>)
    requires |digits| < 3 && forall i :: 0 <= i < |digits| ==> 48 <= digits[i] < 56
    requires |rest| > 0 ==> rest[0] != 13 && !(48 <= rest[0] < 56)
    ensures O.Decoded([0x5c] + digits + rest) == [0x3f] + O.Decoded(rest)
  {
    hide O.Decoded;
    CutShort(digits, rest, 3, 0);
    BackslashDecodes(digits + rest);
    assert [0x5c] + digits + rest == [0x5c] + (digits + rest);
  }

  lemma {:induction false} CutShort(digits: seq<Byte>, rest: seq<Byte>, n: nat, value: nat)
    requires |digits| < n && forall i :: 0 <= i < |digits| ==> 48 <= digits[i] < 56
    requires |rest| > 0 ==> rest[0] != 13 && !(48 <= rest[0] < 56)
    ensures O.Digits(digits + rest, n, value) == (None, rest)
    decreases n
  {
    if |digits| == 0 {
      assert digits + rest == rest;
    } else {
      CutShort(digits[1..], rest, n - 1, value * 8 + (digits[0] - 48));
      assert (digits + rest)[1..] == digits[1..] + rest;
    }
  }
}
