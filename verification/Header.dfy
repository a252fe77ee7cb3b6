/** phoenix-store/src/header.rs: a generation's file, a self-sized header and
    then the body its checksum covers. The file and its decoder are inverse both
    ways, and every cut, every addition and every changed byte of the body is
    caught. */
module Header {
  import opened Wrappers
  import opened Snapshots
  import opened Bytes
  import opened Checksum
  import opened Codec
  import opened Body
  import opened Stored

  const MAGIC: seq<Byte> := [0x50, 0x48, 0x4e, 0x58]
  const PREAMBLE_LEN := 8
  const V1_HEADER_LEN := 32
  const BEFORE_ORIGIN: nat := 1
  const CURRENT: nat := 2

  datatype Header = Header(version: nat, origin: Origin, capturedAt: int, tag: Option<Text>,
                           bodyLen: nat, checksum: nat, bodyStart: nat)

  // ---- Writing ----

  function PutOrigin(o: Origin): seq<Byte> {
    match o
    case BeforeOriginWasRecorded => [0]
    case Recorded(pid, startTime) => [1] + (PutU32(pid) + PutI64(startTime))
  }

  function PutHeader(s: Snapshot, tag: Option<Text>): seq<Byte> {
    PutOrigin(s.origin) + (PutI64(s.capturedAt) + (PutOption(tag, PutBytes)
      + (PutU64(|PutBody(s)|) + PutU64(Fnv(PutBody(s))))))
  }

  function PutFile(s: Snapshot, tag: Option<Text>): seq<Byte> {
    var header := PutHeader(s, tag);
    MAGIC + (PutU32(CURRENT) + (PutU32(|header|) + (header + PutBody(s))))
  }

  // ---- Reading ----

  function GetOrigin(b: seq<Byte>): (r: Read<Origin>) {
    var (tag, rest) :- GetU8(b);
    match tag
    case 0 => Got(BeforeOriginWasRecorded, rest)
    case 1 =>
      var (pid, rest) :- GetU32(rest);
      var (startTime, rest) :- GetI64(rest);
      Got(Recorded(pid, startTime), rest)
    case _ => Bad(InvalidTag("Origin", tag))
  }

  function GetHeader(bodyStart: nat, b: seq<Byte>): (r: Read<Header>)
    ensures r.Got? ==> r.value.version == CURRENT && r.value.bodyStart == bodyStart
  {
    var (origin, rest) :- GetOrigin(b);
    var (capturedAt, rest) :- GetI64(rest);
    var (tag, rest) :- GetOption(GetName, rest);
    var (bodyLen, rest) :- GetU64(rest);
    var (checksum, rest) :- GetU64(rest);
    if rest != [] then Bad(Truncated)
    else Got(Header(CURRENT, origin, capturedAt, tag, bodyLen, checksum, bodyStart), [])
  }

  function DecodeCurrentHeader(bytes: seq<Byte>): (r: Result<Header, StoreError>)
    ensures r.Ok? ==> r.value.bodyStart <= |bytes| && r.value.version == CURRENT
  {
    if |bytes| < PREAMBLE_LEN + 4 then Err(Truncated) else
    var bodyStart := PREAMBLE_LEN + 4 + Value(bytes[PREAMBLE_LEN..PREAMBLE_LEN + 4]);
    if |bytes| < bodyStart then Err(Truncated) else
    match GetHeader(bodyStart, bytes[PREAMBLE_LEN + 4..bodyStart])
    case Got(header, _) => Ok(header)
    case Bad(error) => Err(error)
  }

  function DecodeV1Header(bytes: seq<Byte>): (r: Result<Header, StoreError>)
    ensures r.Ok? ==> r.value.bodyStart <= |bytes| && r.value.version == BEFORE_ORIGIN
  {
    if |bytes| < V1_HEADER_LEN then Err(Truncated) else
    LeOfValue(bytes[8..16]); Widths();
    Ok(Header(BEFORE_ORIGIN, BeforeOriginWasRecorded, Signed(Value(bytes[8..16])), None,
              Value(bytes[16..24]), Value(bytes[24..32]), V1_HEADER_LEN))
  }

  function DecodeHeader(bytes: seq<Byte>): (r: Result<Header, StoreError>)
    ensures r.Ok? ==> r.value.bodyStart <= |bytes|
  {
    if |bytes| < PREAMBLE_LEN then Err(Truncated)
    else if bytes[..4] != MAGIC then Err(BadMagic)
    else
      var version := Value(bytes[4..8]);
      if version == BEFORE_ORIGIN then DecodeV1Header(bytes)
      else if version == CURRENT then DecodeCurrentHeader(bytes)
      else Err(UnsupportedFormatVersion(version))
  }

  /** The number eight bytes spell, least significant first. */
  function Eight(b: seq<Byte>): int
    requires |b| == 8
  {
    Spelt(b[0], b[1], b[2], b[3]) + 0x1_0000_0000 * Spelt(b[4], b[5], b[6], b[7])
  }

  lemma TopByteSigns(b: seq<Byte>)
    requires |b| == 8
    ensures Eight(b) < 0x8000_0000_0000_0000 <==> b[7] < 0x80
  {}

  /** A file of the format before this one: after its four magic bytes and its
      version, when it was captured, as a signed number; its body's length; its
      checksum; and the body from byte 32 on. */
  lemma OlderHeaderExactly(bytes: seq<Byte>)
    requires |bytes| >= 8 && bytes[..8] == [0x50, 0x48, 0x4e, 0x58, 1, 0, 0, 0]
    ensures |bytes| < 32 ==> DecodeHeader(bytes) == Err(Truncated)
    ensures |bytes| >= 32 ==>
              DecodeHeader(bytes)
              == Ok(Header(1, BeforeOriginWasRecorded,
                           if bytes[15] < 0x80 then Eight(bytes[8..16]) else Eight(bytes[8..16]) - 0x1_0000_0000_0000_0000,
                           None, Eight(bytes[16..24]), Eight(bytes[24..32]), 32))
  {
    hide Value, Pow256;
    assert bytes[..4] == bytes[..8][..4] == MAGIC && bytes[4..8] == bytes[..8][4..8] == [1, 0, 0, 0];
    FourBytes(bytes[4..8]);
    if |bytes| >= 32 {
      EightBytes(bytes[8..16]);
      EightBytes(bytes[16..24]);
      EightBytes(bytes[24..32]);
      TopByteSigns(bytes[8..16]);
    }
  }

  /** What is read before a header can be, and what each wrong start is refused as. */
  lemma WrongStartIsRefused(bytes: seq<Byte>)
    ensures |bytes| < 8 ==> DecodeHeader(bytes) == Err(Truncated)
    ensures |bytes| >= 8 && bytes[..4] != [0x50, 0x48, 0x4e, 0x58] ==> DecodeHeader(bytes) == Err(BadMagic)
    ensures |bytes| >= 8 && bytes[..4] == [0x50, 0x48, 0x4e, 0x58] ==>
              var version := Spelt(bytes[4], bytes[5], bytes[6], bytes[7]);
              version != 1 && version != 2 ==> DecodeHeader(bytes) == Err(UnsupportedFormatVersion(version))
  {
    if |bytes| >= 8 { FourBytes(bytes[4..8]); }
  }

  /** The decoder of the format before this one, which has its own file. */
  type Older = (seq<Byte>, int) -> Result<Snapshot, StoreError>

  function DecodeFile(older: Older, blobs: Blobs, bytes: seq<Byte>): (r: Result<Snapshot, StoreError>) {
    match DecodeHeader(bytes)
    case Err(error) => Err(error)
    case Ok(header) =>
      var body := bytes[header.bodyStart..];
      if |body| != header.bodyLen then Err(Truncated)
      else if Fnv(body) != header.checksum then Err(ChecksumMismatch)
      else if header.version == BEFORE_ORIGIN then older(body, header.capturedAt)
      else match GetBody(blobs, header.origin, header.capturedAt, body)
           case Got(snapshot, _) => Ok(snapshot)
           case Bad(error) => Err(error)
  }

  // ---- The header round-trips ----

  predicate OriginOk(o: Origin) { o.Recorded? ==> IsU32(o.pid) && IsI64(o.startTime) }

  /** The header's own length: all but the origin and the tag is fixed. */
  function HeaderLength(o: Origin, tag: Option<Text>): nat {
    (if o.Recorded? then 13 else 1) + 8 + (if tag.Some? then 5 + |tag.value| else 1) + 16
  }

  /** What the header can hold: the integers, a non-empty tag, and a length of
      its own and of the body that their fields can count. */
  ghost predicate HeaderFits(s: Snapshot, tag: Option<Text>) {
    && OriginOk(s.origin) && IsI64(s.capturedAt) && (tag.Some? ==> IsName(tag.value))
    && IsU64(|PutBody(s)|) && IsU32(HeaderLength(s.origin, tag))
  }

  lemma HeaderLengthIs(s: Snapshot, tag: Option<Text>)
    ensures |PutHeader(s, tag)| == HeaderLength(s.origin, tag)
  {
    hide PutBody, Fnv, Le, Unsigned;
  }

  function HeaderOf(s: Snapshot, tag: Option<Text>): Header {
    Header(CURRENT, s.origin, s.capturedAt, tag, |PutBody(s)|, Fnv(PutBody(s)),
           PREAMBLE_LEN + 4 + |PutHeader(s, tag)|)
  }

  lemma OriginRounds(o: Origin, rest: seq<Byte>)
    requires OriginOk(o)
    ensures GetOrigin(PutOrigin(o) + rest) == Got(o, rest)
  {
    hide GetU32, PutU32, GetI64, PutI64;
    match o
    case BeforeOriginWasRecorded => U8Rounds(0, rest);
    case Recorded(pid, startTime) =>
      var (p, t) := (PutU32(pid), PutI64(startTime));
      Join([1], p + t, rest);
      Join(p, t, rest);
      U8Rounds(1, p + (t + rest));
      U32Rounds(pid, t + rest);
      I64Rounds(startTime, rest);
  }

  lemma OriginBacks(b: seq<Byte>)
    requires GetOrigin(b).Got?
    ensures OriginOk(GetOrigin(b).value) && b == PutOrigin(GetOrigin(b).value) + GetOrigin(b).rest
  {
    hide GetU32, PutU32, GetI64, PutI64;
    U8Backs(b);
    var tag := GetU8(b);
    if tag.value == 1 {
      var pid := GetU32(tag.rest);
      var startTime := GetI64(pid.rest);
      U32Backs(tag.rest);
      I64Backs(pid.rest);
      var (p, t) := (PutU32(pid.value), PutI64(startTime.value));
      Join([1], p + t, startTime.rest);
      Join(p, t, startTime.rest);
    }
  }

  lemma HeaderRounds(s: Snapshot, tag: Option<Text>)
    requires HeaderFits(s, tag)
    ensures GetHeader(HeaderOf(s, tag).bodyStart, PutHeader(s, tag)) == Got(HeaderOf(s, tag), [])
  {
    hide GetOrigin, PutOrigin, GetI64, PutI64, GetU64, PutU64, GetOption, PutOption, OptionOk, OriginOk, PutBody, Fnv;
    var (t, n, c) := (PutOption(tag, PutBytes), PutU64(|PutBody(s)|), PutU64(Fnv(PutBody(s))));
    OriginRounds(s.origin, PutI64(s.capturedAt) + (t + (n + c)));
    I64Rounds(s.capturedAt, t + (n + c));
    NamesRound();
    OptionRounds(tag, IsName, PutBytes, GetName, n + c);
    U64Rounds(|PutBody(s)|, c);
    assert c + [] == c;
    U64Rounds(Fnv(PutBody(s)), []);
  }

  /** The header's bytes are the ones its fields are written as. */
  lemma HeaderBacks(bodyStart: nat, b: seq<Byte>)
    requires GetHeader(bodyStart, b).Got?
    ensures var h := GetHeader(bodyStart, b).value;
            && OriginOk(h.origin) && IsI64(h.capturedAt) && OptionOk(h.tag, IsName) && IsU64(h.bodyLen)
            && b == PutOrigin(h.origin) + (PutI64(h.capturedAt) + (PutOption(h.tag, PutBytes)
                      + (PutU64(h.bodyLen) + PutU64(h.checksum))))
  {
    hide GetOrigin, PutOrigin, GetI64, PutI64, GetU64, PutU64, GetOption, PutOption, OptionOk, OriginOk;
    var origin := GetOrigin(b);
    var capturedAt := GetI64(origin.rest);
    var tag := GetOption(GetName, capturedAt.rest);
    var bodyLen := GetU64(tag.rest);
    var checksum := GetU64(bodyLen.rest);
    OriginBacks(b);
    I64Backs(origin.rest);
    NamesRound();
    OptionBacks(IsName, PutBytes, GetName, capturedAt.rest);
    U64Backs(tag.rest);
    U64Backs(bodyLen.rest);
    assert PutU64(checksum.value) + [] == PutU64(checksum.value);
  }

  // ---- The file round-trips ----

  /** Where the parts of an encoded file are. */
  lemma FileParts(s: Snapshot, tag: Option<Text>)
    ensures var (f, h) := (PutFile(s, tag), PutHeader(s, tag));
            && |f| == PREAMBLE_LEN + 4 + |h| + |PutBody(s)|
            && f[..4] == MAGIC && f[4..8] == PutU32(CURRENT) && f[8..12] == PutU32(|h|)
            && f[12..12 + |h|] == h && f[12 + |h|..] == PutBody(s)
  {
    hide PutHeader, PutBody, Le;
  }

  /** Any bytes that begin as an encoded file does are read under its header. */
  lemma HeaderIsRead(s: Snapshot, tag: Option<Text>, bytes: seq<Byte>)
    requires HeaderFits(s, tag)
    requires var n := HeaderOf(s, tag).bodyStart; |bytes| >= n && bytes[..n] == PutFile(s, tag)[..n]
    ensures DecodeHeader(bytes) == Ok(HeaderOf(s, tag))
  {
    hide PutHeader, PutBody, PutFile, GetHeader, Le, Value, Fnv;
    var f, n := PutFile(s, tag), HeaderOf(s, tag).bodyStart;
    FileParts(s, tag);
    HeaderRounds(s, tag);
    assert bytes[..4] == bytes[..n][..4] && f[..4] == f[..n][..4];
    assert bytes[4..8] == bytes[..n][4..8] && f[4..8] == f[..n][4..8];
    assert bytes[8..12] == bytes[..n][8..12] && f[8..12] == f[..n][8..12];
    assert bytes[12..n] == bytes[..n][12..n] && f[12..n] == f[..n][12..n];
    HeaderLengthIs(s, tag);
    Widths();
    ValueOfLe(CURRENT, 4);
    ValueOfLe(|PutHeader(s, tag)|, 4);
  }

  lemma FileHeader(s: Snapshot, tag: Option<Text>)
    requires HeaderFits(s, tag)
    ensures DecodeHeader(PutFile(s, tag)) == Ok(HeaderOf(s, tag))
  {
    FileParts(s, tag);
    HeaderIsRead(s, tag, PutFile(s, tag));
  }

  /** Every valid snapshot in bounds, with its tag, decodes from its file to
      itself, from any blob store that keeps its texts. */
  lemma FileRounds(older: Older, blobs: Blobs, s: Snapshot, tag: Option<Text>)
    requires Fits(s) && HeaderFits(s, tag) && ValidSnapshot(s) && Kept(blobs, WindowBlobs(s.windows))
    ensures DecodeFile(older, blobs, PutFile(s, tag)) == Ok(s)
    ensures DecodeHeader(PutFile(s, tag)).Ok? && DecodeHeader(PutFile(s, tag)).value.tag == tag
  {
    hide Fits, ValidSnapshot, Kept, HeaderFits, BodyOk, PutFile, PutHeader, PutBody, GetBody, DecodeHeader, Fnv;
    BodyOkIs(blobs, s);
    BodyRounds(blobs, s);
    FileParts(s, tag);
    FileHeader(s, tag);
  }

  /** Encoding puts the texts in the blob store; from then on, whatever else is
      put there, the file decodes to the snapshot. */
  lemma FileRoundsLater(older: Older, before: Blobs, later: Blobs, s: Snapshot, tag: Option<Text>)
    requires Fits(s) && HeaderFits(s, tag) && ValidSnapshot(s)
    requires NoClash(before, WindowBlobs(s.windows)) && Later(PutBlobs(before, WindowBlobs(s.windows)), later)
    ensures DecodeFile(older, later, PutFile(s, tag)) == Ok(s)
  {
    hide Fits, ValidSnapshot, Kept, HeaderFits, NoClash, PutFile, DecodeFile, PutBlobs, Later, DecodeHeader;
    PutBlobsKeeps(before, WindowBlobs(s.windows));
    KeptLater(PutBlobs(before, WindowBlobs(s.windows)), later, WindowBlobs(s.windows));
    FileRounds(older, later, s, tag);
  }

  /** Every current-format file the decoder accepts is a valid snapshot in
      bounds, and byte for byte what the encoder writes for it and its tag. */
  lemma FileBacks(older: Older, blobs: Blobs, bytes: seq<Byte>)
    requires Sound(blobs)
    requires DecodeHeader(bytes).Ok? && DecodeHeader(bytes).value.version == CURRENT
    requires DecodeFile(older, blobs, bytes).Ok?
    ensures var (s, tag) := (DecodeFile(older, blobs, bytes).value, DecodeHeader(bytes).value.tag);
            && Fits(s) && HeaderFits(s, tag) && ValidSnapshot(s) && Kept(blobs, WindowBlobs(s.windows))
            && bytes == PutFile(s, tag)
  {
    hide Fits, ValidSnapshot, Kept, BodyOk, PutBody, GetBody, GetHeader, PutOrigin, PutI64, PutU64, PutOption, OriginOk,
         Le, Value, Fnv, Sound, IsName;
    var h := DecodeHeader(bytes).value;
    var s := DecodeFile(older, blobs, bytes).value;
    var header, body := bytes[12..h.bodyStart], bytes[h.bodyStart..];
    HeaderBacks(h.bodyStart, header);
    BodyBacks(blobs, h.origin, h.capturedAt, body);
    BodyOkIs(blobs, s);
    assert header == PutHeader(s, h.tag);
    HeaderLengthIs(s, h.tag);
    Widths();
    LeOfValue(bytes[4..8]);
    LeOfValue(bytes[8..12]);
    assert bytes == bytes[..4] + (bytes[4..8] + (bytes[8..12] + (header + body)));
  }

  // ---- Damage is caught ----

  /** A file cut short anywhere is refused as truncated. */
  lemma CutIsCaught(older: Older, blobs: Blobs, s: Snapshot, tag: Option<Text>, n: nat)
    requires HeaderFits(s, tag) && n < |PutFile(s, tag)|
    ensures DecodeFile(older, blobs, PutFile(s, tag)[..n]) == Err(Truncated)
  {
    hide PutHeader, PutBody, PutFile, GetHeader, GetBody, Le, Value, Fnv, HeaderFits;
    var f, cut := PutFile(s, tag), PutFile(s, tag)[..n];
    FileParts(s, tag);
    HeaderLenFits(s, tag);
    if n >= HeaderOf(s, tag).bodyStart {
      assert cut[..HeaderOf(s, tag).bodyStart] == f[..HeaderOf(s, tag).bodyStart];
      HeaderIsRead(s, tag, cut);
    } else if n >= PREAMBLE_LEN {
      assert cut[..4] == f[..4] && cut[4..8] == f[4..8];
      assert n >= 12 ==> cut[8..12] == f[8..12];
    }
  }

  lemma HeaderLenFits(s: Snapshot, tag: Option<Text>)
    requires HeaderFits(s, tag)
    ensures Value(PutU32(CURRENT)) == CURRENT && Value(PutU32(|PutHeader(s, tag)|)) == |PutHeader(s, tag)|
  {
    hide PutHeader, PutBody;
    HeaderLengthIs(s, tag);
    Widths();
    ValueOfLe(CURRENT, 4);
    ValueOfLe(|PutHeader(s, tag)|, 4);
  }

  /** A file with anything after it is refused as truncated. */
  lemma AdditionIsCaught(older: Older, blobs: Blobs, s: Snapshot, tag: Option<Text>, more: seq<Byte>)
    requires HeaderFits(s, tag) && more != []
    ensures DecodeFile(older, blobs, PutFile(s, tag) + more) == Err(Truncated)
  {
    hide PutHeader, PutBody, PutFile, GetHeader, GetBody, DecodeHeader, Fnv, HeaderFits;
    var f, n := PutFile(s, tag), HeaderOf(s, tag).bodyStart;
    FileParts(s, tag);
    assert (f + more)[..n] == f[..n];
    HeaderIsRead(s, tag, f + more);
  }

  /** Any one byte of the body changed to another is a checksum mismatch. */
  lemma ChangeIsCaught(older: Older, blobs: Blobs, s: Snapshot, tag: Option<Text>, at: nat, b: Byte)
    requires HeaderFits(s, tag)
    requires HeaderOf(s, tag).bodyStart <= at < |PutFile(s, tag)| && PutFile(s, tag)[at] != b
    ensures DecodeFile(older, blobs, PutFile(s, tag)[at := b]) == Err(ChecksumMismatch)
  {
    hide PutHeader, PutBody, PutFile, GetHeader, GetBody, DecodeHeader, Fnv, HeaderFits;
    var f, n := PutFile(s, tag), HeaderOf(s, tag).bodyStart;
    FileParts(s, tag);
    assert f[at := b][..n] == f[..n];
    HeaderIsRead(s, tag, f[at := b]);
    assert f[at := b][n..] == PutBody(s)[at - n := b];
    OneByteIsCaught(PutBody(s), at - n, b);
  }
}
