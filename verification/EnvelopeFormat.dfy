/** The FSWNENC2 envelope as bytes (`envelope/src/stream.rs`): the layout of one
    source, the header, the sealed records, and what a reader accepts. */
module EnvelopeFormat {

  import opened Wrappers
  import opened EnvelopeLengths
  import opened EnvelopeName

  type Octet = b: int | 0 <= b < 256
  type Bytes = seq<Octet>
  type Word = n: int | 0 <= n < U32

  datatype Error =
    | Cancelled | SourceChanged | TooLarge | MediaType | MetadataTooLarge | Magic | Header | Length
    | Authentication | Metadata(what: string) | Padding

  datatype Details = Details(name: string, size: Size, mediaType: string)

  /** The algorithms the codec calls: key derivation, authenticated encryption,
      JSON, UTF-8 validation, SHA-256 and the Unicode ones. */
  datatype Primitives = Primitives(
    derive: (Bytes, Bytes) -> Bytes,
    seal: (Bytes, Bytes, Bytes, Bytes) -> (Bytes, Bytes),
    open: (Bytes, Bytes, Bytes, Bytes, Bytes) -> Option<Bytes>,
    toJson: Details -> Bytes,
    fromJson: Bytes -> Option<Details>,
    utf8: Bytes -> bool,
    sha256: Bytes -> Bytes,
    unicode: Unicode)
  {

    /** Sealing works in place under a fixed-size tag, and opening undoes it. */
    ghost predicate SealLaws() {
      && (forall k, n, a, t :: |seal(k, n, a, t).0| == |t| && |seal(k, n, a, t).1| == TAG)
      && (forall k, n, a, t :: open(k, n, a, seal(k, n, a, t).0, seal(k, n, a, t).1) == Some(t))
      && (forall k, n, a, c, g | open(k, n, a, c, g).Some? :: |open(k, n, a, c, g).value| == |c|)
    }

    /** JSON reads back what it wrote, as text of at least the two braces. */
    ghost predicate JsonLaws() {
      forall d :: |toJson(d)| >= 2 && utf8(toJson(d)) && fromJson(toJson(d)) == Some(d)
    }

    /** Three fixed member names and a number of at most twenty digits, and at
        most six bytes for a character, as an escape takes. */
    ghost predicate JsonSize() {
      forall d :: |toJson(d)| <= 6 * (|d.name| + |d.mediaType|) + 64
    }

    ghost predicate Lawful() {
      SealLaws() && JsonLaws() && unicode.NfcLaws() && unicode.LowerLaws()
    }
  }

  // ---------- big-endian words ----------

  function Be32(n: Word): (b: Bytes)
    ensures |b| == 4
  {
    [n / 0x100_0000, n / 0x1_0000 % 0x100, n / 0x100 % 0x100, n % 0x100]
  }

  function FromBe32(b: Bytes): Word
    requires |b| == 4
  {
    b[0] as int * 0x100_0000 + b[1] as int * 0x1_0000 + b[2] as int * 0x100 + b[3] as int
  }

  lemma {:induction false} WordRoundTrip(n: Word)
    ensures FromBe32(Be32(n)) == n
  {
    assert n / 0x1_0000 == n / 0x100_0000 * 0x100 + n / 0x1_0000 % 0x100;
    assert n / 0x100 == n / 0x1_0000 * 0x100 + n / 0x100 % 0x100;
  }

  // ---------- the layout of one source ----------

  datatype Layout = Layout(details: Details, prefix: Bytes, plaintext: nat, records: nat)

  function LayoutFor(
      p: Primitives, name: string, mediaType: string, size: Size, maxSource: Size): (r: Result<Layout, Error>)
    ensures r.Ok? ==> r.value.records < U32
  {
    if size > maxSource then Err(TooLarge) else
    match NormaliseMediaType(p.unicode, mediaType)
    case None => Err(MediaType)
    case Some(normal) =>
      var details := Details(SanitiseName(p.unicode, name), size, normal);
      var json := p.toJson(details);
      if |json| > MAX_METADATA then Err(MetadataTooLarge) else
      var prefix := Be32(|json|) + json;
      if |prefix| + size >= U64 then Err(TooLarge) else
      var plaintext := PaddedLength(|prefix| + size);
      var records := Chunks(plaintext);
      if records >= U32 || records == 0 || records > MaxRecords(maxSource) then Err(TooLarge) else
      Ok(Layout(details, prefix, plaintext, records))
  }

  /** How long the envelope of a source is, where nothing limits the source. */
  function EnvelopeBytes(p: Primitives, name: string, mediaType: string, size: Size): Result<nat, Error> {
    match LayoutFor(p, name, mediaType, size, U64 - 1)
    case Err(e) => Err(e)
    case Ok(layout) => Ok(EnvelopeLength(layout.plaintext))
  }

  /** A well-formed layout: the padded text holds prefix and source, in its records. */
  ghost predicate Laid(p: Primitives, layout: Layout, maxSource: Size) {
    var d := layout.details;
    && |p.toJson(d)| <= MAX_METADATA && layout.prefix == Be32(|p.toJson(d)|) + p.toJson(d)
    && d.size <= maxSource && |layout.prefix| + d.size < U64
    && |layout.prefix| + d.size <= layout.plaintext == PaddedLength(|layout.prefix| + d.size)
    && MIN_BUCKET <= layout.plaintext
    && layout.records == Chunks(layout.plaintext) && 1 <= layout.records <= MaxRecords(maxSource)
  }

  /** The caller's limit, the media type, the metadata size and 32 bits of
      records are the only reasons to refuse: the record limit never is. */
  lemma {:induction false} LayoutFits(p: Primitives, name: string, mediaType: string, size: Size, maxSource: Size)
    ensures var normal := NormaliseMediaType(p.unicode, mediaType);
      var r := LayoutFor(p, name, mediaType, size, maxSource);
      && (r.Ok? <==>
          && size <= maxSource && normal.Some?
          && var json := p.toJson(Details(SanitiseName(p.unicode, name), size, normal.value));
             |json| <= MAX_METADATA && Chunks(4 + |json| + size) < U32)
      && (r.Ok? ==>
          && r.value.details == Details(SanitiseName(p.unicode, name), size, normal.value)
          && Laid(p, r.value, maxSource))
  {
    hide SanitiseName, NormaliseMediaType, PaddedLength;
    var normal := NormaliseMediaType(p.unicode, mediaType);
    if size <= maxSource && normal.Some? {
      var json := p.toJson(Details(SanitiseName(p.unicode, name), size, normal.value));
      var logical := 4 + |json| + size;
      if |json| <= MAX_METADATA && Chunks(logical) < U32 {
        RecordsFit(maxSource, size, 4 + |json|);
        PaddedIsABucket(logical);
      } else if |json| <= MAX_METADATA && logical < U64 {
        PaddingCovers(logical);
      }
    }
  }

  /** What the records a header can count hold. */
  const MAX_SEALED: nat := (U32 - 1) * CHUNK

  /** Canonical names and media types leave the metadata short enough. */
  lemma {:induction false} MetadataFits(p: Primitives, name: string, mediaType: string, size: Size)
    requires p.JsonSize() && p.unicode.NfcLaws() && NormaliseMediaType(p.unicode, mediaType).Some?
    ensures |p.toJson(Details(SanitiseName(p.unicode, name), size,
      NormaliseMediaType(p.unicode, mediaType).value))| <= MAX_METADATA
  {
    hide SanitiseName, Unicode.NfcLaws, Clean;
    SanitisedIsCanonical(p.unicode, name);
    assert |SanitiseName(p.unicode, name)| <= MAX_NAME_UNITS;
  }

  /** Under any name, every source within the caller's limit whose media type is
      accepted can be sealed, up to 32 bits of records. */
  lemma {:induction false} EverySourceFits(p: Primitives, name: string, mediaType: string, size: Size, maxSource: Size)
    requires p.JsonSize() && p.unicode.NfcLaws()
    ensures var r := LayoutFor(p, name, mediaType, size, maxSource);
      && r != Err(MetadataTooLarge)
      && (r == Err(MediaType) <==> size <= maxSource && NormaliseMediaType(p.unicode, mediaType).None?)
      && (NormaliseMediaType(p.unicode, mediaType).Some? && size <= maxSource && size + MAX_PREFIX <= MAX_SEALED ==>
            r.Ok?)
  {
    hide SanitiseName, NormaliseMediaType, Unicode.NfcLaws, PaddedLength, Primitives.JsonSize;
    LayoutFits(p, name, mediaType, size, maxSource);
    if NormaliseMediaType(p.unicode, mediaType).Some? {
      MetadataFits(p, name, mediaType, size);
    }
  }

  lemma {:induction false} PaddedIsABucket(length: Size)
    requires length <= U64 - CHUNK
    ensures MIN_BUCKET <= PaddedLength(length)
  {
    PaddingMonotone(0, length);
  }

  // ---------- the sealed records ----------

  const MAGIC: Bytes := [0x46, 0x53, 0x57, 0x4e, 0x45, 0x4e, 0x43, 0x32]

  /** The public randomness of one envelope. */
  datatype Fresh = Fresh(noncePrefix: Bytes, salt: Bytes, padding: nat -> Octet) {
    predicate Sized() {
      |noncePrefix| == 8 && |salt| == 32
    }
  }

  function HeaderBytes(records: Word, drawn: Fresh): (h: Bytes)
    requires drawn.Sized()
    ensures |h| == HEADER
  {
    MAGIC + Be32(CHUNK) + Be32(records) + drawn.noncePrefix + drawn.salt
  }

  function SealRecord(p: Primitives, k: Bytes, header: Bytes, c: Word, text: Bytes): Bytes
    requires |header| == HEADER
  {
    var boxed := p.seal(k, header[16..24] + Be32(c), header + Be32(c), text);
    boxed.0 + boxed.1
  }

  /** The first `n` records of `text`, sealed one after the other. */
  function SealRecords(p: Primitives, k: Bytes, header: Bytes, text: Bytes, n: nat): Bytes
    requires |header| == HEADER && n < U32
  {
    if n == 0 then []
    else SealRecords(p, k, header, text, n - 1) + SealRecord(p, k, header, n - 1, Piece(text, n - 1))
  }

  /** Prefix, source and padding: the logical plaintext from `from` to `to`. */
  function Text(prefix: Bytes, source: Bytes, padding: nat -> Octet, from: nat, to: nat): (t: Bytes)
    requires from <= to
    ensures |t| == to - from
  {
    seq(to - from, i requires 0 <= i =>
      var at := from + i;
      if at < |prefix| then prefix[at] else if at - |prefix| < |source| then source[at - |prefix|] else padding(at))
  }

  function Envelope(p: Primitives, key: Bytes, layout: Layout, drawn: Fresh, source: Bytes): Bytes
    requires drawn.Sized() && layout.records < U32
  {
    var header := HeaderBytes(layout.records, drawn);
    header + SealRecords(p, p.derive(key, drawn.salt), header,
      Text(layout.prefix, source, drawn.padding, 0, layout.plaintext), layout.records)
  }

  // ---------- what a reader accepts ----------

  predicate AboutMetadata(e: Error) {
    e.Metadata? || e == MetadataTooLarge || e == Padding || e == TooLarge
  }

  function ParseMetadata(p: Primitives, text: Bytes): (r: Result<(Details, nat), Error>)
    ensures r.Err? ==> AboutMetadata(r.error)
  {
    if |text| < 4 then Err(Metadata("truncated")) else
    var length := FromBe32(text[..4]);
    if !(2 <= length <= MAX_METADATA) || 4 + length > |text| then Err(Metadata("length")) else
    var json := text[4..4 + length];
    if !p.utf8(json) then Err(Metadata("utf-8")) else
    match p.fromJson(json)
    case None => Err(Metadata("shape"))
    case Some(d) =>
      if |p.toJson(d)| > MAX_METADATA then Err(MetadataTooLarge)
      else if p.toJson(d) != json then Err(Metadata("canonical form"))
      else if SanitiseName(p.unicode, d.name) != d.name then Err(Metadata("name"))
      else if NormaliseMediaType(p.unicode, d.mediaType) != Some(d.mediaType) then Err(Metadata("type"))
      else Ok((d, 4 + length))
  }

  /** The checks on the first record of a text `plaintext` bytes long. */
  function FirstRecord(p: Primitives, text: Bytes, plaintext: nat, maxSource: Size): (r: Result<(Details, nat), Error>)
    requires plaintext <= U32 * CHUNK
    ensures r.Err? ==> AboutMetadata(r.error)
  {
    match ParseMetadata(p, text)
    case Err(e) => Err(e)
    case Ok(parsed) =>
      if parsed.0.size > plaintext || PaddedLength(parsed.1 + parsed.0.size) != plaintext then Err(Padding)
      else if parsed.0.size > maxSource then Err(TooLarge)
      else Ok(parsed)
  }

  function Records(envelope: Bytes): Word
    requires |envelope| >= HEADER
  {
    FromBe32(envelope[12..16])
  }

  predicate HeaderFits(envelope: Bytes, maxSource: Size)
    requires |envelope| >= HEADER
  {
    FromBe32(envelope[8..12]) == CHUNK && 1 <= Records(envelope) <= MaxRecords(maxSource)
  }

  predicate LengthFits(records: nat, length: nat)
    requires records >= 1
  {
    HEADER + (records - 1) * RECORD + 1 + TAG <= length <= HEADER + records * RECORD
  }

  /** The envelope says what it is and is as long as its record count allows. */
  predicate Framed(envelope: Bytes, length: nat, maxSource: Size) {
    && |envelope| >= HEADER && envelope[..8] == MAGIC
    && HeaderFits(envelope, maxSource) && LengthFits(Records(envelope), length)
  }

  function PlainLength(records: nat, length: nat): (n: nat)
    requires records >= 1 && LengthFits(records, length)
    ensures (records - 1) * CHUNK < n <= records * CHUNK
  {
    length - HEADER - records * TAG
  }

  /** Where record `c` starts, and where it ends. */
  function Start(c: nat): nat {
    HEADER + c * RECORD
  }

  function End(records: nat, length: nat, c: nat): nat {
    if c + 1 == records then length else Start(c + 1)
  }

  /** What record `c` opens to. */
  function OpenRecord(p: Primitives, key: Bytes, envelope: Bytes, length: nat, maxSource: Size, c: nat): Option<Bytes>
    requires Framed(envelope, length, maxSource) && c < Records(envelope)
    requires End(Records(envelope), length, c) <= |envelope|
  {
    var record := envelope[Start(c)..End(Records(envelope), length, c)];
    var cut := |record| - TAG;
    p.open(p.derive(key, envelope[24..56]), envelope[16..24] + Be32(c), envelope[..HEADER] + Be32(c), record[..cut],
      record[cut..])
  }

  /** Every record authenticates, and together they are `plain`. */
  ghost predicate Unseals(p: Primitives, key: Bytes, envelope: Bytes, maxSource: Size, plain: Bytes) {
    && Framed(envelope, |envelope|, maxSource)
    && |plain| == PlainLength(Records(envelope), |envelope|)
    && forall c | 0 <= c < Records(envelope) ::
      OpenRecord(p, key, envelope, |envelope|, maxSource, c) == Some(Piece(plain, c))
  }

  /** `envelope`, declared `length` bytes long, holds `source` under `details`. */
  ghost predicate Opens(
      p: Primitives, key: Bytes, envelope: Bytes, length: Size, maxSource: Size, plain: Bytes, details: Details,
      source: Bytes) {
    && |envelope| == length
    && Unseals(p, key, envelope, maxSource, plain)
    && var first := FirstRecord(p, Piece(plain, 0), |plain|, maxSource);
    && first.Ok? && first.value.0 == details
    && source == Clip(plain, first.value.1, details.size)
  }

  /** Nothing else opens the same envelope. */
  lemma {:induction false} OpensOnce(
    p: Primitives, key: Bytes, envelope: Bytes, length: Size, maxSource: Size,
    plain: Bytes, details: Details, source: Bytes, plain': Bytes, details': Details, source': Bytes)
    requires Opens(p, key, envelope, length, maxSource, plain, details, source)
    requires Opens(p, key, envelope, length, maxSource, plain', details', source')
    ensures plain == plain' && details == details' && source == source'
  {
    hide FirstRecord;
    forall i | 0 <= i < |plain| ensures plain[i] == plain'[i] {
      var c := i / CHUNK;
      assert Piece(plain, c) == Piece(plain', c);
      assert plain[i] == Piece(plain, c)[i - c * CHUNK];
    }
  }

  lemma {:induction false} ParsedLength(p: Primitives, text: Bytes)
    requires ParseMetadata(p, text).Ok?
    ensures var r := ParseMetadata(p, text).value;
      r.1 == 4 + |p.toJson(r.0)| && |p.toJson(r.0)| <= MAX_METADATA
      && SanitiseName(p.unicode, r.0.name) == r.0.name
      && NormaliseMediaType(p.unicode, r.0.mediaType) == Some(r.0.mediaType)
  {
    hide SanitiseName, NormaliseMediaType;
  }

  /** An envelope that opens is exactly as long as its metadata calls for, and
      the source exactly as long as the metadata says. */
  lemma {:induction false} CanonicalLength(
    p: Primitives, key: Bytes, envelope: Bytes, length: Size, maxSource: Size, plain: Bytes, details: Details,
    source: Bytes)
    requires Opens(p, key, envelope, length, maxSource, plain, details, source)
    ensures |source| == details.size <= maxSource
    ensures EnvelopeBytes(p, details.name, details.mediaType, details.size) == Ok(length)
  {
    hide ParseMetadata, SanitiseName, NormaliseMediaType, Unseals;
    var first := Piece(plain, 0);
    ParsedLength(p, first);
    var prefix := 4 + |p.toJson(details)|;
    PlainBounds(p, key, envelope, maxSource, plain);
    PaddingCovers(prefix + details.size);
    LayoutFits(p, details.name, details.mediaType, details.size, U64 - 1);
  }

  lemma {:induction false} PlainBounds(p: Primitives, key: Bytes, envelope: Bytes, maxSource: Size, plain: Bytes)
    requires Unseals(p, key, envelope, maxSource, plain)
    ensures 0 < |plain| < U32 * CHUNK && Chunks(|plain|) < U32 && |envelope| == EnvelopeLength(|plain|)
  {
    hide OpenRecord, Records;
    assert Chunks(|plain|) == Records(envelope);
  }

  /** What each refusal says is wrong. */
  ghost predicate Explains(p: Primitives, key: Bytes, envelope: Bytes, length: Size, maxSource: Size, e: Error) {
    match e
    case Length =>
      |envelope| != length || length < HEADER || (Records(envelope) >= 1 && !LengthFits(Records(envelope), length))
    case Magic => |envelope| >= 8 && envelope[..8] != MAGIC
    case Header => |envelope| >= HEADER && !HeaderFits(envelope, maxSource)
    case Authentication => exists c :: Fails(p, key, envelope, length, maxSource, c)
    case _ => AboutMetadata(e) && FirstFails(p, key, envelope, length, maxSource, e)
  }

  ghost predicate Fails(p: Primitives, key: Bytes, envelope: Bytes, length: nat, maxSource: Size, c: nat) {
    && Framed(envelope, length, maxSource) && c < Records(envelope) && End(Records(envelope), length, c) <= |envelope|
    && OpenRecord(p, key, envelope, length, maxSource, c) == None
  }

  ghost predicate FirstFails(p: Primitives, key: Bytes, envelope: Bytes, length: nat, maxSource: Size, e: Error) {
    && Framed(envelope, length, maxSource) && End(Records(envelope), length, 0) <= |envelope|
    && var text := OpenRecord(p, key, envelope, length, maxSource, 0);
    && text.Some? && FirstRecord(p, text.value, PlainLength(Records(envelope), length), maxSource) == Err(e)
  }

  /** An envelope refused for a stated reason holds no source at all. */
  lemma {:induction false} RefusedNeverOpens(
    p: Primitives, key: Bytes, envelope: Bytes, length: Size, maxSource: Size, e: Error, plain: Bytes, details: Details,
    source: Bytes)
    requires Explains(p, key, envelope, length, maxSource, e)
    ensures !Opens(p, key, envelope, length, maxSource, plain, details, source)
  {
    hide FirstRecord, OpenRecord, FromBe32, MaxRecords;
  }
}
