/** `encrypt_with` and `decrypt` (`envelope/src/stream.rs`): the record loops
    over a reused buffer, and the round trip between them. */
module EnvelopeCodec {

  import opened Arithmetic
  import opened Wrappers
  import opened EnvelopeLengths
  import opened EnvelopeName
  import opened EnvelopeFormat

  // ---------- the round trip ----------

  lemma {:induction false} SealedLength(p: Primitives, k: Bytes, header: Bytes, text: Bytes, n: nat)
    requires p.SealLaws() && |header| == HEADER && n <= Chunks(|text|) && n < U32
    ensures |SealRecords(p, k, header, text, n)| == Min(n * CHUNK, |text|) + n * TAG
  {
    hide Be32;
    if n > 0 {
      SealedLength(p, k, header, text, n - 1);
      RecordLength(p, k, header, n - 1, Piece(text, n - 1));
    }
  }

  lemma {:induction false} RecordLength(p: Primitives, k: Bytes, header: Bytes, c: Word, text: Bytes)
    requires p.SealLaws() && |header| == HEADER
    ensures |SealRecord(p, k, header, c, text)| == |text| + TAG
  {
    hide Be32;
  }

  ghost predicate Holds(all: Bytes, from: nat, part: Bytes) {
    from + |part| <= |all| && all[from..from + |part|] == part
  }

  /** Record `c` of what was sealed is that record sealed, where the reader looks for it. */
  lemma {:induction false} SealedAt(p: Primitives, k: Bytes, header: Bytes, text: Bytes, n: nat, c: nat)
    requires p.SealLaws() && |header| == HEADER && c < n <= Chunks(|text|) && n < U32
    ensures Holds(SealRecords(p, k, header, text, n), c * RECORD, SealRecord(p, k, header, c, Piece(text, c)))
  {
    hide Primitives.SealLaws, SealRecord, Piece;
    var before := SealRecords(p, k, header, text, n - 1);
    SealedLength(p, k, header, text, n - 1);
    RecordLength(p, k, header, c, Piece(text, c));
    assert |before| == (n - 1) * RECORD;
    if c < n - 1 {
      SealedAt(p, k, header, text, n - 1, c);
      assert before <= SealRecords(p, k, header, text, n);
    }
  }

  lemma {:induction false} HeaderReads(records: Word, drawn: Fresh, rest: Bytes)
    requires drawn.Sized()
    ensures var e := HeaderBytes(records, drawn) + rest;
      && e[..HEADER] == HeaderBytes(records, drawn) && e[..8] == MAGIC
      && FromBe32(e[8..12]) == CHUNK && Records(e) == records
      && e[16..24] == drawn.noncePrefix && e[24..56] == drawn.salt
  {
    var e := HeaderBytes(records, drawn) + rest;
    assert e[8..12] == Be32(CHUNK) && e[12..16] == Be32(records);
    hide FromBe32, Be32;
    WordRoundTrip(CHUNK);
    WordRoundTrip(records);
  }

  lemma {:induction false} SealedUnseals(
      p: Primitives, key: Bytes, drawn: Fresh, text: Bytes, records: Word, maxSource: Size)
    requires p.SealLaws() && drawn.Sized()
    requires records == Chunks(|text|) && 1 <= records <= MaxRecords(maxSource)
    ensures var header := HeaderBytes(records, drawn);
      Unseals(p, key, header + SealRecords(p, p.derive(key, drawn.salt), header, text, records), maxSource, text)
  {
    hide HeaderBytes, FromBe32, Be32, MaxRecords;
    var header, k := HeaderBytes(records, drawn), p.derive(key, drawn.salt);
    var all := SealRecords(p, k, header, text, records);
    var e := header + all;
    HeaderReads(records, drawn, all);
    SealedLength(p, k, header, text, records);
    forall c | 0 <= c < records
      ensures OpenRecord(p, key, e, |e|, maxSource, c) == Some(Piece(text, c))
    {
      SealedAt(p, k, header, text, records, c);
      RecordOpens(p, key, e, maxSource, c, text, all);
    }
  }

  lemma {:induction false} RecordSpan(text: Bytes, c: nat)
    requires c < Chunks(|text|)
    ensures End(Chunks(|text|), EnvelopeLength(|text|), c) ==
      Start(c) + |Piece(text, c)| + TAG <= EnvelopeLength(|text|)
  {
  }

  lemma {:induction false} RecordOpens(
      p: Primitives, key: Bytes, e: Bytes, maxSource: Size, c: nat, text: Bytes, all: Bytes)
    requires p.SealLaws() && Framed(e, |e|, maxSource) && c < Records(e) == Chunks(|text|)
    requires e == e[..HEADER] + all && |e| == EnvelopeLength(|text|)
    requires Holds(all, c * RECORD, SealRecord(p, p.derive(key, e[24..56]), e[..HEADER], c, Piece(text, c)))
    ensures OpenRecord(p, key, e, |e|, maxSource, c) == Some(Piece(text, c))
  {
    hide Be32, HeaderFits, LengthFits, Records, End, Piece, Chunks, EnvelopeLength;
    var k, header, piece := p.derive(key, e[24..56]), e[..HEADER], Piece(text, c);
    var boxed := p.seal(k, header[16..24] + Be32(c), header + Be32(c), piece);
    assert header[16..24] == e[16..24];
    RecordSpan(text, c);
    var record := e[Start(c)..End(Records(e), |e|, c)];
    assert record == boxed.0 + boxed.1;
    assert record[..|record| - TAG] == boxed.0 && record[|record| - TAG..] == boxed.1;
  }

  lemma {:induction false} ParsesBack(p: Primitives, details: Details, text: Bytes)
    requires p.JsonLaws() && |p.toJson(details)| <= MAX_METADATA
    requires SanitiseName(p.unicode, details.name) == details.name
    requires NormaliseMediaType(p.unicode, details.mediaType) == Some(details.mediaType)
    requires Be32(|p.toJson(details)|) + p.toJson(details) <= text
    ensures ParseMetadata(p, text) == Ok((details, 4 + |p.toJson(details)|))
  {
    hide SanitiseName, NormaliseMediaType, Be32, FromBe32;
    var json := p.toJson(details);
    WordRoundTrip(|json|);
    assert text[..4] == Be32(|json|) && text[4..4 + |json|] == json;
  }

  lemma {:induction false} TextHolds(prefix: Bytes, source: Bytes, padding: nat -> Octet, length: nat)
    requires |prefix| + |source| <= length && |prefix| <= CHUNK
    ensures var text := Text(prefix, source, padding, 0, length);
      prefix <= Piece(text, 0) && Clip(text, |prefix|, |source|) == source
  {
  }

  /** Whatever was sealed opens again to the same source, under its canonical metadata. */
  lemma {:induction false} RoundTrip(
    p: Primitives, key: Bytes, name: string, mediaType: string, source: Bytes, maxSource: Size, drawn: Fresh)
    requires p.Lawful() && drawn.Sized() && |source| < U64
    requires LayoutFor(p, name, mediaType, |source|, maxSource).Ok?
    ensures var layout := LayoutFor(p, name, mediaType, |source|, maxSource).value;
      var e := Envelope(p, key, layout, drawn, source);
      && layout.details == Details(SanitiseName(p.unicode, name), |source|,
        NormaliseMediaType(p.unicode, mediaType).value)
      && EnvelopeBytes(p, name, mediaType, |source|) == Ok(|e|)
      && |e| < U64
      && Opens(p, key, e, |e|, maxSource, Text(layout.prefix, source, drawn.padding, 0, layout.plaintext),
        layout.details, source)
  {
    hide SanitiseName, NormaliseMediaType, LayoutFor, EnvelopeBytes, Envelope, Opens, Text, Laid;
    LayoutFits(p, name, mediaType, |source|, maxSource);
    var layout := LayoutFor(p, name, mediaType, |source|, maxSource).value;
    SanitiseIdempotent(p.unicode, name);
    MediaTypeIdempotent(p.unicode, mediaType);
    OpensAgain(p, key, layout, source, maxSource, drawn);
    SameLength(p, name, mediaType, |source|, maxSource);
  }

  lemma {:induction false} SameLength(p: Primitives, name: string, mediaType: string, size: Size, maxSource: Size)
    requires LayoutFor(p, name, mediaType, size, maxSource).Ok?
    ensures EnvelopeBytes(p, name, mediaType, size) ==
      Ok(EnvelopeLength(LayoutFor(p, name, mediaType, size, maxSource).value.plaintext))
  {
    hide SanitiseName, NormaliseMediaType, LayoutFor, PaddedLength, EnvelopeLength, MaxRecords;
    LayoutFits(p, name, mediaType, size, maxSource);
    LayoutFits(p, name, mediaType, size, U64 - 1);
  }

  lemma {:induction false} OpensAgain(
      p: Primitives, key: Bytes, layout: Layout, source: Bytes, maxSource: Size, drawn: Fresh)
    requires p.Lawful() && drawn.Sized() && Laid(p, layout, maxSource) && layout.details.size == |source|
    requires SanitiseName(p.unicode, layout.details.name) == layout.details.name
    requires NormaliseMediaType(p.unicode, layout.details.mediaType) == Some(layout.details.mediaType)
    ensures var e := Envelope(p, key, layout, drawn, source);
      && |e| == EnvelopeLength(layout.plaintext) < U64
      && Opens(p, key, e, |e|, maxSource, Text(layout.prefix, source, drawn.padding, 0, layout.plaintext),
        layout.details, source)
  {
    hide SanitiseName, NormaliseMediaType, ParseMetadata, SealRecords, HeaderBytes, Unseals, Primitives.SealLaws,
      Primitives.JsonLaws, Unicode.NfcLaws, Unicode.LowerLaws, Be32, MaxRecords, Text;
    var text := Text(layout.prefix, source, drawn.padding, 0, layout.plaintext);
    SealedUnseals(p, key, drawn, text, layout.records, maxSource);
    var e := Envelope(p, key, layout, drawn, source);
    PlainBounds(p, key, e, maxSource, text);
    TextHolds(layout.prefix, source, drawn.padding, layout.plaintext);
    ParsesBack(p, layout.details, Piece(text, 0));
  }

  // ---------- `encrypt_with` ----------

  datatype Sealed = Sealed(details: Details, envelopeBytes: nat, sha256: Bytes)

  /** Source bytes that lie before `offset` when the source starts at `start`. */
  function Taken(offset: nat, start: nat, size: nat): nat {
    Min(Max(offset, start) - start, size)
  }

  function Given(source: Bytes, size: nat): Bytes {
    source[..Min(size, |source|)]
  }

  /** The source bytes a record takes are the next ones. */
  lemma {:induction false} TakenStep(offset: nat, record: nat, start: nat, len: nat)
    ensures match Overlap(offset, record, start, len)
      case None => Taken(offset + record, start, len) == Taken(offset, start, len)
      case Some(r) =>
        && Taken(offset, start, len) + start == offset + r.0
        && Taken(offset + record, start, len) + start == offset + r.1
  {
  }

  /** One record of plaintext in the buffer: padding, then the prefix and the
      source laid over it.  `source` ends early when the bytes run out. */
  method FillRecord(
    buffer: array<Octet>, offset: nat, len: nat, prefix: Bytes, source: Bytes, size: nat, padding: nat -> Octet,
    taken: nat)
    returns (ok: bool, next: nat)
    requires len <= buffer.Length && taken == Taken(offset, |prefix|, size) <= |source|
    modifies buffer
    ensures ok <==> Taken(offset + len, |prefix|, size) <= |source|
    ensures ok ==> next == Taken(offset + len, |prefix|, size)
    ensures ok ==> buffer[..len] == Text(prefix, Given(source, size), padding, offset, offset + len)
  {
    FillPrefix(buffer, offset, len, prefix, padding);
    TakenStep(offset, len, |prefix|, size);
    hide Taken;
    var body := Overlap(offset, len, |prefix|, size);
    ok, next := true, taken;
    if body.Some? {
      next := taken + (body.value.1 - body.value.0);
      if next > |source| {
        return false, taken;
      }
      Copy(buffer, body.value.0, body.value.1, source, taken);
    }
  }

  method FillPrefix(buffer: array<Octet>, offset: nat, len: nat, prefix: Bytes, padding: nat -> Octet)
    requires len <= buffer.Length
    modifies buffer
    ensures forall i | 0 <= i < len :: buffer[i] == if offset + i < |prefix| then prefix[offset + i]
      else padding(offset + i)
  {
    forall i | 0 <= i < len {
      buffer[i] := padding(offset + i);
    }
    var head := Overlap(offset, len, 0, |prefix|);
    if head.Some? {
      Copy(buffer, head.value.0, head.value.1, prefix, offset + head.value.0);
    }
  }

  /** Copies `bytes` from `at` on into the buffer at `[from, to)`. */
  method Copy(buffer: array<Octet>, from: nat, to: nat, bytes: Bytes, at: nat)
    requires from <= to <= buffer.Length && at + (to - from) <= |bytes|
    modifies buffer
    ensures forall i | 0 <= i < buffer.Length :: buffer[i] == if from <= i < to then bytes[at + i - from]
      else old(buffer[i])
  {
    forall i | from <= i < to {
      buffer[i] := bytes[at + i - from];
    }
  }

  /** `encrypt_with`: `source` is what the reader yields, `size` what the caller
      declared, and `stops` the progress callback's answer at each byte count. */
  method Encrypt(
    p: Primitives, key: Bytes, source: Bytes, size: Size, name: string, mediaType: string, maxSource: Size,
    drawn: Fresh, stops: nat -> bool)
    returns (r: Result<Sealed, Error>, out: Bytes)
    requires p.SealLaws() && drawn.Sized()
    ensures var layout := LayoutFor(p, name, mediaType, size, maxSource);
      match r
      case Ok(sealed) =>
        && layout.Ok? && |source| == size
        && out == Envelope(p, key, layout.value, drawn, source)
        && r.value == Sealed(layout.value.details, |out|, p.sha256(out))
      case Err(e) =>
        || layout == Err(e)
        || (e == SourceChanged && |source| != size)
        || (e == Cancelled && exists done :: stops(done))
  {
    hide LayoutFor, SanitiseName, NormaliseMediaType, Text, HeaderBytes, Be32, SealRecords, SealRecord, Piece,
      Primitives.SealLaws,
      MaxRecords, PaddedLength;
    out := [];
    LayoutFits(p, name, mediaType, size, maxSource);
    var planned := LayoutFor(p, name, mediaType, size, maxSource);
    if planned.Err? {
      return Err(planned.error), out;
    }
    var layout := planned.value;
    var header := HeaderBytes(layout.records, drawn);
    var k := p.derive(key, drawn.salt);
    ghost var text := Text(layout.prefix, Given(source, size), drawn.padding, 0, layout.plaintext);
    out := header;
    assert SealRecords(p, k, header, text, 0) == [] by { SealedLength(p, k, header, text, 0); }
    var hashed, written, taken := header, HEADER, 0;
    var record := new Octet[CHUNK](_ => 0);
    for c := 0 to layout.records
      invariant out == hashed == header + SealRecords(p, k, header, text, c)
      invariant written == |out| && taken == Taken(c * CHUNK, |layout.prefix|, size) <= |source|
    {
      var offset := c * CHUNK;
      var len := Min(layout.plaintext - offset, CHUNK);
      var ok, next := FillRecord(record, offset, len, layout.prefix, source, size, drawn.padding, taken);
      if !ok {
        return Err(SourceChanged), out;
      }
      PieceOfText(layout.prefix, Given(source, size), drawn.padding, layout.plaintext, c);
      var tag := SealBuffer(p, k, header, c, record, len);
      out := out + record[..len] + tag;
      hashed := hashed + record[..len] + tag;
      SealedSoFar(p, k, header, text, c, record[..len], tag);
      written := written + len + TAG;
      taken := next;
      if stops(written) {
        return Err(Cancelled), out;
      }
    }
    if taken < |source| {
      return Err(SourceChanged), out;
    }
    assert Given(source, size) == source;
    r := Ok(Sealed(layout.details, written, p.sha256(hashed)));
  }

  /** Seals the first `len` bytes of the buffer in place. */
  method SealBuffer(
      p: Primitives, k: Bytes, header: Bytes, c: Word, buffer: array<Octet>, len: nat) returns (tag: Bytes)
    requires p.SealLaws() && |header| == HEADER && len <= buffer.Length
    modifies buffer
    ensures |tag| == TAG && buffer[..len] + tag == SealRecord(p, k, header, c, old(buffer[..len]))
  {
    hide Be32;
    var boxed := p.seal(k, header[16..24] + Be32(c), header + Be32(c), buffer[..len]);
    Copy(buffer, 0, len, boxed.0, 0);
    assert buffer[..len] == boxed.0;
    tag := boxed.1;
  }

  lemma {:induction false} SealedSoFar(
      p: Primitives, k: Bytes, header: Bytes, text: Bytes, c: Word, data: Bytes, tag: Bytes)
    requires |header| == HEADER && c + 1 < U32 && data + tag == SealRecord(p, k, header, c, Piece(text, c))
    ensures header + SealRecords(p, k, header, text, c) + data + tag == header + SealRecords(p, k, header, text, c + 1)
  {
    hide SealRecord, Piece;
    var before := SealRecords(p, k, header, text, c);
    assert header + before + data + tag == header + (before + (data + tag));
  }

  lemma {:induction false} PieceOfText(prefix: Bytes, source: Bytes, padding: nat -> Octet, length: nat, c: nat)
    requires c * CHUNK < length
    ensures var to := c * CHUNK + Min(length - c * CHUNK, CHUNK);
      Piece(Text(prefix, source, padding, 0, length), c) == Text(prefix, source, padding, c * CHUNK, to)
  {
  }

  // ---------- `decrypt` ----------

  /** The first `c` records authenticated, and together they are `plain`. */
  ghost predicate ReadSoFar(
      p: Primitives, key: Bytes, envelope: Bytes, length: nat, maxSource: Size, c: nat, plain: Bytes) {
    && Framed(envelope, length, maxSource) && c <= Records(envelope)
    && |plain| == Min(c * CHUNK, PlainLength(Records(envelope), length))
    && forall j | 0 <= j < c :: Read(p, key, envelope, length, maxSource, j, Piece(plain, j))
  }

  ghost predicate Read(p: Primitives, key: Bytes, envelope: Bytes, length: nat, maxSource: Size, c: nat, text: Bytes) {
    && Framed(envelope, length, maxSource) && c < Records(envelope) && End(Records(envelope), length, c) <= |envelope|
    && OpenRecord(p, key, envelope, length, maxSource, c) == Some(text)
  }

  lemma {:induction false} ReadLength(
      p: Primitives, key: Bytes, envelope: Bytes, length: nat, maxSource: Size, c: nat, text: Bytes)
    requires p.SealLaws() && Read(p, key, envelope, length, maxSource, c, text)
    ensures c < Records(envelope) && |text| == End(Records(envelope), length, c) - Start(c) - TAG
  {
    hide MaxRecords, FromBe32, Be32;
    var record := envelope[Start(c)..End(Records(envelope), length, c)];
    var cut := |record| - TAG;
    assert |record[..cut]| == cut;
    assert p.open(
      p.derive(key, envelope[24..56]), envelope[16..24] + Be32(c), envelope[..HEADER] + Be32(c), record[..cut],
        record[cut..]) == Some(text);
  }

  lemma {:induction false} ReadStep(
      p: Primitives, key: Bytes, envelope: Bytes, length: nat, maxSource: Size, c: nat, plain: Bytes, text: Bytes)
    requires p.SealLaws() && ReadSoFar(p, key, envelope, length, maxSource, c, plain)
    requires Read(p, key, envelope, length, maxSource, c, text)
    ensures ReadSoFar(p, key, envelope, length, maxSource, c + 1, plain + text) && Piece(plain + text, c) == text
    ensures c > 0 ==> Piece(plain + text, 0) == Piece(plain, 0)
  {
    hide Read, MaxRecords, FromBe32, Primitives.SealLaws;
    ReadLength(p, key, envelope, length, maxSource, c, text);
    assert |plain| == c * CHUNK;
    assert |plain + text| == Min((c + 1) * CHUNK, PlainLength(Records(envelope), length));
    assert Piece(plain + text, c) == text;
    forall j | 0 <= j < c ensures Piece(plain + text, j) == Piece(plain, j) {
      assert (j + 1) * CHUNK <= |plain|;
    }
  }

  lemma {:induction false} ReadAll(p: Primitives, key: Bytes, envelope: Bytes, maxSource: Size, plain: Bytes)
    requires Framed(envelope, |envelope|, maxSource)
    requires ReadSoFar(p, key, envelope, |envelope|, maxSource, Records(envelope), plain)
    ensures Unseals(p, key, envelope, maxSource, plain)
  {
    hide OpenRecord, HeaderFits;
    forall c | 0 <= c < Records(envelope)
      ensures OpenRecord(p, key, envelope, |envelope|, maxSource, c) == Some(Piece(plain, c))
    {
      assert Read(p, key, envelope, |envelope|, maxSource, c, Piece(plain, c));
    }
  }

  /** Reads record `c` into the buffer and opens it in place. */
  method OpenBuffer(
      p: Primitives, key: Bytes, envelope: Bytes, length: nat, maxSource: Size, c: nat, buffer: array<Octet>)
    returns (ok: bool, len: nat)
    requires p.SealLaws() && Framed(envelope, length, maxSource) && c < Records(envelope) && buffer.Length == RECORD
    requires End(Records(envelope), length, c) <= |envelope|
    modifies buffer
    ensures len <= RECORD
    ensures OpenRecord(p, key, envelope, length, maxSource, c) == if ok then Some(buffer[..len]) else None
  {
    hide MaxRecords, FromBe32, Be32;
    var from, to := Start(c), End(Records(envelope), length, c);
    len := to - from - TAG;
    var record := envelope[from..to];
    Copy(buffer, 0, len + TAG, record, 0);
    assert buffer[..len] == record[..len] && buffer[len..len + TAG] == record[len..];
    var found := p.open(
      p.derive(key, envelope[24..56]), envelope[16..24] + Be32(c), envelope[..HEADER] + Be32(c), buffer[..len],
        buffer[len..len + TAG]);
    ok := found.Some?;
    if ok {
      Copy(buffer, 0, len, found.value, 0);
      assert buffer[..len] == found.value;
    }
  }

  /** What `decrypt` promises: the source the envelope holds, or what is wrong with it, unless it was stopped. */
  ghost predicate Decrypted(
    p: Primitives, key: Bytes, envelope: Bytes, length: Size, maxSource: Size, stops: nat -> bool,
    r: Result<Details, Error>, out: Bytes)
  {
    match r
    case Ok(details) => exists plain :: Opens(p, key, envelope, length, maxSource, plain, details, out)
    case Err(e) =>
      || Explains(p, key, envelope, length, maxSource, e)
      || (e == Cancelled && exists done :: stops(done))
  }

  /** Decrypting what was encrypted gives back the source and the canonical
      metadata, unless the caller stops it. */
  lemma {:induction false} DecryptsBack(
    p: Primitives, key: Bytes, name: string, mediaType: string, source: Bytes, maxSource: Size, drawn: Fresh,
    stops: nat -> bool, r: Result<Details, Error>, out: Bytes)
    requires p.Lawful() && drawn.Sized() && |source| < U64
    requires LayoutFor(p, name, mediaType, |source|, maxSource).Ok?
    requires var e := Envelope(p, key, LayoutFor(p, name, mediaType, |source|, maxSource).value, drawn, source);
      |e| < U64 && Decrypted(p, key, e, |e|, maxSource, stops, r, out)
    ensures
      || (r == Ok(Details(SanitiseName(p.unicode, name), |source|, NormaliseMediaType(p.unicode, mediaType).value))
        && out == source)
      || (r == Err(Cancelled) && exists done :: stops(done))
  {
    hide SanitiseName, NormaliseMediaType, LayoutFor, Opens, Explains, Envelope, EnvelopeBytes, Text;
    RoundTrip(p, key, name, mediaType, source, maxSource, drawn);
    var layout := LayoutFor(p, name, mediaType, |source|, maxSource).value;
    var e := Envelope(p, key, layout, drawn, source);
    var text := Text(layout.prefix, source, drawn.padding, 0, layout.plaintext);
    match r
    case Ok(details) =>
      var plain :| Opens(p, key, e, |e|, maxSource, plain, details, out);
      OpensOnce(p, key, e, |e|, maxSource, text, layout.details, source, plain, details, out);
    case Err(error) =>
      if Explains(p, key, e, |e|, maxSource, error) {
        RefusedNeverOpens(p, key, e, |e|, maxSource, error, text, layout.details, source);
      }
  }

  /** `decrypt` of an envelope the caller says is `length` bytes long. */
  method Decrypt(p: Primitives, key: Bytes, envelope: Bytes, length: Size, maxSource: Size, stops: nat -> bool)
    returns (r: Result<Details, Error>, out: Bytes)
    requires p.SealLaws()
    ensures Decrypted(p, key, envelope, length, maxSource, stops, r, out)
  {
    hide FirstRecord, OpenRecord, MaxRecords, FromBe32, Piece, Clip;
    out := [];
    if length < 8 || |envelope| < 8 {
      return Err(Length), out;
    }
    if envelope[..8] != MAGIC {
      return Err(Magic), out;
    }
    if length < HEADER || |envelope| < HEADER {
      return Err(Length), out;
    }
    if !HeaderFits(envelope, maxSource) {
      return Err(Header), out;
    }
    var records := Records(envelope);
    if !LengthFits(records, length) {
      return Err(Length), out;
    }
    ghost var plain;
    r, out, plain := ReadRecords(p, key, envelope, length, maxSource, stops);
    if r.Ok? && |envelope| > length {
      r := Err(Length);
    }
    if r.Ok? {
      ReadAll(p, key, envelope, maxSource, plain);
      assert Opens(p, key, envelope, length, maxSource, plain, r.value, out);
    }
  }

  /** The first record's checks passed, and `out` is the source as far as `plain` goes. */
  ghost predicate First(
      p: Primitives, plain: Bytes, plaintext: nat, maxSource: Size, found: (Details, nat), out: Bytes) {
    && plaintext <= U32 * CHUNK
    && FirstRecord(p, Piece(plain, 0), plaintext, maxSource) == Ok(found)
    && out == Clip(plain, found.1, found.0.size)
  }

  lemma {:induction false} FirstStep(
    p: Primitives, before: Bytes, data: Bytes, plaintext: nat, maxSource: Size, found: (Details, nat), out: Bytes)
    requires plaintext <= U32 * CHUNK
    requires FirstRecord(p, Piece(before + data, 0), plaintext, maxSource) == Ok(found)
    requires out == Clip(before, found.1, found.0.size)
    ensures First(p, before + data, plaintext, maxSource, found, out + Slice(data, |before|, found.1, found.0.size))
  {
    hide FirstRecord, Piece, Clip, Slice;
    SlicesJoin(before, data, found.1, found.0.size);
  }

  method ReadRecords(p: Primitives, key: Bytes, envelope: Bytes, length: Size, maxSource: Size, stops: nat -> bool)
    returns (r: Result<Details, Error>, out: Bytes, ghost plain: Bytes)
    requires p.SealLaws() && Framed(envelope, length, maxSource)
    ensures match r
      case Ok(details) =>
        && length <= |envelope|
        && ReadSoFar(p, key, envelope, length, maxSource, Records(envelope), plain)
        && exists prefix: nat :: First(p, plain, PlainLength(Records(envelope), length), maxSource, (details, prefix),
          out)
      case Err(e) =>
        || Explains(p, key, envelope, length, maxSource, e)
        || (e == Cancelled && exists done :: stops(done))
  {
    hide FirstRecord, OpenRecord, MaxRecords, FromBe32, LengthFits, Piece, Be32, Primitives.SealLaws;
    out, plain := [], [];
    var records := Records(envelope);
    var plaintext := PlainLength(records, length);
    var buffer := new Octet[RECORD](_ => 0);
    var found: Option<(Details, nat)> := None;
    for c := 0 to records
      invariant ReadSoFar(p, key, envelope, length, maxSource, c, plain)
      invariant c == 0 ==> found == None && out == [] && plain == []
      invariant c == records ==> length <= |envelope|
      invariant c > 0 ==> found.Some? && First(p, plain, plaintext, maxSource, found.value, out)
    {
      if End(records, length, c) > |envelope| {
        return Err(Length), out, plain;
      }
      var ok, len := OpenBuffer(p, key, envelope, length, maxSource, c, buffer);
      if !ok {
        assert Fails(p, key, envelope, length, maxSource, c);
        return Err(Authentication), out, plain;
      }
      var data := buffer[..len];
      ReadStep(p, key, envelope, length, maxSource, c, plain, data);
      if found.None? {
        var first := FirstRecord(p, data, plaintext, maxSource);
        if first.Err? {
          return Err(first.error), out, plain;
        }
        found := Some(first.value);
        assert Clip(plain, found.value.1, found.value.0.size) == [];
      }
      FirstStep(p, plain, data, plaintext, maxSource, found.value, out);
      var range := Overlap(c * CHUNK, |data|, found.value.1, found.value.0.size);
      if range.Some? {
        out := out + data[range.value.0..range.value.1];
      }
      plain := plain + data;
      if stops(End(records, length, c)) {
        return Err(Cancelled), out, plain;
      }
    }
    r := Ok(found.value.0);
    assert found.value == (found.value.0, found.value.1);
  }
}
