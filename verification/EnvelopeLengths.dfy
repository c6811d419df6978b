/** Envelope lengths (`envelope/src/stream.rs`, `envelope/src/lib.rs`): padding
    buckets, record counts and the part of a record a byte range covers. */
module EnvelopeLengths {

  import opened Arithmetic
  import opened Wrappers

  const CHUNK: nat := 1048576
  const TAG: nat := 16
  const HEADER: nat := 56
  const RECORD: nat := CHUNK + TAG
  const MIN_BUCKET: nat := 65536
  const MAX_METADATA: nat := 4096
  const MAX_PREFIX: nat := 4 + MAX_METADATA
  const U32: nat := 0x1_0000_0000
  const U64: nat := 0x1_0000_0000_0000_0000

  type Size = n: int | 0 <= n < U64

  function Chunks(n: nat): (c: nat)
    ensures c * CHUNK >= n > (c - 1) * CHUNK || n == c == 0
  {
    (n + CHUNK - 1) / CHUNK
  }

  /** The least power of two at least `n`. */
  function NextPowerOfTwo(n: nat): (p: nat)
    ensures n <= p && 1 <= p && (n >= 1 ==> p < 2 * n)
  {
    if n <= 1 then 1 else 2 * NextPowerOfTwo((n + 1) / 2)
  }

  /** 64-bit arithmetic: the last step wraps to nothing. */
  function PaddedLength(length: Size): Size
  {
    if length <= MIN_BUCKET then MIN_BUCKET
    else if length <= CHUNK then NextPowerOfTwo(length)
    else Chunks(length) * CHUNK % U64
  }

  function EnvelopeLength(plaintext: nat): nat {
    HEADER + plaintext + Chunks(plaintext) * TAG
  }

  function MaxRecords(maxSource: Size): (n: nat)
    ensures n < U32
  {
    var logical := if maxSource + MAX_PREFIX < U64 then maxSource + MAX_PREFIX else U64 - 1;
    if Chunks(logical) < U32 then Chunks(logical) else U32 - 1
  }

  // ---------- padding ----------

  ghost predicate PowerOfTwo(n: nat) {
    n == 1 || (n >= 2 && n % 2 == 0 && PowerOfTwo(n / 2))
  }

  lemma {:induction false} Doubled(q: nat)
    requires PowerOfTwo(q)
    ensures PowerOfTwo(2 * q)
  {
    assert 2 * q / 2 == q && 2 * q % 2 == 0;
  }

  lemma {:induction false} NextIsPowerOfTwo(n: nat)
    ensures PowerOfTwo(NextPowerOfTwo(n))
  {
    assert PowerOfTwo(1);
    hide PowerOfTwo;
    if n > 1 {
      NextIsPowerOfTwo((n + 1) / 2);
      Doubled(NextPowerOfTwo((n + 1) / 2));
    }
  }

  lemma {:induction false} NextIsLeast(n: nat, p: nat)
    requires PowerOfTwo(p) && n <= p
    ensures NextPowerOfTwo(n) <= p
  {
    if n > 1 {
      NextIsLeast((n + 1) / 2, p / 2);
    }
  }

  lemma {:induction false} BucketsArePowers()
    ensures PowerOfTwo(MIN_BUCKET) && PowerOfTwo(CHUNK)
  {
    assert PowerOfTwo(64);
    assert PowerOfTwo(4096);
    assert PowerOfTwo(65536);
    assert PowerOfTwo(1048576);
  }

  /** Up to a chunk, the length is the least bucket that holds it: a power of two from 64 KiB. */
  lemma {:induction false} SmallBucket(length: nat, p: nat)
    requires length <= CHUNK
    ensures PowerOfTwo(PaddedLength(length)) && MIN_BUCKET <= PaddedLength(length) <= CHUNK
    ensures PowerOfTwo(p) && MIN_BUCKET <= p && length <= p ==> PaddedLength(length) <= p
  {
    hide PowerOfTwo;
    BucketsArePowers();
    NextIsPowerOfTwo(length);
    NextIsLeast(length, CHUNK);
    if PowerOfTwo(p) && length <= p {
      NextIsLeast(length, p);
    }
  }

  /** Padding covers its input exactly where the last step does not wrap. */
  lemma {:induction false} PaddingCovers(length: Size)
    ensures length <= PaddedLength(length) <==> length <= U64 - CHUNK
    ensures length > U64 - CHUNK ==> PaddedLength(length) == 0
    ensures length <= U64 - CHUNK ==> Chunks(PaddedLength(length)) == if length == 0 then 1 else Chunks(length)
  {
    if length <= CHUNK {
      SmallBucket(length, 1);
    } else if length > U64 - CHUNK {
      assert Chunks(length) == U64 / CHUNK;
    } else {
      assert Chunks(length) <= U64 / CHUNK - 1 || length == U64 - CHUNK;
    }
  }

  lemma {:induction false} PaddingMonotone(a: nat, b: nat)
    requires a <= b <= U64 - CHUNK
    ensures PaddedLength(a) <= PaddedLength(b)
  {
    PaddingCovers(a);
    PaddingCovers(b);
    if b <= CHUNK {
      SmallBucket(b, 1);
      SmallBucket(a, PaddedLength(b));
    } else if a <= CHUNK {
      SmallBucket(a, 1);
    }
  }

  lemma {:induction false} PaddingIdempotent(length: nat)
    requires length <= U64 - CHUNK
    ensures PaddedLength(PaddedLength(length)) == PaddedLength(length)
  {
    PaddingCovers(length);
    if length <= CHUNK {
      SmallBucket(length, 1);
      SmallBucket(PaddedLength(length), PaddedLength(length));
    } else {
      assert Chunks(PaddedLength(length)) == Chunks(length);
    }
  }

  /** A source within the limit needs no more records than the limit allows,
      while that count fits 32 bits. */
  lemma {:induction false} RecordsFit(maxSource: Size, size: Size, prefix: nat)
    requires size <= maxSource && 0 < prefix <= MAX_PREFIX && prefix + size < U64
    requires Chunks(prefix + size) < U32
    ensures 1 <= Chunks(PaddedLength(prefix + size)) == Chunks(prefix + size) <= MaxRecords(maxSource)
    ensures prefix + size <= PaddedLength(prefix + size)
  {
    PaddingCovers(prefix + size);
    var room := if maxSource + MAX_PREFIX < U64 then maxSource + MAX_PREFIX else U64 - 1;
    assert prefix + size <= room;
    assert Chunks(prefix + size) <= Chunks(room);
  }

  // ---------- ranges and records ----------

  /** Which bytes of a record of length `record`, starting at `offset`, the range of `len` from `start` takes. */
  function Overlap(offset: nat, record: nat, start: nat, len: nat): Option<(nat, nat)> {
    var from, to := Max(start, offset), Min(start + len, offset + record);
    if to > from then Some((from - offset, to - offset)) else None
  }

  function Slice<T>(data: seq<T>, offset: nat, start: nat, len: nat): seq<T> {
    match Overlap(offset, |data|, start, len)
    case None => []
    case Some(range) => data[range.0..range.1]
  }

  /** What `all` holds of `[start, start + len)`. */
  function Clip<T>(all: seq<T>, start: nat, len: nat): seq<T> {
    all[Min(start, |all|)..Min(start + len, |all|)]
  }

  /** Record after record, the slices `overlap` picks are the range itself, in order. */
  lemma {:induction false} SlicesJoin<T>(before: seq<T>, data: seq<T>, start: nat, len: nat)
    ensures Clip(before + data, start, len) == Clip(before, start, len) + Slice(data, |before|, start, len)
  {
  }

  /** Record `c` of a text. */
  function Piece<T>(text: seq<T>, c: nat): seq<T> {
    text[Min(c * CHUNK, |text|)..Min((c + 1) * CHUNK, |text|)]
  }

  function Pieces<T>(text: seq<T>, n: nat): seq<seq<T>> {
    seq(n, c requires 0 <= c => Piece(text, c))
  }

  function SlicesOf<T>(records: seq<seq<T>>, start: nat, len: nat): seq<T> {
    if records == [] then [] else
    var n := |records| - 1;
    SlicesOf(records[..n], start, len) + Slice(records[n], n * CHUNK, start, len)
  }

  /** Over all the records of a text, the slices partition the range. */
  lemma {:induction false} SlicesPartition<T>(text: seq<T>, n: nat, start: nat, len: nat)
    requires n <= Chunks(|text|)
    ensures SlicesOf(Pieces(text, n), start, len) == Clip(text[..Min(n * CHUNK, |text|)], start, len)
  {
    if n > 0 {
      SlicesPartition(text, n - 1, start, len);
      var records := Pieces(text, n);
      assert records[..n - 1] == Pieces(text, n - 1);
      var before := text[..Min((n - 1) * CHUNK, |text|)];
      SlicesJoin(before, Piece(text, n - 1), start, len);
      assert before + Piece(text, n - 1) == text[..Min(n * CHUNK, |text|)];
    }
  }
}
