/** `regenerate` of `replicas/coding.rs`: rebuild every part from `k` part
    files, stripe by stripe, then hash the payload the first `k` parts carry. */
module ErasureRepair {
  import opened Arithmetic
  import opened Wrappers
  import opened Gf256
  import opened Linear
  import opened GaussJordan
  import opened ErasureCode

  const STRIPE: nat := 64 * 1024
  const MAGIC_BYTES: nat := 8

  type Digest = seq<Byte>

  datatype Part = Part(sha256: Digest, size: nat)
  datatype Manifest = Manifest(required: nat, total: nat, parts: seq<Part>, payloadSha256: Digest, payloadSize: nat)
  datatype Source = Source(index: nat, file: seq<Byte>)

  datatype Outcome =
    | Regenerated
    | Internal
    | ReadFailed
    | PartMismatch
    | PayloadMismatch

  function Picks(sources: seq<Source>): (picks: seq<nat>)
    ensures |picks| == |sources|
  {
    seq(|sources|, j requires 0 <= j < |sources| => sources[j].index)
  }

  function Files(sources: seq<Source>): (files: Matrix)
    ensures |files| == |sources|
  {
    seq(|sources|, j requires 0 <= j < |sources| => sources[j].file)
  }

  /** Bytes `from` to `to` of every row. */
  function Cut(m: Matrix, from: nat, to: nat): (c: Matrix)
    requires from <= to && forall i :: 0 <= i < |m| ==> to <= |m[i]|
    ensures |c| == |m| && Wide(c, to - from)
  {
    seq(|m|, i requires 0 <= i < |m| => m[i][from..to])
  }

  function Concat(files: Matrix): seq<Byte> {
    if files == [] then [] else files[0] + Concat(files[1..])
  }

  // ---------- stripes and repair ----------

  lemma {:induction false} StripesJoin(u: Vec, m: Matrix, from: nat, to: nat)
    requires |u| == |m| && from <= to && forall i :: 0 <= i < |m| ==> to <= |m[i]|
    ensures Times(u, Cut(m, 0, to), to) == Times(u, Cut(m, 0, from), from) + Times(u, Cut(m, from, to), to - from)
  {
    hide Times, Dot;
    var whole, first, second := Cut(m, 0, to), Cut(m, 0, from), Cut(m, from, to);
    forall c | 0 <= c < to
      ensures Times(u, whole, to)[c] == (Times(u, first, from) + Times(u, second, to - from))[c]
    {
      TimesAt(u, whole, to, c);
      if c < from {
        TimesAt(u, first, from, c);
        assert Column(whole, c) == Column(first, c);
      } else {
        TimesAt(u, second, to - from, c - from);
        assert Column(whole, c) == Column(second, c - from);
      }
    }
  }

  /** Decoding the parts with the inverse of their generator rows and encoding
      again gives the part a row of the generator would give. */
  lemma {:induction false} RepairRow(row: Vec, s: Matrix, w: Matrix, data: Matrix, size: nat)
    requires IsInverse(s, w) && |row| == |s| == |data| && Wide(data, size)
    ensures Times(Times(row, w, |s|), Product(s, data, size), size) == Times(row, data, size)
  {
    hide Times;
    var parts := Product(s, data, size);
    TimesProduct(row, w, |s|, parts, size);
    var again := Product(w, parts, size);
    forall r | 0 <= r < |s| ensures again[r] == data[r] {
      TimesProduct(w[r], s, |s|, data, size);
      assert Times(w[r], s, |s|) == Product(w, s, |s|)[r] == Unit(|s|, r);
      TimesUnit(data, size, r);
    }
    assert again == data;
  }

  /** The sources are parts of one encoding of `data`. */
  ghost predicate Encoded(g: Matrix, data: Matrix, size: nat, sources: seq<Source>)
  {
    && |data| == |sources| && Wide(g, |data|) && Wide(data, size)
    && forall j :: 0 <= j < |sources| ==>
         sources[j].index < |g| && sources[j].file == Encode(g, data, size)[sources[j].index]
  }

  ghost predicate Readable(sources: seq<Source>, size: nat) {
    forall j :: 0 <= j < |sources| ==> size <= |sources[j].file|
  }

  /** Every part rebuilt from the first `size` bytes of the sources. */
  ghost function Rebuilt(transform: Matrix, sources: seq<Source>, size: nat): (parts: Matrix)
    requires Wide(transform, |sources|) && Readable(sources, size)
    ensures |parts| == |transform| && Wide(parts, size)
  {
    Product(transform, Cut(Files(sources), 0, size), size)
  }

  lemma {:induction false} RepairIsEncoding(
    g: Matrix, other: Matrix, k: nat, n: nat, w: Matrix, v: Matrix, sources: seq<Source>, data: Matrix, size: nat)
    requires IsGenerator(g, k, n) && IsGenerator(other, k, n) && IsInverse(Powers(k, k), v)
    requires |sources| == k && Encoded(other, data, size, sources)
    requires forall j :: 0 <= j < k ==> Picks(sources)[j] < n
    requires IsInverse(Rows(g, Picks(sources)), w)
    ensures Readable(sources, size)
    ensures Rebuilt(Product(g, w, k), sources, size) == Encode(other, data, size)
  {
    hide Times;
    var s := Rows(g, Picks(sources));
    forall r | 0 <= r < n ensures g[r] == other[r] {
      GeneratorRow(g, k, n, v, r);
      GeneratorRow(other, k, n, v, r);
    }
    assert g == other;
    var parts := Product(s, data, size);
    assert Readable(sources, size);
    forall j | 0 <= j < k ensures Cut(Files(sources), 0, size)[j] == parts[j] {
      assert parts[j] == Times(g[sources[j].index], data, size) == Encode(g, data, size)[sources[j].index];
    }
    assert Cut(Files(sources), 0, size) == parts;
    var t := Product(g, w, k);
    forall i | 0 <= i < n ensures Rebuilt(t, sources, size)[i] == Encode(g, data, size)[i] {
      RepairRow(g[i], s, w, data, size);
    }
  }

  // ---------- the striped loop ----------

  method ReadStripe(sources: seq<Source>, offset: nat, count: nat) returns (ok: bool, inputs: Matrix)
    requires forall j :: 0 <= j < |sources| ==> offset <= |sources[j].file|
    ensures ok <==> forall j :: 0 <= j < |sources| ==> offset + count <= |sources[j].file|
    ensures ok ==> inputs == Cut(Files(sources), offset, offset + count)
  {
    inputs := [];
    for j := 0 to |sources|
      invariant |inputs| == j
      invariant forall i :: 0 <= i < j ==> offset + count <= |sources[i].file|
      invariant forall i :: 0 <= i < j ==> inputs[i] == sources[i].file[offset..offset + count]
    {
      if |sources[j].file| < offset + count {
        return false, inputs;
      }
      inputs := inputs + [sources[j].file[offset..offset + count]];
    }
    ok := true;
    assert inputs == Cut(Files(sources), offset, offset + count);
  }

  method WriteStripe(
      transform: Matrix, inputs: Matrix, count: nat, writers: array<seq<Byte>>, hashers: array<seq<Byte>>)
    requires |transform| == writers.Length == hashers.Length && writers != hashers
    requires Wide(transform, |inputs|) && Wide(inputs, count)
    modifies writers, hashers
    ensures forall i :: 0 <= i < writers.Length ==> writers[i] == old(writers[i]) + Times(transform[i], inputs, count)
    ensures forall i :: 0 <= i < hashers.Length ==> hashers[i] == old(hashers[i]) + Times(transform[i], inputs, count)
  {
    hide Times;
    for i := 0 to writers.Length
      invariant forall j :: 0 <= j < i ==> writers[j] == old(writers[j]) + Times(transform[j], inputs, count)
      invariant forall j :: 0 <= j < i ==> hashers[j] == old(hashers[j]) + Times(transform[j], inputs, count)
      invariant forall j :: i <= j < writers.Length ==> writers[j] == old(writers[j]) && hashers[j] == old(hashers[j])
    {
      var bytes := Combine(transform[i], inputs, count);
      hashers[i] := hashers[i] + bytes;
      writers[i] := writers[i] + bytes;
    }
  }

  method Rebuild(transform: Matrix, sources: seq<Source>, size: nat) returns (ok: bool, written: Matrix, hashed: Matrix)
    requires Wide(transform, |sources|)
    ensures ok <==> size == 0 || Readable(sources, size)
    ensures ok ==> Readable(sources, size) && written == Rebuilt(transform, sources, size) && hashed == written
  {
    hide Times;
    var n := |transform|;
    var files := Files(sources);
    var writers := new seq<Byte>[n](_ => []);
    var hashers := new seq<Byte>[n](_ => []);
    var offset := 0;
    assert forall i :: 0 <= i < n ==> |Times(transform[i], Cut(files, 0, 0), 0)| == 0;
    while offset < size
      invariant offset <= size && Readable(sources, offset)
      invariant forall i :: 0 <= i < n ==> writers[i] == Times(transform[i], Cut(files, 0, offset), offset)
      invariant forall i :: 0 <= i < n ==> hashers[i] == writers[i]
    {
      var count := Min(STRIPE, size - offset);
      var read, inputs := ReadStripe(sources, offset, count);
      if !read {
        return false, writers[..], hashers[..];
      }
      WriteStripe(transform, inputs, count, writers, hashers);
      forall i | 0 <= i < n
        ensures writers[i] == Times(transform[i], Cut(files, 0, offset + count), offset + count)
      {
        StripesJoin(transform[i], files, offset, offset + count);
      }
      offset := offset + count;
    }
    written, hashed := writers[..], hashers[..];
    assert written == Rebuilt(transform, sources, size);
    ok := true;
  }

  // ---------- the payload walk ----------

  lemma {:induction false} ConcatSnoc(files: Matrix, file: seq<Byte>)
    ensures Concat(files + [file]) == Concat(files) + file
  {
    if files == [] {
      assert files + [file] == [file];
      assert Concat([file]) == file + Concat([]);
    } else {
      assert (files + [file])[1..] == files[1..] + [file];
      ConcatSnoc(files[1..], file);
    }
  }

  lemma {:induction false} ConcatLength(files: Matrix, size: nat)
    requires Wide(files, size)
    ensures |Concat(files)| == |files| * size
  {
    if files != [] {
      ConcatLength(files[1..], size);
    }
  }

  /** One file of the walk: absorb its first `min(size, remaining)` bytes. */
  method WalkFile(file: seq<Byte>, hashed: seq<Byte>, header: seq<Byte>, remaining: nat)
    returns (hashed': seq<Byte>, header': seq<Byte>, remaining': nat)
    requires header == hashed[..Min(MAGIC_BYTES, |hashed|)]
    ensures hashed' == hashed + file[..Min(|file|, remaining)]
    ensures header' == hashed'[..Min(MAGIC_BYTES, |hashed'|)]
    ensures remaining' == remaining - Min(|file|, remaining)
  {
    hashed', header', remaining' := hashed, header, remaining;
    var position := 0;
    var left := Min(|file|, remaining);
    ghost var goal := left;
    while left > 0
      invariant position + left == goal && remaining' + position == remaining
      invariant hashed' == hashed + file[..position]
      invariant header' == hashed'[..Min(MAGIC_BYTES, |hashed'|)]
    {
      var count := Min(STRIPE, left);
      var bytes := file[position..position + count];
      if |header'| < MAGIC_BYTES {
        header' := header' + bytes[..Min(count, MAGIC_BYTES - |header'|)];
      }
      assert file[..position + count] == file[..position] + bytes;
      hashed' := hashed' + bytes;
      position, left, remaining' := position + count, left - count, remaining' - count;
    }
  }

  /** Hash the payload: the first `payloadSize` bytes of the files in order. */
  method WalkPayload(files: Matrix, size: nat, payloadSize: nat)
    returns (hashed: seq<Byte>, header: seq<Byte>, remaining: nat)
    requires Wide(files, size)
    ensures hashed == Concat(files)[..Min(payloadSize, |Concat(files)|)]
    ensures header == hashed[..Min(MAGIC_BYTES, |hashed|)]
    ensures remaining == payloadSize - |hashed|
  {
    hashed, header, remaining := [], [], payloadSize;
    for i := 0 to |files|
      invariant hashed == Concat(files[..i])[..Min(payloadSize, |Concat(files[..i])|)]
      invariant header == hashed[..Min(MAGIC_BYTES, |hashed|)]
      invariant remaining == payloadSize - |hashed|
    {
      hashed, header, remaining := WalkFile(files[i], hashed, header, remaining);
      assert files[..i + 1] == files[..i] + [files[i]];
      ConcatSnoc(files[..i], files[i]);
    }
    assert files[..|files|] == files;
  }

  // ---------- regenerate ----------

  /** Every stored hash agrees with the rebuilt part it is listed for. */
  ghost predicate HashesAgree(hash: seq<Byte> -> Digest, parts: Matrix, listed: seq<Part>) {
    forall i :: 0 <= i < |parts| && i < |listed| ==> hash(parts[i]) == listed[i].sha256
  }

  /** The payload check: the signed length and hash, and the envelope's magic. */
  ghost predicate PayloadAgrees(hash: seq<Byte> -> Digest, magic: seq<Byte>, manifest: Manifest, payload: seq<Byte>) {
    && |payload| == manifest.payloadSize
    && hash(payload) == manifest.payloadSha256
    && payload[..Min(MAGIC_BYTES, |payload|)] == magic
  }

  ghost function Payload(parts: Matrix, k: nat, payloadSize: nat): seq<Byte>
    requires k <= |parts|
  {
    Concat(parts[..k])[..Min(payloadSize, |Concat(parts[..k])|)]
  }

  method CheckHashes(hash: seq<Byte> -> Digest, hashed: Matrix, listed: seq<Part>) returns (ok: bool)
    ensures ok <==> HashesAgree(hash, hashed, listed)
  {
    for i := 0 to Min(|hashed|, |listed|)
      invariant forall j :: 0 <= j < i ==> hash(hashed[j]) == listed[j].sha256
    {
      if hash(hashed[i]) != listed[i].sha256 {
        return false;
      }
    }
    ok := true;
  }

  /** The rows of this matrix rebuild every part of any encoding the sources belong to. */
  ghost predicate Repairs(transform: Matrix, k: nat, n: nat, size: nat, sources: seq<Source>)
    requires Wide(transform, |sources|)
  {
    forall g, data | IsGenerator(g, k, n) && Encoded(g, data, size, sources) ::
      Readable(sources, size) && Rebuilt(transform, sources, size) == Encode(g, data, size)
  }

  method Transform(k: nat, n: nat, ghost size: nat, sources: seq<Source>) returns (result: Option<Matrix>)
    requires forall j :: 0 <= j < |sources| ==> sources[j].index < n
    ensures result.Some? <==> |sources| == k && Supported(k, n) && Distinct(Picks(sources))
    ensures result.Some? ==>
      && |result.value| == n && Wide(result.value, |sources|)
      && Repairs(result.value, k, n, size, sources)
  {
    hide Times, Product, Dot, HasKernel, IsGenerator, IsInverse;
    if |sources| != k {
      return None;
    }
    var generator, v := Generator(k, n);
    if generator.None? {
      return None;
    }
    var matrix := generator.value;
    assert |matrix| == n && Wide(matrix, k) by { GeneratorShape(matrix, k, n); }
    var picks := Picks(sources);
    var rows := Rows(matrix, picks);
    var decode := Invert(rows);
    if decode.None? {
      if Distinct(picks) {
        AnyRowsRegular(matrix, k, n, v, picks);
      }
      return None;
    }
    var w := decode.value;
    assert |w| == k && Wide(w, k) by { InverseShape(rows, w); }
    forall i, j | 0 <= i < j < k ensures picks[i] != picks[j] {
      InvertibleRowsDiffer(rows, w, i, j);
    }
    var transform := Product(matrix, w, k);
    forall g, data | IsGenerator(g, k, n) && Encoded(g, data, size, sources)
      ensures Readable(sources, size) && Rebuilt(transform, sources, size) == Encode(g, data, size)
    {
      RepairIsEncoding(matrix, g, k, n, w, v, sources, data, size);
    }
    result := Some(transform);
  }

  lemma {:induction false} GeneratorShape(g: Matrix, k: nat, n: nat)
    requires IsGenerator(g, k, n)
    ensures |g| == n && Wide(g, k)
  {}

  lemma {:induction false} InverseShape(m: Matrix, w: Matrix)
    requires IsInverse(m, w)
    ensures |w| == |m| && Wide(w, |m|)
  {}

  /** From any `k` distinct parts of an encoding, in any order, every part of
      it is written again byte for byte; success means exactly that the signed
      hashes of the parts and of the payload agree with what was written. */
  method Regenerate(hash: seq<Byte> -> Digest, magic: seq<Byte>, manifest: Manifest, sources: seq<Source>)
    returns (outcome: Outcome, written: Matrix)
    requires manifest.parts != []
    requires forall j :: 0 <= j < |sources| ==> sources[j].index < manifest.total
    ensures outcome == Internal <==>
      !(|sources| == manifest.required && Supported(manifest.required, manifest.total) && Distinct(Picks(sources)))
    ensures outcome != Internal ==> (outcome == ReadFailed <==> !Readable(sources, manifest.parts[0].size))
    ensures outcome !in {Internal, ReadFailed} ==>
      && |written| == manifest.total && Wide(written, manifest.parts[0].size)
      && manifest.required <= |written|
      && outcome == Verdict(hash, magic, manifest, written)
    ensures forall g, data | outcome != Internal && IsGenerator(g, manifest.required, manifest.total)
              && Encoded(g, data, manifest.parts[0].size, sources) ::
              outcome != ReadFailed && written == Encode(g, data, manifest.parts[0].size)
  {
    hide Times, Product, HashesAgree, PayloadAgrees, Encoded, IsGenerator, Payload, Rebuilt;
    var k, n, size := manifest.required, manifest.total, manifest.parts[0].size;
    var transform := Transform(k, n, size, sources);
    if transform.None? {
      return Internal, [];
    }
    var read, files, hashed := Rebuild(transform.value, sources, size);
    written := files;
    if !read {
      return ReadFailed, written;
    }
    var agree := CheckHashes(hash, hashed, manifest.parts);
    if !agree {
      return PartMismatch, written;
    }
    outcome := CheckPayload(hash, magic, manifest, written);
  }

  /** What the signed hashes say of the rebuilt parts. */
  ghost function Verdict(hash: seq<Byte> -> Digest, magic: seq<Byte>, manifest: Manifest, written: Matrix): Outcome
    requires manifest.required <= |written|
  {
    if !HashesAgree(hash, written, manifest.parts) then PartMismatch
    else if !PayloadAgrees(hash, magic, manifest, Payload(written, manifest.required, manifest.payloadSize))
    then PayloadMismatch
    else Regenerated
  }

  method CheckPayload(hash: seq<Byte> -> Digest, magic: seq<Byte>, manifest: Manifest, written: Matrix)
    returns (outcome: Outcome)
    requires manifest.parts != [] && Wide(written, manifest.parts[0].size) && manifest.required <= |written|
    ensures outcome == if PayloadAgrees(hash, magic, manifest,
      Payload(written, manifest.required, manifest.payloadSize))
                       then Regenerated else PayloadMismatch
  {
    var first := written[..manifest.required];
    var payload, header, remaining := WalkPayload(first, manifest.parts[0].size, manifest.payloadSize);
    if remaining != 0 || hash(payload) != manifest.payloadSha256 || header != magic {
      return PayloadMismatch;
    }
    outcome := Regenerated;
  }
}
