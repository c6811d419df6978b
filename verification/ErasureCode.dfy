/** The systematic code of `replicas/coding.rs`: `generator` and `combine`, and
    why any `k` distinct parts determine the data. */
module ErasureCode {
  import opened Wrappers
  import opened Gf256
  import opened Linear
  import opened Vandermonde
  import opened GaussJordan

  function Points(rows: seq<nat>): seq<Byte> {
    seq(|rows|, i requires 0 <= i < |rows| => FromNat(rows[i]))
  }

  /** The first `rows` rows of the Vandermonde matrix with `k` columns. */
  function Powers(rows: nat, k: nat): (m: Matrix)
    ensures |m| == rows && Wide(m, k)
  {
    seq(rows, r requires 0 <= r => PowerRow(FromNat(r), k))
  }

  function Rows(m: Matrix, picks: seq<nat>): (s: Matrix)
    requires forall j :: 0 <= j < |picks| ==> picks[j] < |m|
    ensures |s| == |picks|
  {
    seq(|picks|, j requires 0 <= j < |picks| => m[picks[j]])
  }

  ghost predicate Distinct(picks: seq<nat>) {
    forall i, j :: 0 <= i < j < |picks| ==> picks[i] != picks[j]
  }

  predicate Supported(k: nat, n: nat) {
    2 <= k < n <= 16
  }

  /** The code: the one matrix that takes the values of a polynomial with `k`
      coefficients at 0, 1, ..., k-1 to its values at 0, 1, ..., n-1. */
  ghost predicate IsGenerator(g: Matrix, k: nat, n: nat) {
    && |g| == n && Wide(g, k)
    && Product(g, Powers(k, k), k) == Powers(n, k)
  }

  /** What the parts of `data` are: `data` is `k` rows of `size` bytes. */
  ghost function Encode(g: Matrix, data: Matrix, size: nat): (parts: Matrix)
    requires Wide(g, |data|) && Wide(data, size)
    ensures |parts| == |g| && Wide(parts, size)
  {
    Product(g, data, size)
  }

  // ---------- matrix identities ----------

  lemma {:induction false} TimesIdentity(u: Vec)
    ensures Wide(Identity(|u|), |u|) && Times(u, Identity(|u|), |u|) == u
  {
    var n := |u|;
    forall c | 0 <= c < n ensures Times(u, Identity(n), n)[c] == u[c] {
      TimesAt(u, Identity(n), n, c);
      assert Column(Identity(n), c) == Unit(n, c);
      DotUnit(u, c);
    }
  }

  /** u (W M) is u when W M is the identity. */
  lemma {:induction false} TimesInverse(u: Vec, w: Matrix, m: Matrix)
    requires |u| == |m| && IsInverse(m, w)
    ensures Times(Times(u, w, |m|), m, |m|) == u
    ensures Times(Times(u, m, |m|), w, |m|) == u
  {
    TimesProduct(u, w, |m|, m, |m|);
    TimesProduct(u, m, |m|, w, |m|);
    TimesIdentity(u);
  }

  // ---------- the generator ----------

  lemma {:induction false} PowersInjective(rows: seq<nat>, m: Matrix, c: Vec)
    requires |rows| == |m| == |c| && Distinct(rows) && Wide(m, |c|)
    requires forall i :: 0 <= i < |rows| ==> rows[i] < 16 && m[i] == PowerRow(FromNat(rows[i]), |c|)
    requires Apply(m, c) == Zeros(|c|)
    ensures c == Zeros(|c|)
  {
    hide FromNat;
    var points := Points(rows);
    forall i, j | 0 <= i < j < |rows| ensures points[i] != points[j] {
      if FromNat(rows[i]) == FromNat(rows[j]) {
        FromNatInjective(rows[i], rows[j]);
      }
    }
    VandermondeInjective(points, m, c);
  }

  lemma {:induction false} PowersRegular(k: nat)
    requires k <= 16
    ensures !HasKernel(Powers(k, k))
  {
    hide PowerRow, FromNat;
    var v := Powers(k, k);
    forall x: Vec | |x| == k && Apply(v, x) == Zeros(k) ensures x == Zeros(k) {
      PowersInjective(seq(k, i requires 0 <= i => i), v, x);
    }
  }

  /** The code has one generator, and its first rows are the identity. */
  lemma {:induction false} GeneratorRow(g: Matrix, k: nat, n: nat, w: Matrix, r: nat)
    requires IsGenerator(g, k, n) && IsInverse(Powers(k, k), w) && r < n
    ensures g[r] == Times(PowerRow(FromNat(r), k), w, k)
    ensures r < k ==> g[r] == Unit(k, r)
  {
    var v := Powers(k, k);
    hide PowerRow, FromNat, Times;
    TimesInverse(g[r], w, v);
    assert Times(g[r], v, k) == Product(g, v, k)[r] == Powers(n, k)[r];
    if r < k {
      TimesUnit(v, k, r);
      TimesInverse(Unit(k, r), w, v);
    }
  }

  /** Any `k` distinct rows of the generator are independent. */
  lemma {:induction false} AnyRowsRegular(g: Matrix, k: nat, n: nat, w: Matrix, picks: seq<nat>)
    requires IsGenerator(g, k, n) && IsInverse(Powers(k, k), w) && n <= 16
    requires |picks| == k && Distinct(picks) && forall j :: 0 <= j < k ==> picks[j] < n
    ensures Wide(Rows(g, picks), k) && !HasKernel(Rows(g, picks))
  {
    hide PowerRow, FromNat, Times, Dot;
    var v, s := Powers(k, k), Rows(g, picks);
    forall x: Vec | |x| == k && Apply(s, x) == Zeros(k) ensures x == Zeros(k) {
      var c := Apply(w, x);
      ApplyProduct(v, w, x);
      IdentityApply(x);
      ApplyProduct(s, v, c);
      var m := Product(s, v, k);
      forall j | 0 <= j < k ensures m[j] == PowerRow(FromNat(picks[j]), k) {
        assert m[j] == Product(g, v, k)[picks[j]] == Powers(n, k)[picks[j]];
      }
      PowersInjective(picks, m, c);
      ZerosApply(v, k);
    }
  }

  lemma {:induction false} InvertibleRowsDiffer(s: Matrix, w: Matrix, i: nat, j: nat)
    requires IsInverse(s, w) && i < j < |s|
    ensures s[i] != s[j]
  {
    hide Times;
    var p := Product(s, w, |s|);
    assert p[i][i] == ONE && p[j][i] == ZERO;
    assert p[i] == Times(s[i], w, |s|) && p[j] == Times(s[j], w, |s|);
  }

  /** Each byte of each part is the value, at the part's index, of the
      polynomial whose values at 0 .. k-1 are the data bytes. */
  lemma {:induction false} PartsAreEvaluations(g: Matrix, k: nat, n: nat, c: Vec, r: nat)
    requires IsGenerator(g, k, n) && |c| == k && r < n
    ensures Apply(g, Apply(Powers(k, k), c))[r] == Eval(c, FromNat(r))
    ensures r < k ==> Apply(Powers(k, k), c)[r] == Eval(c, FromNat(r))
  {
    ApplyProduct(g, Powers(k, k), c);
    DotPowerRow(c, FromNat(r));
    assert Powers(n, k)[r] == PowerRow(FromNat(r), k);
  }

  method Generator(k: nat, n: nat) returns (result: Option<Matrix>, ghost w: Matrix)
    ensures result.Some? <==> Supported(k, n)
    ensures result.Some? ==> IsGenerator(result.value, k, n) && IsInverse(Powers(k, k), w)
  {
    w := [];
    if k < 2 || k >= n || n > 16 {
      return None, w;
    }
    var top := Powers(k, k);
    PowersRegular(k);
    var inverse := Invert(top);
    w := inverse.value;
    GeneratorProduct(k, n, w);
    result := Some(Product(Powers(n, k), inverse.value, k));
  }

  lemma {:induction false} GeneratorProduct(k: nat, n: nat, w: Matrix)
    requires IsInverse(Powers(k, k), w)
    ensures IsGenerator(Product(Powers(n, k), w, k), k, n)
  {
    var v, all := Powers(k, k), Powers(n, k);
    var g := Product(all, w, k);
    forall r | 0 <= r < n ensures Product(g, v, k)[r] == all[r] {
      TimesInverse(all[r], w, v);
    }
    assert Product(g, v, k) == all;
  }

  // ---------- combining parts ----------

  lemma {:induction false} TimesSnoc(u: Vec, m: Matrix, width: nat, a: Byte, p: Vec)
    requires |u| == |m| && Wide(m, width) && |p| == width
    ensures Times(u + [a], m + [p], width) == AddScaled(Times(u, m, width), a, p)
  {
    hide Mul, Add;
    forall c | 0 <= c < width
      ensures Times(u + [a], m + [p], width)[c] == Add(Times(u, m, width)[c], Mul(a, p[c]))
    {
      TimesAt(u + [a], m + [p], width, c);
      TimesAt(u, m, width, c);
      assert Column(m + [p], c) == Column(m, c) + [p[c]];
      DotConcat(u, [a], Column(m, c), [p[c]]);
      AddZero(Mul(a, p[c]));
    }
  }

  /** `combine`: the weighted sum of the input rows, skipping zero weights. */
  method Combine(row: Vec, inputs: Matrix, count: nat) returns (out: Vec)
    requires |row| == |inputs| && Wide(inputs, count)
    ensures out == Times(row, inputs, count)
  {
    hide Mul, Add;
    var acc := new Byte[count](_ => ZERO);
    assert acc[..] == Zeros(count);
    for i := 0 to |row|
      invariant acc[..] == Times(row[..i], inputs[..i], count)
    {
      ghost var before := acc[..];
      if row[i] != ZERO {
        AddInto(acc, row[i], inputs[i]);
      } else {
        forall c | 0 <= c < count ensures Add(before[c], Mul(row[i], inputs[i][c])) == before[c] {
          MulZeroLeft(inputs[i][c]); AddZero(before[c]);
        }
      }
      assert acc[..] == AddScaled(before, row[i], inputs[i]);
      TimesSnoc(row[..i], inputs[..i], count, row[i], inputs[i]);
      assert row[..i + 1] == row[..i] + [row[i]] && inputs[..i + 1] == inputs[..i] + [inputs[i]];
    }
    assert row[..|row|] == row && inputs[..|row|] == inputs;
    out := acc[..];
  }

  method AddInto(acc: array<Byte>, coefficient: Byte, input: Vec)
    requires acc.Length == |input|
    modifies acc
    ensures acc[..] == AddScaled(old(acc[..]), coefficient, input)
  {
    hide Mul, Add, FromNat, ToNat;
    // All products of the coefficient, so that the loop only looks them up.
    var table := seq(256, b requires 0 <= b => Mul(coefficient, FromNat(b)));
    for j := 0 to |input|
      invariant forall c :: 0 <= c < j ==> acc[c] == Add(old(acc[c]), Mul(coefficient, input[c]))
      invariant forall c :: j <= c < |input| ==> acc[c] == old(acc[c])
    {
      ByteRoundTrip(input[j]);
      acc[j] := Add(acc[j], table[ToNat(input[j])]);
    }
  }
}
