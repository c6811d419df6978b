/** `invert` of `replicas/coding.rs`: in-place Gauss-Jordan elimination on the
    matrix augmented with the identity. */
module GaussJordan {
  import opened Wrappers
  import opened Gf256
  import opened Linear

  ghost predicate IsInverse(m: Matrix, w: Matrix) {
    && Wide(m, |m|) && |w| == |m| && Wide(w, |m|)
    && Product(w, m, |m|) == Identity(|m|)
    && Product(m, w, |m|) == Identity(|m|)
  }

  ghost predicate HasKernel(m: Matrix)
    requires Wide(m, |m|)
  {
    exists x: Vec :: |x| == |m| && x != Zeros(|m|) && Apply(m, x) == Zeros(|m|)
  }

  // ---------- row operations keep the solutions ----------

  ghost predicate Solves(w: Matrix, z: Vec)
    requires Wide(w, |z|)
  {
    forall r :: 0 <= r < |w| ==> Dot(w[r], z) == ZERO
  }

  ghost predicate Equivalent(v: Matrix, w: Matrix, width: nat)
  {
    && Wide(v, width) && Wide(w, width)
    && forall z: Vec | |z| == width :: Solves(v, z) <==> Solves(w, z)
  }

  /** The first `cols` columns are those of the identity. */
  ghost predicate Reduced(w: Matrix, cols: nat, width: nat)
    requires Wide(w, width) && cols <= width
  {
    forall r, c :: 0 <= r < |w| && 0 <= c < cols ==> w[r][c] == (if r == c then ONE else ZERO)
  }

  lemma {:induction false} SwapKeeps(w: Matrix, i: nat, j: nat, width: nat)
    requires Wide(w, width) && i < |w| && j < |w|
    ensures Equivalent(w, w[i := w[j]][j := w[i]], width)
  {
    hide Dot;
    var v := w[i := w[j]][j := w[i]];
    forall z: Vec | |z| == width ensures Solves(w, z) <==> Solves(v, z) {
      forall r | 0 <= r < |w| ensures v[r] == w[if r == i then j else if r == j then i else r] {}
      forall r | 0 <= r < |w| ensures w[r] == v[if r == i then j else if r == j then i else r] {}
    }
  }

  lemma {:induction false} ScaleKeeps(w: Matrix, r: nat, s: Byte, width: nat)
    requires Wide(w, width) && r < |w| && s != ZERO
    ensures Equivalent(w, w[r := Scale(s, w[r])], width)
  {
    hide Mul, Dot;
    var v := w[r := Scale(s, w[r])];
    forall z: Vec | |z| == width ensures Solves(w, z) <==> Solves(v, z) {
      DotScale(s, w[r], z);
      MulZero(s);
      if Solves(v, z) {
        assert Dot(v[r], z) == ZERO;
        NoZeroDivisors(s, Dot(w[r], z));
        forall i | 0 <= i < |w| ensures Dot(w[i], z) == ZERO {
          assert i == r || w[i] == v[i];
        }
      }
    }
  }

  lemma {:induction false} EliminateKeeps(w: Matrix, r: nat, f: Byte, p: nat, width: nat)
    requires Wide(w, width) && r < |w| && p < |w| && r != p
    ensures Equivalent(w, w[r := AddScaled(w[r], f, w[p])], width)
  {
    hide Mul, Add, Dot;
    var v := w[r := AddScaled(w[r], f, w[p])];
    forall z: Vec | |z| == width ensures Solves(w, z) <==> Solves(v, z) {
      DotAddScaled(w[r], f, w[p], z);
      MulZero(f);
      AddZero(Dot(w[r], z));
      if Solves(w, z) || Solves(v, z) {
        assert Dot(if Solves(w, z) then w[p] else v[p], z) == ZERO;
        assert Dot(v[r], z) == Dot(w[r], z);
        forall i | 0 <= i < |w| ensures Dot(w[i], z) == Dot(v[i], z) {
          assert i == r || w[i] == v[i];
        }
      }
    }
  }

  // ---------- the two ways the elimination ends ----------

  function Augmented(m: Matrix): Matrix {
    seq(|m|, i requires 0 <= i < |m| => m[i] + Unit(|m|, i))
  }

  lemma {:induction false} AugmentedSolves(m: Matrix, x: Vec, y: Vec)
    requires Wide(m, |m|) && |x| == |m| && |y| == |m|
    ensures Wide(Augmented(m), |x + y|)
    ensures Solves(Augmented(m), x + y) <==> Apply(m, x) == y
  {
    hide Mul, Add, Dot;
    forall r | 0 <= r < |m|
      ensures Dot(Augmented(m)[r], x + y) == ZERO <==> Apply(m, x)[r] == y[r]
    {
      DotConcat(m[r], Unit(|m|, r), x, y);
      DotUnit(y, r);
      AddCancel(Dot(m[r], x), y[r]);
    }
    assert Apply(m, x) == y <==> forall r :: 0 <= r < |m| ==> Apply(m, x)[r] == y[r];
  }

  /** The right halves of the rows. */
  function RightHalf(w: Matrix, n: nat): (half: Matrix)
    requires Wide(w, 2 * n)
    ensures |half| == |w| && Wide(half, n)
  {
    seq(|w|, i requires 0 <= i < |w| => w[i][n..])
  }

  lemma {:induction false} ReducedSolves(w: Matrix, n: nat, x: Vec, y: Vec)
    requires |w| == n && Wide(w, 2 * n) && Reduced(w, n, 2 * n) && |x| == n && |y| == n
    ensures Solves(w, x + y) <==> Apply(RightHalf(w, n), y) == x
  {
    hide Mul, Add, Dot;
    var right := RightHalf(w, n);
    forall r | 0 <= r < n
      ensures Dot(w[r], x + y) == ZERO <==> Apply(right, y)[r] == x[r]
    {
      assert w[r] == Unit(n, r) + right[r];
      DotConcat(Unit(n, r), right[r], x, y);
      DotUnit(x, r);
      AddCancel(x[r], Dot(right[r], y));
    }
    assert Apply(right, y) == x <==> forall r :: 0 <= r < n ==> Apply(right, y)[r] == x[r];
  }

  lemma {:induction false} Finished(m: Matrix, w: Matrix)
    requires Wide(m, |m|) && |w| == |m|
    requires Equivalent(w, Augmented(m), 2 * |m|) && Reduced(w, |m|, 2 * |m|)
    ensures IsInverse(m, RightHalf(w, |m|))
  {
    hide Apply, Augmented, RightHalf, Product, Solves;
    var n, right := |m|, RightHalf(w, |m|);
    forall x: Vec | |x| == n ensures Apply(right, Apply(m, x)) == x {
      AugmentedSolves(m, x, Apply(m, x));
      ReducedSolves(w, n, x, Apply(m, x));
    }
    forall y: Vec | |y| == n ensures Apply(m, Apply(right, y)) == y {
      ReducedSolves(w, n, Apply(right, y), y);
      AugmentedSolves(m, Apply(right, y), y);
    }
    ProductIsIdentity(right, m);
    ProductIsIdentity(m, right);
  }

  /** For a column without a pivot: a vector the matrix sends to zero. */
  function KernelVector(w: Matrix, col: nat, n: nat): (x: Vec)
    requires col < n <= |w| && Wide(w, 2 * n)
    ensures |x| == n
  {
    seq(col, c requires 0 <= c < col => w[c][col]) + [ONE] + Zeros(n - col - 1)
  }

  lemma {:induction false} NoPivot(m: Matrix, w: Matrix, col: nat)
    requires Wide(m, |m|) && |w| == |m| && col < |m|
    requires Equivalent(w, Augmented(m), 2 * |m|) && Reduced(w, col, 2 * |m|)
    requires forall r :: col <= r < |m| ==> w[r][col] == ZERO
    ensures HasKernel(m)
  {
    hide Augmented, Dot, Solves, Reduced;
    var n := |m|;
    var x := KernelVector(w, col, n);
    KernelVectorSolves(w, col, n);
    AugmentedSolves(m, x, Zeros(n));
    assert x[col] == ONE && Zeros(n)[col] == ZERO;
  }

  lemma {:induction false} KernelVectorSolves(w: Matrix, col: nat, n: nat)
    requires |w| == n && Wide(w, 2 * n) && col < n && Reduced(w, col, 2 * n)
    requires forall r :: col <= r < n ==> w[r][col] == ZERO
    ensures Solves(w, KernelVector(w, col, n) + Zeros(n))
  {
    hide Mul, Add, Dot;
    var head := seq(col, c requires 0 <= c < col => w[c][col]);
    forall r | 0 <= r < n ensures Dot(w[r], KernelVector(w, col, n) + Zeros(n)) == ZERO {
      NoPivotRow(w[r], r, head, n);
    }
  }

  lemma {:induction false} NoPivotRow(row: Vec, r: nat, head: Vec, n: nat)
    requires |row| == 2 * n && |head| < n && r < n
    requires forall c :: 0 <= c < |head| ==> row[c] == (if r == c then ONE else ZERO)
    requires row[|head|] == (if r < |head| then head[r] else ZERO)
    ensures Dot(row, head + [ONE] + Zeros(n - |head| - 1) + Zeros(n)) == ZERO
  {
    hide Mul, Add;
    var col := |head|;
    var left, mid, rest := row[..col], row[col], row[col + 1..];
    var zeros := Zeros(2 * n - col - 1);
    assert head + [ONE] + Zeros(n - col - 1) + Zeros(n) == head + ([ONE] + zeros);
    assert row == left + ([mid] + rest);
    DotConcat(left, [mid] + rest, head, [ONE] + zeros);
    assert ([mid] + rest)[1..] == rest && ([ONE] + zeros)[1..] == zeros;
    DotZeros(rest);
    MulOne(mid);
    AddZero(mid);
    if r < col {
      assert left == Unit(col, r);
      DotUnit(head, r);
    } else {
      assert left == Zeros(col);
      DotZeros(head);
    }
  }

  // ---------- the elimination ----------

  /** One round of the outer loop once a pivot row is known. */
  method ReduceColumn(work: array<Vec>, col: nat, pivot: nat, n: nat)
    requires work.Length == n && col <= pivot < n
    requires Wide(work[..], 2 * n) && Reduced(work[..], col, 2 * n)
    requires work[pivot][col] != ZERO
    modifies work
    ensures Equivalent(work[..], old(work[..]), 2 * n)
    ensures Reduced(work[..], col + 1, 2 * n)
  {
    ghost var before := work[..];
    work[col], work[pivot] := work[pivot], work[col];
    SwapKeeps(before, col, pivot, 2 * n);
    assert work[..] == before[col := before[pivot]][pivot := before[col]];
    ScalePivot(work, col, n);
    EliminateColumn(work, col, n);
  }

  method ScalePivot(work: array<Vec>, col: nat, n: nat)
    requires work.Length == n && col < n
    requires Wide(work[..], 2 * n) && Reduced(work[..], col, 2 * n)
    requires work[col][col] != ZERO
    modifies work
    ensures Equivalent(work[..], old(work[..]), 2 * n)
    ensures Reduced(work[..], col, 2 * n) && work[col][col] == ONE
  {
    hide Mul, Pow;
    ghost var before := work[..];
    var scale := Pow(work[col][col], 254);
    InverseIsPow254(work[col][col]);
    MulZero(work[col][col]);
    MulZeroLeft(scale);
    ScaleKeeps(before, col, scale, 2 * n);
    work[col] := Scale(scale, work[col]);
    assert work[..] == before[col := Scale(scale, before[col])];
  }

  method EliminateColumn(work: array<Vec>, col: nat, n: nat)
    requires work.Length == n && col < n
    requires Wide(work[..], 2 * n) && Reduced(work[..], col, 2 * n)
    requires work[col][col] == ONE
    modifies work
    ensures Equivalent(work[..], old(work[..]), 2 * n)
    ensures Reduced(work[..], col + 1, 2 * n)
  {
    hide Solves;
    ghost var before := work[..];
    for r := 0 to n
      invariant Equivalent(work[..], before, 2 * n)
      invariant Reduced(work[..], col, 2 * n) && work[col][col] == ONE
      invariant forall i :: 0 <= i < r && i != col ==> work[i][col] == ZERO
    {
      if r != col {
        ghost var last := work[..];
        var factor := work[r][col];
        var row := AddScaled(work[r], factor, work[col]);
        EliminateKeeps(last, r, factor, col, 2 * n);
        EliminatedRow(work[r], work[col], col);
        work[r] := row;
        assert work[..] == last[r := row];
      }
    }
  }

  lemma {:induction false} EliminatedRow(row: Vec, pivot: Vec, col: nat)
    requires |row| == |pivot| && col < |row| && pivot[col] == ONE
    requires forall c :: 0 <= c < col ==> pivot[c] == ZERO
    ensures AddScaled(row, row[col], pivot)[col] == ZERO
    ensures AddScaled(row, row[col], pivot)[..col] == row[..col]
  {
    hide Mul, Add;
    MulOne(row[col]); AddZero(row[col]); MulZero(row[col]);
    forall c | 0 <= c < col ensures AddScaled(row, row[col], pivot)[c] == row[c] {
      AddZero(row[c]);
    }
  }

  method FindPivot(work: array<Vec>, col: nat, n: nat) returns (pivot: nat)
    requires work.Length == n && col < n && Wide(work[..], 2 * n)
    ensures col <= pivot <= n
    ensures pivot < n ==> work[pivot][col] != ZERO
    ensures forall r :: col <= r < pivot ==> work[r][col] == ZERO
  {
    pivot := col;
    while pivot < n && work[pivot][col] == ZERO
      invariant col <= pivot <= n
      invariant forall i :: col <= i < pivot ==> work[i][col] == ZERO
    {
      pivot := pivot + 1;
    }
  }

  /** The inverse, or nothing exactly when the matrix sends a nonzero vector to zero. */
  method Invert(m: Matrix) returns (result: Option<Matrix>)
    requires Wide(m, |m|)
    ensures result.Some? ==> IsInverse(m, result.value)
    ensures result.None? <==> HasKernel(m)
  {
    hide Mul, Add, Dot, Apply, Product, HasKernel, IsInverse, Solves;
    var n := |m|;
    var start := Augmented(m);
    var work := new Vec[n](i requires 0 <= i < n => start[i]);
    assert work[..] == start;
    for col := 0 to n
      invariant Equivalent(work[..], start, 2 * n)
      invariant Reduced(work[..], col, 2 * n)
    {
      var pivot := FindPivot(work, col, n);
      if pivot == n {
        NoPivot(m, work[..], col);
        return None;
      }
      ReduceColumn(work, col, pivot, n);
    }
    var w := work[..];
    Finished(m, w);
    InverseHasNoKernel(m, RightHalf(w, n));
    result := Some(RightHalf(w, n));
  }

  lemma {:induction false} InverseHasNoKernel(m: Matrix, w: Matrix)
    requires IsInverse(m, w)
    ensures !HasKernel(m)
  {
    forall x: Vec | |x| == |m| && Apply(m, x) == Zeros(|m|) ensures x == Zeros(|m|) {
      ApplyProduct(w, m, x);
      IdentityApply(x);
      ZerosApply(w, |m|);
    }
  }

  lemma {:induction false} IdentityApply(x: Vec)
    ensures Apply(Identity(|x|), x) == x
  {
    hide Dot;
    forall i | 0 <= i < |x| ensures Apply(Identity(|x|), x)[i] == x[i] {
      DotUnit(x, i);
    }
  }

  lemma {:induction false} ZerosApply(w: Matrix, width: nat)
    requires Wide(w, width)
    ensures Apply(w, Zeros(width)) == Zeros(|w|)
  {
    forall i | 0 <= i < |w| ensures Apply(w, Zeros(width))[i] == ZERO {
      DotZeros(w[i]);
    }
  }
}
