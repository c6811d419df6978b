/** Vectors and matrices of bytes: the sums `product` and `combine` compute,
    and the laws of linear algebra that make them reversible. */
module Linear {
  import opened Gf256

  type Vec = seq<Byte>
  type Matrix = seq<Vec>

  /** Every row of `m` has `width` entries. */
  ghost predicate Wide(m: Matrix, width: nat) {
    forall i :: 0 <= i < |m| ==> |m[i]| == width
  }

  function Zeros(width: nat): Vec {
    seq(width, i => ZERO)
  }

  function Unit(width: nat, at: nat): Vec {
    seq(width, i => if i == at then ONE else ZERO)
  }

  function Identity(n: nat): Matrix {
    seq(n, i requires 0 <= i < n => Unit(n, i))
  }

  function Dot(u: Vec, v: Vec): Byte
    requires |u| == |v|
  {
    if u == [] then ZERO else Add(Mul(u[0], v[0]), Dot(u[1..], v[1..]))
  }

  function Scale(s: Byte, u: Vec): (w: Vec)
  {
    seq(|u|, i requires 0 <= i < |u| => Mul(u[i], s))
  }

  function AddScaled(u: Vec, f: Byte, p: Vec): (w: Vec)
    requires |u| == |p|
  {
    seq(|u|, i requires 0 <= i < |u| => Add(u[i], Mul(f, p[i])))
  }

  function Column(m: Matrix, c: nat): Vec
    requires forall i :: 0 <= i < |m| ==> c < |m[i]|
  {
    seq(|m|, i requires 0 <= i < |m| => m[i][c])
  }

  /** The matrix applied to a column vector. */
  function Apply(m: Matrix, x: Vec): (y: Vec)
    requires Wide(m, |x|)
    ensures |y| == |m|
  {
    seq(|m|, i requires 0 <= i < |m| => Dot(m[i], x))
  }

  /** The row vector `u` times `m`: the weighted sum of the rows of `m`. */
  function Times(u: Vec, m: Matrix, width: nat): (w: Vec)
    requires |u| == |m| && Wide(m, width)
    ensures |w| == width
  {
    if u == [] then Zeros(width) else AddScaled(Times(u[1..], m[1..], width), u[0], m[0])
  }

  function Product(a: Matrix, b: Matrix, width: nat): (p: Matrix)
    requires Wide(a, |b|) && Wide(b, width)
    ensures |p| == |a| && Wide(p, width)
  {
    seq(|a|, r requires 0 <= r < |a| => Times(a[r], b, width))
  }

  // ---------- the dot product is linear ----------

  lemma {:induction false} DotZeros(u: Vec)
    ensures Dot(u, Zeros(|u|)) == ZERO && Dot(Zeros(|u|), u) == ZERO
  {
    hide Mul, Add;
    if u != [] {
      assert Zeros(|u|)[1..] == Zeros(|u[1..]|);
      DotZeros(u[1..]);
      MulZero(u[0]); MulZeroLeft(u[0]); AddZero(ZERO);
    }
  }

  lemma {:induction false} DotScale(s: Byte, u: Vec, z: Vec)
    requires |u| == |z|
    ensures Dot(Scale(s, u), z) == Mul(s, Dot(u, z))
  {
    hide Mul, Add;
    if u == [] {
      MulZero(s);
    } else {
      assert Scale(s, u)[1..] == Scale(s, u[1..]);
      DotScale(s, u[1..], z[1..]);
      MulComm(u[0], s); MulAssoc(s, u[0], z[0]);
      MulAddRight(s, Mul(u[0], z[0]), Dot(u[1..], z[1..]));
    }
  }

  lemma {:induction false} DotAddScaled(u: Vec, f: Byte, p: Vec, z: Vec)
    requires |u| == |p| == |z|
    ensures Dot(AddScaled(u, f, p), z) == Add(Dot(u, z), Mul(f, Dot(p, z)))
  {
    hide Mul, Add;
    if u == [] {
      MulZero(f); AddZero(ZERO);
    } else {
      assert AddScaled(u, f, p)[1..] == AddScaled(u[1..], f, p[1..]);
      DotAddScaled(u[1..], f, p[1..], z[1..]);
      MulAddLeft(u[0], Mul(f, p[0]), z[0]);
      MulAssoc(f, p[0], z[0]);
      MulAddRight(f, Mul(p[0], z[0]), Dot(p[1..], z[1..]));
      AddSwap(Mul(u[0], z[0]), Mul(f, Mul(p[0], z[0])), Dot(u[1..], z[1..]), Mul(f, Dot(p[1..], z[1..])));
    }
  }

  lemma {:induction false} DotUnit(u: Vec, at: nat)
    requires at < |u|
    ensures Dot(u, Unit(|u|, at)) == u[at] && Dot(Unit(|u|, at), u) == u[at]
  {
    hide Mul, Add;
    var rest := u[1..];
    MulOne(u[0]); MulZero(u[0]); MulZeroLeft(u[0]);
    if at == 0 {
      assert Unit(|u|, at)[1..] == Zeros(|rest|);
      DotZeros(rest); AddZero(u[0]);
    } else {
      assert Unit(|u|, at)[1..] == Unit(|rest|, at - 1);
      DotUnit(rest, at - 1); AddZero(u[at]);
    }
  }

  lemma {:induction false} DotConcat(u: Vec, v: Vec, x: Vec, y: Vec)
    requires |u| == |x| && |v| == |y|
    ensures Dot(u + v, x + y) == Add(Dot(u, x), Dot(v, y))
  {
    hide Mul, Add;
    if u == [] {
      assert u + v == v && x + y == y;
      AddZero(Dot(v, y));
    } else {
      assert (u + v)[1..] == u[1..] + v && (x + y)[1..] == x[1..] + y;
      DotConcat(u[1..], v, x[1..], y);
      AddAssoc(Mul(u[0], x[0]), Dot(u[1..], x[1..]), Dot(v, y));
    }
  }

  // ---------- products ----------

  /** Entry by entry, a product is the row-by-column sum `product` folds. */
  lemma {:induction false} TimesAt(u: Vec, m: Matrix, width: nat, c: nat)
    requires |u| == |m| && Wide(m, width) && c < width
    ensures Times(u, m, width)[c] == Dot(u, Column(m, c))
  {
    hide Mul, Add;
    if u != [] {
      assert Column(m, c)[1..] == Column(m[1..], c);
      TimesAt(u[1..], m[1..], width, c);
      AddComm(Mul(u[0], m[0][c]), Dot(u[1..], Column(m[1..], c)));
    }
  }

  lemma {:induction false} DotTimes(u: Vec, m: Matrix, x: Vec)
    requires |u| == |m| && Wide(m, |x|)
    ensures Dot(Times(u, m, |x|), x) == Dot(u, Apply(m, x))
  {
    hide Mul, Add;
    if u == [] {
      DotZeros(x);
    } else {
      var rest := Times(u[1..], m[1..], |x|);
      assert Apply(m, x)[1..] == Apply(m[1..], x);
      DotTimes(u[1..], m[1..], x);
      DotAddScaled(rest, u[0], m[0], x);
      AddComm(Dot(rest, x), Mul(u[0], Dot(m[0], x)));
    }
  }

  lemma {:induction false} ApplyProduct(a: Matrix, b: Matrix, x: Vec)
    requires Wide(a, |b|) && Wide(b, |x|)
    ensures Apply(Product(a, b, |x|), x) == Apply(a, Apply(b, x))
  {
    forall r | 0 <= r < |a| ensures Dot(Product(a, b, |x|)[r], x) == Dot(a[r], Apply(b, x)) {
      DotTimes(a[r], b, x);
    }
    assert forall r :: 0 <= r < |a| ==> Apply(Product(a, b, |x|), x)[r] == Apply(a, Apply(b, x))[r];
  }

  lemma {:induction false} ApplyUnit(m: Matrix, width: nat, at: nat)
    requires Wide(m, width) && at < width
    ensures Apply(m, Unit(width, at)) == Column(m, at)
  {
    forall i | 0 <= i < |m| ensures Apply(m, Unit(width, at))[i] == m[i][at] {
      DotUnit(m[i], at);
    }
  }

  lemma {:induction false} TimesUnit(m: Matrix, width: nat, at: nat)
    requires Wide(m, width) && at < |m|
    ensures Times(Unit(|m|, at), m, width) == m[at]
  {
    forall c | 0 <= c < width ensures Times(Unit(|m|, at), m, width)[c] == m[at][c] {
      TimesAt(Unit(|m|, at), m, width, c);
      DotUnit(Column(m, c), at);
    }
  }

  /** Row vectors pass through products: u (B C) is (u B) C. */
  lemma {:induction false} TimesProduct(u: Vec, b: Matrix, mid: nat, c: Matrix, width: nat)
    requires |u| == |b| && Wide(b, mid) && |c| == mid && Wide(c, width)
    ensures Times(Times(u, b, mid), c, width) == Times(u, Product(b, c, width), width)
  {
    var bc := Product(b, c, width);
    forall j | 0 <= j < width
      ensures Times(Times(u, b, mid), c, width)[j] == Times(u, bc, width)[j]
    {
      TimesAt(Times(u, b, mid), c, width, j);
      TimesAt(u, bc, width, j);
      DotTimes(u, b, Column(c, j));
      assert Column(bc, j) == Apply(b, Column(c, j)) by {
        forall i | 0 <= i < |b| ensures bc[i][j] == Dot(b[i], Column(c, j)) {
          TimesAt(b[i], c, width, j);
        }
      }
    }
  }

  /** Inverse matrices are inverse maps, and the other way round. */
  lemma {:induction false} ProductIsIdentity(a: Matrix, b: Matrix)
    requires Wide(a, |b|) && Wide(b, |a|)
    requires forall x: Vec | |x| == |a| :: Apply(a, Apply(b, x)) == x
    ensures Product(a, b, |a|) == Identity(|a|)
  {
    var n := |a|;
    forall i, j | 0 <= i < n && 0 <= j < n
      ensures Product(a, b, n)[i][j] == Identity(n)[i][j]
    {
      TimesAt(a[i], b, n, j);
      ApplyUnit(b, n, j);
      assert Apply(a, Apply(b, Unit(n, j)))[i] == Unit(n, j)[i];
    }
    forall i | 0 <= i < n ensures Product(a, b, n)[i] == Identity(n)[i] {}
  }
}
