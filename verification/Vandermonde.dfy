/** Vandermonde rows and why distinct ones are independent: a polynomial with
    `k` coefficients that vanishes at `k` distinct points is zero. */
module Vandermonde {
  import opened Gf256
  import opened Linear

  /** Row `x` of the Vandermonde matrix: 1, x, x^2, ... */
  function PowerRow(x: Byte, k: nat): Vec {
    seq(k, c requires 0 <= c => Pow(x, c))
  }

  /** The polynomial with coefficients `c`, constant first, at `x`. */
  function Eval(c: Vec, x: Byte): Byte {
    if c == [] then ZERO else Add(c[0], Mul(x, Eval(c[1..], x)))
  }

  /** Synthetic division of `c` by (X - r). */
  function Quotient(c: Vec, r: Byte): (q: Vec)
    requires c != []
    ensures |q| == |c| - 1
  {
    if |c| == 1 then [] else [Eval(c[1..], r)] + Quotient(c[1..], r)
  }

  lemma {:induction false} DotPowerRow(c: Vec, x: Byte)
    ensures Dot(PowerRow(x, |c|), c) == Eval(c, x)
  {
    hide Mul, Add;
    if c != [] {
      var rest := PowerRow(x, |c| - 1);
      assert PowerRow(x, |c|)[1..] == Scale(x, rest);
      assert Pow(x, 0) == ONE;
      DotScale(x, rest, c[1..]);
      DotPowerRow(c[1..], x);
      MulOne(c[0]);
    }
  }

  lemma {:induction false} Rearrange(c: Byte, a: Byte, x: Byte, r: Byte)
    ensures Add(c, Add(a, x)) == Add(Add(Add(x, r), a), Add(c, r))
  {
    hide Add;
    AddComm(c, r);
    AddSwap(Add(x, r), a, r, c);
    AddAssoc(x, r, r); AddZero(r); AddZero(x);
    AddAssoc(c, a, x); AddComm(c, a); AddComm(x, Add(a, c));
  }

  lemma {:induction false} Division(c: Vec, r: Byte, x: Byte)
    requires c != []
    ensures Eval(c, x) == Add(Mul(Add(x, r), Eval(Quotient(c, r), x)), Eval(c, r))
  {
    hide Mul, Add;
    var d := Add(x, r);
    if |c| == 1 {
      MulZero(x); MulZero(r); MulZero(d);
      AddZero(c[0]);
    } else {
      var rest, e := c[1..], Eval(c[1..], r);
      var q := Quotient(rest, r);
      assert Quotient(c, r)[0] == e && Quotient(c, r)[1..] == q;
      var v := Eval(q, x);
      Division(rest, r, x);
      MulAddRight(x, Mul(d, v), e);
      MulAddRight(d, e, Mul(x, v));
      MulAssoc(x, d, v); MulComm(x, d); MulAssoc(d, x, v);
      MulAddLeft(x, r, e);
      Rearrange(c[0], Mul(d, Mul(x, v)), Mul(x, e), Mul(r, e));
    }
  }

  lemma {:induction false} ZeroQuotient(c: Vec, r: Byte)
    requires c != [] && Eval(c, r) == ZERO && Quotient(c, r) == Zeros(|c| - 1)
    ensures c == Zeros(|c|)
  {
    hide Mul, Add;
    MulZero(r); AddZero(c[0]);
    if |c| > 1 {
      assert Quotient(c, r)[0] == Eval(c[1..], r);
      assert Quotient(c[1..], r) == Quotient(c, r)[1..] == Zeros(|c| - 2);
      ZeroQuotient(c[1..], r);
      assert c == [c[0]] + c[1..];
    }
  }

  lemma {:induction false} FewRoots(c: Vec, points: seq<Byte>)
    requires |points| == |c|
    requires forall i, j :: 0 <= i < j < |points| ==> points[i] != points[j]
    requires forall i :: 0 <= i < |points| ==> Eval(c, points[i]) == ZERO
    ensures c == Zeros(|c|)
    decreases |c|
  {
    hide Mul, Add;
    if c != [] {
      var r, rest := points[0], points[1..];
      var q := Quotient(c, r);
      forall i | 0 <= i < |rest| ensures Eval(q, rest[i]) == ZERO {
        assert rest[i] == points[i + 1];
        Division(c, r, rest[i]);
        AddZero(Mul(Add(rest[i], r), Eval(q, rest[i])));
        NoZeroDivisors(Add(rest[i], r), Eval(q, rest[i]));
        AddCancel(rest[i], r);
      }
      FewRoots(q, rest);
      ZeroQuotient(c, r);
    }
  }

  /** Vandermonde rows at distinct points form an injective matrix. */
  lemma {:induction false} VandermondeInjective(points: seq<Byte>, m: Matrix, c: Vec)
    requires |m| == |points| == |c| && Wide(m, |c|)
    requires forall i :: 0 <= i < |m| ==> m[i] == PowerRow(points[i], |c|)
    requires forall i, j :: 0 <= i < j < |points| ==> points[i] != points[j]
    requires Apply(m, c) == Zeros(|m|)
    ensures c == Zeros(|c|)
  {
    forall i | 0 <= i < |points| ensures Eval(c, points[i]) == ZERO {
      DotPowerRow(c, points[i]);
      assert Apply(m, c)[i] == ZERO;
    }
    FewRoots(c, points);
  }
}
