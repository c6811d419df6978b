/** The byte field of `replicas/coding.rs`: addition is exclusive or and
    multiplication is the shift-and-add loop modulo x^8 + x^4 + x^3 + x^2 + 1.
    A byte is modelled by its eight bits, least significant first. */
module Gf256 {

  datatype Byte = Byte(b0: bool, b1: bool, b2: bool, b3: bool, b4: bool, b5: bool, b6: bool, b7: bool)

  const ZERO: Byte := Byte(false, false, false, false, false, false, false, false)
  const ONE: Byte := Byte(true, false, false, false, false, false, false, false)

  /** A number modulo 256, for the row indices the generator turns into bytes. */
  function FromNat(n: nat): Byte {
    Byte(n % 2 == 1, n / 2 % 2 == 1, n / 4 % 2 == 1, n / 8 % 2 == 1,
         n / 16 % 2 == 1, n / 32 % 2 == 1, n / 64 % 2 == 1, n / 128 % 2 == 1)
  }

  function Add(a: Byte, b: Byte): Byte {
    Byte(a.b0 != b.b0, a.b1 != b.b1, a.b2 != b.b2, a.b3 != b.b3,
         a.b4 != b.b4, a.b5 != b.b5, a.b6 != b.b6, a.b7 != b.b7)
  }

  /** Times x: a shift up, reduced by the polynomial when the top bit falls out. */
  function Double(a: Byte): Byte {
    Byte(a.b7, a.b0, a.b1 != a.b7, a.b2 != a.b7, a.b3 != a.b7, a.b4, a.b5, a.b6)
  }

  /** A shift down, dropping the lowest bit. */
  function Half(b: Byte): Byte {
    Byte(b.b1, b.b2, b.b3, b.b4, b.b5, b.b6, b.b7, false)
  }

  /** Bits up to the highest one that is set: the number of rounds left in the loop. */
  function Width(b: Byte): nat {
    if b.b7 then 8 else if b.b6 then 7 else if b.b5 then 6 else if b.b4 then 5
    else if b.b3 then 4 else if b.b2 then 3 else if b.b1 then 2 else if b.b0 then 1 else 0
  }

  /** What one round of the loop adds: `a` when the bit is set. */
  function Gate(bit: bool, a: Byte): Byte {
    if bit then a else ZERO
  }

  function Mul(a: Byte, b: Byte): Byte
    decreases Width(b)
  {
    if b == ZERO then ZERO else Add(Gate(b.b0, a), Mul(Double(a), Half(b)))
  }

  /** The loop of `mul`. */
  method MulLoop(a: Byte, b: Byte) returns (out: Byte)
    ensures out == Mul(a, b)
  {
    hide Add, Double, Mul;
    var x, y := a, b;
    out := ZERO;
    AddZero(Mul(a, b));
    while y != ZERO
      invariant Add(out, Mul(x, y)) == Mul(a, b)
      decreases Width(y)
    {
      MulStep(x, y);
      AddAssoc(out, Gate(y.b0, x), Mul(Double(x), Half(y)));
      AddZero(out);
      if y.b0 {
        out := Add(out, x);
      }
      x := Double(x);
      y := Half(y);
    }
    MulZero(x);
    AddZero(out);
  }

  function Pow(a: Byte, n: nat): Byte {
    if n == 0 then ONE else Mul(Pow(a, n - 1), a)
  }

  // ---------- addition ----------

  lemma {:induction false} AddComm(a: Byte, b: Byte)
    ensures Add(a, b) == Add(b, a)
  {}

  lemma {:induction false} AddAssoc(a: Byte, b: Byte, c: Byte)
    ensures Add(Add(a, b), c) == Add(a, Add(b, c))
  {}

  lemma {:induction false} AddZero(a: Byte)
    ensures Add(a, ZERO) == a && Add(ZERO, a) == a && Add(a, a) == ZERO
  {}

  lemma {:induction false} AddSwap(a: Byte, b: Byte, c: Byte, d: Byte)
    ensures Add(Add(a, b), Add(c, d)) == Add(Add(a, c), Add(b, d))
  {}

  lemma {:induction false} AddCancel(a: Byte, b: Byte)
    ensures Add(a, b) == ZERO <==> a == b
  {}

  // ---------- the product is bilinear ----------

  lemma {:induction false} DoubleAdd(a: Byte, b: Byte)
    ensures Double(Add(a, b)) == Add(Double(a), Double(b))
  {}

  lemma {:induction false} MulZero(a: Byte)
    ensures Mul(a, ZERO) == ZERO
  {}

  lemma {:induction false} MulStep(a: Byte, b: Byte)
    ensures Mul(a, b) == Add(Gate(b.b0, a), Mul(Double(a), Half(b)))
  {
    AddZero(ZERO);
  }

  lemma {:induction false} MulAddLeft(a: Byte, b: Byte, c: Byte)
    ensures Mul(Add(a, b), c) == Add(Mul(a, c), Mul(b, c))
    decreases Width(c)
  {
    hide Add, Double, Mul;
    if c == ZERO {
      MulZero(a); MulZero(b); MulZero(Add(a, b)); AddZero(ZERO);
    } else {
      MulStep(a, c); MulStep(b, c); MulStep(Add(a, b), c);
      DoubleAdd(a, b);
      MulAddLeft(Double(a), Double(b), Half(c));
      AddZero(ZERO);
      AddSwap(Gate(c.b0, a), Mul(Double(a), Half(c)), Gate(c.b0, b), Mul(Double(b), Half(c)));
    }
  }

  lemma {:induction false} MulDoubleLeft(a: Byte, b: Byte)
    ensures Mul(Double(a), b) == Double(Mul(a, b))
    decreases Width(b)
  {
    if b != ZERO {
      MulDoubleLeft(Double(a), Half(b));
      DoubleAdd(Gate(b.b0, a), Mul(Double(a), Half(b)));
    }
  }

  /** Addition is bitwise, so it commutes with the shift and with each gate. */
  lemma {:induction false} HalfAdd(b: Byte, c: Byte)
    ensures Half(Add(b, c)) == Add(Half(b), Half(c))
  {}

  lemma {:induction false} GateAdd(a: Byte, b: Byte, c: Byte)
    ensures Gate(Add(b, c).b0, a) == Add(Gate(b.b0, a), Gate(c.b0, a))
  {
    assert Add(b, c).b0 == (b.b0 != c.b0);
    hide Add;
    AddZero(a); AddZero(ZERO);
  }

  lemma {:induction false} MulAddRight(a: Byte, b: Byte, c: Byte)
    ensures Mul(a, Add(b, c)) == Add(Mul(a, b), Mul(a, c))
    decreases Width(b)
  {
    hide Add, Mul, Double;
    if b == ZERO {
      AddZero(c); MulZero(a); AddZero(Mul(a, c));
    } else {
      MulStep(a, b); MulStep(a, c); MulStep(a, Add(b, c));
      HalfAdd(b, c);
      GateAdd(a, b, c);
      MulAddRight(Double(a), Half(b), Half(c));
      AddSwap(Gate(b.b0, a), Mul(Double(a), Half(b)), Gate(c.b0, a), Mul(Double(a), Half(c)));
    }
  }

  /** A byte is its low bit plus twice the rest. */
  lemma {:induction false} Split(b: Byte)
    ensures b == Add(Gate(b.b0, ONE), Double(Half(b)))
  {}

  lemma {:induction false} MulOne(a: Byte)
    ensures Mul(a, ONE) == a && Mul(ONE, a) == a
    decreases Width(a)
  {
    hide Add, Mul, Double;
    MulStep(a, ONE); MulZero(Double(a)); AddZero(a);
    if a == ZERO {
      MulZero(ONE);
    } else {
      MulStep(ONE, a);
      MulDoubleLeft(ONE, Half(a));
      MulOne(Half(a));
      Split(a);
    }
  }

  lemma {:induction false} MulZeroLeft(b: Byte)
    ensures Mul(ZERO, b) == ZERO
  {
    hide Add, Mul;
    MulAddLeft(b, b, b);
    AddZero(b);
    AddZero(Mul(b, b));
  }

  lemma {:induction false} MulComm(a: Byte, b: Byte)
    ensures Mul(a, b) == Mul(b, a)
    decreases Width(b)
  {
    hide Add, Mul, Double;
    if b == ZERO {
      MulZero(a); MulZeroLeft(a);
    } else {
      var h := Half(b);
      MulStep(a, b);
      MulDoubleLeft(a, h);
      MulComm(a, h);
      MulDoubleLeft(h, a);
      Split(b);
      MulAddLeft(Gate(b.b0, ONE), Double(h), a);
      MulOne(a);
      MulZeroLeft(a);
    }
  }

  lemma {:induction false} MulAssoc(a: Byte, b: Byte, c: Byte)
    ensures Mul(Mul(a, b), c) == Mul(a, Mul(b, c))
    decreases Width(c)
  {
    hide Add, Mul, Double;
    if c == ZERO {
      MulZero(Mul(a, b)); MulZero(b); MulZero(a);
    } else {
      var h := Half(c);
      MulStep(Mul(a, b), c);
      MulStep(b, c);
      MulAddRight(a, Gate(c.b0, b), Mul(Double(b), h));
      MulAssoc(a, Double(b), h);
      MulComm(a, Double(b)); MulDoubleLeft(b, a); MulComm(a, b);
      MulZero(a);
    }
  }

  // ---------- inverses ----------

  lemma {:induction false} PowAdd(a: Byte, m: nat, n: nat)
    ensures Pow(a, m + n) == Mul(Pow(a, m), Pow(a, n))
  {
    hide Mul;
    if n == 0 {
      MulOne(Pow(a, m));
    } else {
      PowAdd(a, m, n - 1);
      assert Pow(a, m + n) == Mul(Pow(a, m + n - 1), a);
      MulAssoc(Pow(a, m), Pow(a, n - 1), a);
    }
  }

  /** Squaring, which is linear in characteristic two, as a map on bits. */
  function Square(a: Byte): Byte {
    Byte(((a.b0 != a.b4) != a.b6) != a.b7, a.b7, ((a.b1 != a.b4) != a.b5) != a.b6, a.b4 != a.b6,
         ((a.b2 != a.b4) != a.b5) != a.b7, a.b5, (a.b3 != a.b5) != a.b6, a.b6)
  }

  lemma {:induction false} SquareStep(a: Byte)
    ensures Square(a) == Add(Gate(a.b0, ONE), Double(Double(Square(Half(a)))))
  {}

  lemma {:induction false} MulSelf(a: Byte)
    ensures Mul(a, a) == Square(a)
    decreases Width(a)
  {
    hide Add, Mul, Double, Square;
    if a == ZERO {
      MulZero(a);
      assert Square(ZERO) == ZERO by { SquareZero(); }
    } else {
      var g, h := Gate(a.b0, ONE), Half(a);
      var d := Double(h);
      Split(a);
      MulAddLeft(g, d, a);
      MulAddRight(g, g, d);
      MulAddRight(d, g, d);
      MulComm(d, g);
      AddSwap(Mul(g, g), Mul(g, d), Mul(g, d), Mul(d, d));
      AddComm(Mul(g, d), Mul(d, d));
      AddAssoc(Mul(g, g), Mul(d, d), Mul(g, d));
      AddAssoc(Mul(g, g), Mul(g, d), Add(Mul(g, d), Mul(d, d)));
      AddAssoc(Mul(g, d), Mul(g, d), Mul(d, d));
      AddZero(Mul(g, d)); AddZero(Mul(d, d));
      MulOne(ONE); MulZero(ZERO);
      MulDoubleLeft(h, d); MulComm(h, d); MulDoubleLeft(h, h);
      MulSelf(h);
      SquareStep(a);
    }
  }

  lemma {:induction false} SquareZero()
    ensures Square(ZERO) == ZERO
  {}

  lemma {:induction false} SquareEight(a: Byte)
    ensures Square(Square(Square(Square(Square(Square(Square(Square(a)))))))) == a
  {}

  /** Only zero and one are their own square. */
  lemma {:induction false} Idempotent(e: Byte)
    requires Square(e) == e
    ensures e == ZERO || e == ONE
  {}

  lemma {:induction false} PowDouble(a: Byte, n: nat)
    ensures Pow(a, 2 * n) == Square(Pow(a, n))
  {
    hide Mul, Square;
    PowAdd(a, n, n);
    MulSelf(Pow(a, n));
  }

  lemma {:induction false} Pow256(a: Byte)
    ensures Pow(a, 256) == a
  {
    hide Pow, Square;
    PowOne(a);
    PowDouble(a, 1); PowDouble(a, 2); PowDouble(a, 4); PowDouble(a, 8);
    PowDouble(a, 16); PowDouble(a, 32); PowDouble(a, 64); PowDouble(a, 128);
    SquareEight(a);
  }

  lemma {:induction false} PowOne(a: Byte)
    ensures Pow(a, 0) == ONE && Pow(a, 1) == a
  {
    MulOne(a);
  }

  /** `power(a, 254)` is the multiplicative inverse the code takes it for. */
  lemma {:induction false} InverseIsPow254(a: Byte)
    requires a != ZERO
    ensures Mul(Pow(a, 254), a) == ONE && Mul(a, Pow(a, 254)) == ONE
  {
    hide Pow, Mul, Square;
    var e := Pow(a, 255);
    Pow256(a);
    PowAdd(a, 254, 256);
    PowAdd(a, 255, 255);
    PowAdd(a, 254, 1);
    PowOne(a);
    MulSelf(e);
    Idempotent(e);
    PowAdd(a, 1, 255);
    MulZero(a);
    MulComm(Pow(a, 254), a);
  }

  lemma {:induction false} NoZeroDivisors(a: Byte, b: Byte)
    requires Mul(a, b) == ZERO
    ensures a == ZERO || b == ZERO
  {
    hide Mul, Pow;
    if a != ZERO {
      InverseIsPow254(a);
      MulAssoc(Pow(a, 254), a, b);
      MulZero(Pow(a, 254));
      MulOne(b);
    }
  }

  lemma {:induction false} FromNatInjective(m: nat, n: nat)
    requires m < 16 && n < 16 && FromNat(m) == FromNat(n)
    ensures m == n
  {
    hide FromNat;
    Nibble(m); Nibble(n);
  }

  lemma {:induction false} Nibble(n: nat)
    requires n < 16
    ensures var b := FromNat(n);
      n == (if b.b0 then 1 else 0) + (if b.b1 then 2 else 0) + (if b.b2 then 4 else 0) + (if b.b3 then 8 else 0)
  {
  }

  function Bit(b: bool): (n: nat)
    ensures n <= 1
  {
    if b then 1 else 0
  }

  function Low(b: bool, rest: nat): nat {
    Bit(b) + 2 * rest
  }

  /** `b as usize`. */
  function ToNat(b: Byte): (n: nat)
    ensures n < 256
  {
    Low(b.b0, Low(b.b1, Low(b.b2, Low(b.b3, Low(b.b4, Low(b.b5, Low(b.b6, Low(b.b7, 0))))))))
  }

  function Shift(b: bool, x: Byte): Byte {
    Byte(b, x.b0, x.b1, x.b2, x.b3, x.b4, x.b5, x.b6)
  }

  lemma {:induction false} Halves(n: nat, rest: nat, w: nat)
    requires n / 2 == rest && w in {2, 4, 8, 16, 32, 64}
    ensures n / (2 * w) == rest / w
  {
  }

  lemma {:induction false} LowBit(b: bool, rest: nat)
    ensures FromNat(Low(b, rest)) == Shift(b, FromNat(rest))
  {
    var n := Low(b, rest);
    assert n / 2 == rest && (n % 2 == 1) == b;
    hide Bit;
    Halves(n, rest, 2); Halves(n, rest, 4); Halves(n, rest, 8);
    Halves(n, rest, 16); Halves(n, rest, 32); Halves(n, rest, 64);
  }

  lemma {:induction false} HighBits(b: Byte)
    ensures FromNat(Low(b.b4, Low(b.b5, Low(b.b6, Low(b.b7, 0))))) ==
      Byte(b.b4, b.b5, b.b6, b.b7, false, false, false, false)
  {
    assert FromNat(0) == ZERO;
    hide Low, FromNat;
    LowBit(b.b7, 0);
    LowBit(b.b6, Low(b.b7, 0));
    LowBit(b.b5, Low(b.b6, Low(b.b7, 0)));
    LowBit(b.b4, Low(b.b5, Low(b.b6, Low(b.b7, 0))));
  }

  lemma {:induction false} LowBits(b: Byte, high: nat)
    requires FromNat(high) == Byte(b.b4, b.b5, b.b6, b.b7, false, false, false, false)
    ensures FromNat(Low(b.b0, Low(b.b1, Low(b.b2, Low(b.b3, high))))) == b
  {
    hide Low, FromNat;
    LowBit(b.b3, high);
    LowBit(b.b2, Low(b.b3, high));
    LowBit(b.b1, Low(b.b2, Low(b.b3, high)));
    LowBit(b.b0, Low(b.b1, Low(b.b2, Low(b.b3, high))));
  }

  /** Reading a byte as a number and back changes nothing. */
  lemma {:induction false} ByteRoundTrip(b: Byte)
    ensures FromNat(ToNat(b)) == b
  {
    hide Low, FromNat;
    HighBits(b);
    LowBits(b, Low(b.b4, Low(b.b5, Low(b.b6, Low(b.b7, 0)))));
  }
}
