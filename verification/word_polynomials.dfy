/** Polynomials over GF(2) in 128-bit words: the computing counterpart of blocks. */
module WordPolynomials {
  import opened Blocks
  import opened Field

  type Poly = bv128

  /** The block a word denotes: its polynomial's value at X, by Horner's rule. */
  function V(b: Poly): Block
    decreases b
  {
    if b == 0 then Zero() else Horner(Odd(b), V(Half(b)))
  }

  predicate Odd(a: Poly) {
    a & 1 == 1
  }

  function Half(a: Poly): (r: Poly)
    ensures a != 0 ==> r < a
  {
    a >> 1
  }

  /** Number of bits up to the highest one. */
  function Length(a: Poly): nat
    decreases a
  {
    if a == 0 then 0 else 1 + Length(Half(a))
  }

  function Horner(bit: bool, t: Block): Block {
    Xor(Scale(bit, One()), MulX(t))
  }

  /** The low 64 bits, with a zero after every bit. */
  function Spread(a: Poly): Poly {
    var x0 := a;
    var x1 := (x0 | (x0 << 32)) & 0xffffffff_00000000_ffffffff;
    var x2 := (x1 | (x1 << 16)) & 0xffff_0000ffff_0000ffff_0000ffff;
    var x3 := (x2 | (x2 << 8)) & 0xff00ff_00ff00ff_00ff00ff_00ff00ff;
    var x4 := (x3 | (x3 << 4)) & 0xf0f0f0f_0f0f0f0f_0f0f0f0f_0f0f0f0f;
    var x5 := (x4 | (x4 << 2)) & 0x33333333_33333333_33333333_33333333;
    var x6 := (x5 | (x5 << 1)) & 0x55555555_55555555_55555555_55555555;
    x6
  }

  function Add(a: Poly, b: Poly): Poly {
    a ^ b
  }

  function Low(a: Poly): Poly {
    a & 0xFFFF_FFFF_FFFF_FFFF
  }

  function High(a: Poly): Poly {
    a >> 64
  }

  /** What the bits pushed out at the top come back as. */
  function Reduced(o: Poly): Poly {
    o ^ (o << 1) ^ (o << 2) ^ (o << 7)
  }

  /** Multiplication by X, X^2, X^4 and X^7. */
  function TimesX(h: Poly): Poly {
    (h << 1) ^ Reduced(h >> 127)
  }

  function TimesX2(h: Poly): Poly {
    (h << 2) ^ Reduced(h >> 126)
  }

  function TimesX4(h: Poly): Poly {
    (h << 4) ^ Reduced(h >> 124)
  }

  function TimesX7(h: Poly): Poly {
    TimesX(TimesX2(TimesX4(h)))
  }

  /** Multiplication by X^128 == X^7 + X^2 + X + 1. */
  function TimesX128(h: Poly): Poly {
    Add(Add(Add(h, TimesX(h)), TimesX2(h)), TimesX7(h))
  }

  function SquareWord(a: Poly): Poly {
    Add(Spread(Low(a)), TimesX128(Spread(High(a))))
  }

  /** a^2 + a. */
  function Step(a: Poly): Poly {
    Add(SquareWord(a), a)
  }

  function Step4(a: Poly): Poly {
    Step(Step(Step(Step(a))))
  }

  // ---------------------------------------------------------------- the denotation is faithful

  lemma VUnfold(a: Poly)
    ensures V(a) == Horner(Odd(a), V(Half(a)))
  {
    hide MulX;
    if a == 0 {
      ZeroWord();
      HornerZero();
    }
  }

  lemma ZeroWord()
    ensures !Odd(0) && Half(0) == 0 && V(0) == Zero()
  {
  }

  lemma HornerZero()
    ensures Horner(false, Zero()) == Zero()
  {
    assert MulX(Zero()) == Zero();
    XorZero(Zero());
  }

  lemma AddHalves(a: Poly, b: Poly)
    ensures Half(Add(a, b)) == Add(Half(a), Half(b)) && Odd(Add(a, b)) == (Odd(a) != Odd(b)) && Add(0, b) == b
  {
  }

  lemma HornerXor(p: bool, q: bool, s: Block, t: Block)
    ensures Horner(p != q, Xor(s, t)) == Xor(Horner(p, s), Horner(q, t))
  {
  }

  lemma HalfLength(a: Poly)
    requires a != 0
    ensures Length(Half(a)) < Length(a)
  {
  }

  /** Adding words adds the blocks they denote. */
  lemma {:induction false} VAdd(a: Poly, b: Poly)
    ensures V(Add(a, b)) == Xor(V(a), V(b))
    decreases Length(a)
  {
    hide *;
    AddHalves(a, b);
    if a == 0 {
      ZeroWord();
      XorZero(V(b));
    } else {
      HalfLength(a);
      VAdd(Half(a), Half(b));
      VUnfold(a);
      VUnfold(b);
      VUnfold(Add(a, b));
      HornerXor(Odd(a), Odd(b), V(Half(a)), V(Half(b)));
    }
  }

  lemma VShift(b: Poly, c: Poly)
    requires b >> 127 == 0 && c == b << 1
    ensures V(c) == MulX(V(b))
  {
    hide V, MulX;
    ShiftedHalf(b, c);
    VUnfold(c);
    XorZero(MulX(V(b)));
  }

  lemma ShiftedHalf(b: Poly, c: Poly)
    requires b >> 127 == 0 && c == b << 1
    ensures Half(c) == b && !Odd(c)
  {
  }

  function MulXN(a: Block, n: nat): Block {
    if n == 0 then a else MulX(MulXN(a, n - 1))
  }

  lemma {:induction false} MulXNAdd(a: Block, m: nat, n: nat)
    ensures MulXN(MulXN(a, m), n) == MulXN(a, m + n)
  {
    if n > 0 { MulXNAdd(a, m, n - 1); }
  }

  lemma MulXNOne(a: Block)
    ensures MulXN(a, 1) == MulX(a) && MulXN(a, 2) == MulX(MulX(a))
  {
    assert MulXN(a, 1) == MulX(MulXN(a, 0));
  }

  lemma VShift2(b: Poly, c: Poly)
    requires b >> 126 == 0 && c == b << 2
    ensures V(c) == MulXN(V(b), 2)
  {
    hide *;
    VShift(b, b << 1);
    VShift(b << 1, c);
    MulXNOne(V(b));
  }

  lemma VShift4(b: Poly, c: Poly)
    requires b >> 124 == 0 && c == b << 4
    ensures V(c) == MulXN(V(b), 4)
  {
    hide *;
    VShift2(b, b << 2);
    VShift2(b << 2, c);
    MulXNAdd(V(b), 2, 2);
  }

  lemma VShift8(b: Poly, c: Poly)
    requires b >> 120 == 0 && c == b << 8
    ensures V(c) == MulXN(V(b), 8)
  {
    hide *;
    VShift4(b, b << 4);
    VShift4(b << 4, c);
    MulXNAdd(V(b), 4, 4);
  }

  lemma VShift16(b: Poly, c: Poly)
    requires b >> 112 == 0 && c == b << 16
    ensures V(c) == MulXN(V(b), 16)
  {
    hide *;
    VShift8(b, b << 8);
    VShift8(b << 8, c);
    MulXNAdd(V(b), 8, 8);
  }

  lemma VShift32(b: Poly, c: Poly)
    requires b >> 96 == 0 && c == b << 32
    ensures V(c) == MulXN(V(b), 32)
  {
    hide *;
    VShift16(b, b << 16);
    VShift16(b << 16, c);
    MulXNAdd(V(b), 16, 16);
  }

  lemma VShift64(b: Poly, c: Poly)
    requires b >> 64 == 0 && c == b << 64
    ensures V(c) == MulXN(V(b), 64)
  {
    hide *;
    VShift32(b, b << 32);
    VShift32(b << 32, c);
    MulXNAdd(V(b), 32, 32);
  }

  lemma VOne()
    ensures V(1) == One()
  {
  }

  function Top(): Poly {
    0x8000_0000_0000_0000_0000_0000_0000_0000
  }

  lemma VTop()
    ensures V(Top()) == MulXN(One(), 127)
  {
    hide V, Horner, MulXN;
    VOne();
    VShift64(1, 0x1_0000_0000_0000_0000);
    VShift32(0x1_0000_0000_0000_0000, 0x1_0000_0000_0000_0000_0000_0000);
    VShift16(0x1_0000_0000_0000_0000_0000_0000, 0x1_0000_0000_0000_0000_0000_0000_0000);
    VShift8(0x1_0000_0000_0000_0000_0000_0000_0000, 0x100_0000_0000_0000_0000_0000_0000_0000);
    VShift4(0x100_0000_0000_0000_0000_0000_0000_0000, 0x1000_0000_0000_0000_0000_0000_0000_0000);
    VShift2(0x1000_0000_0000_0000_0000_0000_0000_0000, 0x4000_0000_0000_0000_0000_0000_0000_0000);
    VShift(0x4000_0000_0000_0000_0000_0000_0000_0000, 0x8000_0000_0000_0000_0000_0000_0000_0000);
    Chain127(One());
  }

  lemma Chain127(a: Block)
    ensures MulX(MulXN(MulXN(MulXN(MulXN(MulXN(MulXN(a, 64), 32), 16), 8), 4), 2)) == MulXN(a, 127)
  {
    hide MulXN;
    MulXNAdd(a, 64, 32);
    MulXNAdd(a, 96, 16);
    MulXNAdd(a, 112, 8);
    MulXNAdd(a, 120, 4);
    MulXNAdd(a, 124, 2);
    MulXNAdd(a, 126, 1);
    MulXNOne(MulXN(a, 126));
  }

  /** Below degree 128 multiplying by X only moves the bit. */
  lemma {:induction false} XPowerBits(n: nat)
    requires n < BLOCK_BITS
    ensures forall i :: 0 <= i < BLOCK_BITS ==> MulXN(One(), n)[i] == (i == n)
  {
    if n > 0 { XPowerBits(n - 1); }
  }

  /** X^7 + X^2 + X + 1. */
  function Tail(): Block {
    Xor(Xor(Xor(One(), MulXN(One(), 1)), MulXN(One(), 2)), MulXN(One(), 7))
  }

  lemma VTail()
    ensures V(0x87) == Tail()
  {
    hide V, Horner, MulXN;
    VOne();
    VShift(1, 2);
    VShift2(1, 4);
    VShift4(1, 0x10);
    VShift2(0x10, 0x40);
    VShift(0x40, 0x80);
    VAdd(1, 2);
    VAdd(3, 4);
    VAdd(7, 0x80);
    MulXNOne(One());
    MulXNAdd(One(), 4, 2);
    MulXNAdd(One(), 6, 1);
    MulXNOne(MulXN(One(), 6));
  }

  lemma TailBits()
    ensures Tail() == MulX(MulXN(One(), 127))
  {
    hide MulXN;
    XPowerBits(1);
    XPowerBits(2);
    XPowerBits(7);
    XPowerBits(127);
  }

  function Doubled(h: Poly): Poly {
    h << 1
  }

  lemma TopBit(h: Poly)
    requires h >> 127 != 0
    ensures h >> 127 == 1 && Add(h, Top()) >> 127 == 0
    ensures h == Add(Add(h, Top()), Top())
  {
  }

  lemma TopBitShift(h: Poly)
    ensures Doubled(Add(h, Top())) == Doubled(h)
  {
  }

  lemma TimesXWord(h: Poly)
    ensures h >> 127 == 0 ==> TimesX(h) == Doubled(h)
    ensures h >> 127 == 1 ==> TimesX(h) == Add(Doubled(h), 0x87)
  {
  }

  lemma VDoubled(b: Poly)
    requires b >> 127 == 0
    ensures V(Doubled(b)) == MulX(V(b))
  {
    VShift(b, Doubled(b));
  }

  lemma VTimesX(h: Poly)
    ensures V(TimesX(h)) == MulX(V(h))
  {
    hide *;
    TimesXWord(h);
    if h >> 127 == 0 {
      VDoubled(h);
    } else {
      TopBit(h);
      TopBitShift(h);
      var rest := Add(h, Top());
      VAdd(rest, Top());
      VDoubled(rest);
      VAdd(Doubled(rest), 0x87);
      VTop();
      VTail();
      TailBits();
      MulXXor(V(rest), V(Top()));
    }
  }

  lemma {:induction false} MulXNIsMul(a: Block, n: nat)
    ensures MulXN(a, n) == Mul(a, MulXN(One(), n))
  {
    hide Mul, MulX;
    if n == 0 {
      MulOne(a);
    } else {
      MulXNIsMul(a, n - 1);
      MulByX(a, MulXN(One(), n - 1));
    }
  }

  /** X^128 == X^7 + X^2 + X + 1, times anything. */
  lemma Reduce(a: Block, n: nat)
    requires n == BLOCK_BITS
    ensures MulXN(a, n) == Xor(Xor(Xor(a, MulXN(a, 1)), MulXN(a, 2)), MulXN(a, 7))
  {
    hide Mul;
    TailBits();
    var x1, x2, x7 := MulXN(One(), 1), MulXN(One(), 2), MulXN(One(), 7);
    MulXNIsMul(a, n);
    MulXNIsMul(a, 1);
    MulXNIsMul(a, 2);
    MulXNIsMul(a, 7);
    MulOne(a);
    MulDistRight(a, Xor(Xor(One(), x1), x2), x7);
    MulDistRight(a, Xor(One(), x1), x2);
    MulDistRight(a, One(), x1);
  }

  lemma VTimesX128(h: Poly, n: nat)
    requires n == BLOCK_BITS
    ensures V(TimesX128(h)) == MulXN(V(h), n)
  {
    hide V, Add, TimesX, TimesX2, TimesX7;
    VTimesX(h);
    VTimesX2(h);
    VTimesX7(h);
    MulXNOne(V(h));
    VAdd(h, TimesX(h));
    VAdd(Add(h, TimesX(h)), TimesX2(h));
    VAdd(Add(Add(h, TimesX(h)), TimesX2(h)), TimesX7(h));
    Reduce(V(h), n);
  }

  lemma TwiceX(h: Poly)
    ensures TimesX(TimesX(h)) == TimesX2(h)
  {
  }

  lemma TwiceX2(h: Poly)
    ensures TimesX2(TimesX2(h)) == TimesX4(h)
  {
  }

  lemma VTimesX2(h: Poly)
    ensures V(TimesX2(h)) == MulXN(V(h), 2)
  {
    hide V, TimesX, TimesX2;
    TwiceX(h);
    VTimesX(h);
    VTimesX(TimesX(h));
    MulXNOne(V(h));
  }

  lemma VTimesX4(h: Poly)
    ensures V(TimesX4(h)) == MulXN(V(h), 4)
  {
    hide V, TimesX2, TimesX4;
    TwiceX2(h);
    VTimesX2(h);
    VTimesX2(TimesX2(h));
    MulXNAdd(V(h), 2, 2);
  }

  lemma VTimesX7(h: Poly)
    ensures V(TimesX7(h)) == MulXN(V(h), 7)
  {
    hide V, TimesX, TimesX2, TimesX4;
    VTimesX4(h);
    VTimesX2(TimesX4(h));
    VTimesX(TimesX2(TimesX4(h)));
    MulXNAdd(V(h), 4, 2);
    MulXNAdd(V(h), 6, 1);
    MulXNOne(MulXN(V(h), 6));
  }

  // ---------------------------------------------------------------- squaring

  function Bit0(a: Poly): Poly {
    a & 1
  }

  function Quadrupled(a: Poly): Poly {
    a << 2
  }

  predicate Short(a: Poly) {
    a >> 64 == 0
  }

  lemma SpreadStep(a: Poly)
    requires Short(a)
    ensures Spread(a) == Add(Bit0(a), Quadrupled(Spread(Half(a))))
  {
  }

  lemma SpreadShort(a: Poly)
    requires Short(a)
    ensures Spread(Half(a)) >> 126 == 0
  {
  }

  lemma HalfShorter(a: Poly)
    requires Short(a)
    ensures Short(Half(a)) && (a != 0 ==> Length(Half(a)) < Length(a))
  {
  }

  lemma VBit(a: Poly)
    ensures V(Bit0(a)) == Scale(Odd(a), One())
  {
  }

  lemma VQuadrupled(b: Poly)
    requires b >> 126 == 0
    ensures V(Quadrupled(b)) == MulXN(V(b), 2)
  {
    VShift2(b, b << 2);
  }

  lemma SpreadZero(a: Poly)
    requires a == 0
    ensures V(Spread(a)) == Square(V(a))
  {
    assert Spread(a) == 0;
    MulZero(Zero());
  }

  lemma VSpreadStep(a: Poly)
    requires Short(a)
    requires V(Spread(Half(a))) == Square(V(Half(a)))
    ensures V(Spread(a)) == Square(V(a))
  {
    hide *;
    SpreadShort(a);
    SpreadStep(a);
    VAdd(Bit0(a), Quadrupled(Spread(Half(a))));
    VQuadrupled(Spread(Half(a)));
    VBit(a);
    VUnfold(a);
    SquareHorner(Odd(a), V(Half(a)));
  }

  lemma {:induction false} VSpread(a: Poly)
    requires Short(a)
    ensures V(Spread(a)) == Square(V(a))
    decreases Length(a)
  {
    hide *;
    if a == 0 {
      SpreadZero(a);
    } else {
      HalfShorter(a);
      VSpread(Half(a));
      VSpreadStep(a);
    }
  }

  /** (b + X t)^2 == b + X^2 t^2. */
  lemma SquareHorner(b: bool, t: Block)
    ensures Square(Horner(b, t)) == Xor(Scale(b, One()), MulXN(Square(t), 2))
  {
    hide Mul;
    SquareXor(Scale(b, One()), MulX(t));
    MulScale(b, One(), Scale(b, One()));
    MulScale(b, One(), One());
    MulOne(One());
    SquareMulX(t);
    assert Scale(b, Scale(b, One())) == Scale(b, One());
  }

  lemma SquareMulX(t: Block)
    ensures Square(MulX(t)) == MulXN(Square(t), 2)
  {
    hide Mul;
    MulByX(MulX(t), t);
    MulComm(MulX(t), t);
    MulByX(t, t);
    MulXNOne(Square(t));
  }

  lemma {:induction false} SquareMulXN(t: Block, n: nat)
    ensures Square(MulXN(t, n)) == MulXN(Square(t), 2 * n)
  {
    hide Square, MulXN, MulX;
    MulXNStep(t, n);
    if n == 0 {
      MulXNStep(Square(t), 0);
    } else {
      SquareMulXN(t, n - 1);
      SquareMulX(MulXN(t, n - 1));
      MulXNAdd(Square(t), 2 * n - 2, 2);
    }
  }

  lemma MulXNStep(t: Block, n: nat)
    ensures MulXN(t, n) == if n == 0 then t else MulX(MulXN(t, n - 1))
  {
  }

  lemma SplitWord(a: Poly)
    ensures Short(Low(a)) && Short(High(a)) && High(a) >> 64 == 0
    ensures a == Add(Low(a), High(a) << 64)
  {
  }

  lemma VSquare(a: Poly)
    ensures V(SquareWord(a)) == Square(V(a))
  {
    hide V, Add, Low, High, Spread, TimesX128, Square, MulXN;
    SplitWord(a);
    VAdd(Low(a), High(a) << 64);
    VShift64(High(a), High(a) << 64);
    VSpread(Low(a));
    VSpread(High(a));
    VTimesX128(Spread(High(a)), BLOCK_BITS);
    VAdd(Spread(Low(a)), TimesX128(Spread(High(a))));
    SquareXor(V(Low(a)), V(High(a) << 64));
    SquareMulXN(V(High(a)), 64);
  }

  /** One word-level step is a -> a^2 + a on blocks. */
  lemma VStep(a: Poly)
    ensures V(Step(a)) == Xor(Square(V(a)), V(a))
  {
    hide V, Add, SquareWord, Square;
    VSquare(a);
    VAdd(SquareWord(a), a);
  }
}
