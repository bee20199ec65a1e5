/** 128-bit blocks as elements of GF(2)[X] / (X^128 + X^7 + X^2 + X + 1).

    A block is its list of 128 bits, least significant first, so bit i is the
    coefficient of X^i.  `Xor` is the addition, `Mul` the multiplication. */
module Blocks {

  const BLOCK_BITS := 128

  type Block = s: seq<bool> | |s| == BLOCK_BITS witness seq(BLOCK_BITS, _ => false)

  function Zero(): (r: Block)
    ensures forall i :: 0 <= i < BLOCK_BITS ==> !r[i]
  {
    seq(BLOCK_BITS, _ => false)
  }

  function One(): (r: Block)
    ensures forall i :: 0 <= i < BLOCK_BITS ==> r[i] == (i == 0)
  {
    seq(BLOCK_BITS, i => i == 0)
  }

  function Xor(a: Block, b: Block): (r: Block)
    ensures forall i :: 0 <= i < BLOCK_BITS ==> r[i] == (a[i] != b[i])
  {
    seq(BLOCK_BITS, i requires 0 <= i < BLOCK_BITS => a[i] != b[i])
  }

  /** The source's and_all_bits: the block itself or zero. */
  function Scale(bit: bool, a: Block): (r: Block)
    ensures forall i :: 0 <= i < BLOCK_BITS ==> r[i] == (bit && a[i])
  {
    if bit then a else Zero()
  }

  function Lsb(a: Block): bool {
    a[0]
  }

  /** Multiplication by X: shift by one and fold X^128 back as X^7 + X^2 + X + 1. */
  function MulX(a: Block): (r: Block)
    ensures forall i :: 0 <= i < BLOCK_BITS ==>
              r[i] == ((i > 0 && a[i - 1]) != (a[127] && (i == 0 || i == 1 || i == 2 || i == 7)))
  {
    seq(BLOCK_BITS, i requires 0 <= i < BLOCK_BITS =>
      (i > 0 && a[i - 1]) != (a[127] && (i == 0 || i == 1 || i == 2 || i == 7)))
  }

  /** a times the polynomial whose coefficients are `b`, by Horner's rule. */
  function MulPoly(a: Block, b: seq<bool>): Block {
    if b == [] then Zero() else Xor(Scale(b[0], a), MulX(MulPoly(a, b[1..])))
  }

  function Mul(a: Block, b: Block): Block {
    MulPoly(a, b)
  }

  // ---------------------------------------------------------------- group laws

  lemma XorAssoc(a: Block, b: Block, c: Block)
    ensures Xor(Xor(a, b), c) == Xor(a, Xor(b, c))
  {
  }

  lemma XorComm(a: Block, b: Block)
    ensures Xor(a, b) == Xor(b, a)
  {
  }

  lemma XorSelf(a: Block)
    ensures Xor(a, a) == Zero()
  {
  }

  lemma XorZero(a: Block)
    ensures Xor(a, Zero()) == a
    ensures Xor(Zero(), a) == a
  {
  }

  lemma XorSwap(a: Block, b: Block, c: Block, d: Block)
    ensures Xor(Xor(a, b), Xor(c, d)) == Xor(Xor(a, c), Xor(b, d))
  {
  }

  lemma ScaleSum(s: bool, t: bool, a: Block)
    ensures Scale(s != t, a) == Xor(Scale(s, a), Scale(t, a))
  {
  }

  /** Two blocks are equal exactly when their difference is zero. */
  lemma XorCancel(a: Block, b: Block)
    ensures Xor(a, b) == Zero() <==> a == b
  {
  }

  // ---------------------------------------------------------------- ring laws

  lemma MulXXor(a: Block, b: Block)
    ensures MulX(Xor(a, b)) == Xor(MulX(a), MulX(b))
  {
  }

  lemma MulXScale(t: bool, a: Block)
    ensures MulX(Scale(t, a)) == Scale(t, MulX(a))
  {
  }

  lemma {:induction false} MulPolyXorLeft(a: Block, b: Block, c: seq<bool>)
    ensures MulPoly(Xor(a, b), c) == Xor(MulPoly(a, c), MulPoly(b, c))
  {
    if c == [] {
      XorZero(Zero());
    } else {
      MulPolyXorLeft(a, b, c[1..]);
      MulXXor(MulPoly(a, c[1..]), MulPoly(b, c[1..]));
      assert Scale(c[0], Xor(a, b)) == Xor(Scale(c[0], a), Scale(c[0], b));
      XorSwap(Scale(c[0], a), Scale(c[0], b), MulX(MulPoly(a, c[1..])), MulX(MulPoly(b, c[1..])));
    }
  }

  lemma {:induction false} MulPolyScaleLeft(t: bool, a: Block, c: seq<bool>)
    ensures MulPoly(Scale(t, a), c) == Scale(t, MulPoly(a, c))
  {
    if c != [] {
      MulPolyScaleLeft(t, a, c[1..]);
      MulXScale(t, MulPoly(a, c[1..]));
    }
  }

  lemma {:induction false} MulPolyMulX(a: Block, c: seq<bool>)
    ensures MulPoly(MulX(a), c) == MulX(MulPoly(a, c))
  {
    if c != [] {
      MulPolyMulX(a, c[1..]);
      MulXScale(c[0], a);
      MulXXor(Scale(c[0], a), MulX(MulPoly(a, c[1..])));
    }
  }

  /** Evaluating at 1 pads with zeros: the polynomial `c` is its own value. */
  lemma {:induction false} MulPolyOne(c: seq<bool>)
    requires |c| <= BLOCK_BITS
    ensures MulPoly(One(), c) == c + seq(BLOCK_BITS - |c|, _ => false)
  {
    if c != [] {
      MulPolyOne(c[1..]);
    }
  }

  lemma {:induction false} MulPolyComm(u: seq<bool>, v: seq<bool>)
    ensures MulPoly(MulPoly(One(), u), v) == MulPoly(MulPoly(One(), v), u)
  {
    if u == [] {
      assert Scale(false, One()) == Zero();
      MulPolyScaleLeft(false, One(), v);
      assert Scale(false, MulPoly(One(), v)) == Zero();
    } else {
      var t := MulPoly(One(), u[1..]);
      MulPolyXorLeft(Scale(u[0], One()), MulX(t), v);
      MulPolyScaleLeft(u[0], One(), v);
      MulPolyMulX(t, v);
      MulPolyComm(u[1..], v);
    }
  }

  lemma MulOne(a: Block)
    ensures Mul(One(), a) == a
    ensures Mul(a, One()) == a
  {
    MulPolyOne(a);
    assert MulPoly(One(), a) == a;
    MulComm(a, One());
  }

  lemma MulComm(a: Block, b: Block)
    ensures Mul(a, b) == Mul(b, a)
  {
    MulPolyOne(a);
    assert MulPoly(One(), a) == a;
    MulPolyOne(b);
    assert MulPoly(One(), b) == b;
    MulPolyComm(a, b);
  }

  lemma MulDistLeft(a: Block, b: Block, c: Block)
    ensures Mul(Xor(a, b), c) == Xor(Mul(a, c), Mul(b, c))
  {
    MulPolyXorLeft(a, b, c);
  }

  lemma MulDistRight(a: Block, b: Block, c: Block)
    ensures Mul(a, Xor(b, c)) == Xor(Mul(a, b), Mul(a, c))
  {
    MulComm(a, Xor(b, c));
    MulComm(a, b);
    MulComm(a, c);
    MulDistLeft(b, c, a);
  }

  lemma MulScale(t: bool, a: Block, b: Block)
    ensures Mul(Scale(t, a), b) == Scale(t, Mul(a, b))
    ensures Mul(a, Scale(t, b)) == Scale(t, Mul(a, b))
  {
    MulPolyScaleLeft(t, a, b);
    MulPolyScaleLeft(t, b, a);
    MulComm(a, Scale(t, b));
    MulComm(a, b);
  }

  lemma MulZero(a: Block)
    ensures Mul(a, Zero()) == Zero()
    ensures Mul(Zero(), a) == Zero()
  {
    assert Scale(false, a) == Zero();
    MulScale(false, a, a);
    assert Scale(false, Mul(a, a)) == Zero();
  }

  lemma {:induction false} MulPolyAssoc(a: Block, b: Block, c: seq<bool>)
    ensures MulPoly(Mul(a, b), c) == Mul(a, MulPoly(b, c))
  {
    if c == [] {
      MulZero(a);
    } else {
      var d := MulPoly(b, c[1..]);
      MulPolyAssoc(a, b, c[1..]);
      MulDistRight(a, Scale(c[0], b), MulX(d));
      MulScale(c[0], a, b);
      MulByX(a, d);
    }
  }

  lemma MulAssoc(a: Block, b: Block, c: Block)
    ensures Mul(Mul(a, b), c) == Mul(a, Mul(b, c))
  {
    MulPolyAssoc(a, b, c);
  }

  /** Multiplying by X commutes with multiplying by anything else. */
  lemma MulByX(a: Block, b: Block)
    ensures Mul(a, MulX(b)) == MulX(Mul(a, b))
  {
    MulComm(a, MulX(b));
    MulPolyMulX(b, a);
    MulComm(a, b);
  }
}
