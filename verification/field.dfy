/** The block ring is a field: x^(2^128 - 1) == 1 for every non-zero block, so
    exponentiation by 2^128 - 2 inverts.

    The only computation is one chain: applying a -> a^2 + a to X^127 127 times
    gives 1.  It is carried out on machine-word polynomials and transported to blocks. */
module Field {
  import opened Blocks

  // ---------------------------------------------------------------- powers

  function Pow(x: Block, n: nat): Block {
    if n == 0 then One() else Mul(x, Pow(x, n - 1))
  }

  function Exp2(n: nat): (r: nat)
    ensures r >= 1 && (n > 0 ==> r >= 2)
  {
    if n == 0 then 1 else 2 * Exp2(n - 1)
  }

  lemma {:induction false} PowAdd(x: Block, a: nat, b: nat)
    ensures Mul(Pow(x, a), Pow(x, b)) == Pow(x, a + b)
  {
    hide Mul;
    if a == 0 {
      MulOne(Pow(x, b));
    } else {
      PowAdd(x, a - 1, b);
      MulAssoc(x, Pow(x, a - 1), Pow(x, b));
    }
  }

  /** k-fold squaring. */
  function Frobenius(a: Block, k: nat): Block {
    if k == 0 then a else Square(Frobenius(a, k - 1))
  }

  function Square(a: Block): Block {
    Mul(a, a)
  }

  lemma {:induction false} FrobeniusIsPow(x: Block, m: nat, k: nat)
    ensures Frobenius(Pow(x, m), k) == Pow(x, m * Exp2(k))
  {
    hide Mul, Pow;
    if k > 0 {
      FrobeniusIsPow(x, m, k - 1);
      PowAdd(x, m * Exp2(k - 1), m * Exp2(k - 1));
      TwiceExp2(m, k - 1);
    }
  }

  lemma TwiceExp2(m: nat, k: nat)
    ensures m * Exp2(k) + m * Exp2(k) == m * Exp2(k + 1)
  {
  }

  lemma {:induction false} FrobeniusAdd(a: Block, j: nat, k: nat)
    ensures Frobenius(Frobenius(a, j), k) == Frobenius(a, j + k)
  {
    hide Square;
    if k > 0 { FrobeniusAdd(a, j, k - 1); }
  }

  lemma SquareXor(a: Block, b: Block)
    ensures Square(Xor(a, b)) == Xor(Square(a), Square(b))
  {
    hide Mul;
    MulDistLeft(a, b, Xor(a, b));
    MulDistRight(a, a, b);
    MulDistRight(b, a, b);
    MulComm(a, b);
    CancelMiddle(Mul(a, a), Mul(a, b), Mul(b, b));
  }

  lemma CancelMiddle(p: Block, q: Block, r: Block)
    ensures Xor(Xor(p, q), Xor(q, r)) == Xor(p, r)
  {
  }

  lemma {:induction false} FrobeniusXor(a: Block, b: Block, k: nat)
    ensures Frobenius(Xor(a, b), k) == Xor(Frobenius(a, k), Frobenius(b, k))
  {
    hide Mul;
    if k > 0 {
      FrobeniusXor(a, b, k - 1);
      SquareXor(Frobenius(a, k - 1), Frobenius(b, k - 1));
    }
  }

  // ---------------------------------------------------------------- gf_inverse

  /** Squares `times` times. */
  method SquareTimes(v: Block, times: nat) returns (value: Block)
    ensures value == Frobenius(v, times)
  {
    value := v;
    for i := 0 to times
      invariant value == Frobenius(v, i)
    {
      value := Mul(value, value);
    }
  }

  function Inverse(x: Block): Block {
    Pow(x, Exp2(BLOCK_BITS) - 2)
  }

  /** Doubling the exponent length each round: after the round at k,
      minusOne == x^(2^(2k) - 1) and minusTwo == x^(2^(2k) - 2). */
  method GfInverse(x: Block) returns (r: Block)
    ensures r == Inverse(x)
  {
    hide Mul, Pow, Exp2, Frobenius;
    ExponentStart();
    var minusOne, minusTwo := x, One();
    var k := 1;
    ghost var j := 0;
    PowSmall(x);
    while k < 128
      invariant k == Exp2(j) && j <= 7 && 1 <= k <= 128
      invariant minusOne == Pow(x, Exp2(k) - 1) && minusTwo == Pow(x, Exp2(k) - 2)
      decreases 128 - k
    {
      ExponentBound(j);
      var powered := SquareTimes(minusOne, k);
      FrobeniusIsPow(x, Exp2(k) - 1, k);
      minusOne := Mul(powered, minusOne);
      minusTwo := Mul(powered, minusTwo);
      RoundExponents(x, k);
      ExponentDouble(j);
      k := 2 * k;
      j := j + 1;
    }
    ExponentBound(j);
    r := minusTwo;
  }

  lemma ExponentStart()
    ensures Exp2(0) == 1 && Exp2(1) == 2
  {
  }

  lemma ExponentDouble(j: nat)
    ensures Exp2(j + 1) == 2 * Exp2(j)
  {
  }

  lemma PowSmall(x: Block)
    ensures Pow(x, 0) == One() && Pow(x, 1) == x
  {
    MulOne(x);
    assert Pow(x, 1) == Mul(x, Pow(x, 0));
  }

  lemma ExponentBound(j: nat)
    requires j <= 7
    ensures Exp2(j) < 128 <==> j < 7
    ensures j < 7 ==> Exp2(j) <= 64
    ensures j == 7 ==> Exp2(j) == 128
  {
    assert Exp2(2) == 4 && Exp2(4) == 16 && Exp2(6) == 64;
  }

  lemma RoundExponents(x: Block, k: nat)
    requires k >= 1
    ensures Exp2(k) >= 2 && Exp2(2 * k) >= 2
    ensures var powered := Pow(x, (Exp2(k) - 1) * Exp2(k));
            Mul(powered, Pow(x, Exp2(k) - 1)) == Pow(x, Exp2(2 * k) - 1) &&
            Mul(powered, Pow(x, Exp2(k) - 2)) == Pow(x, Exp2(2 * k) - 2)
  {
    hide Mul, Pow, Exp2;
    Exp2Add(k, k);
    var e := Exp2(k);
    ProductMinusOne(e);
    PowAdd(x, (e - 1) * e, e - 1);
    PowAdd(x, (e - 1) * e, e - 2);
  }

  lemma ProductMinusOne(e: nat)
    requires e >= 1
    ensures (e - 1) * e == e * e - e >= 0
  {
  }

  lemma {:induction false} Exp2Add(a: nat, b: nat)
    ensures Exp2(a + b) == Exp2(a) * Exp2(b)
  {
    if a > 0 {
      Exp2Add(a - 1, b);
      TwiceProduct(Exp2(a - 1), Exp2(b));
    }
  }

  lemma TwiceProduct(x: nat, y: nat)
    ensures 2 * (x * y) == 2 * x * y
  {
  }
}
