/** Serializing Kyber polynomials: 12-bit packing and the register transposition of the vector code. */
module KyberPacking {
  import opened Words

  const LANES := 16
  const COEFF_BITS := 12

  type Lane = s: seq<bool> | |s| == LANES witness seq(LANES, _ => false)

  function ZeroLane(): Lane {
    seq(LANES, _ => false)
  }

  type Register = s: seq<Lane> | |s| == LANES witness seq(LANES, _ => seq(LANES, _ => false))

  // ---------------------------------------------------------------- numbers and bits

  function Power(k: nat): (r: nat)
    ensures r > 0
  {
    if k == 0 then 1 else 2 * Power(k - 1)
  }

  /** The k low bits of n, lowest first. */
  function BitsOf(n: nat, k: nat): (r: seq<bool>)
    ensures |r| == k
  {
    if k == 0 then [] else [n % 2 == 1] + BitsOf(n / 2, k - 1)
  }

  lemma {:induction false} BitsValue(n: nat, k: nat)
    requires n < Power(k)
    ensures Value(BitsOf(n, k)) == n
  {
    if k > 0 {
      BitsValue(n / 2, k - 1);
      assert BitsOf(n, k)[1..] == BitsOf(n / 2, k - 1);
    }
  }

  lemma {:induction false} ValueBits(w: seq<bool>)
    ensures Value(w) < Power(|w|) && BitsOf(Value(w), |w|) == w
  {
    if w != [] {
      ValueBits(w[1..]);
      assert Value(w) / 2 == Value(w[1..]) && (Value(w) % 2 == 1) == w[0];
      assert w == [w[0]] + w[1..];
    }
  }

  /** A number below 2^k has only zeros from bit k on. */
  lemma {:induction false} HighBitsZero(n: nat, k: nat, m: nat)
    requires n < Power(k) && k <= m
    ensures BitsOf(n, m)[..k] == BitsOf(n, k) && forall i :: k <= i < m ==> !BitsOf(n, m)[i]
  {
    if k == 0 {
      if m > 0 {
        HighBitsZero(n / 2, 0, m - 1);
        forall i | 0 <= i < m ensures !BitsOf(n, m)[i] {
          if i > 0 { assert BitsOf(n, m)[i] == BitsOf(n / 2, m - 1)[i - 1]; }
        }
      }
    } else {
      HighBitsZero(n / 2, k - 1, m - 1);
      forall i | k <= i < m ensures !BitsOf(n, m)[i] {
        assert BitsOf(n, m)[i] == BitsOf(n / 2, m - 1)[i - 1];
      }
    }
  }

  // ---------------------------------------------------------------- lane operations

  function Sll(w: Lane, k: nat): (r: Lane)
    ensures forall i :: 0 <= i < LANES ==> r[i] == (i >= k && w[i - k])
  {
    seq(LANES, i requires 0 <= i < LANES => i >= k && w[i - k])
  }

  function Srl(w: Lane, k: nat): (r: Lane)
    ensures forall i :: 0 <= i < LANES ==> r[i] == (i + k < LANES && w[i + k])
  {
    seq(LANES, i requires 0 <= i < LANES => i + k < LANES && w[i + k])
  }

  function Mask(): (r: Lane)
    ensures forall i :: 0 <= i < LANES ==> r[i] == (i < COEFF_BITS)
  {
    seq(LANES, i => i < COEFF_BITS)
  }

  predicate TwelveBits(w: Lane) {
    forall i :: COEFF_BITS <= i < LANES ==> !w[i]
  }

  /** Four 12-bit lanes in three full ones. */
  method BitPack(c0: Lane, c1: Lane, c2: Lane, c3: Lane) returns (w0: Lane, w1: Lane, w2: Lane)
    requires TwelveBits(c0) && TwelveBits(c1) && TwelveBits(c2) && TwelveBits(c3)
    ensures forall b :: 0 <= b < LANES ==> w0[b] == if b < 12 then c0[b] else c1[b - 12]
    ensures forall b :: 0 <= b < LANES ==> w1[b] == if b < 8 then c1[b + 4] else c2[b - 8]
    ensures forall b :: 0 <= b < LANES ==> w2[b] == if b < 4 then c2[b + 8] else c3[b - 4]
  {
    w0 := Sll(c1, 12);
    w0 := BitOr(w0, c0);
    w1 := Srl(c1, 4);
    w2 := Sll(c2, 8);
    w1 := BitOr(w1, w2);
    w2 := Srl(c2, 8);
    var x := Sll(c3, 4);
    w2 := BitOr(w2, x);
  }

  method BitUnpack(w0: Lane, w1: Lane, w2: Lane) returns (c0: Lane, c1: Lane, c2: Lane, c3: Lane)
    ensures forall b :: 0 <= b < LANES ==> c0[b] == (b < 12 && w0[b])
    ensures forall b :: 0 <= b < LANES ==> c1[b] == (b < 12 && if b < 4 then w0[b + 12] else w1[b - 4])
    ensures forall b :: 0 <= b < LANES ==> c2[b] == (b < 12 && if b < 8 then w1[b + 8] else w2[b - 8])
    ensures forall b :: 0 <= b < LANES ==> c3[b] == (b < 12 && w2[b + 4])
  {
    var x := Srl(w0, 12);
    c1 := Sll(w1, 4);
    c1 := BitOr(x, c1);
    c0 := BitAnd(Mask(), w0);
    c1 := BitAnd(Mask(), c1);
    x := Srl(w1, 8);
    c2 := Sll(w2, 8);
    c2 := BitOr(x, c2);
    c2 := BitAnd(Mask(), c2);
    c3 := Srl(w2, 4);
    c3 := BitAnd(Mask(), c3);
  }

  // ---------------------------------------------------------------- shuffles

  /** The two results of shuffle k: blocks of k lanes of the two registers interleaved. */
  function Lo(k: nat, a: Register, b: Register): Register
    requires k == 1 || k == 2 || k == 4 || k == 8
  {
    seq(LANES, i requires 0 <= i < LANES => if i / k % 2 == 0 then a[i] else LaneOf(b, i - k))
  }

  function Hi(k: nat, a: Register, b: Register): Register
    requires k == 1 || k == 2 || k == 4 || k == 8
  {
    seq(LANES, i requires 0 <= i < LANES => if i / k % 2 == 0 then LaneOf(a, i + k) else b[i])
  }

  function LaneOf(r: Register, i: int): Lane {
    if 0 <= i < LANES then r[i] else ZeroLane()
  }

  /** The sixteen lanes of a register. */
  ghost predicate RowIs(s: Register, a0: Lane, a1: Lane, a2: Lane, a3: Lane, a4: Lane, a5: Lane, a6: Lane, a7: Lane,
                        a8: Lane, a9: Lane, a10: Lane, a11: Lane, a12: Lane, a13: Lane, a14: Lane, a15: Lane)
  {
    && s[0] == a0 && s[1] == a1 && s[2] == a2 && s[3] == a3 && s[4] == a4 && s[5] == a5 && s[6] == a6 && s[7] == a7
    && s[8] == a8 && s[9] == a9 && s[10] == a10 && s[11] == a11 && s[12] == a12 && s[13] == a13 && s[14] == a14
    && s[15] == a15
  }

  lemma Shuffle1(a: Register, b: Register)
    ensures RowIs(Lo(1, a, b), a[0], b[0], a[2], b[2], a[4], b[4], a[6], b[6],
                  a[8], b[8], a[10], b[10], a[12], b[12], a[14], b[14])
    ensures RowIs(Hi(1, a, b), a[1], b[1], a[3], b[3], a[5], b[5], a[7], b[7],
                  a[9], b[9], a[11], b[11], a[13], b[13], a[15], b[15])
  {
  }

  lemma Shuffle2(a: Register, b: Register)
    ensures RowIs(Lo(2, a, b), a[0], a[1], b[0], b[1], a[4], a[5], b[4], b[5],
                  a[8], a[9], b[8], b[9], a[12], a[13], b[12], b[13])
    ensures RowIs(Hi(2, a, b), a[2], a[3], b[2], b[3], a[6], a[7], b[6], b[7],
                  a[10], a[11], b[10], b[11], a[14], a[15], b[14], b[15])
  {
  }

  lemma Shuffle4(a: Register, b: Register)
    ensures RowIs(Lo(4, a, b), a[0], a[1], a[2], a[3], b[0], b[1], b[2], b[3],
                  a[8], a[9], a[10], a[11], b[8], b[9], b[10], b[11])
    ensures RowIs(Hi(4, a, b), a[4], a[5], a[6], a[7], b[4], b[5], b[6], b[7],
                  a[12], a[13], a[14], a[15], b[12], b[13], b[14], b[15])
  {
  }

  lemma Shuffle8(a: Register, b: Register)
    ensures RowIs(Lo(8, a, b), a[0], a[1], a[2], a[3], a[4], a[5], a[6], a[7],
                  b[0], b[1], b[2], b[3], b[4], b[5], b[6], b[7])
    ensures RowIs(Hi(8, a, b), a[8], a[9], a[10], a[11], a[12], a[13], a[14], a[15],
                  b[8], b[9], b[10], b[11], b[12], b[13], b[14], b[15])
  {
  }

  /** Six registers stored one after the other hold, lane by lane, one group of six lanes after the other. */
  ghost predicate Transposed(r4: Register, r5: Register, r6: Register, r7: Register, r8: Register, r9: Register,
                             s0: Register, s1: Register, s2: Register, s3: Register, s4: Register, s5: Register)
  {
    && RowIs(s0, r4[0], r5[0], r6[0], r7[0], r8[0], r9[0], r4[1], r5[1],
             r6[1], r7[1], r8[1], r9[1], r4[2], r5[2], r6[2], r7[2])
    && RowIs(s1, r8[2], r9[2], r4[3], r5[3], r6[3], r7[3], r8[3], r9[3],
             r4[4], r5[4], r6[4], r7[4], r8[4], r9[4], r4[5], r5[5])
    && RowIs(s2, r6[5], r7[5], r8[5], r9[5], r4[6], r5[6], r6[6], r7[6],
             r8[6], r9[6], r4[7], r5[7], r6[7], r7[7], r8[7], r9[7])
    && RowIs(s3, r4[8], r5[8], r6[8], r7[8], r8[8], r9[8], r4[9], r5[9],
             r6[9], r7[9], r8[9], r9[9], r4[10], r5[10], r6[10], r7[10])
    && RowIs(s4, r8[10], r9[10], r4[11], r5[11], r6[11], r7[11], r8[11], r9[11],
             r4[12], r5[12], r6[12], r7[12], r8[12], r9[12], r4[13], r5[13])
    && RowIs(s5, r6[13], r7[13], r8[13], r9[13], r4[14], r5[14], r6[14], r7[14],
             r8[14], r9[14], r4[15], r5[15], r6[15], r7[15], r8[15], r9[15])
  }

  /** The twelve shuffles before the store. */
  method Interleave(r4: Register, r5: Register, r6: Register, r7: Register, r8: Register, r9: Register)
    returns (s0: Register, s1: Register, s2: Register, s3: Register, s4: Register, s5: Register)
    ensures Transposed(r4, r5, r6, r7, r8, r9, s0, s1, s2, s3, s4, s5)
  {
    hide Lo, Hi;
    var ymm3, ymm4, ymm5, ymm6, ymm7, ymm8, ymm9 := r4, r4, r5, r6, r7, r8, r9;
    Shuffle1(ymm4, ymm5);
    ymm3, ymm5 := Lo(1, ymm4, ymm5), Hi(1, ymm4, ymm5);
    Shuffle1(ymm6, ymm7);
    ymm4, ymm7 := Lo(1, ymm6, ymm7), Hi(1, ymm6, ymm7);
    Shuffle1(ymm8, ymm9);
    ymm6, ymm9 := Lo(1, ymm8, ymm9), Hi(1, ymm8, ymm9);
    Shuffle2(ymm3, ymm4);
    ymm8, ymm4 := Lo(2, ymm3, ymm4), Hi(2, ymm3, ymm4);
    Shuffle2(ymm6, ymm5);
    ymm3, ymm5 := Lo(2, ymm6, ymm5), Hi(2, ymm6, ymm5);
    Shuffle2(ymm7, ymm9);
    ymm6, ymm9 := Lo(2, ymm7, ymm9), Hi(2, ymm7, ymm9);
    Shuffle4(ymm8, ymm3);
    ymm7, ymm3 := Lo(4, ymm8, ymm3), Hi(4, ymm8, ymm3);
    Shuffle4(ymm6, ymm4);
    ymm8, ymm4 := Lo(4, ymm6, ymm4), Hi(4, ymm6, ymm4);
    Shuffle4(ymm5, ymm9);
    ymm6, ymm9 := Lo(4, ymm5, ymm9), Hi(4, ymm5, ymm9);
    Shuffle8(ymm7, ymm8);
    ymm5, ymm8 := Lo(8, ymm7, ymm8), Hi(8, ymm7, ymm8);
    Shuffle8(ymm6, ymm3);
    ymm7, ymm3 := Lo(8, ymm6, ymm3), Hi(8, ymm6, ymm3);
    Shuffle8(ymm4, ymm9);
    ymm6, ymm9 := Lo(8, ymm4, ymm9), Hi(8, ymm4, ymm9);
    s0, s1, s2, s3, s4, s5 := ymm5, ymm7, ymm6, ymm8, ymm3, ymm9;
  }

  /** The twelve shuffles after the load: the same transposition read backwards. */
  method Separate(s0: Register, s1: Register, s2: Register, s3: Register, s4: Register, s5: Register)
    returns (r4: Register, r5: Register, r6: Register, r7: Register, r8: Register, r9: Register)
    ensures Transposed(r4, r5, r6, r7, r8, r9, s0, s1, s2, s3, s4, s5)
  {
    hide Lo, Hi;
    var ymm3, ymm4, ymm5, ymm6, ymm7, ymm8, ymm9, ymm10 := s0, s0, s1, s2, s3, s4, s5, s0;
    Shuffle8(ymm4, ymm7);
    ymm3, ymm7 := Lo(8, ymm4, ymm7), Hi(8, ymm4, ymm7);
    Shuffle8(ymm5, ymm8);
    ymm4, ymm8 := Lo(8, ymm5, ymm8), Hi(8, ymm5, ymm8);
    Shuffle8(ymm6, ymm9);
    ymm5, ymm9 := Lo(8, ymm6, ymm9), Hi(8, ymm6, ymm9);
    Shuffle4(ymm3, ymm8);
    ymm6, ymm8 := Lo(4, ymm3, ymm8), Hi(4, ymm3, ymm8);
    Shuffle4(ymm7, ymm5);
    ymm3, ymm5 := Lo(4, ymm7, ymm5), Hi(4, ymm7, ymm5);
    Shuffle4(ymm4, ymm9);
    ymm7, ymm9 := Lo(4, ymm4, ymm9), Hi(4, ymm4, ymm9);
    Shuffle2(ymm6, ymm5);
    ymm4, ymm5 := Lo(2, ymm6, ymm5), Hi(2, ymm6, ymm5);
    Shuffle2(ymm8, ymm7);
    ymm6, ymm7 := Lo(2, ymm8, ymm7), Hi(2, ymm8, ymm7);
    Shuffle2(ymm3, ymm9);
    ymm8, ymm9 := Lo(2, ymm3, ymm9), Hi(2, ymm3, ymm9);
    Shuffle1(ymm4, ymm7);
    ymm10, ymm7 := Lo(1, ymm4, ymm7), Hi(1, ymm4, ymm7);
    Shuffle1(ymm5, ymm8);
    ymm4, ymm8 := Lo(1, ymm5, ymm8), Hi(1, ymm5, ymm8);
    Shuffle1(ymm6, ymm9);
    ymm5, ymm9 := Lo(1, ymm6, ymm9), Hi(1, ymm6, ymm9);
    r4, r5, r6, r7, r8, r9 := ymm10, ymm7, ymm4, ymm8, ymm5, ymm9;
  }

  /** Lane x of six registers stored one after the other. */
  function Stored(s0: Register, s1: Register, s2: Register, s3: Register, s4: Register, s5: Register, x: nat): Lane
    requires x < 6 * LANES
  {
    if x < 16 then s0[x] else if x < 32 then s1[x - 16] else if x < 48 then s2[x - 32]
    else if x < 64 then s3[x - 48] else if x < 80 then s4[x - 64] else s5[x - 80]
  }

  /** Lane l of register j. */
  function Pick(r0: Register, r1: Register, r2: Register, r3: Register, r4: Register, r5: Register, j: nat,
                l: nat): Lane
    requires j < 6 && l < LANES
  {
    if j == 0 then r0[l] else if j == 1 then r1[l] else if j == 2 then r2[l]
    else if j == 3 then r3[l] else if j == 4 then r4[l] else r5[l]
  }

  /** The transposition as one formula. */
  lemma TransposedFormula(r4: Register, r5: Register, r6: Register, r7: Register, r8: Register, r9: Register,
                          s0: Register, s1: Register, s2: Register, s3: Register, s4: Register, s5: Register, l: nat,
                          j: nat)
    requires Transposed(r4, r5, r6, r7, r8, r9, s0, s1, s2, s3, s4, s5) && l < LANES && j < 6
    ensures Stored(s0, s1, s2, s3, s4, s5, 6 * l + j) == Pick(r4, r5, r6, r7, r8, r9, j, l)
  {
  }
}
