/** Kyber polynomials as byte strings, and back. */
module KyberBytes {
  import opened Arithmetic
  import opened Bytes
  import opened Words
  import opened KyberArithmetic
  import opened KyberPacking

  const HALF := 128
  const HALF_BYTES := 192
  const POLY_COEFFS := 256
  const POLY_BYTES := 384

  /** Bit p of the stream half a polynomial is written to: coefficient groups of eight, twelve bits each. */
  function StreamBit(c: seq<nat>, p: nat): bool
    requires |c| == HALF && p < 8 * HALF_BYTES
  {
    BitsOf(c[16 * (p / 12 % 8) + p / 96], COEFF_BITS)[p % 12]
  }

  function Bit(bytes: seq<Byte>, p: nat): bool
    requires p < 8 * |bytes|
  {
    bytes[p / 8][p % 8]
  }

  /** The twelve bits that hold coefficient q. */
  function CoeffBits(bytes: seq<Byte>, q: nat): (r: seq<bool>)
    requires |bytes| == HALF_BYTES && q < HALF
    ensures |r| == COEFF_BITS
    ensures forall b :: 0 <= b < COEFF_BITS ==> r[b] == Bit(bytes, 96 * (q % 16) + 12 * (q / 16) + b)
  {
    seq(COEFF_BITS, b requires 0 <= b < COEFF_BITS => Bit(bytes, 96 * (q % 16) + 12 * (q / 16) + b))
  }

  /** bytes are the serialization of the 128 canonical coefficients c. */
  ghost predicate Serializes(c: seq<nat>, bytes: seq<Byte>) {
    && |c| == HALF && |bytes| == HALF_BYTES
    && forall p :: 0 <= p < 8 * HALF_BYTES ==> Bit(bytes, p) == StreamBit(c, p)
  }

  /** c are the coefficients read from bytes. */
  ghost predicate Deserializes(bytes: seq<Byte>, c: seq<nat>) {
    && |c| == HALF && |bytes| == HALF_BYTES
    && forall q :: 0 <= q < HALF ==> c[q] == Value(CoeffBits(bytes, q))
  }

  // ---------------------------------------------------------------- the two relations are one

  lemma StreamPosition(l: nat, r: nat, b: nat)
    requires l < 16 && r < 8 && b < 12
    ensures var p := 96 * l + 12 * r + b; p < 8 * HALF_BYTES && p / 96 == l && p / 12 % 8 == r && p % 12 == b
  {
    var p := 96 * l + 12 * r + b;
    assert p == 12 * (8 * l + r) + b;
    assert p / 12 == 8 * l + r;
  }

  /** The bits of coefficient q, as written. */
  lemma CoeffBitsWritten(c: seq<nat>, bytes: seq<Byte>, q: nat)
    requires Serializes(c, bytes) && q < HALF
    ensures CoeffBits(bytes, q) == BitsOf(c[q], COEFF_BITS)
  {
    hide BitsOf, StreamBit, Bit;
    var l, r := q % 16, q / 16;
    forall b | 0 <= b < COEFF_BITS ensures CoeffBits(bytes, q)[b] == BitsOf(c[q], COEFF_BITS)[b] {
      StreamPosition(l, r, b);
      StreamBitAt(c, l, r, b);
    }
  }

  lemma StreamBitAt(c: seq<nat>, l: nat, r: nat, b: nat)
    requires |c| == HALF && l < 16 && r < 8 && b < 12
    ensures 96 * l + 12 * r + b < 8 * HALF_BYTES
    ensures StreamBit(c, 96 * l + 12 * r + b) == BitsOf(c[16 * r + l], COEFF_BITS)[b]
  {
    hide BitsOf;
    StreamPosition(l, r, b);
  }

  /** Reading back what was written gives the coefficients, for all 12-bit ones. */
  lemma RoundTrip(c: seq<nat>, bytes: seq<Byte>, d: seq<nat>)
    requires Serializes(c, bytes) && Deserializes(bytes, d) && forall i :: 0 <= i < |c| ==> c[i] < Power(COEFF_BITS)
    ensures d == c
  {
    hide BitsOf, StreamBit, Bit, CoeffBits, Value, Power;
    forall q | 0 <= q < HALF ensures d[q] == c[q] {
      CoeffBitsWritten(c, bytes, q);
      BitsValue(c[q], COEFF_BITS);
    }
  }

  /** Writing back what was read gives the bytes, for all byte strings. */
  lemma RoundTripBytes(bytes: seq<Byte>, c: seq<nat>, bytes': seq<Byte>)
    requires Deserializes(bytes, c) && Serializes(c, bytes')
    ensures bytes' == bytes
  {
    hide BitsOf, StreamBit, Bit, Value, Power;
    forall p | 0 <= p < 8 * HALF_BYTES ensures Bit(bytes', p) == Bit(bytes, p) {
      PositionSplit(p);
      var l, r, b := p / 96, p / 12 % 8, p % 12;
      SourceOfBit(bytes, c, l, r, b);
      StreamBitAt(c, l, r, b);
    }
    SameBits(bytes', bytes);
  }

  lemma SourceOfBit(bytes: seq<Byte>, c: seq<nat>, l: nat, r: nat, b: nat)
    requires Deserializes(bytes, c) && l < 16 && r < 8 && b < 12
    ensures 96 * l + 12 * r + b < 8 * HALF_BYTES
    ensures BitsOf(c[16 * r + l], COEFF_BITS)[b] == Bit(bytes, 96 * l + 12 * r + b)
  {
    hide BitsOf, Bit, Value, Power;
    var q := 16 * r + l;
    assert q % 16 == l && q / 16 == r;
    ValueBits(CoeffBits(bytes, q));
  }

  lemma PositionSplit(p: nat)
    requires p < 8 * HALF_BYTES
    ensures p / 96 < 16 && p == 96 * (p / 96) + 12 * (p / 12 % 8) + p % 12
  {
  }

  lemma SameBits(a: seq<Byte>, b: seq<Byte>)
    requires |a| == |b| && forall p :: 0 <= p < 8 * |a| ==> Bit(a, p) == Bit(b, p)
    ensures a == b
  {
    forall i | 0 <= i < |a| ensures a[i] == b[i] {
      forall j | 0 <= j < 8 ensures a[i][j] == b[i][j] {
        assert (8 * i + j) / 8 == i && (8 * i + j) % 8 == j;
        assert Bit(a, 8 * i + j) == Bit(b, 8 * i + j);
      }
    }
  }

  // ---------------------------------------------------------------- writing

  function Loaded(chunk: seq<nat>): (r: Register)
    requires |chunk| == LANES
    ensures forall l :: 0 <= l < LANES ==> r[l] == LaneBits(chunk[l])
  {
    seq(LANES, l requires 0 <= l < LANES => LaneBits(chunk[l]))
  }

  /** Register j of the loaded half: coefficients 16j .. 16j + 15. */
  function RegisterOf(c: seq<nat>, j: nat): (r: Register)
    requires |c| == HALF && j < 8
    ensures forall l :: 0 <= l < LANES ==> r[l] == LaneBits(c[16 * j + l])
  {
    Loaded(c[16 * j..16 * j + 16])
  }

  function LaneBits(n: nat): Lane {
    BitsOf(n, LANES)
  }

  ghost predicate TwelveBitLanes(r: Register) {
    forall l :: 0 <= l < LANES ==> TwelveBits(r[l])
  }

  /** The three packed registers of four. */
  ghost predicate PackedThree(c0: Register, c1: Register, c2: Register, c3: Register, w0: Register, w1: Register,
                              w2: Register)
  {
    forall l :: 0 <= l < LANES ==> PackedLane(c0[l], c1[l], c2[l], c3[l], w0[l], w1[l], w2[l])
  }

  ghost predicate PackedLane(c0: Lane, c1: Lane, c2: Lane, c3: Lane, w0: Lane, w1: Lane, w2: Lane) {
    && (forall b :: 0 <= b < LANES ==> w0[b] == if b < 12 then c0[b] else c1[b - 12])
    && (forall b :: 0 <= b < LANES ==> w1[b] == if b < 8 then c1[b + 4] else c2[b - 8])
    && (forall b :: 0 <= b < LANES ==> w2[b] == if b < 4 then c2[b + 8] else c3[b - 4])
  }

  /** The vector instructions act on all sixteen lanes alike. */
  method PackRegisters(c0: Register, c1: Register, c2: Register, c3: Register)
    returns (w0: Register, w1: Register, w2: Register)
    requires TwelveBitLanes(c0) && TwelveBitLanes(c1) && TwelveBitLanes(c2) && TwelveBitLanes(c3)
    ensures PackedThree(c0, c1, c2, c3, w0, w1, w2)
  {
    w0, w1, w2 := c0, c1, c2;
    for l := 0 to LANES
      invariant forall i :: 0 <= i < l ==> PackedLane(c0[i], c1[i], c2[i], c3[i], w0[i], w1[i], w2[i])
    {
      var x0, x1, x2 := BitPack(c0[l], c1[l], c2[l], c3[l]);
      w0, w1, w2 := w0[l := x0], w1[l := x1], w2[l := x2];
    }
  }

  /** Within three packed words, bit 16j + b belongs to coefficient (16j + b) / 12. */
  lemma ThreeWords(c0: Lane, c1: Lane, c2: Lane, c3: Lane, w0: Lane, w1: Lane, w2: Lane, j: nat, b: nat)
    requires PackedLane(c0, c1, c2, c3, w0, w1, w2) && j < 3 && b < LANES
    ensures var r, k := (16 * j + b) / 12, (16 * j + b) % 12;
            && r < 4
            && (if j == 0 then w0 else if j == 1 then w1 else w2)[b] ==
               (if r == 0 then c0 else if r == 1 then c1 else if r == 2 then c2 else c3)[k]
  {
  }

  /** Lane l, word j, bit b of the packed registers, as a bit of a coefficient. */
  lemma PackedBit(c: seq<nat>, w4: Register, w5: Register, w6: Register, w7: Register, w8: Register, w9: Register,
                  l: nat, j: nat, b: nat)
    requires |c| == HALF && l < LANES && j < 6 && b < LANES
    requires PackedThree(RegisterOf(c, 0), RegisterOf(c, 1), RegisterOf(c, 2), RegisterOf(c, 3), w4, w5, w6)
    requires PackedThree(RegisterOf(c, 4), RegisterOf(c, 5), RegisterOf(c, 6), RegisterOf(c, 7), w7, w8, w9)
    ensures (16 * j + b) / 12 < 8
    ensures Pick(w4, w5, w6, w7, w8, w9, j, l)[b] == LaneBits(c[16 * ((16 * j + b) / 12) + l])[(16 * j + b) % 12]
  {
    hide LaneBits, RegisterOf, PackedLane;
    if j < 3 {
      ThreeWords(RegisterOf(c, 0)[l], RegisterOf(c, 1)[l], RegisterOf(c, 2)[l], RegisterOf(c, 3)[l], w4[l], w5[l],
                 w6[l], j, b);
    } else {
      ThreeWords(RegisterOf(c, 4)[l], RegisterOf(c, 5)[l], RegisterOf(c, 6)[l], RegisterOf(c, 7)[l], w7[l], w8[l],
                 w9[l], j - 3, b);
    }
  }

  /** Stores six registers as 192 bytes, low byte first. */
  function StoredBytes(s0: Register, s1: Register, s2: Register, s3: Register, s4: Register,
                       s5: Register): (r: seq<Byte>)
    ensures |r| == HALF_BYTES
    ensures forall p :: 0 <= p < 8 * HALF_BYTES ==> Bit(r, p) == Stored(s0, s1, s2, s3, s4, s5, p / 16)[p % 16]
  {
    var r: seq<Byte> := seq(HALF_BYTES,
                            i requires 0 <= i < HALF_BYTES => ByteOf(Stored(s0, s1, s2, s3, s4, s5, i / 2), i % 2));
    assert forall p :: 0 <= p < 8 * HALF_BYTES ==> p / 8 / 2 == p / 16 && 8 * (p / 8 % 2) + p % 8 == p % 16;
    r
  }

  function ByteOf(w: Lane, half: nat): (r: Byte)
    requires half < 2
    ensures forall i :: 0 <= i < 8 ==> r[i] == w[8 * half + i]
  {
    w[8 * half..8 * half + 8]
  }

  /** Coefficients below 2q, made canonical. */
  ghost function Canonicalized(c: seq<int>): (r: seq<nat>)
    requires forall i :: 0 <= i < |c| ==> 0 <= c[i] < 2 * Q
    ensures |r| == |c| && forall i :: 0 <= i < |r| ==> r[i] < Q && r[i] == c[i] % Q
  {
    seq(|c|, i requires 0 <= i < |c| => c[i] % Q)
  }

  /** Each coefficient through csubq. */
  method CsubqAll(c: seq<int>) returns (r: seq<nat>)
    requires forall i :: 0 <= i < |c| ==> 0 <= c[i] < 2 * Q
    ensures r == Canonicalized(c)
  {
    r := [];
    for i := 0 to |c|
      invariant |r| == i
      invariant r == Canonicalized(c)[..i]
    {
      var x := Csubq(c[i]);
      r := r + [x];
    }
  }

  lemma CanonicalLanes(c: seq<nat>, j: nat)
    requires |c| == HALF && j < 8 && forall i :: 0 <= i < |c| ==> c[i] < Q
    ensures TwelveBitLanes(RegisterOf(c, j))
  {
    forall l | 0 <= l < LANES ensures TwelveBits(RegisterOf(c, j)[l]) {
      TwelveBitNumber(c[16 * j + l]);
    }
  }

  lemma TwelveBitNumber(n: nat)
    requires n < Q
    ensures n < Power(COEFF_BITS) && TwelveBits(LaneBits(n)) && LaneBits(n)[..COEFF_BITS] == BitsOf(n, COEFF_BITS)
  {
    assert Power(COEFF_BITS) == 4096;
    HighBitsZero(n, COEFF_BITS, LANES);
  }

  method NttToBytes128(coeffs: seq<int>) returns (bytes: seq<Byte>)
    requires |coeffs| == HALF && forall i :: 0 <= i < HALF ==> 0 <= coeffs[i] < 2 * Q
    ensures Serializes(Canonicalized(coeffs), bytes)
  {
    hide LaneBits, Transposed, PackedThree, Stored, Bit, StreamBit, TwelveBitLanes;
    var r := CsubqAll(coeffs);
    forall j | 0 <= j < 8 ensures TwelveBitLanes(RegisterOf(r, j)) { CanonicalLanes(r, j); }
    var w4, w5, w6 := PackRegisters(RegisterOf(r, 0), RegisterOf(r, 1), RegisterOf(r, 2), RegisterOf(r, 3));
    var w7, w8, w9 := PackRegisters(RegisterOf(r, 4), RegisterOf(r, 5), RegisterOf(r, 6), RegisterOf(r, 7));
    var s0, s1, s2, s3, s4, s5 := Interleave(w4, w5, w6, w7, w8, w9);
    bytes := StoredBytes(s0, s1, s2, s3, s4, s5);
    forall p | 0 <= p < 8 * HALF_BYTES ensures Bit(bytes, p) == StreamBit(r, p) {
      StreamOfStored(r, w4, w5, w6, w7, w8, w9, s0, s1, s2, s3, s4, s5, p);
    }
  }

  lemma StreamOfStored(c: seq<nat>, w4: Register, w5: Register, w6: Register, w7: Register, w8: Register, w9: Register,
                       s0: Register, s1: Register, s2: Register, s3: Register, s4: Register, s5: Register, p: nat)
    requires |c| == HALF && p < 8 * HALF_BYTES && forall i :: 0 <= i < |c| ==> c[i] < Q
    requires PackedThree(RegisterOf(c, 0), RegisterOf(c, 1), RegisterOf(c, 2), RegisterOf(c, 3), w4, w5, w6)
    requires PackedThree(RegisterOf(c, 4), RegisterOf(c, 5), RegisterOf(c, 6), RegisterOf(c, 7), w7, w8, w9)
    requires Transposed(w4, w5, w6, w7, w8, w9, s0, s1, s2, s3, s4, s5)
    ensures Stored(s0, s1, s2, s3, s4, s5, p / 16)[p % 16] == StreamBit(c, p)
  {
    hide BitsOf, LaneBits, Transposed, PackedThree, Stored, Pick, RegisterOf;
    var l, j, b := p / 96, p / 16 % 6, p % 16;
    WordPosition(p);
    TransposedFormula(w4, w5, w6, w7, w8, w9, s0, s1, s2, s3, s4, s5, l, j);
    PackedBit(c, w4, w5, w6, w7, w8, w9, l, j, b);
    LanePrefix(c[16 * (p / 12 % 8) + l], p % 12);
  }

  lemma LanePrefix(n: nat, q: nat)
    requires n < Q && q < COEFF_BITS
    ensures LaneBits(n)[q] == BitsOf(n, COEFF_BITS)[q]
  {
    hide LaneBits, BitsOf;
    TwelveBitNumber(n);
    assert LaneBits(n)[q] == LaneBits(n)[..COEFF_BITS][q];
  }

  /** Word and bit of a stream position, and the coefficient it belongs to. */
  lemma WordPosition(p: nat)
    requires p < 8 * HALF_BYTES
    ensures var l, j, b := p / 96, p / 16 % 6, p % 16;
            l < 16 && p / 16 == 6 * l + j && (16 * j + b) / 12 == p / 12 % 8 && (16 * j + b) % 12 == p % 12
  {
    var l := p / 96;
    var u := p - 96 * l;
    var j, b := u / 16, u % 16;
    assert p == 96 * l + u && u == 16 * j + b;
    assert p / 16 == 6 * l + j by { DivUnique(p, 16, 6 * l + j, b); }
    assert p % 16 == b by { DivUnique(p, 16, 6 * l + j, b); }
    assert p / 12 == 8 * l + u / 12 && p % 12 == u % 12 by { DivUnique(p, 12, 8 * l + u / 12, u % 12); }
    DivUnique(6 * l + j, 6, l, j);
    DivUnique(8 * l + u / 12, 8, l, u / 12);
  }

  // ---------------------------------------------------------------- reading

  /** Sixteen words from 32 bytes, low byte first. */
  function LoadRegister(chunk: seq<Byte>): (r: Register)
    requires |chunk| == 2 * LANES
    ensures forall i, b :: 0 <= i < LANES && 0 <= b < LANES ==> r[i][b] == chunk[2 * i + b / 8][b % 8]
  {
    seq(LANES, i requires 0 <= i < LANES => WordOf(chunk[2 * i], chunk[2 * i + 1]))
  }

  function WordOf(low: Byte, high: Byte): (w: Lane)
    ensures forall b :: 0 <= b < LANES ==> w[b] == if b < 8 then low[b] else high[b - 8]
  {
    low + high
  }

  ghost predicate UnpackedThree(w0: Register, w1: Register, w2: Register, c0: Register, c1: Register, c2: Register,
                                c3: Register)
  {
    forall l :: 0 <= l < LANES ==> UnpackedLane(w0[l], w1[l], w2[l], c0[l], c1[l], c2[l], c3[l])
  }

  ghost predicate UnpackedLane(w0: Lane, w1: Lane, w2: Lane, c0: Lane, c1: Lane, c2: Lane, c3: Lane) {
    && (forall b :: 0 <= b < LANES ==> c0[b] == (b < 12 && w0[b]))
    && (forall b :: 0 <= b < LANES ==> c1[b] == (b < 12 && if b < 4 then w0[b + 12] else w1[b - 4]))
    && (forall b :: 0 <= b < LANES ==> c2[b] == (b < 12 && if b < 8 then w1[b + 8] else w2[b - 8]))
    && (forall b :: 0 <= b < LANES ==> c3[b] == (b < 12 && w2[b + 4]))
  }

  method UnpackRegisters(w0: Register, w1: Register, w2: Register)
    returns (c0: Register, c1: Register, c2: Register, c3: Register)
    ensures UnpackedThree(w0, w1, w2, c0, c1, c2, c3)
  {
    c0, c1, c2, c3 := w0, w0, w0, w0;
    for l := 0 to LANES
      invariant forall i :: 0 <= i < l ==> UnpackedLane(w0[i], w1[i], w2[i], c0[i], c1[i], c2[i], c3[i])
    {
      var x0, x1, x2, x3 := BitUnpack(w0[l], w1[l], w2[l]);
      c0, c1, c2, c3 := c0[l := x0], c1[l := x1], c2[l := x2], c3[l := x3];
    }
  }

  /** Within three words, bit k of coefficient r is bit 12r + k. */
  lemma FourCoefficients(w0: Lane, w1: Lane, w2: Lane, c0: Lane, c1: Lane, c2: Lane, c3: Lane, r: nat, k: nat)
    requires UnpackedLane(w0, w1, w2, c0, c1, c2, c3) && r < 4 && k < COEFF_BITS
    ensures var j, b := (12 * r + k) / 16, (12 * r + k) % 16;
            && j < 3
            && (if r == 0 then c0 else if r == 1 then c1 else if r == 2 then c2 else c3)[k] ==
               (if j == 0 then w0 else if j == 1 then w1 else w2)[b]
  {
  }

  lemma {:induction false} ValuePrefix(w: seq<bool>, k: nat)
    requires k <= |w| && forall i :: k <= i < |w| ==> !w[i]
    ensures Value(w) == Value(w[..k])
  {
    if k == 0 {
      if w != [] {
        ValuePrefix(w[1..], 0);
        assert w[1..][..0] == [];
      }
    } else {
      ValuePrefix(w[1..], k - 1);
      assert w[..k][1..] == w[1..][..k - 1];
    }
  }

  /** The eight coefficient registers, stored one after the other. */
  function StoredCoeffs(c0: Register, c1: Register, c2: Register, c3: Register,
                        c4: Register, c5: Register, c6: Register, c7: Register): (c: seq<nat>)
    ensures |c| == HALF
    ensures forall l, r :: 0 <= l < LANES && 0 <= r < 8 ==>
              c[16 * r + l] == Value(PickCoeff(c0, c1, c2, c3, c4, c5, c6, c7, r, l))
  {
    seq(HALF, q requires 0 <= q < HALF => Value(PickCoeff(c0, c1, c2, c3, c4, c5, c6, c7, q / 16, q % 16)))
  }

  function PickCoeff(c0: Register, c1: Register, c2: Register, c3: Register, c4: Register, c5: Register, c6: Register,
                     c7: Register, r: nat, l: nat): Lane
    requires r < 8 && l < LANES
  {
    if r == 0 then c0[l] else if r == 1 then c1[l] else if r == 2 then c2[l] else if r == 3 then c3[l]
    else if r == 4 then c4[l] else if r == 5 then c5[l] else if r == 6 then c6[l] else c7[l]
  }

  method NttFromBytes128(bytes: seq<Byte>) returns (coeffs: seq<nat>)
    requires |bytes| == HALF_BYTES
    ensures Deserializes(bytes, coeffs)
  {
    hide Bit, UnpackedThree, Transposed, Value, LoadRegister;
    var s0, s1, s2 := LoadRegister(bytes[0..32]), LoadRegister(bytes[32..64]), LoadRegister(bytes[64..96]);
    var s3, s4, s5 := LoadRegister(bytes[96..128]), LoadRegister(bytes[128..160]), LoadRegister(bytes[160..192]);
    var w4, w5, w6, w7, w8, w9 := Separate(s0, s1, s2, s3, s4, s5);
    var c0, c1, c2, c3 := UnpackRegisters(w4, w5, w6);
    var c4, c5, c6, c7 := UnpackRegisters(w7, w8, w9);
    coeffs := StoredCoeffs(c0, c1, c2, c3, c4, c5, c6, c7);
    forall q | 0 <= q < HALF ensures coeffs[q] == Value(CoeffBits(bytes, q)) {
      ReadCoefficient(bytes, w4, w5, w6, w7, w8, w9, s0, s1, s2, s3, s4, s5, c0, c1, c2, c3, c4, c5, c6, c7, q % 16,
                      q / 16);
    }
  }

  /** Stored word x holds bits 16x .. 16x + 15 of the stream. */
  lemma LoadedBit(bytes: seq<Byte>, s0: Register, s1: Register, s2: Register, s3: Register, s4: Register, s5: Register,
                  x: nat, b: nat)
    requires |bytes| == HALF_BYTES && x < 6 * LANES && b < LANES
    requires s0 == LoadRegister(bytes[0..32]) && s1 == LoadRegister(bytes[32..64]) && s2 == LoadRegister(bytes[64..96])
    requires s3 == LoadRegister(bytes[96..128]) && s4 == LoadRegister(bytes[128..160])
    requires s5 == LoadRegister(bytes[160..192])
    ensures 16 * x + b < 8 * HALF_BYTES && Stored(s0, s1, s2, s3, s4, s5, x)[b] == Bit(bytes, 16 * x + b)
  {
    hide LoadRegister, Stored;
    var m := x / 16;
    DivUnique(16 * x + b, 8, 2 * x + b / 8, b % 8);
    StoredAt(s0, s1, s2, s3, s4, s5, x);
    LoadedRegister(bytes, s0, s1, s2, s3, s4, s5, m);
    ChunkByte(bytes, 32 * m, 2 * (x - 16 * m) + b / 8);
  }

  /** Stored word x is word x % 16 of register x / 16. */
  lemma StoredAt(s0: Register, s1: Register, s2: Register, s3: Register, s4: Register, s5: Register, x: nat)
    requires x < 6 * LANES
    ensures Stored(s0, s1, s2, s3, s4, s5, x) == [s0, s1, s2, s3, s4, s5][x / 16][x - 16 * (x / 16)]
  {
  }

  lemma LoadedRegister(bytes: seq<Byte>, s0: Register, s1: Register, s2: Register, s3: Register, s4: Register,
                       s5: Register, m: nat)
    requires |bytes| == HALF_BYTES && m < 6
    requires s0 == LoadRegister(bytes[0..32]) && s1 == LoadRegister(bytes[32..64]) && s2 == LoadRegister(bytes[64..96])
    requires s3 == LoadRegister(bytes[96..128]) && s4 == LoadRegister(bytes[128..160])
    requires s5 == LoadRegister(bytes[160..192])
    ensures [s0, s1, s2, s3, s4, s5][m] == LoadRegister(bytes[32 * m..32 * m + 32])
  {
    hide LoadRegister;
  }

  lemma ChunkByte(bytes: seq<Byte>, start: nat, k: nat)
    requires start + 32 <= |bytes| && k < 32
    ensures bytes[start..start + 32][k] == bytes[start + k]
  {
  }

  lemma ReadCoefficient(bytes: seq<Byte>, w4: Register, w5: Register, w6: Register, w7: Register, w8: Register,
                        w9: Register, s0: Register, s1: Register, s2: Register, s3: Register, s4: Register,
                        s5: Register, c0: Register, c1: Register, c2: Register, c3: Register, c4: Register,
                        c5: Register, c6: Register, c7: Register, l: nat, r: nat)
    requires |bytes| == HALF_BYTES && l < LANES && r < 8
    requires s0 == LoadRegister(bytes[0..32]) && s1 == LoadRegister(bytes[32..64]) && s2 == LoadRegister(bytes[64..96])
    requires s3 == LoadRegister(bytes[96..128]) && s4 == LoadRegister(bytes[128..160])
    requires s5 == LoadRegister(bytes[160..192])
    requires Transposed(w4, w5, w6, w7, w8, w9, s0, s1, s2, s3, s4, s5)
    requires UnpackedThree(w4, w5, w6, c0, c1, c2, c3) && UnpackedThree(w7, w8, w9, c4, c5, c6, c7)
    ensures Value(PickCoeff(c0, c1, c2, c3, c4, c5, c6, c7, r, l)) == Value(CoeffBits(bytes, 16 * r + l))
  {
    hide Bit, Transposed, Value, LoadRegister, Stored, UnpackedLane, Pick, PickCoeff, UnpackedThree;
    var lane := PickCoeff(c0, c1, c2, c3, c4, c5, c6, c7, r, l);
    CoeffLane(w4, w5, w6, w7, w8, w9, c0, c1, c2, c3, c4, c5, c6, c7, l, r);
    forall b | 0 <= b < COEFF_BITS ensures lane[b] == CoeffBits(bytes, 16 * r + l)[b] {
      CoeffLaneBit(w4, w5, w6, w7, w8, w9, c0, c1, c2, c3, c4, c5, c6, c7, l, r, b);
      var j, k := (12 * r + b) / 16, (12 * r + b) % 16;
      TransposedFormula(w4, w5, w6, w7, w8, w9, s0, s1, s2, s3, s4, s5, l, j);
      LoadedBit(bytes, s0, s1, s2, s3, s4, s5, 6 * l + j, k);
      CoeffPosition(l, r, b);
    }
    assert lane[..COEFF_BITS] == CoeffBits(bytes, 16 * r + l);
    ValuePrefix(lane, COEFF_BITS);
  }

  /** Where bit b of coefficient 16r + l stands in the stream, and where in the words. */
  lemma CoeffPosition(l: nat, r: nat, b: nat)
    requires l < LANES && r < 8 && b < COEFF_BITS
    ensures var q, j, k := 16 * r + l, (12 * r + b) / 16, (12 * r + b) % 16;
            16 * (6 * l + j) + k == 96 * (q % 16) + 12 * (q / 16) + b
  {
    assert (16 * r + l) % 16 == l && (16 * r + l) / 16 == r;
    assert 16 * ((12 * r + b) / 16) + (12 * r + b) % 16 == 12 * r + b;
  }

  lemma CoeffLane(w4: Register, w5: Register, w6: Register, w7: Register, w8: Register, w9: Register, c0: Register,
                  c1: Register, c2: Register, c3: Register, c4: Register, c5: Register, c6: Register, c7: Register,
                  l: nat, r: nat)
    requires UnpackedThree(w4, w5, w6, c0, c1, c2, c3) && UnpackedThree(w7, w8, w9, c4, c5, c6, c7) && l < LANES
    requires r < 8
    ensures TwelveBits(PickCoeff(c0, c1, c2, c3, c4, c5, c6, c7, r, l))
  {
    assert UnpackedLane(w4[l], w5[l], w6[l], c0[l], c1[l], c2[l], c3[l]);
    assert UnpackedLane(w7[l], w8[l], w9[l], c4[l], c5[l], c6[l], c7[l]);
  }

  lemma CoeffLaneBit(w4: Register, w5: Register, w6: Register, w7: Register, w8: Register, w9: Register, c0: Register,
                     c1: Register, c2: Register, c3: Register, c4: Register, c5: Register, c6: Register, c7: Register,
                     l: nat, r: nat, b: nat)
    requires UnpackedThree(w4, w5, w6, c0, c1, c2, c3) && UnpackedThree(w7, w8, w9, c4, c5, c6, c7)
    requires l < LANES && r < 8 && b < COEFF_BITS
    ensures (12 * r + b) / 16 < 6
    ensures PickCoeff(c0, c1, c2, c3, c4, c5, c6, c7, r, l)[b] ==
            Pick(w4, w5, w6, w7, w8, w9, (12 * r + b) / 16, l)[(12 * r + b) % 16]
  {
    hide UnpackedLane;
    if r < 4 {
      FourCoefficients(w4[l], w5[l], w6[l], c0[l], c1[l], c2[l], c3[l], r, b);
    } else {
      FourCoefficients(w7[l], w8[l], w9[l], c4[l], c5[l], c6[l], c7[l], r - 4, b);
    }
  }
}
