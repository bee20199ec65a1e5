/** The Kyber-based Endemic oblivious transfer: the key the sender rebuilds is the receiver's. */
module EndemicOT {
  import opened Bytes
  import opened KyberArithmetic
  import opened KyberPacking
  import opened KyberBytes

  const KYBER_K := 3
  const POLYVEC_BYTES := 1152
  const SYM_BYTES := 32
  const PK_BYTES := 1184

  type PolyVec = seq<seq<int>>

  ghost predicate Shaped(v: PolyVec) {
    |v| == KYBER_K && forall i :: 0 <= i < KYBER_K ==> |v[i]| == POLY_COEFFS
  }

  /** Every coefficient of polynomial vector v lies in [lo, hi). */
  ghost predicate Within(v: PolyVec, lo: int, hi: int)
    requires Shaped(v)
  {
    forall i, j :: 0 <= i < KYBER_K && 0 <= j < POLY_COEFFS ==> lo <= v[i][j] < hi
  }

  ghost predicate Canonicals(v: PolyVec) {
    Shaped(v) && Within(v, 0, Q)
  }

  // ---------------------------------------------------------------- one polynomial

  ghost predicate PolyWritten(c: seq<nat>, bytes: seq<Byte>) {
    && |c| == POLY_COEFFS && |bytes| == POLY_BYTES
    && Serializes(c[..HALF], bytes[..HALF_BYTES]) && Serializes(c[HALF..], bytes[HALF_BYTES..])
  }

  ghost predicate PolyRead(bytes: seq<Byte>, c: seq<nat>) {
    && |c| == POLY_COEFFS && |bytes| == POLY_BYTES
    && Deserializes(bytes[..HALF_BYTES], c[..HALF]) && Deserializes(bytes[HALF_BYTES..], c[HALF..])
  }

  method PolyToBytes(a: seq<int>) returns (r: seq<Byte>)
    requires |a| == POLY_COEFFS && forall j :: 0 <= j < POLY_COEFFS ==> 0 <= a[j] < 2 * Q
    ensures PolyWritten(Canonicalized(a), r)
  {
    hide Serializes;
    ghost var c := Canonicalized(a);
    var r0 := NttToBytes128(a[..HALF]);
    var r1 := NttToBytes128(a[HALF..]);
    r := r0 + r1;
    assert c[..HALF] == Canonicalized(a[..HALF]) && c[HALF..] == Canonicalized(a[HALF..]);
    WrittenSizes(c[..HALF], r0);
    assert r[..HALF_BYTES] == r0 && r[HALF_BYTES..] == r1;
    WrittenSizes(c[HALF..], r1);
  }

  lemma WrittenSizes(c: seq<nat>, bytes: seq<Byte>)
    requires Serializes(c, bytes)
    ensures |c| == HALF && |bytes| == HALF_BYTES
  {
  }

  method PolyFromBytes(a: seq<Byte>) returns (r: seq<nat>)
    requires |a| == POLY_BYTES
    ensures PolyRead(a, r)
  {
    hide Deserializes;
    var c0 := NttFromBytes128(a[..HALF_BYTES]);
    var c1 := NttFromBytes128(a[HALF_BYTES..]);
    ReadSizes(a[..HALF_BYTES], c0);
    ReadSizes(a[HALF_BYTES..], c1);
    r := c0 + c1;
    assert r[..HALF] == c0 && r[HALF..] == c1;
  }

  lemma ReadSizes(bytes: seq<Byte>, c: seq<nat>)
    requires Deserializes(bytes, c)
    ensures |c| == HALF && |bytes| == HALF_BYTES
  {
  }

  /** What is read from a byte string has twelve bits. */
  lemma ReadRange(bytes: seq<Byte>, c: seq<nat>)
    requires PolyRead(bytes, c)
    ensures forall j :: 0 <= j < POLY_COEFFS ==> c[j] < 4096
  {
    hide CoeffBits;
    assert Power(COEFF_BITS) == 4096;
    forall j | 0 <= j < POLY_COEFFS ensures c[j] < 4096 {
      if j < HALF {
        ValueBits(CoeffBits(bytes[..HALF_BYTES], j));
        assert c[..HALF][j] == c[j];
      } else {
        ValueBits(CoeffBits(bytes[HALF_BYTES..], j - HALF));
        assert c[HALF..][j - HALF] == c[j];
      }
    }
  }

  lemma PolyRoundTrip(c: seq<nat>, bytes: seq<Byte>, d: seq<nat>)
    requires PolyWritten(c, bytes) && PolyRead(bytes, d) && forall j :: 0 <= j < |c| ==> c[j] < Q
    ensures d == c
  {
    hide Serializes, Deserializes;
    assert Power(COEFF_BITS) == 4096;
    RoundTrip(c[..HALF], bytes[..HALF_BYTES], d[..HALF]);
    RoundTrip(c[HALF..], bytes[HALF_BYTES..], d[HALF..]);
    assert d == d[..HALF] + d[HALF..] && c == c[..HALF] + c[HALF..];
  }

  lemma PolyUnique(c: seq<nat>, r: seq<Byte>, r': seq<Byte>)
    requires PolyWritten(c, r) && PolyWritten(c, r')
    ensures r == r'
  {
    hide StreamBit;
    SameBits(r[..HALF_BYTES], r'[..HALF_BYTES]);
    SameBits(r[HALF_BYTES..], r'[HALF_BYTES..]);
    assert r == r[..HALF_BYTES] + r[HALF_BYTES..] && r' == r'[..HALF_BYTES] + r'[HALF_BYTES..];
  }

  method PolyAdd(a: seq<int>, b: seq<int>) returns (r: seq<int>)
    requires |a| == |b| == POLY_COEFFS
    ensures |r| == POLY_COEFFS && forall j :: 0 <= j < POLY_COEFFS ==> r[j] == Wrap16(a[j] + b[j])
  {
    r := [];
    for i := 0 to POLY_COEFFS
      invariant |r| == i && forall j :: 0 <= j < i ==> r[j] == Wrap16(a[j] + b[j])
    {
      r := r + [Wrap16(a[i] + b[i])];
    }
  }

  method PolySub(a: seq<int>, b: seq<int>) returns (r: seq<int>)
    requires |a| == |b| == POLY_COEFFS
    ensures |r| == POLY_COEFFS && forall j :: 0 <= j < POLY_COEFFS ==> r[j] == Wrap16(a[j] - b[j])
  {
    r := [];
    for i := 0 to POLY_COEFFS
      invariant |r| == i && forall j :: 0 <= j < i ==> r[j] == Wrap16(a[j] - b[j])
    {
      r := r + [Wrap16(a[i] - b[i])];
    }
  }

  method PolyReduce(a: seq<int>) returns (r: seq<int>)
    requires |a| == POLY_COEFFS && forall j :: 0 <= j < POLY_COEFFS ==> Int16(a[j])
    ensures |r| == POLY_COEFFS && forall j :: 0 <= j < POLY_COEFFS ==> r[j] == Reduced(a[j]) && 0 <= r[j] <= Q
  {
    hide Reduced;
    r := [];
    for i := 0 to POLY_COEFFS
      invariant |r| == i && forall j :: 0 <= j < i ==> r[j] == Reduced(a[j]) && 0 <= r[j] <= Q
    {
      var x := Red16(a[i]);
      QuotientBounds(a[i]);
      r := r + [x];
    }
  }

  // ---------------------------------------------------------------- vectors of polynomials

  /** The slice of polynomial i. */
  function PolySlice(bytes: seq<Byte>, i: nat): (r: seq<Byte>)
    requires |bytes| >= POLYVEC_BYTES && i < KYBER_K
    ensures |r| == POLY_BYTES
  {
    bytes[POLY_BYTES * i..POLY_BYTES * i + POLY_BYTES]
  }

  /** The first bytes of a key are v, canonically. */
  ghost predicate VecWritten(v: seq<seq<nat>>, bytes: seq<Byte>) {
    && |v| == KYBER_K && |bytes| >= POLYVEC_BYTES
    && forall i :: 0 <= i < KYBER_K ==> PolyWritten(v[i], PolySlice(bytes, i))
  }

  ghost predicate VecRead(bytes: seq<Byte>, v: seq<seq<nat>>) {
    && |v| == KYBER_K && |bytes| >= POLYVEC_BYTES
    && forall i :: 0 <= i < KYBER_K ==> PolyRead(PolySlice(bytes, i), v[i])
  }

  method PolyvecFromBytes(a: seq<Byte>) returns (r: seq<seq<nat>>)
    requires |a| >= POLYVEC_BYTES
    ensures VecRead(a, r)
  {
    hide PolyRead;
    r := [];
    for i := 0 to KYBER_K
      invariant |r| == i && forall k :: 0 <= k < i ==> PolyRead(PolySlice(a, k), r[k])
    {
      var p := PolyFromBytes(PolySlice(a, i));
      r := r + [p];
    }
  }

  /** pack_pk: the serialized vector, then the seed. */
  method PackPk(v: PolyVec, seed: seq<Byte>) returns (r: seq<Byte>, ghost c: seq<seq<nat>>)
    requires Shaped(v) && Within(v, 0, 2 * Q) && |seed| == SYM_BYTES
    ensures |r| == PK_BYTES && r[POLYVEC_BYTES..] == seed && VecWritten(c, r)
    ensures Shaped(c)
    ensures forall i, j :: 0 <= i < KYBER_K && 0 <= j < POLY_COEFFS ==> c[i][j] == v[i][j] % Q
  {
    hide PolyWritten;
    r, c := [], [];
    for i := 0 to KYBER_K
      invariant |r| == POLY_BYTES * i && |c| == i
      invariant forall k :: 0 <= k < i ==>
                  |c[k]| == POLY_COEFFS && PolyWritten(c[k], r[POLY_BYTES * k..POLY_BYTES * k + POLY_BYTES])
      invariant forall k, j :: 0 <= k < i && 0 <= j < POLY_COEFFS ==> c[k][j] == v[k][j] % Q
    {
      var p := PolyToBytes(v[i]);
      ghost var d := Canonicalized(v[i]);
      WrittenPolySize(d, p);
      ghost var before := r;
      r, c := r + p, c + [d];
      forall k | 0 <= k < i + 1 ensures PolyWritten(c[k], r[POLY_BYTES * k..POLY_BYTES * k + POLY_BYTES]) {
        if k < i {
          assert r[POLY_BYTES * k..POLY_BYTES * k + POLY_BYTES] == before[POLY_BYTES * k..POLY_BYTES * k + POLY_BYTES];
        } else {
          assert r[POLY_BYTES * i..POLY_BYTES * i + POLY_BYTES] == p;
        }
      }
    }
    ghost var body := r;
    for i := 0 to SYM_BYTES
      invariant r == body + seed[..i]
    {
      r := r + [seed[i]];
    }
    assert seed[..SYM_BYTES] == seed;
    forall k | 0 <= k < KYBER_K ensures PolyWritten(c[k], PolySlice(r, k)) {
      assert PolySlice(r, k) == body[POLY_BYTES * k..POLY_BYTES * k + POLY_BYTES];
    }
  }

  lemma WrittenPolySize(c: seq<nat>, bytes: seq<Byte>)
    requires PolyWritten(c, bytes)
    ensures |c| == POLY_COEFFS && |bytes| == POLY_BYTES
  {
  }

  /** Polynomial by polynomial: add or subtract, then reduce. */
  method PolyvecCombine(a: PolyVec, b: PolyVec, subtract: bool) returns (r: PolyVec)
    requires Shaped(a) && Shaped(b)
    ensures Shaped(r) && Within(r, 0, Q + 1)
    ensures forall i, j :: 0 <= i < KYBER_K && 0 <= j < POLY_COEFFS ==>
              r[i][j] == Reduced(Wrap16(if subtract then a[i][j] - b[i][j] else a[i][j] + b[i][j]))
  {
    hide Reduced;
    r := [];
    for i := 0 to KYBER_K
      invariant |r| == i && forall k :: 0 <= k < i ==> |r[k]| == POLY_COEFFS
      invariant forall k, j :: 0 <= k < i && 0 <= j < POLY_COEFFS ==>
                  && 0 <= r[k][j] <= Q
                  && r[k][j] == Reduced(Wrap16(if subtract then a[k][j] - b[k][j] else a[k][j] + b[k][j]))
    {
      var p;
      if subtract { p := PolySub(a[i], b[i]); } else { p := PolyAdd(a[i], b[i]); }
      p := PolyReduce(p);
      r := r + [p];
    }
  }

  // ---------------------------------------------------------------- keys

  /** A reduced sum or difference of two twelve-bit numbers, written canonically, is its residue modulo q:
      nothing wraps. */
  lemma WrittenResidue(x: nat, y: nat)
    requires x < 4096 && y < 4096
    ensures Reduced(Wrap16(x - y)) % Q == (x - y) % Q
    ensures Reduced(Wrap16(x + y)) % Q == (x + y) % Q
  {
    hide Reduced;
    ReducedResidue(x - y);
    ReducedResidue(x + y);
  }

  lemma ReducedResidue(r: int)
    requires Int16(r)
    ensures Reduced(r) % Q == r % Q
  {
    hide Reduced;
    QuotientBounds(r);
    CanonicalIsResidue(r);
  }

  /** pkMinus and pkPlus, for any two byte strings: coefficientwise modulo q on what is read, canonical in
      what is written, and the seed is that of the first key. */
  method PkCombine(pk1: seq<Byte>, pk2: seq<Byte>, subtract: bool)
    returns (pk: seq<Byte>, ghost v1: seq<seq<nat>>, ghost v2: seq<seq<nat>>, ghost c: seq<seq<nat>>)
    requires |pk1| == |pk2| == PK_BYTES
    ensures |pk| == PK_BYTES && pk[POLYVEC_BYTES..] == pk1[POLYVEC_BYTES..]
    ensures VecRead(pk1, v1) && VecRead(pk2, v2) && VecWritten(c, pk)
    ensures Shaped(v1) && Shaped(v2) && Shaped(c)
    ensures forall i, j :: 0 <= i < KYBER_K && 0 <= j < POLY_COEFFS ==>
              c[i][j] == (if subtract then v1[i][j] - v2[i][j] else v1[i][j] + v2[i][j]) % Q
  {
    hide PolyRead, PolyWritten, Reduced;
    var seed := pk1[POLYVEC_BYTES..];
    var pkpv1 := PolyvecFromBytes(pk1);
    var pkpv2 := PolyvecFromBytes(pk2);
    ReadShaped(pk1, pkpv1);
    ReadShaped(pk2, pkpv2);
    var r := PolyvecCombine(pkpv1, pkpv2, subtract);
    pk, c := PackPk(r, seed);
    v1, v2 := pkpv1, pkpv2;
    forall i, j | 0 <= i < KYBER_K && 0 <= j < POLY_COEFFS
      ensures c[i][j] == (if subtract then v1[i][j] - v2[i][j] else v1[i][j] + v2[i][j]) % Q
    {
      WrittenResidue(v1[i][j], v2[i][j]);
    }
  }

  lemma ReadShaped(bytes: seq<Byte>, v: seq<seq<nat>>)
    requires VecRead(bytes, v)
    ensures Shaped(v) && Within(v, 0, 4096)
  {
    forall i | 0 <= i < KYBER_K
      ensures |v[i]| == POLY_COEFFS && forall j :: 0 <= j < POLY_COEFFS ==> 0 <= v[i][j] < 4096
    {
      ReadRange(PolySlice(bytes, i), v[i]);
    }
  }

  lemma VecRoundTrip(v: seq<seq<nat>>, bytes: seq<Byte>, d: seq<seq<nat>>)
    requires VecWritten(v, bytes) && VecRead(bytes, d) && Canonicals(v)
    ensures d == v
  {
    hide PolyRead, PolyWritten;
    forall i | 0 <= i < KYBER_K ensures d[i] == v[i] {
      PolyRoundTrip(v[i], PolySlice(bytes, i), d[i]);
    }
  }

  lemma VecUnique(v: seq<seq<nat>>, r: seq<Byte>, r': seq<Byte>)
    requires VecWritten(v, r) && VecWritten(v, r') && |r| == |r'| == PK_BYTES
    requires r[POLYVEC_BYTES..] == r'[POLYVEC_BYTES..]
    ensures r == r'
  {
    hide PolyWritten;
    forall i | 0 <= i < KYBER_K ensures PolySlice(r, i) == PolySlice(r', i) {
      PolyUnique(v[i], PolySlice(r, i), PolySlice(r', i));
    }
    assert r == PolySlice(r, 0) + PolySlice(r, 1) + PolySlice(r, 2) + r[POLYVEC_BYTES..];
    assert r' == PolySlice(r', 0) + PolySlice(r', 1) + PolySlice(r', 2) + r'[POLYVEC_BYTES..];
  }

  /** Hash to a seed, and expansion of a seed to one row of the matrix: both arbitrary, the expansion canonical. */
  datatype Oracles = Oracles(hashH: seq<Byte> -> seq<Byte>, expand: seq<Byte> -> seq<seq<nat>>) {
    ghost predicate Sound() {
      forall s :: Canonicals(expand(s))
    }
  }

  method RandomPK(o: Oracles, seed1: seq<Byte>, seed2: seq<Byte>) returns (pk: seq<Byte>)
    requires o.Sound() && |seed2| == SYM_BYTES
    ensures |pk| == PK_BYTES && pk[POLYVEC_BYTES..] == seed2 && VecWritten(o.expand(seed1), pk)
  {
    hide PolyWritten;
    var a := o.expand(seed1);
    assert Canonicals(a);
    ghost var c;
    pk, c := PackPk(a, seed2);
    forall i | 0 <= i < KYBER_K ensures c[i] == a[i] {
      assert forall j :: 0 <= j < POLY_COEFFS ==> c[i][j] == a[i][j];
    }
    assert c == a;
  }

  /** pkHash: hash the key's polynomial part, expand, and attach the given seed. */
  method PkHash(o: Oracles, pk: seq<Byte>, pkSeed: seq<Byte>) returns (output: seq<Byte>)
    requires o.Sound() && |pk| == PK_BYTES && |pkSeed| == SYM_BYTES
    ensures |output| == PK_BYTES && output[POLYVEC_BYTES..] == pkSeed
    ensures VecWritten(o.expand(o.hashH(pk[..POLYVEC_BYTES])), output)
  {
    var rawHashOutput := o.hashH(pk[..POLYVEC_BYTES]);
    output := RandomPK(o, rawHashOutput, pkSeed);
  }

  /** The receiver: where it does not choose, a key expanded from the seed it drew; where it does, its own
      key minus the hash of that one, coefficient by coefficient modulo q. */
  method GenReceiverMessage(o: Oracles, b: bool, pk: seq<Byte>, seed: seq<Byte>, ghost v: seq<seq<nat>>)
    returns (key0: seq<Byte>, key1: seq<Byte>, ghost d: seq<seq<nat>>)
    requires o.Sound() && |pk| == PK_BYTES && VecWritten(v, pk) && Canonicals(v)
    ensures |key0| == |key1| == PK_BYTES
    ensures key0[POLYVEC_BYTES..] == key1[POLYVEC_BYTES..] == pk[POLYVEC_BYTES..]
    ensures var (chosen, other) := if b then (key1, key0) else (key0, key1);
            var h := o.expand(o.hashH(other[..POLYVEC_BYTES]));
            && VecWritten(o.expand(seed), other)
            && Shaped(d) && Canonicals(h) && VecWritten(d, chosen)
            && forall i, j :: 0 <= i < KYBER_K && 0 <= j < POLY_COEFFS ==> d[i][j] == (v[i][j] - h[i][j]) % Q
  {
    hide PolyRead, PolyWritten;
    var pkSeed := pk[POLYVEC_BYTES..];
    var other := RandomPK(o, seed, pkSeed);
    var h := PkHash(o, other, pkSeed);
    ghost var hv := o.expand(o.hashH(other[..POLYVEC_BYTES]));
    assert Canonicals(hv);
    var chosen;
    ghost var v1, v2;
    chosen, v1, v2, d := PkCombine(pk, h, true);
    VecRoundTrip(v, pk, v1);
    VecRoundTrip(hv, h, v2);
    if b { key0, key1 := other, chosen; } else { key0, key1 := chosen, other; }
  }

  /** The sender's two public keys: each received key plus the hash of the other, coefficient by coefficient
      modulo q; both hashes carry the first key's seed. */
  method GenSenderKeys(o: Oracles, key0: seq<Byte>, key1: seq<Byte>)
    returns (pk0: seq<Byte>, pk1: seq<Byte>, ghost r0: seq<seq<nat>>, ghost r1: seq<seq<nat>>,
             ghost c0: seq<seq<nat>>, ghost c1: seq<seq<nat>>)
    requires o.Sound() && |key0| == |key1| == PK_BYTES
    ensures |pk0| == |pk1| == PK_BYTES
    ensures pk0[POLYVEC_BYTES..] == key0[POLYVEC_BYTES..] && pk1[POLYVEC_BYTES..] == key1[POLYVEC_BYTES..]
    ensures VecRead(key0, r0) && VecRead(key1, r1) && VecWritten(c0, pk0) && VecWritten(c1, pk1)
    ensures SumOf(o, r0, key1, c0) && SumOf(o, r1, key0, c1)
  {
    hide PolyRead, PolyWritten;
    var h := PkHash(o, key1, key0[POLYVEC_BYTES..]);
    ghost var hv := o.expand(o.hashH(key1[..POLYVEC_BYTES]));
    ghost var v2;
    pk0, r0, v2, c0 := PkCombine(key0, h, false);
    assert Canonicals(hv);
    VecRoundTrip(hv, h, v2);
    h := PkHash(o, key0, key0[POLYVEC_BYTES..]);
    hv := o.expand(o.hashH(key0[..POLYVEC_BYTES]));
    pk1, r1, v2, c1 := PkCombine(key1, h, false);
    assert Canonicals(hv);
    VecRoundTrip(hv, h, v2);
  }

  /** c is r plus the expanded hash of the other key, modulo q. */
  ghost predicate SumOf(o: Oracles, r: seq<seq<nat>>, other: seq<Byte>, c: seq<seq<nat>>)
    requires |other| == PK_BYTES && o.Sound()
  {
    var h := o.expand(o.hashH(other[..POLYVEC_BYTES]));
    assert Canonicals(h);
    && Shaped(r) && Shaped(c)
    && forall i, j :: 0 <= i < KYBER_K && 0 <= j < POLY_COEFFS ==> c[i][j] == (r[i][j] + h[i][j]) % Q
  }

  lemma SubtractThenAddBack(a: int, h: int)
    requires 0 <= a < Q && 0 <= h < Q
    ensures 0 <= (a - h) % Q < Q && ((a - h) % Q + h) % Q == a
  {
    SubtractThenAdd(a, h);
    CanonicalIsResidue(a - h);
    CanonicalIsResidue(Canonical(a - h) + h);
  }

  /** Adding back what was subtracted: the rebuilt vector is the original one. */
  lemma Rebuilt(o: Oracles, v: seq<seq<nat>>, d: seq<seq<nat>>, other: seq<Byte>, c: seq<seq<nat>>)
    requires o.Sound() && |other| == PK_BYTES && Canonicals(v) && SumOf(o, d, other, c)
    requires var h := o.expand(o.hashH(other[..POLYVEC_BYTES]));
             && Canonicals(h)
             && forall i, j :: 0 <= i < KYBER_K && 0 <= j < POLY_COEFFS ==> d[i][j] == (v[i][j] - h[i][j]) % Q
    ensures Canonicals(d) && c == v
  {
    var h := o.expand(o.hashH(other[..POLYVEC_BYTES]));
    forall i, j | 0 <= i < KYBER_K && 0 <= j < POLY_COEFFS ensures 0 <= d[i][j] < Q && c[i][j] == v[i][j] {
      SubtractThenAddBack(v[i][j], h[i][j]);
    }
    forall i | 0 <= i < KYBER_K ensures c[i] == v[i] {}
  }

  /** Whatever the choice bit, the hash, the expansion, the randomness and the canonical public key: the key
      the sender rebuilds for the chosen branch is the receiver's, byte for byte, seed included. */
  method Exchange(o: Oracles, b: bool, pk: seq<Byte>, seed: seq<Byte>, ghost v: seq<seq<nat>>)
    returns (rebuilt: seq<Byte>)
    requires o.Sound() && |pk| == PK_BYTES && VecWritten(v, pk) && Canonicals(v)
    ensures rebuilt == pk
  {
    hide PolyRead, PolyWritten;
    ghost var d, r0, r1, c0, c1;
    var key0, key1, pk0, pk1;
    key0, key1, d := GenReceiverMessage(o, b, pk, seed, v);
    pk0, pk1, r0, r1, c0, c1 := GenSenderKeys(o, key0, key1);
    rebuilt := if b then pk1 else pk0;
    var other := if b then key0 else key1;
    var chosen := if b then key1 else key0;
    ghost var r, c := if b then r1 else r0, if b then c1 else c0;
    Differences(o, v, d, other);
    VecRoundTrip(d, chosen, r);
    Rebuilt(o, v, d, other, c);
    VecUnique(v, rebuilt, pk);
  }

  /** The receiver's difference is canonical. */
  lemma Differences(o: Oracles, v: seq<seq<nat>>, d: seq<seq<nat>>, other: seq<Byte>)
    requires o.Sound() && |other| == PK_BYTES && Canonicals(v) && Shaped(d)
    requires var h := o.expand(o.hashH(other[..POLYVEC_BYTES]));
             && Canonicals(h)
             && forall i, j :: 0 <= i < KYBER_K && 0 <= j < POLY_COEFFS ==> d[i][j] == (v[i][j] - h[i][j]) % Q
    ensures Canonicals(d)
  {
  }
}
