/** Preprocessing: masks, MACs and Beaver triples for every wire and AND gate of a circuit. */
module Preprocessing {
  import opened Blocks
  import opened Sums
  import opened Words
  import opened Matrices
  import opened MatrixProducts
  import opened Circuits
  import opened XorSources
  import opened Authenticated
  import opened CorrelatedOT
  import opened Populate
  import opened DualKeyProducts
  import opened KeySampling
  import opened Garbling
  import opened Simulation

  // ---------------------------------------------------------------- steps 2 to 5

  /** Everything the two parties hold before looking at the gates, value side and key side together. */
  datatype Correlations = Correlations(
    bStar: ITMacBits, bStarKeys: ITMacBitKeys,
    dualBStar: ITMacBlocks, dualBStarKeys: ITMacBlockKeys,
    aMatrix: ITMacBits, aMatrixKeys: ITMacBitKeys,
    tmpDelta: ITMacBlocks, tmpDeltaKeys: ITMacBlockKeys,
    shares: ITMacBits, shareKeys: ITMacBitKeys,
    tmpDelta5: ITMacBlocks, tmpDelta5Keys: ITMacBlockKeys)
  {
    /** What the extensions alone guarantee, whatever values and keys the other side put in: every MAC is right
        for its value and key. */
    ghost predicate Authentic(keys: GlobalKeys, compressParam: nat) {
      && |bStar.bits| == |dualBStar.blocks| == |dualBStar.macs| == compressParam
      && Authed(bStar, bStarKeys, keys.deltaA)
      && BlocksAuthed(dualBStar, dualBStarKeys) && dualBStarKeys.globalKeys == [keys.deltaA]
      && |tmpDelta.blocks| == 1 && BlocksAuthed(tmpDelta, tmpDeltaKeys)
      && |tmpDeltaKeys.globalKeys| == compressParam + 1
      && |tmpDelta5.blocks| == 1 && BlocksAuthed(tmpDelta5, tmpDelta5Keys) && |tmpDelta5Keys.globalKeys| == 2
    }

    /** bStar compressed masks under deltaA; bStar * deltaB under deltaA, whose MACs become keys
        for the garbler's masks; triples and a temporary key under beta0 and deltaB. */
    ghost predicate Hold(keys: GlobalKeys, compressParam: nat, wires: nat, ands: nat) {
      && |bStar.bits| == compressParam && Authed(bStar, bStarKeys, keys.deltaA)
      && BlocksAuthed(dualBStar, dualBStarKeys) && dualBStarKeys.globalKeys == [keys.deltaA]
      && |dualBStar.blocks| == compressParam
      && (forall i :: 0 <= i < compressParam ==> dualBStar.blocks[i] == Scale(bStar.bits[i], keys.deltaB))
      && |aMatrix.bits| == wires && BitsAuthed(aMatrix, aMatrixKeys)
      && |dualBStar.macs| == compressParam
      && aMatrixKeys.globalKeys == tmpDeltaKeys.globalKeys == dualBStar.macs + [keys.deltaB]
      && |tmpDelta.blocks| == 1 && BlocksAuthed(tmpDelta, tmpDeltaKeys)
      && |shares.bits| == ands && BitsAuthed(shares, shareKeys)
      && shareKeys.globalKeys == tmpDelta5Keys.globalKeys == [keys.beta0, keys.deltaB]
      && tmpDelta5.blocks == tmpDelta.blocks && BlocksAuthed(tmpDelta5, tmpDelta5Keys)
    }
  }

  datatype CorrelationSeed = CorrelationSeed(bStar: OTSeed, dual: OTSeed, aMatrix: OTSeed, tmpDelta: Block, tmp: OTSeed,
                                             shares: OTSeed, tmp5: OTSeed)
  {
    predicate For(compressParam: nat, wires: nat, ands: nat) {
      && bStar.For(compressParam, 1) && dual.For(BLOCK_BITS * compressParam, 1)
      && aMatrix.For(wires, compressParam + 1) && tmp.For(BLOCK_BITS, compressParam + 1)
      && shares.For(ands, 2) && tmp5.For(BLOCK_BITS, 2)
    }
  }

  /** All twelve are made of what was drawn: bits and keys of the random ones as drawn, the chosen ones fixed to
      bStar * deltaB and to the temporary key.  The MACs follow. */
  ghost predicate CorrelationsFrom(r: Correlations, keys: GlobalKeys, seed: CorrelationSeed) {
    var sid1Keys, sid2Keys := r.dualBStar.macs + [keys.deltaB], [keys.beta0, keys.deltaB];
    && r.bStar.bits == seed.bStar.choices && r.bStarKeys == ITMacBitKeys(seed.bStar.k1, [keys.deltaA])
    && |r.dualBStar.blocks| == |seed.bStar.choices|
    && (forall i :: 0 <= i < |r.dualBStar.blocks| ==>
          r.dualBStar.blocks[i] == Scale(seed.bStar.choices[i], keys.deltaB))
    && BlockKeysFrom(r.dualBStarKeys.localKeys, r.dualBStar.blocks, [keys.deltaA], seed.dual)
    && r.aMatrix.bits == seed.aMatrix.choices && r.aMatrixKeys == ITMacBitKeys(seed.aMatrix.k1, sid1Keys)
    && r.tmpDelta.blocks == r.tmpDelta5.blocks == [seed.tmpDelta]
    && BlockKeysFrom(r.tmpDeltaKeys.localKeys, [seed.tmpDelta], sid1Keys, seed.tmp)
    && r.shares.bits == seed.shares.choices && r.shareKeys == ITMacBitKeys(seed.shares.k1, sid2Keys)
    && BlockKeysFrom(r.tmpDelta5Keys.localKeys, [seed.tmpDelta], sid2Keys, seed.tmp5)
  }

  method Correlate(keys: GlobalKeys, compressParam: nat, wires: nat, ands: nat, seed: CorrelationSeed)
    returns (r: Correlations)
    requires seed.For(compressParam, wires, ands)
    ensures r.Hold(keys, compressParam, wires, ands) && CorrelationsFrom(r, keys, seed)
  {
    hide Mul, BlockKeysFrom, BitKeysFrom;
    // step 2
    var bStar, bStarKeys := RandomBits([keys.deltaA], compressParam, seed.bStar);
    SingleKeyBits(bStar, bStarKeys, keys.deltaA);
    // step 3
    var bStarDeltaB := SelectBlocks(bStar.bits, keys.deltaB);
    var dual, dualKeys := ChosenBlocks([keys.deltaA], bStarDeltaB, seed.dual);
    SingleKeyBlocks(dual, dualKeys, keys.deltaA);
    // step 4
    var sid1Keys := dual.macs + [keys.deltaB];
    var aMatrix, aMatrixKeys := RandomBits(sid1Keys, wires, seed.aMatrix);
    var tmpDelta, tmpDeltaKeys := ChosenBlocks(sid1Keys, [seed.tmpDelta], seed.tmp);
    // step 5
    var sid2Keys := [keys.beta0, keys.deltaB];
    var shares, shareKeys := RandomBits(sid2Keys, ands, seed.shares);
    var tmpDelta5, tmpDelta5Keys := ChosenBlocks(sid2Keys, [seed.tmpDelta], seed.tmp5);
    r := Correlations(bStar, bStarKeys, dual, dualKeys, aMatrix, aMatrixKeys, tmpDelta, tmpDeltaKeys,
                      shares, shareKeys, tmpDelta5, tmpDelta5Keys);
  }

  // ---------------------------------------------------------------- step 9

  ghost function GarblerSum(c: Circuit, t: Order, res: seq<Block>, src: seq<seq<bool>>, anded: ITMacBits,
                            shares: ITMacBits, alpha0: Block, i: nat): Block
    requires c.WellFormed() && OrderFor(c, t) && i < c.AndGateSize() == |anded.bits| == |shares.bits|
    requires |src| == c.wireSize && forall w :: 0 <= w < c.wireSize ==> |src[w]| == c.wireSize
    requires |res| == (c.inputSize1 + c.AndGateSize()) * (c.TotalInputSize() + c.AndGateSize())
  {
    AndInputsInRange(c, i);
    var g := c.AndAt(i);
    Xor(Xor(Xor(anded.GetMac(0, i), shares.GetMac(0, i)), Scale(anded.bits[i] != shares.bits[i], alpha0)),
        Xor(DoubleSum(c, t, res, src[g.in0], src[g.in1]), DoubleSum(c, t, res, src[g.in1], src[g.in0])))
  }

  ghost function EvaluatorSum(c: Circuit, t: Order, res: seq<Block>, src: seq<seq<bool>>, andedKeys: ITMacBitKeys,
                              shareKeys: ITMacBitKeys, i: nat): Block
    requires c.WellFormed() && OrderFor(c, t) && i < c.AndGateSize()
    requires |src| == c.wireSize && forall w :: 0 <= w < c.wireSize ==> |src[w]| == c.wireSize
    requires |res| == (c.inputSize1 + c.AndGateSize()) * (c.TotalInputSize() + c.AndGateSize())
  {
    AndInputsInRange(c, i);
    var g := c.AndAt(i);
    Xor(Xor(andedKeys.GetLocalKey(0, i), shareKeys.GetLocalKey(0, i)),
        Xor(DoubleSum(c, t, res, src[g.in0], src[g.in1]), DoubleSum(c, t, res, src[g.in1], src[g.in0])))
  }

  method GarblerTriple(m: XORSourceMatrix, ab: DualKeyAuthedAbCalculator, anded: ITMacBits, shares: ITMacBits,
                       alpha0: Block, i: nat)
    returns (sum: Block)
    requires ab.Valid() && m.Valid() && m.mat.rowSize == ab.c.wireSize && SourcesFor(ab.c, m.Rows(), m.flip)
    requires i < |anded.bits| == |shares.bits| == ab.c.AndGateSize()
    ensures sum == GarblerSum(ab.c, ab.t, ab.resFlatMatrix, m.Rows(), anded, shares, alpha0, i)
  {
    hide DoubleSum, SourceGate, OrderGate;
    AndInputsInRange(ab.c, i);
    var gate := ab.c.AndAt(i);
    sum := Xor(anded.GetMac(0, i), shares.GetMac(0, i));
    sum := Xor(sum, Scale(anded.bits[i] != shares.bits[i], alpha0));
    var ab01 := ab.Calculate(gate.in0, gate.in1, m);
    var ab10 := ab.Calculate(gate.in1, gate.in0, m);
    XorAssoc(sum, ab01, ab10);
    sum := Xor(Xor(sum, ab01), ab10);
  }

  method EvaluatorTriple(m: XORSourceMatrix, ab: DualKeyAuthedAbCalculator, andedKeys: ITMacBitKeys,
                         shareKeys: ITMacBitKeys, i: nat)
    returns (sum: Block)
    requires ab.Valid() && m.Valid() && m.mat.rowSize == ab.c.wireSize && SourcesFor(ab.c, m.Rows(), m.flip)
    requires i < ab.c.AndGateSize()
    ensures sum == EvaluatorSum(ab.c, ab.t, ab.resFlatMatrix, m.Rows(), andedKeys, shareKeys, i)
  {
    hide DoubleSum, SourceGate, OrderGate;
    AndInputsInRange(ab.c, i);
    var gate := ab.c.AndAt(i);
    sum := Xor(andedKeys.GetLocalKey(0, i), shareKeys.GetLocalKey(0, i));
    var ab01 := ab.Calculate(gate.in0, gate.in1, m);
    var ab10 := ab.Calculate(gate.in1, gate.in0, m);
    XorAssoc(sum, ab01, ab10);
    sum := Xor(Xor(sum, ab01), ab10);
  }

  /** Both parties walk the gate list and keep the lowest bits of their sums. */
  method GarblerTriples(m: XORSourceMatrix, ab: DualKeyAuthedAbCalculator, anded: ITMacBits, shares: ITMacBits,
                        alpha0: Block)
    returns (tmpBeaverTriple: seq<Block>, tmpBeaverTripleLsb: seq<bool>)
    requires ab.Valid() && m.Valid() && m.mat.rowSize == ab.c.wireSize && SourcesFor(ab.c, m.Rows(), m.flip)
    requires |anded.bits| == |shares.bits| == ab.c.AndGateSize()
    ensures |tmpBeaverTriple| == |tmpBeaverTripleLsb| == ab.c.AndGateSize()
    ensures forall i :: 0 <= i < |tmpBeaverTriple| ==>
              && tmpBeaverTriple[i] == GarblerSum(ab.c, ab.t, ab.resFlatMatrix, m.Rows(), anded, shares, alpha0, i)
              && tmpBeaverTripleLsb[i] == Lsb(tmpBeaverTriple[i])
  {
    hide GarblerSum, SourceGate, OrderGate;
    var c := ab.c;
    tmpBeaverTriple, tmpBeaverTripleLsb := [], [];
    for gateIter := 0 to |c.gates|
      invariant |tmpBeaverTriple| == |tmpBeaverTripleLsb| == c.AndCount(gateIter) <= c.AndGateSize()
      invariant forall i :: 0 <= i < |tmpBeaverTriple| ==>
                  && tmpBeaverTriple[i] == GarblerSum(c, ab.t, ab.resFlatMatrix, m.Rows(), anded, shares, alpha0, i)
                  && tmpBeaverTripleLsb[i] == Lsb(tmpBeaverTriple[i])
    {
      c.AndGatesPrefix(gateIter + 1, |c.gates|);
      if c.gates[gateIter].AndGate? {
        c.AndPosition(gateIter);
        var andGateIndex := |tmpBeaverTriple|;
        var sum := GarblerTriple(m, ab, anded, shares, alpha0, andGateIndex);
        tmpBeaverTriple, tmpBeaverTripleLsb := tmpBeaverTriple + [sum], tmpBeaverTripleLsb + [Lsb(sum)];
      }
    }
  }

  method EvaluatorTriples(m: XORSourceMatrix, ab: DualKeyAuthedAbCalculator, andedKeys: ITMacBitKeys,
                          shareKeys: ITMacBitKeys)
    returns (tmpBeaverTriple: seq<Block>, tmpBeaverTripleLsb: seq<bool>)
    requires ab.Valid() && m.Valid() && m.mat.rowSize == ab.c.wireSize && SourcesFor(ab.c, m.Rows(), m.flip)
    ensures |tmpBeaverTriple| == |tmpBeaverTripleLsb| == ab.c.AndGateSize()
    ensures forall i :: 0 <= i < |tmpBeaverTriple| ==>
              && tmpBeaverTriple[i] == EvaluatorSum(ab.c, ab.t, ab.resFlatMatrix, m.Rows(), andedKeys, shareKeys, i)
              && tmpBeaverTripleLsb[i] == Lsb(tmpBeaverTriple[i])
  {
    hide EvaluatorSum, SourceGate, OrderGate;
    var c := ab.c;
    tmpBeaverTriple, tmpBeaverTripleLsb := [], [];
    for gateIter := 0 to |c.gates|
      invariant |tmpBeaverTriple| == |tmpBeaverTripleLsb| == c.AndCount(gateIter) <= c.AndGateSize()
      invariant forall i :: 0 <= i < |tmpBeaverTriple| ==>
                  && tmpBeaverTriple[i] == EvaluatorSum(c, ab.t, ab.resFlatMatrix, m.Rows(), andedKeys, shareKeys, i)
                  && tmpBeaverTripleLsb[i] == Lsb(tmpBeaverTriple[i])
    {
      c.AndGatesPrefix(gateIter + 1, |c.gates|);
      if c.gates[gateIter].AndGate? {
        c.AndPosition(gateIter);
        var andGateIndex := |tmpBeaverTriple|;
        var sum := EvaluatorTriple(m, ab, andedKeys, shareKeys, andGateIndex);
        tmpBeaverTriple, tmpBeaverTripleLsb := tmpBeaverTriple + [sum], tmpBeaverTripleLsb + [Lsb(sum)];
      }
    }
  }

  /** The two sums of one gate: everything but the product of the keys cancels. */
  lemma SumsAddUp(anded: bool, share: bool, ab01: bool, ab10: bool, alpha0: Block, beta0: Block, product: Block,
                  m0: Block, m1: Block, k0: Block, k1: Block, g01: Block, g10: Block, e01: Block, e10: Block)
    requires m0 == Xor(k0, Scale(anded, beta0)) && m1 == Xor(k1, Scale(share, beta0)) && Xor(alpha0, beta0) == product
    requires Xor(g01, e01) == Scale(ab01, product) && Xor(g10, e10) == Scale(ab10, product)
    ensures Xor(Xor(Xor(Xor(m0, m1), Scale(anded != share, alpha0)), Xor(g01, g10)), Xor(Xor(k0, k1), Xor(e01, e10))) ==
            Scale(((anded != share) != ab01) != ab10, product)
  {
    assert Xor(Xor(m0, m1), Xor(k0, k1)) == Scale(anded != share, beta0);
    assert Xor(Xor(g01, g10), Xor(e01, e10)) == Scale(ab01 != ab10, product);
    Rearrange(Xor(m0, m1), Scale(anded != share, alpha0), Xor(g01, g10), Xor(k0, k1), Xor(e01, e10));
    ScaleShares(anded != share, alpha0, beta0);
  }

  lemma Rearrange(m: Block, s: Block, g: Block, k: Block, e: Block)
    ensures Xor(Xor(Xor(m, s), g), Xor(k, e)) == Xor(Xor(Xor(m, k), s), Xor(g, e))
  {
  }

  lemma ScaleShares(t: bool, a: Block, b: Block)
    ensures Xor(Scale(t, b), Scale(t, a)) == Scale(t, Xor(a, b))
  {
  }

  // ---------------------------------------------------------------- masks on all wires

  /** On an independent wire stands the source entry with that wire's number. */
  lemma BitsAtIndependent(c: Circuit, t: Order, source: seq<bool>, wires: seq<bool>, w: Wire)
    requires c.WellFormed() && OrderFor(c, t) && BitsFrom(c, source, wires) && w < c.wireSize && Independent(c, w)
    ensures IndependentIndexMap(c, t, w) < |source| && wires[w] == source[IndependentIndexMap(c, t, w)]
  {
    hide IndependentIndexMap;
    IndexMapBijection(c, t);
    var i := IndependentIndexMap(c, t, w);
    if i >= c.TotalInputSize() {
      c.AndPositionInverse(i - c.TotalInputSize());
      var k := c.AndGates(|c.gates|)[i - c.TotalInputSize()];
      assert BitGate(c, source, wires, k);
    }
  }

  lemma LinearFromSource(c: Circuit, source: seq<bool>, wires: seq<bool>)
    requires c.WellFormed() && BitsFrom(c, source, wires)
    ensures MasksLinear(c, wires)
  {
    forall k | 0 <= k < |c.gates| ensures MaskGate(c, wires, k) {
      assert BitGate(c, source, wires, k);
    }
  }

  /** A block scaled by the masks is a quantity the source matrix describes. */
  lemma ScaledMasks(c: Circuit, bits: seq<bool>, product: Block) returns (u: seq<Block>)
    requires c.WellFormed() && |bits| == c.wireSize && MasksLinear(c, bits)
    ensures |u| == c.wireSize && forall w :: 0 <= w < c.wireSize ==> u[w] == Scale(bits[w], product)
    ensures FollowsLinear(c, u, Zero())
  {
    u := seq(c.wireSize, w requires 0 <= w < c.wireSize => Scale(bits[w], product));
    forall k | 0 <= k < |c.gates| ensures LinearGate(c, u, Zero(), k) {
      assert MaskGate(c, bits, k);
      var g := c.gates[k];
      assert c.Available(k, g.in0) && (g.NotGate? || c.Available(k, g.in1));
      if g.XorGate? {
        ScaleSum(bits[g.in0], bits[g.in1], product);
      } else if g.NotGate? {
        XorZero(u[g.in0]);
      }
    }
  }

  /** The two caches add up to mask products, whichever independent wires are looked up. */
  lemma CachesExact(c: Circuit, t: Order, cor: Correlations, keys: GlobalKeys, matrix: Matrix,
                    resG: seq<Block>, resE: seq<Block>, a: seq<bool>, b: seq<bool>)
    requires c.WellFormed() && OrderFor(c, t) && matrix.Valid() && matrix.rowSize == c.inputSize1 + c.AndGateSize()
    requires cor.Hold(keys, matrix.colSize, c.TotalInputSize() + c.AndGateSize(), c.AndGateSize())
    requires |resG| == |resE| == (c.inputSize1 + c.AndGateSize()) * (c.TotalInputSize() + c.AndGateSize())
    requires forall row, col :: 0 <= row < matrix.rowSize && 0 <= col < |cor.aMatrix.bits| ==>
               Flat(resG, |cor.aMatrix.bits|, row, col) ==
               GarblerEntry(matrix, cor.aMatrix, BlockProduct(matrix, cor.dualBStarKeys.localKeys), row, col)
    requires forall row, col :: 0 <= row < matrix.rowSize && 0 <= col < |cor.aMatrix.bits| ==>
               Flat(resE, |cor.aMatrix.bits|, row, col) == EvaluatorEntry(matrix, cor.aMatrixKeys, row, col)
    requires BitsFrom(c, cor.aMatrix.bits, a)
    requires BitsFrom(c, PaddedBits(c.inputSize0, BitProduct(matrix, cor.bStar.bits)), b)
    ensures CachesAddUp(c, t, resG, resE, a, b, Mul(keys.deltaB, keys.deltaA))
  {
    hide Mul, GarblerEntry, EvaluatorEntry, IndependentIndexMap, BitGate, BitsAuthed, Independent, OrderGate;
    var product := Mul(keys.deltaB, keys.deltaA);
    SingleKeyBlocks(cor.dualBStar, cor.dualBStarKeys, keys.deltaA);
    ScaledIsBit(cor.bStar.bits, cor.dualBStar.blocks, cor.dualBStar.macs, cor.dualBStarKeys.localKeys, keys.deltaB,
                keys.deltaA);
    forall i, j | 0 <= i < c.wireSize && 0 <= j < c.wireSize && Independent(c, i) && Independent(c, j)
      ensures Xor(FromCache(c, t, resG, i, j), FromCache(c, t, resE, i, j)) == Scale(a[i] && b[j], product)
    {
      CacheExact(c, t, cor, matrix, resG, resE, a, b, product, i, j);
    }
  }

  lemma CacheExact(c: Circuit, t: Order, cor: Correlations, matrix: Matrix, resG: seq<Block>, resE: seq<Block>,
                   a: seq<bool>, b: seq<bool>, product: Block, i: Wire, j: Wire)
    requires c.WellFormed() && OrderFor(c, t) && matrix.Valid() && matrix.rowSize == c.inputSize1 + c.AndGateSize()
    requires |cor.aMatrix.bits| == c.TotalInputSize() + c.AndGateSize() && BitsAuthed(cor.aMatrix, cor.aMatrixKeys)
    requires |cor.bStar.bits| == |cor.dualBStar.macs| == |cor.dualBStarKeys.localKeys| == matrix.colSize
    requires |cor.aMatrixKeys.globalKeys| == matrix.colSize + 1
    requires cor.aMatrixKeys.globalKeys[..matrix.colSize] == cor.dualBStar.macs
    requires AuthBits(cor.bStar.bits, cor.dualBStar.macs, cor.dualBStarKeys.localKeys, product)
    requires |resG| == |resE| == (c.inputSize1 + c.AndGateSize()) * (c.TotalInputSize() + c.AndGateSize())
    requires forall row, col :: 0 <= row < matrix.rowSize && 0 <= col < |cor.aMatrix.bits| ==>
               Flat(resG, |cor.aMatrix.bits|, row, col) ==
               GarblerEntry(matrix, cor.aMatrix, BlockProduct(matrix, cor.dualBStarKeys.localKeys), row, col)
    requires forall row, col :: 0 <= row < matrix.rowSize && 0 <= col < |cor.aMatrix.bits| ==>
               Flat(resE, |cor.aMatrix.bits|, row, col) == EvaluatorEntry(matrix, cor.aMatrixKeys, row, col)
    requires BitsFrom(c, cor.aMatrix.bits, a)
    requires BitsFrom(c, PaddedBits(c.inputSize0, BitProduct(matrix, cor.bStar.bits)), b)
    requires i < c.wireSize && j < c.wireSize && Independent(c, i) && Independent(c, j)
    ensures Xor(FromCache(c, t, resG, i, j), FromCache(c, t, resE, i, j)) == Scale(a[i] && b[j], product)
  {
    hide GarblerEntry, EvaluatorEntry, IndependentIndexMap, BitGate, BitsAuthed, Independent, OrderGate, FromCache,
         Dot, Parity;
    CacheLookup(c, t, resG, i, j);
    CacheLookup(c, t, resE, i, j);
    BitsAtIndependent(c, t, cor.aMatrix.bits, a, i);
    BitsAtIndependent(c, t, PaddedBits(c.inputSize0, BitProduct(matrix, cor.bStar.bits)), b, j);
    var col, jx := IndependentIndexMap(c, t, i), IndependentIndexMap(c, t, j);
    IndexMapOfInput(c, t, j);
    if j < c.inputSize0 {
      XorZero(Zero());
      assert !b[j];
    } else {
      var row := jx - c.inputSize0;
      var alphas := BlockProduct(matrix, cor.dualBStarKeys.localKeys);
      EntriesAddUp(matrix, cor.aMatrix, cor.aMatrixKeys, alphas, cor.dualBStar.macs, row, col);
      DualRow(matrix, cor.bStar.bits, cor.dualBStar.macs, cor.dualBStarKeys.localKeys, product, row);
      assert b[j] == BitProduct(matrix, cor.bStar.bits)[row];
      ScaleTwice(a[i], b[j], product);
    }
  }

  lemma ScaleTwice(s: bool, t: bool, x: Block)
    ensures Scale(s, Scale(t, x)) == Scale(s && t, x)
  {
  }

  lemma CacheLookup(c: Circuit, t: Order, res: seq<Block>, i: Wire, j: Wire)
    requires c.WellFormed() && OrderFor(c, t) && i < c.wireSize && j < c.wireSize
    requires Independent(c, i) && Independent(c, j)
    requires |res| == (c.inputSize1 + c.AndGateSize()) * (c.TotalInputSize() + c.AndGateSize())
    ensures j < c.inputSize0 ==> FromCache(c, t, res, i, j) == Zero()
    ensures j >= c.inputSize0 ==>
              IndependentIndexMap(c, t, j) >= c.inputSize0 &&
              FromCache(c, t, res, i, j) ==
              Flat(res, c.TotalInputSize() + c.AndGateSize(), IndependentIndexMap(c, t, j) - c.inputSize0,
                   IndependentIndexMap(c, t, i))
  {
    IndexMapOfInput(c, t, j);
  }

  lemma IndexMapOfInput(c: Circuit, t: Order, j: Wire)
    requires c.WellFormed() && OrderFor(c, t) && j < c.wireSize
    ensures j < c.TotalInputSize() ==> IndependentIndexMap(c, t, j) == j
    ensures j >= c.TotalInputSize() ==> IndependentIndexMap(c, t, j) >= c.TotalInputSize()
  {
    if j >= c.TotalInputSize() {
      assert c.Available(|c.gates|, j);
      var k :| 0 <= k < |c.gates| && c.gates[k].out == j;
      assert OrderGate(c, t, k);
    }
  }

  /** Lowest bits of the two sums of AND gate i, for any masks on its wires. */
  lemma TripleBits(c: Circuit, t: Order, src: seq<seq<bool>>, flip: seq<bool>, resG: seq<Block>, resE: seq<Block>,
                   a: seq<bool>, b: seq<bool>, keys: GlobalKeys, anded: ITMacBits, andedKeys: ITMacBitKeys,
                   shares: ITMacBits, shareKeys: ITMacBitKeys, i: nat)
    requires c.WellFormed() && OrderFor(c, t) && SourcesFor(c, src, flip) && |a| == |b| == c.wireSize
    requires |resG| == |resE| == (c.inputSize1 + c.AndGateSize()) * (c.TotalInputSize() + c.AndGateSize())
    requires CachesAddUp(c, t, resG, resE, a, b, Mul(keys.deltaB, keys.deltaA)) && keys.Good()
    requires MasksLinear(c, a) && MasksLinear(c, b)
    requires BitsAuthed(anded, andedKeys) && andedKeys.globalKeys == [keys.beta0, keys.deltaB]
    requires BitsAuthed(shares, shareKeys) && shareKeys.globalKeys == [keys.beta0, keys.deltaB]
    requires i < c.AndGateSize() == |anded.bits| == |shares.bits|
    ensures (Lsb(GarblerSum(c, t, resG, src, anded, shares, keys.alpha0, i)) !=
             Lsb(EvaluatorSum(c, t, resE, src, andedKeys, shareKeys, i))) ==
            (((anded.bits[i] != shares.bits[i]) != (a[In0(c, i)] && b[In1(c, i)])) != (a[In1(c, i)] && b[In0(c, i)]))
  {
    hide Mul, DoubleSum, CachesAddUp, SourceGate, MaskGate, LinearGate, OrderGate;
    AndInputsInRange(c, i);
    var g, product := c.AndAt(i), Mul(keys.deltaB, keys.deltaA);
    MulComm(keys.deltaA, keys.deltaB);
    var ua := ScaledMasks(c, a, product);
    var ub := ScaledMasks(c, b, product);
    ProductsAddUp(c, t, src, flip, resG, resE, a, b, ua, ub, product, g.in0, g.in1);
    ProductsAddUp(c, t, src, flip, resG, resE, a, b, ua, ub, product, g.in1, g.in0);
    SizeOfKeys(|anded.bits|, 2);
    var v := ((anded.bits[i] != shares.bits[i]) != (a[g.in0] && b[g.in1])) != (a[g.in1] && b[g.in0]);
    SumsAddUp(anded.bits[i], shares.bits[i], a[g.in0] && b[g.in1], a[g.in1] && b[g.in0], keys.alpha0, keys.beta0,
              product, anded.GetMac(0, i), shares.GetMac(0, i), andedKeys.GetLocalKey(0, i),
              shareKeys.GetLocalKey(0, i), DoubleSum(c, t, resG, src[g.in0], src[g.in1]),
              DoubleSum(c, t, resG, src[g.in1], src[g.in0]), DoubleSum(c, t, resE, src[g.in0], src[g.in1]),
              DoubleSum(c, t, resE, src[g.in1], src[g.in0]));
    LsbOfXor(GarblerSum(c, t, resG, src, anded, shares, keys.alpha0, i),
             EvaluatorSum(c, t, resE, src, andedKeys, shareKeys, i), v, product);
  }

  lemma LsbOfXor(x: Block, y: Block, v: bool, product: Block)
    requires Xor(x, y) == Scale(v, product) && Lsb(product)
    ensures (Lsb(x) != Lsb(y)) == v
  {
    assert Lsb(Xor(x, y)) == (Lsb(x) != Lsb(y));
  }

  // ---------------------------------------------------------------- the honest run

  /** How far AND gate i is from having a correct triple: only a product that the sparse matrix
      dropped on one side but not on the other can spoil it. */
  ghost predicate TripleSpoiled(c: Circuit, a: seq<bool>, b: seq<bool>, i: nat)
    requires c.WellFormed() && |a| == |b| == c.wireSize && i < c.AndGateSize()
  {
    HasLaterTwin(c, i, c.AndGateSize()) && Product(c, a, i) != Product(c, b, i)
  }

  lemma TripleShares(c: Circuit, a: seq<bool>, b: seq<bool>, andedA: seq<bool>, andedB: seq<bool>, i: nat,
                     aHat: bool, lsbG: bool, lsbE: bool, bHat: bool)
    requires c.WellFormed() && |a| == |b| == c.wireSize && i < c.AndGateSize()
    requires AndedBits(c, a, andedA) && AndedBits(c, b, andedB)
    requires (lsbG != lsbE) ==
             (((andedA[i] != aHat) != (a[In0(c, i)] && b[In1(c, i)])) != (a[In1(c, i)] && b[In0(c, i)]))
    requires bHat == ((lsbG != lsbE) != andedB[i])
    ensures (aHat != bHat) ==
            (((a[In0(c, i)] != b[In0(c, i)]) && (a[In1(c, i)] != b[In1(c, i)])) != TripleSpoiled(c, a, b, i))
  {
  }

  /** All that a run leaves behind for the later phases. */
  datatype Preprocessed = Preprocessed(garbler: PreprocessedData, evaluator: PreprocessedData,
                                       andedG: ITMacBits, andedGKeys: ITMacBitKeys,
                                       andedE: ITMacBits, andedEKeys: ITMacBitKeys)
  {
    ghost predicate Correct(c: Circuit, keys: GlobalKeys)
      requires c.WellFormed()
    {
      && MacsHold(c, garbler, evaluator, keys.deltaA, keys.deltaB)
      && MasksLinear(c, garbler.masks.bits) && MasksLinear(c, evaluator.masks.bits)
      && (forall w :: 0 <= w < c.inputSize0 ==> !evaluator.masks.bits[w])
      && AndedBits(c, garbler.masks.bits, andedG.bits) && AndedBits(c, evaluator.masks.bits, andedE.bits)
      && BitsAuthed(andedG, andedGKeys) && andedGKeys.globalKeys == [keys.beta0, keys.deltaB]
      && Authed(andedE, andedEKeys, keys.deltaA)
      && (forall k :: 0 <= k < |c.gates| && c.gates[k].AndGate? ==>
            c.AndCount(k) < c.AndGateSize() &&
            (TripleHolds(c, garbler, evaluator, k) <==>
             !TripleSpoiled(c, garbler.masks.bits, evaluator.masks.bits, c.AndCount(k))))
    }
  }

  datatype CircuitSeed = CircuitSeed(andedE: OTSeed, andedG: OTSeed, triple: OTSeed) {
    predicate For(ands: nat) {
      andedE.For(ands, 1) && andedG.For(ands, 2) && triple.For(ands, 1)
    }
  }

  /** Step 6: masks on all wires and the products of mask pairs, for both parties. */
  method PopulateBoth(c: Circuit, keys: GlobalKeys, matrix: Matrix, cor: Correlations)
    returns (pg: WireMasks, pe: WireMasks, andedG: seq<bool>, andedE: seq<bool>)
    requires c.WellFormed() && matrix.Valid() && matrix.rowSize == c.inputSize1 + c.AndGateSize()
    requires cor.Hold(keys, matrix.colSize, c.TotalInputSize() + c.AndGateSize(), c.AndGateSize())
    ensures BitsFrom(c, cor.aMatrix.bits, pg.masks)
    ensures BitsFrom(c, PaddedBits(c.inputSize0, BitProduct(matrix, cor.bStar.bits)), pe.masks)
    ensures AuthBits(pg.masks, pg.macs, pe.keys, keys.deltaB) && AuthBits(pe.masks, pe.macs, pg.keys, keys.deltaA)
    ensures BlocksFrom(c, FlatRow(cor.aMatrixKeys.localKeys, |cor.aMatrix.bits|, matrix.colSize), pe.keys)
    ensures BlocksFrom(c, Padded(c.inputSize0, BlockProduct(matrix, cor.bStarKeys.localKeys)), pg.keys)
    ensures AndedBits(c, pg.masks, andedG) && AndedBits(c, pe.masks, andedE)
  {
    hide Mul, Dot, Parity, Recorded, AndedBits;
    var L := matrix.colSize;
    var b := TimesBits(matrix, cor.bStar);
    var bKeys := TimesBitKeys(matrix, cor.bStarKeys);
    ProductBitsAuthed(matrix, cor.bStar.bits, cor.bStar.macs, cor.bStarKeys.localKeys, keys.deltaA);
    SizeOfKeys(|cor.aMatrix.bits|, L + 1);
    var setG, setE;
    pg, setG := PopulateWiresGarbler(c, cor.aMatrix, bKeys, L);
    pe, setE := PopulateWiresEvaluator(c, b, cor.aMatrixKeys, L);
    MasksAuthed(c, cor, L, keys, b, bKeys, pg, pe);
    andedG := BuildFrom(c, pg.masks, setG);
    andedE := BuildFrom(c, pe.masks, setE);
  }

  method BuildFrom(c: Circuit, masks: seq<bool>, recorded: SparseBitMatrix) returns (anded: seq<bool>)
    requires c.WellFormed() && |masks| == c.wireSize && Recorded(c, masks, recorded.entries, c.AndGateSize())
    ensures AndedBits(c, masks, anded)
  {
    anded := recorded.BuildBitset(c.AndGateSize());
    RecordedGivesBits(c, masks, recorded.entries, anded);
  }

  lemma MasksAuthed(c: Circuit, cor: Correlations, L: nat, keys: GlobalKeys, b: ITMacBits, bKeys: ITMacBitKeys,
                    pg: WireMasks, pe: WireMasks)
    requires c.WellFormed() && cor.Hold(keys, L, c.TotalInputSize() + c.AndGateSize(), c.AndGateSize())
    requires |b.bits| == c.inputSize1 + c.AndGateSize() && Authed(b, bKeys, keys.deltaA)
    requires PopulatedFrom(c, cor.aMatrix.bits, FlatRow(cor.aMatrix.macs, |cor.aMatrix.bits|, L),
                           Padded(c.inputSize0, bKeys.localKeys), pg)
    requires PopulatedFrom(c, PaddedBits(c.inputSize0, b.bits), Padded(c.inputSize0, b.macs),
                           FlatRow(cor.aMatrixKeys.localKeys, |cor.aMatrix.bits|, L), pe)
    ensures AuthBits(pg.masks, pg.macs, pe.keys, keys.deltaB) && AuthBits(pe.masks, pe.macs, pg.keys, keys.deltaA)
  {
    hide Mul, BitGate, BlockGate;
    var n := |cor.aMatrix.bits|;
    var macs, aKeys := FlatRow(cor.aMatrix.macs, n, L), FlatRow(cor.aMatrixKeys.localKeys, n, L);
    assert cor.aMatrixKeys.globalKeys[L] == keys.deltaB;
    assert AuthBits(cor.aMatrix.bits, macs, aKeys, keys.deltaB);
    WiresAuthed(c, cor.aMatrix.bits, macs, aKeys, keys.deltaB, pg.masks, pg.macs, pe.keys, |c.gates|);
    var bits, bMacs, pKeys := PaddedBits(c.inputSize0, b.bits), Padded(c.inputSize0, b.macs),
        Padded(c.inputSize0, bKeys.localKeys);
    assert AuthBits(bits, bMacs, pKeys, keys.deltaA);
    WiresAuthed(c, bits, bMacs, pKeys, keys.deltaA, pe.masks, pe.macs, pg.keys, |c.gates|);
    forall w | 0 <= w < c.wireSize ensures c.Available(|c.gates|, w) {}
  }

  /** Steps 8 and 9: both parties compute their sums, the garbler sends its lowest bits, and the
      evaluator obtains its share of every triple. */
  method ExchangeTriples(c: Circuit, t: Order, m: XORSourceMatrix, keys: GlobalKeys, matrix: Matrix, cor: Correlations,
                         andedG: ITMacBits, andedGKeys: ITMacBitKeys, andedE: ITMacBits,
                         ghost a: seq<bool>, ghost b: seq<bool>) returns (bHat: seq<bool>)
    requires c.WellFormed() && OrderFor(c, t) && m.Valid() && m.mat.rowSize == c.wireSize
    requires SourcesFor(c, m.Rows(), m.flip)
    requires matrix.Valid() && matrix.rowSize == c.inputSize1 + c.AndGateSize() && keys.Good()
    requires cor.Hold(keys, matrix.colSize, c.TotalInputSize() + c.AndGateSize(), c.AndGateSize())
    requires BitsAuthed(andedG, andedGKeys) && andedGKeys.globalKeys == [keys.beta0, keys.deltaB]
    requires BitsFrom(c, cor.aMatrix.bits, a)
    requires BitsFrom(c, PaddedBits(c.inputSize0, BitProduct(matrix, cor.bStar.bits)), b)
    requires AndedBits(c, a, andedG.bits) && AndedBits(c, b, andedE.bits)
    ensures |bHat| == c.AndGateSize()
    ensures forall i :: 0 <= i < |bHat| ==>
              (cor.shares.bits[i] != bHat[i]) ==
              (((a[In0(c, i)] != b[In0(c, i)]) && (a[In1(c, i)] != b[In1(c, i)])) != TripleSpoiled(c, a, b, i))
  {
    hide Mul, Dot, Parity, SourceGate, OrderGate, BitGate, MaskGate, GarblerEntry, EvaluatorEntry, CachesAddUp,
         GarblerSum, EvaluatorSum, TripleSpoiled, AndedBits;
    var dualAuthedB := TimesBlockKeys(matrix, cor.dualBStarKeys);
    SizeOfKeys(|cor.aMatrix.bits|, matrix.colSize + 1);
    var abG := new DualKeyAuthedAbCalculator.Garbler(c, t, matrix, cor.aMatrix, dualAuthedB);
    var abE := new DualKeyAuthedAbCalculator.Evaluator(c, t, matrix, cor.aMatrixKeys);
    CachesExact(c, t, cor, keys, matrix, abG.resFlatMatrix, abE.resFlatMatrix, a, b);
    LinearFromSource(c, cor.aMatrix.bits, a);
    LinearFromSource(c, PaddedBits(c.inputSize0, BitProduct(matrix, cor.bStar.bits)), b);
    assert |andedG.bits| == |andedE.bits| == c.AndGateSize() by {
      AndedSize(c, a, andedG.bits);
      AndedSize(c, b, andedE.bits);
    }
    var sumG, lsbG := GarblerTriples(m, abG, andedG, cor.shares, keys.alpha0);
    var sumE, lsbE := EvaluatorTriples(m, abE, andedGKeys, cor.shareKeys);
    var receivedLsb := Resized(Unpacked(Packed(lsbG)), c.AndGateSize());
    PackUnpack(lsbG);
    bHat := BitXor(BitXor(receivedLsb, lsbE), andedE.bits);
    forall i | 0 <= i < |bHat|
      ensures (cor.shares.bits[i] != bHat[i]) ==
              (((a[In0(c, i)] != b[In0(c, i)]) && (a[In1(c, i)] != b[In1(c, i)])) != TripleSpoiled(c, a, b, i))
    {
      TripleBits(c, t, m.Rows(), m.flip, abG.resFlatMatrix, abE.resFlatMatrix, a, b, keys, andedG, andedGKeys,
                 cor.shares, cor.shareKeys, i);
      TripleShares(c, a, b, andedG.bits, andedE.bits, i, cor.shares.bits[i], lsbG[i], lsbE[i], bHat[i]);
    }
  }

  lemma AndedSize(c: Circuit, masks: seq<bool>, anded: seq<bool>)
    requires c.WellFormed() && |masks| == c.wireSize && AndedBits(c, masks, anded)
    ensures |anded| == c.AndGateSize()
  {
  }

  /** Whose bits and keys a run hands on.  The garbler's masks are grown from aMatrix, the evaluator's from the
      compressed bits expanded by the matrix, with zeros on the garbler's inputs; the garbler's triple shares are
      those drawn in step 5, under deltaB; all other keys are fixed from what was drawn.  The MACs follow. */
  ghost predicate PreprocessedFrom(c: Circuit, keys: GlobalKeys, matrix: Matrix, cor: Correlations, seed: CircuitSeed,
                                   r: Preprocessed)
    requires c.WellFormed() && matrix.Valid()
    requires |cor.bStar.bits| == |cor.bStarKeys.localKeys| == matrix.colSize
  {
    var n, ands := |cor.aMatrix.bits|, c.AndGateSize();
    && BitsFrom(c, cor.aMatrix.bits, r.garbler.masks.bits)
    && BitsFrom(c, PaddedBits(c.inputSize0, BitProduct(matrix, cor.bStar.bits)), r.evaluator.masks.bits)
    && BlocksFrom(c, FlatRow(cor.aMatrixKeys.localKeys, n, matrix.colSize), r.evaluator.maskKeys.localKeys)
    && BlocksFrom(c, Padded(c.inputSize0, BlockProduct(matrix, cor.bStarKeys.localKeys)), r.garbler.maskKeys.localKeys)
    && r.garbler.beaverTripleShares == ITMacBits(cor.shares.bits, FlatRow(cor.shares.macs, ands, 1))
    && r.evaluator.beaverTripleKeys == ITMacBitKeys(FlatRow(cor.shareKeys.localKeys, ands, 1), [keys.deltaB])
    && BitKeysFrom(r.andedGKeys.localKeys, r.andedG.bits, [keys.beta0, keys.deltaB], seed.andedG)
    && BitKeysFrom(r.andedEKeys.localKeys, r.andedE.bits, [keys.deltaA], seed.andedE)
    && BitKeysFrom(r.garbler.beaverTripleKeys.localKeys, r.evaluator.beaverTripleShares.bits, [keys.deltaA],
                   seed.triple)
  }

  lemma SecondRow(shares: ITMacBits, shareKeys: ITMacBitKeys, ands: nat)
    requires BitsAuthed(shares, shareKeys) && |shareKeys.globalKeys| == 2 && |shares.bits| == ands
    ensures shareKeys.Size() == ands && ands + ands <= |shares.macs| == |shareKeys.localKeys|
    ensures shares.ExtractByGlobalKey(1) == ITMacBits(shares.bits, FlatRow(shares.macs, ands, 1))
    ensures shareKeys.ExtractByGlobalKey(1) ==
            ITMacBitKeys(FlatRow(shareKeys.localKeys, ands, 1), [shareKeys.globalKeys[1]])
  {
    SizeOfKeys(ands, 2);
  }

  /** The parts of a run, put together. */
  lemma RunCorrect(c: Circuit, keys: GlobalKeys, r: Preprocessed)
    requires c.WellFormed() && |r.garbler.masks.bits| == |r.evaluator.masks.bits| == c.wireSize
    requires Authed(r.garbler.masks, r.evaluator.maskKeys, keys.deltaB)
    requires Authed(r.evaluator.masks, r.garbler.maskKeys, keys.deltaA)
    requires MasksLinear(c, r.garbler.masks.bits) && MasksLinear(c, r.evaluator.masks.bits)
    requires forall w :: 0 <= w < c.inputSize0 ==> !r.evaluator.masks.bits[w]
    requires AndedBits(c, r.garbler.masks.bits, r.andedG.bits) && AndedBits(c, r.evaluator.masks.bits, r.andedE.bits)
    requires BitsAuthed(r.andedG, r.andedGKeys) && r.andedGKeys.globalKeys == [keys.beta0, keys.deltaB]
    requires Authed(r.andedE, r.andedEKeys, keys.deltaA)
    requires |r.garbler.beaverTripleShares.bits| == |r.evaluator.beaverTripleShares.bits| == c.AndGateSize()
    requires Authed(r.garbler.beaverTripleShares, r.evaluator.beaverTripleKeys, keys.deltaB)
    requires Authed(r.evaluator.beaverTripleShares, r.garbler.beaverTripleKeys, keys.deltaA)
    requires var (a, b) := (r.garbler.masks.bits, r.evaluator.masks.bits);
             forall i :: 0 <= i < c.AndGateSize() ==>
               (r.garbler.beaverTripleShares.bits[i] != r.evaluator.beaverTripleShares.bits[i]) ==
               (((a[In0(c, i)] != b[In0(c, i)]) && (a[In1(c, i)] != b[In1(c, i)])) != TripleSpoiled(c, a, b, i))
    ensures r.Correct(c, keys)
  {
    hide AndedBits, TripleSpoiled, MasksLinear, BitsAuthed, Xor, Scale, Circuit.AndGates;
    forall k | 0 <= k < |c.gates| && c.gates[k].AndGate?
      ensures c.AndCount(k) < c.AndGateSize() &&
              (TripleHolds(c, r.garbler, r.evaluator, k) <==>
               !TripleSpoiled(c, r.garbler.masks.bits, r.evaluator.masks.bits, c.AndCount(k)))
    {
      c.AndPosition(k);
    }
  }

  /** Steps 6 to 10 of an honest run. */
  method Preprocess(c: Circuit, t: Order, m: XORSourceMatrix, keys: GlobalKeys, matrix: Matrix, cor: Correlations,
                    seed: CircuitSeed) returns (r: Preprocessed)
    requires c.WellFormed() && OrderFor(c, t) && m.Valid() && m.mat.rowSize == c.wireSize
    requires SourcesFor(c, m.Rows(), m.flip)
    requires matrix.Valid() && matrix.rowSize == c.inputSize1 + c.AndGateSize() && keys.Good()
    requires cor.Hold(keys, matrix.colSize, c.TotalInputSize() + c.AndGateSize(), c.AndGateSize())
    requires seed.For(c.AndGateSize())
    ensures r.Correct(c, keys) && PreprocessedFrom(c, keys, matrix, cor, seed, r)
  {
    hide Mul, Dot, Parity, BitGate, BlockGate, SourceGate, OrderGate, AndedBits, Product, TripleSpoiled, BitKeysFrom,
         MasksLinear, BitsAuthed, BlocksFrom, Preprocessed.Correct;
    // step 6
    var pg, pe, andedBitsG, andedBitsE := PopulateBoth(c, keys, matrix, cor);
    AndedSize(c, pg.masks, andedBitsG);
    AndedSize(c, pe.masks, andedBitsE);
    // step 7
    var andedE, andedEKeys := ChosenBits([keys.deltaA], andedBitsE, seed.andedE);
    SingleKeyBits(andedE, andedEKeys, keys.deltaA);
    var andedG, andedGKeys := ChosenBits([keys.beta0, keys.deltaB], andedBitsG, seed.andedG);
    // steps 8 and 9
    var bHat := ExchangeTriples(c, t, m, keys, matrix, cor, andedG, andedGKeys, andedE, pg.masks, pe.masks);
    // step 10
    var triple, tripleKeys := ChosenBits([keys.deltaA], bHat, seed.triple);
    SingleKeyBits(triple, tripleKeys, keys.deltaA);
    ExtractAuthed(cor.shares, cor.shareKeys, 1);
    SecondRow(cor.shares, cor.shareKeys, c.AndGateSize());
    r := Preprocessed(
      PreprocessedData(ITMacBits(pg.masks, pg.macs), ITMacBitKeys(pg.keys, [keys.deltaA]),
                       cor.shares.ExtractByGlobalKey(1), tripleKeys),
      PreprocessedData(ITMacBits(pe.masks, pe.macs), ITMacBitKeys(pe.keys, [keys.deltaB]),
                       triple, cor.shareKeys.ExtractByGlobalKey(1)),
      andedG, andedGKeys, andedE, andedEKeys);
    LinearFromSource(c, cor.aMatrix.bits, pg.masks);
    LinearFromSource(c, PaddedBits(c.inputSize0, BitProduct(matrix, cor.bStar.bits)), pe.masks);
    RunCorrect(c, keys, r);
  }
}
