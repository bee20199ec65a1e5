/** The consistency checks that close preprocessing: every honest run passes them. */
module DeltaChecks {
  import opened Blocks
  import opened Sums
  import opened Circuits
  import opened XorSources
  import opened Authenticated
  import opened CorrelatedOT
  import opened Field
  import opened FieldTheorem
  import opened Equality
  import opened DVZK
  import opened Populate
  import opened KeySampling
  import opened Simulation
  import opened Preprocessing

  // ---------------------------------------------------------------- products over all AND gates

  /** The claim about AND gate i: the two input mask bits multiply to the authenticated product. */
  ghost function StreamItem(c: Circuit, masks: seq<bool>, macs: seq<Block>, keys: seq<Block>, anded: bool,
                            andedMac: Block, andedKey: Block, chi: Block, i: nat): Item
    requires c.WellFormed() && i < c.AndGateSize() && |masks| == |macs| == |keys| == c.wireSize
  {
    var (w0, w1) := (In0(c, i), In1(c, i));
    Item(Scale(masks[w0], One()), Scale(masks[w1], One()), Scale(anded, One()), macs[w0], macs[w1], andedMac,
         keys[w0], keys[w1], andedKey, chi)
  }

  ghost function StreamItems(c: Circuit, masks: seq<bool>, macs: seq<Block>, keys: seq<Block>, anded: seq<bool>,
                             andedMacs: seq<Block>, andedKeys: seq<Block>, chal: seq<Block>): (r: seq<Item>)
    requires c.WellFormed() && |masks| == |macs| == |keys| == c.wireSize
    requires |anded| == |andedMacs| == |andedKeys| == |chal| == c.AndGateSize()
    ensures |r| == c.AndGateSize()
    ensures forall i :: 0 <= i < |r| ==>
              r[i] == StreamItem(c, masks, macs, keys, anded[i], andedMacs[i], andedKeys[i], chal[i], i)
  {
    seq(c.AndGateSize(), i requires 0 <= i < c.AndGateSize() =>
      StreamItem(c, masks, macs, keys, anded[i], andedMacs[i], andedKeys[i], chal[i], i))
  }

  /** Challenges of the gates whose product is wrong. */
  ghost function LostChallenges(c: Circuit, masks: seq<bool>, anded: seq<bool>, chal: seq<Block>): (r: seq<Block>)
    requires c.WellFormed() && |masks| == c.wireSize && |anded| == |chal| == c.AndGateSize()
    ensures |r| == |chal| && forall i :: 0 <= i < |r| ==> r[i] == Scale(anded[i] != Product(c, masks, i), chal[i])
  {
    seq(|chal|, i requires 0 <= i < |chal| => Scale(anded[i] != Product(c, masks, i), chal[i]))
  }

  /** A gate's weighted defect is its challenge if the product is wrong and zero otherwise. */
  lemma DefectOfGate(c: Circuit, masks: seq<bool>, macs: seq<Block>, keys: seq<Block>, anded: bool, andedMac: Block,
                     andedKey: Block, chi: Block, i: nat)
    requires c.WellFormed() && i < c.AndGateSize() && |masks| == |macs| == |keys| == c.wireSize
    ensures DefectTerm(StreamItem(c, masks, macs, keys, anded, andedMac, andedKey, chi, i)) ==
            Scale(anded != Product(c, masks, i), chi)
  {
    hide Mul;
    var x, y := masks[In0(c, i)], masks[In1(c, i)];
    EmbeddedBit(x, Scale(y, One()));
    assert Xor(Scale(x, Scale(y, One())), Scale(anded, One())) == Scale(anded != (x && y), One());
    MulComm(chi, Scale(anded != (x && y), One()));
    EmbeddedBit(anded != (x && y), chi);
  }

  lemma StreamDefect(c: Circuit, masks: seq<bool>, macs: seq<Block>, keys: seq<Block>, anded: seq<bool>,
                     andedMacs: seq<Block>, andedKeys: seq<Block>, chal: seq<Block>)
    requires c.WellFormed() && |masks| == |macs| == |keys| == c.wireSize
    requires |anded| == |andedMacs| == |andedKeys| == |chal| == c.AndGateSize()
    ensures DefectSum(StreamItems(c, masks, macs, keys, anded, andedMacs, andedKeys, chal)) ==
            Sum(LostChallenges(c, masks, anded, chal), |chal|)
  {
    hide Mul, StreamItem, DefectTerm, Product;
    var items := StreamItems(c, masks, macs, keys, anded, andedMacs, andedKeys, chal);
    forall i | 0 <= i < |items| ensures DefectTerms(items)[i] == LostChallenges(c, masks, anded, chal)[i] {
      DefectOfGate(c, masks, macs, keys, anded[i], andedMacs[i], andedKeys[i], chal[i], i);
    }
    SumCong(DefectTerms(items), LostChallenges(c, masks, anded, chal), |items|);
  }

  lemma StreamAuthed(c: Circuit, masks: seq<bool>, macs: seq<Block>, keys: seq<Block>, anded: seq<bool>,
                     andedMacs: seq<Block>, andedKeys: seq<Block>, chal: seq<Block>, delta: Block)
    requires c.WellFormed() && |masks| == c.wireSize && AuthBits(masks, macs, keys, delta)
    requires AuthBits(anded, andedMacs, andedKeys, delta) && |anded| == |chal| == c.AndGateSize()
    ensures var items := StreamItems(c, masks, macs, keys, anded, andedMacs, andedKeys, chal);
            forall i :: 0 <= i < |items| ==> items[i].Authed(delta)
  {
    hide Mul;
    var items := StreamItems(c, masks, macs, keys, anded, andedMacs, andedKeys, chal);
    forall i | 0 <= i < |items| ensures items[i].Authed(delta) {
      EmbeddedBit(masks[In0(c, i)], delta);
      EmbeddedBit(masks[In1(c, i)], delta);
      EmbeddedBit(anded[i], delta);
    }
  }

  /** The proof of one direction is accepted exactly when the challenges of the wrong products cancel. */
  lemma StreamExact(c: Circuit, masks: seq<bool>, macs: seq<Block>, keys: seq<Block>, anded: seq<bool>,
                    andedMacs: seq<Block>, andedKeys: seq<Block>, chal: seq<Block>, delta: Block)
    requires c.WellFormed() && |masks| == c.wireSize && AuthBits(masks, macs, keys, delta) && delta != Zero()
    requires AuthBits(anded, andedMacs, andedKeys, delta) && |anded| == |chal| == c.AndGateSize()
    ensures var items := StreamItems(c, masks, macs, keys, anded, andedMacs, andedKeys, chal);
            && (forall i :: 0 <= i < |items| ==> items[i].Authed(delta))
            && (Mul(DefectSum(items), Mul(delta, delta)) == Zero() <==>
                Sum(LostChallenges(c, masks, anded, chal), |chal|) == Zero())
  {
    hide Mul, DefectSum, LostChallenges;
    StreamAuthed(c, masks, macs, keys, anded, andedMacs, andedKeys, chal, delta);
    AcceptExact(StreamItems(c, masks, macs, keys, anded, andedMacs, andedKeys, chal), delta);
    StreamDefect(c, masks, macs, keys, anded, andedMacs, andedKeys, chal);
  }

  /** One party's walk over the AND gates: it proves its own products and verifies the other's.
      The ghost arguments are what the other party holds. */
  method Stream(c: Circuit, t: Order, prover: Prover, verifier: Verifier, masks: ITMacBits, maskKeys: ITMacBitKeys,
                ownAnded: seq<bool>, ownAndedMacs: seq<Block>, otherAndedKeys: seq<Block>,
                proverChal: seq<Block>, verifierChal: seq<Block>,
                ghost otherMasks: ITMacBits, ghost otherMaskKeys: seq<Block>,
                ghost otherAnded: seq<bool>, ghost otherAndedMacs: seq<Block>, ghost ownAndedKeys: seq<Block>)
    requires c.WellFormed() && OrderFor(c, t) && |masks.bits| == |masks.macs| == |maskKeys.localKeys| == c.wireSize
    requires |otherMasks.bits| == |otherMasks.macs| == |otherMaskKeys| == c.wireSize && |maskKeys.globalKeys| == 1
    requires |ownAnded| == |ownAndedMacs| == |otherAndedKeys| == |proverChal| == |verifierChal| == c.AndGateSize()
    requires |otherAnded| == |otherAndedMacs| == |ownAndedKeys| == c.AndGateSize()
    requires prover.Valid() && prover.items == [] && verifier.Valid() && verifier.items == []
    modifies prover, verifier
    ensures prover.Valid() && verifier.Valid()
    ensures prover.items ==
            StreamItems(c, masks.bits, masks.macs, otherMaskKeys, ownAnded, ownAndedMacs, ownAndedKeys, proverChal)
    ensures verifier.items ==
            StreamItems(c, otherMasks.bits, otherMasks.macs, maskKeys.localKeys, otherAnded, otherAndedMacs,
                        otherAndedKeys, verifierChal)
  {
    hide Mul, Scale, A0Of, A1Of, BOf, StreamItems, Circuit.AndGates;
    ghost var own := StreamItems(c, masks.bits, masks.macs, otherMaskKeys, ownAnded, ownAndedMacs, ownAndedKeys,
                                 proverChal);
    ghost var other :=
      StreamItems(c, otherMasks.bits, otherMasks.macs, maskKeys.localKeys, otherAnded, otherAndedMacs, otherAndedKeys,
                  verifierChal);
    for andGateOrder := 0 to c.AndGateSize()
      invariant prover.Valid() && prover.items == own[..andGateOrder]
      invariant verifier.Valid() && verifier.items == other[..andGateOrder]
    {
      c.AndPositionInverse(andGateOrder);
      var gate := c.gates[t.andToGlobalIndex[andGateOrder]];
      assert gate.in0 == In0(c, andGateOrder) && gate.in1 == In1(c, andGateOrder);
      prover.UpdateBits(proverChal[andGateOrder], (masks.bits[gate.in0], masks.bits[gate.in1], ownAnded[andGateOrder]),
                        (masks.GetMac(0, gate.in0), masks.GetMac(0, gate.in1), ownAndedMacs[andGateOrder]),
                        own[andGateOrder]);
      verifier.Update(verifierChal[andGateOrder], (maskKeys.GetLocalKey(0, gate.in0), maskKeys.GetLocalKey(0, gate.in1),
                                                   otherAndedKeys[andGateOrder]), other[andGateOrder]);
    }
    assert own[..c.AndGateSize()] == own && other[..c.AndGateSize()] == other;
  }

  // ---------------------------------------------------------------- equality under two keys

  /** Both sides of eqcheck_diff_key: each re-authenticates its MACs under the other's key. */
  method RunEqcheck(blocks0: seq<Block>, macs0: seq<Block>, keys0: seq<Block>, gk0: Block,
                    blocks1: seq<Block>, macs1: seq<Block>, keys1: seq<Block>, gk1: Block, seed0: OTSeed, seed1: OTSeed)
    returns (toHashP: seq<Block>, toHashV: seq<Block>)
    requires AuthBlocks(blocks0, macs0, keys0, gk0) && AuthBlocks(blocks1, macs1, keys1, gk1) && |blocks0| == |blocks1|
    requires seed0.For(BLOCK_BITS * |blocks0|, 1) && seed1.For(BLOCK_BITS * |blocks0|, 1)
    ensures |toHashP| == |toHashV| == |blocks0|
    ensures forall i :: 0 <= i < |blocks0| ==>
              Xor(toHashP[i], toHashV[i]) == Mul(Xor(blocks0[i], blocks1[i]), Mul(gk0, gk1))
  {
    hide Mul;
    var authedMacs1, authedMacKeys1 := ChosenBlocks([gk0], macs1, seed1);
    var authedMacs0, authedMacKeys0 := ChosenBlocks([gk1], macs0, seed0);
    SingleKeyBlocks(authedMacs1, authedMacKeys1, gk0);
    SingleKeyBlocks(authedMacs0, authedMacKeys0, gk1);
    toHashP := EqcheckProve(authedMacs0.macs, authedMacs1.macs);
    toHashV := EqcheckVerify(keys0, gk0, keys1, gk1, authedMacKeys0.localKeys, authedMacKeys1.localKeys);
    forall i | 0 <= i < |blocks0|
      ensures Xor(toHashP[i], toHashV[i]) == Mul(Xor(blocks0[i], blocks1[i]), Mul(gk0, gk1))
    {
      EqcheckExact(blocks0[i], blocks1[i], keys0[i], keys1[i], gk0, gk1, macs0[i], macs1[i],
                   authedMacKeys0.localKeys[i], authedMacKeys1.localKeys[i], authedMacs0.macs[i], authedMacs1.macs[i]);
    }
  }

  /** Equal values always pass; with non-zero keys nothing else does. */
  lemma EqcheckPasses(x0: seq<Block>, x1: seq<Block>, gk0: Block, gk1: Block, toHashP: seq<Block>, toHashV: seq<Block>)
    requires |x0| == |x1| == |toHashP| == |toHashV|
    requires forall i :: 0 <= i < |x0| ==> Xor(toHashP[i], toHashV[i]) == Mul(Xor(x0[i], x1[i]), Mul(gk0, gk1))
    ensures x0 == x1 ==> toHashP == toHashV
    ensures gk0 != Zero() && gk1 != Zero() ==> (toHashP == toHashV <==> x0 == x1)
  {
    hide Mul;
    forall i | 0 <= i < |x0|
      ensures x0[i] == x1[i] ==> toHashP[i] == toHashV[i]
      ensures gk0 != Zero() && gk1 != Zero() ==> (toHashP[i] == toHashV[i] <==> x0[i] == x1[i])
    {
      XorCancel(toHashP[i], toHashV[i]);
      XorCancel(x0[i], x1[i]);
      MulZero(Mul(gk0, gk1));
      if gk0 != Zero() && gk1 != Zero() {
        EqcheckDecides(x0[i], x1[i], gk0, gk1);
      }
    }
  }

  // ---------------------------------------------------------------- the whole check

  datatype CheckSeed = CheckSeed(maskG: OTSeed, maskE: OTSeed, chalG: seq<Block>, chalE: seq<Block>,
                                 batchMask: OTSeed, batchChal: seq<Block>, sid3: OTSeed,
                                 eq0: OTSeed, eq1: OTSeed, inv0: OTSeed, inv1: OTSeed)
  {
    predicate For(compressParam: nat, ands: nat) {
      && maskG.For(BLOCK_BITS, 1) && maskE.For(BLOCK_BITS, 1) && |chalG| == |chalE| == ands
      && batchMask.For(BLOCK_BITS, 1) && |batchChal| == compressParam && sid3.For(BLOCK_BITS, 1)
      && eq0.For(BLOCK_BITS, 1) && eq1.For(BLOCK_BITS, 1)
      && inv0.For(BLOCK_BITS * compressParam, 1) && inv1.For(BLOCK_BITS * compressParam, 1)
    }
  }

  /** The two streaming proofs; each passes exactly when the challenges of its prover's wrong
      products cancel. */
  method CheckProducts(c: Circuit, t: Order, keys: GlobalKeys, pre: Preprocessed, seed: CheckSeed)
    returns (garblerProof: bool, evaluatorProof: bool)
    requires c.WellFormed() && OrderFor(c, t) && keys.Good() && pre.Correct(c, keys)
    requires |seed.chalG| == |seed.chalE| == c.AndGateSize() && seed.maskG.For(BLOCK_BITS, 1)
    requires seed.maskE.For(BLOCK_BITS, 1)
    requires |pre.andedG.bits| == |pre.andedE.bits| == c.AndGateSize()
    ensures garblerProof <==>
              Sum(LostChallenges(c, pre.garbler.masks.bits, pre.andedG.bits, seed.chalG), |seed.chalG|) == Zero()
    ensures evaluatorProof <==>
              Sum(LostChallenges(c, pre.evaluator.masks.bits, pre.andedE.bits, seed.chalE), |seed.chalE|) == Zero()
  {
    hide Mul, Xor, Scale, AndedBits, TripleHolds, TripleSpoiled, MasksLinear, A0Of, A1Of, BOf, DefectSum, StreamItems,
         LostChallenges, Circuit.WellFormed, OrderFor, Sum;
    keys.NonZero();
    ExtractAuthed(pre.andedG, pre.andedGKeys, 1);
    var g, e := pre.garbler, pre.evaluator;
    var andedG, andedGKeys := pre.andedG.ExtractByGlobalKey(1), pre.andedGKeys.ExtractByGlobalKey(1);
    var maskG, maskGKeys := RandomBlocks([keys.deltaB], 1, seed.maskG);
    var maskE, maskEKeys := RandomBlocks([keys.deltaA], 1, seed.maskE);
    SingleKeyBlocks(maskG, maskGKeys, keys.deltaB);
    SingleKeyBlocks(maskE, maskEKeys, keys.deltaA);
    var proverG := new Prover(maskG.blocks[0], maskG.macs[0]);
    var verifierE := new Verifier(keys.deltaB, maskGKeys.localKeys[0]);
    var proverE := new Prover(maskE.blocks[0], maskE.macs[0]);
    var verifierG := new Verifier(keys.deltaA, maskEKeys.localKeys[0]);
    Stream(c, t, proverG, verifierG, g.masks, g.maskKeys, andedG.bits, andedG.macs, pre.andedEKeys.localKeys,
           seed.chalG, seed.chalE, e.masks, e.maskKeys.localKeys, pre.andedE.bits, pre.andedE.macs,
           andedGKeys.localKeys);
    Stream(c, t, proverE, verifierE, e.masks, e.maskKeys, pre.andedE.bits, pre.andedE.macs, andedGKeys.localKeys,
           seed.chalE, seed.chalG, g.masks, g.maskKeys.localKeys, andedG.bits, andedG.macs, pre.andedEKeys.localKeys);
    StreamExact(c, g.masks.bits, g.masks.macs, e.maskKeys.localKeys, andedG.bits, andedG.macs, andedGKeys.localKeys,
                seed.chalG, keys.deltaB);
    StreamExact(c, e.masks.bits, e.masks.macs, g.maskKeys.localKeys, pre.andedE.bits, pre.andedE.macs,
                pre.andedEKeys.localKeys, seed.chalE, keys.deltaA);
    garblerProof := verifierE.Verify(proverG.a0, proverG.a1, maskG.blocks[0]);
    evaluatorProof := verifierG.Verify(proverE.a0, proverE.a1, maskE.blocks[0]);
  }

  /** check_same_bit between the key holder's and the value holder's XORs, through the hash halves. */
  method CheckSameBit(hash: Block -> Digest, keyHolder: Block, valueHolder: Block) returns (accepted: bool)
    ensures keyHolder == valueHolder ==> accepted
    ensures accepted <==> hash(keyHolder) == hash(valueHolder)
  {
    var high := CompareHashHigh(hash(keyHolder), hash(valueHolder).high);
    var low := CompareHashLow(hash(valueHolder), hash(keyHolder).low);
    CompareHashExact(hash(keyHolder), hash(valueHolder));
    accepted := high && low;
  }

  /** The garbler's temporary key, authenticated three times: both comparisons, whatever values and keys went
      into the extensions, are of blocks that differ by the difference of two products of key and value. */
  method CheckTemporaryKey(keys: GlobalKeys, cor: Correlations, compressParam: nat, hash: Block -> Digest,
                           toCheck3: ITMacBlocks, toCheck3Keys: ITMacBlockKeys)
    returns (same0: bool, same1: bool, ghost k0: Block, ghost v0: Block, ghost k1: Block, ghost v1: Block)
    requires cor.Authentic(keys, compressParam) && |toCheck3.blocks| == 1
    requires AuthBlocks(toCheck3.blocks, toCheck3.macs, toCheck3Keys.localKeys, cor.tmpDelta.blocks[0])
    ensures (same0 <==> hash(k0) == hash(v0)) && (same1 <==> hash(k1) == hash(v1))
    ensures var (x1, x2) := (cor.tmpDelta.blocks[0], cor.tmpDelta5.blocks[0]);
            var (key1, key2) := (cor.tmpDeltaKeys.globalKeys[compressParam], cor.tmpDelta5Keys.globalKeys[1]);
            && Xor(k0, v0) == Xor(Mul(key1, x1), Mul(key2, x2))
            && Xor(k1, v1) == Xor(Mul(key2, x2), Mul(toCheck3.blocks[0], x1))
  {
    hide Mul, BitsAuthed;
    var betaE, betaG := SwapAllKeys(cor.tmpDeltaKeys), SwapAllBlocks(cor.tmpDelta);
    SingleBlock(cor.tmpDelta, cor.tmpDeltaKeys, compressParam);
    var toCheck1, toCheck1Key := betaE.macs[compressParam], betaG.localKeys[compressParam];
    SwapOne(toCheck1Key, toCheck1, cor.tmpDelta.blocks[0], cor.tmpDeltaKeys.globalKeys[compressParam]);
    var toCheck2, toCheck2Key := SwapKeys(cor.tmpDelta5Keys, 1, 0), SwapBlocks(cor.tmpDelta5, 1, 0);
    SingleBlock(cor.tmpDelta5, cor.tmpDelta5Keys, 1);
    SwapOne(toCheck2Key.localKeys[0], toCheck2.macs[0], cor.tmpDelta5.blocks[0], cor.tmpDelta5Keys.globalKeys[1]);
    k0, v0 := Xor(toCheck1Key, toCheck2Key.localKeys[0]), Xor(toCheck1, toCheck2.macs[0]);
    k1, v1 := Xor(toCheck2Key.localKeys[0], toCheck3Keys.localKeys[0]), Xor(toCheck2.macs[0], toCheck3.macs[0]);
    same0 := CheckSameBit(hash, Xor(toCheck1Key, toCheck2Key.localKeys[0]), Xor(toCheck1, toCheck2.macs[0]));
    same1 := CheckSameBit(hash, Xor(toCheck2Key.localKeys[0], toCheck3Keys.localKeys[0]),
                          Xor(toCheck2.macs[0], toCheck3.macs[0]));
    KeysAndValues(toCheck1Key, toCheck2Key.localKeys[0],
                  Mul(cor.tmpDeltaKeys.globalKeys[compressParam], cor.tmpDelta.blocks[0]),
                  Mul(cor.tmpDelta5Keys.globalKeys[1], cor.tmpDelta5.blocks[0]));
    KeysAndValues(toCheck2Key.localKeys[0], toCheck3Keys.localKeys[0],
                  Mul(cor.tmpDelta5Keys.globalKeys[1], cor.tmpDelta5.blocks[0]),
                  Mul(toCheck3.blocks[0], cor.tmpDelta.blocks[0]));
  }

  lemma KeysAndValues(k0: Block, k1: Block, p0: Block, p1: Block)
    ensures Xor(Xor(k0, k1), Xor(Xor(k0, p0), Xor(k1, p1))) == Xor(p0, p1)
  {
  }

  /** Re-reading the blocks of step 3 upside down: their MACs, under 1 / deltaA, against the keys the evaluator
      really used in step 4, entry by entry. */
  method CheckInverse(keys: GlobalKeys, cor: Correlations, compressParam: nat, hash128: seq<Block> -> nat,
                      seed: CheckSeed)
    returns (accepted: bool, ghost toHashP: seq<Block>, ghost toHashV: seq<Block>)
    requires cor.Authentic(keys, compressParam) && keys.Good()
    requires seed.inv0.For(BLOCK_BITS * compressParam, 1) && seed.inv1.For(BLOCK_BITS * compressParam, 1)
    ensures |toHashP| == |toHashV| == compressParam && (accepted <==> hash128(toHashP) == hash128(toHashV))
    ensures forall i :: 0 <= i < compressParam ==>
              Xor(toHashP[i], toHashV[i]) == Mul(Xor(cor.dualBStar.macs[i], cor.tmpDeltaKeys.globalKeys[i]),
                                                 Mul(Inverse(keys.deltaA), cor.tmpDelta.blocks[0]))
  {
    hide Mul, BitsAuthed, Inverse;
    keys.NonZero();
    SizeOfKeys(|cor.dualBStar.blocks|, 1);
    var dual := new BlockStore(cor.dualBStar);
    var dualKeys := new KeyStore(cor.dualBStarKeys);
    ghost var oldKeys := cor.dualBStarKeys.localKeys;
    SingleKeyBlocks(cor.dualBStar, cor.dualBStarKeys, keys.deltaA);
    dual.InverseValueAndMac();
    dualKeys.InverseValueAndMac();
    assert dualKeys.globalKeys == [Inverse(keys.deltaA)];
    forall i | 0 <= i < |oldKeys| ensures dualKeys.localKeys[i] == Mul(oldKeys[i], Inverse(keys.deltaA)) {
      assert Flat(dualKeys.localKeys, |oldKeys|, 0, i) == dualKeys.localKeys[i] &&
             Flat(oldKeys, |oldKeys|, 0, i) == oldKeys[i];
    }
    InverseAuthed(cor.dualBStar.blocks, cor.dualBStar.macs, oldKeys, keys.deltaA, dualKeys.localKeys);
    var L := compressParam;
    var betaE, betaG := SwapAllKeys(cor.tmpDeltaKeys), SwapAllBlocks(cor.tmpDelta);
    SwappedPrefix(keys, cor, L);
    var hashedP, hashedV := RunEqcheck(dual.blocks, dual.macs, dualKeys.localKeys, dualKeys.globalKeys[0],
                                       betaE.blocks[..L], betaE.macs[..L], betaG.localKeys[..L], betaG.globalKeys[0],
                                       seed.inv0, seed.inv1);
    toHashP, toHashV := hashedP, hashedV;
    accepted := hash128(hashedP) == hash128(hashedV);
  }

  lemma SwappedPrefix(keys: GlobalKeys, cor: Correlations, L: nat)
    requires cor.Authentic(keys, L)
    ensures var betaE, betaG := SwapAllKeys(cor.tmpDeltaKeys), SwapAllBlocks(cor.tmpDelta);
            && |betaE.blocks| == |betaE.macs| == |betaG.localKeys| == L + 1
            && betaE.blocks == cor.tmpDeltaKeys.globalKeys
            && AuthBlocks(betaE.blocks[..L], betaE.macs[..L], betaG.localKeys[..L], cor.tmpDelta.blocks[0])
  {
    hide Mul, BitsAuthed;
    SwapAllAuthed(cor.tmpDelta, cor.tmpDeltaKeys);
    SingleKeyBlocks(SwapAllKeys(cor.tmpDeltaKeys), SwapAllBlocks(cor.tmpDelta), cor.tmpDelta.blocks[0]);
  }

  datatype CheckResult = CheckResult(garblerProof: bool, evaluatorProof: bool, batchProof: bool, same0: bool,
                                     same1: bool, deltaConsistent: bool, inverseConsistent: bool)

  /** What the two sides hash in the four comparisons of keys. */
  datatype Compared = Compared(k0: Block, v0: Block, k1: Block, v1: Block,
                               deltaP: seq<Block>, deltaV: seq<Block>, inverseP: seq<Block>, inverseV: seq<Block>)
  {
    /** Each pair differs by what the compared values and keys differ by, and by nothing else. */
    ghost predicate Of(keys: GlobalKeys, cor: Correlations, compressParam: nat)
      requires cor.Authentic(keys, compressParam)
    {
      var (x1, x2) := (cor.tmpDelta.blocks[0], cor.tmpDelta5.blocks[0]);
      var (key1, key2) := (cor.tmpDeltaKeys.globalKeys[compressParam], cor.tmpDelta5Keys.globalKeys[1]);
      && Xor(k0, v0) == Xor(Mul(key1, x1), Mul(key2, x2))
      && Xor(k1, v1) == Xor(Mul(key2, x2), Mul(keys.deltaB, x1))
      && deltaP == deltaV
      && |inverseP| == |inverseV| == compressParam
      && forall i :: 0 <= i < compressParam ==>
           Xor(inverseP[i], inverseV[i]) == Mul(Xor(cor.dualBStar.macs[i], cor.tmpDeltaKeys.globalKeys[i]),
                                                Mul(Inverse(keys.deltaA), x1))
    }
  }

  lemma HonestlyAuthentic(keys: GlobalKeys, cor: Correlations, compressParam: nat, wires: nat, ands: nat)
    requires cor.Hold(keys, compressParam, wires, ands)
    ensures cor.Authentic(keys, compressParam)
    ensures cor.Hold(keys, compressParam, |cor.aMatrix.bits|, |cor.shares.bits|)
  {
    hide BitsAuthed, BlocksAuthed, Authed;
  }

  /** In an honest run all compared pairs are equal. */
  lemma HonestCompared(keys: GlobalKeys, cor: Correlations, compressParam: nat, d: Compared)
    requires cor.Hold(keys, compressParam, |cor.aMatrix.bits|, |cor.shares.bits|)
    requires cor.Authentic(keys, compressParam) && d.Of(keys, cor, compressParam)
    ensures d.k0 == d.v0 && d.k1 == d.v1 && d.deltaP == d.deltaV && d.inverseP == d.inverseV
  {
    hide Mul, Inverse, BitsAuthed, BlocksAuthed, Authed;
    XorSelf(Mul(keys.deltaB, cor.tmpDelta.blocks[0]));
    XorCancel(d.k0, d.v0);
    XorCancel(d.k1, d.v1);
    forall i | 0 <= i < compressParam ensures d.inverseP[i] == d.inverseV[i] {
      XorSelf(cor.dualBStar.macs[i]);
      MulZero(Mul(Inverse(keys.deltaA), cor.tmpDelta.blocks[0]));
      XorCancel(d.inverseP[i], d.inverseV[i]);
    }
  }

  /** What the comparisons establish, whatever the evaluator put in: unless a hash collides, with a non-zero
      temporary key, they all agree exactly when its keys of step 4 are the MACs of step 3 followed by deltaB, and
      its second key of step 5, times the temporary key there, is deltaB times the temporary key of step 4. */
  lemma ComparedExactly(keys: GlobalKeys, cor: Correlations, compressParam: nat, d: Compared)
    requires keys.Good() && cor.Authentic(keys, compressParam) && d.Of(keys, cor, compressParam)
    requires cor.tmpDelta.blocks[0] != Zero()
    ensures d.k0 == d.v0 && d.k1 == d.v1 && d.inverseP == d.inverseV <==>
            && cor.tmpDeltaKeys.globalKeys == cor.dualBStar.macs + [keys.deltaB]
            && Mul(cor.tmpDelta5Keys.globalKeys[1], cor.tmpDelta5.blocks[0]) ==
               Mul(keys.deltaB, cor.tmpDelta.blocks[0])
  {
    hide Mul, Inverse, BitsAuthed, BlocksAuthed, Authed;
    keys.NonZero();
    var L, x1 := compressParam, cor.tmpDelta.blocks[0];
    var used, macs := cor.tmpDeltaKeys.globalKeys, cor.dualBStar.macs;
    XorCancel(d.k0, d.v0);
    XorCancel(d.k1, d.v1);
    var p1, p2, p3 := Mul(used[L], x1), Mul(cor.tmpDelta5Keys.globalKeys[1], cor.tmpDelta5.blocks[0]),
        Mul(keys.deltaB, x1);
    XorCancel(p1, p2);
    XorCancel(p2, p3);
    SameProduct(used[L], keys.deltaB, x1);
    InverseNonZero(keys.deltaA);
    EqcheckPasses(macs, used[..L], Inverse(keys.deltaA), x1, d.inverseP, d.inverseV);
    assert used == used[..L] + [used[L]];
    assert used == macs + [keys.deltaB] <==> used[..L] == macs && used[L] == keys.deltaB by {
      if used == macs + [keys.deltaB] { assert (macs + [keys.deltaB])[..L] == macs; }
    }
  }

  lemma SameProduct(a: Block, b: Block, x: Block)
    requires x != Zero()
    ensures Mul(a, x) == Mul(b, x) <==> a == b
  {
    hide Mul;
    MulDistLeft(a, b, x);
    XorCancel(Mul(a, x), Mul(b, x));
    XorCancel(a, b);
    MulZero(x);
    if a != b { NoZeroDivisors(Xor(a, b), x); }
  }

  lemma InverseNonZero(x: Block)
    requires x != Zero()
    ensures Inverse(x) != Zero()
  {
    hide Mul, Inverse;
    InverseCorrect(x);
    MulZero(x);
    MulComm(x, Inverse(x));
    assert !Zero()[0] && One()[0];
  }

  /** check_delta on both sides, whatever went into the extensions.  Each streaming proof passes exactly when the
      challenges of its prover's wrong products cancel, the batch proof exactly when those of the wrong products
      bStar * deltaB do, and each of the four comparisons exactly when the stated blocks hash alike.  In an honest
      run the last five pass. */
  method CheckDelta(c: Circuit, t: Order, keys: GlobalKeys, cor: Correlations, compressParam: nat, pre: Preprocessed,
                    hash: Block -> Digest, hash128: seq<Block> -> nat, seed: CheckSeed)
    returns (r: CheckResult, ghost d: Compared)
    requires c.WellFormed() && OrderFor(c, t) && keys.Good() && pre.Correct(c, keys)
    requires cor.Authentic(keys, compressParam) && seed.For(compressParam, c.AndGateSize())
    ensures |pre.andedG.bits| == |pre.andedE.bits| == c.AndGateSize()
    ensures r.garblerProof <==>
              Sum(LostChallenges(c, pre.garbler.masks.bits, pre.andedG.bits, seed.chalG), |seed.chalG|) == Zero()
    ensures r.evaluatorProof <==>
              Sum(LostChallenges(c, pre.evaluator.masks.bits, pre.andedE.bits, seed.chalE), |seed.chalE|) == Zero()
    ensures r.batchProof <==>
              DefectSum(ItemsOf(cor.bStar.bits, cor.bStar.macs, cor.bStarKeys.localKeys, keys.deltaB, keys.beta0,
                                keys.alpha0, cor.dualBStar.blocks, cor.dualBStar.macs, cor.dualBStarKeys.localKeys,
                                seed.batchChal)) == Zero()
    ensures d.Of(keys, cor, compressParam)
    ensures (r.same0 <==> hash(d.k0) == hash(d.v0)) && (r.same1 <==> hash(d.k1) == hash(d.v1))
    ensures r.deltaConsistent <==> hash128(d.deltaP) == hash128(d.deltaV)
    ensures r.inverseConsistent <==> hash128(d.inverseP) == hash128(d.inverseV)
    ensures cor.Hold(keys, compressParam, |cor.aMatrix.bits|, |cor.shares.bits|) ==>
              r.batchProof && r.same0 && r.same1 && r.deltaConsistent && r.inverseConsistent
  {
    hide Mul, BitsAuthed, AndedBits, MacsHold, MasksLinear, TripleHolds, TripleSpoiled, LostChallenges, DefectSum,
         Inverse, ItemsOf;
    keys.NonZero();
    AndedSizes(c, keys, pre);
    var garblerProof, evaluatorProof := CheckProducts(c, t, keys, pre, seed);
    var mask, maskKey := RandomBlocks([keys.deltaA], 1, seed.batchMask);
    SingleKeyBlocks(mask, maskKey, keys.deltaA);
    ShareOfProduct(keys);
    SingleKeyBlocks(cor.dualBStar, cor.dualBStarKeys, keys.deltaA);
    var batchProof := RunBatch(cor.bStar.bits, cor.bStar.macs, cor.bStarKeys.localKeys, keys.deltaB, keys.beta0,
                               keys.alpha0, cor.dualBStar.blocks, cor.dualBStar.macs, cor.dualBStarKeys.localKeys,
                               keys.deltaA, seed.batchChal, mask.blocks[0], mask.macs[0], maskKey.localKeys[0]);
    var tmpDelta := cor.tmpDelta.blocks[0];
    var toCheck3, toCheck3Keys := ChosenBlocks([tmpDelta], [keys.deltaB], seed.sid3);
    SingleKeyBlocks(toCheck3, toCheck3Keys, tmpDelta);
    var same0, same1;
    ghost var k0, v0, k1, v1, inverseP, inverseV;
    same0, same1, k0, v0, k1, v1 := CheckTemporaryKey(keys, cor, compressParam, hash, toCheck3, toCheck3Keys);
    var toHashP, toHashV := RunEqcheck([keys.deltaB], [keys.beta0], [keys.alpha0], keys.deltaA, toCheck3.blocks,
                                       toCheck3.macs, toCheck3Keys.localKeys, tmpDelta, seed.eq0, seed.eq1);
    EqcheckPasses([keys.deltaB], toCheck3.blocks, keys.deltaA, tmpDelta, toHashP, toHashV);
    var inverseConsistent;
    inverseConsistent, inverseP, inverseV := CheckInverse(keys, cor, compressParam, hash128, seed);
    r := CheckResult(garblerProof, evaluatorProof, batchProof, same0, same1,
                     hash128(toHashP) == hash128(toHashV), inverseConsistent);
    d := Compared(k0, v0, k1, v1, toHashP, toHashV, inverseP, inverseV);
    if cor.Hold(keys, compressParam, |cor.aMatrix.bits|, |cor.shares.bits|) {
      HonestCompared(keys, cor, compressParam, d);
    }
  }

  lemma AndedSizes(c: Circuit, keys: GlobalKeys, pre: Preprocessed)
    requires c.WellFormed() && pre.Correct(c, keys)
    ensures |pre.andedG.bits| == |pre.andedE.bits| == c.AndGateSize()
    ensures |pre.garbler.masks.bits| == |pre.evaluator.masks.bits| == c.wireSize
  {
    hide Mul, BitsAuthed;
    AndedSize(c, pre.garbler.masks.bits, pre.andedG.bits);
    AndedSize(c, pre.evaluator.masks.bits, pre.andedE.bits);
  }

  lemma ShareOfProduct(keys: GlobalKeys)
    requires keys.Good()
    ensures keys.beta0 == Xor(keys.alpha0, Mul(keys.deltaB, keys.deltaA))
  {
    hide Mul;
    MulComm(keys.deltaA, keys.deltaB);
    assert Xor(keys.alpha0, Xor(keys.alpha0, keys.beta0)) == keys.beta0;
  }

  /** With no product lost there is nothing to cancel: in particular when no two AND gates read
      the same ordered pair. */
  lemma NothingLost(c: Circuit, masks: seq<bool>, anded: seq<bool>, chal: seq<Block>)
    requires c.WellFormed() && |masks| == c.wireSize && AndedBits(c, masks, anded) && |chal| == c.AndGateSize()
    requires forall i, j :: 0 <= i < j < c.AndGateSize() && Twins(c, i, j) ==> !Product(c, masks, i)
    ensures Sum(LostChallenges(c, masks, anded, chal), |chal|) == Zero()
  {
    AndedBitsExact(c, masks, anded);
    hide Product, Twins, HasLaterTwin;
    SumZero(LostChallenges(c, masks, anded, chal), |chal|);
  }
}
