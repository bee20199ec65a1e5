/** Sampling the two global keys so that both the garbler's key and the product of the two keys have
    lowest bit one, with the product shared between the parties. */
module KeySampling {
  import opened Blocks
  import opened Authenticated
  import opened CorrelatedOT
  import opened Packing
  import opened Equality
  import opened DVZK

  const STATISTICAL_SECURITY := 40

  /** What sampling leaves behind: one key and one share of the product for each party. */
  datatype GlobalKeys = GlobalKeys(deltaA: Block, deltaB: Block, alpha0: Block, beta0: Block) {
    ghost predicate Good() {
      Lsb(deltaA) && Lsb(Mul(deltaA, deltaB)) && Xor(alpha0, beta0) == Mul(deltaA, deltaB)
    }

    /** Neither key is zero, nor is their product. */
    lemma NonZero()
      requires Good()
      ensures deltaA != Zero() && deltaB != Zero() && Mul(deltaA, deltaB) != Zero()
    {
      hide Mul;
      MulZero(deltaA);
      MulZero(deltaB);
    }
  }

  // ---------------------------------------------------------------- lowest-bit comparisons

  /** Key holder: the lowest bits of the keys, sent as one bit set. */
  method LsbsOfKeys(keys: seq<Block>) returns (lsbs: seq<bool>)
    ensures |lsbs| == |keys| && forall i :: 0 <= i < |keys| ==> lsbs[i] == Lsb(keys[i])
  {
    lsbs := [];
    for i := 0 to |keys|
      invariant |lsbs| == i && forall j :: 0 <= j < i ==> lsbs[j] == Lsb(keys[j])
    {
      lsbs := lsbs + [Lsb(keys[i])];
    }
  }

  /** Bit holder: what the received bits must be when the global key's lowest bit is one. */
  method ExpectedLsbs(macs: seq<Block>, bits: seq<bool>) returns (expected: seq<bool>)
    requires |macs| == |bits|
    ensures |expected| == |bits| && forall i :: 0 <= i < |bits| ==> expected[i] == (Lsb(macs[i]) != bits[i])
  {
    expected := [];
    for i := 0 to |bits|
      invariant |expected| == i && forall j :: 0 <= j < i ==> expected[j] == (Lsb(macs[j]) != bits[j])
    {
      expected := expected + [Lsb(macs[i]) != bits[i]];
    }
  }

  /** The comparison succeeds exactly when the key's lowest bit is one or no tested bit is one. */
  lemma LsbCheckExact(bits: seq<bool>, macs: seq<Block>, keys: seq<Block>, delta: Block, received: seq<bool>,
                      expected: seq<bool>)
    requires AuthBits(bits, macs, keys, delta) && |received| == |expected| == |bits|
    requires forall i :: 0 <= i < |bits| ==> received[i] == Lsb(keys[i]) && expected[i] == (Lsb(macs[i]) != bits[i])
    ensures received == expected <==> Lsb(delta) || forall i :: 0 <= i < |bits| ==> !bits[i]
  {
  }

  /** bit * y authenticated under delta is the bit authenticated under y * delta. */
  lemma ScaledIsBit(bits: seq<bool>, blocks: seq<Block>, macs: seq<Block>, keys: seq<Block>, y: Block, delta: Block)
    requires AuthBlocks(blocks, macs, keys, delta) && |bits| == |blocks|
    requires forall i :: 0 <= i < |bits| ==> blocks[i] == Scale(bits[i], y)
    ensures AuthBits(bits, macs, keys, Mul(y, delta))
  {
    hide Mul;
    forall i | 0 <= i < |bits| ensures macs[i] == Xor(keys[i], Scale(bits[i], Mul(y, delta))) {
      MulScale(bits[i], y, delta);
    }
  }

  // ---------------------------------------------------------------- the two parties

  /** y where the bit is one, zero elsewhere. */
  method SelectBlocks(bits: seq<bool>, y: Block) returns (r: seq<Block>)
    ensures |r| == |bits| && forall i :: 0 <= i < |r| ==> r[i] == Scale(bits[i], y)
  {
    r := [];
    for i := 0 to |bits|
      invariant |r| == i && forall j :: 0 <= j < i ==> r[j] == Scale(bits[j], y)
    {
      r := r + [if bits[i] then y else Zero()];
    }
  }

  class Garbler {
    var delta: Block
    var alpha0: Block

    /** The lowest bit of the key is forced to one. */
    constructor (random: Block)
      ensures Lsb(delta) && forall i :: 1 <= i < BLOCK_BITS ==> delta[i] == random[i]
    {
      delta := random[0 := true];
      alpha0 := Zero();
    }

    /** Step 3: flip the key of deltaB when the lowest bits show an even product. */
    method AdoptShare(deltaBKey: KeyStore, lsbMDeltaB: bool)
      requires deltaBKey.globalKeys == [delta] && |deltaBKey.localKeys| == 1
      modifies this`alpha0, deltaBKey
      ensures deltaBKey.globalKeys == [delta] && deltaBKey.localKeys == [alpha0]
      ensures var key := old(deltaBKey.localKeys[0]); alpha0 == if Lsb(key) == lsbMDeltaB then Xor(key, delta) else key
    {
      if Lsb(deltaBKey.localKeys[0]) == lsbMDeltaB {
        ghost var key := deltaBKey.localKeys;
        deltaBKey.FlipBlockLsb(0);
        assert Flat(deltaBKey.localKeys, 1, 0, 0) == Xor(Flat(key, 1, 0, 0), delta);
      }
      alpha0 := deltaBKey.localKeys[0];
    }
  }

  class Evaluator {
    var delta: Block
    var beta0: Block

    constructor (random: Block)
      ensures delta == random
    {
      delta := random;
      beta0 := Zero();
    }

    method AdoptShare(authedDeltaB: BlockStore, lsbKDeltaB: bool)
      requires authedDeltaB.blocks == [delta] && |authedDeltaB.macs| == 1
      modifies this, authedDeltaB
      ensures authedDeltaB.blocks == [delta] && authedDeltaB.macs == old(authedDeltaB.macs) == [beta0]
      ensures delta == if lsbKDeltaB == Lsb(beta0) then Xor(old(delta), One()) else old(delta)
    {
      if lsbKDeltaB == Lsb(authedDeltaB.macs[0]) {
        authedDeltaB.FlipBlockLsb(0);
        delta := authedDeltaB.blocks[0];
      }
      beta0 := authedDeltaB.macs[0];
    }
  }

  /** Step 3 for both sides: whatever the evaluator drew, its final key makes the product odd. */
  lemma ShareAdopted(key: Block, mac: Block, deltaA: Block, deltaB: Block, alpha0: Block, deltaB': Block)
    requires mac == Xor(key, Mul(deltaB, deltaA)) && Lsb(deltaA)
    requires alpha0 == if Lsb(key) == Lsb(mac) then Xor(key, deltaA) else key
    requires deltaB' == if Lsb(key) == Lsb(mac) then Xor(deltaB, One()) else deltaB
    ensures mac == Xor(alpha0, Mul(deltaB', deltaA))
    ensures GlobalKeys(deltaA, deltaB', alpha0, mac).Good()
  {
    hide Mul;
    if Lsb(key) == Lsb(mac) {
      FlipAuthed(mac, key, deltaB, deltaA);
    }
    MulComm(deltaA, deltaB');
    MoveOver(alpha0, mac, Mul(deltaA, deltaB'));
    assert Lsb(mac) != Lsb(alpha0);
  }

  lemma MoveOver(key: Block, mac: Block, product: Block)
    requires mac == Xor(key, product)
    ensures Xor(key, mac) == product
  {
  }

  // ---------------------------------------------------------------- one multiplication round

  /** Randomness of one proof round, steps 6a-b and 6d-e. */
  datatype RoundSeed = RoundSeed(bits: OTSeed, blocks: OTSeed, mask: OTSeed, challenges: seq<Block>) {
    predicate For(n: nat) {
      bits.For(n, 1) && blocks.For(BLOCK_BITS * n, 1) && mask.For(BLOCK_BITS, 1) && |challenges| == n
    }
  }

  /** The holder of y (authenticated under delta) authenticates random bits and their products with y,
      proves the products, and compares lowest bits.  Both checks pass exactly as the second clause says. */
  method ProductRound(y: Block, yMac: Block, yKey: Block, delta: Block, n: nat, seed: RoundSeed)
    returns (proofAccepted: bool, lsbsAgree: bool)
    requires yMac == Xor(yKey, Mul(y, delta)) && seed.For(n)
    ensures proofAccepted
    ensures lsbsAgree <==> Lsb(Mul(y, delta)) || forall i :: 0 <= i < n ==> !seed.bits.choices[i]
  {
    hide Mul;
    var x, xKeys := RandomBits([delta], n, seed.bits);
    SingleKeyBits(x, xKeys, delta);
    var xy := SelectBlocks(x.bits, y);
    var z, zKeys := ChosenBlocks([delta], xy, seed.blocks);
    SingleKeyBlocks(z, zKeys, delta);
    var mask, maskKey := RandomBlocks([delta], 1, seed.mask);
    SingleKeyBlocks(mask, maskKey, delta);
    proofAccepted := RunBatch(x.bits, x.macs, xKeys.localKeys, y, yMac, yKey, z.blocks, z.macs, zKeys.localKeys, delta,
                              seed.challenges, mask.blocks[0], mask.macs[0], maskKey.localKeys[0]);
    var received := LsbsOfKeys(zKeys.localKeys);
    var expected := ExpectedLsbs(z.macs, x.bits);
    ScaledIsBit(x.bits, z.blocks, z.macs, zKeys.localKeys, y, delta);
    LsbCheckExact(x.bits, z.macs, zKeys.localKeys, Mul(y, delta), received, expected);
    lsbsAgree := received == expected;
  }

  datatype SamplingSeed = SamplingSeed(randomA: Block, randomB: Block, u: OTSeed, deltaB: OTSeed,
                                       xRound: RoundSeed, deltaA: OTSeed, yRound: RoundSeed)
  {
    predicate Valid() {
      && u.For(STATISTICAL_SECURITY, 1) && deltaB.For(BLOCK_BITS, 1) && xRound.For(STATISTICAL_SECURITY)
      && deltaA.For(BLOCK_BITS, 1) && yRound.For(STATISTICAL_SECURITY)
    }
  }

  /** The keys are the ones drawn, but for two lowest bits: the garbler's is set, and the evaluator's is flipped
      exactly when the product would be even.  The garbler's share is the key its own extension drew for the
      evaluator's block, shifted when that block was flipped. */
  ghost predicate KeysFrom(keys: GlobalKeys, seed: SamplingSeed)
    requires seed.Valid()
  {
    var key := Polyval(FixedKeys(seed.deltaB, BlocksToBits([seed.randomB]), [keys.deltaA], 0, 0, BLOCK_BITS));
    && Lsb(keys.deltaA) && (forall i :: 1 <= i < BLOCK_BITS ==> keys.deltaA[i] == seed.randomA[i])
    && (forall i :: 1 <= i < BLOCK_BITS ==> keys.deltaB[i] == seed.randomB[i])
    && (keys.deltaB[0] != seed.randomB[0] <==> !Lsb(Mul(keys.deltaA, seed.randomB)))
    && keys.alpha0 == if Lsb(Mul(keys.deltaA, seed.randomB)) then key else Xor(key, keys.deltaA)
  }

  /** What was drawn leaves no choice: it determines both keys and both shares. */
  lemma KeysDetermined(keys: GlobalKeys, others: GlobalKeys, seed: SamplingSeed)
    requires seed.Valid() && KeysFrom(keys, seed) && KeysFrom(others, seed) && keys.Good() && others.Good()
    ensures keys == others
  {
    hide Mul, FixedKeys, BlocksToBits, Polyval;
    assert keys.deltaA == others.deltaA;
    assert keys.deltaB == others.deltaB;
    assert keys.beta0 == Xor(keys.alpha0, Xor(keys.alpha0, keys.beta0));
    assert others.beta0 == Xor(others.alpha0, Xor(others.alpha0, others.beta0));
  }

  /** Step 3 in terms of what was drawn. */
  lemma AdoptedFrom(keys: GlobalKeys, seed: SamplingSeed, key: Block, mac: Block)
    requires seed.Valid() && mac == Xor(key, Mul(seed.randomB, keys.deltaA))
    requires key == Polyval(FixedKeys(seed.deltaB, BlocksToBits([seed.randomB]), [keys.deltaA], 0, 0, BLOCK_BITS))
    requires Lsb(keys.deltaA) && forall i :: 1 <= i < BLOCK_BITS ==> keys.deltaA[i] == seed.randomA[i]
    requires keys.alpha0 == if Lsb(key) == Lsb(mac) then Xor(key, keys.deltaA) else key
    requires keys.deltaB == if Lsb(key) == Lsb(mac) then Xor(seed.randomB, One()) else seed.randomB
    ensures KeysFrom(keys, seed)
  {
    hide Mul, Polyval, FixedKeys, BlocksToBits;
    MulComm(keys.deltaA, seed.randomB);
    MoveOver(key, mac, Mul(keys.deltaA, seed.randomB));
    assert Lsb(Mul(keys.deltaA, seed.randomB)) == (Lsb(key) != Lsb(mac));
  }

  /** The whole honest run, up to step 6e: whatever is drawn, all five checks pass, both parties
      end up with their final keys, made of what they drew, and the product of the keys is odd and shared. */
  method SampleGlobalKeys(seed: SamplingSeed) returns (garbler: Garbler, evaluator: Evaluator, checks: seq<bool>)
    requires seed.Valid()
    ensures checks == [true, true, true, true, true]
    ensures fresh(garbler) && fresh(evaluator)
    ensures var keys := GlobalKeys(garbler.delta, evaluator.delta, garbler.alpha0, evaluator.beta0);
            keys.Good() && KeysFrom(keys, seed)
  {
    hide Mul, FixedKeys, BlocksToBits, Polyval;
    garbler := new Garbler(seed.randomA);
    evaluator := new Evaluator(seed.randomB);
    // steps 1 and 2
    var u, uKeys := RandomBits([garbler.delta], STATISTICAL_SECURITY, seed.u);
    SingleKeyBits(u, uKeys, garbler.delta);
    var received := LsbsOfKeys(uKeys.localKeys);
    var expected := ExpectedLsbs(u.macs, u.bits);
    LsbCheckExact(u.bits, u.macs, uKeys.localKeys, garbler.delta, received, expected);
    // step 3
    var b, k := ChosenBlocks([garbler.delta], [evaluator.delta], seed.deltaB);
    SingleKeyBlocks(b, k, garbler.delta);
    var authedDeltaB := new BlockStore(b);
    var deltaBKey := new KeyStore(k);
    ghost var deltaB, mac, key := evaluator.delta, b.macs[0], k.localKeys[0];
    var lsbK, lsbM := Lsb(k.localKeys[0]), Lsb(b.macs[0]);
    garbler.AdoptShare(deltaBKey, lsbM);
    evaluator.AdoptShare(authedDeltaB, lsbK);
    ShareAdopted(key, mac, garbler.delta, deltaB, garbler.alpha0, evaluator.delta);
    assert Flat(k.localKeys, 1, 0, 0) == key;
    AdoptedFrom(GlobalKeys(garbler.delta, evaluator.delta, garbler.alpha0, evaluator.beta0), seed, key, mac);
    // steps 6a and 6b
    var proof0, lsbs0 := ProductRound(evaluator.delta, evaluator.beta0, garbler.alpha0, garbler.delta,
                                      STATISTICAL_SECURITY, seed.xRound);
    // steps 6c, 6d and 6e, with the roles exchanged
    var a, aKey := ChosenBlocks([evaluator.delta], [garbler.delta], seed.deltaA);
    SingleKeyBlocks(a, aKey, evaluator.delta);
    var proof1, lsbs1 := ProductRound(garbler.delta, a.macs[0], aKey.localKeys[0], evaluator.delta,
                                      STATISTICAL_SECURITY, seed.yRound);
    MulComm(garbler.delta, evaluator.delta);
    checks := [received == expected, proof0, lsbs0, proof1, lsbs1];
  }
}
