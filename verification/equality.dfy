/** Re-reading an authenticated block from the other side, and the checks that two
    authenticated blocks under different global keys carry the same value. */
module Equality {
  import opened Blocks
  import opened Field
  import opened FieldTheorem
  import opened Authenticated

  // ---------------------------------------------------------------- swapping roles

  /** [[x]]_y read by the holder of the value: the block becomes the global key, its MAC the local key. */
  function SwapBlocks(b: ITMacBlocks, globalKeyPos: nat, blockPos: nat): ITMacBlockKeys
    requires blockPos < |b.blocks|
  {
    ITMacBlockKeys([b.GetMac(globalKeyPos, blockPos)], [b.blocks[blockPos]])
  }

  /** The same from the key holder: the global key becomes the block, the local key its MAC. */
  function SwapKeys(k: ITMacBlockKeys, globalKeyPos: nat, blockPos: nat): ITMacBlocks
    requires globalKeyPos < |k.globalKeys|
  {
    ITMacBlocks([k.globalKeys[globalKeyPos]], [k.GetLocalKey(globalKeyPos, blockPos)], 1)
  }

  /** One block under several keys turns into several blocks under one key. */
  function SwapAllBlocks(b: ITMacBlocks): ITMacBlockKeys
    requires |b.blocks| == 1
  {
    ITMacBlockKeys(b.macs, [b.blocks[0]])
  }

  function SwapAllKeys(k: ITMacBlockKeys): ITMacBlocks {
    ITMacBlocks(k.globalKeys, k.localKeys, 1)
  }

  /** Swapping maps a valid pair to a valid pair: y is now authenticated under x. */
  lemma SwapAuthed(b: ITMacBlocks, k: ITMacBlockKeys, g: nat, i: nat)
    requires BlocksAuthed(b, k) && g < |k.globalKeys| && i < |b.blocks|
    ensures BlocksAuthed(SwapKeys(k, g, i), SwapBlocks(b, g, i))
    ensures SwapKeys(k, g, i).blocks == [k.globalKeys[g]] && SwapBlocks(b, g, i).globalKeys == [b.blocks[i]]
  {
    hide Mul;
    SizeOfKeys(|b.blocks|, |k.globalKeys|);
    SwapOne(b.GetMac(g, i), k.GetLocalKey(g, i), b.blocks[i], k.globalKeys[g]);
  }

  lemma SwapOne(mac: Block, key: Block, x: Block, y: Block)
    requires mac == Xor(key, Mul(x, y))
    ensures key == Xor(mac, Mul(y, x))
  {
    hide Mul;
    MulComm(x, y);
    assert Xor(Xor(key, Mul(x, y)), Mul(x, y)) == key;
  }

  lemma SwapAllAuthed(b: ITMacBlocks, k: ITMacBlockKeys)
    requires BlocksAuthed(b, k) && |b.blocks| == 1
    ensures BlocksAuthed(SwapAllKeys(k), SwapAllBlocks(b))
    ensures SwapAllKeys(k).blocks == k.globalKeys && SwapAllBlocks(b).globalKeys == b.blocks
  {
    hide Mul;
    var b', k' := SwapAllKeys(k), SwapAllBlocks(b);
    forall g, i | 0 <= g < 1 && 0 <= i < |b'.blocks|
      ensures Flat(b'.macs, |b'.blocks|, g, i) ==
              Xor(Flat(k'.localKeys, |b'.blocks|, g, i), Mul(b'.blocks[i], k'.globalKeys[g]))
    {
      assert Flat(b.macs, 1, i, 0) == Xor(Flat(k.localKeys, 1, i, 0), Mul(b.blocks[0], k.globalKeys[i]));
      SwapOne(b.macs[i], k.localKeys[i], b.blocks[0], k.globalKeys[i]);
    }
  }

  // ---------------------------------------------------------------- in-place updates

  /** Every key divided by y. */
  ghost predicate Divided(keys: seq<Block>, y: Block, newKeys: seq<Block>) {
    |newKeys| == |keys| && forall i :: 0 <= i < |keys| ==> newKeys[i] == Mul(keys[i], Inverse(y))
  }

  /** Authenticated blocks that a party updates in place. */
  class BlockStore {
    var macs: seq<Block>
    var blocks: seq<Block>
    const globalKeySize: nat

    ghost function Value(): ITMacBlocks
      reads this
    {
      ITMacBlocks(blocks, macs, globalKeySize)
    }

    constructor (value: ITMacBlocks)
      ensures Value() == value
    {
      macs, blocks, globalKeySize := value.macs, value.blocks, value.globalKeySize;
    }

    /** block ^= 1, MACs unchanged. */
    method FlipBlockLsb(blockPos: nat)
      requires blockPos < |blocks|
      modifies this
      ensures macs == old(macs) && blocks == old(blocks)[blockPos := Xor(old(blocks)[blockPos], One())]
    {
      blocks := blocks[blockPos := Xor(blocks[blockPos], One())];
    }

    /** [[x]]_y with MAC m becomes [[m]]_(1/y) with MAC x: valid for every key vector and non-zero y
        for which the pair was valid, once the keys are divided by y. */
    method InverseValueAndMac()
      modifies this
      ensures macs == old(blocks) && blocks == old(macs)
      ensures forall keys, newKeys, y ::
                AuthBlocks(old(blocks), old(macs), keys, y) && y != Zero() && Divided(keys, y, newKeys) ==>
                AuthBlocks(blocks, macs, newKeys, Inverse(y))
    {
      hide Mul, Inverse, AuthBlocks, Divided;
      forall keys, newKeys, y | AuthBlocks(blocks, macs, keys, y) && y != Zero() && Divided(keys, y, newKeys)
        ensures AuthBlocks(macs, blocks, newKeys, Inverse(y))
      {
        InverseAuthed(blocks, macs, keys, y, newKeys);
      }
      macs, blocks := blocks, macs;
    }
  }

  /** The matching keys, updated in place. */
  class KeyStore {
    var localKeys: seq<Block>
    var globalKeys: seq<Block>

    ghost function Value(): ITMacBlockKeys
      reads this
    {
      ITMacBlockKeys(localKeys, globalKeys)
    }

    constructor (value: ITMacBlockKeys)
      ensures Value() == value
    {
      localKeys, globalKeys := value.localKeys, value.globalKeys;
    }

    /** Adds an authenticated 1 under every global key. */
    method FlipBlockLsb(blockPos: nat)
      requires |globalKeys| > 0 && |localKeys| == Value().Size() * |globalKeys| && blockPos < Value().Size()
      modifies this
      ensures globalKeys == old(globalKeys) && |localKeys| == |old(localKeys)|
      ensures forall g, i :: 0 <= g < |globalKeys| && 0 <= i < old(Value().Size()) ==>
                Flat(localKeys, old(Value().Size()), g, i) ==
                if i == blockPos then Xor(Flat(old(localKeys), old(Value().Size()), g, i), globalKeys[g])
                else Flat(old(localKeys), old(Value().Size()), g, i)
    {
      var blockSize := |localKeys| / |globalKeys|;
      ghost var before := localKeys;
      for i := 0 to |globalKeys|
        invariant globalKeys == old(globalKeys) && |localKeys| == |before|
        invariant forall g, p :: 0 <= g < |globalKeys| && 0 <= p < blockSize ==>
                    Flat(localKeys, blockSize, g, p) ==
                    if g < i && p == blockPos then Xor(Flat(before, blockSize, g, p), globalKeys[g])
                    else Flat(before, blockSize, g, p)
      {
        FlatInRange(|globalKeys|, blockSize, i, blockPos);
        ghost var last := localKeys;
        localKeys := localKeys[blockPos + i * blockSize := Xor(localKeys[blockPos + i * blockSize], globalKeys[i])];
        FlatUpdate(last, localKeys, |globalKeys|, blockSize, i, blockPos);
      }
    }

    /** Replaces each global key by its inverse and scales that key's local keys by it. */
    method InverseValueAndMac()
      requires |globalKeys| > 0 && |localKeys| == Value().Size() * |globalKeys|
      modifies this
      ensures |globalKeys| == |old(globalKeys)| && |localKeys| == |old(localKeys)|
      ensures forall g :: 0 <= g < |globalKeys| ==> globalKeys[g] == Inverse(old(globalKeys)[g])
      ensures forall g, i :: 0 <= g < |globalKeys| && 0 <= i < old(Value().Size()) ==>
                Flat(localKeys, old(Value().Size()), g, i) ==
                Mul(Flat(old(localKeys), old(Value().Size()), g, i), globalKeys[g])
    {
      hide Mul, Inverse;
      var size := |localKeys| / |globalKeys|;
      ghost var keys, local := globalKeys, localKeys;
      for g := 0 to |globalKeys|
        invariant |globalKeys| == |keys| && |localKeys| == |local|
        invariant forall q :: 0 <= q < |keys| ==> globalKeys[q] == if q < g then Inverse(keys[q]) else keys[q]
        invariant forall q, i :: 0 <= q < |keys| && 0 <= i < size ==>
                    Flat(localKeys, size, q, i) ==
                    if q < g then Mul(Flat(local, size, q, i), globalKeys[q]) else Flat(local, size, q, i)
      {
        var inverse := GfInverse(globalKeys[g]);
        globalKeys := globalKeys[g := inverse];
        ghost var row := localKeys;
        for p := 0 to size
          invariant |globalKeys| == |keys| && |localKeys| == |local| && globalKeys[g] == inverse
          invariant forall q :: 0 <= q < |keys| ==> globalKeys[q] == if q <= g then Inverse(keys[q]) else keys[q]
          invariant forall q, i :: 0 <= q < |keys| && 0 <= i < size ==>
                      Flat(localKeys, size, q, i) ==
                      if q == g && i < p then Mul(Flat(row, size, q, i), inverse) else Flat(row, size, q, i)
        {
          FlatInRange(|globalKeys|, size, g, p);
          ghost var last := localKeys;
          localKeys := localKeys[p + g * size := Mul(localKeys[p + g * size], inverse)];
          FlatUpdate(last, localKeys, |globalKeys|, size, g, p);
        }
      }
    }
  }

  /** Flipping both sides keeps the pair valid, for the value with its lowest bit flipped. */
  lemma FlipAuthed(mac: Block, key: Block, x: Block, delta: Block)
    requires mac == Xor(key, Mul(x, delta))
    ensures mac == Xor(Xor(key, delta), Mul(Xor(x, One()), delta))
  {
    hide Mul;
    MulDistLeft(x, One(), delta);
    MulOne(delta);
    assert Xor(Xor(key, delta), Xor(Mul(x, delta), delta)) == Xor(key, Mul(x, delta));
  }

  /** Inversion keeps the pair valid: m is authenticated under 1/y with MAC x, for every non-zero y. */
  lemma InverseAuthed(blocks: seq<Block>, macs: seq<Block>, keys: seq<Block>, delta: Block, newKeys: seq<Block>)
    requires AuthBlocks(blocks, macs, keys, delta) && delta != Zero() && Divided(keys, delta, newKeys)
    ensures AuthBlocks(macs, blocks, newKeys, Inverse(delta))
  {
    hide Mul, Inverse;
    var inv := Inverse(delta);
    InverseCorrect(delta);
    forall i | 0 <= i < |blocks| ensures blocks[i] == Xor(newKeys[i], Mul(macs[i], inv)) {
      MulDistLeft(keys[i], Mul(blocks[i], delta), inv);
      MulAssoc(blocks[i], delta, inv);
      MulOne(blocks[i]);
      assert Xor(newKeys[i], Xor(newKeys[i], blocks[i])) == blocks[i];
    }
  }

  // ---------------------------------------------------------------- equality under one key

  /** What the two sides compare differs by exactly the difference of the values times the key. */
  lemma SameBitExact(k0: Block, k1: Block, x0: Block, x1: Block, delta: Block)
    ensures Xor(Xor(Xor(k0, Mul(x0, delta)), Xor(k1, Mul(x1, delta))), Xor(k0, k1)) == Mul(Xor(x0, x1), delta)
  {
    hide Mul;
    MulDistLeft(x0, x1, delta);
    CancelPair(k0, k1, Mul(x0, delta), Mul(x1, delta));
  }

  lemma CancelPair(a: Block, b: Block, c: Block, d: Block)
    ensures Xor(Xor(Xor(a, c), Xor(b, d)), Xor(a, b)) == Xor(c, d)
  {
  }

  /** The digest halves of one input. */
  datatype Digest = Digest(low: nat, high: nat)

  /** The high comparer sends its low half and checks the high half it receives. */
  function CompareHashHigh(own: Digest, received: nat): (accepted: bool) {
    own.high == received
  }

  /** The low comparer sends its high half and checks the low half it receives. */
  function CompareHashLow(own: Digest, received: nat): (accepted: bool) {
    own.low == received
  }

  /** Running the two against each other accepts on both sides exactly when the digests are equal. */
  lemma CompareHashExact(keyHolder: Digest, valueHolder: Digest)
    ensures CompareHashHigh(keyHolder, valueHolder.high) && CompareHashLow(valueHolder, keyHolder.low) <==>
            keyHolder == valueHolder
  {
  }

  // ---------------------------------------------------------------- equality under two keys

  /** The value holder's vector: the XOR of the two re-authenticated MACs. */
  method EqcheckProve(authedMacs0: seq<Block>, authedMacs1: seq<Block>) returns (toHash: seq<Block>)
    requires |authedMacs0| == |authedMacs1|
    ensures |toHash| == |authedMacs0|
    ensures forall i :: 0 <= i < |toHash| ==> toHash[i] == Xor(authedMacs0[i], authedMacs1[i])
  {
    toHash := [];
    for i := 0 to |authedMacs0|
      invariant |toHash| == i && forall j :: 0 <= j < i ==> toHash[j] == Xor(authedMacs0[j], authedMacs1[j])
    {
      toHash := toHash + [Xor(authedMacs0[i], authedMacs1[i])];
    }
  }

  /** The key holder's entry. */
  function VerifierTerm(macKey0: Block, macKey1: Block, key0: Block, key1: Block, gk0: Block, gk1: Block): Block {
    Xor(Xor(Xor(macKey0, macKey1), Mul(key0, gk1)), Mul(key1, gk0))
  }

  method EqcheckVerify(keys0: seq<Block>, gk0: Block, keys1: seq<Block>, gk1: Block,
                       macKeys0: seq<Block>, macKeys1: seq<Block>) returns (toHash: seq<Block>)
    requires |keys0| == |keys1| == |macKeys0| == |macKeys1|
    ensures |toHash| == |keys0|
    ensures forall i :: 0 <= i < |toHash| ==>
              toHash[i] == VerifierTerm(macKeys0[i], macKeys1[i], keys0[i], keys1[i], gk0, gk1)
  {
    hide Mul;
    toHash := [];
    for i := 0 to |keys0|
      invariant |toHash| == i
      invariant forall j :: 0 <= j < i ==>
                  toHash[j] == VerifierTerm(macKeys0[j], macKeys1[j], keys0[j], keys1[j], gk0, gk1)
    {
      var newTerm := Xor(macKeys0[i], macKeys1[i]);
      newTerm := Xor(newTerm, Mul(keys0[i], gk1));
      newTerm := Xor(newTerm, Mul(keys1[i], gk0));
      toHash := toHash + [newTerm];
    }
  }

  /** The two vectors differ at each position by exactly (x0 ^ x1) * gk0 * gk1. */
  lemma EqcheckExact(x0: Block, x1: Block, k0: Block, k1: Block, gk0: Block, gk1: Block,
                     m0: Block, m1: Block, macKey0: Block, macKey1: Block, macOfMac0: Block, macOfMac1: Block)
    requires m0 == Xor(k0, Mul(x0, gk0)) && m1 == Xor(k1, Mul(x1, gk1))
    requires macOfMac1 == Xor(macKey1, Mul(m1, gk0)) && macOfMac0 == Xor(macKey0, Mul(m0, gk1))
    ensures Xor(Xor(macOfMac0, macOfMac1), VerifierTerm(macKey0, macKey1, k0, k1, gk0, gk1)) ==
            Mul(Xor(x0, x1), Mul(gk0, gk1))
  {
    hide Mul;
    MulDistLeft(k0, Mul(x0, gk0), gk1);
    MulDistLeft(k1, Mul(x1, gk1), gk0);
    MulAssoc(x0, gk0, gk1);
    MulAssoc(x1, gk1, gk0);
    MulComm(gk0, gk1);
    MulDistLeft(x0, x1, Mul(gk0, gk1));
    CancelAll(macKey0, macKey1, Mul(k0, gk1), Mul(k1, gk0), Mul(x0, Mul(gk0, gk1)), Mul(x1, Mul(gk0, gk1)));
  }

  lemma CancelAll(a: Block, b: Block, c: Block, d: Block, p: Block, q: Block)
    ensures Xor(Xor(Xor(a, Xor(c, p)), Xor(b, Xor(d, q))), Xor(Xor(Xor(a, b), c), d)) == Xor(p, q)
  {
  }

  /** Hence, for non-zero keys, the entries agree exactly when the values do. */
  lemma EqcheckDecides(x0: Block, x1: Block, gk0: Block, gk1: Block)
    requires gk0 != Zero() && gk1 != Zero()
    ensures Mul(Xor(x0, x1), Mul(gk0, gk1)) == Zero() <==> x0 == x1
  {
    hide Mul, Inverse;
    var d := Xor(x0, x1);
    XorCancel(x0, x1);
    if d == Zero() {
      MulZero(Mul(gk0, gk1));
    } else if Mul(d, Mul(gk0, gk1)) == Zero() {
      NoZeroDivisors(gk0, gk1);
      NoZeroDivisors(d, Mul(gk0, gk1));
      assert false;
    }
  }

  lemma NoZeroDivisors(a: Block, b: Block)
    requires a != Zero() && b != Zero()
    ensures Mul(a, b) != Zero()
  {
    hide Mul, Inverse;
    if Mul(a, b) == Zero() {
      InverseCorrect(a);
      MulAssoc(Inverse(a), a, b);
      MulOne(b);
      MulZero(Inverse(a));
    }
  }
}
