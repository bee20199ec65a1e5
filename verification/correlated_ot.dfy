/** Honest runs of the constructor pairs: both parties build matching authenticated values
    from one ideal oblivious transfer, and Fix them to chosen bits or blocks. */
module CorrelatedOT {
  import opened Blocks
  import opened Authenticated
  import opened Packing

  /** Randomness of one extension: the receiver's choice bits and the sender's first keys. */
  datatype OTSeed = OTSeed(choices: seq<bool>, k1: seq<Block>)
  {
    predicate For(len: nat, keys: nat) {
      |choices| == len && |k1| == len * keys
    }
  }

  /** The key of a fixed bit: the one drawn, shifted by the global key where the bit drawn differs. */
  function FixedKey(seed: OTSeed, bits: seq<bool>, deltaArr: seq<Block>, g: nat, i: nat): Block
    requires i < |bits| == |seed.choices| && g < |deltaArr|
  {
    Xor(Flat(seed.k1, |bits|, g, i), Scale(seed.choices[i] != bits[i], deltaArr[g]))
  }

  /** The keys of n bits from position `start` on. */
  function FixedKeys(seed: OTSeed, bits: seq<bool>, deltaArr: seq<Block>, g: nat, start: nat, n: nat): (r: seq<Block>)
    requires start + n <= |bits| == |seed.choices| && g < |deltaArr|
    ensures |r| == n && forall j :: 0 <= j < n ==> r[j] == FixedKey(seed, bits, deltaArr, g, start + j)
  {
    seq<Block>(n, j requires 0 <= j < n => FixedKey(seed, bits, deltaArr, g, start + j))
  }

  /** The local keys of chosen bits are those of the randomness drawn. */
  ghost predicate BitKeysFrom(localKeys: seq<Block>, bits: seq<bool>, deltaArr: seq<Block>, seed: OTSeed) {
    && |seed.choices| == |bits| && |localKeys| == |bits| * |deltaArr|
    && forall g, i :: 0 <= g < |deltaArr| && 0 <= i < |bits| ==>
         Flat(localKeys, |bits|, g, i) == FixedKey(seed, bits, deltaArr, g, i)
  }

  /** The local keys of chosen blocks are packed from those of their bits. */
  ghost predicate BlockKeysFrom(localKeys: seq<Block>, blocks: seq<Block>, deltaArr: seq<Block>, seed: OTSeed) {
    && |seed.choices| == BLOCK_BITS * |blocks| && |localKeys| == |blocks| * |deltaArr|
    && forall g, i :: 0 <= g < |deltaArr| && 0 <= i < |blocks| ==>
         Flat(localKeys, |blocks|, g, i) ==
         Polyval(FixedKeys(seed, BlocksToBits(blocks), deltaArr, g, BLOCK_BITS * i, BLOCK_BITS))
  }

  /** Random authenticated bits under every key of `deltaArr`. */
  method RandomBits(deltaArr: seq<Block>, len: nat, seed: OTSeed) returns (b: ITMacBits, k: ITMacBitKeys)
    requires |deltaArr| > 0 && seed.For(len, |deltaArr|)
    ensures BitsAuthed(b, k) && b.bits == seed.choices && k == ITMacBitKeys(seed.k1, deltaArr)
  {
    var k2Vec := SenderExtend(deltaArr, len, seed.k1);
    var choicesForOT := ReceiverExtend(seed.choices, |deltaArr|);
    b := ITMacBits(seed.choices, Transferred(seed.k1, k2Vec, choicesForOT));
    k := ITMacBitKeys(seed.k1, deltaArr);
    CorrelatedOTAuthed(seed.choices, deltaArr, seed.k1, k2Vec);
  }

  /** Chosen bits: random ones, then Fix, with the difference sent bit by bit. */
  method ChosenBits(deltaArr: seq<Block>, bitsToFix: seq<bool>, seed: OTSeed) returns (b: ITMacBits, k: ITMacBitKeys)
    requires |deltaArr| > 0 && seed.For(|bitsToFix|, |deltaArr|)
    ensures BitsAuthed(b, k) && b.bits == bitsToFix && k.globalKeys == deltaArr
    ensures BitKeysFrom(k.localKeys, bitsToFix, deltaArr, seed)
  {
    var random, keys := RandomBits(deltaArr, |bitsToFix|, seed);
    var diffArr;
    b, diffArr := FixBits(random, bitsToFix);
    k := FixKeys(keys, diffArr);
    FixAuthed(random, keys, bitsToFix, k);
  }

  /** Both sides pack 128 authenticated bits into each block. */
  method PackPair(b: ITMacBits, k: ITMacBitKeys) returns (blocks: ITMacBlocks, keys: ITMacBlockKeys)
    requires BitsAuthed(b, k) && |b.bits| % BLOCK_BITS == 0
    ensures BlocksAuthed(blocks, keys) && blocks.blocks == BitsToBlocks(b.bits) && keys.globalKeys == k.globalKeys
    ensures forall g, i :: 0 <= g < |k.globalKeys| && 0 <= i < |b.bits| / BLOCK_BITS ==>
              Flat(keys.localKeys, |b.bits| / BLOCK_BITS, g, i) == Polyval(Chunk(k.localKeys, |b.bits|, g, i))
  {
    var blockCount := |b.bits| / BLOCK_BITS;
    var blockMacs := PolyvalMacChunks(b.macs, |b.bits|, |k.globalKeys|, blockCount);
    var blockKeys := PolyvalMacChunks(k.localKeys, |b.bits|, |k.globalKeys|, blockCount);
    blocks := ITMacBlocks(BitsToBlocks(b.bits), blockMacs, |k.globalKeys|);
    keys := ITMacBlockKeys(blockKeys, k.globalKeys);
    PackedAuthed(b, k, blockMacs, blockKeys);
  }

  method RandomBlocks(deltaArr: seq<Block>, blockSize: nat, seed: OTSeed) returns (b: ITMacBlocks, k: ITMacBlockKeys)
    requires |deltaArr| > 0 && seed.For(BLOCK_BITS * blockSize, |deltaArr|)
    ensures BlocksAuthed(b, k) && |b.blocks| == blockSize && k.globalKeys == deltaArr
    ensures b.blocks == BitsToBlocks(seed.choices)
    ensures forall g, i :: 0 <= g < |deltaArr| && 0 <= i < blockSize ==>
              Flat(k.localKeys, blockSize, g, i) == Polyval(Chunk(seed.k1, BLOCK_BITS * blockSize, g, i))
  {
    var bits, bitKeys := RandomBits(deltaArr, BLOCK_BITS * blockSize, seed);
    b, k := PackPair(bits, bitKeys);
  }

  method ChosenBlocks(deltaArr: seq<Block>, blocksToAuth: seq<Block>, seed: OTSeed)
    returns (b: ITMacBlocks, k: ITMacBlockKeys)
    requires |deltaArr| > 0 && seed.For(BLOCK_BITS * |blocksToAuth|, |deltaArr|)
    ensures BlocksAuthed(b, k) && b.blocks == blocksToAuth && k.globalKeys == deltaArr
    ensures BlockKeysFrom(k.localKeys, blocksToAuth, deltaArr, seed)
  {
    var bitsToFix := BlocksToBits(blocksToAuth);
    var bits, bitKeys := ChosenBits(deltaArr, bitsToFix, seed);
    BitsBlocksRoundTrip(blocksToAuth);
    b, k := PackPair(bits, bitKeys);
    PackedFixedKeys(bitKeys.localKeys, k.localKeys, blocksToAuth, deltaArr, seed);
  }

  lemma PackedFixedKeys(bitKeys: seq<Block>, blockKeys: seq<Block>, blocks: seq<Block>, deltaArr: seq<Block>,
                        seed: OTSeed)
    requires BitKeysFrom(bitKeys, BlocksToBits(blocks), deltaArr, seed) && |blockKeys| == |blocks| * |deltaArr|
    requires forall g, i :: 0 <= g < |deltaArr| && 0 <= i < |blocks| ==>
               Flat(blockKeys, |blocks|, g, i) == Polyval(Chunk(bitKeys, BLOCK_BITS * |blocks|, g, i))
    ensures BlockKeysFrom(blockKeys, blocks, deltaArr, seed)
  {
    hide Polyval;
    var bits := BlocksToBits(blocks);
    forall g, i | 0 <= g < |deltaArr| && 0 <= i < |blocks|
      ensures Chunk(bitKeys, |bits|, g, i) == FixedKeys(seed, bits, deltaArr, g, BLOCK_BITS * i, BLOCK_BITS)
    {
      ChunkInside(|deltaArr|, |bits|, g, i, |blocks|);
      forall j | 0 <= j < BLOCK_BITS
        ensures Chunk(bitKeys, |bits|, g, i)[j] == FixedKey(seed, bits, deltaArr, g, BLOCK_BITS * i + j)
      {
        assert Chunk(bitKeys, |bits|, g, i)[j] == Flat(bitKeys, |bits|, g, BLOCK_BITS * i + j);
      }
    }
  }

  /** Under a single global key the flattened layout is the plain one. */
  lemma SingleKeyBits(b: ITMacBits, k: ITMacBitKeys, delta: Block)
    requires BitsAuthed(b, k) && k.globalKeys == [delta]
    ensures Authed(b, k, delta)
  {
    forall i | 0 <= i < |b.bits| ensures b.macs[i] == Xor(k.localKeys[i], Scale(b.bits[i], delta)) {
      assert Flat(b.macs, |b.bits|, 0, i) == b.macs[i] && Flat(k.localKeys, |b.bits|, 0, i) == k.localKeys[i];
    }
  }

  lemma SingleKeyBlocks(b: ITMacBlocks, k: ITMacBlockKeys, delta: Block)
    requires BlocksAuthed(b, k) && k.globalKeys == [delta]
    ensures AuthBlocks(b.blocks, b.macs, k.localKeys, delta)
  {
    hide Mul;
    forall i | 0 <= i < |b.blocks| ensures b.macs[i] == Xor(k.localKeys[i], Mul(b.blocks[i], delta)) {
      assert Flat(b.macs, |b.blocks|, 0, i) == b.macs[i] && Flat(k.localKeys, |b.blocks|, 0, i) == k.localKeys[i];
    }
  }

  /** A single value authenticated under several keys: one MAC per key. */
  lemma SingleBlock(b: ITMacBlocks, k: ITMacBlockKeys, g: nat)
    requires BlocksAuthed(b, k) && |b.blocks| == 1 && g < |k.globalKeys|
    ensures |b.macs| == |k.localKeys| == |k.globalKeys| && k.Size() == 1
    ensures b.macs[g] == Xor(k.localKeys[g], Mul(b.blocks[0], k.globalKeys[g]))
    ensures b.GetMac(g, 0) == b.macs[g] && k.GetLocalKey(g, 0) == k.localKeys[g]
  {
  }
}
