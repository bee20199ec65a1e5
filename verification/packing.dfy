/** Packing authenticated bits into authenticated blocks, and opening authenticated bits. */
module Packing {
  import opened Blocks
  import opened Words
  import opened Arithmetic
  import opened Authenticated

  // ---------------------------------------------------------------- polyval

  /** coeff[0] + coeff[1] X + coeff[2] X^2 + ..., by Horner's rule. */
  function Polyval(coeff: seq<Block>): Block {
    if coeff == [] then Zero() else Xor(coeff[0], MulX(Polyval(coeff[1..])))
  }

  function XPower(i: nat): Block {
    if i == 0 then One() else MulX(XPower(i - 1))
  }

  lemma PolyvalSingle(x: Block)
    ensures Polyval([x]) == x
  {
  }

  /** The same polynomial as a sum of coefficient times power. */
  lemma {:induction false} PolyvalAppend(coeff: seq<Block>, x: Block)
    ensures Polyval(coeff + [x]) == Xor(Polyval(coeff), Mul(x, XPower(|coeff|)))
  {
    hide Mul, MulX, Xor;
    var all: seq<Block>, n := coeff + [x], |coeff|;
    if n == 0 {
      PolyvalSingle(x);
      assert all == [x];
      MulOne(x);
      XorZero(x);
    } else {
      var rest: seq<Block> := coeff[1..];
      assert all[1..] == rest + [x] && all[0] == coeff[0];
      PolyvalAppend(rest, x);
      MulXXor(Polyval(rest), Mul(x, XPower(n - 1)));
      MulByX(x, XPower(n - 1));
      XorAssoc(coeff[0], MulX(Polyval(rest)), Mul(x, XPower(n)));
    }
  }

  /** Key step of packing: bitwise MACs under a key add up to the MAC of the block the bits spell. */
  lemma {:induction false} PolyvalOfMacs(bits: seq<bool>, macs: seq<Block>, keys: seq<Block>, delta: Block)
    requires |macs| == |keys| == |bits|
    requires forall i :: 0 <= i < |bits| ==> macs[i] == Xor(keys[i], Scale(bits[i], delta))
    ensures Polyval(macs) == Xor(Polyval(keys), MulPoly(delta, bits))
  {
    if bits == [] {
      XorZero(Zero());
    } else {
      PolyvalOfMacs(bits[1..], macs[1..], keys[1..], delta);
      MulXXor(Polyval(keys[1..]), MulPoly(delta, bits[1..]));
      XorSwap(keys[0], Scale(bits[0], delta), MulX(Polyval(keys[1..])), MulX(MulPoly(delta, bits[1..])));
    }
  }

  // ---------------------------------------------------------------- bits and blocks

  function BlocksToBits(blocks: seq<Block>): (r: seq<bool>)
    ensures |r| == BLOCK_BITS * |blocks|
    ensures forall i :: 0 <= i < |r| ==> r[i] == blocks[i / BLOCK_BITS][i % BLOCK_BITS]
  {
    seq(BLOCK_BITS * |blocks|, i requires 0 <= i < BLOCK_BITS * |blocks| => blocks[i / BLOCK_BITS][i % BLOCK_BITS])
  }

  function BitsToBlocks(bits: seq<bool>): (r: seq<Block>)
    ensures |r| == |bits| / BLOCK_BITS
    ensures forall i :: 0 <= i < |r| ==> r[i] == bits[BLOCK_BITS * i..BLOCK_BITS * i + BLOCK_BITS]
  {
    seq(|bits| / BLOCK_BITS, i requires 0 <= i < |bits| / BLOCK_BITS =>
        bits[BLOCK_BITS * i..BLOCK_BITS * i + BLOCK_BITS])
  }

  lemma BitsBlocksRoundTrip(blocks: seq<Block>)
    ensures BitsToBlocks(BlocksToBits(blocks)) == blocks
  {
    var bits := BlocksToBits(blocks);
    forall i | 0 <= i < |blocks| ensures BitsToBlocks(bits)[i] == blocks[i] {
      forall j | 0 <= j < BLOCK_BITS ensures bits[BLOCK_BITS * i + j] == blocks[i][j] {
        assert (BLOCK_BITS * i + j) / BLOCK_BITS == i && (BLOCK_BITS * i + j) % BLOCK_BITS == j;
      }
    }
  }

  /** Block `pos` of the row of global key g, before packing. */
  function Chunk(v: seq<Block>, totalBits: nat, g: nat, pos: nat): seq<Block> {
    var at := BLOCK_BITS * pos + g * totalBits;
    if at + BLOCK_BITS <= |v| then v[at..at + BLOCK_BITS] else []
  }

  /** One packed block per 128 entries, key by key. */
  method PolyvalMacChunks(macs: seq<Block>, totalBitsPerKey: nat, globalKeySize: nat, blockCount: nat)
    returns (blockMacs: seq<Block>)
    requires |macs| == totalBitsPerKey * globalKeySize && totalBitsPerKey == BLOCK_BITS * blockCount
    ensures |blockMacs| == blockCount * globalKeySize
    ensures forall g, i :: 0 <= g < globalKeySize && 0 <= i < blockCount ==>
              Flat(blockMacs, blockCount, g, i) == Polyval(Chunk(macs, totalBitsPerKey, g, i))
  {
    hide *;
    blockMacs := [];
    for deltaIter := 0 to globalKeySize
      invariant |blockMacs| == deltaIter * blockCount
      invariant forall g, i :: 0 <= g < deltaIter && 0 <= i < blockCount ==>
                  Flat(blockMacs, blockCount, g, i) == Polyval(Chunk(macs, totalBitsPerKey, g, i))
    {
      var row := PolyvalRow(macs, totalBitsPerKey, globalKeySize, blockCount, deltaIter);
      FlatAppend(blockMacs, row, deltaIter, blockCount);
      blockMacs := blockMacs + row;
    }
  }

  /** The inner loop: the packed blocks of one global key. */
  method PolyvalRow(macs: seq<Block>, totalBitsPerKey: nat, ghost globalKeySize: nat, blockCount: nat, deltaIter: nat)
    returns (row: seq<Block>)
    requires |macs| == totalBitsPerKey * globalKeySize && totalBitsPerKey == BLOCK_BITS * blockCount
    requires deltaIter < globalKeySize
    ensures |row| == blockCount
    ensures forall i :: 0 <= i < blockCount ==> row[i] == Polyval(Chunk(macs, totalBitsPerKey, deltaIter, i))
  {
    hide Polyval;
    row := [];
    var macBase := deltaIter * totalBitsPerKey;
    for blockIter := 0 to blockCount
      invariant |row| == blockIter
      invariant forall i :: 0 <= i < blockIter ==> row[i] == Polyval(Chunk(macs, totalBitsPerKey, deltaIter, i))
    {
      ChunkInside(globalKeySize, totalBitsPerKey, deltaIter, blockIter, blockCount);
      var at := macBase + blockIter * BLOCK_BITS;
      row := row + [Polyval(macs[at..at + BLOCK_BITS])];
    }
  }

  lemma ChunkInside(keys: nat, totalBits: nat, g: nat, i: nat, blockCount: nat)
    requires g < keys && i < blockCount && totalBits == BLOCK_BITS * blockCount
    ensures 0 <= BLOCK_BITS * i + g * totalBits <= BLOCK_BITS * i + g * totalBits + BLOCK_BITS <= totalBits * keys
  {
    MulMonotone(g + 1, keys, totalBits);
    assert (g + 1) * totalBits == g * totalBits + totalBits;
  }

  /** Packing keeps the MAC relation: the packed MACs authenticate the blocks the bits spell,
      under the same global keys, at every (key, block). */
  lemma PackedAuthed(b: ITMacBits, k: ITMacBitKeys, blockMacs: seq<Block>, blockKeys: seq<Block>)
    requires BitsAuthed(b, k) && |b.bits| % BLOCK_BITS == 0
    requires |blockMacs| == |blockKeys| == |b.bits| / BLOCK_BITS * |k.globalKeys|
    requires forall g, i :: 0 <= g < |k.globalKeys| && 0 <= i < |b.bits| / BLOCK_BITS ==>
               Flat(blockMacs, |b.bits| / BLOCK_BITS, g, i) == Polyval(Chunk(b.macs, |b.bits|, g, i))
    requires forall g, i :: 0 <= g < |k.globalKeys| && 0 <= i < |b.bits| / BLOCK_BITS ==>
               Flat(blockKeys, |b.bits| / BLOCK_BITS, g, i) == Polyval(Chunk(k.localKeys, |b.bits|, g, i))
    ensures BlocksAuthed(ITMacBlocks(BitsToBlocks(b.bits), blockMacs, |k.globalKeys|),
                         ITMacBlockKeys(blockKeys, k.globalKeys))
  {
    var n, bc := |b.bits|, |b.bits| / BLOCK_BITS;
    var blocks := BitsToBlocks(b.bits);
    forall g, i | 0 <= g < |k.globalKeys| && 0 <= i < bc
      ensures Flat(blockMacs, bc, g, i) == Xor(Flat(blockKeys, bc, g, i), Mul(blocks[i], k.globalKeys[g]))
    {
      ChunkAuthed(b, k, g, i);
    }
  }

  lemma ChunkAuthed(b: ITMacBits, k: ITMacBitKeys, g: nat, i: nat)
    requires BitsAuthed(b, k) && |b.bits| % BLOCK_BITS == 0
    requires g < |k.globalKeys| && i < |b.bits| / BLOCK_BITS
    ensures Polyval(Chunk(b.macs, |b.bits|, g, i)) ==
            Xor(Polyval(Chunk(k.localKeys, |b.bits|, g, i)), Mul(BitsToBlocks(b.bits)[i], k.globalKeys[g]))
  {
    var n, bc := |b.bits|, |b.bits| / BLOCK_BITS;
    ChunkInside(|k.globalKeys|, n, g, i, bc);
    var block := BitsToBlocks(b.bits)[i];
    var macs, keys := Chunk(b.macs, n, g, i), Chunk(k.localKeys, n, g, i);
    forall j | 0 <= j < BLOCK_BITS ensures macs[j] == Xor(keys[j], Scale(block[j], k.globalKeys[g])) {
      var pos := BLOCK_BITS * i + j;
      assert macs[j] == Flat(b.macs, n, g, pos) && keys[j] == Flat(k.localKeys, n, g, pos) && block[j] == b.bits[pos];
    }
    PolyvalOfMacs(block, macs, keys, k.globalKeys[g]);
    MulComm(block, k.globalKeys[g]);
  }

  // ---------------------------------------------------------------- opening

  /** The bits an opening of [begin, end) sends: shifted down, truncated, packed. */
  function SentBits(bits: seq<bool>, begin: nat, end: nat): seq<Word>
    requires begin <= end <= |bits|
  {
    if begin == 0 && end == 0 then Packed(bits)
    else Packed(Resized(ShiftedDown(bits, begin), end - begin))
  }

  /** `bits >> n` on a fixed-size bit set. */
  function ShiftedDown(bits: seq<bool>, n: nat): (r: seq<bool>)
    ensures |r| == |bits| && forall i :: 0 <= i < |r| ==> r[i] == (i + n < |bits| && bits[i + n])
  {
    seq(|bits|, i requires 0 <= i < |bits| => i + n < |bits| && bits[i + n])
  }

  function EndOf(size: nat, end: nat): nat {
    if end == 0 then size else end
  }

  datatype Result<T> = Ok(value: T) | Err(message: string)

  /** The other side: rebuild the MACs from the keys, and accept when the hashes agree. */
  method ReceiveOpening<D(==)>(k: ITMacBitKeys, hash: seq<Block> -> D, begin: nat, endArg: nat,
                               words: seq<Word>, digest: D) returns (res: Result<seq<bool>>)
    requires |k.globalKeys| > 0 && |k.localKeys| % |k.globalKeys| == 0
    requires (endArg == 0 && begin == 0) || (begin < endArg <= k.Size())
    requires |words| == WordsFor(EndOf(k.Size(), endArg) - begin)
    ensures var bits := Resized(Unpacked(words), EndOf(k.Size(), endArg) - begin);
            res == if hash(ExpectedMacs(k, bits, begin)) == digest then Ok(bits)
                   else Err("The hashes of local keys and MACs are not equal.")
  {
    var end := EndOf(k.Size(), endArg);
    var sliceSize := end - begin;
    var bits := Resized(Unpacked(words), sliceSize);
    var bufKeys: seq<Block> := [];
    for i := 0 to sliceSize
      invariant |bufKeys| == i
      invariant forall j :: 0 <= j < i ==>
                  bufKeys[j] == Xor(k.GetLocalKey(0, begin + j), Scale(bits[j], k.globalKeys[0]))
    {
      bufKeys := bufKeys + [Xor(k.GetLocalKey(0, begin + i), Scale(bits[i], k.globalKeys[0]))];
    }
    assert bufKeys == ExpectedMacs(k, bits, begin);
    if hash(bufKeys) != digest {
      return Err("The hashes of local keys and MACs are not equal.");
    }
    return Ok(bits);
  }

  function ExpectedMacs(k: ITMacBitKeys, bits: seq<bool>, begin: nat): (r: seq<Block>)
    requires |k.globalKeys| > 0
  {
    seq(|bits|, i requires 0 <= i < |bits| => Xor(k.GetLocalKey(0, begin + i), Scale(bits[i], k.globalKeys[0])))
  }

  /** What is sent is exactly the slice, packed with nothing behind it, and it arrives as the slice, whole
      words or not. */
  lemma OpenedBits(bits: seq<bool>, begin: nat, end: nat)
    requires (end == 0 && begin == 0) || (begin < end <= |bits|)
    ensures var e := EndOf(|bits|, end);
            && SentBits(bits, begin, end) == Packed(bits[begin..e])
            && Resized(Unpacked(SentBits(bits, begin, end)), e - begin) == bits[begin..e]
  {
    var e := EndOf(|bits|, end);
    if end == 0 {
      assert bits[begin..e] == bits;
    } else {
      assert Resized(ShiftedDown(bits, begin), e - begin) == bits[begin..e];
    }
    PackUnpack(bits[begin..e]);
  }

  /** Honest opening of any slice: the receiver accepts whatever the hash, and obtains the slice,
      because the MACs it rebuilds from its keys are exactly the opener's. */
  lemma OpenAccepted(b: ITMacBits, k: ITMacBitKeys, begin: nat, end: nat)
    requires BitsAuthed(b, k)
    requires (end == 0 && begin == 0) || (begin < end <= |b.bits|)
    ensures k.Size() == |b.bits| <= |b.macs|
    ensures var e := EndOf(|b.bits|, end);
            ExpectedMacs(k, b.bits[begin..e], begin) == b.macs[begin..e]
  {
    var n, e := |b.bits|, EndOf(|b.bits|, end);
    SizeOfKeys(n, |k.globalKeys|);
    assert n <= |b.macs| by { MulMonotone(1, |k.globalKeys|, n); }
    forall i | 0 <= i < e - begin ensures ExpectedMacs(k, b.bits[begin..e], begin)[i] == b.macs[begin..e][i] {
      assert Flat(b.macs, n, 0, begin + i) == b.macs[begin + i];
    }
  }

  /** The opener's messages: the words are the slice and nothing else of the bits, and the digest is that of the
      slice's MACs, which the holder of any matching keys rebuilds from the slice. */
  method Open<D>(b: ITMacBits, hash: seq<Block> -> D, begin: nat, end: nat) returns (words: seq<Word>, digest: D)
    requires (end == 0 && begin == 0) || (begin < end <= |b.bits|)
    requires |b.bits| <= |b.macs|
    ensures var e := EndOf(|b.bits|, end);
            && words == Packed(b.bits[begin..e]) && Resized(Unpacked(words), e - begin) == b.bits[begin..e]
            && digest == hash(b.macs[begin..e])
    ensures forall k :: BitsAuthed(b, k) ==> digest == hash(ExpectedMacs(k, b.bits[begin..EndOf(|b.bits|, end)], begin))
  {
    OpenedBits(b.bits, begin, end);
    forall k | BitsAuthed(b, k)
      ensures ExpectedMacs(k, b.bits[begin..EndOf(|b.bits|, end)], begin) == b.macs[begin..EndOf(|b.bits|, end)]
    {
      OpenAccepted(b, k, begin, end);
    }
    words := SentBits(b.bits, begin, end);
    digest := hash(b.macs[begin..EndOf(|b.bits|, end)]);
  }
}
