/** A public bit matrix times authenticated bits or blocks, and the matching keys. */
module MatrixProducts {
  import opened Blocks
  import opened Sums
  import opened Words
  import opened Matrices
  import opened Authenticated

  /** Row by row, the XOR of the selected bits. */
  function BitProduct(m: Matrix, bits: seq<bool>): (r: seq<bool>)
    requires m.Valid() && |bits| == m.colSize
    ensures |r| == m.rowSize && forall i :: 0 <= i < |r| ==> r[i] == Parity(m.Row(i), bits, m.colSize)
  {
    seq(m.rowSize, i requires 0 <= i < m.rowSize => Parity(m.Row(i), bits, m.colSize))
  }

  /** Row by row, the XOR of the selected blocks. */
  function BlockProduct(m: Matrix, v: seq<Block>): (r: seq<Block>)
    requires m.Valid() && |v| == m.colSize
    ensures |r| == m.rowSize && forall i :: 0 <= i < |r| ==> r[i] == Dot(m.Row(i), v, m.colSize)
  {
    seq(m.rowSize, i requires 0 <= i < m.rowSize => Dot(m.Row(i), v, m.colSize))
  }

  /** The bits go through the popcount product, the MACs through the set-bit walk. */
  method TimesBits(m: Matrix, authedBits: ITMacBits) returns (r: ITMacBits)
    requires m.Valid() && |authedBits.bits| == |authedBits.macs| == m.colSize
    ensures r == ITMacBits(BitProduct(m, authedBits.bits), BlockProduct(m, authedBits.macs))
  {
    hide BlockProduct, BitProduct, Dot, Parity, Packed, Matrix.Valid, Matrix.RowWords;
    var bits: seq<bool> := seq(m.rowSize, _ => false);
    var macs: seq<Block> := seq(m.rowSize, _ => Zero());
    var bitBlocks := Packed(authedBits.bits);
    for row := 0 to m.rowSize
      invariant |bits| == |macs| == m.rowSize
      invariant forall i :: 0 <= i < row ==> bits[i] == BitProduct(m, authedBits.bits)[i]
      invariant forall i :: 0 <= i < row ==> macs[i] == BlockProduct(m, authedBits.macs)[i]
    {
      var words := m.RowWords(row);
      PaddingIrrelevant(words, m.colSize, authedBits.bits);
      var parity := BitwiseInnerProduct(words, bitBlocks);
      var mac := EntryOf(m, authedBits.macs, row);
      bits, macs := bits[row := parity], macs[row := mac];
    }
    r := ITMacBits(bits, macs);
  }

  method TimesBitKeys(m: Matrix, keys: ITMacBitKeys) returns (r: ITMacBitKeys)
    requires m.Valid() && |keys.localKeys| == m.colSize
    ensures r == ITMacBitKeys(BlockProduct(m, keys.localKeys), keys.globalKeys)
  {
    var newLocalKeys := TimesVector(m, keys.localKeys);
    r := ITMacBitKeys(newLocalKeys, keys.globalKeys);
  }

  /** One entry of a product. */
  method EntryOf(m: Matrix, v: seq<Block>, row: nat) returns (entry: Block)
    requires m.Valid() && |v| == m.colSize && row < m.rowSize
    ensures entry == BlockProduct(m, v)[row]
  {
    hide BlockProduct;
    entry := RowTimes(m.RowWords(row), m.colSize, v);
  }

  method TimesBlocks(m: Matrix, blocks: ITMacBlocks) returns (r: ITMacBlocks)
    requires m.Valid() && |blocks.blocks| == |blocks.macs| == m.colSize
    ensures r == ITMacBlocks(BlockProduct(m, blocks.blocks), BlockProduct(m, blocks.macs), 1)
  {
    hide BlockProduct, Dot, Matrix.Valid;
    var newBlocks, newMacs: seq<Block> := [], [];
    for row := 0 to m.rowSize
      invariant newBlocks == BlockProduct(m, blocks.blocks)[..row] && newMacs == BlockProduct(m, blocks.macs)[..row]
    {
      var newBlock := EntryOf(m, blocks.blocks, row);
      var newMac := EntryOf(m, blocks.macs, row);
      newBlocks, newMacs := newBlocks + [newBlock], newMacs + [newMac];
    }
    r := ITMacBlocks(newBlocks, newMacs, 1);
  }

  method TimesBlockKeys(m: Matrix, keys: ITMacBlockKeys) returns (r: ITMacBlockKeys)
    requires m.Valid() && |keys.localKeys| == m.colSize && |keys.globalKeys| == 1
    ensures r == ITMacBlockKeys(BlockProduct(m, keys.localKeys), keys.globalKeys)
  {
    var newLocalKeys := TimesVector(m, keys.localKeys);
    r := ITMacBlockKeys(newLocalKeys, [keys.globalKeys[0]]);
  }

  method TimesVector(m: Matrix, v: seq<Block>) returns (r: seq<Block>)
    requires m.Valid() && |v| == m.colSize
    ensures r == BlockProduct(m, v)
  {
    hide BlockProduct, Dot, Matrix.Valid;
    r := [];
    for row := 0 to m.rowSize
      invariant r == BlockProduct(m, v)[..row]
    {
      var entry := EntryOf(m, v, row);
      r := r + [entry];
    }
  }

  // ---------------------------------------------------------------- the MAC relation survives

  /** One row of selectors: MACs of the selected bits add up to the MAC of their parity. */
  lemma RowBitsAuthed(row: seq<bool>, bits: seq<bool>, macs: seq<Block>, keys: seq<Block>, delta: Block)
    requires AuthBits(bits, macs, keys, delta) && |row| == |bits|
    ensures Dot(row, macs, |row|) == Xor(Dot(row, keys, |row|), Scale(Parity(row, bits, |row|), delta))
  {
    var n := |row|;
    var scaled: seq<Block> := seq(n, i requires 0 <= i < n => Scale(bits[i], delta));
    DotVecXor(row, keys, scaled, macs, n);
    DotOfScaled(row, bits, delta, scaled, n);
  }

  lemma RowBlocksAuthed(row: seq<bool>, blocks: seq<Block>, macs: seq<Block>, keys: seq<Block>, delta: Block)
    requires AuthBlocks(blocks, macs, keys, delta) && |row| == |blocks|
    ensures Dot(row, macs, |row|) == Xor(Dot(row, keys, |row|), Mul(Dot(row, blocks, |row|), delta))
  {
    hide Mul;
    var n := |row|;
    var scaled: seq<Block> := seq(n, i requires 0 <= i < n => Mul(blocks[i], delta));
    DotVecXor(row, keys, scaled, macs, n);
    DotMul(row, delta, blocks, scaled, n);
  }

  /** matrix * authenticated bits is authenticated, against matrix * keys, under the same key. */
  lemma ProductBitsAuthed(m: Matrix, bits: seq<bool>, macs: seq<Block>, keys: seq<Block>, delta: Block)
    requires m.Valid() && |bits| == m.colSize && AuthBits(bits, macs, keys, delta)
    ensures AuthBits(BitProduct(m, bits), BlockProduct(m, macs), BlockProduct(m, keys), delta)
  {
    forall i | 0 <= i < m.rowSize
      ensures BlockProduct(m, macs)[i] == Xor(BlockProduct(m, keys)[i], Scale(BitProduct(m, bits)[i], delta))
    {
      RowBitsAuthed(m.Row(i), bits, macs, keys, delta);
    }
  }

  lemma ProductBlocksAuthed(m: Matrix, blocks: seq<Block>, macs: seq<Block>, keys: seq<Block>, delta: Block)
    requires m.Valid() && |blocks| == m.colSize && AuthBlocks(blocks, macs, keys, delta)
    ensures AuthBlocks(BlockProduct(m, blocks), BlockProduct(m, macs), BlockProduct(m, keys), delta)
  {
    hide Mul;
    forall i | 0 <= i < m.rowSize
      ensures BlockProduct(m, macs)[i] == Xor(BlockProduct(m, keys)[i], Mul(BlockProduct(m, blocks)[i], delta))
    {
      RowBlocksAuthed(m.Row(i), blocks, macs, keys, delta);
    }
  }
}
