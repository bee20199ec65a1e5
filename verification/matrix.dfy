/** Bit matrices packed row by row into 64-bit words, and their products. */
module Matrices {
  import opened Blocks
  import opened Sums
  import opened Words

  function BlocksPerRow(cols: nat): nat {
    if cols != 0 then (cols + WORD_BITS - 1) / WORD_BITS else 0
  }

  datatype Matrix = Matrix(rowSize: nat, colSize: nat, data: seq<Word>) {
    ghost predicate Valid() {
      |data| == rowSize * BlocksPerRow(colSize)
    }

    /** The words of one row. */
    function RowWords(i: nat): (r: seq<Word>)
      requires Valid() && i < rowSize
      ensures |r| == BlocksPerRow(colSize)
      ensures colSize <= WORD_BITS * |r| < colSize + WORD_BITS
    {
      var bpr := BlocksPerRow(colSize);
      RowInside(i, rowSize, bpr);
      data[i * bpr..i * bpr + bpr]
    }

    /** The bits of one row, padding dropped. */
    function Row(i: nat): (r: seq<bool>)
      requires Valid() && i < rowSize
      ensures |r| == colSize
    {
      Unpacked(RowWords(i))[..colSize]
    }
  }

  lemma RowInside(i: nat, n: nat, bpr: nat)
    requires i < n
    ensures 0 <= i * bpr <= i * bpr + bpr <= n * bpr
  {
    assert (i + 1) * bpr <= n * bpr;
  }

  /** The set positions below n, in increasing order. */
  function SetColumns(bits: seq<bool>, n: nat): seq<nat>
    requires n <= |bits|
  {
    if n == 0 then [] else SetColumns(bits, n - 1) + (if bits[n - 1] then [n - 1] else [])
  }

  lemma {:induction false} SetColumnsMeaning(bits: seq<bool>, n: nat)
    requires n <= |bits|
    ensures forall c: nat :: c in SetColumns(bits, n) <==> c < n && bits[c]
    ensures forall k :: 0 <= k < |SetColumns(bits, n)| ==> SetColumns(bits, n)[k] < n
    ensures forall j, k :: 0 <= j < k < |SetColumns(bits, n)| ==> SetColumns(bits, n)[j] < SetColumns(bits, n)[k]
  {
    if n > 0 { SetColumnsMeaning(bits, n - 1); }
  }

  lemma {:induction false} SetColumnsSkip(bits: seq<bool>, p: nat, t: nat)
    requires p <= t <= |bits| && forall i :: p <= i < t ==> !bits[i]
    ensures SetColumns(bits, t) == SetColumns(bits, p)
    decreases t
  {
    if p < t { SetColumnsSkip(bits, p, t - 1); }
  }

  lemma {:induction false} SetColumnsPrefix(a: seq<bool>, b: seq<bool>, n: nat)
    requires n <= |a| && n <= |b| && a[..n] == b[..n]
    ensures SetColumns(a, n) == SetColumns(b, n)
  {
    if n > 0 {
      assert a[..n - 1] == a[..n][..n - 1] == b[..n - 1];
      assert a[n - 1] == a[..n][n - 1] == b[n - 1];
      SetColumnsPrefix(a, b, n - 1);
    }
  }

  function Min(a: nat, b: nat): nat {
    if a < b then a else b
  }

  lemma UnpackedWord(words: seq<Word>, b: nat)
    requires b < |words|
    ensures WORD_BITS * b + WORD_BITS <= WORD_BITS * |words|
    ensures forall i :: WORD_BITS * b <= i < WORD_BITS * b + WORD_BITS ==>
              Unpacked(words)[i] == words[b][i - WORD_BITS * b]
  {
  }

  /** The lowest set bit k, and the word that `m &= m - 1` leaves. */
  method TakeLowestBit(mask: Word) returns (k: nat, rest: Word)
    requires mask != ZeroWord()
    ensures k < WORD_BITS && mask[k] && forall i :: 0 <= i < k ==> !mask[i]
    ensures forall i :: 0 <= i < WORD_BITS ==> rest[i] == (mask[i] && i != k)
  {
    assert exists i :: 0 <= i < |mask| && mask[i];
    ClearLowest(mask);
    k := Ctz(mask);
    rest := BitAnd(mask, Decrement(mask));
  }

  lemma NextColumn(bits: seq<bool>, p: nat, col: nat)
    requires p <= col < |bits| && bits[col] && forall i :: p <= i < col ==> !bits[i]
    ensures SetColumns(bits, col + 1) == SetColumns(bits, p) + [col]
  {
    SetColumnsSkip(bits, p, col);
  }

  /** The inner loop: the set columns of one word, stopping at the row's end. */
  method ForEachSetBitOfWord(word: Word, base: nat, colSize: nat, seen: seq<nat>, ghost raw: seq<bool>)
    returns (cols: seq<nat>)
    requires base + WORD_BITS <= |raw| && forall i :: base <= i < base + WORD_BITS ==> raw[i] == word[i - base]
    requires base <= colSize <= |raw| && seen == SetColumns(raw, base)
    ensures cols == SetColumns(raw, Min(base + WORD_BITS, colSize))
  {
    cols := seen;
    hide SetColumns;
    var mask: Word := word;
    ghost var next := Min(base + WORD_BITS, colSize);
    ghost var p := 0;
    while mask != ZeroWord()
      invariant base + p <= next
      invariant forall i :: 0 <= i < WORD_BITS ==> mask[i] == (word[i] && p <= i)
      invariant cols == SetColumns(raw, base + p)
      decreases next - p, mask != ZeroWord()
    {
      var bitOffset;
      bitOffset, mask := TakeLowestBit(mask);
      var col := base + bitOffset;
      if col >= colSize {
        SetColumnsSkip(raw, base + p, next);
        return;
      }
      NextColumn(raw, base + p, col);
      cols := cols + [col];
      p := bitOffset + 1;
    }
    SetColumnsSkip(raw, base + p, next);
  }

  /** The columns a row visits: word by word, lowest set bit first. */
  method ForEachSetBit(words: seq<Word>, colSize: nat) returns (cols: seq<nat>)
    requires colSize <= WORD_BITS * |words| < colSize + WORD_BITS
    ensures cols == SetColumns(Unpacked(words)[..colSize], colSize)
  {
    cols := [];
    ghost var raw := Unpacked(words);
    assert SetColumns(raw, 0) == [];
    hide SetColumns;
    for blockIter := 0 to |words|
      invariant cols == SetColumns(raw, Min(WORD_BITS * blockIter, colSize))
    {
      UnpackedWord(words, blockIter);
      cols := ForEachSetBitOfWord(words[blockIter], WORD_BITS * blockIter, colSize, cols, raw);
    }
    SetColumnsPrefix(raw, raw[..colSize], colSize);
  }

  // ---------------------------------------------------------------- row times vector

  /** The entries of v listed by the first k positions of cols, XORed. */
  function Along(cols: seq<nat>, v: seq<Block>, k: nat): Block
    requires k <= |cols| && forall i :: 0 <= i < |cols| ==> cols[i] < |v|
  {
    if k == 0 then Zero() else Xor(Along(cols, v, k - 1), v[cols[k - 1]])
  }

  lemma {:induction false} AlongPrefix(a: seq<nat>, b: seq<nat>, v: seq<Block>, k: nat)
    requires k <= |a| && forall i :: 0 <= i < |a| ==> a[i] < |v|
    requires k <= |b| && forall i :: 0 <= i < |b| ==> b[i] < |v|
    requires forall i :: 0 <= i < k ==> a[i] == b[i]
    ensures Along(a, v, k) == Along(b, v, k)
  {
    if k > 0 { AlongPrefix(a, b, v, k - 1); }
  }

  lemma {:induction false} AlongSetColumns(bits: seq<bool>, v: seq<Block>, n: nat)
    requires n <= |bits| && n <= |v|
    ensures forall i :: 0 <= i < |SetColumns(bits, n)| ==> SetColumns(bits, n)[i] < |v|
    ensures Along(SetColumns(bits, n), v, |SetColumns(bits, n)|) == Dot(bits, v, n)
  {
    hide Dot, Along;
    SetColumnsMeaning(bits, n);
    AlongNone(SetColumns(bits, n), v, bits);
    if n > 0 {
      AlongSetColumns(bits, v, n - 1);
      DotStep(bits, v, n);
      if bits[n - 1] {
        AlongPush(SetColumns(bits, n - 1), n - 1, v);
      } else {
        assert SetColumns(bits, n) == SetColumns(bits, n - 1);
      }
    }
  }

  lemma DotStep(bits: seq<bool>, v: seq<Block>, n: nat)
    requires 0 < n <= |bits| && n <= |v|
    ensures Dot(bits, v, n) == if bits[n - 1] then Xor(Dot(bits, v, n - 1), v[n - 1]) else Dot(bits, v, n - 1)
  {
    XorZero(Dot(bits, v, n - 1));
  }

  lemma AlongNone(cols: seq<nat>, v: seq<Block>, bits: seq<bool>)
    requires forall i :: 0 <= i < |cols| ==> cols[i] < |v|
    ensures Along(cols, v, 0) == Zero() == Dot(bits, v, 0)
  {
  }

  lemma AlongNext(cols: seq<nat>, v: seq<Block>, k: nat)
    requires k < |cols| && forall i :: 0 <= i < |cols| ==> cols[i] < |v|
    ensures Along(cols, v, k + 1) == Xor(Along(cols, v, k), v[cols[k]])
  {
  }

  lemma AlongPush(cols: seq<nat>, c: nat, v: seq<Block>)
    requires c < |v| && forall i :: 0 <= i < |cols| ==> cols[i] < |v|
    ensures Along(cols + [c], v, |cols| + 1) == Xor(Along(cols, v, |cols|), v[c])
  {
    AlongPrefix(cols, cols + [c], v, |cols|);
  }

  /** Row times vector: XOR the entries at the set columns. */
  method RowTimes(words: seq<Word>, colSize: nat, values: seq<Block>) returns (result: Block)
    requires colSize <= WORD_BITS * |words| < colSize + WORD_BITS && |values| == colSize
    ensures result == Dot(Unpacked(words)[..colSize], values, colSize)
  {
    var cols := ForEachSetBit(words, colSize);
    AlongSetColumns(Unpacked(words)[..colSize], values, colSize);
    result := Zero();
    for k := 0 to |cols|
      invariant result == Along(cols, values, k)
    {
      result := Xor(result, values[cols[k]]);
    }
  }

  // ---------------------------------------------------------------- row times bit set

  /** Parity of the positions below n where both bits are set. */
  function Parity(a: seq<bool>, b: seq<bool>, n: nat): bool
    requires n <= |a| && n <= |b|
  {
    n > 0 && (Parity(a, b, n - 1) != (a[n - 1] && b[n - 1]))
  }

  lemma {:induction false} ParityAppend(a: seq<bool>, b: seq<bool>, p: nat, c: seq<bool>, d: seq<bool>, n: nat)
    requires p + n <= |a| && p + n <= |b| && n <= |c| && n <= |d|
    requires forall i :: p <= i < p + n ==> a[i] == c[i - p] && b[i] == d[i - p]
    ensures Parity(a, b, p + n) == (Parity(a, b, p) != Parity(c, d, n))
  {
    if n > 0 { ParityAppend(a, b, p, c, d, n - 1); }
  }

  lemma {:induction false} ParityPopCount(a: seq<bool>, b: seq<bool>)
    requires |a| == |b|
    ensures (PopCount(BitAnd(a, b)) % 2 == 1) == Parity(a, b, |a|)
  {
    if a != [] {
      assert BitAnd(a, b)[1..] == BitAnd(a[1..], b[1..]);
      ParityPopCount(a[1..], b[1..]);
      ParityAppend(a, b, 1, a[1..], b[1..], |a| - 1);
    }
  }

  /** Positions beyond n do not matter when one side is zero there, and only
      the first n bits of the other side are read. */
  lemma {:induction false} ParityTrim(a: seq<bool>, b: seq<bool>, a': seq<bool>, b': seq<bool>, n: nat, m: nat)
    requires n <= m <= |a| && m <= |b| && n <= |a'| && n <= |b'|
    requires forall i :: 0 <= i < n ==> a[i] == a'[i] && b[i] == b'[i]
    requires forall i :: n <= i < m ==> !b[i]
    ensures Parity(a, b, m) == Parity(a', b', n)
    decreases m
  {
    if n < m {
      ParityTrim(a, b, a', b', n, m - 1);
    } else if n > 0 {
      ParityTrim(a, b, a', b', n - 1, m - 1);
    }
  }

  /** The word-parallel inner product: AND the words, add up the popcount parities. */
  method BitwiseInnerProduct(words: seq<Word>, bitBlocks: seq<Word>) returns (parity: bool)
    requires |words| == |bitBlocks|
    ensures parity == Parity(Unpacked(words), Unpacked(bitBlocks), WORD_BITS * |words|)
  {
    assert !Parity(Unpacked(words), Unpacked(bitBlocks), 0);
    hide PopCount, Unpacked, BitAnd, Parity;
    parity := false;
    for i := 0 to |words|
      invariant parity == Parity(Unpacked(words), Unpacked(bitBlocks), WORD_BITS * i)
    {
      parity := parity != (PopCount(BitAnd(words[i], bitBlocks[i])) % 2 == 1);
      ParityStep(words, bitBlocks, i);
    }
  }

  lemma ParityStep(words: seq<Word>, bitBlocks: seq<Word>, i: nat)
    requires |words| == |bitBlocks| && i < |words|
    ensures Parity(Unpacked(words), Unpacked(bitBlocks), WORD_BITS * (i + 1)) ==
            (Parity(Unpacked(words), Unpacked(bitBlocks), WORD_BITS * i) !=
             (PopCount(BitAnd(words[i], bitBlocks[i])) % 2 == 1))
  {
    hide PopCount, Unpacked, BitAnd, Parity;
    ParityPopCount(words[i], bitBlocks[i]);
    UnpackedWord(words, i);
    UnpackedWord(bitBlocks, i);
    ParityAppend(Unpacked(words), Unpacked(bitBlocks), WORD_BITS * i, words[i], bitBlocks[i], WORD_BITS);
  }

  /** The popcount product is the column-by-column product even when the row's
      padding bits are garbage, because the padding of a packed bit set is zero. */
  lemma PaddingIrrelevant(words: seq<Word>, colSize: nat, bits: seq<bool>)
    requires colSize <= WORD_BITS * |words| < colSize + WORD_BITS && |bits| == colSize
    ensures |Packed(bits)| == |words|
    ensures Parity(Unpacked(words), Unpacked(Packed(bits)), WORD_BITS * |words|) ==
            Parity(Unpacked(words)[..colSize], bits, colSize)
  {
    var b := Unpacked(Packed(bits));
    PackUnpack(bits);
    forall i | 0 <= i < WORD_BITS * |words| ensures b[i] == (i < colSize && bits[i]) {
      assert WORD_BITS * (i / WORD_BITS) + i % WORD_BITS == i;
      assert b[i] == Packed(bits)[i / WORD_BITS][i % WORD_BITS];
    }
    ParityTrim(Unpacked(words), b, Unpacked(words)[..colSize], bits, colSize, WORD_BITS * |words|);
  }

  /** The two products agree on authenticated bits: XORing scaled copies of one
      block along a row scales that block by the parity. */
  lemma {:induction false} DotOfScaled(row: seq<bool>, bits: seq<bool>, d: Block, v: seq<Block>, n: nat)
    requires n <= |row| && n <= |bits| && n <= |v|
    requires forall i :: 0 <= i < n ==> v[i] == Scale(bits[i], d)
    ensures Dot(row, v, n) == Scale(Parity(row, bits, n), d)
  {
    if n > 0 { DotOfScaled(row, bits, d, v, n - 1); }
  }

  // ---------------------------------------------------------------- in-place padding

  lemma NoPadding(cols: nat)
    requires cols % WORD_BITS == 0
    ensures WORD_BITS * BlocksPerRow(cols) == cols
  {
  }

  /** Clears, in the last word of each row, the bits beyond the column count. */
  method ZeroMatrixRowPadding(blocks: array<Word>, rows: nat, cols: nat)
    requires blocks.Length == rows * BlocksPerRow(cols)
    modifies blocks
    ensures forall r, k :: 0 <= r < rows && 0 <= k < WORD_BITS * BlocksPerRow(cols) ==>
              (RowBit(blocks[..], BlocksPerRow(cols), r, k) <==>
               k < cols && RowBit(old(blocks[..]), BlocksPerRow(cols), r, k))
  {
    var blockPerRow := BlocksPerRow(cols);
    if blockPerRow == 0 {
      return;
    }
    var validBits := cols % WORD_BITS;
    hide *;
    if validBits == 0 {
      NoPadding(cols);
      return;
    }
    var mask: Word := seq(WORD_BITS, i => i < validBits);
    NothingCleared(blocks[..], blockPerRow, rows, cols);
    for row := 0 to rows
      invariant ClearedUpTo(old(blocks[..]), blocks[..], blockPerRow, rows, cols, row)
    {
      LastWordInside(row, rows, blockPerRow);
      ghost var before := blocks[..];
      blocks[row * blockPerRow + (blockPerRow - 1)] := BitAnd(blocks[row * blockPerRow + (blockPerRow - 1)], mask);
      ClearStep(old(blocks[..]), before, blocks[..], mask, rows, blockPerRow, row, cols);
    }
    AllCleared(old(blocks[..]), blocks[..], blockPerRow, rows, cols);
  }

  /** The padding of the first `row` rows is cleared, and nothing else is changed. */
  ghost predicate ClearedUpTo(a: seq<Word>, b: seq<Word>, bpr: nat, rows: nat, cols: nat, row: nat) {
    forall r, k :: 0 <= r < rows && 0 <= k < WORD_BITS * bpr ==>
      (RowBit(b, bpr, r, k) <==> (k < cols || r >= row) && RowBit(a, bpr, r, k))
  }

  lemma NothingCleared(a: seq<Word>, bpr: nat, rows: nat, cols: nat)
    ensures ClearedUpTo(a, a, bpr, rows, cols, 0)
  {
    hide RowBit;
  }

  lemma AllCleared(a: seq<Word>, b: seq<Word>, bpr: nat, rows: nat, cols: nat)
    requires ClearedUpTo(a, b, bpr, rows, cols, rows)
    ensures forall r, k :: 0 <= r < rows && 0 <= k < WORD_BITS * bpr ==>
              (RowBit(b, bpr, r, k) <==> k < cols && RowBit(a, bpr, r, k))
  {
    hide RowBit;
  }

  lemma ClearStep(start: seq<Word>, a: seq<Word>, b: seq<Word>, mask: Word, rows: nat, bpr: nat, row: nat, cols: nat)
    requires |a| == |b| == rows * bpr && row < rows && bpr == BlocksPerRow(cols) && cols % WORD_BITS != 0
    requires 0 <= row * bpr + (bpr - 1) < |a|
    requires forall i :: 0 <= i < WORD_BITS ==> mask[i] == (i < cols % WORD_BITS)
    requires b == a[row * bpr + (bpr - 1) := BitAnd(a[row * bpr + (bpr - 1)], mask)]
    requires ClearedUpTo(start, a, bpr, rows, cols, row)
    ensures ClearedUpTo(start, b, bpr, rows, cols, row + 1)
  {
    hide RowBit, BitAnd;
    MaskedRow(a, b, mask, rows, bpr, row, cols);
  }

  /** Bit k of row r. */
  predicate RowBit(data: seq<Word>, bpr: nat, r: nat, k: nat) {
    var w := r * bpr + k / WORD_BITS;
    w < |data| && data[w][k % WORD_BITS]
  }

  lemma LastWordInside(row: nat, rows: nat, bpr: nat)
    requires row < rows && bpr > 0
    ensures 0 <= row * bpr + (bpr - 1) < rows * bpr
  {
    RowInside(row, rows, bpr);
  }

  /** Masking the last word of one row changes only that row's padding bits. */
  lemma MaskedRow(a: seq<Word>, b: seq<Word>, mask: Word, rows: nat, bpr: nat, row: nat, cols: nat)
    requires |a| == |b| == rows * bpr && row < rows && bpr == BlocksPerRow(cols) && cols % WORD_BITS != 0
    requires 0 <= row * bpr + (bpr - 1) < |a|
    requires forall i :: 0 <= i < WORD_BITS ==> mask[i] == (i < cols % WORD_BITS)
    requires b == a[row * bpr + (bpr - 1) := BitAnd(a[row * bpr + (bpr - 1)], mask)]
    ensures forall r, k :: 0 <= r < rows && 0 <= k < WORD_BITS * bpr ==>
              RowBit(b, bpr, r, k) == ((k < cols || r != row) && RowBit(a, bpr, r, k))
  {
    forall r, k | 0 <= r < rows && 0 <= k < WORD_BITS * bpr
      ensures RowBit(b, bpr, r, k) == ((k < cols || r != row) && RowBit(a, bpr, r, k))
    {
      var last := row * bpr + (bpr - 1);
      RowInside(r, rows, bpr);
      if r < row {
        RowInside(r, row, bpr);
      } else if r > row {
        RowInside(row, r, bpr);
      } else {
        assert k / WORD_BITS == bpr - 1 ==> (k % WORD_BITS < cols % WORD_BITS <==> k < cols);
      }
    }
  }
}
