/** The products of one party's masks with the other's, authenticated under both global keys. */
module DualKeyProducts {
  import opened Blocks
  import opened Sums
  import opened Matrices
  import opened MatrixProducts
  import opened Circuits
  import opened XorSources
  import opened Authenticated

  /** One bit's entries under the first L global keys: a column of the flattened table. */
  function Column(v: seq<Block>, total: nat, L: nat, i: nat): (r: seq<Block>)
    ensures |r| == L && forall j :: 0 <= j < L ==> r[j] == Flat(v, total, j, i)
  {
    seq(L, j requires 0 <= j < L => Flat(v, total, j, i))
  }

  /** What the garbler caches for row b and column a. */
  function GarblerEntry(m: Matrix, aMatrix: ITMacBits, alphas: seq<Block>, row: nat, col: nat): Block
    requires m.Valid() && row < m.rowSize <= |alphas| && col < |aMatrix.bits|
  {
    Xor(Dot(m.Row(row), Column(aMatrix.macs, |aMatrix.bits|, m.colSize, col), m.colSize),
        Scale(aMatrix.bits[col], alphas[row]))
  }

  function EvaluatorEntry(m: Matrix, aMatrix: ITMacBitKeys, row: nat, col: nat): Block
    requires m.Valid() && row < m.rowSize
  {
    Dot(m.Row(row), Column(aMatrix.localKeys, aMatrix.Size(), m.colSize, col), m.colSize)
  }

  /** The cached product of wire a's garbler mask and wire b's evaluator mask; the evaluator has
      no mask on the garbler's inputs. */
  function FromCache(c: Circuit, t: Order, resFlatMatrix: seq<Block>, a: Wire, b: Wire): Block
    requires c.WellFormed() && OrderFor(c, t) && a < c.wireSize && b < c.wireSize
    requires |resFlatMatrix| == (c.inputSize1 + c.AndGateSize()) * (c.TotalInputSize() + c.AndGateSize())
    requires Independent(c, a) && Independent(c, b)
  {
    if b < c.inputSize0 then Zero() else
    IndexMapBijection(c, t);
    assert IndependentIndexMap(c, t, b) >= c.inputSize0;
    var col, row := IndependentIndexMap(c, t, a), IndependentIndexMap(c, t, b) - c.inputSize0;
    Flat(resFlatMatrix, c.TotalInputSize() + c.AndGateSize(), row, col)
  }

  /** Cached products of wire i with every wire, zero where a wire is not independent. */
  ghost function CacheRow(c: Circuit, t: Order, res: seq<Block>, i: Wire): (r: seq<Block>)
    requires c.WellFormed() && OrderFor(c, t) && i < c.wireSize
    requires |res| == (c.inputSize1 + c.AndGateSize()) * (c.TotalInputSize() + c.AndGateSize())
    ensures |r| == c.wireSize
    ensures forall j :: 0 <= j < c.wireSize && Independent(c, i) && Independent(c, j) ==>
              r[j] == FromCache(c, t, res, i, j)
  {
    seq(c.wireSize, j requires 0 <= j < c.wireSize =>
      if Independent(c, i) && Independent(c, j) then FromCache(c, t, res, i, j) else Zero())
  }

  ghost function RowSums(c: Circuit, t: Order, res: seq<Block>, src1: seq<bool>): (r: seq<Block>)
    requires c.WellFormed() && OrderFor(c, t) && |src1| == c.wireSize
    requires |res| == (c.inputSize1 + c.AndGateSize()) * (c.TotalInputSize() + c.AndGateSize())
    ensures |r| == c.wireSize
    ensures forall i :: 0 <= i < c.wireSize ==> r[i] == Dot(src1, CacheRow(c, t, res, i), c.wireSize)
  {
    seq(c.wireSize, i requires 0 <= i < c.wireSize => Dot(src1, CacheRow(c, t, res, i), c.wireSize))
  }

  /** The double sum over the two source lists. */
  ghost function DoubleSum(c: Circuit, t: Order, res: seq<Block>, src0: seq<bool>, src1: seq<bool>): Block
    requires c.WellFormed() && OrderFor(c, t) && |src0| == |src1| == c.wireSize
    requires |res| == (c.inputSize1 + c.AndGateSize()) * (c.TotalInputSize() + c.AndGateSize())
  {
    Dot(src0, RowSums(c, t, res, src1), c.wireSize)
  }

  /** The transposed copy: every column is one contiguous span. */
  ghost predicate Spans(transposed: seq<Block>, v: seq<Block>, total: nat, L: nat) {
    forall i :: 0 <= i < total ==> SpanIs(transposed, v, total, L, i)
  }

  ghost predicate SpanIs(transposed: seq<Block>, v: seq<Block>, total: nat, L: nat, i: nat) {
    0 <= i * L <= i * L + L <= |transposed| && transposed[i * L..i * L + L] == Column(v, total, L, i)
  }

  /** Copies the table so that every column becomes a contiguous span; rows from L on are dropped. */
  method Transpose(v: seq<Block>, total: nat, L: nat) returns (transposed: seq<Block>)
    ensures |transposed| == total * L && Spans(transposed, v, total, L)
  {
    hide SpanIs;
    transposed := [];
    for i := 0 to total
      invariant |transposed| == i * L
      invariant forall p :: 0 <= p < i ==> SpanIs(transposed, v, total, L, p)
    {
      ghost var before := transposed;
      for j := 0 to L
        invariant transposed == before + Column(v, total, L, i)[..j]
      {
        transposed := transposed + [Flat(v, total, j, i)];
      }
      SpanAppended(before, transposed, v, total, L, i);
    }
  }

  lemma SpanAppended(before: seq<Block>, transposed: seq<Block>, v: seq<Block>, total: nat, L: nat, i: nat)
    requires |before| == i * L && transposed == before + Column(v, total, L, i)[..L]
    requires forall p :: 0 <= p < i ==> SpanIs(before, v, total, L, p)
    ensures |transposed| == (i + 1) * L
    ensures forall p :: 0 <= p < i + 1 ==> SpanIs(transposed, v, total, L, p)
  {
    forall p | 0 <= p < i + 1 ensures SpanIs(transposed, v, total, L, p) {
      RowInside(p, i + 1, L);
      if p < i {
        RowInside(p, i, L);
        assert SpanIs(before, v, total, L, p);
        assert transposed[p * L..p * L + L] == before[p * L..p * L + L];
      }
    }
  }

  /** The inner loop of the garbler's constructor: one row of the cache. */
  method GarblerRow(m: Matrix, aMatrix: ITMacBits, dualAuthedB: ITMacBlockKeys, transposed: seq<Block>, row: nat)
    returns (entries: seq<Block>)
    requires m.Valid() && row < m.rowSize == |dualAuthedB.localKeys| && |dualAuthedB.globalKeys| == 1
    requires Spans(transposed, aMatrix.macs, |aMatrix.bits|, m.colSize)
    ensures |entries| == |aMatrix.bits|
    ensures forall q :: 0 <= q < |entries| ==> entries[q] == GarblerEntry(m, aMatrix, dualAuthedB.localKeys, row, q)
  {
    hide GarblerEntry, SpanIs, Matrix.RowWords, Matrix.Row;
    var alpha := dualAuthedB.GetLocalKey(0, row);
    entries := [];
    for col := 0 to |aMatrix.bits|
      invariant |entries| == col
      invariant forall q :: 0 <= q < col ==> entries[q] == GarblerEntry(m, aMatrix, dualAuthedB.localKeys, row, q)
    {
      assert SpanIs(transposed, aMatrix.macs, |aMatrix.bits|, m.colSize, col);
      var product := SpanProduct(m, transposed, aMatrix.macs, |aMatrix.bits|, row, col);
      var entry := Xor(product, Scale(aMatrix.bits[col], alpha));
      GarblerEntryIs(m, aMatrix, dualAuthedB.localKeys, row, col);
      entries := entries + [entry];
    }
  }

  lemma GarblerEntryIs(m: Matrix, aMatrix: ITMacBits, alphas: seq<Block>, row: nat, col: nat)
    requires m.Valid() && row < m.rowSize <= |alphas| && col < |aMatrix.bits|
    ensures GarblerEntry(m, aMatrix, alphas, row, col) ==
            Xor(Dot(m.Row(row), Column(aMatrix.macs, |aMatrix.bits|, m.colSize, col), m.colSize),
                Scale(aMatrix.bits[col], alphas[row]))
  {
  }

  /** A row of the matrix times one column span. */
  method SpanProduct(m: Matrix, transposed: seq<Block>, ghost v: seq<Block>, ghost total: nat, row: nat, col: nat)
    returns (product: Block)
    requires m.Valid() && row < m.rowSize && SpanIs(transposed, v, total, m.colSize, col)
    ensures product == Dot(m.Row(row), Column(v, total, m.colSize, col), m.colSize)
  {
    hide Dot, Column;
    product := RowTimes(m.RowWords(row), m.colSize, transposed[col * m.colSize..col * m.colSize + m.colSize]);
  }

  method EvaluatorRow(m: Matrix, aMatrix: ITMacBitKeys, transposed: seq<Block>, row: nat) returns (entries: seq<Block>)
    requires m.Valid() && row < m.rowSize && Spans(transposed, aMatrix.localKeys, aMatrix.Size(), m.colSize)
    ensures |entries| == aMatrix.Size()
    ensures forall q :: 0 <= q < |entries| ==> entries[q] == EvaluatorEntry(m, aMatrix, row, q)
  {
    hide SpanIs, Dot, Matrix.RowWords, Matrix.Row;
    entries := [];
    for col := 0 to aMatrix.Size()
      invariant |entries| == col
      invariant forall q :: 0 <= q < col ==> entries[q] == EvaluatorEntry(m, aMatrix, row, q)
    {
      assert SpanIs(transposed, aMatrix.localKeys, aMatrix.Size(), m.colSize, col);
      var product := SpanProduct(m, transposed, aMatrix.localKeys, aMatrix.Size(), row, col);
      entries := entries + [product];
    }
  }

  class DualKeyAuthedAbCalculator {
    const c: Circuit
    const t: Order
    const resFlatMatrix: seq<Block>

    ghost predicate Valid() {
      && c.WellFormed() && OrderFor(c, t)
      && |resFlatMatrix| == (c.inputSize1 + c.AndGateSize()) * (c.TotalInputSize() + c.AndGateSize())
    }

    constructor Garbler(c: Circuit, t: Order, m: Matrix, aMatrix: ITMacBits, dualAuthedB: ITMacBlockKeys)
      requires c.WellFormed() && OrderFor(c, t) && m.Valid() && m.rowSize == c.inputSize1 + c.AndGateSize()
      requires |aMatrix.bits| == c.TotalInputSize() + c.AndGateSize()
      requires |dualAuthedB.globalKeys| == 1 && |dualAuthedB.localKeys| == m.rowSize
      ensures Valid() && this.c == c && this.t == t
      ensures forall row, col :: 0 <= row < m.rowSize && 0 <= col < |aMatrix.bits| ==>
                Flat(resFlatMatrix, |aMatrix.bits|, row, col) ==
                GarblerEntry(m, aMatrix, dualAuthedB.localKeys, row, col)
    {
      hide GarblerEntry, Spans;
      var total := |aMatrix.bits|;
      var transposedRawMacs := Transpose(aMatrix.macs, total, m.colSize);
      var res: seq<Block> := [];
      for row := 0 to m.rowSize
        invariant |res| == row * total
        invariant forall r, q :: 0 <= r < row && 0 <= q < total ==>
                    Flat(res, total, r, q) == GarblerEntry(m, aMatrix, dualAuthedB.localKeys, r, q)
      {
        var entries := GarblerRow(m, aMatrix, dualAuthedB, transposedRawMacs, row);
        FlatAppend(res, entries, row, total);
        res := res + entries;
      }
      this.c, this.t, resFlatMatrix := c, t, res;
    }

    constructor Evaluator(c: Circuit, t: Order, m: Matrix, aMatrix: ITMacBitKeys)
      requires c.WellFormed() && OrderFor(c, t) && m.Valid() && m.rowSize == c.inputSize1 + c.AndGateSize()
      requires aMatrix.Size() == c.TotalInputSize() + c.AndGateSize()
      ensures Valid() && this.c == c && this.t == t
      ensures forall row, col :: 0 <= row < m.rowSize && 0 <= col < aMatrix.Size() ==>
                Flat(resFlatMatrix, aMatrix.Size(), row, col) == EvaluatorEntry(m, aMatrix, row, col)
    {
      hide EvaluatorEntry, Spans;
      var total := aMatrix.Size();
      var transposedRawKeys := Transpose(aMatrix.localKeys, total, m.colSize);
      var res: seq<Block> := [];
      for row := 0 to m.rowSize
        invariant |res| == row * total
        invariant forall r, q :: 0 <= r < row && 0 <= q < total ==>
                    Flat(res, total, r, q) == EvaluatorEntry(m, aMatrix, r, q)
      {
        var entries := EvaluatorRow(m, aMatrix, transposedRawKeys, row);
        FlatAppend(res, entries, row, total);
        res := res + entries;
      }
      this.c, this.t, resFlatMatrix := c, t, res;
    }

    /** For any two wires: walk both source lists and add the cached products. */
    method Calculate(in0: Wire, in1: Wire, m: XORSourceMatrix) returns (res: Block)
      requires Valid() && m.Valid() && m.mat.rowSize == c.wireSize && SourcesFor(c, m.Rows(), m.flip)
      requires in0 < c.wireSize && in1 < c.wireSize
      ensures res == DoubleSum(c, t, resFlatMatrix, m.Rows()[in0], m.Rows()[in1])
    {
      res := SumOverSources(in0, in1, m.mat, m.Rows(), m.flip);
    }

    method SumOverSources(in0: Wire, in1: Wire, mat: Matrix, ghost src: seq<seq<bool>>, ghost flip: seq<bool>)
      returns (res: Block)
      requires Valid() && SourcesFor(c, src, flip) && RowsOf(mat, src) && in0 < c.wireSize && in1 < c.wireSize
      ensures res == DoubleSum(c, t, resFlatMatrix, src[in0], src[in1])
    {
      hide FromCache, CacheRow, RowSums, SourceGate, Dot, Independent, Along, SetColumns, Xor, OrderFor, RowsOf,
           Circuit.WellFormed;
      res := Zero();
      var cols0 := SourceColumns(c, mat, src, flip, in0);
      ghost var sums := RowSums(c, t, resFlatMatrix, src[in1]);
      AlongSetColumns(src[in0], sums, c.wireSize);
      AlongNone(cols0, sums, src[in0]);
      for k := 0 to |cols0|
        invariant res == Along(cols0, sums, k)
      {
        AlongNext(cols0, sums, k);
        var row := RowSum(cols0[k], in1, mat, src, flip);
        res := Xor(res, row);
      }
    }

    method RowSum(i: Wire, in1: Wire, mat: Matrix, ghost src: seq<seq<bool>>, ghost flip: seq<bool>)
      returns (res: Block)
      requires Valid() && SourcesFor(c, src, flip) && RowsOf(mat, src)
      requires i < c.wireSize && Independent(c, i) && in1 < c.wireSize
      ensures res == Dot(src[in1], CacheRow(c, t, resFlatMatrix, i), c.wireSize)
    {
      hide FromCache, CacheRow, SourceGate, Dot, Independent, Along, SetColumns, Xor, OrderFor, RowsOf,
           Circuit.WellFormed;
      res := Zero();
      var cols1 := SourceColumns(c, mat, src, flip, in1);
      ghost var cache := CacheRow(c, t, resFlatMatrix, i);
      AlongSetColumns(src[in1], cache, c.wireSize);
      AlongNone(cols1, cache, src[in1]);
      for k := 0 to |cols1|
        invariant res == Along(cols1, cache, k)
      {
        AlongNext(cols1, cache, k);
        res := Xor(res, FromCache(c, t, resFlatMatrix, i, cols1[k]));
      }
    }
  }

  // ---------------------------------------------------------------- what the two caches add up to

  /** The two caches at one (row, column): the garbler's mask bit scales the row's share of
      beta plus the row's alpha. */
  lemma EntriesAddUp(m: Matrix, a: ITMacBits, k: ITMacBitKeys, alphas: seq<Block>, betas: seq<Block>, row: nat,
                     col: nat)
    requires m.Valid() && row < m.rowSize == |alphas| && col < |a.bits| && |betas| == m.colSize
    requires BitsAuthed(a, k) && |k.globalKeys| == m.colSize + 1 && k.globalKeys[..m.colSize] == betas
    ensures k.Size() == |a.bits|
    ensures Xor(GarblerEntry(m, a, alphas, row, col), EvaluatorEntry(m, k, row, col)) ==
            Scale(a.bits[col], Xor(Dot(m.Row(row), betas, m.colSize), alphas[row]))
  {
    hide Xor, Scale, Dot, Column, Matrix.Row;
    var n, L := |a.bits|, m.colSize;
    SizeOfKeys(n, |k.globalKeys|);
    ColumnAuthed(a, k, betas, col, L);
    var macs, keys := Column(a.macs, n, L, col), Column(k.localKeys, n, L, col);
    var scaled: seq<Block> := seq(L, j requires 0 <= j < L => Scale(a.bits[col], betas[j]));
    DotVecXor(m.Row(row), keys, scaled, macs, L);
    DotScale(m.Row(row), a.bits[col], betas, scaled, L);
    CollectScaled(Dot(m.Row(row), keys, L), a.bits[col], Dot(m.Row(row), betas, L), alphas[row]);
  }

  lemma ColumnAuthed(a: ITMacBits, k: ITMacBitKeys, betas: seq<Block>, col: nat, L: nat)
    requires BitsAuthed(a, k) && |k.globalKeys| == L + 1 && k.globalKeys[..L] == betas && col < |a.bits|
    ensures forall j :: 0 <= j < L ==>
              Column(a.macs, |a.bits|, L, col)[j] ==
              Xor(Column(k.localKeys, |a.bits|, L, col)[j], Scale(a.bits[col], betas[j]))
  {
  }

  lemma CollectScaled(x: Block, bit: bool, y: Block, alpha: Block)
    ensures Xor(Xor(Xor(x, Scale(bit, y)), Scale(bit, alpha)), x) == Scale(bit, Xor(y, alpha))
  {
  }

  /** bStar[j] * deltaB with MAC beta[j] under deltaA: the row sums of beta and of its keys differ
      by the row's bit of matrix * bStar, times deltaA * deltaB. */
  lemma DualRow(m: Matrix, bStar: seq<bool>, betas: seq<Block>, alphaStar: seq<Block>, product: Block, row: nat)
    requires m.Valid() && row < m.rowSize && |bStar| == |betas| == |alphaStar| == m.colSize
    requires AuthBits(bStar, betas, alphaStar, product)
    ensures Xor(Dot(m.Row(row), betas, m.colSize), BlockProduct(m, alphaStar)[row]) ==
            Scale(BitProduct(m, bStar)[row], product)
  {
    RowBitsAuthed(m.Row(row), bStar, betas, alphaStar, product);
    CancelOuter(Dot(m.Row(row), alphaStar, m.colSize), Scale(BitProduct(m, bStar)[row], product));
  }

  lemma CancelOuter(x: Block, y: Block)
    ensures Xor(Xor(x, y), x) == y
  {
  }

  /** For every pair of independent wires the caches add up to a_i * b_j * product. */
  ghost predicate CachesAddUp(c: Circuit, t: Order, resG: seq<Block>, resE: seq<Block>,
                              a: seq<bool>, b: seq<bool>, product: Block)
    requires c.WellFormed() && OrderFor(c, t) && |a| == |b| == c.wireSize
    requires |resG| == |resE| == (c.inputSize1 + c.AndGateSize()) * (c.TotalInputSize() + c.AndGateSize())
  {
    forall i, j :: 0 <= i < c.wireSize && 0 <= j < c.wireSize && Independent(c, i) && Independent(c, j) ==>
      Xor(FromCache(c, t, resG, i, j), FromCache(c, t, resE, i, j)) == Scale(a[i] && b[j], product)
  }

  /** Every wire's entry is the sum over its source row, and the row lists independent wires only. */
  lemma SourceSum(c: Circuit, src: seq<seq<bool>>, flip: seq<bool>, u: seq<Block>, w: Wire)
    requires c.WellFormed() && SourcesFor(c, src, flip) && |u| == c.wireSize && FollowsLinear(c, u, Zero())
    requires w < c.wireSize
    ensures Dot(src[w], u, c.wireSize) == u[w]
    ensures forall j :: 0 <= j < c.wireSize && src[w][j] ==> Independent(c, j)
  {
    assert c.Available(|c.gates|, w);
    SourcesIndependent(c, src, flip, |c.gates|);
    SourceMeaning(c, src, flip, u, Zero(), |c.gates|);
    assert Means(c, src, flip, u, Zero(), w);
    assert Xor(Scale(flip[w], Zero()), Dot(src[w], u, c.wireSize)) == Dot(src[w], u, c.wireSize);
  }

  lemma OneRow(c: Circuit, t: Order, src: seq<seq<bool>>, flip: seq<bool>, resG: seq<Block>, resE: seq<Block>,
               a: seq<bool>, b: seq<bool>, ub: seq<Block>, product: Block, i: Wire, in1: Wire)
    requires c.WellFormed() && OrderFor(c, t) && SourcesFor(c, src, flip) && |a| == |b| == |ub| == c.wireSize
    requires |resG| == |resE| == (c.inputSize1 + c.AndGateSize()) * (c.TotalInputSize() + c.AndGateSize())
    requires CachesAddUp(c, t, resG, resE, a, b, product) && FollowsLinear(c, ub, Zero())
    requires forall w :: 0 <= w < c.wireSize ==> ub[w] == Scale(b[w], product)
    requires i < c.wireSize && Independent(c, i) && in1 < c.wireSize
    ensures Xor(Dot(src[in1], CacheRow(c, t, resG, i), c.wireSize),
                Dot(src[in1], CacheRow(c, t, resE, i), c.wireSize)) ==
            Scale(a[i], Scale(b[in1], product))
  {
    hide FromCache, FollowsLinear, SourceGate, Dot, Xor;
    var n := c.wireSize;
    SourceSum(c, src, flip, ub, in1);
    var g, e := CacheRow(c, t, resG, i), CacheRow(c, t, resE, i);
    var sum: seq<Block> := seq(n, j requires 0 <= j < n => Xor(g[j], e[j]));
    DotVecXor(src[in1], g, e, sum, n);
    forall j | 0 <= j < n && src[in1][j] ensures sum[j] == Scale(a[i], ub[j]) {
    }
    DotScale(src[in1], a[i], ub, sum, n);
  }

  /** For ANY two wires: the garbler's and the evaluator's results add up to a_in0 * b_in1 * product. */
  lemma ProductsAddUp(c: Circuit, t: Order, src: seq<seq<bool>>, flip: seq<bool>, resG: seq<Block>, resE: seq<Block>,
                      a: seq<bool>, b: seq<bool>, ua: seq<Block>, ub: seq<Block>, product: Block, in0: Wire, in1: Wire)
    requires c.WellFormed() && OrderFor(c, t) && SourcesFor(c, src, flip) && |a| == |b| == |ub| == |ua| == c.wireSize
    requires |resG| == |resE| == (c.inputSize1 + c.AndGateSize()) * (c.TotalInputSize() + c.AndGateSize())
    requires CachesAddUp(c, t, resG, resE, a, b, product)
    requires FollowsLinear(c, ua, Zero()) && FollowsLinear(c, ub, Zero())
    requires forall w :: 0 <= w < c.wireSize ==> ub[w] == Scale(b[w], product) && ua[w] == Scale(a[w], product)
    requires in0 < c.wireSize && in1 < c.wireSize
    ensures Xor(DoubleSum(c, t, resG, src[in0], src[in1]), DoubleSum(c, t, resE, src[in0], src[in1])) ==
            Scale(a[in0] && b[in1], product)
  {
    hide FromCache, CacheRow, CachesAddUp, FollowsLinear, SourceGate, Dot, Xor;
    var n := c.wireSize;
    SourceSum(c, src, flip, ua, in0);
    var g, e := RowSums(c, t, resG, src[in1]), RowSums(c, t, resE, src[in1]);
    var sum: seq<Block> := seq(n, i requires 0 <= i < n => Xor(g[i], e[i]));
    DotVecXor(src[in0], g, e, sum, n);
    forall i | 0 <= i < n && src[in0][i] ensures sum[i] == Scale(b[in1], ua[i]) {
      OneRow(c, t, src, flip, resG, resE, a, b, ub, product, i, in1);
    }
    DotScale(src[in0], b[in1], ua, sum, n);
  }
}
