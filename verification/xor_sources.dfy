/** The XOR source matrix: every wire as an XOR of independent wires. */
module XorSources {
  import opened Blocks
  import opened Sums
  import opened Words
  import opened Matrices
  import opened Circuits

  ghost predicate IsUnit(row: seq<bool>, w: nat) {
    forall i :: 0 <= i < |row| ==> row[i] == (i == w)
  }

  /** The rows and flip bits the library keeps: an independent wire is its own
      source, XOR combines the rows, NOT copies the row and flips. */
  ghost predicate SourcesFor(c: Circuit, src: seq<seq<bool>>, flip: seq<bool>)
    requires c.WellFormed()
  {
    && |src| == |flip| == c.wireSize
    && (forall w :: 0 <= w < c.wireSize ==> |src[w]| == c.wireSize)
    && (forall w :: 0 <= w < c.TotalInputSize() ==> IsUnit(src[w], w) && !flip[w])
    && (forall k :: 0 <= k < |c.gates| ==> SourceGate(c, src, flip, k))
  }

  ghost predicate SourceGate(c: Circuit, src: seq<seq<bool>>, flip: seq<bool>, k: nat)
    requires c.WellFormed() && k < |c.gates|
    requires |src| == |flip| == c.wireSize && forall w :: 0 <= w < c.wireSize ==> |src[w]| == c.wireSize
  {
    var g := c.gates[k];
    assert c.Available(k, g.in0) && (g.NotGate? || c.Available(k, g.in1));
    match g
    case AndGate(_, _, _) => IsUnit(src[g.out], g.out) && !flip[g.out]
    case XorGate(_, _, _) =>
      src[g.out] == BitXor(src[g.in0], src[g.in1]) && flip[g.out] == (flip[g.in0] != flip[g.in1])
    case NotGate(_, _) =>
      src[g.out] == src[g.in0] && flip[g.out] == !flip[g.in0]
  }

  /** A quantity per wire that XOR gates add and NOT gates shift by a constant. */
  ghost predicate FollowsLinear(c: Circuit, u: seq<Block>, shift: Block)
    requires c.WellFormed()
  {
    |u| == c.wireSize &&
    forall k :: 0 <= k < |c.gates| ==> LinearGate(c, u, shift, k)
  }

  ghost predicate LinearGate(c: Circuit, u: seq<Block>, shift: Block, k: nat)
    requires c.WellFormed() && k < |c.gates| && |u| == c.wireSize
  {
    var g := c.gates[k];
    assert c.Available(k, g.in0) && (g.NotGate? || c.Available(k, g.in1));
    match g
    case AndGate(_, _, _) => true
    case XorGate(_, _, _) => u[g.out] == Xor(u[g.in0], u[g.in1])
    case NotGate(_, _) => u[g.out] == Xor(u[g.in0], shift)
  }

  /** What the matrix says about wire w. */
  ghost predicate Means(c: Circuit, src: seq<seq<bool>>, flip: seq<bool>, u: seq<Block>, shift: Block, w: Wire)
    requires c.WellFormed() && SourcesFor(c, src, flip) && |u| == c.wireSize && w < c.wireSize
  {
    u[w] == Xor(Scale(flip[w], shift), Dot(src[w], u, c.wireSize))
  }

  lemma MeansUnit(c: Circuit, src: seq<seq<bool>>, flip: seq<bool>, u: seq<Block>, shift: Block, w: Wire)
    requires c.WellFormed() && SourcesFor(c, src, flip) && |u| == c.wireSize && w < c.wireSize
    requires IsUnit(src[w], w) && !flip[w]
    ensures Means(c, src, flip, u, shift, w)
  {
    DotUnit(src[w], u, c.wireSize, w);
    XorZero(u[w]);
  }

  lemma MeansGate(c: Circuit, src: seq<seq<bool>>, flip: seq<bool>, u: seq<Block>, shift: Block, k: nat)
    requires c.WellFormed() && SourcesFor(c, src, flip) && FollowsLinear(c, u, shift) && k < |c.gates|
    requires forall w :: 0 <= w < c.wireSize && c.Available(k, w) ==> Means(c, src, flip, u, shift, w)
    ensures Means(c, src, flip, u, shift, c.gates[k].out)
  {
    hide Xor, Scale, Dot;
    var g := c.gates[k];
    var n := c.wireSize;
    assert SourceGate(c, src, flip, k) && LinearGate(c, u, shift, k);
    match g {
      case AndGate(_, _, out) =>
        MeansUnit(c, src, flip, u, shift, out);
      case XorGate(a, b, out) =>
        assert Means(c, src, flip, u, shift, a) && Means(c, src, flip, u, shift, b);
        DotRowXor(src[a], src[b], src[out], u, n);
        ShiftedXor(flip[a], flip[b], shift, Dot(src[a], u, n), Dot(src[b], u, n));
      case NotGate(a, out) =>
        assert Means(c, src, flip, u, shift, a);
        ShiftedNot(flip[a], shift, Dot(src[a], u, n));
    }
  }

  lemma ShiftedXor(s: bool, t: bool, shift: Block, x: Block, y: Block)
    ensures Xor(Xor(Scale(s, shift), x), Xor(Scale(t, shift), y)) == Xor(Scale(s != t, shift), Xor(x, y))
  {
  }

  lemma ShiftedNot(s: bool, shift: Block, x: Block)
    ensures Xor(Xor(Scale(s, shift), x), shift) == Xor(Scale(!s, shift), x)
  {
  }

  /** Meaning of the matrix: any such quantity is, at every wire, the XOR of its
      values at the wire's sources, shifted once more if the flip bit is set. */
  lemma {:induction false} SourceMeaning(c: Circuit, src: seq<seq<bool>>, flip: seq<bool>,
                                         u: seq<Block>, shift: Block, k: nat)
    requires c.WellFormed() && SourcesFor(c, src, flip) && FollowsLinear(c, u, shift) && k <= |c.gates|
    ensures forall w :: 0 <= w < c.wireSize && c.Available(k, w) ==> Means(c, src, flip, u, shift, w)
  {
    if k > 0 {
      SourceMeaning(c, src, flip, u, shift, k - 1);
      MeansGate(c, src, flip, u, shift, k - 1);
    }
    forall w | 0 <= w < c.wireSize && c.Available(k, w) ensures Means(c, src, flip, u, shift, w) {
      if w < c.TotalInputSize() {
        MeansUnit(c, src, flip, u, shift, w);
      } else {
        c.AvailableStep(k - 1, w);
      }
    }
  }

  ghost predicate Independent(c: Circuit, w: Wire)
    requires c.WellFormed()
  {
    w in c.IndependentWires()
  }

  /** Only inputs and AND outputs occur as sources. */
  lemma {:induction false} SourcesIndependent(c: Circuit, src: seq<seq<bool>>, flip: seq<bool>, k: nat)
    requires c.WellFormed() && SourcesFor(c, src, flip) && k <= |c.gates|
    ensures forall w, i :: 0 <= w < c.wireSize && c.Available(k, w) && 0 <= i < c.wireSize && src[w][i] ==>
              Independent(c, i)
  {
    forall w, i | 0 <= w < c.wireSize && c.Available(k, w) && 0 <= i < c.wireSize && src[w][i]
      ensures Independent(c, i)
    {
      if w < c.TotalInputSize() {
        assert c.IndependentWires()[w] == w;
      } else {
        SourcesIndependent(c, src, flip, k - 1);
        c.AvailableStep(k - 1, w);
        if w == c.gates[k - 1].out {
          assert SourceGate(c, src, flip, k - 1);
          if c.gates[k - 1].AndGate? {
            c.AndPosition(k - 1);
            assert c.IndependentWires()[c.TotalInputSize() + c.AndCount(k - 1)] == w;
          }
        }
      }
    }
  }

  // ---------------------------------------------------------------- building the matrix

  /** A slice that keeps clear of the written positions is unchanged. */
  lemma SliceKept(x: seq<Word>, y: seq<Word>, lo: nat, hi: nat, begin: nat, end: nat)
    requires |x| == |y| && lo <= hi <= |x| && (hi <= begin || end <= lo)
    requires forall p :: 0 <= p < |x| && !(begin <= p < end) ==> y[p] == x[p]
    ensures y[lo..hi] == x[lo..hi]
  {
  }

  lemma RowsApart(i: nat, j: nat, bpr: nat)
    requires i < j
    ensures i * bpr + bpr <= j * bpr
  {
    assert (i + 1) * bpr <= j * bpr;
  }

  /** Only the n words from position `at` on may differ. */
  ghost predicate WrittenAt(a: Matrix, b: Matrix, at: nat, n: nat) {
    && a.Valid() && b.Valid() && a.rowSize == b.rowSize && a.colSize == b.colSize
    && forall p :: 0 <= p < |a.data| && !(at <= p < at + n) ==> b.data[p] == a.data[p]
  }

  /** A row other than the written one keeps its words. */
  lemma RowKept(a: Matrix, b: Matrix, out: nat, i: nat)
    requires WrittenAt(a, b, out * BlocksPerRow(a.colSize), BlocksPerRow(a.colSize))
    requires out < a.rowSize && i < a.rowSize && i != out
    ensures b.RowWords(i) == a.RowWords(i)
  {
    hide Unpacked;
    var bpr := BlocksPerRow(a.colSize);
    RowInside(i, a.rowSize, bpr);
    if i < out { RowsApart(i, out, bpr); } else { RowsApart(out, i, bpr); }
    SliceKept(a.data, b.data, i * bpr, i * bpr + bpr, out * bpr, out * bpr + bpr);
  }

  /** Writing the words of one row replaces that row and no other. */
  lemma RowReplaced(a: Matrix, b: Matrix, out: nat, row: seq<Word>)
    requires WrittenAt(a, b, out * BlocksPerRow(a.colSize), BlocksPerRow(a.colSize))
    requires out < a.rowSize && b.RowWords(out) == row
    ensures b.Row(out) == Unpacked(row)[..a.colSize]
    ensures forall i :: 0 <= i < a.rowSize && i != out ==> b.Row(i) == a.Row(i)
  {
    hide Unpacked, Matrix.RowWords;
    forall i | 0 <= i < a.rowSize && i != out ensures b.Row(i) == a.Row(i) {
      RowKept(a, b, out, i);
    }
  }

  /** The words of a row, one by one. */
  lemma WordOfRow(m: Matrix, i: nat, j: nat)
    requires m.Valid() && i < m.rowSize && j < BlocksPerRow(m.colSize)
    ensures 0 <= i * BlocksPerRow(m.colSize) + j < |m.data|
    ensures m.data[i * BlocksPerRow(m.colSize) + j] == m.RowWords(i)[j]
  {
    RowInside(i, m.rowSize, BlocksPerRow(m.colSize));
  }

  /** Writing one word of a row. */
  lemma OneWordWritten(a: Matrix, b: Matrix, out: nat, j: nat, word: Word)
    requires a.Valid() && out < a.rowSize && j < BlocksPerRow(a.colSize)
    requires out * BlocksPerRow(a.colSize) + j < |a.data|
    requires b == a.(data := a.data[out * BlocksPerRow(a.colSize) + j := word])
    ensures WrittenAt(a, b, out * BlocksPerRow(a.colSize), BlocksPerRow(a.colSize))
    ensures b.RowWords(out) == a.RowWords(out)[j := word]
  {
    RowInside(out, a.rowSize, BlocksPerRow(a.colSize));
  }

  /** The first n words of row `out` are the XORs of the words of two rows, which may be `out` itself. */
  ghost predicate XorUpTo(a: Matrix, b: Matrix, out: nat, in0: nat, in1: nat, n: nat)
    requires a.Valid() && out < a.rowSize && in0 < a.rowSize && in1 < a.rowSize && n <= BlocksPerRow(a.colSize)
  {
    && WrittenAt(a, b, out * BlocksPerRow(a.colSize), n)
    && forall j :: 0 <= j < n ==> b.RowWords(out)[j] == BitXor(a.RowWords(in0)[j], a.RowWords(in1)[j])
  }

  /** The next word of an input row has not been overwritten yet. */
  lemma WordStillThere(a: Matrix, b: Matrix, out: nat, i: nat, n: nat)
    requires a.Valid() && out < a.rowSize && i < a.rowSize && n < BlocksPerRow(a.colSize)
    requires WrittenAt(a, b, out * BlocksPerRow(a.colSize), n)
    ensures i * BlocksPerRow(a.colSize) + n < |b.data|
    ensures b.data[i * BlocksPerRow(a.colSize) + n] == a.RowWords(i)[n]
  {
    var bpr := BlocksPerRow(a.colSize);
    WordOfRow(a, i, n);
    if i < out { RowsApart(i, out, bpr); } else if out < i { RowsApart(out, i, bpr); }
  }

  lemma XorReads(a: Matrix, b: Matrix, out: nat, in0: nat, in1: nat, n: nat)
    requires a.Valid() && out < a.rowSize && in0 < a.rowSize && in1 < a.rowSize && n < BlocksPerRow(a.colSize)
    requires XorUpTo(a, b, out, in0, in1, n)
    ensures out * BlocksPerRow(a.colSize) + n < |b.data|
    ensures in0 * BlocksPerRow(a.colSize) + n < |b.data|
    ensures b.data[in0 * BlocksPerRow(a.colSize) + n] == a.RowWords(in0)[n]
    ensures in1 * BlocksPerRow(a.colSize) + n < |b.data|
    ensures b.data[in1 * BlocksPerRow(a.colSize) + n] == a.RowWords(in1)[n]
  {
    WordStillThere(a, b, out, out, n);
    WordStillThere(a, b, out, in0, n);
    WordStillThere(a, b, out, in1, n);
  }

  lemma NothingXored(a: Matrix, out: nat, in0: nat, in1: nat)
    requires a.Valid() && out < a.rowSize && in0 < a.rowSize && in1 < a.rowSize
    ensures XorUpTo(a, a, out, in0, in1, 0)
  {
  }

  lemma XorStep(a: Matrix, b: Matrix, b': Matrix, out: nat, in0: nat, in1: nat, n: nat)
    requires a.Valid() && out < a.rowSize && in0 < a.rowSize && in1 < a.rowSize && n < BlocksPerRow(a.colSize)
    requires XorUpTo(a, b, out, in0, in1, n) && out * BlocksPerRow(a.colSize) + n < |b.data|
    requires var word := BitXor(a.RowWords(in0)[n], a.RowWords(in1)[n]);
             b' == b.(data := b.data[out * BlocksPerRow(a.colSize) + n := word])
    ensures XorUpTo(a, b', out, in0, in1, n + 1)
  {
    hide BitXor, Matrix.RowWords;
    OneWordWritten(b, b', out, n, BitXor(a.RowWords(in0)[n], a.RowWords(in1)[n]));
  }

  lemma XorDone(a: Matrix, b: Matrix, out: nat, in0: nat, in1: nat)
    requires a.Valid() && out < a.rowSize && in0 < a.rowSize && in1 < a.rowSize
    requires XorUpTo(a, b, out, in0, in1, BlocksPerRow(a.colSize))
    ensures b.Valid() && b.rowSize == a.rowSize && b.colSize == a.colSize
    ensures MatrixRows(b) == MatrixRows(a)[out := BitXor(MatrixRows(a)[in0], MatrixRows(a)[in1])]
  {
    hide Matrix.RowWords, Unpacked, BitXor;
    RowReplaced(a, b, out, b.RowWords(out));
    UnpackedXor(a.RowWords(in0), a.RowWords(in1), b.RowWords(out), a.colSize);
  }

  lemma ZeroRows(m: Matrix)
    requires m.Valid() && forall p :: 0 <= p < |m.data| ==> m.data[p] == ZeroWord()
    ensures forall w, i :: 0 <= w < m.rowSize && 0 <= i < m.colSize ==> !m.Row(w)[i]
  {
    forall w, i | 0 <= w < m.rowSize && 0 <= i < m.colSize ensures !m.Row(w)[i] {
      RowInside(w, m.rowSize, BlocksPerRow(m.colSize));
      assert m.RowWords(w)[i / WORD_BITS] == ZeroWord();
    }
  }

  /** The rows of a matrix as bits. */
  ghost function MatrixRows(m: Matrix): (r: seq<seq<bool>>)
    requires m.Valid()
    ensures |r| == m.rowSize && forall i :: 0 <= i < |r| ==> |r[i]| == m.colSize && r[i] == m.Row(i)
  {
    seq(m.rowSize, i requires 0 <= i < m.rowSize => m.Row(i))
  }

  lemma UnpackedXor(a: seq<Word>, b: seq<Word>, x: seq<Word>, n: nat)
    requires |a| == |b| == |x| && forall i :: 0 <= i < |a| ==> x[i] == BitXor(a[i], b[i])
    requires n <= WORD_BITS * |a|
    ensures Unpacked(x)[..n] == BitXor(Unpacked(a)[..n], Unpacked(b)[..n])
  {
  }

  /** Row `out` becomes the XOR of two rows, word by word. */
  method XorRow(m: Matrix, out: nat, in0: nat, in1: nat) returns (r: Matrix)
    requires m.Valid() && out < m.rowSize && in0 < m.rowSize && in1 < m.rowSize
    ensures r.Valid() && r.rowSize == m.rowSize && r.colSize == m.colSize
    ensures MatrixRows(r) == MatrixRows(m)[out := BitXor(MatrixRows(m)[in0], MatrixRows(m)[in1])]
  {
    hide BitXor, Unpacked, Matrix.Row, Matrix.RowWords, XorUpTo, WrittenAt;
    var bpr := BlocksPerRow(m.colSize);
    r := m;
    NothingXored(m, out, in0, in1);
    for i := 0 to bpr
      invariant r.rowSize == m.rowSize && r.colSize == m.colSize && XorUpTo(m, r, out, in0, in1, i)
    {
      XorReads(m, r, out, in0, in1, i);
      ghost var now := r;
      r := r.(data := r.data[out * bpr + i := BitXor(r.data[in0 * bpr + i], r.data[in1 * bpr + i])]);
      XorStep(m, now, r, out, in0, in1, i);
    }
    XorDone(m, r, out, in0, in1);
  }

  /** The matrix itself: one packed row per wire, and one flip bit per wire. */
  class XORSourceMatrix {
    var mat: Matrix
    var flip: seq<bool>

    ghost predicate Valid()
      reads this
    {
      mat.Valid() && mat.rowSize == mat.colSize == |flip|
    }

    ghost function Rows(): (r: seq<seq<bool>>)
      reads this
      requires Valid()
      ensures |r| == mat.rowSize
      ensures forall i :: 0 <= i < |r| ==> |r[i]| == mat.rowSize && r[i] == mat.Row(i)
    {
      MatrixRows(mat)
    }

    constructor (wireSize: nat)
      ensures Valid() && mat.rowSize == wireSize
      ensures forall w :: 0 <= w < wireSize ==> !flip[w] && (forall i :: 0 <= i < wireSize ==> !Rows()[w][i])
    {
      var data: seq<Word> := seq(wireSize * BlocksPerRow(wireSize), _ => ZeroWord());
      mat := Matrix(wireSize, wireSize, data);
      flip := seq(wireSize, _ => false);
      new;
      ZeroRows(mat);
    }

    method SetAsIndependentWire(w: Wire)
      requires Valid() && w < mat.rowSize
      modifies this`mat
      ensures Valid() && mat.rowSize == old(mat.rowSize)
      ensures Rows() == old(Rows())[w := old(Rows())[w][w := true]]
    {
      var bpr := BlocksPerRow(mat.colSize);
      var blockIndex, bitOffset := w / WORD_BITS, w % WORD_BITS;
      assert blockIndex < bpr;
      WordOfRow(mat, w, blockIndex);
      ghost var before, words := mat, mat.RowWords(w);
      var at := w * bpr + blockIndex;
      mat := mat.(data := mat.data[at := BitOr(mat.data[at], OneAt(bitOffset))]);
      ghost var row: seq<Word> := words[blockIndex := BitOr(words[blockIndex], OneAt(bitOffset))];
      OneWordWritten(before, mat, w, blockIndex, BitOr(words[blockIndex], OneAt(bitOffset)));
      RowReplaced(before, mat, w, row);
      assert Unpacked(row)[..before.colSize] == before.Row(w)[w := true];
    }

    method AssignXor(out: Wire, in0: Wire, in1: Wire)
      requires Valid() && out < mat.rowSize && in0 < mat.rowSize && in1 < mat.rowSize
      modifies this
      ensures Valid() && mat.rowSize == old(mat.rowSize)
      ensures Rows() == old(Rows())[out := BitXor(old(Rows())[in0], old(Rows())[in1])]
      ensures flip == old(flip)[out := old(flip[in0]) != old(flip[in1])]
    {
      mat := XorRow(mat, out, in0, in1);
      flip := flip[out := flip[in0] != flip[in1]];
    }

    method AssignNot(out: Wire, input: Wire)
      requires Valid() && out < mat.rowSize && input < mat.rowSize
      modifies this
      ensures Valid() && mat.rowSize == old(mat.rowSize)
      ensures Rows() == old(Rows())[out := old(Rows())[input]]
      ensures flip == old(flip)[out := !old(flip[input])]
    {
      var bpr := BlocksPerRow(mat.colSize);
      ghost var before := mat;
      var a := mat.RowWords(input);
      RowInside(out, mat.rowSize, bpr);
      mat := mat.(data := mat.data[..out * bpr] + a + mat.data[out * bpr + bpr..]);
      assert mat.RowWords(out) == a && WrittenAt(before, mat, out * bpr, bpr);
      RowReplaced(before, mat, out, a);
      flip := flip[out := !flip[input]];
    }
  }

  // ---------------------------------------------------------------- filling the matrix

  /** The first k gates are recorded, and no wire without a value has been touched. */
  ghost predicate SourcesUpTo(c: Circuit, src: seq<seq<bool>>, flip: seq<bool>, k: nat)
    requires c.WellFormed() && k <= |c.gates|
  {
    && |src| == |flip| == c.wireSize
    && (forall w :: 0 <= w < c.wireSize ==> |src[w]| == c.wireSize)
    && (forall w :: 0 <= w < c.TotalInputSize() ==> IsUnit(src[w], w) && !flip[w])
    && (forall j :: 0 <= j < k ==> SourceGate(c, src, flip, j))
    && (forall w :: 0 <= w < c.wireSize && !c.Available(k, w) ==> Blank(src, flip, w))
  }

  ghost predicate Blank(src: seq<seq<bool>>, flip: seq<bool>, w: Wire)
    requires w < |src| && w < |flip|
  {
    !flip[w] && forall i :: 0 <= i < |src[w]| ==> !src[w][i]
  }

  lemma SourceStep(c: Circuit, src: seq<seq<bool>>, flip: seq<bool>,
                   src': seq<seq<bool>>, flip': seq<bool>, k: nat)
    requires c.WellFormed() && k < |c.gates| && SourcesUpTo(c, src, flip, k)
    requires |src'| == |flip'| == c.wireSize && forall w :: 0 <= w < c.wireSize ==> |src'[w]| == c.wireSize
    requires forall w :: 0 <= w < c.wireSize && w != c.gates[k].out ==> src'[w] == src[w] && flip'[w] == flip[w]
    requires SourceGate(c, src', flip', k)
    ensures SourcesUpTo(c, src', flip', k + 1)
  {
    forall j | 0 <= j < k + 1 ensures SourceGate(c, src', flip', j) {
      if j < k {
        assert SourceGate(c, src, flip, j);
        assert c.Available(j, c.gates[j].in0);
      }
    }
    forall w | 0 <= w < c.wireSize && !c.Available(k + 1, w) ensures Blank(src', flip', w) {
      c.AvailableStep(k, w);
      assert Blank(src, flip, w);
    }
  }

  method RecordGate(c: Circuit, m: XORSourceMatrix, k: nat)
    requires c.WellFormed() && k < |c.gates| && m.Valid() && m.mat.rowSize == c.wireSize
    requires SourcesUpTo(c, m.Rows(), m.flip, k)
    modifies m
    ensures m.Valid() && m.mat.rowSize == c.wireSize
    ensures SourcesUpTo(c, m.Rows(), m.flip, k + 1)
  {
    ghost var src, flip := m.Rows(), m.flip;
    var g := c.gates[k];
    assert c.Available(k, g.in0) && (g.NotGate? || c.Available(k, g.in1)) && !c.Available(k, g.out);
    assert Blank(src, flip, g.out);
    match g {
      case XorGate(in0, in1, out) => m.AssignXor(out, in0, in1);
      case AndGate(_, _, out) => m.SetAsIndependentWire(out);
      case NotGate(in0, out) => m.AssignNot(out, in0);
    }
    SourceStep(c, src, flip, m.Rows(), m.flip, k);
  }

  /** The first n inputs are their own sources, and nothing else is recorded yet. */
  ghost predicate InputsUpTo(c: Circuit, src: seq<seq<bool>>, flip: seq<bool>, n: nat)
    requires n <= c.wireSize
  {
    && |src| == |flip| == c.wireSize
    && (forall w :: 0 <= w < c.wireSize ==> |src[w]| == c.wireSize)
    && (forall w :: 0 <= w < n ==> IsUnit(src[w], w) && !flip[w])
    && (forall w :: n <= w < c.wireSize ==> Blank(src, flip, w))
  }

  lemma InputStep(c: Circuit, src: seq<seq<bool>>, flip: seq<bool>, src': seq<seq<bool>>, n: nat)
    requires n < c.wireSize && InputsUpTo(c, src, flip, n)
    requires src' == src[n := src[n][n := true]]
    ensures InputsUpTo(c, src', flip, n + 1)
  {
    assert Blank(src, flip, n);
    forall w | n < w < c.wireSize ensures Blank(src', flip, w) {
      assert Blank(src, flip, w);
    }
  }

  method PopulateXorSourceMatrix(c: Circuit, m: XORSourceMatrix)
    requires c.WellFormed() && m.Valid() && m.mat.rowSize == c.wireSize
    requires forall w :: 0 <= w < c.wireSize ==> Blank(m.Rows(), m.flip, w)
    modifies m
    ensures m.Valid() && m.mat.rowSize == c.wireSize
    ensures SourcesFor(c, m.Rows(), m.flip)
  {
    for wireIndex := 0 to c.TotalInputSize()
      invariant m.Valid() && m.mat.rowSize == c.wireSize
      invariant InputsUpTo(c, m.Rows(), m.flip, wireIndex)
    {
      ghost var src := m.Rows();
      m.SetAsIndependentWire(wireIndex);
      InputStep(c, src, m.flip, m.Rows(), wireIndex);
    }
    assert SourcesUpTo(c, m.Rows(), m.flip, 0) by {
      forall w | 0 <= w < c.wireSize && !c.Available(0, w) ensures Blank(m.Rows(), m.flip, w) {}
    }
    for k := 0 to |c.gates|
      invariant m.Valid() && m.mat.rowSize == c.wireSize
      invariant SourcesUpTo(c, m.Rows(), m.flip, k)
    {
      RecordGate(c, m, k);
    }
  }

  ghost predicate RowsOf(mat: Matrix, src: seq<seq<bool>>) {
    mat.Valid() && |src| == mat.rowSize == mat.colSize && forall i :: 0 <= i < |src| ==> src[i] == mat.Row(i)
  }

  /** The sources of a wire, in order: all of them independent wires. */
  method SourceColumns(c: Circuit, mat: Matrix, ghost src: seq<seq<bool>>, ghost flip: seq<bool>, wire: Wire)
    returns (cols: seq<nat>)
    requires c.WellFormed() && SourcesFor(c, src, flip) && RowsOf(mat, src) && wire < c.wireSize
    ensures cols == SetColumns(src[wire], c.wireSize)
    ensures forall k :: 0 <= k < |cols| ==> cols[k] < c.wireSize && Independent(c, cols[k])
  {
    hide SourceGate, Independent;
    cols := ForEachSetBit(mat.RowWords(wire), mat.colSize);
    SetColumnsMeaning(src[wire], c.wireSize);
    assert c.Available(|c.gates|, wire);
    SourcesIndependent(c, src, flip, |c.gates|);
    forall k | 0 <= k < |cols| ensures cols[k] < c.wireSize && Independent(c, cols[k]) {
      assert cols[k] in cols && src[wire][cols[k]];
    }
  }

  // ---------------------------------------------------------------- gate order and wire index

  const AND_ORDER_DISABLED := 0xFFFF_FFFF_FFFF_FFFF

  datatype Order = Order(outputWireToGateIndex: map<Wire, nat>, andGateOrder: seq<nat>, andToGlobalIndex: seq<nat>)

  ghost predicate OrderFor(c: Circuit, t: Order) {
    && |t.andGateOrder| == |c.gates| && t.andToGlobalIndex == c.AndGates(|c.gates|)
    && forall k :: 0 <= k < |c.gates| ==> OrderGate(c, t, k)
  }

  ghost predicate OrderGate(c: Circuit, t: Order, k: nat)
    requires k < |c.gates| == |t.andGateOrder|
  {
    && c.gates[k].out in t.outputWireToGateIndex && t.outputWireToGateIndex[c.gates[k].out] == k
    && t.andGateOrder[k] == if c.gates[k].AndGate? then c.AndCount(k) else AND_ORDER_DISABLED
  }

  method MapWiresOrderGates(c: Circuit) returns (t: Order)
    requires c.WellFormed()
    ensures OrderFor(c, t)
    ensures forall w :: w in t.outputWireToGateIndex ==>
              t.outputWireToGateIndex[w] < |c.gates| && c.gates[t.outputWireToGateIndex[w]].out == w
  {
    var outputWireToGateIndex: map<Wire, nat> := map[];
    var andGateOrder: seq<nat> := seq(|c.gates|, _ => AND_ORDER_DISABLED);
    var andGateSize := c.AndGateSize();
    var andToGlobalIndex: seq<nat> := seq(andGateSize, _ => 0);
    var currentAndOrder := 0;
    for gateIter := 0 to |c.gates|
      invariant |andGateOrder| == |c.gates| && |andToGlobalIndex| == andGateSize
      invariant currentAndOrder == c.AndCount(gateIter) <= andGateSize
      invariant andToGlobalIndex[..currentAndOrder] == c.AndGates(gateIter)
      invariant forall k :: gateIter <= k < |c.gates| ==> andGateOrder[k] == AND_ORDER_DISABLED
      invariant forall w :: w in outputWireToGateIndex ==>
                  outputWireToGateIndex[w] < |c.gates| && c.gates[outputWireToGateIndex[w]].out == w
      invariant forall k :: 0 <= k < gateIter ==>
                  OrderGate(c, Order(outputWireToGateIndex, andGateOrder, andToGlobalIndex), k)
    {
      ghost var t0 := Order(outputWireToGateIndex, andGateOrder, andToGlobalIndex);
      outputWireToGateIndex := outputWireToGateIndex[c.gates[gateIter].out := gateIter];
      if c.gates[gateIter].AndGate? {
        c.AndPosition(gateIter);
        andGateOrder := andGateOrder[gateIter := currentAndOrder];
        andToGlobalIndex := andToGlobalIndex[currentAndOrder := gateIter];
        currentAndOrder := currentAndOrder + 1;
      }
      ghost var t' := Order(outputWireToGateIndex, andGateOrder, andToGlobalIndex);
      forall k | 0 <= k < gateIter + 1 ensures OrderGate(c, t', k) {
        assert k < gateIter ==> OrderGate(c, t0, k) && c.gates[k].out != c.gates[gateIter].out;
      }
    }
    assert andToGlobalIndex[..andGateSize] == andToGlobalIndex;
    t := Order(outputWireToGateIndex, andGateOrder, andToGlobalIndex);
  }

  /** The library's numbering of independent wires. */
  function IndependentIndexMap(c: Circuit, t: Order, w: Wire): nat
    requires c.WellFormed() && OrderFor(c, t) && w < c.wireSize
  {
    if w < c.TotalInputSize() then w else
    assert c.Available(|c.gates|, w);
    var k :| 0 <= k < |c.gates| && c.gates[k].out == w;
    assert OrderGate(c, t, k);
    t.andGateOrder[t.outputWireToGateIndex[w]] + c.TotalInputSize()
  }

  /** The numbering is a bijection between independent wires and [0, inputs + ANDs):
      the list of independent wires inverts it on both sides. */
  lemma IndexMapBijection(c: Circuit, t: Order)
    requires c.WellFormed() && OrderFor(c, t)
    ensures forall w :: 0 <= w < c.wireSize && Independent(c, w) ==>
              IndependentIndexMap(c, t, w) < |c.IndependentWires()| &&
              c.IndependentWires()[IndependentIndexMap(c, t, w)] == w
    ensures forall i :: 0 <= i < |c.IndependentWires()| ==>
              IndependentIndexMap(c, t, c.IndependentWires()[i]) == i
  {
    forall i | 0 <= i < |c.IndependentWires()|
      ensures IndependentIndexMap(c, t, c.IndependentWires()[i]) == i
    {
      if i >= c.TotalInputSize() {
        c.AndPositionInverse(i - c.TotalInputSize());
        var k := c.AndGates(|c.gates|)[i - c.TotalInputSize()];
        assert OrderGate(c, t, k);
      }
    }
    forall w | 0 <= w < c.wireSize && Independent(c, w)
      ensures IndependentIndexMap(c, t, w) < |c.IndependentWires()|
      ensures c.IndependentWires()[IndependentIndexMap(c, t, w)] == w
    {
      var i :| 0 <= i < |c.IndependentWires()| && c.IndependentWires()[i] == w;
    }
  }

  // ---------------------------------------------------------------- garbled-circuit check data

  /** Per independent wire: the AND gates it feeds, and through which inputs. */
  type GcCheckData = seq<map<nat, (bool, bool)>>

  /** Wire w feeds AND gate k through its first and second input. */
  function Connected(c: Circuit, src: seq<seq<bool>>, w: Wire, k: nat): (bool, bool)
    requires c.WellFormed() && k < |c.gates| && c.gates[k].AndGate? && w < c.wireSize
    requires |src| == c.wireSize && forall i :: 0 <= i < c.wireSize ==> |src[i]| == c.wireSize
  {
    var g := c.gates[k];
    assert c.Available(k, g.in0) && c.Available(k, g.in1);
    (src[g.in0][w], src[g.in1][w])
  }

  ghost predicate GcCheckDataFor(c: Circuit, src: seq<seq<bool>>, data: GcCheckData, n: nat)
    requires c.WellFormed() && n <= |c.gates|
    requires |src| == c.wireSize && forall i :: 0 <= i < c.wireSize ==> |src[i]| == c.wireSize
  {
    |data| == |c.IndependentWires()| &&
    forall i :: 0 <= i < |data| ==> CheckEntry(c, src, data[i], c.IndependentWires()[i], n)
  }

  /** The map of wire w lists exactly the AND gates (among the first n) it is a source of. */
  ghost predicate CheckEntry(c: Circuit, src: seq<seq<bool>>, entry: map<nat, (bool, bool)>, w: Wire, n: nat)
    requires c.WellFormed() && n <= |c.gates| && w < c.wireSize
    requires |src| == c.wireSize && forall i :: 0 <= i < c.wireSize ==> |src[i]| == c.wireSize
  {
    && (forall k :: k in entry ==> k < n && c.gates[k].AndGate? && entry[k] == Connected(c, src, w, k) &&
                                   entry[k] != (false, false))
    && (forall k :: 0 <= k < n && c.gates[k].AndGate? && k !in entry ==> Connected(c, src, w, k) == (false, false))
  }

  /** Marks gate k in the maps of all sources of one of its inputs. */
  method MarkSources(c: Circuit, t: Order, mat: Matrix, ghost src: seq<seq<bool>>, ghost flip: seq<bool>,
                     data: GcCheckData, k: nat, second: bool, wire: Wire) returns (data': GcCheckData)
    requires c.WellFormed() && OrderFor(c, t) && SourcesFor(c, src, flip) && RowsOf(mat, src)
    requires wire < c.wireSize && |data| == |c.IndependentWires()|
    ensures |data'| == |data|
    ensures forall i :: 0 <= i < |data| ==>
              var w := c.IndependentWires()[i];
              data'[i] == if src[wire][w] then data[i][k := Marked(data[i], k, second)] else data[i]
  {
    hide SourceGate, OrderGate, IndependentIndexMap, SetColumns, Circuit.IndependentWires;
    data' := data;
    var cols := SourceColumns(c, mat, src, flip, wire);
    SetColumnsMeaning(src[wire], c.wireSize);
    IndexMapBijection(c, t);
    for p := 0 to |cols|
      invariant |data'| == |data|
      invariant forall i :: 0 <= i < |data| ==>
                  data'[i] ==
                  if c.IndependentWires()[i] in cols[..p] then data[i][k := Marked(data[i], k, second)] else data[i]
    {
      var independentIndex := IndependentIndexMap(c, t, cols[p]);
      assert cols[..p + 1] == cols[..p] + [cols[p]];
      var entry: map<nat, (bool, bool)> := data'[independentIndex];
      entry := entry[k := Marked(entry, k, second)];
      data' := data'[independentIndex := entry];
    }
    assert cols[..|cols|] == cols;
  }

  /** The first pass overwrites the entry, the second inserts if absent and sets bit 1. */
  function Marked(entry: map<nat, (bool, bool)>, k: nat, second: bool): (bool, bool) {
    if !second then (true, false)
    else ((if k in entry then entry[k].0 else false), true)
  }

  method InitGcCheckData(c: Circuit, t: Order, m: XORSourceMatrix) returns (data: GcCheckData)
    requires c.WellFormed() && OrderFor(c, t) && m.Valid() && m.mat.rowSize == c.wireSize
    requires SourcesFor(c, m.Rows(), m.flip)
    ensures GcCheckDataFor(c, m.Rows(), data, |c.gates|)
  {
    data := seq(c.TotalInputSize() + c.AndGateSize(), _ => map[]);
    for gateIter := 0 to |c.gates|
      invariant GcCheckDataFor(c, m.Rows(), data, gateIter)
    {
      var g := c.gates[gateIter];
      ghost var before := data;
      if g.AndGate? {
        assert c.Available(gateIter, g.in0) && c.Available(gateIter, g.in1);
        data := MarkSources(c, t, m.mat, m.Rows(), m.flip, data, gateIter, false, g.in0);
        data := MarkSources(c, t, m.mat, m.Rows(), m.flip, data, gateIter, true, g.in1);
      }
      forall i | 0 <= i < |data| ensures CheckEntry(c, m.Rows(), data[i], c.IndependentWires()[i], gateIter + 1) {
        EntryStep(c, m.Rows(), before[i], data[i], c.IndependentWires()[i], gateIter);
      }
    }
  }

  lemma EntryStep(c: Circuit, src: seq<seq<bool>>, e: map<nat, (bool, bool)>, e': map<nat, (bool, bool)>, w: Wire,
                  k: nat)
    requires c.WellFormed() && k < |c.gates| && w < c.wireSize
    requires |src| == c.wireSize && forall i :: 0 <= i < c.wireSize ==> |src[i]| == c.wireSize
    requires CheckEntry(c, src, e, w, k)
    requires !c.gates[k].AndGate? ==> e' == e
    requires c.gates[k].AndGate? ==>
               var (in0, in1) := Connected(c, src, w, k);
               var mid: map<nat, (bool, bool)> := if in0 then e[k := Marked(e, k, false)] else e;
               e' == if in1 then mid[k := Marked(mid, k, true)] else mid
    ensures CheckEntry(c, src, e', w, k + 1)
  {
    hide Connected, Circuit.WellFormed;
    assert k !in e;
  }
}
