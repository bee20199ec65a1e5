/** Which circuits can lose a Beaver triple, and that no others can. */
module SpoiledTriples {
  import opened Blocks
  import opened Sums
  import opened Matrices
  import opened MatrixProducts
  import opened Circuits
  import opened XorSources
  import opened Populate
  import opened KeySampling
  import opened Simulation
  import opened Preprocessing

  // ---------------------------------------------------------------- shares as XORs of their sources

  /** Every wire's MAC, or key, is the XOR of its sources' MACs: the flip bit plays no part. */
  lemma SharesFromSources(c: Circuit, src: seq<seq<bool>>, flip: seq<bool>, source: seq<Block>, wires: seq<Block>)
    requires c.WellFormed() && SourcesFor(c, src, flip) && BlocksFrom(c, source, wires)
    ensures forall w :: 0 <= w < c.wireSize ==> wires[w] == Dot(src[w], wires, c.wireSize)
  {
    hide Dot;
    forall k | 0 <= k < |c.gates| ensures LinearGate(c, wires, Zero(), k) {
      assert BlockGate(c, source, wires, k);
      var g := c.gates[k];
      assert c.Available(k, g.in0);
      XorZero(wires[g.in0]);
    }
    SourceMeaning(c, src, flip, wires, Zero(), |c.gates|);
    forall w | 0 <= w < c.wireSize ensures wires[w] == Dot(src[w], wires, c.wireSize) {
      assert Means(c, src, flip, wires, Zero(), w);
      XorZero(Dot(src[w], wires, c.wireSize));
    }
  }

  /** Every wire's mask share is the parity of its sources' shares. */
  lemma MasksFromSources(c: Circuit, src: seq<seq<bool>>, flip: seq<bool>, bits: seq<bool>)
    requires c.WellFormed() && SourcesFor(c, src, flip) && |bits| == c.wireSize && MasksLinear(c, bits)
    ensures forall w :: 0 <= w < c.wireSize ==> bits[w] == Parity(src[w], bits, c.wireSize)
  {
    hide Dot, Parity, SourceGate, MaskGate, LinearGate;
    var u := ScaledMasks(c, bits, One());
    SourceMeaning(c, src, flip, u, Zero(), |c.gates|);
    forall w | 0 <= w < c.wireSize ensures bits[w] == Parity(src[w], bits, c.wireSize) {
      assert Means(c, src, flip, u, Zero(), w);
      DotOfScaled(src[w], bits, One(), u, c.wireSize);
      ScaledOnes(flip[w], bits[w], Parity(src[w], bits, c.wireSize));
    }
  }

  lemma ScaledOnes(f: bool, s: bool, t: bool)
    requires Scale(s, One()) == Xor(Scale(f, Zero()), Scale(t, One()))
    ensures s == t
  {
    assert Scale(s, One())[0] == Xor(Scale(f, Zero()), Scale(t, One()))[0];
  }

  lemma {:induction false} EmptyParity(row: seq<bool>, bits: seq<bool>, n: nat)
    requires n <= |row| && n <= |bits| && forall i :: 0 <= i < n ==> !row[i] || !bits[i]
    ensures !Parity(row, bits, n)
  {
    if n > 0 { EmptyParity(row, bits, n - 1); }
  }

  // ---------------------------------------------------------------- the condition on the circuit

  predicate HasSource(row: seq<bool>) {
    exists i :: 0 <= i < |row| && row[i]
  }

  /** An AND gate that a later one repeats, with a source on both inputs. */
  ghost predicate Exposed(c: Circuit, src: seq<seq<bool>>, i: nat)
    requires c.WellFormed() && |src| == c.wireSize && i < c.AndGateSize()
  {
    HasLaterTwin(c, i, c.AndGateSize()) && HasSource(src[In0(c, i)]) && HasSource(src[In1(c, i)])
  }

  /** No AND gate is exposed: what a caller can check on the gate list and the source rows. */
  ghost predicate SafePairs(c: Circuit)
    requires c.WellFormed()
  {
    forall src, flip, i :: SourcesFor(c, src, flip) && 0 <= i < c.AndGateSize() ==> !Exposed(c, src, i)
  }

  /** A circuit in which no two AND gates read the same ordered pair. */
  ghost predicate DistinctPairs(c: Circuit)
    requires c.WellFormed()
  {
    forall i, j :: 0 <= i < j < c.AndGateSize() ==> !Twins(c, i, j)
  }

  lemma DistinctPairsSafe(c: Circuit)
    requires c.WellFormed() && DistinctPairs(c)
    ensures SafePairs(c)
  {
    hide Twins, SourcesFor;
  }

  /** Mask shares that a run can come to hold, for some draw of its random bits. */
  ghost predicate Drawable(c: Circuit, matrix: Matrix, a: seq<bool>, b: seq<bool>)
    requires c.WellFormed() && matrix.Valid() && matrix.rowSize == c.inputSize1 + c.AndGateSize()
  {
    exists aBits, bStar ::
      && |bStar| == matrix.colSize && BitsFrom(c, aBits, a)
      && BitsFrom(c, PaddedBits(c.inputSize0, BitProduct(matrix, bStar)), b)
  }

  ghost predicate Spoilable(c: Circuit, matrix: Matrix, i: nat)
    requires c.WellFormed() && matrix.Valid() && matrix.rowSize == c.inputSize1 + c.AndGateSize() && i < c.AndGateSize()
  {
    exists a, b :: Drawable(c, matrix, a, b) && |a| == |b| == c.wireSize && TripleSpoiled(c, a, b, i)
  }

  /** A wire without sources carries no mask, so a product over it is zero on both sides. */
  lemma NoProductUnlessExposed(c: Circuit, src: seq<seq<bool>>, flip: seq<bool>, masks: seq<bool>, i: nat)
    requires c.WellFormed() && SourcesFor(c, src, flip) && |masks| == c.wireSize && MasksLinear(c, masks)
    requires i < c.AndGateSize() && HasLaterTwin(c, i, c.AndGateSize()) && !Exposed(c, src, i)
    ensures !Product(c, masks, i)
  {
    hide HasLaterTwin, MasksLinear, SourcesFor, Parity;
    RowSizes(c, src, flip);
    MasksFromSources(c, src, flip, masks);
    var w := if HasSource(src[In0(c, i)]) then In1(c, i) else In0(c, i);
    EmptyParity(src[w], masks, c.wireSize);
  }

  lemma RowSizes(c: Circuit, src: seq<seq<bool>>, flip: seq<bool>)
    requires c.WellFormed() && SourcesFor(c, src, flip)
    ensures |src| == c.wireSize && forall w :: 0 <= w < c.wireSize ==> |src[w]| == c.wireSize
  {
  }

  /** Masks that pick out one or two independent wires. */
  function Picked(src: seq<seq<bool>>, w0: Wire, w1: Wire): (r: seq<bool>)
    requires forall w :: 0 <= w < |src| ==> w0 < |src[w]| && w1 < |src[w]|
    ensures |r| == |src|
    ensures forall w :: 0 <= w < |r| ==> r[w] == if w0 == w1 then src[w][w0] else src[w][w0] != src[w][w1]
  {
    seq(|src|, w requires 0 <= w < |src| => if w0 == w1 then src[w][w0] else src[w][w0] != src[w][w1])
  }

  /** Two wires with sources have masks that are one on both. */
  lemma BothOne(src: seq<seq<bool>>, x: Wire, y: Wire) returns (w0: Wire, w1: Wire)
    requires x < |src| && y < |src| && HasSource(src[x]) && HasSource(src[y])
    requires forall w :: 0 <= w < |src| ==> |src[w]| == |src|
    ensures w0 < |src| && w1 < |src| && Picked(src, w0, w1)[x] && Picked(src, w0, w1)[y]
  {
    if i :| 0 <= i < |src| && src[x][i] && src[y][i] {
      w0, w1 := i, i;
    } else {
      w0 :| 0 <= w0 < |src| && src[x][w0];
      w1 :| 0 <= w1 < |src| && src[y][w1];
    }
  }

  /** Such masks can be drawn: they are grown from their own values on the independent wires. */
  lemma PickedDrawable(c: Circuit, src: seq<seq<bool>>, flip: seq<bool>, w0: Wire, w1: Wire)
    requires c.WellFormed() && SourcesFor(c, src, flip) && w0 < c.wireSize && w1 < c.wireSize
    ensures var a := Picked(src, w0, w1);
            var drawn := seq(|c.IndependentWires()|,
                             i requires 0 <= i < |c.IndependentWires()| => a[c.IndependentWires()[i]]);
            BitsFrom(c, drawn, a)
  {
    hide Circuit.IndependentWires, Picked, BitGate, SourceGate;
    var a := Picked(src, w0, w1);
    var drawn := seq(|c.IndependentWires()|, i requires 0 <= i < |c.IndependentWires()| => a[c.IndependentWires()[i]]);
    forall w | 0 <= w < c.TotalInputSize() ensures a[w] == drawn[w] {
      c.WireAt(w);
    }
    forall k | 0 <= k < |c.gates| ensures BitGate(c, drawn, a, k) {
      PickedGate(c, src, flip, a, drawn, w0, w1, k);
    }
  }

  lemma PickedGate(c: Circuit, src: seq<seq<bool>>, flip: seq<bool>, a: seq<bool>, drawn: seq<bool>, w0: Wire, w1: Wire,
                   k: nat)
    requires c.WellFormed() && SourcesFor(c, src, flip) && w0 < c.wireSize && w1 < c.wireSize && k < |c.gates|
    requires a == Picked(src, w0, w1) && |drawn| == |c.IndependentWires()|
    requires forall i :: 0 <= i < |drawn| ==> drawn[i] == a[c.IndependentWires()[i]]
    ensures BitGate(c, drawn, a, k)
  {
    hide Circuit.IndependentWires, Picked, Circuit.AndGates;
    assert SourceGate(c, src, flip, k);
    var g := c.gates[k];
    assert c.Available(k, g.in0) && (g.NotGate? || c.Available(k, g.in1));
    if g.AndGate? {
      c.AndPosition(k);
      c.WireAt(c.TotalInputSize() + c.AndCount(k));
    }
  }

  /** The evaluator's shares are all zero when its compressed bits are. */
  lemma ZerosDrawable(c: Circuit, matrix: Matrix, zeros: seq<bool>, b: seq<bool>)
    requires c.WellFormed() && matrix.Valid() && matrix.rowSize == c.inputSize1 + c.AndGateSize()
    requires |zeros| == matrix.colSize && forall i :: 0 <= i < |zeros| ==> !zeros[i]
    requires |b| == c.wireSize && forall w :: 0 <= w < |b| ==> !b[w]
    ensures BitsFrom(c, PaddedBits(c.inputSize0, BitProduct(matrix, zeros)), b)
  {
    hide Parity;
    forall r | 0 <= r < matrix.rowSize ensures !BitProduct(matrix, zeros)[r] {
      EmptyParity(matrix.Row(r), zeros, matrix.colSize);
    }
    var source := PaddedBits(c.inputSize0, BitProduct(matrix, zeros));
    forall k | 0 <= k < |c.gates| ensures BitGate(c, source, b, k) {
      var g := c.gates[k];
      assert c.Available(k, g.in0) && (g.NotGate? || c.Available(k, g.in1));
      if g.AndGate? { c.AndPosition(k); }
    }
  }

  lemma ExposedSpoilable(c: Circuit, src: seq<seq<bool>>, flip: seq<bool>, matrix: Matrix, i: nat)
    requires c.WellFormed() && SourcesFor(c, src, flip) && i < c.AndGateSize() && Exposed(c, src, i)
    requires matrix.Valid() && matrix.rowSize == c.inputSize1 + c.AndGateSize()
    ensures Spoilable(c, matrix, i)
  {
    hide HasLaterTwin, SourcesFor, Picked, HasSource, BitsFrom, PaddedBits, BitProduct, Circuit.IndependentWires;
    RowSizes(c, src, flip);
    var w0, w1 := BothOne(src, In0(c, i), In1(c, i));
    var a := Picked(src, w0, w1);
    PickedDrawable(c, src, flip, w0, w1);
    var zeros, b := seq(matrix.colSize, _ => false), seq(c.wireSize, _ => false);
    ZerosDrawable(c, matrix, zeros, b);
    assert Drawable(c, matrix, a, b);
    assert TripleSpoiled(c, a, b, i);
  }

  /** Whatever the compression matrix, some draw spoils the triple of gate i exactly when a later gate
      repeats its ordered pair and both its inputs have a source. */
  lemma SpoilableExactly(c: Circuit, src: seq<seq<bool>>, flip: seq<bool>, matrix: Matrix, i: nat)
    requires c.WellFormed() && SourcesFor(c, src, flip) && i < c.AndGateSize()
    requires matrix.Valid() && matrix.rowSize == c.inputSize1 + c.AndGateSize()
    ensures Spoilable(c, matrix, i) <==> Exposed(c, src, i)
  {
    hide HasLaterTwin, HasSource, SourcesFor, BitsFrom, BitProduct, PaddedBits, Product, Exposed;
    RowSizes(c, src, flip);
    if Exposed(c, src, i) {
      ExposedSpoilable(c, src, flip, matrix, i);
    } else if Spoilable(c, matrix, i) {
      var a, b :| Drawable(c, matrix, a, b) && |a| == |b| == c.wireSize && TripleSpoiled(c, a, b, i);
      var aBits, bStar :| && |bStar| == matrix.colSize && BitsFrom(c, aBits, a)
                          && BitsFrom(c, PaddedBits(c.inputSize0, BitProduct(matrix, bStar)), b);
      LinearFromSource(c, aBits, a);
      LinearFromSource(c, PaddedBits(c.inputSize0, BitProduct(matrix, bStar)), b);
      NoProductUnlessExposed(c, src, flip, a, i);
      NoProductUnlessExposed(c, src, flip, b, i);
    }
  }

  /** The condition on the circuit is exact: it holds if and only if no draw can spoil any triple. */
  lemma SafeExactly(c: Circuit, src: seq<seq<bool>>, flip: seq<bool>, matrix: Matrix)
    requires c.WellFormed() && SourcesFor(c, src, flip)
    requires matrix.Valid() && matrix.rowSize == c.inputSize1 + c.AndGateSize()
    ensures SafePairs(c) <==> forall i :: 0 <= i < c.AndGateSize() ==> !Spoilable(c, matrix, i)
  {
    hide Spoilable, Exposed, SourceGate, IsUnit;
    if SafePairs(c) {
      forall i | 0 <= i < c.AndGateSize() ensures !Spoilable(c, matrix, i) {
        SpoilableExactly(c, src, flip, matrix, i);
        assert !Exposed(c, src, i);
      }
    } else {
      var rows, flips, i :| SourcesFor(c, rows, flips) && 0 <= i < c.AndGateSize() && Exposed(c, rows, i);
      SpoilableExactly(c, rows, flips, matrix, i);
    }
  }

  // ---------------------------------------------------------------- what a run leaves

  /** A run's preprocessing is complete exactly when no gate was spoiled. */
  lemma HoldsExactly(c: Circuit, keys: GlobalKeys, r: Preprocessed)
    requires c.WellFormed() && r.Correct(c, keys)
    ensures PreprocessingHolds(c, r.garbler, r.evaluator, keys.deltaA, keys.deltaB) <==>
            (forall i :: 0 <= i < c.AndGateSize() ==>
               !TripleSpoiled(c, r.garbler.masks.bits, r.evaluator.masks.bits, i))
  {
    hide Mul, Twins, Product, AndedBits, TripleHolds;
    var a, b := r.garbler.masks.bits, r.evaluator.masks.bits;
    if PreprocessingHolds(c, r.garbler, r.evaluator, keys.deltaA, keys.deltaB) {
      forall i | 0 <= i < c.AndGateSize() ensures !TripleSpoiled(c, a, b, i) {
        c.AndPositionInverse(i);
        assert TripleHolds(c, r.garbler, r.evaluator, c.AndGates(|c.gates|)[i]);
      }
    }
  }

  /** On a circuit without exposed gates nothing is ever lost: no product, no triple. */
  lemma SafeRun(c: Circuit, src: seq<seq<bool>>, flip: seq<bool>, keys: GlobalKeys, r: Preprocessed)
    requires c.WellFormed() && SafePairs(c) && SourcesFor(c, src, flip) && r.Correct(c, keys)
    ensures PreprocessingHolds(c, r.garbler, r.evaluator, keys.deltaA, keys.deltaB)
    ensures forall i, j :: 0 <= i < j < c.AndGateSize() && Twins(c, i, j) ==>
              !Product(c, r.garbler.masks.bits, i) && !Product(c, r.evaluator.masks.bits, i)
  {
    hide Mul, Twins, Product, AndedBits, TripleHolds, SourcesFor, MasksLinear, Exposed;
    RowSizes(c, src, flip);
    var a, b := r.garbler.masks.bits, r.evaluator.masks.bits;
    forall i | 0 <= i < c.AndGateSize() && HasLaterTwin(c, i, c.AndGateSize())
      ensures !Product(c, a, i) && !Product(c, b, i)
    {
      NoProductUnlessExposed(c, src, flip, a, i);
      NoProductUnlessExposed(c, src, flip, b, i);
    }
    HoldsExactly(c, keys, r);
  }

  /** The smallest failing circuit: two AND gates on the same inputs.  When the garbler's shares of both
      inputs are one, the first gate's product is lost and its triple is wrong. */
  lemma RepeatedPairFailsTriple(keys: GlobalKeys, r: Preprocessed)
    requires var c := Circuit(1, 1, 1, 4, [AndGate(0, 1, 2), AndGate(0, 1, 3)]);
             c.WellFormed() && r.Correct(c, keys) && r.garbler.masks.bits[0] && r.garbler.masks.bits[1]
    ensures var c := Circuit(1, 1, 1, 4, [AndGate(0, 1, 2), AndGate(0, 1, 3)]);
            && !r.andedG.bits[0] && r.andedG.bits[1]
            && !TripleHolds(c, r.garbler, r.evaluator, 0)
            && !PreprocessingHolds(c, r.garbler, r.evaluator, keys.deltaA, keys.deltaB)
  {
    hide Mul, TripleHolds, MasksLinear;
    var c := Circuit(1, 1, 1, 4, [AndGate(0, 1, 2), AndGate(0, 1, 3)]);
    assert c.AndGates(0) == [] && c.AndGates(1) == [0] && c.AndGates(2) == [0, 1];
    assert c.AndAt(0) == AndGate(0, 1, 2) && c.AndAt(1) == AndGate(0, 1, 3);
    assert Twins(c, 0, 1) && HasLaterTwin(c, 0, 2) && !HasLaterTwin(c, 1, 2);
    assert Product(c, r.garbler.masks.bits, 0) && Product(c, r.garbler.masks.bits, 1);
    assert !Product(c, r.evaluator.masks.bits, 0);
    assert TripleSpoiled(c, r.garbler.masks.bits, r.evaluator.masks.bits, 0);
  }
}
