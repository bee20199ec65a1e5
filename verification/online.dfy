/** The online phase: masked inputs, labels by oblivious transfer, evaluation, and unmasked outputs. */
module Online {
  import opened Blocks
  import opened Words
  import opened Circuits
  import opened Authenticated
  import opened Garbling
  import opened Simulation

  // ---------------------------------------------------------------- the garbler's messages

  /** The label of each of the first wires' masked values. */
  ghost predicate LabelsOf(gc: GarbledCircuit, start: Wire, values: seq<bool>, labels: seq<Block>)
    requires start + |values| <= |gc.label0| == |gc.label1|
  {
    && |labels| == |values|
    && forall i :: 0 <= i < |values| ==> labels[i] == if values[i] then gc.label1[start + i] else gc.label0[start + i]
  }

  method MaskInputs(c: Circuit, wireMasks: PreprocessedData, input: seq<bool>) returns (maskedValues: seq<bool>)
    requires c.WellFormed() && wireMasks.Shaped(c) && |input| == c.inputSize0
    ensures maskedValues == BitXor(input, wireMasks.masks.bits[..c.inputSize0])
  {
    maskedValues := [];
    for w := 0 to c.inputSize0
      invariant |maskedValues| == w
      invariant forall i :: 0 <= i < w ==> maskedValues[i] == (input[i] != wireMasks.masks.bits[i])
    {
      maskedValues := maskedValues + [input[w] != wireMasks.masks.bits[w]];
    }
  }

  method SelectLabels(gc: GarbledCircuit, maskedValues: seq<bool>) returns (labels: seq<Block>)
    requires |maskedValues| <= |gc.label0| == |gc.label1|
    ensures LabelsOf(gc, 0, maskedValues, labels)
  {
    labels := [];
    for w := 0 to |maskedValues|
      invariant |labels| == w
      invariant forall i :: 0 <= i < w ==> labels[i] == if maskedValues[i] then gc.label1[i] else gc.label0[i]
    {
      labels := labels + [if maskedValues[w] then gc.label1[w] else gc.label0[w]];
    }
  }

  /** Masked values of its own inputs, packed, and the matching labels. */
  method GarblerInputs(c: Circuit, gc: GarbledCircuit, wireMasks: PreprocessedData, input: seq<bool>)
    returns (rawMaskedValues: seq<Word>, garblerInputLabels: seq<Block>)
    requires c.WellFormed() && wireMasks.Shaped(c) && |gc.label0| == |gc.label1| == c.wireSize
    requires |input| == c.inputSize0
    ensures var masked := BitXor(input, wireMasks.masks.bits[..c.inputSize0]);
            && rawMaskedValues == Packed(masked) && Resized(Unpacked(rawMaskedValues), c.inputSize0) == masked
            && LabelsOf(gc, 0, masked, garblerInputLabels)
  {
    var maskedValues := MaskInputs(c, wireMasks, input);
    rawMaskedValues := Packed(maskedValues);
    PackUnpack(maskedValues);
    garblerInputLabels := SelectLabels(gc, maskedValues);
  }

  ghost predicate PairsFor(c: Circuit, gc: GarbledCircuit, pg: PreprocessedData, pair0: seq<Block>, pair1: seq<Block>)
    requires c.WellFormed() && pg.Shaped(c) && |gc.label0| == |gc.label1| == c.wireSize
  {
    && |pair0| == |pair1| == c.inputSize1
    && forall i :: 0 <= i < c.inputSize1 ==>
         var wire := c.inputSize0 + i; var share := pg.masks.bits[wire];
         && pair0[i] == (if share then gc.label1[wire] else gc.label0[wire])
         && pair1[i] == (if share then gc.label0[wire] else gc.label1[wire])
  }

  /** Both labels of each evaluator input, swapped where the garbler's mask share is one. */
  method GarblerPairs(c: Circuit, gc: GarbledCircuit, wireMasks: PreprocessedData)
    returns (evaluatorLabel0: seq<Block>, evaluatorLabel1: seq<Block>)
    requires c.WellFormed() && wireMasks.Shaped(c) && |gc.label0| == |gc.label1| == c.wireSize
    ensures PairsFor(c, gc, wireMasks, evaluatorLabel0, evaluatorLabel1)
  {
    evaluatorLabel0, evaluatorLabel1 := [], [];
    for i := 0 to c.inputSize1
      invariant |evaluatorLabel0| == |evaluatorLabel1| == i
      invariant forall j :: 0 <= j < i ==>
                  var wire := c.inputSize0 + j; var share := wireMasks.masks.bits[wire];
                  && evaluatorLabel0[j] == (if share then gc.label1[wire] else gc.label0[wire])
                  && evaluatorLabel1[j] == (if share then gc.label0[wire] else gc.label1[wire])
    {
      var wire := c.inputSize0 + i;
      var garblerMaskShare := wireMasks.masks.bits[wire];
      var labelZero, labelOne := gc.label0[wire], gc.label1[wire];
      if garblerMaskShare {
        evaluatorLabel0, evaluatorLabel1 := evaluatorLabel0 + [labelOne], evaluatorLabel1 + [labelZero];
      } else {
        evaluatorLabel0, evaluatorLabel1 := evaluatorLabel0 + [labelZero], evaluatorLabel1 + [labelOne];
      }
    }
  }

  method GarblerOutputMasks(c: Circuit, wireMasks: PreprocessedData) returns (rawOutputMasks: seq<Word>)
    requires c.WellFormed() && wireMasks.Shaped(c)
    ensures rawOutputMasks == Packed(wireMasks.masks.bits[c.wireSize - c.outputSize..])
    ensures Resized(Unpacked(rawOutputMasks), c.outputSize) == wireMasks.masks.bits[c.wireSize - c.outputSize..]
  {
    var outputMasks: seq<bool> := [];
    for i := 0 to c.outputSize
      invariant outputMasks == wireMasks.masks.bits[c.wireSize - c.outputSize..c.wireSize - c.outputSize + i]
    {
      outputMasks := outputMasks + [wireMasks.masks.bits[c.wireSize - c.outputSize + i]];
    }
    rawOutputMasks := Packed(outputMasks);
    PackUnpack(outputMasks);
    assert outputMasks == wireMasks.masks.bits[c.wireSize - c.outputSize..];
  }

  // ---------------------------------------------------------------- the evaluator's steps

  method EvaluatorChoices(c: Circuit, wireMasks: PreprocessedData, input: seq<bool>) returns (choices: seq<bool>)
    requires c.WellFormed() && wireMasks.Shaped(c) && |input| == c.inputSize1
    ensures |choices| == c.inputSize1
    ensures forall i :: 0 <= i < c.inputSize1 ==> choices[i] == (input[i] != wireMasks.masks.bits[c.inputSize0 + i])
  {
    choices := [];
    for i := 0 to c.inputSize1
      invariant |choices| == i
      invariant forall j :: 0 <= j < i ==> choices[j] == (input[j] != wireMasks.masks.bits[c.inputSize0 + j])
    {
      choices := choices + [input[i] != wireMasks.masks.bits[c.inputSize0 + i]];
    }
  }

  /** Removes both mask shares from the last wires. */
  method EvaluatorOutput(c: Circuit, wireMasks: PreprocessedData, maskedValues: seq<bool>, outputMasks: seq<bool>)
    returns (output: seq<bool>)
    requires c.WellFormed() && wireMasks.Shaped(c) && |maskedValues| == c.wireSize && |outputMasks| == c.outputSize
    ensures |output| == c.outputSize
    ensures forall i :: 0 <= i < c.outputSize ==>
              var w := c.wireSize - c.outputSize + i;
              output[i] == ((maskedValues[w] != outputMasks[i]) != wireMasks.masks.bits[w])
  {
    output := [];
    for i := 0 to c.outputSize
      invariant |output| == i
      invariant forall j :: 0 <= j < i ==>
                  var w := c.wireSize - c.outputSize + j;
                  output[j] == ((maskedValues[w] != outputMasks[j]) != wireMasks.masks.bits[w])
    {
      var w := c.wireSize - c.outputSize + i;
      output := output + [(maskedValues[w] != outputMasks[i]) != wireMasks.masks.bits[w]];
    }
  }

  // ---------------------------------------------------------------- why it works

  /** The evaluator has no mask on the garbler's inputs. */
  ghost predicate NoMaskOnGarblerInputs(c: Circuit, pe: PreprocessedData)
    requires pe.Shaped(c) && c.WellFormed()
  {
    forall w :: 0 <= w < c.inputSize0 ==> !pe.masks.bits[w]
  }

  /** Input wires: the labels held are those of the masked values, and the masked values hide the inputs. */
  ghost predicate InputsMasked(c: Circuit, pg: PreprocessedData, pe: PreprocessedData, gc: GarbledCircuit,
                               input: seq<bool>, inputLabels: seq<Block>, inputMaskedValues: seq<bool>)
    requires c.WellFormed() && pg.Shaped(c) && pe.Shaped(c) && |gc.label0| == |gc.label1| == c.wireSize
    requires |input| == |inputLabels| == |inputMaskedValues| == c.TotalInputSize()
  {
    forall w :: 0 <= w < c.TotalInputSize() ==>
      && inputMaskedValues[w] == (input[w] != (pg.masks.bits[w] != pe.masks.bits[w]))
      && inputLabels[w] == if inputMaskedValues[w] then gc.label1[w] else gc.label0[w]
  }

  /** A swapped pair delivers the label of choice ^ share, which is the label of the masked value. */
  lemma PairDelivers(label0: Block, label1: Block, share: bool, choice: bool, pair0: Block, pair1: Block)
    requires pair0 == (if share then label1 else label0) && pair1 == (if share then label0 else label1)
    ensures (if choice then pair1 else pair0) == if choice != share then label1 else label0
  {
  }

  /** Masked values of both parties' inputs, side by side. */
  lemma InputsJoin(c: Circuit, pg: PreprocessedData, pe: PreprocessedData, gc: GarbledCircuit, input0: seq<bool>,
                   input1: seq<bool>, values0: seq<bool>, labels0: seq<Block>, values1: seq<bool>, labels1: seq<Block>)
    requires c.WellFormed() && pg.Shaped(c) && pe.Shaped(c) && NoMaskOnGarblerInputs(c, pe)
    requires |gc.label0| == |gc.label1| == c.wireSize && |input0| == c.inputSize0
    requires |input1| == |values1| == c.inputSize1
    requires values0 == BitXor(input0, pg.masks.bits[..c.inputSize0])
    requires forall i :: 0 <= i < c.inputSize1 ==>
               var w := c.inputSize0 + i; values1[i] == (input1[i] != (pg.masks.bits[w] != pe.masks.bits[w]))
    requires LabelsOf(gc, 0, values0, labels0) && LabelsOf(gc, c.inputSize0, values1, labels1)
    ensures InputsMasked(c, pg, pe, gc, input0 + input1, labels0 + labels1, values0 + values1)
  {
    forall w | 0 <= w < c.TotalInputSize()
      ensures (values0 + values1)[w] == ((input0 + input1)[w] != (pg.masks.bits[w] != pe.masks.bits[w]))
      ensures (labels0 + labels1)[w] == if (values0 + values1)[w] then gc.label1[w] else gc.label0[w]
    {
      if w >= c.inputSize0 {
        var i := w - c.inputSize0;
        assert values1[i] == (input1[i] != (pg.masks.bits[c.inputSize0 + i] != pe.masks.bits[c.inputSize0 + i]));
      }
    }
  }

  /** The whole composition: whatever inputs, masks, keys, labels and hash, the unmasked output of
      the evaluation is the plain evaluation of the circuit. */
  lemma OnlineCorrect(c: Circuit, h: LabelHash, pg: PreprocessedData, pe: PreprocessedData, deltaA: Block,
                      deltaB: Block, gc: GarbledCircuit, inputLabel0: seq<Block>, input: seq<bool>,
                      inputLabels: seq<Block>, inputMaskedValues: seq<bool>, r: EvaluateResult)
    requires c.WellFormed() && PreprocessingHolds(c, pg, pe, deltaA, deltaB) && Lsb(deltaA)
    requires |input| == |inputLabel0| == |inputLabels| == |inputMaskedValues| == c.TotalInputSize()
    requires Garbled(c, h, pg, inputLabel0, gc)
    requires Evaluated(c, h, pe, gc.garbledTables, gc.wireMaskShift, inputLabels, inputMaskedValues, r)
    requires InputsMasked(c, pg, pe, gc, input, inputLabels, inputMaskedValues)
    ensures FollowsGates(c, Unmasked(r, pg, pe))
    ensures Eval(c, input) == Unmasked(r, pg, pe)[c.wireSize - c.outputSize..]
    ensures forall w :: 0 <= w < c.wireSize ==> InStep(gc, r, deltaA, w)
  {
    hide GarbledGate, EvaluatedGate, TripleHolds, MasksLinear, GateHolds;
    forall w | 0 <= w < c.TotalInputSize()
      ensures inputLabels[w] == Xor(inputLabel0[w], Scale(inputMaskedValues[w], deltaA))
    {
      XorZero(inputLabel0[w]);
    }
    StaysInStep(c, h, pg, pe, deltaA, deltaB, gc, inputLabel0, r, inputLabels, inputMaskedValues, |c.gates|);
    var v := Unmasked(r, pg, pe);
    assert v[..c.TotalInputSize()] == input;
    EvalOutput(c, input, v);
  }

  /** Authenticated under a single key, in the flattened layout. */
  lemma SingleKeyLayout(b: ITMacBits, k: ITMacBitKeys, delta: Block)
    requires Authed(b, k, delta)
    ensures BitsAuthed(b, k) && k.Size() == |b.bits|
  {
    assert |b.bits| * |k.globalKeys| == |b.bits|;
    forall g, i | 0 <= g < |k.globalKeys| && 0 <= i < |b.bits|
      ensures Flat(b.macs, |b.bits|, g, i) == Xor(Flat(k.localKeys, |b.bits|, g, i), Scale(b.bits[i], k.globalKeys[g]))
    {
      assert g == 0;
    }
  }

  method UnmaskChoices(choices: seq<bool>, garblerInput1Masks: seq<bool>) returns (values: seq<bool>)
    requires |choices| == |garblerInput1Masks|
    ensures values == BitXor(choices, garblerInput1Masks)
  {
    values := [];
    for i := 0 to |choices|
      invariant |values| == i && forall j :: 0 <= j < i ==> values[j] == (choices[j] != garblerInput1Masks[j])
    {
      values := values + [choices[i] != garblerInput1Masks[i]];
    }
  }

  lemma PairsDeliver(c: Circuit, gc: GarbledCircuit, pg: PreprocessedData, pair0: seq<Block>, pair1: seq<Block>,
                     choices: seq<bool>, shares: seq<bool>)
    requires c.WellFormed() && pg.Shaped(c) && |gc.label0| == |gc.label1| == c.wireSize
    requires |choices| == c.inputSize1 && shares == pg.masks.bits[c.inputSize0..c.TotalInputSize()]
    requires PairsFor(c, gc, pg, pair0, pair1)
    ensures |shares| == c.inputSize1
    ensures LabelsOf(gc, c.inputSize0, BitXor(choices, shares), Transferred(pair0, pair1, choices))
  {
    var values, labels := BitXor(choices, shares), Transferred(pair0, pair1, choices);
    forall i | 0 <= i < c.inputSize1
      ensures labels[i] == if values[i] then gc.label1[c.inputSize0 + i] else gc.label0[c.inputSize0 + i]
    {
      var wire := c.inputSize0 + i;
      PairDelivers(gc.label0[wire], gc.label1[wire], pg.masks.bits[wire], choices[i], pair0[i], pair1[i]);
    }
  }
}
