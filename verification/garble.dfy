/** Authenticated half-gates: garbling, evaluation, and why they stay in step. */
module Garbling {
  import opened Blocks
  import opened Circuits
  import opened Authenticated

  /** What preprocessing hands to each party. */
  datatype PreprocessedData = PreprocessedData(
    masks: ITMacBits, maskKeys: ITMacBitKeys,
    beaverTripleShares: ITMacBits, beaverTripleKeys: ITMacBitKeys)
  {
    /** One global key, one entry per wire and per AND gate. */
    ghost predicate Shaped(c: Circuit) {
      && |masks.bits| == |masks.macs| == |maskKeys.localKeys| == c.wireSize
      && |maskKeys.globalKeys| == |beaverTripleKeys.globalKeys| == 1
      && |beaverTripleShares.bits| == |beaverTripleShares.macs| == |beaverTripleKeys.localKeys| == c.AndGateSize()
    }
  }

  datatype GarbledCircuit = GarbledCircuit(
    label0: seq<Block>, label1: seq<Block>, garbledTables: seq<(Block, Block)>, wireMaskShift: seq<bool>)

  /** The wire-label hash, an arbitrary function of label, wire and padding tag. */
  type LabelHash = (Block, Wire, nat) -> Block

  // ---------------------------------------------------------------- garbling

  function TableEntry0(h: LabelHash, pre: PreprocessedData, l0: seq<Block>, l1: seq<Block>, c: Circuit, g: Gate): Block
    requires pre.Shaped(c) && |l0| == |l1| == c.wireSize && g.AndGate?
    requires g.in0 < c.wireSize && g.in1 < c.wireSize
  {
    Xor(Xor(pre.maskKeys.localKeys[g.in1], Scale(pre.masks.bits[g.in1], pre.maskKeys.globalKeys[0])),
        Xor(h(l0[g.in0], g.out, 0), h(l1[g.in0], g.out, 0)))
  }

  function TableEntry1(h: LabelHash, pre: PreprocessedData, l0: seq<Block>, l1: seq<Block>, c: Circuit, g: Gate): Block
    requires pre.Shaped(c) && |l0| == |l1| == c.wireSize && g.AndGate?
    requires g.in0 < c.wireSize && g.in1 < c.wireSize
  {
    Xor(Xor(l0[g.in0], Xor(pre.maskKeys.localKeys[g.in0], Scale(pre.masks.bits[g.in0], pre.maskKeys.globalKeys[0]))),
        Xor(h(l0[g.in1], g.out, 1), h(l1[g.in1], g.out, 1)))
  }

  function AndLabel0(h: LabelHash, pre: PreprocessedData, l0: seq<Block>, c: Circuit, g: Gate, i: nat): Block
    requires pre.Shaped(c) && |l0| == c.wireSize && g.AndGate? && i < c.AndGateSize()
    requires g.in0 < c.wireSize && g.in1 < c.wireSize && g.out < c.wireSize
  {
    Xor(Xor(h(l0[g.in0], g.out, 0), h(l0[g.in1], g.out, 1)),
        Xor(Scale(pre.masks.bits[g.out] != pre.beaverTripleShares.bits[i], pre.maskKeys.globalKeys[0]),
            Xor(pre.maskKeys.localKeys[g.out], pre.beaverTripleKeys.localKeys[i])))
  }

  /** Labels, table and shift bit of gate k are as garbling prescribes. */
  ghost predicate GarbledGate(c: Circuit, h: LabelHash, pre: PreprocessedData, gc: GarbledCircuit, k: nat)
    requires c.WellFormed() && pre.Shaped(c) && k < |c.gates|
    requires |gc.label0| == |gc.label1| == c.wireSize
  {
    var g := c.gates[k];
    var delta := pre.maskKeys.globalKeys[0];
    assert c.Available(k, g.in0) && (g.NotGate? || c.Available(k, g.in1));
    match g
    case NotGate(in0, out) =>
      gc.label0[out] == gc.label1[in0] && gc.label1[out] == gc.label0[in0]
    case XorGate(in0, in1, out) =>
      gc.label0[out] == Xor(gc.label0[in0], gc.label0[in1]) && gc.label1[out] == Xor(gc.label0[out], delta)
    case AndGate(in0, in1, out) =>
      var i := c.AndCount(k);
      c.AndPosition(k);
      && i < |gc.garbledTables| && i < |gc.wireMaskShift|
      && gc.garbledTables[i] == (TableEntry0(h, pre, gc.label0, gc.label1, c, g),
                                 TableEntry1(h, pre, gc.label0, gc.label1, c, g))
      && gc.label0[out] == AndLabel0(h, pre, gc.label0, c, g, i)
      && gc.label1[out] == Xor(gc.label0[out], delta)
      && gc.wireMaskShift[i] == Lsb(gc.label0[out])
  }

  /** A garbling of the whole circuit from the given input labels. */
  ghost predicate Garbled(c: Circuit, h: LabelHash, pre: PreprocessedData, input: seq<Block>, gc: GarbledCircuit)
    requires c.WellFormed() && pre.Shaped(c) && |input| == c.TotalInputSize()
  {
    && |gc.label0| == |gc.label1| == c.wireSize
    && |gc.garbledTables| == |gc.wireMaskShift| == c.AndGateSize()
    && (forall w :: 0 <= w < |input| ==>
          gc.label0[w] == input[w] && gc.label1[w] == Xor(input[w], pre.maskKeys.globalKeys[0]))
    && (forall k :: 0 <= k < |c.gates| ==> GarbledGate(c, h, pre, gc, k))
  }

  lemma GateWires(c: Circuit, k: nat)
    requires c.WellFormed() && k < |c.gates|
    ensures var g := c.gates[k];
            && g.in0 < c.wireSize && g.in0 != g.out && g.out < c.wireSize
            && (g.NotGate? || (g.in1 < c.wireSize && g.in1 != g.out))
  {
    var g := c.gates[k];
    assert c.Available(k, g.in0) && (g.NotGate? || c.Available(k, g.in1)) && !c.Available(k, g.out);
  }

  /** Later gates leave what an earlier gate wrote alone. */
  lemma GarbledGateKept(c: Circuit, h: LabelHash, pre: PreprocessedData, gc: GarbledCircuit, gc': GarbledCircuit,
                        j: nat, k: nat)
    requires c.WellFormed() && pre.Shaped(c) && j < k < |c.gates|
    requires |gc.label0| == |gc.label1| == |gc'.label0| == |gc'.label1| == c.wireSize
    requires forall w :: 0 <= w < c.wireSize && w != c.gates[k].out ==>
               gc'.label0[w] == gc.label0[w] && gc'.label1[w] == gc.label1[w]
    requires gc.garbledTables <= gc'.garbledTables && gc.wireMaskShift <= gc'.wireMaskShift
    requires GarbledGate(c, h, pre, gc, j)
    ensures GarbledGate(c, h, pre, gc', j)
  {
    assert c.Available(j, c.gates[j].in0) && (c.gates[j].NotGate? || c.Available(j, c.gates[j].in1));
    assert c.Available(k, c.gates[j].out) && !c.Available(k, c.gates[k].out);
  }

  /** The input labels are in place and the first n gates are garbled. */
  ghost predicate GarbledUpTo(c: Circuit, h: LabelHash, pre: PreprocessedData, input: seq<Block>, gc: GarbledCircuit,
                              n: nat)
    requires c.WellFormed() && pre.Shaped(c) && |input| == c.TotalInputSize() && n <= |c.gates|
  {
    && |gc.label0| == |gc.label1| == c.wireSize
    && |gc.garbledTables| == |gc.wireMaskShift| == c.AndCount(n)
    && (forall w :: 0 <= w < |input| ==>
          gc.label0[w] == input[w] && gc.label1[w] == Xor(input[w], pre.maskKeys.globalKeys[0]))
    && (forall k :: 0 <= k < n ==> GarbledGate(c, h, pre, gc, k))
  }

  lemma GarbledNext(c: Circuit, h: LabelHash, pre: PreprocessedData, input: seq<Block>,
                    gc: GarbledCircuit, gc': GarbledCircuit, n: nat)
    requires c.WellFormed() && pre.Shaped(c) && |input| == c.TotalInputSize() && n < |c.gates|
    requires GarbledUpTo(c, h, pre, input, gc, n)
    requires |gc'.label0| == |gc'.label1| == c.wireSize
    requires |gc'.garbledTables| == |gc'.wireMaskShift| == c.AndCount(n + 1)
    requires gc.garbledTables <= gc'.garbledTables && gc.wireMaskShift <= gc'.wireMaskShift
    requires forall w :: 0 <= w < c.wireSize && w != c.gates[n].out ==>
               gc'.label0[w] == gc.label0[w] && gc'.label1[w] == gc.label1[w]
    requires GarbledGate(c, h, pre, gc', n)
    ensures GarbledUpTo(c, h, pre, input, gc', n + 1)
  {
    hide GarbledGate, Xor, Circuit.AndGates;
    assert c.gates[n].out >= |input|;
    forall k | 0 <= k < n + 1 ensures GarbledGate(c, h, pre, gc', k) {
      if k < n { GarbledGateKept(c, h, pre, gc, gc', k, n); }
    }
  }

  method Garble(c: Circuit, h: LabelHash, pre: PreprocessedData, inputLabels: seq<Block>) returns (gc: GarbledCircuit)
    requires c.WellFormed() && pre.Shaped(c) && |inputLabels| == c.TotalInputSize()
    ensures Garbled(c, h, pre, inputLabels, gc)
  {
    var label0, label1 := LabelInputs(c, inputLabels, pre.maskKeys.globalKeys[0]);
    gc := GarbledCircuit(label0, label1, [], []);
    hide GarbledGate, Xor;
    assert GarbledUpTo(c, h, pre, inputLabels, gc, 0);
    hide *;
    for gateIter := 0 to |c.gates|
      invariant GarbledUpTo(c, h, pre, inputLabels, gc, gateIter)
    {
      gc := GarbleGate(c, h, pre, inputLabels, gc, gateIter);
    }
    GarbledDone(c, h, pre, inputLabels, gc);
  }

  lemma GarbledDone(c: Circuit, h: LabelHash, pre: PreprocessedData, input: seq<Block>, gc: GarbledCircuit)
    requires c.WellFormed() && pre.Shaped(c) && |input| == c.TotalInputSize()
    requires GarbledUpTo(c, h, pre, input, gc, |c.gates|)
    ensures Garbled(c, h, pre, input, gc)
  {
  }

  method LabelInputs(c: Circuit, inputLabels: seq<Block>, globalKey: Block)
    returns (label0: seq<Block>, label1: seq<Block>)
    requires |inputLabels| == c.TotalInputSize() <= c.wireSize
    ensures |label0| == |label1| == c.wireSize
    ensures forall w :: 0 <= w < |inputLabels| ==>
              label0[w] == inputLabels[w] && label1[w] == Xor(inputLabels[w], globalKey)
  {
    label0, label1 := inputLabels + seq(c.wireSize - |inputLabels|, _ => Zero()), seq(c.wireSize, _ => Zero());
    for i := 0 to c.TotalInputSize()
      invariant |label1| == c.wireSize
      invariant forall w :: 0 <= w < i ==> label1[w] == Xor(inputLabels[w], globalKey)
    {
      label1 := label1[i := Xor(label0[i], globalKey)];
    }
  }

  lemma GarbledShape(c: Circuit, h: LabelHash, pre: PreprocessedData, input: seq<Block>, gc: GarbledCircuit, n: nat)
    requires c.WellFormed() && pre.Shaped(c) && |input| == c.TotalInputSize() && n <= |c.gates|
    requires GarbledUpTo(c, h, pre, input, gc, n)
    ensures |gc.label0| == |gc.label1| == c.wireSize && |pre.maskKeys.globalKeys| == 1
    ensures |gc.garbledTables| == |gc.wireMaskShift| == c.AndCount(n)
  {
  }

  lemma LinearGarbled(c: Circuit, h: LabelHash, pre: PreprocessedData, gc: GarbledCircuit, gc': GarbledCircuit, k: nat)
    requires c.WellFormed() && pre.Shaped(c) && k < |c.gates| && |gc.label0| == |gc.label1| == c.wireSize
    requires var g := c.gates[k];
             && !g.AndGate? && g.in0 < c.wireSize && g.in0 != g.out && g.out < c.wireSize
             && (g.XorGate? ==> g.in1 < c.wireSize && g.in1 != g.out)
             && gc' == if g.NotGate? then
                         gc.(label0 := gc.label0[g.out := gc.label1[g.in0]],
                             label1 := gc.label1[g.out := gc.label0[g.in0]])
                       else
                         var outLabel: Block := Xor(gc.label0[g.in0], gc.label0[g.in1]);
                         gc.(label0 := gc.label0[g.out := outLabel],
                             label1 := gc.label1[g.out := Xor(outLabel, pre.maskKeys.globalKeys[0])])
    ensures |gc'.label0| == |gc'.label1| == c.wireSize && c.AndCount(k + 1) == c.AndCount(k)
    ensures GarbledGate(c, h, pre, gc', k)
  {
    hide Xor, Circuit.WellFormed, Circuit.Available;
  }

  lemma AndGarbled(c: Circuit, h: LabelHash, pre: PreprocessedData, gc: GarbledCircuit, gc': GarbledCircuit, k: nat)
    requires c.WellFormed() && pre.Shaped(c) && k < |c.gates| && |gc.label0| == |gc.label1| == c.wireSize
    requires |gc.garbledTables| == |gc.wireMaskShift| == c.AndCount(k) < c.AndGateSize()
    requires var g := c.gates[k];
             && g.AndGate? && g.in0 < c.wireSize && g.in0 != g.out && g.in1 < c.wireSize && g.in1 != g.out
             && g.out < c.wireSize
             && var outLabel := AndLabel0(h, pre, gc.label0, c, g, c.AndCount(k));
             && var tables := (TableEntry0(h, pre, gc.label0, gc.label1, c, g),
                               TableEntry1(h, pre, gc.label0, gc.label1, c, g));
             && gc' == GarbledCircuit(gc.label0[g.out := outLabel],
                                      gc.label1[g.out := Xor(outLabel, pre.maskKeys.globalKeys[0])],
                                      gc.garbledTables + [tables], gc.wireMaskShift + [Lsb(outLabel)])
    ensures |gc'.label0| == |gc'.label1| == c.wireSize
    ensures GarbledGate(c, h, pre, gc', k)
  {
    hide Xor, Scale, Lsb, Circuit.AndGates, Circuit.WellFormed, Circuit.Available;
  }

  /** One round of the garbling loop. */
  method GarbleGate(c: Circuit, h: LabelHash, pre: PreprocessedData, ghost input: seq<Block>, gc: GarbledCircuit,
                    k: nat)
    returns (gc': GarbledCircuit)
    requires c.WellFormed() && pre.Shaped(c) && |input| == c.TotalInputSize() && k < |c.gates|
    requires GarbledUpTo(c, h, pre, input, gc, k)
    ensures GarbledUpTo(c, h, pre, input, gc', k + 1)
  {
    var g := c.gates[k];
    var globalKey := pre.maskKeys.globalKeys[0];
    hide *;
    GateWires(c, k);
    GarbledShape(c, h, pre, input, gc, k);
    var label0, label1 := gc.label0, gc.label1;
    match g {
      case NotGate(in0, out) =>
        gc' := gc.(label0 := label0[out := label1[in0]], label1 := label1[out := label0[in0]]);
        LinearGarbled(c, h, pre, gc, gc', k);
      case XorGate(in0, in1, out) =>
        var outLabel: Block := Xor(label0[in0], label0[in1]);
        gc' := gc.(label0 := label0[out := outLabel], label1 := label1[out := Xor(outLabel, globalKey)]);
        LinearGarbled(c, h, pre, gc, gc', k);
      case AndGate(in0, in1, out) =>
        c.AndPosition(k);
        var tableEntry0, tableEntry1, outLabel := GarbleAnd(c, h, pre, label0, label1, g, c.AndCount(k));
        gc' := GarbledCircuit(label0[out := outLabel], label1[out := Xor(outLabel, globalKey)],
                              gc.garbledTables + [(tableEntry0, tableEntry1)], gc.wireMaskShift + [Lsb(outLabel)]);
        AndGarbled(c, h, pre, gc, gc', k);
    }
    GarbledNext(c, h, pre, input, gc, gc', k);
  }

  method GarbleAnd(c: Circuit, h: LabelHash, pre: PreprocessedData, label0: seq<Block>, label1: seq<Block>,
                   g: Gate, andGateIter: nat)
    returns (tableEntry0: Block, tableEntry1: Block, outLabel: Block)
    requires pre.Shaped(c) && |label0| == |label1| == c.wireSize && g.AndGate? && andGateIter < c.AndGateSize()
    requires g.in0 < c.wireSize && g.in1 < c.wireSize && g.out < c.wireSize
    ensures tableEntry0 == TableEntry0(h, pre, label0, label1, c, g)
    ensures tableEntry1 == TableEntry1(h, pre, label0, label1, c, g)
    ensures outLabel == AndLabel0(h, pre, label0, c, g, andGateIter)
  {
    var globalKey := pre.maskKeys.globalKeys[0];
    tableEntry0 := Xor(pre.maskKeys.localKeys[g.in1], Scale(pre.masks.bits[g.in1], globalKey));
    tableEntry0 := Xor(tableEntry0, h(label0[g.in0], g.out, 0));
    tableEntry0 := Xor(tableEntry0, h(label1[g.in0], g.out, 0));

    tableEntry1 := label0[g.in0];
    tableEntry1 := Xor(tableEntry1, Scale(pre.masks.bits[g.in0], globalKey));
    tableEntry1 := Xor(tableEntry1, pre.maskKeys.localKeys[g.in0]);
    tableEntry1 := Xor(tableEntry1, h(label0[g.in1], g.out, 1));
    tableEntry1 := Xor(tableEntry1, h(label1[g.in1], g.out, 1));

    outLabel := Xor(h(label0[g.in0], g.out, 0), h(label0[g.in1], g.out, 1));
    outLabel := Xor(outLabel, Scale(pre.masks.bits[g.out] != pre.beaverTripleShares.bits[andGateIter], globalKey));
    outLabel := Xor(outLabel, pre.maskKeys.localKeys[g.out]);
    outLabel := Xor(outLabel, pre.beaverTripleKeys.localKeys[andGateIter]);
  }

  // ---------------------------------------------------------------- evaluation

  datatype EvaluateResult = EvaluateResult(maskedValues: seq<bool>, labels: seq<Block>)

  /** The label the evaluator computes for an AND gate from one row of tables. */
  function EvaluatedAndLabel(h: LabelHash, pre: PreprocessedData, tables: (Block, Block), r: EvaluateResult,
                             c: Circuit, g: Gate, i: nat): Block
    requires pre.Shaped(c) && |r.maskedValues| == |r.labels| == c.wireSize && g.AndGate? && i < c.AndGateSize()
    requires g.in0 < c.wireSize && g.in1 < c.wireSize && g.out < c.wireSize
  {
    var g0 := Xor(tables.0, pre.masks.macs[g.in1]);
    var g1 := Xor(Xor(tables.1, pre.masks.macs[g.in0]), r.labels[g.in0]);
    Xor(Xor(Xor(h(r.labels[g.in0], g.out, 0), h(r.labels[g.in1], g.out, 1)),
            Xor(pre.masks.macs[g.out], pre.beaverTripleShares.macs[i])),
        Xor(Scale(r.maskedValues[g.in0], g0), Scale(r.maskedValues[g.in1], g1)))
  }

  /** Masked value and label of gate k are as evaluation prescribes. */
  ghost predicate EvaluatedGate(c: Circuit, h: LabelHash, pre: PreprocessedData,
                                tables: seq<(Block, Block)>, shift: seq<bool>, r: EvaluateResult, k: nat)
    requires c.WellFormed() && pre.Shaped(c) && k < |c.gates|
    requires |tables| == |shift| == c.AndGateSize() && |r.maskedValues| == |r.labels| == c.wireSize
  {
    var g := c.gates[k];
    assert c.Available(k, g.in0) && (g.NotGate? || c.Available(k, g.in1));
    match g
    case NotGate(in0, out) =>
      r.maskedValues[out] == !r.maskedValues[in0] && r.labels[out] == r.labels[in0]
    case XorGate(in0, in1, out) =>
      r.maskedValues[out] == (r.maskedValues[in0] != r.maskedValues[in1]) &&
      r.labels[out] == Xor(r.labels[in0], r.labels[in1])
    case AndGate(in0, in1, out) =>
      var i := c.AndCount(k);
      c.AndPosition(k);
      && r.labels[out] == EvaluatedAndLabel(h, pre, tables[i], r, c, g, i)
      && r.maskedValues[out] == (Lsb(r.labels[out]) != shift[i])
  }

  ghost predicate Evaluated(c: Circuit, h: LabelHash, pre: PreprocessedData,
                            tables: seq<(Block, Block)>, shift: seq<bool>,
                            inputLabels: seq<Block>, inputMaskedValues: seq<bool>, r: EvaluateResult)
    requires c.WellFormed() && pre.Shaped(c) && |tables| == |shift| == c.AndGateSize()
    requires |inputLabels| == |inputMaskedValues| == c.TotalInputSize()
  {
    && |r.maskedValues| == |r.labels| == c.wireSize
    && (forall w :: 0 <= w < c.TotalInputSize() ==>
          r.labels[w] == inputLabels[w] && r.maskedValues[w] == inputMaskedValues[w])
    && (forall k :: 0 <= k < |c.gates| ==> EvaluatedGate(c, h, pre, tables, shift, r, k))
  }

  lemma EvaluatedGateKept(c: Circuit, h: LabelHash, pre: PreprocessedData, tables: seq<(Block, Block)>,
                          shift: seq<bool>, r: EvaluateResult, r': EvaluateResult, j: nat, k: nat)
    requires c.WellFormed() && pre.Shaped(c) && j < k < |c.gates| && |tables| == |shift| == c.AndGateSize()
    requires |r.maskedValues| == |r.labels| == |r'.maskedValues| == |r'.labels| == c.wireSize
    requires forall w :: 0 <= w < c.wireSize && w != c.gates[k].out ==>
               r'.maskedValues[w] == r.maskedValues[w] && r'.labels[w] == r.labels[w]
    requires EvaluatedGate(c, h, pre, tables, shift, r, j)
    ensures EvaluatedGate(c, h, pre, tables, shift, r', j)
  {
    assert c.Available(j, c.gates[j].in0) && (c.gates[j].NotGate? || c.Available(j, c.gates[j].in1));
    assert c.Available(k, c.gates[j].out) && !c.Available(k, c.gates[k].out);
  }

  method Evaluate(c: Circuit, h: LabelHash, pre: PreprocessedData, tables: seq<(Block, Block)>, shift: seq<bool>,
                  inputLabels: seq<Block>, inputMaskedValues: seq<bool>) returns (r: EvaluateResult)
    requires c.WellFormed() && pre.Shaped(c) && |tables| == |shift| == c.AndGateSize()
    requires |inputLabels| == |inputMaskedValues| == c.TotalInputSize()
    ensures Evaluated(c, h, pre, tables, shift, inputLabels, inputMaskedValues, r)
  {
    r := EvaluateResult(inputMaskedValues + seq(c.wireSize - |inputLabels|, _ => false),
                        inputLabels + seq(c.wireSize - |inputLabels|, _ => Zero()));
    hide EvaluatedGate, Circuit.AndGates;
    for gateIter := 0 to |c.gates|
      invariant |r.maskedValues| == |r.labels| == c.wireSize
      invariant forall w :: 0 <= w < c.TotalInputSize() ==>
                  r.labels[w] == inputLabels[w] && r.maskedValues[w] == inputMaskedValues[w]
      invariant forall k :: 0 <= k < gateIter ==> EvaluatedGate(c, h, pre, tables, shift, r, k)
    {
      ghost var before := r;
      r := EvaluateGate(c, h, pre, tables, shift, r, gateIter);
      forall k | 0 <= k < gateIter + 1 ensures EvaluatedGate(c, h, pre, tables, shift, r, k) {
        if k < gateIter { EvaluatedGateKept(c, h, pre, tables, shift, before, r, k, gateIter); }
      }
    }
  }

  /** One round of the evaluation loop. */
  method EvaluateGate(c: Circuit, h: LabelHash, pre: PreprocessedData, tables: seq<(Block, Block)>, shift: seq<bool>,
                      r: EvaluateResult, k: nat) returns (r': EvaluateResult)
    requires c.WellFormed() && pre.Shaped(c) && k < |c.gates|
    requires |tables| == |shift| == c.AndGateSize() && |r.maskedValues| == |r.labels| == c.wireSize
    ensures |r'.maskedValues| == |r'.labels| == c.wireSize
    ensures forall w :: 0 <= w < c.wireSize && w != c.gates[k].out ==>
              r'.maskedValues[w] == r.maskedValues[w] && r'.labels[w] == r.labels[w]
    ensures EvaluatedGate(c, h, pre, tables, shift, r', k)
  {
    var g := c.gates[k];
    GateWires(c, k);
    hide Circuit.WellFormed, Circuit.Available, Circuit.AndGates, Xor, Scale, Lsb, TableEntry0, TableEntry1, AndLabel0,
         EvaluatedAndLabel;
    var maskedValues, labels := r.maskedValues, r.labels;
    match g {
      case NotGate(in0, out) =>
        r' := EvaluateResult(maskedValues[out := !maskedValues[in0]], labels[out := labels[in0]]);
      case XorGate(in0, in1, out) =>
        r' := EvaluateResult(maskedValues[out := maskedValues[in0] != maskedValues[in1]],
                             labels[out := Xor(labels[in0], labels[in1])]);
      case AndGate(in0, in1, out) =>
        c.AndPosition(k);
        var andGateIter := c.AndCount(k);
        var outLabel := EvaluateAnd(c, h, pre, tables[andGateIter], r, g, andGateIter);
        r' := EvaluateResult(maskedValues[out := Lsb(outLabel) != shift[andGateIter]], labels[out := outLabel]);
    }
  }

  method EvaluateAnd(c: Circuit, h: LabelHash, pre: PreprocessedData, tables: (Block, Block), r: EvaluateResult,
                     g: Gate, andGateIter: nat) returns (outLabel: Block)
    requires pre.Shaped(c) && |r.maskedValues| == |r.labels| == c.wireSize && g.AndGate?
    requires andGateIter < c.AndGateSize()
    requires g.in0 < c.wireSize && g.in1 < c.wireSize && g.out < c.wireSize
    ensures outLabel == EvaluatedAndLabel(h, pre, tables, r, c, g, andGateIter)
  {
    var g0 := Xor(tables.0, pre.masks.macs[g.in1]);
    var g1 := Xor(tables.1, pre.masks.macs[g.in0]);
    g1 := Xor(g1, r.labels[g.in0]);
    outLabel := Xor(h(r.labels[g.in0], g.out, 0), h(r.labels[g.in1], g.out, 1));
    outLabel := Xor(outLabel, pre.masks.macs[g.out]);
    outLabel := Xor(outLabel, pre.beaverTripleShares.macs[andGateIter]);
    outLabel := Xor(outLabel, Scale(r.maskedValues[g.in0], g0));
    outLabel := Xor(outLabel, Scale(r.maskedValues[g.in1], g1));
  }
}
