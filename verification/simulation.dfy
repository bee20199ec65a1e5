/** The evaluator walks in step with the garbler: it holds, on every wire, the label
    of the masked value, and unmasking the masked values gives the plain evaluation. */
module Simulation {
  import opened Blocks
  import opened Circuits
  import opened Authenticated
  import opened Garbling

  /** Mask shares follow the linear gates: XOR adds them, NOT copies them. */
  ghost predicate MasksLinear(c: Circuit, bits: seq<bool>)
    requires c.WellFormed() && |bits| == c.wireSize
  {
    forall k :: 0 <= k < |c.gates| ==> MaskGate(c, bits, k)
  }

  ghost predicate MaskGate(c: Circuit, bits: seq<bool>, k: nat)
    requires c.WellFormed() && |bits| == c.wireSize && k < |c.gates|
  {
    var g := c.gates[k];
    assert c.Available(k, g.in0) && (g.NotGate? || c.Available(k, g.in1));
    match g
    case AndGate(_, _, _) => true
    case XorGate(in0, in1, out) => bits[out] == (bits[in0] != bits[in1])
    case NotGate(in0, out) => bits[out] == bits[in0]
  }

  /** AND gate k has a correct Beaver triple: its shares add up to the product of the input masks. */
  ghost predicate TripleHolds(c: Circuit, pg: PreprocessedData, pe: PreprocessedData, k: nat)
    requires c.WellFormed() && pg.Shaped(c) && pe.Shaped(c) && k < |c.gates| && c.gates[k].AndGate?
  {
    var g := c.gates[k];
    assert c.Available(k, g.in0) && c.Available(k, g.in1);
    c.AndPosition(k);
    var i := c.AndCount(k);
    (pg.beaverTripleShares.bits[i] != pe.beaverTripleShares.bits[i]) ==
    ((pg.masks.bits[g.in0] != pe.masks.bits[g.in0]) && (pg.masks.bits[g.in1] != pe.masks.bits[g.in1]))
  }

  /** All MACs verify, in both directions. */
  ghost predicate MacsHold(c: Circuit, pg: PreprocessedData, pe: PreprocessedData, deltaA: Block, deltaB: Block) {
    && pg.Shaped(c) && pe.Shaped(c)
    && Authed(pe.masks, pg.maskKeys, deltaA) && Authed(pg.masks, pe.maskKeys, deltaB)
    && Authed(pe.beaverTripleShares, pg.beaverTripleKeys, deltaA)
    && Authed(pg.beaverTripleShares, pe.beaverTripleKeys, deltaB)
  }

  /** What the online phase needs of preprocessing. */
  ghost predicate PreprocessingHolds(c: Circuit, pg: PreprocessedData, pe: PreprocessedData, deltaA: Block,
                                     deltaB: Block)
    requires c.WellFormed()
  {
    && MacsHold(c, pg, pe, deltaA, deltaB)
    && MasksLinear(c, pg.masks.bits) && MasksLinear(c, pe.masks.bits)
    && (forall k :: 0 <= k < |c.gates| && c.gates[k].AndGate? ==> TripleHolds(c, pg, pe, k))
  }

  /** Wire w: the two labels differ by the global key, and the evaluator has the one of its masked value. */
  ghost predicate InStep(gc: GarbledCircuit, r: EvaluateResult, deltaA: Block, w: Wire)
    requires w < |gc.label0| == |gc.label1| == |r.maskedValues| == |r.labels|
  {
    && gc.label1[w] == Xor(gc.label0[w], deltaA)
    && r.labels[w] == Xor(gc.label0[w], Scale(r.maskedValues[w], deltaA))
  }

  /** Being in step means holding exactly the label of the masked value. */
  lemma InStepLabel(gc: GarbledCircuit, r: EvaluateResult, deltaA: Block, w: Wire)
    requires w < |gc.label0| == |gc.label1| == |r.maskedValues| == |r.labels| && InStep(gc, r, deltaA, w)
    ensures r.labels[w] == if r.maskedValues[w] then gc.label1[w] else gc.label0[w]
  {
    XorZero(gc.label0[w]);
  }

  /** A masked value with both mask shares removed. */
  function Unmasked(r: EvaluateResult, pg: PreprocessedData, pe: PreprocessedData): (v: seq<bool>)
    requires |r.maskedValues| == |pg.masks.bits| == |pe.masks.bits|
    ensures |v| == |r.maskedValues|
    ensures forall w :: 0 <= w < |v| ==> v[w] == (r.maskedValues[w] != (pg.masks.bits[w] != pe.masks.bits[w]))
  {
    seq(|r.maskedValues|, w requires 0 <= w < |r.maskedValues| =>
      r.maskedValues[w] != (pg.masks.bits[w] != pe.masks.bits[w]))
  }

  /** The half-gates identity.  `a*`, `b*` are the two mask shares on the inputs (0, 1),
      the output (o) and the triple (t); `k*` the garbler's keys and `m*` the evaluator's MACs
      for the b's; `v*` the masked input values and `e*` the hashes of the evaluator's labels. */
  lemma HalfGates(d: Block, a0: bool, a1: bool, ao: bool, at: bool, b0: bool, b1: bool, bo: bool, bt: bool,
                  k0: Block, k1: Block, ko: Block, kt: Block, m0: Block, m1: Block, mo: Block, mt: Block,
                  v0: bool, v1: bool, l0: Block, eval0: Block,
                  h00: Block, h01: Block, h10: Block, h11: Block, e0: Block, e1: Block, t0: Block, t1: Block,
                  outLabel0: Block, outLabel: Block)
    requires (at != bt) == ((a0 != b0) && (a1 != b1))
    requires m0 == Xor(k0, Scale(b0, d)) && m1 == Xor(k1, Scale(b1, d))
    requires mo == Xor(ko, Scale(bo, d)) && mt == Xor(kt, Scale(bt, d))
    requires e0 == (if v0 then h01 else h00) && e1 == (if v1 then h11 else h10)
    requires eval0 == Xor(l0, Scale(v0, d))
    requires t0 == Xor(Xor(k1, Scale(a1, d)), Xor(h00, h01))
    requires t1 == Xor(Xor(l0, Xor(k0, Scale(a0, d))), Xor(h10, h11))
    requires outLabel0 == Xor(Xor(h00, h10), Xor(Scale(ao != at, d), Xor(ko, kt)))
    requires outLabel == Xor(Xor(Xor(e0, e1), Xor(mo, mt)),
                             Xor(Scale(v0, Xor(t0, m1)), Scale(v1, Xor(Xor(t1, m0), eval0))))
    ensures outLabel == Xor(outLabel0, Scale(((v0 != (a0 != b0)) && (v1 != (a1 != b1))) != (ao != bo), d))
  {
    hide Lsb;
    var row0, row1 := Scale(v0, Xor(t0, m1)), Scale(v1, Xor(Xor(t1, m0), eval0));
    var p0, p1 := v0 && (a1 != b1), v1 && (a0 != (b0 != v0));
    assert Xor(e0, row0) == Xor(h00, Scale(p0, d)) by {
      HalfGate(d, h00, h01, e0, v0, k1, a1, b1, t0, m1);
    }
    assert Xor(e1, row1) == Xor(h10, Scale(p1, d)) by {
      assert t1 == Xor(Xor(Xor(l0, k0), Scale(a0, d)), Xor(h10, h11));
      assert Xor(m0, eval0) == Xor(Xor(l0, k0), Scale(b0 != v0, d));
      HalfGate(d, h10, h11, e1, v1, Xor(l0, k0), a0, b0 != v0, t1, Xor(m0, eval0));
      XorAssoc(t1, m0, eval0);
    }
    BothHalves(d, e0, e1, row0, row1, h00, h10, p0, p1, ko, bo, kt, bt, ao, at, mo, mt);
  }

  lemma BothHalves(d: Block, e0: Block, e1: Block, row0: Block, row1: Block, h0: Block, h1: Block, p0: bool, p1: bool,
                   ko: Block, bo: bool, kt: Block, bt: bool, ao: bool, at: bool, mo: Block, mt: Block)
    requires Xor(e0, row0) == Xor(h0, Scale(p0, d)) && Xor(e1, row1) == Xor(h1, Scale(p1, d))
    requires mo == Xor(ko, Scale(bo, d)) && mt == Xor(kt, Scale(bt, d))
    ensures Xor(Xor(Xor(e0, e1), Xor(mo, mt)), Xor(row0, row1)) ==
            Xor(Xor(Xor(h0, h1), Xor(Scale(ao != at, d), Xor(ko, kt))),
                Scale(((p0 != p1) != (at != bt)) != (ao != bo), d))
  {
    XorSwap(e0, e1, row0, row1);
    var e, row, m := Xor(e0, e1), Xor(row0, row1), Xor(mo, mt);
    assert Xor(Xor(e, m), row) == Xor(Xor(e, row), m);
  }

  /** One half: the table row turns the hash of the held label into the hash of the zero label,
      and leaves the global key scaled by the share product. */
  lemma HalfGate(d: Block, h0: Block, h1: Block, e: Block, v: bool, k: Block, a: bool, b: bool, t: Block, m: Block)
    requires e == (if v then h1 else h0)
    requires t == Xor(Xor(k, Scale(a, d)), Xor(h0, h1)) && m == Xor(k, Scale(b, d))
    ensures Xor(e, Scale(v, Xor(t, m))) == Xor(h0, Scale(v && (a != b), d))
  {
  }

  // What an AND gate's wires, tables and triple satisfy, one equation at a time.

  lemma AndSizes(c: Circuit, pg: PreprocessedData, pe: PreprocessedData, deltaA: Block, deltaB: Block, k: nat)
    requires c.WellFormed() && MacsHold(c, pg, pe, deltaA, deltaB) && k < |c.gates| && c.gates[k].AndGate?
    ensures pg.Shaped(c) && pe.Shaped(c) && pg.maskKeys.globalKeys[0] == deltaA
    ensures |pg.masks.bits| == |pe.masks.bits| == |pe.masks.macs| == |pg.maskKeys.localKeys| == c.wireSize
    ensures c.gates[k].in0 < c.wireSize && c.gates[k].in1 < c.wireSize && c.gates[k].out < c.wireSize
  {
    hide AuthBits;
    assert c.Available(k, c.gates[k].in0) && c.Available(k, c.gates[k].in1);
  }

  lemma EvaluatorMac(c: Circuit, pg: PreprocessedData, pe: PreprocessedData, deltaA: Block, deltaB: Block, w: Wire)
    requires MacsHold(c, pg, pe, deltaA, deltaB) && w < c.wireSize
    ensures |pe.masks.macs| == |pe.masks.bits| == |pg.maskKeys.localKeys| == c.wireSize
    ensures pe.masks.macs[w] == Xor(pg.maskKeys.localKeys[w], Scale(pe.masks.bits[w], deltaA))
  {
    hide Xor, Scale;
  }

  lemma TripleMac(c: Circuit, pg: PreprocessedData, pe: PreprocessedData, deltaA: Block, deltaB: Block, i: nat)
    requires MacsHold(c, pg, pe, deltaA, deltaB) && i < c.AndGateSize()
    ensures |pe.beaverTripleShares.macs| == |pe.beaverTripleShares.bits| == |pg.beaverTripleKeys.localKeys| ==
            c.AndGateSize()
    ensures |pg.beaverTripleShares.bits| == c.AndGateSize()
    ensures pe.beaverTripleShares.macs[i] ==
            Xor(pg.beaverTripleKeys.localKeys[i], Scale(pe.beaverTripleShares.bits[i], deltaA))
  {
    hide Xor, Scale, Circuit.AndGates;
  }

  lemma TripleAnd(c: Circuit, pg: PreprocessedData, pe: PreprocessedData, k: nat)
    requires c.WellFormed() && pg.Shaped(c) && pe.Shaped(c) && k < |c.gates| && c.gates[k].AndGate?
    requires TripleHolds(c, pg, pe, k)
    ensures var g, i := c.gates[k], c.AndCount(k);
            && g.in0 < c.wireSize && g.in1 < c.wireSize && i < c.AndGateSize()
            && (pg.beaverTripleShares.bits[i] != pe.beaverTripleShares.bits[i]) ==
               ((pg.masks.bits[g.in0] != pe.masks.bits[g.in0]) && (pg.masks.bits[g.in1] != pe.masks.bits[g.in1]))
  {
    hide Circuit.AndGates;
    assert c.Available(k, c.gates[k].in0) && c.Available(k, c.gates[k].in1);
    c.AndPosition(k);
  }

  /** A garbled AND gate, written out: the two table rows, the zero label and its partner, and the shift bit. */
  lemma GarbledAnd(c: Circuit, h: LabelHash, pg: PreprocessedData, gc: GarbledCircuit, k: nat)
    requires c.WellFormed() && pg.Shaped(c) && k < |c.gates| && c.gates[k].AndGate?
    requires |gc.label0| == |gc.label1| == c.wireSize && GarbledGate(c, h, pg, gc, k)
    ensures var g, i := c.gates[k], c.AndCount(k);
            var (l0, l1, delta) := (gc.label0, gc.label1, pg.maskKeys.globalKeys[0]);
            var (bits, keys) := (pg.masks.bits, pg.maskKeys.localKeys);
            && g.in0 < c.wireSize && g.in1 < c.wireSize && g.out < c.wireSize
            && i < |gc.garbledTables| && i < |gc.wireMaskShift| && i < c.AndGateSize()
            && gc.garbledTables[i].0 == Xor(Xor(keys[g.in1], Scale(bits[g.in1], delta)),
                                            Xor(h(l0[g.in0], g.out, 0), h(l1[g.in0], g.out, 0)))
            && gc.garbledTables[i].1 == Xor(Xor(l0[g.in0], Xor(keys[g.in0], Scale(bits[g.in0], delta))),
                                            Xor(h(l0[g.in1], g.out, 1), h(l1[g.in1], g.out, 1)))
            && l0[g.out] == Xor(Xor(h(l0[g.in0], g.out, 0), h(l0[g.in1], g.out, 1)),
                                Xor(Scale(bits[g.out] != pg.beaverTripleShares.bits[i], delta),
                                    Xor(keys[g.out], pg.beaverTripleKeys.localKeys[i])))
            && l1[g.out] == Xor(l0[g.out], delta) && gc.wireMaskShift[i] == Lsb(l0[g.out])
  {
    hide Xor, Scale, Lsb, Circuit.AndGates;
    assert c.Available(k, c.gates[k].in0) && c.Available(k, c.gates[k].in1);
    c.AndPosition(k);
  }

  /** An evaluated AND gate, written out. */
  lemma EvaluatedAnd(c: Circuit, h: LabelHash, pe: PreprocessedData, gc: GarbledCircuit, r: EvaluateResult, k: nat)
    requires c.WellFormed() && pe.Shaped(c) && k < |c.gates| && c.gates[k].AndGate?
    requires |gc.garbledTables| == |gc.wireMaskShift| == c.AndGateSize() && |r.maskedValues| == |r.labels| == c.wireSize
    requires EvaluatedGate(c, h, pe, gc.garbledTables, gc.wireMaskShift, r, k)
    ensures var g, i := c.gates[k], c.AndCount(k);
            && g.in0 < c.wireSize && g.in1 < c.wireSize && i < c.AndGateSize()
            && g.out < c.wireSize
            && r.maskedValues[g.out] == (Lsb(r.labels[g.out]) != gc.wireMaskShift[i])
            && r.labels[g.out] ==
               Xor(Xor(Xor(h(r.labels[g.in0], g.out, 0), h(r.labels[g.in1], g.out, 1)),
                       Xor(pe.masks.macs[g.out], pe.beaverTripleShares.macs[i])),
                   Xor(Scale(r.maskedValues[g.in0], Xor(gc.garbledTables[i].0, pe.masks.macs[g.in1])),
                       Scale(r.maskedValues[g.in1],
                             Xor(Xor(gc.garbledTables[i].1, pe.masks.macs[g.in0]), r.labels[g.in0]))))
  {
    hide Xor, Scale, Lsb, Circuit.AndGates;
    assert c.Available(k, c.gates[k].in0) && c.Available(k, c.gates[k].in1);
    c.AndPosition(k);
  }

  /** The label the evaluator derives for an AND gate is the one of the masked product. */
  lemma AndLabelInStep(c: Circuit, h: LabelHash, pg: PreprocessedData, pe: PreprocessedData, deltaA: Block,
                       deltaB: Block, gc: GarbledCircuit, r: EvaluateResult, k: nat)
    requires c.WellFormed() && MacsHold(c, pg, pe, deltaA, deltaB)
    requires |gc.label0| == |gc.label1| == |r.maskedValues| == |r.labels| == c.wireSize
    requires |gc.garbledTables| == |gc.wireMaskShift| == c.AndGateSize()
    requires k < |c.gates| && c.gates[k].AndGate? && TripleHolds(c, pg, pe, k)
    requires GarbledGate(c, h, pg, gc, k) && EvaluatedGate(c, h, pe, gc.garbledTables, gc.wireMaskShift, r, k)
    requires c.gates[k].in0 < c.wireSize && c.gates[k].in1 < c.wireSize
    requires InStep(gc, r, deltaA, c.gates[k].in0) && InStep(gc, r, deltaA, c.gates[k].in1)
    ensures var g := c.gates[k]; var v := Unmasked(r, pg, pe);
            r.labels[g.out] == Xor(gc.label0[g.out],
              Scale((v[g.in0] && v[g.in1]) != (pg.masks.bits[g.out] != pe.masks.bits[g.out]), deltaA))
  {
    hide Xor, Scale, Lsb, Unmasked, MacsHold, GarbledGate, EvaluatedGate, TripleHolds, Circuit.WellFormed,
         Circuit.AndGates, Circuit.AndCount, Circuit.AndGateSize;
    var g := c.gates[k];
    var i := c.AndCount(k);
    c.AndPosition(k);
    AndSizes(c, pg, pe, deltaA, deltaB, k);
    TripleAnd(c, pg, pe, k);
    EvaluatorMac(c, pg, pe, deltaA, deltaB, g.in0);
    EvaluatorMac(c, pg, pe, deltaA, deltaB, g.in1);
    EvaluatorMac(c, pg, pe, deltaA, deltaB, g.out);
    TripleMac(c, pg, pe, deltaA, deltaB, i);
    GarbledAnd(c, h, pg, gc, k);
    EvaluatedAnd(c, h, pe, gc, r, k);
    InStepLabel(gc, r, deltaA, g.in0);
    InStepLabel(gc, r, deltaA, g.in1);
    HalfGates(deltaA, pg.masks.bits[g.in0], pg.masks.bits[g.in1], pg.masks.bits[g.out], pg.beaverTripleShares.bits[i],
              pe.masks.bits[g.in0], pe.masks.bits[g.in1], pe.masks.bits[g.out], pe.beaverTripleShares.bits[i],
              pg.maskKeys.localKeys[g.in0], pg.maskKeys.localKeys[g.in1], pg.maskKeys.localKeys[g.out],
              pg.beaverTripleKeys.localKeys[i], pe.masks.macs[g.in0], pe.masks.macs[g.in1], pe.masks.macs[g.out],
              pe.beaverTripleShares.macs[i], r.maskedValues[g.in0], r.maskedValues[g.in1], gc.label0[g.in0],
              r.labels[g.in0], h(gc.label0[g.in0], g.out, 0), h(gc.label1[g.in0], g.out, 0),
              h(gc.label0[g.in1], g.out, 1), h(gc.label1[g.in1], g.out, 1), h(r.labels[g.in0], g.out, 0),
              h(r.labels[g.in1], g.out, 1), gc.garbledTables[i].0, gc.garbledTables[i].1, gc.label0[g.out],
              r.labels[g.out]);
  }

  lemma AndInStep(c: Circuit, h: LabelHash, pg: PreprocessedData, pe: PreprocessedData, deltaA: Block, deltaB: Block,
                  gc: GarbledCircuit, r: EvaluateResult, k: nat)
    requires c.WellFormed() && MacsHold(c, pg, pe, deltaA, deltaB) && Lsb(deltaA)
    requires |gc.label0| == |gc.label1| == |r.maskedValues| == |r.labels| == c.wireSize
    requires |gc.garbledTables| == |gc.wireMaskShift| == c.AndGateSize()
    requires k < |c.gates| && c.gates[k].AndGate? && TripleHolds(c, pg, pe, k)
    requires GarbledGate(c, h, pg, gc, k) && EvaluatedGate(c, h, pe, gc.garbledTables, gc.wireMaskShift, r, k)
    requires c.gates[k].in0 < c.wireSize && c.gates[k].in1 < c.wireSize
    requires InStep(gc, r, deltaA, c.gates[k].in0) && InStep(gc, r, deltaA, c.gates[k].in1)
    ensures InStep(gc, r, deltaA, c.gates[k].out)
    ensures GateHolds(c, Unmasked(r, pg, pe), k)
  {
    AndLabelInStep(c, h, pg, pe, deltaA, deltaB, gc, r, k);
  }

  lemma LinearInStep(c: Circuit, h: LabelHash, pg: PreprocessedData, pe: PreprocessedData, deltaA: Block,
                     gc: GarbledCircuit, r: EvaluateResult, k: nat)
    requires c.WellFormed() && pg.Shaped(c) && pe.Shaped(c) && pg.maskKeys.globalKeys[0] == deltaA
    requires |gc.label0| == |gc.label1| == |r.maskedValues| == |r.labels| == c.wireSize
    requires |gc.garbledTables| == |gc.wireMaskShift| == c.AndGateSize()
    requires k < |c.gates| && !c.gates[k].AndGate? && MaskGate(c, pg.masks.bits, k) && MaskGate(c, pe.masks.bits, k)
    requires GarbledGate(c, h, pg, gc, k) && EvaluatedGate(c, h, pe, gc.garbledTables, gc.wireMaskShift, r, k)
    requires c.gates[k].in0 < c.wireSize && InStep(gc, r, deltaA, c.gates[k].in0)
    requires c.gates[k].XorGate? ==> c.gates[k].in1 < c.wireSize && InStep(gc, r, deltaA, c.gates[k].in1)
    ensures InStep(gc, r, deltaA, c.gates[k].out)
    ensures GateHolds(c, Unmasked(r, pg, pe), k)
  {
  }

  lemma GateInStep(c: Circuit, h: LabelHash, pg: PreprocessedData, pe: PreprocessedData, deltaA: Block, deltaB: Block,
                   gc: GarbledCircuit, r: EvaluateResult, k: nat)
    requires c.WellFormed() && PreprocessingHolds(c, pg, pe, deltaA, deltaB) && Lsb(deltaA)
    requires |gc.label0| == |gc.label1| == |r.maskedValues| == |r.labels| == c.wireSize
    requires |gc.garbledTables| == |gc.wireMaskShift| == c.AndGateSize() && k < |c.gates|
    requires GarbledGate(c, h, pg, gc, k) && EvaluatedGate(c, h, pe, gc.garbledTables, gc.wireMaskShift, r, k)
    requires forall w :: 0 <= w < c.wireSize && c.Available(k, w) ==> InStep(gc, r, deltaA, w)
    ensures InStep(gc, r, deltaA, c.gates[k].out)
    ensures GateHolds(c, Unmasked(r, pg, pe), k)
  {
    var g := c.gates[k];
    assert c.Available(k, g.in0) && (g.NotGate? || c.Available(k, g.in1));
    if g.AndGate? {
      AndInStep(c, h, pg, pe, deltaA, deltaB, gc, r, k);
    } else {
      LinearInStep(c, h, pg, pe, deltaA, gc, r, k);
    }
  }

  /** The simulation, gate by gate: from input wires in step, every wire is in step and every
      gate computes its function on the unmasked values. */
  lemma {:induction false} StaysInStep(c: Circuit, h: LabelHash, pg: PreprocessedData, pe: PreprocessedData,
                                       deltaA: Block, deltaB: Block, gc: GarbledCircuit, inputLabel0: seq<Block>,
                                       r: EvaluateResult, inputLabels: seq<Block>, inputMaskedValues: seq<bool>, k: nat)
    requires c.WellFormed() && PreprocessingHolds(c, pg, pe, deltaA, deltaB) && Lsb(deltaA) && k <= |c.gates|
    requires |inputLabel0| == |inputLabels| == |inputMaskedValues| == c.TotalInputSize()
    requires Garbled(c, h, pg, inputLabel0, gc)
    requires Evaluated(c, h, pe, gc.garbledTables, gc.wireMaskShift, inputLabels, inputMaskedValues, r)
    requires forall w :: 0 <= w < c.TotalInputSize() ==>
               inputLabels[w] == Xor(inputLabel0[w], Scale(inputMaskedValues[w], deltaA))
    ensures forall w :: 0 <= w < c.wireSize && c.Available(k, w) ==> InStep(gc, r, deltaA, w)
    ensures forall j :: 0 <= j < k ==> GateHolds(c, Unmasked(r, pg, pe), j)
  {
    hide InStep, GateHolds, GarbledGate, EvaluatedGate, TripleHolds, MasksLinear, Authed;
    if k > 0 {
      StaysInStep(c, h, pg, pe, deltaA, deltaB, gc, inputLabel0, r, inputLabels, inputMaskedValues, k - 1);
      assert GarbledGate(c, h, pg, gc, k - 1);
      assert EvaluatedGate(c, h, pe, gc.garbledTables, gc.wireMaskShift, r, k - 1);
      GateInStep(c, h, pg, pe, deltaA, deltaB, gc, r, k - 1);
    }
    forall w | 0 <= w < c.wireSize && c.Available(k, w) ensures InStep(gc, r, deltaA, w) {
      if w >= c.TotalInputSize() {
        c.AvailableStep(k - 1, w);
      } else {
        InputInStep(c, pg, pe, deltaA, deltaB, gc, r, inputLabel0[w], w);
      }
    }
  }

  lemma InputInStep(c: Circuit, pg: PreprocessedData, pe: PreprocessedData, deltaA: Block, deltaB: Block,
                    gc: GarbledCircuit, r: EvaluateResult, label0: Block, w: Wire)
    requires MacsHold(c, pg, pe, deltaA, deltaB)
    requires w < |gc.label0| == |gc.label1| == |r.maskedValues| == |r.labels|
    requires gc.label0[w] == label0 && gc.label1[w] == Xor(label0, pg.maskKeys.globalKeys[0])
    requires r.labels[w] == Xor(label0, Scale(r.maskedValues[w], deltaA))
    ensures InStep(gc, r, deltaA, w)
  {
    hide Xor, Scale;
  }
}
