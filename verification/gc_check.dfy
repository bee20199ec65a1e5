/** The garbled-circuit check: one accumulator per party over all independent wires and AND gates. */
module GarbledCheck {
  import opened Blocks
  import opened Sums
  import opened Circuits
  import opened XorSources
  import opened Authenticated
  import opened Populate
  import opened Garbling
  import opened Simulation

  /** Bits of the accumulators that are compared: five bytes. */
  const CHALLENGE_BITS := 40

  // ---------------------------------------------------------------- what the garbler sends

  /** The MAC combination that ties wire w to AND gate j. */
  function MacTerm(c: Circuit, src: seq<seq<bool>>, macs: seq<Block>, w: Wire, j: nat): Block
    requires c.WellFormed() && |src| == |macs| == c.wireSize
    requires forall i :: 0 <= i < c.wireSize ==> |src[i]| == c.wireSize
    requires w < c.wireSize && j < c.AndGateSize()
  {
    Xor(Scale(src[In0(c, j)][w], macs[In1(c, j)]), Scale(src[In1(c, j)][w], macs[In0(c, j)]))
  }

  function WireTerms(c: Circuit, src: seq<seq<bool>>, macs: seq<Block>, coeff: seq<Block>, w: Wire): (r: seq<Block>)
    requires c.WellFormed() && |src| == |macs| == c.wireSize
    requires forall i :: 0 <= i < c.wireSize ==> |src[i]| == c.wireSize
    requires w < c.wireSize && |coeff| == c.AndGateSize()
    ensures |r| == c.AndGateSize()
    ensures forall j :: 0 <= j < |r| ==> r[j] == Mul(MacTerm(c, src, macs, w, j), coeff[j])
  {
    seq(c.AndGateSize(), j requires 0 <= j < c.AndGateSize() => Mul(MacTerm(c, src, macs, w, j), coeff[j]))
  }

  /** The terms of gates already visited. */
  ghost function Visited(c: Circuit, terms: seq<Block>, todo: set<nat>): (r: seq<Block>)
    requires c.WellFormed() && |terms| == c.AndGateSize()
    ensures |r| == |terms|
    ensures forall j :: 0 <= j < |r| ==> r[j] == Scale(c.AndGates(|c.gates|)[j] !in todo, terms[j])
  {
    seq(|terms|, j requires 0 <= j < |terms| => Scale(c.AndGates(|c.gates|)[j] !in todo, terms[j]))
  }

  /** Visiting gate k adds its term, whatever the order. */
  lemma VisitStep(c: Circuit, terms: seq<Block>, todo: set<nat>, k: nat)
    requires c.WellFormed() && |terms| == c.AndGateSize() && k in todo && k < |c.gates| && c.gates[k].AndGate?
    ensures c.AndCount(k) < c.AndGateSize()
    ensures Sum(Visited(c, terms, todo - {k}), |terms|) ==
            Xor(Sum(Visited(c, terms, todo), |terms|), terms[c.AndCount(k)])
  {
    hide *;
    c.AndPosition(k);
    var u, u0 := Visited(c, terms, todo - {k}), Visited(c, terms, todo);
    VisitOthers(c, terms, todo, k);
    VisitHere(c, terms, todo, k);
    Cleared(u, u0, c.AndCount(k));
    SumUpdate(u, u0, c.AndCount(k));
  }

  lemma Cleared(u: seq<Block>, u0: seq<Block>, x: nat)
    requires |u| == |u0| && x < |u| && u0[x] == Zero() && forall j :: 0 <= j < |u| && j != x ==> u[j] == u0[j]
    ensures u0 == u[x := Zero()]
  {
  }

  lemma VisitOthers(c: Circuit, terms: seq<Block>, todo: set<nat>, k: nat)
    requires c.WellFormed() && |terms| == c.AndGateSize() && k < |c.gates| && c.gates[k].AndGate?
    ensures forall j :: 0 <= j < |terms| && j != c.AndCount(k) ==>
              Visited(c, terms, todo - {k})[j] == Visited(c, terms, todo)[j]
  {
    hide Circuit.AndGates, Visited;
    forall j | 0 <= j < |terms| && j != c.AndCount(k)
      ensures Visited(c, terms, todo - {k})[j] == Visited(c, terms, todo)[j]
    {
      c.AndPositionInverse(j);
      SameMembership(todo, k, c.AndGates(|c.gates|)[j]);
    }
  }

  lemma VisitHere(c: Circuit, terms: seq<Block>, todo: set<nat>, k: nat)
    requires c.WellFormed() && |terms| == c.AndGateSize() && k in todo && k < |c.gates| && c.gates[k].AndGate?
    ensures c.AndCount(k) < |terms|
    ensures Visited(c, terms, todo)[c.AndCount(k)] == Zero()
    ensures Visited(c, terms, todo - {k})[c.AndCount(k)] == terms[c.AndCount(k)]
  {
    hide Circuit.AndGates, Visited;
    c.AndPosition(k);
    VisitedHere(terms[c.AndCount(k)]);
  }

  lemma SameMembership(todo: set<nat>, k: nat, other: nat)
    requires other != k
    ensures other in todo - {k} <==> other in todo
  {
  }

  lemma VisitedHere(term: Block)
    ensures Scale(false, term) == Zero() && Scale(true, term) == term
  {
  }

  /** Unconnected gates contribute nothing. */
  lemma VisitRest(c: Circuit, src: seq<seq<bool>>, macs: seq<Block>, coeff: seq<Block>, w: Wire,
                  entry: map<nat, (bool, bool)>)
    requires c.WellFormed() && |src| == |macs| == c.wireSize
    requires forall i :: 0 <= i < c.wireSize ==> |src[i]| == c.wireSize
    requires w < c.wireSize && |coeff| == c.AndGateSize() && CheckEntry(c, src, entry, w, |c.gates|)
    ensures Sum(Visited(c, WireTerms(c, src, macs, coeff, w), entry.Keys), c.AndGateSize()) == Zero()
  {
    hide Mul;
    var terms := WireTerms(c, src, macs, coeff, w);
    var u := Visited(c, terms, entry.Keys);
    forall j | 0 <= j < |u| ensures u[j] == Zero() {
      c.AndPositionInverse(j);
      var k := c.AndGates(|c.gates|)[j];
      if k !in entry {
        assert Connected(c, src, w, k) == (false, false);
        XorZero(Zero());
        assert MacTerm(c, src, macs, w, j) == Zero();
        MulZero(coeff[j]);
      }
    }
    SumZero(u, |u|);
  }

  /** One entry of a wire's map: which MACs it selects. */
  function SelectMacs(connected: (bool, bool), mac0: Block, mac1: Block): Block {
    if connected == (true, true) then Xor(mac0, mac1) else if connected.0 then mac1 else mac0
  }

  lemma SelectedTerm(c: Circuit, src: seq<seq<bool>>, macs: seq<Block>, w: Wire, k: nat)
    requires c.WellFormed() && |src| == |macs| == c.wireSize
    requires forall i :: 0 <= i < c.wireSize ==> |src[i]| == c.wireSize
    requires w < c.wireSize && k < |c.gates| && c.gates[k].AndGate? && Connected(c, src, w, k) != (false, false)
    ensures c.AndCount(k) < c.AndGateSize() && c.gates[k].in0 < c.wireSize && c.gates[k].in1 < c.wireSize
    ensures SelectMacs(Connected(c, src, w, k), macs[c.gates[k].in0], macs[c.gates[k].in1]) ==
            MacTerm(c, src, macs, w, c.AndCount(k))
  {
    c.AndPosition(k);
    var i := c.AndCount(k);
    assert In0(c, i) == c.gates[k].in0 && In1(c, i) == c.gates[k].in1;
    XorZero(macs[c.gates[k].in0]);
    XorZero(macs[c.gates[k].in1]);
    XorComm(macs[c.gates[k].in0], macs[c.gates[k].in1]);
  }

  /** The block sent for one independent wire, and the hash kept in the accumulator. */
  method GarblerWire(c: Circuit, t: Order, h: LabelHash, data: GcCheckData, ghost src: seq<seq<bool>>,
                     pre: PreprocessedData, gc: GarbledCircuit, coeff: seq<Block>, w: Wire)
    returns (gk: Block, ck: Block)
    requires c.WellFormed() && OrderFor(c, t) && pre.Shaped(c) && |gc.label0| == |gc.label1| == c.wireSize
    requires |src| == c.wireSize && forall i :: 0 <= i < c.wireSize ==> |src[i]| == c.wireSize
    requires GcCheckDataFor(c, src, data, |c.gates|) && |coeff| == c.AndGateSize()
    requires w < c.wireSize && Independent(c, w)
    ensures ck == h(gc.label0[w], w, 2)
    ensures gk == Xor(Xor(Sum(WireTerms(c, src, pre.masks.macs, coeff, w), c.AndGateSize()), ck), h(gc.label1[w], w, 2))
  {
    hide Mul, MacTerm, IndependentIndexMap, Independent, CheckEntry;
    IndexMapBijection(c, t);
    var ak1 := GarblerMacs(c, t, data[IndependentIndexMap(c, t, w)], src, pre, coeff, w);
    ck := h(gc.label0[w], w, 2);
    gk := Xor(ak1, ck);
    gk := Xor(gk, h(gc.label1[w], w, 2));
  }

  /** The loop over the wire's map, in whatever order it is walked. */
  method GarblerMacs(c: Circuit, t: Order, gcCheckData: map<nat, (bool, bool)>, ghost src: seq<seq<bool>>,
                     pre: PreprocessedData, coeff: seq<Block>, ghost w: Wire) returns (ak1: Block)
    requires c.WellFormed() && OrderFor(c, t) && pre.Shaped(c)
    requires |src| == c.wireSize && forall i :: 0 <= i < c.wireSize ==> |src[i]| == c.wireSize
    requires w < c.wireSize && CheckEntry(c, src, gcCheckData, w, |c.gates|) && |coeff| == c.AndGateSize()
    ensures ak1 == Sum(WireTerms(c, src, pre.masks.macs, coeff, w), c.AndGateSize())
  {
    hide Mul, Connected, MacTerm, Sum, Visited, WireTerms;
    ghost var terms := WireTerms(c, src, pre.masks.macs, coeff, w);
    ak1 := Zero();
    var todo := gcCheckData.Keys;
    VisitRest(c, src, pre.masks.macs, coeff, w, gcCheckData);
    while todo != {}
      invariant todo <= gcCheckData.Keys
      invariant ak1 == Sum(Visited(c, terms, todo), |terms|)
      decreases todo
    {
      var gateIndex :| gateIndex in todo;
      VisitStep(c, terms, todo, gateIndex);
      assert OrderGate(c, t, gateIndex);
      SelectedTerm(c, src, pre.masks.macs, w, gateIndex);
      var gate := c.gates[gateIndex];
      var macTerm := SelectMacs(gcCheckData[gateIndex], pre.masks.GetMac(0, gate.in0), pre.masks.GetMac(0, gate.in1));
      ak1 := Xor(ak1, Mul(macTerm, coeff[t.andGateOrder[gateIndex]]));
      todo := todo - {gateIndex};
    }
    assert Visited(c, terms, {}) == terms;
  }

  /** Hashes of the zero labels, in wire order. */
  function WireHashes(c: Circuit, h: LabelHash, label0: seq<Block>): (r: seq<Block>)
    requires c.WellFormed() && |label0| == c.wireSize
    ensures |r| == |c.IndependentWires()|
    ensures forall i :: 0 <= i < |r| ==> var w := c.IndependentWires()[i]; r[i] == h(label0[w], w, 2)
  {
    seq(|c.IndependentWires()|, i requires 0 <= i < |c.IndependentWires()| =>
      var w := c.IndependentWires()[i]; h(label0[w], w, 2))
  }

  function SentBlock(c: Circuit, h: LabelHash, src: seq<seq<bool>>, pre: PreprocessedData, gc: GarbledCircuit,
                     coeff: seq<Block>, i: nat): Block
    requires c.WellFormed() && pre.Shaped(c) && |gc.label0| == |gc.label1| == c.wireSize && |coeff| == c.AndGateSize()
    requires |src| == c.wireSize && forall w :: 0 <= w < c.wireSize ==> |src[w]| == c.wireSize
    requires i < |c.IndependentWires()|
  {
    var w := c.IndependentWires()[i];
    Xor(Xor(Sum(WireTerms(c, src, pre.masks.macs, coeff, w), c.AndGateSize()), h(gc.label0[w], w, 2)),
        h(gc.label1[w], w, 2))
  }

  /** MACs added for the flip bits of a gate's inputs. */
  function CalcFlipMacTerm(flip0: bool, flip1: bool, mac0: Block, mac1: Block): (r: Block)
    ensures r == Xor(Scale(flip0, mac1), Scale(flip1, mac0))
  {
    var sum := Zero();
    var sum := if flip0 then Xor(sum, mac1) else sum;
    if flip1 then Xor(sum, mac0) else sum
  }

  /** The garbler's constant for AND gate i. */
  function Ak0(c: Circuit, flip: seq<bool>, pre: PreprocessedData, i: nat): Block
    requires c.WellFormed() && pre.Shaped(c) && |flip| == c.wireSize && i < c.AndGateSize()
  {
    AndInputsInRange(c, i);
    Xor(Xor(pre.masks.macs[c.AndAt(i).out], pre.beaverTripleShares.macs[i]),
        CalcFlipMacTerm(flip[In0(c, i)], flip[In1(c, i)], pre.masks.macs[In0(c, i)], pre.masks.macs[In1(c, i)]))
  }

  function Ak0Terms(c: Circuit, flip: seq<bool>, pre: PreprocessedData): (r: seq<Block>)
    requires c.WellFormed() && pre.Shaped(c) && |flip| == c.wireSize
    ensures |r| == c.AndGateSize() && forall i :: 0 <= i < |r| ==> r[i] == Ak0(c, flip, pre, i)
  {
    seq(c.AndGateSize(), i requires 0 <= i < c.AndGateSize() => Ak0(c, flip, pre, i))
  }

  /** What the garbler has sent and added up after the first n independent wires. */
  ghost predicate GarblerSoFar(c: Circuit, h: LabelHash, src: seq<seq<bool>>, pre: PreprocessedData, gc: GarbledCircuit,
                               coeff: seq<Block>, n: nat, sent: seq<Block>, accumulator: Block)
    requires c.WellFormed() && pre.Shaped(c) && |gc.label0| == |gc.label1| == c.wireSize && |coeff| == c.AndGateSize()
    requires |src| == c.wireSize && forall w :: 0 <= w < c.wireSize ==> |src[w]| == c.wireSize
  {
    && |sent| == n <= |c.IndependentWires()|
    && accumulator == Sum(WireHashes(c, h, gc.label0), n)
    && forall i :: 0 <= i < n ==> sent[i] == SentBlock(c, h, src, pre, gc, coeff, i)
  }

  /** The garbler's side: one block per independent wire, then its accumulator. */
  method GarblerAccumulate(c: Circuit, t: Order, h: LabelHash, data: GcCheckData, m: XORSourceMatrix,
                           pre: PreprocessedData, gc: GarbledCircuit, coeff: seq<Block>)
    returns (sent: seq<Block>, accumulator: Block)
    requires c.WellFormed() && OrderFor(c, t) && pre.Shaped(c) && |gc.label0| == |gc.label1| == c.wireSize
    requires m.Valid() && m.mat.rowSize == c.wireSize
    requires GcCheckDataFor(c, m.Rows(), data, |c.gates|) && |coeff| == c.AndGateSize()
    ensures |sent| == |c.IndependentWires()|
    ensures forall i :: 0 <= i < |sent| ==> sent[i] == SentBlock(c, h, m.Rows(), pre, gc, coeff, i)
    ensures accumulator == Xor(Sum(WireHashes(c, h, gc.label0), |sent|),
                               InnerProduct(Ak0Terms(c, m.flip, pre), coeff, c.AndGateSize()))
  {
    hide Mul, OrderGate, Circuit.IndependentWires, Ak0Terms, CheckEntry, InnerProduct, SentBlock, WireHashes;
    ghost var src := m.Rows();
    accumulator, sent := Zero(), [];
    for w := 0 to c.TotalInputSize()
      invariant GarblerSoFar(c, h, src, pre, gc, coeff, w, sent, accumulator)
    {
      hide GarblerSoFar;
      c.WireAt(w);
      sent, accumulator := GarblerStep(c, t, h, data, src, pre, gc, coeff, w, w, sent, accumulator);
    }
    var ak0Terms;
    sent, accumulator, ak0Terms := GarblerGates(c, t, h, data, src, m.flip, pre, gc, coeff, sent, accumulator);
    SoFarDone(c, h, src, pre, gc, coeff, sent, accumulator);
    accumulator := Xor(accumulator, InnerProduct(ak0Terms, coeff, c.AndGateSize()));
  }

  /** The loop over AND gates: each output wire's block, and each gate's constant. */
  method GarblerGates(c: Circuit, t: Order, h: LabelHash, data: GcCheckData, ghost src: seq<seq<bool>>, flip: seq<bool>,
                      pre: PreprocessedData, gc: GarbledCircuit, coeff: seq<Block>, sent: seq<Block>,
                      accumulator: Block)
    returns (sent': seq<Block>, accumulator': Block, ak0Terms: seq<Block>)
    requires c.WellFormed() && OrderFor(c, t) && pre.Shaped(c) && |gc.label0| == |gc.label1| == c.wireSize
    requires |src| == |flip| == c.wireSize && forall i :: 0 <= i < c.wireSize ==> |src[i]| == c.wireSize
    requires GcCheckDataFor(c, src, data, |c.gates|) && |coeff| == c.AndGateSize()
    requires GarblerSoFar(c, h, src, pre, gc, coeff, c.TotalInputSize(), sent, accumulator)
    ensures GarblerSoFar(c, h, src, pre, gc, coeff, c.TotalInputSize() + c.AndGateSize(), sent', accumulator')
    ensures ak0Terms == Ak0Terms(c, flip, pre)
  {
    hide GarblerSoFar, Ak0, Ak0Terms, GcCheckDataFor, OrderGate, Circuit.AndGates, Circuit.IndependentWires,
         Circuit.Available;
    NoGates(c);
    sent', accumulator', ak0Terms := sent, accumulator, [];
    for gateIter := 0 to |c.gates|
      invariant c.AndCount(gateIter) <= c.AndGateSize()
      invariant GarblerSoFar(c, h, src, pre, gc, coeff, c.TotalInputSize() + c.AndCount(gateIter), sent', accumulator')
      invariant |ak0Terms| == c.AndCount(gateIter)
      invariant forall j :: 0 <= j < |ak0Terms| ==> ak0Terms[j] == Ak0(c, flip, pre, j)
    {
      NextCount(c, gateIter);
      if c.gates[gateIter].AndGate? {
        sent', accumulator' := GarblerRound(c, t, h, data, src, pre, gc, coeff, gateIter, sent', accumulator');
        var ak0 := GarblerConstant(c, flip, pre, |ak0Terms|);
        ak0Terms := ak0Terms + [ak0];
      }
    }
  }

  lemma NoGates(c: Circuit)
    ensures c.AndCount(0) == 0 && c.AndGateSize() == c.AndCount(|c.gates|)
  {
  }

  lemma NextCount(c: Circuit, k: nat)
    requires k < |c.gates|
    ensures c.AndCount(k + 1) == c.AndCount(k) + (if c.gates[k].AndGate? then 1 else 0)
    ensures c.AndCount(k + 1) <= c.AndGateSize()
  {
    c.AndGatesPrefix(k + 1, |c.gates|);
  }

  /** One AND gate: its output wire's block and hash. */
  method GarblerRound(c: Circuit, t: Order, h: LabelHash, data: GcCheckData, ghost src: seq<seq<bool>>,
                      pre: PreprocessedData, gc: GarbledCircuit, coeff: seq<Block>, k: nat, sent: seq<Block>,
                      accumulator: Block)
    returns (sent': seq<Block>, accumulator': Block)
    requires c.WellFormed() && OrderFor(c, t) && pre.Shaped(c) && |gc.label0| == |gc.label1| == c.wireSize
    requires |src| == c.wireSize && forall i :: 0 <= i < c.wireSize ==> |src[i]| == c.wireSize
    requires GcCheckDataFor(c, src, data, |c.gates|) && |coeff| == c.AndGateSize()
    requires k < |c.gates| && c.gates[k].AndGate? && c.AndCount(k) < c.AndGateSize()
    requires GarblerSoFar(c, h, src, pre, gc, coeff, c.TotalInputSize() + c.AndCount(k), sent, accumulator)
    ensures GarblerSoFar(c, h, src, pre, gc, coeff, c.TotalInputSize() + c.AndCount(k) + 1, sent', accumulator')
  {
    hide GarblerSoFar, Circuit.IndependentWires, GcCheckDataFor, OrderGate, Circuit.AndGates;
    c.AndPosition(k);
    c.WireAt(c.TotalInputSize() + c.AndCount(k));
    sent', accumulator' :=
      GarblerStep(c, t, h, data, src, pre, gc, coeff, c.gates[k].out, c.TotalInputSize() + c.AndCount(k), sent,
                  accumulator);
  }

  lemma SoFarDone(c: Circuit, h: LabelHash, src: seq<seq<bool>>, pre: PreprocessedData, gc: GarbledCircuit,
                  coeff: seq<Block>, sent: seq<Block>, accumulator: Block)
    requires c.WellFormed() && pre.Shaped(c) && |gc.label0| == |gc.label1| == c.wireSize && |coeff| == c.AndGateSize()
    requires |src| == c.wireSize && forall w :: 0 <= w < c.wireSize ==> |src[w]| == c.wireSize
    requires GarblerSoFar(c, h, src, pre, gc, coeff, c.TotalInputSize() + c.AndGateSize(), sent, accumulator)
    ensures |sent| == |c.IndependentWires()| && accumulator == Sum(WireHashes(c, h, gc.label0), |sent|)
    ensures forall i :: 0 <= i < |sent| ==> sent[i] == SentBlock(c, h, src, pre, gc, coeff, i)
  {
    hide Sum, WireHashes, SentBlock, Circuit.IndependentWires, Circuit.WellFormed, Circuit.AndGates;
  }

  /** One independent wire: send its block, add its hash. */
  method GarblerStep(c: Circuit, t: Order, h: LabelHash, data: GcCheckData, ghost src: seq<seq<bool>>,
                     pre: PreprocessedData, gc: GarbledCircuit, coeff: seq<Block>, w: Wire, ghost i: nat,
                     sent: seq<Block>, accumulator: Block)
    returns (sent': seq<Block>, accumulator': Block)
    requires c.WellFormed() && OrderFor(c, t) && pre.Shaped(c) && |gc.label0| == |gc.label1| == c.wireSize
    requires |src| == c.wireSize && forall i :: 0 <= i < c.wireSize ==> |src[i]| == c.wireSize
    requires GcCheckDataFor(c, src, data, |c.gates|) && |coeff| == c.AndGateSize()
    requires i < |c.IndependentWires()| && c.IndependentWires()[i] == w && Independent(c, w)
    requires GarblerSoFar(c, h, src, pre, gc, coeff, i, sent, accumulator)
    ensures GarblerSoFar(c, h, src, pre, gc, coeff, i + 1, sent', accumulator')
  {
    hide Mul, Xor, WireTerms, GcCheckDataFor, OrderFor, Circuit.IndependentWires, WireHashes, Independent,
         Circuit.WellFormed;
    var gk, ck := GarblerWire(c, t, h, data, src, pre, gc, coeff, w);
    sent', accumulator' := sent + [gk], Xor(accumulator, ck);
  }

  method GarblerConstant(c: Circuit, flip: seq<bool>, pre: PreprocessedData, andGateIter: nat) returns (ak0: Block)
    requires c.WellFormed() && pre.Shaped(c) && |flip| == c.wireSize && andGateIter < c.AndGateSize()
    ensures ak0 == Ak0(c, flip, pre, andGateIter)
  {
    AndInputsInRange(c, andGateIter);
    var gate := c.AndAt(andGateIter);
    ak0 := Xor(pre.masks.GetMac(0, gate.out), pre.beaverTripleShares.GetMac(0, andGateIter));
    ak0 := Xor(ak0, CalcFlipMacTerm(flip[gate.in0], flip[gate.in1], pre.masks.GetMac(0, gate.in0),
                                    pre.masks.GetMac(0, gate.in1)));
  }

  // ---------------------------------------------------------------- what the evaluator adds up

  /** Hash of the held label, plus the received block where the masked value is one. */
  function EvaluatorWireTerm(h: LabelHash, r: EvaluateResult, w: Wire, received: Block): Block
    requires w < |r.labels| == |r.maskedValues|
  {
    Xor(h(r.labels[w], w, 2), Scale(r.maskedValues[w], received))
  }

  function EvaluatorWireTerms(c: Circuit, h: LabelHash, r: EvaluateResult, received: seq<Block>): (v: seq<Block>)
    requires c.WellFormed() && |r.labels| == |r.maskedValues| == c.wireSize && |received| == |c.IndependentWires()|
    ensures |v| == |c.IndependentWires()|
    ensures forall i :: 0 <= i < |v| ==>
              v[i] == EvaluatorWireTerm(h, r, c.IndependentWires()[i], received[i])
  {
    seq(|c.IndependentWires()|, i requires 0 <= i < |c.IndependentWires()| =>
      EvaluatorWireTerm(h, r, c.IndependentWires()[i], received[i]))
  }

  function BPrime(c: Circuit, pre: PreprocessedData, v: seq<bool>, i: nat): bool
    requires c.WellFormed() && pre.Shaped(c) && |v| == c.wireSize && i < c.AndGateSize()
  {
    AndInputsInRange(c, i);
    var (in0, in1, out) := (In0(c, i), In1(c, i), c.AndAt(i).out);
    (((((v[in0] && v[in1]) != v[out]) != pre.masks.bits[out]) != pre.beaverTripleShares.bits[i]) !=
     (v[in0] && pre.masks.bits[in1])) != (v[in1] && pre.masks.bits[in0])
  }

  function GateTerm(c: Circuit, pre: PreprocessedData, v: seq<bool>, i: nat): Block
    requires c.WellFormed() && pre.Shaped(c) && |v| == c.wireSize && i < c.AndGateSize()
  {
    AndInputsInRange(c, i);
    var (in0, in1, out) := (In0(c, i), In1(c, i), c.AndAt(i).out);
    Xor(Xor(Xor(Xor(Scale(BPrime(c, pre, v, i), pre.maskKeys.globalKeys[0]), pre.maskKeys.localKeys[out]),
                pre.beaverTripleKeys.localKeys[i]),
            Scale(v[in0], pre.maskKeys.localKeys[in1])),
        Scale(v[in1], pre.maskKeys.localKeys[in0]))
  }

  function GateTerms(c: Circuit, pre: PreprocessedData, v: seq<bool>): (r: seq<Block>)
    requires c.WellFormed() && pre.Shaped(c) && |v| == c.wireSize
    ensures |r| == c.AndGateSize() && forall i :: 0 <= i < |r| ==> r[i] == GateTerm(c, pre, v, i)
  {
    seq(c.AndGateSize(), i requires 0 <= i < c.AndGateSize() => GateTerm(c, pre, v, i))
  }

  method EvaluatorAccumulate(c: Circuit, h: LabelHash, pre: PreprocessedData, r: EvaluateResult, coeff: seq<Block>,
                             received: seq<Block>) returns (accumulator: Block)
    requires c.WellFormed() && pre.Shaped(c) && |r.labels| == |r.maskedValues| == c.wireSize
    requires |received| == |c.IndependentWires()| && |coeff| == c.AndGateSize()
    ensures accumulator == Xor(Sum(EvaluatorWireTerms(c, h, r, received), |received|),
                               InnerProduct(coeff, GateTerms(c, pre, r.maskedValues), c.AndGateSize()))
  {
    hide *;
    ghost var terms := EvaluatorWireTerms(c, h, r, received);
    accumulator := EvaluatorInputs(c, h, r, received);
    var B;
    accumulator, B := EvaluatorGates(c, h, pre, r, received, accumulator);
    accumulator := Xor(accumulator, InnerProduct(coeff, B, c.AndGateSize()));
  }

  /** The loop over input wires. */
  method EvaluatorInputs(c: Circuit, h: LabelHash, r: EvaluateResult, received: seq<Block>) returns (accumulator: Block)
    requires c.WellFormed() && |r.labels| == |r.maskedValues| == c.wireSize && |received| == |c.IndependentWires()|
    ensures accumulator == Sum(EvaluatorWireTerms(c, h, r, received), c.TotalInputSize())
  {
    hide EvaluatorWireTerms, EvaluatorWireTerm, Circuit.IndependentWires;
    ghost var terms := EvaluatorWireTerms(c, h, r, received);
    accumulator := Zero();
    for w := 0 to c.TotalInputSize()
      invariant accumulator == Sum(terms, w)
    {
      c.WireAt(w);
      accumulator := EvaluatorWire(h, r, accumulator, w, received[w]);
    }
  }

  /** The loop over AND gates: output wires and the evaluator's gate terms. */
  method EvaluatorGates(c: Circuit, h: LabelHash, pre: PreprocessedData, r: EvaluateResult, received: seq<Block>,
                        start: Block)
    returns (accumulator: Block, B: seq<Block>)
    requires c.WellFormed() && pre.Shaped(c) && |r.labels| == |r.maskedValues| == c.wireSize
    requires |received| == |c.IndependentWires()|
    requires start == Sum(EvaluatorWireTerms(c, h, r, received), c.TotalInputSize())
    ensures accumulator == Sum(EvaluatorWireTerms(c, h, r, received), |received|)
    ensures B == GateTerms(c, pre, r.maskedValues)
  {
    hide *;
    EvaluatorStarts(c, h, pre, r, received, start);
    accumulator, B := start, [];
    for gateIter := 0 to |c.gates|
      invariant EvaluatorSoFar(c, h, pre, r, received, gateIter, accumulator, B)
    {
      if c.gates[gateIter].AndGate? {
        accumulator, B := EvaluatorRound(c, h, pre, r, received, gateIter, accumulator, B);
      } else {
        EvaluatorSkips(c, h, pre, r, received, gateIter, accumulator, B);
      }
    }
    EvaluatorEnds(c, h, pre, r, received, accumulator, B);
  }

  lemma EvaluatorStarts(c: Circuit, h: LabelHash, pre: PreprocessedData, r: EvaluateResult, received: seq<Block>,
                        start: Block)
    requires c.WellFormed() && pre.Shaped(c) && |r.labels| == |r.maskedValues| == c.wireSize
    requires |received| == |c.IndependentWires()|
    requires start == Sum(EvaluatorWireTerms(c, h, r, received), c.TotalInputSize())
    ensures EvaluatorSoFar(c, h, pre, r, received, 0, start, [])
  {
    hide EvaluatorWireTerms, Circuit.IndependentWires;
  }

  lemma EvaluatorEnds(c: Circuit, h: LabelHash, pre: PreprocessedData, r: EvaluateResult, received: seq<Block>,
                      accumulator: Block, B: seq<Block>)
    requires c.WellFormed() && pre.Shaped(c) && |r.labels| == |r.maskedValues| == c.wireSize
    requires |received| == |c.IndependentWires()| && EvaluatorSoFar(c, h, pre, r, received, |c.gates|, accumulator, B)
    ensures accumulator == Sum(EvaluatorWireTerms(c, h, r, received), |received|)
    ensures B == GateTerms(c, pre, r.maskedValues)
  {
    hide EvaluatorWireTerms, Circuit.IndependentWires, GateTerm, Sum, Circuit.AndGates;
    assert |B| == c.AndGateSize() && |received| == c.TotalInputSize() + |B|;
  }

  /** What the evaluator has added up when it reaches gate k. */
  ghost predicate EvaluatorSoFar(c: Circuit, h: LabelHash, pre: PreprocessedData, r: EvaluateResult,
                                 received: seq<Block>, k: nat, accumulator: Block, B: seq<Block>)
    requires c.WellFormed() && pre.Shaped(c) && |r.labels| == |r.maskedValues| == c.wireSize
    requires |received| == |c.IndependentWires()| && k <= |c.gates|
  {
    && |B| == c.AndCount(k) <= c.AndGateSize()
    && accumulator == Sum(EvaluatorWireTerms(c, h, r, received), c.TotalInputSize() + |B|)
    && forall j :: 0 <= j < |B| ==> B[j] == GateTerm(c, pre, r.maskedValues, j)
  }

  lemma EvaluatorSkips(c: Circuit, h: LabelHash, pre: PreprocessedData, r: EvaluateResult, received: seq<Block>,
                       k: nat, accumulator: Block, B: seq<Block>)
    requires c.WellFormed() && pre.Shaped(c) && |r.labels| == |r.maskedValues| == c.wireSize
    requires |received| == |c.IndependentWires()| && k < |c.gates| && !c.gates[k].AndGate?
    requires EvaluatorSoFar(c, h, pre, r, received, k, accumulator, B)
    ensures EvaluatorSoFar(c, h, pre, r, received, k + 1, accumulator, B)
  {
    hide GateTerm, EvaluatorWireTerms, Circuit.IndependentWires;
  }

  /** One AND gate: its output wire, and its term. */
  method EvaluatorRound(c: Circuit, h: LabelHash, pre: PreprocessedData, r: EvaluateResult, received: seq<Block>,
                        k: nat, accumulator: Block, B: seq<Block>) returns (accumulator': Block, B': seq<Block>)
    requires c.WellFormed() && pre.Shaped(c) && |r.labels| == |r.maskedValues| == c.wireSize
    requires |received| == |c.IndependentWires()| && k < |c.gates| && c.gates[k].AndGate?
    requires EvaluatorSoFar(c, h, pre, r, received, k, accumulator, B)
    ensures EvaluatorSoFar(c, h, pre, r, received, k + 1, accumulator', B')
  {
    hide EvaluatorWireTerms, EvaluatorWireTerm, GateTerm, Circuit.IndependentWires, Circuit.AndGates;
    c.AndPosition(k);
    c.AndGatesPrefix(k + 1, |c.gates|);
    var andGateIter := |B|;
    c.WireAt(c.TotalInputSize() + andGateIter);
    var tmpB := EvaluatorGate(c, pre, r.maskedValues, andGateIter);
    accumulator' := EvaluatorWire(h, r, accumulator, c.gates[k].out, received[c.TotalInputSize() + andGateIter]);
    B' := B + [tmpB];
  }

  method EvaluatorWire(h: LabelHash, r: EvaluateResult, before: Block, w: Wire, received: Block)
    returns (accumulator: Block)
    requires w < |r.labels| == |r.maskedValues|
    ensures accumulator == Xor(before, EvaluatorWireTerm(h, r, w, received))
  {
    accumulator := Xor(before, h(r.labels[w], w, 2));
    XorAssoc(before, h(r.labels[w], w, 2), received);
    XorZero(h(r.labels[w], w, 2));
    if r.maskedValues[w] {
      accumulator := Xor(accumulator, received);
    }
  }

  method EvaluatorGate(c: Circuit, pre: PreprocessedData, v: seq<bool>, andGateIter: nat) returns (tmpB: Block)
    requires c.WellFormed() && pre.Shaped(c) && |v| == c.wireSize && andGateIter < c.AndGateSize()
    ensures tmpB == GateTerm(c, pre, v, andGateIter)
  {
    AndInputsInRange(c, andGateIter);
    var gate := c.AndAt(andGateIter);
    tmpB := Scale(BPrime(c, pre, v, andGateIter), pre.maskKeys.globalKeys[0]);
    tmpB := Xor(tmpB, pre.maskKeys.GetLocalKey(0, gate.out));
    tmpB := Xor(tmpB, pre.beaverTripleKeys.GetLocalKey(0, andGateIter));
    tmpB := Xor(tmpB, Scale(v[gate.in0], pre.maskKeys.GetLocalKey(0, gate.in1)));
    tmpB := Xor(tmpB, Scale(v[gate.in1], pre.maskKeys.GetLocalKey(0, gate.in0)));
  }

  // ---------------------------------------------------------------- the exact difference

  /** The evaluator holds, on every independent wire, the label of its masked value. */
  ghost predicate LabelsMatch(c: Circuit, gc: GarbledCircuit, r: EvaluateResult)
    requires c.WellFormed() && |gc.label0| == |gc.label1| == |r.labels| == |r.maskedValues| == c.wireSize
  {
    forall i :: 0 <= i < |c.IndependentWires()| ==>
      var w := c.IndependentWires()[i]; r.labels[w] == if r.maskedValues[w] then gc.label1[w] else gc.label0[w]
  }

  /** Masked values follow the linear gates. */
  ghost predicate MaskedLinear(c: Circuit, v: seq<bool>)
    requires c.WellFormed() && |v| == c.wireSize
  {
    forall k :: 0 <= k < |c.gates| ==> MaskedGate(c, v, k)
  }

  ghost predicate MaskedGate(c: Circuit, v: seq<bool>, k: nat)
    requires c.WellFormed() && |v| == c.wireSize && k < |c.gates|
  {
    var g := c.gates[k];
    assert c.Available(k, g.in0) && (g.NotGate? || c.Available(k, g.in1));
    match g
    case AndGate(_, _, _) => true
    case XorGate(in0, in1, out) => v[out] == (v[in0] != v[in1])
    case NotGate(in0, out) => v[out] == !v[in0]
  }

  /** How far AND gate i is from consistent: its masked values against its mask shares and triple. */
  function GateError(c: Circuit, pg: PreprocessedData, pe: PreprocessedData, v: seq<bool>, i: nat): bool
    requires c.WellFormed() && pg.Shaped(c) && pe.Shaped(c) && |v| == c.wireSize && i < c.AndGateSize()
  {
    AndInputsInRange(c, i);
    var (in0, in1, out) := (In0(c, i), In1(c, i), c.AndAt(i).out);
    (((((v[in0] && v[in1]) != v[out]) != (pg.masks.bits[out] != pe.masks.bits[out])) !=
      (pg.beaverTripleShares.bits[i] != pe.beaverTripleShares.bits[i])) !=
     (v[in0] && (pg.masks.bits[in1] != pe.masks.bits[in1]))) != (v[in1] && (pg.masks.bits[in0] != pe.masks.bits[in0]))
  }

  /** Challenges of the inconsistent gates. */
  function ErrorTerms(c: Circuit, pg: PreprocessedData, pe: PreprocessedData, v: seq<bool>,
                      coeff: seq<Block>): (r: seq<Block>)
    requires c.WellFormed() && pg.Shaped(c) && pe.Shaped(c) && |v| == c.wireSize && |coeff| == c.AndGateSize()
    ensures |r| == c.AndGateSize() && forall i :: 0 <= i < |r| ==> r[i] == Scale(GateError(c, pg, pe, v, i), coeff[i])
  {
    seq(c.AndGateSize(), i requires 0 <= i < c.AndGateSize() => Scale(GateError(c, pg, pe, v, i), coeff[i]))
  }

  lemma IndependentDistinct(c: Circuit)
    requires c.WellFormed()
    ensures forall i, j :: 0 <= i < j < |c.IndependentWires()| ==> c.IndependentWires()[i] != c.IndependentWires()[j]
  {
    forall i, j | 0 <= i < j < |c.IndependentWires()| ensures c.IndependentWires()[i] != c.IndependentWires()[j] {
      if j >= c.TotalInputSize() {
        c.AndPositionInverse(j - c.TotalInputSize());
        if i >= c.TotalInputSize() {
          c.AndPositionInverse(i - c.TotalInputSize());
        }
      }
    }
  }

  /** A block per wire, scaled by the masked values, follows the gates with the block itself as shift. */
  lemma ScaledValues(c: Circuit, v: seq<bool>, x: Block) returns (u: seq<Block>)
    requires c.WellFormed() && |v| == c.wireSize && MaskedLinear(c, v)
    ensures |u| == c.wireSize && forall w :: 0 <= w < c.wireSize ==> u[w] == Scale(v[w], x)
    ensures FollowsLinear(c, u, x)
  {
    u := seq(c.wireSize, w requires 0 <= w < c.wireSize => Scale(v[w], x));
    forall k | 0 <= k < |c.gates| ensures LinearGate(c, u, x, k) {
      assert MaskedGate(c, v, k);
      var g := c.gates[k];
      assert c.Available(k, g.in0) && (g.NotGate? || c.Available(k, g.in1));
      if g.XorGate? {
        ScaleSum(v[g.in0], v[g.in1], x);
      } else if g.NotGate? {
        ScaledNot(v[g.in0], x);
      }
    }
  }

  lemma ScaledNot(s: bool, x: Block)
    ensures Scale(!s, x) == Xor(Scale(s, x), x)
  {
  }

  /** Adding a block over the sources of a wire that carry a one: the wire's own masked value,
      corrected by its flip bit. */
  lemma OverSources(c: Circuit, src: seq<seq<bool>>, flip: seq<bool>, v: seq<bool>, x: Block, wire: Wire,
                    terms: seq<Block>)
    requires c.WellFormed() && SourcesFor(c, src, flip) && |v| == c.wireSize && MaskedLinear(c, v) && wire < c.wireSize
    requires |terms| == |c.IndependentWires()|
    requires forall i :: 0 <= i < |terms| ==>
               var w := c.IndependentWires()[i]; terms[i] == Scale(v[w], Scale(src[wire][w], x))
    ensures Sum(terms, |terms|) == Scale(v[wire] != flip[wire], x)
  {
    hide SourcesFor, FollowsLinear, MaskedLinear, Circuit.IndependentWires;
    var u := ScaledValues(c, v, x);
    OverAllWires(c, src, flip, u, x, wire);
    SourceRow(c, src, flip, wire);
    FlipOver(flip[wire], v[wire], x, Dot(src[wire], u, c.wireSize));
    forall i | 0 <= i < |terms| ensures var w := c.IndependentWires()[i]; terms[i] == Scale(src[wire][w], u[w]) {
      var w := c.IndependentWires()[i];
      ScalesCommute(v[w], src[wire][w], x);
    }
    OverIndependent(c, src, flip, u, wire, terms);
  }

  lemma SourceRow(c: Circuit, src: seq<seq<bool>>, flip: seq<bool>, wire: Wire)
    requires c.WellFormed() && SourcesFor(c, src, flip) && wire < c.wireSize
    ensures |src| == |flip| == c.wireSize && |src[wire]| == c.wireSize
  {
  }

  lemma OverAllWires(c: Circuit, src: seq<seq<bool>>, flip: seq<bool>, u: seq<Block>, x: Block, wire: Wire)
    requires c.WellFormed() && SourcesFor(c, src, flip) && FollowsLinear(c, u, x) && wire < c.wireSize
    ensures u[wire] == Xor(Scale(flip[wire], x), Dot(src[wire], u, c.wireSize))
  {
    hide SourceGate, LinearGate, Dot;
    SourceMeaning(c, src, flip, u, x, |c.gates|);
    assert c.Available(|c.gates|, wire);
    assert Means(c, src, flip, u, x, wire);
  }

  /** Summing along the list of independent wires is summing over the wire's whole source row. */
  lemma OverIndependent(c: Circuit, src: seq<seq<bool>>, flip: seq<bool>, u: seq<Block>, wire: Wire, terms: seq<Block>)
    requires c.WellFormed() && SourcesFor(c, src, flip) && |u| == c.wireSize && wire < c.wireSize
    requires |terms| == |c.IndependentWires()|
    requires forall i :: 0 <= i < |terms| ==> var w := c.IndependentWires()[i]; terms[i] == Scale(src[wire][w], u[w])
    ensures Sum(terms, |terms|) == Dot(src[wire], u, c.wireSize)
  {
    hide SourceGate, Dot, Sum, Circuit.IndependentWires;
    var n, p := c.wireSize, c.IndependentWires();
    SourcesIndependent(c, src, flip, |c.gates|);
    assert c.Available(|c.gates|, wire);
    var all: seq<Block> := seq(n, w requires 0 <= w < n => Scale(src[wire][w], u[w]));
    DotIsSum(src[wire], u, all, n);
    var only: seq<Block> := seq(n, w requires 0 <= w < n => Scale(w in p, all[w]));
    forall w | 0 <= w < n ensures only[w] == all[w] {
      if src[wire][w] { assert Independent(c, w); }
    }
    SumCong(only, all, n);
    IndependentDistinct(c);
    SumReindex(all, p, only, terms);
  }

  lemma ScalesCommute(s: bool, t: bool, x: Block)
    ensures Scale(s, Scale(t, x)) == Scale(t, Scale(s, x))
  {
  }

  lemma FlipOver(f: bool, v: bool, x: Block, d: Block)
    requires Scale(v, x) == Xor(Scale(f, x), d)
    ensures d == Scale(v != f, x)
  {
    assert Xor(Scale(f, x), Xor(Scale(f, x), d)) == d;
    ScaleSum(f, v, x);
  }

  /** What gate j's MACs collect from all independent wires. */
  function Collected(c: Circuit, flip: seq<bool>, macs: seq<Block>, v: seq<bool>, j: nat): Block
    requires c.WellFormed() && |flip| == |macs| == |v| == c.wireSize && j < c.AndGateSize()
  {
    Xor(Scale(v[In0(c, j)] != flip[In0(c, j)], macs[In1(c, j)]),
        Scale(v[In1(c, j)] != flip[In1(c, j)], macs[In0(c, j)]))
  }

  /** Summing gate j's terms over the wires with masked value one. */
  lemma GateColumn(c: Circuit, src: seq<seq<bool>>, flip: seq<bool>, macs: seq<Block>, v: seq<bool>, coeff: Block,
                   j: nat, col: seq<Block>)
    requires c.WellFormed() && SourcesFor(c, src, flip) && |macs| == |v| == c.wireSize && MaskedLinear(c, v)
    requires j < c.AndGateSize()
    requires |col| == |c.IndependentWires()|
    requires forall i :: 0 <= i < |col| ==>
               var w := c.IndependentWires()[i]; col[i] == Scale(v[w], Mul(MacTerm(c, src, macs, w, j), coeff))
    ensures Sum(col, |col|) == Mul(Collected(c, flip, macs, v, j), coeff)
  {
    hide Mul, SourceGate, MaskedGate, Circuit.IndependentWires, Sum;
    var n, p := |col|, c.IndependentWires();
    var s0, s1, m0, m1 := src[In0(c, j)], src[In1(c, j)], macs[In0(c, j)], macs[In1(c, j)];
    var z0: seq<Block> := seq(n, i requires 0 <= i < n => Scale(v[p[i]], Scale(s0[p[i]], m1)));
    var z1: seq<Block> := seq(n, i requires 0 <= i < n => Scale(v[p[i]], Scale(s1[p[i]], m0)));
    var z: seq<Block> := seq(n, i requires 0 <= i < n => Xor(z0[i], z1[i]));
    OverSources(c, src, flip, v, m1, In0(c, j), z0);
    OverSources(c, src, flip, v, m0, In1(c, j), z1);
    SumXor(z0, z1, z, n);
    forall i | 0 <= i < n ensures col[i] == Mul(coeff, z[i]) {
      ColumnEntry(v[p[i]], Scale(s0[p[i]], m1), Scale(s1[p[i]], m0), coeff);
    }
    SumMul(coeff, z, col, n);
    MulComm(coeff, Sum(z, n));
  }

  lemma ColumnEntry(v: bool, a: Block, b: Block, coeff: Block)
    ensures Scale(v, Mul(Xor(a, b), coeff)) == Mul(coeff, Xor(Scale(v, a), Scale(v, b)))
  {
    hide Mul;
    MulScale(v, Xor(a, b), coeff);
    MulComm(Scale(v, Xor(a, b)), coeff);
    assert Scale(v, Xor(a, b)) == Xor(Scale(v, a), Scale(v, b));
  }

  /** The table of all (wire, gate) terms, summed by wire and by gate. */
  lemma WiresThenGates(c: Circuit, src: seq<seq<bool>>, flip: seq<bool>, macs: seq<Block>, v: seq<bool>,
                       coeff: seq<Block>, byWire: seq<Block>, byGate: seq<Block>)
    requires c.WellFormed() && SourcesFor(c, src, flip) && |macs| == |v| == c.wireSize && MaskedLinear(c, v)
    requires |coeff| == |byGate| == c.AndGateSize() && |byWire| == |c.IndependentWires()|
    requires forall i :: 0 <= i < |byWire| ==>
               var w := c.IndependentWires()[i];
               byWire[i] == Scale(v[w], Sum(WireTerms(c, src, macs, coeff, w), |coeff|))
    requires forall j :: 0 <= j < |byGate| ==> byGate[j] == Mul(Collected(c, flip, macs, v, j), coeff[j])
    ensures Sum(byWire, |byWire|) == Sum(byGate, |byGate|)
  {
    hide *;
    var table := MakeTable(c, src, flip, macs, v, coeff, byWire, byGate);
    SumSwap(table, byWire, byGate, |byWire|, |byGate|);
  }

  lemma MakeTable(c: Circuit, src: seq<seq<bool>>, flip: seq<bool>, macs: seq<Block>, v: seq<bool>, coeff: seq<Block>,
                  byWire: seq<Block>, byGate: seq<Block>) returns (table: seq<seq<Block>>)
    requires c.WellFormed() && SourcesFor(c, src, flip) && |macs| == |v| == c.wireSize && MaskedLinear(c, v)
    requires |coeff| == |byGate| == c.AndGateSize() && |byWire| == |c.IndependentWires()|
    requires forall i :: 0 <= i < |byWire| ==>
               var w := c.IndependentWires()[i];
               byWire[i] == Scale(v[w], Sum(WireTerms(c, src, macs, coeff, w), |coeff|))
    requires forall j :: 0 <= j < |byGate| ==> byGate[j] == Mul(Collected(c, flip, macs, v, j), coeff[j])
    ensures |table| == |byWire|
    ensures forall i :: 0 <= i < |byWire| ==> |table[i]| == |byGate| && byWire[i] == Sum(table[i], |byGate|)
    ensures forall j :: 0 <= j < |byGate| ==> byGate[j] == ColumnSum(table, j, |byWire|)
  {
    hide *;
    SourceSizes(c, src, flip);
    table := TermTable(c, src, macs, coeff, v);
    TableRows(c, src, macs, coeff, v, byWire);
    TableColumns(c, src, flip, macs, v, coeff, table, byGate);
  }

  lemma TableRows(c: Circuit, src: seq<seq<bool>>, macs: seq<Block>, coeff: seq<Block>, v: seq<bool>,
                  byWire: seq<Block>)
    requires c.WellFormed() && |src| == |macs| == |v| == c.wireSize
    requires forall i :: 0 <= i < c.wireSize ==> |src[i]| == c.wireSize
    requires |coeff| == c.AndGateSize() && |byWire| == |c.IndependentWires()|
    requires forall i :: 0 <= i < |byWire| ==>
               var w := c.IndependentWires()[i];
               byWire[i] == Scale(v[w], Sum(WireTerms(c, src, macs, coeff, w), |coeff|))
    ensures var table := TermTable(c, src, macs, coeff, v);
            forall i :: 0 <= i < |byWire| ==> |table[i]| == |coeff| && byWire[i] == Sum(table[i], |coeff|)
  {
    hide *;
    forall i | 0 <= i < |byWire|
      ensures |TermTable(c, src, macs, coeff, v)[i]| == |coeff|
      ensures byWire[i] == Sum(TermTable(c, src, macs, coeff, v)[i], |coeff|)
    {
      TableRow(c, src, macs, coeff, v, i);
    }
  }

  lemma TableColumns(c: Circuit, src: seq<seq<bool>>, flip: seq<bool>, macs: seq<Block>, v: seq<bool>,
                     coeff: seq<Block>, table: seq<seq<Block>>, byGate: seq<Block>)
    requires c.WellFormed() && SourcesFor(c, src, flip) && |macs| == |v| == c.wireSize && MaskedLinear(c, v)
    requires |coeff| == |byGate| == c.AndGateSize() && |table| == |c.IndependentWires()|
    requires forall i :: 0 <= i < |table| ==>
               |table[i]| == |coeff| && table[i] == ScaledTerms(c, src, macs, coeff, v, c.IndependentWires()[i])
    requires forall j :: 0 <= j < |byGate| ==> byGate[j] == Mul(Collected(c, flip, macs, v, j), coeff[j])
    ensures forall j :: 0 <= j < |byGate| ==> byGate[j] == ColumnSum(table, j, |table|)
  {
    hide *;
    forall j | 0 <= j < |byGate| ensures byGate[j] == ColumnSum(table, j, |table|) {
      TableColumn(c, src, flip, macs, v, coeff, table, j);
    }
  }

  /** One row per independent wire, one column per AND gate. */
  function TermTable(c: Circuit, src: seq<seq<bool>>, macs: seq<Block>, coeff: seq<Block>,
                     v: seq<bool>): (r: seq<seq<Block>>)
    requires c.WellFormed() && |src| == |macs| == |v| == c.wireSize
    requires forall i :: 0 <= i < c.wireSize ==> |src[i]| == c.wireSize
    requires |coeff| == c.AndGateSize()
    ensures |r| == |c.IndependentWires()|
    ensures forall i :: 0 <= i < |r| ==>
              |r[i]| == |coeff| && r[i] == ScaledTerms(c, src, macs, coeff, v, c.IndependentWires()[i])
  {
    seq(|c.IndependentWires()|, i requires 0 <= i < |c.IndependentWires()| =>
      ScaledTerms(c, src, macs, coeff, v, c.IndependentWires()[i]))
  }

  lemma TableRow(c: Circuit, src: seq<seq<bool>>, macs: seq<Block>, coeff: seq<Block>, v: seq<bool>, i: nat)
    requires c.WellFormed() && |src| == |macs| == |v| == c.wireSize
    requires forall i :: 0 <= i < c.wireSize ==> |src[i]| == c.wireSize
    requires |coeff| == c.AndGateSize() && i < |c.IndependentWires()|
    ensures var w := c.IndependentWires()[i];
            Sum(TermTable(c, src, macs, coeff, v)[i], |coeff|) ==
            Scale(v[w], Sum(WireTerms(c, src, macs, coeff, w), |coeff|))
  {
    hide Mul, Circuit.IndependentWires, Sum, MacTerm;
    var w := c.IndependentWires()[i];
    SumScale(v[w], WireTerms(c, src, macs, coeff, w), TermTable(c, src, macs, coeff, v)[i], |coeff|);
  }

  lemma SourceSizes(c: Circuit, src: seq<seq<bool>>, flip: seq<bool>)
    requires c.WellFormed() && SourcesFor(c, src, flip)
    ensures |src| == |flip| == c.wireSize && forall i :: 0 <= i < c.wireSize ==> |src[i]| == c.wireSize
  {
  }

  lemma TableColumn(c: Circuit, src: seq<seq<bool>>, flip: seq<bool>, macs: seq<Block>, v: seq<bool>, coeff: seq<Block>,
                    table: seq<seq<Block>>, j: nat)
    requires c.WellFormed() && SourcesFor(c, src, flip) && |macs| == |v| == c.wireSize && MaskedLinear(c, v)
    requires j < |coeff| == c.AndGateSize() && |table| == |c.IndependentWires()|
    requires forall i :: 0 <= i < |table| ==>
               |table[i]| == |coeff| && table[i] == ScaledTerms(c, src, macs, coeff, v, c.IndependentWires()[i])
    ensures ColumnSum(table, j, |table|) == Mul(Collected(c, flip, macs, v, j), coeff[j])
  {
    hide Mul, SourceGate, MaskedGate, Circuit.IndependentWires, Sum, ColumnSum, MacTerm, Collected, WireTerms,
         ScaledTerms;
    var col: seq<Block> := seq(|table|, i requires 0 <= i < |table| => table[i][j]);
    ColumnIsSum(table, j, |table|, col);
    GateColumn(c, src, flip, macs, v, coeff[j], j, col);
  }

  function ScaledTerms(c: Circuit, src: seq<seq<bool>>, macs: seq<Block>, coeff: seq<Block>, v: seq<bool>,
                       w: Wire): (r: seq<Block>)
    requires c.WellFormed() && |src| == |macs| == |v| == c.wireSize
    requires forall i :: 0 <= i < c.wireSize ==> |src[i]| == c.wireSize
    requires w < c.wireSize && |coeff| == c.AndGateSize()
    ensures |r| == c.AndGateSize()
    ensures forall j :: 0 <= j < |r| ==>
              r[j] == Scale(v[w], WireTerms(c, src, macs, coeff, w)[j]) ==
              Scale(v[w], Mul(MacTerm(c, src, macs, w, j), coeff[j]))
  {
    seq(c.AndGateSize(), j requires 0 <= j < c.AndGateSize() => Scale(v[w], WireTerms(c, src, macs, coeff, w)[j]))
  }

  /** On one wire: the evaluator's hash becomes the garbler's, and the MAC part stays if the value is one. */
  lemma WireCancels(v: bool, ak1: Block, h0: Block, h1: Block, held: Block)
    requires held == if v then h1 else h0
    ensures Xor(held, Scale(v, Xor(Xor(ak1, h0), h1))) == Xor(h0, Scale(v, ak1))
  {
  }

  /** On one gate: flips cancel, MACs and keys differ by the shares, and the error bit is left. */
  lemma GateIdentity(d: Block, v0: bool, v1: bool, vo: bool, f0: bool, f1: bool,
                     a0: bool, a1: bool, ao: bool, at: bool, b0: bool, b1: bool, bo: bool, bt: bool,
                     k0: Block, k1: Block, ko: Block, kt: Block, m0: Block, m1: Block, mo: Block, mt: Block,
                     ak0: Block, collected: Block, bPrime: bool, term: Block, e: bool)
    requires m0 == Xor(k0, Scale(a0, d)) && m1 == Xor(k1, Scale(a1, d))
    requires mo == Xor(ko, Scale(ao, d)) && mt == Xor(kt, Scale(at, d))
    requires ak0 == Xor(Xor(mo, mt), Xor(Scale(f0, m1), Scale(f1, m0)))
    requires collected == Xor(Scale(v0 != f0, m1), Scale(v1 != f1, m0))
    requires bPrime == ((((((v0 && v1) != vo) != bo) != bt) != (v0 && b1)) != (v1 && b0))
    requires term == Xor(Xor(Xor(Xor(Scale(bPrime, d), ko), kt), Scale(v0, k1)), Scale(v1, k0))
    requires e == ((((((v0 && v1) != vo) != (ao != bo)) != (at != bt)) != (v0 && (a1 != b1))) != (v1 && (a0 != b0)))
    ensures Xor(Xor(ak0, collected), term) == Scale(e, d)
  {
    FlipsCancel(v0, v1, f0, f1, m0, m1, Xor(mo, mt), ak0, collected);
    SharesLeft(d, v0, v1, a0, a1, ao, at, k0, k1, ko, kt, m0, m1, mo, mt);
    KeysCancel(d, v0, v1, k0, k1, ko, kt, bPrime, ((ao != at) != (v0 && a1)) != (v1 && a0),
               Xor(Xor(mo, mt), Xor(Scale(v0, m1), Scale(v1, m0))), term);
  }

  lemma FlipsCancel(v0: bool, v1: bool, f0: bool, f1: bool, m0: Block, m1: Block, m: Block, ak0: Block,
                    collected: Block)
    requires ak0 == Xor(m, Xor(Scale(f0, m1), Scale(f1, m0)))
    requires collected == Xor(Scale(v0 != f0, m1), Scale(v1 != f1, m0))
    ensures Xor(ak0, collected) == Xor(m, Xor(Scale(v0, m1), Scale(v1, m0)))
  {
  }

  lemma SharesLeft(d: Block, v0: bool, v1: bool, a0: bool, a1: bool, ao: bool, at: bool,
                   k0: Block, k1: Block, ko: Block, kt: Block, m0: Block, m1: Block, mo: Block, mt: Block)
    requires m0 == Xor(k0, Scale(a0, d)) && m1 == Xor(k1, Scale(a1, d))
    requires mo == Xor(ko, Scale(ao, d)) && mt == Xor(kt, Scale(at, d))
    ensures Xor(Xor(mo, mt), Xor(Scale(v0, m1), Scale(v1, m0))) ==
            Xor(Xor(Xor(ko, kt), Xor(Scale(v0, k1), Scale(v1, k0))), Scale(((ao != at) != (v0 && a1)) != (v1 && a0), d))
  {
  }

  lemma KeysCancel(d: Block, v0: bool, v1: bool, k0: Block, k1: Block, ko: Block, kt: Block, bPrime: bool, s: bool,
                   m: Block, term: Block)
    requires m == Xor(Xor(Xor(ko, kt), Xor(Scale(v0, k1), Scale(v1, k0))), Scale(s, d))
    requires term == Xor(Xor(Xor(Xor(Scale(bPrime, d), ko), kt), Scale(v0, k1)), Scale(v1, k0))
    ensures Xor(m, term) == Scale(bPrime != s, d)
  {
  }

  function CollectedTerms(c: Circuit, flip: seq<bool>, macs: seq<Block>, v: seq<bool>,
                          coeff: seq<Block>): (r: seq<Block>)
    requires c.WellFormed() && |flip| == |macs| == |v| == c.wireSize && |coeff| == c.AndGateSize()
    ensures |r| == |coeff| && forall j :: 0 <= j < |r| ==> r[j] == Mul(Collected(c, flip, macs, v, j), coeff[j])
  {
    seq(|coeff|, j requires 0 <= j < |coeff| => Mul(Collected(c, flip, macs, v, j), coeff[j]))
  }

  /** Wire part: hashes turn into the garbler's, and the MACs regroup gate by gate. */
  lemma WirePart(c: Circuit, h: LabelHash, src: seq<seq<bool>>, flip: seq<bool>, pg: PreprocessedData,
                 gc: GarbledCircuit, r: EvaluateResult, coeff: seq<Block>, sent: seq<Block>)
    requires c.WellFormed() && SourcesFor(c, src, flip) && pg.Shaped(c) && |coeff| == c.AndGateSize()
    requires |gc.label0| == |gc.label1| == |r.labels| == |r.maskedValues| == c.wireSize
    requires LabelsMatch(c, gc, r) && MaskedLinear(c, r.maskedValues)
    requires |sent| == |c.IndependentWires()|
    requires forall i :: 0 <= i < |sent| ==> sent[i] == SentBlock(c, h, src, pg, gc, coeff, i)
    ensures Sum(EvaluatorWireTerms(c, h, r, sent), |sent|) ==
            Xor(Sum(WireHashes(c, h, gc.label0), |sent|),
                Sum(CollectedTerms(c, flip, pg.masks.macs, r.maskedValues, coeff), |coeff|))
  {
    hide Mul, Sum, SourcesFor, MaskedLinear, Circuit.IndependentWires, WireTerms, EvaluatorWireTerms, WireHashes,
         CollectedTerms, Collected;
    SourceSizes(c, src, flip);
    var n, macs, v := |sent|, pg.masks.macs, r.maskedValues;
    var byWire := ScaledSums(c, src, macs, coeff, v);
    forall i | 0 <= i < n
      ensures EvaluatorWireTerms(c, h, r, sent)[i] == Xor(WireHashes(c, h, gc.label0)[i], byWire[i])
    {
      var w := c.IndependentWires()[i];
      WireCancels(v[w], Sum(WireTerms(c, src, macs, coeff, w), |coeff|), h(gc.label0[w], w, 2), h(gc.label1[w], w, 2),
                  h(r.labels[w], w, 2));
    }
    SumXor(WireHashes(c, h, gc.label0), byWire, EvaluatorWireTerms(c, h, r, sent), n);
    WiresThenGates(c, src, flip, macs, v, coeff, byWire, CollectedTerms(c, flip, macs, v, coeff));
  }

  function ScaledSums(c: Circuit, src: seq<seq<bool>>, macs: seq<Block>, coeff: seq<Block>,
                      v: seq<bool>): (r: seq<Block>)
    requires c.WellFormed() && |src| == |macs| == |v| == c.wireSize
    requires forall i :: 0 <= i < c.wireSize ==> |src[i]| == c.wireSize
    requires |coeff| == c.AndGateSize()
    ensures |r| == |c.IndependentWires()|
    ensures forall i :: 0 <= i < |r| ==>
              var w := c.IndependentWires()[i]; r[i] == Scale(v[w], Sum(WireTerms(c, src, macs, coeff, w), |coeff|))
  {
    seq(|c.IndependentWires()|, i requires 0 <= i < |c.IndependentWires()| =>
      var w := c.IndependentWires()[i]; ScaledSum1(v[w], WireTerms(c, src, macs, coeff, w)))
  }

  function ScaledSum1(bit: bool, terms: seq<Block>): Block {
    Scale(bit, Sum(terms, |terms|))
  }

  /** Gate part: constants, collected MACs and the evaluator's keys leave the error bits times deltaB. */
  lemma GatePart(c: Circuit, flip: seq<bool>, pg: PreprocessedData, pe: PreprocessedData, deltaB: Block, v: seq<bool>,
                 coeff: seq<Block>)
    requires c.WellFormed() && pg.Shaped(c) && pe.Shaped(c) && |flip| == |v| == c.wireSize && |coeff| == c.AndGateSize()
    requires Authed(pg.masks, pe.maskKeys, deltaB) && Authed(pg.beaverTripleShares, pe.beaverTripleKeys, deltaB)
    ensures Xor(Xor(InnerProduct(Ak0Terms(c, flip, pg), coeff, |coeff|),
                    Sum(CollectedTerms(c, flip, pg.masks.macs, v, coeff), |coeff|)),
                InnerProduct(coeff, GateTerms(c, pe, v), |coeff|)) ==
            Mul(deltaB, Sum(ErrorTerms(c, pg, pe, v, coeff), |coeff|))
  {
    hide *;
    ShapedSizes(c, pg);
    var m, macs := |coeff|, pg.masks.macs;
    var p := Scaled(coeff, Ak0Terms(c, flip, pg));
    var q := Scaled(coeff, GateTerms(c, pe, v));
    var collected, errors := CollectedTerms(c, flip, macs, v, coeff), ErrorTerms(c, pg, pe, v, coeff);
    var all := ScaledBy(deltaB, errors);
    GateProducts(c, flip, pg, pe, v, coeff, p, q);
    forall j | 0 <= j < m ensures all[j] == Xor(Xor(p[j], collected[j]), q[j]) {
      OneGate(c, flip, pg, pe, deltaB, v, coeff[j], j);
    }
    SumThree(p, collected, q, all, m);
    SumMul(deltaB, errors, all, m);
  }

  lemma ShapedSizes(c: Circuit, pre: PreprocessedData)
    requires pre.Shaped(c)
    ensures |pre.masks.bits| == |pre.masks.macs| == c.wireSize
  {
  }

  function Scaled(coeff: seq<Block>, u: seq<Block>): (r: seq<Block>)
    requires |u| == |coeff|
    ensures |r| == |coeff| && forall j :: 0 <= j < |r| ==> r[j] == Mul(coeff[j], u[j])
  {
    seq(|coeff|, j requires 0 <= j < |coeff| => Mul(coeff[j], u[j]))
  }

  function ScaledBy(x: Block, u: seq<Block>): (r: seq<Block>)
    ensures |r| == |u| && forall j :: 0 <= j < |r| ==> r[j] == Mul(x, u[j])
  {
    seq(|u|, j requires 0 <= j < |u| => Mul(x, u[j]))
  }

  lemma SumThree(p: seq<Block>, q: seq<Block>, r: seq<Block>, all: seq<Block>, m: nat)
    requires |p| == |q| == |r| == |all| == m && forall j :: 0 <= j < m ==> all[j] == Xor(Xor(p[j], q[j]), r[j])
    ensures Sum(all, m) == Xor(Xor(Sum(p, m), Sum(q, m)), Sum(r, m))
  {
    var pq: seq<Block> := seq(m, j requires 0 <= j < m => Xor(p[j], q[j]));
    SumXor(p, q, pq, m);
    SumXor(pq, r, all, m);
  }

  /** The two inner products as plain sums. */
  lemma GateProducts(c: Circuit, flip: seq<bool>, pg: PreprocessedData, pe: PreprocessedData, v: seq<bool>,
                     coeff: seq<Block>, p: seq<Block>, q: seq<Block>)
    requires c.WellFormed() && pg.Shaped(c) && pe.Shaped(c) && |flip| == |v| == c.wireSize && |coeff| == c.AndGateSize()
    requires p == Scaled(coeff, Ak0Terms(c, flip, pg)) && q == Scaled(coeff, GateTerms(c, pe, v))
    ensures InnerProduct(Ak0Terms(c, flip, pg), coeff, |coeff|) == Sum(p, |coeff|)
    ensures InnerProduct(coeff, GateTerms(c, pe, v), |coeff|) == Sum(q, |coeff|)
  {
    hide Mul, Ak0Terms, GateTerms, Ak0, GateTerm;
    forall j | 0 <= j < |coeff| ensures p[j] == Mul(Ak0Terms(c, flip, pg)[j], coeff[j]) {
      MulComm(coeff[j], Ak0Terms(c, flip, pg)[j]);
    }
    InnerProductIsSum(Ak0Terms(c, flip, pg), coeff, p, |coeff|);
    InnerProductIsSum(coeff, GateTerms(c, pe, v), q, |coeff|);
  }

  lemma OneGate(c: Circuit, flip: seq<bool>, pg: PreprocessedData, pe: PreprocessedData, deltaB: Block, v: seq<bool>,
                coeff: Block, j: nat)
    requires c.WellFormed() && pg.Shaped(c) && pe.Shaped(c) && |flip| == |v| == c.wireSize && j < c.AndGateSize()
    requires Authed(pg.masks, pe.maskKeys, deltaB) && Authed(pg.beaverTripleShares, pe.beaverTripleKeys, deltaB)
    ensures Mul(deltaB, Scale(GateError(c, pg, pe, v, j), coeff)) ==
            Xor(Xor(Mul(coeff, Ak0(c, flip, pg, j)), Mul(Collected(c, flip, pg.masks.macs, v, j), coeff)),
                Mul(coeff, GateTerm(c, pe, v, j)))
  {
    hide *;
    ShapedSizes(c, pg);
    OneGateIdentity(c, flip, pg, pe, deltaB, v, j);
    FactorOut(Ak0(c, flip, pg, j), Collected(c, flip, pg.masks.macs, v, j), GateTerm(c, pe, v, j), coeff,
              GateError(c, pg, pe, v, j), deltaB);
  }

  lemma OneGateIdentity(c: Circuit, flip: seq<bool>, pg: PreprocessedData, pe: PreprocessedData, deltaB: Block,
                        v: seq<bool>, j: nat)
    requires c.WellFormed() && pg.Shaped(c) && pe.Shaped(c) && |flip| == |v| == c.wireSize && j < c.AndGateSize()
    requires Authed(pg.masks, pe.maskKeys, deltaB) && Authed(pg.beaverTripleShares, pe.beaverTripleKeys, deltaB)
    ensures Xor(Xor(Ak0(c, flip, pg, j), Collected(c, flip, pg.masks.macs, v, j)), GateTerm(c, pe, v, j)) ==
            Scale(GateError(c, pg, pe, v, j), deltaB)
  {
    hide Mul, Xor, Scale, CalcFlipMacTerm, In0, In1, Circuit.AndAt, Circuit.AndGateSize, Circuit.WellFormed;
    AndInputsInRange(c, j);
    var in0, in1, out := In0(c, j), In1(c, j), c.AndAt(j).out;
    GateIdentity(deltaB, v[in0], v[in1], v[out], flip[in0], flip[in1], pg.masks.bits[in0], pg.masks.bits[in1],
                 pg.masks.bits[out], pg.beaverTripleShares.bits[j], pe.masks.bits[in0], pe.masks.bits[in1],
                 pe.masks.bits[out], pe.beaverTripleShares.bits[j], pe.maskKeys.localKeys[in0],
                 pe.maskKeys.localKeys[in1], pe.maskKeys.localKeys[out], pe.beaverTripleKeys.localKeys[j],
                 pg.masks.macs[in0], pg.masks.macs[in1], pg.masks.macs[out], pg.beaverTripleShares.macs[j],
                 Ak0(c, flip, pg, j), Collected(c, flip, pg.masks.macs, v, j), BPrime(c, pe, v, j),
                 GateTerm(c, pe, v, j), GateError(c, pg, pe, v, j));
  }

  lemma FactorOut(ak0: Block, collected: Block, term: Block, coeff: Block, e: bool, deltaB: Block)
    requires Xor(Xor(ak0, collected), term) == Scale(e, deltaB)
    ensures Mul(deltaB, Scale(e, coeff)) == Xor(Xor(Mul(coeff, ak0), Mul(collected, coeff)), Mul(coeff, term))
  {
    hide Mul;
    MulComm(coeff, ak0);
    MulComm(coeff, term);
    MulDistLeft(ak0, collected, coeff);
    MulDistLeft(Xor(ak0, collected), term, coeff);
    MulScale(e, deltaB, coeff);
  }

  /** Exact form of the check: whatever the challenges, the two accumulators differ by deltaB times
      the sum of the challenges of exactly those AND gates that are inconsistent. */
  lemma CheckExact(c: Circuit, h: LabelHash, src: seq<seq<bool>>, flip: seq<bool>, pg: PreprocessedData,
                   pe: PreprocessedData, deltaB: Block, gc: GarbledCircuit, r: EvaluateResult, coeff: seq<Block>,
                   sent: seq<Block>, accG: Block, accE: Block)
    requires c.WellFormed() && SourcesFor(c, src, flip) && pg.Shaped(c) && pe.Shaped(c) && |coeff| == c.AndGateSize()
    requires Authed(pg.masks, pe.maskKeys, deltaB) && Authed(pg.beaverTripleShares, pe.beaverTripleKeys, deltaB)
    requires |gc.label0| == |gc.label1| == |r.labels| == |r.maskedValues| == c.wireSize
    requires LabelsMatch(c, gc, r) && MaskedLinear(c, r.maskedValues)
    requires |sent| == |c.IndependentWires()|
    requires forall i :: 0 <= i < |sent| ==> sent[i] == SentBlock(c, h, src, pg, gc, coeff, i)
    requires accG == Xor(Sum(WireHashes(c, h, gc.label0), |sent|), InnerProduct(Ak0Terms(c, flip, pg), coeff, |coeff|))
    requires accE == Xor(Sum(EvaluatorWireTerms(c, h, r, sent), |sent|),
                         InnerProduct(coeff, GateTerms(c, pe, r.maskedValues), |coeff|))
    ensures Xor(accG, accE) == Mul(deltaB, Sum(ErrorTerms(c, pg, pe, r.maskedValues, coeff), |coeff|))
  {
    hide *;
    SourceSizes(c, src, flip);
    ShapedSizes(c, pg);
    WirePart(c, h, src, flip, pg, gc, r, coeff, sent);
    GatePart(c, flip, pg, pe, deltaB, r.maskedValues, coeff);
    SharedHashes(accG, accE, Sum(WireHashes(c, h, gc.label0), |sent|),
                 InnerProduct(Ak0Terms(c, flip, pg), coeff, |coeff|),
                 Sum(CollectedTerms(c, flip, pg.masks.macs, r.maskedValues, coeff), |coeff|),
                 InnerProduct(coeff, GateTerms(c, pe, r.maskedValues), |coeff|),
                 Mul(deltaB, Sum(ErrorTerms(c, pg, pe, r.maskedValues, coeff), |coeff|)));
  }

  lemma SharedHashes(accG: Block, accE: Block, hashes: Block, p: Block, collected: Block, q: Block, difference: Block)
    requires accG == Xor(hashes, p) && accE == Xor(Xor(hashes, collected), q)
    requires Xor(Xor(p, collected), q) == difference
    ensures Xor(accG, accE) == difference
  {
  }

  // ---------------------------------------------------------------- the run

  /** The five bytes that are sent and compared. */
  function LowBytes(b: Block): seq<bool> {
    b[..CHALLENGE_BITS]
  }

  /** The five compared bytes are zero. */
  predicate LowBitsZero(b: Block) {
    forall i :: 0 <= i < CHALLENGE_BITS ==> !b[i]
  }

  lemma LowBitsAgree(a: Block, b: Block)
    ensures LowBytes(a) == LowBytes(b) <==> LowBitsZero(Xor(a, b))
  {
  }

  /** Both sides of the check, with five bytes of the garbler's accumulator sent at the end: accepted
      exactly when those bytes of deltaB times the inconsistent gates' challenges vanish. */
  method Check(c: Circuit, t: Order, h: LabelHash, data: GcCheckData, m: XORSourceMatrix, pg: PreprocessedData,
               pe: PreprocessedData, gc: GarbledCircuit, r: EvaluateResult, coeff: seq<Block>, ghost deltaB: Block)
    returns (accepted: bool)
    requires c.WellFormed() && OrderFor(c, t) && m.Valid() && m.mat.rowSize == c.wireSize
    requires SourcesFor(c, m.Rows(), m.flip)
    requires GcCheckDataFor(c, m.Rows(), data, |c.gates|) && |coeff| == c.AndGateSize() && pg.Shaped(c) && pe.Shaped(c)
    requires Authed(pg.masks, pe.maskKeys, deltaB) && Authed(pg.beaverTripleShares, pe.beaverTripleKeys, deltaB)
    requires |gc.label0| == |gc.label1| == |r.labels| == |r.maskedValues| == c.wireSize
    requires LabelsMatch(c, gc, r) && MaskedLinear(c, r.maskedValues)
    ensures accepted <==> LowBitsZero(Mul(deltaB, Sum(ErrorTerms(c, pg, pe, r.maskedValues, coeff), |coeff|)))
  {
    hide *;
    var sent, accG := GarblerAccumulate(c, t, h, data, m, pg, gc, coeff);
    var accE := EvaluatorAccumulate(c, h, pe, r, coeff, sent);
    CheckExact(c, h, m.Rows(), m.flip, pg, pe, deltaB, gc, r, coeff, sent, accG, accE);
    LowBitsAgree(accG, accE);
    var ha, hb := LowBytes(accG), LowBytes(accE);
    accepted := ha == hb;
  }

  /** With correct triples, a gate's error bit says whether the unmasked values break the AND gate. */
  lemma ErrorMeaning(c: Circuit, pg: PreprocessedData, pe: PreprocessedData, r: EvaluateResult, k: nat)
    requires c.WellFormed() && pg.Shaped(c) && pe.Shaped(c) && |r.maskedValues| == c.wireSize
    requires k < |c.gates| && c.gates[k].AndGate? && TripleHolds(c, pg, pe, k)
    ensures c.AndCount(k) < c.AndGateSize()
    ensures GateError(c, pg, pe, r.maskedValues, c.AndCount(k)) <==> !GateHolds(c, Unmasked(r, pg, pe), k)
  {
    c.AndPosition(k);
  }

  /** An honest run has no errors, so the check accepts whatever the challenges are. */
  lemma HonestSum(c: Circuit, pg: PreprocessedData, pe: PreprocessedData, r: EvaluateResult, coeff: seq<Block>,
                  deltaB: Block)
    requires c.WellFormed() && pg.Shaped(c) && pe.Shaped(c) && |r.maskedValues| == c.wireSize
    requires |coeff| == c.AndGateSize()
    requires forall k :: 0 <= k < |c.gates| && c.gates[k].AndGate? ==> TripleHolds(c, pg, pe, k)
    requires FollowsGates(c, Unmasked(r, pg, pe))
    ensures LowBitsZero(Mul(deltaB, Sum(ErrorTerms(c, pg, pe, r.maskedValues, coeff), |coeff|)))
  {
    hide Mul, GateError, TripleHolds, GateHolds;
    forall i | 0 <= i < |coeff| ensures ErrorTerms(c, pg, pe, r.maskedValues, coeff)[i] == Zero() {
      c.AndPositionInverse(i);
      var k := c.AndGates(|c.gates|)[i];
      ErrorMeaning(c, pg, pe, r, k);
      assert GateHolds(c, Unmasked(r, pg, pe), k);
    }
    SumZero(ErrorTerms(c, pg, pe, r.maskedValues, coeff), |coeff|);
    MulZero(deltaB);
  }

  /** The evaluator's own results satisfy what the check asks of them. */
  lemma EvaluationFits(c: Circuit, h: LabelHash, pe: PreprocessedData, gc: GarbledCircuit, deltaA: Block,
                       inputLabels: seq<Block>, inputMaskedValues: seq<bool>, r: EvaluateResult)
    requires c.WellFormed() && pe.Shaped(c) && |gc.garbledTables| == |gc.wireMaskShift| == c.AndGateSize()
    requires |gc.label0| == |gc.label1| == c.wireSize && |inputLabels| == |inputMaskedValues| == c.TotalInputSize()
    requires Evaluated(c, h, pe, gc.garbledTables, gc.wireMaskShift, inputLabels, inputMaskedValues, r)
    requires forall w :: 0 <= w < c.wireSize ==> InStep(gc, r, deltaA, w)
    ensures LabelsMatch(c, gc, r) && MaskedLinear(c, r.maskedValues)
  {
    forall i | 0 <= i < |c.IndependentWires()|
      ensures var w := c.IndependentWires()[i]; r.labels[w] == if r.maskedValues[w] then gc.label1[w] else gc.label0[w]
    {
      InStepLabel(gc, r, deltaA, c.IndependentWires()[i]);
    }
    forall k | 0 <= k < |c.gates| ensures MaskedGate(c, r.maskedValues, k) {
      assert EvaluatedGate(c, h, pe, gc.garbledTables, gc.wireMaskShift, r, k);
    }
  }
}
