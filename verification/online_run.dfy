/** The two parties' programs, from garbling to the end of the check, over a byte connection. */
module OnlineRun {
  import opened Blocks
  import opened Sums
  import opened Words
  import opened Bytes
  import opened Circuits
  import opened XorSources
  import opened Authenticated
  import opened Packing
  import opened Garbling
  import opened Simulation
  import opened GarbledCheck
  import opened Online
  import opened Channels
  import opened Conversation

  /** Expansion of a challenge into one coefficient per AND gate, arbitrary. */
  type Expansion = (Word, nat) -> seq<Block>

  ghost predicate Expands(expand: Expansion) {
    forall challenge, n :: |expand(challenge, n)| == n
  }

  // ---------------------------------------------------------------- a connection

  /** One party's end: what it has done so far, the bytes that will reach it, and the label pairs of the
      ideal oblivious transfer. */
  class NetIO {
    var trace: seq<Action>
    var incoming: seq<Byte>
    var pair0: seq<Block>
    var pair1: seq<Block>

    constructor (incoming: seq<Byte>, pair0: seq<Block>, pair1: seq<Block>)
      ensures trace == [] && this.incoming == incoming && this.pair0 == pair0 && this.pair1 == pair1
    {
      this.trace, this.incoming, this.pair0, this.pair1 := [], incoming, pair0, pair1;
    }

    method SendData(data: seq<Byte>)
      modifies `trace
      ensures trace == old(trace) + [Send(data)]
    {
      trace := trace + [Send(data)];
    }

    method RecvData(count: nat) returns (data: seq<Byte>)
      requires count <= |incoming|
      modifies `trace, `incoming
      ensures trace == old(trace) + [Recv(count)]
      ensures data == old(incoming)[..count] && incoming == old(incoming)[count..]
    {
      data := incoming[..count];
      trace, incoming := trace + [Recv(count)], incoming[count..];
    }

    method SendBlocks(blocks: seq<Block>)
      modifies `trace
      ensures trace == old(trace) + [Send(BlockBytes(blocks))]
    {
      SendData(BlockBytes(blocks));
    }

    method SendWords(words: seq<Word>)
      modifies `trace
      ensures trace == old(trace) + [Send(WordBytes(words))]
    {
      SendData(WordBytes(words));
    }

    method RecvBlocks(n: nat, ghost blocks: seq<Block>, ghost rest: seq<Byte>) returns (r: seq<Block>)
      requires |blocks| == n && incoming == BlockBytes(blocks) + rest
      modifies `trace, `incoming
      ensures r == blocks && incoming == rest
      ensures trace == old(trace) + [Recv(|BlockBytes(blocks)|)]
    {
      hide BlockBytes, BytesToBlocks;
      var data := RecvData(BLOCK_BYTES * n);
      assert data == BlockBytes(blocks);
      r := BytesToBlocks(data);
      BlocksRoundTrip(blocks);
    }

    method RecvWords(n: nat, ghost words: seq<Word>, ghost rest: seq<Byte>) returns (r: seq<Word>)
      requires |words| == n && incoming == WordBytes(words) + rest
      modifies `trace, `incoming
      ensures r == words && incoming == rest
      ensures trace == old(trace) + [Recv(|WordBytes(words)|)]
    {
      hide WordBytes, BytesToWords;
      var data := RecvData(WORD_BYTES * n);
      assert data == WordBytes(words);
      r := BytesToWords(data);
      WordsRoundTrip(words);
    }

    method OTSend(label0: seq<Block>, label1: seq<Block>)
      requires |label0| == |label1|
      modifies `trace, `pair0, `pair1
      ensures trace == old(trace) + [Transfer(|label0|)] && pair0 == label0 && pair1 == label1
    {
      trace, pair0, pair1 := trace + [Transfer(|label0|)], label0, label1;
    }

    method OTRecv(choices: seq<bool>) returns (labels: seq<Block>)
      requires |pair0| == |pair1| == |choices|
      modifies `trace
      ensures trace == old(trace) + [Transfer(|choices|)] && labels == Transferred(pair0, pair1, choices)
    {
      trace := trace + [Transfer(|choices|)];
      labels := Transferred(pair0, pair1, choices);
    }
  }

  // ---------------------------------------------------------------- the garbler

  /** What the garbler says about its inputs and hands to the oblivious transfer. */
  ghost predicate InputSaid(c: Circuit, hash: seq<Block> -> Block, pg: PreprocessedData, gc: GarbledCircuit,
                            input0: seq<bool>, masked: seq<Word>, labels: seq<Block>, openedBits: seq<Word>,
                            digest: Block, pair0: seq<Block>, pair1: seq<Block>)
    requires c.WellFormed() && pg.Shaped(c) && |gc.label0| == |gc.label1| == c.wireSize && |input0| == c.inputSize0
  {
    && masked == Packed(BitXor(input0, pg.masks.bits[..c.inputSize0])) && |labels| == c.inputSize0
    && Resized(Unpacked(masked), c.inputSize0) == BitXor(input0, pg.masks.bits[..c.inputSize0])
    && LabelsOf(gc, 0, BitXor(input0, pg.masks.bits[..c.inputSize0]), labels)
    && (c.inputSize1 != 0 ==> OwnInputSaid(c, hash, pg, gc, openedBits, digest, pair0, pair1))
  }

  ghost predicate OwnInputSaid(c: Circuit, hash: seq<Block> -> Block, pg: PreprocessedData, gc: GarbledCircuit,
                               openedBits: seq<Word>, digest: Block, pair0: seq<Block>, pair1: seq<Block>)
    requires c.WellFormed() && pg.Shaped(c) && |gc.label0| == |gc.label1| == c.wireSize
  {
    var slice := pg.masks.bits[c.inputSize0..c.TotalInputSize()];
    && PairsFor(c, gc, pg, pair0, pair1)
    && openedBits == Packed(slice) && Resized(Unpacked(openedBits), c.inputSize1) == slice
    && digest == hash(pg.masks.macs[c.inputSize0..c.TotalInputSize()])
    && forall k :: BitsAuthed(pg.masks, k) ==> digest == hash(ExpectedMacs(k, slice, c.inputSize0))
  }

  method GarblerInput(io: NetIO, c: Circuit, hash: seq<Block> -> Block, pg: PreprocessedData, gc: GarbledCircuit,
                      input0: seq<bool>)
    returns (masked: seq<Word>, labels: seq<Block>, openedBits: seq<Word>, digest: Block)
    requires c.WellFormed() && pg.Shaped(c) && |gc.label0| == |gc.label1| == c.wireSize && |input0| == c.inputSize0
    modifies io`trace, io`pair0, io`pair1
    ensures InputSaid(c, hash, pg, gc, input0, masked, labels, openedBits, digest, io.pair0, io.pair1)
    ensures io.trace == old(io.trace) + Projected(InputScript(c.inputSize1, masked, labels, openedBits, digest),
                                                  GarblerSide)
  {
    hide BlockBytes, WordBytes, BitsAuthed, ExpectedMacs;
    masked, labels := GarblerInputs(c, gc, pg, input0);
    io.SendWords(masked);
    io.SendBlocks(labels);
    openedBits, digest := [], Zero();
    if c.inputSize1 != 0 {
      var label0, label1 := GarblerPairs(c, gc, pg);
      io.OTSend(label0, label1);
      openedBits, digest := Open(pg.masks, hash, c.inputSize0, c.TotalInputSize());
      io.SendWords(openedBits);
      io.SendBlocks([digest]);
    }
  }

  /** One block per independent wire: all input wires, then the output of every AND gate in the gate list. */
  method GarblerWires(io: NetIO, c: Circuit, t: Order, sent: seq<Block>)
    requires c.WellFormed() && OrderFor(c, t) && |sent| == |c.IndependentWires()|
    modifies io`trace
    ensures io.trace == old(io.trace) + Projected(WireScript(sent), GarblerSide)
  {
    hide *;
    ghost var before := io.trace;
    NoWires(sent, GarblerSide);
    InputNumbers(c, t);
    for w := 0 to c.TotalInputSize()
      invariant io.trace == before + Projected(WireScript(sent[..w]), GarblerSide)
    {
      GarblerWire(io, w, sent[IndependentIndexMap(c, t, w)], sent, before);
    }
    NumberedSoFar(c, 0);
    for gateIter := 0 to |c.gates|
      invariant c.TotalInputSize() + c.AndCount(gateIter) <= |sent|
      invariant io.trace == before + Projected(WireScript(sent[..c.TotalInputSize() + c.AndCount(gateIter)]),
                                               GarblerSide)
    {
      NumberedSoFar(c, gateIter + 1);
      if c.gates[gateIter].AndGate? {
        AndNumber(c, t, gateIter);
        GarblerWire(io, c.TotalInputSize() + c.AndCount(gateIter),
                    sent[IndependentIndexMap(c, t, c.gates[gateIter].out)], sent, before);
      } else {
        NoNumber(c, gateIter);
      }
    }
    NumberedAll(c);
    assert sent[..|sent|] == sent;
  }

  method GarblerWire(io: NetIO, ghost n: nat, block: Block, ghost sent: seq<Block>, ghost before: seq<Action>)
    requires n < |sent| && block == sent[n] && io.trace == before + Projected(WireScript(sent[..n]), GarblerSide)
    modifies io`trace
    ensures io.trace == before + Projected(WireScript(sent[..n + 1]), GarblerSide)
  {
    hide WireScript, Projected, BlockBytes;
    WireStep(sent, n, GarblerSide);
    io.SendBlocks([block]);
  }

  /** Input wires are numbered by themselves, and AND outputs after them in gate order. */
  lemma InputNumbers(c: Circuit, t: Order)
    requires c.WellFormed() && OrderFor(c, t)
    ensures c.TotalInputSize() <= c.wireSize && c.TotalInputSize() <= |c.IndependentWires()|
    ensures forall w :: 0 <= w < c.TotalInputSize() ==> IndependentIndexMap(c, t, w) == w
  {
    hide OrderGate;
  }

  lemma AndNumber(c: Circuit, t: Order, k: nat)
    requires c.WellFormed() && OrderFor(c, t) && k < |c.gates| && c.gates[k].AndGate?
    ensures c.TotalInputSize() + c.AndCount(k) < |c.IndependentWires()| && c.gates[k].out < c.wireSize
    ensures IndependentIndexMap(c, t, c.gates[k].out) == c.TotalInputSize() + c.AndCount(k)
    ensures c.AndCount(k + 1) == c.AndCount(k) + 1
  {
    hide IndependentIndexMap, Circuit.IndependentWires, OrderGate;
    IndexMapBijection(c, t);
    c.AndPosition(k);
    c.WireAt(c.TotalInputSize() + c.AndCount(k));
  }

  lemma NoNumber(c: Circuit, k: nat)
    requires k < |c.gates| && !c.gates[k].AndGate?
    ensures c.AndCount(k + 1) == c.AndCount(k)
  {
  }

  lemma NumberedSoFar(c: Circuit, k: nat)
    requires c.WellFormed() && k <= |c.gates|
    ensures c.TotalInputSize() + c.AndCount(k) <= |c.IndependentWires()|
    ensures c.AndCount(0) == 0
  {
    hide Circuit.IndependentWires;
    c.AndGatesPrefix(k, |c.gates|);
  }

  lemma NumberedAll(c: Circuit)
    requires c.WellFormed()
    ensures c.TotalInputSize() + c.AndCount(|c.gates|) == |c.IndependentWires()|
  {
    hide Circuit.IndependentWires;
  }

  lemma NoWires(sent: seq<Block>, party: Party)
    ensures Projected(WireScript(sent[..0]), party) == []
  {
  }

  /** One more wire block at the end. */
  lemma WireStep(sent: seq<Block>, n: nat, party: Party)
    requires n < |sent|
    ensures Projected(WireScript(sent[..n + 1]), party) ==
            Projected(WireScript(sent[..n]), party) + [ActionOf(FromGarbler(BlockBytes([sent[n]])), party)]
  {
    hide BlockBytes;
  }

  /** The check values the garbler says, for the coefficients of a challenge. */
  ghost predicate CheckSaid(c: Circuit, h: LabelHash, src: seq<seq<bool>>, flip: seq<bool>, pg: PreprocessedData,
                            gc: GarbledCircuit, coeff: seq<Block>, wireBlocks: seq<Block>, accumulator: Block)
    requires c.WellFormed() && pg.Shaped(c) && |gc.label0| == |gc.label1| == c.wireSize
    requires |src| == |flip| == c.wireSize && forall w :: 0 <= w < c.wireSize ==> |src[w]| == c.wireSize
  {
    && |coeff| == c.AndGateSize() && |wireBlocks| == |c.IndependentWires()|
    && (forall i :: 0 <= i < |wireBlocks| ==> wireBlocks[i] == SentBlock(c, h, src, pg, gc, coeff, i))
    && accumulator == Xor(Sum(WireHashes(c, h, gc.label0), |wireBlocks|),
                          InnerProduct(Ak0Terms(c, flip, pg), coeff, c.AndGateSize()))
  }

  method GarblerCheck(io: NetIO, c: Circuit, t: Order, h: LabelHash, expand: Expansion, data: GcCheckData,
                      m: XORSourceMatrix, pg: PreprocessedData, gc: GarbledCircuit, ghost challenge: Word)
    returns (wireBlocks: seq<Block>, accumulator: Block)
    requires c.WellFormed() && OrderFor(c, t) && pg.Shaped(c) && |gc.label0| == |gc.label1| == c.wireSize
    requires Expands(expand)
    requires m.Valid() && m.mat.rowSize == c.wireSize && GcCheckDataFor(c, m.Rows(), data, |c.gates|)
    requires io.incoming == WordBytes([challenge])
    modifies io`trace, io`incoming
    ensures io.incoming == []
    ensures CheckSaid(c, h, m.Rows(), m.flip, pg, gc, expand(challenge, c.AndGateSize()), wireBlocks, accumulator)
    ensures io.trace == old(io.trace) + [Recv(|WordBytes([challenge])|)] + Projected(WireScript(wireBlocks),
                                                                                     GarblerSide)
                        + [Send(AccumulatorBytes(accumulator))]
  {
    hide GcCheckDataFor, OrderFor, SentBlock, WireHashes, Ak0Terms, InnerProduct, Sum, WireScript, Projected, WordBytes,
         AccumulatorBytes, Circuit.IndependentWires;
    var words := io.RecvWords(1, [challenge], []);
    var coeff := expand(words[0], c.AndGateSize());
    wireBlocks, accumulator := GarblerAccumulate(c, t, h, data, m, pg, gc, coeff);
    GarblerWires(io, c, t, wireBlocks);
    io.SendData(AccumulatorBytes(accumulator));
  }

  /** All that the garbler says, from its values. */
  ghost predicate GarblerSaid(c: Circuit, h: LabelHash, hash: seq<Block> -> Block, expand: Expansion,
                              src: seq<seq<bool>>, flip: seq<bool>, pg: PreprocessedData, gc: GarbledCircuit,
                              input0: seq<bool>, tr: Transcript, pair0: seq<Block>, pair1: seq<Block>)
    requires c.WellFormed() && pg.Shaped(c) && |gc.label0| == |gc.label1| == c.wireSize && |input0| == c.inputSize0
    requires |src| == |flip| == c.wireSize && forall w :: 0 <= w < c.wireSize ==> |src[w]| == c.wireSize
  {
    && tr.garbledTables == Flattened(gc.garbledTables) && tr.wireMaskShift == Packed(gc.wireMaskShift)
    && InputSaid(c, hash, pg, gc, input0, tr.maskedInputs, tr.inputLabels, tr.openedBits, tr.openedHash, pair0, pair1)
    && tr.outputMasks == Packed(pg.masks.bits[c.wireSize - c.outputSize..])
    && Resized(Unpacked(tr.outputMasks), c.outputSize) == pg.masks.bits[c.wireSize - c.outputSize..]
    && CheckSaid(c, h, src, flip, pg, gc, expand(tr.challenge, c.AndGateSize()), tr.wireBlocks, tr.accumulator)
  }

  method GarblerProgram(io: NetIO, c: Circuit, t: Order, h: LabelHash, hash: seq<Block> -> Block, expand: Expansion,
                        data: GcCheckData, m: XORSourceMatrix, pg: PreprocessedData, gc: GarbledCircuit,
                        input0: seq<bool>, ghost challenge: Word)
    returns (ghost tr: Transcript)
    requires c.WellFormed() && OrderFor(c, t) && pg.Shaped(c) && |gc.label0| == |gc.label1| == c.wireSize
    requires Expands(expand)
    requires |gc.garbledTables| == |gc.wireMaskShift| == c.AndGateSize() && |input0| == c.inputSize0
    requires m.Valid() && m.mat.rowSize == c.wireSize && GcCheckDataFor(c, m.Rows(), data, |c.gates|)
    requires io.trace == [] && io.incoming == WordBytes([challenge])
    modifies io
    ensures tr.Fits(c) && tr.challenge == challenge
    ensures GarblerSaid(c, h, hash, expand, m.Rows(), m.flip, pg, gc, input0, tr, io.pair0, io.pair1)
    ensures io.trace == Projected(Script(c, tr), GarblerSide) && io.incoming == []
  {
    hide *;
    io.SendBlocks(Flattened(gc.garbledTables));
    io.SendWords(Packed(gc.wireMaskShift));
    var masked, labels, openedBits, digest := GarblerInput(io, c, hash, pg, gc, input0);
    var outputMasks := GarblerOutputMasks(c, pg);
    io.SendWords(outputMasks);
    var wireBlocks, accumulator := GarblerCheck(io, c, t, h, expand, data, m, pg, gc, challenge);
    tr := Transcript(Flattened(gc.garbledTables), Packed(gc.wireMaskShift), masked, labels, openedBits, digest,
                     outputMasks, challenge, wireBlocks, accumulator);
    GarblerScript(c, tr);
    ShapedMasks(c, pg);
    RowsShape(m);
    SaidFits(c, h, hash, expand, m.Rows(), m.flip, pg, gc, input0, tr, io.pair0, io.pair1);
  }

  lemma RowsShape(m: XORSourceMatrix)
    requires m.Valid()
    ensures |m.Rows()| == |m.flip| == m.mat.rowSize
    ensures forall w :: 0 <= w < |m.Rows()| ==> |m.Rows()[w]| == m.mat.rowSize
  {
  }

  lemma ShapedMasks(c: Circuit, pg: PreprocessedData)
    requires c.WellFormed() && pg.Shaped(c)
    ensures c.outputSize <= c.wireSize == |pg.masks.bits|
  {
  }

  lemma SaidFits(c: Circuit, h: LabelHash, hash: seq<Block> -> Block, expand: Expansion, src: seq<seq<bool>>,
                 flip: seq<bool>, pg: PreprocessedData, gc: GarbledCircuit, input0: seq<bool>, tr: Transcript,
                 pair0: seq<Block>, pair1: seq<Block>)
    requires c.WellFormed() && pg.Shaped(c) && |gc.label0| == |gc.label1| == c.wireSize && |input0| == c.inputSize0
    requires |gc.garbledTables| == |gc.wireMaskShift| == c.AndGateSize()
    requires |src| == |flip| == c.wireSize && forall w :: 0 <= w < c.wireSize ==> |src[w]| == c.wireSize
    requires tr.garbledTables == Flattened(gc.garbledTables) && tr.wireMaskShift == Packed(gc.wireMaskShift)
    requires InputSaid(c, hash, pg, gc, input0, tr.maskedInputs, tr.inputLabels, tr.openedBits, tr.openedHash, pair0,
                       pair1)
    requires c.outputSize <= c.wireSize == |pg.masks.bits|
    requires tr.outputMasks == Packed(pg.masks.bits[c.wireSize - c.outputSize..])
    requires Resized(Unpacked(tr.outputMasks), c.outputSize) == pg.masks.bits[c.wireSize - c.outputSize..]
    requires CheckSaid(c, h, src, flip, pg, gc, expand(tr.challenge, c.AndGateSize()), tr.wireBlocks, tr.accumulator)
    ensures tr.Fits(c) && GarblerSaid(c, h, hash, expand, src, flip, pg, gc, input0, tr, pair0, pair1)
  {
    hide SentBlock, WireHashes, Ak0Terms, Sum, InnerProduct, Circuit.IndependentWires, Circuit.AndGates,
         Circuit.WellFormed, PreprocessedData.Shaped, PairsFor, BitsAuthed, ExpectedMacs, LabelsOf, Resized, Unpacked,
         BitXor, Packed;
  }

  /** The garbler's side of the script, action by action. */
  lemma GarblerScript(c: Circuit, tr: Transcript)
    ensures Projected(Script(c, tr), GarblerSide) ==
            [Send(BlockBytes(tr.garbledTables))] + [Send(WordBytes(tr.wireMaskShift))]
            + Projected(InputScript(c.inputSize1, tr.maskedInputs, tr.inputLabels, tr.openedBits, tr.openedHash),
                        GarblerSide)
            + [Send(WordBytes(tr.outputMasks))] + [Recv(|WordBytes([tr.challenge])|)]
            + Projected(WireScript(tr.wireBlocks), GarblerSide) + [Send(AccumulatorBytes(tr.accumulator))]
  {
    hide InputScript, WireScript, BlockBytes, WordBytes, AccumulatorBytes;
  }

  lemma EvaluatorScript(c: Circuit, tr: Transcript)
    ensures Projected(Script(c, tr), EvaluatorSide) ==
            [Recv(|BlockBytes(tr.garbledTables)|)] + [Recv(|WordBytes(tr.wireMaskShift)|)]
            + Projected(InputScript(c.inputSize1, tr.maskedInputs, tr.inputLabels, tr.openedBits, tr.openedHash),
                        EvaluatorSide)
            + [Recv(|WordBytes(tr.outputMasks)|)] + [Send(WordBytes([tr.challenge]))]
            + Projected(WireScript(tr.wireBlocks), EvaluatorSide) + [Recv(|AccumulatorBytes(tr.accumulator)|)]
  {
    hide InputScript, WireScript, BlockBytes, WordBytes, AccumulatorBytes;
  }

  // ---------------------------------------------------------------- the evaluator

  /** Its own inputs: labels by oblivious transfer, masked values after the garbler's opening, which an
      honest run never refuses. */
  method EvaluatorOwnInput(io: NetIO, c: Circuit, hash: seq<Block> -> Block, pe: PreprocessedData, input1: seq<bool>,
                           ghost pg: PreprocessedData, ghost gc: GarbledCircuit, ghost deltaB: Block,
                           ghost openedBits: seq<Word>, ghost digest: Block, ghost rest: seq<Byte>)
    returns (labels: seq<Block>, values: seq<bool>)
    requires c.WellFormed() && pg.Shaped(c) && pe.Shaped(c) && Authed(pg.masks, pe.maskKeys, deltaB)
    requires c.inputSize1 != 0
    requires |gc.label0| == |gc.label1| == c.wireSize && |input1| == c.inputSize1
    requires OwnInputSaid(c, hash, pg, gc, openedBits, digest, io.pair0, io.pair1)
    requires io.incoming == WordBytes(openedBits) + (BlockBytes([digest]) + rest)
    modifies io`trace, io`incoming
    ensures io.incoming == rest && |values| == c.inputSize1 && LabelsOf(gc, c.inputSize0, values, labels)
    ensures forall i :: 0 <= i < c.inputSize1 ==>
              var w := c.inputSize0 + i; values[i] == (input1[i] != (pg.masks.bits[w] != pe.masks.bits[w]))
    ensures io.trace ==
            old(io.trace) + [Transfer(c.inputSize1)] + [Recv(|WordBytes(openedBits)|)] + [Recv(|BlockBytes([digest])|)]
  {
    hide *;
    OwnInputParts(c, hash, pg, pe, gc, deltaB, openedBits, digest, io.pair0, io.pair1);
    ghost var slice := pg.masks.bits[c.inputSize0..c.inputSize0 + c.inputSize1];
    var choices := EvaluatorChoices(c, pe, input1);
    labels := io.OTRecv(choices);
    var words := io.RecvWords(WordsFor(c.inputSize1), openedBits, BlockBytes([digest]) + rest);
    var received := io.RecvBlocks(1, [digest], rest);
    var res := ReceiveOpening(pe.maskKeys, hash, c.inputSize0, c.TotalInputSize(), words, received[0]);
    assert res == Packing.Ok(slice);
    values := UnmaskChoices(choices, res.value);
    PairsDeliver(c, gc, pg, io.pair0, io.pair1, choices, slice);
    ChoicesUnmasked(c, pg, pe, input1, choices, slice);
  }

  lemma ChoicesUnmasked(c: Circuit, pg: PreprocessedData, pe: PreprocessedData, input1: seq<bool>, choices: seq<bool>,
                        slice: seq<bool>)
    requires c.WellFormed() && pg.Shaped(c) && pe.Shaped(c) && |input1| == |choices| == c.inputSize1
    requires slice == pg.masks.bits[c.inputSize0..c.inputSize0 + c.inputSize1]
    requires forall i :: 0 <= i < c.inputSize1 ==> choices[i] == (input1[i] != pe.masks.bits[c.inputSize0 + i])
    ensures |BitXor(choices, slice)| == c.inputSize1
    ensures forall i :: 0 <= i < c.inputSize1 ==>
              var w := c.inputSize0 + i;
              BitXor(choices, slice)[i] == (input1[i] != (pg.masks.bits[w] != pe.masks.bits[w]))
  {
  }

  /** What the evaluator's own step needs to know. */
  lemma OwnInputParts(c: Circuit, hash: seq<Block> -> Block, pg: PreprocessedData, pe: PreprocessedData,
                      gc: GarbledCircuit, deltaB: Block, openedBits: seq<Word>, digest: Block, pair0: seq<Block>,
                      pair1: seq<Block>)
    requires c.WellFormed() && pg.Shaped(c) && pe.Shaped(c) && Authed(pg.masks, pe.maskKeys, deltaB)
    requires |gc.label0| == |gc.label1| == c.wireSize
    requires OwnInputSaid(c, hash, pg, gc, openedBits, digest, pair0, pair1)
    ensures var slice := pg.masks.bits[c.inputSize0..c.inputSize0 + c.inputSize1];
            && Resized(Unpacked(openedBits), c.inputSize1) == slice
            && digest == hash(ExpectedMacs(pe.maskKeys, slice, c.inputSize0))
    ensures |pair0| == |pair1| == c.inputSize1 && PairsFor(c, gc, pg, pair0, pair1)
    ensures |openedBits| == WordsFor(c.inputSize1) && c.TotalInputSize() == c.inputSize0 + c.inputSize1
    ensures |pe.maskKeys.globalKeys| == 1 && pe.maskKeys.Size() == |pe.maskKeys.localKeys| == c.wireSize
    ensures forall end: nat :: end > 0 ==> EndOf(pe.maskKeys.Size(), end) == end
    ensures c.inputSize0 + c.inputSize1 <= c.wireSize == |pg.masks.bits| == |pe.masks.bits|
  {
    hide ExpectedMacs, Unpacked, BitsAuthed;
    SingleKeyLayout(pg.masks, pe.maskKeys, deltaB);
  }

  /** The evaluator's view of all inputs: labels and masked values. */
  method EvaluatorInput(io: NetIO, c: Circuit, hash: seq<Block> -> Block, pe: PreprocessedData, input1: seq<bool>,
                        ghost pg: PreprocessedData, ghost gc: GarbledCircuit, ghost deltaB: Block,
                        ghost input0: seq<bool>, ghost masked: seq<Word>, ghost labels: seq<Block>,
                        ghost openedBits: seq<Word>, ghost digest: Block, ghost rest: seq<Byte>)
    returns (inputLabels: seq<Block>, inputMaskedValues: seq<bool>)
    requires c.WellFormed() && pg.Shaped(c) && pe.Shaped(c) && Authed(pg.masks, pe.maskKeys, deltaB)
    requires NoMaskOnGarblerInputs(c, pe)
    requires |gc.label0| == |gc.label1| == c.wireSize && |input0| == c.inputSize0 && |input1| == c.inputSize1
    requires InputSaid(c, hash, pg, gc, input0, masked, labels, openedBits, digest, io.pair0, io.pair1)
    requires io.incoming == WordBytes(masked) + (BlockBytes(labels) +
               (if c.inputSize1 == 0 then rest else WordBytes(openedBits) + (BlockBytes([digest]) + rest)))
    modifies io`trace, io`incoming
    ensures io.incoming == rest && |inputLabels| == |inputMaskedValues| == c.TotalInputSize()
    ensures InputsMasked(c, pg, pe, gc, input0 + input1, inputLabels, inputMaskedValues)
    ensures io.trace == old(io.trace) + Projected(InputScript(c.inputSize1, masked, labels, openedBits, digest),
                                                  EvaluatorSide)
  {
    hide WordBytes, BlockBytes, OwnInputSaid, LabelsOf, InputsMasked, Authed, Projected;
    ghost var rest0 := if c.inputSize1 == 0 then rest else WordBytes(openedBits) + (BlockBytes([digest]) + rest);
    var words := io.RecvWords(WordsFor(c.inputSize0), masked, BlockBytes(labels) + rest0);
    var values0 := Resized(Unpacked(words), c.inputSize0);
    var labels0 := io.RecvBlocks(c.inputSize0, labels, rest0);
    var labels1: seq<Block>, values1: seq<bool> := [], [];
    if c.inputSize1 == 0 {
      NoLabels(gc, c.inputSize0);
    } else {
      labels1, values1 := EvaluatorOwnInput(io, c, hash, pe, input1, pg, gc, deltaB, openedBits, digest, rest);
    }
    InputsJoin(c, pg, pe, gc, input0, input1, values0, labels0, values1, labels1);
    LabelSizes(gc, c.inputSize0, values1, labels1);
    inputLabels, inputMaskedValues := labels0 + labels1, values0 + values1;
    InputScriptReceived(c.inputSize1, masked, labels, openedBits, digest);
  }

  lemma NoLabels(gc: GarbledCircuit, start: Wire)
    requires start <= |gc.label0| == |gc.label1|
    ensures LabelsOf(gc, start, [], [])
  {
  }

  lemma LabelSizes(gc: GarbledCircuit, start: Wire, values: seq<bool>, labels: seq<Block>)
    requires start + |values| <= |gc.label0| == |gc.label1| && LabelsOf(gc, start, values, labels)
    ensures |labels| == |values|
  {
  }

  lemma InputScriptReceived(inputSize1: nat, masked: seq<Word>, labels: seq<Block>, openedBits: seq<Word>,
                            digest: Block)
    ensures Projected(InputScript(inputSize1, masked, labels, openedBits, digest), EvaluatorSide) ==
            [Recv(|WordBytes(masked)|)] + [Recv(|BlockBytes(labels)|)] +
            if inputSize1 == 0 then []
            else [Transfer(inputSize1)] + [Recv(|WordBytes(openedBits)|)] + [Recv(|BlockBytes([digest])|)]
  {
    hide WordBytes, BlockBytes;
  }

  /** One block per independent wire, asked for in the same order, each kept under its wire's number. */
  method EvaluatorWires(io: NetIO, c: Circuit, t: Order, ghost blocks: seq<Block>, ghost rest: seq<Byte>)
    returns (received: seq<Block>)
    requires c.WellFormed() && OrderFor(c, t) && |blocks| == |c.IndependentWires()|
    requires io.incoming == BlockBytes(blocks) + rest
    modifies io`trace, io`incoming
    ensures received == blocks && io.incoming == rest
    ensures io.trace == old(io.trace) + Projected(WireScript(blocks), EvaluatorSide)
  {
    hide *;
    ghost var before := io.trace;
    NumberedAll(c);
    received := seq(c.TotalInputSize() + c.AndCount(|c.gates|), _ => Zero());
    NothingReceived(received, blocks, rest, before);
    InputNumbers(c, t);
    for w := 0 to c.TotalInputSize()
      invariant ReceivedUpTo(w, received, blocks, rest, before, io.incoming, io.trace)
    {
      received := EvaluatorWire(io, w, IndependentIndexMap(c, t, w), received, blocks, rest, before);
    }
    NumberedSoFar(c, 0);
    for gateIter := 0 to |c.gates|
      invariant c.TotalInputSize() + c.AndCount(gateIter) <= |blocks|
      invariant ReceivedUpTo(c.TotalInputSize() + c.AndCount(gateIter), received, blocks, rest, before, io.incoming,
                             io.trace)
    {
      NumberedSoFar(c, gateIter + 1);
      if c.gates[gateIter].AndGate? {
        AndNumber(c, t, gateIter);
        received := EvaluatorWire(io, c.TotalInputSize() + c.AndCount(gateIter),
                                  IndependentIndexMap(c, t, c.gates[gateIter].out), received, blocks, rest, before);
      } else {
        NoNumber(c, gateIter);
      }
    }
    AllReceived(received, blocks, rest, before, io.incoming, io.trace);
  }

  /** After the first n blocks. */
  ghost predicate ReceivedUpTo(n: nat, received: seq<Block>, blocks: seq<Block>, rest: seq<Byte>, before: seq<Action>,
                               incoming: seq<Byte>, trace: seq<Action>)
  {
    && n <= |blocks| == |received| && received[..n] == blocks[..n] && incoming == BlockBytes(blocks[n..]) + rest
    && trace == before + Projected(WireScript(blocks[..n]), EvaluatorSide)
  }

  lemma NothingReceived(received: seq<Block>, blocks: seq<Block>, rest: seq<Byte>, before: seq<Action>)
    requires |received| == |blocks|
    ensures ReceivedUpTo(0, received, blocks, rest, before, BlockBytes(blocks) + rest, before)
  {
    hide BlockBytes, WireScript, Projected;
    NoWires(blocks, EvaluatorSide);
    assert blocks[0..] == blocks;
  }

  lemma AllReceived(received: seq<Block>, blocks: seq<Block>, rest: seq<Byte>, before: seq<Action>,
                    incoming: seq<Byte>, trace: seq<Action>)
    requires ReceivedUpTo(|blocks|, received, blocks, rest, before, incoming, trace)
    ensures received == blocks && incoming == rest && trace == before + Projected(WireScript(blocks), EvaluatorSide)
  {
    hide BlockBytes, WireScript, Projected;
    NoBlocks();
    assert received[..|received|] == received && blocks[..|blocks|] == blocks && blocks[|blocks|..] == [];
  }

  /** Takes the n-th block and keeps it under the number of its wire, which is n. */
  method EvaluatorWire(io: NetIO, ghost n: nat, number: nat, received: seq<Block>, ghost blocks: seq<Block>,
                       ghost rest: seq<Byte>, ghost before: seq<Action>)
    returns (received': seq<Block>)
    requires number == n < |blocks| && ReceivedUpTo(n, received, blocks, rest, before, io.incoming, io.trace)
    modifies io`trace, io`incoming
    ensures ReceivedUpTo(n + 1, received', blocks, rest, before, io.incoming, io.trace)
  {
    hide BlockBytes, WireScript, Projected;
    assert blocks[n..] == [blocks[n]] + blocks[n + 1..];
    BlockBytesAppend([blocks[n]], blocks[n + 1..]);
    assert io.incoming == BlockBytes([blocks[n]]) + (BlockBytes(blocks[n + 1..]) + rest);
    WireStep(blocks, n, EvaluatorSide);
    var block := io.RecvBlocks(1, [blocks[n]], BlockBytes(blocks[n + 1..]) + rest);
    received' := received[number := block[0]];
  }

  lemma NoBlocks()
    ensures BlockBytes([]) == []
  {
  }

  /** The check: a fresh challenge, the wire blocks, and five bytes of the two accumulators compared. */
  method EvaluatorCheck(io: NetIO, c: Circuit, t: Order, h: LabelHash, expand: Expansion, pe: PreprocessedData,
                        r: EvaluateResult, challenge: Word, ghost wireBlocks: seq<Block>, ghost accumulator: Block)
    returns (accepted: bool)
    requires c.WellFormed() && OrderFor(c, t) && pe.Shaped(c) && |r.labels| == |r.maskedValues| == c.wireSize
    requires Expands(expand)
    requires |wireBlocks| == |c.IndependentWires()|
    requires io.incoming == BlockBytes(wireBlocks) + AccumulatorBytes(accumulator)
    modifies io`trace, io`incoming
    ensures io.incoming == []
    ensures accepted <==>
            LowBytes(accumulator) ==
            LowBytes(Xor(Sum(EvaluatorWireTerms(c, h, r, wireBlocks), |wireBlocks|),
                         InnerProduct(expand(challenge, c.AndGateSize()), GateTerms(c, pe, r.maskedValues),
                                      c.AndGateSize())))
    ensures io.trace == old(io.trace) + [Send(WordBytes([challenge]))] + Projected(WireScript(wireBlocks),
                                                                                   EvaluatorSide)
                        + [Recv(|AccumulatorBytes(accumulator)|)]
  {
    hide WordBytes, BlockBytes, AccumulatorBytes, WireScript, Projected, OrderFor, Sum, InnerProduct,
         EvaluatorWireTerms, GateTerms, LowBytes, Circuit.IndependentWires;
    io.SendWords([challenge]);
    var coeff := expand(challenge, c.AndGateSize());
    var received := EvaluatorWires(io, c, t, wireBlocks, AccumulatorBytes(accumulator));
    var own := EvaluatorAccumulate(c, h, pe, r, coeff, received);
    var ha := io.RecvData(CHALLENGE_BYTES);
    assert ha == AccumulatorBytes(accumulator);
    AccumulatorsAgree(accumulator, own);
    accepted := ha == AccumulatorBytes(own);
  }

  /** With right triples and an evaluation in step, the accumulators agree on the compared bytes. */
  lemma HonestAccepts(c: Circuit, h: LabelHash, src: seq<seq<bool>>, flip: seq<bool>, pg: PreprocessedData,
                      pe: PreprocessedData, deltaA: Block, deltaB: Block, gc: GarbledCircuit, r: EvaluateResult,
                      coeff: seq<Block>, wireBlocks: seq<Block>, accG: Block, accE: Block)
    requires c.WellFormed() && SourcesFor(c, src, flip) && PreprocessingHolds(c, pg, pe, deltaA, deltaB)
    requires |gc.label0| == |gc.label1| == |r.labels| == |r.maskedValues| == c.wireSize
    requires LabelsMatch(c, gc, r) && MaskedLinear(c, r.maskedValues) && FollowsGates(c, Unmasked(r, pg, pe))
    requires CheckSaid(c, h, src, flip, pg, gc, coeff, wireBlocks, accG)
    requires accE == Xor(Sum(EvaluatorWireTerms(c, h, r, wireBlocks), |wireBlocks|),
                         InnerProduct(coeff, GateTerms(c, pe, r.maskedValues), c.AndGateSize()))
    ensures LowBytes(accG) == LowBytes(accE)
  {
    hide Mul, Sum, InnerProduct, EvaluatorWireTerms, GateTerms, WireHashes, Ak0Terms, SentBlock, LabelsMatch,
         MaskedLinear, FollowsGates, Unmasked, TripleHolds, MasksLinear, SourcesFor, Circuit.IndependentWires,
         ErrorTerms, LowBitsZero, LowBytes;
    SourceSizes(c, src, flip);
    CheckExact(c, h, src, flip, pg, pe, deltaB, gc, r, coeff, wireBlocks, accG, accE);
    HonestSum(c, pg, pe, r, coeff, deltaB);
    LowBitsAgree(accG, accE);
  }

  /** From the garbled circuit to the output. */
  method EvaluatorOnline(io: NetIO, c: Circuit, h: LabelHash, hash: seq<Block> -> Block, pe: PreprocessedData,
                         input1: seq<bool>, ghost pg: PreprocessedData, ghost gc: GarbledCircuit, ghost deltaA: Block,
                         ghost deltaB: Block, ghost inputLabel0: seq<Block>, ghost input0: seq<bool>,
                         ghost tr: Transcript)
    returns (r: EvaluateResult, output: seq<bool>)
    requires c.WellFormed() && PreprocessingHolds(c, pg, pe, deltaA, deltaB) && Lsb(deltaA)
    requires NoMaskOnGarblerInputs(c, pe)
    requires pg.Shaped(c) && pe.Shaped(c) && Authed(pg.masks, pe.maskKeys, deltaB)
    requires |gc.label0| == |gc.label1| == c.wireSize && |gc.garbledTables| == |gc.wireMaskShift| == c.AndGateSize()
    requires |inputLabel0| == c.TotalInputSize() && Garbled(c, h, pg, inputLabel0, gc)
    requires |input0| == c.inputSize0 && |input1| == c.inputSize1 && tr.Fits(c)
    requires tr.garbledTables == Flattened(gc.garbledTables) && tr.wireMaskShift == Packed(gc.wireMaskShift)
    requires InputSaid(c, hash, pg, gc, input0, tr.maskedInputs, tr.inputLabels, tr.openedBits, tr.openedHash, io.pair0,
                       io.pair1)
    requires Resized(Unpacked(tr.outputMasks), c.outputSize) == pg.masks.bits[c.wireSize - c.outputSize..]
    requires io.incoming == GarblerBytes(c, tr)
    modifies io`trace, io`incoming
    ensures |r.labels| == |r.maskedValues| == c.wireSize && |input0 + input1| == c.TotalInputSize()
    ensures output == Eval(c, input0 + input1)
    ensures LabelsMatch(c, gc, r) && MaskedLinear(c, r.maskedValues) && FollowsGates(c, Unmasked(r, pg, pe))
    ensures io.incoming == BlockBytes(tr.wireBlocks) + AccumulatorBytes(tr.accumulator)
    ensures io.trace == old(io.trace) + [Recv(|BlockBytes(tr.garbledTables)|)] + [Recv(|WordBytes(tr.wireMaskShift)|)]
            + Projected(InputScript(c.inputSize1, tr.maskedInputs, tr.inputLabels, tr.openedBits, tr.openedHash),
                        EvaluatorSide)
            + [Recv(|WordBytes(tr.outputMasks)|)]
  {
    hide *;
    FitSizes(c, tr, gc, pg, input0, input1);
    BytesInOrder(c, tr);
    var n := c.AndGateSize();
    var blocks := io.RecvBlocks(2 * n, tr.garbledTables, WordBytes(tr.wireMaskShift) + InputBytes(c, tr));
    var words := io.RecvWords(WordsFor(n), tr.wireMaskShift, InputBytes(c, tr));
    TablesRoundTrip(gc.garbledTables);
    PackUnpack(gc.wireMaskShift);
    var garbledTables, wireMaskShift := Unflattened(blocks), Resized(Unpacked(words), n);
    var inputLabels, inputMaskedValues :=
      EvaluatorInput(io, c, hash, pe, input1, pg, gc, deltaB, input0, tr.maskedInputs, tr.inputLabels, tr.openedBits,
                     tr.openedHash, OutputBytes(tr));
    r := Evaluate(c, h, pe, garbledTables, wireMaskShift, inputLabels, inputMaskedValues);
    var rawOutputMasks := io.RecvWords(WordsFor(c.outputSize), tr.outputMasks,
                                       BlockBytes(tr.wireBlocks) + AccumulatorBytes(tr.accumulator));
    EvaluatedSizes(c, h, pe, gc, inputLabels, inputMaskedValues, r);
    output := EvaluatorOutput(c, pe, r.maskedValues, Resized(Unpacked(rawOutputMasks), c.outputSize));
    OnlineCorrect(c, h, pg, pe, deltaA, deltaB, gc, inputLabel0, input0 + input1, inputLabels, inputMaskedValues, r);
    OutputUnmasked(c, pg, pe, r, Resized(Unpacked(rawOutputMasks), c.outputSize), output);
    EvaluationFits(c, h, pe, gc, deltaA, inputLabels, inputMaskedValues, r);
  }

  lemma FitSizes(c: Circuit, tr: Transcript, gc: GarbledCircuit, pg: PreprocessedData, input0: seq<bool>,
                 input1: seq<bool>)
    requires c.WellFormed() && tr.Fits(c) && pg.Shaped(c) && |input0| == c.inputSize0 && |input1| == c.inputSize1
    ensures |input0 + input1| == c.TotalInputSize() && c.outputSize <= c.wireSize == |pg.masks.bits|
    ensures |tr.garbledTables| == 2 * c.AndGateSize() && |tr.wireMaskShift| == WordsFor(c.AndGateSize())
    ensures |tr.outputMasks| == WordsFor(c.outputSize)
  {
  }

  method EvaluatorProgram(io: NetIO, c: Circuit, t: Order, h: LabelHash, hash: seq<Block> -> Block, expand: Expansion,
                          pe: PreprocessedData, input1: seq<bool>, challenge: Word, ghost pg: PreprocessedData,
                          ghost gc: GarbledCircuit, ghost deltaA: Block, ghost deltaB: Block,
                          ghost inputLabel0: seq<Block>, ghost input0: seq<bool>, ghost src: seq<seq<bool>>,
                          ghost flip: seq<bool>, ghost tr: Transcript)
    returns (output: seq<bool>, accepted: bool)
    requires c.WellFormed() && OrderFor(c, t) && SourcesFor(c, src, flip) && Expands(expand)
    requires PreprocessingHolds(c, pg, pe, deltaA, deltaB) && Lsb(deltaA) && NoMaskOnGarblerInputs(c, pe)
    requires |inputLabel0| == c.TotalInputSize() && Garbled(c, h, pg, inputLabel0, gc)
    requires |input0| == c.inputSize0 && |input1| == c.inputSize1
    requires tr.Fits(c) && tr.challenge == challenge
    requires GarblerSaid(c, h, hash, expand, src, flip, pg, gc, input0, tr, io.pair0, io.pair1)
    requires io.trace == [] && io.incoming == GarblerBytes(c, tr)
    modifies io
    ensures output == Eval(c, input0 + input1) && accepted
    ensures io.trace == Projected(Script(c, tr), EvaluatorSide) && io.incoming == []
  {
    hide *;
    GarbledSizes(c, h, hash, expand, src, flip, pg, pe, deltaA, deltaB, gc, inputLabel0, input0, tr, io.pair0,
                 io.pair1);
    BytesInOrder(c, tr);
    var r;
    r, output := EvaluatorOnline(io, c, h, hash, pe, input1, pg, gc, deltaA, deltaB, inputLabel0, input0, tr);
    accepted := EvaluatorCheck(io, c, t, h, expand, pe, r, challenge, tr.wireBlocks, tr.accumulator);
    HonestAccepts(c, h, src, flip, pg, pe, deltaA, deltaB, gc, r, expand(challenge, c.AndGateSize()), tr.wireBlocks,
                  tr.accumulator,
                  Xor(Sum(EvaluatorWireTerms(c, h, r, tr.wireBlocks), |tr.wireBlocks|),
                      InnerProduct(expand(challenge, c.AndGateSize()), GateTerms(c, pe, r.maskedValues),
                                   c.AndGateSize())));
    EvaluatorScript(c, tr);
  }

  /** The garbler's bytes in the order the evaluator takes them. */
  lemma BytesInOrder(c: Circuit, tr: Transcript)
    ensures GarblerBytes(c, tr) == BlockBytes(tr.garbledTables) + (WordBytes(tr.wireMaskShift) + InputBytes(c, tr))
    ensures InputBytes(c, tr) == WordBytes(tr.maskedInputs) + (BlockBytes(tr.inputLabels) +
              (if c.inputSize1 == 0 then OutputBytes(tr)
               else WordBytes(tr.openedBits) + (BlockBytes([tr.openedHash]) + OutputBytes(tr))))
    ensures OutputBytes(tr) ==
            WordBytes(tr.outputMasks) + (BlockBytes(tr.wireBlocks) + AccumulatorBytes(tr.accumulator))
  {
    hide BlockBytes, WordBytes, AccumulatorBytes;
  }

  /** What the evaluator's steps need to know of all that. */
  lemma GarbledSizes(c: Circuit, h: LabelHash, hash: seq<Block> -> Block, expand: Expansion, src: seq<seq<bool>>,
                     flip: seq<bool>, pg: PreprocessedData, pe: PreprocessedData, deltaA: Block, deltaB: Block,
                     gc: GarbledCircuit, inputLabel0: seq<Block>, input0: seq<bool>, tr: Transcript, pair0: seq<Block>,
                     pair1: seq<Block>)
    requires c.WellFormed() && SourcesFor(c, src, flip) && PreprocessingHolds(c, pg, pe, deltaA, deltaB)
    requires Expands(expand)
    requires |inputLabel0| == c.TotalInputSize() && Garbled(c, h, pg, inputLabel0, gc) && |input0| == c.inputSize0
    requires tr.Fits(c) && GarblerSaid(c, h, hash, expand, src, flip, pg, gc, input0, tr, pair0, pair1)
    ensures pg.Shaped(c) && pe.Shaped(c) && Authed(pg.masks, pe.maskKeys, deltaB)
    ensures |pg.masks.bits| == |pe.masks.bits| == c.wireSize
    ensures |gc.label0| == |gc.label1| == c.wireSize && |gc.garbledTables| == |gc.wireMaskShift| == c.AndGateSize()
    ensures |src| == |flip| == c.wireSize && forall w :: 0 <= w < c.wireSize ==> |src[w]| == c.wireSize
    ensures |tr.garbledTables| == 2 * c.AndGateSize() && |tr.wireMaskShift| == WordsFor(c.AndGateSize())
    ensures |tr.outputMasks| == WordsFor(c.outputSize) && |tr.wireBlocks| == |c.IndependentWires()|
    ensures tr.garbledTables == Flattened(gc.garbledTables) && tr.wireMaskShift == Packed(gc.wireMaskShift)
    ensures InputSaid(c, hash, pg, gc, input0, tr.maskedInputs, tr.inputLabels, tr.openedBits, tr.openedHash, pair0,
                      pair1)
    ensures Resized(Unpacked(tr.outputMasks), c.outputSize) == pg.masks.bits[c.wireSize - c.outputSize..]
    ensures CheckSaid(c, h, src, flip, pg, gc, expand(tr.challenge, c.AndGateSize()), tr.wireBlocks, tr.accumulator)
    ensures |expand(tr.challenge, c.AndGateSize())| == c.AndGateSize()
  {
    hide InputSaid, CheckSaid, GarbledGate, TripleHolds, MasksLinear, SourceGate, Circuit.IndependentWires;
  }

  lemma EvaluatedSizes(c: Circuit, h: LabelHash, pe: PreprocessedData, gc: GarbledCircuit, inputLabels: seq<Block>,
                       inputMaskedValues: seq<bool>, r: EvaluateResult)
    requires c.WellFormed() && pe.Shaped(c) && |gc.garbledTables| == |gc.wireMaskShift| == c.AndGateSize()
    requires |inputLabels| == |inputMaskedValues| == c.TotalInputSize()
    requires Evaluated(c, h, pe, gc.garbledTables, gc.wireMaskShift, inputLabels, inputMaskedValues, r)
    ensures |r.labels| == |r.maskedValues| == c.wireSize
  {
    hide EvaluatedGate;
  }

  lemma OutputUnmasked(c: Circuit, pg: PreprocessedData, pe: PreprocessedData, r: EvaluateResult,
                       outputMasks: seq<bool>, output: seq<bool>)
    requires c.WellFormed() && pg.Shaped(c) && pe.Shaped(c) && |r.labels| == |r.maskedValues| == c.wireSize
    requires outputMasks == pg.masks.bits[c.wireSize - c.outputSize..] && |output| == c.outputSize
    requires forall i :: 0 <= i < c.outputSize ==>
               var w := c.wireSize - c.outputSize + i;
               output[i] == ((r.maskedValues[w] != outputMasks[i]) != pe.masks.bits[w])
    ensures output == Unmasked(r, pg, pe)[c.wireSize - c.outputSize..]
  {
  }

  // ---------------------------------------------------------------- both programs

  lemma BytesSent(c: Circuit, tr: Transcript)
    ensures var g := Projected(Script(c, tr), GarblerSide); Sent(g, |g|) == GarblerBytes(c, tr)
  {
    hide Script, GarblerBytes;
    SpokenScript(c, tr);
  }

  lemma RunSizes(c: Circuit, h: LabelHash, pg: PreprocessedData, pe: PreprocessedData, deltaA: Block, deltaB: Block,
                 gc: GarbledCircuit, inputLabel0: seq<Block>)
    requires c.WellFormed() && PreprocessingHolds(c, pg, pe, deltaA, deltaB)
    requires |inputLabel0| == c.TotalInputSize() && Garbled(c, h, pg, inputLabel0, gc)
    ensures pg.Shaped(c) && |gc.label0| == |gc.label1| == c.wireSize
    ensures |gc.garbledTables| == |gc.wireMaskShift| == c.AndGateSize()
  {
    hide GarbledGate, TripleHolds, MasksLinear;
  }

  /** The two programs, each run on exactly the bytes the other one sends: the evaluator obtains the plain
      evaluation and accepts, and what they do is the two sides of one conversation, so that every
      interleaving over the channels delivers those very bytes. */
  method RunOnline(c: Circuit, t: Order, h: LabelHash, hash: seq<Block> -> Block, expand: Expansion, data: GcCheckData,
                   m: XORSourceMatrix, pg: PreprocessedData, pe: PreprocessedData, ghost deltaA: Block,
                   ghost deltaB: Block, gc: GarbledCircuit, ghost inputLabel0: seq<Block>, input0: seq<bool>,
                   input1: seq<bool>, challenge: Word)
    returns (output: seq<bool>, accepted: bool, traceG: seq<Action>, traceE: seq<Action>,
             ghost tr: Transcript, ghost pair0: seq<Block>, ghost pair1: seq<Block>)
    requires c.WellFormed() && OrderFor(c, t) && m.Valid() && m.mat.rowSize == c.wireSize
    requires SourcesFor(c, m.Rows(), m.flip)
    requires GcCheckDataFor(c, m.Rows(), data, |c.gates|) && Expands(expand)
    requires PreprocessingHolds(c, pg, pe, deltaA, deltaB) && Lsb(deltaA) && NoMaskOnGarblerInputs(c, pe)
    requires |inputLabel0| == c.TotalInputSize() && Garbled(c, h, pg, inputLabel0, gc)
    requires |input0| == c.inputSize0 && |input1| == c.inputSize1
    ensures output == Eval(c, input0 + input1) && accepted
    ensures pg.Shaped(c) && |gc.label0| == |gc.label1| == c.wireSize && |m.Rows()| == |m.flip| == c.wireSize
    ensures forall w :: 0 <= w < c.wireSize ==> |m.Rows()[w]| == c.wireSize
    ensures tr.challenge == challenge
    ensures GarblerSaid(c, h, hash, expand, m.Rows(), m.flip, pg, gc, input0, tr, pair0, pair1)
    ensures traceG == Projected(Script(c, tr), GarblerSide) && traceE == Projected(Script(c, tr), EvaluatorSide)
    ensures DualPrograms(traceG, traceE) && AlwaysHealthy(traceG, traceE)
  {
    hide *;
    RowsShape(m);
    RunSizes(c, h, pg, pe, deltaA, deltaB, gc, inputLabel0);
    var garbler := new NetIO(WordBytes([challenge]), [], []);
    tr := GarblerProgram(garbler, c, t, h, hash, expand, data, m, pg, gc, input0, challenge);
    traceG, pair0, pair1 := garbler.trace, garbler.pair0, garbler.pair1;
    BytesSent(c, tr);
    var evaluator := new NetIO(Sent(traceG, |traceG|), garbler.pair0, garbler.pair1);
    output, accepted := EvaluatorProgram(evaluator, c, t, h, hash, expand, pe, input1, challenge, pg, gc, deltaA,
                                         deltaB, inputLabel0, input0, m.Rows(), m.flip, tr);
    traceE := evaluator.trace;
    ProjectionsDual(Script(c, tr));
    DualsAlwaysHealthy(traceG, traceE);
  }
}
