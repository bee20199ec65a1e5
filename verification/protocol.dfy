/** The whole protocol, both parties honest: key sampling, preprocessing with its checks, garbling,
    the online phase and the garbled-circuit check. */
module Protocol {
  import opened Blocks
  import opened Words
  import opened Matrices
  import opened Circuits
  import opened XorSources
  import opened Equality
  import opened Authenticated
  import opened Sums
  import opened DVZK
  import opened Online
  import opened Populate
  import opened KeySampling
  import opened Garbling
  import opened Simulation
  import opened Preprocessing
  import opened SpoiledTriples
  import opened DeltaChecks
  import opened Channels
  import opened Conversation
  import opened OnlineRun

  /** All randomness of a run, of both parties and of the ideal oblivious transfers. */
  datatype RunSeed = RunSeed(sampling: SamplingSeed, compressParam: nat, matrix: Matrix, correlations: CorrelationSeed,
                             circuit: CircuitSeed, checks: CheckSeed, inputLabels: seq<Block>, challenge: Word)
  {
    ghost predicate For(c: Circuit) {
      && sampling.Valid()
      && matrix.Valid() && matrix.rowSize == c.inputSize1 + c.AndGateSize() && matrix.colSize == compressParam
      && correlations.For(compressParam, c.TotalInputSize() + c.AndGateSize(), c.AndGateSize())
      && circuit.For(c.AndGateSize()) && checks.For(compressParam, c.AndGateSize())
      && |inputLabels| == c.TotalInputSize()
    }
  }

  /** The hash functions, all arbitrary. */
  datatype Hashes = Hashes(labels: LabelHash, opening: seq<Block> -> Block, challenge: Expansion,
                           sameBit: Block -> Digest, equality: seq<Block> -> nat)

  /** What the circuit object works out once: source rows, gate order, check data. */
  method PrepareCircuit(c: Circuit) returns (m: XORSourceMatrix, t: Order, data: GcCheckData)
    requires c.WellFormed()
    ensures fresh(m) && m.Valid() && m.mat.rowSize == c.wireSize && SourcesFor(c, m.Rows(), m.flip)
    ensures OrderFor(c, t) && GcCheckDataFor(c, m.Rows(), data, |c.gates|)
  {
    m := new XORSourceMatrix(c.wireSize);
    assert forall w :: 0 <= w < c.wireSize ==> Blank(m.Rows(), m.flip, w);
    hide SourceGate, OrderGate, CheckEntry, Blank;
    PopulateXorSourceMatrix(c, m);
    t := MapWiresOrderGates(c);
    data := InitGcCheckData(c, t, m);
  }

  /** What a run goes through: both parties' keys, correlations, preprocessing and garbled circuit, all that is
      said, and the label pairs handed to the oblivious transfer. */
  datatype Execution = Execution(keys: GlobalKeys, cor: Correlations, pre: Preprocessed, gc: GarbledCircuit,
                                 tr: Transcript, pair0: seq<Block>, pair1: seq<Block>,
                                 src: seq<seq<bool>>, flip: seq<bool>)
  {
    /** Step by step made of what was drawn, up to every byte of the online phase. */
    ghost predicate From(c: Circuit, hashes: Hashes, seed: RunSeed, input0: seq<bool>)
      requires c.WellFormed() && seed.For(c) && |input0| == c.inputSize0
    {
      && keys.Good() && KeysFrom(keys, seed.sampling)
      && cor.Hold(keys, seed.compressParam, c.TotalInputSize() + c.AndGateSize(), c.AndGateSize())
      && CorrelationsFrom(cor, keys, seed.correlations)
      && pre.Correct(c, keys) && PreprocessedFrom(c, keys, seed.matrix, cor, seed.circuit, pre)
      && Garbled(c, hashes.labels, pre.garbler, seed.inputLabels, gc)
      && SourcesFor(c, src, flip) && tr.challenge == seed.challenge
      && GarblerSaid(c, hashes.labels, hashes.opening, hashes.challenge, src, flip, pre.garbler, gc, input0, tr,
                     pair0, pair1)
    }
  }

  lemma SeedParts(c: Circuit, seed: RunSeed)
    requires seed.For(c)
    ensures seed.sampling.Valid() && seed.matrix.Valid() && |seed.inputLabels| == c.TotalInputSize()
    ensures seed.matrix.rowSize == c.inputSize1 + c.AndGateSize() && seed.matrix.colSize == seed.compressParam
    ensures seed.correlations.For(seed.compressParam, c.TotalInputSize() + c.AndGateSize(), c.AndGateSize())
    ensures seed.circuit.For(c.AndGateSize()) && seed.checks.For(seed.compressParam, c.AndGateSize())
    ensures |seed.checks.chalG| == |seed.checks.chalE| == c.AndGateSize()
  {
    hide Matrix.Valid, SamplingSeed.Valid;
  }

  /** What the later phases ask of the preprocessed data. */
  lemma PreparedFor(c: Circuit, keys: GlobalKeys, pre: Preprocessed)
    requires c.WellFormed() && keys.Good() && pre.Correct(c, keys)
    ensures pre.garbler.Shaped(c) && Lsb(keys.deltaA) && NoMaskOnGarblerInputs(c, pre.evaluator)
    ensures |pre.garbler.masks.bits| == |pre.evaluator.masks.bits| == c.wireSize
    ensures AndedBits(c, pre.garbler.masks.bits, pre.andedG.bits)
    ensures AndedBits(c, pre.evaluator.masks.bits, pre.andedE.bits)
  {
    hide Mul, AndedBits, MasksLinear, TripleHolds, TripleSpoiled, BitsAuthed;
  }

  /** For every well-formed circuit without an exposed AND gate, every pair of inputs and every
      random choice: all checks of both parties pass, the evaluator obtains the plain evaluation, and the
      two parties say what the garbling of the drawn randomness and the drawn challenge make them say. */
  method Run(c: Circuit, hashes: Hashes, seed: RunSeed, input0: seq<bool>, input1: seq<bool>)
    returns (output: seq<bool>, samplingChecks: seq<bool>, deltaChecks: CheckResult, garblingCheck: bool,
             traceG: seq<Action>, traceE: seq<Action>, ghost e: Execution)
    requires c.WellFormed() && SafePairs(c) && seed.For(c) && Expands(hashes.challenge)
    requires |input0| == c.inputSize0 && |input1| == c.inputSize1
    ensures output == Eval(c, input0 + input1)
    ensures samplingChecks == [true, true, true, true, true]
    ensures deltaChecks == CheckResult(true, true, true, true, true, true, true)
    ensures garblingCheck && AlwaysHealthy(traceG, traceE)
    ensures e.From(c, hashes, seed, input0)
    ensures traceG == Projected(Script(c, e.tr), GarblerSide) && traceE == Projected(Script(c, e.tr), EvaluatorSide)
  {
    hide Mul, SourcesFor, OrderFor, GcCheckDataFor, TripleHolds, AndedBits, LostChallenges, Garbled, KeysFrom,
         CorrelationsFrom, PreprocessedFrom, GarblerSaid, Script, Projected, Correlations.Hold, Correlations.Authentic,
         Preprocessed.Correct, GlobalKeys.Good, PreprocessingHolds, NoMaskOnGarblerInputs, RunSeed.For, Compared.Of,
         DefectSum, ItemsOf, Sum, Circuit.WellFormed, Circuit.AndGates, SafePairs, Twins, Product, Eval,
         PreprocessedData.Shaped, Matrix.Valid, SamplingSeed.Valid, CorrelationSeed.For, CircuitSeed.For, CheckSeed.For,
         AlwaysHealthy, Channels.DualPrograms, XORSourceMatrix.Valid, Expands;
    SeedParts(c, seed);
    var m, t, data := PrepareCircuit(c);
    var garbler, evaluator;
    garbler, evaluator, samplingChecks := SampleGlobalKeys(seed.sampling);
    var keys := GlobalKeys(garbler.delta, evaluator.delta, garbler.alpha0, evaluator.beta0);
    var cor := Correlate(keys, seed.compressParam, c.TotalInputSize() + c.AndGateSize(), c.AndGateSize(),
                         seed.correlations);
    var pre := Preprocess(c, t, m, keys, seed.matrix, cor, seed.circuit);
    HonestlyAuthentic(keys, cor, seed.compressParam, c.TotalInputSize() + c.AndGateSize(), c.AndGateSize());
    PreparedFor(c, keys, pre);
    ghost var compared;
    deltaChecks, compared := CheckDelta(c, t, keys, cor, seed.compressParam, pre, hashes.sameBit, hashes.equality,
                                        seed.checks);
    SafeRun(c, m.Rows(), m.flip, keys, pre);
    NothingLost(c, pre.garbler.masks.bits, pre.andedG.bits, seed.checks.chalG);
    NothingLost(c, pre.evaluator.masks.bits, pre.andedE.bits, seed.checks.chalE);
    var gc := Garble(c, hashes.labels, pre.garbler, seed.inputLabels);
    ghost var tr, pair0, pair1;
    output, garblingCheck, traceG, traceE, tr, pair0, pair1 :=
      RunOnline(c, t, hashes.labels, hashes.opening, hashes.challenge, data, m, pre.garbler, pre.evaluator, keys.deltaA,
                keys.deltaB, gc, seed.inputLabels, input0, input1, seed.challenge);
    e := Execution(keys, cor, pre, gc, tr, pair0, pair1, m.Rows(), m.flip);
  }
}
