/** Garbling, the online phase and its check as two programs that exchange bytes. */
module Conversation {
  import opened Blocks
  import opened Words
  import opened Bytes
  import opened Circuits
  import opened Packing
  import opened GarbledCheck
  import opened Channels

  const BLOCK_BYTES := 16
  const WORD_BYTES := 8
  const CHALLENGE_BYTES := 5

  // ---------------------------------------------------------------- values as bytes

  function ToBytes(bits: seq<bool>): (r: seq<Byte>)
    requires |bits| % BYTE_BITS == 0
    ensures |r| == |bits| / BYTE_BITS
    ensures forall p :: 0 <= p < |r| ==> r[p] == bits[BYTE_BITS * p..BYTE_BITS * p + BYTE_BITS]
  {
    seq(|bits| / BYTE_BITS, p requires 0 <= p < |bits| / BYTE_BITS => bits[BYTE_BITS * p..BYTE_BITS * p + BYTE_BITS])
  }

  function FromBytes(bytes: seq<Byte>): (r: seq<bool>)
    ensures |r| == BYTE_BITS * |bytes|
    ensures forall i :: 0 <= i < |r| ==> r[i] == bytes[i / BYTE_BITS][i % BYTE_BITS]
  {
    seq(BYTE_BITS * |bytes|, i requires 0 <= i < BYTE_BITS * |bytes| => bytes[i / BYTE_BITS][i % BYTE_BITS])
  }

  lemma BytesRoundTrip(bits: seq<bool>)
    requires |bits| % BYTE_BITS == 0
    ensures FromBytes(ToBytes(bits)) == bits
  {
    forall i | 0 <= i < |bits| ensures FromBytes(ToBytes(bits))[i] == bits[i] {
      assert i == BYTE_BITS * (i / BYTE_BITS) + i % BYTE_BITS;
    }
  }

  lemma ToBytesAppend(a: seq<bool>, b: seq<bool>)
    requires |a| % BYTE_BITS == |b| % BYTE_BITS == 0
    ensures ToBytes(a + b) == ToBytes(a) + ToBytes(b)
  {
    var n := |a| / BYTE_BITS;
    forall p | 0 <= p < |ToBytes(a + b)| ensures ToBytes(a + b)[p] == (ToBytes(a) + ToBytes(b))[p] {
      if p >= n {
        assert (a + b)[BYTE_BITS * p..BYTE_BITS * p + BYTE_BITS] ==
               b[BYTE_BITS * (p - n)..BYTE_BITS * (p - n) + BYTE_BITS];
      }
    }
  }

  function BlockBytes(blocks: seq<Block>): (r: seq<Byte>)
    ensures |r| == BLOCK_BYTES * |blocks|
  {
    ToBytes(BlocksToBits(blocks))
  }

  function BytesToBlocks(bytes: seq<Byte>): seq<Block> {
    BitsToBlocks(FromBytes(bytes))
  }

  lemma BlocksRoundTrip(blocks: seq<Block>)
    ensures BytesToBlocks(BlockBytes(blocks)) == blocks
  {
    BytesRoundTrip(BlocksToBits(blocks));
    BitsBlocksRoundTrip(blocks);
  }

  lemma PositionAfter(i: nat, n: nat)
    requires i >= BLOCK_BITS * n
    ensures i / BLOCK_BITS - n == (i - BLOCK_BITS * n) / BLOCK_BITS
    ensures i % BLOCK_BITS == (i - BLOCK_BITS * n) % BLOCK_BITS
  {
  }

  lemma BlockBitsAppend(a: seq<Block>, b: seq<Block>)
    ensures BlocksToBits(a + b) == BlocksToBits(a) + BlocksToBits(b)
  {
    forall i | 0 <= i < BLOCK_BITS * |a + b| ensures BlocksToBits(a + b)[i] == (BlocksToBits(a) + BlocksToBits(b))[i] {
      BlockBitAppend(a, b, i);
    }
  }

  lemma BlockBitAppend(a: seq<Block>, b: seq<Block>, i: nat)
    requires i < BLOCK_BITS * |a + b|
    ensures BlocksToBits(a + b)[i] == (BlocksToBits(a) + BlocksToBits(b))[i]
  {
    if i >= BLOCK_BITS * |a| { PositionAfter(i, |a|); }
  }

  lemma BlockBytesAppend(a: seq<Block>, b: seq<Block>)
    ensures BlockBytes(a + b) == BlockBytes(a) + BlockBytes(b)
  {
    hide BlocksToBits, ToBytes;
    BlockBitsAppend(a, b);
    ToBytesAppend(BlocksToBits(a), BlocksToBits(b));
  }

  function WordBytes(words: seq<Word>): (r: seq<Byte>)
    ensures |r| == WORD_BYTES * |words|
  {
    ToBytes(Unpacked(words))
  }

  function BytesToWords(bytes: seq<Byte>): seq<Word> {
    Packed(FromBytes(bytes))
  }

  lemma WordsRoundTrip(words: seq<Word>)
    ensures BytesToWords(WordBytes(words)) == words
  {
    hide ToBytes, FromBytes, Unpacked, Packed;
    BytesRoundTrip(Unpacked(words));
    PackedUnpacked(words);
  }

  lemma PackedUnpacked(words: seq<Word>)
    ensures Packed(Unpacked(words)) == words
  {
    hide Unpacked, Packed;
    WholeWords(|words|);
    forall i | 0 <= i < |words| ensures Packed(Unpacked(words))[i] == words[i] {
      PackedWord(words, i);
    }
  }

  lemma WholeWords(n: nat)
    ensures WordsFor(WORD_BITS * n) == n
  {
  }

  lemma PackedWord(words: seq<Word>, i: nat)
    requires i < |words|
    ensures Packed(Unpacked(words))[i] == words[i]
  {
    UnpackedBit(words, i);
  }

  lemma UnpackedBit(words: seq<Word>, i: nat)
    requires i < |words|
    ensures forall j :: 0 <= j < WORD_BITS ==> Unpacked(words)[WORD_BITS * i + j] == words[i][j]
  {
    forall j | 0 <= j < WORD_BITS ensures Unpacked(words)[WORD_BITS * i + j] == words[i][j] {
      PositionIn(i, j);
    }
  }

  lemma PositionIn(i: nat, j: nat)
    requires j < WORD_BITS
    ensures (WORD_BITS * i + j) / WORD_BITS == i && (WORD_BITS * i + j) % WORD_BITS == j
  {
  }

  /** The five bytes of an accumulator that are sent. */
  function AccumulatorBytes(b: Block): (r: seq<Byte>)
    ensures |r| == CHALLENGE_BYTES
  {
    ToBytes(LowBytes(b))
  }

  lemma AccumulatorsAgree(a: Block, b: Block)
    ensures AccumulatorBytes(a) == AccumulatorBytes(b) <==> LowBytes(a) == LowBytes(b)
  {
    BytesRoundTrip(LowBytes(a));
    BytesRoundTrip(LowBytes(b));
  }

  /** The two halves of every garbled table, in the order they lie in memory. */
  function Flattened(tables: seq<(Block, Block)>): (r: seq<Block>)
    ensures |r| == 2 * |tables|
    ensures forall i :: 0 <= i < |r| ==> r[i] == if i % 2 == 0 then tables[i / 2].0 else tables[i / 2].1
  {
    seq(2 * |tables|, i requires 0 <= i < 2 * |tables| => if i % 2 == 0 then tables[i / 2].0 else tables[i / 2].1)
  }

  function Unflattened(blocks: seq<Block>): (r: seq<(Block, Block)>)
    ensures |r| == |blocks| / 2
    ensures forall i :: 0 <= i < |r| ==> r[i] == (blocks[2 * i], blocks[2 * i + 1])
  {
    seq(|blocks| / 2, i requires 0 <= i < |blocks| / 2 => (blocks[2 * i], blocks[2 * i + 1]))
  }

  lemma TablesRoundTrip(tables: seq<(Block, Block)>)
    ensures Unflattened(Flattened(tables)) == tables
  {
  }

  // ---------------------------------------------------------------- the conversation

  datatype Party = GarblerSide | EvaluatorSide

  datatype Event = Message(sender: Party, data: seq<Byte>) | Exchange(count: nat)

  /** Everything that is said, as values. */
  datatype Transcript = Transcript(
    garbledTables: seq<Block>, wireMaskShift: seq<Word>, maskedInputs: seq<Word>, inputLabels: seq<Block>,
    openedBits: seq<Word>, openedHash: Block, outputMasks: seq<Word>, challenge: Word, wireBlocks: seq<Block>,
    accumulator: Block)
  {
    /** The lengths the receivers expect. */
    ghost predicate Fits(c: Circuit)
      requires c.WellFormed()
    {
      && |garbledTables| == 2 * c.AndGateSize() && |wireMaskShift| == WordsFor(c.AndGateSize())
      && |maskedInputs| == WordsFor(c.inputSize0) && |inputLabels| == c.inputSize0
      && (c.inputSize1 != 0 ==> |openedBits| == WordsFor(c.inputSize1))
      && |outputMasks| == WordsFor(c.outputSize) && |wireBlocks| == |c.IndependentWires()|
    }
  }

  function ActionOf(ev: Event, party: Party): Action {
    match ev
    case Message(sender, data) => if sender == party then Send(data) else Recv(|data|)
    case Exchange(count) => Transfer(count)
  }

  function Projected(script: seq<Event>, party: Party): (r: seq<Action>)
    ensures |r| == |script| && forall i :: 0 <= i < |r| ==> r[i] == ActionOf(script[i], party)
  {
    seq(|script|, i requires 0 <= i < |script| => ActionOf(script[i], party))
  }

  lemma ProjectionsDual(script: seq<Event>)
    ensures DualPrograms(Projected(script, GarblerSide), Projected(script, EvaluatorSide))
  {
  }

  lemma ProjectedAppend(a: seq<Event>, b: seq<Event>, party: Party)
    ensures Projected(a + b, party) == Projected(a, party) + Projected(b, party)
  {
  }

  function FromGarbler(data: seq<Byte>): Event {
    Message(GarblerSide, data)
  }

  function GarbleScript(tables: seq<Block>, shift: seq<Word>): seq<Event> {
    [FromGarbler(BlockBytes(tables)), FromGarbler(WordBytes(shift))]
  }

  function InputScript(inputSize1: nat, masked: seq<Word>, labels: seq<Block>, openedBits: seq<Word>,
                       digest: Block): seq<Event>
  {
    [FromGarbler(WordBytes(masked)), FromGarbler(BlockBytes(labels))]
    + (if inputSize1 == 0 then []
       else [Exchange(inputSize1), FromGarbler(WordBytes(openedBits)), FromGarbler(BlockBytes([digest]))])
  }

  function OutputScript(outputMasks: seq<Word>, challenge: Word): seq<Event> {
    [FromGarbler(WordBytes(outputMasks)), Message(EvaluatorSide, WordBytes([challenge]))]
  }

  /** One block per independent wire, inputs first, then AND outputs in gate order. */
  function WireScript(blocks: seq<Block>): (r: seq<Event>)
    ensures |r| == |blocks| && forall i :: 0 <= i < |r| ==> r[i] == FromGarbler(BlockBytes([blocks[i]]))
  {
    seq(|blocks|, i requires 0 <= i < |blocks| => FromGarbler(BlockBytes([blocks[i]])))
  }

  /** Everything the two parties say to each other from garbling to the end. */
  function Script(c: Circuit, tr: Transcript): seq<Event> {
    GarbleScript(tr.garbledTables, tr.wireMaskShift)
    + InputScript(c.inputSize1, tr.maskedInputs, tr.inputLabels, tr.openedBits, tr.openedHash)
    + OutputScript(tr.outputMasks, tr.challenge) + WireScript(tr.wireBlocks)
    + [FromGarbler(AccumulatorBytes(tr.accumulator))]
  }

  /** All bytes the garbler sends, in order. */
  function GarblerBytes(c: Circuit, tr: Transcript): seq<Byte> {
    BlockBytes(tr.garbledTables) + (WordBytes(tr.wireMaskShift) + InputBytes(c, tr))
  }

  function InputBytes(c: Circuit, tr: Transcript): seq<Byte> {
    WordBytes(tr.maskedInputs) + (BlockBytes(tr.inputLabels) +
    (if c.inputSize1 == 0 then OutputBytes(tr)
     else WordBytes(tr.openedBits) + (BlockBytes([tr.openedHash]) + OutputBytes(tr))))
  }

  function OutputBytes(tr: Transcript): seq<Byte> {
    WordBytes(tr.outputMasks) + (BlockBytes(tr.wireBlocks) + AccumulatorBytes(tr.accumulator))
  }

  lemma {:induction false} SentAppend(p: seq<Action>, q: seq<Action>, n: nat)
    requires n <= |q|
    ensures Sent(p + q, |p| + n) == Sent(p, |p|) + Sent(q, n)
  {
    hide DataOf;
    if n == 0 {
      SentOfPrefix(p, q, |p|);
    } else {
      SentAppend(p, q, n - 1);
      LastSent(p + q, |p| + n, q[n - 1]);
      LastSent(q, n, q[n - 1]);
    }
  }

  lemma LastSent(p: seq<Action>, n: nat, a: Action)
    requires 0 < n <= |p| && p[n - 1] == a
    ensures Sent(p, n) == Sent(p, n - 1) + DataOf(a)
  {
  }

  lemma {:induction false} SentOfPrefix(p: seq<Action>, q: seq<Action>, n: nat)
    requires n <= |p|
    ensures Sent(p + q, n) == Sent(p, n)
  {
    if n > 0 { SentOfPrefix(p, q, n - 1); }
  }

  /** The bytes the garbler says in a stretch of the conversation. */
  function Spoken(script: seq<Event>): seq<Byte> {
    Sent(Projected(script, GarblerSide), |script|)
  }

  lemma SpokenAppend(a: seq<Event>, b: seq<Event>)
    ensures Spoken(a + b) == Spoken(a) + Spoken(b)
  {
    hide Sent, Projected;
    ProjectedAppend(a, b, GarblerSide);
    SentAppend(Projected(a, GarblerSide), Projected(b, GarblerSide), |b|);
  }

  /** What one event adds. */
  lemma SpokenOne(ev: Event)
    ensures Spoken([ev]) == if ev.Message? && ev.sender == GarblerSide then ev.data else []
  {
    var p := Projected([ev], GarblerSide);
    assert Sent(p, 1) == Sent(p, 0) + DataOf(p[0]);
  }

  lemma SpokenTwo(x: Event, y: Event)
    ensures Spoken([x, y]) == Spoken([x]) + Spoken([y])
  {
    hide Spoken;
    assert [x, y] == [x] + [y];
    SpokenAppend([x], [y]);
  }

  lemma {:induction false} SpokenWires(blocks: seq<Block>)
    ensures Spoken(WireScript(blocks)) == BlockBytes(blocks)
  {
    hide BlockBytes, Spoken;
    if blocks == [] {
      assert BlockBytes([]) == [];
      assert WireScript([]) == [];
      NothingSpoken();
    } else {
      var n := |blocks| - 1;
      SpokenWires(blocks[..n]);
      BlockBytesAppend(blocks[..n], [blocks[n]]);
      assert blocks == blocks[..n] + [blocks[n]];
      assert WireScript(blocks) == WireScript(blocks[..n]) + [FromGarbler(BlockBytes([blocks[n]]))];
      SpokenAppend(WireScript(blocks[..n]), [FromGarbler(BlockBytes([blocks[n]]))]);
      SpokenOne(FromGarbler(BlockBytes([blocks[n]])));
    }
  }

  lemma NothingSpoken()
    ensures Spoken([]) == []
  {
  }

  lemma SpokenGarble(tables: seq<Block>, shift: seq<Word>)
    ensures Spoken(GarbleScript(tables, shift)) == BlockBytes(tables) + WordBytes(shift)
  {
    hide Spoken, BlockBytes, WordBytes;
    var x, y := FromGarbler(BlockBytes(tables)), FromGarbler(WordBytes(shift));
    SpokenTwo(x, y);
    SpokenOne(x);
    SpokenOne(y);
  }

  lemma SpokenInput(inputSize1: nat, masked: seq<Word>, labels: seq<Block>, openedBits: seq<Word>, digest: Block)
    ensures Spoken(InputScript(inputSize1, masked, labels, openedBits, digest)) ==
            WordBytes(masked) + BlockBytes(labels) +
            if inputSize1 == 0 then [] else WordBytes(openedBits) + BlockBytes([digest])
  {
    hide Spoken, BlockBytes, WordBytes;
    var x, y := FromGarbler(WordBytes(masked)), FromGarbler(BlockBytes(labels));
    SpokenTwo(x, y);
    SpokenOne(x);
    SpokenOne(y);
    if inputSize1 == 0 {
      assert InputScript(inputSize1, masked, labels, openedBits, digest) == [x, y];
    } else {
      var t, u, v := Exchange(inputSize1), FromGarbler(WordBytes(openedBits)), FromGarbler(BlockBytes([digest]));
      assert InputScript(inputSize1, masked, labels, openedBits, digest) == [x, y] + ([t] + [u, v]);
      SpokenAppend([x, y], [t] + [u, v]);
      SpokenAppend([t], [u, v]);
      SpokenTwo(u, v);
      SpokenOne(t);
      SpokenOne(u);
      SpokenOne(v);
    }
  }

  lemma SpokenOutput(outputMasks: seq<Word>, challenge: Word)
    ensures Spoken(OutputScript(outputMasks, challenge)) == WordBytes(outputMasks)
  {
    hide Spoken, WordBytes;
    var x, y := FromGarbler(WordBytes(outputMasks)), Message(EvaluatorSide, WordBytes([challenge]));
    SpokenTwo(x, y);
    SpokenOne(x);
    SpokenOne(y);
  }

  /** The garbler's half of the conversation carries exactly its bytes. */
  lemma SpokenScript(c: Circuit, tr: Transcript)
    ensures Spoken(Script(c, tr)) == GarblerBytes(c, tr)
  {
    hide Spoken, BlockBytes, WordBytes, AccumulatorBytes, WireScript, GarbleScript, InputScript, OutputScript;
    var s0 := GarbleScript(tr.garbledTables, tr.wireMaskShift);
    var s1 := InputScript(c.inputSize1, tr.maskedInputs, tr.inputLabels, tr.openedBits, tr.openedHash);
    var s2 := OutputScript(tr.outputMasks, tr.challenge);
    var last := FromGarbler(AccumulatorBytes(tr.accumulator));
    SpokenAppend(s0, s1);
    SpokenAppend(s0 + s1, s2);
    SpokenAppend(s0 + s1 + s2, WireScript(tr.wireBlocks));
    SpokenAppend(s0 + s1 + s2 + WireScript(tr.wireBlocks), [last]);
    SpokenGarble(tr.garbledTables, tr.wireMaskShift);
    SpokenInput(c.inputSize1, tr.maskedInputs, tr.inputLabels, tr.openedBits, tr.openedHash);
    SpokenOutput(tr.outputMasks, tr.challenge);
    SpokenWires(tr.wireBlocks);
    SpokenOne(last);
    Regrouped(BlockBytes(tr.garbledTables), WordBytes(tr.wireMaskShift), WordBytes(tr.maskedInputs),
              BlockBytes(tr.inputLabels), WordBytes(tr.openedBits), BlockBytes([tr.openedHash]),
              WordBytes(tr.outputMasks), BlockBytes(tr.wireBlocks), AccumulatorBytes(tr.accumulator));
  }

  lemma Regrouped(a: seq<Byte>, b: seq<Byte>, c: seq<Byte>, d: seq<Byte>, e: seq<Byte>, f: seq<Byte>, g: seq<Byte>,
                  h: seq<Byte>, i: seq<Byte>)
    ensures a + b + (c + d + (e + f)) + g + h + i == a + (b + (c + (d + (e + (f + (g + (h + i)))))))
    ensures a + b + (c + d + []) + g + h + i == a + (b + (c + (d + (g + (h + i)))))
  {
  }

  /** For every conversation, the two parties' programs stay healthy under every interleaving: no deadlock,
      and each receive takes exactly the bytes of the same-numbered send. */
  lemma ConversationNeverStuck(c: Circuit, tr: Transcript, run: seq<State>)
    requires IsRun(Projected(Script(c, tr), GarblerSide), Projected(Script(c, tr), EvaluatorSide), run)
    ensures var g, e := Projected(Script(c, tr), GarblerSide), Projected(Script(c, tr), EvaluatorSide);
            var s := run[|run| - 1];
            && Healthy(g, e, s)
            && (AtEnd(g, e, s) ==> Joined(s.gotE) == GarblerBytes(c, tr))
    ensures |run| <= 2 * |Script(c, tr)| + 1
  {
    hide Script, GarblerBytes, IsRun;
    ProjectionsDual(Script(c, tr));
    NeverStuck(Projected(Script(c, tr), GarblerSide), Projected(Script(c, tr), EvaluatorSide), run);
    SpokenScript(c, tr);
  }
}
