# A verified model of libAuthGC

libAuthGC runs two-party computation on a Boolean circuit with authenticated half-gates garbling.
A garbler and an evaluator hold XOR shares of a mask on every wire, each share authenticated by an
information-theoretic MAC `mac = key ^ bit*Delta` under the other party's global key.  The base oblivious
transfer is the Kyber-based Endemic OT.  This project models the whole honest protocol in Dafny and proves
that it computes the circuit, what each of its checks decides exactly, and that it cannot deadlock.

- `blocks`, `sums`, `arithmetic`: 128-bit blocks as the ring of binary polynomials modulo
  X^128 + X^7 + X^2 + X + 1, all ring laws proved; XOR-sums over vectors and tables.
- `field`, `word_polynomials`, `inversion`, `field_theorem`: `gf_inverse`, and the proof that this ring is a
  field, by showing that 127 rounds of a -> a^2 + a take X^127 to 1.
- `words`, `matrix`, `products`: packed bit sets and bit matrices, and their products.
- `circuit`, `xor_sources`: circuits, plain evaluation, source rows, wire numbering, check data.
- `authed`, `packing`, `correlated_ot`, `dvzk`, `equality`: authenticated bits and blocks, opening,
  zero-knowledge product proofs, equality checks.
- `key_sampling`, `populate`, `ab`, `preprocess`, `spoiled`, `check_delta`: preprocessing.
- `garble`, `simulation`, `online`, `gc_check`: garbling, evaluation, the online phase and its check.
- `bytes`, `channels`: processes over FIFO byte channels.
- `conversation`, `online_run`: the values exchanged as bytes, and both parties' programs on those bytes.
- `protocol`: the composition.
- `kyber_arithmetic`, `kyber_packing`, `kyber_bytes`, `endemic_ot`, `rejection`: the Kyber part.

Code that fills vectors step by step is written as methods with loops, and objects whose fields change are
classes; each is proved against a predicate or function, and the theorems are lemmas about those.  Random
draws, generator output, hash functions and the results of oblivious transfer are parameters, so every
statement holds for all of them.  Oblivious transfer is ideal: the receiver gets the chosen one of each pair.

What the code assumes of a circuit file and does not check is the predicate `Circuit.WellFormed`: gates in
topological order, every wire other than the inputs written exactly once, outputs on the last wires.

Where code and comments disagree the model follows the code.  The comments of `compare_hash_high` and
`compare_hash_low` speak of 128-bit halves; the code exchanges 64-bit halves.  The comment inside
`_assign_not` describes a negative list; the code copies the row and flips one bit.

One property fails as usually stated.  The products of mask pairs are stored under the ordered pair of input
wires, so of two AND gates on the same ordered pair the earlier one loses its product.
`SpoiledTriples.RepeatedPairFailsTriple` is the smallest case.  `Populate.AndedBitsExact` and
`SpoiledTriples.HoldsExactly` say exactly when the masks of a run are nevertheless harmless, and
`SpoiledTriples.SafeExactly` says exactly which circuits are safe for all masks: those without an exposed AND
gate, one that a later gate repeats and whose two inputs both have a source.  In particular a circuit that
repeats no ordered pair is safe.

## Model

| member | source | states |
|---|---|---|
| `Protocol.Run` | src/2PC_execution.cpp:6-121 | every honest run, on every well-formed circuit without an exposed AND gate, for all inputs, keys, masks, labels, hashes and challenges: every check passes, the output is the plain evaluation of the circuit, the two programs never deadlock, and keys, correlations, shares, tables and every byte of the online phase are the ones the drawn randomness, labels and challenge give |
| `Online.OnlineCorrect` | src/2PC_execution.cpp:65-120 | for all inputs, masks, keys, labels and hashes meeting the preprocessing relation with lsb(deltaA) = 1, the unmasked output wires are the plain evaluation, and every wire stays in step |
| `OnlineRun.RunOnline` | src/2PC_execution.cpp:13-120 | the two programs, each run on exactly the bytes the other sends, yield the plain evaluation and acceptance; their traces are the two sides of one stated conversation, with the drawn challenge and the check blocks for it, healthy under every interleaving |
| `Preprocessing.Preprocess` | src/preprocess.cpp:296-345 | an honest run leaves masks and mask keys grown from aMatrix and from matrix * bStar, the triple shares drawn in step 5 with their MACs and keys under deltaB, all other keys fixed from what was drawn, every MAC valid, no mask on the garbler inputs, and for each AND gate a triple that is right if and only if no dropped product spoils it |
| `SpoiledTriples.HoldsExactly` | src/preprocess.cpp:23-52 | a run's preprocessing is complete exactly when no AND gate with a later twin has differing products |
| `SpoiledTriples.SpoilableExactly` | src/preprocess.cpp:33-51 | whatever the compression matrix, some draw of the random bits spoils the triple of an AND gate exactly when a later gate reads the same ordered pair and both inputs have a source |
| `SpoiledTriples.SafeExactly` | src/preprocess.cpp:33-51 | the condition on the circuit is exact: no AND gate is exposed if and only if no draw can spoil any triple |
| `SpoiledTriples.DistinctPairsSafe` | src/preprocess.cpp:33-51 | a circuit on which no two AND gates read the same ordered pair of wires meets that condition |
| `SpoiledTriples.SafeRun` | src/preprocess.cpp:311-341 | on a circuit without exposed gates no run loses a product or a triple |
| `Preprocessing.ExchangeTriples` | src/preprocess.cpp:311-341 | after the one lowest-bit exchange the two shares of every triple add up to the product of the two mask sums, except exactly where a spoiled product says otherwise |
| `GarbledCheck.CheckExact` | src/gc_check.cpp:46-219 | for all challenges and labels held on independent wires, the two accumulators differ by exactly deltaB times the sum of the challenges of the inconsistent AND gates |
| `GarbledCheck.Check` | src/gc_check.cpp:136-218 | the two parties run against each other accept exactly when the five compared bytes of that difference vanish |
| `DeltaChecks.CheckDelta` | src/preprocess.cpp:347-398 | whatever values and keys went into the extensions: each streaming proof passes exactly when the challenges of its prover's wrong products cancel, the batch proof exactly when those of the wrong products bStar * deltaB do, each of the four comparisons exactly when the stated blocks hash alike; in an honest run the last five pass |
| `DeltaChecks.ComparedExactly` | src/preprocess.cpp:376-397 | what the comparisons establish: with a non-zero temporary key the compared blocks are all equal if and only if the evaluator's keys of step 4 are the MACs of step 3 followed by deltaB and its step 5 product agrees |
| `DeltaChecks.HonestCompared` | src/preprocess.cpp:376-397 | in an honest run all compared blocks are equal |
| `KeySampling.SampleGlobalKeys` | include/ATLab/global_key_sampling.hpp:30-96 | whatever both parties draw, all five comparisons and proofs up to step 6e pass, lsb(deltaA) = lsb(deltaA*deltaB) = 1 and alpha_0 ^ beta_0 = deltaA*deltaB; the keys are the drawn ones but for deltaA's lowest bit, set, and deltaB's, flipped exactly when the product would be even; alpha_0 is the key drawn for deltaB, shifted with that flip |
| `KeySampling.KeysDetermined` | include/ATLab/global_key_sampling.hpp:30-57 | what was drawn determines both keys and both shares |
| `Channels.NeverStuck` | src/2PC_execution.cpp:6-121 | two dual programs over FIFO byte channels, where a receive takes any bytes as soon as enough have arrived: under every interleaving no deadlock, every receive got exactly the bytes of the same-numbered send, both meet in the same transfer, nothing is left over at the end, and no run is longer than both programs |
| `Conversation.ConversationNeverStuck` | src/2PC_execution.cpp:13-120 | this holds of garbling, the online phase and its check, for every circuit and all values exchanged, and the evaluator receives exactly the garbler's byte string |
| `EndemicOT.Exchange` | src/EndemicOT/Endemic_OT_C.c:45-90 | for either choice bit, any hash and expansion, and any canonical public key, the key the sender rebuilds for the chosen branch is the receiver's key byte for byte, seed included |
| `RejectionSampling.GenEntry` | libs/Kyber/src/indcpa.c:195-207 | the 256 sampled coefficients are the first 256 candidates below q of one pass over the whole output stream |
| `RejectionSampling.CandidatesSpell` | libs/Kyber/src/indcpa.c:144-147 | the candidates are the stream's bits: of every byte triple, read lowest byte first, the low and the high twelve bits |
| `RejectionSampling.AcceptedExactly` | libs/Kyber/src/indcpa.c:149-152 | a candidate is kept exactly when it is below q, behind the kept ones before it, and nothing else is kept |
| `FieldTheorem.InverseCorrect` | src/utils.cpp:103-125 | gf_inverse returns a true two-sided inverse of every non-zero block |
| `Blocks.MulAssoc` | include/ATLab/utils.hpp:143-147 | multiplication of blocks is associative |
| `Blocks.MulComm` | include/ATLab/utils.hpp:143-147 | multiplication of blocks is commutative |
| `Blocks.MulDistLeft` | include/ATLab/utils.hpp:143-147 | multiplication distributes over XOR |
| `Blocks.MulOne` | include/ATLab/utils.hpp:143-147 | the block 1 is the unit of multiplication |
| `Field.GfInverse` | src/utils.cpp:103-125 | the repeated-squaring loop computes x^(2^128 - 2); its invariant is x^(2^k - 1) and x^(2^k - 2) |
| `Field.FrobeniusIsPow` | src/utils.cpp:105-113 | squaring k times raises to the power 2^k |
| `FieldTheorem.NonZeroPower` | src/utils.cpp:118-122 | x^(2^128 - 1) = 1 for every non-zero block: the modulus really gives a field |
| `Equality.NoZeroDivisors` | src/utils.cpp:103-125 | a product of non-zero blocks is non-zero |
| `Inversion.ReachesOne` | src/utils.cpp:103-125 | a -> a^2 + a applied 127 times to X^127 gives 1, by computation on 128-bit words |
| `WordPolynomials.VStep` | src/utils.cpp:105-107 | the word-level step computes a -> a^2 + a of blocks |
| `Words.ClearLowest` | include/ATLab/matrix.hpp:184-188 | m & (m - 1) clears the lowest set bit and nothing else |
| `Words.DecrementValue` | include/ATLab/matrix.hpp:188 | the word decrement is subtraction of one on the numbers |
| `Words.PackUnpack` | include/ATLab/utils.hpp:79-125 | a bit set survives the trip through 64-bit words at every length |
| `Matrices.ForEachSetBit` | include/ATLab/matrix.hpp:177-196 | the loop visits exactly the set columns below colSize, in increasing order |
| `Matrices.SetColumnsMeaning` | include/ATLab/matrix.hpp:177-196 | the visited columns are the set ones, each once, increasing |
| `Matrices.RowTimes` | include/ATLab/matrix.hpp:198-216 | row times vector is the XOR of the selected entries |
| `Matrices.AlongSetColumns` | include/ATLab/matrix.hpp:198-216 | summing along the visited columns is summing over the whole selector row |
| `Matrices.BitwiseInnerProduct` | src/matrix.cpp:213-231 | the word-parallel product is the parity of the positions where both bits are set |
| `Matrices.PaddingIrrelevant` | src/matrix.cpp:101-155 | the popcount product equals the column-by-column product even when row padding bits are not zero |
| `Matrices.DotOfScaled` | src/matrix.cpp:129-155 | XORing scaled copies of one block along a row scales it by the parity: the two products agree |
| `Matrices.ZeroMatrixRowPadding` | include/ATLab/matrix.hpp:263-281 | clears, in place, exactly the bits beyond the column count of every row |
| `MatrixProducts.TimesBits` | src/matrix.cpp:129-155 | bits by the popcount product, MACs by the set-bit walk |
| `MatrixProducts.TimesBitKeys` | src/matrix.cpp:157-166 | the keys go through the same set-bit walk, the global keys stay |
| `MatrixProducts.TimesBlocks` | src/matrix.cpp:168-193 | blocks and MACs go through the same walk |
| `MatrixProducts.TimesBlockKeys` | src/matrix.cpp:195-211 | keys of blocks go through the same walk |
| `MatrixProducts.ProductBitsAuthed` | src/matrix.cpp:129-166 | matrix times authenticated bits is authenticated by matrix times keys under the same global key |
| `MatrixProducts.ProductBlocksAuthed` | src/matrix.cpp:168-211 | the same for authenticated blocks |
| `Circuits.EvalUnique` | include/ATLab/circuit_parser.hpp:162-193 | plain evaluation is the only assignment that extends the inputs and respects every gate |
| `Circuits.EvalOutput` | src/2PC_execution.cpp:109-117 | any assignment that extends the inputs and respects every gate carries the outputs on the last wires |
| `Circuits.Circuit.AndPosition` | include/ATLab/circuit_parser.hpp:291-298 | gate k is at its own count in the AND order |
| `Circuits.Circuit.AndPositionInverse` | include/ATLab/circuit_parser.hpp:291-298 | and the i-th AND gate has count i |
| `XorSources.SourceMeaning` | src/circuit.cpp:98-118 | any quantity that XOR adds and NOT shifts is, at every wire, the XOR over the wire's source row, shifted once more if its flip bit is set |
| `SpoiledTriples.SharesFromSources` | src/preprocess.cpp:134-176 | every wire's MAC or key share is the XOR of its sources' shares, with no flip |
| `SpoiledTriples.MasksFromSources` | src/preprocess.cpp:134-176 | every wire's mask share is the parity of its sources' shares |
| `XorSources.SourcesIndependent` | src/circuit.cpp:98-118 | only inputs and AND outputs occur as sources |
| `XorSources.PopulateXorSourceMatrix` | src/circuit.cpp:98-118 | the gate loop fills packed rows and flip bits so that every gate's row is its function of its inputs' rows |
| `XorSources.XORSourceMatrix.AssignXor` | include/ATLab/circuit_parser.hpp:100-115 | replaces one row by the XOR of two others and nothing else |
| `XorSources.XORSourceMatrix.AssignNot` | include/ATLab/circuit_parser.hpp:117-132 | replaces one row by a copy, flips its bit, and changes nothing else |
| `XorSources.XORSourceMatrix.SetAsIndependentWire` | include/ATLab/circuit_parser.hpp:137-142 | sets one bit of one row |
| `XorSources.SourceColumns` | include/ATLab/circuit_parser.hpp:44-50 | for_each_wire visits exactly the set sources, all of them independent |
| `XorSources.MapWiresOrderGates` | src/circuit.cpp:59-76 | every output wire, and no other, finds its gate, every AND gate its number, and every number its gate |
| `XorSources.IndexMapBijection` | include/ATLab/circuit_parser.hpp:269-275 | independent_index_map is a bijection onto [0, inputs + ANDs), inverted by the list of independent wires |
| `XorSources.InitGcCheckData` | src/circuit.cpp:79-96 | each independent wire's map lists exactly the AND gates it is a source of, and through which inputs |
| `XorSources.EntryStep` | src/circuit.cpp:86-94 | the two passes of one gate add exactly its membership to a wire's map |
| `Authenticated.SenderExtend` | include/ATLab/block_correlated_OT.hpp:92-105 | the second key of every flattened (key, position) is the first shifted by that key |
| `Authenticated.ReceiverExtend` | include/ATLab/block_correlated_OT.hpp:175-193 | the choice bits are repeated once per global key |
| `Authenticated.CorrelatedOTAuthed` | include/ATLab/block_correlated_OT.hpp:92-105 | correlated oblivious transfer leaves mac = key ^ bit*Delta at every flattened (key, position), for any number of keys |
| `Authenticated.FixBits` | include/ATLab/authed_bit.hpp:302-316 | the requested bits replace the random ones, the difference is announced, the MACs stay |
| `Authenticated.FixKeys` | include/ATLab/authed_bit.hpp:439-462 | every key is shifted by its global key exactly where the difference is one |
| `Authenticated.FixAuthed` | include/ATLab/authed_bit.hpp:302-316 | after Fix the requested bits are authenticated under every global key |
| `Authenticated.ExtractAuthed` | include/ATLab/authed_bit.hpp:369-377 | slicing out one global key keeps the relation under that key |
| `CorrelatedOT.RandomBits` | include/ATLab/authed_bit.hpp:291-296 | both random constructors together yield the drawn bits and keys, authenticated under all keys |
| `CorrelatedOT.ChosenBits` | include/ATLab/authed_bit.hpp:439-462 | both Fix constructors together yield the chosen bits, authenticated under all keys; each local key is the drawn one, shifted by its global key exactly where the drawn bit differs |
| `CorrelatedOT.RandomBlocks` | src/authed_bit.cpp:127-139 | both random block constructors together yield authenticated blocks, packed from the drawn bits and keys |
| `CorrelatedOT.ChosenBlocks` | src/authed_bit.cpp:141-165 | both fixed block constructors together yield the chosen blocks, authenticated under all keys, with local keys packed from the fixed keys of their bits |
| `Packing.PolyvalAppend` | src/utils.cpp:96-101 | polyval is the sum of coefficients times powers of X |
| `Packing.PolyvalOfMacs` | src/utils.cpp:96-101 | packing bit MACs gives the packed keys plus the block the bits spell times Delta |
| `Packing.PolyvalMacChunks` | src/authed_bit.cpp:37-55 | one packed block per 128 entries, key by key |
| `Packing.PackedAuthed` | src/authed_bit.cpp:106-125 | packing keeps the MAC relation at every flattened (key, block) |
| `Packing.BitsBlocksRoundTrip` | src/authed_bit.cpp:10-35 | blocks to bits to blocks is the identity |
| `Packing.Open` | include/ATLab/authed_bit.hpp:348-362 | the words sent are the slice and no other bit, and the digest is that of the slice's MACs, which every holder of matching keys rebuilds |
| `Packing.ReceiveOpening` | include/ATLab/authed_bit.hpp:484-527 | accepts exactly when the MACs rebuilt from the keys hash to what was sent, and then returns the received bits |
| `Packing.OpenedBits` | include/ATLab/utils.hpp:97-125 | what is sent is the slice, packed with zeros behind it, and it arrives as the slice, whole words or not |
| `Packing.OpenAccepted` | include/ATLab/authed_bit.hpp:484-527 | an honest opening of any slice is accepted, whatever the hash: the rebuilt MACs are the opener's |
| `DVZK.Prover.Update` | include/ATLab/DVZK.hpp:33-56 | keeps A0 and A1 as the masked sums over all multiplications so far |
| `DVZK.Prover.UpdateBits` | include/ATLab/DVZK.hpp:59-79 | the bit-valued update is the block update on embedded bits |
| `DVZK.Verifier.Update` | include/ATLab/DVZK.hpp:105-117 | keeps B as the masked sum over all multiplications so far |
| `DVZK.Verifier.Verify` | include/ATLab/DVZK.hpp:119-132 | accepts exactly when (sum chi*(x*y ^ z)) * Delta^2 is zero |
| `DVZK.Exact` | include/ATLab/DVZK.hpp:33-132 | after any number of updates B ^ A0 = A1*Delta ^ (sum chi*(x*y ^ z)) * Delta^2 |
| `DVZK.AcceptExact` | include/ATLab/DVZK.hpp:119-132 | for a non-zero key, acceptance is the vanishing of the weighted defects themselves |
| `DVZK.HonestDefect` | include/ATLab/DVZK.hpp:33-132 | true multiplications have no defect |
| `DVZK.ProveBatch` | include/ATLab/DVZK.hpp:344-391 | the batch prover sends what the streaming prover would for the same challenges |
| `DVZK.VerifyBatch` | include/ATLab/DVZK.hpp:393-443 | the batch verifier accepts exactly as the streaming one does |
| `DVZK.RunBatch` | include/ATLab/DVZK.hpp:344-443 | both batch sides together accept every true statement, and for a non-zero key exactly when the weighted defects vanish |
| `Equality.SwapAuthed` | src/authed_bit.cpp:188-193 | swapping value and key maps a valid pair to a valid pair for the key as value and the value as key |
| `Equality.SwapAllAuthed` | src/authed_bit.cpp:195-199 | one block under several keys becomes several authenticated blocks under one key |
| `Equality.BlockStore.InverseValueAndMac` | src/authed_bit.cpp:201-203 | in place: under every key vector and non-zero key for which the pair was valid, it is valid afterwards for the inverse key and the divided keys |
| `Equality.KeyStore.InverseValueAndMac` | src/authed_bit.cpp:280-288 | inverts every global key and scales that key's local keys by the inverse |
| `Equality.InverseAuthed` | src/authed_bit.cpp:280-288 | for a non-zero key, inversion maps a valid pair to a valid pair for the stated value and key |
| `Equality.KeyStore.FlipBlockLsb` | include/ATLab/authed_bit.hpp:219-225 | shifts the flipped block's key under every global key and nothing else |
| `Equality.FlipAuthed` | include/ATLab/global_key_sampling.hpp:148-151 | flipping both sides authenticates the block with its lowest bit flipped |
| `Equality.SameBitExact` | src/authed_bit.cpp:290-302 | what the two sides compare differs by the difference of the values times the key |
| `Equality.CompareHashExact` | src/util_protocols.cpp:13-39 | the two half comparisons accept on both sides exactly when the digests are equal |
| `Equality.EqcheckProve` | src/authed_bit.cpp:304-325 | the value holder's vector, entry by entry |
| `Equality.EqcheckVerify` | src/authed_bit.cpp:327-362 | the key holder's vector, entry by entry |
| `Equality.EqcheckExact` | src/authed_bit.cpp:304-362 | the two vectors differ at each position by exactly (x0 ^ x1)*gk0*gk1 |
| `Equality.EqcheckDecides` | src/authed_bit.cpp:304-362 | for non-zero keys the entries agree exactly when the values do |
| `KeySampling.LsbCheckExact` | include/ATLab/global_key_sampling.hpp:39-43 | a lowest-bit comparison succeeds exactly when the key's lowest bit is one or no tested bit is |
| `KeySampling.ShareAdopted` | include/ATLab/global_key_sampling.hpp:46-56 | after the conditional flip the product of the keys is odd and shared as alpha_0 ^ beta_0 |
| `KeySampling.Garbler.AdoptShare` | include/ATLab/global_key_sampling.hpp:45-56 | flips the key of deltaB exactly when the lowest bits agree |
| `KeySampling.Evaluator.AdoptShare` | include/ATLab/global_key_sampling.hpp:142-154 | flips deltaB exactly when the lowest bits agree |
| `KeySampling.ProductRound` | include/ATLab/global_key_sampling.hpp:159-179 | the product proof is accepted, and the lowest bits agree exactly when the product's lowest bit is one or no bit was drawn |
| `Populate.PopulateWiresGarbler` | src/preprocess.cpp:117-183 | masks, MACs and keys on all wires grow from the independent ones as the gates say, and the recorded products are the last occurrences |
| `Populate.PopulateWiresEvaluator` | src/preprocess.cpp:185-250 | the same for the evaluator, with zeros on the garbler's inputs |
| `Populate.WiresAuthed` | src/preprocess.cpp:117-250 | MACs that hold on independent wires hold on every wire |
| `Populate.SparseBitMatrix.Set` | src/preprocess.cpp:33-35 | the ordered pair now holds the position, replacing an earlier one, and every other ordered pair keeps its own |
| `Populate.SparseBitMatrix.BuildBitset` | src/preprocess.cpp:45-51 | sets exactly the recorded positions, whatever the map order |
| `Populate.RecordedGivesBits` | src/preprocess.cpp:45-51 | the bit set is the vector of products with a hole exactly where a product of one has a later twin |
| `Populate.AndedBitsExact` | src/preprocess.cpp:33-51 | the products are all right if and only if no gate with product one has a later twin |
| `SpoiledTriples.RepeatedPairFailsTriple` | src/preprocess.cpp:33-51 | the smallest failing circuit: when both garbler shares are one, the first product is lost, its triple is wrong and preprocessing is not complete |
| `Populate.PackInjective` | src/preprocess.cpp:13-15 | the 64-bit key of an ordered wire pair is injective |
| `DualKeyProducts.DualKeyAuthedAbCalculator.Garbler` | include/ATLab/preprocess.hpp:54-105 | the flattened cache holds row times MAC column plus the scaled alpha |
| `DualKeyProducts.DualKeyAuthedAbCalculator.Evaluator` | include/ATLab/preprocess.hpp:107-143 | the flattened cache holds row times key column |
| `DualKeyProducts.DualKeyAuthedAbCalculator.Calculate` | include/ATLab/preprocess.hpp:158-167 | the nested walk over both source lists is the double sum over the source rows |
| `DualKeyProducts.Transpose` | include/ATLab/preprocess.hpp:68-79 | every column of the flattened table becomes one contiguous span |
| `DualKeyProducts.EntriesAddUp` | include/ATLab/preprocess.hpp:87-103 | garbler and evaluator entries add up to the mask bit times the row's beta plus alpha |
| `DualKeyProducts.ProductsAddUp` | include/ATLab/preprocess.hpp:158-167 | for any two wires, dependent ones included, the two results add up to a_in0 * b_in1 * deltaA*deltaB |
| `Preprocessing.CachesExact` | include/ATLab/preprocess.hpp:145-156 | for every pair of independent wires the two lookups add up to a_i * b_j * deltaA*deltaB |
| `Preprocessing.Correlate` | src/preprocess.cpp:276-294 | steps 2 to 5 leave the drawn compressed masks, their products with deltaB, the drawn masks under those MACs as keys, and the drawn triple shares, all authenticated, with local keys as drawn or fixed from what was drawn |
| `Preprocessing.GarblerTriples` | src/preprocess.cpp:313-337 | the garbler's sum and its lowest bit for every AND gate, in gate order |
| `Preprocessing.EvaluatorTriples` | src/preprocess.cpp:510-529 | the evaluator's sum and its lowest bit for every AND gate, in gate order |
| `Preprocessing.TripleBits` | src/preprocess.cpp:313-337 | the two lowest bits add up to the garbler's product, its share and the two cross products |
| `DeltaChecks.Stream` | src/preprocess.cpp:350-369 | one party's walk over the AND gates proves exactly its own products and verifies the other's |
| `DeltaChecks.StreamExact` | src/preprocess.cpp:350-369 | a direction is accepted exactly when the challenges of its wrong products cancel |
| `DeltaChecks.CheckProducts` | src/preprocess.cpp:348-369 | both streaming proofs, run against each other |
| `DeltaChecks.CheckTemporaryKey` | src/preprocess.cpp:380-388 | whatever was put in, the two compared pairs differ by the differences of key times temporary key, and each check passes exactly when its pair hashes alike |
| `DeltaChecks.CheckInverse` | src/preprocess.cpp:393-396 | whatever was put in, the two compared vectors differ at each position by (MAC of step 3 ^ key of step 4) * tmpDelta / deltaA, and the check passes exactly when they hash alike |
| `DeltaChecks.RunEqcheck` | src/authed_bit.cpp:304-362 | both sides' vectors differ by (x0 ^ x1)*gk0*gk1 |
| `DeltaChecks.EqcheckPasses` | src/authed_bit.cpp:304-362 | equal values always pass, and with non-zero keys nothing else does |
| `DeltaChecks.NothingLost` | src/preprocess.cpp:350-369 | with no lost product there is nothing to cancel |
| `Garbling.Garble` | src/garble_evaluate.cpp:14-91 | labels, tables and shift bits of every gate are as the half-gates scheme prescribes |
| `Garbling.Evaluate` | src/garble_evaluate.cpp:108-182 | masked values and labels of every gate are as evaluation prescribes |
| `Simulation.GarbledAnd` | src/garble_evaluate.cpp:43-75 | a garbled AND gate written out: both table rows, both labels and the shift bit, from shares, keys and the four tagged hashes |
| `Simulation.EvaluatedAnd` | src/garble_evaluate.cpp:130-170 | an evaluated AND gate written out: its label from hashes, MACs and table rows, and its masked value |
| `Simulation.HalfGates` | src/garble_evaluate.cpp:43-75 | the half-gates identity: the derived label is the zero label plus the masked product times deltaA |
| `Simulation.AndInStep` | src/garble_evaluate.cpp:130-170 | an AND gate keeps label1 = label0 ^ deltaA, label = label0 ^ Lambda*deltaA, and recovers Lambda from the lowest bit and the shift |
| `Simulation.LinearInStep` | src/garble_evaluate.cpp:76-80 | so do XOR and NOT gates |
| `Simulation.StaysInStep` | src/garble_evaluate.cpp:36-180 | after any number of gates every wire so far is in step and every gate computes its function on the unmasked values |
| `GarbledCheck.GarblerAccumulate` | src/gc_check.cpp:46-137 | one block per independent wire in order, and the garbler's accumulator |
| `GarbledCheck.EvaluatorAccumulate` | src/gc_check.cpp:141-210 | the evaluator's accumulator |
| `GarbledCheck.GarblerMacs` | src/gc_check.cpp:70-89 | the walk over a wire's map, in any order, adds up all gates' terms |
| `GarbledCheck.OverSources` | src/gc_check.cpp:70-103 | a block added over the sources that carry a one is scaled by the wire's masked value corrected by its flip |
| `GarbledCheck.WiresThenGates` | src/gc_check.cpp:101-134 | the per-wire sum regroups into a per-gate sum with flip terms |
| `GarbledCheck.GateIdentity` | src/gc_check.cpp:115-126 | on one gate flips cancel and exactly the error bit times deltaB is left |
| `GarbledCheck.CalcFlipMacTerm` | src/gc_check.cpp:27-42 | the MAC of each input is added for the flip of the other |
| `GarbledCheck.ErrorMeaning` | src/gc_check.cpp:185-192 | with a right triple, a gate is inconsistent exactly when its unmasked values break AND |
| `GarbledCheck.HonestSum` | src/gc_check.cpp:212-218 | an honest run passes whatever the challenges |
| `Online.GarblerInputs` | src/2PC_execution.cpp:13-27 | the masked values, packed with nothing else, and the labels of exactly those values |
| `Online.GarblerPairs` | src/2PC_execution.cpp:32-46 | both labels of each evaluator input, swapped where the garbler's share is one |
| `Online.PairDelivers` | src/2PC_execution.cpp:34-47 | a swapped pair delivers the label of the masked value |
| `OnlineRun.EvaluatorOwnInput` | src/2PC_execution.cpp:79-97 | over the wire: labels by oblivious transfer, the garbler's opening never refused, and masked values of the evaluator's own inputs |
| `OnlineRun.EvaluatorInput` | src/2PC_execution.cpp:72-97 | from the garbler's bytes the evaluator ends with masked values of both parties' inputs and their labels |
| `Online.EvaluatorOutput` | src/2PC_execution.cpp:109-117 | removes both mask shares from the last wires |
| `Channels.InvKept` | src/2PC_execution.cpp:13-120 | every step keeps, in both directions: what was sent is what the receiver has taken followed by what is under way |
| `Channels.FlowReceive` | src/2PC_execution.cpp:72-120 | a receive takes the bytes of the same-numbered send, also when the receiver runs ahead through empty messages |
| `Channels.Progress` | src/2PC_execution.cpp:13-120 | unless both programs are done, some step is possible |
| `Conversation.SpokenScript` | src/2PC_execution.cpp:13-60 | the garbler's half of the conversation is its byte string, message after message |
| `Conversation.BlocksRoundTrip` | src/2PC_execution.cpp:26-27 | blocks survive the trip through bytes |
| `Conversation.WordsRoundTrip` | src/2PC_execution.cpp:21-22 | 64-bit words survive the trip through bytes |
| `OnlineRun.GarblerProgram` | src/2PC_execution.cpp:6-61 | the garbler's program: each send carries the bytes of the value it computed, in the order and lengths of its side of the conversation |
| `OnlineRun.EvaluatorProgram` | src/2PC_execution.cpp:65-120 | the evaluator's program on the garbler's bytes: it asks for them in the order and lengths sent, outputs the plain evaluation and accepts |
| `OnlineRun.GarblerWires` | src/gc_check.cpp:101-113 | one block per independent wire, inputs first, then AND outputs in gate order |
| `OnlineRun.EvaluatorWires` | src/gc_check.cpp:171-183 | asks for one block per independent wire in the same order and keeps each under its wire |
| `OnlineRun.EvaluatorCheck` | src/gc_check.cpp:141-219 | accepts exactly when the five bytes received are those of its own accumulator over the blocks received |
| `OnlineRun.HonestAccepts` | src/gc_check.cpp:212-218 | with right triples and an evaluation in step those bytes agree |
| `KyberArithmetic.Red16` | libs/Kyber/include/fq.inc:1-10 | Barrett reduction in wrapping 16-bit arithmetic gives the stated representative |
| `KyberArithmetic.QuotientBounds` | libs/Kyber/include/fq.inc:1-10 | for every 16-bit input that representative is congruent and in [0, q] |
| `KyberArithmetic.Csubq` | libs/Kyber/include/fq.inc:12-20 | subtracts q exactly when that does not go below zero; for every 16-bit lane, the lowest ones wrapping |
| `KyberArithmetic.CanonicalIsResidue` | libs/Kyber/include/fq.inc:1-20 | reduce then csubq is the residue modulo q, for every 16-bit input |
| `KyberArithmetic.SubtractThenAdd` | libs/Kyber/src/poly.c:547-580 | subtracting a canonical number and adding it again gives back the canonical number |
| `KyberPacking.BitPack` | libs/Kyber/src/shuffle.S:122-132 | four 12-bit lanes fill three words without a gap |
| `KyberPacking.BitUnpack` | libs/Kyber/src/shuffle.S:206-219 | and come out again |
| `KyberPacking.Interleave` | libs/Kyber/src/shuffle.S:145-159 | the twelve shuffles transpose six registers of sixteen lanes |
| `KyberPacking.Separate` | libs/Kyber/src/shuffle.S:190-204 | the twelve shuffles after the load are the same transposition read backwards |
| `KyberBytes.NttToBytes128` | libs/Kyber/src/shuffle.S:101-169 | the 192 bytes are the canonical coefficients, twelve bits each, in groups of eight |
| `KyberBytes.NttFromBytes128` | libs/Kyber/src/shuffle.S:181-245 | each coefficient is the number its twelve bits spell |
| `KyberBytes.RoundTrip` | libs/Kyber/src/shuffle.S:101-255 | reading what was written gives the coefficients back |
| `KyberBytes.RoundTripBytes` | libs/Kyber/src/shuffle.S:101-255 | writing what was read gives the bytes back, for all byte strings |
| `EndemicOT.PkCombine` | src/EndemicOT/OTTools.c:98-124 | pkMinus and pkPlus: each coefficient written is the difference or sum of the two read modulo q, in canonical bytes, with the seed of the first key |
| `EndemicOT.PackPk` | src/EndemicOT/OTTools.c:71-79 | the serialized vector followed by the seed |
| `EndemicOT.PkHash` | src/EndemicOT/OTTools.c:92-96 | the expanded hash of the polynomial part with the given seed |
| `EndemicOT.GenReceiverMessage` | src/EndemicOT/Endemic_OT_C.c:45-63 | the key not chosen is expanded from the seed drawn; the chosen one is the public key minus the hash of the other, coefficient by coefficient modulo q; both carry the public key's seed |
| `EndemicOT.GenSenderKeys` | src/EndemicOT/Endemic_OT_C.c:65-90 | each rebuilt key is a received key plus the hash of the other, coefficient by coefficient modulo q |
| `RejectionSampling.RejUniformAvx` | libs/Kyber/src/rejsample.c:274-399 | the 32-, 8- and 2-candidate loops store the first candidates below q, and stop only when full or out of triples |
| `RejectionSampling.StoreGroup` | libs/Kyber/src/rejsample.c:334-355 | storing eight compacted lanes and advancing by the count appends exactly the accepted ones |
| `RejectionSampling.RejUniform` | libs/Kyber/src/indcpa.c:135-156 | sampling a refilled buffer continues the one pass where it stood |
| `RejectionSampling.Refill` | libs/Kyber/src/indcpa.c:201-205 | the 0 to 2 bytes of the unfinished triple are carried in front of the next block |
| `RejectionSampling.ParseSplit` | libs/Kyber/src/indcpa.c:144-153 | parsing on from a triple boundary appends |
| `RejectionSampling.MoreToCome` | libs/Kyber/src/indcpa.c:200-207 | a stream with enough accepted candidates is never used up before the polynomial is full |

## Left out

- Sockets, and the send buffer and its flushing in the `NetIO` class: a byte sent is at once under way.
- The interactive messages inside one oblivious transfer: a transfer is one step both parties take together.
- Preprocessing and key sampling as channel programs; only garbling, the online phase and the check are.
- Exceptions on size mismatches in constructors that an honest run never meets, such as zero blocks.
- `check_beaver_triple`: its comparison results are discarded, and its `y` uses only one party's bits.
- The last hash comparison of key sampling: both sides call the same half comparison and throw on a match.
- `toss_random_block`: challenges are arbitrary vectors here; `gen_chal_by_power` serves only `check_beaver_triple`.
- `calc_compression_parameter`: any compression width.
- `DVZK` templates on block-valued batches: they differ from the modelled batch only in the type of x.
- `ITMacScaledBits`: not used by the protocol path.
- Circuit file parsing, benchmarking, printing, seeding, and the debug-only search for redundant NOT gates.
- Probabilistic soundness, privacy and adversaries; only exact identities, honest runs, and the key checks of `check_delta` on any authentic values.
- Internals of AES, SHA-256, the IKNP extension and the wire-label hash; emp-tool and emp-ot are not part of this model.
- Kyber: the number-theoretic transform, `poly_nttunpack` after sampling, compression, noise, encryption and decryption.
- The 256-entry lane table of the vectorized sampler: the model compacts accepted lanes directly.
- RejectionSampling.GenEntry: the output stream is a finite prefix with enough accepted candidates, because termination on an endless stream is only probable.
- Vector instructions in `poly_add`, `poly_sub` and `reduce_avx` act lane by lane; the model loops over single coefficients.
