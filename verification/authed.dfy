/** Information-theoretic MACs on bits and blocks: mac = key ^ value * global key. */
module Authenticated {
  import opened Blocks
  import opened Words
  import opened Arithmetic

  /** Entry `pos` of the row of global key g in a table flattened by key. */
  function Flat(v: seq<Block>, n: nat, g: nat, pos: nat): Block {
    if pos + g * n < |v| then v[pos + g * n] else Zero()
  }

  lemma FlatInRange(keys: nat, n: nat, g: nat, pos: nat)
    requires g < keys && pos < n
    ensures 0 <= pos + g * n < n * keys
    ensures (pos + g * n) / n == g && (pos + g * n) % n == pos
  {
    MulMonotone(g + 1, keys, n);
    assert (g + 1) * n == g * n + n;
    DivUnique(pos + g * n, n, g, pos);
  }

  lemma FlatAppend(res: seq<Block>, entries: seq<Block>, row: nat, total: nat)
    requires |res| == row * total && |entries| == total
    ensures |res + entries| == (row + 1) * total
    ensures forall r, q :: 0 <= r < row && 0 <= q < total ==> Flat(res + entries, total, r, q) == Flat(res, total, r, q)
    ensures forall q :: 0 <= q < total ==> Flat(res + entries, total, row, q) == entries[q]
  {
    forall r, q | 0 <= r < row && 0 <= q < total ensures Flat(res + entries, total, r, q) == Flat(res, total, r, q) {
      FlatInRange(row, total, r, q);
    }
  }

  /** Authenticated bits; the MACs are flattened by global key, then by bit. */
  datatype ITMacBits = ITMacBits(bits: seq<bool>, macs: seq<Block>) {
    function GetMac(globalKeyPos: nat, bitPos: nat): Block {
      Flat(macs, |bits|, globalKeyPos, bitPos)
    }

    function ExtractByGlobalKey(g: nat): ITMacBits
      requires g * |bits| + |bits| <= |macs|
    {
      ITMacBits(bits, macs[g * |bits|..g * |bits| + |bits|])
    }
  }

  /** The other party's keys, flattened in the same way. */
  datatype ITMacBitKeys = ITMacBitKeys(localKeys: seq<Block>, globalKeys: seq<Block>) {
    function Size(): nat {
      if |globalKeys| == 0 then 0 else |localKeys| / |globalKeys|
    }

    function GetLocalKey(globalKeyPos: nat, bitPos: nat): Block {
      Flat(localKeys, Size(), globalKeyPos, bitPos)
    }

    function ExtractByGlobalKey(g: nat): ITMacBitKeys
      requires g < |globalKeys| && g * Size() + Size() <= |localKeys|
    {
      ITMacBitKeys(localKeys[g * Size()..g * Size() + Size()], [globalKeys[g]])
    }
  }

  datatype ITMacBlocks = ITMacBlocks(blocks: seq<Block>, macs: seq<Block>, globalKeySize: nat) {
    function GetMac(globalKeyPos: nat, blockPos: nat): Block {
      Flat(macs, |blocks|, globalKeyPos, blockPos)
    }
  }

  datatype ITMacBlockKeys = ITMacBlockKeys(localKeys: seq<Block>, globalKeys: seq<Block>) {
    function Size(): nat {
      if |globalKeys| == 0 then 0 else |localKeys| / |globalKeys|
    }

    function GetLocalKey(globalKeyPos: nat, blockPos: nat): Block {
      Flat(localKeys, Size(), globalKeyPos, blockPos)
    }
  }

  // ---------------------------------------------------------------- the MAC relation

  /** The MAC relation for bits under one global key. */
  ghost predicate AuthBits(bits: seq<bool>, macs: seq<Block>, keys: seq<Block>, delta: Block) {
    && |macs| == |keys| == |bits|
    && forall i :: 0 <= i < |bits| ==> macs[i] == Xor(keys[i], Scale(bits[i], delta))
  }

  ghost predicate AuthBlocks(blocks: seq<Block>, macs: seq<Block>, keys: seq<Block>, delta: Block) {
    && |macs| == |keys| == |blocks|
    && forall i :: 0 <= i < |blocks| ==> macs[i] == Xor(keys[i], Mul(blocks[i], delta))
  }

  /** Bits held by one party, keys by the other, under a single global key. */
  ghost predicate Authed(b: ITMacBits, k: ITMacBitKeys, delta: Block) {
    k.globalKeys == [delta] && AuthBits(b.bits, b.macs, k.localKeys, delta)
  }

  /** The MAC relation at every (global key, bit) of the flattened layout. */
  ghost predicate BitsAuthed(b: ITMacBits, k: ITMacBitKeys) {
    && |k.globalKeys| > 0
    && |b.macs| == |k.localKeys| == |b.bits| * |k.globalKeys|
    && forall g, i :: 0 <= g < |k.globalKeys| && 0 <= i < |b.bits| ==>
         Flat(b.macs, |b.bits|, g, i) == Xor(Flat(k.localKeys, |b.bits|, g, i), Scale(b.bits[i], k.globalKeys[g]))
  }

  ghost predicate BlocksAuthed(b: ITMacBlocks, k: ITMacBlockKeys) {
    && |k.globalKeys| == b.globalKeySize > 0
    && |b.macs| == |k.localKeys| == |b.blocks| * |k.globalKeys|
    && forall g, i :: 0 <= g < |k.globalKeys| && 0 <= i < |b.blocks| ==>
         Flat(b.macs, |b.blocks|, g, i) == Xor(Flat(k.localKeys, |b.blocks|, g, i), Mul(b.blocks[i], k.globalKeys[g]))
  }

  lemma SizeOfKeys(n: nat, keys: nat)
    requires keys > 0
    ensures n * keys / keys == n
  {
    DivUnique(n * keys, keys, n, 0);
  }

  /** Slicing out one global key keeps the relation under that key. */
  lemma ExtractAuthed(b: ITMacBits, k: ITMacBitKeys, g: nat)
    requires BitsAuthed(b, k) && g < |k.globalKeys|
    ensures k.Size() == |b.bits| && g * |b.bits| + |b.bits| <= |b.macs|
    ensures Authed(b.ExtractByGlobalKey(g), k.ExtractByGlobalKey(g), k.globalKeys[g])
  {
    var n := |b.bits|;
    SizeOfKeys(n, |k.globalKeys|);
    KeyRowInside(g, |k.globalKeys|, n);
    hide Flat;
    var b', k' := b.ExtractByGlobalKey(g), k.ExtractByGlobalKey(g);
    forall i | 0 <= i < n ensures b'.macs[i] == Xor(k'.localKeys[i], Scale(b'.bits[i], k.globalKeys[g])) {
      FlatSlice(b.macs, n, g, i);
      FlatSlice(k.localKeys, n, g, i);
    }
  }

  lemma KeyRowInside(g: nat, keys: nat, n: nat)
    requires g < keys
    ensures 0 <= g * n <= g * n + n <= n * keys
  {
    MulMonotone(g + 1, keys, n);
    assert (g + 1) * n == g * n + n;
  }

  lemma FlatSlice(v: seq<Block>, n: nat, g: nat, i: nat)
    requires 0 <= g * n <= g * n + n <= |v| && i < n
    ensures v[g * n..g * n + n][i] == Flat(v, n, g, i)
  {
  }

  // ---------------------------------------------------------------- correlated OT

  /** Ideal oblivious transfer: the receiver obtains the chosen one of each pair. */
  function Transferred(k0: seq<Block>, k1: seq<Block>, choices: seq<bool>): (r: seq<Block>)
    requires |k0| == |k1| == |choices|
    ensures |r| == |k0| && forall i :: 0 <= i < |r| ==> r[i] == if choices[i] then k1[i] else k0[i]
  {
    seq(|k0|, i requires 0 <= i < |k0| => if choices[i] then k1[i] else k0[i])
  }

  /** Sender side of an extension: the second key of each pair is the first shifted by its global key. */
  method SenderExtend(deltaArr: seq<Block>, len: nat, k1Vec: seq<Block>) returns (k2Vec: seq<Block>)
    requires |k1Vec| == len * |deltaArr|
    ensures |k2Vec| == |k1Vec|
    ensures forall g, j :: 0 <= g < |deltaArr| && 0 <= j < len ==>
              Flat(k2Vec, len, g, j) == Xor(Flat(k1Vec, len, g, j), deltaArr[g])
  {
    k2Vec := k1Vec;
    for i := 0 to |deltaArr|
      invariant |k2Vec| == |k1Vec|
      invariant forall g, j :: 0 <= g < |deltaArr| && 0 <= j < len ==>
                  Flat(k2Vec, len, g, j) ==
                  if g < i then Xor(Flat(k1Vec, len, g, j), deltaArr[g]) else Flat(k1Vec, len, g, j)
    {
      k2Vec := ShiftRow(deltaArr, len, k1Vec, k2Vec, i);
    }
  }

  /** Inner loop: one row of second keys. */
  method ShiftRow(deltaArr: seq<Block>, len: nat, k1Vec: seq<Block>, k2: seq<Block>, i: nat) returns (k2Vec: seq<Block>)
    requires |k1Vec| == |k2| == len * |deltaArr| && i < |deltaArr|
    ensures |k2Vec| == |k1Vec|
    ensures forall g, j :: 0 <= g < |deltaArr| && 0 <= j < len ==>
              Flat(k2Vec, len, g, j) == if g == i then Xor(Flat(k1Vec, len, g, j), deltaArr[g]) else Flat(k2, len, g, j)
  {
    k2Vec := k2;
    for j := 0 to len
      invariant |k2Vec| == |k1Vec|
      invariant forall g, p :: 0 <= g < |deltaArr| && 0 <= p < len ==>
                  Flat(k2Vec, len, g, p) ==
                  if g == i && p < j then Xor(Flat(k1Vec, len, g, p), deltaArr[g]) else Flat(k2, len, g, p)
    {
      FlatInRange(|deltaArr|, len, i, j);
      ghost var before := k2Vec;
      k2Vec := k2Vec[j + i * len := Xor(k1Vec[j + i * len], deltaArr[i])];
      FlatUpdate(before, k2Vec, |deltaArr|, len, i, j);
    }
  }

  /** Writing one flattened entry leaves every other (key, position) alone. */
  lemma FlatUpdate(v: seq<Block>, v': seq<Block>, keys: nat, n: nat, g: nat, pos: nat)
    requires |v| == n * keys && g < keys && pos < n && pos + g * n < |v|
    requires |v'| == |v| && v' == v[pos + g * n := v'[pos + g * n]]
    ensures forall g', p :: 0 <= g' < keys && 0 <= p < n && (g', p) != (g, pos) ==>
              Flat(v', n, g', p) == Flat(v, n, g', p)
  {
    forall g', p | 0 <= g' < keys && 0 <= p < n && (g', p) != (g, pos)
      ensures Flat(v', n, g', p) == Flat(v, n, g', p)
    {
      FlatInRange(keys, n, g, pos);
      FlatInRange(keys, n, g', p);
    }
  }

  /** Receiver side: the choice bits, repeated once per global key. */
  function RepeatedChoices(choices: seq<bool>, deltaArrSize: nat): (r: seq<bool>)
    ensures |r| == |choices| * deltaArrSize
  {
    seq(|choices| * deltaArrSize, p requires 0 <= p < |choices| * deltaArrSize => choices[p % |choices|])
  }

  method ReceiverExtend(choices: seq<bool>, deltaArrSize: nat) returns (choicesForOT: seq<bool>)
    ensures choicesForOT == RepeatedChoices(choices, deltaArrSize)
  {
    choicesForOT := [];
    var len := |choices|;
    for i := 0 to deltaArrSize
      invariant choicesForOT == RepeatedChoices(choices, i)
    {
      ghost var row := choicesForOT;
      assert len * (i + 1) == i * len + len;
      for j := 0 to len
        invariant choicesForOT == row + choices[..j]
      {
        choicesForOT := choicesForOT + [choices[j]];
      }
      forall p | 0 <= p < len * (i + 1) ensures choicesForOT[p] == choices[p % len] {
        if p >= i * len { DivUnique(p, len, i, p - i * len); }
      }
    }
  }

  /** Correlated OT yields authenticated bits under every global key. */
  lemma CorrelatedOTAuthed(choices: seq<bool>, deltaArr: seq<Block>, k1: seq<Block>, k2: seq<Block>)
    requires |deltaArr| > 0 && |k1| == |k2| == |choices| * |deltaArr|
    requires forall g, j :: 0 <= g < |deltaArr| && 0 <= j < |choices| ==>
               Flat(k2, |choices|, g, j) == Xor(Flat(k1, |choices|, g, j), deltaArr[g])
    ensures BitsAuthed(ITMacBits(choices, Transferred(k1, k2, RepeatedChoices(choices, |deltaArr|))),
                       ITMacBitKeys(k1, deltaArr))
  {
    var n := |choices|;
    var macs := Transferred(k1, k2, RepeatedChoices(choices, |deltaArr|));
    forall g, i | 0 <= g < |deltaArr| && 0 <= i < n
      ensures Flat(macs, n, g, i) == Xor(Flat(k1, n, g, i), Scale(choices[i], deltaArr[g]))
    {
      FlatInRange(|deltaArr|, n, g, i);
      XorZero(Flat(k1, n, g, i));
    }
  }

  // ---------------------------------------------------------------- Fix

  /** Receiver half of Fix: announce the difference, keep the MACs. */
  method FixBits(random: ITMacBits, bitsToFix: seq<bool>) returns (fixed: ITMacBits, diffArr: seq<bool>)
    requires |bitsToFix| == |random.bits|
    ensures fixed == ITMacBits(bitsToFix, random.macs) && diffArr == BitXor(random.bits, bitsToFix)
  {
    diffArr := [];
    for i := 0 to |random.bits|
      invariant |diffArr| == i && forall j :: 0 <= j < i ==> diffArr[j] == (random.bits[j] != bitsToFix[j])
    {
      diffArr := diffArr + [random.bits[i] != bitsToFix[i]];
    }
    fixed := ITMacBits(bitsToFix, random.macs);
  }

  /** Sender half of Fix: add the global key wherever the difference is one. */
  method FixKeys(keys: ITMacBitKeys, diffArr: seq<bool>) returns (fixed: ITMacBitKeys)
    requires |keys.localKeys| == |diffArr| * |keys.globalKeys|
    ensures fixed.globalKeys == keys.globalKeys && |fixed.localKeys| == |keys.localKeys|
    ensures forall g, i :: 0 <= g < |keys.globalKeys| && 0 <= i < |diffArr| ==>
              Flat(fixed.localKeys, |diffArr|, g, i) ==
              Xor(Flat(keys.localKeys, |diffArr|, g, i), Scale(diffArr[i], keys.globalKeys[g]))
  {
    fixed := keys;
    var n := |diffArr|;
    for iterGlobalKey := 0 to |keys.globalKeys|
      invariant fixed.globalKeys == keys.globalKeys && |fixed.localKeys| == |keys.localKeys|
      invariant forall g, i :: 0 <= g < |keys.globalKeys| && 0 <= i < n ==>
                  Flat(fixed.localKeys, n, g, i) ==
                  if g < iterGlobalKey then Xor(Flat(keys.localKeys, n, g, i), Scale(diffArr[i], keys.globalKeys[g]))
                  else Flat(keys.localKeys, n, g, i)
    {
      fixed := FixRow(fixed, diffArr, iterGlobalKey);
    }
  }

  method FixRow(keys: ITMacBitKeys, diffArr: seq<bool>, g0: nat) returns (fixed: ITMacBitKeys)
    requires |keys.localKeys| == |diffArr| * |keys.globalKeys| && g0 < |keys.globalKeys|
    ensures fixed.globalKeys == keys.globalKeys && |fixed.localKeys| == |keys.localKeys|
    ensures forall g, i :: 0 <= g < |keys.globalKeys| && 0 <= i < |diffArr| ==>
              Flat(fixed.localKeys, |diffArr|, g, i) ==
              if g == g0 then Xor(Flat(keys.localKeys, |diffArr|, g, i), Scale(diffArr[i], keys.globalKeys[g]))
              else Flat(keys.localKeys, |diffArr|, g, i)
  {
    var n := |diffArr|;
    var local: seq<Block> := keys.localKeys;
    for iterBit := 0 to n
      invariant |local| == |keys.localKeys|
      invariant forall g, i :: 0 <= g < |keys.globalKeys| && 0 <= i < n ==>
                  Flat(local, n, g, i) ==
                  if g == g0 && i < iterBit then
                    Xor(Flat(keys.localKeys, n, g, i), Scale(diffArr[i], keys.globalKeys[g]))
                  else Flat(keys.localKeys, n, g, i)
    {
      FlatInRange(|keys.globalKeys|, n, g0, iterBit);
      ghost var before := local;
      local := local[iterBit + g0 * n := Xor(local[iterBit + g0 * n], Scale(diffArr[iterBit], keys.globalKeys[g0]))];
      FlatUpdate(before, local, |keys.globalKeys|, n, g0, iterBit);
    }
    fixed := ITMacBitKeys(local, keys.globalKeys);
  }

  /** After Fix the chosen bits are authenticated, under every global key. */
  lemma FixAuthed(random: ITMacBits, keys: ITMacBitKeys, bitsToFix: seq<bool>, fixed: ITMacBitKeys)
    requires BitsAuthed(random, keys) && |bitsToFix| == |random.bits|
    requires fixed.globalKeys == keys.globalKeys && |fixed.localKeys| == |keys.localKeys|
    requires forall g, i :: 0 <= g < |keys.globalKeys| && 0 <= i < |bitsToFix| ==>
               Flat(fixed.localKeys, |bitsToFix|, g, i) ==
               Xor(Flat(keys.localKeys, |bitsToFix|, g, i),
                   Scale(BitXor(random.bits, bitsToFix)[i], keys.globalKeys[g]))
    ensures BitsAuthed(ITMacBits(bitsToFix, random.macs), fixed)
  {
    var n := |bitsToFix|;
    forall g, i | 0 <= g < |keys.globalKeys| && 0 <= i < n
      ensures Flat(random.macs, n, g, i) == Xor(Flat(fixed.localKeys, n, g, i), Scale(bitsToFix[i], keys.globalKeys[g]))
    {
      var d, k := keys.globalKeys[g], Flat(keys.localKeys, n, g, i);
      assert Flat(random.macs, n, g, i) == Xor(k, Scale(random.bits[i], d));
      assert Xor(Xor(k, Scale(random.bits[i] != bitsToFix[i], d)), Scale(bitsToFix[i], d)) ==
             Xor(k, Scale(random.bits[i], d));
    }
  }
}
