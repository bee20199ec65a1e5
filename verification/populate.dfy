/** From masks on independent wires to mask shares on every wire, and the products of mask pairs. */
module Populate {
  import opened Blocks
  import opened Circuits
  import opened Authenticated

  // ---------------------------------------------------------------- values carried along the wires

  /** Bits on all wires grown from bits on the independent ones: XOR adds, NOT copies. */
  ghost predicate BitsFrom(c: Circuit, source: seq<bool>, wires: seq<bool>)
    requires c.WellFormed()
  {
    && |source| == c.TotalInputSize() + c.AndGateSize() && |wires| == c.wireSize
    && (forall w :: 0 <= w < c.TotalInputSize() ==> wires[w] == source[w])
    && (forall k :: 0 <= k < |c.gates| ==> BitGate(c, source, wires, k))
  }

  ghost predicate BitGate(c: Circuit, source: seq<bool>, wires: seq<bool>, k: nat)
    requires c.WellFormed() && k < |c.gates|
    requires |source| == c.TotalInputSize() + c.AndGateSize() && |wires| == c.wireSize
  {
    var g := c.gates[k];
    assert c.Available(k, g.in0) && (g.NotGate? || c.Available(k, g.in1));
    match g
    case AndGate(_, _, out) => c.AndPosition(k); wires[out] == source[c.TotalInputSize() + c.AndCount(k)]
    case XorGate(in0, in1, out) => wires[out] == (wires[in0] != wires[in1])
    case NotGate(in0, out) => wires[out] == wires[in0]
  }

  /** The same for blocks (MACs or keys). */
  ghost predicate BlocksFrom(c: Circuit, source: seq<Block>, wires: seq<Block>)
    requires c.WellFormed()
  {
    && |source| == c.TotalInputSize() + c.AndGateSize() && |wires| == c.wireSize
    && (forall w :: 0 <= w < c.TotalInputSize() ==> wires[w] == source[w])
    && (forall k :: 0 <= k < |c.gates| ==> BlockGate(c, source, wires, k))
  }

  ghost predicate BlockGate(c: Circuit, source: seq<Block>, wires: seq<Block>, k: nat)
    requires c.WellFormed() && k < |c.gates|
    requires |source| == c.TotalInputSize() + c.AndGateSize() && |wires| == c.wireSize
  {
    var g := c.gates[k];
    assert c.Available(k, g.in0) && (g.NotGate? || c.Available(k, g.in1));
    match g
    case AndGate(_, _, out) => c.AndPosition(k); wires[out] == source[c.TotalInputSize() + c.AndCount(k)]
    case XorGate(in0, in1, out) => wires[out] == Xor(wires[in0], wires[in1])
    case NotGate(in0, out) => wires[out] == wires[in0]
  }

  /** What one party holds on all wires: its mask shares with MACs, and keys of the other's. */
  datatype WireMasks = WireMasks(masks: seq<bool>, macs: seq<Block>, keys: seq<Block>)

  ghost predicate PopulatedFrom(c: Circuit, bits: seq<bool>, macs: seq<Block>, keys: seq<Block>, p: WireMasks)
    requires c.WellFormed()
  {
    BitsFrom(c, bits, p.masks) && BlocksFrom(c, macs, p.macs) && BlocksFrom(c, keys, p.keys)
  }

  /** MACs that hold on the independent wires hold on every wire. */
  lemma {:induction false} WiresAuthed(c: Circuit, bits: seq<bool>, macs: seq<Block>, keys: seq<Block>, delta: Block,
                                       wb: seq<bool>, wm: seq<Block>, wk: seq<Block>, k: nat)
    requires c.WellFormed() && k <= |c.gates| && AuthBits(bits, macs, keys, delta)
    requires BitsFrom(c, bits, wb) && BlocksFrom(c, macs, wm) && BlocksFrom(c, keys, wk)
    ensures forall w :: 0 <= w < c.wireSize && c.Available(k, w) ==> wm[w] == Xor(wk[w], Scale(wb[w], delta))
  {
    if k > 0 {
      WiresAuthed(c, bits, macs, keys, delta, wb, wm, wk, k - 1);
      WireAuthed(c, bits, macs, keys, delta, wb, wm, wk, k - 1);
    }
    forall w | 0 <= w < c.wireSize && c.Available(k, w) ensures wm[w] == Xor(wk[w], Scale(wb[w], delta)) {
      if w >= c.TotalInputSize() { c.AvailableStep(k - 1, w); }
    }
  }

  lemma WireAuthed(c: Circuit, bits: seq<bool>, macs: seq<Block>, keys: seq<Block>, delta: Block,
                   wb: seq<bool>, wm: seq<Block>, wk: seq<Block>, k: nat)
    requires c.WellFormed() && k < |c.gates| && AuthBits(bits, macs, keys, delta)
    requires BitsFrom(c, bits, wb) && BlocksFrom(c, macs, wm) && BlocksFrom(c, keys, wk)
    requires forall w :: 0 <= w < c.wireSize && c.Available(k, w) ==> wm[w] == Xor(wk[w], Scale(wb[w], delta))
    ensures var w := c.gates[k].out; wm[w] == Xor(wk[w], Scale(wb[w], delta))
  {
    var g := c.gates[k];
    assert BitGate(c, bits, wb, k) && BlockGate(c, macs, wm, k) && BlockGate(c, keys, wk, k);
    match g {
      case AndGate(_, _, out) =>
        c.AndPosition(k);
      case XorGate(in0, in1, out) =>
        assert c.Available(k, in0) && c.Available(k, in1);
        XorSwap(wk[in0], Scale(wb[in0], delta), wk[in1], Scale(wb[in1], delta));
        assert Xor(Scale(wb[in0], delta), Scale(wb[in1], delta)) == Scale(wb[out], delta);
      case NotGate(in0, out) =>
        assert c.Available(k, in0);
    }
  }

  // ---------------------------------------------------------------- the sparse matrix of mask products

  /** The 64-bit key of an ordered wire pair. */
  function Pack(i: Wire, j: Wire): nat {
    i * 0x1_0000_0000 + j
  }

  lemma PackInjective(i: Wire, j: Wire, i': Wire, j': Wire)
    requires i < WIRE_LIMIT && j < WIRE_LIMIT && i' < WIRE_LIMIT && j' < WIRE_LIMIT
    ensures Pack(i, j) == Pack(i', j') <==> i == i' && j == j'
  {
  }

  datatype Option<T> = None | Some(value: T)

  class SparseBitMatrix {
    var entries: map<nat, nat>

    constructor ()
      ensures entries == map[]
    {
      entries := map[];
    }

    /** The position recorded for an ordered wire pair. */
    function Position(i: Wire, j: Wire): Option<nat>
      reads this
    {
      if Pack(i, j) in entries then Some(entries[Pack(i, j)]) else None
    }

    /** Records a position under its wire pair; an equal pair replaces the earlier position, and
        every other ordered pair keeps its own. */
    method Set(i: Wire, j: Wire, pos: nat)
      modifies this
      ensures entries == old(entries)[Pack(i, j) := pos] && Position(i, j) == Some(pos)
      ensures i < WIRE_LIMIT && j < WIRE_LIMIT ==>
                forall i', j' :: 0 <= i' < WIRE_LIMIT && 0 <= j' < WIRE_LIMIT && (i', j') != (i, j) ==>
                  Position(i', j') == old(Position(i', j'))
    {
      hide Pack;
      if i < WIRE_LIMIT && j < WIRE_LIMIT {
        forall i': nat, j': nat | i' < WIRE_LIMIT && j' < WIRE_LIMIT
          ensures Pack(i', j') == Pack(i, j) <==> (i', j') == (i, j)
        {
          PackInjective(i', j', i, j);
        }
      }
      entries := entries[Pack(i, j) := pos];
    }

    /** The recorded positions as a bit set, whatever order the map is walked in. */
    method BuildBitset(andGateSize: nat) returns (res: seq<bool>)
      requires forall key :: key in entries ==> entries[key] < andGateSize
      ensures |res| == andGateSize
      ensures forall p :: 0 <= p < andGateSize ==> (res[p] <==> exists key :: key in entries && entries[key] == p)
    {
      res := seq(andGateSize, _ => false);
      var todo := entries.Keys;
      while todo != {}
        invariant todo <= entries.Keys && |res| == andGateSize
        invariant forall p :: 0 <= p < andGateSize ==>
                    (res[p] <==> exists key :: key in entries && key !in todo && entries[key] == p)
        decreases todo
      {
        var key :| key in todo;
        res := res[entries[key] := true];
        todo := todo - {key};
      }
    }
  }

  /** The input wires of AND gate i. */
  function In0(c: Circuit, i: nat): (w: Wire)
    requires c.WellFormed() && i < c.AndGateSize()
    ensures w < c.wireSize && w == c.AndAt(i).in0
  {
    AndInputsInRange(c, i);
    c.AndAt(i).in0
  }

  function In1(c: Circuit, i: nat): (w: Wire)
    requires c.WellFormed() && i < c.AndGateSize()
    ensures c.AndAt(i).AndGate? && w < c.wireSize && w == c.AndAt(i).in1
  {
    AndInputsInRange(c, i);
    c.AndAt(i).in1
  }

  /** The product of the mask shares on the inputs of AND gate i. */
  predicate Product(c: Circuit, masks: seq<bool>, i: nat)
    requires c.WellFormed() && |masks| == c.wireSize && i < c.AndGateSize()
  {
    masks[In0(c, i)] && masks[In1(c, i)]
  }

  lemma AndInputsInRange(c: Circuit, i: nat)
    requires c.WellFormed() && i < c.AndGateSize()
    ensures c.AndAt(i).AndGate? && c.AndAt(i).in0 < c.wireSize && c.AndAt(i).in1 < c.wireSize
    ensures c.AndAt(i).out < c.wireSize
  {
    c.AndPositionInverse(i);
    var k := c.AndGates(|c.gates|)[i];
    assert c.Available(k, c.gates[k].in0) && c.Available(k, c.gates[k].in1);
  }

  /** Two AND gates read the same wires in the same order. */
  predicate Twins(c: Circuit, i: nat, j: nat)
    requires c.WellFormed() && i < c.AndGateSize() && j < c.AndGateSize()
  {
    AndInputsInRange(c, i);
    AndInputsInRange(c, j);
    c.AndAt(i).in0 == c.AndAt(j).in0 && c.AndAt(i).in1 == c.AndAt(j).in1
  }

  /** A later AND gate (before position n) reads the same ordered pair as gate i. */
  ghost predicate HasLaterTwin(c: Circuit, i: nat, n: nat)
    requires c.WellFormed() && i < c.AndGateSize() && n <= c.AndGateSize()
  {
    exists j :: i < j < n && Twins(c, i, j)
  }

  /** What the map holds after n AND gates: each pair with product one, at its last occurrence. */
  ghost predicate Recorded(c: Circuit, masks: seq<bool>, entries: map<nat, nat>, n: nat)
    requires c.WellFormed() && |masks| == c.wireSize && n <= c.AndGateSize()
  {
    && (forall i :: 0 <= i < n && Product(c, masks, i) && !HasLaterTwin(c, i, n) ==>
          PairKey(c, i) in entries && entries[PairKey(c, i)] == i)
    && (forall key :: key in entries ==>
          entries[key] < n && PairKey(c, entries[key]) == key &&
          Product(c, masks, entries[key]) && !HasLaterTwin(c, entries[key], n))
  }

  function PairKey(c: Circuit, i: nat): nat
    requires c.WellFormed() && i < c.AndGateSize()
  {
    AndInputsInRange(c, i);
    Pack(c.AndAt(i).in0, c.AndAt(i).in1)
  }

  lemma PairKeyTwins(c: Circuit, i: nat, j: nat)
    requires c.WellFormed() && i < c.AndGateSize() && j < c.AndGateSize()
    ensures PairKey(c, i) == PairKey(c, j) <==> Twins(c, i, j)
  {
    AndInputsInRange(c, i);
    AndInputsInRange(c, j);
    PackInjective(c.AndAt(i).in0, c.AndAt(i).in1, c.AndAt(j).in0, c.AndAt(j).in1);
  }

  lemma LaterTwinStep(c: Circuit, i: nat, n: nat)
    requires c.WellFormed() && i < n < c.AndGateSize()
    ensures HasLaterTwin(c, i, n + 1) <==> HasLaterTwin(c, i, n) || Twins(c, i, n)
  {
  }

  lemma RecordStep(c: Circuit, masks: seq<bool>, entries: map<nat, nat>, entries': map<nat, nat>, n: nat)
    requires c.WellFormed() && |masks| == c.wireSize && n < c.AndGateSize() && Recorded(c, masks, entries, n)
    requires entries' == if Product(c, masks, n) then entries[PairKey(c, n) := n] else entries
    ensures Recorded(c, masks, entries', n + 1)
  {
    forall i | 0 <= i < n + 1 && Product(c, masks, i) && !HasLaterTwin(c, i, n + 1)
      ensures PairKey(c, i) in entries' && entries'[PairKey(c, i)] == i
    {
      PairKeyTwins(c, i, n);
      if i < n { LaterTwinStep(c, i, n); }
    }
    forall key | key in entries'
      ensures entries'[key] < n + 1 && PairKey(c, entries'[key]) == key
      ensures Product(c, masks, entries'[key]) && !HasLaterTwin(c, entries'[key], n + 1)
    {
      var i := entries'[key];
      if i == n {
      } else {
        LaterTwinStep(c, i, n);
        PairKeyTwins(c, i, n);
        ProductOfTwins(c, masks, i, n);
      }
    }
  }

  lemma ProductOfTwins(c: Circuit, masks: seq<bool>, i: nat, j: nat)
    requires c.WellFormed() && |masks| == c.wireSize && i < c.AndGateSize() && j < c.AndGateSize()
    ensures Twins(c, i, j) ==> Product(c, masks, i) == Product(c, masks, j)
  {
    AndInputsInRange(c, i);
    AndInputsInRange(c, j);
  }

  /** The bit set built from the map is the vector of products, with a hole exactly where a
      product of one is followed by a twin. */
  ghost predicate AndedBits(c: Circuit, masks: seq<bool>, anded: seq<bool>)
    requires c.WellFormed() && |masks| == c.wireSize
  {
    |anded| == c.AndGateSize() &&
    forall i :: 0 <= i < |anded| ==>
      anded[i] == (Product(c, masks, i) && !HasLaterTwin(c, i, c.AndGateSize()))
  }

  lemma RecordedGivesBits(c: Circuit, masks: seq<bool>, entries: map<nat, nat>, anded: seq<bool>)
    requires c.WellFormed() && |masks| == c.wireSize && Recorded(c, masks, entries, c.AndGateSize())
    requires |anded| == c.AndGateSize()
    requires forall p :: 0 <= p < |anded| ==> (anded[p] <==> exists key :: key in entries && entries[key] == p)
    ensures AndedBits(c, masks, anded)
  {
  }

  /** The sparse matrix yields the true products exactly when no gate whose product is one has
      a later twin; a caller can check that on the gate list and the mask shares. */
  lemma AndedBitsExact(c: Circuit, masks: seq<bool>, anded: seq<bool>)
    requires c.WellFormed() && |masks| == c.wireSize && AndedBits(c, masks, anded)
    ensures (forall i :: 0 <= i < |anded| ==> anded[i] == Product(c, masks, i)) <==>
            (forall i, j :: 0 <= i < j < c.AndGateSize() && Twins(c, i, j) ==> !Product(c, masks, i))
  {
  }

  // ---------------------------------------------------------------- filling the vectors

  /** The row of global key g of a flattened table. */
  function FlatRow(v: seq<Block>, n: nat, g: nat): (r: seq<Block>)
    ensures |r| == n && forall i :: 0 <= i < n ==> r[i] == Flat(v, n, g, i)
  {
    seq(n, i requires 0 <= i < n => Flat(v, n, g, i))
  }

  /** The evaluator has no mask on the garbler's inputs: zeros stand there. */
  function Padded(zeros: nat, v: seq<Block>): (r: seq<Block>)
    ensures |r| == zeros + |v|
    ensures forall i :: 0 <= i < |r| ==> r[i] == if i < zeros then Zero() else v[i - zeros]
  {
    seq(zeros, _ => Zero()) + v
  }

  function PaddedBits(zeros: nat, v: seq<bool>): (r: seq<bool>)
    ensures |r| == zeros + |v|
    ensures forall i :: 0 <= i < |r| ==> r[i] == (i >= zeros && v[i - zeros])
  {
    seq(zeros, _ => false) + v
  }

  ghost predicate PopulatedUpTo(c: Circuit, bits: seq<bool>, macs: seq<Block>, keys: seq<Block>, p: WireMasks, n: nat)
    requires c.WellFormed() && n <= |c.gates|
  {
    && |bits| == |macs| == |keys| == c.TotalInputSize() + c.AndGateSize()
    && |p.masks| == |p.macs| == |p.keys| == c.wireSize
    && (forall w :: 0 <= w < c.TotalInputSize() ==>
          p.masks[w] == bits[w] && p.macs[w] == macs[w] && p.keys[w] == keys[w])
    && (forall k :: 0 <= k < n ==>
          BitGate(c, bits, p.masks, k) && BlockGate(c, macs, p.macs, k) && BlockGate(c, keys, p.keys, k))
  }

  /** After k rounds of the gate loop: the wires written so far, and the products recorded so far. */
  ghost predicate Populating(c: Circuit, bits: seq<bool>, macs: seq<Block>, keys: seq<Block>, p: WireMasks,
                             entries: map<nat, nat>, k: nat)
    requires c.WellFormed() && k <= |c.gates|
  {
    && PopulatedUpTo(c, bits, macs, keys, p, k)
    && c.AndCount(k) <= c.AndGateSize() && Recorded(c, p.masks, entries, c.AndCount(k))
  }

  lemma PopulatingStart(c: Circuit, bits: seq<bool>, macs: seq<Block>, keys: seq<Block>, p: WireMasks)
    requires c.WellFormed() && PopulatedUpTo(c, bits, macs, keys, p, 0)
    ensures c.AndCount(0) == 0 && Populating(c, bits, macs, keys, p, map[], 0)
  {
    RecordedNothing(c, p.masks);
  }

  lemma PopulatingDone(c: Circuit, bits: seq<bool>, macs: seq<Block>, keys: seq<Block>, p: WireMasks,
                       entries: map<nat, nat>)
    requires c.WellFormed() && Populating(c, bits, macs, keys, p, entries, |c.gates|)
    ensures PopulatedFrom(c, bits, macs, keys, p) && Recorded(c, p.masks, entries, c.AndGateSize())
  {
    hide BitGate, BlockGate, Recorded;
  }

  /** The count of AND gates, one gate on. */
  lemma NextAnd(c: Circuit, k: nat)
    requires k < |c.gates|
    ensures c.AndCount(k + 1) == c.AndCount(k) + if c.gates[k].AndGate? then 1 else 0
    ensures c.gates[k].AndGate? ==> c.AndCount(k) < c.AndGateSize()
  {
    if c.gates[k].AndGate? { c.AndPosition(k); }
  }

  /** The next unread entries are the sources' ones. */
  lemma SourceEntries(v: seq<Block>, n: nat, g: nat, zeros: nat, w: seq<Block>, wb: seq<bool>, i: nat)
    ensures i < n ==> FlatRow(v, n, g)[i] == Flat(v, n, g, i)
    ensures zeros <= i < zeros + |w| ==> Padded(zeros, w)[i] == w[i - zeros] == Flat(w, |w|, 0, i - zeros)
    ensures zeros <= i < zeros + |wb| ==> PaddedBits(zeros, wb)[i] == wb[i - zeros]
  {
  }

  /** Writing gate k's output leaves the earlier gates, and the products they recorded, alone. */
  lemma PopulateStep(c: Circuit, bits: seq<bool>, macs: seq<Block>, keys: seq<Block>, p: WireMasks, p': WireMasks,
                     k: nat)
    requires c.WellFormed() && k < |c.gates| && PopulatedUpTo(c, bits, macs, keys, p, k)
    requires |p'.masks| == |p'.macs| == |p'.keys| == c.wireSize
    requires forall w :: 0 <= w < c.wireSize && w != c.gates[k].out ==>
               p'.masks[w] == p.masks[w] && p'.macs[w] == p.macs[w] && p'.keys[w] == p.keys[w]
    requires BitGate(c, bits, p'.masks, k) && BlockGate(c, macs, p'.macs, k) && BlockGate(c, keys, p'.keys, k)
    ensures PopulatedUpTo(c, bits, macs, keys, p', k + 1)
  {
    forall j | 0 <= j < k + 1
      ensures BitGate(c, bits, p'.masks, j) && BlockGate(c, macs, p'.macs, j) && BlockGate(c, keys, p'.keys, j)
    {
      if j < k {
        var g := c.gates[j];
        assert BitGate(c, bits, p.masks, j) && BlockGate(c, macs, p.macs, j) && BlockGate(c, keys, p.keys, j);
        assert c.Available(j, g.in0) && (g.NotGate? || c.Available(j, g.in1));
        assert c.Available(k, g.out) && !c.Available(k, c.gates[k].out);
      }
    }
  }

  lemma RecordedKept(c: Circuit, masks: seq<bool>, masks': seq<bool>, entries: map<nat, nat>, k: nat)
    requires c.WellFormed() && k < |c.gates| && |masks| == |masks'| == c.wireSize
    requires forall w :: 0 <= w < c.wireSize && w != c.gates[k].out ==> masks'[w] == masks[w]
    requires c.AndCount(k) <= c.AndGateSize() && Recorded(c, masks, entries, c.AndCount(k))
    ensures Recorded(c, masks', entries, c.AndCount(k))
  {
    forall i | 0 <= i < c.AndCount(k) ensures Product(c, masks', i) == Product(c, masks, i) {
      AndInputsInRange(c, i);
      c.AndGatesPrefix(k, |c.gates|);
      c.AndGatesInRange(k);
      var j := c.AndGates(k)[i];
      assert c.AndGates(|c.gates|)[..c.AndCount(k)][i] == j;
      assert c.Available(j, c.gates[j].in0) && c.Available(j, c.gates[j].in1);
    }
  }

  /** The three values gate k writes; the `next` ones are the head of the unread sources. */
  method PopulateOutput(c: Circuit, p: WireMasks, g: Gate, nextMask: bool, nextMac: Block, nextKey: Block)
    returns (mask: bool, mac: Block, key: Block)
    requires |p.masks| == |p.macs| == |p.keys| == c.wireSize
    requires g.in0 < c.wireSize && (!g.NotGate? ==> g.in1 < c.wireSize)
    ensures mask == match g
                    case AndGate(_, _, _) => nextMask
                    case XorGate(in0, in1, _) => p.masks[in0] != p.masks[in1]
                    case NotGate(in0, _) => p.masks[in0]
    ensures mac == match g
                   case AndGate(_, _, _) => nextMac
                   case XorGate(in0, in1, _) => Xor(p.macs[in0], p.macs[in1])
                   case NotGate(in0, _) => p.macs[in0]
    ensures key == match g
                   case AndGate(_, _, _) => nextKey
                   case XorGate(in0, in1, _) => Xor(p.keys[in0], p.keys[in1])
                   case NotGate(in0, _) => p.keys[in0]
  {
    match g {
      case NotGate(in0, out) =>
        mask, mac, key := p.masks[in0], p.macs[in0], p.keys[in0];
      case AndGate(in0, in1, out) =>
        mask, mac, key := nextMask, nextMac, nextKey;
      case XorGate(in0, in1, out) =>
        mask, mac, key := p.masks[in0] != p.masks[in1], Xor(p.macs[in0], p.macs[in1]), Xor(p.keys[in0], p.keys[in1]);
    }
  }

  /** The written outputs are what the gate prescribes. */
  lemma PopulateWritten(c: Circuit, bits: seq<bool>, macs: seq<Block>, keys: seq<Block>, p: WireMasks, p': WireMasks,
                        k: nat)
    requires c.WellFormed() && k < |c.gates| && |bits| == |macs| == |keys| == c.TotalInputSize() + c.AndGateSize()
    requires |p.masks| == |p.macs| == |p.keys| == |p'.masks| == |p'.macs| == |p'.keys| == c.wireSize
    requires c.gates[k].in0 < c.wireSize && (!c.gates[k].NotGate? ==> c.gates[k].in1 < c.wireSize)
    requires forall w :: 0 <= w < c.wireSize && w != c.gates[k].out ==>
               p'.masks[w] == p.masks[w] && p'.macs[w] == p.macs[w] && p'.keys[w] == p.keys[w]
    requires c.AndCount(k) <= c.AndGateSize()
    requires match c.gates[k]
             case AndGate(_, _, out) =>
               c.AndCount(k) < c.AndGateSize() &&
               var i := c.TotalInputSize() + c.AndCount(k);
               p'.masks[out] == bits[i] && p'.macs[out] == macs[i] && p'.keys[out] == keys[i]
             case XorGate(in0, in1, out) =>
               p'.masks[out] == (p.masks[in0] != p.masks[in1]) && p'.macs[out] == Xor(p.macs[in0], p.macs[in1]) &&
               p'.keys[out] == Xor(p.keys[in0], p.keys[in1])
             case NotGate(in0, out) =>
               p'.masks[out] == p.masks[in0] && p'.macs[out] == p.macs[in0] && p'.keys[out] == p.keys[in0]
    ensures BitGate(c, bits, p'.masks, k) && BlockGate(c, macs, p'.macs, k) && BlockGate(c, keys, p'.keys, k)
  {
    var g := c.gates[k];
    assert c.Available(k, g.in0) && (g.NotGate? || c.Available(k, g.in1)) && !c.Available(k, g.out);
  }

  /** One round of the gate loop: the three outputs, and the product if gate k is an AND gate. */
  method PopulateGate(c: Circuit, p: WireMasks, k: nat, andedMasks: SparseBitMatrix, nextMask: bool, nextMac: Block,
                      nextKey: Block, ghost bits: seq<bool>, ghost macs: seq<Block>, ghost keys: seq<Block>)
    returns (p': WireMasks)
    requires c.WellFormed() && k < |c.gates| && Populating(c, bits, macs, keys, p, andedMasks.entries, k)
    requires c.gates[k].AndGate? ==>
               c.AndCount(k) < c.AndGateSize() &&
               var i := c.TotalInputSize() + c.AndCount(k);
               nextMask == bits[i] && nextMac == macs[i] && nextKey == keys[i]
    modifies andedMasks
    ensures Populating(c, bits, macs, keys, p', andedMasks.entries, k + 1)
  {
    hide Recorded, Product;
    var g := c.gates[k];
    assert c.Available(k, g.in0) && (g.NotGate? || c.Available(k, g.in1)) && !c.Available(k, g.out);
    var mask, mac, key := PopulateOutput(c, p, g, nextMask, nextMac, nextKey);
    p' := WireMasks(p.masks[g.out := mask], p.macs[g.out := mac], p.keys[g.out := key]);
    PopulateWritten(c, bits, macs, keys, p, p', k);
    hide BitGate, BlockGate, PopulatedUpTo, Circuit.WellFormed, Circuit.AndGates;
    PopulateStep(c, bits, macs, keys, p, p', k);
    RecordedKept(c, p.masks, p'.masks, andedMasks.entries, k);
    c.AndGatesPrefix(k + 1, |c.gates|);
    NextAnd(c, k);
    if g.AndGate? {
      c.AndPosition(k);
      RecordProduct(c, p'.masks, g, c.AndCount(k), andedMasks);
    }
  }

  method RecordProduct(c: Circuit, masks: seq<bool>, g: Gate, n: nat, andedMasks: SparseBitMatrix)
    requires c.WellFormed() && |masks| == c.wireSize && n < c.AndGateSize() && c.AndAt(n) == g
    requires Recorded(c, masks, andedMasks.entries, n)
    modifies andedMasks
    ensures Recorded(c, masks, andedMasks.entries, n + 1)
  {
    hide Recorded;
    AndInputsInRange(c, n);
    ghost var before := andedMasks.entries;
    if masks[g.in0] && masks[g.in1] {
      andedMasks.Set(g.in0, g.in1, n);
    }
    RecordStep(c, masks, before, andedMasks.entries, n);
  }

  /** The garbler: own masks from the last key of `aMatrix`, keys of the evaluator's from `bKeys`. */
  method PopulateWiresGarbler(c: Circuit, aMatrix: ITMacBits, bKeys: ITMacBitKeys, compressParam: nat)
    returns (p: WireMasks, andedMasks: SparseBitMatrix)
    requires c.WellFormed() && |aMatrix.bits| == c.TotalInputSize() + c.AndGateSize()
    requires |bKeys.globalKeys| == 1 && |bKeys.localKeys| == c.inputSize1 + c.AndGateSize()
    ensures PopulatedFrom(c, aMatrix.bits, FlatRow(aMatrix.macs, |aMatrix.bits|, compressParam),
                          Padded(c.inputSize0, bKeys.localKeys), p)
    ensures fresh(andedMasks) && Recorded(c, p.masks, andedMasks.entries, c.AndGateSize())
  {
    ghost var macSource := FlatRow(aMatrix.macs, |aMatrix.bits|, compressParam);
    ghost var keySource := Padded(c.inputSize0, bKeys.localKeys);
    p := PopulateInputsGarbler(c, aMatrix, bKeys, compressParam);
    andedMasks := new SparseBitMatrix();
    PopulatingStart(c, aMatrix.bits, macSource, keySource, p);
    hide *;
    InputSizes(c);
    var aMatrixIter, bKeysIter := c.TotalInputSize(), c.inputSize1;
    for k := 0 to |c.gates|
      invariant fresh(andedMasks)
      invariant aMatrixIter == c.TotalInputSize() + c.AndCount(k) && bKeysIter == c.inputSize1 + c.AndCount(k)
      invariant Populating(c, aMatrix.bits, macSource, keySource, p, andedMasks.entries, k)
    {
      NextAnd(c, k);
      if c.gates[k].AndGate? {
        GarblerEntries(aMatrix, bKeys, compressParam, c.inputSize0, aMatrixIter);
        p := PopulateGate(c, p, k, andedMasks, aMatrix.bits[aMatrixIter], aMatrix.GetMac(compressParam, aMatrixIter),
                          bKeys.GetLocalKey(0, bKeysIter), aMatrix.bits, macSource, keySource);
        aMatrixIter, bKeysIter := aMatrixIter + 1, bKeysIter + 1;
      } else {
        p := PopulateGate(c, p, k, andedMasks, false, Zero(), Zero(), aMatrix.bits, macSource, keySource);
      }
    }
    PopulatingDone(c, aMatrix.bits, macSource, keySource, p, andedMasks.entries);
  }

  lemma InputSizes(c: Circuit)
    ensures c.TotalInputSize() == c.inputSize0 + c.inputSize1
  {
  }

  lemma GarblerEntries(aMatrix: ITMacBits, bKeys: ITMacBitKeys, compressParam: nat, zeros: nat, i: nat)
    requires i < |aMatrix.bits| && |bKeys.globalKeys| == 1 && zeros <= i < zeros + |bKeys.localKeys|
    ensures FlatRow(aMatrix.macs, |aMatrix.bits|, compressParam)[i] == aMatrix.GetMac(compressParam, i)
    ensures Padded(zeros, bKeys.localKeys)[i] == bKeys.GetLocalKey(0, i - zeros)
  {
    SourceEntries(aMatrix.macs, |aMatrix.bits|, compressParam, zeros, bKeys.localKeys, [], i);
  }

  lemma EvaluatorEntries(b: ITMacBits, aMatrix: ITMacBitKeys, compressParam: nat, zeros: nat, i: nat)
    requires i < aMatrix.Size() && |b.bits| == |b.macs| && zeros <= i < zeros + |b.bits|
    ensures PaddedBits(zeros, b.bits)[i] == b.bits[i - zeros] && Padded(zeros, b.macs)[i] == b.GetMac(0, i - zeros)
    ensures FlatRow(aMatrix.localKeys, aMatrix.Size(), compressParam)[i] == aMatrix.GetLocalKey(compressParam, i)
  {
    SourceEntries(aMatrix.localKeys, aMatrix.Size(), compressParam, zeros, b.macs, b.bits, i);
  }

  lemma RecordedNothing(c: Circuit, masks: seq<bool>)
    requires c.WellFormed() && |masks| == c.wireSize
    ensures c.AndCount(0) == 0 && Recorded(c, masks, map[], 0)
  {
  }

  method PopulateInputsGarbler(c: Circuit, aMatrix: ITMacBits, bKeys: ITMacBitKeys, compressParam: nat)
    returns (p: WireMasks)
    requires c.WellFormed() && |aMatrix.bits| == c.TotalInputSize() + c.AndGateSize()
    requires |bKeys.globalKeys| == 1 && |bKeys.localKeys| == c.inputSize1 + c.AndGateSize()
    ensures PopulatedUpTo(c, aMatrix.bits, FlatRow(aMatrix.macs, |aMatrix.bits|, compressParam),
                          Padded(c.inputSize0, bKeys.localKeys), p, 0)
  {
    ghost var macSource := FlatRow(aMatrix.macs, |aMatrix.bits|, compressParam);
    ghost var keySource := Padded(c.inputSize0, bKeys.localKeys);
    var masks: seq<bool>, macs: seq<Block>, keys: seq<Block> :=
      seq(c.wireSize, _ => false), seq(c.wireSize, _ => Zero()), seq(c.wireSize, _ => Zero());
    for wireIter := 0 to c.inputSize0
      invariant |masks| == |macs| == |keys| == c.wireSize
      invariant forall w :: 0 <= w < wireIter ==> masks[w] == aMatrix.bits[w] && macs[w] == macSource[w]
      invariant forall w :: 0 <= w < c.wireSize ==> keys[w] == Zero()
    {
      masks := masks[wireIter := aMatrix.bits[wireIter]];
      macs := macs[wireIter := aMatrix.GetMac(compressParam, wireIter)];
    }
    var bKeysIter := 0;
    for wireIter := c.inputSize0 to c.TotalInputSize()
      invariant |masks| == |macs| == |keys| == c.wireSize && bKeysIter == wireIter - c.inputSize0
      invariant forall w :: 0 <= w < wireIter ==>
                  masks[w] == aMatrix.bits[w] && macs[w] == macSource[w] && keys[w] == keySource[w]
    {
      masks := masks[wireIter := aMatrix.bits[wireIter]];
      macs := macs[wireIter := aMatrix.GetMac(compressParam, wireIter)];
      keys := keys[wireIter := bKeys.GetLocalKey(0, bKeysIter)];
      bKeysIter := bKeysIter + 1;
    }
    p := WireMasks(masks, macs, keys);
  }

  /** The evaluator: own masks from `b`, zero on the garbler's inputs; keys of the garbler's from
      the last key of `aMatrix`. */
  method PopulateWiresEvaluator(c: Circuit, b: ITMacBits, aMatrix: ITMacBitKeys, compressParam: nat)
    returns (p: WireMasks, andedMasks: SparseBitMatrix)
    requires c.WellFormed() && aMatrix.Size() == c.TotalInputSize() + c.AndGateSize()
    requires |b.bits| == |b.macs| == c.inputSize1 + c.AndGateSize()
    ensures PopulatedFrom(c, PaddedBits(c.inputSize0, b.bits), Padded(c.inputSize0, b.macs),
                          FlatRow(aMatrix.localKeys, aMatrix.Size(), compressParam), p)
    ensures fresh(andedMasks) && Recorded(c, p.masks, andedMasks.entries, c.AndGateSize())
  {
    ghost var bitSource, macSource := PaddedBits(c.inputSize0, b.bits), Padded(c.inputSize0, b.macs);
    ghost var keySource := FlatRow(aMatrix.localKeys, aMatrix.Size(), compressParam);
    p := PopulateInputsEvaluator(c, b, aMatrix, compressParam);
    andedMasks := new SparseBitMatrix();
    PopulatingStart(c, bitSource, macSource, keySource, p);
    hide *;
    InputSizes(c);
    var aMatrixIter, bIter := c.TotalInputSize(), c.inputSize1;
    for k := 0 to |c.gates|
      invariant fresh(andedMasks)
      invariant aMatrixIter == c.TotalInputSize() + c.AndCount(k) && bIter == c.inputSize1 + c.AndCount(k)
      invariant Populating(c, bitSource, macSource, keySource, p, andedMasks.entries, k)
    {
      NextAnd(c, k);
      if c.gates[k].AndGate? {
        EvaluatorEntries(b, aMatrix, compressParam, c.inputSize0, aMatrixIter);
        p := PopulateGate(c, p, k, andedMasks, b.bits[bIter], b.GetMac(0, bIter),
                          aMatrix.GetLocalKey(compressParam, aMatrixIter), bitSource, macSource, keySource);
        bIter, aMatrixIter := bIter + 1, aMatrixIter + 1;
      } else {
        p := PopulateGate(c, p, k, andedMasks, false, Zero(), Zero(), bitSource, macSource, keySource);
      }
    }
    PopulatingDone(c, bitSource, macSource, keySource, p, andedMasks.entries);
  }

  method PopulateInputsEvaluator(c: Circuit, b: ITMacBits, aMatrix: ITMacBitKeys, compressParam: nat)
    returns (p: WireMasks)
    requires c.WellFormed() && aMatrix.Size() == c.TotalInputSize() + c.AndGateSize()
    requires |b.bits| == |b.macs| == c.inputSize1 + c.AndGateSize()
    ensures PopulatedUpTo(c, PaddedBits(c.inputSize0, b.bits), Padded(c.inputSize0, b.macs),
                          FlatRow(aMatrix.localKeys, aMatrix.Size(), compressParam), p, 0)
  {
    ghost var bitSource, macSource := PaddedBits(c.inputSize0, b.bits), Padded(c.inputSize0, b.macs);
    ghost var keySource := FlatRow(aMatrix.localKeys, aMatrix.Size(), compressParam);
    var masks: seq<bool>, macs: seq<Block>, keys: seq<Block> :=
      seq(c.wireSize, _ => false), seq(c.wireSize, _ => Zero()), seq(c.wireSize, _ => Zero());
    for wireIter := 0 to c.inputSize0
      invariant |masks| == |macs| == |keys| == c.wireSize
      invariant forall w :: 0 <= w < wireIter ==> keys[w] == keySource[w]
      invariant forall w :: 0 <= w < c.wireSize ==> !masks[w] && macs[w] == Zero()
    {
      keys := keys[wireIter := aMatrix.GetLocalKey(compressParam, wireIter)];
    }
    var bIter := 0;
    for wireIter := c.inputSize0 to c.TotalInputSize()
      invariant |masks| == |macs| == |keys| == c.wireSize && bIter == wireIter - c.inputSize0
      invariant forall w :: 0 <= w < wireIter ==>
                  masks[w] == bitSource[w] && macs[w] == macSource[w] && keys[w] == keySource[w]
    {
      masks := masks[wireIter := b.bits[bIter]];
      macs := macs[wireIter := b.GetMac(0, bIter)];
      keys := keys[wireIter := aMatrix.GetLocalKey(compressParam, wireIter)];
      bIter := bIter + 1;
    }
    p := WireMasks(masks, macs, keys);
  }
}
