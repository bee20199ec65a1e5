/** Boolean circuits, their plain meaning, and the wire numbering of the library. */
module Circuits {

  type Wire = nat

  /** Wires are numbered by non-negative 32-bit integers. */
  const WIRE_LIMIT := 0x8000_0000

  datatype Gate =
    | AndGate(in0: Wire, in1: Wire, out: Wire)
    | XorGate(in0: Wire, in1: Wire, out: Wire)
    | NotGate(in0: Wire, out: Wire)

  datatype Circuit = Circuit(inputSize0: nat, inputSize1: nat, outputSize: nat, wireSize: nat, gates: seq<Gate>) {

    function TotalInputSize(): nat {
      inputSize0 + inputSize1
    }

    /** Wire w carries a value before gate k: an input, or the output of an earlier gate. */
    ghost predicate Available(k: nat, w: Wire)
      requires k <= |gates|
    {
      w < TotalInputSize() || exists j :: 0 <= j < k && gates[j].out == w
    }

    /** What the library assumes of a circuit file: inputs come first, gates are in
        topological order, every other wire is written exactly once, and the
        outputs are the last wires. */
    ghost predicate WellFormed() {
      && TotalInputSize() <= wireSize <= WIRE_LIMIT
      && outputSize <= wireSize
      && (forall k :: 0 <= k < |gates| ==> TotalInputSize() <= gates[k].out < wireSize)
      && (forall j, k :: 0 <= j < k < |gates| ==> gates[j].out != gates[k].out)
      && (forall k :: 0 <= k < |gates| ==> Available(k, gates[k].in0))
      && (forall k :: 0 <= k < |gates| && !gates[k].NotGate? ==> Available(k, gates[k].in1))
      && (forall w :: 0 <= w < wireSize ==> Available(|gates|, w))
    }

    /** Indices of the AND gates among the first k gates, in order. */
    function AndGates(k: nat): seq<nat>
      requires k <= |gates|
    {
      if k == 0 then [] else AndGates(k - 1) + (if gates[k - 1].AndGate? then [k - 1] else [])
    }

    /** Number of AND gates before gate k: the position of gate k among them. */
    function AndCount(k: nat): nat
      requires k <= |gates|
    {
      |AndGates(k)|
    }

    function AndGateSize(): nat {
      AndCount(|gates|)
    }

    /** The i-th AND gate. */
    function AndAt(i: nat): Gate
      requires i < AndGateSize()
    {
      AndGatesInRange(|gates|);
      gates[AndGates(|gates|)[i]]
    }

    /** The wires with masks of their own, in the library's order: inputs, then AND outputs. */
    function IndependentWires(): (r: seq<Wire>)
      requires WellFormed()
      ensures |r| == TotalInputSize() + AndGateSize()
      ensures forall i :: 0 <= i < |r| ==> r[i] < wireSize
    {
      AndGatesInRange(|gates|);
      seq(TotalInputSize(), i => i) + seq(AndGateSize(), i requires 0 <= i < AndGateSize() => AndAt(i).out)
    }

    /** The list of independent wires, entry by entry. */
    lemma WireAt(i: nat)
      requires WellFormed() && i < |IndependentWires()|
      ensures i < TotalInputSize() ==> IndependentWires()[i] == i
      ensures i >= TotalInputSize() ==> IndependentWires()[i] == AndAt(i - TotalInputSize()).out
    {
    }

    lemma {:induction false} AndGatesInRange(k: nat)
      requires k <= |gates|
      ensures forall i :: 0 <= i < AndCount(k) ==> AndGates(k)[i] < k && gates[AndGates(k)[i]].AndGate?
      ensures forall i, j :: 0 <= i < j < AndCount(k) ==> AndGates(k)[i] < AndGates(k)[j]
    {
      if k > 0 { AndGatesInRange(k - 1); }
    }

    lemma {:induction false} AndGatesPrefix(k: nat, n: nat)
      requires k <= n <= |gates|
      ensures AndCount(k) <= AndCount(n) && AndGates(n)[..AndCount(k)] == AndGates(k)
      decreases n
    {
      if k < n { AndGatesPrefix(k, n - 1); }
    }

    /** An AND gate sits in the AND order at its own count. */
    lemma AndPosition(k: nat)
      requires k < |gates| && gates[k].AndGate?
      ensures AndCount(k) < AndGateSize() && AndGates(|gates|)[AndCount(k)] == k && AndAt(AndCount(k)) == gates[k]
      ensures AndCount(k + 1) == AndCount(k) + 1
    {
      AndGatesPrefix(k + 1, |gates|);
      assert AndGates(k + 1) == AndGates(k) + [k];
      assert AndGates(|gates|)[..AndCount(k + 1)][AndCount(k)] == k;
    }

    lemma AndPositionInverse(i: nat)
      requires i < AndGateSize()
      ensures var k := AndGates(|gates|)[i]; k < |gates| && gates[k].AndGate? && AndCount(k) == i
    {
      AndGatesInRange(|gates|);
      var k := AndGates(|gates|)[i];
      AndPosition(k);
    }

    lemma AvailableStep(k: nat, w: Wire)
      requires k < |gates|
      ensures Available(k + 1, w) <==> Available(k, w) || w == gates[k].out
    {
      if Available(k + 1, w) && w >= TotalInputSize() {
        var j :| 0 <= j < k + 1 && gates[j].out == w;
      }
    }
  }

  // ---------------------------------------------------------------- plain evaluation

  /** The wire values after the first k gates, from the inputs of both parties. */
  function EvalWires(c: Circuit, input: seq<bool>, k: nat): (r: seq<bool>)
    requires c.WellFormed() && |input| == c.TotalInputSize() && k <= |c.gates|
    ensures |r| == c.wireSize
  {
    if k == 0 then
      input + seq(c.wireSize - |input|, _ => false)
    else
      var v := EvalWires(c, input, k - 1);
      var g := c.gates[k - 1];
      assert c.Available(k - 1, g.in0) && (g.NotGate? || c.Available(k - 1, g.in1));
      v[g.out := match g
                 case AndGate(_, _, _) => v[g.in0] && v[g.in1]
                 case XorGate(_, _, _) => v[g.in0] != v[g.in1]
                 case NotGate(_, _) => !v[g.in0]]
  }

  /** What the circuit computes: the values of its last wires. */
  function Eval(c: Circuit, input: seq<bool>): (r: seq<bool>)
    requires c.WellFormed() && |input| == c.TotalInputSize()
    ensures |r| == c.outputSize
  {
    EvalWires(c, input, |c.gates|)[c.wireSize - c.outputSize..]
  }

  /** Every gate's output is its function of its inputs. */
  ghost predicate FollowsGates(c: Circuit, v: seq<bool>)
    requires c.WellFormed()
  {
    |v| == c.wireSize &&
    forall k :: 0 <= k < |c.gates| ==> GateHolds(c, v, k)
  }

  ghost predicate GateHolds(c: Circuit, v: seq<bool>, k: nat)
    requires c.WellFormed() && |v| == c.wireSize && k < |c.gates|
  {
    var g := c.gates[k];
    assert c.Available(k, g.in0) && (g.NotGate? || c.Available(k, g.in1));
    v[g.out] == match g
                case AndGate(_, _, _) => v[g.in0] && v[g.in1]
                case XorGate(_, _, _) => v[g.in0] != v[g.in1]
                case NotGate(_, _) => !v[g.in0]
  }

  /** The evaluation respects every gate, and is the only assignment that does. */
  lemma {:induction false} EvalUnique(c: Circuit, input: seq<bool>, v: seq<bool>, k: nat)
    requires c.WellFormed() && |input| == c.TotalInputSize() && k <= |c.gates|
    requires FollowsGates(c, v) && v[..|input|] == input
    ensures forall w :: 0 <= w < c.wireSize && c.Available(k, w) ==> EvalWires(c, input, k)[w] == v[w]
  {
    if k == 0 {
      forall w | 0 <= w < c.wireSize && c.Available(0, w) ensures EvalWires(c, input, 0)[w] == v[w] {
        assert v[w] == v[..|input|][w];
      }
    } else {
      EvalUnique(c, input, v, k - 1);
      assert GateHolds(c, v, k - 1);
      forall w | 0 <= w < c.wireSize && c.Available(k, w) ensures EvalWires(c, input, k)[w] == v[w] {
        c.AvailableStep(k - 1, w);
      }
    }
  }

  lemma EvalOutput(c: Circuit, input: seq<bool>, v: seq<bool>)
    requires c.WellFormed() && |input| == c.TotalInputSize()
    requires FollowsGates(c, v) && v[..|input|] == input
    ensures Eval(c, input) == v[c.wireSize - c.outputSize..]
  {
    EvalUnique(c, input, v, |c.gates|);
    assert EvalWires(c, input, |c.gates|) == v;
  }
}
