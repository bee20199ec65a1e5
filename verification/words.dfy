/** 64-bit words and the bit sets packed into them. */
module Words {

  const WORD_BITS := 64

  /** A machine word as its bits, least significant first. */
  type Word = s: seq<bool> | |s| == WORD_BITS witness seq(WORD_BITS, _ => false)

  function ZeroWord(): Word {
    seq(WORD_BITS, _ => false)
  }

  function BitAnd(a: seq<bool>, b: seq<bool>): (r: seq<bool>)
    requires |a| == |b|
    ensures |r| == |a| && forall i :: 0 <= i < |a| ==> r[i] == (a[i] && b[i])
  {
    seq(|a|, i requires 0 <= i < |a| => a[i] && b[i])
  }

  function BitXor(a: seq<bool>, b: seq<bool>): (r: seq<bool>)
    requires |a| == |b|
    ensures |r| == |a| && forall i :: 0 <= i < |a| ==> r[i] == (a[i] != b[i])
  {
    seq(|a|, i requires 0 <= i < |a| => a[i] != b[i])
  }

  function BitOr(a: seq<bool>, b: seq<bool>): (r: seq<bool>)
    requires |a| == |b|
    ensures |r| == |a| && forall i :: 0 <= i < |a| ==> r[i] == (a[i] || b[i])
  {
    seq(|a|, i requires 0 <= i < |a| => a[i] || b[i])
  }

  /** The word 1 << k. */
  function OneAt(k: nat): (r: Word)
    ensures forall i :: 0 <= i < WORD_BITS ==> r[i] == (i == k)
  {
    seq(WORD_BITS, i => i == k)
  }

  /** Subtracting one, with the borrow running through the trailing zeros. */
  function Decrement(w: seq<bool>): (r: seq<bool>)
    ensures |r| == |w|
  {
    if w == [] then [] else if w[0] then [false] + w[1..] else [true] + Decrement(w[1..])
  }

  /** The number a word denotes. */
  function Value(w: seq<bool>): nat {
    if w == [] then 0 else (if w[0] then 1 else 0) + 2 * Value(w[1..])
  }

  /** Count of trailing zeros. */
  function Ctz(w: seq<bool>): (k: nat)
    requires exists i :: 0 <= i < |w| && w[i]
    ensures k < |w| && w[k] && forall i :: 0 <= i < k ==> !w[i]
  {
    if w[0] then 0 else
    assert exists i :: 0 <= i < |w[1..]| && w[1..][i] by {
      var i :| 0 <= i < |w| && w[i];
      assert w[1..][i - 1];
    }
    1 + Ctz(w[1..])
  }

  function PopCount(w: seq<bool>): nat {
    if w == [] then 0 else (if w[0] then 1 else 0) + PopCount(w[1..])
  }

  /** Decrement is subtraction on the numbers, modulo the word size at zero. */
  lemma {:induction false} DecrementValue(w: seq<bool>)
    ensures Value(w) > 0 ==> Value(Decrement(w)) == Value(w) - 1
    ensures Value(w) > 0 <==> exists i :: 0 <= i < |w| && w[i]
  {
    if w != [] {
      DecrementValue(w[1..]);
      if i :| 0 <= i < |w| && w[i] {
        assert i > 0 ==> w[1..][i - 1];
      }
      if !w[0] {
        assert Decrement(w)[1..] == Decrement(w[1..]);
      } else {
        assert Decrement(w)[1..] == w[1..];
      }
    }
  }

  /** Subtracting one sets the trailing zeros, clears the lowest one, and keeps the rest. */
  lemma {:induction false} DecrementShape(w: seq<bool>)
    requires exists i :: 0 <= i < |w| && w[i]
    ensures forall i :: 0 <= i < |w| ==>
              Decrement(w)[i] == if i < Ctz(w) then true else if i == Ctz(w) then false else w[i]
  {
    if !w[0] {
      var t := w[1..];
      assert exists i :: 0 <= i < |t| && t[i] by {
        var i :| 0 <= i < |w| && w[i];
        assert t[i - 1];
      }
      DecrementShape(t);
      assert Decrement(w) == [true] + Decrement(t);
    }
  }

  /** `m & (m - 1)` clears the lowest set bit and nothing else. */
  lemma ClearLowest(w: seq<bool>)
    requires exists i :: 0 <= i < |w| && w[i]
    ensures forall i :: 0 <= i < |w| ==> BitAnd(w, Decrement(w))[i] == (w[i] && i != Ctz(w))
  {
    DecrementShape(w);
  }

  // ---------------------------------------------------------------- packed bit sets

  /** Number of words that hold n bits. */
  function WordsFor(n: nat): nat {
    n / WORD_BITS + (if n % WORD_BITS != 0 then 1 else 0)
  }

  /** The bits of a list of words, in order. */
  function Unpacked(words: seq<Word>): (r: seq<bool>)
    ensures |r| == WORD_BITS * |words|
    ensures forall i :: 0 <= i < |r| ==> r[i] == words[i / WORD_BITS][i % WORD_BITS]
  {
    seq(WORD_BITS * |words|, i requires 0 <= i < WORD_BITS * |words| => words[i / WORD_BITS][i % WORD_BITS])
  }

  /** The words of a bit set; the unused bits of the last one are zero. */
  function Packed(bits: seq<bool>): (r: seq<Word>)
    ensures |r| == WordsFor(|bits|)
    ensures forall i, j :: 0 <= i < |r| && 0 <= j < WORD_BITS ==>
              r[i][j] == (WORD_BITS * i + j < |bits| && bits[WORD_BITS * i + j])
  {
    seq(WordsFor(|bits|), i requires 0 <= i < WordsFor(|bits|) =>
      seq(WORD_BITS, j requires 0 <= j < WORD_BITS => WORD_BITS * i + j < |bits| && bits[WORD_BITS * i + j]))
  }

  /** What a receiver of packed words reads back after resizing to n bits. */
  function Resized(bits: seq<bool>, n: nat): (r: seq<bool>)
    ensures |r| == n && forall i :: 0 <= i < n ==> r[i] == (i < |bits| && bits[i])
  {
    seq(n, i requires 0 <= i < n => i < |bits| && bits[i])
  }

  lemma PackUnpack(bits: seq<bool>)
    ensures Resized(Unpacked(Packed(bits)), |bits|) == bits
  {
  }
}
