/** 16-bit lane arithmetic of the Kyber library: Barrett reduction and conditional subtraction. */
module KyberArithmetic {

  const Q := 3329
  /** floor(2^26 / q + 1/2). */
  const V := 20159

  /** What a 16-bit lane holds, read as a signed number. */
  predicate Int16(x: int) {
    -32768 <= x < 32768
  }

  /** The result of a lane operation: the low 16 bits, read as a signed number. */
  function Wrap16(x: int): (r: int)
    ensures Int16(r) && (r - x) % 65536 == 0
    ensures Int16(x) ==> r == x
  {
    (x + 32768) % 65536 - 32768
  }

  /** High half of the signed 32-bit product. */
  function MulHi(a: int, b: int): int {
    a * b / 65536
  }

  function MulLo(a: int, b: int): int {
    Wrap16(a * b)
  }

  /** Arithmetic right shift. */
  function Sra10(a: int): int {
    a / 1024
  }

  /** red16: multiply by V, shift, multiply by q, subtract. */
  method Red16(r: int) returns (r': int)
    requires Int16(r)
    ensures r' == Reduced(r)
  {
    var x := MulHi(V, r);
    x := Sra10(x);
    x := MulLo(Q, x);
    r' := Wrap16(r - x);
    QuotientBounds(r);
  }

  /** csubq: subtract q, and add it back if that went below zero.  The lowest lanes wrap upwards when
      q is subtracted, and then keep the wrapped difference. */
  method Csubq(r: int) returns (r': int)
    requires Int16(r)
    ensures r' == if r >= Q then r - Q else if Int16(r - Q) then r else r - Q + 65536
  {
    r' := Wrap16(r - Q);
    var mask := r' < 0;
    r' := Wrap16(r' + if mask then Q else 0);
  }

  /** The representative Barrett reduction picks. */
  function Reduced(r: int): int {
    r - Q * (V * r / 0x400_0000)
  }

  /** The two shifts are one division by 2^26, and the quotient is off by less than the slack allows. */
  lemma QuotientBounds(r: int)
    requires Int16(r)
    ensures Sra10(MulHi(V, r)) == V * r / 0x400_0000
    ensures 0 <= Reduced(r) <= Q
    ensures (Reduced(r) - r) % Q == 0
  {
  }

  /** A number in [0, q] that is a multiple of q away from `a`, after csubq, is `a` reduced. */
  function Canonical(r: int): int {
    var x := Reduced(r);
    if x < Q then x else x - Q
  }

  /** Reduce, then conditionally subtract: the residue modulo q, for every 16-bit input. */
  lemma CanonicalIsResidue(r: int)
    requires Int16(r)
    ensures 0 <= Canonical(r) < Q && Canonical(r) == r % Q
  {
  }

  /** Subtracting a canonical number and adding it again gives back the canonical number. */
  lemma SubtractThenAdd(a: int, h: int)
    requires 0 <= a < Q && 0 <= h < Q
    ensures var d := Canonical(Wrap16(a - h)); 0 <= d < Q && Canonical(Wrap16(d + h)) == a
  {
    CanonicalIsResidue(a - h);
    var d := Canonical(a - h);
    CanonicalIsResidue(d + h);
  }
}
