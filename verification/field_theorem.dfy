/** The block ring is a field, and gf_inverse computes inverses in it.

    Let N be a -> a^2 + a.  One element has N^127 = 1, so its 128 iterates are linearly
    independent; being 128 many they span all blocks.  Hence N^128 = 0 everywhere, that is
    a^(2^128) = a, and only 0 and 1 satisfy a^2 = a.  For a non-zero x the power
    x^(2^128 - 1) is such an idempotent and fixes x, so it is 1. */
module FieldTheorem {
  import opened Blocks
  import opened Field
  import opened WordPolynomials
  import opened Inversion

  // ---------------------------------------------------------------- combinations of iterates

  /** c[0] y + c[1] N(y) + c[2] N^2(y) + ... */
  function Combination(c: seq<bool>, y: Block): Block {
    if c == [] then Zero() else Xor(Scale(c[0], y), Combination(c[1..], Artin(y)))
  }

  lemma {:induction false} CombinationIterate(c: seq<bool>, y: Block, k: nat)
    ensures Iterate(Combination(c, y), k) == Combination(c, Iterate(y, k))
  {
    hide Artin;
    if c == [] {
      IterateScale(false, y, k);
    } else {
      CombinationIterate(c[1..], Artin(y), k);
      IterateXor(Scale(c[0], y), Combination(c[1..], Artin(y)), k);
      IterateScale(c[0], y, k);
      IterateOnce(y, k);
    }
  }

  lemma IterateOnce(y: Block, k: nat)
    ensures Iterate(Artin(y), k) == Artin(Iterate(y, k))
  {
    hide Artin;
    assert Iterate(y, 1) == Artin(Iterate(y, 0));
    IterateAdd(y, 1, k);
    IterateAdd(y, k, 1);
    assert Iterate(Iterate(y, k), 1) == Artin(Iterate(Iterate(y, k), 0));
  }

  lemma {:induction false} CombinationScale(c: seq<bool>, t: bool, y: Block)
    ensures Combination(c, Scale(t, y)) == Scale(t, Combination(c, y))
  {
    hide Artin;
    if c != [] {
      ArtinScale(t, y);
      CombinationScale(c[1..], t, Artin(y));
      XorZero(Zero());
    }
  }

  lemma {:induction false} CombinationXor(c: seq<bool>, d: seq<bool>, e: seq<bool>, y: Block)
    requires |c| == |d| == |e| && forall i :: 0 <= i < |c| ==> e[i] == (c[i] != d[i])
    ensures Combination(e, y) == Xor(Combination(c, y), Combination(d, y))
  {
    hide Artin;
    if c == [] {
      XorZero(Zero());
    } else {
      CombinationXor(c[1..], d[1..], e[1..], Artin(y));
      assert Scale(e[0], y) == Xor(Scale(c[0], y), Scale(d[0], y));
      XorSwap(Scale(c[0], y), Scale(d[0], y), Combination(c[1..], Artin(y)), Combination(d[1..], Artin(y)));
    }
  }

  /** An element that 127 rounds of N take to 1. */
  ghost predicate Generates(y: Block) {
    Iterate(y, 127) == One()
  }

  lemma GeneratorVanishes(y: Block)
    requires Generates(y)
    ensures Iterate(y, 128) == Zero()
  {
    hide Artin;
    IterateNext(y, 127);
    ArtinOne();
  }

  /** No combination of the iterates vanishes, except the empty choice.
      `k` is how many iterates have been divided away. */
  lemma {:induction false} Independent(c: seq<bool>, k: nat, y: Block)
    requires |c| + k == BLOCK_BITS && Generates(y) && Combination(c, Iterate(y, k)) == Zero()
    ensures forall i :: 0 <= i < |c| ==> !c[i]
  {
    hide Artin, Iterate;
    if c != [] {
      var z, m := Iterate(y, k), |c| - 1;
      var rest := Combination(c[1..], Artin(z));
      IterateAdd(y, k, m);
      GeneratorVanishes(y);
      IterateScale(false, y, m);
      IterateXor(Scale(c[0], z), rest, m);
      IterateScale(c[0], z, m);
      CombinationIterate(c[1..], Artin(z), m);
      IterateOnce(z, m);
      IterateNext(y, 127);
      CombinationScale(c[1..], false, y);
      XorZero(Scale(c[0], One()));
      assert Scale(c[0], One())[0] == c[0];
      XorZero(rest);
      IterateNext(y, k);
      Independent(c[1..], k + 1, y);
      forall i | 0 <= i < |c| ensures !c[i] {
        if i > 0 { assert !c[1..][i - 1]; }
      }
    }
  }

  lemma IterateNext(a: Block, k: nat)
    ensures Iterate(a, k + 1) == Artin(Iterate(a, k))
  {
  }

  // ---------------------------------------------------------------- counting

  /** All bit strings of length n. */
  ghost function Strings(n: nat): set<seq<bool>> {
    if n == 0 then {[]} else (set s | s in Strings(n - 1) :: [false] + s) + (set s | s in Strings(n - 1) :: [true] + s)
  }

  lemma {:induction false} StringsAll(n: nat, s: seq<bool>)
    ensures s in Strings(n) <==> |s| == n
  {
    if n > 0 {
      if |s| == n {
        StringsAll(n - 1, s[1..]);
        if s[0] {
          assert s == [true] + s[1..];
        } else {
          assert s == [false] + s[1..];
        }
      }
      if s in Strings(n) {
        var t :| t in Strings(n - 1) && (s == [false] + t || s == [true] + t);
        StringsAll(n - 1, t);
      }
    }
  }

  lemma {:induction false} ImageSize(s: set<seq<bool>>, image: set<seq<bool>>, f: seq<bool> -> seq<bool>)
    requires image == set c | c in s :: f(c)
    requires forall c, d :: c in s && d in s && f(c) == f(d) ==> c == d
    ensures |image| == |s|
  {
    if s == {} {
      assert image == {};
    } else {
      var x :| x in s;
      var s', image' := s - {x}, image - {f(x)};
      assert image' == set c | c in s' :: f(c);
      ImageSize(s', image', f);
    }
  }

  lemma SubsetOfSameSize(a: set<seq<bool>>, b: set<seq<bool>>)
    requires a <= b && |a| == |b|
    ensures a == b
  {
    if x :| x in b && x !in a {
      assert a <= b - {x};
      SubsetSize(a, b - {x});
    }
  }

  lemma {:induction false} SubsetSize(a: set<seq<bool>>, b: set<seq<bool>>)
    requires a <= b
    ensures |a| <= |b|
  {
    if x :| x in a {
      SubsetSize(a - {x}, b - {x});
    }
  }

  lemma Injective(c: seq<bool>, d: seq<bool>, y: Block)
    requires |c| == |d| == BLOCK_BITS && Generates(y) && Combination(c, y) == Combination(d, y)
    ensures c == d
  {
    hide Artin, Combination, Generates;
    var e := seq(BLOCK_BITS, i requires 0 <= i < BLOCK_BITS => c[i] != d[i]);
    CombinationXor(c, d, e, y);
    XorSelf(Combination(c, y));
    assert Iterate(y, 0) == y;
    Independent(e, 0, y);
    assert forall i :: 0 <= i < BLOCK_BITS ==> !e[i];
  }

  lemma ImageInside(n: nat, f: seq<bool> -> seq<bool>, image: set<seq<bool>>)
    requires forall s :: |s| == n ==> |f(s)| == n
    requires image == set s | s in Strings(n) :: f(s)
    ensures image <= Strings(n)
  {
    hide Strings;
    forall b | b in image ensures b in Strings(n) {
      var s :| s in Strings(n) && b == f(s);
      StringsAll(n, s);
      StringsAll(n, b);
    }
  }

  lemma ImageAsLarge(n: nat, f: seq<bool> -> seq<bool>, image: set<seq<bool>>)
    requires forall s, t :: |s| == |t| == n && f(s) == f(t) ==> s == t
    requires image == set s | s in Strings(n) :: f(s)
    ensures |image| == |Strings(n)|
  {
    hide Strings;
    forall c, d | c in Strings(n) && d in Strings(n) && f(c) == f(d) ensures c == d {
      StringsAll(n, c);
      StringsAll(n, d);
    }
    ImageSize(Strings(n), image, f);
  }

  /** An injection of the n-bit strings into themselves reaches every one. */
  lemma Surjective(n: nat, f: seq<bool> -> seq<bool>, a: seq<bool>) returns (c: seq<bool>)
    requires forall s :: |s| == n ==> |f(s)| == n
    requires forall s, t :: |s| == |t| == n && f(s) == f(t) ==> s == t
    requires |a| == n
    ensures |c| == n && f(c) == a
  {
    hide Strings;
    var image := set s | s in Strings(n) :: f(s);
    ImageAsLarge(n, f, image);
    ImageInside(n, f, image);
    SubsetOfSameSize(image, Strings(n));
    StringsAll(n, a);
    c :| c in Strings(n) && f(c) == a;
    StringsAll(n, c);
  }

  /** The combinations are 2^128 different blocks, hence all of them. */
  lemma Spanning(a: Block, y: Block) returns (c: seq<bool>)
    requires Generates(y)
    ensures |c| == BLOCK_BITS && Combination(c, y) == a
  {
    hide Combination, Generates;
    var f: seq<bool> -> seq<bool> := s => Combination(s, y);
    forall s: seq<bool>, t: seq<bool> | |s| == |t| == BLOCK_BITS && f(s) == f(t) ensures s == t {
      Injective(s, t, y);
    }
    c := Surjective(BLOCK_BITS, f, a);
  }

  // ---------------------------------------------------------------- consequences

  /** a^(2^128) == a. */
  lemma FrobeniusIdentity(a: Block)
    ensures Frobenius(a, Exp2(7)) == a
  {
    hide V, Artin, Combination, Iterate, Frobenius;
    var y := V(START);
    ReachesOne();
    var c := Spanning(a, y);
    CombinationIterate(c, y, 128);
    GeneratorVanishes(y);
    CombinationScale(c, false, y);
    SevenDoublings();
    IterateExp2(a, 7);
    XorCancel(Frobenius(a, Exp2(7)), a);
  }

  lemma {:induction false} CombinationLast(c: seq<bool>, t: bool, y: Block)
    ensures Combination(c + [t], y) == Xor(Combination(c, y), Scale(t, Iterate(y, |c|)))
  {
    hide Artin;
    var all := c + [t];
    if c == [] {
      assert all[1..] == [];
      XorZero(Scale(t, y));
    } else {
      assert all[1..] == c[1..] + [t];
      CombinationLast(c[1..], t, Artin(y));
      IterateOnce(y, |c| - 1);
      XorAssoc(Scale(c[0], y), Combination(c[1..], Artin(y)), Scale(t, Iterate(y, |c|)));
    }
  }

  lemma {:induction false} CombinationNone(c: seq<bool>, y: Block)
    requires forall i :: 0 <= i < |c| ==> !c[i]
    ensures Combination(c, y) == Zero()
  {
    hide Artin;
    if c != [] {
      CombinationNone(c[1..], Artin(y));
      XorZero(Zero());
    }
  }

  /** Only 0 and 1 equal their own square. */
  lemma Idempotents(a: Block)
    requires Square(a) == a
    ensures a == Zero() || a == One()
  {
    hide V, Artin, Combination, Iterate, Square;
    var y := V(START);
    ReachesOne();
    var c := Spanning(a, y);
    var low, t := c[..127], c[127];
    assert c == low + [t];
    ArtinVanishes(a);
    CombinationLast(low, t, y);
    // N(a) is the combination shifted by one place, so its coefficients vanish
    var shifted: seq<bool> := [false] + low;
    Shifted(low, t, y);
    IterateNone(y);
    Independent(shifted, 0, y);
    forall i | 0 <= i < |low| ensures !low[i] {
      assert !shifted[i + 1];
    }
    CombinationNone(low, y);
    XorZero(Scale(t, One()));
  }

  lemma ArtinVanishes(a: Block)
    requires Square(a) == a
    ensures Artin(a) == Zero()
  {
    XorSelf(a);
  }

  lemma Shifted(low: seq<bool>, t: bool, y: Block)
    requires |low| == 127 && Generates(y) && Artin(Combination(low + [t], y)) == Zero()
    ensures Combination([false] + low, y) == Zero()
  {
    hide Artin;
    CombinationLast(low, t, y);
    var u := Combination(low, y);
    ArtinXor(u, Scale(t, Iterate(y, 127)));
    ArtinScale(t, One());
    ArtinOne();
    assert Scale(t, Zero()) == Zero();
    XorZero(Artin(u));
    CombinationIterate(low, y, 1);
    IterateNext(y, 0);
    IterateNext(u, 0);
    var shifted := [false] + low;
    assert shifted[1..] == low;
    assert Scale(false, y) == Zero();
    XorZero(Combination(low, Artin(y)));
  }

  /** Fermat's little theorem for blocks: every non-zero block has order dividing 2^128 - 1. */
  lemma NonZeroPower(x: Block, n: nat)
    requires x != Zero() && n == Exp2(BLOCK_BITS)
    ensures Pow(x, n - 1) == One()
  {
    hide Mul, Pow, Exp2, Frobenius;
    PowSmall(x);
    FrobeniusIsPow(x, 1, Exp2(7));
    FrobeniusIdentity(x);
    SevenDoublings();
    var e := Pow(x, n - 1);
    assert n >= 2 by { Exp2AtLeastTwo(BLOCK_BITS); }
    PowAdd(x, n - 1, 1);
    PowAdd(x, n - 1, n - 1);
    PowAdd(x, n, n - 2);
    PowAdd(x, 1, n - 2);
    Idempotents(e);
    if e == Zero() {
      MulZero(x);
    }
  }

  lemma SevenDoublings()
    ensures Exp2(7) == BLOCK_BITS
  {
    assert Exp2(4) == 16;
  }

  lemma Exp2AtLeastTwo(n: nat)
    requires n > 0
    ensures Exp2(n) >= 2
  {
  }

  /** gf_inverse returns the inverse of every non-zero block. */
  lemma InverseCorrect(x: Block)
    requires x != Zero()
    ensures Mul(Inverse(x), x) == One() && Mul(x, Inverse(x)) == One()
  {
    hide Mul, Pow, Exp2;
    var n := Exp2(BLOCK_BITS);
    Exp2AtLeastTwo(BLOCK_BITS);
    PowSmall(x);
    PowAdd(x, n - 2, 1);
    NonZeroPower(x, n);
    MulComm(x, Inverse(x));
  }
}
