/** Finite XOR-sums of blocks: what every accumulator loop of the library computes. */
module Sums {
  import opened Blocks

  /** v[0] ^ ... ^ v[n-1]. */
  function Sum(v: seq<Block>, n: nat): Block
    requires n <= |v|
  {
    if n == 0 then Zero() else Xor(Sum(v, n - 1), v[n - 1])
  }

  /** Column j of a table of blocks, XORed over the first n rows. */
  function ColumnSum(a: seq<seq<Block>>, j: nat, n: nat): Block
    requires n <= |a| && forall i :: 0 <= i < n ==> j < |a[i]|
  {
    if n == 0 then Zero() else Xor(ColumnSum(a, j, n - 1), a[n - 1][j])
  }

  lemma {:induction false} SumCong(u: seq<Block>, v: seq<Block>, n: nat)
    requires n <= |u| && n <= |v| && forall i :: 0 <= i < n ==> u[i] == v[i]
    ensures Sum(u, n) == Sum(v, n)
  {
    if n > 0 { SumCong(u, v, n - 1); }
  }

  lemma SumPush(v: seq<Block>, x: Block)
    ensures Sum(v + [x], |v| + 1) == Xor(Sum(v, |v|), x)
  {
    SumCong(v, v + [x], |v|);
  }

  /** vector_inn_prdt_sum_red: the sum of the entrywise products. */
  function InnerProduct(a: seq<Block>, b: seq<Block>, n: nat): Block
    requires n <= |a| && n <= |b|
  {
    if n == 0 then Zero() else Xor(InnerProduct(a, b, n - 1), Mul(a[n - 1], b[n - 1]))
  }

  lemma {:induction false} InnerProductIsSum(a: seq<Block>, b: seq<Block>, v: seq<Block>, n: nat)
    requires n <= |a| && n <= |b| && n <= |v|
    requires forall i :: 0 <= i < n ==> v[i] == Mul(a[i], b[i])
    ensures InnerProduct(a, b, n) == Sum(v, n)
  {
    if n > 0 { InnerProductIsSum(a, b, v, n - 1); }
  }

  lemma {:induction false} SumXor(u: seq<Block>, v: seq<Block>, w: seq<Block>, n: nat)
    requires n <= |u| && n <= |v| && n <= |w|
    requires forall i :: 0 <= i < n ==> w[i] == Xor(u[i], v[i])
    ensures Sum(w, n) == Xor(Sum(u, n), Sum(v, n))
  {
    if n == 0 {
      XorZero(Zero());
    } else {
      SumXor(u, v, w, n - 1);
      XorSwap(Sum(u, n - 1), Sum(v, n - 1), u[n - 1], v[n - 1]);
    }
  }

  lemma {:induction false} SumScale(t: bool, u: seq<Block>, v: seq<Block>, n: nat)
    requires n <= |u| && n <= |v|
    requires forall i :: 0 <= i < n ==> v[i] == Scale(t, u[i])
    ensures Sum(v, n) == Scale(t, Sum(u, n))
  {
    if n > 0 {
      SumScale(t, u, v, n - 1);
    }
  }

  lemma {:induction false} SumMul(c: Block, u: seq<Block>, v: seq<Block>, n: nat)
    requires n <= |u| && n <= |v|
    requires forall i :: 0 <= i < n ==> v[i] == Mul(c, u[i])
    ensures Sum(v, n) == Mul(c, Sum(u, n))
  {
    if n == 0 {
      MulZero(c);
    } else {
      SumMul(c, u, v, n - 1);
      MulDistRight(c, Sum(u, n - 1), u[n - 1]);
    }
  }

  lemma {:induction false} SumZero(v: seq<Block>, n: nat)
    requires n <= |v| && forall i :: 0 <= i < n ==> v[i] == Zero()
    ensures Sum(v, n) == Zero()
  {
    if n > 0 {
      SumZero(v, n - 1);
      XorZero(Zero());
    }
  }

  /** Only one term can be non-zero. */
  lemma {:induction false} SumSingle(v: seq<Block>, n: nat, k: nat)
    requires k < n <= |v|
    requires forall i :: 0 <= i < n && i != k ==> v[i] == Zero()
    ensures Sum(v, n) == v[k]
  {
    if k == n - 1 {
      SumZero(v, n - 1);
    } else {
      SumSingle(v, n - 1, k);
    }
    XorZero(v[k]);
  }

  /** A table can be summed row by row or column by column. */
  lemma {:induction false} SumSwap(a: seq<seq<Block>>, rows: seq<Block>, cols: seq<Block>, n: nat, m: nat)
    requires n <= |a| && n <= |rows| && m <= |cols|
    requires forall i :: 0 <= i < n ==> |a[i]| == m && rows[i] == Sum(a[i], m)
    requires forall j :: 0 <= j < m ==> cols[j] == ColumnSum(a, j, n)
    ensures Sum(rows, n) == Sum(cols, m)
    decreases n
  {
    if n == 0 {
      SumZero(cols, m);
    } else {
      var prev: seq<Block> := seq(m, j requires 0 <= j < m => ColumnSum(a, j, n - 1));
      SumSwap(a, rows, prev, n - 1, m);
      SumXor(prev, a[n - 1], cols, m);
    }
  }

  lemma {:induction false} ColumnIsSum(a: seq<seq<Block>>, j: nat, n: nat, v: seq<Block>)
    requires n <= |a| && n <= |v| && forall i :: 0 <= i < n ==> j < |a[i]| && v[i] == a[i][j]
    ensures ColumnSum(a, j, n) == Sum(v, n)
  {
    if n > 0 { ColumnIsSum(a, j, n - 1, v); }
  }

  /** Summing over all positions the entries listed by the duplicate-free `p`
      is summing along `p`. */
  lemma {:induction false} SumReindex(v: seq<Block>, p: seq<nat>, u: seq<Block>, w: seq<Block>)
    requires forall k :: 0 <= k < |p| ==> p[k] < |v|
    requires forall j, k :: 0 <= j < k < |p| ==> p[j] != p[k]
    requires |u| == |v| && forall i :: 0 <= i < |v| ==> u[i] == Scale(i in p, v[i])
    requires |w| == |p| && forall k :: 0 <= k < |p| ==> w[k] == v[p[k]]
    ensures Sum(u, |u|) == Sum(w, |w|)
  {
    if p == [] {
      SumZero(u, |u|);
    } else {
      var m := |p| - 1;
      var q, x := p[..m], p[m];
      var u0: seq<Block> := u[x := Zero()];
      assert Sum(u0, |u|) == Sum(w, m) by {
        assert forall i: nat :: i in p <==> i in q || i == x by { assert p == q + [x]; }
        SumReindex(v, q, u0, w[..m]);
        SumCong(w, w[..m], m);
      }
      SumUpdate(u, u0, x);
    }
  }

  /** Clearing one term takes it out of the sum. */
  lemma SumUpdate(u: seq<Block>, u0: seq<Block>, x: nat)
    requires x < |u| && u0 == u[x := Zero()]
    ensures Sum(u, |u|) == Xor(Sum(u0, |u|), u[x])
  {
    var u1: seq<Block> := seq(|u|, i requires 0 <= i < |u| => Scale(i == x, u[i]));
    SumXor(u0, u1, u, |u|);
    SumSingle(u1, |u|, x);
  }

  /** A row of selector bits against a vector: the XOR of the selected entries. */
  function Dot(row: seq<bool>, v: seq<Block>, n: nat): Block
    requires n <= |row| && n <= |v|
  {
    if n == 0 then Zero() else Xor(Dot(row, v, n - 1), Scale(row[n - 1], v[n - 1]))
  }

  lemma {:induction false} DotIsSum(row: seq<bool>, v: seq<Block>, w: seq<Block>, n: nat)
    requires n <= |row| && n <= |v| && n <= |w|
    requires forall i :: 0 <= i < n ==> w[i] == Scale(row[i], v[i])
    ensures Dot(row, v, n) == Sum(w, n)
  {
    if n > 0 { DotIsSum(row, v, w, n - 1); }
  }

  lemma {:induction false} DotRowXor(r: seq<bool>, s: seq<bool>, t: seq<bool>, v: seq<Block>, n: nat)
    requires n <= |r| == |s| == |t| && n <= |v|
    requires forall i :: 0 <= i < n ==> t[i] == (r[i] != s[i])
    ensures Dot(t, v, n) == Xor(Dot(r, v, n), Dot(s, v, n))
  {
    if n == 0 {
      XorZero(Zero());
    } else {
      DotRowXor(r, s, t, v, n - 1);
      assert Scale(t[n - 1], v[n - 1]) == Xor(Scale(r[n - 1], v[n - 1]), Scale(s[n - 1], v[n - 1]));
      XorSwap(Dot(r, v, n - 1), Dot(s, v, n - 1), Scale(r[n - 1], v[n - 1]), Scale(s[n - 1], v[n - 1]));
    }
  }

  lemma {:induction false} DotVecXor(r: seq<bool>, u: seq<Block>, v: seq<Block>, w: seq<Block>, n: nat)
    requires n <= |r| && n <= |u| && n <= |v| && n <= |w|
    requires forall i :: 0 <= i < n && r[i] ==> w[i] == Xor(u[i], v[i])
    ensures Dot(r, w, n) == Xor(Dot(r, u, n), Dot(r, v, n))
  {
    if n == 0 {
      XorZero(Zero());
    } else {
      DotVecXor(r, u, v, w, n - 1);
      assert Scale(r[n - 1], w[n - 1]) == Xor(Scale(r[n - 1], u[n - 1]), Scale(r[n - 1], v[n - 1]));
      XorSwap(Dot(r, u, n - 1), Dot(r, v, n - 1), Scale(r[n - 1], u[n - 1]), Scale(r[n - 1], v[n - 1]));
    }
  }

  lemma {:induction false} DotScale(r: seq<bool>, t: bool, u: seq<Block>, v: seq<Block>, n: nat)
    requires n <= |r| && n <= |u| && n <= |v|
    requires forall i :: 0 <= i < n && r[i] ==> v[i] == Scale(t, u[i])
    ensures Dot(r, v, n) == Scale(t, Dot(r, u, n))
  {
    if n > 0 {
      DotScale(r, t, u, v, n - 1);
      assert Scale(r[n - 1], v[n - 1]) == Scale(t, Scale(r[n - 1], u[n - 1]));
    }
  }

  lemma {:induction false} DotMul(r: seq<bool>, c: Block, u: seq<Block>, v: seq<Block>, n: nat)
    requires n <= |r| && n <= |u| && n <= |v|
    requires forall i :: 0 <= i < n && r[i] ==> v[i] == Mul(u[i], c)
    ensures Dot(r, v, n) == Mul(Dot(r, u, n), c)
  {
    hide Mul;
    if n == 0 {
      MulZero(c);
    } else {
      DotMul(r, c, u, v, n - 1);
      MulDistLeft(Dot(r, u, n - 1), Scale(r[n - 1], u[n - 1]), c);
      assert Scale(r[n - 1], v[n - 1]) == Mul(Scale(r[n - 1], u[n - 1]), c) by {
        if !r[n - 1] { MulZero(c); }
      }
    }
  }

  lemma {:induction false} DotZero(r: seq<bool>, v: seq<Block>, n: nat)
    requires n <= |r| && n <= |v|
    requires forall i :: 0 <= i < n ==> !r[i] || v[i] == Zero()
    ensures Dot(r, v, n) == Zero()
  {
    if n > 0 {
      DotZero(r, v, n - 1);
      XorZero(Zero());
    }
  }

  /** The row with one selector picks that entry. */
  lemma {:induction false} DotUnit(r: seq<bool>, v: seq<Block>, n: nat, k: nat)
    requires k < n <= |r| && n <= |v|
    requires forall i :: 0 <= i < n ==> r[i] == (i == k)
    ensures Dot(r, v, n) == v[k]
  {
    if k == n - 1 {
      DotZero(r, v, n - 1);
    } else {
      DotUnit(r, v, n - 1, k);
    }
    XorZero(v[k]);
  }
}
