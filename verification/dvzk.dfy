/** Designated-verifier zero-knowledge proofs of x[i] * y[i] == z[i] on authenticated blocks. */
module DVZK {
  import opened Blocks
  import opened Sums
  import opened Authenticated
  import opened Equality

  /** One multiplication: the prover's values and MACs, the verifier's keys, and the challenge. */
  datatype Item = Item(x: Block, y: Block, z: Block, mx: Block, my: Block, mz: Block,
                       kx: Block, ky: Block, kz: Block, chi: Block)
  {
    ghost predicate Authed(delta: Block) {
      && mx == Xor(kx, Mul(x, delta)) && my == Xor(ky, Mul(y, delta)) && mz == Xor(kz, Mul(z, delta))
    }

    /** How far the claim is from true. */
    function Defect(): Block {
      Xor(Mul(x, y), z)
    }
  }

  function A0Term(t: Item): Block {
    Mul(t.chi, Mul(t.mx, t.my))
  }

  function A1Term(t: Item): Block {
    Mul(t.chi, Xor(Xor(t.mz, Mul(t.x, t.my)), Mul(t.y, t.mx)))
  }

  function BTerm(t: Item, delta: Block): Block {
    Mul(t.chi, Xor(Mul(t.kx, t.ky), Mul(t.kz, delta)))
  }

  function DefectTerm(t: Item): Block {
    Mul(t.chi, t.Defect())
  }

  function A0Terms(items: seq<Item>): (r: seq<Block>)
    ensures |r| == |items| && forall i :: 0 <= i < |r| ==> r[i] == A0Term(items[i])
  {
    seq(|items|, i requires 0 <= i < |items| => A0Term(items[i]))
  }

  function A1Terms(items: seq<Item>): (r: seq<Block>)
    ensures |r| == |items| && forall i :: 0 <= i < |r| ==> r[i] == A1Term(items[i])
  {
    seq(|items|, i requires 0 <= i < |items| => A1Term(items[i]))
  }

  function BTerms(items: seq<Item>, delta: Block): (r: seq<Block>)
    ensures |r| == |items| && forall i :: 0 <= i < |r| ==> r[i] == BTerm(items[i], delta)
  {
    seq(|items|, i requires 0 <= i < |items| => BTerm(items[i], delta))
  }

  function DefectTerms(items: seq<Item>): (r: seq<Block>)
    ensures |r| == |items| && forall i :: 0 <= i < |r| ==> r[i] == DefectTerm(items[i])
  {
    seq(|items|, i requires 0 <= i < |items| => DefectTerm(items[i]))
  }

  /** Challenge-weighted sum of the defects. */
  function DefectSum(items: seq<Item>): Block {
    Sum(DefectTerms(items), |items|)
  }

  function A0Of(mask: Block, items: seq<Item>): Block {
    Xor(mask, Sum(A0Terms(items), |items|))
  }

  function A1Of(mask: Block, items: seq<Item>): Block {
    Xor(mask, Sum(A1Terms(items), |items|))
  }

  function BOf(mask: Block, items: seq<Item>, delta: Block): Block {
    Xor(mask, Sum(BTerms(items, delta), |items|))
  }

  lemma Push(items: seq<Item>, t: Item, mask: Block, delta: Block)
    ensures A0Of(mask, items + [t]) == Xor(A0Of(mask, items), A0Term(t))
    ensures A1Of(mask, items + [t]) == Xor(A1Of(mask, items), A1Term(t))
    ensures BOf(mask, items + [t], delta) == Xor(BOf(mask, items, delta), BTerm(t, delta))
  {
    hide A0Term, A1Term, BTerm;
    assert A0Terms(items + [t]) == A0Terms(items) + [A0Term(t)];
    assert A1Terms(items + [t]) == A1Terms(items) + [A1Term(t)];
    assert BTerms(items + [t], delta) == BTerms(items, delta) + [BTerm(t, delta)];
    SumPush(A0Terms(items), A0Term(t));
    SumPush(A1Terms(items), A1Term(t));
    SumPush(BTerms(items, delta), BTerm(t, delta));
    XorAssoc(mask, Sum(A0Terms(items), |items|), A0Term(t));
    XorAssoc(mask, Sum(A1Terms(items), |items|), A1Term(t));
    XorAssoc(mask, Sum(BTerms(items, delta), |items|), BTerm(t, delta));
  }

  // ---------------------------------------------------------------- streaming parties

  class Prover {
    var a0: Block
    var a1: Block
    ghost var items: seq<Item>
    ghost const mask: Block
    ghost const maskMac: Block

    ghost predicate Valid()
      reads this
    {
      a0 == A0Of(maskMac, items) && a1 == A1Of(mask, items)
    }

    /** Starts from one random authenticated block. */
    constructor (authedBlock: Block, mac: Block)
      ensures Valid() && items == [] && mask == authedBlock && maskMac == mac
    {
      a0, a1, items, mask, maskMac := mac, authedBlock, [], authedBlock, mac;
    }

    method Update(challenge: Block, blocks: (Block, Block, Block), macs: (Block, Block, Block), ghost t: Item)
      requires Valid() && t.chi == challenge
      requires blocks == (t.x, t.y, t.z) && macs == (t.mx, t.my, t.mz)
      modifies this
      ensures Valid() && items == old(items) + [t]
    {
      hide Mul, A0Of, A1Of;
      var macProduct := Mul(macs.0, macs.1);
      a0 := Xor(a0, Mul(challenge, macProduct));
      var tmp := Xor(macs.2, Mul(blocks.0, macs.1));
      tmp := Xor(tmp, Mul(blocks.1, macs.0));
      a1 := Xor(a1, Mul(challenge, tmp));
      Push(items, t, mask, Zero());
      Push(items, t, maskMac, Zero());
      items := items + [t];
    }

    /** The bit-valued update, on bits embedded as the blocks 0 and 1. */
    method UpdateBits(challenge: Block, bits: (bool, bool, bool), macs: (Block, Block, Block), ghost t: Item)
      requires Valid() && t.chi == challenge && macs == (t.mx, t.my, t.mz)
      requires t.x == Scale(bits.0, One()) && t.y == Scale(bits.1, One()) && t.z == Scale(bits.2, One())
      modifies this
      ensures Valid() && items == old(items) + [t]
    {
      hide Mul, A0Of, A1Of;
      var macProduct := Mul(macs.0, macs.1);
      a0 := Xor(a0, Mul(challenge, macProduct));
      var prodXMacOfY := Scale(bits.0, macs.1);
      var prodYMacOfX := Scale(bits.1, macs.0);
      var tmp := Xor(macs.2, prodXMacOfY);
      tmp := Xor(tmp, prodYMacOfX);
      a1 := Xor(a1, Mul(challenge, tmp));
      EmbeddedBit(bits.0, macs.1);
      EmbeddedBit(bits.1, macs.0);
      Push(items, t, mask, Zero());
      Push(items, t, maskMac, Zero());
      items := items + [t];
    }
  }

  /** Selecting by a bit is multiplying by the embedded bit. */
  lemma EmbeddedBit(bit: bool, a: Block)
    ensures Mul(Scale(bit, One()), a) == Scale(bit, a)
  {
    MulScale(bit, One(), a);
    MulOne(a);
  }

  class Verifier {
    const delta: Block
    var b: Block
    ghost var items: seq<Item>
    ghost const maskKey: Block

    ghost predicate Valid()
      reads this
    {
      b == BOf(maskKey, items, delta)
    }

    constructor (delta: Block, key: Block)
      ensures Valid() && items == [] && this.delta == delta && maskKey == key
    {
      this.delta, b, items, maskKey := delta, key, [], key;
    }

    method Update(challenge: Block, localKeys: (Block, Block, Block), ghost t: Item)
      requires Valid() && t.chi == challenge && localKeys == (t.kx, t.ky, t.kz)
      modifies this
      ensures Valid() && items == old(items) + [t]
    {
      hide Mul, BOf;
      var prodTwoKeys := Mul(localKeys.0, localKeys.1);
      var prodZWithDelta := Mul(localKeys.2, delta);
      b := Xor(b, Mul(challenge, Xor(prodTwoKeys, prodZWithDelta)));
      Push(items, t, maskKey, delta);
      items := items + [t];
    }

    /** Accepts exactly when the weighted defects vanish against the squared global key. */
    method Verify(a0: Block, a1: Block, ghost mask: Block) returns (accepted: bool)
      requires Valid() && a0 == A0Of(Xor(maskKey, Mul(mask, delta)), items) && a1 == A1Of(mask, items)
      requires forall i :: 0 <= i < |items| ==> items[i].Authed(delta)
      ensures accepted <==> Mul(DefectSum(items), Mul(delta, delta)) == Zero()
    {
      var adjusted := Xor(b, a0);
      var expected := Mul(a1, delta);
      accepted := adjusted == expected;
      Exact(items, mask, maskKey, delta);
      XorCancelRight(expected, Mul(DefectSum(items), Mul(delta, delta)));
    }
  }

  lemma XorCancelRight(a: Block, d: Block)
    ensures Xor(a, d) == a <==> d == Zero()
  {
  }

  // ---------------------------------------------------------------- the exact form

  /** (kx ^ xD)(ky ^ yD) expanded. */
  lemma ProductOfMacs(t: Item, delta: Block)
    requires t.Authed(delta)
    ensures Mul(t.mx, t.my) ==
            Xor(Xor(Mul(t.kx, t.ky), Mul(Xor(Mul(t.x, t.ky), Mul(t.y, t.kx)), delta)),
                Mul(Mul(t.x, t.y), Mul(delta, delta)))
  {
    var xd, yd := Mul(t.x, delta), Mul(t.y, delta);
    MulDistLeft(t.kx, xd, t.my);
    MulDistRight(t.kx, t.ky, yd);
    MulDistRight(xd, t.ky, yd);
    MulInterchange(t.x, delta, t.y, delta);
    MulComm(t.kx, yd);
    MulRotate(t.y, delta, t.kx);
    MulRotate(t.x, delta, t.ky);
    MulDistLeft(Mul(t.x, t.ky), Mul(t.y, t.kx), delta);
    ShuffleFour(Mul(t.kx, t.ky), Mul(t.kx, yd), Mul(xd, t.ky), Mul(xd, yd));
  }

  lemma ShuffleFour(a: Block, b: Block, c: Block, d: Block)
    ensures Xor(Xor(a, b), Xor(c, d)) == Xor(Xor(a, Xor(c, b)), d)
  {
  }

  /** (a d) k == (a k) d. */
  lemma MulRotate(a: Block, d: Block, k: Block)
    ensures Mul(Mul(a, d), k) == Mul(Mul(a, k), d)
  {
    MulAssoc(a, d, k);
    MulComm(d, k);
    MulAssoc(a, k, d);
  }

  lemma MulInterchange(a: Block, b: Block, c: Block, d: Block)
    ensures Mul(Mul(a, b), Mul(c, d)) == Mul(Mul(a, c), Mul(b, d))
  {
    MulAssoc(a, b, Mul(c, d));
    MulAssoc(b, c, d);
    MulComm(b, c);
    MulAssoc(c, b, d);
    MulAssoc(a, c, Mul(b, d));
  }

  /** The prover's linear term against the global key. */
  lemma LinearTerm(t: Item, delta: Block)
    requires t.Authed(delta)
    ensures Mul(Xor(Xor(t.mz, Mul(t.x, t.my)), Mul(t.y, t.mx)), delta) ==
            Xor(Xor(Mul(t.kz, delta), Mul(Xor(Mul(t.x, t.ky), Mul(t.y, t.kx)), delta)),
                Mul(t.z, Mul(delta, delta)))
  {
    var xy := Mul(Mul(t.x, t.y), delta);
    MulDistRight(t.x, t.ky, Mul(t.y, delta));
    MulDistRight(t.y, t.kx, Mul(t.x, delta));
    MulAssoc(t.x, t.y, delta);
    MulAssoc(t.y, t.x, delta);
    MulComm(t.x, t.y);
    var lin := Xor(Mul(t.x, t.ky), Mul(t.y, t.kx));
    CancelTwice(t.kz, Mul(t.z, delta), Mul(t.x, t.ky), Mul(t.y, t.kx), xy);
    MulDistLeft(Xor(t.kz, lin), Mul(t.z, delta), delta);
    MulDistLeft(t.kz, lin, delta);
    MulAssoc(t.z, delta, delta);
  }

  lemma CancelTwice(k: Block, z: Block, p: Block, q: Block, xy: Block)
    ensures Xor(Xor(Xor(k, z), Xor(p, xy)), Xor(q, xy)) == Xor(Xor(k, Xor(p, q)), z)
  {
  }

  /** One update moves B ^ A0 ^ A1*delta by exactly the weighted defect times delta squared. */
  lemma TermExact(t: Item, delta: Block)
    requires t.Authed(delta)
    ensures Xor(BTerm(t, delta), A0Term(t)) ==
            Xor(Mul(A1Term(t), delta), Mul(Mul(t.chi, t.Defect()), Mul(delta, delta)))
  {
    var dd := Mul(delta, delta);
    var lin := Mul(Xor(Mul(t.x, t.ky), Mul(t.y, t.kx)), delta);
    var kk, kz := Mul(t.kx, t.ky), Mul(t.kz, delta);
    var inner := Xor(Xor(t.mz, Mul(t.x, t.my)), Mul(t.y, t.mx));
    ProductOfMacs(t, delta);
    LinearTerm(t, delta);
    MulDistLeft(Mul(t.x, t.y), t.z, dd);
    Regroup(kk, kz, lin, Mul(Mul(t.x, t.y), dd), Mul(t.z, dd));
    MulDistRight(t.chi, Xor(kk, kz), Mul(t.mx, t.my));
    MulDistRight(t.chi, Mul(inner, delta), Mul(t.Defect(), dd));
    MulAssoc(t.chi, inner, delta);
    MulAssoc(t.chi, t.Defect(), dd);
  }

  lemma Regroup(kk: Block, kz: Block, lin: Block, xydd: Block, zdd: Block)
    ensures Xor(Xor(kk, kz), Xor(Xor(kk, lin), xydd)) == Xor(Xor(Xor(kz, lin), zdd), Xor(xydd, zdd))
  {
  }

  /** After any number of updates: B ^ A0 == A1*delta ^ (sum chi*(x*y ^ z)) * delta^2. */
  lemma Exact(items: seq<Item>, mask: Block, maskKey: Block, delta: Block)
    requires forall i :: 0 <= i < |items| ==> items[i].Authed(delta)
    ensures Xor(BOf(maskKey, items, delta), A0Of(Xor(maskKey, Mul(mask, delta)), items)) ==
            Xor(Mul(A1Of(mask, items), delta), Mul(DefectSum(items), Mul(delta, delta)))
  {
    hide A0Term, A1Term, BTerm, Mul;
    var n, dd := |items|, Mul(delta, delta);
    var b, a0, a1, e := BTerms(items, delta), A0Terms(items), A1Terms(items), DefectTerms(items);
    var lhs: seq<Block> := seq(n, i requires 0 <= i < n => Xor(b[i], a0[i]));
    var lin: seq<Block> := seq(n, i requires 0 <= i < n => Mul(delta, a1[i]));
    var quad: seq<Block> := seq(n, i requires 0 <= i < n => Mul(dd, e[i]));
    forall i | 0 <= i < n ensures lhs[i] == Xor(lin[i], quad[i]) {
      TermExact(items[i], delta);
      MulComm(delta, a1[i]);
      MulComm(dd, e[i]);
    }
    SumXor(b, a0, lhs, n);
    SumXor(lin, quad, lhs, n);
    SumMul(delta, a1, lin, n);
    SumMul(dd, e, quad, n);
    MulComm(dd, Sum(e, n));
    MulComm(delta, Sum(a1, n));
    MulDistLeft(mask, Sum(a1, n), delta);
    Assemble(maskKey, Mul(mask, delta), Sum(b, n), Sum(a0, n), Sum(lin, n), Sum(quad, n));
  }

  lemma Assemble(k: Block, md: Block, b: Block, a0: Block, lin: Block, quad: Block)
    requires Xor(b, a0) == Xor(lin, quad)
    ensures Xor(Xor(k, b), Xor(Xor(k, md), a0)) == Xor(Xor(md, lin), quad)
  {
    assert Xor(Xor(k, b), Xor(Xor(k, md), a0)) == Xor(md, Xor(b, a0));
  }

  /** True multiplications have no defect, so every honest proof is accepted. */
  lemma HonestDefect(items: seq<Item>)
    requires forall i :: 0 <= i < |items| ==> items[i].z == Mul(items[i].x, items[i].y)
    ensures DefectSum(items) == Zero()
  {
    forall i | 0 <= i < |items| ensures DefectTerms(items)[i] == Zero() {
      XorSelf(items[i].z);
      MulZero(items[i].chi);
    }
    SumZero(DefectTerms(items), |items|);
  }

  // ---------------------------------------------------------------- batch form

  /** Items of the batch "bit x[i] times block y is block z[i]". */
  ghost predicate BatchItems(items: seq<Item>, bits: seq<bool>, xMacs: seq<Block>, yValue: Block, yMac: Block,
                             zMacs: seq<Block>, xKeys: seq<Block>, yKey: Block, zKeys: seq<Block>, chal: seq<Block>)
  {
    && |items| == |bits| == |xMacs| == |zMacs| == |xKeys| == |zKeys| == |chal|
    && forall i :: 0 <= i < |items| ==>
         var t := items[i];
         && t.x == Scale(bits[i], One()) && t.mx == xMacs[i] && t.kx == xKeys[i]
         && t.y == yValue && t.my == yMac && t.ky == yKey
         && t.mz == zMacs[i] && t.kz == zKeys[i] && t.chi == chal[i]
  }

  method ProveBatch(bits: seq<bool>, xMacs: seq<Block>, yValue: Block, yMac: Block, zMacs: seq<Block>,
                    challenges: seq<Block>, authedBlock: Block, authedMac: Block,
                    ghost xKeys: seq<Block>, ghost yKey: Block, ghost zKeys: seq<Block>, ghost items: seq<Item>)
    returns (a0: Block, a1: Block)
    requires BatchItems(items, bits, xMacs, yValue, yMac, zMacs, xKeys, yKey, zKeys, challenges)
    ensures a0 == A0Of(authedMac, items) && a1 == A1Of(authedBlock, items)
  {
    hide Mul, Xor, InnerProduct, Sum;
    var n := |bits|;
    var macProd: seq<Block> := [];
    for i := 0 to n
      invariant |macProd| == i && forall j :: 0 <= j < i ==> macProd[j] == Mul(xMacs[j], yMac)
    {
      macProd := macProd + [Mul(xMacs[i], yMac)];
    }
    a0 := Xor(InnerProduct(challenges, macProd, n), authedMac);
    InnerProductIsSum(challenges, macProd, A0Terms(items), n);
    var tmp: seq<Block> := [];
    for i := 0 to n
      invariant |tmp| == i
      invariant forall j :: 0 <= j < i ==> A1Term(items[j]) == Mul(challenges[j], tmp[j])
    {
      var prodXMacOfY := if bits[i] then yMac else Zero();
      var t := Xor(zMacs[i], prodXMacOfY);
      t := Xor(t, Mul(yValue, xMacs[i]));
      EmbeddedBit(bits[i], yMac);
      tmp := tmp + [t];
    }
    a1 := Xor(InnerProduct(challenges, tmp, n), authedBlock);
    InnerProductIsSum(challenges, tmp, A1Terms(items), n);
  }

  method VerifyBatch(delta: Block, xKeys: seq<Block>, yKey: Block, zKeys: seq<Block>, challenges: seq<Block>,
                     authedKey: Block, a0: Block, a1: Block,
                     ghost bits: seq<bool>, ghost xMacs: seq<Block>, ghost yValue: Block, ghost yMac: Block,
                     ghost zMacs: seq<Block>, ghost mask: Block, ghost items: seq<Item>)
    returns (accepted: bool)
    requires BatchItems(items, bits, xMacs, yValue, yMac, zMacs, xKeys, yKey, zKeys, challenges)
    requires forall i :: 0 <= i < |items| ==> items[i].Authed(delta)
    requires a0 == A0Of(Xor(authedKey, Mul(mask, delta)), items) && a1 == A1Of(mask, items)
    ensures accepted <==> Mul(DefectSum(items), Mul(delta, delta)) == Zero()
  {
    hide Mul, Xor, InnerProduct, Sum, DefectSum;
    var n := |xKeys|;
    var tmp: seq<Block> := [];
    for i := 0 to n
      invariant |tmp| == i
      invariant forall j :: 0 <= j < i ==> BTerm(items[j], delta) == Mul(challenges[j], tmp[j])
    {
      var t := Mul(xKeys[i], yKey);
      tmp := tmp + [Xor(t, Mul(zKeys[i], delta))];
    }
    var b := Xor(InnerProduct(challenges, tmp, n), authedKey);
    InnerProductIsSum(challenges, tmp, BTerms(items, delta), n);
    b := Xor(b, a0);
    var expected := Mul(a1, delta);
    accepted := b == expected;
    Exact(items, mask, authedKey, delta);
    XorCancelRight(expected, Mul(DefectSum(items), Mul(delta, delta)));
  }

  // ---------------------------------------------------------------- honest runs

  /** For a non-zero global key the check is exact on the defects themselves. */
  lemma AcceptExact(items: seq<Item>, delta: Block)
    requires delta != Zero()
    ensures Mul(DefectSum(items), Mul(delta, delta)) == Zero() <==> DefectSum(items) == Zero()
  {
    hide Mul, DefectSum;
    if DefectSum(items) == Zero() {
      MulZero(Mul(delta, delta));
    } else {
      NoZeroDivisors(delta, delta);
      NoZeroDivisors(DefectSum(items), Mul(delta, delta));
    }
  }

  ghost function ItemsOf(x: seq<bool>, xMacs: seq<Block>, xKeys: seq<Block>, y: Block, yMac: Block, yKey: Block,
                         z: seq<Block>, zMacs: seq<Block>, zKeys: seq<Block>, chal: seq<Block>): (r: seq<Item>)
    requires |x| == |xMacs| == |xKeys| == |z| == |zMacs| == |zKeys| == |chal|
    ensures BatchItems(r, x, xMacs, y, yMac, zMacs, xKeys, yKey, zKeys, chal)
    ensures forall i :: 0 <= i < |r| ==> r[i].z == z[i]
  {
    seq(|x|, i requires 0 <= i < |x| =>
      Item(Scale(x[i], One()), y, z[i], xMacs[i], yMac, zMacs[i], xKeys[i], yKey, zKeys[i], chal[i]))
  }

  /** Both sides of the batch proof of "bit x[i] times block y is block z[i]". */
  method RunBatch(x: seq<bool>, xMacs: seq<Block>, xKeys: seq<Block>, y: Block, yMac: Block, yKey: Block,
                  z: seq<Block>, zMacs: seq<Block>, zKeys: seq<Block>, delta: Block, challenges: seq<Block>,
                  mask: Block, maskMac: Block, maskKey: Block) returns (accepted: bool)
    requires AuthBits(x, xMacs, xKeys, delta) && AuthBlocks(z, zMacs, zKeys, delta) && |z| == |x| == |challenges|
    requires yMac == Xor(yKey, Mul(y, delta)) && maskMac == Xor(maskKey, Mul(mask, delta))
    ensures delta != Zero() ==>
              (accepted <==> DefectSum(ItemsOf(x, xMacs, xKeys, y, yMac, yKey, z, zMacs, zKeys, challenges)) == Zero())
    ensures (forall i :: 0 <= i < |x| ==> z[i] == Scale(x[i], y)) ==> accepted
  {
    hide Mul, DefectSum;
    ghost var items := ItemsOf(x, xMacs, xKeys, y, yMac, yKey, z, zMacs, zKeys, challenges);
    forall i | 0 <= i < |items| ensures items[i].Authed(delta) {
      EmbeddedBit(x[i], delta);
    }
    var a0, a1 := ProveBatch(x, xMacs, y, yMac, zMacs, challenges, mask, maskMac, xKeys, yKey, zKeys, items);
    accepted := VerifyBatch(delta, xKeys, yKey, zKeys, challenges, maskKey, a0, a1, x, xMacs, y, yMac, zMacs, mask,
                            items);
    if delta != Zero() { AcceptExact(items, delta); }
    HonestBatch(items, x, xMacs, xKeys, y, yMac, yKey, z, zMacs, zKeys, challenges, delta);
  }

  lemma HonestBatch(items: seq<Item>, x: seq<bool>, xMacs: seq<Block>, xKeys: seq<Block>, y: Block, yMac: Block,
                    yKey: Block, z: seq<Block>, zMacs: seq<Block>, zKeys: seq<Block>, chal: seq<Block>, delta: Block)
    requires BatchItems(items, x, xMacs, y, yMac, zMacs, xKeys, yKey, zKeys, chal) && |z| == |items|
    requires forall i :: 0 <= i < |items| ==> items[i].z == z[i]
    ensures (forall i :: 0 <= i < |x| ==> z[i] == Scale(x[i], y)) ==> Mul(DefectSum(items), Mul(delta, delta)) == Zero()
  {
    hide Mul, DefectSum;
    if forall i :: 0 <= i < |x| ==> z[i] == Scale(x[i], y) {
      forall i | 0 <= i < |items| ensures items[i].z == Mul(items[i].x, items[i].y) {
        EmbeddedBit(x[i], y);
      }
      HonestDefect(items);
      MulZero(Mul(delta, delta));
    }
  }
}
