/** Every non-zero block has the inverse that gf_inverse computes. */
module Inversion {
  import opened Blocks
  import opened Field
  import opened WordPolynomials

  // ---------------------------------------------------------------- the operator a -> a^2 + a

  function Artin(a: Block): Block {
    Xor(Square(a), a)
  }

  function Iterate(a: Block, k: nat): Block {
    if k == 0 then a else Artin(Iterate(a, k - 1))
  }

  lemma {:induction false} IterateAdd(a: Block, j: nat, k: nat)
    ensures Iterate(Iterate(a, j), k) == Iterate(a, j + k)
  {
    hide Artin;
    if k > 0 { IterateAdd(a, j, k - 1); }
  }

  lemma ArtinXor(a: Block, b: Block)
    ensures Artin(Xor(a, b)) == Xor(Artin(a), Artin(b))
  {
    hide Square;
    SquareXor(a, b);
    XorSwap(Square(a), Square(b), a, b);
  }

  lemma ArtinScale(t: bool, a: Block)
    ensures Artin(Scale(t, a)) == Scale(t, Artin(a))
  {
    hide Mul;
    MulScale(t, a, Scale(t, a));
    MulScale(t, a, a);
  }

  lemma ArtinOne()
    ensures Artin(One()) == Zero()
  {
    MulOne(One());
    XorSelf(One());
  }

  lemma {:induction false} IterateXor(a: Block, b: Block, k: nat)
    ensures Iterate(Xor(a, b), k) == Xor(Iterate(a, k), Iterate(b, k))
  {
    hide Artin;
    if k > 0 {
      IterateXor(a, b, k - 1);
      ArtinXor(Iterate(a, k - 1), Iterate(b, k - 1));
    }
  }

  lemma {:induction false} IterateScale(t: bool, a: Block, k: nat)
    ensures Iterate(Scale(t, a), k) == Scale(t, Iterate(a, k))
  {
    hide Artin;
    if k > 0 {
      IterateScale(t, a, k - 1);
      ArtinScale(t, Iterate(a, k - 1));
    }
  }

  /** 2^j rounds of a -> a^2 + a are a -> a^(2^(2^j)) + a: all middle terms cancel. */
  lemma {:induction false} IterateExp2(a: Block, j: nat)
    ensures Iterate(a, Exp2(j)) == Xor(Frobenius(a, Exp2(j)), a)
    decreases j
  {
    hide Square;
    if j == 0 {
      assert Iterate(a, 1) == Artin(Iterate(a, 0));
      assert Frobenius(a, 1) == Square(Frobenius(a, 0));
    } else {
      var m := Exp2(j - 1);
      var b := Frobenius(a, m);
      IterateExp2(a, j - 1);
      IterateExp2(Xor(b, a), j - 1);
      IterateAdd(a, m, m);
      FrobeniusXor(b, a, m);
      FrobeniusAdd(a, m, m);
      CancelMiddle(Frobenius(a, 2 * m), b, a);
    }
  }

  // ---------------------------------------------------------------- one chain, computed

  lemma Chain4(a: Poly)
    ensures Iterate(V(a), 4) == V(Step4(a))
  {
    hide V, Step, Square;
    VStep(a);
    VStep(Step(a));
    VStep(Step(Step(a)));
    VStep(Step(Step(Step(a))));
    var b := V(a);
    assert Iterate(b, 1) == Artin(Iterate(b, 0));
    assert Iterate(b, 2) == Artin(Iterate(b, 1));
    assert Iterate(b, 3) == Artin(Iterate(b, 2));
    assert Iterate(b, 4) == Artin(Iterate(b, 3));
  }

  /** The starting point, X^127. */
  const START: Poly := 0x8000_0000_0000_0000_0000_0000_0000_0000

  /** A word and the word four rounds later; every constant of the type is a checked computation. */
  datatype Words = Words(before: Poly, after: Poly)
  type FourRounds = w: Words | Step4(w.before) == w.after witness Words(0, 0)

  const ROUNDS0: FourRounds := Words(0x80000000_00000000_00000000_00000000, 0x545b0001_00000000_00000000_00010069)
  const ROUNDS1: FourRounds := Words(0x545b0001_00000000_00000000_00010069, 0x115b061d_fec7a3cd_51e5249a_a93f39df)
  const ROUNDS2: FourRounds := Words(0x115b061d_fec7a3cd_51e5249a_a93f39df, 0xc34b9a23_4d5f214c_bab866f2_da5d5fd8)
  const ROUNDS3: FourRounds := Words(0xc34b9a23_4d5f214c_bab866f2_da5d5fd8, 0x92f53190_35acedba_aab4d02e_8a509602)
  const ROUNDS4: FourRounds := Words(0x92f53190_35acedba_aab4d02e_8a509602, 0x46cef28_2228ece4_0b2eb2c5_6bfbcc98)
  const ROUNDS5: FourRounds := Words(0x46cef28_2228ece4_0b2eb2c5_6bfbcc98, 0x419e20de_f1e11911_9b8ed87a_c733dad9)
  const ROUNDS6: FourRounds := Words(0x419e20de_f1e11911_9b8ed87a_c733dad9, 0x9bb85940_10a46d80_f7b693b0_d8634030)
  const ROUNDS7: FourRounds := Words(0x9bb85940_10a46d80_f7b693b0_d8634030, 0xcd7ac65_98233eb0_55ff471b_0f630338)
  const ROUNDS8: FourRounds := Words(0xcd7ac65_98233eb0_55ff471b_0f630338, 0xc23d6612_3006d3e0_37aef0ae_2ee0db0d)
  const ROUNDS9: FourRounds := Words(0xc23d6612_3006d3e0_37aef0ae_2ee0db0d, 0x28888e09_fb6434eb_013a7885_5f1da84f)
  const ROUNDS10: FourRounds := Words(0x28888e09_fb6434eb_013a7885_5f1da84f, 0x683cda75_934aa6d8_46fba2e2_da2c8d15)
  const ROUNDS11: FourRounds := Words(0x683cda75_934aa6d8_46fba2e2_da2c8d15, 0xae793a58_b09cd22e_66d80b1d_b0b1d2b0)
  const ROUNDS12: FourRounds := Words(0xae793a58_b09cd22e_66d80b1d_b0b1d2b0, 0x14aad500_d2effd51_ec7612a5_06a3d70c)
  const ROUNDS13: FourRounds := Words(0x14aad500_d2effd51_ec7612a5_06a3d70c, 0xa7502fad_520cefd5_83daee19_04c35518)
  const ROUNDS14: FourRounds := Words(0xa7502fad_520cefd5_83daee19_04c35518, 0x3c7901e9_21337f28_1c734535_d0bca95c)
  const ROUNDS15: FourRounds := Words(0x3c7901e9_21337f28_1c734535_d0bca95c, 0x3ca5cfdd_9817d112_e61cda27_c605fdb8)
  const ROUNDS16: FourRounds := Words(0x3ca5cfdd_9817d112_e61cda27_c605fdb8, 0x113904d4_13b3f635_9f5e1f8f_9a0c15e2)
  const ROUNDS17: FourRounds := Words(0x113904d4_13b3f635_9f5e1f8f_9a0c15e2, 0xa25ff858_d0b23fee_d41920d5_ed01b037)
  const ROUNDS18: FourRounds := Words(0xa25ff858_d0b23fee_d41920d5_ed01b037, 0x39e72e75_70fd0860_0675c41d_1acf301b)
  const ROUNDS19: FourRounds := Words(0x39e72e75_70fd0860_0675c41d_1acf301b, 0x24512597_ef92ef86_fda56ea8_bc070896)
  const ROUNDS20: FourRounds := Words(0x24512597_ef92ef86_fda56ea8_bc070896, 0x1df22d28_0201b16e_99f22ec4_c12c5d02)
  const ROUNDS21: FourRounds := Words(0x1df22d28_0201b16e_99f22ec4_c12c5d02, 0x70c2162f_291c67a1_3aea8080_0e319c86)
  const ROUNDS22: FourRounds := Words(0x70c2162f_291c67a1_3aea8080_0e319c86, 0xe6177115_2c88ed24_e121b09b_73361625)
  const ROUNDS23: FourRounds := Words(0xe6177115_2c88ed24_e121b09b_73361625, 0xc112a60_f53f0f4e_36a7a4a3_f2e354ca)
  const ROUNDS24: FourRounds := Words(0xc112a60_f53f0f4e_36a7a4a3_f2e354ca, 0x11aec01d_2b6843c2_ea6df143_009de34a)
  const ROUNDS25: FourRounds := Words(0x11aec01d_2b6843c2_ea6df143_009de34a, 0x5883be78_5405654b_c472b079_8c7ab7ac)
  const ROUNDS26: FourRounds := Words(0x5883be78_5405654b_c472b079_8c7ab7ac, 0xe2585efd_7f614f6a_7589c8e2_a8e305bf)
  const ROUNDS27: FourRounds := Words(0xe2585efd_7f614f6a_7589c8e2_a8e305bf, 0x6542fe3d_792d7d1b_baba0159_e5caa696)
  const ROUNDS28: FourRounds := Words(0x6542fe3d_792d7d1b_baba0159_e5caa696, 0xbeae11cf_5ac5d574_0d7712dc_025e6623)
  const ROUNDS29: FourRounds := Words(0xbeae11cf_5ac5d574_0d7712dc_025e6623, 0xd21aa234_6319b26b_d6d24c33_f8399ed6)
  const ROUNDS30: FourRounds := Words(0xd21aa234_6319b26b_d6d24c33_f8399ed6, 0xf210539f_d8dd2772_cbc26e38_bdbd6c63)

  lemma Advance(k: nat, w: FourRounds)
    requires Iterate(V(START), k) == V(w.before)
    ensures Iterate(V(START), k + 4) == V(w.after)
  {
    hide V, Step4, Artin;
    IterateAdd(V(START), k, 4);
    Chain4(w.before);
  }

  lemma LastThree(a: Poly)
    requires Step(Step(Step(a))) == 1
    ensures Iterate(V(a), 3) == One()
  {
    hide V, Step, Square;
    VStep(a);
    VStep(Step(a));
    VStep(Step(Step(a)));
    VOne();
    var b := V(a);
    assert Iterate(b, 1) == Artin(Iterate(b, 0));
    assert Iterate(b, 2) == Artin(Iterate(b, 1));
    assert Iterate(b, 3) == Artin(Iterate(b, 2));
  }

  lemma HalfWay()
    ensures Iterate(V(START), 64) == V(ROUNDS15.after)
  {
    hide V, Step4, Iterate;
    IterateNone(V(START));
    Advance(0, ROUNDS0);
    Advance(4, ROUNDS1);
    Advance(8, ROUNDS2);
    Advance(12, ROUNDS3);
    Advance(16, ROUNDS4);
    Advance(20, ROUNDS5);
    Advance(24, ROUNDS6);
    Advance(28, ROUNDS7);
    Advance(32, ROUNDS8);
    Advance(36, ROUNDS9);
    Advance(40, ROUNDS10);
    Advance(44, ROUNDS11);
    Advance(48, ROUNDS12);
    Advance(52, ROUNDS13);
    Advance(56, ROUNDS14);
    Advance(60, ROUNDS15);
  }

  /** 127 rounds from START end at 1. */
  lemma ReachesOne()
    ensures Iterate(V(START), 127) == One()
  {
    hide V, Step4, Iterate;
    HalfWay();
    Advance(64, ROUNDS16);
    Advance(68, ROUNDS17);
    Advance(72, ROUNDS18);
    Advance(76, ROUNDS19);
    Advance(80, ROUNDS20);
    Advance(84, ROUNDS21);
    Advance(88, ROUNDS22);
    Advance(92, ROUNDS23);
    Advance(96, ROUNDS24);
    Advance(100, ROUNDS25);
    Advance(104, ROUNDS26);
    Advance(108, ROUNDS27);
    Advance(112, ROUNDS28);
    Advance(116, ROUNDS29);
    Advance(120, ROUNDS30);
    ComputeLast();
    LastThree(ROUNDS30.after);
    IterateAdd(V(START), 124, 3);
  }

  lemma IterateNone(a: Block)
    ensures Iterate(a, 0) == a
  {
  }

  lemma ComputeLast()
    ensures Step(Step(Step(0xf210539f_d8dd2772_cbc26e38_bdbd6c63))) == 1
  {
  }
}
