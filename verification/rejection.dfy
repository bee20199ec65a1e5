/** Rejection sampling of a Kyber polynomial: chunked, vectorized and refilled, yet one pass over the stream. */
module RejectionSampling {
  import opened KyberArithmetic

  const KYBER_N := 256
  const BUFLEN := 512
  const XOF_BLOCKBYTES := 64
  const NBLOCKS := 8

  // ---------------------------------------------------------------- one pass

  /** The two 12-bit candidates in three bytes. */
  function First(s: seq<nat>, pos: nat): nat
    requires pos + 3 <= |s|
  {
    (s[pos] + 256 * s[pos + 1]) % 4096
  }

  function Second(s: seq<nat>, pos: nat): nat
    requires pos + 3 <= |s|
  {
    s[pos + 1] / 16 + 16 * s[pos + 2]
  }

  /** The two candidates are the low and the high twelve bits of the three bytes, lowest byte first. */
  lemma TripleSpells(s: seq<nat>, pos: nat)
    requires pos + 3 <= |s| && s[pos] < 256 && s[pos + 1] < 256 && s[pos + 2] < 256
    ensures First(s, pos) < 4096 && Second(s, pos) < 4096
    ensures First(s, pos) + 4096 * Second(s, pos) == s[pos] + 256 * s[pos + 1] + 65536 * s[pos + 2]
  {
  }

  /** The candidates of the first n byte triples. */
  function Candidates(s: seq<nat>, n: nat): (r: seq<nat>)
    requires 3 * n <= |s|
    ensures |r| == 2 * n
  {
    if n == 0 then [] else Candidates(s, n - 1) + [First(s, 3 * n - 3), Second(s, 3 * n - 3)]
  }

  /** Those below q, in order. */
  function Accepted(c: seq<nat>): (r: seq<nat>)
    ensures |r| <= |c| && forall i :: 0 <= i < |r| ==> r[i] < Q
  {
    if c == [] then [] else Accepted(c[..|c| - 1]) + (if c[|c| - 1] < Q then [c[|c| - 1]] else [])
  }

  /** Parse: one pass over n byte triples. */
  function Parse(s: seq<nat>, n: nat): seq<nat>
    requires 3 * n <= |s|
  {
    Accepted(Candidates(s, n))
  }

  lemma {:induction false} CandidatesAt(s: seq<nat>, n: nat, k: nat)
    requires 3 * n <= |s| && k < n
    ensures Candidates(s, n)[2 * k] == First(s, 3 * k) && Candidates(s, n)[2 * k + 1] == Second(s, 3 * k)
  {
    if k < n - 1 { CandidatesAt(s, n - 1, k); }
  }

  /** The stream as candidates: of any byte triple, the even one is its low twelve bits and the odd one its
      high twelve bits. */
  lemma CandidatesSpell(s: seq<nat>, n: nat, k: nat)
    requires 3 * n <= |s| && k < n && forall i :: 0 <= i < |s| ==> s[i] < 256
    ensures Candidates(s, n)[2 * k] < 4096 && Candidates(s, n)[2 * k + 1] < 4096
    ensures Candidates(s, n)[2 * k] + 4096 * Candidates(s, n)[2 * k + 1] ==
            s[3 * k] + 256 * s[3 * k + 1] + 65536 * s[3 * k + 2]
  {
    CandidatesAt(s, n, k);
    TripleSpells(s, 3 * k);
  }

  /** Accepting drops nothing else: the i-th entry is kept exactly when it is below q, behind the kept
      ones of the entries before it. */
  lemma {:induction false} AcceptedExactly(c: seq<nat>, i: nat)
    requires i < |c|
    ensures c[i] < Q ==> |Accepted(c[..i])| < |Accepted(c)| && Accepted(c)[|Accepted(c[..i])|] == c[i]
    ensures |Accepted(c[..i + 1])| == |Accepted(c[..i])| + (if c[i] < Q then 1 else 0)
    ensures |Accepted(c[..i + 1])| <= |Accepted(c)|
  {
    var n := |c| - 1;
    if i < n {
      assert c[..n][..i] == c[..i] && c[..n][..i + 1] == c[..i + 1];
      AcceptedExactly(c[..n], i);
    } else {
      assert c[..i + 1] == c;
    }
    assert c[..i + 1][..i] == c[..i];
  }

  lemma {:induction false} AcceptedAppend(a: seq<nat>, b: seq<nat>)
    ensures Accepted(a + b) == Accepted(a) + Accepted(b)
  {
    if b == [] {
      assert a + b == a;
    } else {
      var n := |b| - 1;
      AcceptedAppend(a, b[..n]);
      assert (a + b)[..|a + b| - 1] == a + b[..n];
    }
  }

  lemma {:induction false} CandidatesSplit(s: seq<nat>, base: nat, n: nat)
    requires 3 * base + 3 * n <= |s|
    ensures Candidates(s, base + n) == Candidates(s, base) + Candidates(s[3 * base..], n)
  {
    if n > 0 {
      CandidatesSplit(s, base, n - 1);
    }
  }

  lemma {:induction false} CandidatesPrefix(s: seq<nat>, t: seq<nat>, n: nat)
    requires 3 * n <= |s| && 3 * n <= |t| && s[..3 * n] == t[..3 * n]
    ensures Candidates(s, n) == Candidates(t, n)
  {
    if n > 0 {
      assert s[..3 * n - 3] == s[..3 * n][..3 * n - 3] && t[..3 * n - 3] == t[..3 * n][..3 * n - 3];
      CandidatesPrefix(s, t, n - 1);
      assert forall i :: 0 <= i < 3 * n ==> s[i] == s[..3 * n][i] && t[i] == t[..3 * n][i];
    }
  }

  /** Parsing on adds at the end. */
  lemma ParseSplit(s: seq<nat>, base: nat, n: nat)
    requires 3 * base + 3 * n <= |s|
    ensures Parse(s, base + n) == Parse(s, base) + Parse(s[3 * base..], n)
  {
    CandidatesSplit(s, base, n);
    AcceptedAppend(Candidates(s, base), Candidates(s[3 * base..], n));
  }

  // ---------------------------------------------------------------- groups of eight

  /** Eight candidates from twelve bytes. */
  function Group(s: seq<nat>, pos: nat): (r: seq<nat>)
    requires pos + 12 <= |s|
    ensures |r| == 8
  {
    [First(s, pos), Second(s, pos), First(s, pos + 3), Second(s, pos + 3),
     First(s, pos + 6), Second(s, pos + 6), First(s, pos + 9), Second(s, pos + 9)]
  }

  lemma GroupIsNext(s: seq<nat>, n: nat)
    requires 3 * n + 12 <= |s|
    ensures Candidates(s, n + 4) == Candidates(s, n) + Group(s, 3 * n)
    ensures Parse(s, n + 4) == Parse(s, n) + Accepted(Group(s, 3 * n))
  {
    hide Candidates, Accepted, First, Second;
    CandidatesNext(s, n);
    CandidatesNext(s, n + 1);
    CandidatesNext(s, n + 2);
    CandidatesNext(s, n + 3);
    AcceptedAppend(Candidates(s, n), Group(s, 3 * n));
  }

  lemma CandidatesNext(s: seq<nat>, n: nat)
    requires 3 * n + 3 <= |s|
    ensures Candidates(s, n + 1) == Candidates(s, n) + [First(s, 3 * n), Second(s, 3 * n)]
  {
  }

  /** The accepted lanes moved to the front; the rest is zero. */
  method Compact(group: seq<nat>) returns (packed: seq<nat>, count: nat)
    requires |group| == 8
    ensures |packed| == 8 && count == |Accepted(group)| <= 8 && packed[..count] == Accepted(group)
  {
    packed, count := [], 0;
    for k := 0 to 8
      invariant packed == Accepted(group[..k]) && count == |packed| <= k
    {
      assert group[..k + 1][..k] == group[..k];
      if group[k] < Q {
        packed, count := packed + [group[k]], count + 1;
      }
    }
    assert group[..8] == group;
    packed := packed + seq(8 - count, _ => 0);
  }

  /** Stores all eight lanes at ctr, and advances past the accepted ones only. */
  method StoreGroup(r: array<nat>, ctr: nat, group: seq<nat>) returns (ctr': nat)
    requires |group| == 8 && ctr + 8 <= r.Length
    modifies r
    ensures ctr' == ctr + |Accepted(group)| <= ctr + 8
    ensures r[..ctr'] == old(r[..ctr]) + Accepted(group)
  {
    var packed, count := Compact(group);
    for k := 0 to 8
      invariant r[..ctr] == old(r[..ctr])
      invariant forall i :: 0 <= i < k ==> r[ctr + i] == packed[i]
    {
      r[ctr + k] := packed[k];
    }
    ctr' := ctr + count;
    assert r[ctr..ctr'] == packed[..count];
    assert r[..ctr'] == r[..ctr] + r[ctr..ctr'];
  }

  // ---------------------------------------------------------------- the first buffer

  /** What has been sampled after n triples: everything accepted so far, cut at 256. */
  ghost predicate Sampled(r: seq<nat>, ctr: nat, s: seq<nat>, n: nat) {
    && 3 * n <= |s| && ctr <= KYBER_N == |r|
    && ctr == (if |Parse(s, n)| < KYBER_N then |Parse(s, n)| else KYBER_N)
    && r[..ctr] == Parse(s, n)[..ctr]
  }

  /** Two more candidates, one at a time, stopping when the polynomial is full. */
  method TakeTriple(r: array<nat>, ctr: nat, buf: seq<nat>, pos: nat, ghost s: seq<nat>, ghost n: nat)
    returns (ctr': nat)
    requires r.Length == KYBER_N && ctr < KYBER_N && Sampled(r[..], ctr, s, n) && 3 * n + 3 <= |s|
    requires pos + 3 <= |buf| && First(buf, pos) == First(s, 3 * n) && Second(buf, pos) == Second(s, 3 * n)
    modifies r
    ensures ctr <= ctr' <= KYBER_N && Sampled(r[..], ctr', s, n + 1)
  {
    ghost var before := Parse(s, n);
    TripleIsNext(s, n);
    var val0, val1 := First(buf, pos), Second(buf, pos);
    ctr' := ctr;
    if val0 < Q {
      r[ctr'] := val0;
      ctr' := ctr' + 1;
    }
    assert r[..ctr'] == before + (if val0 < Q then [val0] else []);
    if ctr' < KYBER_N && val1 < Q {
      r[ctr'] := val1;
      ctr' := ctr' + 1;
    }
  }

  lemma TripleIsNext(s: seq<nat>, n: nat)
    requires 3 * n + 3 <= |s|
    ensures Parse(s, n + 1) == Parse(s, n) + (if First(s, 3 * n) < Q then [First(s, 3 * n)] else [])
                                           + (if Second(s, 3 * n) < Q then [Second(s, 3 * n)] else [])
  {
    var a, x, y := Candidates(s, n), First(s, 3 * n), Second(s, 3 * n);
    CandidatesNext(s, n);
    var two, one := a + [x, y], a + [x];
    assert two[..|two| - 1] == one && two[|two| - 1] == y;
    assert one[..|one| - 1] == a && one[|one| - 1] == x;
    assert Accepted(one) == Accepted(a) + (if x < Q then [x] else []);
    assert Accepted(two) == Accepted(one) + (if y < Q then [y] else []);
  }

  /** Everything accepted in n triples fits, and is stored. */
  ghost predicate Collected(r: seq<nat>, ctr: nat, s: seq<nat>, n: nat) {
    3 * n <= |s| && ctr <= |r| == KYBER_N && r[..ctr] == Parse(s, n)
  }

  lemma CollectedIsSampled(r: seq<nat>, ctr: nat, s: seq<nat>, n: nat)
    requires Collected(r, ctr, s, n)
    ensures Sampled(r, ctr, s, n)
  {
    hide Parse;
    assert |r[..ctr]| == ctr;
  }

  /** rej_uniform_avx: 32 candidates at a time, then 8, then 2; it stops only when full or out of triples. */
  method RejUniformAvx(r: array<nat>, buf: seq<nat>) returns (ctr: nat, ghost n: nat)
    requires r.Length == KYBER_N && |buf| == BUFLEN
    modifies r
    ensures ctr <= KYBER_N && Sampled(r[..], ctr, buf, n)
    ensures ctr < KYBER_N ==> n == BUFLEN / 3
  {
    var pos: nat;
    ctr, pos, n := TakeThirtyTwos(r, buf);
    ctr, pos, n := TakeEights(r, ctr, buf, pos, n);
    CollectedIsSampled(r[..], ctr, buf, n);
    CollectedFits(r[..], ctr, buf, n);
    ctr, n := TakeTriples(r, ctr, buf, pos, n);
  }

  /** The first loop: 32 candidates in four stores. */
  method TakeThirtyTwos(r: array<nat>, buf: seq<nat>) returns (ctr: nat, pos: nat, ghost n: nat)
    requires r.Length == KYBER_N && |buf| == BUFLEN
    modifies r
    ensures pos == 3 * n <= BUFLEN && Collected(r[..], ctr, buf, n)
  {
    assert Collected(r[..], 0, buf, 0);
    hide Collected, Group, Accepted, Parse, Candidates;
    ctr, pos, n := 0, 0, 0;
    while ctr <= KYBER_N - 32 && pos <= BUFLEN - 48
      invariant pos == 3 * n <= BUFLEN && Collected(r[..], ctr, buf, n)
      decreases BUFLEN - pos
    {
      ctr := TakeFourGroups(r, ctr, buf, pos, n);
      pos, n := pos + 48, n + 16;
    }
  }

  /** The four stores of one round. */
  method TakeFourGroups(r: array<nat>, ctr: nat, buf: seq<nat>, pos: nat, ghost n: nat) returns (ctr': nat)
    requires r.Length == KYBER_N && ctr + 32 <= KYBER_N && Collected(r[..], ctr, buf, n) && pos == 3 * n
    requires pos + 48 <= |buf|
    modifies r
    ensures ctr' <= ctr + 32 && Collected(r[..], ctr', buf, n + 16)
  {
    hide *;
    ctr' := TakeGroup(r, ctr, buf, pos, n);
    ctr' := TakeGroup(r, ctr', buf, pos + 12, n + 4);
    ctr' := TakeGroup(r, ctr', buf, pos + 24, n + 8);
    ctr' := TakeGroup(r, ctr', buf, pos + 36, n + 12);
  }

  /** The second loop: eight candidates in one store. */
  method TakeEights(r: array<nat>, start: nat, buf: seq<nat>, begin: nat, ghost n0: nat)
    returns (ctr: nat, pos: nat, ghost n: nat)
    requires r.Length == KYBER_N && |buf| == BUFLEN && begin == 3 * n0 <= BUFLEN && Collected(r[..], start, buf, n0)
    modifies r
    ensures pos == 3 * n <= BUFLEN && Collected(r[..], ctr, buf, n)
  {
    hide Collected, Group, Accepted, Parse, Candidates;
    ctr, pos, n := start, begin, n0;
    while ctr <= KYBER_N - 8 && pos <= BUFLEN - 12
      invariant pos == 3 * n <= BUFLEN && Collected(r[..], ctr, buf, n)
      decreases BUFLEN - pos
    {
      ctr := TakeGroup(r, ctr, buf, pos, n);
      pos, n := pos + 12, n + 4;
    }
  }

  lemma CollectedFits(r: seq<nat>, ctr: nat, s: seq<nat>, n: nat)
    requires Collected(r, ctr, s, n)
    ensures ctr <= KYBER_N
  {
  }

  /** One group of eight candidates. */
  method TakeGroup(r: array<nat>, ctr: nat, buf: seq<nat>, pos: nat, ghost n: nat) returns (ctr': nat)
    requires r.Length == KYBER_N && ctr + 8 <= KYBER_N && Collected(r[..], ctr, buf, n) && pos == 3 * n
    requires pos + 12 <= |buf|
    modifies r
    ensures ctr' <= ctr + 8 && Collected(r[..], ctr', buf, n + 4)
  {
    hide Parse, Accepted, Group;
    GroupIsNext(buf, n);
    assert r[..][..ctr] == r[..ctr];
    ctr' := StoreGroup(r, ctr, Group(buf, pos));
    assert r[..][..ctr'] == r[..ctr'];
  }

  /** The last loop: two candidates at a time. */
  method TakeTriples(r: array<nat>, start: nat, buf: seq<nat>, begin: nat, ghost n0: nat)
    returns (ctr: nat, ghost n: nat)
    requires r.Length == KYBER_N && |buf| == BUFLEN && start <= KYBER_N && begin == 3 * n0 <= BUFLEN
    requires Sampled(r[..], start, buf, n0)
    modifies r
    ensures ctr <= KYBER_N && Sampled(r[..], ctr, buf, n)
    ensures ctr < KYBER_N ==> n == BUFLEN / 3
  {
    hide Sampled;
    ctr, n := start, n0;
    var pos := begin;
    while ctr < KYBER_N && pos <= BUFLEN - 3
      invariant pos == 3 * n <= BUFLEN && ctr <= KYBER_N && Sampled(r[..], ctr, buf, n)
      decreases BUFLEN - pos
    {
      ctr := TakeTriple(r, ctr, buf, pos, buf, n);
      pos, n := pos + 3, n + 1;
    }
  }

  // ---------------------------------------------------------------- refilling

  lemma SameTriple(buf: seq<nat>, s: seq<nat>, n: nat, pos: nat)
    requires 3 * n + |buf| <= |s| && s[3 * n..3 * n + |buf|] == buf && pos + 3 <= |buf|
    ensures First(s, 3 * n + pos) == First(buf, pos) && Second(s, 3 * n + pos) == Second(buf, pos)
  {
    var window := s[3 * n..3 * n + |buf|];
    assert window[pos] == s[3 * n + pos] && window[pos + 1] == s[3 * n + pos + 1] &&
           window[pos + 2] == s[3 * n + pos + 2];
  }

  /** rej_uniform on a refilled buffer: continues the pass over the stream at triple n. */
  method RejUniform(r: array<nat>, start: nat, buf: seq<nat>, ghost s: seq<nat>, ghost n: nat)
    returns (ctr: nat, ghost n': nat)
    requires r.Length == KYBER_N && start < KYBER_N && Sampled(r[..], start, s, n)
    requires 3 * n + |buf| <= |s| && s[3 * n..3 * n + |buf|] == buf
    modifies r
    ensures start + ctr <= KYBER_N && Sampled(r[..], start + ctr, s, n')
    ensures start + ctr < KYBER_N ==> n' == n + |buf| / 3
  {
    hide Sampled, First, Second;
    ctr, n' := 0, n;
    var pos := 0;
    while start + ctr < KYBER_N && pos + 3 <= |buf|
      invariant pos <= |buf| && pos == 3 * (n' - n) && n <= n'
      invariant start + ctr <= KYBER_N && Sampled(r[..], start + ctr, s, n')
      decreases |buf| - pos
    {
      SameTriple(buf, s, n, pos);
      var all := TakeTriple(r, start + ctr, buf, pos, s, n');
      ctr, pos, n' := all - start, pos + 3, n' + 1;
    }
  }

  lemma SamePrefix(r: seq<nat>, ctr: nat, buf: seq<nat>, stream: seq<nat>, n: nat)
    requires Sampled(r, ctr, buf, n) && |buf| <= |stream| && stream[..|buf|] == buf
    ensures Sampled(r, ctr, stream, n)
  {
    assert buf[..3 * n] == stream[..|buf|][..3 * n] == stream[..3 * n];
    CandidatesPrefix(buf, stream, n);
  }

  /** While the polynomial is not full, the stream cannot be used up. */
  lemma MoreToCome(r: seq<nat>, ctr: nat, stream: seq<nat>, n: nat, squeezed: nat)
    requires ctr < KYBER_N && Sampled(r, ctr, stream, n) && squeezed / 3 == n && squeezed <= |stream|
    requires squeezed % XOF_BLOCKBYTES == 0 && |stream| % XOF_BLOCKBYTES == 0
    requires |Parse(stream, |stream| / 3)| >= KYBER_N
    ensures squeezed + XOF_BLOCKBYTES <= |stream|
  {
    hide Parse;
    if squeezed == |stream| {
      assert false;
    }
    NextMultiple(squeezed, |stream|);
  }

  lemma NextMultiple(a: nat, b: nat)
    requires a < b && a % XOF_BLOCKBYTES == 0 && b % XOF_BLOCKBYTES == 0
    ensures a + XOF_BLOCKBYTES <= b
  {
  }

  /** What is sampled first stays first. */
  lemma Full(r: seq<nat>, stream: seq<nat>, n: nat)
    requires Sampled(r, KYBER_N, stream, n)
    ensures |Parse(stream, |stream| / 3)| >= KYBER_N && r == Parse(stream, |stream| / 3)[..KYBER_N]
  {
    var rest := |stream| / 3 - n;
    ParseSplit(stream, n, rest);
    hide Parse;
    assert r[..KYBER_N] == r;
  }

  /** Carries the bytes of the unfinished triple to the front and appends the next block. */
  method Refill(buf: array<nat>, buflen: nat, block: seq<nat>) returns (buflen': nat)
    requires buf.Length == BUFLEN + 2 && |block| == XOF_BLOCKBYTES <= buflen <= BUFLEN
    modifies buf
    ensures buflen' == buflen % 3 + XOF_BLOCKBYTES <= buf.Length
    ensures buf[..buflen'] == old(buf[buflen - buflen % 3..buflen]) + block
  {
    var off := buflen % 3;
    for k := 0 to off
      invariant forall i :: 0 <= i < k ==> buf[i] == old(buf[buflen - off + i])
      invariant forall i :: off <= i < buf.Length ==> buf[i] == old(buf[i])
    {
      buf[k] := buf[buflen - off + k];
    }
    assert buf[..off] == old(buf[buflen - off..buflen]);
    SqueezeBlock(buf, off, block);
    buflen' := off + XOF_BLOCKBYTES;
  }

  method SqueezeBlock(buf: array<nat>, off: nat, block: seq<nat>)
    requires off + |block| <= buf.Length
    modifies buf
    ensures buf[..off + |block|] == old(buf[..off]) + block
  {
    for k := 0 to |block|
      invariant buf[..off + k] == old(buf[..off]) + block[..k]
    {
      buf[off + k] := block[k];
      assert buf[..off + k + 1] == buf[..off + k] + [block[k]];
    }
    assert block[..|block|] == block;
  }

  /** Where a refill stands: what has been squeezed, and which bytes of it the buffer still holds. */
  ghost predicate Standing(r: seq<nat>, ctr: nat, buf: seq<nat>, buflen: nat, stream: seq<nat>, squeezed: nat, n: nat) {
    && |buf| == BUFLEN + 2 && XOF_BLOCKBYTES <= buflen <= BUFLEN && buflen <= squeezed <= |stream|
    && squeezed % XOF_BLOCKBYTES == 0
    && stream[squeezed - buflen..squeezed] == buf[..buflen]
    && ctr <= KYBER_N && Sampled(r, ctr, stream, n)
    && (ctr < KYBER_N ==> 3 * n == squeezed - buflen % 3)
  }

  /** One refill: carry, squeeze a block, sample on. */
  method RefillRound(r: array<nat>, ctr: nat, buf: array<nat>, buflen: nat, stream: seq<nat>, squeezed: nat,
                     ghost n: nat)
    returns (ctr': nat, buflen': nat, ghost n': nat)
    requires r != buf && r.Length == KYBER_N && buf.Length == BUFLEN + 2 && ctr < KYBER_N
    requires Standing(r[..], ctr, buf[..], buflen, stream, squeezed, n) && squeezed + XOF_BLOCKBYTES <= |stream|
    modifies r, buf
    ensures Standing(r[..], ctr', buf[..], buflen', stream, squeezed + XOF_BLOCKBYTES, n')
  {
    hide Sampled;
    var block := stream[squeezed..squeezed + XOF_BLOCKBYTES];
    CarriedBytes(buf[..], buflen, stream, squeezed, n);
    assert buf[buflen - buflen % 3..buflen] == buf[..][buflen - buflen % 3..buflen];
    buflen' := Refill(buf, buflen, block);
    var filled := buf[..buflen'];
    Joined(stream, 3 * n, squeezed, squeezed + XOF_BLOCKBYTES);
    var more;
    more, n' := RejUniform(r, ctr, filled, stream, n);
    ctr' := ctr + more;
    assert buf[..][..buflen'] == filled;
    StandsAgain(r[..], ctr', buf[..], buflen', buflen, stream, squeezed, n, n');
  }

  /** Where the round leaves things. */
  lemma StandsAgain(r: seq<nat>, ctr': nat, buf: seq<nat>, buflen': nat, buflen: nat, stream: seq<nat>, squeezed: nat,
                    n: nat, n': nat)
    requires |buf| == BUFLEN + 2 && XOF_BLOCKBYTES <= buflen <= squeezed && squeezed + XOF_BLOCKBYTES <= |stream|
    requires squeezed % XOF_BLOCKBYTES == 0 && buflen' == buflen % 3 + XOF_BLOCKBYTES && 3 * n == squeezed - buflen % 3
    requires buf[..buflen'] == stream[3 * n..squeezed + XOF_BLOCKBYTES]
    requires ctr' <= KYBER_N && Sampled(r, ctr', stream, n') && (ctr' < KYBER_N ==> n' == n + buflen' / 3)
    ensures Standing(r, ctr', buf, buflen', stream, squeezed + XOF_BLOCKBYTES, n')
  {
    hide Sampled;
    TriplesSoFar(squeezed, buflen, n);
  }

  /** A block squeezed behind the carried bytes ends at whole blocks again. */
  lemma TriplesSoFar(squeezed: nat, buflen: nat, n: nat)
    requires squeezed % XOF_BLOCKBYTES == 0 && 3 * n == squeezed - buflen % 3
    ensures (squeezed + XOF_BLOCKBYTES) % XOF_BLOCKBYTES == 0
    ensures var next := buflen % 3 + XOF_BLOCKBYTES;
            XOF_BLOCKBYTES <= next <= BUFLEN && 3 * (n + next / 3) == squeezed + XOF_BLOCKBYTES - next % 3
  {
    var q := squeezed / XOF_BLOCKBYTES;
    assert squeezed == XOF_BLOCKBYTES * q;
    assert squeezed + XOF_BLOCKBYTES == XOF_BLOCKBYTES * (q + 1);
    var next := buflen % 3 + XOF_BLOCKBYTES;
    assert next == 3 * (next / 3) + next % 3;
  }

  /** The bytes carried over are the stream's, from the first unread triple on. */
  lemma CarriedBytes(buf: seq<nat>, buflen: nat, stream: seq<nat>, squeezed: nat, n: nat)
    requires buflen <= |buf| && buflen <= squeezed <= |stream| && stream[squeezed - buflen..squeezed] == buf[..buflen]
    requires 3 * n == squeezed - buflen % 3
    ensures buf[buflen - buflen % 3..buflen] == stream[3 * n..squeezed]
  {
  }

  lemma Joined(s: seq<nat>, a: nat, b: nat, c: nat)
    requires a <= b <= c <= |s|
    ensures s[a..b] + s[b..c] == s[a..c]
  {
  }

  /** The sampling of one matrix entry: eight blocks first, then block by block with 0 to 2 bytes carried over.
      `stream` is any prefix of the output stream, in whole blocks, with enough accepted candidates; the result
      is the first 256 accepted candidates of one pass over it. */
  method GenEntry(stream: seq<nat>) returns (r: array<nat>)
    requires |stream| % XOF_BLOCKBYTES == 0 && |stream| >= BUFLEN && |Parse(stream, |stream| / 3)| >= KYBER_N
    ensures fresh(r) && r.Length == KYBER_N && r[..] == Parse(stream, |stream| / 3)[..KYBER_N]
  {
    hide Parse, Sampled;
    r := new nat[KYBER_N];
    var buf: array<nat>, ctr: nat;
    ghost var n: nat;
    buf, ctr, n := FirstBuffer(r, stream);
    var squeezed: nat, buflen: nat := NBLOCKS * XOF_BLOCKBYTES, NBLOCKS * XOF_BLOCKBYTES;
    while ctr < KYBER_N
      invariant Standing(r[..], ctr, buf[..], buflen, stream, squeezed, n)
      decreases |stream| - squeezed, KYBER_N - ctr
    {
      MoreToCome(r[..], ctr, stream, n, squeezed);
      ctr, buflen, n := RefillRound(r, ctr, buf, buflen, stream, squeezed, n);
      squeezed := squeezed + XOF_BLOCKBYTES;
    }
    Full(r[..], stream, n);
  }

  /** The first eight blocks, in a buffer with two bytes to spare. */
  method FirstBuffer(r: array<nat>, stream: seq<nat>) returns (buf: array<nat>, ctr: nat, ghost n: nat)
    requires r.Length == KYBER_N && |stream| >= BUFLEN
    modifies r
    ensures fresh(buf) && buf.Length == BUFLEN + 2
    ensures Standing(r[..], ctr, buf[..], BUFLEN, stream, BUFLEN, n)
  {
    hide Parse, Sampled;
    buf := new nat[BUFLEN + 2](i => if 0 <= i < BUFLEN then stream[i] else 0);
    var first := buf[..NBLOCKS * XOF_BLOCKBYTES];
    assert first == stream[..BUFLEN];
    ctr, n := RejUniformAvx(r, first);
    SamePrefix(r[..], ctr, first, stream, n);
    assert buf[..][..BUFLEN] == first == stream[BUFLEN - BUFLEN..BUFLEN];
  }
}
