/** Two processes over a pair of FIFO byte channels.  A receive asks for a number of bytes and takes
    them, whatever they are, as soon as that many have arrived; message boundaries are not kept. */
module Channels {
  import opened Bytes

  /** One step of a party's program; a transfer is an ideal oblivious transfer both sides take part in. */
  datatype Action = Send(data: seq<Byte>) | Recv(count: nat) | Transfer(count: nat)

  // ---------------------------------------------------------------- the machine

  /** Program counters, the bytes under way in each direction, and what every action so far has received. */
  datatype State = State(pcG: nat, pcE: nat, toE: seq<Byte>, toG: seq<Byte>, gotG: seq<seq<Byte>>, gotE: seq<seq<Byte>>)

  const START := State(0, 0, [], [], [], [])

  datatype Step = GarblerSends | GarblerReceives | EvaluatorSends | EvaluatorReceives | BothTransfer

  predicate Enabled(g: seq<Action>, e: seq<Action>, s: State, step: Step) {
    match step
    case GarblerSends => s.pcG < |g| && g[s.pcG].Send?
    case GarblerReceives => s.pcG < |g| && g[s.pcG].Recv? && g[s.pcG].count <= |s.toG|
    case EvaluatorSends => s.pcE < |e| && e[s.pcE].Send?
    case EvaluatorReceives => s.pcE < |e| && e[s.pcE].Recv? && e[s.pcE].count <= |s.toE|
    case BothTransfer => s.pcG < |g| && s.pcE < |e| && g[s.pcG].Transfer? && e[s.pcE].Transfer?
  }

  function Next(g: seq<Action>, e: seq<Action>, s: State, step: Step): State
    requires Enabled(g, e, s, step)
  {
    match step
    case GarblerSends => s.(pcG := s.pcG + 1, toE := s.toE + g[s.pcG].data, gotG := s.gotG + [[]])
    case GarblerReceives =>
      var n := g[s.pcG].count;
      s.(pcG := s.pcG + 1, toG := s.toG[n..], gotG := s.gotG + [s.toG[..n]])
    case EvaluatorSends => s.(pcE := s.pcE + 1, toG := s.toG + e[s.pcE].data, gotE := s.gotE + [[]])
    case EvaluatorReceives =>
      var n := e[s.pcE].count;
      s.(pcE := s.pcE + 1, toE := s.toE[n..], gotE := s.gotE + [s.toE[..n]])
    case BothTransfer => s.(pcG := s.pcG + 1, pcE := s.pcE + 1, gotG := s.gotG + [[]], gotE := s.gotE + [[]])
  }

  ghost predicate IsRun(g: seq<Action>, e: seq<Action>, run: seq<State>) {
    && run != [] && run[0] == START
    && forall i :: 0 <= i < |run| - 1 ==> Follows(g, e, run[i], run[i + 1])
  }

  ghost predicate Follows(g: seq<Action>, e: seq<Action>, s: State, s': State) {
    exists step :: Enabled(g, e, s, step) && s' == Next(g, e, s, step)
  }

  /** Each action of one party is answered by the same-numbered action of the other: a send by a receive
      of as many bytes. */
  predicate Dual(a: Action, b: Action) {
    match a
    case Send(data) => b == Recv(|data|)
    case Recv(count) => b.Send? && |b.data| == count
    case Transfer(count) => b == Transfer(count)
  }

  ghost predicate DualPrograms(g: seq<Action>, e: seq<Action>) {
    |g| == |e| && forall i :: 0 <= i < |g| ==> Dual(g[i], e[i])
  }

  // ---------------------------------------------------------------- one direction

  /** The bytes an action sends. */
  function DataOf(a: Action): seq<Byte> {
    if a.Send? then a.data else []
  }

  /** All bytes the first n actions send. */
  function Sent(p: seq<Action>, n: nat): seq<Byte>
    requires n <= |p|
  {
    if n == 0 then [] else Sent(p, n - 1) + DataOf(p[n - 1])
  }

  lemma {:induction false} SentPrefix(p: seq<Action>, m: nat, n: nat)
    requires m <= n <= |p|
    ensures Sent(p, m) <= Sent(p, n)
  {
    if m < n { SentPrefix(p, m, n - 1); }
  }

  /** Sender p is at m, receiver q at n: what was sent is what the same-numbered actions up to n sent,
      followed by what is under way; and each action of q got exactly what the same-numbered one sent. */
  ghost predicate Flow(p: seq<Action>, m: nat, n: nat, queue: seq<Byte>, got: seq<seq<Byte>>) {
    && m <= |p| && n <= |p| && |got| == n
    && Sent(p, m) == Sent(p, n) + queue
    && forall i :: 0 <= i < n ==> got[i] == DataOf(p[i])
  }

  lemma FlowSend(p: seq<Action>, m: nat, n: nat, queue: seq<Byte>, got: seq<seq<Byte>>)
    requires Flow(p, m, n, queue, got) && m < |p|
    ensures Flow(p, m + 1, n, queue + DataOf(p[m]), got)
  {
    assert Sent(p, m + 1) == Sent(p, n) + (queue + DataOf(p[m]));
  }

  /** Once as many bytes have arrived as the same-numbered send sends, they are its bytes: also when
      the receiver is ahead, for then nothing is asked for. */
  lemma FlowReceive(p: seq<Action>, m: nat, n: nat, queue: seq<Byte>, got: seq<seq<Byte>>)
    requires Flow(p, m, n, queue, got) && n < |p| && |DataOf(p[n])| <= |queue|
    ensures var k := |DataOf(p[n])|; Flow(p, m, n + 1, queue[k..], got + [queue[..k]])
  {
    var data := DataOf(p[n]);
    assert data <= queue by {
      if n < m {
        SentPrefix(p, n + 1, m);
        PrefixAfter(Sent(p, n), data, queue);
      } else {
        SentPrefix(p, m, n);
      }
    }
    SplitAt(Sent(p, n), data, queue);
  }

  lemma PrefixAfter(a: seq<Byte>, x: seq<Byte>, y: seq<Byte>)
    requires a + x <= a + y
    ensures x <= y
  {
    assert (a + x)[|a|..] == x && (a + y)[|a|..] == y;
  }

  lemma SplitAt(a: seq<Byte>, x: seq<Byte>, y: seq<Byte>)
    requires x <= y
    ensures a + y == a + x + y[|x|..] && y[..|x|] == x
  {
  }

  /** Nothing is under way to a receiver that is not behind. */
  lemma FlowAhead(p: seq<Action>, m: nat, n: nat, queue: seq<Byte>, got: seq<seq<Byte>>)
    requires Flow(p, m, n, queue, got) && m <= n
    ensures queue == []
  {
    SentPrefix(p, m, n);
  }

  /** A receiver that is behind finds all it asks for. */
  lemma FlowBehind(p: seq<Action>, m: nat, n: nat, queue: seq<Byte>, got: seq<seq<Byte>>)
    requires Flow(p, m, n, queue, got) && n < m
    ensures |DataOf(p[n])| <= |queue|
  {
    SentPrefix(p, n + 1, m);
  }

  /** Put together, what was received is what was sent. */
  function Joined(parts: seq<seq<Byte>>): seq<Byte> {
    if parts == [] then [] else Joined(parts[..|parts| - 1]) + parts[|parts| - 1]
  }

  lemma {:induction false} JoinedIsSent(p: seq<Action>, got: seq<seq<Byte>>, n: nat)
    requires n <= |p| && |got| == n && forall i :: 0 <= i < n ==> got[i] == DataOf(p[i])
    ensures Joined(got) == Sent(p, n)
  {
    if n > 0 { JoinedIsSent(p, got[..n - 1], n - 1); }
  }

  // ---------------------------------------------------------------- transfers

  function Transfers(p: seq<Action>, n: nat): nat
    requires n <= |p|
  {
    if n == 0 then 0 else Transfers(p, n - 1) + (if p[n - 1].Transfer? then 1 else 0)
  }

  lemma {:induction false} TransfersDual(g: seq<Action>, e: seq<Action>, n: nat)
    requires DualPrograms(g, e) && n <= |g|
    ensures Transfers(g, n) == Transfers(e, n)
  {
    if n > 0 {
      TransfersDual(g, e, n - 1);
      assert Dual(g[n - 1], e[n - 1]);
    }
  }

  lemma {:induction false} TransfersGrow(p: seq<Action>, m: nat, n: nat)
    requires m <= n <= |p|
    ensures Transfers(p, m) <= Transfers(p, n)
    ensures m < n && p[m].Transfer? ==> Transfers(p, m) < Transfers(p, n)
  {
    if m < n { TransfersGrow(p, m, n - 1); }
  }

  // ---------------------------------------------------------------- what every step keeps

  ghost predicate Inv(g: seq<Action>, e: seq<Action>, s: State) {
    && |g| == |e|
    && Flow(g, s.pcG, s.pcE, s.toE, s.gotE) && Flow(e, s.pcE, s.pcG, s.toG, s.gotG)
    && Transfers(g, s.pcG) == Transfers(e, s.pcE)
  }

  /** Neither party is beyond a transfer that the other has yet to enter. */
  lemma TransfersMeet(g: seq<Action>, e: seq<Action>, s: State)
    requires DualPrograms(g, e) && Inv(g, e, s)
    ensures s.pcG < s.pcE ==> !g[s.pcG].Transfer?
    ensures s.pcE < s.pcG ==> !e[s.pcE].Transfer?
  {
    if s.pcG < s.pcE {
      TransfersDual(g, e, s.pcG);
      TransfersGrow(e, s.pcG, s.pcE);
      assert Dual(g[s.pcG], e[s.pcG]);
    } else if s.pcE < s.pcG {
      TransfersDual(g, e, s.pcE);
      TransfersGrow(g, s.pcE, s.pcG);
      assert Dual(g[s.pcE], e[s.pcE]);
    }
  }

  /** Both parties at a transfer are at the same one. */
  lemma SameTransfer(g: seq<Action>, e: seq<Action>, s: State)
    requires DualPrograms(g, e) && Inv(g, e, s) && Enabled(g, e, s, BothTransfer)
    ensures s.pcG == s.pcE && g[s.pcG] == e[s.pcE]
  {
    TransfersMeet(g, e, s);
    assert Dual(g[s.pcG], e[s.pcG]);
  }

  lemma SilentFlow(p: seq<Action>, m: nat, n: nat, queue: seq<Byte>, got: seq<seq<Byte>>)
    requires Flow(p, m, n, queue, got)
    ensures m < |p| && !p[m].Send? ==> Flow(p, m + 1, n, queue, got)
    ensures n < |p| && !p[n].Send? ==> Flow(p, m, n + 1, queue, got + [[]])
  {
  }

  lemma TransfersStep(p: seq<Action>, n: nat)
    requires n < |p|
    ensures Transfers(p, n + 1) == Transfers(p, n) + if p[n].Transfer? then 1 else 0
  {
  }

  lemma GarblerStepKept(g: seq<Action>, e: seq<Action>, s: State, step: Step)
    requires DualPrograms(g, e) && Inv(g, e, s) && Enabled(g, e, s, step)
    requires step.GarblerSends? || step.GarblerReceives?
    ensures Inv(g, e, Next(g, e, s, step))
  {
    hide Flow, Sent, Dual, Transfers;
    Counterparts(g, e, s);
    TransfersStep(g, s.pcG);
    if step.GarblerSends? {
      FlowSend(g, s.pcG, s.pcE, s.toE, s.gotE);
      SilentFlow(e, s.pcE, s.pcG, s.toG, s.gotG);
    } else {
      SilentFlow(g, s.pcG, s.pcE, s.toE, s.gotE);
      FlowReceive(e, s.pcE, s.pcG, s.toG, s.gotG);
    }
  }

  lemma EvaluatorStepKept(g: seq<Action>, e: seq<Action>, s: State, step: Step)
    requires DualPrograms(g, e) && Inv(g, e, s) && Enabled(g, e, s, step)
    requires step.EvaluatorSends? || step.EvaluatorReceives?
    ensures Inv(g, e, Next(g, e, s, step))
  {
    hide Flow, Sent, Dual, Transfers;
    Counterparts(g, e, s);
    TransfersStep(e, s.pcE);
    if step.EvaluatorSends? {
      FlowSend(e, s.pcE, s.pcG, s.toG, s.gotG);
      SilentFlow(g, s.pcG, s.pcE, s.toE, s.gotE);
    } else {
      SilentFlow(e, s.pcE, s.pcG, s.toG, s.gotG);
      FlowReceive(g, s.pcG, s.pcE, s.toE, s.gotE);
    }
  }

  lemma InvKept(g: seq<Action>, e: seq<Action>, s: State, step: Step)
    requires DualPrograms(g, e) && Inv(g, e, s) && Enabled(g, e, s, step)
    ensures Inv(g, e, Next(g, e, s, step))
  {
    if step.BothTransfer? {
      hide Flow, Sent, Dual, Transfers;
      SameTransfer(g, e, s);
      Counterparts(g, e, s);
      TransfersStep(g, s.pcG);
      TransfersStep(e, s.pcE);
      SilentFlow(g, s.pcG, s.pcE, s.toE, s.gotE);
      SilentFlow(g, s.pcG + 1, s.pcE, s.toE, s.gotE);
      SilentFlow(e, s.pcE, s.pcG, s.toG, s.gotG);
      SilentFlow(e, s.pcE + 1, s.pcG, s.toG, s.gotG);
    } else {
      hide *;
      if step.GarblerSends? || step.GarblerReceives? {
        GarblerStepKept(g, e, s, step);
      } else {
        EvaluatorStepKept(g, e, s, step);
      }
    }
  }

  /** The same-numbered action of the other party. */
  lemma Counterparts(g: seq<Action>, e: seq<Action>, s: State)
    requires DualPrograms(g, e) && Inv(g, e, s)
    ensures s.pcG <= |g| == |e| && s.pcE <= |e|
    ensures s.pcG < |g| ==> (g[s.pcG].Recv? <==> e[s.pcG].Send?) && (g[s.pcG].Send? <==> e[s.pcG].Recv?)
    ensures s.pcG < |g| && g[s.pcG].Recv? ==> g[s.pcG].count == |DataOf(e[s.pcG])|
    ensures s.pcE < |e| ==> (e[s.pcE].Recv? <==> g[s.pcE].Send?) && (e[s.pcE].Send? <==> g[s.pcE].Recv?)
    ensures s.pcE < |e| && e[s.pcE].Recv? ==> e[s.pcE].count == |DataOf(g[s.pcE])|
  {
    if s.pcG < |g| { assert Dual(g[s.pcG], e[s.pcG]); }
    if s.pcE < |e| { assert Dual(g[s.pcE], e[s.pcE]); }
  }

  lemma FollowsKeeps(g: seq<Action>, e: seq<Action>, s: State, s': State)
    requires DualPrograms(g, e) && Inv(g, e, s) && Follows(g, e, s, s')
    ensures Inv(g, e, s') && s.pcG + s.pcE < s'.pcG + s'.pcE
  {
    hide Inv, DualPrograms;
    var step :| Enabled(g, e, s, step) && s' == Next(g, e, s, step);
    InvKept(g, e, s, step);
  }

  lemma InvStart(g: seq<Action>, e: seq<Action>)
    requires DualPrograms(g, e)
    ensures Inv(g, e, START)
  {
  }

  lemma {:induction false} InvAlongRun(g: seq<Action>, e: seq<Action>, run: seq<State>, n: nat)
    requires DualPrograms(g, e) && IsRun(g, e, run) && n < |run|
    ensures Inv(g, e, run[n])
    ensures n <= run[n].pcG + run[n].pcE
  {
    hide Inv, DualPrograms, Follows;
    if n == 0 {
      InvStart(g, e);
    } else {
      InvAlongRun(g, e, run, n - 1);
      FollowsKeeps(g, e, run[n - 1], run[n]);
    }
  }

  // ---------------------------------------------------------------- no deadlock

  predicate AtEnd(g: seq<Action>, e: seq<Action>, s: State) {
    s.pcG == |g| && s.pcE == |e|
  }

  /** In every state that keeps the invariant, some step is possible unless both programs are done. */
  lemma Progress(g: seq<Action>, e: seq<Action>, s: State)
    requires DualPrograms(g, e) && Inv(g, e, s)
    ensures AtEnd(g, e, s) || exists step :: Enabled(g, e, s, step)
  {
    hide Flow, Sent, Dual;
    Counterparts(g, e, s);
    TransfersMeet(g, e, s);
    if s.pcG < s.pcE {
      FlowBehind(e, s.pcE, s.pcG, s.toG, s.gotG);
      assert Enabled(g, e, s, GarblerSends) || Enabled(g, e, s, GarblerReceives);
    } else if s.pcE < s.pcG {
      FlowBehind(g, s.pcG, s.pcE, s.toE, s.gotE);
      assert Enabled(g, e, s, EvaluatorSends) || Enabled(g, e, s, EvaluatorReceives);
    } else if s.pcG < |g| {
      assert Enabled(g, e, s, GarblerSends) || Enabled(g, e, s, EvaluatorSends) || Enabled(g, e, s, BothTransfer);
    }
  }

  /** What holds in every state that any interleaving of two dual programs reaches: the two are not
      deadlocked, every action has received exactly the bytes the same-numbered action sent, both enter
      the same transfer, and at the end nothing is left under way. */
  ghost predicate Healthy(g: seq<Action>, e: seq<Action>, s: State) {
    && (AtEnd(g, e, s) || exists step :: Enabled(g, e, s, step))
    && |s.gotE| == s.pcE <= |g| && (forall i :: 0 <= i < s.pcE ==> s.gotE[i] == DataOf(g[i]))
    && |s.gotG| == s.pcG <= |e| && (forall i :: 0 <= i < s.pcG ==> s.gotG[i] == DataOf(e[i]))
    && (Enabled(g, e, s, BothTransfer) ==> s.pcG == s.pcE && g[s.pcG] == e[s.pcE])
    && (AtEnd(g, e, s) ==> s.toE == [] && s.toG == [] &&
                           Joined(s.gotE) == Sent(g, |g|) && Joined(s.gotG) == Sent(e, |e|))
  }

  lemma InvHealthy(g: seq<Action>, e: seq<Action>, s: State)
    requires DualPrograms(g, e) && Inv(g, e, s)
    ensures Healthy(g, e, s)
  {
    Progress(g, e, s);
    if Enabled(g, e, s, BothTransfer) { SameTransfer(g, e, s); }
    if AtEnd(g, e, s) {
      FlowAhead(g, s.pcG, s.pcE, s.toE, s.gotE);
      FlowAhead(e, s.pcE, s.pcG, s.toG, s.gotG);
      JoinedIsSent(g, s.gotE, |g|);
      JoinedIsSent(e, s.gotG, |e|);
    }
  }

  /** Dual programs stay healthy under every interleaving, and no run is longer than both together. */
  lemma NeverStuck(g: seq<Action>, e: seq<Action>, run: seq<State>)
    requires DualPrograms(g, e) && IsRun(g, e, run)
    ensures Healthy(g, e, run[|run| - 1])
    ensures |run| <= |g| + |e| + 1
  {
    hide Healthy;
    InvAlongRun(g, e, run, |run| - 1);
    InvHealthy(g, e, run[|run| - 1]);
    Counterparts(g, e, run[|run| - 1]);
  }

  /** Every run of the two programs is healthy to its end. */
  ghost predicate AlwaysHealthy(g: seq<Action>, e: seq<Action>) {
    forall run :: IsRun(g, e, run) ==> Healthy(g, e, run[|run| - 1]) && |run| <= |g| + |e| + 1
  }

  lemma DualsAlwaysHealthy(g: seq<Action>, e: seq<Action>)
    requires DualPrograms(g, e)
    ensures AlwaysHealthy(g, e)
  {
    hide Healthy, DualPrograms;
    forall run | IsRun(g, e, run) ensures Healthy(g, e, run[|run| - 1]) && |run| <= |g| + |e| + 1 {
      NeverStuck(g, e, run);
    }
  }
}
