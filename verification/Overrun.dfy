/** The traffic bound is met: for any number of TCP sessions and any credit in
    whole batches there is a play that forwards exactly as much as the bound. */
module Overrun {
  import opened LedgerSpec
  import opened NodeRuns
  import opened Metering

  /** `steps` lead from `s` to `s'`, and the node does nothing else. */
  ghost predicate Leads(cfg: Config, peer: string, s: System, steps: seq<Step>, s': System)
    decreases |steps|
  {
    if steps == [] then s' == s
    else !steps[0].NodeStep? && Enabled(cfg, peer, s, steps[0])
         && Leads(cfg, peer, Metering.Next(cfg, peer, s, steps[0]), steps[1..], s')
  }

  lemma {:induction false} LeadsIsPlay(cfg: Config, peer: string, s: System, steps: seq<Step>, s': System)
    requires Leads(cfg, peer, s, steps, s')
    ensures Plays(cfg, peer, s, steps) && Play(cfg, peer, s, steps) == s' && CreditOf(cfg, peer, s, steps) == 0
    decreases |steps|
  {
    if steps != [] {
      LeadsIsPlay(cfg, peer, Metering.Next(cfg, peer, s, steps[0]), steps[1..], s');
    }
  }

  lemma {:induction false} LeadsOn(
    cfg: Config, peer: string, s: System, a: seq<Step>, m: System, b: seq<Step>, s': System)
    requires Leads(cfg, peer, s, a, m) && Leads(cfg, peer, m, b, s')
    ensures Leads(cfg, peer, s, a + b, s') && TcpSessions(a + b) == TcpSessions(a) + TcpSessions(b)
    decreases |a|
  {
    if a == [] {
      assert a + b == b;
    } else {
      assert (a + b)[1..] == a[1..] + b;
      LeadsOn(cfg, peer, Metering.Next(cfg, peer, s, a[0]), a[1..], m, b, s');
    }
  }

  lemma {:induction false} Then(cfg: Config, peer: string, s: System, a: seq<Step>, m: System, step: Step)
    returns (steps: seq<Step>, s': System)
    requires Leads(cfg, peer, s, a, m) && !step.NodeStep? && Enabled(cfg, peer, m, step)
    ensures s' == Metering.Next(cfg, peer, m, step) && Leads(cfg, peer, s, steps, s')
    ensures TcpSessions(steps) == TcpSessions(a) + if step == OpenSession(Tcp) then 1 else 0
  {
    s' := Metering.Next(cfg, peer, m, step);
    assert [step][1..] == [];
    assert Leads(cfg, peer, s', [], s');
    LeadsOn(cfg, peer, s, a, m, [step], s');
    steps := a + [step];
  }

  /** A TCP loop about to read. */
  predicate AtHead(l: Loop, unbilled: nat) {
    l.kind == Tcp && l.phase == Reading && l.unbilled == unbilled
  }

  /** Loop `i` goes from `s` to `s'` alone, with so many bytes forwarded. */
  predicate Moves(s: System, i: nat, s': System, bytes: int) {
    && i < |s.loops| == |s'.loops| && s'.loops == s.loops[i := s'.loops[i]]
    && s'.loops[i].forwarded == s.loops[i].forwarded + bytes
  }

  /** A read and a write that stay below the batch. */
  lemma {:induction false} Free(cfg: Config, peer: string, s: System, a: seq<Step>, m: System, i: nat, n: nat, u: nat)
    returns (steps: seq<Step>, s': System)
    requires Leads(cfg, peer, s, a, m) && i < |m.loops| && AtHead(m.loops[i], u) && 0 < n <= MAX_READ && u + n < BATCH
    ensures Leads(cfg, peer, s, steps, s') && TcpSessions(steps) == TcpSessions(a)
    ensures s'.node == m.node && Moves(m, i, s', n) && AtHead(s'.loops[i], u + n)
  {
    var l := m.loops[i];
    steps, s' := Then(cfg, peer, s, a, m, Turnover(i, Read(n, false)));
    assert s'.loops[i] == Act(l, Read(n, false));
    steps, s' := Then(cfg, peer, s, steps, s', Turnover(i, Write(n, true)));
  }

  lemma {:induction false} FreeRounds(cfg: Config, peer: string, s: System, a: seq<Step>, m: System, i: nat, n: nat)
    returns (steps: seq<Step>, s': System)
    requires Leads(cfg, peer, s, a, m) && i < |m.loops| && AtHead(m.loops[i], 0) && n <= 15
    ensures Leads(cfg, peer, s, steps, s') && TcpSessions(steps) == TcpSessions(a)
    ensures s'.node == m.node && Moves(m, i, s', 65536 * n) && AtHead(s'.loops[i], 65536 * n)
  {
    if n == 0 {
      steps, s' := a, m;
    } else {
      var before, m' := FreeRounds(cfg, peer, s, a, m, i, n - 1);
      steps, s' := Free(cfg, peer, s, before, m', i, MAX_READ, 65536 * (n - 1));
    }
  }

  /** A read that fills the batch, its bill, and its write. */
  lemma {:induction false} PaidRound(cfg: Config, peer: string, s: System, a: seq<Step>, m: System, i: nat)
    returns (steps: seq<Step>, s': System)
    requires Leads(cfg, peer, s, a, m) && i < |m.loops| && AtHead(m.loops[i], 65536 * 15)
    requires Quota(m.node.mem, peer) >= BATCH
    ensures Leads(cfg, peer, s, steps, s') && TcpSessions(steps) == TcpSessions(a)
    ensures Quota(s'.node.mem, peer) == Quota(m.node.mem, peer) - BATCH
    ensures Moves(m, i, s', 65536) && AtHead(s'.loops[i], 0)
  {
    steps, s' := Then(cfg, peer, s, a, m, Turnover(i, Read(MAX_READ, false)));
    assert s'.loops[i].phase == Billing && s'.loops[i].unbilled == BATCH;
    steps, s' := Then(cfg, peer, s, steps, s', Turnover(i, Bill(true)));
    steps, s' := Then(cfg, peer, s, steps, s', Turnover(i, Write(MAX_READ, true)));
  }

  /** A whole batch, paid for. */
  lemma {:induction false} PaidBatch(cfg: Config, peer: string, s: System, a: seq<Step>, m: System, i: nat)
    returns (steps: seq<Step>, s': System)
    requires Leads(cfg, peer, s, a, m) && i < |m.loops| && AtHead(m.loops[i], 0)
    requires Quota(m.node.mem, peer) >= BATCH
    ensures Leads(cfg, peer, s, steps, s') && TcpSessions(steps) == TcpSessions(a)
    ensures Quota(s'.node.mem, peer) == Quota(m.node.mem, peer) - BATCH
    ensures Moves(m, i, s', BATCH) && AtHead(s'.loops[i], 0)
  {
    var before, m' := FreeRounds(cfg, peer, s, a, m, i, 15);
    steps, s' := PaidRound(cfg, peer, s, before, m', i);
    assert m.loops[i := m'.loops[i]][i := s'.loops[i]] == m.loops[i := s'.loops[i]];
  }

  lemma {:induction false} PaidBatches(cfg: Config, peer: string, s: System, a: seq<Step>, m: System, i: nat, c: nat)
    returns (steps: seq<Step>, s': System)
    requires Leads(cfg, peer, s, a, m) && i < |m.loops| && AtHead(m.loops[i], 0)
    requires Quota(m.node.mem, peer) == 1048576 * c
    ensures Leads(cfg, peer, s, steps, s') && TcpSessions(steps) == TcpSessions(a)
    ensures Quota(s'.node.mem, peer) == 0 && Moves(m, i, s', 1048576 * c) && AtHead(s'.loops[i], 0)
    decreases c
  {
    if c == 0 {
      steps, s' := a, m;
    } else {
      var before, m' := PaidBatch(cfg, peer, s, a, m, i);
      steps, s' := PaidBatches(cfg, peer, s, before, m', i, c - 1);
    }
  }

  /** The end of a loop that cannot pay. */
  lemma {:induction false} Unpaid(cfg: Config, peer: string, s: System, a: seq<Step>, m: System, i: nat)
    returns (steps: seq<Step>, s': System)
    requires Leads(cfg, peer, s, a, m) && i < |m.loops| && AtHead(m.loops[i], 1048575)
    requires Quota(m.node.mem, peer) == 0
    ensures Leads(cfg, peer, s, steps, s') && TcpSessions(steps) == TcpSessions(a)
    ensures Quota(s'.node.mem, peer) == 0 && Moves(m, i, s', 0)
  {
    steps, s' := Then(cfg, peer, s, a, m, Turnover(i, Read(0, true)));
    steps, s' := Then(cfg, peer, s, steps, s', Turnover(i, Bill(false)));
  }

  /** A batch less a byte that is never paid for. */
  lemma {:induction false} FreeRide(cfg: Config, peer: string, s: System, a: seq<Step>, m: System, i: nat)
    returns (steps: seq<Step>, s': System)
    requires Leads(cfg, peer, s, a, m) && i < |m.loops| && AtHead(m.loops[i], 0)
    requires Quota(m.node.mem, peer) == 0
    ensures Leads(cfg, peer, s, steps, s') && TcpSessions(steps) == TcpSessions(a)
    ensures Quota(s'.node.mem, peer) == 0 && Moves(m, i, s', 1048575)
  {
    var m1, m2;
    steps, m1 := FreeRounds(cfg, peer, s, a, m, i, 15);
    steps, m2 := Free(cfg, peer, s, steps, m1, i, MAX_READ - 1, 65536 * 15);
    steps, s' := Unpaid(cfg, peer, s, steps, m2, i);
    assert m.loops[i := m1.loops[i]][i := m2.loops[i]][i := s'.loops[i]] == m.loops[i := s'.loops[i]];
  }

  /** The loops from `i` on take a free ride, one after the other. */
  lemma {:induction false} FreeRides(cfg: Config, peer: string, s: System, a: seq<Step>, m: System, i: nat)
    returns (steps: seq<Step>, s': System)
    requires Leads(cfg, peer, s, a, m) && i <= |m.loops| && forall j :: i <= j < |m.loops| ==> AtHead(m.loops[j], 0)
    requires Quota(m.node.mem, peer) == 0
    ensures Leads(cfg, peer, s, steps, s') && TcpSessions(steps) == TcpSessions(a)
    ensures Forwarded(s'.loops) == Forwarded(m.loops) + 1048575 * (|m.loops| - i)
    decreases |m.loops| - i
  {
    if i == |m.loops| {
      steps, s' := a, m;
    } else {
      var before, m' := FreeRide(cfg, peer, s, a, m, i);
      TotalUpdate((l: Loop) => l.forwarded, m.loops, i, m'.loops[i]);
      steps, s' := FreeRides(cfg, peer, s, before, m', i + 1);
    }
  }

  lemma {:induction false} OpenSessions(cfg: Config, peer: string, s: System, k: nat)
    returns (steps: seq<Step>, s': System)
    requires s.loops == [] && Quota(s.node.mem, peer) > 0
    ensures Leads(cfg, peer, s, steps, s') && TcpSessions(steps) == k
    ensures s'.node == s.node && |s'.loops| == 2 * k && Forwarded(s'.loops) == 0
    ensures forall j :: 0 <= j < |s'.loops| ==> AtHead(s'.loops[j], 0)
  {
    if k == 0 {
      steps, s' := [], s;
    } else {
      var before, m := OpenSessions(cfg, peer, s, k - 1);
      TotalTwoMore((l: Loop) => l.forwarded, m.loops, Start(Tcp));
      steps, s' := Then(cfg, peer, s, before, m, OpenSession(Tcp));
    }
  }

  /** The bound of `TrafficIsBounded` is reached, with the credit used up, for every
      number of sessions and every credit of one batch or more. */
  lemma {:induction false} TrafficBoundIsReached(cfg: Config, peer: string, node: NodeState, k: nat, c: nat)
    requires k > 0 && c > 0 && Quota(node.mem, peer) == 1048576 * c
    ensures exists steps ::
      && Plays(cfg, peer, System(node, []), steps)
      && TcpSessions(steps) == k && CreditOf(cfg, peer, System(node, []), steps) == 0
      && Forwarded(Play(cfg, peer, System(node, []), steps).loops) == Quota(node.mem, peer) + 2 * k * (BATCH - 1)
  {
    var s := System(node, []);
    var steps, m := OpenSessions(cfg, peer, s, k);
    var m', s';
    steps, m' := PaidBatches(cfg, peer, s, steps, m, 0, c);
    TotalUpdate((l: Loop) => l.forwarded, m.loops, 0, m'.loops[0]);
    steps, s' := FreeRides(cfg, peer, s, steps, m', 0);
    LeadsIsPlay(cfg, peer, s, steps, s');
    assert 1048575 * (2 * k) == 2 * k * (BATCH - 1);
  }
}
