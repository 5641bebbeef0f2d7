/** The spread of one transaction. A node that applies it for the first time
    sends it to every connected peer but the payer, whoever it came from; any
    other delivery sends nothing. */
module Gossip {
  import opened LedgerSpec
  import opened NodeRuns
  import opened ReplayWindow

  /** The connections are those of the run; every peer named in them is a node. */
  datatype Network = Network(nodes: map<Peer, Config>, peers: map<Peer, set<Peer>>) {
    ghost predicate Valid() {
      peers.Keys == nodes.Keys && forall n :: n in peers ==> peers[n] <= nodes.Keys
    }
  }

  /** Everybody the node is connected to, except the payer. */
  function Targets(net: Network, tx: Transaction, n: Peer): (targets: set<Peer>)
    requires n in net.peers
    ensures forall m :: m in targets <==> m in net.peers[n] && m != tx.from
  {
    net.peers[n] - {tx.from}
  }

  /** The number of messages the nodes of `ns` would send. */
  ghost function OutDegree(net: Network, tx: Transaction, ns: set<Peer>): nat
    requires ns <= net.peers.Keys
  {
    if ns == {} then 0
    else
      var n :| n in ns;
      |Targets(net, tx, n)| + OutDegree(net, tx, ns - {n})
  }

  lemma {:induction false} OutDegreePick(net: Network, tx: Transaction, ns: set<Peer>, n: Peer)
    requires ns <= net.peers.Keys && n in ns
    ensures OutDegree(net, tx, ns) == |Targets(net, tx, n)| + OutDegree(net, tx, ns - {n})
    decreases ns
  {
    var k :| k in ns && OutDegree(net, tx, ns) == |Targets(net, tx, k)| + OutDegree(net, tx, ns - {k});
    if k != n {
      OutDegreePick(net, tx, ns - {k}, n);
      OutDegreePick(net, tx, ns - {n}, k);
      assert ns - {k} - {n} == ns - {n} - {k};
    }
  }

  lemma {:induction false} OutDegreeMonotone(net: Network, tx: Transaction, some: set<Peer>, ns: set<Peer>)
    requires some <= ns <= net.peers.Keys
    ensures OutDegree(net, tx, some) <= OutDegree(net, tx, ns)
    decreases ns
  {
    if some != ns {
      var n :| n in ns && n !in some;
      OutDegreePick(net, tx, ns, n);
      OutDegreeMonotone(net, tx, some, ns - {n});
    }
  }

  /** The connections of `ns` that do not lead to the payer. */
  function Links(net: Network, tx: Transaction, ns: set<Peer>): set<(Peer, Peer)>
    requires ns <= net.peers.Keys
  {
    set n, m | n in ns && m in net.peers[n] && m != tx.from :: (n, m)
  }

  lemma {:induction false} LinksOfOne(n: Peer, ms: set<Peer>)
    ensures |set m | m in ms :: (n, m)| == |ms|
    decreases ms
  {
    if ms == {} {
      assert (set m | m in ms :: (n, m)) == {};
    } else {
      var k :| k in ms;
      LinksOfOne(n, ms - {k});
      assert (set m | m in ms :: (n, m)) == (set m | m in ms - {k} :: (n, m)) + {(n, k)};
    }
  }

  /** So this counts connections: each one but those to the payer, once. */
  lemma {:induction false} OutDegreeCounts(net: Network, tx: Transaction, ns: set<Peer>)
    requires ns <= net.peers.Keys
    ensures OutDegree(net, tx, ns) == |Links(net, tx, ns)|
    decreases ns
  {
    if ns == {} {
      assert Links(net, tx, ns) == {};
    } else {
      var n :| n in ns;
      OutDegreePick(net, tx, ns, n);
      OutDegreeCounts(net, tx, ns - {n});
      LinksPick(net, tx, ns, n);
    }
  }

  lemma {:induction false} LinksPick(net: Network, tx: Transaction, ns: set<Peer>, n: Peer)
    requires ns <= net.peers.Keys && n in ns
    ensures |Links(net, tx, ns)| == |Links(net, tx, ns - {n})| + |Targets(net, tx, n)|
  {
    var rest, own := Links(net, tx, ns - {n}), set m | m in Targets(net, tx, n) :: (n, m);
    LinksOfOne(n, Targets(net, tx, n));
    assert Links(net, tx, ns) == rest + own && rest !! own;
  }

  // ----- the steps of the network

  /** `flight` holds the receivers of the messages under way; `applied` counts
      the applications at each node. */
  datatype State = State(nodes: map<Peer, NodeState>, flight: multiset<Peer>, applied: multiset<Peer>)

  /** Any message can be the next one to arrive. It can also be lost. The other
      steps are whatever else a node does: other transactions, pruning, restarts,
      syncs, quotas and faucet accounts. */
  datatype Step =
    | Deliver(node: Peer, verified: bool, now: int)
    | Lose(node: Peer)
    | Background(node: Peer, e: Event)

  ghost predicate Valid(net: Network, s: State) {
    && net.Valid() && s.nodes.Keys == net.nodes.Keys
    && forall n :: n in s.flight ==> n in net.nodes
  }

  /** The run takes place within one replay window. */
  predicate InWindow(since: int, now: int) {
    0 < since <= now <= since + SEEN_TTL
  }

  predicate Enabled(net: Network, tx: Transaction, since: int, s: State, step: Step) {
    && step.node in net.nodes
    && match step
       case Deliver(n, _, now) => n in s.flight && InWindow(since, now)
       case Lose(n) => n in s.flight
       case Background(_, e) => InWindow(since, e.now) && (e.op.Receive? ==> e.op.tx != tx)
  }

  ghost function OutcomeAt(net: Network, tx: Transaction, s: State, n: Peer, verified: bool): Outcome
    requires Valid(net, s) && n in net.nodes
  {
    Decide(net.nodes[n], s.nodes[n].mem, tx, verified)
  }

  ghost function NodeDoes(net: Network, s: State, n: Peer, e: Event): State
    requires Valid(net, s) && n in net.nodes
  {
    s.(nodes := s.nodes[n := NodeRuns.Next(net.nodes[n], s.nodes[n], e)])
  }

  /** `n` handles the transaction: the ledger step, then the gossip if it is new. */
  ghost function Handle(net: Network, tx: Transaction, s: State, n: Peer, verified: bool, now: int): State
    requires Valid(net, s) && n in net.nodes
  {
    var s' := NodeDoes(net, s, n, Event(now, Receive(tx, verified)));
    if OutcomeAt(net, tx, s, n, verified) == Applied
    then s'.(flight := s.flight + multiset(Targets(net, tx, n)), applied := s.applied + multiset{n})
    else s'
  }

  ghost function Next(net: Network, tx: Transaction, since: int, s: State, step: Step): State
    requires Valid(net, s) && Enabled(net, tx, since, s, step)
  {
    match step
    case Deliver(n, verified, now) => Handle(net, tx, s.(flight := s.flight - multiset{n}), n, verified, now)
    case Lose(n) => s.(flight := s.flight - multiset{n})
    case Background(n, e) => NodeDoes(net, s, n, e)
  }

  ghost predicate IsRun(net: Network, tx: Transaction, since: int, s: State, steps: seq<Step>, s': State)
    decreases |steps|
  {
    if steps == [] then s' == s
    else Valid(net, s) && Enabled(net, tx, since, s, steps[0])
         && IsRun(net, tx, since, Next(net, tx, since, s, steps[0]), steps[1..], s')
  }

  // ----- one node and the transaction

  predicate MarkedFor(s: NodeState, tx: Transaction, since: int, p: string) {
    Stamped(s.mem, p, tx.id, since) && Stamped(s.disk, p, tx.id, since)
  }

  /** One of the accounts has a stamp, in memory and on disk, that outlasts the run. */
  predicate Marked(s: NodeState, tx: Transaction, since: int) {
    MarkedFor(s, tx, since, tx.from) || MarkedFor(s, tx, since, tx.to)
  }

  lemma NodeKeepsMark(cfg: Config, s: NodeState, e: Event, tx: Transaction, since: int)
    requires InWindow(since, e.now) && Marked(s, tx, since)
    ensures Marked(NodeRuns.Next(cfg, s, e), tx, since)
  {
    var p := if MarkedFor(s, tx, since, tx.from) then tx.from else tx.to;
    StepKeepsStamp(cfg, s, e, p, tx.id, since);
  }

  lemma ApplicationMarks(cfg: Config, s: NodeState, tx: Transaction, verified: bool, now: int, since: int)
    requires InWindow(since, now) && Decide(cfg, s.mem, tx, verified) == Applied
    ensures !Marked(s, tx, since)
    ensures Marked(NodeRuns.Next(cfg, s, Event(now, Receive(tx, verified))), tx, since)
  {
    NewStamp(cfg, s, Event(now, Receive(tx, verified)), tx.from);
  }

  predicate MarkedAt(s: State, tx: Transaction, since: int, n: Peer) {
    n in s.nodes && Marked(s.nodes[n], tx, since)
  }

  /** Marks stay, and whoever applies the transaction had none and gets one. */
  lemma StepMarks(net: Network, tx: Transaction, since: int, s: State, step: Step, n: Peer)
    requires Valid(net, s) && Enabled(net, tx, since, s, step) && n in net.nodes
    ensures MarkedAt(s, tx, since, n) ==> MarkedAt(Next(net, tx, since, s, step), tx, since, n)
    ensures step.Deliver? && step.node == n && OutcomeAt(net, tx, s, n, step.verified) == Applied ==>
      !MarkedAt(s, tx, since, n) && MarkedAt(Next(net, tx, since, s, step), tx, since, n)
  {
    if step.node == n {
      match step
      case Deliver(_, verified, now) =>
        if OutcomeAt(net, tx, s, n, verified) == Applied {
          ApplicationMarks(net.nodes[n], s.nodes[n], tx, verified, now, since);
        } else if MarkedAt(s, tx, since, n) {
          NodeKeepsMark(net.nodes[n], s.nodes[n], Event(now, Receive(tx, verified)), tx, since);
        }
      case Lose(_) =>
      case Background(_, e) =>
        if MarkedAt(s, tx, since, n) {
          NodeKeepsMark(net.nodes[n], s.nodes[n], e, tx, since);
        }
    }
  }

  lemma StepValid(net: Network, tx: Transaction, since: int, s: State, step: Step)
    requires Valid(net, s) && Enabled(net, tx, since, s, step)
    ensures Valid(net, Next(net, tx, since, s, step))
  {
  }

  /** The messages and the applications after a step. */
  lemma StepMessages(net: Network, tx: Transaction, since: int, s: State, step: Step)
    requires Valid(net, s) && Enabled(net, tx, since, s, step)
    ensures var s' := Next(net, tx, since, s, step);
      match step
      case Deliver(n, verified, _) =>
        if OutcomeAt(net, tx, s, n, verified) == Applied then
          && s'.flight == s.flight - multiset{n} + multiset(Targets(net, tx, n))
          && s'.applied == s.applied + multiset{n}
        else s'.flight == s.flight - multiset{n} && s'.applied == s.applied
      case Lose(n) => s'.flight == s.flight - multiset{n} && s'.applied == s.applied
      case Background(_, _) => s'.flight == s.flight && s'.applied == s.applied
  {
  }

  // ----- termination

  ghost function Unmarked(net: Network, tx: Transaction, since: int, s: State): set<Peer> {
    set n | n in net.nodes && !MarkedAt(s, tx, since, n)
  }

  /** Messages under way, and those that nodes may still send. */
  ghost function Work(net: Network, tx: Transaction, since: int, s: State): nat
    requires net.Valid()
  {
    |s.flight| + OutDegree(net, tx, Unmarked(net, tx, since, s))
  }

  lemma {:induction false} StepShrinksUnmarked(net: Network, tx: Transaction, since: int, s: State, step: Step)
    requires Valid(net, s) && Enabled(net, tx, since, s, step)
    ensures var before, after := Unmarked(net, tx, since, s), Unmarked(net, tx, since, Next(net, tx, since, s, step));
      && after <= before
      && (step.Deliver? && OutcomeAt(net, tx, s, step.node, step.verified) == Applied ==>
            step.node in before && step.node !in after)
  {
    forall n | n in net.nodes
      ensures MarkedAt(s, tx, since, n) ==> MarkedAt(Next(net, tx, since, s, step), tx, since, n)
    {
      StepMarks(net, tx, since, s, step, n);
    }
    StepMarks(net, tx, since, s, step, step.node);
  }

  /** Every delivery, new or not, leaves less work; no other step adds any. */
  lemma {:induction false} StepWork(net: Network, tx: Transaction, since: int, s: State, step: Step)
    requires Valid(net, s) && Enabled(net, tx, since, s, step)
    ensures Valid(net, Next(net, tx, since, s, step))
    ensures Work(net, tx, since, Next(net, tx, since, s, step)) + (if step.Deliver? then 1 else 0)
         <= Work(net, tx, since, s)
  {
    var before, after := Unmarked(net, tx, since, s), Unmarked(net, tx, since, Next(net, tx, since, s, step));
    StepValid(net, tx, since, s, step);
    StepMessages(net, tx, since, s, step);
    StepShrinksUnmarked(net, tx, since, s, step);
    OutDegreeMonotone(net, tx, after, before);
    if step.Deliver? && OutcomeAt(net, tx, s, step.node, step.verified) == Applied {
      OutDegreePick(net, tx, before, step.node);
      OutDegreeMonotone(net, tx, after, before - {step.node});
    }
  }

  function Deliveries(steps: seq<Step>): nat {
    if steps == [] then 0 else (if steps[0].Deliver? then 1 else 0) + Deliveries(steps[1..])
  }

  /** It counts the deliveries: all steps if all are, none if none is, part by part. */
  lemma {:induction false} DeliveriesRule(steps: seq<Step>, k: nat)
    requires k <= |steps|
    ensures Deliveries(steps) == Deliveries(steps[..k]) + Deliveries(steps[k..])
    ensures (forall i :: 0 <= i < |steps| ==> steps[i].Deliver?) ==> Deliveries(steps) == |steps|
    ensures (forall i :: 0 <= i < |steps| ==> !steps[i].Deliver?) ==> Deliveries(steps) == 0
    decreases |steps|
  {
    if steps != [] {
      DeliveriesRule(steps[1..], if k == 0 then 0 else k - 1);
      if k == 0 {
        assert steps[k..] == steps;
      } else {
        assert steps[..k][1..] == steps[1..][..k - 1] && steps[k..] == steps[1..][k - 1..];
      }
    }
  }

  lemma {:induction false} RunWork(net: Network, tx: Transaction, since: int, s: State, steps: seq<Step>, s': State)
    requires Valid(net, s) && IsRun(net, tx, since, s, steps, s')
    ensures Valid(net, s') && Deliveries(steps) + Work(net, tx, since, s') <= Work(net, tx, since, s)
    decreases |steps|
  {
    if steps != [] {
      StepWork(net, tx, since, s, steps[0]);
      RunWork(net, tx, since, Next(net, tx, since, s, steps[0]), steps[1..], s');
    }
  }

  /** The sender applies its own transaction, broadcasts it, and sends it once more
      to the payee if the payee can be reached. It broadcasts a duplicate too. */
  ghost function Originate(net: Network, tx: Transaction, s: State, origin: Peer, now: int, direct: bool): State
    requires Valid(net, s) && origin in net.nodes
  {
    Handle(net, tx, s, origin, true, now).(flight :=
      multiset(Targets(net, tx, origin)) + if direct && tx.to in net.nodes then multiset{tx.to} else multiset{})
  }

  /** One message to every connection but the payer, and the direct one. */
  lemma OriginateSends(
    net: Network, tx: Transaction, s: State, origin: Peer, now: int, direct: bool, m: Peer)
    requires Valid(net, s) && origin in net.nodes
    ensures Originate(net, tx, s, origin, now, direct).flight[m]
         == (if m in net.peers[origin] && m != tx.from then 1 else 0)
            + (if direct && m == tx.to && m in net.nodes then 1 else 0)
  {
  }

  /** The origin does not refuse its own transaction: it is new, or a duplicate of
      something applied since the window began. */
  ghost predicate Launch(net: Network, tx: Transaction, since: int, s: State, origin: Peer, now: int) {
    && Valid(net, s) && origin in net.nodes && InWindow(since, now)
    && s.flight == multiset{} && s.applied == multiset{}
    && match OutcomeAt(net, tx, s, origin, true)
       case Applied => true
       case Duplicate => MarkedAt(s, tx, since, origin)
       case Rejected => false
  }

  lemma {:induction false} LaunchMarks(
    net: Network, tx: Transaction, since: int, s: State, origin: Peer, now: int, direct: bool)
    requires Launch(net, tx, since, s, origin, now)
    ensures var s0 := Originate(net, tx, s, origin, now, direct);
      Valid(net, s0) && MarkedAt(s0, tx, since, origin)
  {
    if OutcomeAt(net, tx, s, origin, true) == Applied {
      ApplicationMarks(net.nodes[origin], s.nodes[origin], tx, true, now, since);
    } else {
      NodeKeepsMark(net.nodes[origin], s.nodes[origin], Event(now, Receive(tx, true)), tx, since);
    }
  }

  /** Gossip ends: whatever arrives in whatever order, whatever is lost, rejected or
      repeated, and whatever else the nodes do, there are no more deliveries than
      connections (those to the payer not counted) and the one direct message. */
  lemma {:induction false} GossipTerminates(
    net: Network, tx: Transaction, since: int, s: State, origin: Peer, now: int, direct: bool,
    steps: seq<Step>, s': State)
    requires Launch(net, tx, since, s, origin, now)
    requires IsRun(net, tx, since, Originate(net, tx, s, origin, now, direct), steps, s')
    ensures Deliveries(steps) + |s'.flight| <= OutDegree(net, tx, net.nodes.Keys) + 1
  {
    var s0 := Originate(net, tx, s, origin, now, direct);
    LaunchMarks(net, tx, since, s, origin, now, direct);
    assert Unmarked(net, tx, since, s0) <= net.nodes.Keys - {origin};
    OutDegreePick(net, tx, net.nodes.Keys, origin);
    OutDegreeMonotone(net, tx, Unmarked(net, tx, since, s0), net.nodes.Keys - {origin});
    RunWork(net, tx, since, s0, steps, s');
  }

  // ----- exactly once, everywhere

  /** A node that applied the transaction is marked, and applied it once. */
  ghost predicate AppliedOnce(tx: Transaction, since: int, s: State) {
    forall n :: s.applied[n] <= 1 && (s.applied[n] == 1 ==> MarkedAt(s, tx, since, n))
  }

  lemma {:induction false} StepOnce(net: Network, tx: Transaction, since: int, s: State, step: Step)
    requires Valid(net, s) && Enabled(net, tx, since, s, step) && AppliedOnce(tx, since, s)
    ensures AppliedOnce(tx, since, Next(net, tx, since, s, step))
  {
    var s' := Next(net, tx, since, s, step);
    StepMessages(net, tx, since, s, step);
    forall n
      ensures s'.applied[n] <= 1 && (s'.applied[n] == 1 ==> MarkedAt(s', tx, since, n))
    {
      if n in net.nodes {
        StepMarks(net, tx, since, s, step, n);
      }
    }
  }

  lemma {:induction false} RunOnce(net: Network, tx: Transaction, since: int, s: State, steps: seq<Step>, s': State)
    requires Valid(net, s) && AppliedOnce(tx, since, s) && IsRun(net, tx, since, s, steps, s')
    ensures AppliedOnce(tx, since, s')
    decreases |steps|
  {
    if steps != [] {
      StepOnce(net, tx, since, s, steps[0]);
      StepValid(net, tx, since, s, steps[0]);
      RunOnce(net, tx, since, Next(net, tx, since, s, steps[0]), steps[1..], s');
    }
  }

  /** In every run, lossy or not, no node applies the transaction twice. */
  lemma {:induction false} GossipAppliesOnce(
    net: Network, tx: Transaction, since: int, s: State, origin: Peer, now: int, direct: bool,
    steps: seq<Step>, s': State, n: Peer)
    requires Launch(net, tx, since, s, origin, now)
    requires IsRun(net, tx, since, Originate(net, tx, s, origin, now, direct), steps, s')
    ensures s'.applied[n] <= 1
  {
    LaunchMarks(net, tx, since, s, origin, now, direct);
    RunOnce(net, tx, since, Originate(net, tx, s, origin, now, direct), steps, s');
  }

  /** Neighbours of a node that has seen the transaction have seen it or have a
      message under way. */
  ghost predicate Covered(net: Network, tx: Transaction, seen: set<Peer>, flight: multiset<Peer>)
    requires net.Valid() && seen <= net.nodes.Keys
  {
    forall n, m :: n in seen && m in Targets(net, tx, n) ==> m in seen || m in flight
  }

  /** The nodes that will not apply it any more. */
  ghost function MarkedSet(net: Network, tx: Transaction, since: int, s: State): set<Peer> {
    set n | n in net.nodes && MarkedAt(s, tx, since, n)
  }

  /** Nothing is lost or refused, and nothing else leaves a stamp of this ID on the
      two accounts: no sync, no restart (which restores stamps from histories), and
      no other transaction with the ID and a common party. */
  ghost predicate Smooth(net: Network, tx: Transaction, since: int, s: State, step: Step)
    requires Valid(net, s) && Enabled(net, tx, since, s, step)
  {
    match step
    case Deliver(n, verified, _) => OutcomeAt(net, tx, s, n, verified) != Rejected
    case Lose(_) => false
    case Background(_, e) => LeavesNoStamp(e, tx)
  }

  predicate LeavesNoStamp(e: Event, tx: Transaction) {
    && !e.op.Sync? && !e.op.Restart?
    && (e.op.Receive? ==> e.op.tx.id != tx.id || !(Involves(e.op.tx, tx.from) || Involves(e.op.tx, tx.to)))
  }

  ghost predicate IsSmoothRun(net: Network, tx: Transaction, since: int, s: State, steps: seq<Step>, s': State)
    decreases |steps|
  {
    if steps == [] then s' == s
    else Valid(net, s) && Enabled(net, tx, since, s, steps[0]) && Smooth(net, tx, since, s, steps[0])
         && IsSmoothRun(net, tx, since, Next(net, tx, since, s, steps[0]), steps[1..], s')
  }

  /** Whoever has a stamp is marked, and whoever is marked has applied it. */
  ghost predicate SeenMeansApplied(net: Network, tx: Transaction, since: int, s: State) {
    && (forall n :: n in net.nodes && n in s.nodes && HasSeen(s.nodes[n].mem, tx) ==> MarkedAt(s, tx, since, n))
    && (forall n :: n in net.nodes && MarkedAt(s, tx, since, n) ==> s.applied[n] == 1)
  }

  ghost predicate Spreading(net: Network, tx: Transaction, since: int, s: State) {
    && Valid(net, s) && AppliedOnce(tx, since, s) && SeenMeansApplied(net, tx, since, s)
    && Covered(net, tx, MarkedSet(net, tx, since, s), s.flight)
  }

  lemma BackgroundLeavesNoStamp(cfg: Config, s: NodeState, e: Event, tx: Transaction)
    requires LeavesNoStamp(e, tx)
    ensures HasSeen(NodeRuns.Next(cfg, s, e).mem, tx) ==> HasSeen(s.mem, tx)
  {
    if e.op.Receive? {
      ProcessedAccount(cfg, s.mem, e.op.tx, e.op.verified, e.now, tx.from);
      ProcessedAccount(cfg, s.mem, e.op.tx, e.op.verified, e.now, tx.to);
    }
  }

  /** A smooth delivery is applied exactly if the node is not marked. */
  lemma {:induction false} SmoothOutcome(net: Network, tx: Transaction, since: int, s: State, step: Step)
    requires Valid(net, s) && Enabled(net, tx, since, s, step) && Smooth(net, tx, since, s, step)
    requires SeenMeansApplied(net, tx, since, s) && step.Deliver?
    ensures OutcomeAt(net, tx, s, step.node, step.verified) == Applied <==> !MarkedAt(s, tx, since, step.node)
  {
  }

  lemma MarkedIsSeen(s: NodeState, tx: Transaction, since: int)
    requires since > 0 && Marked(s, tx, since)
    ensures HasSeen(s.mem, tx)
  {
  }

  lemma {:induction false} BackgroundNode(cfg: Config, s: NodeState, e: Event, tx: Transaction, since: int)
    requires LeavesNoStamp(e, tx) && InWindow(since, e.now)
    requires HasSeen(s.mem, tx) ==> Marked(s, tx, since)
    ensures var s' := NodeRuns.Next(cfg, s, e);
      (HasSeen(s'.mem, tx) ==> Marked(s', tx, since)) && (Marked(s', tx, since) <==> Marked(s, tx, since))
  {
    var s' := NodeRuns.Next(cfg, s, e);
    BackgroundLeavesNoStamp(cfg, s, e, tx);
    if Marked(s, tx, since) {
      NodeKeepsMark(cfg, s, e, tx, since);
    } else if Marked(s', tx, since) {
      MarkedIsSeen(s', tx, since);
    }
  }

  /** Each node after a smooth step: who is marked, and nobody has a stamp who is not. */
  lemma {:induction false} SmoothNode(net: Network, tx: Transaction, since: int, s: State, step: Step, n: Peer)
    requires Valid(net, s) && Enabled(net, tx, since, s, step) && Smooth(net, tx, since, s, step)
    requires SeenMeansApplied(net, tx, since, s) && n in net.nodes
    ensures var s' := Next(net, tx, since, s, step);
      && n in s'.nodes && (HasSeen(s'.nodes[n].mem, tx) ==> MarkedAt(s', tx, since, n))
      && (MarkedAt(s', tx, since, n) <==> MarkedAt(s, tx, since, n) || (step.Deliver? && step.node == n))
  {
    var s' := Next(net, tx, since, s, step);
    if step.node != n {
      assert s'.nodes[n] == s.nodes[n];
    } else if step.Deliver? {
      SmoothOutcome(net, tx, since, s, step);
      StepMarks(net, tx, since, s, step, n);
    } else {
      assert s'.nodes[n] == NodeRuns.Next(net.nodes[n], s.nodes[n], step.e);
      BackgroundNode(net.nodes[n], s.nodes[n], step.e, tx, since);
    }
  }

  lemma {:induction false} SmoothMarks(net: Network, tx: Transaction, since: int, s: State, step: Step)
    requires Valid(net, s) && Enabled(net, tx, since, s, step) && Smooth(net, tx, since, s, step)
    requires SeenMeansApplied(net, tx, since, s)
    ensures MarkedSet(net, tx, since, Next(net, tx, since, s, step))
         == MarkedSet(net, tx, since, s) + if step.Deliver? then {step.node} else {}
  {
    forall n | n in net.nodes
      ensures MarkedAt(Next(net, tx, since, s, step), tx, since, n)
         <==> MarkedAt(s, tx, since, n) || (step.Deliver? && step.node == n)
    {
      SmoothNode(net, tx, since, s, step, n);
    }
  }

  lemma {:induction false} SmoothSeen(net: Network, tx: Transaction, since: int, s: State, step: Step)
    requires Valid(net, s) && Enabled(net, tx, since, s, step) && Smooth(net, tx, since, s, step)
    requires SeenMeansApplied(net, tx, since, s) && AppliedOnce(tx, since, s)
    ensures SeenMeansApplied(net, tx, since, Next(net, tx, since, s, step))
  {
    var s' := Next(net, tx, since, s, step);
    StepMessages(net, tx, since, s, step);
    StepOnce(net, tx, since, s, step);
    forall n | n in net.nodes
      ensures n in s'.nodes && HasSeen(s'.nodes[n].mem, tx) ==> MarkedAt(s', tx, since, n)
      ensures MarkedAt(s', tx, since, n) ==> s'.applied[n] == 1
    {
      SmoothNode(net, tx, since, s, step, n);
      if step.Deliver? {
        SmoothOutcome(net, tx, since, s, step);
      }
    }
  }

  lemma {:induction false} StepCovers(net: Network, tx: Transaction, since: int, s: State, step: Step)
    requires Spreading(net, tx, since, s) && Enabled(net, tx, since, s, step) && Smooth(net, tx, since, s, step)
    ensures var s' := Next(net, tx, since, s, step);
      Covered(net, tx, MarkedSet(net, tx, since, s'), s'.flight)
  {
    SmoothMarks(net, tx, since, s, step);
    StepMessages(net, tx, since, s, step);
    if step.Deliver? {
      SmoothOutcome(net, tx, since, s, step);
      NewNodeCovers(net, tx, MarkedSet(net, tx, since, s), s.flight, step.node);
    }
  }

  lemma {:induction false} StepSpreads(net: Network, tx: Transaction, since: int, s: State, step: Step)
    requires Spreading(net, tx, since, s) && Enabled(net, tx, since, s, step) && Smooth(net, tx, since, s, step)
    ensures Spreading(net, tx, since, Next(net, tx, since, s, step))
    ensures MarkedSet(net, tx, since, s) <= MarkedSet(net, tx, since, Next(net, tx, since, s, step))
  {
    StepValid(net, tx, since, s, step);
    StepOnce(net, tx, since, s, step);
    SmoothSeen(net, tx, since, s, step);
    SmoothMarks(net, tx, since, s, step);
    StepCovers(net, tx, since, s, step);
  }

  lemma NewNodeCovers(net: Network, tx: Transaction, seen: set<Peer>, flight: multiset<Peer>, n: Peer)
    requires net.Valid() && seen <= net.nodes.Keys && n in net.nodes && Covered(net, tx, seen, flight)
    ensures n in seen ==> Covered(net, tx, seen + {n}, flight - multiset{n})
    ensures Covered(net, tx, seen + {n}, flight - multiset{n} + multiset(Targets(net, tx, n)))
  {
  }

  lemma {:induction false} RunSpreads(
    net: Network, tx: Transaction, since: int, s: State, steps: seq<Step>, s': State)
    requires Spreading(net, tx, since, s) && IsSmoothRun(net, tx, since, s, steps, s')
    ensures Spreading(net, tx, since, s') && MarkedSet(net, tx, since, s) <= MarkedSet(net, tx, since, s')
    decreases |steps|
  {
    if steps != [] {
      StepSpreads(net, tx, since, s, steps[0]);
      RunSpreads(net, tx, since, Next(net, tx, since, s, steps[0]), steps[1..], s');
    }
  }

  ghost predicate IsPath(net: Network, path: seq<Peer>, a: Peer, b: Peer)
    requires net.Valid()
  {
    && |path| > 0 && path[0] == a && path[|path| - 1] == b
    && (forall i :: 0 <= i < |path| ==> path[i] in net.nodes)
    && (forall i :: 0 < i < |path| ==> path[i] in net.peers[path[i - 1]])
  }

  lemma {:induction false} PathSeen(
    net: Network, tx: Transaction, seen: set<Peer>, path: seq<Peer>, a: Peer, b: Peer)
    requires net.Valid() && seen <= net.nodes.Keys && Covered(net, tx, seen, multiset{}) && IsPath(net, path, a, b)
    requires a in seen && (tx.from in net.nodes ==> tx.from in seen)
    ensures b in seen
    decreases |path|
  {
    if |path| > 1 {
      var before := path[..|path| - 1];
      PathSeen(net, tx, seen, before, a, before[|before| - 1]);
      assert b in net.peers[path[|path| - 2]];
      if b != tx.from {
        assert b in Targets(net, tx, path[|path| - 2]);
      }
    }
  }

  lemma {:induction false} LaunchSpreads(
    net: Network, tx: Transaction, since: int, s: State, origin: Peer, now: int, direct: bool)
    requires Launch(net, tx, since, s, origin, now)
    requires forall k :: k in net.nodes && k in s.nodes ==> !HasSeen(s.nodes[k].mem, tx)
    ensures var s0 := Originate(net, tx, s, origin, now, direct);
      Spreading(net, tx, since, s0) && MarkedSet(net, tx, since, s0) == {origin}
  {
    var s0 := Originate(net, tx, s, origin, now, direct);
    LaunchMarks(net, tx, since, s, origin, now, direct);
    forall k | k in net.nodes && k != origin
      ensures !MarkedAt(s0, tx, since, k) && !HasSeen(s0.nodes[k].mem, tx)
    {
      assert s0.nodes[k] == s.nodes[k];
    }
    assert MarkedSet(net, tx, since, s0) == {origin};
  }

  /** Gossip reaches everyone: when nothing is lost or refused and nothing is
      under way any more, every node connected to the origin has applied the
      transaction exactly once. The payer, if it is a node, is the origin. */
  lemma {:induction false} GossipReachesEveryone(
    net: Network, tx: Transaction, since: int, s: State, origin: Peer, now: int, direct: bool,
    steps: seq<Step>, s': State, path: seq<Peer>, n: Peer)
    requires Launch(net, tx, since, s, origin, now)
    requires forall k :: k in net.nodes && k in s.nodes ==> !HasSeen(s.nodes[k].mem, tx)
    requires tx.from == origin || tx.from !in net.nodes
    requires IsSmoothRun(net, tx, since, Originate(net, tx, s, origin, now, direct), steps, s')
    requires s'.flight == multiset{} && IsPath(net, path, origin, n)
    ensures s'.applied[n] == 1
  {
    LaunchSpreads(net, tx, since, s, origin, now, direct);
    RunSpreads(net, tx, since, Originate(net, tx, s, origin, now, direct), steps, s');
    PathSeen(net, tx, MarkedSet(net, tx, since, s'), path, origin, n);
  }
}
