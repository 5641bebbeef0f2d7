/** What agreement costs: exactly how many messages a network delivers for a batch
    of payments, and that it can always get there. */
module Traffic {
  import opened LedgerSpec
  import opened NodeRuns
  import opened Replicas
  import opened Agreement
  import opened Sequences
  import G = Gossip

  /** The messages of a payment under way and still to be sent. */
  ghost function Load(net: G.Network, tx: Transaction, sp: Spread): nat
    requires net.Valid()
  {
    |sp.flight| + G.OutDegree(net, tx, net.nodes.Keys - sp.arrived)
  }

  function Change(step: Step, tx: Transaction): int {
    match step
    case Deliver(_, t, _) => if t == tx then -1 else 0
    case Repeat(_, t) => if t == tx then 1 else 0
    case Background(_, _) => 0
  }

  lemma {:induction false} MovedLoad(net: G.Network, tx: Transaction, sp: Spread, step: Step)
    requires net.Valid() && step.node in net.nodes
    requires step.Deliver? && step.tx == tx ==> step.node in sp.flight
    ensures Load(net, tx, Moved(net, tx, sp, step)) == Load(net, tx, sp) + Change(step, tx)
  {
    if step.Deliver? && step.tx == tx {
      var n := step.node;
      if n in sp.arrived {
        assert sp.arrived + {n} == sp.arrived;
      } else {
        G.OutDegreePick(net, tx, net.nodes.Keys - sp.arrived, n);
        assert net.nodes.Keys - sp.arrived - {n} == net.nodes.Keys - (sp.arrived + {n});
      }
    }
  }

  ghost predicate Tracks(w: World, txs: seq<Transaction>) {
    forall tx {:trigger tx in w.flight} :: tx in txs ==> tx in w.flight
  }

  ghost function Work(g: Setting, w: World, txs: seq<Transaction>): nat
    requires g.net.Valid() && Tracks(w, txs)
  {
    if txs == [] then 0
    else
      assert Last(txs) in txs;
      Work(g, w, Butlast(txs)) + Load(g.net, Last(txs), SpreadOf(w, Last(txs)))
  }

  function Changes(step: Step, txs: seq<Transaction>): int {
    if txs == [] then 0 else Changes(step, Butlast(txs)) + Change(step, Last(txs))
  }

  lemma {:induction false} StepWork(g: Setting, w: World, step: Step, txs: seq<Transaction>)
    requires Kept(g, w) && Payable(g) && Enabled(g, w, step) && Tracks(w, txs)
    ensures Tracks(Do(g, w, step), txs)
    ensures Work(g, Do(g, w, step), txs) == Work(g, w, txs) + Changes(step, txs)
  {
    if txs != [] {
      assert txs == Butlast(txs) + [Last(txs)];
      StepWork(g, w, step, Butlast(txs));
      StepMoves(g, w, step, Last(txs));
      MovedLoad(g.net, Last(txs), SpreadOf(w, Last(txs)), step);
    }
  }

  lemma {:induction false} ChangesOnce(step: Step, txs: seq<Transaction>)
    requires Distinct(txs)
    ensures Changes(step, txs) == match step
      case Deliver(_, t, _) => if t in txs then -1 else 0
      case Repeat(_, t) => if t in txs then 1 else 0
      case Background(_, _) => 0
  {
    if txs != [] {
      assert txs == Butlast(txs) + [Last(txs)];
      ChangesOnce(step, Butlast(txs));
    }
  }

  function Deliveries(steps: seq<Step>): nat {
    if steps == [] then 0 else (if steps[0].Deliver? then 1 else 0) + Deliveries(steps[1..])
  }

  function Repeats(steps: seq<Step>): nat {
    if steps == [] then 0 else (if steps[0].Repeat? then 1 else 0) + Repeats(steps[1..])
  }

  /** It counts the deliveries: all steps if all are, none if none is, part by part. */
  lemma {:induction false} DeliveriesRule(steps: seq<Step>, k: nat)
    requires k <= |steps|
    ensures Deliveries(steps) == Deliveries(steps[..k]) + Deliveries(steps[k..])
    ensures (forall i :: 0 <= i < |steps| ==> steps[i].Deliver?) ==> Deliveries(steps) == |steps|
    ensures (forall i :: 0 <= i < |steps| ==> !steps[i].Deliver?) ==> Deliveries(steps) == 0
    decreases |steps|
  {
    if steps != [] {
      DeliveriesRule(steps[1..], if k == 0 then 0 else k - 1);
      if k == 0 {
        assert steps[k..] == steps;
      } else {
        assert steps[..k][1..] == steps[1..][..k - 1] && steps[k..] == steps[1..][k - 1..];
      }
    }
  }

  /** It counts the repeats: all steps if all are, none if none is, part by part. */
  lemma {:induction false} RepeatsRule(steps: seq<Step>, k: nat)
    requires k <= |steps|
    ensures Repeats(steps) == Repeats(steps[..k]) + Repeats(steps[k..])
    ensures (forall i :: 0 <= i < |steps| ==> steps[i].Repeat?) ==> Repeats(steps) == |steps|
    ensures (forall i :: 0 <= i < |steps| ==> !steps[i].Repeat?) ==> Repeats(steps) == 0
    decreases |steps|
  {
    if steps != [] {
      RepeatsRule(steps[1..], if k == 0 then 0 else k - 1);
      if k == 0 {
        assert steps[k..] == steps;
      } else {
        assert steps[..k][1..] == steps[1..][..k - 1] && steps[k..] == steps[1..][k - 1..];
      }
    }
  }

  lemma BatchTracked(g: Setting, w: World)
    requires Kept(g, w)
    ensures Tracks(w, Once(g.batch))
  {
    forall tx | tx in Once(g.batch)
      ensures tx in w.flight
    {
      assert SpreadsAt(g, w, tx);
    }
  }

  /** One step: `Work` goes down by a delivery and up by a repeat. */
  lemma {:induction false} StepCosts(g: Setting, w: World, step: Step)
    requires Kept(g, w) && Payable(g) && Enabled(g, w, step) && Tracks(w, Once(g.batch))
    ensures Kept(g, Do(g, w, step)) && Tracks(Do(g, w, step), Once(g.batch))
    ensures Work(g, Do(g, w, step), Once(g.batch)) + (if step.Deliver? then 1 else 0)
         == Work(g, w, Once(g.batch)) + if step.Repeat? then 1 else 0
  {
    StepKeeps(g, w, step);
    StepWork(g, w, step, Once(g.batch));
    ChangesOnce(step, Once(g.batch));
  }

  /** Each delivery is one of the messages that were outstanding from the start,
      or a repeat. */
  lemma {:induction false} RunWork(g: Setting, w: World, steps: seq<Step>, w': World)
    requires Kept(g, w) && Payable(g) && IsRun(g, w, steps, w') && Tracks(w, Once(g.batch))
    ensures Kept(g, w') && Tracks(w', Once(g.batch))
    ensures Deliveries(steps) + Work(g, w', Once(g.batch)) == Work(g, w, Once(g.batch)) + Repeats(steps)
    decreases |steps|
  {
    if steps != [] {
      StepCosts(g, w, steps[0]);
      RunWork(g, Do(g, w, steps[0]), steps[1..], w');
    }
  }

  /** One message to the origin of each payment, and one over each connection but
      those to the payer. */
  ghost function Messages(net: G.Network, txs: seq<Transaction>): nat
    requires net.Valid()
  {
    if txs == [] then 0 else Messages(net, Butlast(txs)) + 1 + G.OutDegree(net, Last(txs), net.nodes.Keys)
  }

  lemma {:induction false} OpeningWork(g: Setting, txs: seq<Transaction>)
    requires Placed(g) && Tracks(Opening(g), txs) && forall tx :: tx in txs ==> tx in g.batch
    ensures Work(g, Opening(g), txs) == Messages(g.net, txs)
  {
    if txs != [] {
      assert txs == Butlast(txs) + [Last(txs)];
      OpeningWork(g, Butlast(txs));
      OpeningSpread(g, Last(txs));
      assert g.net.nodes.Keys - {} == g.net.nodes.Keys;
    }
  }

  lemma {:induction false} NoWorkLeft(g: Setting, w: World, txs: seq<Transaction>)
    requires Kept(g, w) && Connected(g.net) && Quiet(g, w)
    requires Tracks(w, txs) && forall tx :: tx in txs ==> tx in g.batch
    ensures Work(g, w, txs) == 0
  {
    if txs != [] {
      assert txs == Butlast(txs) + [Last(txs)];
      var tx := Last(txs);
      NoWorkLeft(g, w, Butlast(txs));
      forall n | n in g.net.nodes
        ensures n in SpreadOf(w, tx).arrived
      {
        EveryNodeHasIt(g, w, tx, n);
      }
      assert g.net.nodes.Keys - SpreadOf(w, tx).arrived == {};
    }
  }

  /** The cost is exact. No run delivers more messages than one for each payment and
      one over each connection, repeats not counted; and a connected network that
      has gone quiet delivered just as many. */
  lemma {:induction false} NetworkTraffic(g: Setting, steps: seq<Step>, w: World)
    requires Placed(g) && Payable(g) && IsRun(g, Opening(g), steps, w)
    ensures Deliveries(steps) <= Messages(g.net, Once(g.batch)) + Repeats(steps)
    ensures Connected(g.net) && Quiet(g, w) ==> Deliveries(steps) == Messages(g.net, Once(g.batch)) + Repeats(steps)
  {
    OpeningKept(g);
    BatchTracked(g, Opening(g));
    OpeningWork(g, Once(g.batch));
    RunWork(g, Opening(g), steps, w);
    if Connected(g.net) && Quiet(g, w) {
      NoWorkLeft(g, w, Once(g.batch));
    }
  }

  /** While there is time, a message under way can arrive. */
  lemma {:induction false} CanDeliver(g: Setting, w: World) returns (step: Step)
    requires Kept(g, w) && !Quiet(g, w)
    ensures step.Deliver? && Enabled(g, w, step)
  {
    var tx :| tx in g.batch && tx in w.flight && w.flight[tx] != multiset{};
    var n :| n in w.flight[tx];
    assert SpreadsAt(g, w, tx);
    step := Deliver(n, tx, w.clock);
  }

  lemma {:induction false} Settles(g: Setting, w: World) returns (steps: seq<Step>, w': World)
    requires Kept(g, w) && Payable(g) && Tracks(w, Once(g.batch))
    ensures IsRun(g, w, steps, w') && Quiet(g, w')
    decreases Work(g, w, Once(g.batch))
  {
    if Quiet(g, w) {
      steps, w' := [], w;
    } else {
      var step := CanDeliver(g, w);
      StepCosts(g, w, step);
      var rest;
      rest, w' := Settles(g, Do(g, w, step));
      steps := [step] + rest;
      assert steps[1..] == rest;
    }
  }

  /** Whatever has happened so far, the network can still settle. */
  lemma {:induction false} NetworkSettles(g: Setting, before: seq<Step>, w: World)
    requires Placed(g) && Payable(g) && IsRun(g, Opening(g), before, w)
    ensures exists steps, w' :: IsRun(g, w, steps, w') && Quiet(g, w')
  {
    OpeningKept(g);
    RunKeeps(g, Opening(g), before, w);
    BatchTracked(g, w);
    var steps, w' := Settles(g, w);
  }

  // ----- the smallest network

  /** Two nodes connected to each other, and one payment made at the first. */
  function Pair(
    a: Peer, b: Peer, cfgs: (Config, Config), start: (NodeState, NodeState), tx: Transaction, now: int,
    restarts: bool): Setting
  {
    Setting(G.Network(map[a := cfgs.0, b := cfgs.1], map[a := {b}, b := {a}]),
            map[a := start.0, b := start.1], [tx], map[tx := a], now, restarts)
  }

  lemma {:induction false} PairIsConnected(
    a: Peer, b: Peer, cfgs: (Config, Config), start: (NodeState, NodeState), tx: Transaction, now: int,
    restarts: bool)
    requires a != b
    ensures Connected(Pair(a, b, cfgs, start, tx, now, restarts).net)
  {
    var net := Pair(a, b, cfgs, start, tx, now, restarts).net;
    assert G.IsPath(net, [a], a, a) && G.IsPath(net, [a, b], a, b);
    assert G.IsPath(net, [b], b, b) && G.IsPath(net, [b, a], b, a);
    assert Linked(net, a, a) && Linked(net, a, b) && Linked(net, b, a) && Linked(net, b, b);
  }

  lemma {:induction false} PairIsPayable(
    a: Peer, b: Peer, cfgs: (Config, Config), start: (NodeState, NodeState), tx: Transaction, now: int,
    restarts: bool)
    requires a != b
    requires Funded(cfgs.0, start.0, [tx], restarts) && Funded(cfgs.1, start.1, [tx], restarts)
    requires Settled(start.0) && Settled(start.1)
    ensures Payable(Pair(a, b, cfgs, start, tx, now, restarts))
  {
    var g := Pair(a, b, cfgs, start, tx, now, restarts);
    forall n | n in g.net.nodes
      ensures FundedAt(g, n)
    {
      if n == a {
        assert g.net.nodes[n] == cfgs.0 && g.start[n] == start.0;
      } else {
        assert g.net.nodes[n] == cfgs.1 && g.start[n] == start.1;
      }
    }
  }

  /** What the theorems ask for is met by any two connected nodes and any payment
      that both can fund. */
  lemma {:induction false} PairQualifies(
    a: Peer, b: Peer, cfgs: (Config, Config), start: (NodeState, NodeState), tx: Transaction, now: int,
    restarts: bool)
    requires a != b && tx.from == a && now > 0
    requires Funded(cfgs.0, start.0, [tx], restarts) && Funded(cfgs.1, start.1, [tx], restarts)
    requires Settled(start.0) && Settled(start.1)
    ensures var g := Pair(a, b, cfgs, start, tx, now, restarts);
      Placed(g) && Payable(g) && Connected(g.net)
  {
    PairIsConnected(a, b, cfgs, start, tx, now, restarts);
    PairIsPayable(a, b, cfgs, start, tx, now, restarts);
  }

  /** And there it takes two messages: one to the payer's own node, one across. */
  lemma {:induction false} PairTakesTwo(
    a: Peer, b: Peer, cfgs: (Config, Config), start: (NodeState, NodeState), tx: Transaction, now: int,
    restarts: bool)
    requires a != b && tx.from == a
    ensures var g := Pair(a, b, cfgs, start, tx, now, restarts);
      g.net.Valid() && Messages(g.net, g.batch) == 2
  {
    var net := Pair(a, b, cfgs, start, tx, now, restarts).net;
    G.OutDegreeCounts(net, tx, net.nodes.Keys);
    OneLink(net, a, b, tx);
    assert net.nodes.Keys == {a, b};
    MessagesOfOne(net, tx);
  }

  lemma MessagesOfOne(net: G.Network, tx: Transaction)
    requires net.Valid()
    ensures Messages(net, [tx]) == 1 + G.OutDegree(net, tx, net.nodes.Keys)
  {
    assert Butlast([tx]) == [] && Last([tx]) == tx;
  }

  lemma OneLink(net: G.Network, a: Peer, b: Peer, tx: Transaction)
    requires a != b && tx.from == a && net.peers == map[a := {b}, b := {a}]
    ensures G.Links(net, tx, {a, b}) == {(a, b)} && |G.Links(net, tx, {a, b})| == 1
  {
  }
}
