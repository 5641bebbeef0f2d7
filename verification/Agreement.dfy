/** The whole network: many nodes, a batch of payments, gossip in any order. When
    nothing is under way any more, all ledgers agree. */
module Agreement {
  import opened LedgerSpec
  import opened NodeRuns
  import opened Histories
  import opened Replicas
  import G = Gossip
  import opened Sequences

  /** The connections, the state each node starts in, the payments with the node
      each is made at, the time all of it starts, and whether nodes may restart. */
  datatype Setting = Setting(
    net: G.Network, start: map<Peer, NodeState>, batch: seq<Transaction>, origin: map<Transaction, Peer>, opening: int,
    restarts: bool)

  /** `inbox` is everything a node has done so far, `flight` the receivers of the
      messages under way for each transaction. */
  datatype World = World(
    nodes: map<Peer, NodeState>, inbox: map<Peer, seq<Event>>, flight: map<Transaction, multiset<Peer>>, clock: int)

  /** A message arrives; a message is sent once more (such as the direct one to
      the payee); or a node prunes, meters, restarts or opens a faucet account. */
  datatype Step =
    | Deliver(node: Peer, tx: Transaction, now: int)
    | Repeat(node: Peer, tx: Transaction)
    | Background(node: Peer, e: Event)

  /** A payment is made at a node; the payer, if it is a node, is that node. */
  predicate HasOrigin(g: Setting, tx: Transaction) {
    tx in g.origin && g.origin[tx] in g.net.nodes && (tx.from in g.net.nodes ==> tx.from == g.origin[tx])
  }

  ghost predicate Placed(g: Setting) {
    && g.net.Valid() && g.start.Keys == g.net.nodes.Keys && g.opening > 0
    && forall tx {:trigger HasOrigin(g, tx)} :: tx in g.batch ==> HasOrigin(g, tx)
  }

  ghost predicate FundedAt(g: Setting, n: Peer) {
    n in g.start && n in g.net.nodes && Settled(g.start[n]) && Funded(g.net.nodes[n], g.start[n], g.batch, g.restarts)
  }

  /** Every node starts with enough for the batch in every payer's account. */
  ghost predicate Payable(g: Setting) {
    forall n {:trigger FundedAt(g, n)} :: n in g.net.nodes ==> FundedAt(g, n)
  }

  /** Each payment starts as a message to the node it is made at. */
  function Opening(g: Setting): World {
    World(g.start, map n | n in g.start :: [],
          map tx | tx in g.origin :: multiset{g.origin[tx]}, g.opening)
  }

  predicate InTime(g: Setting, w: World, now: int) {
    w.clock <= now <= g.opening + SEEN_TTL
  }

  predicate Enabled(g: Setting, w: World, step: Step) {
    && step.node in w.nodes && step.node in w.inbox && step.node in g.net.nodes && step.node in g.net.peers
    && match step
       case Deliver(n, tx, now) => tx in g.batch && tx in w.flight && n in w.flight[tx] && InTime(g, w, now)
       case Repeat(_, tx) => tx in g.batch && tx in w.flight
       case Background(n, e) => InTime(g, w, e.now) && !e.op.Receive? && Calm(g.net.nodes[n], e, g.restarts)
  }

  /** Node `n` takes a step of its own. */
  function Advance(g: Setting, w: World, n: Peer, e: Event): World
    requires n in w.nodes && n in w.inbox && n in g.net.nodes
  {
    w.(nodes := w.nodes[n := Next(g.net.nodes[n], w.nodes[n], e)],
       inbox := w.inbox[n := w.inbox[n] + [e]], clock := e.now)
  }

  function Do(g: Setting, w: World, step: Step): World
    requires Enabled(g, w, step)
  {
    match step
    case Deliver(n, tx, now) =>
      var applied := Decide(g.net.nodes[n], w.nodes[n].mem, tx, true) == Applied;
      var left := w.flight[tx] - multiset{n};
      Advance(g, w, n, Event(now, Receive(tx, true))).(
        flight := w.flight[tx := if applied then left + multiset(G.Targets(g.net, tx, n)) else left])
    case Repeat(n, tx) => w.(flight := w.flight[tx := w.flight[tx] + multiset{n}])
    case Background(n, e) => Advance(g, w, n, e)
  }

  ghost predicate IsRun(g: Setting, w: World, steps: seq<Step>, w': World)
    decreases |steps|
  {
    if steps == [] then w' == w
    else Enabled(g, w, steps[0]) && IsRun(g, Do(g, w, steps[0]), steps[1..], w')
  }

  // ----- the nodes

  /** A node is where its inbox took it, in time and with nothing but the batch. */
  predicate NodeKept(g: Setting, n: Peer, s: NodeState, run: seq<Event>, clock: int)
    requires n in g.net.nodes && n in g.start
  {
    && s == Exec(g.net.nodes[n], g.start[n], run)
    && Clocked(run) && Steady(g.net.nodes[n], run, g.restarts) && Carries(run, g.batch)
    && forall i :: 0 <= i < |run| ==> g.opening <= run[i].now <= clock
  }

  predicate NodeAt(g: Setting, w: World, n: Peer) {
    && n in g.net.nodes && n in g.start && n in w.nodes && n in w.inbox
    && NodeKept(g, n, w.nodes[n], w.inbox[n], w.clock)
  }

  ghost predicate NodesKept(g: Setting, w: World) {
    && w.nodes.Keys == w.inbox.Keys == g.net.nodes.Keys && g.opening <= w.clock <= g.opening + SEEN_TTL
    && forall n {:trigger NodeAt(g, w, n)} :: n in g.net.nodes ==> NodeAt(g, w, n)
  }

  lemma ExecGrows(cfg: Config, s: NodeState, run: seq<Event>, e: Event)
    ensures Exec(cfg, s, run + [e]) == Next(cfg, Exec(cfg, s, run), e)
  {
    assert Butlast(run + [e]) == run;
  }

  lemma RunGrows(g: Setting, cfg: Config, run: seq<Event>, clock: int, e: Event)
    requires Clocked(run) && Steady(cfg, run, g.restarts) && Carries(run, g.batch)
    requires forall i :: 0 <= i < |run| ==> g.opening <= run[i].now <= clock
    requires 0 < g.opening <= clock <= e.now && Calm(cfg, e, g.restarts)
    requires e.op.Receive? ==> e.op.verified && e.op.tx in g.batch
    ensures Clocked(run + [e]) && Steady(cfg, run + [e], g.restarts) && Carries(run + [e], g.batch)
    ensures forall i :: 0 <= i < |run + [e]| ==> g.opening <= (run + [e])[i].now <= e.now
  {
    assert Butlast(run + [e]) == run;
  }

  lemma NodeGrows(g: Setting, n: Peer, s: NodeState, run: seq<Event>, clock: int, e: Event)
    requires n in g.net.nodes && n in g.start && NodeKept(g, n, s, run, clock)
    requires 0 < g.opening <= clock <= e.now && Calm(g.net.nodes[n], e, g.restarts)
    requires e.op.Receive? ==> e.op.verified && e.op.tx in g.batch
    ensures NodeKept(g, n, Next(g.net.nodes[n], s, e), run + [e], e.now)
  {
    ExecGrows(g.net.nodes[n], g.start[n], run, e);
    RunGrows(g, g.net.nodes[n], run, clock, e);
  }

  lemma NodeWaits(g: Setting, n: Peer, s: NodeState, run: seq<Event>, clock: int, later: int)
    requires n in g.net.nodes && n in g.start && NodeKept(g, n, s, run, clock) && clock <= later
    ensures NodeKept(g, n, s, run, later)
  {
  }

  lemma NodeInTime(g: Setting, n: Peer, s: NodeState, run: seq<Event>, clock: int)
    requires n in g.net.nodes && n in g.start && NodeKept(g, n, s, run, clock)
    requires clock <= g.opening + SEEN_TTL
    ensures s == Exec(g.net.nodes[n], g.start[n], run)
    ensures Clocked(run) && Short(run) && Steady(g.net.nodes[n], run, g.restarts) && Carries(run, g.batch)
  {
  }

  lemma {:induction false} AdvanceKeepsNodes(g: Setting, w: World, n: Peer, e: Event)
    requires NodesKept(g, w) && n in g.net.nodes && InTime(g, w, e.now) && g.opening > 0
    requires Calm(g.net.nodes[n], e, g.restarts) && (e.op.Receive? ==> e.op.verified && e.op.tx in g.batch)
    ensures NodesKept(g, Advance(g, w, n, e))
  {
    var w' := Advance(g, w, n, e);
    forall m | m in g.net.nodes
      ensures NodeAt(g, w', m)
    {
      assert NodeAt(g, w, m);
      if m == n {
        NodeGrows(g, n, w.nodes[n], w.inbox[n], w.clock, e);
      } else {
        NodeWaits(g, m, w.nodes[m], w.inbox[m], w.clock, e.now);
      }
    }
  }

  lemma SameNodes(g: Setting, v: World, w: World)
    requires NodesKept(g, v) && w.nodes == v.nodes && w.inbox == v.inbox && w.clock == v.clock
    ensures NodesKept(g, w)
  {
    forall n | n in g.net.nodes
      ensures NodeAt(g, w, n)
    {
      assert NodeAt(g, v, n);
    }
  }

  lemma {:induction false} StepKeepsNodes(g: Setting, w: World, step: Step)
    requires NodesKept(g, w) && Enabled(g, w, step) && g.opening > 0
    ensures NodesKept(g, Do(g, w, step))
  {
    match step
    case Deliver(n, tx, now) =>
      AdvanceKeepsNodes(g, w, n, Event(now, Receive(tx, true)));
      SameNodes(g, Advance(g, w, n, Event(now, Receive(tx, true))), Do(g, w, step));
    case Repeat(_, _) => SameNodes(g, w, Do(g, w, step));
    case Background(n, e) => AdvanceKeepsNodes(g, w, n, e);
  }

  lemma ArrivesAfter(run: seq<Event>, e: Event, tx: Transaction)
    ensures Arrives(run + [e], tx) <==> Arrives(run, tx) || (e.op.Receive? && e.op.tx == tx)
  {
    if Arrives(run, tx) {
      var i :| 0 <= i < |run| && run[i].op.Receive? && run[i].op.tx == tx;
      assert (run + [e])[i] == run[i];
    }
    assert (run + [e])[|run|] == e;
  }

  lemma {:induction false} AcceptedArrives(cfg: Config, s: NodeState, run: seq<Event>, tx: Transaction)
    requires tx in Accepted(cfg, s, run)
    ensures Arrives(run, tx)
  {
    var before, e := Butlast(run), Last(run);
    assert run == before + [e];
    ArrivesAfter(before, e, tx);
    if tx in Accepted(cfg, s, before) {
      AcceptedArrives(cfg, s, before, tx);
    } else {
      assert tx in Txs(Posted(cfg, Exec(cfg, s, before), e));
    }
  }

  lemma {:induction false} FirstArrivalDecides(
    g: Setting, n: Peer, s: NodeState, run: seq<Event>, clock: int, tx: Transaction)
    requires n in g.net.nodes && n in g.start && NodeKept(g, n, s, run, clock) && clock <= g.opening + SEEN_TTL
    requires Settled(g.start[n]) && Funded(g.net.nodes[n], g.start[n], g.batch, g.restarts)
    requires tx in g.batch && !Arrives(run, tx)
    ensures Decide(g.net.nodes[n], s.mem, tx, true) == Applied
  {
    var cfg := g.net.nodes[n];
    if tx in Accepted(cfg, g.start[n], run) {
      AcceptedArrives(cfg, g.start[n], run, tx);
    } else {
      NodeInTime(g, n, s, run, clock);
      FirstArrivalApplies(cfg, g.start[n], run, g.batch, tx, g.restarts);
    }
  }

  /** A node applies a payment when it first arrives and never again. */
  lemma {:induction false} LaterArrivalIsRefused(
    g: Setting, n: Peer, s: NodeState, run: seq<Event>, clock: int, tx: Transaction, now: int)
    requires n in g.net.nodes && n in g.start && NodeKept(g, n, s, run, clock)
    requires 0 < g.opening <= clock <= now <= g.opening + SEEN_TTL
    requires Settled(g.start[n]) && Funded(g.net.nodes[n], g.start[n], g.batch, g.restarts)
    requires tx in g.batch && Arrives(run, tx)
    ensures Decide(g.net.nodes[n], s.mem, tx, true) != Applied
  {
    var cfg, e := g.net.nodes[n], Event(now, Receive(tx, true));
    NodeInTime(g, n, s, run, clock);
    var i :| 0 <= i < |run| && run[i].op.Receive? && run[i].op.tx == tx;
    FundedBatchApplies(cfg, g.start[n], run, g.batch, i, g.restarts);
    NodeGrows(g, n, s, run, clock, e);
    NodeInTime(g, n, Next(cfg, s, e), run + [e], now);
    AppliedOnce(cfg, g.start[n], run + [e]);
    assert Butlast(run + [e]) == run;
    AcceptedStep(cfg, g.start[n], run + [e]);
    OnePosted(cfg, s, e, "");
    NoRoomForAnother(Accepted(cfg, g.start[n], run), tx);
  }

  /** A node applies a payment, and passes it on, exactly when it first arrives. */
  lemma {:induction false} AppliesFirst(g: Setting, w: World, n: Peer, tx: Transaction, now: int)
    requires NodesKept(g, w) && Payable(g) && NodeAt(g, w, n) && tx in g.batch && InTime(g, w, now) && g.opening > 0
    ensures Decide(g.net.nodes[n], w.nodes[n].mem, tx, true) == Applied <==> !Arrives(w.inbox[n], tx)
  {
    assert FundedAt(g, n);
    if Arrives(w.inbox[n], tx) {
      LaterArrivalIsRefused(g, n, w.nodes[n], w.inbox[n], w.clock, tx, now);
    } else {
      FirstArrivalDecides(g, n, w.nodes[n], w.inbox[n], w.clock, tx);
    }
  }

  // ----- one payment

  /** Where a payment has arrived, and where it is on its way to. */
  datatype Spread = Spread(arrived: set<Peer>, flight: multiset<Peer>)

  ghost function SpreadOf(w: World, tx: Transaction): Spread
    requires tx in w.flight
  {
    Spread((set n | n in w.inbox && Arrives(w.inbox[n], tx)), w.flight[tx])
  }

  /** What a step does to one payment. */
  function Moved(net: G.Network, tx: Transaction, sp: Spread, step: Step): Spread
    requires step.node in net.peers
  {
    match step
    case Deliver(n, t, _) =>
      if t != tx then sp
      else
        var left := sp.flight - multiset{n};
        Spread(sp.arrived + {n}, if n in sp.arrived then left else left + multiset(G.Targets(net, tx, n)))
    case Repeat(n, t) => if t == tx then sp.(flight := sp.flight + multiset{n}) else sp
    case Background(_, _) => sp
  }

  lemma AdvanceArrivals(g: Setting, w: World, n: Peer, e: Event, tx: Transaction)
    requires n in w.nodes && n in w.inbox && n in g.net.nodes && tx in w.flight
    ensures SpreadOf(Advance(g, w, n, e), tx).arrived
         == SpreadOf(w, tx).arrived + if e.op.Receive? && e.op.tx == tx then {n} else {}
  {
    ArrivesAfter(w.inbox[n], e, tx);
  }

  lemma {:induction false} StepMoves(g: Setting, w: World, step: Step, tx: Transaction)
    requires NodesKept(g, w) && Payable(g) && Enabled(g, w, step) && g.opening > 0 && tx in w.flight
    ensures tx in Do(g, w, step).flight
    ensures SpreadOf(Do(g, w, step), tx) == Moved(g.net, tx, SpreadOf(w, tx), step)
  {
    match step
    case Deliver(n, t, now) =>
      assert NodeAt(g, w, n);
      AppliesFirst(g, w, n, t, now);
      AdvanceArrivals(g, w, n, Event(now, Receive(t, true)), tx);
    case Repeat(_, _) =>
    case Background(n, e) => AdvanceArrivals(g, w, n, e, tx);
  }

  /** The payment has reached its origin or is on the way, and so for every
      neighbour of a node it has reached; nothing goes anywhere but to nodes. */
  ghost predicate Spreading(g: Setting, tx: Transaction, sp: Spread)
    requires g.net.Valid() && HasOrigin(g, tx)
  {
    && sp.arrived <= g.net.nodes.Keys && (forall n :: n in sp.flight ==> n in g.net.nodes)
    && (g.origin[tx] in sp.arrived || g.origin[tx] in sp.flight)
    && G.Covered(g.net, tx, sp.arrived, sp.flight)
  }

  lemma MovedSpreads(g: Setting, tx: Transaction, sp: Spread, step: Step)
    requires g.net.Valid() && HasOrigin(g, tx) && Spreading(g, tx, sp) && step.node in g.net.nodes
    ensures Spreading(g, tx, Moved(g.net, tx, sp, step))
  {
    if step.Deliver? {
      G.NewNodeCovers(g.net, tx, sp.arrived, sp.flight, step.node);
    }
  }

  ghost predicate SpreadsAt(g: Setting, w: World, tx: Transaction) {
    g.net.Valid() && HasOrigin(g, tx) && tx in w.flight && Spreading(g, tx, SpreadOf(w, tx))
  }

  ghost predicate AllSpreading(g: Setting, w: World) {
    forall tx {:trigger SpreadsAt(g, w, tx)} :: tx in g.batch ==> SpreadsAt(g, w, tx)
  }

  // ----- the whole network

  ghost predicate Kept(g: Setting, w: World) {
    Placed(g) && NodesKept(g, w) && AllSpreading(g, w)
  }

  lemma {:induction false} StepKeeps(g: Setting, w: World, step: Step)
    requires Kept(g, w) && Payable(g) && Enabled(g, w, step)
    ensures Kept(g, Do(g, w, step))
  {
    StepKeepsNodes(g, w, step);
    forall tx | tx in g.batch
      ensures SpreadsAt(g, Do(g, w, step), tx)
    {
      assert SpreadsAt(g, w, tx);
      StepMoves(g, w, step, tx);
      MovedSpreads(g, tx, SpreadOf(w, tx), step);
    }
  }

  lemma {:induction false} RunKeeps(g: Setting, w: World, steps: seq<Step>, w': World)
    requires Kept(g, w) && Payable(g) && IsRun(g, w, steps, w')
    ensures Kept(g, w')
    decreases |steps|
  {
    if steps != [] {
      StepKeeps(g, w, steps[0]);
      RunKeeps(g, Do(g, w, steps[0]), steps[1..], w');
    }
  }

  lemma {:induction false} OpeningKept(g: Setting)
    requires Placed(g)
    ensures Kept(g, Opening(g))
  {
    var w := Opening(g);
    forall n | n in g.net.nodes
      ensures NodeAt(g, w, n)
    {
    }
    forall tx | tx in g.batch
      ensures SpreadsAt(g, w, tx)
    {
      OpeningSpread(g, tx);
    }
  }

  lemma OpeningSpread(g: Setting, tx: Transaction)
    requires Placed(g) && tx in g.batch
    ensures HasOrigin(g, tx) && tx in Opening(g).flight
    ensures SpreadOf(Opening(g), tx) == Spread({}, multiset{g.origin[tx]})
  {
    assert HasOrigin(g, tx);
  }

  ghost predicate Linked(net: G.Network, a: Peer, b: Peer) {
    net.Valid() && exists path :: G.IsPath(net, path, a, b)
  }

  ghost predicate Connected(net: G.Network) {
    forall a, b {:trigger Linked(net, a, b)} :: a in net.nodes && b in net.nodes ==> Linked(net, a, b)
  }

  lemma {:induction false} EveryNodeHasIt(g: Setting, w: World, tx: Transaction, n: Peer)
    requires Kept(g, w) && Connected(g.net) && tx in g.batch && n in g.net.nodes
    requires tx in w.flight && w.flight[tx] == multiset{}
    ensures n in SpreadOf(w, tx).arrived
  {
    assert SpreadsAt(g, w, tx);
    assert Linked(g.net, g.origin[tx], n);
    var path :| G.IsPath(g.net, path, g.origin[tx], n);
    G.PathSeen(g.net, tx, SpreadOf(w, tx).arrived, path, g.origin[tx], n);
  }

  ghost predicate Quiet(g: Setting, w: World) {
    forall tx :: tx in g.batch && tx in w.flight ==> w.flight[tx] == multiset{}
  }

  lemma {:induction false} NodeHasAll(g: Setting, w: World, n: Peer)
    requires Kept(g, w) && Connected(g.net) && n in g.net.nodes && Quiet(g, w)
    ensures NodeAt(g, w, n) && forall tx :: tx in g.batch ==> Arrives(w.inbox[n], tx)
  {
    assert NodeAt(g, w, n);
    forall tx | tx in g.batch
      ensures Arrives(w.inbox[n], tx)
    {
      assert SpreadsAt(g, w, tx);
      EveryNodeHasIt(g, w, tx, n);
    }
  }

  lemma {:induction false} TwoNodesAgree(
    g: Setting, n: Peer, s: NodeState, run: seq<Event>, m: Peer, s': NodeState, run': seq<Event>, clock: int, p: string)
    requires n in g.net.nodes && n in g.start && m in g.net.nodes && m in g.start
    requires NodeKept(g, n, s, run, clock) && NodeKept(g, m, s', run', clock) && clock <= g.opening + SEEN_TTL
    requires FundedAt(g, n) && FundedAt(g, m)
    requires forall tx :: tx in g.batch ==> Arrives(run, tx) && Arrives(run', tx)
    requires Account(g.start[n].mem, p).balance == Account(g.start[m].mem, p).balance
    requires g.restarts ==> CannotBeFunded(g.net.nodes[n], p) && CannotBeFunded(g.net.nodes[m], p)
    ensures forall tx :: tx in Accepted(g.net.nodes[n], g.start[n], run) <==> tx in g.batch
    ensures Account(s.mem, p).balance == Account(s'.mem, p).balance
  {
    NodeInTime(g, n, s, run, clock);
    NodeInTime(g, m, s', run', clock);
    BatchApplies(g.net.nodes[n], g.start[n], run, g.batch, g.restarts);
    FundedDeliveryConverges(
      g.net.nodes[n], g.start[n], run, g.net.nodes[m], g.start[m], run', g.batch, p, g.restarts);
  }

  /** On a connected network that started out in agreement, once every message of
      a funded batch has been delivered, every node has applied the whole batch,
      and every two nodes agree on every balance (if nodes may restart, on every
      balance but that of a command center, which a start may fund). */
  lemma {:induction false} NetworkAgrees(g: Setting, steps: seq<Step>, w: World, n: Peer, m: Peer, p: string)
    requires Placed(g) && Payable(g) && Connected(g.net) && IsRun(g, Opening(g), steps, w) && Quiet(g, w)
    requires n in g.net.nodes && m in g.net.nodes
    requires Account(g.start[n].mem, p).balance == Account(g.start[m].mem, p).balance
    requires g.restarts ==> CannotBeFunded(g.net.nodes[n], p) && CannotBeFunded(g.net.nodes[m], p)
    ensures w.nodes.Keys == w.inbox.Keys == g.net.nodes.Keys
    ensures forall tx :: tx in Accepted(g.net.nodes[n], g.start[n], w.inbox[n]) <==> tx in g.batch
    ensures Account(w.nodes[n].mem, p).balance == Account(w.nodes[m].mem, p).balance
  {
    OpeningKept(g);
    RunKeeps(g, Opening(g), steps, w);
    NodeHasAll(g, w, n);
    NodeHasAll(g, w, m);
    assert FundedAt(g, n) && FundedAt(g, m);
    TwoNodesAgree(g, n, w.nodes[n], w.inbox[n], m, w.nodes[m], w.inbox[m], w.clock, p);
  }
}
