/** The stream handler's part in the gossip. */
module Protocol {
  import opened LedgerSpec
  import opened NodeRuns
  import opened Economy
  import A = Agreement
  import G = Gossip
  import opened Sequences

  /** The connected peers but the payer. */
  function Others(connected: seq<string>, tx: Transaction): set<string> {
    (set p | p in connected) - {tx.from}
  }

  lemma OthersStep(connected: seq<string>, i: nat, tx: Transaction)
    requires i < |connected| && Distinct(connected)
    ensures connected[i] !in Others(connected[..i], tx)
    ensures Others(connected[..i + 1], tx)
         == Others(connected[..i], tx) + if connected[i] == tx.from then {} else {connected[i]}
  {
  }

  /** One message for each of them. */
  method Broadcast(connected: seq<string>, tx: Transaction) returns (sent: seq<string>)
    requires Distinct(connected)
    ensures multiset(sent) == multiset(Others(connected, tx))
    ensures forall p :: multiset(sent)[p] == if p in connected && p != tx.from then 1 else 0
  {
    sent := [];
    for i := 0 to |connected|
      invariant multiset(sent) == multiset(Others(connected[..i], tx))
    {
      OthersStep(connected, i, tx);
      if connected[i] == tx.from {
        continue;
      }
      sent := sent + [connected[i]];
    }
    assert connected[..|connected|] == connected;
  }

  /** An incoming transaction, if the message could be decoded: the answer says
      whether it was refused, and only a new one is passed on. This is the step that
      the gossip model takes. */
  method HandleEconomyTx(
    em: EconomyManager, message: Option<Transaction>, verified: bool, now: int, connected: seq<string>)
    returns (status: int, sent: seq<string>)
    requires em.Valid() && Distinct(connected)
    modifies em`accounts, em`records, em`prepaidTraffic, em`disk, em`ledger, em.records
    ensures em.Valid() && fresh(em.records - old(em.records))
    ensures message == None ==> status == 400 && sent == [] && em.State() == old(em.State())
    ensures message.Some? ==>
      var outcome := Decide(em.cfg, old(em.ledger), message.value, verified);
      && em.State() == Next(em.cfg, old(em.State()), Event(now, Receive(message.value, verified)))
      && status == (if outcome == Rejected then 400 else 200)
      && multiset(sent) == multiset(if outcome == Applied then Others(connected, message.value) else {})
  {
    sent := [];
    if message == None {
      return 400, sent;
    }
    var outcome := em.ProcessTransaction(message.value, verified, now);
    if outcome == Rejected {
      return 400, sent;
    }
    if outcome == Applied {
      sent := Broadcast(connected, message.value);
    }
    return 200, sent;
  }

  // ----- the gossip model sends the same

  /** The peers connected to a node. */
  ghost predicate Connects(net: G.Network, n: string, connected: seq<string>) {
    n in net.peers && Distinct(connected) && forall p :: p in connected <==> p in net.peers[n]
  }

  lemma OthersAreTargets(net: G.Network, n: string, connected: seq<string>, tx: Transaction)
    requires Connects(net, n, connected)
    ensures Others(connected, tx) == G.Targets(net, tx, n)
  {
  }

  /** What the handler sends is what the network model puts under way: `sent` and the
      node's new state are what `HandleEconomyTx` promises for the message. */
  lemma {:induction false} HandlerFeedsGossip(
    net: G.Network, tx: Transaction, s: G.State, n: string, verified: bool, now: int, connected: seq<string>,
    sent: seq<string>)
    requires G.Valid(net, s) && n in net.nodes && Connects(net, n, connected)
    requires multiset(sent) == multiset(
      if Decide(net.nodes[n], s.nodes[n].mem, tx, verified) == Applied then Others(connected, tx) else {})
    ensures var s' := G.Handle(net, tx, s, n, verified, now);
      && s'.flight == s.flight + multiset(sent)
      && s'.nodes == s.nodes[n := Next(net.nodes[n], s.nodes[n], Event(now, Receive(tx, verified)))]
  {
    OthersAreTargets(net, n, connected, tx);
  }

  /** The same for the network that gossips a batch. */
  lemma {:induction false} HandlerFeedsNetwork(
    g: A.Setting, w: A.World, n: string, tx: Transaction, now: int, connected: seq<string>, sent: seq<string>)
    requires A.Enabled(g, w, A.Deliver(n, tx, now)) && Connects(g.net, n, connected)
    requires multiset(sent) == multiset(
      if Decide(g.net.nodes[n], w.nodes[n].mem, tx, true) == Applied then Others(connected, tx) else {})
    ensures var w' := A.Do(g, w, A.Deliver(n, tx, now));
      && w'.flight == w.flight[tx := w.flight[tx] - multiset{n} + multiset(sent)]
      && w'.nodes == w.nodes[n := Next(g.net.nodes[n], w.nodes[n], Event(now, Receive(tx, true)))]
  {
    OthersAreTargets(g.net, n, connected, tx);
    var left := w.flight[tx] - multiset{n};
    assert left + multiset({}) == left;
  }
}
