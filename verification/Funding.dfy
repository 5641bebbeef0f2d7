/** Which batches of payments a replica is sure to apply in full, and when the
    order of two payments decides. */
module Funding {
  import opened LedgerSpec
  import opened NodeRuns
  import opened Histories
  import opened Replicas
  import opened Sequences

  /** A run that only carries payments of the batch, within one replay window. */
  predicate Carried(cfg: Config, run: seq<Event>, batch: seq<Transaction>, restarts: bool) {
    Clocked(run) && Short(run) && Steady(cfg, run, restarts) && Carries(run, batch)
  }

  predicate CarriesAll(cfg: Config, run: seq<Event>, batch: seq<Transaction>, restarts: bool) {
    Carried(cfg, run, batch, restarts) && forall tx :: tx in batch ==> Arrives(run, tx)
  }

  /** Whatever arrives, in whatever order, is applied. */
  ghost predicate AppliesArrivals(cfg: Config, s: NodeState, batch: seq<Transaction>, restarts: bool) {
    forall run, tx :: Carried(cfg, run, batch, restarts) && Arrives(run, tx) ==> tx in Accepted(cfg, s, run)
  }

  /** Whenever all of it has arrived, all of it was applied. */
  ghost predicate AppliesWhole(cfg: Config, s: NodeState, batch: seq<Transaction>, restarts: bool) {
    forall run, tx :: CarriesAll(cfg, run, batch, restarts) && tx in batch ==> tx in Accepted(cfg, s, run)
  }

  // ----- deliveries one after the other

  function Deliveries(txs: seq<Transaction>): (run: seq<Event>)
    ensures |run| == |txs| && forall i :: 0 <= i < |txs| ==> run[i] == Event(1, Receive(txs[i], true))
  {
    seq(|txs|, i requires 0 <= i < |txs| => Event(1, Receive(txs[i], true)))
  }

  lemma DeliveriesCarry(cfg: Config, txs: seq<Transaction>, batch: seq<Transaction>, restarts: bool)
    requires forall tx :: tx in txs ==> tx in batch
    ensures Carried(cfg, Deliveries(txs), batch, restarts)
    ensures forall tx :: tx in txs ==> Arrives(Deliveries(txs), tx)
  {
    forall tx | tx in txs
      ensures Arrives(Deliveries(txs), tx)
    {
      var i :| 0 <= i < |txs| && txs[i] == tx;
      assert Deliveries(txs)[i].op.tx == tx;
    }
  }

  lemma DeliverOneMore(cfg: Config, s: NodeState, txs: seq<Transaction>, tx: Transaction)
    ensures var run, run' := Deliveries(txs), Deliveries(txs + [tx]);
      && Exec(cfg, s, run') == Next(cfg, Exec(cfg, s, run), Event(1, Receive(tx, true)))
      && Accepted(cfg, s, run') == Accepted(cfg, s, run)
         + if Decide(cfg, Exec(cfg, s, run).mem, tx, true) == Applied then [tx] else []
  {
    var run, run' := Deliveries(txs), Deliveries(txs + [tx]);
    assert Butlast(run') == run && Last(run') == Event(1, Receive(tx, true));
    AcceptedStep(cfg, s, run');
    OnePosted(cfg, Exec(cfg, s, run), Last(run'), "");
  }

  /** Later deliveries can only add themselves. */
  lemma {:induction false} AcceptedLater(cfg: Config, s: NodeState, before: seq<Transaction>, later: seq<Transaction>)
    ensures forall tx :: tx in Accepted(cfg, s, Deliveries(before + later)) ==>
      tx in Accepted(cfg, s, Deliveries(before)) || tx in later
  {
    if later == [] {
      assert before + later == before;
    } else {
      AcceptedLater(cfg, s, before, Butlast(later));
      assert before + later == before + Butlast(later) + [Last(later)];
      DeliverOneMore(cfg, s, before + Butlast(later), Last(later));
    }
  }

  /** The account's rating will not change any more. */
  predicate Rated(cfg: Config, s: NodeState, p: string) {
    p in s.mem.accounts || !cfg.isCommandCenter
  }

  /** A payer's own payments, delivered alone, take it down to what is left. */
  lemma {:induction false} OwnDeliveries(cfg: Config, s: NodeState, txs: seq<Transaction>, p: string)
    requires Settled(s) && Rated(cfg, s, p) && !IsOracle(cfg, p) && Accepted(cfg, s, Deliveries(txs)) == txs
    requires forall tx :: tx in txs ==> tx.from == p && tx.to != p
    ensures var a := Account(Exec(cfg, s, Deliveries(txs)).mem, p);
      a.balance + a.rating * 2.0 == Means(cfg, s, p, false) - Outgoing(txs, p)
  {
    DeliveriesCarry(cfg, txs, txs, false);
    BalanceFollowsLog(cfg, s, Deliveries(txs), p, Account(s.mem, p).balance);
    RatingsStay(cfg, s, Deliveries(txs), p);
    NetOfOutgoing(txs, p);
  }

  lemma {:induction false} NetOfOutgoing(txs: seq<Transaction>, p: string)
    requires forall tx :: tx in txs ==> tx.from == p && tx.to != p
    ensures Net(txs, p) == -Outgoing(txs, p)
  {
    if txs != [] {
      assert txs == Butlast(txs) + [Last(txs)];
      NetOfOutgoing(Butlast(txs), p);
    }
  }

  lemma {:induction false} LastIsRefused(cfg: Config, s: NodeState, txs: seq<Transaction>, tx: Transaction, p: string)
    requires Settled(s) && Rated(cfg, s, p) && !IsOracle(cfg, p) && Accepted(cfg, s, Deliveries(txs)) == txs
    requires tx.from == p && forall t :: t in txs ==> t.from == p && t.to != p
    requires Means(cfg, s, p, false) < Outgoing(txs, p) + tx.amount
    ensures Decide(cfg, Exec(cfg, s, Deliveries(txs)).mem, tx, true) != Applied
  {
    OwnDeliveries(cfg, s, txs, p);
  }

  /** If a payer's payments exceed its means, the first that is refused. */
  lemma {:induction false} FirstRefused(cfg: Config, s: NodeState, txs: seq<Transaction>, p: string, k: nat)
    returns (n: nat)
    requires Settled(s) && Rated(cfg, s, p) && !IsOracle(cfg, p)
    requires txs != [] && Last(txs).from == p && forall tx :: tx in Butlast(txs) ==> tx.from == p && tx.to != p
    requires Means(cfg, s, p, false) < Outgoing(Butlast(txs), p) + Last(txs).amount
    requires k < |txs| && Accepted(cfg, s, Deliveries(txs[..k])) == txs[..k]
    ensures n < |txs| && Accepted(cfg, s, Deliveries(txs[..n])) == txs[..n]
    ensures Decide(cfg, Exec(cfg, s, Deliveries(txs[..n])).mem, txs[n], true) != Applied
    decreases |txs| - k
  {
    if k == |txs| - 1 {
      LastIsRefused(cfg, s, Butlast(txs), Last(txs), p);
      n := k;
    } else if Decide(cfg, Exec(cfg, s, Deliveries(txs[..k])).mem, txs[k], true) != Applied {
      n := k;
    } else {
      assert txs[..k + 1] == txs[..k] + [txs[k]];
      DeliverOneMore(cfg, s, txs[..k], txs[k]);
      n := FirstRefused(cfg, s, txs, p, k + 1);
    }
  }

  /** The payments of `p` to others. */
  function PaidBy(txs: seq<Transaction>, p: string): seq<Transaction> {
    if txs == [] then []
    else PaidBy(Butlast(txs), p) + if Last(txs).from == p && Last(txs).to != p then [Last(txs)] else []
  }

  lemma {:induction false} InPaidBy(txs: seq<Transaction>, p: string)
    ensures forall tx :: tx in PaidBy(txs, p) <==> tx in txs && tx.from == p && tx.to != p
  {
    if txs != [] {
      assert txs == Butlast(txs) + [Last(txs)];
      InPaidBy(Butlast(txs), p);
    }
  }

  lemma {:induction false} PaidByDistinct(txs: seq<Transaction>, p: string)
    requires Distinct(txs)
    ensures Distinct(PaidBy(txs, p))
  {
    if txs != [] {
      InPaidBy(Butlast(txs), p);
      PaidByDistinct(Butlast(txs), p);
    }
  }

  lemma {:induction false} OutgoingPaidBy(txs: seq<Transaction>, p: string)
    ensures Outgoing(PaidBy(txs, p), p) == Outgoing(txs, p)
  {
    if txs != [] {
      OutgoingPaidBy(Butlast(txs), p);
      OutgoingConcat(
        PaidBy(Butlast(txs), p), if Last(txs).from == p && Last(txs).to != p then [Last(txs)] else [], p);
    }
  }

  lemma {:induction false} OwnPayments(batch: seq<Transaction>, p: string)
    ensures var own := PaidBy(Once(batch), p);
      && Distinct(own) && Outgoing(own, p) == Outgoing(Once(batch), p)
      && forall t :: t in own <==> t in batch && t.from == p && t.to != p
  {
    InPaidBy(Once(batch), p);
    PaidByDistinct(Once(batch), p);
    OutgoingPaidBy(Once(batch), p);
  }

  lemma OutgoingLast(txs: seq<Transaction>, p: string)
    requires txs != [] && forall t :: t in txs ==> t.from == p && t.to != p
    ensures Outgoing(Butlast(txs), p) + Last(txs).amount == Outgoing(txs, p)
  {
    assert Last(txs) in txs;
  }

  /** The payments of one payer in the order that shows the lack: a payment to
      itself comes last. */
  lemma {:induction false} LackingOrder(batch: seq<Transaction>, tx: Transaction) returns (txs: seq<Transaction>)
    requires tx in batch
    ensures txs != [] && Distinct(txs) && Last(txs).from == tx.from
    ensures forall t :: t in txs ==> t in batch
    ensures forall t :: t in Butlast(txs) ==> t.from == tx.from && t.to != tx.from
    ensures Outgoing(Butlast(txs), tx.from) + Last(txs).amount == Needs(Once(batch), tx)
  {
    var own := PaidBy(Once(batch), tx.from);
    OwnPayments(batch, tx.from);
    if tx.from == tx.to {
      txs := own + [tx];
      assert Butlast(txs) == own;
    } else {
      txs := own;
      assert tx in own && Last(own) in own;
      OutgoingLast(own, tx.from);
      forall t | t in Butlast(own)
        ensures t in own
      {
        assert own == Butlast(own) + [Last(own)];
      }
    }
  }

  /** A payment that cannot be afforded: an order of the whole batch in which one
      payment is refused. */
  lemma {:induction false} RefusedOrder(cfg: Config, s: NodeState, batch: seq<Transaction>, tx: Transaction)
    returns (order: seq<Transaction>, lost: Transaction)
    requires Settled(s) && tx in batch && Rated(cfg, s, tx.from)
    requires !CanCover(cfg, s, tx.from, Needs(Once(batch), tx), false)
    ensures lost in batch && lost !in Accepted(cfg, s, Deliveries(order))
    ensures forall t :: t in order <==> t in batch
  {
    var txs := LackingOrder(batch, tx);
    assert Accepted(cfg, s, Deliveries(txs[..0])) == [];
    var n := FirstRefused(cfg, s, txs, tx.from, 0);
    lost := txs[n];
    assert Distinct(txs[..n + 1]) && txs[..n + 1] == txs[..n] + [lost];
    order := txs[..n + 1] + Without(batch, txs[..n + 1]);
    LostForGood(cfg, s, txs[..n], lost, Without(batch, txs[..n + 1]));
  }

  /** A payment that is refused and does not come again is lost. */
  lemma {:induction false} LostForGood(
    cfg: Config, s: NodeState, before: seq<Transaction>, lost: Transaction, later: seq<Transaction>)
    requires Accepted(cfg, s, Deliveries(before)) == before && lost !in before && lost !in later
    requires Decide(cfg, Exec(cfg, s, Deliveries(before)).mem, lost, true) != Applied
    ensures lost !in Accepted(cfg, s, Deliveries(before + [lost] + later))
  {
    DeliverOneMore(cfg, s, before, lost);
    AcceptedLater(cfg, s, before + [lost], later);
  }

  // ----- what can happen first

  lemma {:induction false} ExecConcat(cfg: Config, s: NodeState, before: seq<Event>, run: seq<Event>)
    ensures Exec(cfg, s, before + run) == Exec(cfg, Exec(cfg, s, before), run)
  {
    if run == [] {
      assert before + run == before;
    } else {
      assert Butlast(before + run) == before + Butlast(run);
      ExecConcat(cfg, s, before, Butlast(run));
    }
  }

  lemma {:induction false} AcceptedConcat(cfg: Config, s: NodeState, before: seq<Event>, run: seq<Event>)
    ensures Accepted(cfg, s, before + run) == Accepted(cfg, s, before) + Accepted(cfg, Exec(cfg, s, before), run)
  {
    if run == [] {
      assert before + run == before;
    } else {
      assert Butlast(before + run) == before + Butlast(run);
      AcceptedConcat(cfg, s, before, Butlast(run));
      ExecConcat(cfg, s, before, Butlast(run));
      AcceptedStep(cfg, s, before + run);
      AcceptedStep(cfg, Exec(cfg, s, before), run);
    }
  }

  /** Steps at the same moment as the deliveries that receive nothing. */
  predicate Prelude(cfg: Config, run: seq<Event>, restarts: bool) {
    Steady(cfg, run, restarts) && forall i :: 0 <= i < |run| ==> run[i].now == 1 && !run[i].op.Receive?
  }

  lemma {:induction false} PreludeAccepts(cfg: Config, s: NodeState, run: seq<Event>, restarts: bool)
    requires Prelude(cfg, run, restarts)
    ensures Accepted(cfg, s, run) == []
  {
    if run != [] {
      PreludeAccepts(cfg, s, Butlast(run), restarts);
      assert !run[|run| - 1].op.Receive?;
      AcceptedStep(cfg, s, run);
    }
  }

  lemma PreludeRuns(cfg: Config, before: seq<Event>, txs: seq<Transaction>, batch: seq<Transaction>, restarts: bool)
    requires Prelude(cfg, before, restarts) && forall tx :: tx in txs ==> tx in batch
    ensures Carried(cfg, before + Deliveries(txs), batch, restarts)
  {
    var run := before + Deliveries(txs);
    forall i | 0 <= i < |run|
      ensures run[i].now == 1 && Calm(cfg, run[i], restarts)
      ensures run[i].op.Receive? ==> run[i].op.verified && run[i].op.tx in batch
    {
      assert i >= |before| ==> run[i] == Deliveries(txs)[i - |before|] && txs[i - |before|] in txs;
    }
  }

  lemma {:induction false} PreludeCarries(
    cfg: Config, before: seq<Event>, txs: seq<Transaction>, batch: seq<Transaction>, restarts: bool)
    requires Prelude(cfg, before, restarts) && forall tx :: tx in txs <==> tx in batch
    ensures CarriesAll(cfg, before + Deliveries(txs), batch, restarts)
  {
    var run := before + Deliveries(txs);
    PreludeRuns(cfg, before, txs, batch, restarts);
    forall tx | tx in batch
      ensures Arrives(run, tx)
    {
      var i :| 0 <= i < |txs| && txs[i] == tx;
      assert run[|before| + i] == Deliveries(txs)[i];
    }
  }

  /** The faucet of a command center opens an account first, without a rating. */
  lemma {:induction false} FaucetFirst(cfg: Config, s: NodeState, p: string) returns (run: seq<Event>)
    requires Settled(s) && !IsOracle(cfg, p)
    ensures Prelude(cfg, run, false)
    ensures var s' := Exec(cfg, s, run);
      && Settled(s') && Rated(cfg, s', p) && Means(cfg, s', p, false) == Means(cfg, s, p, false)
      && Account(s'.mem, p).balance == Account(s.mem, p).balance
  {
    if Rated(cfg, s, p) {
      run := [];
    } else {
      run := [Event(1, OpenFaucet(p))];
      assert Butlast(run) == [];
      assert Exec(cfg, s, run) == Next(cfg, s, Event(1, OpenFaucet(p)));
    }
  }

  lemma {:induction false} RestartFirst(cfg: Config, s: NodeState, p: string)
    requires Settled(s) && !IsOracle(cfg, p)
    ensures var s' := Next(cfg, s, Event(1, Restart));
      && Settled(s') && Account(s'.mem, p).balance == Account(s.mem, p).balance
      && Rating(cfg, s'.mem, p) == Rating(cfg, RepairAll(s.disk), p)
  {
    LoadedAccount(cfg, s.disk, p);
    forall q
      ensures Account(Next(cfg, s, Event(1, Restart)).disk, q).balance
           == Account(Next(cfg, s, Event(1, Restart)).mem, q).balance
    {
      LoadedBalance(cfg, s.disk, q);
    }
  }

  lemma LoadedBalance(cfg: Config, disk: Ledger, p: string)
    ensures cfg.selfID in disk.accounts && !NeedsTopUp(cfg, RepairAll(disk)) ==>
      Account(Load(cfg, disk), p).balance == Account(disk, p).balance
  {
  }

  /** The start from which a payer has the least to spend. */
  lemma {:induction false} WorstStart(cfg: Config, s: NodeState, p: string, restarts: bool) returns (run: seq<Event>)
    requires Settled(s) && !IsOracle(cfg, p)
    ensures Prelude(cfg, run, restarts)
    ensures var s' := Exec(cfg, s, run);
      Settled(s') && Rated(cfg, s', p) && Means(cfg, s', p, false) == Means(cfg, s, p, restarts)
  {
    if restarts && Rating(cfg, RepairAll(s.disk), p) < Rating(cfg, s.mem, p) {
      var restart := [Event(1, Restart)];
      assert Butlast(restart) == [];
      assert Exec(cfg, s, restart) == Next(cfg, s, Event(1, Restart));
      RestartFirst(cfg, s, p);
      var more := FaucetFirst(cfg, Next(cfg, s, Event(1, Restart)), p);
      ExecConcat(cfg, s, restart, more);
      run := restart + more;
    } else {
      run := FaucetFirst(cfg, s, p);
    }
  }

  /** Some run delivers the whole batch and does not apply it all. */
  lemma {:induction false} LackingRun(
    cfg: Config, s: NodeState, batch: seq<Transaction>, tx: Transaction, restarts: bool)
    returns (run: seq<Event>, lost: Transaction)
    requires Settled(s) && tx in batch && !CanCover(cfg, s, tx.from, Needs(Once(batch), tx), restarts)
    ensures CarriesAll(cfg, run, batch, restarts) && lost in batch && lost !in Accepted(cfg, s, run)
  {
    var before := WorstStart(cfg, s, tx.from, restarts);
    var order;
    order, lost := RefusedOrder(cfg, Exec(cfg, s, before), batch, tx);
    run := before + Deliveries(order);
    PreludeCarries(cfg, before, order, batch, restarts);
    PreludeAccepts(cfg, s, before, restarts);
    AcceptedConcat(cfg, s, before, Deliveries(order));
  }

  /** The condition is exact. A sound batch is applied in full, whatever the order,
      the repeats and the steps in between, if and only if every payer can cover
      what it sends; and if one cannot, there is a run in which the whole batch
      arrives and a payment is lost. With restarts and without. */
  lemma {:induction false} AppliesIfAndOnlyIfAffordable(
    cfg: Config, s: NodeState, batch: seq<Transaction>, restarts: bool)
    requires Settled(s) && Sound(s, batch, restarts)
    ensures AppliesArrivals(cfg, s, batch, restarts) <==> Affordable(cfg, s, batch, restarts)
    ensures AppliesWhole(cfg, s, batch, restarts) <==> Affordable(cfg, s, batch, restarts)
  {
    if Affordable(cfg, s, batch, restarts) {
      forall run: seq<Event>, tx | Carried(cfg, run, batch, restarts) && Arrives(run, tx)
        ensures tx in Accepted(cfg, s, run)
      {
        var i :| 0 <= i < |run| && run[i].op.Receive? && run[i].op.tx == tx;
        FundedBatchApplies(cfg, s, run, batch, i, restarts);
      }
    } else {
      var tx :| tx in batch && !CanCover(cfg, s, tx.from, Needs(Once(batch), tx), restarts);
      var run, lost := LackingRun(cfg, s, batch, tx, restarts);
      assert Arrives(run, lost);
    }
  }

  // ----- two payments

  /** `two` is paid by the payee of `one`. Whether it is applied depends on which
      comes first if and only if it takes the other payment to cover it; and then
      the balance depends on it too, unless it pays nothing. */
  lemma {:induction false} OrderMattersIff(
    cfg: Config, l: Ledger, one: Transaction, two: Transaction, now: int, later: int)
    requires one.to == two.from != one.from && two.to != two.from && !IsOracle(cfg, two.from)
    requires one.id != two.id && one.amount >= 0.0 && two.amount >= 0.0
    requires Decide(cfg, l, one, true) == Applied && !HasSeen(l, two)
    ensures var p := two.from;
      var credit := Account(l, p).balance + Account(l, p).rating * 2.0;
      var inOrder := Process(cfg, Process(cfg, l, one, true, now), two, true, later);
      var swapped := Process(cfg, Process(cfg, l, two, true, now), one, true, later);
      && (Decide(cfg, Process(cfg, l, one, true, now), two, true) != Decide(cfg, l, two, true)
          <==> credit < two.amount <= credit + one.amount)
      && (Account(inOrder, p).balance != Account(swapped, p).balance
          <==> credit < two.amount <= credit + one.amount && two.amount != 0.0)
  {
    var l1, l2 := Process(cfg, l, one, true, now), Process(cfg, l, two, true, now);
    forall p | Involves(one, p) || Involves(two, p)
      ensures Account(l1, p) == if Involves(one, p) then Post(cfg, Account(l, p), p, one, now) else Account(l, p)
    {
      ProcessedAccount(cfg, l, one, true, now, p);
    }
    ProcessedAccount(cfg, l, two, true, now, one.from);
    ProcessedAccount(cfg, l, two, true, now, one.to);
    ProcessedAccount(cfg, l1, two, true, later, two.from);
    ProcessedAccount(cfg, l2, one, true, later, two.from);
  }

  /** For example: the same two payments, one of them paid out of the other, leave
      different balances. */
  lemma OrderCanMatter(cfg: Config)
    requires !IsOracle(cfg, "a") && !IsOracle(cfg, "b")
    ensures var one := Transaction("tx-1", "a", "b", 10.0, 1, "");
      var two := Transaction("tx-2", "b", "c", 20.0, 2, "");
      var l := Ledger(map[], map[]);
      && Account(Process(cfg, Process(cfg, l, one, true, 1), two, true, 2), "b").balance == -10.0
      && Account(Process(cfg, Process(cfg, l, two, true, 1), one, true, 2), "b").balance == 10.0
  {
  }
}
