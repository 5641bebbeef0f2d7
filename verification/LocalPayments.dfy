/** Local payments check the balance in one critical section and are applied in
    another. What several of them that all passed the check can do together. */
module LocalPayments {
  import opened LedgerSpec
  import opened NodeRuns
  import opened Histories
  import opened Replicas
  import opened Funding
  import opened Sequences
  import ReplayWindow
  import Text

  lemma LocalIDs(cfg: Config, to: string, amount: real, comment: string, ms: int,
                 to': string, amount': real, comment': string, ms': int)
    ensures LocalTransaction(cfg, to, amount, comment, ms).id == LocalTransaction(cfg, to', amount', comment', ms').id
       <==> ms == ms'
  {
    var one, two := LocalTransaction(cfg, to, amount, comment, ms), LocalTransaction(cfg, to', amount', comment', ms');
    assert one.id[3..] == Text.Decimal(ms) && two.id[3..] == Text.Decimal(ms');
    if one.id == two.id {
      Text.DecimalIsInjective(ms, ms');
    }
  }

  /** A payment of this node to somebody else. */
  predicate IsOwn(cfg: Config, tx: Transaction) {
    tx.from == cfg.selfID && tx.to != cfg.selfID && tx.amount >= 0.0
  }

  /** Payments that have passed the balance check, each against the same balance,
      and wait to be applied. */
  predicate Pending(cfg: Config, s: NodeState, txs: seq<Transaction>) {
    && (forall tx :: tx in txs ==> IsOwn(cfg, tx) && CanPay(cfg, s.mem, tx.amount) && !HasSeen(s.mem, tx))
    && forall a, b :: a in txs && b in txs && a.id == b.id ==> a == b
  }

  /** Some of `txs`, each once. */
  predicate Part(part: seq<Transaction>, txs: seq<Transaction>) {
    Distinct(part) && forall tx :: tx in part ==> tx in txs
  }

  function OwnBalance(cfg: Config, s: NodeState, run: seq<Event>): real {
    Account(Exec(cfg, s, run).mem, cfg.selfID).balance
  }

  /** More than the balance, and not more than the balance and the credit line. */
  predicate Overdraws(cfg: Config, s: NodeState, part: seq<Transaction>) {
    var total := Outgoing(part, cfg.selfID);
    Account(s.mem, cfg.selfID).balance < total && CanCover(cfg, s, cfg.selfID, total, false)
  }

  /** What was applied is some of the payments, and the balance is what they leave. */
  lemma {:induction false} OwnAccepted(cfg: Config, s: NodeState, txs: seq<Transaction>, run: seq<Event>)
    requires Settled(s) && Pending(cfg, s, txs) && Carried(cfg, run, txs, false)
    ensures Part(Accepted(cfg, s, run), txs)
    ensures OwnBalance(cfg, s, run) == Account(s.mem, cfg.selfID).balance - Outgoing(Accepted(cfg, s, run), cfg.selfID)
  {
    AppliedOnce(cfg, s, run);
    AcceptedInBatch(cfg, s, run, txs);
    NetOfOutgoing(Accepted(cfg, s, run), cfg.selfID);
    BalanceFollowsLog(cfg, s, run, cfg.selfID, Account(s.mem, cfg.selfID).balance);
  }

  /** A payment that is applied stays within what is left of the means. */
  lemma {:induction false} OneMoreWithinMeans(
    cfg: Config, s: NodeState, txs: seq<Transaction>, run: seq<Event>, tx: Transaction)
    requires Settled(s) && Pending(cfg, s, txs) && Carried(cfg, run, txs, false) && cfg.selfID in s.mem.accounts
    requires tx in txs && Decide(cfg, Exec(cfg, s, run).mem, tx, true) == Applied
    ensures CanCover(cfg, s, cfg.selfID, Outgoing(Accepted(cfg, s, run) + [tx], cfg.selfID), false)
  {
    OwnAccepted(cfg, s, txs, run);
    RatingsStay(cfg, s, run, cfg.selfID);
    assert Butlast(Accepted(cfg, s, run) + [tx]) == Accepted(cfg, s, run);
  }

  lemma {:induction false} AcceptedWithinMeans(cfg: Config, s: NodeState, txs: seq<Transaction>, run: seq<Event>)
    requires Settled(s) && Pending(cfg, s, txs) && Carried(cfg, run, txs, false)
    requires cfg.selfID in s.mem.accounts && Means(cfg, s, cfg.selfID, false) >= 0.0
    ensures CanCover(cfg, s, cfg.selfID, Outgoing(Accepted(cfg, s, run), cfg.selfID), false)
  {
    if run != [] {
      var before, e := Butlast(run), Last(run);
      assert e == run[|run| - 1];
      CarriedBefore(cfg, run, txs);
      AcceptedWithinMeans(cfg, s, txs, before);
      AcceptedStep(cfg, s, run);
      OnePosted(cfg, Exec(cfg, s, before), e, "");
      if Posted(cfg, Exec(cfg, s, before), e) != [] {
        OneMoreWithinMeans(cfg, s, txs, before, e.op.tx);
      } else {
        assert Accepted(cfg, s, run) == Accepted(cfg, s, before);
      }
    }
  }

  lemma CarriedBefore(cfg: Config, run: seq<Event>, txs: seq<Transaction>)
    requires run != [] && Carried(cfg, run, txs, false)
    ensures Carried(cfg, Butlast(run), txs, false)
  {
  }

  /** Payments that together stay within the credit line are all applied. */
  lemma {:induction false} AllApplied(cfg: Config, s: NodeState, txs: seq<Transaction>, part: seq<Transaction>)
    requires Settled(s) && Pending(cfg, s, txs) && Part(part, txs)
    requires CanCover(cfg, s, cfg.selfID, Outgoing(part, cfg.selfID), false)
    ensures forall tx :: tx in part ==> tx in Accepted(cfg, s, Deliveries(part))
  {
    OutgoingMonotone(Once(part), part, cfg.selfID);
    DeliveriesCarry(cfg, part, part, false);
    BatchApplies(cfg, s, Deliveries(part), part, false);
  }

  /** The exact condition, for any number of payments: payments that all passed the
      balance check can take the balance below zero, in some run that carries
      nothing else, if and only if some of them together cost more than the balance
      but not more than the balance and the credit line. */
  lemma {:induction false} PendingCanOverdraw(cfg: Config, s: NodeState, txs: seq<Transaction>)
    requires Settled(s) && Pending(cfg, s, txs) && txs != [] && Account(s.mem, cfg.selfID).rating >= 0.0
    ensures (exists run :: Carried(cfg, run, txs, false) && OwnBalance(cfg, s, run) < 0.0)
       <==> exists part :: Part(part, txs) && Overdraws(cfg, s, part)
  {
    assert txs[0] in txs;
    if run :| Carried(cfg, run, txs, false) && OwnBalance(cfg, s, run) < 0.0 {
      OwnAccepted(cfg, s, txs, run);
      AcceptedWithinMeans(cfg, s, txs, run);
      assert Overdraws(cfg, s, Accepted(cfg, s, run));
    }
    if part :| Part(part, txs) && Overdraws(cfg, s, part) {
      var run := Deliveries(part);
      DeliveriesCarry(cfg, part, txs, false);
      AllApplied(cfg, s, txs, part);
      OwnAccepted(cfg, s, txs, run);
      OutgoingMonotone(part, Accepted(cfg, s, run), cfg.selfID);
      assert OwnBalance(cfg, s, run) < 0.0;
    }
  }

  /** Two payments: both go through, and overdraw the account, if and only if they
      cost more than the balance together and the credit line covers them. */
  lemma {:induction false} PairOverdraws(
    cfg: Config, l: Ledger, to: string, x: real, comment: string, ms: int,
    to': string, y: real, comment': string, ms': int, now: int, later: int)
    requires CanPay(cfg, l, x) && CanPay(cfg, l, y) && x >= 0.0 && y >= 0.0
    requires to != cfg.selfID && to' != cfg.selfID && ms != ms' && l.accounts[cfg.selfID].rating >= 0.0
    requires !HasSeen(l, LocalTransaction(cfg, to, x, comment, ms))
    requires !HasSeen(l, LocalTransaction(cfg, to', y, comment', ms'))
    ensures var one, two := LocalTransaction(cfg, to, x, comment, ms), LocalTransaction(cfg, to', y, comment', ms');
      var b, r := l.accounts[cfg.selfID].balance, l.accounts[cfg.selfID].rating;
      Account(Process(cfg, Process(cfg, l, one, true, now), two, true, later), cfg.selfID).balance < 0.0
      <==> b < x + y && (IsOracle(cfg, cfg.selfID) || x + y <= b + r * 2.0)
  {
    var one, two := LocalTransaction(cfg, to, x, comment, ms), LocalTransaction(cfg, to', y, comment', ms');
    var l1 := Process(cfg, l, one, true, now);
    LocalIDs(cfg, to, x, comment, ms, to', y, comment', ms');
    ProcessedAccount(cfg, l, one, true, now, cfg.selfID);
    ProcessedAccount(cfg, l, one, true, now, to');
    ProcessedAccount(cfg, l1, two, true, later, cfg.selfID);
  }

  /** For example: two payments of the whole balance. */
  lemma LocalCheckCanBeOutrun(cfg: Config)
    requires cfg.selfID == "me" && !IsOracle(cfg, "me")
    ensures var l := Ledger(map["me" := AccountState(10.0, 5.0, [], map[])], map[]);
      var one := LocalTransaction(cfg, "a", 10.0, "", 1);
      var two := LocalTransaction(cfg, "b", 10.0, "", 2);
      && CanPay(cfg, l, one.amount) && CanPay(cfg, l, two.amount)
      && Account(Process(cfg, Process(cfg, l, one, true, 1), two, true, 2), "me").balance == -10.0
  {
    var l := Ledger(map["me" := AccountState(10.0, 5.0, [], map[])], map[]);
    var one := LocalTransaction(cfg, "a", 10.0, "", 1);
    var two := LocalTransaction(cfg, "b", 10.0, "", 2);
    var l1 := Process(cfg, l, one, true, 1);
    LocalIDs(cfg, "a", 10.0, "", 1, "b", 10.0, "", 2);
    ProcessedAccount(cfg, l, one, true, 1, "me");
    ProcessedAccount(cfg, l, one, true, 1, "b");
    ProcessedAccount(cfg, l1, two, true, 2, "me");
  }

  /** The ID of a local payment is its millisecond, so a second one of the same
      millisecond is a duplicate: although the caller gets it back as sent, it is
      never applied, at least as long as the first is remembered. */
  lemma {:induction false} SameMillisecondIsLost(
    cfg: Config, s: NodeState, run: seq<Event>, i: nat,
    to: string, amount: real, comment: string, to': string, amount': real, comment': string, ms: int)
    requires Clocked(run) && i < |Log(cfg, s, run)|
    requires Log(cfg, s, run)[i].tx == LocalTransaction(cfg, to, amount, comment, ms)
    requires Last(run).now <= Log(cfg, s, run)[i].at + SEEN_TTL
    ensures Decide(cfg, Exec(cfg, s, run).mem, LocalTransaction(cfg, to', amount', comment', ms), true) != Applied
  {
    ReplayWindow.Remembered(cfg, s, run, i, cfg.selfID);
  }

  /** And only the millisecond decides: with credit, and an ID that only the first
      payment could have used up, the second is applied if and only if it was made in
      another millisecond. */
  lemma {:induction false} MillisecondDecides(
    cfg: Config, s: NodeState, run: seq<Event>, i: nat, restarts: bool,
    to: string, amount: real, comment: string, ms: int, to': string, amount': real, comment': string, ms': int)
    requires Clocked(run) && Steady(cfg, run, restarts) && i < |Log(cfg, s, run)|
    requires Log(cfg, s, run)[i].tx == LocalTransaction(cfg, to, amount, comment, ms)
    requires Last(run).now <= Log(cfg, s, run)[i].at + SEEN_TTL
    requires var two := LocalTransaction(cfg, to', amount', comment', ms');
      && Fresh(s, two.from, two.id, restarts) && Fresh(s, two.to, two.id, restarts)
      && HasCredit(cfg, Exec(cfg, s, run).mem, two)
      && forall tx :: tx in Accepted(cfg, s, run) && tx != Log(cfg, s, run)[i].tx && tx.id == two.id ==>
           !Involves(tx, two.from) && !Involves(tx, two.to)
    ensures Decide(cfg, Exec(cfg, s, run).mem, LocalTransaction(cfg, to', amount', comment', ms'), true) == Applied
       <==> ms' != ms
  {
    var two := LocalTransaction(cfg, to', amount', comment', ms');
    LocalIDs(cfg, to, amount, comment, ms, to', amount', comment', ms');
    if ms' == ms {
      SameMillisecondIsLost(cfg, s, run, i, to, amount, comment, to', amount', comment', ms);
    } else {
      StillFresh(cfg, s, run, two.from, two.id, restarts);
      StillFresh(cfg, s, run, two.to, two.id, restarts);
    }
  }

  lemma {:induction false} StillFresh(cfg: Config, s: NodeState, run: seq<Event>, p: string, id: string, restarts: bool)
    requires Steady(cfg, run, restarts) && Fresh(s, p, id, restarts) && !AcceptedFor(cfg, s, run, p, id)
    ensures !SeenBy(Account(Exec(cfg, s, run).mem, p), id)
  {
    if SeenBy(Account(Exec(cfg, s, run).mem, p), id) {
      SeenSource(cfg, s, run, p, id, restarts);
    }
  }
}
