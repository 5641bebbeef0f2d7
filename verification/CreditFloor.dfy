/** Nobody but an oracle goes deeper into debt than twice its rating. */
module CreditFloor {
  import opened LedgerSpec
  import opened NodeRuns
  import opened Sequences

  predicate AboveFloor(a: AccountState) {
    a.balance >= -2.0 * a.rating
  }

  ghost predicate Floor(cfg: Config, accounts: map<string, AccountState>) {
    forall p :: p in accounts && !IsOracle(cfg, p) ==> AboveFloor(accounts[p])
  }

  /** Amounts are not negative and dumps come from a ledger that keeps the floor. */
  ghost predicate Decent(cfg: Config, e: Event) {
    match e.op
    case Receive(tx, _) => tx.amount >= 0.0
    case Sync(dump) => Floor(cfg, dump)
    case _ => true
  }

  lemma ProcessKeepsFloor(cfg: Config, l: Ledger, tx: Transaction, verified: bool, now: int)
    requires Floor(cfg, l.accounts) && tx.amount >= 0.0
    ensures Floor(cfg, Process(cfg, l, tx, verified, now).accounts)
  {
  }

  lemma MergeKeepsFloor(cfg: Config, l: Ledger, dump: map<string, AccountState>)
    requires Floor(cfg, l.accounts) && Floor(cfg, dump)
    ensures Floor(cfg, Merge(l, dump).accounts)
  {
    forall p | p in dump && !IsOracle(cfg, p)
      ensures AboveFloor(MergedAccounts(l, dump)[p])
    {
      MergedFunds(MergeBase(l, p), dump[p]);
    }
  }

  lemma LoadKeepsFloor(cfg: Config, disk: Ledger)
    requires Floor(cfg, disk.accounts)
    ensures Floor(cfg, Load(cfg, disk).accounts)
  {
  }

  lemma StepKeepsFloor(cfg: Config, s: NodeState, e: Event)
    requires Floor(cfg, s.mem.accounts) && Floor(cfg, s.disk.accounts) && Decent(cfg, e)
    ensures Floor(cfg, Next(cfg, s, e).mem.accounts) && Floor(cfg, Next(cfg, s, e).disk.accounts)
  {
    match e.op
    case Receive(tx, verified) => ProcessKeepsFloor(cfg, s.mem, tx, verified, e.now);
    case PruneSeenTxs =>
      forall p | p in s.mem.accounts
        ensures Prune(s.mem, e.now).accounts[p] == PruneAccount(s.mem.accounts[p], e.now)
      {
      }
    case Restart => LoadKeepsFloor(cfg, s.disk);
    case Sync(dump) => MergeKeepsFloor(cfg, s.mem, dump);
    case _ =>
  }

  /** Local payments are `Receive` steps too, however long ago their own balance
      check was made. */
  lemma {:induction false} RunKeepsFloor(cfg: Config, s: NodeState, run: seq<Event>)
    requires Floor(cfg, s.mem.accounts) && Floor(cfg, s.disk.accounts)
    requires forall i :: 0 <= i < |run| ==> Decent(cfg, run[i])
    ensures Floor(cfg, Exec(cfg, s, run).mem.accounts) && Floor(cfg, Exec(cfg, s, run).disk.accounts)
  {
    if run != [] {
      RunKeepsFloor(cfg, s, Butlast(run));
      StepKeepsFloor(cfg, Exec(cfg, s, Butlast(run)), Last(run));
    }
  }

  ghost predicate SafeFor(cfg: Config, l: Ledger, tx: Transaction, now: int) {
    Floor(cfg, l.accounts) ==> Floor(cfg, Process(cfg, l, tx, true, now).accounts)
  }

  /** The sign of the amount is what the floor depends on: the code does not
      check it, and a negative amount draws on its receiver without limit, unless
      that is an oracle or the payer itself. */
  lemma FloorNeedsNonNegativeAmounts(cfg: Config, tx: Transaction, now: int)
    ensures (forall l :: SafeFor(cfg, l, tx, now)) <==> tx.amount >= 0.0 || tx.from == tx.to || IsOracle(cfg, tx.to)
  {
    if tx.amount >= 0.0 || tx.from == tx.to || IsOracle(cfg, tx.to) {
      forall l
        ensures SafeFor(cfg, l, tx, now)
      {
        forall p
          ensures Account(Process(cfg, l, tx, true, now), p).balance
               == Account(l, p).balance + if Decide(cfg, l, tx, true) == Applied then Delta(tx, p) else 0.0
        {
          ProcessedAccount(cfg, l, tx, true, now, p);
        }
      }
    } else {
      var l := Ledger(map[tx.to := AccountState(-10.0, 5.0, [], map[])], map[]);
      assert Floor(cfg, l.accounts);
      ProcessedAccount(cfg, l, tx, true, now, tx.to);
      assert !AboveFloor(Process(cfg, l, tx, true, now).accounts[tx.to]);
      assert !SafeFor(cfg, l, tx, now);
    }
  }
}
