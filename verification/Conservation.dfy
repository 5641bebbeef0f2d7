/** ZPCN is neither made nor lost by payments: only the fund that a command
    center gives itself when it starts, and a copy of the oracle's balances,
    change the sum of all balances (mint and burn addresses included). */
module Conservation {
  import opened LedgerSpec
  import opened NodeRuns
  import opened Sums
  import opened Sequences

  function Balances(accounts: map<string, AccountState>): map<string, real> {
    map p | p in accounts :: accounts[p].balance
  }

  ghost function Total(l: Ledger): real {
    Sum(Balances(l.accounts))
  }

  lemma TotalWith(l: Ledger, p: string, a: AccountState)
    ensures Total(WithAccount(l, p, a)) == Total(l) - Account(l, p).balance + a.balance
  {
    SumUpdate(Balances(l.accounts), p, a.balance);
    assert Balances(WithAccount(l, p, a).accounts) == Balances(l.accounts)[p := a.balance];
  }

  lemma TotalOpen(l: Ledger, p: string, a: AccountState)
    ensures Total(Open(l, p, a)) == Total(l) + if p in l.accounts then 0.0 else a.balance
  {
    TotalWith(l, p, a);
  }

  lemma TotalApply(cfg: Config, l: Ledger, tx: Transaction, now: int)
    ensures Total(Apply(cfg, l, tx, now)) == Total(l)
  {
    var a := Post(cfg, Account(l, tx.from), tx.from, tx, now);
    var b := Post(cfg, Account(l, tx.to), tx.to, tx, now);
    TotalWith(l, tx.from, a);
    TotalWith(WithAccount(l, tx.from, a), tx.to, b);
    assert Apply(cfg, l, tx, now).accounts == WithAccount(WithAccount(l, tx.from, a), tx.to, b).accounts;
  }

  /** Whatever the outcome: applied, a duplicate, rejected, or paid to oneself. */
  lemma ProcessConserves(cfg: Config, l: Ledger, tx: Transaction, verified: bool, now: int)
    ensures Total(Process(cfg, l, tx, verified, now)) == Total(l)
  {
    TotalApply(cfg, l, tx, now);
    TotalOpen(l, tx.from, NEW_ACCOUNT);
    TotalOpen(Open(l, tx.from, NEW_ACCOUNT), tx.to, NEW_ACCOUNT);
  }

  /** What starting up adds: the genesis balance, then the top-up. */
  function StartFund(cfg: Config, disk: Ledger): real {
    var started := Open(RepairAll(disk), cfg.selfID, Genesis(cfg));
    (if cfg.isCommandCenter && cfg.selfID !in disk.accounts then GENESIS_FUND else 0.0)
    + (if NeedsTopUp(cfg, started) then ENDLESS_FUND - Account(started, cfg.selfID).balance else 0.0)
  }

  lemma LoadInjects(cfg: Config, disk: Ledger)
    ensures Total(Load(cfg, disk)) == Total(disk) + StartFund(cfg, disk)
    ensures !cfg.isCommandCenter ==> StartFund(cfg, disk) == 0.0
  {
    assert Balances(RepairAll(disk).accounts) == Balances(disk.accounts);
    TotalOpen(RepairAll(disk), cfg.selfID, Genesis(cfg));
    var started := Open(RepairAll(disk), cfg.selfID, Genesis(cfg));
    TotalWith(started, cfg.selfID, Account(started, cfg.selfID).(balance := ENDLESS_FUND));
  }

  /** What copying the oracle's balances adds. */
  ghost function SyncShift(l: Ledger, dump: map<string, AccountState>): real {
    Sum(Shift(Balances(l.accounts), Balances(dump)))
  }

  lemma MergeInjects(l: Ledger, dump: map<string, AccountState>)
    ensures Total(Merge(l, dump)) == Total(l) + SyncShift(l, dump)
  {
    forall p | p in dump
      ensures MergedAccounts(l, dump)[p].balance == dump[p].balance
    {
      MergedFunds(MergeBase(l, p), dump[p]);
    }
    assert Balances(Merge(l, dump).accounts) == Balances(l.accounts) + Balances(dump);
    SumOverride(Balances(l.accounts), Balances(dump));
  }

  lemma PruneConserves(l: Ledger, now: int)
    ensures Total(Prune(l, now)) == Total(l)
  {
    assert Balances(Prune(l, now).accounts) == Balances(l.accounts);
  }

  ghost function InjectedBy(cfg: Config, s: NodeState, e: Event): real {
    match e.op
    case Restart => StartFund(cfg, s.disk)
    case Sync(dump) => SyncShift(s.mem, dump)
    case _ => 0.0
  }

  ghost function Injected(cfg: Config, s: NodeState, run: seq<Event>): real {
    if run == [] then 0.0
    else Injected(cfg, s, Butlast(run)) + InjectedBy(cfg, Exec(cfg, s, Butlast(run)), Last(run))
  }

  lemma StepConserves(cfg: Config, s: NodeState, e: Event)
    requires Total(s.mem) == Total(s.disk)
    ensures var s' := Next(cfg, s, e);
      Total(s'.mem) == Total(s.mem) + InjectedBy(cfg, s, e) && Total(s'.disk) == Total(s'.mem)
  {
    match e.op
    case Receive(tx, verified) => ProcessConserves(cfg, s.mem, tx, verified, e.now);
    case PruneSeenTxs => PruneConserves(s.mem, e.now);
    case Restart => LoadInjects(cfg, s.disk);
    case Sync(dump) => MergeInjects(s.mem, dump);
    case OpenFaucet(p) => TotalOpen(s.mem, p, AccountState(0.0, 0.0, [], map[]));
    case _ => QuotaConserves(s.mem, e.op.peer, e.op.bytes);
  }

  lemma QuotaConserves(l: Ledger, p: string, bytes: int)
    ensures Total(AddQuota(l, p, bytes)) == Total(l) && Total(Consume(l, p, bytes)) == Total(l)
  {
  }

  /** Over any run the money supply is the opening supply plus what was injected. */
  lemma {:induction false} RunConserves(cfg: Config, s: NodeState, run: seq<Event>)
    requires Total(s.mem) == Total(s.disk)
    ensures Total(Exec(cfg, s, run).mem) == Total(s.mem) + Injected(cfg, s, run)
    ensures Total(Exec(cfg, s, run).disk) == Total(Exec(cfg, s, run).mem)
  {
    if run != [] {
      RunConserves(cfg, s, Butlast(run));
      StepConserves(cfg, Exec(cfg, s, Butlast(run)), Last(run));
    }
  }

  /** Without a sync, only a command center that restarts can make money. */
  lemma {:induction false} PaymentsConserve(cfg: Config, s: NodeState, run: seq<Event>)
    requires Total(s.mem) == Total(s.disk)
    requires forall i :: 0 <= i < |run| ==> !run[i].op.Sync? && (run[i].op.Restart? ==> !cfg.isCommandCenter)
    ensures Total(Exec(cfg, s, run).mem) == Total(s.mem)
    ensures Injected(cfg, s, run) == 0.0
  {
    if run != [] {
      PaymentsConserve(cfg, s, Butlast(run));
      RunConserves(cfg, s, run);
      LoadInjects(cfg, Exec(cfg, s, Butlast(run)).disk);
    }
  }
}
