/** One node over time: the ledger in memory, the copy on disk, and the steps
    that change them. Each step is one critical section of the economy
    manager; a run is any sequence of steps under a clock that never goes back. */
module NodeRuns {
  import opened LedgerSpec
  import opened Sequences

  datatype NodeState = NodeState(mem: Ledger, disk: Ledger)

  datatype Op =
    | Receive(tx: Transaction, verified: bool)
    | PruneSeenTxs
    | Restart
    | Sync(dump: map<string, AccountState>)
    | OpenFaucet(peer: string)
    | AddTraffic(peer: string, bytes: int)
    | ConsumeTraffic(peer: string, bytes: int)

  datatype Event = Event(now: int, op: Op)

  /** An applied transaction and the stamp it was applied at. */
  datatype Posting = Posting(tx: Transaction, at: int)

  function Saved(l: Ledger): NodeState {
    NodeState(l, l)
  }

  function Next(cfg: Config, s: NodeState, e: Event): NodeState {
    match e.op
    case Receive(tx, verified) =>
      var l := Process(cfg, s.mem, tx, verified, e.now);
      if Decide(cfg, s.mem, tx, verified) == Applied then Saved(l) else s.(mem := l)
    case PruneSeenTxs =>
      var l := Prune(s.mem, e.now);
      if l != s.mem then Saved(l) else s
    case Restart =>
      var l := Load(cfg, s.disk);
      if cfg.selfID !in s.disk.accounts || NeedsTopUp(cfg, RepairAll(s.disk)) then Saved(l)
      else s.(mem := l)
    case Sync(dump) => Saved(Merge(s.mem, dump))
    case OpenFaucet(p) => s.(mem := Open(s.mem, p, AccountState(0.0, 0.0, [], map[])))
    case AddTraffic(p, bytes) => Saved(AddQuota(s.mem, p, bytes))
    case ConsumeTraffic(p, bytes) => s.(mem := Consume(s.mem, p, bytes))
  }

  /** The state after a run. */
  function Exec(cfg: Config, s: NodeState, run: seq<Event>): NodeState {
    if run == [] then s else Next(cfg, Exec(cfg, s, Butlast(run)), Last(run))
  }

  function Posted(cfg: Config, s: NodeState, e: Event): seq<Posting> {
    if e.op.Receive? && Decide(cfg, s.mem, e.op.tx, e.op.verified) == Applied
    then [Posting(e.op.tx, e.now)] else []
  }

  /** Every transaction the run applied, in order. */
  function Log(cfg: Config, s: NodeState, run: seq<Event>): seq<Posting> {
    if run == [] then []
    else Log(cfg, s, Butlast(run)) + Posted(cfg, Exec(cfg, s, Butlast(run)), Last(run))
  }

  function Txs(log: seq<Posting>): (txs: seq<Transaction>)
    ensures |txs| == |log| && forall i :: 0 <= i < |log| ==> txs[i] == log[i].tx
  {
    seq(|log|, i requires 0 <= i < |log| => log[i].tx)
  }

  /** The transactions the run applied. */
  function Accepted(cfg: Config, s: NodeState, run: seq<Event>): seq<Transaction> {
    Txs(Log(cfg, s, run))
  }

  predicate Clocked(run: seq<Event>) {
    && (forall i :: 0 <= i < |run| ==> run[i].now > 0)
    && (forall i, j :: 0 <= i < j < |run| ==> run[i].now <= run[j].now)
  }
}
