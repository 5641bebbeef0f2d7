/** Replay protection: for 30 days after a transaction is applied, nothing with
    its ID can be applied to either of its accounts again, whatever is received,
    pruned, merged or restarted in between. */
module ReplayWindow {
  import opened LedgerSpec
  import opened NodeRuns
  import opened Sequences

  /** Account `p` holds a stamp of `t` or later for `id`. */
  predicate Stamped(l: Ledger, p: string, id: string, t: int) {
    id in Account(l, p).seen && Account(l, p).seen[id] >= t
  }

  lemma {:induction false} AbsorbKeepsStamp(a: AccountState, h: seq<Transaction>, n: nat, id: string, t: int)
    requires n <= |h| && t > 0 && id in a.seen && a.seen[id] >= t
    ensures id in AbsorbFirst(a, h, n).seen && AbsorbFirst(a, h, n).seen[id] >= t
  {
    if n > 0 {
      AbsorbKeepsStamp(a, h, n - 1, id, t);
    }
  }

  lemma {:induction false} BackfillKeepsStamp(seen: map<string, int>, h: seq<Transaction>, n: nat, id: string)
    requires n <= |h| && id in seen
    ensures id in Backfill(seen, h, n) && Backfill(seen, h, n)[id] == seen[id]
  {
    if n > 0 {
      BackfillKeepsStamp(seen, h, n - 1, id);
    }
  }

  lemma MergeKeepsStamp(l: Ledger, dump: map<string, AccountState>, p: string, id: string, t: int)
    requires t > 0 && Stamped(l, p, id, t)
    ensures Stamped(Merge(l, dump), p, id, t)
  {
    if p in dump {
      var a := MergeBase(l, p).(balance := dump[p].balance, rating := dump[p].rating);
      AbsorbKeepsStamp(a, dump[p].history, |dump[p].history|, id, t);
      assert Merge(l, dump).accounts[p] == MergedAccounts(l, dump)[p];
    }
  }

  lemma LoadKeepsStamp(cfg: Config, disk: Ledger, p: string, id: string, t: int)
    requires Stamped(disk, p, id, t)
    ensures Stamped(Load(cfg, disk), p, id, t)
  {
    var a := disk.accounts[p];
    BackfillKeepsStamp(a.seen, a.history, |a.history|, id);
    assert RepairAll(disk).accounts[p] == Repair(a);
  }

  lemma ProcessKeepsStamp(
    cfg: Config, l: Ledger, tx: Transaction, verified: bool, now: int, p: string, id: string, t: int)
    requires t > 0 && Stamped(l, p, id, t)
    ensures Stamped(Process(cfg, l, tx, verified, now), p, id, t)
  {
  }

  /** Memory and disk together, so that a restart is covered. */
  lemma StepKeepsStamp(cfg: Config, s: NodeState, e: Event, p: string, id: string, t: int)
    requires t > 0 && e.now <= t + SEEN_TTL
    requires Stamped(s.mem, p, id, t) && Stamped(s.disk, p, id, t)
    ensures Stamped(Next(cfg, s, e).mem, p, id, t) && Stamped(Next(cfg, s, e).disk, p, id, t)
  {
    match e.op
    case Receive(tx, verified) => ProcessKeepsStamp(cfg, s.mem, tx, verified, e.now, p, id, t);
    case PruneSeenTxs =>
    case Restart => LoadKeepsStamp(cfg, s.disk, p, id, t);
    case Sync(dump) => MergeKeepsStamp(s.mem, dump, p, id, t);
    case _ =>
  }

  lemma NewStamp(cfg: Config, s: NodeState, e: Event, p: string)
    requires e.op.Receive? && Decide(cfg, s.mem, e.op.tx, e.op.verified) == Applied && Involves(e.op.tx, p)
    ensures Stamped(Next(cfg, s, e).mem, p, e.op.tx.id, e.now)
    ensures Stamped(Next(cfg, s, e).disk, p, e.op.tx.id, e.now)
  {
  }

  /** Every posting of the run is still stamped or out of the window. */
  lemma {:induction false} Remembered(cfg: Config, s: NodeState, run: seq<Event>, i: nat, p: string)
    requires Clocked(run) && i < |Log(cfg, s, run)| && Involves(Log(cfg, s, run)[i].tx, p)
    ensures run != [] && 0 < Log(cfg, s, run)[i].at <= Last(run).now
    ensures var q := Log(cfg, s, run)[i];
      var s' := Exec(cfg, s, run);
      || q.at + SEEN_TTL < Last(run).now
      || (Stamped(s'.mem, p, q.tx.id, q.at) && Stamped(s'.disk, p, q.tx.id, q.at))
  {
    var before, e := Butlast(run), Last(run);
    var q := Log(cfg, s, run)[i];
    if i < |Log(cfg, s, before)| {
      Remembered(cfg, s, before, i, p);
      assert Last(before).now <= e.now;
      if e.now <= q.at + SEEN_TTL {
        StepKeepsStamp(cfg, Exec(cfg, s, before), e, p, q.tx.id, q.at);
      }
    } else {
      assert q == Posting(e.op.tx, e.now);
      NewStamp(cfg, Exec(cfg, s, before), e, p);
    }
  }

  /** Two applications with one ID and a common account are over 30 days apart. */
  lemma {:induction false} ReplaysAreFarApart(cfg: Config, s: NodeState, run: seq<Event>, i: nat, j: nat, p: string)
    requires Clocked(run) && i < j < |Log(cfg, s, run)|
    requires Involves(Log(cfg, s, run)[i].tx, p) && Involves(Log(cfg, s, run)[j].tx, p)
    requires Log(cfg, s, run)[i].tx.id == Log(cfg, s, run)[j].tx.id
    ensures Log(cfg, s, run)[j].at > Log(cfg, s, run)[i].at + 2592000000
  {
    var before := Butlast(run);
    if j < |Log(cfg, s, before)| {
      ReplaysAreFarApart(cfg, s, before, i, j, p);
    } else {
      Remembered(cfg, s, before, i, p);
      assert Log(cfg, s, run)[j] == Posting(Last(run).op.tx, Last(run).now);
      assert Last(before).now <= Last(run).now;
    }
  }

  /** The window is exact: once the stamps are pruned the same transaction goes
      through again, and until then it does not. */
  lemma WindowIsExact(cfg: Config, l: Ledger, tx: Transaction, now: int, later: int)
    requires now > 0 && Decide(cfg, l, tx, true) == Applied
    requires HasCredit(cfg, Apply(cfg, l, tx, now), tx)
    ensures Decide(cfg, Prune(Apply(cfg, l, tx, now), later), tx, true)
         == if later > now + 2592000000 then Applied else Duplicate
  {
  }
}
