/** What a node can rely on after a restart. */
module Restarts {
  import opened LedgerSpec

  lemma {:induction false} BackfillCovers(seen: map<string, int>, h: seq<Transaction>, n: nat, i: nat)
    requires i < n <= |h|
    ensures h[i].id in Backfill(seen, h, n)
  {
    if i < n - 1 {
      BackfillCovers(seen, h, n - 1, i);
    }
  }

  lemma {:induction false} BackfillIdle(seen: map<string, int>, h: seq<Transaction>, n: nat)
    requires n <= |h| && forall i :: 0 <= i < n ==> h[i].id in seen
    ensures Backfill(seen, h, n) == seen
  {
    if n > 0 {
      BackfillIdle(seen, h, n - 1);
    }
  }

  lemma {:induction false} BackfillNonZero(seen: map<string, int>, h: seq<Transaction>, n: nat, id: string)
    requires n <= |h| && (id in seen ==> seen[id] != 0)
    requires forall i :: 0 <= i < n && h[i].id == id ==> h[i].time != 0
    ensures id in Backfill(seen, h, n) ==> Backfill(seen, h, n)[id] != 0
  {
    if n > 0 {
      BackfillNonZero(seen, h, n - 1, id);
    }
  }

  predicate Repaired(a: AccountState) {
    a.rating != 0.0 && forall i :: 0 <= i < |a.history| ==> a.history[i].id in a.seen
  }

  lemma RepairRepairs(a: AccountState)
    ensures Repaired(Repair(a)) && Repair(Repair(a)) == Repair(a)
  {
    var h := a.history;
    forall i | 0 <= i < |h|
      ensures h[i].id in Repair(a).seen
    {
      BackfillCovers(a.seen, h, |h|, i);
    }
    BackfillIdle(Repair(a).seen, h, |h|);
  }

  /** Every account has a rating and a stamp for each entry of its history; the
      node has an account of its own, and a command center has its fund. */
  lemma LoadRepairs(cfg: Config, disk: Ledger)
    ensures var l := Load(cfg, disk);
      && cfg.selfID in l.accounts
      && (cfg.isCommandCenter ==> l.accounts[cfg.selfID].balance >= GENESIS_FUND)
      && forall p :: p in l.accounts ==> Repaired(l.accounts[p])
  {
    forall p | p in disk.accounts
      ensures Repaired(RepairAll(disk).accounts[p])
    {
      RepairRepairs(disk.accounts[p]);
    }
  }

  /** Restarting twice is restarting once. */
  lemma LoadIsIdempotent(cfg: Config, disk: Ledger)
    ensures Load(cfg, Load(cfg, disk)) == Load(cfg, disk)
  {
    var l := Load(cfg, disk);
    LoadRepairs(cfg, disk);
    forall p | p in l.accounts
      ensures Repair(l.accounts[p]) == l.accounts[p]
    {
      BackfillIdle(l.accounts[p].seen, l.accounts[p].history, |l.accounts[p].history|);
    }
    assert RepairAll(l).accounts == l.accounts;
  }

  /** A transaction in the history of one of its accounts is a duplicate after a
      restart, even if its stamp was pruned, unless its stamp or its own time is
      zero. */
  lemma HistoryBlocksReplay(cfg: Config, disk: Ledger, p: string, tx: Transaction)
    requires p in disk.accounts && Involves(tx, p) && tx in disk.accounts[p].history
    requires tx.id in disk.accounts[p].seen ==> disk.accounts[p].seen[tx.id] != 0
    requires forall h :: h in disk.accounts[p].history && h.id == tx.id ==> h.time != 0
    ensures HasSeen(Load(cfg, disk), tx)
  {
    var a := disk.accounts[p];
    var i :| 0 <= i < |a.history| && a.history[i] == tx;
    BackfillCovers(a.seen, a.history, |a.history|, i);
    BackfillNonZero(a.seen, a.history, |a.history|, tx.id);
    assert RepairAll(disk).accounts[p] == Repair(a);
  }
}
