/** The economy manager as the program keeps it: account records that are
    updated in place, shared through a map, and written to disk by most
    operations. Every method is proved to take one step of `NodeRuns`. */
module Economy {
  import opened LedgerSpec
  import opened NodeRuns
  import opened Rules

  class AccountRecord {
    var balance: real
    var rating: real
    var history: seq<Transaction>
    var seenTxs: map<string, int>
    /** The account this record belongs to: no two accounts share a record. */
    ghost const owner: string

    constructor (ghost owner: string, a: AccountState)
      ensures State() == a && this.owner == owner
    {
      this.owner := owner;
      balance, rating, history, seenTxs := a.balance, a.rating, a.history, a.seen;
    }

    function State(): AccountState
      reads this
    {
      AccountState(balance, rating, history, seenTxs)
    }
  }

  class EconomyManager {
    const cfg: Config
    var accounts: map<string, AccountRecord>
    var prepaidTraffic: map<string, int>
    var disk: Ledger
    /** The value that the records and the quota map hold between them. */
    ghost var ledger: Ledger
    ghost var records: set<AccountRecord>

    ghost predicate Valid()
      reads this, records
    {
      ValidBut({})
    }

    /** The records of `changed` may be ahead of `ledger`. */
    ghost predicate ValidBut(changed: set<string>)
      reads this, records
    {
      && accounts.Keys == ledger.accounts.Keys
      && (forall p :: p in accounts ==> accounts[p] in records && accounts[p].owner == p)
      && (forall p :: p in accounts && p !in changed ==> accounts[p].State() == ledger.accounts[p])
      && prepaidTraffic == ledger.prepaid
    }

    /** Brings `ledger` up to date with the record of `p`. */
    ghost method Refresh(p: string)
      requires p in accounts && ValidBut({p})
      modifies this`ledger
      ensures Valid() && ledger == WithAccount(old(ledger), p, accounts[p].State())
    {
      ledger := WithAccount(ledger, p, accounts[p].State());
    }

    ghost function State(): NodeState
      reads this
    {
      NodeState(ledger, disk)
    }

    /** A new manager starts from the files. */
    constructor (cfg: Config, disk: Ledger)
      ensures Valid() && fresh(records) && this.cfg == cfg
      ensures State() == Next(cfg, NodeState(Ledger(map[], map[]), disk), Event(0, Restart))
    {
      this.cfg, this.disk := cfg, disk;
      accounts, prepaidTraffic := map[], map[];
      ledger, records := Ledger(map[], map[]), {};
      new;
      Load();
    }

    /** Also what `DumpState` exports. */
    function Snapshot(): (l: Ledger)
      requires Valid()
      reads this, records
      ensures l == ledger
    {
      var states := map p | p in accounts :: accounts[p].State();
      assert states == ledger.accounts;
      Ledger(states, prepaidTraffic)
    }

    method SaveLocked()
      requires Valid()
      modifies this`disk
      ensures Valid() && State() == Saved(ledger)
    {
      disk := Snapshot();
    }

    /** Creates the account of `p` if there is none. */
    method OpenAccount(p: string, a: AccountState)
      requires Valid()
      modifies this`accounts, this`records, this`ledger
      ensures Valid() && fresh(records - old(records))
      ensures ledger == Open(old(ledger), p, a)
      ensures p in accounts && (p !in old(accounts) ==> fresh(accounts[p]))
    {
      if p !in accounts {
        var record := new AccountRecord(p, a);
        accounts, records := accounts[p := record], records + {record};
        ledger := Open(ledger, p, a);
      }
    }

    method CapHistory(record: AccountRecord)
      modifies record`history
      ensures record.history == Capped(cfg, old(record.history))
    {
      if !cfg.isCommandCenter {
        if |record.history| > HISTORY_CAP {
          record.history := record.history[|record.history| - HISTORY_CAP..];
        }
      }
    }

    method ProcessTransaction(tx: Transaction, verified: bool, now: int) returns (outcome: Outcome)
      requires Valid()
      modifies this`accounts, this`records, this`prepaidTraffic, this`disk, this`ledger, records
      ensures Valid() && fresh(records - old(records))
      ensures outcome == Decide(cfg, old(ledger), tx, verified)
      ensures State() == Next(cfg, old(State()), Event(now, Receive(tx, verified)))
    {
      if !verified {
        return Rejected;
      }
      TouchAccounts(tx);
      TouchFirst(cfg, old(ledger), tx, now);
      outcome := CheckTransaction(tx);
      if outcome == Applied {
        PostTransaction(tx, accounts[tx.from], accounts[tx.to], now);
        SaveLocked();
      }
    }

    method TouchAccounts(tx: Transaction)
      requires Valid()
      modifies this`accounts, this`records, this`ledger
      ensures Valid() && fresh(records - old(records))
      ensures ledger == Touch(old(ledger), tx)
    {
      OpenAccount(tx.from, NEW_ACCOUNT);
      OpenAccount(tx.to, NEW_ACCOUNT);
    }

    /** The credit check, then the replay check. */
    method CheckTransaction(tx: Transaction) returns (outcome: Outcome)
      requires Valid() && tx.from in accounts && tx.to in accounts
      ensures outcome == Decide(cfg, ledger, tx, true)
      ensures outcome == Rejected <==>
        && ledger.accounts[tx.from].balance + 2.0 * ledger.accounts[tx.from].rating < tx.amount
        && !cfg.knownOracle(tx.from) && !(cfg.isCommandCenter && tx.from == cfg.selfID)
        && tx.from != "SYSTEM_MINT_ADDRESS"
    {
      var from, to := accounts[tx.from], accounts[tx.to];
      assert from.State() == Account(ledger, tx.from) && to.State() == Account(ledger, tx.to);
      var isOracle := cfg.knownOracle(tx.from);
      if cfg.isCommandCenter && tx.from == cfg.selfID {
        isOracle := true;
      }
      if tx.from == MINT_ADDRESS {
        isOracle := true;
      }
      var creditLimit := from.rating * 2.0;
      if from.balance + creditLimit < tx.amount && !isOracle {
        return Rejected;
      }
      if (tx.id in from.seenTxs && from.seenTxs[tx.id] != 0)
         || (tx.id in to.seenTxs && to.seenTxs[tx.id] != 0) {
        return Duplicate;
      }
      return Applied;
    }

    /** The part of `ProcessTransaction` after both checks have passed. */
    method PostTransaction(tx: Transaction, from: AccountRecord, to: AccountRecord, now: int)
      requires Valid() && tx.from in accounts && tx.to in accounts
      requires from == accounts[tx.from] && to == accounts[tx.to]
      modifies this`prepaidTraffic, this`ledger, from, to
      ensures Valid() && ledger == Apply(cfg, old(ledger), tx, now)
    {
      PostRecords(tx, from, to, now);
      ledger := ledger.(accounts := ledger.accounts[tx.from := from.State()][tx.to := to.State()]);
      CreditPrepaid(tx);
    }

    /** The two records are the same one when `tx` pays its own sender. */
    method PostRecords(tx: Transaction, from: AccountRecord, to: AccountRecord, now: int)
      requires from == to <==> tx.from == tx.to
      modifies from, to
      ensures from.State() == Post(cfg, old(from.State()), tx.from, tx, now)
      ensures to.State() == Post(cfg, old(to.State()), tx.to, tx, now)
    {
      from.balance := from.balance - tx.amount;
      to.balance := to.balance + tx.amount;
      from.seenTxs := from.seenTxs[tx.id := now];
      from.history := from.history + [tx];
      if tx.from != tx.to {
        to.seenTxs := to.seenTxs[tx.id := now];
        to.history := to.history + [tx];
      }
      CapHistory(from);
      CapHistory(to);
    }

    method CreditPrepaid(tx: Transaction)
      requires Valid()
      modifies this`prepaidTraffic, this`ledger
      ensures Valid() && ledger == CreditIfPrepay(cfg, old(ledger), tx)
      ensures if tx.to == cfg.selfID && tx.comment == "VPN Prepay"
              then Buys(cfg, tx.amount, GetPrepaidTraffic(tx.from) - old(GetPrepaidTraffic(tx.from)))
              else prepaidTraffic == old(prepaidTraffic)
    {
      PriceRule(cfg, tx.amount);
      if tx.to == cfg.selfID && tx.comment == PREPAY_COMMENT {
        var price := cfg.vpnPrice;
        if price <= 0.0 {
          price := 0.5;
        }
        var gb := tx.amount / price;
        var bytesToAdd := Truncate(gb * BYTES_PER_GB);
        prepaidTraffic := prepaidTraffic[tx.from := GetPrepaidTraffic(tx.from) + bytesToAdd];
        ledger := CreditIfPrepay(cfg, ledger, tx);
      }
    }

    /** The stamps of one account that are still inside the window. */
    method PruneRecord(record: AccountRecord, cutoff: int) returns (pruned: nat)
      modifies record`seenTxs
      ensures record.seenTxs == PruneSeen(old(record.seenTxs), cutoff)
      ensures pruned == 0 <==> record.seenTxs == old(record.seenTxs)
    {
      pruned := 0;
      var ids := record.seenTxs.Keys;
      while ids != {}
        invariant ids <= old(record.seenTxs).Keys
        invariant forall id :: id in record.seenTxs <==>
          id in old(record.seenTxs) && (id in ids || old(record.seenTxs)[id] >= cutoff)
        invariant forall id :: id in record.seenTxs ==> record.seenTxs[id] == old(record.seenTxs)[id]
        invariant pruned == 0 <==> record.seenTxs == old(record.seenTxs)
      {
        var id :| id in ids;
        assert id in record.seenTxs;
        if record.seenTxs[id] < cutoff {
          record.seenTxs := record.seenTxs - {id};
          pruned := pruned + 1;
          assert id !in record.seenTxs;
        }
        ids := ids - {id};
      }
    }

    method PruneOne(p: string, now: int) returns (pruned: nat)
      requires Valid() && p in accounts
      modifies this`ledger, accounts[p]
      ensures Valid() && ledger == WithAccount(old(ledger), p, PruneAccount(old(ledger).accounts[p], now))
      ensures pruned == 0 <==> ledger.accounts[p] == old(ledger).accounts[p]
    {
      pruned := PruneRecord(accounts[p], now - SEEN_TTL);
      Refresh(p);
    }

    method CleanupSeenTxs(now: int)
      requires Valid()
      modifies this`disk, this`ledger, records
      ensures Valid() && State() == Next(cfg, old(State()), Event(now, PruneSeenTxs))
    {
      var pruned := 0;
      var left := accounts.Keys;
      ghost var before := ledger;
      PruneEnds(before, now);
      while left != {}
        invariant Valid() && left <= accounts.Keys
        invariant disk == old(disk) && ledger == PruneExcept(before, left, now)
        invariant pruned >= 0
        invariant pruned == 0 <==> ledger == before
      {
        var p :| p in left;
        PruneStep(before, left, p, now);
        var n := PruneOne(p, now);
        pruned := pruned + n;
        left := left - {p};
      }
      if pruned > 0 {
        SaveLocked();
      }
    }

    /** One account of the oracle's dump. */
    method MergeRecord(record: AccountRecord, o: AccountState)
      modifies record
      ensures record.State() == MergeAccount(old(record.State()), o)
    {
      record.balance := o.balance;
      record.rating := o.rating;
      ghost var base := record.State();
      for i := 0 to |o.history|
        invariant record.State() == AbsorbFirst(base, o.history, i)
      {
        var tx := o.history[i];
        if tx.id !in record.seenTxs || record.seenTxs[tx.id] == 0 {
          record.seenTxs := record.seenTxs[tx.id := tx.time];
          record.history := record.history + [tx];
        }
      }
    }

    method MergeOne(p: string, o: AccountState)
      requires Valid()
      modifies this`accounts, this`records, this`ledger, records
      ensures Valid() && fresh(records - old(records))
      ensures ledger == WithAccount(old(ledger), p, MergeAccount(MergeBase(old(ledger), p), o))
    {
      OpenFirst(ledger, p, AccountState(0.0, 0.0, [], map[]), MergeAccount(MergeBase(ledger, p), o));
      OpenAccount(p, AccountState(0.0, 0.0, [], map[]));
      MergeRecord(accounts[p], o);
      Refresh(p);
    }

    /** Go visits the dump in no fixed order, and neither does this loop. */
    method MergeAll(dump: map<string, AccountState>)
      requires Valid()
      modifies this`accounts, this`records, this`ledger, records
      ensures Valid() && fresh(records - old(records))
      ensures ledger == Merge(old(ledger), dump)
    {
      ghost var before := ledger;
      var left := dump.Keys;
      MergeEnds(before, dump);
      while left != {}
        invariant Valid() && left <= dump.Keys
        invariant fresh(records - old(records))
        invariant ledger == MergeExcept(before, dump, left)
      {
        var p :| p in left;
        MergeStep(before, dump, left, p);
        MergeOne(p, dump[p]);
        left := left - {p};
      }
    }

    /** A dump that could not be decoded is refused and changes nothing. */
    method MergeState(dump: Option<map<string, AccountState>>) returns (ok: bool)
      requires Valid()
      modifies this`accounts, this`records, this`disk, this`ledger, records
      ensures Valid() && fresh(records - old(records)) && ok == dump.Some?
      ensures State() == if dump.Some? then Next(cfg, old(State()), Event(0, Sync(dump.value))) else old(State())
    {
      match dump
      case None => return false;
      case Some(accounts) =>
        MergeAll(accounts);
        SaveLocked();
        return true;
    }

    method RepairRecord(record: AccountRecord)
      modifies record
      ensures record.State() == Repair(old(record.State()))
    {
      if record.rating == 0.0 {
        record.rating := 5.0;
      }
      ghost var seen := record.seenTxs;
      for i := 0 to |record.history|
        invariant record.history == old(record.history)
        invariant record.balance == old(record.balance)
        invariant record.rating == if old(record.rating) == 0.0 then 5.0 else old(record.rating)
        invariant record.seenTxs == Backfill(seen, record.history, i)
      {
        var tx := record.history[i];
        if tx.id !in record.seenTxs {
          record.seenTxs := record.seenTxs[tx.id := tx.time];
        }
      }
    }

    /** A restart: whatever was in memory is replaced by the files on disk. */
    method Load()
      modifies this`accounts, this`records, this`prepaidTraffic, this`disk, this`ledger
      ensures Valid() && fresh(records)
      ensures State() == Next(cfg, old(State()), Event(0, Restart))
    {
      ReadFiles();
      if cfg.selfID !in accounts {
        OpenAccount(cfg.selfID, Genesis(cfg));
        SaveLocked();
      }
      ForceFunds();
    }

    method ForceFunds()
      requires Valid() && cfg.selfID in accounts
      modifies this`disk, this`ledger, accounts[cfg.selfID]
      ensures Valid() && ledger == TopUp(cfg, old(ledger))
      ensures disk == if NeedsTopUp(cfg, old(ledger)) then ledger else old(disk)
    {
      var own := accounts[cfg.selfID];
      if cfg.isCommandCenter && own.balance < GENESIS_FUND {
        own.balance := ENDLESS_FUND;
        Refresh(cfg.selfID);
        SaveLocked();
      }
    }

    method ReadFiles()
      modifies this`accounts, this`records, this`prepaidTraffic, this`ledger
      ensures Valid() && fresh(records) && ledger == RepairAll(disk)
    {
      accounts, records, prepaidTraffic := map[], {}, disk.prepaid;
      ledger := Ledger(map[], disk.prepaid);
      var left := disk.accounts.Keys;
      while left != {}
        invariant Valid() && fresh(records) && left <= disk.accounts.Keys
        invariant ledger == ReadExcept(disk, left)
      {
        var p :| p in left;
        ReadAccount(p, disk.accounts[p]);
        ReadStep(disk, left, p);
        left := left - {p};
      }
    }

    method ReadAccount(p: string, a: AccountState)
      requires Valid() && p !in accounts
      modifies this`accounts, this`records, this`ledger
      ensures Valid() && fresh(records - old(records))
      ensures ledger == WithAccount(old(ledger), p, Repair(a))
    {
      OpenFirst(ledger, p, a, Repair(a));
      OpenAccount(p, a);
      RepairRecord(accounts[p]);
      Refresh(p);
    }

    /** The part of the faucet that prepares the account it will pay. */
    method OpenFaucetAccount(peer: string)
      requires Valid()
      modifies this`accounts, this`records, this`ledger
      ensures Valid() && fresh(records - old(records))
      ensures State() == Next(cfg, old(State()), Event(0, OpenFaucet(peer)))
    {
      OpenAccount(peer, AccountState(0.0, 0.0, [], map[]));
    }

    /** Removes the first history entry with this ID, if there is one. */
    method ForgetEntry(record: AccountRecord, id: string)
      modifies record`history
      ensures record.history == RemoveFirst(old(record.history), id)
    {
      for i := 0 to |record.history|
        invariant record.history == old(record.history)
        invariant forall k :: 0 <= k < i ==> record.history[k].id != id
      {
        if record.history[i].id == id {
          RemoveFirstAt(record.history, id, i);
          record.history := record.history[..i] + record.history[i + 1..];
          return;
        }
      }
      RemoveFirstNone(record.history, id);
    }

    method UnpostAccount(p: string, refund: real, id: string)
      requires Valid() && p in accounts
      modifies this`ledger, accounts[p]
      ensures Valid() && ledger == WithAccount(old(ledger), p, Unpost(old(ledger).accounts[p], refund, id))
    {
      var record := accounts[p];
      record.balance := record.balance + refund;
      record.seenTxs := record.seenTxs - {id};
      ForgetEntry(record, id);
      Refresh(p);
    }

    method RollbackTransaction(tx: Transaction)
      requires Valid()
      modifies this`disk, this`ledger, records
      ensures Valid() && State() == Saved(Rollback(old(ledger), tx))
    {
      if tx.from in accounts {
        UnpostAccount(tx.from, tx.amount, tx.id);
      }
      if tx.to in accounts && tx.from != tx.to {
        UnpostAccount(tx.to, -tx.amount, tx.id);
      }
      SaveLocked();
    }

    /** The balance check of a local payment, a critical section of its own. */
    predicate HasFunds(amount: real)
      requires Valid()
      reads this, records
      ensures HasFunds(amount) <==> CanPay(cfg, ledger, amount)
      ensures HasFunds(amount) <==> cfg.selfID in ledger.accounts && ledger.accounts[cfg.selfID].balance >= amount
    {
      cfg.selfID in accounts && accounts[cfg.selfID].State().balance >= amount
    }

    /** The rest of a local payment, whatever has happened since the check: this only
        looks at the credit line. A transaction that comes back is broadcast, whether
        or not it was applied here. */
    method FinishPayment(tx: Transaction, verified: bool, now: int) returns (sent: Option<Transaction>, applied: bool)
      requires Valid()
      modifies this`accounts, this`records, this`prepaidTraffic, this`disk, this`ledger, records
      ensures Valid() && fresh(records - old(records))
      ensures State() == Next(cfg, old(State()), Event(now, Receive(tx, verified)))
      ensures var outcome := Decide(cfg, old(ledger), tx, verified);
        sent == (if outcome == Rejected then None else Some(tx)) && (applied <==> outcome == Applied)
    {
      var outcome := ProcessTransaction(tx, verified, now);
      if outcome == Rejected {
        return None, false;
      }
      return Some(tx), outcome == Applied;
    }

    /** A local payment that nothing comes between. `signed` is whether the node
        could sign it. */
    method CreateTransaction(
      to: string, amount: real, comment: string, ms: int, signed: bool, verified: bool, now: int)
      returns (sent: Option<Transaction>, applied: bool)
      requires Valid()
      modifies this`accounts, this`records, this`prepaidTraffic, this`disk, this`ledger, records
      ensures Valid() && fresh(records - old(records))
      ensures var tx := LocalTransaction(cfg, to, amount, comment, ms);
        var outcome := Decide(cfg, old(ledger), tx, verified);
        if CanPay(cfg, old(ledger), amount) && signed then
          && State() == Next(cfg, old(State()), Event(now, Receive(tx, verified)))
          && sent == (if outcome == Rejected then None else Some(tx))
          && (applied <==> outcome == Applied)
        else State() == old(State()) && sent == None && !applied
      ensures sent.Some? ==>
        && sent.value.from == cfg.selfID && sent.value.to == to && sent.value.amount == amount
        && sent.value.comment == comment && sent.value.time == ms
    {
      if !HasFunds(amount) {
        return None, false;
      }
      if !signed {
        return None, false;
      }
      sent, applied := FinishPayment(LocalTransaction(cfg, to, amount, comment, ms), verified, now);
    }

    predicate HasSeenTransaction(tx: Transaction)
      requires Valid()
      reads this, records
      ensures HasSeenTransaction(tx) <==> HasSeen(ledger, tx)
    {
      (tx.from in accounts && SeenBy(accounts[tx.from].State(), tx.id))
      || (tx.to in accounts && SeenBy(accounts[tx.to].State(), tx.id))
    }

    function GetPrepaidTraffic(peer: string): int
      reads this
    {
      if peer in prepaidTraffic then prepaidTraffic[peer] else 0
    }

    method AddPrepaidTraffic(peer: string, bytes: int)
      requires Valid()
      modifies this`prepaidTraffic, this`disk, this`ledger
      ensures Valid() && State() == Next(cfg, old(State()), Event(0, AddTraffic(peer, bytes)))
    {
      prepaidTraffic := prepaidTraffic[peer := GetPrepaidTraffic(peer) + bytes];
      ledger := AddQuota(ledger, peer, bytes);
      SaveLocked();
    }

    /** The only change that is not saved at once. */
    method ConsumePrepaidTraffic(peer: string, bytes: int) returns (granted: bool)
      requires Valid()
      modifies this`prepaidTraffic, this`ledger
      ensures granted == CanConsume(old(ledger), peer, bytes) == (old(GetPrepaidTraffic(peer)) >= bytes)
      ensures Valid() && State() == Next(cfg, old(State()), Event(0, ConsumeTraffic(peer, bytes)))
    {
      granted := GetPrepaidTraffic(peer) >= bytes;
      if granted {
        prepaidTraffic := prepaidTraffic[peer := GetPrepaidTraffic(peer) - bytes];
        ledger := AddQuota(ledger, peer, -bytes);
      }
    }
  }

  /** Opening the two accounts first changes neither the verdict nor the posting. */
  lemma TouchFirst(cfg: Config, l: Ledger, tx: Transaction, now: int)
    ensures Decide(cfg, Touch(l, tx), tx, true) == Decide(cfg, l, tx, true)
    ensures Apply(cfg, Touch(l, tx), tx, now) == Apply(cfg, l, tx, now)
  {
    var a, b := Post(cfg, Account(l, tx.from), tx.from, tx, now), Post(cfg, Account(l, tx.to), tx.to, tx, now);
    assert Account(Touch(l, tx), tx.from) == Account(l, tx.from) && Account(Touch(l, tx), tx.to) == Account(l, tx.to);
    OverwriteTwo(l.accounts, Touch(l, tx).accounts, tx.from, a, tx.to, b);
  }

  lemma OverwriteTwo(
    m: map<string, AccountState>, m': map<string, AccountState>, p: string, a: AccountState, q: string, b: AccountState)
    requires m'.Keys == m.Keys + {p, q} && forall k :: k in m ==> m'[k] == m[k]
    ensures m'[p := a][q := b] == m[p := a][q := b]
  {
  }

  lemma OpenFirst(l: Ledger, p: string, a: AccountState, b: AccountState)
    ensures WithAccount(Open(l, p, a), p, b) == WithAccount(l, p, b)
  {
  }

  /** The ledger when only the accounts in `left` are still to be read. */
  ghost function ReadExcept(disk: Ledger, left: set<string>): Ledger {
    Ledger(RepairAll(disk).accounts - left, disk.prepaid)
  }

  lemma ReadStep(disk: Ledger, left: set<string>, p: string)
    requires p in left && p in disk.accounts
    ensures WithAccount(ReadExcept(disk, left), p, Repair(disk.accounts[p])) == ReadExcept(disk, left - {p})
  {
    OverlayStep(map[], RepairAll(disk).accounts, left, p);
    var all := RepairAll(disk).accounts;
    assert map[] + (all - left) == all - left && map[] + (all - (left - {p})) == all - (left - {p});
  }

  /** The ledger when only the accounts in `left` are still to be merged. */
  ghost function MergeExcept(l: Ledger, dump: map<string, AccountState>, left: set<string>): Ledger {
    l.(accounts := l.accounts + (MergedAccounts(l, dump) - left))
  }

  lemma MergeEnds(l: Ledger, dump: map<string, AccountState>)
    ensures MergeExcept(l, dump, dump.Keys) == l && MergeExcept(l, dump, {}) == Merge(l, dump)
  {
    var merged := MergedAccounts(l, dump);
    assert merged.Keys == dump.Keys;
    assert merged - dump.Keys == map[] && merged - {} == merged;
    assert l.accounts + map[] == l.accounts;
  }

  lemma MergeStep(l: Ledger, dump: map<string, AccountState>, left: set<string>, p: string)
    requires p in left && p in dump
    ensures MergeBase(MergeExcept(l, dump, left), p) == MergeBase(l, p)
    ensures WithAccount(MergeExcept(l, dump, left), p, MergedAccounts(l, dump)[p])
         == MergeExcept(l, dump, left - {p})
  {
    OverlayStep(l.accounts, MergedAccounts(l, dump), left, p);
  }

  lemma OverlayStep(base: map<string, AccountState>, change: map<string, AccountState>, left: set<string>, p: string)
    requires p in left && p in change
    ensures (base + (change - left))[p := change[p]] == base + (change - (left - {p}))
  {
  }

  /** The ledger when only the accounts in `left` are still to be pruned. */
  ghost function PruneExcept(l: Ledger, left: set<string>, now: int): Ledger {
    l.(accounts := map p | p in l.accounts :: if p in left then l.accounts[p] else PruneAccount(l.accounts[p], now))
  }

  lemma PruneStep(l: Ledger, left: set<string>, p: string, now: int)
    requires p in left && p in l.accounts
    ensures var m := PruneExcept(l, left, now);
      var m' := PruneExcept(l, left - {p}, now);
      && m.accounts[p] == l.accounts[p]
      && WithAccount(m, p, PruneAccount(l.accounts[p], now)) == m'
      && (m' == l <==> m == l && m'.accounts[p] == m.accounts[p])
  {
  }

  lemma PruneEnds(l: Ledger, now: int)
    ensures PruneExcept(l, l.accounts.Keys, now) == l && PruneExcept(l, {}, now) == Prune(l, now)
  {
  }
}
