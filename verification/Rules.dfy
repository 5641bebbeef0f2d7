/** The rules of the ledger in plain figures: what each critical section decides
    and changes, without the names the model gives its parts. */
module Rules {
  import opened LedgerSpec
  import opened NodeRuns
  import Text

  function BalanceOf(l: Ledger, p: string): real {
    if p in l.accounts then l.accounts[p].balance else 0.0
  }

  function RatingOf(l: Ledger, p: string): real {
    if p in l.accounts then l.accounts[p].rating else 5.0
  }

  function HistoryOf(l: Ledger, p: string): seq<Transaction> {
    if p in l.accounts then l.accounts[p].history else []
  }

  /** The stamp an account has for an ID; none is zero. */
  function StampOf(l: Ledger, p: string, id: string): int {
    if p in l.accounts && id in l.accounts[p].seen then l.accounts[p].seen[id] else 0
  }

  function QuotaOf(l: Ledger, p: string): int {
    if p in l.prepaid then l.prepaid[p] else 0
  }

  // ----- payments


  /** The signature first, then the credit, then the stamps of either party. */
  lemma DecisionRule(cfg: Config, l: Ledger, tx: Transaction, verified: bool)
    ensures var broke := BalanceOf(l, tx.from) + 2.0 * RatingOf(l, tx.from) < tx.amount
        && !cfg.knownOracle(tx.from) && !(cfg.isCommandCenter && tx.from == cfg.selfID)
        && tx.from != "SYSTEM_MINT_ADDRESS";
      var stamped := StampOf(l, tx.from, tx.id) != 0 || StampOf(l, tx.to, tx.id) != 0;
      && (Decide(cfg, l, tx, verified) == Rejected <==> !verified || broke)
      && (Decide(cfg, l, tx, verified) == Duplicate <==> verified && !broke && stamped)
      && (Decide(cfg, l, tx, verified) == Applied <==> verified && !broke && !stamped)
  {
  }

  /** What a party of an applied transaction has afterwards. */
  lemma {:induction false} PostingRule(cfg: Config, l: Ledger, tx: Transaction, now: int, p: string, id: string)
    requires Decide(cfg, l, tx, true) == Applied && (p == tx.from || p == tx.to)
    ensures var l' := Process(cfg, l, tx, true, now);
      var full := HistoryOf(l, p) + [tx];
      && p in l'.accounts
      && BalanceOf(l', p) == (if tx.from == tx.to then BalanceOf(l, p)
                              else if p == tx.from then BalanceOf(l, p) - tx.amount
                              else BalanceOf(l, p) + tx.amount)
      && RatingOf(l', p) == RatingOf(l, p)
      && StampOf(l', p, id) == (if id == tx.id then now else StampOf(l, p, id))
      && HistoryOf(l', p) == if cfg.isCommandCenter || |full| <= 100 then full else full[|full| - 100..]
  {
    ProcessedAccount(cfg, l, tx, true, now, p);
  }

  /** Everybody else, and everybody if it is not applied: at most an empty account
      with a rating of 5 is opened for the parties. */
  lemma {:induction false} OthersRule(cfg: Config, l: Ledger, tx: Transaction, verified: bool, now: int, p: string)
    requires Decide(cfg, l, tx, verified) != Applied || (p != tx.from && p != tx.to)
    ensures var l' := Process(cfg, l, tx, verified, now);
      if p in l.accounts then p in l'.accounts && l'.accounts[p] == l.accounts[p]
      else if verified && (p == tx.from || p == tx.to)
      then p in l'.accounts && l'.accounts[p] == AccountState(0.0, 5.0, [], map[])
      else p !in l'.accounts
  {
  }

  // ----- prepaid traffic

  /** An amount buys the whole bytes of its gigabytes at the node's price, which is a
      half if none is set; the fraction of a byte is dropped on either side of zero. */
  predicate Buys(cfg: Config, amount: real, b: int) {
    var price := if cfg.vpnPrice <= 0.0 then 0.5 else cfg.vpnPrice;
    if amount >= 0.0 then b as real * price <= amount * 1073741824.0 < (b + 1) as real * price
    else (b - 1) as real * price < amount * 1073741824.0 <= b as real * price
  }

  lemma {:induction false} PriceRule(cfg: Config, amount: real)
    ensures Buys(cfg, amount, PrepaidBytes(cfg, amount))
  {
    var price := if cfg.vpnPrice <= 0.0 then 0.5 else cfg.vpnPrice;
    var q := amount / price * 1073741824.0;
    assert PrepaidBytes(cfg, amount) == Truncate(q);
    QuotientTimes(amount, price);
    if amount >= 0.0 {
      QuotientSign(amount, price);
      BuysUp(amount, price, q);
    } else {
      QuotientSign(-amount, price);
      assert (-amount) / price == -(amount / price);
      BuysDown(amount, price, q);
    }
  }

  lemma {:induction false} BuysUp(amount: real, price: real, q: real)
    requires price > 0.0 && q >= 0.0 && q * price == amount * 1073741824.0
    ensures Truncate(q) as real * price <= amount * 1073741824.0 < (Truncate(q) + 1) as real * price
  {
    var b, up := Truncate(q) as real, (Truncate(q) + 1) as real;
    Whole(q);
    Scale(b, q, price);
    ScaleStrictly(q, up, price);
    assert amount * 1073741824.0 < up * price;
  }

  lemma {:induction false} BuysDown(amount: real, price: real, q: real)
    requires price > 0.0 && q <= 0.0 && q * price == amount * 1073741824.0
    ensures (Truncate(q) - 1) as real * price < amount * 1073741824.0 <= Truncate(q) as real * price
  {
    Whole(-q);
    Scale(q, Truncate(q) as real, price);
    ScaleStrictly((Truncate(q) - 1) as real, q, price);
  }

  lemma Whole(q: real)
    requires q >= 0.0
    ensures Truncate(q) as real <= q < (Truncate(q) + 1) as real
    ensures Truncate(-q) == -Truncate(q)
  {
  }

  lemma QuotientTimes(amount: real, price: real)
    requires price > 0.0
    ensures amount / price * 1073741824.0 * price == amount * 1073741824.0
  {
    var r := amount / price;
    assert r * price == amount;
    assert r * 1073741824.0 * price == r * price * 1073741824.0;
  }

  lemma QuotientSign(x: real, price: real)
    requires x >= 0.0 && price > 0.0
    ensures x / price >= 0.0
  {
  }

  lemma Scale(x: real, y: real, price: real)
    requires x <= y && price > 0.0
    ensures x * price <= y * price
  {
  }

  lemma ScaleStrictly(x: real, y: real, price: real)
    requires x < y && price > 0.0
    ensures x * price < y * price
  {
  }

  /** Nothing else could be meant by it. */
  lemma {:induction false} BuysOnce(cfg: Config, amount: real, b: int, c: int)
    requires Buys(cfg, amount, b) && Buys(cfg, amount, c)
    ensures b == c
  {
    var price := if cfg.vpnPrice <= 0.0 then 0.5 else cfg.vpnPrice;
    if b < c {
      Scale((b + 1) as real, c as real, price);
      Scale(b as real, (c - 1) as real, price);
    } else if c < b {
      Scale((c + 1) as real, b as real, price);
      Scale(c as real, (b - 1) as real, price);
    }
  }

  /** A prepayment to this node, applied, raises the payer's quota by what it buys;
      no other payment and no other quota moves. */
  lemma {:induction false} PrepayRule(cfg: Config, l: Ledger, tx: Transaction, verified: bool, now: int, p: string)
    ensures var bought := QuotaOf(Process(cfg, l, tx, verified, now), p) - QuotaOf(l, p);
      if Decide(cfg, l, tx, verified) == Applied && tx.to == cfg.selfID && tx.comment == "VPN Prepay" && p == tx.from
      then Buys(cfg, tx.amount, bought) else bought == 0
  {
    PriceRule(cfg, tx.amount);
  }

  /** A debit is granted exactly if the quota covers it, and then taken from it. */
  lemma DebitRule(l: Ledger, p: string, bytes: int, q: string)
    ensures CanConsume(l, p, bytes) <==> QuotaOf(l, p) >= bytes
    ensures QuotaOf(Consume(l, p, bytes), q)
         == QuotaOf(l, q) - if p == q && QuotaOf(l, p) >= bytes then bytes else 0
    ensures QuotaOf(AddQuota(l, p, bytes), q) == QuotaOf(l, q) + if p == q then bytes else 0
  {
  }

  /** From one node to the other: a local prepayment, sent as it was made and applied
      at its payee, raises the payer's quota there by what it buys at the payee's
      price. */
  lemma {:induction false} LocalPrepayment(
    payer: Config, payee: Config, l: Ledger, amount: real, ms: int, now: int)
    requires Decide(payee, l, LocalTransaction(payer, payee.selfID, amount, "VPN Prepay", ms), true) == Applied
    ensures var tx := LocalTransaction(payer, payee.selfID, amount, "VPN Prepay", ms);
      Buys(payee, amount,
           QuotaOf(Process(payee, l, tx, true, now), payer.selfID) - QuotaOf(l, payer.selfID))
  {
    PrepayRule(payee, l, LocalTransaction(payer, payee.selfID, amount, "VPN Prepay", ms), true, now, payer.selfID);
  }

  /** A local payment carries exactly what it was asked for. */
  lemma LocalRule(cfg: Config, to: string, amount: real, comment: string, ms: int)
    ensures var tx := LocalTransaction(cfg, to, amount, comment, ms);
      && tx.from == cfg.selfID && tx.to == to && tx.amount == amount && tx.comment == comment && tx.time == ms
      && |tx.id| > 3 && tx.id[..3] == "tx-" && tx.id[3..] == Text.Decimal(ms)
  {
    Text.SignShows(ms);
  }

  // ----- pruning, starting, merging

  /** Stamps go after thirty days: 2 592 000 000 milliseconds. Nothing else does. */
  lemma PruneRule(l: Ledger, now: int, p: string, id: string)
    ensures var l' := Prune(l, now);
      && (p in l'.accounts <==> p in l.accounts) && l'.prepaid == l.prepaid
      && BalanceOf(l', p) == BalanceOf(l, p) && RatingOf(l', p) == RatingOf(l, p) && HistoryOf(l', p) == HistoryOf(l, p)
      && (p in l.accounts ==>
            (id in l'.accounts[p].seen <==> id in l.accounts[p].seen && l.accounts[p].seen[id] >= now - 2592000000))
      && (p in l.accounts && id in l'.accounts[p].seen ==> l'.accounts[p].seen[id] == l.accounts[p].seen[id])
  {
  }

  /** The first entry with an ID has index `i`. */
  predicate IsFirst(h: seq<Transaction>, id: string, i: int) {
    0 <= i < |h| && h[i].id == id && forall k :: 0 <= k < i ==> h[k].id != id
  }

  lemma {:induction false} BackfillRule(seen: map<string, int>, h: seq<Transaction>, n: nat, id: string)
    requires n <= |h|
    ensures id in seen ==> id in Backfill(seen, h, n) && Backfill(seen, h, n)[id] == seen[id]
    ensures id !in seen && id in Backfill(seen, h, n) ==>
      exists i :: i < n && IsFirst(h, id, i) && Backfill(seen, h, n)[id] == h[i].time
    ensures id !in seen && id !in Backfill(seen, h, n) ==> forall i :: 0 <= i < n ==> h[i].id != id
  {
    if n > 0 {
      BackfillRule(seen, h, n - 1, id);
      if id !in seen && id !in Backfill(seen, h, n - 1) && h[n - 1].id == id {
        assert IsFirst(h, id, n - 1);
      }
    }
  }

  /** A start gives every account without a rating a 5, every history entry without a
      stamp its own time, this node an account, and a command center its funds. */
  lemma {:induction false} StartRule(cfg: Config, disk: Ledger, p: string, id: string)
    ensures var l := Load(cfg, disk);
      && l.prepaid == disk.prepaid
      && (p in l.accounts <==> p in disk.accounts || p == cfg.selfID)
      && RatingOf(l, p) == (if RatingOf(disk, p) == 0.0 then 5.0 else RatingOf(disk, p))
      && HistoryOf(l, p) == HistoryOf(disk, p)
      && (p in disk.accounts && id in disk.accounts[p].seen ==>
            id in l.accounts[p].seen && l.accounts[p].seen[id] == disk.accounts[p].seen[id])
      && (p in disk.accounts && id !in disk.accounts[p].seen && id in l.accounts[p].seen ==>
            exists i :: IsFirst(disk.accounts[p].history, id, i)
                        && l.accounts[p].seen[id] == disk.accounts[p].history[i].time)
      && (p in disk.accounts && id !in disk.accounts[p].seen && id !in l.accounts[p].seen ==>
            forall i :: 0 <= i < |disk.accounts[p].history| ==> disk.accounts[p].history[i].id != id)
      && (p in l.accounts && p !in disk.accounts ==> l.accounts[p].seen == map[])
      && BalanceOf(l, p) == (if !cfg.isCommandCenter || p != cfg.selfID then BalanceOf(disk, p)
                             else if p !in disk.accounts then 1000000.0
                             else if BalanceOf(disk, p) < 1000000.0 then 1000000000.0
                             else BalanceOf(disk, p))
  {
    if p in disk.accounts {
      var a := disk.accounts[p];
      BackfillRule(a.seen, a.history, |a.history|, id);
      assert RepairAll(disk).accounts[p] == Repair(a);
    }
  }

  /** A merge keeps a stamp that is not zero; where there is none, the first entry of
      the dump with the ID and a time that is not zero gives it. */
  lemma {:induction false} AbsorbRule(a: AccountState, h: seq<Transaction>, n: nat, id: string)
    requires n <= |h|
    ensures var before := if id in a.seen then a.seen[id] else 0;
      var b := AbsorbFirst(a, h, n);
      var after := if id in b.seen then b.seen[id] else 0;
      && (before != 0 ==> after == before)
      && (before == 0 && after != 0 ==>
            exists i :: 0 <= i < n && h[i].id == id && h[i].time == after
                        && forall k :: 0 <= k < i ==> h[k].id != id || h[k].time == 0)
      && (before == 0 && after == 0 ==> forall i :: 0 <= i < n ==> h[i].id != id || h[i].time == 0)
  {
    if n > 0 {
      AbsorbRule(a, h, n - 1, id);
    }
  }

  // ----- rollback

  /** A rollback refunds the payer, takes the amount from a payee who is somebody
      else, and takes the stamp of either. */
  lemma {:induction false} RollbackRule(l: Ledger, tx: Transaction, p: string, id: string)
    ensures var l' := Rollback(l, tx);
      && (p in l'.accounts <==> p in l.accounts) && l'.prepaid == l.prepaid && RatingOf(l', p) == RatingOf(l, p)
      && BalanceOf(l', p) == BalanceOf(l, p) + (if p !in l.accounts then 0.0
                                                else if p == tx.from then tx.amount
                                                else if p == tx.to then -tx.amount
                                                else 0.0)
      && StampOf(l', p, id) == (if id == tx.id && (p == tx.from || p == tx.to) then 0 else StampOf(l, p, id))
      && (p != tx.from && p != tx.to ==> HistoryOf(l', p) == HistoryOf(l, p))
  {
  }
}
