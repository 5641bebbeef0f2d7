/** The replicated ZPCN ledger as a value: what one critical section of the
    economy manager does to the accounts and the prepaid byte quotas.

    `Account` reads a missing entry as a fresh account, which is what every
    operation that needs one creates first. */
module LedgerSpec {
  import Text

  type Peer = string

  datatype Transaction = Transaction(
    id: string, from: string, to: string, amount: real, time: int, comment: string)

  datatype Option<+T> = None | Some(value: T)

  /** `seen` maps a transaction ID to the millisecond stamp of its first sight. */
  datatype AccountState = AccountState(
    balance: real, rating: real, history: seq<Transaction>, seen: map<string, int>)

  datatype Ledger = Ledger(accounts: map<string, AccountState>, prepaid: map<string, int>)

  /** What a node knows about itself. `knownOracle(s)` says that the text `s`
      decodes to the peer ID of the oracle key this node holds (nothing does
      while it holds none). */
  datatype Config = Config(
    selfID: string, isCommandCenter: bool, vpnPrice: real, knownOracle: string -> bool)

  datatype Outcome = Applied | Duplicate | Rejected

  const MINT_ADDRESS := "SYSTEM_MINT_ADDRESS"
  const PREPAY_COMMENT := "VPN Prepay"
  const SEEN_TTL: int := 30 * 24 * 60 * 60 * 1000
  const HISTORY_CAP: nat := 100
  const BYTES_PER_GB := 1024.0 * 1024.0 * 1024.0

  const NEW_ACCOUNT := AccountState(0.0, 5.0, [], map[])

  function Account(l: Ledger, p: string): AccountState {
    if p in l.accounts then l.accounts[p] else NEW_ACCOUNT
  }

  function WithAccount(l: Ledger, p: string, a: AccountState): Ledger {
    l.(accounts := l.accounts[p := a])
  }

  function Open(l: Ledger, p: string, a: AccountState): Ledger {
    if p in l.accounts then l else WithAccount(l, p, a)
  }

  /** Go reads a missing map entry as zero, so a stored zero counts as unseen. */
  predicate SeenBy(a: AccountState, id: string) {
    id in a.seen && a.seen[id] != 0
  }

  predicate HasSeen(l: Ledger, tx: Transaction) {
    SeenBy(Account(l, tx.from), tx.id) || SeenBy(Account(l, tx.to), tx.id)
  }

  predicate IsOracle(cfg: Config, p: string) {
    cfg.knownOracle(p) || (cfg.isCommandCenter && p == cfg.selfID) || p == MINT_ADDRESS
  }

  predicate HasCredit(cfg: Config, l: Ledger, tx: Transaction) {
    var from := Account(l, tx.from);
    IsOracle(cfg, tx.from) || from.balance + from.rating * 2.0 >= tx.amount
  }

  // ----- ProcessTransaction

  /** The credit check comes before the replay check. */
  function Decide(cfg: Config, l: Ledger, tx: Transaction, verified: bool): Outcome {
    if !verified || !HasCredit(cfg, l, tx) then Rejected
    else if HasSeen(l, tx) then Duplicate
    else Applied
  }

  /** What `tx` does to the balance of `p`; nothing for a payment to oneself. */
  function Delta(tx: Transaction, p: string): real {
    (if p == tx.to then tx.amount else 0.0) - (if p == tx.from then tx.amount else 0.0)
  }

  function Capped(cfg: Config, h: seq<Transaction>): seq<Transaction> {
    if cfg.isCommandCenter || |h| <= HISTORY_CAP then h else h[|h| - HISTORY_CAP..]
  }

  function Post(cfg: Config, a: AccountState, p: string, tx: Transaction, now: int): AccountState {
    AccountState(a.balance + Delta(tx, p), a.rating, Capped(cfg, a.history + [tx]), a.seen[tx.id := now])
  }

  /** Conversion of a Go float64 to int64 drops the fraction. */
  function Truncate(x: real): int {
    if x >= 0.0 then x.Floor else -((-x).Floor)
  }

  function PrepaidBytes(cfg: Config, amount: real): int {
    var price := if cfg.vpnPrice <= 0.0 then 0.5 else cfg.vpnPrice;
    Truncate(amount / price * BYTES_PER_GB)
  }

  function Quota(l: Ledger, p: string): int {
    if p in l.prepaid then l.prepaid[p] else 0
  }

  function Touch(l: Ledger, tx: Transaction): Ledger {
    Open(Open(l, tx.from, NEW_ACCOUNT), tx.to, NEW_ACCOUNT)
  }

  predicate IsPrepay(cfg: Config, tx: Transaction) {
    tx.to == cfg.selfID && tx.comment == PREPAY_COMMENT
  }

  function CreditIfPrepay(cfg: Config, l: Ledger, tx: Transaction): Ledger {
    if IsPrepay(cfg, tx) then AddQuota(l, tx.from, PrepaidBytes(cfg, tx.amount)) else l
  }

  function Apply(cfg: Config, l: Ledger, tx: Transaction, now: int): Ledger {
    CreditIfPrepay(cfg, l.(accounts :=
      l.accounts[tx.from := Post(cfg, Account(l, tx.from), tx.from, tx, now)]
                [tx.to := Post(cfg, Account(l, tx.to), tx.to, tx, now)]), tx)
  }

  function Process(cfg: Config, l: Ledger, tx: Transaction, verified: bool, now: int): Ledger {
    if Decide(cfg, l, tx, verified) == Applied then Apply(cfg, l, tx, now)
    else if verified then Touch(l, tx)
    else l
  }

  predicate Involves(tx: Transaction, p: string) {
    p == tx.from || p == tx.to
  }

  /** Only the two parties of an applied transaction change, each once. */
  lemma ProcessedAccount(cfg: Config, l: Ledger, tx: Transaction, verified: bool, now: int, p: string)
    ensures Account(Process(cfg, l, tx, verified, now), p)
         == if Decide(cfg, l, tx, verified) == Applied && Involves(tx, p)
            then Post(cfg, Account(l, p), p, tx, now) else Account(l, p)
  {
  }

  // ----- cleanupSeenTxs

  function PruneSeen(seen: map<string, int>, cutoff: int): map<string, int> {
    map id | id in seen && seen[id] >= cutoff :: seen[id]
  }

  function PruneAccount(a: AccountState, now: int): AccountState {
    a.(seen := PruneSeen(a.seen, now - SEEN_TTL))
  }

  function Prune(l: Ledger, now: int): Ledger {
    l.(accounts := map p | p in l.accounts :: PruneAccount(l.accounts[p], now))
  }

  // ----- MergeState

  function Absorb(a: AccountState, tx: Transaction): AccountState {
    if SeenBy(a, tx.id) then a
    else a.(seen := a.seen[tx.id := tx.time], history := a.history + [tx])
  }

  /** The account after the first `n` entries of the oracle's history. */
  function AbsorbFirst(a: AccountState, h: seq<Transaction>, n: nat): AccountState
    requires n <= |h|
  {
    if n == 0 then a else Absorb(AbsorbFirst(a, h, n - 1), h[n - 1])
  }

  /** An account that only the oracle knows starts with no rating. */
  function MergeBase(l: Ledger, p: string): AccountState {
    if p in l.accounts then l.accounts[p] else AccountState(0.0, 0.0, [], map[])
  }

  function MergeAccount(a: AccountState, o: AccountState): AccountState {
    AbsorbFirst(a.(balance := o.balance, rating := o.rating), o.history, |o.history|)
  }

  lemma {:induction false} AbsorbKeepsFunds(a: AccountState, h: seq<Transaction>, n: nat)
    requires n <= |h|
    ensures AbsorbFirst(a, h, n).balance == a.balance && AbsorbFirst(a, h, n).rating == a.rating
  {
    if n > 0 {
      AbsorbKeepsFunds(a, h, n - 1);
    }
  }

  /** The oracle's figures win. */
  lemma MergedFunds(a: AccountState, o: AccountState)
    ensures MergeAccount(a, o).balance == o.balance && MergeAccount(a, o).rating == o.rating
  {
    AbsorbKeepsFunds(a.(balance := o.balance, rating := o.rating), o.history, |o.history|);
  }

  function MergedAccounts(l: Ledger, dump: map<string, AccountState>): map<string, AccountState> {
    map p | p in dump :: MergeAccount(MergeBase(l, p), dump[p])
  }

  function Merge(l: Ledger, dump: map<string, AccountState>): Ledger {
    l.(accounts := l.accounts + MergedAccounts(l, dump))
  }

  // ----- load

  /** Stamps for history entries that have none, up to the first `n`. */
  function Backfill(seen: map<string, int>, h: seq<Transaction>, n: nat): map<string, int>
    requires n <= |h|
  {
    if n == 0 then seen
    else
      var s := Backfill(seen, h, n - 1);
      if h[n - 1].id in s then s else s[h[n - 1].id := h[n - 1].time]
  }

  function Repair(a: AccountState): AccountState {
    AccountState(a.balance, if a.rating == 0.0 then 5.0 else a.rating, a.history,
                 Backfill(a.seen, a.history, |a.history|))
  }

  const GENESIS_FUND := 1000000.0
  const ENDLESS_FUND := 1000000000.0

  function Genesis(cfg: Config): AccountState {
    AccountState(if cfg.isCommandCenter then GENESIS_FUND else 0.0, 5.0, [], map[])
  }

  predicate NeedsTopUp(cfg: Config, l: Ledger) {
    cfg.isCommandCenter && Account(l, cfg.selfID).balance < GENESIS_FUND
  }

  function TopUp(cfg: Config, l: Ledger): Ledger {
    if NeedsTopUp(cfg, l)
    then WithAccount(l, cfg.selfID, Account(l, cfg.selfID).(balance := ENDLESS_FUND))
    else l
  }

  function RepairAll(l: Ledger): Ledger {
    l.(accounts := map p | p in l.accounts :: Repair(l.accounts[p]))
  }

  function Load(cfg: Config, disk: Ledger): Ledger {
    TopUp(cfg, Open(RepairAll(disk), cfg.selfID, Genesis(cfg)))
  }

  // ----- rollbackTransaction

  function RemoveFirst(h: seq<Transaction>, id: string): seq<Transaction> {
    if h == [] then []
    else if h[0].id == id then h[1..]
    else [h[0]] + RemoveFirst(h[1..], id)
  }

  lemma {:induction false} RemoveFirstAt(h: seq<Transaction>, id: string, i: nat)
    requires i < |h| && h[i].id == id && forall k :: 0 <= k < i ==> h[k].id != id
    ensures RemoveFirst(h, id) == h[..i] + h[i + 1..]
  {
    if i > 0 {
      RemoveFirstAt(h[1..], id, i - 1);
      assert [h[0]] + h[1..][..i - 1] == h[..i];
      assert h[1..][i..] == h[i + 1..];
    }
  }

  lemma {:induction false} RemoveFirstNone(h: seq<Transaction>, id: string)
    requires forall k :: 0 <= k < |h| ==> h[k].id != id
    ensures RemoveFirst(h, id) == h
  {
    if h != [] {
      RemoveFirstNone(h[1..], id);
    }
  }

  function Unpost(a: AccountState, refund: real, id: string): AccountState {
    AccountState(a.balance + refund, a.rating, RemoveFirst(a.history, id), a.seen - {id})
  }

  /** A payment to oneself gets the refund and no matching debit. */
  function Rollback(l: Ledger, tx: Transaction): Ledger {
    var l1 := if tx.from in l.accounts
              then WithAccount(l, tx.from, Unpost(l.accounts[tx.from], tx.amount, tx.id))
              else l;
    if tx.to in l1.accounts && tx.from != tx.to
    then WithAccount(l1, tx.to, Unpost(l1.accounts[tx.to], -tx.amount, tx.id))
    else l1
  }

  /** A local payment: its ID is the millisecond it was made in. */
  function LocalTransaction(cfg: Config, to: string, amount: real, comment: string, ms: int): Transaction {
    Transaction("tx-" + Text.Decimal(ms), cfg.selfID, to, amount, ms, comment)
  }

  predicate CanPay(cfg: Config, l: Ledger, amount: real) {
    cfg.selfID in l.accounts && l.accounts[cfg.selfID].balance >= amount
  }

  // ----- prepaid quotas

  predicate CanConsume(l: Ledger, p: string, bytes: int) {
    Quota(l, p) >= bytes
  }

  function AddQuota(l: Ledger, p: string, bytes: int): Ledger {
    l.(prepaid := l.prepaid[p := Quota(l, p) + bytes])
  }

  function Consume(l: Ledger, p: string, bytes: int): Ledger {
    if CanConsume(l, p, bytes) then AddQuota(l, p, -bytes) else l
  }
}
