/** When a rollback right after a payment takes the accounts back. */
module Undo {
  import opened LedgerSpec

  /** One more entry will not push out an old one. */
  predicate HasRoom(cfg: Config, a: AccountState) {
    cfg.isCommandCenter || |a.history| < HISTORY_CAP
  }

  /** No stamp for the ID is left, not even a zero. */
  predicate Unstamped(a: AccountState, tx: Transaction) {
    tx.id !in a.seen
  }

  /** From the first entry with the ID on, if there is one, the history is nothing
      but `tx`: so it does not matter which of them goes. */
  predicate EndsIn(h: seq<Transaction>, tx: Transaction) {
    forall i, k :: 0 <= i <= k < |h| && h[i].id == tx.id ==> h[k] == tx
  }

  predicate Undoable(cfg: Config, a: AccountState, tx: Transaction) {
    HasRoom(cfg, a) && Unstamped(a, tx) && EndsIn(a.history, tx)
  }

  lemma ShiftedTail(h: seq<Transaction>, tx: Transaction)
    requires h != []
    ensures h[1..] + [tx] == h <==> forall k :: 0 <= k < |h| ==> h[k] == tx
  {
    if h[1..] + [tx] == h {
      AllTheSame(h, tx, 0);
    }
  }

  lemma {:induction false} AllTheSame(h: seq<Transaction>, tx: Transaction, i: nat)
    requires i <= |h| && h != [] && h[1..] + [tx] == h
    ensures forall k :: i <= k < |h| ==> h[k] == tx
    decreases |h| - i
  {
    if i < |h| {
      AllTheSame(h, tx, i + 1);
      assert h[i] == (h[1..] + [tx])[i];
    }
  }

  lemma {:induction false} RemoveAppended(h: seq<Transaction>, tx: Transaction)
    ensures RemoveFirst(h + [tx], tx.id) == h <==> EndsIn(h, tx)
  {
    if h == [] {
      assert h + [tx] == [tx];
    } else if h[0].id == tx.id {
      assert (h + [tx])[1..] == h[1..] + [tx];
      ShiftedTail(h, tx);
    } else {
      var rest := h[1..];
      assert (h + [tx])[1..] == rest + [tx];
      RemoveAppended(rest, tx);
      assert h == [h[0]] + rest;
      assert RemoveFirst(h + [tx], tx.id)[1..] == RemoveFirst(rest + [tx], tx.id);
      EndsInRest(h, tx);
    }
  }

  lemma EndsInRest(h: seq<Transaction>, tx: Transaction)
    requires h != [] && h[0].id != tx.id
    ensures EndsIn(h, tx) <==> EndsIn(h[1..], tx)
  {
    if EndsIn(h[1..], tx) {
      forall i, k | 0 <= i <= k < |h| && h[i].id == tx.id
        ensures h[k] == tx
      {
        assert h[1..][i - 1] == h[i] && h[1..][k - 1] == h[k];
      }
    }
  }

  lemma {:induction false} RemoveShortens(h: seq<Transaction>, id: string)
    requires exists i :: 0 <= i < |h| && h[i].id == id
    ensures |RemoveFirst(h, id)| == |h| - 1
  {
    if h[0].id != id {
      var i :| 0 <= i < |h| && h[i].id == id;
      assert h[1..][i - 1].id == id;
      RemoveShortens(h[1..], id);
    }
  }

  /** When one account comes back exactly. */
  lemma {:induction false} UnpostPost(cfg: Config, a: AccountState, p: string, tx: Transaction, now: int, refund: real)
    ensures Unpost(Post(cfg, a, p, tx, now), refund, tx.id) == a
       <==> Undoable(cfg, a, tx) && Delta(tx, p) + refund == 0.0
  {
    var h := Capped(cfg, a.history + [tx]);
    assert h[|h| - 1] == tx;
    RemoveShortens(h, tx.id);
    RemoveAppended(a.history, tx);
    assert a.seen[tx.id := now] - {tx.id} == a.seen <==> Unstamped(a, tx);
  }

  function Undone(cfg: Config, l: Ledger, tx: Transaction, now: int, p: string): AccountState {
    var a := Post(cfg, Account(l, p), p, tx, now);
    if p == tx.from then Unpost(a, tx.amount, tx.id)
    else if p == tx.to then Unpost(a, -tx.amount, tx.id)
    else Account(l, p)
  }

  lemma RollbackAt(cfg: Config, l: Ledger, tx: Transaction, now: int, p: string)
    ensures var undone := Rollback(Apply(cfg, l, tx, now), tx).accounts;
      && (p in undone <==> p in Touch(l, tx).accounts)
      && (p in undone ==> undone[p] == Undone(cfg, l, tx, now, p))
  {
  }

  /** The accounts come back exactly (apart from empty ones that the payment
      opened) if and only if the payment had two parties, or no amount, and each
      history had room, no stamp of the ID, and no entry that the rollback would
      take instead. The prepaid quota is never taken back. */
  lemma {:induction false} RollbackRestores(cfg: Config, l: Ledger, tx: Transaction, now: int)
    requires Decide(cfg, l, tx, true) == Applied
    ensures Rollback(Apply(cfg, l, tx, now), tx).accounts == Touch(l, tx).accounts
       <==> && (tx.from != tx.to || tx.amount == 0.0)
            && Undoable(cfg, Account(l, tx.from), tx) && Undoable(cfg, Account(l, tx.to), tx)
    ensures Rollback(Apply(cfg, l, tx, now), tx).prepaid == Apply(cfg, l, tx, now).prepaid
  {
    PartiesUndone(cfg, l, tx, now);
    OthersUndone(cfg, l, tx, now);
    TouchedAt(l, tx);
    SameMap(Rollback(Apply(cfg, l, tx, now), tx).accounts, Touch(l, tx).accounts, tx.from, tx.to);
  }

  lemma {:induction false} PartiesUndone(cfg: Config, l: Ledger, tx: Transaction, now: int)
    ensures var undone := Rollback(Apply(cfg, l, tx, now), tx).accounts;
      && tx.from in undone && tx.to in undone
      && (undone[tx.from] == Account(l, tx.from) && undone[tx.to] == Account(l, tx.to)
          <==> && (tx.from != tx.to || tx.amount == 0.0)
               && Undoable(cfg, Account(l, tx.from), tx) && Undoable(cfg, Account(l, tx.to), tx))
  {
    UnpostPost(cfg, Account(l, tx.from), tx.from, tx, now, tx.amount);
    UnpostPost(cfg, Account(l, tx.to), tx.to, tx, now, -tx.amount);
    RollbackAt(cfg, l, tx, now, tx.from);
    RollbackAt(cfg, l, tx, now, tx.to);
  }

  lemma {:induction false} OthersUndone(cfg: Config, l: Ledger, tx: Transaction, now: int)
    ensures var undone, touched := Rollback(Apply(cfg, l, tx, now), tx).accounts, Touch(l, tx).accounts;
      undone.Keys == touched.Keys && forall p :: p in undone && p != tx.from && p != tx.to ==> undone[p] == touched[p]
  {
    forall p
      ensures var undone, touched := Rollback(Apply(cfg, l, tx, now), tx).accounts, Touch(l, tx).accounts;
        (p in undone <==> p in touched) && (p in undone && !Involves(tx, p) ==> undone[p] == touched[p])
    {
      RollbackAt(cfg, l, tx, now, p);
    }
  }

  /** For example: the stamps of an account are pruned, the same payment is made
      once more, and the rollback takes the earlier entry for it. */
  lemma {:induction false} RollbackAfterReplay(cfg: Config, tx: Transaction, x: Transaction, now: int)
    requires tx.from != tx.to && tx.amount <= 10.0 && x.id != tx.id
    ensures var a := AccountState(0.0, 5.0, [tx, x], map[]);
      var l := Ledger(map[tx.from := a, tx.to := a], map[]);
      && Decide(cfg, l, tx, true) == Applied
      && Rollback(Apply(cfg, l, tx, now), tx).accounts[tx.to].history == [x, tx]
  {
    var a := AccountState(0.0, 5.0, [tx, x], map[]);
    var l := Ledger(map[tx.from := a, tx.to := a], map[]);
    RollbackAt(cfg, l, tx, now, tx.to);
    assert a.history + [tx] == [tx, x, tx];
    assert [tx, x, tx][1..] == [x, tx];
  }

  lemma TouchedAt(l: Ledger, tx: Transaction)
    ensures tx.from in Touch(l, tx).accounts && Touch(l, tx).accounts[tx.from] == Account(l, tx.from)
    ensures tx.to in Touch(l, tx).accounts && Touch(l, tx).accounts[tx.to] == Account(l, tx.to)
  {
  }

  lemma SameMap(m: map<string, AccountState>, m': map<string, AccountState>, p: string, q: string)
    requires p in m && q in m && m.Keys == m'.Keys
    requires forall k :: k in m && k != p && k != q ==> m[k] == m'[k]
    ensures m == m' <==> m[p] == m'[p] && m[q] == m'[q]
  {
  }
}
