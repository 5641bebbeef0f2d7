/** What a sync with the oracle does to histories, and when a second sync with
    the same dump does nothing. */
module Merging {
  import opened LedgerSpec

  /** Some entry of `h` among the first `n` leaves a stamp for `id`. */
  predicate Stamps(h: seq<Transaction>, n: nat, id: string)
    requires n <= |h|
  {
    exists j :: 0 <= j < n && h[j].id == id && h[j].time != 0
  }

  /** Entry `i` is new: not seen before, nor stamped by an earlier entry. */
  predicate Novel(a: AccountState, h: seq<Transaction>, i: nat)
    requires i < |h|
  {
    !SeenBy(a, h[i].id) && !Stamps(h, i, h[i].id)
  }

  function NovelEntries(a: AccountState, h: seq<Transaction>, n: nat): seq<Transaction>
    requires n <= |h|
  {
    if n == 0 then []
    else NovelEntries(a, h, n - 1) + if Novel(a, h, n - 1) then [h[n - 1]] else []
  }

  lemma {:induction false} AbsorbSeen(a: AccountState, h: seq<Transaction>, n: nat, id: string)
    requires n <= |h|
    ensures SeenBy(AbsorbFirst(a, h, n), id) <==> SeenBy(a, id) || Stamps(h, n, id)
  {
    if n > 0 {
      AbsorbSeen(a, h, n - 1, id);
      assert Stamps(h, n, id) <==> Stamps(h, n - 1, id) || (h[n - 1].id == id && h[n - 1].time != 0);
    }
  }

  /** The merged history is the old one and then the new entries, in order. */
  lemma {:induction false} AbsorbHistory(a: AccountState, h: seq<Transaction>, n: nat)
    requires n <= |h|
    ensures AbsorbFirst(a, h, n).history == a.history + NovelEntries(a, h, n)
  {
    if n > 0 {
      AbsorbHistory(a, h, n - 1);
      AbsorbSeen(a, h, n - 1, h[n - 1].id);
    }
  }

  /** Everything a sync promises for one account. */
  lemma MergedAccount(l: Ledger, dump: map<string, AccountState>, p: string)
    ensures p !in dump ==> Account(Merge(l, dump), p) == Account(l, p)
    ensures p in dump ==>
      var had, has := MergeBase(l, p), Account(Merge(l, dump), p);
      && has.balance == dump[p].balance && has.rating == dump[p].rating
      && has.history == had.history + NovelEntries(had, dump[p].history, |dump[p].history|)
      && forall id :: SeenBy(has, id) <==> SeenBy(had, id) || Stamps(dump[p].history, |dump[p].history|, id)
  {
    if p in dump {
      var had, o := MergeBase(l, p), dump[p];
      var a := had.(balance := o.balance, rating := o.rating);
      MergedFunds(had, o);
      AbsorbHistory(a, o.history, |o.history|);
      SameNovelty(had, a, o.history, |o.history|);
      forall id
        ensures SeenBy(MergeAccount(had, o), id) <==> SeenBy(had, id) || Stamps(o.history, |o.history|, id)
      {
        AbsorbSeen(a, o.history, |o.history|, id);
      }
      assert Merge(l, dump).accounts[p] == MergeAccount(had, o);
    }
  }

  lemma {:induction false} SameNovelty(a: AccountState, b: AccountState, h: seq<Transaction>, n: nat)
    requires n <= |h| && a.seen == b.seen
    ensures NovelEntries(a, h, n) == NovelEntries(b, h, n)
  {
    if n > 0 {
      SameNovelty(a, b, h, n - 1);
    }
  }

  // ----- idempotence

  /** Every entry of `h` was seen before, or its ID has a stamp somewhere in `h`. */
  predicate AllStamped(a: AccountState, h: seq<Transaction>) {
    forall i :: 0 <= i < |h| ==> SeenBy(a, h[i].id) || Stamps(h, |h|, h[i].id)
  }

  lemma {:induction false} AbsorbNothing(a: AccountState, h: seq<Transaction>, n: nat)
    requires n <= |h| && forall i :: 0 <= i < n ==> SeenBy(a, h[i].id)
    ensures AbsorbFirst(a, h, n) == a
  {
    if n > 0 {
      AbsorbNothing(a, h, n - 1);
    }
  }

  lemma {:induction false} NovelEntryStays(a: AccountState, h: seq<Transaction>, n: nat, i: nat)
    requires i < n <= |h| && Novel(a, h, i)
    ensures |NovelEntries(a, h, n)| > 0
  {
    if i < n - 1 {
      NovelEntryStays(a, h, n - 1, i);
    }
  }

  lemma RemergeAccount(a: AccountState, o: AccountState)
    ensures MergeAccount(MergeAccount(a, o), o) == MergeAccount(a, o) <==> AllStamped(a, o.history)
  {
    var h := o.history;
    var once := MergeAccount(a, o);
    MergedFunds(a, o);
    assert once.(balance := o.balance, rating := o.rating) == once;
    forall i | 0 <= i < |h|
      ensures SeenBy(once, h[i].id) <==> SeenBy(a, h[i].id) || Stamps(h, |h|, h[i].id)
    {
      AbsorbSeen(a.(balance := o.balance, rating := o.rating), h, |h|, h[i].id);
    }
    if AllStamped(a, h) {
      AbsorbNothing(once, h, |h|);
    } else {
      var i :| 0 <= i < |h| && !SeenBy(a, h[i].id) && !Stamps(h, |h|, h[i].id);
      assert Novel(once, h, i);
      NovelEntryStays(once, h, |h|, i);
      AbsorbHistory(once, h, |h|);
    }
  }

  lemma {:induction false} RemergeAt(l: Ledger, dump: map<string, AccountState>, p: string)
    ensures var once := Merge(l, dump);
      var twice := Merge(once, dump);
      && (p in twice.accounts <==> p in once.accounts)
      && (p in once.accounts ==>
            (twice.accounts[p] == once.accounts[p] <==> p !in dump || AllStamped(MergeBase(l, p), dump[p].history)))
  {
    if p in dump {
      RemergeAccount(MergeBase(l, p), dump[p]);
    }
  }

  lemma SameLedger(l: Ledger, l': Ledger)
    requires l.prepaid == l'.prepaid && l.accounts.Keys == l'.accounts.Keys
    ensures l == l' <==> forall p :: p in l.accounts ==> l.accounts[p] == l'.accounts[p]
  {
  }

  /** A second sync with the same dump changes nothing exactly when every entry
      of the dump is seen already or has a stamp that is not zero. */
  lemma {:induction false} RemergeIsIdle(l: Ledger, dump: map<string, AccountState>)
    ensures Merge(Merge(l, dump), dump) == Merge(l, dump)
       <==> forall p :: p in dump ==> AllStamped(MergeBase(l, p), dump[p].history)
  {
    var once := Merge(l, dump);
    var twice := Merge(once, dump);
    forall p
      ensures p in twice.accounts <==> p in once.accounts
      ensures p in once.accounts ==>
        (twice.accounts[p] == once.accounts[p] <==> p !in dump || AllStamped(MergeBase(l, p), dump[p].history))
    {
      RemergeAt(l, dump, p);
    }
    assert twice.accounts.Keys == once.accounts.Keys;
    SameLedger(twice, once);
  }

  lemma TimedDumpIsIdle(l: Ledger, dump: map<string, AccountState>)
    requires forall p, i :: p in dump && 0 <= i < |dump[p].history| ==> dump[p].history[i].time != 0
    ensures Merge(Merge(l, dump), dump) == Merge(l, dump)
  {
    RemergeIsIdle(l, dump);
    forall p, i | p in dump && 0 <= i < |dump[p].history|
      ensures Stamps(dump[p].history, |dump[p].history|, dump[p].history[i].id)
    {
    }
  }

  /** The accounts of a dump can be taken in pieces, in any order. */
  lemma {:induction false} MergeInPieces(l: Ledger, one: map<string, AccountState>, two: map<string, AccountState>)
    requires one.Keys !! two.Keys
    ensures Merge(Merge(l, one), two) == Merge(l, one + two)
  {
    forall p
      ensures var a, b := Merge(Merge(l, one), two).accounts, Merge(l, one + two).accounts;
        (p in a <==> p in b) && (p in b ==> a[p] == b[p])
    {
      MergeInPiecesAt(l, one, two, p);
    }
    assert Merge(Merge(l, one), two).accounts.Keys == Merge(l, one + two).accounts.Keys;
    SameLedger(Merge(Merge(l, one), two), Merge(l, one + two));
  }

  lemma MergeInPiecesAt(l: Ledger, one: map<string, AccountState>, two: map<string, AccountState>, p: string)
    requires one.Keys !! two.Keys
    ensures var a, b := Merge(Merge(l, one), two).accounts, Merge(l, one + two).accounts;
      (p in a <==> p in b) && (p in b ==> a[p] == b[p])
  {
    assert p in two ==> MergeBase(Merge(l, one), p) == MergeBase(l, p);
  }
}
