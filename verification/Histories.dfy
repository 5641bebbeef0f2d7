/** What an account's balance and history say about the transactions that a
    node applied. */
module Histories {
  import opened LedgerSpec
  import opened NodeRuns
  import opened Sequences

  /** Received minus sent. */
  function Net(txs: seq<Transaction>, p: string): real {
    if txs == [] then 0.0 else Net(Butlast(txs), p) + Delta(Last(txs), p)
  }

  function Touching(txs: seq<Transaction>, p: string): seq<Transaction> {
    if txs == [] then []
    else Touching(Butlast(txs), p) + if Involves(Last(txs), p) then [Last(txs)] else []
  }

  /** A history is cut only when something is appended to it. */
  function Kept(cfg: Config, h: seq<Transaction>, added: seq<Transaction>): seq<Transaction> {
    if added == [] then h else Capped(cfg, h + added)
  }

  lemma {:induction false} NetConcat(a: seq<Transaction>, b: seq<Transaction>, p: string)
    ensures Net(a + b, p) == Net(a, p) + Net(b, p)
  {
    if b == [] {
      assert a + b == a;
    } else {
      assert Butlast(a + b) == a + Butlast(b);
      NetConcat(a, Butlast(b), p);
    }
  }

  lemma {:induction false} NetTouching(txs: seq<Transaction>, p: string)
    ensures Net(Touching(txs, p), p) == Net(txs, p)
  {
    if txs != [] {
      NetTouching(Butlast(txs), p);
      NetConcat(Touching(Butlast(txs), p), if Involves(Last(txs), p) then [Last(txs)] else [], p);
      assert Net([Last(txs)], p) == Delta(Last(txs), p);
    }
  }

  /** No copy of another node's balances. */
  predicate Unsynced(run: seq<Event>) {
    forall i :: 0 <= i < |run| ==> !run[i].op.Sync?
  }

  /** Starting up gives money only to a command center, and only to itself. */
  predicate CannotBeFunded(cfg: Config, p: string) {
    !cfg.isCommandCenter || p != cfg.selfID
  }

  predicate NeverFunded(cfg: Config, run: seq<Event>, p: string) {
    CannotBeFunded(cfg, p) || forall i :: 0 <= i < |run| ==> !run[i].op.Restart?
  }

  predicate SameBalance(s: NodeState, p: string, x: real) {
    Account(s.mem, p).balance == x && Account(s.disk, p).balance == x
  }

  predicate SameHistory(s: NodeState, p: string, h: seq<Transaction>) {
    Account(s.mem, p).history == h && Account(s.disk, p).history == h
  }

  lemma AcceptedStep(cfg: Config, s: NodeState, run: seq<Event>)
    requires run != []
    ensures Accepted(cfg, s, run)
         == Accepted(cfg, s, Butlast(run)) + Txs(Posted(cfg, Exec(cfg, s, Butlast(run)), Last(run)))
  {
  }

  lemma PrunedAccount(l: Ledger, now: int, p: string)
    ensures Account(Prune(l, now), p).balance == Account(l, p).balance
    ensures Account(Prune(l, now), p).history == Account(l, p).history
  {
  }

  lemma LoadedAccount(cfg: Config, disk: Ledger, p: string)
    ensures CannotBeFunded(cfg, p) ==> Account(Load(cfg, disk), p).balance == Account(disk, p).balance
    ensures Account(Load(cfg, disk), p).history == Account(disk, p).history
  {
  }

  lemma OnePosted(cfg: Config, s: NodeState, e: Event, p: string)
    ensures var applied := e.op.Receive? && Decide(cfg, s.mem, e.op.tx, e.op.verified) == Applied;
      var txs := Txs(Posted(cfg, s, e));
      && txs == (if applied then [e.op.tx] else [])
      && Net(txs, p) == (if applied then Delta(e.op.tx, p) else 0.0)
      && Touching(txs, p) == (if applied && Involves(e.op.tx, p) then [e.op.tx] else [])
  {
  }

  lemma StepMovesBalance(cfg: Config, s: NodeState, e: Event, p: string, x: real)
    requires SameBalance(s, p, x) && !e.op.Sync? && (CannotBeFunded(cfg, p) || !e.op.Restart?)
    ensures SameBalance(Next(cfg, s, e), p, x + Net(Txs(Posted(cfg, s, e)), p))
  {
    OnePosted(cfg, s, e, p);
    match e.op
    case Receive(tx, verified) => ProcessedAccount(cfg, s.mem, tx, verified, e.now, p);
    case PruneSeenTxs => PrunedAccount(s.mem, e.now, p);
    case Restart => LoadedAccount(cfg, s.disk, p);
    case _ =>
  }

  lemma {:induction false} StepExtendsHistory(cfg: Config, s: NodeState, e: Event, p: string, h: seq<Transaction>)
    requires SameHistory(s, p, h) && !e.op.Sync?
    ensures SameHistory(Next(cfg, s, e), p, Kept(cfg, h, Touching(Txs(Posted(cfg, s, e)), p)))
  {
    OnePosted(cfg, s, e, p);
    match e.op
    case Receive(tx, verified) => ProcessedAccount(cfg, s.mem, tx, verified, e.now, p);
    case PruneSeenTxs => PrunedAccount(s.mem, e.now, p);
    case Restart => LoadedAccount(cfg, s.disk, p);
    case _ =>
  }

  /** A balance is its opening value plus the net of what was applied. */
  lemma {:induction false} BalanceFollowsLog(cfg: Config, s: NodeState, run: seq<Event>, p: string, x: real)
    requires SameBalance(s, p, x) && Unsynced(run) && NeverFunded(cfg, run, p)
    ensures SameBalance(Exec(cfg, s, run), p, x + Net(Accepted(cfg, s, run), p))
  {
    if run != [] {
      var before := Butlast(run);
      BalanceFollowsLog(cfg, s, before, p, x);
      StepMovesBalance(cfg, Exec(cfg, s, before), Last(run), p, x + Net(Accepted(cfg, s, before), p));
      AcceptedStep(cfg, s, run);
      NetConcat(Accepted(cfg, s, before), Txs(Posted(cfg, Exec(cfg, s, before), Last(run))), p);
    }
  }

  lemma {:induction false} TouchingConcat(a: seq<Transaction>, b: seq<Transaction>, p: string)
    ensures Touching(a + b, p) == Touching(a, p) + Touching(b, p)
  {
    if b == [] {
      assert a + b == a;
    } else {
      assert Butlast(a + b) == a + Butlast(b);
      TouchingConcat(a, Butlast(b), p);
    }
  }

  /** Cutting as the entries come is the same as cutting the full log once. */
  lemma KeptKept(cfg: Config, h: seq<Transaction>, a: seq<Transaction>, b: seq<Transaction>)
    ensures Kept(cfg, Kept(cfg, h, a), b) == Kept(cfg, h, a + b)
  {
    if a == [] {
      assert a + b == b;
    } else if b == [] {
      assert a + b == a;
    } else {
      assert h + (a + b) == h + a + b;
      if !cfg.isCommandCenter && |h + a| > HISTORY_CAP {
        assert Capped(cfg, h + a) + b == (h + a + b)[|h + a| - HISTORY_CAP..];
      }
    }
  }

  /** On a command center a history is the full log; elsewhere it is the last
      hundred entries of it. */
  lemma {:induction false} HistoryIsLogTail(cfg: Config, s: NodeState, run: seq<Event>, p: string, h: seq<Transaction>)
    requires SameHistory(s, p, h) && Unsynced(run)
    ensures SameHistory(Exec(cfg, s, run), p, Kept(cfg, h, Touching(Accepted(cfg, s, run), p)))
  {
    if run != [] {
      var before := Butlast(run);
      var s' := Exec(cfg, s, before);
      var added := Touching(Txs(Posted(cfg, s', Last(run))), p);
      HistoryIsLogTail(cfg, s, before, p, h);
      StepExtendsHistory(cfg, s', Last(run), p, Kept(cfg, h, Touching(Accepted(cfg, s, before), p)));
      AcceptedStep(cfg, s, run);
      TouchingConcat(Accepted(cfg, s, before), Txs(Posted(cfg, s', Last(run))), p);
      KeptKept(cfg, h, Touching(Accepted(cfg, s, before), p), added);
    }
  }

  /** A command center can audit every balance from the account's own history. */
  lemma {:induction false} HistoryExplainsBalance(cfg: Config, s: NodeState, run: seq<Event>, p: string)
    requires cfg.isCommandCenter && Unsynced(run) && NeverFunded(cfg, run, p)
    requires SameBalance(s, p, Account(s.mem, p).balance) && SameHistory(s, p, Account(s.mem, p).history)
    ensures var opening, closing := Account(s.mem, p), Account(Exec(cfg, s, run).mem, p);
      && opening.history <= closing.history
      && closing.balance == opening.balance + Net(closing.history[|opening.history|..], p)
  {
    var opening, closing := Account(s.mem, p), Account(Exec(cfg, s, run).mem, p);
    var added := Touching(Accepted(cfg, s, run), p);
    BalanceFollowsLog(cfg, s, run, p, opening.balance);
    HistoryIsLogTail(cfg, s, run, p, opening.history);
    NetTouching(Accepted(cfg, s, run), p);
    assert opening.history + added == closing.history;
    assert closing.history[|opening.history|..] == added;
  }
}
