/** Replicas that apply the same transactions agree on every balance, whatever
    the order, the duplicates and the other steps in between. */
module Replicas {
  import opened LedgerSpec
  import opened NodeRuns
  import opened Histories
  import opened ReplayWindow
  import opened Sequences

  lemma NetWithout(txs: seq<Transaction>, k: nat, p: string)
    requires k < |txs|
    ensures Net(txs, p) == Net(txs[..k] + txs[k + 1..], p) + Delta(txs[k], p)
    ensures multiset(txs) == multiset(txs[..k] + txs[k + 1..]) + multiset{txs[k]}
  {
    assert txs == txs[..k] + [txs[k]] + txs[k + 1..];
    NetConcat(txs[..k] + [txs[k]], txs[k + 1..], p);
    NetConcat(txs[..k], [txs[k]], p);
    NetConcat(txs[..k], txs[k + 1..], p);
    assert Net([txs[k]], p) == Delta(txs[k], p);
  }

  lemma {:induction false} NetIgnoresOrder(a: seq<Transaction>, b: seq<Transaction>, p: string)
    requires multiset(a) == multiset(b)
    ensures Net(a, p) == Net(b, p)
    decreases |a|
  {
    if a == [] {
      assert |multiset(b)| == 0;
    } else {
      assert a == Butlast(a) + [Last(a)];
      assert Last(a) in multiset(a);
      var k :| 0 <= k < |b| && b[k] == Last(a);
      NetWithout(b, k, p);
      assert multiset(Butlast(a)) == multiset(a) - multiset{Last(a)};
      NetIgnoresOrder(Butlast(a), b[..k] + b[k + 1..], p);
    }
  }

  lemma {:induction false} LogTimes(cfg: Config, s: NodeState, run: seq<Event>, i: nat)
    requires Clocked(run) && i < |Log(cfg, s, run)|
    ensures run != [] && run[0].now <= Log(cfg, s, run)[i].at <= Last(run).now
  {
    var before := Butlast(run);
    if i < |Log(cfg, s, before)| {
      LogTimes(cfg, s, before, i);
      assert Last(before).now <= Last(run).now;
    }
  }

  /** The run fits into one replay window. */
  predicate Short(run: seq<Event>) {
    run != [] ==> Last(run).now - run[0].now <= SEEN_TTL
  }

  lemma AppliedOnce(cfg: Config, s: NodeState, run: seq<Event>)
    requires Clocked(run) && Short(run)
    ensures Distinct(Accepted(cfg, s, run))
  {
    var log := Log(cfg, s, run);
    forall i, j | 0 <= i < j < |log|
      ensures log[i].tx != log[j].tx
    {
      LogTimes(cfg, s, run, i);
      LogTimes(cfg, s, run, j);
      if log[i].tx == log[j].tx {
        ReplaysAreFarApart(cfg, s, run, i, j, log[i].tx.from);
      }
    }
  }

  /** Two nodes, each with its own configuration, clock, pruning, restarts and
      rejections, that applied the same set of transactions. */
  lemma {:induction false} ReplicasConverge(
    cfg: Config, s: NodeState, run: seq<Event>, cfg': Config, s': NodeState, run': seq<Event>, p: string, x: real)
    requires Clocked(run) && Short(run) && Unsynced(run) && NeverFunded(cfg, run, p)
    requires Clocked(run') && Short(run') && Unsynced(run') && NeverFunded(cfg', run', p)
    requires SameBalance(s, p, x) && SameBalance(s', p, x)
    requires forall tx :: tx in Accepted(cfg, s, run) <==> tx in Accepted(cfg', s', run')
    ensures Account(Exec(cfg, s, run).mem, p).balance == Account(Exec(cfg', s', run').mem, p).balance
  {
    AppliedOnce(cfg, s, run);
    AppliedOnce(cfg', s', run');
    SameSetSameBag(Accepted(cfg, s, run), Accepted(cfg', s', run'));
    NetIgnoresOrder(Accepted(cfg, s, run), Accepted(cfg', s', run'), p);
    BalanceFollowsLog(cfg, s, run, p, x);
    BalanceFollowsLog(cfg', s', run', p, x);
  }

  // ----- from "applied the same" to "received the same"

  /** Receiving, pruning and quota steps; restarts only if they are counted in. The
      faucet belongs to command centers. */
  predicate Calm(cfg: Config, e: Event, restarts: bool) {
    !e.op.Sync? && (e.op.Restart? ==> restarts) && (e.op.OpenFaucet? ==> cfg.isCommandCenter)
  }

  predicate Steady(cfg: Config, run: seq<Event>, restarts: bool) {
    forall i :: 0 <= i < |run| ==> Calm(cfg, run[i], restarts)
  }

  /** What `p` pays to others. */
  function Outgoing(txs: seq<Transaction>, p: string): real {
    if txs == [] then 0.0
    else Outgoing(Butlast(txs), p) + if Last(txs).from == p && Last(txs).to != p then Last(txs).amount else 0.0
  }

  predicate NonNegative(txs: seq<Transaction>) {
    forall tx :: tx in txs ==> tx.amount >= 0.0
  }

  lemma {:induction false} NetAboveOutgoing(txs: seq<Transaction>, p: string)
    requires NonNegative(txs)
    ensures Net(txs, p) >= -Outgoing(txs, p) && Outgoing(txs, p) >= 0.0
  {
    if txs != [] {
      assert txs == Butlast(txs) + [Last(txs)];
      NetAboveOutgoing(Butlast(txs), p);
    }
  }

  lemma {:induction false} OutgoingConcat(a: seq<Transaction>, b: seq<Transaction>, p: string)
    ensures Outgoing(a + b, p) == Outgoing(a, p) + Outgoing(b, p)
  {
    if b == [] {
      assert a + b == a;
    } else {
      assert Butlast(a + b) == a + Butlast(b);
      OutgoingConcat(a, Butlast(b), p);
    }
  }

  lemma OutgoingWithout(txs: seq<Transaction>, k: nat, p: string)
    requires k < |txs|
    ensures Outgoing(txs, p) == Outgoing(txs[..k] + txs[k + 1..], p) + Outgoing([txs[k]], p)
  {
    assert txs == txs[..k] + [txs[k]] + txs[k + 1..];
    OutgoingConcat(txs[..k] + [txs[k]], txs[k + 1..], p);
    OutgoingConcat(txs[..k], [txs[k]], p);
    OutgoingConcat(txs[..k], txs[k + 1..], p);
  }

  lemma {:induction false} OutgoingMonotone(a: seq<Transaction>, all: seq<Transaction>, p: string)
    requires Distinct(a) && NonNegative(all) && forall tx :: tx in a ==> tx in all
    ensures Outgoing(a, p) <= Outgoing(all, p)
    decreases |a|
  {
    NetAboveOutgoing(all, p);
    if a != [] {
      assert Last(a) in a;
      var k :| 0 <= k < |all| && all[k] == Last(a);
      var rest := all[..k] + all[k + 1..];
      OutgoingWithout(all, k, p);
      forall tx | tx in Butlast(a)
        ensures tx in rest
      {
        var i :| 0 <= i < |a| - 1 && a[i] == tx;
        assert a[i] in a && a[i] != Last(a);
        var j :| 0 <= j < |all| && all[j] == tx;
        assert rest[if j < k then j else j - 1] == tx;
      }
      OutgoingMonotone(Butlast(a), rest, p);
      assert Outgoing([Last(a)], p) == if Last(a).from == p && Last(a).to != p then Last(a).amount else 0.0;
    }
  }

  // ----- where stamps come from

  /** The account has a stamp for the ID, or a restart may give it one. */
  predicate Knows(l: Ledger, p: string, id: string) {
    var a := Account(l, p);
    SeenBy(a, id) || exists i :: 0 <= i < |a.history| && a.history[i].id == id
  }

  predicate Fresh(s: NodeState, p: string, id: string, restarts: bool) {
    !SeenBy(Account(s.mem, p), id) && (restarts ==> !Knows(s.mem, p, id) && !Knows(s.disk, p, id))
  }

  predicate Posts(cfg: Config, s: NodeState, e: Event, p: string, id: string) {
    Posted(cfg, s, e) != [] && e.op.tx.id == id && Involves(e.op.tx, p)
  }

  lemma {:induction false} BackfillSource(seen: map<string, int>, h: seq<Transaction>, n: nat, id: string)
    requires n <= |h| && id in Backfill(seen, h, n) && Backfill(seen, h, n)[id] != 0
    ensures (id in seen && seen[id] != 0) || exists i :: 0 <= i < n && h[i].id == id
  {
    if n > 0 && h[n - 1].id != id {
      BackfillSource(seen, h, n - 1, id);
    }
  }

  lemma {:induction false} LoadKnows(cfg: Config, disk: Ledger, p: string, id: string)
    requires Knows(Load(cfg, disk), p, id)
    ensures Knows(disk, p, id)
  {
    LoadedAccount(cfg, disk, p);
    if p in disk.accounts && SeenBy(Account(Load(cfg, disk), p), id) {
      var a := disk.accounts[p];
      assert Account(Load(cfg, disk), p).seen == Backfill(a.seen, a.history, |a.history|);
      BackfillSource(a.seen, a.history, |a.history|, id);
    }
  }

  lemma {:induction false} PostKnows(
    cfg: Config, l: Ledger, tx: Transaction, verified: bool, now: int, p: string, id: string)
    requires Knows(Process(cfg, l, tx, verified, now), p, id)
    ensures Knows(l, p, id) || (Decide(cfg, l, tx, verified) == Applied && tx.id == id && Involves(tx, p))
  {
    ProcessedAccount(cfg, l, tx, verified, now, p);
    var a, a' := Account(l, p), Account(Process(cfg, l, tx, verified, now), p);
    if i :| 0 <= i < |a'.history| && a'.history[i].id == id {
      if a' != a {
        var full := a.history + [tx];
        assert a'.history[i] == full[i + |full| - |a'.history|];
      }
    }
  }

  /** A step adds nothing to what memory and disk know but the transaction it posts. */
  lemma {:induction false} StepKnows(cfg: Config, s: NodeState, e: Event, p: string, id: string)
    requires !e.op.Sync? && (Knows(Next(cfg, s, e).mem, p, id) || Knows(Next(cfg, s, e).disk, p, id))
    ensures Knows(s.mem, p, id) || Knows(s.disk, p, id) || Posts(cfg, s, e, p, id)
  {
    match e.op
    case Receive(tx, verified) =>
      if Knows(Process(cfg, s.mem, tx, verified, e.now), p, id) {
        PostKnows(cfg, s.mem, tx, verified, e.now, p, id);
      }
    case PruneSeenTxs => PrunedAccount(s.mem, e.now, p);
    case Restart =>
      if Knows(Load(cfg, s.disk), p, id) {
        LoadKnows(cfg, s.disk, p, id);
      }
    case _ =>
  }

  /** Without restarts no step adds a stamp but that of the transaction it posts. */
  lemma {:induction false} StepSeen(cfg: Config, s: NodeState, e: Event, p: string, id: string)
    requires !e.op.Sync? && !e.op.Restart? && SeenBy(Account(Next(cfg, s, e).mem, p), id)
    ensures SeenBy(Account(s.mem, p), id) || Posts(cfg, s, e, p, id)
  {
    match e.op
    case Receive(tx, verified) => ProcessedAccount(cfg, s.mem, tx, verified, e.now, p);
    case _ =>
  }

  /** Somebody's applied transaction has the ID and concerns the account. */
  ghost predicate AcceptedFor(cfg: Config, s: NodeState, run: seq<Event>, p: string, id: string) {
    exists tx :: tx in Accepted(cfg, s, run) && tx.id == id && Involves(tx, p)
  }

  lemma {:induction false} AcceptedForStep(cfg: Config, s: NodeState, run: seq<Event>, p: string, id: string)
    requires run != []
    requires AcceptedFor(cfg, s, Butlast(run), p, id) || Posts(cfg, Exec(cfg, s, Butlast(run)), Last(run), p, id)
    ensures AcceptedFor(cfg, s, run, p, id)
  {
    var before, e := Butlast(run), Last(run);
    AcceptedStep(cfg, s, run);
    OnePosted(cfg, Exec(cfg, s, before), e, p);
    if AcceptedFor(cfg, s, before, p, id) {
      var tx :| tx in Accepted(cfg, s, before) && tx.id == id && Involves(tx, p);
      assert tx in Accepted(cfg, s, run);
    } else {
      assert e.op.tx in Txs(Posted(cfg, Exec(cfg, s, before), e));
    }
  }

  lemma {:induction false} KnowsSource(cfg: Config, s: NodeState, run: seq<Event>, p: string, id: string)
    requires Steady(cfg, run, true)
    requires Knows(Exec(cfg, s, run).mem, p, id) || Knows(Exec(cfg, s, run).disk, p, id)
    ensures Knows(s.mem, p, id) || Knows(s.disk, p, id) || AcceptedFor(cfg, s, run, p, id)
  {
    if run != [] {
      var before := Butlast(run);
      var s' := Exec(cfg, s, before);
      assert Calm(cfg, run[|run| - 1], true);
      StepKnows(cfg, s', Last(run), p, id);
      if Knows(s'.mem, p, id) || Knows(s'.disk, p, id) {
        KnowsSource(cfg, s, before, p, id);
      }
      if AcceptedFor(cfg, s, before, p, id) || Posts(cfg, s', Last(run), p, id) {
        AcceptedForStep(cfg, s, run, p, id);
      }
    }
  }

  /** A stamp comes from the opening state, in a run with restarts also from its
      histories or its disk, or from something applied since. */
  lemma {:induction false} SeenSource(cfg: Config, s: NodeState, run: seq<Event>, p: string, id: string, restarts: bool)
    requires Steady(cfg, run, restarts) && SeenBy(Account(Exec(cfg, s, run).mem, p), id)
    ensures !Fresh(s, p, id, restarts) || AcceptedFor(cfg, s, run, p, id)
  {
    if restarts {
      KnowsSource(cfg, s, run, p, id);
    } else if run != [] {
      var before := Butlast(run);
      var s' := Exec(cfg, s, before);
      assert Calm(cfg, run[|run| - 1], false);
      StepSeen(cfg, s', Last(run), p, id);
      if SeenBy(Account(s'.mem, p), id) {
        SeenSource(cfg, s, before, p, id, false);
      }
      if AcceptedFor(cfg, s, before, p, id) || Posts(cfg, s', Last(run), p, id) {
        AcceptedForStep(cfg, s, run, p, id);
      }
    }
  }

  // ----- what an account can spend

  /** The rating an account has, or will be opened with: a payment gives 5, the
      faucet of a command center none. */
  function Rating(cfg: Config, l: Ledger, p: string): real {
    if p in l.accounts then l.accounts[p].rating else if cfg.isCommandCenter then 0.0 else NEW_ACCOUNT.rating
  }

  /** The rating it is sure to keep; a restart takes it from the disk. */
  function SureRating(cfg: Config, s: NodeState, p: string, restarts: bool): real {
    var now, later := Rating(cfg, s.mem, p), Rating(cfg, RepairAll(s.disk), p);
    if restarts && later < now then later else now
  }

  /** The balance and the credit line that an account is sure of. */
  function Means(cfg: Config, s: NodeState, p: string, restarts: bool): real {
    Account(s.mem, p).balance + SureRating(cfg, s, p, restarts) * 2.0
  }

  predicate CanCover(cfg: Config, s: NodeState, p: string, amount: real, restarts: bool) {
    IsOracle(cfg, p) || Means(cfg, s, p, restarts) >= amount
  }

  /** Neither memory nor, if it counts, disk is below `rating`. */
  predicate RatedAbove(cfg: Config, s: NodeState, p: string, rating: real, restarts: bool) {
    Rating(cfg, s.mem, p) >= rating && (restarts ==> Rating(cfg, RepairAll(s.disk), p) >= rating)
  }

  lemma SavedRating(cfg: Config, l: Ledger, p: string)
    ensures Rating(cfg, RepairAll(l), p) >= Rating(cfg, l, p)
  {
  }

  lemma LoadedRating(cfg: Config, disk: Ledger, p: string)
    ensures Rating(cfg, Load(cfg, disk), p) >= Rating(cfg, RepairAll(disk), p)
  {
  }

  lemma ProcessedRating(cfg: Config, l: Ledger, tx: Transaction, verified: bool, now: int, p: string)
    ensures Rating(cfg, Process(cfg, l, tx, verified, now), p) >= Rating(cfg, l, p)
  {
  }

  lemma {:induction false} StepRating(cfg: Config, s: NodeState, e: Event, p: string, rating: real, restarts: bool)
    requires Calm(cfg, e, restarts) && RatedAbove(cfg, s, p, rating, restarts)
    ensures RatedAbove(cfg, Next(cfg, s, e), p, rating, restarts)
  {
    var s' := Next(cfg, s, e);
    SavedRating(cfg, s'.mem, p);
    match e.op
    case Receive(tx, verified) => ProcessedRating(cfg, s.mem, tx, verified, e.now, p);
    case Restart => LoadedRating(cfg, s.disk, p);
    case _ =>
  }

  lemma {:induction false} RatingsHold(cfg: Config, s: NodeState, run: seq<Event>, p: string, restarts: bool)
    requires Steady(cfg, run, restarts)
    ensures RatedAbove(cfg, Exec(cfg, s, run), p, SureRating(cfg, s, p, restarts), restarts)
  {
    if run != [] {
      RatingsHold(cfg, s, Butlast(run), p, restarts);
      assert Calm(cfg, run[|run| - 1], restarts);
      StepRating(cfg, Exec(cfg, s, Butlast(run)), Last(run), p, SureRating(cfg, s, p, restarts), restarts);
    }
  }

  /** Without restarts a rating does not change once it is settled. */
  lemma {:induction false} RatingsStay(cfg: Config, s: NodeState, run: seq<Event>, p: string)
    requires Steady(cfg, run, false) && (p in s.mem.accounts || !cfg.isCommandCenter)
    ensures Account(Exec(cfg, s, run).mem, p).rating == Rating(cfg, s.mem, p)
    ensures p in s.mem.accounts ==> p in Exec(cfg, s, run).mem.accounts
  {
    if run != [] {
      RatingsStay(cfg, s, Butlast(run), p);
      var s', e := Exec(cfg, s, Butlast(run)), Last(run);
      assert Calm(cfg, run[|run| - 1], false);
      if e.op.Receive? {
        ProcessedAccount(cfg, s'.mem, e.op.tx, e.op.verified, e.now, p);
      }
    }
  }

  /** What the payer may have to cover when `tx` arrives last of all it pays. A
      payment to oneself needs cover but uses nothing up. */
  function Needs(batch: seq<Transaction>, tx: Transaction): real {
    Outgoing(batch, tx.from) + if tx.from == tx.to then tx.amount else 0.0
  }

  /** No negative amount, nothing known before, and IDs tell apart the transactions
      of every account. */
  predicate Sound(s: NodeState, batch: seq<Transaction>, restarts: bool) {
    && NonNegative(batch)
    && (forall tx :: tx in batch ==> Fresh(s, tx.from, tx.id, restarts) && Fresh(s, tx.to, tx.id, restarts))
    && forall a, b :: a in batch && b in batch && a.id == b.id && (Involves(a, b.from) || Involves(a, b.to)) ==> a == b
  }

  /** Every payer can cover all it sends from what it starts with. */
  predicate Affordable(cfg: Config, s: NodeState, batch: seq<Transaction>, restarts: bool) {
    forall tx :: tx in batch ==> CanCover(cfg, s, tx.from, Needs(Once(batch), tx), restarts)
  }

  predicate Funded(cfg: Config, s: NodeState, batch: seq<Transaction>, restarts: bool) {
    Sound(s, batch, restarts) && Affordable(cfg, s, batch, restarts)
  }

  /** Every transaction received is a verified one of the batch. */
  predicate Carries(run: seq<Event>, batch: seq<Transaction>) {
    forall i :: 0 <= i < |run| && run[i].op.Receive? ==> run[i].op.verified && run[i].op.tx in batch
  }

  ghost predicate Settled(s: NodeState) {
    forall p :: Account(s.disk, p).balance == Account(s.mem, p).balance
  }

  lemma {:induction false} AcceptedInBatch(cfg: Config, s: NodeState, run: seq<Event>, batch: seq<Transaction>)
    requires Carries(run, batch)
    ensures forall tx :: tx in Accepted(cfg, s, run) ==> tx in batch
  {
    if run != [] {
      AcceptedInBatch(cfg, s, Butlast(run), batch);
      AcceptedStep(cfg, s, run);
      OnePosted(cfg, Exec(cfg, s, Butlast(run)), Last(run), "");
      assert Last(run) == run[|run| - 1];
    }
  }

  /** Whatever was applied before, the payer can still pay. */
  lemma {:induction false} CoverRemains(
    cfg: Config, s: NodeState, accepted: seq<Transaction>, batch: seq<Transaction>, tx: Transaction,
    restarts: bool)
    requires Funded(cfg, s, batch, restarts) && Distinct(accepted) && (forall t :: t in accepted ==> t in batch)
    requires tx in batch && tx !in accepted && !IsOracle(cfg, tx.from)
    ensures Means(cfg, s, tx.from, restarts) + Net(accepted, tx.from) >= tx.amount
  {
    var p := tx.from;
    OutgoingConcat(accepted, [tx], p);
    assert Outgoing([tx], p) == if tx.to != p then tx.amount else 0.0;
    OutgoingMonotone(accepted + [tx], Once(batch), p);
    NetAboveOutgoing(accepted, p);
  }

  lemma {:induction false} UnseenUntilAccepted(
    cfg: Config, s: NodeState, run: seq<Event>, batch: seq<Transaction>, tx: Transaction, p: string, restarts: bool)
    requires Steady(cfg, run, restarts) && Sound(s, batch, restarts) && Carries(run, batch)
    requires tx in batch && tx !in Accepted(cfg, s, run) && Involves(tx, p)
    ensures !SeenBy(Account(Exec(cfg, s, run).mem, p), tx.id)
  {
    AcceptedInBatch(cfg, s, run, batch);
    if SeenBy(Account(Exec(cfg, s, run).mem, p), tx.id) {
      SeenSource(cfg, s, run, p, tx.id, restarts);
      assert false;
    }
  }

  /** A transaction of a funded batch is applied at its first arrival. */
  lemma {:induction false} FirstArrivalApplies(
    cfg: Config, s: NodeState, run: seq<Event>, batch: seq<Transaction>, tx: Transaction,
    restarts: bool)
    requires Clocked(run) && Short(run) && Steady(cfg, run, restarts) && Settled(s)
    requires Funded(cfg, s, batch, restarts) && Carries(run, batch)
    requires tx in batch && tx !in Accepted(cfg, s, run)
    ensures Decide(cfg, Exec(cfg, s, run).mem, tx, true) == Applied
  {
    var accepted := Accepted(cfg, s, run);
    AcceptedInBatch(cfg, s, run, batch);
    UnseenUntilAccepted(cfg, s, run, batch, tx, tx.from, restarts);
    UnseenUntilAccepted(cfg, s, run, batch, tx, tx.to, restarts);
    if !IsOracle(cfg, tx.from) {
      AppliedOnce(cfg, s, run);
      CoverRemains(cfg, s, accepted, batch, tx, restarts);
      BalanceFollowsLog(cfg, s, run, tx.from, Account(s.mem, tx.from).balance);
      RatingsHold(cfg, s, run, tx.from, restarts);
    }
  }

  lemma ReceivedIsAccepted(
    cfg: Config, s: NodeState, run: seq<Event>, e: Event, batch: seq<Transaction>, restarts: bool)
    requires Clocked(run) && Short(run) && Steady(cfg, run, restarts) && Settled(s)
    requires Funded(cfg, s, batch, restarts) && Carries(run, batch)
    requires e.op.Receive? && e.op.verified && e.op.tx in batch
    ensures e.op.tx in Accepted(cfg, s, run) + Txs(Posted(cfg, Exec(cfg, s, run), e))
  {
    if e.op.tx !in Accepted(cfg, s, run) {
      FirstArrivalApplies(cfg, s, run, batch, e.op.tx, restarts);
      OnePosted(cfg, Exec(cfg, s, run), e, "");
    }
  }

  lemma {:induction false} AcceptedGrows(cfg: Config, s: NodeState, run: seq<Event>, k: nat)
    requires k <= |run|
    ensures Accepted(cfg, s, run[..k]) <= Accepted(cfg, s, run)
  {
    if k < |run| {
      assert Butlast(run)[..k] == run[..k];
      AcceptedGrows(cfg, s, Butlast(run), k);
      AcceptedStep(cfg, s, run);
    } else {
      assert run[..k] == run;
    }
  }

  lemma AcceptedAt(cfg: Config, s: NodeState, run: seq<Event>, i: nat, tx: Transaction)
    requires i < |run|
    requires tx in Accepted(cfg, s, run[..i]) + Txs(Posted(cfg, Exec(cfg, s, run[..i]), run[i]))
    ensures tx in Accepted(cfg, s, run)
  {
    assert Butlast(run[..i + 1]) == run[..i] && Last(run[..i + 1]) == run[i];
    AcceptedStep(cfg, s, run[..i + 1]);
    AcceptedGrows(cfg, s, run, i + 1);
  }

  lemma FundedBatchApplies(
    cfg: Config, s: NodeState, run: seq<Event>, batch: seq<Transaction>, i: nat, restarts: bool)
    requires Clocked(run) && Short(run) && Steady(cfg, run, restarts) && Settled(s)
    requires Funded(cfg, s, batch, restarts) && Carries(run, batch)
    requires i < |run| && run[i].op.Receive?
    ensures run[i].op.tx in Accepted(cfg, s, run)
  {
    ReceivedIsAccepted(cfg, s, run[..i], run[i], batch, restarts);
    AcceptedAt(cfg, s, run, i, run[i].op.tx);
  }

  /** Two replicas that receive the same funded batch, each transaction at least
      once, in any two orders, end with the same balances. If restarts count, this is
      not said of a command center's own account, which a start may fund. */
  lemma {:induction false} FundedDeliveryConverges(
    cfg: Config, s: NodeState, run: seq<Event>, cfg': Config, s': NodeState, run': seq<Event>,
    batch: seq<Transaction>, p: string, restarts: bool)
    requires Clocked(run) && Short(run) && Steady(cfg, run, restarts) && Settled(s) && Funded(cfg, s, batch, restarts)
    requires Clocked(run') && Short(run') && Steady(cfg', run', restarts) && Settled(s')
    requires Funded(cfg', s', batch, restarts)
    requires Carries(run, batch) && Carries(run', batch)
    requires forall tx :: tx in batch ==> Arrives(run, tx) && Arrives(run', tx)
    requires Account(s.mem, p).balance == Account(s'.mem, p).balance
    requires restarts ==> CannotBeFunded(cfg, p) && CannotBeFunded(cfg', p)
    ensures Account(Exec(cfg, s, run).mem, p).balance == Account(Exec(cfg', s', run').mem, p).balance
  {
    BatchApplies(cfg, s, run, batch, restarts);
    BatchApplies(cfg', s', run', batch, restarts);
    ReplicasConverge(cfg, s, run, cfg', s', run', p, Account(s.mem, p).balance);
  }

  predicate Arrives(run: seq<Event>, tx: Transaction) {
    exists i :: 0 <= i < |run| && run[i].op.Receive? && run[i].op.tx == tx
  }

  lemma BatchApplies(cfg: Config, s: NodeState, run: seq<Event>, batch: seq<Transaction>, restarts: bool)
    requires Clocked(run) && Short(run) && Steady(cfg, run, restarts) && Settled(s)
    requires Funded(cfg, s, batch, restarts) && Carries(run, batch)
    requires forall tx :: tx in batch ==> Arrives(run, tx)
    ensures forall tx :: tx in Accepted(cfg, s, run) <==> tx in batch
  {
    AcceptedInBatch(cfg, s, run, batch);
    forall tx | tx in batch
      ensures tx in Accepted(cfg, s, run)
    {
      assert Arrives(run, tx);
      var i :| 0 <= i < |run| && run[i].op.Receive? && run[i].op.tx == tx;
      FundedBatchApplies(cfg, s, run, batch, i, restarts);
    }
  }
}
