/** The prepaid byte quotas over a run: what was bought, what was used, and what
    a restart gives back because using traffic is not saved at once. */
module Quotas {
  import opened LedgerSpec
  import opened NodeRuns
  import opened Sequences

  /** Totals for one peer; `unsaved` is the part of `used` that the files on disk
      do not know of yet, `forgiven` the part they never will. */
  datatype Books = Books(bought: int, used: int, unsaved: int, forgiven: int)

  function Bought(cfg: Config, s: NodeState, e: Event, p: string): int {
    match e.op
    case Receive(tx, verified) =>
      if Decide(cfg, s.mem, tx, verified) == Applied && IsPrepay(cfg, tx) && tx.from == p
      then PrepaidBytes(cfg, tx.amount) else 0
    case AddTraffic(q, bytes) => if q == p then bytes else 0
    case _ => 0
  }

  function Used(s: NodeState, e: Event, p: string): int {
    if e.op.ConsumeTraffic? && e.op.peer == p && CanConsume(s.mem, p, e.op.bytes) then e.op.bytes else 0
  }

  predicate Saves(cfg: Config, s: NodeState, e: Event) {
    match e.op
    case Receive(tx, verified) => Decide(cfg, s.mem, tx, verified) == Applied
    case PruneSeenTxs => Prune(s.mem, e.now) != s.mem
    case Sync(_) => true
    case AddTraffic(_, _) => true
    case _ => false
  }

  function Entry(cfg: Config, b: Books, s: NodeState, e: Event, p: string): Books {
    Books(b.bought + Bought(cfg, s, e, p),
          b.used + Used(s, e, p),
          if e.op.Restart? || Saves(cfg, s, e) then 0 else b.unsaved + Used(s, e, p),
          if e.op.Restart? then b.forgiven + b.unsaved else b.forgiven)
  }

  function BooksAfter(cfg: Config, s: NodeState, run: seq<Event>, p: string): Books {
    if run == [] then Books(0, 0, 0, 0)
    else Entry(cfg, BooksAfter(cfg, s, Butlast(run), p), Exec(cfg, s, Butlast(run)), Last(run), p)
  }

  predicate Balanced(s: NodeState, b: Books, p: string, opening: int) {
    && Quota(s.mem, p) == opening + b.bought - b.used + b.forgiven
    && Quota(s.disk, p) == Quota(s.mem, p) + b.unsaved
  }

  lemma StepBalances(cfg: Config, s: NodeState, b: Books, e: Event, p: string, opening: int)
    requires Balanced(s, b, p, opening)
    ensures Balanced(Next(cfg, s, e), Entry(cfg, b, s, e, p), p, opening)
  {
    match e.op
    case Receive(tx, verified) =>
      assert Quota(Process(cfg, s.mem, tx, verified, e.now), p) == Quota(s.mem, p) + Bought(cfg, s, e, p);
    case _ =>
  }

  /** Remaining = opening + bought - used, plus the debits that restarts forgot. */
  lemma {:induction false} QuotaAccounts(cfg: Config, s: NodeState, run: seq<Event>, p: string)
    requires Quota(s.disk, p) == Quota(s.mem, p)
    ensures Balanced(Exec(cfg, s, run), BooksAfter(cfg, s, run, p), p, Quota(s.mem, p))
  {
    if run != [] {
      QuotaAccounts(cfg, s, Butlast(run), p);
      StepBalances(cfg, Exec(cfg, s, Butlast(run)), BooksAfter(cfg, s, Butlast(run), p), Last(run), p, Quota(s.mem, p));
    }
  }

  /** What the postings of the log bought. */
  function BoughtIn(cfg: Config, log: seq<Posting>, p: string): int {
    if log == [] then 0
    else
      var tx := Last(log).tx;
      BoughtIn(cfg, Butlast(log), p)
      + if IsPrepay(cfg, tx) && tx.from == p then PrepaidBytes(cfg, tx.amount) else 0
  }

  /** Each application of a prepayment counts once, each other delivery not at all. */
  lemma {:induction false} BoughtByLog(cfg: Config, s: NodeState, run: seq<Event>, p: string)
    requires forall i :: 0 <= i < |run| ==> !run[i].op.AddTraffic?
    ensures BooksAfter(cfg, s, run, p).bought == BoughtIn(cfg, Log(cfg, s, run), p)
  {
    if run != [] {
      BoughtByLog(cfg, s, Butlast(run), p);
      var log := Log(cfg, s, run);
      var posted := Posted(cfg, Exec(cfg, s, Butlast(run)), Last(run));
      if posted == [] {
        assert log == Log(cfg, s, Butlast(run));
      } else {
        assert Butlast(log) == Log(cfg, s, Butlast(run)) && Last(log) == posted[0];
      }
    }
  }

  // ----- quotas are never negative

  /** No step takes more from a quota than is there: a prepayment is not negative
      by a byte or more, and the amounts of the other quota steps are not negative
      (a negative debit cannot hurt). */
  predicate Fair(cfg: Config, e: Event) {
    match e.op
    case Receive(tx, verified) => verified && IsPrepay(cfg, tx) ==> PrepaidBytes(cfg, tx.amount) >= 0
    case AddTraffic(_, bytes) => bytes >= 0
    case _ => true
  }

  lemma QuotientNonNegative(x: real, y: real)
    requires x >= 0.0 && y > 0.0
    ensures x / y >= 0.0
  {
  }

  lemma BytesNonNegative(cfg: Config, amount: real)
    requires amount >= 0.0
    ensures PrepaidBytes(cfg, amount) >= 0
  {
  }

  predicate QuotasHold(s: NodeState) {
    && (forall p :: p in s.mem.prepaid ==> s.mem.prepaid[p] >= 0)
    && forall p :: p in s.disk.prepaid ==> s.disk.prepaid[p] >= 0
  }

  lemma StepNonNegative(cfg: Config, s: NodeState, e: Event)
    requires QuotasHold(s) && Fair(cfg, e)
    ensures QuotasHold(Next(cfg, s, e))
  {
  }

  /** The state in which a step that is not fair does harm. */
  lemma UnfairStep(cfg: Config, e: Event)
    requires !Fair(cfg, e)
    ensures var s := Saved(Ledger(map[], map[]));
      QuotasHold(s) && !QuotasHold(Next(cfg, s, e))
  {
    var s := Saved(Ledger(map[], map[]));
    match e.op
    case Receive(tx, verified) =>
      if tx.amount >= 0.0 {
        BytesNonNegative(cfg, tx.amount);
      }
      assert tx.from in Next(cfg, s, e).mem.prepaid;
    case AddTraffic(p, bytes) => assert p in Next(cfg, s, e).mem.prepaid;
  }

  /** The condition is exact: a step keeps the quotas of every state if and only if
      it is fair. A negative prepayment is accepted and takes a quota below zero. */
  lemma {:induction false} QuotasHoldIffFair(cfg: Config, e: Event)
    ensures (forall s :: QuotasHold(s) ==> QuotasHold(Next(cfg, s, e))) <==> Fair(cfg, e)
  {
    if Fair(cfg, e) {
      forall s | QuotasHold(s)
        ensures QuotasHold(Next(cfg, s, e))
      {
        StepNonNegative(cfg, s, e);
      }
    } else {
      UnfairStep(cfg, e);
    }
  }

  lemma {:induction false} QuotaNeverNegative(cfg: Config, s: NodeState, run: seq<Event>)
    requires QuotasHold(s) && forall i :: 0 <= i < |run| ==> Fair(cfg, run[i])
    ensures QuotasHold(Exec(cfg, s, run))
  {
    if run != [] {
      QuotaNeverNegative(cfg, s, Butlast(run));
      StepNonNegative(cfg, Exec(cfg, s, Butlast(run)), Last(run));
    }
  }

  // ----- paying in parts

  function SumOf(parts: seq<real>): real {
    if parts == [] then 0.0 else SumOf(Butlast(parts)) + Last(parts)
  }

  function BytesOf(cfg: Config, parts: seq<real>): int {
    if parts == [] then 0 else BytesOf(cfg, Butlast(parts)) + PrepaidBytes(cfg, Last(parts))
  }

  lemma QuotientAdds(x: real, y: real, z: real)
    requires z > 0.0
    ensures (x + y) / z == x / z + y / z
  {
  }

  lemma {:induction false} TwoPayments(cfg: Config, x: real, y: real)
    requires x >= 0.0 && y >= 0.0
    ensures var whole, parts := PrepaidBytes(cfg, x + y), PrepaidBytes(cfg, x) + PrepaidBytes(cfg, y);
      parts <= whole <= parts + 1
  {
    var price := if cfg.vpnPrice <= 0.0 then 0.5 else cfg.vpnPrice;
    QuotientAdds(x, y, price);
    QuotientNonNegative(x, price);
    QuotientNonNegative(y, price);
  }

  /** Splitting a payment never gains, and loses less than a byte a cut. */
  lemma {:induction false} SplitPayment(cfg: Config, parts: seq<real>)
    requires forall i :: 0 <= i < |parts| ==> parts[i] >= 0.0
    ensures SumOf(parts) >= 0.0
    ensures var lost := PrepaidBytes(cfg, SumOf(parts)) - BytesOf(cfg, parts);
      0 <= lost <= if parts == [] then 0 else |parts| - 1
  {
    if |parts| == 1 {
      assert Butlast(parts) == [];
      assert SumOf(parts) == parts[0] && BytesOf(cfg, parts) == PrepaidBytes(cfg, parts[0]);
    } else if parts != [] {
      SplitPayment(cfg, Butlast(parts));
      TwoPayments(cfg, SumOf(Butlast(parts)), Last(parts));
    }
  }
}
