/** The text under the signature of a transaction: what it fixes, and what it
    leaves to the ID. */
module SignedPayments {
  import opened LedgerSpec
  import opened Text

  /** The amount without its sign, to the nearest millionth (ties to even). */
  function Micros(x: real): nat {
    var y := (if x < 0.0 then -x else x) * 1000000.0;
    var down := y.Floor;
    var rest := y - down as real;
    if rest < 0.5 || (rest == 0.5 && down % 2 == 0) then down else down + 1
  }

  /** It is a nearest whole number of millionths, and the even one of two. */
  lemma MicrosAreNearest(x: real)
    ensures var y := (if x < 0.0 then -x else x) * 1000000.0;
      && -0.5 <= y - Micros(x) as real <= 0.5
      && (y - Micros(x) as real == 0.5 || y - Micros(x) as real == -0.5 ==> Micros(x) % 2 == 0)
  {
  }

  function Padded(n: nat, width: nat): (s: string)
    ensures |s| == width && forall c :: c in s ==> '0' <= c <= '9'
  {
    if width == 0 then "" else Padded(n / 10, width - 1) + [Digit(n % 10)]
  }

  function AmountText(x: real): (s: string)
    ensures '|' !in s
  {
    if x < 0.0 then "-" + Millionths(Micros(x)) else Millionths(Micros(x))
  }

  /** A whole number, a point and six decimals. */
  function Millionths(n: nat): (s: string)
    ensures '|' !in s
  {
    DecimalNat(n / 1000000) + "." + Padded(n % 1000000, 6)
  }

  lemma MillionthsParts(n: nat)
    ensures var t := Millionths(n);
      && |t| > 7 && t[|t| - 7] == '.' && t[0] != '-'
      && t[..|t| - 7] == DecimalNat(n / 1000000) && t[|t| - 6..] == Padded(n % 1000000, 6)
  {
    assert DecimalNat(n / 1000000)[0] in DecimalNat(n / 1000000);
  }

  lemma {:induction false} MillionthsTellApart(m: nat, n: nat)
    requires Millionths(m) == Millionths(n)
    ensures m == n
  {
    MillionthsParts(m);
    MillionthsParts(n);
    DecimalNatIsInjective(m / 1000000, n / 1000000);
    MillionIsPower();
    PaddedTellsApart(m % 1000000, n % 1000000, 6);
  }

  function SignedText(tx: Transaction): string {
    tx.from + "|" + tx.to + "|" + AmountText(tx.amount) + "|" + Decimal(tx.time)
  }

  // ----- amounts

  lemma {:induction false} PaddedTellsApart(m: nat, n: nat, width: nat)
    requires Padded(m, width) == Padded(n, width)
    requires m < Power10(width) && n < Power10(width)
    ensures m == n
  {
    if width > 0 {
      var s, t := Padded(m, width), Padded(n, width);
      assert s[..width - 1] == Padded(m / 10, width - 1) && t[..width - 1] == Padded(n / 10, width - 1);
      assert s[width - 1] == Digit(m % 10) && t[width - 1] == Digit(n % 10);
      PaddedTellsApart(m / 10, n / 10, width - 1);
    }
  }

  function Power10(n: nat): nat {
    if n == 0 then 1 else 10 * Power10(n - 1)
  }

  lemma MillionIsPower()
    ensures Power10(6) == 1000000
  {
    assert Power10(3) == 1000;
  }

  predicate SameAmount(x: real, y: real) {
    (x < 0.0 <==> y < 0.0) && Micros(x) == Micros(y)
  }

  /** Amounts share a text exactly if they have the same sign and agree to six
      decimals. */
  lemma {:induction false} AmountTextTellsApart(x: real, y: real)
    ensures AmountText(x) == AmountText(y) <==> SameAmount(x, y)
  {
    MillionthsParts(Micros(x));
    MillionthsParts(Micros(y));
    if AmountText(x) == AmountText(y) {
      assert AmountText(x)[0] == '-' <==> x < 0.0;
      assert AmountText(y)[0] == '-' <==> y < 0.0;
      assert x < 0.0 ==> AmountText(x)[1..] == Millionths(Micros(x));
      assert y < 0.0 ==> AmountText(y)[1..] == Millionths(Micros(y));
      MillionthsTellApart(Micros(x), Micros(y));
    }
  }

  lemma {:induction false} ValueOfPadded(n: nat, width: nat)
    requires n < Power10(width)
    ensures Value(Padded(n, width)) == n
  {
    if width > 0 {
      ValueOfPadded(n / 10, width - 1);
      assert Padded(n, width)[..width - 1] == Padded(n / 10, width - 1);
    }
  }

  /** The text reads as a number with six decimals: those millionths. */
  lemma {:induction false} AmountTextReads(x: real)
    ensures var t := if x < 0.0 then AmountText(x)[1..] else AmountText(x);
      && (x < 0.0 ==> AmountText(x)[0] == '-') && |t| > 7 && t[|t| - 7] == '.'
      && Value(t[..|t| - 7]) * 1000000 + Value(t[|t| - 6..]) == Micros(x)
  {
    MillionthsParts(Micros(x));
    assert x < 0.0 ==> AmountText(x)[1..] == Millionths(Micros(x));
    ValueOfDecimal(Micros(x) / 1000000);
    MillionIsPower();
    ValueOfPadded(Micros(x) % 1000000, 6);
  }

  // ----- transactions

  function Parties(tx: Transaction): seq<string> {
    Split(tx.from, '|') + Split(tx.to, '|')
  }

  lemma {:induction false} SplitSignedText(tx: Transaction)
    ensures Split(SignedText(tx), '|') == Parties(tx) + [AmountText(tx.amount), Decimal(tx.time)]
  {
    var amount, time := AmountText(tx.amount), Decimal(tx.time);
    SplitAt(tx.from + "|" + tx.to + "|" + amount, time, '|');
    SplitAt(tx.from + "|" + tx.to, amount, '|');
    SplitAt(tx.from, tx.to, '|');
    SplitClean(amount, '|');
    SplitClean(time, '|');
  }

  /** Two transactions share a signed text exactly if the parties, read as fields,
      the time, and the amount to six decimals are the same. ID and comment are no
      part of it. */
  lemma {:induction false} SignedTextTellsApart(a: Transaction, b: Transaction)
    ensures SignedText(a) == SignedText(b)
       <==> Parties(a) == Parties(b) && SameAmount(a.amount, b.amount) && a.time == b.time
  {
    var s, t := SignedText(a), SignedText(b);
    SplitSignedText(a);
    SplitSignedText(b);
    AmountTextTellsApart(a.amount, b.amount);
    JoinSplit(s, '|');
    JoinSplit(t, '|');
    if s == t {
      var fields := Split(s, '|');
      var n := |fields|;
      assert fields[n - 2] == AmountText(a.amount) == AmountText(b.amount);
      assert fields[n - 1] == Decimal(a.time) == Decimal(b.time);
      assert fields[..n - 2] == Parties(a) && fields[..n - 2] == Parties(b);
      DecimalIsInjective(a.time, b.time);
    }
  }

  /** For parties without the separator, such as peer IDs, the parties themselves. */
  lemma {:induction false} CleanPartiesTellApart(a: Transaction, b: Transaction)
    requires '|' !in a.from && '|' !in a.to && '|' !in b.from && '|' !in b.to
    ensures SignedText(a) == SignedText(b)
       <==> a.from == b.from && a.to == b.to && SameAmount(a.amount, b.amount) && a.time == b.time
  {
    SignedTextTellsApart(a, b);
    SplitClean(a.from, '|');
    SplitClean(a.to, '|');
    SplitClean(b.from, '|');
    SplitClean(b.to, '|');
    assert Parties(a) == [a.from, a.to] && Parties(b) == [b.from, b.to];
    assert Parties(a)[0] == a.from && Parties(a)[1] == a.to;
  }

  /** Payer, payee, amount and time, in that order. */
  lemma {:induction false} SignedTextReads(tx: Transaction)
    requires '|' !in tx.from && '|' !in tx.to
    ensures Split(SignedText(tx), '|') == [tx.from, tx.to, AmountText(tx.amount), Decimal(tx.time)]
  {
    SplitSignedText(tx);
    SplitClean(tx.from, '|');
    SplitClean(tx.to, '|');
  }

  /** So replay protection rests on the ID alone. The same signed payment under
      another ID has the same signature check, and is posted once more if and only
      if that ID is unseen and there is credit for it. Its comment decides anew
      whether it is a prepayment. */
  lemma {:induction false} OtherIDIsAnotherPayment(
    cfg: Config, l: Ledger, tx: Transaction, id: string, comment: string, now: int, later: int, p: string,
    verifies: (string, string, seq<Byte>) -> bool, signature: seq<Byte>)
    requires Decide(cfg, l, tx, true) == Applied && id != tx.id
    ensures var copy := tx.(id := id, comment := comment);
      var once := Process(cfg, l, tx, true, now);
      var twice := Process(cfg, once, copy, true, later);
      && verifies(copy.from, SignedText(copy), signature) == verifies(tx.from, SignedText(tx), signature)
      && (Decide(cfg, once, copy, true) == Applied <==> !HasSeen(l, copy) && HasCredit(cfg, once, copy))
      && (Decide(cfg, once, copy, true) == Applied ==>
            && Account(twice, p).balance == Account(l, p).balance + 2.0 * Delta(tx, p)
            && Quota(twice, tx.from) == Quota(once, tx.from)
               + if tx.to == cfg.selfID && comment == PREPAY_COMMENT then PrepaidBytes(cfg, tx.amount) else 0)
  {
    var copy := tx.(id := id, comment := comment);
    var once := Process(cfg, l, tx, true, now);
    ProcessedAccount(cfg, l, tx, true, now, tx.from);
    ProcessedAccount(cfg, l, tx, true, now, tx.to);
    ProcessedAccount(cfg, l, tx, true, now, p);
    ProcessedAccount(cfg, once, copy, true, later, p);
  }
}
