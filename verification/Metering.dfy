/** Prepaid VPN traffic: the relay loops of all sessions of one peer draw on one
    quota. A TCP loop bills in batches of a megabyte and may forward up to a
    batch that is never paid for; a UDP loop bills every datagram first. */
module Metering {
  import opened LedgerSpec
  import opened NodeRuns
  import opened Quotas
  import opened Sequences

  const BATCH: nat := 1024 * 1024
  const MAX_READ: nat := 64 * 1024

  datatype Kind = Tcp | Udp

  /** Where a relay loop is: about to read, to bill, to write, to send the final
      bill, or finished. */
  datatype Phase = Reading | Billing | Writing | Closing | Done

  /** `chunk` bytes are in the buffer; `failed` is the error of the last read. */
  datatype Loop = Loop(
    kind: Kind, phase: Phase, unbilled: nat, chunk: nat, failed: bool, forwarded: nat, billed: nat)

  /** One step of a loop and what its surroundings answer. */
  datatype Action =
    | Read(n: nat, err: bool)
    | Bill(granted: bool)
    | Write(written: nat, ok: bool)

  function Start(kind: Kind): Loop {
    Loop(kind, Reading, 0, 0, false, 0, 0)
  }

  predicate CanAct(l: Loop, a: Action) {
    match a
    case Read(n, _) => l.phase == Reading && n <= MAX_READ
    case Bill(_) => l.phase == Billing || l.phase == Closing
    case Write(written, ok) => l.phase == Writing && written <= l.chunk && (ok ==> written == l.chunk)
  }

  function Stop(l: Loop): Loop {
    l.(phase := if l.unbilled > 0 then Closing else Done)
  }

  /** The results of UDP writes are ignored: what counts is what was handed over. */
  function Act(l: Loop, a: Action): Loop
    requires CanAct(l, a)
  {
    match a
    case Read(n, err) =>
      if n > 0 then
        var unbilled := l.unbilled + n;
        l.(unbilled := unbilled, chunk := n, failed := err,
           phase := if l.kind == Udp || unbilled >= BATCH then Billing else Writing)
      else if err then Stop(l)
      else l
    case Bill(granted) =>
      var l' := if granted then l.(billed := l.billed + l.unbilled, unbilled := 0) else l;
      l'.(phase := if l.phase == Billing && granted then Writing else Done)
    case Write(written, ok) =>
      var l' := l.(forwarded := l.forwarded + if l.kind == Udp then l.chunk else written);
      if (ok || l.kind == Udp) && !l.failed then l'.(phase := Reading) else Stop(l')
  }

  function Slack(kind: Kind): nat {
    if kind == Tcp then BATCH - 1 else 0
  }

  /** What is true of a loop at each point, however its surroundings answer. */
  predicate Metered(l: Loop) {
    && (l.kind == Udp ==> l.phase != Closing)
    && match l.phase
       case Reading =>
         l.forwarded == l.billed + l.unbilled && l.unbilled <= Slack(l.kind)
       case Billing =>
         && 0 < l.chunk <= MAX_READ && l.chunk <= l.unbilled <= l.chunk + Slack(l.kind)
         && l.forwarded + l.chunk == l.billed + l.unbilled
       case Writing =>
         && 0 < l.chunk <= MAX_READ && l.unbilled <= Slack(l.kind)
         && l.forwarded + l.chunk == l.billed + l.unbilled
       case Closing =>
         0 < l.unbilled <= Slack(l.kind) && l.forwarded <= l.billed + l.unbilled <= l.forwarded + MAX_READ
       case Done =>
         && l.forwarded <= l.billed + Slack(l.kind) && l.billed <= l.forwarded + MAX_READ
         && (l.kind == Udp ==> l.forwarded == l.billed)
  }

  lemma ActKeepsMetered(l: Loop, a: Action)
    requires Metered(l) && CanAct(l, a)
    ensures Metered(Act(l, a))
  {
  }

  /** So at every point: never more than a batch unpaid, never more than a
      buffer paid for and not sent. */
  lemma MeteredBounds(l: Loop)
    requires Metered(l)
    ensures l.forwarded <= l.billed + Slack(l.kind) && l.billed <= l.forwarded + MAX_READ
  {
  }

  // ----- the loops as the program runs them

  function ActAll(l: Loop, trace: seq<Action>): Loop
    requires Legal(l, trace)
    decreases |trace|, 1
  {
    if trace == [] then l else Act(ActAll(l, Butlast(trace)), Last(trace))
  }

  predicate Legal(l: Loop, trace: seq<Action>)
    decreases |trace|, 0
  {
    trace == [] || (Legal(l, Butlast(trace)) && CanAct(ActAll(l, Butlast(trace)), Last(trace)))
  }

  lemma Then(l: Loop, trace: seq<Action>, a: Action)
    requires Legal(l, trace) && CanAct(ActAll(l, trace), a)
    ensures Legal(l, trace + [a]) && ActAll(l, trace + [a]) == Act(ActAll(l, trace), a)
  {
  }

  lemma Extend(kind: Kind, trace: seq<Action>, l: Loop, a: Action) returns (trace': seq<Action>, l': Loop)
    requires Legal(Start(kind), trace) && l == ActAll(Start(kind), trace) && CanAct(l, a)
    ensures trace' == trace + [a] && Legal(Start(kind), trace') && l' == ActAll(Start(kind), trace') == Act(l, a)
  {
    Then(Start(kind), trace, a);
    trace', l' := trace + [a], Act(l, a);
  }

  lemma {:induction false} TraceMetered(kind: Kind, trace: seq<Action>)
    requires Legal(Start(kind), trace)
    ensures Metered(ActAll(Start(kind), trace))
  {
    if trace != [] {
      TraceMetered(kind, Butlast(trace));
      ActKeepsMetered(ActAll(Start(kind), Butlast(trace)), Last(trace));
    }
  }

  /** `m` full reads, each written in full. */
  function FullRounds(m: nat): seq<Action> {
    if m == 0 then [] else FullRounds(m - 1) + [Read(MAX_READ, false)] + [Write(MAX_READ, true)]
  }

  lemma {:induction false} FullRoundsAct(m: nat)
    requires m < 16
    ensures Legal(Start(Tcp), FullRounds(m))
    ensures var l := ActAll(Start(Tcp), FullRounds(m));
      l.kind == Tcp && l.phase == Reading && l.unbilled == l.forwarded == 65536 * m && l.billed == 0
  {
    if m > 0 {
      FullRoundsAct(m - 1);
      Then(Start(Tcp), FullRounds(m - 1), Read(MAX_READ, false));
      Then(Start(Tcp), FullRounds(m - 1) + [Read(MAX_READ, false)], Write(MAX_READ, true));
    }
  }

  /** The slack is exact: this TCP loop forwards a batch less a byte for nothing. */
  lemma SlackIsReached()
    ensures exists trace :: Legal(Start(Tcp), trace) && var l := ActAll(Start(Tcp), trace);
      l.phase == Done && l.billed == 0 && l.forwarded == BATCH - 1
  {
    var m: nat :| m == 15;
    FullRoundsAct(m);
    var trace, l := FullRounds(m), ActAll(Start(Tcp), FullRounds(m));
    trace, l := Extend(Tcp, trace, l, Read(MAX_READ - 1, false));
    trace, l := Extend(Tcp, trace, l, Write(MAX_READ - 1, true));
    trace, l := Extend(Tcp, trace, l, Read(0, true));
    trace, l := Extend(Tcp, trace, l, Bill(false));
    assert Legal(Start(Tcp), trace);
  }

  /** What one turn of a loop meets: the result of its read, the answer to its
      bill if it sends one, and the result of its write. */
  datatype Turn = Turn(n: nat, err: bool, granted: bool, written: nat, ok: bool)

  predicate Possible(t: Turn) {
    t.n <= MAX_READ && t.written <= t.n && (t.ok ==> t.written == t.n)
  }

  function ReadBytes(turns: seq<Turn>): nat {
    if turns == [] then 0 else ReadBytes(Butlast(turns)) + Last(turns).n
  }

  function WrittenBytes(turns: seq<Turn>): nat {
    if turns == [] then 0 else WrittenBytes(Butlast(turns)) + if Last(turns).n > 0 then Last(turns).written else 0
  }

  // ----- one direction of a TCP session

  /** What was read and not billed: a bill is due from a megabyte on. */
  function Owed(turns: seq<Turn>): nat {
    if turns == [] then 0
    else
      var owed := Owed(Butlast(turns)) + Last(turns).n;
      if Last(turns).n > 0 && owed >= 1048576 && Last(turns).granted then 0 else owed
  }

  /** Turn `i` sends a bill that is refused. */
  predicate IsRefused(turns: seq<Turn>, i: int) {
    0 <= i < |turns| && turns[i].n > 0 && Owed(turns[..i]) + turns[i].n >= 1048576 && !turns[i].granted
  }

  /** Turn `i` is the last: a refused bill, a failed write, or a failed read. */
  predicate IsLast(turns: seq<Turn>, i: int) {
    0 <= i < |turns| && (turns[i].err || IsRefused(turns, i) || (turns[i].n > 0 && !turns[i].ok))
  }

  function TurnActions(owed: nat, t: Turn): seq<Action> {
    if t.n == 0 then [Read(0, t.err)]
    else if owed + t.n < 1048576 then [Read(t.n, t.err), Write(t.written, t.ok)]
    else if t.granted then [Read(t.n, t.err), Bill(true), Write(t.written, t.ok)]
    else [Read(t.n, t.err), Bill(false)]
  }

  function TraceOf(turns: seq<Turn>): seq<Action> {
    if turns == [] then [] else TraceOf(Butlast(turns)) + TurnActions(Owed(Butlast(turns)), Last(turns))
  }

  lemma TurnAdds(turns: seq<Turn>, i: nat)
    requires i < |turns|
    ensures ReadBytes(turns[..i + 1]) == ReadBytes(turns[..i]) + turns[i].n
    ensures WrittenBytes(turns[..i + 1]) == WrittenBytes(turns[..i]) + if turns[i].n > 0 then turns[i].written else 0
    ensures var owed := Owed(turns[..i]) + turns[i].n;
      Owed(turns[..i + 1]) == if turns[i].n > 0 && owed >= 1048576 && turns[i].granted then 0 else owed
    ensures TraceOf(turns[..i + 1]) == TraceOf(turns[..i]) + TurnActions(Owed(turns[..i]), turns[i])
  {
    assert Butlast(turns[..i + 1]) == turns[..i] && Last(turns[..i + 1]) == turns[i];
  }

  lemma {:induction false} AllWritten(turns: seq<Turn>)
    requires forall i :: 0 <= i < |turns| ==> Possible(turns[i]) && turns[i].ok
    ensures WrittenBytes(turns) == ReadBytes(turns)
  {
    if turns != [] {
      AllWritten(Butlast(turns));
      assert Possible(turns[|turns| - 1]);
    }
  }

  /** The machine stands here after the trace. */
  ghost predicate Stands(
    kind: Kind, trace: seq<Action>, l: Loop, phase: Phase, forwarded: nat, billed: nat, unbilled: nat) {
    && Legal(Start(kind), trace) && l == ActAll(Start(kind), trace)
    && l.kind == kind && l.phase == phase
    && l.forwarded == forwarded && l.billed == billed && l.unbilled == unbilled
  }

  lemma StandsMetered(kind: Kind, trace: seq<Action>, l: Loop, phase: Phase, forwarded: nat, billed: nat, unbilled: nat)
    requires Stands(kind, trace, l, phase, forwarded, billed, unbilled)
    ensures forwarded <= billed + Slack(kind) && billed <= forwarded + MAX_READ
    ensures phase == Reading ==> forwarded == billed + unbilled && unbilled <= Slack(kind)
  {
    TraceMetered(kind, trace);
    MeteredBounds(l);
  }

  lemma ExtendTwo(kind: Kind, trace: seq<Action>, l: Loop, a: Action, b: Action)
    returns (trace': seq<Action>, l': Loop)
    requires Legal(Start(kind), trace) && l == ActAll(Start(kind), trace) && CanAct(l, a) && CanAct(Act(l, a), b)
    ensures trace' == trace + [a, b] && Legal(Start(kind), trace')
    ensures l' == ActAll(Start(kind), trace') == Act(Act(l, a), b)
  {
    trace', l' := Extend(kind, trace, l, a);
    trace', l' := Extend(kind, trace', l', b);
    assert trace + [a] + [b] == trace + [a, b];
  }

  lemma ExtendThree(kind: Kind, trace: seq<Action>, l: Loop, a: Action, b: Action, c: Action)
    returns (trace': seq<Action>, l': Loop)
    requires Legal(Start(kind), trace) && l == ActAll(Start(kind), trace)
    requires CanAct(l, a) && CanAct(Act(l, a), b) && CanAct(Act(Act(l, a), b), c)
    ensures trace' == trace + [a, b, c] && Legal(Start(kind), trace')
    ensures l' == ActAll(Start(kind), trace') == Act(Act(Act(l, a), b), c)
  {
    trace', l' := ExtendTwo(kind, trace, l, a, b);
    trace', l' := Extend(kind, trace', l', c);
    assert trace + [a, b] + [c] == trace + [a, b, c];
  }

  /** One turn of the loop: read, bill if a megabyte is due, write. */
  method TcpTurn(t: Turn, unbilled: nat, ghost trace: seq<Action>, ghost l: Loop)
    returns (owed: nat, sent: nat, paid: nat, running: bool, refused: bool, ghost trace': seq<Action>, ghost l': Loop)
    requires Possible(t) && Stands(Tcp, trace, l, Reading, l.forwarded, l.billed, unbilled)
    ensures refused == (t.n > 0 && unbilled + t.n >= 1048576 && !t.granted)
    ensures owed == if t.n > 0 && unbilled + t.n >= 1048576 && t.granted then 0 else unbilled + t.n
    ensures sent == (if t.n == 0 || refused then 0 else t.written) && paid + owed == unbilled + t.n
    ensures running == !(t.err || refused || (t.n > 0 && !t.ok))
    ensures trace' == trace + TurnActions(unbilled, t)
    ensures Stands(Tcp, trace', l', if running then Reading else if refused || owed == 0 then Done else Closing,
                   l.forwarded + sent, l.billed + paid, owed)
  {
    owed, sent, paid, running, refused := unbilled, 0, 0, true, false;
    if t.n > 0 {
      owed := owed + t.n;
      if owed >= BATCH {
        if !t.granted {
          running, refused := false, true;
          trace', l' := ExtendTwo(Tcp, trace, l, Read(t.n, t.err), Bill(false));
          return;
        }
        paid, owed := owed, 0;
        trace', l' := ExtendThree(Tcp, trace, l, Read(t.n, t.err), Bill(true), Write(t.written, t.ok));
      } else {
        trace', l' := ExtendTwo(Tcp, trace, l, Read(t.n, t.err), Write(t.written, t.ok));
      }
      sent := t.written;
      if !t.ok {
        running := false;
      }
    } else {
      trace', l' := Extend(Tcp, trace, l, Read(0, t.err));
    }
    if t.err {
      running := false;
    }
  }

  /** After `used` turns, none of which was refused. */
  ghost predicate Taken(
    turns: seq<Turn>, used: int, running: bool, forwarded: nat, billed: nat, unbilled: nat, trace: seq<Action>) {
    && 0 <= used <= |turns|
    && (forall i :: 0 <= i < used - 1 ==> !IsLast(turns, i))
    && running == !IsLast(turns, used - 1) && !IsRefused(turns, used - 1)
    && forwarded == WrittenBytes(turns[..used]) && unbilled == Owed(turns[..used])
    && billed + unbilled == ReadBytes(turns[..used]) && trace == TraceOf(turns[..used])
  }

  lemma {:induction false} TakesTurn(
    turns: seq<Turn>, used: nat, forwarded: nat, billed: nat, unbilled: nat, trace: seq<Action>,
    owed: nat, sent: nat, paid: nat, running: bool, refused: bool, finalGranted: bool)
    requires used < |turns| && Taken(turns, used, true, forwarded, billed, unbilled, trace)
    requires var t := turns[used];
      && refused == (t.n > 0 && unbilled + t.n >= 1048576 && !t.granted)
      && owed == (if t.n > 0 && unbilled + t.n >= 1048576 && t.granted then 0 else unbilled + t.n)
      && sent == (if t.n == 0 || refused then 0 else t.written) && paid + owed == unbilled + t.n
      && running == !(t.err || refused || (t.n > 0 && !t.ok))
    ensures forall i :: 0 <= i < used ==> !IsLast(turns, i)
    ensures running == !IsLast(turns, used) && refused == IsRefused(turns, used)
    ensures var trace' := trace + TurnActions(unbilled, turns[used]);
      if refused then TcpDone(turns, finalGranted, used + 1, false, forwarded + sent, billed + paid, owed, trace')
      else Taken(turns, used + 1, running, forwarded + sent, billed + paid, owed, trace')
  {
    TurnAdds(turns, used);
  }

  /** What a finished or running loop has done with the first `used` turns. */
  ghost predicate TcpDone(
    turns: seq<Turn>, finalGranted: bool, used: nat, running: bool, forwarded: nat, billed: nat, unbilled: nat,
    trace: seq<Action>)
    requires used <= |turns|
  {
    var taken, refused := turns[..used], IsRefused(turns, used - 1);
    && forwarded == WrittenBytes(if refused then turns[..used - 1] else taken)
    && unbilled == (if !running && !refused && finalGranted then 0 else Owed(taken))
    && billed + unbilled == ReadBytes(taken)
    && trace == TraceOf(taken) + if !running && !refused && Owed(taken) > 0 then [Bill(finalGranted)] else []
  }

  /** The next turn, and what the loop has done after it. */
  method TakeTurn(
    turns: seq<Turn>, used: nat, forwarded: nat, billed: nat, unbilled: nat, ghost finalGranted: bool,
    ghost trace: seq<Action>, ghost l: Loop)
    returns (forwarded': nat, billed': nat, unbilled': nat, running: bool, refused: bool, ghost trace': seq<Action>,
             ghost l': Loop)
    requires used < |turns| && Possible(turns[used])
    requires Taken(turns, used, true, forwarded, billed, unbilled, trace)
    requires Stands(Tcp, trace, l, Reading, forwarded, billed, unbilled)
    ensures running == !IsLast(turns, used) && forall i :: 0 <= i < used ==> !IsLast(turns, i)
    ensures refused ==> !running && TcpDone(turns, finalGranted, used + 1, false, forwarded', billed', unbilled', trace')
    ensures !refused ==> Taken(turns, used + 1, running, forwarded', billed', unbilled', trace')
    ensures Stands(Tcp, trace', l', if running then Reading else if refused || unbilled' == 0 then Done else Closing,
                   forwarded', billed', unbilled')
  {
    var owed, sent, paid;
    owed, sent, paid, running, refused, trace', l' := TcpTurn(turns[used], unbilled, trace, l);
    TakesTurn(turns, used, forwarded, billed, unbilled, trace, owed, sent, paid, running, refused, finalGranted);
    forwarded', billed', unbilled' := forwarded + sent, billed + paid, owed;
  }

  /** One direction of a TCP session. It takes turns up to the first that ends it,
      and is still `running` when none did. What is left unpaid after a refused bill
      stays so; after any other end the final bill covers it, if it is granted. */
  method RelayTcp(turns: seq<Turn>, finalGranted: bool)
    returns (forwarded: nat, billed: nat, unbilled: nat, running: bool, used: nat, ghost trace: seq<Action>,
             ghost l: Loop)
    requires forall i :: 0 <= i < |turns| ==> Possible(turns[i])
    ensures used <= |turns| && running == !IsLast(turns, used - 1) && (running ==> used == |turns|)
    ensures forall i :: 0 <= i < used - 1 ==> !IsLast(turns, i)
    ensures TcpDone(turns, finalGranted, used, running, forwarded, billed, unbilled, trace)
    ensures Stands(Tcp, trace, l, if running then Reading else Done, forwarded, billed, unbilled)
    ensures running ==> forwarded == billed + unbilled && unbilled < 1048576
    ensures forwarded <= billed + 1048575 && billed <= forwarded + 65536
  {
    forwarded, billed, unbilled, running, used, trace := 0, 0, 0, true, 0, [];
    l := Start(Tcp);
    while used < |turns| && running
      invariant Taken(turns, used, running, forwarded, billed, unbilled, trace)
      invariant Stands(Tcp, trace, l, if running then Reading else if unbilled > 0 then Closing else Done,
                       forwarded, billed, unbilled)
    {
      var refused;
      forwarded, billed, unbilled, running, refused, trace, l :=
        TakeTurn(turns, used, forwarded, billed, unbilled, finalGranted, trace, l);
      used := used + 1;
      if refused {
        StandsMetered(Tcp, trace, l, Done, forwarded, billed, unbilled);
        return;
      }
    }
    TakenDone(turns, finalGranted, used, running, forwarded, billed, unbilled, trace);
    if !running && unbilled > 0 {
      billed, unbilled, trace, l := BillTheRest(finalGranted, forwarded, billed, unbilled, trace, l);
    }
    StandsMetered(Tcp, trace, l, if running then Reading else Done, forwarded, billed, unbilled);
  }

  /** The final bill for what is left. */
  method BillTheRest(
    granted: bool, ghost forwarded: nat, billed: nat, unbilled: nat, ghost trace: seq<Action>, ghost l: Loop)
    returns (billed': nat, unbilled': nat, ghost trace': seq<Action>, ghost l': Loop)
    requires Stands(Tcp, trace, l, Closing, forwarded, billed, unbilled)
    ensures billed' == (if granted then billed + unbilled else billed) && unbilled' == if granted then 0 else unbilled
    ensures trace' == trace + [Bill(granted)] && Stands(Tcp, trace', l', Done, forwarded, billed', unbilled')
  {
    billed', unbilled' := billed, unbilled;
    trace', l' := Extend(Tcp, trace, l, Bill(granted));
    if granted {
      billed' := billed + unbilled;
      unbilled' := 0;
    }
  }

  /** What is left to do after the loop is the final bill. */
  lemma TakenDone(
    turns: seq<Turn>, finalGranted: bool, used: nat, running: bool, forwarded: nat, billed: nat, unbilled: nat,
    trace: seq<Action>)
    requires Taken(turns, used, running, forwarded, billed, unbilled, trace)
    ensures running || unbilled == 0 ==>
      TcpDone(turns, finalGranted, used, running, forwarded, billed, unbilled, trace)
    ensures !running && unbilled > 0 ==>
      TcpDone(turns, finalGranted, used, running, forwarded, if finalGranted then billed + unbilled else billed,
              if finalGranted then 0 else unbilled, trace + [Bill(finalGranted)])
  {
  }

  /** If every bill of a loop that has ended is granted, nothing is left unpaid. */
  lemma {:induction false} PaidInFull(
    turns: seq<Turn>, used: nat, forwarded: nat, billed: nat, unbilled: nat, trace: seq<Action>)
    requires used <= |turns| && TcpDone(turns, true, used, false, forwarded, billed, unbilled, trace)
    requires forall i :: 0 <= i < used ==> turns[i].granted
    ensures unbilled == 0 && billed == ReadBytes(turns[..used])
  {
  }

  /** If nothing fails, the loop runs on and forwards all it reads. */
  lemma {:induction false} AllGoesThrough(
    turns: seq<Turn>, finalGranted: bool, used: nat, running: bool, forwarded: nat, billed: nat, unbilled: nat,
    trace: seq<Action>)
    requires forall i :: 0 <= i < |turns| ==> Possible(turns[i]) && turns[i].ok && turns[i].granted && !turns[i].err
    requires used <= |turns| && running == !IsLast(turns, used - 1) && (running ==> used == |turns|)
    requires TcpDone(turns, finalGranted, used, running, forwarded, billed, unbilled, trace)
    ensures running && forwarded == ReadBytes(turns)
  {
    assert turns[..|turns|] == turns;
    AllWritten(turns);
  }

  // ----- one direction of a UDP session

  predicate IsLastUdp(turns: seq<Turn>, i: int) {
    0 <= i < |turns| && (turns[i].err || (turns[i].n > 0 && !turns[i].granted))
  }

  function UdpTurnActions(t: Turn): seq<Action> {
    if t.n == 0 then [Read(0, t.err)]
    else if t.granted then [Read(t.n, t.err), Bill(true), Write(t.written, t.ok)]
    else [Read(t.n, t.err), Bill(false)]
  }

  function UdpTraceOf(turns: seq<Turn>): seq<Action> {
    if turns == [] then [] else UdpTraceOf(Butlast(turns)) + UdpTurnActions(Last(turns))
  }

  /** One turn of the loop: read, bill, and only then write. */
  method UdpTurn(t: Turn, ghost trace: seq<Action>, ghost l: Loop)
    returns (sent: nat, running: bool, refused: bool, ghost trace': seq<Action>, ghost l': Loop)
    requires Possible(t) && Stands(Udp, trace, l, Reading, l.forwarded, l.billed, 0)
    ensures refused == (t.n > 0 && !t.granted) && sent == (if refused then 0 else t.n)
    ensures running == !(t.err || refused) && trace' == trace + UdpTurnActions(t)
    ensures Stands(Udp, trace', l', if running then Reading else Done, l.forwarded + sent, l.billed + sent,
                   if refused then t.n else 0)
  {
    sent, running, refused := 0, true, false;
    if t.n > 0 {
      if !t.granted {
        running, refused := false, true;
        trace', l' := ExtendTwo(Udp, trace, l, Read(t.n, t.err), Bill(false));
        return;
      }
      trace', l' := ExtendThree(Udp, trace, l, Read(t.n, t.err), Bill(true), Write(t.written, t.ok));
      sent := t.n;
    } else {
      trace', l' := Extend(Udp, trace, l, Read(0, t.err));
    }
    if t.err {
      running := false;
    }
  }

  ghost predicate UdpTaken(turns: seq<Turn>, used: int, running: bool, forwarded: nat, trace: seq<Action>) {
    && 0 <= used <= |turns|
    && (forall i :: 0 <= i < used - 1 ==> !IsLastUdp(turns, i))
    && running == !IsLastUdp(turns, used - 1)
    && (used > 0 && turns[used - 1].n > 0 ==> turns[used - 1].granted)
    && forwarded == ReadBytes(turns[..used]) && trace == UdpTraceOf(turns[..used])
  }

  lemma {:induction false} TakesUdpTurn(
    turns: seq<Turn>, used: nat, forwarded: nat, trace: seq<Action>, sent: nat, running: bool, refused: bool)
    requires used < |turns| && UdpTaken(turns, used, true, forwarded, trace)
    requires refused == (turns[used].n > 0 && !turns[used].granted) && sent == (if refused then 0 else turns[used].n)
    requires running == !(turns[used].err || refused)
    ensures var trace' := trace + UdpTurnActions(turns[used]);
      && (forall i :: 0 <= i < used ==> !IsLastUdp(turns, i)) && trace' == UdpTraceOf(turns[..used + 1])
      && (!refused ==> UdpTaken(turns, used + 1, running, forwarded + sent, trace'))
  {
    assert Butlast(turns[..used + 1]) == turns[..used] && Last(turns[..used + 1]) == turns[used];
  }

  /** One direction of a UDP session: every datagram is paid for before it goes, and
      the loop takes turns up to the first failed read or refused bill. What the
      writes return does not matter. */
  method RelayUdp(turns: seq<Turn>)
    returns (forwarded: nat, billed: nat, running: bool, used: nat, ghost trace: seq<Action>, ghost l: Loop)
    requires forall i :: 0 <= i < |turns| ==> Possible(turns[i])
    ensures used <= |turns| && running == !IsLastUdp(turns, used - 1) && (running ==> used == |turns|)
    ensures forall i :: 0 <= i < used - 1 ==> !IsLastUdp(turns, i)
    ensures var refused := used > 0 && turns[used - 1].n > 0 && !turns[used - 1].granted;
      && forwarded == ReadBytes(if refused then turns[..used - 1] else turns[..used])
      && Stands(Udp, trace, l, if running then Reading else Done, forwarded, billed,
                if refused then turns[used - 1].n else 0)
    ensures forwarded == billed && trace == UdpTraceOf(turns[..used])
  {
    forwarded, billed, running, used, trace := 0, 0, true, 0, [];
    l := Start(Udp);
    while used < |turns| && running
      invariant UdpTaken(turns, used, running, forwarded, trace) && billed == forwarded
      invariant Stands(Udp, trace, l, if running then Reading else Done, forwarded, billed, 0)
    {
      ghost var before := trace;
      var sent, refused;
      sent, running, refused, trace, l := UdpTurn(turns[used], trace, l);
      TakesUdpTurn(turns, used, forwarded, before, sent, running, refused);
      used := used + 1;
      forwarded, billed := forwarded + sent, billed + sent;
      if refused {
        return;
      }
    }
  }

  // ----- all sessions of one peer on one quota

  datatype System = System(node: NodeState, loops: seq<Loop>)

  /** Any loop may go next, a session may open (two loops, if there is any quota
      at all), and the node may do anything else but restart. */
  datatype Step =
    | Turnover(i: nat, a: Action)
    | OpenSession(kind: Kind)
    | NodeStep(e: Event)

  predicate Enabled(cfg: Config, peer: string, s: System, step: Step) {
    match step
    case Turnover(i, a) =>
      && i < |s.loops| && CanAct(s.loops[i], a)
      && (a.Bill? ==> a.granted == CanConsume(s.node.mem, peer, s.loops[i].unbilled))
    case OpenSession(_) => Quota(s.node.mem, peer) > 0
    case NodeStep(e) => !e.op.Restart? && Fair(cfg, e) && (e.op.ConsumeTraffic? ==> e.op.bytes >= 0)
  }

  function Next(cfg: Config, peer: string, s: System, step: Step): System
    requires Enabled(cfg, peer, s, step)
  {
    match step
    case Turnover(i, a) =>
      var loops := s.loops[i := Act(s.loops[i], a)];
      if a.Bill? then System(NodeRuns.Next(cfg, s.node, Event(0, ConsumeTraffic(peer, s.loops[i].unbilled))), loops)
      else s.(loops := loops)
    case OpenSession(kind) => s.(loops := s.loops + [Start(kind), Start(kind)])
    case NodeStep(e) => s.(node := NodeRuns.Next(cfg, s.node, e))
  }

  function Total(f: Loop -> int, loops: seq<Loop>): int {
    if loops == [] then 0 else Total(f, Butlast(loops)) + f(Last(loops))
  }

  function Forwarded(loops: seq<Loop>): int { Total((l: Loop) => l.forwarded, loops) }

  function Billed(loops: seq<Loop>): int { Total((l: Loop) => l.billed, loops) }

  function Slacks(loops: seq<Loop>): int { Total((l: Loop) => Slack(l.kind), loops) }

  lemma {:induction false} TotalUpdate(f: Loop -> int, loops: seq<Loop>, i: nat, l: Loop)
    requires i < |loops|
    ensures Total(f, loops[i := l]) == Total(f, loops) - f(loops[i]) + f(l)
  {
    if i == |loops| - 1 {
      assert Butlast(loops[i := l]) == Butlast(loops);
    } else {
      assert Butlast(loops[i := l]) == Butlast(loops)[i := l];
      TotalUpdate(f, Butlast(loops), i, l);
    }
  }

  lemma TotalTwoMore(f: Loop -> int, loops: seq<Loop>, l: Loop)
    ensures Total(f, loops + [l, l]) == Total(f, loops) + f(l) + f(l)
  {
    assert Butlast(loops + [l, l]) == loops + [l];
    assert Butlast(loops + [l]) == loops;
  }

  /** The quota that other steps of the node added for the peer. */
  function BoughtBy(cfg: Config, peer: string, s: System, step: Step): int {
    if step.NodeStep? then Bought(cfg, s.node, step.e, peer) else 0
  }

  function SlackBy(step: Step): nat {
    if step.OpenSession? then 2 * Slack(step.kind) else 0
  }

  /** `credit` is everything the peer ever had to spend. */
  ghost predicate Fits(peer: string, s: System, credit: int, slack: int) {
    && Quota(s.node.mem, peer) >= 0
    && Quota(s.node.mem, peer) + Billed(s.loops) <= credit
    && Slacks(s.loops) == slack
    && forall i :: 0 <= i < |s.loops| ==> Metered(s.loops[i])
  }

  lemma QuotaStep(cfg: Config, s: NodeState, e: Event, peer: string)
    requires !e.op.Restart?
    ensures Quota(NodeRuns.Next(cfg, s, e).mem, peer) == Quota(s.mem, peer) + Bought(cfg, s, e, peer) - Used(s, e, peer)
  {
  }

  lemma TurnFits(cfg: Config, peer: string, s: System, step: Step, credit: int, slack: int)
    requires step.Turnover? && Enabled(cfg, peer, s, step) && Fits(peer, s, credit, slack)
    ensures Fits(peer, Next(cfg, peer, s, step), credit, slack)
  {
    var i, a := step.i, step.a;
    var l' := Act(s.loops[i], a);
    ActKeepsMetered(s.loops[i], a);
    TotalUpdate((l: Loop) => l.billed, s.loops, i, l');
    TotalUpdate((l: Loop) => Slack(l.kind), s.loops, i, l');
    QuotaStep(cfg, s.node, Event(0, ConsumeTraffic(peer, s.loops[i].unbilled)), peer);
  }

  lemma StepFits(cfg: Config, peer: string, s: System, step: Step, credit: int, slack: int)
    requires Enabled(cfg, peer, s, step) && Fits(peer, s, credit, slack)
    ensures Fits(peer, Next(cfg, peer, s, step), credit + BoughtBy(cfg, peer, s, step), slack + SlackBy(step))
  {
    match step
    case Turnover(i, a) => TurnFits(cfg, peer, s, step, credit, slack);
    case OpenSession(kind) =>
      TotalTwoMore((l: Loop) => l.billed, s.loops, Start(kind));
      TotalTwoMore((l: Loop) => Slack(l.kind), s.loops, Start(kind));
    case NodeStep(e) =>
      QuotaStep(cfg, s.node, e, peer);
  }

  function CreditOf(cfg: Config, peer: string, s: System, steps: seq<Step>): int
    requires Plays(cfg, peer, s, steps)
    decreases |steps|
  {
    if steps == [] then 0
    else BoughtBy(cfg, peer, s, steps[0]) + CreditOf(cfg, peer, Next(cfg, peer, s, steps[0]), steps[1..])
  }

  predicate Plays(cfg: Config, peer: string, s: System, steps: seq<Step>)
    decreases |steps|
  {
    steps == [] || (Enabled(cfg, peer, s, steps[0]) && Plays(cfg, peer, Next(cfg, peer, s, steps[0]), steps[1..]))
  }

  function Play(cfg: Config, peer: string, s: System, steps: seq<Step>): System
    requires Plays(cfg, peer, s, steps)
    decreases |steps|
  {
    if steps == [] then s else Play(cfg, peer, Next(cfg, peer, s, steps[0]), steps[1..])
  }

  function TcpSessions(steps: seq<Step>): nat {
    if steps == [] then 0 else (if steps[0] == OpenSession(Tcp) then 1 else 0) + TcpSessions(steps[1..])
  }

  function SlackOf(steps: seq<Step>): nat {
    if steps == [] then 0 else SlackBy(steps[0]) + SlackOf(steps[1..])
  }

  lemma {:induction false} SlackOfSessions(steps: seq<Step>)
    ensures SlackOf(steps) == 2 * 1048575 * TcpSessions(steps)
  {
    if steps != [] {
      SlackOfSessions(steps[1..]);
    }
  }

  lemma {:induction false} RunFits(cfg: Config, peer: string, s: System, steps: seq<Step>, credit: int, slack: int)
    requires Plays(cfg, peer, s, steps) && Fits(peer, s, credit, slack)
    ensures Fits(peer, Play(cfg, peer, s, steps), credit + CreditOf(cfg, peer, s, steps), slack + SlackOf(steps))
    decreases |steps|
  {
    if steps != [] {
      StepFits(cfg, peer, s, steps[0], credit, slack);
      RunFits(cfg, peer, Next(cfg, peer, s, steps[0]), steps[1..],
        credit + BoughtBy(cfg, peer, s, steps[0]), slack + SlackBy(steps[0]));
    }
  }

  lemma {:induction false} ForwardedWithinSlack(loops: seq<Loop>)
    requires forall i :: 0 <= i < |loops| ==> Metered(loops[i])
    ensures Forwarded(loops) <= Billed(loops) + Slacks(loops)
  {
    if loops != [] {
      ForwardedWithinSlack(Butlast(loops));
      MeteredBounds(Last(loops));
    }
  }

  /** Under every scheduling of every session: the peer's traffic is at most the
      quota it started with, what it bought, and one batch less a byte for each
      direction of each TCP session. */
  lemma TrafficIsBounded(cfg: Config, peer: string, node: NodeState, steps: seq<Step>)
    requires Quota(node.mem, peer) >= 0 && Plays(cfg, peer, System(node, []), steps)
    ensures Forwarded(Play(cfg, peer, System(node, []), steps).loops)
         <= Quota(node.mem, peer) + CreditOf(cfg, peer, System(node, []), steps)
            + 2 * TcpSessions(steps) * (BATCH - 1)
  {
    var s := System(node, []);
    RunFits(cfg, peer, s, steps, Quota(node.mem, peer), 0);
    SlackOfSessions(steps);
    ForwardedWithinSlack(Play(cfg, peer, s, steps).loops);
  }

  // ----- every byte billed came from the quota

  /** What other steps of the node took from the peer's quota. */
  function TakenBy(peer: string, s: System, step: Step): int {
    if step.NodeStep? then Used(s.node, step.e, peer) else 0
  }

  function TakenIn(cfg: Config, peer: string, s: System, steps: seq<Step>): int
    requires Plays(cfg, peer, s, steps)
    decreases |steps|
  {
    if steps == [] then 0
    else TakenBy(peer, s, steps[0]) + TakenIn(cfg, peer, Next(cfg, peer, s, steps[0]), steps[1..])
  }

  lemma {:induction false} StepAccounts(cfg: Config, peer: string, s: System, step: Step)
    requires Enabled(cfg, peer, s, step)
    ensures var s' := Next(cfg, peer, s, step);
      Quota(s'.node.mem, peer) + Billed(s'.loops)
      == Quota(s.node.mem, peer) + Billed(s.loops) + BoughtBy(cfg, peer, s, step) - TakenBy(peer, s, step)
  {
    match step
    case Turnover(i, a) =>
      TotalUpdate((l: Loop) => l.billed, s.loops, i, Act(s.loops[i], a));
      QuotaStep(cfg, s.node, Event(0, ConsumeTraffic(peer, s.loops[i].unbilled)), peer);
    case OpenSession(kind) => TotalTwoMore((l: Loop) => l.billed, s.loops, Start(kind));
    case NodeStep(e) => QuotaStep(cfg, s.node, e, peer);
  }

  /** Under every scheduling: what is left and what was billed are exactly what there
      was and what was bought, less what the node's other steps took. */
  lemma {:induction false} PlayAccounts(cfg: Config, peer: string, s: System, steps: seq<Step>)
    requires Plays(cfg, peer, s, steps)
    ensures var s' := Play(cfg, peer, s, steps);
      Quota(s'.node.mem, peer) + Billed(s'.loops)
      == Quota(s.node.mem, peer) + Billed(s.loops) + CreditOf(cfg, peer, s, steps) - TakenIn(cfg, peer, s, steps)
    decreases |steps|
  {
    if steps != [] {
      StepAccounts(cfg, peer, s, steps[0]);
      PlayAccounts(cfg, peer, Next(cfg, peer, s, steps[0]), steps[1..]);
    }
  }

  /** Nothing bought, nothing forwarded: without quota no session opens. */
  lemma {:induction false} NoQuotaNoSession(cfg: Config, peer: string, node: NodeState, steps: seq<Step>)
    requires Quota(node.mem, peer) == 0 && Plays(cfg, peer, System(node, []), steps)
    requires forall i :: 0 <= i < |steps| && steps[i].NodeStep? ==>
      !steps[i].e.op.AddTraffic? && !steps[i].e.op.Receive?
    ensures Play(cfg, peer, System(node, []), steps).loops == []
    decreases |steps|
  {
    if steps != [] {
      var s' := Next(cfg, peer, System(node, []), steps[0]);
      QuotaStep(cfg, node, steps[0].e, peer);
      NoQuotaNoSession(cfg, peer, s'.node, steps[1..]);
    }
  }
}
