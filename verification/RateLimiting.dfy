/** The limit on streams per peer: fifty in a ten-second window, and a ban of
    thirty seconds for the peer that asks for more. Times are in nanoseconds;
    zero is before every clock reading. */
module RateLimiting {

  const LIMIT: nat := 50
  const SECOND: int := 1_000_000_000
  const WINDOW: int := 10 * SECOND
  const BAN: int := 30 * SECOND

  datatype Entry = Entry(count: nat, windowEnd: int, bannedUntil: int)

  const NEW_ENTRY := Entry(0, 0, 0)

  predicate Opens(e: Entry, now: int) {
    now >= e.bannedUntil && now > e.windowEnd
  }

  function Check(e: Entry, now: int): Entry {
    if now < e.bannedUntil then e
    else
      var counted := if now > e.windowEnd then Entry(1, now + WINDOW, e.bannedUntil) else e.(count := e.count + 1);
      if counted.count > LIMIT then counted.(bannedUntil := now + BAN) else counted
  }

  predicate Accepts(e: Entry, now: int) {
    now >= e.bannedUntil && Check(e, now).count <= LIMIT
  }

  /** The rule in plain figures: fifty streams in ten seconds, and thirty seconds off
      for the fifty-first. */
  lemma CheckRule(e: Entry, now: int)
    ensures Accepts(e, now) <==> now >= e.bannedUntil && (now > e.windowEnd || e.count < 50)
    ensures now < e.bannedUntil ==> Check(e, now) == e
    ensures now >= e.bannedUntil ==>
      var e' := Check(e, now);
      && e'.count == (if now > e.windowEnd then 1 else e.count + 1)
      && e'.windowEnd == (if now > e.windowEnd then now + 10_000_000_000 else e.windowEnd)
      && e'.bannedUntil == (if e'.count > 50 then now + 30_000_000_000 else e.bannedUntil)
  {
  }

  class EntryRecord {
    var count: nat
    var windowEnd: int
    var bannedUntil: int
    /** The peer this record belongs to. */
    ghost const owner: string

    constructor (ghost owner: string)
      ensures Value() == NEW_ENTRY && this.owner == owner
    {
      count, windowEnd, bannedUntil := 0, 0, 0;
      this.owner := owner;
    }

    function Value(): Entry
      reads this
    {
      Entry(count, windowEnd, bannedUntil)
    }
  }

  function EntryOf(entries: map<string, Entry>, peer: string): Entry {
    if peer in entries then entries[peer] else NEW_ENTRY
  }

  class RateLimiter {
    var peerStreamCount: map<string, EntryRecord>
    ghost var entries: map<string, Entry>
    ghost var records: set<EntryRecord>

    ghost predicate Valid()
      reads this, records
    {
      ValidBut({})
    }

    /** The records of `changed` may be ahead of `entries`. */
    ghost predicate ValidBut(changed: set<string>)
      reads this, records
    {
      && peerStreamCount.Keys == entries.Keys
      && (forall p :: p in peerStreamCount ==> peerStreamCount[p] in records && peerStreamCount[p].owner == p)
      && forall p :: p in peerStreamCount && p !in changed ==> peerStreamCount[p].Value() == entries[p]
    }

    /** Brings `entries` up to date with the record of `peer`. */
    ghost method Refresh(peer: string)
      requires peer in peerStreamCount && ValidBut({peer})
      modifies this`entries
      ensures Valid() && entries == old(entries)[peer := peerStreamCount[peer].Value()]
    {
      entries := entries[peer := peerStreamCount[peer].Value()];
    }

    constructor ()
      ensures Valid() && fresh(records) && entries == map[]
    {
      peerStreamCount, entries, records := map[], map[], {};
    }

    /** The record of the peer, a new one if there is none. */
    method RecordOf(peer: string) returns (entry: EntryRecord)
      requires Valid()
      modifies this
      ensures Valid() && fresh(records - old(records))
      ensures peer in peerStreamCount && entry == peerStreamCount[peer]
      ensures entries == old(entries)[peer := EntryOf(old(entries), peer)]
    {
      if peer !in peerStreamCount {
        entry := new EntryRecord(peer);
        peerStreamCount, records := peerStreamCount[peer := entry], records + {entry};
        entries := entries[peer := NEW_ENTRY];
      }
      entry := peerStreamCount[peer];
    }

    /** The entry of the peer takes one step; every other entry stays. */
    method CheckStreamRateLimit(peer: string, now: int) returns (ok: bool)
      requires Valid()
      modifies this, records
      ensures Valid() && fresh(records - old(records))
      ensures ok == Accepts(EntryOf(old(entries), peer), now)
      ensures entries == old(entries)[peer := Check(EntryOf(old(entries), peer), now)]
    {
      var entry := RecordOf(peer);
      ok := CountFor(peer, entry, now);
      WriteTwice(old(entries), peer, EntryOf(old(entries), peer), entries[peer]);
    }

    method CountFor(peer: string, entry: EntryRecord, now: int) returns (ok: bool)
      requires Valid() && peer in peerStreamCount && entry == peerStreamCount[peer]
      modifies this`entries, entry
      ensures Valid() && ok == Accepts(old(entries)[peer], now)
      ensures entries == old(entries)[peer := Check(old(entries)[peer], now)]
    {
      ok := CountStream(entry, now);
      Refresh(peer);
    }

    method CountStream(entry: EntryRecord, now: int) returns (ok: bool)
      modifies entry
      ensures ok == Accepts(old(entry.Value()), now) && entry.Value() == Check(old(entry.Value()), now)
    {
      if now < entry.bannedUntil {
        return false;
      }
      if now > entry.windowEnd {
        entry.count := 0;
        entry.windowEnd := now + WINDOW;
      }
      entry.count := entry.count + 1;
      if entry.count > LIMIT {
        entry.bannedUntil := now + BAN;
        return false;
      }
      return true;
    }
  }

  lemma WriteTwice(m: map<string, Entry>, p: string, a: Entry, b: Entry)
    ensures m[p := a][p := b] == m[p := b]
  {
  }

  // ----- one peer over time

  predicate Clocked(times: seq<int>) {
    && (forall i :: 0 <= i < |times| ==> times[i] > 0)
    && (forall i, j :: 0 <= i < j < |times| ==> times[i] <= times[j])
  }

  /** The entry after streams at these times. */
  function After(e: Entry, times: seq<int>): Entry
    decreases |times|
  {
    if times == [] then e else After(Check(e, times[0]), times[1..])
  }

  /** How many of the streams between `from` and `to` (inclusive) are accepted. */
  function Accepted(e: Entry, times: seq<int>, from: int, to: int): nat
    decreases |times|
  {
    if times == [] then 0
    else (if from <= times[0] <= to && Accepts(e, times[0]) then 1 else 0)
         + Accepted(Check(e, times[0]), times[1..], from, to)
  }

  /** How many windows can open in a closed interval of length `t`: the next one
      opens a nanosecond after the last has ended, or later. */
  function Openings(t: int): nat {
    if t < 0 then 0 else t / 10_000_000_001 + 1
  }

  lemma OpeningsStep(t: int)
    requires t >= 0
    ensures Openings(t) == 1 + Openings(t - WINDOW - 1)
  {
  }

  lemma OpeningsMonotone(t: int, u: int)
    requires t <= u
    ensures Openings(t) <= Openings(u)
  {
  }

  function Room(e: Entry): nat {
    if e.count < LIMIT then LIMIT - e.count else 0
  }

  lemma {:induction false} AcceptedFrom(e: Entry, times: seq<int>, from: int, to: int)
    requires Clocked(times)
    ensures Accepted(e, times, from, to) <= Room(e) + LIMIT * Openings(to - e.windowEnd - 1)
    decreases |times|
  {
    if times != [] {
      var now, e' := times[0], Check(e, times[0]);
      assert Clocked(times[1..]);
      AcceptedFrom(e', times[1..], from, to);
      if Opens(e, now) {
        if now <= to {
          OpeningsStep(to - now);
          OpeningsMonotone(to - now, to - e.windowEnd - 1);
        } else {
          NothingLate(e', times[1..], from, to);
        }
      }
    }
  }

  lemma {:induction false} NothingLate(e: Entry, times: seq<int>, from: int, to: int)
    requires forall i :: 0 <= i < |times| ==> times[i] > to
    ensures Accepted(e, times, from, to) == 0
    decreases |times|
  {
    if times != [] {
      NothingLate(Check(e, times[0]), times[1..], from, to);
    }
  }

  /** A reachable entry: fresh, or inside a cycle of window and ban. */
  predicate Reachable(e: Entry, now: int) {
    || e == NEW_ENTRY
    || (&& 1 <= e.count <= LIMIT + 1 && 0 < e.windowEnd <= now + WINDOW
        && (e.count > LIMIT ==> e.bannedUntil >= e.windowEnd + BAN - WINDOW)
        && (e.count <= LIMIT ==> e.bannedUntil <= e.windowEnd - WINDOW))
  }

  lemma CheckReachable(e: Entry, before: int, now: int)
    requires Reachable(e, before) && before <= now && 0 < now
    ensures Reachable(Check(e, now), now)
  {
  }

  lemma {:induction false} AllReachable(e: Entry, before: int, times: seq<int>)
    requires Reachable(e, before) && Clocked(times) && forall i :: 0 <= i < |times| ==> before <= times[i]
    ensures Reachable(After(e, times), if times == [] then before else times[|times| - 1])
    decreases |times|
  {
    if times != [] {
      CheckReachable(e, before, times[0]);
      assert Clocked(times[1..]);
      AllReachable(Check(e, times[0]), times[0], times[1..]);
    }
  }

  /** A ban outlives its window by twenty seconds or more, so the first stream
      after it always opens a new window; during it nothing gets through. */
  lemma BanCycle(times: seq<int>, now: int)
    requires Clocked(times) && now > 0 && forall i :: 0 <= i < |times| ==> times[i] <= now
    ensures var e := After(NEW_ENTRY, times);
      && e.count <= LIMIT + 1
      && (e.count > LIMIT ==> e.bannedUntil >= e.windowEnd + BAN - WINDOW)
      && (now < e.bannedUntil ==> e.count > LIMIT && !Accepts(e, now) && Check(e, now) == e)
      && (e.count > LIMIT && now >= e.bannedUntil ==> Opens(e, now) && Accepts(e, now) && Check(e, now).count == 1)
  {
    AllReachable(NEW_ENTRY, 0, times);
  }

  /** One stream too many and the next thirty seconds are lost. */
  lemma {:induction false} BanLasts(e: Entry, times: seq<int>)
    requires forall i :: 0 <= i < |times| ==> times[i] < e.bannedUntil
    ensures After(e, times) == e && forall from, to :: Accepted(e, times, from, to) == 0
    decreases |times|
  {
    if times != [] {
      BanLasts(e, times[1..]);
    }
  }

  lemma {:induction false} RejectionBans(e: Entry, now: int, times: seq<int>)
    requires !Accepts(e, now) && now >= e.bannedUntil
    requires forall i :: 0 <= i < |times| ==> times[i] < now + 30_000_000_000
    ensures forall from, to :: Accepted(Check(e, now), times, from, to) == 0
  {
    BanLasts(Check(e, now), times);
  }

  /** The most that one peer can get in a closed interval of length `t`: full
      windows, and forty-nine streams from a window that was open before, unless
      the full windows leave it no time. */
  function Most(t: nat): nat {
    LIMIT * Openings(t) + if t % 10_000_000_001 == 0 then 0 else LIMIT - 1
  }

  lemma MostByWindows(t: nat)
    ensures LIMIT * Openings(t) <= Most(t) && LIMIT - 1 + LIMIT * Openings(t - 1) <= Most(t)
  {
  }

  lemma {:induction false} SlidingBoundFrom(e: Entry, before: int, times: seq<int>, from: int, to: int)
    requires Reachable(e, before) && Clocked(times) && 0 < from <= to
    requires forall i :: 0 <= i < |times| ==> before <= times[i]
    ensures Accepted(e, times, from, to) <= Most(to - from)
    decreases |times|
  {
    if times != [] {
      var now, e' := times[0], Check(e, times[0]);
      assert Clocked(times[1..]);
      CheckReachable(e, before, now);
      MostByWindows(to - from);
      if now < from {
        SlidingBoundFrom(e', now, times[1..], from, to);
      } else if e.windowEnd >= from {
        AcceptedFrom(e, times, from, to);
        OpeningsMonotone(to - e.windowEnd - 1, to - from - 1);
      } else if Opens(e, now) {
        OpeningsMonotone(to - now, to - from);
        if now <= to {
          AcceptedFrom(e', times[1..], from, to);
          OpeningsStep(to - now);
        } else {
          NothingLate(e', times[1..], from, to);
        }
      } else {
        SlidingBoundFrom(e', now, times[1..], from, to);
      }
    }
  }

  // ----- all peers on one limiter

  datatype Call = Call(peer: string, now: int)

  function CheckAll(entries: map<string, Entry>, calls: seq<Call>): map<string, Entry>
    decreases |calls|
  {
    if calls == [] then entries
    else
      var c := calls[0];
      CheckAll(entries[c.peer := Check(EntryOf(entries, c.peer), c.now)], calls[1..])
  }

  function AcceptedOf(entries: map<string, Entry>, calls: seq<Call>, peer: string, from: int, to: int): nat
    decreases |calls|
  {
    if calls == [] then 0
    else
      var c := calls[0];
      var e := EntryOf(entries, c.peer);
      (if c.peer == peer && from <= c.now <= to && Accepts(e, c.now) then 1 else 0)
      + AcceptedOf(entries[c.peer := Check(e, c.now)], calls[1..], peer, from, to)
  }

  function TimesOf(calls: seq<Call>, peer: string): (times: seq<int>)
    ensures forall i :: 0 <= i < |times| ==> exists j :: 0 <= j < |calls| && calls[j] == Call(peer, times[i])
  {
    if calls == [] then []
    else
      var rest := TimesOf(calls[1..], peer);
      assert forall j :: 0 <= j < |calls| - 1 ==> calls[1..][j] == calls[j + 1];
      if calls[0].peer == peer then [calls[0].now] + rest else rest
  }

  /** Peers do not disturb one another. */
  lemma {:induction false} PeersAreSeparate(
    entries: map<string, Entry>, calls: seq<Call>, peer: string, from: int, to: int)
    ensures EntryOf(CheckAll(entries, calls), peer) == After(EntryOf(entries, peer), TimesOf(calls, peer))
    ensures AcceptedOf(entries, calls, peer, from, to)
         == Accepted(EntryOf(entries, peer), TimesOf(calls, peer), from, to)
    decreases |calls|
  {
    if calls != [] {
      var c := calls[0];
      PeersAreSeparate(entries[c.peer := Check(EntryOf(entries, c.peer), c.now)], calls[1..], peer, from, to);
    }
  }

  predicate InOrder(calls: seq<Call>) {
    && (forall i :: 0 <= i < |calls| ==> calls[i].now > 0)
    && (forall i, j :: 0 <= i < j < |calls| ==> calls[i].now <= calls[j].now)
  }

  lemma {:induction false} TimesInOrder(calls: seq<Call>, peer: string)
    requires InOrder(calls)
    ensures Clocked(TimesOf(calls, peer))
    decreases |calls|
  {
    if calls != [] {
      TimesInOrder(calls[1..], peer);
    }
  }

  /** In any closed interval, out of any mixture of calls, a peer gets at most this
      many streams. */
  lemma SlidingBound(calls: seq<Call>, peer: string, from: int, to: int)
    requires InOrder(calls) && 0 < from <= to
    ensures AcceptedOf(map[], calls, peer, from, to) <= Most(to - from)
  {
    PeersAreSeparate(map[], calls, peer, from, to);
    TimesInOrder(calls, peer);
    SlidingBoundFrom(NEW_ENTRY, 0, TimesOf(calls, peer), from, to);
  }

  /** In round figures: fifty for each ten seconds begun, and forty-nine more. */
  lemma MostInTenSeconds(t: nat)
    requires t > 0
    ensures Most(t) <= LIMIT * ((t + WINDOW - 1) / WINDOW) + LIMIT - 1
    ensures Most(WINDOW) == 99
  {
    var begun := (t + WINDOW - 1) / WINDOW;
    assert begun >= Openings(t);
  }

  // ----- the bound is met

  function Burst(now: int, n: nat): seq<int> {
    if n == 0 then [] else [now] + Burst(now, n - 1)
  }

  /** `n` full windows, each as soon as the last has ended. */
  function Train(now: int, n: nat): seq<int>
    decreases n
  {
    if n == 0 then [] else Burst(now, LIMIT) + Train(now + WINDOW + 1, n - 1)
  }

  lemma {:induction false} BurstAccepted(e: Entry, now: int, n: nat, rest: seq<int>, from: int, to: int)
    requires from <= now <= to && e.bannedUntil <= now <= e.windowEnd && e.count + n <= LIMIT
    ensures Accepted(e, Burst(now, n) + rest, from, to)
         == n + Accepted(e.(count := e.count + n), rest, from, to)
    decreases n
  {
    if n == 0 {
      assert Burst(now, n) + rest == rest;
    } else {
      assert (Burst(now, n) + rest)[1..] == Burst(now, n - 1) + rest;
      BurstAccepted(Check(e, now), now, n - 1, rest, from, to);
    }
  }

  lemma {:induction false} TrainAccepted(e: Entry, now: int, n: nat, from: int, to: int)
    requires from <= now && now + (WINDOW + 1) * (n - 1) <= to && e.bannedUntil <= now && e.windowEnd < now
    ensures Accepted(e, Train(now, n), from, to) == LIMIT * n
    decreases n
  {
    if n > 0 {
      var rest := Train(now + WINDOW + 1, n - 1);
      assert Train(now, n)[1..] == Burst(now, LIMIT - 1) + rest;
      BurstAccepted(Check(e, now), now, LIMIT - 1, rest, from, to);
      TrainAccepted(Check(e, now).(count := LIMIT), now + WINDOW + 1, n - 1, from, to);
    }
  }

  /** Streams at these times reach the bound: if there is room for it, a window
      that opens before the interval and is filled at its start, then full windows
      one after the other. */
  function Busiest(from: int, to: int): seq<int> {
    if (to - from) % 10_000_000_001 == 0 then Train(from, Openings(to - from))
    else [from - WINDOW] + (Burst(from, LIMIT - 1) + Train(from + 1, Openings(to - from)))
  }

  lemma LastOpening(t: nat)
    ensures (WINDOW + 1) * (Openings(t) - 1) <= t
    ensures t % 10_000_000_001 != 0 ==> 1 + (WINDOW + 1) * (Openings(t) - 1) <= t
  {
  }

  /** The bound is exact, for every interval that begins later than ten seconds
      after the clock's zero. */
  lemma {:induction false} BoundIsReached(from: int, to: int)
    requires WINDOW < from <= to
    ensures Clocked(Busiest(from, to)) && Accepted(NEW_ENTRY, Busiest(from, to), from, to) == Most(to - from)
  {
    BusiestIsClocked(from, to);
    LastOpening(to - from);
    if (to - from) % 10_000_000_001 == 0 {
      TrainAccepted(NEW_ENTRY, from, Openings(to - from), from, to);
    } else {
      FilledThenTrain(from, Openings(to - from), to);
    }
  }

  lemma {:induction false} FilledThenTrain(from: int, n: nat, to: int)
    requires WINDOW < from <= to && from + 1 + (WINDOW + 1) * (n - 1) <= to
    ensures Accepted(NEW_ENTRY, [from - WINDOW] + (Burst(from, LIMIT - 1) + Train(from + 1, n)), from, to)
         == LIMIT - 1 + LIMIT * n
  {
    var rest := Burst(from, LIMIT - 1) + Train(from + 1, n);
    var e := Check(NEW_ENTRY, from - WINDOW);
    assert ([from - WINDOW] + rest)[1..] == rest;
    BurstAccepted(e, from, LIMIT - 1, Train(from + 1, n), from, to);
    TrainAccepted(e.(count := LIMIT), from + 1, n, from, to);
  }

  lemma ClockedConcat(a: seq<int>, b: seq<int>, t: int)
    requires Clocked(a) && Clocked(b)
    requires (forall i :: 0 <= i < |a| ==> a[i] <= t) && forall i :: 0 <= i < |b| ==> t <= b[i]
    ensures Clocked(a + b)
  {
  }

  lemma {:induction false} BusiestIsClocked(from: int, to: int)
    requires WINDOW < from <= to
    ensures Clocked(Busiest(from, to))
  {
    var n := Openings(to - from);
    TrainTimes(from, n);
    TrainTimes(from + 1, n);
    BurstTimes(from, LIMIT - 1);
    ClockedConcat(Burst(from, LIMIT - 1), Train(from + 1, n), from);
    ClockedConcat([from - WINDOW], Burst(from, LIMIT - 1) + Train(from + 1, n), from - WINDOW);
  }

  lemma {:induction false} TrainTimes(now: int, n: nat)
    requires now > 0
    ensures Clocked(Train(now, n)) && forall i :: 0 <= i < |Train(now, n)| ==> now <= Train(now, n)[i]
    decreases n
  {
    if n > 0 {
      BurstTimes(now, LIMIT);
      TrainTimes(now + WINDOW + 1, n - 1);
    }
  }

  lemma {:induction false} BurstTimes(now: int, n: nat)
    ensures |Burst(now, n)| == n && forall i :: 0 <= i < n ==> Burst(now, n)[i] == now
  {
    if n > 0 {
      BurstTimes(now, n - 1);
    }
  }
}
