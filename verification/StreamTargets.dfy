/** Which connected peer a client asks first: healthy bootstrap nodes, then other
    bootstrap nodes, then anyone. */
module StreamTargets {
  import opened LedgerSpec

  type PeerID = string

  /** What the client sees while it builds its list. */
  datatype Snapshot = Snapshot(bootstraps: seq<PeerID>, peers: seq<PeerID>, healthy: set<PeerID>)

  function FirstIndex(s: seq<PeerID>, p: PeerID): (i: nat)
    ensures i <= |s| && (i < |s| <==> p in s)
    ensures i < |s| ==> s[i] == p
    ensures forall k :: 0 <= k < i ==> s[k] != p
  {
    if s == [] || s[0] == p then 0 else 1 + FirstIndex(s[1..], p)
  }

  function Class(v: Snapshot, p: PeerID): nat {
    if p !in v.bootstraps then 2 else if p in v.healthy then 0 else 1
  }

  function Position(v: Snapshot, p: PeerID): nat {
    FirstIndex(if p in v.bootstraps then v.bootstraps else v.peers, p)
  }

  predicate Before(v: Snapshot, p: PeerID, q: PeerID) {
    Class(v, p) < Class(v, q) || (Class(v, p) == Class(v, q) && Position(v, p) < Position(v, q))
  }

  predicate Ordered(v: Snapshot, targets: seq<PeerID>) {
    forall i, j :: 0 <= i < j < |targets| ==> Before(v, targets[i], targets[j])
  }

  /** In order, and exactly the connected peers: so each of them once. */
  ghost predicate IsTargetList(v: Snapshot, targets: seq<PeerID>) {
    Ordered(v, targets) && forall p :: p in targets <==> p in v.peers
  }

  method IsConnected(v: Snapshot, bid: PeerID) returns (found: bool)
    ensures found <==> bid in v.peers
  {
    for i := 0 to |v.peers|
      invariant bid !in v.peers[..i]
    {
      if v.peers[i] == bid {
        return true;
      }
    }
    return false;
  }

  /** The peers of the first `k` classes are in the list and in `seen`. */
  ghost predicate Collected(v: Snapshot, targets: seq<PeerID>, seen: set<PeerID>, k: nat) {
    && Ordered(v, targets)
    && (forall p :: p in targets <==> p in seen)
    && (forall p :: p in seen <==> p in v.peers && Class(v, p) < k)
  }

  /** The list that class `k` is listed in. */
  function Source(v: Snapshot, k: nat): seq<PeerID> {
    if k < 2 then v.bootstraps else v.peers
  }

  /** Part way through class `k`: so far only its peers among the first `i` listed. */
  ghost predicate Collecting(v: Snapshot, targets: seq<PeerID>, seen: set<PeerID>, k: nat, i: nat)
    requires i <= |Source(v, k)|
  {
    && Ordered(v, targets)
    && (forall p :: p in targets <==> p in seen)
    && (forall p :: p in seen ==> p in v.peers && (Class(v, p) < k || (Class(v, p) == k && Position(v, p) < i)))
    && (forall p :: p in v.peers && Class(v, p) < k ==> p in seen)
    && (forall p :: p in Source(v, k)[..i] && p in v.peers && Class(v, p) == k ==> p in seen)
  }

  lemma CollectAdd(v: Snapshot, targets: seq<PeerID>, seen: set<PeerID>, k: nat, i: nat, p: PeerID)
    requires i < |Source(v, k)| && p == Source(v, k)[i] && Collecting(v, targets, seen, k, i)
    requires p !in seen && p in v.peers && Class(v, p) == k
    ensures Collecting(v, targets + [p], seen + {p}, k, i + 1)
  {
  }

  lemma CollectSkip(v: Snapshot, targets: seq<PeerID>, seen: set<PeerID>, k: nat, i: nat)
    requires i < |Source(v, k)| && Collecting(v, targets, seen, k, i)
    requires var p := Source(v, k)[i]; p in seen || p !in v.peers || Class(v, p) != k
    ensures Collecting(v, targets, seen, k, i + 1)
  {
  }

  method AddHealthyBootstraps(v: Snapshot) returns (targets: seq<PeerID>, seen: set<PeerID>)
    ensures Collected(v, targets, seen, 1)
  {
    targets, seen := [], {};
    for i := 0 to |v.bootstraps|
      invariant Collecting(v, targets, seen, 0, i)
    {
      var bid := v.bootstraps[i];
      if bid !in seen && bid in v.healthy {
        var connected := IsConnected(v, bid);
        if connected {
          CollectAdd(v, targets, seen, 0, i, bid);
          seen := seen + {bid};
          targets := targets + [bid];
        } else {
          CollectSkip(v, targets, seen, 0, i);
        }
      } else {
        CollectSkip(v, targets, seen, 0, i);
      }
    }
  }

  method AddOtherBootstraps(v: Snapshot, targets: seq<PeerID>, seen: set<PeerID>)
    returns (targets': seq<PeerID>, seen': set<PeerID>)
    requires Collected(v, targets, seen, 1)
    ensures Collected(v, targets', seen', 2)
  {
    targets', seen' := targets, seen;
    for i := 0 to |v.bootstraps|
      invariant Collecting(v, targets', seen', 1, i)
    {
      var bid := v.bootstraps[i];
      if bid !in seen' {
        var connected := IsConnected(v, bid);
        if connected {
          CollectAdd(v, targets', seen', 1, i, bid);
          seen' := seen' + {bid};
          targets' := targets' + [bid];
        } else {
          CollectSkip(v, targets', seen', 1, i);
        }
      } else {
        CollectSkip(v, targets', seen', 1, i);
      }
    }
  }

  method AddOtherPeers(v: Snapshot, targets: seq<PeerID>, seen: set<PeerID>)
    returns (targets': seq<PeerID>, seen': set<PeerID>)
    requires Collected(v, targets, seen, 2)
    ensures Collected(v, targets', seen', 3)
  {
    targets', seen' := targets, seen;
    for i := 0 to |v.peers|
      invariant Collecting(v, targets', seen', 2, i)
    {
      var p := v.peers[i];
      if p !in seen' {
        CollectAdd(v, targets', seen', 2, i, p);
        seen' := seen' + {p};
        targets' := targets' + [p];
      } else {
        CollectSkip(v, targets', seen', 2, i);
      }
    }
  }

  method BuildTargets(v: Snapshot) returns (targets: seq<PeerID>)
    ensures IsTargetList(v, targets)
  {
    var seen;
    targets, seen := AddHealthyBootstraps(v);
    targets, seen := AddOtherBootstraps(v, targets, seen);
    targets, seen := AddOtherPeers(v, targets, seen);
  }

  lemma OrderedTail(v: Snapshot, a: seq<PeerID>, p: PeerID)
    requires a != [] && Ordered(v, a)
    ensures p in a[1..] <==> p in a && p != a[0]
  {
  }

  lemma SameFirst(v: Snapshot, a: seq<PeerID>, b: seq<PeerID>)
    requires Ordered(v, a) && Ordered(v, b) && a != [] && b != [] && a[0] in b && b[0] in a
    ensures a[0] == b[0]
  {
  }

  predicate Sooner(s: seq<PeerID>, p: PeerID, q: PeerID) {
    exists k :: 0 <= k < |s| && s[k] == p && q !in s[..k + 1]
  }

  lemma {:induction false} FirstIsSooner(s: seq<PeerID>, p: PeerID, q: PeerID)
    requires p in s && q in s
    ensures FirstIndex(s, p) < FirstIndex(s, q) <==> Sooner(s, p, q)
  {
    var i, j := FirstIndex(s, p), FirstIndex(s, q);
    if i < j {
      assert s[i] == p && q !in s[..i + 1];
    }
    if k :| 0 <= k < |s| && s[k] == p && q !in s[..k + 1] {
      PrefixHolds(s, k);
    }
  }

  lemma PrefixHolds(s: seq<PeerID>, k: nat)
    requires k < |s|
    ensures forall m :: 0 <= m <= k ==> s[m] in s[..k + 1]
  {
    forall m | 0 <= m <= k
      ensures s[m] in s[..k + 1]
    {
      assert s[..k + 1][m] == s[m];
    }
  }

  /** The order in plain terms: healthy bootstraps, other bootstraps, the rest, and
      within each as the program lists them. */
  lemma {:induction false} BeforeRule(v: Snapshot, p: PeerID, q: PeerID)
    requires p in v.peers && q in v.peers
    ensures var pb, qb := p in v.bootstraps, q in v.bootstraps;
      var ph, qh := pb && p in v.healthy, qb && q in v.healthy;
      Before(v, p, q) <==>
        if ph != qh then ph else if pb != qb then pb
        else if pb then Sooner(v.bootstraps, p, q) else Sooner(v.peers, p, q)
  {
    if p in v.bootstraps && q in v.bootstraps {
      FirstIsSooner(v.bootstraps, p, q);
    } else if p !in v.bootstraps && q !in v.bootstraps {
      FirstIsSooner(v.peers, p, q);
    }
  }

  /** There is only one such list. */
  lemma {:induction false} TargetListIsUnique(v: Snapshot, a: seq<PeerID>, b: seq<PeerID>)
    requires Ordered(v, a) && Ordered(v, b) && forall p :: p in a <==> p in b
    ensures a == b
    decreases |a|
  {
    assert forall i :: 0 <= i < |a| ==> a[i] in b;
    assert forall i :: 0 <= i < |b| ==> b[i] in a;
    if a != [] {
      SameFirst(v, a, b);
      forall p
        ensures p in a[1..] <==> p in b[1..]
      {
        OrderedTail(v, a, p);
        OrderedTail(v, b, p);
      }
      TargetListIsUnique(v, a[1..], b[1..]);
      assert a == [a[0]] + a[1..] && b == [b[0]] + b[1..];
    }
  }

  /** The stream goes to the best peer that takes one; `reachable` are the peers
      that would. */
  method GetCCStream(v: Snapshot, reachable: set<PeerID>) returns (peer: Option<PeerID>)
    ensures peer.None? <==> forall p :: p in v.peers ==> p !in reachable
    ensures peer.Some? ==>
      && peer.value in v.peers && peer.value in reachable
      && forall p :: p in v.peers && p in reachable && p != peer.value ==> Before(v, peer.value, p)
  {
    var targets := BuildTargets(v);
    for i := 0 to |targets|
      invariant forall k :: 0 <= k < i ==> targets[k] !in reachable
    {
      if targets[i] in reachable {
        assert forall p :: p in v.peers ==> p in targets;
        return Some(targets[i]);
      }
    }
    assert forall p :: p in v.peers ==> p in targets;
    return None;
  }
}
