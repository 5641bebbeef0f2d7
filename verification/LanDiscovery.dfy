/** Announcements on the local network: what a node prints, what a receiver
    makes of it, and which packets can add a command center to the bootstraps. */
module LanDiscovery {
  import opened Text

  const TOKEN_V1 := "ZYPO_LAN_V1"
  const TOKEN_V2 := "ZYPO_LAN_V2"

  function NodeType(isCommandCenter: bool): string {
    if isCommandCenter then "cc" else "client"
  }

  function SignedText(id: string, port: string, nodeType: string, ts: string): string {
    TOKEN_V2 + "|" + id + "|" + port + "|" + nodeType + "|" + ts
  }

  /** `sign` is the node's key: it gives no bytes when signing fails. */
  function BuildPayload(id: string, port: int, isCommandCenter: bool, now: int, sign: string -> Decoded): string {
    var nodeType := NodeType(isCommandCenter);
    var ts := Decimal(now);
    match sign(SignedText(id, Decimal(port), nodeType, ts))
    case Invalid => TOKEN_V1 + "|" + id + "|" + Decimal(port) + "|" + nodeType
    case Bytes(sig) => SignedText(id, Decimal(port), nodeType, ts) + "|" + HexEncode(sig)
  }

  /** What a receiver can tell about peer IDs and signatures. */
  datatype Receiver = Receiver(
    selfID: string, isPeerID: string -> bool, verifies: (string, string, seq<Byte>) -> bool)

  datatype Verdict = Ignore | Connect(peer: string, port: string, nodeType: string, verified: bool)

  function HandlePacket(r: Receiver, data: string): Verdict {
    var parts := Split(data, '|');
    if |parts| < 3 then Ignore
    else if parts[0] == TOKEN_V2 then HandleV2(r, parts)
    else if parts[0] == TOKEN_V1 then HandleV1(r, parts)
    else Ignore
  }

  function HandleV2(r: Receiver, parts: seq<string>): Verdict
    requires |parts| >= 3
  {
    if |parts| < 6 || parts[1] == r.selfID then Ignore
    else
      match HexDecode(parts[5])
      case Invalid => Ignore
      case Bytes(sig) =>
        if r.isPeerID(parts[1]) && r.verifies(parts[1], SignedText(parts[1], parts[2], parts[3], parts[4]), sig)
        then Connect(parts[1], parts[2], parts[3], true)
        else Ignore
  }

  function HandleV1(r: Receiver, parts: seq<string>): Verdict
    requires |parts| >= 3
  {
    var nodeType := if |parts| >= 4 && parts[3] != "cc" then parts[3] else "client";
    if parts[1] == r.selfID || !r.isPeerID(parts[1]) then Ignore
    else Connect(parts[1], parts[2], nodeType, false)
  }

  /** The receiver checks exactly the text and the bytes that were signed, so an
      announcement gets through if and only if its own signature verifies. */
  lemma AnnouncementRoundTrip(
    r: Receiver, id: string, port: int, isCommandCenter: bool, now: int, sign: string -> Decoded)
    requires '|' !in id
    ensures var text := SignedText(id, Decimal(port), NodeType(isCommandCenter), Decimal(now));
      HandlePacket(r, BuildPayload(id, port, isCommandCenter, now, sign)) ==
        if id == r.selfID || !r.isPeerID(id) then Ignore
        else match sign(text)
             case Invalid => Connect(id, Decimal(port), "client", false)
             case Bytes(sig) =>
               if r.verifies(id, text, sig) then Connect(id, Decimal(port), NodeType(isCommandCenter), true) else Ignore
  {
    match sign(SignedText(id, Decimal(port), NodeType(isCommandCenter), Decimal(now)))
    case Invalid => FourFields(TOKEN_V1, id, Decimal(port), NodeType(isCommandCenter));
    case Bytes(sig) => SignedArrives(r, id, Decimal(port), NodeType(isCommandCenter), Decimal(now), sig);
  }

  lemma SignedArrives(r: Receiver, id: string, port: string, nodeType: string, ts: string, sig: seq<Byte>)
    requires Clean([id, port, nodeType, ts], '|')
    ensures HandlePacket(r, SignedText(id, port, nodeType, ts) + "|" + HexEncode(sig)) ==
      if id != r.selfID && r.isPeerID(id) && r.verifies(id, SignedText(id, port, nodeType, ts), sig)
      then Connect(id, port, nodeType, true) else Ignore
  {
    var fields := [id, port, nodeType, ts];
    assert '|' !in fields[0] && '|' !in fields[1] && '|' !in fields[2] && '|' !in fields[3];
    HexRoundTrip(sig);
    SixFields(TOKEN_V2, id, port, nodeType, ts, HexEncode(sig));
  }

  lemma FourFields(a: string, b: string, c: string, d: string)
    requires Clean([a, b, c, d], '|')
    ensures Split(a + "|" + b + "|" + c + "|" + d, '|') == [a, b, c, d]
  {
    var fields := [a, b, c, d];
    assert '|' !in fields[0] && '|' !in fields[1] && '|' !in fields[2] && '|' !in fields[3];
    SplitClean(a, '|');
    SplitClean(b, '|');
    SplitClean(c, '|');
    SplitClean(d, '|');
    SplitAt(a, b, '|');
    SplitAt(a + "|" + b, c, '|');
    SplitAt(a + "|" + b + "|" + c, d, '|');
  }

  lemma SixFields(a: string, b: string, c: string, d: string, e: string, f: string)
    requires Clean([a, b, c, d, e, f], '|')
    ensures Split(a + "|" + b + "|" + c + "|" + d + "|" + e + "|" + f, '|') == [a, b, c, d, e, f]
  {
    var fields := [a, b, c, d, e, f];
    assert '|' !in fields[0] && '|' !in fields[1] && '|' !in fields[2] && '|' !in fields[3];
    assert '|' !in fields[4] && '|' !in fields[5];
    assert Clean([a, b, c, d], '|');
    FourFields(a, b, c, d);
    SplitClean(e, '|');
    SplitClean(f, '|');
    SplitAt(a + "|" + b + "|" + c + "|" + d, e, '|');
    SplitAt(a + "|" + b + "|" + c + "|" + d + "|" + e, f, '|');
  }

  /** What is sent, field by field: a signed packet, or an unsigned one if signing
      fails. */
  lemma {:induction false} PayloadReads(id: string, port: int, isCommandCenter: bool, now: int, sign: string -> Decoded)
    requires '|' !in id
    ensures var nodeType := if isCommandCenter then "cc" else "client";
      var signed := ["ZYPO_LAN_V2", id, Decimal(port), nodeType, Decimal(now)];
      Split(BuildPayload(id, port, isCommandCenter, now, sign), '|') ==
        match sign(Join(signed, '|'))
        case Invalid => ["ZYPO_LAN_V1", id, Decimal(port), nodeType]
        case Bytes(sig) => signed + [HexEncode(sig)]
  {
    var nodeType, ts := NodeType(isCommandCenter), Decimal(now);
    JoinFive(TOKEN_V2, id, Decimal(port), nodeType, ts);
    match sign(SignedText(id, Decimal(port), nodeType, ts))
    case Invalid => FourFields(TOKEN_V1, id, Decimal(port), nodeType);
    case Bytes(sig) => SixFields(TOKEN_V2, id, Decimal(port), nodeType, ts, HexEncode(sig));
  }

  /** What a receiver makes of any packet: a signed one it can check, or an unsigned
      one, which cannot speak for a command center. Its own it ignores. */
  lemma {:induction false} PacketRule(r: Receiver, data: string)
    ensures var parts := Split(data, '|');
      HandlePacket(r, data) ==
        if |parts| >= 6 && parts[0] == "ZYPO_LAN_V2" && parts[1] != r.selfID && r.isPeerID(parts[1])
           && HexDecode(parts[5]).Bytes? && r.verifies(parts[1], Join(parts[..5], '|'), HexDecode(parts[5]).bytes)
        then Connect(parts[1], parts[2], parts[3], true)
        else if |parts| >= 3 && parts[0] == "ZYPO_LAN_V1" && parts[1] != r.selfID && r.isPeerID(parts[1])
        then Connect(parts[1], parts[2], if |parts| == 3 || parts[3] == "cc" then "client" else parts[3], false)
        else Ignore
  {
    var parts := Split(data, '|');
    if |parts| >= 6 {
      JoinFive(parts[0], parts[1], parts[2], parts[3], parts[4]);
      assert parts[..5] == [parts[0], parts[1], parts[2], parts[3], parts[4]];
    }
  }

  /** Whatever the packet: a command center is believed only on a signature over
      its own first five fields. */
  lemma CommandCentersAreVerified(r: Receiver, data: string)
    requires HandlePacket(r, data).Connect? && HandlePacket(r, data).nodeType == "cc"
    ensures HandlePacket(r, data).verified
    ensures var parts := Split(data, '|');
      && |parts| >= 6 && HexDecode(parts[5]).Bytes?
      && r.verifies(HandlePacket(r, data).peer, Join(parts[..5], '|'), HexDecode(parts[5]).bytes)
  {
    var parts := Split(data, '|');
    JoinFive(parts[0], parts[1], parts[2], parts[3], parts[4]);
    assert parts[..5] == [parts[0], parts[1], parts[2], parts[3], parts[4]];
  }

  lemma JoinFive(a: string, b: string, c: string, d: string, e: string)
    ensures Join([a, b, c, d, e], '|') == a + "|" + b + "|" + c + "|" + d + "|" + e
  {
    assert [a, b, c, d, e][1..] == [b, c, d, e] && [b, c, d, e][1..] == [c, d, e];
    assert [c, d, e][1..] == [d, e] && [d, e][1..] == [e];
    assert Join([d, e], '|') == d + "|" + e;
    assert Join([c, d, e], '|') == c + "|" + d + "|" + e;
    assert Join([b, c, d, e], '|') == b + "|" + c + "|" + d + "|" + e;
  }

  /** The bootstrap nodes of one node and when each was last known to be well. */
  function TcpAddress(ip: string, port: string): string {
    "/ip4/" + ip + "/tcp/" + port
  }

  function QuicAddress(ip: string, port: string): string {
    "/ip4/" + ip + "/udp/" + port + "/quic-v1"
  }

  class BootstrapSet {
    var ids: seq<string>
    var health: map<string, int>
    /** The addresses known for each peer. */
    var addresses: set<(string, string)>

    ghost predicate Valid()
      reads this
    {
      forall i, j :: 0 <= i < j < |ids| ==> ids[i] != ids[j]
    }

    constructor ()
      ensures Valid() && ids == [] && health == map[] && addresses == {}
    {
      ids, health, addresses := [], map[], {};
    }

    method AddAddress(peer: string, address: string, isAddress: string -> bool)
      modifies this`addresses
      ensures addresses == old(addresses) + if isAddress(address) then {(peer, address)} else {}
    {
      if isAddress(address) {
        addresses := addresses + {(peer, address)};
      }
    }

    /** `tcp` and `quic` are what the two dials would give; the second is made only
        if the first fails. `asksKey` says that the peer is asked for the oracle key. */
    method ConnectLANPeer(v: Verdict, ip: string, isAddress: string -> bool, tcp: bool, quic: bool, now: int)
      returns (connected: bool, asksKey: bool)
      requires Valid() && v.Connect?
      modifies this
      ensures Valid() && connected == (tcp || quic)
      ensures asksKey == (connected && v.nodeType == "cc" && v.verified)
      ensures asksKey && v.peer !in old(ids) ==>
        ids == old(ids) + [v.peer] && health == old(health)[v.peer := now]
      ensures !(asksKey && v.peer !in old(ids)) ==> ids == old(ids) && health == old(health)
      ensures addresses == old(addresses)
        + set a | a in {"/ip4/" + ip + "/tcp/" + v.port, "/ip4/" + ip + "/udp/" + v.port + "/quic-v1"} && isAddress(a)
            :: (v.peer, a)
    {
      AddAddress(v.peer, TcpAddress(ip, v.port), isAddress);
      AddAddress(v.peer, QuicAddress(ip, v.port), isAddress);
      connected, asksKey := tcp, false;
      if !connected {
        connected := quic;
      }
      if !connected {
        return;
      }
      if v.nodeType == "cc" && v.verified {
        var found := false;
        for i := 0 to |ids|
          invariant !found && v.peer !in ids[..i]
        {
          if ids[i] == v.peer {
            found := true;
            break;
          }
        }
        if !found {
          assert ids[..|ids|] == ids;
          ids := ids + [v.peer];
          health := health[v.peer := now];
        }
        asksKey := true;
      }
    }
  }
}
