/** The text under the signature of a domain record. */
module DomainRecords {
  import opened Text

  datatype Record = Record(domain: string, ownerID: string, hostIDs: seq<string>, signature: seq<Byte>)

  function Message(domain: string, ownerID: string, hostIDs: seq<string>): string {
    domain + "|" + ownerID + "|" + Join(hostIDs, ',')
  }

  lemma {:induction false} JoinMore(hosts: seq<string>, host: string, c: char)
    requires hosts != []
    ensures Join(hosts + [host], c) == Join(hosts, c) + [c] + host
    decreases |hosts|
  {
    if |hosts| == 1 {
      assert (hosts + [host])[1..] == [host];
    } else {
      assert (hosts + [host])[1..] == hosts[1..] + [host];
      JoinMore(hosts[1..], host, c);
    }
  }

  /** The loop both signing and verifying run. */
  method JoinHosts(hostIDs: seq<string>) returns (hostsStr: string)
    ensures hostsStr == Join(hostIDs, ',')
  {
    hostsStr := "";
    if |hostIDs| > 0 {
      hostsStr := hostIDs[0];
      for i := 1 to |hostIDs|
        invariant hostsStr == Join(hostIDs[..i], ',')
      {
        JoinMore(hostIDs[..i], hostIDs[i], ',');
        assert hostIDs[..i + 1] == hostIDs[..i] + [hostIDs[i]];
        hostsStr := hostsStr + "," + hostIDs[i];
      }
      assert hostIDs[..|hostIDs|] == hostIDs;
    }
  }

  method SignRecord(sign: string -> Decoded, domain: string, ownerID: string, hostIDs: seq<string>)
    returns (signed: bool, record: Record)
    ensures signed <==> sign(Message(domain, ownerID, hostIDs)).Bytes?
    ensures signed ==> record == Record(domain, ownerID, hostIDs, sign(Message(domain, ownerID, hostIDs)).bytes)
  {
    record := Record(domain, ownerID, hostIDs, []);
    var hostsStr := JoinHosts(hostIDs);
    var sig := sign(domain + "|" + ownerID + "|" + hostsStr);
    if sig == Invalid {
      return false, record;
    }
    return true, record.(signature := sig.bytes);
  }

  method VerifyRecord(verifies: (string, seq<Byte>) -> bool, record: Record) returns (ok: bool)
    ensures ok == verifies(Message(record.domain, record.ownerID, record.hostIDs), record.signature)
  {
    var hostsStr := JoinHosts(record.hostIDs);
    ok := verifies(record.domain + "|" + record.ownerID + "|" + hostsStr, record.signature);
  }

  /** A key accepts the signatures it makes. */
  ghost predicate Accepts(sign: string -> Decoded, verifies: (string, seq<Byte>) -> bool) {
    forall text :: sign(text).Bytes? ==> verifies(text, sign(text).bytes)
  }

  /** A record that was signed and is read back as it was verifies. */
  method SignThenVerify(
    sign: string -> Decoded, verifies: (string, seq<Byte>) -> bool,
    domain: string, ownerID: string, hostIDs: seq<string>)
    returns (signed: bool, ok: bool)
    requires Accepts(sign, verifies)
    ensures signed ==> ok
  {
    var record;
    signed, record := SignRecord(sign, domain, ownerID, hostIDs);
    ok := VerifyRecord(verifies, record);
  }

  // ----- what the text tells apart

  /** The hosts that the joined text can be read as. */
  function Readable(hosts: seq<string>): seq<string> {
    if hosts == [] then [""] else Pieces(hosts)
  }

  function Pieces(hosts: seq<string>): seq<string> {
    if hosts == [] then [] else Split(hosts[0], ',') + Pieces(hosts[1..])
  }

  lemma {:induction false} SplitHosts(hosts: seq<string>)
    ensures Split(Join(hosts, ','), ',') == Readable(hosts)
    decreases |hosts|
  {
    if |hosts| == 1 {
      assert Pieces(hosts) == Split(hosts[0], ',') + Pieces([]);
    } else if |hosts| > 1 {
      SplitAt(hosts[0], Join(hosts[1..], ','), ',');
      SplitHosts(hosts[1..]);
    }
  }

  /** The text as its reader splits it. */
  function Fields(r: Record): seq<string> {
    Split(r.domain, '|') + Split(r.ownerID, '|') + Split(Join(r.hostIDs, ','), '|')
  }

  lemma {:induction false} SplitMessage(r: Record)
    ensures Split(Message(r.domain, r.ownerID, r.hostIDs), '|') == Fields(r)
  {
    SplitAt(r.domain, r.ownerID, '|');
    SplitAt(r.domain + "|" + r.ownerID, Join(r.hostIDs, ','), '|');
  }

  /** Two records have the same text exactly when their fields read the same. */
  lemma {:induction false} MessageTellsApart(a: Record, b: Record)
    ensures Message(a.domain, a.ownerID, a.hostIDs) == Message(b.domain, b.ownerID, b.hostIDs)
       <==> Fields(a) == Fields(b)
  {
    SplitMessage(a);
    SplitMessage(b);
    JoinSplit(Message(a.domain, a.ownerID, a.hostIDs), '|');
    JoinSplit(Message(b.domain, b.ownerID, b.hostIDs), '|');
  }

  /** The text of the hosts tells apart what it can be read as. */
  lemma {:induction false} HostsTellApart(a: seq<string>, b: seq<string>)
    ensures Join(a, ',') == Join(b, ',') <==> Readable(a) == Readable(b)
  {
    SplitHosts(a);
    SplitHosts(b);
    JoinSplit(Join(a, ','), ',');
    JoinSplit(Join(b, ','), ',');
  }

  /** If domain and owner hold no separator: when they agree on domain, owner and the
      hosts as they can be read back. */
  lemma {:induction false} CleanMessageTellsApart(a: Record, b: Record)
    requires '|' !in a.domain && '|' !in a.ownerID && '|' !in b.domain && '|' !in b.ownerID
    ensures Message(a.domain, a.ownerID, a.hostIDs) == Message(b.domain, b.ownerID, b.hostIDs)
       <==> a.domain == b.domain && a.ownerID == b.ownerID && Readable(a.hostIDs) == Readable(b.hostIDs)
  {
    MessageTellsApart(a, b);
    CleanFields(a);
    CleanFields(b);
    HostsTellApart(a.hostIDs, b.hostIDs);
    JoinSplit(Join(a.hostIDs, ','), '|');
    JoinSplit(Join(b.hostIDs, ','), '|');
    if Fields(a) == Fields(b) {
      assert Fields(a)[2..] == Fields(b)[2..];
    }
  }

  /** Domain, owner and hosts, in that order. */
  lemma {:induction false} MessageReads(domain: string, ownerID: string, hostIDs: seq<string>)
    requires '|' !in domain && '|' !in ownerID
    ensures Split(Message(domain, ownerID, hostIDs), '|') == [domain, ownerID] + Split(Join(hostIDs, ','), '|')
  {
    var r := Record(domain, ownerID, hostIDs, []);
    SplitMessage(r);
    CleanFields(r);
  }

  lemma CleanFields(r: Record)
    requires '|' !in r.domain && '|' !in r.ownerID
    ensures Fields(r) == [r.domain, r.ownerID] + Split(Join(r.hostIDs, ','), '|')
    ensures Fields(r)[0] == r.domain && Fields(r)[1] == r.ownerID
    ensures Fields(r)[2..] == Split(Join(r.hostIDs, ','), '|')
  {
    SplitClean(r.domain, '|');
    SplitClean(r.ownerID, '|');
  }

  predicate Proper(hosts: seq<string>) {
    forall i :: 0 <= i < |hosts| ==> hosts[i] != "" && ',' !in hosts[i]
  }

  lemma {:induction false} ProperReadable(hosts: seq<string>)
    requires Proper(hosts)
    ensures Pieces(hosts) == hosts
    decreases |hosts|
  {
    if hosts != [] {
      SplitClean(hosts[0], ',');
      ProperReadable(hosts[1..]);
    }
  }

  /** With hosts that are not empty and hold no comma, the text is the record. */
  lemma MessageIsInjective(a: Record, b: Record)
    requires '|' !in a.domain && '|' !in a.ownerID && '|' !in b.domain && '|' !in b.ownerID
    requires Proper(a.hostIDs) && Proper(b.hostIDs)
    requires Message(a.domain, a.ownerID, a.hostIDs) == Message(b.domain, b.ownerID, b.hostIDs)
    ensures a.domain == b.domain && a.ownerID == b.ownerID && a.hostIDs == b.hostIDs
  {
    CleanMessageTellsApart(a, b);
    ProperReadable(a.hostIDs);
    ProperReadable(b.hostIDs);
  }

  /** Otherwise different records can share one text. */
  lemma {:induction false} HostsCanCollide(domain: string, ownerID: string)
    ensures Message(domain, ownerID, []) == Message(domain, ownerID, [""])
    ensures Message(domain, ownerID, ["a", "b"]) == Message(domain, ownerID, ["a,b"])
    ensures Message("a|b", "c", []) == Message("a", "b|c", [])
  {
    assert ["a", "b"][1..] == ["b"];
    assert "a|b" + "|" + "c" + "|" == "a" + "|" + "b|c" + "|";
  }
}
