/** The text formats the program prints and splits. */
module Text {

  function Digit(d: nat): char
    requires d < 10
  {
    "0123456789"[d]
  }

  function DecimalNat(n: nat): (s: string)
    ensures |s| > 0 && forall c :: c in s ==> '0' <= c <= '9'
  {
    if n < 10 then [Digit(n)] else DecimalNat(n / 10) + [Digit(n % 10)]
  }

  function Decimal(n: int): (s: string)
    ensures forall c :: c in s ==> c == '-' || '0' <= c <= '9'
  {
    if n < 0 then "-" + DecimalNat(-n) else DecimalNat(n)
  }

  function Value(s: string): int {
    if s == "" then 0 else Value(s[..|s| - 1]) * 10 + (s[|s| - 1] as int - '0' as int)
  }

  lemma {:induction false} ValueOfDecimal(n: nat)
    ensures Value(DecimalNat(n)) == n
  {
    if n < 10 {
      assert DecimalNat(n)[..0] == "";
    } else {
      ValueOfDecimal(n / 10);
      assert DecimalNat(n)[..|DecimalNat(n)| - 1] == DecimalNat(n / 10);
    }
  }

  lemma SignShows(n: int)
    ensures Decimal(n) != "" && (Decimal(n)[0] == '-' <==> n < 0)
  {
    if n >= 0 {
      assert DecimalNat(n)[0] in DecimalNat(n);
    }
  }

  lemma DecimalNatIsInjective(m: nat, n: nat)
    requires DecimalNat(m) == DecimalNat(n)
    ensures m == n
  {
    ValueOfDecimal(m);
    ValueOfDecimal(n);
  }

  /** Different numbers print differently. */
  lemma DecimalIsInjective(m: int, n: int)
    requires Decimal(m) == Decimal(n)
    ensures m == n
  {
    SignShows(m);
    SignShows(n);
    if m < 0 {
      assert Decimal(m)[1..] == DecimalNat(-m);
      assert Decimal(n)[1..] == DecimalNat(-n);
      DecimalNatIsInjective(-m, -n);
    } else {
      DecimalNatIsInjective(m, n);
    }
  }

  // ----- fields between separators

  /** Text without any separator is one field; the empty text is one empty field. */
  function Split(s: string, c: char): (fields: seq<string>)
    ensures |fields| > 0
  {
    if s == "" then [""]
    else
      var rest := Split(s[1..], c);
      if s[0] == c then [""] + rest else [[s[0]] + rest[0]] + rest[1..]
  }

  function Join(fields: seq<string>, c: char): string {
    if fields == [] then ""
    else if |fields| == 1 then fields[0]
    else fields[0] + [c] + Join(fields[1..], c)
  }

  lemma {:induction false} SplitClean(a: string, c: char)
    requires c !in a
    ensures Split(a, c) == [a]
  {
    if a != "" {
      SplitClean(a[1..], c);
      assert [a[0]] + a[1..] == a;
    }
  }

  lemma {:induction false} SplitAt(a: string, s: string, c: char)
    ensures Split(a + [c] + s, c) == Split(a, c) + Split(s, c)
    decreases |a|
  {
    var all := a + [c] + s;
    if a == "" {
      assert all[1..] == s;
      assert Split(all, c) == [""] + Split(s, c);
    } else {
      assert all[1..] == a[1..] + [c] + s;
      SplitAt(a[1..], s, c);
    }
  }

  lemma {:induction false} JoinSplit(s: string, c: char)
    ensures Join(Split(s, c), c) == s
  {
    if s != "" {
      JoinSplit(s[1..], c);
      var rest, all := Split(s[1..], c), Split(s, c);
      if s[0] == c {
        assert all[1..] == rest;
      } else {
        assert all[1..] == rest[1..];
      }
    }
  }

  predicate Clean(fields: seq<string>, c: char) {
    forall i :: 0 <= i < |fields| ==> c !in fields[i]
  }

  lemma {:induction false} SplitJoin(fields: seq<string>, c: char)
    requires fields != [] && Clean(fields, c)
    ensures Split(Join(fields, c), c) == fields
    decreases |fields|
  {
    SplitClean(fields[0], c);
    if |fields| > 1 {
      SplitAt(fields[0], Join(fields[1..], c), c);
      SplitJoin(fields[1..], c);
      assert fields == [fields[0]] + fields[1..];
    }
  }

  // ----- bytes as hexadecimal text

  type Byte = b: int | 0 <= b < 256

  datatype Decoded = Invalid | Bytes(bytes: seq<Byte>)

  const HEX := "0123456789abcdef"

  function HexValue(c: char): int {
    if '0' <= c <= '9' then c as int - '0' as int
    else if 'a' <= c <= 'f' then c as int - 'a' as int + 10
    else if 'A' <= c <= 'F' then c as int - 'A' as int + 10
    else -1
  }

  function HexEncode(bytes: seq<Byte>): (s: string)
    ensures '|' !in s
  {
    if bytes == [] then "" else [HEX[bytes[0] / 16], HEX[bytes[0] % 16]] + HexEncode(bytes[1..])
  }

  function HexDecode(s: string): Decoded {
    if s == "" then Bytes([])
    else if |s| == 1 || HexValue(s[0]) < 0 || HexValue(s[1]) < 0 then Invalid
    else
      match HexDecode(s[2..])
      case Invalid => Invalid
      case Bytes(rest) => Bytes([(HexValue(s[0]) * 16 + HexValue(s[1])) as Byte] + rest)
  }

  /** Two lower-case digits a byte, the high half first. */
  lemma {:induction false} HexEncodeRule(bytes: seq<Byte>, i: nat)
    requires i < |bytes|
    ensures |HexEncode(bytes)| == 2 * |bytes|
    ensures HexEncode(bytes)[2 * i] == "0123456789abcdef"[bytes[i] / 16]
    ensures HexEncode(bytes)[2 * i + 1] == "0123456789abcdef"[bytes[i] % 16]
    decreases |bytes|
  {
    if |bytes| == 1 {
      assert HexEncode(bytes[1..]) == "";
    } else {
      HexEncodeRule(bytes[1..], if i == 0 then 0 else i - 1);
    }
  }

  predicate IsHex(c: char) {
    '0' <= c <= '9' || 'a' <= c <= 'f' || 'A' <= c <= 'F'
  }

  /** Any text of an even number of digits, of either case, can be decoded. */
  lemma {:induction false} HexDecodeRule(s: string)
    ensures HexDecode(s).Bytes? <==> |s| % 2 == 0 && forall i :: 0 <= i < |s| ==> IsHex(s[i])
    decreases |s|
  {
    if |s| > 1 {
      HexDecodeRule(s[2..]);
      assert forall i :: 2 <= i < |s| ==> s[i] == s[2..][i - 2];
    }
  }

  lemma {:induction false} HexPair(b: Byte)
    ensures HexValue(HEX[b / 16]) >= 0 && HexValue(HEX[b % 16]) >= 0
    ensures HexValue(HEX[b / 16]) * 16 + HexValue(HEX[b % 16]) == b
  {
    HexDigit(b / 16);
    HexDigit(b % 16);
  }

  lemma HexDigit(d: nat)
    requires d < 16
    ensures HexValue(HEX[d]) == d
  {
  }

  lemma {:induction false} HexRoundTrip(bytes: seq<Byte>)
    ensures HexDecode(HexEncode(bytes)) == Bytes(bytes)
    decreases |bytes|
  {
    if bytes != [] {
      var rest := HexEncode(bytes[1..]);
      HexRoundTrip(bytes[1..]);
      HexPair(bytes[0]);
      DecodePair(HEX[bytes[0] / 16], HEX[bytes[0] % 16], rest);
      assert [bytes[0]] + bytes[1..] == bytes;
    }
  }

  lemma DecodePair(a: char, b: char, rest: string)
    requires HexValue(a) >= 0 && HexValue(b) >= 0 && HexDecode(rest).Bytes?
    ensures HexDecode([a, b] + rest) == Bytes([(HexValue(a) * 16 + HexValue(b)) as Byte] + HexDecode(rest).bytes)
  {
    assert ([a, b] + rest)[2..] == rest;
  }
}
