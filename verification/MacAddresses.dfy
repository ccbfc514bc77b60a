// MAC addresses in text, as Go's net package parses and prints them.
module MacAddresses {

  predicate IsHex(c: char) {
    '0' <= c <= '9' || 'a' <= c <= 'f' || 'A' <= c <= 'F'
  }

  /** Pairs of hex digits, separated by colons or by hyphens: 6, 8 or 20 of them. */
  predicate ParsesAsPairs(mac: string) {
    && (|mac| == 17 || |mac| == 23 || |mac| == 59)
    && (mac[2] == ':' || mac[2] == '-')
    && forall i :: 0 <= i < |mac| ==> if i % 3 == 2 then mac[i] == mac[2] else IsHex(mac[i])
  }

  /** Groups of four hex digits, separated by dots: 3, 4 or 10 of them. */
  predicate ParsesAsGroups(mac: string) {
    && (|mac| == 14 || |mac| == 19 || |mac| == 49)
    && forall i :: 0 <= i < |mac| ==> if i % 5 == 4 then mac[i] == '.' else IsHex(mac[i])
  }

  predicate Parses(mac: string) {
    ParsesAsPairs(mac) || ParsesAsGroups(mac)
  }

  // ---------------------------------------------------------------- printed addresses

  function Digit(d: bv8): char
    requires d < 16
  {
    "0123456789abcdef"[d as int]
  }

  /** The address in text: two digits for each byte, with colons in between. */
  function Print(bytes: seq<bv8>): (mac: string)
    ensures |mac| == if bytes == [] then 0 else 3 * |bytes| - 1
  {
    if bytes == [] then ""
    else
      var pair := [Digit(bytes[0] >> 4), Digit(bytes[0] & 15)];
      if |bytes| == 1 then pair else pair + ":" + Print(bytes[1..])
  }

  lemma DigitsAreHex(d: bv8)
    requires d < 16
    ensures IsHex(Digit(d))
  {
    var digits := "0123456789abcdef";
    assert forall i :: 0 <= i < 16 ==> IsHex(digits[i]);
  }

  lemma {:induction false} PrintedCharacters(bytes: seq<bv8>, i: nat)
    requires i < |Print(bytes)|
    ensures var c := Print(bytes)[i]; if i % 3 == 2 then c == ':' else IsHex(c)
  {
    DigitsAreHex(bytes[0] >> 4);
    DigitsAreHex(bytes[0] & 15);
    if i >= 3 {
      PrintedCharacters(bytes[1..], i - 3);
    }
  }

  /** An interface whose address has 6, 8 or 20 bytes passes the check with the text the agent
      reports, and no other one does: in particular not one without an address. */
  lemma PrintedParsesIff(bytes: seq<bv8>)
    ensures Parses(Print(bytes)) <==> |bytes| == 6 || |bytes| == 8 || |bytes| == 20
  {
    var mac := Print(bytes);
    forall i: nat | i < |mac| ensures if i % 3 == 2 then mac[i] == ':' else IsHex(mac[i]) {
      PrintedCharacters(bytes, i);
    }
    hide Print;
    PairsParseIff(mac);
  }

  lemma PairsParseIff(mac: string)
    requires forall i :: 0 <= i < |mac| ==> if i % 3 == 2 then mac[i] == ':' else IsHex(mac[i])
    ensures Parses(mac) <==> |mac| == 17 || |mac| == 23 || |mac| == 59
  {
    assert |mac| > 2 ==> mac[2] == ':';
    assert !ParsesAsGroups(mac);
  }
}
