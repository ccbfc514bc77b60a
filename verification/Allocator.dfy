// controllers/baremetalendpoint/network.go, from the listing to the address: the scan for an
// address that is not reserved by the network and not held by a listed endpoint.
module Allocator {
  import opened Common
  import opened Addresses
  import opened Networks

  // The addresses of the listed endpoints; an endpoint may have none.
  type Listed = seq<Option<IP16>>

  predicate IsNameserver(spec: NetworkSpec, ip: IP16) {
    exists i :: 0 <= i < |spec.nameservers| && spec.nameservers[i].ip.Some? && Equal(ip, spec.nameservers[i].ip.value)
  }

  predicate IsSpecial(spec: NetworkSpec, ip: IP16) {
    || (spec.cidr.Some? && (Equal(ip, NetworkIP(spec.cidr.value)) || Equal(ip, Broadcast(spec.cidr.value))))
    || (spec.gateway.Some? && Equal(ip, spec.gateway.value))
  }

  predicate Held(listed: Listed, ip: IP16) {
    exists i :: 0 <= i < |listed| && listed[i].Some? && Equal(ip, listed[i].value)
  }

  /** The scan may hand this address out. */
  predicate Free(spec: NetworkSpec, listed: Listed, ip: IP16) {
    !IsSpecial(spec, ip) && !IsNameserver(spec, ip) && !Held(listed, ip)
  }

  predicate InRange(spec: NetworkSpec, ip: IP16)
    requires spec.start.Some? && spec.end.Some?
  {
    Value(spec.start.value) <= Value(ip) <= Value(spec.end.value)
  }

  /** The end of the range is the greatest address there is. */
  predicate EndsAtTop(spec: NetworkSpec)
    requires spec.end.Some?
  {
    forall i :: 0 <= i < 16 ==> spec.end.value[i] == 255
  }

  ghost predicate NoneFree(spec: NetworkSpec, listed: Listed, from: nat, to: nat) {
    forall ip: IP16 :: Free(spec, listed, ip) ==> !(from <= Value(ip) < to)
  }

  ghost predicate NoneFreeFrom(spec: NetworkSpec, listed: Listed, from: nat) {
    forall ip: IP16 :: Free(spec, listed, ip) ==> Value(ip) < from
  }

  /** What the scan finds: the least free address from start up to end. When the end is the
      greatest address the scan goes on from address zero. */
  ghost predicate IsNext(spec: NetworkSpec, listed: Listed, next: Option<IP16>)
    requires spec.start.Some? && spec.end.Some?
  {
    var start, end := Value(spec.start.value), Value(spec.end.value);
    match next
    case None => NoneFree(spec, listed, start, end + 1)
    case Some(ip) =>
      && Free(spec, listed, ip)
      && if Value(ip) >= start then Value(ip) <= end && NoneFree(spec, listed, start, Value(ip))
         else EndsAtTop(spec) && NoneFreeFrom(spec, listed, start) && NoneFree(spec, listed, 0, Value(ip))
  }

  method BroadcastOf(networkIP: IP, mask: IP) returns (broadcast: IP)
    requires |networkIP| == |mask|
    ensures broadcast == OrNot(networkIP, mask)
  {
    var bytes := new byte[|mask|];
    for i := 0 to |mask|
      invariant bytes[..i] == OrNot(networkIP, mask)[..i]
    {
      BytesAt(networkIP, networkIP, mask, i);
      bytes[i] := networkIP[i] | !mask[i];
      assert bytes[..i + 1] == bytes[..i] + [bytes[i]];
    }
    return bytes[..];
  }

  method Taken(spec: NetworkSpec, listed: Listed, ip: IP16) returns (found: bool)
    ensures found <==> IsNameserver(spec, ip) || Held(listed, ip)
  {
    found := false;
    for n := 0 to |spec.nameservers|
      invariant !found
      invariant forall j :: 0 <= j < n && spec.nameservers[j].ip.Some? ==> !Equal(ip, spec.nameservers[j].ip.value)
    {
      var nsIP := spec.nameservers[n].ip;
      if nsIP.Some? && Equal(ip, nsIP.value) {
        found := true;
        break;
      }
    }
    if !found {
      for b := 0 to |listed|
        invariant !found
        invariant forall j :: 0 <= j < b && listed[j].Some? ==> !Equal(ip, listed[j].value)
      {
        if listed[b] == None {
          continue;
        }
        if Equal(ip, listed[b].value) {
          found := true;
          break;
        }
      }
    }
  }

  /** One address of the scan. */
  method Skips(spec: NetworkSpec, listed: Listed, ip: IP16, broadcast: IP) returns (skip: bool)
    requires spec.cidr.Some? && spec.gateway.Some? && broadcast == Broadcast(spec.cidr.value)
    ensures skip <==> !Free(spec, listed, ip)
  {
    var networkIP := NetworkIP(spec.cidr.value);
    if Equal(ip, networkIP) || Equal(ip, spec.gateway.value) || Equal(ip, broadcast) {
      return true;
    }
    skip := Taken(spec, listed, ip);
  }

  /** The scan. It ends if the range does not reach the greatest address, or there are more
      addresses than objects that hold one. */
  method FindNext(spec: NetworkSpec, listed: Listed) returns (nextIP: Option<IP16>)
    requires spec.cidr.Some? && spec.start.Some? && spec.end.Some? && spec.gateway.Some?
    requires EndsAtTop(spec) ==> 3 + |spec.nameservers| + |listed| < Pow256(16)
    ensures IsNext(spec, listed, nextIP)
    ensures nextIP.None? ==> !EndsAtTop(spec)
  {
    hide Free, Value, Pow256, EndsAtTop, IsNext, Scanned, LexLe, Incremented;
    var c := spec.cidr.value;
    var start, end := spec.start.value, spec.end.value;
    var broadcast := BroadcastOf(NetworkIP(c), Mask(c));
    var ip := new byte[16](i requires 0 <= i < 16 => start[i]);
    assert ip[..] == start;
    ghost var n, wrapped := Value(start), false;
    if EndsAtTop(spec) {
      SomeAddressIsFree(spec, listed);
    }
    ScanBegins(spec, listed);
    while true
      invariant n == Value(ip[..]) < Pow256(16)
      invariant Scanned(spec, listed, n, wrapped)
      decreases if wrapped then 0 else 1, Pow256(16) - n
    {
      var current: IP16 := ip[..];
      LexIsNumeric(current, end);
      var order := Compare(end, current);
      if order < 0 {
        ScanStops(spec, listed, n, wrapped);
        return None;
      }
      var skip := Skips(spec, listed, current, broadcast);
      if !skip {
        ScanFinds(spec, listed, current, wrapped);
        return Some(current);
      }
      ScanMoves(spec, listed, current, wrapped);
      Inc(ip);
      IncrementAddsOne(current);
      n := Value(ip[..]);
      wrapped := wrapped || n == 0;
    }
  }

  /** The scan is at the address with number n: everything before it was looked at. */
  ghost predicate Scanned(spec: NetworkSpec, listed: Listed, n: nat, wrapped: bool)
    requires spec.start.Some? && spec.end.Some?
  {
    var start, end := Value(spec.start.value), Value(spec.end.value);
    if wrapped then
      EndsAtTop(spec) && NoneFreeFrom(spec, listed, start) && NoneFree(spec, listed, 0, n) && n < start
    else
      NoneFree(spec, listed, start, n) && start <= n && (n == start || n <= end + 1)
  }

  lemma ScanBegins(spec: NetworkSpec, listed: Listed)
    requires spec.start.Some? && spec.end.Some?
    ensures Scanned(spec, listed, Value(spec.start.value), false)
    ensures Value(spec.start.value) < Pow256(16)
  {
    ValueBound(spec.start.value);
  }

  /** The greatest address has the greatest number. */
  lemma TopIsGreatest(ip: IP16)
    ensures (forall i :: 0 <= i < 16 ==> ip[i] == 255) <==> Value(ip) + 1 == Pow256(16)
  {
    hide Value, Pow256;
    OnesAreTop(16);
    SameNumber(ip, TOP_ADDRESS);
    if forall i :: 0 <= i < 16 ==> ip[i] == 255 {
      assert ip == TOP_ADDRESS;
    } else if ip == TOP_ADDRESS {
      assert false;
    }
  }

  lemma NoneFreeToTheEnd(spec: NetworkSpec, listed: Listed, from: nat)
    requires NoneFree(spec, listed, from, Pow256(16))
    ensures NoneFreeFrom(spec, listed, from)
  {
    hide Free, Value, Pow256;
    forall ip: IP16 | Free(spec, listed, ip) ensures Value(ip) < from {
      ValueBound(ip);
    }
  }

  lemma ScanStops(spec: NetworkSpec, listed: Listed, n: nat, wrapped: bool)
    requires spec.start.Some? && spec.end.Some? && Scanned(spec, listed, n, wrapped)
    requires n > Value(spec.end.value) && n < Pow256(16)
    ensures IsNext(spec, listed, None) && !EndsAtTop(spec)
  {
    hide Free, Value, Pow256;
    TopIsGreatest(spec.end.value);
  }

  lemma ScanFinds(spec: NetworkSpec, listed: Listed, ip: IP16, wrapped: bool)
    requires spec.start.Some? && spec.end.Some? && Scanned(spec, listed, Value(ip), wrapped)
    requires Value(ip) <= Value(spec.end.value) && Free(spec, listed, ip)
    ensures IsNext(spec, listed, Some(ip))
  {
    hide Free;
  }

  lemma ScanMoves(spec: NetworkSpec, listed: Listed, ip: IP16, wrapped: bool)
    requires spec.start.Some? && spec.end.Some? && Scanned(spec, listed, Value(ip), wrapped)
    requires EndsAtTop(spec) ==> exists free: IP16 :: Free(spec, listed, free)
    requires Value(ip) <= Value(spec.end.value) && !Free(spec, listed, ip)
    ensures var last := Value(ip) + 1 == Pow256(16);
            && Scanned(spec, listed, if last then 0 else Value(ip) + 1, wrapped || last)
            && (last ==> !wrapped)
  {
    hide Free, Value, Pow256;
    TopIsGreatest(spec.end.value);
    NoneFreeGrows(spec, listed, Value(spec.start.value), ip);
    NoneFreeGrows(spec, listed, 0, ip);
    ValueBound(spec.end.value);
    if Value(ip) + 1 == Pow256(16) {
      NoneFreeToTheEnd(spec, listed, Value(spec.start.value));
    }
    if EndsAtTop(spec) {
      var free: IP16 :| Free(spec, listed, free);
      ValueBound(free);
    }
  }

  lemma NoneFreeGrows(spec: NetworkSpec, listed: Listed, from: nat, ip: IP16)
    requires !Free(spec, listed, ip)
    ensures NoneFree(spec, listed, from, Value(ip)) ==> NoneFree(spec, listed, from, Value(ip) + 1)
  {
    hide Free;
    if NoneFree(spec, listed, from, Value(ip)) {
      forall other: IP16 | Free(spec, listed, other)
        ensures !(from <= Value(other) < Value(ip) + 1)
      {
        if Value(other) == Value(ip) {
          ValueInjective(other, ip);
        }
      }
    }
  }

  // ---------------------------------------------------------------- what the scan promises

  /** Below the greatest address the scan is a search for the least free address of the range,
      and it fails exactly when there is none. */
  lemma ScanFindsLeastFree(spec: NetworkSpec, listed: Listed, next: Option<IP16>)
    requires spec.start.Some? && spec.end.Some? && !EndsAtTop(spec) && IsNext(spec, listed, next)
    ensures next.None? <==> forall ip: IP16 :: InRange(spec, ip) ==> !Free(spec, listed, ip)
    ensures next.Some? ==>
              && InRange(spec, next.value) && Free(spec, listed, next.value)
              && forall ip: IP16 :: InRange(spec, ip) && Free(spec, listed, ip) ==> Value(next.value) <= Value(ip)
  {
    hide Free, Value, Pow256;
  }

  /** What the scan hands out is in the range exactly when the range stops short of the greatest
      address or has a free address. */
  lemma ScanStaysInRangeIff(spec: NetworkSpec, listed: Listed, ip: IP16)
    requires spec.start.Some? && spec.end.Some? && IsNext(spec, listed, Some(ip))
    ensures InRange(spec, ip) <==>
            !EndsAtTop(spec) || exists free: IP16 :: InRange(spec, free) && Free(spec, listed, free)
  {
    hide Free, Value, Pow256;
    forall free: IP16 | Free(spec, listed, free) ensures Value(free) < Pow256(16) {
      ValueBound(free);
    }
  }

  const TOP_ADDRESS: IP16 := seq(16, _ => 255)
  const NEXT_TO_TOP: IP16 := TOP_ADDRESS[15 := 254]
  const ZERO_ADDRESS: IP16 := seq(16, _ => 0)
  const FIRST_ADDRESS: IP16 := ZERO_ADDRESS[15 := 1]

  const ANY_NETWORK: CIDR := Prefix(ZERO_ADDRESS, 0)
  const EXAMPLE_SPEC := NetworkSpec(Some(ANY_NETWORK), Some(NEXT_TO_TOP), Some(TOP_ADDRESS), Some(NEXT_TO_TOP), [], [])

  /** An admitted network whose range ends at the greatest address, with its gateway in the
      range: a new endpoint gets an address that is not in the range. */
  lemma ScanLeavesRange()
    ensures Admissible(EXAMPLE_SPEC) && IsNext(EXAMPLE_SPEC, [], Some(FIRST_ADDRESS)) && !InRange(EXAMPLE_SPEC, FIRST_ADDRESS)
  {
    hide Value, Pow256, Free, Contains;
    TopsAreNotMapped();
    EverythingInCidr(NEXT_TO_TOP);
    EverythingInCidr(TOP_ADDRESS);
    NumbersOfTheExample();
    FreeInExample(FIRST_ADDRESS);
    assert FIRST_ADDRESS[15] == 1 && ZERO_ADDRESS[15] == 0;
    forall ip: IP16 | Free(EXAMPLE_SPEC, [], ip)
      ensures Value(ip) < Value(NEXT_TO_TOP) && Value(ip) != 0
    {
      FreeInExample(ip);
      SameNumber(ip, TOP_ADDRESS);
      SameNumber(ip, NEXT_TO_TOP);
      SameNumber(ip, ZERO_ADDRESS);
      ValueBound(ip);
    }
  }

  lemma TopsAreNotMapped()
    ensures !IsV4Mapped(NEXT_TO_TOP) && !IsV4Mapped(TOP_ADDRESS) && !IsV4Mapped(FIRST_ADDRESS)
  {
    assert V4_IN_V6_PREFIX[0] == 0 && NEXT_TO_TOP[..12][0] == 255 && TOP_ADDRESS[..12][0] == 255;
    assert V4_IN_V6_PREFIX[10] == 255 && FIRST_ADDRESS[..12][10] == 0;
  }

  const MAPPED_ADDRESS: IP16 := V4_IN_V6_PREFIX + [192, 0, 2, 1]
  const WIDE_SPEC := NetworkSpec(Some(ANY_NETWORK), Some(FIRST_ADDRESS), Some(NEXT_TO_TOP), Some(FIRST_ADDRESS), [], [])

  /** An admitted IPv6 network with an address in its range and block that Contains denies. */
  lemma ContainsDeniesInRange()
    ensures Admissible(WIDE_SPEC) && !EndsAtTop(WIDE_SPEC)
    ensures InRange(WIDE_SPEC, MAPPED_ADDRESS) && InBlock(ANY_NETWORK, MAPPED_ADDRESS)
    ensures !Contains(ANY_NETWORK, MAPPED_ADDRESS)
  {
    hide Value, Pow256, Contains;
    TopsAreNotMapped();
    EverythingInCidr(FIRST_ADDRESS);
    EverythingInCidr(NEXT_TO_TOP);
    NumbersOfTheExample();
    assert FIRST_ADDRESS[15] == 1 && NEXT_TO_TOP[0] == 255 && NEXT_TO_TOP[15] == 254;
    assert MAPPED_ADDRESS[0] == 0 && MAPPED_ADDRESS[12] == 192 && ZERO_ADDRESS[12] == 0 && TOP_ADDRESS[0] == 255;
    SameNumber(MAPPED_ADDRESS, ZERO_ADDRESS);
    SameNumber(MAPPED_ADDRESS, TOP_ADDRESS);
    SameNumber(FIRST_ADDRESS, NEXT_TO_TOP);
    SameNumber(NEXT_TO_TOP, ZERO_ADDRESS);
    ValueBound(MAPPED_ADDRESS);
    RangeIsInCidr(WIDE_SPEC, MAPPED_ADDRESS);
    assert IsV4Mapped(MAPPED_ADDRESS);
    AllAddresses();
    assert ZERO_ADDRESS[10] == 0 && V4_IN_V6_PREFIX[10] == 255;
    assert ZERO_ADDRESS[..12][10] == 0;
  }

  lemma FreeInExample(ip: IP16)
    ensures Free(EXAMPLE_SPEC, [], ip) <==> ip != ZERO_ADDRESS && ip != TOP_ADDRESS && ip != NEXT_TO_TOP
  {
    AllAddresses();
    hide Networks.NetworkIP, Networks.Broadcast;
  }

  lemma SameNumber(a: IP16, b: IP16)
    ensures Value(a) == Value(b) ==> a == b
  {
    if Value(a) == Value(b) {
      ValueInjective(a, b);
    }
  }

  lemma AllAddresses()
    ensures NetworkIP(ANY_NETWORK) == ZERO_ADDRESS && Broadcast(ANY_NETWORK) == TOP_ADDRESS
  {
    var cidr := ANY_NETWORK;
    forall i | 0 <= i < 16 ensures NetworkIP(cidr)[i] == 0 && Broadcast(cidr)[i] == 255 {
      if i == 0 {
        BytesAt(ZERO_ADDRESS, NetworkIP(cidr), Mask(cidr), 0);
        ByteZero(0);
      } else {
        ClearedByte(ZERO_ADDRESS, ZERO_ADDRESS, 0, i);
      }
    }
  }

  lemma EverythingInCidr(ip: IP16)
    requires !IsV4Mapped(ip)
    ensures Contains(ANY_NETWORK, ip)
  {
    var cidr := ANY_NETWORK;
    AllAddresses();
    ContainsIsInBlock(cidr, ip);
    forall i | 0 <= i < 16 ensures And(ip, Mask(cidr))[i] == 0 {
      BytesAt(ip, ip, Mask(cidr), i);
      ByteZero(ip[i]);
    }
    assert And(ip, Mask(cidr)) == ZERO_ADDRESS;
    assert ZERO_ADDRESS[10] == 0 && V4_IN_V6_PREFIX[10] == 0xFF;
  }

  lemma NumbersOfTheExample()
    ensures Value(ZERO_ADDRESS) == 0 && Value(FIRST_ADDRESS) == 1
    ensures Value(TOP_ADDRESS) + 1 == Pow256(16) && Value(NEXT_TO_TOP) + 2 == Pow256(16)
  {
    hide Pow256, Value;
    ZerosAreZero(16);
    OnesAreTop(16);
    SameNumber(ZERO_ADDRESS, TOP_ADDRESS);
    assert ZERO_ADDRESS[0] != TOP_ADDRESS[0];
    IncrementAddsOne(ZERO_ADDRESS);
    assert Incremented(ZERO_ADDRESS) == FIRST_ADDRESS;
    IncrementAddsOne(NEXT_TO_TOP);
    assert Incremented(NEXT_TO_TOP) == TOP_ADDRESS;
  }

  lemma {:induction false} ZerosAreZero(n: nat)
    ensures Value(seq(n, _ => 0)) == 0
  {
    if n > 0 {
      var z: IP := seq(n, _ => 0);
      assert z[..n - 1] == seq(n - 1, _ => 0);
      ZerosAreZero(n - 1);
    }
  }

  lemma {:induction false} OnesAreTop(n: nat)
    ensures Value(seq(n, _ => 255)) + 1 == Pow256(n)
  {
    if n > 0 {
      var z: IP := seq(n, _ => 255);
      assert z[..n - 1] == seq(n - 1, _ => 255);
      OnesAreTop(n - 1);
    }
  }

  /** Everything an address is compared with, in 16 bytes. */
  function Excluded(spec: NetworkSpec, listed: Listed): (r: seq<IP16>)
    requires spec.cidr.Some? && spec.gateway.Some?
    ensures |r| <= 3 + |spec.nameservers| + Count(listed, (a: Option<IP16>) => a.Some?)
  {
    [To16(NetworkIP(spec.cidr.value)), To16(Broadcast(spec.cidr.value)), spec.gateway.value]
    + NameserverIPs(spec.nameservers) + AddressesOf(listed)
  }

  function NameserverIPs(nameservers: seq<Nameserver>): (r: seq<IP16>)
    ensures |r| <= |nameservers|
    ensures forall i :: 0 <= i < |nameservers| && nameservers[i].ip.Some? ==> nameservers[i].ip.value in r
  {
    if nameservers == [] then []
    else if nameservers[0].ip.Some? then [nameservers[0].ip.value] + NameserverIPs(nameservers[1..])
    else NameserverIPs(nameservers[1..])
  }

  function AddressesOf(listed: Listed): (r: seq<IP16>)
    ensures |r| == Count(listed, (a: Option<IP16>) => a.Some?)
    ensures forall i :: 0 <= i < |listed| && listed[i].Some? ==> listed[i].value in r
  {
    if listed == [] then []
    else if listed[0].Some? then [listed[0].value] + AddressesOf(listed[1..])
    else AddressesOf(listed[1..])
  }

  lemma NotFreeIsExcluded(spec: NetworkSpec, listed: Listed, ip: IP16)
    requires spec.cidr.Some? && spec.gateway.Some? && !Free(spec, listed, ip)
    ensures ip in Excluded(spec, listed)
  {
    EqualIsSame16(ip, NetworkIP(spec.cidr.value));
    EqualIsSame16(ip, Broadcast(spec.cidr.value));
    if IsNameserver(spec, ip) {
      var i :| 0 <= i < |spec.nameservers| && spec.nameservers[i].ip.Some? && Equal(ip, spec.nameservers[i].ip.value);
      assert ip in NameserverIPs(spec.nameservers);
    } else if Held(listed, ip) {
      var i :| 0 <= i < |listed| && listed[i].Some? && Equal(ip, listed[i].value);
      assert ip in AddressesOf(listed);
    }
  }

  function Numbers(ips: seq<IP16>): (r: set<nat>)
    ensures |r| <= |ips|
    ensures forall ip :: ip in ips ==> Value(ip) in r
  {
    if ips == [] then {} else {Value(ips[0])} + Numbers(ips[1..])
  }

  function Interval(lo: nat, hi: nat): (r: set<nat>)
    requires lo <= hi
    ensures |r| == hi - lo
    ensures forall n :: n in r <==> lo <= n < hi
    decreases hi - lo
  {
    if lo == hi then {} else Interval(lo, hi - 1) + {hi - 1}
  }

  lemma SubsetIsSmaller(a: set<nat>, b: set<nat>)
    requires a <= b
    ensures |a| <= |b|
  {
    assert b == a + (b - a);
  }

  /** Among more addresses than there are addresses to avoid, one is free. */
  lemma SomeIsFree(spec: NetworkSpec, listed: Listed, from: nat, to: nat) returns (free: IP16)
    requires spec.cidr.Some? && spec.gateway.Some? && from <= to <= Pow256(16)
    requires to - from > 3 + |spec.nameservers| + Count(listed, (a: Option<IP16>) => a.Some?)
    ensures Free(spec, listed, free) && from <= Value(free) < to
  {
    hide Free, Value, Pow256;
    if forall ip: IP16 :: from <= Value(ip) < to ==> !Free(spec, listed, ip) {
      var all := Interval(from, to);
      forall n | n in all ensures n in Numbers(Excluded(spec, listed)) {
        var ip := ValueSurjective(n, 16);
        NotFreeIsExcluded(spec, listed, ip);
      }
      SubsetIsSmaller(all, Numbers(Excluded(spec, listed)));
      assert false;
    }
    free :| from <= Value(free) < to && Free(spec, listed, free);
  }

  lemma SomeAddressIsFree(spec: NetworkSpec, listed: Listed)
    requires spec.cidr.Some? && spec.gateway.Some?
    requires 3 + |spec.nameservers| + |listed| < Pow256(16)
    ensures exists ip: IP16 :: Free(spec, listed, ip)
  {
    hide Free, Value, Pow256;
    var free := SomeIsFree(spec, listed, 0, Pow256(16));
  }

  /** A range with more addresses than there are addresses to avoid yields one. */
  lemma AllocationCannotFailEarly(spec: NetworkSpec, listed: Listed, next: Option<IP16>)
    requires Parsed(spec) && IsNext(spec, listed, next)
    requires Value(spec.end.value) - Value(spec.start.value) + 1 >
             3 + |spec.nameservers| + Count(listed, (a: Option<IP16>) => a.Some?)
    ensures next.Some? && InRange(spec, next.value)
  {
    hide Free, Value, Pow256, Contains;
    ValueBound(spec.end.value);
    var free := SomeIsFree(spec, listed, Value(spec.start.value), Value(spec.end.value) + 1);
    assert InRange(spec, free);
    if next.Some? {
      ScanStaysInRangeIff(spec, listed, next.value);
    }
  }

  /** What an endpoint is given is no network, broadcast or gateway address, no nameserver's, and
      not held by any listed endpoint. On a network with its range in its CIDR, as every admitted
      network has it, it is an address of the range and of the block, unless the scan had to run
      past the greatest address. */
  lemma AllocatedIsUsable(spec: NetworkSpec, listed: Listed, ip: IP16)
    requires Parsed(spec) && IsNext(spec, listed, Some(ip))
    ensures ip != To16(NetworkIP(spec.cidr.value)) && ip != To16(Broadcast(spec.cidr.value))
    ensures ip != spec.gateway.value
    ensures forall i :: 0 <= i < |spec.nameservers| ==> spec.nameservers[i].ip != Some(ip)
    ensures forall i :: 0 <= i < |listed| ==> listed[i] != Some(ip)
    ensures !EndsAtTop(spec) || (exists free: IP16 :: InRange(spec, free) && Free(spec, listed, free)) ==>
              InRange(spec, ip)
    ensures EndsInCidr(spec) && InRange(spec, ip) ==>
              && InBlock(spec.cidr.value, ip)
              && (Contains(spec.cidr.value, ip) <==> (IsV4Mapped(ip) <==> IsV4(spec.cidr.value)))
  {
    hide Value, Pow256, Contains;
    EqualIsSame16(ip, NetworkIP(spec.cidr.value));
    EqualIsSame16(ip, Broadcast(spec.cidr.value));
    ScanStaysInRangeIff(spec, listed, ip);
    if EndsInCidr(spec) && InRange(spec, ip) {
      RangeIsInCidr(spec, ip);
    }
    assert !IsNameserver(spec, ip) && !Held(listed, ip);
  }
}
