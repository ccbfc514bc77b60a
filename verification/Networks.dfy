// webhooks/baremetalnetwork_webhook.go: which networks are admitted. A network is modelled as
// what Go's net package parsed out of the text of its spec.
module Networks {
  import opened Common
  import opened Addresses

  // net.ParseIP answers with 16 bytes for both families.
  type IP16 = ip: IP | |ip| == 16 witness seq(16, _ => 0)

  // net.ParseCIDR masks an IPv4 network in its 4-byte form and an IPv6 network in its 16-byte form.
  type CIDR = c: Prefix | (|c.ip| == 4 || |c.ip| == 16) && c.ones <= 8 * |c.ip| witness Prefix([0, 0, 0, 0], 0)
  datatype Prefix = Prefix(ip: IP, ones: nat)

  datatype Nameserver = Nameserver(text: string, ip: Option<IP16>)

  datatype NetworkSpec = NetworkSpec(
    cidr: Option<CIDR>,
    start: Option<IP16>,
    end: Option<IP16>,
    gateway: Option<IP16>,
    nameservers: seq<Nameserver>,
    search: seq<string>)

  function Mask(c: CIDR): (m: IP)
    ensures |m| == |c.ip|
  {
    PrefixMask(c.ones, |c.ip|)
  }

  function NetworkIP(c: CIDR): (ip: IP)
    ensures |ip| == |c.ip|
  {
    And(c.ip, Mask(c))
  }

  function Broadcast(c: CIDR): (ip: IP)
    ensures |ip| == |c.ip|
  {
    OrNot(NetworkIP(c), Mask(c))
  }

  /** The network number and mask that Contains compares with: 4 bytes when that form exists. */
  function ShortNetwork(c: CIDR): (r: (IP, IP))
    ensures |r.0| == |r.1|
  {
    var ip := NetworkIP(c);
    if To4(ip) == [] then (ip, Mask(c))
    else (To4(ip), if |Mask(c)| == 16 then Mask(c)[12..] else Mask(c))
  }

  /** net.IPNet.Contains. */
  predicate Contains(c: CIDR, ip: IP16) {
    var (number, mask) := ShortNetwork(c);
    var short := if To4(ip) == [] then ip else To4(ip);
    |short| == |number| && And(number, mask) == And(short, mask)
  }

  // ---------------------------------------------------------------- validation

  datatype FieldError =
    | InvalidCidr
    | InvalidStart
    | StartNotInCidr
    | InvalidEnd
    | EndNotInCidr
    | WrongOrder
    | InvalidGateway
    | GatewayNotInCidr
    | InvalidNameserver(index: nat)
    | NameserverVersion(index: nat)
    | DuplicateNameserver(index: nat)

  function ShortLength(ip: IP16): nat {
    if To4(ip) == [] then 16 else 4
  }

  predicate OutsideCidr(spec: NetworkSpec, ip: Option<IP16>) {
    spec.cidr.Some? && ip.Some? && !Contains(spec.cidr.value, ip.value)
  }

  predicate HasTwin(nameservers: seq<Nameserver>, i: nat)
    requires i < |nameservers|
  {
    exists j :: 0 <= j < |nameservers| && j != i && nameservers[j].text == nameservers[i].text
  }

  predicate WrongVersion(spec: NetworkSpec, ns: Nameserver) {
    spec.cidr.Some? && ns.ip.Some? && |spec.cidr.value.ip| != ShortLength(ns.ip.value)
  }

  /** What each error says about a spec. */
  predicate Violates(spec: NetworkSpec, e: FieldError) {
    match e
    case InvalidCidr => spec.cidr.None?
    case InvalidStart => spec.start.None?
    case StartNotInCidr => OutsideCidr(spec, spec.start)
    case InvalidEnd => spec.end.None?
    case EndNotInCidr => OutsideCidr(spec, spec.end)
    case WrongOrder => spec.start.Some? && spec.end.Some? && Value(spec.start.value) >= Value(spec.end.value)
    case InvalidGateway => spec.gateway.None?
    case GatewayNotInCidr => OutsideCidr(spec, spec.gateway)
    case InvalidNameserver(i) => i < |spec.nameservers| && spec.nameservers[i].ip.None?
    case NameserverVersion(i) => i < |spec.nameservers| && WrongVersion(spec, spec.nameservers[i])
    case DuplicateNameserver(i) => i < |spec.nameservers| && HasTwin(spec.nameservers, i)
  }

  predicate Parsed(spec: NetworkSpec) {
    spec.cidr.Some? && spec.start.Some? && spec.end.Some? && spec.gateway.Some?
  }

  predicate EndsInCidr(spec: NetworkSpec)
    requires Parsed(spec)
  {
    Contains(spec.cidr.value, spec.start.value) && Contains(spec.cidr.value, spec.end.value)
  }

  ghost predicate Admissible(spec: NetworkSpec) {
    && Parsed(spec) && EndsInCidr(spec)
    && Contains(spec.cidr.value, spec.gateway.value)
    && Value(spec.start.value) < Value(spec.end.value)
    && (forall i :: 0 <= i < |spec.nameservers| ==>
          && spec.nameservers[i].ip.Some?
          && ShortLength(spec.nameservers[i].ip.value) == |spec.cidr.value.ip|)
    && (forall i, j :: 0 <= i < j < |spec.nameservers| ==> spec.nameservers[i].text != spec.nameservers[j].text)
  }

  class NetworkWebhook {

    /** The errors about one of the three addresses that have to lie in the CIDR. */
    method ValidateAddress(spec: NetworkSpec, ip: Option<IP16>, invalid: FieldError, outside: FieldError)
      returns (allErrs: seq<FieldError>)
      ensures forall e :: e in allErrs <==> (e == invalid && ip.None?) || (e == outside && OutsideCidr(spec, ip))
    {
      allErrs := [];
      if ip.None? {
        allErrs := allErrs + [invalid];
      } else if spec.cidr.Some? {
        if !Contains(spec.cidr.value, ip.value) {
          allErrs := allErrs + [outside];
        }
      }
    }

    method ValidateNameservers(spec: NetworkSpec) returns (allErrs: seq<FieldError>)
      ensures forall e :: e in allErrs <==>
                (e.InvalidNameserver? || e.NameserverVersion? || e.DuplicateNameserver?) && Violates(spec, e)
    {
      allErrs := [];
      for i := 0 to |spec.nameservers|
        invariant forall e :: e in allErrs <==>
                    (e.InvalidNameserver? || e.NameserverVersion? || e.DuplicateNameserver?)
                    && Violates(spec, e) && e.index < i
      {
        var ns := spec.nameservers[i];
        if ns.ip.None? {
          allErrs := allErrs + [InvalidNameserver(i)];
        } else {
          var nsIP: IP := ns.ip.value;
          var nsIP4 := To4(nsIP);
          if nsIP4 != [] {
            nsIP := nsIP4;
          }
          if spec.cidr.Some? {
            if |NetworkIP(spec.cidr.value)| != |nsIP| {
              allErrs := allErrs + [NameserverVersion(i)];
            }
          }
        }
        ghost var before := allErrs;
        for j := 0 to |spec.nameservers|
          invariant forall e :: e in allErrs <==>
                      e in before ||
                      (e == DuplicateNameserver(i) && exists k :: 0 <= k < j && k != i && spec.nameservers[k].text == ns.text)
        {
          if i == j {
            continue;
          }
          if ns.text == spec.nameservers[j].text {
            allErrs := allErrs + [DuplicateNameserver(i)];
          }
        }
      }
    }

    /** Every violation is reported, and nothing else. */
    method ValidateCreate(spec: NetworkSpec) returns (allErrs: seq<FieldError>)
      ensures forall e :: e in allErrs <==> Violates(spec, e)
      ensures allErrs == [] <==> Admissible(spec)
    {
      hide Contains, Value, ShortLength;
      allErrs := [];
      if spec.cidr.None? {
        allErrs := allErrs + [InvalidCidr];
      }
      var errs := ValidateAddress(spec, spec.start, InvalidStart, StartNotInCidr);
      allErrs := allErrs + errs;
      errs := ValidateAddress(spec, spec.end, InvalidEnd, EndNotInCidr);
      allErrs := allErrs + errs;
      if spec.start.Some? && spec.end.Some? {
        var order := Compare(spec.start.value, spec.end.value);
        LexIsNumeric(spec.end.value, spec.start.value);
        if order >= 0 {
          allErrs := allErrs + [WrongOrder];
        }
      }
      errs := ValidateAddress(spec, spec.gateway, InvalidGateway, GatewayNotInCidr);
      allErrs := allErrs + errs;
      errs := ValidateNameservers(spec);
      allErrs := allErrs + errs;
      NoViolationIsAdmissible(spec);
      assert allErrs != [] ==> allErrs[0] in allErrs;
    }

    /** The spec of a network never changes. */
    method ValidateUpdate(spec: NetworkSpec, was: NetworkSpec) returns (err: Outcome)
      ensures err.Pass? <==> spec == was
    {
      if spec != was {
        return Fail("Cannot change the spec");
      }
      return Pass;
    }
  }

  lemma NoViolationIsAdmissible(spec: NetworkSpec)
    ensures Admissible(spec) <==> forall e :: !Violates(spec, e)
  {
    hide Contains, Value, ShortLength;
    if Admissible(spec) {
      forall e ensures !Violates(spec, e) {
      }
    } else if forall e :: !Violates(spec, e) {
      assert !Violates(spec, InvalidCidr) && !Violates(spec, InvalidStart) && !Violates(spec, InvalidEnd);
      assert !Violates(spec, InvalidGateway) && !Violates(spec, GatewayNotInCidr);
      assert !Violates(spec, StartNotInCidr) && !Violates(spec, EndNotInCidr) && !Violates(spec, WrongOrder);
      forall i | 0 <= i < |spec.nameservers|
        ensures spec.nameservers[i].ip.Some? && ShortLength(spec.nameservers[i].ip.value) == |spec.cidr.value.ip|
      {
        assert !Violates(spec, InvalidNameserver(i)) && !Violates(spec, NameserverVersion(i));
      }
      forall i, j | 0 <= i < j < |spec.nameservers|
        ensures spec.nameservers[i].text != spec.nameservers[j].text
      {
        assert !Violates(spec, DuplicateNameserver(i));
      }
    }
  }

  // ---------------------------------------------------------------- what Contains means

  /** The address shares the prefix of the network, comparing forms of the network's length. */
  predicate InBlock(c: CIDR, ip: IP16) {
    if |c.ip| == 4 then IsV4Mapped(ip) && And(ip[12..], Mask(c)) == NetworkIP(c)
    else And(ip, Mask(c)) == NetworkIP(c)
  }

  /** The network has a 4-byte form. */
  predicate IsV4(c: CIDR) {
    To4(NetworkIP(c)) != []
  }

  lemma AndIdempotent(a: IP, m: IP)
    requires |a| == |m|
    ensures And(And(a, m), m) == And(a, m)
  {
    forall i | 0 <= i < |a| ensures And(And(a, m), m)[i] == And(a, m)[i] {
      BytesAt(a, a, m, i);
      BytesAt(And(a, m), a, m, i);
    }
  }

  lemma AndTail(a: IP, m: IP, k: nat)
    requires |a| == |m| && k <= |a|
    ensures And(a, m)[k..] == And(a[k..], m[k..]) && And(a, m)[..k] == And(a[..k], m[..k])
  {
  }

  lemma ContainsInMapped(c: CIDR, ip: IP16)
    requires |c.ip| == 16 && IsV4(c) && IsV4Mapped(ip)
    ensures Contains(c, ip) <==> InBlock(c, ip)
  {
    var m, n := Mask(c), NetworkIP(c);
    AndTail(c.ip, m, 12);
    AndTail(ip, m, 12);
    AndTail(n, m, 12);
    AndIdempotent(c.ip, m);
    AndIdempotent(c.ip[..12], m[..12]);
    assert And(ip, m) == And(ip, m)[..12] + And(ip, m)[12..];
    assert n == n[..12] + n[12..];
  }

  /** Contains says that the address is in the block and of the network's family. */
  lemma ContainsIsInBlock(c: CIDR, ip: IP16)
    ensures Contains(c, ip) <==> InBlock(c, ip) && (IsV4Mapped(ip) <==> IsV4(c))
  {
    AndIdempotent(c.ip, Mask(c));
    if |c.ip| == 16 && IsV4(c) && IsV4Mapped(ip) {
      ContainsInMapped(c, ip);
    }
  }

  /** An interval between two addresses with the same front holds exactly the addresses with
      that front whose rest is in the interval of the rests. */
  lemma {:induction false} CommonFront(p: IP, x: IP, y: IP, ip: IP)
    requires |x| == |y| && |ip| == |p| + |x|
    ensures LexLe(p + x, ip) && LexLe(ip, p + y) <==>
            ip[..|p|] == p && LexLe(x, ip[|p|..]) && LexLe(ip[|p|..], y)
  {
    if p == [] {
      assert p + x == x && p + y == y && ip[0..] == ip;
    } else {
      assert (p + x)[1..] == p[1..] + x && (p + y)[1..] == p[1..] + y;
      assert ip[1..][|p| - 1..] == ip[|p|..];
      assert ip[1..][..|p| - 1] == ip[..|p|][1..];
      EqualFromFirst(ip[..|p|], p);
      CommonFront(p[1..], x, y, ip[1..]);
    }
  }

  /** A block is exactly the interval from its network address to its broadcast address. */
  lemma BlockIsRange(c: CIDR, ip: IP16)
    ensures InBlock(c, ip) <==> Value(To16(NetworkIP(c))) <= Value(ip) <= Value(To16(Broadcast(c)))
  {
    LexIsNumeric(To16(NetworkIP(c)), ip);
    LexIsNumeric(ip, To16(Broadcast(c)));
    if |c.ip| == 4 {
      CommonFront(V4_IN_V6_PREFIX, NetworkIP(c), Broadcast(c), ip);
      BlockIsInterval(c.ip, ip[12..], c.ones);
    } else {
      BlockIsInterval(c.ip, ip, c.ones);
    }
  }

  /** Everything between start and end of an admitted network is in its block, and Contains says
      so unless an IPv6 range runs across the IPv4-mapped addresses. Of what is admitted it only
      takes that start and end are in the CIDR. */
  lemma RangeIsInCidr(spec: NetworkSpec, ip: IP16)
    requires Parsed(spec) && EndsInCidr(spec)
    requires Value(spec.start.value) <= Value(ip) <= Value(spec.end.value)
    ensures InBlock(spec.cidr.value, ip)
    ensures Contains(spec.cidr.value, ip) <==> (IsV4Mapped(ip) <==> IsV4(spec.cidr.value))
    ensures |spec.cidr.value.ip| == 4 ==> Contains(spec.cidr.value, ip)
  {
    var c := spec.cidr.value;
    ContainsIsInBlock(c, spec.start.value);
    ContainsIsInBlock(c, spec.end.value);
    ContainsIsInBlock(c, ip);
    BlockIsRange(c, spec.start.value);
    BlockIsRange(c, spec.end.value);
    BlockIsRange(c, ip);
  }
}
