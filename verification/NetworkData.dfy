// controllers/baremetalinstance/provisioner.go: the network data an image is given, made of the
// endpoints of the instance.
module NetworkData {
  import opened Common
  import opened Addresses
  import opened Networks
  import opened Objects
  import opened Endpoints
  import opened HardwareWebhook

  datatype Link =
    | Phy(id: string, mac: string)
    | BondLink(id: string, mac: string, bondMode: string, bondMiiMon: nat, bondLinks: seq<string>)

  const BOND_MII_MON := 100

  // The network of a link. Only the primary one carries gateway, nameservers and search domains.
  datatype Net = Net(
    link: string,
    ipv6: bool,
    ip: IP16,
    netmask: IP,
    gateway: Option<IP16>,
    nameservers: seq<Nameserver>,
    search: seq<string>)

  datatype Data = Data(links: seq<Link>, networks: seq<Net>)

  function Decimal(n: nat): string {
    if n < 10 then ["0123456789"[n]] else Decimal(n / 10) + ["0123456789"[n % 10]]
  }

  function BondLinkName(link: string, i: nat): string {
    link + "-bond-" + Decimal(i)
  }

  /** The endpoint belongs to the instance and says for which NIC. */
  predicate Relevant(bme: Endpoint, uid: nat) {
    uid in bme.owners && bme.nicLabel.Some?
  }

  /** The endpoint has an address whose CIDR parses. */
  predicate HasAddress(bme: Endpoint) {
    bme.address.Some? && bme.address.value.cidr.Some?
  }

  function BondNames(link: string, n: nat): (r: seq<string>)
    ensures |r| == n && forall i :: 0 <= i < n ==> r[i] == BondLinkName(link, i)
  {
    seq(n, i requires 0 <= i < n => BondLinkName(link, i))
  }

  function BondPhys(link: string, macs: seq<string>): (r: seq<Link>)
    ensures |r| == |macs| && forall i :: 0 <= i < |macs| ==> r[i] == Phy(BondLinkName(link, i), macs[i])
  {
    seq(|macs|, i requires 0 <= i < |macs| => Phy(BondLinkName(link, i), macs[i]))
  }

  function LinksOf(bme: Endpoint): seq<Link>
    requires bme.nicLabel.Some?
  {
    var link := bme.nicLabel.value;
    match bme.bond
    case None => [Phy(link, bme.mac)]
    case Some(bond) =>
      BondPhys(link, bond.macs) + [BondLink(link, bme.mac, bond.mode, BOND_MII_MON, BondNames(link, |bond.macs|))]
  }

  function NetOf(bme: Endpoint): Net
    requires bme.nicLabel.Some? && HasAddress(bme)
  {
    var a := bme.address.value;
    var cidr := a.cidr.value;
    Net(bme.nicLabel.value, !IsV4(cidr), a.ip, Mask(cidr),
        if bme.primary then a.gateway else None,
        if bme.primary then a.nameservers else [],
        if bme.primary then a.search else [])
  }

  /** The data for a listing, or None when an endpoint of the instance has no usable address. */
  function DataOf(list: seq<Endpoint>, uid: nat): Option<Data> {
    if list == [] then Some(Data([], []))
    else
      var bme := list[|list| - 1];
      match DataOf(list[..|list| - 1], uid)
      case None => None
      case Some(d) =>
        if !Relevant(bme, uid) then Some(d)
        else if !HasAddress(bme) then None
        else Some(Data(d.links + LinksOf(bme), d.networks + [NetOf(bme)]))
  }

  /** The links of one endpoint: those of its bond first, then its own. */
  method AddLinks(bme: Endpoint, links: seq<Link>) returns (networkLinks: seq<Link>)
    requires bme.nicLabel.Some?
    ensures networkLinks == links + LinksOf(bme)
  {
    networkLinks := links;
    var linkName := bme.nicLabel.value;
    if bme.bond != None {
      var bondLinks: seq<string> := [];
      for i := 0 to |bme.bond.value.macs|
        invariant bondLinks == BondNames(linkName, i)
        invariant networkLinks == links + BondPhys(linkName, bme.bond.value.macs)[..i]
      {
        var bondLinkName := BondLinkName(linkName, i);
        bondLinks := bondLinks + [bondLinkName];
        networkLinks := networkLinks + [Phy(bondLinkName, bme.bond.value.macs[i])];
      }
      networkLinks := networkLinks + [BondLink(linkName, bme.mac, bme.bond.value.mode, BOND_MII_MON, bondLinks)];
    } else {
      networkLinks := networkLinks + [Phy(linkName, bme.mac)];
    }
  }

  /** The loop over the listed endpoints; an endpoint without an address makes it panic. */
  method BuildNetworkData(list: seq<Endpoint>, uid: nat) returns (data: Option<Data>)
    ensures data == DataOf(list, uid)
  {
    hide LinksOf, NetOf, IsV4, Mask;
    var networkLinks: seq<Link> := [];
    var networks: seq<Net> := [];
    for n := 0 to |list|
      invariant DataOf(list[..n], uid) == Some(Data(networkLinks, networks))
    {
      var bme := list[n];
      assert list[..n + 1][..n] == list[..n];
      var ownedByUs := uid in bme.owners;
      if ownedByUs {
        if bme.nicLabel == None {
          continue;
        }
        if bme.address == None || bme.address.value.cidr == None {
          NoneStays(list, uid, n + 1);
          return None;
        }
        networkLinks := AddLinks(bme, networkLinks);
        networks := networks + [NetOf(bme)];
      }
    }
    assert list[..|list|] == list;
    return Some(Data(networkLinks, networks));
  }

  lemma {:induction false} NoneStays(list: seq<Endpoint>, uid: nat, n: nat)
    requires n <= |list| && DataOf(list[..n], uid) == None
    ensures DataOf(list, uid) == None
    decreases |list|
  {
    if n == |list| {
      assert list[..n] == list;
    } else {
      assert list[..|list| - 1][..n] == list[..n];
      NoneStays(list[..|list| - 1], uid, n);
    }
  }

  /** No data is made exactly when some endpoint of the instance has no usable address. */
  lemma {:induction false} NoDataIff(list: seq<Endpoint>, uid: nat)
    ensures DataOf(list, uid).None? <==> exists i :: 0 <= i < |list| && Relevant(list[i], uid) && !HasAddress(list[i])
  {
    if list != [] {
      NoDataIff(list[..|list| - 1], uid);
    }
  }

  // ---------------------------------------------------------------- every name resolves

  ghost predicate HasLink(links: seq<Link>, id: string) {
    exists i :: 0 <= i < |links| && links[i].id == id
  }

  ghost predicate HasPhy(links: seq<Link>, id: string) {
    exists i :: 0 <= i < |links| && links[i].Phy? && links[i].id == id
  }

  ghost predicate Resolves(d: Data) {
    && (forall n :: 0 <= n < |d.networks| ==> HasLink(d.links, d.networks[n].link))
    && (forall l, b :: 0 <= l < |d.links| && d.links[l].BondLink? && 0 <= b < |d.links[l].bondLinks| ==>
          HasPhy(d.links, d.links[l].bondLinks[b]))
  }

  lemma LinksOfResolve(bme: Endpoint, n: Net, before: Data)
    requires bme.nicLabel == Some(n.link) && Resolves(before)
    ensures Resolves(Data(before.links + LinksOf(bme), before.networks + [n]))
  {
    var own := LinksOf(bme);
    var links := before.links + own;
    assert own[|own| - 1].id == n.link && links[|links| - 1].id == n.link;
    forall k | 0 <= k < |before.networks| ensures HasLink(links, before.networks[k].link) {
      assert HasLink(before.links, before.networks[k].link);
      var i :| 0 <= i < |before.links| && before.links[i].id == before.networks[k].link;
      assert links[i].id == before.networks[k].link;
    }
    forall l, b | 0 <= l < |links| && links[l].BondLink? && 0 <= b < |links[l].bondLinks|
      ensures HasPhy(links, links[l].bondLinks[b])
    {
      if l < |before.links| {
        assert links[l] == before.links[l];
        assert HasPhy(before.links, before.links[l].bondLinks[b]);
        var i :| 0 <= i < |before.links| && before.links[i].Phy? && before.links[i].id == links[l].bondLinks[b];
        assert links[i].Phy? && links[i].id == links[l].bondLinks[b];
      } else {
        assert links[l] == own[l - |before.links|];
        assert links[|before.links| + b] == own[b];
      }
    }
  }

  /** Every network names a link of the data, and every member of a bond is one of its links. */
  lemma {:induction false} LinksResolve(list: seq<Endpoint>, uid: nat)
    requires DataOf(list, uid).Some?
    ensures Resolves(DataOf(list, uid).value)
  {
    if list != [] {
      var bme := list[|list| - 1];
      var rest := list[..|list| - 1];
      LinksResolve(rest, uid);
      if Relevant(bme, uid) {
        LinksOfResolve(bme, NetOf(bme), DataOf(rest, uid).value);
      }
    }
  }

  // ---------------------------------------------------------------- one primary network

  /** The endpoints of the instance in a listing, in order. */
  function Ours(list: seq<Endpoint>, uid: nat): seq<Endpoint> {
    Filter(list, bme => Relevant(bme, uid))
  }

  lemma OursGrows(rest: seq<Endpoint>, bme: Endpoint, uid: nat)
    ensures Ours(rest + [bme], uid) == Ours(rest, uid) + if Relevant(bme, uid) then [bme] else []
  {
    FilterConcat(rest, [bme], e => Relevant(e, uid));
  }

  /** The data has one network for each endpoint of the instance. */
  lemma {:induction false} NetworksOfOurs(list: seq<Endpoint>, uid: nat)
    requires DataOf(list, uid).Some?
    ensures var ours := Ours(list, uid);
            var nets := DataOf(list, uid).value.networks;
            && |nets| == |ours|
            && forall i :: 0 <= i < |nets| ==> Relevant(ours[i], uid) && HasAddress(ours[i]) && nets[i] == NetOf(ours[i])
  {
    if list == [] {
    } else {
      hide NetOf, LinksOf, Ours;
      var bme := list[|list| - 1];
      var rest := list[..|list| - 1];
      assert list == rest + [bme];
      OursGrows(rest, bme, uid);
      NetworksOfOurs(rest, uid);
    }
  }

  ghost predicate SomeEndpoint(ours: seq<Endpoint>, nic: NIC) {
    exists e :: 0 <= e < |ours| && ours[e].nicLabel == Some(nic.name)
  }

  ghost predicate SomeNic(nics: seq<NIC>, bme: Endpoint) {
    exists n :: 0 <= n < |nics| && bme.nicLabel == Some(nics[n].name) && bme.primary == nics[n].primary
  }

  /** The endpoints are those made for the NICs: one for each, with the NIC's primary flag. */
  ghost predicate OnePerNic(ours: seq<Endpoint>, nics: seq<NIC>) {
    && (forall n :: 0 <= n < |nics| ==> SomeEndpoint(ours, nics[n]))
    && (forall e, f :: 0 <= e < f < |ours| ==> ours[e].nicLabel != ours[f].nicLabel)
    && (forall e :: 0 <= e < |ours| ==> SomeNic(nics, ours[e]))
  }

  lemma NicOf(nics: seq<NIC>, bme: Endpoint) returns (n: nat)
    requires SomeNic(nics, bme)
    ensures n < |nics| && bme.nicLabel == Some(nics[n].name) && bme.primary == nics[n].primary
  {
    n :| 0 <= n < |nics| && bme.nicLabel == Some(nics[n].name) && bme.primary == nics[n].primary;
  }

  lemma EndpointOf(ours: seq<Endpoint>, nic: NIC) returns (e: nat)
    requires SomeEndpoint(ours, nic)
    ensures e < |ours| && ours[e].nicLabel == Some(nic.name)
  {
    e :| 0 <= e < |ours| && ours[e].nicLabel == Some(nic.name);
  }

  lemma OnePrimaryEndpoint(ours: seq<Endpoint>, nics: seq<NIC>) returns (p: nat)
    requires NicsAllowed(nics) && nics != [] && OnePerNic(ours, nics)
    ensures p < |ours| && forall i :: 0 <= i < |ours| ==> (ours[i].primary <==> i == p)
  {
    hide SomeEndpoint, SomeNic;
    var q :| 0 <= q < |nics| && OnlyPrimary(nics, q);
    p := EndpointOf(ours, nics[q]);
    forall i | 0 <= i < |ours| ensures ours[i].primary <==> i == p {
      var n := NicOf(nics, ours[i]);
      if i == p {
        assert n == q;
      }
    }
  }

  /** The only network with a gateway. */
  ghost predicate OnlyGateway(nets: seq<Net>, p: nat) {
    p < |nets| && forall i :: 0 <= i < |nets| ==> (nets[i].gateway.Some? <==> i == p)
  }

  /** On an admitted, non-empty NIC list, exactly one network of the data carries a gateway. */
  lemma OnePrimaryNetwork(list: seq<Endpoint>, uid: nat, nics: seq<NIC>)
    requires DataOf(list, uid).Some?
    requires NicsAllowed(nics) && nics != [] && OnePerNic(Ours(list, uid), nics)
    requires forall e :: e in Ours(list, uid) && e.address.Some? ==> e.address.value.gateway.Some?
    ensures exists p :: OnlyGateway(DataOf(list, uid).value.networks, p)
  {
    NetworksOfOurs(list, uid);
    var p := OnePrimaryEndpoint(Ours(list, uid), nics);
    hide DataOf, Ours, IsV4, Mask, NicsAllowed, OnePerNic;
    var ours := Ours(list, uid);
    assert forall i :: 0 <= i < |ours| ==> ours[i] in ours;
    assert OnlyGateway(DataOf(list, uid).value.networks, p);
  }
}
