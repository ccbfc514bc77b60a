// controllers/baremetalendpoint: Network gives an endpoint its address and takes it back,
// Controller starts its life and ends it.
module Endpoints {
  import opened Common
  import opened Addresses
  import opened Networks
  import opened Objects
  import opened Allocator
  import MacAddresses

  datatype EndpointPhase = NoEndpointPhase | EndpointPending | Addressing | Addressed | Deleting | Deleted

  datatype EndpointBond = EndpointBond(macs: seq<string>, mode: string)

  // The address an endpoint was given, with a copy of what its network says about it.
  datatype Address = Address(
    ip: IP16,
    cidr: Option<CIDR>,
    gateway: Option<IP16>,
    nameservers: seq<Nameserver>,
    search: seq<string>)

  datatype Endpoint = Endpoint(
    version: nat,
    deleting: bool,
    finalizers: set<Finalizer>,
    owners: set<nat>,
    instanceLabel: Option<string>,
    nicLabel: Option<string>,
    primary: bool,
    mac: string,
    bond: Option<EndpointBond>,
    networkRef: NetworkRef,
    phase: EndpointPhase,
    address: Option<Address>)

  const GROUP := "baremetal.com.rmb938"
  const NETWORK_KIND := "BareMetalNetwork"

  predicate Ours(ref: NetworkRef) {
    ref.group == GROUP && ref.kind == NETWORK_KIND
  }

  /** The value of the index spec.networkRef.group,kind,name. */
  function IndexValue(ref: NetworkRef): string {
    ref.group + "." + ref.kind + "." + ref.name
  }

  function AddressFrom(spec: NetworkSpec, ip: IP16): Address {
    Address(ip, spec.cidr, spec.gateway, spec.nameservers, spec.search)
  }

  // ---------------------------------------------------------------- the store

  // The endpoints and networks of the API server. A network is its spec, which never changes.
  datatype Registry = Registry(
    endpoints: map<Key, Endpoint>,
    networks: map<Key, NetworkSpec>,
    revision: nat)

  predicate FreshEndpoint(c: Registry, k: Key, read: Endpoint) {
    k in c.endpoints && c.endpoints[k].version == read.version
  }

  function PutEndpoint(c: Registry, k: Key, obj: Endpoint): Registry {
    var rev := c.revision + 1;
    if obj.deleting && obj.finalizers == {}
    then c.(endpoints := c.endpoints - {k}, revision := rev)
    else c.(endpoints := c.endpoints[k := obj.(version := rev)], revision := rev)
  }

  function WriteEndpoint(c: Registry, k: Key, obj: Endpoint): Registry {
    if FreshEndpoint(c, k, obj) then PutEndpoint(c, k, obj) else c
  }

  /** A create that the webhook lets through. */
  predicate Admits(obj: Endpoint) {
    && obj.address.None? && MacAddresses.Parses(obj.mac)
    && (obj.bond.Some? ==>
          var macs := obj.bond.value.macs;
          && (forall i :: 0 <= i < |macs| ==> MacAddresses.Parses(macs[i]))
          && (forall i, j :: 0 <= i < j < |macs| ==> macs[i] != macs[j]))
  }

  /** The store after a create, which the webhook may refuse. */
  function AddEndpoint(c: Registry, k: Key, obj: Endpoint): Registry {
    if k in c.endpoints || !Admits(obj) then c else PutEndpoint(c, k, obj)
  }

  function NetworkAt(c: Registry, k: Key): Option<NetworkSpec> {
    if k in c.networks then Some(c.networks[k]) else None
  }

  function EndpointAt(c: Registry, k: Key): Option<Endpoint> {
    if k in c.endpoints then Some(c.endpoints[k]) else None
  }

  function HeldIP(bme: Endpoint): Option<IP16> {
    if bme.address.Some? then Some(bme.address.value.ip) else None
  }

  /** names is what List returned for the index value: all endpoints of the network, in every namespace. */
  ghost predicate Listing(c: Registry, index: string, names: seq<Key>) {
    forall k :: k in names <==> k in c.endpoints && IndexValue(c.endpoints[k].networkRef) == index
  }

  /** The addresses of a listing. */
  function AddressesAt(c: Registry, names: seq<Key>): (r: Listed)
    requires forall k :: k in names ==> k in c.endpoints
    ensures |r| == |names|
    ensures forall i :: 0 <= i < |names| ==> r[i] == HeldIP(c.endpoints[names[i]])
  {
    seq(|names|, i requires 0 <= i < |names| => HeldIP(c.endpoints[names[i]]))
  }

  // ---------------------------------------------------------------- one pass

  datatype Effect =
    | NoEffect
    | NeedNetwork
    | UpdateEndpoint(bme: Endpoint)
    | FindAddress(spec: NetworkSpec)

  function NetworkKey(k: Key, bme: Endpoint): Key {
    Key(k.ns, bme.networkRef.name)
  }

  function DecideDeleting(bme: Endpoint, bmn: Option<NetworkSpec>): Effect {
    if bme.phase == Deleted then NoEffect
    else if bme.address.None? then UpdateEndpoint(bme.(phase := Deleted))
    else if bmn.Some? && bme.phase != Deleting then UpdateEndpoint(bme.(phase := Deleting))
    else UpdateEndpoint(bme.(address := None))
  }

  function DecideAddressing(bme: Endpoint, bmn: Option<NetworkSpec>): Effect {
    if bme.phase == Addressed then NoEffect
    else if bme.address.Some? then UpdateEndpoint(bme.(phase := Addressed))
    else if bmn.None? then NoEffect
    else if bme.phase == EndpointPending then UpdateEndpoint(bme.(phase := Addressing))
    else FindAddress(bmn.value)
  }

  /** One pass of Network; bmn answers the lookup of the network, once made. */
  function Decide(bme: Endpoint, bmn: Option<Option<NetworkSpec>>): Effect {
    if bme.phase == NoEndpointPhase || !Ours(bme.networkRef) then NoEffect
    else
      match bmn
      case None => NeedNetwork
      case Some(found) => if bme.deleting then DecideDeleting(bme, found) else DecideAddressing(bme, found)
  }

  /** One pass of Controller. */
  function DecideControl(bme: Endpoint): Effect {
    if bme.deleting then
      if bme.phase != Deleted then NoEffect
      else UpdateEndpoint(bme.(finalizers := bme.finalizers - {OwnFinalizer}))
    else if bme.phase == NoEndpointPhase then UpdateEndpoint(bme.(phase := EndpointPending))
    else NoEffect
  }

  /** What one uninterrupted pass of Network may do to the store. */
  ghost predicate Reconciled(c: Registry, k: Key, names: seq<Key>, c': Registry) {
    if k !in c.endpoints then c' == c
    else
      var bme := c.endpoints[k];
      match Decide(bme, Some(NetworkAt(c, NetworkKey(k, bme))))
      case UpdateEndpoint(obj) => c' == WriteEndpoint(c, k, obj)
      case FindAddress(spec) =>
        && spec.start.Some? && spec.end.Some? && (forall n :: n in names ==> n in c.endpoints)
        && exists next :: IsNext(spec, AddressesAt(c, names), next) && c' == WithAddress(c, k, bme, spec, next)
      case _ => c' == c
  }

  function WithAddress(c: Registry, k: Key, bme: Endpoint, spec: NetworkSpec, next: Option<IP16>): Registry {
    match next
    case None => c
    case Some(ip) => WriteEndpoint(c, k, bme.(address := Some(AddressFrom(spec, ip))))
  }

  function Controlled(c: Registry, k: Key): Registry {
    if k !in c.endpoints then c
    else
      match DecideControl(c.endpoints[k])
      case UpdateEndpoint(obj) => WriteEndpoint(c, k, obj)
      case _ => c
  }

  class EndpointServer {
    var endpoints: map<Key, Endpoint>
    var networks: map<Key, NetworkSpec>
    var revision: nat

    ghost function View(): Registry
      reads this
    {
      Registry(endpoints, networks, revision)
    }

    constructor ()
      ensures View() == Registry(map[], map[], 0)
    {
      endpoints, networks, revision := map[], map[], 0;
    }

    method GetEndpoint(k: Key) returns (obj: Option<Endpoint>)
      ensures obj == EndpointAt(View(), k)
    {
      return if k in endpoints then Some(endpoints[k]) else None;
    }

    method GetNetwork(k: Key) returns (obj: Option<NetworkSpec>)
      ensures obj == NetworkAt(View(), k)
    {
      return if k in networks then Some(networks[k]) else None;
    }

    /** List with the labels of an instance and, optionally, of one of its NICs. */
    method ListByLabels(instance: string, nic: Option<string>) returns (names: seq<Key>)
      ensures forall i, j :: 0 <= i < j < |names| ==> names[i] != names[j]
      ensures forall k :: k in names <==>
                k in endpoints && endpoints[k].instanceLabel == Some(instance) && (nic.Some? ==> endpoints[k].nicLabel == nic)
    {
      names := [];
      var rest := endpoints.Keys;
      while rest != {}
        invariant rest <= endpoints.Keys
        invariant forall i, j :: 0 <= i < j < |names| ==> names[i] != names[j]
        invariant forall k :: k in names <==>
                    k in endpoints.Keys - rest && endpoints[k].instanceLabel == Some(instance)
                    && (nic.Some? ==> endpoints[k].nicLabel == nic)
        decreases rest
      {
        var k :| k in rest;
        rest := rest - {k};
        if endpoints[k].instanceLabel == Some(instance) && (nic == None || endpoints[k].nicLabel == nic) {
          names := names + [k];
        }
      }
    }

    method CreateEndpoint(k: Key, obj: Endpoint) returns (err: Outcome)
      requires !obj.deleting
      modifies this
      ensures err.Fail? <==> k in old(endpoints) || !Admits(obj)
      ensures View() == AddEndpoint(old(View()), k, obj)
    {
      if !Admits(obj) {
        return Fail("denied");
      }
      if k in endpoints {
        return Fail("already exists");
      }
      revision := revision + 1;
      endpoints := endpoints[k := obj.(version := revision)];
      return Pass;
    }

    method UpdateEndpoint(k: Key, obj: Endpoint) returns (err: Outcome)
      modifies this
      ensures err.Fail? <==> !FreshEndpoint(old(View()), k, obj)
      ensures View() == WriteEndpoint(old(View()), k, obj)
    {
      if k !in endpoints || endpoints[k].version != obj.version {
        return Fail("conflict");
      }
      revision := revision + 1;
      if obj.deleting && obj.finalizers == {} {
        endpoints := endpoints - {k};
      } else {
        endpoints := endpoints[k := obj.(version := revision)];
      }
      return Pass;
    }
  }

  class Network {

    method ListAddresses(api: EndpointServer, names: seq<Key>) returns (listed: Listed)
      requires forall n :: n in names ==> n in api.endpoints
      ensures listed == AddressesAt(api.View(), names)
    {
      listed := [];
      for i := 0 to |names|
        invariant listed == AddressesAt(api.View(), names)[..i]
      {
        var bme := api.endpoints[names[i]];
        listed := listed + [HeldIP(bme)];
      }
    }

    method Reconcile(api: EndpointServer, k: Key, names: seq<Key>) returns (err: Outcome)
      requires k in api.endpoints ==> Listing(api.View(), IndexValue(api.endpoints[k].networkRef), names)
      requires forall n :: n in api.networks ==>
                 Admissible(api.networks[n]) && 3 + |api.networks[n].nameservers| + |names| < Pow256(16)
      modifies api
      ensures Reconciled(old(api.View()), k, names, api.View())
    {
      hide Contains, Value, Pow256, IsNext;
      err := Pass;
      var fetched := api.GetEndpoint(k);
      if fetched == None {
        return;
      }
      var bme := fetched.value;
      if bme.phase == NoEndpointPhase {
        return;
      }
      if bme.networkRef.group != GROUP {
        return;
      }
      if bme.networkRef.kind != NETWORK_KIND {
        return;
      }
      var bmn := api.GetNetwork(Key(k.ns, bme.networkRef.name));
      if bme.deleting {
        if bme.phase == Deleted {
          return;
        }
        if bme.address == None {
          bme := bme.(phase := Deleted);
          err := api.UpdateEndpoint(k, bme);
          return;
        }
        if bmn != None {
          if bme.phase != Deleting {
            bme := bme.(phase := Deleting);
            err := api.UpdateEndpoint(k, bme);
            return;
          }
        }
        bme := bme.(address := None);
        err := api.UpdateEndpoint(k, bme);
        return;
      }
      if bme.phase == Addressed {
        return;
      }
      if bme.address != None {
        bme := bme.(phase := Addressed);
        err := api.UpdateEndpoint(k, bme);
        return;
      }
      if bmn == None {
        return;
      }
      if bme.phase == EndpointPending {
        bme := bme.(phase := Addressing);
        err := api.UpdateEndpoint(k, bme);
        return;
      }
      err := Assign(api, k, bme, bmn.value, names);
    }

    /** The part under the address lock. */
    method Assign(api: EndpointServer, k: Key, fetched: Endpoint, spec: NetworkSpec, names: seq<Key>)
      returns (err: Outcome)
      requires Admissible(spec) && 3 + |spec.nameservers| + |names| < Pow256(16)
      requires forall n :: n in names ==> n in api.endpoints
      modifies api
      ensures exists next :: IsNext(spec, AddressesAt(old(api.View()), names), next) &&
                             api.View() == WithAddress(old(api.View()), k, fetched, spec, next)
    {
      hide IsNext, Pow256;
      var bme := fetched;
      err := Pass;
      var listed := ListAddresses(api, names);
      var nextIP := FindNext(spec, listed);
      if nextIP != None {
        bme := bme.(address := Some(AddressFrom(spec, nextIP.value)));
        err := api.UpdateEndpoint(k, bme);
      }
    }
  }

  class Controller {

    method Reconcile(api: EndpointServer, k: Key) returns (err: Outcome)
      modifies api
      ensures api.View() == Controlled(old(api.View()), k)
    {
      err := Pass;
      var fetched := api.GetEndpoint(k);
      if fetched == None {
        return;
      }
      var bme := fetched.value;
      if bme.deleting {
        if bme.phase != Deleted {
          return;
        }
        bme := bme.(finalizers := bme.finalizers - {OwnFinalizer});
        err := api.UpdateEndpoint(k, bme);
        return;
      }
      if bme.phase == NoEndpointPhase {
        bme := bme.(phase := EndpointPending);
        err := api.UpdateEndpoint(k, bme);
      }
    }
  }
}
