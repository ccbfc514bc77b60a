// The invariant of EndpointRuns, and the two ways a step touches the endpoints: it changes stored
// ones, or adds one. Each part of it talks about one endpoint, two endpoints, or one run, so that a
// step only has to look at the parts it touches, and the rest follows from lemmas about a put into
// the store.
module EndpointInvariant {
  import opened Common
  import opened Networks
  import opened Objects
  import opened Allocator
  import opened Endpoints
  import opened EndpointRuns

  // ---------------------------------------------------------------- endpoints

  /** What an address says about its network does not name the address itself. */
  predicate AddressOk(a: Address) {
    var spec := NetworkSpec(a.cidr, None, None, a.gateway, a.nameservers, a.search);
    a.cidr.Some? && a.gateway.Some? && !IsSpecial(spec, a.ip) && !IsNameserver(spec, a.ip)
  }

  predicate OwnersOk(home: map<nat, Key>, bme: Endpoint) {
    forall uid :: uid in bme.owners ==> uid in home && bme.instanceLabel == Some(home[uid].name)
  }

  predicate EndpointOk(c: Registry, home: map<nat, Key>, bme: Endpoint) {
    && bme.version <= c.revision
    && (bme.phase == Addressed && bme.address.None? ==> bme.deleting)
    && (bme.address.Some? ==> bme.phase != NoEndpointPhase && Ours(bme.networkRef) && AddressOk(bme.address.value))
    && (OwnFinalizer !in bme.finalizers ==> bme.deleting && bme.phase == Deleted)
    && (bme.phase == Deleted ==> bme.deleting && bme.address.None?)
    && OwnersOk(home, bme)
  }

  /** Two endpoints of one network do not hold the same address. */
  predicate NoClash(a: Endpoint, b: Endpoint) {
    a.networkRef == b.networkRef && a.address.Some? && b.address.Some? ==> a.address.value.ip != b.address.value.ip
  }

  /** Two endpoints were not made for one NIC of one instance. */
  predicate NotTwins(a: Endpoint, b: Endpoint) {
    forall uid :: uid in a.owners && uid in b.owners ==> a.nicLabel != b.nicLabel
  }

  ghost predicate EndpointsOk(c: Registry, home: map<nat, Key>) {
    forall k :: k in c.endpoints ==> EndpointOk(c, home, c.endpoints[k])
  }

  ghost predicate NoClashes(c: Registry) {
    forall k, j :: k in c.endpoints && j in c.endpoints && k != j ==> NoClash(c.endpoints[k], c.endpoints[j])
  }

  ghost predicate NoTwins(c: Registry) {
    forall k, j :: k in c.endpoints && j in c.endpoints && k != j ==> NotTwins(c.endpoints[k], c.endpoints[j])
  }

  ghost predicate NetworksOk(c: Registry) {
    forall k :: k in c.networks ==> Admissible(c.networks[k])
  }

  ghost predicate InstancesOk(s: State) {
    forall k :: k in s.instances ==> s.instances[k] in s.home && s.home[s.instances[k]] == k
  }

  // ---------------------------------------------------------------- runs

  predicate ReadOk(c: Registry, k: Key, read: Endpoint) {
    read.version <= c.revision && (FreshEndpoint(c, k, read) ==> c.endpoints[k] == read)
  }

  predicate IsListed(listed: Listed, bme: Endpoint) {
    bme.address.Some? ==> exists i :: 0 <= i < |listed| && listed[i] == Some(bme.address.value.ip)
  }

  /** Nobody but k got an address since k listed them. */
  ghost predicate ListingOk(c: Registry, k: Key, r: NetworkRun) {
    r.listed.Some? ==>
      forall j :: j in c.endpoints && j != k && c.endpoints[j].networkRef == r.bme.networkRef ==>
        IsListed(r.listed.value, c.endpoints[j])
  }

  ghost predicate NetworkRunOk(c: Registry, lock: Option<Key>, k: Key, r: NetworkRun) {
    && ReadOk(c, k, r.bme)
    && (r.bmn.Some? && r.bmn.value.Some? ==> Admissible(r.bmn.value.value))
    && (r.listed.Some? ==> lock == Some(k))
    && ListingOk(c, k, r)
  }

  predicate StillAddressed(bme: Endpoint) {
    bme.phase == Addressed || bme.deleting
  }

  predicate MadeForNic(bme: Endpoint, uid: nat, nic: NIC) {
    uid in bme.owners && bme.nicLabel == Some(nic.name)
  }

  /** The only endpoint there can be for a NIC already passed is the one seen addressed. */
  ghost predicate SeenOk(c: Registry, r: NicRun) {
    forall i, k :: 0 <= i < |r.seen| && i < |r.nics| && k in c.endpoints && MadeForNic(c.endpoints[k], r.uid, r.nics[i]) ==>
      k == r.seen[i] && StillAddressed(c.endpoints[k])
  }

  /** The only endpoints there can be for the NIC being looked at are the listed ones. */
  ghost predicate LookedOk(c: Registry, r: NicRun) {
    r.listed.Some? ==>
      && |r.seen| < |r.nics|
      && (forall a, b :: a in r.listed.value && b in r.listed.value ==> a == b)
      && forall k :: k in c.endpoints && MadeForNic(c.endpoints[k], r.uid, r.nics[|r.seen|]) ==>
           k in r.listed.value && (r.listed.value[k].phase == Addressed ==> StillAddressed(c.endpoints[k]))
  }

  ghost predicate NicRunOk(c: Registry, home: map<nat, Key>, k: Key, r: NicRun) {
    && r.uid in home && home[r.uid] == k
    && |r.seen| <= |r.nics|
    && SeenOk(c, r)
    && LookedOk(c, r)
  }

  ghost predicate NetworkRunsOk(s: State) {
    forall k :: k in s.networkRuns ==> NetworkRunOk(s.api, s.lock, k, s.networkRuns[k])
  }

  ghost predicate ControlRunsOk(s: State) {
    forall k :: k in s.controlRuns ==> ReadOk(s.api, k, s.controlRuns[k])
  }

  ghost predicate NicRunsOk(s: State) {
    forall k :: k in s.nicRuns ==> NicRunOk(s.api, s.home, k, s.nicRuns[k])
  }

  ghost predicate Inv(s: State) {
    && EndpointsOk(s.api, s.home) && NoClashes(s.api) && NoTwins(s.api) && NetworksOk(s.api) && InstancesOk(s)
    && NetworkRunsOk(s) && ControlRunsOk(s) && NicRunsOk(s)
  }

  lemma InitInv()
    ensures Inv(INIT)
  {
  }

  // ---------------------------------------------------------------- changing a stored endpoint

  /** What every write of a stored endpoint keeps. */
  predicate Kept(a: Endpoint, b: Endpoint) {
    && b.owners == a.owners && b.instanceLabel == a.instanceLabel && b.nicLabel == a.nicLabel
    && b.networkRef == a.networkRef
    && (a.deleting ==> b.deleting)
    && (StillAddressed(a) ==> StillAddressed(b))
  }

  predicate SameOrNoAddress(a: Endpoint, b: Endpoint) {
    b.address == a.address || b.address.None?
  }

  /** The written object could be stored for the one it was made from. */
  predicate GoodWrite(c: Registry, k: Key, obj: Endpoint) {
    && k in c.endpoints && Kept(c.endpoints[k], obj)
    && (obj.phase == Addressed && obj.address.None? ==> obj.deleting)
    && (obj.address.Some? ==> obj.phase != NoEndpointPhase && Ours(obj.networkRef) && AddressOk(obj.address.value))
    && (OwnFinalizer !in obj.finalizers ==> obj.deleting && obj.phase == Deleted)
    && (obj.phase == Deleted ==> obj.deleting && obj.address.None?)
  }

  lemma PutKeepsEndpoints(c: Registry, home: map<nat, Key>, k: Key, obj: Endpoint)
    requires EndpointsOk(c, home) && NoTwins(c) && GoodWrite(c, k, obj)
    ensures EndpointsOk(PutEndpoint(c, k, obj), home) && NoTwins(PutEndpoint(c, k, obj))
  {
    hide Ours, AddressOk;
    var c' := PutEndpoint(c, k, obj);
    assert EndpointOk(c, home, c.endpoints[k]);
    forall j | j in c'.endpoints ensures EndpointOk(c', home, c'.endpoints[j]) {
      assert j in c.endpoints && EndpointOk(c, home, c.endpoints[j]);
    }
    forall i, j | i in c'.endpoints && j in c'.endpoints && i != j ensures NotTwins(c'.endpoints[i], c'.endpoints[j]) {
      assert NotTwins(c.endpoints[i], c.endpoints[j]);
    }
  }

  lemma PutKeepsNoClashes(c: Registry, k: Key, obj: Endpoint)
    requires NoClashes(c) && k in c.endpoints && obj.networkRef == c.endpoints[k].networkRef
    requires SameOrNoAddress(c.endpoints[k], obj)
    ensures NoClashes(PutEndpoint(c, k, obj))
  {
    var c' := PutEndpoint(c, k, obj);
    forall i, j | i in c'.endpoints && j in c'.endpoints && i != j ensures NoClash(c'.endpoints[i], c'.endpoints[j]) {
      assert NoClash(c.endpoints[i], c.endpoints[j]);
    }
  }

  lemma PutKeepsRead(c: Registry, k: Key, obj: Endpoint, j: Key, read: Endpoint)
    requires ReadOk(c, j, read)
    ensures ReadOk(PutEndpoint(c, k, obj), j, read)
  {
  }

  /** A put of k leaves the listing of another pass right unless it brings an address. */
  lemma PutKeepsListing(c: Registry, k: Key, obj: Endpoint, j: Key, r: NetworkRun)
    requires ListingOk(c, j, r)
    requires obj.address.Some? ==>
               k in c.endpoints && obj.networkRef == c.endpoints[k].networkRef && obj.address == c.endpoints[k].address
    ensures ListingOk(PutEndpoint(c, k, obj), j, r)
  {
    var c' := PutEndpoint(c, k, obj);
    if r.listed.Some? {
      forall i | i in c'.endpoints && i != j && c'.endpoints[i].networkRef == r.bme.networkRef
        ensures IsListed(r.listed.value, c'.endpoints[i])
      {
        if i in c.endpoints && c.endpoints[i].networkRef == r.bme.networkRef {
          assert IsListed(r.listed.value, c.endpoints[i]);
        }
      }
    }
  }

  lemma PutKeepsNicRun(c: Registry, home: map<nat, Key>, k: Key, obj: Endpoint, j: Key, r: NicRun)
    requires NicRunOk(c, home, j, r)
    requires k in c.endpoints && Kept(c.endpoints[k], obj)
    ensures NicRunOk(PutEndpoint(c, k, obj), home, j, r)
  {
  }

  /** A new endpoint that is not made for an instance, or by the pass of that instance. */
  lemma NewKeepsNicRun(c: Registry, home: map<nat, Key>, k: Key, obj: Endpoint, j: Key, r: NicRun)
    requires NicRunOk(c, home, j, r) && k !in c.endpoints
    requires r.uid !in obj.owners
    ensures NicRunOk(PutEndpoint(c, k, obj), home, j, r)
  {
  }

  lemma NewKeepsEndpoints(c: Registry, home: map<nat, Key>, k: Key, obj: Endpoint)
    requires EndpointsOk(c, home) && NoTwins(c) && NoClashes(c) && k !in c.endpoints
    requires NewlyCreated(obj) && OwnersOk(home, obj)
    requires forall j :: j in c.endpoints ==> NotTwins(c.endpoints[j], obj)
    ensures EndpointsOk(PutEndpoint(c, k, obj), home)
    ensures NoTwins(PutEndpoint(c, k, obj)) && NoClashes(PutEndpoint(c, k, obj))
  {
    hide Ours, AddressOk;
    var c' := PutEndpoint(c, k, obj);
    forall j | j in c'.endpoints ensures EndpointOk(c', home, c'.endpoints[j]) {
      assert j != k ==> EndpointOk(c, home, c.endpoints[j]);
    }
    forall i, j | i in c'.endpoints && j in c'.endpoints && i != j
      ensures NotTwins(c'.endpoints[i], c'.endpoints[j]) && NoClash(c'.endpoints[i], c'.endpoints[j])
    {
      if i != k && j != k {
        assert NotTwins(c.endpoints[i], c.endpoints[j]) && NoClash(c.endpoints[i], c.endpoints[j]);
      } else if i == k {
        assert NotTwins(c.endpoints[j], obj);
      } else {
        assert NotTwins(c.endpoints[i], obj);
      }
    }
  }
}
