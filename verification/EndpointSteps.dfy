// Every step of EndpointRuns keeps its invariant. What a step writes is good when it keeps what the
// stored endpoint promises; an address may be added under the lock, because the listing that was
// made under it is still complete; and an endpoint may be added for a NIC, because the pass that
// adds it holds a listing without one.
module EndpointSteps {
  import opened Common
  import Addresses
  import opened Networks
  import opened Allocator
  import opened Endpoints
  import opened Networking
  import opened EndpointRuns
  import opened EndpointInvariant

  // ---------------------------------------------------------------- the two kinds of change

  /** Storing an object that brings no address keeps the invariant, whatever run wrote it. */
  lemma PutKeepsInv(s: State, k: Key, obj: Endpoint)
    requires Inv(s) && GoodWrite(s.api, k, obj) && SameOrNoAddress(s.api.endpoints[k], obj)
    ensures Inv(s.(api := PutEndpoint(s.api, k, obj)))
  {
    hide EndpointOk, NotTwins, NoClash, ReadOk, ListingOk, NicRunOk, Ours, AddressOk, Admissible;
    var s' := s.(api := PutEndpoint(s.api, k, obj));
    PutKeepsEndpoints(s.api, s.home, k, obj);
    PutKeepsNoClashes(s.api, k, obj);
    forall j | j in s'.networkRuns ensures NetworkRunOk(s'.api, s'.lock, j, s'.networkRuns[j]) {
      assert NetworkRunOk(s.api, s.lock, j, s.networkRuns[j]);
      PutKeepsRead(s.api, k, obj, j, s.networkRuns[j].bme);
      PutKeepsListing(s.api, k, obj, j, s.networkRuns[j]);
    }
    forall j | j in s'.controlRuns ensures ReadOk(s'.api, j, s'.controlRuns[j]) {
      PutKeepsRead(s.api, k, obj, j, s.controlRuns[j]);
    }
    forall j | j in s'.nicRuns ensures NicRunOk(s'.api, s'.home, j, s'.nicRuns[j]) {
      PutKeepsNicRun(s.api, s.home, k, obj, j, s.nicRuns[j]);
    }
  }

  /** Adding an endpoint that is no twin of another keeps the invariant, but for a pass over the
      NICs of its own instance. */
  lemma NewKeepsInv(s: State, k: Key, obj: Endpoint)
    requires Inv(s) && k !in s.api.endpoints && NewlyCreated(obj) && OwnersOk(s.home, obj)
    requires forall j :: j in s.api.endpoints ==> NotTwins(s.api.endpoints[j], obj)
    requires forall j :: j in s.nicRuns ==> s.nicRuns[j].uid !in obj.owners
    ensures Inv(s.(api := PutEndpoint(s.api, k, obj)))
  {
    hide EndpointOk, NotTwins, NoClash, ReadOk, ListingOk, NicRunOk, OwnersOk;
    var s' := s.(api := PutEndpoint(s.api, k, obj));
    NewKeepsEndpoints(s.api, s.home, k, obj);
    forall j | j in s'.networkRuns ensures NetworkRunOk(s'.api, s'.lock, j, s'.networkRuns[j]) {
      assert NetworkRunOk(s.api, s.lock, j, s.networkRuns[j]);
      PutKeepsRead(s.api, k, obj, j, s.networkRuns[j].bme);
      PutKeepsListing(s.api, k, obj, j, s.networkRuns[j]);
    }
    forall j | j in s'.controlRuns ensures ReadOk(s'.api, j, s'.controlRuns[j]) {
      PutKeepsRead(s.api, k, obj, j, s.controlRuns[j]);
    }
    forall j | j in s'.nicRuns ensures NicRunOk(s'.api, s'.home, j, s'.nicRuns[j]) {
      NewKeepsNicRun(s.api, s.home, k, obj, j, s.nicRuns[j]);
    }
  }

  // ---------------------------------------------------------------- users

  lemma UserKeepsInv(s: State, e: Event, s': State)
    requires Inv(s) && UserNext(s, e, s')
    ensures Inv(s')
  {
    hide Inv, EndpointsOk;
    match e {
      case CreateEndpoint(k, obj) =>
        NewKeepsInv(s, k, obj);
      case EditEndpoint(k, primary) =>
        StoredIsGood(s, k);
        PutKeepsInv(s, k, s.api.endpoints[k].(primary := primary));
      case DeleteEndpoint(k) =>
        if k in s.api.endpoints && !s.api.endpoints[k].deleting {
          StoredIsGood(s, k);
          PutKeepsInv(s, k, s.api.endpoints[k].(deleting := true));
        } else {
          assert s' == s;
        }
      case ReleaseEndpoint(k, finalizer) =>
        StoredIsGood(s, k);
        PutKeepsInv(s, k, s.api.endpoints[k].(finalizers := s.api.endpoints[k].finalizers - {finalizer}));
    }
  }

  lemma StoredIsGood(s: State, k: Key)
    requires Inv(s) && k in s.api.endpoints
    ensures GoodWrite(s.api, k, s.api.endpoints[k])
    ensures s.api.endpoints[k].version <= s.api.revision
  {
    assert EndpointOk(s.api, s.home, s.api.endpoints[k]);
  }

  lemma WorldKeepsInv(s: State, e: Event, s': State)
    requires Inv(s) && WorldNext(s, e, s')
    ensures Inv(s')
  {
    hide Admissible, AddressOk, Ours;
    if e.CreateInstance? {
      NewHomeKeepsEndpoints(s.api, s.home, e.uid, e.k);
    }
  }

  lemma NewHomeKeepsEndpoints(c: Registry, home: map<nat, Key>, uid: nat, k: Key)
    requires EndpointsOk(c, home) && uid !in home
    ensures EndpointsOk(c, home[uid := k])
  {
    hide AddressOk, Ours;
    forall j | j in c.endpoints ensures EndpointOk(c, home[uid := k], c.endpoints[j]) {
      assert EndpointOk(c, home, c.endpoints[j]);
    }
  }

  // ---------------------------------------------------------------- Network

  /** What the writes of Network that bring no address do. */
  lemma NetworkWriteIsGood(c: Registry, home: map<nat, Key>, k: Key, r: NetworkRun)
    requires EndpointsOk(c, home) && FreshEndpoint(c, k, r.bme) && c.endpoints[k] == r.bme
    requires Decide(r.bme, r.bmn).UpdateEndpoint?
    ensures var obj := Decide(r.bme, r.bmn).bme;
            GoodWrite(c, k, obj) && SameOrNoAddress(r.bme, obj) && obj.version == r.bme.version
  {
    hide AddressOk, Ours, OwnersOk;
    assert EndpointOk(c, home, r.bme);
  }

  lemma NetworkWriteVersion(r: NetworkRun)
    requires Decide(r.bme, r.bmn).UpdateEndpoint?
    ensures Decide(r.bme, r.bmn).bme.version == r.bme.version
  {
  }

  lemma EndNetworkKeepsInv(s: State, k: Key)
    requires Inv(s)
    ensures Inv(EndNetwork(s, k))
  {
    hide EndpointsOk, NoClashes, NoTwins, NetworksOk, NicRunOk, ListingOk, ReadOk, Admissible;
    var s' := EndNetwork(s, k);
    forall j | j in s'.networkRuns ensures NetworkRunOk(s'.api, s'.lock, j, s'.networkRuns[j]) {
      assert NetworkRunOk(s.api, s.lock, j, s.networkRuns[j]);
    }
  }

  lemma NetworkWriteKeepsInv(s: State, k: Key, s': State)
    requires Inv(s) && NetworkNext(s, NetworkWrite(k), s')
    ensures Inv(s')
  {
    var r := s.networkRuns[k];
    var obj := Decide(r.bme, r.bmn).bme;
    assert NetworkRunOk(s.api, s.lock, k, r);
    NetworkWriteVersion(r);
    EndNetworkKeepsInv(s, k);
    if FreshEndpoint(s.api, k, r.bme) {
      NetworkWriteIsGood(s.api, s.home, k, r);
      hide Inv, Decide;
      PutKeepsInv(EndNetwork(s, k), k, obj);
    } else {
      hide Inv, Decide;
      assert s' == EndNetwork(s, k);
    }
  }

  lemma SetRunKeepsInv(s: State, k: Key, r: NetworkRun, lock: Option<Key>)
    requires Inv(s) && NetworkRunOk(s.api, lock, k, r)
    requires lock == s.lock || s.lock == None
    ensures Inv(s.(networkRuns := s.networkRuns[k := r], lock := lock))
  {
    hide EndpointsOk, NoClashes, NoTwins, NetworksOk, NicRunOk, ListingOk, ReadOk, Admissible;
    forall j | j in s.networkRuns && j != k ensures NetworkRunOk(s.api, lock, j, s.networkRuns[j]) {
      assert NetworkRunOk(s.api, s.lock, j, s.networkRuns[j]);
    }
  }

  lemma ListedNow(c: Registry, k: Key, r: NetworkRun, names: seq<Key>)
    requires Listing(c, IndexValue(r.bme.networkRef), names)
    ensures ListingOk(c, k, r.(listed := Some(AddressesAt(c, names))))
  {
    var listed := AddressesAt(c, names);
    forall j | j in c.endpoints && c.endpoints[j].networkRef == r.bme.networkRef
      ensures IsListed(listed, c.endpoints[j])
    {
      assert j in names;
      var i :| 0 <= i < |names| && names[i] == j;
      assert listed[i] == HeldIP(c.endpoints[j]);
    }
  }

  lemma NetworkReadsKeepInv(s: State, e: Event, s': State)
    requires Inv(s) && NetworkNext(s, e, s')
    requires e.NetworkRead? || e.NetworkFetch? || e.NetworkLock? || e.NetworkList?
    ensures Inv(s')
  {
    match e {
      case NetworkRead(k) =>
        assert EndpointOk(s.api, s.home, s.api.endpoints[k]);
        SetRunKeepsInv(s, k, NetworkRun(s.api.endpoints[k], None, None), s.lock);
      case NetworkFetch(k) =>
        var r := s.networkRuns[k];
        assert NetworkRunOk(s.api, s.lock, k, r);
        SetRunKeepsInv(s, k, r.(bmn := Some(NetworkAt(s.api, NetworkKey(k, r.bme)))), s.lock);
      case NetworkLock(k) =>
        assert NetworkRunOk(s.api, s.lock, k, s.networkRuns[k]);
        SetRunKeepsInv(s, k, s.networkRuns[k], Some(k));
        assert s.networkRuns[k := s.networkRuns[k]] == s.networkRuns;
      case NetworkList(k, names) =>
        var r := s.networkRuns[k];
        assert NetworkRunOk(s.api, s.lock, k, r);
        ListedNow(s.api, k, r, names);
        SetRunKeepsInv(s, k, r.(listed := Some(AddressesAt(s.api, names))), s.lock);
    }
  }

  // ---------------------------------------------------------------- handing out an address

  /** The address found is new among the endpoints of the network, because they were all listed. */
  lemma FoundIsNew(c: Registry, k: Key, r: NetworkRun, spec: NetworkSpec, ip: IP16, bme: Endpoint)
    requires bme.networkRef == r.bme.networkRef && r.listed.Some? && IsListed(r.listed.value, bme)
    requires Free(spec, r.listed.value, ip)
    ensures bme.address.Some? ==> bme.address.value.ip != ip
  {
    hide IsSpecial, IsNameserver;
    assert !Held(r.listed.value, ip);
  }

  lemma FoundAddressOk(spec: NetworkSpec, listed: Listed, ip: IP16)
    requires Parsed(spec) && IsNext(spec, listed, Some(ip))
    ensures Free(spec, listed, ip) && AddressOk(AddressFrom(spec, ip))
  {
    hide Contains, Networks.Broadcast, Networks.NetworkIP, Addresses.Equal;
    var copy := NetworkSpec(spec.cidr, None, None, spec.gateway, spec.nameservers, spec.search);
    assert IsSpecial(copy, ip) == IsSpecial(spec, ip) && IsNameserver(copy, ip) == IsNameserver(spec, ip);
  }

  lemma AssignKeepsClashes(c: Registry, k: Key, r: NetworkRun, spec: NetworkSpec, ip: IP16)
    requires NoClashes(c) && k in c.endpoints && c.endpoints[k] == r.bme
    requires ListingOk(c, k, r) && r.listed.Some? && Free(spec, r.listed.value, ip)
    ensures NoClashes(PutEndpoint(c, k, r.bme.(address := Some(AddressFrom(spec, ip)))))
  {
    hide Free, IsListed;
    var c' := PutEndpoint(c, k, r.bme.(address := Some(AddressFrom(spec, ip))));
    forall i, j | i in c'.endpoints && j in c'.endpoints && i != j ensures NoClash(c'.endpoints[i], c'.endpoints[j]) {
      assert NoClash(c.endpoints[i], c.endpoints[j]);
      if i == k && c.endpoints[j].networkRef == r.bme.networkRef {
        FoundIsNew(c, k, r, spec, ip, c.endpoints[j]);
      } else if j == k && c.endpoints[i].networkRef == r.bme.networkRef {
        FoundIsNew(c, k, r, spec, ip, c.endpoints[i]);
      }
    }
  }

  /** Storing an address while no pass holds a listing. */
  lemma PutAddressKeepsRuns(s: State, k: Key, obj: Endpoint)
    requires Inv(s) && s.lock == None && k in s.api.endpoints && Kept(s.api.endpoints[k], obj)
    ensures var s' := s.(api := PutEndpoint(s.api, k, obj));
            NetworkRunsOk(s') && ControlRunsOk(s') && NicRunsOk(s') && NetworksOk(s'.api) && InstancesOk(s')
  {
    hide EndpointOk, NotTwins, NoClash, ReadOk, NicRunOk, Admissible, Kept;
    var s' := s.(api := PutEndpoint(s.api, k, obj));
    forall j | j in s'.networkRuns ensures NetworkRunOk(s'.api, s'.lock, j, s'.networkRuns[j]) {
      assert NetworkRunOk(s.api, s.lock, j, s.networkRuns[j]);
      PutKeepsRead(s.api, k, obj, j, s.networkRuns[j].bme);
    }
    forall j | j in s'.controlRuns ensures ReadOk(s'.api, j, s'.controlRuns[j]) {
      PutKeepsRead(s.api, k, obj, j, s.controlRuns[j]);
    }
    forall j | j in s'.nicRuns ensures NicRunOk(s'.api, s'.home, j, s'.nicRuns[j]) {
      PutKeepsNicRun(s.api, s.home, k, obj, j, s.nicRuns[j]);
    }
  }

  lemma AssignIsGood(c: Registry, home: map<nat, Key>, k: Key, r: NetworkRun, spec: NetworkSpec, ip: IP16)
    requires EndpointsOk(c, home) && k in c.endpoints && c.endpoints[k] == r.bme
    requires Decide(r.bme, r.bmn) == FindAddress(spec) && AddressOk(AddressFrom(spec, ip))
    ensures GoodWrite(c, k, r.bme.(address := Some(AddressFrom(spec, ip))))
  {
    hide AddressOk, OwnersOk;
    assert EndpointOk(c, home, r.bme);
  }

  lemma FreshAssignKeepsInv(s: State, k: Key, r: NetworkRun, spec: NetworkSpec, ip: IP16)
    requires Inv(s) && NetworkRunOk(s.api, s.lock, k, r) && FreshEndpoint(s.api, k, r.bme)
    requires s.lock == Some(k) && r.listed.Some? && Inv(EndNetwork(s, k))
    requires Decide(r.bme, r.bmn) == FindAddress(spec)
    requires Free(spec, r.listed.value, ip) && AddressOk(AddressFrom(spec, ip))
    ensures Inv(EndNetwork(s, k).(api := PutEndpoint(s.api, k, r.bme.(address := Some(AddressFrom(spec, ip))))))
  {
    hide Free, AddressOk, ListingOk;
    AssignIsGood(s.api, s.home, k, r, spec, ip);
    hide Decide;
    PutKeepsEndpoints(s.api, s.home, k, r.bme.(address := Some(AddressFrom(spec, ip))));
    AssignKeepsClashes(s.api, k, r, spec, ip);
    PutAddressKeepsRuns(EndNetwork(s, k), k, r.bme.(address := Some(AddressFrom(spec, ip))));
    hide EndpointsOk, NoClashes, NoTwins, NetworksOk, NetworkRunsOk, ControlRunsOk, NicRunsOk, InstancesOk, GoodWrite;
  }

  /** The network of an assignment was read from the store. */
  lemma SpecIsAdmissible(c: Registry, lock: Option<Key>, k: Key, r: NetworkRun)
    requires NetworkRunOk(c, lock, k, r) && Decide(r.bme, r.bmn).FindAddress?
    ensures Admissible(Decide(r.bme, r.bmn).spec)
  {
    hide Admissible;
  }

  lemma NetworkAssignKeepsInv(s: State, k: Key, ip: IP16, s': State)
    requires Inv(s) && NetworkNext(s, NetworkAssign(k, ip), s')
    ensures Inv(s')
  {
    var r := s.networkRuns[k];
    assert NetworkRunOk(s.api, s.lock, k, r);
    hide Inv, IsNext, NetworkRunOk;
    SpecIsAdmissible(s.api, s.lock, k, r);
    hide Decide, Admissible;
    var spec := Decide(r.bme, r.bmn).spec;
    FoundAddressOk(spec, r.listed.value, ip);
    hide Free, AddressOk;
    EndNetworkKeepsInv(s, k);
    if FreshEndpoint(s.api, k, r.bme) {
      FreshAssignKeepsInv(s, k, r, spec, ip);
    } else {
      assert s' == EndNetwork(s, k);
    }
  }

  lemma NetworkKeepsInv(s: State, e: Event, s': State)
    requires Inv(s) && NetworkNext(s, e, s')
    ensures Inv(s')
  {
    hide Inv, Decide, IsNext;
    match e {
      case NetworkWrite(k) => NetworkWriteKeepsInv(s, k, s');
      case NetworkAssign(k, ip) => NetworkAssignKeepsInv(s, k, ip, s');
      case AbortNetwork(k) => EndNetworkKeepsInv(s, k);
      case _ => NetworkReadsKeepInv(s, e, s');
    }
  }

  // ---------------------------------------------------------------- Controller

  lemma ControlWriteIsGood(c: Registry, home: map<nat, Key>, k: Key, read: Endpoint)
    requires EndpointsOk(c, home) && k in c.endpoints && c.endpoints[k] == read
    requires DecideControl(read).UpdateEndpoint?
    ensures var obj := DecideControl(read).bme;
            GoodWrite(c, k, obj) && SameOrNoAddress(read, obj)
  {
    hide AddressOk, Ours, OwnersOk;
    assert EndpointOk(c, home, read);
  }

  lemma SetControlKeepsInv(s: State, runs: map<Key, Endpoint>)
    requires Inv(s) && forall k :: k in runs ==> ReadOk(s.api, k, runs[k])
    ensures Inv(s.(controlRuns := runs))
  {
    hide EndpointOk, NotTwins, NoClash, ReadOk, NicRunOk, Admissible, NetworkRunOk;
  }

  lemma ControlKeepsInv(s: State, e: Event, s': State)
    requires Inv(s) && ControlNext(s, e, s')
    ensures Inv(s')
  {
    SetControlKeepsInv(s, s.controlRuns - {e.k});
    match e {
      case ControlRead(k) =>
        assert EndpointOk(s.api, s.home, s.api.endpoints[k]);
        SetControlKeepsInv(s, s.controlRuns[k := s.api.endpoints[k]]);
      case ControlWrite(k) =>
        var read := s.controlRuns[k];
        assert ReadOk(s.api, k, read);
        if FreshEndpoint(s.api, k, read) {
          ControlWriteIsGood(s.api, s.home, k, read);
          hide Inv;
          PutKeepsInv(s.(controlRuns := s.controlRuns - {k}), k, DecideControl(read).bme);
        }
      case AbortControl(k) =>
    }
  }

  // ---------------------------------------------------------------- the loop over the NICs

  lemma SetNicsKeepInv(s: State, runs: map<Key, NicRun>)
    requires Inv(s) && forall k :: k in runs ==> NicRunOk(s.api, s.home, k, runs[k])
    ensures Inv(s.(nicRuns := runs))
  {
    hide EndpointOk, NotTwins, NoClash, ReadOk, NicRunOk, Admissible, NetworkRunOk;
  }

  lemma ListedNics(s: State, k: Key, r: NicRun)
    requires EndpointsOk(s.api, s.home) && NoTwins(s.api) && NicRunOk(s.api, s.home, k, r) && |r.seen| < |r.nics|
    ensures NicRunOk(s.api, s.home, k, r.(listed := Some(OwnedListing(s.api, k.name, r.uid, r.nics[|r.seen|].name))))
  {
    hide AddressOk, Ours;
    var listed := OwnedListing(s.api, k.name, r.uid, r.nics[|r.seen|].name);
    forall j | j in s.api.endpoints && MadeForNic(s.api.endpoints[j], r.uid, r.nics[|r.seen|])
      ensures j in listed && listed[j] == s.api.endpoints[j]
    {
      assert EndpointOk(s.api, s.home, s.api.endpoints[j]);
    }
    forall a, b | a in listed && b in listed ensures a == b {
      assert a != b ==> NotTwins(s.api.endpoints[a], s.api.endpoints[b]);
    }
  }

  lemma SeenOneMore(c: Registry, home: map<nat, Key>, k: Key, r: NicRun, bme: Key)
    requires NicRunOk(c, home, k, r)
    requires r.listed.Some? && r.listed.value.Keys == {bme} && r.listed.value[bme].phase == Addressed
    ensures NicRunOk(c, home, k, r.(seen := r.seen + [bme], listed := None))
  {
    hide StillAddressed;
    var next := r.(seen := r.seen + [bme], listed := None);
    forall i, j | 0 <= i < |next.seen| && j in c.endpoints && MadeForNic(c.endpoints[j], r.uid, r.nics[i])
      ensures j == next.seen[i] && StillAddressed(c.endpoints[j])
    {
      if i == |r.seen| {
        assert j in r.listed.value;
        assert j in r.listed.value.Keys;
      }
    }
  }

  lemma NicCreateKeepsInv(s: State, k: Key, generated: Key, s': State)
    requires Inv(s) && NicsNext(s, NicCreate(k, generated), s')
    ensures Inv(s')
  {
    var r := s.nicRuns[k];
    var nic := r.nics[|r.seen|];
    var obj := NewEndpoint(k.name, r.uid, nic, Macs(nic, r.found.value.nics));
    var s1 := s.(nicRuns := s.nicRuns - {k});
    assert NicRunOk(s.api, s.home, k, r);
    forall j | j in s1.nicRuns ensures NicRunOk(s.api, s.home, j, s.nicRuns[j]) && s.nicRuns[j].uid != r.uid {
      assert NicRunOk(s.api, s.home, j, s.nicRuns[j]);
    }
    SetNicsKeepInv(s, s1.nicRuns);
    forall j | j in s.api.endpoints ensures NotTwins(s.api.endpoints[j], obj) {
      assert j !in r.listed.value && !MadeForNic(s.api.endpoints[j], r.uid, nic);
    }
    hide Inv;
    NewKeepsInv(s1, generated, obj);
  }

  lemma NicsKeepInv(s: State, e: Event, s': State)
    requires Inv(s) && NicsNext(s, e, s')
    ensures Inv(s')
  {
    match e {
      case NicCreate(k, generated) => NicCreateKeepsInv(s, k, generated, s');
      case NicsRead(k, nics, found) =>
        SetNicsKeepInv(s, s.nicRuns[k := NicRun(s.instances[k], nics, found, [], None)]);
      case NicList(k) =>
        var r := s.nicRuns[k];
        ListedNics(s, k, r);
        SetNicsKeepInv(s, s.nicRuns[k := r.(listed := Some(OwnedListing(s.api, k.name, r.uid, r.nics[|r.seen|].name)))]);
      case NicNext(k, bme) =>
        var r := s.nicRuns[k];
        SeenOneMore(s.api, s.home, k, r, bme);
        SetNicsKeepInv(s, s.nicRuns[k := r.(seen := r.seen + [bme], listed := None)]);
      case NicsNetworked(k) => SetNicsKeepInv(s, s.nicRuns - {k});
      case AbortNics(k) => SetNicsKeepInv(s, s.nicRuns - {k});
    }
  }

  // ---------------------------------------------------------------- all steps

  lemma NextKeepsInv(s: State, e: Event, s': State)
    requires Inv(s) && Next(s, e, s')
    ensures Inv(s')
  {
    hide Inv, UserNext, WorldNext, NetworkNext, ControlNext, NicsNext;
    if UserNext(s, e, s') {
      UserKeepsInv(s, e, s');
    } else if WorldNext(s, e, s') {
      WorldKeepsInv(s, e, s');
    } else if NetworkNext(s, e, s') {
      NetworkKeepsInv(s, e, s');
    } else if ControlNext(s, e, s') {
      ControlKeepsInv(s, e, s');
    } else {
      NicsKeepInv(s, e, s');
    }
  }

  lemma {:induction false} InvInEveryRun(states: seq<State>, events: seq<Event>, i: nat)
    requires IsRun(states, events) && i < |states|
    ensures Inv(states[i])
  {
    hide Inv, Next;
    if i == 0 {
      InitInv();
    } else {
      InvInEveryRun(states, events, i - 1);
      assert StepAt(states, events, i - 1);
      NextKeepsInv(states[i - 1], events[i - 1], states[i]);
    }
  }
}
