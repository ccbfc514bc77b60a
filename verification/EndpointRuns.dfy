// Endpoints and networks as a transition system: any number of endpoints, networks and instances,
// both endpoint controllers, the provisioner's loop over the NICs, and users. As in Lifecycle, a
// reconcile keeps what it read in a run and later tries one write. The address lock is held from
// before the listing until after the write.
//
// home is history: the instance every UID was given to.
module EndpointRuns {
  import opened Common
  import opened Networks
  import opened Objects
  import opened Allocator
  import opened Endpoints
  import opened Networking

  // A pass of Network: the endpoint, the answer about its network, and under the lock the
  // addresses that were listed.
  datatype NetworkRun = NetworkRun(
    bme: Endpoint,
    bmn: Option<Option<NetworkSpec>>,
    listed: Option<Listed>)

  // A pass of the provisioner over the NICs of the hardware it read: the endpoints seen addressed
  // so far, and the listing for the next NIC.
  datatype NicRun = NicRun(
    uid: nat,
    nics: seq<NIC>,
    found: Option<Discovered>,
    seen: seq<Key>,
    listed: Option<map<Key, Endpoint>>)

  datatype State = State(
    api: Registry,
    instances: map<Key, nat>,
    home: map<nat, Key>,
    networkRuns: map<Key, NetworkRun>,
    lock: Option<Key>,
    controlRuns: map<Key, Endpoint>,
    nicRuns: map<Key, NicRun>)

  const INIT := State(Registry(map[], map[], 0), map[], map[], map[], None, map[], map[])

  datatype Event =
    // users
    | CreateEndpoint(k: Key, obj: Endpoint)
    | EditEndpoint(k: Key, primary: bool)
    | DeleteEndpoint(k: Key)
    | ReleaseEndpoint(k: Key, finalizer: Finalizer)
    | CreateNetwork(k: Key, spec: NetworkSpec)
    | RemoveNetwork(k: Key)
    | CreateInstance(k: Key, uid: nat)
    | RemoveInstance(k: Key)
    // Network
    | NetworkRead(k: Key)
    | NetworkFetch(k: Key)
    | NetworkWrite(k: Key)
    | NetworkLock(k: Key)
    | NetworkList(k: Key, names: seq<Key>)
    | NetworkAssign(k: Key, ip: IP16)
    | AbortNetwork(k: Key)
    // Controller
    | ControlRead(k: Key)
    | ControlWrite(k: Key)
    | AbortControl(k: Key)
    // the provisioner's loop over the NICs
    | NicsRead(k: Key, nics: seq<NIC>, found: Option<Discovered>)
    | NicList(k: Key)
    | NicCreate(k: Key, generated: Key)
    | NicNext(k: Key, bme: Key)
    | NicsNetworked(k: Key)
    | AbortNics(k: Key)

  // ---------------------------------------------------------------- users

  /** An endpoint as it is created: without a status, let through by the webhook, and with the
      finalizer the webhook adds. */
  predicate NewlyCreated(obj: Endpoint) {
    !obj.deleting && OwnFinalizer in obj.finalizers && obj.phase == NoEndpointPhase && Admits(obj)
  }

  function WithDeletion(c: Registry, k: Key): Registry {
    if k in c.endpoints && !c.endpoints[k].deleting
    then PutEndpoint(c, k, c.endpoints[k].(deleting := true))
    else c
  }

  predicate UserNext(s: State, e: Event, s': State) {
    match e
    case CreateEndpoint(k, obj) =>
      && k !in s.api.endpoints && NewlyCreated(obj) && obj.owners == {}
      && s' == s.(api := PutEndpoint(s.api, k, obj))
    case EditEndpoint(k, primary) =>
      k in s.api.endpoints && s' == s.(api := PutEndpoint(s.api, k, s.api.endpoints[k].(primary := primary)))
    case DeleteEndpoint(k) => s' == s.(api := WithDeletion(s.api, k))
    case ReleaseEndpoint(k, finalizer) =>
      && finalizer.ForeignFinalizer? && k in s.api.endpoints
      && var bme := s.api.endpoints[k];
         s' == s.(api := PutEndpoint(s.api, k, bme.(finalizers := bme.finalizers - {finalizer})))
    case _ => false
  }

  ghost predicate WorldNext(s: State, e: Event, s': State) {
    match e
    case CreateNetwork(k, spec) =>
      && k !in s.api.networks && Admissible(spec)
      && s' == s.(api := s.api.(networks := s.api.networks[k := spec]))
    case RemoveNetwork(k) => s' == s.(api := s.api.(networks := s.api.networks - {k}))
    case CreateInstance(k, uid) =>
      && k !in s.instances && uid !in s.home
      && s' == s.(instances := s.instances[k := uid], home := s.home[uid := k])
    case RemoveInstance(k) => s' == s.(instances := s.instances - {k})
    case _ => false
  }

  // ---------------------------------------------------------------- Network

  function EndNetwork(s: State, k: Key): State {
    s.(networkRuns := s.networkRuns - {k}, lock := if s.lock == Some(k) then None else s.lock)
  }

  ghost predicate NetworkNext(s: State, e: Event, s': State) {
    match e
    case NetworkRead(k) =>
      && k in s.api.endpoints && k !in s.networkRuns
      && s' == s.(networkRuns := s.networkRuns[k := NetworkRun(s.api.endpoints[k], None, None)])
    case NetworkFetch(k) =>
      && k in s.networkRuns
      && var r := s.networkRuns[k];
         && Decide(r.bme, r.bmn).NeedNetwork?
         && s' == s.(networkRuns := s.networkRuns[k := r.(bmn := Some(NetworkAt(s.api, NetworkKey(k, r.bme))))])
    case NetworkWrite(k) =>
      && k in s.networkRuns
      && var r := s.networkRuns[k];
         var effect := Decide(r.bme, r.bmn);
         && effect.UpdateEndpoint?
         && s' == EndNetwork(s, k).(api := WriteEndpoint(s.api, k, effect.bme))
    case NetworkLock(k) =>
      && k in s.networkRuns && s.lock == None
      && var r := s.networkRuns[k];
         && Decide(r.bme, r.bmn).FindAddress? && r.listed == None
         && s' == s.(lock := Some(k))
    case NetworkList(k, names) =>
      && k in s.networkRuns && s.lock == Some(k)
      && var r := s.networkRuns[k];
         && r.listed == None && Listing(s.api, IndexValue(r.bme.networkRef), names)
         && s' == s.(networkRuns := s.networkRuns[k := r.(listed := Some(AddressesAt(s.api, names)))])
    case NetworkAssign(k, ip) =>
      && k in s.networkRuns && s.lock == Some(k)
      && var r := s.networkRuns[k];
         var effect := Decide(r.bme, r.bmn);
         && effect.FindAddress? && r.listed.Some?
         && effect.spec.start.Some? && effect.spec.end.Some?
         && IsNext(effect.spec, r.listed.value, Some(ip))
         && s' == EndNetwork(s, k).(api := WithAddress(s.api, k, r.bme, effect.spec, Some(ip)))
    case AbortNetwork(k) => s' == EndNetwork(s, k)
    case _ => false
  }

  // ---------------------------------------------------------------- Controller

  predicate ControlNext(s: State, e: Event, s': State) {
    match e
    case ControlRead(k) =>
      && k in s.api.endpoints && k !in s.controlRuns
      && s' == s.(controlRuns := s.controlRuns[k := s.api.endpoints[k]])
    case ControlWrite(k) =>
      && k in s.controlRuns
      && var effect := DecideControl(s.controlRuns[k]);
         && effect.UpdateEndpoint?
         && s' == s.(controlRuns := s.controlRuns - {k}, api := WriteEndpoint(s.api, k, effect.bme))
    case AbortControl(k) => s' == s.(controlRuns := s.controlRuns - {k})
    case _ => false
  }

  // ---------------------------------------------------------------- the loop over the NICs

  function OwnedListing(c: Registry, instance: string, uid: nat, nic: string): map<Key, Endpoint> {
    map k | k in OwnedKeys(c, instance, uid, nic) :: c.endpoints[k]
  }

  predicate NicsNext(s: State, e: Event, s': State) {
    match e
    case NicsRead(k, nics, found) =>
      && k in s.instances && k !in s.nicRuns
      && s' == s.(nicRuns := s.nicRuns[k := NicRun(s.instances[k], nics, found, [], None)])
    case NicList(k) =>
      && k in s.nicRuns
      && var r := s.nicRuns[k];
         && |r.seen| < |r.nics| && r.listed == None
         && s' == s.(nicRuns := s.nicRuns[k :=
                       r.(listed := Some(OwnedListing(s.api, k.name, r.uid, r.nics[|r.seen|].name)))])
    case NicCreate(k, generated) =>
      && k in s.nicRuns && generated !in s.api.endpoints
      && var r := s.nicRuns[k];
         && r.listed == Some(map[]) && r.found.Some? && |r.seen| < |r.nics|
         && var nic := r.nics[|r.seen|];
            var macs := Macs(nic, r.found.value.nics);
            && macs != [] && Admits(NewEndpoint(k.name, r.uid, nic, macs))
            && s' == s.(nicRuns := s.nicRuns - {k},
                        api := PutEndpoint(s.api, generated, NewEndpoint(k.name, r.uid, nic, macs)))
    case NicNext(k, bme) =>
      && k in s.nicRuns
      && var r := s.nicRuns[k];
         && r.listed.Some? && r.listed.value.Keys == {bme} && r.listed.value[bme].phase == Addressed
         && s' == s.(nicRuns := s.nicRuns[k := r.(seen := r.seen + [bme], listed := None)])
    case NicsNetworked(k) =>
      && k in s.nicRuns && |s.nicRuns[k].seen| == |s.nicRuns[k].nics|
      && s' == s.(nicRuns := s.nicRuns - {k})
    case AbortNics(k) => s' == s.(nicRuns := s.nicRuns - {k})
    case _ => false
  }

  ghost predicate Next(s: State, e: Event, s': State) {
    || UserNext(s, e, s')
    || WorldNext(s, e, s')
    || NetworkNext(s, e, s')
    || ControlNext(s, e, s')
    || NicsNext(s, e, s')
  }

  // ---------------------------------------------------------------- runs

  ghost predicate StepAt(states: seq<State>, events: seq<Event>, i: nat) {
    i < |events| && i + 1 < |states| && Next(states[i], events[i], states[i + 1])
  }

  ghost predicate IsRun(states: seq<State>, events: seq<Event>) {
    && |states| == |events| + 1
    && states[0] == INIT
    && forall i :: 0 <= i < |events| ==> StepAt(states, events, i)
  }
}
