// The methods of the endpoint controllers and of the loop over the NICs, as steps of EndpointRuns.
module EndpointRefinement {
  import opened Common
  import opened Networks
  import opened Objects
  import opened Allocator
  import opened Endpoints
  import opened Networking
  import opened EndpointRuns

  /** The events lead from s to s'. */
  ghost predicate Leads(s: State, events: seq<Event>, s': State)
    decreases |events|
  {
    if events == [] then s' == s
    else exists s1 :: Next(s, events[0], s1) && Leads(s1, events[1..], s')
  }

  lemma OneStep(s: State, e: Event, s1: State, events: seq<Event>, s': State)
    requires Next(s, e, s1) && Leads(s1, events, s')
    ensures Leads(s, [e] + events, s')
  {
    hide Next;
    assert ([e] + events)[0] == e && ([e] + events)[1..] == events;
  }

  lemma LastStep(s: State, e: Event, s': State)
    requires Next(s, e, s')
    ensures Leads(s, [e], s')
  {
    hide Next;
    assert Leads(s', [], s');
    OneStep(s, e, s', [], s');
    assert [e] + [] == [e];
  }

  // ---------------------------------------------------------------- Network

  /** A pass of Network for k in flight. */
  function Pass(s: State, k: Key, r: NetworkRun, lock: Option<Key>): State {
    s.(networkRuns := s.networkRuns[k := r], lock := lock)
  }

  predicate CanStart(s: State, k: Key) {
    k in s.api.endpoints && k !in s.networkRuns && s.lock == None
  }

  function Found(s: State, k: Key): Option<NetworkSpec>
    requires k in s.api.endpoints
  {
    NetworkAt(s.api, NetworkKey(k, s.api.endpoints[k]))
  }

  lemma PassReplaced(s: State, k: Key, r: NetworkRun, r': NetworkRun, lock: Option<Key>)
    ensures Pass(s, k, r, lock).networkRuns[k := r'] == Pass(s, k, r', lock).networkRuns
    ensures k !in s.networkRuns ==> Pass(s, k, r, lock).networkRuns - {k} == s.networkRuns
  {
  }

  lemma PassEnds(s: State, k: Key, r: NetworkRun, lock: Option<Key>)
    requires CanStart(s, k) && (lock == None || lock == Some(k))
    ensures EndNetwork(Pass(s, k, r, lock), k) == s
    ensures Next(Pass(s, k, r, lock), AbortNetwork(k), s)
  {
    PassReplaced(s, k, r, r, lock);
    assert NetworkNext(Pass(s, k, r, lock), AbortNetwork(k), s);
  }

  lemma NetworkReads(s: State, k: Key)
    requires CanStart(s, k)
    ensures Next(s, NetworkRead(k), Pass(s, k, NetworkRun(s.api.endpoints[k], None, None), None))
  {
    assert NetworkNext(s, NetworkRead(k), Pass(s, k, NetworkRun(s.api.endpoints[k], None, None), None));
  }

  lemma NetworkFetches(s: State, k: Key)
    requires CanStart(s, k) && Decide(s.api.endpoints[k], None).NeedNetwork?
    ensures Next(Pass(s, k, NetworkRun(s.api.endpoints[k], None, None), None), NetworkFetch(k),
                 Pass(s, k, NetworkRun(s.api.endpoints[k], Some(Found(s, k)), None), None))
  {
    hide Decide;
    var r, r' := NetworkRun(s.api.endpoints[k], None, None), NetworkRun(s.api.endpoints[k], Some(Found(s, k)), None);
    PassReplaced(s, k, r, r', None);
    assert NetworkNext(Pass(s, k, r, None), NetworkFetch(k), Pass(s, k, r', None));
  }

  lemma NetworkWrites(s: State, k: Key, r: NetworkRun)
    requires CanStart(s, k) && Decide(r.bme, r.bmn).UpdateEndpoint?
    ensures Next(Pass(s, k, r, None), NetworkWrite(k), s.(api := WriteEndpoint(s.api, k, Decide(r.bme, r.bmn).bme)))
  {
    hide Decide;
    PassEnds(s, k, r, None);
    assert NetworkNext(Pass(s, k, r, None), NetworkWrite(k), s.(api := WriteEndpoint(s.api, k, Decide(r.bme, r.bmn).bme)));
  }

  lemma NetworkLocks(s: State, k: Key, r: NetworkRun)
    requires CanStart(s, k) && Decide(r.bme, r.bmn).FindAddress? && r.listed == None
    ensures Next(Pass(s, k, r, None), NetworkLock(k), Pass(s, k, r, Some(k)))
  {
    hide Decide;
    assert NetworkNext(Pass(s, k, r, None), NetworkLock(k), Pass(s, k, r, Some(k)));
  }

  lemma NetworkLists(s: State, k: Key, r: NetworkRun, names: seq<Key>)
    requires CanStart(s, k) && r.listed == None && Listing(s.api, IndexValue(r.bme.networkRef), names)
    ensures Next(Pass(s, k, r, Some(k)), NetworkList(k, names),
                 Pass(s, k, r.(listed := Some(AddressesAt(s.api, names))), Some(k)))
  {
    var r' := r.(listed := Some(AddressesAt(s.api, names)));
    PassReplaced(s, k, r, r', Some(k));
    assert NetworkNext(Pass(s, k, r, Some(k)), NetworkList(k, names), Pass(s, k, r', Some(k)));
  }

  lemma NetworkAssigns(s: State, k: Key, r: NetworkRun, spec: NetworkSpec, ip: IP16)
    requires CanStart(s, k) && Decide(r.bme, r.bmn) == FindAddress(spec) && r.listed.Some?
    requires spec.start.Some? && spec.end.Some? && IsNext(spec, r.listed.value, Some(ip))
    ensures Next(Pass(s, k, r, Some(k)), NetworkAssign(k, ip), s.(api := WithAddress(s.api, k, r.bme, spec, Some(ip))))
  {
    hide Decide, IsNext;
    PassEnds(s, k, r, Some(k));
    assert NetworkNext(Pass(s, k, r, Some(k)), NetworkAssign(k, ip), s.(api := WithAddress(s.api, k, r.bme, spec, Some(ip))));
  }

  /** From the lock to the write. */
  lemma AssignInSteps(s: State, k: Key, r: NetworkRun, names: seq<Key>, spec: NetworkSpec, next: Option<IP16>)
    returns (events: seq<Event>)
    requires CanStart(s, k) && Decide(r.bme, r.bmn) == FindAddress(spec) && r.listed == None
    requires Listing(s.api, IndexValue(r.bme.networkRef), names)
    requires spec.start.Some? && spec.end.Some? && IsNext(spec, AddressesAt(s.api, names), next)
    ensures Leads(Pass(s, k, r, None), events, s.(api := WithAddress(s.api, k, r.bme, spec, next)))
  {
    var r' := r.(listed := Some(AddressesAt(s.api, names)));
    var s' := s.(api := WithAddress(s.api, k, r.bme, spec, next));
    NetworkLocks(s, k, r);
    NetworkLists(s, k, r, names);
    if next.Some? {
      NetworkAssigns(s, k, r', spec, next.value);
      events := [NetworkAssign(k, next.value)];
    } else {
      PassEnds(s, k, r', Some(k));
      events := [AbortNetwork(k)];
    }
    hide Next, Decide, IsNext, Pass, Listing;
    LastStep(Pass(s, k, r', Some(k)), events[0], s');
    OneStep(Pass(s, k, r, Some(k)), NetworkList(k, names), Pass(s, k, r', Some(k)), events, s');
    OneStep(Pass(s, k, r, None), NetworkLock(k), Pass(s, k, r, Some(k)), [NetworkList(k, names)] + events, s');
    events := [NetworkLock(k)] + ([NetworkList(k, names)] + events);
  }

  lemma NothingNeeded(bme: Endpoint)
    requires !Decide(bme, None).NeedNetwork?
    ensures forall found :: Decide(bme, Some(found)).NoEffect?
  {
  }

  lemma NetworkAnswered(bme: Endpoint, found: Option<NetworkSpec>)
    ensures !Decide(bme, Some(found)).NeedNetwork?
  {
  }

  /** Network.Reconcile in steps. */
  lemma NetworkReconcileInSteps(s: State, k: Key, names: seq<Key>, c': Registry) returns (events: seq<Event>)
    requires k in s.api.endpoints ==> CanStart(s, k) && Listing(s.api, IndexValue(s.api.endpoints[k].networkRef), names)
    requires Reconciled(s.api, k, names, c')
    ensures Leads(s, events, s.(api := c'))
  {
    hide Next, Pass, Decide, IsNext, Listing;
    if k !in s.api.endpoints {
      return [];
    }
    var bme := s.api.endpoints[k];
    var r0, r := NetworkRun(bme, None, None), NetworkRun(bme, Some(Found(s, k)), None);
    var s' := s.(api := c');
    NetworkReads(s, k);
    if !Decide(bme, None).NeedNetwork? {
      NothingNeeded(bme);
      PassEnds(s, k, r0, None);
      LastStep(Pass(s, k, r0, None), AbortNetwork(k), s');
      events := [AbortNetwork(k)];
    } else {
      NetworkAnswered(bme, Found(s, k));
      NetworkFetches(s, k);
      match Decide(bme, r.bmn) {
        case UpdateEndpoint(obj) =>
          NetworkWrites(s, k, r);
          LastStep(Pass(s, k, r, None), NetworkWrite(k), s');
          events := [NetworkWrite(k)];
        case FindAddress(spec) =>
          var next :| IsNext(spec, AddressesAt(s.api, names), next) && c' == WithAddress(s.api, k, bme, spec, next);
          events := AssignInSteps(s, k, r, names, spec, next);
        case NoEffect =>
          PassEnds(s, k, r, None);
          LastStep(Pass(s, k, r, None), AbortNetwork(k), s');
          events := [AbortNetwork(k)];
      }
      OneStep(Pass(s, k, r0, None), NetworkFetch(k), Pass(s, k, r, None), events, s');
      events := [NetworkFetch(k)] + events;
    }
    OneStep(s, NetworkRead(k), Pass(s, k, r0, None), events, s');
    events := [NetworkRead(k)] + events;
  }

  // ---------------------------------------------------------------- the loop over the NICs

  /** A pass over the NICs for instance k in flight. */
  function OverNics(s: State, k: Key, r: NicRun): State {
    s.(nicRuns := s.nicRuns[k := r])
  }

  lemma OverNicsReplaced(s: State, k: Key, r: NicRun, r': NicRun)
    ensures OverNics(s, k, r).nicRuns[k := r'] == OverNics(s, k, r').nicRuns
    ensures k !in s.nicRuns ==> OverNics(s, k, r).nicRuns - {k} == s.nicRuns
  {
  }

  lemma NicsStart(s: State, k: Key, nics: seq<NIC>, found: Option<Discovered>)
    requires k in s.instances && k !in s.nicRuns
    ensures Next(s, NicsRead(k, nics, found), OverNics(s, k, NicRun(s.instances[k], nics, found, [], None)))
  {
    assert EndpointRuns.NicsNext(s, NicsRead(k, nics, found), OverNics(s, k, NicRun(s.instances[k], nics, found, [], None)));
  }

  function WithListing(s: State, k: Key, r: NicRun): NicRun
    requires |r.seen| < |r.nics|
  {
    r.(listed := Some(OwnedListing(s.api, k.name, r.uid, r.nics[|r.seen|].name)))
  }

  lemma NicLists(s: State, k: Key, r: NicRun)
    requires |r.seen| < |r.nics| && r.listed == None
    ensures Next(OverNics(s, k, r), NicList(k), OverNics(s, k, WithListing(s, k, r)))
  {
    OverNicsReplaced(s, k, r, WithListing(s, k, r));
    assert EndpointRuns.NicsNext(OverNics(s, k, r), NicList(k), OverNics(s, k, WithListing(s, k, r)));
  }

  lemma NicPasses(s: State, k: Key, r: NicRun, bme: Key)
    requires r.listed.Some? && r.listed.value.Keys == {bme} && r.listed.value[bme].phase == Addressed
    ensures Next(OverNics(s, k, r), NicNext(k, bme), OverNics(s, k, r.(seen := r.seen + [bme], listed := None)))
  {
    OverNicsReplaced(s, k, r, r.(seen := r.seen + [bme], listed := None));
    assert EndpointRuns.NicsNext(OverNics(s, k, r), NicNext(k, bme), OverNics(s, k, r.(seen := r.seen + [bme], listed := None)));
  }

  lemma NicsEnd(s: State, k: Key, r: NicRun)
    requires k !in s.nicRuns
    ensures Next(OverNics(s, k, r), AbortNics(k), s)
    ensures |r.seen| == |r.nics| ==> Next(OverNics(s, k, r), NicsNetworked(k), s)
  {
    OverNicsReplaced(s, k, r, r);
    assert EndpointRuns.NicsNext(OverNics(s, k, r), AbortNics(k), s);
    assert |r.seen| == |r.nics| ==> EndpointRuns.NicsNext(OverNics(s, k, r), NicsNetworked(k), s);
  }

  lemma NicCreates(s: State, k: Key, r: NicRun, generated: Key)
    requires k !in s.nicRuns && generated !in s.api.endpoints && r.listed == Some(map[]) && r.found.Some? && |r.seen| < |r.nics|
    requires var macs := Macs(r.nics[|r.seen|], r.found.value.nics);
             macs != [] && Admits(NewEndpoint(k.name, r.uid, r.nics[|r.seen|], macs))
    ensures var nic := r.nics[|r.seen|];
            Next(OverNics(s, k, r), NicCreate(k, generated),
                 s.(api := AddEndpoint(s.api, generated, NewEndpoint(k.name, r.uid, nic, Macs(nic, r.found.value.nics)))))
  {
    hide Macs, Admits;
    OverNicsReplaced(s, k, r, r);
    var nic := r.nics[|r.seen|];
    assert EndpointRuns.NicsNext(OverNics(s, k, r), NicCreate(k, generated),
      s.(api := AddEndpoint(s.api, generated, NewEndpoint(k.name, r.uid, nic, Macs(nic, r.found.value.nics)))));
  }

  lemma ReadyNicListing(s: State, k: Key, r: NicRun) returns (bme: Key)
    requires |r.seen| < |r.nics| && StateOf(s.api, k.name, r.uid, r.nics[|r.seen|].name) == Ready
    ensures WithListing(s, k, r).listed.value.Keys == {bme} && WithListing(s, k, r).listed.value[bme].phase == Addressed
  {
    var keys := OwnedKeys(s.api, k.name, r.uid, r.nics[|r.seen|].name);
    bme :| bme in keys;
    OnlyKey(keys, bme);
    assert WithListing(s, k, r).listed.value.Keys == keys;
  }

  lemma MissingNicListing(s: State, k: Key, r: NicRun)
    requires |r.seen| < |r.nics| && StateOf(s.api, k.name, r.uid, r.nics[|r.seen|].name) == Missing
    ensures WithListing(s, k, r).listed == Some(map[])
  {
    assert WithListing(s, k, r).listed.value.Keys == {};
  }

  /** The rest of the loop: what it does to the store is what Networked says of all the NICs. */
  lemma {:induction false} NicsGoOn(s: State, k: Key, r: NicRun, generated: Key) returns (events: seq<Event>)
    requires k !in s.nicRuns && r.listed == None && |r.seen| <= |r.nics|
    requires ReadyCount(s.api, k.name, r.uid, r.nics) >= |r.seen|
    ensures Leads(OverNics(s, k, r), events, s.(api := Networked(s.api, k.name, r.uid, r.nics, r.found, generated)))
    ensures NicsNetworked(k) in events <==> ReadyCount(s.api, k.name, r.uid, r.nics) == |r.nics|
    decreases |r.nics| - |r.seen|
  {
    hide Next, OverNics, Macs, StateOf, WithListing, Admits;
    var s' := s.(api := Networked(s.api, k.name, r.uid, r.nics, r.found, generated));
    NicsEnd(s, k, r);
    if |r.seen| == |r.nics| {
      LastStep(OverNics(s, k, r), NicsNetworked(k), s');
      return [NicsNetworked(k)];
    }
    var listing := WithListing(s, k, r);
    NicLists(s, k, r);
    ListingOnly(s, k, r);
    if StateOf(s.api, k.name, r.uid, r.nics[|r.seen|].name) == Ready {
      var bme := ReadyNicListing(s, k, r);
      NicPasses(s, k, listing, bme);
      var next := r.(seen := r.seen + [bme]);
      events := NicsGoOn(s, k, next, generated);
      OneStep(OverNics(s, k, listing), NicNext(k, bme), OverNics(s, k, next), events, s');
      events := [NicNext(k, bme)] + events;
    } else if s' != s {
      MissingNicListing(s, k, r);
      NicCreates(s, k, listing, generated);
      LastStep(OverNics(s, k, listing), NicCreate(k, generated), s');
      events := [NicCreate(k, generated)];
    } else {
      NicsEnd(s, k, listing);
      LastStep(OverNics(s, k, listing), AbortNics(k), s');
      events := [AbortNics(k)];
    }
    OneStep(OverNics(s, k, r), NicList(k), OverNics(s, k, listing), events, s');
    events := [NicList(k)] + events;
  }

  lemma ListingOnly(s: State, k: Key, r: NicRun)
    requires |r.seen| < |r.nics|
    ensures var l := WithListing(s, k, r);
            l.uid == r.uid && l.nics == r.nics && l.found == r.found && l.seen == r.seen && l.listed.Some?
            && l.(listed := None) == r.(listed := None)
  {
  }

  /** InstanceNetworking.EnsureEndpoints in steps; it reaches the step that networks the instance
      exactly when it reports all NICs addressed. */
  lemma EnsureEndpointsInSteps(s: State, k: Key, nics: seq<NIC>, found: Option<Discovered>, generated: Key)
    returns (events: seq<Event>)
    requires k in s.instances && k !in s.nicRuns
    ensures Leads(s, events, s.(api := Networked(s.api, k.name, s.instances[k], nics, found, generated)))
    ensures NicsNetworked(k) in events <==> ReadyCount(s.api, k.name, s.instances[k], nics) == |nics|
  {
    hide Next, Networked;
    var r := NicRun(s.instances[k], nics, found, [], None);
    NicsStart(s, k, nics, found);
    events := NicsGoOn(s, k, r, generated);
    OneStep(s, NicsRead(k, nics, found), OverNics(s, k, r), events,
            s.(api := Networked(s.api, k.name, s.instances[k], nics, found, generated)));
    events := [NicsRead(k, nics, found)] + events;
  }
}
