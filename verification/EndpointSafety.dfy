// What holds in every run of endpoints and networks.
module EndpointSafety {
  import opened Common
  import opened Networks
  import opened Objects
  import opened Allocator
  import opened Endpoints
  import opened Networking
  import opened EndpointRuns
  import opened EndpointInvariant
  import opened EndpointSteps
  import Addresses

  // ---------------------------------------------------------------- addresses

  /** Two endpoints that refer to the same network never hold equal addresses, in whatever
      namespaces they are. */
  lemma NoDuplicateAddresses(states: seq<State>, events: seq<Event>, i: nat, k: Key, j: Key)
    requires IsRun(states, events) && i < |states| && k != j
    requires k in states[i].api.endpoints && j in states[i].api.endpoints
    ensures var a, b := states[i].api.endpoints[k], states[i].api.endpoints[j];
            a.networkRef == b.networkRef && a.address.Some? && b.address.Some? ==>
              !Addresses.Equal(a.address.value.ip, b.address.value.ip)
  {
    InvInEveryRun(states, events, i);
    assert NoClash(states[i].api.endpoints[k], states[i].api.endpoints[j]);
    hide Inv, IsRun;
  }

  /** An addressed endpoint that is not being deleted has an address; and the address of any
      endpoint is none of those its network keeps for itself. */
  lemma AddressedHasAddress(states: seq<State>, events: seq<Event>, i: nat, k: Key)
    requires IsRun(states, events) && i < |states| && k in states[i].api.endpoints
    ensures var bme := states[i].api.endpoints[k];
            && (bme.phase == Addressed && !bme.deleting ==> bme.address.Some?)
            && (bme.address.Some? ==>
                  var a := bme.address.value;
                  && a.cidr.Some? && a.gateway.Some? && a.ip != a.gateway.value
                  && !Addresses.Equal(a.ip, Networks.NetworkIP(a.cidr.value))
                  && !Addresses.Equal(a.ip, Networks.Broadcast(a.cidr.value))
                  && forall n :: 0 <= n < |a.nameservers| ==> a.nameservers[n].ip != Some(a.ip))
  {
    InvInEveryRun(states, events, i);
    assert EndpointOk(states[i].api, states[i].home, states[i].api.endpoints[k]);
    hide Inv, IsRun, OwnersOk;
    var bme := states[i].api.endpoints[k];
    if bme.address.Some? {
      NotOneOfItsOwn(bme.address.value);
    }
  }

  lemma NotOneOfItsOwn(a: Address)
    requires AddressOk(a)
    ensures a.ip != a.gateway.value
    ensures !Addresses.Equal(a.ip, Networks.NetworkIP(a.cidr.value))
    ensures !Addresses.Equal(a.ip, Networks.Broadcast(a.cidr.value))
    ensures forall n :: 0 <= n < |a.nameservers| ==> a.nameservers[n].ip != Some(a.ip)
  {
    hide Networks.NetworkIP, Networks.Broadcast;
    var spec := NetworkSpec(a.cidr, None, None, a.gateway, a.nameservers, a.search);
    forall n | 0 <= n < |a.nameservers| ensures a.nameservers[n].ip != Some(a.ip) {
      assert !IsNameserver(spec, a.ip) && spec.nameservers[n] == a.nameservers[n];
    }
  }

  /** An address is only ever handed out by the scan of an admitted network, against a listing
      that has every other endpoint of the network at the moment it is stored. */
  lemma AssignedFromCompleteListing(states: seq<State>, events: seq<Event>, i: nat)
    requires IsRun(states, events) && i < |events| && events[i].NetworkAssign?
    ensures var k := events[i].k;
            && k in states[i].networkRuns
            && var r := states[i].networkRuns[k];
               && Decide(r.bme, r.bmn).FindAddress? && r.listed.Some?
               && var spec := Decide(r.bme, r.bmn).spec;
                  && Admissible(spec) && IsNext(spec, r.listed.value, Some(events[i].ip))
                  && forall j ::
                       (j in states[i].api.endpoints && j != k &&
                        states[i].api.endpoints[j].networkRef == r.bme.networkRef) ==>
                         IsListed(r.listed.value, states[i].api.endpoints[j])
  {
    InvInEveryRun(states, events, i);
    assert StepAt(states, events, i);
    var k := events[i].k;
    assert NetworkNext(states[i], events[i], states[i + 1]);
    assert NetworkRunOk(states[i].api, states[i].lock, k, states[i].networkRuns[k]);
    SpecIsAdmissible(states[i].api, states[i].lock, k, states[i].networkRuns[k]);
    hide Inv, IsRun, IsNext, Admissible, IsListed, Decide, ReadOk;
  }

  // ---------------------------------------------------------------- NICs

  lemma AtMostOneKey(keys: set<Key>)
    requires forall a, b :: a in keys && b in keys ==> a == b
    ensures |keys| <= 1
  {
    if keys != {} {
      var a :| a in keys;
      assert keys == {a};
    }
  }

  /** There never are two endpoints for one NIC of one instance. */
  lemma OneEndpointPerNic(states: seq<State>, events: seq<Event>, i: nat, instance: string, uid: nat, nic: string)
    requires IsRun(states, events) && i < |states|
    ensures |OwnedKeys(states[i].api, instance, uid, nic)| <= 1
    ensures StateOf(states[i].api, instance, uid, nic) != Multiple
  {
    InvInEveryRun(states, events, i);
    hide IsRun;
    var keys := OwnedKeys(states[i].api, instance, uid, nic);
    forall a, b | a in keys && b in keys ensures a == b {
      assert a != b ==> NotTwins(states[i].api.endpoints[a], states[i].api.endpoints[b]);
    }
    AtMostOneKey(keys);
  }

  /** A listing for a NIC never shows more than one endpoint either. */
  lemma ListingShowsOneEndpoint(states: seq<State>, events: seq<Event>, i: nat, k: Key)
    requires IsRun(states, events) && i < |states| && k in states[i].nicRuns && states[i].nicRuns[k].listed.Some?
    ensures |states[i].nicRuns[k].listed.value| <= 1
  {
    InvInEveryRun(states, events, i);
    assert NicRunOk(states[i].api, states[i].home, k, states[i].nicRuns[k]);
    hide Inv, IsRun;
    AtMostOneKey(states[i].nicRuns[k].listed.value.Keys);
  }

  // ---------------------------------------------------------------- deletion

  /** How many writes of Network a deleting endpoint may still need. */
  function Rank(bme: Endpoint): (r: nat)
    ensures r <= 3
  {
    if bme.phase == Deleted then 0
    else if bme.address.None? then 1
    else if bme.phase == Deleting then 2
    else 3
  }

  /** A write of Network for endpoint k gets through. */
  predicate Lands(s: State, e: Event, k: Key) {
    e.NetworkWrite? && e.k == k && k in s.networkRuns && FreshEndpoint(s.api, k, s.networkRuns[k].bme)
  }

  predicate BeingDeleted(s: State, k: Key) {
    k in s.api.endpoints && s.api.endpoints[k].deleting
  }

  lemma WriteLowersRank(bme: Endpoint, bmn: Option<Option<NetworkSpec>>)
    requires bme.deleting && Decide(bme, bmn).UpdateEndpoint?
    ensures Rank(Decide(bme, bmn).bme) < Rank(bme)
    ensures Decide(bme, bmn).bme.phase != NoEndpointPhase
  {
  }

  /** What a step does to an endpoint that is and stays being deleted. */
  lemma NextLowersRank(s: State, e: Event, s': State, k: Key)
    requires Inv(s) && Next(s, e, s') && BeingDeleted(s, k) && BeingDeleted(s', k)
    requires s.api.endpoints[k].phase != NoEndpointPhase
    ensures s'.api.endpoints[k].phase != NoEndpointPhase
    ensures Rank(s'.api.endpoints[k]) <= Rank(s.api.endpoints[k])
    ensures Lands(s, e, k) ==> Rank(s'.api.endpoints[k]) < Rank(s.api.endpoints[k])
  {
    hide Rank, NetworkNext, ControlNext, UserNext, NicsNext, WorldNext, EndpointsOk, NoClashes, NoTwins, NicRunsOk;
    if NetworkNext(s, e, s') {
      NetworkLowersRank(s, e, s', k);
    } else if ControlNext(s, e, s') {
      ControlKeepsRank(s, e, s', k);
    } else if UserNext(s, e, s') {
      UserKeepsRank(s, e, s', k);
    } else {
      OthersKeepEndpoint(s, e, s', k);
    }
  }

  lemma NetworkLowersRank(s: State, e: Event, s': State, k: Key)
    requires NetworkRunsOk(s) && NetworkNext(s, e, s') && BeingDeleted(s, k) && BeingDeleted(s', k)
    requires s.api.endpoints[k].phase != NoEndpointPhase
    ensures s'.api.endpoints[k].phase != NoEndpointPhase
    ensures Rank(s'.api.endpoints[k]) <= Rank(s.api.endpoints[k])
    ensures Lands(s, e, k) ==> Rank(s'.api.endpoints[k]) < Rank(s.api.endpoints[k])
  {
    hide IsNext, Rank, ListingOk, Admissible;
    if e.NetworkWrite? {
      var r := s.networkRuns[e.k];
      assert NetworkRunOk(s.api, s.lock, e.k, r);
      NetworkWriteVersion(r);
      if e.k == k && FreshEndpoint(s.api, k, r.bme) {
        WriteLowersRank(r.bme, r.bmn);
        hide Decide;
        PutKeepsRank(s.api, k, Decide(r.bme, r.bmn).bme);
      }
    } else if e.NetworkAssign? {
      assert NetworkRunOk(s.api, s.lock, e.k, s.networkRuns[e.k]);
    }
  }

  lemma PutKeepsRank(c: Registry, k: Key, obj: Endpoint)
    ensures var c' := PutEndpoint(c, k, obj);
            k in c'.endpoints ==> Rank(c'.endpoints[k]) == Rank(obj) && c'.endpoints[k].phase == obj.phase
  {
  }

  lemma ControlKeepsRank(s: State, e: Event, s': State, k: Key)
    requires ControlRunsOk(s) && ControlNext(s, e, s') && BeingDeleted(s, k) && BeingDeleted(s', k)
    ensures s'.api.endpoints[k].phase == s.api.endpoints[k].phase
    ensures Rank(s'.api.endpoints[k]) == Rank(s.api.endpoints[k]) && !Lands(s, e, k)
  {
    if e.ControlWrite? {
      assert ReadOk(s.api, e.k, s.controlRuns[e.k]);
    }
  }

  lemma UserKeepsRank(s: State, e: Event, s': State, k: Key)
    requires UserNext(s, e, s') && BeingDeleted(s, k) && BeingDeleted(s', k)
    ensures s'.api.endpoints[k].phase == s.api.endpoints[k].phase
    ensures Rank(s'.api.endpoints[k]) == Rank(s.api.endpoints[k]) && !Lands(s, e, k)
  {
  }

  lemma OthersKeepEndpoint(s: State, e: Event, s': State, k: Key)
    requires WorldNext(s, e, s') || NicsNext(s, e, s')
    requires BeingDeleted(s, k)
    ensures k in s'.api.endpoints && s'.api.endpoints[k] == s.api.endpoints[k] && !Lands(s, e, k)
  {
    hide Admissible;
  }

  /** How many writes of Network for endpoint k get through between two moments. */
  function LandedWrites(states: seq<State>, events: seq<Event>, k: Key, i: nat, j: nat): nat
    requires |states| == |events| + 1 && i <= j <= |events|
    decreases j
  {
    if i == j then 0
    else LandedWrites(states, events, k, i, j - 1) + if Lands(states[j - 1], events[j - 1], k) then 1 else 0
  }

  /** A deleting endpoint that has a phase is through with Network after at most three writes, and
      then without an address; its network may be there or not, or come and go. */
  lemma {:induction false} DeletionTakesThreeWrites(states: seq<State>, events: seq<Event>, i: nat, j: nat, k: Key)
    requires IsRun(states, events) && i <= j <= |events|
    requires forall m :: i <= m <= j ==> BeingDeleted(states[m], k)
    requires BeingDeleted(states[i], k) && states[i].api.endpoints[k].phase != NoEndpointPhase
    ensures BeingDeleted(states[j], k) && states[j].api.endpoints[k].phase != NoEndpointPhase
    ensures LandedWrites(states, events, k, i, j) + Rank(states[j].api.endpoints[k]) <= Rank(states[i].api.endpoints[k]) <= 3
    decreases j
  {
    hide Inv, Next, Rank, Lands;
    assert BeingDeleted(states[j], k);
    if i < j {
      assert BeingDeleted(states[j - 1], k);
      DeletionTakesThreeWrites(states, events, i, j - 1, k);
      InvInEveryRun(states, events, j - 1);
      assert StepAt(states, events, j - 1);
      NextLowersRank(states[j - 1], events[j - 1], states[j], k);
    }
  }

  // ---------------------------------------------------------------- deletion that never ends

  /** A pass of one of the controllers would change something now, whatever it finds of the network. */
  predicate CanMove(bme: Endpoint, found: Option<NetworkSpec>) {
    || (DecideControl(bme).UpdateEndpoint? && DecideControl(bme).bme != bme)
    || (Decide(bme, Some(found)).UpdateEndpoint? && Decide(bme, Some(found)).bme != bme)
  }

  /** It never got a phase, or refers to a network of another group or kind. */
  predicate Skipped(bme: Endpoint) {
    bme.phase == NoEndpointPhase || (!Ours(bme.networkRef) && bme.phase != Deleted)
  }

  /** A deleting endpoint that no controller would change is one that is skipped, or one that is
      done and held by somebody else's finalizer; it has no address to return. */
  lemma DeletionMovesIff(states: seq<State>, events: seq<Event>, i: nat, k: Key, found: Option<NetworkSpec>)
    requires IsRun(states, events) && i < |states| && BeingDeleted(states[i], k)
    ensures var bme := states[i].api.endpoints[k];
            && (!CanMove(bme, found) <==> Skipped(bme) || (bme.phase == Deleted && OwnFinalizer !in bme.finalizers))
            && (Skipped(bme) ==> bme.address == None && OwnFinalizer in bme.finalizers)
  {
    InvInEveryRun(states, events, i);
    assert EndpointOk(states[i].api, states[i].home, states[i].api.endpoints[k]);
    hide Inv, IsRun, AddressOk, OwnersOk;
  }

  /** Deleting and skipped. */
  predicate HeldUp(s: State, k: Key) {
    BeingDeleted(s, k) && Skipped(s.api.endpoints[k]) && OwnFinalizer in s.api.endpoints[k].finalizers
  }

  lemma NetworkSkips(bme: Endpoint, bmn: Option<Option<NetworkSpec>>)
    requires bme.deleting && Skipped(bme)
    ensures !Decide(bme, bmn).UpdateEndpoint? && !Decide(bme, bmn).FindAddress?
    ensures !DecideControl(bme).UpdateEndpoint?
  {
  }

  lemma NetworkHolds(s: State, e: Event, s': State, k: Key)
    requires NetworkRunsOk(s) && NetworkNext(s, e, s') && HeldUp(s, k)
    ensures HeldUp(s', k) && s'.api.endpoints[k] == s.api.endpoints[k]
  {
    hide IsNext, ListingOk, Admissible, Skipped;
    if e.NetworkWrite? || e.NetworkAssign? {
      var r := s.networkRuns[e.k];
      assert NetworkRunOk(s.api, s.lock, e.k, r);
      if e.k == k {
        if FreshEndpoint(s.api, k, r.bme) {
          NetworkSkips(r.bme, r.bmn);
        }
      }
      if e.NetworkWrite? {
        NetworkWriteVersion(r);
      }
      hide Decide;
    }
  }

  lemma ControlHolds(s: State, e: Event, s': State, k: Key)
    requires ControlRunsOk(s) && ControlNext(s, e, s') && HeldUp(s, k)
    ensures HeldUp(s', k) && s'.api.endpoints[k] == s.api.endpoints[k]
  {
    hide Skipped;
    if e.ControlWrite? {
      assert ReadOk(s.api, e.k, s.controlRuns[e.k]);
      if e.k == k && FreshEndpoint(s.api, k, s.controlRuns[k]) {
        NetworkSkips(s.controlRuns[k], None);
      }
    }
  }

  lemma UserHolds(s: State, e: Event, s': State, k: Key)
    requires UserNext(s, e, s') && HeldUp(s, k)
    ensures HeldUp(s', k) && s'.api.endpoints[k].phase == s.api.endpoints[k].phase
    ensures s'.api.endpoints[k].networkRef == s.api.endpoints[k].networkRef
  {
  }

  /** No step lets go of an endpoint that is held up. */
  lemma NextHolds(s: State, e: Event, s': State, k: Key)
    requires Inv(s) && Next(s, e, s') && HeldUp(s, k)
    ensures HeldUp(s', k) && s'.api.endpoints[k].phase == s.api.endpoints[k].phase
    ensures s'.api.endpoints[k].networkRef == s.api.endpoints[k].networkRef
  {
    hide NetworkNext, ControlNext, UserNext, NicsNext, WorldNext, EndpointsOk, NoClashes, NoTwins, NicRunsOk, Skipped;
    if NetworkNext(s, e, s') {
      NetworkHolds(s, e, s', k);
    } else if ControlNext(s, e, s') {
      ControlHolds(s, e, s', k);
    } else if UserNext(s, e, s') {
      UserHolds(s, e, s', k);
    } else {
      OthersKeepEndpoint(s, e, s', k);
    }
  }

  /** Once a deleting endpoint is skipped, it is stored for good: in every continuation it is still
      being deleted, with the phase and the network it had. */
  lemma {:induction false} SkippedForGood(states: seq<State>, events: seq<Event>, i: nat, j: nat, k: Key)
    requires IsRun(states, events) && i <= j < |states|
    requires BeingDeleted(states[i], k) && Skipped(states[i].api.endpoints[k])
    ensures BeingDeleted(states[j], k) && Skipped(states[j].api.endpoints[k])
    ensures states[j].api.endpoints[k].phase == states[i].api.endpoints[k].phase
    ensures states[j].api.endpoints[k].networkRef == states[i].api.endpoints[k].networkRef
    ensures HeldUp(states[j], k)
    decreases j
  {
    if i == j {
      DeletionMovesIff(states, events, i, k, None);
    } else {
      hide Inv, Next, Skipped;
      SkippedForGood(states, events, i, j - 1, k);
      InvInEveryRun(states, events, j - 1);
      assert StepAt(states, events, j - 1);
      NextHolds(states[j - 1], events[j - 1], states[j], k);
    }
  }

  /** A run of two events: an endpoint that is deleted before a controller sees it is never let go. */
  lemma DeletedTooSoon(k: Key, obj: Endpoint) returns (states: seq<State>, events: seq<Event>)
    requires NewlyCreated(obj) && obj.owners == {}
    ensures IsRun(states, events) && events == [CreateEndpoint(k, obj), DeleteEndpoint(k)]
    ensures BeingDeleted(states[2], k) && Skipped(states[2].api.endpoints[k])
    ensures states[2].api.endpoints[k].phase == NoEndpointPhase
  {
    var s1 := INIT.(api := PutEndpoint(INIT.api, k, obj));
    var s2 := s1.(api := WithDeletion(s1.api, k));
    states, events := [INIT, s1, s2], [CreateEndpoint(k, obj), DeleteEndpoint(k)];
    assert UserNext(INIT, events[0], s1) && UserNext(s1, events[1], s2);
    hide UserNext, NetworkNext, ControlNext, NicsNext, WorldNext;
    assert StepAt(states, events, 0) && StepAt(states, events, 1);
  }

  /** A run of four events: so is an endpoint of somebody else's network once it has a phase. */
  lemma DeletedElsewhere(k: Key, obj: Endpoint) returns (states: seq<State>, events: seq<Event>)
    requires NewlyCreated(obj) && obj.owners == {} && !Ours(obj.networkRef)
    ensures IsRun(states, events)
    ensures events == [CreateEndpoint(k, obj), ControlRead(k), ControlWrite(k), DeleteEndpoint(k)]
    ensures BeingDeleted(states[4], k) && Skipped(states[4].api.endpoints[k])
    ensures states[4].api.endpoints[k].phase == EndpointPending
  {
    var s1 := INIT.(api := PutEndpoint(INIT.api, k, obj));
    var read := s1.api.endpoints[k];
    var s2 := s1.(controlRuns := map[k := read]);
    var s3 := s1.(api := PutEndpoint(s1.api, k, read.(phase := EndpointPending)));
    var s4 := s3.(api := WithDeletion(s3.api, k));
    states := [INIT, s1, s2, s3, s4];
    events := [CreateEndpoint(k, obj), ControlRead(k), ControlWrite(k), DeleteEndpoint(k)];
    assert UserNext(INIT, events[0], s1) && UserNext(s3, events[3], s4);
    hide UserNext, NetworkNext, NicsNext, WorldNext;
    GetsPhase(s1, k);
    hide ControlNext;
    assert StepAt(states, events, 0) && StepAt(states, events, 1) && StepAt(states, events, 2) && StepAt(states, events, 3);
  }

  lemma GetsPhase(s: State, k: Key)
    requires s.controlRuns == map[] && k in s.api.endpoints
    requires !s.api.endpoints[k].deleting && s.api.endpoints[k].phase == NoEndpointPhase
    ensures var s2 := s.(controlRuns := map[k := s.api.endpoints[k]]);
            && ControlNext(s, ControlRead(k), s2)
            && ControlNext(s2, ControlWrite(k), s.(api := PutEndpoint(s.api, k, s.api.endpoints[k].(phase := EndpointPending))))
  {
    var s2 := s.(controlRuns := map[k := s.api.endpoints[k]]);
    assert s2.controlRuns - {k} == s.controlRuns;
  }
}
