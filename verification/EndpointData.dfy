// From the loop over the NICs to the network data: a networked instance gets data with exactly
// one primary network.
module EndpointData {
  import opened Common
  import opened Objects
  import opened Endpoints
  import opened Networking
  import opened EndpointRuns
  import opened EndpointInvariant
  import opened EndpointSteps
  import opened EndpointFrames
  import opened EndpointPasses
  import Allocator
  import HardwareWebhook
  import NetworkData
  import Networks

  // ---------------------------------------------------------------- endpoints come from the NICs

  /** The event reads no other NICs for the instance, and changes no primary flag of its endpoints. */
  predicate Unedited(s: State, e: Event, uid: nat, nics: seq<NIC>) {
    && (e.NicsRead? && e.k in s.instances && s.instances[e.k] == uid ==> e.nics == nics)
    && (e.EditEndpoint? && e.k in s.api.endpoints && uid in s.api.endpoints[e.k].owners ==>
          e.primary == s.api.endpoints[e.k].primary)
  }

  ghost predicate UneditedUntil(states: seq<State>, events: seq<Event>, t: nat, uid: nat, nics: seq<NIC>)
    requires t <= |events| && |states| == |events| + 1
  {
    forall j :: 0 <= j < t ==> Unedited(states[j], events[j], uid, nics)
  }

  ghost predicate FromNics(uid: nat, nics: seq<NIC>, bme: Endpoint) {
    uid in bme.owners ==> NetworkData.SomeNic(nics, bme)
  }

  /** Every endpoint of the instance is for one of the NICs, and every pass is over them. */
  ghost predicate AllFromNics(s: State, uid: nat, nics: seq<NIC>) {
    && (forall k :: k in s.api.endpoints ==> FromNics(uid, nics, s.api.endpoints[k]))
    && (forall k :: k in s.nicRuns && s.nicRuns[k].uid == uid ==> s.nicRuns[k].nics == nics)
  }

  lemma SameLabels(uid: nat, nics: seq<NIC>, a: Endpoint, b: Endpoint)
    requires FromNics(uid, nics, a) && b.owners == a.owners && b.nicLabel == a.nicLabel && b.primary == a.primary
    ensures FromNics(uid, nics, b)
  {
  }

  lemma NewFromNics(instance: string, uid: nat, nics: seq<NIC>, r: NicRun, n: nat, macs: seq<string>)
    requires n < |r.nics| && macs != [] && (r.uid == uid ==> r.nics == nics)
    ensures FromNics(uid, nics, NewEndpoint(instance, r.uid, r.nics[n], macs))
  {
  }

  lemma PutFromNics(s: State, k: Key, obj: Endpoint, uid: nat, nics: seq<NIC>)
    requires AllFromNics(s, uid, nics) && FromNics(uid, nics, obj)
    ensures AllFromNics(s.(api := PutEndpoint(s.api, k, obj)), uid, nics)
  {
    SameLabels(uid, nics, obj, obj.(version := s.api.revision + 1));
    hide FromNics;
  }

  lemma SameFromNics(s: State, s': State, uid: nat, nics: seq<NIC>)
    requires AllFromNics(s, uid, nics) && s'.api.endpoints == s.api.endpoints && s'.nicRuns == s.nicRuns
    ensures AllFromNics(s', uid, nics)
  {
    hide FromNics;
  }

  lemma UserFromNics(s: State, e: Event, s': State, uid: nat, nics: seq<NIC>)
    requires AllFromNics(s, uid, nics) && Unedited(s, e, uid, nics) && UserNext(s, e, s')
    ensures AllFromNics(s', uid, nics)
  {
    hide NetworkData.SomeNic, AllFromNics;
    match e {
      case CreateEndpoint(k, obj) => PutFromNics(s, k, obj, uid, nics);
      case EditEndpoint(k, primary) =>
        StoredFromNics(s, k, uid, nics);
        PutFromNics(s, k, s.api.endpoints[k].(primary := primary), uid, nics);
      case DeleteEndpoint(k) =>
        if s' != s {
          StoredFromNics(s, k, uid, nics);
          PutFromNics(s, k, s.api.endpoints[k].(deleting := true), uid, nics);
        }
      case ReleaseEndpoint(k, f) =>
        StoredFromNics(s, k, uid, nics);
        PutFromNics(s, k, s.api.endpoints[k].(finalizers := s.api.endpoints[k].finalizers - {f}), uid, nics);
    }
  }

  lemma StoredFromNics(s: State, k: Key, uid: nat, nics: seq<NIC>)
    requires AllFromNics(s, uid, nics) && k in s.api.endpoints
    ensures FromNics(uid, nics, s.api.endpoints[k])
    ensures forall b: Endpoint ::
              (b.owners == s.api.endpoints[k].owners && b.nicLabel == s.api.endpoints[k].nicLabel
               && (uid in b.owners ==> b.primary == s.api.endpoints[k].primary)) ==> FromNics(uid, nics, b)
  {
  }

  lemma NetworkFromNics(s: State, e: Event, s': State, uid: nat, nics: seq<NIC>)
    requires AllFromNics(s, uid, nics) && NetworkRunsOk(s) && NetworkNext(s, e, s')
    ensures AllFromNics(s', uid, nics)
  {
    hide NetworkData.SomeNic, AllFromNics, Allocator.IsNext, Networks.Admissible, ListingOk, FromNics;
    if e.NetworkWrite? {
      var r := s.networkRuns[e.k];
      assert NetworkRunOk(s.api, s.lock, e.k, r);
      DecisionsKeepPrimary(r);
      DecisionsKeepLabels(r);
      if FreshEndpoint(s.api, e.k, r.bme) {
        StoredFromNics(s, e.k, uid, nics);
        hide Decide;
        SameLabels(uid, nics, s.api.endpoints[e.k], Decide(r.bme, r.bmn).bme);
        PutFromNics(s, e.k, Decide(r.bme, r.bmn).bme, uid, nics);
        SameFromNics(s.(api := s'.api), s', uid, nics);
      } else {
        NetworkWriteVersion(r);
        SameFromNics(s, s', uid, nics);
      }
    } else if e.NetworkAssign? && FreshEndpoint(s.api, e.k, s.networkRuns[e.k].bme) {
      var r := s.networkRuns[e.k];
      assert NetworkRunOk(s.api, s.lock, e.k, r);
      var obj := r.bme.(address := Some(AddressFrom(Decide(r.bme, r.bmn).spec, e.ip)));
      StoredFromNics(s, e.k, uid, nics);
      hide Decide;
      SameLabels(uid, nics, s.api.endpoints[e.k], obj);
      PutFromNics(s, e.k, obj, uid, nics);
      SameFromNics(s.(api := s'.api), s', uid, nics);
    } else {
      hide Decide;
      SameFromNics(s, s', uid, nics);
    }
  }

  lemma DecisionsKeepLabels(r: NetworkRun)
    ensures Decide(r.bme, r.bmn).UpdateEndpoint? ==>
              Decide(r.bme, r.bmn).bme.owners == r.bme.owners && Decide(r.bme, r.bmn).bme.nicLabel == r.bme.nicLabel
  {
  }

  lemma ControlFromNics(s: State, e: Event, s': State, uid: nat, nics: seq<NIC>)
    requires AllFromNics(s, uid, nics) && ControlRunsOk(s) && ControlNext(s, e, s')
    ensures AllFromNics(s', uid, nics)
  {
    hide NetworkData.SomeNic, AllFromNics, FromNics;
    if e.ControlWrite? && FreshEndpoint(s.api, e.k, s.controlRuns[e.k]) {
      assert ReadOk(s.api, e.k, s.controlRuns[e.k]);
      StoredFromNics(s, e.k, uid, nics);
      SameLabels(uid, nics, s.api.endpoints[e.k], DecideControl(s.controlRuns[e.k]).bme);
      PutFromNics(s, e.k, DecideControl(s.controlRuns[e.k]).bme, uid, nics);
      SameFromNics(s.(api := s'.api), s', uid, nics);
    } else {
      SameFromNics(s, s', uid, nics);
    }
  }

  lemma NicsFromNics(s: State, e: Event, s': State, uid: nat, nics: seq<NIC>)
    requires AllFromNics(s, uid, nics) && Unedited(s, e, uid, nics) && NicsNext(s, e, s')
    ensures AllFromNics(s', uid, nics)
  {
    hide Macs, OwnedListing, FromNics;
    if e.NicCreate? {
      var r := s.nicRuns[e.k];
      NewFromNics(e.k.name, uid, nics, r, |r.seen|, Macs(r.nics[|r.seen|], r.found.value.nics));
      var nic := r.nics[|r.seen|];
      PutFromNics(s, e.generated, NewEndpoint(e.k.name, r.uid, nic, Macs(nic, r.found.value.nics)), uid, nics);
    }
  }

  lemma NextFromNics(s: State, e: Event, s': State, uid: nat, nics: seq<NIC>)
    requires Inv(s) && AllFromNics(s, uid, nics) && Unedited(s, e, uid, nics) && Next(s, e, s')
    ensures AllFromNics(s', uid, nics)
  {
    hide AllFromNics, Unedited, UserNext, NetworkNext, ControlNext, NicsNext, Networks.Admissible;
    hide EndpointsOk, NetworkRunsOk, ControlRunsOk, NicRunsOk, NoClashes, NoTwins;
    if UserNext(s, e, s') {
      UserFromNics(s, e, s', uid, nics);
    } else if NetworkNext(s, e, s') {
      NetworkFromNics(s, e, s', uid, nics);
    } else if ControlNext(s, e, s') {
      ControlFromNics(s, e, s', uid, nics);
    } else if NicsNext(s, e, s') {
      NicsFromNics(s, e, s', uid, nics);
    } else {
      SameFromNics(s, s', uid, nics);
    }
  }

  lemma {:induction false} EndpointsComeFromNics(states: seq<State>, events: seq<Event>, t: nat, uid: nat, nics: seq<NIC>)
    requires IsRun(states, events) && t <= |events| && UneditedUntil(states, events, t, uid, nics)
    ensures AllFromNics(states[t], uid, nics)
  {
    if t > 0 {
      hide Inv, Next, AllFromNics, Unedited;
      EndpointsComeFromNics(states, events, t - 1, uid, nics);
      InvInEveryRun(states, events, t - 1);
      assert StepAt(states, events, t - 1);
      NextFromNics(states[t - 1], events[t - 1], states[t], uid, nics);
    }
  }

  // ---------------------------------------------------------------- endpoints that were seen stay

  /** No endpoint of the instance is being deleted. */
  ghost predicate NoneDeleting(c: Registry, uid: nat) {
    forall k :: k in c.endpoints && uid in c.endpoints[k].owners ==> !c.endpoints[k].deleting
  }

  /** None is during the pass that is in flight at i, nor from i to t. */
  ghost predicate NoneDeletedSince(states: seq<State>, k: Key, i: nat, t: nat, uid: nat)
    requires i < |states| && t < |states|
  {
    forall j :: 0 <= j <= t && (j >= i || InPass(states, k, j, i)) ==> NoneDeleting(states[j].api, uid)
  }

  /** The endpoint at key j is the instance's, for that NIC, and addressed. */
  predicate IsAddressed(c: Registry, uid: nat, nic: NIC, j: Key) {
    j in c.endpoints && MadeForNic(c.endpoints[j], uid, nic) && c.endpoints[j].phase == Addressed
  }

  lemma AddressedStays(s: State, e: Event, s': State, uid: nat, nic: NIC, j: Key)
    requires Inv(s) && Next(s, e, s') && IsAddressed(s.api, uid, nic, j)
    requires NoneDeleting(s.api, uid) && NoneDeleting(s'.api, uid)
    ensures IsAddressed(s'.api, uid, nic, j)
  {
    hide Inv, Next;
    EndpointStays(s, e, s', j);
  }

  lemma {:induction false} AddressedStaysUntil(states: seq<State>, events: seq<Event>, m: nat, t: nat, uid: nat, nic: NIC, j: Key)
    requires IsRun(states, events) && m <= t < |states| && IsAddressed(states[m].api, uid, nic, j)
    requires forall l :: m <= l <= t ==> NoneDeleting(states[l].api, uid)
    ensures IsAddressed(states[t].api, uid, nic, j)
    decreases t
  {
    if m < t {
      hide Inv, Next, IsAddressed, NoneDeleting;
      AddressedStaysUntil(states, events, m, t - 1, uid, nic, j);
      InvInEveryRun(states, events, t - 1);
      assert StepAt(states, events, t - 1);
      assert NoneDeleting(states[t - 1].api, uid) && NoneDeleting(states[t].api, uid);
      AddressedStays(states[t - 1], events[t - 1], states[t], uid, nic, j);
    }
  }

  /** Event i networks instance k, and until t the NICs and flags are unedited and none of its
      endpoints is deleted. */
  ghost predicate NetworkedUndisturbed(states: seq<State>, events: seq<Event>, i: nat, t: nat, k: Key)
    requires |states| == |events| + 1
  {
    && i < |events| && i <= t <= |events|
    && events[i] == NicsNetworked(k) && k in states[i].nicRuns
    && UneditedUntil(states, events, t, states[i].nicRuns[k].uid, states[i].nicRuns[k].nics)
    && NoneDeletedSince(states, k, i, t, states[i].nicRuns[k].uid)
  }

  lemma InPassLater(states: seq<State>, k: Key, m: nat, i: nat, l: nat)
    requires i < |states| && InPass(states, k, m, i) && m <= l <= i
    ensures InPass(states, k, l, i)
  {
  }

  /** Every NIC keeps the endpoint it was seen with, addressed. */
  lemma NicStaysAddressed(states: seq<State>, events: seq<Event>, i: nat, t: nat, k: Key, n: nat)
    requires IsRun(states, events) && NetworkedUndisturbed(states, events, i, t, k)
    requires n < |states[i].nicRuns[k].nics|
    ensures n < |states[i].nicRuns[k].seen|
    ensures IsAddressed(states[t].api, states[i].nicRuns[k].uid, states[i].nicRuns[k].nics[n], states[i].nicRuns[k].seen[n])
  {
    hide Inv, Next, InPass, UneditedUntil, NoneDeleting;
    assert StepAt(states, events, i);
    AllSeen(states[i], events[i], states[i + 1]);
    var r := states[i].nicRuns[k];
    var m := SeenWasAddressed(states, events, i, k, n);
    SeenIsAddressed(states[m].api, k.name, r.uid, r.nics[n], r.seen[n]);
    forall l | m <= l <= t ensures NoneDeleting(states[l].api, r.uid) {
      if l <= i {
        InPassLater(states, k, m, i, l);
      }
    }
    AddressedStaysUntil(states, events, m, t, r.uid, r.nics[n], r.seen[n]);
  }

  lemma SeenIsAddressed(c: Registry, instance: string, uid: nat, nic: NIC, j: Key)
    requires OnlyAddressed(c, instance, uid, nic.name, j)
    ensures IsAddressed(c, uid, nic, j)
  {
    assert j in OwnedKeys(c, instance, uid, nic.name);
  }

  // ---------------------------------------------------------------- the network data

  /** The endpoints listed for an instance, in any order. */
  ghost predicate ListsInstance(c: Registry, instance: string, names: seq<Key>, list: seq<Endpoint>) {
    && |names| == |list|
    && (forall a, b :: 0 <= a < b < |names| ==> names[a] != names[b])
    && (forall j :: j in names <==> j in c.endpoints && c.endpoints[j].instanceLabel == Some(instance))
    && (forall a :: 0 <= a < |names| ==> list[a] == c.endpoints[names[a]])
  }

  /** No two relevant endpoints of the list are for one NIC. */
  ghost predicate DistinctLabels(list: seq<Endpoint>, uid: nat) {
    forall a, b :: 0 <= a < b < |list| && NetworkData.Relevant(list[a], uid) && NetworkData.Relevant(list[b], uid) ==>
      list[a].nicLabel != list[b].nicLabel
  }

  lemma {:induction false} OursHaveDistinctLabels(list: seq<Endpoint>, uid: nat)
    requires DistinctLabels(list, uid)
    ensures var ours := NetworkData.Ours(list, uid);
            forall a, b :: 0 <= a < b < |ours| ==> ours[a].nicLabel != ours[b].nicLabel
  {
    if list != [] {
      var rest, ours := list[1..], NetworkData.Ours(list[1..], uid);
      OursHaveDistinctLabels(rest, uid);
      if NetworkData.Relevant(list[0], uid) {
        assert NetworkData.Ours(list, uid) == [list[0]] + ours;
        forall b | 0 <= b < |ours| ensures list[0].nicLabel != ours[b].nicLabel {
          assert ours[b] in rest;
          var c :| 0 <= c < |rest| && rest[c] == ours[b];
          assert list[c + 1] == ours[b];
        }
      } else {
        assert NetworkData.Ours(list, uid) == ours;
      }
    }
  }

  lemma ListHasDistinctLabels(s: State, instance: string, uid: nat, names: seq<Key>, list: seq<Endpoint>)
    requires NoTwins(s.api) && ListsInstance(s.api, instance, names, list)
    ensures DistinctLabels(list, uid)
  {
    forall a, b | 0 <= a < b < |list| && NetworkData.Relevant(list[a], uid) && NetworkData.Relevant(list[b], uid)
      ensures list[a].nicLabel != list[b].nicLabel
    {
      assert names[a] in names && names[b] in names;
      assert NotTwins(s.api.endpoints[names[a]], s.api.endpoints[names[b]]);
    }
  }

  /** An endpoint of the instance is listed, and so is one of ours. */
  lemma ListedIsOurs(c: Registry, home: map<nat, Key>, instance: Key, uid: nat,
                     names: seq<Key>, list: seq<Endpoint>, nic: NIC, j: Key)
    requires ListsInstance(c, instance.name, names, list) && EndpointsOk(c, home)
    requires uid in home && home[uid] == instance && IsAddressed(c, uid, nic, j)
    ensures NetworkData.SomeEndpoint(NetworkData.Ours(list, uid), nic)
  {
    hide AddressOk, Ours;
    assert EndpointOk(c, home, c.endpoints[j]);
    assert j in names;
    var a :| 0 <= a < |names| && names[a] == j;
    var ours := NetworkData.Ours(list, uid);
    assert list[a] in list && list[a] in ours;
    var b :| 0 <= b < |ours| && ours[b] == list[a];
  }

  /** One of ours is a stored endpoint. */
  lemma OursAreStored(c: Registry, instance: string, uid: nat, names: seq<Key>, list: seq<Endpoint>, bme: Endpoint)
    returns (j: Key)
    requires ListsInstance(c, instance, names, list) && bme in NetworkData.Ours(list, uid)
    ensures j in c.endpoints && c.endpoints[j] == bme && NetworkData.Relevant(bme, uid)
  {
    assert bme in list;
    var a :| 0 <= a < |list| && list[a] == bme;
    assert names[a] in names;
    j := names[a];
  }

  /** An endpoint for a NIC that has an addressed one is that one, with a usable address. */
  lemma OneIsUsable(s: State, uid: nat, nic: NIC, j: Key, seen: Key)
    requires Inv(s) && IsAddressed(s.api, uid, nic, seen) && NoneDeleting(s.api, uid)
    requires j in s.api.endpoints && MadeForNic(s.api.endpoints[j], uid, nic)
    ensures NetworkData.HasAddress(s.api.endpoints[j]) && s.api.endpoints[j].address.value.gateway.Some?
  {
    assert j != seen ==> NotTwins(s.api.endpoints[j], s.api.endpoints[seen]);
    assert EndpointOk(s.api, s.home, s.api.endpoints[j]);
    hide Inv;
  }

  lemma UsableAt(states: seq<State>, events: seq<Event>, i: nat, t: nat, k: Key, bme: Endpoint, j: Key)
    requires IsRun(states, events) && NetworkedUndisturbed(states, events, i, t, k)
    requires j in states[t].api.endpoints && states[t].api.endpoints[j] == bme && states[i].nicRuns[k].uid in bme.owners
    ensures NetworkData.SomeNic(states[i].nicRuns[k].nics, bme)
    ensures NetworkData.HasAddress(bme) && bme.address.value.gateway.Some?
  {
    hide Inv, Next;
    var r := states[i].nicRuns[k];
    EndpointsComeFromNics(states, events, t, r.uid, r.nics);
    assert FromNics(r.uid, r.nics, bme);
    var n := NetworkData.NicOf(r.nics, bme);
    NicStaysAddressed(states, events, i, t, k, n);
    InvInEveryRun(states, events, t);
    assert NoneDeleting(states[t].api, r.uid);
    OneIsUsable(states[t], r.uid, r.nics[n], j, r.seen[n]);
  }

  lemma PassIsHome(states: seq<State>, events: seq<Event>, i: nat, t: nat, k: Key)
    requires IsRun(states, events) && i <= t < |states| && k in states[i].nicRuns
    ensures states[i].nicRuns[k].uid in states[t].home && states[t].home[states[i].nicRuns[k].uid] == k
    decreases t
  {
    hide Inv, Next;
    if t == i {
      InvInEveryRun(states, events, i);
      RunIsHome(states[i], k);
    } else {
      PassIsHome(states, events, i, t - 1, k);
      assert StepAt(states, events, t - 1);
      HomesStay(states[t - 1], events[t - 1], states[t], states[i].nicRuns[k].uid);
    }
  }

  lemma RunIsHome(s: State, k: Key)
    requires Inv(s) && k in s.nicRuns
    ensures s.nicRuns[k].uid in s.home && s.home[s.nicRuns[k].uid] == k
  {
    assert NicRunOk(s.api, s.home, k, s.nicRuns[k]);
  }

  lemma ControllersKeepHomes(s: State, e: Event, s': State)
    requires UserNext(s, e, s') || NetworkNext(s, e, s') || ControlNext(s, e, s')
    ensures s'.home == s.home
  {
    hide Decide, Networks.Admissible, Allocator.IsNext;
  }

  lemma PassesKeepHomes(s: State, e: Event, s': State)
    requires NicsNext(s, e, s')
    ensures s'.home == s.home
  {
    hide Macs, OwnedListing;
  }

  lemma HomesStay(s: State, e: Event, s': State, uid: nat)
    requires Next(s, e, s') && uid in s.home
    ensures uid in s'.home && s'.home[uid] == s.home[uid]
  {
    hide UserNext, NetworkNext, ControlNext, NicsNext, Networks.Admissible;
    if NicsNext(s, e, s') {
      PassesKeepHomes(s, e, s');
    } else if !WorldNext(s, e, s') {
      ControllersKeepHomes(s, e, s');
    }
  }

  /** The endpoints of a networked instance are one for each NIC, with the NIC's primary flag. */
  lemma NetworkedHasOnePerNic(states: seq<State>, events: seq<Event>, i: nat, t: nat, k: Key,
                              names: seq<Key>, list: seq<Endpoint>)
    requires IsRun(states, events) && NetworkedUndisturbed(states, events, i, t, k)
    requires ListsInstance(states[t].api, k.name, names, list)
    ensures var r := states[i].nicRuns[k];
            var ours := NetworkData.Ours(list, r.uid);
            && NetworkData.OnePerNic(ours, r.nics)
            && forall a :: 0 <= a < |ours| ==> NetworkData.HasAddress(ours[a]) && ours[a].address.value.gateway.Some?
  {
    hide Inv, Next, ListsInstance, NetworkData.Ours, NetworkData.SomeNic, NetworkData.SomeEndpoint;
    InvInEveryRun(states, events, t);
    PassIsHome(states, events, i, t, k);
    hide UneditedUntil, NoneDeletedSince;
    var s, r := states[t], states[i].nicRuns[k];
    var ours := NetworkData.Ours(list, r.uid);
    InvParts(s);
    forall n | 0 <= n < |r.nics| ensures NetworkData.SomeEndpoint(ours, r.nics[n]) {
      NicStaysAddressed(states, events, i, t, k, n);
      ListedIsOurs(s.api, s.home, k, r.uid, names, list, r.nics[n], r.seen[n]);
    }
    ListHasDistinctLabels(s, k.name, r.uid, names, list);
    OursHaveDistinctLabels(list, r.uid);
    forall a | 0 <= a < |ours|
      ensures NetworkData.SomeNic(r.nics, ours[a])
      ensures NetworkData.HasAddress(ours[a]) && ours[a].address.value.gateway.Some?
    {
      var j := OursAreStored(s.api, k.name, r.uid, names, list, ours[a]);
      UsableAt(states, events, i, t, k, ours[a], j);
    }
  }

  lemma InvParts(s: State)
    requires Inv(s)
    ensures NoTwins(s.api) && EndpointsOk(s.api, s.home)
  {
  }

  /** From the moment an instance is networked, and as long as its NICs and flags are unedited and
      its endpoints undeleted, network data can be made of it, every name in it resolves, and if
      its NIC list is admitted and not empty, exactly one network carries the gateway. */
  lemma NetworkedInstanceHasData(states: seq<State>, events: seq<Event>, i: nat, t: nat, k: Key,
                                 names: seq<Key>, list: seq<Endpoint>)
    requires IsRun(states, events) && NetworkedUndisturbed(states, events, i, t, k)
    requires ListsInstance(states[t].api, k.name, names, list)
    ensures var r := states[i].nicRuns[k];
            var data := NetworkData.DataOf(list, r.uid);
            && data.Some? && NetworkData.Resolves(data.value)
            && |data.value.networks| == |NetworkData.Ours(list, r.uid)|
            && (HardwareWebhook.NicsAllowed(r.nics) && r.nics != [] ==>
                  exists p :: NetworkData.OnlyGateway(data.value.networks, p))
  {
    NetworkedHasOnePerNic(states, events, i, t, k, names, list);
    hide IsRun, NetworkedUndisturbed, ListsInstance, NetworkData.OnePerNic, HardwareWebhook.NicsAllowed, NetworkData.Resolves;
    var r := states[i].nicRuns[k];
    OursUsable(list, r.uid);
    NetworkData.LinksResolve(list, r.uid);
    NetworkData.NetworksOfOurs(list, r.uid);
    if HardwareWebhook.NicsAllowed(r.nics) && r.nics != [] {
      NetworkData.OnePrimaryNetwork(list, r.uid, r.nics);
    }
  }

  lemma OursUsable(list: seq<Endpoint>, uid: nat)
    requires var ours := NetworkData.Ours(list, uid);
             forall a :: 0 <= a < |ours| ==> NetworkData.HasAddress(ours[a])
    ensures NetworkData.DataOf(list, uid).Some?
  {
    NetworkData.NoDataIff(list, uid);
    var ours := NetworkData.Ours(list, uid);
    forall a | 0 <= a < |list| && NetworkData.Relevant(list[a], uid) ensures NetworkData.HasAddress(list[a]) {
      assert list[a] in list && list[a] in ours;
    }
  }
}
