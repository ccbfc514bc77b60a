// Where the addresses of endpoints lie: as long as every network stops short of the greatest
// address, every address that is stored at any time is in the block of its network.
module EndpointBlocks {
  import opened Common
  import opened Networks
  import opened Allocator
  import opened Endpoints
  import opened Networking
  import opened EndpointRuns
  import opened EndpointInvariant
  import opened EndpointSteps
  import Addresses

  predicate IsShort(spec: NetworkSpec) {
    spec.end.Some? && !EndsAtTop(spec)
  }

  /** Networks are only created with a range that stops short of the greatest address. */
  ghost predicate OnlyShort(events: seq<Event>) {
    forall i :: 0 <= i < |events| && events[i].CreateNetwork? ==> IsShort(events[i].spec)
  }

  predicate AddressInBlock(bme: Endpoint) {
    bme.address.Some? && bme.address.value.cidr.Some? ==> InBlock(bme.address.value.cidr.value, bme.address.value.ip)
  }

  ghost predicate AllInBlock(c: Registry) {
    forall k :: k in c.endpoints ==> AddressInBlock(c.endpoints[k])
  }

  ghost predicate AllShort(s: State) {
    && (forall k :: k in s.api.networks ==> IsShort(s.api.networks[k]))
    && (forall k :: k in s.networkRuns && s.networkRuns[k].bmn.Some? && s.networkRuns[k].bmn.value.Some? ==>
          IsShort(s.networkRuns[k].bmn.value.value))
  }

  lemma PutInBlock(c: Registry, k: Key, obj: Endpoint)
    requires AllInBlock(c) && AddressInBlock(obj)
    ensures AllInBlock(PutEndpoint(c, k, obj))
  {
    hide InBlock;
  }

  lemma SameInBlock(c: Registry, c': Registry)
    requires AllInBlock(c) && c'.endpoints == c.endpoints
    ensures AllInBlock(c')
  {
    hide AddressInBlock;
  }

  lemma StoredInBlock(c: Registry, k: Key, obj: Endpoint)
    requires AllInBlock(c) && k in c.endpoints && SameOrNoAddress(c.endpoints[k], obj)
    ensures AddressInBlock(obj)
  {
    hide InBlock;
    assert AddressInBlock(c.endpoints[k]);
  }

  lemma UserInBlock(s: State, e: Event, s': State)
    requires AllInBlock(s.api) && UserNext(s, e, s')
    ensures AllInBlock(s'.api)
  {
    hide AllInBlock, InBlock;
    match e {
      case CreateEndpoint(k, obj) => PutInBlock(s.api, k, obj);
      case EditEndpoint(k, primary) =>
        StoredInBlock(s.api, k, s.api.endpoints[k].(primary := primary));
        PutInBlock(s.api, k, s.api.endpoints[k].(primary := primary));
      case DeleteEndpoint(k) =>
        if s' != s {
          StoredInBlock(s.api, k, s.api.endpoints[k].(deleting := true));
          PutInBlock(s.api, k, s.api.endpoints[k].(deleting := true));
        }
      case ReleaseEndpoint(k, f) =>
        var obj := s.api.endpoints[k].(finalizers := s.api.endpoints[k].finalizers - {f});
        StoredInBlock(s.api, k, obj);
        PutInBlock(s.api, k, obj);
    }
  }

  lemma FoundInBlock(spec: NetworkSpec, listed: Listed, ip: IP16, bme: Endpoint)
    requires Parsed(spec) && EndsInCidr(spec) && IsShort(spec) && IsNext(spec, listed, Some(ip))
    ensures AddressInBlock(bme.(address := Some(AddressFrom(spec, ip))))
  {
    AllocatedIsUsable(spec, listed, ip);
    hide Contains, Addresses.Value, InBlock, IsNext;
  }

  lemma AssignsForShort(s: State, k: Key)
    requires AllShort(s) && NetworkRunsOk(s) && k in s.networkRuns
    requires Decide(s.networkRuns[k].bme, s.networkRuns[k].bmn).FindAddress?
    ensures var spec := Decide(s.networkRuns[k].bme, s.networkRuns[k].bmn).spec;
            Admissible(spec) && IsShort(spec)
  {
    var r := s.networkRuns[k];
    assert NetworkRunOk(s.api, s.lock, k, r);
    SpecIsAdmissible(s.api, s.lock, k, r);
    hide Admissible, IsShort;
    assert r.bmn == Some(Some(Decide(r.bme, r.bmn).spec));
  }

  lemma AssignInBlock(s: State, e: Event, s': State)
    requires AllInBlock(s.api) && AllShort(s) && NetworkRunsOk(s) && NetworkNext(s, e, s') && e.NetworkAssign?
    ensures AllInBlock(s'.api)
  {
    var r := s.networkRuns[e.k];
    AssignsForShort(s, e.k);
    hide Decide, AllInBlock, AllShort, AddressInBlock, IsShort, NetworkRunsOk, IsNext;
    var spec := Decide(r.bme, r.bmn).spec;
    FoundInBlock(spec, r.listed.value, e.ip, r.bme);
    hide Admissible;
    if FreshEndpoint(s.api, e.k, r.bme) {
      PutInBlock(s.api, e.k, r.bme.(address := Some(AddressFrom(spec, e.ip))));
    }
  }

  lemma NetworkInBlock(s: State, e: Event, s': State)
    requires AllInBlock(s.api) && AllShort(s) && EndpointsOk(s.api, s.home) && NetworkRunsOk(s) && NetworkNext(s, e, s')
    ensures AllInBlock(s'.api)
  {
    if e.NetworkAssign? {
      AssignInBlock(s, e, s');
    } else if e.NetworkWrite? {
      var r := s.networkRuns[e.k];
      assert NetworkRunOk(s.api, s.lock, e.k, r);
      hide AllInBlock, AddressInBlock, AllShort, ListingOk, Admissible;
      if FreshEndpoint(s.api, e.k, r.bme) {
        NetworkWriteIsGood(s.api, s.home, e.k, r);
        hide Decide, GoodWrite;
        StoredInBlock(s.api, e.k, Decide(r.bme, r.bmn).bme);
        PutInBlock(s.api, e.k, Decide(r.bme, r.bmn).bme);
      } else {
        NetworkWriteVersion(r);
      }
    } else {
      hide Decide, IsNext, AllShort, Admissible;
      SameInBlock(s.api, s'.api);
    }
  }

  lemma ControlInBlock(s: State, e: Event, s': State)
    requires AllInBlock(s.api) && EndpointsOk(s.api, s.home) && ControlRunsOk(s) && ControlNext(s, e, s')
    ensures AllInBlock(s'.api)
  {
    hide AllInBlock, AddressInBlock;
    if e.ControlWrite? && FreshEndpoint(s.api, e.k, s.controlRuns[e.k]) {
      assert ReadOk(s.api, e.k, s.controlRuns[e.k]);
      ControlWriteIsGood(s.api, s.home, e.k, s.controlRuns[e.k]);
      StoredInBlock(s.api, e.k, DecideControl(s.controlRuns[e.k]).bme);
      PutInBlock(s.api, e.k, DecideControl(s.controlRuns[e.k]).bme);
    } else {
      SameInBlock(s.api, s'.api);
    }
  }

  lemma NicsInBlock(s: State, e: Event, s': State)
    requires AllInBlock(s.api) && NicsNext(s, e, s')
    ensures AllInBlock(s'.api)
  {
    hide AllInBlock, InBlock, Macs, OwnedListing;
    if e.NicCreate? {
      var r := s.nicRuns[e.k];
      var nic := r.nics[|r.seen|];
      PutInBlock(s.api, e.generated, NewEndpoint(e.k.name, r.uid, nic, Macs(nic, r.found.value.nics)));
    } else {
      SameInBlock(s.api, s'.api);
    }
  }

  lemma NetworkStaysShort(s: State, e: Event, s': State)
    requires AllShort(s) && NetworkNext(s, e, s')
    ensures AllShort(s')
  {
    hide IsShort, Decide, IsNext;
  }

  lemma OthersStayShort(s: State, e: Event, s': State)
    requires AllShort(s) && (e.CreateNetwork? ==> IsShort(e.spec))
    requires UserNext(s, e, s') || WorldNext(s, e, s') || ControlNext(s, e, s')
    ensures AllShort(s')
  {
    hide IsShort, Admissible;
  }

  lemma NicsStayShort(s: State, e: Event, s': State)
    requires AllShort(s) && NicsNext(s, e, s')
    ensures AllShort(s')
  {
    hide IsShort, Macs, OwnedListing;
  }

  lemma NextInBlock(s: State, e: Event, s': State)
    requires Inv(s) && AllInBlock(s.api) && AllShort(s) && (e.CreateNetwork? ==> IsShort(e.spec)) && Next(s, e, s')
    ensures AllInBlock(s'.api) && AllShort(s')
  {
    hide AllInBlock, AllShort, IsShort, UserNext, NetworkNext, ControlNext, NicsNext, Admissible;
    hide EndpointsOk, NetworkRunsOk, ControlRunsOk, NicRunsOk, NoClashes, NoTwins;
    if NetworkNext(s, e, s') {
      NetworkInBlock(s, e, s');
      NetworkStaysShort(s, e, s');
    } else if NicsNext(s, e, s') {
      NicsInBlock(s, e, s');
      NicsStayShort(s, e, s');
    } else {
      OthersStayShort(s, e, s');
      if UserNext(s, e, s') {
        UserInBlock(s, e, s');
      } else if ControlNext(s, e, s') {
        ControlInBlock(s, e, s');
      } else {
        SameInBlock(s.api, s'.api);
      }
    }
  }

  lemma {:induction false} BlocksInEveryRun(states: seq<State>, events: seq<Event>, i: nat)
    requires IsRun(states, events) && OnlyShort(events) && i < |states|
    ensures AllInBlock(states[i].api) && AllShort(states[i])
  {
    if i > 0 {
      hide Inv, Next, AllInBlock, AllShort, IsShort;
      BlocksInEveryRun(states, events, i - 1);
      InvInEveryRun(states, events, i - 1);
      assert StepAt(states, events, i - 1);
      NextInBlock(states[i - 1], events[i - 1], states[i]);
    }
  }

  /** In every run of networks that stop short of the greatest address, the address of every
      endpoint is in the block it carries, and Contains says so for the family of the block. */
  lemma AddressesAreInTheirBlocks(states: seq<State>, events: seq<Event>, i: nat, k: Key)
    requires IsRun(states, events) && OnlyShort(events) && i < |states|
    requires k in states[i].api.endpoints && states[i].api.endpoints[k].address.Some?
    ensures var a := states[i].api.endpoints[k].address.value;
            && a.cidr.Some? && InBlock(a.cidr.value, a.ip)
            && (Contains(a.cidr.value, a.ip) <==> (Addresses.IsV4Mapped(a.ip) <==> IsV4(a.cidr.value)))
  {
    BlocksInEveryRun(states, events, i);
    InvInEveryRun(states, events, i);
    assert AddressInBlock(states[i].api.endpoints[k]);
    assert EndpointOk(states[i].api, states[i].home, states[i].api.endpoints[k]);
    hide Inv, IsRun, InBlock, Contains, OwnersOk;
    var a := states[i].api.endpoints[k].address.value;
    ContainsIsInBlock(a.cidr.value, a.ip);
  }
}
