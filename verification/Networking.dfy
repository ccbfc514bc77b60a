// controllers/baremetalinstance/provisioner.go: one endpoint for every NIC of an instance's hardware.
module Networking {
  import opened Common
  import opened Objects
  import opened Endpoints
  import opened HardwareConvergence
  import HardwareController
  import HardwareWebhook
  import MacAddresses

  // ---------------------------------------------------------------- MAC addresses

  /** The MAC address of a discovered NIC, once for every time the bond lists it. */
  function BondMacs(interfaces: seq<string>, d: DiscoveredNIC): (r: seq<string>) {
    if interfaces == [] then []
    else (if interfaces[0] == d.name then [d.mac] else []) + BondMacs(interfaces[1..], d)
  }

  function AllBondMacs(interfaces: seq<string>, nics: seq<DiscoveredNIC>): (r: seq<string>) {
    if nics == [] then [] else BondMacs(interfaces, nics[0]) + AllBondMacs(interfaces, nics[1..])
  }

  function FirstMac(name: string, nics: seq<DiscoveredNIC>): (r: seq<string>) {
    if nics == [] then []
    else if nics[0].name == name then [nics[0].mac]
    else FirstMac(name, nics[1..])
  }

  /** The MAC addresses collected for a NIC, in the order of the discovered NICs. */
  function Macs(nic: NIC, nics: seq<DiscoveredNIC>): (r: seq<string>) {
    if nic.bond.Some? then AllBondMacs(nic.bond.value.interfaces, nics) else FirstMac(nic.name, nics)
  }

  method CollectMacs(nic: NIC, nics: seq<DiscoveredNIC>) returns (macs: seq<string>)
    ensures macs == Macs(nic, nics)
  {
    macs := [];
    for i := 0 to |nics|
      invariant Macs(nic, nics) == macs + Macs(nic, nics[i..])
    {
      var interf := nics[i];
      ghost var before := macs;
      ghost var rest := nics[i + 1..];
      assert nics[i..][1..] == rest;
      if nic.bond == None {
        if interf.name == nic.name {
          macs := macs + [interf.mac];
          return;
        }
      } else {
        var interfaces := nic.bond.value.interfaces;
        for b := 0 to |interfaces|
          invariant before + BondMacs(interfaces, interf) == macs + BondMacs(interfaces[b..], interf)
        {
          assert interfaces[b..][1..] == interfaces[b + 1..];
          if interf.name == interfaces[b] {
            macs := macs + [interf.mac];
          }
        }
        assert before + BondMacs(interfaces, interf) == macs;
        assert before + (BondMacs(interfaces, interf) + Macs(nic, rest)) == macs + Macs(nic, rest);
      }
    }
  }

  predicate DistinctNames(nics: seq<DiscoveredNIC>) {
    forall i, j :: 0 <= i < j < |nics| ==> nics[i].name != nics[j].name
  }

  /** Hardware the webhook finds fit has unique NIC names. */
  lemma FitHardwareHasDistinctNames(found: Discovered)
    requires forall e :: !HardwareWebhook.Unfit(found, e)
    ensures DistinctNames(found.nics)
  {
    forall i, j | 0 <= i < j < |found.nics| ensures found.nics[i].name != found.nics[j].name {
      assert !HardwareWebhook.Unfit(found, HardwareWebhook.RepeatedNic(j));
    }
  }

  predicate Listed(name: string, nics: seq<DiscoveredNIC>) {
    exists i :: 0 <= i < |nics| && nics[i].name == name
  }

  /** The MAC addresses of the interfaces, one by one. */
  function MacsOf(interfaces: seq<string>, nics: seq<DiscoveredNIC>): seq<string> {
    if interfaces == [] then [] else FirstMac(interfaces[0], nics) + MacsOf(interfaces[1..], nics)
  }

  lemma {:induction false} FirstMacIff(name: string, nics: seq<DiscoveredNIC>)
    ensures |FirstMac(name, nics)| == if Listed(name, nics) then 1 else 0
  {
    if nics != [] && nics[0].name != name {
      FirstMacIff(name, nics[1..]);
      if Listed(name, nics) {
        var i :| 0 <= i < |nics| && nics[i].name == name;
        assert nics[1..][i - 1].name == name;
      }
    }
  }

  lemma {:induction false} OneInterface(x: string, nics: seq<DiscoveredNIC>)
    requires DistinctNames(nics)
    ensures AllBondMacs([x], nics) == FirstMac(x, nics)
  {
    if nics != [] {
      OneInterface(x, nics[1..]);
      assert BondMacs([x], nics[0]) == if x == nics[0].name then [nics[0].mac] else [];
      if nics[0].name == x {
        FirstMacIff(x, nics[1..]);
      }
    }
  }

  lemma SplitBondMacs(interfaces: seq<string>, d: DiscoveredNIC)
    requires interfaces != []
    ensures BondMacs(interfaces, d) == BondMacs([interfaces[0]], d) + BondMacs(interfaces[1..], d)
  {
    assert [interfaces[0]][1..] == [];
  }

  lemma Regroup(a: seq<string>, b: seq<string>, x: seq<string>, y: seq<string>, z: seq<string>)
    requires multiset(z) == multiset(x) + multiset(y)
    ensures multiset(a + b + z) == multiset(a + x) + multiset(b + y)
  {
  }

  lemma {:induction false} InterfaceByInterface(interfaces: seq<string>, nics: seq<DiscoveredNIC>)
    requires interfaces != []
    ensures multiset(AllBondMacs(interfaces, nics)) ==
            multiset(AllBondMacs([interfaces[0]], nics)) + multiset(AllBondMacs(interfaces[1..], nics))
  {
    if nics != [] {
      hide BondMacs;
      InterfaceByInterface(interfaces, nics[1..]);
      SplitBondMacs(interfaces, nics[0]);
      Regroup(BondMacs([interfaces[0]], nics[0]), BondMacs(interfaces[1..], nics[0]),
              AllBondMacs([interfaces[0]], nics[1..]), AllBondMacs(interfaces[1..], nics[1..]),
              AllBondMacs(interfaces, nics[1..]));
    }
  }

  /** With unique hardware NIC names, a bond collects exactly the MAC addresses of its interfaces. */
  lemma {:induction false} BondCollectsItsInterfaces(interfaces: seq<string>, nics: seq<DiscoveredNIC>)
    requires DistinctNames(nics)
    ensures multiset(AllBondMacs(interfaces, nics)) == multiset(MacsOf(interfaces, nics))
  {
    if interfaces == [] {
      NoInterfaces(nics);
    } else {
      InterfaceByInterface(interfaces, nics);
      OneInterface(interfaces[0], nics);
      BondCollectsItsInterfaces(interfaces[1..], nics);
    }
  }

  lemma {:induction false} NoInterfaces(nics: seq<DiscoveredNIC>)
    ensures AllBondMacs([], nics) == []
  {
    if nics != [] {
      NoInterfaces(nics[1..]);
    }
  }

  /** A MAC address is found for a NIC exactly when one of its interfaces was discovered. */
  lemma {:induction false} MacsAreFoundIff(nic: NIC, nics: seq<DiscoveredNIC>)
    ensures Macs(nic, nics) != [] <==>
            if nic.bond.Some? then exists b :: 0 <= b < |nic.bond.value.interfaces| && Listed(nic.bond.value.interfaces[b], nics)
            else Listed(nic.name, nics)
  {
    if nic.bond.None? {
      FirstMacIff(nic.name, nics);
    } else if nics != [] {
      var interfaces := nic.bond.value.interfaces;
      MacsAreFoundIff(nic, nics[1..]);
      SomeCopyIff(interfaces, nics[0]);
      if exists b :: 0 <= b < |interfaces| && Listed(interfaces[b], nics) {
        var b :| 0 <= b < |interfaces| && Listed(interfaces[b], nics);
        var i :| 0 <= i < |nics| && nics[i].name == interfaces[b];
        assert i > 0 ==> nics[1..][i - 1].name == interfaces[b];
      } 
    }
  }

  lemma {:induction false} SomeCopyIff(interfaces: seq<string>, d: DiscoveredNIC)
    ensures BondMacs(interfaces, d) != [] <==> exists b :: 0 <= b < |interfaces| && interfaces[b] == d.name
  {
    if interfaces != [] {
      SomeCopyIff(interfaces[1..], d);
      if exists b :: 0 <= b < |interfaces| && interfaces[b] == d.name {
        var b :| 0 <= b < |interfaces| && interfaces[b] == d.name;
        assert b > 0 ==> interfaces[1..][b - 1] == d.name;
      }
    }
  }

  /** Bonds list at least one interface. */
  predicate Bonded(nic: NIC) {
    nic.bond.Some? ==> nic.bond.value.interfaces != []
  }

  /** On hardware the reconcile loop has settled on without a not-ready taint, every NIC has a
      first MAC address, and a bond has exactly those of its interfaces. */
  lemma ReadyHardwareHasMacs(w: World, h: Hardware, nic: NIC)
    requires !h.deleting && Settled(w, h) && ReasonsTell(h)
    requires !h.HasTaint(NotReadyKey) && nic in h.nics && Bonded(nic)
    ensures h.discovered.Some? && Macs(nic, h.discovered.value.nics) != []
    ensures nic.bond.Some? && DistinctNames(h.discovered.value.nics) ==>
              multiset(Macs(nic, h.discovered.value.nics)) ==
              multiset(MacsOf(nic.bond.value.interfaces, h.discovered.value.nics))
  {
    SettledMeans(w, h);
    var nics := h.discovered.value.nics;
    MacsAreFoundIff(nic, nics);
    if nic.bond.Some? {
      var interfaces := nic.bond.value.interfaces;
      assert HardwareController.NicFound(interfaces[0], h.discovered.value);
      assert Listed(interfaces[0], nics);
      if DistinctNames(nics) {
        BondCollectsItsInterfaces(interfaces, nics);
      }
    }
  }

  /** The interface list of a bond is what keeps it from failing: without one, present hardware
      has no MAC address to give. */
  lemma EmptyBondHasNoMac(nic: NIC, found: Discovered)
    requires nic.bond.Some? && nic.bond.value.interfaces == []
    ensures HardwareController.NicPresent(nic, found) && Macs(nic, found.nics) == []
  {
    NoInterfaces(found.nics);
  }

  // ---------------------------------------------------------------- one endpoint per NIC

  /** The endpoint was made for a NIC of the instance with this name and UID. */
  predicate MadeFor(bme: Endpoint, instance: string, uid: nat, nic: string) {
    bme.instanceLabel == Some(instance) && bme.nicLabel == Some(nic) && uid in bme.owners
  }

  function OwnedKeys(c: Registry, instance: string, uid: nat, nic: string): set<Key> {
    set k | k in c.endpoints && MadeFor(c.endpoints[k], instance, uid, nic)
  }

  datatype NicState = Missing | Waiting | Ready | Multiple

  function StateOf(c: Registry, instance: string, uid: nat, nic: string): NicState {
    var keys := OwnedKeys(c, instance, uid, nic);
    if |keys| == 0 then Missing
    else if |keys| > 1 then Multiple
    else if forall k :: k in keys ==> c.endpoints[k].phase == Addressed then Ready
    else Waiting
  }

  /** How many NICs at the front of the list are networked. */
  function ReadyCount(c: Registry, instance: string, uid: nat, nics: seq<NIC>): (n: nat)
    ensures n <= |nics|
    ensures forall i :: 0 <= i < n ==> StateOf(c, instance, uid, nics[i].name) == Ready
    ensures n < |nics| ==> StateOf(c, instance, uid, nics[n].name) != Ready
  {
    if nics == [] || StateOf(c, instance, uid, nics[0].name) != Ready then 0
    else ReadyCount(c, instance, uid, nics[1..]) + 1
  }

  function NewEndpoint(instance: string, uid: nat, nic: NIC, macs: seq<string>): Endpoint
    requires macs != []
  {
    Endpoint(0, false, {OwnFinalizer}, {uid}, Some(instance), Some(nic.name), nic.primary, macs[0],
             if nic.bond.Some? then Some(EndpointBond(macs, nic.bond.value.mode)) else None,
             nic.networkRef, NoEndpointPhase, None)
  }

  predicate NoRepeats(macs: seq<string>) {
    forall i, j :: 0 <= i < j < |macs| ==> macs[i] != macs[j]
  }

  lemma {:induction false} FirstMacParses(name: string, nics: seq<DiscoveredNIC>)
    requires forall i :: 0 <= i < |nics| ==> MacAddresses.Parses(nics[i].mac)
    ensures forall m :: m in FirstMac(name, nics) ==> MacAddresses.Parses(m)
  {
    if nics != [] && nics[0].name != name {
      FirstMacParses(name, nics[1..]);
    }
  }

  lemma {:induction false} BondMacsAreThis(interfaces: seq<string>, d: DiscoveredNIC)
    ensures forall m :: m in BondMacs(interfaces, d) ==> m == d.mac
  {
    if interfaces != [] {
      BondMacsAreThis(interfaces[1..], d);
    }
  }

  lemma {:induction false} BondMacsParse(interfaces: seq<string>, nics: seq<DiscoveredNIC>)
    requires forall i :: 0 <= i < |nics| ==> MacAddresses.Parses(nics[i].mac)
    ensures forall m :: m in AllBondMacs(interfaces, nics) ==> MacAddresses.Parses(m)
  {
    hide MacAddresses.Parses;
    if nics != [] {
      BondMacsAreThis(interfaces, nics[0]);
      BondMacsParse(interfaces, nics[1..]);
    }
  }

  lemma RepeatsAreCounted(macs: seq<string>)
    ensures NoRepeats(macs) <==> forall m :: multiset(macs)[m] <= 1
    decreases |macs|
  {
    if macs != [] {
      var rest := macs[1..];
      assert macs == [macs[0]] + rest;
      RepeatsAreCounted(rest);
      assert forall m :: multiset(macs)[m] == multiset(rest)[m] + if m == macs[0] then 1 else 0;
      assert macs[0] in rest <==> multiset(rest)[macs[0]] > 0;
      assert forall m :: multiset(rest)[m] <= multiset(macs)[m];
      if NoRepeats(rest) && macs[0] !in rest {
        assert forall j :: 0 < j < |macs| ==> macs[j] == rest[j - 1];
      }
      if NoRepeats(macs) {
        assert forall j :: 0 <= j < |rest| ==> rest[j] == macs[j + 1];
      }
    }
  }

  /** On hardware that was found fit, the endpoint of a NIC is let through exactly unless it is a
      bond of which two interfaces have the same MAC address, or one is listed twice. */
  lemma EndpointIsAdmittedIff(instance: string, uid: nat, nic: NIC, found: Discovered)
    requires HardwareWebhook.Fit(found) && Macs(nic, found.nics) != []
    ensures Admits(NewEndpoint(instance, uid, nic, Macs(nic, found.nics))) <==>
              (nic.bond.Some? ==> NoRepeats(MacsOf(nic.bond.value.interfaces, found.nics)))
  {
    hide MacAddresses.Parses;
    var macs := Macs(nic, found.nics);
    if nic.bond.Some? {
      BondMacsParse(nic.bond.value.interfaces, found.nics);
      SameRepeats(nic.bond.value.interfaces, found);
    } else {
      FirstMacParses(nic.name, found.nics);
    }
    hide AllBondMacs, FirstMac, MacsOf, HardwareWebhook.Fit;
    assert forall i :: 0 <= i < |macs| ==> macs[i] in macs;
  }

  lemma SameRepeats(interfaces: seq<string>, found: Discovered)
    requires HardwareWebhook.Fit(found)
    ensures NoRepeats(AllBondMacs(interfaces, found.nics)) <==> NoRepeats(MacsOf(interfaces, found.nics))
  {
    hide MacAddresses.Parses, AllBondMacs, MacsOf;
    BondCollectsItsInterfaces(interfaces, found.nics);
    RepeatsAreCounted(AllBondMacs(interfaces, found.nics));
    RepeatsAreCounted(MacsOf(interfaces, found.nics));
    hide NoRepeats;
  }

  /** The store after one pass over the NICs: an endpoint more for the first NIC that is not
      networked, if it has none and the webhook lets the create through. */
  function Networked(c: Registry, instance: string, uid: nat, nics: seq<NIC>, found: Option<Discovered>,
                     generated: Key): Registry
  {
    var n := ReadyCount(c, instance, uid, nics);
    if n < |nics| && StateOf(c, instance, uid, nics[n].name) == Missing && found.Some? && Macs(nics[n], found.value.nics) != []
    then AddEndpoint(c, generated, NewEndpoint(instance, uid, nics[n], Macs(nics[n], found.value.nics)))
    else c
  }

  class InstanceNetworking {

    constructor () {
    }

    method ListOurs(api: EndpointServer, instance: string, uid: nat, nic: string) returns (ours: seq<Key>)
      ensures forall k :: k in ours <==> k in OwnedKeys(api.View(), instance, uid, nic)
      ensures |ours| == |OwnedKeys(api.View(), instance, uid, nic)|
    {
      var names := api.ListByLabels(instance, Some(nic));
      ours := [];
      for i := 0 to |names|
        invariant forall a, b :: 0 <= a < b < |ours| ==> ours[a] != ours[b]
        invariant forall k :: k in ours <==> k in names[..i] && uid in api.endpoints[k].owners
      {
        assert names[i] !in names[..i] && names[..i + 1] == names[..i] + [names[i]];
        if uid in api.endpoints[names[i]].owners {
          ours := ours + [names[i]];
        }
      }
      assert names[..|names|] == names;
      DistinctSize(ours, OwnedKeys(api.View(), instance, uid, nic));
    }

    /** The loop over the NICs. It stops at the first one that is not networked; a NIC without a
        MAC address panics there. */
    method EnsureEndpoints(api: EndpointServer, instance: string, uid: nat, nics: seq<NIC>, found: Option<Discovered>,
                           generated: Key)
      returns (allAddressed: bool, err: Outcome)
      modifies api
      ensures allAddressed <==> ReadyCount(old(api.View()), instance, uid, nics) == |nics|
      ensures api.View() == Networked(old(api.View()), instance, uid, nics, found, generated)
    {
      hide ReadyCount, Admits, Macs, MadeFor;
      err := Pass;
      for n := 0 to |nics|
        invariant api.View() == old(api.View())
        invariant ReadyCount(api.View(), instance, uid, nics) == n + ReadyCount(api.View(), instance, uid, nics[n..])
      {
        var nic := nics[n];
        ReadyFrom(api.View(), instance, uid, nics, n);
        var ours := ListOurs(api, instance, uid, nic.name);
        if |ours| == 0 {
          if found == None {
            return false, Fail("no hardware");
          }
          var macs := CollectMacs(nic, found.value.nics);
          if macs == [] {
            return false, Fail("index out of range");
          }
          var bme := NewEndpoint(instance, uid, nic, macs);
          err := api.CreateEndpoint(generated, bme);
          return false, err;
        }
        if |ours| > 1 {
          return false, Pass;
        }
        assert ours[0] in ours;
        OnlyKey(OwnedKeys(api.View(), instance, uid, nic.name), ours[0]);
        if api.endpoints[ours[0]].phase != Addressed {
          return false, Pass;
        }
      }
      NoneLeft(api.View(), instance, uid, nics);
      return true, Pass;
    }
  }

  lemma ReadyFrom(c: Registry, instance: string, uid: nat, nics: seq<NIC>, n: nat)
    requires n < |nics|
    ensures ReadyCount(c, instance, uid, nics[n..]) ==
            if StateOf(c, instance, uid, nics[n].name) == Ready then 1 + ReadyCount(c, instance, uid, nics[n + 1..]) else 0
  {
    hide StateOf;
    assert nics[n..][0] == nics[n] && nics[n..][1..] == nics[n + 1..];
  }

  lemma NoneLeft(c: Registry, instance: string, uid: nat, nics: seq<NIC>)
    ensures ReadyCount(c, instance, uid, nics[|nics|..]) == 0
  {
  }

  lemma OnlyKey(keys: set<Key>, k: Key)
    requires |keys| == 1 && k in keys
    ensures keys == {k}
  {
    assert |keys - {k}| == 0;
  }
}
