// What a step keeps of a stored endpoint: one that is not being deleted stays, and keeps all that is
// never changed, which are its owners, its labels and its network. Its primary flag only changes in
// an edit by a user, and once it is addressed it is so until it is deleted. This is shown for every
// party in turn, from the writes it can make.
module EndpointFrames {
  import opened Common
  import opened Networks
  import opened Endpoints
  import opened Networking
  import opened EndpointRuns
  import opened EndpointInvariant
  import opened EndpointSteps
  import Allocator

  // ---------------------------------------------------------------- what a step keeps of an endpoint

  /** The endpoint of before is still there, and is what it was in all that is never changed. */
  predicate StaysAs(c: Registry, c': Registry, k: Key)
    requires k in c.endpoints
  {
    k in c'.endpoints && Kept(c.endpoints[k], c'.endpoints[k])
  }

  predicate SamePrimary(c: Registry, c': Registry, k: Key) {
    k in c.endpoints && k in c'.endpoints ==> c'.endpoints[k].primary == c.endpoints[k].primary
  }

  lemma PutStays(c: Registry, j: Key, obj: Endpoint, k: Key)
    requires k in c.endpoints && (j == k ==> Kept(c.endpoints[k], obj))
    requires j == k ==> !obj.deleting || obj.finalizers != {}
    ensures StaysAs(c, PutEndpoint(c, j, obj), k)
    ensures (j == k ==> obj.primary == c.endpoints[k].primary) ==> SamePrimary(c, PutEndpoint(c, j, obj), k)
  {
  }

  lemma SameStays(c: Registry, c': Registry, k: Key)
    requires k in c.endpoints && c'.endpoints == c.endpoints
    ensures StaysAs(c, c', k) && SamePrimary(c, c', k)
  {
  }

  lemma DecisionsKeepPrimary(r: NetworkRun)
    ensures Decide(r.bme, r.bmn).UpdateEndpoint? ==>
              && Decide(r.bme, r.bmn).bme.primary == r.bme.primary && Decide(r.bme, r.bmn).bme.deleting == r.bme.deleting
              && Decide(r.bme, r.bmn).bme.finalizers == r.bme.finalizers
  {
  }

  lemma UserStays(s: State, e: Event, s': State, k: Key)
    requires EndpointsOk(s.api, s.home) && UserNext(s, e, s') && k in s.api.endpoints && !s.api.endpoints[k].deleting
    ensures StaysAs(s.api, s'.api, k)
    ensures !(e.EditEndpoint? && e.k == k) ==> SamePrimary(s.api, s'.api, k)
  {
    hide AddressOk, Ours, StaysAs, SamePrimary;
    assert EndpointOk(s.api, s.home, s.api.endpoints[k]);
    match e {
      case CreateEndpoint(j, obj) => PutStays(s.api, j, obj, k);
      case EditEndpoint(j, primary) => PutStays(s.api, j, s.api.endpoints[j].(primary := primary), k);
      case DeleteEndpoint(j) =>
        if s'.api == s.api {
          SameStays(s.api, s'.api, k);
        } else {
          PutStays(s.api, j, s.api.endpoints[j].(deleting := true), k);
        }
      case ReleaseEndpoint(j, f) =>
        PutStays(s.api, j, s.api.endpoints[j].(finalizers := s.api.endpoints[j].finalizers - {f}), k);
    }
  }

  lemma NetworkStays(s: State, e: Event, s': State, k: Key)
    requires EndpointsOk(s.api, s.home) && NetworkRunsOk(s) && NetworkNext(s, e, s')
    requires k in s.api.endpoints && !s.api.endpoints[k].deleting
    ensures StaysAs(s.api, s'.api, k) && SamePrimary(s.api, s'.api, k)
  {
    hide Allocator.IsNext, Admissible, AddressOk, Ours, ListingOk, StaysAs, SamePrimary, Kept;
    SameStays(s.api, s.api, k);
    if e.NetworkWrite? {
      var r := s.networkRuns[e.k];
      assert NetworkRunOk(s.api, s.lock, e.k, r);
      DecisionsKeepPrimary(r);
      if FreshEndpoint(s.api, e.k, r.bme) {
        NetworkWriteIsGood(s.api, s.home, e.k, r);
        hide Decide;
        PutStays(s.api, e.k, Decide(r.bme, r.bmn).bme, k);
      } else {
        NetworkWriteVersion(r);
        hide Decide;
      }
    } else if e.NetworkAssign? {
      var r := s.networkRuns[e.k];
      assert NetworkRunOk(s.api, s.lock, e.k, r);
      var spec := Decide(r.bme, r.bmn).spec;
      if FreshEndpoint(s.api, e.k, r.bme) {
        AssigningKeeps(r.bme, spec, e.ip);
        hide Decide;
        PutStays(s.api, e.k, r.bme.(address := Some(AddressFrom(spec, e.ip))), k);
      }
    }
  }

  lemma AssigningKeeps(bme: Endpoint, spec: NetworkSpec, ip: IP16)
    ensures Kept(bme, bme.(address := Some(AddressFrom(spec, ip))))
  {
  }

  lemma ControlStays(s: State, e: Event, s': State, k: Key)
    requires EndpointsOk(s.api, s.home) && ControlRunsOk(s) && ControlNext(s, e, s')
    requires k in s.api.endpoints && !s.api.endpoints[k].deleting
    ensures StaysAs(s.api, s'.api, k) && SamePrimary(s.api, s'.api, k)
  {
    hide AddressOk, Ours, StaysAs, SamePrimary;
    SameStays(s.api, s.api, k);
    if e.ControlWrite? {
      var read := s.controlRuns[e.k];
      assert ReadOk(s.api, e.k, read);
      if FreshEndpoint(s.api, e.k, read) {
        ControlWriteIsGood(s.api, s.home, e.k, read);
        PutStays(s.api, e.k, DecideControl(read).bme, k);
      }
    }
  }

  lemma NicsStay(s: State, e: Event, s': State, k: Key)
    requires NicsNext(s, e, s') && k in s.api.endpoints
    ensures StaysAs(s.api, s'.api, k) && SamePrimary(s.api, s'.api, k)
  {
    hide Macs, StaysAs, SamePrimary;
    if e.NicCreate? {
      KeyStays(s.api, s'.api, k);
    } else {
      SameStays(s.api, s'.api, k);
    }
  }

  lemma KeyStays(c: Registry, c': Registry, k: Key)
    requires k in c.endpoints && k in c'.endpoints && c'.endpoints[k] == c.endpoints[k]
    ensures StaysAs(c, c', k) && SamePrimary(c, c', k)
  {
  }

  lemma WorldStays(s: State, e: Event, s': State, k: Key)
    requires WorldNext(s, e, s') && k in s.api.endpoints
    ensures StaysAs(s.api, s'.api, k) && SamePrimary(s.api, s'.api, k)
  {
    hide Admissible;
    SameStays(s.api, s'.api, k);
  }

  /** An endpoint that is not being deleted stays, and only an edit changes its primary flag. */
  lemma EndpointStays(s: State, e: Event, s': State, k: Key)
    requires Inv(s) && Next(s, e, s') && k in s.api.endpoints && !s.api.endpoints[k].deleting
    ensures StaysAs(s.api, s'.api, k)
    ensures !(e.EditEndpoint? && e.k == k) ==> SamePrimary(s.api, s'.api, k)
  {
    hide UserNext, WorldNext, NetworkNext, ControlNext, NicsNext, StaysAs, SamePrimary;
    hide EndpointsOk, NetworkRunsOk, ControlRunsOk, NicRunsOk, NoClashes, NoTwins;
    if UserNext(s, e, s') {
      UserStays(s, e, s', k);
    } else if WorldNext(s, e, s') {
      WorldStays(s, e, s', k);
    } else if NetworkNext(s, e, s') {
      NetworkStays(s, e, s', k);
    } else if ControlNext(s, e, s') {
      ControlStays(s, e, s', k);
    } else {
      NicsStay(s, e, s', k);
    }
  }
}
