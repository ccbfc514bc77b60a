// Hardware that was found unfit: no write of its spec, taints or finalizers is let through any more.
module LifecycleUnfit {
  import opened Common
  import opened Objects
  import opened Store
  import opened Lifecycle
  import opened LifecycleInvariant
  import opened LifecycleSafety
  import opened LifecycleRefinement
  import opened LifecycleReachability
  import opened LifecycleConditions
  import opened HardwareConvergence
  import HardwareController
  import HardwareWebhook
  import Provisioner

  predicate FoundUnfit(h: Hardware) {
    !HardwareWebhook.FitOrUnknown(h.discovered)
  }

  /** Nothing but the status, the version and the deletion mark differ. */
  predicate SameMain(a: Hardware, b: Hardware) {
    && b.finalizers == a.finalizers && b.labels == a.labels && b.systemUUID == a.systemUUID
    && b.canProvision == a.canProvision && b.imageDrive == a.imageDrive && b.nics == a.nics && b.taints == a.taints
    && b.discovered == a.discovered && (a.deleting ==> b.deleting)
  }

  predicate Kept(c: Cluster, c': Cluster, hk: Key) {
    hk in c.hardware && hk in c'.hardware && SameMain(c.hardware[hk], c'.hardware[hk])
  }

  lemma PutKeepsMain(c: Cluster, j: Key, obj: Hardware, hk: Key)
    requires hk in c.hardware
    requires j == hk ==> SameMain(c.hardware[hk], obj) && (obj.deleting ==> obj.finalizers != {})
    ensures Kept(c, PutHardware(c, j, obj), hk)
  {
  }

  lemma Refuses(was: Hardware, now: Hardware)
    requires FoundUnfit(was)
    ensures !HardwareWebhook.Admitted(was, now)
  {
    hide HardwareWebhook.Fit, HardwareWebhook.NicsAllowed;
  }

  lemma SubmitKeepsMain(c: Cluster, j: Key, obj: Hardware, hk: Key)
    requires hk in c.hardware && FoundUnfit(c.hardware[hk])
    ensures Kept(c, SubmitHardware(c, j, obj), hk)
  {
    if j == hk {
      Refuses(c.hardware[hk], obj);
    } else {
      PutKeepsMain(c, j, obj, hk);
    }
    hide PutHardware, HardwareWebhook.Admitted, HardwareWebhook.Fit;
  }

  lemma DeleteKeepsMain(c: Cluster, j: Key, hk: Key)
    requires hk in c.hardware && (OwnFinalizer !in c.hardware[hk].finalizers ==> c.hardware[hk].deleting)
    ensures Kept(c, Store.DeleteHardware(c, j), hk)
  {
  }

  lemma UserKeepsMain(c: Cluster, e: Event, c': Cluster, hk: Key)
    requires UserWrites(c, e, c') && hk in c.hardware && FoundUnfit(c.hardware[hk])
    requires OwnFinalizer !in c.hardware[hk].finalizers ==> c.hardware[hk].deleting
    ensures Kept(c, c', hk)
  {
    hide FoundUnfit, Kept, PutHardware, PutInstance, SubmitHardware, SpecEdit, NewHardware, Store.DeleteHardware;
    match e {
      case CreateHardware(j, bmh) => PutKeepsMain(c, j, bmh, hk);
      case EditHardware(j, bmh) => SubmitKeepsMain(c, j, bmh, hk);
      case DeleteHardware(j) => DeleteKeepsMain(c, j, hk);
      case ReleaseHardware(j, f) =>
        SubmitKeepsMain(c, j, c.hardware[j].(finalizers := c.hardware[j].finalizers - {f}), hk);
      case _ =>
        UserKeepsHardware(c, e, c');
        SameIsKept(c, c', hk);
    }
  }

  lemma SameIsKept(c: Cluster, c': Cluster, hk: Key)
    requires hk in c.hardware && c'.hardware == c.hardware
    ensures Kept(c, c', hk)
  {
  }

  lemma UserNextKeepsMain(s: State, e: Event, s': State, hk: Key)
    requires AllHardwareOk(s) && UserNext(s, e, s') && hk in s.api.hardware && FoundUnfit(s.api.hardware[hk])
    ensures Kept(s.api, s'.api, hk)
  {
    hide UserWrites, TenantOk, FoundUnfit;
    assert HardwareOk(s, hk, s.api.hardware[hk]);
    UserKeepsMain(s.api, e, s'.api, hk);
  }

  /** A status write of the hardware controller is for hardware that its finalizer keeps. */
  lemma StatusKeepsMain(h: Hardware, tenant: Option<Option<nat>>, discoveries: seq<Option<Discovered>>)
    requires h.discovered.Some? && HardwareController.Decide(h, tenant, discoveries).UpdateStatus?
    ensures SameMain(h, HardwareController.Decide(h, tenant, discoveries).bmh)
    ensures h.deleting ==> h.instanceRef.Some?
  {
    ConditionWrites(h, discoveries);
    hide HardwareController.AdjustTaint, HardwareController.ConditionsMet, HardwareController.Stale;
    hide HardwareController.NicsReason, HardwareController.ImageDriveReason;
  }

  lemma HardwareKeepsMain(s: State, e: Event, s': State, hk: Key)
    requires AllHardwareOk(s) && HardwareRunsOk(s) && HardwareNext(s, e, s')
    requires hk in s.api.hardware && FoundUnfit(s.api.hardware[hk])
    ensures Kept(s.api, s'.api, hk)
  {
    hide HardwareController.Decide, HardwareWebhook.Fit, HardwareWebhook.NicsAllowed, TenantOk;
    if e.HardwareWrite? && s'.api.hardware != s.api.hardware {
      var r := s.hardwareRuns[e.k];
      assert HardwareOk(s, hk, s.api.hardware[hk]);
      assert HardwareRunOk(s, e.k, r);
      var effect := HardwareController.Decide(r.bmh, r.tenant, e.discoveries);
      KeepsVersion(r.bmh, r.tenant, e.discoveries);
      if effect.UpdateStatus? && e.k == hk {
        StatusKeepsMain(r.bmh, r.tenant, e.discoveries);
      }
      PutKeepsMain(s.api, e.k, effect.bmh, hk);
    }
  }

  /** The provisioner only claims hardware that is not being deleted, and releases what is claimed. */
  lemma ClaimKeepsMain(k: Key, r: Provisioner.Run)
    requires Provisioner.Decide(k, r).UpdateHardware?
    ensures r.bmh.Some? && r.bmh.value.Some?
    ensures var h := r.bmh.value.value;
            SameMain(h, Provisioner.Decide(k, r).bmh) && Provisioner.Decide(k, r).bmh.version == h.version
            && (h.deleting ==> h.instanceRef.Some?) && (h.deleting <==> Provisioner.Decide(k, r).bmh.deleting)
  {
  }

  lemma ProvisionerKeepsMain(s: State, e: Event, s': State, hk: Key)
    requires AllHardwareOk(s) && ProvisionerRunsOk(s) && ProvisionerActs(s, e, s') && hk in s.api.hardware
    ensures Kept(s.api, s'.api, hk)
  {
    hide TenantOk, HardwareWorkOk;
    if e.ProvisionerClaimOrRelease? {
      var r := s.provisionerRuns[e.k];
      var j, bmh := Provisioner.HardwareKey(e.k, r.bmi), Provisioner.Decide(e.k, r).bmh;
      assert HardwareOk(s, hk, s.api.hardware[hk]);
      assert ProvisionerRunOk(s, e.k, r);
      ClaimKeepsMain(e.k, r);
      hide Provisioner.Decide;
      if FreshHardware(s.api, j, bmh) {
        PutKeepsMain(s.api, j, bmh, hk);
      }
    }
  }

  lemma NextKeepsMain(s: State, e: Event, s': State, hk: Key)
    requires Inv(s) && Next(s, e, s') && hk in s.api.hardware && FoundUnfit(s.api.hardware[hk])
    ensures Kept(s.api, s'.api, hk)
  {
    hide UserNext, ProvisionerActs, HardwareNext, AllHardwareOk, ProvisionerRunsOk, HardwareRunsOk, HardwareWebhook.Fit;
    if UserNext(s, e, s') {
      UserNextKeepsMain(s, e, s', hk);
    } else if HardwareNext(s, e, s') {
      HardwareKeepsMain(s, e, s', hk);
    } else if ProvisionerActs(s, e, s') {
      ProvisionerKeepsMain(s, e, s', hk);
    } else {
      RestKeepsHardware(s, e, s');
      hide Next;
    }
  }

  lemma {:induction false} MainStays(states: seq<State>, events: seq<Event>, i: nat, j: nat, hk: Key)
    requires IsRun(states, events) && i <= j < |states|
    requires hk in states[i].api.hardware && FoundUnfit(states[i].api.hardware[hk])
    ensures Kept(states[i].api, states[j].api, hk)
    decreases j
  {
    hide Inv, Next, HardwareWebhook.Fit;
    if i < j {
      MainStays(states, events, i, j - 1, hk);
      InvInEveryRun(states, events, j - 1);
      assert StepAt(states, events, j - 1);
      NextKeepsMain(states[j - 1], events[j - 1], states[j], hk);
    }
  }

  /** Hardware that was found unfit stays stored for good, also when it is deleted, with its spec,
      its finalizers and its taints, of which one is the not-ready taint. */
  lemma UnfitHardwareIsFrozen(states: seq<State>, events: seq<Event>, i: nat, j: nat, hk: Key)
    requires IsRun(states, events) && i <= j < |states|
    requires hk in states[i].api.hardware && FoundUnfit(states[i].api.hardware[hk])
    ensures Kept(states[i].api, states[j].api, hk) && states[j].api.hardware[hk].HasTaint(NotReadyKey)
  {
    MainStays(states, events, i, j, hk);
    WellKeptInEveryRun(states, events, j);
    StoredWellKept(states[j].api, hk);
    hide IsRun, HardwareWebhook.Fit, HardwareWebhook.NicsAllowed;
  }

  // ---------------------------------------------------------------- a run that leads there

  lemma {:induction false} ReconcilesInSteps(s: State, k: Key, discoveries: seq<Option<Discovered>>, n: nat)
    returns (events: seq<Event>)
    requires k !in s.hardwareRuns
    ensures Leads(s, events, s.(api := Reconciles(s.api, k, discoveries, n)))
    decreases n
  {
    hide Next, HardwareController.ReconcileHardware;
    if n == 0 {
      assert s.(api := s.api) == s;
      return [];
    }
    hide Leads;
    events := HardwareReconcileInSteps(s, k, discoveries);
    var s1 := s.(api := HardwareController.ReconcileHardware(s.api, k, discoveries));
    var rest := ReconcilesInSteps(s1, k, discoveries, n - 1);
    LeadsOn(s, events, s1, rest, s1.(api := Reconciles(s1.api, k, discoveries, n - 1)));
    events := events + rest;
  }

  /** New hardware, discovered with everything its spec asks for, but unfit: it comes to rest with
      the not-ready taint, although nothing is missing. */
  lemma UnfitHardwareHappens(k: Key, bmh: Hardware, found: Discovered) returns (states: seq<State>, events: seq<Event>)
    requires NewHardware(bmh) && k.name != "" && !HardwareWebhook.Fit(found)
    requires HardwareReady(bmh.(discovered := Some(found)))
    ensures IsRun(states, events)
    ensures var c := Last(states).api;
            && k in c.hardware && HardwareReady(c.hardware[k]) && FoundUnfit(c.hardware[k])
            && c.hardware[k].HasTaint(NotReadyKey)
            && HardwareController.ReconcileHardware(c, k, [Some(found)]) == c
  {
    var s1 := INIT.(api := PutHardware(INIT.api, k, bmh));
    assert UserNext(INIT, CreateHardware(k, bmh), s1);
    hide UserNext, HardwareController.ReconcileHardware, HardwareWebhook.Fit, HardwareWebhook.NicsAllowed;
    assert Next(INIT, CreateHardware(k, bmh), s1);
    hide Next, Leads, Reconciles;
    Extend([INIT], [], CreateHardware(k, bmh), s1);
    var h, n := s1.api.hardware[k], 7 * |bmh.taints| + 14;
    NewIsWellKept(h);
    ReconcilesSettleIff(s1.api, k, [Some(found)], n);
    var reconciling := ReconcilesInSteps(s1, k, [Some(found)], n);
    states := Continue([INIT] + [s1], [] + [CreateHardware(k, bmh)], reconciling,
                       s1.(api := Reconciles(s1.api, k, [Some(found)], n)));
    events := [] + [CreateHardware(k, bmh)] + reconciling;
  }
}
