// What the taints of hardware mean in every run of the life cycle.
module LifecycleConditions {
  import opened Common
  import opened Objects
  import opened Store
  import opened Lifecycle
  import opened LifecycleInvariant
  import opened LifecycleSafety
  import opened HardwareConvergence
  import HardwareController
  import HardwareWebhook
  import Provisioner
  import Scheduler
  import Discovery

  /** The object as the controller and admitted edits leave it. */
  ghost predicate WellKept(h: Hardware) {
    ReasonsTell(h) && AsLeft(h)
  }

  ghost predicate AllWellKept(c: Cluster) {
    forall hk :: hk in c.hardware ==> WellKept(c.hardware[hk])
  }

  lemma StoredWithVersion(h: Hardware, v: nat)
    requires WellKept(h)
    ensures WellKept(h.(version := v))
  {
    hide HardwareWebhook.NicsAllowed, HardwareWebhook.Fit, HardwareController.NicsReason, HardwareController.ImageDriveReason;
  }

  lemma PutKeepsAll(c: Cluster, hk: Key, obj: Hardware)
    requires AllWellKept(c) && WellKept(obj)
    ensures AllWellKept(PutHardware(c, hk, obj))
  {
    StoredWithVersion(obj, c.revision + 1);
    hide WellKept;
  }

  lemma StoredWellKept(c: Cluster, k: Key)
    requires AllWellKept(c) && k in c.hardware
    ensures WellKept(c.hardware[k])
  {
    hide WellKept;
  }

  lemma SameHardware(c: Cluster, c': Cluster)
    requires AllWellKept(c) && c'.hardware == c.hardware
    ensures AllWellKept(c')
  {
    hide WellKept;
  }

  // ---------------------------------------------------------------- users

  lemma NewIsWellKept(bmh: Hardware)
    requires NewHardware(bmh)
    ensures WellKept(bmh)
  {
    hide HardwareWebhook.NicsAllowed;
  }

  lemma EditIsWellKept(before: Hardware, after: Hardware)
    requires WellKept(before) && SpecEdit(before, after) && HardwareWebhook.Admitted(before, after)
    ensures WellKept(after)
  {
    hide HardwareWebhook.NicsAllowed, HardwareWebhook.Fit, UnfitAsLeft;
  }

  lemma MarkedIsWellKept(before: Hardware, after: Hardware)
    requires WellKept(before)
    requires after == before.(deleting := after.deleting, finalizers := after.finalizers, instanceRef := after.instanceRef)
    ensures WellKept(after)
  {
    hide HardwareWebhook.NicsAllowed, HardwareWebhook.Fit, HardwareController.NicsReason, HardwareController.ImageDriveReason;
  }

  lemma UserKeepsAll(c: Cluster, e: Event, c': Cluster)
    requires AllWellKept(c) && UserWrites(c, e, c')
    ensures AllWellKept(c')
  {
    hide AllWellKept, WellKept, PutHardware, PutInstance, HardwareWebhook.Admitted;
    SameHardware(c, c);
    match e {
      case CreateHardware(k, bmh) =>
        NewIsWellKept(bmh);
        PutKeepsAll(c, k, bmh);
      case EditHardware(k, bmh) =>
        StoredWellKept(c, k);
        if HardwareWebhook.Admitted(c.hardware[k], bmh) {
          EditIsWellKept(c.hardware[k], bmh);
          PutKeepsAll(c, k, bmh);
        }
      case DeleteHardware(k) =>
        if k in c.hardware && !c.hardware[k].deleting {
          StoredWellKept(c, k);
          MarkedIsWellKept(c.hardware[k], c.hardware[k].(deleting := true));
          PutKeepsAll(c, k, c.hardware[k].(deleting := true));
        }
      case ReleaseHardware(k, f) =>
        StoredWellKept(c, k);
        var obj := c.hardware[k].(finalizers := c.hardware[k].finalizers - {f});
        MarkedIsWellKept(c.hardware[k], obj);
        PutKeepsAll(c, k, obj);
      case _ =>
        UserKeepsHardware(c, e, c');
        SameHardware(c, c');
    }
  }

  lemma UserKeepsHardware(c: Cluster, e: Event, c': Cluster)
    requires UserWrites(c, e, c') && (e.CreateInstance? || e.DeleteInstance? || e.ReleaseInstance?)
    ensures c'.hardware == c.hardware
  {
  }

  // ---------------------------------------------------------------- controllers

  lemma KeepsVersion(h: Hardware, tenant: Option<Option<nat>>, discoveries: seq<Option<Discovered>>)
    ensures var e := HardwareController.Decide(h, tenant, discoveries);
            e.Writes() ==> e.bmh.version == h.version
  {
    hide HardwareController.AdjustTaint, HardwareController.ConditionsMet, HardwareController.NicsReason;
    hide HardwareController.ImageDriveReason, HardwareController.Stale;
  }

  lemma EffectIsWellKept(h: Hardware, tenant: Option<Option<nat>>, discoveries: seq<Option<Discovered>>)
    requires WellKept(h)
    ensures var e := HardwareController.Decide(h, tenant, discoveries);
            e.UpdateStatus? || (e.Update? && HardwareWebhook.Admitted(h, e.bmh)) ==> WellKept(e.bmh)
  {
    var e := HardwareController.Decide(h, tenant, discoveries);
    EffectKeepsReasons(h, tenant, discoveries);
    if e.UpdateStatus? || (e.Update? && HardwareWebhook.Admitted(h, e.bmh)) {
      EffectKeepsAsLeft(h, tenant, discoveries);
    }
    hide HardwareController.Decide, AsLeft, ReasonsTell, HardwareWebhook.Admitted;
  }

  lemma ApplyKeepsAll(c: Cluster, k: Key, h: Hardware, tenant: Option<Option<nat>>, discoveries: seq<Option<Discovered>>)
    requires AllWellKept(c) && (FreshHardware(c, k, h) ==> c.hardware[k] == h)
    ensures AllWellKept(HardwareController.Apply(c, k, h, HardwareController.Decide(h, tenant, discoveries)))
  {
    var e := HardwareController.Decide(h, tenant, discoveries);
    var c' := HardwareController.Apply(c, k, h, e);
    KeepsVersion(h, tenant, discoveries);
    hide HardwareController.Decide, AllWellKept, WellKept, HardwareWebhook.Admitted;
    if c'.hardware == c.hardware {
      SameHardware(c, c');
    } else {
      assert FreshHardware(c, k, h) && c' == PutHardware(c, k, e.bmh);
      StoredWellKept(c, k);
      EffectIsWellKept(h, tenant, discoveries);
      PutKeepsAll(c, k, e.bmh);
    }
  }

  lemma HardwareKeepsAll(s: State, e: Event, s': State)
    requires AllWellKept(s.api) && HardwareRunsOk(s) && HardwareNext(s, e, s')
    ensures AllWellKept(s'.api)
  {
    hide AllWellKept, HardwareController.Decide, HardwareController.Apply;
    if e.HardwareWrite? {
      var r := s.hardwareRuns[e.k];
      assert HardwareRunOk(s, e.k, r);
      ApplyKeepsAll(s.api, e.k, r.bmh, r.tenant, e.discoveries);
    }
  }

  lemma ProvisionerKeepsAll(s: State, e: Event, s': State)
    requires AllWellKept(s.api) && ProvisionerRunsOk(s) && ProvisionerActs(s, e, s')
    ensures AllWellKept(s'.api)
  {
    hide AllWellKept, WellKept;
    if e.ProvisionerClaimOrRelease? {
      var r := s.provisionerRuns[e.k];
      assert ProvisionerRunOk(s, e.k, r);
      var hk, bmh := Provisioner.HardwareKey(e.k, r.bmi), Provisioner.Decide(e.k, r).bmh;
      WritesWhatItRead(e.k, r);
      hide Provisioner.Decide, HardwareWorkOk;
      if FreshHardware(s.api, hk, bmh) {
        StoredWellKept(s.api, hk);
        MarkedIsWellKept(s.api.hardware[hk], bmh);
        PutKeepsAll(s.api, hk, bmh);
      }
    } else {
      SameHardware(s.api, s'.api);
    }
  }

  lemma WritesWhatItRead(k: Key, r: Provisioner.Run)
    requires Provisioner.Decide(k, r).UpdateHardware?
    ensures r.bmh.Some? && r.bmh.value.Some?
    ensures Provisioner.Decide(k, r).bmh == r.bmh.value.value.(instanceRef := Provisioner.Decide(k, r).bmh.instanceRef)
  {
  }

  lemma OthersKeepHardware(s: State, e: Event, s': State)
    requires MachineNext(s, e, s') || ControllerNext(s, e, s') || ProvisionerReads(s, e, s')
    ensures s'.api.hardware == s.api.hardware
  {
    hide Provisioner.Decide;
  }

  lemma SchedulerKeepsHardware(s: State, e: Event, s': State)
    requires SchedulerNext(s, e, s')
    ensures s'.api.hardware == s.api.hardware
  {
    hide Scheduler.Decide, NameUnused;
  }

  lemma ReadyKeepsHardware(s: State, e: Event, s': State)
    requires ReadyNext(s, e, s')
    ensures s'.api.hardware == s.api.hardware
  {
    hide Discovery.OnlyHardware;
  }

  lemma RestKeepsHardware(s: State, e: Event, s': State)
    requires Next(s, e, s') && !UserNext(s, e, s') && !HardwareNext(s, e, s') && !ProvisionerActs(s, e, s')
    ensures s'.api.hardware == s.api.hardware
  {
    hide UserNext, MachineNext, ControllerNext, SchedulerNext, ProvisionerReads, ProvisionerActs, HardwareNext, ReadyNext;
    if SchedulerNext(s, e, s') {
      SchedulerKeepsHardware(s, e, s');
    } else if ReadyNext(s, e, s') {
      ReadyKeepsHardware(s, e, s');
    } else {
      OthersKeepHardware(s, e, s');
    }
  }

  lemma NextKeepsAll(s: State, e: Event, s': State)
    requires Inv(s) && AllWellKept(s.api) && Next(s, e, s')
    ensures AllWellKept(s'.api)
  {
    hide AllWellKept, UserWrites, MachineNext, ControllerNext, SchedulerNext, ProvisionerReads, ProvisionerActs;
    hide HardwareNext, ReadyNext, ProvisionerRunsOk, HardwareRunsOk;
    if UserNext(s, e, s') {
      UserKeepsAll(s.api, e, s'.api);
    } else if HardwareNext(s, e, s') {
      HardwareKeepsAll(s, e, s');
    } else if ProvisionerActs(s, e, s') {
      ProvisionerKeepsAll(s, e, s');
    } else {
      RestKeepsHardware(s, e, s');
      SameHardware(s.api, s'.api);
    }
  }

  lemma {:induction false} WellKeptInEveryRun(states: seq<State>, events: seq<Event>, i: nat)
    requires IsRun(states, events) && i < |states|
    ensures AllWellKept(states[i].api)
  {
    if i > 0 {
      hide Inv, Next, AllWellKept;
      WellKeptInEveryRun(states, events, i - 1);
      InvInEveryRun(states, events, i - 1);
      assert StepAt(states, events, i - 1);
      NextKeepsAll(states[i - 1], events[i - 1], states[i]);
    }
  }

  /** In every reachable state, hardware that a reconcile leaves as it is, because nothing is left to
      write or because the webhook refuses the write, carries the not-ready taint exactly when
      something its spec needs is missing or it was found unfit, and the unschedulable taint exactly
      when it may not be provisioned. */
  lemma QuietHardwareMeans(states: seq<State>, events: seq<Event>, i: nat, hk: Key, discoveries: seq<Option<Discovered>>)
    requires IsRun(states, events) && i < |states|
    requires hk in states[i].api.hardware && !states[i].api.hardware[hk].deleting
    requires HardwareController.ReconcileHardware(states[i].api, hk, discoveries) == states[i].api
    ensures var h := states[i].api.hardware[hk];
            && (h.HasTaint(NotReadyKey) <==> !HardwareReady(h) || !HardwareWebhook.FitOrUnknown(h.discovered))
            && (h.HasTaint(NoScheduleKey) <==> !h.canProvision)
  {
    var h, w := states[i].api.hardware[hk], World(states[i].api.instances, discoveries);
    WellKeptInEveryRun(states, events, i);
    StoredWellKept(states[i].api, hk);
    hide IsRun, HardwareController.ReconcileHardware, HardwareReady, DecideIn, AsLeft, ReasonsTell, HardwareWebhook.Admitted;
    ReconcileIsPass(states[i].api, hk, discoveries);
    WriteLowersMeasure(w, h);
    RestMeans(w, h);
  }
}
