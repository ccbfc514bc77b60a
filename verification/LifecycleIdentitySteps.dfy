// Every step leaves a deletion that is adrift where it is: an instance whose hardware is claimed,
// whose cleaning is still to be done, and which has no agent and no request of one in flight. Nobody
// takes the hardware away, the controllers write no more than that the cleaning begins, and a
// request finds the hardware only if the machine can be told by its system UUID.
module LifecycleIdentitySteps {
  import opened Common
  import opened Objects
  import opened Store
  import opened Lifecycle
  import opened LifecycleInvariant
  import opened LifecycleHardwareWrites
  import opened LifecycleOtherSteps
  import opened LifecycleProvisionerSteps
  import opened LifecycleSafety
  import opened LifecycleProgress
  import opened LifecycleCleaning
  import opened LifecycleImagedSteps
  import opened LifecycleNetworked
  import Provisioner
  import Scheduler
  import InstanceController
  import HardwareController
  import Discovery

  // ---------------------------------------------------------------- agents are not forgotten

  /** A pass that works on hardware and read an agent is about an instance that still has one. */
  ghost predicate AgentsRemembered(s: State) {
    forall k :: k in s.provisionerRuns && WorksOnHardware(s.provisionerRuns[k]) && s.provisionerRuns[k].bmi.agentInfo.Some? ==>
      k in s.api.instances && s.api.instances[k].agentInfo.Some?
  }

  /** An instance lets go of its agent only when its phase moves on. */
  ghost predicate KeepsAgents(c: Cluster, c': Cluster) {
    forall k :: k in c.instances && c.instances[k].agentInfo.Some? &&
                k in c'.instances && c'.instances[k].uid == c.instances[k].uid ==>
      c'.instances[k].agentInfo.Some? || c'.instances[k].phase == Running || c'.instances[k].phase == Terminating
  }

  lemma WriteKeepsAgents(c: Cluster, k: Key, read: Instance, obj: Instance)
    requires InstanceReadOk(c, k, read) && obj.version == read.version
    requires read.agentInfo.Some? ==> obj.agentInfo.Some? || obj.phase == Running || obj.phase == Terminating
    ensures KeepsAgents(c, WriteInstance(c, k, obj))
  {
  }

  lemma UserKeepsAgents(c: Cluster, e: Event, c': Cluster)
    requires UserWrites(c, e, c')
    ensures KeepsAgents(c, c')
  {
    if e.CreateHardware? || e.EditHardware? || e.DeleteHardware? || e.ReleaseHardware? {
      HardwareEditsKeepInstances(c, e, c');
    }
  }

  lemma ControllerKeepsAgents(s: State, e: Event, s': State)
    requires ControllerRunsOk(s) && ControllerNext(s, e, s')
    ensures KeepsAgents(s.api, s'.api)
  {
    if e.ControllerWrite? {
      var read := s.controllerRuns[e.k];
      assert InstanceReadOk(s.api, e.k, read);
      WriteKeepsAgents(s.api, e.k, read, InstanceController.Decide(read).bmi);
    }
  }

  lemma SchedulerKeepsAgent(read: Instance)
    ensures var d := Scheduler.Decide(read);
            d.UpdateInstance? || d.Unassign? ==> d.bmi.agentInfo == read.agentInfo && d.bmi.version == read.version
  {
  }

  lemma SchedulerKeepsAgents(s: State, e: Event, s': State)
    requires SchedulerRunsOk(s) && SchedulerNext(s, e, s')
    ensures KeepsAgents(s.api, s'.api)
  {
    hide Scheduler.ToleratesAll, Scheduler.SelectorMatches, NameUnused;
    if e.SchedulerWrite? || e.SchedulerUnassign? || e.SchedulerAssign? {
      var read := s.schedulerRuns[e.k].bmi;
      assert SchedulerRunOk(s, e.k, s.schedulerRuns[e.k]);
      SchedulerKeepsAgent(read);
      var obj := if e.SchedulerAssign? then read.(hardwareName := e.name) else Scheduler.Decide(read).bmi;
      WriteKeepsAgents(s.api, e.k, read, obj);
    }
    hide Scheduler.Decide, WriteInstance;
  }

  lemma ProvisionerKeepsAgent(k: Key, r: Provisioner.Run)
    ensures var d := Provisioner.Decide(k, r);
            d.UpdateInstance? ==> d.bmi.agentInfo == r.bmi.agentInfo || d.bmi.phase == Running || d.bmi.phase == Terminating
  {
  }

  lemma ProvisionerKeepsAgents(s: State, e: Event, s': State)
    requires ProvisionerRunsOk(s) && ProvisionerActs(s, e, s')
    ensures KeepsAgents(s.api, s'.api)
  {
    hide Provisioner.Decide;
    if e.ProvisionerWrite? {
      var r := s.provisionerRuns[e.k];
      assert ProvisionerRunOk(s, e.k, r);
      ProvisionerDecidesForward(e.k, r);
      ProvisionerKeepsAgent(e.k, r);
      WriteKeepsAgents(s.api, e.k, r.bmi, Provisioner.Decide(e.k, r).bmi);
    } else {
      OtherActsKeepInstances(s, e, s');
    }
  }

  lemma ApplyKeepsAgents(c: Cluster, hk: Key, h: Hardware, effect: HardwareController.HardwareEffect)
    ensures KeepsAgents(c, HardwareController.Apply(c, hk, h, effect))
  {
  }

  lemma HardwareKeepsAgents(s: State, e: Event, s': State)
    requires HardwareNext(s, e, s')
    ensures KeepsAgents(s.api, s'.api)
  {
    hide HardwareController.Decide, HardwareController.Apply;
    if e.HardwareWrite? {
      var r := s.hardwareRuns[e.k];
      ApplyKeepsAgents(s.api, e.k, r.bmh, HardwareController.Decide(r.bmh, r.tenant, e.discoveries));
    }
  }

  lemma ReadyKeepsAgents(s: State, e: Event, s': State)
    requires ReadyRunsOk(s) && ReadyNext(s, e, s')
    ensures KeepsAgents(s.api, s'.api)
  {
    if e.ReadyWrite? {
      var r := s.readyRuns[e.id];
      assert ReadyRunOk(s, r);
      WriteKeepsAgents(s.api, r.ref.key, r.bmi.value, r.bmi.value.(agentInfo := Some(r.machine)));
    }
  }

  lemma NextKeepsAgents(s: State, e: Event, s': State)
    requires Inv(s) && Next(s, e, s')
    ensures KeepsAgents(s.api, s'.api)
  {
    hide UserNext, MachineNext, ControllerNext, SchedulerNext, ProvisionerReads, ProvisionerActs, HardwareNext, ReadyNext;
    hide InstanceOk, MachineOk, SchedulerRunOk, ProvisionerRunOk;
    if UserNext(s, e, s') {
      UserIsUserWrites(s, e, s');
      UserKeepsAgents(s.api, e, s'.api);
    } else if MachineNext(s, e, s') {
      MachinesKeepApi(s, e, s');
    } else if ProvisionerReads(s, e, s') {
      ReadsKeepApi(s, e, s');
    } else if ControllerNext(s, e, s') {
      ControllerKeepsAgents(s, e, s');
    } else if SchedulerNext(s, e, s') {
      SchedulerKeepsAgents(s, e, s');
    } else if ProvisionerActs(s, e, s') {
      ProvisionerKeepsAgents(s, e, s');
    } else if HardwareNext(s, e, s') {
      HardwareKeepsAgents(s, e, s');
    } else {
      ReadyKeepsAgents(s, e, s');
    }
  }

  lemma ReadsFromBefore(s: State, e: Event, s': State, k: Key)
    requires ProvisionerReads(s, e, s') && k in s'.provisionerRuns
    ensures s'.api == s.api
    ensures var bmi := s'.provisionerRuns[k].bmi;
            (k in s.api.instances && s.api.instances[k] == bmi) || (k in s.provisionerRuns && s.provisionerRuns[k].bmi == bmi)
  {
    hide Provisioner.Decide;
  }

  lemma PassesComeFromReads(s: State, e: Event, s': State, k: Key)
    requires Next(s, e, s') && k in s'.provisionerRuns
    ensures var bmi := s'.provisionerRuns[k].bmi;
            || (s'.api == s.api && k in s.api.instances && s.api.instances[k] == bmi)
            || (k in s.provisionerRuns && s.provisionerRuns[k].bmi == bmi)
  {
    hide UserNext, MachineNext, ControllerNext, SchedulerNext, ProvisionerReads, ProvisionerActs, HardwareNext, ReadyNext;
    if ProvisionerReads(s, e, s') {
      ReadsFromBefore(s, e, s', k);
    } else if ProvisionerActs(s, e, s') {
      ActsEndRun(s, e, s');
    } else {
      OthersKeepPasses(s, e, s');
    }
  }

  lemma NextRemembersAgents(s: State, e: Event, s': State)
    requires Inv(s) && Inv(s') && Next(s, e, s') && AgentsRemembered(s)
    ensures AgentsRemembered(s')
  {
    forall k | k in s'.provisionerRuns && WorksOnHardware(s'.provisionerRuns[k]) && s'.provisionerRuns[k].bmi.agentInfo.Some?
      ensures k in s'.api.instances && s'.api.instances[k].agentInfo.Some?
    {
      NextRemembersAgent(s, e, s', k);
    }
  }

  lemma WorkIsOn(s: State, k: Key)
    requires Inv(s) && k in s.provisionerRuns && WorksOnHardware(s.provisionerRuns[k])
    ensures StillThere(s.api, k, s.provisionerRuns[k].bmi)
    ensures s.provisionerRuns[k].bmi.phase == Provisioning || s.provisionerRuns[k].bmi.phase == Cleaning
  {
    assert ProvisionerRunOk(s, k, s.provisionerRuns[k]);
  }

  lemma NextRemembersAgent(s: State, e: Event, s': State, k: Key)
    requires Inv(s) && Inv(s') && Next(s, e, s') && AgentsRemembered(s)
    requires k in s'.provisionerRuns && WorksOnHardware(s'.provisionerRuns[k]) && s'.provisionerRuns[k].bmi.agentInfo.Some?
    ensures k in s'.api.instances && s'.api.instances[k].agentInfo.Some?
  {
    hide Inv, Next;
    WorkIsOn(s', k);
    PassesComeFromReads(s, e, s', k);
    if k in s.provisionerRuns && s.provisionerRuns[k].bmi == s'.provisionerRuns[k].bmi {
      WorkIsOn(s, k);
      NextKeepsAgents(s, e, s');
    }
  }

  lemma {:induction false} AgentsRememberedInEveryRun(states: seq<State>, events: seq<Event>, i: nat)
    requires IsRun(states, events) && i < |states|
    ensures AgentsRemembered(states[i])
    decreases i
  {
    hide Next, Inv;
    if i > 0 {
      AgentsRememberedInEveryRun(states, events, i - 1);
      InvInEveryRun(states, events, i - 1);
      InvInEveryRun(states, events, i);
      assert StepAt(states, events, i - 1);
      NextRemembersAgents(states[i - 1], events[i - 1], states[i]);
    }
  }

  // ---------------------------------------------------------------- adrift

  /** Instance uid is being deleted on hardware hk, with its cleaning still to be done and no agent. */
  predicate Waits(c: Cluster, k: Key, uid: nat, hk: Key) {
    && k in c.instances
    && var bmi := c.instances[k];
       && bmi.uid == uid && Uncleaned(bmi) && OwnFinalizer in bmi.finalizers
       && bmi.agentInfo.None? && Provisioner.HardwareKey(k, bmi) == hk
  }

  /** The hardware is the instance's, and the machine with this UUID. */
  predicate Claimed(c: Cluster, hk: Key, k: Key, uid: nat, uuid: string) {
    hk in c.hardware && c.hardware[hk].instanceRef == Some(InstanceRef(k, uid)) && c.hardware[hk].systemUUID == uuid
  }

  predicate Adrift(s: State, k: Key, uid: nat, hk: Key, uuid: string) {
    Waits(s.api, k, uid, hk) && Claimed(s.api, hk, k, uid, uuid)
  }

  /** No request of an agent for the instance is in flight. */
  ghost predicate NoRequest(s: State, k: Key, uid: nat) {
    forall id :: id in s.readyRuns ==> s.readyRuns[id].ref != InstanceRef(k, uid)
  }

  /** Several objects have the UUID, or it is empty. */
  predicate Unidentified(c: Cluster, hk: Key, uuid: string) {
    uuid == "" || !Discovery.OnlyHardware(c, uuid, hk)
  }

  lemma InstanceEditsKeepWaiting(c: Cluster, e: Event, c': Cluster, k: Key, uid: nat, hk: Key)
    requires Waits(c, k, uid, hk) && UserWrites(c, e, c')
    requires e.CreateInstance? || e.DeleteInstance? || e.ReleaseInstance?
    ensures Waits(c', k, uid, hk) && c'.hardware == c.hardware
  {
    if e.ReleaseInstance? {
      assert OwnFinalizer in c.instances[k].finalizers - {e.finalizer};
    }
  }

  /** A write that keeps tenant and machine of the object that is stored. */
  lemma PutKeepsClaim(c: Cluster, j: Key, obj: Hardware, hk: Key, k: Key, uid: nat, uuid: string)
    requires Claimed(c, hk, k, uid, uuid)
    requires j == hk ==> KeepsTenant(c.hardware[hk], obj)
    ensures Claimed(PutHardware(c, j, obj), hk, k, uid, uuid)
  {
  }

  lemma SpecEditsKeepClaim(c: Cluster, e: Event, c': Cluster, k: Key, uid: nat, hk: Key, uuid: string)
    requires Claimed(c, hk, k, uid, uuid) && OwnFinalizer in c.hardware[hk].finalizers && UserWrites(c, e, c')
    requires e.CreateHardware? || e.EditHardware?
    ensures Claimed(c', hk, k, uid, uuid)
  {
    hide PutHardware, NewHardware;
    PutKeepsClaim(c, e.k, e.bmh, hk, k, uid, uuid);
  }

  lemma ReleasesKeepClaim(c: Cluster, e: Event, c': Cluster, k: Key, uid: nat, hk: Key, uuid: string)
    requires Claimed(c, hk, k, uid, uuid) && OwnFinalizer in c.hardware[hk].finalizers && UserWrites(c, e, c')
    requires e.DeleteHardware? || e.ReleaseHardware?
    ensures Claimed(c', hk, k, uid, uuid)
  {
    hide PutHardware;
    if e.ReleaseHardware? {
      var before := c.hardware[e.k];
      assert OwnFinalizer in before.finalizers ==> OwnFinalizer in before.finalizers - {e.finalizer};
      PutKeepsClaim(c, e.k, before.(finalizers := before.finalizers - {e.finalizer}), hk, k, uid, uuid);
    } else if e.k in c.hardware && !c.hardware[e.k].deleting {
      PutKeepsClaim(c, e.k, c.hardware[e.k].(deleting := true), hk, k, uid, uuid);
    }
  }

  lemma ClaimedIsHeld(s: State, k: Key, uid: nat, hk: Key, uuid: string)
    requires AllHardwareOk(s) && Claimed(s.api, hk, k, uid, uuid)
    ensures OwnFinalizer in s.api.hardware[hk].finalizers
  {
    assert HardwareOk(s, hk, s.api.hardware[hk]);
  }

  lemma UserKeepsAdrift(s: State, e: Event, s': State, k: Key, uid: nat, hk: Key, uuid: string)
    requires AllHardwareOk(s) && UserNext(s, e, s') && Adrift(s, k, uid, hk, uuid)
    ensures Adrift(s', k, uid, hk, uuid) && s'.readyRuns == s.readyRuns
  {
    UserIsUserWrites(s, e, s');
    hide UserWrites, Claimed;
    if e.CreateHardware? || e.EditHardware? || e.DeleteHardware? || e.ReleaseHardware? {
      HardwareEditsKeepInstances(s.api, e, s'.api);
      ClaimedIsHeld(s, k, uid, hk, uuid);
      if e.CreateHardware? || e.EditHardware? {
        SpecEditsKeepClaim(s.api, e, s'.api, k, uid, hk, uuid);
      } else {
        ReleasesKeepClaim(s.api, e, s'.api, k, uid, hk, uuid);
      }
    } else {
      InstanceEditsKeepWaiting(s.api, e, s'.api, k, uid, hk);
    }
  }

  /** Nobody but the provisioner has anything to write for an instance that waits. */
  lemma OthersLeaveWaiting(bmi: Instance)
    requires Uncleaned(bmi)
    ensures InstanceController.Decide(bmi).NoEffect? && Scheduler.Decide(bmi).NoEffect?
  {
  }

  lemma WriteElsewhere(c: Cluster, j: Key, obj: Instance, k: Key, uid: nat, hk: Key, uuid: string)
    requires Waits(c, k, uid, hk) && Claimed(c, hk, k, uid, uuid) && (j != k || !FreshInstance(c, k, obj))
    ensures Waits(WriteInstance(c, j, obj), k, uid, hk) && Claimed(WriteInstance(c, j, obj), hk, k, uid, uuid)
  {
  }

  lemma ControllerKeepsAdrift(s: State, e: Event, s': State, k: Key, uid: nat, hk: Key, uuid: string)
    requires ControllerRunsOk(s) && ControllerNext(s, e, s') && Adrift(s, k, uid, hk, uuid)
    ensures Adrift(s', k, uid, hk, uuid) && s'.readyRuns == s.readyRuns
  {
    if e.ControllerWrite? {
      var read := s.controllerRuns[e.k];
      assert InstanceReadOk(s.api, e.k, read);
      if e.k == k && FreshInstance(s.api, k, read) {
        OthersLeaveWaiting(read);
        assert false;
      }
      WriteElsewhere(s.api, e.k, InstanceController.Decide(read).bmi, k, uid, hk, uuid);
    }
  }

  lemma NotForScheduler(c: Cluster, k: Key, uid: nat, hk: Key, read: Instance)
    requires Waits(c, k, uid, hk) && InstanceReadOk(c, k, read) && !Scheduler.Decide(read).NoEffect?
    ensures !FreshInstance(c, k, read)
  {
    if FreshInstance(c, k, read) {
      OthersLeaveWaiting(read);
    }
  }

  lemma SchedulerKeepsAdrift(s: State, e: Event, s': State, k: Key, uid: nat, hk: Key, uuid: string)
    requires SchedulerRunsOk(s) && SchedulerNext(s, e, s') && Adrift(s, k, uid, hk, uuid)
    ensures Adrift(s', k, uid, hk, uuid) && s'.readyRuns == s.readyRuns
  {
    hide Waits, Claimed, Scheduler.ToleratesAll, Scheduler.SelectorMatches;
    if e.SchedulerWrite? || e.SchedulerUnassign? || e.SchedulerAssign? {
      var read := s.schedulerRuns[e.k].bmi;
      assert SchedulerRunOk(s, e.k, s.schedulerRuns[e.k]);
      if e.k == k {
        NotForScheduler(s.api, k, uid, hk, read);
      }
      SchedulerKeepsAgent(read);
      var obj := if e.SchedulerAssign? then read.(hardwareName := e.name) else Scheduler.Decide(read).bmi;
      hide Scheduler.Decide;
      WriteElsewhere(s.api, e.k, obj, k, uid, hk, uuid);
    }
  }

  /** Without an agent the provisioner gets as far as the cleaning, and no further. */
  lemma ProvisionerLeavesWaiting(s: State, k: Key, r: Provisioner.Run)
    requires ProvisionerRunOk(s, k, r) && Uncleaned(r.bmi) && r.bmi.agentInfo.None? && Owns(s, k, r.bmi)
    ensures var d := Provisioner.Decide(k, r);
            d.UpdateInstance? ==>
              && Uncleaned(d.bmi) && d.bmi.uid == r.bmi.uid && d.bmi.finalizers == r.bmi.finalizers
              && d.bmi.agentInfo.None? && d.bmi.hardwareName == r.bmi.hardwareName
  {
  }

  lemma PutKeepsWaiting(c: Cluster, k: Key, obj: Instance, uid: nat, hk: Key)
    requires obj.uid == uid && Uncleaned(obj) && OwnFinalizer in obj.finalizers
    requires obj.agentInfo.None? && Provisioner.HardwareKey(k, obj) == hk
    ensures Waits(PutInstance(c, k, obj), k, uid, hk)
  {
  }

  lemma ProvisionerWriteKeepsAdrift(s: State, j: Key, r: Provisioner.Run, k: Key, uid: nat, hk: Key, uuid: string)
    requires ProvisionerRunOk(s, j, r) && Provisioner.Decide(j, r).UpdateInstance? && Adrift(s, k, uid, hk, uuid)
    ensures var c' := WriteInstance(s.api, j, Provisioner.Decide(j, r).bmi);
            Waits(c', k, uid, hk) && Claimed(c', hk, k, uid, uuid)
  {
    ProvisionerDecidesForward(j, r);
    if j == k && FreshInstance(s.api, k, r.bmi) {
      assert r.bmi == s.api.instances[k];
      ProvisionerLeavesWaiting(s, k, r);
      hide Provisioner.Decide;
      PutKeepsWaiting(s.api, k, Provisioner.Decide(j, r).bmi, uid, hk);
    } else {
      hide Provisioner.Decide;
      WriteElsewhere(s.api, j, Provisioner.Decide(j, r).bmi, k, uid, hk, uuid);
    }
  }

  /** No pass claims or releases hardware that is adrift. */
  lemma NotClaimedOrReleased(s: State, j: Key, k: Key, uid: nat, hk: Key, uuid: string)
    requires Inv(s) && AgentsRemembered(s) && Adrift(s, k, uid, hk, uuid) && j in s.provisionerRuns
    requires Provisioner.Decide(j, s.provisionerRuns[j]).UpdateHardware?
    ensures var r := s.provisionerRuns[j];
            Provisioner.HardwareKey(j, r.bmi) == hk ==> !FreshHardware(s.api, hk, Provisioner.Decide(j, r).bmh)
  {
    var r := s.provisionerRuns[j];
    HardwareEffect(j, r);
    assert ProvisionerRunOk(s, j, r);
    if Provisioner.HardwareKey(j, r.bmi) == hk && FreshHardware(s.api, hk, r.bmh.value.value) && j != k {
      UidsDiffer(s, k, j);
    }
  }

  lemma ClaimElsewhere(s: State, j: Key, bmh: Hardware, k: Key, uid: nat, hk: Key, uuid: string)
    requires Adrift(s, k, uid, hk, uuid) && (j == hk ==> !FreshHardware(s.api, hk, bmh))
    ensures Adrift(AfterClaimOrRelease(s, j, bmh), k, uid, hk, uuid)
  {
  }

  lemma ProvisionerKeepsAdrift(s: State, e: Event, s': State, k: Key, uid: nat, hk: Key, uuid: string)
    requires Inv(s) && AgentsRemembered(s) && ProvisionerActs(s, e, s') && Adrift(s, k, uid, hk, uuid)
    ensures Adrift(s', k, uid, hk, uuid) && s'.readyRuns == s.readyRuns
  {
    hide Provisioner.Decide, Waits, Claimed, AgentsRemembered, InstanceOk, HardwareOk, MachineOk;
    if e.ProvisionerWrite? {
      assert ProvisionerRunOk(s, e.k, s.provisionerRuns[e.k]);
      ProvisionerWriteKeepsAdrift(s, e.k, s.provisionerRuns[e.k], k, uid, hk, uuid);
      hide WriteInstance;
    } else if e.ProvisionerClaimOrRelease? {
      NotClaimedOrReleased(s, e.k, k, uid, hk, uuid);
      var r := s.provisionerRuns[e.k];
      ClaimElsewhere(EndProvisioner(s, e.k), Provisioner.HardwareKey(e.k, r.bmi), Provisioner.Decide(e.k, r).bmh,
                     k, uid, hk, uuid);
      hide PutHardware, Unbind;
    }
  }

  lemma DeleteKeepsWaiting(c: Cluster, j: Key, k: Key, uid: nat, hk: Key)
    requires Waits(c, k, uid, hk)
    ensures Waits(Store.DeleteInstance(c, j), k, uid, hk) && Store.DeleteInstance(c, j).hardware == c.hardware
  {
  }

  lemma HardwareWriteKeepsClaim(s: State, j: Key, r: HardwareRun, discoveries: seq<Option<Discovered>>,
                                k: Key, uid: nat, hk: Key, uuid: string)
    requires AllHardwareOk(s) && HardwareRunOk(s, j, r) && Claimed(s.api, hk, k, uid, uuid)
    requires HardwareController.Decide(r.bmh, r.tenant, discoveries).Writes()
    ensures Claimed(WriteHardware(s.api, j, HardwareController.Decide(r.bmh, r.tenant, discoveries).bmh), hk, k, uid, uuid)
  {
    HardwareEffectVersion(r.bmh, r.tenant, discoveries);
    if FreshHardware(s.api, j, r.bmh) {
      assert HardwareOk(s, j, s.api.hardware[j]) && s.api.hardware[j] == r.bmh;
      HardwareEffectIsOk(r.bmh, r.tenant, discoveries);
      hide HardwareController.Decide;
      PutKeepsClaim(s.api, j, HardwareController.Decide(r.bmh, r.tenant, discoveries).bmh, hk, k, uid, uuid);
    }
  }

  lemma HardwareKeepsAdrift(s: State, e: Event, s': State, k: Key, uid: nat, hk: Key, uuid: string)
    requires AllHardwareOk(s) && HardwareRunsOk(s) && HardwareNext(s, e, s') && Adrift(s, k, uid, hk, uuid)
    ensures Adrift(s', k, uid, hk, uuid) && s'.readyRuns == s.readyRuns
  {
    hide HardwareController.Decide, Waits, Claimed, HardwareOk;
    if e.HardwareWrite? {
      var r := s.hardwareRuns[e.k];
      assert HardwareRunOk(s, e.k, r);
      var effect := HardwareController.Decide(r.bmh, r.tenant, e.discoveries);
      if effect.Writes() {
        HardwareWriteKeepsClaim(s, e.k, r, e.discoveries, k, uid, hk, uuid);
        OnlyHardwareWritten(s.api, e.k, effect.bmh, k, uid, hk);
      } else if effect.DeleteTenant? && r.bmh.instanceRef.Some? {
        DeleteKeepsWaiting(s.api, r.bmh.instanceRef.value.key, k, uid, hk);
        SameHardwareClaimed(s.api, Store.DeleteInstance(s.api, r.bmh.instanceRef.value.key), k, uid, hk, uuid);
      }
      hide WriteHardware;
    }
  }

  lemma OnlyHardwareWritten(c: Cluster, j: Key, bmh: Hardware, k: Key, uid: nat, hk: Key)
    requires Waits(c, k, uid, hk)
    ensures Waits(WriteHardware(c, j, bmh), k, uid, hk)
  {
  }

  lemma SameHardwareClaimed(c: Cluster, c': Cluster, k: Key, uid: nat, hk: Key, uuid: string)
    requires Claimed(c, hk, k, uid, uuid) && c'.hardware == c.hardware
    ensures Claimed(c', hk, k, uid, uuid)
  {
  }

  /** A request finds the hardware only if the machine can be told. */
  lemma FoundIsIdentified(s: State, h: Key, machine: string, k: Key, uid: nat, hk: Key, uuid: string)
    requires AllHardwareOk(s) && Adrift(s, k, uid, hk, uuid) && Unidentified(s.api, hk, uuid)
    requires machine != "" && Discovery.OnlyHardware(s.api, machine, h)
    ensures s.api.hardware[h].instanceRef != Some(InstanceRef(k, uid))
  {
    assert HardwareOk(s, h, s.api.hardware[h]);
  }

  lemma ReadyKeepsAdrift(s: State, e: Event, s': State, k: Key, uid: nat, hk: Key, uuid: string)
    requires AllHardwareOk(s) && ReadyRunsOk(s) && ReadyNext(s, e, s') && Adrift(s, k, uid, hk, uuid)
    requires NoRequest(s, k, uid) && Unidentified(s.api, hk, uuid)
    ensures Adrift(s', k, uid, hk, uuid) && NoRequest(s', k, uid)
  {
    hide Discovery.OnlyHardware, Unidentified, HardwareOk;
    match e {
      case ReadyFind(id, machine, h) => FoundIsIdentified(s, h, machine, k, uid, hk, uuid);
      case ReadyWrite(id) =>
        var r := s.readyRuns[id];
        assert ReadyRunOk(s, r);
        WriteElsewhere(s.api, r.ref.key, r.bmi.value.(agentInfo := Some(r.machine)), k, uid, hk, uuid);
      case _ =>
    }
  }

  lemma ReadsKeepRequests(s: State, e: Event, s': State)
    requires MachineNext(s, e, s') || ProvisionerReads(s, e, s')
    ensures s'.api == s.api && s'.readyRuns == s.readyRuns
  {
    hide Provisioner.Decide;
  }

  lemma NextKeepsAdrift(s: State, e: Event, s': State, k: Key, uid: nat, hk: Key, uuid: string)
    requires Inv(s) && AgentsRemembered(s) && Next(s, e, s') && Adrift(s, k, uid, hk, uuid)
    requires NoRequest(s, k, uid) && Unidentified(s.api, hk, uuid)
    ensures Adrift(s', k, uid, hk, uuid) && NoRequest(s', k, uid)
  {
    hide UserNext, MachineNext, ControllerNext, SchedulerNext, ProvisionerReads, ProvisionerActs, HardwareNext, ReadyNext;
    hide InstanceOk, HardwareOk, MachineOk, SchedulerRunOk, ProvisionerRunOk, AgentsRemembered, Waits, Claimed, Unidentified;
    if UserNext(s, e, s') {
      UserKeepsAdrift(s, e, s', k, uid, hk, uuid);
    } else if MachineNext(s, e, s') || ProvisionerReads(s, e, s') {
      ReadsKeepRequests(s, e, s');
    } else if ControllerNext(s, e, s') {
      ControllerKeepsAdrift(s, e, s', k, uid, hk, uuid);
    } else if SchedulerNext(s, e, s') {
      SchedulerKeepsAdrift(s, e, s', k, uid, hk, uuid);
    } else if ProvisionerActs(s, e, s') {
      ProvisionerKeepsAdrift(s, e, s', k, uid, hk, uuid);
    } else if HardwareNext(s, e, s') {
      HardwareKeepsAdrift(s, e, s', k, uid, hk, uuid);
    } else {
      ReadyKeepsAdrift(s, e, s', k, uid, hk, uuid);
    }
  }
}
