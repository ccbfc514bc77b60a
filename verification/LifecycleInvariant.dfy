// The invariant of the life cycle. Every part talks about one object, one machine or one run,
// so that a step only has to re-establish the parts it touches.
module LifecycleInvariant {
  import opened Common
  import opened Objects
  import opened Store
  import opened Agent
  import opened Lifecycle
  import Provisioner

  // ---------------------------------------------------------------- objects

  /** The hardware an instance names exists and names the instance back. */
  predicate Owns(s: State, k: Key, bmi: Instance) {
    var hk := Provisioner.HardwareKey(k, bmi);
    hk in s.api.hardware && s.api.hardware[hk].instanceRef == Some(Provisioner.RefTo(k, bmi))
  }

  /** The machine is the one behind the hardware, and /ready found that hardware for it. */
  predicate BoundTo(s: State, machine: string, hk: Key) {
    && machine in s.bound && s.bound[machine] == hk
    && hk in s.api.hardware && s.api.hardware[hk].systemUUID == machine
  }

  predicate ActivePhase(p: Phase) {
    p == Provisioning || p == Running || p == Cleaning
  }

  predicate ImagedBy(s: State, k: Key, bmi: Instance) {
    var hk := Provisioner.HardwareKey(k, bmi);
    && hk in s.api.hardware
    && s.api.hardware[hk].systemUUID in s.dirty
    && s.dirty[s.api.hardware[hk].systemUUID] == bmi.uid
  }

  /** What can be said of an instance without looking at other objects. */
  predicate InstanceShape(s: State, bmi: Instance) {
    && bmi.uid < s.api.nextUid
    && bmi.version <= s.api.revision
    && (PhaseIndex(bmi.phase) >= PhaseIndex(Cleaning) ==> bmi.deleting)
    && (ActivePhase(bmi.phase) ==> bmi.Is(InstanceScheduled, StatusTrue))
    && (bmi.Is(InstanceScheduled, StatusTrue) ==>
          bmi.hardwareName != "" && PhaseIndex(bmi.phase) >= PhaseIndex(Pending))
    && (PhaseIndex(bmi.phase) <= PhaseIndex(Pending) ==> !bmi.Has(InstanceNetworked) && bmi.agentInfo.None?)
    && (bmi.Has(InstanceImaged) ==> bmi.Is(InstanceNetworked, StatusTrue))
    && (bmi.phase == Running ==> bmi.Is(InstanceImaged, StatusTrue) && bmi.agentInfo.None?)
    && (bmi.Has(InstanceCleaned) ==> bmi.deleting)
    && (bmi.Is(InstanceCleaned, StatusTrue) ==> PhaseIndex(bmi.phase) >= PhaseIndex(Cleaning))
    && (OwnFinalizer !in bmi.finalizers ==> bmi.phase == Terminated && bmi.agentInfo.None?)
  }

  predicate InstanceOk(s: State, k: Key, bmi: Instance) {
    && InstanceShape(s, bmi)
    && (bmi.Has(InstanceNetworked) && (bmi.phase == Provisioning || bmi.phase == Running) ==> Owns(s, k, bmi))
    && (bmi.Is(InstanceImaged, StatusTrue) && (bmi.phase == Provisioning || bmi.phase == Running) ==>
          ImagedBy(s, k, bmi))
    && (bmi.Is(InstanceCleaned, StatusTrue) ==> !Owns(s, k, bmi))
    && (bmi.agentInfo.Some? && bmi.phase == Provisioning ==> Owns(s, k, bmi))
    && (bmi.agentInfo.Some? && Owns(s, k, bmi) ==>
          BoundTo(s, bmi.agentInfo.value, Provisioner.HardwareKey(k, bmi)))
  }

  /** A reference names a live tenant that names the hardware back. */
  predicate TenantOk(c: Cluster, hk: Key, ref: InstanceRef) {
    && ref.key in c.instances
    && var bmi := c.instances[ref.key];
       && bmi.uid == ref.uid
       && Provisioner.HardwareKey(ref.key, bmi) == hk
       && ActivePhase(bmi.phase)
  }

  predicate HardwareOk(s: State, hk: Key, bmh: Hardware) {
    && bmh.version <= s.api.revision && hk.name != ""
    && (bmh.instanceRef.Some? ==> TenantOk(s.api, hk, bmh.instanceRef.value))
    && (OwnFinalizer !in bmh.finalizers ==> bmh.deleting && bmh.instanceRef.None?)
  }

  predicate DistinctInstances(a: Instance, b: Instance) {
    a.uid != b.uid && (a.hardwareName == b.hardwareName ==> a.hardwareName == "")
  }

  // ---------------------------------------------------------------- machines

  predicate BoundOk(s: State, machine: string) {
    machine in s.bound ==>
      BoundTo(s, machine, s.bound[machine]) && s.api.hardware[s.bound[machine]].instanceRef.Some?
  }

  /** The UID of the tenant of the machine, as far as /ready knows one. */
  predicate TenantUid(s: State, machine: string, uid: nat) {
    && machine in s.bound && s.bound[machine] in s.api.hardware
    && s.api.hardware[s.bound[machine]].instanceRef.Some?
    && s.api.hardware[s.bound[machine]].instanceRef.value.uid == uid
  }

  predicate CleaningNow(s: State, machine: string) {
    && machine in s.boots && s.boots[machine].current.Some?
    && s.boots[machine].current.value.actionType == CleaningDisks && !s.boots[machine].current.value.done
  }

  predicate TenantCleans(s: State, machine: string) {
    && machine in s.bound && s.bound[machine] in s.api.hardware
    && var ref := s.api.hardware[s.bound[machine]].instanceRef;
       ref.Some? && ref.value.key in s.api.instances && s.api.instances[ref.value.key].phase == Cleaning
  }

  predicate MachineOk(s: State, machine: string) {
    && (machine in s.dirty ==> TenantUid(s, machine, s.dirty[machine]))
    && (CleaningNow(s, machine) ==> TenantCleans(s, machine))
    && (machine in s.boots && s.boots[machine].current.Some? ==>
          var status := s.boots[machine].current.value;
          && (status.actionType == Imaging ==> machine in s.dirty)
          && (status.actionType == CleaningDisks && status.done && !status.failed ==> machine !in s.dirty))
  }

  // ---------------------------------------------------------------- runs

  /** What a run fetched is what is stored, if the version still matches. */
  predicate InstanceReadOk(c: Cluster, k: Key, read: Instance) {
    read.version <= c.revision && (FreshInstance(c, k, read) ==> c.instances[k] == read)
  }

  predicate HardwareReadOk(c: Cluster, k: Key, read: Hardware) {
    read.version <= c.revision && (FreshHardware(c, k, read) ==> c.hardware[k] == read)
  }

  /** The instance of a run that works on hardware is still where the run read it: nobody else
      moves it on. */
  predicate StillThere(c: Cluster, k: Key, read: Instance) {
    && k in c.instances
    && var bmi := c.instances[k];
       && bmi.uid == read.uid
       && bmi.phase == read.phase
       && bmi.conditions == read.conditions
       && bmi.hardwareName == read.hardwareName
  }

  predicate WorksOnHardware(r: Provisioner.Run) {
    && r.bmi.Is(InstanceScheduled, StatusTrue)
    && (r.bmi.phase == Provisioning || r.bmi.phase == Cleaning)
  }

  predicate ReadTenant(r: Provisioner.Run, k: Key) {
    r.bmh.Some? && r.bmh.value.Some? && r.bmh.value.value.instanceRef == Some(Provisioner.RefTo(k, r.bmi))
  }

  predicate SawCleaned(r: Provisioner.Run) {
    && r.agent.Some? && r.agent.value.AgentBusy?
    && r.agent.value.status.actionType == CleaningDisks
    && r.agent.value.status.done && !r.agent.value.status.failed
  }

  predicate SawImaged(r: Provisioner.Run) {
    && r.agent.Some? && r.agent.value.AgentBusy?
    && r.agent.value.status.actionType == Imaging
  }

  predicate ProvisionerRunOk(s: State, k: Key, r: Provisioner.Run) {
    && InstanceReadOk(s.api, k, r.bmi)
    && (r.bmh.Some? && r.bmh.value.Some? ==>
          HardwareReadOk(s.api, Provisioner.HardwareKey(k, r.bmi), r.bmh.value.value))
    && (WorksOnHardware(r) ==> HardwareWorkOk(s, k, r))
  }

  predicate HardwareWorkOk(s: State, k: Key, r: Provisioner.Run) {
    && StillThere(s.api, k, r.bmi)
    && (r.bmi.agentInfo.Some? && r.bmi.phase == Provisioning ==> Owns(s, k, r.bmi))
    && (r.bmi.agentInfo.Some? && Owns(s, k, r.bmi) ==>
          BoundTo(s, r.bmi.agentInfo.value, Provisioner.HardwareKey(k, r.bmi)))
    && (ReadTenant(r, k) ==> Owns(s, k, r.bmi))
    // the hardware that was read named no other tenant
    && (r.bmh.Some? && r.bmh.value.Some? && r.bmh.value.value.instanceRef.Some? ==> ReadTenant(r, k))
    // once it is gone or free, it stays free of an instance that is being cleaned
    && (r.bmh.Some? && !ReadTenant(r, k) && r.bmi.phase == Cleaning ==> !Owns(s, k, r.bmi))
    && (SawCleaned(r) && r.bmi.phase == Cleaning && r.bmi.agentInfo.Some? && Owns(s, k, r.bmi) ==>
          r.bmi.agentInfo.value !in s.dirty && !CleaningNow(s, r.bmi.agentInfo.value))
    && (SawImaged(r) && r.bmi.phase == Provisioning && r.bmi.agentInfo.Some? ==>
          ImagedBy(s, k, r.bmi))
  }

  predicate SchedulerRunOk(s: State, k: Key, r: SchedulerRun) {
    && InstanceReadOk(s.api, k, r.bmi)
    && (r.Locked? ==> s.lock == Some(k) && forall name :: name in r.unused ==> name != "" && NameUnused(s.api, name))
    && (r.Unlocked? ==> s.lock != Some(k))
  }

  predicate HardwareRunOk(s: State, hk: Key, r: HardwareRun) {
    && HardwareReadOk(s.api, hk, r.bmh)
    && (r.tenant.Some? && r.bmh.instanceRef.Some? && FreshHardware(s.api, hk, r.bmh) ==>
          r.tenant == Some(Some(r.bmh.instanceRef.value.uid)))
  }

  /** The tenant of a reference is past the point where it could be given hardware. */
  predicate Gone(c: Cluster, hk: Key, ref: InstanceRef) {
    && (ref.key in c.instances && c.instances[ref.key].uid == ref.uid ==>
          && PhaseIndex(c.instances[ref.key].phase) >= PhaseIndex(Cleaning)
          && (c.instances[ref.key].phase == Cleaning ==>
                Provisioner.HardwareKey(ref.key, c.instances[ref.key]) == hk))
    && (hk in c.hardware ==> c.hardware[hk].instanceRef != Some(ref))
    && ref.uid < c.nextUid
  }

  predicate ReadyRunOk(s: State, r: ReadyRun) {
    && (Gone(s.api, r.hardware, r.ref) ||
          (BoundTo(s, r.machine, r.hardware) && s.api.hardware[r.hardware].instanceRef == Some(r.ref)))
    && (r.bmi.Some? ==> InstanceReadOk(s.api, r.ref.key, r.bmi.value))
    && r.ref.key.ns == r.hardware.ns
  }

  ghost predicate InstancesOk(s: State) {
    forall k :: k in s.api.instances ==> InstanceOk(s, k, s.api.instances[k])
  }

  ghost predicate InstancesDistinct(c: Cluster) {
    forall k, j :: k in c.instances && j in c.instances && k != j ==> DistinctInstances(c.instances[k], c.instances[j])
  }

  ghost predicate AllHardwareOk(s: State) {
    forall hk :: hk in s.api.hardware ==> HardwareOk(s, hk, s.api.hardware[hk])
  }

  ghost predicate MachinesBoundOk(s: State) {
    forall m :: m in s.bound ==> BoundOk(s, m)
  }

  ghost predicate MachinesOk(s: State) {
    forall m :: MachineOk(s, m)
  }

  ghost predicate ControllerRunsOk(s: State) {
    forall k :: k in s.controllerRuns ==> InstanceReadOk(s.api, k, s.controllerRuns[k])
  }

  ghost predicate SchedulerRunsOk(s: State) {
    && (forall k :: k in s.schedulerRuns ==> SchedulerRunOk(s, k, s.schedulerRuns[k]))
    && (s.lock.Some? ==> s.lock.value in s.schedulerRuns)
  }

  ghost predicate ProvisionerRunsOk(s: State) {
    forall k :: k in s.provisionerRuns ==> ProvisionerRunOk(s, k, s.provisionerRuns[k])
  }

  ghost predicate HardwareRunsOk(s: State) {
    forall hk :: hk in s.hardwareRuns ==> HardwareRunOk(s, hk, s.hardwareRuns[hk])
  }

  ghost predicate ReadyRunsOk(s: State) {
    forall id :: id in s.readyRuns ==> ReadyRunOk(s, s.readyRuns[id])
  }

  ghost predicate Inv(s: State) {
    && InstancesOk(s) && InstancesDistinct(s.api) && AllHardwareOk(s)
    && MachinesBoundOk(s) && MachinesOk(s)
    && ControllerRunsOk(s) && SchedulerRunsOk(s) && ProvisionerRunsOk(s) && HardwareRunsOk(s) && ReadyRunsOk(s)
  }

  lemma InitInv()
    ensures Inv(INIT)
  {
  }
}
