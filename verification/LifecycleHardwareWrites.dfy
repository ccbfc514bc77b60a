// Writes of a hardware object: those that keep its tenant, which users and the hardware controller
// make, the claim by an instance, and the release once its disks are clean. What a write leaves
// alone is stated once for all of them, by the part of the invariant it concerns, and the writers
// only show which of the three they make.
module LifecycleHardwareWrites {
  import opened Common
  import opened Objects
  import opened Store
  import opened Lifecycle
  import opened LifecycleInvariant
  import Provisioner

  /** Only hardware objects changed, and every tenant stayed on its machine. */
  ghost predicate SameTenants(s: State, s': State) {
    && s' == s.(api := s.api.(hardware := s'.api.hardware, revision := s'.api.revision))
    && s.api.revision <= s'.api.revision
    && (forall h :: h in s.api.hardware && s.api.hardware[h].instanceRef.Some? ==>
          && h in s'.api.hardware
          && s'.api.hardware[h].instanceRef == s.api.hardware[h].instanceRef
          && s'.api.hardware[h].systemUUID == s.api.hardware[h].systemUUID)
    && (forall h :: h in s'.api.hardware && s'.api.hardware[h].instanceRef.Some? ==>
          h in s.api.hardware && s.api.hardware[h].instanceRef.Some?)
  }

  /** A write that keeps the tenant and the identity of the machine. */
  predicate KeepsTenant(before: Hardware, obj: Hardware) {
    && obj.instanceRef == before.instanceRef
    && obj.systemUUID == before.systemUUID
    && (OwnFinalizer !in obj.finalizers ==> obj.deleting && obj.instanceRef.None?)
  }

  lemma KeptTenants(s: State, hk: Key, obj: Hardware)
    requires hk in s.api.hardware && KeepsTenant(s.api.hardware[hk], obj)
    ensures SameTenants(s, s.(api := PutHardware(s.api, hk, obj)))
  {
    OnlyHardwareChanges(s, hk, obj);
  }

  lemma OnlyHardwareChanges(s: State, hk: Key, obj: Hardware)
    ensures var c' := PutHardware(s.api, hk, obj);
            s.(api := c') == s.(api := s.api.(hardware := c'.hardware, revision := c'.revision))
  {
  }

  /** A new object without a tenant. */
  lemma NewTenantless(s: State, hk: Key, obj: Hardware)
    requires hk !in s.api.hardware && obj.instanceRef.None?
    ensures SameTenants(s, s.(api := PutHardware(s.api, hk, obj)))
  {
  }

  lemma SameTenantsOwns(s: State, s': State, k: Key, bmi: Instance)
    requires SameTenants(s, s')
    ensures Owns(s', k, bmi) == Owns(s, k, bmi)
    ensures Owns(s, k, bmi) ==> ImagedBy(s', k, bmi) == ImagedBy(s, k, bmi)
  {
    var hk := Provisioner.HardwareKey(k, bmi);
    if hk in s'.api.hardware && s'.api.hardware[hk].instanceRef.Some? {
      assert hk in s.api.hardware;
    }
  }

  lemma SameTenantsBound(s: State, s': State, m: string, hk: Key)
    requires SameTenants(s, s')
    requires BoundTo(s, m, hk) && s.api.hardware[hk].instanceRef.Some?
    ensures BoundTo(s', m, hk) && s'.api.hardware[hk].instanceRef == s.api.hardware[hk].instanceRef
  {
  }

  lemma SameTenantsInstance(s: State, s': State, k: Key, bmi: Instance)
    requires SameTenants(s, s') && InstanceOk(s, k, bmi)
    ensures InstanceOk(s', k, bmi)
  {
    SameTenantsOwns(s, s', k, bmi);
    if bmi.agentInfo.Some? && Owns(s, k, bmi) {
      SameTenantsBound(s, s', bmi.agentInfo.value, Provisioner.HardwareKey(k, bmi));
    }
  }

  lemma SameTenantsMachines(s: State, s': State)
    requires SameTenants(s, s') && MachinesBoundOk(s) && MachinesOk(s)
    ensures MachinesBoundOk(s') && MachinesOk(s')
  {
    forall m | m in s'.bound
      ensures BoundOk(s', m)
    {
      assert BoundOk(s, m);
      SameTenantsBound(s, s', m, s.bound[m]);
    }
    forall m
      ensures MachineOk(s', m)
    {
      assert MachineOk(s, m);
      if m in s.bound {
        assert BoundOk(s, m);
        SameTenantsBound(s, s', m, s.bound[m]);
      }
    }
  }

  lemma SameTenantsWork(s: State, s': State, k: Key, r: Provisioner.Run)
    requires SameTenants(s, s') && HardwareWorkOk(s, k, r)
    ensures HardwareWorkOk(s', k, r)
  {
    SameTenantsOwns(s, s', k, r.bmi);
    if r.bmi.agentInfo.Some? && Owns(s, k, r.bmi) {
      SameTenantsBound(s, s', r.bmi.agentInfo.value, Provisioner.HardwareKey(k, r.bmi));
    }
  }

  lemma SameTenantsReady(s: State, s': State, r: ReadyRun)
    requires SameTenants(s, s') && ReadyRunOk(s, r)
    ensures ReadyRunOk(s', r)
  {
    if Gone(s.api, r.hardware, r.ref) {
      if r.hardware in s'.api.hardware && s'.api.hardware[r.hardware].instanceRef.Some? {
        assert r.hardware in s.api.hardware;
      }
      assert Gone(s'.api, r.hardware, r.ref);
    } else {
      SameTenantsBound(s, s', r.machine, r.hardware);
    }
  }

  // ---------------------------------------------------------------- reads of hardware

  lemma HardwareWriteKeepsReads(c: Cluster, hk: Key, obj: Hardware, h: Key, read: Hardware)
    requires HardwareReadOk(c, h, read)
    ensures HardwareReadOk(PutHardware(c, hk, obj), h, read)
  {
  }

  lemma HardwareWriteKeepsHardwareRuns(s: State, hk: Key, obj: Hardware, bound': map<string, Key>)
    requires HardwareRunsOk(s)
    ensures HardwareRunsOk(s.(api := PutHardware(s.api, hk, obj), bound := bound'))
  {
    var s' := s.(api := PutHardware(s.api, hk, obj), bound := bound');
    forall h | h in s'.hardwareRuns
      ensures HardwareRunOk(s', h, s'.hardwareRuns[h])
    {
      assert HardwareRunOk(s, h, s.hardwareRuns[h]);
      HardwareWriteKeepsReads(s.api, hk, obj, h, s.hardwareRuns[h].bmh);
    }
  }

  lemma HardwareWriteKeepsInstanceRuns(s: State, hk: Key, obj: Hardware, bound': map<string, Key>)
    requires ControllerRunsOk(s) && SchedulerRunsOk(s) && InstancesDistinct(s.api)
    ensures ControllerRunsOk(s.(api := PutHardware(s.api, hk, obj), bound := bound'))
    ensures SchedulerRunsOk(s.(api := PutHardware(s.api, hk, obj), bound := bound'))
    ensures InstancesDistinct(PutHardware(s.api, hk, obj))
  {
    var s' := s.(api := PutHardware(s.api, hk, obj), bound := bound');
    forall k | k in s'.controllerRuns
      ensures InstanceReadOk(s'.api, k, s'.controllerRuns[k])
    {
      assert InstanceReadOk(s.api, k, s.controllerRuns[k]);
    }
    forall k | k in s'.schedulerRuns
      ensures SchedulerRunOk(s', k, s'.schedulerRuns[k])
    {
      assert SchedulerRunOk(s, k, s.schedulerRuns[k]);
    }
    forall i, j | i in s'.api.instances && j in s'.api.instances && i != j
      ensures DistinctInstances(s'.api.instances[i], s'.api.instances[j])
    {
      assert DistinctInstances(s.api.instances[i], s.api.instances[j]);
    }
  }

  lemma HardwareWriteKeepsOthers(s: State, hk: Key, obj: Hardware, s': State)
    requires AllHardwareOk(s) && HardwareOk(s, hk, obj)
    requires s' == s.(api := PutHardware(s.api, hk, obj), bound := s'.bound)
    ensures AllHardwareOk(s')
  {
    forall h | h in s'.api.hardware
      ensures HardwareOk(s', h, s'.api.hardware[h])
    {
      assert h != hk ==> HardwareOk(s, h, s.api.hardware[h]);
    }
  }

  // ---------------------------------------------------------------- writes that keep the tenant

  lemma PutHardwareKeepsInv(s: State, hk: Key, obj: Hardware)
    requires Inv(s) && HardwareOk(s, hk, obj)
    requires SameTenants(s, s.(api := PutHardware(s.api, hk, obj)))
    ensures Inv(s.(api := PutHardware(s.api, hk, obj)))
  {
    var s' := s.(api := PutHardware(s.api, hk, obj));
    HardwareWriteKeepsOthers(s, hk, obj, s');
    HardwareWriteKeepsHardwareRuns(s, hk, obj, s.bound);
    HardwareWriteKeepsInstanceRuns(s, hk, obj, s.bound);
    SameTenantsMachines(s, s');
    forall k | k in s'.api.instances
      ensures InstanceOk(s', k, s'.api.instances[k])
    {
      SameTenantsInstance(s, s', k, s.api.instances[k]);
    }
    SameTenantsProvisioner(s, hk, obj);
    forall id | id in s'.readyRuns
      ensures ReadyRunOk(s', s'.readyRuns[id])
    {
      SameTenantsReady(s, s', s.readyRuns[id]);
    }
  }

  lemma SameTenantsProvisioner(s: State, hk: Key, obj: Hardware)
    requires ProvisionerRunsOk(s)
    requires SameTenants(s, s.(api := PutHardware(s.api, hk, obj)))
    ensures ProvisionerRunsOk(s.(api := PutHardware(s.api, hk, obj)))
  {
    var s' := s.(api := PutHardware(s.api, hk, obj));
    forall k | k in s'.provisionerRuns
      ensures ProvisionerRunOk(s', k, s'.provisionerRuns[k])
    {
      var r := s.provisionerRuns[k];
      assert ProvisionerRunOk(s, k, r);
      if r.bmh.Some? && r.bmh.value.Some? {
        HardwareWriteKeepsReads(s.api, hk, obj, Provisioner.HardwareKey(k, r.bmi), r.bmh.value.value);
      }
      if WorksOnHardware(r) {
        SameTenantsWork(s, s', k, r);
      }
    }
  }
}
