// The two writes that change who a machine belongs to: the claim of free hardware by an instance,
// and its release once the disks are clean. Both are made by the provisioner, both act on hardware
// it read some time ago, and both have to respect what is known of the machine behind it and of
// the requests of agents that are under way.
module LifecycleTenancy {
  import opened Common
  import opened Objects
  import opened Store
  import opened Lifecycle
  import opened LifecycleInvariant
  import opened LifecycleHardwareWrites
  import Provisioner

  /** Only hardware hk changed; before and after it names nobody but instance k. */
  ghost predicate TenancyChange(s: State, s': State, hk: Key, k: Key) {
    && s'.api.instances == s.api.instances && s'.api.nextUid == s.api.nextUid
    && s'.boots == s.boots && s'.dirty == s.dirty
    && s.api.revision <= s'.api.revision
    && (forall h :: h != hk ==>
          && (h in s'.api.hardware <==> h in s.api.hardware)
          && (h in s.api.hardware ==> s'.api.hardware[h] == s.api.hardware[h]))
    && hk in s.api.hardware && hk in s'.api.hardware
    && s'.api.hardware[hk].systemUUID == s.api.hardware[hk].systemUUID
    && (s.api.hardware[hk].instanceRef.Some? ==> s.api.hardware[hk].instanceRef.value.key == k)
    && (s'.api.hardware[hk].instanceRef.Some? ==> s'.api.hardware[hk].instanceRef.value.key == k)
    && (forall m :: m in s'.bound ==> m in s.bound && s'.bound[m] == s.bound[m])
    && (forall m :: m in s.bound && s.bound[m] != hk ==> m in s'.bound)
  }

  lemma ChangeKeepsOthersOwns(s: State, s': State, hk: Key, k: Key, j: Key, bmi: Instance)
    requires TenancyChange(s, s', hk, k) && j != k
    ensures Owns(s', j, bmi) == Owns(s, j, bmi)
    ensures Owns(s, j, bmi) ==> Provisioner.HardwareKey(j, bmi) != hk
    ensures Owns(s, j, bmi) ==> ImagedBy(s', j, bmi) == ImagedBy(s, j, bmi)
  {
  }

  lemma ChangeKeepsOtherInstance(s: State, s': State, hk: Key, k: Key, j: Key, bmi: Instance)
    requires TenancyChange(s, s', hk, k) && j != k && InstanceOk(s, j, bmi)
    ensures InstanceOk(s', j, bmi)
  {
    ChangeKeepsOthersOwns(s, s', hk, k, j, bmi);
  }

  lemma ChangeKeepsOtherWork(s: State, s': State, hk: Key, k: Key, j: Key, r: Provisioner.Run)
    requires TenancyChange(s, s', hk, k) && j != k && HardwareWorkOk(s, j, r)
    ensures HardwareWorkOk(s', j, r)
  {
    ChangeKeepsOthersOwns(s, s', hk, k, j, r.bmi);
  }

  lemma ChangeKeepsProvisioner(s: State, s': State, hk: Key, k: Key, obj: Hardware)
    requires TenancyChange(s, s', hk, k) && k !in s.provisionerRuns && ProvisionerRunsOk(s)
    requires s' == s.(api := PutHardware(s.api, hk, obj), bound := s'.bound)
    ensures ProvisionerRunsOk(s')
  {
    forall j | j in s'.provisionerRuns
      ensures ProvisionerRunOk(s', j, s'.provisionerRuns[j])
    {
      var r := s.provisionerRuns[j];
      assert ProvisionerRunOk(s, j, r);
      if r.bmh.Some? && r.bmh.value.Some? {
        HardwareWriteKeepsReads(s.api, hk, obj, Provisioner.HardwareKey(j, r.bmi), r.bmh.value.value);
      }
      if WorksOnHardware(r) {
        ChangeKeepsOtherWork(s, s', hk, k, j, r);
      }
    }
  }

  lemma ChangeKeepsReads(s: State, s': State, hk: Key, obj: Hardware)
    requires s' == s.(api := PutHardware(s.api, hk, obj), bound := s'.bound)
    requires AllHardwareOk(s) && HardwareOk(s, hk, obj) && InstancesDistinct(s.api)
    requires HardwareRunsOk(s) && ControllerRunsOk(s) && SchedulerRunsOk(s)
    ensures AllHardwareOk(s') && InstancesDistinct(s'.api)
    ensures HardwareRunsOk(s') && ControllerRunsOk(s') && SchedulerRunsOk(s')
  {
    HardwareWriteKeepsOthers(s, hk, obj, s');
    HardwareWriteKeepsHardwareRuns(s, hk, obj, s'.bound);
    HardwareWriteKeepsInstanceRuns(s, hk, obj, s'.bound);
  }

  lemma ChangeKeepsOtherInstances(s: State, s': State, hk: Key, k: Key)
    requires TenancyChange(s, s', hk, k) && InstancesOk(s)
    requires k in s.api.instances && InstanceOk(s', k, s.api.instances[k])
    ensures InstancesOk(s')
  {
    forall j | j in s'.api.instances
      ensures InstanceOk(s', j, s'.api.instances[j])
    {
      if j != k {
        ChangeKeepsOtherInstance(s, s', hk, k, j, s.api.instances[j]);
      }
    }
  }

  // ---------------------------------------------------------------- claim

  ghost predicate IsClaim(s: State, hk: Key, k: Key, s': State) {
    && hk in s.api.hardware && s.api.hardware[hk].instanceRef.None? && !s.api.hardware[hk].deleting
    && k in s.api.instances && k !in s.provisionerRuns
    && var bmi := s.api.instances[k];
       && bmi.phase == Provisioning && Provisioner.HardwareKey(k, bmi) == hk
       && s' == s.(api := PutHardware(s.api, hk, s.api.hardware[hk].(instanceRef := Some(Provisioner.RefTo(k, bmi)))))
  }

  lemma ClaimKeepsMachines(s: State, hk: Key, k: Key, s': State)
    requires IsClaim(s, hk, k, s') && MachinesBoundOk(s) && MachinesOk(s)
    ensures MachinesBoundOk(s') && MachinesOk(s')
  {
    forall m | m in s'.bound
      ensures BoundOk(s', m)
    {
      assert BoundOk(s, m);
    }
    forall m
      ensures MachineOk(s', m)
    {
      assert MachineOk(s, m);
    }
  }

  lemma ClaimKeepsReady(s: State, hk: Key, k: Key, s': State)
    requires IsClaim(s, hk, k, s') && ReadyRunsOk(s)
    ensures ReadyRunsOk(s')
  {
    forall id | id in s'.readyRuns
      ensures ReadyRunOk(s', s'.readyRuns[id])
    {
      assert ReadyRunOk(s, s.readyRuns[id]);
    }
  }

  /** The claimed instance had no agent yet: an agent is only known to a tenant. */
  lemma ClaimKeepsTenant(s: State, hk: Key, k: Key, s': State)
    requires IsClaim(s, hk, k, s') && InstancesOk(s) && AllHardwareOk(s)
    ensures InstanceOk(s', k, s'.api.instances[k])
    ensures HardwareOk(s, hk, s.api.hardware[hk].(instanceRef := Some(Provisioner.RefTo(k, s.api.instances[k]))))
    ensures TenancyChange(s, s', hk, k)
  {
    assert HardwareOk(s, hk, s.api.hardware[hk]);
    assert InstanceOk(s, k, s.api.instances[k]);
  }

  lemma ClaimKeepsInv(s: State, hk: Key, k: Key, s': State)
    requires Inv(s) && IsClaim(s, hk, k, s')
    ensures Inv(s')
  {
    var obj := s.api.hardware[hk].(instanceRef := Some(Provisioner.RefTo(k, s.api.instances[k])));
    ClaimKeepsTenant(s, hk, k, s');
    ChangeKeepsReads(s, s', hk, obj);
    ClaimKeepsMachines(s, hk, k, s');
    ClaimKeepsReady(s, hk, k, s');
    ChangeKeepsOtherInstances(s, s', hk, k);
    ChangeKeepsProvisioner(s, s', hk, k, obj);
  }

  // ---------------------------------------------------------------- release

  ghost predicate IsRelease(s: State, hk: Key, k: Key, s': State) {
    && hk in s.api.hardware && s.api.hardware[hk].instanceRef.Some?
    && s.api.hardware[hk].instanceRef.value.key == k
    && k in s.api.instances && k !in s.provisionerRuns
    && s.api.instances[k].phase == Cleaning && Provisioner.HardwareKey(k, s.api.instances[k]) == hk
    && s' == s.(api := PutHardware(s.api, hk, s.api.hardware[hk].(instanceRef := None)),
                bound := Unbind(s.bound, hk))
    && (forall m :: m in s.bound && s.bound[m] == hk ==> m !in s.dirty && !CleaningNow(s, m))
  }

  lemma ReleaseKeepsMachines(s: State, hk: Key, k: Key, s': State)
    requires IsRelease(s, hk, k, s') && MachinesBoundOk(s) && MachinesOk(s) && AllHardwareOk(s)
    ensures MachinesBoundOk(s') && MachinesOk(s')
  {
    assert HardwareOk(s, hk, s.api.hardware[hk]);
    forall m | m in s'.bound
      ensures BoundOk(s', m)
    {
      assert BoundOk(s, m);
    }
    forall m
      ensures MachineOk(s', m)
    {
      assert MachineOk(s, m);
      assert m in s.bound && s.bound[m] != hk ==> m in s'.bound;
    }
  }

  lemma ReleaseKeepsReady(s: State, hk: Key, k: Key, s': State)
    requires IsRelease(s, hk, k, s') && ReadyRunsOk(s) && AllHardwareOk(s) && InstancesOk(s)
    ensures ReadyRunsOk(s')
  {
    assert HardwareOk(s, hk, s.api.hardware[hk]);
    assert InstanceOk(s, k, s.api.instances[k]);
    assert TenantOk(s.api, hk, s.api.hardware[hk].instanceRef.value);
    forall id | id in s'.readyRuns
      ensures ReadyRunOk(s', s'.readyRuns[id])
    {
      var r := s.readyRuns[id];
      assert ReadyRunOk(s, r);
      if Gone(s.api, r.hardware, r.ref) {
        assert Gone(s'.api, r.hardware, r.ref);
      } else if r.hardware == hk {
        assert Gone(s'.api, r.hardware, r.ref);
      } else {
        assert BoundTo(s', r.machine, r.hardware);
      }
    }
  }

  lemma ReleaseKeepsTenant(s: State, hk: Key, k: Key, s': State)
    requires IsRelease(s, hk, k, s') && InstancesOk(s) && AllHardwareOk(s)
    ensures InstanceOk(s', k, s'.api.instances[k])
    ensures HardwareOk(s, hk, s.api.hardware[hk].(instanceRef := None))
    ensures TenancyChange(s, s', hk, k)
  {
    assert HardwareOk(s, hk, s.api.hardware[hk]);
    assert InstanceOk(s, k, s.api.instances[k]);
  }

  lemma ReleaseKeepsInv(s: State, hk: Key, k: Key, s': State)
    requires Inv(s) && IsRelease(s, hk, k, s')
    ensures Inv(s')
  {
    var obj := s.api.hardware[hk].(instanceRef := None);
    ReleaseKeepsTenant(s, hk, k, s');
    ChangeKeepsReads(s, s', hk, obj);
    ReleaseKeepsMachines(s, hk, k, s');
    ReleaseKeepsReady(s, hk, k, s');
    ChangeKeepsOtherInstances(s, s', hk, k);
    ChangeKeepsProvisioner(s, s', hk, k, obj);
  }
}
