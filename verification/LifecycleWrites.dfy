// What a write to the API server has to respect for the invariant to survive it. A write of an
// instance is described by what it may change of the stored one, whoever makes it; whether a
// particular controller stays within that is shown where its steps are. Everything that talks
// about other objects, machines and runs is kept by every such write.
module LifecycleWrites {
  import opened Common
  import opened Objects
  import opened Store
  import opened Lifecycle
  import opened LifecycleInvariant
  import Provisioner

  // ---------------------------------------------------------------- writes of an instance

  /** The instance moves on, and keeps its hardware while it works on it. */
  predicate MovesOn(before: Instance, obj: Instance) {
    && obj.uid == before.uid
    && PhaseIndex(before.phase) <= PhaseIndex(obj.phase)
    && (ActivePhase(before.phase) ==> obj.hardwareName == before.hardwareName)
  }

  /** Hardware names are dropped, kept, or taken while nobody uses them and nobody else looks. */
  predicate NameOk(s: State, before: Instance, obj: Instance) {
    || obj.hardwareName == before.hardwareName
    || obj.hardwareName == ""
    || (s.lock == None && NameUnused(s.api, obj.hardwareName))
  }

  /** The provisioner run of the instance, if it works on hardware, is not left behind. */
  predicate RunOk(s: State, k: Key, before: Instance, obj: Instance) {
    k in s.provisionerRuns && WorksOnHardware(s.provisionerRuns[k]) ==>
      obj.phase == before.phase && obj.conditions == before.conditions
  }

  /** A write of instance k that leaves every other part of the system in order. */
  predicate InstanceWriteOk(s: State, k: Key, before: Instance, obj: Instance) {
    && InstanceOk(s, k, obj)
    && MovesOn(before, obj)
    && NameOk(s, before, obj)
    && RunOk(s, k, before, obj)
    && (Owns(s, k, before) ==> ActivePhase(obj.phase))
  }

  /** The parts of the state a write of an instance cannot change. */
  predicate OnlyInstances(s: State, s': State) {
    && s' == s.(api := s.api.(instances := s'.api.instances, revision := s'.api.revision))
    && s.api.revision <= s'.api.revision
  }

  lemma InstanceFrame(s: State, s': State, k: Key, bmi: Instance)
    requires OnlyInstances(s, s') && InstanceOk(s, k, bmi)
    ensures InstanceOk(s', k, bmi)
    ensures InstanceOk(s', k, bmi.(version := s'.api.revision))
  {
  }

  lemma InstanceWriteKeepsInstances(s: State, k: Key, obj: Instance)
    requires InstancesOk(s) && k in s.api.instances && InstanceOk(s, k, obj)
    ensures InstancesOk(s.(api := PutInstance(s.api, k, obj)))
  {
    var s' := s.(api := PutInstance(s.api, k, obj));
    forall j | j in s'.api.instances
      ensures InstanceOk(s', j, s'.api.instances[j])
    {
      InstanceFrame(s, s', j, if j == k then obj else s.api.instances[j]);
    }
  }

  lemma InstanceWriteKeepsDistinct(s: State, k: Key, obj: Instance)
    requires InstancesDistinct(s.api) && k in s.api.instances
    requires obj.uid == s.api.instances[k].uid && NameOk(s, s.api.instances[k], obj)
    ensures InstancesDistinct(PutInstance(s.api, k, obj))
  {
    var c := PutInstance(s.api, k, obj);
    forall i, j | i in c.instances && j in c.instances && i != j
      ensures DistinctInstances(c.instances[i], c.instances[j])
    {
      assert DistinctInstances(s.api.instances[i], s.api.instances[j]);
    }
  }

  lemma TenantSurvives(s: State, k: Key, obj: Instance, hk: Key, ref: InstanceRef)
    requires k in s.api.instances && TenantOk(s.api, hk, ref)
    requires MovesOn(s.api.instances[k], obj)
    requires OwnFinalizer !in obj.finalizers ==> obj.phase == Terminated
    requires ref.key == k ==> ActivePhase(obj.phase)
    ensures TenantOk(PutInstance(s.api, k, obj), hk, ref)
  {
  }

  lemma InstanceWriteKeepsHardware(s: State, k: Key, obj: Instance)
    requires AllHardwareOk(s) && k in s.api.instances && InstanceWriteOk(s, k, s.api.instances[k], obj)
    ensures AllHardwareOk(s.(api := PutInstance(s.api, k, obj)))
  {
    var s' := s.(api := PutInstance(s.api, k, obj));
    forall hk | hk in s'.api.hardware
      ensures HardwareOk(s', hk, s'.api.hardware[hk])
    {
      var bmh := s.api.hardware[hk];
      assert HardwareOk(s, hk, bmh);
      if bmh.instanceRef.Some? {
        TenantSurvives(s, k, obj, hk, bmh.instanceRef.value);
      }
    }
  }

  lemma InstanceWriteKeepsMachines(s: State, k: Key, obj: Instance)
    requires AllHardwareOk(s) && MachinesBoundOk(s) && MachinesOk(s)
    requires k in s.api.instances && MovesOn(s.api.instances[k], obj)
    requires Owns(s, k, s.api.instances[k]) ==> ActivePhase(obj.phase)
    requires OwnFinalizer !in obj.finalizers ==> obj.phase == Terminated
    ensures MachinesBoundOk(s.(api := PutInstance(s.api, k, obj)))
    ensures MachinesOk(s.(api := PutInstance(s.api, k, obj)))
  {
    var s' := s.(api := PutInstance(s.api, k, obj));
    assert s'.api.hardware == s.api.hardware;
    forall m | m in s'.bound
      ensures BoundOk(s', m)
    {
      assert BoundOk(s, m);
    }
    forall m
      ensures MachineOk(s', m)
    {
      assert MachineOk(s, m);
      if CleaningNow(s, m) {
        var hk := s.bound[m];
        assert HardwareOk(s, hk, s.api.hardware[hk]);
        TenantSurvives(s, k, obj, hk, s.api.hardware[hk].instanceRef.value);
      }
    }
  }

  lemma InstanceWriteKeepsReads(s: State, k: Key, obj: Instance, j: Key, read: Instance)
    requires InstanceReadOk(s.api, j, read)
    ensures InstanceReadOk(PutInstance(s.api, k, obj), j, read)
  {
  }

  lemma InstanceWriteKeepsController(s: State, k: Key, obj: Instance)
    requires ControllerRunsOk(s)
    ensures ControllerRunsOk(s.(api := PutInstance(s.api, k, obj)))
  {
    forall j | j in s.controllerRuns
      ensures InstanceReadOk(PutInstance(s.api, k, obj), j, s.controllerRuns[j])
    {
      InstanceWriteKeepsReads(s, k, obj, j, s.controllerRuns[j]);
    }
  }

  lemma InstanceWriteKeepsScheduler(s: State, k: Key, obj: Instance)
    requires SchedulerRunsOk(s) && k in s.api.instances && NameOk(s, s.api.instances[k], obj)
    ensures SchedulerRunsOk(s.(api := PutInstance(s.api, k, obj)))
  {
    var s' := s.(api := PutInstance(s.api, k, obj));
    forall j | j in s'.schedulerRuns
      ensures SchedulerRunOk(s', j, s'.schedulerRuns[j])
    {
      assert SchedulerRunOk(s, j, s.schedulerRuns[j]);
      InstanceWriteKeepsReads(s, k, obj, j, s.schedulerRuns[j].bmi);
    }
  }

  lemma HardwareWorkFrame(s: State, s': State, k: Key, r: Provisioner.Run)
    requires OnlyInstances(s, s') && HardwareWorkOk(s, k, r) && StillThere(s'.api, k, r.bmi)
    ensures HardwareWorkOk(s', k, r)
  {
  }

  lemma InstanceWriteKeepsProvisioner(s: State, k: Key, obj: Instance)
    requires ProvisionerRunsOk(s) && k in s.api.instances
    requires MovesOn(s.api.instances[k], obj) && RunOk(s, k, s.api.instances[k], obj)
    requires OwnFinalizer !in obj.finalizers ==> obj.phase == Terminated
    ensures ProvisionerRunsOk(s.(api := PutInstance(s.api, k, obj)))
  {
    var s' := s.(api := PutInstance(s.api, k, obj));
    forall j | j in s'.provisionerRuns
      ensures ProvisionerRunOk(s', j, s'.provisionerRuns[j])
    {
      var r := s.provisionerRuns[j];
      assert ProvisionerRunOk(s, j, r);
      InstanceWriteKeepsReads(s, k, obj, j, r.bmi);
      if WorksOnHardware(r) {
        HardwareWorkFrame(s, s', j, r);
      }
    }
  }

  lemma InstanceWriteKeepsHardwareRuns(s: State, k: Key, obj: Instance)
    requires HardwareRunsOk(s)
    ensures HardwareRunsOk(s.(api := PutInstance(s.api, k, obj)))
  {
    var s' := s.(api := PutInstance(s.api, k, obj));
    forall hk | hk in s'.hardwareRuns
      ensures HardwareRunOk(s', hk, s'.hardwareRuns[hk])
    {
      assert HardwareRunOk(s, hk, s.hardwareRuns[hk]);
    }
  }

  lemma InstanceWriteKeepsReady(s: State, k: Key, obj: Instance)
    requires ReadyRunsOk(s) && k in s.api.instances && MovesOn(s.api.instances[k], obj)
    ensures ReadyRunsOk(s.(api := PutInstance(s.api, k, obj)))
  {
    var s' := s.(api := PutInstance(s.api, k, obj));
    forall id | id in s'.readyRuns
      ensures ReadyRunOk(s', s'.readyRuns[id])
    {
      var r := s.readyRuns[id];
      assert ReadyRunOk(s, r);
      if r.bmi.Some? {
        InstanceWriteKeepsReads(s, k, obj, r.ref.key, r.bmi.value);
      }
    }
  }

  lemma PutInstanceKeepsInv(s: State, k: Key, obj: Instance)
    requires Inv(s) && k in s.api.instances && InstanceWriteOk(s, k, s.api.instances[k], obj)
    ensures Inv(s.(api := PutInstance(s.api, k, obj)))
  {
    InstanceWriteKeepsInstances(s, k, obj);
    InstanceWriteKeepsDistinct(s, k, obj);
    InstanceWriteKeepsHardware(s, k, obj);
    InstanceWriteKeepsMachines(s, k, obj);
    InstanceWriteKeepsController(s, k, obj);
    InstanceWriteKeepsScheduler(s, k, obj);
    InstanceWriteKeepsProvisioner(s, k, obj);
    InstanceWriteKeepsHardwareRuns(s, k, obj);
    InstanceWriteKeepsReady(s, k, obj);
  }
}
