// The steps of users, machines and the instance controller keep the invariant. A step of a user is
// a write that keeps tenants and uninterrupted phases, or brings an object nobody knew; a step of a
// machine changes its boot and what is on its disks, and concerns only the instance that the
// machine is bound to; and a step that ends a run forgets it.
module LifecycleSteps {
  import opened Common
  import opened Objects
  import opened Store
  import opened Lifecycle
  import opened LifecycleInvariant
  import opened LifecycleWrites
  import opened LifecycleHardwareWrites
  import Provisioner
  import InstanceController
  import InstanceWebhook

  // ---------------------------------------------------------------- users

  lemma NewInstanceUnknown(s: State, k: Key, hk: Key)
    requires AllHardwareOk(s) && k !in s.api.instances && hk in s.api.hardware && s.api.hardware[hk].instanceRef.Some?
    ensures s.api.hardware[hk].instanceRef.value.key != k
  {
    assert HardwareOk(s, hk, s.api.hardware[hk]);
  }

  lemma CreateInstanceKeepsObjects(s: State, k: Key, obj: Instance, s': State)
    requires InstancesOk(s) && InstancesDistinct(s.api) && AllHardwareOk(s)
    requires k !in s.api.instances && NewInstance(s.api, obj) && s' == s.(api := AfterCreateInstance(s.api, k, obj))
    ensures InstancesOk(s') && InstancesDistinct(s'.api) && AllHardwareOk(s')
  {
    forall j | j in s'.api.instances
      ensures InstanceOk(s', j, s'.api.instances[j])
    {
      assert j != k ==> InstanceOk(s, j, s.api.instances[j]);
    }
    forall i, j | i in s'.api.instances && j in s'.api.instances && i != j
      ensures DistinctInstances(s'.api.instances[i], s'.api.instances[j])
    {
      assert i != k ==> InstanceOk(s, i, s.api.instances[i]);
      assert j != k ==> InstanceOk(s, j, s.api.instances[j]);
      assert i != k && j != k ==> DistinctInstances(s.api.instances[i], s.api.instances[j]);
    }
    forall hk | hk in s'.api.hardware
      ensures HardwareOk(s', hk, s'.api.hardware[hk])
    {
      assert HardwareOk(s, hk, s.api.hardware[hk]);
    }
  }

  lemma CreateInstanceKeepsMachines(s: State, k: Key, obj: Instance, s': State)
    requires MachinesBoundOk(s) && MachinesOk(s)
    requires k !in s.api.instances && NewInstance(s.api, obj) && s' == s.(api := AfterCreateInstance(s.api, k, obj))
    ensures MachinesBoundOk(s') && MachinesOk(s')
  {
    forall m | m in s'.bound
      ensures BoundOk(s', m)
    {
      assert BoundOk(s, m);
    }
    forall m
      ensures MachineOk(s', m)
    {
      assert MachineOk(s, m);
    }
  }

  lemma CreateInstanceKeepsRuns(s: State, k: Key, obj: Instance, s': State)
    requires ControllerRunsOk(s) && SchedulerRunsOk(s) && HardwareRunsOk(s)
    requires k !in s.api.instances && NewInstance(s.api, obj) && s' == s.(api := AfterCreateInstance(s.api, k, obj))
    ensures ControllerRunsOk(s') && SchedulerRunsOk(s') && HardwareRunsOk(s')
  {
    forall j | j in s'.controllerRuns
      ensures InstanceReadOk(s'.api, j, s'.controllerRuns[j])
    {
      assert InstanceReadOk(s.api, j, s.controllerRuns[j]);
    }
    forall j | j in s'.schedulerRuns
      ensures SchedulerRunOk(s', j, s'.schedulerRuns[j])
    {
      assert SchedulerRunOk(s, j, s.schedulerRuns[j]);
    }
    forall hk | hk in s'.hardwareRuns
      ensures HardwareRunOk(s', hk, s'.hardwareRuns[hk])
    {
      assert HardwareRunOk(s, hk, s.hardwareRuns[hk]);
    }
  }

  lemma CreateInstanceKeepsReady(s: State, k: Key, obj: Instance, s': State)
    requires ReadyRunsOk(s) && AllHardwareOk(s)
    requires k !in s.api.instances && NewInstance(s.api, obj) && s' == s.(api := AfterCreateInstance(s.api, k, obj))
    ensures ReadyRunsOk(s')
  {
    forall id | id in s'.readyRuns
      ensures ReadyRunOk(s', s'.readyRuns[id])
    {
      var r := s.readyRuns[id];
      assert ReadyRunOk(s, r);
      if !Gone(s.api, r.hardware, r.ref) {
        NewInstanceUnknown(s, k, r.hardware);
      }
    }
  }

  lemma CreateInstanceKeepsProvisioner(s: State, k: Key, obj: Instance, s': State)
    requires ProvisionerRunsOk(s)
    requires k !in s.api.instances && NewInstance(s.api, obj) && s' == s.(api := AfterCreateInstance(s.api, k, obj))
    ensures ProvisionerRunsOk(s')
  {
    forall j | j in s'.provisionerRuns
      ensures ProvisionerRunOk(s', j, s'.provisionerRuns[j])
    {
      var r := s.provisionerRuns[j];
      assert ProvisionerRunOk(s, j, r);
      if WorksOnHardware(r) {
        assert j != k;
        assert HardwareWorkOk(s', j, r);
      }
    }
  }

  lemma CreateInstanceKeepsInv(s: State, k: Key, obj: Instance)
    requires Inv(s) && k !in s.api.instances && NewInstance(s.api, obj)
    ensures Inv(s.(api := AfterCreateInstance(s.api, k, obj)))
  {
    var s' := s.(api := AfterCreateInstance(s.api, k, obj));
    CreateInstanceKeepsObjects(s, k, obj, s');
    CreateInstanceKeepsMachines(s, k, obj, s');
    CreateInstanceKeepsRuns(s, k, obj, s');
    CreateInstanceKeepsReady(s, k, obj, s');
    CreateInstanceKeepsProvisioner(s, k, obj, s');
  }

  /** What the invariant says of one instance. */
  lemma InstanceFacts(s: State, k: Key)
    requires InstancesOk(s) && AllHardwareOk(s) && k in s.api.instances
    ensures InstanceOk(s, k, s.api.instances[k])
    ensures Owns(s, k, s.api.instances[k]) ==> ActivePhase(s.api.instances[k].phase)
  {
    var hk := Provisioner.HardwareKey(k, s.api.instances[k]);
    if hk in s.api.hardware {
      assert HardwareOk(s, hk, s.api.hardware[hk]);
    }
  }

  lemma DeletingIsOk(s: State, k: Key, bmi: Instance)
    requires InstanceOk(s, k, bmi) && (Owns(s, k, bmi) ==> ActivePhase(bmi.phase))
    ensures InstanceWriteOk(s, k, bmi, bmi.(deleting := true))
  {
  }

  lemma ForeignFinalizerIsOk(s: State, k: Key, bmi: Instance, f: Finalizer)
    requires InstanceOk(s, k, bmi) && (Owns(s, k, bmi) ==> ActivePhase(bmi.phase)) && f.ForeignFinalizer?
    ensures InstanceWriteOk(s, k, bmi, bmi.(finalizers := bmi.finalizers - {f}))
  {
  }

  lemma DeleteInstanceKeepsInv(s: State, k: Key)
    requires Inv(s)
    ensures Inv(s.(api := Store.DeleteInstance(s.api, k)))
  {
    if k in s.api.instances && !s.api.instances[k].deleting {
      var obj := s.api.instances[k].(deleting := true);
      InstanceFacts(s, k);
      DeletingIsOk(s, k, s.api.instances[k]);
      PutInstanceKeepsInv(s, k, obj);
      assert s.(api := Store.DeleteInstance(s.api, k)) == s.(api := PutInstance(s.api, k, obj));
    } else {
      assert s.(api := Store.DeleteInstance(s.api, k)) == s;
    }
  }

  lemma ReleaseInstanceKeepsInv(s: State, k: Key, f: Finalizer)
    requires Inv(s) && k in s.api.instances && f.ForeignFinalizer?
    ensures var obj := s.api.instances[k].(finalizers := s.api.instances[k].finalizers - {f});
            Inv(s.(api := SubmitInstance(s.api, k, obj)))
  {
    InstanceFacts(s, k);
    ForeignFinalizerIsOk(s, k, s.api.instances[k], f);
    PutInstanceKeepsInv(s, k, s.api.instances[k].(finalizers := s.api.instances[k].finalizers - {f}));
    assert s.(api := s.api) == s;
  }

  lemma UserKeepsInv(s: State, e: Event, s': State)
    requires Inv(s) && UserNext(s, e, s')
    ensures Inv(s')
  {
    match e {
      case CreateInstance(k, obj) =>
        CreateInstanceKeepsInv(s, k, obj);
        assert s' == s.(api := AfterCreateInstance(s.api, k, obj));
      case DeleteInstance(k) =>
        DeleteInstanceKeepsInv(s, k);
        assert s' == s.(api := Store.DeleteInstance(s.api, k));
      case ReleaseInstance(k, finalizer) =>
        ReleaseInstanceKeepsInv(s, k, finalizer);
      case CreateHardware(_, _) => UserHardwareKeepsInv(s, e, s');
      case EditHardware(_, _) => UserHardwareKeepsInv(s, e, s');
      case DeleteHardware(_) => UserHardwareKeepsInv(s, e, s');
      case ReleaseHardware(_, _) => UserHardwareKeepsInv(s, e, s');
    }
  }

  lemma UserHardwareKeepsInv(s: State, e: Event, s': State)
    requires Inv(s) && UserNext(s, e, s')
    requires e.CreateHardware? || e.EditHardware? || e.DeleteHardware? || e.ReleaseHardware?
    ensures Inv(s')
  {
    match e {
      case CreateHardware(k, bmh) =>
        NewHardwareKeepsInv(s, k, bmh);
        assert s' == s.(api := PutHardware(s.api, k, bmh));
      case EditHardware(k, bmh) =>
        assert HardwareOk(s, k, s.api.hardware[k]);
        KeepTenantKeepsInv(s, k, bmh);
        assert s' == s.(api := PutHardware(s.api, k, bmh)) || s' == s;
      case DeleteHardware(k) =>
        if k in s.api.hardware && !s.api.hardware[k].deleting {
          assert HardwareOk(s, k, s.api.hardware[k]);
          KeepTenantKeepsInv(s, k, s.api.hardware[k].(deleting := true));
          assert s' == s.(api := PutHardware(s.api, k, s.api.hardware[k].(deleting := true)));
        } else {
          assert s' == s;
        }
      case ReleaseHardware(k, finalizer) =>
        assert HardwareOk(s, k, s.api.hardware[k]);
        var obj := s.api.hardware[k].(finalizers := s.api.hardware[k].finalizers - {finalizer});
        KeepTenantKeepsInv(s, k, obj);
        assert s' == s.(api := PutHardware(s.api, k, obj)) || s' == s;
    }
  }

  lemma NewHardwareKeepsInv(s: State, hk: Key, obj: Hardware)
    requires Inv(s) && hk !in s.api.hardware && hk.name != "" && NewHardware(obj)
    ensures Inv(s.(api := PutHardware(s.api, hk, obj)))
  {
    var obj0 := obj.(version := 0);
    NewTenantless(s, hk, obj0);
    PutHardwareKeepsInv(s, hk, obj0);
    assert PutHardware(s.api, hk, obj0) == PutHardware(s.api, hk, obj);
  }

  lemma KeepTenantKeepsInv(s: State, hk: Key, obj: Hardware)
    requires Inv(s) && hk in s.api.hardware && KeepsTenant(s.api.hardware[hk], obj)
    requires obj.version == s.api.hardware[hk].version
    ensures Inv(s.(api := PutHardware(s.api, hk, obj)))
  {
    assert HardwareOk(s, hk, s.api.hardware[hk]);
    KeptTenants(s, hk, obj);
    PutHardwareKeepsInv(s, hk, obj);
  }

  // ---------------------------------------------------------------- machines

  /** While a machine cleans its disks, the tenant whose image is on it is the one being cleaned. */
  lemma CleaningTenant(s: State, m: string, k: Key)
    requires AllHardwareOk(s) && MachinesOk(s) && InstancesDistinct(s.api)
    requires CleaningNow(s, m) && m in s.dirty && k in s.api.instances && s.dirty[m] == s.api.instances[k].uid
    ensures s.api.instances[k].phase == Cleaning
  {
    assert MachineOk(s, m);
    var hk := s.bound[m];
    assert HardwareOk(s, hk, s.api.hardware[hk]);
    var j := s.api.hardware[hk].instanceRef.value.key;
    assert j != k ==> DistinctInstances(s.api.instances[j], s.api.instances[k]);
  }

  /** Only agents and disks changed, and at most one machine was cleaned: one that was cleaning. */
  ghost predicate MachineChange(s: State, s': State) {
    && s' == s.(boots := s'.boots, dirty := s'.dirty)
    && (forall m :: m in s'.dirty ==> m in s.dirty && s'.dirty[m] == s.dirty[m])
    && (forall m :: m in s.dirty && m !in s'.dirty ==> CleaningNow(s, m))
    && (forall m :: CleaningNow(s', m) ==> CleaningNow(s, m))
  }

  lemma MachineChangeKeepsImaged(s: State, s': State, k: Key, bmi: Instance)
    requires AllHardwareOk(s) && MachinesOk(s) && InstancesDistinct(s.api) && MachineChange(s, s')
    requires StillThere(s.api, k, bmi) && bmi.phase != Cleaning && ImagedBy(s, k, bmi)
    ensures ImagedBy(s', k, bmi)
  {
    var m := s.api.hardware[Provisioner.HardwareKey(k, bmi)].systemUUID;
    if m !in s'.dirty {
      CleaningTenant(s, m, k);
    }
  }

  lemma MachineChangeKeepsInstances(s: State, s': State)
    requires AllHardwareOk(s) && MachinesOk(s) && InstancesDistinct(s.api) && MachineChange(s, s') && InstancesOk(s)
    ensures InstancesOk(s')
  {
    forall k | k in s'.api.instances
      ensures InstanceOk(s', k, s'.api.instances[k])
    {
      var bmi := s.api.instances[k];
      assert InstanceOk(s, k, bmi);
      if ImagedBy(s, k, bmi) && bmi.phase != Cleaning {
        MachineChangeKeepsImaged(s, s', k, bmi);
      }
    }
  }

  lemma MachineChangeKeepsProvisioner(s: State, s': State)
    requires AllHardwareOk(s) && MachinesOk(s) && InstancesDistinct(s.api) && MachineChange(s, s')
    requires ProvisionerRunsOk(s)
    ensures ProvisionerRunsOk(s')
  {
    forall k | k in s'.provisionerRuns
      ensures ProvisionerRunOk(s', k, s'.provisionerRuns[k])
    {
      var r := s.provisionerRuns[k];
      assert ProvisionerRunOk(s, k, r);
      if WorksOnHardware(r) && ImagedBy(s, k, r.bmi) && r.bmi.phase != Cleaning {
        MachineChangeKeepsImaged(s, s', k, r.bmi);
      }
    }
  }

  lemma MachineChangeKeepsRest(s: State, s': State)
    requires s' == s.(boots := s'.boots, dirty := s'.dirty)
    requires AllHardwareOk(s) && MachinesBoundOk(s) && SchedulerRunsOk(s) && HardwareRunsOk(s) && ReadyRunsOk(s)
    ensures AllHardwareOk(s') && MachinesBoundOk(s') && SchedulerRunsOk(s') && HardwareRunsOk(s') && ReadyRunsOk(s')
  {
    forall hk | hk in s'.api.hardware ensures HardwareOk(s', hk, s'.api.hardware[hk]) {
      assert HardwareOk(s, hk, s.api.hardware[hk]);
    }
    forall m | m in s'.bound ensures BoundOk(s', m) {
      assert BoundOk(s, m);
    }
    forall k | k in s'.schedulerRuns ensures SchedulerRunOk(s', k, s'.schedulerRuns[k]) {
      assert SchedulerRunOk(s, k, s.schedulerRuns[k]);
    }
    forall hk | hk in s'.hardwareRuns ensures HardwareRunOk(s', hk, s'.hardwareRuns[hk]) {
      assert HardwareRunOk(s, hk, s.hardwareRuns[hk]);
    }
    forall id | id in s'.readyRuns ensures ReadyRunOk(s', s'.readyRuns[id]) {
      assert ReadyRunOk(s, s.readyRuns[id]);
    }
  }

  lemma MachineKeepsMachines(s: State, e: Event, s': State)
    requires MachinesOk(s) && MachineNext(s, e, s')
    ensures MachinesOk(s') && MachineChange(s, s')
  {
    forall m
      ensures MachineOk(s', m)
    {
      assert MachineOk(s, m);
    }
  }

  lemma MachineKeepsInv(s: State, e: Event, s': State)
    requires Inv(s) && MachineNext(s, e, s')
    ensures Inv(s')
  {
    MachineKeepsMachines(s, e, s');
    MachineChangeKeepsRest(s, s');
    MachineChangeKeepsInstances(s, s');
    MachineChangeKeepsProvisioner(s, s');
  }

  // ---------------------------------------------------------------- compare-and-swap writes

  /** A refused write changes nothing; an accepted one acts on exactly what was read. */
  lemma WriteInstanceKeepsInv(s: State, k: Key, read: Instance, obj: Instance)
    requires Inv(s) && InstanceReadOk(s.api, k, read) && obj.version == read.version
    requires k in s.api.instances && s.api.instances[k] == read ==> InstanceWriteOk(s, k, read, obj)
    ensures Inv(s.(api := WriteInstance(s.api, k, obj)))
  {
    if FreshInstance(s.api, k, obj) {
      PutInstanceKeepsInv(s, k, obj);
    }
  }

  // ---------------------------------------------------------------- instance controller

  lemma ControllerWriteIsOk(s: State, k: Key, bmi: Instance)
    requires InstanceOk(s, k, bmi) && (Owns(s, k, bmi) ==> ActivePhase(bmi.phase))
    requires ProvisionerRunsOk(s) && k in s.api.instances && s.api.instances[k] == bmi
    requires !InstanceController.Decide(bmi).NoEffect?
    requires InstanceController.Decide(bmi).Update? ==>
               InstanceWebhook.Admitted(bmi, InstanceController.Decide(bmi).bmi)
    ensures InstanceWriteOk(s, k, bmi, InstanceController.Decide(bmi).bmi)
  {
    if k in s.provisionerRuns {
      assert ProvisionerRunOk(s, k, s.provisionerRuns[k]);
    }
  }

  lemma AbortControllerKeepsInv(s: State, k: Key)
    requires Inv(s)
    ensures Inv(s.(controllerRuns := s.controllerRuns - {k}))
  {
    RunsFrame(s, s.(controllerRuns := s.controllerRuns - {k}));
  }

  /** The parts of the invariant that only look at objects and machines. */
  lemma RunsFrame(s: State, s': State)
    requires Inv(s)
    requires s'.api == s.api && s'.boots == s.boots && s'.dirty == s.dirty && s'.bound == s.bound
    ensures InstancesOk(s') && InstancesDistinct(s'.api) && AllHardwareOk(s') && MachinesBoundOk(s') && MachinesOk(s')
    ensures s'.controllerRuns == s.controllerRuns ==> ControllerRunsOk(s')
    ensures s'.schedulerRuns == s.schedulerRuns && s'.lock == s.lock ==> SchedulerRunsOk(s')
    ensures s'.provisionerRuns == s.provisionerRuns ==> ProvisionerRunsOk(s')
    ensures s'.hardwareRuns == s.hardwareRuns ==> HardwareRunsOk(s')
    ensures s'.readyRuns == s.readyRuns ==> ReadyRunsOk(s')
  {
    ObjectsFrame(s, s');
    MachinesFrame(s, s');
    if s'.schedulerRuns == s.schedulerRuns && s'.lock == s.lock {
      SchedulerRunsFrame(s, s');
    }
    if s'.provisionerRuns == s.provisionerRuns {
      ProvisionerRunsFrame(s, s');
    }
    if s'.hardwareRuns == s.hardwareRuns {
      HardwareRunsFrame(s, s');
    }
    if s'.readyRuns == s.readyRuns {
      ReadyRunsFrame(s, s');
    }
  }

  lemma ObjectsFrame(s: State, s': State)
    requires InstancesOk(s) && AllHardwareOk(s)
    requires s'.api == s.api && s'.dirty == s.dirty && s'.bound == s.bound
    ensures InstancesOk(s') && AllHardwareOk(s')
  {
    forall k | k in s'.api.instances ensures InstanceOk(s', k, s'.api.instances[k]) {
      assert InstanceOk(s, k, s.api.instances[k]);
    }
    forall hk | hk in s'.api.hardware ensures HardwareOk(s', hk, s'.api.hardware[hk]) {
      assert HardwareOk(s, hk, s.api.hardware[hk]);
    }
  }

  lemma MachinesFrame(s: State, s': State)
    requires MachinesBoundOk(s) && MachinesOk(s)
    requires s'.api == s.api && s'.boots == s.boots && s'.dirty == s.dirty && s'.bound == s.bound
    ensures MachinesBoundOk(s') && MachinesOk(s')
  {
    forall m | m in s'.bound ensures BoundOk(s', m) {
      assert BoundOk(s, m);
    }
    forall m ensures MachineOk(s', m) {
      assert MachineOk(s, m);
    }
  }

  lemma SchedulerRunsFrame(s: State, s': State)
    requires SchedulerRunsOk(s) && s'.api == s.api && s'.schedulerRuns == s.schedulerRuns && s'.lock == s.lock
    ensures SchedulerRunsOk(s')
  {
    forall k | k in s'.schedulerRuns ensures SchedulerRunOk(s', k, s'.schedulerRuns[k]) {
      assert SchedulerRunOk(s, k, s.schedulerRuns[k]);
    }
  }

  lemma ProvisionerRunFrame(s: State, s': State, k: Key, r: Provisioner.Run)
    requires s'.api == s.api && s'.boots == s.boots && s'.dirty == s.dirty && s'.bound == s.bound
    requires ProvisionerRunOk(s, k, r)
    ensures ProvisionerRunOk(s', k, r)
  {
  }

  lemma ProvisionerRunsFrame(s: State, s': State)
    requires ProvisionerRunsOk(s) && s'.provisionerRuns == s.provisionerRuns
    requires s'.api == s.api && s'.boots == s.boots && s'.dirty == s.dirty && s'.bound == s.bound
    ensures ProvisionerRunsOk(s')
  {
    forall k | k in s'.provisionerRuns ensures ProvisionerRunOk(s', k, s'.provisionerRuns[k]) {
      ProvisionerRunFrame(s, s', k, s.provisionerRuns[k]);
    }
  }

  lemma HardwareRunsFrame(s: State, s': State)
    requires HardwareRunsOk(s) && s'.api == s.api && s'.hardwareRuns == s.hardwareRuns
    ensures HardwareRunsOk(s')
  {
    forall hk | hk in s'.hardwareRuns ensures HardwareRunOk(s', hk, s'.hardwareRuns[hk]) {
      assert HardwareRunOk(s, hk, s.hardwareRuns[hk]);
    }
  }

  lemma ReadyRunsFrame(s: State, s': State)
    requires ReadyRunsOk(s) && s'.api == s.api && s'.bound == s.bound && s'.readyRuns == s.readyRuns
    ensures ReadyRunsOk(s')
  {
    forall id | id in s'.readyRuns ensures ReadyRunOk(s', s'.readyRuns[id]) {
      assert ReadyRunOk(s, s.readyRuns[id]);
    }
  }

  lemma ControllerWriteKeepsInv(s: State, k: Key)
    requires Inv(s) && k in s.controllerRuns
    ensures var effect := InstanceController.Decide(s.controllerRuns[k]);
            Inv(s.(api := InstanceController.Apply(s.api, k, effect)))
  {
    var read := s.controllerRuns[k];
    var effect := InstanceController.Decide(read);
    assert InstanceReadOk(s.api, k, read);
    if InstanceController.Apply(s.api, k, effect) == s.api {
      assert s.(api := s.api) == s;
    } else {
      InstanceFacts(s, k);
      ControllerWriteIsOk(s, k, read);
      WriteInstanceKeepsInv(s, k, read, effect.bmi);
    }
  }

  lemma ControllerKeepsInv(s: State, e: Event, s': State)
    requires Inv(s) && ControllerNext(s, e, s')
    ensures Inv(s')
  {
    match e {
      case ControllerRead(k) =>
        RunsFrame(s, s');
        InstanceFacts(s, k);
      case ControllerWrite(k) =>
        ControllerWriteKeepsInv(s, k);
        AbortControllerKeepsInv(s.(api := s'.api), k);
      case AbortController(k) => AbortControllerKeepsInv(s, k);
    }
  }
}
