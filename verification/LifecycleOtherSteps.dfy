// The steps of the scheduler, the hardware controller and the /ready handler keep the invariant.
// The scheduler assigns names under its lock that no instance has; the hardware controller never
// touches the tenant of hardware with a write that gets through; and a request of an agent either
// finds the instance it found before or one that is past the point where it matters.
module LifecycleOtherSteps {
  import opened Common
  import opened Objects
  import opened Store
  import opened Lifecycle
  import opened LifecycleInvariant
  import opened LifecycleWrites
  import opened LifecycleHardwareWrites
  import opened LifecycleSteps
  import Scheduler
  import opened Discovery
  import HardwareController
  import HardwareWebhook

  // ---------------------------------------------------------------- scheduler

  lemma EndSchedulerKeepsInv(s: State, k: Key)
    requires Inv(s)
    ensures Inv(EndScheduler(s, k))
  {
    var s' := EndScheduler(s, k);
    RunsFrame(s, s');
    forall j | j in s'.schedulerRuns ensures SchedulerRunOk(s', j, s'.schedulerRuns[j]) {
      assert SchedulerRunOk(s, j, s.schedulerRuns[j]);
    }
  }

  lemma SchedulerEffectIsOk(s: State, k: Key, bmi: Instance)
    requires InstanceOk(s, k, bmi) && (Owns(s, k, bmi) ==> ActivePhase(bmi.phase))
    requires ProvisionerRunsOk(s) && k in s.api.instances && s.api.instances[k] == bmi
    requires Key(k.ns, "") !in s.api.hardware
    ensures var effect := Scheduler.Decide(bmi);
            effect.UpdateInstance? || effect.Unassign? ==> InstanceWriteOk(s, k, bmi, effect.bmi)
  {
    if k in s.provisionerRuns {
      assert ProvisionerRunOk(s, k, s.provisionerRuns[k]);
    }
  }

  lemma NoEmptyName(s: State, ns: string)
    requires AllHardwareOk(s)
    ensures Key(ns, "") !in s.api.hardware
  {
  }

  lemma AssignIsOk(s: State, k: Key, bmi: Instance, name: string)
    requires InstanceOk(s, k, bmi) && (Owns(s, k, bmi) ==> ActivePhase(bmi.phase))
    requires k in s.api.instances && s.api.instances[k] == bmi
    requires Scheduler.Decide(bmi).FindHardware? && s.lock == None && NameUnused(s.api, name)
    ensures InstanceWriteOk(s, k, bmi, bmi.(hardwareName := name))
  {
  }

  lemma SchedulerWriteKeepsInv(s: State, k: Key, obj: Instance)
    requires Inv(s) && k in s.schedulerRuns
    requires var effect := Scheduler.Decide(s.schedulerRuns[k].bmi);
             (effect.UpdateInstance? || effect.Unassign?) && obj == effect.bmi
    ensures Inv(s.(api := WriteInstance(s.api, k, obj)))
  {
    var read := s.schedulerRuns[k].bmi;
    assert SchedulerRunOk(s, k, s.schedulerRuns[k]);
    if k in s.api.instances && s.api.instances[k] == read {
      InstanceFacts(s, k);
      NoEmptyName(s, k.ns);
      SchedulerEffectIsOk(s, k, read);
    }
    WriteInstanceKeepsInv(s, k, read, obj);
  }

  /** The lock is given up first; nobody can take it before the write is done. */
  lemma AssignKeepsInv(s: State, k: Key, read: Instance, name: string)
    requires Inv(s) && InstanceReadOk(s.api, k, read)
    requires Scheduler.Decide(read).FindHardware? && s.lock == None && NameUnused(s.api, name)
    ensures Inv(s.(api := WriteInstance(s.api, k, read.(hardwareName := name))))
  {
    if k in s.api.instances && s.api.instances[k] == read {
      InstanceFacts(s, k);
      AssignIsOk(s, k, read, name);
    }
    WriteInstanceKeepsInv(s, k, read, read.(hardwareName := name));
  }

  /** A run takes one of the steps that write nothing. */
  lemma SchedulerRunChanges(s: State, k: Key, r: SchedulerRun, lock': Option<Key>)
    requires Inv(s)
    requires lock' == s.lock || (lock' == Some(k) && s.lock == None)
    requires SchedulerRunOk(s.(lock := lock'), k, r)
    ensures Inv(s.(schedulerRuns := s.schedulerRuns[k := r], lock := lock'))
  {
    var s' := s.(schedulerRuns := s.schedulerRuns[k := r], lock := lock');
    RunsFrame(s, s');
    forall j | j in s'.schedulerRuns ensures SchedulerRunOk(s', j, s'.schedulerRuns[j]) {
      assert j != k ==> SchedulerRunOk(s, j, s.schedulerRuns[j]);
    }
  }

  lemma SchedulerReadKeepsInv(s: State, e: Event, s': State)
    requires Inv(s) && SchedulerNext(s, e, s')
    requires e.SchedulerRead? || e.SchedulerLock? || e.SchedulerList? || e.SchedulerCheck?
    ensures Inv(s')
  {
    var k := e.k;
    if e.SchedulerRead? {
      InstanceFacts(s, k);
      SchedulerRunChanges(s, k, Unlocked(s.api.instances[k]), s.lock);
      assert s' == s.(schedulerRuns := s.schedulerRuns[k := Unlocked(s.api.instances[k])], lock := s.lock);
    } else {
      assert SchedulerRunOk(s, k, s.schedulerRuns[k]);
      SchedulerRunChanges(s, k, s'.schedulerRuns[k], s'.lock);
      assert s' == s.(schedulerRuns := s.schedulerRuns[k := s'.schedulerRuns[k]], lock := s'.lock);
    }
  }

  lemma SchedulerKeepsInv(s: State, e: Event, s': State)
    requires Inv(s) && SchedulerNext(s, e, s')
    ensures Inv(s')
  {
    if e.SchedulerWrite? || e.SchedulerUnassign? {
      var obj := Scheduler.Decide(s.schedulerRuns[e.k].bmi).bmi;
      SchedulerWriteKeepsInv(s, e.k, obj);
      EndSchedulerKeepsInv(s.(api := WriteInstance(s.api, e.k, obj)), e.k);
      assert s' == EndScheduler(s.(api := WriteInstance(s.api, e.k, obj)), e.k);
    } else if e.SchedulerAssign? {
      SchedulerAssignKeepsInv(s, e, s');
    } else if e.AbortScheduler? {
      EndSchedulerKeepsInv(s, e.k);
      assert s' == EndScheduler(s, e.k);
    } else {
      SchedulerReadKeepsInv(s, e, s');
    }
  }

  lemma SchedulerAssignKeepsInv(s: State, e: Event, s': State)
    requires Inv(s) && e.SchedulerAssign? && SchedulerNext(s, e, s')
    ensures Inv(s')
  {
    var r := s.schedulerRuns[e.k];
    assert SchedulerRunOk(s, e.k, r);
    var s1 := EndScheduler(s, e.k);
    EndSchedulerKeepsInv(s, e.k);
    AssignKeepsInv(s1, e.k, r.bmi, e.name);
    assert s' == s1.(api := WriteInstance(s1.api, e.k, r.bmi.(hardwareName := e.name)));
  }

  // ---------------------------------------------------------------- hardware controller

  /** A pass either keeps the tenant, or takes away a reference that its lookup found stale. */
  lemma HardwareEffectIsOk(h: Hardware, tenant: Option<Option<nat>>, discoveries: seq<Option<Discovered>>)
    requires OwnFinalizer !in h.finalizers ==> h.deleting && h.instanceRef.None?
    ensures var effect := HardwareController.Decide(h, tenant, discoveries);
            effect.Writes() ==>
              && effect.bmh.version == h.version
              && (KeepsTenant(h, effect.bmh) ||
                   (h.instanceRef.Some? && tenant.Some? &&
                    HardwareController.Stale(h.instanceRef.value, tenant.value)))
  {
  }

  lemma HardwareWriteKeepsInv(s: State, k: Key, discoveries: seq<Option<Discovered>>)
    requires Inv(s) && k in s.hardwareRuns
    ensures var r := s.hardwareRuns[k];
            var effect := HardwareController.Decide(r.bmh, r.tenant, discoveries);
            Inv(s.(api := HardwareController.Apply(s.api, k, r.bmh, effect)))
  {
    var r := s.hardwareRuns[k];
    var effect := HardwareController.Decide(r.bmh, r.tenant, discoveries);
    var c := HardwareController.Apply(s.api, k, r.bmh, effect);
    assert HardwareRunOk(s, k, r);
    if effect.DeleteTenant? && r.bmh.instanceRef.Some? {
      DeleteInstanceKeepsInv(s, r.bmh.instanceRef.value.key);
      assert c == Store.DeleteInstance(s.api, r.bmh.instanceRef.value.key);
    } else if c == s.api {
      assert s.(api := c) == s;
    } else {
      HardwareEffectVersion(r.bmh, r.tenant, discoveries);
      hide HardwareController.Decide, HardwareWebhook.Admitted;
      assert HardwareOk(s, k, s.api.hardware[k]);
      HardwareEffectIsOk(r.bmh, r.tenant, discoveries);
      KeepTenantKeepsInv(s, k, effect.bmh);
      assert c == PutHardware(s.api, k, effect.bmh);
    }
  }

  lemma HardwareEffectVersion(h: Hardware, tenant: Option<Option<nat>>, discoveries: seq<Option<Discovered>>)
    ensures var effect := HardwareController.Decide(h, tenant, discoveries);
            effect.Writes() ==> effect.bmh.version == h.version
  {
  }

  lemma HardwareRunChanges(s: State, hk: Key, r: HardwareRun)
    requires Inv(s) && HardwareRunOk(s, hk, r)
    ensures Inv(s.(hardwareRuns := s.hardwareRuns[hk := r]))
  {
    var s' := s.(hardwareRuns := s.hardwareRuns[hk := r]);
    RunsFrame(s, s');
    forall h | h in s'.hardwareRuns ensures HardwareRunOk(s', h, s'.hardwareRuns[h]) {
      assert h != hk ==> HardwareRunOk(s, h, s.hardwareRuns[h]);
    }
  }

  lemma EndHardwareKeepsInv(s: State, hk: Key)
    requires Inv(s)
    ensures Inv(s.(hardwareRuns := s.hardwareRuns - {hk}))
  {
    var s' := s.(hardwareRuns := s.hardwareRuns - {hk});
    RunsFrame(s, s');
    forall h | h in s'.hardwareRuns ensures HardwareRunOk(s', h, s'.hardwareRuns[h]) {
      assert HardwareRunOk(s, h, s.hardwareRuns[h]);
    }
  }

  lemma HardwareReadKeepsInv(s: State, k: Key)
    requires Inv(s) && k in s.api.hardware
    ensures Inv(s.(hardwareRuns := s.hardwareRuns[k := HardwareRun(s.api.hardware[k], None)]))
  {
    assert HardwareOk(s, k, s.api.hardware[k]);
    HardwareRunChanges(s, k, HardwareRun(s.api.hardware[k], None));
  }

  lemma HardwareLookupKeepsInv(s: State, k: Key, r: HardwareRun)
    requires Inv(s) && k in s.hardwareRuns && r == s.hardwareRuns[k] && r.bmh.instanceRef.Some?
    ensures Inv(s.(hardwareRuns := s.hardwareRuns[k :=
                     r.(tenant := Some(InstanceUid(s.api, r.bmh.instanceRef.value.key)))]))
  {
    assert HardwareRunOk(s, k, r);
    if FreshHardware(s.api, k, r.bmh) {
      assert HardwareOk(s, k, s.api.hardware[k]);
    }
    HardwareRunChanges(s, k, r.(tenant := Some(InstanceUid(s.api, r.bmh.instanceRef.value.key))));
  }

  lemma HardwareKeepsInv(s: State, e: Event, s': State)
    requires Inv(s) && HardwareNext(s, e, s')
    ensures Inv(s')
  {
    match e {
      case HardwareRead(k) => HardwareReadKeepsInv(s, k);
      case HardwareLookup(k) =>
        HardwareLookupKeepsInv(s, k, s.hardwareRuns[k]);
      case HardwareWrite(k, discoveries) =>
        HardwareWriteKeepsInv(s, k, discoveries);
        EndHardwareKeepsInv(s.(api := s'.api), k);
      case AbortHardware(k) => EndHardwareKeepsInv(s, k);
    }
  }

  // ---------------------------------------------------------------- /ready

  lemma ReadyRunChanges(s: State, id: nat, r: ReadyRun)
    requires Inv(s) && ReadyRunOk(s, r)
    ensures Inv(s.(readyRuns := s.readyRuns[id := r]))
  {
    var s' := s.(readyRuns := s.readyRuns[id := r]);
    RunsFrame(s, s');
    forall i | i in s'.readyRuns ensures ReadyRunOk(s', s'.readyRuns[i]) {
      assert i != id ==> ReadyRunOk(s, s.readyRuns[i]);
    }
  }

  lemma EndReadyKeepsInv(s: State, id: nat)
    requires Inv(s)
    ensures Inv(s.(readyRuns := s.readyRuns - {id}))
  {
    var s' := s.(readyRuns := s.readyRuns - {id});
    RunsFrame(s, s');
    forall i | i in s'.readyRuns ensures ReadyRunOk(s', s'.readyRuns[i]) {
      assert ReadyRunOk(s, s.readyRuns[i]);
    }
  }

  /** The machine gets a hardware object to be bound to, for the first time since its last
      tenant left. */
  ghost predicate Binds(s: State, machine: string, hk: Key, s': State) {
    && machine !in s.bound && hk in s.api.hardware
    && s.api.hardware[hk].systemUUID == machine && s.api.hardware[hk].instanceRef.Some?
    && s' == s.(bound := s.bound[machine := hk])
  }

  lemma BindInstances(s: State, machine: string, hk: Key, s': State)
    requires InstancesOk(s) && Binds(s, machine, hk, s')
    ensures InstancesOk(s')
  {
    forall k | k in s'.api.instances ensures InstanceOk(s', k, s'.api.instances[k]) {
      assert InstanceOk(s, k, s.api.instances[k]);
    }
  }

  lemma BindHardware(s: State, machine: string, hk: Key, s': State)
    requires AllHardwareOk(s) && Binds(s, machine, hk, s')
    ensures AllHardwareOk(s')
  {
    forall h | h in s'.api.hardware ensures HardwareOk(s', h, s'.api.hardware[h]) {
      assert HardwareOk(s, h, s.api.hardware[h]);
    }
  }

  lemma BindMachines(s: State, machine: string, hk: Key, s': State)
    requires MachinesBoundOk(s) && MachinesOk(s) && Binds(s, machine, hk, s')
    ensures MachinesBoundOk(s') && MachinesOk(s')
  {
    forall m | m in s'.bound ensures BoundOk(s', m) {
      assert m != machine ==> BoundOk(s, m);
    }
    forall m ensures MachineOk(s', m) {
      assert MachineOk(s, m);
    }
  }

  lemma BindRuns(s: State, machine: string, hk: Key, s': State)
    requires SchedulerRunsOk(s) && ProvisionerRunsOk(s) && HardwareRunsOk(s) && ReadyRunsOk(s)
    requires machine !in s.bound
    requires s' == s.(bound := s.bound[machine := hk])
    ensures SchedulerRunsOk(s') && ProvisionerRunsOk(s') && HardwareRunsOk(s') && ReadyRunsOk(s')
  {
    SchedulerRunsFrame(s, s');
    HardwareRunsFrame(s, s');
    forall k | k in s'.provisionerRuns ensures ProvisionerRunOk(s', k, s'.provisionerRuns[k]) {
      assert ProvisionerRunOk(s, k, s.provisionerRuns[k]);
    }
    forall id | id in s'.readyRuns ensures ReadyRunOk(s', s'.readyRuns[id]) {
      assert ReadyRunOk(s, s.readyRuns[id]);
    }
  }

  lemma BoundAlready(s: State, machine: string, hk: Key)
    requires MachinesBoundOk(s) && OnlyHardware(s.api, machine, hk) && machine in s.bound
    ensures s.(bound := s.bound[machine := hk]) == s
  {
    assert BoundOk(s, machine);
    assert s.bound[machine := hk] == s.bound;
  }

  lemma BindAnew(s: State, machine: string, hk: Key, s': State)
    requires Inv(s) && Binds(s, machine, hk, s')
    ensures Inv(s')
  {
    BindInstances(s, machine, hk, s');
    BindHardware(s, machine, hk, s');
    BindMachines(s, machine, hk, s');
    BindRuns(s, machine, hk, s');
  }

  lemma BindKeepsInv(s: State, machine: string, hk: Key)
    requires Inv(s) && OnlyHardware(s.api, machine, hk) && s.api.hardware[hk].instanceRef.Some?
    ensures Inv(s.(bound := s.bound[machine := hk]))
  {
    if machine in s.bound {
      BoundAlready(s, machine, hk);
    } else {
      BindAnew(s, machine, hk, s.(bound := s.bound[machine := hk]));
    }
  }

  lemma ReadyFindKeepsInv(s: State, id: nat, machine: string, hk: Key, s': State)
    requires Inv(s) && ReadyNext(s, ReadyFind(id, machine, hk), s')
    ensures Inv(s')
  {
    var s1 := s.(bound := s.bound[machine := hk]);
    BindKeepsInv(s, machine, hk);
    assert HardwareOk(s, hk, s.api.hardware[hk]);
    var r := ReadyRun(machine, hk, s.api.hardware[hk].instanceRef.value, None);
    ReadyRunChanges(s1, id, r);
    assert s' == s1.(readyRuns := s1.readyRuns[id := r]);
  }

  lemma ReadyWriteIsOk(s: State, r: ReadyRun, bmi: Instance)
    requires ReadyRunOk(s, r) && AllHardwareOk(s)
    requires r.ref.key in s.api.instances && s.api.instances[r.ref.key] == bmi
    requires InstanceOk(s, r.ref.key, bmi) && (Owns(s, r.ref.key, bmi) ==> ActivePhase(bmi.phase))
    requires bmi.uid == r.ref.uid && (bmi.phase == Provisioning || bmi.phase == Cleaning)
    ensures InstanceWriteOk(s, r.ref.key, bmi, bmi.(agentInfo := Some(r.machine)))
  {
    if r.hardware in s.api.hardware {
      assert HardwareOk(s, r.hardware, s.api.hardware[r.hardware]);
    }
  }

  lemma ReadyWriteKeepsInv(s: State, r: ReadyRun, bmi: Instance)
    requires Inv(s) && ReadyRunOk(s, r) && r.bmi == Some(bmi)
    requires bmi.uid == r.ref.uid && (bmi.phase == Provisioning || bmi.phase == Cleaning)
    ensures Inv(s.(api := WriteInstance(s.api, r.ref.key, bmi.(agentInfo := Some(r.machine)))))
  {
    if r.ref.key in s.api.instances && s.api.instances[r.ref.key] == bmi {
      InstanceFacts(s, r.ref.key);
      ReadyWriteIsOk(s, r, bmi);
    }
    WriteInstanceKeepsInv(s, r.ref.key, bmi, bmi.(agentInfo := Some(r.machine)));
  }

  lemma ReadyWriteStep(s: State, id: nat, s': State)
    requires Inv(s) && ReadyNext(s, ReadyWrite(id), s')
    ensures Inv(s')
  {
    var r := s.readyRuns[id];
    var obj := r.bmi.value.(agentInfo := Some(r.machine));
    assert ReadyRunOk(s, r);
    ReadyWriteKeepsInv(s, r, r.bmi.value);
    var s1 := s.(api := WriteInstance(s.api, r.ref.key, obj));
    EndReadyKeepsInv(s1, id);
    assert s' == s1.(readyRuns := s1.readyRuns - {id});
  }

  lemma ReadyKeepsInv(s: State, e: Event, s': State)
    requires Inv(s) && ReadyNext(s, e, s')
    ensures Inv(s')
  {
    match e {
      case ReadyFind(id, machine, hk) => ReadyFindKeepsInv(s, id, machine, hk, s');
      case ReadyRead(id) =>
        var r := s.readyRuns[id];
        assert ReadyRunOk(s, r);
        InstanceFacts(s, r.ref.key);
        ReadyRunChanges(s, id, r.(bmi := Some(s.api.instances[r.ref.key])));
      case ReadyWrite(id) => ReadyWriteStep(s, id, s');
      case AbortReady(id) => EndReadyKeepsInv(s, id);
    }
  }
}
