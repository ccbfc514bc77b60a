// A run that leads to a deletion LifecycleIdentity shows never to end.
module LifecycleNameless {
  import opened Common
  import opened Objects
  import opened Store
  import opened Lifecycle
  import opened LifecycleInvariant
  import opened LifecycleDeletion
  import opened LifecycleReachability
  import opened LifecycleRefinement
  import Provisioner
  import Scheduler

  /** One instance, one hardware object, and nothing in flight. */
  function Alone(k: Key, bmi: Instance, hk: Key, bmh: Hardware, revision: nat): State {
    INIT.(api := Cluster(map[k := bmi], map[hk := bmh], revision, 1))
  }

  lemma AloneWrite(k: Key, bmi: Instance, hk: Key, bmh: Hardware, revision: nat, obj: Instance)
    requires obj.version == bmi.version && !obj.deleting
    ensures var s := Alone(k, bmi, hk, bmh, revision);
            s.(api := WriteInstance(s.api, k, obj)) == Alone(k, obj.(version := revision + 1), hk, bmh, revision + 1)
  {
    var s := Alone(k, bmi, hk, bmh, revision);
    assert s.api.instances[k := obj.(version := revision + 1)] == map[k := obj.(version := revision + 1)];
  }

  lemma FirstPhase(k: Key, bmi: Instance, hk: Key, bmh: Hardware, revision: nat) returns (events: seq<Event>)
    requires !bmi.deleting && bmi.phase == NoPhase
    ensures Leads(Alone(k, bmi, hk, bmh, revision), events,
                  Alone(k, bmi.(phase := Pending, version := revision + 1), hk, bmh, revision + 1))
  {
    AloneWrite(k, bmi, hk, bmh, revision, bmi.(phase := Pending));
    hide Leads;
    events := ControllerReconcileInSteps(Alone(k, bmi, hk, bmh, revision), k);
  }

  lemma SchedulerStage(k: Key, bmi: Instance, hk: Key, bmh: Hardware, revision: nat, obj: Instance) returns (events: seq<Event>)
    requires Scheduler.Decide(bmi) == Scheduler.UpdateInstance(obj) && obj.version == bmi.version && !obj.deleting
    ensures Leads(Alone(k, bmi, hk, bmh, revision), events, Alone(k, obj.(version := revision + 1), hk, bmh, revision + 1))
  {
    var s := Alone(k, bmi, hk, bmh, revision);
    AloneWrite(k, bmi, hk, bmh, revision, obj);
    SchedulerReads(s, k);
    SchedulerWrites(s, k);
    hide Next, Leads, Scheduler.Decide;
    events := [SchedulerRead(k), SchedulerWrite(k)];
    TwoSteps(s, SchedulerRead(k), LifecycleRefinement.Pass(s, k), SchedulerWrite(k),
             Alone(k, obj.(version := revision + 1), hk, bmh, revision + 1));
  }

  lemma AssignStage(k: Key, bmi: Instance, hk: Key, bmh: Hardware, revision: nat, tolerates: Scheduler.Tolerates)
    returns (events: seq<Event>)
    requires Scheduler.Decide(bmi).FindHardware? && bmi.hardwareName == "" && bmi.selector == map[] && !bmi.deleting
    requires hk.ns == k.ns && hk.name != "" && !bmh.deleting && bmh.instanceRef == None && bmh.canProvision && bmh.taints == []
    ensures Leads(Alone(k, bmi, hk, bmh, revision), events,
                  Alone(k, bmi.(hardwareName := hk.name, version := revision + 1), hk, bmh, revision + 1))
  {
    var s := Alone(k, bmi, hk, bmh, revision);
    var s' := Alone(k, bmi.(hardwareName := hk.name, version := revision + 1), hk, bmh, revision + 1);
    AloneWrite(k, bmi, hk, bmh, revision, bmi.(hardwareName := hk.name));
    SchedulerReads(s, k);
    SchedulerLocks(s, k);
    assert Key(k.ns, hk.name) == hk;
    events := AssigningInSteps(s, k, hk.name, tolerates);
    hide Next, Leads, Scheduler.Decide;
    OneStep(LifecycleRefinement.Pass(s, k), SchedulerLock(k), Holding(s, k, map[], {}), events, s');
    OneStep(s, SchedulerRead(k), LifecycleRefinement.Pass(s, k), [SchedulerLock(k)] + events, s');
    events := [SchedulerRead(k)] + ([SchedulerLock(k)] + events);
  }

  lemma DecidesToClaim(k: Key, bmi: Instance, bmh: Hardware)
    requires !bmi.deleting && bmi.phase == Provisioning && bmi.Is(InstanceScheduled, StatusTrue)
    requires !bmh.deleting && bmh.instanceRef == None && bmh.taints == []
    ensures Provisioner.Decide(k, Provisioner.Run(bmi, None, None, None)).NeedHardware?
    ensures Provisioner.Decide(k, Provisioner.Run(bmi, Some(Some(bmh)), None, None)) ==
            Provisioner.UpdateHardware(bmh.(instanceRef := Some(InstanceRef(k, bmi.uid))))
  {
  }

  lemma AloneClaim(k: Key, bmi: Instance, hk: Key, bmh: Hardware, revision: nat, claimed: Hardware)
    requires claimed.version == bmh.version && !claimed.deleting && claimed.instanceRef.Some?
    ensures AfterClaimOrRelease(Alone(k, bmi, hk, bmh, revision), hk, claimed) ==
            Alone(k, bmi, hk, claimed.(version := revision + 1), revision + 1)
  {
    var s := Alone(k, bmi, hk, bmh, revision);
    assert s.api.hardware[hk := claimed.(version := revision + 1)] == map[hk := claimed.(version := revision + 1)];
  }

  lemma ClaimStage(k: Key, bmi: Instance, hk: Key, bmh: Hardware, revision: nat) returns (events: seq<Event>)
    requires !bmi.deleting && bmi.phase == Provisioning && bmi.Is(InstanceScheduled, StatusTrue)
    requires hk == Provisioner.HardwareKey(k, bmi)
    requires !bmh.deleting && bmh.instanceRef == None && bmh.taints == []
    ensures Leads(Alone(k, bmi, hk, bmh, revision), events,
                  Alone(k, bmi, hk, bmh.(instanceRef := Some(InstanceRef(k, bmi.uid)), version := revision + 1), revision + 1))
  {
    var s := Alone(k, bmi, hk, bmh, revision);
    var r, claimed := Provisioner.Run(bmi, None, None, None), bmh.(instanceRef := Some(InstanceRef(k, bmi.uid)));
    var full := r.(bmh := Some(Some(bmh)));
    DecidesToClaim(k, bmi, bmh);
    AloneClaim(k, bmi, hk, bmh, revision, claimed);
    hide Next, Leads, Provisioner.Decide, AfterClaimOrRelease;
    ProvisionerStarts(s, k);
    ReadsHardware(s, k, r);
    ProvisionerWritesHardware(s, k, full);
    var s' := AfterClaimOrRelease(s, hk, claimed);
    TwoSteps(InFlight(s, k, r), ProvisionerReadHardware(k), InFlight(s, k, full), ProvisionerClaimOrRelease(k), s');
    OneStep(s, ProvisionerRead(k), InFlight(s, k, r), [ProvisionerReadHardware(k), ProvisionerClaimOrRelease(k)], s');
    events := [ProvisionerRead(k)] + [ProvisionerReadHardware(k), ProvisionerClaimOrRelease(k)];
  }

  lemma Created(k: Key, obj: Instance, hk: Key, bmh: Hardware) returns (states: seq<State>, events: seq<Event>)
    requires NewInstance(INIT.api, obj) && NewHardware(bmh) && hk.name != ""
    ensures IsRun(states, events) && states != [] && Last(states) == Alone(k, obj.(version := 2), hk, bmh.(version := 1), 2)
  {
    var s1 := INIT.(api := PutHardware(INIT.api, hk, bmh));
    var s2 := s1.(api := AfterCreateInstance(s1.api, k, obj));
    assert s2.api.instances == map[k := obj.(version := 2)] && s2.api.hardware == map[hk := bmh.(version := 1)];
    assert UserNext(INIT, CreateHardware(hk, bmh), s1) && UserNext(s1, CreateInstance(k, obj), s2);
    hide UserNext;
    assert Next(INIT, CreateHardware(hk, bmh), s1) && Next(s1, CreateInstance(k, obj), s2);
    hide Next;
    Extend([INIT], [], CreateHardware(hk, bmh), s1);
    states, events := [INIT] + [s1] + [s2], [] + [CreateHardware(hk, bmh)] + [CreateInstance(k, obj)];
    Extend([INIT] + [s1], [] + [CreateHardware(hk, bmh)], CreateInstance(k, obj), s2);
  }

  lemma DeleteStage(states: seq<State>, events: seq<Event>, k: Key, bmi: Instance, hk: Key, bmh: Hardware, revision: nat)
    returns (s': State)
    requires IsRun(states, events) && Last(states) == Alone(k, bmi, hk, bmh, revision)
    requires !bmi.deleting && bmi.finalizers != {}
    ensures IsRun(states + [s'], events + [DeleteInstance(k)])
    ensures s' == Alone(k, bmi.(deleting := true, version := revision + 1), hk, bmh, revision + 1)
  {
    var s := Alone(k, bmi, hk, bmh, revision);
    s' := Alone(k, bmi.(deleting := true, version := revision + 1), hk, bmh, revision + 1);
    assert s.api.instances[k := bmi.(deleting := true, version := revision + 1)] == s'.api.instances;
    assert UserNext(s, DeleteInstance(k), s');
    hide UserNext, IsRun;
    assert Next(s, DeleteInstance(k), s');
    Extend(states, events, DeleteInstance(k), s');
  }

  /** A pending instance as it is once it is scheduled. */
  function ScheduledOn(bmi: Instance, name: string): Instance {
    bmi.SetCondition(InstanceScheduled, StatusFalse).(hardwareName := name).SetCondition(InstanceScheduled, StatusTrue)
       .(phase := Provisioning, version := bmi.version + 4)
  }

  lemma GetsHardware(k: Key, bmi: Instance, hk: Key, bmh: Hardware, tolerates: Scheduler.Tolerates)
    returns (events: seq<Event>)
    requires !bmi.deleting && bmi.phase == Pending && bmi.conditions == map[] && bmi.hardwareName == "" && bmi.selector == map[]
    requires hk.ns == k.ns && hk.name != "" && !bmh.deleting && bmh.instanceRef == None && bmh.canProvision && bmh.taints == []
    ensures Leads(Alone(k, bmi, hk, bmh, bmi.version), events, Alone(k, ScheduledOn(bmi, hk.name), hk, bmh, bmi.version + 4))
  {
    hide Leads;
    var v := bmi.version;
    var b1 := bmi.SetCondition(InstanceScheduled, StatusFalse).(version := v + 1);
    var b2 := b1.(hardwareName := hk.name, version := v + 2);
    var b3 := b2.SetCondition(InstanceScheduled, StatusTrue).(version := v + 3);
    var b4 := b3.(phase := Provisioning, version := v + 4);
    var e1 := SchedulerStage(k, bmi, hk, bmh, v, b1.(version := v));
    var e2 := AssignStage(k, b1, hk, bmh, v + 1, tolerates);
    var e3 := SchedulerStage(k, b2, hk, bmh, v + 2, b3.(version := v + 2));
    var e4 := SchedulerStage(k, b3, hk, bmh, v + 3, b4.(version := v + 3));
    hide Scheduler.Decide;
    LeadsOn(Alone(k, bmi, hk, bmh, v), e1, Alone(k, b1, hk, bmh, v + 1), e2, Alone(k, b2, hk, bmh, v + 2));
    LeadsOn(Alone(k, b2, hk, bmh, v + 2), e3, Alone(k, b3, hk, bmh, v + 3), e4, Alone(k, b4, hk, bmh, v + 4));
    LeadsOn(Alone(k, bmi, hk, bmh, v), e1 + e2, Alone(k, b2, hk, bmh, v + 2), e3 + e4, Alone(k, b4, hk, bmh, v + 4));
    events := e1 + e2 + (e3 + e4);
  }

  /** A new instance on new hardware, followed until it has claimed the hardware. */
  lemma GetsClaimed(k: Key, obj: Instance, hk: Key, bmh: Hardware, tolerates: Scheduler.Tolerates)
    returns (states: seq<State>, events: seq<Event>, bmi: Instance, h: Hardware, revision: nat)
    requires NewInstance(INIT.api, obj) && obj.selector == map[] && hk.ns == k.ns && hk.name != ""
    requires NewHardware(bmh) && bmh.canProvision && bmh.taints == []
    ensures IsRun(states, events) && states != [] && Last(states) == Alone(k, bmi, hk, h, revision)
    ensures !bmi.deleting && bmi.finalizers == obj.finalizers && bmi.agentInfo.None? && !bmi.Has(InstanceCleaned)
    ensures bmi.phase == Provisioning && bmi.Is(InstanceScheduled, StatusTrue)
    ensures Provisioner.HardwareKey(k, bmi) == hk
    ensures h == bmh.(instanceRef := Some(InstanceRef(k, bmi.uid)), version := h.version)
  {
    hide Leads, IsRun;
    var pending := obj.(phase := Pending, version := 3);
    var placed := ScheduledOn(pending, hk.name);
    states, events := Created(k, obj, hk, bmh);
    var e2 := FirstPhase(k, obj.(version := 2), hk, bmh.(version := 1), 2);
    var e3 := GetsHardware(k, pending, hk, bmh.(version := 1), tolerates);
    var e4 := ClaimStage(k, placed, hk, bmh.(version := 1), 7);
    bmi, h, revision := placed, bmh.(instanceRef := Some(InstanceRef(k, placed.uid)), version := 8), 8;
    LeadsOn(Alone(k, pending, hk, bmh.(version := 1), 3), e3, Alone(k, placed, hk, bmh.(version := 1), 7), e4,
            Alone(k, bmi, hk, h, revision));
    LeadsOn(Alone(k, obj.(version := 2), hk, bmh.(version := 1), 2), e2,
            Alone(k, pending, hk, bmh.(version := 1), 3), e3 + e4, Alone(k, bmi, hk, h, revision));
    states := Continue(states, events, e2 + (e3 + e4), Alone(k, bmi, hk, h, revision));
    events := events + (e2 + (e3 + e4));
  }

  /** A new instance on new hardware without a system UUID, followed until it has claimed the
      hardware and is deleted. */
  lemma NamelessDeletionHappens(k: Key, obj: Instance, hk: Key, bmh: Hardware, tolerates: Scheduler.Tolerates)
    returns (states: seq<State>, events: seq<Event>)
    requires NewInstance(INIT.api, obj) && obj.selector == map[] && hk.ns == k.ns && hk.name != ""
    requires NewHardware(bmh) && bmh.canProvision && bmh.taints == [] && bmh.systemUUID == ""
    ensures IsRun(states, events)
    ensures var s := Last(states);
            && k in s.api.instances && s.api.instances[k].deleting && s.api.instances[k].agentInfo.None?
            && !CleaningFailed(s.api.instances[k])
            && Provisioner.HardwareKey(k, s.api.instances[k]) == hk && Owns(s, k, s.api.instances[k])
            && s.api.hardware[hk].systemUUID == ""
  {
    hide IsRun;
    var bmi, h, revision;
    states, events, bmi, h, revision := GetsClaimed(k, obj, hk, bmh, tolerates);
    var s' := DeleteStage(states, events, k, bmi, hk, h, revision);
    states, events := states + [s'], events + [DeleteInstance(k)];
  }
}
